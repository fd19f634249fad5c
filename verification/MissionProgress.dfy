/** An uninterrupted mission never gets stuck: as long as the vehicle accepts mode requests and custom actions move it
    only while they are the current item, the continuation of the mission is always pending somewhere, and delivering
    it moves the mission on by one item, up to its completion. */
module MissionProgress {
  import opened Wrappers
  import opened JsonValues
  import opened Missions
  import opened PersistentStates
  import opened Segments
  import OrderedMaps
  import opened MissionTypes
  import opened MissionSteps
  import opened MissionHandlers
  import opened MissionTokens
  import opened MissionIndex
  import opened MissionRun

  // ---- Where the continuation is ----

  predicate Owed(k: Control, c: Closure) {
    c == ItemDone(k.handler)
  }

  predicate OwedFrame(k: Control, f: Frame) {
    match f
    case Invoke(c) => Owed(k, c)
    case Perform(_, _, done) => Owed(k, done)
    case ArmTimer(done) => Owed(k, done)
    case StartItem(_, _) => true
    case Activated(_, _) => true
    case _ => false
  }

  predicate OwedRun(k: Control, r: nat) {
    r < |k.runs| && r !in k.completedRuns && Owed(k, k.runs[r].done)
  }

  ghost predicate InStack(k: Control) {
    exists i: nat :: i < |k.stack| && OwedFrame(k, k.stack[i])
  }

  ghost predicate InRuns(k: Control) {
    exists r: nat :: OwedRun(k, r)
  }

  predicate InMode(k: Control) {
    k.scheduled.Some? && Owed(k, k.scheduled.value.done)
  }

  predicate InTimer(k: Control) {
    k.holdTimer.Some? && Owed(k, k.holdTimer.value)
  }

  /** Where no mode request, timer or trajectory can displace it. */
  ghost predicate Held(k: Control) {
    InStack(k) || InRuns(k)
  }

  ghost predicate Alive(k: Control) {
    Held(k) || InMode(k) || InTimer(k) || SegmentLive(k)
  }

  // ---- What the environment does ----

  predicate TakesVehicle(command: Command) {
    command.RunMode? || command.RunAction? || command.RunTrajectory?
  }

  /** A callback that takes neither a detour after a failed return nor the way back after a takeoff. */
  predicate Straight(c: Closure) {
    !c.ResumeDone? && !c.TryDescend? && !c.AfterTakeoff?
  }

  ghost predicate Helps(s: State, l: Label) {
    && l.answer.Accepted?
    && (l.External? && l.event.ModeFinished? ==> l.event.outcome.Succeeded?)
    && (l.User? && TakesVehicle(l.command) ==> InRuns(s.control))
    && (s.control.Top().Invoke? ==> Straight(s.control.Top().c))
  }

  /** The run stays uninterrupted, the vehicle accepts mode requests and completes modes, and the code of custom
      actions moves the vehicle only while one of them is the current item. */
  ghost predicate Cooperates(c: Setup, s: State, l: Label) {
    Steady(c, s, l) && Helps(s, l)
  }

  // ---- The invariant ----

  predicate RunFrame(f: Frame) {
    f.Invoke? || f.Perform? || f.Client? || f.ActivatedHook? || f.Activated? || f.Restore? || f.StartItem? ||
      f.ArmTimer? || f.EnterTrajectory?
  }

  /** The loop over the stored actions is right above the start of the item, and the timer is armed at once. */
  predicate ShapedAt(k: Control, i: nat)
    requires i < |k.stack|
  {
    && RunFrame(k.stack[i])
    && (k.stack[i].Restore? ==> i > 0 && k.stack[i - 1].StartItem?)
    && (k.stack[i].ArmTimer? || k.stack[i].Perform? ==> i == |k.stack| - 1)
    && (k.stack[i].ActivatedHook? ==> i == |k.stack| - 1)
    && (k.stack[i].Activated? ==>
          k.stack[i].handler == k.handler && k.stack[i].fromBeginning
          && (i == |k.stack| - 1 || k.stack[i + 1].ActivatedHook?))
  }

  /** Client code of the activation, and what follows it, runs before anything else. */
  predicate Entering(k: Control) {
    k.stack != [] && (k.Top().Activated? || k.Top().ActivatedHook?)
  }

  ghost predicate Shaped(k: Control) {
    forall i: nat :: i < |k.stack| ==> ShapedAt(k, i)
  }

  /** The start of an item waits below a restored action. */
  predicate Restoring(k: Control) {
    |k.stack| >= 3 && k.stack[|k.stack| - 3].StartItem?
  }

  /** What is about to use the vehicle without being the continuation does not displace it. */
  ghost predicate Guarded(k: Control) {
    k.stack != [] && (k.Top().Perform? || k.Top().ArmTimer?) && !OwedFrame(k, k.Top()) ==> InRuns(k) || Restoring(k)
  }

  /** A segment in flight is followed, at the latest when the mode switch has returned. */
  ghost predicate Followed(s: State) {
    SegmentLive(s.control) ==>
      s.itemState.Trajectory? || exists i: nat :: i < |s.control.stack| && s.control.stack[i].EnterTrajectory?
  }

  ghost predicate Lively(s: State) {
    && s.active && Shaped(s.control) && Guarded(s.control) && Followed(s)
    && (AtItem(s) ==> Alive(s.control))
  }

  // ---- Only one place ----

  lemma {:induction false} RunCounted(cur: nat, runs: seq<Run>, completed: set<nat>, r: nat)
    requires r < |runs| && r !in completed && runs[r].done == ItemDone(cur)
    ensures TokRuns(cur, All, runs, completed) >= 1
  {
    if r < |runs| - 1 {
      RunCounted(cur, runs[..|runs| - 1], completed, r);
    }
  }

  lemma {:induction false} FrameCounted(cur: nat, stack: seq<Frame>, i: nat)
    requires i < |stack| && TokFrame(cur, All, stack[i]) >= 1
    ensures TokStack(cur, All, stack) >= 1
  {
    if i < |stack| - 1 {
      FrameCounted(cur, stack[..|stack| - 1], i);
    }
  }

  lemma OwedCounts(k: Control, f: Frame)
    requires OwedFrame(k, f)
    ensures TokFrame(k.handler, All, f) >= 1
  {
  }

  /** What is held is not in flight. */
  lemma HeldNotFlying(k: Control)
    requires Count(k, All) <= 1 && Held(k)
    ensures !SegmentLive(k)
  {
    if r: nat :| OwedRun(k, r) {
      RunCounted(k.handler, k.runs, k.completedRuns, r);
    } else {
      var i: nat :| i < |k.stack| && OwedFrame(k, k.stack[i]);
      OwedCounts(k, k.stack[i]);
      FrameCounted(k.handler, k.stack, i);
    }
  }

  // ---- Frames come and go ----

  lemma PopShaped(k: Control)
    requires k.stack != [] && Shaped(k)
    ensures Shaped(k.Popped())
    ensures k.Popped().stack != [] ==> !k.Popped().Top().Perform? && !k.Popped().Top().ArmTimer?
    ensures !k.Top().ActivatedHook? ==> !Entering(k.Popped())
  {
    var m := k.Popped();
    forall i: nat | i < |m.stack|
      ensures ShapedAt(m, i) && !m.stack[i].Perform? && !m.stack[i].ArmTimer? && !m.stack[i].ActivatedHook?
      ensures m.stack[i].Activated? ==> k.stack[i + 1].ActivatedHook?
    {
      assert ShapedAt(k, i);
      assert i + 1 < |k.stack|;
    }
  }

  lemma PopHeld(k: Control)
    requires k.stack != []
    ensures Held(k) ==> Held(k.Popped()) || OwedFrame(k, k.Top())
    ensures Alive(k) ==> Alive(k.Popped()) || OwedFrame(k, k.Top())
    ensures Held(k.Popped()) || OwedFrame(k, k.Top()) ==> Held(k)
  {
    var m := k.Popped();
    if i: nat :| i < |k.stack| && OwedFrame(k, k.stack[i]) {
      assert i < |m.stack| ==> OwedFrame(m, m.stack[i]);
    }
    if i: nat :| i < |m.stack| && OwedFrame(m, m.stack[i]) {
      assert OwedFrame(k, k.stack[i]);
    }
    if r: nat :| OwedRun(k, r) {
      assert OwedRun(m, r);
    }
    if r: nat :| OwedRun(m, r) {
      assert OwedRun(k, r);
    }
    assert OwedFrame(k, k.Top()) ==> InStack(k);
  }

  /** What is about to use the vehicle is the continuation, or leaves it where it is. */
  lemma GuardedHeld(k: Control)
    requires k.stack != [] && Guarded(k) && (k.Top().Perform? || k.Top().ArmTimer?)
    ensures OwedFrame(k, k.Top()) || Held(k.Popped())
    ensures Held(k)
  {
    var m := k.Popped();
    if !OwedFrame(k, k.Top()) {
      if Restoring(k) {
        assert OwedFrame(m, m.stack[|k.stack| - 3]);
      } else {
        var r: nat :| OwedRun(k, r);
        assert OwedRun(m, r);
      }
    }
    PopHeld(k);
  }

  lemma PushShaped(m: Control, f: Frame)
    requires Shaped(m) && (m.stack != [] ==> !m.Top().Perform? && !m.Top().ArmTimer?) && !Entering(m)
    requires RunFrame(f) && !f.Restore? && (f.Activated? ==> f.handler == m.handler && f.fromBeginning)
    ensures Shaped(m.Push(f))
  {
    var l := m.Push(f);
    forall i: nat | i < |l.stack|
      ensures ShapedAt(l, i)
    {
      assert i < |m.stack| ==> ShapedAt(m, i);
    }
  }

  lemma PushHeld(m: Control, f: Frame)
    ensures Held(m) || OwedFrame(m, f) ==> Held(m.Push(f))
    ensures Alive(m) || OwedFrame(m, f) ==> Alive(m.Push(f))
  {
    var l := m.Push(f);
    assert l.stack[|m.stack|] == f;
    if i: nat :| i < |m.stack| && OwedFrame(m, m.stack[i]) {
      assert OwedFrame(l, l.stack[i]);
    }
    if r: nat :| OwedRun(m, r) {
      assert OwedRun(l, r);
    }
  }

  /** Only the places other than the stack and the runs change. */
  lemma SlotsHeld(m: Control, l: Control)
    requires l.stack == m.stack && l.runs == m.runs && l.completedRuns == m.completedRuns && l.handler == m.handler
    ensures Held(m) == Held(l) && InRuns(m) == InRuns(l)
    ensures Shaped(m) ==> Shaped(l)
  {
    if Shaped(m) {
      forall i: nat | i < |l.stack|
        ensures ShapedAt(l, i)
      {
        assert ShapedAt(m, i);
      }
    }
    if i: nat :| i < |m.stack| && OwedFrame(m, m.stack[i]) {
      assert OwedFrame(l, l.stack[i]);
    }
    if i: nat :| i < |l.stack| && OwedFrame(l, l.stack[i]) {
      assert OwedFrame(m, m.stack[i]);
    }
    if r: nat :| OwedRun(m, r) {
      assert OwedRun(l, r);
    }
    if r: nat :| OwedRun(l, r) {
      assert OwedRun(m, r);
    }
  }

  /** Popping and pushing keep a segment followed, but for the return of the mode switch. */
  lemma FollowedStill(s: State, t: State)
    requires Followed(s) && s.control.stack != [] && !s.control.Top().EnterTrajectory?
    requires t.itemState == s.itemState && (SegmentLive(t.control) ==> SegmentLive(s.control))
    requires |t.control.stack| >= |s.control.stack| - 1
    requires t.control.stack[..|s.control.stack| - 1] == s.control.stack[..|s.control.stack| - 1]
    ensures Followed(t)
  {
    if SegmentLive(t.control) && !s.itemState.Trajectory? {
      var i: nat :| i < |s.control.stack| && s.control.stack[i].EnterTrajectory?;
      assert t.control.stack[..|s.control.stack| - 1][i] == s.control.stack[i];
    }
  }

  // ---- Steps: callbacks ----

  /** The state once the frame has been taken, and what is pushed then. */
  lemma PushLively(s: State, t: State, f: Frame)
    requires Lively(s) && s.control.stack != [] && !s.control.Top().EnterTrajectory? && !s.control.Top().ActivatedHook?
    requires t.control == s.control.Popped().Push(f) && t.itemState == s.itemState && t.active
    requires RunFrame(f) && !f.Restore? && !f.Activated? && !f.Perform? && !f.ArmTimer?
    requires OwedFrame(s.control, s.control.Top()) ==> OwedFrame(s.control, f)
    requires AtItem(t) ==> AtItem(s)
    ensures Lively(t)
  {
    hide Held, Shaped;
    var m := s.control.Popped();
    PopShaped(s.control);
    PopHeld(s.control);
    PushShaped(m, f);
    PushHeld(m, f);
    assert t.control.stack[..|m.stack|] == m.stack;
    FollowedStill(s, t);
  }

  lemma PopLively(s: State, t: State)
    requires Lively(s) && s.control.stack != [] && !s.control.Top().EnterTrajectory?
    requires t.control == s.control.Popped() && t.itemState == s.itemState && t.active
    requires !OwedFrame(s.control, s.control.Top())
    requires AtItem(t) ==> AtItem(s)
    ensures Lively(t)
  {
    hide Held, Shaped;
    PopShaped(s.control);
    PopHeld(s.control);
    FollowedStill(s, t);
  }

  lemma InvokeState(c: Setup, s: State, closure: Closure, answer: Answer)
    requires OneValidHandler(s.control) && Straight(closure)
    ensures InvokeStep(c, s, closure, answer)
         == if closure == ItemDone(s.control.handler) then RunNextItem(s)
            else match closure case UserCode(_, run) => s.Push(Client(run)) case _ => s
  {
    hide RunNextItem, ResumeMission, HandlerMode, NavigateToPreviousWaypoint;
    assert closure.ItemDone? ==> (s.control.IsValid(closure.handler) <==> closure.handler == s.control.handler);
  }

  lemma PoppedActive(s: State)
    requires s.control.stack != [] && Lively(s)
    ensures Popped(s).active && Popped(s).itemState == s.itemState && Popped(s).control == s.control.Popped()
  {
    hide Held, Shaped, Alive;
  }

  // ---- Steps: actions ----

  predicate UsesMode(kind: ActionKind) {
    kind.Takeoff? || kind.Rtl? || kind.Land? || kind.OnFailure?
  }

  lemma ModeAccepted(s: State, mode: nat, done: Closure, onFailure: Option<Closure>)
    requires s.active
    ensures RunModeStep(s, mode, done, onFailure, Accepted)
         == s.(itemState := Other, activeMode := mode,
               control := s.control.(scheduled := Some(ModeCallback(done, onFailure))))
  {
    hide StartAbort;
  }

  lemma ModeActionState(c: Setup, s: State, name: string, arguments: Json, done: Closure)
    requires s.active && name in c.actions && UsesMode(c.actions[name])
    requires !PerformStep(c, s, name, arguments, done, Accepted).crashed
    ensures var t := PerformStep(c, s, name, arguments, done, Accepted);
      && t.active && t.control == s.control.(scheduled := t.control.scheduled)
      && t.control.scheduled.Some? && t.control.scheduled.value.done == done
  {
    hide RunModeStep, ResumeStep, ChangeSettingsStep, HoldStep, RunCustomStep, KeepsStore, KeepsSegment,
      StartsNoSettings, SamePlace;
    ModeAccepted(s, TAKEOFF, done, None);
    ModeAccepted(s, RTL, done, None);
    ModeAccepted(s, LAND, done, None);
    ModeAccepted(s, RTL, done, Some(TryDescend(s.control.handler, done)));
  }

  lemma HoldActionState(c: Setup, s: State, name: string, arguments: Json, done: Closure)
    requires s.active && name in c.actions && c.actions[name].Hold?
    requires !PerformStep(c, s, name, arguments, done, Accepted).crashed
    ensures var t := PerformStep(c, s, name, arguments, done, Accepted);
      && t.active && t.control == s.control.Push(ArmTimer(done)).(scheduled := Some(ModeCallback(Nop, None)))
  {
    hide RunModeStep, ResumeStep, ChangeSettingsStep, TakeoffStep, RunCustomStep, KeepsStore, KeepsSegment,
      StartsNoSettings, SamePlace;
    ModeAccepted(s.Push(ArmTimer(done)), LOITER, Nop, None);
  }

  lemma OtherActionState(c: Setup, s: State, name: string, arguments: Json, done: Closure)
    requires name in c.actions &&
      (c.actions[name].ChangeSettings? || c.actions[name].Custom?)
    requires !PerformStep(c, s, name, arguments, done, Accepted).crashed
    ensures var t := PerformStep(c, s, name, arguments, done, Accepted);
      && t.active == s.active && t.itemState == s.itemState
      && t.control == if c.actions[name].Custom? then
           s.control.(runs := s.control.runs + [Run(s.control.handler, done)]).Push(Client(|s.control.runs|))
         else s.control.Push(Invoke(done))
  {
    hide RunModeStep, ResumeStep, TakeoffStep, HoldStep, KeepsStore, KeepsSegment, StartsNoSettings, SamePlace,
      ChangedSettings;
    if c.actions[name].ChangeSettings? {
      ChangedActive(s, arguments);
    }
  }

  lemma DroppedActive(s: State)
    ensures var t := DropSettingsKeeper(s); t.active == s.active && t.itemState == s.itemState && t.control == s.control
  {
  }

  lemma StoredActive(s: State, options: TrajectoryOptions)
    ensures var t := StoreSettings(s, options);
      t.active == s.active && t.itemState == s.itemState && t.control == s.control
  {
    hide EncodeOptions, TrajectoryOptions.CombinedWith, DropSettingsKeeper, SamePlace;
    var t := s.(options := s.options.CombinedWith(options));
    DroppedActive(AddContinuousAction(t, ActionState("changeSettings", EncodeOptions(options))));
  }

  lemma ChangedActive(s: State, arguments: Json)
    requires ChangedSettings(s, arguments).Success?
    ensures var t := ChangedSettings(s, arguments).value;
      t.active == s.active && t.itemState == s.itemState && t.control == s.control
  {
    hide MergedOptions, ResetsAll, StoreSettings, DropSettingsKeeper, SamePlace;
    DroppedActive(s.(options := s.mission.defaults));
    if MergedOptions(s.options, arguments).Success? {
      StoredActive(s, MergedOptions(s.options, arguments).value);
    }
  }

  /** A mode is requested in place of whatever was scheduled. */
  lemma ScheduledAlive(m: Control, l: Control)
    requires l == m.(scheduled := l.scheduled) && l.scheduled.Some?
    requires Held(m) || Owed(m, l.scheduled.value.done)
    requires Shaped(m)
    ensures Shaped(l) && Alive(l) && (Held(m) ==> Held(l))
  {
    hide Held, Shaped;
    SlotsHeld(m, l);
  }

  lemma NotFlying(c: Setup, s: State)
    requires Placed(c, s) && Held(s.control)
    ensures !SegmentLive(s.control)
  {
    hide Held, Count, ClosuresCoherent, StackCoherent;
    HeldNotFlying(s.control);
  }

  lemma ModeActionLively(c: Setup, s: State, t: State)
    requires Placed(c, s) && Lively(s) && s.control.stack != [] && s.control.Top().Perform?
    requires t.active && t.control == s.control.Popped().(scheduled := t.control.scheduled)
    requires t.control.scheduled.Some? && t.control.scheduled.value.done == s.control.Top().done
    ensures Lively(t)
  {
    hide Placed, Held, Shaped, Alive;
    PopShaped(s.control);
    GuardedHeld(s.control);
    ScheduledAlive(s.control.Popped(), t.control);
    NotFlying(c, s);
  }

  lemma HoldActionLively(c: Setup, s: State, t: State)
    requires Placed(c, s) && Lively(s) && s.control.stack != [] && s.control.Top().Perform?
    requires t.active && t.control
      == s.control.Popped().Push(ArmTimer(s.control.Top().done)).(scheduled := Some(ModeCallback(Nop, None)))
    ensures Lively(t)
  {
    hide Placed, Held, Shaped, Alive;
    var k, m, done := s.control, s.control.Popped(), s.control.Top().done;
    PopShaped(k);
    GuardedHeld(k);
    NotFlying(c, s);
    PushShaped(m, ArmTimer(done));
    PushHeld(m, ArmTimer(done));
    SlotsHeld(m.Push(ArmTimer(done)), t.control);
    RunsStay(k, t.control);
    HeldAlive(t.control);
  }

  lemma HeldAlive(k: Control)
    requires Held(k)
    ensures Alive(k)
  {
  }

  lemma RunsStay(k: Control, l: Control)
    requires l.runs == k.runs && l.completedRuns == k.completedRuns && l.handler == k.handler
    ensures InRuns(k) ==> InRuns(l)
  {
    if r: nat :| OwedRun(k, r) {
      assert OwedRun(l, r);
    }
  }

  lemma CustomActionLively(s: State, t: State, run: Run)
    requires Lively(s) && s.control.stack != [] && s.control.Top().Perform?
    requires forall r: nat :: r in s.control.completedRuns ==> r < |s.control.runs|
    requires run.done == s.control.Top().done && t.active && t.itemState == s.itemState && (AtItem(t) ==> AtItem(s))
    requires t.control == s.control.Popped().(runs := s.control.runs + [run]).Push(Client(|s.control.runs|))
    ensures Lively(t)
  {
    hide Held, Shaped;
    var k, m, f := s.control, s.control.Popped(), Client(|s.control.runs|);
    PopShaped(k);
    GuardedHeld(k);
    RunAdded(m, run);
    PushShaped(m.(runs := m.runs + [run]), f);
    PushHeld(m.(runs := m.runs + [run]), f);
    assert t.control.stack[..|m.stack|] == m.stack;
    FollowedStill(s, t);
  }

  lemma RunAdded(m: Control, run: Run)
    requires forall r: nat :: r in m.completedRuns ==> r < |m.runs|
    ensures var l := m.(runs := m.runs + [run]);
      && (Held(m) || Owed(m, run.done) ==> Held(l)) && (InRuns(m) ==> InRuns(l))
      && (Shaped(m) ==> Shaped(l))
  {
    var l := m.(runs := m.runs + [run]);
    assert Owed(m, run.done) ==> OwedRun(l, |m.runs|);
    if r: nat :| OwedRun(m, r) {
      assert OwedRun(l, r);
    }
    if i: nat :| i < |m.stack| && OwedFrame(m, m.stack[i]) {
      assert OwedFrame(l, l.stack[i]);
    }
    if Shaped(m) {
      forall i: nat | i < |l.stack|
        ensures ShapedAt(l, i)
      {
        assert ShapedAt(m, i);
      }
    }
  }

  lemma PerformLively(c: Setup, s: State, t: State, name: string, arguments: Json, done: Closure)
    requires Placed(c, s) && Lively(s) && s.control.Top() == Perform(name, arguments, done)
    requires name in c.actions && !c.actions[name].OnResume? && (AtItem(t) ==> AtItem(s))
    requires t == PerformStep(c, Popped(s), name, arguments, done, Accepted) && !t.crashed
    ensures Lively(t)
  {
    hide Placed, Lively, PerformStep;
    var u := Popped(s);
    PoppedActive(s);
    if UsesMode(c.actions[name]) {
      ModeActionState(c, u, name, arguments, done);
      ModeActionLively(c, s, t);
    } else if c.actions[name].Hold? {
      HoldActionState(c, u, name, arguments, done);
      HoldActionLively(c, s, t);
    } else {
      OtherActionState(c, u, name, arguments, done);
      if c.actions[name].Custom? {
        KnownRunsOf(c, s);
        CustomActionLively(s, t, Run(s.control.handler, done));
      } else {
        assert Lively(t) by {
          hide Lively;
          PushLively(s, t, Invoke(s.control.Top().done));
        }
      }
    }
  }

  lemma KnownRunsOf(c: Setup, s: State)
    requires Placed(c, s)
    ensures forall r: nat :: r in s.control.completedRuns ==> r < |s.control.runs|
  {
    hide StackCoherent, FlightCoherent, Count;
  }

  // ---- Steps: frames of the executor ----

  lemma ActivatedState(c: Setup, s: State, h: nat)
    requires OneValidHandler(s.control) && h == s.control.handler
    ensures var t := ActivatedStep(c, s, h, true);
      && t.active == s.active && t.itemState == s.itemState
      && t.control
         == s.control.Push(StartItem(false, h)).Push(Restore(OrderedMaps.Values(s.persistent.continuousActions), h))
  {
    hide StartResume, TakeResumeEntry, OrderedMaps.Values, KeepsStore, KeepsSegment, StartsNoSettings;
  }

  /** An activation is the current one, and at the beginning. */
  lemma ShapedEntry(k: Control, h: nat, fromBeginning: bool)
    requires Shaped(k) && k.Top() == Activated(h, fromBeginning)
    ensures h == k.handler && fromBeginning
  {
    assert ShapedAt(k, |k.stack| - 1);
  }

  lemma RestorePushed(m: Control, h: nat, rest: seq<ActionState>)
    requires Shaped(m) && m.stack != [] && m.Top().StartItem?
    ensures var l := m.Push(Restore(rest, h)); Shaped(l) && Guarded(l) && Held(l)
  {
    var l := m.Push(Restore(rest, h));
    forall i: nat | i < |l.stack|
      ensures ShapedAt(l, i)
    {
      assert i < |m.stack| ==> ShapedAt(m, i);
    }
    assert OwedFrame(l, l.stack[|m.stack| - 1]);
  }

  lemma ActivatedLively(c: Setup, s: State, t: State, h: nat, fromBeginning: bool)
    requires OneValidHandler(s.control) && Lively(s) && s.control.Top() == Activated(h, fromBeginning)
    requires t == ActivatedStep(c, Popped(s), h, fromBeginning)
    ensures Lively(t)
  {
    hide Held, Shaped, ActivatedStep, OrderedMaps.Values, SamePlace, StartsNoSettings, KeepsSegment;
    var m := s.control.Popped();
    ShapedEntry(s.control, h, fromBeginning);
    ActivatedState(c, Popped(s), h);
    PopShaped(s.control);
    PushShaped(m, StartItem(false, h));
    RestorePushed(m.Push(StartItem(false, h)), h, OrderedMaps.Values(s.persistent.continuousActions));
    assert t.control.stack[..|m.stack|] == m.stack;
    FollowedStill(s, t);
  }

  lemma RestoreLively(c: Setup, s: State, t: State, rest: seq<ActionState>, h: nat)
    requires Lively(s) && s.control.Top() == Restore(rest, h) && t == RestoreStep(c, Popped(s), rest, h)
    ensures Lively(t)
  {
    hide Shaped, Held, KeepsStore, KeepsSegment, SamePlace;
    var m := s.control.Popped();
    PopShaped(s.control);
    RestoreBelow(s.control);
    assert t.control.stack[..|m.stack|] == m.stack;
    FollowedStill(s, t);
    if rest == [] {
      StartHeld(m);
    } else {
      RestorePushed(m, h, rest[1..]);
      PerformPushed(m.Push(Restore(rest[1..], h)), t.control);
    }
  }

  lemma RestoreBelow(k: Control)
    requires Shaped(k) && k.stack != [] && k.Top().Restore?
    ensures k.Popped().stack != [] && k.Popped().Top().StartItem?
  {
    assert ShapedAt(k, |k.stack| - 1);
  }

  lemma StartHeld(k: Control)
    requires k.stack != [] && k.Top().StartItem?
    ensures Held(k)
  {
    assert OwedFrame(k, k.stack[|k.stack| - 1]);
  }

  /** A restored action is run above the loop and the start of the item. */
  lemma PerformPushed(m: Control, l: Control)
    requires Shaped(m) && Guarded(m) && Held(m) && |m.stack| >= 2 && m.Top().Restore? &&
      m.stack[|m.stack| - 2].StartItem?
    requires l == m || (exists f: Frame :: f.Perform? && l == m.Push(f))
    ensures Shaped(l) && Guarded(l) && Held(l)
  {
    if l != m {
      var f: Frame :| f.Perform? && l == m.Push(f);
      PushShaped(m, f);
      PushHeld(m, f);
      assert Restoring(l);
    }
  }

  // ---- Steps: items ----

  lemma StartActionState(c: Setup, s: State, resuming: bool, i: nat, answer: Answer)
    requires s.active
    requires s.persistent.currentIndex == Some(i) && i < |s.mission.items| && s.mission.items[i].ActionItem?
    requires var t := StartItemStep(c, s, resuming, answer);
      t.control.handler == s.control.handler && !t.crashed
    ensures var t := StartItemStep(c, s, resuming, answer);
      && t.active && s.mission.items[i].name in c.actions
      && exists a: Json :: t.control == s.control.Push(Perform(s.mission.items[i].name, a, ItemDone(s.control.handler)))
  {
    hide RunModeStep, RunTrajectoryStep, SegmentEnd, SegmentStop, StartAbort, KeepsStore, KeepsSegment,
      StartsNoSettings, SamePlace;
  }

  lemma StartActionLively(c: Setup, s: State, t: State, name: string, a: Json)
    requires Placed(c, s) && Lively(s) && s.control.stack != [] && s.control.Top().StartItem?
    requires t.active && t.control == s.control.Popped().Push(Perform(name, a, ItemDone(s.control.handler)))
    ensures Lively(t)
  {
    hide Placed, Held, Shaped;
    var m, f := s.control.Popped(), Perform(name, a, ItemDone(s.control.handler));
    StartHeld(s.control);
    NotFlying(c, s);
    PopShaped(s.control);
    PushShaped(m, f);
    PushHeld(m, f);
  }

  lemma TrajectoryAccepted(c: Setup, s: State, items: seq<MissionItem>, start: int, end: int, report: IndexCallback,
      stop: bool)
    requires s.active
    ensures var t, k := RunTrajectoryStep(c, s, items, start, end, report, stop, Accepted),
                        s.control.(flight := Flight(items, s.options, end, stop, report, Some(start)));
      && t.active
      && if s.activeMode == c.ownMode then t.itemState.Trajectory? && t.control == k
         else t.control == k.Push(EnterTrajectory).(scheduled := Some(ModeCallback(Nop, None)))
  {
    hide RunModeStep, KeepsStore, KeepsSegment, StartsNoSettings, SamePlace;
    var flight := Flight(items, s.options, end, stop, report, Some(start));
    ModeAccepted(SetFlight(s, flight).Push(EnterTrajectory), c.ownMode, Nop, None);
  }

  /** A trajectory that is started with the token elsewhere, or as the token. */
  ghost predicate TakesOff(c: Setup, s: State, t: State, m: Control) {
    var k := m.(flight := t.control.flight);
    t.active && if s.activeMode == c.ownMode then t.itemState.Trajectory? && t.control == k
                else t.control == k.Push(EnterTrajectory).(scheduled := Some(ModeCallback(Nop, None)))
  }

  lemma TakesOffLively(c: Setup, s: State, t: State, m: Control)
    requires TakesOff(c, s, t, m) && Shaped(m) && (m.stack != [] ==> !m.Top().Perform? && !m.Top().ArmTimer?) &&
      !Entering(m)
    requires Held(m) || SegmentLive(t.control)
    ensures Lively(t)
  {
    hide Held, Shaped;
    var k := m.(flight := t.control.flight);
    SlotsHeld(m, k);
    if s.activeMode != c.ownMode {
      PushShaped(k, EnterTrajectory);
      PushHeld(k, EnterTrajectory);
      SlotsHeld(k.Push(EnterTrajectory), t.control);
      assert t.control.stack[|m.stack|].EnterTrajectory?;
    }
  }

  lemma StartSegmentState(c: Setup, s: State, resuming: bool, i: nat)
    requires s.active
    requires s.persistent.currentIndex == Some(i) && i < |s.mission.items| && s.mission.items[i].NavigationItem?
    ensures var t := StartItemStep(c, s, resuming, Accepted);
      && TakesOff(c, s, t, s.control) && SegmentLive(t.control)
  {
    hide RunModeStep, RunTrajectoryStep, SegmentEnd, SegmentStop, KeepsStore, KeepsSegment, StartsNoSettings, SamePlace;
    var end := SegmentEnd(s.mission.items, i);
    var u := s.(segments := s.segments + [(i as int, end as int)]);
    TrajectoryAccepted(c, u, s.mission.items, i, end, SegmentStep(s.control.handler, end),
      SegmentStop(c, s.mission.items, end));
  }

  lemma StartEndState(c: Setup, s: State, resuming: bool)
    requires s.active && s.persistent.currentIndex.Some? && !AtItem(s)
    ensures var t := StartItemStep(c, s, resuming, Accepted);
      t.active && t.control == s.control.(scheduled := t.control.scheduled)
  {
    hide RunModeStep, RunTrajectoryStep, RunActionStep, SegmentEnd, SegmentStop, KeepsStore, KeepsSegment,
      StartsNoSettings, SamePlace;
    ModeAccepted(s, LOITER, Nop, None);
  }

  lemma StartEndLively(c: Setup, s: State, t: State)
    requires Placed(c, s) && Lively(s) && s.control.stack != [] && s.control.Top().StartItem? && !AtItem(t)
    requires t.active && t.control == s.control.Popped().(scheduled := t.control.scheduled)
    ensures Lively(t)
  {
    hide Placed, Held, Shaped;
    StartHeld(s.control);
    NotFlying(c, s);
    PopShaped(s.control);
    SlotsHeld(s.control.Popped(), t.control);
  }

  lemma StartLively(c: Setup, s: State, t: State, resuming: bool, i: nat)
    requires Placed(c, s) && Lively(s) && s.control.Top().StartItem?
    requires s.persistent.currentIndex == Some(i) && (AtItem(t) ==> AtItem(s))
    requires t == StartItemStep(c, Popped(s), resuming, Accepted)
    requires t.control.handler == s.control.handler && !t.crashed
    ensures Lively(t)
  {
    hide Placed, Lively, StartItemStep, TakesOff, KeepsStore;
    var u := Popped(s);
    PoppedActive(s);
    if !AtItem(s) {
      StartEndState(c, u, resuming);
      StartEndLively(c, s, t);
    } else if s.mission.items[i].ActionItem? {
      StartActionState(c, u, resuming, i, Accepted);
      var a: Json :| t.control == u.control.Push(Perform(s.mission.items[i].name, a, ItemDone(u.control.handler)));
      StartActionLively(c, s, t, s.mission.items[i].name, a);
    } else {
      StartSegmentState(c, u, resuming, i);
      ShapedLively(s);
      PopShaped(s.control);
      TakesOffLively(c, u, t, u.control);
    }
  }

  lemma ShapedLively(s: State)
    requires Lively(s)
    ensures s.active && Shaped(s.control) && Guarded(s.control)
  {
    hide Shaped, Guarded, Alive, Followed;
  }

  // ---- Steps: returns ----

  lemma ArmLively(c: Setup, s: State, t: State, done: Closure)
    requires Placed(c, s) && Lively(s) && s.control.Top() == ArmTimer(done) && t == SetTimer(Popped(s), Some(done))
    ensures Lively(t)
  {
    hide Placed, Held, Shaped, SamePlace;
    PopShaped(s.control);
    GuardedHeld(s.control);
    NotFlying(c, s);
    SlotsHeld(s.control.Popped(), t.control);
  }

  lemma EnterLively(s: State, t: State)
    requires Lively(s) && s.control.Top() == EnterTrajectory && t == Popped(s).(itemState := Trajectory)
    ensures Lively(t)
  {
    hide Held, Shaped, SamePlace;
    PopShaped(s.control);
    PopHeld(s.control);
  }

  lemma ReturnLively(c: Setup, s: State, t: State, f: Frame)
    requires Placed(c, s) && Lively(s) && s.control.stack != [] && s.control.Top() == f
    requires (f.ArmTimer? || f.EnterTrajectory?) && t == ReturnStep(c, Popped(s), f)
    ensures Lively(t)
  {
    hide Placed, Lively, SaveStep, DeactivateDefaults, SamePlace, KeepsSegment;
    match f
    case ArmTimer(done) => ArmLively(c, s, t, done);
    case EnterTrajectory => EnterLively(s, t);
  }

  // ---- Steps: client code ----

  lemma InRunsHeld(k: Control)
    requires InRuns(k)
    ensures Held(k)
  {
  }

  /** The same control, but for what does not matter here. */
  lemma SameLively(s: State, t: State)
    requires Lively(s) && t.active && t.control == s.control && (AtItem(t) ==> AtItem(s))
    requires t.itemState == s.itemState
    ensures Lively(t)
  {
    hide Held, Shaped, Guarded;
  }

  lemma ModeCommandLively(c: Setup, s: State, t: State)
    requires Placed(c, s) && Lively(s) && s.control.stack != [] && s.control.Top().Client? && InRuns(s.control)
    requires t.active && t.control == s.control.(scheduled := t.control.scheduled)
    ensures Lively(t)
  {
    hide Placed, Held, Shaped, InRuns;
    InRunsHeld(s.control);
    NotFlying(c, s);
    SlotsHeld(s.control, t.control);
  }

  lemma ActionCommandLively(c: Setup, s: State, t: State, name: string, a: Json, done: Closure)
    requires Placed(c, s) && Lively(s) && s.control.stack != [] && s.control.Top().Client? && InRuns(s.control)
    requires t.active && t.control == s.control.Push(Perform(name, a, done))
    ensures Lively(t)
  {
    hide Placed, Held, Shaped, InRuns;
    var f := Perform(name, a, done);
    InRunsHeld(s.control);
    NotFlying(c, s);
    PushShaped(s.control, f);
    PushHeld(s.control, f);
    RunsStay(s.control, t.control);
  }

  lemma ClientPushLively(s: State, t: State, f: Frame)
    requires Lively(s) && (s.control.stack != [] ==> s.control.Top().Client?)
    requires t.active && t.itemState == s.itemState && (AtItem(t) ==> AtItem(s))
    requires t.control == s.control.Push(f) && (f.Invoke? || f.Client?)
    ensures Lively(t)
  {
    hide Held, Shaped;
    PushShaped(s.control, f);
    PushHeld(s.control, f);
    assert t.control.stack[..|s.control.stack|] == s.control.stack;
    if SegmentLive(t.control) && !s.itemState.Trajectory? {
      var i: nat :| i < |s.control.stack| && s.control.stack[i].EnterTrajectory?;
      assert t.control.stack[i].EnterTrajectory?;
    }
  }

  lemma CompletedAlive(k: Control, run: nat)
    requires run < |k.runs| && run !in k.completedRuns
    ensures var l := k.(completedRuns := k.completedRuns + {run}).Push(Invoke(k.runs[run].done));
      && (Alive(k) ==> Alive(l)) && l.stack == k.stack + [Invoke(k.runs[run].done)]
      && (Shaped(k) ==> Shaped(k.(completedRuns := k.completedRuns + {run})))
  {
    var m := k.(completedRuns := k.completedRuns + {run});
    if r: nat :| OwedRun(k, r) {
      assert r != run ==> OwedRun(m, r);
    }
    if i: nat :| i < |k.stack| && OwedFrame(k, k.stack[i]) {
      assert OwedFrame(m, m.stack[i]);
    }
    PushHeld(m, Invoke(k.runs[run].done));
    if Shaped(k) {
      forall i: nat | i < |m.stack|
        ensures ShapedAt(m, i)
      {
        assert ShapedAt(k, i);
      }
    }
  }

  lemma CompleteLively(s: State, t: State, run: nat)
    requires Lively(s) && s.control.stack != [] && s.control.Top().Client? && run < |s.control.runs|
    requires t == CompleteStep(s, run)
    ensures Lively(t)
  {
    hide Held, Shaped, SamePlace, KeepsSegment;
    if run !in s.control.completedRuns {
      var k, f := s.control, Invoke(s.control.runs[run].done);
      CompletedAlive(k, run);
      PushShaped(k.(completedRuns := k.completedRuns + {run}), f);
      if SegmentLive(t.control) && !s.itemState.Trajectory? {
        var i: nat :| i < |k.stack| && k.stack[i].EnterTrajectory?;
        assert t.control.stack[i].EnterTrajectory?;
      }
    }
  }

  lemma DropStill(s: State, id: nat)
    ensures var t := DropStep(s, id); t.active == s.active && t.itemState == s.itemState && t.control == s.control
  {
  }

  lemma StoreStill(s: State, a: ActionState)
    ensures var t := StoreStateStep(s, a); t.active == s.active && t.itemState == s.itemState && t.control == s.control
  {
  }

  /** Commands that do not use the vehicle. */
  lemma QuietCommandLively(c: Setup, s: State, run: nat, command: Command, answer: Answer)
    requires Lively(s) && run < |s.control.runs|
    requires s.control.stack != [] && s.control.Top().Client?
    requires !TakesVehicle(command) && !command.SetIndex?
    requires AtItem(CommandStep(c, s, run, command, answer)) ==> AtItem(s)
    ensures Lively(CommandStep(c, s, run, command, answer))
  {
    hide Lively, HandlerMode, RunActionStep, HandlerTrajectory, StoreStateStep, CompleteStep, DropStep,
      TrajectoryOptions.CombinedWith, SamePlace, KeepsSegment;
    var t := CommandStep(c, s, run, command, answer);
    ShapedLively(s);
    match command
    case Complete => CompleteLively(s, t, run);
    case Return =>
      PoppedActive(s);
      PopLively(s, t);
    case DropState(id) =>
      DropStill(s, id);
      SameLively(s, t);
    case StoreState(name, a) =>
      StoreStill(s, ActionState(name, a));
      SameLively(s, t);
    case _ => SameLively(s, t);
  }

  lemma HandlerModeState(s: State, h: nat, mode: nat, done: Closure, onFailure: Option<Closure>)
    requires s.active
    ensures var t := HandlerMode(s, h, mode, done, onFailure, Accepted);
      t == s || (t.active && t.control == s.control.(scheduled := t.control.scheduled))
  {
    hide RunModeStep, KeepsStore, KeepsSegment, StartsNoSettings, SamePlace;
    ModeAccepted(s, mode, done, onFailure);
  }

  lemma RunActionState(c: Setup, s: State, name: string, a: Json, done: Closure)
    requires s.active
    requires RunActionStep(c, s, name, a, done).control.handler == s.control.handler
    ensures var t := RunActionStep(c, s, name, a, done); t.active && t.control == s.control.Push(Perform(name, a, done))
  {
    hide StartAbort, KeepsStore, KeepsSegment, StartsNoSettings, SamePlace;
  }

  lemma HandlerTrajectoryState(c: Setup, s: State, h: nat, items: seq<MissionItem>, done: Closure, stop: bool)
    requires s.active
    requires HandlerTrajectory(c, s, h, items, done, stop, Accepted).control.handler == s.control.handler
    ensures var t := HandlerTrajectory(c, s, h, items, done, stop, Accepted);
      || t == s || t == s.Push(Invoke(done)) || TakesOff(c, s, t, s.control)
  {
    hide RunTrajectoryStep, StartAbort, KeepsStore, KeepsSegment, StartsNoSettings, SamePlace;
    if items != [] {
      TrajectoryAccepted(c, s, items, 0, |items| - 1, CustomStep(done, |items| - 1), stop);
    }
  }

  /** Commands that use the vehicle, given while an action of the client is the current item. */
  lemma VehicleCommandLively(c: Setup, s: State, run: nat, command: Command)
    requires Placed(c, s) && Lively(s) && run < |s.control.runs|
    requires s.control.stack != [] && s.control.Top().Client? && TakesVehicle(command) && InRuns(s.control)
    requires var t := CommandStep(c, s, run, command, Accepted);
      t.control.handler == s.control.handler && (AtItem(t) ==> AtItem(s))
    ensures Lively(CommandStep(c, s, run, command, Accepted))
  {
    hide Placed, Lively, HandlerMode, RunActionStep, HandlerTrajectory, SamePlace, KeepsSegment, InRuns, TakesOff,
      KeepsStore, SameButIndex, StartsNoSettings, StartsOnlyItem;
    var t, h := CommandStep(c, s, run, command, Accepted), s.control.runs[run].handler;
    ShapedLively(s);
    if t == s {
    } else {
      match command
      case RunMode(mode, handles) =>
        HandlerModeState(s, h, mode, UserCode(h, run), if handles then Some(UserCode(h, run)) else None);
        ModeCommandLively(c, s, t);
      case RunAction(name, a) =>
        RunActionState(c, s, name, a, UserCode(h, run));
        ActionCommandLively(c, s, t, name, a, UserCode(h, run));
      case RunTrajectory(items, stop) =>
        HandlerTrajectoryState(c, s, h, items, UserCode(h, run), stop);
        InRunsHeld(s.control);
        if t == s.Push(Invoke(UserCode(h, run))) {
          ClientPushLively(s, t, Invoke(UserCode(h, run)));
        } else {
          TakesOffLively(c, s, t, s.control);
        }
    }
  }

  lemma AbortsHandler(s: State)
    ensures forall reason :: StartAbort(s, reason).control.handler != s.control.handler
  {
  }

  // ---- Steps: what arrives ----

  lemma InvokedAlive(k: Control, l: Control, done: Closure)
    requires k.stack == [] && l == k.(scheduled := l.scheduled, holdTimer := l.holdTimer).Push(Invoke(done))
    requires l.scheduled == k.scheduled || (k.scheduled.Some? && l.scheduled.None? && done == k.scheduled.value.done)
    requires l.holdTimer == k.holdTimer || (k.holdTimer.Some? && l.holdTimer.None? && done == k.holdTimer.value)
    ensures (Alive(k) ==> Alive(l)) && Shaped(l) && Guarded(l)
  {
    if r: nat :| OwedRun(k, r) {
      assert OwedRun(l, r);
    }
    assert l.stack == [Invoke(done)];
    assert Owed(k, done) ==> OwedFrame(l, l.stack[0]);
    assert ShapedAt(l, 0);
  }

  lemma FinishLively(s: State)
    requires Lively(s) && s.control.stack == []
    ensures Lively(FinishMode(s, Succeeded)) && Lively(FireTimer(s))
  {
    hide Alive, Shaped, Guarded, KeepsStore, KeepsSegment, StartsNoSettings, SamePlace, SameButIndex, StartsOnlyItem;
    if s.control.scheduled.Some? {
      InvokedAlive(s.control, FinishMode(s, Succeeded).control, s.control.scheduled.value.done);
    }
    if s.control.holdTimer.Some? {
      InvokedAlive(s.control, FireTimer(s).control, s.control.holdTimer.value);
    }
  }

  lemma ReachedAlive(c: Setup, k: Control, index: int)
    requires HandlersOk(c, k) && k.stack == [] && k.flight.target == Some(index)
    ensures (Alive(k) ==> Alive(Reached(k, index))) && Shaped(Reached(k, index)) && Guarded(Reached(k, index))
    ensures SegmentLive(Reached(k, index)) ==> SegmentLive(k)
  {
    hide StackCoherent, Coherent, Held;
    var l := Reached(k, index);
    var m := HeadOn(k, index);
    SlotsHeld(m, m.(flight := k.flight));
    if l.stack != [] {
      PushHeld(m, l.stack[0]);
      PushShaped(m, l.stack[0]);
      assert l == m.Push(l.stack[0]);
    }
    if SegmentLive(k) && l.stack != [] {
      StartHeld(l);
    }
  }

  lemma UpdateState(c: Setup, s: State, reached: bool, positionValid: bool)
    requires var t := UpdateSetpointStep(c, s, positionValid, reached);
      !t.crashed && t.control.handler == s.control.handler
    ensures var t := UpdateSetpointStep(c, s, positionValid, reached);
      t == s || (s.itemState.Trajectory? && s.control.flight.target.Some? &&
        t == ReachIndex(s, s.control.flight.target.value))
  {
    hide ReachIndex, StartAbort, KeepsStore, KeepsSegment, StartsNoSettings, SamePlace;
    AbortsHandler(s);
  }

  lemma UpdateLively(c: Setup, s: State, positionValid: bool, reached: bool)
    requires Placed(c, s) && Lively(s) && s.control.stack == []
    requires var t := UpdateSetpointStep(c, s, positionValid, reached);
      !t.crashed && t.control.handler == s.control.handler && (AtItem(t) ==> AtItem(s))
    ensures Lively(UpdateSetpointStep(c, s, positionValid, reached))
  {
    hide Alive, Shaped, Guarded, SegmentLive, UpdateSetpointStep, Reached, HandlersOk, Count, KeepsStore,
      StartsNoSettings;
    UpdateState(c, s, reached, positionValid);
    if UpdateSetpointStep(c, s, positionValid, reached) != s {
      ReachedAlive(c, s.control, s.control.flight.target.value);
    }
  }

  lemma EventState(c: Setup, s: State, event: Event, answer: Answer)
    requires s.active && ExternalStep(c, s, event, answer).control.handler == s.control.handler
    ensures var t := ExternalStep(c, s, event, answer);
      match event
      case ModeFinished(outcome) => t == FinishMode(s, outcome)
      case UpdateSetpoint(positionValid, reached) => t == UpdateSetpointStep(c, s, positionValid, reached)
      case TimerFired => t == FireTimer(s)
      case ClientTurn(run) => t == s || t == s.Push(Client(run))
      case LandedChanged(landed) => t == s.(landed := landed)
      case _ => t == s
  {
    hide FinishMode, UpdateSetpointStep, FireTimer, OnActivate, OnDeactivate, StartAbort, LoadedState, Feasible,
      Checksum;
    AbortsHandler(s);
    DeactivatesHandler(c, s);
  }

  lemma DeactivatesHandler(c: Setup, s: State)
    ensures OnDeactivate(c, s).control.handler != s.control.handler
  {
    hide SamePlace;
  }

  lemma TopShaped(k: Control)
    requires Shaped(k) && k.stack != []
    ensures RunFrame(k.Top())
  {
    assert ShapedAt(k, |k.stack| - 1);
  }

  lemma InternalLively(c: Setup, s: State)
    requires Placed(c, s) && Lively(s) && Cooperates(c, s, Internal(Accepted)) && s.control.stack != []
    requires AtItem(Step(c, s, Internal(Accepted))) ==> AtItem(s)
    requires s.persistent.currentIndex.Some?
    ensures Lively(Step(c, s, Internal(Accepted)))
  {
    hide Step, HandlersOk, Lively, InvokeStep, PerformStep, ActivatedStep, RestoreStep, StartItemStep, ReturnStep,
      Count, AtItem, KeepsStore, KeepsSegment, SamePlace, SameButIndex, StartsNoSettings, StartsOnlyItem;
    var t := Step(c, s, Internal(Accepted));
    ShapedLively(s);
    TopShaped(s.control);
    ValidHandler(c, s.control);
    match s.control.Top()
    case Invoke(closure) =>
      InvokeFrame(c, s, closure, Accepted);
      assert Lively(t) by {
        hide Lively, InvokeStep, KeepsStore, KeepsSegment, StartsNoSettings, SamePlace, SameButIndex, StartsOnlyItem;
        PoppedActive(s);
        InvokeState(c, Popped(s), closure, Accepted);
        match closure
        case UserCode(_, run) => PushLively(s, t, Client(run));
        case _ =>
          if closure == ItemDone(s.control.handler) {
            PushLively(s, t, StartItem(false, s.control.handler));
          } else {
            PopLively(s, t);
          }
      }
    case Perform(name, arguments, done) =>
      PerformFrame(c, s, name, arguments, done, Accepted);
      KnownAction(c, s.control);
      PerformLively(c, s, t, name, arguments, done);
    case Activated(h, fromBeginning) =>
      ActivatedFrame(c, s, h, fromBeginning, Accepted);
      ActivatedLively(c, s, t, h, fromBeginning);
    case Restore(rest, h) =>
      RestoreFrame(c, s, rest, h, Accepted);
      RestoreLively(c, s, t, rest, h);
    case StartItem(resuming, h) =>
      StartFrame(c, s, resuming, h, Accepted);
      PlacedIndex(c, s);
      StartLively(c, s, t, resuming, s.persistent.currentIndex.value);
    case f =>
      if InClient(f) {
        UnfitStep(c, s, Internal(Accepted));
      } else {
        ReturnFrame(c, s, Accepted);
        ReturnLively(c, s, t, f);
      }
  }

  /** An action that is about to run is known. */
  lemma KnownAction(c: Setup, k: Control)
    requires HandlersOk(c, k) && k.Top().Perform?
    ensures k.Top().name in c.actions
  {
    assert FrameCoherent(c, k.runs, k.handler, k.stack[|k.stack| - 1]);
  }

  lemma PlacedIndex(c: Setup, s: State)
    requires Placed(c, s)
    ensures s.persistent.currentIndex.Some? ==> 0 <= s.persistent.currentIndex.value
  {
    hide HandlersOk, Count;
  }

  lemma UserLively(c: Setup, s: State, command: Command)
    requires Placed(c, s) && Lively(s) && Cooperates(c, s, User(command, Accepted)) && s.control.stack != []
    requires AtItem(Step(c, s, User(command, Accepted))) ==> AtItem(s)
    ensures Lively(Step(c, s, User(command, Accepted)))
  {
    hide CommandStep, DropStep, ExternalStep, Continue, StartAbort, Placed, Lively, InRuns, AtItem, KeepsStore,
      KeepsSegment, SamePlace, SameButIndex, StartsNoSettings, StartsOnlyItem;
    ShapedLively(s);
    TopShaped(s.control);
    match s.control.Top()
    case Client(run) =>
      assert Lively(Step(c, s, User(command, Accepted))) by {
        hide Placed, Lively, CommandStep, InRuns, SamePlace, SameButIndex, KeepsSegment;
        if run >= |s.control.runs| {
          NoSuchRun(c, s, run, command, Accepted);
        } else if TakesVehicle(command) {
          ShapedLively(s);
          VehicleCommandLively(c, s, run, command);
        } else {
          QuietCommandLively(c, s, run, command, Accepted);
        }
      }
    case ActivatedHook =>
      if command.Return? {
        PoppedActive(s);
        PopLively(s, Popped(s));
      }
    case _ =>
  }

  /** Every step of a cooperative run keeps the continuation alive. */
  lemma StepLively(c: Setup, s: State, l: Label)
    requires Placed(c, s) && Lively(s) && Cooperates(c, s, l)
    requires s.persistent.currentIndex.Some? && (AtItem(Step(c, s, l)) ==> AtItem(s))
    ensures Lively(Step(c, s, l))
  {
    hide Step, ExternalStep, Placed, Lively, Jumps, InRuns, AtItem;
    if (s.control.stack == []) != l.External? {
      UnfitStep(c, s, l);
    } else {
      match l
      case Internal(_) => InternalLively(c, s);
      case User(command, _) => UserLively(c, s, command);
      case External(event, answer) =>
        EventStep(c, s, event, answer);
        assert Lively(Step(c, s, l)) by {
          hide Placed, Lively, ExternalStep, FinishMode, UpdateSetpointStep, FireTimer, InRuns, KeepsStore,
            KeepsSegment, SamePlace, SameButIndex, StartsNoSettings, StartsOnlyItem;
          ShapedLively(s);
          EventState(c, s, event, Accepted);
          match event
          case ModeFinished(_) => FinishLively(s);
          case TimerFired => FinishLively(s);
          case UpdateSetpoint(positionValid, reached) => UpdateLively(c, s, positionValid, reached);
          case ClientTurn(run) =>
            if Step(c, s, l) != s {
              ClientPushLively(s, Step(c, s, l), Client(run));
            }
          case LandedChanged(_) => SameLively(s, Step(c, s, l));
          case _ =>
        }
    }
  }

  // ---- Never stuck ----

  ghost predicate CooperativeRun(c: Setup, s: State, ls: seq<Label>) {
    ls == [] || (CooperativeRun(c, s, ls[..|ls| - 1]) && Cooperates(c, Steps(c, s, ls[..|ls| - 1]), ls[|ls| - 1]))
  }

  lemma {:induction false} CooperativeIsSteady(c: Setup, s: State, ls: seq<Label>)
    requires CooperativeRun(c, s, ls)
    ensures SteadyRun(c, s, ls)
  {
    hide Steady, Steps;
    if ls != [] {
      CooperativeIsSteady(c, s, ls[..|ls| - 1]);
    }
  }

  /** An activation at the beginning of the mission that is not refused. */
  ghost predicate BeginsAt(c: Setup, s: State) {
    && !s.active && s.control.stack == [] && s.persistent.currentIndex.None?
    && OnActivate(c, s).control.handler == s.control.handler
  }

  lemma BeginsLively(c: Setup, s: State)
    requires Placed(c, s) && BeginsAt(c, s)
    ensures Lively(OnActivate(c, s))
  {
    hide StartAbort, ClosuresCoherent, StackCoherent;
    AbortsHandler(s.(active := true, options := s.mission.defaults, itemState := Other, activeMode := c.ownMode));
    var k := OnActivate(c, s).control;
    assert k.stack == [Activated(s.control.handler, true), ActivatedHook];
    assert OwedFrame(k, k.stack[0]);
    assert !SegmentLive(k);
  }

  ghost predicate Running(s: State, base: State) {
    exists i: nat, next: nat :: RunningAt(s, base, i, next)
  }

  lemma {:induction false} StaysLively(c: Setup, s: State, ls: seq<Label>, base: State)
    requires Placed(c, s) && Lively(s) && Running(s, base) && CooperativeRun(c, s, ls)
    ensures var t := Steps(c, s, ls); Placed(c, t) && Lively(t) && Running(t, base)
  {
    hide Placed, RunningAt, Step, Cooperates, Steady, Lively;
    if ls != [] {
      var t, l := Steps(c, s, ls[..|ls| - 1]), ls[|ls| - 1];
      StaysLively(c, s, ls[..|ls| - 1], base);
      var i: nat, next: nat :| RunningAt(t, base, i, next);
      CooperatesSteadily(c, t, l);
      StepRuns(c, t, l, base, i, next);
      StepPlaced(c, t, l);
      var j: nat, k: nat :| i <= j <= i + 1 && RunningAt(Step(c, t, l), base, j, k);
      ItemsBefore(t, Step(c, t, l), base, i, next, j, k);
      StepLively(c, t, l);
    }
  }

  lemma CooperatesSteadily(c: Setup, s: State, l: Label)
    requires Cooperates(c, s, l)
    ensures Steady(c, s, l)
  {
    hide Steady;
  }

  lemma ItemsBefore(s: State, t: State, base: State, i: nat, next: nat, j: nat, k: nat)
    requires RunningAt(s, base, i, next) && RunningAt(t, base, j, k) && i <= j
    ensures s.persistent.currentIndex.Some? && (AtItem(t) ==> AtItem(s))
  {
    hide Count, SegmentsFrom, Reported, HasStart;
  }

  /** The current item is the waypoint that a segment of the mission flies to. */
  predicate FliesTo(s: State) {
    SegmentLive(s.control) && s.itemState.Trajectory? && s.control.flight.target == s.persistent.currentIndex
  }

  /** The continuation is at one place, where the environment can deliver it. */
  ghost predicate Waits(s: State) {
    && Count(s.control, All) == 1
    && (InMode(s.control) || InTimer(s.control) || InRuns(s.control) || FliesTo(s))
  }

  lemma AliveCounts(k: Control)
    requires Alive(k)
    ensures Count(k, All) >= 1
  {
    if r: nat :| OwedRun(k, r) {
      RunCounted(k.handler, k.runs, k.completedRuns, r);
    } else if i: nat :| i < |k.stack| && OwedFrame(k, k.stack[i]) {
      OwedCounts(k, k.stack[i]);
      FrameCounted(k.handler, k.stack, i);
    }
  }

  lemma LivelyWaits(c: Setup, s: State, base: State, i: nat, next: nat)
    requires Placed(c, s) && Lively(s) && RunningAt(s, base, i, next) && AtItem(s) && s.control.stack == []
    ensures Waits(s)
  {
    hide HandlersOk, Count, SegmentsFrom, Reported, Shaped, Guarded;
    AliveCounts(s.control);
  }

  /** Over every cooperative run from the beginning: while items are left and nothing runs, exactly one continuation
      is pending, and it is one that the environment delivers: the end of a mode, the hold timer, the completion of a
      custom action, or the waypoint that is flown to. */
  lemma NeverStuck(c: Setup, file: Option<Json>, before: seq<Label>, ls: seq<Label>)
    requires var s := Steps(c, Initial(file), before); BeginsAt(c, s) && CooperativeRun(c, OnActivate(c, s), ls)
    ensures var s := Steps(c, Initial(file), before);
      var t := Steps(c, OnActivate(c, s), ls);
      Placed(c, t) && Lively(t) && Running(t, s) && (AtItem(t) && t.control.stack == [] ==> Waits(t))
  {
    hide Placed, Step, CooperativeRun, OnActivate, Lively, RunningAt, AtItem, Count;
    var s := Steps(c, Initial(file), before);
    IndexSafety(c, file, before);
    BeginsRunning(c, s);
    BeginsLively(c, s);
    assert RunningAt(OnActivate(c, s), s, 0, 0);
    StaysLively(c, OnActivate(c, s), ls, s);
    var t := Steps(c, OnActivate(c, s), ls);
    var i: nat, next: nat :| RunningAt(t, s, i, next);
    if AtItem(t) && t.control.stack == [] {
      LivelyWaits(c, t, s, i, next);
    }
  }
}
