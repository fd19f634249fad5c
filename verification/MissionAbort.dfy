/** Aborts are bounded: over every run the recursion level counts the failure actions in progress, never
    exceeds 11, and an outermost abort causes at most 11 failure actions in total. */
module MissionAbort {
  import opened Wrappers
  import opened JsonValues
  import opened Missions
  import opened MissionTypes
  import opened MissionSteps
  import opened MissionHandlers
  import opened MissionTokens
  import opened MissionIndex

  predicate InAbort(f: Frame) {
    f.AbortMain? || f.AbortEnd?
  }

  /** The number of failure actions in progress. */
  function Level(stack: seq<Frame>): nat {
    if stack == [] then 0 else Level(stack[..|stack| - 1]) + if stack[|stack| - 1].AbortEnd? then 1 else 0
  }

  /** Where the outermost abort is. */
  ghost predicate Outermost(stack: seq<Frame>, low: nat) {
    low < |stack| && InAbort(stack[low]) && forall i: nat :: i < low ==> !InAbort(stack[i])
  }

  ghost predicate NoAborts(stack: seq<Frame>) {
    forall i: nat :: i < |stack| ==> !InAbort(stack[i])
  }

  /** Nothing that the frame leads to is under the current handler. */
  predicate StaleClosure(cur: nat, c: Closure) {
    c.Nop? || c.handler < cur
  }

  predicate Stale(k: Control, f: Frame) {
    match f
    case Invoke(c) => StaleClosure(k.handler, c)
    case Client(r) => r < |k.runs| && k.runs[r].handler < k.handler
    case Perform(_, _, _) => false
    case AbortMain(_) => false
    case _ => true
  }

  predicate Upper(f: Frame) {
    OpFrame(f) || InAbort(f) || f.CleanupHooks?
  }

  ghost predicate Quiet(k: Control, low: nat) {
    forall i: nat :: low < i < |k.stack| ==> Stale(k, k.stack[i])
  }

  /** During an outermost abort at `low`: no item can start; what is below an inner abort is stale; and a
      second failure action has run at some level only if everything is stale now. */
  ghost predicate Within(k: Control, low: nat)
    requires low < |k.stack|
  {
    && Count(k, All) <= Starts(k.stack[..low])
    && (forall i: nat :: low < i < |k.stack| ==> Upper(k.stack[i]))
    && (forall i: nat, j: nat :: low < i < j < |k.stack| && InAbort(k.stack[j]) ==> Stale(k, k.stack[i]))
    && (forall i: nat :: low <= i < |k.stack| && k.stack[i].AbortMain? ==>
          k.abortLevel <= 10 && (i == |k.stack| - 1 || (i == |k.stack| - 2 && k.Top() == CleanupHooks)))
    && (k.failureRuns <= k.abortLevel || Quiet(k, low))
  }

  ghost predicate AbortOk(k: Control) {
    && k.abortLevel == Level(k.stack) <= 11 && k.failureRuns <= 11
    && forall low: nat :: Outermost(k.stack, low) ==> Within(k, low)
  }

  // ---- Stacks ----

  lemma {:induction false} LevelPrefix(stack: seq<Frame>, n: nat)
    requires n <= |stack| && forall i: nat :: n <= i < |stack| ==> !stack[i].AbortEnd?
    ensures Level(stack) == Level(stack[..n])
    decreases |stack|
  {
    if n == |stack| {
      assert stack[..n] == stack;
    } else {
      var m := |stack| - 1;
      LevelPrefix(stack[..m], n);
      assert stack[..m][..n] == stack[..n];
    }
  }

  lemma LevelNone(stack: seq<Frame>)
    requires NoAborts(stack)
    ensures Level(stack) == 0
  {
    LevelPrefix(stack, 0);
  }

  lemma LevelPush(stack: seq<Frame>, f: Frame)
    ensures Level(stack + [f]) == Level(stack) + if f.AbortEnd? then 1 else 0
  {
    assert (stack + [f])[..|stack|] == stack;
  }

  lemma {:induction false} StartsBelow(cur: nat, stack: seq<Frame>, low: nat)
    requires low < |stack|
    ensures TokStack(cur, All, stack[..low]) + TokFrame(cur, All, stack[|stack| - 1]) <= TokStack(cur, All, stack)
    ensures Starts(stack[..low]) <= TokStack(cur, All, stack[..low])
    decreases |stack|
  {
    var m := |stack| - 1;
    if low == m {
      StartsAreToks(cur, stack[..low]);
    } else {
      StartsBelow(cur, stack[..m], low);
      assert stack[..m][..low] == stack[..low];
    }
  }

  lemma {:induction false} StartsAreToks(cur: nat, stack: seq<Frame>)
    ensures Starts(stack) <= TokStack(cur, All, stack)
  {
    if stack != [] {
      StartsAreToks(cur, stack[..|stack| - 1]);
    }
  }

  /** Inside an abort no frame continues the mission. */
  lemma NothingContinues(k: Control, low: nat)
    requires low < |k.stack| && Count(k, All) <= Starts(k.stack[..low])
    ensures TokFrame(k.handler, All, k.Top()) == 0
  {
    hide TokStack, TokRuns, TokSlots, Starts;
    StartsBelow(k.handler, k.stack, low);
  }

  lemma {:induction false} LowestAbort(stack: seq<Frame>, i: nat) returns (low: nat)
    requires i < |stack| && InAbort(stack[i])
    ensures Outermost(stack, low) && low <= i
  {
    if j: nat :| j < i && InAbort(stack[j]) {
      low := LowestAbort(stack, j);
    } else {
      low := i;
    }
  }

  // ---- Operations outside an abort ----

  lemma NoneAborting(k: Control)
    requires NoAborts(k.stack) && k.abortLevel == 0 && k.failureRuns <= 11
    ensures AbortOk(k)
  {
    LevelNone(k.stack);
  }

  lemma StartsTop(stack: seq<Frame>)
    requires |stack| >= 2 && stack[|stack| - 2].AbortMain? && stack[|stack| - 1] == CleanupHooks
    ensures Starts(stack) == Starts(stack[..|stack| - 2])
  {
    assert stack[..|stack| - 1][..|stack| - 2] == stack[..|stack| - 2];
  }

  lemma FirstAbort(k: Control, l: Control)
    requires NoAborts(k.stack) && k.abortLevel == 0 && k.failureRuns <= 11 && Extends(k, l) && Aborted(k, l)
    ensures AbortOk(l)
  {
    hide Count, Starts, Stale, OpFrame;
    assert forall i: nat :: i < |k.stack| ==> l.stack[i] == l.stack[..|k.stack|][i];
    var n := |l.stack| - 2;
    LevelPrefix(l.stack, 0);
    StartsTop(l.stack);
    assert forall i: nat :: i < n ==> !InAbort(l.stack[i]);
    assert l.stack[n + 1] == CleanupHooks;
    forall low: nat | Outermost(l.stack, low)
      ensures Within(l, low)
    {
      assert low == n;
      StaleHooks(l, n + 1);
    }
  }

  lemma StaleHooks(k: Control, i: nat)
    requires i < |k.stack| && k.stack[i] == CleanupHooks
    ensures Stale(k, k.stack[i])
  {
  }

  lemma CalmAborts(k: Control, l: Control)
    requires NoAborts(k.stack) && k.abortLevel == 0 && k.failureRuns <= 11 && (Advances(k, l) || Begins(k, l))
    ensures AbortOk(l)
  {
    hide Count, Starts, AbortOk;
    if l.handler == k.handler || Begins(k, l) {
      assert forall i: nat :: i < |k.stack| ==> l.stack[i] == l.stack[..|k.stack|][i];
      assert NoAborts(l.stack);
      NoneAborting(l);
    } else {
      FirstAbort(k, l);
    }
  }

  // ---- Operations inside an abort ----

  /** A coherent frame is stale once there is a new handler. */
  lemma BecomesStale(c: Setup, k: Control, l: Control, f: Frame)
    requires ClosuresCoherent(k) && FrameCoherent(c, k.runs, k.handler, f) && Upper(f) && !f.Perform? && !f.AbortMain?
    requires l.handler > k.handler && k.runs <= l.runs
    ensures Stale(l, f)
  {
    if f.Client? {
      assert RunCoherent(k.runs, k.handler, k.runs[f.run]);
    }
  }

  /** The operation starts from `m`, with the top frame popped or not, and keeps the handler. */
  lemma WithinKeeping(k: Control, m: Control, l: Control, low: nat)
    requires low < |m.stack| <= |k.stack| && Within(k, low) && Outermost(k.stack, low)
    requires m == k || (k.stack != [] && m == k.Popped())
    requires forall i: nat :: low <= i < |m.stack| ==> !k.stack[i].AbortMain?
    requires Extends(m, l) && l.handler == k.handler && Count(l, All) <= Count(k, All)
    requires forall i: nat :: |m.stack| <= i < |l.stack| ==> OpFrame(l.stack[i])
    requires Quiet(k, low) ==> forall i: nat :: |m.stack| <= i < |l.stack| ==> Stale(l, l.stack[i])
    ensures Outermost(l.stack, low) && Within(l, low)
  {
    hide Count, Starts;
    assert forall i: nat :: i < |m.stack| ==> l.stack[i] == l.stack[..|m.stack|][i] == k.stack[i];
    assert l.stack[..low] == k.stack[..low];
    forall i: nat | low < i < |m.stack| && Stale(k, k.stack[i])
      ensures Stale(l, l.stack[i])
    {
      assert Stale(l, k.stack[i]);
    }
    hide Stale;
  }

  /** The operation aborts. */
  lemma WithinAborting(c: Setup, k: Control, m: Control, l: Control, low: nat)
    requires low < |m.stack| <= |k.stack| && Within(k, low) && Outermost(k.stack, low) && ClosuresCoherent(k) &&
      StackCoherent(c, k)
    requires m == k || (k.stack != [] && m == k.Popped())
    requires forall i: nat :: low <= i < |m.stack| ==> !k.stack[i].AbortMain? && !k.stack[i].Perform?
    requires Extends(m, l) && Aborted(m, l) && Count(l, All) <= Count(k, All)
    requires k.failureRuns <= k.abortLevel
    ensures Outermost(l.stack, low) && Within(l, low)
  {
    hide Count, Starts, ClosuresCoherent, FrameCoherent;
    assert forall i: nat :: i < |m.stack| ==> l.stack[i] == l.stack[..|m.stack|][i] == k.stack[i];
    assert l.stack[..low] == k.stack[..low];
    forall i: nat | low < i < |m.stack|
      ensures Stale(l, l.stack[i])
    {
      BecomesStale(c, k, l, k.stack[i]);
    }
    assert forall i: nat :: |m.stack| <= i < |l.stack| && Waiting(l.stack[i]) ==> Stale(l, l.stack[i]);
    hide Stale;
  }

  lemma SameLow(stack: seq<Frame>, a: nat, b: nat)
    requires Outermost(stack, a) && Outermost(stack, b)
    ensures a == b
  {
  }

  /** Inside an abort an operation leaves everything in order. */
  lemma AbortAdvance(c: Setup, k: Control, m: Control, l: Control)
    requires AbortOk(k) && HandlersOk(c, k) && !NoAborts(k.stack) && OpFrame(k.Top()) && (m == k ==> !k.Top().Perform?)
    requires m == k || m == k.Popped()
    requires Advances(m, l) && Count(l, All) <= Count(k, All)
    requires Stale(k, k.Top()) ==> l.handler == k.handler && forall i: nat :: |m.stack| <= i < |l.stack| ==>
      Stale(l, l.stack[i])
    ensures AbortOk(l)
  {
    hide Count, Starts, ClosuresCoherent, FrameCoherent, Stale;
    var j: nat :| j < |k.stack| && InAbort(k.stack[j]);
    var low := LowestAbort(k.stack, j);
    var top := |k.stack| - 1;
    assert low < top;
    LevelOfExtension(k, m, l);
    if l.handler == k.handler {
      assert Quiet(k, low) ==> Stale(k, k.stack[top]);
      WithinKeeping(k, m, l, low);
    } else {
      assert !Quiet(k, low);
      WithinAborting(c, k, m, l, low);
    }
    forall b: nat | Outermost(l.stack, b)
      ensures Within(l, b)
    {
      SameLow(l.stack, low, b);
    }
  }

  lemma LevelOfExtension(k: Control, m: Control, l: Control)
    requires k.stack != [] && (m == k || m == k.Popped()) && !k.Top().AbortEnd? && Advances(m, l)
    ensures Level(l.stack) == Level(k.stack)
  {
    hide Count, Starts;
    LevelPrefix(l.stack, |m.stack|);
    LevelPrefix(k.stack, |m.stack|);
    assert k.stack[..|m.stack|] == m.stack;
  }

  // ---- Stale frames lead to nothing ----

  /** The control after a step of a stale frame: the same handler, and no more than a stale frame in its place. */
  ghost predicate Idles(k: Control, l: Control) {
    && l.handler == k.handler && l.runs == k.runs
    && |k.stack| <= |l.stack| && forall i: nat :: |k.stack| <= i < |l.stack| ==> Stale(l, l.stack[i])
  }

  lemma PushIdles(k: Control, f: Frame)
    requires Stale(k, f)
    ensures Idles(k, k.Push(f))
  {
    assert Stale(k.Push(f), f);
  }

  lemma SameIdles(k: Control)
    ensures Idles(k, k)
  {
  }

  lemma StaleTrajectory(c: Setup, s: State, h: nat, items: seq<MissionItem>, done: Closure, stop: bool, answer: Answer)
    requires OneValidHandler(s.control) && h < s.control.handler
    ensures HandlerTrajectory(c, s, h, items, done, stop, answer) == s
  {
    hide RunTrajectoryStep, StartAbort;
  }

  lemma StaleNavigates(c: Setup, s: State, h: nat, done: Closure, at: int, answer: Answer)
    requires OneValidHandler(s.control) && h < s.control.handler && StaleClosure(s.control.handler, done)
    ensures Idles(s.control, NavigateToPreviousWaypoint(c, s, h, done, at, answer).control)
  {
    hide HandlerTrajectory, WaypointBefore, Idles, KeepsStore, KeepsSegment, StartsNoSettings, SamePlace, SameButIndex;
    var found := WaypointBefore(s.mission.items, if at < |s.mission.items| then at else |s.mission.items|);
    SameIdles(s.control);
    PushIdles(s.control, Invoke(done));
    if found.Some? {
      StaleTrajectory(c, s, h, [NavigationItem("", s.mission.items[found.value].waypoint)], done, false, answer);
    }
  }

  /** Invoking a callback made under an earlier handler. */
  lemma StaleInvokes(c: Setup, s: State, closure: Closure, answer: Answer)
    requires OneValidHandler(s.control) && Coherent(s.control.runs, s.control.handler, closure)
    requires StaleClosure(s.control.handler, closure)
    ensures Idles(s.control, InvokeStep(c, s, closure, answer).control)
  {
    hide NavigateToPreviousWaypoint, RunModeStep, ResumeMission, RunNextItem, Idles, FliesMission, StoreOf, KeepsStore,
      KeepsSegment, SamePlace, SameButIndex, StartsNoSettings, StartsOnlyItem;
    SameIdles(s.control);
    match closure
    case UserCode(_, run) => PushIdles(s.control, Client(run));
    case AfterTakeoff(h, done, at) => StaleNavigates(c, s, h, done, at, answer);
    case _ =>
  }

  /** Commands of a client that was given an earlier handler. */
  lemma StaleCommands(c: Setup, s: State, run: nat, command: Command, answer: Answer)
    requires OneValidHandler(s.control) && s.control.stack != [] && run < |s.control.runs| && !command.Return?
    requires s.control.runs[run].handler < s.control.handler
    requires RunCoherent(s.control.runs, s.control.handler, s.control.runs[run])
    ensures Idles(s.control, CommandStep(c, s, run, command, answer).control)
  {
    hide HandlerTrajectory, RunModeStep, RunActionStep, AddContinuousAction, DropStep, Idles, Coherent, KeepsStore,
      KeepsSegment, SamePlace, SameButIndex, StartsNoSettings, StartsOnlyItem;
    SameIdles(s.control);
    match command
    case RunTrajectory(items, stop) =>
      StaleTrajectory(c, s, s.control.runs[run].handler, items, UserCode(s.control.runs[run].handler, run),
        stop, answer);
    case DropState(id) => DropControl(s, id);
    case Complete =>
      var k := s.control.(completedRuns := s.control.completedRuns + {run});
      CompletedIdles(s.control, k, Invoke(s.control.runs[run].done));
    case _ =>
  }

  lemma CompletedIdles(k: Control, l: Control, f: Frame)
    requires l == k.(completedRuns := l.completedRuns) && Stale(k, f)
    ensures Idles(k, l.Push(f))
  {
    assert Stale(l.Push(f), f);
  }

  // ---- One step ----

  /** Calls, outside an abort. */
  lemma CalmCall(c: Setup, s: State, answer: Answer)
    requires HandlersOk(c, s.control) && AbortOk(s.control) && s.control.stack != [] && NoAborts(s.control.stack)
    requires Calls(s.control.Top())
    ensures AbortOk(Continue(c, s, answer).control)
  {
    hide Count, Advances, Begins, AbortOk, CallStep, ClosuresCoherent, StackCoherent, FrameCoherent, SaveStep;
    LevelAtRest(s.control);
    var t, f := Popped(s), s.control.Top();
    PopKeeps(c, s.control);
    TopCoherent(c, s.control);
    CallCarries(c, t, f, answer, All);
    CalmAborts(t.control, CallStep(c, t, f, answer).control);
  }

  lemma TopCoherent(c: Setup, k: Control)
    requires StackCoherent(c, k) && k.stack != []
    ensures FrameCoherent(c, k.runs, k.handler, k.Top())
  {
  }

  lemma LevelAtRest(k: Control)
    requires AbortOk(k) && NoAborts(k.stack)
    ensures k.abortLevel == 0 && k.failureRuns <= 11
  {
    LevelNone(k.stack);
  }

  /** Frames that call nothing, outside an abort. */
  lemma CalmReturn(c: Setup, s: State, answer: Answer)
    requires HandlersOk(c, s.control) && AbortOk(s.control) && s.control.stack != [] && NoAborts(s.control.stack)
    requires !Calls(s.control.Top()) && !InClient(s.control.Top())
    ensures AbortOk(Continue(c, s, answer).control)
  {
    hide AbortOk, ReturnStep, ClosuresCoherent, StackCoherent, AbortMainStep, ActivatedStep, InvokeStep, PerformStep,
      StartItemStep;
    LevelAtRest(s.control);
    ReturnControl(c, Popped(s), s.control.Top());
    NoneAborting(Continue(c, s, answer).control);
  }

  lemma PerformOn(c: Setup, s: State, f: Frame, answer: Answer)
    requires HandlersCalm(c, s.control) && FrameCoherent(c, s.control.runs, s.control.handler, f)
    requires f.Perform? && TokFrame(s.control.handler, All, f) == 0
    ensures var l := CallStep(c, s, f, answer).control; Advances(s.control, l) && Count(l, All) <= Count(s.control, All)
  {
    hide Advances, Count, Leads, PerformStep, ClosuresCoherent, StackCoherent, Coherent, Tok;
    PerformLeads(c, s, All, f.name, f.arguments, f.done, answer);
    LeadsOn(s.control, CallStep(c, s, f, answer).control, All, 0);
  }

  lemma InvokeOn(c: Setup, s: State, f: Frame, answer: Answer)
    requires HandlersCalm(c, s.control) && FrameCoherent(c, s.control.runs, s.control.handler, f)
    requires f.Invoke? && TokFrame(s.control.handler, All, f) == 0
    ensures var l := CallStep(c, s, f, answer).control; Advances(s.control, l) && Count(l, All) <= Count(s.control, All)
    ensures StaleClosure(s.control.handler, f.c) ==> Idles(s.control, CallStep(c, s, f, answer).control)
  {
    hide Advances, Count, Leads, InvokeStep, ClosuresCoherent, StackCoherent, Coherent, Idles;
    InvokeLeads(c, s, All, f.c, answer);
    LeadsOn(s.control, CallStep(c, s, f, answer).control, All, 0);
    if StaleClosure(s.control.handler, f.c) {
      StaleInvokes(c, s, f.c, answer);
    }
  }

  /** Calls, inside an abort. */
  lemma AbortCall(c: Setup, s: State, answer: Answer)
    requires HandlersOk(c, s.control) && AbortOk(s.control) && s.control.stack != [] && !NoAborts(s.control.stack)
    requires s.control.Top().Invoke? || s.control.Top().Perform?
    ensures AbortOk(Continue(c, s, answer).control)
  {
    hide Count, Advances, CallStep, ClosuresCoherent, StackCoherent, FrameCoherent, Coherent, Starts, TokFrame,
      StaleClosure, SaveStep;
    var t, f, u := Popped(s), s.control.Top(), Continue(c, s, answer);
    PopKeeps(c, s.control);
    PopCounts(s.control, All);
    TopCoherent(c, s.control);
    var j: nat :| j < |s.control.stack| && InAbort(s.control.stack[j]);
    var low := LowestAbort(s.control.stack, j);
    NothingContinues(s.control, low);
    if f.Perform? {
      PerformOn(c, t, f, answer);
    } else {
      InvokeOn(c, t, f, answer);
    }
    AbortAdvance(c, s.control, t.control, u.control);
  }

  /** Frames that call nothing, inside an abort: all but the end of an abort. */
  lemma AbortReturn(c: Setup, s: State, answer: Answer)
    requires HandlersOk(c, s.control) && AbortOk(s.control) && s.control.stack != [] && !NoAborts(s.control.stack)
    requires s.control.Top().ArmTimer? || s.control.Top().EnterTrajectory?
    ensures AbortOk(Continue(c, s, answer).control)
  {
    hide Count, ReturnStep, ClosuresCoherent, StackCoherent, FrameCoherent, Starts, AbortMainStep, ActivatedStep,
      InvokeStep, PerformStep, StartItemStep, KeepsStore, KeepsSegment, SamePlace, SameButIndex, StartsNoSettings,
      StartsOnlyItem;
    var t, f, u := Popped(s), s.control.Top(), Continue(c, s, answer);
    PopCounts(s.control, All);
    ReturnControl(c, t, f);
    if f.ArmTimer? {
      TimerCounts(t.control, All, f.done);
    }
    AbortAdvance(c, s.control, t.control, u.control);
  }

  /** The frames inside an abort. */
  lemma InnerFrames(k: Control)
    requires AbortOk(k) && !NoAborts(k.stack)
    ensures Upper(k.Top())
  {
    hide Count, Starts, Stale;
    var j: nat :| j < |k.stack| && InAbort(k.stack[j]);
    var low := LowestAbort(k.stack, j);
  }

  /** The client's `deactivate` overrides return. */
  lemma HooksLeave(k: Control, low: nat)
    requires AbortOk(k) && k.stack != [] && k.Top().CleanupHooks? && Outermost(k.Popped().stack, low)
    ensures Within(k.Popped(), low)
  {
    hide Starts, Count, Level;
    PopCounts(k, All);
    var l := k.Popped();
    assert Outermost(k.stack, low);
    assert l.stack[..low] == k.stack[..low];
  }

  lemma HooksReturn(k: Control)
    requires AbortOk(k) && k.stack != [] && k.Top().CleanupHooks?
    ensures AbortOk(k.Popped())
  {
    hide Starts, Within;
    LevelPrefix(k.stack, |k.stack| - 1);
    forall low: nat | Outermost(k.Popped().stack, low)
      ensures Within(k.Popped(), low)
    {
      HooksLeave(k, low);
    }
  }

  /** An abort whose failure action has returned. */
  lemma AbortEnds(k: Control)
    requires AbortOk(k) && k.stack != [] && k.Top().AbortEnd?
    ensures k.abortLevel > 0 && AbortOk(k.Popped().(abortLevel := k.abortLevel - 1))
  {
    hide Starts, Count;
    PopCounts(k, All);
    var m := k.Popped();
    var l := m.(abortLevel := k.abortLevel - 1);
    CountersCount(m, All, k.abortLevel - 1, 0);
    forall low: nat | Outermost(l.stack, low)
      ensures Within(l, low)
    {
      assert Outermost(k.stack, low);
      assert l.stack[..low] == k.stack[..low];
      assert InAbort(k.stack[|k.stack| - 1]);
      assert Quiet(l, low);
    }
  }

  lemma AbortMainControl(c: Setup, s: State, reason: string)
    ensures var k, e := s.control, EnterAbort(s).control;
      AbortMainStep(c, s, reason).control
      == if "onFailure" !in c.actions then k
         else if !s.active then e
         else
           e.(failureRuns := e.failureRuns + 1)
           .Push(Perform("onFailure", FailureArguments(EnterAbort(s), reason), Nop))
  {
    hide FailureArguments, StartAbort;
  }

  /** An abort without a failure action. */
  lemma AbortWithout(k: Control)
    requires AbortOk(k) && k.stack != [] && k.Top().AbortMain?
    ensures AbortOk(k.Popped())
  {
    hide Starts, Count, FliesMission, OpFrame, StaleClosure;
    PopCounts(k, All);
    LevelPrefix(k.stack, |k.stack| - 1);
    var l := k.Popped();
    forall low: nat | Outermost(l.stack, low)
      ensures Within(l, low)
    {
      assert Outermost(k.stack, low);
      assert l.stack[..low] == k.stack[..low];
    }
  }

  /** The failure action of an abort: `l` is the control after it was started, with `failures` counted. */
  lemma AbortWith(k: Control, l: Control, failures: nat)
    requires AbortOk(k) && k.stack != [] && k.Top().AbortMain?
    requires var n := |k.stack| - 1;
      && n < |l.stack| <= n + 2 && l.stack[..n] == k.stack[..n] && l.stack[n] == AbortEnd &&
         (|l.stack| == n + 2 ==> l.Top().Perform?)
    requires l.handler == k.handler && l.runs == k.runs && Count(l, All) == Count(k, All)
    requires l.abortLevel == k.abortLevel + 1 && failures <= 1
    requires l.failureRuns == (if k.abortLevel == 0 then 0 else k.failureRuns) + failures
    ensures AbortOk(l)
  {
    hide Starts, Count;
    var n := |k.stack| - 1;
    var first := LowestAbort(k.stack, n);
    assert Within(k, first);
    assert forall i: nat :: i < n ==> l.stack[i] == l.stack[..n][i] == k.stack[i];
    LevelWith(k, l);
    assert !Stale(k, k.stack[n]);
    hide Stale;
    if first == n {
      LevelNone(k.stack[..n]);
    }
    forall low: nat | Outermost(l.stack, low)
      ensures Within(l, low)
    {
      assert Outermost(k.stack, low);
      SameLow(k.stack, low, first);
      assert l.stack[..low] == k.stack[..low];
      WithinNext(k, l, low);
    }
  }

  lemma LevelWith(k: Control, l: Control)
    requires var n := |k.stack| - 1;
      && n >= 0 && k.stack[n].AbortMain?
      && n < |l.stack| <= n + 2 && l.stack[..n] == k.stack[..n] && l.stack[n] == AbortEnd &&
         (|l.stack| == n + 2 ==> l.Top().Perform?)
    ensures Level(l.stack) == Level(k.stack) + 1 && Level(k.stack) == Level(k.stack[..|k.stack| - 1])
  {
    var n := |k.stack| - 1;
    LevelPrefix(k.stack, n);
    LevelPrefix(l.stack, n + 1);
    assert l.stack[..n + 1] == k.stack[..n] + [AbortEnd];
    LevelPush(k.stack[..n], AbortEnd);
  }

  lemma WithinNext(k: Control, l: Control, low: nat)
    requires k.stack != [] && low <= |k.stack| - 1 && k.Top().AbortMain? && Within(k, low)
    requires var n := |k.stack| - 1;
      && n < |l.stack| <= n + 2 && l.stack[..n] == k.stack[..n] && l.stack[n] == AbortEnd &&
         (|l.stack| == n + 2 ==> l.Top().Perform?)
    requires l.handler == k.handler && l.runs == k.runs && Count(l, All) == Count(k, All)
    requires l.failureRuns <= l.abortLevel
    ensures Within(l, low)
  {
    hide Starts, Count;
    var n := |k.stack| - 1;
    assert l.stack[..low] == k.stack[..low] by { assert l.stack[..n][..low] == k.stack[..n][..low]; }
    assert forall i: nat :: i < n ==> l.stack[i] == l.stack[..n][i] == k.stack[i];
    assert InAbort(k.stack[n]);
  }

  lemma AbortMainKeepsBound(c: Setup, s: State, answer: Answer)
    requires HandlersOk(c, s.control) && AbortOk(s.control) && s.control.stack != [] && s.control.Top().AbortMain?
    ensures AbortOk(Continue(c, s, answer).control)
  {
    hide Count, AbortOk, AbortMainStep, StackCoherent, ClosuresCoherent, KeepsStore, KeepsSegment, StartsNoSettings,
      StartsOnlyItem;
    var k, t, f, u := s.control, Popped(s), s.control.Top(), Continue(c, s, answer);
    PopCounts(k, All);
    AbortMainControl(c, t, f.reason);
    EnterAbortCounts(t, All);
    if "onFailure" !in c.actions {
      AbortWithout(k);
    } else if !s.active {
      AbortWith(k, u.control, 0);
    } else {
      PushCounts(CountFailure(EnterAbort(t)).control, All,
        Perform("onFailure", FailureArguments(EnterAbort(t), f.reason), Nop));
      AbortWith(k, u.control, 1);
    }
  }

  lemma ContinueBound(c: Setup, s: State, answer: Answer)
    requires HandlersOk(c, s.control) && AbortOk(s.control) && s.control.stack != [] && !InClient(s.control.Top())
    ensures AbortOk(Continue(c, s, answer).control)
  {
    hide AbortOk, NoAborts, StackCoherent, ClosuresCoherent, CallStep, ReturnStep, KeepsStore, KeepsSegment, SamePlace,
      SameButIndex, StartsNoSettings, StartsOnlyItem;
    var k, f := s.control, s.control.Top();
    if f.AbortMain? {
      AbortMainKeepsBound(c, s, answer);
    } else if f.AbortEnd? {
      AbortEnds(k);
      ReturnControl(c, Popped(s), f);
    } else if NoAborts(k.stack) {
      if Calls(f) {
        CalmCall(c, s, answer);
      } else {
        CalmReturn(c, s, answer);
      }
    } else {
      InnerFrames(k);
      if f.Invoke? || f.Perform? {
        AbortCall(c, s, answer);
      } else {
        AbortReturn(c, s, answer);
      }
    }
  }

  lemma CommandOn(c: Setup, s: State, run: nat, command: Command, answer: Answer)
    requires HandlersCalm(c, s.control) && s.control.stack != [] && run < |s.control.runs| && !command.Return?
    ensures var l := CommandStep(c, s, run, command, answer).control;
      Advances(s.control, l) && Count(l, All) <= Count(s.control, All)
    ensures s.control.runs[run].handler < s.control.handler ==>
      Idles(s.control, CommandStep(c, s, run, command, answer).control)
  {
    assert RunCoherent(s.control.runs, s.control.handler, s.control.runs[run]);
    hide Advances, Count, Leads, CommandStep, ClosuresCoherent, StackCoherent, RunCoherent, Idles;
    CommandLeads(c, s, All, run, command, answer);
    LeadsOn(s.control, CommandStep(c, s, run, command, answer).control, All, 0);
    if s.control.runs[run].handler < s.control.handler {
      StaleCommands(c, s, run, command, answer);
    }
  }

  /** Commands of a client, wherever it was called from. */
  lemma CommandBound(c: Setup, s: State, run: nat, command: Command, answer: Answer)
    requires HandlersOk(c, s.control) && AbortOk(s.control) && s.control.stack != [] && s.control.Top() == Client(run)
    requires run < |s.control.runs| && !command.Return?
    ensures AbortOk(CommandStep(c, s, run, command, answer).control)
  {
    hide AbortOk, NoAborts, Advances, Count, CommandStep, StackCoherent, ClosuresCoherent;
    CommandOn(c, s, run, command, answer);
    var l := CommandStep(c, s, run, command, answer).control;
    if NoAborts(s.control.stack) {
      LevelAtRest(s.control);
      CalmAborts(s.control, l);
    } else {
      AbortAdvance(c, s.control, s.control, l);
    }
  }

  lemma ReturnAdvances(k: Control)
    requires k.stack != []
    ensures Advances(k.Popped(), k.Popped())
  {
  }

  lemma ClientReturns(c: Setup, k: Control)
    requires HandlersOk(c, k) && AbortOk(k) && k.stack != [] && k.Top().Client?
    ensures AbortOk(k.Popped())
  {
    hide AbortOk, Advances, Count, StackCoherent, ClosuresCoherent;
    PopCounts(k, All);
    ReturnAdvances(k);
    if NoAborts(k.stack) {
      LevelAtRest(k);
      CalmAborts(k.Popped(), k.Popped());
    } else {
      AbortAdvance(c, k, k.Popped(), k.Popped());
    }
  }

  /** The client's activation callback: it is never inside an abort, but may start one. */
  lemma HookBound(c: Setup, s: State, reason: string)
    requires HandlersOk(c, s.control) && AbortOk(s.control) && s.control.stack != [] && s.control.Top().ActivatedHook?
    ensures AbortOk(s.control.Popped()) && AbortOk(StartAbort(s, reason).control)
  {
    hide AbortOk, Leads, Advances, Count, StackCoherent, ClosuresCoherent, StartAbort;
    if !NoAborts(s.control.stack) {
      InnerFrames(s.control);
    } else {
      LevelAtRest(s.control);
      NoneAborting(s.control.Popped());
      StartAbortLeads(c, s, All, reason, 0);
      LeadsOn(s.control, StartAbort(s, reason).control, All, 0);
      CalmAborts(s.control, StartAbort(s, reason).control);
    }
  }

  lemma UserBound(c: Setup, s: State, l: Label)
    requires HandlersOk(c, s.control) && AbortOk(s.control) && s.control.stack != [] &&
      InClient(s.control.Top()) && l.User?
    ensures AbortOk(Step(c, s, l).control)
  {
    hide AbortOk, CommandStep, StartAbort, DropStep, StackCoherent, ClosuresCoherent, Continue, ExternalStep;
    match s.control.Top()
    case Client(run) =>
      if run < |s.control.runs| {
        if l.command.Return? {
          ReturnPops(c, s, run, l.answer);
          ClientReturns(c, s.control);
        } else {
          CommandBound(c, s, run, l.command, l.answer);
        }
      } else {
        NoSuchRun(c, s, run, l.command, l.answer);
      }
    case ActivatedHook => HookBound(c, s, "other");
    case CleanupHooks =>
      HooksReturn(s.control);
      if l.command.DropState? {
        DropControl(s, l.command.id);
      }
  }

  // ---- Events ----

  lemma FinishBound(c: Setup, s: State, outcome: Outcome)
    requires HandlersOk(c, s.control) && s.control.stack == [] && s.control.abortLevel == 0 &&
      s.control.failureRuns <= 11
    ensures AbortOk(FinishMode(s, outcome).control)
  {
    if s.control.scheduled.Some? {
      var callback, t := s.control.scheduled.value, SetScheduled(s, None);
      ScheduleKeeps(c, s.control, None);
      NoneAborting(t.control.Push(Invoke(callback.done)));
      NoneAborting(t.control);
      hide AbortOk, Leads, Advances, Count, StackCoherent, ModeFailed, Coherent;
      var extra := TokCallback(All, s.control.handler, callback.done, callback.onFailure);
      ModeFailedLeads(c, t, All, callback.onFailure, extra);
      LeadsOn(t.control, ModeFailed(t, callback.onFailure).control, All, extra);
      CalmAborts(t.control, ModeFailed(t, callback.onFailure).control);
    } else {
      NoneAborting(s.control);
      hide AbortOk;
    }
  }

  lemma StartAbortBound(c: Setup, s: State, reason: string)
    requires HandlersOk(c, s.control) && s.control.stack == [] && s.control.abortLevel == 0 &&
      s.control.failureRuns <= 11
    ensures AbortOk(StartAbort(s, reason).control)
  {
    hide AbortOk, Leads, Advances, Count, StackCoherent, ClosuresCoherent, StartAbort;
    StartAbortLeads(c, s, All, reason, 0);
    LeadsOn(s.control, StartAbort(s, reason).control, All, 0);
    CalmAborts(s.control, StartAbort(s, reason).control);
  }

  lemma UpdateBound(c: Setup, s: State, positionValid: bool, reached: bool)
    requires HandlersOk(c, s.control) && s.control.stack == [] && s.control.abortLevel == 0 &&
      s.control.failureRuns <= 11
    ensures AbortOk(UpdateSetpointStep(c, s, positionValid, reached).control)
  {
    hide AbortOk, StartAbort, ReachIndex, KeepsStore, KeepsSegment, SamePlace, SameButIndex, StartsNoSettings,
      StartsOnlyItem;
    NoneAborting(s.control);
    StartAbortBound(c, s, "trajectoryFailure");
    if s.control.flight.target.Some? {
      ReachIndexCarries(s, All, s.control.flight.target.value);
      CalmAborts(s.control, ReachIndex(s, s.control.flight.target.value).control);
    }
  }

  lemma DeactivateBound(c: Setup, s: State)
    requires s.control.stack == [] && s.control.abortLevel == 0 && s.control.failureRuns <= 11
    ensures AbortOk(OnDeactivate(c, s).control)
  {
    hide AbortOk, OnDeactivate, MissionDone;
    OnDeactivateControl(c, s);
    NoneAborting(OnDeactivate(c, s).control);
  }

  lemma ActivateBound(c: Setup, s: State)
    requires HandlersOk(c, s.control) && s.control.stack == [] && s.control.abortLevel == 0 &&
      s.control.failureRuns <= 11
    ensures AbortOk(OnActivate(c, s).control)
  {
    hide AbortOk, StartAbort, ClosuresCoherent, StackCoherent;
    var t := s.(active := true, options := s.mission.defaults, itemState := Other, activeMode := c.ownMode);
    StartAbortBound(c, t, "noValidMission");
    if IsReady(t) {
      NoneAborting(OnActivate(c, s).control);
    }
  }

  lemma PushBound(k: Control, f: Frame)
    requires k.stack == [] && k.abortLevel == 0 && k.failureRuns <= 11 && !InAbort(f)
    ensures AbortOk(k.Push(f)) && AbortOk(k)
  {
    NoneAborting(k.Push(f));
    NoneAborting(k);
    hide AbortOk;
  }

  lemma FireBound(s: State)
    requires s.control.stack == [] && s.control.abortLevel == 0 && s.control.failureRuns <= 11
    ensures AbortOk(FireTimer(s).control)
  {
    hide AbortOk;
    PushBound(s.control, EnterTrajectory);
    if s.control.holdTimer.Some? {
      PushBound(s.control.(holdTimer := None), Invoke(s.control.holdTimer.value));
    }
  }

  lemma ExternalBound(c: Setup, s: State, event: Event, answer: Answer)
    requires HandlersOk(c, s.control) && AbortOk(s.control) && s.control.stack == []
    ensures AbortOk(ExternalStep(c, s, event, answer).control)
  {
    hide AbortOk, ClosuresCoherent, StackCoherent, OnActivate, OnDeactivate, UpdateSetpointStep, StartAbort, FinishMode,
      SetMissionStep, FireTimer, KeepsStore, KeepsSegment, SamePlace, SameButIndex, StartsNoSettings, StartsOnlyItem;
    LevelAtRest(s.control);
    match event
    case SetMission(mission) => SetMissionControl(c, s, mission);
    case Activate => ActivateBound(c, s);
    case Deactivate => DeactivateBound(c, s);
    case ModeFinished(outcome) => FinishBound(c, s, outcome);
    case UpdateSetpoint(positionValid, reached) => UpdateBound(c, s, positionValid, reached);
    case TimerFired => FireBound(s);
    case ClientTurn(run) => PushBound(s.control, Client(run));
    case AbortRequest => StartAbortBound(c, s, "other");
    case _ =>
  }

  lemma StepKeepsBound(c: Setup, s: State, l: Label)
    requires HandlersOk(c, s.control) && AbortOk(s.control)
    ensures AbortOk(Step(c, s, l).control)
  {
    hide AbortOk, ClosuresCoherent, StackCoherent, ExternalStep, Continue, CommandStep, StartAbort, DropStep;
    if s.control.stack == [] {
      if l.External? {
        ExternalBound(c, s, l.event, l.answer);
      }
    } else if InClient(s.control.Top()) {
      if l.User? {
        UserBound(c, s, l);
      }
    } else if l.Internal? {
      ContinueBound(c, s, l.answer);
    }
  }

  lemma {:induction false} AbortsHold(c: Setup, file: Option<Json>, ls: seq<Label>)
    ensures AbortOk(Steps(c, Initial(file), ls).control)
  {
    hide AbortOk, HandlersOk, Step;
    if ls == [] {
      NoneAborting(Initial(file).control);
    } else {
      AbortsHold(c, file, ls[..|ls| - 1]);
      ExactlyOneValidHandler(c, file, ls[..|ls| - 1]);
      StepKeepsBound(c, Steps(c, Initial(file), ls[..|ls| - 1]), ls[|ls| - 1]);
    }
  }

  /** Over every run: the level is the number of failure actions in progress, so it is back at its old value when
      an abort returns; it is at most 11; and so is the number of failure actions that one outermost abort causes. */
  lemma AbortsAreBounded(c: Setup, file: Option<Json>, ls: seq<Label>)
    ensures var k := Steps(c, Initial(file), ls).control;
      && k.abortLevel == Level(k.stack) <= 11
      && k.failureRuns <= 11
      && (k.stack == [] ==> k.abortLevel == 0)
  {
    hide CommandStep, Continue, Count, ExternalStep, StartAbort;
    AbortsHold(c, file, ls);
  }
}
