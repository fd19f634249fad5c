/** Exactly one handler is valid in every reachable state, and every pending callback is coherent:
    it refers to existing handlers and runs, and everything nested in it captured the same handler. */
module MissionHandlers {
  import opened Wrappers
  import opened JsonValues
  import opened Missions
  import opened PersistentStates
  import opened MissionTypes
  import opened MissionSteps

  /** `cur` is the number of the current handler. */
  ghost predicate Coherent(runs: seq<Run>, cur: nat, c: Closure) {
    match c
    case Nop => true
    case ItemDone(h) => h <= cur
    case ResumeDone(h, _) => h <= cur
    case UserCode(h, r) => h <= cur && r < |runs| && runs[r].handler == h
    case TryDescend(h, done) => h <= cur && Coherent(runs, cur, done) && (done.Nop? || done.handler == h)
    case AfterTakeoff(h, done, at) =>
      h <= cur && at >= 0 && Coherent(runs, cur, done) && (done.Nop? || done.handler == h)
  }

  ghost predicate RunCoherent(runs: seq<Run>, cur: nat, r: Run) {
    r.handler <= cur && Coherent(runs, cur, r.done) && (r.done.Nop? || r.done.handler == r.handler)
  }

  ghost predicate CallbackCoherent(runs: seq<Run>, cur: nat, m: ModeCallback) {
    && Coherent(runs, cur, m.done)
    && (m.onFailure.Some? ==> Coherent(runs, cur, m.onFailure.value))
  }

  ghost predicate ReportCoherent(runs: seq<Run>, cur: nat, r: IndexCallback) {
    match r
    case NoReport => true
    case SegmentStep(h, _) => h <= cur
    case CustomStep(done, _) => Coherent(runs, cur, done)
  }

  /** A trajectory in flight is inside its list of waypoints, and its report waits for its last index. */
  ghost predicate FlightCoherent(runs: seq<Run>, cur: nat, f: Flight) {
    && ReportCoherent(runs, cur, f.report)
    && (f.report.SegmentStep? ==> f.report.end == f.end)
    && (f.report.CustomStep? ==> f.report.end == f.end)
    && (f.target.Some? ==> 0 <= f.target.value <= f.end < |f.items|
                           && forall i: nat :: f.target.value <= i <= f.end ==> f.items[i].NavigationItem?)
  }

  ghost predicate FrameCoherent(c: Setup, runs: seq<Run>, cur: nat, f: Frame) {
    match f
    case Invoke(closure) => Coherent(runs, cur, closure)
    case Perform(name, _, done) => name in c.actions && Coherent(runs, cur, done) && (done.Nop? || done.handler == cur)
    case Client(r) => r < |runs|
    case Activated(h, _) => h <= cur
    case Restore(_, h) => h <= cur
    case StartItem(_, h) => h <= cur
    case ArmTimer(done) => Coherent(runs, cur, done)
    case _ => true
  }

  /** Exactly the current handler is valid. */
  ghost predicate OneValidHandler(k: Control) {
    k.valid == {k.handler}
  }

  ghost predicate StackCoherent(c: Setup, k: Control) {
    && (forall i: nat :: i < |k.stack| ==> FrameCoherent(c, k.runs, k.handler, k.stack[i]))
    && (forall i: nat :: i < |k.stack| - 1 ==> !k.stack[i].Perform?)
  }

  ghost predicate ClosuresCoherent(k: Control) {
    && (forall i: nat :: i < |k.runs| ==> RunCoherent(k.runs, k.handler, k.runs[i]))
    && (k.scheduled.Some? ==> CallbackCoherent(k.runs, k.handler, k.scheduled.value))
    && (k.holdTimer.Some? ==> Coherent(k.runs, k.handler, k.holdTimer.value))
    && FlightCoherent(k.runs, k.handler, k.flight)
    && forall r: nat :: r in k.completedRuns ==> r < |k.runs|
  }

  ghost predicate HandlersOk(c: Setup, k: Control) {
    OneValidHandler(k) && ClosuresCoherent(k) && StackCoherent(c, k)
  }

  /** As above, and no action is about to be run. */
  ghost predicate HandlersCalm(c: Setup, k: Control) {
    HandlersOk(c, k) && (k.stack != [] ==> !k.Top().Perform?)
  }

  /** A callback that the current handler may be given to. */
  ghost predicate ForCurrent(k: Control, c: Closure) {
    Coherent(k.runs, k.handler, c) && (c.Nop? || c.handler == k.handler)
  }

  // ---- Growth ----

  ghost predicate Grows(k: Control, l: Control) {
    k.handler <= l.handler && k.runs <= l.runs
  }

  lemma {:induction false} CoherentGrows(k: Control, l: Control, c: Closure)
    requires Grows(k, l) && Coherent(k.runs, k.handler, c)
    ensures Coherent(l.runs, l.handler, c)
  {
    match c
    case TryDescend(_, done) => CoherentGrows(k, l, done);
    case AfterTakeoff(_, done, _) => CoherentGrows(k, l, done);
    case _ =>
  }

  /** The same places, with more runs or handlers, are still coherent. */
  lemma PlacesGrow(c: Setup, k: Control, l: Control)
    requires HandlersCalm(c, k) && Grows(k, l)
    requires l.stack == k.stack && l.scheduled == k.scheduled && l.holdTimer == k.holdTimer && l.flight == k.flight
    ensures StackCoherent(c, l)
    ensures forall i: nat :: i < |k.runs| ==> RunCoherent(l.runs, l.handler, l.runs[i])
    ensures l.runs == k.runs && l.completedRuns == k.completedRuns ==> ClosuresCoherent(l)
    ensures l.scheduled.Some? ==> CallbackCoherent(l.runs, l.handler, l.scheduled.value)
    ensures l.holdTimer.Some? ==> Coherent(l.runs, l.handler, l.holdTimer.value)
    ensures FlightCoherent(l.runs, l.handler, l.flight)
  {
    hide Coherent;
    forall i: nat | i < |k.stack|
      ensures FrameCoherent(c, l.runs, l.handler, l.stack[i])
    {
      assert FrameCoherent(c, l.runs, l.handler, k.stack[i]) by {
        match k.stack[i]
        case Invoke(closure) => CoherentGrows(k, l, closure);
        case ArmTimer(done) => CoherentGrows(k, l, done);
        case _ =>
      }
    }
    forall i: nat | i < |k.runs|
      ensures RunCoherent(l.runs, l.handler, l.runs[i])
    {
      CoherentGrows(k, l, k.runs[i].done);
    }
    if k.scheduled.Some? {
      CoherentGrows(k, l, k.scheduled.value.done);
      if k.scheduled.value.onFailure.Some? {
        CoherentGrows(k, l, k.scheduled.value.onFailure.value);
      }
    }
    if k.holdTimer.Some? {
      CoherentGrows(k, l, k.holdTimer.value);
    }
    if k.flight.report.CustomStep? {
      CoherentGrows(k, l, k.flight.report.done);
    }
  }

  // ---- Each operation ----

  lemma PushKeeps(c: Setup, k: Control, f: Frame)
    requires HandlersCalm(c, k) && FrameCoherent(c, k.runs, k.handler, f)
    ensures HandlersOk(c, k.Push(f)) && (!f.Perform? ==> HandlersCalm(c, k.Push(f)))
  {
    hide FlightCoherent;
  }

  lemma ValidHandler(c: Setup, k: Control)
    requires HandlersOk(c, k)
    ensures OneValidHandler(k)
  {
    hide ClosuresCoherent, StackCoherent;
  }

  lemma PopKeeps(c: Setup, k: Control)
    requires HandlersOk(c, k) && k.stack != []
    ensures HandlersCalm(c, k.Popped())
  {
    hide CallbackCoherent, FlightCoherent, FrameCoherent;
  }

  lemma ScheduleKeeps(c: Setup, k: Control, callback: Option<ModeCallback>)
    requires HandlersCalm(c, k) && (callback.Some? ==> CallbackCoherent(k.runs, k.handler, callback.value))
    ensures HandlersCalm(c, k.(scheduled := callback))
  {
  }

  lemma TimerKeeps(c: Setup, k: Control, done: Option<Closure>)
    requires HandlersCalm(c, k) && (done.Some? ==> Coherent(k.runs, k.handler, done.value))
    ensures HandlersCalm(c, k.(holdTimer := done))
  {
  }

  lemma FlightKeeps(c: Setup, k: Control, flight: Flight)
    requires HandlersCalm(c, k) && FlightCoherent(k.runs, k.handler, flight)
    ensures HandlersCalm(c, k.(flight := flight))
  {
  }

  lemma KnownRuns(c: Setup, k: Control)
    requires HandlersCalm(c, k)
    ensures forall r: nat :: r in k.completedRuns ==> r < |k.runs|
  {
    hide StackCoherent, FlightCoherent;
  }

  lemma CountersKeep(c: Setup, k: Control, level: nat, failures: nat, completed: set<nat>)
    requires HandlersCalm(c, k) && forall r: nat :: r in completed ==> r < |k.runs|
    ensures HandlersCalm(c, k.(abortLevel := level, failureRuns := failures))
    ensures HandlersCalm(c, k.(failureRuns := failures))
    ensures HandlersCalm(c, k.(abortLevel := level))
    ensures HandlersCalm(c, k.(completedRuns := completed))
  {
    hide FlightCoherent;
  }

  lemma InvalidateKeeps(c: Setup, s: State)
    requires HandlersCalm(c, s.control)
    ensures HandlersCalm(c, InvalidateHandler(s).control)
  {
    PlacesGrow(c, s.control, InvalidateHandler(s).control);
  }

  lemma DropKeeperControl(s: State)
    ensures DropSettingsKeeper(s).control == s.control
  {
  }

  lemma StartAbortKeeps(c: Setup, s: State, reason: string)
    requires HandlersCalm(c, s.control)
    ensures HandlersCalm(c, StartAbort(s, reason).control)
  {
    hide ClosuresCoherent, StackCoherent, InvalidateHandler, DeactivateDefaults, KeepsStore, SamePlace, KeepsSegment,
      SameButIndex, StartsNoSettings, StartsOnlyItem;
    var t := InvalidateHandler(s);
    InvalidateKeeps(c, s);
    assert HandlersCalm(c, DeactivateDefaults(t).control) by {
      hide HandlersCalm, DropSettingsKeeper, SetTimer;
      DropKeeperControl(t);
      TimerKeeps(c, t.control, None);
    }
    var k := DeactivateDefaults(t).control;
    PushKeeps(c, k, AbortMain(reason));
    PushKeeps(c, k.Push(AbortMain(reason)), CleanupHooks);
  }

  lemma ModeFailedKeeps(c: Setup, s: State, onFailure: Option<Closure>)
    requires HandlersCalm(c, s.control) &&
      (onFailure.Some? ==> Coherent(s.control.runs, s.control.handler, onFailure.value))
    ensures HandlersCalm(c, ModeFailed(s, onFailure).control)
  {
    hide ClosuresCoherent, StackCoherent, StartAbort, KeepsStore, SamePlace;
    if onFailure.None? {
      StartAbortKeeps(c, s.(activeMode := 0), "modeFailure");
    } else {
      PushKeeps(c, s.control, Invoke(onFailure.value));
    }
  }

  lemma RunModeKeeps(c: Setup, s: State, mode: nat, done: Closure, onFailure: Option<Closure>, answer: Answer)
    requires HandlersCalm(c, s.control) &&
      CallbackCoherent(s.control.runs, s.control.handler, ModeCallback(done, onFailure))
    ensures HandlersCalm(c, RunModeStep(s, mode, done, onFailure, answer).control)
  {
    hide ClosuresCoherent, StackCoherent, ModeFailed, KeepsStore, KeepsSegment, StartsNoSettings, SamePlace,
      SameButIndex;
    var t := s.(itemState := Other, activeMode := mode);
    ScheduleKeeps(c, t.control, None);
    ScheduleKeeps(c, t.control, Some(ModeCallback(done, onFailure)));
    ModeFailedKeeps(c, t, onFailure);
    ModeFailedKeeps(c, SetScheduled(t, None), onFailure);
  }

  lemma RunActionKeeps(c: Setup, s: State, name: string, arguments: Json, done: Closure)
    requires HandlersCalm(c, s.control) && ForCurrent(s.control, done)
    ensures HandlersOk(c, RunActionStep(c, s, name, arguments, done).control)
  {
    hide ClosuresCoherent, StackCoherent, StartAbort, KeepsStore, SamePlace;
    var t := s.(itemState := Other);
    StartAbortKeeps(c, t, "actionDoesNotExist");
    if name in c.actions {
      PushKeeps(c, t.control, Perform(name, arguments, done));
    }
  }

  lemma RunTrajectoryKeeps(c: Setup, s: State, items: seq<MissionItem>, start: int, end: int, report: IndexCallback,
                           stop: bool, answer: Answer)
    requires HandlersCalm(c, s.control)
    requires FlightCoherent(s.control.runs, s.control.handler, Flight(items, s.options, end, stop, report, Some(start)))
    ensures HandlersCalm(c, RunTrajectoryStep(c, s, items, start, end, report, stop, answer).control)
  {
    hide ClosuresCoherent, StackCoherent, RunModeStep, KeepsStore, KeepsSegment, SamePlace, SameButIndex,
      StartsNoSettings, StartsOnlyItem;
    var flight := Flight(items, s.options, end, stop, report, Some(start));
    var t := SetFlight(s, flight);
    FlightKeeps(c, s.control, flight);
    PushKeeps(c, t.control, EnterTrajectory);
    RunModeKeeps(c, t.Push(EnterTrajectory), c.ownMode, Nop, None, answer);
  }

  lemma HandlerTrajectoryKeeps(c: Setup, s: State, h: nat, items: seq<MissionItem>, done: Closure, stop: bool,
      answer: Answer)
    requires HandlersCalm(c, s.control) && Coherent(s.control.runs, s.control.handler, done)
    ensures HandlersCalm(c, HandlerTrajectory(c, s, h, items, done, stop, answer).control)
  {
    hide ClosuresCoherent, StackCoherent, RunTrajectoryStep, StartAbort, StoreOf, KeepsStore, KeepsSegment, SamePlace,
      SameButIndex, StartsNoSettings, StartsOnlyItem;
    PushKeeps(c, s.control, Invoke(done));
    StartAbortKeeps(c, s, "trajectoryFailure");
    if items != [] && forall i :: 0 <= i < |items| ==> items[i].NavigationItem? {
      RunTrajectoryKeeps(c, s, items, 0, |items| - 1, CustomStep(done, |items| - 1), stop, answer);
    }
  }

  lemma StartSegmentKeeps(c: Setup, s: State, index: nat, answer: Answer)
    requires HandlersCalm(c, s.control) && index < |s.mission.items| && s.mission.items[index].NavigationItem?
    requires s.persistent.currentIndex == Some(index)
    ensures HandlersOk(c, StartItemStep(c, s, false, answer).control)
    ensures HandlersOk(c, StartItemStep(c, s, true, answer).control)
  {
    hide ClosuresCoherent, StackCoherent, RunModeStep, RunTrajectoryStep, RunActionStep, Segments.SegmentEnd,
      KeepsStore, KeepsSegment, SamePlace, SameButIndex, StartsNoSettings, StartsOnlyItem;
    var end := Segments.SegmentEnd(s.mission.items, index);
    Segments.SegmentIsMaximal(s.mission.items, index);
    var t := s.(segments := if s.active then s.segments + [(index as int, end as int)] else s.segments);
    RunTrajectoryKeeps(c, t, s.mission.items, index, end, SegmentStep(s.control.handler, end),
                       Segments.SegmentStop(c, s.mission.items, end), answer);
  }

  lemma StartItemKeeps(c: Setup, s: State, resuming: bool, answer: Answer)
    requires HandlersCalm(c, s.control)
    ensures HandlersOk(c, StartItemStep(c, s, resuming, answer).control)
  {
    hide ClosuresCoherent, StackCoherent, RunModeStep, RunTrajectoryStep, RunActionStep, Segments.SegmentEnd,
      KeepsStore, KeepsSegment, SamePlace, SameButIndex, StartsNoSettings, StartsOnlyItem;
    RunModeKeeps(c, s, LOITER, Nop, None, answer);
    if s.persistent.currentIndex.Some? && s.mission.IndexValid(s.persistent.currentIndex.value) {
      var index := s.persistent.currentIndex.value;
      match s.mission.items[index]
      case NavigationItem(_, _) => StartSegmentKeeps(c, s, index, answer);
      case ActionItem(_, name, arguments) =>
        var given := if resuming then arguments.Put("internal:resuming", Bool(true)) else Success(arguments);
        if given.Success? {
          RunActionKeeps(c, s, name, given.value, ItemDone(s.control.handler));
        }
    }
  }

  lemma RunStoredKeeps(c: Setup, s: State)
    requires HandlersCalm(c, s.control)
    ensures HandlersCalm(c, RunStoredActions(s).control)
  {
    hide ClosuresCoherent, StackCoherent;
    PushKeeps(c, s.control, Restore(OrderedMaps.Values(s.persistent.continuousActions), s.control.handler));
  }

  lemma ResumeMissionKeeps(c: Setup, s: State, h: nat, previous: Option<int>)
    requires HandlersCalm(c, s.control) && h <= s.control.handler
    ensures HandlersCalm(c, ResumeMission(s, h, previous).control)
  {
    hide ClosuresCoherent, StackCoherent, RunStoredActions, FliesMission;
    PushKeeps(c, s.control, StartItem(true, h));
    RunStoredKeeps(c, s.Push(StartItem(true, h)));
    PushKeeps(c, s.control, StartItem(false, h));
  }

  lemma NavigateKeeps(c: Setup, s: State, h: nat, done: Closure, at: int, answer: Answer)
    requires HandlersCalm(c, s.control) && Coherent(s.control.runs, s.control.handler, done)
    ensures HandlersCalm(c, NavigateToPreviousWaypoint(c, s, h, done, at, answer).control)
  {
    hide ClosuresCoherent, StackCoherent, HandlerTrajectory, WaypointBefore, Coherent, KeepsStore, KeepsSegment,
      StartsNoSettings, SamePlace, SameButIndex, OneValidHandler;
    var found := WaypointBefore(s.mission.items, if at < |s.mission.items| then at else |s.mission.items|);
    PushKeeps(c, s.control, Invoke(done));
    if found.Some? {
      HandlerTrajectoryKeeps(c, s, h, [NavigationItem("", s.mission.items[found.value].waypoint)], done, false, answer);
    }
  }

  lemma InvokeKeeps(c: Setup, s: State, closure: Closure, answer: Answer)
    requires HandlersCalm(c, s.control) && Coherent(s.control.runs, s.control.handler, closure)
    ensures HandlersCalm(c, InvokeStep(c, s, closure, answer).control)
  {
    hide ClosuresCoherent, StackCoherent, NavigateToPreviousWaypoint, RunModeStep, ResumeMission, KeepsStore,
      KeepsSegment, SamePlace, SameButIndex, StartsNoSettings, StartsOnlyItem;
    match closure
    case Nop =>
    case ItemDone(h) => PushKeeps(c, s.control, StartItem(false, s.control.handler));
    case UserCode(_, run) => PushKeeps(c, s.control, Client(run));
    case TryDescend(h, done) => RunModeKeeps(c, s, DESCEND, done, Some(Nop), answer);
    case AfterTakeoff(h, done, at) => NavigateKeeps(c, s, h, done, at, answer);
    case ResumeDone(h, previous) => ResumeMissionKeeps(c, s, h, previous);
  }

  lemma ResumeFromLandingKeeps(c: Setup, s: State, done: Closure, index: int)
    requires HandlersCalm(c, s.control) && ForCurrent(s.control, done) && s.mission.IndexValid(index)
    ensures HandlersOk(c, ResumeFromUnexpectedLanding(c, s, done, index).control)
  {
    hide ClosuresCoherent, StackCoherent, RunActionStep, ReturnsHome, TakeoffBefore, SetCurrentIndex, KeepsStore,
      KeepsSegment, StartsNoSettings, StartsOnlyItem;
    PushKeeps(c, s.control, Invoke(done));
    var takeoff := TakeoffBefore(s.mission.items, index);
    if takeoff.Some? {
      RunActionKeeps(c, s, "takeoff", s.mission.items[takeoff.value].arguments,
        AfterTakeoff(s.control.handler, done, index));
    }
  }

  lemma ResumeKeeps(c: Setup, s: State, arguments: Json, done: Closure)
    requires HandlersCalm(c, s.control) && ForCurrent(s.control, done)
    ensures HandlersOk(c, ResumeStep(c, s, arguments, done).control)
  {
    hide ClosuresCoherent, StackCoherent, ResumeFromUnexpectedLanding, CurrentSupportsResumeFromLanded, Coherent,
      KeepsStore, KeepsSegment, SamePlace, SameButIndex, StartsNoSettings, StartsOnlyItem;
    PushKeeps(c, s.control, Invoke(done));
    var index := s.persistent.currentIndex.GetOr(0);
    if s.mission.IndexValid(index) {
      ResumeFromLandingKeeps(c, s, done, index);
    }
  }

  lemma ChangedSettingsControl(s: State, arguments: Json)
    ensures ChangedSettings(s, arguments).Success? ==> ChangedSettings(s, arguments).value.control == s.control
  {
    hide MergedOptions, EncodeOptions, ResetsAll, TrajectoryOptions.CombinedWith;
  }

  lemma CustomRunKeeps(c: Setup, k: Control, done: Closure)
    requires HandlersCalm(c, k) && ForCurrent(k, done)
    ensures HandlersCalm(c, k.(runs := k.runs + [Run(k.handler, done)]).Push(Client(|k.runs|)))
  {
    var l := k.(runs := k.runs + [Run(k.handler, done)]);
    PlacesGrow(c, k, l);
    CoherentGrows(k, l, done);
    PushKeeps(c, l, Client(|k.runs|));
  }

  lemma PerformModeKeeps(c: Setup, s: State, name: string, arguments: Json, done: Closure, answer: Answer)
    requires HandlersCalm(c, s.control) && name in c.actions && ForCurrent(s.control, done)
    requires c.actions[name].Takeoff? || c.actions[name].Rtl? || c.actions[name].Land?
    ensures HandlersOk(c, PerformStep(c, s, name, arguments, done, answer).control)
  {
    hide ClosuresCoherent, StackCoherent, RunModeStep, Coherent, ChangedSettings, ResumeFromUnexpectedLanding,
      KeepsStore, KeepsSegment, SamePlace, SameButIndex, StartsNoSettings, StartsOnlyItem;
    match c.actions[name]
    case Takeoff => RunModeKeeps(c, s, TAKEOFF, done, None, answer);
    case Rtl => RunModeKeeps(c, s, RTL, done, None, answer);
    case Land => RunModeKeeps(c, s, LAND, done, None, answer);
  }

  lemma PerformHoldKeeps(c: Setup, s: State, name: string, arguments: Json, done: Closure, answer: Answer)
    requires HandlersCalm(c, s.control) && name in c.actions && ForCurrent(s.control, done)
    requires c.actions[name].Hold? || c.actions[name].OnFailure?
    ensures HandlersOk(c, PerformStep(c, s, name, arguments, done, answer).control)
  {
    hide ClosuresCoherent, StackCoherent, RunModeStep, ResumeFromUnexpectedLanding, KeepsStore, KeepsSegment,
      StartsNoSettings, StartsOnlyItem;
    if c.actions[name].Hold? {
      PushKeeps(c, s.control, ArmTimer(done));
      RunModeKeeps(c, s.Push(ArmTimer(done)), LOITER, Nop, None, answer);
    } else {
      RunModeKeeps(c, s, RTL, done, Some(TryDescend(s.control.handler, done)), answer);
    }
  }

  lemma PerformOtherKeeps(c: Setup, s: State, name: string, arguments: Json, done: Closure, answer: Answer)
    requires HandlersCalm(c, s.control) && name in c.actions && ForCurrent(s.control, done)
    requires c.actions[name].OnResume? || c.actions[name].ChangeSettings? || c.actions[name].Custom?
    ensures HandlersOk(c, PerformStep(c, s, name, arguments, done, answer).control)
  {
    hide ClosuresCoherent, StackCoherent, ResumeStep, ChangedSettings, Coherent, KeepsStore, KeepsSegment, SamePlace,
      SameButIndex, StartsNoSettings, StartsOnlyItem;
    match c.actions[name]
    case OnResume => ResumeKeeps(c, s, arguments, done);
    case ChangeSettings =>
      ChangedSettingsControl(s, arguments);
      PushKeeps(c, s.control, Invoke(done));
    case Custom(_, _) => CustomRunKeeps(c, s.control, done);
  }

  lemma DropControl(s: State, id: nat)
    ensures DropStep(s, id).control == s.control
  {
  }

  lemma AddControl(s: State, a: ActionState)
    ensures AddContinuousAction(s, a).control == s.control
  {
  }

  lemma CommandKeeps(c: Setup, s: State, run: nat, command: Command, answer: Answer)
    requires HandlersCalm(c, s.control) && s.control.stack != [] && run < |s.control.runs|
    ensures HandlersOk(c, CommandStep(c, s, run, command, answer).control)
  {
    assert RunCoherent(s.control.runs, s.control.handler, s.control.runs[run]);
    hide ClosuresCoherent, StackCoherent;
    match command
    case RunMode(_, _) => CommandRunKeeps(c, s, run, command, answer);
    case RunAction(_, _) => CommandRunKeeps(c, s, run, command, answer);
    case RunTrajectory(_, _) => CommandRunKeeps(c, s, run, command, answer);
    case _ => CommandOtherKeeps(c, s, run, command, answer);
  }

  lemma CommandRunKeeps(c: Setup, s: State, run: nat, command: Command, answer: Answer)
    requires HandlersCalm(c, s.control) && s.control.stack != [] && run < |s.control.runs|
    requires RunCoherent(s.control.runs, s.control.handler, s.control.runs[run])
    requires command.RunMode? || command.RunAction? || command.RunTrajectory?
    ensures HandlersOk(c, CommandStep(c, s, run, command, answer).control)
  {
    hide ClosuresCoherent, StackCoherent, RunModeStep, RunActionStep, HandlerTrajectory, DropStep, AddContinuousAction,
      KeepsStore, KeepsSegment, SamePlace, SameButIndex, StartsNoSettings, StartsOnlyItem;
    var h := s.control.runs[run].handler;
    match command
    case RunMode(mode, handlesFailure) =>
      RunModeKeeps(c, s, mode, UserCode(h, run), if handlesFailure then Some(UserCode(h, run)) else None, answer);
    case RunAction(name, arguments) =>
      if s.control.IsValid(h) {
        RunActionKeeps(c, s, name, arguments, UserCode(h, run));
      }
    case RunTrajectory(items, stop) => HandlerTrajectoryKeeps(c, s, h, items, UserCode(h, run), stop, answer);
  }

  lemma CommandOtherKeeps(c: Setup, s: State, run: nat, command: Command, answer: Answer)
    requires HandlersCalm(c, s.control) && s.control.stack != [] && run < |s.control.runs|
    requires RunCoherent(s.control.runs, s.control.handler, s.control.runs[run])
    requires !(command.RunMode? || command.RunAction? || command.RunTrajectory?)
    ensures HandlersOk(c, CommandStep(c, s, run, command, answer).control)
  {
    hide ClosuresCoherent, StackCoherent, HandlerMode, RunActionStep, HandlerTrajectory, DropStep, AddContinuousAction,
      FliesMission, SetCurrentIndex, KeepsStore, KeepsSegment, SamePlace, SameButIndex, StartsNoSettings,
      StartsOnlyItem;
    match command
    case StoreState(name, arguments) => AddControl(s, ActionState(name, arguments));
    case DropState(id) => DropControl(s, id);
    case Complete =>
      KnownRuns(c, s.control);
      CountersKeep(c, s.control, 0, 0, s.control.completedRuns + {run});
      PushKeeps(c, s.control.(completedRuns := s.control.completedRuns + {run}), Invoke(s.control.runs[run].done));
    case Return => PopKeeps(c, s.control);
    case _ =>
  }

  lemma OnActivateKeeps(c: Setup, s: State)
    requires HandlersCalm(c, s.control)
    ensures HandlersCalm(c, OnActivate(c, s).control)
  {
    hide ClosuresCoherent, StackCoherent, StartAbort;
    var t := s.(active := true, options := s.mission.defaults, itemState := Other, activeMode := c.ownMode);
    StartAbortKeeps(c, t, "noValidMission");
    var f := Activated(t.control.handler, t.persistent.currentIndex.None?);
    PushKeeps(c, t.control, f);
    PushKeeps(c, t.control.Push(f), ActivatedHook);
  }

  /** An activation that does not run the resume action starts the first item. */
  lemma ActivatedControl(c: Setup, s: State, h: nat, fromBeginning: bool)
    requires s.control.IsValid(h)
    requires "onResume" !in c.actions || fromBeginning
    ensures ActivatedStep(c, s, h, fromBeginning).control
         == s.control.Push(StartItem(!fromBeginning, h))
              .Push(Restore(OrderedMaps.Values(s.persistent.continuousActions), s.control.handler))
  {
    hide OrderedMaps.Values, StartResume, TakeResumeEntry;
  }

  lemma StartResumeKeeps(c: Setup, s: State, arguments: Json)
    requires HandlersCalm(c, s.control)
    ensures HandlersOk(c, StartResume(c, s, arguments).control)
  {
    hide ClosuresCoherent, StackCoherent, RunActionStep, Json.Put;
    var given := arguments.Put("action", Str("resume"));
    if given.Success? {
      RunActionKeeps(c, s, "onResume", given.value, ResumeDone(s.control.handler, s.persistent.currentIndex));
    }
  }

  lemma ActivatedKeeps(c: Setup, s: State, h: nat, fromBeginning: bool)
    requires HandlersCalm(c, s.control)
    ensures HandlersOk(c, ActivatedStep(c, s, h, fromBeginning).control)
  {
    hide ClosuresCoherent, StackCoherent, RunStoredActions, StartResume, TakeResumeEntry, OrderedMaps.Values,
      KeepsStore, KeepsSegment, SamePlace, StartsNoSettings;
    if !s.control.IsValid(h) {
    } else if "onResume" !in c.actions || fromBeginning {
      hide ActivatedStep;
      ActivatedControl(c, s, h, fromBeginning);
      PushKeeps(c, s.control, StartItem(!fromBeginning, h));
      PushKeeps(c, s.control.Push(StartItem(!fromBeginning, h)),
                Restore(OrderedMaps.Values(s.persistent.continuousActions), s.control.handler));
    } else {
      StartResumeKeeps(c, TakeResumeEntry(s), ResumeArguments(s));
    }
  }

  lemma LeaveKeeps(c: Setup, s: State)
    requires HandlersCalm(c, s.control)
    ensures HandlersCalm(c, Leave(s).control)
  {
    hide ClosuresCoherent, StackCoherent, InvalidateHandler, HandlersOk;
    ScheduleKeeps(c, s.control, None);
    InvalidateKeeps(c, SetScheduled(s.(active := false), None));
  }

  lemma OnDeactivateControl(c: Setup, s: State)
    ensures var k := Leave(s).control;
      OnDeactivate(c, s).control
      == if MissionDone(Leave(s)) then k.Push(Cleanup)
         else if "onResume" in c.actions then k.Push(Cleanup).Push(SaveState).Push(StoreResume)
         else k.Push(Cleanup).Push(SaveState)
  {
    hide Leave, MissionDone;
  }

  lemma OnDeactivateKeeps(c: Setup, s: State)
    requires HandlersCalm(c, s.control)
    ensures HandlersOk(c, OnDeactivate(c, s).control)
  {
    hide ClosuresCoherent, StackCoherent, Leave, MissionDone, OnDeactivate;
    LeaveKeeps(c, s);
    OnDeactivateControl(c, s);
    var k := Leave(s).control;
    PushKeeps(c, k, Cleanup);
    PushKeeps(c, k.Push(Cleanup), SaveState);
    if "onResume" in c.actions {
      PushKeeps(c, k.Push(Cleanup).Push(SaveState), StoreResume);
    }
  }

  lemma ReachIndexKeeps(c: Setup, s: State, index: int)
    requires HandlersCalm(c, s.control) && s.control.flight.target == Some(index)
    ensures HandlersCalm(c, ReachIndex(s, index).control)
  {
    ReachIndexControl(s, index);
    var f := s.control.flight;
    var l := s.control.(flight := f.(target := if index + 1 > f.end then None else Some(index + 1)));
    FlightKeeps(c, s.control, l.flight);
    ReportHeld(c, s.control);
    hide HandlersCalm, ReachIndex, FrameCoherent;
    match f.report
    case NoReport =>
    case SegmentStep(h, end) => PushKeeps(c, l, StartItem(false, h));
    case CustomStep(done, end) => PushKeeps(c, l, Invoke(done));
  }

  lemma ReportHeld(c: Setup, k: Control)
    requires HandlersCalm(c, k)
    ensures match k.flight.report
      case NoReport => true
      case SegmentStep(h, _) => FrameCoherent(c, k.runs, k.handler, StartItem(false, h))
      case CustomStep(done, _) => FrameCoherent(c, k.runs, k.handler, Invoke(done))
  {
    hide StackCoherent, Coherent;
  }

  lemma FinishKeeps(c: Setup, s: State, outcome: Outcome)
    requires HandlersCalm(c, s.control)
    ensures HandlersCalm(c, FinishMode(s, outcome).control)
  {
    hide StackCoherent, ModeFailed, FlightCoherent, KeepsStore, KeepsSegment, SamePlace, SameButIndex, StartsNoSettings,
      StartsOnlyItem;
    if s.control.scheduled.Some? {
      var callback, t := s.control.scheduled.value, SetScheduled(s, None);
      ScheduleKeeps(c, s.control, None);
      PushKeeps(c, t.control, Invoke(callback.done));
      ModeFailedKeeps(c, t, callback.onFailure);
    }
  }

  lemma FireKeeps(c: Setup, s: State)
    requires HandlersCalm(c, s.control)
    ensures HandlersCalm(c, FireTimer(s).control)
  {
    hide StackCoherent, FlightCoherent, KeepsStore, KeepsSegment, SamePlace, SameButIndex, StartsNoSettings,
      StartsOnlyItem;
    if s.control.holdTimer.Some? {
      TimerKeeps(c, s.control, None);
      PushKeeps(c, s.control.(holdTimer := None), Invoke(s.control.holdTimer.value));
    }
  }

  lemma UpdateSetpointKeeps(c: Setup, s: State, positionValid: bool, reached: bool)
    requires HandlersCalm(c, s.control)
    ensures HandlersCalm(c, UpdateSetpointStep(c, s, positionValid, reached).control)
  {
    hide ClosuresCoherent, StackCoherent, ReachIndex, StartAbort, HandlersOk;
    if s.control.flight.target.Some? {
      ReachIndexKeeps(c, s, s.control.flight.target.value);
    }
    StartAbortKeeps(c, s, "trajectoryFailure");
  }

  lemma SetMissionControl(c: Setup, s: State, mission: Mission)
    ensures SetMissionStep(c, s, mission).control == s.control
  {
    hide LoadedState, Feasible, Checksum;
  }

  lemma ExternalKeeps(c: Setup, s: State, event: Event, answer: Answer)
    requires HandlersCalm(c, s.control)
    ensures HandlersOk(c, ExternalStep(c, s, event, answer).control)
  {
    hide ClosuresCoherent, StackCoherent, OnActivate, OnDeactivate, UpdateSetpointStep, StartAbort, FinishMode,
      FireTimer, SetMissionStep, KeepsStore, KeepsSegment, SamePlace, SameButIndex, StartsNoSettings, StartsOnlyItem;
    match event
    case SetMission(mission) => SetMissionControl(c, s, mission);
    case Activate => OnActivateKeeps(c, s);
    case Deactivate => OnDeactivateKeeps(c, s);
    case ModeFinished(outcome) => FinishKeeps(c, s, outcome);
    case UpdateSetpoint(positionValid, reached) => UpdateSetpointKeeps(c, s, positionValid, reached);
    case TimerFired => FireKeeps(c, s);
    case ClientTurn(run) =>
      if run < |s.control.runs| {
        PushKeeps(c, s.control, Client(run));
      }
    case AbortRequest => StartAbortKeeps(c, s, "other");
    case _ =>
  }

  lemma RestoreKeeps(c: Setup, s: State, rest: seq<ActionState>, h: nat)
    requires HandlersCalm(c, s.control) && h <= s.control.handler
    ensures HandlersOk(c, RestoreStep(c, s, rest, h).control)
  {
    hide ClosuresCoherent, StackCoherent;
    if rest != [] {
      var k := s.control.Push(Restore(rest[1..], h));
      PushKeeps(c, s.control, Restore(rest[1..], h));
      if rest[0].name in c.actions {
        PushKeeps(c, k, Perform(rest[0].name, rest[0].arguments, Nop));
      }
    }
  }

  lemma EnterAbortKeeps(c: Setup, s: State)
    requires HandlersCalm(c, s.control)
    ensures HandlersCalm(c, EnterAbort(s).control)
    ensures HandlersCalm(c, CountFailure(EnterAbort(s)).control)
  {
    hide ClosuresCoherent, StackCoherent, KeepsStore, SamePlace;
    var k := s.control;
    var failures := if k.abortLevel == 0 then 0 else k.failureRuns;
    var l := k.(abortLevel := k.abortLevel + 1, failureRuns := failures);
    CountersKeep(c, k, k.abortLevel + 1, failures, {});
    PushKeeps(c, l, AbortEnd);
    CountersKeep(c, l.Push(AbortEnd), 0, failures + 1, {});
  }

  lemma AbortMainKeeps(c: Setup, s: State, reason: string)
    requires HandlersCalm(c, s.control)
    ensures HandlersOk(c, AbortMainStep(c, s, reason).control)
  {
    hide ClosuresCoherent, StackCoherent, RunActionStep, EnterAbort, CountFailure, FailureArguments;
    EnterAbortKeeps(c, s);
    RunActionKeeps(c, CountFailure(EnterAbort(s)), "onFailure", FailureArguments(EnterAbort(s), reason), Nop);
  }

  lemma CallKeeps(c: Setup, s: State, f: Frame, answer: Answer)
    requires HandlersCalm(c, s.control) && FrameCoherent(c, s.control.runs, s.control.handler, f) && Calls(f)
    ensures HandlersOk(c, CallStep(c, s, f, answer).control)
  {
    hide ClosuresCoherent, StackCoherent, InvokeStep, PerformStep, ActivatedStep, RestoreStep, StartItemStep,
      AbortMainStep, Coherent, SameButIndex, SamePlace, KeepsStore, KeepsSegment, StartsNoSettings, StartsOnlyItem;
    match f
    case Invoke(closure) => InvokeKeeps(c, s, closure, answer);
    case Perform(name, arguments, done) =>
      assert HandlersOk(c, PerformStep(c, s, name, arguments, done, answer).control) by {
        hide ClosuresCoherent, StackCoherent, PerformStep, Coherent;
        var kind := c.actions[name];
        if kind.Takeoff? || kind.Rtl? || kind.Land? {
          PerformModeKeeps(c, s, name, arguments, done, answer);
        } else if kind.Hold? || kind.OnFailure? {
          PerformHoldKeeps(c, s, name, arguments, done, answer);
        } else {
          PerformOtherKeeps(c, s, name, arguments, done, answer);
        }
      }
    case Activated(h, fromBeginning) => ActivatedKeeps(c, s, h, fromBeginning);
    case Restore(rest, h) => RestoreKeeps(c, s, rest, h);
    case StartItem(resuming, _) => StartItemKeeps(c, s, resuming, answer);
    case AbortMain(reason) => AbortMainKeeps(c, s, reason);
  }

  /** The frames that call nothing. */
  lemma ReturnControl(c: Setup, s: State, f: Frame)
    requires !Calls(f) && !InClient(f)
    ensures var k := s.control;
      ReturnStep(c, s, f).control
      == match f
         case ArmTimer(done) => k.(holdTimer := Some(done))
         case AbortEnd => k.(abortLevel := if k.abortLevel == 0 then 0 else k.abortLevel - 1)
         case Cleanup => k.(holdTimer := None).Push(CleanupHooks)
         case _ => k
  {
    DropKeeperControl(s);
    hide SaveStep, DropSettingsKeeper;
  }

  lemma ReturnKeeps(c: Setup, s: State, f: Frame)
    requires HandlersCalm(c, s.control) && FrameCoherent(c, s.control.runs, s.control.handler, f) && !Calls(f) &&
      !InClient(f)
    ensures HandlersCalm(c, ReturnStep(c, s, f).control)
  {
    hide ClosuresCoherent, StackCoherent, Coherent, ReturnStep, OneValidHandler;
    ReturnControl(c, s, f);
    var k := s.control;
    match f
    case ArmTimer(done) => TimerKeeps(c, k, Some(done));
    case AbortEnd => CountersKeep(c, k, if k.abortLevel == 0 then 0 else k.abortLevel - 1, 0, {});
    case Cleanup =>
      TimerKeeps(c, k, None);
      PushKeeps(c, k.(holdTimer := None), CleanupHooks);
    case _ =>
  }

  lemma ContinueKeeps(c: Setup, s: State, answer: Answer)
    requires HandlersOk(c, s.control) && s.control.stack != []
    ensures HandlersOk(c, Continue(c, s, answer).control)
  {
    hide KeepsStore, KeepsSegment, SamePlace, SameButIndex, StartsNoSettings, StartsOnlyItem;
    PopKeeps(c, s.control);
    var f := s.control.Top();
    assert FrameCoherent(c, s.control.runs, s.control.handler, f);
    hide FrameCoherent, ClosuresCoherent, StackCoherent, CallStep, ReturnStep;
    if Calls(f) {
      CallKeeps(c, Popped(s), f, answer);
    } else if !InClient(f) {
      ReturnKeeps(c, Popped(s), f);
    }
  }

  lemma StepKeepsHandlers(c: Setup, s: State, l: Label)
    requires HandlersOk(c, s.control)
    ensures HandlersOk(c, Step(c, s, l).control)
  {
    hide ClosuresCoherent, StackCoherent, ExternalStep, Continue, CommandStep, StartAbort, DropStep, KeepsStore,
      KeepsSegment, SamePlace, SameButIndex, StartsNoSettings, StartsOnlyItem;
    if s.control.stack == [] {
      if l.External? {
        ExternalKeeps(c, s, l.event, l.answer);
      }
    } else {
      match s.control.Top()
      case Client(run) =>
        if l.User? {
          if run < |s.control.runs| {
            CommandKeeps(c, s, run, l.command, l.answer);
          } else {
            NoSuchRun(c, s, run, l.command, l.answer);
          }
        }
      case ActivatedHook =>
        PopKeeps(c, s.control);
        StartAbortKeeps(c, s, "other");
      case CleanupHooks =>
        PopKeeps(c, s.control);
        if l.User? && l.command.DropState? {
          DropControl(s, l.command.id);
        }
      case _ =>
        if l.Internal? {
          ContinueKeeps(c, s, l.answer);
        }
    }
  }

  /** Over every run exactly one handler, the current one, is valid, and every callback is coherent. */
  lemma {:induction false} ExactlyOneValidHandler(c: Setup, file: Option<Json>, ls: seq<Label>)
    ensures HandlersOk(c, Steps(c, Initial(file), ls).control)
  {
    if ls != [] {
      ExactlyOneValidHandler(c, file, ls[..|ls| - 1]);
      StepKeepsHandlers(c, Steps(c, Initial(file), ls[..|ls| - 1]), ls[|ls| - 1]);
    }
  }
}
