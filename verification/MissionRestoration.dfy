/** The restoration of the stored actions: the handler is checked before it, and an item starts after it whatever
    happened meanwhile. When the item starts under another handler, and when that can happen at all. */
module MissionRestoration {
  import opened Wrappers
  import opened JsonValues
  import opened Missions
  import opened PersistentStates
  import OrderedMaps
  import opened MissionTypes
  import opened MissionSteps
  import opened Segments
  import opened MissionHandlers
  import opened MissionTokens
  import opened MissionIndex
  import opened MissionAbort
  import opened MissionPersistence
  import opened MissionStale
  import opened MissionCompletion
  import MissionProgress

  // ---- Aborts ----

  /** The state is what an abort leaves of a state with the same handler. */
  ghost predicate AbortedFrom(s: State, t: State) {
    exists u: State, reason: string ::
      u.control.handler == s.control.handler && t == StartAbort(u, reason)
  }

  ghost predicate Aborts(c: Setup, s: State, l: Label) {
    AbortedFrom(s, Step(c, s, l))
  }

  ghost predicate Turns(s: State, t: State) {
    t.control.handler == s.control.handler || AbortedFrom(s, t)
  }

  lemma AbortTurns(s: State, u: State, reason: string)
    requires u.control.handler == s.control.handler
    ensures Turns(s, StartAbort(u, reason)) && StartAbort(u, reason).control.handler != s.control.handler
  {
    hide StartAbort;
    assert AbortedFrom(s, StartAbort(u, reason));
  }

  lemma ModeFailedTurns(s: State, onFailure: Option<Closure>)
    ensures Turns(s, ModeFailed(s, onFailure))
  {
    hide StartAbort, KeepsStore, KeepsSegment, StartsNoSettings, SamePlace, AbortedFrom;
    if onFailure.None? {
      AbortTurns(s, s.(activeMode := 0), "modeFailure");
    }
  }

  lemma TurnsFrom(s: State, u: State, t: State)
    requires u.control.handler == s.control.handler && Turns(u, t)
    ensures Turns(s, t)
  {
    hide StartAbort;
  }

  lemma RunModeTurns(s: State, mode: nat, done: Closure, onFailure: Option<Closure>, answer: Answer)
    ensures Turns(s, RunModeStep(s, mode, done, onFailure, answer))
  {
    hide ModeFailed, KeepsStore, KeepsSegment, StartsNoSettings, SamePlace, AbortedFrom;
    var t := s.(itemState := Other, activeMode := mode);
    var cancelled := if answer.NotArmed? then t else SetScheduled(t, None);
    ModeFailedTurns(cancelled, onFailure);
    TurnsFrom(s, cancelled, ModeFailed(cancelled, onFailure));
  }

  lemma RunActionTurns(c: Setup, s: State, name: string, arguments: Json, done: Closure)
    ensures Turns(s, RunActionStep(c, s, name, arguments, done))
  {
    hide StartAbort, KeepsStore, KeepsSegment, StartsNoSettings, SamePlace, AbortedFrom;
    AbortTurns(s, s.(itemState := Other), "actionDoesNotExist");
  }

  lemma RunTrajectoryTurns(c: Setup, s: State, items: seq<MissionItem>, start: int, end: int, report: IndexCallback,
                           stop: bool, answer: Answer)
    ensures Turns(s, RunTrajectoryStep(c, s, items, start, end, report, stop, answer))
  {
    hide RunModeStep, KeepsStore, KeepsSegment, StartsNoSettings, SamePlace, AbortedFrom;
    var t := SetFlight(s, Flight(items, s.options, end, stop, report, Some(start))).Push(EnterTrajectory);
    RunModeTurns(t, c.ownMode, Nop, None, answer);
    TurnsFrom(s, t, RunModeStep(t, c.ownMode, Nop, None, answer));
  }

  lemma HandlerTrajectoryTurns(c: Setup, s: State, h: nat, items: seq<MissionItem>, done: Closure, stop: bool,
      answer: Answer)
    ensures Turns(s, HandlerTrajectory(c, s, h, items, done, stop, answer))
  {
    hide StartAbort, RunTrajectoryStep, KeepsStore, KeepsSegment, StartsNoSettings, SamePlace, AbortedFrom;
    AbortTurns(s, s, "trajectoryFailure");
    RunTrajectoryTurns(c, s, items, 0, |items| - 1, CustomStep(done, |items| - 1), stop, answer);
  }

  lemma NavigateTurns(c: Setup, s: State, h: nat, done: Closure, at: int, answer: Answer)
    ensures Turns(s, NavigateToPreviousWaypoint(c, s, h, done, at, answer))
  {
    hide HandlerTrajectory, KeepsStore, KeepsSegment, StartsNoSettings, SamePlace, AbortedFrom;
    var found := WaypointBefore(s.mission.items, if at < |s.mission.items| then at else |s.mission.items|);
    if found.Some? {
      HandlerTrajectoryTurns(c, s, h, [NavigationItem("", s.mission.items[found.value].waypoint)], done, false, answer);
    }
  }

  lemma InvokeTurns(c: Setup, s: State, closure: Closure, answer: Answer)
    ensures Turns(s, InvokeStep(c, s, closure, answer))
  {
    hide NavigateToPreviousWaypoint, RunModeStep, KeepsStore, KeepsSegment, StartsNoSettings, SamePlace, AbortedFrom;
    match closure
    case TryDescend(_, done) => RunModeTurns(s, DESCEND, done, Some(Nop), answer);
    case AfterTakeoff(h, done, at) => NavigateTurns(c, s, h, done, at, answer);
    case _ =>
  }

  lemma ResumeTurns(c: Setup, s: State, arguments: Json, done: Closure)
    ensures Turns(s, ResumeStep(c, s, arguments, done))
  {
    hide ResumeFromUnexpectedLanding, CurrentSupportsResumeFromLanded, KeepsStore, KeepsSegment, StartsNoSettings,
      SameButIndex, AbortedFrom;
    var index := s.persistent.currentIndex.GetOr(0);
    if s.mission.IndexValid(index) {
      LandingTurns(c, s, done, index);
    }
  }

  lemma LandingTurns(c: Setup, s: State, done: Closure, index: int)
    requires s.mission.IndexValid(index)
    ensures Turns(s, ResumeFromUnexpectedLanding(c, s, done, index))
  {
    hide RunActionStep, ReturnsHome, TakeoffBefore, SkipItem, KeepsStore, KeepsSegment, StartsNoSettings, SameButIndex,
      SamePlace, Turns, AbortedFrom;
    var found := TakeoffBefore(s.mission.items, index);
    if ReturnsHome(s.mission.items[index]) {
      KeptTurns(s, SkipItem(s, index).Push(Invoke(done)));
    } else if found.Some? {
      RunActionTurns(c, s, "takeoff", s.mission.items[found.value].arguments,
        AfterTakeoff(s.control.handler, done, index));
    } else {
      KeptTurns(s, s.Push(Invoke(done)));
    }
  }

  lemma KeptTurns(s: State, t: State)
    requires t.control.handler == s.control.handler
    ensures Turns(s, t)
  {
  }

  lemma ModeActionTurns(c: Setup, s: State, name: string, arguments: Json, done: Closure, answer: Answer)
    requires name in c.actions
    requires c.actions[name].Takeoff? || c.actions[name].Rtl? || c.actions[name].Land? || c.actions[name].OnFailure?
    ensures Turns(s, PerformStep(c, s, name, arguments, done, answer))
  {
    hide RunModeStep, KeepsStore, KeepsSegment, StartsNoSettings, SamePlace, SameButIndex, AbortedFrom, ChangedSettings,
      ResumeFromUnexpectedLanding;
    RunModeTurns(s, TAKEOFF, done, None, answer);
    RunModeTurns(s, RTL, done, None, answer);
    RunModeTurns(s, LAND, done, None, answer);
    RunModeTurns(s, RTL, done, Some(TryDescend(s.control.handler, done)), answer);
  }

  lemma OtherActionTurns(c: Setup, s: State, name: string, arguments: Json, done: Closure, answer: Answer)
    requires name in c.actions
    requires c.actions[name].Hold? || c.actions[name].ChangeSettings? || c.actions[name].Custom?
    ensures Turns(s, PerformStep(c, s, name, arguments, done, answer))
  {
    hide RunModeStep, ChangedSettings, KeepsStore, KeepsSegment, StartsNoSettings, SamePlace, SameButIndex, AbortedFrom;
    ChangedSettingsControl(s, arguments);
    RunModeTurns(s.Push(ArmTimer(done)), LOITER, Nop, None, answer);
    TurnsFrom(s, s.Push(ArmTimer(done)), RunModeStep(s.Push(ArmTimer(done)), LOITER, Nop, None, answer));
  }

  lemma ResumeActionTurns(c: Setup, s: State, name: string, arguments: Json, done: Closure, answer: Answer)
    requires name in c.actions && c.actions[name].OnResume?
    ensures Turns(s, PerformStep(c, s, name, arguments, done, answer))
  {
    hide ResumeStep, Turns, ChangeSettingsStep, HoldStep, KeepsSegment, KeepsStore, RunCustomStep, RunModeStep,
      SameButIndex, SamePlace, StartsNoSettings, TakeoffStep;
    ResumeTurns(c, s, arguments, done);
  }

  lemma ActivatedTurns(c: Setup, s: State, h: nat, fromBeginning: bool)
    ensures Turns(s, ActivatedStep(c, s, h, fromBeginning))
  {
    hide RunActionStep, RunStoredActions, TakeResumeEntry, ResumeArguments, KeepsStore, KeepsSegment, StartsNoSettings,
      SamePlace, AbortedFrom;
    var u := TakeResumeEntry(s);
    var put := ResumeArguments(s).Put("action", Str("resume"));
    if put.Success? {
      RunActionTurns(c, u, "onResume", put.value, ResumeDone(u.control.handler, u.persistent.currentIndex));
      TurnsFrom(s, u, RunActionStep(c, u, "onResume", put.value,
        ResumeDone(u.control.handler, u.persistent.currentIndex)));
    }
  }

  lemma StartTurns(c: Setup, s: State, resuming: bool, answer: Answer)
    ensures Turns(s, StartItemStep(c, s, resuming, answer))
  {
    hide RunActionStep, RunModeStep, RunTrajectoryStep, SegmentEnd, SegmentStop, KeepsStore, KeepsSegment,
      StartsNoSettings, SamePlace, AbortedFrom;
    RunModeTurns(s, LOITER, Nop, None, answer);
    if AtItem(s) {
      var index := s.persistent.currentIndex.value;
      match s.mission.items[index]
      case NavigationItem(_, _) => SegmentTurns(c, s, index, answer);
      case ActionItem(_, name, arguments) =>
        var given := if resuming then arguments.Put("internal:resuming", Bool(true)) else Success(arguments);
        if given.Success? {
          RunActionTurns(c, s, name, given.value, ItemDone(s.control.handler));
        }
    }
  }

  lemma SegmentTurns(c: Setup, s: State, index: nat, answer: Answer)
    requires index < |s.mission.items|
    ensures var end := SegmentEnd(s.mission.items, index);
      var u := s.(segments := if s.active then s.segments + [(index as int, end as int)] else s.segments);
      Turns(s, RunTrajectoryStep(c, u, s.mission.items, index, end, SegmentStep(s.control.handler, end),
                                 SegmentStop(c, s.mission.items, end), answer))
  {
    hide RunTrajectoryStep, SegmentEnd, SegmentStop, AbortedFrom, KeepsStore, KeepsSegment, SamePlace, SameButIndex,
      StartsNoSettings, StartsOnlyItem;
    var end := SegmentEnd(s.mission.items, index);
    var u := s.(segments := if s.active then s.segments + [(index as int, end as int)] else s.segments);
    RunTrajectoryTurns(c, u, s.mission.items, index, end, SegmentStep(s.control.handler, end),
      SegmentStop(c, s.mission.items, end), answer);
    TurnsFrom(s, u, RunTrajectoryStep(c, u, s.mission.items, index, end, SegmentStep(s.control.handler, end),
                                      SegmentStop(c, s.mission.items, end), answer));
  }

  lemma AbortMainTurns(c: Setup, s: State, reason: string)
    ensures Turns(s, AbortMainStep(c, s, reason))
  {
    hide AbortMainStep, FailureArguments, AbortedFrom;
    AbortMainControl(c, s, reason);
  }

  lemma RestoreTurns(c: Setup, s: State, rest: seq<ActionState>, h: nat)
    ensures Turns(s, RestoreStep(c, s, rest, h))
  {
    hide AbortedFrom, KeepsStore, KeepsSegment, SamePlace;
  }

  lemma CallTurns(c: Setup, s: State, f: Frame, answer: Answer)
    requires Calls(f)
    ensures Turns(s, CallStep(c, s, f, answer))
  {
    hide InvokeStep, PerformStep, ActivatedStep, RestoreStep, StartItemStep, AbortMainStep, AbortedFrom, SameButIndex,
      KeepsStore, KeepsSegment, SamePlace, StartsNoSettings, StartsOnlyItem;
    match f
    case Invoke(closure) => InvokeTurns(c, s, closure, answer);
    case Perform(name, arguments, done) =>
      if name in c.actions {
        assert Turns(s, PerformStep(c, s, name, arguments, done, answer)) by {
          hide PerformStep, Turns;
          match c.actions[name]
          case OnResume => ResumeActionTurns(c, s, name, arguments, done, answer);
          case Hold => OtherActionTurns(c, s, name, arguments, done, answer);
          case ChangeSettings => OtherActionTurns(c, s, name, arguments, done, answer);
          case Custom(_, _) => OtherActionTurns(c, s, name, arguments, done, answer);
          case _ => ModeActionTurns(c, s, name, arguments, done, answer);
        }
      } else {
        NoSuchAction(c, s, name, arguments, done, answer);
      }
    case Activated(h, fromBeginning) => ActivatedTurns(c, s, h, fromBeginning);
    case Restore(rest, h) => RestoreTurns(c, s, rest, h);
    case StartItem(resuming, _) => StartTurns(c, s, resuming, answer);
    case AbortMain(reason) => AbortMainTurns(c, s, reason);
  }

  lemma CommandTurns(c: Setup, s: State, run: nat, command: Command, answer: Answer)
    ensures Turns(s, CommandStep(c, s, run, command, answer))
  {
    hide RunModeStep, RunActionStep, HandlerTrajectory, DropStep, StoreStateStep, CompleteStep,
      TrajectoryOptions.CombinedWith, AbortedFrom, SamePlace, SameButIndex, KeepsSegment, KeepsStore, StartsNoSettings;
    if run >= |s.control.runs| {
      return;
    }
    var h := s.control.runs[run].handler;
    match command
    case RunMode(mode, handles) =>
      RunModeTurns(s, mode, UserCode(h, run), if handles then Some(UserCode(h, run)) else None, answer);
    case RunAction(name, arguments) => RunActionTurns(c, s, name, arguments, UserCode(h, run));
    case RunTrajectory(items, stop) => HandlerTrajectoryTurns(c, s, h, items, UserCode(h, run), stop, answer);
    case Complete => CompleteStays(s, run);
    case _ =>
  }

  lemma CompleteStays(s: State, run: nat)
    requires run < |s.control.runs|
    ensures CompleteStep(s, run).control.handler == s.control.handler
  {
    hide SamePlace, KeepsSegment;
  }

  /** While anything runs, the handler changes by aborts alone. */
  lemma StepTurns(c: Setup, s: State, l: Label)
    requires s.control.stack != []
    ensures Turns(s, Step(c, s, l))
  {
    hide CallStep, ReturnStep, CommandStep, ExternalStep, StartAbort, DropStep, AbortedFrom, KeepsStore, KeepsSegment,
      SamePlace, SameButIndex, StartsNoSettings, StartsOnlyItem;
    var u, f := Popped(s), s.control.Top();
    AbortTurns(s, s, "other");
    match l
    case User(command, answer) =>
      if f.Client? {
        CommandTurns(c, s, f.run, command, answer);
      }
    case Internal(answer) =>
      if Calls(f) {
        CallTurns(c, u, f, answer);
        TurnsFrom(s, u, CallStep(c, u, f, answer));
      } else if !InClient(f) {
        assert ReturnStep(c, u, f).control.handler == u.control.handler by {
          hide ReturnStep;
          ReturnControl(c, u, f);
        }
      }
    case _ =>
  }

  lemma AbortsIff(c: Setup, s: State, l: Label)
    requires s.control.stack != []
    ensures Aborts(c, s, l) <==> Step(c, s, l).control.handler != s.control.handler
  {
    hide Step;
    StepTurns(c, s, l);
    if Aborts(c, s, l) {
      var u: State, reason: string :|
        u.control.handler == s.control.handler && Step(c, s, l) == StartAbort(u, reason);
      AbortTurns(s, u, reason);
    }
  }

  // ---- The restoration ----

  /** The restoration is about to run the stored entries `rest`: the start of the item waits right below, with the
      handler that was checked. */
  predicate RestoringAt(s: State, depth: int, rest: seq<ActionState>) {
    && 0 <= depth && |s.control.stack| == depth + 2
    && s.control.stack[depth].StartItem? && s.control.stack[depth].handler == s.control.handler
    && s.control.stack[depth + 1].Restore? && s.control.stack[depth + 1].rest == rest
  }

  /** The steps that begin one: the end of the activation, and the end of the resume action at the same index. */
  predicate BeginsRestoration(c: Setup, s: State, l: Label) {
    && !s.crashed && l.Internal?
    && match s.control.Top()
       case Activated(h, fromBeginning) => s.control.IsValid(h) && ("onResume" !in c.actions || fromBeginning)
       case Invoke(ResumeDone(h, previous)) => s.control.IsValid(h) && previous == s.persistent.currentIndex
       case _ => false
  }

  lemma RestorationStepOf(c: Setup, s: State, l: Label)
    requires HandlersOk(c, s.control) && BeginsRestoration(c, s, l)
    ensures exists resuming: bool ::
      Step(c, s, l) == RunStoredActions(Popped(s).Push(StartItem(resuming, s.control.handler)))
  {
    hide Step, ClosuresCoherent, StackCoherent, RunStoredActions, StartResume, TakeResumeEntry, KeepsStore,
      KeepsSegment, SamePlace, SameButIndex, StartsNoSettings, StartsOnlyItem;
    match s.control.Top()
    case Activated(h, fromBeginning) => ActivatedFrame(c, s, h, fromBeginning, l.answer);
    case Invoke(closure) => InvokeFrame(c, s, closure, l.answer);
  }

  /** The stored actions are taken out, and the loop over them begins. */
  lemma RestorationBegins(c: Setup, s: State, l: Label)
    requires HandlersOk(c, s.control) && BeginsRestoration(c, s, l)
    ensures RestoringAt(Step(c, s, l), |s.control.stack| - 1, OrderedMaps.Values(s.persistent.continuousActions))
    ensures StoreOf(Step(c, s, l)) == StoreOf(s).(actions := map[])
    ensures Step(c, s, l).active == s.active && Step(c, s, l).control.handler == s.control.handler
    ensures !Step(c, s, l).crashed
  {
    hide HandlersOk, Step, OrderedMaps.Values, KeepsStore, KeepsSegment, StartsNoSettings, SamePlace;
    RestorationStepOf(c, s, l);
  }

  /** The item that is due can be started. */
  predicate Startable(c: Setup, s: State) {
    && AtItem(s) && s.active && !s.crashed
    && match s.mission.items[s.persistent.currentIndex.value]
       case NavigationItem(_, _) => true
       case ActionItem(_, name, arguments) => name in c.actions && (arguments.Null? || arguments.Obj?)
  }

  /** The next step starts it, with the handler as the one that its completion is checked against. */
  ghost predicate StartsUnder(c: Setup, s: State, h: nat, answer: Answer) {
    StartedUnder(s, Step(c, s, Internal(answer)).control, h)
  }

  predicate StartedUnder(s: State, k: Control, h: nat) {
    match s.persistent.currentIndex
    case None => false
    case Some(index) =>
      s.mission.IndexValid(index) &&
      match s.mission.items[index]
      case NavigationItem(_, _) =>
        k.flight.report == SegmentStep(h, SegmentEnd(s.mission.items, index)) && k.flight.target == Some(index)
      case ActionItem(_, name, _) => k.Top().Perform? && k.Top().name == name && k.Top().done == ItemDone(h)
  }

  lemma SegmentTakesOff(c: Setup, s: State, resuming: bool, index: nat, answer: Answer)
    requires s.active
    requires s.persistent.currentIndex == Some(index) && index < |s.mission.items| &&
      s.mission.items[index].NavigationItem?
    ensures var f := StartItemStep(c, s, resuming, answer).control.flight;
      f.report == SegmentStep(s.control.handler, SegmentEnd(s.mission.items, index)) && f.target == Some(index)
  {
    hide SegmentEnd, SegmentStop, RunModeStep, KeepsStore, KeepsSegment, StartsNoSettings, SamePlace;
    var end := SegmentEnd(s.mission.items, index);
    var u := SetFlight(s.(segments := s.segments + [(index as int, end as int)]),
                       Flight(s.mission.items, s.options, end, SegmentStop(c, s.mission.items, end),
                              SegmentStep(s.control.handler, end), Some(index)));
    ModeKeepsFlight(u.Push(EnterTrajectory), c.ownMode, answer);
  }

  /** An item starts under the handler that is current, whichever was checked. */
  lemma ItemStartsUnderCurrent(c: Setup, s: State, h: nat, answer: Answer)
    requires s.control.Top().StartItem? && Startable(c, s)
    ensures StartsUnder(c, s, h, answer) <==> h == s.control.handler
  {
    hide Step, StartItemStep, SegmentEnd, SegmentStop;
    var u, resuming := Popped(s), s.control.Top().resuming;
    StartFrame(c, s, resuming, s.control.Top().handler, answer);
    var index := s.persistent.currentIndex.value;
    if s.mission.items[index].NavigationItem? {
      SegmentTakesOff(c, u, resuming, index, answer);
    } else {
      ActionItemPerforms(c, u, resuming, answer);
    }
  }

  lemma ActionItemPerforms(c: Setup, s: State, resuming: bool, answer: Answer)
    requires s.active && AtItem(s)
    requires var item := s.mission.items[s.persistent.currentIndex.value];
      item.ActionItem? && item.name in c.actions && (item.arguments.Null? || item.arguments.Obj?)
    ensures var t, item := StartItemStep(c, s, resuming, answer), s.mission.items[s.persistent.currentIndex.value];
      t.control.stack != [] && t.control.Top().Perform? && t.control.Top().name == item.name
      && t.control.Top().done == ItemDone(s.control.handler)
  {
    hide RunModeStep, RunTrajectoryStep, SegmentEnd, SegmentStop, KeepsStore, KeepsSegment;
  }

  // ---- Over the run ----

  /** No step of the run aborts. */
  ghost predicate NoAbort(c: Setup, s: State, ls: seq<Label>) {
    forall i: nat :: i < |ls| ==> !Aborts(c, Steps(c, s, ls[..i]), ls[i])
  }

  lemma NoAbortLast(c: Setup, s: State, before: seq<Label>, l: Label)
    ensures NoAbort(c, s, before + [l]) <==> NoAbort(c, s, before) && !Aborts(c, Steps(c, s, before), l)
  {
    hide Aborts, Steps;
    var ls := before + [l];
    assert ls[..|before|] == before && ls[|before|] == l;
    assert forall i: nat :: i < |before| ==> before[..i] == ls[..i] && before[i] == ls[i];
    if NoAbort(c, s, ls) {
      assert !Aborts(c, Steps(c, s, ls[..|before|]), ls[|before|]);
    }
  }

  /** What a run above a depth keeps: what is below stays, and the handler stays exactly as long as nothing aborts. */
  ghost predicate StaysBelow(s: State, t: State, depth: int) {
    && t.active == s.active && t.control.handler >= s.control.handler
    && 0 <= depth <= |s.control.stack| && depth <= |t.control.stack|
    && t.control.stack[..depth] == s.control.stack[..depth]
  }

  lemma {:induction false} RunAbove(c: Setup, s: State, ls: seq<Label>, depth: int)
    requires HandlersOk(c, s.control) && 0 <= depth <= |s.control.stack| && RunsAbove(c, s, ls, depth)
    ensures HandlersOk(c, Steps(c, s, ls).control) && StaysBelow(s, Steps(c, s, ls), depth)
    ensures Steps(c, s, ls).control.handler == s.control.handler <==> NoAbort(c, s, ls)
  {
    hide Step, HandlersOk, NoAbort, Aborts;
    if ls == [] {
      NoAbortEmpty(c, s);
    } else {
      var t, l := Steps(c, s, ls[..|ls| - 1]), ls[|ls| - 1];
      RunAbove(c, s, ls[..|ls| - 1], depth);
      StepKeepsHandlers(c, t, l);
      StepGrows(c, t, l);
      StepPrefix(c, t, l);
      StaysActive(c, t, l);
      AbortsIff(c, t, l);
      assert ls == ls[..|ls| - 1] + [l];
      NoAbortLast(c, s, ls[..|ls| - 1], l);
      var u, n := Step(c, t, l), |t.control.stack| - 1;
      assert u.control.stack[..depth] == u.control.stack[..n][..depth];
      assert t.control.stack[..depth] == t.control.stack[..n][..depth];
    }
  }

  lemma NoAbortEmpty(c: Setup, s: State)
    ensures NoAbort(c, s, [])
  {
    hide Aborts, Steps;
  }

  lemma RestoredItemStarts(c: Setup, s: State, t: State, depth: int, rest: seq<ActionState>, answer: Answer)
    requires RestoringAt(s, depth, rest) && StaysBelow(s, t, depth + 1)
    requires |t.control.stack| == depth + 1 && Startable(c, t)
    ensures StartsUnder(c, t, s.control.handler, answer) <==> t.control.handler == s.control.handler
  {
    hide StartsUnder, Startable;
    assert t.control.Top() == t.control.stack[..depth + 1][depth] == s.control.stack[..depth + 1][depth];
    ItemStartsUnderCurrent(c, t, s.control.handler, answer);
  }

  /** From the step that begins a restoration, `l`, to the moment when the item is due: the item, an action or a
      segment, starts under the handler that was checked if and only if nothing has aborted in between. */
  lemma ItemStartsUnderCheckedHandlerIff(c: Setup, s: State, l: Label, ls: seq<Label>, answer: Answer)
    requires HandlersOk(c, s.control) && BeginsRestoration(c, s, l)
    requires RunsAbove(c, Step(c, s, l), ls, |s.control.stack|)
    requires |Steps(c, Step(c, s, l), ls).control.stack| == |s.control.stack|
    requires Startable(c, Steps(c, Step(c, s, l), ls))
    ensures StartsUnder(c, Steps(c, Step(c, s, l), ls), s.control.handler, answer) <==> NoAbort(c, Step(c, s, l), ls)
  {
    hide Step, HandlersOk, NoAbort, StartsUnder, Startable, RunsAbove, BeginsRestoration, Steps, StaysBelow;
    var u := Step(c, s, l);
    RestorationBegins(c, s, l);
    StepKeepsHandlers(c, s, l);
    RunAbove(c, u, ls, |s.control.stack|);
    RestoredItemStarts(c, u, Steps(c, u, ls), |s.control.stack| - 1,
      OrderedMaps.Values(s.persistent.continuousActions), answer);
  }

  // ---- When it can abort at all ----

  /** Where the default actions are registered under their own names. */
  ghost predicate WellNamed(c: Setup) {
    forall name :: name in c.actions && c.actions[name].OnResume? ==> name == "onResume"
  }

  /** The restoration runs the entry. */
  predicate Restored(c: Setup, e: ActionState) {
    e.name in c.actions && e.name != "onResume"
  }

  /** The entry throws, and the executor with it. */
  predicate Halting(c: Setup, e: ActionState) {
    Restored(c, e) && !Accepts(c.actions[e.name], e.arguments)
  }

  /** The entry asks for a mode that the vehicle may refuse, or runs client code. */
  predicate Risky(c: Setup, e: ActionState) {
    && Restored(c, e) && Accepts(c.actions[e.name], e.arguments)
    && match c.actions[e.name]
       case ChangeSettings => false
       case OnFailure => false
       case _ => true
  }

  /** An entry before which nothing throws can abort. */
  ghost predicate CanAbort(c: Setup, rest: seq<ActionState>) {
    exists i: nat :: i < |rest| && Risky(c, rest[i]) && forall j: nat :: j < i ==> !Halting(c, rest[j])
  }

  lemma CanAbortNext(c: Setup, rest: seq<ActionState>)
    requires rest != []
    ensures CanAbort(c, rest) <==> Risky(c, rest[0]) || (!Halting(c, rest[0]) && CanAbort(c, rest[1..]))
  {
    hide Risky, Halting;
    if CanAbort(c, rest[1..]) && !Halting(c, rest[0]) {
      var i: nat :| i < |rest[1..]| && Risky(c, rest[1..][i]) && forall j: nat :: j < i ==> !Halting(c, rest[1..][j]);
      assert forall j: nat :: j < i + 1 ==> !Halting(c, rest[j]) by {
        assert forall j: nat :: 0 < j < i + 1 ==> rest[j] == rest[1..][j - 1];
      }
      assert Risky(c, rest[i + 1]);
    }
    if i: nat :| i < |rest| && Risky(c, rest[i]) && forall j: nat :: j < i ==> !Halting(c, rest[j]) {
      if i > 0 {
        assert Risky(c, rest[1..][i - 1]);
        assert forall j: nat :: j < i - 1 ==> rest[1..][j] == rest[j + 1];
      }
    }
  }

  /** Some run gets there without leaving the depth. */
  ghost predicate GetsTo(c: Setup, s: State, t: State, depth: int) {
    exists ls: seq<Label> :: RunsAbove(c, s, ls, depth) && Steps(c, s, ls) == t
  }

  /** Some run above the depth has a step that aborts. */
  ghost predicate MayAbort(c: Setup, s: State, depth: int) {
    exists t: State, l: Label :: GetsTo(c, s, t, depth) && |t.control.stack| > depth && Aborts(c, t, l)
  }

  lemma StaysThere(c: Setup, s: State, depth: int)
    ensures GetsTo(c, s, s, depth)
  {
    hide Step;
    assert RunsAbove(c, s, [], depth) && Steps(c, s, []) == s;
  }

  lemma {:induction false} RunsFurther(c: Setup, s: State, a: seq<Label>, b: seq<Label>, depth: int)
    requires RunsAbove(c, s, a, depth) && RunsAbove(c, Steps(c, s, a), b, depth)
    ensures RunsAbove(c, s, a + b, depth) && Steps(c, s, a + b) == Steps(c, Steps(c, s, a), b)
  {
    hide Step;
    if b == [] {
      assert a + b == a;
    } else {
      RunsFurther(c, s, a, b[..|b| - 1], depth);
      assert (a + b)[..|a + b| - 1] == a + b[..|b| - 1];
    }
  }

  lemma GetsFurther(c: Setup, s: State, l: Label, t: State, depth: int)
    requires |s.control.stack| > depth && GetsTo(c, Step(c, s, l), t, depth)
    ensures GetsTo(c, s, t, depth)
  {
    hide Step;
    var b: seq<Label> :| RunsAbove(c, Step(c, s, l), b, depth) && Steps(c, Step(c, s, l), b) == t;
    OneStep(c, s, l);
    assert [l][..0] == [];
    assert Steps(c, s, []) == s;
    assert RunsAbove(c, s, [], depth);
    assert RunsAbove(c, s, [l], depth);
    RunsFurther(c, s, [l], b, depth);
  }

  lemma MayAbortLater(c: Setup, s: State, l: Label, depth: int)
    requires |s.control.stack| > depth && MayAbort(c, Step(c, s, l), depth)
    ensures MayAbort(c, s, depth)
  {
    hide Step, Aborts, GetsTo;
    var t: State, m: Label :| GetsTo(c, Step(c, s, l), t, depth) && |t.control.stack| > depth && Aborts(c, t, m);
    GetsFurther(c, s, l, t, depth);
  }

  lemma MayAbortNow(c: Setup, s: State, l: Label, depth: int)
    requires 0 <= depth < |s.control.stack| && Step(c, s, l).control.handler != s.control.handler
    ensures MayAbort(c, s, depth)
  {
    hide Step, Aborts, GetsTo;
    AbortsIff(c, s, l);
    StaysThere(c, s, depth);
  }

  // ---- The steps of the restoration ----

  /** What a restored entry is run with. */
  function EntryFrames(c: Setup, e: ActionState): seq<Frame> {
    if Restored(c, e) then [Perform(e.name, e.arguments, Nop)] else []
  }

  /** The restoration is under way: the loop over `rest` is right above the start of the item, and `top` above that. */
  predicate LoopsAt(s: State, depth: int, rest: seq<ActionState>, top: seq<Frame>) {
    && s.active && !s.crashed
    && 0 <= depth && |s.control.stack| == depth + 2 + |top| && s.control.stack[depth + 2..] == top
    && s.control.stack[depth].StartItem? && s.control.stack[depth].handler == s.control.handler
    && s.control.stack[depth + 1].Restore? && s.control.stack[depth + 1].rest == rest
  }

  lemma LoopTop(s: State, depth: int, rest: seq<ActionState>, f: Frame)
    requires LoopsAt(s, depth, rest, [f])
    ensures s.control.Top() == f && LoopsAt(Popped(s), depth, rest, [])
  {
    assert s.control.stack[depth + 2..][0] == f;
  }

  /** The entry is taken from the list, and run if it is one to restore. */
  lemma TakesEntry(c: Setup, s: State, depth: int, e: ActionState, rest: seq<ActionState>)
    requires LoopsAt(s, depth, [e] + rest, [])
    ensures LoopsAt(Step(c, s, Internal(Accepted)), depth, rest, EntryFrames(c, e))
  {
    hide Step, KeepsStore, KeepsSegment, SamePlace;
    assert ([e] + rest)[1..] == rest;
    RestoreFrame(c, s, [e] + rest, s.control.Top().handler, Accepted);
  }

  lemma RefusedAborts(c: Setup, s: State, name: string, arguments: Json)
    requires s.active && name in c.actions
    requires c.actions[name].Takeoff? || c.actions[name].Rtl? || c.actions[name].Land? || c.actions[name].Hold?
    requires Accepts(c.actions[name], arguments)
    ensures PerformStep(c, s, name, arguments, Nop, Refused).control.handler != s.control.handler
  {
    hide RunModeStep, Json.GetFloat, MergedOptions, ResetsAll, KeepsStore, KeepsSegment, StartsNoSettings, SamePlace,
      SameButIndex, ChangedSettings, ResumeFromUnexpectedLanding;
    ModeRefused(s, TAKEOFF, Nop);
    ModeRefused(s, RTL, Nop);
    ModeRefused(s, LAND, Nop);
    ModeRefused(s.Push(ArmTimer(Nop)), LOITER, Nop);
  }

  lemma ModeRefused(s: State, mode: nat, done: Closure)
    requires s.active
    ensures RunModeStep(s, mode, done, None, Refused).control.handler != s.control.handler
  {
    hide StartAbort, KeepsStore, KeepsSegment, StartsNoSettings, SamePlace;
    var t := SetScheduled(s.(itemState := Other, activeMode := mode), None).(activeMode := 0);
    AbortTurns(t, t, "modeFailure");
  }

  lemma CustomRuns(c: Setup, s: State, name: string, arguments: Json, answer: Answer)
    requires name in c.actions && c.actions[name].Custom?
    ensures var t := PerformStep(c, s, name, arguments, Nop, answer);
      t == s.(control := s.control.(runs := s.control.runs +
        [Run(s.control.handler, Nop)]).Push(Client(|s.control.runs|)))
  {
    hide KeepsStore, KeepsSegment, StartsNoSettings, SamePlace, SameButIndex, RunActionStep, StartAbort;
  }

  const BadTrajectory := RunTrajectory([ActionItem("", "", Null)], false)

  /** The run has the current handler. */
  predicate IsCurrent(k: Control, run: nat) {
    run < |k.runs| && k.IsValid(k.runs[run].handler)
  }

  /** Client code that asks for a trajectory of something else than waypoints. */
  lemma ClientAborts(c: Setup, s: State, run: nat)
    requires !s.crashed && s.control.Top() == Client(run) && IsCurrent(s.control, run)
    ensures Step(c, s, User(BadTrajectory, Accepted)).control.handler != s.control.handler
  {
    hide Step, RunTrajectoryStep, StartAbort, HandlerMode, RunActionStep, StoreStateStep, CompleteStep, SetIndexStep,
      DropStep, KeepsStore, KeepsSegment, StartsNoSettings, SamePlace, SameButIndex;
    ClientStep(c, s, run, BadTrajectory, Accepted);
    assert BadTrajectory.items[0].ActionItem?;
    AbortTurns(s, s, "trajectoryFailure");
  }

  /** An entry that asks for nothing that can be refused is run, and the loop goes on. */
  predicate Passing(c: Setup, e: ActionState) {
    Restored(c, e) && Accepts(c.actions[e.name], e.arguments) &&
      (c.actions[e.name].ChangeSettings? || c.actions[e.name].OnFailure?)
  }

  predicate ChangesSettings(c: Setup, e: ActionState) {
    e.name in c.actions && c.actions[e.name].ChangeSettings?
  }

  lemma EntryPasses(c: Setup, s: State, depth: int, e: ActionState, rest: seq<ActionState>)
    requires LoopsAt(s, depth, rest, EntryFrames(c, e)) && Passing(c, e)
    ensures LoopsAt(Step(c, s, Internal(Accepted)), depth, rest, if ChangesSettings(c, e) then [Invoke(Nop)] else [])
  {
    hide Step, PerformStep, Accepts, SamePlace;
    LoopTop(s, depth, rest, Perform(e.name, e.arguments, Nop));
    PerformFrame(c, s, e.name, e.arguments, Nop, Accepted);
    PerformAccepted(c, Popped(s), e.name, e.arguments, Nop);
    if ChangesSettings(c, e) {
      MissionProgress.OtherActionState(c, Popped(s), e.name, e.arguments, Nop);
    } else {
      MissionProgress.ModeActionState(c, Popped(s), e.name, e.arguments, Nop);
    }
  }

  lemma RiskyAborts(c: Setup, s: State, depth: int, e: ActionState, rest: seq<ActionState>)
    requires OneValidHandler(s.control) && LoopsAt(s, depth, rest, EntryFrames(c, e)) && Risky(c, e)
    ensures MayAbort(c, s, depth + 1)
  {
    hide Step, PerformStep, MayAbort, Accepts, KeepsStore, KeepsSegment, SamePlace, SameButIndex, StartsNoSettings,
      StartsOnlyItem;
    LoopTop(s, depth, rest, Perform(e.name, e.arguments, Nop));
    if c.actions[e.name].Custom? {
      PerformFrame(c, s, e.name, e.arguments, Nop, Accepted);
      CustomRuns(c, Popped(s), e.name, e.arguments, Accepted);
      var u := Step(c, s, Internal(Accepted));
      ClientAborts(c, u, |s.control.runs|);
      MayAbortNow(c, u, User(BadTrajectory, Accepted), depth + 1);
      MayAbortLater(c, s, Internal(Accepted), depth + 1);
    } else {
      ResumeRefused(e.arguments);
      PerformFrame(c, s, e.name, e.arguments, Nop, Refused);
      RefusedAborts(c, Popped(s), e.name, e.arguments);
      MayAbortNow(c, s, Internal(Refused), depth + 1);
    }
  }

  lemma {:induction false} AbortIsReachable(c: Setup, s: State, depth: int, rest: seq<ActionState>)
    requires HandlersOk(c, s.control) && LoopsAt(s, depth, rest, []) && CanAbort(c, rest)
    ensures MayAbort(c, s, depth + 1)
    decreases |rest|, 0
  {
    hide HandlersOk, Step, MayAbort, Risky, Halting, CanAbort, Passing, Accepts, LoopsAt;
    var l := Internal(Accepted);
    if rest == [] {
      NothingAborts(c);
    } else {
      var u, e, more := Step(c, s, l), rest[0], rest[1..];
      assert rest == [e] + more;
      CanAbortNext(c, rest);
      TakesEntry(c, s, depth, e, more);
      StepKeepsHandlers(c, s, l);
      if !Restored(c, e) {
        NotRestored(c, e);
        AbortIsReachable(c, u, depth, more);
      } else if Risky(c, e) {
        ValidHandler(c, u.control);
        RiskyAborts(c, u, depth, e, more);
      } else {
        NotRisky(c, e);
        PassesOn(c, u, depth, e, more);
      }
      LoopsAbove(s, depth, rest, []);
      MayAbortLater(c, s, l, depth + 1);
    }
  }

  lemma LoopsAbove(s: State, depth: int, rest: seq<ActionState>, top: seq<Frame>)
    requires LoopsAt(s, depth, rest, top)
    ensures |s.control.stack| > depth + 1
  {
  }

  lemma {:induction false} PassesOn(c: Setup, s: State, depth: int, e: ActionState, rest: seq<ActionState>)
    requires HandlersOk(c, s.control) && LoopsAt(s, depth, rest, EntryFrames(c, e))
    requires Passing(c, e) && CanAbort(c, rest)
    ensures MayAbort(c, s, depth + 1)
    decreases |rest|, 1
  {
    hide HandlersOk, Step, MayAbort, CanAbort, Passing, Accepts, LoopsAt, EntryFrames;
    var l, u := Internal(Accepted), Step(c, s, Internal(Accepted));
    EntryPasses(c, s, depth, e, rest);
    StepKeepsHandlers(c, s, l);
    if ChangesSettings(c, e) {
      LoopTop(u, depth, rest, Invoke(Nop));
      LoopsAbove(u, depth, rest, [Invoke(Nop)]);
      Running(u, depth, rest, [Invoke(Nop)]);
      assert Step(c, u, Internal(Accepted)) == Popped(u) by {
        hide Step, RunNextItem, ResumeMission, HandlerMode, NavigateToPreviousWaypoint;
        InvokeFrame(c, u, Nop, Accepted);
      }
      StepKeepsHandlers(c, u, l);
      AbortIsReachable(c, Step(c, u, l), depth, rest);
      MayAbortLater(c, u, l, depth + 1);
    } else {
      AbortIsReachable(c, u, depth, rest);
    }
    LoopsAbove(s, depth, rest, EntryFrames(c, e));
    MayAbortLater(c, s, l, depth + 1);
  }

  lemma Running(s: State, depth: int, rest: seq<ActionState>, top: seq<Frame>)
    requires LoopsAt(s, depth, rest, top)
    ensures !s.crashed && s.active
  {
  }

  lemma NothingAborts(c: Setup)
    ensures !CanAbort(c, [])
  {
  }

  lemma NotRestored(c: Setup, e: ActionState)
    requires !Restored(c, e)
    ensures !Risky(c, e) && !Halting(c, e)
  {
  }

  lemma NotRisky(c: Setup, e: ActionState)
    requires Restored(c, e) && !Risky(c, e) && !Halting(c, e)
    ensures Passing(c, e) && (c.actions[e.name].ChangeSettings? || c.actions[e.name].OnFailure?)
  {
    hide Accepts;
  }

  // ---- Otherwise nothing aborts ----

  /** What the run of an entry that is not risky consists of. */
  predicate QuietFrame(c: Setup, h: nat, f: Frame, rest: seq<ActionState>) {
    match f
    case Perform(name, arguments, done) =>
      done.Nop? && name in c.actions && name != "onResume" && (Accepts(c.actions[name], arguments) ==>
        c.actions[name].ChangeSettings? || c.actions[name].OnFailure?)
    case Invoke(done) => done.Nop? || done == TryDescend(h, Nop)
    case _ => false
  }

  /** The restoration has come to an end, has thrown, or goes on with entries that cannot abort. */
  ghost predicate Quietly(c: Setup, s: State, depth: int, h: nat) {
    && OneValidHandler(s.control) && s.control.handler == h && s.active
    && (|| s.crashed || |s.control.stack| <= depth + 1
        || (&& 0 <= depth && depth + 2 <= |s.control.stack| <= depth + 3 && s.control.stack[depth + 1].Restore?
            && var rest := s.control.stack[depth + 1].rest;
               if |s.control.stack| == depth + 2 then !CanAbort(c, rest)
               else QuietFrame(c, h, s.control.stack[depth + 2], rest)
                    && (!CanAbort(c, rest) || Throws(c, s.control.stack[depth + 2]))))
  }

  predicate Throws(c: Setup, f: Frame) {
    f.Perform? && f.name in c.actions && !Accepts(c.actions[f.name], f.arguments)
  }

  lemma TakeoffThrows(s: State, arguments: Json, done: Closure, answer: Answer)
    ensures !Accepts(Takeoff, arguments) ==> TakeoffStep(s, arguments, done, answer) == s.(crashed := true)
    ensures !Accepts(Hold, arguments) ==> HoldStep(s, arguments, done, answer) == s.(crashed := true)
  {
    hide RunModeStep, Json.GetFloat, KeepsStore, KeepsSegment, StartsNoSettings, SamePlace;
  }

  lemma SettingsThrow(s: State, arguments: Json, done: Closure)
    ensures !Accepts(ChangeSettings, arguments) ==> ChangeSettingsStep(s, arguments, done) == s.(crashed := true)
  {
    hide StoreSettings, DropSettingsKeeper, MergedOptions, ResetsAll, SamePlace, KeepsSegment, StartsNoSettings;
    MergesAlike(NoOptions, s.options, arguments);
  }

  lemma ThrowingCrashes(c: Setup, s: State, name: string, arguments: Json, done: Closure, answer: Answer)
    requires name in c.actions
    requires !Accepts(c.actions[name], arguments) && !c.actions[name].OnResume?
    ensures PerformStep(c, s, name, arguments, done, answer) == s.(crashed := true)
  {
    hide RunModeStep, TakeoffStep, HoldStep, ChangeSettingsStep, RunCustomStep, ResumeStep, Json.GetFloat,
      MergedOptions, ResetsAll, KeepsStore, KeepsSegment, StartsNoSettings, SamePlace, SameButIndex;
    TakeoffThrows(s, arguments, done, answer);
    SettingsThrow(s, arguments, done);
  }

  lemma FailureMode(c: Setup, s: State, name: string, arguments: Json, answer: Answer)
    requires name in c.actions && c.actions[name].OnFailure?
    ensures var t, h := PerformStep(c, s, name, arguments, Nop, answer), s.control.handler;
      && t.active == s.active && t.crashed == s.crashed && t.control.handler == h
      && (t.control.stack == s.control.stack || t.control.stack == s.control.stack + [Invoke(TryDescend(h, Nop))])
  {
    hide RunModeStep, KeepsStore, KeepsSegment, StartsNoSettings, SamePlace, SameButIndex, ChangeSettingsStep, HoldStep,
      ResumeStep, RunCustomStep, TakeoffStep;
    ModeWithFallback(s, RTL, Nop, TryDescend(s.control.handler, Nop), answer);
  }

  /** With a callback for the failure nothing aborts. */
  lemma ModeWithFallback(s: State, mode: nat, done: Closure, fallback: Closure, answer: Answer)
    ensures var t := RunModeStep(s, mode, done, Some(fallback), answer);
      && t.active == s.active && t.crashed == s.crashed && t.control.handler == s.control.handler
      && (t.control.stack == s.control.stack || t.control.stack == s.control.stack + [Invoke(fallback)])
  {
    hide KeepsStore, KeepsSegment, StartsNoSettings, SamePlace, StartAbort;
    match answer
    case Accepted =>
    case NotArmed =>
    case Refused =>
  }

  lemma DescendQuietly(c: Setup, s: State, h: nat, answer: Answer)
    ensures var t := InvokeStep(c, s, TryDescend(h, Nop), answer);
      && t.active == s.active && t.crashed == s.crashed && t.control.handler == s.control.handler
      && (t.control.stack == s.control.stack || t.control.stack == s.control.stack + [Invoke(Nop)])
  {
    hide RunModeStep, KeepsStore, KeepsSegment, StartsNoSettings, SamePlace, HandlerTrajectory;
    ModeWithFallback(s, DESCEND, Nop, Nop, answer);
  }

  lemma SettingsQuietly(c: Setup, s: State, name: string, arguments: Json, answer: Answer)
    requires name in c.actions && c.actions[name].ChangeSettings?
    ensures var t := PerformStep(c, s, name, arguments, Nop, answer);
      && t.active == s.active && t.control.handler == s.control.handler
      && (t.crashed || t.control.stack == s.control.stack + [Invoke(Nop)])
  {
    hide ChangedSettings, KeepsStore, KeepsSegment, StartsNoSettings, SamePlace, SameButIndex, ModeFailed,
      ResumeFromUnexpectedLanding;
    if ChangedSettings(s, arguments).Success? {
      MissionProgress.ChangedActive(s, arguments);
    }
  }

  lemma QuietInvoke(c: Setup, s: State, t: State, depth: int, closure: Closure, answer: Answer)
    requires Quietly(c, s, depth, s.control.handler) && OneValidHandler(t.control) && !s.crashed
    requires |s.control.stack| > depth + 1 && s.control.Top() == Invoke(closure)
    requires t == InvokeStep(c, Popped(s), closure, answer)
    ensures Quietly(c, t, depth, s.control.handler)
  {
    hide RunNextItem, ResumeMission, HandlerMode, NavigateToPreviousWaypoint, InvokeStep, CanAbort, Accepts, KeepsStore,
      KeepsSegment, SamePlace, SameButIndex, StartsNoSettings, StartsOnlyItem;
    if closure.Nop? {
      NopInvoked(c, Popped(s), answer);
    } else {
      DescendQuietly(c, Popped(s), s.control.handler, answer);
    }
  }

  lemma NopInvoked(c: Setup, s: State, answer: Answer)
    ensures InvokeStep(c, s, Nop, answer) == s
  {
    hide RunNextItem, ResumeMission, HandlerMode, NavigateToPreviousWaypoint;
  }

  lemma QuietRestore(c: Setup, s: State, t: State, depth: int, rest: seq<ActionState>, h: nat)
    requires Quietly(c, s, depth, s.control.handler) && OneValidHandler(t.control) && !s.crashed
    requires |s.control.stack| > depth + 1 && s.control.Top() == Restore(rest, h)
    requires t == RestoreStep(c, Popped(s), rest, h)
    ensures Quietly(c, t, depth, s.control.handler)
  {
    hide CanAbort, Accepts, KeepsStore, KeepsSegment, SamePlace;
    if rest != [] {
      CanAbortNext(c, rest);
    }
  }

  lemma QuietStep(c: Setup, s: State, depth: int, l: Label)
    requires WellNamed(c) && HandlersOk(c, s.control) && Quietly(c, s, depth, s.control.handler)
    requires |s.control.stack| > depth + 1
    ensures Quietly(c, Step(c, s, l), depth, s.control.handler) && HandlersOk(c, Step(c, s, l).control)
  {
    hide HandlersOk, Step, InvokeStep, PerformStep, RestoreStep, CanAbort, Accepts;
    StepKeepsHandlers(c, s, l);
    ValidHandler(c, Step(c, s, l).control);
    if s.crashed {
      CrashedStep(c, s, l);
    } else if !l.Internal? {
      UnfitStep(c, s, l);
    } else {
      match s.control.Top()
      case Perform(name, arguments, done) =>
        PerformFrame(c, s, name, arguments, done, l.answer);
        assert Quietly(c, Step(c, s, l), depth, s.control.handler) by {
          hide PerformStep, CanAbort, Accepts;
          if Throws(c, s.control.Top()) {
            ThrowingCrashes(c, Popped(s), name, arguments, done, l.answer);
          } else if c.actions[name].OnFailure? {
            FailureMode(c, Popped(s), name, arguments, l.answer);
          } else {
            SettingsQuietly(c, Popped(s), name, arguments, l.answer);
          }
        }
      case Invoke(closure) =>
        InvokeFrame(c, s, closure, l.answer);
        QuietInvoke(c, s, Step(c, s, l), depth, closure, l.answer);
      case Restore(rest, h) =>
        RestoreFrame(c, s, rest, h, l.answer);
        QuietRestore(c, s, Step(c, s, l), depth, rest, h);
    }
  }

  lemma {:induction false} QuietRun(c: Setup, s: State, depth: int, ls: seq<Label>)
    requires WellNamed(c) && HandlersOk(c, s.control) && Quietly(c, s, depth, s.control.handler)
    requires RunsAbove(c, s, ls, depth + 1)
    ensures Quietly(c, Steps(c, s, ls), depth, s.control.handler) && HandlersOk(c, Steps(c, s, ls).control)
  {
    hide Step, Quietly, HandlersOk;
    if ls != [] {
      var t := Steps(c, s, ls[..|ls| - 1]);
      QuietRun(c, s, depth, ls[..|ls| - 1]);
      QuietHandler(c, t, depth, s.control.handler);
      QuietStep(c, t, depth, ls[|ls| - 1]);
    }
  }

  lemma QuietHandler(c: Setup, s: State, depth: int, h: nat)
    requires Quietly(c, s, depth, h)
    ensures s.control.handler == h
  {
    hide CanAbort, QuietFrame;
  }

  lemma NothingAbortsQuietly(c: Setup, s: State, depth: int)
    requires WellNamed(c) && HandlersOk(c, s.control) && Quietly(c, s, depth, s.control.handler) && 0 <= depth
    ensures !MayAbort(c, s, depth + 1)
  {
    hide Step, Quietly, Aborts, HandlersOk;
    if t: State, l: Label :| GetsTo(c, s, t, depth + 1) && |t.control.stack| > depth + 1 && Aborts(c, t, l) {
      var ls: seq<Label> :| RunsAbove(c, s, ls, depth + 1) && Steps(c, s, ls) == t;
      QuietRun(c, s, depth, ls);
      QuietHandler(c, t, depth, s.control.handler);
      QuietStep(c, t, depth, l);
      QuietHandler(c, Step(c, t, l), depth, s.control.handler);
      AbortsIff(c, t, l);
    }
  }

  /** What can be checked on the stored entries beforehand: some run of the restoration aborts, if and only if an entry
      asks for a mode that the vehicle may refuse, or runs client code, and no entry before it throws. (If a later
      entry throws, the item is not started at all.) */
  lemma RestorationMayAbortIff(c: Setup, s: State, l: Label)
    requires WellNamed(c) && HandlersOk(c, s.control) && BeginsRestoration(c, s, l) && s.active
    ensures MayAbort(c, Step(c, s, l), |s.control.stack|)
       <==> CanAbort(c, OrderedMaps.Values(s.persistent.continuousActions))
  {
    hide HandlersOk, Step, OrderedMaps.Values, CanAbort, MayAbort, BeginsRestoration, QuietFrame, Throws;
    var t, depth, rest := Step(c, s, l), |s.control.stack| - 1, OrderedMaps.Values(s.persistent.continuousActions);
    RestorationBegins(c, s, l);
    StepKeepsHandlers(c, s, l);
    ValidHandler(c, t.control);
    if CanAbort(c, rest) {
      assert t.control.stack[depth + 2..] == [];
      AbortIsReachable(c, t, depth, rest);
    } else {
      assert Quietly(c, t, depth, t.control.handler);
      NothingAbortsQuietly(c, t, depth);
    }
  }
}
