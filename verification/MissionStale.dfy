/** What outlives an abort or a deactivation does nothing: callbacks made under an earlier handler neither move the
    mission index nor start an item, and commands on an earlier handler have no effect, but for the ungated one. */
module MissionStale {
  import opened Wrappers
  import opened Missions
  import opened MissionTypes
  import opened MissionSteps
  import opened MissionHandlers
  import opened MissionTokens
  import opened MissionIndex
  import opened MissionAbort
  import opened MissionPersistence

  /** An abort disowns every callback there is, wherever it is raised. */
  lemma AbortDisowns(s: State, closure: Closure, reason: string)
    requires Coherent(s.control.runs, s.control.handler, closure)
    ensures StaleClosure(StartAbort(s, reason).control.handler, closure)
  {
    hide StartAbort;
  }

  /** So does a deactivation. */
  lemma DeactivationDisowns(c: Setup, s: State, closure: Closure)
    requires HandlersCalm(c, s.control) && s.control.stack == [] && Coherent(s.control.runs, s.control.handler, closure)
    ensures StaleClosure(OnDeactivate(c, s).control.handler, closure)
  {
    hide Leave, OnDeactivate, Count, ClosuresCoherent, StackCoherent;
    DeactivateCounts(c, s, All);
  }

  /** An invalid handler never becomes valid again, in any run. */
  lemma {:induction false} InvalidForever(c: Setup, s: State, ls: seq<Label>, h: nat)
    requires HandlersOk(c, s.control) && h <= s.control.handler && !s.control.IsValid(h)
    ensures var t := Steps(c, s, ls); HandlersOk(c, t.control) && h < t.control.handler && !t.control.IsValid(h)
  {
    hide Step, Count, ClosuresCoherent, StackCoherent;
    if ls != [] {
      var t, l := Steps(c, s, ls[..|ls| - 1]), ls[|ls| - 1];
      InvalidForever(c, s, ls[..|ls| - 1], h);
      StepKeepsHandlers(c, t, l);
      StepCounts(c, t, l, All);
    }
  }

  // ---- One step ----

  /** A callback, or code of a client, that belongs to an earlier handler. */
  predicate StaleCode(k: Control, f: Frame) {
    || (f.Invoke? && StaleClosure(k.handler, f.c))
    || (f.Client? && f.run < |k.runs| && k.runs[f.run].handler < k.handler)
  }

  /** The only trace of such a callback is the call of another one, or of the client's code. */
  ghost predicate Inert(s: State, t: State) {
    t == s || exists f: Frame :: StaleCode(s.control, f) && t == s.Push(f)
  }

  lemma InertNavigation(c: Setup, s: State, h: nat, done: Closure, at: int, answer: Answer)
    requires OneValidHandler(s.control) && h < s.control.handler && StaleClosure(s.control.handler, done)
    ensures Inert(s, NavigateToPreviousWaypoint(c, s, h, done, at, answer))
  {
    hide HandlerTrajectory, WaypointBefore;
    var found := WaypointBefore(s.mission.items, if at < |s.mission.items| then at else |s.mission.items|);
    if found.Some? {
      StaleTrajectory(c, s, h, [NavigationItem("", s.mission.items[found.value].waypoint)], done, false, answer);
    } else {
      assert StaleCode(s.control, Invoke(done));
    }
  }

  /** Calling it changes nothing, starts nothing, and leads at most to more of the same. */
  lemma StaleCallbackIsInert(c: Setup, s: State, closure: Closure, answer: Answer)
    requires OneValidHandler(s.control) && Coherent(s.control.runs, s.control.handler, closure)
    requires StaleClosure(s.control.handler, closure)
    ensures Inert(s, InvokeStep(c, s, closure, answer))
  {
    hide NavigateToPreviousWaypoint, RunModeStep, ResumeMission, RunNextItem, KeepsStore, KeepsSegment, SamePlace,
      SameButIndex, StartsNoSettings, StartsOnlyItem;
    match closure
    case UserCode(_, run) => assert StaleCode(s.control, Client(run));
    case AfterTakeoff(h, done, at) => InertNavigation(c, s, h, done, at, answer);
    case _ =>
  }

  /** A segment flown for an earlier handler flies on, but reports nothing. */
  lemma StaleSegmentIsInert(s: State, index: int)
    requires OneValidHandler(s.control) && s.control.flight.report.SegmentStep? &&
      s.control.flight.report.handler < s.control.handler
    ensures ReachIndex(s, index) == s.(control := HeadOn(s.control, index))
    ensures ReachIndex(s, index).persistent == s.persistent && ReachIndex(s, index).control.stack == s.control.stack
  {
  }

  /** Commands on an earlier handler: none but setting the index has an effect on the executor. */
  lemma StaleCommandIsInert(c: Setup, s: State, run: nat, command: Command, answer: Answer)
    requires OneValidHandler(s.control) && run < |s.control.runs| && s.control.runs[run].handler < s.control.handler
    requires !command.Complete? && !command.DropState? && !command.Return?
    ensures CommandStep(c, s, run, command, answer)
         == match command
            case SetIndex(index) => if s.mission.IndexValid(index) then SetCurrentIndex(s, index) else s
            case _ => s
  {
    hide RunModeStep, RunActionStep, AddContinuousAction, DropStep, RunTrajectoryStep, StartAbort, KeepsStore,
      KeepsSegment, SamePlace, SameButIndex, StartsNoSettings, StartsOnlyItem;
  }

  // ---- All that it leads to ----

  /** Above a depth of the stack there is nothing else. */
  ghost predicate OnlyStale(k: Control, depth: int) {
    0 <= depth <= |k.stack| && forall i: nat :: depth <= i < |k.stack| ==> StaleCode(k, k.stack[i])
  }

  /** All that may differ: which runs are completed, the index, which is not gated, and tokens that the client drops. */
  ghost predicate Untouched(s: State, t: State) {
    && t == s.(persistent := s.persistent.(currentIndex := t.persistent.currentIndex,
                                           continuousActions := t.persistent.continuousActions),
               reports := t.reports, clientKeepers := t.clientKeepers,
               control := s.control.(stack := t.control.stack, completedRuns := t.control.completedRuns))
  }

  ghost predicate SameIndex(s: State, t: State) {
    t.persistent.currentIndex == s.persistent.currentIndex && t.reports == s.reports
  }

  ghost predicate SameActions(s: State, t: State) {
    t.persistent.continuousActions == s.persistent.continuousActions && t.clientKeepers == s.clientKeepers
  }

  predicate SetsIndex(l: Label) {
    l.User? && l.command.SetIndex?
  }

  predicate DropsToken(l: Label) {
    l.User? && l.command.DropState?
  }

  /** What a step, or a run, of stale code above a depth keeps. */
  ghost predicate KeepsAll(s: State, t: State, depth: int, index: bool, actions: bool) {
    && Untouched(s, t) && OnlyStale(t.control, depth) && depth <= |s.control.stack|
    && t.control.stack[..depth] == s.control.stack[..depth]
    && (index ==> SameIndex(s, t)) && (actions ==> SameActions(s, t))
  }

  lemma StaleBelow(k: Control, l: Control, depth: int)
    requires OnlyStale(k, depth) && |k.stack| > depth
    requires l.handler == k.handler && l.runs == k.runs
    requires l.stack == k.Popped().stack
             || (exists f: Frame :: StaleCode(k, f) && (l.stack == k.Popped().stack + [f] || l.stack == k.stack + [f]))
             || l.stack == k.stack
    ensures OnlyStale(l, depth) && l.stack[..depth] == k.stack[..depth]
  {
    forall i: nat | depth <= i < |l.stack|
      ensures StaleCode(l, l.stack[i])
    {
      if i < |k.stack| {
        assert StaleCode(k, k.stack[i]);
      }
    }
  }

  lemma StaleInvokeStep(c: Setup, s: State, t: State, closure: Closure, answer: Answer, depth: int)
    requires HandlersOk(c, s.control) && OnlyStale(s.control, depth) && |s.control.stack| > depth
    requires s.control.Top() == Invoke(closure) && t == InvokeStep(c, Popped(s), closure, answer)
    ensures KeepsAll(s, t, depth, true, true)
  {
    hide ClosuresCoherent, Coherent, InvokeStep, KeepsStore, KeepsSegment, StartsNoSettings, SamePlace, SameButIndex;
    assert FrameCoherent(c, s.control.runs, s.control.handler, s.control.stack[|s.control.stack| - 1]);
    assert StaleCode(s.control, s.control.stack[|s.control.stack| - 1]);
    StaleCallbackIsInert(c, Popped(s), closure, answer);
    StaleBelow(s.control, t.control, depth);
  }

  lemma StaleRun(k: Control, depth: int, run: nat)
    requires OnlyStale(k, depth) && |k.stack| > depth && k.Top() == Client(run)
    ensures run < |k.runs| && k.runs[run].handler < k.handler
  {
    assert StaleCode(k, k.stack[|k.stack| - 1]);
  }

  lemma StaleClientStep(c: Setup, s: State, t: State, run: nat, command: Command, answer: Answer, depth: int)
    requires HandlersOk(c, s.control) && OnlyStale(s.control, depth) && |s.control.stack| > depth
    requires s.control.Top() == Client(run) && t == CommandStep(c, s, run, command, answer)
    ensures KeepsAll(s, t, depth, !command.SetIndex?, !command.DropState?)
  {
    hide HandlersOk, CommandStep, CompleteStep, DropStep, OnlyStale, StaleCode, OneValidHandler, KeepsAll, SamePlace,
      SameButIndex, KeepsSegment;
    StaleRun(s.control, depth, run);
    ValidHandler(c, s.control);
    match command
    case Complete =>
      StaleCompletes(c, s, run);
      CompleteIs(c, s, run, answer);
      StaleKeeps(s, t, depth, true, true);
    case DropState(id) =>
      DropIs(c, s, run, id, answer);
      DropsOnly(s, id);
      StaleKeeps(s, t, depth, true, false);
    case Return =>
      ReturnPops(c, s, run, answer);
      StaleKeeps(s, t, depth, true, true);
    case _ =>
      StaleCommandIsInert(c, s, run, command, answer);
      IndexKeeps(s, t, depth, command);
  }

  lemma IndexKeeps(s: State, t: State, depth: int, command: Command)
    requires OnlyStale(s.control, depth) && |s.control.stack| > depth
    requires t == match command
                  case SetIndex(index) => if s.mission.IndexValid(index) then SetCurrentIndex(s, index) else s
                  case _ => s
    ensures KeepsAll(s, t, depth, !command.SetIndex?, true)
  {
    hide OnlyStale, StaleCode, KeepsAll;
    StaleKeeps(s, t, depth, !command.SetIndex?, true);
  }

  lemma StaleKeeps(s: State, t: State, depth: int, index: bool, actions: bool)
    requires OnlyStale(s.control, depth) && |s.control.stack| > depth && Untouched(s, t)
    requires (index ==> SameIndex(s, t)) && (actions ==> SameActions(s, t))
    requires t.control.stack == s.control.Popped().stack || t.control.stack == s.control.stack
             || (exists f: Frame :: StaleCode(s.control, f) && t.control.stack == s.control.stack + [f])
    ensures KeepsAll(s, t, depth, index, actions)
  {
    hide OnlyStale, StaleCode;
    StaleBelow(s.control, t.control, depth);
  }

  lemma CompleteIs(c: Setup, s: State, run: nat, answer: Answer)
    requires run < |s.control.runs|
    ensures CommandStep(c, s, run, Complete, answer) == CompleteStep(s, run)
  {
    hide CompleteStep, DropStep, HandlerMode, RunActionStep, HandlerTrajectory, StoreStateStep, SetIndexStep,
      SameButIndex;
  }

  lemma DropIs(c: Setup, s: State, run: nat, id: nat, answer: Answer)
    requires run < |s.control.runs|
    ensures CommandStep(c, s, run, DropState(id), answer) == DropStep(s, id)
  {
    hide CompleteStep, DropStep, HandlerMode, RunActionStep, HandlerTrajectory, StoreStateStep, SetIndexStep,
      SameButIndex;
  }

  lemma StaleCompletes(c: Setup, s: State, run: nat)
    requires HandlersOk(c, s.control) && run < |s.control.runs| && s.control.runs[run].handler < s.control.handler
    ensures var t := CompleteStep(s, run);
      || t == s
      || (t == s.(control := t.control)
          && t.control == s.control.(completedRuns := t.control.completedRuns, stack := t.control.stack)
          && t.control.stack == s.control.stack + [Invoke(s.control.runs[run].done)]
          && StaleCode(s.control, Invoke(s.control.runs[run].done)))
  {
    hide StackCoherent, FlightCoherent, Coherent;
    assert RunCoherent(s.control.runs, s.control.handler, s.control.runs[run]);
  }

  lemma DropsOnly(s: State, id: nat)
    ensures var t := DropStep(s, id);
      t == s.(persistent := s.persistent.(continuousActions := t.persistent.continuousActions),
        clientKeepers := t.clientKeepers)
  {
  }

  lemma StaleStep(c: Setup, s: State, l: Label, depth: int)
    requires HandlersOk(c, s.control) && OnlyStale(s.control, depth) && |s.control.stack| > depth
    ensures KeepsAll(s, Step(c, s, l), depth, !SetsIndex(l), !DropsToken(l))
  {
    hide HandlersOk, Step, CommandStep, InvokeStep, KeepsAll;
    assert StaleCode(s.control, s.control.stack[|s.control.stack| - 1]);
    KeepsItself(s, depth);
    KeepsOn(s, s, s, depth, true, true, !SetsIndex(l), !DropsToken(l));
    if s.crashed {
      CrashedStep(c, s, l);
    } else {
      match s.control.Top()
      case Invoke(closure) =>
        if l.Internal? {
          InvokeFrame(c, s, closure, l.answer);
          StaleInvokeStep(c, s, Step(c, s, l), closure, l.answer, depth);
        } else {
          UnfitStep(c, s, l);
        }
      case Client(run) =>
        if l.User? {
          ClientStep(c, s, run, l.command, l.answer);
          StaleClientStep(c, s, Step(c, s, l), run, l.command, l.answer, depth);
        } else {
          UnfitStep(c, s, l);
        }
    }
  }

  lemma KeepsItself(s: State, depth: int)
    requires OnlyStale(s.control, depth)
    ensures KeepsAll(s, s, depth, true, true)
  {
    hide StaleCode;
  }

  lemma KeepsOn(s: State, t: State, u: State, depth: int, i: bool, a: bool, j: bool, b: bool)
    requires KeepsAll(s, t, depth, i, a) && (KeepsAll(t, u, depth, j, b) || KeepsAll(t, u, depth, true, true))
    ensures KeepsAll(s, u, depth, i && j, a && b)
  {
    hide OnlyStale;
  }

  /** Up to the last label, something above the depth is still running. */
  ghost predicate RunsAbove(c: Setup, s: State, ls: seq<Label>, depth: int) {
    ls == [] || (RunsAbove(c, s, ls[..|ls| - 1], depth) && |Steps(c, s, ls[..|ls| - 1]).control.stack| > depth)
  }

  predicate NeverSets(ls: seq<Label>) {
    forall i :: 0 <= i < |ls| ==> !SetsIndex(ls[i])
  }

  predicate NeverDrops(ls: seq<Label>) {
    forall i :: 0 <= i < |ls| ==> !DropsToken(ls[i])
  }

  /** Over any run, as long as what runs above a depth is stale: no item starts there, nothing is restored or performed,
      and mission, options, segments, callbacks and stored actions stay as they are. The index stays unless the client
      sets it, and the stored actions stay unless the client drops their tokens. */
  lemma {:induction false} StaleCodeIsInert(c: Setup, s: State, ls: seq<Label>, depth: int)
    requires HandlersOk(c, s.control) && OnlyStale(s.control, depth) && RunsAbove(c, s, ls, depth)
    ensures HandlersOk(c, Steps(c, s, ls).control)
    ensures KeepsAll(s, Steps(c, s, ls), depth, NeverSets(ls), NeverDrops(ls))
  {
    hide Step, HandlersOk, OnlyStale, KeepsAll, SetsIndex, DropsToken;
    if ls == [] {
      KeepsItself(s, depth);
    } else {
      var before, l := ls[..|ls| - 1], ls[|ls| - 1];
      var t, i, a := Steps(c, s, before), NeverSets(before), NeverDrops(before);
      StaleCodeIsInert(c, s, before, depth);
      KeptStale(s, t, depth, i, a);
      StaleStep(c, t, l, depth);
      StepKeepsHandlers(c, t, l);
      KeepsOn(s, t, Step(c, t, l), depth, i, a, !SetsIndex(l), !DropsToken(l));
      assert forall k :: 0 <= k < |before| ==> ls[k] == before[k];
      assert NeverSets(ls) == (i && !SetsIndex(l));
      assert NeverDrops(ls) == (a && !DropsToken(l));
    }
  }

  lemma KeptStale(s: State, t: State, depth: int, index: bool, actions: bool)
    requires KeepsAll(s, t, depth, index, actions)
    ensures OnlyStale(t.control, depth)
  {
    hide OnlyStale;
  }

  // ---- Callbacks are stale for good ----

  lemma LeadsGrow(k: Control, l: Control, w: Weight, extra: nat)
    requires Leads(k, l, w, extra) || Carries(k, l, w, extra)
    ensures k.runs <= l.runs
  {
    hide Count, Aborted;
  }

  lemma ContinueGrows(c: Setup, s: State, answer: Answer)
    requires HandlersOk(c, s.control) && s.control.stack != []
    ensures s.control.runs <= Continue(c, s, answer).control.runs
  {
    hide Leads, Carries, Count, ClosuresCoherent, StackCoherent, CallStep, ReturnStep, FrameCoherent, AbortMainStep,
      Brings, SamePlace;
    var t, f := Popped(s), s.control.Top();
    PopKeeps(c, s.control);
    TopCoherent(c, s.control);
    if f.AbortMain? {
      AbortMainGrows(c, s, answer);
    } else if Calls(f) {
      CallCarries(c, t, f, answer, All);
      LeadsGrow(t.control, CallStep(c, t, f, answer).control, All, Brings(t, f, All));
    } else if !InClient(f) {
      ReturnControl(c, t, f);
    }
  }

  lemma AbortMainGrows(c: Setup, s: State, answer: Answer)
    requires HandlersOk(c, s.control) && s.control.stack != [] && s.control.Top().AbortMain?
    ensures s.control.runs <= Continue(c, s, answer).control.runs
  {
    hide AbortMainStep, FailureArguments, ClosuresCoherent, StackCoherent, KeepsStore, KeepsSegment, SamePlace,
      SameButIndex, StartsNoSettings, StartsOnlyItem;
    AbortMainControl(c, Popped(s), s.control.Top().reason);
  }

  lemma AbortRuns(s: State, reason: string)
    ensures StartAbort(s, reason).control.runs == s.control.runs
  {
    hide KeepsStore, KeepsSegment, StartsNoSettings, SamePlace;
  }

  lemma FinishRuns(s: State, outcome: Outcome)
    ensures FinishMode(s, outcome).control.runs == s.control.runs && FireTimer(s).control.runs == s.control.runs
  {
    hide StartAbort, KeepsStore, KeepsSegment, StartsNoSettings, SamePlace;
    if s.control.scheduled.Some? {
      AbortRuns(SetScheduled(s, None).(activeMode := 0), "modeFailure");
    }
  }

  lemma UpdateRuns(c: Setup, s: State, positionValid: bool, reached: bool)
    ensures UpdateSetpointStep(c, s, positionValid, reached).control.runs == s.control.runs
  {
    hide StartAbort, ReachIndex, KeepsStore, KeepsSegment, StartsNoSettings, SamePlace;
    AbortRuns(s, "trajectoryFailure");
    if s.control.flight.target.Some? {
      ReachIndexControl(s, s.control.flight.target.value);
    }
  }

  lemma ActivateRuns(c: Setup, s: State)
    ensures OnActivate(c, s).control.runs == s.control.runs
  {
    hide StartAbort;
    AbortRuns(s.(active := true, options := s.mission.defaults, itemState := Other, activeMode := c.ownMode),
      "noValidMission");
  }

  lemma EventGrows(c: Setup, s: State, event: Event, answer: Answer)
    ensures s.control.runs <= ExternalStep(c, s, event, answer).control.runs
  {
    hide StartAbort, OnActivate, OnDeactivate, SetMissionStep, FinishMode, FireTimer, UpdateSetpointStep;
    match event
    case SetMission(mission) => SetMissionControl(c, s, mission);
    case Activate => ActivateRuns(c, s);
    case Deactivate =>
      assert OnDeactivate(c, s).control.runs == s.control.runs by {
        hide OnDeactivate, MissionDone, SamePlace;
        OnDeactivateControl(c, s);
      }
    case ModeFinished(outcome) => FinishRuns(s, outcome);
    case TimerFired => FinishRuns(s, Succeeded);
    case UpdateSetpoint(positionValid, reached) => UpdateRuns(c, s, positionValid, reached);
    case AbortRequest => AbortRuns(s, "other");
    case _ =>
  }

  lemma UserGrows(c: Setup, s: State, command: Command, answer: Answer)
    requires HandlersOk(c, s.control) && !s.crashed && s.control.stack != [] && InClient(s.control.Top())
    ensures Grows(s.control, Step(c, s, User(command, answer)).control)
  {
    hide Count, ClosuresCoherent, StackCoherent, ExternalStep, Continue, CommandStep, StartAbort, DropStep, KeepsStore,
      KeepsSegment, SamePlace, SameButIndex, StartsNoSettings;
    StepCounts(c, s, User(command, answer), All);
    ClientCalm(c, s.control);
    AbortRuns(s, "other");
    if s.control.Top().Client? && s.control.Top().run < |s.control.runs| {
      assert s.control.runs <= CommandStep(c, s, s.control.Top().run, command, answer).control.runs by {
        hide Leads, Count, ClosuresCoherent, StackCoherent, CommandStep, Advances;
        if command.Return? {
          ReturnPops(c, s, s.control.Top().run, answer);
        } else {
          CommandLeads(c, s, All, s.control.Top().run, command, answer);
          LeadsGrow(s.control, CommandStep(c, s, s.control.Top().run, command, answer).control, All, 0);
        }
      }
    } else if s.control.Top().Client? {
      NoSuchRun(c, s, s.control.Top().run, command, answer);
    } else if command.DropState? {
      DropControl(s, command.id);
    }
  }

  lemma StepGrows(c: Setup, s: State, l: Label)
    requires HandlersOk(c, s.control)
    ensures Grows(s.control, Step(c, s, l).control)
  {
    hide Count, ClosuresCoherent, StackCoherent, ExternalStep, Continue, CommandStep, StartAbort, DropStep, KeepsStore,
      KeepsSegment, SamePlace, SameButIndex, StartsNoSettings;
    StepCounts(c, s, l, All);
    if s.crashed {
      CrashedStep(c, s, l);
    } else if s.control.stack == [] {
      if l.External? {
        EventGrows(c, s, l.event, l.answer);
      }
    } else if InClient(s.control.Top()) {
      if l.User? {
        UserGrows(c, s, l.command, l.answer);
      }
    } else if l.Internal? {
      ContinueGrows(c, s, l.answer);
    }
  }

  lemma {:induction false} RunGrows(c: Setup, s: State, ls: seq<Label>)
    requires HandlersOk(c, s.control)
    ensures var t := Steps(c, s, ls); HandlersOk(c, t.control) && Grows(s.control, t.control)
  {
    hide Step, HandlersOk;
    if ls != [] {
      var t, l := Steps(c, s, ls[..|ls| - 1]), ls[|ls| - 1];
      RunGrows(c, s, ls[..|ls| - 1]);
      StepKeepsHandlers(c, t, l);
      StepGrows(c, t, l);
    }
  }

  /** A callback that an abort or a deactivation has disowned, called at any later point of any run: all that it leads
      to before it returns is inert. `ls` is what happens meanwhile. */
  lemma DisownedForever(c: Setup, s: State, before: seq<Label>, closure: Closure, ls: seq<Label>)
    requires HandlersOk(c, s.control) && Coherent(s.control.runs, s.control.handler, closure)
    requires StaleClosure(s.control.handler, closure)
    requires var u := Steps(c, s, before);
      !u.control.Top().Perform? && RunsAbove(c, u.Push(Invoke(closure)), ls, |u.control.stack|)
    ensures var u := Steps(c, s, before);
      KeepsAll(u.Push(Invoke(closure)), Steps(c, u.Push(Invoke(closure)), ls), |u.control.stack|, NeverSets(ls),
               NeverDrops(ls))
  {
    hide Step, ClosuresCoherent, StackCoherent, KeepsAll, RunsAbove, NeverSets, NeverDrops;
    var u := Steps(c, s, before);
    var v := u.Push(Invoke(closure));
    RunGrows(c, s, before);
    CoherentGrows(s.control, u.control, closure);
    PushKeeps(c, u.control, Invoke(closure));
    assert OnlyStale(v.control, |u.control.stack|);
    StaleCodeIsInert(c, v, ls, |u.control.stack|);
  }

  predicate CompletionOf(closure: Closure, h: nat) {
    match closure
    case ItemDone(g) => g == h
    case ResumeDone(g, _) => g == h
    case _ => false
  }

  /** In particular the completion of an item or of a resumption changes nothing at all. */
  lemma DisownedCompletionIsInert(c: Setup, s: State, ls: seq<Label>, closure: Closure, h: nat, answer: Answer)
    requires HandlersOk(c, s.control) && h < s.control.handler && CompletionOf(closure, h)
    ensures InvokeStep(c, Steps(c, s, ls), closure, answer) == Steps(c, s, ls)
  {
    hide Step, ClosuresCoherent, StackCoherent, InvokeStep;
    InvalidForever(c, s, ls, h);
    StaleInvoke(c, Steps(c, s, ls), closure, answer);
  }
}
