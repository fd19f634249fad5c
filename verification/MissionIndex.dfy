/** The mission index never leaves the mission: over every run it is empty or valid while the executor is
    inactive, and empty or at most one past the last item while it is active. */
module MissionIndex {
  import opened Wrappers
  import opened JsonValues
  import opened Missions
  import opened PersistentStates
  import opened MissionTypes
  import opened MissionSteps
  import opened MissionHandlers
  import opened MissionTokens

  predicate AtItem(s: State) {
    s.persistent.currentIndex.Some? && s.mission.IndexValid(s.persistent.currentIndex.value)
  }

  predicate IndexInRange(s: State) {
    && (s.persistent.currentIndex.Some? ==> 0 <= s.persistent.currentIndex.value <= |s.mission.items|)
    && (!s.active && s.persistent.currentIndex.Some? ==> AtItem(s))
  }

  /** A segment in flight for the current handler flies the items of the mission. */
  predicate FlightOfMission(s: State) {
    var f := s.control.flight;
    f.target.Some? && f.report.SegmentStep? && f.report.handler == s.control.handler ==> f.items == s.mission.items
  }

  /** At most one continuation is alive, none while inactive, and those that move the index find it valid. */
  ghost predicate Placed(c: Setup, s: State) {
    && HandlersOk(c, s.control)
    && Count(s.control, All) <= (if s.active then 1 else 0)
    && (Count(s.control, Resting) > 0 ==> AtItem(s))
    && IndexInRange(s)
    && FlightOfMission(s)
    && (s.hasValidMission ==> s.mission.items != [])
  }

  // ---- Continuations over one step ----

  /** A continuation may change its kind: the start of an item comes to need a valid index, and the end of a
      resumption comes to work on items. */
  function Becomes(s: State, f: Frame, w: Weight): nat {
    match f
    case StartItem(_, _) => if w.Resting? && AtItem(s) then 1 else 0
    case Activated(_, _) => if w.Working? then 1 else 0
    case Invoke(c) => if w.Working? && c.ResumeDone? && c.handler == s.control.handler then 1 else 0
    case _ => 0
  }

  /** Only an activation creates one. */
  function Created(s: State, l: Label, w: Weight): nat {
    if s.control.stack == [] then
      (if l.External? && l.event.Activate? && !s.active &&
        (w.All? || w.Resuming? || (w.Resting? && s.persistent.currentIndex.Some?))
       then 1 else 0)
    else Becomes(s, s.control.Top(), w)
  }

  /** What a call may add to the continuations: those of its frame, or the item that it starts. */
  function Brings(s: State, f: Frame, w: Weight): nat {
    TokFrame(s.control.handler, w, f) + Becomes(s, f, w)
  }

  lemma CallCarries(c: Setup, s: State, f: Frame, answer: Answer, w: Weight)
    requires HandlersCalm(c, s.control) && FrameCoherent(c, s.control.runs, s.control.handler, f)
    requires Calls(f) && !f.AbortMain?
    ensures Carries(s.control, CallStep(c, s, f, answer).control, w, Brings(s, f, w))
  {
    hide KeepsStore, KeepsSegment, SamePlace, SameButIndex, StartsNoSettings, StartsOnlyItem;
    var u := CallStep(c, s, f, answer);
    hide Leads, Carries, Count, ClosuresCoherent, StackCoherent, InvokeStep, PerformStep, ActivatedStep, RestoreStep,
      StartItemStep, AbortMainStep, Coherent;
    match f
    case Invoke(closure) => InvokeCarries(c, s, w, closure, answer);
    case Perform(_, _, _) =>
      assert Carries(s.control, CallStep(c, s, f, answer).control, w, Brings(s, f, w)) by {
        hide Leads, Carries, Count, ClosuresCoherent, StackCoherent, PerformStep, Coherent, Tok, HandlerMode,
          NavigateToPreviousWaypoint, RunModeStep, RunTrajectoryStep, StartResume;
        PerformLeads(c, s, w, f.name, f.arguments, f.done, answer);
        LeadsCarries(s.control, CallStep(c, s, f, answer).control, w, Tok(w, s.control.handler, f.done));
      }
    case Activated(h, fromBeginning) => ActivatedCarries(c, s, w, h, fromBeginning);
    case Restore(rest, h) => RestoreStepCarries(c, s, w, rest, h);
    case StartItem(_, _) =>
      assert Carries(s.control, CallStep(c, s, f, answer).control, w, Brings(s, f, w)) by {
        hide Leads, Carries, Count, ClosuresCoherent, StackCoherent, StartItemStep, Coherent, Tok, HandlerTrajectory,
          ModeFailed, ResumeFromUnexpectedLanding, KeepsStore, KeepsSegment, SamePlace, SameButIndex, StartsNoSettings,
          StartsOnlyItem;
        StartItemLeads(c, s, w, f.resuming, answer);
        LeadsCarries(s.control, CallStep(c, s, f, answer).control, w, Brings(s, f, w));
      }
  }

  lemma CallCounts(c: Setup, s: State, f: Frame, answer: Answer, w: Weight)
    requires HandlersCalm(c, s.control) && FrameCoherent(c, s.control.runs, s.control.handler, f) && Calls(f)
    ensures var t := CallStep(c, s, f, answer);
      t.control.handler >= s.control.handler && Count(t.control, w) <= Count(s.control, w) + Brings(s, f, w)
  {
    hide Carries, Count, ClosuresCoherent, StackCoherent, AbortMainStep, InvokeStep, PerformStep, ActivatedStep,
      RestoreStep, StartItemStep, FrameCoherent, Becomes, HandlersOk, SameButIndex, SamePlace, StartsNoSettings;
    if f.AbortMain? {
      AbortMainCounts(c, s, w, f.reason);
    } else {
      CallCarries(c, s, f, answer, w);
      CarriesOn(s.control, CallStep(c, s, f, answer).control, w, Brings(s, f, w));
    }
  }

  lemma ReturnCounts(c: Setup, s: State, f: Frame, w: Weight)
    requires OneValidHandler(s.control) && !Calls(f) && !InClient(f)
    ensures var t := ReturnStep(c, s, f);
      t.control.handler == s.control.handler &&
        Count(t.control, w) <= Count(s.control, w) + TokFrame(s.control.handler, w, f)
  {
    hide Count, ReturnStep;
    var k := s.control;
    ReturnControl(c, s, f);
    NoTimerCounts(k, w);
    PushCounts(k.(holdTimer := None), w, CleanupHooks);
    CountersCount(k, w, if k.abortLevel == 0 then 0 else k.abortLevel - 1, 0);
    if f.ArmTimer? {
      TimerCounts(k, w, f.done);
    }
  }

  lemma InternalCounts(c: Setup, s: State, answer: Answer, w: Weight)
    requires HandlersOk(c, s.control) && s.control.stack != []
    ensures Step(c, s, Internal(answer)).control.handler >= s.control.handler
    ensures Count(Step(c, s, Internal(answer)).control, w) <= Count(s.control, w) + Becomes(s, s.control.Top(), w)
  {
    hide Step, Count, ClosuresCoherent, StackCoherent, CallStep, ReturnStep, FrameCoherent, KeepsStore, KeepsSegment,
      SamePlace, SameButIndex, StartsNoSettings, StartsOnlyItem;
    var t, f := Popped(s), s.control.Top();
    if s.crashed {
      CrashedStep(c, s, Internal(answer));
    } else {
      PopKeeps(c, s.control);
      PopCounts(s.control, w);
      TopKnown(c, s.control);
      if Calls(f) {
        FrameStep(c, s, answer);
        CallCounts(c, t, f, answer, w);
      } else if InClient(f) {
        UnfitStep(c, s, Internal(answer));
      } else {
        ReturnFrame(c, s, answer);
        ReturnCounts(c, t, f, w);
      }
    }
  }

  lemma TopKnown(c: Setup, k: Control)
    requires HandlersOk(c, k) && k.stack != []
    ensures FrameCoherent(c, k.runs, k.handler, k.Top())
  {
    hide ClosuresCoherent, FrameCoherent;
  }

  lemma ReachIndexCounts(c: Setup, s: State, answer: Answer, w: Weight, positionValid: bool, reached: bool)
    requires HandlersOk(c, s.control) && s.control.stack == []
    ensures var t := UpdateSetpointStep(c, s, positionValid, reached);
      t.control.handler >= s.control.handler && Count(t.control, w) <= Count(s.control, w)
  {
    var target := s.control.flight.target;
    hide Leads, Carries, Count, StackCoherent, ReachIndex, StartAbort;
    StartAbortLeads(c, s, w, "trajectoryFailure", 0);
    LeadsOn(s.control, StartAbort(s, "trajectoryFailure").control, w, 0);
    if target.Some? {
      ReachIndexCarries(s, w, target.value);
      CarriesOn(s.control, ReachIndex(s, target.value).control, w, 0);
    }
  }

  lemma FailedCounts(c: Setup, s: State, w: Weight)
    requires HandlersOk(c, s.control) && s.control.stack == [] && s.control.scheduled.Some?
    ensures var t := ModeFailed(SetScheduled(s, None), s.control.scheduled.value.onFailure);
      t.control.handler >= s.control.handler && Count(t.control, w) <= Count(s.control, w)
  {
    hide Leads, Count, StackCoherent, ModeFailed, Tok, Coherent;
    var callback, t := s.control.scheduled.value, SetScheduled(s, None);
    CancelCounts(s.control, w);
    ScheduleKeeps(c, s.control, None);
    var extra := TokCallback(w, s.control.handler, callback.done, callback.onFailure);
    ModeFailedLeads(c, t, w, callback.onFailure, extra);
    LeadsOn(t.control, ModeFailed(t, callback.onFailure).control, w, extra);
  }

  lemma FinishedCounts(c: Setup, s: State, w: Weight, outcome: Outcome)
    requires HandlersOk(c, s.control) && s.control.stack == []
    ensures var t := FinishMode(s, outcome);
      t.control.handler >= s.control.handler && Count(t.control, w) <= Count(s.control, w)
  {
    hide Leads, Count, HandlersOk, ModeFailed, Tok;
    if s.control.scheduled.Some? {
      CancelCounts(s.control, w);
      PushCounts(SetScheduled(s, None).control, w, Invoke(s.control.scheduled.value.done));
      if outcome.Failed? {
        FailedCounts(c, s, w);
      }
    }
  }

  lemma CancelCounts(k: Control, w: Weight)
    requires k.scheduled.Some?
    ensures Count(k.(scheduled := None), w) +
      TokCallback(w, k.handler, k.scheduled.value.done, k.scheduled.value.onFailure)
         == Count(k, w)
  {
    hide Tok, TokReport, TokCallback, TokStack, TokRuns;
  }

  lemma FiredCounts(k: Control, w: Weight)
    requires k.holdTimer.Some?
    ensures Count(k.(holdTimer := None).Push(Invoke(k.holdTimer.value)), w) == Count(k, w)
  {
    hide Tok, TokReport, TokCallback, TokStack, TokRuns;
    PushCounts(k.(holdTimer := None), w, Invoke(k.holdTimer.value));
  }

  lemma ExternalCounts(c: Setup, s: State, event: Event, answer: Answer, w: Weight)
    requires HandlersOk(c, s.control) && s.control.stack == []
    ensures ExternalStep(c, s, event, answer).control.handler >= s.control.handler
    ensures Count(ExternalStep(c, s, event, answer).control, w)
         <= if event.Deactivate? && s.active then 0 else Count(s.control, w) + Created(s, External(event, answer), w)
  {
    hide Leads, Count, ClosuresCoherent, StackCoherent, OnActivate, OnDeactivate, UpdateSetpointStep, SetMissionStep,
      StartAbort, FinishMode;
    match event
    case Activate => ActivateCounts(c, s, w);
    case Deactivate => DeactivateCounts(c, s, w);
    case UpdateSetpoint(positionValid, reached) => ReachIndexCounts(c, s, answer, w, positionValid, reached);
    case ModeFinished(outcome) => FinishedCounts(c, s, w, outcome);
    case TimerFired =>
      if s.control.holdTimer.Some? {
        FiredCounts(s.control, w);
      }
    case ClientTurn(run) => PushCounts(s.control, w, Client(run));
    case AbortRequest =>
      StartAbortLeads(c, s, w, "other", 0);
      LeadsOn(s.control, StartAbort(s, "other").control, w, 0);
    case SetMission(mission) => SetMissionControl(c, s, mission);
    case _ =>
  }

  lemma CommandCounts(c: Setup, s: State, run: nat, command: Command, answer: Answer, w: Weight)
    requires HandlersOk(c, s.control) && s.control.Top() == Client(run)
    ensures CommandStep(c, s, run, command, answer).control.handler >= s.control.handler
    ensures Count(CommandStep(c, s, run, command, answer).control, w) <= Count(s.control, w)
  {
    hide Leads, Count, ClosuresCoherent, StackCoherent, CommandStep, KeepsSegment, SamePlace, SameButIndex;
    if run >= |s.control.runs| {
      NoSuchRun(c, s, run, command, answer);
    } else if command.Return? {
      PopCounts(s.control, w);
      ReturnPops(c, s, run, answer);
    } else {
      CommandLeads(c, s, w, run, command, answer);
      LeadsOn(s.control, CommandStep(c, s, run, command, answer).control, w, 0);
    }
  }

  lemma UserCounts(c: Setup, s: State, command: Command, answer: Answer, w: Weight)
    requires HandlersOk(c, s.control) && s.control.stack != []
    ensures Step(c, s, User(command, answer)).control.handler >= s.control.handler
    ensures Count(Step(c, s, User(command, answer)).control, w) <= Count(s.control, w)
  {
    hide Leads, Count, ClosuresCoherent, StackCoherent, CommandStep, StartAbort, DropStep, ExternalStep, Continue,
      KeepsStore, KeepsSegment, SamePlace, SameButIndex, StartsNoSettings;
    match s.control.Top()
    case Client(run) => CommandCounts(c, s, run, command, answer, w);
    case ActivatedHook =>
      PopCounts(s.control, w);
      StartAbortLeads(c, s, w, "other", 0);
      LeadsOn(s.control, StartAbort(s, "other").control, w, 0);
    case CleanupHooks =>
      PopCounts(s.control, w);
      if command.DropState? {
        DropControl(s, command.id);
      }
    case _ =>
  }

  lemma ReturnPops(c: Setup, s: State, run: nat, answer: Answer)
    requires run < |s.control.runs|
    ensures CommandStep(c, s, run, Return, answer) == Popped(s)
  {
    hide HandlerMode, HandlerTrajectory, RunActionStep, AddContinuousAction, DropStep, CompleteStep, SameButIndex,
      SamePlace, SetIndexStep, StoreStateStep;
  }

  predicate Deactivating(s: State, l: Label) {
    l.External? && l.event.Deactivate? && s.active && s.control.stack == [] && !s.crashed
  }

  /** The number of live continuations over one step. */
  lemma StepCounts(c: Setup, s: State, l: Label, w: Weight)
    requires HandlersOk(c, s.control)
    ensures Step(c, s, l).control.handler >= s.control.handler
    ensures Count(Step(c, s, l).control, w) <= if Deactivating(s, l) then 0 else Count(s.control, w) + Created(s, l, w)
  {
    hide Step, Count, ClosuresCoherent, StackCoherent, ExternalStep;
    if s.crashed {
      CrashedStep(c, s, l);
    } else if (s.control.stack == []) != l.External? {
      UnfitStep(c, s, l);
    } else {
      match l
      case Internal(answer) => InternalCounts(c, s, answer, w);
      case User(command, answer) => UserCounts(c, s, command, answer, w);
      case External(event, answer) =>
        EventStep(c, s, event, answer);
        ExternalCounts(c, s, event, answer, w);
    }
  }

  // ---- Where the executor is, over one step ----

  /** The mission stays, and the index stays or is set to an item of the mission. */
  ghost predicate Stays(s: State, t: State) {
    && t.mission == s.mission && t.hasValidMission == s.hasValidMission && t.active == s.active
    && FliesMission(s, t)
    && (t.persistent.currentIndex == s.persistent.currentIndex || AtItem(t))
  }

  /** The completion of an item is called. */
  predicate ItemEnds(k: Control) {
    match k.Top()
    case Invoke(ItemDone(_)) => true
    case _ => false
  }

  predicate Reaching(event: Event) {
    event.UpdateSetpoint? || event.SetMission? || event.ResetMission? || event.Activate? || event.Deactivate?
  }

  /** The steps that may leave the index where no item is. */
  predicate Advancing(s: State, l: Label) {
    if s.control.stack == [] then l.External? && Reaching(l.event) else ItemEnds(s.control)
  }

  lemma SamePlaceStays(s: State, t: State)
    ensures SameButIndex(s.(segments := t.segments), t) ==> Stays(s, t)
    ensures SamePlace(s, t) ==> Stays(s, t)
    ensures SamePlace(s.(file := t.file), t) ==> Stays(s, t)
    ensures SameButIndex(s, t) ==> Stays(s, t)
  {
    hide KeepsStore, KeepsSegment, StartsNoSettings, StartsOnlyItem;
  }

  lemma PoppedStays(s: State, t: State)
    requires Stays(Popped(s), t)
    ensures Stays(s, t)
  {
  }

  lemma StaysItself(s: State)
    ensures Stays(s, s) && Stays(s, Popped(s))
  {
    hide SamePlace;
  }

  lemma ExternalStays(c: Setup, s: State, event: Event, answer: Answer)
    requires !Reaching(event)
    ensures Stays(s, ExternalStep(c, s, event, answer))
  {
    hide Stays, SamePlace, StartAbort, FinishMode, FireTimer, OnActivate, OnDeactivate, UpdateSetpointStep,
      SetMissionStep, KeepsStore, KeepsSegment, StartsNoSettings, SameButIndex;
    StaysItself(s);
    match event
    case ModeFinished(outcome) => SamePlaceStays(s, FinishMode(s, outcome));
    case TimerFired => SamePlaceStays(s, FireTimer(s));
    case AbortRequest => SamePlaceStays(s, StartAbort(s, "other"));
    case ClientTurn(run) => PushStays(s, Client(run));
    case LandedChanged(landed) => NotedStays(s, landed, false);
    case ReadinessChanged(ready) => NotedStays(s, false, ready);
    case _ =>
  }

  lemma PushStays(s: State, f: Frame)
    ensures Stays(s, s.Push(f))
  {
  }

  lemma NotedStays(s: State, landed: bool, ready: bool)
    ensures Stays(s, s.(landed := landed)) && Stays(s, s.(actionsReady := ready))
  {
  }

  lemma StepStays(c: Setup, s: State, l: Label)
    requires !Advancing(s, l)
    ensures Stays(s, Step(c, s, l))
  {
    hide Stays, SamePlace, SameButIndex, ExternalStep, CallStep, ReturnStep, CommandStep, StartAbort, DropStep;
    StaysItself(s);
    SamePlaceStays(s, Step(c, s, l));
    match l
    case External(event, answer) =>
      if s.control.stack == [] {
        ExternalStays(c, s, event, answer);
      }
    case Internal(answer) =>
      var f := s.control.Top();
      if s.control.stack != [] && Calls(f) {
        assert Stays(Popped(s), CallStep(c, Popped(s), f, answer)) by {
          hide Stays, SamePlace, SameButIndex, CallStep;
          SamePlaceStays(Popped(s), CallStep(c, Popped(s), f, answer));
        }
        PoppedStays(s, CallStep(c, Popped(s), f, answer));
      } else if s.control.stack != [] && !InClient(f) {
        assert Stays(Popped(s), ReturnStep(c, Popped(s), f)) by {
          hide Stays, SamePlace, SameButIndex, ReturnStep;
          SamePlaceStays(Popped(s), ReturnStep(c, Popped(s), f));
        }
        PoppedStays(s, ReturnStep(c, Popped(s), f));
      }
    case User(_, _) =>
  }

  // ---- Index safety ----

  lemma {:induction false} TokMono(w: Weight, cur: nat, c: Closure)
    ensures Tok(w, cur, c) <= Tok(All, cur, c) && (w.Resting? ==> Tok(w, cur, c) == Tok(All, cur, c))
  {
    match c
    case TryDescend(_, done) => TokMono(w, cur, done);
    case AfterTakeoff(_, done, _) => TokMono(w, cur, done);
    case _ =>
  }

  lemma {:induction false} StackMono(w: Weight, cur: nat, stack: seq<Frame>)
    ensures TokStack(cur, w, stack) <= TokStack(cur, All, stack)
  {
    if stack != [] {
      StackMono(w, cur, stack[..|stack| - 1]);
      match stack[|stack| - 1]
      case Invoke(c) => TokMono(w, cur, c);
      case Perform(_, _, done) => TokMono(w, cur, done);
      case ArmTimer(done) => TokMono(w, cur, done);
      case _ =>
    }
  }

  lemma {:induction false} RunsMono(w: Weight, cur: nat, runs: seq<Run>, completed: set<nat>)
    ensures TokRuns(cur, w, runs, completed) <= TokRuns(cur, All, runs, completed)
  {
    if runs != [] {
      RunsMono(w, cur, runs[..|runs| - 1], completed);
      TokMono(w, cur, runs[|runs| - 1].done);
    }
  }

  lemma SlotsMono(w: Weight, k: Control)
    ensures TokSlots(k, w) <= TokSlots(k, All)
    ensures
      w.Resting? && k.flight.target.Some? && k.flight.report.SegmentStep? && k.flight.report.handler == k.handler ==>
        TokSlots(k, w) < TokSlots(k, All)
  {
    if k.scheduled.Some? {
      TokMono(w, k.handler, k.scheduled.value.done);
      if k.scheduled.value.onFailure.Some? {
        TokMono(w, k.handler, k.scheduled.value.onFailure.value);
      }
    }
    if k.holdTimer.Some? {
      TokMono(w, k.handler, k.holdTimer.value);
    }
    if k.flight.report.CustomStep? {
      TokMono(w, k.handler, k.flight.report.done);
    }
  }

  /** A mission segment in flight is a continuation that does not need a valid index. */
  lemma CountsMono(k: Control, w: Weight)
    ensures Count(k, w) <= Count(k, All)
    ensures
      w.Resting? && k.flight.target.Some? && k.flight.report.SegmentStep? && k.flight.report.handler == k.handler ==>
        Count(k, w) < Count(k, All)
  {
    hide TokStack, TokRuns, TokSlots;
    StackMono(w, k.handler, k.stack);
    RunsMono(w, k.handler, k.runs, k.completedRuns);
    SlotsMono(w, k);
  }

  /** Steps that stay in the mission. */
  lemma StayPlaced(c: Setup, s: State, l: Label)
    requires Placed(c, s) && !Advancing(s, l)
    ensures Placed(c, Step(c, s, l))
  {
    hide Step, Count, ClosuresCoherent, StackCoherent, FlightOfMission;
    StepKeepsHandlers(c, s, l);
    StepCounts(c, s, l, All);
    StepCounts(c, s, l, Resting);
    StepStays(c, s, l);
    FlightStays(s, Step(c, s, l));
  }

  lemma FlightStays(s: State, t: State)
    requires ClosuresCoherent(s.control) && FlightOfMission(s) && t.control.handler >= s.control.handler
    requires t.mission == s.mission && FliesMission(s, t)
    ensures FlightOfMission(t)
  {
  }

  /** The completion of an item is called, ignored, or not called at all. */
  lemma ItemDoneSteps(c: Setup, s: State, l: Label)
    requires HandlersOk(c, s.control) && ItemEnds(s.control)
    ensures Step(c, s, l) == s || Step(c, s, l) == Popped(s)
         || (s.control.Top() == Invoke(ItemDone(s.control.handler)) && Step(c, s, l) == RunNextItem(Popped(s)))
  {
    hide Step, RunNextItem, ResumeMission, HandlerMode, NavigateToPreviousWaypoint, ClosuresCoherent, StackCoherent;
    if s.crashed {
      CrashedStep(c, s, l);
    } else if !l.Internal? {
      UnfitStep(c, s, l);
    } else {
      match s.control.Top()
      case Invoke(closure) => InvokeFrame(c, s, closure, l.answer);
    }
  }

  lemma RunNextPlaced(c: Setup, s: State)
    requires Placed(c, s) && s.control.stack != [] && s.control.Top() == Invoke(ItemDone(s.control.handler))
    requires HandlersOk(c, RunNextItem(Popped(s)).control)
    ensures Placed(c, RunNextItem(Popped(s)))
  {
    hide Count, HandlersOk;
    var k := s.control;
    CountsMono(k, Resting);
    PopCounts(k, Resting);
    PopCounts(k, All);
    PushCounts(k.Popped(), Resting, StartItem(false, k.handler));
    PushCounts(k.Popped(), All, StartItem(false, k.handler));
  }

  /** The completion of an item advances the index at most to one past the last item. */
  lemma ItemDonePlaced(c: Setup, s: State, l: Label)
    requires Placed(c, s) && ItemEnds(s.control)
    ensures Placed(c, Step(c, s, l))
  {
    hide Step, Count, HandlersOk, RunNextItem;
    StepKeepsHandlers(c, s, l);
    ItemDoneSteps(c, s, l);
    if Step(c, s, l) == Popped(s) {
      assert Placed(c, Popped(s)) by {
        hide Count, StackCoherent, ClosuresCoherent, FliesMission;
        PopKeeps(c, s.control);
        PopCounts(s.control, Resting);
        PopCounts(s.control, All);
      }
    } else if Step(c, s, l) != s {
      RunNextPlaced(c, s);
    }
  }

  lemma FlightBounds(s: State, index: int)
    requires ClosuresCoherent(s.control) && FlightOfMission(s) && s.control.flight.target == Some(index)
    ensures var f := s.control.flight;
      && 0 <= index <= f.end
      && (f.report.SegmentStep? ==> f.report.end == f.end)
      && (f.report.SegmentStep? && f.report.handler == s.control.handler ==> f.end < |s.mission.items|)
      && (f.report.CustomStep? ==> f.report.end == f.end)
  {
    hide Coherent;
  }

  /** What reaching an index does outside the control. */
  lemma ReachIndexPlace(s: State, index: int)
    ensures var f, t := s.control.flight, ReachIndex(s, index);
      && t.active == s.active
      && t.persistent.currentIndex == (if f.report.SegmentStep? && s.control.IsValid(f.report.handler)
                                       then Some(index + 1) else s.persistent.currentIndex)
  {
    hide Reached, KeepsStore, StartsNoSettings;
  }

  lemma ReachIndexFlight(s: State, index: int)
    ensures var f, t := s.control.flight, ReachIndex(s, index);
      t.control.handler == s.control.handler && t.control.flight == f.(target := t.control.flight.target)
  {
    hide ReachIndex;
    ReachIndexControl(s, index);
  }

  lemma SegmentPlaced(c: Setup, s: State, index: int)
    requires Placed(c, s) && s.control.flight.target == Some(index) && s.control.stack == []
    ensures Placed(c, ReachIndex(s, index))
  {
    hide Count, Carries, StackCoherent, ClosuresCoherent, ReachIndex;
    var t := ReachIndex(s, index);
    FlightBounds(s, index);
    ReachIndexPlace(s, index);
    ReachIndexFlight(s, index);
    ReachIndexKeeps(c, s, index);
    ReachIndexCarries(s, All, index);
    ReachIndexCarries(s, Resting, index);
    CarriesOn(s.control, t.control, All, 0);
    CarriesOn(s.control, t.control, Resting, 0);
    CountsMono(s.control, Resting);
  }

  lemma AbortPlaced(c: Setup, s: State, reason: string)
    requires Placed(c, s)
    requires s.control.stack == []
    ensures Placed(c, StartAbort(s, reason))
  {
    hide Count, Leads, StackCoherent, ClosuresCoherent, StartAbort, FlightOfMission, SamePlace, AtItem;
    var t := StartAbort(s, reason);
    StartAbortKeeps(c, s, reason);
    StartAbortLeads(c, s, All, reason, 0);
    StartAbortLeads(c, s, Resting, reason, 0);
    LeadsOn(s.control, t.control, All, 0);
    LeadsOn(s.control, t.control, Resting, 0);
    SamePlaceOnly(s, t);
    FlightStays(s, t);
  }

  lemma SamePlaceOnly(s: State, t: State)
    requires SamePlace(s, t)
    ensures t.mission == s.mission && t.hasValidMission == s.hasValidMission && t.active == s.active &&
      FliesMission(s, t)
    ensures t.persistent.currentIndex == s.persistent.currentIndex && (AtItem(t) <==> AtItem(s))
  {
  }

  lemma UpdateSetpointPlaced(c: Setup, s: State, positionValid: bool, reached: bool)
    requires Placed(c, s) && s.control.stack == []
    ensures Placed(c, UpdateSetpointStep(c, s, positionValid, reached))
  {
    hide Placed, StartAbort, ReachIndex, KeepsStore, StartsNoSettings;
    AbortPlaced(c, s, "trajectoryFailure");
    if s.itemState == Trajectory && s.control.flight.target.Some? {
      SegmentPlaced(c, s, s.control.flight.target.value);
      NeverOutside(c, s);
    }
  }

  /** The waypoint that is flown to is always in bounds. */
  lemma NeverOutside(c: Setup, s: State)
    requires Placed(c, s) && s.control.flight.target.Some?
    ensures 0 <= s.control.flight.target.value < |s.control.flight.items|
  {
    hide Coherent, Count, StackCoherent;
  }

  lemma SetMissionPlaced(c: Setup, s: State, mission: Mission)
    requires Placed(c, s) && s.control.stack == []
    ensures Placed(c, SetMissionStep(c, s, mission))
  {
    hide Count, HandlersOk, Checksum, DecodeState;
    SetMissionControl(c, s, mission);
    CountsMono(s.control, Resting);
    assert ClosuresCoherent(s.control) by { PlacedClosures(c, s); }
  }

  lemma PlacedClosures(c: Setup, s: State)
    requires Placed(c, s)
    ensures ClosuresCoherent(s.control)
  {
    hide ClosuresCoherent, StackCoherent, Count;
  }

  lemma ResetPlaced(c: Setup, s: State)
    requires Placed(c, s) && s.control.stack == []
    ensures Placed(c, ExternalStep(c, s, ResetMission, Accepted))
  {
    hide Count, HandlersOk, UpdateSetpointStep, SetMissionStep, OnActivate, OnDeactivate, FinishMode, FireTimer,
      StartAbort;
    CountsMono(s.control, Resting);
    assert ClosuresCoherent(s.control) by { PlacedClosures(c, s); }
  }

  lemma ActivatePlaced(c: Setup, s: State)
    requires Placed(c, s) && s.control.stack == [] && !s.active
    ensures Placed(c, OnActivate(c, s))
  {
    hide Count, HandlersOk, StartAbort, FlightOfMission;
    IdleCalm(c, s.control);
    OnActivateKeeps(c, s);
    ActivateCounts(c, s, All);
    ActivateCounts(c, s, Resting);
    CountsMono(s.control, Resting);
    assert OnActivate(c, s).mission == s.mission && FliesMission(s, OnActivate(c, s)) by {
      hide StartAbort;
    }
    PlacedClosures(c, s);
    FlightStays(s, OnActivate(c, s));
  }

  lemma IdleCalm(c: Setup, k: Control)
    requires HandlersOk(c, k) && k.stack == []
    ensures HandlersCalm(c, k)
  {
    hide HandlersOk;
  }

  /** A done mission starts over; otherwise the index stays. */
  lemma DeactivateIndex(c: Setup, s: State)
    ensures var t := OnDeactivate(c, s);
      && !t.active && t.hasValidMission == s.hasValidMission && t.mission == s.mission
      && t.persistent.currentIndex == if MissionDone(Leave(s)) then None else s.persistent.currentIndex
  {
    hide Leave, ClearFile, MissionDone, PushStore;
  }

  lemma DoneMeaning(s: State)
    ensures MissionDone(Leave(s)) <==>
      s.persistent.currentIndex.Some?
      && (s.persistent.currentIndex.value >= |s.mission.items|
          || (s.landed && s.persistent.currentIndex.value == |s.mission.items| - 1))
  {
  }

  lemma DeactivatePlaced(c: Setup, s: State)
    requires Placed(c, s) && s.control.stack == [] && s.active
    ensures Placed(c, OnDeactivate(c, s))
  {
    hide Count, HandlersOk, ClosuresCoherent, OnDeactivate, FlightOfMission, MissionDone, Leave;
    var t := OnDeactivate(c, s);
    IdleCalm(c, s.control);
    PlacedClosures(c, s);
    DoneMeaning(s);
    OnDeactivateKeeps(c, s);
    DeactivateCounts(c, s, All);
    DeactivateCounts(c, s, Resting);
    DeactivateIndex(c, s);
    DeactivateFlies(c, s);
    FlightStays(s, t);
  }

  lemma DeactivateFlies(c: Setup, s: State)
    ensures OnDeactivate(c, s).mission == s.mission && FliesMission(s, OnDeactivate(c, s))
  {
    hide Leave, MissionDone, PushStore;
  }

  lemma StepPlaced(c: Setup, s: State, l: Label)
    requires Placed(c, s)
    ensures Placed(c, Step(c, s, l))
  {
    hide Placed, Step, ExternalStep, ItemEnds;
    if !Advancing(s, l) {
      StayPlaced(c, s, l);
    } else if s.control.stack != [] {
      ItemDonePlaced(c, s, l);
    } else if s.crashed {
      CrashedStep(c, s, l);
    } else {
      EventStep(c, s, l.event, l.answer);
      ExternalPlaced(c, s, l.event, l.answer);
    }
  }

  lemma ExternalPlaced(c: Setup, s: State, event: Event, answer: Answer)
    requires Placed(c, s) && s.control.stack == [] && Reaching(event)
    ensures Placed(c, ExternalStep(c, s, event, answer))
  {
    hide Placed, UpdateSetpointStep, SetMissionStep, OnActivate, OnDeactivate, FinishMode, FireTimer, StartAbort;
    match event
    case UpdateSetpoint(positionValid, reached) => UpdateSetpointPlaced(c, s, positionValid, reached);
    case SetMission(mission) => SetMissionPlaced(c, s, mission);
    case ResetMission => ResetPlaced(c, s);
    case Activate =>
      if !s.active {
        ActivatePlaced(c, s);
      }
    case Deactivate =>
      if s.active {
        DeactivatePlaced(c, s);
      }
  }

  /** The resume action reads the current item without a check (after a landing, past the first item). */
  predicate ReadsPastEnd(s: State, arguments: Json) {
    && arguments.At("action") == Success(Str("resume")) && s.landed
    && s.persistent.currentIndex.Some? && s.persistent.currentIndex.value != 0 && !AtItem(s)
  }

  /** Its only failures: no action string in the arguments, or that read. */
  lemma ResumeFailsIff(c: Setup, s: State, arguments: Json, done: Closure)
    requires !s.crashed
    ensures ResumeStep(c, s, arguments, done).crashed
       <==> (arguments.Contains("action") ==> !arguments.members["action"].Str?) || ReadsPastEnd(s, arguments)
  {
    hide ResumeFromUnexpectedLanding, CurrentSupportsResumeFromLanded, KeepsStore, KeepsSegment, SamePlace,
      SameButIndex, StartsNoSettings, StartsOnlyItem;
    var index := s.persistent.currentIndex.GetOr(0);
    if s.mission.IndexValid(index) {
      LandingNeverFails(c, s, done, index);
    }
  }

  lemma SkipNeverFails(s: State, index: int)
    requires s.mission.IndexValid(index)
    ensures SkipItem(s, index).crashed == s.crashed
  {
  }

  lemma LandingNeverFails(c: Setup, s: State, done: Closure, index: int)
    requires s.mission.IndexValid(index)
    ensures ResumeFromUnexpectedLanding(c, s, done, index).crashed == s.crashed
  {
    hide TakeoffBefore, ReturnsHome, RunActionStep, SkipItem, KeepsStore, KeepsSegment, StartsNoSettings, SameButIndex;
    SkipNeverFails(s, index);
  }

  /** Run on activation, or as an item of the mission, the resume action never reads past the end. */
  lemma ResumeReadsInBounds(c: Setup, s: State, name: string, arguments: Json, done: Closure)
    requires Placed(c, s) && s.control.Top() == Perform(name, arguments, done) && Tok(All, s.control.handler, done) > 0
    ensures !ReadsPastEnd(Popped(s), arguments)
  {
    hide HandlersOk, TokRuns, KeepsStore, KeepsSegment, SamePlace, SameButIndex, StartsNoSettings, StartsOnlyItem;
    TokMono(Resting, s.control.handler, done);
    PopCounts(s.control, Resting);
  }

  lemma InitialHandlers(c: Setup)
    ensures HandlersOk(c, NoControl)
  {
  }

  lemma InitialCounts(w: Weight)
    ensures Count(NoControl, w) == 0
  {
  }

  lemma InitialPlaced(c: Setup, file: Option<Json>)
    ensures Placed(c, Initial(file))
  {
    hide HandlersOk, Count;
    assert HandlersOk(c, NoControl) && Count(NoControl, All) == 0 && Count(NoControl, Resting) == 0 by {
      hide HandlersOk, Count;
      InitialHandlers(c);
      InitialCounts(All);
      InitialCounts(Resting);
    }
  }

  /** Over every run the index is in range, and no continuation finds it elsewhere. */
  lemma {:induction false} IndexSafety(c: Setup, file: Option<Json>, ls: seq<Label>)
    ensures Placed(c, Steps(c, Initial(file), ls))
  {
    hide Placed, Step, Initial;
    if ls == [] {
      InitialPlaced(c, file);
    } else {
      IndexSafety(c, file, ls[..|ls| - 1]);
      StepPlaced(c, Steps(c, Initial(file), ls[..|ls| - 1]), ls[|ls| - 1]);
    }
  }
}
