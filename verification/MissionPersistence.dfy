/** The saved state agrees with the one in memory: loading it into a fresh executor resumes at the same place with
    the same stored actions. */
module MissionPersistence {
  import opened Wrappers
  import opened JsonValues
  import opened Missions
  import opened OrderedMaps
  import opened PersistentStates
  import opened MissionTypes
  import opened MissionSteps
  import opened MissionHandlers
  import opened MissionTokens
  import opened MissionIndex
  import opened MissionAbort

  /** The file holds the state exactly when there is an item to resume at. */
  predicate FileAgrees(c: Setup, s: State) {
    c.persistent ==> s.file == if AtItem(s) then Some(EncodeState(s.persistent)) else None
  }

  // ---- Loading ----

  /** A saved state is loaded exactly when the mission has the same checksum and the index is one of its items. */
  lemma LoadedIff(c: Setup, p: PersistentState, m: Mission)
    ensures LoadedState(c, Some(EncodeState(p)), m)
         == if c.persistent && p.missionChecksum == Checksum(c.hash, m) && p.currentIndex.Some? &&
           m.IndexValid(p.currentIndex.value)
            then Some(p.(continuousActions := Renumbered(Values(p.continuousActions)))) else None
  {
    hide EncodeState, DecodeState, Checksum, Values;
    StateRoundTrip(p);
  }

  /** Loading the file into a fresh executor with the same mission. */
  lemma ReloadAgrees(c: Setup, s: State)
    requires c.persistent && FileAgrees(c, s) && ChecksumOk(c, s)
    requires s.persistent.currentIndex.Some? ==> AtItem(s)
    ensures var f := Step(c, Initial(s.file), External(SetMission(s.mission), Accepted));
      && f.mission == s.mission && ChecksumOk(c, f)
      && f.persistent.currentIndex == s.persistent.currentIndex
      && (s.persistent.currentIndex.Some? ==>
            && f.persistent.continuousActions == Renumbered(Values(s.persistent.continuousActions))
            && Values(f.persistent.continuousActions) == Values(s.persistent.continuousActions))
  {
    hide Step, EncodeState, DecodeState, Checksum, Values, Feasible, LoadedState, Renumbered, OnActivate, OnDeactivate,
      FinishMode, FireTimer, UpdateSetpointStep, StartAbort;
    EventStep(c, Initial(s.file), SetMission(s.mission), Accepted);
    LoadedIff(c, s.persistent, s.mission);
    RenumberedValues(Values(s.persistent.continuousActions));
    if !AtItem(s) {
      assert s.file == None;
      NothingToLoad(c, s.mission);
    }
  }

  lemma NothingToLoad(c: Setup, m: Mission)
    ensures LoadedState(c, None, m) == None
  {
  }

  // ---- The checksum ----

  /** The state carries the checksum of the mission; there is none without items. */
  predicate ChecksumOk(c: Setup, s: State) {
    s.mission.items != [] ==> s.persistent.missionChecksum == Checksum(c.hash, s.mission)
  }

  ghost predicate SameIdentity(s: State, t: State) {
    && t.mission == s.mission && t.hasValidMission == s.hasValidMission
    && t.persistent.missionChecksum == s.persistent.missionChecksum
  }

  lemma PlaceIdentity(s: State, t: State)
    ensures SamePlace(s, t) ==> SameIdentity(s, t)
    ensures SameButIndex(s, t) ==> SameIdentity(s, t)
    ensures SameButIndex(s.(segments := t.segments), t) ==> SameIdentity(s, t)
    ensures SamePlace(s.(file := t.file), t) ==> SameIdentity(s, t)
  {
    hide KeepsStore, KeepsSegment, StartsNoSettings, StartsOnlyItem;
  }

  lemma RunNextIdentity(s: State)
    ensures SameIdentity(s, RunNextItem(s))
  {
  }

  lemma InvokeIdentity(c: Setup, s: State, closure: Closure, answer: Answer)
    ensures SameIdentity(s, InvokeStep(c, s, closure, answer))
  {
    hide FliesMission, HandlerMode, KeepsSegment, KeepsStore, NavigateToPreviousWaypoint, ResumeMission,
      SetCurrentIndex, StartsNoSettings;
    PlaceIdentity(s, InvokeStep(c, s, closure, answer));
    if closure.ItemDone? {
      RunNextIdentity(s);
      hide RunNextItem;
    } else {
      hide InvokeStep;
    }
  }

  lemma CallIdentity(c: Setup, s: State, f: Frame, answer: Answer)
    requires Calls(f)
    ensures SameIdentity(s, CallStep(c, s, f, answer))
  {
    hide InvokeStep, PerformStep, ActivatedStep, RestoreStep, StartItemStep, AbortMainStep, SamePlace, SameButIndex;
    PlaceIdentity(s, CallStep(c, s, f, answer));
    if f.Invoke? {
      InvokeIdentity(c, s, f.c, answer);
    }
  }

  lemma EntryIdentity(c: Setup, s: State)
    ensures SameIdentity(s, OnDeactivate(c, s)) && SameIdentity(s, OnActivate(c, s))
  {
    hide StartAbort, Leave, MissionDone, ClearFile, PushStore;
  }

  lemma UpdateIdentity(c: Setup, s: State, positionValid: bool, reached: bool)
    ensures SameIdentity(s, UpdateSetpointStep(c, s, positionValid, reached))
  {
    hide StartAbort, ReachIndex, KeepsStore, StartsNoSettings;
  }

  lemma EventIdentity(c: Setup, s: State, event: Event, answer: Answer)
    requires !event.SetMission? && !event.ResetMission?
    ensures SameIdentity(s, ExternalStep(c, s, event, answer))
  {
    hide StartAbort, FinishMode, FireTimer, OnActivate, OnDeactivate, UpdateSetpointStep, SamePlace, SetMissionStep,
      KeepsStore, KeepsSegment, SameButIndex, StartsNoSettings, StartsOnlyItem;
    PlaceIdentity(s, ExternalStep(c, s, event, answer));
    match event
    case Activate => EntryIdentity(c, s);
    case Deactivate => EntryIdentity(c, s);
    case UpdateSetpoint(positionValid, reached) => UpdateIdentity(c, s, positionValid, reached);
    case _ =>
  }

  predicate InstallsMission(l: Label) {
    l.External? && (l.event.SetMission? || l.event.ResetMission?)
  }

  lemma StepIdentity(c: Setup, s: State, l: Label)
    requires !InstallsMission(l)
    ensures SameIdentity(s, Step(c, s, l))
  {
    hide ExternalStep, Continue, CommandStep, StartAbort, DropStep, SamePlace, SameButIndex, KeepsStore, KeepsSegment,
      StartsNoSettings, StartsOnlyItem;
    if s.control.stack == [] && l.External? {
      EventIdentity(c, s, l.event, l.answer);
    } else if s.control.stack != [] && l.Internal? {
      ContinueIdentity(c, s, l.answer);
    } else {
      PlaceIdentity(s, Step(c, s, l));
    }
  }

  lemma ContinueIdentity(c: Setup, s: State, answer: Answer)
    requires s.control.stack != []
    ensures SameIdentity(s, Continue(c, s, answer))
  {
    hide CallStep, ReturnStep, SamePlace, SameButIndex, KeepsStore, KeepsSegment, StartsNoSettings, StartsOnlyItem;
    var f := s.control.Top();
    if Calls(f) {
      CallIdentity(c, Popped(s), f, answer);
    } else if !InClient(f) {
      PlaceIdentity(Popped(s), ReturnStep(c, Popped(s), f));
    }
  }

  lemma SetMissionChecksum(c: Setup, s: State, event: Event, answer: Answer)
    requires ChecksumOk(c, s) && (event.SetMission? || event.ResetMission?)
    ensures ChecksumOk(c, ExternalStep(c, s, event, answer))
  {
    hide Checksum, DecodeState, Feasible, OnActivate, OnDeactivate, FinishMode, FireTimer, UpdateSetpointStep,
      StartAbort;
  }

  /** Once there is a mission with items, the checksum of the state is that of the mission. */
  lemma {:induction false} ChecksumAlways(c: Setup, file: Option<Json>, ls: seq<Label>)
    ensures ChecksumOk(c, Steps(c, Initial(file), ls))
  {
    hide Step, ExternalStep, Checksum;
    if ls != [] {
      var s, l := Steps(c, Initial(file), ls[..|ls| - 1]), ls[|ls| - 1];
      ChecksumAlways(c, file, ls[..|ls| - 1]);
      if s.crashed {
        CrashedStep(c, s, l);
      } else if l.External? && s.control.stack != [] {
        UnfitStep(c, s, l);
      } else if InstallsMission(l) {
        EventStep(c, s, l.event, l.answer);
        SetMissionChecksum(c, s, l.event, l.answer);
      } else {
        StepIdentity(c, s, l);
      }
    }
  }

  // ---- Saving ----

  /** The frames below the top are those of `k`. */
  ghost predicate KeepsBelow(k: Control, l: Control) {
    k.stack != [] && |l.stack| >= |k.stack| - 1 && l.stack[..|k.stack| - 1] == k.stack[..|k.stack| - 1]
  }

  /** A step touches at most the top frame of the stack. */
  lemma StepPrefix(c: Setup, s: State, l: Label)
    requires HandlersOk(c, s.control) && s.control.stack != []
    ensures KeepsBelow(s.control, Step(c, s, l).control)
  {
    hide ClosuresCoherent, StackCoherent, CommandStep, CallStep, ReturnStep, StartAbort, DropStep, ExternalStep,
      KeepsBelow, KeepsStore, KeepsSegment, SamePlace, SameButIndex, StartsNoSettings, StartsOnlyItem;
    PoppedKeepsBelow(s.control);
    match l
    case Internal(answer) =>
      if Calls(s.control.Top()) {
        CallPrefix(c, s, answer);
      } else if !InClient(s.control.Top()) {
        ReturnPrefix(c, s);
      }
    case User(command, answer) =>
      if InClient(s.control.Top()) {
        ClientCalm(c, s.control);
        assert KeepsBelow(s.control, StartAbort(s, "other").control) by {
          hide Count, ClosuresCoherent, StackCoherent, StartAbort;
          StartAbortLeads(c, s, All, "other", 0);
          ExtendsPrefix(s.control, StartAbort(s, "other").control, s.control);
        }
        match s.control.Top()
        case Client(run) =>
          assert KeepsBelow(s.control, CommandStep(c, s, run, command, answer).control) by {
            hide Count, ClosuresCoherent, StackCoherent, CommandStep;
            if run >= |s.control.runs| {
              NoSuchRun(c, s, run, command, answer);
            } else if command.Return? {
              ReturnPops(c, s, run, answer);
            } else {
              CommandLeads(c, s, All, run, command, answer);
              ExtendsPrefix(s.control, CommandStep(c, s, run, command, answer).control, s.control);
            }
          }
        case _ => DropsControl(s, command);
      }
    case External(_, _) =>
  }

  lemma DropsControl(s: State, command: Command)
    ensures match command case DropState(id) => DropStep(s, id).control == s.control case _ => true
  {
    hide SamePlace;
  }

  lemma PoppedKeepsBelow(k: Control)
    requires k.stack != []
    ensures KeepsBelow(k, k.Popped()) && KeepsBelow(k, k)
  {
  }

  lemma ClientCalm(c: Setup, k: Control)
    requires HandlersOk(c, k) && k.stack != [] && InClient(k.Top())
    ensures HandlersCalm(c, k)
  {
    hide ClosuresCoherent, StackCoherent;
  }

  lemma ExtendsPrefix(m: Control, l: Control, k: Control)
    requires Extends(m, l) && k.stack != [] && (m.stack == k.stack || m.stack == k.Popped().stack)
    ensures KeepsBelow(k, l)
  {
    assert l.stack[..|k.stack| - 1] == l.stack[..|m.stack|][..|k.stack| - 1];
  }

  lemma CallPrefix(c: Setup, s: State, answer: Answer)
    requires HandlersOk(c, s.control) && s.control.stack != [] && Calls(s.control.Top())
    ensures KeepsBelow(s.control, CallStep(c, Popped(s), s.control.Top(), answer).control)
  {
    hide Count, ClosuresCoherent, StackCoherent, InvokeStep, PerformStep, ActivatedStep, RestoreStep, StartItemStep,
      AbortMainStep, FailureArguments, FrameCoherent, AtItem, KeepsStore, KeepsSegment, SamePlace, SameButIndex,
      StartsNoSettings, StartsOnlyItem;
    var t, f := Popped(s), s.control.Top();
    PopKeeps(c, s.control);
    TopCoherent(c, s.control);
    if f.AbortMain? {
      AbortMainControl(c, t, f.reason);
    } else {
      CallCarries(c, t, f, answer, All);
      ExtendsPrefix(t.control, CallStep(c, t, f, answer).control, s.control);
    }
  }

  lemma ReturnPrefix(c: Setup, s: State)
    requires s.control.stack != [] && !Calls(s.control.Top()) && !InClient(s.control.Top())
    ensures KeepsBelow(s.control, ReturnStep(c, Popped(s), s.control.Top()).control)
  {
    hide ReturnStep;
    ReturnControl(c, Popped(s), s.control.Top());
  }

  predicate CleaningUp(stack: seq<Frame>) {
    stack == [] || (|stack| == 1 && (stack[0] == Cleanup || stack[0] == CleanupHooks))
  }

  /** A deactivation on its way: the state is saved once the resume action has had its turn. */
  predicate Leaving(c: Setup, s: State) {
    && !s.active
    && (|| (|s.control.stack| >= 2 && s.control.stack[0] == Cleanup && s.control.stack[1] == SaveState)
        || (CleaningUp(s.control.stack) && FileAgrees(c, s)))
  }

  lemma DeactivateLeaves(c: Setup, s: State)
    requires s.control.stack == []
    ensures Leaving(c, OnDeactivate(c, s))
  {
    hide Leave, MissionDone, EncodeState, SamePlace;
    LeaveStackOf(s);
    if MissionDone(Leave(s)) {
      hide PushStore;
      assert OnDeactivate(c, s).persistent.currentIndex == None;
    } else {
      hide FileAgrees, ClearFile, ResetMissionState;
    }
  }

  lemma LeaveStackOf(s: State)
    ensures Leave(s).control.stack == s.control.stack
  {
  }

  lemma SaveLeaves(c: Setup, s: State)
    requires Placed(c, s) && !s.active && s.control.stack == [Cleanup, SaveState]
    ensures Leaving(c, ReturnStep(c, Popped(s), SaveState))
  {
    hide Count, HandlersOk, EncodeState, DeactivateDefaults;
  }

  lemma CleanupLeaves(c: Setup, s: State)
    requires Leaving(c, s) && s.control.stack == [Cleanup]
    ensures Leaving(c, ReturnStep(c, Popped(s), Cleanup))
  {
    hide EncodeState, SaveStep, Store.Dropped;
  }

  lemma StepLeaves(c: Setup, s: State, l: Label)
    requires Placed(c, s) && Leaving(c, s) && s.control.stack != []
    ensures Leaving(c, Step(c, s, l))
  {
    hide HandlersOk, Count, FileAgrees, Step, ReturnStep, DropStep;
    var n := |s.control.stack| - 1;
    if s.crashed {
      CrashedStep(c, s, l);
    } else if n >= 2 {
      var t := Step(c, s, l);
      StepPrefix(c, s, l);
      StaysActive(c, s, l);
      assert t.control.stack[0] == t.control.stack[..n][0] && t.control.stack[1] == t.control.stack[..n][1];
    } else if s.control.Top() == CleanupHooks {
      HooksStepLeaves(c, s, l);
    } else if !l.Internal? {
      UnfitStep(c, s, l);
    } else {
      ReturnFrame(c, s, l.answer);
      if n == 1 {
        assert s.control.stack == [Cleanup, SaveState];
        SaveLeaves(c, s);
      } else {
        assert s.control.stack == [Cleanup];
        CleanupLeaves(c, s);
      }
    }
  }

  lemma HooksStepLeaves(c: Setup, s: State, l: Label)
    requires Leaving(c, s) && s.control.stack == [CleanupHooks] && !s.crashed
    ensures Leaving(c, Step(c, s, l))
  {
    hide EncodeState, ExternalStep, CommandStep, Continue, StartAbort, KeepsStore, KeepsSegment, SamePlace,
      SameButIndex, StartsNoSettings, StartsOnlyItem;
  }

  lemma StaysActive(c: Setup, s: State, l: Label)
    requires s.control.stack != []
    ensures Step(c, s, l).active == s.active
  {
    hide CallStep, ReturnStep, ExternalStep, CommandStep, StartAbort, DropStep, KeepsStore, KeepsSegment,
      StartsNoSettings, StartsOnlyItem;
    if l.Internal? && Calls(s.control.Top()) {
      CallActive(c, Popped(s), s.control.Top(), l.answer);
    }
  }

  lemma CallActive(c: Setup, s: State, f: Frame, answer: Answer)
    requires Calls(f)
    ensures CallStep(c, s, f, answer).active == s.active
  {
    hide InvokeStep, PerformStep, ActivatedStep, RestoreStep, StartItemStep, AbortMainStep, KeepsStore, KeepsSegment,
      StartsNoSettings, StartsOnlyItem;
    match f
    case Invoke(ItemDone(h)) => ItemDoneActive(c, s, h, answer);
    case _ =>
  }

  lemma ItemDoneActive(c: Setup, s: State, h: nat, answer: Answer)
    ensures InvokeStep(c, s, ItemDone(h), answer).active == s.active
  {
    hide HandlerMode, NavigateToPreviousWaypoint, ResumeMission;
  }

  predicate NoEvents(ls: seq<Label>) {
    forall i :: 0 <= i < |ls| ==> !ls[i].External?
  }

  lemma {:induction false} LeavingRun(c: Setup, s: State, ls: seq<Label>)
    requires Placed(c, s) && Leaving(c, s) && NoEvents(ls)
    ensures Placed(c, Steps(c, s, ls)) && Leaving(c, Steps(c, s, ls))
  {
    hide Placed, Leaving, Step;
    if ls != [] {
      var t, l := Steps(c, s, ls[..|ls| - 1]), ls[|ls| - 1];
      LeavingRun(c, s, ls[..|ls| - 1]);
      StepPlaced(c, t, l);
      if t.control.stack != [] {
        StepLeaves(c, t, l);
      } else {
        UnfitStep(c, t, l);
      }
    }
  }

  /** A deactivated executor and a fresh one that loads its file resume at the same item with the same stored
      actions, renumbered from zero; both start from the beginning when the mission was done. `ls` is what client
      code and the executor do until the deactivation is over. */
  lemma PersistedResumeAgrees(c: Setup, file: Option<Json>, run: seq<Label>, ls: seq<Label>)
    requires c.persistent && NoEvents(ls)
    requires var s := Steps(c, Initial(file), run);
      && s.active && s.control.stack == [] && !s.crashed
      && Steps(c, OnDeactivate(c, s), ls).control.stack == []
    ensures var s := Steps(c, Initial(file), run);
      var t := Steps(c, OnDeactivate(c, s), ls);
      var f := Step(c, Initial(t.file), External(SetMission(t.mission), Accepted));
      && f.mission == t.mission
      && (t.mission.items != [] ==> f.persistent.missionChecksum == t.persistent.missionChecksum)
      && f.persistent.currentIndex == t.persistent.currentIndex
      && (t.persistent.currentIndex.Some? ==>
            && AtItem(t)
            && f.persistent.continuousActions == Renumbered(Values(t.persistent.continuousActions))
            && Values(f.persistent.continuousActions) == Values(t.persistent.continuousActions))
  {
    hide Placed, Step, FileAgrees, Checksum, Leaving, Values, OnDeactivate;
    var s := Steps(c, Initial(file), run);
    var t := Steps(c, OnDeactivate(c, s), ls);
    IndexSafety(c, file, run);
    ChecksumAlways(c, file, run);
    DeactivatePlaced(c, s);
    DeactivateLeaves(c, s);
    LeavingRun(c, OnDeactivate(c, s), ls);
    LeavingIdentity(c, s, ls);
    LeftIdle(c, t);
    ReloadAgrees(c, t);
  }

  lemma LeftIdle(c: Setup, t: State)
    requires Placed(c, t) && Leaving(c, t) && t.control.stack == []
    ensures FileAgrees(c, t) && (t.persistent.currentIndex.Some? ==> AtItem(t))
  {
    hide FileAgrees, HandlersOk, Count;
  }

  lemma {:induction false} LeavingIdentity(c: Setup, s: State, ls: seq<Label>)
    requires NoEvents(ls)
    ensures SameIdentity(s, Steps(c, OnDeactivate(c, s), ls))
  {
    hide Step, OnDeactivate, DeactivateDefaults;
    if ls == [] {
      EntryIdentity(c, s);
    } else {
      LeavingIdentity(c, s, ls[..|ls| - 1]);
      StepIdentity(c, Steps(c, OnDeactivate(c, s), ls[..|ls| - 1]), ls[|ls| - 1]);
    }
  }
}
