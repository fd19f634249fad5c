/** The mission executor as an object: each method changes the fields in place, in the order of the original. A call
    that leaves the executor is a frame that is pushed; `Step` runs the innermost one, or what arrives, and is proved to
    be the transition that the theorems are about, so they hold of the object after any run. */
module MissionExecutors {
  import opened Wrappers
  import opened JsonValues
  import opened Missions
  import opened OrderedMaps
  import opened PersistentStates
  import opened MissionTypes
  import opened MissionSteps
  import opened Segments
  import MissionResume
  import MissionOptions
  import opened MissionHandlers
  import opened MissionTokens
  import opened MissionIndex
  import opened MissionAbort

  /** The trajectory executor has moved on before the index is told. */
  lemma ReachesInOrder(s: State, u: State, index: int)
    requires u == s.(control := HeadOn(s.control, index))
    ensures ReachIndex(s, index) ==
            match s.control.flight.report
            case NoReport => u
            case SegmentStep(h, end) =>
              if !s.control.IsValid(h) then u
              else if index == end then SetCurrentIndex(u, index + 1).Push(StartItem(false, h))
              else SetCurrentIndex(u, index + 1)
            case CustomStep(done, end) => if index == end then u.Push(Invoke(done)) else u
  {
    hide KeepsStore, StartsNoSettings;
  }

  class MissionExecutor {
    const setup: Setup
    // the mission and the state that is saved
    var mission: Mission
    var currentIndex: Option<int>
    var missionChecksum: string
    var continuousActions: map<nat, ActionState>
    var nextContinuousActionId: nat
    var hasValidMission: bool
    var actionsReady: bool
    var file: Option<Json>
    // what is running
    var isActive: bool
    var missionItemState: ItemState
    var activeMode: nat
    var trajectoryOptions: TrajectoryOptions
    var settingsState: Option<nat>              // the token of the action `changeSettings`
    var clientKeepers: map<nat, ActionState>
    var landed: bool
    // who is to be called
    var valid: set<nat>              // the handlers that have not been invalidated
    var actionHandler: nat
    var runs: seq<Run>
    var completedRuns: set<nat>
    var scheduled: Option<ModeCallback>
    var holdTimer: Option<Closure>
    var flight: Flight
    var abortRecursionLevel: nat
    var failureRuns: nat
    var stack: seq<Frame>
    var crashed: bool
    // what has been reported and flown
    var reports: seq<Report>
    var segments: seq<(int, int)>

    ghost function View(): State
      reads this
    {
      State(mission, PersistentState(currentIndex, missionChecksum, continuousActions), nextContinuousActionId,
            hasValidMission, actionsReady, isActive, missionItemState, activeMode, trajectoryOptions, settingsState,
            clientKeepers, file, landed,
            Control(valid, actionHandler, runs, completedRuns, scheduled, holdTimer, flight, abortRecursionLevel,
                    failureRuns, stack),
            crashed, reports, segments)
    }

    constructor (setup: Setup, file: Option<Json>)
      ensures this.setup == setup && View() == Initial(file)
    {
      this.setup, this.file := setup, file;
      mission, currentIndex, missionChecksum, continuousActions := EmptyMission, None, "", map[];
      nextContinuousActionId, hasValidMission, actionsReady := 0, false, false;
      isActive, missionItemState, activeMode, trajectoryOptions := false, Other, 0, NoOptions;
      settingsState, clientKeepers, landed := None, map[], false;
      valid, actionHandler, runs, completedRuns := {0}, 0, [], {};
      scheduled, holdTimer, flight, abortRecursionLevel, failureRuns, stack := None, None, NoFlight, 0, 0, [];
      crashed, reports, segments := false, [], [];
    }

    method Push(f: Frame)
      modifies this`stack
      ensures View() == old(View()).Push(f)
    {
      stack := stack + [f];
    }

    // ---- Index and stored actions ----

    method SetCurrentMissionIndex(index: int)
      modifies this`currentIndex, this`reports
      ensures View() == SetCurrentIndex(old(View()), index)
    {
      currentIndex := Some(index);
      if index >= |mission.items| {
        reports := reports + [Completed];
      } else {
        reports := reports + [Progress(index)];
      }
    }

    method ResetMissionState()
      modifies this`currentIndex, this`continuousActions
      ensures View() == MissionSteps.ResetMissionState(old(View()))
    {
      currentIndex := None;
      continuousActions := map[];
    }

    method AddContinuousAction(a: ActionState) returns (id: nat)
      modifies this`nextContinuousActionId, this`continuousActions
      ensures View() == MissionSteps.AddContinuousAction(old(View()), a) && id == old(nextContinuousActionId)
    {
      id := nextContinuousActionId;
      nextContinuousActionId := nextContinuousActionId + 1;
      continuousActions := continuousActions[id := a];
    }

    /** The destructor of a token. */
    method RemoveContinuousAction(id: nat)
      modifies this`continuousActions
      ensures View() == MissionSteps.RemoveContinuousAction(old(View()), id)
    {
      if !isActive {
        return;
      }
      continuousActions := continuousActions - {id};
    }

    method ResetSettingsState()
      modifies this`continuousActions, this`settingsState
      ensures View() == DropSettingsKeeper(old(View()))
    {
      if settingsState.Some? {
        RemoveContinuousAction(settingsState.value);
        settingsState := None;
      }
    }

    // ---- Aborting ----

    method InvalidateActionHandler()
      modifies this`valid, this`actionHandler
      ensures View() == InvalidateHandler(old(View()))
    {
      valid := valid - {actionHandler};
      actionHandler := actionHandler + 1;
      valid := valid + {actionHandler};
    }

    method DeactivateAllActions()
      modifies this`continuousActions, this`settingsState, this`holdTimer
      ensures View() == DeactivateDefaults(old(View()))
    {
      hide DropSettingsKeeper;
      ResetSettingsState();
      holdTimer := None;
    }

    method Abort(reason: string)
      modifies this
      ensures View() == StartAbort(old(View()), reason)
    {
      hide InvalidateHandler, DeactivateDefaults;
      InvalidateActionHandler();
      if abortRecursionLevel > 10 {
        return;
      }
      DeactivateAllActions();
      Push(AbortMain(reason));
      Push(CleanupHooks);
    }

    /** The outermost abort counts the failure actions from zero. */
    method EnterAbort()
      modifies this`abortRecursionLevel, this`failureRuns, this`stack
      ensures View() == MissionSteps.EnterAbort(old(View()))
    {
      if abortRecursionLevel == 0 {
        failureRuns := 0;
      }
      abortRecursionLevel := abortRecursionLevel + 1;
      Push(AbortEnd);
    }

    method CountFailure()
      modifies this`failureRuns
      ensures View() == MissionSteps.CountFailure(old(View()))
    {
      failureRuns := failureRuns + 1;
    }

    /** The failure action of an abort. */
    method RunFailureAction(reason: string)
      modifies this
      ensures View() == AbortMainStep(setup, old(View()), reason)
    {
      hide RunActionStep, MissionSteps.EnterAbort, MissionSteps.CountFailure, FailureArguments;
      if "onFailure" !in setup.actions {
        return;
      }
      EnterAbort();
      var arguments := BuildFailureArguments(reason);
      if isActive {
        CountFailure();
        RunAction("onFailure", arguments, Nop);
      }
    }

    method BuildFailureArguments(reason: string) returns (arguments: Json)
      ensures arguments == FailureArguments(View(), reason)
    {
      var fields := map["recursionLevel" := Int(abortRecursionLevel), "reason" := Str(reason)];
      if currentIndex.Some? {
        fields := fields["currentIndex" := Int(currentIndex.value)];
      }
      arguments := Obj(fields);
    }

    // ---- Running modes, actions and trajectories ----

    method ModeFailed(onFailure: Option<Closure>)
      modifies this
      ensures View() == MissionSteps.ModeFailed(old(View()), onFailure)
    {
      hide StartAbort;
      activeMode := 0;
      match onFailure
      case Some(c) => Push(Invoke(c));
      case None => Abort("modeFailure");
    }

    /** The mode executor cancels the scheduled mode, whose callback ignores that, unless the vehicle is not armed. */
    method ScheduleMode(done: Closure, onFailure: Option<Closure>, answer: Answer)
      modifies this`scheduled
      ensures View() == if answer.Accepted? then SetScheduled(old(View()), Some(ModeCallback(done, onFailure)))
                        else if answer.NotArmed? then old(View()) else SetScheduled(old(View()), None)
    {
      if answer.Accepted? {
        scheduled := Some(ModeCallback(done, onFailure));
      } else if !answer.NotArmed? {
        scheduled := None;
      }
    }

    method EnterMode(mode: nat)
      modifies this`missionItemState, this`activeMode
      ensures View() == old(View()).(itemState := Other, activeMode := mode)
    {
      missionItemState := Other;
      activeMode := mode;
    }

    method RunMode(mode: nat, done: Closure, onFailure: Option<Closure>, answer: Answer)
      modifies this
      ensures View() == RunModeStep(old(View()), mode, done, onFailure, answer)
    {
      hide MissionSteps.ModeFailed;
      if !isActive {
        return;
      }
      EnterMode(mode);
      ScheduleMode(done, onFailure, answer);
      if !answer.Accepted? {
        ModeFailed(onFailure);
      }
    }

    method RunAction(name: string, arguments: Json, done: Closure)
      modifies this
      ensures View() == RunActionStep(setup, old(View()), name, arguments, done)
    {
      hide StartAbort;
      if !isActive {
        return;
      }
      missionItemState := Other;
      if name !in setup.actions {
        Abort("actionDoesNotExist");
      } else {
        Push(Perform(name, arguments, done));
      }
    }

    method TakeOff(f: Flight)
      modifies this`flight
      ensures View() == SetFlight(old(View()), f)
    {
      flight := f;
    }

    method RunTrajectory(items: seq<MissionItem>, start: int, end: int, report: IndexCallback, stop: bool,
        answer: Answer)
      modifies this
      ensures View() == RunTrajectoryStep(setup, old(View()), items, start, end, report, stop, answer)
    {
      hide RunModeStep;
      if !isActive {
        return;
      }
      TakeOff(Flight(items, trajectoryOptions, end, stop, report, Some(start)));
      if activeMode != setup.ownMode {
        Push(EnterTrajectory);  // the state is set after the mode switch
        RunMode(setup.ownMode, Nop, None, answer);
      } else {
        missionItemState := Trajectory;
      }
    }

    /** The command of a handler: waypoints only, otherwise the mission is aborted. */
    method RunTrajectoryFor(h: nat, items: seq<MissionItem>, done: Closure, stop: bool, answer: Answer)
      modifies this
      ensures View() == HandlerTrajectory(setup, old(View()), h, items, done, stop, answer)
    {
      hide RunTrajectoryStep, StartAbort;
      if h !in valid {
        return;
      }
      if items == [] {
        Push(Invoke(done));
        return;
      }
      for i := 0 to |items|
        invariant View() == old(View())
        invariant forall k :: 0 <= k < i ==> items[k].NavigationItem?
      {
        if items[i].ActionItem? {
          Abort("trajectoryFailure");
          return;
        }
      }
      RunTrajectory(items, 0, |items| - 1, CustomStep(done, |items| - 1), stop, answer);
    }

    // ---- Mission items ----

    method RunNextMissionItem()
      modifies this
      ensures View() == RunNextItem(old(View()))
    {
      var index := 0;
      if currentIndex.Some? {
        index := currentIndex.value + 1;
      }
      SetCurrentMissionIndex(index);
      Push(StartItem(false, actionHandler));
    }

    method RunSegment(index: nat, answer: Answer)
      requires index < |mission.items|
      modifies this
      ensures var s, end := old(View()), SegmentEnd(old(mission.items), index);
        View() == RunTrajectoryStep(setup,
          s.(segments := if s.active then s.segments + [(index as int, end as int)] else s.segments),
                                    s.mission.items, index, end, SegmentStep(s.control.handler, end),
                                    SegmentStop(setup, s.mission.items, end), answer)
    {
      hide RunTrajectoryStep;
      var end, stop := GetNextTrajectorySegment(setup, mission.items, index);
      SegmentStopMeaning(setup, mission.items, end);
      if isActive {
        segments := segments + [(index as int, end as int)];
      }
      RunTrajectory(mission.items, index, end, SegmentStep(actionHandler, end), stop, answer);
    }

    method RunCurrentMissionItem(resuming: bool, answer: Answer)
      modifies this
      ensures View() == StartItemStep(setup, old(View()), resuming, answer)
    {
      hide RunModeStep, RunActionStep, RunTrajectoryStep;
      if currentIndex.None? {
        RunMode(LOITER, Nop, None, answer);
        return;
      }
      var index := currentIndex.value;
      if !mission.IndexValid(index) {
        if activeMode == setup.ownMode {
          RunMode(LOITER, Nop, None, answer);
        }
        return;
      }
      match mission.items[index]
      case NavigationItem(_, _) => RunSegment(index, answer);
      case ActionItem(_, name, arguments) =>
        var given := arguments;
        if resuming {
          var put := arguments.Put("internal:resuming", Bool(true));
          if put.Failure? {
            crashed := true;
            return;
          }
          given := put.value;
        }
        RunAction(name, given, ItemDone(actionHandler));
    }

    method RunStoredActions()
      modifies this`continuousActions, this`stack
      ensures View() == MissionSteps.RunStoredActions(old(View()))
    {
      var actions := continuousActions;
      continuousActions := map[];
      Push(Restore(Values(actions), actionHandler));
    }

    // ---- The default actions that change the executor ----

    method SetTrajectoryOptions(options: TrajectoryOptions)
      modifies this`trajectoryOptions
      ensures View() == old(View()).(options := old(trajectoryOptions).CombinedWith(options))
    {
      trajectoryOptions := trajectoryOptions.CombinedWith(options);
    }

    method ClearTrajectoryOptions()
      modifies this`trajectoryOptions
      ensures View() == old(View()).(options := mission.defaults)
    {
      trajectoryOptions := mission.defaults;
    }

    method HoldSettings(id: nat)
      modifies this`settingsState
      ensures View() == old(View()).(settingsKeeper := Some(id))
    {
      settingsState := Some(id);
    }

    /** An exception leaves the executor. */
    method Fail()
      modifies this`crashed
      ensures View() == old(View()).(crashed := true)
    {
      crashed := true;
    }

    /** Assigning the new token destroys the old one, after the new entry was added. */
    method StoreNewSettings(options: TrajectoryOptions)
      modifies this
      ensures View() == StoreSettings(old(View()), options)
    {
      hide EncodeOptions, DropSettingsKeeper, MissionSteps.AddContinuousAction, TrajectoryOptions.CombinedWith;
      SetTrajectoryOptions(options);
      var id := AddContinuousAction(ActionState("changeSettings", EncodeOptions(options)));
      ResetSettingsState();
      HoldSettings(id);
    }

    method ResetSettings()
      modifies this
      ensures View() == DropSettingsKeeper(old(View()).(options := mission.defaults)) && mission == old(mission)
    {
      hide DropSettingsKeeper;
      ClearTrajectoryOptions();
      ResetSettingsState();
    }

    method ChangeSettings(arguments: Json) returns (changed: bool)
      modifies this
      ensures var r := ChangedSettings(old(View()), arguments);
        changed == r.Success? && View() == if r.Success? then r.value else old(View())
      ensures MissionOptions.Resets(arguments) ==>
        changed && trajectoryOptions == mission.defaults && settingsState == None
      ensures changed && !MissionOptions.Resets(arguments) ==>
        && MissionOptions.Keeps(arguments)
        && MissionOptions.Changes(arguments, old(trajectoryOptions), trajectoryOptions)
        && settingsState == Some(old(nextContinuousActionId))
    {
      hide MergedOptions, ResetsAll, StoreSettings, DropSettingsKeeper, MissionOptions.Resets, MissionOptions.Keeps,
        MissionOptions.Changes;
      MissionOptions.ResetIsRead(arguments);
      var reset := ResetsAll(arguments);
      if reset.Failure? {
        return false;
      }
      if reset.value {
        ResetSettings();
        return true;
      }
      var options := MergedOptions(trajectoryOptions, arguments);
      if options.Failure? {
        return false;
      }
      MissionOptions.ChangeIsRead(trajectoryOptions, arguments, options.value);
      StoreNewSettings(options.value);
      changed := true;
    }

    method RunChangeSettings(arguments: Json, done: Closure)
      modifies this
      ensures View() == ChangeSettingsStep(old(View()), arguments, done)
    {
      hide ChangedSettings;
      var changed := ChangeSettings(arguments);
      if changed {
        Push(Invoke(done));
      } else {
        Fail();
      }
    }

    method RunOnResume(arguments: Json, done: Closure)
      modifies this
      ensures View() == ResumeStep(setup, old(View()), arguments, done)
    {
      hide ResumeFromUnexpectedLanding;
      var field := arguments.At("action");
      if field.Failure? || field.value.GetString().Failure? {
        crashed := true;
        return;
      }
      if field.value.GetString().value != "resume" {
        return;
      }
      var index := currentIndex.GetOr(0);
      if index == 0 || !landed {
        Push(Invoke(done));
      } else if !mission.IndexValid(index) {
        crashed := true;
      } else if SupportsResumeFromLanded(index) {
        Push(Invoke(done));
      } else {
        ResumeFromLanding(done, index);
      }
    }

    function SupportsResumeFromLanded(index: int): (supported: bool)
      requires mission.IndexValid(index)
      reads this
      ensures supported == CurrentSupportsResumeFromLanded(setup, View(), index)
    {
      var item := mission.items[index];
      item.ActionItem? && item.name in setup.actions && setup.actions[item.name].SupportsResumeFromLanded()
    }

    method ResumeFromLanding(done: Closure, index: int)
      requires mission.IndexValid(index)
      modifies this
      ensures View() == ResumeFromUnexpectedLanding(setup, old(View()), done, index)
    {
      hide RunActionStep;
      if ReturnsHome(mission.items[index]) {
        if index + 1 >= |mission.items| {
          SetCurrentMissionIndex(0);
        } else {
          SetCurrentMissionIndex(index + 1);
        }
        Push(Invoke(done));
        return;
      }
      var takeoff := MissionResume.FindTakeoff(mission.items, index);
      match takeoff
      case Some(i) => RunAction("takeoff", mission.items[i].arguments, AfterTakeoff(actionHandler, done, index));
      case None => Push(Invoke(done));
    }

    /** After the takeoff of a resumption. */
    method NavigateToPreviousWaypoint(h: nat, done: Closure, at: int, answer: Answer)
      modifies this
      ensures View() == MissionSteps.NavigateToPreviousWaypoint(setup, old(View()), h, done, at, answer)
    {
      hide HandlerTrajectory;
      var found := MissionResume.FindWaypoint(mission.items, at);
      match found
      case Some(i) => RunTrajectoryFor(h, [NavigationItem("", mission.items[i].waypoint)], done, false, answer);
      case None => Push(Invoke(done));
    }

    // ---- Activation and deactivation ----

    method OnActivate()
      modifies this
      ensures View() == MissionSteps.OnActivate(setup, old(View()))
    {
      hide StartAbort;
      EnterActive();
      if !(hasValidMission && actionsReady) {
        Abort("noValidMission");
        return;
      }
      var startFromBeginning := currentIndex.None?;
      SetCurrentMissionIndex(currentIndex.GetOr(0));
      Push(Activated(actionHandler, startFromBeginning));
      Push(ActivatedHook);
    }

    method EnterActive()
      modifies this`isActive, this`trajectoryOptions, this`missionItemState, this`activeMode
      ensures View() == old(View()).(active := true, options := mission.defaults, itemState := Other,
        activeMode := setup.ownMode)
    {
      isActive := true;
      ClearTrajectoryOptions();
      EnterMode(setup.ownMode);
    }

    /** The first stored entry of the resume action, in the order of the ids. */
    method FindOnResumeState() returns (id: Option<nat>)
      ensures id == StoredResume(View())
    {
      var keys := SortedKeys(continuousActions.Keys);
      var i := 0;
      while i < |keys|
        invariant 0 <= i <= |keys|
        invariant ResumeEntry(continuousActions, keys) == ResumeEntry(continuousActions, keys[i..])
      {
        assert keys[i] in keys;
        assert keys[i..][0] == keys[i] && keys[i..][1..] == keys[i + 1..];
        if continuousActions[keys[i]].name == "onResume" {
          return Some(keys[i]);
        }
        i := i + 1;
      }
      id := None;
    }

    method GetOnResumeStateAndClear() returns (arguments: Json)
      modifies this`continuousActions
      ensures View() == TakeResumeEntry(old(View())) && arguments == ResumeArguments(old(View()))
    {
      hide ResumeEntry;
      var id := FindOnResumeState();
      arguments := Null;
      if id.Some? {
        arguments := continuousActions[id.value].arguments;
        continuousActions := continuousActions - {id.value};
      }
    }

    /** What follows the client's activation callback. */
    method ContinueActivation(handler: nat, startFromBeginning: bool)
      modifies this
      ensures View() == ActivatedStep(setup, old(View()), handler, startFromBeginning)
    {
      hide RunActionStep, MissionSteps.RunStoredActions, TakeResumeEntry, ResumeArguments;
      if handler !in valid {
        return;
      }
      if "onResume" !in setup.actions || startFromBeginning {
        Push(StartItem(!startFromBeginning, handler));
        RunStoredActions();
      } else {
        var arguments := GetOnResumeStateAndClear();
        var given := arguments.Put("action", Str("resume"));
        if given.Failure? {
          Fail();
        } else {
          RunAction("onResume", given.value, ResumeDone(actionHandler, currentIndex));
        }
      }
    }

    method ClearPersistentState()
      modifies this`file
      ensures View() == ClearFile(setup, old(View()))
    {
      if setup.persistent {
        file := None;
      }
    }

    method SavePersistentState()
      modifies this`file
      ensures View() == SaveStep(setup, old(View()))
    {
      hide EncodeState;
      if !setup.persistent {
        return;
      }
      if currentIndex.None? || !mission.IndexValid(currentIndex.value) {
        ClearPersistentState();
      } else {
        file := Some(EncodeState(PersistentState(currentIndex, missionChecksum, continuousActions)));
      }
    }

    method CancelScheduledMode()
      modifies this`scheduled
      ensures View() == SetScheduled(old(View()), None)
    {
      scheduled := None;
    }

    method LeaveActive()
      modifies this
      ensures View() == Leave(old(View()))
    {
      hide InvalidateHandler;
      isActive := false;
      CancelScheduledMode();
      InvalidateActionHandler();
    }

    method OnDeactivate()
      modifies this
      ensures View() == MissionSteps.OnDeactivate(setup, old(View()))
    {
      hide Leave, MissionSteps.ResetMissionState, ClearFile, PushStore;
      LeaveActive();
      if (landed && currentIndex == Some(|mission.items| - 1)) ||
        (currentIndex.Some? && currentIndex.value >= |mission.items|) {
        ClearPersistentState();
        ResetMissionState();
        Push(Cleanup);
      } else {
        StoreResumeState();
      }
    }

    method StoreResumeState()
      modifies this`stack
      ensures View() == PushStore(setup, old(View()))
    {
      Push(Cleanup);
      Push(SaveState);
      if "onResume" in setup.actions {
        Push(StoreResume);
      }
    }

    // ---- Missions ----

    /** Every action of the mission is known, and there is at least one item. */
    method CheckFeasible(m: Mission) returns (feasible: bool)
      ensures feasible == Feasible(setup, m)
    {
      feasible := true;
      for i := 0 to |m.items|
        invariant feasible <==> forall k :: 0 <= k < i && m.items[k].ActionItem? ==> m.items[k].name in setup.actions
      {
        if m.items[i].ActionItem? && m.items[i].name !in setup.actions {
          feasible := false;
        }
      }
      if m.items == [] {
        feasible := false;
      }
    }

    /** A file that is missing, not readable, of another mission, or with an index outside of it is ignored. */
    method TryLoadPersistentState() returns (loaded: bool)
      modifies this`currentIndex, this`missionChecksum, this`continuousActions
      ensures var stored := LoadedState(setup, old(file), mission);
        && loaded == stored.Some?
        && View() == if stored.Some? then old(View()).(persistent := stored.value) else old(View())
    {
      hide DecodeState, Checksum;
      loaded := false;
      if !setup.persistent || file.None? {
        return;
      }
      var state := DecodeState(file.value);
      if state.Success? {
        if state.value.missionChecksum == Checksum(setup.hash, mission) && state.value.currentIndex.Some?
           && mission.IndexValid(state.value.currentIndex.value) {
          currentIndex, missionChecksum := state.value.currentIndex, state.value.missionChecksum;
          continuousActions := state.value.continuousActions;
          loaded := true;
        }
      }
    }

    method SetMission(m: Mission)
      modifies this
      ensures View() == SetMissionStep(setup, old(View()), m)
    {
      hide LoadedState, Feasible, Checksum, MissionSteps.ResetMissionState;
      if isActive {
        return;
      }
      var feasible := CheckFeasible(m);
      InstallMission(m, feasible);
      var loaded := TryLoadPersistentState();
      if !loaded {
        ResetMissionState();
      }
    }

    method InstallMission(m: Mission, feasible: bool)
      modifies this`mission, this`missionChecksum, this`hasValidMission
      ensures View() == old(View()).(mission := m, hasValidMission := feasible,
                                     persistent := old(View()).persistent.(missionChecksum := Checksum(setup.hash, m)))
    {
      hide Checksum;
      mission := m;
      missionChecksum := Checksum(setup.hash, m);
      hasValidMission := feasible;
    }

    // ---- Trajectories ----

    /** The trajectory executor reports an index; it has advanced before. */
    method OnIndexReached(index: int)
      modifies this
      ensures View() == ReachIndex(old(View()), index)
    {
      hide ReachIndex, HeadOn, SetCurrentIndex;
      ReachesInOrder(View(), View().(control := HeadOn(View().control, index)), index);
      var report := flight.report;
      Advance(index);
      match report
      case NoReport =>
      case SegmentStep(h, end) =>
        if h in valid {
          SetCurrentMissionIndex(index + 1);
          if index == end {
            Push(StartItem(false, h));
          }
        }
      case CustomStep(done, end) =>
        if index == end {
          Push(Invoke(done));
        }
    }

    method Advance(index: int)
      modifies this`flight
      ensures View() == old(View()).(control := HeadOn(old(View()).control, index))
    {
      flight := flight.(target := if index + 1 > flight.end then None else Some(index + 1));
    }

    method UpdateSetpoint(positionValid: bool, reached: bool)
      modifies this
      ensures View() == UpdateSetpointStep(setup, old(View()), positionValid, reached)
    {
      hide ReachIndex, StartAbort;
      if missionItemState != Trajectory || flight.target.None? {
        return;
      }
      var index := flight.target.value;
      if !(0 <= index < |flight.items|) {
        Fail();
      } else if flight.items[index].ActionItem? {
        OnIndexReached(index);
      } else if !positionValid {
        Abort("trajectoryFailure");
      } else if reached {
        OnIndexReached(index);
      }
    }

    // ---- Callbacks ----

    method Pop() returns (f: Frame)
      requires stack != []
      modifies this`stack
      ensures View() == Popped(old(View())) && f == old(stack)[|old(stack)| - 1]
    {
      f := stack[|stack| - 1];
      stack := stack[..|stack| - 1];
    }

    /** The completion of the resume action. */
    method ResumeMission(handler: nat, previous: Option<int>)
      modifies this
      ensures View() == MissionSteps.ResumeMission(old(View()), handler, previous)
    {
      hide MissionSteps.RunStoredActions;
      if previous == currentIndex {
        Push(StartItem(true, handler));
        RunStoredActions();
      } else {
        continuousActions := map[];
        Push(StartItem(false, handler));
      }
    }

    method RunModeFor(h: nat, mode: nat, done: Closure, onFailure: Option<Closure>, answer: Answer)
      modifies this
      ensures View() == HandlerMode(old(View()), h, mode, done, onFailure, answer)
    {
      hide RunModeStep;
      if h in valid {
        RunMode(mode, done, onFailure, answer);
      }
    }

    method InvokeClosure(closure: Closure, answer: Answer)
      modifies this
      ensures View() == InvokeStep(setup, old(View()), closure, answer)
    {
      hide RunNextItem, MissionSteps.ResumeMission, HandlerMode, MissionSteps.NavigateToPreviousWaypoint;
      match closure
      case Nop =>
      case ItemDone(h) =>
        if h in valid {
          RunNextMissionItem();
        }
      case ResumeDone(h, previous) =>
        if h in valid {
          ResumeMission(h, previous);
        }
      case UserCode(_, run) => Push(Client(run));
      case TryDescend(h, done) => RunModeFor(h, DESCEND, done, Some(Nop), answer);
      case AfterTakeoff(h, done, at) => NavigateToPreviousWaypoint(h, done, at, answer);
    }

    // ---- Actions ----

    method RunTakeoff(arguments: Json, done: Closure, answer: Answer)
      modifies this
      ensures View() == TakeoffStep(old(View()), arguments, done, answer)
    {
      hide RunModeStep;
      if arguments.Contains("altitude") && arguments.members["altitude"].GetFloat().Failure? {
        Fail();
      } else {
        RunMode(TAKEOFF, done, None, answer);
      }
    }

    method RunHold(arguments: Json, done: Closure, answer: Answer)
      modifies this
      ensures View() == HoldStep(old(View()), arguments, done, answer)
    {
      hide RunModeStep;
      if arguments.Contains("duration") && arguments.members["duration"].GetFloat().Failure? {
        Fail();
      } else {
        Push(ArmTimer(done));  // the timer is armed after the mode switch
        RunMode(LOITER, Nop, None, answer);
      }
    }

    method RunCustom(done: Closure)
      modifies this
      ensures View() == RunCustomStep(old(View()), done)
    {
      runs := runs + [Run(actionHandler, done)];
      Push(Client(|runs| - 1));
    }

    method PerformDefaultMode(name: string, arguments: Json, done: Closure, answer: Answer)
      requires name in setup.actions
      requires setup.actions[name].Rtl? || setup.actions[name].Land? || setup.actions[name].OnFailure?
      modifies this
      ensures View() == PerformStep(setup, old(View()), name, arguments, done, answer)
    {
      hide RunModeStep, KeepsStore, KeepsSegment, StartsNoSettings, SamePlace, SameButIndex;
      match setup.actions[name]
      case Rtl => RunMode(RTL, done, None, answer);
      case Land => RunMode(LAND, done, None, answer);
      case OnFailure => RunMode(RTL, done, Some(TryDescend(actionHandler, done)), answer);
    }

    method PerformDefaultAction(name: string, arguments: Json, done: Closure, answer: Answer)
      requires name in setup.actions
      requires setup.actions[name].Takeoff? || setup.actions[name].Hold? || setup.actions[name].OnResume?
      modifies this
      ensures View() == PerformStep(setup, old(View()), name, arguments, done, answer)
    {
      hide TakeoffStep, HoldStep, ResumeStep, KeepsStore, KeepsSegment, StartsNoSettings, SamePlace, SameButIndex;
      match setup.actions[name]
      case Takeoff => RunTakeoff(arguments, done, answer);
      case Hold => RunHold(arguments, done, answer);
      case OnResume => RunOnResume(arguments, done);
    }

    method PerformOther(name: string, arguments: Json, done: Closure, answer: Answer)
      requires name in setup.actions
      requires setup.actions[name].ChangeSettings? || setup.actions[name].Custom?
      modifies this
      ensures View() == PerformStep(setup, old(View()), name, arguments, done, answer)
    {
      hide RunCustomStep, ChangeSettingsStep, KeepsStore, KeepsSegment, StartsNoSettings, SamePlace, SameButIndex;
      match setup.actions[name]
      case ChangeSettings => RunChangeSettings(arguments, done);
      case Custom(_, _) => RunCustom(done);
    }

    method PerformAction(name: string, arguments: Json, done: Closure, answer: Answer)
      requires name in setup.actions
      modifies this
      ensures View() == PerformStep(setup, old(View()), name, arguments, done, answer)
    {
      hide PerformStep;
      match setup.actions[name]
      case Takeoff => PerformDefaultAction(name, arguments, done, answer);
      case Hold => PerformDefaultAction(name, arguments, done, answer);
      case OnResume => PerformDefaultAction(name, arguments, done, answer);
      case ChangeSettings => PerformOther(name, arguments, done, answer);
      case Custom(_, _) => PerformOther(name, arguments, done, answer);
      case _ => PerformDefaultMode(name, arguments, done, answer);
    }

    /** One round of the loop over the stored actions. */
    method RestoreNext(rest: seq<ActionState>, handler: nat)
      modifies this`stack
      ensures View() == RestoreStep(setup, old(View()), rest, handler)
    {
      if rest == [] {
        return;
      }
      Push(Restore(rest[1..], handler));
      if rest[0].name in setup.actions && rest[0].name != "onResume" {
        Push(Perform(rest[0].name, rest[0].arguments, Nop));
      }
    }

    // ---- Client code ----

    method StoreState(a: ActionState)
      modifies this
      ensures View() == StoreStateStep(old(View()), a)
    {
      var id := AddContinuousAction(a);
      clientKeepers := clientKeepers[id := a];
    }

    method DropState(id: nat)
      modifies this
      ensures View() == DropStep(old(View()), id)
    {
      if id in clientKeepers {
        RemoveContinuousAction(id);
        clientKeepers := clientKeepers - {id};
      }
    }

    /** The completion callback of a run, which may be called once. */
    method CompleteRun(run: nat)
      requires run < |runs|
      modifies this
      ensures View() == CompleteStep(old(View()), run)
    {
      if run !in completedRuns {
        completedRuns := completedRuns + {run};
        Push(Invoke(runs[run].done));
      }
    }

    /** The command that is not gated by the validity of the handler. */
    method SetMissionIndexFor(index: int)
      modifies this
      ensures View() == SetIndexStep(old(View()), index)
    {
      if mission.IndexValid(index) {
        SetCurrentMissionIndex(index);
      }
    }

    method StartCommand(run: nat, command: Command, answer: Answer)
      requires run < |runs| && stack != []
      requires command.RunMode? || command.RunAction? || command.RunTrajectory?
      modifies this
      ensures View() == CommandStep(setup, old(View()), run, command, answer)
    {
      hide HandlerMode, RunActionStep, HandlerTrajectory, TrajectoryOptions.CombinedWith;
      var h := runs[run].handler;
      match command
      case RunMode(mode, handlesFailure) =>
        RunModeFor(h, mode, UserCode(h, run), if handlesFailure then Some(UserCode(h, run)) else None, answer);
      case RunAction(name, arguments) =>
        if h in valid {
          RunAction(name, arguments, UserCode(h, run));
        }
      case RunTrajectory(items, stop) => RunTrajectoryFor(h, items, UserCode(h, run), stop, answer);
    }

    method StateCommand(run: nat, command: Command, answer: Answer)
      requires run < |runs| && stack != []
      requires !command.RunMode? && !command.RunAction? && !command.RunTrajectory?
      modifies this
      ensures View() == CommandStep(setup, old(View()), run, command, answer)
    {
      hide StoreStateStep, DropStep, CompleteStep, SetIndexStep, TrajectoryOptions.CombinedWith;
      var h := runs[run].handler;
      match command
      case ClearOptions =>
        if h in valid {
          ClearTrajectoryOptions();
        }
      case SetOptions(options) =>
        if h in valid {
          SetTrajectoryOptions(options);
        }
      case SetIndex(index) => SetMissionIndexFor(index);
      case StoreState(name, arguments) =>
        if h in valid {
          StoreState(ActionState(name, arguments));
        }
      case DropState(id) => DropState(id);
      case Complete => CompleteRun(run);
      case Abort =>
      case Return => var _ := Pop();
    }

    method RunCommand(run: nat, command: Command, answer: Answer)
      requires run < |runs| && stack != []
      modifies this
      ensures View() == CommandStep(setup, old(View()), run, command, answer)
    {
      hide CommandStep;
      if command.RunMode? || command.RunAction? || command.RunTrajectory? {
        StartCommand(run, command, answer);
      } else {
        StateCommand(run, command, answer);
      }
    }

    // ---- What arrives ----

    method ModeFinished(outcome: Outcome)
      modifies this
      ensures View() == FinishMode(old(View()), outcome)
    {
      hide MissionSteps.ModeFailed;
      if scheduled.Some? {
        var callback := scheduled.value;
        scheduled := None;
        match outcome
        case Succeeded => Push(Invoke(callback.done));
        case Failed => ModeFailed(callback.onFailure);
        case Dropped =>
      }
    }

    method TimerFires()
      modifies this
      ensures View() == FireTimer(old(View()))
    {
      if holdTimer.Some? {
        var done := holdTimer.value;
        holdTimer := None;
        Push(Invoke(done));
      }
    }

    method ResetMission()
      modifies this
      ensures var s := old(View());
        View() == if s.active then s
          else MissionSteps.ResetMissionState(s.(mission := EmptyMission, hasValidMission := false))
    {
      if !isActive {
        mission, hasValidMission := EmptyMission, false;
        ResetMissionState();
      }
    }

    method SetLanded(value: bool)
      modifies this`landed
      ensures View() == old(View()).(landed := value)
    {
      landed := value;
    }

    method SetReadiness(ready: bool)
      modifies this`actionsReady
      ensures View() == if old(isActive) then old(View()) else old(View()).(actionsReady := ready)
    {
      if !isActive {
        actionsReady := ready;
      }
    }

    method Receive(event: Event, answer: Answer)
      modifies this
      ensures View() == ExternalStep(setup, old(View()), event, answer)
    {
      hide MissionSteps.OnActivate, MissionSteps.OnDeactivate, SetMissionStep, FinishMode, FireTimer,
        UpdateSetpointStep, StartAbort;
      match event
      case SetMission(m) => SetMission(m);
      case ResetMission => ResetMission();
      case Activate =>
        if !isActive {
          OnActivate();
        }
      case Deactivate =>
        if isActive {
          OnDeactivate();
        }
      case ModeFinished(outcome) => ModeFinished(outcome);
      case UpdateSetpoint(positionValid, reached) => UpdateSetpoint(positionValid, reached);
      case TimerFired => TimerFires();
      case ClientTurn(run) =>
        if run < |runs| {
          Push(Client(run));
        }
      case AbortRequest =>
        if isActive {
          Abort("other");
        }
      case LandedChanged(value) => SetLanded(value);
      case ReadinessChanged(ready) => SetReadiness(ready);
    }

    // ---- Steps and runs ----

    method EnterCall(f: Frame, answer: Answer)
      requires Calls(f)
      modifies this
      ensures View() == CallStep(setup, old(View()), f, answer)
    {
      hide InvokeStep, PerformStep, ActivatedStep, RestoreStep, StartItemStep, AbortMainStep;
      match f
      case Invoke(closure) => InvokeClosure(closure, answer);
      case Perform(name, arguments, done) =>
        if name in setup.actions {
          PerformAction(name, arguments, done, answer);
        } else {
          NoSuchAction(setup, View(), name, arguments, done, answer);
        }
      case Activated(handler, fromBeginning) => ContinueActivation(handler, fromBeginning);
      case Restore(rest, handler) => RestoreNext(rest, handler);
      case StartItem(resuming, _) => RunCurrentMissionItem(resuming, answer);
      case AbortMain(reason) => RunFailureAction(reason);
    }

    method LeaveCall(f: Frame)
      requires !Calls(f) && !InClient(f)
      modifies this
      ensures View() == ReturnStep(setup, old(View()), f)
    {
      hide DeactivateDefaults, SaveStep;
      match f
      case ArmTimer(done) => holdTimer := Some(done);
      case EnterTrajectory => missionItemState := Trajectory;
      case AbortEnd => LeaveAbort();
      case SaveState => SavePersistentState();
      case Cleanup =>
        DeactivateAllActions();
        Push(CleanupHooks);
    }

    method LeaveAbort()
      modifies this`abortRecursionLevel
      ensures View() == EndAbort(old(View()))
    {
      if abortRecursionLevel > 0 {
        abortRecursionLevel := abortRecursionLevel - 1;
      }
    }

    /** The innermost frame runs up to its next call. */
    method GoOn(answer: Answer)
      requires stack != []
      modifies this
      ensures View() == Continue(setup, old(View()), answer)
    {
      hide CallStep, ReturnStep;
      if !InClient(stack[|stack| - 1]) {
        var f := Pop();
        if Calls(f) {
          EnterCall(f, answer);
        } else {
          LeaveCall(f);
        }
      }
    }

    /** Client code of the activation. */
    method RunActivatedHook(command: Command)
      requires stack != [] && stack[|stack| - 1].ActivatedHook?
      modifies this
      ensures var s := old(View());
        View() == if command.Return? then Popped(s) else if command.Abort? && s.active then StartAbort(s, "other")
          else s
    {
      hide StartAbort;
      if command.Return? {
        var _ := Pop();
      } else if command.Abort? && isActive {
        Abort("other");
      }
    }

    /** Client code of the actions' `deactivate`. */
    method RunCleanupHooks(command: Command)
      requires stack != [] && stack[|stack| - 1].CleanupHooks?
      modifies this
      ensures var s := old(View());
        View() == if command.Return? then Popped(s) else if command.DropState? then DropStep(s, command.id) else s
    {
      hide DropStep;
      if command.Return? {
        var _ := Pop();
      } else if command.DropState? {
        DropState(command.id);
      }
    }

    /** One step of a run. */
    method Step(l: Label)
      modifies this
      ensures View() == MissionSteps.Step(setup, old(View()), l)
    {
      hide ExternalStep, CommandStep, Continue, StartAbort, DropStep;
      if crashed {
        return;
      }
      if stack == [] {
        if l.External? {
          Receive(l.event, l.answer);
        }
        return;
      }
      match stack[|stack| - 1]
      case Client(run) =>
        if l.User? {
          if run < |runs| {
            RunCommand(run, l.command, l.answer);
          } else {
            NoSuchRun(setup, View(), run, l.command, l.answer);
          }
        }
      case ActivatedHook =>
        if l.User? {
          RunActivatedHook(l.command);
        }
      case CleanupHooks =>
        if l.User? {
          RunCleanupHooks(l.command);
        }
      case _ =>
        if l.Internal? {
          GoOn(l.answer);
        }
    }

    method RunAll(ls: seq<Label>)
      modifies this
      ensures View() == Steps(setup, old(View()), ls)
    {
      hide MissionSteps.Step;
      for i := 0 to |ls|
        invariant View() == Steps(setup, old(View()), ls[..i])
      {
        assert ls[..i + 1][..i] == ls[..i];
        Step(ls[i]);
      }
      assert ls[..|ls|] == ls;
    }
  }

  /** The theorems about runs, read off an object that has run from the start. */
  method Execute(setup: Setup, file: Option<Json>, ls: seq<Label>) returns (executor: MissionExecutor)
    ensures fresh(executor) && executor.setup == setup && executor.View() == Steps(setup, Initial(file), ls)
    ensures executor.abortRecursionLevel <= 11 && executor.failureRuns <= 11
    ensures executor.stack == [] ==> executor.abortRecursionLevel == 0
    ensures executor.currentIndex.Some? ==> 0 <= executor.currentIndex.value <= |executor.mission.items|
    ensures executor.currentIndex.Some? && !executor.isActive ==>
      executor.mission.IndexValid(executor.currentIndex.value)
    ensures executor.valid == {executor.actionHandler}
  {
    hide MissionSteps.Step, Count;
    executor := new MissionExecutor(setup, file);
    executor.RunAll(ls);
    IndexSafety(setup, file, ls);
    AbortsAreBounded(setup, file, ls);
    ValidAfter(setup, file, ls);
  }

  lemma ValidAfter(c: Setup, file: Option<Json>, ls: seq<Label>)
    ensures OneValidHandler(Steps(c, Initial(file), ls).control)
  {
    hide MissionSteps.Step, ClosuresCoherent, StackCoherent;
    ExactlyOneValidHandler(c, file, ls);
  }
}
