/** The transitions of the mission executor. A call in the source is a frame pushed here, and a step
    runs the innermost frame up to the next call. */
module MissionSteps {
  import opened Wrappers
  import opened JsonValues
  import opened Geometry
  import opened Missions
  import opened OrderedMaps
  import opened PersistentStates
  import opened MissionTypes
  import opened Segments

  /** A mission segment that takes off flies the items of the mission. */
  ghost predicate FliesMission(s: State, t: State) {
    || t.control.flight == s.control.flight
    || (t.control.flight.report.SegmentStep? ==> t.control.flight.items == s.mission.items)
  }

  /** Nothing that places the executor in the mission changes. */
  ghost predicate SamePlace(s: State, t: State) {
    && FliesMission(s, t)
    && t.mission == s.mission && t.hasValidMission == s.hasValidMission && t.active == s.active
    && t.persistent.currentIndex == s.persistent.currentIndex
    && t.persistent.missionChecksum == s.persistent.missionChecksum
    && t.file == s.file && t.reports == s.reports && t.segments == s.segments
  }

  /** The same, except that the index may have been set to another item of the mission. */
  ghost predicate SameButIndex(s: State, t: State) {
    || SamePlace(s, t)
    || (exists index :: s.mission.IndexValid(index) && SamePlace(SetCurrentIndex(s, index), t))
  }

  /** What decides which settings hold and which actions are stored, now and after an interruption. */
  datatype Store = Store(
    active: bool,
    actions: map<nat, ActionState>,
    next: nat,
    settings: Option<nat>,
    client: map<nat, ActionState>,
    options: TrajectoryOptions)
  {
    /** The default actions let go of what they hold; while inactive the stored entries are kept. */
    function Dropped(): Store {
      match settings
      case None => this
      case Some(id) => this.(actions := if active then actions - {id} else actions, settings := None)
    }

    /** `changeSettings` stores an entry: the new one is added before the old one is removed. */
    function Settled(o: TrajectoryOptions, entry: ActionState): Store {
      this.(actions := actions[next := entry], next := next + 1).Dropped().(settings := Some(next), options := o)
    }
  }

  function StoreOf(s: State): Store {
    Store(s.active, s.persistent.continuousActions, s.nextActionId, s.settingsKeeper, s.clientKeepers, s.options)
  }

  /** Nothing stored changes, unless there is an abort. */
  ghost predicate KeepsStore(s: State, t: State) {
    && t.control.handler >= s.control.handler
    && (|| StoreOf(t) == StoreOf(s)
        || (t.control.handler > s.control.handler && StoreOf(t) == StoreOf(s).Dropped()))
  }

  /** No segment of the mission takes off. */
  ghost predicate KeepsSegment(s: State, t: State) {
    t.control.flight == s.control.flight || !t.control.flight.report.SegmentStep?
  }

  predicate SettingsFree(f: Frame) {
    f.Perform? ==> f.name != "changeSettings"
  }

  /** No run of `changeSettings` is started. */
  ghost predicate StartsNoSettings(s: State, t: State) {
    t.control.stack == s.control.stack || (t.control.stack != [] && SettingsFree(t.control.Top()))
  }

  /** No run of `changeSettings` is started but as an item of the mission. */
  ghost predicate StartsOnlyItem(s: State, t: State) {
    StartsNoSettings(s, t) || (t.control.stack != [] && t.control.Top().Perform? && t.control.Top().done.ItemDone?)
  }

  // ---- Control ----

  function SetScheduled(s: State, callback: Option<ModeCallback>): (t: State)
    ensures SamePlace(s, t)
  {
    s.(control := s.control.(scheduled := callback))
  }

  function SetTimer(s: State, done: Option<Closure>): (t: State)
    ensures SamePlace(s, t)
  {
    s.(control := s.control.(holdTimer := done))
  }

  function SetFlight(s: State, flight: Flight): (t: State)
    ensures (flight.report.SegmentStep? ==> flight.items == s.mission.items) ==> SamePlace(s, t)
  {
    s.(control := s.control.(flight := flight))
  }

  function AddRun(s: State, r: Run): (t: State)
    ensures SamePlace(s, t)
  {
    s.(control := s.control.(runs := s.control.runs + [r]))
  }

  function Popped(s: State): (t: State)
    ensures SamePlace(s, t)
  {
    s.(control := s.control.Popped())
  }

  // ---- Index, options and stored actions ----

  function SetCurrentIndex(s: State, index: int): State {
    s.(persistent := s.persistent.(currentIndex := Some(index)),
       reports := s.reports + [if index >= |s.mission.items| then Completed else Progress(index)])
  }

  function ResetMissionState(s: State): State {
    s.(persistent := s.persistent.(currentIndex := None, continuousActions := map[]))
  }

  function SetContinuousActions(s: State, actions: map<nat, ActionState>): (t: State)
    ensures SamePlace(s, t) && t.crashed == s.crashed
  {
    s.(persistent := s.persistent.(continuousActions := actions))
  }

  /** The new entry has the id `s.nextActionId`. */
  function AddContinuousAction(s: State, a: ActionState): (t: State)
    ensures SamePlace(s, t) && t.crashed == s.crashed
    ensures StoreOf(t) == StoreOf(s).(actions := StoreOf(s).actions[s.nextActionId := a], next := s.nextActionId + 1)
  {
    SetContinuousActions(s, s.persistent.continuousActions[s.nextActionId := a]).(nextActionId := s.nextActionId + 1)
  }

  /** While inactive the entry is kept, so that it can be restored later. */
  function RemoveContinuousAction(s: State, id: nat): (t: State)
    ensures SamePlace(s, t) && t.crashed == s.crashed
    ensures StoreOf(t) == StoreOf(s).(actions := if s.active then StoreOf(s).actions - {id} else StoreOf(s).actions)
    ensures t.control == s.control
  {
    if !s.active then s else SetContinuousActions(s, s.persistent.continuousActions - {id})
  }

  function DropSettingsKeeper(s: State): (t: State)
    ensures SamePlace(s, t) && t.crashed == s.crashed
    ensures StoreOf(t) == StoreOf(s).Dropped() && t.control == s.control
  {
    match s.settingsKeeper
    case None => s
    case Some(id) => RemoveContinuousAction(s, id).(settingsKeeper := None)
  }

  // ---- Abort ----

  function InvalidateHandler(s: State): (t: State)
    ensures SamePlace(s, t) && t.crashed == s.crashed
    ensures StoreOf(t) == StoreOf(s) && t.control.handler > s.control.handler
  {
    var k := s.control;
    s.(control := k.(valid := k.valid - {k.handler} + {k.handler + 1}, handler := k.handler + 1))
  }

  /** `deactivate` of the default actions; the client's overrides run in their own frame. */
  function DeactivateDefaults(s: State): (t: State)
    ensures SamePlace(s, t) && t.crashed == s.crashed
    ensures StoreOf(t) == StoreOf(s).Dropped() && t.control == s.control.(holdTimer := None)
  {
    SetTimer(DropSettingsKeeper(s), None)
  }

  function StartAbort(s: State, reason: string): (t: State)
    ensures SamePlace(s, t) && t.crashed == s.crashed
    ensures KeepsStore(s, t) && t.control.handler > s.control.handler
    ensures StartsNoSettings(s, t)
    ensures KeepsSegment(s, t)
  {
    var t := InvalidateHandler(s);
    if t.control.abortLevel > 10 then t
    else DeactivateDefaults(t).Push(AbortMain(reason)).Push(CleanupHooks)
  }

  // ---- Running modes, actions and trajectories ----

  function RunModeStep(s: State, mode: nat, done: Closure, onFailure: Option<Closure>, answer: Answer): (t: State)
    ensures SamePlace(s, t) && t.crashed == s.crashed
    ensures KeepsStore(s, t)
    ensures StartsNoSettings(s, t)
    ensures KeepsSegment(s, t)
  {
    if !s.active then s else
    var t := s.(itemState := Other, activeMode := mode);
    var cancelled := if answer.NotArmed? then t else SetScheduled(t, None);
    if answer.Accepted? then SetScheduled(cancelled, Some(ModeCallback(done, onFailure)))
    else ModeFailed(cancelled, onFailure)
  }

  function ModeFailed(s: State, onFailure: Option<Closure>): (t: State)
    ensures SamePlace(s, t) && t.crashed == s.crashed
    ensures KeepsStore(s, t)
    ensures StartsNoSettings(s, t)
    ensures KeepsSegment(s, t)
  {
    var t := s.(activeMode := 0);
    match onFailure
    case Some(c) => t.Push(Invoke(c))
    case None => StartAbort(t, "modeFailure")
  }

  function RunActionStep(c: Setup, s: State, name: string, arguments: Json, done: Closure): (t: State)
    ensures SamePlace(s, t) && t.crashed == s.crashed
    ensures KeepsStore(s, t)
    ensures name in c.actions ==> StoreOf(t) == StoreOf(s) && t.control.handler == s.control.handler
    ensures name != "changeSettings" ==> StartsNoSettings(s, t)
    ensures StartsNoSettings(s, t) || (t.control.stack != [] && t.control.Top() == Perform(name, arguments, done))
    ensures KeepsSegment(s, t)
  {
    if !s.active then s else
    var t := s.(itemState := Other);
    if name !in c.actions then StartAbort(t, "actionDoesNotExist") else t.Push(Perform(name, arguments, done))
  }

  function RunTrajectoryStep(c: Setup, s: State, items: seq<MissionItem>, start: int, end: int,
                             report: IndexCallback, stop: bool, answer: Answer): (t: State)
    ensures (report.SegmentStep? ==> items == s.mission.items) ==> SamePlace(s, t)
    ensures t.crashed == s.crashed
    ensures KeepsStore(s, t)
    ensures StartsNoSettings(s, t)
    ensures !report.SegmentStep? ==> KeepsSegment(s, t)
  {
    if !s.active then s else
    var t := SetFlight(s, Flight(items, s.options, end, stop, report, Some(start)));
    if t.activeMode != c.ownMode then RunModeStep(t.Push(EnterTrajectory), c.ownMode, Nop, None, answer)
    else t.(itemState := Trajectory)
  }

  /** The trajectory command of a handler. */
  function HandlerTrajectory(c: Setup, s: State, h: nat, items: seq<MissionItem>, done: Closure, stop: bool,
                             answer: Answer): (t: State)
    ensures SamePlace(s, t) && t.crashed == s.crashed
    ensures KeepsStore(s, t)
    ensures StartsNoSettings(s, t)
    ensures KeepsSegment(s, t)
  {
    if !s.control.IsValid(h) then s
    else if items == [] then s.Push(Invoke(done))
    else if exists i :: 0 <= i < |items| && items[i].ActionItem? then StartAbort(s, "trajectoryFailure")
    else RunTrajectoryStep(c, s, items, 0, |items| - 1, CustomStep(done, |items| - 1), stop, answer)
  }

  function HandlerMode(s: State, h: nat, mode: nat, done: Closure, onFailure: Option<Closure>,
      answer: Answer): (t: State)
    ensures SamePlace(s, t) && t.crashed == s.crashed
    ensures KeepsStore(s, t)
    ensures StartsNoSettings(s, t)
    ensures KeepsSegment(s, t)
  {
    if !s.control.IsValid(h) then s else RunModeStep(s, mode, done, onFailure, answer)
  }

  // ---- Mission items ----

  /** What has been flown matters to neither. */
  lemma SegmentsAside(s: State, u: State, t: State)
    requires u == s.(segments := u.segments)
    ensures SamePlace(u, t) ==> SamePlace(s.(segments := t.segments), t)
    ensures KeepsStore(u, t) ==> KeepsStore(s, t)
    ensures StartsNoSettings(u, t) ==> StartsNoSettings(s, t)
  {
  }

  lemma Itself(s: State)
    ensures SamePlace(s, s) && KeepsStore(s, s) && KeepsSegment(s, s) && StartsNoSettings(s, s)
    ensures SamePlace(s.(segments := s.segments), s.(crashed := true)) && KeepsStore(s, s.(crashed := true))
    ensures StartsNoSettings(s, s.(crashed := true))
  {
  }

  function StartItemStep(c: Setup, s: State, resuming: bool, answer: Answer): (t: State)
    ensures SamePlace(s.(segments := t.segments), t)
    ensures KeepsStore(s, t)
    ensures StartsOnlyItem(s, t)
  {
    hide RunModeStep, RunActionStep, RunTrajectoryStep, SamePlace, KeepsStore, KeepsSegment, StartsNoSettings;
    Itself(s);
    SegmentsAside(s, s, RunModeStep(s, LOITER, Nop, None, answer));
    match s.persistent.currentIndex
    case None => RunModeStep(s, LOITER, Nop, None, answer)
    case Some(index) =>
      if !s.mission.IndexValid(index) then
        (if s.activeMode != c.ownMode then s else RunModeStep(s, LOITER, Nop, None, answer))
      else match s.mission.items[index]
        case NavigationItem(_, _) =>
          var end := SegmentEnd(s.mission.items, index);
          var u := s.(segments := if s.active then s.segments + [(index, end)] else s.segments);
          var t := RunTrajectoryStep(c, u, s.mission.items, index, end, SegmentStep(s.control.handler, end),
                                     SegmentStop(c, s.mission.items, end), answer);
          SegmentsAside(s, u, t);
          t
        case ActionItem(_, name, arguments) =>
          var given := if resuming then arguments.Put("internal:resuming", Bool(true)) else Success(arguments);
          if given.Failure? then s.(crashed := true)
          else
            var t := RunActionStep(c, s, name, given.value, ItemDone(s.control.handler));
            SegmentsAside(s, s, t);
            t
  }

  function RunNextItem(s: State): (t: State)
    ensures KeepsStore(s, t)
    ensures StartsNoSettings(s, t)
    ensures t.mission == s.mission
    ensures KeepsSegment(s, t)
  {
    SetCurrentIndex(s, match s.persistent.currentIndex case None => 0 case Some(i) => i + 1)
    .Push(StartItem(false, s.control.handler))
  }

  /** Empties the stored actions and restores them one after the other. */
  function RunStoredActions(s: State): (t: State)
    ensures SamePlace(s, t) && t.crashed == s.crashed
    ensures StoreOf(t) == StoreOf(s).(actions := map[]) && t.control.handler == s.control.handler
    ensures StartsNoSettings(s, t)
    ensures KeepsSegment(s, t)
  {
    SetContinuousActions(s, map[]).Push(Restore(Values(s.persistent.continuousActions), s.control.handler))
  }

  // ---- Callbacks ----

  /** The end of the resume action: if it moved the index, the stored actions are dropped. */
  function ResumeMission(s: State, h: nat, previous: Option<int>): (t: State)
    ensures SamePlace(s, t)
    ensures StoreOf(t) == StoreOf(s).(actions := map[]) && t.control.handler == s.control.handler
    ensures StartsNoSettings(s, t)
    ensures KeepsSegment(s, t)
  {
    if previous == s.persistent.currentIndex then RunStoredActions(s.Push(StartItem(true, h)))
    else SetContinuousActions(s, map[]).Push(StartItem(false, h))
  }

  function NavigateToPreviousWaypoint(c: Setup, s: State, h: nat, done: Closure, at: int, answer: Answer): (t: State)
    ensures SamePlace(s, t)
    ensures KeepsStore(s, t)
    ensures StartsNoSettings(s, t)
    ensures KeepsSegment(s, t)
  {
    match WaypointBefore(s.mission.items, if at < |s.mission.items| then at else |s.mission.items|)
    case Some(i) => HandlerTrajectory(c, s, h, [NavigationItem("", s.mission.items[i].waypoint)], done, false, answer)
    case None => s.Push(Invoke(done))
  }

  function InvokeStep(c: Setup, s: State, closure: Closure, answer: Answer): (t: State)
    ensures !closure.ItemDone? ==> SamePlace(s, t)
    ensures !closure.ResumeDone? ==> KeepsStore(s, t)
    ensures StartsNoSettings(s, t)
    ensures t.mission == s.mission
    ensures KeepsSegment(s, t)
  {
    match closure
    case Nop => s
    case ItemDone(h) => if s.control.IsValid(h) then RunNextItem(s) else s
    case ResumeDone(h, previous) => if s.control.IsValid(h) then ResumeMission(s, h, previous) else s
    case UserCode(_, run) => s.Push(Client(run))
    case TryDescend(h, done) => HandlerMode(s, h, DESCEND, done, Some(Nop), answer)
    case AfterTakeoff(h, done, at) => NavigateToPreviousWaypoint(c, s, h, done, at, answer)
  }

  // ---- Default actions ----

  /** The greatest navigation index below `limit`. */
  function WaypointBefore(items: seq<MissionItem>, limit: int): (r: Option<nat>)
    requires limit <= |items|
    ensures r.Some? ==> r.value < limit && items[r.value].NavigationItem?
    decreases limit
  {
    if limit <= 0 then None
    else if items[limit - 1].NavigationItem? then Some(limit - 1)
    else WaypointBefore(items, limit - 1)
  }

  /** The greatest takeoff index below `limit`. */
  function TakeoffBefore(items: seq<MissionItem>, limit: int): (r: Option<nat>)
    requires limit <= |items|
    ensures r.Some? ==> r.value < limit && items[r.value].ActionItem? && items[r.value].name == "takeoff"
    decreases limit
  {
    if limit <= 0 then None
    else if items[limit - 1].ActionItem? && items[limit - 1].name == "takeoff" then Some(limit - 1)
    else TakeoffBefore(items, limit - 1)
  }

  predicate ReturnsHome(item: MissionItem) {
    item.ActionItem? && (item.name == "rtl" || item.name == "land")
  }

  function CurrentSupportsResumeFromLanded(c: Setup, s: State, index: int): bool
    requires s.mission.IndexValid(index)
  {
    var item := s.mission.items[index];
    item.ActionItem? && item.name in c.actions && c.actions[item.name].SupportsResumeFromLanded()
  }

  function ResumeStep(c: Setup, s: State, arguments: Json, done: Closure): (t: State)
    ensures SameButIndex(s, t)
    ensures KeepsStore(s, t)
    ensures StartsNoSettings(s, t)
    ensures KeepsSegment(s, t)
  {
    hide ResumeFromUnexpectedLanding, CurrentSupportsResumeFromLanded;
    match (match arguments.At("action") case Success(j) => j.GetString() case Failure => Failure)
    case Failure => s.(crashed := true)
    case Success(action) =>
      if action != "resume" then s else
      var index := s.persistent.currentIndex.GetOr(0);
      if index == 0 || !s.landed then s.Push(Invoke(done))
      else if !s.mission.IndexValid(index) then s.(crashed := true)  // read past the end of the items
      else if CurrentSupportsResumeFromLanded(c, s, index) then s.Push(Invoke(done))
      else ResumeFromUnexpectedLanding(c, s, done, index)
  }

  /** An interrupted return or landing is skipped: the mission goes on after it, or from the start. */
  function SkipItem(s: State, index: int): (t: State)
    requires s.mission.IndexValid(index)
    ensures SameButIndex(s, t) && KeepsStore(s, t) && t.control == s.control
  {
    SetCurrentIndex(s, if index + 1 >= |s.mission.items| then 0 else index + 1)
  }

  function ResumeFromUnexpectedLanding(c: Setup, s: State, done: Closure, index: int): (t: State)
    requires s.mission.IndexValid(index)
    ensures SameButIndex(s, t)
    ensures KeepsStore(s, t)
    ensures StartsNoSettings(s, t)
    ensures KeepsSegment(s, t)
  {
    hide RunActionStep, ReturnsHome, TakeoffBefore, SkipItem;
    if ReturnsHome(s.mission.items[index]) then SkipItem(s, index).Push(Invoke(done))
    else match TakeoffBefore(s.mission.items, index)
      case Some(i) => RunActionStep(c, s, "takeoff", s.mission.items[i].arguments,
        AfterTakeoff(s.control.handler, done, index))
      case None => s.Push(Invoke(done))
  }

  function ReadFloat(arguments: Json, key: string, otherwise: Option<real>): Result<Option<real>> {
    if !arguments.Contains(key) then Success(otherwise) else
    var value :- arguments.members[key].GetFloat();
    Success(Some(value))
  }

  /** The options with the settings that the arguments give. */
  function MergedOptions(options: TrajectoryOptions, arguments: Json): Result<TrajectoryOptions> {
    var h :- ReadFloat(arguments, "horizontalVelocity", options.horizontalVelocity);
    var v :- ReadFloat(arguments, "verticalVelocity", options.verticalVelocity);
    var m :- ReadFloat(arguments, "maxHeadingRate", None);
    Success(TrajectoryOptions(h, v, if m.Some? then Some(DegToRad(m.value)) else options.maxHeadingRate))
  }

  function ResetsAll(arguments: Json): Result<bool> {
    if arguments.Contains("resetAll") then arguments.members["resetAll"].GetBool() else Success(false)
  }

  /** The settings after `changeSettings`; the new stored entry is added before the old one is removed. */
  function ChangedSettings(s: State, arguments: Json): (r: Result<State>)
    ensures r.Success? ==> SamePlace(s, r.value)
  {
    var reset :- ResetsAll(arguments);
    if reset then Success(DropSettingsKeeper(s.(options := s.mission.defaults))) else
    var options :- MergedOptions(s.options, arguments);
    Success(StoreSettings(s, options))
  }

  function StoreSettings(s: State, options: TrajectoryOptions): (t: State)
    ensures SamePlace(s, t) && t.control == s.control && t.crashed == s.crashed
    ensures StoreOf(t)
         == StoreOf(s).Settled(s.options.CombinedWith(options), ActionState("changeSettings", EncodeOptions(options)))
  {
    hide EncodeOptions, TrajectoryOptions.CombinedWith;
    var t := s.(options := s.options.CombinedWith(options));
    var stored := AddContinuousAction(t, ActionState("changeSettings", EncodeOptions(options)));
    DropSettingsKeeper(stored).(settingsKeeper := Some(s.nextActionId))
  }

  function ChangeSettingsStep(s: State, arguments: Json, done: Closure): (t: State)
    ensures SamePlace(s, t)
    ensures StartsNoSettings(s, t)
    ensures KeepsSegment(s, t)
  {
    match ChangedSettings(s, arguments)
    case Failure => s.(crashed := true)
    case Success(t) => t.Push(Invoke(done))
  }

  function TakeoffStep(s: State, arguments: Json, done: Closure, answer: Answer): (t: State)
    ensures SamePlace(s, t) && KeepsStore(s, t)
    ensures StartsNoSettings(s, t)
    ensures KeepsSegment(s, t)
  {
    hide RunModeStep;
    if arguments.Contains("altitude") && arguments.members["altitude"].GetFloat().Failure? then s.(crashed := true)
    else RunModeStep(s, TAKEOFF, done, None, answer)
  }

  /** The hold timer is armed after the mode switch. */
  function HoldStep(s: State, arguments: Json, done: Closure, answer: Answer): (t: State)
    ensures SamePlace(s, t) && KeepsStore(s, t)
    ensures StartsNoSettings(s, t)
    ensures KeepsSegment(s, t)
  {
    hide RunModeStep;
    if arguments.Contains("duration") && arguments.members["duration"].GetFloat().Failure? then s.(crashed := true)
    else RunModeStep(s.Push(ArmTimer(done)), LOITER, Nop, None, answer)
  }

  function RunCustomStep(s: State, done: Closure): (t: State)
    ensures SamePlace(s, t) && KeepsStore(s, t)
    ensures StartsNoSettings(s, t)
    ensures KeepsSegment(s, t)
  {
    AddRun(s, Run(s.control.handler, done)).Push(Client(|s.control.runs|))
  }

  /** `run` of a registered action with the current handler. */
  function PerformStep(c: Setup, s: State, name: string, arguments: Json, done: Closure, answer: Answer): (t: State)
    ensures SameButIndex(s, t)
    ensures name !in c.actions || !c.actions[name].ChangeSettings? ==> KeepsStore(s, t)
    ensures StartsNoSettings(s, t)
    ensures KeepsSegment(s, t)
    ensures name !in c.actions || !c.actions[name].OnResume? ==> SamePlace(s, t)
  {
    hide RunModeStep, ResumeStep, ChangeSettingsStep, TakeoffStep, HoldStep, RunCustomStep, SamePlace, KeepsStore;
    Itself(s);
    if name !in c.actions then s
    else match c.actions[name]
    case Takeoff => TakeoffStep(s, arguments, done, answer)
    case Rtl => RunModeStep(s, RTL, done, None, answer)
    case Land => RunModeStep(s, LAND, done, None, answer)
    case Hold => HoldStep(s, arguments, done, answer)
    case OnFailure => RunModeStep(s, RTL, done, Some(TryDescend(s.control.handler, done)), answer)
    case OnResume => ResumeStep(c, s, arguments, done)
    case ChangeSettings => ChangeSettingsStep(s, arguments, done)
    case Custom(_, _) => RunCustomStep(s, done)
  }

  // ---- Client code ----

  /** `storeState`: the client holds the token of the new entry. */
  function StoreStateStep(s: State, a: ActionState): (t: State)
    ensures SamePlace(s, t) && t.control == s.control
  {
    AddContinuousAction(s, a).(clientKeepers := s.clientKeepers[s.nextActionId := a])
  }

  /** The completion callback of a run, which may be called once. */
  function CompleteStep(s: State, run: nat): (t: State)
    ensures SamePlace(s, t) && KeepsSegment(s, t)
  {
    if run >= |s.control.runs| || run in s.control.completedRuns then s
    else
      s.(control := s.control.(completedRuns := s.control.completedRuns + {run}))
      .Push(Invoke(s.control.runs[run].done))
  }

  /** The only command that is not gated by the validity of the handler. */
  function SetIndexStep(s: State, index: int): (t: State)
    ensures SameButIndex(s, t) && t.control == s.control
  {
    if s.mission.IndexValid(index) then SetCurrentIndex(s, index) else s
  }

  /**
    * A command of client code inside a run of an action. Such code is under contract to use the handler that it was
    * given: a request to abort belongs to the activation callback (`Step`) and to client code outside of any run
    * (`AbortRequest`), and is refused here.
    */
  function CommandStep(c: Setup, s: State, run: nat, command: Command, answer: Answer): (t: State)
    ensures SameButIndex(s, t)
    ensures KeepsSegment(s, t)
    ensures !command.SetIndex? ==> SamePlace(s, t)
  {
    hide HandlerMode, RunActionStep, HandlerTrajectory, StoreStateStep, CompleteStep, SetIndexStep, DropStep,
      TrajectoryOptions.CombinedWith;
    if run >= |s.control.runs| then s else
    var h := s.control.runs[run].handler;
    match command
    case RunMode(mode, handlesFailure) =>
      HandlerMode(s, h, mode, UserCode(h, run), if handlesFailure then Some(UserCode(h, run)) else None, answer)
    case RunAction(name, arguments) =>
      if s.control.IsValid(h) then RunActionStep(c, s, name, arguments, UserCode(h, run)) else s
    case RunTrajectory(items, stop) => HandlerTrajectory(c, s, h, items, UserCode(h, run), stop, answer)
    case ClearOptions => if s.control.IsValid(h) then s.(options := s.mission.defaults) else s
    case SetOptions(options) => if s.control.IsValid(h) then s.(options := s.options.CombinedWith(options)) else s
    case SetIndex(index) => SetIndexStep(s, index)
    case StoreState(name, arguments) =>
      if s.control.IsValid(h) then StoreStateStep(s, ActionState(name, arguments)) else s
    case DropState(id) => DropStep(s, id)
    case Complete => CompleteStep(s, run)
    case Abort => s
    case Return => Popped(s)
  }

  /** There are no commands in a run that does not exist, and no run of an action that does not exist. */
  lemma NoSuchRun(c: Setup, s: State, run: nat, command: Command, answer: Answer)
    requires run >= |s.control.runs|
    ensures CommandStep(c, s, run, command, answer) == s
  {
    hide CompleteStep, DropStep, HandlerMode, HandlerTrajectory, KeepsSegment, Popped, RunActionStep, SameButIndex,
      SamePlace, SetIndexStep, StoreStateStep;
  }

  lemma NoSuchAction(c: Setup, s: State, name: string, arguments: Json, done: Closure, answer: Answer)
    requires name !in c.actions
    ensures PerformStep(c, s, name, arguments, done, answer) == s
  {
    hide ChangeSettingsStep, HoldStep, KeepsSegment, KeepsStore, ResumeStep, RunCustomStep, RunModeStep, SameButIndex,
      SamePlace, StartsNoSettings, TakeoffStep;
  }

  /** Destroying a token that the client holds. */
  function DropStep(s: State, id: nat): (t: State)
    ensures SamePlace(s, t) && t.control == s.control
  {
    if id in s.clientKeepers then RemoveContinuousAction(s, id).(clientKeepers := s.clientKeepers - {id}) else s
  }

  // ---- Activation, deactivation and the other events ----

  function IsReady(s: State): bool { s.hasValidMission && s.actionsReady }

  function OnActivate(c: Setup, s: State): State
  {
    var t := s.(active := true, options := s.mission.defaults, itemState := Other, activeMode := c.ownMode);
    if !IsReady(s) then StartAbort(t, "noValidMission") else
    SetCurrentIndex(t, t.persistent.currentIndex.GetOr(0))
      .Push(Activated(t.control.handler, t.persistent.currentIndex.None?)).Push(ActivatedHook)
  }

  /** The first stored entry of the resume action, in id order. */
  function ResumeEntry(actions: map<nat, ActionState>, keys: seq<nat>): (r: Option<nat>)
    requires forall k :: k in keys ==> k in actions
    ensures r.Some? ==> r.value in actions && actions[r.value].name == "onResume"
  {
    if keys == [] then None
    else if actions[keys[0]].name == "onResume" then Some(keys[0])
    else ResumeEntry(actions, keys[1..])
  }

  function StoredResume(s: State): (r: Option<nat>)
    ensures r.Some? ==> r.value in StoreOf(s).actions && StoreOf(s).actions[r.value].name == "onResume"
  {
    ResumeEntry(s.persistent.continuousActions, SortedKeys(s.persistent.continuousActions.Keys))
  }

  /** Takes the stored entry of the resume action out. */
  function TakeResumeEntry(s: State): (t: State)
    ensures SamePlace(s, t) && t.control == s.control
    ensures StoreOf(t)
      == if StoredResume(s).Some? then StoreOf(s).(actions := StoreOf(s).actions - {StoredResume(s).value})
         else StoreOf(s)
  {
    hide StoredResume;
    match StoredResume(s)
    case Some(id) => SetContinuousActions(s, s.persistent.continuousActions - {id})
    case None => s
  }

  function ResumeArguments(s: State): Json {
    match StoredResume(s)
    case Some(id) => s.persistent.continuousActions[id].arguments
    case None => Null
  }

  function StartResume(c: Setup, s: State, arguments: Json): (t: State)
    ensures SamePlace(s, t)
    ensures KeepsStore(s, t)
    ensures "onResume" in c.actions ==> StoreOf(t) == StoreOf(s) && t.control.handler == s.control.handler
    ensures StartsNoSettings(s, t)
    ensures KeepsSegment(s, t)
  {
    hide RunActionStep, Json.Put;
    match arguments.Put("action", Str("resume"))
    case Failure => s.(crashed := true)
    case Success(given) => RunActionStep(c, s, "onResume", given,
      ResumeDone(s.control.handler, s.persistent.currentIndex))
  }

  function ActivatedStep(c: Setup, s: State, h: nat, fromBeginning: bool): (t: State)
    ensures SamePlace(s, t)
    ensures StartsNoSettings(s, t)
    ensures KeepsSegment(s, t)
  {
    hide StartResume, RunStoredActions, TakeResumeEntry;
    if !s.control.IsValid(h) then s
    else if "onResume" !in c.actions || fromBeginning then RunStoredActions(s.Push(StartItem(!fromBeginning, h)))
    else StartResume(c, TakeResumeEntry(s), ResumeArguments(s))
  }

  /** One round of the loop over the stored actions. */
  function RestoreStep(c: Setup, s: State, rest: seq<ActionState>, h: nat): (t: State)
    ensures SamePlace(s, t)
    ensures KeepsStore(s, t)
    ensures KeepsSegment(s, t)
  {
    if rest == [] then s else
    var t := s.Push(Restore(rest[1..], h));
    if rest[0].name !in c.actions || rest[0].name == "onResume" then t
    else t.Push(Perform(rest[0].name, rest[0].arguments, Nop))
  }

  /** A mission is done when its last item is completed, or is the current one after landing. */
  predicate MissionDone(s: State) {
    s.persistent.currentIndex.Some? &&
    var index := s.persistent.currentIndex.value;
    (s.landed && index == |s.mission.items| - 1) || index >= |s.mission.items|
  }

  /** The call that lets the resume action store what it needs. */
  const StoreResume := Perform("onResume", Obj(map["action" := Str("storeState")]), Nop)

  /** Deactivation drops the scheduled mode and disowns every callback. */
  function Leave(s: State): (t: State)
    ensures SamePlace(s.(active := false), t) && t.crashed == s.crashed
    ensures StoreOf(t) == StoreOf(s).(active := false)
  {
    InvalidateHandler(SetScheduled(s.(active := false), None))
  }

  function OnDeactivate(c: Setup, s: State): State
  {
    var t := Leave(s);
    if MissionDone(t) then ResetMissionState(ClearFile(c, t)).Push(Cleanup)
    else PushStore(c, t)
  }

  /** The resume action stores its state, then the file is written, then the actions are deactivated. */
  function PushStore(c: Setup, s: State): (t: State)
    ensures t == s.(control := t.control) && t.control.flight == s.control.flight
  {
    var u := s.Push(Cleanup).Push(SaveState);
    if "onResume" in c.actions then u.Push(StoreResume) else u
  }

  function ClearFile(c: Setup, s: State): (t: State)
    ensures t == s.(file := t.file)
  {
    if c.persistent then s.(file := None) else s
  }

  function SaveStep(c: Setup, s: State): (t: State)
    ensures t == s.(file := t.file)
  {
    hide EncodeState;
    if !c.persistent then s
    else if s.persistent.currentIndex.None? || !s.mission.IndexValid(s.persistent.currentIndex.value)
    then ClearFile(c, s)
    else s.(file := Some(EncodeState(s.persistent)))
  }

  /** The stored state, if it belongs to this mission and points into it. */
  function LoadedState(c: Setup, file: Option<Json>, mission: Mission): Option<PersistentState> {
    if !c.persistent || file.None? then None else
    match DecodeState(file.value)
    case Failure => None
    case Success(p) =>
      if p.missionChecksum == Checksum(c.hash, mission) && p.currentIndex.Some? &&
        mission.IndexValid(p.currentIndex.value)
      then Some(p) else None
  }

  predicate Feasible(c: Setup, mission: Mission) {
    mission.items != [] && forall i :: 0 <= i < |mission.items| && mission.items[i].ActionItem? ==>
      mission.items[i].name in c.actions
  }

  function SetMissionStep(c: Setup, s: State, mission: Mission): State {
    if s.active then s else
    var t := s.(mission := mission, hasValidMission := Feasible(c, mission),
                persistent := s.persistent.(missionChecksum := Checksum(c.hash, mission)));
    match LoadedState(c, s.file, mission)
    case Some(p) => t.(persistent := p)
    case None => ResetMissionState(t)
  }

  /** One update of the trajectory executor: fly on, fail, or report the index that was reached. */
  function UpdateSetpointStep(c: Setup, s: State, positionValid: bool, reached: bool): (t: State)
    ensures KeepsStore(s, t)
    ensures StartsNoSettings(s, t)
  {
    if s.itemState != Trajectory || s.control.flight.target.None? then s else
    var index := s.control.flight.target.value;
    if !(0 <= index < |s.control.flight.items|) then s.(crashed := true)  // read past the end of the items
    else if s.control.flight.items[index].ActionItem? then ReachIndex(s, index)
    else if !positionValid then StartAbort(s, "trajectoryFailure")
    else if reached then ReachIndex(s, index)
    else s
  }

  /** The trajectory executor heads for the index after the one that was reached. */
  function HeadOn(k: Control, index: int): Control {
    k.(flight := k.flight.(target := if index + 1 > k.flight.end then None else Some(index + 1)))
  }

  /** The report comes last, as it may already install another trajectory. */
  function Reached(k: Control, index: int): Control {
    match k.flight.report
    case NoReport => HeadOn(k, index)
    case SegmentStep(h, end) =>
      if k.IsValid(h) && index == end then HeadOn(k, index).Push(StartItem(false, h)) else HeadOn(k, index)
    case CustomStep(done, end) => if index == end then HeadOn(k, index).Push(Invoke(done)) else HeadOn(k, index)
  }

  /** A segment of the mission moves the index to the one that comes next. */
  function ReachIndex(s: State, index: int): (t: State)
    ensures KeepsStore(s, t)
    ensures StartsNoSettings(s, t)
    ensures t.mission == s.mission && t.hasValidMission == s.hasValidMission
    ensures t.persistent.missionChecksum == s.persistent.missionChecksum
  {
    (match s.control.flight.report
     case SegmentStep(h, _) => if s.control.IsValid(h) then SetCurrentIndex(s, index + 1) else s
     case _ => s).(control := Reached(s.control, index))
  }

  lemma ReachIndexControl(s: State, index: int)
    ensures ReachIndex(s, index).control == Reached(s.control, index)
  {
    hide Reached, KeepsStore, StartsNoSettings;
  }

  function FinishMode(s: State, outcome: Outcome): (t: State)
    ensures SamePlace(s, t)
    ensures KeepsStore(s, t)
    ensures StartsNoSettings(s, t)
    ensures KeepsSegment(s, t)
  {
    hide ModeFailed;
    match s.control.scheduled
    case None => s
    case Some(callback) =>
      var t := SetScheduled(s, None);
      match outcome
      case Succeeded => t.Push(Invoke(callback.done))
      case Failed => ModeFailed(t, callback.onFailure)
      case Dropped => t
  }

  function FireTimer(s: State): (t: State)
    ensures SamePlace(s, t)
    ensures KeepsStore(s, t)
    ensures StartsNoSettings(s, t)
    ensures KeepsSegment(s, t)
  {
    match s.control.holdTimer
    case None => s
    case Some(done) => SetTimer(s, None).Push(Invoke(done))
  }

  function ExternalStep(c: Setup, s: State, event: Event, answer: Answer): State
  {
    match event
    case SetMission(mission) => SetMissionStep(c, s, mission)
    case ResetMission =>
      if s.active then s else ResetMissionState(s.(mission := EmptyMission, hasValidMission := false))
    case Activate => if s.active then s else OnActivate(c, s)
    case Deactivate => if s.active then OnDeactivate(c, s) else s
    case ModeFinished(outcome) => FinishMode(s, outcome)
    case UpdateSetpoint(positionValid, reached) => UpdateSetpointStep(c, s, positionValid, reached)
    case TimerFired => FireTimer(s)
    case ClientTurn(run) => if run < |s.control.runs| then s.Push(Client(run)) else s
    case AbortRequest => if s.active then StartAbort(s, "other") else s
    case LandedChanged(landed) => s.(landed := landed)
    case ReadinessChanged(ready) => if s.active then s else s.(actionsReady := ready)
  }

  // ---- One step ----

  /** The outermost abort counts the failure actions it causes from one. */
  function EnterAbort(s: State): (t: State)
    ensures SamePlace(s, t)
    ensures KeepsStore(s, t)
  {
    var k := s.control;
    s.(control := k.(abortLevel := k.abortLevel + 1, failureRuns := if k.abortLevel == 0 then 0 else k.failureRuns))
      .Push(AbortEnd)
  }

  function CountFailure(s: State): (t: State)
    ensures SamePlace(s, t)
    ensures KeepsStore(s, t)
  {
    s.(control := s.control.(failureRuns := s.control.failureRuns + 1))
  }

  function FailureArguments(s: State, reason: string): Json {
    var fields := map["recursionLevel" := Int(s.control.abortLevel), "reason" := Str(reason)];
    Obj(match s.persistent.currentIndex case None => fields case Some(i) => fields["currentIndex" := Int(i)])
  }

  function AbortMainStep(c: Setup, s: State, reason: string): (t: State)
    ensures SamePlace(s, t)
    ensures KeepsStore(s, t)
    ensures StartsNoSettings(s, t)
    ensures KeepsSegment(s, t)
  {
    hide RunActionStep;
    if "onFailure" !in c.actions then s
    else if !s.active then EnterAbort(s)
    else RunActionStep(c, CountFailure(EnterAbort(s)), "onFailure", FailureArguments(EnterAbort(s), reason), Nop)
  }

  predicate Calls(f: Frame) {
    f.Invoke? || f.Perform? || f.Activated? || f.Restore? || f.StartItem? || f.AbortMain?
  }

  /** Client code is in control. */
  predicate InClient(f: Frame) {
    f.Client? || f.ActivatedHook? || f.CleanupHooks?
  }

  lemma PlaceOf(s: State, t: State)
    ensures SamePlace(s, t) ==> SameButIndex(s, t)
    ensures SameButIndex(s, t) ==> SameButIndex(s.(segments := t.segments), t) && t.mission == s.mission
    ensures SamePlace(s.(segments := t.segments), t) ==>
      SameButIndex(s.(segments := t.segments), t) && t.mission == s.mission
  {
    if SameButIndex(s, t) && !SamePlace(s, t) {
      var index :| s.mission.IndexValid(index) && SamePlace(SetCurrentIndex(s, index), t);
      assert SamePlace(SetCurrentIndex(s.(segments := t.segments), index), t);
    }
  }

  function CallStep(c: Setup, s: State, f: Frame, answer: Answer): (t: State)
    ensures !(f.Invoke? && f.c.ItemDone?) ==> SameButIndex(s.(segments := t.segments), t)
    ensures !f.StartItem? && !f.Restore? ==> StartsNoSettings(s, t)
    ensures t.mission == s.mission
    ensures !f.StartItem? ==> KeepsSegment(s, t)
    ensures
      !f.StartItem? && !(f.Invoke? && f.c.ItemDone?) &&
      !(f.Perform? && f.name in c.actions && c.actions[f.name].OnResume?) ==>
        SamePlace(s, t)
    ensures f.StartItem? ==> SamePlace(s.(segments := t.segments), t)
  {
    hide InvokeStep, PerformStep, ActivatedStep, RestoreStep, StartItemStep, AbortMainStep, SamePlace, SameButIndex,
      KeepsStore, KeepsSegment, StartsNoSettings, StartsOnlyItem;
    var t := match f
      case Invoke(closure) => InvokeStep(c, s, closure, answer)
      case Perform(name, arguments, done) => PerformStep(c, s, name, arguments, done, answer)
      case Activated(h, fromBeginning) => ActivatedStep(c, s, h, fromBeginning)
      case Restore(rest, h) => RestoreStep(c, s, rest, h)
      case StartItem(resuming, _) => StartItemStep(c, s, resuming, answer)
      case AbortMain(reason) => AbortMainStep(c, s, reason)
      case _ => s;
    PlaceOf(s, t);
    Itself(s);
    t
  }

  function EndAbort(s: State): (t: State)
    ensures SamePlace(s, t)
    ensures KeepsStore(s, t)
  {
    s.(control := s.control.(abortLevel := if s.control.abortLevel == 0 then 0 else s.control.abortLevel - 1))
  }

  function ReturnStep(c: Setup, s: State, f: Frame): (t: State)
    ensures SamePlace(s.(file := t.file), t)
    ensures KeepsSegment(s, t)
  {
    hide DeactivateDefaults, SaveStep;
    match f
    case ArmTimer(done) => SetTimer(s, Some(done))
    case EnterTrajectory => s.(itemState := Trajectory)
    case AbortEnd => EndAbort(s)
    case SaveState => SaveStep(c, s)
    case Cleanup => DeactivateDefaults(s).Push(CleanupHooks)
    case _ => s
  }

  function Continue(c: Setup, s: State, answer: Answer): (t: State)
    ensures t.mission == s.mission
  {
    var f := s.control.Top();
    if Calls(f) then CallStep(c, Popped(s), f, answer)
    else if InClient(f) then s
    else ReturnStep(c, Popped(s), f)
  }

  /**
    * A label that does not fit the state leaves it unchanged. While the actions are told about a deactivation
    * (`CleanupHooks`), client code may let go of its tokens and is under contract to do nothing else.
    */
  function Step(c: Setup, s: State, l: Label): State {
    if s.crashed then s
    else if s.control.stack == [] then (if l.External? then ExternalStep(c, s, l.event, l.answer) else s)
    else match s.control.Top()
      case Client(run) => if l.User? then CommandStep(c, s, run, l.command, l.answer) else s
      case ActivatedHook =>
        if !l.User? then s
        else if l.command.Return? then Popped(s)
        else if l.command.Abort? && s.active then StartAbort(s, "other")
        else s
      case CleanupHooks =>
        if !l.User? then s
        else if l.command.Return? then Popped(s)
        else if l.command.DropState? then DropStep(s, l.command.id)
        else s
      case _ => if l.Internal? then Continue(c, s, l.answer) else s
  }

  // ---- What a step runs ----

  lemma CrashedStep(c: Setup, s: State, l: Label)
    requires s.crashed
    ensures Step(c, s, l) == s
  {
    hide ExternalStep, CommandStep, StartAbort, DropStep, Continue;
  }

  lemma EventStep(c: Setup, s: State, event: Event, answer: Answer)
    requires !s.crashed && s.control.stack == []
    ensures Step(c, s, External(event, answer)) == ExternalStep(c, s, event, answer)
  {
    hide ExternalStep, CommandStep, StartAbort, DropStep, Continue;
  }

  lemma UnfitStep(c: Setup, s: State, l: Label)
    requires if s.control.stack == [] then !l.External? else if InClient(s.control.Top()) then !l.User?
      else !l.Internal?
    ensures Step(c, s, l) == s
  {
    hide ExternalStep, CommandStep, StartAbort, DropStep, Continue;
  }

  lemma ClientStep(c: Setup, s: State, run: nat, command: Command, answer: Answer)
    requires !s.crashed && s.control.Top() == Client(run)
    ensures Step(c, s, User(command, answer)) == CommandStep(c, s, run, command, answer)
  {
    hide ExternalStep, CommandStep, StartAbort, DropStep, Continue;
  }

  lemma HookStep(c: Setup, s: State, answer: Answer)
    requires !s.crashed && (s.control.Top() == ActivatedHook || s.control.Top() == CleanupHooks)
    ensures Step(c, s, User(Return, answer)) == Popped(s)
  {
    hide ExternalStep, CommandStep, StartAbort, DropStep, Continue, SamePlace;
  }

  lemma HookDropStep(c: Setup, s: State, id: nat, answer: Answer)
    requires !s.crashed && s.control.Top() == CleanupHooks
    ensures Step(c, s, User(DropState(id), answer)) == DropStep(s, id)
  {
    hide ExternalStep, CommandStep, StartAbort, DropStep, Continue, KeepsStore, KeepsSegment, SamePlace, SameButIndex,
      StartsNoSettings, StartsOnlyItem;
  }

  lemma FrameStep(c: Setup, s: State, answer: Answer)
    requires !s.crashed && s.control.stack != [] && Calls(s.control.Top())
    ensures Step(c, s, Internal(answer)) == CallStep(c, Popped(s), s.control.Top(), answer)
  {
    hide ExternalStep, CommandStep, StartAbort, DropStep, CallStep, ReturnStep, KeepsStore, KeepsSegment, SamePlace,
      SameButIndex, StartsNoSettings, StartsOnlyItem;
  }

  lemma InvokeFrame(c: Setup, s: State, closure: Closure, answer: Answer)
    requires !s.crashed && s.control.Top() == Invoke(closure)
    ensures Step(c, s, Internal(answer)) == InvokeStep(c, Popped(s), closure, answer)
  {
    hide Step, InvokeStep, PerformStep, ActivatedStep, RestoreStep, StartItemStep, AbortMainStep;
    FrameStep(c, s, answer);
  }

  lemma PerformFrame(c: Setup, s: State, name: string, arguments: Json, done: Closure, answer: Answer)
    requires !s.crashed && s.control.Top() == Perform(name, arguments, done)
    ensures Step(c, s, Internal(answer)) == PerformStep(c, Popped(s), name, arguments, done, answer)
  {
    hide Step, InvokeStep, PerformStep, ActivatedStep, RestoreStep, StartItemStep, AbortMainStep;
    FrameStep(c, s, answer);
  }

  lemma ActivatedFrame(c: Setup, s: State, h: nat, fromBeginning: bool, answer: Answer)
    requires !s.crashed && s.control.Top() == Activated(h, fromBeginning)
    ensures Step(c, s, Internal(answer)) == ActivatedStep(c, Popped(s), h, fromBeginning)
  {
    hide Step, InvokeStep, PerformStep, ActivatedStep, RestoreStep, StartItemStep, AbortMainStep, SameButIndex,
      SamePlace;
    FrameStep(c, s, answer);
  }

  lemma RestoreFrame(c: Setup, s: State, rest: seq<ActionState>, h: nat, answer: Answer)
    requires !s.crashed && s.control.Top() == Restore(rest, h)
    ensures Step(c, s, Internal(answer)) == RestoreStep(c, Popped(s), rest, h)
  {
    hide Step, InvokeStep, PerformStep, ActivatedStep, RestoreStep, StartItemStep, AbortMainStep, SameButIndex;
    FrameStep(c, s, answer);
  }

  lemma StartFrame(c: Setup, s: State, resuming: bool, h: nat, answer: Answer)
    requires !s.crashed && s.control.Top() == StartItem(resuming, h)
    ensures Step(c, s, Internal(answer)) == StartItemStep(c, Popped(s), resuming, answer)
  {
    hide Step, InvokeStep, PerformStep, ActivatedStep, RestoreStep, StartItemStep, AbortMainStep, SameButIndex,
      SamePlace;
    FrameStep(c, s, answer);
  }

  lemma AbortFrame(c: Setup, s: State, reason: string, answer: Answer)
    requires !s.crashed && s.control.Top() == AbortMain(reason)
    ensures Step(c, s, Internal(answer)) == AbortMainStep(c, Popped(s), reason)
  {
    hide Step, InvokeStep, PerformStep, ActivatedStep, RestoreStep, StartItemStep, AbortMainStep, KeepsSegment,
      SameButIndex, SamePlace, StartsNoSettings;
    FrameStep(c, s, answer);
  }

  lemma ReturnFrame(c: Setup, s: State, answer: Answer)
    requires !s.crashed && s.control.stack != [] && !Calls(s.control.Top()) && !InClient(s.control.Top())
    ensures Step(c, s, Internal(answer)) == ReturnStep(c, Popped(s), s.control.Top())
  {
    hide ExternalStep, CommandStep, StartAbort, DropStep, CallStep, ReturnStep, KeepsStore, KeepsSegment, SamePlace,
      SameButIndex, StartsNoSettings, StartsOnlyItem;
  }

  // ---- Runs ----

  function Steps(c: Setup, s: State, ls: seq<Label>): State
    decreases |ls|, 1
  {
    if ls == [] then s else LastStep(c, s, ls)
  }

  function LastStep(c: Setup, s: State, ls: seq<Label>): State
    requires ls != []
    decreases |ls|, 0
  {
    Step(c, Steps(c, s, ls[..|ls| - 1]), ls[|ls| - 1])
  }

  lemma {:induction false} StepsOn(c: Setup, s: State, a: seq<Label>, b: seq<Label>)
    ensures Steps(c, s, a + b) == Steps(c, Steps(c, s, a), b)
  {
    hide Step;
    if b == [] {
      assert a + b == a;
    } else {
      StepsOn(c, s, a, b[..|b| - 1]);
      assert (a + b)[..|a + b| - 1] == a + b[..|b| - 1];
    }
  }

  lemma OneStep(c: Setup, s: State, l: Label)
    ensures Steps(c, s, [l]) == Step(c, s, l)
  {
    hide Step;
    assert [l][..0] == [];
    assert Steps(c, s, [l]) == LastStep(c, s, [l]);
  }

  lemma FourSteps(c: Setup, s: State, k: Label, l: Label, m: Label, n: Label)
    ensures Steps(c, s, [k, l, m, n]) == Step(c, Step(c, Step(c, Step(c, s, k), l), m), n)
  {
    hide Step;
    assert [k, l, m, n][..3] == [k, l, m] && [k, l, m][..2] == [k, l] && [k, l][..1] == [k] && [k][..0] == [];
    assert Steps(c, s, [k]) == Step(c, Steps(c, s, []), k);
    assert Steps(c, s, [k, l]) == Step(c, Steps(c, s, [k]), l);
    assert Steps(c, s, [k, l, m]) == Step(c, Steps(c, s, [k, l]), m);
    assert Steps(c, s, [k, l, m, n]) == Step(c, Steps(c, s, [k, l, m]), n);
  }
}
