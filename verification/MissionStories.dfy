/** Concrete runs, each a complete run of a new executor: an abort that does not stop the mission, a loaded entry that
    is lost, a token that removes another's entry, a resumption that is lost, and one that reads past the items. */
module MissionStories {
  import opened Wrappers
  import opened JsonValues
  import opened Missions
  import opened OrderedMaps
  import opened PersistentStates
  import opened MissionTypes
  import opened MissionSteps
  import opened MissionPersistence

  // ---- What they share ----

  const NoHash: Json -> string := _ => ""
  const Task := Custom(_ => false, false)

  function Plain(actions: map<string, ActionKind>): Setup {
    Setup(actions, 23, true, NoHash)
  }

  ghost predicate IsTask(c: Setup, name: string) {
    name in c.actions && c.actions[name] == Task
  }

  /** The first handler, run and id. */
  const First: nat := 0
  const Second: nat := 1

  const Internally := Internal(Accepted)
  const Returns := User(Return, Accepted)

  /** A mission arrives and the mode is activated. */
  function Opening(m: Mission, landed: bool, ready: bool): seq<Label> {
    [External(SetMission(m), Accepted), External(LandedChanged(landed), Accepted),
     External(ReadinessChanged(ready), Accepted), External(Activate, Accepted)]
  }

  lemma SetMissionRests(c: Setup, s: State, m: Mission)
    ensures SetMissionStep(c, s, m).control == s.control && SetMissionStep(c, s, m).active == s.active
    ensures SetMissionStep(c, s, m).crashed == s.crashed
  {
    hide LoadedState, Feasible, Checksum;
  }

  lemma Opens(c: Setup, s: State, m: Mission, landed: bool, ready: bool)
    requires !s.active && !s.crashed && s.control.stack == []
    ensures Steps(c, s, Opening(m, landed, ready))
         == OnActivate(c, SetMissionStep(c, s, m).(landed := landed, actionsReady := ready))
  {
    hide Step, SetMissionStep, OnActivate, StartAbort, FinishMode, FireTimer, UpdateSetpointStep, OnDeactivate;
    var t := SetMissionStep(c, s, m);
    var u := t.(landed := landed);
    SetMissionRests(c, s, m);
    FourSteps(c, s, External(SetMission(m), Accepted), External(LandedChanged(landed), Accepted),
      External(ReadinessChanged(ready), Accepted), External(Activate, Accepted));
    EventStep(c, s, SetMission(m), Accepted);
    EventStep(c, t, LandedChanged(landed), Accepted);
    EventStep(c, u, ReadinessChanged(ready), Accepted);
    EventStep(c, u.(actionsReady := ready), Activate, Accepted);
  }

  function Saved(index: int, actions: map<nat, ActionState>): PersistentState {
    PersistentState(Some(index), "", actions)
  }

  /** Loading a file: the entries are numbered from zero. */
  lemma Loads(actions: map<string, ActionKind>, s: State, m: Mission, index: int, entries: map<nat, ActionState>)
    requires !s.active && s.file == Some(EncodeState(Saved(index, entries))) && m.IndexValid(index)
    ensures SetMissionStep(Plain(actions), s, m)
         == s.(mission := m, hasValidMission := Feasible(Plain(actions), m),
               persistent := Saved(index, Renumbered(Values(entries))))
  {
    hide Feasible, LoadedState, EncodeState, Renumbered, Values, EncodeMission, ResetMissionState;
    LoadedIff(Plain(actions), Saved(index, entries), m);
  }

  lemma OneValue(a: ActionState)
    ensures Renumbered(Values(map[First := a])) == map[First := a] && Values(map[First := a]) == [a]
  {
    assert Renumbered([a]) == map[First := a];
    RenumberedValues([a]);
  }

  lemma NoValues()
    ensures Values<ActionState>(map[]) == [] && Renumbered(Values<ActionState>(map[])) == map[]
  {
    var none: seq<ActionState> := [];
    assert Renumbered(none) == map[];
    RenumberedValues(none);
  }

  lemma OnTop(s: State, f: Frame)
    ensures Popped(s.Push(f)) == s && s.Push(f).control.Top() == f && s.Push(f).control.stack != []
  {
    assert (s.control.stack + [f])[..|s.control.stack|] == s.control.stack;
  }

  lemma HookReturns(c: Setup, s: State, f: Frame)
    requires !s.crashed && (f == ActivatedHook || f == CleanupHooks)
    ensures Step(c, s.Push(f), Returns) == s
  {
    hide Step;
    OnTop(s, f);
    HookStep(c, s.Push(f), Accepted);
  }

  lemma ClientReturns(c: Setup, s: State)
    requires !s.crashed && s.control.runs != []
    ensures Step(c, s.Push(Client(First)), Returns) == s
  {
    hide Step, HandlerMode, RunActionStep, HandlerTrajectory, StoreStateStep, CompleteStep, SetIndexStep, DropStep;
    OnTop(s, Client(First));
    ClientStep(c, s.Push(Client(First)), First, Return, Accepted);
  }

  lemma LoopEnds(c: Setup, s: State)
    requires !s.crashed
    ensures Step(c, s.Push(Restore([], First)), Internally) == s
  {
    hide Step;
    OnTop(s, Restore([], First));
    RestoreFrame(c, s.Push(Restore([], First)), [], First, Accepted);
  }

  lemma Runs(c: Setup, s: State, name: string, arguments: Json, done: Closure)
    requires !s.crashed && IsTask(c, name)
    ensures Step(c, s.Push(Perform(name, arguments, done)), Internally) == RunCustomStep(s, done)
  {
    hide Step, ResumeStep, ChangeSettingsStep, TakeoffStep, HoldStep, RunModeStep, AddRun, KeepsStore, SameButIndex;
    OnTop(s, Perform(name, arguments, done));
    PerformFrame(c, s.Push(Perform(name, arguments, done)), name, arguments, done, Accepted);
  }

  lemma FirstRun(s: State, done: Closure)
    requires s.control.runs == []
    ensures RunCustomStep(s, done)
         == s.(control := s.control.(runs := [Run(s.control.handler, done)])).Push(Client(First))
  {
    assert [] + [Run(s.control.handler, done)] == [Run(s.control.handler, done)];
  }

  /** An abort of the first run or of the activation. */
  lemma Aborts(s: State, reason: string)
    requires s.control.abortLevel <= 10 && s.settingsKeeper.None? && s.control.valid == {s.control.handler}
    ensures var h := s.control.handler + 1;
      StartAbort(s, reason)
      == s.(control := s.control.(valid := {h}, handler := h, holdTimer := None))
         .Push(AbortMain(reason)).Push(CleanupHooks)
  {
  }

  // ---- A mission of one action, from the beginning ----

  const Mine := Mission(NoOptions, [ActionItem("", "task", Null)])

  /** The states of its item. */
  function AtTask(landed: bool): State {
    Initial(None).(mission := Mine, hasValidMission := true, actionsReady := true, active := true, activeMode := 23,
      landed := landed, persistent := Saved(First, map[]), reports := [Progress(First)])
  }

  lemma Activates(c: Setup, landed: bool)
    requires c.ownMode == 23 && c.hash == NoHash && IsTask(c, "task")
    ensures Steps(c, Initial(None), Opening(Mine, landed, true))
         == AtTask(landed).Push(Activated(First, true)).Push(ActivatedHook)
  {
    hide Steps, StartAbort, DecodeState, EncodeMission;
    Opens(c, Initial(None), Mine, landed, true);
    assert Feasible(c, Mine);
    assert [] + [Progress(First)] == [Progress(First)];
  }

  lemma TakesOutNothing(c: Setup, landed: bool)
    ensures ActivatedStep(c, AtTask(landed), First, true)
         == AtTask(landed).Push(StartItem(false, First)).Push(Restore([], First))
  {
    hide Values, StartResume;
    NoValues();
  }

  const Item := Perform("task", Null, ItemDone(First))

  lemma TaskStarts(c: Setup, landed: bool)
    requires IsTask(c, "task")
    ensures StartItemStep(c, AtTask(landed), false, Accepted) == AtTask(landed).Push(Item)
  {
    hide StartAbort, Segments.SegmentEnd, Segments.SegmentStop, RunModeStep, RunTrajectoryStep;
  }

  /** The states of the run of the action. */
  function TaskRuns(landed: bool): State {
    AtTask(landed).(control := NoControl.(runs := [Run(First, ItemDone(First))]))
  }

  const Beginning := [Returns, Internally, Internally, Internally]

  lemma TaskBegins(c: Setup, landed: bool)
    requires c.ownMode == 23 && c.hash == NoHash && IsTask(c, "task")
    ensures Steps(c, Initial(None), Opening(Mine, landed, true) + Beginning) == AtTask(landed).Push(Item)
  {
    hide Step, Steps, ActivatedStep, StartItemStep, RestoreStep;
    var s := AtTask(landed);
    StepsOn(c, Initial(None), Opening(Mine, landed, true), Beginning);
    Activates(c, landed);
    var t := s.Push(Activated(First, true));
    FourSteps(c, t.Push(ActivatedHook), Returns, Internally, Internally, Internally);
    HookReturns(c, t, ActivatedHook);
    OnTop(s, Activated(First, true));
    ActivatedFrame(c, t, First, true, Accepted);
    TakesOutNothing(c, landed);
    LoopEnds(c, s.Push(StartItem(false, First)));
    OnTop(s, StartItem(false, First));
    StartFrame(c, s.Push(StartItem(false, First)), false, First, Accepted);
    TaskStarts(c, landed);
  }

  // ---- A resumption past the end ----

  const Resume := Obj(map["action" := Str("resume")])
  const Resuming := Plain(map["task" := Task, "onResume" := OnResume])

  /** The states after the mission. */
  function Done(k: Control): State {
    AtTask(true).(control := k, persistent := Saved(1, map[]), reports := [Progress(First), Completed])
  }

  const Finished := NoControl.(runs := [Run(First, ItemDone(First))], completedRuns := {First},
    stack := [Client(First)])
  const Loitering := Done(Finished.(scheduled := Some(ModeCallback(Nop, None)))).(activeMode := LOITER)

  lemma TaskCompletes()
    ensures CommandStep(Resuming, TaskRuns(true).Push(Client(First)), First, Complete, Accepted)
         == TaskRuns(true).(control := Finished).Push(Invoke(ItemDone(First)))
  {
    hide HandlerMode, RunActionStep, HandlerTrajectory, StoreStateStep, SetIndexStep, DropStep;
    assert [] + [Client(First)] == [Client(First)];
  }

  lemma MovesOn()
    ensures InvokeStep(Resuming, TaskRuns(true).(control := Finished), ItemDone(First), Accepted)
         == Done(Finished).Push(StartItem(false, First))
  {
    hide HandlerMode, ResumeMission, NavigateToPreviousWaypoint, KeepsStore, KeepsSegment, SamePlace, SameButIndex,
      StartsNoSettings, StartsOnlyItem;
    assert [Progress(First)] + [Completed] == [Progress(First), Completed];
  }

  lemma Loiters()
    ensures StartItemStep(Resuming, Done(Finished), false, Accepted) == Loitering
  {
    hide StartAbort, Segments.SegmentEnd, Segments.SegmentStop, RunActionStep, RunTrajectoryStep;
  }

  const LateEntry := Perform("onResume", Resume, UserCode(First, First))

  lemma ClientResumes()
    ensures CommandStep(Resuming, Loitering, First, RunAction("onResume", Resume), Accepted)
         == Loitering.Push(LateEntry)
  {
    hide StartAbort, HandlerMode, HandlerTrajectory, StoreStateStep, CompleteStep, SetIndexStep, DropStep;
  }

  lemma ResumptionFails()
    ensures PerformStep(Resuming, Loitering, "onResume", Resume, UserCode(First, First), Accepted).crashed
  {
    hide ChangeSettingsStep, TakeoffStep, HoldStep, RunModeStep, RunCustomStep, ResumeFromUnexpectedLanding, KeepsStore,
      KeepsSegment, SamePlace, SameButIndex, StartsNoSettings, StartsOnlyItem;
  }

  const UpToCompletion := [Internally, User(Complete, Accepted), Internally, Internally]
  const LateResumption := User(RunAction("onResume", Resume), Accepted)

  lemma Completes()
    ensures Steps(Resuming, AtTask(true).Push(Item), UpToCompletion) == Loitering
  {
    hide Step, Steps, CommandStep, InvokeStep, StartItemStep;
    var c, s := Resuming, TaskRuns(true);
    FourSteps(c, AtTask(true).Push(Item), Internally, User(Complete, Accepted), Internally, Internally);
    Runs(c, AtTask(true), "task", Null, ItemDone(First));
    FirstRun(AtTask(true), ItemDone(First));
    OnTop(s, Client(First));
    ClientStep(c, s.Push(Client(First)), First, Complete, Accepted);
    TaskCompletes();
    var t := s.(control := Finished);
    OnTop(t, Invoke(ItemDone(First)));
    InvokeFrame(c, t.Push(Invoke(ItemDone(First))), ItemDone(First), Accepted);
    MovesOn();
    OnTop(Done(Finished), StartItem(false, First));
    StartFrame(c, Done(Finished).Push(StartItem(false, First)), false, First, Accepted);
    Loiters();
  }

  /** The mission is done, its last action still owns its handler, and the vehicle has landed: when the action then runs
      the resume action, that reads past the end of the items. */
  lemma ResumptionReadsPastEnd()
    ensures var s := Steps(Resuming, Initial(None),
        Opening(Mine, true, true) + Beginning + UpToCompletion + [LateResumption]);
      !s.crashed && s.control.stack == [Client(First), LateEntry] &&
        s.persistent.currentIndex == Some(|s.mission.items|)
      && Step(Resuming, s, Internally).crashed
  {
    hide Step, Steps, CommandStep, PerformStep, KeepsStore, KeepsSegment, SamePlace, SameButIndex, StartsNoSettings,
      StartsOnlyItem;
    var c := Resuming;
    var ls := Opening(Mine, true, true) + Beginning;
    TaskBegins(c, true);
    StepsOn(c, Initial(None), ls, UpToCompletion);
    Completes();
    StepsOn(c, Initial(None), ls + UpToCompletion, [LateResumption]);
    OneStep(c, Loitering, LateResumption);
    ClientStep(c, Loitering, First, RunAction("onResume", Resume), Accepted);
    ClientResumes();
    OnTop(Loitering, LateEntry);
    PerformFrame(c, Loitering.Push(LateEntry), "onResume", Resume, UserCode(First, First), Accepted);
    ResumptionFails();
    assert [Client(First)] + [LateEntry] == [Client(First), LateEntry];
  }

  // ---- A token that removes another's entry ----

  const Storing := Plain(map["task" := Task])
  const Camera := ActionState("camera", Null)
  const Light := ActionState("light", Null)
  const Gimbal := ActionState("gimbal", Null)

  /** The client holds the tokens of all that is stored. */
  function Holding(next: nat, actions: map<nat, ActionState>): State {
    TaskRuns(false).(nextActionId := next, clientKeepers := actions, persistent := Saved(First, actions))
  }

  lemma Stores(s: State, a: ActionState)
    requires !s.crashed && s.control.Top() == Client(First)
    requires s.control.runs == [Run(First, ItemDone(First))] && s.control.valid == {First}
    ensures Step(Storing, s, User(StoreState(a.name, a.arguments), Accepted)) == StoreStateStep(s, a)
  {
    hide Step, HandlerMode, RunActionStep, HandlerTrajectory, CompleteStep, SetIndexStep, DropStep, StoreStateStep,
      SameButIndex;
    ClientStep(Storing, s, First, StoreState(a.name, a.arguments), Accepted);
  }

  const Three: map<nat, ActionState> := map[0 := Camera, 1 := Light, 2 := Gimbal]
  const Two: map<nat, ActionState> := map[1 := Light, 2 := Gimbal]
  const AfterThree := Holding(3, Three).Push(Client(First))
  const HoldsTwo := Holding(3, Two)

  const StoringThree := [User(StoreState("camera", Null), Accepted), User(StoreState("light", Null), Accepted),
                         User(StoreState("gimbal", Null), Accepted), User(DropState(First), Accepted)]

  lemma StoresThree()
    ensures Steps(Storing, TaskRuns(false).Push(Client(First)), StoringThree) == HoldsTwo.Push(Client(First))
  {
    hide Step, Steps;
    var c, s := Storing, Holding(0, map[]).Push(Client(First));
    var t, u := StoreStateStep(s, Camera), StoreStateStep(StoreStateStep(s, Camera), Light);
    FourSteps(c, s, User(StoreState("camera", Null), Accepted), User(StoreState("light", Null), Accepted),
      User(StoreState("gimbal", Null), Accepted), User(DropState(First), Accepted));
    OnTop(Holding(0, map[]), Client(First));
    Stores(s, Camera);
    Stores(t, Light);
    Stores(u, Gimbal);
    assert AfterThree == StoreStateStep(u, Gimbal);
    assert Step(Storing, AfterThree, User(DropState(First), Accepted)) == HoldsTwo.Push(Client(First)) by {
      hide Step, HandlerMode, RunActionStep, HandlerTrajectory, CompleteStep, SetIndexStep, StoreStateStep, KeepsStore,
        KeepsSegment, SamePlace, SameButIndex, StartsNoSettings, StartsOnlyItem;
      OnTop(Holding(3, Three), Client(First));
      ClientStep(Storing, AfterThree, First, DropState(First), Accepted);
      assert Three - {0} == Two;
    }
  }

  const LeftFile := Some(EncodeState(Saved(First, Two)))
  const Left := HoldsTwo.(active := false, control := TaskRuns(false).control.(valid := {1}, handler := 1))

  lemma Leaves()
    ensures OnDeactivate(Storing, HoldsTwo) == Left.Push(Cleanup).Push(SaveState)
  {
  }

  lemma Saves()
    ensures ReturnStep(Storing, Left.Push(Cleanup), SaveState) == Left.Push(Cleanup).(file := LeftFile)
  {
    hide EncodeState, DeactivateDefaults;
  }

  lemma CleansUp()
    ensures ReturnStep(Storing, Left.(file := LeftFile), Cleanup) == Left.(file := LeftFile).Push(CleanupHooks)
  {
    hide EncodeState, SaveStep;
  }

  const Leaving := [Returns, External(Deactivate, Accepted), Internally, Internally]

  lemma LeavesAll()
    ensures Steps(Storing, HoldsTwo.Push(Client(First)), Leaving) == Left.(file := LeftFile).Push(CleanupHooks)
  {
    hide Step, Steps, OnDeactivate, ReturnStep, EncodeState, SetMissionStep, OnActivate, StartAbort, FinishMode,
      FireTimer, UpdateSetpointStep;
    var c, s := Storing, HoldsTwo;
    FourSteps(c, s.Push(Client(First)), Returns, External(Deactivate, Accepted), Internally, Internally);
    ClientReturns(c, s);
    EventStep(c, s, Deactivate, Accepted);
    Leaves();
    OnTop(Left.Push(Cleanup), SaveState);
    ReturnFrame(c, Left.Push(Cleanup).Push(SaveState), Accepted);
    Saves();
    OnTop(Left.(file := LeftFile), Cleanup);
    ReturnFrame(c, Left.(file := LeftFile).Push(Cleanup), Accepted);
    CleansUp();
  }

  lemma TwoValues()
    ensures Renumbered(Values(Two)) == map[0 := Light, 1 := Gimbal]
  {
    hide Ascending;
    var keys := SortedKeys(Two.Keys);
    assert Two.Keys == {1, 2};
    assert keys[0] in keys && keys[1] in keys;
    assert Values(Two) == [Light, Gimbal];
  }

  /** The mission has been set again, and the actions are not ready. */
  const Again := Left.(file := LeftFile, persistent := Saved(First, map[0 := Light, 1 := Gimbal]), active := true,
                       actionsReady := false, control := Left.control.(valid := {2}, handler := 2))
                 .Push(AbortMain("noValidMission")).Push(CleanupHooks)

  lemma LoadsAgain()
    ensures Steps(Storing, Left.(file := LeftFile), Opening(Mine, false, false)) == Again
  {
    hide Step, Steps, SetMissionStep, StartAbort, EncodeState, Ascending, Checksum, DecodeState, KeepsStore,
      KeepsSegment, SamePlace, SameButIndex, StartsNoSettings, StartsOnlyItem;
    var c, s := Storing, Left.(file := LeftFile);
    Opens(c, s, Mine, false, false);
    Loads(c.actions, s, Mine, First, Two);
    TwoValues();
    assert Feasible(c, Mine);
    Aborts(s.(persistent := Saved(First, map[0 := Light, 1 := Gimbal]), active := true, actionsReady := false),
      "noValidMission");
  }

  lemma DropsAnother()
    ensures DropStep(Again, Second).persistent.continuousActions == map[0 := Light]
    ensures DropStep(Again, Second).clientKeepers == map[2 := Gimbal]
  {
    hide EncodeState;
    assert map[0 := Light, 1 := Gimbal] - {1} == map[0 := Light];
    assert Two - {1} == map[2 := Gimbal];
  }

  const TokenStory := Opening(Mine, false, true) + Beginning + [Internally] + StoringThree + Leaving + [Returns]
                      + Opening(Mine, false, false)

  /** An action stores three states and drops the first; a deactivation saves the other two, and loading renumbers them
      from zero. Letting go of the light then removes the gimbal, whose token is still held, and leaves the light. */
  lemma TokenRemovesAnother()
    ensures var s := Steps(Storing, Initial(None), TokenStory);
      && s.persistent.continuousActions == map[First := Light, Second := Gimbal] && s.clientKeepers == Two
      && var t := Step(Storing, s, User(DropState(Second), Accepted));
      t.persistent.continuousActions == map[0 := Light] && t.clientKeepers == map[2 := Gimbal]
  {
    hide Step, Steps, EncodeState, DropStep;
    assert Steps(Storing, Initial(None), TokenStory) == Again by {
      hide Step, Steps, EncodeState, AddRun, FileAgrees, KeepsStore, SamePlace, StartsNoSettings;
      var c, s, a := Storing, Initial(None), Opening(Mine, false, true) + Beginning;
      TaskBegins(c, false);
      StepsOn(c, s, a, [Internally]);
      OneStep(c, AtTask(false).Push(Item), Internally);
      Runs(c, AtTask(false), "task", Null, ItemDone(First));
      FirstRun(AtTask(false), ItemDone(First));
      StepsOn(c, s, a + [Internally], StoringThree);
      StoresThree();
      StepsOn(c, s, a + [Internally] + StoringThree, Leaving);
      LeavesAll();
      StepsOn(c, s, a + [Internally] + StoringThree + Leaving, [Returns]);
      OneStep(c, Left.(file := LeftFile).Push(CleanupHooks), Returns);
      HookReturns(c, Left.(file := LeftFile), CleanupHooks);
      StepsOn(c, s, a + [Internally] + StoringThree + Leaving + [Returns], Opening(Mine, false, false));
      LoadsAgain();
    }
    HookDropStep(Storing, Again, Second, Accepted);
    DropsAnother();
  }

  // ---- A resumption that is lost ----

  const Takes := Mission(NoOptions, [ActionItem("", "takeoff", Null), ActionItem("", "task", Null)])
  const Losing := Plain(map["onFailure" := Task, "onResume" := OnResume])
  const NothingStored: map<nat, ActionState> := map[]
  const LosingFile := Some(EncodeState(Saved(Second, NothingStored)))

  /** The states of the abort. */
  function Infeasible(k: Control): State {
    Initial(LosingFile).(mission := Takes, persistent := Saved(Second, NothingStored), active := true, landed := true,
      activeMode := 23, control := k)
  }

  const Disowned := NoControl.(valid := {1}, handler := 1)
  const InFailure := Disowned.(abortLevel := 1, failureRuns := 1)

  lemma LoadsInfeasible()
    ensures Steps(Losing, Initial(LosingFile), Opening(Takes, true, false))
         == Infeasible(Disowned).Push(AbortMain("noValidMission")).Push(CleanupHooks)
  {
    hide Step, Steps, SetMissionStep, StartAbort, EncodeState;
    var c, s := Losing, Initial(LosingFile);
    Opens(c, s, Takes, true, false);
    Loads(c.actions, s, Takes, Second, NothingStored);
    NoValues();
    assert Takes.items[1].name !in c.actions;
    Aborts(Infeasible(NoControl), "noValidMission");
  }

  const NoMission := Obj(map["recursionLevel" := Int(1), "reason" := Str("noValidMission"), "currentIndex" := Int(1)])

  lemma FailureStarts()
    ensures AbortMainStep(Losing, Infeasible(Disowned), "noValidMission")
         == Infeasible(InFailure).Push(AbortEnd).Push(Perform("onFailure", NoMission, Nop))
  {
    hide EncodeState, StartAbort;
  }

  const Failing := Infeasible(InFailure.(runs := [Run(Second, Nop)])).Push(AbortEnd).Push(Client(First))
  const Entry := Perform("onResume", Resume, UserCode(Second, First))

  lemma FailureResumes()
    ensures CommandStep(Losing, Failing, First, RunAction("onResume", Resume), Accepted) == Failing.Push(Entry)
  {
    hide EncodeState, StartAbort, HandlerMode, HandlerTrajectory, StoreStateStep, CompleteStep, SetIndexStep, DropStep;
  }

  const ToResumption := [Returns, Internally, Internally, User(RunAction("onResume", Resume), Accepted)]

  lemma UpToResumption()
    ensures Steps(Losing, Initial(LosingFile), Opening(Takes, true, false) + ToResumption) == Failing.Push(Entry)
  {
    hide Step, Steps, EncodeState, AbortMainStep, CommandStep, KeepsStore, KeepsSegment, SamePlace, SameButIndex,
      StartsNoSettings, StartsOnlyItem;
    var c, s := Losing, Infeasible(Disowned);
    LoadsInfeasible();
    StepsOn(c, Initial(LosingFile), Opening(Takes, true, false), ToResumption);
    var t := s.Push(AbortMain("noValidMission"));
    FourSteps(c, t.Push(CleanupHooks), Returns, Internally, Internally, User(RunAction("onResume", Resume), Accepted));
    HookReturns(c, t, CleanupHooks);
    OnTop(s, AbortMain("noValidMission"));
    AbortFrame(c, t, "noValidMission", Accepted);
    FailureStarts();
    var u := Infeasible(InFailure).Push(AbortEnd);
    Runs(c, u, "onFailure", NoMission, Nop);
    FirstRun(u, Nop);
    OnTop(Infeasible(InFailure.(runs := [Run(Second, Nop)])).Push(AbortEnd), Client(First));
    ClientStep(c, Failing, First, RunAction("onResume", Resume), Accepted);
    FailureResumes();
  }

  lemma LandingAborts()
    ensures ResumeFromUnexpectedLanding(Losing, Failing, UserCode(Second, First), 1)
         == StartAbort(Failing, "actionDoesNotExist")
  {
    hide EncodeState, StartAbort, KeepsStore, KeepsSegment, StartsNoSettings, SamePlace, SameButIndex;
    assert TakeoffBefore(Takes.items, 1) == Some(0);
  }

  const Lost := Failing.(control := Failing.control.(valid := {2}, handler := 2))
                .Push(AbortMain("actionDoesNotExist")).Push(CleanupHooks)

  /** Without a valid mission, the failure action of a client runs the resume action, which needs a takeoff that is not
      registered, and aborts. The completion that it was given is nowhere: neither called, nor left to a frame or a
      command. */
  lemma ResumptionIsLost()
    ensures Steps(Losing, Initial(LosingFile), Opening(Takes, true, false) + ToResumption) == Failing.Push(Entry)
    ensures Steps(Losing, Initial(LosingFile), Opening(Takes, true, false) + ToResumption + [Internally]) == Lost
    ensures Lost.control.stack == [AbortEnd, Client(First), AbortMain("actionDoesNotExist"), CleanupHooks]
    ensures Lost.control.scheduled.None? && Lost.control.holdTimer.None? && Lost.control.flight == NoFlight
    ensures Lost.control.runs == [Run(Second, Nop)]
  {
    hide Step, Steps, EncodeState, StartAbort, ResumeFromUnexpectedLanding, KeepsStore, KeepsSegment, SamePlace,
      SameButIndex, StartsNoSettings, StartsOnlyItem;
    UpToResumption();
    StepsOn(Losing, Initial(LosingFile), Opening(Takes, true, false) + ToResumption, [Internally]);
    OneStep(Losing, Failing.Push(Entry), Internally);
    OnTop(Failing, Entry);
    PerformFrame(Losing, Failing.Push(Entry), "onResume", Resume, UserCode(Second, First), Accepted);
    LandingAborts();
    Aborts(Failing, "actionDoesNotExist");
    assert [] + [AbortEnd] + [Client(First)] == [AbortEnd, Client(First)];
    assert [AbortEnd, Client(First)] + [AbortMain("actionDoesNotExist")] + [CleanupHooks]
        == [AbortEnd, Client(First), AbortMain("actionDoesNotExist"), CleanupHooks];
  }

  // ---- An abort that does not stop the mission ----

  const Restoring := Plain(map["task" := Task, "onFailure" := OnFailure])
  const TaskEntry := ActionState("task", Null)
  const OneStored: map<nat, ActionState> := map[First := TaskEntry]
  const RestoringFile := Some(EncodeState(Saved(First, OneStored)))

  /** The states of the restoration. */
  function InRestoration(k: Control): State {
    Initial(RestoringFile).(mission := Mine, hasValidMission := true, actionsReady := true, active := true,
      activeMode := 23, control := k, persistent := Saved(First, NothingStored), reports := [Progress(First)])
  }

  lemma LoadsAndActivates()
    ensures Steps(Restoring, Initial(RestoringFile), Opening(Mine, false, true))
         == InRestoration(NoControl).(persistent := Saved(First, OneStored))
            .Push(Activated(First, false)).Push(ActivatedHook)
  {
    hide Steps, StartAbort, EncodeState, SetMissionStep, KeepsStore, KeepsSegment, SamePlace, SameButIndex,
      StartsNoSettings, StartsOnlyItem;
    var c, s := Restoring, Initial(RestoringFile);
    Opens(c, s, Mine, false, true);
    Loads(c.actions, s, Mine, First, OneStored);
    OneValue(TaskEntry);
    assert Feasible(c, Mine);
    assert [] + [Progress(First)] == [Progress(First)];
  }

  const Waiting := StartItem(true, First)

  lemma TakesOut()
    ensures ActivatedStep(Restoring, InRestoration(NoControl).(persistent := Saved(First, OneStored)), First, false)
         == InRestoration(NoControl).Push(Waiting).Push(Restore([TaskEntry], First))
  {
    hide EncodeState, Values, StartResume, TakeResumeEntry;
    OneValue(TaskEntry);
  }

  lemma Restores()
    ensures RestoreStep(Restoring, InRestoration(NoControl).Push(Waiting), [TaskEntry], First)
         == InRestoration(NoControl).Push(Waiting).Push(Restore([], First)).Push(Perform("task", Null, Nop))
  {
    hide EncodeState;
    assert [TaskEntry][1..] == [];
  }

  /** The frames below the restored action. */
  function Below(k: Control): State {
    InRestoration(k).Push(Waiting).Push(Restore([], First))
  }

  const Restored := NoControl.(runs := [Run(First, Nop)])

  lemma UpToAction()
    ensures Steps(Restoring, Initial(RestoringFile), Opening(Mine, false, true) + Beginning)
         == Below(Restored).Push(Client(First))
  {
    hide Step, Steps, EncodeState, ActivatedStep, RestoreStep;
    var c, s := Restoring, InRestoration(NoControl);
    LoadsAndActivates();
    StepsOn(c, Initial(RestoringFile), Opening(Mine, false, true), Beginning);
    var t := s.(persistent := Saved(First, OneStored));
    FourSteps(c, t.Push(Activated(First, false)).Push(ActivatedHook), Returns, Internally, Internally, Internally);
    HookReturns(c, t.Push(Activated(First, false)), ActivatedHook);
    OnTop(t, Activated(First, false));
    ActivatedFrame(c, t.Push(Activated(First, false)), First, false, Accepted);
    TakesOut();
    OnTop(s.Push(Waiting), Restore([TaskEntry], First));
    RestoreFrame(c, s.Push(Waiting).Push(Restore([TaskEntry], First)), [TaskEntry], First, Accepted);
    Restores();
    Runs(c, Below(NoControl), "task", Null, Nop);
    FirstRun(Below(NoControl), Nop);
  }

  const MissingAction := User(RunAction("missing", Null), Accepted)
  const Unknown := "actionDoesNotExist"
  const Stopped := Restored.(valid := {1}, handler := 1)
  const UnknownAction := Obj(map["recursionLevel" := Int(1), "reason" := Str(Unknown), "currentIndex" := Int(0)])
  const Entered := Stopped.(abortLevel := 1, failureRuns := 1)
  const Returning := ModeCallback(Nop, Some(TryDescend(Second, Nop)))

  lemma RestoredFails()
    ensures CommandStep(Restoring, Below(Restored).Push(Client(First)), First, RunAction("missing", Null), Accepted)
         == Below(Stopped).Push(Client(First)).Push(AbortMain(Unknown)).Push(CleanupHooks)
  {
    hide EncodeState, StartAbort, HandlerMode, HandlerTrajectory, StoreStateStep, CompleteStep, SetIndexStep, DropStep,
      KeepsStore, KeepsSegment, SamePlace, SameButIndex, StartsNoSettings, StartsOnlyItem;
    Aborts(Below(Restored).Push(Client(First)), Unknown);
  }

  lemma FailureBegins()
    ensures AbortMainStep(Restoring, Below(Stopped).Push(Client(First)), Unknown)
         == Below(Entered).Push(Client(First)).Push(AbortEnd)
            .Push(Perform("onFailure", UnknownAction, Nop))
  {
    hide EncodeState, StartAbort, KeepsStore, KeepsSegment, SamePlace, SameButIndex, StartsNoSettings, StartsOnlyItem;
  }

  const Sent := Stopped.(failureRuns := 1, scheduled := Some(Returning))

  const Sending := Sent.(abortLevel := 1)

  /** The vehicle has been sent home. */
  function SentHome(k: Control): State {
    Below(k).(activeMode := RTL).Push(Client(First))
  }

  lemma FailureReturns()
    ensures PerformStep(Restoring, Below(Entered).Push(Client(First)).Push(AbortEnd),
        "onFailure", UnknownAction, Nop, Accepted)
         == SentHome(Sending).Push(AbortEnd)
  {
    hide EncodeState, StartAbort, ResumeStep, ChangeSettingsStep, TakeoffStep, HoldStep, RunCustomStep, KeepsStore,
      KeepsSegment, SamePlace, SameButIndex, StartsNoSettings, StartsOnlyItem;
  }

  lemma AbortEnds()
    ensures ReturnStep(Restoring, SentHome(Sending), AbortEnd) == SentHome(Sent)
  {
    hide EncodeState, SaveStep, DeactivateDefaults;
  }

  lemma ItemStarts()
    ensures StartItemStep(Restoring, InRestoration(Sent).(activeMode := RTL), true, Accepted)
         == InRestoration(Sent).(activeMode := RTL)
            .Push(Perform("task", Obj(map["internal:resuming" := Bool(true)]), ItemDone(Second)))
  {
    hide EncodeState, StartAbort, Segments.SegmentEnd, Segments.SegmentStop, RunModeStep, RunTrajectoryStep;
  }

  const ToFailure := [MissingAction, Returns, Internally, Internally]
  const ToItem := [Internally, Returns, Internally, Internally]

  lemma UpToItem()
    ensures Steps(Restoring, SentHome(Sending).Push(AbortEnd), ToItem)
         == InRestoration(Sent).(activeMode := RTL)
            .Push(Perform("task", Obj(map["internal:resuming" := Bool(true)]), ItemDone(Second)))
  {
    hide Step, Steps, EncodeState, ReturnStep, StartItemStep, KeepsStore, KeepsSegment, SamePlace, SameButIndex,
      StartsNoSettings, StartsOnlyItem;
    var c, s := Restoring, SentHome(Sending);
    FourSteps(c, s.Push(AbortEnd), Internally, Returns, Internally, Internally);
    OnTop(s, AbortEnd);
    ReturnFrame(c, s.Push(AbortEnd), Accepted);
    AbortEnds();
    ClientReturns(c, Below(Sent).(activeMode := RTL));
    var t := InRestoration(Sent).(activeMode := RTL);
    LoopEnds(c, t.Push(Waiting));
    OnTop(t, Waiting);
    StartFrame(c, t.Push(Waiting), true, First, Accepted);
    ItemStarts();
  }

  /** The restored action asks for an action that does not exist; the abort invalidates the handler with which the
      activation goes on, and has the vehicle return; but then the first item is started nevertheless, under the
      handler made by the abort. */
  lemma AbortDuringRestorationIsOverridden()
    ensures var s := Steps(Restoring, Initial(RestoringFile),
      Opening(Mine, false, true) + Beginning + ToFailure + ToItem);
      && !s.control.IsValid(First) && s.activeMode == RTL
      && s.control.scheduled == Some(ModeCallback(Nop, Some(TryDescend(Second, Nop))))
      && s.control.stack == [Perform("task", Obj(map["internal:resuming" := Bool(true)]), ItemDone(Second))]
  {
    hide Step, Steps, EncodeState;
    var c, s, a := Restoring, Initial(RestoringFile), Opening(Mine, false, true) + Beginning;
    UpToAction();
    StepsOn(c, s, a, ToFailure);
    assert Steps(Restoring, Below(Restored).Push(Client(First)), ToFailure) == SentHome(Sending).Push(AbortEnd) by {
      hide Step, Steps, EncodeState, CommandStep, AbortMainStep, PerformStep, StartAbort, KeepsStore, KeepsSegment,
        SamePlace, SameButIndex, StartsNoSettings, StartsOnlyItem;
      var c, s, t := Restoring, Below(Restored).Push(Client(First)), Below(Stopped).Push(Client(First));
      FourSteps(c, s, MissingAction, Returns, Internally, Internally);
      OnTop(Below(Restored), Client(First));
      ClientStep(c, s, First, RunAction("missing", Null), Accepted);
      RestoredFails();
      HookReturns(c, t.Push(AbortMain(Unknown)), CleanupHooks);
      OnTop(t, AbortMain(Unknown));
      AbortFrame(c, t.Push(AbortMain(Unknown)), Unknown, Accepted);
      FailureBegins();
      var u := Below(Entered).Push(Client(First)).Push(AbortEnd);
      var f := Perform("onFailure", UnknownAction, Nop);
      OnTop(u, f);
      PerformFrame(c, u.Push(f), "onFailure", UnknownAction, Nop, Accepted);
      FailureReturns();
    }
    StepsOn(c, s, a + ToFailure, ToItem);
    UpToItem();
    var f := Perform("task", Obj(map["internal:resuming" := Bool(true)]), ItemDone(Second));
    assert [] + [f] == [f];
  }

  // ---- A loaded entry that is lost ----

  const Taking := Plain(map["takeoff" := Task, "task" := Task, "onResume" := OnResume,
                            "changeSettings" := ChangeSettings])
  const Slow := ActionState("changeSettings", Obj(map["horizontalVelocity" := Real(3.0)]))
  const SlowStored: map<nat, ActionState> := map[First := Slow]
  const TakingFile := Some(EncodeState(Saved(Second, SlowStored)))

  /** The states of the resumption. */
  const Interrupted := Initial(TakingFile).(mission := Takes, hasValidMission := true, actionsReady := true,
    landed := true, active := true, activeMode := 23, persistent := Saved(Second, SlowStored),
    reports := [Progress(Second)])

  lemma LoadsTakeoff()
    ensures SetMissionStep(Taking, Initial(TakingFile), Takes)
         == Initial(TakingFile).(mission := Takes, hasValidMission := true, persistent := Saved(Second, SlowStored))
  {
    hide SetMissionStep, EncodeState, Values;
    Loads(Taking.actions, Initial(TakingFile), Takes, Second, SlowStored);
    OneValue(Slow);
    assert Feasible(Taking, Takes);
  }

  lemma ActivatesTakeoff()
    ensures Steps(Taking, Initial(TakingFile), Opening(Takes, true, true))
         == Interrupted.Push(Activated(First, false)).Push(ActivatedHook)
  {
    hide Steps, SetMissionStep, StartAbort, EncodeState;
    Opens(Taking, Initial(TakingFile), Takes, true, true);
    LoadsTakeoff();
    assert [] + [Progress(Second)] == [Progress(Second)];
  }

  const AtSecond := Some(1)
  const Entering := Perform("onResume", Resume, ResumeDone(First, AtSecond))
  const Afterwards := AfterTakeoff(First, ResumeDone(First, AtSecond), 1)
  const TakingOff := Perform("takeoff", Null, Afterwards)

  lemma NoResumeEntry()
    ensures StoredResume(Interrupted) == None
    ensures TakeResumeEntry(Interrupted) == Interrupted && ResumeArguments(Interrupted) == Null
  {
    hide EncodeState;
    assert SortedKeys(SlowStored.Keys) == [0] by {
      var sorted := SortedKeys(SlowStored.Keys);
      assert |sorted| == 1 && sorted[0] in sorted;
    }
  }

  lemma ResumptionStarts()
    ensures ActivatedStep(Taking, Interrupted, First, false) == Interrupted.Push(Entering)
  {
    hide EncodeState, RunStoredActions, TakeResumeEntry, ResumeArguments, StartAbort;
    NoResumeEntry();
  }

  lemma TakesOff()
    ensures PerformStep(Taking, Interrupted, "onResume", Resume, ResumeDone(First, AtSecond), Accepted)
         == Interrupted.Push(TakingOff)
  {
    hide EncodeState, StartAbort, ChangeSettingsStep, TakeoffStep, HoldStep, RunCustomStep, RunModeStep, KeepsStore,
      KeepsSegment, StartsNoSettings, SamePlace, SameButIndex;
    assert TakeoffBefore(Takes.items, 1) == Some(0);
  }

  const OneRun := Interrupted.(control := NoControl.(runs := [Run(First, Afterwards)])).Push(Client(First))

  lemma UpToTakeoff()
    ensures Steps(Taking, Initial(TakingFile), Opening(Takes, true, true) + Beginning) == OneRun
  {
    hide Step, Steps, EncodeState, ActivatedStep, PerformStep, KeepsStore, KeepsSegment, SamePlace, SameButIndex,
      StartsNoSettings, StartsOnlyItem;
    var c, s := Taking, Interrupted;
    ActivatesTakeoff();
    StepsOn(c, Initial(TakingFile), Opening(Takes, true, true), Beginning);
    FourSteps(c, s.Push(Activated(First, false)).Push(ActivatedHook), Returns, Internally, Internally, Internally);
    HookReturns(c, s.Push(Activated(First, false)), ActivatedHook);
    OnTop(s, Activated(First, false));
    ActivatedFrame(c, s.Push(Activated(First, false)), First, false, Accepted);
    ResumptionStarts();
    OnTop(s, Entering);
    PerformFrame(c, s.Push(Entering), "onResume", Resume, ResumeDone(First, AtSecond), Accepted);
    TakesOff();
    Runs(c, s, "takeoff", Null, Afterwards);
    FirstRun(s, Afterwards);
  }

  lemma StoresOver()
    ensures CommandStep(Taking, OneRun, First, StoreState("camera", Null), Accepted).persistent.continuousActions
         == map[First := Camera]
  {
    hide EncodeState, HandlerMode, RunActionStep, HandlerTrajectory, CompleteStep, SetIndexStep, DropStep;
  }

  const StoresCamera := User(StoreState("camera", Null), Accepted)

  /** A resumption after landing, with a takeoff of the client that stores a state of its own while it runs: the entry
      that was loaded under the same id, here that of the settings, is lost before it has been restored. */
  lemma LoadedEntryIsLost()
    ensures var s := Steps(Taking, Initial(TakingFile), [External(SetMission(Takes), Accepted)]);
      s.persistent.continuousActions == SlowStored
    ensures var t := Steps(Taking, Initial(TakingFile), Opening(Takes, true, true) + Beginning + [StoresCamera]);
      t.persistent.continuousActions == map[First := Camera]
  {
    hide Step, Steps, EncodeState, CommandStep, SetMissionStep, OnActivate, StartAbort, FinishMode, FireTimer,
      UpdateSetpointStep, OnDeactivate;
    var c, s := Taking, Initial(TakingFile);
    OneStep(c, s, External(SetMission(Takes), Accepted));
    EventStep(c, s, SetMission(Takes), Accepted);
    LoadsTakeoff();
    UpToTakeoff();
    StepsOn(c, s, Opening(Takes, true, true) + Beginning, [StoresCamera]);
    OneStep(c, OneRun, StoresCamera);
    OnTop(Interrupted.(control := NoControl.(runs := [Run(First, Afterwards)])), Client(First));
    ClientStep(c, OneRun, First, StoreState("camera", Null), Accepted);
    StoresOver();
  }
}
