/** Stored actions and the tokens that keep them: ids are fresh and a token removes only its own entry,
    in every run in which no state is loaded from the file. */
module MissionStore {
  import opened Wrappers
  import opened JsonValues
  import opened Missions
  import opened OrderedMaps
  import opened PersistentStates
  import opened MissionTypes
  import opened MissionSteps

  // ---- How a step changes what is stored ----

  /** A client stores an entry and holds its token. */
  function Held(a: Store, entry: ActionState): Store {
    a.(actions := a.actions[a.next := entry], next := a.next + 1, client := a.client[a.next := entry])
  }

  /** A client lets go of a token. */
  function Released(a: Store, id: nat): Store {
    a.(actions := if a.active then a.actions - {id} else a.actions, client := a.client - {id})
  }

  function Retuned(a: Store, b: Store): Store {
    a.(active := b.active, options := b.options)
  }

  ghost predicate Moves(a: Store, b: Store) {
    || b == Retuned(a, b)
    || b == Retuned(a, b).Dropped()
    || b == Retuned(a, b).(actions := map[])
    || (exists id: nat :: id in a.actions && a.actions[id].name == "onResume" && b == a.(actions := a.actions - {id}))
    || (exists entry: ActionState :: entry.name == "changeSettings" && b == a.Settled(b.options, entry))
    || (exists entry: ActionState :: b == Held(a, entry))
    || (exists id: nat :: id in a.client && b == Released(a, id))
  }

  /** The stored state of the file replaces what is stored. */
  predicate Loads(c: Setup, s: State, l: Label) {
    && !s.crashed && s.control.stack == [] && !s.active
    && l.External? && l.event.SetMission?
    && LoadedState(c, s.file, l.event.mission).Some?
  }

  lemma KeepsMoves(s: State, t: State)
    requires KeepsStore(s, t)
    ensures Moves(StoreOf(s), StoreOf(t))
  {
    assert Retuned(StoreOf(s), StoreOf(s)) == StoreOf(s);
    assert Retuned(StoreOf(s), StoreOf(s).Dropped()).Dropped() == StoreOf(s).Dropped();
  }

  lemma ResumeMoves(c: Setup, s: State, closure: Closure, answer: Answer)
    requires closure.ResumeDone?
    ensures Moves(StoreOf(s), StoreOf(InvokeStep(c, s, closure, answer)))
  {
    hide ResumeMission, Store.Dropped, Store.Settled, Held, Released, HandlerMode, KeepsStore,
      NavigateToPreviousWaypoint, RunNextItem, SamePlace;
    var a, b := StoreOf(s), StoreOf(InvokeStep(c, s, closure, answer));
    assert b == a || b == a.(actions := map[]);
    assert Retuned(a, a) == a;
  }

  lemma ActivatedMoves(c: Setup, s: State, h: nat, fromBeginning: bool)
    ensures Moves(StoreOf(s), StoreOf(ActivatedStep(c, s, h, fromBeginning)))
  {
    hide RunStoredActions, StartResume, TakeResumeEntry, StoredResume, ResumeArguments, Store.Dropped, Store.Settled,
      Held, Released, KeepsStore, KeepsSegment, StartsNoSettings, StartsOnlyItem;
    var a, b := StoreOf(s), StoreOf(ActivatedStep(c, s, h, fromBeginning));
    assert Retuned(a, a) == a;
    assert b == a || b == a.(actions := map[])
        || exists id: nat ::
           id in a.actions && a.actions[id].name == "onResume" && b == a.(actions := a.actions - {id});
  }

  lemma SettingsMoves(c: Setup, s: State, arguments: Json, done: Closure)
    ensures Moves(StoreOf(s), StoreOf(ChangeSettingsStep(s, arguments, done)))
  {
    hide MergedOptions, EncodeOptions, ResetsAll, StoreSettings;
    var a, b := StoreOf(s), StoreOf(ChangeSettingsStep(s, arguments, done));
    var r := ChangedSettings(s, arguments);
    if r.Success? && ResetsAll(arguments) == Success(true) {
      assert b == Retuned(a, b).Dropped();
    } else if r.Success? {
      var options := MergedOptions(s.options, arguments).value;
      assert b == a.Settled(b.options, ActionState("changeSettings", EncodeOptions(options)));
    } else {
      assert b == Retuned(a, b);
    }
  }

  lemma PerformMoves(c: Setup, s: State, name: string, arguments: Json, done: Closure, answer: Answer)
    requires name in c.actions
    ensures Moves(StoreOf(s), StoreOf(PerformStep(c, s, name, arguments, done, answer)))
  {
    hide Moves, KeepsStore, RunModeStep, ResumeStep, TakeoffStep, HoldStep, RunCustomStep, ChangeSettingsStep,
      KeepsSegment, SameButIndex, SamePlace, StartsNoSettings;
    if c.actions[name].ChangeSettings? {
      SettingsMoves(c, s, arguments, done);
    } else {
      KeepsMoves(s, PerformStep(c, s, name, arguments, done, answer));
    }
  }

  lemma CallMoves(c: Setup, s: State, f: Frame, answer: Answer)
    requires Calls(f)
    ensures Moves(StoreOf(s), StoreOf(CallStep(c, s, f, answer)))
  {
    hide Moves, KeepsStore, StoreOf, InvokeStep, PerformStep, ActivatedStep, RestoreStep, StartItemStep, AbortMainStep,
      KeepsSegment, SameButIndex, SamePlace, StartsNoSettings;
    var t := CallStep(c, s, f, answer);
    match f
    case Invoke(closure) =>
      if closure.ResumeDone? {
        ResumeMoves(c, s, closure, answer);
      } else {
        KeepsMoves(s, t);
      }
    case Perform(name, arguments, done) =>
      if name in c.actions {
        PerformMoves(c, s, name, arguments, done, answer);
      } else {
        NoSuchAction(c, s, name, arguments, done, answer);
        StoreSame(s, t);
      }
    case Activated(h, fromBeginning) => ActivatedMoves(c, s, h, fromBeginning);
    case _ => KeepsMoves(s, t);
  }

  lemma StoreSame(s: State, t: State)
    requires StoreOf(t) == StoreOf(s)
    ensures Moves(StoreOf(s), StoreOf(t))
  {
    assert Retuned(StoreOf(s), StoreOf(t)) == StoreOf(t);
  }

  lemma ReturnMoves(c: Setup, s: State, f: Frame)
    requires !Calls(f) && !InClient(f)
    ensures Moves(StoreOf(s), StoreOf(ReturnStep(c, s, f)))
  {
    hide Moves, DeactivateDefaults, SaveStep, Store.Dropped;
    var t := ReturnStep(c, s, f);
    if f.Cleanup? {
      DroppedMoves(StoreOf(s));
    } else {
      StoreSame(s, t);
    }
  }

  lemma DroppedMoves(a: Store)
    ensures Moves(a, a.Dropped())
  {
    assert Retuned(a, a.Dropped()).Dropped() == a.Dropped();
  }

  lemma ReleaseMoves(s: State, id: nat)
    ensures Moves(StoreOf(s), StoreOf(DropStep(s, id)))
    ensures id in s.clientKeepers ==> StoreOf(DropStep(s, id)) == Released(StoreOf(s), id)
  {
    hide RemoveContinuousAction;
    var a, b := StoreOf(s), StoreOf(DropStep(s, id));
    assert id !in s.clientKeepers ==> b == Retuned(a, b);
  }

  lemma CommandMoves(c: Setup, s: State, run: nat, command: Command, answer: Answer)
    requires run < |s.control.runs| && s.control.stack != []
    ensures Moves(StoreOf(s), StoreOf(CommandStep(c, s, run, command, answer)))
  {
    hide Moves, KeepsStore, HandlerMode, RunActionStep, HandlerTrajectory, DropStep, Store.Settled, Released,
      Store.Dropped, AddContinuousAction, KeepsSegment, StartsNoSettings, SamePlace, SameButIndex;
    var t := CommandStep(c, s, run, command, answer);
    match command
    case RunMode(_, _) => KeepsMoves(s, t);
    case RunAction(_, _) =>
      assert Moves(StoreOf(s), StoreOf(CommandStep(c, s, run, command, answer))) by {
        hide Moves, KeepsStore, HandlerMode, RunActionStep, HandlerTrajectory, DropStep, Store.Settled, Released,
          Store.Dropped;
        var t := CommandStep(c, s, run, command, answer);
        StoreSame(s, s);
        if s.control.IsValid(s.control.runs[run].handler) {
          KeepsMoves(s, t);
        }
      }
    case RunTrajectory(_, _) => KeepsMoves(s, t);
    case DropState(id) => ReleaseMoves(s, id);
    case StoreState(name, arguments) => HoldMoves(s, t, ActionState(name, arguments));
    case _ =>
      OtherCommand(c, s, run, command, answer);
      RetunedMoves(StoreOf(s), StoreOf(t));
  }

  lemma OtherCommand(c: Setup, s: State, run: nat, command: Command, answer: Answer)
    requires command.ClearOptions? || command.SetOptions? || command.SetIndex? || command.Complete? || command.Abort?
             || command.Return?
    ensures var a, b := StoreOf(s), StoreOf(CommandStep(c, s, run, command, answer)); b == Retuned(a, b)
  {
    hide HandlerMode, RunActionStep, HandlerTrajectory, DropStep, StoreStateStep, TrajectoryOptions.CombinedWith,
      KeepsSegment, StartsNoSettings, SamePlace, SameButIndex;
  }

  lemma HoldMoves(s: State, t: State, a: ActionState)
    requires StoreOf(t) == StoreOf(s) || StoreOf(t) == Held(StoreOf(s), a)
    ensures Moves(StoreOf(s), StoreOf(t))
  {
    assert StoreOf(t) == StoreOf(s) ==> StoreOf(t) == Retuned(StoreOf(s), StoreOf(t));
  }

  lemma RetunedMoves(a: Store, b: Store)
    requires b == Retuned(a, b)
    ensures Moves(a, b)
  {
  }

  lemma ActivateMoves(c: Setup, s: State)
    ensures Moves(StoreOf(s), StoreOf(OnActivate(c, s)))
  {
    hide StartAbort, Store.Settled, Held, Released;
    var a, b := StoreOf(s), StoreOf(OnActivate(c, s));
    assert b == Retuned(a, b) || b == Retuned(a, b).Dropped();
  }

  lemma DeactivateMoves(c: Setup, s: State)
    ensures Moves(StoreOf(s), StoreOf(OnDeactivate(c, s)))
  {
    hide Leave, MissionDone, PushStore, ClearFile, Store.Settled, Held, Released, Store.Dropped, KeepsStore,
      KeepsSegment, SamePlace, SameButIndex, StartsNoSettings, StartsOnlyItem;
    var a, b := StoreOf(s), StoreOf(OnDeactivate(c, s));
    assert b == Retuned(a, b) || b == Retuned(a, b).(actions := map[]);
  }

  lemma SetMissionMoves(c: Setup, s: State, mission: Mission)
    ensures LoadedState(c, s.file, mission).None? ==> Moves(StoreOf(s), StoreOf(SetMissionStep(c, s, mission)))
  {
    hide LoadedState, Feasible, Checksum, Store.Settled, Held, Released, Store.Dropped;
    var a, b := StoreOf(s), StoreOf(SetMissionStep(c, s, mission));
    if LoadedState(c, s.file, mission).None? {
      assert b == Retuned(a, b) || b == Retuned(a, b).(actions := map[]);
    }
  }

  lemma ExternalMoves(c: Setup, s: State, event: Event, answer: Answer)
    requires event.SetMission? && !s.active ==> LoadedState(c, s.file, event.mission).None?
    ensures Moves(StoreOf(s), StoreOf(ExternalStep(c, s, event, answer)))
  {
    hide Moves, KeepsStore, OnActivate, OnDeactivate, FinishMode, FireTimer, UpdateSetpointStep, StartAbort,
      SetMissionStep, Store.Settled, Released, Store.Dropped;
    var t := ExternalStep(c, s, event, answer);
    StoreSame(s, s);
    match event
    case SetMission(mission) => SetMissionMovesOrNot(c, s, mission);
    case ResetMission =>
      if !s.active {
        ResetMoves(StoreOf(s), StoreOf(t));
      }
    case Activate => ActivateMoves(c, s);
    case Deactivate => DeactivateMoves(c, s);
    case ModeFinished(outcome) => KeepsMoves(s, t);
    case UpdateSetpoint(_, _) => KeepsMoves(s, t);
    case TimerFired => KeepsMoves(s, t);
    case AbortRequest =>
      if s.active {
        KeepsMoves(s, t);
      }
    case _ => StoreSame(s, t);
  }

  lemma SetMissionMovesOrNot(c: Setup, s: State, mission: Mission)
    requires !s.active ==> LoadedState(c, s.file, mission).None?
    ensures Moves(StoreOf(s), StoreOf(SetMissionStep(c, s, mission)))
  {
    hide Moves, LoadedState, Feasible, Checksum;
    SetMissionMoves(c, s, mission);
    if s.active {
      StoreSame(s, SetMissionStep(c, s, mission));
    }
  }

  lemma ResetMoves(a: Store, b: Store)
    requires b == a.(actions := map[])
    ensures Moves(a, b)
  {
    assert b == Retuned(a, b).(actions := map[]);
  }

  /** One step, but for the loading of the file. */
  lemma StepMoves(c: Setup, s: State, l: Label)
    requires !Loads(c, s, l)
    ensures Moves(StoreOf(s), StoreOf(Step(c, s, l)))
  {
    hide Moves, Step, KeepsStore, ExternalStep, CallStep, ReturnStep, LoadedState, KeepsSegment, SamePlace,
      SameButIndex, StartsNoSettings, StartsOnlyItem;
    StoreSame(s, s);
    if s.crashed {
      CrashedStep(c, s, l);
    } else if (s.control.stack == []) != l.External? {
      UnfitStep(c, s, l);
    } else {
      match l
      case Internal(answer) =>
        if Calls(s.control.Top()) {
          FrameStep(c, s, answer);
          CallMoves(c, Popped(s), s.control.Top(), answer);
        } else if InClient(s.control.Top()) {
          UnfitStep(c, s, l);
        } else {
          ReturnFrame(c, s, answer);
          ReturnMoves(c, Popped(s), s.control.Top());
        }
      case User(command, answer) => UserMoves(c, s, command, answer);
      case External(event, answer) =>
        EventStep(c, s, event, answer);
        ExternalMoves(c, s, event, answer);
    }
  }

  lemma UserMoves(c: Setup, s: State, command: Command, answer: Answer)
    requires !s.crashed && s.control.stack != []
    ensures Moves(StoreOf(s), StoreOf(Step(c, s, User(command, answer))))
  {
    hide Moves, KeepsStore, ExternalStep, Continue, CommandStep, StartAbort, DropStep, KeepsSegment, SamePlace,
      SameButIndex, StartsNoSettings, StartsOnlyItem;
    StoreSame(s, s);
    match s.control.Top()
    case Client(run) =>
      if run < |s.control.runs| {
        CommandMoves(c, s, run, command, answer);
      } else {
        NoSuchRun(c, s, run, command, answer);
      }
    case ActivatedHook =>
      if command.Return? {
        StoreSame(s, Popped(s));
      } else if command.Abort? && s.active {
        KeepsMoves(s, StartAbort(s, "other"));
      }
    case CleanupHooks =>
      if command.Return? {
        StoreSame(s, Popped(s));
      } else if command.DropState? {
        ReleaseMoves(s, command.id);
      }
    case _ =>
  }

  // ---- Fresh ids ----

  /** Tokens have ids below the counter, and no two tokens share one. */
  ghost predicate TokensOk(a: Store) {
    && (forall id :: id in a.client ==> id < a.next)
    && (a.settings.Some? ==> a.settings.value < a.next && a.settings.value !in a.client)
  }

  /** And the entry under the id of a token is the one that the token was made for. */
  ghost predicate OwnOk(a: Store) {
    && TokensOk(a)
    && (forall id :: id in a.client && id in a.actions ==> a.actions[id] == a.client[id])
    && (a.settings.Some? && a.settings.value in a.actions ==> a.actions[a.settings.value].name == "changeSettings")
  }

  /** And all entries have ids below the counter. */
  ghost predicate IdsOk(a: Store) {
    OwnOk(a) && forall id :: id in a.actions ==> id < a.next
  }

  lemma DroppedKeepsIds(a: Store, b: Store)
    requires b == Retuned(a, b).Dropped() || b == Retuned(a, b)
    ensures TokensOk(a) ==> TokensOk(b)
    ensures OwnOk(a) ==> OwnOk(b)
    ensures IdsOk(a) ==> IdsOk(b)
  {
    hide KeepsStore, KeepsSegment, SamePlace, SameButIndex, StartsNoSettings, StartsOnlyItem;
  }

  lemma SettledKeepsIds(a: Store, o: TrajectoryOptions, entry: ActionState)
    requires entry.name == "changeSettings"
    ensures TokensOk(a) ==> TokensOk(a.Settled(o, entry))
    ensures OwnOk(a) ==> OwnOk(a.Settled(o, entry))
    ensures IdsOk(a) ==> IdsOk(a.Settled(o, entry))
  {
  }

  lemma HeldKeepsIds(a: Store, entry: ActionState)
    ensures TokensOk(a) ==> TokensOk(Held(a, entry))
    ensures OwnOk(a) ==> OwnOk(Held(a, entry))
    ensures IdsOk(a) ==> IdsOk(Held(a, entry))
  {
  }

  lemma ReleasedKeepsIds(a: Store, id: nat)
    ensures TokensOk(a) ==> TokensOk(Released(a, id))
    ensures OwnOk(a) ==> OwnOk(Released(a, id))
    ensures IdsOk(a) ==> IdsOk(Released(a, id))
  {
  }

  lemma FewerKeepIds(a: Store, b: Store)
    requires b == a.(active := b.active, options := b.options, actions := b.actions)
    requires b.actions.Keys <= a.actions.Keys && forall id :: id in b.actions ==> b.actions[id] == a.actions[id]
    ensures TokensOk(a) ==> TokensOk(b)
    ensures OwnOk(a) ==> OwnOk(b)
    ensures IdsOk(a) ==> IdsOk(b)
  {
  }

  lemma MovesKeepIds(a: Store, b: Store)
    requires Moves(a, b)
    ensures TokensOk(a) ==> TokensOk(b)
    ensures OwnOk(a) ==> OwnOk(b)
    ensures IdsOk(a) ==> IdsOk(b)
  {
    hide TokensOk, OwnOk, IdsOk, Store.Dropped, Store.Settled, Held, Released;
    if b == Retuned(a, b) || b == Retuned(a, b).Dropped() {
      DroppedKeepsIds(a, b);
    } else if b == Retuned(a, b).(actions := map[]) {
      FewerKeepIds(a, b);
    } else if id: nat :| id in a.actions && a.actions[id].name == "onResume" && b == a.(actions := a.actions - {id}) {
      FewerKeepIds(a, b);
    } else if entry: ActionState :| entry.name == "changeSettings" && b == a.Settled(b.options, entry) {
      SettledKeepsIds(a, b.options, entry);
    } else if entry: ActionState :| b == Held(a, entry) {
      HeldKeepsIds(a, entry);
    } else {
      var id: nat :| id in a.client && b == Released(a, id);
      ReleasedKeepsIds(a, id);
    }
  }

  lemma LoadStep(c: Setup, s: State, mission: Mission, answer: Answer)
    requires Loads(c, s, External(SetMission(mission), answer))
    ensures Step(c, s, External(SetMission(mission), answer)) == SetMissionStep(c, s, mission)
  {
    hide Step, SetMissionStep, LoadedState, OnActivate, OnDeactivate, FinishMode, FireTimer, UpdateSetpointStep,
      StartAbort;
    EventStep(c, s, SetMission(mission), answer);
  }

  /** Loading leaves the counter and the tokens as they are. */
  lemma LoadKeepsTokens(c: Setup, s: State, l: Label)
    requires Loads(c, s, l) && TokensOk(StoreOf(s))
    ensures TokensOk(StoreOf(Step(c, s, l)))
  {
    hide Step, LoadedState, Feasible, Checksum;
    match l
    case External(SetMission(mission), answer) => LoadStep(c, s, mission, answer);
  }

  lemma {:induction false} TokensAlways(c: Setup, file: Option<Json>, ls: seq<Label>)
    ensures TokensOk(StoreOf(Steps(c, Initial(file), ls)))
  {
    hide Step, Moves, Loads;
    if ls != [] {
      var s, l := Steps(c, Initial(file), ls[..|ls| - 1]), ls[|ls| - 1];
      TokensAlways(c, file, ls[..|ls| - 1]);
      if Loads(c, s, l) {
        LoadKeepsTokens(c, s, l);
      } else {
        StepMoves(c, s, l);
        MovesKeepIds(StoreOf(s), StoreOf(Step(c, s, l)));
      }
    }
  }

  /** The run loads nothing from the file. */
  ghost predicate NeverLoads(c: Setup, s: State, ls: seq<Label>) {
    ls == [] || (NeverLoads(c, s, ls[..|ls| - 1]) && !Loads(c, Steps(c, s, ls[..|ls| - 1]), ls[|ls| - 1]))
  }

  lemma {:induction false} IdsHold(c: Setup, s: State, ls: seq<Label>)
    requires IdsOk(StoreOf(s)) && NeverLoads(c, s, ls)
    ensures IdsOk(StoreOf(Steps(c, s, ls)))
  {
    hide Step, Moves, Loads, IdsOk;
    if ls != [] {
      var t, l := Steps(c, s, ls[..|ls| - 1]), ls[|ls| - 1];
      IdsHold(c, s, ls[..|ls| - 1]);
      StepMoves(c, t, l);
      MovesKeepIds(StoreOf(t), StoreOf(Step(c, t, l)));
    }
  }

  /** In a run without a load every stored id is below the counter, and every token keeps its own entry. */
  lemma StoredIdsAreFresh(c: Setup, file: Option<Json>, ls: seq<Label>)
    requires NeverLoads(c, Initial(file), ls)
    ensures IdsOk(StoreOf(Steps(c, Initial(file), ls)))
  {
    hide Step, Steps;
    IdsHold(c, Initial(file), ls);
  }

  /** Adding keeps every entry exactly when the counter is not in use, in particular when the ids are in order. */
  lemma AddOverwritesIff(s: State, a: ActionState)
    ensures var actions, t := s.persistent.continuousActions, AddContinuousAction(s, a);
      && (IdsOk(StoreOf(s)) ==> s.nextActionId !in actions)
      && (t.persistent.continuousActions - {s.nextActionId} == actions <==> s.nextActionId !in actions)
      && s.nextActionId in t.persistent.continuousActions && t.persistent.continuousActions[s.nextActionId] == a
  {
    var actions, t := s.persistent.continuousActions, AddContinuousAction(s, a);
    if s.nextActionId !in actions {
      assert t.persistent.continuousActions - {s.nextActionId} == actions;
    } else {
      assert s.nextActionId !in t.persistent.continuousActions - {s.nextActionId};
    }
  }

  lemma LoadedKeys(c: Setup, file: Option<Json>, mission: Mission)
    requires LoadedState(c, file, mission).Some?
    ensures var actions := LoadedState(c, file, mission).value.continuousActions;
      forall id: nat :: id in actions <==> id < |actions|
  {
    hide Checksum;
    assert DecodeState(file.value).Success?;
    var actions := DecodeState(file.value).value.continuousActions;
    assert forall id: nat :: id in actions <==> id < |actions| by {
      hide MapAll;
      if file.value.Contains("actions") {
        RenumberedSize(MapAll(PersistentStates.DecodeAction, file.value.members["actions"].Elements()).value);
      } else {
        RenumberedSize<ActionState>([]);
      }
    }
  }

  lemma RenumberedSize<T>(vs: seq<T>)
    ensures |Renumbered(vs)| == |vs| && forall id: nat :: id in Renumbered(vs) <==> id < |vs|
  {
    RenumberedKeys(vs);
    assert |SortedKeys(Renumbered(vs).Keys)| == |Renumbered(vs).Keys|;
  }

  /** A token that is let go removes its own entry and nothing else. */
  lemma TokenRemovesItsOwn(s: State, id: nat)
    requires OwnOk(StoreOf(s)) && id in s.clientKeepers && s.active
    ensures var actions, t := s.persistent.continuousActions, DropStep(s, id);
      && id !in t.persistent.continuousActions && id !in t.clientKeepers
      && (forall o :: o in actions && o != id ==>
         o in t.persistent.continuousActions && t.persistent.continuousActions[o] == actions[o])
      && (id in actions ==> actions[id] == s.clientKeepers[id])
      && s.settingsKeeper != Some(id)
  {
  }
}
