/** The window between the loading of the stored actions and their restoration, in which their ids are not known to the
    counter: when an added action loses a loaded one, and the end of the window. */
module MissionWindow {
  import opened Wrappers
  import opened JsonValues
  import opened Missions
  import opened PersistentStates
  import opened MissionTypes
  import opened MissionSteps
  import opened MissionHandlers
  import opened MissionRestoration
  import opened MissionStore

  // ---- Its end ----

  lemma NoneAreFresh(a: Store)
    requires TokensOk(a) && a.actions == map[]
    ensures IdsOk(a)
  {
  }

  /** The end of the resume action, if it has moved the index. */
  predicate MovesOn(s: State, l: Label) {
    && !s.crashed && l.Internal?
    && match s.control.Top()
       case Invoke(ResumeDone(h, previous)) => s.control.IsValid(h) && previous != s.persistent.currentIndex
       case _ => false
  }

  /** Then nothing is restored: the stored actions are dropped and the new item starts. */
  lemma MovingOnDiscards(c: Setup, s: State, l: Label)
    requires HandlersOk(c, s.control) && MovesOn(s, l)
    ensures Step(c, s, l).control == s.control.Popped().Push(StartItem(false, s.control.handler))
    ensures StoreOf(Step(c, s, l)) == StoreOf(s).(actions := map[])
    ensures Step(c, s, l).persistent.currentIndex == s.persistent.currentIndex
  {
    hide Step, ClosuresCoherent, StackCoherent, RunStoredActions, NavigateToPreviousWaypoint, HandlerMode, RunNextItem;
    match s.control.Top()
    case Invoke(closure) => InvokeFrame(c, s, closure, l.answer);
  }

  /** The window ends with step `l` of any run, if that begins a restoration or drops the stored actions: from then on
      the ids are in order, whatever was loaded before, and they stay so until the next load. */
  lemma TheWindowEnds(c: Setup, file: Option<Json>, before: seq<Label>, l: Label, after: seq<Label>)
    requires var s := Steps(c, Initial(file), before);
      (BeginsRestoration(c, s, l) || MovesOn(s, l)) && NeverLoads(c, Step(c, s, l), after)
    ensures IdsOk(StoreOf(Steps(c, Initial(file), before + [l] + after)))
  {
    hide Step, Steps, BeginsRestoration, MovesOn, TokensOk, IdsOk, HandlersOk, NeverLoads, Initial;
    var s := Steps(c, Initial(file), before);
    var t := Step(c, s, l);
    StepsOn(c, Initial(file), before, [l]);
    OneStep(c, s, l);
    ExactlyOneValidHandler(c, file, before);
    if BeginsRestoration(c, s, l) {
      RestorationBegins(c, s, l);
    } else {
      MovingOnDiscards(c, s, l);
    }
    TokensAlways(c, file, before + [l]);
    NoneAreFresh(StoreOf(t));
    IdsHold(c, t, after);
    StepsOn(c, Initial(file), before + [l], after);
  }

  // ---- While it is open ----

  /** From the counter on, the stored entries are the loaded ones, but for an entry of the resume action that has been
      taken out. */
  ghost predicate WindowOk(a: Store, loaded: map<nat, ActionState>) {
    && TokensOk(a)
    && (forall id :: id in a.actions && id >= a.next ==> id in loaded && a.actions[id] == loaded[id])
    && (forall id :: id in loaded && id >= a.next && loaded[id].name != "onResume" ==> id in a.actions)
  }

  lemma DroppedKeepsWindow(a: Store, b: Store, loaded: map<nat, ActionState>)
    requires WindowOk(a, loaded) && (b == Retuned(a, b).Dropped() || b == Retuned(a, b))
    ensures WindowOk(b, loaded)
  {
  }

  lemma TakenKeepsWindow(a: Store, id: nat, loaded: map<nat, ActionState>)
    requires WindowOk(a, loaded) && id in a.actions && a.actions[id].name == "onResume"
    ensures WindowOk(a.(actions := a.actions - {id}), loaded)
  {
  }

  lemma SettledKeepsWindow(a: Store, o: TrajectoryOptions, entry: ActionState, loaded: map<nat, ActionState>)
    requires WindowOk(a, loaded)
    ensures WindowOk(a.Settled(o, entry), loaded)
  {
  }

  lemma HeldKeepsWindow(a: Store, entry: ActionState, loaded: map<nat, ActionState>)
    requires WindowOk(a, loaded)
    ensures WindowOk(Held(a, entry), loaded)
  {
  }

  lemma ReleasedKeepsWindow(a: Store, id: nat, loaded: map<nat, ActionState>)
    requires WindowOk(a, loaded) && id in a.client
    ensures WindowOk(Released(a, id), loaded)
  {
  }

  lemma MovesKeepWindow(a: Store, b: Store, loaded: map<nat, ActionState>)
    requires Moves(a, b) && WindowOk(a, loaded) && b.actions != map[]
    ensures WindowOk(b, loaded)
  {
    hide WindowOk, Store.Dropped, Store.Settled, Held, Released;
    if b == Retuned(a, b) || b == Retuned(a, b).Dropped() {
      DroppedKeepsWindow(a, b, loaded);
    } else if id: nat :| id in a.actions && a.actions[id].name == "onResume" && b == a.(actions := a.actions - {id}) {
      TakenKeepsWindow(a, id, loaded);
    } else if entry: ActionState :| entry.name == "changeSettings" && b == a.Settled(b.options, entry) {
      SettledKeepsWindow(a, b.options, entry, loaded);
    } else if entry: ActionState :| b == Held(a, entry) {
      HeldKeepsWindow(a, entry, loaded);
    } else {
      var id: nat :| id in a.client && b == Released(a, id);
      ReleasedKeepsWindow(a, id, loaded);
    }
  }

  /** The window is open: nothing else is loaded, and not all entries are gone, as they are once they are restored. */
  ghost predicate StaysOpen(c: Setup, s: State, ls: seq<Label>) {
    && s.persistent.continuousActions != map[]
    && (ls == [] || (&& StaysOpen(c, s, ls[..|ls| - 1])
                     && !Loads(c, Steps(c, s, ls[..|ls| - 1]), ls[|ls| - 1])
                     && Steps(c, s, ls).persistent.continuousActions != map[]))
  }

  lemma {:induction false} WindowHolds(c: Setup, s: State, ls: seq<Label>, loaded: map<nat, ActionState>)
    requires WindowOk(StoreOf(s), loaded) && StaysOpen(c, s, ls)
    ensures WindowOk(StoreOf(Steps(c, s, ls)), loaded)
  {
    hide Step, Moves, Loads, WindowOk;
    if ls != [] {
      var t, l := Steps(c, s, ls[..|ls| - 1]), ls[|ls| - 1];
      WindowHolds(c, s, ls[..|ls| - 1], loaded);
      StepMoves(c, t, l);
      assert Steps(c, s, ls) == Step(c, t, l);
      MovesKeepWindow(StoreOf(t), StoreOf(Step(c, t, l)), loaded);
    }
  }

  lemma LoadOpens(c: Setup, s: State, l: Label)
    requires Loads(c, s, l) && TokensOk(StoreOf(s))
    ensures WindowOk(StoreOf(Step(c, s, l)), Step(c, s, l).persistent.continuousActions)
    ensures Numbered(Step(c, s, l).persistent.continuousActions)
  {
    hide Step, Feasible, Checksum, LoadedState;
    match l
    case External(SetMission(mission), answer) =>
      LoadStep(c, s, mission, answer);
      LoadedKeys(c, s.file, mission);
  }

  /** The ids are 0, 1, 2, ... */
  ghost predicate Numbered(actions: map<nat, ActionState>) {
    forall id: nat :: id in actions <==> id < |actions|
  }

  /** The counter is at the id of a loaded entry, and not at one of the resume action that has been taken out. */
  predicate CounterLoses(t: State, loaded: map<nat, ActionState>) {
    && t.nextActionId < |loaded| && t.nextActionId in loaded
    && (loaded[t.nextActionId].name == "onResume" ==> t.nextActionId in t.persistent.continuousActions)
  }

  /** Adding keeps all that is stored exactly when nothing is lost; otherwise the new entry replaces the loaded one. */
  ghost predicate AddLosesIff(t: State, a: ActionState, loaded: map<nat, ActionState>) {
    var actions, id := t.persistent.continuousActions, t.nextActionId;
    var after := AddContinuousAction(t, a).persistent.continuousActions;
    && (after - {id} == actions <==> !CounterLoses(t, loaded))
    && (CounterLoses(t, loaded) ==> id in actions && actions[id] == loaded[id] && id in after && after[id] == a)
  }

  /** At every point between a load and the restoration: an action that is added loses a loaded one, and loses it, if
      and only if the counter is below the number of loaded entries (and the entry is not one of the resume action that
      has been taken out). */
  lemma AddReplacesLoadedIff(c: Setup, file: Option<Json>, before: seq<Label>, l: Label, ls: seq<Label>, a: ActionState)
    requires Loads(c, Steps(c, Initial(file), before), l)
    requires StaysOpen(c, Step(c, Steps(c, Initial(file), before), l), ls)
    ensures var s := Step(c, Steps(c, Initial(file), before), l);
      AddLosesIff(Steps(c, s, ls), a, s.persistent.continuousActions)
  {
    hide Step, Steps, Loads, StaysOpen, AddContinuousAction;
    var u := Steps(c, Initial(file), before);
    var s := Step(c, u, l);
    TokensAlways(c, file, before);
    LoadOpens(c, u, l);
    WindowHolds(c, s, ls, s.persistent.continuousActions);
    AddOverwritesIff(Steps(c, s, ls), a);
  }

  // ---- Tokens that are older than the load ----

  /** Below the counter at the load, all that is stored are loaded entries; a token from before the load has the entry
      of its id, if one was loaded; and a token made since keeps its own entry. */
  ghost predicate OldOk(a: Store, n: nat, tokens: map<nat, ActionState>, loaded: map<nat, ActionState>) {
    && TokensOk(a) && n <= a.next
    && (forall id :: id in tokens ==> id < n)
    && (forall id :: id in a.client && id < n ==> id in tokens)
    && (forall id :: id in a.actions && id < n ==> id in loaded && a.actions[id] == loaded[id])
    && (forall id :: id in a.client && id in loaded && id < n && loaded[id].name != "onResume" ==> id in a.actions)
    && (forall id :: id in a.client && id in a.actions && id >= n ==> a.actions[id] == a.client[id])
  }

  lemma DroppedKeepsOld(a: Store, b: Store, n: nat, tokens: map<nat, ActionState>, loaded: map<nat, ActionState>)
    requires OldOk(a, n, tokens, loaded) && (b == Retuned(a, b).Dropped() || b == Retuned(a, b))
    ensures OldOk(b, n, tokens, loaded)
  {
    hide KeepsStore, KeepsSegment, SamePlace, SameButIndex, StartsNoSettings, StartsOnlyItem;
  }

  lemma TakenKeepsOld(a: Store, id: nat, n: nat, tokens: map<nat, ActionState>, loaded: map<nat, ActionState>)
    requires OldOk(a, n, tokens, loaded) && id in a.actions && a.actions[id].name == "onResume"
    ensures OldOk(a.(actions := a.actions - {id}), n, tokens, loaded)
  {
  }

  lemma SettledKeepsOld(a: Store, o: TrajectoryOptions, entry: ActionState, n: nat, tokens: map<nat, ActionState>,
                        loaded: map<nat, ActionState>)
    requires OldOk(a, n, tokens, loaded)
    ensures OldOk(a.Settled(o, entry), n, tokens, loaded)
  {
    hide KeepsStore, KeepsSegment, SamePlace, SameButIndex, StartsNoSettings, StartsOnlyItem;
  }

  lemma HeldKeepsOld(a: Store, entry: ActionState, n: nat, tokens: map<nat, ActionState>, loaded: map<nat, ActionState>)
    requires OldOk(a, n, tokens, loaded)
    ensures OldOk(Held(a, entry), n, tokens, loaded)
  {
  }

  lemma ReleasedKeepsOld(a: Store, id: nat, n: nat, tokens: map<nat, ActionState>, loaded: map<nat, ActionState>)
    requires OldOk(a, n, tokens, loaded) && id in a.client
    ensures OldOk(Released(a, id), n, tokens, loaded)
  {
  }

  lemma MovesKeepOld(a: Store, b: Store, n: nat, tokens: map<nat, ActionState>, loaded: map<nat, ActionState>)
    requires Moves(a, b) && OldOk(a, n, tokens, loaded) && b.actions != map[]
    ensures OldOk(b, n, tokens, loaded)
  {
    hide OldOk, Store.Dropped, Store.Settled, Held, Released;
    if b == Retuned(a, b) || b == Retuned(a, b).Dropped() {
      DroppedKeepsOld(a, b, n, tokens, loaded);
    } else if id: nat :| id in a.actions && a.actions[id].name == "onResume" && b == a.(actions := a.actions - {id}) {
      TakenKeepsOld(a, id, n, tokens, loaded);
    } else if entry: ActionState :| entry.name == "changeSettings" && b == a.Settled(b.options, entry) {
      SettledKeepsOld(a, b.options, entry, n, tokens, loaded);
    } else if entry: ActionState :| b == Held(a, entry) {
      HeldKeepsOld(a, entry, n, tokens, loaded);
    } else {
      var id: nat :| id in a.client && b == Released(a, id);
      ReleasedKeepsOld(a, id, n, tokens, loaded);
    }
  }

  lemma {:induction false} OldHolds(c: Setup, s: State, ls: seq<Label>, n: nat, tokens: map<nat, ActionState>,
                                    loaded: map<nat, ActionState>)
    requires OldOk(StoreOf(s), n, tokens, loaded) && StaysOpen(c, s, ls)
    ensures OldOk(StoreOf(Steps(c, s, ls)), n, tokens, loaded)
  {
    hide Step, Moves, Loads, OldOk;
    if ls != [] {
      var t, l := Steps(c, s, ls[..|ls| - 1]), ls[|ls| - 1];
      OldHolds(c, s, ls[..|ls| - 1], n, tokens, loaded);
      StepMoves(c, t, l);
      assert Steps(c, s, ls) == Step(c, t, l);
      MovesKeepOld(StoreOf(t), StoreOf(Step(c, t, l)), n, tokens, loaded);
    }
  }

  lemma LoadMakesOld(c: Setup, s: State, l: Label)
    requires Loads(c, s, l) && TokensOk(StoreOf(s))
    ensures var t := Step(c, s, l);
      t.clientKeepers == s.clientKeepers
      && OldOk(StoreOf(t), t.nextActionId, s.clientKeepers, t.persistent.continuousActions)
  {
    hide Step, Feasible, Checksum, LoadedState;
    match l
    case External(SetMission(mission), answer) => LoadStep(c, s, mission, answer);
  }

  /** The token is older than the load, and an entry was loaded under its id, which is still there if it is one of the
      resume action. */
  predicate ReleaseLoses(t: State, id: nat, tokens: map<nat, ActionState>, loaded: map<nat, ActionState>) {
    t.active && id in tokens && id in loaded &&
    (loaded[id].name == "onResume" ==> id in t.persistent.continuousActions)
  }

  /** Then a loaded entry is removed; otherwise the token's own entry, or nothing. */
  ghost predicate ReleaseLosesIff(t: State, id: nat, tokens: map<nat, ActionState>, loaded: map<nat, ActionState>) {
    var actions, after := t.persistent.continuousActions, DropStep(t, id).persistent.continuousActions;
    && (ReleaseLoses(t, id, tokens, loaded) <==> id in actions && id !in after && id in tokens)
    && (if ReleaseLoses(t, id, tokens, loaded) then
          after == actions - {id} && id in actions && actions[id] == loaded[id]
        else
          after == actions || (id in actions && after == actions - {id} && id in t.clientKeepers
                               && actions[id] == t.clientKeepers[id]))
  }

  lemma ReleaseRemoves(t: State, id: nat, n: nat, tokens: map<nat, ActionState>, loaded: map<nat, ActionState>)
    requires OldOk(StoreOf(t), n, tokens, loaded) && id in t.clientKeepers
    ensures ReleaseLosesIff(t, id, tokens, loaded)
  {
    hide KeepsStore, KeepsSegment, SamePlace, SameButIndex, StartsNoSettings, StartsOnlyItem;
    var actions, after := t.persistent.continuousActions, DropStep(t, id).persistent.continuousActions;
    if id !in actions {
      assert actions - {id} == actions;
    }
  }

  /** At every point between a load and the restoration: a token that is let go removes a loaded entry, which is not
      its own, if and only if it is older than the load and an entry was loaded under its id (that is still there, if
      it is one of the resume action); otherwise it removes its own entry or nothing. */
  lemma ReleaseLosesLoadedIff(c: Setup, file: Option<Json>, before: seq<Label>, l: Label, ls: seq<Label>, id: nat)
    requires Loads(c, Steps(c, Initial(file), before), l)
    requires StaysOpen(c, Step(c, Steps(c, Initial(file), before), l), ls)
    requires id in Steps(c, Step(c, Steps(c, Initial(file), before), l), ls).clientKeepers
    ensures var u := Steps(c, Initial(file), before);
      var s := Step(c, u, l);
      ReleaseLosesIff(Steps(c, s, ls), id, u.clientKeepers, s.persistent.continuousActions)
  {
    hide Step, Steps, Loads, StaysOpen, DropStep, OldOk, ReleaseLosesIff;
    var u := Steps(c, Initial(file), before);
    var s := Step(c, u, l);
    TokensAlways(c, file, before);
    LoadMakesOld(c, u, l);
    OldHolds(c, s, ls, s.nextActionId, u.clientKeepers, s.persistent.continuousActions);
    ReleaseRemoves(Steps(c, s, ls), id, s.nextActionId, u.clientKeepers, s.persistent.continuousActions);
  }
}
