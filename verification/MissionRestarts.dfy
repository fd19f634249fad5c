/** Settings survive restarts of the program: every session saves them with the state, and the next one starts with
    them. */
module MissionRestarts {
  import opened Wrappers
  import opened JsonValues
  import opened Missions
  import opened OrderedMaps
  import opened MissionTypes
  import opened MissionSteps
  import opened MissionHandlers
  import opened MissionTokens
  import opened MissionIndex
  import opened MissionPersistence
  import opened MissionStore
  import opened MissionSettings

  /** What one process does: a run, then a deactivation and what it leads to. */
  datatype Session = Session(run: seq<Label>, leave: seq<Label>)
  {
    function Labels(): seq<Label> {
      run + [External(Deactivate, Accepted)] + leave
    }
  }

  /** The end of a session. */
  function Ended(c: Setup, file: Option<Json>, m: Mission, session: Session): State {
    Steps(c, Started(c, file, m), session.Labels())
  }

  /** The session leaves the settings alone, as in the theorems about one executor, and its deactivation completes. */
  ghost predicate Proper(c: Setup, file: Option<Json>, m: Mission, session: Session) {
    && UndisturbedRun(c, Started(c, file, m), session.Labels())
    && SparesRun(c, Started(c, file, m), session.Labels())
    && var s := Steps(c, Started(c, file, m), session.run);
       && s.active && s.control.stack == [] && !s.crashed
       && NoEvents(session.leave)
       && Ended(c, file, m, session).control.stack == []
  }

  // ---- The stored actions, renumbered ----

  lemma RenumberedWaits(a: Store, b: Store, defaults: TrajectoryOptions, o: TrajectoryOptions)
    requires Waits(a, defaults, o) && b.actions == Renumbered(Values(a.actions))
    ensures Waits(b, defaults, o)
  {
    hide Values, EncodeOptions;
    var vs := Values(a.actions);
    if NoEntry(a.actions) && o == defaults {
      NoneStored(a.actions);
      assert NoEntry(b.actions);
    } else {
      var id: nat :| EntryAt(a.actions, id, o);
      OneStored(a.actions, id, o);
      var i: nat :| i < |vs| && vs[i] == SettingsEntry(o) && NoneIn(vs[..i]) && NoneIn(vs[i + 1..]);
      forall k | k in b.actions - {i}
        ensures b.actions[k].name != "changeSettings"
      {
        assert k < i ==> vs[k] == vs[..i][k];
        assert k > i ==> vs[k] == vs[i + 1..][k - i - 1];
      }
      assert EntryAt(b.actions, i, o);
    }
  }

  // ---- The index of a session ----

  lemma {:induction false} SameMission(c: Setup, s: State, ls: seq<Label>)
    requires UndisturbedRun(c, s, ls)
    ensures SameIdentity(s, Steps(c, s, ls))
  {
    hide Step;
    if ls != [] {
      SameMission(c, s, ls[..|ls| - 1]);
      StepIdentity(c, Steps(c, s, ls[..|ls| - 1]), ls[|ls| - 1]);
    }
  }

  predicate HasIndex(s: State) {
    s.active ==> s.persistent.currentIndex.Some?
  }

  lemma ActivationHasIndex(c: Setup, s: State)
    requires OnActivate(c, s).control.handler == s.control.handler
    ensures HasIndex(OnActivate(c, s))
  {
    hide StartAbort;
  }

  lemma SetpointHasIndex(c: Setup, s: State, positionValid: bool, reached: bool)
    requires s.control.stack == [] && HasIndex(s)
    ensures HasIndex(UpdateSetpointStep(c, s, positionValid, reached))
  {
    hide StartAbort, ReachIndex, KeepsStore;
    if s.control.flight.target.Some? {
      ReachIndexPlace(s, s.control.flight.target.value);
    }
  }

  lemma EventHasIndex(c: Setup, s: State, event: Event, answer: Answer)
    requires HasIndex(s) && s.control.stack == [] && (event.Activate? || event.Deactivate? || event.UpdateSetpoint?)
    requires ExternalStep(c, s, event, answer).control.handler == s.control.handler || event.Deactivate?
    ensures HasIndex(ExternalStep(c, s, event, answer))
  {
    hide OnActivate, OnDeactivate, UpdateSetpointStep, StartAbort, FinishMode, FireTimer, SetMissionStep;
    match event
    case Activate =>
      if !s.active {
        ActivationHasIndex(c, s);
      }
    case Deactivate => DeactivateIndex(c, s);
    case UpdateSetpoint(positionValid, reached) => SetpointHasIndex(c, s, positionValid, reached);
  }

  lemma SomeStays(c: Setup, s: State, l: Label)
    requires Placed(c, s) && s.control.stack != []
    ensures s.persistent.currentIndex.Some? ==> Step(c, s, l).persistent.currentIndex.Some?
  {
    hide Step, Placed, RunNextItem, ItemEnds;
    if !Advancing(s, l) {
      StepStays(c, s, l);
    } else {
      PlacedHandlers(c, s);
      ItemDoneSteps(c, s, l);
      NextIndex(Popped(s));
    }
  }

  lemma PlacedHandlers(c: Setup, s: State)
    requires Placed(c, s)
    ensures HandlersOk(c, s.control)
  {
  }

  lemma NextIndex(s: State)
    ensures RunNextItem(s).persistent.currentIndex.Some?
  {
  }

  lemma StepHasIndex(c: Setup, s: State, l: Label)
    requires Placed(c, s) && HasIndex(s) && Undisturbed(c, s, l)
    ensures HasIndex(Step(c, s, l))
  {
    hide Step, ExternalStep, Placed;
    if s.control.stack != [] {
      SomeStays(c, s, l);
      StaysActive(c, s, l);
    } else if Advancing(s, l) && !s.crashed && (l.event.Activate? || l.event.Deactivate? || l.event.UpdateSetpoint?) {
      EventStep(c, s, l.event, l.answer);
      EventHasIndex(c, s, l.event, l.answer);
    } else {
      StepStays(c, s, l);
    }
  }

  lemma {:induction false} RunHasIndex(c: Setup, s: State, ls: seq<Label>)
    requires Placed(c, s) && HasIndex(s) && UndisturbedRun(c, s, ls)
    ensures Placed(c, Steps(c, s, ls)) && HasIndex(Steps(c, s, ls))
  {
    hide Step, Placed, HasIndex;
    if ls != [] {
      var t, l := Steps(c, s, ls[..|ls| - 1]), ls[|ls| - 1];
      RunHasIndex(c, s, ls[..|ls| - 1]);
      StepHasIndex(c, t, l);
      StepPlaced(c, t, l);
    }
  }

  // ---- The deactivation ----

  lemma {:induction false} UndisturbedParts(c: Setup, s: State, a: seq<Label>, b: seq<Label>)
    requires UndisturbedRun(c, s, a + b)
    ensures UndisturbedRun(c, s, a) && UndisturbedRun(c, Steps(c, s, a), b)
  {
    hide Step, Undisturbed;
    if b == [] {
      assert a + b == a;
    } else {
      assert (a + b)[..|a + b| - 1] == a + b[..|b| - 1] && (a + b)[|a + b| - 1] == b[|b| - 1];
      assert Undisturbed(c, Steps(c, s, (a + b)[..|a + b| - 1]), (a + b)[|a + b| - 1]);
      UndisturbedParts(c, s, a, b[..|b| - 1]);
      StepsOn(c, s, a, b[..|b| - 1]);
    }
  }

  lemma {:induction false} SparesParts(c: Setup, s: State, a: seq<Label>, b: seq<Label>)
    requires SparesRun(c, s, a + b)
    ensures SparesRun(c, s, a) && SparesRun(c, Steps(c, s, a), b)
  {
    hide Step, Spares;
    if b == [] {
      assert a + b == a;
    } else {
      assert (a + b)[..|a + b| - 1] == a + b[..|b| - 1] && (a + b)[|a + b| - 1] == b[|b| - 1];
      assert Spares(Steps(c, s, (a + b)[..|a + b| - 1]), (a + b)[|a + b| - 1]);
      SparesParts(c, s, a, b[..|b| - 1]);
      StepsOn(c, s, a, b[..|b| - 1]);
    }
  }

  lemma {:induction false} IntendedParts(c: Setup, s: State, a: seq<Label>, b: seq<Label>, o: TrajectoryOptions)
    ensures IntendedOver(c, s, a + b, o) == IntendedOver(c, Steps(c, s, a), b, IntendedOver(c, s, a, o))
  {
    hide Step, Intended;
    if b == [] {
      assert a + b == a;
    } else {
      assert (a + b)[..|a + b| - 1] == a + b[..|b| - 1] && (a + b)[|a + b| - 1] == b[|b| - 1];
      IntendedParts(c, s, a, b[..|b| - 1], o);
      StepsOn(c, s, a, b[..|b| - 1]);
    }
  }

  /** While inactive, nothing changes the settings that are asked for, and the index is not dropped. */
  lemma {:induction false} LeavingKeeps(c: Setup, s: State, ls: seq<Label>, o: TrajectoryOptions)
    requires SettingsSetup(c) && Sound(c, s) && Tidy(s) && Holds(s, o) && !s.active
    requires UndisturbedRun(c, s, ls) && SparesRun(c, s, ls) && NoEvents(ls)
    ensures IntendedOver(c, s, ls, o) == o && !Steps(c, s, ls).active
    ensures s.persistent.currentIndex.Some? ==> Steps(c, s, ls).persistent.currentIndex.Some?
  {
    hide Step, Sound, Tidy, Holds, Intended, SettingsSetup, Spares;
    if ls != [] {
      var before, l := ls[..|ls| - 1], ls[|ls| - 1];
      LeavingKeeps(c, s, before, o);
      RunHolds(c, s, before, o);
      LeavingStep(c, Steps(c, s, before), l, o);
    }
  }

  lemma LeavingStep(c: Setup, s: State, l: Label, o: TrajectoryOptions)
    requires Sound(c, s) && Holds(s, o) && !s.active && !l.External?
    ensures Intended(s, l, o) == o && !Step(c, s, l).active
    ensures s.persistent.currentIndex.Some? ==> Step(c, s, l).persistent.currentIndex.Some?
  {
    hide Step, Placed, Holds, OwnOk, MissionDone, Leave, Asked, Count;
    InactiveSuspended(s, o);
    if s.control.stack == [] {
      UnfitStep(c, s, l);
    } else {
      SomeStays(c, s, l);
      StaysActive(c, s, l);
      assert SettingsFree(s.control.Top()) by {
        hide Count;
      }
    }
  }

  const Leaving: seq<Label> := [External(Deactivate, Accepted)]

  lemma IntendedLeaving(c: Setup, s: State, o: TrajectoryOptions)
    requires s.active && s.control.stack == []
    ensures IntendedOver(c, s, Leaving, o) == if MissionDone(Leave(s)) then s.mission.defaults else o
  {
    hide Step, MissionDone, Leave;
    assert Leaving[..0] == [];
    assert Steps(c, s, Leaving[..0]) == s;
    assert IntendedOver(c, s, Leaving[..0], o) == o;
  }

  /** The parts of a session. */
  lemma SessionParts(c: Setup, file: Option<Json>, m: Mission, session: Session)
    requires Proper(c, file, m, session)
    ensures var s0 := Started(c, file, m);
      var s := Steps(c, s0, session.run);
      var u := Steps(c, s, Leaving);
      && UndisturbedRun(c, s0, session.run) && SparesRun(c, s0, session.run)
      && UndisturbedRun(c, s, Leaving) && SparesRun(c, s, Leaving)
      && UndisturbedRun(c, u, session.leave) && SparesRun(c, u, session.leave)
      && Ended(c, file, m, session) == Steps(c, u, session.leave)
  {
    hide Step, Started, UndisturbedRun, SparesRun;
    var s0 := Started(c, file, m);
    StepsOn(c, s0, session.run + Leaving, session.leave);
    StepsOn(c, s0, session.run, Leaving);
    UndisturbedParts(c, s0, session.run + Leaving, session.leave);
    UndisturbedParts(c, s0, session.run, Leaving);
    SparesParts(c, s0, session.run + Leaving, session.leave);
    SparesParts(c, s0, session.run, Leaving);
  }

  lemma Deactivated(c: Setup, s: State)
    requires s.active && s.control.stack == [] && !s.crashed
    ensures var u := Steps(c, s, Leaving);
      && u == OnDeactivate(c, s) && !u.active
      && u.persistent.currentIndex == if MissionDone(Leave(s)) then None else s.persistent.currentIndex
  {
    hide Step, Steps, ExternalStep, OnDeactivate, MissionDone, Leave;
    OneStep(c, s, External(Deactivate, Accepted));
    EventStep(c, s, Deactivate, Accepted);
    EntryEvents(c, s, Accepted);
    DeactivateIndex(c, s);
  }

  lemma SessionMission(c: Setup, file: Option<Json>, m: Mission, session: Session)
    requires Proper(c, file, m, session)
    ensures Steps(c, Started(c, file, m), session.run).mission == m && Ended(c, file, m, session).mission == m
  {
    hide Step, Steps, Started, UndisturbedRun, SparesRun, EncodeMission;
    FirstStep(c, file, m);
    SessionParts(c, file, m, session);
    SameMission(c, Started(c, file, m), session.run);
    SameMission(c, Started(c, file, m), session.Labels());
  }

  /** What is asked for up to the end of a session is what was asked for up to its deactivation, or the defaults if
      the mission was done then; and it holds. */
  lemma SessionHolds(c: Setup, file: Option<Json>, m: Mission, session: Session, o: TrajectoryOptions)
    requires SettingsSetup(c) && Proper(c, file, m, session)
    requires Waits(StoreOf(Started(c, file, m)), m.defaults, o) && Covers(m.defaults, o)
    ensures var s, t := Steps(c, Started(c, file, m), session.run), Ended(c, file, m, session);
      var o1, p := IntendedOver(c, Started(c, file, m), session.run, o),
                   IntendedOver(c, Started(c, file, m), session.Labels(), o);
      && Placed(c, s) && Placed(c, t) && Holds(t, p) && !t.active
      && p == (if MissionDone(Leave(s)) then s.mission.defaults else o1)
      && (t.persistent.currentIndex.None? ==> MissionDone(Leave(s)) || s.persistent.currentIndex.None?)
  {
    hide Step, Steps, Started, UndisturbedRun, SparesRun, SettingsSetup, Sound, Tidy, Holds, Waits, Covers, Placed,
      MissionDone, Leave, IntendedOver, OnDeactivate, FileAgrees;
    var s0 := Started(c, file, m);
    var s := Steps(c, s0, session.run);
    var u, o1 := Steps(c, s, Leaving), IntendedOver(c, s0, session.run, o);
    var o2 := IntendedOver(c, s, Leaving, o1);
    SessionParts(c, file, m, session);
    SetMissionHolds(c, file, m, o);
    RunHolds(c, s0, session.run, o);
    SoundPlaced(c, s);
    RunHolds(c, s, Leaving, o1);
    Deactivated(c, s);
    LeavingKeeps(c, u, session.leave, o2);
    RunHolds(c, u, session.leave, o2);
    SoundPlaced(c, Steps(c, u, session.leave));
    IntendedLeaving(c, s, o1);
    SessionIntended(c, s0, session, o);
  }

  lemma SessionIntended(c: Setup, s0: State, session: Session, o: TrajectoryOptions)
    ensures var s := Steps(c, s0, session.run);
      IntendedOver(c, s0, session.Labels(), o)
      == IntendedOver(c, Steps(c, s, Leaving), session.leave,
                      IntendedOver(c, s, Leaving, IntendedOver(c, s0, session.run, o)))
  {
    hide Step, Steps, IntendedOver;
    StepsOn(c, s0, session.run, Leaving);
    IntendedParts(c, s0, session.run + Leaving, session.leave, o);
    IntendedParts(c, s0, session.run, Leaving, o);
  }

  lemma SessionIndex(c: Setup, file: Option<Json>, m: Mission, session: Session)
    requires Proper(c, file, m, session)
    ensures Steps(c, Started(c, file, m), session.run).persistent.currentIndex.Some?
  {
    hide Step, Steps, UndisturbedRun, SparesRun, Placed, EncodeMission;
    SessionParts(c, file, m, session);
    InitialPlaced(c, file);
    StepPlaced(c, Initial(file), External(SetMission(m), Accepted));
    FirstStep(c, file, m);
    RunHasIndex(c, Started(c, file, m), session.run);
  }

  // ---- The next process ----

  /** The file that a session leaves. */
  lemma SessionSaved(c: Setup, file: Option<Json>, m: Mission, session: Session)
    requires c.persistent && Proper(c, file, m, session)
    ensures var t := Ended(c, file, m, session);
      var f := Started(c, t.file, m);
      && f.persistent.currentIndex == t.persistent.currentIndex
      && (t.persistent.currentIndex.Some? ==>
            f.persistent.continuousActions == Renumbered(Values(t.persistent.continuousActions)))
  {
    hide Step, Steps, UndisturbedRun, SparesRun, Values, OnDeactivate, FileAgrees;
    var l, s := External(SetMission(m), Accepted), Steps(c, Started(c, file, m), session.run);
    StepsOn(c, Initial(file), [l], session.run);
    OneStep(c, Initial(file), l);
    SessionParts(c, file, m, session);
    SessionMission(c, file, m, session);
    Deactivated(c, s);
    PersistedResumeAgrees(c, file, [l] + session.run, session.leave);
  }

  /** A process that starts after a session starts with the settings that were asked for up to its end. */
  lemma RestartKeepsSettings(c: Setup, file: Option<Json>, m: Mission, session: Session, o: TrajectoryOptions)
    requires SettingsSetup(c) && c.persistent && Proper(c, file, m, session)
    requires Waits(StoreOf(Started(c, file, m)), m.defaults, o) && Covers(m.defaults, o)
    ensures var p := IntendedOver(c, Started(c, file, m), session.Labels(), o);
      Waits(StoreOf(Started(c, Ended(c, file, m, session).file, m)), m.defaults, p) && Covers(m.defaults, p)
  {
    hide Step, Steps, Started, UndisturbedRun, SparesRun, SettingsSetup, Holds, Waits, Covers, Placed, MissionDone,
      Leave, IntendedOver, Proper, Ended, Values, StoreOf;
    var t, p := Ended(c, file, m, session), IntendedOver(c, Started(c, file, m), session.Labels(), o);
    var f := Started(c, t.file, m);
    SessionHolds(c, file, m, session, o);
    SessionMission(c, file, m, session);
    SessionIndex(c, file, m, session);
    SessionSaved(c, file, m, session);
    HeldWaits(t, p);
    StoreFields(t);
    StoreFields(f);
    if t.persistent.currentIndex.Some? {
      RenumberedWaits(StoreOf(t), StoreOf(f), m.defaults, p);
    } else {
      FirstStep(c, t.file, m);
      NoneWaits(StoreOf(f), m.defaults);
    }
  }

  lemma HeldWaits(t: State, p: TrajectoryOptions)
    requires Holds(t, p) && !t.active
    ensures Waits(StoreOf(t), t.mission.defaults, p) && Covers(t.mission.defaults, p)
  {
    hide Covers, Waits, Count, Live;
    InactiveSuspended(t, p);
  }

  // ---- Any number of restarts ----

  function FileAfter(c: Setup, file: Option<Json>, m: Mission, sessions: seq<Session>): Option<Json> {
    if sessions == [] then file
    else
      var last := |sessions| - 1;
      Ended(c, FileAfter(c, file, m, sessions[..last]), m, sessions[last]).file
  }

  /** The settings asked for over the sessions. */
  function IntendedAfter(c: Setup, file: Option<Json>, m: Mission, sessions: seq<Session>, o: TrajectoryOptions):
    TrajectoryOptions
  {
    if sessions == [] then o
    else
      var last := |sessions| - 1;
      IntendedOver(c, Started(c, FileAfter(c, file, m, sessions[..last]), m), sessions[last].Labels(),
        IntendedAfter(c, file, m, sessions[..last], o))
  }

  ghost predicate AllProper(c: Setup, file: Option<Json>, m: Mission, sessions: seq<Session>) {
    sessions == [] ||
    var last := |sessions| - 1;
    AllProper(c, file, m, sessions[..last])
    && Proper(c, FileAfter(c, file, m, sessions[..last]), m, sessions[last])
  }

  lemma {:induction false} RestartsKeepSettings(c: Setup, file: Option<Json>, m: Mission, sessions: seq<Session>,
                                                o: TrajectoryOptions)
    requires SettingsSetup(c) && c.persistent && AllProper(c, file, m, sessions)
    requires Waits(StoreOf(Started(c, file, m)), m.defaults, o) && Covers(m.defaults, o)
    ensures var p := IntendedAfter(c, file, m, sessions, o);
      Waits(StoreOf(Started(c, FileAfter(c, file, m, sessions), m)), m.defaults, p) && Covers(m.defaults, p)
  {
    hide Started, Waits, Covers, Proper, Ended, SettingsSetup, IntendedOver;
    if sessions != [] {
      var last := |sessions| - 1;
      RestartsKeepSettings(c, file, m, sessions[..last], o);
      RestartKeepsSettings(c, FileAfter(c, file, m, sessions[..last]), m, sessions[last],
        IntendedAfter(c, file, m, sessions[..last], o));
    }
  }

  /** From an executor without a stored state, over any number of sessions that each end with a deactivation and the
      end of the process, and over any run of the process after them: the settings in force at the items, and those
      that wait while inactive, are those that the items have asked for since the beginning. */
  lemma SettingsSurviveRestarts(c: Setup, file: Option<Json>, m: Mission, sessions: seq<Session>, ls: seq<Label>)
    requires SettingsSetup(c) && c.persistent && LoadedState(c, file, m).None? && AllProper(c, file, m, sessions)
    requires var s := Started(c, FileAfter(c, file, m, sessions), m); UndisturbedRun(c, s, ls) && SparesRun(c, s, ls)
    ensures var s := Started(c, FileAfter(c, file, m, sessions), m);
      Survive(Steps(c, s, ls), IntendedOver(c, s, ls, IntendedAfter(c, file, m, sessions, m.defaults)))
  {
    hide Started, Waits, Proper, Ended, SettingsSetup, IntendedOver, IntendedAfter, FileAfter, AllProper, LoadedState,
      UndisturbedRun, SparesRun, Survive, Steps;
    FirstStep(c, file, m);
    NoneWaits(StoreOf(Started(c, file, m)), m.defaults);
    RestartsKeepSettings(c, file, m, sessions, m.defaults);
    SettingsSurviveLoading(c, FileAfter(c, file, m, sessions), m,
      IntendedAfter(c, file, m, sessions, m.defaults), ls);
  }
}
