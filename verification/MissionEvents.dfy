/** What each event does to the executor at rest: every statement is about the step of the whole machine, in terms of
    the state alone. */
module MissionEvents {
  import opened Wrappers
  import opened JsonValues
  import opened Missions
  import opened PersistentStates
  import opened MissionTypes
  import opened MissionSteps
  import opened MissionEffects

  ghost predicate AtRest(s: State) {
    !s.crashed && s.control.stack == []
  }

  // ---- Missions ----

  /** A mission is valid if it has an item and all its actions are known. */
  ghost predicate IsValid(c: Setup, m: Mission) {
    |m.items| > 0 && forall i :: 0 <= i < |m.items| ==> m.items[i].ActionItem? ==> m.items[i].name in c.actions
  }

  /** The file belongs to the mission: its checksum is the mission's, and its index one of the mission's. */
  predicate Fits(c: Setup, s: State, m: Mission, p: PersistentState) {
    && c.persistent && s.file.Some? && DecodeState(s.file.value) == Success(p)
    && p.missionChecksum == Checksum(c.hash, m)
    && p.currentIndex.Some? && 0 <= p.currentIndex.value < |m.items|
  }

  /** A new mission is taken while inactive, together with the state in the file if that fits, and otherwise with a
      fresh one. */
  lemma MissionIsSet(c: Setup, s: State, m: Mission, answer: Answer)
    requires AtRest(s)
    ensures var t := Step(c, s, External(SetMission(m), answer));
      var u := s.(mission := m, hasValidMission := t.hasValidMission);
      && (s.active ==> t == s)
      && (!s.active ==> (t.hasValidMission <==> IsValid(c, m)))
      && (!s.active ==> forall p :: Fits(c, s, m, p) ==> t == u.(persistent := p))
      && (!s.active && (forall p :: !Fits(c, s, m, p)) ==>
            t == u.(persistent := PersistentState(None, Checksum(c.hash, m), map[])))
  {
    hide Step, DecodeState, Checksum;
    EventStep(c, s, SetMission(m), answer);
    if LoadedState(c, s.file, m).Some? {
      assert Fits(c, s, m, LoadedState(c, s.file, m).value);
    }
  }

  /** While inactive the mission can be taken away, with everything that was kept for it but the checksum. */
  lemma MissionIsReset(c: Setup, s: State, answer: Answer)
    requires AtRest(s)
    ensures Step(c, s, External(ResetMission, answer))
         == if s.active then s
            else s.(mission := Mission(TrajectoryOptions(None, None, None), []), hasValidMission := false,
                    persistent := PersistentState(None, s.persistent.missionChecksum, map[]))
  {
    hide Step;
    EventStep(c, s, ResetMission, answer);
  }

  // ---- Activation ----

  /** An activation starts in the executor's own mode with the defaults of the mission. With a mission that is ready the
      index it goes on from is reported, the client is told, and what follows is left to do; otherwise it aborts. */
  lemma ActivationBegins(c: Setup, s: State, answer: Answer)
    requires AtRest(s)
    ensures var t := s.(active := true, options := s.mission.defaults, itemState := Other, activeMode := c.ownMode);
      var index := s.persistent.currentIndex;
      var frames := [Activated(s.control.handler, index == None), ActivatedHook];
      Step(c, s, External(Activate, answer))
      == if s.active then s
         else if !s.hasValidMission || !s.actionsReady then Aborting(t, "noValidMission")
         else WithIndex(t.(control := t.control.(stack := frames)), match index case None => 0 case Some(i) => i)
  {
    hide Step, StartAbort, Aborting;
    EventStep(c, s, Activate, answer);
    AbortAborts(s.(active := true, options := s.mission.defaults, itemState := Other, activeMode := c.ownMode),
                "noValidMission");
    assert [] + [Activated(s.control.handler, s.persistent.currentIndex.None?)] + [ActivatedHook]
        == [Activated(s.control.handler, s.persistent.currentIndex.None?), ActivatedHook];
  }

  /** A mission is over past its last item, and at its last item after a landing. */
  predicate IsOver(s: State) {
    match s.persistent.currentIndex
    case None => false
    case Some(i) => i >= |s.mission.items| || (i == |s.mission.items| - 1 && s.landed)
  }

  /** A deactivation drops the pending mode and replaces the handler. A mission that is over is forgotten, with its
      file; of any other one the resume action stores what it needs, and then the state is saved, before the actions
      are told to let go. */
  lemma DeactivationBegins(c: Setup, s: State, answer: Answer)
    requires AtRest(s)
    ensures var k, p := s.control, s.persistent;
      var left := k.(valid := k.valid - {k.handler} + {k.handler + 1}, handler := k.handler + 1, scheduled := None);
      var storing := if "onResume" in c.actions then [Perform("onResume", Obj(map["action" := Str("storeState")]), Nop)]
                     else [];
      Step(c, s, External(Deactivate, answer))
      == if !s.active then s
         else if IsOver(s) then
           s.(active := false, file := if c.persistent then None else s.file,
              persistent := PersistentState(None, p.missionChecksum, map[]), control := left.(stack := [Cleanup]))
         else s.(active := false, control := left.(stack := [Cleanup, SaveState] + storing))
  {
    hide Step, SamePlace, StoreOf;
    EventStep(c, s, Deactivate, answer);
    assert [] + [Cleanup] + [SaveState] == [Cleanup, SaveState];
  }

  // ---- What was waited for ----

  /** The end of the pending mode: its completion is called, or its failure, without which the mission aborts; a mode
      that was deactivated is only not pending any more. */
  lemma ModeEnds(c: Setup, s: State, outcome: Outcome, answer: Answer)
    requires AtRest(s)
    ensures var t := Step(c, s, External(ModeFinished(outcome), answer));
      match s.control.scheduled
      case None => t == s
      case Some(callback) =>
        var u := s.(control := s.control.(scheduled := None));
        match outcome
        case Succeeded => t == u.(control := u.control.(stack := [Invoke(callback.done)]))
        case Dropped => t == u
        case Failed =>
          match callback.onFailure
          case Some(failure) => t == u.(activeMode := 0, control := u.control.(stack := [Invoke(failure)]))
          case None => t == Aborting(u.(activeMode := 0), "modeFailure")
  {
    hide Step, StartAbort, Aborting, SamePlace, KeepsStore, KeepsSegment, StartsNoSettings;
    EventStep(c, s, ModeFinished(outcome), answer);
    AbortAborts(s.(activeMode := 0, control := s.control.(scheduled := None)), "modeFailure");
  }

  /** The hold timer fires once. */
  lemma TimerFires(c: Setup, s: State, answer: Answer)
    requires AtRest(s)
    ensures Step(c, s, External(TimerFired, answer))
         == match s.control.holdTimer
            case None => s
            case Some(done) => s.(control := s.control.(holdTimer := None, stack := [Invoke(done)]))
  {
    hide Step, SamePlace, KeepsStore, KeepsSegment, StartsNoSettings;
    EventStep(c, s, TimerFired, answer);
  }

  // ---- Flying ----

  /** The flight heads for the index after the one that it has reached, up to its end, and calls what is due. */
  function Heading(s: State, i: int, due: seq<Frame>): State {
    var k := s.control;
    s.(control := k.(flight := k.flight.(target := if i < k.flight.end then Some(i + 1) else None),
                     stack := k.stack + due))
  }

  /** An index is reached: a segment of the mission moves the mission on to the next one, and at its end the flight is
      completed. */
  function Arrived(s: State, i: int): State {
    match s.control.flight.report
    case NoReport => Heading(s, i, [])
    case SegmentStep(h, end) =>
      if !s.control.IsValid(h) then Heading(s, i, [])
      else WithIndex(Heading(s, i, if i == end then [StartItem(false, h)] else []), i + 1)
    case CustomStep(done, end) => Heading(s, i, if i == end then [Invoke(done)] else [])
  }

  /** An update of the flight: an action among its items is passed, and a waypoint once it is reached; without a valid
      position the mission aborts. */
  lemma FlightGoesOn(c: Setup, s: State, positionValid: bool, reached: bool, answer: Answer)
    requires AtRest(s)
    ensures var items := s.control.flight.items;
      Step(c, s, External(UpdateSetpoint(positionValid, reached), answer))
      == match s.control.flight.target
         case None => s
         case Some(i) =>
           if s.itemState == Other then s
           else if i < 0 || i >= |items| then s.(crashed := true)
           else if items[i].ActionItem? then Arrived(s, i)
           else if !positionValid then Aborting(s, "trajectoryFailure")
           else if reached then Arrived(s, i)
           else s
  {
    hide Step, ReachIndex, Arrived, StartAbort, Aborting, KeepsStore, StartsNoSettings;
    EventStep(c, s, UpdateSetpoint(positionValid, reached), answer);
    AbortAborts(s, "trajectoryFailure");
    if s.control.flight.target.Some? {
      ReachArrives(s, s.control.flight.target.value);
    }
  }

  lemma ReachArrives(s: State, index: int)
    ensures ReachIndex(s, index) == Arrived(s, index)
  {
    hide KeepsStore, StartsNoSettings, Reached, Heading, SetCurrentIndex, WithIndex;
    Heads(s, index);
    MovesOn(s, Reached(s.control, index), index + 1);
  }

  lemma Heads(s: State, index: int)
    ensures var t := s.(control := Reached(s.control, index));
      match s.control.flight.report
      case NoReport => t == Heading(s, index, [])
      case SegmentStep(h, end) =>
        t == Heading(s, index, if s.control.IsValid(h) && index == end then [StartItem(false, h)] else [])
      case CustomStep(done, end) => t == Heading(s, index, if index == end then [Invoke(done)] else [])
  {
    hide HeadOn, Heading;
    HeadsOn(s, index);
  }

  lemma HeadsOn(s: State, index: int)
    ensures Heading(s, index, []) == s.(control := HeadOn(s.control, index))
    ensures forall f :: Heading(s, index, [f]) == s.(control := HeadOn(s.control, index).Push(f))
  {
    assert s.control.stack + [] == s.control.stack;
  }

  lemma MovesOn(s: State, k: Control, index: int)
    ensures SetCurrentIndex(s, index).(control := k) == WithIndex(s.(control := k), index)
  {
  }

  // ---- The other events ----

  /** Client code of a run gets its turn; a request to abort is followed while active; landing is noted at any time, and
      the readiness of the actions while inactive. */
  lemma OthersAreNoted(c: Setup, s: State, run: nat, b: bool, answer: Answer)
    requires AtRest(s)
    ensures Step(c, s, External(ClientTurn(run), answer))
         == if run < |s.control.runs| then s.(control := s.control.(stack := [Client(run)])) else s
    ensures Step(c, s, External(AbortRequest, answer)) == if s.active then Aborting(s, "other") else s
    ensures Step(c, s, External(LandedChanged(b), answer)) == s.(landed := b)
    ensures Step(c, s, External(ReadinessChanged(b), answer)) == if s.active then s else s.(actionsReady := b)
  {
    hide Step, StartAbort, Aborting, SamePlace, KeepsStore;
    EventStep(c, s, ClientTurn(run), answer);
    EventStep(c, s, AbortRequest, answer);
    EventStep(c, s, LandedChanged(b), answer);
    EventStep(c, s, ReadinessChanged(b), answer);
    AbortAborts(s, "other");
  }

  // ---- Before the first activation ----

  /** The last landing that was noted, and the last readiness. */
  function Landed(ls: seq<Label>): bool {
    if ls == [] then false
    else match ls[|ls| - 1]
      case External(LandedChanged(b), _) => b
      case _ => Landed(ls[..|ls| - 1])
  }

  function Ready(ls: seq<Label>): bool {
    if ls == [] then false
    else match ls[|ls| - 1]
      case External(ReadinessChanged(b), _) => b
      case _ => Ready(ls[..|ls| - 1])
  }

  /** Nothing has been run, reported, flown, stored or asked for. */
  ghost predicate Dormant(file: Option<Json>, s: State) {
    && !s.crashed && !s.active && s.control.stack == [] && s.file == file
    && s.control.handler == 0 && s.control.valid == {0} && s.control.runs == [] && s.control.completedRuns == {}
    && s.control.scheduled == None && s.control.holdTimer == None && s.control.abortLevel == 0
    && s.activeMode == 0 && s.itemState == Other && s.control.flight.target == None
    && s.nextActionId == 0 && s.settingsKeeper == None && s.clientKeepers == map[]
    && s.options == TrajectoryOptions(None, None, None) && s.reports == [] && s.segments == []
  }

  /** Over every run without an activation: the executor only notes what it is told, and has a valid mission exactly if
      the one that it was given last is one. */
  lemma {:induction false} UntilActivated(c: Setup, file: Option<Json>, ls: seq<Label>)
    requires forall i :: 0 <= i < |ls| ==> !(ls[i].External? && ls[i].event.Activate?)
    ensures var s := Steps(c, Initial(file), ls);
      && Dormant(file, s) && s.landed == Landed(ls) && s.actionsReady == Ready(ls)
      && (s.hasValidMission <==> IsValid(c, s.mission))
  {
    hide Step;
    if ls != [] {
      var before, l := ls[..|ls| - 1], ls[|ls| - 1];
      UntilActivated(c, file, before);
      StaysDormant(c, file, Steps(c, Initial(file), before), l);
    }
  }

  lemma StaysDormant(c: Setup, file: Option<Json>, s: State, l: Label)
    requires Dormant(file, s) && !(l.External? && l.event.Activate?)
    requires s.hasValidMission <==> IsValid(c, s.mission)
    ensures var t := Step(c, s, l);
      && Dormant(file, t) && (t.hasValidMission <==> IsValid(c, t.mission))
      && t.landed == (if l.External? && l.event.LandedChanged? then l.event.landed else s.landed)
      && t.actionsReady == (if l.External? && l.event.ReadinessChanged? then l.event.ready else s.actionsReady)
  {
    hide Step, IsValid, Fits, Aborting;
    if !l.External? {
      UnfitStep(c, s, l);
    } else {
      match l.event
      case SetMission(m) => MissionIsSet(c, s, m, l.answer);
      case ResetMission =>
        MissionIsReset(c, s, l.answer);
        NoItems(c, Mission(TrajectoryOptions(None, None, None), []));
      case Activate =>
      case Deactivate => DeactivationBegins(c, s, l.answer);
      case ModeFinished(outcome) => ModeEnds(c, s, outcome, l.answer);
      case UpdateSetpoint(positionValid, reached) => FlightGoesOn(c, s, positionValid, reached, l.answer);
      case TimerFired => TimerFires(c, s, l.answer);
      case ClientTurn(run) => OthersAreNoted(c, s, run, false, l.answer);
      case AbortRequest => OthersAreNoted(c, s, 0, false, l.answer);
      case LandedChanged(b) => OthersAreNoted(c, s, 0, b, l.answer);
      case ReadinessChanged(b) => OthersAreNoted(c, s, 0, b, l.answer);
    }
  }

  lemma NoItems(c: Setup, m: Mission)
    requires m.items == []
    ensures !IsValid(c, m)
  {
  }
}
