/** The mission's own resumption is never lost: over every run the resume action that the executor waits for calls its
    completion or hands it to one command. Run by other client code it can fail, as two runs show. */
module MissionResumption {
  import opened Wrappers
  import opened JsonValues
  import opened Missions
  import opened MissionTypes
  import opened MissionSteps
  import opened MissionHandlers
  import opened MissionTokens
  import opened MissionIndex
  import opened MissionPersistence
  import opened MissionResume

  // ---- While a continuation is alive, every action of the mission is known ----

  ghost predicate Known(c: Setup, s: State) {
    && (s.hasValidMission ==> Feasible(c, s.mission))
    && (Count(s.control, All) > 0 ==> s.hasValidMission)
  }

  lemma InactiveCount(c: Setup, s: State)
    requires Placed(c, s) && !s.active
    ensures Count(s.control, All) == 0
  {
    hide Count, HandlersOk;
  }

  lemma MissionKnown(c: Setup, s: State, event: Event, answer: Answer)
    requires Placed(c, s) && Known(c, s) && (event.SetMission? || event.ResetMission?)
    ensures Known(c, ExternalStep(c, s, event, answer))
  {
    hide Count, ClosuresCoherent, StackCoherent, Feasible, Checksum, LoadedState, OnActivate, OnDeactivate, FinishMode,
      FireTimer, UpdateSetpointStep, StartAbort;
    match event
    case SetMission(mission) =>
      SetMissionControl(c, s, mission);
      if !s.active {
        InactiveCount(c, s);
      }
    case ResetMission =>
      if !s.active {
        InactiveCount(c, s);
      }
  }

  /** Without a valid mission an activation aborts, and nothing continues. */
  lemma ActivateKnown(c: Setup, s: State)
    requires Placed(c, s) && s.control.stack == [] && !s.active
    ensures Count(OnActivate(c, s).control, All) > 0 ==> s.hasValidMission
  {
    hide Count, ClosuresCoherent, StackCoherent, StartAbort, Leads;
    InactiveCount(c, s);
    if !IsReady(s) {
      var t := s.(active := true, options := s.mission.defaults, itemState := Other, activeMode := c.ownMode);
      StartAbortLeads(c, t, All, "noValidMission", 0);
      LeadsOn(t.control, StartAbort(t, "noValidMission").control, All, 0);
    }
  }

  lemma EventKnown(c: Setup, s: State, event: Event, answer: Answer)
    requires Placed(c, s) && Known(c, s) && s.control.stack == [] && !s.crashed
    ensures Known(c, Step(c, s, External(event, answer)))
  {
    hide Step, ExternalStep, Count, ClosuresCoherent, StackCoherent, Feasible, OnActivate;
    var l := External(event, answer);
    EventStep(c, s, event, answer);
    if event.SetMission? || event.ResetMission? {
      MissionKnown(c, s, event, answer);
    } else {
      StepIdentity(c, s, l);
      if event.Activate? && !s.active {
        ActivateKnown(c, s);
        Activates(c, s, answer);
      } else {
        StepCounts(c, s, l, All);
      }
    }
  }

  lemma Activates(c: Setup, s: State, answer: Answer)
    requires !s.active
    ensures ExternalStep(c, s, Activate, answer) == OnActivate(c, s)
  {
    hide OnActivate, OnDeactivate, FinishMode, FireTimer, UpdateSetpointStep, StartAbort, SetMissionStep;
  }

  lemma StepKnown(c: Setup, s: State, l: Label)
    requires Placed(c, s) && Known(c, s)
    ensures Known(c, Step(c, s, l))
  {
    hide Step, Count, ClosuresCoherent, StackCoherent, Feasible;
    if s.crashed {
      CrashedStep(c, s, l);
    } else if s.control.stack == [] && l.External? {
      EventKnown(c, s, l.event, l.answer);
    } else if l.External? {
      UnfitStep(c, s, l);
    } else {
      StepIdentity(c, s, l);
      StepCounts(c, s, l, All);
    }
  }

  lemma InitialKnown(c: Setup, file: Option<Json>)
    ensures Known(c, Initial(file))
  {
    hide Count;
    InitialCounts(All);
  }

  lemma {:induction false} KnownAlways(c: Setup, file: Option<Json>, ls: seq<Label>)
    ensures Known(c, Steps(c, Initial(file), ls))
  {
    hide Step, Placed, Known, Initial;
    if ls == [] {
      InitialKnown(c, file);
    } else {
      IndexSafety(c, file, ls[..|ls| - 1]);
      KnownAlways(c, file, ls[..|ls| - 1]);
      StepKnown(c, Steps(c, Initial(file), ls[..|ls| - 1]), ls[|ls| - 1]);
    }
  }

  // ---- The resumption that is waited for ----

  /** The resume action is about to run, and its completion is the live continuation of the mission. */
  predicate ResumesLive(c: Setup, s: State) {
    !s.crashed &&
    match s.control.Top()
    case Perform(name, arguments, done) =>
      && name in c.actions && c.actions[name].OnResume?
      && arguments.At("action") == Success(Str("resume")) && Tok(All, s.control.handler, done) > 0
    case _ => false
  }

  lemma KnownTakeoff(c: Setup, m: Mission, index: nat)
    requires Feasible(c, m) && index <= |m.items|
    ensures !LacksTakeoff(c, m.items, index)
  {
  }

  /** The resume action neither fails nor aborts, and it hands on exactly the continuation that it was given: of each
      kind there are as many after it as before. */
  ghost predicate Conserves(s: State, t: State) {
    && s.active && !t.crashed && t.active && t.control.handler == s.control.handler
    && forall w: Weight :: Count(t.control, w) == Count(s.control, w)
  }

  lemma LiveStep(c: Setup, s: State, t: State, arguments: Json, done: Closure, name: string)
    requires Placed(c, s) && Known(c, s) && ResumesLive(c, s) && s.control.Top() == Perform(name, arguments, done)
    requires t == ResumeStep(c, Popped(s), arguments, done)
    ensures Conserves(s, t)
  {
    hide Count, HandlersOk, Feasible, LacksTakeoff, ResumeStep, Tok, ReturnsHome, CurrentSupportsResumeFromLanded,
      StartAbort;
    var u := Popped(s);
    PopCounts(s.control, All);
    ResumeReadsInBounds(c, s, name, arguments, done);
    var index := u.persistent.currentIndex.GetOr(0);
    if u.mission.IndexValid(index) {
      KnownTakeoff(c, s.mission, index);
    }
    ResumeFailsIff(c, u, arguments, done);
    assert t.active == u.active && t.control.handler == u.control.handler by {
      hide ResumeStep, Feasible, CurrentSupportsResumeFromLanded, ReturnsHome, RunActionStep, Last, KeepsStore,
        KeepsSegment, SamePlace, SameButIndex, StartsNoSettings, StartsOnlyItem;
      ResumptionGoes(c, u, arguments, done);
      var index := u.persistent.currentIndex.GetOr(0);
      if i: nat :| i < |u.mission.items| && IsTakeoff(u.mission.items[i]) {
        TakeoffKnown(c, u.mission, i);
      }
    }
    forall w: Weight
      ensures Count(t.control, w) == Count(s.control, w)
    {
      PopCounts(s.control, w);
      ResumeConserves(c, u, w, arguments, done);
    }
  }

  lemma ResumeIs(c: Setup, s: State, name: string, arguments: Json, done: Closure, answer: Answer)
    requires name in c.actions && c.actions[name].OnResume?
    ensures PerformStep(c, s, name, arguments, done, answer) == ResumeStep(c, s, arguments, done)
  {
    hide ResumeStep, RunModeStep, TakeoffStep, HoldStep, ChangeSettingsStep, RunCustomStep, KeepsSegment, KeepsStore,
      SameButIndex, SamePlace, StartsNoSettings;
  }

  /** Over every run: the resume action that the mission waits for conserves the continuation. */
  lemma LiveResumptionIsKept(c: Setup, file: Option<Json>, ls: seq<Label>, answer: Answer)
    requires ResumesLive(c, Steps(c, Initial(file), ls))
    ensures Conserves(Steps(c, Initial(file), ls), Step(c, Steps(c, Initial(file), ls), Internal(answer)))
  {
    hide Step, Steps, Initial, Placed, Known, Tok, PerformStep, ResumeStep, Conserves, Json.At;
    var s := Steps(c, Initial(file), ls);
    IndexSafety(c, file, ls);
    KnownAlways(c, file, ls);
    match s.control.Top()
    case Perform(name, arguments, done) =>
      PerformFrame(c, s, name, arguments, done, answer);
      ResumeIs(c, Popped(s), name, arguments, done, answer);
      LiveStep(c, s, ResumeStep(c, Popped(s), arguments, done), arguments, done, name);
  }

  lemma TakeoffKnown(c: Setup, m: Mission, i: nat)
    requires Feasible(c, m) && i < |m.items| && IsTakeoff(m.items[i])
    ensures "takeoff" in c.actions
  {
  }
}
