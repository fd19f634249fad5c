/** The default resume action: what it looks for in the mission, and where its completion goes. */
module MissionResume {
  import opened Wrappers
  import opened JsonValues
  import opened Missions
  import opened MissionTypes
  import opened MissionSteps
  import opened MissionEffects
  import opened MissionTokens

  // ---- Searching the mission ----

  predicate IsTakeoff(item: MissionItem) {
    item.ActionItem? && item.name == "takeoff"
  }

  predicate IsWaypoint(item: MissionItem) {
    item.NavigationItem?
  }

  /** The greatest index below `limit` of an item with the property. */
  ghost predicate Last(items: seq<MissionItem>, limit: int, p: MissionItem -> bool, r: Option<nat>)
    requires limit <= |items|
  {
    match r
    case None => forall i: nat :: i < limit ==> !p(items[i])
    case Some(i) => i < limit && p(items[i]) && forall j: nat :: i < j < limit ==> !p(items[j])
  }

  lemma {:induction false} TakeoffIsLast(items: seq<MissionItem>, limit: int)
    requires limit <= |items|
    ensures Last(items, limit, IsTakeoff, TakeoffBefore(items, limit))
    decreases limit
  {
    if limit > 0 && !IsTakeoff(items[limit - 1]) {
      TakeoffIsLast(items, limit - 1);
    }
  }

  lemma {:induction false} WaypointIsLast(items: seq<MissionItem>, limit: int)
    requires limit <= |items|
    ensures Last(items, limit, IsWaypoint, WaypointBefore(items, limit))
    decreases limit
  {
    if limit > 0 && !items[limit - 1].NavigationItem? {
      WaypointIsLast(items, limit - 1);
    }
  }

  /** The loop runs forward and keeps the latest match. */
  method FindTakeoff(items: seq<MissionItem>, current: int) returns (r: Option<nat>)
    ensures r == TakeoffBefore(items, if current < |items| then current else |items|)
    ensures Last(items, if current < |items| then current else |items|, IsTakeoff, r)
  {
    r := None;
    var i := 0;
    while i < current && i < |items|
      invariant 0 <= i <= |items| && (i <= current || i == 0)
      invariant r == TakeoffBefore(items, i)
    {
      if items[i].ActionItem? {
        if items[i].name == "takeoff" {
          r := Some(i);
        }
      }
      i := i + 1;
    }
    if current < 0 {
      TakeoffBelowZero(items, current);
    }
    TakeoffIsLast(items, if current < |items| then current else |items|);
  }

  lemma TakeoffBelowZero(items: seq<MissionItem>, limit: int)
    requires limit <= 0
    ensures TakeoffBefore(items, limit) == None
  {
  }

  /** The loop runs backward and stops at the first match. */
  method FindWaypoint(items: seq<MissionItem>, current: int) returns (r: Option<nat>)
    ensures r == WaypointBefore(items, if current < |items| then current else |items|)
    ensures Last(items, if current < |items| then current else |items|, IsWaypoint, r)
  {
    r := None;
    var index := (if current < |items| then current else |items|) - 1;
    while index >= 0 && r.None?
      invariant index < |items|
      invariant (if r.Some? then r else WaypointBefore(items, index + 1))
             == WaypointBefore(items, if current < |items| then current else |items|)
    {
      if items[index].NavigationItem? {
        r := Some(index);
      }
      index := index - 1;
    }
    WaypointIsLast(items, if current < |items| then current else |items|);
  }

  // ---- Where the completion goes ----

  /** The index after an interrupted return or landing. */
  function Skipped(m: Mission, index: int): int
    requires m.IndexValid(index)
  {
    (index + 1) % |m.items|
  }

  lemma SkipSkips(s: State, index: int)
    requires s.mission.IndexValid(index)
    ensures SkipItem(s, index) == SetCurrentIndex(s, Skipped(s.mission, index))
  {
    hide SetCurrentIndex;
  }

  /** What an unexpected landing leads to. */
  lemma UnexpectedLanding(c: Setup, s: State, done: Closure, index: nat)
    requires s.mission.IndexValid(index)
    ensures var t := ResumeFromUnexpectedLanding(c, s, done, index);
      if ReturnsHome(s.mission.items[index]) then
        t == SetCurrentIndex(s, Skipped(s.mission, index)).Push(Invoke(done))
      else if exists i: nat :: i < index && IsTakeoff(s.mission.items[i]) then
        exists i: nat ::
          && Last(s.mission.items, index, IsTakeoff, Some(i))
          && t == RunActionStep(c, s, "takeoff", s.mission.items[i].arguments,
             AfterTakeoff(s.control.handler, done, index))
      else t == s.Push(Invoke(done))
  {
    hide RunActionStep, ReturnsHome, SkipItem, SetCurrentIndex, Skipped, KeepsStore, KeepsSegment, StartsNoSettings;
    SkipSkips(s, index);
    TakeoffIsLast(s.mission.items, index);
    var found := TakeoffBefore(s.mission.items, index);
    if found.Some? {
      assert IsTakeoff(s.mission.items[found.value]);
      assert Last(s.mission.items, index, IsTakeoff, Some(found.value));
    }
  }

  /** Where the resume action leads from any index. */
  lemma ResumptionGoes(c: Setup, s: State, arguments: Json, done: Closure)
    requires arguments.At("action") == Success(Str("resume"))
    ensures var t, index := ResumeStep(c, s, arguments, done), s.persistent.currentIndex.GetOr(0);
      if index == 0 || !s.landed then t == s.Push(Invoke(done))
      else if !s.mission.IndexValid(index) then t == s.(crashed := true)
      else if CurrentSupportsResumeFromLanded(c, s, index) then t == s.Push(Invoke(done))
      else if ReturnsHome(s.mission.items[index]) then
        t == SetCurrentIndex(s, Skipped(s.mission, index)).Push(Invoke(done))
      else if exists i: nat :: i < index && IsTakeoff(s.mission.items[i]) then
        exists i: nat ::
          && Last(s.mission.items, index, IsTakeoff, Some(i))
          && t == RunActionStep(c, s, "takeoff", s.mission.items[i].arguments,
             AfterTakeoff(s.control.handler, done, index))
      else t == s.Push(Invoke(done))
  {
    hide RunActionStep, ReturnsHome, CurrentSupportsResumeFromLanded, ResumeFromUnexpectedLanding, Last, Skipped,
      SetCurrentIndex, KeepsStore, KeepsSegment, StartsNoSettings, SamePlace;
    var index := s.persistent.currentIndex.GetOr(0);
    if s.mission.IndexValid(index) {
      UnexpectedLanding(c, s, done, index);
    }
  }

  /** An action that resumes by itself after a landing. */
  predicate ResumesLanded(c: Setup, item: MissionItem) {
    item.ActionItem? && item.name in c.actions &&
    match c.actions[item.name] case Custom(_, resumesFromLanded) => resumesFromLanded case _ => false
  }

  predicate IsReturn(item: MissionItem) {
    item.ActionItem? && (item.name == "rtl" || item.name == "land")
  }

  /** The takeoff that is run again, to be completed by the flight back to the mission. */
  ghost predicate TakesOffAgain(c: Setup, s: State, t: State, index: nat, i: nat, done: Closure)
    requires index <= |s.mission.items|
  {
    && Last(s.mission.items, index, IsTakeoff, Some(i))
    && var arguments, after := s.mission.items[i].arguments, AfterTakeoff(s.control.handler, done, index);
       t == if "takeoff" in c.actions then Goes(s, [Perform("takeoff", arguments, after)]).(itemState := Other)
            else Aborting(Goes(s, []).(itemState := Other), "actionDoesNotExist")
  }

  /** Where a resumption leads from any index: the completion is called at once, after the takeoff run that is closest
      below the current item, or at the item after an interrupted return or landing. */
  lemma ResumeContinuation(c: Setup, s: State, name: string, arguments: Json, done: Closure, answer: Answer)
    requires !s.crashed && s.active && s.control.Top() == Perform(name, arguments, done)
    requires name in c.actions && c.actions[name].OnResume?
    requires arguments.Obj? && "action" in arguments.members && arguments.members["action"] == Str("resume")
    ensures var t, called, items := Step(c, s, Internal(answer)), Goes(s, [Invoke(done)]), s.mission.items;
      match s.persistent.currentIndex
      case None => t == called
      case Some(index) =>
        if index == 0 || !s.landed then t == called
        else if !(0 <= index < |items|) then t == Goes(s, []).(crashed := true)
        else if ResumesLanded(c, items[index]) then t == called
        else if IsReturn(items[index]) then t == WithIndex(called, (index + 1) % |items|)
        else if exists i: nat :: i < index && IsTakeoff(items[i]) then
          exists i: nat :: TakesOffAgain(c, s, t, index, i, done)
        else t == called
  {
    hide Step, RunActionStep, ReturnsHome, CurrentSupportsResumeFromLanded, ResumeStep, Skipped, Aborting,
      SetCurrentIndex, KeepsStore, KeepsSegment, StartsNoSettings, SamePlace, SameButIndex;
    PerformFrame(c, s, name, arguments, done, answer);
    GoesPopped(s);
    GoesPushed(s, Invoke(done));
    var u := Goes(s, []);
    ResumptionGoes(c, u, arguments, done);
    var index := s.persistent.currentIndex.GetOr(0);
    if s.mission.IndexValid(index) {
      SameResumption(c, u, done, index);
      forall i: nat | i < index && IsTakeoff(s.mission.items[i]) && Last(s.mission.items, index, IsTakeoff, Some(i))
        ensures TakesOffAgain(c, s, RunActionStep(c, u, "takeoff", s.mission.items[i].arguments,
                                                  AfterTakeoff(s.control.handler, done, index)), index, i, done)
      {
        TakeoffRuns(c, s, s.mission.items[i].arguments, AfterTakeoff(s.control.handler, done, index));
      }
    }
  }

  lemma SameResumption(c: Setup, s: State, done: Closure, index: nat)
    requires s.mission.IndexValid(index)
    ensures CurrentSupportsResumeFromLanded(c, s, index) <==> ResumesLanded(c, s.mission.items[index])
    ensures ReturnsHome(s.mission.items[index]) <==> IsReturn(s.mission.items[index])
    ensures SetCurrentIndex(s, Skipped(s.mission, index)).Push(Invoke(done))
         == WithIndex(s.Push(Invoke(done)), (index + 1) % |s.mission.items|)
  {
  }

  lemma TakeoffRuns(c: Setup, s: State, arguments: Json, after: Closure)
    requires s.active && s.control.stack != []
    ensures RunActionStep(c, Goes(s, []), "takeoff", arguments, after)
         == if "takeoff" in c.actions then Goes(s, [Perform("takeoff", arguments, after)]).(itemState := Other)
            else Aborting(Goes(s, []).(itemState := Other), "actionDoesNotExist")
  {
    hide StartAbort, Aborting, KeepsStore, KeepsSegment, StartsNoSettings, SamePlace;
    AbortAborts(Goes(s, []).(itemState := Other), "actionDoesNotExist");
  }

  lemma SingleWaypoint(c: Setup, s: State, h: nat, item: MissionItem, done: Closure, answer: Answer)
    requires s.active && item.NavigationItem?
    ensures HandlerTrajectory(c, s, h, [item], done, false, answer)
         == if !s.control.IsValid(h) then s
            else Flies(c, s, Flight([item], s.options, 0, false, CustomStep(done, 0), Some(0)), answer)
  {
    hide RunTrajectoryStep, Flies, KeepsStore, KeepsSegment, StartsNoSettings, SamePlace, StartAbort;
    TrajectoryFlies(c, s, [item], 0, 0, CustomStep(done, 0), false, answer);
  }

  /** After the takeoff the vehicle flies to the closest waypoint below the item, if there is one, and completes; if the
      handler is not valid any more it stays where it is. */
  lemma TakeoffContinuation(c: Setup, s: State, h: nat, done: Closure, at: int, answer: Answer)
    requires !s.crashed && s.active && s.control.Top() == Invoke(AfterTakeoff(h, done, at))
    ensures var t, items := Step(c, s, Internal(answer)), s.mission.items;
      var limit := if at < |items| then at else |items|;
      if exists i: nat :: i < limit && IsWaypoint(items[i]) then
        exists i: nat ::
          && Last(items, limit, IsWaypoint, Some(i))
          && t == if !s.control.IsValid(h) then Goes(s, []) else FliesBack(c, s, items[i].waypoint, done, answer)
      else t == Goes(s, [Invoke(done)])
  {
    hide Step, RunTrajectoryStep, HandlerTrajectory, Flies, KeepsSegment, KeepsStore, SamePlace, SameButIndex,
      StartsNoSettings;
    InvokeFrame(c, s, AfterTakeoff(h, done, at), answer);
    GoesPopped(s);
    GoesPushed(s, Invoke(done));
    var items := s.mission.items;
    var limit := if at < |items| then at else |items|;
    WaypointIsLast(items, limit);
    var found := WaypointBefore(items, limit);
    if found.Some? {
      assert IsWaypoint(items[found.value]);
      SingleWaypoint(c, Goes(s, []), h, NavigationItem("", items[found.value].waypoint), done, answer);
      assert Last(items, limit, IsWaypoint, Some(found.value));
    }
  }

  /** The flight to one waypoint, which completes at it without a stop. */
  function FliesBack(c: Setup, s: State, w: Waypoint, done: Closure, answer: Answer): State {
    Flies(c, Goes(s, []), Flight([NavigationItem("", w)], s.options, 0, false, CustomStep(done, 0), Some(0)), answer)
  }

  lemma ActionRuns(c: Setup, s: State, name: string, arguments: Json, done: Closure)
    requires s.active && name in c.actions
    ensures RunActionStep(c, s, name, arguments, done).control == s.control.Push(Perform(name, arguments, done))
  {
    hide StartAbort;
  }

  /** The takeoff that the resumption needs is not an action that the executor knows. */
  predicate LacksTakeoff(c: Setup, items: seq<MissionItem>, index: nat)
    requires index <= |items|
  {
    TakeoffBefore(items, index).Some? && "takeoff" !in c.actions
  }

  lemma LandingConserves(c: Setup, s: State, w: Weight, done: Closure, index: nat)
    requires s.active && index < |s.mission.items|
    requires ReturnsHome(s.mission.items[index]) || !LacksTakeoff(c, s.mission.items, index)
    ensures Count(ResumeFromUnexpectedLanding(c, s, done, index).control, w) == Count(s.control, w) +
      Tok(w, s.control.handler, done)
  {
    hide Count, ReturnsHome, TakeoffBefore, RunActionStep, SkipItem, SetCurrentIndex, KeepsStore, KeepsSegment,
      StartsNoSettings, SamePlace;
    PushCounts(s.control, w, Invoke(done));
    var found := TakeoffBefore(s.mission.items, index);
    if found.Some? && !ReturnsHome(s.mission.items[index]) {
      var arguments, after := s.mission.items[found.value].arguments, AfterTakeoff(s.control.handler, done, index);
      ActionRuns(c, s, "takeoff", arguments, after);
      PushCounts(s.control, w, Perform("takeoff", arguments, after));
    }
  }

  lemma LandingAborts(c: Setup, s: State, done: Closure, index: nat)
    requires s.active && index < |s.mission.items|
    requires !ReturnsHome(s.mission.items[index]) && LacksTakeoff(c, s.mission.items, index)
    ensures ResumeFromUnexpectedLanding(c, s, done, index) == StartAbort(s.(itemState := Other), "actionDoesNotExist")
  {
    hide StartAbort, ReturnsHome, TakeoffBefore;
  }

  /** What becomes of the completion: it is called or handed to one command, neither lost nor duplicated, unless the
      resumption reads past the end, or needs a takeoff that is not registered and aborts the mission instead. */
  lemma ResumeConserves(c: Setup, s: State, w: Weight, arguments: Json, done: Closure)
    requires s.active && arguments.At("action") == Success(Str("resume"))
    ensures var t, index := ResumeStep(c, s, arguments, done), s.persistent.currentIndex.GetOr(0);
      if index == 0 || !s.landed then Count(t.control, w) == Count(s.control, w) + Tok(w, s.control.handler, done)
      else if !s.mission.IndexValid(index) then t.crashed
      else if !CurrentSupportsResumeFromLanded(c, s, index) && !ReturnsHome(s.mission.items[index])
              && LacksTakeoff(c, s.mission.items, index) then
        t == StartAbort(s.(itemState := Other), "actionDoesNotExist")
      else Count(t.control, w) == Count(s.control, w) + Tok(w, s.control.handler, done)
  {
    hide Count, ResumeFromUnexpectedLanding, CurrentSupportsResumeFromLanded, Tok, StartAbort, ReturnsHome,
      LacksTakeoff, KeepsStore, SameButIndex, StartsNoSettings;
    PushCounts(s.control, w, Invoke(done));
    var index := s.persistent.currentIndex.GetOr(0);
    if index != 0 && s.mission.IndexValid(index) {
      if !ReturnsHome(s.mission.items[index]) && LacksTakeoff(c, s.mission.items, index) {
        LandingAborts(c, s, done, index);
      } else {
        LandingConserves(c, s, w, done, index);
      }
    }
  }
}
