/** What becomes of the whole state when a frame is done, the mission is aborted, or the vehicle is asked for a mode:
    the reference that the steps of the executor are compared with. */
module MissionEffects {
  import opened Wrappers
  import opened Missions
  import opened MissionTypes
  import opened MissionSteps

  /** The innermost frame is done, and these take its place. */
  function Goes(s: State, frames: seq<Frame>): State {
    s.(control := s.control.(stack := Below(s) + frames))
  }

  /** The frames that wait for the innermost one. */
  function Below(s: State): seq<Frame> {
    if s.control.stack == [] then [] else s.control.stack[..|s.control.stack| - 1]
  }

  lemma GoesPopped(s: State)
    requires s.control.stack != []
    ensures Popped(s) == Goes(s, [])
  {
    hide SamePlace;
  }

  lemma GoesPushed(s: State, f: Frame)
    requires s.control.stack != []
    ensures Popped(s).Push(f) == Goes(s, [f])
  {
    hide SamePlace;
  }

  /** The token of the settings is let go; its entry goes with it while the executor is active. */
  function Released(s: State): State {
    match s.settingsKeeper
    case None => s
    case Some(id) =>
      var p := s.persistent;
      s.(settingsKeeper := None,
         persistent := if s.active then p.(continuousActions := p.continuousActions - {id}) else p)
  }

  lemma ReleasedAside(s: State, k: Control)
    ensures Released(s.(control := k)) == Released(s).(control := k)
  {
  }

  /** An abort: another handler takes over, the default actions let go of what they hold, and the failure action is due
      after the client's own actions are told; at recursion level 11 only the handler changes. */
  function Aborting(s: State, reason: string): State {
    var k := s.control;
    var u := s.(control := k.(valid := k.valid - {k.handler} + {k.handler + 1}, handler := k.handler + 1));
    if k.abortLevel >= 11 then u
    else Released(u).(control := u.control.(holdTimer := None, stack := k.stack + [AbortMain(reason), CleanupHooks]))
  }

  lemma DropReleases(s: State)
    ensures DropSettingsKeeper(s) == Released(s)
    ensures DeactivateDefaults(s) == Released(s).(control := s.control.(holdTimer := None))
  {
    hide SamePlace, KeepsStore, StoreOf;
  }

  lemma AbortAborts(s: State, reason: string)
    ensures StartAbort(s, reason) == Aborting(s, reason)
  {
    hide SamePlace, KeepsStore, KeepsSegment, StartsNoSettings, StoreOf, DeactivateDefaults, Released;
    var k := s.control;
    var u := s.(control := k.(valid := k.valid - {k.handler} + {k.handler + 1}, handler := k.handler + 1));
    assert InvalidateHandler(s) == u;
    DropReleases(u);
    assert k.stack + [AbortMain(reason)] + [CleanupHooks] == k.stack + [AbortMain(reason), CleanupHooks];
  }

  /** A request to the vehicle: the mode, the callbacks of its end, and what is to be done once the request is sent. */
  datatype Asking = Asking(mode: nat, done: Closure, onFailure: Option<Closure>, next: seq<Frame>)

  /** An accepted request is pending. One that is refused leaves no mode; it takes the previous one out unless the
      vehicle was not armed. Its failure is called, or aborts the mission. */
  function Asked(s: State, a: Asking, answer: Answer): State {
    var k := s.control;
    var sent := s.(itemState := Other, control := k.(stack := k.stack + a.next));
    if answer == Accepted then
      sent.(activeMode := a.mode, control := sent.control.(scheduled := Some(ModeCallback(a.done, a.onFailure))))
    else
      var u := sent.(activeMode := 0,
                     control := sent.control.(scheduled := if answer == NotArmed then k.scheduled else None));
      match a.onFailure
      case Some(callback) => u.(control := u.control.(stack := u.control.stack + [Invoke(callback)]))
      case None => Aborting(u, "modeFailure")
  }

  lemma RequestAsks(s: State, a: Asking, answer: Answer)
    requires s.active
    ensures var u := s.(control := s.control.(stack := s.control.stack + a.next));
      RunModeStep(u, a.mode, a.done, a.onFailure, answer) == Asked(s, a, answer)
  {
    hide SamePlace, KeepsStore, KeepsSegment, StartsNoSettings, StartAbort, Aborting;
    var u := s.(control := s.control.(stack := s.control.stack + a.next));
    var cancelled := if answer.NotArmed? then s.control.scheduled else None;
    AbortAborts(u.(itemState := Other, activeMode := 0, control := u.control.(scheduled := cancelled)), "modeFailure");
  }

  /** The index that comes after the current one is reported, as progress or as the completion. */
  function WithIndex(s: State, index: int): State {
    s.(persistent := s.persistent.(currentIndex := Some(index)),
       reports := s.reports + if index >= |s.mission.items| then [Completed] else [Progress(index)])
  }

  /** A flight takes off: the vehicle is asked for the executor's own mode unless it is in it. */
  function Flies(c: Setup, s: State, flight: Flight, answer: Answer): State {
    var t := s.(control := s.control.(flight := flight));
    if s.activeMode == c.ownMode then t.(itemState := Trajectory)
    else Asked(t, Asking(c.ownMode, Nop, None, [EnterTrajectory]), answer)
  }

  /** The flight starts at its first index, with the options in force. */
  lemma TrajectoryFlies(c: Setup, s: State, items: seq<MissionItem>, start: int, end: int, report: IndexCallback,
                        stop: bool, answer: Answer)
    requires s.active
    ensures RunTrajectoryStep(c, s, items, start, end, report, stop, answer)
         == Flies(c, s, Flight(items, s.options, end, stop, report, Some(start)), answer)
  {
    hide SamePlace, KeepsStore, KeepsSegment, StartsNoSettings, RunModeStep, Asked;
    var t := s.(control := s.control.(flight := Flight(items, s.options, end, stop, report, Some(start))));
    RequestAsks(t, Asking(c.ownMode, Nop, None, [EnterTrajectory]), answer);
  }

  // ---- While inactive nothing is asked for ----

  lemma InactiveAsks(s: State, mode: nat, done: Closure, onFailure: Option<Closure>, answer: Answer)
    requires !s.active
    ensures RunModeStep(s, mode, done, onFailure, answer) == s
  {
  }

  lemma InactiveFlies(c: Setup, s: State, items: seq<MissionItem>, start: int, end: int, report: IndexCallback,
                      stop: bool, answer: Answer)
    requires !s.active
    ensures RunTrajectoryStep(c, s, items, start, end, report, stop, answer) == s
  {
    hide RunModeStep;
  }
}
