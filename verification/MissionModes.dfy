/** Which mode the vehicle is asked for: by the actions, by the items, by the failure action and at the end of a
    mission; and that nothing else asks. */
module MissionModes {
  import opened Wrappers
  import opened JsonValues
  import opened MissionTypes
  import opened MissionSteps
  import opened MissionEffects

  // ---- What the executor's own frames ask for ----

  /** A number may be given under the key, and if so it is one (or a boolean). */
  predicate TakesNumber(arguments: Json, key: string) {
    match arguments
    case Obj(members) =>
      key in members ==> members[key].Int? || members[key].Real? || members[key].Bool?
    case _ => true
  }

  /** What the default actions ask for, by the navigation states of the flight controller: 17 takes off, 5 returns, 18
      lands, 4 holds, and the failure action returns, and descends if that fails. */
  function ActionAsks(c: Setup, s: State, name: string, arguments: Json, done: Closure): Option<Asking> {
    if name !in c.actions then None
    else match c.actions[name]
      case Takeoff => if TakesNumber(arguments, "altitude") then Some(Asking(17, done, None, [])) else None
      case Rtl => Some(Asking(5, done, None, []))
      case Land => Some(Asking(18, done, None, []))
      case Hold => if TakesNumber(arguments, "duration") then Some(Asking(4, Nop, None, [ArmTimer(done)])) else None
      case OnFailure => Some(Asking(5, done, Some(TryDescend(s.control.handler, done)), []))
      case _ => None
  }

  /** A mission without an index, or past its end in the executor's own mode, holds. */
  function ItemAsks(c: Setup, s: State): Option<Asking> {
    match s.persistent.currentIndex
    case None => Some(Asking(4, Nop, None, []))
    case Some(i) =>
      if 0 <= i < |s.mission.items| || s.activeMode != c.ownMode then None else Some(Asking(4, Nop, None, []))
  }

  /** A default action asks for its mode, while the executor is active. */
  lemma ActionAsksFor(c: Setup, s: State, answer: Answer, name: string, arguments: Json, done: Closure, a: Asking)
    requires !s.crashed && s.control.Top() == Perform(name, arguments, done)
    requires ActionAsks(c, s, name, arguments, done) == Some(a)
    ensures Step(c, s, Internal(answer)) == if s.active then Asked(Goes(s, []), a, answer) else Goes(s, a.next)
  {
    hide Step, PerformStep, RunModeStep, Asked, ActionAsks, SamePlace, SameButIndex, KeepsStore, KeepsSegment,
      StartsNoSettings;
    var u := Popped(s);
    PerformFrame(c, s, name, arguments, done, answer);
    assert ActionAsks(c, u, name, arguments, done) == Some(a) by {
      SameAsking(c, s, u, name, arguments, done);
    }
    PerformAsks(c, u, name, arguments, done, answer, a);
    GoesPopped(s);
    if s.active {
      RequestAsks(u, a, answer);
    } else {
      InactiveAsks(Goes(s, a.next), a.mode, a.done, a.onFailure, answer);
    }
  }

  lemma SameAsking(c: Setup, s: State, u: State, name: string, arguments: Json, done: Closure)
    requires u.control.handler == s.control.handler
    ensures ActionAsks(c, u, name, arguments, done) == ActionAsks(c, s, name, arguments, done)
  {
  }

  lemma PerformAsks(c: Setup, s: State, name: string, arguments: Json, done: Closure, answer: Answer, a: Asking)
    requires ActionAsks(c, s, name, arguments, done) == Some(a)
    ensures PerformStep(c, s, name, arguments, done, answer)
         == RunModeStep(s.(control := s.control.(stack := s.control.stack + a.next)), a.mode, a.done,
           a.onFailure, answer)
  {
    hide RunModeStep, TakeoffStep, HoldStep, SamePlace, SameButIndex, KeepsStore, KeepsSegment, StartsNoSettings;
    assert s.(control := s.control.(stack := s.control.stack + [])) == s;
    NumberIsTaken(s, arguments, done, answer);
  }

  lemma NumberIsTaken(s: State, arguments: Json, done: Closure, answer: Answer)
    ensures TakesNumber(arguments, "altitude") ==>
      TakeoffStep(s, arguments, done, answer) == RunModeStep(s, 17, done, None, answer)
    ensures TakesNumber(arguments, "duration") ==>
      HoldStep(s, arguments, done, answer)
      == RunModeStep(s.(control := s.control.(stack := s.control.stack + [ArmTimer(done)])), 4, Nop, None, answer)
  {
    hide RunModeStep, SamePlace, KeepsStore, KeepsSegment, StartsNoSettings;
  }

  /** An altitude or a duration that is no number throws. */
  lemma ActionRefuses(c: Setup, s: State, answer: Answer, name: string, arguments: Json, done: Closure)
    requires !s.crashed && s.control.Top() == Perform(name, arguments, done)
    requires name in c.actions && match c.actions[name]
               case Takeoff => !TakesNumber(arguments, "altitude")
               case Hold => !TakesNumber(arguments, "duration")
               case _ => false
    ensures Step(c, s, Internal(answer)) == Goes(s, []).(crashed := true)
  {
    hide Step, RunModeStep, SamePlace, SameButIndex, KeepsStore, KeepsSegment, StartsNoSettings;
    PerformFrame(c, s, name, arguments, done, answer);
    GoesPopped(s);
  }

  /** The start of an item past the end of the mission, or without an index: in the executor's own mode the vehicle is
      told to hold; in any other mode it is left alone, as it has returned or landed. */
  lemma EndOfMission(c: Setup, s: State, resuming: bool, h: nat, answer: Answer)
    requires !s.crashed && s.control.Top() == StartItem(resuming, h)
    requires match s.persistent.currentIndex case None => true case Some(i) => !(0 <= i < |s.mission.items|)
    ensures Step(c, s, Internal(answer))
         == match ItemAsks(c, s)
            case Some(a) => if s.active then Asked(Goes(s, []), a, answer) else Goes(s, [])
            case None => Goes(s, [])
  {
    hide Step, RunModeStep, Asked, SamePlace, SameButIndex, KeepsStore, KeepsSegment, StartsNoSettings, StartsOnlyItem;
    var u := Popped(s);
    StartFrame(c, s, resuming, h, answer);
    GoesPopped(s);
    assert u.control.stack + [] == u.control.stack;
    if s.active {
      RequestAsks(u, Asking(4, Nop, None, []), answer);
    } else {
      InactiveAsks(u, 4, Nop, None, answer);
    }
  }

  /** A mission that is over, said in what can be observed: nothing changes in a mode that is not the executor's own;
      in its own mode the vehicle is to hold if it accepts. */
  lemma MissionIsOver(c: Setup, s: State, resuming: bool, h: nat, answer: Answer, i: int)
    requires !s.crashed && s.active && s.control.Top() == StartItem(resuming, h)
    requires s.persistent.currentIndex == Some(i) && i >= |s.mission.items|
    ensures var t := Step(c, s, Internal(answer));
      && (s.activeMode != c.ownMode ==>
            t.activeMode == s.activeMode && t.control == s.control.Popped() && t.itemState == s.itemState)
      && (s.activeMode == c.ownMode && answer == Accepted ==>
            t.activeMode == 4 && t.control.scheduled == Some(ModeCallback(Nop, None)) && t.itemState == Other &&
            t.control.stack == s.control.Popped().stack)
  {
    hide Step, Aborting;
    EndOfMission(c, s, resuming, h, answer);
    assert Below(s) + [] == Below(s);
  }

  // ---- The failure action ----

  /** The way down if the return is refused or fails, under a valid handler. */
  lemma FallbackDescends(c: Setup, s: State, h: nat, done: Closure, answer: Answer)
    requires !s.crashed && s.control.Top() == Invoke(TryDescend(h, done))
    ensures Step(c, s, Internal(answer))
         == if s.control.IsValid(h) && s.active then Asked(Goes(s, []), Asking(12, done, Some(Nop), []), answer)
            else Goes(s, [])
  {
    hide Step, RunModeStep, Asked, SamePlace, SameButIndex, KeepsStore, KeepsSegment, StartsNoSettings;
    var u := Popped(s);
    InvokeFrame(c, s, TryDescend(h, done), answer);
    GoesPopped(s);
    assert u.control.stack + [] == u.control.stack;
    if s.active {
      RequestAsks(u, Asking(12, done, Some(Nop), []), answer);
    } else {
      InactiveAsks(u, 12, done, Some(Nop), answer);
    }
  }
}
