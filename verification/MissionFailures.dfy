/** What an abort asks the vehicle for when the default failure action is registered: to return, and to descend if the
    return is refused or fails; if that is refused, too, nothing else. */
module MissionFailures {
  import opened Wrappers
  import opened JsonValues
  import opened MissionTypes
  import opened MissionSteps
  import opened MissionEffects
  import opened MissionModes
  import opened MissionFrames
  import opened MissionEvents
  import opened MissionCommands
  import opened MissionHandlers
  import MissionAbort

  predicate FailsByDefault(c: Setup) {
    "onFailure" in c.actions && c.actions["onFailure"] == OnFailure
  }

  /** A request that was accepted, or the absence of any mode. */
  predicate Pends(s: State, mode: nat, onFailure: Closure) {
    s.activeMode == mode && s.control.scheduled == Some(ModeCallback(Nop, Some(onFailure)))
  }

  /** No mode, and no request but one from before the abort, which the vehicle did not get to cancel. */
  predicate NonePends(before: State, s: State) {
    s.activeMode == 0 && (s.control.scheduled == None || s.control.scheduled == before.control.scheduled)
  }

  /** The return that fails under a valid handler is followed by the descent; under any other one by nothing. */
  lemma Descends(c: Setup, s: State, h: nat, answer: Answer)
    requires !s.crashed && s.active && s.control.Top() == Invoke(TryDescend(h, Nop))
    ensures var t := Step(c, s, Internal(answer));
      && !t.crashed && t.active
      && if !s.control.IsValid(h) then t == Goes(s, [])
         else if answer == Accepted then t.control.stack == Below(s) && Pends(t, 12, Nop)
         else t.control.stack == Below(s) + [Invoke(Nop)] && NonePends(s, t)
  {
    hide Step;
    FallbackDescends(c, s, h, Nop, answer);
    assert Below(s) + [] + [] == Below(s);
  }

  /** The return, from the failure action that an abort runs. */
  lemma Returns(c: Setup, s: State, reason: string, answer: Answer, first: Answer)
    requires FailsByDefault(c) && !s.crashed && s.active && s.control.Top() == AbortMain(reason)
    ensures var t, h := Step(c, Step(c, s, Internal(answer)), Internal(first)), s.control.handler;
      && !t.crashed && t.active && t.control.handler == h && t.control.valid == s.control.valid
      && if first == Accepted then t.control.stack == Below(s) + [AbortEnd] && Pends(t, 5, TryDescend(h, Nop))
         else t.control.stack == Below(s) + [AbortEnd, Invoke(TryDescend(h, Nop))] && NonePends(s, t)
  {
    hide Step, Goes, ActionAsks, FailureTold;
    var u := Step(c, s, Internal(answer));
    AbortRunsFailureAction(c, s, reason, answer);
    Entered(s, reason, u);
    var a := Asking(5, Nop, Some(TryDescend(s.control.handler, Nop)), []);
    ReturnIsAsked(c, u, FailureTold(s, reason), a);
    ActionAsksFor(c, u, first, "onFailure", FailureTold(s, reason), Nop, a);
    AskedOf(u, Below(s) + [AbortEnd], a, first);
  }

  lemma ReturnIsAsked(c: Setup, s: State, arguments: Json, a: Asking)
    requires FailsByDefault(c) && a == Asking(5, Nop, Some(TryDescend(s.control.handler, Nop)), [])
    ensures ActionAsks(c, s, "onFailure", arguments, Nop) == Some(a)
  {
  }

  lemma Entered(s: State, reason: string, u: State)
    requires var v := Goes(s, [AbortEnd, Perform("onFailure", FailureTold(s, reason), Nop)]);
      u == v.(itemState := Other, control := u.control) &&
      u.control == v.control.(abortLevel := u.control.abortLevel, failureRuns := u.control.failureRuns)
    ensures Below(u) == Below(s) + [AbortEnd] && u.control.Top() == Perform("onFailure", FailureTold(s, reason), Nop)
    ensures u.crashed == s.crashed && u.active == s.active && u.control.scheduled == s.control.scheduled
    ensures u.control.handler == s.control.handler && u.control.valid == s.control.valid
  {
    hide FailureTold;
    assert u.control.stack[..|u.control.stack| - 1] == Below(s) + [AbortEnd];
  }

  lemma AskedOf(s: State, below: seq<Frame>, a: Asking, answer: Answer)
    requires Below(s) == below && a.done == Nop && a.onFailure.Some? && a.next == []
    ensures var t := Asked(Goes(s, []), a, answer);
      && t.crashed == s.crashed && t.active == s.active
      && t.control.handler == s.control.handler && t.control.valid == s.control.valid
      && if answer == Accepted then t.control.stack == below && Pends(t, a.mode, a.onFailure.value)
         else t.control.stack == below + [Invoke(a.onFailure.value)] && NonePends(s, t)
  {
    assert below + [] + [] == below;
  }

  /** After nothing was accepted, control comes back without another request. */
  lemma GivesUp(c: Setup, s: State, below: seq<Frame>, answer: Answer)
    requires !s.crashed && s.control.stack == below + [AbortEnd, Invoke(Nop)]
    ensures var t := Step(c, Step(c, s, Internal(answer)), Internal(answer));
      t.control.stack == below && t.activeMode == s.activeMode && t.control.scheduled == s.control.scheduled
  {
    hide Step;
    var t := Step(c, s, Internal(answer));
    CodeIsCalled(c, s, 0, 0, answer);
    assert Below(s) + [] == below + [AbortEnd] && t.control.stack == below + [AbortEnd];
    CallReturns(c, t, answer);
    assert Below(t) + [] == below;
  }

  /** Over every run: whenever an abort comes to its failure action, that asks the vehicle to return. If this is refused
      the next request is to descend, and if that is refused, too, the abort ends without another one. */
  lemma FailureActionAsks(c: Setup, file: Option<Json>, ls: seq<Label>, reason: string, a: Answer, first: Answer,
                          second: Answer)
    requires FailsByDefault(c)
    requires var s := Steps(c, Initial(file), ls); !s.crashed && s.active && s.control.Top() == AbortMain(reason)
    ensures var s := Steps(c, Initial(file), ls);
      var t := Step(c, Step(c, s, Internal(a)), Internal(first));
      var u := Step(c, t, Internal(second));
      var v := Step(c, Step(c, u, Internal(a)), Internal(a));
      && (first == Accepted ==>
            Pends(t, 5, TryDescend(s.control.handler, Nop)) && t.control.stack == Below(s) + [AbortEnd])
      && (first != Accepted && second == Accepted ==> Pends(u, 12, Nop) && u.control.stack == Below(s) + [AbortEnd])
      && (first != Accepted && second != Accepted ==>
            u.activeMode == 0 && NonePends(s, v) && v.control.stack == Below(s))
  {
    hide Step, Steps, FailsByDefault, HandlersOk;
    var s := Steps(c, Initial(file), ls);
    ExactlyOneValidHandler(c, file, ls);
    ValidHandler(c, s.control);
    var h := s.control.handler;
    Returns(c, s, reason, a, first);
    if first != Accepted {
      var t := Step(c, Step(c, s, Internal(a)), Internal(first));
      assert Below(t) == Below(s) + [AbortEnd];
      Descends(c, t, h, second);
      if second != Accepted {
        assert Below(s) + [AbortEnd] + [Invoke(Nop)] == Below(s) + [AbortEnd, Invoke(Nop)];
        GivesUp(c, Step(c, t, Internal(second)), Below(s), a);
      }
    }
  }

  /** Whatever has happened since the return was accepted: if it ends with a failure while its handler is valid, the
      next request is to descend; otherwise there is none, and no mode. */
  lemma FailedReturnDescends(c: Setup, s: State, h: nat, a: Answer, second: Answer)
    requires AtRest(s) && s.active && s.control.scheduled == Some(ModeCallback(Nop, Some(TryDescend(h, Nop))))
    ensures var t := Step(c, Step(c, s, External(ModeFinished(Failed), a)), Internal(second));
      if !s.control.IsValid(h) then
        t.activeMode == 0 && t.control.scheduled == None && t.control.stack == []
      else if second == Accepted then Pends(t, 12, Nop) && t.control.stack == []
      else t.activeMode == 0 && t.control.scheduled == None && t.control.stack == [Invoke(Nop)]
  {
    hide Step;
    ModeEnds(c, s, Failed, a);
    Descends(c, Step(c, s, External(ModeFinished(Failed), a)), h, second);
  }

  /** An abort that begins at rest, after any run: the client's actions are told, and then the failure action is due. */
  lemma OutermostAbort(c: Setup, file: Option<Json>, ls: seq<Label>, a: Answer)
    requires AtRest(Steps(c, Initial(file), ls)) && Steps(c, Initial(file), ls).active
    ensures var s, t := Steps(c, Initial(file), ls),
      Steps(c, Initial(file), ls + [External(AbortRequest, a), User(Return, a)]);
      && !t.crashed && t.active && t.control.stack == [AbortMain("other")] && t.control.scheduled == s.control.scheduled
  {
    hide Step;
    var s := Steps(c, Initial(file), ls);
    MissionAbort.AbortsAreBounded(c, file, ls);
    OthersAreNoted(c, s, 0, false, a);
    var t := Step(c, s, External(AbortRequest, a));
    HooksAreLimited(c, t, Return, a);
    StepsOn(c, Initial(file), ls, [External(AbortRequest, a), User(Return, a)]);
    TwoSteps(c, s, External(AbortRequest, a), User(Return, a));
  }

  lemma TwoSteps(c: Setup, s: State, k: Label, l: Label)
    ensures Steps(c, s, [k, l]) == Step(c, Step(c, s, k), l)
  {
    hide Step;
    OneStep(c, s, k);
    assert [k, l][..1] == [k];
    assert Steps(c, s, [k, l]) == LastStep(c, s, [k, l]);
  }

  /** So over whole runs: after an abort from rest the vehicle is asked to return; if it refuses, or accepts and
      fails, it is asked to descend; if it refuses both, nothing is asked and the executor is at rest without a mode.
      */
  lemma AbortReturnsOrDescends(c: Setup, file: Option<Json>, ls: seq<Label>, a: Answer, first: Answer, second: Answer)
    requires FailsByDefault(c)
    requires AtRest(Steps(c, Initial(file), ls)) && Steps(c, Initial(file), ls).active
    ensures var s := Steps(c, Initial(file), ls + [External(AbortRequest, a), User(Return, a)]);
      var t := Step(c, Step(c, s, Internal(a)), Internal(first));
      if first == Accepted then
        var failed := Step(c, Step(c, t, Internal(a)), External(ModeFinished(Failed), a));
        && t.activeMode == 5
        && Step(c, failed, Internal(second)).activeMode == if second == Accepted then 12 else 0
      else
        var u := Step(c, t, Internal(second));
        && u.activeMode == (if second == Accepted then 12 else 0)
        && (second != Accepted ==> var v := Step(c, Step(c, u, Internal(a)), Internal(a));
                                   v.control.stack == [] && NonePends(s, v))
  {
    hide Step, Steps, FailsByDefault, HandlersOk;
    OutermostAbort(c, file, ls, a);
    var more := ls + [External(AbortRequest, a), User(Return, a)];
    var s := Steps(c, Initial(file), more);
    FailureActionAsks(c, file, more, "other", a, first, second);
    if first == Accepted {
      ExactlyOneValidHandler(c, file, more);
      ValidHandler(c, s.control);
      Returns(c, s, "other", a, first);
      var t := Step(c, Step(c, s, Internal(a)), Internal(first));
      CallReturns(c, t, a);
      assert Below(s) == [] && Below(t) + [] == [];
      FailedReturnDescends(c, Step(c, t, Internal(a)), s.control.handler, a, second);
    }
  }
}
