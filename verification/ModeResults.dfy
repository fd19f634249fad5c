/** What the client of a mode executor is told: which result each callback gets, when it gets it, and which hooks a
    message calls, for every client. */
module ModeResults {
  import opened Wrappers
  import Modes
  import opened ModeExecutors

  // ---- What a result may be ----

  /** A mode was scheduled after this request. */
  ghost predicate ScheduledSince(asked: seq<Request>, callback: nat) {
    exists later: nat :: callback < later < |asked| && asked[later].Schedule?
  }

  /** The result of the request `asked[callback]`, when it is told in a step with the input `i` while the vehicle is
      armed or not. */
  ghost predicate Justified(asked: seq<Request>, armed: bool, i: Input, callback: nat, result: Outcome)
    requires callback < |asked|
  {
    match asked[callback]
    case Schedule(mode, forced, answer) =>
      || (result.Rejected? && !armed && !forced)
      || (result == answer && !answer.Success? && (armed || forced))
      || (i.Finished? && i.navState == mode && i.result == result)
      || (result.Deactivated? && (i.Status? || ScheduledSince(asked, callback)))
    case Arm(answer) =>
      || (result.Success? && armed)
      || (result == answer && !answer.Success? && !armed)
      || (result.Deactivated? && i.Status?)
    case Disarm(answer) =>
      || (result.Success? && !armed)
      || (result == answer && !answer.Success? && armed)
      || (result.Deactivated? && i.Status?)
    case WaitReadyToArm =>
      || (result.Success? && (armed || (i.Status? && i.msg.preflightChecksPass)))
      || (result.Deactivated? && i.Status?)
    case WaitUntilDisarmed =>
      || (result.Success? && !armed)
      || (result.Deactivated? && i.Status?)
  }

  ghost predicate EventOk(t: Exec, i: Input, e: ExecEvent) {
    e.Called? ==> e.callback < |t.asked| && Justified(t.asked, t.armed, i, e.callback, e.result)
  }

  /** What waits is what was asked for. */
  ghost predicate ScheduledOk(s: Exec) {
    s.scheduled.Some? ==>
      var p := s.scheduled.value;
      p.callback < |s.asked| && s.asked[p.callback].Schedule? && s.asked[p.callback].mode == p.mode
  }

  ghost predicate WaitsFor(request: Request, condition: Condition) {
    match condition
    case UntilArmed => request.Arm?
    case UntilDisarmed => request.Disarm? || request.WaitUntilDisarmed?
    case UntilReady => request.WaitReadyToArm?
  }

  ghost predicate AwaitedOk(s: Exec) {
    s.awaited.Some? ==>
      var p := s.awaited.value;
      p.callback < |s.asked| && WaitsFor(s.asked[p.callback], p.condition)
  }

  ghost predicate PlacesOk(s: Exec) {
    ScheduledOk(s) && AwaitedOk(s)
  }

  /** From `s` to `t`, within one step with the input `i`: all that was told is justified. */
  ghost predicate TellsWell(s: Exec, t: Exec, i: Input) {
    && s.trace <= t.trace && s.asked <= t.asked && t.armed == s.armed && PlacesOk(t)
    && forall p: nat :: |s.trace| <= p < |t.trace| ==> EventOk(t, i, t.trace[p])
  }

  lemma StillOk(t: Exec, u: Exec, i: Input, e: ExecEvent)
    requires EventOk(t, i, e) && t.asked <= u.asked && t.armed == u.armed
    ensures EventOk(u, i, e)
  {
    if e.Called? && ScheduledSince(t.asked, e.callback) {
      var later: nat :| e.callback < later < |t.asked| && t.asked[later].Schedule?;
      assert u.asked[later] == t.asked[later];
    }
  }

  lemma TellsOn(s: Exec, t: Exec, u: Exec, i: Input)
    requires TellsWell(s, t, i) && TellsWell(t, u, i)
    ensures TellsWell(s, u, i)
  {
    hide EventOk, PlacesOk;
    forall p: nat | |s.trace| <= p < |u.trace|
      ensures EventOk(u, i, u.trace[p])
    {
      if p < |t.trace| {
        assert u.trace[p] == t.trace[p];
        StillOk(t, u, i, t.trace[p]);
      }
    }
  }

  /** What is neither told nor a place of a callback does not matter. */
  lemma TellsAside(s: Exec, t: Exec, i: Input)
    requires PlacesOk(s)
    requires t.trace == s.trace && t.asked == s.asked && t.armed == s.armed
    requires t.scheduled == s.scheduled || t.scheduled.None?
    requires t.awaited == s.awaited || t.awaited.None?
    ensures TellsWell(s, t, i)
  {
  }

  lemma NotedTells(s: Exec, e: ExecEvent, i: Input)
    requires PlacesOk(s) && EventOk(s, i, e)
    ensures TellsWell(s, Noted(s, e), i)
  {
    StillOk(s, Noted(s, e), i, e);
  }

  // ---- Client code ----

  lemma {:induction false} TurnTells(s: Exec, i: Input)
    requires PlacesOk(s)
    ensures TellsWell(s, Turn(s), i)
    decreases |s.moves|, 2
  {
    hide TellsWell, PlacesOk, Serve;
    TellsAside(s, s, i);
    if s.moves != [] {
      var rest := s.(moves := s.moves[1..]);
      TellsAside(s, rest, i);
      WellKept(s, rest, i);
      if s.moves[0].Ask? {
        var t := Serve(rest, s.moves[0].request);
        ServeTells(rest, s.moves[0].request, i);
        WellKept(rest, t, i);
        TurnTells(t, i);
        TellsOn(s, rest, t, i);
        TellsOn(s, t, Turn(t), i);
      }
    }
  }

  lemma WellKept(s: Exec, t: Exec, i: Input)
    requires TellsWell(s, t, i)
    ensures PlacesOk(t)
  {
  }

  lemma {:induction false} CallTells(s: Exec, callback: nat, result: Outcome, i: Input)
    requires PlacesOk(s) && EventOk(s, i, Called(callback, result))
    ensures TellsWell(s, Call(s, callback, result), i)
    decreases |s.moves|, 3
  {
    hide TellsWell, PlacesOk, EventOk, Turn;
    var t := Noted(s, Called(callback, result));
    NotedTells(s, Called(callback, result), i);
    WellKept(s, t, i);
    TurnTells(t, i);
    TellsOn(s, t, Turn(t), i);
  }

  lemma CancelsTell(s: Exec, i: Input)
    requires PlacesOk(s)
    ensures s.scheduled.None? || i.Status? || ScheduledSince(s.asked, s.scheduled.value.callback) ==>
      TellsWell(s, CancelScheduled(s), i)
    ensures i.Status? ==> TellsWell(s, CancelAwaited(s), i)
  {
    hide ScheduledSince;
    TellsAside(s, s, i);
    if s.scheduled.Some? && (i.Status? || ScheduledSince(s.asked, s.scheduled.value.callback)) {
      var t := s.(scheduled := None);
      TellsAside(s, t, i);
      NotedTells(t, Called(s.scheduled.value.callback, Outcome.Deactivated), i);
      TellsOn(s, t, CancelScheduled(s), i);
    }
    if s.awaited.Some? && i.Status? {
      var t := s.(awaited := None);
      TellsAside(s, t, i);
      NotedTells(t, Called(s.awaited.value.callback, Outcome.Deactivated), i);
      TellsOn(s, t, CancelAwaited(s), i);
    }
  }

  lemma {:induction false} WaitTells(s: Exec, reached: bool, answer: Outcome, condition: Condition, callback: nat,
                                     i: Input)
    requires PlacesOk(s) && callback < |s.asked| && WaitsFor(s.asked[callback], condition)
    requires reached ==> EventOk(s, i, Called(callback, Outcome.Success))
    requires !reached && !answer.Success? ==> EventOk(s, i, Called(callback, answer))
    ensures TellsWell(s, Wait(s, reached, answer, condition, callback), i)
    decreases |s.moves|, 4
  {
    hide EventOk, Call;
    if reached {
      CallTells(s, callback, Outcome.Success, i);
    } else if !answer.Success? {
      CallTells(s, callback, answer, i);
    }
  }

  lemma {:induction false} ScheduleTells(s: Exec, request: Request, i: Input)
    requires PlacesOk(s) && request.Schedule?
    ensures TellsWell(s, Serve(s, request), i)
    decreases |s.moves|, 4
  {
    hide TellsWell, Call, EventOk, PlacesOk;
    var callback, t := |s.asked|, s.(asked := s.asked + [request]);
    AskedTells(s, request, i);
    if !t.armed && !request.forced {
      TellsRefused(t, callback, Rejected, i);
      CallTells(t, callback, Rejected, i);
      TellsOn(s, t, Serve(s, request), i);
    } else {
      var u := CancelScheduled(t);
      if s.scheduled.Some? {
        SinceNow(s, request);
      }
      CancelsTell(t, i);
      WellKept(t, u, i);
      TellsOn(s, t, u, i);
      if !request.answer.Success? {
        TellsRefused(u, callback, request.answer, i);
        CallTells(u, callback, request.answer, i);
      } else {
        StoreTells(u, request.mode, callback, i);
      }
      TellsOn(s, u, Serve(s, request), i);
    }
  }

  lemma TellsRefused(s: Exec, callback: nat, result: Outcome, i: Input)
    requires callback < |s.asked| && s.asked[callback].Schedule?
    requires if s.armed || s.asked[callback].forced then result == s.asked[callback].answer && !result.Success?
      else result == Rejected
    ensures EventOk(s, i, Called(callback, result))
  {
  }

  lemma SinceNow(s: Exec, request: Request)
    requires PlacesOk(s) && request.Schedule? && s.scheduled.Some?
    ensures ScheduledSince(s.asked + [request], s.scheduled.value.callback)
  {
    assert (s.asked + [request])[|s.asked|].Schedule?;
  }

  lemma StoreTells(s: Exec, mode: nat, callback: nat, i: Input)
    requires PlacesOk(s) && callback < |s.asked| && s.asked[callback].Schedule? && s.asked[callback].mode == mode
    ensures TellsWell(s, Store(s, mode, callback), i)
  {
  }

  lemma {:induction false} ServeTells(s: Exec, request: Request, i: Input)
    requires PlacesOk(s)
    ensures TellsWell(s, Serve(s, request), i)
    decreases |s.moves|, 5
  {
    hide TellsWell, PlacesOk, Call, Wait, CancelScheduled;
    if request.Schedule? {
      ScheduleTells(s, request, i);
    } else {
      var callback, t := |s.asked|, s.(asked := s.asked + [request]);
      AskedTells(s, request, i);
      match request {
        case Arm(answer) => WaitTells(t, t.armed, answer, UntilArmed, callback, i);
        case Disarm(answer) => WaitTells(t, !t.armed, answer, UntilDisarmed, callback, i);
        case WaitReadyToArm => WaitTells(t, t.armed, Outcome.Success, UntilReady, callback, i);
        case WaitUntilDisarmed => WaitTells(t, !t.armed, Outcome.Success, UntilDisarmed, callback, i);
      }
      TellsOn(s, t, Serve(s, request), i);
    }
  }

  lemma AskedTells(s: Exec, request: Request, i: Input)
    requires PlacesOk(s)
    ensures TellsWell(s, s.(asked := s.asked + [request]), i) && PlacesOk(s.(asked := s.asked + [request]))
  {
  }

  // ---- Messages ----

  lemma SwitchTells(s: Exec, failsafe: bool, i: Input)
    requires PlacesOk(s) && i.Status?
    ensures TellsWell(s, ActivateExec(s), i) && TellsWell(s, DeactivateExec(s, failsafe), i)
  {
    hide TellsWell, PlacesOk, Turn, CancelScheduled, CancelAwaited;
    var begun := s.(inCharge := true);
    AsideTells(s, begun, i);
    HookTells(begun, Activate, i);
    TellsOn(s, begun, ActivateExec(s), i);
    CancelsTell(s, i);
    WellKept(s, CancelScheduled(s), i);
    CancelsTell(CancelScheduled(s), i);
    TellsOn(s, CancelScheduled(s), Cancelled(s), i);
    WellKept(s, Cancelled(s), i);
    var left := Cancelled(s).(inCharge := false, neverActivated := false);
    AsideTells(Cancelled(s), left, i);
    TellsOn(s, Cancelled(s), left, i);
    HookTells(left, Deactivate(failsafe), i);
    TellsOn(s, left, DeactivateExec(s, failsafe), i);
  }

  lemma AsideTells(s: Exec, t: Exec, i: Input)
    requires PlacesOk(s)
    requires t.trace == s.trace && t.asked == s.asked && t.armed == s.armed && t.scheduled == s.scheduled &&
      t.awaited == s.awaited
    ensures TellsWell(s, t, i) && PlacesOk(t)
  {
  }

  lemma HookTells(s: Exec, e: ExecEvent, i: Input)
    requires PlacesOk(s) && !e.Called?
    ensures TellsWell(s, Turn(Noted(s, e)), i) && PlacesOk(Turn(Noted(s, e)))
  {
    hide TellsWell, PlacesOk, Turn;
    var t := Noted(s, e);
    assert EventOk(s, i, e);
    NotedTells(s, e, i);
    WellKept(s, t, i);
    TurnTells(t, i);
    TellsOn(s, t, Turn(t), i);
    WellKept(t, Turn(t), i);
  }

  lemma InChargeTells(c: Config, s: Exec, msg: StatusMessage)
    requires PlacesOk(s)
    ensures TellsWell(s.(armed := msg.armed), InCharge(c, s, msg), Status(msg))
  {
    hide TellsWell, PlacesOk, ActivateExec, DeactivateExec, ShouldBeInCharge, SwitchedByUser;
    var known, i := s.(armed := msg.armed), Status(msg);
    KnownOk(s, msg.armed);
    TellsAside(known, known, i);
    SwitchTells(known, msg.failsafe, i);
    var switched := Switched(c, known, msg);
    WellKept(known, switched, i);
    SwitchTells(switched, false, i);
    var left := DeactivateExec(switched, false);
    WellKept(switched, left, i);
    SwitchTells(left, false, i);
    TellsOn(switched, left, Reactivated(switched), i);
    TellsOn(known, switched, Reactivated(switched), i);
  }

  lemma KnownOk(s: Exec, armed: bool)
    requires PlacesOk(s)
    ensures PlacesOk(s.(armed := armed))
  {
  }

  lemma MessageTells(c: Config, s: Exec, msg: StatusMessage)
    requires PlacesOk(s)
    ensures TellsWell(s.(armed := msg.armed), StatusUpdated(c, s, msg), Status(msg))
  {
    hide TellsWell, PlacesOk, InCharge, Turn, Call, Modes.ModeStatus, HoldsModeBack;
    var known, i := s.(armed := msg.armed), Status(msg);
    var t := InCharge(c, s, msg);
    InChargeTells(c, s, msg);
    WellKept(known, t, i);
    DeferredTells(t, msg);
    var u := Deferred(t, msg);
    WellKept(t, u, i);
    TellsOn(known, t, u, i);
    ModeTells(c, u, msg, !s.armed && msg.armed);
    var v := ModeTold(c, u, msg, !s.armed && msg.armed);
    WellKept(u, v, i);
    TellsOn(known, u, v, i);
    var w := v.(prevNavState := msg.navState);
    AsideTells(v, w, i);
    TellsOn(known, v, w, i);
    StillArmed(known, w, i);
    WokenTells(w, msg);
    TellsOn(known, w, Woken(w, msg), i);
  }

  lemma StillArmed(s: Exec, t: Exec, i: Input)
    requires TellsWell(s, t, i)
    ensures t.armed == s.armed
  {
  }

  lemma DeferredTells(s: Exec, msg: StatusMessage)
    requires PlacesOk(s)
    ensures TellsWell(s, Deferred(s, msg), Status(msg))
  {
    hide TellsWell, PlacesOk, Turn, Noted;
    var i := Status(msg);
    AsideTells(s, s.(prevDefer := msg.deferState), i);
    HookTells(s, FailsafeDeferred, i);
    var t := Turn(Noted(s, FailsafeDeferred));
    AsideTells(t, t.(prevDefer := msg.deferState), i);
    TellsOn(s, t, t.(prevDefer := msg.deferState), i);
  }

  lemma ModeTells(c: Config, s: Exec, msg: StatusMessage, armedNow: bool)
    requires PlacesOk(s)
    ensures TellsWell(s, ModeTold(c, s, msg, armedNow), Status(msg))
  {
    hide TellsWell, PlacesOk, Turn, Modes.ModeStatus, HoldsModeBack;
    var told := s.(mode := Modes.ModeStatus(c.mode, s.mode, msg.navState, msg.armed, HoldsModeBack(c, s, armedNow)));
    AsideTells(s, told, Status(msg));
    TurnTells(told, Status(msg));
    TellsOn(s, told, Turn(told), Status(msg));
  }

  lemma WokenTells(s: Exec, msg: StatusMessage)
    requires PlacesOk(s) && s.armed == msg.armed
    ensures TellsWell(s, Woken(s, msg), Status(msg))
  {
    hide TellsWell, Call;
    var i := Status(msg);
    TellsAside(s, s, i);
    if s.awaited.Some? && Reached(s.awaited.value.condition, s.armed, msg) {
      var t := s.(awaited := None);
      TellsAside(s, t, i);
      CallTells(t, s.awaited.value.callback, Outcome.Success, i);
      TellsOn(s, t, Woken(s, msg), i);
    }
  }

  // ---- Every step and every run ----

  /** Whether the vehicle is armed during a step. */
  function ArmedIn(s: Exec, i: Input): bool {
    if i.Status? then i.msg.armed else s.armed
  }

  lemma StepTells(c: Config, s: Exec, i: Input)
    requires PlacesOk(s)
    ensures TellsWell(s.(armed := ArmedIn(s, i)), ExecStep(c, s, i), i)
  {
    hide TellsWell, StatusUpdated, Call, Serve, Modes.ModeStep;
    TellsAside(s, s, i);
    match i
    case Status(msg) => MessageTells(c, s, msg);
    case Finished(navState, result) =>
      if s.scheduled.Some? && s.scheduled.value.mode == navState {
        var t := s.(scheduled := None);
        TellsAside(s, t, i);
        CallTells(t, s.scheduled.value.callback, result, i);
        TellsOn(s, t, ExecStep(c, s, i), i);
      }
    case Client(request) => ServeTells(s, request, i);
    case Elsewhere(input) => AsideTells(s, ExecStep(c, s, i), i);
  }

  lemma {:induction false} PlacesAlways(c: Config, mode: Modes.ModeState, moves: seq<ClientMove>, inputs: seq<Input>)
    ensures PlacesOk(ExecSteps(c, FreshExec(mode, moves), inputs))
  {
    hide PlacesOk, ExecStep;
    if inputs == [] {
      FreshPlaces(mode, moves);
    } else {
      var s, i := ExecSteps(c, FreshExec(mode, moves), inputs[..|inputs| - 1]), inputs[|inputs| - 1];
      PlacesAlways(c, mode, moves, inputs[..|inputs| - 1]);
      StepTells(c, s, i);
      WellKept(s.(armed := ArmedIn(s, i)), ExecStep(c, s, i), i);
    }
  }

  lemma FreshPlaces(mode: Modes.ModeState, moves: seq<ClientMove>)
    ensures PlacesOk(FreshExec(mode, moves))
  {
  }

  /** Over every run, whatever the client asks for and from wherever: each result that a step tells to a callback is one
      that its request can have at that moment. It is rejected while disarmed, or it is the vehicle's answer to its
      command, or the result of the message that completes its mode, or success because its condition holds, or the
      notice of a cancellation by a deactivation or a later mode. */
  lemma ResultsAreJustified(c: Config, mode: Modes.ModeState, moves: seq<ClientMove>, inputs: seq<Input>,
      i: Input, p: nat)
    requires var s := ExecSteps(c, FreshExec(mode, moves), inputs);
      |s.trace| <= p < |ExecStep(c, s, i).trace| && ExecStep(c, s, i).trace[p].Called?
    ensures var s := ExecSteps(c, FreshExec(mode, moves), inputs);
      var t := ExecStep(c, s, i);
      && t.trace[p].callback < |t.asked|
      && Justified(t.asked, ArmedIn(s, i), i, t.trace[p].callback, t.trace[p].result)
  {
    hide ExecSteps, ExecStep, FreshExec, Justified, PlacesOk;
    PlacesAlways(c, mode, moves, inputs);
    StepTells(c, ExecSteps(c, FreshExec(mode, moves), inputs), i);
  }
}
