/** What a status message does to a mode executor: which hooks it calls, which wait it ends, what it leaves alone, and
    that the owned mode inside runs like a mode of its own. */
module ModeMessages {
  import opened Wrappers
  import Modes
  import opened ModeExecutors
  import opened ModeClients

  // ---- Hooks ----

  /** The message lets the executor be in charge. */
  predicate Wanted(c: Config, s: Exec, msg: StatusMessage) {
    && msg.executorInCharge == c.id
    && (msg.armed || c.activation == Always || (c.activation == Immediately && s.neverActivated))
  }

  /** The user has left the scheduled mode, in which the vehicle was, for the owned mode. */
  predicate Returned(c: Config, s: Exec, msg: StatusMessage) {
    match s.scheduled
    case None => false
    case Some(p) => p.mode == s.prevNavState && msg.navState == c.mode.id && p.mode != c.mode.id && msg.armed
  }

  predicate IsDeactivated(c: Config, s: Exec, msg: StatusMessage) {
    s.inCharge && (!Wanted(c, s, msg) || Returned(c, s, msg))
  }

  /** The hooks that the message calls about who is in charge. */
  function SwitchesOf(c: Config, s: Exec, msg: StatusMessage): seq<ExecEvent> {
    if s.inCharge && !Wanted(c, s, msg) then [Deactivate(msg.failsafe)]
    else if s.inCharge && Returned(c, s, msg) then [Deactivate(false), Activate]
    else if !s.inCharge && Wanted(c, s, msg) then [Activate]
    else []
  }

  /** All of them, in their order. */
  function HooksOf(c: Config, s: Exec, msg: StatusMessage): seq<ExecEvent> {
    SwitchesOf(c, s, msg) +
    if Wanted(c, s, msg) && msg.deferState == WouldFailsafe && s.prevDefer != WouldFailsafe then [FailsafeDeferred]
    else []
  }

  /** A message calls exactly these hooks, whatever the client does in them. */
  lemma HooksInOrder(c: Config, s: Exec, msg: StatusMessage)
    ensures var t := ExecStep(c, s, Status(msg));
      && Hooks(t.trace) == Hooks(s.trace) + HooksOf(c, s, msg)
      && t.inCharge == Wanted(c, s, msg)
      && t.neverActivated == (s.neverActivated && !IsDeactivated(c, s, msg))
  {
    hide Turn, Call, Hooks, IsOn, WellOrdered, InCharge, Deferred, Modes.ModeStatus, HoldsModeBack, Wanted, SwitchesOf,
      IsDeactivated;
    InChargeHooks(c, s, msg);
    DeferredHooks(InCharge(c, s, msg), msg);
  }

  lemma InChargeHooks(c: Config, s: Exec, msg: StatusMessage)
    ensures var t := InCharge(c, s, msg);
      && Hooks(t.trace) == Hooks(s.trace) + SwitchesOf(c, s, msg)
      && t.inCharge == Wanted(c, s, msg) && t.prevDefer == s.prevDefer && t.mode == s.mode
      && t.neverActivated == (s.neverActivated && !IsDeactivated(c, s, msg))
  {
    hide ActivateExec, DeactivateExec, Hooks, IsOn, WellOrdered;
    var known := s.(armed := msg.armed);
    SwitchHooks(known, msg.failsafe);
    SwitchHooks(known, false);
    SwitchHooks(DeactivateExec(known, false), false);
  }

  lemma SwitchHooks(s: Exec, failsafe: bool)
    ensures var t := ActivateExec(s);
      && Hooks(t.trace) == Hooks(s.trace) + [Activate]
      && SameStanding(s.(inCharge := true, trace := t.trace), t)
    ensures var t := DeactivateExec(s, failsafe);
      && Hooks(t.trace) == Hooks(s.trace) + [Deactivate(failsafe)]
      && SameStanding(s.(inCharge := false, neverActivated := false, trace := t.trace), t)
  {
    hide Turn, CancelScheduled, CancelAwaited;
    NotedOrder(s.trace, Activate);
    NotedOrder(Cancelled(s).trace, Deactivate(failsafe));
  }

  lemma DeferredHooks(s: Exec, msg: StatusMessage)
    ensures var t := Deferred(s, msg);
      && Hooks(t.trace) == Hooks(s.trace)
           + (if s.inCharge && msg.deferState == WouldFailsafe && s.prevDefer != WouldFailsafe then [FailsafeDeferred]
              else [])
      && SameStanding(s.(prevDefer := msg.deferState, trace := t.trace), t)
  {
    hide Turn;
    NotedOrder(s.trace, FailsafeDeferred);
  }

  /** With the first message an executor is activated if it is named and the vehicle is armed, or it need not be. */
  lemma FirstMessage(c: Config, mode: Modes.ModeState, moves: seq<ClientMove>, msg: StatusMessage)
    ensures Hooks(ExecStep(c, FreshExec(mode, moves), Status(msg)).trace)
         == if msg.executorInCharge != c.id || (!msg.armed && c.activation == OnlyWhenArmed) then []
            else [Activate] + if msg.deferState == WouldFailsafe then [FailsafeDeferred] else []
  {
    hide ExecStep;
    HooksInOrder(c, FreshExec(mode, moves), msg);
  }

  // ---- What a message leaves alone ----

  /** The wait whose condition the message brings. */
  predicate Met(condition: Condition, msg: StatusMessage) {
    match condition
    case UntilArmed => msg.armed
    case UntilDisarmed => !msg.armed
    case UntilReady => msg.preflightChecksPass
  }

  predicate EndsWait(s: Exec, msg: StatusMessage) {
    match s.awaited
    case None => false
    case Some(p) => Met(p.condition, msg)
  }

  /** A message that calls no hook of the executor, does not switch the owned mode and ends no wait tells the client
      nothing and lets it do nothing. */
  lemma QuietMessage(c: Config, s: Exec, msg: StatusMessage)
    requires HooksOf(c, s, msg) == [] && !EndsWait(s, msg)
    requires ExecStep(c, s, Status(msg)).mode.active == s.mode.active
    ensures var t := ExecStep(c, s, Status(msg));
      t == s.(armed := msg.armed, prevNavState := msg.navState, prevDefer := msg.deferState, mode := t.mode)
  {
    hide Turn, Woken, ModeTold, ActivateExec, DeactivateExec, Modes.ModeStatus, HoldsModeBack, Hooks, SameStanding;
    var known := s.(armed := msg.armed);
    assert InCharge(c, s, msg) == known;
    assert Deferred(known, msg) == known.(prevDefer := msg.deferState);
    var u := known.(prevDefer := msg.deferState);
    TellsMode(c, u, msg, !s.armed && msg.armed);
    var v := ModeTold(c, u, msg, !s.armed && msg.armed).(prevNavState := msg.navState);
    WakesMode(v, msg);
    assert v == u.(mode := v.mode, prevNavState := msg.navState);
  }

  /** Waking the client does nothing to the mode. */
  lemma WakesMode(s: Exec, msg: StatusMessage)
    ensures Woken(s, msg).mode == s.mode
    ensures s.armed == msg.armed && !EndsWait(s, msg) ==> Woken(s, msg) == s
  {
    hide Call;
  }

  lemma TellsMode(c: Config, s: Exec, msg: StatusMessage, armedNow: bool)
    ensures var t := ModeTold(c, s, msg, armedNow);
      t.mode.active == s.mode.active ==> t == s.(mode := t.mode)
  {
    hide Turn, Modes.ModeStatus, HoldsModeBack;
  }

  /** Whenever a hook of the executor or of the owned mode is called, the client gets to act. */
  lemma HooksGiveTurns(c: Config, s: Exec, msg: StatusMessage)
    requires s.moves != []
    requires HooksOf(c, s, msg) != [] || ExecStep(c, s, Status(msg)).mode.active != s.mode.active
    ensures |ExecStep(c, s, Status(msg)).moves| < |s.moves|
  {
    hide InCharge, Deferred, ModeTold, Hooks, SameStanding, Woken, HooksOf, SwitchesOf;
    var t, u := InCharge(c, s, msg), BeforeMode(c, s, msg);
    var v := ModeTold(c, u, msg, !s.armed && msg.armed);
    InChargeHooks(c, s, msg);
    InChargeGivesTurn(c, s, msg);
    DeferredGivesTurn(t, msg);
    ModeGivesTurn(c, u, msg, !s.armed && msg.armed);
    WakesLess(v.(prevNavState := msg.navState), msg);
    WakesMode(v.(prevNavState := msg.navState), msg);
    if HooksOf(c, s, msg) != [] {
      HooksWhere(c, s, msg);
    }
  }

  lemma HooksWhere(c: Config, s: Exec, msg: StatusMessage)
    requires HooksOf(c, s, msg) != []
    ensures SwitchesOf(c, s, msg) != [] ||
      (Wanted(c, s, msg) && msg.deferState == WouldFailsafe && s.prevDefer != WouldFailsafe)
  {
  }

  lemma InChargeGivesTurn(c: Config, s: Exec, msg: StatusMessage)
    ensures var t := InCharge(c, s, msg);
      |t.moves| <= |s.moves| && (SwitchesOf(c, s, msg) != [] && s.moves != [] ==> |t.moves| < |s.moves|)
  {
    hide ActivateExec, DeactivateExec;
    var known := s.(armed := msg.armed);
    SwitchHooks(known, msg.failsafe);
    SwitchHooks(known, false);
    SwitchGivesTurn(known, msg.failsafe);
    SwitchGivesTurn(known, false);
    SwitchGivesTurn(DeactivateExec(known, false), false);
  }

  lemma DeferredGivesTurn(s: Exec, msg: StatusMessage)
    ensures var t := Deferred(s, msg);
      && |t.moves| <= |s.moves| && t.mode == s.mode
      && (s.inCharge && msg.deferState == WouldFailsafe && s.prevDefer != WouldFailsafe && s.moves != [] ==>
            |t.moves| < |s.moves|)
  {
    hide Turn;
    TurnServes(Noted(s, FailsafeDeferred));
  }

  lemma ModeGivesTurn(c: Config, s: Exec, msg: StatusMessage, armedNow: bool)
    ensures var t := ModeTold(c, s, msg, armedNow);
      |t.moves| <= |s.moves| && (t.mode.active != s.mode.active && s.moves != [] ==> |t.moves| < |s.moves|)
  {
    hide Turn, Modes.ModeStatus, HoldsModeBack;
    TurnServes(s.(mode := Modes.ModeStatus(c.mode, s.mode, msg.navState, msg.armed, HoldsModeBack(c, s, armedNow))));
  }

  lemma SwitchGivesTurn(s: Exec, failsafe: bool)
    ensures var t := ActivateExec(s); |t.moves| <= |s.moves| && (s.moves != [] ==> |t.moves| < |s.moves|)
    ensures var t := DeactivateExec(s, failsafe); |t.moves| <= |s.moves| && (s.moves != [] ==> |t.moves| < |s.moves|)
  {
    hide Turn, CancelScheduled, CancelAwaited, SameStanding;
    TurnServes(Noted(s.(inCharge := true), Activate));
    TurnServes(Noted(Cancelled(s).(inCharge := false, neverActivated := false), Deactivate(failsafe)));
  }

  lemma WakesLess(s: Exec, msg: StatusMessage)
    ensures |Woken(s, msg).moves| <= |s.moves|
  {
    hide Call;
  }

  // ---- Waits ----

  /** A wait that is pending stays so: no request replaces it. */
  ghost predicate KeepsWait(s: Exec, t: Exec) {
    s.trace <= t.trace && (s.awaited.Some? ==> t.awaited == s.awaited)
  }

  lemma {:induction false} TurnKeepsWait(s: Exec)
    ensures KeepsWait(s, Turn(s))
    decreases |s.moves|, 2
  {
    hide Serve;
    if s.moves != [] && s.moves[0].Ask? {
      var rest := s.(moves := s.moves[1..]);
      ServeKeepsWait(rest, s.moves[0].request);
      TurnKeepsWait(Serve(rest, s.moves[0].request));
    }
  }

  lemma {:induction false} CallKeepsWait(s: Exec, callback: nat, result: Outcome)
    ensures KeepsWait(s, Call(s, callback, result))
    decreases |s.moves|, 3
  {
    hide Turn, SameStanding;
    TurnKeepsWait(Noted(s, Called(callback, result)));
  }

  lemma {:induction false} ServeKeepsWait(s: Exec, request: Request)
    ensures KeepsWait(s, Serve(s, request))
    decreases |s.moves|, 5
  {
    hide Call, Wait, CancelScheduled, SameStanding, IsOn, WellOrdered, Hooks;
    var callback, t := |s.asked|, s.(asked := s.asked + [request]);
    CancelKeepsWait(t);
    match request
    case Schedule(_, _, answer) =>
      CallKeepsWait(t, callback, Rejected);
      CallKeepsWait(CancelScheduled(t), callback, answer);
    case Arm(answer) => WaitKeepsWait(t, t.armed, answer, UntilArmed, callback);
    case Disarm(answer) => WaitKeepsWait(t, !t.armed, answer, UntilDisarmed, callback);
    case WaitReadyToArm => WaitKeepsWait(t, t.armed, Outcome.Success, UntilReady, callback);
    case WaitUntilDisarmed => WaitKeepsWait(t, !t.armed, Outcome.Success, UntilDisarmed, callback);
  }

  lemma {:induction false} WaitKeepsWait(s: Exec, met: bool, answer: Outcome, condition: Condition, callback: nat)
    ensures KeepsWait(s, Wait(s, met, answer, condition, callback))
    decreases |s.moves|, 4
  {
    hide Call, SameStanding;
    CallKeepsWait(s, callback, Outcome.Success);
    CallKeepsWait(s, callback, answer);
  }

  lemma CancelKeepsWait(s: Exec)
    ensures CancelScheduled(s).awaited == s.awaited && s.trace <= CancelScheduled(s).trace
  {
    hide SameStanding, IsOn, WellOrdered, Hooks;
  }

  ghost predicate IsTold(s: Exec, t: Exec, callback: nat, result: Outcome) {
    exists p: nat :: |s.trace| <= p < |t.trace| && t.trace[p] == Called(callback, result)
  }

  lemma ToldLater(s: Exec, t: Exec, u: Exec, callback: nat, result: Outcome)
    requires s.trace <= t.trace && t.trace + [Called(callback, result)] <= u.trace
    ensures IsTold(s, u, callback, result)
  {
    assert u.trace[|t.trace|] == (t.trace + [Called(callback, result)])[|t.trace|];
  }

  /** A pending wait with a message: if the executor is deactivated its callback is told so; otherwise it is told of
      success exactly if the message brings the condition, and goes on if not, whatever else the client asks for. */
  lemma WaitEndsIff(c: Config, s: Exec, msg: StatusMessage)
    requires s.awaited.Some?
    ensures var t, p := ExecStep(c, s, Status(msg)), s.awaited.value;
      if IsDeactivated(c, s, msg) then IsTold(s, t, p.callback, Outcome.Deactivated)
      else if Met(p.condition, msg) then IsTold(s, t, p.callback, Outcome.Success)
      else t.awaited == s.awaited
  {
    hide InCharge, Deferred, ModeTold, Call, SameStanding, IsDeactivated;
    var t, u := InCharge(c, s, msg), BeforeMode(c, s, msg);
    var v := ModeTold(c, u, msg, !s.armed && msg.armed).(prevNavState := msg.navState);
    InChargeWaits(c, s, msg);
    DeferredWaits(t, msg);
    ModeWaits(c, u, msg, !s.armed && msg.armed);
    WokenWaits(v, msg);
    if IsDeactivated(c, s, msg) {
      StillTold(s, t, Woken(v, msg), s.awaited.value.callback, Outcome.Deactivated);
    } else if Met(s.awaited.value.condition, msg) {
      ToldLater(s, v, Woken(v, msg), s.awaited.value.callback, Outcome.Success);
    }
  }

  lemma StillTold(s: Exec, t: Exec, u: Exec, callback: nat, result: Outcome)
    requires IsTold(s, t, callback, result) && t.trace <= u.trace
    ensures IsTold(s, u, callback, result)
  {
    var p: nat :| |s.trace| <= p < |t.trace| && t.trace[p] == Called(callback, result);
    assert u.trace[p] == t.trace[p];
  }

  lemma InChargeWaits(c: Config, s: Exec, msg: StatusMessage)
    requires s.awaited.Some?
    ensures var t := InCharge(c, s, msg);
      && s.trace <= t.trace && t.armed == msg.armed
      && (if IsDeactivated(c, s, msg) then IsTold(s, t, s.awaited.value.callback, Outcome.Deactivated)
          else t.awaited == s.awaited)
  {
    hide ActivateExec, DeactivateExec, IsTold, Hooks, IsOn, WellOrdered;
    var known := s.(armed := msg.armed);
    SwitchWaits(known, msg.failsafe);
    SwitchWaits(known, false);
    SwitchWaits(DeactivateExec(known, false), false);
    SwitchHooks(known, msg.failsafe);
    SwitchHooks(known, false);
    SwitchHooks(DeactivateExec(known, false), false);
    var left := DeactivateExec(known, false);
    if IsTold(known, left, s.awaited.value.callback, Outcome.Deactivated) {
      StillTold(known, left, ActivateExec(left), s.awaited.value.callback, Outcome.Deactivated);
      SameTrace(s, known, ActivateExec(left), s.awaited.value.callback);
    }
    if IsTold(known, DeactivateExec(known, msg.failsafe), s.awaited.value.callback, Outcome.Deactivated) {
      SameTrace(s, known, DeactivateExec(known, msg.failsafe), s.awaited.value.callback);
    }
  }

  lemma SameTrace(s: Exec, known: Exec, t: Exec, callback: nat)
    requires known.trace == s.trace && IsTold(known, t, callback, Outcome.Deactivated)
    ensures IsTold(s, t, callback, Outcome.Deactivated)
  {
  }

  lemma SwitchWaits(s: Exec, failsafe: bool)
    ensures KeepsWait(s, ActivateExec(s)) && s.trace <= DeactivateExec(s, failsafe).trace
    ensures s.awaited.Some? ==> IsTold(s, DeactivateExec(s, failsafe), s.awaited.value.callback, Outcome.Deactivated)
  {
    hide Turn, SameStanding, CancelScheduled;
    TurnKeepsWait(Noted(s.(inCharge := true), Activate));
    var t := CancelScheduled(s);
    assert s.trace <= t.trace && t.awaited == s.awaited by {
      hide Noted;
      CancelledTrace(s);
    }
    var left := Cancelled(s).(inCharge := false, neverActivated := false);
    TurnKeepsWait(Noted(left, Deactivate(failsafe)));
    if s.awaited.Some? {
      ToldLater(s, t, DeactivateExec(s, failsafe), s.awaited.value.callback, Outcome.Deactivated);
    }
  }

  lemma CancelledTrace(s: Exec)
    ensures s.trace <= CancelScheduled(s).trace && CancelScheduled(s).awaited == s.awaited
  {
    hide SameStanding;
  }

  lemma DeferredWaits(s: Exec, msg: StatusMessage)
    ensures KeepsWait(s, Deferred(s, msg)) && Deferred(s, msg).armed == s.armed
  {
    hide Turn;
    TurnKeepsWait(Noted(s, FailsafeDeferred));
  }

  lemma ModeWaits(c: Config, s: Exec, msg: StatusMessage, armedNow: bool)
    ensures KeepsWait(s, ModeTold(c, s, msg, armedNow)) && ModeTold(c, s, msg, armedNow).armed == s.armed
  {
    hide Turn, Modes.ModeStatus, HoldsModeBack;
    TurnKeepsWait(s.(mode := Modes.ModeStatus(c.mode, s.mode, msg.navState, msg.armed, HoldsModeBack(c, s, armedNow))));
  }

  lemma WokenWaits(s: Exec, msg: StatusMessage)
    requires s.armed == msg.armed
    ensures s.trace <= Woken(s, msg).trace
    ensures s.awaited.Some? && Met(s.awaited.value.condition, msg) ==>
      s.trace + [Called(s.awaited.value.callback, Outcome.Success)] <= Woken(s, msg).trace
    ensures !(s.awaited.Some? && Met(s.awaited.value.condition, msg)) ==> Woken(s, msg) == s
  {
    hide Turn;
    if s.awaited.Some? {
      TurnKeepsWait(Noted(s.(awaited := None), Called(s.awaited.value.callback, Outcome.Success)));
    }
  }

  // ---- The owned mode ----

  /** What a step is for the owned mode: a message, which may hold it back, or what happens to it elsewhere. */
  function ModeInputsOf(c: Config, s: Exec, i: Input): seq<Modes.ModeInput> {
    match i
    case Status(msg) =>
      [Modes.ModeInput.Status(msg.navState, msg.armed, HoldsModeBack(c, BeforeMode(c, s, msg), !s.armed && msg.armed))]
    case Elsewhere(input) => if input.Status? then [] else [input]
    case _ => []
  }

  function ModeInputs(c: Config, s: Exec, inputs: seq<Input>): seq<Modes.ModeInput> {
    if inputs == [] then []
    else
      var before, last := inputs[..|inputs| - 1], inputs[|inputs| - 1];
      ModeInputs(c, s, before) + ModeInputsOf(c, ExecSteps(c, s, before), last)
  }

  lemma OwnedModeSteps(c: Config, s: Exec, i: Input)
    ensures ExecStep(c, s, i).mode == Modes.ModeSteps(c.mode, s.mode, ModeInputsOf(c, s, i))
    ensures i.Elsewhere? ==> ExecStep(c, s, i) == s.(mode := ExecStep(c, s, i).mode)
  {
    hide InCharge, Turn, Call, Serve, Woken, Hooks, IsOn, WellOrdered, Modes.ModeStep, Modes.ModeStatus, HoldsModeBack;
    var inputs := ModeInputsOf(c, s, i);
    if inputs != [] {
      assert inputs[..0] == [];
      assert Modes.ModeSteps(c.mode, s.mode, inputs) == Modes.ModeStep(c.mode, s.mode, inputs[0]);
    }
    if i.Status? {
      InChargeHooks(c, s, i.msg);
      MessageMode(c, s, i.msg);
    }
  }

  lemma MessageMode(c: Config, s: Exec, msg: StatusMessage)
    ensures StatusUpdated(c, s, msg).mode
         == Modes.ModeStep(c.mode, s.mode, Modes.ModeInput.Status(msg.navState, msg.armed,
                             HoldsModeBack(c, BeforeMode(c, s, msg), !s.armed && msg.armed)))
  {
    hide InCharge, Turn, Woken, Hooks, IsOn, WellOrdered, HoldsModeBack, Modes.ModeStatus;
    var u := BeforeMode(c, s, msg);
    InChargeHooks(c, s, msg);
    DeferredHooks(InCharge(c, s, msg), msg);
    WakesMode(ModeTold(c, u, msg, !s.armed && msg.armed).(prevNavState := msg.navState), msg);
  }

  lemma {:induction false} ModeStepsOn(c: Modes.ModeSettings, m: Modes.ModeState, a: seq<Modes.ModeInput>,
                                       b: seq<Modes.ModeInput>)
    ensures Modes.ModeSteps(c, m, a + b) == Modes.ModeSteps(c, Modes.ModeSteps(c, m, a), b)
  {
    hide Modes.ModeStep;
    if b == [] {
      assert a + b == a;
    } else {
      assert (a + b)[..|a + b| - 1] == a + b[..|b| - 1];
      ModeStepsOn(c, m, a, b[..|b| - 1]);
    }
  }

  /** Inside its executor the owned mode runs like a mode of its own, on the messages and on what happens to it
      elsewhere: over every run, so that the theorems about modes hold of it. */
  lemma {:induction false} OwnedModeRuns(c: Config, s: Exec, inputs: seq<Input>)
    ensures ExecSteps(c, s, inputs).mode == Modes.ModeSteps(c.mode, s.mode, ModeInputs(c, s, inputs))
  {
    hide ExecStep, ModeInputsOf, Modes.ModeStep;
    if inputs != [] {
      var before, last := inputs[..|inputs| - 1], inputs[|inputs| - 1];
      OwnedModeRuns(c, s, before);
      OwnedModeSteps(c, ExecSteps(c, s, before), last);
      ModeStepsOn(c.mode, s.mode, ModeInputs(c, s, before), ModeInputsOf(c, ExecSteps(c, s, before), last));
    }
  }
}
