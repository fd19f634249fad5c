/** A mode executor: it decides from status messages whether it is in charge, and calls back the client about the mode
    that it has scheduled and the condition that it waits for. Client code is a sequence of moves that is fixed in
    advance; every sequence is considered. */
module ModeExecutors {
  import opened Wrappers
  import opened Modes

  datatype Activation = OnlyWhenArmed | Always | Immediately

  datatype Config = Config(id: nat, activation: Activation, mode: ModeSettings)

  const INVALID_MODE: nat := 255

  datatype DeferState = Disabled | Enabled | WouldFailsafe

  datatype Outcome = Success | Rejected | Interrupted | Timeout | Deactivated | ModeFailureOther

  datatype Condition = UntilArmed | UntilDisarmed | UntilReady

  /** What client code can ask for; `answer` is the vehicle's answer to the command that this sends. */
  datatype Request =
    | Schedule(mode: nat, forced: bool, answer: Outcome)
    | Arm(answer: Outcome)
    | Disarm(answer: Outcome)
    | WaitReadyToArm
    | WaitUntilDisarmed

  /** What client code does while it is in control, before it returns. */
  datatype ClientMove = Ask(request: Request) | Return

  datatype Scheduled = Scheduled(mode: nat, callback: nat)
  datatype Awaited = Awaited(condition: Condition, callback: nat)

  datatype ExecEvent =
    | Activate
    | Deactivate(failsafe: bool)
    | FailsafeDeferred
    | Called(callback: nat, result: Outcome)

  /** Callbacks are numbered in the order in which they are handed over; `asked` are the requests that they were handed
      over with. */
  datatype Exec = Exec(
    inCharge: bool, armed: bool, neverActivated: bool, prevNavState: nat, prevDefer: DeferState,
    scheduled: Option<Scheduled>, awaited: Option<Awaited>,
    mode: ModeState,
    asked: seq<Request>, trace: seq<ExecEvent>, moves: seq<ClientMove>, broken: bool)

  function FreshExec(mode: ModeState, moves: seq<ClientMove>): Exec {
    Exec(false, false, true, INVALID_MODE, Disabled, None, None, mode, [], [], moves, false)
  }

  datatype StatusMessage = StatusMessage(
    navState: nat, armed: bool, executorInCharge: nat, failsafe: bool, deferState: DeferState,
      preflightChecksPass: bool)

  /** Whether the last switch in the trace was an activation. */
  function IsOn(trace: seq<ExecEvent>): bool {
    if trace == [] then false
    else match trace[|trace| - 1]
      case Activate => true
      case Deactivate(_) => false
      case _ => IsOn(trace[..|trace| - 1])
  }

  /** The hooks that were called. */
  function Hooks(trace: seq<ExecEvent>): seq<ExecEvent> {
    if trace == [] then []
    else
      var last := trace[|trace| - 1];
      Hooks(trace[..|trace| - 1]) + if last.Called? then [] else [last]
  }

  /** Activations and deactivations alternate, and deferred failsafes are notified only in between. */
  ghost predicate WellOrdered(trace: seq<ExecEvent>) {
    trace == [] ||
    var before := trace[..|trace| - 1];
    && WellOrdered(before)
    && (match trace[|trace| - 1]
        case Activate => !IsOn(before)
        case Deactivate(_) => IsOn(before)
        case FailsafeDeferred => IsOn(before)
        case Called(_, _) => true)
  }

  lemma NotedOrder(trace: seq<ExecEvent>, e: ExecEvent)
    ensures IsOn(trace + [e]) == (match e case Activate => true case Deactivate(_) => false case _ => IsOn(trace))
    ensures Hooks(trace + [e]) == Hooks(trace) + if e.Called? then [] else [e]
    ensures WellOrdered(trace + [e])
       <==> (WellOrdered(trace)
             && match e
                case Activate => !IsOn(trace)
                case Deactivate(_) => IsOn(trace)
                case FailsafeDeferred => IsOn(trace)
                case Called(_, _) => true)
  {
    assert (trace + [e])[..|trace|] == trace;
  }

  /** Client code and callbacks do not touch who is in charge, what the messages said, or the mode. */
  ghost predicate SameStanding(s: Exec, t: Exec) {
    && t.inCharge == s.inCharge && t.armed == s.armed && t.neverActivated == s.neverActivated
    && t.prevNavState == s.prevNavState && t.prevDefer == s.prevDefer && t.mode == s.mode
    && IsOn(t.trace) == IsOn(s.trace) && (WellOrdered(s.trace) ==> WellOrdered(t.trace))
    && s.trace <= t.trace && Hooks(t.trace) == Hooks(s.trace)
  }

  // ---- Callbacks ----

  function Noted(s: Exec, e: ExecEvent): (t: Exec)
    ensures e.Called? ==> SameStanding(s, t)
  {
    NotedOrder(s.trace, e);
    s.(trace := s.trace + [e])
  }

  /** Client code runs until it returns. */
  function Turn(s: Exec): (t: Exec)
    ensures |t.moves| <= |s.moves| && SameStanding(s, t)
    decreases |s.moves|, 2
  {
    if s.moves == [] then s
    else
      var rest := s.(moves := s.moves[1..]);
      match s.moves[0]
      case Return => rest
      case Ask(request) => Turn(Serve(rest, request))
  }

  /** A callback that is told about a deactivation makes no requests. */
  function Call(s: Exec, callback: nat, result: Outcome): (t: Exec)
    ensures |t.moves| <= |s.moves| && SameStanding(s, t)
    decreases |s.moves|, 3
  {
    var told := Noted(s, Called(callback, result));
    if result.Deactivated? then told else Turn(told)
  }

  function CancelScheduled(s: Exec): (t: Exec)
    ensures t.moves == s.moves && SameStanding(s, t)
  {
    match s.scheduled
    case None => s
    case Some(p) => Noted(s.(scheduled := None), Called(p.callback, Outcome.Deactivated))
  }

  function CancelAwaited(s: Exec): (t: Exec)
    ensures t.moves == s.moves && SameStanding(s, t)
  {
    match s.awaited
    case None => s
    case Some(p) => Noted(s.(awaited := None), Called(p.callback, Outcome.Deactivated))
  }

  // ---- Requests ----

  /** The scheduled mode is identified by its id, so the invalid id must not be scheduled. */
  function Store(s: Exec, mode: nat, callback: nat): Exec {
    if mode == INVALID_MODE then s.(broken := true) else s.(scheduled := Some(Scheduled(mode, callback)))
  }

  /** There must be no other wait. */
  function Await(s: Exec, condition: Condition, callback: nat): Exec {
    if s.awaited.Some? then s.(broken := true) else s.(awaited := Some(Awaited(condition, callback)))
  }

  /** What is done after a command: wait, unless it was refused or there is nothing to wait for. */
  function Wait(s: Exec, reached: bool, answer: Outcome, condition: Condition, callback: nat): (t: Exec)
    ensures |t.moves| <= |s.moves| && SameStanding(s, t)
    decreases |s.moves|, 4
  {
    if reached then Call(s, callback, Outcome.Success)
    else if !answer.Success? then Call(s, callback, answer)
    else Await(s, condition, callback)
  }

  function Serve(s: Exec, request: Request): (t: Exec)
    ensures |t.moves| <= |s.moves| && SameStanding(s, t)
    decreases |s.moves|, 5
  {
    hide IsOn, WellOrdered, Hooks;
    var callback, t := |s.asked|, s.(asked := s.asked + [request]);
    match request
    case Schedule(mode, forced, answer) =>
      if !t.armed && !forced then Call(t, callback, Rejected)
      else
        var cancelled := CancelScheduled(t);
        if !answer.Success? then Call(cancelled, callback, answer) else Store(cancelled, mode, callback)
    case Arm(answer) => Wait(t, t.armed, answer, UntilArmed, callback)
    case Disarm(answer) => Wait(t, !t.armed, answer, UntilDisarmed, callback)
    case WaitReadyToArm => Wait(t, t.armed, Outcome.Success, UntilReady, callback)
    case WaitUntilDisarmed => Wait(t, !t.armed, Outcome.Success, UntilDisarmed, callback)
  }

  // ---- Messages ----

  function ActivateExec(s: Exec): Exec {
    Turn(Noted(s.(inCharge := true), Activate))
  }

  function Cancelled(s: Exec): Exec {
    CancelAwaited(CancelScheduled(s))
  }

  function DeactivateExec(s: Exec, failsafe: bool): Exec {
    Turn(Noted(Cancelled(s).(inCharge := false, neverActivated := false), Deactivate(failsafe)))
  }

  /** Who should be in charge, by the message. */
  predicate ShouldBeInCharge(c: Config, neverActivated: bool, msg: StatusMessage) {
    && msg.executorInCharge == c.id
    && (msg.armed || (c.activation.Immediately? && neverActivated) || c.activation.Always?)
  }

  function Switched(c: Config, s: Exec, msg: StatusMessage): Exec {
    var wanted := ShouldBeInCharge(c, s.neverActivated, msg);
    if s.inCharge == wanted then s else if wanted then ActivateExec(s) else DeactivateExec(s, msg.failsafe)
  }

  /** The user has switched from the scheduled mode to the owned mode. */
  predicate SwitchedByUser(c: Config, s: Exec, msg: StatusMessage) {
    && s.inCharge && s.scheduled.Some? && s.scheduled.value.mode == s.prevNavState
    && msg.navState == c.mode.id && s.prevNavState != msg.navState && s.armed
  }

  function Reactivated(s: Exec): Exec {
    ActivateExec(DeactivateExec(s, false))
  }

  function InCharge(c: Config, s: Exec, msg: StatusMessage): Exec {
    var known := s.(armed := msg.armed);
    var switched := Switched(c, known, msg);
    var activated := !s.inCharge && ShouldBeInCharge(c, s.neverActivated, msg);
    if !activated && SwitchedByUser(c, switched, msg) then Reactivated(switched) else switched
  }

  function Deferred(s: Exec, msg: StatusMessage): Exec {
    var notify := s.inCharge && s.prevDefer != msg.deferState && msg.deferState.WouldFailsafe?;
    (if notify then Turn(Noted(s, FailsafeDeferred)) else s).(prevDefer := msg.deferState)
  }

  /** Another mode is scheduled, or the client waits for the arming that this message brings. */
  predicate HoldsModeBack(c: Config, s: Exec, armedNow: bool) {
    s.inCharge && ((s.scheduled.Some? && s.scheduled.value.mode != c.mode.id) || (armedNow && s.awaited.Some?))
  }

  predicate Reached(condition: Condition, armed: bool, msg: StatusMessage) {
    match condition
    case UntilArmed => armed
    case UntilDisarmed => !armed
    case UntilReady => msg.preflightChecksPass
  }

  function Woken(s: Exec, msg: StatusMessage): Exec {
    if s.awaited.Some? && Reached(s.awaited.value.condition, s.armed, msg) then
      Call(s.(awaited := None), s.awaited.value.callback, Outcome.Success)
    else s
  }

  /** Up to the point where the owned mode is told about the message. */
  function BeforeMode(c: Config, s: Exec, msg: StatusMessage): Exec {
    Deferred(InCharge(c, s, msg), msg)
  }

  /** The owned mode is told. When it is switched its hooks run, and what they ask of the executor is a turn of the
      client: it touches nothing of the mode, so it may as well come after all that the hooks do to the mode. */
  function ModeTold(c: Config, s: Exec, msg: StatusMessage, armedNow: bool): Exec {
    var told := s.(mode := ModeStatus(c.mode, s.mode, msg.navState, msg.armed, HoldsModeBack(c, s, armedNow)));
    if told.mode.active != s.mode.active then Turn(told) else told
  }

  function StatusUpdated(c: Config, s: Exec, msg: StatusMessage): Exec {
    Woken(ModeTold(c, BeforeMode(c, s, msg), msg, !s.armed && msg.armed).(prevNavState := msg.navState), msg)
  }

  function ModeCompleted(s: Exec, navState: nat, result: Outcome): Exec {
    if s.scheduled.Some? && s.scheduled.value.mode == navState then
      Call(s.(scheduled := None), s.scheduled.value.callback, result)
    else s
  }

  /** What happens elsewhere is the mode's alone; what its hooks ask of the executor there is a request of a client. */
  datatype Input =
    | Status(msg: StatusMessage)
    | Finished(navState: nat, result: Outcome)
    | Client(request: Request)
    | Elsewhere(input: ModeInput)

  function ExecStep(c: Config, s: Exec, i: Input): Exec {
    match i
    case Status(msg) => StatusUpdated(c, s, msg)
    case Finished(navState, result) => ModeCompleted(s, navState, result)
    case Client(request) => Serve(s, request)
    case Elsewhere(input) => if input.Status? then s else s.(mode := ModeStep(c.mode, s.mode, input))
  }

  function ExecSteps(c: Config, s: Exec, inputs: seq<Input>): Exec {
    if inputs == [] then s else ExecStep(c, ExecSteps(c, s, inputs[..|inputs| - 1]), inputs[|inputs| - 1])
  }

  // ---- Exactly-once completion ----

  /** How often a callback has been called. */
  function Calls(trace: seq<ExecEvent>, callback: nat): nat {
    if trace == [] then 0
    else
      var last := trace[|trace| - 1];
      Calls(trace[..|trace| - 1], callback) + if last.Called? && last.callback == callback then 1 else 0
  }

  /** In how many of the two places a callback is pending. */
  function Pending(s: Exec, callback: nat): nat {
    (if s.scheduled.Some? && s.scheduled.value.callback == callback then 1 else 0)
    + (if s.awaited.Some? && s.awaited.value.callback == callback then 1 else 0)
  }

  function Balance(s: Exec, callback: nat): nat {
    Calls(s.trace, callback) + Pending(s, callback)
  }

  /** Every callback that was handed over has been called once or is pending in one place, but for `owed`, which is
      about to be called or stored. */
  ghost predicate Accounted(s: Exec, owed: Option<nat>) {
    forall callback: nat ::
      Balance(s, callback) + (if owed == Some(callback) then 1 else 0) == if callback < |s.asked| then 1 else 0
  }

  /** Unless the client broke its contract. */
  ghost predicate Exact(s: Exec, owed: Option<nat>) {
    s.broken || Accounted(s, owed)
  }

  lemma NotedCalls(trace: seq<ExecEvent>, e: ExecEvent, callback: nat)
    ensures Calls(trace + [e], callback) == Calls(trace, callback) +
      if e.Called? && e.callback == callback then 1 else 0
  {
    assert (trace + [e])[..|trace|] == trace;
  }

  lemma NotedExact(s: Exec, e: ExecEvent, owed: Option<nat>)
    requires Exact(s, owed) && !e.Called?
    ensures Exact(Noted(s, e), owed)
  {
    hide Calls;
    forall callback: nat
      ensures Balance(Noted(s, e), callback) == Balance(s, callback)
    {
      NotedCalls(s.trace, e, callback);
    }
  }

  lemma ToldExact(s: Exec, callback: nat, result: Outcome)
    requires Exact(s, Some(callback))
    ensures Exact(Noted(s, Called(callback, result)), None)
  {
    forall other: nat
      ensures Balance(Noted(s, Called(callback, result)), other) == Balance(s, other) +
        if other == callback then 1 else 0
    {
      NotedCalls(s.trace, Called(callback, result), other);
    }
  }

  /** A callback that is told about a cancellation is no longer pending. */
  lemma CancelledBalance(s: Exec, callback: nat)
    ensures Balance(CancelScheduled(s), callback) == Balance(s, callback) == Balance(CancelAwaited(s), callback)
  {
    hide SameStanding;
    if s.scheduled.Some? {
      NotedCalls(s.trace, Called(s.scheduled.value.callback, Outcome.Deactivated), callback);
    }
    if s.awaited.Some? {
      NotedCalls(s.trace, Called(s.awaited.value.callback, Outcome.Deactivated), callback);
    }
  }

  lemma CancelledExact(s: Exec, owed: Option<nat>)
    requires Exact(s, owed)
    ensures Exact(CancelScheduled(s), owed) && Exact(CancelAwaited(s), owed)
  {
    hide Balance;
    forall callback: nat
      ensures Balance(CancelScheduled(s), callback) == Balance(s, callback) == Balance(CancelAwaited(s), callback)
    {
      CancelledBalance(s, callback);
    }
  }

  lemma StoredExact(s: Exec, mode: nat, callback: nat)
    requires Exact(s, Some(callback)) && s.scheduled.None?
    ensures Exact(Store(s, mode, callback), None)
  {
  }

  lemma AwaitedExact(s: Exec, condition: Condition, callback: nat)
    requires Exact(s, Some(callback))
    ensures Exact(Await(s, condition, callback), None)
  {
  }

  lemma IssuedExact(s: Exec, request: Request)
    requires Exact(s, None)
    ensures Exact(s.(asked := s.asked + [request]), Some(|s.asked|))
  {
  }

  lemma TakenExact(s: Exec)
    requires Exact(s, None)
    ensures s.scheduled.Some? ==> Exact(s.(scheduled := None), Some(s.scheduled.value.callback))
    ensures s.awaited.Some? ==> Exact(s.(awaited := None), Some(s.awaited.value.callback))
  {
  }

  /** What is neither a callback nor a place of one does not matter. */
  lemma AsideExact(s: Exec, t: Exec, owed: Option<nat>)
    requires Exact(s, owed)
    requires t.scheduled == s.scheduled && t.awaited == s.awaited && t.trace == s.trace && t.asked == s.asked &&
      t.broken == s.broken
    ensures Exact(t, owed)
  {
  }

  lemma {:induction false} TurnExact(s: Exec)
    requires Exact(s, None)
    ensures Exact(Turn(s), None)
    decreases |s.moves|, 2
  {
    hide Exact;
    if s.moves != [] {
      var rest := s.(moves := s.moves[1..]);
      AsideExact(s, rest, None);
      if s.moves[0].Ask? {
        ServeExact(rest, s.moves[0].request);
        TurnExact(Serve(rest, s.moves[0].request));
      }
    }
  }

  lemma {:induction false} CallExact(s: Exec, callback: nat, result: Outcome)
    requires Exact(s, Some(callback))
    ensures Exact(Call(s, callback, result), None)
    decreases |s.moves|, 3
  {
    hide Exact;
    ToldExact(s, callback, result);
    TurnExact(Noted(s, Called(callback, result)));
  }

  lemma {:induction false} WaitExact(s: Exec, reached: bool, answer: Outcome, condition: Condition, callback: nat)
    requires Exact(s, Some(callback))
    ensures Exact(Wait(s, reached, answer, condition, callback), None)
    decreases |s.moves|, 4
  {
    hide Exact;
    CallExact(s, callback, Outcome.Success);
    CallExact(s, callback, answer);
    AwaitedExact(s, condition, callback);
  }

  lemma {:induction false} ServeExact(s: Exec, request: Request)
    requires Exact(s, None)
    ensures Exact(Serve(s, request), None)
    decreases |s.moves|, 5
  {
    hide Exact, Call, Wait, Store;
    var callback, t := |s.asked|, s.(asked := s.asked + [request]);
    IssuedExact(s, request);
    match request
    case Schedule(mode, forced, answer) =>
      CallExact(t, callback, Rejected);
      CancelledExact(t, Some(callback));
      CallExact(CancelScheduled(t), callback, answer);
      StoredExact(CancelScheduled(t), mode, callback);
    case Arm(answer) => WaitExact(t, t.armed, answer, UntilArmed, callback);
    case Disarm(answer) => WaitExact(t, !t.armed, answer, UntilDisarmed, callback);
    case WaitReadyToArm => WaitExact(t, t.armed, Outcome.Success, UntilReady, callback);
    case WaitUntilDisarmed => WaitExact(t, !t.armed, Outcome.Success, UntilDisarmed, callback);
  }

  lemma SwitchExact(s: Exec, failsafe: bool)
    requires Exact(s, None)
    ensures Exact(ActivateExec(s), None) && Exact(DeactivateExec(s, failsafe), None)
  {
    hide Exact, Turn, CancelScheduled, CancelAwaited;
    var begun := s.(inCharge := true);
    AsideExact(s, begun, None);
    NotedExact(begun, Activate, None);
    TurnExact(Noted(begun, Activate));
    CancelledExact(s, None);
    CancelledExact(CancelScheduled(s), None);
    var left := Cancelled(s).(inCharge := false, neverActivated := false);
    AsideExact(Cancelled(s), left, None);
    NotedExact(left, Deactivate(failsafe), None);
    TurnExact(Noted(left, Deactivate(failsafe)));
  }

  lemma InChargeExact(c: Config, s: Exec, msg: StatusMessage)
    requires Exact(s, None)
    ensures Exact(InCharge(c, s, msg), None)
  {
    hide Exact, ActivateExec, DeactivateExec;
    var known := s.(armed := msg.armed);
    AsideExact(s, known, None);
    SwitchExact(known, msg.failsafe);
    var switched := Switched(c, known, msg);
    SwitchExact(switched, false);
    SwitchExact(DeactivateExec(switched, false), false);
  }

  lemma DeferredExact(s: Exec, msg: StatusMessage)
    requires Exact(s, None)
    ensures Exact(Deferred(s, msg), None)
  {
    hide Exact, Turn;
    NotedExact(s, FailsafeDeferred, None);
    TurnExact(Noted(s, FailsafeDeferred));
    AsideExact(s, s.(prevDefer := msg.deferState), None);
    var t := Turn(Noted(s, FailsafeDeferred));
    AsideExact(t, t.(prevDefer := msg.deferState), None);
  }

  lemma WokenExact(s: Exec, msg: StatusMessage)
    requires Exact(s, None)
    ensures Exact(Woken(s, msg), None)
  {
    hide Exact, Call;
    TakenExact(s);
    if s.awaited.Some? {
      CallExact(s.(awaited := None), s.awaited.value.callback, Outcome.Success);
    }
  }

  lemma ToldModeExact(c: Config, s: Exec, msg: StatusMessage, armedNow: bool)
    requires Exact(s, None)
    ensures Exact(ModeTold(c, s, msg, armedNow), None)
  {
    hide Exact, Turn, ModeStatus, HoldsModeBack;
    var told := s.(mode := ModeStatus(c.mode, s.mode, msg.navState, msg.armed, HoldsModeBack(c, s, armedNow)));
    AsideExact(s, told, None);
    TurnExact(told);
  }

  lemma StatusExact(c: Config, s: Exec, msg: StatusMessage)
    requires Exact(s, None)
    ensures Exact(StatusUpdated(c, s, msg), None)
  {
    hide Exact, InCharge, Deferred, Woken, ModeTold;
    InChargeExact(c, s, msg);
    DeferredExact(InCharge(c, s, msg), msg);
    var t, armedNow := BeforeMode(c, s, msg), !s.armed && msg.armed;
    ToldModeExact(c, t, msg, armedNow);
    var told := ModeTold(c, t, msg, armedNow);
    AsideExact(told, told.(prevNavState := msg.navState), None);
    WokenExact(told.(prevNavState := msg.navState), msg);
  }

  lemma StepExact(c: Config, s: Exec, i: Input)
    requires Exact(s, None)
    ensures Exact(ExecStep(c, s, i), None)
  {
    hide Exact, Call, Serve, StatusUpdated, ModeStep;
    match i
    case Status(msg) => StatusExact(c, s, msg);
    case Finished(navState, result) =>
      TakenExact(s);
      if s.scheduled.Some? {
        CallExact(s.(scheduled := None), s.scheduled.value.callback, result);
      }
    case Client(request) => ServeExact(s, request);
    case Elsewhere(_) => AsideExact(s, ExecStep(c, s, i), None);
  }

  /** Over every run: unless the client breaks its contract, every callback handed over has been called exactly once,
      or is pending in exactly one of the two places. */
  lemma {:induction false} CompletionExactlyOnce(c: Config, mode: ModeState, moves: seq<ClientMove>, inputs: seq<Input>)
    ensures Exact(ExecSteps(c, FreshExec(mode, moves), inputs), None)
  {
    if inputs != [] {
      CompletionExactlyOnce(c, mode, moves, inputs[..|inputs| - 1]);
      StepExact(c, ExecSteps(c, FreshExec(mode, moves), inputs[..|inputs| - 1]), inputs[|inputs| - 1]);
    }
  }

  /** A deactivation tells both pending callbacks and then the client; nothing is pending when it does, nor afterwards
      unless the client asks for something in its turn. */
  lemma DeactivationLeavesNonePending(s: Exec, failsafe: bool)
    ensures var t := Cancelled(s);
      && t.scheduled.None? && t.awaited.None?
      && t.trace == s.trace
           + (if s.scheduled.Some? then [Called(s.scheduled.value.callback, Outcome.Deactivated)] else [])
           + (if s.awaited.Some? then [Called(s.awaited.value.callback, Outcome.Deactivated)] else [])
    ensures s.moves == [] || s.moves[0].Return? ==>
      var t := DeactivateExec(s, failsafe);
      t.scheduled.None? && t.awaited.None? && t.trace == Cancelled(s).trace + [Deactivate(failsafe)]
  {
    hide SameStanding, Hooks, IsOn, WellOrdered, Serve, Turn;
    CancelledTells(s);
    var left := Cancelled(s).(inCharge := false, neverActivated := false);
    if s.moves == [] || s.moves[0].Return? {
      TurnReturns(Noted(left, Deactivate(failsafe)));
    }
  }

  lemma CancelledTells(s: Exec)
    ensures var t := Cancelled(s);
      && t.scheduled.None? && t.awaited.None?
      && t.trace == s.trace
           + (if s.scheduled.Some? then [Called(s.scheduled.value.callback, Outcome.Deactivated)] else [])
           + (if s.awaited.Some? then [Called(s.awaited.value.callback, Outcome.Deactivated)] else [])
  {
    hide SameStanding, Hooks, IsOn, WellOrdered;
  }

  lemma TurnReturns(s: Exec)
    requires s.moves == [] || s.moves[0].Return?
    ensures Turn(s).scheduled == s.scheduled && Turn(s).awaited == s.awaited && Turn(s).trace == s.trace
  {
    hide SameStanding, Hooks, IsOn, WellOrdered, Serve;
  }

  // ---- Who is in charge ----

  /** The trace agrees with the state. */
  ghost predicate ChargeOk(s: Exec) {
    WellOrdered(s.trace) && s.inCharge == IsOn(s.trace)
  }

  lemma ActivateCharge(s: Exec)
    requires ChargeOk(s) && !s.inCharge
    ensures var t := ActivateExec(s);
      ChargeOk(t) && SameStanding(s.(inCharge := true, trace := t.trace), t)
  {
    NotedOrder(s.trace, Activate);
    hide Turn;
  }

  lemma DeactivateCharge(s: Exec, failsafe: bool)
    requires ChargeOk(s) && s.inCharge
    ensures var t := DeactivateExec(s, failsafe);
      ChargeOk(t) && SameStanding(s.(inCharge := false, neverActivated := false, trace := t.trace), t)
  {
    hide Turn, CancelScheduled, CancelAwaited;
    NotedOrder(Cancelled(s).trace, Deactivate(failsafe));
  }

  /** Who is in charge after a message, and what it was decided from. */
  lemma InChargeDecided(c: Config, s: Exec, msg: StatusMessage)
    requires ChargeOk(s)
    ensures var t := InCharge(c, s, msg);
      && ChargeOk(t) && t.inCharge == ShouldBeInCharge(c, s.neverActivated, msg)
      && t.armed == msg.armed && t.prevNavState == s.prevNavState && t.mode == s.mode && t.prevDefer == s.prevDefer
      && (t.neverActivated ==> s.neverActivated)
      && (s.neverActivated && !t.neverActivated && t.inCharge ==> t.armed)
  {
    hide ActivateExec, DeactivateExec, ChargeOk, ShouldBeInCharge;
    var known := s.(armed := msg.armed);
    ArmedCharge(s, msg.armed);
    if known.inCharge {
      DeactivateCharge(known, msg.failsafe);
    } else {
      ActivateCharge(known);
    }
    var switched := Switched(c, known, msg);
    if switched.inCharge {
      DeactivateCharge(switched, false);
      ActivateCharge(DeactivateExec(switched, false));
    }
  }

  lemma ArmedCharge(s: Exec, armed: bool)
    requires ChargeOk(s)
    ensures ChargeOk(s.(armed := armed))
  {
  }

  lemma DeferredCharge(s: Exec, msg: StatusMessage)
    requires ChargeOk(s)
    ensures var t := Deferred(s, msg); ChargeOk(t) && SameStanding(s.(prevDefer := msg.deferState, trace := t.trace), t)
  {
    NotedOrder(s.trace, FailsafeDeferred);
    hide Turn;
  }

  /** After every status message the executor is in charge exactly if the message names it and the vehicle is armed, it
      may always be active, or it is to be active immediately and has never been deactivated. */
  lemma InChargeRefinement(c: Config, s: Exec, msg: StatusMessage)
    requires ChargeOk(s)
    ensures var t := StatusUpdated(c, s, msg);
      && ChargeOk(t)
      && (t.inCharge <==> msg.executorInCharge == c.id
                          && (msg.armed || c.activation == Always || (c.activation == Immediately && s.neverActivated)))
      && t.armed == msg.armed && t.prevNavState == msg.navState && t.prevDefer == msg.deferState
      && (t.neverActivated ==> s.neverActivated)
      && (s.neverActivated && !t.neverActivated && t.inCharge ==> t.armed)
      && t.mode == ModeStatus(c.mode, s.mode, msg.navState, msg.armed,
                              HoldsModeBack(c, BeforeMode(c, s, msg), !s.armed && msg.armed))
  {
    hide InCharge, Deferred, ModeStatus, HoldsModeBack, Call;
    InChargeDecided(c, s, msg);
    DeferredCharge(InCharge(c, s, msg), msg);
  }

  /** What every run keeps. */
  ghost predicate StandingOk(c: Config, s: Exec) {
    && ChargeOk(s)
    && (!c.activation.Always? && !s.neverActivated && s.inCharge ==> s.armed)
    && TraceOk(s.mode) && TimerOk(s.mode)
    && (s.mode.active ==> s.prevNavState == c.mode.id && (s.armed || c.mode.evenWhileDisarmed))
  }

  lemma StepStanding(c: Config, s: Exec, i: Input)
    requires StandingOk(c, s)
    ensures StandingOk(c, ExecStep(c, s, i))
  {
    match i
    case Status(msg) =>
      InChargeRefinement(c, s, msg);
      StatusKeeps(c.mode, s.mode, msg.navState, msg.armed,
        HoldsModeBack(c, BeforeMode(c, s, msg), !s.armed && msg.armed));
      hide StatusUpdated, ModeStatus, HoldsModeBack, WellOrdered, TraceOk;
    case Finished(navState, result) =>
      hide Call, TraceOk, TimerOk;
    case Client(request) =>
      hide Serve, TraceOk, TimerOk;
    case Elsewhere(input) =>
      if !input.Status? {
        TickKeeps(s.mode);
        TurnKeeps(s.mode);
      }
  }

  /** Over every run: activations and deactivations of the executor alternate, also when it is activated again by
      force; unless it may always be active, it is in charge only while armed once it has been deactivated; and the
      owned mode is active only where the last message allows it, with its own guarantees. */
  lemma {:induction false} StandingAlways(c: Config, rate: real, modeMoves: seq<ModeMove>, moves: seq<ClientMove>,
      inputs: seq<Input>)
    ensures StandingOk(c, ExecSteps(c, FreshExec(FreshMode(rate, modeMoves), moves), inputs))
  {
    if inputs != [] {
      StandingAlways(c, rate, modeMoves, moves, inputs[..|inputs| - 1]);
      StepStanding(c, ExecSteps(c, FreshExec(FreshMode(rate, modeMoves), moves), inputs[..|inputs| - 1]),
        inputs[|inputs| - 1]);
    }
  }

  /** An inactive owned mode goes active with a message exactly if the message selects it and the executor does not
      hold it back: being in charge, it has another mode scheduled, or waits while the vehicle becomes armed. */
  lemma ActivatesUnlessHeldBack(c: Config, s: Exec, msg: StatusMessage)
    requires StandingOk(c, s) && !s.mode.active
    ensures var b := BeforeMode(c, s, msg);
      var other := b.scheduled.Some? && b.scheduled.value.mode != c.mode.id;
      var waits := !s.armed && msg.armed && b.awaited.Some?;
      StatusUpdated(c, s, msg).mode.active
      <==> msg.navState == c.mode.id && (msg.armed || c.mode.evenWhileDisarmed) && !(b.inCharge && (other || waits))
  {
    hide StatusUpdated, ModeStatus, BeforeMode, WellOrdered, TraceOk;
    InChargeRefinement(c, s, msg);
    StatusKeeps(c.mode, s.mode, msg.navState, msg.armed,
      HoldsModeBack(c, BeforeMode(c, s, msg), !s.armed && msg.armed));
  }

  // ---- The executor object ----

  class ModeExecutor {
    const config: Config
    const ownedMode: Mode
    var inCharge: bool
    var armed: bool
    var neverActivated: bool
    var prevNavState: nat
    var prevDefer: DeferState
    var scheduledMode: nat          // the invalid id while nothing is scheduled
    var scheduledCallback: nat
    var awaited: Option<Awaited>
    var asked: seq<Request>
    var trace: seq<ExecEvent>
    var moves: seq<ClientMove>
    var broken: bool

    ghost function View(): Exec
      reads this, ownedMode
    {
      Exec(inCharge, armed, neverActivated, prevNavState, prevDefer,
           if scheduledMode == INVALID_MODE then None else Some(Scheduled(scheduledMode, scheduledCallback)), awaited,
           ownedMode.View(), asked, trace, moves, broken)
    }

    /** The owned mode is the configured one. */
    ghost predicate Valid() {
      ownedMode.settings == config.mode
    }

    constructor (config: Config, ownedMode: Mode, moves: seq<ClientMove>)
      requires ownedMode.settings == config.mode
      ensures Valid()
      ensures this.config == config && this.ownedMode == ownedMode && View() == FreshExec(ownedMode.View(), moves)
    {
      this.config, this.ownedMode := config, ownedMode;
      inCharge, armed, neverActivated := false, false, true;
      prevNavState, prevDefer := INVALID_MODE, Disabled;
      scheduledMode, scheduledCallback, awaited := INVALID_MODE, 0, None;
      asked, trace, this.moves, broken := [], [], moves, false;
    }

    // Callbacks

    method ClientTurn()
      modifies this
      ensures View() == Turn(old(View()))
      decreases |moves|, 2
    {
      if moves == [] {
        return;
      }
      var move := moves[0];
      moves := moves[1..];
      match move
      case Return =>
      case Ask(request) =>
        RequestFromClient(request);
        ClientTurn();
    }

    method CallBack(callback: nat, result: Outcome)
      modifies this
      ensures View() == Call(old(View()), callback, result)
      decreases |moves|, 3
    {
      trace := trace + [Called(callback, result)];
      if !result.Deactivated? {
        ClientTurn();
      }
    }

    method CancelScheduledMode()
      modifies this
      ensures View() == CancelScheduled(old(View())) && scheduledMode == INVALID_MODE
    {
      if scheduledMode != INVALID_MODE {
        var callback := scheduledCallback;
        scheduledMode := INVALID_MODE;
        trace := trace + [Called(callback, Outcome.Deactivated)];
      }
    }

    method CancelWait()
      modifies this
      ensures View() == CancelAwaited(old(View()))
    {
      if awaited.Some? {
        var callback := awaited.value.callback;
        awaited := None;
        trace := trace + [Called(callback, Outcome.Deactivated)];
      }
    }

    // Requests

    method RequestFromClient(request: Request)
      modifies this
      ensures View() == Serve(old(View()), request)
      decreases |moves|, 5
    {
      hide Call, CancelScheduled, CancelAwaited, Turn, Wait, Store;
      var callback := |asked|;
      asked := asked + [request];
      match request
      case Schedule(mode, forced, answer) => ScheduleMode(mode, forced, answer, callback);
      case Arm(answer) => SendAndWait(armed, answer, UntilArmed, callback);
      case Disarm(answer) => SendAndWait(!armed, answer, UntilDisarmed, callback);
      case WaitReadyToArm => SendAndWait(armed, Outcome.Success, UntilReady, callback);
      case WaitUntilDisarmed => SendAndWait(!armed, Outcome.Success, UntilDisarmed, callback);
    }

    method ScheduleMode(mode: nat, forced: bool, answer: Outcome, callback: nat)
      modifies this
      ensures View() == (
        if !old(armed) && !forced then Call(old(View()), callback, Rejected)
        else if !answer.Success? then Call(CancelScheduled(old(View())), callback, answer)
        else Store(CancelScheduled(old(View())), mode, callback))
      decreases |moves|, 4
    {
      if !armed && !forced {
        CallBack(callback, Rejected);
        return;
      }
      CancelScheduledMode();
      if !answer.Success? {
        CallBack(callback, answer);
        return;
      }
      if mode == INVALID_MODE {
        broken := true;
      }
      scheduledMode, scheduledCallback := mode, callback;
    }

    method SendAndWait(reached: bool, answer: Outcome, condition: Condition, callback: nat)
      modifies this
      ensures View() == Wait(old(View()), reached, answer, condition, callback)
      decreases |moves|, 4
    {
      if reached {
        CallBack(callback, Outcome.Success);
      } else if !answer.Success? {
        CallBack(callback, answer);
      } else if awaited.Some? {
        broken := true;
      } else {
        awaited := Some(Awaited(condition, callback));
      }
    }

    // Messages

    method CallOnActivate()
      modifies this
      ensures View() == ActivateExec(old(View()))
    {
      inCharge := true;
      trace := trace + [Activate];
      ClientTurn();
    }

    method CallOnDeactivate(failsafe: bool)
      modifies this
      ensures View() == DeactivateExec(old(View()), failsafe)
    {
      CancelScheduledMode();
      CancelWait();
      inCharge := false;
      neverActivated := false;
      trace := trace + [Deactivate(failsafe)];
      ClientTurn();
    }

    method SwitchCharge(msg: StatusMessage) returns (gotActivated: bool)
      requires armed == msg.armed
      modifies this
      ensures View() == Switched(config, old(View()), msg)
      ensures gotActivated <==> !old(inCharge) && ShouldBeInCharge(config, old(neverActivated), msg)
    {
      hide ActivateExec, DeactivateExec;
      var wantsToActivateImmediately := config.activation.Immediately? && neverActivated;
      var isInCharge := config.id == msg.executorInCharge &&
        (armed || wantsToActivateImmediately || config.activation.Always?);
      gotActivated := false;
      if inCharge != isInCharge {
        if isInCharge {
          gotActivated := true;
          CallOnActivate();
        } else {
          CallOnDeactivate(msg.failsafe);
        }
      }
    }

    method UpdateInCharge(msg: StatusMessage)
      requires Valid()
      modifies this
      ensures View() == InCharge(config, old(View()), msg)
    {
      hide ActivateExec, DeactivateExec, Switched;
      armed := msg.armed;
      var gotActivated := SwitchCharge(msg);
      if !gotActivated && inCharge && scheduledMode != INVALID_MODE && scheduledMode == prevNavState
         && msg.navState == ownedMode.settings.id && prevNavState != msg.navState && armed {
        CallOnDeactivate(false);
        CallOnActivate();
      }
    }

    method NotifyDeferred(msg: StatusMessage)
      modifies this
      ensures View() == Deferred(old(View()), msg)
    {
      if inCharge && prevDefer != msg.deferState && msg.deferState.WouldFailsafe? {
        trace := trace + [FailsafeDeferred];
        ClientTurn();
      }
      prevDefer := msg.deferState;
    }

    method UpdateWait(msg: StatusMessage)
      modifies this
      ensures View() == Woken(old(View()), msg)
    {
      hide Call;
      if awaited.Some? && Reached(awaited.value.condition, armed, msg) {
        var callback := awaited.value.callback;
        awaited := None;
        CallBack(callback, Outcome.Success);
      }
    }

    /** The owned mode is told directly, so that it does not go active while another mode is scheduled. */
    method UpdateOwnedMode(msg: StatusMessage, changedToArmed: bool)
      requires Valid()
      modifies ownedMode
      ensures var e := old(View());
        View() == e.(mode := ModeStatus(config.mode, e.mode, msg.navState, msg.armed,
                                        HoldsModeBack(config, e, changedToArmed)))
    {
      hide ModeStatus;
      var doNotActivateMode :=
        (scheduledMode != INVALID_MODE && ownedMode.settings.id != scheduledMode) || (changedToArmed && awaited.Some?);
      ownedMode.VehicleStatusUpdated(msg.navState, msg.armed, doNotActivateMode && inCharge);
    }

    /** Its hooks may make requests. */
    method TellMode(msg: StatusMessage, changedToArmed: bool)
      requires Valid()
      modifies this, ownedMode
      ensures View() == ModeTold(config, old(View()), msg, changedToArmed)
    {
      hide ModeStatus, Turn, HoldsModeBack;
      var wasActive := ownedMode.isActive;
      UpdateOwnedMode(msg, changedToArmed);
      if ownedMode.isActive != wasActive {
        ClientTurn();
      }
    }

    method VehicleStatusUpdated(msg: StatusMessage)
      requires Valid()
      modifies this, ownedMode
      ensures View() == StatusUpdated(config, old(View()), msg)
    {
      hide InCharge, Deferred, Woken, ModeTold;
      var wasArmed := armed;
      UpdateInCharge(msg);
      NotifyDeferred(msg);
      TellMode(msg, !wasArmed && msg.armed);
      prevNavState := msg.navState;
      UpdateWait(msg);
    }

    method OnModeCompleted(navState: nat, result: Outcome)
      modifies this
      ensures View() == ModeCompleted(old(View()), navState, result)
    {
      hide Call;
      if scheduledMode != INVALID_MODE && navState == scheduledMode {
        var callback := scheduledCallback;
        scheduledMode := INVALID_MODE;
        CallBack(callback, result);
      }
    }
  }
}
