/** A mode: when it is activated and deactivated, its setpoint timer, and its completion signal. Client code (the
    overridden hooks) is a sequence of moves that is fixed in advance; every sequence is considered. */
module Modes {
  import opened Wrappers

  /** The rate is compared with the machine epsilon of single precision. */
  const EPSILON := 1.1920929e-07

  datatype ModeSettings = ModeSettings(id: nat, evenWhileDisarmed: bool)

  /** What a hook of the mode does before it returns. */
  datatype ModeMove = SetRate(hz: real) | Complete(result: nat) | Done

  datatype ModeEvent = Activated | Deactivated | Updated | Completed(result: nat)

  datatype ModeState = ModeState(
    active: bool, armed: bool, completed: bool, rate: real, timer: Option<real>,
    moves: seq<ModeMove>, trace: seq<ModeEvent>)

  function FreshMode(rate: real, moves: seq<ModeMove>): ModeState {
    ModeState(false, false, false, rate, None, moves, [])
  }

  // ---- Transitions ----

  function Logged(m: ModeState, e: ModeEvent): ModeState {
    m.(trace := m.trace + [e])
  }

  /** A timer that exists is kept, with the rate that it was created with. */
  function WithTimer(m: ModeState): ModeState {
    m.(timer := if !m.active || m.rate <= EPSILON then None else if m.timer.None? then Some(m.rate) else m.timer)
  }

  function RateSet(m: ModeState, hz: real): ModeState {
    WithTimer(m.(timer := None, rate := hz))
  }

  /** The signal is sent once per activation. */
  function Signalled(m: ModeState, result: nat): ModeState {
    if m.completed then m else Logged(m.(completed := true), Completed(result))
  }

  function Move(m: ModeState, move: ModeMove): ModeState {
    match move
    case SetRate(hz) => RateSet(m, hz)
    case Complete(result) => Signalled(m, result)
    case Done => m
  }

  /** Client code, up to its return. */
  function ModeTurn(m: ModeState): (n: ModeState)
    decreases |m.moves|
  {
    if m.moves == [] then m
    else
      var rest := m.(moves := m.moves[1..]);
      if m.moves[0].Done? then rest else ModeTurn(Move(rest, m.moves[0]))
  }

  function ActivatedMode(m: ModeState): ModeState {
    var hooked := ModeTurn(Logged(m.(active := true, completed := false), Activated));
    WithTimer(if hooked.rate > EPSILON then ModeTurn(Logged(hooked, Updated)) else hooked)
  }

  function DeactivatedMode(m: ModeState): ModeState {
    WithTimer(ModeTurn(Logged(m.(active := false), Deactivated)))
  }

  predicate ShouldBeActive(c: ModeSettings, navState: nat, armed: bool) {
    navState == c.id && (armed || c.evenWhileDisarmed)
  }

  function ModeStatus(c: ModeSettings, m: ModeState, navState: nat, armed: bool, doNotActivate: bool): ModeState {
    var known := m.(armed := armed);
    var wanted := ShouldBeActive(c, navState, armed);
    if m.active == wanted || (wanted && doNotActivate) then known
    else if wanted then ActivatedMode(known)
    else DeactivatedMode(known)
  }

  function TimerFired(m: ModeState): ModeState {
    if m.timer.Some? then ModeTurn(Logged(m, Updated)) else m
  }

  datatype ModeInput =
    | Status(navState: nat, armed: bool, doNotActivate: bool)
    | Tick
    | Client

  function ModeStep(c: ModeSettings, m: ModeState, i: ModeInput): ModeState {
    match i
    case Status(navState, armed, doNotActivate) => ModeStatus(c, m, navState, armed, doNotActivate)
    case Tick => TimerFired(m)
    case Client => ModeTurn(m)
  }

  function ModeSteps(c: ModeSettings, m: ModeState, inputs: seq<ModeInput>): ModeState {
    if inputs == [] then m else ModeStep(c, ModeSteps(c, m, inputs[..|inputs| - 1]), inputs[|inputs| - 1])
  }

  // ---- What every run keeps ----

  /** Whether the last switch in the trace was an activation. */
  function IsOn(trace: seq<ModeEvent>): bool {
    if trace == [] then false
    else match trace[|trace| - 1]
      case Activated => true
      case Deactivated => false
      case _ => IsOn(trace[..|trace| - 1])
  }

  /** Whether completion has been signalled since the last activation. */
  function IsSignalled(trace: seq<ModeEvent>): bool {
    if trace == [] then false
    else match trace[|trace| - 1]
      case Activated => false
      case Completed(_) => true
      case _ => IsSignalled(trace[..|trace| - 1])
  }

  /** Activations and deactivations alternate, the setpoint is updated only while active, and completion is signalled
      at most once between two activations. */
  ghost predicate WellOrdered(trace: seq<ModeEvent>) {
    trace == [] ||
    var before := trace[..|trace| - 1];
    && WellOrdered(before)
    && (match trace[|trace| - 1]
        case Activated => !IsOn(before)
        case Deactivated => IsOn(before)
        case Updated => IsOn(before)
        case Completed(_) => !IsSignalled(before))
  }

  ghost predicate TraceOk(m: ModeState) {
    WellOrdered(m.trace) && m.active == IsOn(m.trace) && m.completed == IsSignalled(m.trace)
  }

  /** The timer exists exactly while the mode is active with a positive rate, and runs at that rate. */
  ghost predicate TimerOk(m: ModeState) {
    m.timer == if m.active && m.rate > EPSILON then Some(m.rate) else None
  }

  /** While a switch is under way, a timer that exists has the current rate. */
  ghost predicate TimerFits(m: ModeState) {
    m.timer.None? || m.timer == Some(m.rate)
  }

  lemma LoggedOrder(trace: seq<ModeEvent>, e: ModeEvent)
    ensures IsOn(trace + [e]) == (match e case Activated => true case Deactivated => false case _ => IsOn(trace))
    ensures IsSignalled(trace + [e]) == (match e case Activated => false case Completed(_) => true
      case _ => IsSignalled(trace))
    ensures WellOrdered(trace + [e])
       <==> (WellOrdered(trace)
             && match e
                case Activated => !IsOn(trace)
                case Deactivated => IsOn(trace)
                case Updated => IsOn(trace)
                case Completed(_) => !IsSignalled(trace))
  {
    assert (trace + [e])[..|trace|] == trace;
  }

  /** Client code changes neither whether the mode is active nor its arming state. */
  lemma {:induction false} TurnKeeps(m: ModeState)
    requires TraceOk(m)
    ensures var n := ModeTurn(m);
      && TraceOk(n) && n.active == m.active && n.armed == m.armed
      && (TimerOk(m) ==> TimerOk(n)) && (TimerFits(m) ==> TimerFits(n))
      && |n.moves| <= |m.moves|
    decreases |m.moves|
  {
    if m.moves != [] && !m.moves[0].Done? {
      var rest := m.(moves := m.moves[1..]);
      if m.moves[0].Complete? {
        LoggedOrder(m.trace, Completed(m.moves[0].result));
      }
      TurnKeeps(Move(rest, m.moves[0]));
    }
  }

  lemma ActivateKeeps(m: ModeState)
    requires TraceOk(m) && TimerFits(m) && !m.active
    ensures var n := ActivatedMode(m); TraceOk(n) && TimerOk(n) && n.active && n.armed == m.armed
  {
    var started := Logged(m.(active := true, completed := false), Activated);
    LoggedOrder(m.trace, Activated);
    TurnKeeps(started);
    var hooked := ModeTurn(started);
    LoggedOrder(hooked.trace, Updated);
    TurnKeeps(Logged(hooked, Updated));
  }

  lemma DeactivateKeeps(m: ModeState)
    requires TraceOk(m) && TimerFits(m) && m.active
    ensures var n := DeactivatedMode(m); TraceOk(n) && TimerOk(n) && !n.active && n.armed == m.armed
  {
    LoggedOrder(m.trace, Deactivated);
    TurnKeeps(Logged(m.(active := false), Deactivated));
  }

  /** The mode is active only where the last status message allows it. */
  ghost predicate Allowed(c: ModeSettings, m: ModeState, navState: nat) {
    m.active ==> navState == c.id && (m.armed || c.evenWhileDisarmed)
  }

  lemma StatusKeeps(c: ModeSettings, m: ModeState, navState: nat, armed: bool, doNotActivate: bool)
    requires TraceOk(m) && TimerOk(m)
    ensures var n := ModeStatus(c, m, navState, armed, doNotActivate);
      && TraceOk(n) && TimerOk(n) && n.armed == armed
      && Allowed(c, n, navState)
      && (doNotActivate && !m.active ==> !n.active)
      && (!doNotActivate ==> (n.active <==> navState == c.id && (armed || c.evenWhileDisarmed)))
  {
    hide IsSignalled, Logged, ModeTurn;
    if m.active {
      DeactivateKeeps(m.(armed := armed));
    } else {
      ActivateKeeps(m.(armed := armed));
    }
  }

  /** A message makes the hooks run exactly if it switches the mode. */
  lemma HooksRunIff(c: ModeSettings, m: ModeState, navState: nat, armed: bool, doNotActivate: bool)
    requires TraceOk(m) && TimerOk(m)
    ensures var n := ModeStatus(c, m, navState, armed, doNotActivate); n.trace != m.trace <==> n.active != m.active
  {
    hide WellOrdered, IsSignalled, ActivatedMode, DeactivatedMode;
    StatusKeeps(c, m, navState, armed, doNotActivate);
    if m.active {
      DeactivateKeeps(m.(armed := armed));
    } else {
      ActivateKeeps(m.(armed := armed));
    }
  }

  lemma TickKeeps(m: ModeState)
    requires TraceOk(m) && TimerOk(m)
    ensures TraceOk(TimerFired(m)) && TimerOk(TimerFired(m))
    ensures TimerFired(m).active == m.active && TimerFired(m).armed == m.armed
  {
    if m.timer.Some? {
      LoggedOrder(m.trace, Updated);
      TurnKeeps(Logged(m, Updated));
    }
  }

  /** The navigation state of the last status message. */
  function LastNavState(inputs: seq<ModeInput>): Option<nat> {
    if inputs == [] then None
    else if inputs[|inputs| - 1].Status? then Some(inputs[|inputs| - 1].navState)
    else LastNavState(inputs[..|inputs| - 1])
  }

  /** Over every run, whatever the client does: activations and deactivations alternate, the timer exists exactly while
      the mode is active with a positive rate, completion is signalled at most once per activation, and the mode is
      active only if the last navigation state is its own and the vehicle is armed (unless that is not required). */
  lemma {:induction false} ModeRuns(c: ModeSettings, rate: real, moves: seq<ModeMove>, inputs: seq<ModeInput>)
    ensures var m := ModeSteps(c, FreshMode(rate, moves), inputs);
      && TraceOk(m) && TimerOk(m)
      && (m.active ==> LastNavState(inputs).Some? && Allowed(c, m, LastNavState(inputs).value))
      && (LastNavState(inputs).None? ==> !m.armed)
  {
    if inputs != [] {
      var before := inputs[..|inputs| - 1];
      ModeRuns(c, rate, moves, before);
      var m := ModeSteps(c, FreshMode(rate, moves), before);
      match inputs[|inputs| - 1]
      case Status(navState, armed, doNotActivate) => StatusKeeps(c, m, navState, armed, doNotActivate);
      case Tick => TickKeeps(m);
      case Client => TurnKeeps(m);
    }
  }

  // ---- The mode object ----

  class Mode {
    const settings: ModeSettings
    var isActive: bool
    var isArmed: bool
    var completed: bool
    var rate: real
    var timer: Option<real>
    var moves: seq<ModeMove>
    var trace: seq<ModeEvent>

    ghost function View(): ModeState
      reads this
    {
      ModeState(isActive, isArmed, completed, rate, timer, moves, trace)
    }

    constructor (settings: ModeSettings, moves: seq<ModeMove>)
      ensures this.settings == settings && View() == FreshMode(0.0, moves)
    {
      this.settings := settings;
      isActive, isArmed, completed := false, false, false;
      rate, timer := 0.0, None;
      this.moves, trace := moves, [];
    }

    method UpdateSetpointUpdateTimer()
      modifies this`timer
      ensures View() == WithTimer(old(View()))
    {
      var activate := isActive && rate > EPSILON;
      if activate {
        if timer.None? {
          timer := Some(rate);
        }
      } else {
        timer := None;
      }
    }

    method SetSetpointUpdateRate(hz: real)
      modifies this`timer, this`rate
      ensures View() == RateSet(old(View()), hz)
    {
      timer := None;
      rate := hz;
      UpdateSetpointUpdateTimer();
    }

    method Completed(result: nat)
      modifies this`completed, this`trace
      ensures View() == Signalled(old(View()), result)
    {
      if completed {
        return;
      }
      trace := trace + [ModeEvent.Completed(result)];
      completed := true;
    }

    /** Client code runs until it returns. */
    method ClientTurn()
      modifies this
      ensures View() == ModeTurn(old(View()))
      decreases |moves|
    {
      if moves == [] {
        return;
      }
      var move := moves[0];
      moves := moves[1..];
      match move
      case SetRate(hz) =>
        SetSetpointUpdateRate(hz);
        ClientTurn();
      case Complete(result) =>
        Completed(result);
        ClientTurn();
      case Done =>
    }

    method CallOnActivate()
      modifies this
      ensures View() == ActivatedMode(old(View()))
    {
      isActive := true;
      completed := false;
      trace := trace + [Activated];
      ClientTurn();
      if rate > EPSILON {
        trace := trace + [Updated];
        ClientTurn();
      }
      UpdateSetpointUpdateTimer();
    }

    method CallOnDeactivate()
      modifies this
      ensures View() == DeactivatedMode(old(View()))
    {
      isActive := false;
      trace := trace + [Deactivated];
      ClientTurn();
      UpdateSetpointUpdateTimer();
    }

    method VehicleStatusUpdated(navState: nat, armed: bool, doNotActivate: bool)
      modifies this
      ensures View() == ModeStatus(settings, old(View()), navState, armed, doNotActivate)
    {
      isArmed := armed;
      var active := navState == settings.id && (isArmed || settings.evenWhileDisarmed);
      if isActive != active {
        if active {
          if !doNotActivate {
            CallOnActivate();
          }
        } else {
          CallOnDeactivate();
        }
      }
    }
  }
}
