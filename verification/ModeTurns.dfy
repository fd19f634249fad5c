/** What the hooks of a mode play: the moves of the client up to its return, and what a message, the timer and a turn
    make of them. */
module ModeTurns {
  import opened Modes

  /** How many moves the next turn takes: up to the first return. */
  function TurnLength(moves: seq<ModeMove>): (n: nat)
    ensures n <= |moves|
  {
    if moves == [] then 0 else if moves[0].Done? then 1 else 1 + TurnLength(moves[1..])
  }

  /** The rate that was set last. */
  function LastRate(moves: seq<ModeMove>, rate: real): real {
    if moves == [] then rate
    else if moves[|moves| - 1].SetRate? then moves[|moves| - 1].hz
    else LastRate(moves[..|moves| - 1], rate)
  }

  /** The first completion, if it is the first since the activation. */
  function Signals(moves: seq<ModeMove>, completed: bool): seq<ModeEvent> {
    if moves == [] || completed then []
    else if moves[0].Complete? then [Completed(moves[0].result)]
    else Signals(moves[1..], completed)
  }

  lemma {:induction false} RateOfFirst(moves: seq<ModeMove>, rate: real)
    requires moves != []
    ensures LastRate(moves, rate) == LastRate(moves[1..], if moves[0].SetRate? then moves[0].hz else rate)
  {
    if |moves| > 1 {
      assert moves[1..][..|moves| - 2] == moves[..|moves| - 1][1..];
      RateOfFirst(moves[..|moves| - 1], rate);
    } else {
      assert moves[..0] == [];
    }
  }

  lemma MovePlays(m: ModeState, move: ModeMove)
    ensures var n := Move(m, move);
      && n.moves == m.moves && n.active == m.active && n.armed == m.armed
      && n.rate == (if move.SetRate? then move.hz else m.rate)
      && n.trace == m.trace + Signals([move], m.completed)
      && n.completed == (m.completed || move.Complete?)
  {
    assert [move][1..] == [];
  }

  lemma SignalsOfFirst(moves: seq<ModeMove>, completed: bool)
    requires moves != []
    ensures Signals(moves, completed)
         == Signals([moves[0]], completed) + Signals(moves[1..], completed || moves[0].Complete?)
    ensures (completed || Signals(moves, completed) != [])
         == (completed || moves[0].Complete? || Signals(moves[1..], completed || moves[0].Complete?) != [])
  {
    assert [moves[0]][1..] == [];
  }

  lemma Slices(moves: seq<ModeMove>, k: nat)
    requires 1 + k <= |moves|
    ensures moves[..1 + k][1..] == moves[1..][..k] && moves[1..][k..] == moves[1 + k..]
    ensures moves[..1 + k] != [] && moves[..1 + k][0] == moves[0]
  {
  }

  /** The result of a turn that plays the first `k` moves. */
  ghost predicate Played(m: ModeState, n: ModeState, k: nat)
    requires k <= |m.moves|
  {
    && n.moves == m.moves[k..]
    && n.rate == LastRate(m.moves[..k], m.rate)
    && n.trace == m.trace + Signals(m.moves[..k], m.completed)
    && n.completed == (m.completed || Signals(m.moves[..k], m.completed) != [])
    && n.active == m.active && n.armed == m.armed
  }

  lemma PlayedOn(m: ModeState, next: ModeState, n: ModeState, k: nat)
    requires m.moves != [] && next == Move(m.(moves := m.moves[1..]), m.moves[0])
    requires next.moves == m.moves[1..] && k <= |next.moves| && Played(next, n, k)
    ensures Played(m, n, 1 + k)
  {
    hide Move, LastRate, Signals;
    MovePlays(m.(moves := m.moves[1..]), m.moves[0]);
    Slices(m.moves, k);
    RateOfFirst(m.moves[..1 + k], m.rate);
    SignalsOfFirst(m.moves[..1 + k], m.completed);
  }

  /** A turn plays the moves up to its return: the last rate counts, and the first completion. */
  lemma {:induction false} TurnPlays(m: ModeState)
    ensures Played(m, ModeTurn(m), TurnLength(m.moves))
    decreases |m.moves|
  {
    hide Move, Played;
    NothingPlays(m);
    if m.moves != [] {
      var rest := m.(moves := m.moves[1..]);
      MovePlays(rest, m.moves[0]);
      if m.moves[0].Done? {
        NothingPlays(rest);
        DonePlays(rest);
        PlayedOn(m, rest, rest, 0);
      } else {
        var next := Move(rest, m.moves[0]);
        TurnPlays(next);
        PlayedOn(m, next, ModeTurn(next), TurnLength(next.moves));
      }
    }
  }

  lemma DonePlays(m: ModeState)
    ensures Move(m, Done) == m
  {
  }

  lemma NothingPlays(m: ModeState)
    ensures Played(m, m, 0)
  {
    assert m.moves[..0] == [] && m.moves[0..] == m.moves;
  }

  /** What a mode does that a message activates: its hook has a turn, and if the rate is positive then, the setpoint is
      updated at once, which is another turn. A mode that a message deactivates has one turn. Any other message does
      nothing but note whether the vehicle is armed. */
  lemma StatusPlays(c: ModeSettings, m: ModeState, navState: nat, armed: bool, doNotActivate: bool)
    ensures var n := ModeStep(c, m, Status(navState, armed, doNotActivate));
      var selected := navState == c.id && (armed || c.evenWhileDisarmed);
      var first := m.moves[..TurnLength(m.moves)];
      var left := m.moves[|first|..];
      if !m.active && selected && !doNotActivate then
        var rate, told := LastRate(first, m.rate), Signals(first, false);
        var second := left[..TurnLength(left)];
        n.active && n.armed == armed
        && (if rate > 1.1920929e-07 then
              && n.trace == m.trace + [Activated] + told + [Updated] + Signals(second, told != [])
              && n.rate == LastRate(second, rate) && n.moves == left[|second|..]
            else
              n.trace == m.trace + [Activated] + told && n.rate == rate && n.moves == left)
      else if m.active && !selected then
        && !n.active && n.armed == armed
        && n.trace == m.trace + [Deactivated] + Signals(first, m.completed)
        && n.rate == LastRate(first, m.rate) && n.moves == left
      else n == m.(armed := armed)
  {
    hide ModeTurn, TurnLength, LastRate, Signals;
    var started := Logged(m.(armed := armed, active := true, completed := false), Activated);
    TurnPlays(started);
    TurnPlays(Logged(ModeTurn(started), Updated));
    TurnPlays(Logged(m.(armed := armed, active := false), Deactivated));
  }

  /** The timer updates the setpoint, which is a turn; without one nothing happens. */
  lemma TickPlays(c: ModeSettings, m: ModeState)
    ensures var n, first := ModeStep(c, m, Tick), m.moves[..TurnLength(m.moves)];
      if m.timer.Some? then
        n.trace == m.trace + [Updated] + Signals(first, m.completed) && n.rate == LastRate(first, m.rate) &&
        n.moves == m.moves[|first|..] && n.active == m.active
      else n == m
  {
    hide ModeTurn, TurnLength, LastRate, Signals;
    TurnPlays(Logged(m, Updated));
  }

  /** Client code outside of the hooks has a turn, too. */
  lemma ClientPlays(c: ModeSettings, m: ModeState)
    ensures var n, first := ModeStep(c, m, Client), m.moves[..TurnLength(m.moves)];
      n.trace == m.trace + Signals(first, m.completed) && n.rate == LastRate(first, m.rate) &&
      n.moves == m.moves[|first|..] && n.active == m.active
  {
    TurnPlays(m);
  }
}
