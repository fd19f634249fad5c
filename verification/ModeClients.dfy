/** What the client of a mode executor experiences: its requests are served in order, each is answered as the vehicle's
    state and its answer say, the hooks are called as the messages say, and a wait ends with the message that brings its
    condition. */
module ModeClients {
  import opened Wrappers
  import Modes
  import opened ModeExecutors

  // ---- Requests are served in order ----

  /** The requests among client moves. */
  function Asks(moves: seq<ClientMove>): seq<Request> {
    if moves == [] then []
    else
      var last := moves[|moves| - 1];
      Asks(moves[..|moves| - 1]) + if last.Ask? then [last.request] else []
  }

  lemma {:induction false} AsksOn(a: seq<ClientMove>, b: seq<ClientMove>)
    ensures Asks(a + b) == Asks(a) + Asks(b)
  {
    if b == [] {
      assert a + b == a;
    } else {
      assert (a + b)[..|a + b| - 1] == a + b[..|b| - 1];
      AsksOn(a, b[..|b| - 1]);
    }
  }

  /** From `s` to `t` the client has made its next moves, and `asked` first and then what it asked for in them was
      served, in that order. */
  ghost predicate Serves(s: Exec, t: Exec, asked: seq<Request>) {
    && |t.moves| <= |s.moves|
    && var made := |s.moves| - |t.moves|;
       && t.moves == s.moves[made..]
       && t.asked == s.asked + asked + Asks(s.moves[..made])
  }

  lemma ServesOn(s: Exec, t: Exec, u: Exec, asked: seq<Request>)
    requires Serves(s, t, asked) && Serves(t, u, [])
    ensures Serves(s, u, asked)
  {
    var made, more := |s.moves| - |t.moves|, |t.moves| - |u.moves|;
    assert s.moves[..made + more] == s.moves[..made] + t.moves[..more];
    AsksOn(s.moves[..made], t.moves[..more]);
  }

  lemma ServesNothing(s: Exec, t: Exec)
    requires t.moves == s.moves && t.asked == s.asked
    ensures Serves(s, t, [])
  {
  }

  /** A turn ends when the client returns, or has nothing more to do. */
  ghost predicate EndsTurn(s: Exec, t: Exec) {
    && |t.moves| <= |s.moves|
    && (s.moves != [] ==> |t.moves| < |s.moves|)
    && (t.moves != [] ==> s.moves[|s.moves| - |t.moves| - 1].Return?)
  }

  lemma {:induction false} TurnServes(s: Exec)
    ensures Serves(s, Turn(s), []) && EndsTurn(s, Turn(s))
    decreases |s.moves|, 2, 0
  {
    hide Serve, Serves;
    ServesNothing(s, s);
    if s.moves != [] {
      var rest := s.(moves := s.moves[1..]);
      if s.moves[0].Return? {
        MoveServes(s);
      } else {
        var t := Serve(rest, s.moves[0].request);
        ServeServes(rest, s.moves[0].request);
        AskServes(s, t);
        TurnServes(t);
        ServesOn(s, t, Turn(t), []);
        EndsLater(s, t, Turn(t));
      }
    }
  }

  lemma MoveServes(s: Exec)
    requires s.moves != [] && s.moves[0].Return?
    ensures Serves(s, s.(moves := s.moves[1..]), [])
  {
    assert s.moves[..1] == [s.moves[0]] && [s.moves[0]][..0] == [];
  }

  lemma AskServes(s: Exec, t: Exec)
    requires s.moves != [] && s.moves[0].Ask?
    requires Serves(s.(moves := s.moves[1..]), t, [s.moves[0].request])
    ensures Serves(s, t, [])
  {
    var made := |s.moves| - |t.moves|;
    assert s.moves[..made] == [s.moves[0]] + s.moves[1..][..made - 1];
    AsksOn([s.moves[0]], s.moves[1..][..made - 1]);
    assert [s.moves[0]][..0] == [];
    assert Asks([s.moves[0]]) == [s.moves[0].request];
  }

  lemma EndsLater(s: Exec, t: Exec, u: Exec)
    requires Serves(s, t, []) && EndsTurn(t, u) && |t.moves| < |s.moves|
    ensures EndsTurn(s, u)
  {
  }

  lemma {:induction false} CallServes(s: Exec, callback: nat, result: Outcome)
    ensures var t := Call(s, callback, result);
      && Serves(s, t, [])
      && (if result.Deactivated? then t.moves == s.moves && t.trace == s.trace + [Called(callback, result)]
          else EndsTurn(s, t))
    decreases |s.moves|, 3, 0
  {
    hide Serves;
    var told := Noted(s, Called(callback, result));
    ServesNothing(s, told);
    TurnServes(told);
    ServesOn(s, told, Turn(told), []);
  }

  lemma {:induction false} ServeServes(s: Exec, request: Request)
    ensures Serves(s, Serve(s, request), [request])
    decreases |s.moves|, 5, 0
  {
    hide Call, Serves, SameStanding;
    var callback, t := |s.asked|, s.(asked := s.asked + [request]);
    AskedServes(s, t, request);
    match request
    case Schedule(mode, forced, answer) =>
      var u := CancelScheduled(t);
      AskedServes(s, u, request);
      AskedServes(s, Store(u, mode, callback), request);
      AnsweredServes(s, t, callback, Rejected, request);
      AnsweredServes(s, u, callback, answer, request);
    case Arm(answer) => WaitServes(s, t, t.armed, answer, UntilArmed, callback, request);
    case Disarm(answer) => WaitServes(s, t, !t.armed, answer, UntilDisarmed, callback, request);
    case WaitReadyToArm => WaitServes(s, t, t.armed, Outcome.Success, UntilReady, callback, request);
    case WaitUntilDisarmed => WaitServes(s, t, !t.armed, Outcome.Success, UntilDisarmed, callback, request);
  }

  lemma {:induction false} WaitServes(s: Exec, t: Exec, reached: bool, answer: Outcome, condition: Condition,
                                      callback: nat, request: Request)
    requires Serves(s, t, [request]) && |t.moves| <= |s.moves|
    ensures Serves(s, Wait(t, reached, answer, condition, callback), [request])
    decreases |s.moves|, 4, 0
  {
    hide Call, SameStanding;
    AnsweredServes(s, t, callback, Outcome.Success, request);
    AnsweredServes(s, t, callback, answer, request);
  }

  lemma {:induction false} AnsweredServes(s: Exec, t: Exec, callback: nat, result: Outcome, request: Request)
    requires Serves(s, t, [request]) && |t.moves| <= |s.moves|
    ensures Serves(s, Call(t, callback, result), [request])
    decreases |s.moves|, 3, 1
  {
    hide Serves, Call;
    CallServes(t, callback, result);
    ServesOn(s, t, Call(t, callback, result), [request]);
  }

  lemma AskedServes(s: Exec, t: Exec, request: Request)
    requires t.moves == s.moves && t.asked == s.asked + [request]
    ensures Serves(s, t, [request])
  {
    assert s.moves[..0] == [];
  }

  // ---- How a request is answered ----

  /** What a scheduled mode is told when another one takes its place. */
  function Cancellation(s: Exec): seq<ExecEvent> {
    if s.scheduled.None? then [] else [Called(s.scheduled.value.callback, Outcome.Deactivated)]
  }

  /** After what came `before`, the callback is told the result, and the client may go on asking, unless it is told
      about a deactivation. */
  ghost predicate TellsNow(s: Exec, t: Exec, before: seq<ExecEvent>, callback: nat, result: Outcome) {
    && s.trace + before + [Called(callback, result)] <= t.trace
    && (result == Outcome.Deactivated || s.moves == [] ==> t.trace == s.trace + before + [Called(callback, result)])
    && (if result == Outcome.Deactivated then t.moves == s.moves else EndsTurn(s, t))
  }

  ghost predicate SamePlaces(s: Exec, t: Exec) {
    t.scheduled == s.scheduled && t.awaited == s.awaited && t.broken == s.broken
  }

  /** How a request is answered that waits for a condition unless it is `met` or the vehicle refuses. */
  ghost predicate WaitAnswered(s: Exec, t: Exec, met: bool, answer: Outcome, condition: Condition) {
    if met then TellsNow(s, t, [], |s.asked|, Outcome.Success) && (s.moves == [] ==> SamePlaces(s, t))
    else if answer != Outcome.Success then
      TellsNow(s, t, [], |s.asked|, answer) && (s.moves == [] ==> SamePlaces(s, t))
    else
      && t.trace == s.trace && t.moves == s.moves && t.scheduled == s.scheduled
      && (if s.awaited.Some? then t.broken && t.awaited == s.awaited
          else t.awaited == Some(Awaited(condition, |s.asked|)) && t.broken == s.broken)
  }

  ghost predicate ModeAnswered(s: Exec, t: Exec, mode: nat, forced: bool, answer: Outcome) {
    if !s.armed && !forced then
      TellsNow(s, t, [], |s.asked|, Rejected) && (s.moves == [] ==> SamePlaces(s, t))
    else if answer != Outcome.Success then
      TellsNow(s, t, Cancellation(s), |s.asked|, answer) && (s.moves == [] ==> SamePlaces(s.(scheduled := None), t))
    else
      && t.trace == s.trace + Cancellation(s) && t.moves == s.moves && t.awaited == s.awaited
      && (if mode == 255 then t.broken && t.scheduled.None?
          else t.broken == s.broken && t.scheduled == Some(Scheduled(mode, |s.asked|)))
  }

  /** A request gets the next callback number. A mode is refused while disarmed, unless it is forced; otherwise it ends
      the mode scheduled before, which is told so, and takes its place if the vehicle accepts it. Arming, disarming and
      the two waits succeed at once if there is nothing to wait for, are answered as the vehicle does if it refuses, and
      are the one wait otherwise. */
  lemma RequestAnswered(c: Config, s: Exec, request: Request)
    ensures var t := ExecStep(c, s, Client(request));
      && Serves(s, t, [request])
      && match request
         case Schedule(mode, forced, answer) => ModeAnswered(s, t, mode, forced, answer)
         case Arm(answer) => WaitAnswered(s, t, s.armed, answer, UntilArmed)
         case Disarm(answer) => WaitAnswered(s, t, !s.armed, answer, UntilDisarmed)
         case WaitReadyToArm => WaitAnswered(s, t, s.armed, Outcome.Success, UntilReady)
         case WaitUntilDisarmed => WaitAnswered(s, t, !s.armed, Outcome.Success, UntilDisarmed)
  {
    hide Serves, ModeAnswered, WaitAnswered, Wait, Call, CancelScheduled, Store, SameStanding;
    var u := s.(asked := s.asked + [request]);
    ServeServes(s, request);
    match request
    case Schedule(mode, forced, answer) => ModeServed(s, mode, forced, answer);
    case Arm(answer) => WaitTold(s, u, s.armed, answer, UntilArmed);
    case Disarm(answer) => WaitTold(s, u, !s.armed, answer, UntilDisarmed);
    case WaitReadyToArm => WaitTold(s, u, s.armed, Outcome.Success, UntilReady);
    case WaitUntilDisarmed => WaitTold(s, u, !s.armed, Outcome.Success, UntilDisarmed);
  }

  lemma ModeServed(s: Exec, mode: nat, forced: bool, answer: Outcome)
    ensures ModeAnswered(s, Serve(s, Schedule(mode, forced, answer)), mode, forced, answer)
  {
    hide TellsNow, Call, SameStanding;
    var u := s.(asked := s.asked + [Schedule(mode, forced, answer)]);
    CallTold(s, u, [], |s.asked|, Rejected);
    CallTold(s, CancelScheduled(u), Cancellation(s), |s.asked|, answer);
  }

  lemma WaitTold(s: Exec, u: Exec, met: bool, answer: Outcome, condition: Condition)
    requires u == s.(asked := u.asked)
    ensures WaitAnswered(s, Wait(u, met, answer, condition, |s.asked|), met, answer, condition)
  {
    hide TellsNow, Call, SameStanding;
    CallTold(s, u, [], |s.asked|, Outcome.Success);
    CallTold(s, u, [], |s.asked|, answer);
  }

  lemma CallTold(s: Exec, u: Exec, before: seq<ExecEvent>, callback: nat, result: Outcome)
    requires u.trace == s.trace + before && u.moves == s.moves
    ensures TellsNow(s, Call(u, callback, result), before, callback, result)
    ensures s.moves == [] ==> SamePlaces(u, Call(u, callback, result))
  {
    var told := Noted(u, Called(callback, result));
    TurnServes(told);
  }

  /** The completion of the scheduled mode is told to its callback, with the result of the message and before anything
      else; any other completion is ignored. */
  lemma CompletionTold(c: Config, s: Exec, navState: nat, result: Outcome)
    ensures var t := ExecStep(c, s, Finished(navState, result));
      if s.scheduled.Some? && s.scheduled.value.mode == navState then
        && TellsNow(s, t, [], s.scheduled.value.callback, result)
        && (s.moves == [] ==> t == s.(scheduled := None, trace := t.trace))
      else t == s
  {
    hide TellsNow, Turn;
    if s.scheduled.Some? && s.scheduled.value.mode == navState {
      assert s.trace + [] == s.trace;
      CallTold(s, s.(scheduled := None), [], s.scheduled.value.callback, result);
      if s.moves == [] {
        QuietTurn(Noted(s.(scheduled := None), Called(s.scheduled.value.callback, result)));
      }
    }
  }

  lemma QuietTurn(s: Exec)
    requires s.moves == []
    ensures Turn(s) == s
  {
  }

  /** Before the first message the vehicle counts as disarmed: a mode that is not forced is rejected, and disarming
      succeeds at once; and nothing is out of order. */
  lemma FirstRequests(c: Config, mode: Modes.ModeState, id: nat, answer: Outcome)
    ensures var s := FreshExec(mode, []);
      && ExecStep(c, s, Client(Schedule(id, false, answer))).trace == [Called(0, Rejected)]
      && ExecStep(c, s, Client(Disarm(answer))).trace == [Called(0, Outcome.Success)]
      && !s.broken
  {
    hide ExecStep, Serves, SamePlaces;
    RequestAnswered(c, FreshExec(mode, []), Schedule(id, false, answer));
    RequestAnswered(c, FreshExec(mode, []), Disarm(answer));
  }
}
