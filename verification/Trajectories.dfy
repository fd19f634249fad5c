/** The waypoint trajectory executor. The callback that it reports to may install another trajectory while it is being
    called; what it does is a sequence of moves that is fixed in advance, and every sequence is considered. */
module Trajectories {
  import opened Wrappers
  import opened Missions

  datatype Trajectory = Trajectory(items: seq<MissionItem>, start: int, end: int, stopAtLast: bool)
  {
    /** What the caller of `runTrajectory` promises. */
    predicate Valid() {
      0 <= start <= end < |items|
    }
  }

  /** What a callback does before it returns. */
  datatype Move = Install(trajectory: Trajectory) | Return

  datatype Report = Reached(trajectory: nat, index: int) | Failed(trajectory: nat)

  /** Trajectories are numbered in the order in which they were installed; the last one is current. */
  datatype Progress = Progress(installed: seq<Trajectory>, index: Option<int>, reports: seq<Report>, moves: seq<Move>)
  {
    function Current(): Trajectory
      requires installed != []
    {
      installed[|installed| - 1]
    }
    predicate InBounds() {
      index.Some? ==> installed != [] && 0 <= index.value < |Current().items|
    }
  }

  function Started(moves: seq<Move>): Progress {
    Progress([], None, [], moves)
  }

  ghost predicate ValidMoves(moves: seq<Move>) {
    forall i :: 0 <= i < |moves| && moves[i].Install? ==> moves[i].trajectory.Valid()
  }

  // ---- Transitions ----

  function Installed(p: Progress, t: Trajectory): Progress {
    p.(installed := p.installed + [t], index := Some(t.start))
  }

  /** The callback runs until it returns. */
  function Turn(p: Progress): Progress
    decreases |p.moves|
  {
    if p.moves == [] then p
    else
      var rest := p.(moves := p.moves[1..]);
      match p.moves[0]
      case Return => rest
      case Install(t) => Turn(Installed(rest, t))
  }

  function Advanced(p: Progress): Progress
    requires p.index.Some? && p.installed != []
  {
    var reached := p.index.value;
    p.(index := if reached + 1 > p.Current().end then None else Some(reached + 1),
       reports := p.reports + [Reached(|p.installed| - 1, reached)])
  }

  function Aborted(p: Progress): Progress
    requires p.installed != []
  {
    p.(reports := p.reports + [Failed(|p.installed| - 1)])
  }

  /** The callback is called last, as it may install a trajectory. */
  function Continued(p: Progress): Progress
    requires p.index.Some? && p.installed != []
  {
    Turn(Advanced(p))
  }

  /** The vehicle has to come closer to a waypoint where it stops. */
  function AcceptanceRadius(p: Progress, radius: real): real
    requires p.index.Some? && p.installed != []
  {
    if p.index.value == p.Current().end && p.Current().stopAtLast then radius / 2.0 else radius
  }

  /** `distance` is the distance to the waypoint, if the position is valid. */
  function Updated(p: Progress, radius: real, distance: Option<real>): Progress
    requires p.InBounds()
  {
    if p.index.None? then p
    else if p.Current().items[p.index.value].ActionItem? then Continued(p)
    else match distance
      case None => Turn(Aborted(p))
      case Some(d) => if d < AcceptanceRadius(p, radius) then Continued(p) else p
  }

  // ---- Progress in order ----

  /** The indices that a trajectory has reported. */
  function Indices(reports: seq<Report>, trajectory: nat): seq<int> {
    if reports == [] then []
    else
      var last := reports[|reports| - 1];
      Indices(reports[..|reports| - 1], trajectory) + if last.Reached? && last.trajectory == trajectory then
        [last.index] else []
  }

  function From(start: int, n: nat): seq<int> {
    seq(n, i => start + i)
  }

  /** Each trajectory has reported start, start + 1, ... up to where it is; the current one goes on from there, or has
      reported its end. */
  ghost predicate InOrder(p: Progress) {
    && (forall t: nat :: t < |p.installed| ==>
          var n := |Indices(p.reports, t)|;
          p.installed[t].Valid() && n <= p.installed[t].end - p.installed[t].start + 1
          && Indices(p.reports, t) == From(p.installed[t].start, n))
    && (forall t: nat :: t >= |p.installed| ==> Indices(p.reports, t) == [])
    && (p.installed == [] ==> p.index.None?)
    && (p.installed != [] ==>
          var t, n := p.Current(), |Indices(p.reports, |p.installed| - 1)|;
          match p.index
          case Some(i) => i == t.start + n && i <= t.end
          case None => n == t.end - t.start + 1)
  }

  lemma ReportIndices(reports: seq<Report>, r: Report, t: nat)
    ensures Indices(reports + [r], t) == Indices(reports, t) + if r.Reached? && r.trajectory == t then [r.index] else []
  {
    assert (reports + [r])[..|reports|] == reports;
  }

  lemma InstalledInOrder(p: Progress, t: Trajectory)
    requires InOrder(p) && t.Valid()
    ensures InOrder(Installed(p, t))
  {
    assert From(t.start, 0) == [];
  }

  lemma {:induction false} TurnInOrder(p: Progress)
    requires InOrder(p) && ValidMoves(p.moves)
    ensures InOrder(Turn(p)) && ValidMoves(Turn(p).moves) && Turn(p).reports == p.reports
    ensures p.installed <= Turn(p).installed
    ensures Turn(p).installed != p.installed ==> Turn(p).index == Some(Turn(p).Current().start)
    ensures Turn(p).installed == p.installed ==> Turn(p).index == p.index
    decreases |p.moves|
  {
    hide InOrder;
    if p.moves != [] {
      var rest := p.(moves := p.moves[1..]);
      MovesInOrder(p, rest);
      if p.moves[0].Install? {
        InstalledInOrder(rest, p.moves[0].trajectory);
        TurnInOrder(Installed(rest, p.moves[0].trajectory));
      }
    }
  }

  lemma MovesInOrder(p: Progress, q: Progress)
    requires InOrder(p) && q == p.(moves := q.moves)
    ensures InOrder(q)
  {
  }

  lemma ReportedInOrder(p: Progress)
    requires InOrder(p) && p.index.Some?
    ensures p.installed != [] && InOrder(Advanced(p))
  {
    var reached, last := p.index.value, |p.installed| - 1;
    forall t: nat
      ensures Indices(p.reports + [Reached(last, reached)], t) == Indices(p.reports, t) +
        if t == last then [reached] else []
    {
      ReportIndices(p.reports, Reached(last, reached), t);
    }
  }

  lemma FailedInOrder(p: Progress)
    requires InOrder(p) && p.installed != []
    ensures InOrder(Aborted(p))
  {
    hide From;
    forall t: nat
      ensures Indices(Aborted(p).reports, t) == Indices(p.reports, t)
    {
      ReportIndices(p.reports, Failed(|p.installed| - 1), t);
      assert Indices(p.reports, t) + [] == Indices(p.reports, t);
    }
  }

  lemma StaysInBounds(p: Progress)
    requires InOrder(p)
    ensures p.InBounds()
  {
    if p.installed != [] {
      assert p.installed[|p.installed| - 1].Valid();
    }
  }

  /** One update: a trajectory that the callback has installed is left where it starts. */
  lemma UpdateInOrder(p: Progress, radius: real, distance: Option<real>)
    requires InOrder(p) && ValidMoves(p.moves)
    ensures p.InBounds()
    ensures var q := Updated(p, radius, distance);
      && InOrder(q) && ValidMoves(q.moves)
      && (q.installed != p.installed ==> q.installed != [] && q.index == Some(q.Current().start))
      && |q.reports| <= |p.reports| + 1
  {
    hide InOrder, Turn, Advanced, Aborted;
    StaysInBounds(p);
    if p.index.Some? {
      ReportedInOrder(p);
      ReportsGrow(p);
      TurnInOrder(Advanced(p));
      FailedInOrder(p);
      TurnInOrder(Aborted(p));
    }
  }

  lemma ReportsGrow(p: Progress)
    requires p.index.Some? && p.installed != []
    ensures |Advanced(p).reports| == |p.reports| + 1 == |Aborted(p).reports|
    ensures Advanced(p).installed == p.installed == Aborted(p).installed
    ensures Advanced(p).moves == p.moves == Aborted(p).moves
  {
  }

  // ---- What an update does ----

  /** How many moves the next turn takes: up to the first return. */
  function TurnLength(moves: seq<Move>): (n: nat)
    ensures n <= |moves|
  {
    if moves == [] then 0 else if moves[0].Return? then 1 else 1 + TurnLength(moves[1..])
  }

  function Installs(moves: seq<Move>): seq<Trajectory> {
    if moves == [] then []
    else (if moves[0].Install? then [moves[0].trajectory] else []) + Installs(moves[1..])
  }

  /** A turn installs what the callback asks for, in order; the last one is current, at its start. */
  lemma {:induction false} TurnInstalls(p: Progress)
    ensures var q, played := Turn(p), p.moves[..TurnLength(p.moves)];
      && q.installed == p.installed + Installs(played)
      && q.index == (if Installs(played) == [] then p.index else Some(q.installed[|q.installed| - 1].start))
      && q.reports == p.reports && q.moves == p.moves[|played|..]
    decreases |p.moves|
  {
    if p.moves != [] {
      var rest, played := p.(moves := p.moves[1..]), p.moves[..TurnLength(p.moves)];
      if p.moves[0].Return? {
        assert played[1..] == [];
      } else {
        var next := Installed(rest, p.moves[0].trajectory);
        var k := TurnLength(next.moves);
        assert TurnLength(p.moves) == 1 + k;
        assert played[1..] == p.moves[..1 + k][1..] == p.moves[1..][..k];
        TurnInstalls(next);
      }
    }
  }

  /** The waypoint counts as reached within the radius, or within half of it where the vehicle stops; an item that is
      not a waypoint counts as reached at once. */
  predicate IsReached(p: Progress, radius: real, distance: Option<real>)
    requires p.InBounds() && p.index.Some?
  {
    || p.Current().items[p.index.value].ActionItem?
    || match distance
       case None => false
       case Some(d) =>
         if p.Current().stopAtLast && p.index.value == p.Current().end then 2.0 * d < radius else d < radius
  }

  datatype Input = Update(radius: real, distance: Option<real>) | Run(trajectory: Trajectory)

  function Step(p: Progress, i: Input): Progress {
    match i
    case Update(radius, distance) => if p.InBounds() then Updated(p, radius, distance) else p
    case Run(t) => Installed(p, t)
  }

  function Steps(p: Progress, inputs: seq<Input>): Progress {
    if inputs == [] then p else Step(Steps(p, inputs[..|inputs| - 1]), inputs[|inputs| - 1])
  }

  /** What an update reports, and where it goes on: nothing and nowhere without a trajectory, or while the waypoint is
      not reached; its failure without a position; and otherwise the index that is reached, with the next one up to the
      end as the new one. Only a report gives the callback a turn. */
  ghost predicate Reports(p: Progress, q: Progress, radius: real, distance: Option<real>)
    requires p.InBounds()
  {
    var played := p.moves[..TurnLength(p.moves)];
    if p.index.None? then q == p
    else if IsReached(p, radius, distance) then
      && q.reports == p.reports + [Reached(|p.installed| - 1, p.index.value)]
      && q.installed == p.installed + Installs(played) && q.moves == p.moves[|played|..]
      && (Installs(played) == [] ==>
            q.index == if p.index.value >= p.Current().end then None else Some(p.index.value + 1))
    else if distance.None? then
      && q.reports == p.reports + [Failed(|p.installed| - 1)]
      && q.installed == p.installed + Installs(played) && q.moves == p.moves[|played|..]
      && (Installs(played) == [] ==> q.index == p.index)
    else q == p
  }

  lemma UpdatedReports(p: Progress, radius: real, distance: Option<real>)
    requires p.InBounds()
    ensures Reports(p, Updated(p, radius, distance), radius, distance)
  {
    hide Turn, TurnLength, Installs;
    if p.index.Some? {
      TurnInstalls(Advanced(p));
      TurnInstalls(Aborted(p));
    }
  }

  /** So after any run. */
  lemma UpdateReports(start: Progress, inputs: seq<Input>, radius: real, distance: Option<real>)
    requires Steps(start, inputs).InBounds()
    ensures Reports(Steps(start, inputs), Steps(start, inputs + [Update(radius, distance)]), radius, distance)
  {
    hide Reports, Updated, Progress.InBounds;
    var all := inputs + [Update(radius, distance)];
    assert all[..|all| - 1] == inputs;
    UpdatedReports(Steps(start, inputs), radius, distance);
  }

  /** A trajectory that is run is the current one, at its start, after any run. */
  lemma RunInstalls(start: Progress, inputs: seq<Input>, t: Trajectory)
    ensures var p, q := Steps(start, inputs), Steps(start, inputs + [Run(t)]);
      q == p.(installed := p.installed + [t], index := Some(t.start))
  {
    var all := inputs + [Run(t)];
    assert all[..|all| - 1] == inputs;
  }

  /** Over every run the current index is in bounds, and every trajectory reports its indices in order, each once, and
      never one beyond its end. */
  lemma {:induction false} ProgressInOrder(moves: seq<Move>, inputs: seq<Input>)
    requires ValidMoves(moves)
    requires forall i :: 0 <= i < |inputs| && inputs[i].Run? ==> inputs[i].trajectory.Valid()
    ensures var p := Steps(Started(moves), inputs); InOrder(p) && ValidMoves(p.moves) && p.InBounds()
  {
    hide InOrder;
    if inputs == [] {
      StartedInOrder(moves);
    } else {
      var p, last := Steps(Started(moves), inputs[..|inputs| - 1]), inputs[|inputs| - 1];
      ProgressInOrder(moves, inputs[..|inputs| - 1]);
      match last
      case Update(radius, distance) => UpdateInOrder(p, radius, distance);
      case Run(t) => InstalledInOrder(p, t);
    }
    StaysInBounds(Steps(Started(moves), inputs));
  }

  lemma StartedInOrder(moves: seq<Move>)
    ensures InOrder(Started(moves)) && Started(moves).InBounds()
  {
  }

  // ---- The executor object ----

  class WaypointTrajectoryExecutor {
    var currentTrajectory: Option<Trajectory>
    var currentIndex: Option<int>
    var moves: seq<Move>
    var reports: seq<Report>
    ghost var installed: seq<Trajectory>
    var count: nat

    ghost predicate Valid()
      reads this
    {
      && count == |installed|
      && currentTrajectory == (if installed == [] then None else Some(installed[|installed| - 1]))
      && InOrder(View()) && ValidMoves(moves)
    }

    ghost function View(): Progress
      reads this
    {
      Progress(installed, currentIndex, reports, moves)
    }

    constructor (moves: seq<Move>)
      requires ValidMoves(moves)
      ensures Valid() && View() == Started(moves)
    {
      currentTrajectory, currentIndex := None, None;
      this.moves, reports, installed, count := moves, [], [], 0;
      new;
      StartedInOrder(moves);
    }

    method RunTrajectory(t: Trajectory)
      requires Valid() && t.Valid()
      modifies this
      ensures Valid() && View() == Installed(old(View()), t)
    {
      InstalledInOrder(View(), t);
      installed, count := installed + [t], count + 1;
      currentTrajectory := Some(t);
      currentIndex := Some(t.start);
    }

    /** The callback runs until it returns. */
    method CallbackTurn()
      requires Valid()
      modifies this
      ensures Valid() && View() == Turn(old(View()))
      decreases |moves|
    {
      hide InOrder;
      if moves == [] {
        return;
      }
      var move := moves[0];
      MovesInOrder(View(), View().(moves := moves[1..]));
      moves := moves[1..];
      match move
      case Return =>
      case Install(t) =>
        RunTrajectory(t);
        CallbackTurn();
    }

    method ContinueNextItem()
      requires Valid() && currentIndex.Some?
      modifies this
      ensures Valid() && View() == Continued(old(View()))
    {
      hide InOrder;
      ReportedInOrder(View());
      var indexReached := currentIndex.value;
      currentIndex := Some(currentIndex.value + 1);
      if currentIndex.value > currentTrajectory.value.end {
        currentIndex := None;
      }
      reports := reports + [Reached(count - 1, indexReached)];
      CallbackTurn();
    }

    method UpdateSetpoint(radius: real, distance: Option<real>)
      requires Valid()
      modifies this
      ensures Valid() && old(View()).InBounds() && View() == Updated(old(View()), radius, distance)
    {
      hide InOrder, Turn;
      StaysInBounds(View());
      if currentIndex.None? {
        return;
      }
      var t, index := currentTrajectory.value, currentIndex.value;
      if t.items[index].ActionItem? {
        ContinueNextItem();
        return;
      }
      if distance.None? {
        FailedInOrder(View());
        reports := reports + [Failed(count - 1)];
        CallbackTurn();
        return;
      }
      var acceptance := radius;
      if index == t.end && t.stopAtLast {
        acceptance := acceptance / 2.0;
      }
      if distance.value < acceptance {
        ContinueNextItem();
      }
    }
  }
}
