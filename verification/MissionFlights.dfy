/** The flight in the state of the mission executor is the trajectory executor seen from there: the same trajectory at
    the same index, which installs, advances, fails and reports at the same time. */
module MissionFlights {
  import opened Wrappers
  import opened Missions
  import opened MissionTypes
  import opened MissionSteps
  import Segments
  import Trajectories

  /** The flight shows the trajectory that is current, and where it is. */
  ghost predicate Shows(f: Flight, p: Trajectories.Progress) {
    && f.target == p.index
    && (p.index.Some? ==>
          p.installed != [] && p.Current() == Trajectories.Trajectory(f.items, p.Current().start, f.end, f.stopAtEnd))
  }

  lemma InstallsAlike(c: Setup, s: State, p: Trajectories.Progress, items: seq<MissionItem>, start: int, end: int,
                      report: IndexCallback, stop: bool)
    requires s.active
    ensures var t := RunTrajectoryStep(c, s, items, start, end, report, stop, Accepted);
      Shows(t.control.flight, Trajectories.Installed(p, Trajectories.Trajectory(items, start, end, stop)))
  {
    hide KeepsStore, KeepsSegment, StartsNoSettings, SamePlace;
  }

  /** The trajectories of the mission and of client code keep what the trajectory executor asks of its caller. */
  lemma KeepsPromise(items: seq<MissionItem>, start: nat, stop: bool)
    requires start < |items|
    ensures Trajectories.Trajectory(items, start, Segments.SegmentEnd(items, start), stop).Valid()
    ensures Trajectories.Trajectory(items, 0, |items| - 1, stop).Valid()
  {
  }

  lemma AdvancesAlike(s: State, p: Trajectories.Progress)
    requires Shows(s.control.flight, p) && p.index.Some?
    ensures Shows(HeadOn(s.control, p.index.value).flight, Trajectories.Advanced(p))
  {
  }

  /** One update, with a callback that installs nothing by itself: both stay where they are, both fail, or both advance
      and report the same index. */
  lemma UpdatesAlike(c: Setup, s: State, p: Trajectories.Progress, radius: real, distance: Option<real>)
    requires s.itemState.Trajectory?
    requires Shows(s.control.flight, p) && p.InBounds() && p.moves == []
    ensures var q := Trajectories.Updated(p, radius, distance);
      var reached := p.index.Some? && distance.Some? && distance.value < Trajectories.AcceptanceRadius(p, radius);
      var t := UpdateSetpointStep(c, s, distance.Some?, reached);
      || (q == p && t == s)
      || (p.index.Some? && q == Trajectories.Aborted(p) && t == StartAbort(s, "trajectoryFailure"))
      || (p.index.Some? && q == Trajectories.Advanced(p) && t == ReachIndex(s, p.index.value)
          && Shows(t.control.flight, q))
  {
    hide StartAbort, ReachIndex, HeadOn, KeepsStore, StartsNoSettings;
    if p.index.Some? {
      AdvancesAlike(s, p);
      assert ReachIndex(s, p.index.value).control.flight == HeadOn(s.control, p.index.value).flight by {
        hide ReachIndex;
        ReachIndexControl(s, p.index.value);
      }
    }
  }
}
