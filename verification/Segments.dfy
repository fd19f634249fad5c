/** Splitting a mission into trajectory segments. */
module Segments {
  import opened JsonValues
  import opened Missions
  import opened MissionTypes

  /** Whether an item is an action that is known and asks to stop at the waypoint before it. */
  predicate AsksToStop(c: Setup, item: MissionItem) {
    item.ActionItem? && item.name in c.actions && c.actions[item.name].ShouldStopAtWaypoint(item.arguments)
  }

  /** The last index of the run of navigation items that `start` belongs to. */
  function SegmentEnd(items: seq<MissionItem>, start: nat): (end: nat)
    requires start < |items|
    ensures start <= end < |items|
    decreases |items| - start
  {
    if start + 1 < |items| && items[start + 1].NavigationItem? then SegmentEnd(items, start + 1) else start
  }

  /** The index after the block of consecutive actions that starts at `from`. */
  function ActionsEnd(items: seq<MissionItem>, from: nat): (end: nat)
    requires from <= |items|
    ensures from <= end <= |items|
    decreases |items| - from
  {
    if from < |items| && items[from].ActionItem? then ActionsEnd(items, from + 1) else from
  }

  ghost predicate StopsAt(c: Setup, items: seq<MissionItem>, end: nat)
    requires end < |items|
  {
    end == |items| - 1 || exists i :: end < i < ActionsEnd(items, end + 1) && AsksToStop(c, items[i])
  }

  /** The segment is the longest run of navigation items: it consists of them and cannot be extended. */
  lemma {:induction false} SegmentIsMaximal(items: seq<MissionItem>, start: nat)
    requires start < |items| && items[start].NavigationItem?
    ensures forall i :: start <= i <= SegmentEnd(items, start) ==> items[i].NavigationItem?
    ensures SegmentEnd(items, start) + 1 < |items| ==> items[SegmentEnd(items, start) + 1].ActionItem?
    decreases |items| - start
  {
    if start + 1 < |items| && items[start + 1].NavigationItem? {
      SegmentIsMaximal(items, start + 1);
    }
  }

  lemma {:induction false} SegmentSuffix(items: seq<MissionItem>, start: nat, i: nat)
    requires start <= i < |items|
    requires forall k :: start < k <= i ==> items[k].NavigationItem?
    ensures SegmentEnd(items, i) == SegmentEnd(items, start)
    decreases i - start
  {
    if start < i {
      SegmentSuffix(items, start + 1, i);
    }
  }

  lemma {:induction false} ActionsAreActions(items: seq<MissionItem>, from: nat)
    requires from <= |items|
    ensures forall i :: from <= i < ActionsEnd(items, from) ==> items[i].ActionItem?
    ensures ActionsEnd(items, from) < |items| ==> items[ActionsEnd(items, from)].NavigationItem?
    decreases |items| - from
  {
    if from < |items| && items[from].ActionItem? {
      ActionsAreActions(items, from + 1);
    }
  }

  lemma {:induction false} ActionsEndUnique(items: seq<MissionItem>, from: nat, end: nat)
    requires from <= end <= |items|
    requires forall i :: from <= i < end ==> items[i].ActionItem?
    requires end < |items| ==> items[end].NavigationItem?
    ensures ActionsEnd(items, from) == end
    decreases end - from
  {
    if from < end {
      ActionsEndUnique(items, from + 1, end);
    }
  }

  method GetNextTrajectorySegment(c: Setup, items: seq<MissionItem>, start: nat) returns (end: nat, stop: bool)
    requires start < |items|
    ensures end == SegmentEnd(items, start)
    ensures stop <==> StopsAt(c, items, end)
  {
    end, stop := start, false;
    while end < |items| - 1
      invariant start <= end < |items| && SegmentEnd(items, end) == SegmentEnd(items, start)
      invariant !stop
    {
      if items[end + 1].ActionItem? {
        var index := end + 1;
        while index < |items| && items[index].ActionItem?
          invariant end < index <= |items|
          invariant forall i :: end < i < index ==> items[i].ActionItem?
          invariant stop <==> exists i :: end < i < index && AsksToStop(c, items[i])
        {
          if AsksToStop(c, items[index]) {
            stop := true;
          }
          index := index + 1;
        }
        ActionsEndUnique(items, end + 1, index);
        break;
      }
      end := end + 1;
    }
    if end == |items| - 1 {
      stop := true;
    }
  }

  /** The stop flag as a function, for the transitions of the executor. */
  function AnyAsksToStop(c: Setup, items: seq<MissionItem>, from: nat): bool
    requires from <= |items|
    decreases |items| - from
  {
    from < |items| && items[from].ActionItem? && (AsksToStop(c, items[from]) || AnyAsksToStop(c, items, from + 1))
  }

  function SegmentStop(c: Setup, items: seq<MissionItem>, end: nat): bool
    requires end < |items|
  {
    end == |items| - 1 || AnyAsksToStop(c, items, end + 1)
  }

  lemma {:induction false} AnyAsksToStopMeaning(c: Setup, items: seq<MissionItem>, from: nat)
    requires from <= |items|
    ensures AnyAsksToStop(c, items, from) <==>
      exists i :: from <= i < ActionsEnd(items, from) && AsksToStop(c, items[i])
    decreases |items| - from
  {
    if from < |items| && items[from].ActionItem? {
      AnyAsksToStopMeaning(c, items, from + 1);
      if AsksToStop(c, items[from]) {
        assert from < ActionsEnd(items, from);
      }
    }
  }

  lemma SegmentStopMeaning(c: Setup, items: seq<MissionItem>, end: nat)
    requires end < |items|
    ensures SegmentStop(c, items, end) <==> StopsAt(c, items, end)
  {
    AnyAsksToStopMeaning(c, items, end + 1);
  }

  /** The actions to stop for: all of the default ones but the return and a change of settings, and of the client's own
      those that say so. */
  predicate StopsFor(kind: ActionKind, arguments: Json) {
    || kind.Takeoff? || kind.Land? || kind.Hold? || kind.OnFailure? || kind.OnResume?
    || (kind.Custom? && kind.stopsAtWaypoint(arguments))
  }

  /** A segment ends with a stop exactly at the end of the mission, or if one of the actions that come before the next
      waypoint is to be stopped for. */
  lemma SegmentStopsIff(c: Setup, items: seq<MissionItem>, end: nat)
    requires end < |items|
    ensures SegmentStop(c, items, end)
       <==> || end + 1 == |items|
            || exists i: nat ::
                 && end < i < |items| && (forall k: nat :: end < k <= i ==> items[k].ActionItem?)
                 && items[i].name in c.actions && StopsFor(c.actions[items[i].name], items[i].arguments)
  {
    hide AnyAsksToStop, ActionsEnd;
    SegmentStopMeaning(c, items, end);
    ActionsAreActions(items, end + 1);
    var next := ActionsEnd(items, end + 1);
    if i: nat :|
      && end < i < |items| && (forall k: nat :: end < k <= i ==> items[k].ActionItem?)
      && AsksToStop(c, items[i])
    {
      assert i < next;
    }
  }
}
