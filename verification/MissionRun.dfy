/** An uninterrupted run: the indices that are reported are 0, 1, ... in order, the segments flown are exactly the
    maximal runs of navigation items, and completion is reported once, after the last item. */
module MissionRun {
  import opened Wrappers
  import opened JsonValues
  import opened Missions
  import opened PersistentStates
  import opened MissionTypes
  import opened MissionSteps
  import opened MissionHandlers
  import opened MissionTokens
  import opened MissionIndex
  import opened MissionAbort
  import opened Segments
  import MissionSettings

  // ---- The segments of a mission ----

  /** The segments that start at or after an index. */
  function SegmentsFrom(items: seq<MissionItem>, from: nat): seq<(int, int)>
    requires from <= |items|
    decreases |items| - from
  {
    if from == |items| then []
    else if items[from].ActionItem? then SegmentsFrom(items, from + 1)
    else [(from, SegmentEnd(items, from))] + SegmentsFrom(items, SegmentEnd(items, from) + 1)
  }

  ghost predicate InSegment(segment: (int, int), i: int) {
    segment.0 <= i <= segment.1
  }

  /** In bounds and in order. */
  ghost predicate Ordered(items: seq<MissionItem>, from: int, ss: seq<(int, int)>) {
    && (forall k: nat :: k < |ss| ==> from <= ss[k].0 <= ss[k].1 < |items|)
    && (forall k: nat, l: nat :: k < l < |ss| ==> ss[k].1 < ss[l].0)
  }

  ghost predicate Covers(ss: seq<(int, int)>, i: int) {
    exists k: nat :: k < |ss| && InSegment(ss[k], i)
  }

  /** The segments cover the navigation items and nothing else. */
  ghost predicate CoversNavigation(items: seq<MissionItem>, from: int, ss: seq<(int, int)>) {
    forall i: nat :: from <= i < |items| ==> (Covers(ss, i) <==> items[i].NavigationItem?)
  }

  lemma ConsCovers(first: (int, int), rest: seq<(int, int)>, i: int)
    ensures Covers([first] + rest, i) <==> InSegment(first, i) || Covers(rest, i)
  {
    var ss := [first] + rest;
    if Covers(rest, i) {
      var k: nat :| k < |rest| && InSegment(rest[k], i);
      assert InSegment(ss[k + 1], i);
    }
    if InSegment(first, i) {
      assert InSegment(ss[0], i);
    }
    if Covers(ss, i) {
      var k: nat :| k < |ss| && InSegment(ss[k], i);
      assert k > 0 ==> ss[k] == rest[k - 1];
    }
  }

  lemma OrderedCovers(items: seq<MissionItem>, from: int, ss: seq<(int, int)>, i: int)
    requires Ordered(items, from, ss) && Covers(ss, i)
    ensures from <= i < |items|
  {
  }

  lemma {:induction false} SegmentsPartition(items: seq<MissionItem>, from: nat)
    requires from <= |items|
    ensures Ordered(items, from, SegmentsFrom(items, from)) && CoversNavigation(items, from, SegmentsFrom(items, from))
    decreases |items| - from
  {
    hide Covers;
    if from == |items| {
    } else if items[from].ActionItem? {
      SegmentsPartition(items, from + 1);
      if Covers(SegmentsFrom(items, from + 1), from) {
        OrderedCovers(items, from + 1, SegmentsFrom(items, from + 1), from);
      }
    } else {
      var end := SegmentEnd(items, from);
      var rest := SegmentsFrom(items, end + 1);
      SegmentsPartition(items, end + 1);
      SegmentIsMaximal(items, from);
      forall i: nat | from <= i < |items|
        ensures Covers(SegmentsFrom(items, from), i) <==> items[i].NavigationItem?
      {
        ConsCovers((from, end), rest, i);
        if i <= end && Covers(rest, i) {
          OrderedCovers(items, end + 1, rest, i);
        }
      }
    }
  }

  // ---- What has been reported and flown ----

  /** The reports up to an index: progress for each item, and completion past the last one. */
  function Reported(n: nat, index: nat): seq<Report>
    requires index <= n
  {
    seq(index + 1, i => if i < n then Progress(i) else Completed)
  }

  lemma ReportNext(n: nat, index: nat)
    requires index < n
    ensures Reported(n, index + 1) == Reported(n, index) + [if index + 1 < n then Progress(index + 1) else Completed]
  {
  }

  ghost predicate HasStart(stack: seq<Frame>) {
    exists i: nat :: i < |stack| && (stack[i].StartItem? || stack[i].Activated?)
  }

  predicate SegmentLive(k: Control) {
    k.flight.target.Some? && k.flight.report.SegmentStep? && k.flight.report.handler == k.handler
  }

  /** At item `i`, with the segments before `next` flown or in flight. */
  ghost predicate RunningAt(s: State, base: State, i: nat, next: nat) {
    && s.active && s.mission == base.mission
    && s.persistent.currentIndex == Some(i) && i <= |s.mission.items| && next <= |s.mission.items|
    && s.reports == base.reports + Reported(|s.mission.items|, i)
    && s.segments + SegmentsFrom(s.mission.items, next) == base.segments + SegmentsFrom(s.mission.items, 0)
    && (i == |s.mission.items| || HasStart(s.control.stack) ==> next == i)
    && (Count(s.control, Resting) > 0 ==> i < |s.mission.items| && s.mission.items[i].ActionItem? && next == i + 1)
    && (SegmentLive(s.control) ==> s.control.flight.target == Some(i) && next == s.control.flight.end + 1)
  }

  /** Still at item `i`, or at the next one. */
  ghost predicate Onward(s: State, base: State, i: nat) {
    exists j: nat, next: nat :: i <= j <= i + 1 && RunningAt(s, base, j, next)
  }

  /** A client, or the resume action, may change the index. */
  predicate Jumps(c: Setup, s: State, l: Label) {
    || (l.User? && l.command.SetIndex?)
    || match s.control.Top()
       case Perform(name, _, _) => name in c.actions && c.actions[name].OnResume?
       case Invoke(closure) => closure.ResumeDone?
       case _ => false
  }

  /** No abort, no deactivation, no change of the index by a client or a resume action. */
  ghost predicate Steady(c: Setup, s: State, l: Label) {
    && !s.crashed && !Step(c, s, l).crashed && !Jumps(c, s, l)
    && Step(c, s, l).control.handler == s.control.handler
  }

  // ---- Steps that neither start an item nor move the index ----

  /** Nothing moves: at most the continuation that is there is dropped or handed on. */
  ghost predicate Idles(s: State, t: State) {
    && SamePlace(s, t) && KeepsSegment(s, t) && t.control.handler == s.control.handler
    && Count(t.control, Resting) <= Count(s.control, Resting)
    && (HasStart(t.control.stack) ==> HasStart(s.control.stack))
  }

  lemma IdlesOnward(s: State, t: State, base: State, i: nat, next: nat)
    requires RunningAt(s, base, i, next) && Idles(s, t)
    ensures Onward(t, base, i)
  {
    hide Count, SegmentsFrom, Reported, HasStart;
    assert RunningAt(t, base, i, next);
  }

  /** Frames are replaced at the top, and nothing is started. */
  ghost predicate StartsNone(k: Control, l: Control) {
    var m := |k.stack| - 1;
    && 0 <= m <= |l.stack| && l.stack[..m] == k.stack[..m]
    && forall i: nat :: m <= i < |l.stack| ==> !l.stack[i].StartItem? && !l.stack[i].Activated?
  }

  lemma PrefixStarts(k: Control, l: Control)
    requires StartsNone(k, l)
    ensures HasStart(l.stack) ==> HasStart(k.stack)
  {
    if HasStart(l.stack) {
      var i: nat :| i < |l.stack| && (l.stack[i].StartItem? || l.stack[i].Activated?);
      assert k.stack[i] == k.stack[..|k.stack| - 1][i] == l.stack[..|k.stack| - 1][i];
    }
  }

  /** No continuation of the current item is new, and the handler stays. */
  ghost predicate Calmer(s: State, t: State) {
    t.control.handler == s.control.handler && Count(t.control, Resting) <= Count(s.control, Resting)
  }

  lemma PopsIdle(s: State, t: State)
    requires SamePlace(Popped(s), t) && KeepsSegment(Popped(s), t) && StartsNone(s.control, t.control) && Calmer(s, t)
    ensures Idles(s, t)
  {
    hide Count, HasStart;
    PrefixStarts(s.control, t.control);
  }

  // ---- Steps of the run ----

  lemma OpensNone(m: Control, l: Control, k: Control)
    requires Extends(m, l) && Advances(m, l) && l.handler == m.handler && k.stack != [] && m.stack == k.Popped().stack
    ensures StartsNone(k, l)
  {
    hide Count, Aborted;
  }

  lemma InvokeIdles(c: Setup, s: State, t: State, closure: Closure, answer: Answer)
    requires HandlersOk(c, s.control) && s.control.Top() == Invoke(closure) && Calmer(s, t)
    requires !closure.ResumeDone? && closure != ItemDone(s.control.handler)
    requires t == InvokeStep(c, Popped(s), closure, answer)
    ensures Idles(s, t)
  {
    hide SamePlace, KeepsSegment, Count, ClosuresCoherent, StackCoherent, HasStart, InvokeStep, Leads, Coherent,
      StartsNone, Calmer, Stale;
    assert t.control.handler == s.control.handler by { Calmly(s, t); }
    PopKeeps(c, s.control);
    TopCoherent(c, s.control);
    if closure.ItemDone? {
      StaleInvoke(c, Popped(s), closure, answer);
      SameItself(Popped(s));
    }
    InvokeLeads(c, Popped(s), All, closure, answer);
    LeadsOn(s.control.Popped(), t.control, All, Tok(All, s.control.handler, closure));
    OpensNone(s.control.Popped(), t.control, s.control);
    PopsIdle(s, t);
  }

  lemma Calmly(s: State, t: State)
    requires Calmer(s, t)
    ensures t.control.handler == s.control.handler
  {
  }

  lemma PerformIdles(c: Setup, s: State, t: State, name: string, arguments: Json, done: Closure, answer: Answer)
    requires HandlersOk(c, s.control) && s.control.Top() == Perform(name, arguments, done) && Calmer(s, t)
    requires name in c.actions ==> !c.actions[name].OnResume?
    requires t == PerformStep(c, Popped(s), name, arguments, done, answer)
    ensures Idles(s, t)
  {
    hide SamePlace, SameButIndex, KeepsSegment, Count, ClosuresCoherent, StackCoherent, HasStart, PerformStep, Leads,
      Coherent, StartsNone, Calmer, Stale;
    assert t.control.handler == s.control.handler by { Calmly(s, t); }
    PopKeeps(c, s.control);
    TopCoherent(c, s.control);
    PerformLeads(c, Popped(s), All, name, arguments, done, answer);
    LeadsOn(s.control.Popped(), t.control, All, Tok(All, s.control.handler, done));
    OpensNone(s.control.Popped(), t.control, s.control);
    PopsIdle(s, t);
  }

  lemma AbortMainIdles(c: Setup, s: State, t: State, reason: string)
    requires s.control.Top() == AbortMain(reason) && t == AbortMainStep(c, Popped(s), reason) && Calmer(s, t)
    ensures Idles(s, t)
  {
    hide SamePlace, KeepsSegment, Count, HasStart, AbortMainStep, FailureArguments;
    AbortMainControl(c, Popped(s), reason);
    PopsIdle(s, t);
  }

  lemma RestoreIdles(c: Setup, s: State, t: State, rest: seq<ActionState>, h: nat)
    requires s.control.Top() == Restore(rest, h) && t == RestoreStep(c, Popped(s), rest, h) && Calmer(s, t)
    ensures Idles(s, t)
  {
    hide SamePlace, KeepsSegment, Count, HasStart, KeepsStore;
    PopsIdle(s, t);
  }

  lemma ActivatedIdles(c: Setup, s: State, t: State, h: nat, fromBeginning: bool)
    requires s.control.Top() == Activated(h, fromBeginning) && Calmer(s, t)
    requires t == ActivatedStep(c, Popped(s), h, fromBeginning)
    ensures Idles(s, t)
  {
    hide ActivatedStep, Count, HasStart;
    TopStarts(s.control.stack);
  }

  lemma ReturnIdles(c: Setup, s: State, t: State, f: Frame)
    requires s.control.stack != [] && s.control.Top() == f && Calmer(s, t)
    requires !Calls(f) && !InClient(f) && !f.SaveState? && t == ReturnStep(c, Popped(s), f)
    ensures Idles(s, t)
  {
    hide SamePlace, KeepsSegment, Count, HasStart, ReturnStep;
    ReturnPlace(c, Popped(s), f);
    ReturnControl(c, Popped(s), f);
    PopsIdle(s, t);
  }

  lemma ReturnPlace(c: Setup, s: State, f: Frame)
    requires !Calls(f) && !InClient(f) && !f.SaveState?
    ensures SamePlace(s, ReturnStep(c, s, f))
  {
    hide DeactivateDefaults, EndAbort, FliesMission, KeepsSegment, SaveStep, SetTimer;
  }

  lemma SameItself(s: State)
    ensures SamePlace(s, s) && KeepsSegment(s, s)
  {
  }

  lemma PoppedIdles(s: State)
    requires s.control.stack != [] && Calmer(s, Popped(s))
    ensures Idles(s, Popped(s))
  {
    hide SamePlace, KeepsSegment, Count, HasStart;
    SameItself(Popped(s));
    PopsIdle(s, Popped(s));
  }

  lemma DropIdles(s: State, id: nat)
    requires Calmer(s, DropStep(s, id))
    ensures Idles(s, DropStep(s, id))
  {
    hide DropStep, Count, HasStart;
    DropControl(s, id);
  }

  lemma CommandIdles(c: Setup, s: State, t: State, run: nat, command: Command, answer: Answer)
    requires HandlersOk(c, s.control) && s.control.Top() == Client(run) && !command.SetIndex?
    requires t == CommandStep(c, s, run, command, answer) && Calmer(s, t)
    ensures Idles(s, t)
  {
    hide SamePlace, SameButIndex, KeepsSegment, Count, Leads, ClosuresCoherent, StackCoherent, CommandStep, Aborted,
      HasStart;
    if run >= |s.control.runs| {
      NoSuchRun(c, s, run, command, answer);
      SameItself(s);
    } else if command.Return? {
      ReturnPops(c, s, run, answer);
      PoppedIdles(s);
    } else {
      CommandLeads(c, s, All, run, command, answer);
      LeadsOn(s.control, t.control, All, 0);
      assert StartsNone(s.control, t.control) by {
        hide Count, Aborted;
        var n := |s.control.stack|;
        assert t.control.stack[n - 1] == t.control.stack[..n][n - 1] == Client(run);
        assert t.control.stack[..n - 1] == t.control.stack[..n][..n - 1];
      }
      PrefixStarts(s.control, t.control);
    }
  }

  // ---- Steps that start an item or move on ----

  lemma {:induction false} StartCounted(stack: seq<Frame>, i: nat)
    requires i < |stack| && (stack[i].StartItem? || stack[i].Activated?)
    ensures Starts(stack) >= 1
  {
    if i < |stack| - 1 {
      StartCounted(stack[..|stack| - 1], i);
    }
  }

  /** A continuation on top is the only one. */
  lemma OnlyOne(k: Control)
    requires k.stack != [] && Count(k, All) <= 1 && TokFrame(k.handler, All, k.Top()) >= 1
    ensures !HasStart(k.Popped().stack) && Count(k.Popped(), Resting) == 0
    ensures !SegmentLive(k)
  {
    PopCounts(k, All);
    var l := k.Popped();
    CountsMono(l, Resting);
    if HasStart(l.stack) {
      var i: nat :| i < |l.stack| && (l.stack[i].StartItem? || l.stack[i].Activated?);
      StartCounted(l.stack, i);
      StartsAreToks(l.handler, l.stack);
    }
  }

  /** The completion of the item: the next one is due. */
  lemma DoneRuns(s: State, t: State, base: State, i: nat, next: nat)
    requires Count(s.control, All) <= 1 && RunningAt(s, base, i, next)
    requires s.control.Top() == Invoke(ItemDone(s.control.handler)) && t == RunNextItem(Popped(s))
    ensures Onward(t, base, i)
  {
    hide Count, SegmentsFrom, HasStart, Reported, SegmentLive, KeepsStore, KeepsSegment;
    OnlyOne(s.control);
    PopCounts(s.control, Resting);
    PushCounts(s.control.Popped(), Resting, StartItem(false, s.control.handler));
    NextState(Popped(s), i);
    StaysDead(s.control, t.control);
    ReportNext(|s.mission.items|, i);
    assert RunningAt(t, base, i + 1, next);
  }

  lemma NextState(s: State, i: nat)
    requires s.persistent.currentIndex == Some(i)
    ensures var t := RunNextItem(s);
      && t.active == s.active && t.mission == s.mission && t.persistent.currentIndex == Some(i + 1)
      && t.segments == s.segments && t.control == s.control.Push(StartItem(false, s.control.handler))
      && t.reports == s.reports + [if i + 1 < |s.mission.items| then Progress(i + 1) else Completed]
  {
  }

  lemma StaysDead(k: Control, l: Control)
    requires !SegmentLive(k) && l.flight == k.flight && l.handler == k.handler
    ensures !SegmentLive(l)
  {
  }

  /** An action starts. */
  lemma ActionStarts(c: Setup, s: State, t: State, resuming: bool, answer: Answer, base: State, i: nat, next: nat)
    requires HandlersOk(c, s.control) && Count(s.control, All) <= 1 && RunningAt(s, base, i, next)
    requires s.control.Top().StartItem? && i < |s.mission.items| && s.mission.items[i].ActionItem?
    requires t == StartItemStep(c, Popped(s), resuming, answer) && t.control.handler == s.control.handler
    ensures Onward(t, base, i)
  {
    hide Count, HandlersOk, HasStart, StartItemStep, Reported, SegmentLive, KeepsStore;
    TopStarts(s.control.stack);
    OnlyOne(s.control);
    StartedStack(c, s, t, resuming, answer);
    ActionFlight(c, Popped(s), resuming, i, answer);
    StaysDead(s.control, t.control);
    assert RunningAt(t, base, i, i + 1);
  }

  lemma TopStarts(stack: seq<Frame>)
    requires stack != [] && (stack[|stack| - 1].StartItem? || stack[|stack| - 1].Activated?)
    ensures HasStart(stack)
  {
  }

  lemma StartedStack(c: Setup, s: State, t: State, resuming: bool, answer: Answer)
    requires HandlersOk(c, s.control) && s.control.stack != [] && !HasStart(s.control.Popped().stack)
    requires t == StartItemStep(c, Popped(s), resuming, answer) && t.control.handler == s.control.handler
    ensures !HasStart(t.control.stack)
  {
    hide Count, Leads, ClosuresCoherent, StackCoherent, StartItemStep, Aborted, KeepsStore, SamePlace;
    PopKeeps(c, s.control);
    StartItemLeads(c, Popped(s), All, resuming, answer);
    LeadsOn(Popped(s).control, t.control, All, 1);
    OpensNone(Popped(s).control, t.control, s.control);
    assert forall i: nat :: i < |s.control.stack| - 1 ==>
      t.control.stack[i] == t.control.stack[..|s.control.stack| - 1][i] == s.control.Popped().stack[i];
  }

  lemma ActionFlight(c: Setup, s: State, resuming: bool, i: nat, answer: Answer)
    requires s.persistent.currentIndex == Some(i) && i < |s.mission.items| && s.mission.items[i].ActionItem?
    ensures var t := StartItemStep(c, s, resuming, answer); SamePlace(s, t) && t.control.flight == s.control.flight
  {
    hide RunModeStep, RunActionStep, RunTrajectoryStep, SegmentEnd, SegmentStop, FliesMission, KeepsStore, KeepsSegment,
      StartsNoSettings;
    var item := s.mission.items[i];
    var given := if resuming then item.arguments.Put("internal:resuming", Bool(true)) else Success(item.arguments);
    if given.Success? {
      ActionKeepsFlight(c, s, item.name, given.value, ItemDone(s.control.handler));
    }
    SameFlies(s, StartItemStep(c, s, resuming, answer));
  }

  lemma SameFlies(s: State, t: State)
    ensures t.control.flight == s.control.flight ==> FliesMission(s, t)
  {
  }

  /** A segment takes off. */
  lemma SegmentFlight(c: Setup, s: State, resuming: bool, i: nat, answer: Answer)
    requires s.active
    requires s.persistent.currentIndex == Some(i) && i < |s.mission.items| && s.mission.items[i].NavigationItem?
    requires StartItemStep(c, s, resuming, answer).control.handler == s.control.handler
    ensures var t, end := StartItemStep(c, s, resuming, answer), SegmentEnd(s.mission.items, i);
      && SamePlace(s.(segments := t.segments), t) && t.segments == s.segments + [(i, end)]
      && t.control.flight.target == Some(i) && t.control.flight.end == end
  {
    hide SegmentEnd, SegmentStop, StartAbort, RunModeStep;
    var end := SegmentEnd(s.mission.items, i);
    var u := SetFlight(s.(segments := s.segments + [(i as int, end as int)]),
                       Flight(s.mission.items, s.options, end, SegmentStop(c, s.mission.items, end),
                         SegmentStep(s.control.handler, end), Some(i)));
    ModeFlight(u.Push(EnterTrajectory), c.ownMode, answer);
  }

  lemma ModeFlight(s: State, mode: nat, answer: Answer)
    ensures RunModeStep(s, mode, Nop, None, answer).control.flight == s.control.flight
    ensures RunModeStep(s, mode, Nop, None, answer).segments == s.segments
  {
    hide RunModeStep, FliesMission, KeepsStore, KeepsSegment, StartsNoSettings;
    ModeKeepsFlight(s, mode, answer);
  }

  lemma SegmentStarts(c: Setup, s: State, t: State, resuming: bool, answer: Answer, base: State, i: nat, next: nat)
    requires HandlersOk(c, s.control) && Count(s.control, All) <= 1 && RunningAt(s, base, i, next)
    requires s.control.Top().StartItem? && i < |s.mission.items| && s.mission.items[i].NavigationItem?
    requires t == StartItemStep(c, Popped(s), resuming, answer) && t.control.handler == s.control.handler
    ensures Onward(t, base, i)
  {
    hide Count, HandlersOk, HasStart, StartItemStep, Reported, Leads, SegmentEnd, KeepsStore, KeepsSegment,
      StartsNoSettings, StartsOnlyItem;
    TopStarts(s.control.stack);
    OnlyOne(s.control);
    StartedStack(c, s, t, resuming, answer);
    SegmentFlight(c, Popped(s), resuming, i, answer);
    PopKeeps(c, s.control);
    StartSegmentLeads(c, Popped(s), Resting, resuming, i, answer);
    LeadsOn(s.control.Popped(), t.control, Resting, 0);
    FlownFrom(s.mission.items, i);
    assert RunningAt(t, base, i, SegmentEnd(s.mission.items, i) + 1);
  }

  lemma FlownFrom(items: seq<MissionItem>, i: nat)
    requires i < |items| && items[i].NavigationItem?
    ensures i <= SegmentEnd(items, i) < |items|
    ensures SegmentsFrom(items, i) == [(i, SegmentEnd(items, i))] + SegmentsFrom(items, SegmentEnd(items, i) + 1)
  {
  }

  /** Past the last item nothing starts. */
  lemma EndIdles(c: Setup, s: State, t: State, resuming: bool, answer: Answer)
    requires s.control.Top().StartItem? && !AtItem(s) && Calmer(s, t)
    requires t == StartItemStep(c, Popped(s), resuming, answer)
    ensures Idles(s, t)
  {
    hide Count, HasStart, SamePlace, KeepsSegment, KeepsStore, RunModeStep, RunActionStep, RunTrajectoryStep;
    SameItself(Popped(s));
    TopStarts(s.control.stack);
    PoppedPlace(s, t);
  }

  lemma PoppedPlace(s: State, t: State)
    requires SamePlace(Popped(s), t) && KeepsSegment(Popped(s), t)
    ensures SamePlace(s, t) && KeepsSegment(s, t)
  {
  }

  // ---- Events ----

  lemma SegmentArrives(c: Setup, s: State, base: State, i: nat, next: nat)
    requires Placed(c, s) && RunningAt(s, base, i, next) && s.control.stack == [] && SegmentLive(s.control)
    ensures Onward(ReachIndex(s, i), base, i)
  {
    hide Count, Carries, ClosuresCoherent, StackCoherent, SegmentsFrom, Reported;
    var t := ReachIndex(s, i);
    FlightBounds(s, i);
    CountsMono(s.control, Resting);
    ReachIndexCarries(s, Resting, i);
    CarriesOn(s.control, t.control, Resting, 0);
    ArrivedState(s, i);
    ReportNext(|s.mission.items|, i);
    assert RunningAt(t, base, i + 1, next);
  }

  lemma ArrivedState(s: State, i: nat)
    requires OneValidHandler(s.control) && SegmentLive(s.control) && s.control.flight.target == Some(i)
    requires s.control.stack == [] && s.control.flight.report.end == s.control.flight.end
    ensures var t := ReachIndex(s, i);
      && t.active == s.active && t.mission == s.mission && t.segments == s.segments &&
         t.persistent.currentIndex == Some(i + 1)
      && t.reports == s.reports + [if i + 1 < |s.mission.items| then Progress(i + 1) else Completed]
      && t.control.flight == s.control.flight.(target := if i + 1 > s.control.flight.end then None else Some(i + 1))
      && t.control.handler == s.control.handler
      && (HasStart(t.control.stack) ==> i == s.control.flight.end)
  {
    hide KeepsStore, StartsNoSettings;
  }

  lemma OtherArrives(c: Setup, s: State, base: State, i: nat, next: nat, index: int)
    requires Placed(c, s) && RunningAt(s, base, i, next) && s.control.stack == [] && !SegmentLive(s.control)
    requires s.control.flight.target == Some(index)
    ensures Onward(ReachIndex(s, index), base, i)
  {
    hide Count, Carries, ClosuresCoherent, StackCoherent, SegmentsFrom, Reported;
    var t := ReachIndex(s, index);
    FlightBounds(s, index);
    ReachIndexCarries(s, Resting, index);
    CarriesOn(s.control, t.control, Resting, 0);
    OtherState(s, index);
    assert RunningAt(t, base, i, next);
  }

  lemma OtherState(s: State, index: int)
    requires OneValidHandler(s.control) && !SegmentLive(s.control) && s.control.flight.target == Some(index) &&
      s.control.stack == []
    ensures var t := ReachIndex(s, index);
      && t.active == s.active && t.mission == s.mission && t.segments == s.segments && t.reports == s.reports
      && t.persistent == s.persistent && !SegmentLive(t.control) && !HasStart(t.control.stack)
  {
    hide KeepsStore, StartsNoSettings;
  }

  lemma UpdateRuns(c: Setup, s: State, positionValid: bool, reached: bool, base: State, i: nat, next: nat)
    requires Placed(c, s) && RunningAt(s, base, i, next) && s.control.stack == []
    requires UpdateSetpointStep(c, s, positionValid, reached).control.handler == s.control.handler
    ensures Onward(UpdateSetpointStep(c, s, positionValid, reached), base, i)
  {
    hide Count, HandlersOk, StartAbort, ReachIndex, RunningAt;
    assert Onward(s, base, i);
    if s.itemState == Trajectory && s.control.flight.target.Some? {
      NeverOutside(c, s);
      var index := s.control.flight.target.value;
      if SegmentLive(s.control) {
        LiveTarget(s, base, i, next);
        SegmentArrives(c, s, base, i, next);
      } else {
        OtherArrives(c, s, base, i, next, index);
      }
    }
  }

  lemma LiveTarget(s: State, base: State, i: nat, next: nat)
    requires RunningAt(s, base, i, next) && SegmentLive(s.control)
    ensures s.control.flight.target == Some(i)
  {
    hide Count, SegmentsFrom, Reported;
  }

  /** Events that neither reach an index nor deactivate. */
  lemma EventIdles(c: Setup, s: State, event: Event, answer: Answer)
    requires Placed(c, s) && s.active && s.control.stack == [] && !event.UpdateSetpoint?
    requires ExternalStep(c, s, event, answer).control.handler == s.control.handler
    ensures var t := ExternalStep(c, s, event, answer);
      && SamePlace(s, t) && KeepsSegment(s, t) && !HasStart(t.control.stack)
  {
    hide Count, ClosuresCoherent, StackCoherent, SamePlace, KeepsSegment, StartAbort, FinishMode, FireTimer, OnActivate,
      OnDeactivate, UpdateSetpointStep, SetMissionStep, HasStart;
    SameItself(s);
    NoStart(s.control.stack);
    match event
    case SetMission(mission) => SetMissionActive(c, s, mission);
    case Deactivate => DeactivateCounts(c, s, All);
    case ModeFinished(outcome) =>
      assert !HasStart(FinishMode(s, outcome).control.stack) by {
        hide FinishMode, HasStart;
        MissionSettings.FinishFrames(s, outcome);
        NoStart(FinishMode(s, outcome).control.stack);
      }
    case TimerFired => FireStack(s);
    case ClientTurn(run) => PushedPlace(s, Client(run));
    case LandedChanged(landed) => LandedPlace(s, landed);
    case _ =>
  }

  lemma SetMissionActive(c: Setup, s: State, mission: Mission)
    requires s.active
    ensures SetMissionStep(c, s, mission) == s
  {
    hide LoadedState, Feasible;
  }

  lemma NoStart(stack: seq<Frame>)
    requires |stack| <= 1 && (stack != [] ==> stack[0].Invoke? || stack[0].Client?)
    ensures !HasStart(stack)
  {
  }

  lemma FireStack(s: State)
    requires s.control.stack == []
    ensures !HasStart(FireTimer(s).control.stack)
  {
    hide HasStart;
    NoStart(FireTimer(s).control.stack);
  }

  lemma PushedPlace(s: State, f: Frame)
    requires s.control.stack == [] && f.Client?
    ensures SamePlace(s, s.Push(f)) && KeepsSegment(s, s.Push(f)) && !HasStart(s.Push(f).control.stack) &&
      !HasStart(s.control.stack)
  {
  }

  lemma LandedPlace(s: State, landed: bool)
    requires s.control.stack == []
    ensures SamePlace(s, s.(landed := landed)) && KeepsSegment(s, s.(landed := landed)) && !HasStart(s.control.stack)
  {
  }

  lemma RunningActive(s: State, base: State, i: nat, next: nat)
    requires RunningAt(s, base, i, next)
    ensures s.active
  {
  }

  lemma UpdateEvent(c: Setup, s: State, positionValid: bool, reached: bool, answer: Answer)
    ensures ExternalStep(c, s, UpdateSetpoint(positionValid, reached), answer) == UpdateSetpointStep(c, s,
      positionValid, reached)
  {
    hide UpdateSetpointStep, FinishMode, OnActivate, OnDeactivate, SetMissionStep, StartAbort;
  }

  lemma InternalRuns(c: Setup, s: State, answer: Answer, base: State, i: nat, next: nat)
    requires Placed(c, s) && Steady(c, s, Internal(answer)) && RunningAt(s, base, i, next)
    requires s.control.stack != []
    ensures Onward(Step(c, s, Internal(answer)), base, i)
  {
    hide Step, HandlersOk, Count, RunningAt, Idles, InvokeStep, PerformStep, ActivatedStep, RestoreStep, StartItemStep,
      AbortMainStep, ReturnStep, RunNextItem, KeepsStore, KeepsSegment, SamePlace, SameButIndex, StartsNoSettings,
      StartsOnlyItem;
    var l, t := Internal(answer), Step(c, s, Internal(answer));
    RunningIndex(s, base, i, next);
    StepCounts(c, s, l, Resting);
    match s.control.Top()
    case Invoke(closure) =>
      InvokeFrame(c, s, closure, answer);
      if closure == ItemDone(s.control.handler) {
        ValidHandler(c, s.control);
        InvokeItemDone(c, Popped(s), closure, answer);
        DoneRuns(s, t, base, i, next);
      } else {
        InvokeIdles(c, s, t, closure, answer);
        IdlesOnward(s, t, base, i, next);
      }
    case Perform(name, arguments, done) =>
      PerformFrame(c, s, name, arguments, done, answer);
      PerformIdles(c, s, t, name, arguments, done, answer);
      IdlesOnward(s, t, base, i, next);
    case Activated(h, fromBeginning) =>
      ActivatedFrame(c, s, h, fromBeginning, answer);
      ActivatedIdles(c, s, t, h, fromBeginning);
      IdlesOnward(s, t, base, i, next);
    case Restore(rest, h) =>
      RestoreFrame(c, s, rest, h, answer);
      RestoreIdles(c, s, t, rest, h);
      IdlesOnward(s, t, base, i, next);
    case StartItem(resuming, h) =>
      StartFrame(c, s, resuming, h, answer);
      if i == |s.mission.items| {
        EndIdles(c, s, t, resuming, answer);
        IdlesOnward(s, t, base, i, next);
      } else if s.mission.items[i].ActionItem? {
        ActionStarts(c, s, t, resuming, answer, base, i, next);
      } else {
        SegmentStarts(c, s, t, resuming, answer, base, i, next);
      }
    case AbortMain(reason) =>
      AbortFrame(c, s, reason, answer);
      AbortMainIdles(c, s, t, reason);
      IdlesOnward(s, t, base, i, next);
    case f =>
      if InClient(f) {
        UnfitStep(c, s, l);
        StaysOnward(s, base, i, next);
      } else {
        ReturnFrame(c, s, answer);
        if f.SaveState? {
          SaveRuns(c, s, t, base, i, next);
        } else {
          ReturnIdles(c, s, t, f);
          IdlesOnward(s, t, base, i, next);
        }
      }
  }

  lemma StaysOnward(s: State, base: State, i: nat, next: nat)
    requires RunningAt(s, base, i, next)
    ensures Onward(s, base, i)
  {
    hide RunningAt;
  }

  lemma RunningIndex(s: State, base: State, i: nat, next: nat)
    requires RunningAt(s, base, i, next)
    ensures i <= |s.mission.items| && s.persistent.currentIndex == Some(i) && (AtItem(s) <==> i < |s.mission.items|)
  {
    hide Count, SegmentsFrom, Reported;
  }

  lemma SaveRuns(c: Setup, s: State, t: State, base: State, i: nat, next: nat)
    requires RunningAt(s, base, i, next) && s.control.Top() == SaveState && Calmer(s, t)
    requires t == ReturnStep(c, Popped(s), SaveState)
    ensures Onward(t, base, i)
  {
    hide Count, SegmentsFrom, Reported, HasStart, SaveStep, SamePlace, KeepsSegment, DeactivateDefaults;
    assert t == Popped(s).(file := t.file);
    PrefixStarts(s.control, t.control);
    assert RunningAt(t, base, i, next);
  }

  lemma UserRuns(c: Setup, s: State, command: Command, answer: Answer, base: State, i: nat, next: nat)
    requires Placed(c, s) && Steady(c, s, User(command, answer)) && RunningAt(s, base, i, next)
    requires s.control.stack != []
    ensures Onward(Step(c, s, User(command, answer)), base, i)
  {
    hide CommandStep, DropStep, StartAbort, ExternalStep, Continue, HandlersOk, Count, RunningAt, Idles;
    var l, t := User(command, answer), Step(c, s, User(command, answer));
    StepCounts(c, s, l, Resting);
    StaysOnward(s, base, i, next);
    match s.control.Top() {
      case Client(run) =>
        CommandIdles(c, s, t, run, command, answer);
        IdlesOnward(s, t, base, i, next);
      case ActivatedHook =>
        if command.Return? {
          PoppedIdles(s);
          IdlesOnward(s, t, base, i, next);
        }
      case CleanupHooks =>
        match command {
          case Return =>
            PoppedIdles(s);
            IdlesOnward(s, t, base, i, next);
          case DropState(id) =>
            DropIdles(s, id);
            IdlesOnward(s, t, base, i, next);
          case _ =>
        }
      case _ =>
    }
  }

  /** Each step of a steady run stays at the item or moves on to the next. */
  lemma StepRuns(c: Setup, s: State, l: Label, base: State, i: nat, next: nat)
    requires Placed(c, s) && Steady(c, s, l) && RunningAt(s, base, i, next)
    ensures Onward(Step(c, s, l), base, i)
  {
    hide Step, ExternalStep, Placed, RunningAt, Onward, Jumps, Count;
    StaysOnward(s, base, i, next);
    if (s.control.stack == []) != l.External? {
      UnfitStep(c, s, l);
    } else {
      match l
      case Internal(answer) => InternalRuns(c, s, answer, base, i, next);
      case User(command, answer) => UserRuns(c, s, command, answer, base, i, next);
      case External(event, answer) =>
        EventStep(c, s, event, answer);
        EventCalm(c, s, event, answer, base, i, next);
        assert Onward(Step(c, s, l), base, i) by {
          hide Placed, Count, ExternalStep, RunningAt, SamePlace, KeepsSegment, HasStart, ReachIndex, StartAbort;
          assert s.active by { RunningActive(s, base, i, next); }
          match event
          case UpdateSetpoint(positionValid, reached) =>
            UpdateEvent(c, s, positionValid, reached, answer);
            UpdateRuns(c, s, positionValid, reached, base, i, next);
          case _ =>
            EventIdles(c, s, event, answer);
            IdlesOnward(s, Step(c, s, l), base, i, next);
        }
    }
  }

  lemma EventCalm(c: Setup, s: State, event: Event, answer: Answer, base: State, i: nat, next: nat)
    requires Placed(c, s) && Steady(c, s, External(event, answer)) && RunningAt(s, base, i, next)
    requires s.control.stack == []
    ensures Calmer(s, Step(c, s, External(event, answer)))
  {
    hide Step, HandlersOk, Count, SegmentsFrom, Reported, HasStart, AtItem, Becomes, FlightOfMission, IndexInRange,
      Jumps;
    StepCounts(c, s, External(event, answer), Resting);
  }

  ghost predicate SteadyRun(c: Setup, s: State, ls: seq<Label>) {
    ls == [] || (SteadyRun(c, s, ls[..|ls| - 1]) && Steady(c, Steps(c, s, ls[..|ls| - 1]), ls[|ls| - 1]))
  }

  /** An activation from the beginning. */
  lemma BeginsRunning(c: Setup, s: State)
    requires Placed(c, s) && !s.active && s.control.stack == [] && s.persistent.currentIndex.None?
    requires OnActivate(c, s).control.handler == s.control.handler
    ensures Placed(c, OnActivate(c, s)) && RunningAt(OnActivate(c, s), s, 0, 0)
  {
    hide Count, ClosuresCoherent, StackCoherent, StartAbort, SegmentsFrom, HasStart;
    ActivatePlaced(c, s);
    CountsMono(s.control, Resting);
    assert HandlersCalm(c, s.control) by { assert s.control.stack == []; hide ClosuresCoherent, StackCoherent, Count; }
    ActivateCounts(c, s, Resting);
  }

  lemma {:induction false} StaysRunning(c: Setup, s: State, ls: seq<Label>, base: State)
    requires Placed(c, s) && RunningAt(s, base, 0, 0) && SteadyRun(c, s, ls)
    ensures Placed(c, Steps(c, s, ls)) &&
      exists i: nat, next: nat :: i <= |ls| && RunningAt(Steps(c, s, ls), base, i, next)
  {
    hide Placed, RunningAt, Step, Steady;
    if ls == [] {
      assert RunningAt(Steps(c, s, ls), base, 0, 0);
    } else {
      var before, t, l := ls[..|ls| - 1], Steps(c, s, ls[..|ls| - 1]), ls[|ls| - 1];
      StaysRunning(c, s, before, base);
      var i: nat, next: nat :| i <= |before| && RunningAt(t, base, i, next);
      StepRuns(c, t, l, base, i, next);
      StepPlaced(c, t, l);
      var j: nat, k: nat :| i <= j <= i + 1 && RunningAt(Step(c, t, l), base, j, k);
    }
  }

  /** From an activation at the beginning, over any run without aborts, deactivations and jumps: the reports are
      progress 0, 1, ... in order and completion once, after the last item; each step moves on by at most one item;
      the segments flown are those of the mission, in order, and all of them when the mission is completed. */
  lemma UninterruptedRun(c: Setup, file: Option<Json>, before: seq<Label>, ls: seq<Label>)
    requires var s := Steps(c, Initial(file), before);
      && !s.active && s.control.stack == [] && s.persistent.currentIndex.None?
      && OnActivate(c, s).control.handler == s.control.handler
      && SteadyRun(c, OnActivate(c, s), ls)
    ensures var s := Steps(c, Initial(file), before);
      var t, n := Steps(c, OnActivate(c, s), ls), |s.mission.items|;
      && t.persistent.currentIndex.Some? && 0 <= t.persistent.currentIndex.value <= n
      && t.reports == s.reports + Reported(n, t.persistent.currentIndex.value)
      && (exists rest :: t.segments + rest == s.segments + SegmentsFrom(s.mission.items, 0))
      && (t.persistent.currentIndex.value == n ==> t.segments == s.segments + SegmentsFrom(s.mission.items, 0))
  {
    hide Placed, Step, Steady, SteadyRun, OnActivate, HandlersOk, Count, HasStart, Reported;
    var s := Steps(c, Initial(file), before);
    IndexSafety(c, file, before);
    BeginsRunning(c, s);
    StaysRunning(c, OnActivate(c, s), ls, s);
    var t := Steps(c, OnActivate(c, s), ls);
    var i: nat, next: nat :| i <= |ls| && RunningAt(t, s, i, next);
    assert SegmentsFrom(s.mission.items, |s.mission.items|) == [];
    assert t.segments + SegmentsFrom(s.mission.items, next) == s.segments + SegmentsFrom(s.mission.items, 0);
  }
}
