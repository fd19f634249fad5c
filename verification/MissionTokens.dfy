/** At most one continuation of the mission is alive: the completion of the current item or of the resume
    action, the segment being flown, or a frame that is about to start an item. Every operation hands the
    continuation on or drops it, and only an activation creates one. */
module MissionTokens {
  import opened Wrappers
  import opened JsonValues
  import opened Missions
  import opened PersistentStates
  import opened MissionTypes
  import opened MissionSteps
  import opened MissionHandlers

  // ---- Counting continuations under the current handler ----

  /** Which continuations count: all, those that need a valid index, those that already work on items, or those
      that are still resuming. */
  datatype Weight = All | Resting | Working | Resuming
  {
    predicate Starting() {
      All? || Working?
    }
  }

  /** The completion of an item or of the resume action. */
  function Tok(w: Weight, cur: nat, c: Closure): nat {
    match c
    case ItemDone(h) => if h == cur && !w.Resuming? then 1 else 0
    case ResumeDone(h, _) => if h == cur && !w.Working? then 1 else 0
    case TryDescend(_, done) => Tok(w, cur, done)
    case AfterTakeoff(_, done, _) => Tok(w, cur, done)
    case _ => 0
  }

  function TokFrame(cur: nat, w: Weight, f: Frame): nat {
    match f
    case Invoke(c) => Tok(w, cur, c)
    case Perform(_, _, done) => Tok(w, cur, done)
    case ArmTimer(done) => Tok(w, cur, done)
    case StartItem(_, _) => if w.Starting() then 1 else 0
    case Activated(_, fromBeginning) => if w.All? || w.Resuming? || (w.Resting? && !fromBeginning) then 1 else 0
    case _ => 0
  }

  function Max(a: nat, b: nat): nat { if a < b then b else a }

  function TokCallback(w: Weight, cur: nat, done: Closure, onFailure: Option<Closure>): nat {
    Max(Tok(w, cur, done), if onFailure.Some? then Tok(w, cur, onFailure.value) else 0)
  }

  function TokReport(cur: nat, w: Weight, r: IndexCallback): nat {
    match r
    case NoReport => 0
    case SegmentStep(h, _) => if w.Starting() && h == cur then 1 else 0
    case CustomStep(done, _) => Tok(w, cur, done)
  }

  function TokStack(cur: nat, w: Weight, stack: seq<Frame>): nat {
    if stack == [] then 0
    else TokStack(cur, w, stack[..|stack| - 1]) + TokFrame(cur, w, stack[|stack| - 1])
  }

  /** The frames among them that are about to start an item, whatever the handler. */
  function Starts(stack: seq<Frame>): nat {
    if stack == [] then 0
    else
      var f := stack[|stack| - 1];
      Starts(stack[..|stack| - 1]) + if f.StartItem? || f.Activated? then 1 else 0
  }

  function TokRuns(cur: nat, w: Weight, runs: seq<Run>, completed: set<nat>): nat {
    if runs == [] then 0
    else
      var n := |runs| - 1;
      TokRuns(cur, w, runs[..n], completed) + if n in completed then 0 else Tok(w, cur, runs[n].done)
  }

  function TokSlots(k: Control, w: Weight): nat {
    (if k.scheduled.Some? then TokCallback(w, k.handler, k.scheduled.value.done, k.scheduled.value.onFailure) else 0)
    + (if k.holdTimer.Some? then Tok(w, k.handler, k.holdTimer.value) else 0)
    + (if k.flight.target.Some? then TokReport(k.handler, w, k.flight.report) else 0)
  }

  function Count(k: Control, w: Weight): nat {
    TokStack(k.handler, w, k.stack) + TokRuns(k.handler, w, k.runs, k.completedRuns) + TokSlots(k, w)
  }

  // ---- Counting lemmas ----

  lemma PushCounts(k: Control, w: Weight, f: Frame)
    ensures Count(k.Push(f), w) == Count(k, w) + TokFrame(k.handler, w, f)
  {
    assert k.Push(f).stack[..|k.stack|] == k.stack;
  }

  lemma PopCounts(k: Control, w: Weight)
    requires k.stack != []
    ensures Count(k.Popped(), w) + TokFrame(k.handler, w, k.Top()) == Count(k, w)
  {
  }

  lemma {:induction false} OldTok(w: Weight, runs: seq<Run>, cur: nat, c: Closure, later: nat)
    requires Coherent(runs, cur, c) && later > cur
    ensures Tok(w, later, c) == 0
  {
    match c
    case TryDescend(_, done) => OldTok(w, runs, cur, done, later);
    case AfterTakeoff(_, done, _) => OldTok(w, runs, cur, done, later);
    case _ =>
  }

  lemma OldToks(runs: seq<Run>, cur: nat, c: Closure, later: nat)
    requires Coherent(runs, cur, c) && later > cur
    ensures forall w :: Tok(w, later, c) == 0
  {
    forall w
      ensures Tok(w, later, c) == 0
    {
      OldTok(w, runs, cur, c, later);
    }
  }

  lemma {:induction false} OldRuns(k: Control, w: Weight, n: nat, later: nat)
    requires n <= |k.runs| && later > k.handler
    requires forall i: nat :: i < |k.runs| ==> RunCoherent(k.runs, k.handler, k.runs[i])
    ensures TokRuns(later, w, k.runs[..n], k.completedRuns) == 0
  {
    if n > 0 {
      OldRuns(k, w, n - 1, later);
      assert k.runs[..n][..n - 1] == k.runs[..n - 1];
      OldTok(w, k.runs, k.handler, k.runs[n - 1].done, later);
    }
  }

  lemma {:induction false} OldStack(c: Setup, k: Control, w: Weight, n: nat, later: nat)
    requires n <= |k.stack| && later > k.handler
    requires forall i: nat :: i < |k.stack| ==> FrameCoherent(c, k.runs, k.handler, k.stack[i])
    ensures TokStack(later, w, k.stack[..n]) <= TokStack(k.handler, w, k.stack[..n])
    ensures TokStack(later, All, k.stack[..n]) == Starts(k.stack[..n])
  {
    if n > 0 {
      OldStack(c, k, w, n - 1, later);
      assert k.stack[..n][..n - 1] == k.stack[..n - 1];
      match k.stack[n - 1]
      case Invoke(closure) => OldToks(k.runs, k.handler, closure, later);
      case Perform(_, _, done) => OldToks(k.runs, k.handler, done, later);
      case ArmTimer(done) => OldToks(k.runs, k.handler, done, later);
      case _ =>
    }
  }

  lemma OldSlots(k: Control, w: Weight, later: Control)
    requires ClosuresCoherent(k) && later.handler > k.handler
    requires later.scheduled == k.scheduled && later.holdTimer == k.holdTimer && later.flight == k.flight
    ensures TokSlots(later, w) == 0
  {
    if k.scheduled.Some? {
      OldTok(w, k.runs, k.handler, k.scheduled.value.done, later.handler);
      if k.scheduled.value.onFailure.Some? {
        OldTok(w, k.runs, k.handler, k.scheduled.value.onFailure.value, later.handler);
      }
    }
    if k.holdTimer.Some? {
      OldTok(w, k.runs, k.handler, k.holdTimer.value, later.handler);
    }
    if k.flight.report.CustomStep? {
      OldTok(w, k.runs, k.handler, k.flight.report.done, later.handler);
    }
  }

  /** A new handler disowns every callback; only frames about to start an item still count. */
  lemma InvalidateCounts(c: Setup, s: State, w: Weight)
    requires HandlersCalm(c, s.control)
    ensures var k := InvalidateHandler(s).control;
      && Count(k, w) == TokStack(k.handler, w, k.stack) <= TokStack(s.control.handler, w, s.control.stack)
      && Count(k, All) == Starts(k.stack)
  {
    var k, l := s.control, InvalidateHandler(s).control;
    assert k.stack[..|k.stack|] == k.stack && k.runs[..|k.runs|] == k.runs;
    OldStack(c, k, w, |k.stack|, l.handler);
    OldRuns(k, w, |k.runs|, l.handler);
    OldRuns(k, All, |k.runs|, l.handler);
    OldSlots(k, w, l);
    OldSlots(k, All, l);
  }

  lemma {:induction false} CompleteCounts(cur: nat, w: Weight, runs: seq<Run>, completed: set<nat>, r: nat)
    requires r !in completed
    ensures TokRuns(cur, w, runs, completed + {r}) + (if r < |runs| then Tok(w, cur, runs[r].done) else 0)
         == TokRuns(cur, w, runs, completed)
  {
    if runs != [] {
      CompleteCounts(cur, w, runs[..|runs| - 1], completed, r);
    }
  }

  lemma AddRunCounts(k: Control, w: Weight, r: Run)
    ensures Count(k.(runs := k.runs + [r]), w) <= Count(k, w) + Tok(w, k.handler, r.done)
  {
    assert (k.runs + [r])[..|k.runs|] == k.runs;
  }

  // ---- What an operation does to the control ----

  /** Frames that an operation may leave for later. */
  predicate OpFrame(f: Frame) {
    f.Invoke? || f.Perform? || f.Client? || f.ArmTimer? || f.EnterTrajectory?
  }

  predicate Waiting(f: Frame) {
    f.ArmTimer? || f.EnterTrajectory?
  }

  /** What an abort leaves: a new handler that owns no callback, and unless the recursion limit is exceeded
      the abort itself on top. */
  ghost predicate Aborted(k: Control, l: Control) {
    && l.handler > k.handler && Count(l, All) <= Starts(l.stack)
    && (if k.abortLevel > 10 then forall i :: |k.stack| <= i < |l.stack| ==> Waiting(l.stack[i])
        else
          && |l.stack| >= |k.stack| + 2
          && l.stack[|l.stack| - 2].AbortMain? && l.stack[|l.stack| - 1] == CleanupHooks
          && forall i :: |k.stack| <= i < |l.stack| - 2 ==> Waiting(l.stack[i]))
  }

  ghost predicate Extends(k: Control, l: Control) {
    && l.abortLevel == k.abortLevel && l.failureRuns == k.failureRuns && k.runs <= l.runs
    && |k.stack| <= |l.stack| && l.stack[..|k.stack|] == k.stack
  }

  /** The operation keeps the handler and leaves frames for later, or it aborts. */
  ghost predicate Advances(k: Control, l: Control) {
    && Extends(k, l)
    && (if l.handler == k.handler then
          l.valid == k.valid && forall i :: |k.stack| <= i < |l.stack| ==> OpFrame(l.stack[i])
        else Aborted(k, l))
  }

  /** The operation keeps the handler and may be about to start an item. */
  ghost predicate Begins(k: Control, l: Control) {
    && Extends(k, l) && l.handler == k.handler
    && forall i :: |k.stack| <= i < |l.stack| ==> OpFrame(l.stack[i]) || l.stack[i].StartItem? || l.stack[i].Restore?
  }

  /** The operation, given continuations that count `extra`, creates no others and starts no item. */
  ghost predicate Leads(k: Control, l: Control, w: Weight, extra: nat) {
    Advances(k, l) && Count(l, w) <= Count(k, w) + extra
  }

  /** The same, but it may be about to start an item. */
  ghost predicate Carries(k: Control, l: Control, w: Weight, extra: nat) {
    (Advances(k, l) || Begins(k, l)) && Count(l, w) <= Count(k, w) + extra
  }

  lemma MoreLeads(k: Control, l: Control, w: Weight, less: nat, more: nat)
    requires Leads(k, l, w, less) && less <= more
    ensures Leads(k, l, w, more)
  {
    hide Advances, Count;
  }

  lemma CarriesOn(k: Control, l: Control, w: Weight, extra: nat)
    requires Carries(k, l, w, extra)
    ensures l.handler >= k.handler && Count(l, w) <= Count(k, w) + extra
  {
  }

  lemma LeadsCarries(k: Control, l: Control, w: Weight, extra: nat)
    requires Leads(k, l, w, extra)
    ensures Carries(k, l, w, extra)
  {
  }

  lemma LeadsOn(k: Control, l: Control, w: Weight, extra: nat)
    requires Leads(k, l, w, extra)
    ensures l.handler >= k.handler && Count(l, w) <= Count(k, w) + extra && Advances(k, l)
  {
  }

  lemma SameLeads(k: Control, w: Weight, extra: nat)
    ensures Leads(k, k, w, extra)
  {
  }

  lemma PushLeads(k: Control, w: Weight, f: Frame, extra: nat)
    requires OpFrame(f) && TokFrame(k.handler, w, f) <= extra
    ensures Leads(k, k.Push(f), w, extra)
  {
    hide Count, TokFrame;
    PushCounts(k, w, f);
  }

  lemma PushCarries(k: Control, w: Weight, f: Frame, extra: nat)
    requires f.StartItem? || f.Restore? || OpFrame(f)
    requires TokFrame(k.handler, w, f) <= extra
    ensures Carries(k, k.Push(f), w, extra)
  {
    hide Count, TokFrame;
    PushCounts(k, w, f);
  }

  /** An operation that first leaves a waiting frame. */
  lemma WaitThenLeads(k: Control, l: Control, w: Weight, f: Frame, extra: nat, more: nat)
    requires Waiting(f) && TokFrame(k.handler, w, f) <= extra && Leads(k.Push(f), l, w, more)
    ensures Leads(k, l, w, extra + more)
  {
    hide Count, TokFrame;
    PushCounts(k, w, f);
    assert l.stack[..|k.stack|] == k.Push(f).stack[..|k.stack|] == k.stack;
  }

  /** Cancelling or replacing the scheduled mode, then an operation. */
  lemma ScheduleLeads(k: Control, w: Weight, done: Closure, onFailure: Option<Closure>, extra: nat)
    requires TokCallback(w, k.handler, done, onFailure) <= extra
    ensures Leads(k, k.(scheduled := Some(ModeCallback(done, onFailure))), w, extra)
  {
    hide Tok, TokReport, TokCallback, TokStack, TokRuns;
  }

  lemma CancelThenLeads(k: Control, l: Control, w: Weight, extra: nat)
    requires Leads(k.(scheduled := None), l, w, extra)
    ensures Leads(k, l, w, extra)
  {
    hide Tok, TokReport, TokCallback, TokStack, TokRuns;
  }

  lemma FlyThenLeads(k: Control, flight: Flight, l: Control, w: Weight, extra: nat)
    requires TokReport(k.handler, w, flight.report) <= extra
    requires Leads(k.(flight := flight), l, w, 0)
    ensures Leads(k, l, w, extra)
  {
    hide Tok, TokReport, TokCallback, TokStack, TokRuns;
  }

  // ---- Each operation ----

  lemma StartAbortControl(s: State, reason: string)
    ensures var k := InvalidateHandler(s).control;
      StartAbort(s, reason).control
      == if k.abortLevel > 10 then k else k.(holdTimer := None).Push(AbortMain(reason)).Push(CleanupHooks)
  {
    DropKeeperControl(InvalidateHandler(s));
    hide DropSettingsKeeper, InvalidateHandler;
  }

  lemma AbortKeepsFlight(s: State, reason: string)
    ensures StartAbort(s, reason).control.flight == s.control.flight
  {
    hide StartAbort;
    StartAbortControl(s, reason);
  }

  lemma ModeKeepsFlight(s: State, mode: nat, answer: Answer)
    ensures RunModeStep(s, mode, Nop, None, answer).control.flight == s.control.flight
  {
    hide StartAbort, KeepsStore, KeepsSegment, StartsNoSettings, SamePlace;
    var t := s.(itemState := Other, activeMode := mode);
    AbortKeepsFlight((if answer.NotArmed? then t else SetScheduled(t, None)).(activeMode := 0), "modeFailure");
  }

  lemma ActionKeepsFlight(c: Setup, s: State, name: string, arguments: Json, done: Closure)
    ensures RunActionStep(c, s, name, arguments, done).control.flight == s.control.flight
  {
    hide StartAbort, KeepsStore, KeepsSegment, StartsNoSettings, SamePlace;
    AbortKeepsFlight(s.(itemState := Other), "actionDoesNotExist");
  }

  lemma NoTimerCounts(k: Control, w: Weight)
    ensures Count(k.(holdTimer := None), w) <= Count(k, w)
  {
    hide Tok, TokReport, TokCallback, TokStack, TokRuns;
  }

  lemma AbortAdvances(k: Control, l: Control, reason: string)
    requires l.handler > k.handler && l.abortLevel == k.abortLevel && l.failureRuns == k.failureRuns &&
      l.stack == k.stack
    requires k.runs <= l.runs && Count(l, All) <= Starts(l.stack)
    ensures k.abortLevel > 10 ==> Advances(k, l)
    ensures k.abortLevel <= 10 ==> Advances(k, l.(holdTimer := None).Push(AbortMain(reason)).Push(CleanupHooks))
  {
    hide Count;
    var m := l.(holdTimer := None);
    NoTimerCounts(l, All);
    PushCounts(m, All, AbortMain(reason));
    PushCounts(m.Push(AbortMain(reason)), All, CleanupHooks);
    StartsPush(l.stack, AbortMain(reason));
    StartsPush(l.stack + [AbortMain(reason)], CleanupHooks);
  }

  lemma StartsPush(stack: seq<Frame>, f: Frame)
    ensures Starts(stack + [f]) == Starts(stack) + if f.StartItem? || f.Activated? then 1 else 0
  {
    assert (stack + [f])[..|stack|] == stack;
  }

  lemma StartAbortLeads(c: Setup, s: State, w: Weight, reason: string, extra: nat)
    requires HandlersCalm(c, s.control)
    ensures Leads(s.control, StartAbort(s, reason).control, w, extra)
    ensures StartAbort(s, reason).control.handler > s.control.handler
  {
    hide KeepsStore, KeepsSegment, StartsNoSettings, StartsOnlyItem;
    var k, l := s.control, InvalidateHandler(s).control;
    assert Count(l, w) <= Count(k, w) && Count(l, All) <= Starts(l.stack) by {
      InvalidateCounts(c, s, w);
      hide TokStack, TokRuns, TokSlots;
    }
    StartAbortControl(s, reason);
    AbortAdvances(k, l, reason);
    hide Advances, Count, ClosuresCoherent, StackCoherent, StartAbort;
    NoTimerCounts(l, w);
    PushCounts(l.(holdTimer := None), w, AbortMain(reason));
    PushCounts(l.(holdTimer := None).Push(AbortMain(reason)), w, CleanupHooks);
  }

  lemma ModeFailedLeads(c: Setup, s: State, w: Weight, onFailure: Option<Closure>, extra: nat)
    requires HandlersCalm(c, s.control) && (onFailure.Some? ==> Tok(w, s.control.handler, onFailure.value) <= extra)
    ensures Leads(s.control, ModeFailed(s, onFailure).control, w, extra)
  {
    hide Leads, StartAbort, ClosuresCoherent, StackCoherent, HandlersOk, KeepsStore, SamePlace;
    if onFailure.None? {
      StartAbortLeads(c, s.(activeMode := 0), w, "modeFailure", extra);
    } else {
      PushLeads(s.control, w, Invoke(onFailure.value), extra);
    }
  }

  lemma RunModeLeads(c: Setup, s: State, w: Weight, mode: nat, done: Closure, onFailure: Option<Closure>,
      answer: Answer,
                     extra: nat)
    requires HandlersCalm(c, s.control) && TokCallback(w, s.control.handler, done, onFailure) <= extra
    ensures Leads(s.control, RunModeStep(s, mode, done, onFailure, answer).control, w, extra)
  {
    hide Leads, ModeFailed, ClosuresCoherent, StackCoherent, Tok, KeepsStore, KeepsSegment, SamePlace, SameButIndex,
      StartsNoSettings, StartsOnlyItem;
    SameLeads(s.control, w, extra);
    var t := s.(itemState := Other, activeMode := mode);
    if answer.Accepted? {
      ScheduleLeads(s.control, w, done, onFailure, extra);
    } else if answer.NotArmed? {
      ModeFailedLeads(c, t, w, onFailure, extra);
    } else {
      var u := SetScheduled(t, None);
      ScheduleKeeps(c, s.control, None);
      ModeFailedLeads(c, u, w, onFailure, extra);
      CancelThenLeads(s.control, ModeFailed(u, onFailure).control, w, extra);
    }
  }

  lemma RunActionLeads(c: Setup, s: State, w: Weight, name: string, arguments: Json, done: Closure, extra: nat)
    requires HandlersCalm(c, s.control) && Tok(w, s.control.handler, done) <= extra
    ensures Leads(s.control, RunActionStep(c, s, name, arguments, done).control, w, extra)
  {
    hide Leads, StartAbort, ClosuresCoherent, StackCoherent, HandlersOk;
    SameLeads(s.control, w, extra);
    PushLeads(s.control, w, Perform(name, arguments, done), extra);
    StartAbortLeads(c, s.(itemState := Other), w, "actionDoesNotExist", extra);
  }

  lemma RunTrajectoryLeads(c: Setup, s: State, w: Weight, items: seq<MissionItem>, start: int, end: int,
                           report: IndexCallback, stop: bool, answer: Answer, extra: nat)
    requires HandlersCalm(c, s.control)
    requires FlightCoherent(s.control.runs, s.control.handler, Flight(items, s.options, end, stop, report, Some(start)))
    requires TokReport(s.control.handler, w, report) <= extra
    ensures Leads(s.control, RunTrajectoryStep(c, s, items, start, end, report, stop, answer).control, w, extra)
  {
    hide KeepsStore, KeepsSegment, SamePlace, SameButIndex, StartsNoSettings, StartsOnlyItem;
    var flight := Flight(items, s.options, end, stop, report, Some(start));
    var t := SetFlight(s, flight);
    hide Leads, RunModeStep, ClosuresCoherent, StackCoherent, TokReport;
    SameLeads(s.control, w, extra);
    SameLeads(t.control, w, 0);
    FlightKeeps(c, s.control, flight);
    PushKeeps(c, t.control, EnterTrajectory);
    RunModeLeads(c, t.Push(EnterTrajectory), w, c.ownMode, Nop, None, answer, 0);
    var r := RunModeStep(t.Push(EnterTrajectory), c.ownMode, Nop, None, answer).control;
    WaitThenLeads(t.control, r, w, EnterTrajectory, 0, 0);
    FlyThenLeads(s.control, flight, r, w, extra);
    FlyThenLeads(s.control, flight, t.control, w, extra);
  }

  lemma HandlerTrajectoryLeads(c: Setup, s: State, w: Weight, h: nat, items: seq<MissionItem>, done: Closure,
      stop: bool,
                               answer: Answer, extra: nat)
    requires HandlersCalm(c, s.control) && Coherent(s.control.runs, s.control.handler, done)
    requires Tok(w, s.control.handler, done) <= extra
    ensures Leads(s.control, HandlerTrajectory(c, s, h, items, done, stop, answer).control, w, extra)
  {
    hide Leads, RunTrajectoryStep, StartAbort, HandlersCalm, Coherent, Tok, KeepsStore, SamePlace;
    if !s.control.IsValid(h) {
      SameLeads(s.control, w, extra);
    } else if items == [] {
      assert Leads(s.control, s.control.Push(Invoke(done)), w, extra) by {
        PushLeads(s.control, w, Invoke(done), extra);
      }
    } else if exists i :: 0 <= i < |items| && items[i].ActionItem? {
      StartAbortLeads(c, s, w, "trajectoryFailure", extra);
    } else {
      assert Leads(s.control, RunTrajectoryStep(c, s, items, 0, |items| - 1, CustomStep(done, |items| - 1), stop,
        answer).control, w, extra) by {
        hide Leads, RunTrajectoryStep, HandlersCalm, Coherent, Tok;
        RunTrajectoryLeads(c, s, w, items, 0, |items| - 1, CustomStep(done, |items| - 1), stop, answer, extra);
      }
    }
  }

  lemma StartSegmentLeads(c: Setup, s: State, w: Weight, resuming: bool, index: nat, answer: Answer)
    requires HandlersCalm(c, s.control) && index < |s.mission.items| && s.mission.items[index].NavigationItem?
    requires s.persistent.currentIndex == Some(index)
    ensures Leads(s.control, StartItemStep(c, s, resuming, answer).control, w, if w.Starting() then 1 else 0)
  {
    hide Leads, RunModeStep, RunTrajectoryStep, RunActionStep, ClosuresCoherent, StackCoherent, Segments.SegmentEnd,
      Segments.SegmentStop, Tok, KeepsStore, KeepsSegment, SamePlace, SameButIndex, StartsNoSettings, StartsOnlyItem;
    var end := Segments.SegmentEnd(s.mission.items, index);
    Segments.SegmentIsMaximal(s.mission.items, index);
    var t := s.(segments := if s.active then s.segments + [(index as int, end as int)] else s.segments);
    RunTrajectoryLeads(c, t, w, s.mission.items, index, end, SegmentStep(s.control.handler, end),
                       Segments.SegmentStop(c, s.mission.items, end), answer, if w.Starting() then 1 else 0);
  }

  /** Starting an item turns the frame into the completion of the item. */
  lemma StartItemLeads(c: Setup, s: State, w: Weight, resuming: bool, answer: Answer)
    requires HandlersCalm(c, s.control)
    ensures Leads(s.control, StartItemStep(c, s, resuming, answer).control, w,
      if w.Starting() || (w.Resting? && s.persistent.currentIndex.Some? &&
        s.mission.IndexValid(s.persistent.currentIndex.value)) then 1 else 0)
  {
    hide Leads, RunModeStep, RunTrajectoryStep, RunActionStep, ClosuresCoherent, StackCoherent, Segments.SegmentEnd,
      Segments.SegmentStop, KeepsStore, KeepsSegment, StartsNoSettings, SamePlace, SameButIndex;
    if s.persistent.currentIndex.Some? && s.mission.IndexValid(s.persistent.currentIndex.value) {
      var index := s.persistent.currentIndex.value;
      match s.mission.items[index]
      case NavigationItem(_, _) =>
        StartSegmentLeads(c, s, w, resuming, index, answer);
        MoreLeads(s.control, StartItemStep(c, s, resuming, answer).control, w, if w.Starting() then 1 else 0,
                  if w.Resuming? then 0 else 1);
      case ActionItem(_, name, arguments) =>
        var extra := if w.Resuming? then 0 else 1;
        SameLeads(s.control, w, extra);
        var given := if resuming then arguments.Put("internal:resuming", Bool(true)) else Success(arguments);
        if given.Success? {
          RunActionLeads(c, s, w, name, given.value, ItemDone(s.control.handler), extra);
        }
    } else {
      var extra := if w.Starting() then 1 else 0;
      SameLeads(s.control, w, extra);
      RunModeLeads(c, s, w, LOITER, Nop, None, answer, extra);
    }
  }

  /** A frame that starts an item, under the loop over the stored actions. */
  lemma RestoreCarries(k: Control, w: Weight, start: Frame, rest: seq<ActionState>, h: nat, extra: nat)
    requires start.StartItem? && (w.Starting() ==> extra >= 1)
    ensures Carries(k, k.Push(start).Push(Restore(rest, h)), w, extra)
  {
    hide Count;
    PushCounts(k, w, start);
    PushCounts(k.Push(start), w, Restore(rest, h));
  }

  lemma InvokeResumeControl(c: Setup, s: State, closure: Closure, answer: Answer)
    requires closure.ResumeDone?
    ensures InvokeStep(c, s, closure, answer).control
         == if !s.control.IsValid(closure.handler) then s.control
            else if closure.previous == s.persistent.currentIndex then
              s.control.Push(StartItem(true, closure.handler))
                .Push(Restore(OrderedMaps.Values(s.persistent.continuousActions), s.control.handler))
            else s.control.Push(StartItem(false, closure.handler))
  {
    hide OrderedMaps.Values, KeepsStore, KeepsSegment, StartsNoSettings, StartsOnlyItem;
  }

  lemma NavigateLeads(c: Setup, s: State, w: Weight, h: nat, done: Closure, at: int, answer: Answer)
    requires HandlersCalm(c, s.control) && Coherent(s.control.runs, s.control.handler, done)
    ensures Leads(s.control, NavigateToPreviousWaypoint(c, s, h, done, at, answer).control, w,
      Tok(w, s.control.handler, done))
  {
    hide Leads, HandlerTrajectory, WaypointBefore, Tok, Coherent, HandlersCalm, KeepsStore, KeepsSegment,
      StartsNoSettings, SamePlace, SameButIndex;
    var extra := Tok(w, s.control.handler, done);
    var found := WaypointBefore(s.mission.items, if at < |s.mission.items| then at else |s.mission.items|);
    PushLeads(s.control, w, Invoke(done), extra);
    if found.Some? {
      HandlerTrajectoryLeads(c, s, w, h, [NavigationItem("", s.mission.items[found.value].waypoint)], done, false,
        answer, extra);
    }
  }

  lemma InvokeTakeoffLeads(c: Setup, s: State, w: Weight, closure: Closure, answer: Answer)
    requires HandlersCalm(c, s.control) && closure.AfterTakeoff? && Coherent(s.control.runs, s.control.handler, closure)
    ensures Leads(s.control, InvokeStep(c, s, closure, answer).control, w, Tok(w, s.control.handler, closure))
  {
    hide Leads, NavigateToPreviousWaypoint, ClosuresCoherent, StackCoherent, HandlerMode, HandlersOk, KeepsSegment,
      KeepsStore, ResumeMission, RunNextItem, SamePlace, StartsNoSettings;
    NavigateLeads(c, s, w, closure.handler, closure.done, closure.at, answer);
  }

  /** Completions of items and of the resume action. */
  predicate Continuing(c: Closure) {
    c.ItemDone? || c.ResumeDone?
  }

  lemma StaleInvoke(c: Setup, s: State, closure: Closure, answer: Answer)
    requires OneValidHandler(s.control) && Continuing(closure) && closure.handler != s.control.handler
    ensures InvokeStep(c, s, closure, answer) == s
  {
    hide ResumeMission, RunNextItem, HandlerMode, KeepsStore, NavigateToPreviousWaypoint;
  }

  lemma InvokeLeads(c: Setup, s: State, w: Weight, closure: Closure, answer: Answer)
    requires HandlersCalm(c, s.control) && Coherent(s.control.runs, s.control.handler, closure)
    requires !Continuing(closure) || closure.handler != s.control.handler
    ensures Leads(s.control, InvokeStep(c, s, closure, answer).control, w, Tok(w, s.control.handler, closure))
  {
    hide Leads, NavigateToPreviousWaypoint, RunModeStep, ClosuresCoherent, StackCoherent, ResumeMission, RunNextItem,
      KeepsStore, KeepsSegment, StartsNoSettings, SamePlace, SameButIndex;
    var extra := Tok(w, s.control.handler, closure);
    SameLeads(s.control, w, extra);
    match closure
    case AfterTakeoff(_, _, _) => InvokeTakeoffLeads(c, s, w, closure, answer);
    case UserCode(_, run) => PushLeads(s.control, w, Client(run), extra);
    case TryDescend(h, done) => RunModeLeads(c, s, w, DESCEND, done, Some(Nop), answer, extra);
    case Nop =>
    case _ => StaleInvoke(c, s, closure, answer);
  }

  /** The end of the resume action becomes the start of an item. */
  function TokInvoked(w: Weight, cur: nat, closure: Closure): nat {
    if closure.ResumeDone? && closure.handler == cur then 1 else Tok(w, cur, closure)
  }

  lemma InvokeCarries(c: Setup, s: State, w: Weight, closure: Closure, answer: Answer)
    requires HandlersCalm(c, s.control) && Coherent(s.control.runs, s.control.handler, closure)
    ensures Carries(s.control, InvokeStep(c, s, closure, answer).control, w, TokInvoked(w, s.control.handler, closure))
  {
    hide Leads, Carries, InvokeStep, Coherent, ClosuresCoherent, StackCoherent, KeepsStore, KeepsSegment, SamePlace,
      SameButIndex, StartsNoSettings, StartsOnlyItem;
    if !Continuing(closure) || closure.handler != s.control.handler {
      InvokeLeads(c, s, w, closure, answer);
      LeadsCarries(s.control, InvokeStep(c, s, closure, answer).control, w, Tok(w, s.control.handler, closure));
    } else if closure.ResumeDone? {
      assert Carries(s.control, InvokeStep(c, s, closure, answer).control, w, 1) by {
        hide Carries, OrderedMaps.Values, ClosuresCoherent, StackCoherent, InvokeStep, KeepsStore, KeepsSegment,
          SamePlace, SameButIndex, StartsNoSettings, StartsOnlyItem;
        var h := closure.handler;
        InvokeResumeControl(c, s, closure, answer);
        RestoreCarries(s.control, w, StartItem(true, h), OrderedMaps.Values(s.persistent.continuousActions),
          s.control.handler, 1);
        PushCarries(s.control, w, StartItem(false, h), 1);
      }
    } else {
      InvokeItemDone(c, s, closure, answer);
      PushCarries(s.control, w, StartItem(false, s.control.handler), TokInvoked(w, s.control.handler, closure));
    }
  }

  lemma InvokeItemDone(c: Setup, s: State, closure: Closure, answer: Answer)
    requires OneValidHandler(s.control) && closure == ItemDone(s.control.handler)
    ensures InvokeStep(c, s, closure, answer) == RunNextItem(s)
    ensures RunNextItem(s).control == s.control.Push(StartItem(false, s.control.handler))
  {
    hide HandlerTrajectory, RunModeStep;
  }

  lemma ResumeFromLandingLeads(c: Setup, s: State, w: Weight, done: Closure, index: int)
    requires HandlersCalm(c, s.control) && s.mission.IndexValid(index)
    ensures Leads(s.control, ResumeFromUnexpectedLanding(c, s, done, index).control, w, Tok(w, s.control.handler, done))
  {
    hide Leads, RunActionStep, ReturnsHome, TakeoffBefore, ClosuresCoherent, StackCoherent, KeepsStore, KeepsSegment,
      StartsNoSettings, SamePlace, SameButIndex;
    var extra := Tok(w, s.control.handler, done);
    PushLeads(s.control, w, Invoke(done), extra);
    var takeoff := TakeoffBefore(s.mission.items, index);
    if takeoff.Some? {
      RunActionLeads(c, s, w, "takeoff", s.mission.items[takeoff.value].arguments,
                     AfterTakeoff(s.control.handler, done, index), extra);
    }
  }

  lemma ResumeLeads(c: Setup, s: State, w: Weight, arguments: Json, done: Closure)
    requires HandlersCalm(c, s.control)
    ensures Leads(s.control, ResumeStep(c, s, arguments, done).control, w, Tok(w, s.control.handler, done))
  {
    hide Leads, Tok, ResumeFromUnexpectedLanding, CurrentSupportsResumeFromLanded, ClosuresCoherent, StackCoherent,
      KeepsStore, KeepsSegment, SamePlace, SameButIndex, StartsNoSettings, StartsOnlyItem;
    var extra := Tok(w, s.control.handler, done);
    SameLeads(s.control, w, extra);
    PushLeads(s.control, w, Invoke(done), extra);
    var index := s.persistent.currentIndex.GetOr(0);
    if s.mission.IndexValid(index) {
      ResumeFromLandingLeads(c, s, w, done, index);
    }
  }

  lemma CustomRunLeads(k: Control, w: Weight, done: Closure)
    ensures Leads(k, k.(runs := k.runs + [Run(k.handler, done)]).Push(Client(|k.runs|)), w, Tok(w, k.handler, done))
  {
    hide Tok, TokSlots, TokStack, Count;
    var l := k.(runs := k.runs + [Run(k.handler, done)]);
    AddRunCounts(k, w, Run(k.handler, done));
    PushCounts(l, w, Client(|k.runs|));
  }

  lemma PerformModeLeads(c: Setup, s: State, w: Weight, name: string, arguments: Json, done: Closure, answer: Answer)
    requires HandlersCalm(c, s.control) && name in c.actions
    requires c.actions[name].Takeoff? || c.actions[name].Rtl? || c.actions[name].Land? || c.actions[name].OnFailure?
    ensures Leads(s.control, PerformStep(c, s, name, arguments, done, answer).control, w,
      Tok(w, s.control.handler, done))
  {
    hide Leads, RunModeStep, ResumeStep, ChangedSettings, ClosuresCoherent, StackCoherent, KeepsStore, KeepsSegment,
      SamePlace, SameButIndex, StartsNoSettings, StartsOnlyItem;
    var extra := Tok(w, s.control.handler, done);
    SameLeads(s.control, w, extra);
    match c.actions[name]
    case Takeoff => RunModeLeads(c, s, w, TAKEOFF, done, None, answer, extra);
    case Rtl => RunModeLeads(c, s, w, RTL, done, None, answer, extra);
    case Land => RunModeLeads(c, s, w, LAND, done, None, answer, extra);
    case OnFailure => RunModeLeads(c, s, w, RTL, done, Some(TryDescend(s.control.handler, done)), answer, extra);
  }

  lemma PerformOtherLeads(c: Setup, s: State, w: Weight, name: string, arguments: Json, done: Closure, answer: Answer)
    requires HandlersCalm(c, s.control) && name in c.actions && ForCurrent(s.control, done)
    requires c.actions[name].Hold? || c.actions[name].OnResume? || c.actions[name].ChangeSettings? ||
      c.actions[name].Custom?
    ensures Leads(s.control, PerformStep(c, s, name, arguments, done, answer).control, w,
      Tok(w, s.control.handler, done))
  {
    hide Leads, RunModeStep, ResumeStep, ChangedSettings, ClosuresCoherent, StackCoherent, Tok, Coherent, KeepsStore,
      KeepsSegment, StartsNoSettings, SamePlace, SameButIndex;
    var extra := Tok(w, s.control.handler, done);
    SameLeads(s.control, w, extra);
    match c.actions[name]
    case Hold =>
      PushKeeps(c, s.control, ArmTimer(done));
      NopCounts(s.control.handler, w);
      RunModeLeads(c, s.Push(ArmTimer(done)), w, LOITER, Nop, None, answer, 0);
      WaitThenLeads(s.control, RunModeStep(s.Push(ArmTimer(done)), LOITER, Nop, None, answer).control, w,
        ArmTimer(done), extra, 0);
    case OnResume => ResumeLeads(c, s, w, arguments, done);
    case ChangeSettings =>
      ChangedSettingsControl(s, arguments);
      PushLeads(s.control, w, Invoke(done), extra);
    case Custom(_, _) => CustomRunLeads(s.control, w, done);
  }

  lemma NopCounts(cur: nat, w: Weight)
    ensures TokCallback(w, cur, Nop, None) == 0 && Tok(w, cur, Nop) == 0
  {
  }

  lemma PerformLeads(c: Setup, s: State, w: Weight, name: string, arguments: Json, done: Closure, answer: Answer)
    requires HandlersCalm(c, s.control) && name in c.actions && ForCurrent(s.control, done)
    ensures Leads(s.control, PerformStep(c, s, name, arguments, done, answer).control, w,
      Tok(w, s.control.handler, done))
  {
    hide *;
    match c.actions[name]
    case Takeoff => PerformModeLeads(c, s, w, name, arguments, done, answer);
    case Rtl => PerformModeLeads(c, s, w, name, arguments, done, answer);
    case Land => PerformModeLeads(c, s, w, name, arguments, done, answer);
    case OnFailure => PerformModeLeads(c, s, w, name, arguments, done, answer);
    case _ => PerformOtherLeads(c, s, w, name, arguments, done, answer);
  }

  lemma RestoreStepCarries(c: Setup, s: State, w: Weight, rest: seq<ActionState>, h: nat)
    ensures Carries(s.control, RestoreStep(c, s, rest, h).control, w, 0)
  {
    hide Carries, Leads, KeepsStore, SamePlace;
    SameLeads(s.control, w, 0);
    LeadsCarries(s.control, s.control, w, 0);
    if rest != [] {
      PushCarries(s.control, w, Restore(rest[1..], h), 0);
      PerformNextCarries(s.control, w, Restore(rest[1..], h), rest[0]);
    }
  }

  lemma PerformNextCarries(k: Control, w: Weight, f: Frame, a: ActionState)
    requires f.Restore?
    ensures Carries(k, k.Push(f).Push(Perform(a.name, a.arguments, Nop)), w, 0)
  {
    hide Count;
    PushCounts(k, w, f);
    PushCounts(k.Push(f), w, Perform(a.name, a.arguments, Nop));
  }

  lemma StartResumeLeads(c: Setup, s: State, w: Weight, arguments: Json)
    requires HandlersCalm(c, s.control)
    ensures Leads(s.control, StartResume(c, s, arguments).control, w, 1)
  {
    hide Leads, RunActionStep, ClosuresCoherent, StackCoherent, Json.Put;
    SameLeads(s.control, w, 1);
    var given := arguments.Put("action", Str("resume"));
    if given.Success? {
      RunActionLeads(c, s, w, "onResume", given.value, ResumeDone(s.control.handler, s.persistent.currentIndex), 1);
    }
  }

  lemma ActivatedCarries(c: Setup, s: State, w: Weight, h: nat, fromBeginning: bool)
    requires HandlersCalm(c, s.control)
    ensures Carries(s.control, ActivatedStep(c, s, h, fromBeginning).control, w,
      if w.Resting? && fromBeginning then 0 else 1)
  {
    var extra := if w.Resting? && fromBeginning then 0 else 1;
    if s.control.IsValid(h) && ("onResume" !in c.actions || fromBeginning) {
      ActivatedControl(c, s, h, fromBeginning);
      hide Carries, ActivatedStep, ClosuresCoherent, StackCoherent;
      RestoreCarries(s.control, w, StartItem(!fromBeginning, h),
                     OrderedMaps.Values(s.persistent.continuousActions), s.control.handler, extra);
    } else {
      hide Carries, Leads, StartResume, TakeResumeEntry, RunStoredActions, ClosuresCoherent, StackCoherent;
      SameLeads(s.control, w, extra);
      StartResumeLeads(c, TakeResumeEntry(s), w, ResumeArguments(s));
      LeadsCarries(s.control, ActivatedStep(c, s, h, fromBeginning).control, w, extra);
    }
  }

  lemma CommandRunLeads(c: Setup, s: State, w: Weight, run: nat, command: Command, answer: Answer)
    requires HandlersCalm(c, s.control) && s.control.stack != [] && run < |s.control.runs|
    requires RunCoherent(s.control.runs, s.control.handler, s.control.runs[run])
    requires command.RunMode? || command.RunAction? || command.RunTrajectory?
    ensures Leads(s.control, CommandStep(c, s, run, command, answer).control, w, 0)
  {
    hide Leads, RunModeStep, RunActionStep, HandlerTrajectory, DropStep, AddContinuousAction, ClosuresCoherent,
      StackCoherent, SetCurrentIndex, KeepsStore, KeepsSegment, SamePlace, SameButIndex, StartsNoSettings,
      StartsOnlyItem;
    var h := s.control.runs[run].handler;
    SameLeads(s.control, w, 0);
    match command
    case RunMode(mode, handlesFailure) =>
      RunModeLeads(c, s, w, mode, UserCode(h, run), if handlesFailure then Some(UserCode(h, run)) else None, answer, 0);
    case RunAction(name, arguments) =>
      RunActionLeads(c, s, w, name, arguments, UserCode(h, run), 0);
    case RunTrajectory(items, stop) => HandlerTrajectoryLeads(c, s, w, h, items, UserCode(h, run), stop, answer, 0);
  }

  lemma CompleteLeads(k: Control, w: Weight, run: nat)
    requires run < |k.runs| && run !in k.completedRuns
    ensures Leads(k, k.(completedRuns := k.completedRuns + {run}).Push(Invoke(k.runs[run].done)), w, 0)
  {
    var l := k.(completedRuns := k.completedRuns + {run});
    CompleteCounts(k.handler, w, k.runs, k.completedRuns, run);
    PushCounts(l, w, Invoke(k.runs[run].done));
    hide TokRuns, TokStack, TokSlots;
  }

  /** Commands other than a return, which pops the frame of the client. */
  lemma CommandLeads(c: Setup, s: State, w: Weight, run: nat, command: Command, answer: Answer)
    requires HandlersCalm(c, s.control) && s.control.stack != [] && run < |s.control.runs| && !command.Return?
    ensures Leads(s.control, CommandStep(c, s, run, command, answer).control, w, 0)
  {
    hide KeepsStore, KeepsSegment, SamePlace, SameButIndex, StartsNoSettings, StartsOnlyItem;
    assert RunCoherent(s.control.runs, s.control.handler, s.control.runs[run]);
    hide Leads, HandlerMode, RunActionStep, HandlerTrajectory, DropStep, AddContinuousAction, ClosuresCoherent,
      StackCoherent;
    SameLeads(s.control, w, 0);
    match command
    case StoreState(name, arguments) => AddControl(s, ActionState(name, arguments));
    case DropState(id) => DropControl(s, id);
    case Complete =>
      if run !in s.control.completedRuns {
        CompleteLeads(s.control, w, run);
      }
    case ClearOptions =>
    case SetOptions(_) =>
    case SetIndex(_) =>
    case Abort =>
    case _ => CommandRunLeads(c, s, w, run, command, answer);
  }

  lemma HeadedCarries(k: Control, l: Control, w: Weight, f: Frame)
    requires l == k.(flight := l.flight) && (OpFrame(f) || f.StartItem?)
    requires Count(l, w) + TokFrame(k.handler, w, f) <= Count(k, w)
    ensures Carries(k, l.Push(f), w, 0)
  {
    hide Count, TokFrame;
    PushCounts(l, w, f);
  }

  lemma FlownCarries(k: Control, l: Control, w: Weight)
    requires l == k.(flight := l.flight) && Count(l, w) <= Count(k, w)
    ensures Carries(k, l, w, 0)
  {
    hide Count;
  }

  /** The report that a trajectory makes is consumed when its last index is reached. */
  lemma ReachIndexCarries(s: State, w: Weight, index: int)
    requires OneValidHandler(s.control) && s.control.flight.target == Some(index) && index <= s.control.flight.end
    requires s.control.flight.report.SegmentStep? ==> s.control.flight.report.end == s.control.flight.end
    requires s.control.flight.report.CustomStep? ==> s.control.flight.report.end == s.control.flight.end
    ensures Carries(s.control, ReachIndex(s, index).control, w, 0)
  {
    hide Count, TokReport, ReachIndex, Carries, KeepsStore, KeepsSegment, SamePlace, SameButIndex, StartsNoSettings,
      StartsOnlyItem;
    var k, f := s.control, s.control.flight;
    var l := k.(flight := f.(target := if index + 1 > f.end then None else Some(index + 1)));
    ReachIndexControl(s, index);
    TargetCounts(k, l, w);
    ReportCounts(k.handler, w, f.report);
    FlownCarries(k, l, w);
    match f.report
    case NoReport =>
    case SegmentStep(h, end) =>
      if k.IsValid(h) && index == end {
        HeadedCarries(k, l, w, StartItem(false, h));
      }
    case CustomStep(done, end) =>
      if index == end {
        HeadedCarries(k, l, w, Invoke(done));
      }
  }

  lemma ReportCounts(cur: nat, w: Weight, r: IndexCallback)
    ensures r.SegmentStep? ==> TokReport(cur, w, r) == if w.Starting() && r.handler == cur then 1 else 0
    ensures r.CustomStep? ==> TokReport(cur, w, r) == Tok(w, cur, r.done)
  {
  }

  lemma TargetCounts(k: Control, l: Control, w: Weight)
    requires l == k.(flight := k.flight.(target := l.flight.target)) && k.flight.target.Some?
    ensures Count(l, w) + (if l.flight.target.Some? then 0 else TokReport(k.handler, w, k.flight.report)) == Count(k, w)
  {
    hide Tok, TokReport, TokCallback, TokStack, TokRuns;
  }

  lemma LeaveCounts(c: Setup, s: State, w: Weight)
    requires HandlersCalm(c, s.control) && s.control.stack == []
    ensures Count(Leave(s).control, w) == 0 && Leave(s).control.handler > s.control.handler &&
      Leave(s).control.stack == []
  {
    hide Count, ClosuresCoherent, StackCoherent, HandlersOk;
    var u := SetScheduled(s.(active := false), None);
    ScheduleKeeps(c, s.control, None);
    InvalidateCounts(c, u, w);
  }

  lemma DeactivateCounts(c: Setup, s: State, w: Weight)
    requires HandlersCalm(c, s.control) && s.control.stack == []
    ensures Count(OnDeactivate(c, s).control, w) == 0
    ensures OnDeactivate(c, s).control.handler > s.control.handler
  {
    hide Count, HandlersCalm, Leave, MissionDone, OnDeactivate;
    LeaveCounts(c, s, w);
    var k := Leave(s).control;
    OnDeactivateControl(c, s);
    PushCounts(k, w, Cleanup);
    PushCounts(k.Push(Cleanup), w, SaveState);
    PushCounts(k.Push(Cleanup).Push(SaveState), w, StoreResume);
  }

  lemma ActivateCounts(c: Setup, s: State, w: Weight)
    requires HandlersCalm(c, s.control)
    ensures Count(OnActivate(c, s).control, w) <= Count(s.control, w) +
      (if w.All? || w.Resuming? || (w.Resting? && s.persistent.currentIndex.Some?) then 1 else 0)
    ensures OnActivate(c, s).control.handler >= s.control.handler
  {
    hide Leads, Carries, Count, ClosuresCoherent, StackCoherent, StartAbort, KeepsStore, KeepsSegment, SamePlace,
      SameButIndex, StartsNoSettings, StartsOnlyItem;
    var t := s.(active := true, options := s.mission.defaults, itemState := Other, activeMode := c.ownMode);
    StartAbortLeads(c, t, w, "noValidMission", 0);
    LeadsOn(s.control, StartAbort(t, "noValidMission").control, w, 0);
    var f := Activated(t.control.handler, t.persistent.currentIndex.None?);
    PushCounts(t.control, w, f);
    PushCounts(t.control.Push(f), w, ActivatedHook);
  }

  lemma EnterAbortCounts(s: State, w: Weight)
    ensures Count(EnterAbort(s).control, w) == Count(s.control, w)
    ensures Count(CountFailure(EnterAbort(s)).control, w) == Count(s.control, w)
  {
    hide Count, KeepsStore, KeepsSegment, SamePlace, SameButIndex, StartsNoSettings, StartsOnlyItem;
    var k := s.control;
    var failures := if k.abortLevel == 0 then 0 else k.failureRuns;
    var l := k.(abortLevel := k.abortLevel + 1, failureRuns := failures);
    CountersCount(k, w, k.abortLevel + 1, failures);
    PushCounts(l, w, AbortEnd);
    CountersCount(l.Push(AbortEnd), w, l.abortLevel, failures + 1);
  }

  lemma AbortMainCounts(c: Setup, s: State, w: Weight, reason: string)
    requires HandlersCalm(c, s.control)
    ensures Count(AbortMainStep(c, s, reason).control, w) <= Count(s.control, w)
    ensures AbortMainStep(c, s, reason).control.handler >= s.control.handler
  {
    hide Leads, Carries, Count, RunActionStep, FailureArguments, ClosuresCoherent, StackCoherent, HandlersOk,
      KeepsStore, SamePlace;
    var t, a := CountFailure(EnterAbort(s)), FailureArguments(EnterAbort(s), reason);
    EnterAbortKeeps(c, s);
    EnterAbortCounts(s, w);
    RunActionLeads(c, t, w, "onFailure", a, Nop, 0);
    LeadsOn(t.control, RunActionStep(c, t, "onFailure", a, Nop).control, w, 0);
  }

  lemma TimerCounts(k: Control, w: Weight, done: Closure)
    ensures Count(k.(holdTimer := Some(done)), w) <= Count(k, w) + Tok(w, k.handler, done)
  {
    hide Tok, TokReport, TokCallback, TokStack, TokRuns;
  }

  lemma CountersCount(k: Control, w: Weight, level: nat, failures: nat)
    ensures Count(k.(abortLevel := level, failureRuns := failures), w) == Count(k, w)
    ensures Count(k.(failureRuns := failures), w) == Count(k, w)
    ensures Count(k.(abortLevel := level), w) == Count(k, w)
  {
    hide TokStack, TokRuns, Tok, TokReport;
  }
}
