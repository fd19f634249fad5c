/** Every uninterrupted mission comes to rest and can be completed: each step that goes on lowers the work that is left,
    and delivering what is pending then completes one item after the other, up to the end of the mission. */
module MissionCompletion {
  import opened Wrappers
  import opened JsonValues
  import opened Missions
  import opened PersistentStates
  import OrderedMaps
  import opened Segments
  import opened MissionTypes
  import opened MissionSteps
  import opened MissionHandlers
  import opened MissionTokens
  import opened MissionIndex
  import opened MissionRun
  import opened MissionProgress

  // ---- Missions whose actions accept their arguments ----

  predicate Accepts(kind: ActionKind, arguments: Json) {
    match kind
    case Takeoff => arguments.Contains("altitude") ==> arguments.members["altitude"].GetFloat().Success?
    case Hold => arguments.Contains("duration") ==> arguments.members["duration"].GetFloat().Success?
    case ChangeSettings =>
      && ResetsAll(arguments).Success?
      && (ResetsAll(arguments).value || MergedOptions(NoOptions, arguments).Success?)
    case OnResume => false
    case _ => true
  }

  ghost predicate Acceptable(c: Setup, m: Mission) {
    forall i: nat :: i < |m.items| && m.items[i].ActionItem? ==>
      m.items[i].name in c.actions && Accepts(c.actions[m.items[i].name], m.items[i].arguments)
  }

  /** Whether merging succeeds does not depend on the options that are merged into. */
  lemma MergesAlike(a: TrajectoryOptions, b: TrajectoryOptions, arguments: Json)
    ensures MergedOptions(a, arguments).Success? == MergedOptions(b, arguments).Success?
  {
  }

  lemma TakeoffAccepted(s: State, arguments: Json, done: Closure)
    requires !s.crashed && Accepts(Takeoff, arguments)
    ensures !TakeoffStep(s, arguments, done, Accepted).crashed
  {
    hide RunModeStep, SamePlace, KeepsStore, KeepsSegment, StartsNoSettings, MergedOptions, ResetsAll, Json.GetFloat;
  }

  lemma HoldAccepted(s: State, arguments: Json, done: Closure)
    requires !s.crashed && Accepts(Hold, arguments)
    ensures !HoldStep(s, arguments, done, Accepted).crashed
  {
    hide RunModeStep, SamePlace, KeepsStore, KeepsSegment, StartsNoSettings, MergedOptions, ResetsAll, Json.GetFloat;
  }

  lemma SettingsAccepted(s: State, arguments: Json)
    requires Accepts(ChangeSettings, arguments) && !s.crashed
    ensures ChangedSettings(s, arguments).Success? && !ChangedSettings(s, arguments).value.crashed
  {
    hide StoreSettings, DropSettingsKeeper, SamePlace, MergedOptions, ResetsAll;
    MergesAlike(NoOptions, s.options, arguments);
  }

  lemma ResumeRefused(arguments: Json)
    ensures !Accepts(OnResume, arguments)
  {
  }

  lemma PerformAccepted(c: Setup, s: State, name: string, arguments: Json, done: Closure)
    requires name in c.actions &&
      Accepts(c.actions[name], arguments) && !s.crashed
    ensures var t := PerformStep(c, s, name, arguments, done, Accepted); !t.crashed && SamePlace(s, t)
  {
    hide RunModeStep, ChangedSettings, TakeoffStep, HoldStep, ResumeStep, Accepts, SamePlace, SameButIndex, KeepsStore,
      KeepsSegment, StartsNoSettings;
    match c.actions[name]
    case Takeoff => TakeoffAccepted(s, arguments, done);
    case Hold => HoldAccepted(s, arguments, done);
    case ChangeSettings => SettingsAccepted(s, arguments);
    case OnResume => ResumeRefused(arguments);
    case _ =>
  }

  // ---- Cooperative runs that follow each other ----

  ghost predicate Reaches(c: Setup, s: State, t: State) {
    exists ls: seq<Label> :: CooperativeRun(c, s, ls) && Steps(c, s, ls) == t
  }

  lemma ReachesItself(c: Setup, s: State)
    ensures Reaches(c, s, s)
  {
    assert CooperativeRun(c, s, []) && Steps(c, s, []) == s;
  }

  lemma {:induction false} RunsOn(c: Setup, s: State, a: seq<Label>, b: seq<Label>)
    requires CooperativeRun(c, s, a) && CooperativeRun(c, Steps(c, s, a), b)
    ensures CooperativeRun(c, s, a + b) && Steps(c, s, a + b) == Steps(c, Steps(c, s, a), b)
  {
    hide Step, Cooperates;
    if b == [] {
      assert a + b == a;
    } else {
      RunsOn(c, s, a, b[..|b| - 1]);
      assert (a + b)[..|a + b| - 1] == a + b[..|b| - 1];
    }
  }

  lemma ReachesFurther(c: Setup, s: State, t: State, u: State)
    requires Reaches(c, s, t) && Reaches(c, t, u)
    ensures Reaches(c, s, u)
  {
    hide CommandStep, Continue, ExternalStep, StartAbort, Steady;
    var a: seq<Label> :| CooperativeRun(c, s, a) && Steps(c, s, a) == t;
    var b: seq<Label> :| CooperativeRun(c, t, b) && Steps(c, t, b) == u;
    RunsOn(c, s, a, b);
  }

  lemma ReachesStep(c: Setup, s: State, l: Label)
    requires Cooperates(c, s, l)
    ensures Reaches(c, s, Step(c, s, l))
  {
    hide Step, Cooperates;
    OneStep(c, s, l);
    assert [l][..0] == [];
    assert Steps(c, s, []) == s;
    assert CooperativeRun(c, s, []);
    assert CooperativeRun(c, s, [l]);
  }

  // ---- Work that is left ----

  function FrameRank(f: Frame, stored: nat): nat {
    match f
    case Invoke(_) => 2
    case Perform(_, _, _) => 3
    case StartItem(_, _) => 4
    case Restore(rest, _) => 1 + 4 * |rest|
    case Activated(_, _) => 6 + 4 * stored
    case _ => 1
  }

  function Rank(stack: seq<Frame>, stored: nat): nat {
    if stack == [] then 0 else Rank(stack[..|stack| - 1], stored) + FrameRank(stack[|stack| - 1], stored)
  }

  function Stored(s: State): nat {
    |s.persistent.continuousActions|
  }

  function ItemsLeft(s: State): nat {
    match s.persistent.currentIndex
    case None => |s.mission.items|
    case Some(i) => if i <= |s.mission.items| then |s.mission.items| - i else 0
  }

  /** The items that are left, and all that is on the stack. */
  function Work(s: State): nat {
    3 * ItemsLeft(s) + Rank(s.control.stack, Stored(s))
  }

  lemma RankPush(stack: seq<Frame>, f: Frame, stored: nat)
    ensures Rank(stack + [f], stored) == Rank(stack, stored) + FrameRank(f, stored)
  {
    assert (stack + [f])[..|stack|] == stack;
  }

  ghost predicate NoEntry(stack: seq<Frame>) {
    forall i: nat :: i < |stack| ==> !stack[i].Activated?
  }

  /** Without an activation on the stack the stored actions do not matter. */
  lemma {:induction false} RankWithout(stack: seq<Frame>, a: nat, b: nat)
    requires NoEntry(stack)
    ensures Rank(stack, a) == Rank(stack, b)
  {
    if stack != [] {
      assert forall i: nat :: i < |stack| - 1 ==> stack[..|stack| - 1][i] == stack[i];
      RankWithout(stack[..|stack| - 1], a, b);
    }
  }

  /** Below anything but the client code of the activation there is no activation. */
  lemma EntryOnTop(k: Control)
    requires Shaped(k) && k.stack != [] && !k.Top().ActivatedHook?
    ensures NoEntry(k.Popped().stack)
  {
    var m := k.Popped();
    forall i: nat | i < |m.stack|
      ensures !m.stack[i].Activated?
    {
      assert ShapedAt(k, i) && ShapedAt(k, i + 1);
    }
  }

  /** The stack after a step: what was below the top, and at most two frames on it. */
  lemma WorkOf(s: State, t: State, pushed: seq<Frame>)
    requires Shaped(s.control) && s.control.stack != [] && !s.control.Top().ActivatedHook? && |pushed| <= 2
    requires t.control.stack == s.control.Popped().stack + pushed && forall i :: 0 <= i < |pushed| ==>
      !pushed[i].Activated?
    ensures Work(t) - 3 * ItemsLeft(t) + FrameRank(s.control.Top(), Stored(s))
         == Work(s) - 3 * ItemsLeft(s) + (if |pushed| > 0 then FrameRank(pushed[0], 0) else 0)
                                       + (if |pushed| > 1 then FrameRank(pushed[1], 0) else 0)
  {
    var m := s.control.Popped().stack;
    EntryOnTop(s.control);
    RankWithout(m, Stored(s), Stored(t));
    if |pushed| == 0 {
      assert m + pushed == m;
    } else if |pushed| == 1 {
      assert pushed == [pushed[0]];
      RankPush(m, pushed[0], Stored(t));
    } else {
      assert m + pushed == m + [pushed[0]] + [pushed[1]];
      RankPush(m, pushed[0], Stored(t));
      RankPush(m + [pushed[0]], pushed[1], Stored(t));
    }
  }

  /** The executor goes on by itself, or client code returns. */
  predicate GoesOn(s: State, l: Label) {
    s.control.stack != [] && if InClient(s.control.Top()) then l.User? && l.command.Return? else l.Internal?
  }

  lemma SameItems(s: State, t: State)
    requires t.mission == s.mission && t.persistent.currentIndex == s.persistent.currentIndex
    ensures ItemsLeft(t) == ItemsLeft(s)
  {
  }

  /** The index of the next item. */
  function NextIndex(s: State): Option<int> {
    match s.persistent.currentIndex
    case None => Some(0)
    case Some(i) => Some(i + 1)
  }

  /** One item less is left. */
  ghost predicate CompletesItem(s: State, t: State) {
    && AtItem(s) && t.mission == s.mission && t.persistent.currentIndex == NextIndex(s)
    && ItemsLeft(t) == ItemsLeft(s) - 1
  }

  lemma NextCompletes(c: Setup, s: State)
    requires Placed(c, s) && s.control.Top() == Invoke(ItemDone(s.control.handler))
    ensures CompletesItem(s, RunNextItem(Popped(s)))
    ensures RunNextItem(Popped(s)).control == s.control.Popped().Push(StartItem(false, s.control.handler))
  {
    hide HandlersOk, Count, KeepsStore, KeepsSegment, StartsNoSettings;
    PopCounts(s.control, Resting);
  }

  /** A completion that is delivered completes the item: one less is left, and the next one starts. */
  lemma CompletionAdvances(c: Setup, s: State, answer: Answer)
    requires Placed(c, s) && !s.crashed && s.control.Top() == Invoke(ItemDone(s.control.handler))
    ensures CompletesItem(s, Step(c, s, Internal(answer)))
    ensures Step(c, s, Internal(answer)).control == s.control.Popped().Push(StartItem(false, s.control.handler))
  {
    hide Step, HandlersOk, Count, InvokeStep, RunNextItem, CompletesItem;
    InvokeFrame(c, s, ItemDone(s.control.handler), answer);
    ValidHandler(c, s.control);
    InvokeItemDone(c, Popped(s), ItemDone(s.control.handler), answer);
    NextCompletes(c, s);
  }

  lemma InvokeLowers(c: Setup, s: State, t: State, closure: Closure, answer: Answer)
    requires Placed(c, s) && Shaped(s.control) && s.control.Top() == Invoke(closure) && Straight(closure)
    requires t == InvokeStep(c, Popped(s), closure, answer)
    ensures Work(t) < Work(s)
  {
    hide HandlersOk, Count, InvokeStep, Work, RunNextItem, Rank, KeepsSegment, StartsNoSettings;
    ValidHandler(c, s.control);
    InvokeState(c, Popped(s), closure, answer);
    if closure == ItemDone(s.control.handler) {
      NextCompletes(c, s);
      WorkOf(s, t, [StartItem(false, s.control.handler)]);
    } else {
      SameItems(s, t);
      WorkOf(s, t, match closure case UserCode(_, run) => [Client(run)] case _ => []);
    }
    WorkIs(s);
    WorkIs(t);
  }

  lemma WorkIs(s: State)
    ensures Work(s) == 3 * ItemsLeft(s) + Rank(s.control.stack, Stored(s))
  {
  }

  lemma PerformLowers(c: Setup, s: State, t: State, name: string, arguments: Json, done: Closure)
    requires Lively(s) && s.control.Top() == Perform(name, arguments, done)
    requires name in c.actions && !c.actions[name].OnResume?
    requires t == PerformStep(c, Popped(s), name, arguments, done, Accepted) && !t.crashed
    ensures Work(t) < Work(s)
  {
    hide Lively, PerformStep, Work, Shaped, InRuns;
    var u := Popped(s);
    PoppedActive(s);
    ShapedLively(s);
    assert SamePlace(u, PerformStep(c, u, name, arguments, done, Accepted)) by {
      hide PerformStep, SamePlace, SameButIndex;
    }
    SameItems(s, t);
    if UsesMode(c.actions[name]) {
      ModeActionState(c, u, name, arguments, done);
      WorkOf(s, t, []);
    } else if c.actions[name].Hold? {
      HoldActionState(c, u, name, arguments, done);
      WorkOf(s, t, [ArmTimer(done)]);
    } else {
      OtherActionState(c, u, name, arguments, done);
      WorkOf(s, t, [if c.actions[name].Custom? then Client(|s.control.runs|) else Invoke(done)]);
    }
  }

  lemma ActivatedLowers(c: Setup, s: State, t: State, h: nat, fromBeginning: bool)
    requires OneValidHandler(s.control) && Shaped(s.control) && s.control.Top() == Activated(h, fromBeginning)
    requires t == ActivatedStep(c, Popped(s), h, fromBeginning)
    ensures Work(t) < Work(s)
  {
    hide ActivatedStep, Work, Shaped, OrderedMaps.Values, FliesMission, KeepsSegment, StartsNoSettings;
    ShapedEntry(s.control, h, fromBeginning);
    ActivatedState(c, Popped(s), h);
    SameItems(s, t);
    var pushed := [StartItem(false, h), Restore(OrderedMaps.Values(s.persistent.continuousActions), h)];
    assert t.control.stack == s.control.Popped().stack + pushed;
    WorkOf(s, t, pushed);
  }

  lemma RestoreLowers(c: Setup, s: State, t: State, rest: seq<ActionState>, h: nat)
    requires Shaped(s.control) && s.control.Top() == Restore(rest, h) && t == RestoreStep(c, Popped(s), rest, h)
    ensures Work(t) < Work(s)
  {
    hide Work, Shaped, KeepsStore, KeepsSegment, FliesMission;
    var m := s.control.Popped().stack;
    SameItems(s, t);
    if rest == [] {
      WorkOf(s, t, []);
    } else if t.control.stack == m + [Restore(rest[1..], h)] {
      WorkOf(s, t, [Restore(rest[1..], h)]);
    } else {
      var pushed := [Restore(rest[1..], h), Perform(rest[0].name, rest[0].arguments, Nop)];
      assert t.control.stack == m + pushed;
      WorkOf(s, t, pushed);
    }
  }

  lemma StartLowers(c: Setup, s: State, t: State, resuming: bool, i: nat)
    requires Lively(s) && s.control.Top().StartItem? && s.persistent.currentIndex == Some(i)
    requires t == StartItemStep(c, Popped(s), resuming, Accepted)
    requires t.control.handler == s.control.handler && !t.crashed
    ensures Work(t) < Work(s)
  {
    hide Lively, StartItemStep, Work, Shaped, FliesMission, KeepsStore;
    var u := Popped(s);
    PoppedActive(s);
    ShapedLively(s);
    SameItems(s, t);
    if !AtItem(s) {
      StartEndState(c, u, resuming);
      WorkOf(s, t, []);
    } else if s.mission.items[i].ActionItem? {
      StartActionState(c, u, resuming, i, Accepted);
      var a: Json :| t.control == u.control.Push(Perform(s.mission.items[i].name, a, ItemDone(u.control.handler)));
      WorkOf(s, t, [Perform(s.mission.items[i].name, a, ItemDone(u.control.handler))]);
    } else {
      StartSegmentState(c, u, resuming, i);
      WorkOf(s, t, if u.activeMode == c.ownMode then [] else [EnterTrajectory]);
    }
  }

  lemma ReturnLowers(c: Setup, s: State, t: State, f: Frame)
    requires Shaped(s.control) && s.control.stack != [] && s.control.Top() == f && (f.ArmTimer? || f.EnterTrajectory?)
    requires t == ReturnStep(c, Popped(s), f)
    ensures Work(t) < Work(s)
  {
    hide Work, Shaped, FliesMission, KeepsSegment, SaveStep, DeactivateDefaults;
    SameItems(s, t);
    WorkOf(s, t, []);
  }

  lemma PoppedLowers(s: State)
    requires s.control.stack != []
    ensures Work(Popped(s)) < Work(s)
  {
    hide FliesMission;
    SameItems(s, Popped(s));
  }

  /** The return of client code. */
  lemma ClientReturns(c: Setup, s: State, answer: Answer)
    requires HandlersOk(c, s.control) && !s.crashed && InClient(s.control.Top())
    ensures Step(c, s, User(Return, answer)) == Popped(s)
  {
    hide Step, CommandStep, ClosuresCoherent;
    match s.control.Top()
    case Client(run) =>
      ClientStep(c, s, run, Return, answer);
      assert FrameCoherent(c, s.control.runs, s.control.handler, s.control.stack[|s.control.stack| - 1]);
      ReturnPops(c, s, run, answer);
    case _ => HookStep(c, s, answer);
  }

  /** Every step by which the executor goes on by itself, and every return of client code, leaves less work. */
  lemma GoingOnLowers(c: Setup, s: State, l: Label)
    requires Placed(c, s) && Lively(s) && Cooperates(c, s, l) && GoesOn(s, l) && s.persistent.currentIndex.Some?
    ensures Work(Step(c, s, l)) < Work(s)
  {
    hide Step, HandlersOk, Count, Lively, Work, Rank, InvokeStep, PerformStep, ActivatedStep, RestoreStep,
      StartItemStep, ReturnStep, InRuns, KeepsStore, KeepsSegment, SamePlace, SameButIndex, StartsNoSettings,
      StartsOnlyItem;
    var t := Step(c, s, l);
    ShapedLively(s);
    TopShaped(s.control);
    ValidHandler(c, s.control);
    match s.control.Top()
    case Invoke(closure) =>
      InvokeFrame(c, s, closure, Accepted);
      InvokeLowers(c, s, t, closure, Accepted);
    case Perform(name, arguments, done) =>
      PerformFrame(c, s, name, arguments, done, Accepted);
      KnownAction(c, s.control);
      PerformLowers(c, s, t, name, arguments, done);
    case Activated(h, fromBeginning) =>
      ActivatedFrame(c, s, h, fromBeginning, Accepted);
      ActivatedLowers(c, s, t, h, fromBeginning);
    case Restore(rest, h) =>
      RestoreFrame(c, s, rest, h, Accepted);
      RestoreLowers(c, s, t, rest, h);
    case StartItem(resuming, h) =>
      StartFrame(c, s, resuming, h, Accepted);
      PlacedIndex(c, s);
      StartLowers(c, s, t, resuming, s.persistent.currentIndex.value);
    case f =>
      if InClient(f) {
        ClientReturns(c, s, Accepted);
        PoppedLowers(s);
      } else {
        ReturnFrame(c, s, Accepted);
        ReturnLowers(c, s, t, f);
      }
  }

  // ---- Coming to rest ----

  /** All labels are steps by which the executor goes on, or returns of client code. */
  ghost predicate AllGoOn(c: Setup, s: State, ls: seq<Label>) {
    ls == [] || (AllGoOn(c, s, ls[..|ls| - 1]) && GoesOn(Steps(c, s, ls[..|ls| - 1]), ls[|ls| - 1]))
  }

  lemma RunningMission(s: State, base: State)
    requires Running(s, base)
    ensures s.mission == base.mission && s.persistent.currentIndex.Some?
  {
    hide Count, SegmentsFrom, Reported, HasStart;
  }

  lemma {:induction false} WorkBounds(c: Setup, s: State, ls: seq<Label>, base: State)
    requires Placed(c, s) && Lively(s) && Running(s, base) && CooperativeRun(c, s, ls) && AllGoOn(c, s, ls)
    ensures |ls| + Work(Steps(c, s, ls)) <= Work(s)
  {
    hide Placed, Lively, Running, Step, Cooperates, GoesOn, Work;
    if ls != [] {
      var t := Steps(c, s, ls[..|ls| - 1]);
      WorkBounds(c, s, ls[..|ls| - 1], base);
      StaysLively(c, s, ls[..|ls| - 1], base);
      RunningMission(t, base);
      GoingOnLowers(c, t, ls[|ls| - 1]);
    }
  }

  /** From every state of a cooperative run, the executor comes to rest: as long as nothing arrives and client code
      returns, it takes at most as many steps as there is work on the stack and in the mission. */
  lemma ComesToRest(c: Setup, file: Option<Json>, before: seq<Label>, ls: seq<Label>, more: seq<Label>)
    requires BeginsAt(c, Steps(c, Initial(file), before))
    requires var s := Steps(c, Initial(file), before);
      var t := Steps(c, OnActivate(c, s), ls);
      CooperativeRun(c, OnActivate(c, s), ls) && CooperativeRun(c, t, more) && AllGoOn(c, t, more)
    ensures var t := Steps(c, OnActivate(c, Steps(c, Initial(file), before)), ls);
      |more| + Work(Steps(c, t, more)) <= Work(t)
  {
    hide Placed, Lively, Running, Step, CooperativeRun, AllGoOn, Work, OnActivate;
    var s := Steps(c, Initial(file), before);
    NeverStuck(c, file, before, ls);
    WorkBounds(c, Steps(c, OnActivate(c, s), ls), more, s);
  }

  // ---- Settling ----

  /** A stored entry that is restored accepts its arguments. */
  predicate AcceptsEntry(c: Setup, e: ActionState) {
    e.name in c.actions && e.name != "onResume" ==> Accepts(c.actions[e.name], e.arguments)
  }

  /** Neither a resumption nor a failure action is under way. */
  predicate Plain(done: Closure) {
    done.Nop? || done.UserCode? || done.ItemDone?
  }

  predicate DrivenFrame(c: Setup, f: Frame) {
    match f
    case Client(_) => true
    case ActivatedHook => true
    case Activated(_, _) => true
    case EnterTrajectory => true
    case ArmTimer(_) => true
    case Invoke(done) => Plain(done)
    case StartItem(resuming, _) => !resuming
    case Perform(name, a, done) => Plain(done) && name in c.actions && Accepts(c.actions[name], a)
    case Restore(rest, _) => forall i :: 0 <= i < |rest| ==> AcceptsEntry(c, rest[i])
    case _ => false
  }

  ghost predicate DrivenStack(c: Setup, k: Control) {
    forall i: nat :: i < |k.stack| ==> DrivenFrame(c, k.stack[i])
  }

  /** What is under way accepts its arguments, and so does what an activation is about to restore. */
  ghost predicate Acceptance(c: Setup, s: State) {
    && DrivenStack(c, s.control)
    && (NoEntry(s.control.stack) || forall id :: id in s.persistent.continuousActions ==>
       AcceptsEntry(c, s.persistent.continuousActions[id]))
  }

  ghost predicate Driven(c: Setup, s: State) {
    && Placed(c, s) && Lively(s) && !s.crashed && s.persistent.currentIndex.Some?
    && Acceptable(c, s.mission) && Acceptance(c, s)
  }

  /** The innermost frame goes on; client code returns. */
  function Onwards(s: State): Label {
    if InClient(s.control.Top()) then User(Return, Accepted) else Internal(Accepted)
  }

  /** What a step leads to: nothing fails or aborts, and the same item or the next one is current. */
  ghost predicate Settling(c: Setup, s: State, t: State) {
    && !t.crashed && t.control.handler == s.control.handler && t.mission == s.mission && Acceptance(c, t)
    && (t.persistent.currentIndex == s.persistent.currentIndex
        || (AtItem(s) && t.persistent.currentIndex == NextIndex(s)))
  }

  /** The frames that a step leaves: what was below the top, and at most two on it. */
  lemma DrivenAfter(c: Setup, s: State, t: State, pushed: seq<Frame>)
    requires Acceptance(c, s) && Shaped(s.control) && s.control.stack != [] && !s.control.Top().ActivatedHook?
    requires t.control.stack == s.control.Popped().stack + pushed
    requires forall i :: 0 <= i < |pushed| ==> DrivenFrame(c, pushed[i]) && !pushed[i].Activated?
    ensures Acceptance(c, t)
  {
    hide DrivenFrame, Accepts;
    EntryOnTop(s.control);
    var n := |s.control.stack| - 1;
    forall i: nat | i < |t.control.stack|
      ensures DrivenFrame(c, t.control.stack[i]) && !t.control.stack[i].Activated?
    {
      if i < n {
        assert t.control.stack[i] == s.control.stack[i] == s.control.Popped().stack[i];
      } else {
        assert t.control.stack[i] == pushed[i - n];
      }
    }
  }

  lemma TopDriven(c: Setup, s: State)
    requires Acceptance(c, s) && s.control.stack != []
    ensures DrivenFrame(c, s.control.Top())
  {
    assert DrivenFrame(c, s.control.stack[|s.control.stack| - 1]);
  }

  // ---- The steps of settling ----

  lemma DrivenBasics(c: Setup, s: State)
    requires Driven(c, s)
    ensures Placed(c, s) && Lively(s) && !s.crashed && s.persistent.currentIndex.Some? && s.active && Shaped(s.control)
    ensures Acceptable(c, s.mission) && Acceptance(c, s)
    ensures 0 <= Current(s) <= |s.mission.items|
  {
    hide ClosuresCoherent, StackCoherent, Count, Shaped, Guarded, Alive, Followed, Acceptable, DrivenStack;
  }

  lemma SettleInvoke(c: Setup, s: State, t: State, closure: Closure)
    requires Driven(c, s) && s.control.Top() == Invoke(closure) && t == InvokeStep(c, Popped(s), closure, Accepted)
    ensures Settling(c, s, t)
  {
    hide Driven, HandlersOk, Count, Lively, Acceptable, Acceptance, Shaped, InvokeStep, KeepsStore, KeepsSegment,
      StartsNoSettings, FliesMission;
    DrivenBasics(c, s);
    TopDriven(c, s);
    ValidHandler(c, s.control);
    InvokeState(c, Popped(s), closure, Accepted);
    if closure == ItemDone(s.control.handler) {
      NextCompletes(c, s);
      DrivenAfter(c, s, t, [StartItem(false, s.control.handler)]);
    } else {
      DrivenAfter(c, s, t, match closure case UserCode(_, run) => [Client(run)] case _ => []);
    }
  }

  lemma SettlePerform(c: Setup, s: State, t: State, name: string, arguments: Json, done: Closure)
    requires Driven(c, s) && s.control.Top() == Perform(name, arguments, done)
    requires t == PerformStep(c, Popped(s), name, arguments, done, Accepted)
    ensures Settling(c, s, t)
  {
    hide Driven, Placed, Lively, Acceptable, Acceptance, Shaped, PerformStep, Accepts, FliesMission, KeepsStore,
      KeepsSegment, StartsNoSettings, StartsOnlyItem;
    var u := Popped(s);
    DrivenBasics(c, s);
    TopDriven(c, s);
    PerformAccepted(c, u, name, arguments, done);
    if UsesMode(c.actions[name]) {
      ModeActionState(c, u, name, arguments, done);
      DrivenAfter(c, s, t, []);
    } else if c.actions[name].Hold? {
      HoldActionState(c, u, name, arguments, done);
      DrivenAfter(c, s, t, [ArmTimer(done)]);
    } else {
      ResumeRefused(arguments);
      OtherActionState(c, u, name, arguments, done);
      DrivenAfter(c, s, t, [if c.actions[name].Custom? then Client(|s.control.runs|) else Invoke(done)]);
    }
  }

  lemma SettleActivated(c: Setup, s: State, t: State, h: nat, fromBeginning: bool)
    requires Driven(c, s) && s.control.Top() == Activated(h, fromBeginning)
    requires t == ActivatedStep(c, Popped(s), h, fromBeginning)
    ensures Settling(c, s, t)
  {
    hide HandlersOk, Count, Lively, Acceptable, Shaped, ActivatedStep, OrderedMaps.Values, FliesMission, AcceptsEntry,
      KeepsSegment, StartsNoSettings;
    DrivenBasics(c, s);
    ValidHandler(c, s.control);
    ShapedEntry(s.control, h, fromBeginning);
    ActivatedState(c, Popped(s), h);
    StoredAccept(c, s.persistent.continuousActions);
    ActivatedCrashed(c, Popped(s), h);
    DrivenAfter(c, s, t, [StartItem(false, h), Restore(OrderedMaps.Values(s.persistent.continuousActions), h)]);
  }

  lemma ActivatedCrashed(c: Setup, s: State, h: nat)
    requires OneValidHandler(s.control) && h == s.control.handler
    ensures ActivatedStep(c, s, h, true).crashed == s.crashed
  {
    hide StartResume, TakeResumeEntry, KeepsStore, KeepsSegment, StartsNoSettings, SamePlace;
  }

  lemma StoredAccept(c: Setup, actions: map<nat, ActionState>)
    requires forall id :: id in actions ==> AcceptsEntry(c, actions[id])
    ensures forall i :: 0 <= i < |OrderedMaps.Values(actions)| ==> AcceptsEntry(c, OrderedMaps.Values(actions)[i])
  {
    hide AcceptsEntry, OrderedMaps.Ascending;
    var keys := OrderedMaps.SortedKeys(actions.Keys);
    assert forall i :: 0 <= i < |keys| ==> keys[i] in keys;
  }

  lemma SettleRestore(c: Setup, s: State, t: State, rest: seq<ActionState>, h: nat)
    requires Driven(c, s) && s.control.Top() == Restore(rest, h) && t == RestoreStep(c, Popped(s), rest, h)
    ensures Settling(c, s, t)
  {
    hide Placed, Lively, Acceptable, Shaped, Accepts, FliesMission, KeepsStore, KeepsSegment;
    DrivenBasics(c, s);
    TopDriven(c, s);
    if rest == [] {
      DrivenAfter(c, s, t, []);
    } else {
      assert AcceptsEntry(c, rest[0]) && forall i :: 0 <= i < |rest[1..]| ==> AcceptsEntry(c, rest[1..][i]) by {
        hide AcceptsEntry;
      }
      var loop := Restore(rest[1..], h);
      var pushed := if rest[0].name !in c.actions || rest[0].name == "onResume" then [loop]
                    else [loop, Perform(rest[0].name, rest[0].arguments, Nop)];
      assert t.control.stack == s.control.Popped().stack + pushed;
      DrivenAfter(c, s, t, pushed);
    }
  }

  lemma StartPlainAction(c: Setup, s: State, i: nat)
    requires s.active && !s.crashed
    requires s.persistent.currentIndex == Some(i) && i < |s.mission.items| && s.mission.items[i].ActionItem?
    requires s.mission.items[i].name in c.actions
    ensures var t, item := StartItemStep(c, s, false, Accepted), s.mission.items[i];
      && !t.crashed && t.mission == s.mission && t.persistent.currentIndex == s.persistent.currentIndex
      && t.control == s.control.Push(Perform(item.name, item.arguments, ItemDone(s.control.handler)))
  {
    hide RunModeStep, RunTrajectoryStep, SegmentEnd, SegmentStop, StartAbort, KeepsStore, KeepsSegment,
      StartsNoSettings, FliesMission;
  }

  lemma StartPlainSegment(c: Setup, s: State, i: nat)
    requires s.active && !s.crashed
    requires s.persistent.currentIndex == Some(i) && i < |s.mission.items| && s.mission.items[i].NavigationItem?
    ensures var t := StartItemStep(c, s, false, Accepted);
      !t.crashed && t.mission == s.mission && t.persistent.currentIndex == s.persistent.currentIndex
  {
    hide RunModeStep, RunTrajectoryStep, SegmentEnd, SegmentStop, KeepsStore, KeepsSegment, StartsNoSettings,
      FliesMission;
  }

  lemma StartPlainEnd(c: Setup, s: State)
    requires s.active && !s.crashed &&
      s.persistent.currentIndex.Some? && !AtItem(s)
    ensures var t := StartItemStep(c, s, false, Accepted);
      !t.crashed && t.mission == s.mission && t.persistent.currentIndex == s.persistent.currentIndex
  {
    hide RunModeStep, RunTrajectoryStep, RunActionStep, KeepsStore, KeepsSegment, StartsNoSettings, FliesMission;
  }

  lemma SettleStart(c: Setup, s: State, t: State, i: nat)
    requires Driven(c, s) && s.control.Top().StartItem? && s.persistent.currentIndex == Some(i)
    requires t == StartItemStep(c, Popped(s), false, Accepted)
    ensures Settling(c, s, t)
  {
    hide Driven, Placed, Lively, Acceptance, Shaped, StartItemStep, Accepts, KeepsStore, AcceptsEntry, SamePlace;
    var u := Popped(s);
    DrivenBasics(c, s);
    PoppedActive(s);
    if !AtItem(s) {
      StartPlainEnd(c, u);
      StartEndState(c, u, false);
      DrivenAfter(c, s, t, []);
    } else if s.mission.items[i].ActionItem? {
      StartPlainAction(c, u, i);
      DrivenAfter(c, s, t, [Perform(s.mission.items[i].name, s.mission.items[i].arguments,
        ItemDone(s.control.handler))]);
    } else {
      StartPlainSegment(c, u, i);
      StartSegmentState(c, u, false, i);
      DrivenAfter(c, s, t, if u.activeMode == c.ownMode then [] else [EnterTrajectory]);
    }
  }

  lemma SettleReturn(c: Setup, s: State, t: State, f: Frame)
    requires Driven(c, s) && s.control.stack != [] && s.control.Top() == f && (f.ArmTimer? || f.EnterTrajectory?)
    requires t == ReturnStep(c, Popped(s), f)
    ensures Settling(c, s, t)
  {
    hide Driven, Placed, Lively, Acceptance, Shaped, Acceptable, FliesMission, KeepsSegment, SaveStep,
      DeactivateDefaults;
    DrivenBasics(c, s);
    DrivenAfter(c, s, t, []);
  }

  lemma PoppedDriven(c: Setup, s: State)
    requires Acceptance(c, s) && s.control.stack != []
    ensures Acceptance(c, Popped(s))
  {
    hide DrivenFrame, AcceptsEntry, FliesMission;
    var m := s.control.Popped().stack;
    assert forall i: nat :: i < |m| ==> m[i] == s.control.stack[i];
  }

  lemma Settles(c: Setup, s: State)
    requires Driven(c, s) && s.control.stack != []
    ensures Settling(c, s, Step(c, s, Onwards(s)))
  {
    hide Driven, HandlersOk, Count, Lively, Step, Acceptable, Acceptance, Shaped, Settling, InvokeStep, PerformStep,
      ActivatedStep, RestoreStep, StartItemStep, ReturnStep, Accepts, AcceptsEntry, AtItem, IndexInRange, SamePlace,
      KeepsStore, KeepsSegment, SameButIndex, StartsNoSettings, StartsOnlyItem;
    var t := Step(c, s, Onwards(s));
    DrivenBasics(c, s);
    TopShaped(s.control);
    TopDriven(c, s);
    match s.control.Top()
    case Invoke(closure) =>
      InvokeFrame(c, s, closure, Accepted);
      SettleInvoke(c, s, t, closure);
    case Perform(name, arguments, done) =>
      PerformFrame(c, s, name, arguments, done, Accepted);
      SettlePerform(c, s, t, name, arguments, done);
    case Activated(h, fromBeginning) =>
      ActivatedFrame(c, s, h, fromBeginning, Accepted);
      SettleActivated(c, s, t, h, fromBeginning);
    case Restore(rest, h) =>
      RestoreFrame(c, s, rest, h, Accepted);
      SettleRestore(c, s, t, rest, h);
    case StartItem(resuming, h) =>
      StartFrame(c, s, resuming, h, Accepted);
      SettleStart(c, s, t, s.persistent.currentIndex.value);
    case f =>
      if InClient(f) {
        ClientReturns(c, s, Accepted);
        PoppedSettles(c, s);
      } else {
        ReturnFrame(c, s, Accepted);
        SettleReturn(c, s, t, f);
      }
  }

  lemma PoppedSettles(c: Setup, s: State)
    requires Driven(c, s) && s.control.stack != []
    ensures Settling(c, s, Popped(s))
  {
    hide Placed, Lively, Acceptance, Acceptable, FliesMission;
    PoppedDriven(c, s);
  }

  // ---- Cooperation ----

  /** Labels of the kind that is used here. */
  predicate Delivering(l: Label) {
    l.answer.Accepted? &&
    match l
    case Internal(_) => true
    case User(command, _) => command.Return? || command.Complete?
    case External(event, _) => event.ModeFinished? ==> event.outcome.Succeeded?
  }

  lemma DrivenHelps(c: Setup, s: State, l: Label)
    requires Acceptance(c, s) && Delivering(l)
    ensures Helps(s, l) && !Jumps(c, s, l)
  {
    hide Accepts, AcceptsEntry, InRuns;
    if s.control.stack != [] {
      TopDriven(c, s);
    }
    match s.control.Top()
    case Perform(_, arguments, _) => ResumeRefused(arguments);
    case _ =>
  }

  /** A step that neither fails nor aborts is cooperative, and goes on as before. */
  lemma DrivenOn(c: Setup, s: State, l: Label)
    requires Driven(c, s) && Delivering(l) && Settling(c, s, Step(c, s, l))
    ensures Cooperates(c, s, l) && Driven(c, Step(c, s, l)) && Reaches(c, s, Step(c, s, l))
  {
    hide Placed, Lively, Step, Acceptable, Acceptance, Reaches, Helps, Jumps, Delivering;
    var t := Step(c, s, l);
    DrivenBasics(c, s);
    DrivenHelps(c, s, l);
    StepPlaced(c, s, l);
    assert AtItem(t) ==> AtItem(s);
    StepLively(c, s, l);
    ReachesStep(c, s, l);
  }

  lemma SettlesOn(c: Setup, s: State)
    requires Driven(c, s) && s.control.stack != []
    ensures Driven(c, Step(c, s, Onwards(s))) && Reaches(c, s, Step(c, s, Onwards(s)))
    ensures Settling(c, s, Step(c, s, Onwards(s))) && Work(Step(c, s, Onwards(s))) < Work(s)
  {
    hide Driven, Step, Acceptance, Cooperates, Reaches, Work, AtItem, Placed, Lively, Shaped, Settling, Accepts;
    DrivenBasics(c, s);
    Settles(c, s);
    DrivenOn(c, s, Onwards(s));
    TopShaped(s.control);
    GoingOnLowers(c, s, Onwards(s));
  }

  function Current(s: State): int {
    match s.persistent.currentIndex
    case None => -1
    case Some(i) => i
  }

  /** From everywhere, the activation included, it comes to rest, and never goes back. */
  lemma {:induction false} Rests(c: Setup, s: State) returns (t: State)
    requires Driven(c, s)
    ensures Driven(c, t) && t.control.stack == [] && Reaches(c, s, t)
    ensures Current(t) >= Current(s) && t.mission == s.mission
    decreases Work(s)
  {
    hide Driven, Step, Reaches, Work, Acceptance;
    if s.control.stack == [] {
      t := s;
      ReachesItself(c, s);
    } else {
      var u := Step(c, s, Onwards(s));
      SettlesOn(c, s);
      t := Rests(c, u);
      ReachesFurther(c, s, u, t);
    }
  }

  // ---- Delivering ----

  lemma DeliverEvent(c: Setup, s: State, t: State, event: Event, done: Closure)
    requires Driven(c, s) && s.control.stack == [] && Owed(s.control, done)
    requires Delivering(External(event, Accepted)) && t == ExternalStep(c, s, event, Accepted)
    requires t == s.(control := t.control) && t.control.handler == s.control.handler
    requires t.control.stack == [Invoke(done)]
    ensures Driven(c, t) && Reaches(c, s, t)
  {
    hide Placed, Lively, Step, ExternalStep, Acceptable, Cooperates, Reaches;
    EventStep(c, s, event, Accepted);
    DrivenOn(c, s, External(event, Accepted));
  }

  /** The completion is called, and the next item is due. */
  lemma DeliverInvoke(c: Setup, s: State) returns (t: State)
    requires Driven(c, s) && s.control.Top() == Invoke(ItemDone(s.control.handler))
    ensures Driven(c, t) && Reaches(c, s, t) && CompletesItem(s, t)
  {
    hide Driven, Step, Reaches, Work, Acceptance, Placed, Cooperates, CompletesItem, Lively, Acceptable, Shaped;
    t := Step(c, s, Onwards(s));
    DrivenBasics(c, s);
    SettlesOn(c, s);
    CompletionAdvances(c, s, Accepted);
  }

  lemma FinishedMode(c: Setup, s: State, callback: ModeCallback)
    requires s.control.scheduled == Some(callback)
    ensures ExternalStep(c, s, ModeFinished(Succeeded), Accepted)
         == s.(control := s.control.(scheduled := None).Push(Invoke(callback.done)))
  {
    hide ModeFailed, FireTimer, UpdateSetpointStep, OnActivate, OnDeactivate, StartAbort, SetMissionStep, KeepsStore,
      KeepsSegment, StartsNoSettings, SamePlace;
  }

  lemma FiredTimer(c: Setup, s: State, done: Closure)
    requires s.control.holdTimer == Some(done)
    ensures ExternalStep(c, s, TimerFired, Accepted)
         == s.(control := s.control.(holdTimer := None).Push(Invoke(done)))
  {
    hide FinishMode, UpdateSetpointStep, OnActivate, OnDeactivate, StartAbort, SetMissionStep, KeepsStore, KeepsSegment,
      StartsNoSettings, SamePlace;
  }

  lemma DeliverMode(c: Setup, s: State) returns (t: State)
    requires Driven(c, s) && s.control.stack == [] && InMode(s.control)
    ensures Driven(c, t) && Reaches(c, s, t) && CompletesItem(s, t)
  {
    hide Driven, ExternalStep, Reaches, AtItem, ItemsLeft;
    var event, callback := ModeFinished(Succeeded), s.control.scheduled.value;
    var u := ExternalStep(c, s, event, Accepted);
    FinishedMode(c, s, callback);
    assert [] + [Invoke(callback.done)] == [Invoke(callback.done)];
    DeliverEvent(c, s, u, event, callback.done);
    t := DeliverInvoke(c, u);
    SamePlaceCompletes(s, u, t);
    ReachesFurther(c, s, u, t);
  }

  lemma SamePlaceCompletes(s: State, u: State, t: State)
    requires u.mission == s.mission && u.persistent.currentIndex == s.persistent.currentIndex && CompletesItem(u, t)
    ensures CompletesItem(s, t)
  {
  }

  lemma DeliverTimer(c: Setup, s: State) returns (t: State)
    requires Driven(c, s) && s.control.stack == [] && InTimer(s.control)
    ensures Driven(c, t) && Reaches(c, s, t) && CompletesItem(s, t)
  {
    hide Driven, ExternalStep, Reaches, AtItem, ItemsLeft;
    var done := s.control.holdTimer.value;
    var u := ExternalStep(c, s, TimerFired, Accepted);
    FiredTimer(c, s, done);
    assert [] + [Invoke(done)] == [Invoke(done)];
    DeliverEvent(c, s, u, TimerFired, done);
    t := DeliverInvoke(c, u);
    SamePlaceCompletes(s, u, t);
    ReachesFurther(c, s, u, t);
  }

  lemma TakesTurn(c: Setup, s: State, r: nat)
    requires r < |s.control.runs|
    ensures ExternalStep(c, s, ClientTurn(r), Accepted) == s.Push(Client(r))
  {
    hide FinishMode, FireTimer, UpdateSetpointStep, OnActivate, OnDeactivate, StartAbort, SetMissionStep;
  }

  lemma CompletesRun(c: Setup, s: State, r: nat)
    requires OwedRun(s.control, r)
    ensures CommandStep(c, s, r, Complete, Accepted)
         == s.(control := s.control.(completedRuns := s.control.completedRuns + {r})
                          .Push(Invoke(ItemDone(s.control.handler))))
  {
    hide HandlerMode, RunActionStep, HandlerTrajectory, StoreStateStep, SetIndexStep, DropStep, KeepsSegment, SamePlace;
  }

  /** The client's turn, in which its action is completed. */
  lemma DeliverRun(c: Setup, s: State, r: nat) returns (t: State)
    requires Driven(c, s) && s.control.stack == [] && OwedRun(s.control, r)
    ensures Driven(c, t) && Reaches(c, s, t) && CompletesItem(s, t)
  {
    hide Driven, Step, ExternalStep, CommandStep, Reaches, CompletesItem;
    var u := s.Push(Client(r));
    var v := CommandStep(c, u, r, Complete, Accepted);
    TakesTurn(c, s, r);
    TurnDriven(c, s, r);
    CompletesRun(c, u, r);
    CompleteDriven(c, u, r);
    t := DeliverInvoke(c, v);
    SamePlaceCompletes(s, v, t);
    ReachesFurther(c, s, u, v);
    ReachesFurther(c, s, v, t);
  }

  lemma TurnDriven(c: Setup, s: State, r: nat)
    requires Driven(c, s) && s.control.stack == [] && s.Push(Client(r)) == ExternalStep(c, s, ClientTurn(r), Accepted)
    ensures Driven(c, s.Push(Client(r))) && Reaches(c, s, s.Push(Client(r)))
  {
    hide Placed, Lively, Step, ExternalStep, Acceptable, Cooperates, Reaches;
    EventStep(c, s, ClientTurn(r), Accepted);
    DrivenOn(c, s, External(ClientTurn(r), Accepted));
  }

  lemma CompleteDriven(c: Setup, s: State, r: nat)
    requires Driven(c, s) && s.control.stack == [Client(r)]
    requires CommandStep(c, s, r, Complete, Accepted)
          == s.(control := s.control.(completedRuns := s.control.completedRuns + {r})
                           .Push(Invoke(ItemDone(s.control.handler))))
    ensures Driven(c, CommandStep(c, s, r, Complete, Accepted))
    ensures Reaches(c, s, CommandStep(c, s, r, Complete, Accepted))
  {
    hide Placed, Lively, Step, CommandStep, Acceptable, Cooperates, Reaches;
    ClientStep(c, s, r, Complete, Accepted);
    DrivenOn(c, s, User(Complete, Accepted));
  }

  lemma ReachedWaypoint(c: Setup, s: State)
    requires Placed(c, s) && s.control.stack == [] && !s.crashed && FliesTo(s)
    ensures CompletesItem(s, UpdateSetpointStep(c, s, true, true))
    ensures !UpdateSetpointStep(c, s, true, true).crashed
    ensures UpdateSetpointStep(c, s, true, true).control == Reached(s.control, Current(s))
  {
    hide StartAbort, StackCoherent, Coherent, Count, KeepsStore, StartsNoSettings, Reached;
    ReachIndexControl(s, Current(s));
  }

  /** A waypoint of the segment that is reached leaves one item less. */
  lemma WaypointAdvances(c: Setup, s: State, answer: Answer)
    requires Placed(c, s) && !s.crashed && s.control.stack == [] && FliesTo(s)
    ensures CompletesItem(s, Step(c, s, External(UpdateSetpoint(true, true), answer)))
  {
    hide Step, ExternalStep, Placed, UpdateSetpointStep, CompletesItem;
    EventStep(c, s, UpdateSetpoint(true, true), answer);
    UpdateEvent(c, s, true, true, answer);
    ReachedWaypoint(c, s);
  }

  lemma DeliverWaypoint(c: Setup, s: State) returns (t: State)
    requires Driven(c, s) && s.control.stack == [] && FliesTo(s)
    ensures Driven(c, t) && Reaches(c, s, t) && CompletesItem(s, t)
  {
    hide HandlersOk, Count, Lively, Step, ExternalStep, Acceptable, Cooperates, Reaches, UpdateSetpointStep, AtItem,
      ItemsLeft;
    t := UpdateSetpointStep(c, s, true, true);
    EventStep(c, s, UpdateSetpoint(true, true), Accepted);
    UpdateEvent(c, s, true, true, Accepted);
    ReachedWaypoint(c, s);
    assert t.control.handler == s.control.handler;
    assert t.control.stack == [] || t.control.stack == [StartItem(false, s.control.flight.report.handler)];
    DrivenOn(c, s, External(UpdateSetpoint(true, true), Accepted));
  }

  /** Delivering what is pending moves the mission on by exactly one item. */
  lemma Delivers(c: Setup, s: State) returns (t: State)
    requires Driven(c, s) && s.control.stack == [] && AtItem(s) && Waits(s)
    ensures Driven(c, t) && Reaches(c, s, t) && CompletesItem(s, t)
  {
    hide Driven, Reaches, Count;
    if InMode(s.control) {
      t := DeliverMode(c, s);
    } else if InTimer(s.control) {
      t := DeliverTimer(c, s);
    } else if r: nat :| OwedRun(s.control, r) {
      t := DeliverRun(c, s, r);
    } else {
      t := DeliverWaypoint(c, s);
    }
  }

  // ---- Completing ----

  lemma StillRunning(c: Setup, s: State, t: State, base: State)
    requires Driven(c, s) && Running(s, base) && Reaches(c, s, t)
    ensures Running(t, base)
  {
    hide Placed, Lively, RunningAt, Acceptable, CooperativeRun, Steps, Acceptance;
    var ls: seq<Label> :| CooperativeRun(c, s, ls) && Steps(c, s, ls) == t;
    StaysLively(c, s, ls, base);
  }

  lemma {:induction false} Completes(c: Setup, s: State, base: State) returns (t: State)
    requires Driven(c, s) && s.control.stack == [] && Running(s, base)
    ensures Driven(c, t) && Reaches(c, s, t) && t.persistent.currentIndex == Some(|t.mission.items|)
    decreases |s.mission.items| - Current(s)
  {
    hide Driven, Reaches, RunningAt, Waits, KeepsStore, KeepsSegment, SamePlace, SameButIndex, StartsNoSettings,
      StartsOnlyItem;
    DrivenBasics(c, s);
    if !AtItem(s) {
      t := s;
      ReachesItself(c, s);
    } else {
      var i: nat, next: nat :| RunningAt(s, base, i, next);
      LivelyWaits(c, s, base, i, next);
      var u := Delivers(c, s);
      var v := Rests(c, u);
      ReachesFurther(c, s, u, v);
      StillRunning(c, s, v, base);
      t := Completes(c, v, base);
      ReachesFurther(c, s, v, t);
    }
  }

  lemma EntryCrashed(c: Setup, s: State)
    ensures OnActivate(c, s).crashed == s.crashed
  {
    hide StartAbort;
  }

  lemma NotCrashed(c: Setup, s: State, ls: seq<Label>)
    requires CooperativeRun(c, s, ls) && ls != []
    ensures !Steps(c, s, ls).crashed
  {
    hide Step;
  }

  /** From an activation at the beginning of a mission whose actions accept their arguments: from every point of a
      cooperative run, the activation included, at which what is under way accepts its arguments, there is a way to go
      on that completes the mission. Then every index was reported once, in order, the completion last, and all segments
      were flown. */
  lemma MissionCanBeCompleted(c: Setup, file: Option<Json>, before: seq<Label>, ls: seq<Label>)
    requires var s := Steps(c, Initial(file), before);
      && BeginsAt(c, s) && Acceptable(c, s.mission) && !s.crashed
      && CooperativeRun(c, OnActivate(c, s), ls) && Acceptance(c, Steps(c, OnActivate(c, s), ls))
    ensures var s := Steps(c, Initial(file), before);
      exists more: seq<Label> :: CooperativeRun(c, OnActivate(c, s), ls + more) &&
        Completed(s, Steps(c, OnActivate(c, s), ls + more))
  {
    hide Placed, Lively, Running, Reported, SegmentsFrom, Acceptable, Acceptance, Step, Cooperates, Steady, OnActivate,
      HandlersOk, Count, FliesTo, InRuns;
    var s := Steps(c, Initial(file), before);
    var a := OnActivate(c, s);
    var t := Steps(c, a, ls);
    NeverStuck(c, file, before, ls);
    if ls != [] {
      NotCrashed(c, a, ls);
    }
    EntryCrashed(c, s);
    RunningMission(t, s);
    assert Driven(c, t);
    var v := Rests(c, t);
    StillRunning(c, t, v, s);
    var u := Completes(c, v, s);
    ReachesFurther(c, t, v, u);
    var more: seq<Label> :| CooperativeRun(c, t, more) && Steps(c, t, more) == u;
    RunsOn(c, a, ls, more);
    CooperativeIsSteady(c, a, ls + more);
    UninterruptedRun(c, file, before, ls + more);
    assert u.mission == s.mission by {
      NeverStuck(c, file, before, ls + more);
      RunningMission(u, s);
    }
    assert Completed(s, u);
  }

  /** The mission is completed, and this is what was reported and flown since the activation. */
  ghost predicate Completed(s: State, t: State) {
    var n := |s.mission.items|;
    && t.persistent.currentIndex == Some(n)
    && t.reports == s.reports + Reported(n, n)
    && t.segments == s.segments + SegmentsFrom(s.mission.items, 0)
  }
}
