/** Settings survive interruptions: whatever deactivations, resumptions and restorations happen, the trajectory
    options in force while items run are those that the items have set, and at most one entry stores them. */
module MissionSettings {
  import opened Wrappers
  import opened JsonValues
  import opened Missions
  import opened OrderedMaps
  import opened PersistentStates
  import opened MissionTypes
  import opened MissionSteps
  import opened MissionHandlers
  import opened MissionTokens
  import opened MissionIndex
  import opened MissionAbort
  import opened MissionStore
  import MissionOptions

  function SettingsEntry(o: TrajectoryOptions): ActionState {
    ActionState("changeSettings", EncodeOptions(o))
  }

  ghost predicate NoEntry(m: map<nat, ActionState>) {
    forall id :: id in m ==> m[id].name != "changeSettings"
  }

  /** The settings are stored under `id` and nowhere else. */
  ghost predicate EntryAt(m: map<nat, ActionState>, id: nat, o: TrajectoryOptions) {
    id in m && m[id] == SettingsEntry(o) && NoEntry(m - {id})
  }

  ghost predicate NoneIn(rest: seq<ActionState>) {
    forall i: nat :: i < |rest| ==> rest[i].name != "changeSettings"
  }

  ghost predicate OneIn(rest: seq<ActionState>, o: TrajectoryOptions) {
    exists i: nat :: i < |rest| && rest[i] == SettingsEntry(o) && NoneIn(rest[..i]) && NoneIn(rest[i + 1..])
  }

  /** Settings only ever replace defaults. */
  predicate Covers(defaults: TrajectoryOptions, o: TrajectoryOptions) {
    && (defaults.horizontalVelocity.Some? ==> o.horizontalVelocity.Some?)
    && (defaults.verticalVelocity.Some? ==> o.verticalVelocity.Some?)
    && (defaults.maxHeadingRate.Some? ==> o.maxHeadingRate.Some?)
  }

  /** Replaying a stored entry over the defaults gives the settings back. */
  lemma ReplayRestores(defaults: TrajectoryOptions, o: TrajectoryOptions)
    requires Covers(defaults, o)
    ensures ResetsAll(EncodeOptions(o)) == Success(false)
    ensures MergedOptions(defaults, EncodeOptions(o)) == Success(o)
    ensures defaults.CombinedWith(o) == o
  {
    hide PlainBut;
    OptionsRoundTrip(o);
  }

  lemma MergingCovers(options: TrajectoryOptions, arguments: Json)
    ensures MergedOptions(options, arguments).Success? ==>
      var o := MergedOptions(options, arguments).value; options.CombinedWith(o) == o && Covers(options, o)
  {
  }

  // ---- The phases between an activation and the next ----

  ghost predicate Plain(f: Frame) {
    f.Restore? ==> NoneIn(f.rest)
  }

  /** No loop over the stored actions has settings to restore, but possibly the one at `except`. */
  ghost predicate PlainBut(stack: seq<Frame>, except: int) {
    forall i: nat :: i < |stack| && i != except ==> Plain(stack[i])
  }

  predicate PerformsSettings(s: State) {
    s.control.stack != [] && !SettingsFree(s.control.Top())
  }

  /** Items run under the settings; they are stored unless they are the defaults. */
  ghost predicate Live(s: State, o: TrajectoryOptions) {
    && s.active && s.options == o
    && PlainBut(s.control.stack, -1)
    && Count(s.control, Resuming) == 0
    && (PerformsSettings(s) ==> !s.control.Top().done.Nop?)
    && (match s.settingsKeeper
        case None => NoEntry(s.persistent.continuousActions) && o == s.mission.defaults
        case Some(id) => EntryAt(s.persistent.continuousActions, id, o))
  }

  ghost predicate Waits(a: Store, defaults: TrajectoryOptions, o: TrajectoryOptions) {
    || (NoEntry(a.actions) && o == defaults)
    || exists id: nat :: EntryAt(a.actions, id, o)
  }

  /** Nothing runs yet, or any more, and the settings wait in the stored actions. */
  ghost predicate Suspended(s: State, o: TrajectoryOptions) {
    && PlainBut(s.control.stack, -1)
    && !PerformsSettings(s)
    && Waits(StoreOf(s), s.mission.defaults, o)
    && (s.settingsKeeper.Some? ==> !s.active && s.control.stack != [] && s.control.stack[0] == Cleanup)
    && (s.active ==> s.options == s.mission.defaults && Count(s.control, Working) == 0)
  }

  /** The stored actions have been taken out and the options are the defaults. */
  predicate Emptied(s: State) {
    s.active && s.settingsKeeper.None? && s.options == s.mission.defaults
  }

  /** The loop at `at + 1` is restoring the settings, above the start of an item. */
  ghost predicate RestoringAt(s: State, o: TrajectoryOptions, at: nat) {
    && Emptied(s) && NoEntry(s.persistent.continuousActions) && !PerformsSettings(s)
    && at + 1 < |s.control.stack| && s.control.stack[at].StartItem? && s.control.stack[at + 1].Restore?
    && OneIn(s.control.stack[at + 1].rest, o)
    && PlainBut(s.control.stack, at + 1)
  }

  ghost predicate Restoring(s: State, o: TrajectoryOptions) {
    exists at: nat :: RestoringAt(s, o, at)
  }

  /** The entry of the settings is run again. */
  ghost predicate Replaying(s: State, o: TrajectoryOptions) {
    && Emptied(s) && NoEntry(s.persistent.continuousActions)
    && PlainBut(s.control.stack, -1)
    && s.control.stack != [] && s.control.Top() == Perform("changeSettings", EncodeOptions(o), Nop)
    && exists at: nat :: at < |s.control.stack| && s.control.stack[at].StartItem?
  }

  ghost predicate Holds(s: State, o: TrajectoryOptions) {
    Covers(s.mission.defaults, o) && (Live(s, o) || Suspended(s, o) || Restoring(s, o) || Replaying(s, o))
  }

  /** Only `changeSettings` is the action that changes settings. */
  ghost predicate SettingsSetup(c: Setup) {
    && "changeSettings" in c.actions
    && forall name :: name in c.actions ==> (c.actions[name].ChangeSettings? <==> name == "changeSettings")
  }

  /** What the other invariants contribute. */
  ghost predicate Sound(c: Setup, s: State) {
    Placed(c, s) && OwnOk(StoreOf(s))
  }

  // ---- Steps that leave what is stored alone ----

  /** Frames are replaced at the top only: those from `m` on, none of them a loop over stored actions or a cleanup. */
  ghost predicate Replaces(k: Control, l: Control, m: int) {
    && 0 <= m <= |k.stack| <= m + 1 && m <= |l.stack|
    && l.stack[..m] == k.stack[..m]
    && (forall i: nat :: m <= i < |l.stack| ==> !l.stack[i].Restore? && !l.stack[i].Cleanup? && !l.stack[i].SaveState?)
    && (m < |k.stack| ==> !k.Top().Restore? && !k.Top().Cleanup?)
  }

  ghost predicate SameBasis(s: State, t: State) {
    && StoreOf(t) == StoreOf(s) && t.mission == s.mission
    && Count(t.control, Working) <= Count(s.control, Working)
    && Count(t.control, Resuming) <= Count(s.control, Resuming)
  }

  lemma ReplacedPlain(k: Control, l: Control, m: int, except: int)
    requires Replaces(k, l, m) && PlainBut(k.stack, except)
    ensures PlainBut(l.stack, except)
  {
    hide NoneIn;
    forall i: nat | i < |l.stack| && i != except
      ensures Plain(l.stack[i])
    {
      if i < m {
        assert l.stack[i] == l.stack[..m][i] == k.stack[..m][i] == k.stack[i];
      }
    }
  }

  lemma KeepLive(s: State, t: State, m: int, o: TrajectoryOptions)
    requires Live(s, o) && SameBasis(s, t) && Replaces(s.control, t.control, m)
    requires PerformsSettings(t) ==> !t.control.Top().done.Nop?
    ensures Live(t, o)
  {
    hide Count, EntryAt, NoEntry, PlainBut;
    ReplacedPlain(s.control, t.control, m, -1);
  }

  lemma KeepSuspended(s: State, t: State, m: int, o: TrajectoryOptions)
    requires Suspended(s, o) && SameBasis(s, t) && Replaces(s.control, t.control, m) && !PerformsSettings(t)
    ensures Suspended(t, o)
  {
    hide Count, EntryAt, NoEntry, PlainBut;
    ReplacedPlain(s.control, t.control, m, -1);
    if s.settingsKeeper.Some? {
      assert m > 0;
      assert t.control.stack[0] == t.control.stack[..m][0] == s.control.stack[..m][0];
    }
  }

  lemma KeepRestoring(s: State, t: State, m: int, o: TrajectoryOptions)
    requires Restoring(s, o) && SameBasis(s, t) && Replaces(s.control, t.control, m) && !PerformsSettings(t)
    ensures Restoring(t, o)
  {
    hide Count, EntryAt, NoEntry, PlainBut, OneIn;
    var at: nat :| RestoringAt(s, o, at);
    ReplacedPlain(s.control, t.control, m, at + 1);
    assert at + 1 < m;
    assert t.control.stack[at] == t.control.stack[..m][at] == s.control.stack[..m][at];
    assert t.control.stack[at + 1] == t.control.stack[..m][at + 1] == s.control.stack[..m][at + 1];
    assert RestoringAt(t, o, at);
  }

  lemma KeepHolds(s: State, t: State, m: int, o: TrajectoryOptions)
    requires Holds(s, o) && SameBasis(s, t) && Replaces(s.control, t.control, m)
    requires !PerformsSettings(s) && !PerformsSettings(t)
    ensures Holds(t, o)
  {
    hide Live, Suspended, Restoring, SameBasis, Replaces;
    assert t.mission == s.mission by { BasisMission(s, t); }
    assert !Replaying(s, o);
    if Live(s, o) {
      KeepLive(s, t, m, o);
    } else if Suspended(s, o) {
      KeepSuspended(s, t, m, o);
    } else {
      KeepRestoring(s, t, m, o);
    }
  }

  lemma BasisMission(s: State, t: State)
    requires SameBasis(s, t)
    ensures t.mission == s.mission
  {
  }

  /** Frames that neither loop over the stored actions nor clean up. */
  predicate Ordinary(f: Frame) {
    !f.Restore? && !f.Cleanup? && !f.SaveState?
  }

  lemma PoppedReplaces(k: Control, l: Control)
    requires k.stack != [] && Ordinary(k.Top())
    requires |k.stack| - 1 <= |l.stack| && l.stack[..|k.stack| - 1] == k.stack[..|k.stack| - 1]
    requires forall i: nat :: |k.stack| - 1 <= i < |l.stack| ==> Ordinary(l.stack[i])
    ensures Replaces(k, l, |k.stack| - 1)
  {
  }

  lemma AdvancesReplaces(k: Control, l: Control)
    requires k.stack != [] && Ordinary(k.Top()) && Advances(k.Popped(), l) && l.handler == k.handler
    ensures Replaces(k, l, |k.stack| - 1)
  {
    hide Count, Aborted;
    PoppedReplaces(k, l);
  }

  // ---- Calls that do not touch what is stored ----

  /** Frames are replaced from `m` on, at the top, and nothing that is stored changes. */
  ghost predicate Aside(s: State, t: State, m: int) {
    StoreOf(t) == StoreOf(s) && t.mission == s.mission && !PerformsSettings(t) && Replaces(s.control, t.control, m)
  }

  /** No continuation of these kinds is new. */
  ghost predicate Quieter(s: State, t: State) {
    && Count(t.control, Working) <= Count(s.control, Working)
    && Count(t.control, Resuming) <= Count(s.control, Resuming)
  }

  lemma AsideHolds(s: State, t: State, m: int, o: TrajectoryOptions)
    requires Tidy(s) && Holds(s, o) && !PerformsSettings(s) && Aside(s, t, m) && Quieter(s, t)
    ensures Tidy(t) && Holds(t, o)
  {
    hide Count, StoreOf, Live, Suspended, Restoring, Replaces, PerformsSettings, Tidy;
    KeepHolds(s, t, m, o);
    ReplacedTidy(s, t, m);
  }

  lemma CalmTop(c: Setup, k: Control)
    requires HandlersOk(c, k)
    ensures k.Popped().stack == [] || SettingsFree(k.Popped().Top())
  {
  }

  /** Nothing stored changes when the handler stays. */
  lemma PopsAside(c: Setup, s: State, t: State)
    requires HandlersOk(c, s.control) && t.control.handler == s.control.handler && t.mission == s.mission
    requires KeepsStore(Popped(s), t) && StartsNoSettings(Popped(s), t)
    requires Replaces(s.control, t.control, |s.control.stack| - 1)
    ensures Aside(s, t, |s.control.stack| - 1)
  {
    hide HandlersOk, Replaces, SettingsFree;
    CalmTop(c, s.control);
  }

  predicate LiveResumption(k: Control, closure: Closure) {
    match closure
    case ResumeDone(h, _) => h == k.handler
    case _ => false
  }

  lemma InvokeAside(c: Setup, s: State, t: State, closure: Closure, answer: Answer)
    requires HandlersOk(c, s.control) && s.control.Top() == Invoke(closure) && !LiveResumption(s.control, closure)
    requires t == InvokeStep(c, Popped(s), closure, answer) && t.control.handler == s.control.handler
    ensures Aside(s, t, |s.control.stack| - 1)
  {
    hide Count, Leads, Advances, ClosuresCoherent, StackCoherent, InvokeStep, Coherent, Replaces, KeepsStore,
      StartsNoSettings, KeepsSegment, SamePlace, Aside;
    var u := Popped(s);
    PopKeeps(c, s.control);
    TopCoherent(c, s.control);
    if closure.ResumeDone? {
      StaleInvoke(c, u, closure, answer);
      Itself(u);
    }
    if closure == ItemDone(s.control.handler) {
      InvokeItemDone(c, u, closure, answer);
      PoppedReplaces(s.control, t.control);
    } else {
      InvokeLeads(c, u, All, closure, answer);
      LeadsOn(u.control, t.control, All, Tok(All, s.control.handler, closure));
      AdvancesReplaces(s.control, t.control);
    }
    PopsAside(c, s, t);
  }

  lemma PerformAside(c: Setup, s: State, t: State, name: string, arguments: Json, done: Closure, answer: Answer)
    requires SettingsSetup(c) && HandlersOk(c, s.control)
    requires s.control.Top() == Perform(name, arguments, done) && name != "changeSettings"
    requires t == PerformStep(c, Popped(s), name, arguments, done, answer) && t.control.handler == s.control.handler
    ensures Aside(s, t, |s.control.stack| - 1)
  {
    hide Count, Leads, Advances, ClosuresCoherent, StackCoherent, PerformStep, Coherent, Replaces, KeepsStore,
      StartsNoSettings, KeepsSegment, SamePlace, Aside, SetCurrentIndex;
    PopKeeps(c, s.control);
    TopCoherent(c, s.control);
    PerformLeads(c, Popped(s), All, name, arguments, done, answer);
    LeadsOn(Popped(s).control, t.control, All, Tok(All, s.control.handler, done));
    AdvancesReplaces(s.control, t.control);
    PlaceOf(Popped(s), t);
    PopsAside(c, s, t);
  }

  lemma AbortAside(c: Setup, s: State, t: State, reason: string)
    requires HandlersOk(c, s.control) && s.control.Top() == AbortMain(reason)
    requires t == AbortMainStep(c, Popped(s), reason)
    ensures Aside(s, t, |s.control.stack| - 1)
  {
    hide AbortMainStep, FailureArguments, ClosuresCoherent, StackCoherent, Replaces, KeepsStore, StartsNoSettings,
      Aside;
    AbortMainControl(c, Popped(s), reason);
    PoppedReplaces(s.control, t.control);
    PopsAside(c, s, t);
  }

  lemma PoppedStore(s: State)
    ensures StoreOf(Popped(s)) == StoreOf(s)
  {
  }

  lemma StoreFields(s: State)
    ensures StoreOf(s).active == s.active && StoreOf(s).settings == s.settingsKeeper && StoreOf(s).options == s.options
    ensures StoreOf(s).client == s.clientKeepers && StoreOf(s).actions == s.persistent.continuousActions
  {
  }

  // ---- Undisturbed steps ----

  predicate LeavesOptions(command: Command) {
    match command
    case ClearOptions => false
    case SetOptions(_) => false
    case RunAction(name, _) => name != "changeSettings"
    case StoreState(name, _) => name != "changeSettings"
    case _ => true
  }

  /** The end of a resumption that has moved the index. */
  predicate MovesIndex(s: State) {
    match s.control.Top()
    case Invoke(ResumeDone(_, previous)) => previous != s.persistent.currentIndex
    case _ => false
  }

  predicate Disturbs(l: Label) {
    match l
    case External(event, _) => event.SetMission? || event.ResetMission?
    case User(command, _) => !LeavesOptions(command)
    case Internal(_) => false
  }

  predicate Deactivates(l: Label) {
    l.External? && l.event.Deactivate?
  }

  /** No abort and no new mission; clients leave the settings alone; and the resume action leaves the index. */
  ghost predicate Undisturbed(c: Setup, s: State, l: Label) {
    && !s.crashed && !Step(c, s, l).crashed && !Disturbs(l) && !MovesIndex(s)
    && (Step(c, s, l).control.handler == s.control.handler || Deactivates(l))
  }

  /** The next entry replaces none of `changeSettings`; it replaces none at all while ids are in order. */
  predicate SparesEntry(s: State) {
    s.nextActionId in s.persistent.continuousActions ==>
      s.persistent.continuousActions[s.nextActionId].name != "changeSettings"
  }

  predicate Spares(s: State, l: Label) {
    l.User? && l.command.StoreState? ==> SparesEntry(s)
  }

  /** The settings that `changeSettings` asks for. */
  function Asked(defaults: TrajectoryOptions, arguments: Json, o: TrajectoryOptions): TrajectoryOptions {
    if ResetsAll(arguments) == Success(true) then defaults
    else match MergedOptions(o, arguments) case Success(merged) => merged case Failure => o
  }

  /** In terms of the arguments: a reset asks for the defaults of the mission; a change for each setting that is
      given, and for no other change. */
  lemma AskedIs(defaults: TrajectoryOptions, arguments: Json, o: TrajectoryOptions, now: TrajectoryOptions)
    ensures MissionOptions.Resets(arguments) ==> Asked(defaults, arguments, o) == defaults
    ensures MissionOptions.Keeps(arguments) && MissionOptions.Changes(arguments, o, now) ==>
      Asked(defaults, arguments, o) == now
  {
    hide MergedOptions, ResetsAll, MissionOptions.Changes, MissionOptions.Resets, MissionOptions.Keeps;
    MissionOptions.ResetIsRead(arguments);
    MissionOptions.ChangeIsRead(o, arguments, now);
  }

  /** The settings that the items have asked for: `changeSettings` changes them, the end of a mission drops them. */
  function Intended(s: State, l: Label, o: TrajectoryOptions): TrajectoryOptions
  {
    if s.control.stack == [] then
      (if Deactivates(l) && s.active && MissionDone(Leave(s)) then s.mission.defaults else o)
    else match s.control.Top()
      case Perform(name, arguments, done) =>
        if !l.Internal? || name != "changeSettings" || done.Nop? then o else Asked(s.mission.defaults, arguments, o)
      case _ => o
  }

  /** What `Sound` says beyond the index and the ids. */
  ghost predicate Tidy(s: State) {
    && (forall id :: id in s.clientKeepers ==> s.clientKeepers[id].name != "changeSettings")
    && (forall i: nat ::
          i < |s.control.stack| && (s.control.stack[i].Cleanup? || s.control.stack[i].SaveState?) ==> !s.active)
  }

  lemma ReplacedTidy(s: State, t: State, m: int)
    requires Tidy(s) && Replaces(s.control, t.control, m) && StoreOf(t) == StoreOf(s)
    ensures Tidy(t)
  {
    forall i: nat | i < |t.control.stack| && (t.control.stack[i].Cleanup? || t.control.stack[i].SaveState?)
      ensures !t.active
    {
      assert i < m;
      assert t.control.stack[i] == t.control.stack[..m][i] == s.control.stack[..m][i];
      assert t.active == StoreOf(t).active;
    }
  }

  // ---- The start of an item ----

  lemma {:induction false} StackStart(cur: nat, w: Weight, stack: seq<Frame>, at: nat)
    requires at < |stack| && stack[at].StartItem? && w.Starting()
    ensures TokStack(cur, w, stack) >= 1 + if at < |stack| - 1 then TokFrame(cur, w, stack[|stack| - 1]) else 0
  {
    if at < |stack| - 1 {
      StackStart(cur, w, stack[..|stack| - 1], at);
    }
  }

  lemma {:induction false} StackApart(cur: nat, stack: seq<Frame>, at: nat)
    requires at < |stack| && stack[at].StartItem?
    ensures TokStack(cur, Resuming, stack) + 1 <= TokStack(cur, All, stack)
  {
    StackMono(Resuming, cur, stack[..|stack| - 1]);
    if at < |stack| - 1 {
      StackApart(cur, stack[..|stack| - 1], at);
      FrameMono(cur, stack[|stack| - 1]);
    }
  }

  lemma FrameMono(cur: nat, f: Frame)
    ensures TokFrame(cur, Resuming, f) <= TokFrame(cur, All, f)
  {
    match f
    case Invoke(c) => TokMono(Resuming, cur, c);
    case Perform(_, _, done) => TokMono(Resuming, cur, done);
    case ArmTimer(done) => TokMono(Resuming, cur, done);
    case _ =>
  }

  /** The start of an item leaves no room for another continuation. */
  lemma StartAlone(k: Control, at: nat)
    requires at < |k.stack| && k.stack[at].StartItem? && Count(k, All) <= 1
    ensures Count(k, Resuming) == 0
    ensures at < |k.stack| - 1 ==> TokFrame(k.handler, All, k.Top()) == 0
    ensures Count(k, Working) >= 1
  {
    hide TokStack, TokRuns, TokSlots;
    StackStart(k.handler, All, k.stack, at);
    StackStart(k.handler, Working, k.stack, at);
    StackApart(k.handler, k.stack, at);
    RunsMono(Resuming, k.handler, k.runs, k.completedRuns);
    SlotsMono(Resuming, k);
  }

  lemma OnlyLive(c: Setup, s: State, o: TrajectoryOptions)
    requires Placed(c, s) && Holds(s, o) && s.control.Top().StartItem?
    ensures Live(s, o)
  {
    hide HandlersOk, SettingsEntry;
    StartAlone(s.control, |s.control.stack| - 1);
    if Restoring(s, o) {
      var at: nat :| RestoringAt(s, o, at);
      StartAlone(s.control, at);
    }
  }

  lemma StartItemReplaces(c: Setup, s: State, t: State, resuming: bool, answer: Answer)
    requires HandlersOk(c, s.control) && s.control.Top().StartItem?
    requires t == StartItemStep(c, Popped(s), resuming, answer) && t.control.handler == s.control.handler
    ensures Replaces(s.control, t.control, |s.control.stack| - 1) && StoreOf(t) == StoreOf(s) && t.mission == s.mission
    ensures PerformsSettings(t) ==> !t.control.Top().done.Nop?
  {
    hide Count, Leads, Advances, ClosuresCoherent, StackCoherent, StartItemStep, Replaces;
    PopKeeps(c, s.control);
    StartItemLeads(c, Popped(s), All, resuming, answer);
    LeadsOn(Popped(s).control, t.control, All, 1);
    AdvancesReplaces(s.control, t.control);
    CalmTop(c, s.control);
  }

  lemma StartItemHolds(c: Setup, s: State, t: State, resuming: bool, answer: Answer, o: TrajectoryOptions)
    requires Sound(c, s) && Tidy(s) && Holds(s, o) && s.control.Top().StartItem? && Quieter(s, t)
    requires t == StartItemStep(c, Popped(s), resuming, answer) && t.control.handler == s.control.handler
    ensures Tidy(t) && Holds(t, o)
  {
    hide Count, Live, Suspended, Restoring, Replaying, Tidy, StartItemStep, HandlersOk, Replaces, OwnOk;
    OnlyLive(c, s, o);
    StartItemReplaces(c, s, t, resuming, answer);
    assert Covers(t.mission.defaults, o);
    KeepLive(s, t, |s.control.stack| - 1, o);
    ReplacedTidy(s, t, |s.control.stack| - 1);
  }

  // ---- The loop over the stored actions ----

  lemma NoneInTail(rest: seq<ActionState>)
    requires rest != [] && NoneIn(rest)
    ensures NoneIn(rest[1..]) && rest[0].name != "changeSettings"
  {
    assert forall i: nat :: i < |rest| - 1 ==> rest[1..][i] == rest[i + 1];
  }

  lemma OneInTail(rest: seq<ActionState>, o: TrajectoryOptions)
    requires OneIn(rest, o)
    ensures rest != [] && (if rest[0].name == "changeSettings" then rest[0] == SettingsEntry(o) && NoneIn(rest[1..])
                           else OneIn(rest[1..], o))
  {
    var i: nat :| i < |rest| && rest[i] == SettingsEntry(o) && NoneIn(rest[..i]) && NoneIn(rest[i + 1..]);
    if i > 0 {
      assert rest[..i][0] == rest[0];
      assert rest[1..][i - 1] == rest[i] && rest[1..][i..] == rest[i + 1..];
      NoneInTail(rest[..i]);
      assert rest[1..][..i - 1] == rest[..i][1..];
    }
  }

  /** One round of the loop on top. */
  ghost predicate Rounds(s: State, t: State) {
    && s.control.stack != [] && s.control.Top().Restore?
    && StoreOf(t) == StoreOf(s) && t.mission == s.mission
    && Count(t.control, Working) <= Count(s.control, Working) &&
       Count(t.control, Resuming) <= Count(s.control, Resuming)
    && var n, rest := |s.control.stack| - 1, s.control.Top().rest;
       && n <= |t.control.stack| <= n + 2
       && (forall i: nat :: i < n ==> t.control.stack[i] == s.control.stack[i] && !s.control.stack[i].Perform?)
       && (rest == [] ==> |t.control.stack| == n)
       && (rest != [] ==> |t.control.stack| > n && t.control.stack[n] == Restore(rest[1..], s.control.Top().handler))
       && (|t.control.stack| == n + 2 ==> t.control.Top() == Perform(rest[0].name, rest[0].arguments, Nop))
       && (rest != [] && rest[0].name == "changeSettings" ==> |t.control.stack| == n + 2)
  }

  lemma RestoreControl(c: Setup, s: State, rest: seq<ActionState>, h: nat)
    ensures var k, t := s.control, RestoreStep(c, s, rest, h);
      && StoreOf(t) == StoreOf(s)
      && t.control == if rest == [] then k
                      else if rest[0].name in c.actions && rest[0].name != "onResume" then
                        k.Push(Restore(rest[1..], h)).Push(Perform(rest[0].name, rest[0].arguments, Nop))
                      else k.Push(Restore(rest[1..], h))
  {
  }

  lemma RestoreRounds(c: Setup, s: State, t: State, rest: seq<ActionState>, h: nat)
    requires SettingsSetup(c) && HandlersOk(c, s.control) && s.control.Top() == Restore(rest, h)
    requires t == RestoreStep(c, Popped(s), rest, h) && Quieter(s, t)
    ensures Rounds(s, t)
  {
    hide Count, ClosuresCoherent, FrameCoherent, RestoreStep;
    RestoreControl(c, Popped(s), rest, h);
  }

  lemma RoundPlain(s: State, t: State, except: int)
    requires Rounds(s, t) && PlainBut(s.control.stack, except)
    requires Plain(s.control.Top()) ||
      (except == |s.control.stack| - 1 && s.control.Top().rest != [] && NoneIn(s.control.Top().rest[1..]))
    ensures PlainBut(t.control.stack, if except == |s.control.stack| - 1 then -1 else except)
  {
    hide Count, NoneIn, StoreOf;
    var rest := s.control.Top().rest;
    if rest != [] && NoneIn(rest) {
      NoneInTail(rest);
    }
  }

  lemma RoundLive(s: State, t: State, o: TrajectoryOptions)
    requires Rounds(s, t) && Live(s, o)
    ensures Live(t, o)
  {
    hide Count, NoEntry, EntryAt, PlainBut;
    TopPlain(s.control, -1);
    RoundPlain(s, t, -1);
    RoundPerforms(s, t);
  }

  lemma TopPlain(k: Control, except: int)
    requires k.stack != [] && PlainBut(k.stack, except) && except != |k.stack| - 1
    ensures Plain(k.Top())
  {
  }

  lemma RoundPerforms(s: State, t: State)
    requires Rounds(s, t)
    requires s.control.Top().rest != [] ==> s.control.Top().rest[0].name != "changeSettings" || Plain(s.control.Top())
    ensures !PerformsSettings(t)
  {
    hide Count, StoreOf;
    if s.control.Top().rest != [] && Plain(s.control.Top()) {
      NoneInTail(s.control.Top().rest);
    }
  }

  lemma RoundSuspended(s: State, t: State, o: TrajectoryOptions)
    requires Rounds(s, t) && Suspended(s, o)
    ensures Suspended(t, o)
  {
    hide Count, Waits, PlainBut;
    TopPlain(s.control, -1);
    RoundPlain(s, t, -1);
    RoundPerforms(s, t);
  }

  /** The loop that restores the settings runs `changeSettings` when it gets there. */
  lemma RoundRestoring(s: State, t: State, o: TrajectoryOptions)
    requires Rounds(s, t) && Restoring(s, o)
    ensures Restoring(t, o) || Replaying(t, o)
  {
    hide Count, NoEntry, PlainBut, OneIn, NoneIn;
    var n, f := |s.control.stack| - 1, s.control.Top();
    var at: nat :| RestoringAt(s, o, at);
    if at + 1 < n {
      TopPlain(s.control, at + 1);
      RoundPlain(s, t, at + 1);
      RoundPerforms(s, t);
      assert RestoringAt(t, o, at);
    } else {
      OneInTail(f.rest, o);
      RoundOne(s, t, o, at);
    }
  }

  lemma RoundOne(s: State, t: State, o: TrajectoryOptions, at: nat)
    requires Rounds(s, t) && RestoringAt(s, o, at) && at + 2 == |s.control.stack| && s.control.Top().rest != []
    requires var rest := s.control.Top().rest;
      if rest[0].name == "changeSettings" then rest[0] == SettingsEntry(o) && NoneIn(rest[1..]) else OneIn(rest[1..], o)
    ensures Restoring(t, o) || Replaying(t, o)
  {
    hide Count, NoEntry, OneIn, NoneIn;
    if s.control.Top().rest[0].name == "changeSettings" {
      assert Plain(t.control.stack[at + 1]);
      assert t.control.stack[at].StartItem?;
      assert Replaying(t, o);
    } else {
      RoundPerforms(s, t);
      assert RestoringAt(t, o, at);
    }
  }

  lemma RoundTidy(s: State, t: State)
    requires Rounds(s, t) && Tidy(s)
    ensures Tidy(t)
  {
    hide Count;
    assert t.active == StoreOf(t).active && t.clientKeepers == StoreOf(t).client;
  }

  lemma RoundHolds(s: State, t: State, o: TrajectoryOptions)
    requires Tidy(s) && Holds(s, o) && Rounds(s, t)
    ensures Tidy(t) && Holds(t, o)
  {
    hide Live, Suspended, Restoring, Tidy, Rounds;
    RoundTidy(s, t);
    RoundMission(s, t);
    if Live(s, o) {
      RoundLive(s, t, o);
    } else if Suspended(s, o) {
      RoundSuspended(s, t, o);
    } else {
      RoundRestoring(s, t, o);
    }
  }

  lemma RoundMission(s: State, t: State)
    requires Rounds(s, t)
    ensures t.mission == s.mission && s.control.Top().Restore?
  {
  }

  // ---- The end of a resumption ----

  lemma {:induction false} ValuesOf<T>(m: map<nat, T>)
    ensures forall i: nat :: i < |Values(m)| ==> SortedKeys(m.Keys)[i] in m && Values(m)[i] == m[SortedKeys(m.Keys)[i]]
  {
    var keys := SortedKeys(m.Keys);
    assert forall i: nat :: i < |keys| ==> keys[i] in keys;
  }

  lemma NoneStored(m: map<nat, ActionState>)
    requires NoEntry(m)
    ensures NoneIn(Values(m))
  {
    ValuesOf(m);
    hide Values;
  }

  lemma OneStored(m: map<nat, ActionState>, id: nat, o: TrajectoryOptions)
    requires EntryAt(m, id, o)
    ensures OneIn(Values(m), o)
  {
    ValuesOf(m);
    hide Values, SortedKeys, EncodeOptions;
    var keys, vs := SortedKeys(m.Keys), Values(m);
    assert id in keys;
    var i: nat :| i < |keys| && keys[i] == id;
    forall j: nat | j < |vs| && j != i
      ensures vs[j].name != "changeSettings"
    {
      assert keys[j] != id;
      assert keys[j] in m - {id};
    }
  }

  /** The stored actions are taken out to be restored, above the start of an item. */
  ghost predicate TakesOut(s: State, t: State) {
    && s.control.stack != [] && !s.control.Top().Restore?
    && StoreOf(t) == StoreOf(s).(actions := map[]) && t.mission == s.mission
    && var n := |s.control.stack| - 1;
       && |t.control.stack| == n + 2
       && (forall i: nat :: i < n ==> t.control.stack[i] == s.control.stack[i])
       && t.control.stack[n].StartItem?
       && t.control.stack[n + 1].Restore? && t.control.stack[n + 1].rest == Values(s.persistent.continuousActions)
  }

  lemma TakeOutHolds(c: Setup, s: State, t: State, o: TrajectoryOptions)
    requires TakesOut(s, t) && Suspended(s, o) && s.active && Count(t.control, All) <= 1 &&
      Covers(s.mission.defaults, o)
    ensures Holds(t, o)
  {
    hide Count, Values, EncodeOptions, NoneIn, OneIn;
    var n, actions := |s.control.stack| - 1, s.persistent.continuousActions;
    StartAlone(t.control, n);
    assert forall i: nat :: i < n ==> Plain(t.control.stack[i]);
    if NoEntry(actions) && o == s.mission.defaults {
      NoneStored(actions);
      assert Live(t, o);
    } else {
      var id: nat :| EntryAt(actions, id, o);
      OneStored(actions, id, o);
      assert RestoringAt(t, o, n);
    }
  }

  lemma TakeOutTidy(s: State, t: State)
    requires TakesOut(s, t) && Tidy(s)
    ensures Tidy(t)
  {
    hide Values;
    assert t.active == StoreOf(t).active && t.clientKeepers == StoreOf(t).client;
  }

  /** A live resumption is only found while suspended and active. */
  lemma OnlySuspended(c: Setup, s: State, o: TrajectoryOptions)
    requires Placed(c, s) && Holds(s, o) && s.control.stack != [] &&
      TokFrame(s.control.handler, Resuming, s.control.Top()) >= 1
    requires !s.control.Top().StartItem? && !s.control.Top().Perform?
    ensures Suspended(s, o) && s.active
  {
    hide Count, HandlersOk, EntryAt, SettingsEntry;
    PopCounts(s.control, Resuming);
    PopCounts(s.control, All);
    FrameMono(s.control.handler, s.control.Top());
    if Restoring(s, o) {
      var at: nat :| RestoringAt(s, o, at);
      StartAlone(s.control, at);
    }
  }

  lemma ResumedHolds(c: Setup, s: State, t: State, closure: Closure, answer: Answer, o: TrajectoryOptions)
    requires Sound(c, s) && Tidy(s) && Holds(s, o) && s.control.Top() == Invoke(closure)
    requires LiveResumption(s.control, closure) && !MovesIndex(s)
    requires t == InvokeStep(c, Popped(s), closure, answer) && Placed(c, t)
    ensures Tidy(t) && Holds(t, o)
  {
    hide Count, HandlersOk, Tidy, OwnOk, Suspended, Live, Restoring, Values;
    OnlySuspended(c, s, o);
    assert s.control.valid == {s.control.handler} by { ValidHandler(c, s.control); }
    TakeOutHolds(c, s, t, o);
    TakeOutTidy(s, t);
  }

  // ---- The continuation of an activation ----

  /** The entry of the resume action goes; the settings stay. */
  lemma WaitsWithout(a: Store, b: Store, defaults: TrajectoryOptions, o: TrajectoryOptions, id: nat)
    requires Waits(a, defaults, o) && b == a.(actions := a.actions - {id})
    requires id in a.actions && a.actions[id].name == "onResume"
    ensures Waits(b, defaults, o)
  {
    hide EncodeOptions, TokSlots;
    if !NoEntry(a.actions) || o != defaults {
      var at: nat :| EntryAt(a.actions, at, o);
      assert forall k :: k in b.actions - {at} ==> k in a.actions - {at};
      assert EntryAt(b.actions, at, o);
    } else {
      assert NoEntry(b.actions);
    }
  }

  ghost predicate StartedResume(k: Control, l: Control) {
    l == k || exists given, previous :: l == k.Push(Perform("onResume", given, ResumeDone(k.handler, previous)))
  }

  lemma StartResumeFrames(c: Setup, s: State, arguments: Json)
    requires "onResume" in c.actions
    ensures var t := StartResume(c, s, arguments);
      StartedResume(s.control, t.control)
  {
    hide Json.Put;
    var t, given := StartResume(c, s, arguments), arguments.Put("action", Str("resume"));
    if given.Success? && s.active {
      assert t.control == s.control.Push(Perform("onResume", given.value,
        ResumeDone(s.control.handler, s.persistent.currentIndex)));
    }
  }

  lemma ResumesOn(c: Setup, s: State, h: nat)
    requires !s.control.IsValid(h) || "onResume" in c.actions
    ensures var t := ActivatedStep(c, s, h, false);
      && StartedResume(s.control, t.control)
      && StoreOf(t) == (if s.control.IsValid(h) then StoreOf(TakeResumeEntry(s)) else StoreOf(s))
  {
    hide TakeResumeEntry, ResumeArguments, StartResume, RunStoredActions, SamePlace;
    if s.control.IsValid(h) {
      StartResumeFrames(c, TakeResumeEntry(s), ResumeArguments(s));
    }
  }

  lemma ResumedStack(k: Control, l: Control)
    requires k.stack != [] && Ordinary(k.Top()) && (|k.stack| > 1 ==> SettingsFree(k.stack[|k.stack| - 2]))
    requires StartedResume(k.Popped(), l)
    ensures Replaces(k, l, |k.stack| - 1) && (l.stack != [] ==> SettingsFree(l.Top()))
    ensures Count(l, Working) <= Count(k, Working)
  {
    hide Count;
    PopCounts(k, Working);
    if l != k.Popped() {
      var given, previous :| l == k.Popped().Push(Perform("onResume", given, ResumeDone(k.handler, previous)));
      PushCounts(k.Popped(), Working, Perform("onResume", given, ResumeDone(k.handler, previous)));
    }
  }

  lemma ResumedTidy(s: State, t: State)
    requires Tidy(s) && s.control.stack != [] && Replaces(s.control, t.control, |s.control.stack| - 1)
    requires t.active == s.active && t.clientKeepers == s.clientKeepers
    ensures Tidy(t)
  {
    var m := |s.control.stack| - 1;
    assert forall i: nat :: i < m ==> t.control.stack[i] == t.control.stack[..m][i] == s.control.stack[..m][i];
  }

  /** Starting the resume action, or nothing after an abort: the settings keep waiting. */
  lemma ResumesHolds(c: Setup, s: State, t: State, h: nat, o: TrajectoryOptions)
    requires HandlersOk(c, s.control) && Tidy(s) && Suspended(s, o) && s.active && s.control.Top().Activated?
    requires t == ActivatedStep(c, Popped(s), h, false) && (s.control.IsValid(h) ==> "onResume" in c.actions)
    ensures Tidy(t) && Suspended(t, o)
  {
    hide Count, HandlersOk, ActivatedStep, TakeResumeEntry, StoredResume, Waits, PlainBut, Replaces, Tidy, StoreOf,
      SettingsFree;
    var u := Popped(s);
    CalmTop(c, s.control);
    ResumesOn(c, u, h);
    ResumedStack(s.control, t.control);
    ReplacedPlain(s.control, t.control, |s.control.stack| - 1, -1);
    PoppedStore(s);
    if StoreOf(t) != StoreOf(s) {
      WaitsWithout(StoreOf(s), StoreOf(t), s.mission.defaults, o, StoredResume(u).value);
    }
    StoreFields(t);
    StoreFields(s);
    ResumedTidy(s, t);
  }

  lemma ActivatedHolds(c: Setup, s: State, t: State, h: nat, fromBeginning: bool, o: TrajectoryOptions)
    requires Sound(c, s) && Tidy(s) && Holds(s, o) && s.control.Top() == Activated(h, fromBeginning)
    requires t == ActivatedStep(c, Popped(s), h, fromBeginning) && Placed(c, t)
    ensures Tidy(t) && Holds(t, o)
  {
    hide Count, HandlersOk, Tidy, OwnOk, Suspended, Live, Restoring, Values, StartResume, TakeResumeEntry,
      ResumeArguments;
    OnlySuspended(c, s, o);
    if s.control.IsValid(h) && ("onResume" !in c.actions || fromBeginning) {
      TakeOutHolds(c, s, t, o);
      TakeOutTidy(s, t);
    } else {
      assert t == ActivatedStep(c, Popped(s), h, false);
      ResumesHolds(c, s, t, h, o);
    }
  }

  // ---- `changeSettings` itself ----

  lemma SettingsReset(s: State, arguments: Json)
    requires ResetsAll(arguments) == Success(true)
    ensures ChangedSettings(s, arguments).Success?
    ensures var t := ChangedSettings(s, arguments).value;
      && t.mission == s.mission && t.control == s.control
      && StoreOf(t) == StoreOf(s).Dropped().(options := s.mission.defaults)
  {
    hide MergedOptions, EncodeOptions, ResetsAll, StoreSettings, SamePlace;
  }

  lemma SettingsMerged(s: State, arguments: Json)
    requires ResetsAll(arguments) == Success(false) && ChangedSettings(s, arguments).Success?
    ensures MergedOptions(s.options, arguments).Success?
    ensures var t, o := ChangedSettings(s, arguments).value, MergedOptions(s.options, arguments).value;
      && t.mission == s.mission && t.control == s.control
      && StoreOf(t) == StoreOf(s).Settled(s.options.CombinedWith(o), SettingsEntry(o))
  {
    hide MergedOptions, EncodeOptions, ResetsAll, TrajectoryOptions.CombinedWith, StoreSettings, Store.Settled,
      DropSettingsKeeper;
  }

  lemma ChangedParts(s: State, arguments: Json, done: Closure)
    requires !ChangeSettingsStep(s, arguments, done).crashed && !s.crashed
    ensures ChangedSettings(s, arguments).Success? && ResetsAll(arguments).Success?
    ensures ChangeSettingsStep(s, arguments, done) == ChangedSettings(s, arguments).value.Push(Invoke(done))
    ensures StoreOf(ChangeSettingsStep(s, arguments, done)) == StoreOf(ChangedSettings(s, arguments).value)
  {
    hide MergedOptions, EncodeOptions, ResetsAll, StoreSettings, DropSettingsKeeper, KeepsSegment, StartsNoSettings,
      SamePlace;
  }

  /** Unless it throws: a reset drops the stored settings and goes back to the defaults of the mission; a change sets
      what is given, keeps what is not, and stores all of it in place of what was stored. */
  lemma ChangedStore(c: Setup, s: State, arguments: Json, done: Closure)
    requires !ChangeSettingsStep(s, arguments, done).crashed && !s.crashed
    ensures var t, a := ChangeSettingsStep(s, arguments, done), StoreOf(s);
      && t.mission == s.mission && t.control == s.control.Push(Invoke(done))
      && (if MissionOptions.Resets(arguments) then StoreOf(t) == a.Dropped().(options := s.mission.defaults)
          else
            && MissionOptions.Keeps(arguments) && MissionOptions.Changes(arguments, s.options, t.options)
            && StoreOf(t) == a.Settled(t.options, SettingsEntry(t.options)))
  {
    hide MergedOptions, EncodeOptions, ResetsAll, TrajectoryOptions.CombinedWith, ChangedSettings, Store.Settled,
      Store.Dropped, KeepsSegment, StartsNoSettings, SamePlace, ChangeSettingsStep, MissionOptions.Resets,
      MissionOptions.Keeps, MissionOptions.Changes;
    ChangedParts(s, arguments, done);
    MissionOptions.ResetIsRead(arguments);
    if ResetsAll(arguments).value {
      SettingsReset(s, arguments);
    } else {
      SettingsMerged(s, arguments);
      var o := MergedOptions(s.options, arguments).value;
      MergingCovers(s.options, arguments);
      MissionOptions.ChangeIsRead(s.options, arguments, o);
      SettledOptions(StoreOf(s), o);
    }
  }

  lemma SettledOptions(a: Store, o: TrajectoryOptions)
    ensures a.Settled(o, SettingsEntry(o)).options == o
  {
    hide EncodeOptions;
  }

  /** The old entry goes, the new one stays alone. */
  lemma SettledAlone(a: Store, o: TrajectoryOptions, was: TrajectoryOptions)
    requires a.settings.Some? ==> a.settings.value < a.next
    requires if a.settings.None? then NoEntry(a.actions) else EntryAt(a.actions, a.settings.value, was)
    ensures var b := a.Settled(o, SettingsEntry(o));
      a.active ==> b.settings == Some(a.next) && EntryAt(b.actions, a.next, o)
  {
    hide EncodeOptions;
    var b := a.Settled(o, SettingsEntry(o));
    assert forall k :: k in b.actions - {a.next} && a.active ==>
        b.actions[k] == a.actions[k] && if a.settings.None? then k in a.actions
          else k in a.actions - {a.settings.value};
  }

  lemma DroppedNone(a: Store, was: TrajectoryOptions)
    requires if a.settings.None? then NoEntry(a.actions) else EntryAt(a.actions, a.settings.value, was)
    ensures a.active ==> NoEntry(a.Dropped().actions) && a.Dropped().settings.None?
  {
  }

  /** The state after a run of `changeSettings`. */
  lemma ChangedTo(c: Setup, s: State, arguments: Json, done: Closure, was: TrajectoryOptions)
    requires !ChangeSettingsStep(s, arguments, done).crashed && !s.crashed && s.active && OwnOk(StoreOf(s))
    requires if s.settingsKeeper.None? then NoEntry(s.persistent.continuousActions)
             else EntryAt(s.persistent.continuousActions, s.settingsKeeper.value, was)
    requires Covers(s.mission.defaults, s.options)
    ensures var t := ChangeSettingsStep(s, arguments, done);
      var o := if ResetsAll(arguments) == Success(true) then s.mission.defaults
               else (match MergedOptions(s.options, arguments) case Success(merged) => merged
                 case Failure => s.options);
      && t.mission == s.mission && t.control == s.control.Push(Invoke(done)) && t.clientKeepers == s.clientKeepers
      && t.active && t.options == o && Covers(s.mission.defaults, o)
      && (match t.settingsKeeper
          case None => NoEntry(t.persistent.continuousActions) && o == s.mission.defaults
          case Some(id) => EntryAt(t.persistent.continuousActions, id, o))
  {
    hide MergedOptions, ResetsAll, TrajectoryOptions.CombinedWith, ChangeSettingsStep, NoEntry, EntryAt, StoreOf,
      MissionOptions.Resets, MissionOptions.Keeps, MissionOptions.Changes;
    var t, a := ChangeSettingsStep(s, arguments, done), StoreOf(s);
    StoreFields(s);
    StoreFields(t);
    ChangedStore(c, s, arguments, done);
    MissionOptions.ResetIsRead(arguments);
    DroppedNone(a, was);
    if !MissionOptions.Resets(arguments) {
      MissionOptions.ChangeIsRead(s.options, arguments, t.options);
      MergingCovers(s.options, arguments);
      SettledAlone(a, t.options, was);
    }
  }

  /** Run as an item, `changeSettings` sets the settings; run from the stored actions, it restores them. */
  lemma SettingsHolds(c: Setup, s: State, t: State, arguments: Json, done: Closure, o: TrajectoryOptions)
    requires Sound(c, s) && Tidy(s) && Holds(s, o) && s.control.Top() == Perform("changeSettings", arguments, done)
    requires t == ChangeSettingsStep(Popped(s), arguments, done) && !s.crashed && !t.crashed && Quieter(s, t)
    ensures Tidy(t) && Holds(t, if done.Nop? then o else Asked(s.mission.defaults, arguments, o))
  {
    hide Count, HandlersOk, Tidy, ChangeSettingsStep, NoEntry, EntryAt, MergedOptions, ResetsAll, StoreOf, Replaces,
      PlainBut, OwnOk, EncodeOptions;
    PoppedStore(s);
    StoreFields(s);
    StoreFields(t);
    if Replaying(s, o) {
      assert Count(s.control, Resuming) == 0 by {
        hide Count, EncodeOptions, PlainBut;
        var at: nat :| at < |s.control.stack| && s.control.stack[at].StartItem?;
        StartAlone(s.control, at);
      }
    }
    ChangedTo(c, Popped(s), arguments, done, o);
    assert (PlainBut(s.control.stack, -1) ==> PlainBut(t.control.stack, -1)) &&
      Replaces(s.control, t.control, |s.control.stack| - 1) && !PerformsSettings(t) by {
      hide NoneIn;
      PoppedReplaces(s.control, t.control);
      if PlainBut(s.control.stack, -1) {
        ReplacedPlain(s.control, t.control, |s.control.stack| - 1, -1);
      }
    }
    ResumedTidy(s, t);
    if !Live(s, o) {
      ReplayRestores(s.mission.defaults, o);
    }
  }

  // ---- The other frames ----

  lemma ReturnStore(c: Setup, s: State, f: Frame)
    ensures ReturnStep(c, s, f).mission == s.mission
    ensures StoreOf(ReturnStep(c, s, f)) == if f.Cleanup? then StoreOf(s).Dropped() else StoreOf(s)
  {
    hide DeactivateDefaults, SaveStep, Store.Dropped, KeepsStore, KeepsSegment, StartsNoSettings, StartsOnlyItem;
  }

  /** The default actions let go of their entries, which stay in the stored actions. */
  lemma CleanupHolds(s: State, t: State, o: TrajectoryOptions)
    requires Suspended(s, o) && !s.active && s.control.stack != [] && s.control.Top() == Cleanup
    requires t.mission == s.mission && StoreOf(t) == StoreOf(s).Dropped()
    requires t.control.stack == s.control.Popped().stack + [CleanupHooks]
    ensures Suspended(t, o)
  {
    hide NoEntry, EntryAt, NoneIn;
    StoreFields(s);
    StoreFields(t);
    assert forall i: nat :: i < |t.control.stack| - 1 ==> t.control.stack[i] == s.control.stack[i];
  }

  lemma ReturnHolds(c: Setup, s: State, t: State, f: Frame, o: TrajectoryOptions)
    requires HandlersOk(c, s.control) && Tidy(s) && Holds(s, o) && s.control.stack != [] && s.control.Top() == f
    requires t == ReturnStep(c, Popped(s), f) && !Calls(f) && !InClient(f) && Quieter(s, t)
    ensures Tidy(t) && Holds(t, o)
  {
    hide Count, HandlersOk, ReturnStep, StoreOf, Store.Dropped, Live, Suspended, Restoring, Replaces, Replaying;
    ReturnStore(c, Popped(s), f);
    ReturnControl(c, Popped(s), f);
    PoppedStore(s);
    CalmTop(c, s.control);
    if f.Cleanup? {
      StoreFields(s);
      StoreFields(t);
      InactiveSuspended(s, o);
      CleanupHolds(s, t, o);
      DroppedClient(s);
    } else {
      ReturnReplaces(s.control, t.control);
      AsideHolds(s, t, |s.control.stack| - 1, o);
    }
  }

  lemma PopsHolds(c: Setup, s: State, o: TrajectoryOptions)
    requires HandlersOk(c, s.control) && Tidy(s) && Holds(s, o) && InClient(s.control.Top()) && Quieter(s, Popped(s))
    ensures Tidy(Popped(s)) && Holds(Popped(s), o)
  {
    hide Count, HandlersOk, StoreOf, Holds, Replaces, Tidy;
    PoppedStore(s);
    CalmTop(c, s.control);
    ReturnReplaces(s.control, Popped(s).control);
    AsideHolds(s, Popped(s), |s.control.stack| - 1, o);
  }

  lemma ReturnReplaces(k: Control, l: Control)
    requires k.stack != [] && !k.Top().Restore? && !k.Top().Cleanup? && l.stack == k.Popped().stack
    ensures Replaces(k, l, |k.stack| - 1)
  {
  }

  lemma DroppedClient(s: State)
    ensures StoreOf(s).Dropped().client == s.clientKeepers && StoreOf(s).Dropped().active == s.active
  {
  }

  lemma InactiveSuspended(s: State, o: TrajectoryOptions)
    requires Holds(s, o) && !s.active
    ensures Suspended(s, o)
  {
    hide Count;
  }

  // ---- Client code ----

  predicate StoresOrDrops(command: Command) {
    command.StoreState? || command.DropState?
  }

  /** Commands that leave the stored actions alone. */
  lemma CommandAside(c: Setup, s: State, t: State, run: nat, command: Command, answer: Answer)
    requires HandlersOk(c, s.control) && s.control.Top() == Client(run) && run < |s.control.runs|
    requires LeavesOptions(command) && !StoresOrDrops(command) && !command.Return?
    requires t == CommandStep(c, s, run, command, answer) && t.control.handler == s.control.handler
    ensures Aside(s, t, |s.control.stack|)
  {
    hide Count, Leads, Advances, ClosuresCoherent, StackCoherent, CommandStep, StoreOf, KeepsStore;
    CommandLeads(c, s, All, run, command, answer);
    LeadsOn(s.control, t.control, All, 0);
    AdvancesOver(s.control, t.control);
    CommandKeepsStore(c, s, run, command, answer);
  }

  lemma AdvancesOver(k: Control, l: Control)
    requires Advances(k, l) && l.handler == k.handler
    ensures Replaces(k, l, |k.stack|)
  {
    hide Count, Aborted;
  }

  lemma CommandKeepsStore(c: Setup, s: State, run: nat, command: Command, answer: Answer)
    requires s.control.Top() == Client(run)
    requires LeavesOptions(command) && !StoresOrDrops(command) && !command.Return?
    requires CommandStep(c, s, run, command, answer).control.handler == s.control.handler
    ensures StoreOf(CommandStep(c, s, run, command, answer)) == StoreOf(s)
    ensures CommandStep(c, s, run, command, answer).mission == s.mission
    ensures !PerformsSettings(CommandStep(c, s, run, command, answer))
  {
    hide HandlerMode, RunActionStep, HandlerTrajectory, AddContinuousAction, DropStep;
  }

  /** Another stored action. */
  lemma HeldHolds(s: State, t: State, a: ActionState, o: TrajectoryOptions)
    requires Holds(s, o) && SparesEntry(s) && a.name != "changeSettings"
    requires StoreOf(t) == Held(StoreOf(s), a) && t.control == s.control && t.mission == s.mission
    ensures Holds(t, o)
  {
    hide Count, PlainBut, OneIn, EncodeOptions;
    StoreFields(s);
    StoreFields(t);
    forall id: nat | EntryAt(s.persistent.continuousActions, id, o)
      ensures EntryAt(t.persistent.continuousActions, id, o)
    {
      assert forall k :: k in t.persistent.continuousActions - {id} && k != s.nextActionId ==>
        k in s.persistent.continuousActions - {id};
    }
    assert NoEntry(s.persistent.continuousActions) ==> NoEntry(t.persistent.continuousActions);
    if Restoring(s, o) {
      var at: nat :| RestoringAt(s, o, at);
      assert RestoringAt(t, o, at);
    }
  }

  /** A client lets go of an action. */
  lemma ReleasedHolds(s: State, t: State, id: nat, o: TrajectoryOptions)
    requires Holds(s, o) && OwnOk(StoreOf(s)) && Tidy(s) && id in s.clientKeepers
    requires StoreOf(t) == Released(StoreOf(s), id) && t.control == s.control && t.mission == s.mission
    ensures Holds(t, o)
  {
    hide Count, PlainBut, OneIn, EncodeOptions;
    StoreFields(s);
    StoreFields(t);
    forall at: nat | EntryAt(s.persistent.continuousActions, at, o)
      ensures EntryAt(t.persistent.continuousActions, at, o)
    {
      assert at != id;
      assert forall k :: k in t.persistent.continuousActions - {at} ==> k in s.persistent.continuousActions - {at};
    }
    assert NoEntry(s.persistent.continuousActions) ==> NoEntry(t.persistent.continuousActions);
    if Restoring(s, o) {
      var at: nat :| RestoringAt(s, o, at);
      assert RestoringAt(t, o, at);
    }
  }

  lemma StoringControl(c: Setup, s: State, run: nat, command: Command, answer: Answer)
    requires StoresOrDrops(command)
    ensures CommandStep(c, s, run, command, answer).control == s.control
    ensures CommandStep(c, s, run, command, answer).mission == s.mission
    ensures CommandStep(c, s, run, command, answer) == s || (
        match command
        case StoreState(name, arguments) =>
          StoreOf(CommandStep(c, s, run, command, answer)) == Held(StoreOf(s), ActionState(name, arguments))
        case DropState(id) =>
          id in s.clientKeepers && StoreOf(CommandStep(c, s, run, command, answer)) == Released(StoreOf(s), id)
        case _ => false)
  {
    hide HandlerMode, RunActionStep, HandlerTrajectory, CompleteStep, SetIndexStep, AddContinuousAction;
  }

  lemma StoringTidy(s: State, t: State)
    requires Tidy(s) && t.control == s.control
    requires (exists a: ActionState :: a.name != "changeSettings" && StoreOf(t) == Held(StoreOf(s), a))
          || (exists id: nat :: StoreOf(t) == Released(StoreOf(s), id))
    ensures Tidy(t)
  {
    StoreFields(s);
    StoreFields(t);
  }

  lemma StoringHolds(s: State, t: State, command: Command, o: TrajectoryOptions)
    requires OwnOk(StoreOf(s)) && Tidy(s) && Holds(s, o) && t.control == s.control && t.mission == s.mission
    requires match command
             case StoreState(name, arguments) =>
               && StoreOf(t) == Held(StoreOf(s), ActionState(name, arguments))
               && name != "changeSettings" && SparesEntry(s)
             case DropState(id) => id in s.clientKeepers && StoreOf(t) == Released(StoreOf(s), id)
             case _ => false
    ensures Tidy(t) && Holds(t, o)
  {
    hide StoreOf, OwnOk, Holds, Tidy, Held, Released;
    StoringTidy(s, t);
    match command
    case StoreState(name, arguments) => HeldHolds(s, t, ActionState(name, arguments), o);
    case DropState(id) => ReleasedHolds(s, t, id, o);
    case _ =>
  }

  lemma DropHolds(s: State, id: nat, o: TrajectoryOptions)
    requires OwnOk(StoreOf(s)) && Tidy(s) && Holds(s, o)
    ensures Tidy(DropStep(s, id)) && Holds(DropStep(s, id), o)
  {
    hide StoreOf, OwnOk, Holds, Tidy, Held, Released;
    if id in s.clientKeepers {
      ReleaseMoves(s, id);
      StoringHolds(s, DropStep(s, id), DropState(id), o);
    }
  }

  // ---- Events ----

  lemma ActivateHolds(c: Setup, s: State, o: TrajectoryOptions)
    requires Placed(c, s) && Tidy(s) && Holds(s, o) && s.control.stack == [] && !s.active
    requires OnActivate(c, s).control.handler == s.control.handler
    ensures Tidy(OnActivate(c, s)) && Holds(OnActivate(c, s), o)
  {
    hide Count, HandlersOk, StartAbort, Live, Restoring, Replaying, Waits;
    var t := OnActivate(c, s);
    InactiveSuspended(s, o);
    CountsMono(s.control, Working);
    assert HandlersCalm(c, s.control) by { IdleCalm(c, s.control); }
    ActivateCounts(c, s, Working);
    StoreFields(s);
    StoreFields(t);
    WaitsSame(StoreOf(s), StoreOf(t), s.mission.defaults, o);
  }

  lemma WaitsSame(a: Store, b: Store, defaults: TrajectoryOptions, o: TrajectoryOptions)
    requires b.actions == a.actions && Waits(a, defaults, o)
    ensures Waits(b, defaults, o)
  {
  }

  lemma LeaveStack(s: State)
    ensures Leave(s).control.stack == s.control.stack
  {
  }

  lemma DeactivateStore(c: Setup, s: State)
    ensures var a, b := StoreOf(s), StoreOf(OnDeactivate(c, s));
      b == if MissionDone(Leave(s)) then a.(active := false, actions := map[]) else a.(active := false)
  {
    hide Leave, MissionDone, PushStore, ClearFile;
  }

  lemma LiveWaits(s: State, o: TrajectoryOptions)
    requires Live(s, o)
    ensures Waits(StoreOf(s), s.mission.defaults, o)
  {
    hide Count, EntryAt;
  }

  /** A deactivation leaves the settings in the stored actions, or forgets them with a mission that is done. */
  lemma DeactivateHolds(c: Setup, s: State, o: TrajectoryOptions)
    requires Tidy(s) && Holds(s, o) && s.control.stack == []
    ensures var t := OnDeactivate(c, s);
      Holds(t, if MissionDone(Leave(s)) then s.mission.defaults else o) && Tidy(t)
  {
    hide Count, Waits, MissionDone, OnDeactivate, Leave;
    var t, done := OnDeactivate(c, s), MissionDone(Leave(s));
    LeaveStack(s);
    DeactivateIndex(c, s);
    DeactivateStore(c, s);
    OnDeactivateControl(c, s);
    StoreFields(s);
    StoreFields(t);
    if Live(s, o) {
      LiveWaits(s, o);
    }
    if done {
      NoneWaits(StoreOf(t), s.mission.defaults);
    } else {
      WaitsSame(StoreOf(s), StoreOf(t), s.mission.defaults, o);
    }
  }

  lemma NoneWaits(a: Store, defaults: TrajectoryOptions)
    requires a.actions == map[]
    ensures Waits(a, defaults, defaults)
  {
  }

  lemma EventControl(c: Setup, s: State, event: Event, answer: Answer)
    requires OneValidHandler(s.control) && s.control.stack == []
    requires event.UpdateSetpoint? || event.ModeFinished? || event.TimerFired? || event.ClientTurn? ||
      event.AbortRequest?
             || event.LandedChanged? || event.ReadinessChanged?
    requires ExternalStep(c, s, event, answer).control.handler == s.control.handler
    ensures var t := ExternalStep(c, s, event, answer);
      && StoreOf(t) == StoreOf(s) && !PerformsSettings(t)
      && |t.control.stack| <= 1 && (t.control.stack != [] ==> Ordinary(t.control.Top()))
  {
    hide StartAbort, ModeFailed, FinishMode, UpdateSetpointStep, FireTimer, KeepsStore, KeepsSegment, StartsNoSettings,
      SamePlace, SameButIndex, LoadedState;
    var t := ExternalStep(c, s, event, answer);
    match event
    case ModeFinished(outcome) => FinishFrames(s, outcome);
    case UpdateSetpoint(positionValid, reached) => UpdateFrames(c, s, positionValid, reached);
    case TimerFired => FireFrames(s);
    case _ =>
  }

  lemma FinishFrames(s: State, outcome: Outcome)
    requires s.control.stack == []
    requires FinishMode(s, outcome).control.handler == s.control.handler
    ensures var t := FinishMode(s, outcome);
      StoreOf(t) == StoreOf(s) && (t.control.stack == [] || exists done :: t.control.stack == [Invoke(done)])
  {
    hide StartAbort;
  }

  lemma UpdateFrames(c: Setup, s: State, positionValid: bool, reached: bool)
    requires s.control.stack == []
    requires UpdateSetpointStep(c, s, positionValid, reached).control.handler == s.control.handler
    ensures var t := UpdateSetpointStep(c, s, positionValid, reached);
      && StoreOf(t) == StoreOf(s) && |t.control.stack| <= 1
      && (t.control.stack != [] ==> t.control.Top().StartItem? || t.control.Top().Invoke?)
  {
    hide StartAbort, ReachIndex;
    var target := s.control.flight.target;
    if target.Some? {
      ReachIndexControl(s, target.value);
    }
  }

  lemma FireFrames(s: State)
    requires s.control.stack == []
    ensures var t := FireTimer(s);
      StoreOf(t) == StoreOf(s) && t.control.handler == s.control.handler
      && (t.control.stack == [] || exists done :: t.control.stack == [Invoke(done)])
  {
    hide KeepsStore, KeepsSegment, SamePlace, SameButIndex, StartsNoSettings, StartsOnlyItem;
  }

  lemma EventMission(c: Setup, s: State, event: Event, answer: Answer)
    requires !event.SetMission? && !event.ResetMission?
    ensures ExternalStep(c, s, event, answer).mission == s.mission
  {
    hide StartAbort, FinishMode, FireTimer, Leave, MissionDone, ClearFile, PushStore, ReachIndex, EncodeMission;
    if event.UpdateSetpoint? && s.control.flight.target.Some? {
      ReachIndexPlace(s, s.control.flight.target.value);
    }
  }

  lemma EntryEvents(c: Setup, s: State, answer: Answer)
    ensures ExternalStep(c, s, Activate, answer) == if s.active then s else OnActivate(c, s)
    ensures ExternalStep(c, s, Deactivate, answer) == if s.active then OnDeactivate(c, s) else s
  {
    hide OnActivate, OnDeactivate, StartAbort, FinishMode, FireTimer, UpdateSetpointStep, SetMissionStep;
  }

  lemma IdleReplaces(k: Control, l: Control)
    requires k.stack == [] && |l.stack| <= 1 && (l.stack != [] ==> Ordinary(l.Top()))
    ensures Replaces(k, l, 0)
  {
  }

  // ---- Runs ----

  lemma InternalHolds(c: Setup, s: State, answer: Answer, o: TrajectoryOptions)
    requires SettingsSetup(c) && Sound(c, s) && Tidy(s) && Holds(s, o) && Undisturbed(c, s, Internal(answer))
    requires s.control.stack != []
    ensures Tidy(Step(c, s, Internal(answer)))
    ensures Holds(Step(c, s, Internal(answer)), Intended(s, Internal(answer), o))
  {
    hide Step, Count, HandlersOk, OwnOk, Tidy, Holds, SettingsSetup, Asked, InvokeStep, PerformStep, ActivatedStep,
      RestoreStep, StartItemStep, AbortMainStep, ReturnStep, Rounds, Aside, KeepsStore, KeepsSegment, SamePlace,
      SameButIndex, StartsNoSettings, StartsOnlyItem;
    var l, t, n := Internal(answer), Step(c, s, Internal(answer)), |s.control.stack| - 1;
    StepPlaced(c, s, l);
    StepCounts(c, s, l, Working);
    StepCounts(c, s, l, Resuming);
    match s.control.Top()
    case Invoke(closure) =>
      InvokeFrame(c, s, closure, answer);
      if LiveResumption(s.control, closure) {
        ResumedHolds(c, s, t, closure, answer, o);
      } else {
        InvokeAside(c, s, t, closure, answer);
        AsideHolds(s, t, n, o);
      }
    case Perform(name, arguments, done) =>
      PerformFrame(c, s, name, arguments, done, answer);
      if name == "changeSettings" {
        ChangeSettingsOf(c, Popped(s), arguments, done, answer);
        SettingsHolds(c, s, t, arguments, done, o);
      } else {
        PerformAside(c, s, t, name, arguments, done, answer);
        AsideHolds(s, t, n, o);
      }
    case Activated(h, fromBeginning) =>
      ActivatedFrame(c, s, h, fromBeginning, answer);
      ActivatedHolds(c, s, t, h, fromBeginning, o);
    case Restore(rest, h) =>
      RestoreFrame(c, s, rest, h, answer);
      RestoreRounds(c, s, t, rest, h);
      RoundHolds(s, t, o);
    case StartItem(resuming, h) =>
      StartFrame(c, s, resuming, h, answer);
      StartItemHolds(c, s, t, resuming, answer, o);
    case AbortMain(reason) =>
      AbortFrame(c, s, reason, answer);
      AbortAside(c, s, t, reason);
      AsideHolds(s, t, n, o);
    case f =>
      if InClient(f) {
        UnfitStep(c, s, l);
      } else {
        ReturnFrame(c, s, answer);
        ReturnHolds(c, s, t, f, o);
      }
  }

  lemma ChangeSettingsOf(c: Setup, s: State, arguments: Json, done: Closure, answer: Answer)
    requires SettingsSetup(c)
    ensures PerformStep(c, s, "changeSettings", arguments, done, answer) == ChangeSettingsStep(s, arguments, done)
  {
    hide ChangeSettingsStep, RunModeStep, ResumeStep, TakeoffStep, HoldStep, RunCustomStep, KeepsSegment, KeepsStore,
      SameButIndex, SamePlace, StartsNoSettings;
  }

  lemma SoundPlaced(c: Setup, s: State)
    requires Sound(c, s)
    ensures Placed(c, s)
  {
  }

  lemma StepSound(c: Setup, s: State, l: Label)
    requires Sound(c, s) && (l.External? ==> !l.event.SetMission?)
    ensures Sound(c, Step(c, s, l))
  {
    hide Placed, OwnOk, Step, Moves, LoadedState;
    StepPlaced(c, s, l);
    StepMoves(c, s, l);
    MovesKeepIds(StoreOf(s), StoreOf(Step(c, s, l)));
  }

  lemma UserHolds(c: Setup, s: State, command: Command, answer: Answer, o: TrajectoryOptions)
    requires Sound(c, s) && Tidy(s) && Holds(s, o) && Undisturbed(c, s, User(command, answer))
    requires s.control.stack != [] && (command.StoreState? ==> SparesEntry(s))
    ensures Tidy(Step(c, s, User(command, answer))) && Holds(Step(c, s, User(command, answer)), o)
  {
    hide CommandStep, DropStep, StartAbort, ExternalStep, Continue, Count, HandlersOk, OwnOk, Tidy, Holds, SparesEntry,
      KeepsStore, KeepsSegment, SamePlace, SameButIndex, StartsNoSettings, StartsOnlyItem;
    var l := User(command, answer);
    StepCounts(c, s, l, Working);
    StepCounts(c, s, l, Resuming);
    match s.control.Top()
    case Client(run) =>
      assert Tidy(Step(c, s, l)) && Holds(Step(c, s, l), o) by {
        hide Count, HandlersOk, CommandStep, StoreOf, OwnOk, Holds, Tidy, Held, Released, Aside, SparesEntry;
        if run >= |s.control.runs| {
          NoSuchRun(c, s, run, command, answer);
        } else if command.Return? {
          ReturnPops(c, s, run, answer);
          PopsHolds(c, s, o);
        } else if StoresOrDrops(command) {
          StoringControl(c, s, run, command, answer);
          if Step(c, s, l) != s {
            StoringHolds(s, Step(c, s, l), command, o);
          }
        } else {
          CommandAside(c, s, Step(c, s, l), run, command, answer);
          AsideHolds(s, Step(c, s, l), |s.control.stack|, o);
        }
      }
    case ActivatedHook =>
      if command.Return? {
        PopsHolds(c, s, o);
      }
    case CleanupHooks =>
      match command {
        case Return => PopsHolds(c, s, o);
        case DropState(id) => DropHolds(s, id, o);
        case _ =>
      }
    case _ =>
  }

  lemma EventHolds(c: Setup, s: State, event: Event, answer: Answer, o: TrajectoryOptions)
    requires Sound(c, s) && Tidy(s) && Holds(s, o) && Undisturbed(c, s, External(event, answer))
    requires s.control.stack == []
    ensures Tidy(Step(c, s, External(event, answer)))
    ensures Holds(Step(c, s, External(event, answer)), Intended(s, External(event, answer), o))
  {
    hide Step, ExternalStep, Count, HandlersOk, OwnOk, Tidy, Holds, MissionDone, Leave;
    var l := External(event, answer);
    EventStep(c, s, event, answer);
    EntryEvents(c, s, answer);
    if event.Activate? {
      if !s.active {
        ActivateHolds(c, s, o);
      }
    } else if event.Deactivate? {
      if s.active {
        DeactivateHolds(c, s, o);
      }
    } else {
      StepCounts(c, s, l, Working);
      StepCounts(c, s, l, Resuming);
      assert Tidy(ExternalStep(c, s, event, answer)) && Holds(ExternalStep(c, s, event, answer), o) by {
        hide Count, HandlersOk, ExternalStep, StoreOf, Holds, Replaces, Tidy;
        ValidHandler(c, s.control);
        EventControl(c, s, event, answer);
        EventMission(c, s, event, answer);
        IdleReplaces(s.control, ExternalStep(c, s, event, answer).control);
        AsideHolds(s, ExternalStep(c, s, event, answer), 0, o);
      }
    }
  }

  lemma StepHolds(c: Setup, s: State, l: Label, o: TrajectoryOptions)
    requires SettingsSetup(c) && Sound(c, s) && Tidy(s) && Holds(s, o) && Undisturbed(c, s, l) && Spares(s, l)
    ensures Tidy(Step(c, s, l)) && Holds(Step(c, s, l), Intended(s, l, o))
  {
    hide Step, Undisturbed, Sound, Tidy, Holds, SettingsSetup, MissionDone, Leave, Asked, SparesEntry;
    match l
    case Internal(answer) =>
      if s.control.stack == [] {
        UnfitStep(c, s, l);
      } else {
        InternalHolds(c, s, answer, o);
      }
    case User(command, answer) =>
      if s.control.stack == [] {
        UnfitStep(c, s, l);
      } else {
        UserHolds(c, s, command, answer, o);
      }
    case External(event, answer) =>
      if s.control.stack == [] {
        EventHolds(c, s, event, answer, o);
      } else {
        UnfitStep(c, s, l);
      }
  }

  /** The settings asked for over a run. */
  function IntendedOver(c: Setup, s: State, ls: seq<Label>, o: TrajectoryOptions): TrajectoryOptions {
    if ls == [] then o
    else
      var before := ls[..|ls| - 1];
      Intended(Steps(c, s, before), ls[|ls| - 1], IntendedOver(c, s, before, o))
  }

  ghost predicate UndisturbedRun(c: Setup, s: State, ls: seq<Label>) {
    ls == [] || (UndisturbedRun(c, s, ls[..|ls| - 1]) && Undisturbed(c, Steps(c, s, ls[..|ls| - 1]), ls[|ls| - 1]))
  }

  ghost predicate SparesRun(c: Setup, s: State, ls: seq<Label>) {
    ls == [] || (SparesRun(c, s, ls[..|ls| - 1]) && Spares(Steps(c, s, ls[..|ls| - 1]), ls[|ls| - 1]))
  }

  lemma {:induction false} RunHolds(c: Setup, s: State, ls: seq<Label>, o: TrajectoryOptions)
    requires SettingsSetup(c) && Sound(c, s) && Tidy(s) && Holds(s, o)
    requires UndisturbedRun(c, s, ls) && SparesRun(c, s, ls)
    ensures var t := Steps(c, s, ls); Sound(c, t) && Tidy(t) && Holds(t, IntendedOver(c, s, ls, o))
  {
    hide Sound, Tidy, Holds, Step, SettingsSetup, Intended, Spares;
    if ls != [] {
      var t, l := Steps(c, s, ls[..|ls| - 1]), ls[|ls| - 1];
      RunHolds(c, s, ls[..|ls| - 1], o);
      StepHolds(c, t, l, IntendedOver(c, s, ls[..|ls| - 1], o));
      assert l.External? ==> !l.event.SetMission?;
      StepSound(c, t, l);
    }
  }

  /** Where nothing is loaded, ids are in order and an entry that is added replaces none. */
  lemma {:induction false} FreshSpares(c: Setup, s: State, ls: seq<Label>)
    requires IdsOk(StoreOf(s)) && UndisturbedRun(c, s, ls)
    ensures SparesRun(c, s, ls) && NeverLoads(c, s, ls)
  {
    hide Step, IdsOk, Intended, Checksum, DecodeState;
    if ls != [] {
      var before, l := ls[..|ls| - 1], ls[|ls| - 1];
      FreshSpares(c, s, before);
      IdsHold(c, s, before);
      OrderSpares(Steps(c, s, before), l);
      assert l.External? ==> !l.event.SetMission?;
    }
  }

  lemma OrderSpares(s: State, l: Label)
    requires IdsOk(StoreOf(s))
    ensures Spares(s, l)
  {
  }

  /** The first mission of an executor starts with the settings that the file has for it, if it has any. */
  lemma SetMissionHolds(c: Setup, file: Option<Json>, m: Mission, o: TrajectoryOptions)
    requires var s := Started(c, file, m); Waits(StoreOf(s), m.defaults, o) && Covers(m.defaults, o)
    ensures var s := Started(c, file, m); Sound(c, s) && Tidy(s) && Holds(s, o)
  {
    hide Placed, Step, Sound, Tidy, Holds, Waits, Covers, Checksum, DecodeState;
    var s0, l := Initial(file), External(SetMission(m), Accepted);
    InitialPlaced(c, file);
    StepPlaced(c, s0, l);
    FirstStep(c, file, m);
    FirstHolds(c, Step(c, s0, l), m, o);
  }

  /** A new executor whose first mission has been set. */
  function Started(c: Setup, file: Option<Json>, m: Mission): State {
    Step(c, Initial(file), External(SetMission(m), Accepted))
  }

  lemma FirstStep(c: Setup, file: Option<Json>, m: Mission)
    ensures var s := Started(c, file, m);
      && s.control == NoControl && !s.active && !s.crashed && s.mission == m
      && StoreOf(s) == Store(false, s.persistent.continuousActions, 0, None, map[], NoOptions)
      && (LoadedState(c, file, m).None? ==> s.persistent.continuousActions == map[])
      && (s.persistent.currentIndex.None? ==> LoadedState(c, file, m).None?)
  {
    hide Checksum, Feasible, DecodeState;
  }

  lemma FirstHolds(c: Setup, s: State, m: Mission, o: TrajectoryOptions)
    requires Placed(c, s) && s.control == NoControl && !s.active && !s.crashed && s.mission == m
    requires StoreOf(s) == Store(false, s.persistent.continuousActions, 0, None, map[], NoOptions)
    requires Waits(StoreOf(s), m.defaults, o) && Covers(m.defaults, o)
    ensures Sound(c, s) && Tidy(s) && Holds(s, o)
  {
    hide Placed, Waits, Covers;
  }

  /** What a caller sees of the settings `o`: they are in force, and stored once unless they are the defaults. */
  ghost predicate InForce(s: State, o: TrajectoryOptions) {
    && s.options == o
    && ((NoEntry(s.persistent.continuousActions) && o == s.mission.defaults)
        || exists id: nat :: EntryAt(s.persistent.continuousActions, id, o))
  }

  /** Whenever an item starts, or is at work while the executor is idle, the settings `o` are in force; while the
      executor is inactive they wait in the stored actions, and once a deactivation is over no token of theirs is held,
      that could outlive a load. */
  ghost predicate Survive(s: State, o: TrajectoryOptions) {
    && (s.control.stack != [] && s.control.Top().StartItem? ==> InForce(s, o))
    && (s.active && s.control.stack == [] && Count(s.control, Working) > 0 ==> InForce(s, o))
    && (!s.active ==> Waits(StoreOf(s), s.mission.defaults, o))
    && (!s.active && s.control.stack == [] ==> s.settingsKeeper.None?)
  }

  lemma HoldsSurvive(c: Setup, s: State, o: TrajectoryOptions)
    requires Placed(c, s) && Holds(s, o)
    ensures Survive(s, o)
  {
    hide Placed, Count, SettingsEntry;
    if s.control.stack != [] && s.control.Top().StartItem? {
      OnlyLive(c, s, o);
    }
    if !s.active {
      InactiveSuspended(s, o);
    }
  }

  /** From any file, over any run that leaves the settings alone: the settings of the file, and those that the items ask
      for since, survive, unless client code stores an action under the number of their entry before it has been
      restored. */
  lemma SettingsSurviveLoading(c: Setup, file: Option<Json>, m: Mission, o: TrajectoryOptions, ls: seq<Label>)
    requires SettingsSetup(c)
    requires Waits(StoreOf(Started(c, file, m)), m.defaults, o) && Covers(m.defaults, o)
    requires UndisturbedRun(c, Started(c, file, m), ls) && SparesRun(c, Started(c, file, m), ls)
    ensures Survive(Steps(c, Started(c, file, m), ls), IntendedOver(c, Started(c, file, m), ls, o))
  {
    hide Step, Steps, Started, IntendedOver, Intended, UndisturbedRun, SparesRun, SettingsSetup, Placed, Holds, Waits,
      Survive, OwnOk;
    var s := Started(c, file, m);
    SetMissionHolds(c, file, m, o);
    RunHolds(c, s, ls, o);
    HoldsSurvive(c, Steps(c, s, ls), IntendedOver(c, s, ls, o));
  }

  /** An action that replaces their entry loses them. */
  lemma ReplacedSettingsAreLost(s: State, a: ActionState, o: TrajectoryOptions)
    requires EntryAt(s.persistent.continuousActions, s.nextActionId, o) && a.name != "changeSettings"
    ensures NoEntry(AddContinuousAction(s, a).persistent.continuousActions)
  {
    hide EncodeOptions;
    var actions, after := s.persistent.continuousActions, AddContinuousAction(s, a).persistent.continuousActions;
    assert forall id :: id in after && id != s.nextActionId ==> id in actions - {s.nextActionId};
  }

  /** Over any run without aborts, new missions or client interference, however often it is interrupted and resumed:
      whenever an item starts, or is at work while the executor is idle, the settings in force are exactly those
      that the items have asked for; and while the executor is inactive they wait in the stored actions. */
  lemma SettingsSurviveInterruptions(c: Setup, file: Option<Json>, m: Mission, ls: seq<Label>)
    requires SettingsSetup(c) && LoadedState(c, file, m).None?
    requires UndisturbedRun(c, Started(c, file, m), ls)
    ensures Survive(Steps(c, Started(c, file, m), ls), IntendedOver(c, Started(c, file, m), ls, m.defaults))
  {
    hide Step, Steps, Started, IntendedOver, Intended, UndisturbedRun, LoadedState, SettingsSetup, Survive, Waits;
    FirstStep(c, file, m);
    NoneWaits(StoreOf(Started(c, file, m)), m.defaults);
    FreshSpares(c, Started(c, file, m), ls);
    SettingsSurviveLoading(c, file, m, m.defaults, ls);
  }
}
