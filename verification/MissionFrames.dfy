/** What each call of the executor does when its turn comes: a callback, an item, an action, an abort, a restoration,
    and what is left of a mode switch or a deactivation. Every statement is about the step of the whole machine, in
    terms of the state alone. */
module MissionFrames {
  import opened Wrappers
  import opened JsonValues
  import opened OrderedMaps
  import opened PersistentStates
  import opened Segments
  import opened MissionTypes
  import opened MissionSteps
  import opened MissionEffects

  // ---- Callbacks ----

  /** The completion of an item moves on to the next one, and to the first one without an index; under a handler that
      is not valid any more it does nothing. */
  lemma ItemCompletes(c: Setup, s: State, h: nat, answer: Answer)
    requires !s.crashed && s.control.Top() == Invoke(ItemDone(h))
    ensures Step(c, s, Internal(answer))
         == if s.control.IsValid(h)
            then WithIndex(Goes(s, [StartItem(false, s.control.handler)]),
                           match s.persistent.currentIndex case None => 0 case Some(i) => i + 1)
            else Goes(s, [])
  {
    hide Step, SamePlace, SameButIndex, KeepsStore, KeepsSegment, StartsNoSettings;
    InvokeFrame(c, s, ItemDone(h), answer);
    GoesPopped(s);
    GoesPushed(s, StartItem(false, s.control.handler));
  }

  /** The completion of a resumption restores all stored actions and then starts the item as a resumed one; if the
      resumption has moved the index, the stored actions are dropped and the new item starts. */
  lemma ResumptionCompletes(c: Setup, s: State, h: nat, previous: Option<int>, answer: Answer)
    requires !s.crashed && s.control.Top() == Invoke(ResumeDone(h, previous))
    ensures var actions := s.persistent.continuousActions;
      Step(c, s, Internal(answer))
      == if !s.control.IsValid(h) then Goes(s, [])
         else (if previous == s.persistent.currentIndex
               then Goes(s, [StartItem(true, h), Restore(Values(actions), s.control.handler)])
               else Goes(s, [StartItem(false, h)])).(persistent := s.persistent.(continuousActions := map[]))
  {
    hide Step, Values, SamePlace, SameButIndex, KeepsStore, KeepsSegment, StartsNoSettings;
    InvokeFrame(c, s, ResumeDone(h, previous), answer);
    GoesPopped(s);
    assert Below(s) + [StartItem(true, h)] + [Restore(Values(s.persistent.continuousActions), s.control.handler)]
        == Below(s) + [StartItem(true, h), Restore(Values(s.persistent.continuousActions), s.control.handler)];
  }

  /** A callback into client code gives it control; one that does nothing does nothing. */
  lemma CodeIsCalled(c: Setup, s: State, h: nat, run: nat, answer: Answer)
    requires !s.crashed
    ensures s.control.Top() == Invoke(UserCode(h, run)) ==> Step(c, s, Internal(answer)) == Goes(s, [Client(run)])
    ensures s.control.Top() == Invoke(Nop) ==> Step(c, s, Internal(answer)) == Goes(s, [])
  {
    hide Step, InvokeStep;
    if s.control.Top() == Invoke(UserCode(h, run)) {
      InvokeFrame(c, s, UserCode(h, run), answer);
      CodeInvoked(c, Popped(s), h, run, answer);
      GoesPushed(s, Client(run));
    } else if s.control.Top() == Invoke(Nop) {
      InvokeFrame(c, s, Nop, answer);
      CodeInvoked(c, Popped(s), h, run, answer);
      GoesPopped(s);
    }
  }

  lemma CodeInvoked(c: Setup, s: State, h: nat, run: nat, answer: Answer)
    ensures InvokeStep(c, s, UserCode(h, run), answer) == s.Push(Client(run)) && InvokeStep(c, s, Nop, answer) == s
  {
    hide SamePlace, SameButIndex, KeepsStore, KeepsSegment, StartsNoSettings;
  }

  // ---- Items ----

  /** How an item that is an action gets its arguments: a resumed one is told so. */
  function ItemArguments(arguments: Json, resuming: bool): Option<Json> {
    if !resuming then Some(arguments)
    else match arguments
      case Null => Some(Obj(map["internal:resuming" := Bool(true)]))
      case Obj(members) => Some(Obj(members["internal:resuming" := Bool(true)]))
      case _ => None
  }

  /** An action that is an item runs with its arguments, to be completed under the current handler; it aborts the
      mission if it is not known, and throws if its arguments cannot be told. */
  lemma ActionItemStarts(c: Setup, s: State, resuming: bool, h: nat, answer: Answer, i: nat)
    requires !s.crashed && s.control.Top() == StartItem(resuming, h)
    requires s.persistent.currentIndex == Some(i) && i < |s.mission.items| && s.mission.items[i].ActionItem?
    ensures var item := s.mission.items[i];
      Step(c, s, Internal(answer))
      == match ItemArguments(item.arguments, resuming)
         case None => Goes(s, []).(crashed := true)
         case Some(arguments) =>
           if !s.active then Goes(s, [])
           else if item.name !in c.actions then Aborting(Goes(s, []).(itemState := Other), "actionDoesNotExist")
           else Goes(s, [Perform(item.name, arguments, ItemDone(s.control.handler))]).(itemState := Other)
  {
    hide Step, StartAbort, Aborting, SamePlace, SameButIndex, KeepsStore, KeepsSegment, StartsNoSettings,
      StartsOnlyItem;
    StartFrame(c, s, resuming, h, answer);
    GoesPopped(s);
    AbortAborts(Goes(s, []).(itemState := Other), "actionDoesNotExist");
  }

  /** A waypoint is flown to with all that follow it, up to the next action. */
  lemma WaypointItemStarts(c: Setup, s: State, resuming: bool, h: nat, answer: Answer, i: nat)
    requires !s.crashed && s.control.Top() == StartItem(resuming, h)
    requires s.persistent.currentIndex == Some(i) && i < |s.mission.items| && s.mission.items[i].NavigationItem?
    ensures var items, u := s.mission.items, Goes(s, []);
      var end := SegmentEnd(items, i);
      var flight := Flight(items, s.options, end, SegmentStop(c, items, end), SegmentStep(s.control.handler, end),
                           Some(i));
      Step(c, s, Internal(answer))
      == if !s.active then u else Flies(c, u.(segments := s.segments + [(i, end)]), flight, answer)
  {
    hide Step, RunTrajectoryStep, Flies, SegmentEnd, SegmentStop, SamePlace, SameButIndex, KeepsStore, KeepsSegment,
      StartsNoSettings, StartsOnlyItem;
    StartFrame(c, s, resuming, h, answer);
    GoesPopped(s);
    var items := s.mission.items;
    var end := SegmentEnd(items, i);
    var u := Goes(s, []).(segments := s.segments + [(i, end)]);
    if s.active {
      TrajectoryFlies(c, u, items, i, end, SegmentStep(s.control.handler, end), SegmentStop(c, items, end), answer);
    } else {
      InactiveFlies(c, Goes(s, []), items, i, end, SegmentStep(s.control.handler, end), SegmentStop(c, items, end),
                    answer);
    }
  }

  // ---- Actions ----

  /** A custom action hands control to the client, with the current handler and the completion to call; an action that
      is not known does nothing. */
  lemma CustomActionRuns(c: Setup, s: State, name: string, arguments: Json, done: Closure, answer: Answer)
    requires !s.crashed && s.control.Top() == Perform(name, arguments, done)
    ensures name !in c.actions ==> Step(c, s, Internal(answer)) == Goes(s, [])
    ensures name in c.actions && c.actions[name].Custom? ==>
      var u := Goes(s, [Client(|s.control.runs|)]);
      Step(c, s, Internal(answer))
      == u.(control := u.control.(runs := s.control.runs + [Run(s.control.handler, done)]))
  {
    hide Step, SamePlace, SameButIndex, KeepsStore, KeepsSegment, StartsNoSettings;
    PerformFrame(c, s, name, arguments, done, answer);
    GoesPopped(s);
    GoesPushed(s, Client(|s.control.runs|));
  }

  /** The resume action needs a string that says what to do, and does nothing but for "resume"; without an index, at
      the first item, and in the air it goes on at once. */
  lemma ResumeActionRuns(c: Setup, s: State, name: string, arguments: Json, done: Closure, answer: Answer)
    requires !s.crashed && s.control.Top() == Perform(name, arguments, done)
    requires name in c.actions && c.actions[name].OnResume?
    ensures var t := Step(c, s, Internal(answer));
      match arguments
      case Obj(members) =>
        if "action" !in members || !members["action"].Str? then t == Goes(s, []).(crashed := true)
        else if members["action"] != Str("resume") then t == Goes(s, [])
        else (s.persistent.currentIndex == None || s.persistent.currentIndex == Some(0) || !s.landed ==>
                t == Goes(s, [Invoke(done)]))
      case _ => t == Goes(s, []).(crashed := true)
  {
    hide Step, ResumeFromUnexpectedLanding, CurrentSupportsResumeFromLanded, SamePlace, SameButIndex, KeepsStore,
      KeepsSegment, StartsNoSettings;
    PerformFrame(c, s, name, arguments, done, answer);
    GoesPopped(s);
    GoesPushed(s, Invoke(done));
  }

  // ---- Activation and restoration ----

  /** After the client's activation callback: nothing, if it has aborted; from the beginning, or without a resume
      action, all stored actions are restored and then the item starts, as a resumed one unless this is the beginning.
      */
  lemma ActivationGoesOn(c: Setup, s: State, h: nat, fromBeginning: bool, answer: Answer)
    requires !s.crashed && s.control.Top() == Activated(h, fromBeginning)
    requires !s.control.IsValid(h) || fromBeginning || "onResume" !in c.actions
    ensures var actions := s.persistent.continuousActions;
      Step(c, s, Internal(answer))
      == if !s.control.IsValid(h) then Goes(s, [])
         else Goes(s, [StartItem(!fromBeginning, h), Restore(Values(actions), s.control.handler)])
              .(persistent := s.persistent.(continuousActions := map[]))
  {
    hide Step, StartResume, TakeResumeEntry, Values, SamePlace, SameButIndex, KeepsStore, KeepsSegment,
      StartsNoSettings;
    ActivatedFrame(c, s, h, fromBeginning, answer);
    GoesPopped(s);
    assert Below(s) + [StartItem(!fromBeginning, h)] +
      [Restore(Values(s.persistent.continuousActions), s.control.handler)]
        == Below(s) + [StartItem(!fromBeginning, h),
          Restore(Values(s.persistent.continuousActions), s.control.handler)];
  }

  /** The first stored entry of the resume action, in the order of the ids. */
  ghost predicate FirstResume(actions: map<nat, ActionState>, entry: Option<nat>) {
    match entry
    case None => forall id :: id in actions ==> actions[id].name != "onResume"
    case Some(id) =>
      && id in actions && actions[id].name == "onResume"
      && forall other :: other in actions && other < id ==> actions[other].name != "onResume"
  }

  lemma {:induction false} ResumeEntryIsFirst(actions: map<nat, ActionState>, keys: seq<nat>)
    requires (forall k :: k in keys ==> k in actions) && Ascending(keys)
    ensures var r := ResumeEntry(actions, keys);
      match r
      case None => forall k :: k in keys ==> actions[k].name != "onResume"
      case Some(id) =>
        && id in keys && actions[id].name == "onResume"
        && forall k :: k in keys && k < id ==> actions[k].name != "onResume"
  {
    if keys != [] && actions[keys[0]].name != "onResume" {
      ResumeEntryIsFirst(actions, keys[1..]);
    }
  }

  /** Later activations run the resume action: with the arguments that it stored first, if any, whose entry is taken
      out, and with the request to resume put into them. It is completed as a resumption from the present index. */
  lemma ActivationResumes(c: Setup, s: State, h: nat, entry: Option<nat>, answer: Answer)
    requires !s.crashed && s.control.Top() == Activated(h, false)
    requires s.active && s.control.IsValid(h) && "onResume" in c.actions
    requires FirstResume(s.persistent.continuousActions, entry)
    ensures var actions := s.persistent.continuousActions;
      var u := s.(persistent := s.persistent.(continuousActions :=
                                                match entry case None => actions case Some(id) => actions - {id}));
      var done := ResumeDone(s.control.handler, s.persistent.currentIndex);
      Step(c, s, Internal(answer))
      == match (match entry case None => Null case Some(id) => actions[id].arguments)
         case Null => Goes(u, [Perform("onResume", Obj(map["action" := Str("resume")]), done)]).(itemState := Other)
         case Obj(members) =>
           Goes(u, [Perform("onResume", Obj(members["action" := Str("resume")]), done)]).(itemState := Other)
         case _ => Goes(u, []).(crashed := true)
  {
    hide Step, Ascending, SortedKeys, RunStoredActions, SamePlace, SameButIndex, KeepsStore, KeepsSegment,
      StartsNoSettings,
      StoreOf;
    ActivatedFrame(c, s, h, false, answer);
    GoesPopped(s);
    StoredResumeIs(s, entry);
    assert StoredResume(Popped(s)) == entry;
  }

  lemma StoredResumeIs(s: State, entry: Option<nat>)
    requires FirstResume(s.persistent.continuousActions, entry)
    ensures StoredResume(s) == entry
  {
    var actions := s.persistent.continuousActions;
    ResumeEntryIsFirst(actions, SortedKeys(actions.Keys));
    hide SortedKeys, Ascending, StoreOf;
  }

  /** One round of the restoration: the next stored action is performed, unless it is not known or is the resume
      action; its completion matters to nobody. */
  lemma RestorationGoesOn(c: Setup, s: State, rest: seq<ActionState>, h: nat, answer: Answer)
    requires !s.crashed && s.control.Top() == Restore(rest, h)
    ensures Step(c, s, Internal(answer))
         == if rest == [] then Goes(s, [])
            else if rest[0].name in c.actions && rest[0].name != "onResume"
            then Goes(s, [Restore(rest[1..], h), Perform(rest[0].name, rest[0].arguments, Nop)])
            else Goes(s, [Restore(rest[1..], h)])
  {
    hide Step, SamePlace, SameButIndex, KeepsStore, KeepsSegment, StartsNoSettings;
    RestoreFrame(c, s, rest, h, answer);
    GoesPopped(s);
    if rest != [] {
      GoesPushed(s, Restore(rest[1..], h));
      assert Below(s) + [Restore(rest[1..], h)] + [Perform(rest[0].name, rest[0].arguments, Nop)]
          == Below(s) + [Restore(rest[1..], h), Perform(rest[0].name, rest[0].arguments, Nop)];
    }
  }

  // ---- Aborts ----

  /** What the failure action is told: how deep aborts are nested, why, and at which index. */
  function FailureTold(s: State, reason: string): Json {
    var fields := map["recursionLevel" := Int(s.control.abortLevel + 1), "reason" := Str(reason)];
    match s.persistent.currentIndex
    case None => Obj(fields)
    case Some(i) => Obj(fields + map["currentIndex" := Int(i)])
  }

  /** An abort runs the failure action one level deeper, if there is one; while inactive it only passes. */
  lemma AbortRunsFailureAction(c: Setup, s: State, reason: string, answer: Answer)
    requires !s.crashed && s.control.Top() == AbortMain(reason)
    ensures var k := s.control;
      var runs := if k.abortLevel == 0 then 0 else k.failureRuns;
      var u := Goes(s, [AbortEnd, Perform("onFailure", FailureTold(s, reason), Nop)]);
      var v := Goes(s, [AbortEnd]);
      Step(c, s, Internal(answer))
      == if "onFailure" !in c.actions then Goes(s, [])
         else if !s.active then v.(control := v.control.(abortLevel := k.abortLevel + 1, failureRuns := runs))
         else u.(itemState := Other,
                 control := u.control.(abortLevel := k.abortLevel + 1, failureRuns := runs + 1))
  {
    hide Step, SamePlace, SameButIndex, KeepsStore, KeepsSegment, StartsNoSettings;
    AbortFrame(c, s, reason, answer);
    GoesPopped(s);
    FailureIsTold(EnterAbort(Popped(s)), s, reason);
    assert Below(s) + [AbortEnd] + [Perform("onFailure", FailureTold(s, reason), Nop)]
        == Below(s) + [AbortEnd, Perform("onFailure", FailureTold(s, reason), Nop)];
  }

  lemma FailureIsTold(t: State, s: State, reason: string)
    requires t.control.abortLevel == s.control.abortLevel + 1 && t.persistent == s.persistent
    ensures FailureArguments(t, reason) == FailureTold(s, reason)
  {
  }

  // ---- What is left of a call ----

  /** The state is saved with an index of the mission; with any other one the file is removed. */
  function FileSaved(s: State): Option<Json> {
    match s.persistent.currentIndex
    case None => None
    case Some(i) => if 0 <= i < |s.mission.items| then Some(EncodeState(s.persistent)) else None
  }

  /** When control comes back: the hold timer is armed, a trajectory is flown, an abort is one level less deep, the
      state is saved if the index is one of the mission's and removed if not, and a deactivation lets go of the
      settings and of the timer and then tells the client's actions. */
  lemma CallReturns(c: Setup, s: State, answer: Answer)
    requires !s.crashed && s.control.stack != []
    ensures var t, u := Step(c, s, Internal(answer)), Goes(s, []);
      match s.control.Top()
      case ArmTimer(done) => t == u.(control := u.control.(holdTimer := Some(done)))
      case EnterTrajectory => t == u.(itemState := Trajectory)
      case AbortEnd =>
        t == u.(control := u.control.(abortLevel := if s.control.abortLevel > 0 then s.control.abortLevel - 1 else 0))
      case SaveState =>
        t == if !c.persistent then u else u.(file := FileSaved(s))
      case Cleanup =>
        t == Released(Goes(s, [CleanupHooks]).(control := Goes(s, [CleanupHooks]).control.(holdTimer := None)))
      case _ => true
  {
    hide Step, CallStep, EncodeState, DeactivateDefaults, Released, SamePlace, SameButIndex, KeepsStore, KeepsSegment,
      StartsNoSettings, StoreOf;
    GoesPopped(s);
    if !Calls(s.control.Top()) && !InClient(s.control.Top()) {
      ReturnFrame(c, s, answer);
      DropReleases(Popped(s));
      ReleasedAside(Popped(s), Goes(s, [CleanupHooks]).control.(holdTimer := None));
      GoesPushed(s, CleanupHooks);
    }
  }
}
