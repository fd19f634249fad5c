/** What each command of client code does, and what client code can do while it is told about an activation or a
    deactivation: every statement is about the step of the whole machine, in terms of the state alone. */
module MissionCommands {
  import opened Wrappers
  import opened JsonValues
  import opened Missions
  import opened PersistentStates
  import opened MissionTypes
  import opened MissionSteps
  import opened MissionEffects

  /** A call is pushed on the stack. */
  function Calling(s: State, f: Frame): State {
    s.(control := s.control.(stack := s.control.stack + [f]))
  }

  /** The handler of a run that is in control, while it may still be used. */
  predicate InControl(s: State, run: nat) {
    && !s.crashed && s.control.Top() == Client(run) && run < |s.control.runs|
    && s.control.IsValid(s.control.runs[run].handler)
  }

  /** A mode is requested with callbacks into the run. */
  lemma ModeIsRequested(c: Setup, s: State, run: nat, mode: nat, handlesFailure: bool, answer: Answer)
    requires InControl(s, run)
    ensures var code := UserCode(s.control.runs[run].handler, run);
      Step(c, s, User(RunMode(mode, handlesFailure), answer))
      == if s.active then Asked(s, Asking(mode, code, if handlesFailure then Some(code) else None, []), answer) else s
  {
    hide Step, RunModeStep, Asked, SamePlace, SameButIndex, KeepsStore, KeepsSegment, StartsNoSettings;
    var code := UserCode(s.control.runs[run].handler, run);
    ClientStep(c, s, run, RunMode(mode, handlesFailure), answer);
    assert s.control.stack + [] == s.control.stack;
    if s.active {
      RequestAsks(s, Asking(mode, code, if handlesFailure then Some(code) else None, []), answer);
    } else {
      InactiveAsks(s, mode, code, if handlesFailure then Some(code) else None, answer);
    }
  }

  /** An action is run; one that is not known aborts the mission. */
  lemma ActionIsRun(c: Setup, s: State, run: nat, name: string, arguments: Json, answer: Answer)
    requires InControl(s, run)
    ensures var u := s.(itemState := Other);
      Step(c, s, User(RunAction(name, arguments), answer))
      == if !s.active then s
         else if name in c.actions then Calling(u, Perform(name, arguments, UserCode(s.control.runs[run].handler, run)))
         else Aborting(u, "actionDoesNotExist")
  {
    hide Step, StartAbort, Aborting, SamePlace, SameButIndex, KeepsStore, KeepsSegment, StartsNoSettings;
    ClientStep(c, s, run, RunAction(name, arguments), answer);
    AbortAborts(s.(itemState := Other), "actionDoesNotExist");
  }

  /** Waypoints are flown to; nothing to fly completes at once, and an action among them aborts the mission. */
  lemma TrajectoryIsFlown(c: Setup, s: State, run: nat, items: seq<MissionItem>, stop: bool, answer: Answer)
    requires InControl(s, run)
    ensures var t, code := Step(c, s, User(RunTrajectory(items, stop), answer)),
      UserCode(s.control.runs[run].handler, run);
      var flight := Flight(items, s.options, |items| - 1, stop, CustomStep(code, |items| - 1), Some(0));
      if items == [] then t == Calling(s, Invoke(code))
      else if forall i :: 0 <= i < |items| ==> items[i].NavigationItem? then
        t == if s.active then Flies(c, s, flight, answer) else s
      else t == Aborting(s, "trajectoryFailure")
  {
    hide Step, RunTrajectoryStep, Flies, StartAbort, Aborting, SamePlace, SameButIndex, KeepsStore, KeepsSegment,
      StartsNoSettings;
    ClientStep(c, s, run, RunTrajectory(items, stop), answer);
    AbortAborts(s, "trajectoryFailure");
    var report := CustomStep(UserCode(s.control.runs[run].handler, run), |items| - 1);
    if s.active {
      TrajectoryFlies(c, s, items, 0, |items| - 1, report, stop, answer);
    } else {
      InactiveFlies(c, s, items, 0, |items| - 1, report, stop, answer);
    }
  }

  /** The options are cleared to the defaults of the mission, or those that are given are set. */
  lemma OptionsAreSet(c: Setup, s: State, run: nat, o: TrajectoryOptions, answer: Answer)
    requires InControl(s, run)
    ensures Step(c, s, User(ClearOptions, answer)) == s.(options := s.mission.defaults)
    ensures var t := Step(c, s, User(SetOptions(o), answer));
      && t == s.(options := t.options)
      && t.options.horizontalVelocity
      == (if o.horizontalVelocity == None then s.options.horizontalVelocity else o.horizontalVelocity)
      && t.options.verticalVelocity
      == (if o.verticalVelocity == None then s.options.verticalVelocity else o.verticalVelocity)
      && t.options.maxHeadingRate == (if o.maxHeadingRate == None then s.options.maxHeadingRate else o.maxHeadingRate)
  {
    hide Step, SamePlace, SameButIndex, KeepsSegment;
    ClientStep(c, s, run, ClearOptions, answer);
    ClientStep(c, s, run, SetOptions(o), answer);
  }

  /** A stored entry gets the next id, and the client holds its token. */
  lemma StateIsStored(c: Setup, s: State, run: nat, name: string, arguments: Json, answer: Answer)
    requires InControl(s, run)
    ensures var p, a, id := s.persistent, ActionState(name, arguments), s.nextActionId;
      Step(c, s, User(StoreState(name, arguments), answer))
      == s.(persistent := p.(continuousActions := p.continuousActions[id := a]), nextActionId := id + 1,
            clientKeepers := s.clientKeepers[id := a])
  {
    hide Step, SamePlace, SameButIndex, KeepsSegment, StoreOf;
    ClientStep(c, s, run, StoreState(name, arguments), answer);
  }

  /** A token that is let go takes its entry with it while the executor is active. */
  function WithoutToken(s: State, id: nat): State {
    var p := s.persistent;
    if id !in s.clientKeepers then s
    else s.(clientKeepers := s.clientKeepers - {id},
            persistent := if s.active then p.(continuousActions := p.continuousActions - {id}) else p)
  }

  lemma DropLetsGo(s: State, id: nat)
    ensures DropStep(s, id) == WithoutToken(s, id)
  {
    hide SamePlace, StoreOf;
  }

  /** What client code can do under any handler: set the index to one of the mission's, let go of a token, call the
      completion of its run once, and return; it cannot abort from within a run. */
  lemma RunGoesOn(c: Setup, s: State, run: nat, index: int, id: nat, answer: Answer)
    requires !s.crashed && s.control.Top() == Client(run) && run < |s.control.runs|
    ensures Step(c, s, User(SetIndex(index), answer)) == if 0 <= index < |s.mission.items| then
      WithIndex(s, index) else s
    ensures Step(c, s, User(DropState(id), answer)) == WithoutToken(s, id)
    ensures Step(c, s, User(Complete, answer))
         == if run in s.control.completedRuns then s
            else Calling(s.(control := s.control.(completedRuns := s.control.completedRuns + {run})),
                         Invoke(s.control.runs[run].done))
    ensures Step(c, s, User(Abort, answer)) == s
    ensures Step(c, s, User(Return, answer)) == Goes(s, [])
  {
    hide Step, DropStep, SamePlace, SameButIndex, KeepsStore, KeepsSegment, StartsNoSettings, StoreOf;
    ClientStep(c, s, run, SetIndex(index), answer);
    ClientStep(c, s, run, DropState(id), answer);
    DropLetsGo(s, id);
    ClientStep(c, s, run, Complete, answer);
    ClientStep(c, s, run, Abort, answer);
    ClientStep(c, s, run, Return, answer);
    GoesPopped(s);
  }

  /** Under a handler that is not valid any more nothing can be started, set or stored. */
  lemma NothingIsStarted(c: Setup, s: State, run: nat, command: Command, answer: Answer)
    requires !s.crashed && s.control.Top() == Client(run) && run < |s.control.runs| && !InControl(s, run)
    requires !command.SetIndex? && !command.DropState? && !command.Complete? && !command.Return?
    ensures Step(c, s, User(command, answer)) == s
  {
    hide Step, SamePlace, SameButIndex, KeepsStore, KeepsSegment, StartsNoSettings, StoreOf;
    ClientStep(c, s, run, command, answer);
  }

  /** While the client is told about an activation it may abort the mission; while it is told about the end of its
      actions it may let go of its tokens. Nothing else has an effect until it returns. */
  lemma HooksAreLimited(c: Setup, s: State, command: Command, answer: Answer)
    requires !s.crashed && InClient(s.control.Top()) && !s.control.Top().Client?
    ensures Step(c, s, User(command, answer))
         == match command
            case Return => Goes(s, [])
            case Abort => if s.control.Top() == ActivatedHook && s.active then Aborting(s, "other") else s
            case DropState(id) => if s.control.Top() == CleanupHooks then WithoutToken(s, id) else s
            case _ => s
  {
    hide ExternalStep, CommandStep, StartAbort, DropStep, Continue, KeepsStore, KeepsSegment, SamePlace, SameButIndex,
      StartsNoSettings, StartsOnlyItem, Aborting, WithoutToken;
    GoesPopped(s);
    AbortAborts(s, "other");
    if command.DropState? {
      DropLetsGo(s, command.id);
    }
  }
}
