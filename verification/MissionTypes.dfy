/** The state of the mission executor, with its closures and its call stack as data. */
module MissionTypes {
  import opened Wrappers
  import opened JsonValues
  import opened Missions
  import opened PersistentStates

  /** What is registered under an action name: a default action or the client's own. */
  datatype ActionKind =
    | Takeoff | Rtl | Land | Hold | OnFailure | OnResume | ChangeSettings
    | Custom(stopsAtWaypoint: Json -> bool, resumesFromLanded: bool)
  {
    predicate ShouldStopAtWaypoint(arguments: Json) {
      match this
      case Rtl => false
      case ChangeSettings => false
      case Custom(stops, _) => stops(arguments)
      case _ => true
    }
    predicate SupportsResumeFromLanded() {
      Custom? && resumesFromLanded
    }
  }

  /** What is fixed when the executor is constructed. */
  datatype Setup = Setup(
    actions: map<string, ActionKind>,
    ownMode: nat,
    persistent: bool,
    hash: Json -> string)

  const LOITER: nat := 4
  const RTL: nat := 5
  const DESCEND: nat := 12
  const TAKEOFF: nat := 17
  const LAND: nat := 18

  /** The callbacks that the executor and the default actions create. Each captures a handler; handlers are numbered
      in order of creation. */
  datatype Closure =
    | Nop
      /** Completion of a mission item: continue with the next one. */
    | ItemDone(handler: nat)
      /** Completion of the resume action: restore the stored actions and continue. */
    | ResumeDone(handler: nat, previous: Option<int>)
      /** Client code of one run of a custom action. */
    | UserCode(handler: nat, run: nat)
      /** Failure of the RTL mode in the default failure action. */
    | TryDescend(handler: nat, done: Closure)
      /** Completion of the takeoff in the default resume action. */
    | AfterTakeoff(handler: nat, done: Closure, at: int)

  /** One run of a custom action: the handler and the completion callback that it was given. */
  datatype Run = Run(handler: nat, done: Closure)

  /** The callbacks of a scheduled mode; without `onFailure` a failure aborts the mission. */
  datatype ModeCallback = ModeCallback(done: Closure, onFailure: Option<Closure>)

  /** What a trajectory reports to when it reaches an index. */
  datatype IndexCallback =
    | NoReport
    | SegmentStep(handler: nat, end: int)
    | CustomStep(done: Closure, end: int)

  /** The waypoint trajectory executor: what it flies and the index it is heading for. */
  datatype Flight = Flight(
    items: seq<MissionItem>,
    options: TrajectoryOptions,
    end: int,
    stopAtEnd: bool,
    report: IndexCallback,
    target: Option<int>)

  const NoFlight := Flight([], NoOptions, 0, false, NoReport, None)

  /** What remains to be executed, innermost last. */
  datatype Frame =
    | Invoke(c: Closure)                                          // call a callback
    | Perform(name: string, arguments: Json, done: Closure)       // `run` of a registered action
    | Client(run: nat)                                            // code of a custom action
    | ActivatedHook                                               // the client's activation callback
    | Activated(handler: nat, fromBeginning: bool)                // what follows it
    | Restore(rest: seq<ActionState>, handler: nat)               // the loop over the stored actions
    | StartItem(resuming: bool, handler: nat)                     // run the current mission item
    | ArmTimer(done: Closure)                                     // the hold timer, after its mode switch
    | EnterTrajectory                                             // after the mode switch of a trajectory
    | AbortMain(reason: string)                                   // an abort after deactivating the actions
    | AbortEnd                                                    // an abort after its failure action
    | SaveState                                                   // a deactivation after the resume action
    | Cleanup                                                     // deactivating the actions
    | CleanupHooks                                                // the client's `deactivate` overrides

  datatype Report = Progress(index: int) | Completed

  datatype ItemState = Trajectory | Other

  /** Who is to be called, and when: handlers, pending callbacks and the call stack. */
  datatype Control = Control(
    valid: set<nat>,                     // the handlers that have not been invalidated
    handler: nat,                        // the number of the current handler
    runs: seq<Run>,
    completedRuns: set<nat>,
    scheduled: Option<ModeCallback>,     // the mode executor's pending callback
    holdTimer: Option<Closure>,
    flight: Flight,
    abortLevel: nat,
    failureRuns: nat,                    // failure actions run since the outermost abort began
    stack: seq<Frame>)
  {
    predicate IsValid(h: nat) {
      h in valid
    }
    /** The innermost frame; if there is none, the value is of no account. */
    function Top(): Frame {
      if stack == [] then AbortEnd else stack[|stack| - 1]
    }
    function Popped(): Control {
      if stack == [] then this else this.(stack := stack[..|stack| - 1])
    }
    function Push(f: Frame): Control {
      this.(stack := stack + [f])
    }
  }

  datatype State = State(
    mission: Mission,
    persistent: PersistentState,
    nextActionId: nat,
    hasValidMission: bool,
    actionsReady: bool,
    active: bool,
    itemState: ItemState,
    activeMode: nat,
    options: TrajectoryOptions,
    settingsKeeper: Option<nat>,
    clientKeepers: map<nat, ActionState>,
    file: Option<Json>,
    landed: bool,
    control: Control,
    crashed: bool,
    reports: seq<Report>,
    segments: seq<(int, int)>)
  {
    function Push(f: Frame): State {
      this.(control := control.Push(f))
    }
  }

  const EmptyState := PersistentState(None, "", map[])

  const NoControl := Control({0}, 0, [], {}, None, None, NoFlight, 0, 0, [])

  function Initial(file: Option<Json>): State {
    State(EmptyMission, EmptyState, 0, false, false, false, Other, 0, NoOptions, None, map[],
          file, false, NoControl, false, [], [])
  }

  /** The outcome of a mode request: accepted, refused before the previous request was cancelled
      (not armed), or refused after. */
  datatype Answer = Accepted | NotArmed | Refused

  /** What client code of a custom action can do while it is in control. */
  datatype Command =
    | RunMode(mode: nat, handlesFailure: bool)
    | RunAction(name: string, arguments: Json)
    | RunTrajectory(items: seq<MissionItem>, stop: bool)
    | ClearOptions
    | SetOptions(options: TrajectoryOptions)
    | SetIndex(index: int)
    | StoreState(name: string, arguments: Json)
    | DropState(id: nat)
    | Complete
    | Abort
    | Return

  /** How a scheduled mode ends; the result `Deactivated` is dropped by the executor's callbacks. */
  datatype Outcome = Succeeded | Failed | Dropped

  /** What reaches the executor from outside while it is idle. */
  datatype Event =
    | SetMission(mission: Mission)
    | ResetMission
    | Activate
    | Deactivate
    | ModeFinished(outcome: Outcome)
    | UpdateSetpoint(positionValid: bool, reached: bool)
    | TimerFired
    | ClientTurn(run: nat)
    | AbortRequest
    | LandedChanged(landed: bool)
    | ReadinessChanged(ready: bool)

  datatype Label =
    | Internal(answer: Answer)
    | User(command: Command, answer: Answer)
    | External(event: Event, answer: Answer)
}
