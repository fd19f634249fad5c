# Mission stack of the PX4 ROS 2 interface library: a verified model

This project models the mission stack of the PX4 ROS 2 interface library and proves what it keeps over every run. It
is plain Dafny: `dafny verify dfyconfig.toml` checks all of it.

## How it is modelled

**The mission executor** is a small-step machine. The original is a set of methods that call client code, which calls
back into the executor, which may abort and call further client code, and so on. Here that nesting is data: the state
carries a stack of frames (`Perform` an action, `Restore` the stored actions, the part of an abort that is left, ...)
and every callback that the executor or a default action creates is a `Closure` that names the handler it captured. A
label of a run is one of

- `Internal`: the innermost frame runs up to its next call, with the vehicle's answer to a mode request as a
  parameter (accepted; refused because it is not armed, which leaves the previous request alone; refused);
- `User`: client code that is in control issues one command, in any order and as often as it likes, or returns;
- `External`: with nothing on the stack, something arrives: an activation, a deactivation, a new mission, a mode that
  ends, a setpoint update, the hold timer, a client callback, a request to abort.

A theorem "over every run" quantifies over every setup (any set of registered actions, any hash), any stored file and
any sequence of labels; a label that is not possible in a state changes nothing.

| file | contents |
|---|---|
| `MissionTypes`, `MissionSteps` | state, frames, closures, and the transitions |
| `MissionEffects`, `MissionModes`, `MissionFrames`, `MissionCommands`, `MissionEvents` | what every single step does, in terms of the state alone: requests of modes, calls, commands of client code, arrivals |
| `MissionExecutor` | the executor as an object whose methods update its fields in place; `Step` is proved to be a step of the machine, so its theorems hold of the object |
| `MissionHandlers`, `MissionStale` | validity of handlers; what outlives an abort or a deactivation |
| `MissionTokens`, `MissionIndex` | the continuation of the mission is never duplicated; where the index can be |
| `MissionAbort`, `MissionFailures`, `MissionRestoration` | aborts inside aborts are bounded; what an abort asks the vehicle for; aborts while the stored actions are restored |
| `MissionStore`, `MissionWindow` | ids of stored actions, and the window between a load and the restoration |
| `MissionPersistence`, `MissionOptions`, `MissionSettings`, `MissionRestarts` | the file, how trajectory options are changed, and their survival of interruptions and restarts |
| `MissionResume`, `MissionResumption` | the resume action, and what becomes of its completion |
| `MissionStories` | complete runs in which something is lost or overridden |
| `Segments` | trajectory segments |
| `MissionRun`, `MissionProgress`, `MissionCompletion` | uninterrupted runs: order, never stuck, completion |
| `Trajectories`, `MissionFlights` | the waypoint trajectory executor, and that the mission executor sees the same flight |
| `ModeExecutors`, `ModeClients`, `ModeMessages`, `ModeResults` | the mode executor, how it answers requests and messages, and what callbacks are told over whole runs |
| `Modes`, `ModeTurns`, `Setpoints` | the mode that it owns, its client code, the setpoint types of a mode |
| `Mission`, `MissionReading`, `PersistentState`, `Json`, `OrderedMaps`, `OrderedStrings` | mission definitions, the stored state, their JSON form and what every document is read as |
| `FrameConversion`, `Geometry` | frames and angles over the reals |

**The mode executor, the modes and the trajectory executor** call the client directly. Client code is an arbitrary
finite list of moves that is consumed whenever the client is in control, so a callback may make requests whose own
callbacks are called before it returns. Each is a state, its transitions, theorems about every run, and a class that
does the same in place.

What clients must keep:

- code inside a run of an action uses the handler that it was given. The executor's own `abort` is for the activation
  callback and for code outside of any run, where it is modelled; called from inside an action it could start any
  number of failure actions one after the other, so the bound of `AbortsAreBounded` rests on this;
- an action that is told about a deactivation does nothing but let go of its tokens;
- of the mode executor: the invalid mode id is not scheduled and no second wait is requested while one is pending (both
  set `broken`, and the theorem then promises nothing), and a callback that is told about a deactivation makes no
  request.

## What turned out not to hold

- **An abort during the restoration of the stored actions is overridden.** The activation checks the handler, then
  restores the stored actions, then starts the current item without checking again
  (`px4_ros2_cpp/src/mission/mission_executor.cpp:544-545`, and `:552-554` after the resume action). If a restored
  action aborts, the item starts nevertheless, under the handler made by the abort
  (`AbortDuringRestorationIsOverridden` is a complete run). `ItemStartsUnderCheckedHandlerIff`: the item, a waypoint or
  an action, starts under the checked handler exactly if no step of the restoration aborts.
  `RestorationMayAbortIff` tells it from the stored entries, before the restoration begins: an abort is possible exactly
  if some entry asks for a mode, which the vehicle may refuse, or runs client code, and no entry before it throws. With
  settings alone stored it cannot happen. (The resume action is registered under its own name.)
- **Ids of stored actions clash between a load and the restoration.** Loading numbers the entries from zero and does
  not move the counter. Client code that runs as part of the resume action, such as a takeoff of its own, may store a
  state while the loaded entries wait for their restoration, and replace one of them (`LoadedEntryIsLost` is a complete
  run, in which the settings of the file are lost). `AddReplacesLoadedIff` is the exact condition at every point of the
  window, and `TheWindowEnds` says when it is over. Settings survive restarts if no entry of theirs is replaced
  (`SettingsSurviveRestarts`).
- **A token that outlives a load can remove the entry of another.** Loading renumbers the entries but not the tokens
  that clients still hold. `TokenRemovesAnother` is a complete run, `ReleaseLosesLoadedIff` the exact condition.
- **A mission does not always survive its own JSON form**: an action named `navigation` (`ReservedNameIsLost`), or
  arguments with a `type` or `id` of their own (`OwnTypeWins`), come back as something else. `MissionRoundTrip` is the
  exact condition.
- **The resume action can lose its completion, or stop the program, if client code runs it.** The mission's own
  resumption is safe: `LiveResumptionIsKept`. Run by a failure action while the mission is not feasible it may need a
  takeoff that is not registered, and aborts (`ResumptionIsLost`); run after a landing, once the mission is done, it
  reads past the items (`ResumptionReadsPastEnd`). `ResumeConserves` and `ResumeFailsIff` have the exact conditions.
- **The frame diagram needs unit quaternions** when vectors are rotated by the matrix library's product;
  `RotateCommutesIffUnit` is exact. With the rotation `q v q*` it holds for all quaternions.
- The comment of the yaw conversions promises [-pi, pi]; the code, and the model, give [-pi, pi).

## Model

| member | source | states |
|---|---|---|
| `MissionHandlers.ExactlyOneValidHandler` | px4_ros2_cpp/src/mission/mission_executor.cpp:843-887 | in every reachable state exactly one handler is valid, the current one, and everything nested in a pending callback captured one and the same handler |
| `MissionStale.AbortDisowns` | px4_ros2_cpp/src/mission/mission_executor.cpp:843-887 | after an abort, wherever it happens, every callback that existed before belongs to an earlier handler |
| `MissionStale.DeactivationDisowns` | px4_ros2_cpp/src/mission/mission_executor.cpp:567-589 | the same after a deactivation |
| `MissionStale.InvalidForever` | px4_ros2_cpp/include/px4_ros2/mission/mission_executor.hpp:548-554 | an invalidated handler stays invalid over every run |
| `MissionStale.DisownedForever` | px4_ros2_cpp/src/mission/mission_executor.cpp:733-757 | over every run after that: whenever such a callback is called, whatever runs because of it, custom code with its commands included, starts no item, performs and restores nothing, and leaves mission, options, segments, callbacks, index, progress and stored actions as they are, unless a command sets the index, which is not gated, or drops a token |
| `MissionStale.StaleCodeIsInert` | px4_ros2_cpp/src/mission/mission_executor.cpp:733-757 | the same for every run of any code of an earlier handler, from any reachable state |
| `MissionStale.DisownedCompletionIsInert` | px4_ros2_cpp/src/mission/mission_executor.cpp:733-757 | the completion of an item or of a resumption made under an earlier handler changes nothing at all, whenever it is called |
| `MissionStale.StaleCallbackIsInert` | px4_ros2_cpp/src/mission/mission_executor.cpp:733-757 | any callback of an earlier handler leaves everything but the call stack as it is, and puts at most one more callback or client code of an earlier handler there: no item, no action |
| `MissionStale.StaleSegmentIsInert` | px4_ros2_cpp/src/mission/mission_executor.cpp:733-746 | a segment flown for an earlier handler flies on but reports no progress |
| `MissionStale.StaleCommandIsInert` | px4_ros2_cpp/include/px4_ros2/mission/mission_executor.hpp:365-399 | commands on an earlier handler have no effect, but for setting the mission index, which is not gated |
| `MissionRestoration.ItemStartsUnderCheckedHandlerIff` | px4_ros2_cpp/src/mission/mission_executor.cpp:526-563 | from the step that begins a restoration to the start of the item, a waypoint or an action: the item starts under the handler that was checked exactly if no step in between aborts |
| `MissionRestoration.RestorationMayAbortIff` | px4_ros2_cpp/src/mission/mission_executor.cpp:305-333 | known when the restoration begins: some run of it aborts exactly if some stored entry asks for a mode or runs client code and no entry before it throws |
| `MissionRestoration.AbortsIff` | px4_ros2_cpp/src/mission/mission_executor.cpp:843-887 | while something runs, a step changes the handler exactly if it is an abort |
| `MissionRestoration.RestorationBegins` | px4_ros2_cpp/src/mission/mission_executor.cpp:305-333 | beginning a restoration puts all stored entries in id order above the start of the item, and leaves none stored |
| `MissionStories.AbortDuringRestorationIsOverridden` | px4_ros2_cpp/src/mission/mission_executor.cpp:305-333 | a concrete run in which it does not: a restored action aborts, the vehicle is sent home, and the item starts nevertheless |
| `MissionAbort.AbortsAreBounded` | px4_ros2_cpp/src/mission/mission_executor.cpp:843-881 | over every run the recursion level is the number of failure actions in progress, never above 11, zero when nothing runs; one outermost abort causes at most 11 failure actions |
| `MissionAbort.AbortMainKeepsBound` | px4_ros2_cpp/src/mission/mission_executor.cpp:648-665 | the step that starts a failure action, with its recursion check and its handler, keeps this bound, including that whatever is above the abort can only reach invalidated handlers |
| `MissionAbort.StaleCommands` | px4_ros2_cpp/include/px4_ros2/mission/mission_executor.hpp:365-399 | a command on an invalidated handler starts no failure action, which is why the nesting is linear |
| `MissionFailures.AbortReturnsOrDescends` | px4_ros2_cpp/src/mission/actions/default_actions.cpp:122-131 | over every run with the default failure action registered: after an abort that begins at rest the vehicle is asked to return (mode 5); if it refuses, or accepts and the return fails, the next request is to descend (mode 12); if it refuses both, there is no other request and the executor is at rest without a mode |
| `MissionFailures.FailureActionAsks` | px4_ros2_cpp/src/mission/actions/default_actions.cpp:122-131 | the same wherever an abort, nested or not, comes to its failure action, with the callbacks that are pending and what is left on the stack |
| `MissionFailures.FailedReturnDescends` | px4_ros2_cpp/src/mission/actions/default_actions.cpp:126-130 | whatever has happened since the return was accepted: if it fails while its handler is valid the next request is to descend, otherwise there is none |
| `MissionFrames.AbortRunsFailureAction` | px4_ros2_cpp/src/mission/mission_executor.cpp:859-881 | the failure action is run one level deeper and is told level, reason and index; without one, nothing is done |
| `MissionIndex.IndexSafety` | px4_ros2_cpp/src/mission/mission_executor.cpp:826-841 | over every run the index is empty or valid while inactive and empty or at most one past the end while active; a flown segment lies inside the mission; and nothing that can continue the mission finds the index elsewhere |
| `MissionIndex.ResumeReadsInBounds` | px4_ros2_cpp/src/mission/mission_executor.cpp:801-814 | the unguarded read of the current item is in bounds whenever the resume action reaches it from the activation or as an item |
| `MissionIndex.ResumeFailsIff` | px4_ros2_cpp/src/mission/actions/default_actions.cpp:13-41 | the exact condition for the resume action to fail: no action string in the arguments, or landed with an index past the end |
| `MissionIndex.NeverOutside` | px4_ros2_cpp/src/mission/trajectory/multicopter/waypoint_trajectory_executor.cpp:35-77 | the waypoint that is flown to is in bounds in every reachable state |
| `MissionStore.StoredIdsAreFresh` | px4_ros2_cpp/src/mission/mission_executor.cpp:280-303 | in every run without a load from the file all stored ids are below the counter, and every token keeps the entry it was made for |
| `MissionWindow.TheWindowEnds` | px4_ros2_cpp/src/mission/mission_executor.cpp:305-333 | in every run, whatever was loaded before, stored ids are below the counter again from the step that begins a restoration, or ends a resumption that has moved the index, up to the next load |
| `MissionWindow.MovingOnDiscards` | px4_ros2_cpp/src/mission/mission_executor.cpp:555-560 | a resumption that has moved the index drops the stored actions unrestored and starts the new item |
| `MissionStore.AddOverwritesIff` | px4_ros2_cpp/src/mission/mission_executor.cpp:280-287 | adding keeps all other entries exactly if the counter is not a stored id, as it is while ids are in order |
| `MissionWindow.AddReplacesLoadedIff` | px4_ros2_cpp/src/mission/mission_executor.cpp:280-287 | at every point of a run between a load and the restoration: adding an entry loses a loaded one exactly if the counter is still below the number of loaded entries and that entry has not been taken out by the resume action |
| `MissionStories.LoadedEntryIsLost` | px4_ros2_cpp/src/mission/mission_executor.cpp:407-424 | a complete run in which it does: while the takeoff of a resumption stores a state, the loaded entry 0, that of the settings, is replaced before it is restored |
| `MissionWindow.ReleaseLosesLoadedIff` | px4_ros2_cpp/include/px4_ros2/mission/mission_executor.hpp:343-359 | at every point of a run between a load and the restoration: letting go of a token removes a loaded entry exactly if the token is older than the load and an entry was loaded under its id and is still there; otherwise its own entry or nothing |
| `MissionStories.TokenRemovesAnother` | px4_ros2_cpp/src/mission/mission_executor.cpp:289-303 | a complete run in which it does: after saving and loading, the token of one state removes another, whose token is still held |
| `MissionStore.TokenRemovesItsOwn` | px4_ros2_cpp/include/px4_ros2/mission/mission_executor.hpp:343-359 | letting go of a token removes its own entry, leaves all others alone, and is not the token of the settings |
| `MissionStore.TokensAlways` | px4_ros2_cpp/include/px4_ros2/mission/mission_executor.hpp:343-359 | over every run, loads included, no two tokens share an id |
| `MissionSettings.SettingsSurviveInterruptions` | px4_ros2_cpp/src/mission/actions/default_actions.cpp:133-162 | over every run without aborts, new missions or interference, however often it is interrupted and resumed: when an item starts or is at work, the options in force are those that the items asked for; while inactive, the one stored entry replays to them, and once a deactivation is over no token of theirs is held |
| `MissionRestarts.SettingsSurviveRestarts` | px4_ros2_cpp/src/mission/mission_executor.cpp:342-425 | the same over any number of processes, each of which ends with a completed deactivation and leaves its file to the next |
| `MissionRestarts.RestartKeepsSettings` | px4_ros2_cpp/src/mission/mission_executor.cpp:342-425 | what the items have asked for up to the end of a process waits in the file for the next, or the defaults if the mission was done |
| `MissionSettings.SettingsSurviveLoading` | px4_ros2_cpp/src/mission/mission_executor.cpp:228-256 | the same over one run from any file that stores settings, if no client code stores an action under the number of their entry before it is restored |
| `MissionSettings.ReplacedSettingsAreLost` | px4_ros2_cpp/src/mission/mission_executor.cpp:280-287 | if it does, no settings are stored any more |
| `MissionSettings.SettledAlone` | px4_ros2_cpp/src/mission/actions/default_actions.cpp:133-157 | storing new settings removes the previous entry and leaves exactly the new one |
| `MissionOptions.SettingsAreReset` | px4_ros2_cpp/src/mission/actions/default_actions.cpp:137-139 | from the arguments: if resetAll is true, the options are the defaults of the mission and no settings token is held |
| `MissionOptions.SettingsAreChanged` | px4_ros2_cpp/src/mission/actions/default_actions.cpp:140-155 | if resetAll is missing or false: each setting that is given, an integer, a float or a boolean, becomes that, the heading rate times pi/180, the others stay, and all of them are stored under the next id, before the previous entry goes |
| `MissionOptions.SettingsAreRefused` | px4_ros2_cpp/src/mission/actions/default_actions.cpp:133-156 | in every other case it throws |
| `MissionSettings.ChangedStore` | px4_ros2_cpp/src/mission/actions/default_actions.cpp:133-157 | what it does to options, stored entries and token, in terms of what the arguments give |
| `MissionSettings.AskedIs` | px4_ros2_cpp/src/mission/actions/default_actions.cpp:133-157 | what the items have asked for, in the theorems about runs, in the same terms |
| `MissionPersistence.PersistedResumeAgrees` | px4_ros2_cpp/src/mission/mission_executor.cpp:567-589 | after any run and a completed deactivation, a fresh executor that loads the file with the same mission has the same index, or none if the mission was done, and the same stored actions in id order, renumbered from zero |
| `MissionPersistence.LoadedIff` | px4_ros2_cpp/src/mission/mission_executor.cpp:228-256 | a saved state is loaded exactly if the checksum is that of the mission and the index is one of its items |
| `MissionPersistence.ReloadAgrees` | px4_ros2_cpp/src/mission/mission_executor.cpp:342-392 | a saved file and the state in memory restart at the same place with the same stored actions |
| `MissionPersistence.ChecksumAlways` | px4_ros2_cpp/src/mission/mission_executor.cpp:119-179 | over every run the checksum kept in the state is that of the mission, feasible or not, if the mission has items |
| `MissionRun.UninterruptedRun` | px4_ros2_cpp/src/mission/mission_executor.cpp:697-760 | from an activation at the beginning, without aborts, deactivations and jumps: the indices set are 0, 1, ... up to the number of items, in order, completion is reported once and last, and the segments flown are those of the mission, all of them at completion |
| `MissionRun.StepRuns` | px4_ros2_cpp/src/mission/mission_executor.cpp:707-760 | each step of such a run either changes nothing of this or moves on by exactly one item |
| `MissionRun.SegmentsPartition` | px4_ros2_cpp/src/mission/mission_executor.cpp:768-799 | the segments of a mission are ordered, disjoint, and cover the navigation items and nothing else |
| `MissionProgress.NeverStuck` | px4_ros2_cpp/src/mission/mission_executor.cpp:697-760 | over every cooperative run from the beginning: while items are left and nothing runs, exactly one continuation is pending, as the end of a mode, the hold timer, the completion of a custom action, or the waypoint that is flown to |
| `MissionProgress.StepLively` | px4_ros2_cpp/src/mission/mission_executor.cpp:591-760 | each cooperative step, client commands and restored actions included, hands the continuation on and displaces it nowhere |
| `MissionCompletion.GoingOnLowers` | px4_ros2_cpp/src/mission/mission_executor.cpp:512-760 | in every state of a cooperative run, the activation and the restoration included, each step of the executor and each return of client code lowers the work on the stack, weighted by the items left |
| `MissionCompletion.ComesToRest` | px4_ros2_cpp/src/mission/mission_executor.cpp:512-760 | hence whatever is chosen, not more steps than that work can follow each other until the executor waits for something |
| `MissionCompletion.CompletionAdvances` | px4_ros2_cpp/src/mission/mission_executor.cpp:752-757 | a completion of the current item that is called leaves one item less |
| `MissionCompletion.WaypointAdvances` | px4_ros2_cpp/src/mission/trajectory/multicopter/waypoint_trajectory_executor.cpp:35-88 | a waypoint of the mission that is reached leaves one item less |
| `MissionCompletion.MissionCanBeCompleted` | px4_ros2_cpp/src/mission/mission_executor.cpp:697-760 | if its actions accept their arguments and none of them is the resume action, the mission can be completed from every state of such a run, its activation and whatever is in progress included, and then all indices were reported once and in order, and all segments flown |
| `MissionCompletion.Delivers` | px4_ros2_cpp/src/mission/mission_executor.cpp:697-760 | delivering what is pending moves the mission on by exactly one item |
| `MissionCompletion.Rests` | px4_ros2_cpp/src/mission/mission_executor.cpp:512-760 | from every such state the executor gets to rest without going back, aborting or throwing |
| `Segments.GetNextTrajectorySegment` | px4_ros2_cpp/src/mission/mission_executor.cpp:768-799 | the two loops compute the end of the segment and whether to stop there |
| `Segments.SegmentIsMaximal` | px4_ros2_cpp/src/mission/mission_executor.cpp:768-785 | the segment consists of navigation items and cannot be extended |
| `Segments.SegmentStopMeaning` | px4_ros2_cpp/src/mission/mission_executor.cpp:786-799 | the stop flag holds exactly if the segment ends the mission or a known action in the block after it asks to stop |
| `Segments.SegmentStopsIff` | px4_ros2_cpp/src/mission/mission_executor.cpp:786-799 | the same in terms of the items up to the next waypoint and of which actions are stopped for |
| `MissionResume.ResumeContinuation` | px4_ros2_cpp/src/mission/actions/default_actions.cpp:13-90 | where the step of the resume action goes for every index: on at once in the air, at the beginning or if the action resumes by itself, to the next item after an interrupted return or landing (to 0 at the end), through the takeoff run closest below the item, or the read past the end |
| `MissionResume.TakeoffContinuation` | px4_ros2_cpp/src/mission/actions/default_actions.cpp:92-120 | after that takeoff the vehicle flies to the closest waypoint below the item, if there is one, and completes there |
| `MissionResumption.LiveResumptionIsKept` | px4_ros2_cpp/src/mission/actions/default_actions.cpp:13-90 | over every run: the resume action that the mission waits for neither fails nor aborts, and it hands on exactly the continuation that it was given, called or left to one command |
| `MissionResumption.KnownAlways` | px4_ros2_cpp/src/mission/mission_executor.cpp:119-179 | over every run: while a continuation of the mission is alive, the mission is valid and all its actions are known |
| `MissionResume.ResumeConserves` | px4_ros2_cpp/src/mission/actions/default_actions.cpp:13-90 | the same for any caller in any state, with the two ways in which it fails: the read past the end, and the abort if the takeoff that it needs is not registered |
| `MissionStories.ResumptionIsLost` | px4_ros2_cpp/src/mission/actions/default_actions.cpp:66-90 | a complete run: without a valid mission, the failure action of a client runs the resume action, which aborts for want of a takeoff; the completion that it was given is in no place |
| `MissionStories.ResumptionReadsPastEnd` | px4_ros2_cpp/src/mission/mission_executor.cpp:801-814 | a complete run: the action of the last item, completed and landed, runs the resume action, which reads past the items |
| `MissionResume.FindTakeoff` | px4_ros2_cpp/src/mission/actions/default_actions.cpp:43-78 | the forward search finds the greatest index below the current one |
| `MissionResume.FindWaypoint` | px4_ros2_cpp/src/mission/actions/default_actions.cpp:92-120 | the backward search finds the greatest index below the current one |
| `MissionTokens.StartItemLeads` | px4_ros2_cpp/src/mission/mission_executor.cpp:707-760 | starting an item creates one continuation of the mission at most, and keeps all others as they are |
| `MissionTokens.ActivatedCarries` | px4_ros2_cpp/src/mission/mission_executor.cpp:528-565 | what follows an activation creates one continuation of the mission at most, whichever way it goes |
| `MissionTokens.RunModeLeads` | px4_ros2_cpp/src/mission/mission_executor.cpp:591-616 | a mode request hands its callback on without duplicating it, for every answer of the vehicle |
| `MissionModes.MissionIsOver` | px4_ros2_cpp/src/mission/mission_executor.cpp:714-726 | an item that is started past the end of the mission: in any mode but the own one nothing changes, neither mode nor pending callback nor stack; in the own one the vehicle is told to hold (mode 4) |
| `MissionModes.EndOfMission` | px4_ros2_cpp/src/mission/mission_executor.cpp:707-726 | the same for every answer of the vehicle, and for a mission without an index |
| `MissionModes.ActionAsksFor` | px4_ros2_cpp/include/px4_ros2/mission/actions/default_actions.hpp:23-106 | which mode each default action asks for and with which callbacks: 17 for a takeoff, 5 to return, 18 to land, 4 to hold with the timer to be armed after it, 5 for a failure |
| `MissionModes.ActionRefuses` | px4_ros2_cpp/include/px4_ros2/mission/actions/default_actions.hpp:62-92 | an altitude or a duration that is no number throws |
| `MissionModes.FallbackDescends` | px4_ros2_cpp/src/mission/actions/default_actions.cpp:126-130 | under a valid handler the fallback asks to descend (mode 12), with a failure that does nothing |
| `MissionFrames.WaypointItemStarts` | px4_ros2_cpp/src/mission/mission_executor.cpp:727-746 | a waypoint is flown to with those that follow it, with the options in force, and the own mode is asked for unless it is the active one |
| `MissionFrames.ActionItemStarts` | px4_ros2_cpp/src/mission/mission_executor.cpp:747-760 | an action runs with its arguments, told if it is resumed; an unknown one aborts, and arguments that cannot be extended throw |
| `MissionFrames.ItemCompletes` | px4_ros2_cpp/src/mission/mission_executor.cpp:697-705 | a completed item moves the index on by one and starts the next item, unless its handler is not valid any more |
| `MissionFrames.ResumptionCompletes` | px4_ros2_cpp/src/mission/mission_executor.cpp:549-564 | a completed resumption restores everything and starts the item as a resumed one, or drops what is stored if the index has moved |
| `MissionFrames.ActivationGoesOn` | px4_ros2_cpp/src/mission/mission_executor.cpp:534-545 | what follows the client callback of an activation that does not resume |
| `MissionFrames.ActivationResumes` | px4_ros2_cpp/src/mission/mission_executor.cpp:546-564 | an activation that resumes runs the resume action with the arguments that were stored for it first, by id, and takes their entry out |
| `MissionFrames.RestorationGoesOn` | px4_ros2_cpp/src/mission/mission_executor.cpp:305-333 | the next stored action is run, unless it is unknown or the resume action |
| `MissionFrames.ResumeActionRuns` | px4_ros2_cpp/src/mission/actions/default_actions.cpp:13-41 | the resume action needs a string that says what to do, and goes on at once where there is nothing to make up for |
| `MissionFrames.CustomActionRuns` | px4_ros2_cpp/src/mission/mission_executor.cpp:648-665 | an action of the client runs its code, with the current handler and the completion to call; an unknown one does nothing |
| `MissionFrames.CodeIsCalled` | px4_ros2_cpp/include/px4_ros2/mission/mission_executor.hpp:365-399 | a callback into client code gives it control |
| `MissionFrames.CallReturns` | px4_ros2_cpp/src/mission/mission_executor.cpp:342-393 | what is left to do when a call returns: arming the hold timer, entering the trajectory, the level of an abort, saving or removing the file, letting go of settings and timer |
| `MissionCommands.ModeIsRequested` | px4_ros2_cpp/include/px4_ros2/mission/mission_executor.hpp:365-373 | client code requests a mode with its own callbacks |
| `MissionCommands.ActionIsRun` | px4_ros2_cpp/include/px4_ros2/mission/mission_executor.hpp:391-399 | client code runs an action, and aborts if it is unknown |
| `MissionCommands.TrajectoryIsFlown` | px4_ros2_cpp/src/mission/mission_executor.cpp:896-954 | client code flies waypoints up to the last one; none at all complete at once, and an action among them aborts |
| `MissionCommands.OptionsAreSet` | px4_ros2_cpp/src/mission/mission_executor.cpp:816-824 | given options replace those in force one by one; clearing them puts the defaults of the mission in force |
| `MissionCommands.StateIsStored` | px4_ros2_cpp/src/mission/mission_executor.cpp:280-287 | a stored entry gets the next id and a token |
| `MissionCommands.RunGoesOn` | px4_ros2_cpp/src/mission/mission_executor.cpp:826-841 | what no handler gates: the index within the mission, a token let go, the completion of the run once, the return |
| `MissionCommands.NothingIsStarted` | px4_ros2_cpp/include/px4_ros2/mission/mission_executor.hpp:365-427 | under an invalid handler nothing else has an effect |
| `MissionCommands.HooksAreLimited` | px4_ros2_cpp/src/mission/mission_executor.cpp:335-340 | what client code can do while it is told about an activation or the end of its actions |
| `MissionEvents.MissionIsSet` | px4_ros2_cpp/src/mission/mission_executor.cpp:119-179 | a new mission is valid exactly if it has an item and knows its actions, and takes the stored state exactly if that fits, a fresh one otherwise |
| `MissionEvents.MissionIsReset` | px4_ros2_cpp/src/mission/mission_executor.cpp:181-192 | a mission is taken away with its index and stored actions |
| `MissionEvents.ActivationBegins` | px4_ros2_cpp/src/mission/mission_executor.cpp:512-532 | an activation starts in the own mode, with the defaults, at the stored index, or aborts |
| `MissionEvents.DeactivationBegins` | px4_ros2_cpp/src/mission/mission_executor.cpp:567-583 | a deactivation replaces the handler and drops the pending mode; a mission past its last item, or landed at it, is forgotten with its file, and any other one stored and saved |
| `MissionEvents.ModeEnds` | px4_ros2_cpp/src/mission/mission_executor.cpp:601-615 | a scheduled mode that ends calls its completion, or its failure, or aborts; a deactivated one does nothing |
| `MissionEvents.TimerFires` | px4_ros2_cpp/include/px4_ros2/mission/actions/default_actions.hpp:94-98 | the hold timer fires once |
| `MissionEvents.FlightGoesOn` | px4_ros2_cpp/src/mission/trajectory/multicopter/waypoint_trajectory_executor.cpp:35-88 | an update of the flight passes actions and reached waypoints, moves the mission index on and completes at the end; without a position it aborts |
| `MissionEvents.OthersAreNoted` | px4_ros2_cpp/src/mission/mission_executor.cpp:216-221 | requests to abort, turns of client code, landing and readiness |
| `MissionEvents.UntilActivated` | px4_ros2_cpp/src/mission/mission_executor.cpp:51-192 | over every run without an activation nothing is run, reported, flown or stored, and the mission is valid exactly if the one given last is |
| `OrderedMaps.AscendingIsUnique` | px4_ros2_cpp/src/mission/mission_executor.cpp:305-333 | iterating a map in key order has one result only |
| `PersistentStates.StateRoundTrip` | px4_ros2_cpp/src/mission/mission_executor.cpp:394-425 | saving and loading the state keeps everything but the ids, which restart from zero in the same order |
| `MissionExecutors.MissionExecutor.constructor` | px4_ros2_cpp/src/mission/mission_executor.cpp:51-112 | a new executor is the initial state of the runs |
| `MissionExecutors.MissionExecutor.SetMission` | px4_ros2_cpp/src/mission/mission_executor.cpp:119-179 | the mission is installed, deactivated, checked, and its stored state loaded if the client code allows, as the transition says |
| `MissionExecutors.MissionExecutor.CheckFeasible` | px4_ros2_cpp/src/mission/mission_executor.cpp:125-160 | the loop over the items finds every action that is not known |
| `MissionExecutors.MissionExecutor.TryLoadPersistentState` | px4_ros2_cpp/src/mission/mission_executor.cpp:228-256 | loads exactly in the case that LoadedIff names, and otherwise leaves everything as it is |
| `MissionExecutors.MissionExecutor.FindOnResumeState` | px4_ros2_cpp/src/mission/mission_executor.cpp:258-268 | the first stored entry of the resume action in id order |
| `MissionExecutors.MissionExecutor.GetOnResumeStateAndClear` | px4_ros2_cpp/src/mission/mission_executor.cpp:258-268 | its arguments, and the entry is removed; the default arguments if there is none |
| `MissionExecutors.MissionExecutor.RunSegment` | px4_ros2_cpp/src/mission/mission_executor.cpp:733-746 | the two loops over the items, for the end of the segment and for the stop flag, give what the transition of the current waypoint takes from the recursive definitions |
| `MissionExecutors.MissionExecutor.RunTrajectoryFor` | px4_ros2_cpp/src/mission/mission_executor.cpp:896-954 | a trajectory that a handler is asked for: nothing, completion at once, an abort, or a flight |
| `MissionExecutors.MissionExecutor.ResumeFromLanding` | px4_ros2_cpp/src/mission/actions/default_actions.cpp:43-90 | the search and the branch after an unexpected landing |
| `MissionExecutors.MissionExecutor.NavigateToPreviousWaypoint` | px4_ros2_cpp/src/mission/actions/default_actions.cpp:92-120 | the search and the flight after the takeoff |
| `MissionExecutors.MissionExecutor.ChangeSettings` | px4_ros2_cpp/src/mission/actions/default_actions.cpp:133-157 | a reset puts the defaults in force and holds no token; otherwise what the arguments give is merged, put in force and stored under the next id; or it throws; and it is the transition |
| `MissionExecutors.MissionExecutor.Step` | px4_ros2_cpp/src/mission/mission_executor.cpp:51-954 | an object that takes a label, be it the innermost call going on, a command of client code, or an arrival, does what the machine of the theorems does, for all of them; what that is, step by step, is said by MissionModes, MissionFrames, MissionCommands, MissionEvents and MissionOptions in terms of the state alone |
| `MissionExecutors.MissionExecutor.RunAll` | px4_ros2_cpp/src/mission/mission_executor.cpp:51-954 | and so for every run |
| `MissionExecutors.Execute` | px4_ros2_cpp/src/mission/mission_executor.cpp:51-112 | what the run theorems say, read off an object after any run: one valid handler, the index in range, aborts bounded and their level back to zero at rest |
| `MissionFlights.InstallsAlike` | px4_ros2_cpp/src/mission/mission_executor.cpp:667-695 | a trajectory that is run shows as the current one in the trajectory executor, from its start |
| `MissionFlights.KeepsPromise` | px4_ros2_cpp/src/mission/mission_executor.cpp:727-746 | the segments of a mission and the trajectories of client code are within bounds, as the trajectory executor expects |
| `MissionFlights.UpdatesAlike` | px4_ros2_cpp/src/mission/trajectory/multicopter/waypoint_trajectory_executor.cpp:35-88 | the flight in the state of the mission executor and the trajectory executor stay, fail or advance together and report the same index, for updates whose callback installs no trajectory |
| `Trajectories.ProgressInOrder` | px4_ros2_cpp/src/mission/trajectory/multicopter/waypoint_trajectory_executor.cpp:29-88 | over every run, with any trajectories installed from inside the callback: the current index is in bounds, and every trajectory reports start, start + 1, ... each once, never beyond its end |
| `Trajectories.UpdateInOrder` | px4_ros2_cpp/src/mission/trajectory/multicopter/waypoint_trajectory_executor.cpp:35-88 | a trajectory installed from inside the callback is left at its start by the update that called it |
| `Trajectories.UpdateReports` | px4_ros2_cpp/src/mission/trajectory/multicopter/waypoint_trajectory_executor.cpp:35-88 | what one update reports and where it leaves the flight: an action and a reached waypoint are passed, a position that is not valid fails |
| `Trajectories.RunInstalls` | px4_ros2_cpp/src/mission/trajectory/multicopter/waypoint_trajectory_executor.cpp:29-33 | a trajectory that is run is the current one, at its start, after any run |
| `Trajectories.TurnInstalls` | px4_ros2_cpp/src/mission/trajectory/multicopter/waypoint_trajectory_executor.cpp:29-34 | the trajectory that is current after client code is the last one that it installed, from its start |
| `Trajectories.WaypointTrajectoryExecutor.UpdateSetpoint` | px4_ros2_cpp/src/mission/trajectory/multicopter/waypoint_trajectory_executor.cpp:35-77 | the update in place is that transition |
| `Trajectories.WaypointTrajectoryExecutor.ContinueNextItem` | px4_ros2_cpp/src/mission/trajectory/multicopter/waypoint_trajectory_executor.cpp:79-88 | the callback is called last |
| `ModeExecutors.CompletionExactlyOnce` | px4_ros2_cpp/src/components/mode_executor.cpp:142-263 | over every run of requests, messages and nested requests, also from the hooks of the owned mode inside a message: each callback handed over has been called exactly once or is pending in exactly one of two places, as long as the client keeps its contract |
| `ModeResults.ResultsAreJustified` | px4_ros2_cpp/src/components/mode_executor.cpp:142-263 | over every run: every result that a callback was told is Rejected while disarmed, the answer of the vehicle to its request, the result of the message that completed its mode, Success for a condition that held, or Deactivated at a cancellation |
| `ModeClients.CompletionTold` | px4_ros2_cpp/src/components/mode_executor.cpp:393-409 | a completion for the scheduled mode tells its callback first, with the result of the message, and takes it out; any other completion changes nothing |
| `ModeClients.RequestAnswered` | px4_ros2_cpp/src/components/mode_executor.cpp:142-263 | how each request is answered: the cancellation, the callback and its result, what is pending afterwards, and that client code gets its turn |
| `ModeClients.FirstRequests` | px4_ros2_cpp/src/components/mode_executor.cpp:142-149 | before the first message the vehicle counts as disarmed |
| `ModeMessages.HooksInOrder` | px4_ros2_cpp/src/components/mode_executor.cpp:265-307 | which hooks of the executor a message calls and in which order, whatever client code does in them |
| `ModeMessages.FirstMessage` | px4_ros2_cpp/src/components/mode_executor.cpp:265-285 | when the first message activates |
| `ModeMessages.WaitEndsIff` | px4_ros2_cpp/src/components/mode_executor.cpp:428-437 | a message ends a wait exactly if its condition holds: armed, disarmed, or preflight checks passed |
| `ModeMessages.QuietMessage` | px4_ros2_cpp/src/components/mode_executor.cpp:265-322 | a message that calls no hook and ends no wait tells client code nothing |
| `ModeMessages.HooksGiveTurns` | px4_ros2_cpp/src/components/mode_executor.cpp:265-322 | hooks give client code its turn |
| `ModeMessages.OwnedModeRuns` | px4_ros2_cpp/src/components/mode_executor.cpp:309-317 | what the owned mode is told by a message |
| `ModeExecutors.DeactivationLeavesNonePending` | px4_ros2_cpp/src/components/mode_executor.cpp:99-109 | a deactivation calls both pending callbacks, then the client; none is pending then |
| `ModeExecutors.InChargeRefinement` | px4_ros2_cpp/src/components/mode_executor.cpp:265-298 | after each message being in charge is the predicate of the message, the setting and the latch; and what the owned mode is told |
| `ModeExecutors.StandingAlways` | px4_ros2_cpp/src/components/mode_executor.cpp:265-322 | over every run activations and deactivations alternate, forced reactivation included; once deactivated, an executor is in charge only while armed unless it may always be active; the owned mode is active only where the last message allows it |
| `ModeExecutors.ActivatesUnlessHeldBack` | px4_ros2_cpp/src/components/mode_executor.cpp:309-317 | with a message that finds it inactive the owned mode goes active exactly if the message selects it, and the executor in charge neither has another mode scheduled nor waits while the vehicle becomes armed |
| `ModeExecutors.InChargeDecided` | px4_ros2_cpp/src/components/mode_executor.cpp:265-298 | the decision alone, and what it was made from |
| `ModeExecutors.ModeExecutor.VehicleStatusUpdated` | px4_ros2_cpp/src/components/mode_executor.cpp:265-322 | the handler in place is that transition, on the executor and its mode |
| `ModeExecutors.ModeExecutor.ScheduleMode` | px4_ros2_cpp/src/components/mode_executor.cpp:142-167 | refused while disarmed, answered, or pending after the previous one was cancelled |
| `ModeExecutors.ModeExecutor.SendAndWait` | px4_ros2_cpp/src/components/mode_executor.cpp:193-263 | arming, disarming and the two waits: answered at once or pending |
| `ModeExecutors.ModeExecutor.SwitchCharge` | px4_ros2_cpp/src/components/mode_executor.cpp:265-285 | activation and deactivation by the message, and whether this activated |
| `ModeExecutors.ModeExecutor.OnModeCompleted` | px4_ros2_cpp/src/components/mode_executor.cpp:393-426 | a completion is passed on if it is for the scheduled mode |
| `ModeExecutors.ModeExecutor.UpdateWait` | px4_ros2_cpp/src/components/mode_executor.cpp:428-455 | a wait ends when its condition holds |
| `Modes.ModeRuns` | px4_ros2_cpp/src/components/mode.cpp:115-208 | over every run, whatever the client does: activations and deactivations alternate, the setpoint timer exists exactly while active with a positive rate, completion is signalled at most once per activation, and the mode is active only if the last navigation state is its own and arming allows it |
| `Modes.StatusKeeps` | px4_ros2_cpp/src/components/mode.cpp:174-192 | after a message the mode is active exactly as the message says, unless held back |
| `Modes.HooksRunIff` | px4_ros2_cpp/src/components/mode.cpp:174-192 | a message makes the hooks of the mode run exactly if it switches it |
| `Modes.TurnKeeps` | px4_ros2_cpp/src/components/mode.cpp:138-167 | client code that changes the rate or completes keeps the timer right and does not change the activation |
| `ModeTurns.TurnPlays` | px4_ros2_cpp/src/components/mode.cpp:162-208 | what client code of a mode does in its turn: the last rate, the completion signals |
| `ModeTurns.StatusPlays` | px4_ros2_cpp/src/components/mode.cpp:174-192 | what a message makes of a mode and of its client code |
| `ModeTurns.TickPlays` | px4_ros2_cpp/src/components/mode.cpp:145-152 | the timer calls the client while the mode is active |
| `ModeTurns.ClientPlays` | px4_ros2_cpp/src/components/mode.cpp:162-208 | what client code does outside of the hooks |
| `Modes.Mode.VehicleStatusUpdated` | px4_ros2_cpp/src/components/mode.cpp:174-192 | the handler in place is that transition |
| `Modes.Mode.UpdateSetpointUpdateTimer` | px4_ros2_cpp/src/components/mode.cpp:138-160 | an existing timer is kept while active with a positive rate, removed otherwise |
| `Setpoints.SetpointTypes.OnUpdate` | px4_ros2_cpp/include/px4_ros2/common/setpoint_base.hpp:66-79 | using a setpoint type makes it the only active one, and it is published only if it was not active before |
| `Setpoints.SetpointTypes.Updates` | px4_ros2_cpp/include/px4_ros2/common/setpoint_base.hpp:66-79 | over any sequence of updates the last one decides, and the published configuration is the active one |
| `Setpoints.SetpointTypes.ShouldActivate` | px4_ros2_cpp/src/components/mode.cpp:234-253 | one pass activates the type that asks and deactivates the others |
| `Setpoints.SetpointTypes.OnRegistered` | px4_ros2_cpp/src/components/mode.cpp:234-253 | the first type starts active; without any the registration fails |
| `Setpoints.SetpointTypes.RateFromSetpointTypes` | px4_ros2_cpp/src/components/mode.cpp:282-292 | the rate is the greatest desired one, or none |
| `Missions.MissionRoundTrip` | px4_ros2_cpp/src/mission/mission.cpp:183-320 | a mission that serializes comes back the same exactly if no action has the reserved name and no arguments contradict their own type or id |
| `Missions.ReservedNameIsLost` | px4_ros2_cpp/src/mission/mission.cpp:183-320 | a mission with an action of the reserved name serializes, if its other items do, and is refused when read back |
| `Missions.OwnTypeWins` | px4_ros2_cpp/src/mission/mission.cpp:233-286 | an action whose arguments name another type serializes and comes back as that action, a hold as a landing, say |
| `Missions.ItemRoundTrip` | px4_ros2_cpp/src/mission/mission.cpp:233-286 | the same for one item, and action objects serialize alike again |
| `Missions.SerializableIff` | px4_ros2_cpp/src/mission/mission.cpp:241-250 | a mission serializes exactly if all arguments are null or an object |
| `Missions.ReloadKeepsChecksum` | px4_ros2_cpp/src/mission/mission.cpp:183-194 | reloading keeps the checksum, whatever the hash |
| `Missions.OptionsRoundTrip` | px4_ros2_cpp/src/mission/mission.cpp:196-219 | trajectory options survive, with the heading rate in degrees |
| `Missions.ToJson` | px4_ros2_cpp/src/mission/mission.cpp:183-194 | the loop over the items is that serialization |
| `Missions.FromJson` | px4_ros2_cpp/src/mission/mission.cpp:300-320 | the loop over the items, of an array or by key of an object, is that parser |
| `MissionReading.MissionIsRead` | px4_ros2_cpp/src/mission/mission.cpp:300-320 | for every document: it is read as a mission exactly if its members denote that mission |
| `MissionReading.NavigationIsRead` | px4_ros2_cpp/src/mission/mission.cpp:252-287 | a waypoint has exactly the coordinates that its members denote, each an integer or a float |
| `MissionReading.ActionIsRead` | px4_ros2_cpp/src/mission/mission.cpp:233-240 | an action has the name, the id and the whole object as arguments |
| `MissionReading.OptionsAreRead` | px4_ros2_cpp/src/mission/mission.cpp:196-207 | options are exactly those that the members denote, the heading rate times pi/180 |
| `MissionReading.NumbersReadAlike` | px4_ros2_cpp/src/mission/mission.cpp:276-287 | replacing integers by equal floats, or back, in coordinates and options leaves the mission that is read the same |
| `MissionReading.ElementsAreVisited` | px4_ros2_cpp/src/mission/mission.cpp:312-319 | items may come in an array or by key of an object |
| `MissionReading.StateIsRead` | px4_ros2_cpp/src/mission/mission_executor.cpp:407-425 | for every document: it is read as a stored state exactly if its members denote that state |
| `FrameConversion.AttitudeConversionCommutes` | px4_ros2_cpp/include/px4_ros2/utils/frame_conversion.hpp:30-48 | for every quaternion and vector, turning by the converted attitude is converting the turned vector (up to 2h^2, which is 1) |
| `FrameConversion.RotateCommutesIffUnit` | px4_ros2_cpp/include/px4_ros2/utils/frame_conversion.hpp:30-48 | with the matrix library's own product the same holds for all vectors exactly for unit quaternions |
| `FrameConversion.AttitudeRoundTripExact` | px4_ros2_cpp/include/px4_ros2/utils/frame_conversion.hpp:49-66 | converting there and back is the identity for all quaternions exactly if 2h^2 is 1 |
| `FrameConversion.SandwichComposes` | px4_ros2_cpp/include/px4_ros2/utils/frame_conversion.hpp:30-48 | rotations compose as quaternions multiply |
| `FrameConversion.ConversionKeepsNorm` | px4_ros2_cpp/include/px4_ros2/utils/frame_conversion.hpp:30-48 | the conversion keeps the norm |
| `FrameConversion.PositionRoundTrips` | px4_ros2_cpp/include/px4_ros2/utils/frame_conversion.hpp:129-169 | position and body vectors come back exactly |
| `FrameConversion.YawRoundTrip` | px4_ros2_cpp/include/px4_ros2/utils/frame_conversion.hpp:81-97 | yaw there and back is the wrapped yaw |
| `FrameConversion.YawTurns` | px4_ros2_cpp/include/px4_ros2/utils/frame_conversion.hpp:81-97 | north and east change places, and turning right adds in NED and subtracts in ENU |
| `FrameConversion.YawFollowsPosition` | px4_ros2_cpp/include/px4_ros2/utils/frame_conversion.hpp:81-97 | for every sine and cosine: the conversions of yaw and of position agree on the way ahead |
| `Geometry.WrapPi` | px4_ros2_cpp/include/px4_ros2/utils/geometry.hpp:69-79 | the loops terminate with the angle in [-pi, pi) of the same direction |
| `Geometry.WrappedIsUnique` | px4_ros2_cpp/include/px4_ros2/utils/geometry.hpp:69-79 | there is only one such angle |
| `Geometry.WrapOfTurned` | px4_ros2_cpp/include/px4_ros2/utils/geometry.hpp:69-79 | whole turns do not matter |
| `Geometry.DegreesRoundTrip` | px4_ros2_cpp/include/px4_ros2/utils/geometry.hpp:38-50 | degrees and radians convert back exactly |

## Left out

- ROS nodes, publishers, subscriptions, timers and logging: messages are inputs, the answers of the vehicle to a
  command are parameters, and a timer is an event.
- The file system: the stored state is an optional JSON value, written whole or not at all; write and sync errors and
  the monitor of the mission file are not part of this model.
- Keys of JSON objects are ordered by code unit, as the bytes of a JSON text are; strings are not checked to be UTF-8.
- Threads: the library runs its callbacks in one executor thread, one after the other.
- MissionAbort.AbortsAreBounded: promises nothing about code inside an action that calls the executor's own `abort`.
- MissionCompletion.MissionCanBeCompleted: does not promise that the vehicle ever reaches a waypoint or ends a mode;
  it says that a mission is completed when it does. Missions with the resume action as an item are excluded: with the
  argument `resume` it may fly back after a landing, and with any other string it never completes.
- MissionRun.UninterruptedRun: excludes commands that set the index, aborts, deactivations and new missions, as the
  property is about runs without them.
- MissionSettings.SettingsSurviveInterruptions: excludes aborts, new missions, client code that sets the options or
  stores a settings entry itself, and resume actions that move the index, as the property is about the settings action
  alone; a stored state at the start is the matter of `SettingsSurviveLoading`.
- MissionPersistence.PersistedResumeAgrees: speaks about deactivations that return to idle before anything else
  happens, as the original calls everything they do synchronously.
- MissionFlights.UpdatesAlike: excludes updates whose callback installs a trajectory. In the executor that trajectory is
  started by a later step, for which `InstallsAlike` holds; the trajectory executor alone is covered by `UpdateInOrder`.
- MissionWindow.ReleaseLosesLoadedIff: speaks about the tokens of client code. That no token of the settings is held
  once a deactivation is over is part of `SettingsSurviveInterruptions`, `SettingsSurviveLoading` and
  `SettingsSurviveRestarts`, for the runs that those are about.
- ModeExecutors.CompletionExactlyOnce: promises nothing once the client has broken its contract.
- Custom trajectory executors and navigation items other than global waypoints.
- Deferring failsafes, automatic home position, activity info, readiness reports and their timing.
- Landing detection: one flag that may change at any time while nothing runs; that a sample older than three seconds
  does not count is folded into it.
- Heading, velocities and geodesic distance in the trajectory executor: the distance to the waypoint is an input.
- Floating point: reals, without rounding and without values that are not a number. Integers are unbounded.
- The numbers of the navigation states and of the deferral states come from the message definitions of PX4, which are
  not part of this model's source.
- Registration, arming checks, command retries and message compatibility; the registry of shared subscriptions.
- Euler angles, yaw rotation of points and yaw rates, variances: trigonometry or a copied sign.
- VTOL, setpoint messages, odometry, local and global measurement interfaces.
