# ISAR mission core in Dafny

This project models three parts of ISAR (Integration and Supervisory control of Autonomous
Robots) and proves properties of them:

- **The `Initiate` state of the mission state machine.** On entry, the state asks the robot to
  start the current task (in task mode) or the whole mission, and polls the request until it
  resolves. Each pass checks, in priority order: a stop request, a pause request, whether a
  current task exists, and the outcome of the outstanding request. Generic robot errors are
  retried until a failure counter reaches its configured limit. Infeasible tasks and missions
  record an error message on the task or mission. Every run fires exactly one transition event.
- **The scheduling API controller.** It covers:
  - the state guards of the pause, resume and stop commands;
  - the order of the checks of the start endpoints and the HTTP status of each refusal;
  - how the optional return pose appends one `ReturnToHome` task;
  - how the single-task missions are built;
  - how a started mission is projected into the API response.
- **The `Mission` record.** A mission has an ordered task list and an identifier that is always
  set after construction. Its status defaults to `NotStarted`.

Files:

- `wrappers.dfy`: `Option` and `Result`.
- `missions.dfy`, module `Missions`: tasks and missions.
- `initiate.dfy`, module `InitiateState`, in two layers:
  - A specification. `Pass` is one pass of the loop and `RunFrom` is a whole run over a finite
    sequence of observations. The lemmas about them state the priorities, the retry bound and
    the counter behaviour.
  - The imperative state object. `Initiate` has a failure counter and a request in flight, and
    its methods are proved to have exactly the effect `RunFrom` specifies.
- `scheduling.dfy`, module `Scheduling`: the controller.
  - Pure decision functions: `ControlGuard`, `ArmPoseCheck` and `ApiResponse`.
  - A `SchedulingController` class whose endpoint methods mutate missions in place. They log
    every call they make to their `SchedulingUtilities` collaborator.

The request thread in `Initiate` is replaced by a sequence of `Poll` observations. Each poll
says whether a stop or a pause was requested and what the request reported at that moment. The
source loops forever; a run over finitely many polls that decides nothing ends with no event.

## Model

| member | source | states |
|---|---|---|
| Missions.Mission.constructor | src/robot_interface/models/mission/mission.py:10-21 | the tasks are stored as given; a given id is kept; a missing id becomes the fresh id; the id is always set afterwards; a given status is kept, and a status left out is `NotStarted` |
| Missions.Mission.PostInit | src/robot_interface/models/mission/mission.py:19-21 | a present id is unchanged, and an absent id is replaced by the fresh one |
| Missions.Mission.SetUniqueId | src/robot_interface/models/mission/mission.py:16-17 | the id becomes the fresh identifier |
| Missions.Mission.AppendTask | src/isar/apis/schedule/scheduling_controller.py:64 | the task list becomes the old list followed by exactly the new task |
| Missions.TaskTypes | src/isar/apis/schedule/scheduling_controller.py:66-68 | the task types of a mission, on which the capability verdict is taken: one per task, in order, each the type of that task |
| Missions.TaskTypesAppend | src/isar/apis/schedule/scheduling_controller.py:62-68 | appending tasks appends their types, so the capability check after an append sees the old types followed by the new ones |
| InitiateState.Pass | src/isar/state_machine/states/initiate.py:48-130 | the definition of one pass: stop, then pause, then "no current task", then a request issued if none is in flight, then the reaction to the outcome observed; its properties are the lemmas below |
| InitiateState.RunFrom | src/isar/state_machine/states/initiate.py:47-130 | the definition of the whole loop: passes until one breaks out, with the counter and request state carried from pass to pass; its properties are the lemmas below |
| InitiateState.RunBounds | src/isar/state_machine/states/initiate.py:45-132 | the counter never decreases and ends at most at max(counter + 1, limit); at most one request is issued per pass, and none without a current task; the error message recorded matches the event (task error with `InitiateInfeasible`, or with `InitiateFailed` at the limit; mission error only with `InitiateFailed`) |
| InitiateState.WaitingChangesNothing | src/isar/state_machine/states/initiate.py:77-83 | passes whose request is not finished leave the counter and the outcome unchanged; they issue at most the one missing request |
| InitiateState.StopWins | src/isar/state_machine/states/initiate.py:48-50 | a stop request fires `Stop` whatever the pause flag, the task or the outcome; the counter is unchanged and no error is recorded |
| InitiateState.PauseWins | src/isar/state_machine/states/initiate.py:52-54 | a pause request without a stop request fires `Pause`, before the task and outcome checks |
| InitiateState.NoTaskFinishesMission | src/isar/state_machine/states/initiate.py:56-61 | without a current task (and no stop or pause) the run fires `MissionFinished` and issues no request |
| InitiateState.DecidingPass | src/isar/state_machine/states/initiate.py:77-128 | the deciding pass maps each outcome to its event. Success gives `Initiated`. An infeasible task gives `InitiateInfeasible` with a task error and the counter unchanged. An infeasible mission gives `InitiateFailed` with a mission error. A generic error adds exactly one to the counter; it then fails the task at the limit, or else retries with no request in flight |
| InitiateState.PersistentFailureAttempts | src/isar/state_machine/states/initiate.py:109-128 | if every attempt fails generically, exactly max(limit - counter, 1) requests are issued; the counter grows by that many; the task gets the last error and `InitiateFailed` is fired |
| InitiateState.FreshVisitAttempts | src/isar/state_machine/states/initiate.py:109-128 | from a fresh visit, persistent generic failures mean exactly max(limit, 1) attempts before `InitiateFailed` |
| InitiateState.InitiatedNeedsSuccess | src/isar/state_machine/states/initiate.py:77-80 | `Initiated` is fired only if some pass saw the request succeed; a run that only waits fires nothing |
| InitiateState.StateMachine.Fire | src/isar/state_machine/states/initiate.py:132 | the event is appended to the events fired |
| InitiateState.StateMachine.Send | src/isar/state_machine/states/initiate.py:139-142 | the request is appended to the requests sent to the robot |
| InitiateState.Initiate.constructor | src/isar/state_machine/states/initiate.py:24-33 | a new state object has counter 0 and no request in flight |
| InitiateState.Initiate.Stop | src/isar/state_machine/states/initiate.py:39-43 | the exit hook resets the counter to 0 and clears the request in flight |
| InitiateState.Initiate.RunInitiateThread | src/isar/state_machine/states/initiate.py:134-142 | the request becomes the one in flight, and it is sent to the robot exactly once |
| InitiateState.Initiate.RunPass | src/isar/state_machine/states/initiate.py:48-130 | one pass of the loop has exactly the effect of `Pass`: the event, the counter, the request in flight, the requests sent (the current task in task mode, otherwise the mission) and the error messages of the task and mission |
| InitiateState.Initiate.Loop | src/isar/state_machine/states/initiate.py:47-130 | the loop has exactly the effect of `RunFrom` on the counter, the request in flight, the requests sent and the error messages |
| InitiateState.Initiate.Run | src/isar/state_machine/states/initiate.py:45-132 | `_run` has the effect of `RunFrom` and fires exactly one transition: the event the loop broke out with |
| InitiateState.Initiate.Start | src/isar/state_machine/states/initiate.py:35-37 | the entry hook has the whole effect of `_run`: the event, the counter, the request in flight, the requests sent, the error messages, and exactly one transition fired; a visit that begins at rest runs from counter 0 with no request in flight |
| Scheduling.TaskResponses | src/isar/apis/schedule/scheduling_controller.py:311 | one response per task, same length and same order |
| Scheduling.TaskResponsesAppend | src/isar/apis/schedule/scheduling_controller.py:308-312 | the responses of appended tasks are appended to the response list |
| Scheduling.ResponseTypes | src/isar/apis/schedule/scheduling_controller.py:311 | for the same task list, the types in the response are exactly the types the capability check is asked about |
| Scheduling.ApiResponse | src/isar/apis/schedule/scheduling_controller.py:308-315 | the response id is the mission id, and the task list has the same length and order, each entry with that task's id, tag id and type |
| Scheduling.ControlGuard | src/isar/apis/schedule/scheduling_controller.py:149-194 | pause is refused exactly in Off, Idle, Initialize, Paused, Stop and Offline; resume is accepted only in Paused; stop is accepted in every state except Off; every refusal is a 409 naming the command and the state |
| Scheduling.GuardsNest | src/isar/apis/schedule/scheduling_controller.py:144-199 | no state accepts both pause and resume, and every state that accepts pause or resume also accepts stop |
| Scheduling.ArmPoseCheck | src/isar/apis/schedule/scheduling_controller.py:262-281 | the literal passes if and only if it is a valid arm pose; without valid poses the answer is "arm not supported", otherwise an unknown literal is "pose not supported"; both are 400 |
| Scheduling.AppendReturnHome | src/isar/apis/schedule/scheduling_controller.py:62-64 | without a return pose the tasks are unchanged; with one, the same tasks in the same order followed by exactly one untagged `ReturnToHome` to that pose, so the task types grow by exactly `ReturnToHome` |
| Scheduling.SchedulingController.ControlMission | src/isar/apis/schedule/scheduling_controller.py:144-199 | the state is read; a refused command is answered with the guard's 409 and never passed on; an accepted one is passed on once and its reply returned |
| Scheduling.SchedulingController.PauseMission | src/isar/apis/schedule/scheduling_controller.py:144-165 | pause is passed on exactly in Monitor and Initiate, and is otherwise a 409 without a pause call |
| Scheduling.SchedulingController.ResumeMission | src/isar/apis/schedule/scheduling_controller.py:167-182 | resume is passed on exactly in Paused, and is otherwise a 409 |
| Scheduling.SchedulingController.StopMission | src/isar/apis/schedule/scheduling_controller.py:184-199 | stop is a 409 only in Off, and is passed on in every other state |
| Scheduling.SchedulingController.StartMission | src/isar/apis/schedule/scheduling_controller.py:82-142 | a missing definition is a 422, before the state is read. The readiness refusal comes next, and leaves the tasks unchanged. A conversion error is a 400. The capability check sees the converted tasks only, and its refusal leaves the tasks unchanged. Afterwards exactly one `ReturnToHome` is appended if a return pose is given, the mission is started with the initial pose, and the response describes it |
| Scheduling.SchedulingController.StartMissionById | src/isar/apis/schedule/scheduling_controller.py:36-80 | readiness is checked before the lookup, and its refusal leaves the tasks unchanged; a lookup failure is returned. The return pose is appended before the capability check, which therefore sees the old types followed by `ReturnToHome`. The mission is then started and described |
| Scheduling.SchedulingController.StartSingleTask | src/isar/apis/schedule/scheduling_controller.py:211-222 | after the state read and the readiness check, a newly allocated mission with the fresh id, status `NotStarted` and exactly the one task is started with no initial pose; the response names it |
| Scheduling.SchedulingController.DriveTo | src/isar/apis/schedule/scheduling_controller.py:201-222 | on success, a new `NotStarted` mission with the fresh id and exactly one `ReturnToHome` to the target pose, started with no initial pose and named in the response; an absent pose fails with 500 after the readiness check |
| Scheduling.SchedulingController.StartLocalizationMission | src/isar/apis/schedule/scheduling_controller.py:224-249 | on success, a new `NotStarted` mission with the fresh id and exactly one `Localize` at the pose, started with no initial pose and named in the response; an absent pose fails with 500 after the readiness check |
| Scheduling.SchedulingController.StartMoveArmMission | src/isar/apis/schedule/scheduling_controller.py:251-296 | the arm checks come first and make no call; then the readiness check; on success, a new `NotStarted` mission with the fresh id and exactly one `MoveArm` to the literal, named in the response |

## Left out

- The upload worker (`isar/storage/uploader.py`) is not part of this model: its source is not available, only its tests.
- Threads, `wait_for_thread` and `time.sleep` in `Initiate` are left out. The request thread becomes the sequence of `Poll` observations. The exit hook's wait for the thread is not modelled.
- InitiateState.Initiate.Loop: the source loops until a pass breaks out. The model runs over finitely many polls, and when they run out it returns no event.
- The global transition table (`state_machine.py`) is not part of this model. The model records which event `Initiate` fires, not which state it leads to. `update_state` in the entry hook publishes the state and is left out.
- The robot calls `initiate_task` and `initiate_mission` are modelled only as requests logged in order. Their results arrive as `Poll` outcomes.
- Logging, and the formatting of error texts and log messages, are left out. `ErrorMessage` carries the robot exception's reason and description unchanged.
- FastAPI framing is left out: `Body`/`Path` defaults, `HTTPException` and status-code plumbing. A refusal is an `ApiError` with its status.
- The `SchedulingUtilities` collaborator is modelled as opaque verdicts plus a call log: state reading, readiness and capability checks, mission lookup, mission start and control commands. Failures of its own `start_mission`, `pause_mission`, `resume_mission` and `stop_mission` are not modelled. The controller's reply to a control command is the collaborator's reply, passed through.
- `to_isar_mission` and `get_mission` are not part of this model. The mission each produces, or its error, is a parameter of the endpoint.
- `verify_robot_capable_of_mission` receives the whole mission; the model takes its verdict as a function of the mission's task types alone (`TaskTypes`), with the robot setting `CAPABILITIES` folded into that function.
- The robot settings: `VALID_ARM_POSES` is a sequence, with an unset setting treated as empty.
- Pose conversion (`to_alitra_pose`) is left out. Poses are opaque values.
- UUID generation is left out. Fresh task and mission identifiers are parameters.
- Missions.Mission.SetUniqueId: the source assigns a `UUID` object rather than a string. The model stores the identifier as a string.
- `get_info` only echoes configuration and is left out.
- `robot_interface/models/mission/task.py`, `status.py` and `isar/state_machine/states_enum.py` are not part of this model. `Task` has only the fields the modelled code reads: id, tag id, kind and error message. A task built by the controller is untagged. `States` lists the members the modelled code and its tests refer to.
