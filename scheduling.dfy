/**
 * The scheduling API controller (`isar/apis/schedule/scheduling_controller.py`): the state
 * guards of the pause, resume and stop commands, the checks and mission assembly of the
 * start endpoints, and the projection of a started mission into the API response.
 *
 * The collaborators the controller calls (`SchedulingUtilities`, the mission planner behind
 * `get_mission`, `to_isar_mission`, the robot settings) are not part of this model: they
 * appear as a call log with opaque verdicts, and the objects they produce arrive as
 * parameters.
 */
module Scheduling {
  import opened Wrappers
  import opened Missions

  /** The states of the ISAR state machine that the controller reads. */
  datatype States = Off | Idle | Initialize | Initiate | Monitor | Paused | Stop | Offline

  /** HTTP status codes the controller raises itself. */
  const BadRequest := 400
  const Conflict := 409
  const UnprocessableEntity := 422
  /** What the web framework answers when a handler fails with an unexpected exception. */
  const InternalServerError := 500

  /** The three mission control commands. */
  datatype Command = PauseCommand | ResumeCommand | StopCommand

  /** Why a request was refused; each reason carries the HTTP status it is answered with. */
  datatype ApiError =
    | DefinitionMissing
    | CannotCreateMission(reason: string)
    | InvalidState(command: Command, state: States)
    | ArmNotSupported
    | ArmPoseNotSupported(armPose: string)
    | PoseMissing
    | Rejected(status: int)
  {
    function Status(): int {
      match this
      case DefinitionMissing => UnprocessableEntity
      case CannotCreateMission(_) => BadRequest
      case InvalidState(_, _) => Conflict
      case ArmNotSupported => BadRequest
      case ArmPoseNotSupported(_) => BadRequest
      case PoseMissing => InternalServerError
      case Rejected(status) => status
    }
  }

  /** One task of a started mission, as the API reports it. */
  datatype TaskResponse = TaskResponse(id: string, tagId: Option<string>, taskType: TaskType)

  /** The answer to a start request: the mission's identifier and its tasks in order. */
  datatype StartMissionResponse = StartMissionResponse(id: string, tasks: seq<TaskResponse>)

  /** The answer to a control command, passed through from the collaborator unchanged. */
  datatype ControlMissionResponse = ControlMissionResponse(body: string)

  /** `_task_api_response`: the identifier, tag and type of a task. */
  function TaskApiResponse(task: Task): TaskResponse {
    TaskResponse(task.id, task.tagId, task.kind.Type())
  }

  /** The list comprehension of `_api_response`: one response per task, in order. */
  function TaskResponses(tasks: seq<Task>): (rs: seq<TaskResponse>)
    ensures |rs| == |tasks|
    ensures forall i :: 0 <= i < |tasks| ==> rs[i] == TaskApiResponse(tasks[i])
  {
    if tasks == [] then [] else [TaskApiResponse(tasks[0])] + TaskResponses(tasks[1..])
  }

  /** Appending tasks to a mission appends their responses. */
  lemma {:induction false} TaskResponsesAppend(front: seq<Task>, back: seq<Task>)
    ensures TaskResponses(front + back) == TaskResponses(front) + TaskResponses(back)
  {
    if front != [] {
      assert (front + back)[1..] == front[1..] + back;
      TaskResponsesAppend(front[1..], back);
    }
  }

  /** The types a response reports are the types the capability check is asked about. */
  lemma {:induction false} ResponseTypes(tasks: seq<Task>)
    ensures |TaskResponses(tasks)| == |TaskTypes(tasks)|
    ensures forall i :: 0 <= i < |tasks| ==> TaskResponses(tasks)[i].taskType == TaskTypes(tasks)[i]
  {
  }

  /** `_api_response`: a constructed mission's identifier and the responses of its tasks. */
  function ApiResponse(mission: Mission): (r: StartMissionResponse)
    reads mission
    requires mission.HasId()
    ensures Some(r.id) == mission.id
    ensures |r.tasks| == |mission.tasks|
    ensures forall i :: 0 <= i < |mission.tasks| ==>
      r.tasks[i].id == mission.tasks[i].id && r.tasks[i].tagId == mission.tasks[i].tagId
      && r.tasks[i].taskType == mission.tasks[i].kind.Type()
  {
    StartMissionResponse(mission.id.value, TaskResponses(mission.tasks))
  }

  /**
   * The state guard of a control command: pause needs `Monitor` or `Initiate`, resume needs
   * `Paused`, stop is refused only in `Off`. A refusal is a 409 naming command and state.
   */
  function ControlGuard(command: Command, state: States): (refusal: Option<ApiError>)
    ensures refusal.Some? ==> refusal.value == InvalidState(command, state)
    ensures refusal.Some? ==> refusal.value.Status() == Conflict
    ensures command == PauseCommand ==>
      (refusal.Some? <==> state in {Off, Idle, Initialize, States.Paused, Stop, Offline})
    ensures command == ResumeCommand ==>
      (refusal.None? <==> state == States.Paused)
    ensures command == StopCommand ==>
      (refusal.None? <==> state in {Idle, Initialize, Initiate, Monitor, States.Paused, Stop, Offline})
  {
    var accepted :=
      match command
      case PauseCommand => state == Monitor || state == Initiate
      case ResumeCommand => state == States.Paused
      case StopCommand => state != Off;
    if accepted then None else Some(InvalidState(command, state))
  }

  /** No state accepts both pause and resume, and every state that accepts either accepts stop. */
  lemma GuardsNest(state: States)
    ensures ControlGuard(PauseCommand, state).Some? || ControlGuard(ResumeCommand, state).Some?
    ensures ControlGuard(PauseCommand, state).None? ==> ControlGuard(StopCommand, state).None?
    ensures ControlGuard(ResumeCommand, state).None? ==> ControlGuard(StopCommand, state).None?
  {
  }

  /**
   * The arm checks of `start_move_arm_mission`: a robot without valid arm poses cannot move
   * its arm, and otherwise the literal must be one of them. Both refusals are 400.
   */
  function ArmPoseCheck(validArmPoses: seq<string>, armPose: string): (refusal: Option<ApiError>)
    ensures refusal.None? <==> armPose in validArmPoses
    ensures validArmPoses == [] ==> refusal == Some(ArmNotSupported)
    ensures validArmPoses != [] && armPose !in validArmPoses ==>
      refusal == Some(ArmPoseNotSupported(armPose))
    ensures refusal.Some? ==> refusal.value.Status() == BadRequest
  {
    if |validArmPoses| == 0 then Some(ArmNotSupported)
    else if armPose !in validArmPoses then Some(ArmPoseNotSupported(armPose))
    else None
  }

  /**
   * The task list after the optional return pose is handled: unchanged without a pose, and
   * with one, the same tasks in the same order followed by exactly one `ReturnToHome` to it.
   */
  ghost predicate ReturnHomeAppended(before: seq<Task>, after: seq<Task>, returnPose: Option<Pose>, taskId: string)
  {
    if returnPose.None? then after == before
    else
      && |after| == |before| + 1
      && after[..|before|] == before
      && after[|before|].kind == ReturnToHome(returnPose.value)
      && after[|before|].id == taskId && after[|before|].tagId == None
  }

  /** The mission started by the call after the first `n` of `log`, if that call starts one. */
  function StartedAt(log: seq<Call>, n: nat): set<Mission> {
    if n < |log| && log[n].MissionStart? then {log[n].mission} else {}
  }

  /**
   * The log of a single-task start that passed the readiness check: the state read, the
   * check, and the start, with no initial pose, of a mission named `missionId` and still
   * `NotStarted`, holding one task of `kind` named `taskId`.
   */
  ghost predicate StartedAlone(before: seq<Call>, after: seq<Call>, state: States, kind: TaskKind,
                               taskId: string, missionId: string)
    reads StartedAt(after, |before| + 2)
  {
    && |after| == |before| + 3
    && after[..|before| + 2] == before + [StateRead] + [ReadyCheck(state)]
    && var started := after[|before| + 2];
       && started.MissionStart? && started.initialPose == None
       && |started.tasks| == 1 && started.tasks[0].kind == kind
       && started.tasks[0].id == taskId
       && started.mission.id == Some(missionId) && started.mission.status == NotStarted
  }

  /** A request the controller makes of `SchedulingUtilities`, in the order it makes them. */
  datatype Call =
    | StateRead
    | ReadyCheck(state: States)
    | MissionLookup(missionId: string)
    | CapabilityCheck(types: seq<TaskType>)
    | MissionStart(mission: Mission, tasks: seq<Task>, initialPose: Option<Pose>)
    | ControlRequest(command: Command)

  /**
   * The controller's collaborator. The state it reports, the verdicts of its readiness and
   * capability checks (the status of the exception raised, or `None` to pass) and its
   * replies to control commands are supplied from outside; every call is logged.
   */
  class SchedulingUtilities {
    var state: States
    const readyCheck: States -> Option<int>
    const capabilityCheck: seq<TaskType> -> Option<int>
    const controlReply: Command -> ControlMissionResponse
    var calls: seq<Call>

    constructor (state: States, readyCheck: States -> Option<int>,
                 capabilityCheck: seq<TaskType> -> Option<int>,
                 controlReply: Command -> ControlMissionResponse)
      ensures this.state == state && this.readyCheck == readyCheck
      ensures this.capabilityCheck == capabilityCheck && this.controlReply == controlReply
      ensures calls == []
    {
      this.state := state;
      this.readyCheck := readyCheck;
      this.capabilityCheck := capabilityCheck;
      this.controlReply := controlReply;
      calls := [];
    }

    /** `get_state`. */
    method GetState() returns (s: States)
      modifies this`calls
      ensures s == state && calls == old(calls) + [StateRead]
    {
      s := state;
      calls := calls + [StateRead];
    }

    /** `verify_state_machine_ready_to_receive_mission`. */
    method VerifyReady(s: States) returns (refusal: Option<int>)
      modifies this`calls
      ensures refusal == readyCheck(s) && calls == old(calls) + [ReadyCheck(s)]
    {
      refusal := readyCheck(s);
      calls := calls + [ReadyCheck(s)];
    }

    /** `get_mission`: `found` is what the mission planner answers for `missionId`. */
    method GetMission(missionId: string, found: Result<Mission, int>) returns (r: Result<Mission, int>)
      modifies this`calls
      ensures r == found && calls == old(calls) + [MissionLookup(missionId)]
    {
      r := found;
      calls := calls + [MissionLookup(missionId)];
    }

    /** `verify_robot_capable_of_mission`: the verdict on the mission's task types. */
    method VerifyCapable(mission: Mission) returns (refusal: Option<int>)
      modifies this`calls
      ensures refusal == capabilityCheck(TaskTypes(mission.tasks))
      ensures calls == old(calls) + [CapabilityCheck(TaskTypes(mission.tasks))]
    {
      refusal := capabilityCheck(TaskTypes(mission.tasks));
      calls := calls + [CapabilityCheck(TaskTypes(mission.tasks))];
    }

    /** `start_mission`: hands the mission, with its tasks as they are now, to the state machine. */
    method StartMission(mission: Mission, initialPose: Option<Pose>)
      modifies this`calls
      ensures calls == old(calls) + [MissionStart(mission, mission.tasks, initialPose)]
    {
      calls := calls + [MissionStart(mission, mission.tasks, initialPose)];
    }

    /** `pause_mission`, `resume_mission` and `stop_mission`. */
    method Control(command: Command) returns (reply: ControlMissionResponse)
      modifies this`calls
      ensures reply == controlReply(command) && calls == old(calls) + [ControlRequest(command)]
    {
      reply := controlReply(command);
      calls := calls + [ControlRequest(command)];
    }
  }

  /**
   * The return-pose step of both start paths (`mission.tasks.append(ReturnToHome(pose=pose))`
   * when a return pose is given): the task types grow by exactly one `ReturnToHome`.
   */
  method AppendReturnHome(mission: Mission, returnPose: Option<Pose>, freshTaskId: string)
    modifies mission`tasks
    ensures ReturnHomeAppended(old(mission.tasks), mission.tasks, returnPose, freshTaskId)
    ensures TaskTypes(mission.tasks)
         == TaskTypes(old(mission.tasks)) + (if returnPose.Some? then [ReturnToHomeTask] else [])
  {
    if returnPose.Some? {
      var task := new Task(freshTaskId, None, ReturnToHome(returnPose.value));
      mission.AppendTask(task);
      TaskTypesAppend(old(mission.tasks), [task]);
      assert TaskTypes([task]) == [ReturnToHomeTask];
    } else {
      assert TaskTypes(mission.tasks) + [] == TaskTypes(mission.tasks);
    }
  }

  /** The missions a start request may carry. */
  function Carried(definition: Option<Result<Mission, string>>): set<Mission> {
    if definition.Some? && definition.value.Success? then {definition.value.value} else {}
  }

  /** The mission a lookup may return. */
  function Found(found: Result<Mission, int>): set<Mission> {
    if found.Success? then {found.value} else {}
  }

  /** The API controller. `validArmPoses` is the robot setting `VALID_ARM_POSES`. */
  class SchedulingController {
    const utilities: SchedulingUtilities
    const validArmPoses: seq<string>

    constructor (utilities: SchedulingUtilities, validArmPoses: seq<string>)
      ensures this.utilities == utilities && this.validArmPoses == validArmPoses
    {
      this.utilities := utilities;
      this.validArmPoses := validArmPoses;
    }

    /**
     * `pause_mission`, `resume_mission` and `stop_mission`: read the state, and either refuse
     * the command with 409 without passing it on, or pass it on and return the reply.
     */
    method ControlMission(command: Command) returns (r: Result<ControlMissionResponse, ApiError>)
      modifies utilities`calls
      ensures var refusal := ControlGuard(command, old(utilities.state));
        if refusal.Some? then
          && r == Failure(refusal.value)
          && utilities.calls == old(utilities.calls) + [StateRead]
        else
          && r == Success(utilities.controlReply(command))
          && utilities.calls == old(utilities.calls) + [StateRead] + [ControlRequest(command)]
    {
      var state := utilities.GetState();
      var refusal := ControlGuard(command, state);
      if refusal.Some? {
        return Failure(refusal.value);
      }
      var reply := utilities.Control(command);
      return Success(reply);
    }

    /** `pause_mission`. */
    method PauseMission() returns (r: Result<ControlMissionResponse, ApiError>)
      modifies utilities`calls
      ensures old(utilities.state) in {Monitor, Initiate} ==>
        && r == Success(utilities.controlReply(PauseCommand))
        && utilities.calls == old(utilities.calls) + [StateRead] + [ControlRequest(PauseCommand)]
      ensures old(utilities.state) !in {Monitor, Initiate} ==>
        && r == Failure(InvalidState(PauseCommand, old(utilities.state)))
        && utilities.calls == old(utilities.calls) + [StateRead]
    {
      r := ControlMission(PauseCommand);
    }

    /** `resume_mission`. */
    method ResumeMission() returns (r: Result<ControlMissionResponse, ApiError>)
      modifies utilities`calls
      ensures old(utilities.state) == States.Paused ==>
        && r == Success(utilities.controlReply(ResumeCommand))
        && utilities.calls == old(utilities.calls) + [StateRead] + [ControlRequest(ResumeCommand)]
      ensures old(utilities.state) != States.Paused ==>
        && r == Failure(InvalidState(ResumeCommand, old(utilities.state)))
        && utilities.calls == old(utilities.calls) + [StateRead]
    {
      r := ControlMission(ResumeCommand);
    }

    /** `stop_mission`. */
    method StopMission() returns (r: Result<ControlMissionResponse, ApiError>)
      modifies utilities`calls
      ensures old(utilities.state) != Off ==>
        && r == Success(utilities.controlReply(StopCommand))
        && utilities.calls == old(utilities.calls) + [StateRead] + [ControlRequest(StopCommand)]
      ensures old(utilities.state) == Off ==>
        && r == Failure(InvalidState(StopCommand, Off))
        && utilities.calls == old(utilities.calls) + [StateRead]
    {
      r := ControlMission(StopCommand);
    }

    /**
     * `start_mission`. `definition` is the mission definition in the request body, given as
     * what `to_isar_mission` makes of it (a mission, or the planner error's text); `None`
     * when the body has none. The capability check sees the converted tasks; the return pose,
     * if given, is appended after it. `freshTaskId` is the identifier the new task receives.
     */
    method StartMission(definition: Option<Result<Mission, string>>, initialPose: Option<Pose>,
                        returnPose: Option<Pose>, freshTaskId: string)
      returns (r: Result<StartMissionResponse, ApiError>)
      requires definition.Some? && definition.value.Success? ==> definition.value.value.HasId()
      modifies utilities`calls, Carried(definition)`tasks
      ensures definition.None? ==>
        r == Failure(DefinitionMissing) && utilities.calls == old(utilities.calls)
      ensures var s := old(utilities.state);
        definition.Some? && utilities.readyCheck(s).Some? ==>
          && r == Failure(Rejected(utilities.readyCheck(s).value))
          && utilities.calls == old(utilities.calls) + [StateRead] + [ReadyCheck(s)]
          && (definition.value.Success? ==> definition.value.value.tasks == old(definition.value.value.tasks))
      ensures var s := old(utilities.state);
        definition.Some? && utilities.readyCheck(s).None? && definition.value.Failure? ==>
          && r == Failure(CannotCreateMission(definition.value.error))
          && utilities.calls == old(utilities.calls) + [StateRead] + [ReadyCheck(s)]
      ensures var s := old(utilities.state);
        definition.Some? && utilities.readyCheck(s).None? && definition.value.Success? ==>
          var m := definition.value.value;
          var checked := TaskTypes(old(m.tasks));
          if utilities.capabilityCheck(checked).Some? then
            && r == Failure(Rejected(utilities.capabilityCheck(checked).value))
            && m.tasks == old(m.tasks)
            && utilities.calls == old(utilities.calls) + [StateRead] + [ReadyCheck(s)]
                 + [CapabilityCheck(checked)]
          else
            && ReturnHomeAppended(old(m.tasks), m.tasks, returnPose, freshTaskId)
            && r == Success(ApiResponse(m))
            && utilities.calls == old(utilities.calls) + [StateRead] + [ReadyCheck(s)]
                 + [CapabilityCheck(checked)] + [MissionStart(m, m.tasks, initialPose)]
    {
      if definition.None? {
        return Failure(DefinitionMissing);
      }
      var state := utilities.GetState();
      var refusal := utilities.VerifyReady(state);
      if refusal.Some? {
        return Failure(Rejected(refusal.value));
      }
      if definition.value.Failure? {
        return Failure(CannotCreateMission(definition.value.error));
      }
      var mission := definition.value.value;
      refusal := utilities.VerifyCapable(mission);
      if refusal.Some? {
        return Failure(Rejected(refusal.value));
      }
      AppendReturnHome(mission, returnPose, freshTaskId);
      utilities.StartMission(mission, initialPose);
      r := Success(ApiResponse(mission));
    }

    /**
     * `start_mission_by_id`. `found` is what the mission planner answers for `missionId`: a
     * mission, or the status of the exception it raises. Here the return pose, if given, is
     * appended before the capability check, so the check sees the `ReturnToHome` as well.
     */
    method StartMissionById(missionId: string, initialPose: Option<Pose>, returnPose: Option<Pose>,
                            found: Result<Mission, int>, freshTaskId: string)
      returns (r: Result<StartMissionResponse, ApiError>)
      requires found.Success? ==> found.value.HasId()
      modifies utilities`calls, Found(found)`tasks
      ensures var s := old(utilities.state);
        utilities.readyCheck(s).Some? ==>
          && r == Failure(Rejected(utilities.readyCheck(s).value))
          && utilities.calls == old(utilities.calls) + [StateRead] + [ReadyCheck(s)]
          && (found.Success? ==> found.value.tasks == old(found.value.tasks))
      ensures var s := old(utilities.state);
        utilities.readyCheck(s).None? && found.Failure? ==>
          && r == Failure(Rejected(found.error))
          && utilities.calls == old(utilities.calls) + [StateRead] + [ReadyCheck(s)] + [MissionLookup(missionId)]
      ensures var s := old(utilities.state);
        utilities.readyCheck(s).None? && found.Success? ==>
          var m := found.value;
          var checked := TaskTypes(old(m.tasks)) + (if returnPose.Some? then [ReturnToHomeTask] else []);
          && ReturnHomeAppended(old(m.tasks), m.tasks, returnPose, freshTaskId)
          && if utilities.capabilityCheck(checked).Some? then
               && r == Failure(Rejected(utilities.capabilityCheck(checked).value))
               && utilities.calls == old(utilities.calls) + [StateRead] + [ReadyCheck(s)] + [MissionLookup(missionId)]
                    + [CapabilityCheck(checked)]
             else
               && r == Success(ApiResponse(m))
               && utilities.calls == old(utilities.calls) + [StateRead] + [ReadyCheck(s)] + [MissionLookup(missionId)]
                    + [CapabilityCheck(checked)] + [MissionStart(m, m.tasks, initialPose)]
    {
      var state := utilities.GetState();
      var refusal := utilities.VerifyReady(state);
      if refusal.Some? {
        return Failure(Rejected(refusal.value));
      }
      var lookup := utilities.GetMission(missionId, found);
      if lookup.Failure? {
        return Failure(Rejected(lookup.error));
      }
      var mission := lookup.value;
      AppendReturnHome(mission, returnPose, freshTaskId);
      refusal := utilities.VerifyCapable(mission);
      if refusal.Some? {
        return Failure(Rejected(refusal.value));
      }
      utilities.StartMission(mission, initialPose);
      r := Success(ApiResponse(mission));
    }

    /**
     * The single-task start endpoints: read the state, pass the readiness check, build a new
     * mission holding `task` alone, start it with no initial pose and answer with it.
     */
    method StartSingleTask(task: Task, freshMissionId: string) returns (r: Result<StartMissionResponse, ApiError>)
      modifies utilities`calls
      ensures var s := old(utilities.state);
        if utilities.readyCheck(s).Some? then
          && r == Failure(Rejected(utilities.readyCheck(s).value))
          && utilities.calls == old(utilities.calls) + [StateRead] + [ReadyCheck(s)]
        else
          && r == Success(StartMissionResponse(freshMissionId, [TaskApiResponse(task)]))
          && StartedAlone(old(utilities.calls), utilities.calls, s, task.kind, task.id, freshMissionId)
          && utilities.calls[|old(utilities.calls)| + 2].tasks == [task]
          && fresh(utilities.calls[|old(utilities.calls)| + 2].mission)
    {
      var state := utilities.GetState();
      var refusal := utilities.VerifyReady(state);
      if refusal.Some? {
        return Failure(Rejected(refusal.value));
      }
      var mission := new Mission([task], None, None, freshMissionId);
      ghost var admitted := utilities.calls;
      utilities.StartMission(mission, None);
      assert utilities.calls[..|admitted|] == admitted;
      assert TaskResponses([task]) == [TaskApiResponse(task)];
      r := Success(ApiResponse(mission));
    }

    /**
     * `drive_to`: a mission with one `ReturnToHome` to the target pose. An absent pose is
     * dereferenced after the readiness check, which the framework answers with 500.
     */
    method DriveTo(targetPose: Option<Pose>, freshTaskId: string, freshMissionId: string)
      returns (r: Result<StartMissionResponse, ApiError>)
      modifies utilities`calls
      ensures var s := old(utilities.state);
        utilities.readyCheck(s).None? && targetPose.Some? ==>
          && r == Success(StartMissionResponse(freshMissionId, [TaskResponse(freshTaskId, None, ReturnToHomeTask)]))
          && StartedAlone(old(utilities.calls), utilities.calls, s, ReturnToHome(targetPose.value), freshTaskId, freshMissionId)
          && fresh(utilities.calls[|old(utilities.calls)| + 2].mission)
      ensures var s := old(utilities.state);
        utilities.readyCheck(s).None? && targetPose.None? ==>
          r == Failure(PoseMissing) && utilities.calls == old(utilities.calls) + [StateRead] + [ReadyCheck(s)]
      ensures var s := old(utilities.state);
        utilities.readyCheck(s).Some? ==>
          && r == Failure(Rejected(utilities.readyCheck(s).value))
          && utilities.calls == old(utilities.calls) + [StateRead] + [ReadyCheck(s)]
    {
      if targetPose.None? {
        var state := utilities.GetState();
        var refusal := utilities.VerifyReady(state);
        if refusal.Some? {
          return Failure(Rejected(refusal.value));
        }
        return Failure(PoseMissing);
      }
      var task := new Task(freshTaskId, None, ReturnToHome(targetPose.value));
      r := StartSingleTask(task, freshMissionId);
    }

    /** `start_localization_mission`: a mission with one `Localize` at the given pose. */
    method StartLocalizationMission(localizationPose: Option<Pose>, freshTaskId: string, freshMissionId: string)
      returns (r: Result<StartMissionResponse, ApiError>)
      modifies utilities`calls
      ensures var s := old(utilities.state);
        utilities.readyCheck(s).None? && localizationPose.Some? ==>
          && r == Success(StartMissionResponse(freshMissionId, [TaskResponse(freshTaskId, None, LocalizeTask)]))
          && StartedAlone(old(utilities.calls), utilities.calls, s, Localize(localizationPose.value), freshTaskId, freshMissionId)
          && fresh(utilities.calls[|old(utilities.calls)| + 2].mission)
      ensures var s := old(utilities.state);
        utilities.readyCheck(s).None? && localizationPose.None? ==>
          r == Failure(PoseMissing) && utilities.calls == old(utilities.calls) + [StateRead] + [ReadyCheck(s)]
      ensures var s := old(utilities.state);
        utilities.readyCheck(s).Some? ==>
          && r == Failure(Rejected(utilities.readyCheck(s).value))
          && utilities.calls == old(utilities.calls) + [StateRead] + [ReadyCheck(s)]
    {
      if localizationPose.None? {
        var state := utilities.GetState();
        var refusal := utilities.VerifyReady(state);
        if refusal.Some? {
          return Failure(Rejected(refusal.value));
        }
        return Failure(PoseMissing);
      }
      var task := new Task(freshTaskId, None, Localize(localizationPose.value));
      r := StartSingleTask(task, freshMissionId);
    }

    /**
     * `start_move_arm_mission`: the arm checks come first and consult nothing; then a mission
     * with one `MoveArm` to the literal.
     */
    method StartMoveArmMission(armPose: string, freshTaskId: string, freshMissionId: string)
      returns (r: Result<StartMissionResponse, ApiError>)
      modifies utilities`calls
      ensures ArmPoseCheck(validArmPoses, armPose).Some? ==>
        r == Failure(ArmPoseCheck(validArmPoses, armPose).value) && utilities.calls == old(utilities.calls)
      ensures var s := old(utilities.state);
        ArmPoseCheck(validArmPoses, armPose).None? && utilities.readyCheck(s).Some? ==>
          && r == Failure(Rejected(utilities.readyCheck(s).value))
          && utilities.calls == old(utilities.calls) + [StateRead] + [ReadyCheck(s)]
      ensures var s := old(utilities.state);
        ArmPoseCheck(validArmPoses, armPose).None? && utilities.readyCheck(s).None? ==>
          && r == Success(StartMissionResponse(freshMissionId, [TaskResponse(freshTaskId, None, MoveArmTask)]))
          && StartedAlone(old(utilities.calls), utilities.calls, s, MoveArm(armPose), freshTaskId, freshMissionId)
          && fresh(utilities.calls[|old(utilities.calls)| + 2].mission)
    {
      var refusal := ArmPoseCheck(validArmPoses, armPose);
      if refusal.Some? {
        return Failure(refusal.value);
      }
      var task := new Task(freshTaskId, None, MoveArm(armPose));
      r := StartSingleTask(task, freshMissionId);
    }
  }
}
