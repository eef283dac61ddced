/**
 * The mission record of the robot interface (`robot_interface/models/mission/mission.py`)
 * and the parts of a task that the state machine and the scheduling API read or write.
 */
module Missions {
  import opened Wrappers

  /** An error reason and description copied from a robot exception onto a task or a mission. */
  datatype ErrorMessage = ErrorMessage(errorReason: string, errorDescription: string)

  /** A robot pose. Its geometry comes from an external library and is treated as an opaque value. */
  datatype Pose = Pose(position: seq<real>, orientation: seq<real>, frame: string)

  /** Life-cycle status of a mission; only `NotStarted` is used by the modelled code. */
  datatype MissionStatus =
    | NotStarted | InProgress | Paused | Failed | Cancelled | Successful | PartiallySuccessful

  /** The `type` tag that a task reports in API responses. */
  datatype TaskType = ReturnToHomeTask | LocalizeTask | MoveArmTask | InspectionTask(name: string)

  /** What a task asks the robot to do, with its parameters. */
  datatype TaskKind =
    | ReturnToHome(pose: Pose)
    | Localize(localizationPose: Pose)
    | MoveArm(armPose: string)
    | Inspection(name: string)
  {
    function Type(): TaskType {
      match this
      case ReturnToHome(_) => ReturnToHomeTask
      case Localize(_) => LocalizeTask
      case MoveArm(_) => MoveArmTask
      case Inspection(name) => InspectionTask(name)
    }
  }

  /**
   * A task of a mission. Its identity and parameters never change; its error message
   * is assigned in place when the robot refuses or fails to start it.
   */
  class Task {
    const id: string
    const tagId: Option<string>
    const kind: TaskKind
    var errorMessage: Option<ErrorMessage>

    constructor (id: string, tagId: Option<string>, kind: TaskKind)
      ensures this.id == id && this.tagId == tagId && this.kind == kind
      ensures errorMessage == None
    {
      this.id := id;
      this.tagId := tagId;
      this.kind := kind;
      errorMessage := None;
    }
  }

  /** The task types of a task list, in order. */
  function TaskTypes(tasks: seq<Task>): (types: seq<TaskType>)
    ensures |types| == |tasks|
    ensures forall i :: 0 <= i < |tasks| ==> types[i] == tasks[i].kind.Type()
  {
    if tasks == [] then [] else [tasks[0].kind.Type()] + TaskTypes(tasks[1..])
  }

  /** `TaskTypes` distributes over concatenation: appending tasks appends their types. */
  lemma {:induction false} TaskTypesAppend(front: seq<Task>, back: seq<Task>)
    ensures TaskTypes(front + back) == TaskTypes(front) + TaskTypes(back)
  {
    if front != [] {
      assert (front + back)[1..] == front[1..] + back;
      TaskTypesAppend(front[1..], back);
    }
  }

  /**
   * A mission: an ordered task list, an identifier and a status. The identifier may be
   * supplied by the caller; when it is not, construction assigns a fresh one, so a
   * constructed mission always has an identifier.
   */
  class Mission {
    var tasks: seq<Task>
    var id: Option<string>
    var status: MissionStatus
    /** Assigned dynamically by the Initiate state when the robot finds the mission infeasible. */
    var errorMessage: Option<ErrorMessage>

    /** True once construction has run: the identifier is set. */
    predicate HasId()
      reads this
    {
      id.Some?
    }

    /**
     * The dataclass constructor followed by `__post_init__`. A missing identifier (`None`,
     * or left to the default factory) becomes `freshId`, the value the UUID generator
     * would supply; a status left out defaults to `NotStarted`.
     */
    constructor (tasks: seq<Task>, id: Option<string>, status: Option<MissionStatus>, freshId: string)
      ensures this.tasks == tasks
      ensures id.Some? ==> this.id == id
      ensures id.None? ==> this.id == Some(freshId)
      ensures HasId()
      ensures this.status == (if status.None? then NotStarted else status.value)
      ensures errorMessage == None
    {
      this.tasks := tasks;
      this.id := id;
      this.status := if status.None? then NotStarted else status.value;
      errorMessage := None;
      new;
      PostInit(freshId);
    }

    /** `__post_init__`: replaces a missing identifier by a fresh one and keeps a given one. */
    method PostInit(freshId: string)
      modifies this`id
      ensures old(id).Some? ==> id == old(id)
      ensures old(id).None? ==> id == Some(freshId)
    {
      if id.None? {
        SetUniqueId(freshId);
      }
    }

    /** `_set_unique_id`: overwrites the identifier with a fresh one. */
    method SetUniqueId(freshId: string)
      modifies this`id
      ensures id == Some(freshId)
    {
      id := Some(freshId);
    }

    /** `mission.tasks.append(task)`, as the scheduling API does it. */
    method AppendTask(task: Task)
      modifies this`tasks
      ensures tasks == old(tasks) + [task]
    {
      tasks := tasks + [task];
    }
  }
}
