/**
 * The Initiate state of the mission state machine (`isar/state_machine/states/initiate.py`).
 *
 * On entry the state asks the robot to start the current task (or the whole mission) and
 * polls until that request resolves, checking on every pass, in this order: a stop
 * request, a pause request, whether there is a current task at all, and the outcome of
 * the outstanding request. Generic robot errors are retried until a failure counter
 * reaches its configured limit. Every run ends in exactly one transition event.
 *
 * The request runs on a thread in the source; here each pass of the loop observes one
 * `Poll`: the two request flags and what the outstanding request reports at that moment.
 */
module InitiateState {
  import opened Wrappers
  import opened Missions

  /** The transition events the Initiate state can fire. */
  datatype Event = Initiated | InitiateInfeasible | InitiateFailed | Stop | Pause | MissionFinished

  /** What the outstanding initiate request reports when asked for its output. */
  datatype RequestOutcome =
    | NotFinished
    | Succeeded
    | InfeasibleTask(error: ErrorMessage)
    | InfeasibleMission(error: ErrorMessage)
    | RobotFailure(error: ErrorMessage)

  /** What one pass of the loop observes. */
  datatype Poll = Poll(stopRequested: bool, pauseRequested: bool, outcome: RequestOutcome)

  /** A request sent to the robot: initiate one task, or initiate the whole mission. */
  datatype Request = InitiateTask(task: Task) | InitiateMission(mission: Mission)

  /** Where a run records an error message, if anywhere. */
  datatype ErrorTarget = NoError | TaskError(error: ErrorMessage) | MissionError(error: ErrorMessage)

  /**
   * The effect of a run over a finite sequence of polls: the event fired (None when the
   * polls ran out while the source would still be looping), the final failure counter,
   * whether a request is still outstanding, how many requests were issued, and the error
   * message recorded.
   */
  datatype RunResult = RunResult(
    event: Option<Event>, counter: int, outstanding: bool, issued: nat, error: ErrorTarget)

  function Max(a: int, b: int): int { if a < b then b else a }

  /** `r` with `n` more issued requests, all else equal. */
  function Extend(r: RunResult, n: nat): RunResult {
    r.(issued := r.issued + n)
  }

  /** The error recorded agrees with the event fired; a task-level failure needs the limit reached. */
  predicate ErrorMatchesEvent(r: RunResult, limit: int) {
    match r.error
    case NoError => r.event != Some(InitiateInfeasible) && r.event != Some(InitiateFailed)
    case TaskError(_) =>
      r.event == Some(InitiateInfeasible) || (r.event == Some(InitiateFailed) && r.counter >= limit)
    case MissionError(_) => r.event == Some(InitiateFailed)
  }

  /**
   * One pass of the `_run` loop from failure counter `counter`, with (`outstanding`) or
   * without a request in flight: the checks in their priority order, the request issued
   * when none is in flight, and the reaction to the outcome observed. An event means the
   * loop breaks; without one the loop goes on from the counter and request state given.
   */
  function Pass(limit: int, hasTask: bool, counter: int, outstanding: bool, p: Poll): RunResult {
    if p.stopRequested then RunResult(Some(Stop), counter, outstanding, 0, NoError)
    else if p.pauseRequested then RunResult(Some(Pause), counter, outstanding, 0, NoError)
    else if !hasTask then RunResult(Some(MissionFinished), counter, outstanding, 0, NoError)
    else
      var issuedNow := if outstanding then 0 else 1;
      match p.outcome
      case NotFinished => RunResult(None, counter, true, issuedNow, NoError)
      case Succeeded => RunResult(Some(Initiated), counter, true, issuedNow, NoError)
      case InfeasibleTask(e) => RunResult(Some(InitiateInfeasible), counter, true, issuedNow, TaskError(e))
      case InfeasibleMission(e) => RunResult(Some(InitiateFailed), counter, true, issuedNow, MissionError(e))
      case RobotFailure(e) =>
        if counter + 1 >= limit then RunResult(Some(InitiateFailed), counter + 1, false, issuedNow, TaskError(e))
        else RunResult(None, counter + 1, false, issuedNow, NoError)
  }

  /** Specification of `_run`: the effect of running the loop over the observations `polls`. */
  function RunFrom(limit: int, hasTask: bool, counter: int, outstanding: bool, polls: seq<Poll>): RunResult
    decreases |polls|
  {
    if polls == [] then RunResult(None, counter, outstanding, 0, NoError)
    else
      var p := Pass(limit, hasTask, counter, outstanding, polls[0]);
      if p.event.Some? then p
      else Extend(RunFrom(limit, hasTask, p.counter, p.outstanding, polls[1..]), p.issued)
  }

  /** A run from pass `i` on is decided by that pass, or goes on from the state it leaves. */
  lemma RunFromFirstPass(limit: int, hasTask: bool, counter: int, outstanding: bool, polls: seq<Poll>, i: nat)
    requires i < |polls|
    ensures var p := Pass(limit, hasTask, counter, outstanding, polls[i]);
      RunFrom(limit, hasTask, counter, outstanding, polls[i..])
      == if p.event.Some? then p else Extend(RunFrom(limit, hasTask, p.counter, p.outstanding, polls[i + 1..]), p.issued)
  {
    assert polls[i..][0] == polls[i] && polls[i..][1..] == polls[i + 1..];
  }

  /**
   * Bounds of every run: the failure counter only grows, and by at most one past the
   * limit; at most one request is issued per pass and none without a current task; an
   * error message is recorded exactly with the events that carry one.
   */
  lemma {:induction false} RunBounds(limit: int, hasTask: bool, counter: int, outstanding: bool, polls: seq<Poll>)
    ensures var r := RunFrom(limit, hasTask, counter, outstanding, polls);
      && counter <= r.counter <= Max(counter + 1, limit)
      && r.issued <= |polls|
      && (!hasTask ==> r.issued == 0 && r.counter == counter)
      && ErrorMatchesEvent(r, limit)
      && (r.event.None? ==> r.error == NoError)
    decreases |polls|
  {
    if polls != [] {
      var p := Pass(limit, hasTask, counter, outstanding, polls[0]);
      if p.event.None? {
        RunBounds(limit, hasTask, p.counter, p.outstanding, polls[1..]);
      }
    }
  }

  /** A pass that decides nothing: no stop, no pause, and the request still running. */
  predicate Waiting(p: Poll) {
    !p.stopRequested && !p.pauseRequested && p.outcome == NotFinished
  }

  /** A pass that ends in a generic robot error, with no stop or pause request. */
  predicate GenericFailure(p: Poll) {
    !p.stopRequested && !p.pauseRequested && p.outcome.RobotFailure?
  }

  /**
   * Passes in which the request is still running change nothing: not the counter, not the
   * outcome. At most they issue the one request that was missing.
   */
  lemma {:induction false} WaitingChangesNothing(limit: int, counter: int, outstanding: bool, polls: seq<Poll>, k: nat)
    requires k <= |polls|
    decreases k
    requires forall j :: 0 <= j < k ==> Waiting(polls[j])
    ensures RunFrom(limit, true, counter, outstanding, polls)
         == Extend(RunFrom(limit, true, counter, outstanding || k > 0, polls[k..]),
                   if !outstanding && k > 0 then 1 else 0)
  {
    if k > 0 {
      assert Waiting(polls[0]);
      WaitingChangesNothing(limit, counter, true, polls[1..], k - 1);
      assert polls[1..][k - 1..] == polls[k..];
    }
  }

  /**
   * A stop request wins over everything else: whatever came before it was only waiting,
   * the run fires `Stop`, keeps the counter and records no error, whatever the pause flag,
   * the current task or the request outcome of that pass.
   */
  lemma StopWins(limit: int, hasTask: bool, counter: int, outstanding: bool, polls: seq<Poll>, k: nat)
    requires k < |polls| && (hasTask || k == 0)
    requires forall j :: 0 <= j < k ==> Waiting(polls[j])
    requires polls[k].stopRequested
    ensures var r := RunFrom(limit, hasTask, counter, outstanding, polls);
      && r.event == Some(Stop) && r.counter == counter && r.error == NoError
      && r.issued == (if !outstanding && k > 0 then 1 else 0)
  {
    if k > 0 {
      WaitingChangesNothing(limit, counter, outstanding, polls, k);
    }
  }

  /** A pause request without a stop request fires `Pause`, before any task or outcome check. */
  lemma PauseWins(limit: int, hasTask: bool, counter: int, outstanding: bool, polls: seq<Poll>, k: nat)
    requires k < |polls| && (hasTask || k == 0)
    requires forall j :: 0 <= j < k ==> Waiting(polls[j])
    requires !polls[k].stopRequested && polls[k].pauseRequested
    ensures var r := RunFrom(limit, hasTask, counter, outstanding, polls);
      && r.event == Some(Pause) && r.counter == counter && r.error == NoError
      && r.issued == (if !outstanding && k > 0 then 1 else 0)
  {
    if k > 0 {
      WaitingChangesNothing(limit, counter, outstanding, polls, k);
    }
  }

  /**
   * Without a current task the mission is finished: the first pass without a stop or
   * pause request fires `MissionFinished`, and no request is ever issued.
   */
  lemma NoTaskFinishesMission(limit: int, counter: int, outstanding: bool, polls: seq<Poll>)
    requires polls != [] && !polls[0].stopRequested && !polls[0].pauseRequested
    ensures var r := RunFrom(limit, false, counter, outstanding, polls);
      r.event == Some(MissionFinished) && r.issued == 0 && r.counter == counter
  {
  }

  /**
   * The first pass that is not merely waiting decides the run by the request outcome it
   * observes. Infeasible outcomes and success leave the counter as it was; a generic
   * error adds exactly one, and either fails the task at the limit or starts over with
   * no request in flight.
   */
  lemma DecidingPass(limit: int, counter: int, outstanding: bool, polls: seq<Poll>, k: nat)
    requires k < |polls|
    requires forall j :: 0 <= j < k ==> Waiting(polls[j])
    requires !polls[k].stopRequested && !polls[k].pauseRequested
    ensures var r := RunFrom(limit, true, counter, outstanding, polls);
      var issuedHere := if outstanding then 0 else 1;
      match polls[k].outcome
      case NotFinished => true
      case Succeeded =>
        r.event == Some(Initiated) && r.counter == counter && r.error == NoError && r.issued == issuedHere
      case InfeasibleTask(e) =>
        r.event == Some(InitiateInfeasible) && r.counter == counter && r.error == TaskError(e) && r.issued == issuedHere
      case InfeasibleMission(e) =>
        r.event == Some(InitiateFailed) && r.counter == counter && r.error == MissionError(e) && r.issued == issuedHere
      case RobotFailure(e) =>
        if counter + 1 >= limit then
          r.event == Some(InitiateFailed) && r.counter == counter + 1 && r.error == TaskError(e)
          && !r.outstanding && r.issued == issuedHere
        else
          r == Extend(RunFrom(limit, true, counter + 1, false, polls[k + 1..]), issuedHere)
  {
    WaitingChangesNothing(limit, counter, outstanding, polls, k);
    var rest := polls[k..];
    assert rest[0] == polls[k] && rest[1..] == polls[k + 1..];
  }

  /**
   * When every attempt fails with a generic robot error, the state issues exactly
   * max(limit - counter, 1) requests, one per failure, and then fails the task with the
   * last error.
   */
  lemma {:induction false} PersistentFailureAttempts(limit: int, counter: int, polls: seq<Poll>)
    decreases |polls|
    requires |polls| >= Max(limit - counter, 1)
    requires forall j :: 0 <= j < Max(limit - counter, 1) ==> GenericFailure(polls[j])
    ensures GenericFailure(polls[Max(limit - counter, 1) - 1])
    ensures var n := Max(limit - counter, 1);
      var r := RunFrom(limit, true, counter, false, polls);
      && r.event == Some(InitiateFailed) && r.issued == n && r.counter == counter + n
      && r.error == TaskError(polls[n - 1].outcome.error)
  {
    assert GenericFailure(polls[0]);
    if counter + 1 < limit {
      assert forall j :: 0 <= j < Max(limit - (counter + 1), 1) ==> polls[1..][j] == polls[j + 1];
      PersistentFailureAttempts(limit, counter + 1, polls[1..]);
    }
  }

  /** A fresh visit (counter 0, nothing outstanding) that only meets generic errors makes max(limit, 1) attempts. */
  lemma FreshVisitAttempts(limit: int, polls: seq<Poll>)
    requires |polls| >= Max(limit, 1)
    requires forall j :: 0 <= j < Max(limit, 1) ==> GenericFailure(polls[j])
    ensures var r := RunFrom(limit, true, 0, false, polls);
      r.event == Some(InitiateFailed) && r.issued == Max(limit, 1)
  {
    PersistentFailureAttempts(limit, 0, polls);
  }

  /**
   * `Initiated` is fired only after some pass observed the request succeed, and a run
   * that never meets a stop, a pause or an outcome other than "still running" fires nothing.
   */
  lemma {:induction false} InitiatedNeedsSuccess(limit: int, hasTask: bool, counter: int, outstanding: bool, polls: seq<Poll>)
    decreases |polls|
    ensures RunFrom(limit, hasTask, counter, outstanding, polls).event == Some(Initiated) ==>
      exists j :: 0 <= j < |polls| && polls[j].outcome == Succeeded
    ensures hasTask && (forall j :: 0 <= j < |polls| ==> Waiting(polls[j])) ==>
      RunFrom(limit, hasTask, counter, outstanding, polls).event == None
  {
    if polls != [] {
      var p := polls[0];
      if !p.stopRequested && !p.pauseRequested && hasTask {
        var rest := polls[1..];
        var c' := if p.outcome.RobotFailure? then counter + 1 else counter;
        InitiatedNeedsSuccess(limit, hasTask, c', true, rest);
        InitiatedNeedsSuccess(limit, hasTask, c', false, rest);
        if RunFrom(limit, hasTask, counter, outstanding, polls).event == Some(Initiated) && p.outcome != Succeeded {
          var j :| 0 <= j < |rest| && rest[j].outcome == Succeeded;
          assert polls[j + 1] == rest[j];
        }
        if forall j :: 0 <= j < |polls| ==> Waiting(polls[j]) {
          assert forall j :: 0 <= j < |rest| ==> Waiting(rest[j]) by {
            forall j | 0 <= j < |rest| ensures Waiting(rest[j]) {
              assert rest[j] == polls[j + 1];
            }
          }
        }
      }
    }
  }

  /** The part of the state machine that the Initiate state reads and drives. */
  class StateMachine {
    var currentMission: Mission?
    var currentTask: Task?
    var runMissionByTask: bool
    /** Every initiate request handed to the robot interface, in order. */
    var requests: seq<Request>
    /** Every transition event fired, in order. */
    var fired: seq<Event>

    constructor (mission: Mission?, task: Task?, runMissionByTask: bool)
      ensures currentMission == mission && currentTask == task
      ensures this.runMissionByTask == runMissionByTask
      ensures requests == [] && fired == []
    {
      currentMission := mission;
      currentTask := task;
      this.runMissionByTask := runMissionByTask;
      requests := [];
      fired := [];
    }

    /** The error message of the current task, if there is one. */
    function TaskErrorMessage(): Option<ErrorMessage>
      reads this, currentTask
    {
      if currentTask == null then None else currentTask.errorMessage
    }

    /** The transition call at the end of `_run`: the global table decides where it leads. */
    method Fire(e: Event)
      modifies this`fired
      ensures fired == old(fired) + [e]
    {
      fired := fired + [e];
    }

    /** Hands an initiate request to the robot interface. */
    method Send(req: Request)
      modifies this`requests
      ensures requests == old(requests) + [req]
    {
      requests := requests + [req];
    }
  }

  /** `n` copies of one request. */
  function Repeat(req: Request, n: nat): seq<Request>
  {
    if n == 0 then [] else Repeat(req, n - 1) + [req]
  }

  /** Issuing `a` copies of a request and then `b` more is issuing `a + b`. */
  lemma {:induction false} RepeatAppend(req: Request, a: nat, b: nat)
    ensures Repeat(req, a) + Repeat(req, b) == Repeat(req, a + b)
  {
    if b > 0 {
      RepeatAppend(req, a, b - 1);
    }
  }

  /** A log that has had `a` copies of a request appended and then `b` more has had `a + b`. */
  lemma LogAppend(log: seq<Request>, req: Request, a: nat, b: nat)
    ensures (log + Repeat(req, a)) + Repeat(req, b) == log + Repeat(req, a + b)
  {
    RepeatAppend(req, a, b);
  }

  /** A task's error message after a run that records `error`. */
  function TaskErrorAfter(error: ErrorTarget, before: Option<ErrorMessage>): Option<ErrorMessage> {
    if error.TaskError? then Some(error.error) else before
  }

  /** A mission's error message after a run that records `error`. */
  function MissionErrorAfter(error: ErrorTarget, before: Option<ErrorMessage>): Option<ErrorMessage> {
    if error.MissionError? then Some(error.error) else before
  }

  /** The request a pass issues: the current task in task mode, the current mission otherwise. */
  function RequestFor(runMissionByTask: bool, task: Task?, mission: Mission): Request {
    if runMissionByTask && task != null then InitiateTask(task) else InitiateMission(mission)
  }

  /** The Initiate state object, with its failure counter and its outstanding request. */
  class Initiate {
    const stateMachine: StateMachine
    var failureCounter: int
    const failureCounterLimit: int
    /** The request in flight, if any (the source's `initiate_thread`). */
    var initiateThread: Option<Request>

    /** Between visits: counter at zero and nothing in flight. */
    predicate Resting()
      reads this
    {
      failureCounter == 0 && initiateThread.None?
    }

    /** `failureCounterLimit` is the configured INITIATE_FAILURE_COUNTER_LIMIT. */
    constructor (stateMachine: StateMachine, failureCounterLimit: int)
      ensures this.stateMachine == stateMachine && this.failureCounterLimit == failureCounterLimit
      ensures Resting()
    {
      this.stateMachine := stateMachine;
      this.failureCounterLimit := failureCounterLimit;
      failureCounter := 0;
      initiateThread := None;
    }

    /** The exit hook: reset the counter and drop the request (after waiting for its thread). */
    method Stop()
      modifies this`failureCounter, this`initiateThread
      ensures Resting()
    {
      failureCounter := 0;
      initiateThread := None;
    }

    /** `_run_initiate_thread`: start a request and remember it as the one in flight. */
    method RunInitiateThread(req: Request)
      modifies this`initiateThread, stateMachine`requests
      ensures initiateThread == Some(req)
      ensures stateMachine.requests == old(stateMachine.requests) + [req]
    {
      initiateThread := Some(req);
      stateMachine.Send(req);
    }

    /**
     * The body of one pass of `_run` observing `poll`. `transition` is the event it breaks
     * out with, if any; the new counter, request in flight, requests issued and error
     * messages are those `Pass` specifies.
     */
    method RunPass(poll: Poll) returns (transition: Option<Event>, ghost p: RunResult)
      requires stateMachine.currentMission != null
      modifies this`failureCounter, this`initiateThread, stateMachine`requests
      modifies stateMachine.currentMission`errorMessage, stateMachine.currentTask
      ensures p == Pass(failureCounterLimit, stateMachine.currentTask != null,
                        old(failureCounter), old(initiateThread).Some?, poll)
      ensures p.event.None? ==> p.error == NoError
      ensures && transition == p.event && failureCounter == p.counter && initiateThread.Some? == p.outstanding
        && stateMachine.requests == old(stateMachine.requests)
             + Repeat(RequestFor(stateMachine.runMissionByTask, stateMachine.currentTask,
                                 stateMachine.currentMission), p.issued)
        && stateMachine.TaskErrorMessage() == TaskErrorAfter(p.error, old(stateMachine.TaskErrorMessage()))
        && stateMachine.currentMission.errorMessage == MissionErrorAfter(p.error, old(stateMachine.currentMission.errorMessage))
    {
      var sm := stateMachine;
      p := Pass(failureCounterLimit, sm.currentTask != null, failureCounter, initiateThread.Some?, poll);
      if poll.stopRequested {
        transition := Some(Event.Stop);
        return;
      }
      if poll.pauseRequested {
        transition := Some(Event.Pause);
        return;
      }
      if sm.currentTask == null {
        transition := Some(MissionFinished);
        return;
      }
      if initiateThread.None? {
        if sm.runMissionByTask {
          RunInitiateThread(InitiateTask(sm.currentTask));
        } else {
          RunInitiateThread(InitiateMission(sm.currentMission));
        }
      }
      match poll.outcome {
        case NotFinished =>
          transition := None;
        case Succeeded =>
          transition := Some(Initiated);
        case InfeasibleTask(e) =>
          sm.currentTask.errorMessage := Some(e);
          transition := Some(InitiateInfeasible);
        case InfeasibleMission(e) =>
          sm.currentMission.errorMessage := Some(e);
          transition := Some(InitiateFailed);
        case RobotFailure(e) =>
          initiateThread := None;
          failureCounter := failureCounter + 1;
          if failureCounter >= failureCounterLimit {
            sm.currentTask.errorMessage := Some(e);
            transition := Some(InitiateFailed);
          } else {
            transition := None;
          }
      }
    }

    /**
     * The `while True` loop of `_run`, over the passes `polls`: the event it breaks out
     * with, and its effect on the counter, the request in flight, the requests issued and
     * the error messages, are the ones `RunFrom` specifies.
     */
    method Loop(polls: seq<Poll>) returns (transition: Option<Event>)
      requires stateMachine.currentMission != null
      modifies this`failureCounter, this`initiateThread, stateMachine`requests
      modifies stateMachine.currentMission`errorMessage, stateMachine.currentTask
      ensures var r := RunFrom(failureCounterLimit, stateMachine.currentTask != null,
                               old(failureCounter), old(initiateThread).Some?, polls);
        && transition == r.event
        && failureCounter == r.counter
        && initiateThread.Some? == r.outstanding
        && stateMachine.requests == old(stateMachine.requests)
             + Repeat(RequestFor(stateMachine.runMissionByTask, stateMachine.currentTask,
                                 stateMachine.currentMission), r.issued)
        && stateMachine.TaskErrorMessage() == TaskErrorAfter(r.error, old(stateMachine.TaskErrorMessage()))
        && stateMachine.currentMission.errorMessage == MissionErrorAfter(r.error, old(stateMachine.currentMission.errorMessage))
    {
      var sm := stateMachine;
      ghost var hasTask := sm.currentTask != null;
      ghost var req := RequestFor(sm.runMissionByTask, sm.currentTask, sm.currentMission);
      ghost var requests0 := sm.requests;
      ghost var task := sm.currentTask;
      ghost var taskMessage0 := sm.TaskErrorMessage();
      ghost var missionMessage0 := sm.currentMission.errorMessage;
      ghost var spec := RunFrom(failureCounterLimit, hasTask, failureCounter, initiateThread.Some?, polls);
      ghost var issued: nat := 0;
      transition := None;
      var i := 0;
      while i < |polls|
        invariant 0 <= i <= |polls|
        invariant transition.None?
        invariant spec == Extend(RunFrom(failureCounterLimit, hasTask, failureCounter, initiateThread.Some?, polls[i..]), issued)
        invariant sm.requests == requests0 + Repeat(req, issued)
        invariant task != null ==> task.errorMessage == taskMessage0
        invariant sm.currentMission.errorMessage == missionMessage0
      {
        RunFromFirstPass(failureCounterLimit, hasTask, failureCounter, initiateThread.Some?, polls, i);
        ghost var pass;
        transition, pass := RunPass(polls[i]);
        LogAppend(requests0, req, issued, pass.issued);
        if transition.Some? {
          assert spec == Extend(pass, issued);
          return;
        }
        issued := issued + pass.issued;
        i := i + 1;
      }
      assert polls[i..] == [];
    }

    /** `_run`: the loop, then exactly one transition call for the event it broke out with. */
    method Run(polls: seq<Poll>) returns (transition: Option<Event>)
      requires stateMachine.currentMission != null
      modifies this`failureCounter, this`initiateThread, stateMachine`requests, stateMachine`fired
      modifies stateMachine.currentMission`errorMessage, stateMachine.currentTask
      ensures var r := RunFrom(failureCounterLimit, stateMachine.currentTask != null,
                               old(failureCounter), old(initiateThread).Some?, polls);
        && transition == r.event
        && failureCounter == r.counter
        && initiateThread.Some? == r.outstanding
        && stateMachine.requests == old(stateMachine.requests)
             + Repeat(RequestFor(stateMachine.runMissionByTask, stateMachine.currentTask,
                                 stateMachine.currentMission), r.issued)
        && stateMachine.fired == old(stateMachine.fired) + (if r.event.Some? then [r.event.value] else [])
        && stateMachine.TaskErrorMessage() == TaskErrorAfter(r.error, old(stateMachine.TaskErrorMessage()))
        && stateMachine.currentMission.errorMessage == MissionErrorAfter(r.error, old(stateMachine.currentMission.errorMessage))
    {
      transition := Loop(polls);
      if transition.Some? {
        stateMachine.Fire(transition.value);
      }
    }

    /**
     * The entry hook: publish the new state (not modelled) and run the loop. A visit that
     * begins at rest starts from counter zero with no request in flight.
     */
    method Start(polls: seq<Poll>) returns (transition: Option<Event>)
      requires stateMachine.currentMission != null
      modifies this`failureCounter, this`initiateThread, stateMachine`requests, stateMachine`fired
      modifies stateMachine.currentMission`errorMessage, stateMachine.currentTask
      ensures var r := RunFrom(failureCounterLimit, stateMachine.currentTask != null,
                               old(failureCounter), old(initiateThread).Some?, polls);
        && transition == r.event
        && failureCounter == r.counter
        && initiateThread.Some? == r.outstanding
        && stateMachine.requests == old(stateMachine.requests)
             + Repeat(RequestFor(stateMachine.runMissionByTask, stateMachine.currentTask,
                                 stateMachine.currentMission), r.issued)
        && stateMachine.fired == old(stateMachine.fired) + (if r.event.Some? then [r.event.value] else [])
        && stateMachine.TaskErrorMessage() == TaskErrorAfter(r.error, old(stateMachine.TaskErrorMessage()))
        && stateMachine.currentMission.errorMessage == MissionErrorAfter(r.error, old(stateMachine.currentMission.errorMessage))
      ensures old(Resting()) ==>
        RunFrom(failureCounterLimit, stateMachine.currentTask != null, old(failureCounter), old(initiateThread).Some?, polls)
        == RunFrom(failureCounterLimit, stateMachine.currentTask != null, 0, false, polls)
    {
      transition := Run(polls);
    }
  }
}
