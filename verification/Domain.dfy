/** Values shared by the run/job protocol: statuses and the columns of the `runs`,
    `jobs` and `approvals` tables that the protocol reads or writes. */
module Domain {

  datatype Option<+T> = None | Some(value: T)

  type RunId = nat
  type JobId = nat
  type WorkerId = nat
  type ApprovalId = nat
  /** Seconds on the one clock all workers share. */
  type Time = nat

  datatype RunStatus = Queued | Running | Paused | Completed | Failed | Cancelled

  datatype JobStatus = JobQueued | JobRunning | JobRetryWait | JobCompleted | JobFailed

  datatype ApprovalStatus = Pending | Approved | Rejected | Expired

  predicate Terminal(s: RunStatus) {
    s.Completed? || s.Failed? || s.Cancelled?
  }

  predicate JobOver(s: JobStatus) {
    s.JobCompleted? || s.JobFailed?
  }

  datatype Run = Run(
    status: RunStatus,
    input: string,
    output: Option<string>,
    error: Option<string>,
    reason: Option<string>,
    updated: Time)

  datatype Job = Job(
    run: RunId,
    status: JobStatus,
    owner: Option<WorkerId>,
    expires: Option<Time>,
    heartbeat: Option<Time>,
    attempts: nat,
    maxAttempts: nat,
    nextAttempt: Option<Time>,
    finishedAt: Option<Time>,
    error: Option<string>,
    created: Time)

  /** An action id is the run, the node and a hash of the canonical arguments; the hash
      is taken to be injective, so the arguments themselves stand for it. */
  datatype ActionId = ActionId(run: RunId, node: string, arguments: string)

  datatype Approval = Approval(
    actionId: ActionId,
    run: RunId,
    action: string,
    arguments: string,
    status: ApprovalStatus,
    expiresAt: Option<Time>,
    resolvedAt: Option<Time>,
    resolvedBy: Option<string>)

  datatype Tables = Tables(
    runs: map<RunId, Run>,
    jobs: map<JobId, Job>,
    approvals: map<ApprovalId, Approval>)

  const DEFAULT_ATTEMPTS: nat := 3

  /** `max_attempts or 3`: a zero column falls back to the default budget. */
  function Budget(maxAttempts: nat): (b: nat)
    ensures b >= 1
  {
    if maxAttempts == 0 then DEFAULT_ATTEMPTS else maxAttempts
  }

  function NewRun(input: string, created: Time): Run {
    Run(Queued, input, None, None, None, created)
  }

  function NewJob(run: RunId, created: Time): Job {
    Job(run, JobQueued, None, None, None, 0, DEFAULT_ATTEMPTS, None, None, None, created)
  }
}
