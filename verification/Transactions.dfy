/** One function per database transaction of the run/job protocol: the tables after the
    transaction as a function of the tables before it. */
module Transactions {
  import opened Domain

  // ---- worker queue ----

  /** The WHERE clause of the claim query. */
  predicate Claimable(db: Tables, now: Time, j: JobId) {
    && j in db.jobs
    && var job := db.jobs[j];
    && job.run in db.runs
    && !Terminal(db.runs[job.run].status)
    && (|| job.status.JobQueued?
        || (job.status.JobRetryWait? && (job.nextAttempt.None? || job.nextAttempt.value <= now))
        || (job.status.JobRunning? && job.expires.Some? && job.expires.value < now))
  }

  /** Oldest claimable row that no other transaction has locked. */
  ghost predicate ClaimChoice(db: Tables, now: Time, locked: set<JobId>, j: JobId) {
    && Claimable(db, now, j)
    && j !in locked
    && forall k :: k !in locked && Claimable(db, now, k) ==> db.jobs[j].created <= db.jobs[k].created
  }

  function Claimed(job: Job, w: WorkerId, lease: nat, now: Time): Job {
    job.(status := JobRunning, owner := Some(w), expires := Some(now + lease), heartbeat := Some(now),
         attempts := job.attempts + 1, nextAttempt := None)
  }

  function ClaimTx(db: Tables, w: WorkerId, lease: nat, now: Time, j: JobId): Tables
    requires j in db.jobs
  {
    db.(jobs := db.jobs[j := Claimed(db.jobs[j], w, lease, now)])
  }

  predicate Owns(db: Tables, w: WorkerId, j: JobId) {
    j in db.jobs && db.jobs[j].owner == Some(w)
  }

  function CompleteTx(db: Tables, w: WorkerId, now: Time, j: JobId): Tables {
    if Owns(db, w, j) then
      db.(jobs := db.jobs[j := db.jobs[j].(status := JobCompleted, finishedAt := Some(now), owner := None, expires := None)])
    else db
  }

  function FailTx(db: Tables, w: WorkerId, retryDelay: nat, now: Time, j: JobId, error: string): Tables {
    if Owns(db, w, j) then
      var job := db.jobs[j].(error := Some(error), owner := None, expires := None);
      var after :=
        if job.attempts < Budget(job.maxAttempts)
        then job.(status := JobRetryWait, nextAttempt := Some(now + retryDelay))
        else job.(status := JobFailed, finishedAt := Some(now));
      db.(jobs := db.jobs[j := after])
    else db
  }

  function FailWithoutRetryTx(db: Tables, w: WorkerId, now: Time, j: JobId, error: string): Tables {
    if Owns(db, w, j) then
      db.(jobs := db.jobs[j := db.jobs[j].(status := JobFailed, error := Some(error), finishedAt := Some(now),
                                           owner := None, expires := None)])
    else db
  }

  predicate CanHeartbeat(db: Tables, w: WorkerId, j: JobId) {
    Owns(db, w, j) && db.jobs[j].status.JobRunning?
  }

  function HeartbeatTx(db: Tables, w: WorkerId, lease: nat, now: Time, j: JobId): Tables {
    if CanHeartbeat(db, w, j) then
      db.(jobs := db.jobs[j := db.jobs[j].(heartbeat := Some(now), expires := Some(now + lease))])
    else db
  }

  // ---- run status ----

  /** The guard of both run-status writers: never leave a terminal status. */
  predicate MayWrite(db: Tables, r: RunId, status: RunStatus) {
    r in db.runs && (!Terminal(db.runs[r].status) || db.runs[r].status == status)
  }

  function SetStatusTx(db: Tables, now: Time, r: RunId, status: RunStatus, error: Option<string>): Tables {
    if MayWrite(db, r, status) then
      db.(runs := db.runs[r := db.runs[r].(status := status, error := error, updated := now)])
    else db
  }

  function UpdateRunTx(db: Tables, now: Time, r: RunId, status: RunStatus, output: string, error: Option<string>, reason: string): Tables {
    if MayWrite(db, r, status) then
      db.(runs := db.runs[r := db.runs[r].(status := status, output := Some(output), error := error, reason := Some(reason),
                                           updated := now)])
    else db
  }

  // ---- API ----

  function CreateRunTx(db: Tables, r: RunId, j: JobId, input: string, now: Time): Tables {
    db.(runs := db.runs[r := NewRun(input, now)], jobs := db.jobs[j := NewJob(r, now)])
  }

  function CancelTx(db: Tables, now: Time, r: RunId): Tables {
    if r in db.runs && !Terminal(db.runs[r].status) then
      db.(runs := db.runs[r := db.runs[r].(status := Cancelled, updated := now)])
    else db
  }

  // ---- approvals ----

  predicate HasAction(db: Tables, a: ActionId) {
    exists id :: id in db.approvals && db.approvals[id].actionId == a
  }

  /** `create_pending`: insert unless a row for this action id exists. */
  function CreatePendingTx(db: Tables, id: ApprovalId, a: ActionId, action: string, expiresAt: Time): Tables {
    if HasAction(db, a) then db
    else
      db.(approvals := db.approvals[id := Approval(a, a.run, action, a.arguments, Pending, Some(expiresAt), None, None)])
  }

  predicate Lapsed(ap: Approval, now: Time) {
    ap.expiresAt.Some? && ap.expiresAt.value <= now
  }

  /** `resolve_and_enqueue` for a decision `approve`; `j` is the id of the job it may add. */
  function DecideTx(db: Tables, id: ApprovalId, approve: bool, decider: string, now: Time, j: JobId): Tables {
    if id !in db.approvals || !db.approvals[id].status.Pending? then db
    else
      var ap := db.approvals[id];
      if Lapsed(ap, now) then
        db.(approvals := db.approvals[id := ap.(status := Expired, resolvedAt := Some(now))])
      else
        var decided := ap.(status := if approve then Approved else Rejected, resolvedAt := Some(now), resolvedBy := Some(decider));
        var db1 := db.(approvals := db.approvals[id := decided]);
        if Resumes(db, id, now) then
          db1.(runs := db.runs[ap.run := db.runs[ap.run].(status := Queued, updated := now)], jobs := db.jobs[j := NewJob(ap.run, now)])
        else db1
  }

  /** The decision finds its run paused, so it re-queues the run with a new job. */
  predicate Resumes(db: Tables, id: ApprovalId, now: Time) {
    && id in db.approvals
    && db.approvals[id].status.Pending?
    && !Lapsed(db.approvals[id], now)
    && db.approvals[id].run in db.runs
    && db.runs[db.approvals[id].run].status.Paused?
  }

  predicate HasDecision(db: Tables, r: RunId) {
    exists id :: id in db.approvals && db.approvals[id].run == r
                 && (db.approvals[id].status.Approved? || db.approvals[id].status.Rejected?)
  }
}
