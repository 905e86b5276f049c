/** The classes that own the transactions, with the rows as fields they update in place. */
module Services {
  import opened Domain
  import opened Transactions
  import opened Outcomes
  import opened Protocol
  import opened Approvals

  class Database {
    var runs: map<RunId, Run>
    var jobs: map<JobId, Job>
    var approvals: map<ApprovalId, Approval>

    ghost function Contents(): Tables
      reads this
    {
      Tables(runs, jobs, approvals)
    }

    predicate CanClaim(now: Time, j: JobId)
      reads this
      ensures CanClaim(now, j) <==> Claimable(Contents(), now, j)
    {
      && j in jobs
      && jobs[j].run in runs
      && !Terminal(runs[jobs[j].run].status)
      && (|| jobs[j].status.JobQueued?
          || (jobs[j].status.JobRetryWait? && (jobs[j].nextAttempt.None? || jobs[j].nextAttempt.value <= now))
          || (jobs[j].status.JobRunning? && jobs[j].expires.Some? && jobs[j].expires.value < now))
    }

    /** Other transactions have committed. */
    method Become(t: Tables)
      modifies this
      ensures Contents() == t
    {
      runs, jobs, approvals := t.runs, t.jobs, t.approvals;
    }

    /** UPDATE runs SET status, error under the guard that keeps terminal statuses. */
    method GuardedStatus(now: Time, r: RunId, status: RunStatus, error: Option<string>)
      modifies this
      ensures Contents() == SetStatusTx(old(Contents()), now, r, status, error)
    {
      if r in runs && (!Terminal(runs[r].status) || runs[r].status == status) {
        runs := runs[r := runs[r].(status := status, error := error, updated := now)];
      }
    }
  }

  ghost predicate Oldest(jobs: map<JobId, Job>, candidates: set<JobId>, j: JobId)
    requires candidates <= jobs.Keys
  {
    j in candidates && forall k :: k in candidates ==> jobs[j].created <= jobs[k].created
  }

  /** A non-empty set of jobs has an oldest one. */
  lemma OldestExists(jobs: map<JobId, Job>, candidates: set<JobId>)
    requires candidates != {} && candidates <= jobs.Keys
    ensures exists j :: Oldest(jobs, candidates, j)
  {
    var x :| x in candidates;
    var rest := candidates - {x};
    assert candidates == rest + {x};
    if rest == {} {
      assert Oldest(jobs, candidates, x);
    } else {
      OldestExists(jobs, rest);
      var y :| Oldest(jobs, rest, y);
      var best := if jobs[x].created <= jobs[y].created then x else y;
      assert Oldest(jobs, candidates, best);
    }
  }

  // ---- what a transaction leaves alone ----

  /** No row but job `j` differs, and that one keeps its run, its counts and its creation time. */
  ghost predicate OnlyJob(before: Tables, after: Tables, j: JobId) {
    && after.runs == before.runs && after.approvals == before.approvals
    && j in before.jobs && after.jobs.Keys == before.jobs.Keys
    && (forall k :: k in before.jobs && k != j ==> after.jobs[k] == before.jobs[k])
    && var x := before.jobs[j]; var y := after.jobs[j];
       y.run == x.run && y.attempts == x.attempts && y.maxAttempts == x.maxAttempts && y.created == x.created
  }

  /** Nobody holds the row any more. */
  predicate Free(job: Job) {
    job.owner.None? && job.expires.None?
  }

  /** No row but run `r` differs, and that one keeps its input. */
  ghost predicate OnlyRun(before: Tables, after: Tables, r: RunId) {
    && after.jobs == before.jobs && after.approvals == before.approvals
    && r in before.runs && after.runs.Keys == before.runs.Keys
    && (forall q :: q in before.runs && q != r ==> after.runs[q] == before.runs[q])
    && after.runs[r].input == before.runs[r].input
  }

  // ---- one undisturbed pass of a worker, transaction by transaction ----

  function StartedTx(db: Tables, w: WorkerId, lease: nat, now: Time, j: JobId): Tables
    requires j in db.jobs
  {
    SetStatusTx(ClaimTx(db, w, lease, now, j), now, db.jobs[j].run, Running, None)
  }

  function StoredTx(db: Tables, w: WorkerId, lease: nat, now: Time, j: JobId, outcome: Outcome): Tables
    requires j in db.jobs
  {
    var e := ExecutionOf(outcome);
    UpdateRunTx(StartedTx(db, w, lease, now, j), now, db.jobs[j].run, PersistedStatus(e.status, e.reason), e.output, e.error, e.reason)
  }

  /** The job is resolved, then the run status that goes with the verdict is written. */
  function SettleTx(db: Tables, w: WorkerId, retryDelay: nat, now: Time, c: Claim, v: Verdict): Tables {
    var resolved := ResolveTx(db, w, retryDelay, now, c, v);
    match OutcomeWrite(c, v)
    case None => resolved
    case Some((status, error)) => SetStatusTx(resolved, now, c.run, status, error)
  }

  function PassTx(db: Tables, w: WorkerId, lease: nat, retryDelay: nat, now: Time, j: JobId, outcome: Outcome): Tables
    requires j in db.jobs
  {
    var c := Claim(j, db.jobs[j].run, db.jobs[j].attempts + 1, db.jobs[j].maxAttempts);
    SettleTx(StoredTx(db, w, lease, now, j, outcome), w, retryDelay, now, c, VerdictOf(ExecutionOf(outcome)))
  }

  /** The job and run status that one undisturbed pass ends in. */
  function ExpectedEnd(outcome: Outcome, exhausted: bool): (JobStatus, RunStatus) {
    match outcome
    case Finished(_) => (JobCompleted, Completed)
    case Interrupted => (JobCompleted, Paused)
    case Raised(f) =>
      if f.RunCancelled? then (JobCompleted, Cancelled)
      else if Transient(f) && !exhausted then (JobRetryWait, Queued)
      else (JobFailed, Failed)
  }

  ghost predicate OutcomeTable(before: Tables, after: Tables, j: JobId, outcome: Outcome, now: Time, retryDelay: nat) {
    && j in before.jobs && j in after.jobs
    && var r := before.jobs[j].run;
    && r in before.runs && r in after.runs
    && after.jobs == before.jobs[j := after.jobs[j]]
    && after.runs == before.runs[r := after.runs[r]]
    && after.approvals == before.approvals
    && var job := after.jobs[j]; var run := after.runs[r];
    && job.attempts == before.jobs[j].attempts + 1
    && job.owner.None? && job.expires.None?
    && (job.status, run.status) == ExpectedEnd(outcome, job.attempts >= Budget(job.maxAttempts))
    && (job.status.JobRetryWait? ==> job.nextAttempt == Some(now + retryDelay))
    && (outcome.Finished? ==> run.output == Some(outcome.output) && run.error.None?)
    && (run.status.Failed? ==> run.error.Some?)
    && run.input == before.runs[r].input && run.updated == now
  }

  lemma StartedRunning(db: Tables, w: WorkerId, lease: nat, now: Time, j: JobId)
    requires Claimable(db, now, j)
    ensures var after := StartedTx(db, w, lease, now, j); var r := db.jobs[j].run;
            && after.runs == db.runs[r := db.runs[r].(status := Running, error := None, updated := now)]
            && after.jobs == db.jobs[j := Claimed(db.jobs[j], w, lease, now)]
            && after.approvals == db.approvals
  {
  }

  lemma StoredRun(db: Tables, w: WorkerId, lease: nat, now: Time, j: JobId, outcome: Outcome)
    requires Claimable(db, now, j)
    ensures var after := StoredTx(db, w, lease, now, j, outcome); var r := db.jobs[j].run; var e := ExecutionOf(outcome);
            && r in after.runs
            && after.runs == db.runs[r := after.runs[r]]
            && after.runs[r].status == PersistedStatus(e.status, e.reason)
            && after.runs[r].output == Some(e.output) && after.runs[r].error == e.error && after.runs[r].input == db.runs[r].input
            && after.jobs == db.jobs[j := Claimed(db.jobs[j], w, lease, now)]
            && after.approvals == db.approvals
  {
    StartedRunning(db, w, lease, now, j);
  }

  lemma PassMeetsTable(db: Tables, w: WorkerId, lease: nat, retryDelay: nat, now: Time, j: JobId, outcome: Outcome)
    requires Claimable(db, now, j)
    ensures OutcomeTable(db, PassTx(db, w, lease, retryDelay, now, j, outcome), j, outcome, now, retryDelay)
  {
    StoredRun(db, w, lease, now, j, outcome);
    RetriedExactlyWhenTransient(outcome);
    var stored := StoredTx(db, w, lease, now, j, outcome);
    var c := Claim(j, db.jobs[j].run, db.jobs[j].attempts + 1, db.jobs[j].maxAttempts);
    var v := VerdictOf(ExecutionOf(outcome));
    var resolved := ResolveTx(stored, w, retryDelay, now, c, v);
    assert resolved.runs == stored.runs && resolved.approvals == stored.approvals;
    assert resolved.jobs == db.jobs[j := resolved.jobs[j]];
  }

  /** One turn of the heartbeat loop: whether it was told to stop, the tables, and the time. */
  datatype Poll = Poll(stop: bool, db: Tables, now: Time)

  class WorkerQueue {
    const workerId: WorkerId
    const leaseSeconds: nat
    const retryDelaySeconds: nat
    const db: Database

    constructor (workerId: WorkerId, leaseSeconds: nat, retryDelaySeconds: nat, db: Database)
      ensures this.workerId == workerId && this.leaseSeconds == leaseSeconds
      ensures this.retryDelaySeconds == retryDelaySeconds && this.db == db
    {
      this.workerId := workerId;
      this.leaseSeconds := leaseSeconds;
      this.retryDelaySeconds := retryDelaySeconds;
      this.db := db;
    }

    /** Claim the oldest claimable job that no other transaction has locked. */
    method ClaimNext(now: Time, locked: set<JobId>) returns (claim: Option<Claim>)
      modifies db
      ensures claim.None? ==>
                && db.Contents() == old(db.Contents())
                && forall j :: Claimable(old(db.Contents()), now, j) ==> j in locked
      ensures claim.Some? ==>
                var c := claim.value; var before := old(db.Contents());
                && ClaimChoice(before, now, locked, c.job)
                && db.Contents() == ClaimTx(before, workerId, leaseSeconds, now, c.job)
                && c == Claim(c.job, before.jobs[c.job].run, before.jobs[c.job].attempts + 1, before.jobs[c.job].maxAttempts)
    {
      var candidates := set j | j in db.jobs && j !in locked && db.CanClaim(now, j);
      if candidates == {} {
        assert forall j :: Claimable(db.Contents(), now, j) && j !in locked ==> j in candidates;
        return None;
      }
      OldestExists(db.jobs, candidates);
      ghost var oldest :| Oldest(db.jobs, candidates, oldest);
      var j :| j in candidates && forall k :: k in candidates ==> db.jobs[j].created <= db.jobs[k].created;
      assert forall k :: k !in locked && Claimable(db.Contents(), now, k) ==> k in candidates;
      var job := db.jobs[j];
      job := job.(status := JobRunning, owner := Some(workerId));
      job := job.(heartbeat := Some(now), expires := Some(now + leaseSeconds));
      job := job.(attempts := job.attempts + 1, nextAttempt := None);
      db.jobs := db.jobs[j := job];
      claim := Some(Claim(j, job.run, job.attempts, job.maxAttempts));
    }

    method Complete(j: JobId, now: Time)
      modifies db
      ensures db.Contents() == CompleteTx(old(db.Contents()), workerId, now, j)
      ensures !Owns(old(db.Contents()), workerId, j) ==> db.Contents() == old(db.Contents())
      ensures Owns(old(db.Contents()), workerId, j) ==>
                && OnlyJob(old(db.Contents()), db.Contents(), j)
                && db.jobs[j].status.JobCompleted? && Free(db.jobs[j]) && db.jobs[j].finishedAt == Some(now)
    {
      if j in db.jobs && db.jobs[j].owner == Some(workerId) {
        db.jobs := db.jobs[j := db.jobs[j].(status := JobCompleted, finishedAt := Some(now), owner := None, expires := None)];
      }
    }

    method Fail(j: JobId, error: string, now: Time)
      modifies db
      ensures db.Contents() == FailTx(old(db.Contents()), workerId, retryDelaySeconds, now, j, error)
      ensures !Owns(old(db.Contents()), workerId, j) ==> db.Contents() == old(db.Contents())
      ensures Owns(old(db.Contents()), workerId, j) ==>
                && OnlyJob(old(db.Contents()), db.Contents(), j)
                && var job := db.jobs[j];
                && Free(job) && job.error == Some(error) && (job.status.JobRetryWait? || job.status.JobFailed?)
                && (job.status.JobRetryWait? <==> job.attempts < Budget(job.maxAttempts))
                && (job.status.JobRetryWait? ==> job.nextAttempt == Some(now + retryDelaySeconds))
                && (job.status.JobFailed? ==> job.finishedAt == Some(now))
    {
      if j !in db.jobs || db.jobs[j].owner != Some(workerId) {
        return;
      }
      var job := db.jobs[j];
      job := job.(error := Some(error), owner := None, expires := None);
      if job.attempts < Budget(job.maxAttempts) {
        job := job.(status := JobRetryWait, nextAttempt := Some(now + retryDelaySeconds));
      } else {
        job := job.(status := JobFailed, finishedAt := Some(now));
      }
      db.jobs := db.jobs[j := job];
    }

    method FailWithoutRetry(j: JobId, error: string, now: Time)
      modifies db
      ensures db.Contents() == FailWithoutRetryTx(old(db.Contents()), workerId, now, j, error)
      ensures !Owns(old(db.Contents()), workerId, j) ==> db.Contents() == old(db.Contents())
      ensures Owns(old(db.Contents()), workerId, j) ==>
                && OnlyJob(old(db.Contents()), db.Contents(), j)
                && db.jobs[j].status.JobFailed? && Free(db.jobs[j])
                && db.jobs[j].error == Some(error) && db.jobs[j].finishedAt == Some(now)
    {
      if j in db.jobs && db.jobs[j].owner == Some(workerId) {
        db.jobs := db.jobs[j := db.jobs[j].(status := JobFailed, error := Some(error), finishedAt := Some(now),
                                            owner := None, expires := None)];
      }
    }

    method Heartbeat(j: JobId, now: Time) returns (renewed: bool)
      modifies db
      ensures renewed <==> CanHeartbeat(old(db.Contents()), workerId, j)
      ensures !renewed ==> db.Contents() == old(db.Contents())
      ensures renewed ==>
                && OnlyJob(old(db.Contents()), db.Contents(), j)
                && db.jobs[j].status.JobRunning? && db.jobs[j].owner == Some(workerId)
                && db.jobs[j].heartbeat == Some(now) && db.jobs[j].expires == Some(now + leaseSeconds)
      ensures db.Contents() == HeartbeatTx(old(db.Contents()), workerId, leaseSeconds, now, j)
    {
      renewed := j in db.jobs && db.jobs[j].status.JobRunning? && db.jobs[j].owner == Some(workerId);
      if renewed {
        db.jobs := db.jobs[j := db.jobs[j].(heartbeat := Some(now), expires := Some(now + leaseSeconds))];
      }
    }

    /** The loop beside a running handler. Before each poll the tables are what other transactions
        have made of them; the loop renews the lease until it is told to stop, and reports the
        lease as lost at the first poll that finds the row no longer its own. */
    method HeartbeatLoop(j: JobId, polls: seq<Poll>) returns (lost: bool, beats: nat)
      modifies db
      ensures beats <= |polls|
      ensures forall i :: 0 <= i < beats ==> !polls[i].stop && CanHeartbeat(polls[i].db, workerId, j)
      ensures lost <==> beats < |polls| && !polls[beats].stop && !CanHeartbeat(polls[beats].db, workerId, j)
      ensures !lost ==> beats == |polls| || polls[beats].stop
      ensures db.Contents() ==
                if lost then polls[beats].db
                else if beats == 0 then old(db.Contents())
                else HeartbeatTx(polls[beats - 1].db, workerId, leaseSeconds, polls[beats - 1].now, j)
    {
      lost, beats := false, 0;
      while beats < |polls| && !polls[beats].stop
        invariant beats <= |polls|
        invariant forall i :: 0 <= i < beats ==> !polls[i].stop && CanHeartbeat(polls[i].db, workerId, j)
        invariant db.Contents() ==
                    if beats == 0 then old(db.Contents())
                    else HeartbeatTx(polls[beats - 1].db, workerId, leaseSeconds, polls[beats - 1].now, j)
      {
        var poll := polls[beats];
        db.Become(poll.db);
        var renewed := Heartbeat(j, poll.now);
        if !renewed {
          lost := true;
          return;
        }
        beats := beats + 1;
      }
    }

    /** What follows the handler: resolve the job row, then write the run. */
    method Settle(c: Claim, verdict: Verdict, now: Time)
      modifies db
      ensures db.Contents() == SettleTx(old(db.Contents()), workerId, retryDelaySeconds, now, c, verdict)
    {
      match verdict {
        case Returned(status) =>
          Complete(c.job, now);
          if status.Completed? {
            db.GuardedStatus(now, c.run, Completed, None);
          }
        case Deterministic(error) =>
          FailWithoutRetry(c.job, error, now);
          db.GuardedStatus(now, c.run, Failed, Some(error));
        case Errored(error) =>
          Fail(c.job, error, now);
          var exhausted := c.attempt >= Budget(c.maxAttempts);
          db.GuardedStatus(now, c.run, if exhausted then Failed else Queued, Some(error));
      }
    }

    /** One pass of the worker with nothing else touching the database meanwhile; `outcome`
        is what the graph program does when it is run. The contract is the outcome table:
        what the job and the run look like afterwards for every way the program can end. */
    method RunOnce(manager: RunManager, now: Time, locked: set<JobId>, outcome: Outcome)
      returns (processed: bool, ghost claimed: JobId)
      requires manager.db == db
      modifies db
      ensures !processed ==>
                && db.Contents() == old(db.Contents())
                && forall j :: Claimable(old(db.Contents()), now, j) ==> j in locked
      ensures processed ==>
                && ClaimChoice(old(db.Contents()), now, locked, claimed)
                && OutcomeTable(old(db.Contents()), db.Contents(), claimed, outcome, now, retryDelaySeconds)
    {
      claimed := 0;
      var claim := ClaimNext(now, locked);
      if claim.None? {
        return false, 0;
      }
      processed := true;
      claimed := claim.value.job;
      Process(manager, claim.value, now, outcome, old(db.Contents()));
      PassMeetsTable(old(db.Contents()), workerId, leaseSeconds, retryDelaySeconds, now, claimed, outcome);
    }

    /** The rest of the pass, once a job is claimed: mark the run running, run the handler, settle. */
    method Process(manager: RunManager, c: Claim, now: Time, outcome: Outcome, ghost before: Tables)
      requires manager.db == db && Claimable(before, now, c.job)
      requires c == Claim(c.job, before.jobs[c.job].run, before.jobs[c.job].attempts + 1, before.jobs[c.job].maxAttempts)
      requires db.Contents() == ClaimTx(before, workerId, leaseSeconds, now, c.job)
      modifies db
      ensures db.Contents() == PassTx(before, workerId, leaseSeconds, retryDelaySeconds, now, c.job, outcome)
    {
      db.GuardedStatus(now, c.run, Running, None);
      assert db.Contents() == StartedTx(before, workerId, leaseSeconds, now, c.job);
      StartedRunning(before, workerId, leaseSeconds, now, c.job);
      var verdict := manager.ExecuteJob(now, c.run, outcome);
      assert db.Contents() == StoredTx(before, workerId, leaseSeconds, now, c.job, outcome);
      Settle(c, verdict, now);
    }
  }

  class RunManager {
    const db: Database

    constructor (db: Database)
      ensures this.db == db
    {
      this.db := db;
    }

    method CreateRun(r: RunId, j: JobId, input: string, now: Time)
      requires r !in db.runs && j !in db.jobs
      modifies db
      ensures db.Contents() == CreateRunTx(old(db.Contents()), r, j, input, now)
      ensures r in db.runs && db.runs[r].status.Queued? && db.runs[r].input == input && db.runs[r].output.None?
      ensures j in db.jobs && db.jobs[j].run == r && db.jobs[j].status.JobQueued? && Free(db.jobs[j])
      ensures db.jobs[j].attempts == 0 && db.jobs[j].maxAttempts == 3
      ensures db.runs - {r} == old(db.runs) && db.jobs - {j} == old(db.jobs) && db.approvals == old(db.approvals)
    {
      db.runs := db.runs[r := NewRun(input, now)];
      db.jobs := db.jobs[j := NewJob(r, now)];
    }

    /** Store an attempt's outcome under the guard that keeps terminal statuses. */
    method UpdateRun(now: Time, r: RunId, status: RunStatus, output: string, error: Option<string>, reason: string)
      modifies db
      ensures db.Contents() == UpdateRunTx(old(db.Contents()), now, r, status, output, error, reason)
      ensures r !in old(db.runs) || (Terminal(old(db.runs)[r].status) && old(db.runs)[r].status != status) ==>
                db.Contents() == old(db.Contents())
      ensures r in old(db.runs) && (Terminal(old(db.runs)[r].status) ==> old(db.runs)[r].status == status) ==>
                && OnlyRun(old(db.Contents()), db.Contents(), r)
                && var run := db.runs[r];
                   run.status == status && run.output == Some(output) && run.error == error && run.reason == Some(reason) && run.updated == now
    {
      if r in db.runs && (!Terminal(db.runs[r].status) || db.runs[r].status == status) {
        db.runs := db.runs[r := db.runs[r].(status := status, output := Some(output), error := error, reason := Some(reason),
                                          updated := now)];
      }
    }

    /** None stands for the exception raised for a run that does not exist. */
    method ExecuteRunSync(now: Time, r: RunId, outcome: Outcome) returns (result: Option<Execution>)
      modifies db
      ensures result.None? <==> r !in old(db.runs)
      ensures result.None? ==> db.Contents() == old(db.Contents())
      ensures result.Some? ==>
                var before := old(db.Contents()); var e := result.value;
                if before.runs[r].status.Paused? && !HasDecision(before, r)
                then e == ExecutionOf(Interrupted) && db.Contents() == before
                else e == ExecutionOf(outcome)
                     && db.Contents() == UpdateRunTx(before, now, r, PersistedStatus(e.status, e.reason), e.output, e.error, e.reason)
    {
      if r !in db.runs {
        return None;
      }
      var decided := exists a :: a in db.approvals && db.approvals[a].run == r
                                 && (db.approvals[a].status.Approved? || db.approvals[a].status.Rejected?);
      if db.runs[r].status.Paused? && !decided {
        return Some(Execution(Paused, "", None, "approval_required"));
      }
      var e: Execution;
      match outcome {
        case Finished(output) => e := Execution(Completed, output, None, "supervisor_final");
        case Interrupted => e := Execution(Paused, "", None, "approval_required");
        case Raised(f) =>
          var (status, reason, error) := ClassifyFailure(f);
          e := Execution(status, "", Some(error), reason);
      }
      UpdateRun(now, r, PersistedStatus(e.status, e.reason), e.output, e.error, e.reason);
      return Some(e);
    }

    /** The job handler. */
    method ExecuteJob(now: Time, r: RunId, outcome: Outcome) returns (v: Verdict)
      modifies db
      ensures var before := old(db.Contents());
              if r !in before.runs then v.Errored? && db.Contents() == before
              else if Terminal(before.runs[r].status) then v == Returned(before.runs[r].status) && db.Contents() == before
              else if before.runs[r].status.Paused? && !HasDecision(before, r)
              then v == Returned(Paused) && db.Contents() == before
              else var e := ExecutionOf(outcome);
                   && v == VerdictOf(e)
                   && db.Contents() == UpdateRunTx(before, now, r, PersistedStatus(e.status, e.reason), e.output, e.error, e.reason)
    {
      if r !in db.runs {
        return Errored("run not found");
      }
      if Terminal(db.runs[r].status) {
        return Returned(db.runs[r].status);
      }
      var e := ExecuteRunSync(now, r, outcome);
      v := if e.Some? then VerdictOf(e.value) else Errored("run not found");
    }
  }

  datatype CancelResponse = Cancelled200 | NotFound404 | Conflict409

  method CancelRun(db: Database, now: Time, r: RunId) returns (response: CancelResponse)
    modifies db
    ensures db.Contents() == CancelTx(old(db.Contents()), now, r)
    ensures response.NotFound404? <==> r !in old(db.runs)
    ensures response.Conflict409? <==> r in old(db.runs) && Terminal(old(db.runs)[r].status)
    ensures response.Cancelled200? ==> r in db.runs && db.runs[r].status.Cancelled?
  {
    if r !in db.runs {
      return NotFound404;
    }
    if Terminal(db.runs[r].status) {
      return Conflict409;
    }
    db.runs := db.runs[r := db.runs[r].(status := Cancelled, updated := now)];
    return Cancelled200;
  }

  datatype Resolution = InvalidDecision | UnknownApproval | Row(approval: Approval)

  class ApprovalRepository {
    const db: Database

    constructor (db: Database)
      ensures this.db == db
    {
      this.db := db;
    }

    /** The row for this action id: the existing one, or a new pending one under `fresh`. */
    method CreatePending(action: ActionId, kind: string, expiresAt: Time, freshId: ApprovalId) returns (id: ApprovalId)
      requires OneRowPerAction(db.Contents()) && freshId !in db.approvals
      modifies db
      ensures db.Contents() == CreatePendingTx(old(db.Contents()), freshId, action, kind, expiresAt)
      ensures OneRowPerAction(db.Contents())
      ensures id in db.approvals && db.approvals[id].actionId == action
      ensures id in old(db.approvals) ==> db.approvals[id] == old(db.approvals)[id]
    {
      if exists a :: a in db.approvals && db.approvals[a].actionId == action {
        var a :| a in db.approvals && db.approvals[a].actionId == action;
        return a;
      }
      db.approvals := db.approvals[freshId := Approval(action, action.run, kind, action.arguments, Pending, Some(expiresAt), None, None)];
      id := freshId;
    }

    method ResolveAndEnqueue(id: ApprovalId, status: ApprovalStatus, decider: string, now: Time, freshJob: JobId)
      returns (res: Resolution)
      requires forall a :: a in db.approvals ==> db.approvals[a].run in db.runs
      requires freshJob !in db.jobs
      modifies db
      ensures res.InvalidDecision? <==> !status.Approved? && !status.Rejected?
      ensures res.InvalidDecision? ==> db.Contents() == old(db.Contents())
      ensures !res.InvalidDecision? ==> db.Contents() == DecideTx(old(db.Contents()), id, status.Approved?, decider, now, freshJob)
      ensures !res.InvalidDecision? ==> (res.UnknownApproval? <==> id !in old(db.approvals))
      ensures res.Row? ==> id in db.approvals && db.approvals[id] == res.approval
    {
      if !status.Approved? && !status.Rejected? {
        return InvalidDecision;
      }
      if id !in db.approvals {
        return UnknownApproval;
      }
      var approval := db.approvals[id];
      if !approval.status.Pending? {
        return Row(approval);
      }
      if approval.expiresAt.Some? && approval.expiresAt.value <= now {
        approval := approval.(status := Expired, resolvedAt := Some(now));
        db.approvals := db.approvals[id := approval];
        return Row(approval);
      }
      approval := approval.(status := status, resolvedAt := Some(now), resolvedBy := Some(decider));
      db.approvals := db.approvals[id := approval];
      var run := db.runs[approval.run];
      if run.status.Paused? {
        db.runs := db.runs[approval.run := run.(status := Queued, updated := now)];
        db.jobs := db.jobs[freshJob := NewJob(approval.run, now)];
      }
      return Row(approval);
    }
  }
}
