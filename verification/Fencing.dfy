/** What every step of the protocol keeps about job rows, claims and leases. */
module Fencing {
  import opened Domain
  import opened Transactions
  import opened Outcomes
  import opened Protocol

  function Takeovers(h: seq<Hold>): nat {
    if h == [] then 0 else Takeovers(h[..|h| - 1]) + (if h[|h| - 1].fate.TakenOver? then 1 else 0)
  }

  function HandlerStarts(h: seq<Hold>): nat {
    if h == [] then 0 else HandlerStarts(h[..|h| - 1]) + h[|h| - 1].starts
  }

  ghost predicate RowOk(job: Job) {
    && (job.owner.Some? <==> job.status.JobRunning?)
    && (job.expires.Some? <==> job.status.JobRunning?)
    && (job.status.JobQueued? <==> job.attempts == 0)
    && (job.status.JobRetryWait? ==> job.attempts < Budget(job.maxAttempts))
  }

  /** Claims follow one another: only the last one may be open, and only a later claim takes
      one over. */
  ghost predicate HoldsOk(h: seq<Hold>, now: Time) {
    && (forall i :: 0 <= i < |h| ==> h[i].from <= h[i].until && h[i].from <= now && h[i].starts <= 1)
    && (forall i, k :: 0 <= i < k < |h| ==> h[i].until <= h[k].from)
    && (forall i :: 0 <= i < |h| && h[i].fate.Held? ==> i == |h| - 1)
    && (forall i :: 0 <= i < |h| && h[i].fate.TakenOver? ==> i < |h| - 1)
    && (forall i :: 0 <= i < |h| && h[i].fate.Released? ==> h[i].fate.worker == h[i].worker && h[i].until <= now)
  }

  /** The claims on one job row tell the same story as the row. */
  ghost predicate HistoryOk(job: Job, h: seq<Hold>, now: Time) {
    && |h| == job.attempts
    && job.attempts <= Budget(job.maxAttempts) + Takeovers(h)
    && HoldsOk(h, now)
    && (h != [] && h[|h| - 1].fate.Held? ==> job.status.JobRunning?)
    && (job.status.JobRunning? ==>
          |h| > 0 && var last := h[|h| - 1];
          last.fate.Held? && job.owner == Some(last.worker) && job.expires == Some(last.until))
  }

  ghost predicate JobOk(s: System, j: JobId)
    requires j in s.db.jobs
  {
    && j in s.holds
    && s.db.jobs[j].run in s.db.runs
    && RowOk(s.db.jobs[j])
    && HistoryOk(s.db.jobs[j], s.holds[j], s.clock)
    && forall w :: s.db.jobs[j].owner == Some(w) ==>
         w in s.workers && s.db.jobs[j].expires.value <= s.clock + s.workers[w].lease
  }

  /** A busy worker's local claim is one it made, and if the row is still its own then
      the claim is the row's latest. */
  ghost predicate ClaimOk(s: System, w: WorkerId, c: Claim) {
    && c.job in s.db.jobs && c.job in s.holds
    && var job := s.db.jobs[c.job];
    && job.run == c.run
    && job.maxAttempts == c.maxAttempts
    && 1 <= c.attempt <= job.attempts == |s.holds[c.job]|
    && s.holds[c.job][c.attempt - 1].worker == w
    && (job.owner == Some(w) ==> job.attempts == c.attempt)
  }

  ghost predicate WorkerOk(s: System, w: WorkerId)
    requires w in s.workers
  {
    var pc := s.workers[w].pc;
    Active(pc) ==>
      && ClaimOk(s, w, pc.claim)
      && (pc.MarkRunning? ==> s.holds[pc.claim.job][pc.claim.attempt - 1].starts == 0)
      && (pc.Resolved? ==> s.db.jobs[pc.claim.job].owner != Some(w))
  }

  ghost predicate Inv(s: System) {
    && (forall j :: j in s.db.jobs ==> JobOk(s, j))
    && (forall w :: w in s.workers ==> WorkerOk(s, w))
  }

  /** What all steps share: the clock and the tables only grow, workers keep their settings. */
  ghost predicate Grows(s: System, t: System) {
    && s.clock <= t.clock
    && (forall r :: r in s.db.runs ==> r in t.db.runs)
    && (forall w :: w in s.workers ==> w in t.workers && t.workers[w].lease == s.workers[w].lease)
  }

  /** A row the step did not touch. */
  lemma JobFrame(s: System, t: System, j: JobId)
    requires j in s.db.jobs && JobOk(s, j) && Grows(s, t)
    requires j in t.db.jobs && t.db.jobs[j] == s.db.jobs[j]
    requires j in t.holds && t.holds[j] == s.holds[j]
    ensures JobOk(t, j)
  {
  }

  /** Worker `w` can still rely on its claim on row `j`: the row kept its identity, earlier
      claims kept theirs, and `w` gained nothing. */
  ghost predicate Advances(s: System, t: System, j: JobId, w: WorkerId) {
    && j in s.db.jobs && j in s.holds && j in t.db.jobs && j in t.holds
    && t.db.jobs[j].run == s.db.jobs[j].run
    && t.db.jobs[j].maxAttempts == s.db.jobs[j].maxAttempts
    && s.db.jobs[j].attempts <= t.db.jobs[j].attempts == |t.holds[j]|
    && |s.holds[j]| <= |t.holds[j]|
    && (forall i :: 0 <= i < |s.holds[j]| ==> t.holds[j][i].worker == s.holds[j][i].worker)
    && (t.db.jobs[j].owner == Some(w) ==>
          s.db.jobs[j].owner == Some(w) && t.db.jobs[j].attempts == s.db.jobs[j].attempts)
  }

  lemma WorkerFrame(s: System, t: System, w: WorkerId)
    requires w in s.workers && WorkerOk(s, w) && w in t.workers
    requires Active(t.workers[w].pc) ==>
               && Active(s.workers[w].pc) && t.workers[w].pc.claim == s.workers[w].pc.claim
               && Advances(s, t, s.workers[w].pc.claim.job, w)
               && (t.workers[w].pc.MarkRunning? ==>
                     && s.workers[w].pc.MarkRunning?
                     && var c := s.workers[w].pc.claim;
                        0 < c.attempt <= |s.holds[c.job]| ==>
                          t.holds[c.job][c.attempt - 1].starts == s.holds[c.job][c.attempt - 1].starts)
               && (t.workers[w].pc.Resolved? ==>
                     s.workers[w].pc.Resolved? || t.db.jobs[s.workers[w].pc.claim.job].owner != Some(w))
    ensures WorkerOk(t, w)
  {
  }

  /** A step that leaves jobs and history alone keeps the invariant, provided each worker
      either keeps its claim or drops it. */
  lemma FrameKeepsInv(s: System, t: System)
    requires Inv(s) && Grows(s, t) && t.db.jobs == s.db.jobs && t.holds == s.holds
    requires forall w :: w in t.workers && Active(t.workers[w].pc) ==>
               && w in s.workers && Active(s.workers[w].pc)
               && t.workers[w].pc.claim == s.workers[w].pc.claim
               && (t.workers[w].pc.MarkRunning? ==> s.workers[w].pc.MarkRunning?)
               && (t.workers[w].pc.Resolved? ==> s.workers[w].pc.Resolved?)
    ensures Inv(t)
  {
    forall j | j in t.db.jobs
      ensures JobOk(t, j)
    {
      JobFrame(s, t, j);
    }
    forall w | w in t.workers
      ensures WorkerOk(t, w)
    {
      if Active(t.workers[w].pc) {
        assert WorkerOk(s, w);
        WorkerFrame(s, t, w);
      }
    }
  }

  /** A step on row `j` alone: it suffices to look at that row and at the workers. */
  lemma OneRowKeepsInv(s: System, t: System, j: JobId)
    requires Inv(s) && Grows(s, t)
    requires j in t.db.jobs && JobOk(t, j)
    requires forall k :: k in t.db.jobs && k != j ==>
               && k in s.db.jobs && t.db.jobs[k] == s.db.jobs[k]
               && (k in s.holds ==> k in t.holds && t.holds[k] == s.holds[k])
    requires forall w :: w in t.workers ==> WorkerOk(t, w)
    ensures Inv(t)
  {
    forall k | k in t.db.jobs
      ensures JobOk(t, k)
    {
      if k != j {
        JobFrame(s, t, k);
      }
    }
  }

  lemma TakeoversPrefix(h: seq<Hold>, x: Hold)
    ensures Takeovers(h + [x]) == Takeovers(h) + (if x.fate.TakenOver? then 1 else 0)
  {
    assert (h + [x])[..|h|] == h;
  }

  lemma TakeoversUpdateLast(h: seq<Hold>, x: Hold)
    requires h != []
    ensures Takeovers(h[|h| - 1 := x]) + (if h[|h| - 1].fate.TakenOver? then 1 else 0)
         == Takeovers(h) + (if x.fate.TakenOver? then 1 else 0)
  {
    assert h[|h| - 1 := x][..|h| - 1] == h[..|h| - 1];
  }

  lemma TakeoversUpdateSameFate(h: seq<Hold>, i: nat, x: Hold)
    requires i < |h| && x.fate == h[i].fate
    ensures Takeovers(h[i := x]) == Takeovers(h)
  {
    var g := h[i := x];
    if i == |h| - 1 {
      TakeoversUpdateLast(h, x);
    } else {
      assert g[..|g| - 1] == h[..|h| - 1][i := x];
      TakeoversUpdateSameFate(h[..|h| - 1], i, x);
    }
  }

  predicate Free(job: Job, now: Time) {
    job.status.JobQueued? || job.status.JobRetryWait? || (job.status.JobRunning? && job.expires.Some? && job.expires.value < now)
  }

  lemma ClaimKeepsRow(job: Job, w: WorkerId, lease: nat, now: Time)
    requires RowOk(job)
    ensures RowOk(Claimed(job, w, lease, now))
  {
  }

  lemma ClaimedRow(job: Job, g: seq<Hold>, w: WorkerId, lease: nat, now: Time)
    requires HoldsOk(g, now) && |g| == job.attempts + 1 && job.attempts + 1 <= Budget(job.maxAttempts) + Takeovers(g)
    requires g[|g| - 1] == Hold(w, now, now + lease, Held, 0)
    ensures HistoryOk(Claimed(job, w, lease, now), g, now)
  {
  }

  /** Claiming a claimable row: the earlier claims are over by now, and the budget is exceeded only
      by takeovers. */
  lemma ClaimedHolds(job: Job, h: seq<Hold>, x: Hold, g: seq<Hold>, now: Time)
    requires RowOk(job) && HistoryOk(job, h, now) && Free(job, now)
    requires x.from == now <= x.until && x.fate.Held? && x.starts == 0 && g == Superseded(h) + [x]
    ensures HoldsOk(g, now) && |g| == job.attempts + 1 && job.attempts + 1 <= Budget(job.maxAttempts) + Takeovers(g)
  {
    SupersededFacts(job, h, now);
    TakeoversPrefix(Superseded(h), x);
    ClaimAppended(Superseded(h), x, now);
  }

  /** The earlier claims are over, and only a stale running row adds a takeover. */
  ghost predicate AllOver(h: seq<Hold>, now: Time) {
    forall i :: 0 <= i < |h| ==>
      && h[i].from <= h[i].until <= now && h[i].starts <= 1 && !h[i].fate.Held?
      && (h[i].fate.Released? ==> h[i].fate.worker == h[i].worker)
  }

  ghost predicate InSequence(h: seq<Hold>) {
    forall i, k :: 0 <= i < k < |h| ==> h[i].until <= h[k].from
  }

  lemma SupersededFacts(job: Job, h: seq<Hold>, now: Time)
    requires RowOk(job) && HistoryOk(job, h, now)
    requires Free(job, now)
    ensures AllOver(Superseded(h), now) && InSequence(Superseded(h)) && |Superseded(h)| == |h|
    ensures Takeovers(Superseded(h)) == Takeovers(h) + (if job.status.JobRunning? then 1 else 0)
  {
    if h != [] {
      TakeoversUpdateLast(h, h[|h| - 1].(fate := TakenOver));
    }
    forall i | 0 <= i < |h|
      ensures h[i].until <= now
    {
      if i < |h| - 1 {
        assert h[i].until <= h[i + 1].from;
      }
    }
  }

  lemma ClaimAppended(earlier: seq<Hold>, x: Hold, now: Time)
    requires AllOver(earlier, now) && InSequence(earlier)
    requires x.from == now <= x.until && x.fate.Held? && x.starts == 0
    ensures HoldsOk(earlier + [x], now)
  {
  }

  lemma TakeJobAdvances(s: System, w: WorkerId, j: JobId, v: WorkerId, k: JobId)
    requires w in s.workers && j in s.db.jobs && JobOk(s, j) && v != w
    requires k in s.db.jobs && k in s.holds && |s.holds[k]| == s.db.jobs[k].attempts
    ensures var t := DoTakeJob(s, w, j);
            && Advances(s, t, k, v)
            && forall i :: 0 <= i < |s.holds[k]| ==> t.holds[k][i].starts == s.holds[k][i].starts
  {
  }

  lemma TakeJobShape(s: System, w: WorkerId, j: JobId)
    requires w in s.workers && j in s.db.jobs && j in s.holds
    ensures var t := DoTakeJob(s, w, j); var x := Hold(w, s.clock, s.clock + s.workers[w].lease, Held, 0);
            && j in t.db.jobs && t.db.jobs[j] == Claimed(s.db.jobs[j], w, s.workers[w].lease, s.clock)
            && t.db.runs == s.db.runs && t.clock == s.clock
            && j in t.holds && t.holds[j] == Superseded(s.holds[j]) + [x]
            && w in t.workers && t.workers[w].lease == s.workers[w].lease
  {
  }

  lemma TakeJobRow(s: System, w: WorkerId, j: JobId)
    requires w in s.workers && j in s.db.jobs && JobOk(s, j) && Claimable(s.db, s.clock, j)
    ensures JobOk(DoTakeJob(s, w, j), j)
  {
    var lease, now, job := s.workers[w].lease, s.clock, s.db.jobs[j];
    var t := DoTakeJob(s, w, j);
    TakeJobShape(s, w, j);
    ClaimedHolds(job, s.holds[j], Hold(w, now, now + lease, Held, 0), t.holds[j], now);
    ClaimKeepsRow(job, w, lease, now);
    ClaimedRow(job, t.holds[j], w, lease, now);
  }

  lemma TakeJobWorker(s: System, w: WorkerId, j: JobId, v: WorkerId)
    requires w in s.workers && j in s.db.jobs && JobOk(s, j)
    requires v in s.workers && WorkerOk(s, v)
    ensures WorkerOk(DoTakeJob(s, w, j), v)
  {
    if v != w && Active(s.workers[v].pc) {
      TakeJobAdvances(s, w, j, v, s.workers[v].pc.claim.job);
      WorkerFrame(s, DoTakeJob(s, w, j), v);
    }
  }

  lemma TakeJobKeepsInv(s: System, w: WorkerId, j: JobId)
    requires Inv(s) && w in s.workers && Claimable(s.db, s.clock, j)
    ensures Inv(DoTakeJob(s, w, j))
  {
    TakeJobRow(s, w, j);
    TakeJobWorkers(s, w, j);
    OneRowKeepsInv(s, DoTakeJob(s, w, j), j);
  }

  lemma TakeJobWorkers(s: System, w: WorkerId, j: JobId)
    requires Inv(s) && w in s.workers && j in s.db.jobs
    ensures forall v :: v in DoTakeJob(s, w, j).workers ==> WorkerOk(DoTakeJob(s, w, j), v)
  {
    forall v | v in DoTakeJob(s, w, j).workers
      ensures WorkerOk(DoTakeJob(s, w, j), v)
    {
      TakeJobWorker(s, w, j, v);
    }
  }

  /** A transaction of worker `w` that only touches its own running row: it extends the
      lease or ends the claim. */
  ghost predicate OwnRowStep(before: Job, after: Job, w: WorkerId, lease: nat, now: Time) {
    && after.run == before.run && after.maxAttempts == before.maxAttempts && after.attempts == before.attempts
    && (after == before
        || (&& before.status.JobRunning? && before.owner == Some(w)
            && RowOk(after)
            && (after.status.JobRunning? ==> after.owner == before.owner && after.expires == Some(now + lease))))
  }

  lemma OwnRowStepKeepsHistory(before: Job, after: Job, h: seq<Hold>, w: WorkerId, lease: nat, now: Time)
    requires RowOk(before) && HistoryOk(before, h, now)
    requires OwnRowStep(before, after, w, lease, now)
    ensures RowOk(after) && HistoryOk(after, Recorded(h, before, after, w, now), now)
  {
    if after != before {
      var last := h[|h| - 1];
      TakeoversUpdateLast(h, last.(fate := Released(w), until := now));
      if after.expires.Some? {
        TakeoversUpdateLast(h, last.(until := after.expires.value));
      }
    }
  }

  lemma OwnRowStepKeepsInv(s: System, t: System, w: WorkerId, j: JobId, db: Tables)
    requires Inv(s)
    requires w in s.workers && j in s.db.jobs && j in db.jobs && j in s.holds
    requires OwnRowStep(s.db.jobs[j], db.jobs[j], w, s.workers[w].lease, s.clock)
    requires db.runs == s.db.runs && db.jobs == s.db.jobs[j := db.jobs[j]]
    requires t == RecordJob(s, db, w, j)
    ensures Inv(t)
  {
    assert JobOk(s, j);
    OwnRowStepJob(s, t, w, j, db);
    forall v | v in t.workers
      ensures WorkerOk(t, v)
    {
      assert WorkerOk(s, v);
      OwnRowStepWorker(s, t, w, j, db, v);
    }
    RecordFrame(s, t, w, j, db);
    OneRowKeepsInv(s, t, j);
  }

  lemma RecordFrame(s: System, t: System, w: WorkerId, j: JobId, db: Tables)
    requires j in s.db.jobs && j in db.jobs && j in s.holds
    requires db.runs == s.db.runs && db.jobs == s.db.jobs[j := db.jobs[j]]
    requires t == RecordJob(s, db, w, j)
    ensures Grows(s, t) && t.db == db && t.workers == s.workers && t.clock == s.clock
    ensures forall k :: k in t.db.jobs && k != j ==>
              && k in s.db.jobs && t.db.jobs[k] == s.db.jobs[k]
              && (k in s.holds ==> k in t.holds && t.holds[k] == s.holds[k])
  {
  }

  lemma OwnRowStepJob(s: System, t: System, w: WorkerId, j: JobId, db: Tables)
    requires w in s.workers && j in s.db.jobs && j in db.jobs && JobOk(s, j)
    requires OwnRowStep(s.db.jobs[j], db.jobs[j], w, s.workers[w].lease, s.clock)
    requires db.runs == s.db.runs && t == RecordJob(s, db, w, j)
    ensures JobOk(t, j)
  {
    OwnRowStepKeepsHistory(s.db.jobs[j], db.jobs[j], s.holds[j], w, s.workers[w].lease, s.clock);
  }

  lemma OwnRowStepWorker(s: System, t: System, w: WorkerId, j: JobId, db: Tables, v: WorkerId)
    requires j in s.db.jobs && j in db.jobs && j in s.holds && JobOk(s, j)
    requires w in s.workers && OwnRowStep(s.db.jobs[j], db.jobs[j], w, s.workers[w].lease, s.clock)
    requires db.jobs == s.db.jobs[j := db.jobs[j]]
    requires t == RecordJob(s, db, w, j) && v in s.workers && WorkerOk(s, v)
    ensures WorkerOk(t, v)
  {
    if Active(s.workers[v].pc) {
      OwnRowStepAdvances(s, t, w, j, db, v, s.workers[v].pc.claim.job);
      WorkerFrame(s, t, v);
    }
  }

  lemma OwnRowStepAdvances(s: System, t: System, w: WorkerId, j: JobId, db: Tables, v: WorkerId, k: JobId)
    requires j in s.db.jobs && j in db.jobs && j in s.holds && JobOk(s, j)
    requires w in s.workers && OwnRowStep(s.db.jobs[j], db.jobs[j], w, s.workers[w].lease, s.clock)
    requires db.jobs == s.db.jobs[j := db.jobs[j]]
    requires t == RecordJob(s, db, w, j)
    requires k in s.db.jobs && k in s.holds && |s.holds[k]| == s.db.jobs[k].attempts
    ensures Advances(s, t, k, v)
    ensures k in t.holds && |t.holds[k]| == |s.holds[k]|
    ensures forall i :: 0 <= i < |s.holds[k]| ==> t.holds[k][i].starts == s.holds[k][i].starts
  {
  }

  lemma ResolveTxIsOwnRowStep(db: Tables, w: WorkerId, retryDelay: nat, lease: nat, now: Time, c: Claim, v: Verdict)
    requires c.job in db.jobs && RowOk(db.jobs[c.job])
    ensures var after := ResolveTx(db, w, retryDelay, now, c, v);
            && after.runs == db.runs && c.job in after.jobs
            && after.jobs == db.jobs[c.job := after.jobs[c.job]]
            && OwnRowStep(db.jobs[c.job], after.jobs[c.job], w, lease, now)
            && after.jobs[c.job].owner != Some(w)
  {
    var after := ResolveTx(db, w, retryDelay, now, c, v);
    if !Owns(db, w, c.job) {
      assert db.jobs == db.jobs[c.job := db.jobs[c.job]];
    }
  }

  /** Counting a handler start keeps the row's history in order. */
  lemma CountStartKeepsHistory(job: Job, h: seq<Hold>, attempt: nat, now: Time)
    requires HistoryOk(job, h, now)
    requires 0 < attempt <= |h| && h[attempt - 1].starts == 0
    ensures HistoryOk(job, CountStart(h, attempt), now)
  {
    TakeoversUpdateSameFate(h, attempt - 1, h[attempt - 1].(starts := 1));
    var g := CountStart(h, attempt);
    assert g == h[attempt - 1 := h[attempt - 1].(starts := 1)];
    assert forall i :: 0 <= i < |g| ==> g[i].starts <= 1 && g[i] == h[i].(starts := g[i].starts);
  }

  lemma WriteRunningRow(s: System, w: WorkerId)
    requires w in s.workers && WorkerOk(s, w) && s.workers[w].pc.MarkRunning?
    requires JobOk(s, s.workers[w].pc.claim.job)
    ensures JobOk(DoWriteRunning(s, w), s.workers[w].pc.claim.job)
  {
    var c := s.workers[w].pc.claim;
    CountStartKeepsHistory(s.db.jobs[c.job], s.holds[c.job], c.attempt, s.clock);
  }

  lemma WriteRunningWorker(s: System, w: WorkerId, v: WorkerId)
    requires w in s.workers && WorkerOk(s, w) && s.workers[w].pc.MarkRunning?
    requires v in s.workers && WorkerOk(s, v)
    ensures WorkerOk(DoWriteRunning(s, w), v)
  {
    var t := DoWriteRunning(s, w);
    if Active(s.workers[v].pc) {
      assert Advances(s, t, s.workers[v].pc.claim.job, v);
      WorkerFrame(s, t, v);
    }
  }

  lemma WriteRunningKeepsInv(s: System, w: WorkerId)
    requires Inv(s) && w in s.workers && s.workers[w].pc.MarkRunning?
    ensures Inv(DoWriteRunning(s, w))
  {
    var t := DoWriteRunning(s, w);
    WriteRunningRow(s, w);
    forall v | v in t.workers
      ensures WorkerOk(t, v)
    {
      WriteRunningWorker(s, w, v);
    }
    OneRowKeepsInv(s, t, s.workers[w].pc.claim.job);
  }

  lemma NewJobKeepsInv(s: System, t: System, r: RunId, j: JobId)
    requires Inv(s) && j !in s.db.jobs
    requires t.db.jobs == s.db.jobs[j := NewJob(r, s.clock)] && t.holds == s.holds[j := []]
    requires t.clock == s.clock && t.workers == s.workers
    requires r in t.db.runs && forall q :: q in s.db.runs ==> q in t.db.runs
    ensures Inv(t)
  {
    forall v | v in t.workers
      ensures WorkerOk(t, v)
    {
      assert WorkerOk(s, v);
      if Active(s.workers[v].pc) {
        WorkerFrame(s, t, v);
      }
    }
    OneRowKeepsInv(s, t, j);
  }

  lemma ResolveKeepsInv(s: System, w: WorkerId)
    requires Inv(s) && Enabled(s, ResolveJob(w))
    ensures Inv(Next(s, ResolveJob(w)))
  {
    var Handled(c, v) := s.workers[w].pc;
    var wk := s.workers[w];
    assert WorkerOk(s, w) && JobOk(s, c.job);
    ResolveTxIsOwnRowStep(s.db, w, wk.retryDelay, wk.lease, s.clock, c, v);
    var db := ResolveTx(s.db, w, wk.retryDelay, s.clock, c, v);
    var s1 := RecordJob(s, db, w, c.job);
    OwnRowStepKeepsInv(s, s1, w, c.job, db);
    assert WorkerOk(s1, w);
    LeaveKeepsInv(s1, w, if OutcomeWrite(c, v).Some? then Resolved(c, v) else Idle);
  }

  /** A worker that no longer owns its row moves on to the run write, or becomes idle. */
  lemma LeaveKeepsInv(s: System, w: WorkerId, pc: Pc)
    requires Inv(s) && w in s.workers && Active(s.workers[w].pc)
    requires pc.Idle? || (pc.Resolved? && pc.claim == s.workers[w].pc.claim
                          && pc.claim.job in s.db.jobs && s.db.jobs[pc.claim.job].owner != Some(w))
    ensures Inv(SetPc(s, w, pc))
  {
    var t := SetPc(s, w, pc);
    forall k | k in t.db.jobs
      ensures JobOk(t, k)
    {
      JobFrame(s, t, k);
    }
    forall x | x in t.workers
      ensures WorkerOk(t, x)
    {
      assert WorkerOk(s, x);
      if Active(t.workers[x].pc) {
        WorkerFrame(s, t, x);
      }
    }
  }

  lemma BeatKeepsInv(s: System, w: WorkerId)
    requires Inv(s) && Enabled(s, Beat(w))
    ensures Inv(Next(s, Beat(w)))
  {
    var j := s.workers[w].pc.claim.job;
    assert WorkerOk(s, w) && JobOk(s, j);
    var db := HeartbeatTx(s.db, w, s.workers[w].lease, s.clock, j);
    OwnRowStepKeepsInv(s, Next(s, Beat(w)), w, j, db);
  }

  /** A worker's step that writes at most runs and approvals. */
  lemma SetPcKeepsInv(s: System, db: Tables, w: WorkerId, pc: Pc)
    requires Inv(s) && w in s.workers
    requires db.jobs == s.db.jobs && forall r :: r in s.db.runs ==> r in db.runs
    requires Active(pc) ==> Active(s.workers[w].pc) && pc.claim == s.workers[w].pc.claim && !pc.MarkRunning? && !pc.Resolved?
    ensures Inv(SetPc(s.(db := db), w, pc))
  {
    FrameKeepsInv(s, SetPc(s.(db := db), w, pc));
  }

  predicate Local(l: Label) {
    || l.ReadRun? || l.ReadSnapshot? || l.CheckCancel? || l.StartNode? || l.EndNode? || l.EndGraph? || l.Store?
    || l.HandlerError? || l.AbortOnLostLease? || l.WriteOutcome? || l.Escape? || l.Crash?
  }

  /** Steps that move one worker's program counter and write at most the run table. */
  lemma LocalStepShape(s: System, l: Label)
    requires Local(l) && Enabled(s, l)
    ensures l.w in s.workers
    ensures var t := Next(s, l);
            && l.w in t.workers
            && t == SetPc(s.(db := t.db), l.w, t.workers[l.w].pc)
            && t.db.jobs == s.db.jobs && t.db.approvals == s.db.approvals
            && t.db.runs.Keys == s.db.runs.Keys
            && var pc := t.workers[l.w].pc;
               Active(pc) ==> Active(s.workers[l.w].pc) && pc.claim == s.workers[l.w].pc.claim && !pc.MarkRunning? && !pc.Resolved?
  {
  }

  lemma LocalStepKeepsInv(s: System, l: Label)
    requires Inv(s) && Local(l) && Enabled(s, l)
    ensures Inv(Next(s, l))
  {
    LocalStepShape(s, l);
    var t := Next(s, l);
    SetPcKeepsInv(s, t.db, l.w, t.workers[l.w].pc);
  }

  lemma WorkerStepKeepsInv(s: System, l: Label)
    requires Inv(s) && Enabled(s, l)
    requires !l.Tick? && !l.AddWorker? && !l.CreateRun? && !l.Cancel? && !l.Decide? && !l.RequestApproval?
    ensures Inv(Next(s, l))
  {
    match l
    case TakeJob(w, j, _) => TakeJobKeepsInv(s, w, j);
    case WriteRunning(w) => WriteRunningKeepsInv(s, w);
    case Beat(w) => BeatKeepsInv(s, w);
    case ResolveJob(w) => ResolveKeepsInv(s, w);
    case _ => LocalStepKeepsInv(s, l);
  }

  lemma DecideKeepsInv(s: System, l: Label, t: System)
    requires Inv(s) && l.Decide? && Enabled(s, l) && t == Next(s, l)
    ensures Inv(t)
  {
    if Resumes(s.db, l.a, s.clock) {
      NewJobKeepsInv(s, t, s.db.approvals[l.a].run, l.j);
    } else {
      FrameKeepsInv(s, t);
    }
  }

  lemma StepKeepsInv(s: System, l: Label)
    requires Inv(s) && Enabled(s, l)
    ensures Inv(Next(s, l))
  {
    var t := Next(s, l);
    match l
    case Tick(d) => FrameKeepsInv(s, t);
    case AddWorker(_, _, _) => FrameKeepsInv(s, t);
    case CreateRun(r, j, _) => NewJobKeepsInv(s, t, r, j);
    case Cancel(_) => FrameKeepsInv(s, t);
    case Decide(_, _, _, _) => DecideKeepsInv(s, l, t);
    case RequestApproval(_, _, _, _, _, _) => FrameKeepsInv(s, t);
    case _ => WorkerStepKeepsInv(s, l);
  }
}
