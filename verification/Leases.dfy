/** Fencing, lease exclusion and attempt accounting over every run of the protocol. */
module Leases {
  import opened Domain
  import opened Transactions
  import opened Protocol
  import opened Fencing

  lemma {:induction false} RunKeepsInv(s: System, ls: seq<Label>)
    requires Inv(s) && Legal(s, ls)
    ensures Inv(Exec(s, ls))
    decreases |ls|
  {
    if ls != [] {
      StepKeepsInv(s, ls[0]);
      RunKeepsInv(Next(s, ls[0]), ls[1..]);
    }
  }

  /** A reachable state is one some legal sequence of steps leads to. */
  ghost predicate Reachable(s: System) {
    exists ls :: Legal(Init(), ls) && s == Exec(Init(), ls)
  }

  lemma {:induction false} ExecSnoc(s: System, ls: seq<Label>, l: Label)
    requires Legal(s, ls) && Enabled(Exec(s, ls), l)
    ensures Legal(s, ls + [l]) && Exec(s, ls + [l]) == Next(Exec(s, ls), l)
    decreases |ls|
  {
    if ls == [] {
      ExecCons(s, l, []);
      assert [] + [l] == [l] + [];
    } else {
      ExecSnoc(Next(s, ls[0]), ls[1..], l);
      ExecCons(s, ls[0], ls[1..] + [l]);
      assert [ls[0]] + (ls[1..] + [l]) == ls + [l];
    }
  }

  lemma ReachableStep(s: System, l: Label)
    requires Reachable(s) && Enabled(s, l)
    ensures Reachable(Next(s, l))
  {
    var ls :| Legal(Init(), ls) && s == Exec(Init(), ls);
    ExecSnoc(Init(), ls, l);
  }

  lemma InitReachable()
    ensures Reachable(Init())
  {
    assert Legal(Init(), []) && Exec(Init(), []) == Init();
  }

  lemma ReachableInv(s: System)
    requires Reachable(s)
    ensures Inv(s)
  {
    var ls :| Legal(Init(), ls) && s == Exec(Init(), ls);
    RunKeepsInv(Init(), ls);
  }

  /** No step removes a run. */
  lemma RunsStay(s: System, l: Label, r: RunId)
    requires Enabled(s, l) && r in s.db.runs
    ensures r in Next(s, l).db.runs
  {
  }

  // ---- what one step may do to the history of a job ----

  /** `g` continues `h`: no claim is forgotten or re-attributed, leases only grow, and a
      claim that is over stays over in the same way. */
  ghost predicate Continues(h: seq<Hold>, g: seq<Hold>) {
    && |h| <= |g|
    && forall i :: 0 <= i < |h| ==>
         && g[i].worker == h[i].worker && g[i].from == h[i].from && h[i].starts <= g[i].starts
         && (!h[i].fate.Held? ==> g[i].fate == h[i].fate && g[i].until == h[i].until)
  }

  /** Before an open claim ends, its lease only grows. */
  ghost predicate LeaseGrows(h: seq<Hold>, g: seq<Hold>) {
    && |h| <= |g|
    && forall i :: 0 <= i < |h| && g[i].fate.Held? ==> h[i].until <= g[i].until
  }

  /** A heartbeat never shortens the lease it renews. */
  lemma HeartbeatNeverShortens(s: System, w: WorkerId)
    requires Inv(s) && Enabled(s, Beat(w))
    ensures var j := s.workers[w].pc.claim.job;
            && j in s.db.jobs && s.db.jobs[j].expires.Some?
            && var t := Next(s, Beat(w));
            && t.db.jobs[j].owner == Some(w)
            && t.db.jobs[j].expires.Some?
            && s.db.jobs[j].expires.value <= t.db.jobs[j].expires.value == s.clock + s.workers[w].lease
  {
    assert WorkerOk(s, w) && JobOk(s, s.workers[w].pc.claim.job);
  }

  /** The steps that touch row `j` or its history. */
  ghost predicate Touches(s: System, l: Label, j: JobId) {
    || (l.TakeJob? && l.j == j)
    || ((l.WriteRunning? || l.Beat? || l.ResolveJob?) && Active(PcOf(s, l.w)) && PcOf(s, l.w).claim.job == j)
  }

  lemma UntouchedByWorker(s: System, l: Label, j: JobId)
    requires Enabled(s, l) && j in s.db.jobs && j in s.holds && !Touches(s, l, j)
    requires l.WriteRunning? || l.Beat? || l.ResolveJob? || l.TakeJob?
    ensures var t := Next(s, l);
            j in t.db.jobs && t.db.jobs[j] == s.db.jobs[j] && j in t.holds && t.holds[j] == s.holds[j]
  {
  }

  lemma UntouchedRow(s: System, l: Label, j: JobId)
    requires Enabled(s, l) && j in s.db.jobs && j in s.holds && !Touches(s, l, j)
    ensures var t := Next(s, l);
            j in t.db.jobs && t.db.jobs[j] == s.db.jobs[j] && j in t.holds && t.holds[j] == s.holds[j]
  {
    if Local(l) {
      LocalStepShape(s, l);
    } else if l.WriteRunning? || l.Beat? || l.ResolveJob? || l.TakeJob? {
      UntouchedByWorker(s, l, j);
    }
  }

  lemma ClaimContinues(h: seq<Hold>, x: Hold)
    requires forall i :: 0 <= i < |h| && h[i].fate.Held? ==> i == |h| - 1
    ensures Continues(h, Superseded(h) + [x]) && LeaseGrows(h, Superseded(h) + [x])
  {
  }

  lemma RecordContinues(h: seq<Hold>, before: Job, after: Job, w: WorkerId, now: Time)
    requires h != [] ==> h[|h| - 1].fate.Held? || after == before
    requires after.expires.Some? && h != [] && after != before ==> h[|h| - 1].until <= after.expires.value
    ensures Continues(h, Recorded(h, before, after, w, now)) && LeaseGrows(h, Recorded(h, before, after, w, now))
  {
  }

  lemma ResolveContinues(s: System, w: WorkerId)
    requires Inv(s) && Enabled(s, ResolveJob(w))
    ensures var j := s.workers[w].pc.claim.job; var t := DoResolve(s, w);
            && j in s.holds && j in t.db.jobs && j in t.holds
            && Continues(s.holds[j], t.holds[j]) && LeaseGrows(s.holds[j], t.holds[j])
  {
    var Handled(c, v) := s.workers[w].pc;
    assert WorkerOk(s, w) && JobOk(s, c.job);
    ResolveTxIsOwnRowStep(s.db, w, s.workers[w].retryDelay, s.workers[w].lease, s.clock, c, v);
    var db := ResolveTx(s.db, w, s.workers[w].retryDelay, s.clock, c, v);
    RecordContinues(s.holds[c.job], s.db.jobs[c.job], db.jobs[c.job], w, s.clock);
  }

  lemma BeatContinues(s: System, w: WorkerId)
    requires Inv(s) && Enabled(s, Beat(w))
    ensures var j := s.workers[w].pc.claim.job; var t := DoBeat(s, w);
            && j in s.holds && j in t.db.jobs && j in t.holds
            && Continues(s.holds[j], t.holds[j]) && LeaseGrows(s.holds[j], t.holds[j])
  {
    var j := s.workers[w].pc.claim.job;
    assert WorkerOk(s, w) && JobOk(s, j);
    var db := HeartbeatTx(s.db, w, s.workers[w].lease, s.clock, j);
    RecordContinues(s.holds[j], s.db.jobs[j], db.jobs[j], w, s.clock);
  }

  lemma TakeJobContinues(s: System, w: WorkerId, j: JobId)
    requires w in s.workers && j in s.db.jobs && JobOk(s, j)
    ensures var t := DoTakeJob(s, w, j);
            && j in t.db.jobs && j in t.holds
            && Continues(s.holds[j], t.holds[j]) && LeaseGrows(s.holds[j], t.holds[j])
  {
    ClaimContinues(s.holds[j], Hold(w, s.clock, s.clock + s.workers[w].lease, Held, 0));
  }

  lemma WriteRunningContinues(s: System, w: WorkerId, j: JobId)
    requires w in s.workers && s.workers[w].pc.MarkRunning? && j in s.holds && j in s.db.jobs
    ensures var t := DoWriteRunning(s, w);
            && j in t.db.jobs && j in t.holds
            && Continues(s.holds[j], t.holds[j]) && LeaseGrows(s.holds[j], t.holds[j])
  {
  }

  lemma StepContinues(s: System, l: Label, j: JobId)
    requires Inv(s) && Enabled(s, l) && j in s.db.jobs
    ensures var t := Next(s, l);
            && j in s.holds && j in t.db.jobs && j in t.holds
            && Continues(s.holds[j], t.holds[j]) && LeaseGrows(s.holds[j], t.holds[j])
  {
    assert JobOk(s, j);
    if !Touches(s, l, j) {
      UntouchedRow(s, l, j);
    } else {
      match l
      case Beat(w) => BeatContinues(s, w);
      case ResolveJob(w) => ResolveContinues(s, w);
      case TakeJob(w, _, _) => TakeJobContinues(s, w, j);
      case WriteRunning(w) => WriteRunningContinues(s, w, j);
    }
  }

  lemma {:induction false} RunContinues(s: System, ls: seq<Label>, j: JobId)
    requires Inv(s) && Legal(s, ls) && j in s.db.jobs
    ensures var t := Exec(s, ls);
            j in s.holds && j in t.db.jobs && j in t.holds && Continues(s.holds[j], t.holds[j])
    decreases |ls|
  {
    assert JobOk(s, j);
    if ls != [] {
      StepContinues(s, ls[0], j);
      StepKeepsInv(s, ls[0]);
      RunContinues(Next(s, ls[0]), ls[1..], j);
    }
  }

  // ---- fencing ----

  /** A claim is released only when the worker that made it resolves it, with exactly this
      attempt as its local claim and while the row still names it as owner. */
  lemma ReleasedOnlyByClaimant(s: System, l: Label, j: JobId, i: nat)
    requires Inv(s) && Enabled(s, l) && j in s.db.jobs && j in s.holds && i < |s.holds[j]|
    requires s.holds[j][i].fate.Held?
    requires var t := Next(s, l); j in t.holds && i < |t.holds[j]| && t.holds[j][i].fate.Released?
    ensures l.ResolveJob?
    ensures var w := s.holds[j][i].worker;
            && l.w == w && w in s.workers && s.workers[w].pc.Handled?
            && s.workers[w].pc.claim.job == j && s.workers[w].pc.claim.attempt == i + 1
            && s.db.jobs[j].owner == Some(w)
  {
    assert JobOk(s, j);
    if !Touches(s, l, j) {
      UntouchedRow(s, l, j);
    } else if l.ResolveJob? {
      assert WorkerOk(s, l.w);
      ReleaseIsOwn(s, l.w, j, i);
    } else if l.TakeJob? {
      TakeReleasesNone(s, l.w, j, i);
    } else if l.WriteRunning? {
      MarkReleasesNone(s, l.w, j, i);
    } else {
      BeatReleasesNone(s, l.w, j, i);
    }
  }

  lemma TakeReleasesNone(s: System, w: WorkerId, j: JobId, i: nat)
    requires w in s.workers && j in s.db.jobs && j in s.holds && i < |s.holds[j]| && s.holds[j][i].fate.Held?
    ensures var t := DoTakeJob(s, w, j); j in t.holds && i < |t.holds[j]| && !t.holds[j][i].fate.Released?
  {
  }

  lemma MarkReleasesNone(s: System, w: WorkerId, j: JobId, i: nat)
    requires w in s.workers && s.workers[w].pc.MarkRunning? && j in s.holds && i < |s.holds[j]| && s.holds[j][i].fate.Held?
    ensures var t := DoWriteRunning(s, w); j in t.holds && i < |t.holds[j]| && !t.holds[j][i].fate.Released?
  {
  }

  lemma BeatReleasesNone(s: System, w: WorkerId, j: JobId, i: nat)
    requires Enabled(s, Beat(w)) && j in s.holds && i < |s.holds[j]| && s.holds[j][i].fate.Held?
    ensures var t := DoBeat(s, w); j in t.holds && i < |t.holds[j]| && !t.holds[j][i].fate.Released?
  {
  }

  lemma ReleaseIsOwn(s: System, w: WorkerId, j: JobId, i: nat)
    requires Enabled(s, ResolveJob(w)) && j in s.db.jobs && JobOk(s, j) && WorkerOk(s, w)
    requires s.workers[w].pc.claim.job == j && i < |s.holds[j]| && s.holds[j][i].fate.Held?
    requires var t := DoResolve(s, w); j in t.holds && i < |t.holds[j]| && t.holds[j][i].fate.Released?
    ensures s.db.jobs[j].owner == Some(w) && s.holds[j][i].worker == w && s.workers[w].pc.claim.attempt == i + 1
  {
  }

  /** A completed or failed job row never changes again, although `complete` and
      `_fail_without_retry` test the owner only. */
  lemma FinishedJobFrozen(s: System, l: Label, j: JobId)
    requires Inv(s) && Enabled(s, l) && j in s.db.jobs && JobOver(s.db.jobs[j].status)
    ensures var t := Next(s, l);
            j in t.db.jobs && t.db.jobs[j] == s.db.jobs[j]
  {
    assert JobOk(s, j);
    if !Touches(s, l, j) {
      UntouchedRow(s, l, j);
    } else {
      FinishedRowUntouched(s, l, j);
    }
  }

  /** The steps that could touch the row find it without an owner. */
  lemma FinishedRowUntouched(s: System, l: Label, j: JobId)
    requires Enabled(s, l) && j in s.db.jobs && RowOk(s.db.jobs[j]) && JobOver(s.db.jobs[j].status) && Touches(s, l, j)
    ensures var t := Next(s, l);
            j in t.db.jobs && t.db.jobs[j] == s.db.jobs[j]
  {
  }

  lemma {:induction false} FinishedJobFrozenForever(s: System, ls: seq<Label>, j: JobId)
    requires Inv(s) && Legal(s, ls) && j in s.db.jobs && JobOver(s.db.jobs[j].status)
    ensures var t := Exec(s, ls);
            j in t.db.jobs && t.db.jobs[j] == s.db.jobs[j]
    decreases |ls|
  {
    if ls != [] {
      FinishedJobFrozen(s, ls[0], j);
      StepKeepsInv(s, ls[0]);
      FinishedJobFrozenForever(Next(s, ls[0]), ls[1..], j);
    }
  }

  /** Fencing, over every interleaving with crashes, takeovers and late ex-owners: the
      owner column is set exactly while the job runs; the open claim is the latest one and
      belongs to the owner; every other claim is over, and a released claim was released by
      the worker that made it. */
  lemma Fenced(s: System, j: JobId)
    requires Reachable(s) && j in s.db.jobs
    ensures s.db.jobs[j].owner.Some? <==> s.db.jobs[j].status.JobRunning?
    ensures j in s.holds && |s.holds[j]| == s.db.jobs[j].attempts
    ensures forall i :: 0 <= i < |s.holds[j]| ==>
              (s.holds[j][i].fate.Held? <==> i == |s.holds[j]| - 1 && s.db.jobs[j].owner == Some(s.holds[j][i].worker))
    ensures forall i :: 0 <= i < |s.holds[j]| && s.holds[j][i].fate.Released? ==>
              s.holds[j][i].fate.worker == s.holds[j][i].worker
  {
    ReachableInv(s);
    assert JobOk(s, j);
  }

  /** No claim is resolved twice: once over, it is over in the same way in every later state. */
  lemma ResolvedAtMostOnce(s: System, ls: seq<Label>, j: JobId, i: nat)
    requires Reachable(s) && Legal(s, ls) && j in s.db.jobs && j in s.holds && i < |s.holds[j]|
    requires !s.holds[j][i].fate.Held?
    ensures var t := Exec(s, ls);
            && j in t.holds && i < |t.holds[j]|
            && t.holds[j][i].fate == s.holds[j][i].fate && t.holds[j][i].until == s.holds[j][i].until
  {
    ReachableInv(s);
    RunContinues(s, ls, j);
  }

  // ---- leases over time ----

  /** Successive owners of a job hold it one after the other: the claim that came later
      starts no earlier than the earlier one ended, so no two claims hold the row at one time. */
  lemma LeasesExclude(s: System, j: JobId, i: nat, k: nat, at: Time)
    requires Reachable(s) && j in s.db.jobs && j in s.holds && i < k < |s.holds[j]|
    ensures s.holds[j][i].from <= s.holds[j][i].until <= s.holds[j][k].from <= s.holds[j][k].until
    ensures !(s.holds[j][i].from <= at < s.holds[j][i].until && s.holds[j][k].from <= at < s.holds[j][k].until)
  {
    ReachableInv(s);
    assert JobOk(s, j);
  }

  lemma ResolveNamesNoOwner(s: System, w: WorkerId)
    requires Inv(s) && Enabled(s, ResolveJob(w))
    ensures var j := s.workers[w].pc.claim.job;
            && j in s.db.jobs && j in DoResolve(s, w).db.jobs
            && (DoResolve(s, w).db.jobs[j].owner == s.db.jobs[j].owner || DoResolve(s, w).db.jobs[j].owner.None?)
  {
    var Handled(c, v) := s.workers[w].pc;
    assert WorkerOk(s, w) && JobOk(s, c.job);
    ResolveTxIsOwnRowStep(s.db, w, s.workers[w].retryDelay, s.workers[w].lease, s.clock, c, v);
  }

  /** Only a claim names a new owner, and a row that has an owner gets another one only
      after the stored expiry has passed. */
  lemma OwnerChangesOnlyAfterExpiry(s: System, l: Label, j: JobId, w: WorkerId)
    requires Inv(s) && Enabled(s, l) && j in s.db.jobs
    requires var t := Next(s, l); j in t.db.jobs && t.db.jobs[j].owner == Some(w) && s.db.jobs[j].owner != Some(w)
    ensures l.TakeJob? && l.w == w && l.j == j
    ensures s.db.jobs[j].owner.Some? ==> s.db.jobs[j].expires.Some? && s.db.jobs[j].expires.value < s.clock
  {
    assert JobOk(s, j);
    if !Touches(s, l, j) {
      UntouchedRow(s, l, j);
    } else if l.ResolveJob? {
      ResolveNamesNoOwner(s, l.w);
    } else if l.TakeJob? {
      TakeNamesOwner(s, l.w, l.j);
    } else {
      OwnerKept(s, l, j);
    }
  }

  lemma TakeNamesOwner(s: System, w: WorkerId, j: JobId)
    requires w in s.workers && j in s.db.jobs && RowOk(s.db.jobs[j]) && Claimable(s.db, s.clock, j)
    ensures j in DoTakeJob(s, w, j).db.jobs && DoTakeJob(s, w, j).db.jobs[j].owner == Some(w)
    ensures s.db.jobs[j].owner.Some? ==> s.db.jobs[j].expires.Some? && s.db.jobs[j].expires.value < s.clock
  {
  }

  /** Marking the run and renewing the lease leave the owner as it is. */
  lemma OwnerKept(s: System, l: Label, j: JobId)
    requires Enabled(s, l) && (l.WriteRunning? || l.Beat?) && j in s.db.jobs
    ensures j in Next(s, l).db.jobs && Next(s, l).db.jobs[j].owner == s.db.jobs[j].owner
  {
  }

  // ---- attempts ----

  lemma StartsBounded(h: seq<Hold>)
    requires forall i :: 0 <= i < |h| ==> h[i].starts <= 1
    ensures HandlerStarts(h) <= |h|
  {
  }

  /** `attempt_count` is the number of claims made, and it passes the budget only by stale
      takeovers; so the handler starts at most budget plus takeovers many times. */
  lemma AttemptsAccounted(s: System, j: JobId)
    requires Reachable(s) && j in s.db.jobs
    ensures var job := s.db.jobs[j];
            && j in s.holds && job.attempts == |s.holds[j]|
            && (job.status.JobQueued? <==> job.attempts == 0)
            && (job.status.JobRetryWait? ==> 0 < job.attempts < Budget(job.maxAttempts))
            && HandlerStarts(s.holds[j]) <= job.attempts <= Budget(job.maxAttempts) + Takeovers(s.holds[j])
  {
    ReachableInv(s);
    assert JobOk(s, j);
    StartsBounded(s.holds[j]);
  }

  ghost predicate DefaultBudgets(s: System) {
    forall j :: j in s.db.jobs ==> s.db.jobs[j].maxAttempts == DEFAULT_ATTEMPTS
  }

  lemma StepKeepsBudgets(s: System, l: Label)
    requires DefaultBudgets(s) && Enabled(s, l)
    ensures DefaultBudgets(Next(s, l))
  {
    if Local(l) {
      LocalStepShape(s, l);
    }
  }

  lemma {:induction false} RunKeepsBudgets(s: System, ls: seq<Label>)
    requires DefaultBudgets(s) && Legal(s, ls)
    ensures DefaultBudgets(Exec(s, ls))
    decreases |ls|
  {
    if ls != [] {
      StepKeepsBudgets(s, ls[0]);
      RunKeepsBudgets(Next(s, ls[0]), ls[1..]);
    }
  }

  /** Jobs are only ever created with the default budget, so no handler is started more than three
      times without a takeover. */
  lemma ThreeStartsWithoutTakeover(s: System, j: JobId)
    requires Reachable(s) && j in s.db.jobs
    ensures j in s.holds && HandlerStarts(s.holds[j]) <= 3 + Takeovers(s.holds[j])
  {
    var ls :| Legal(Init(), ls) && s == Exec(Init(), ls);
    RunKeepsBudgets(Init(), ls);
    AttemptsAccounted(s, j);
  }
}
