/** When is a paused run paused for good? */
module PausedRuns {
  import opened Domain
  import opened Transactions
  import opened Protocol
  import opened Fencing
  import opened Leases
  import opened Absorption
  import Stranding

  ghost predicate IsPaused(s: System, r: RunId) {
    r in s.db.runs && s.db.runs[r].status.Paused?
  }

  /** A worker that still works on a claim of the run. */
  ghost predicate Busy(s: System, w: WorkerId, r: RunId) {
    Active(PcOf(s, w)) && PcOf(s, w).claim.run == r
  }

  /** An approval of the run that can still be decided. */
  ghost predicate Decidable(s: System, a: ApprovalId, r: RunId) {
    a in s.db.approvals && s.db.approvals[a].run == r && s.db.approvals[a].status.Pending? && !Lapsed(s.db.approvals[a], s.clock)
  }

  /** A job of the run that is not over. */
  ghost predicate Open(s: System, j: JobId, r: RunId) {
    j in s.db.jobs && s.db.jobs[j].run == r && !JobOver(s.db.jobs[j].status)
  }

  /** Nothing but a cancellation can move the run any more. */
  ghost predicate Abandoned(s: System, r: RunId) {
    && IsPaused(s, r)
    && (forall w :: !Busy(s, w, r))
    && (forall a :: !Decidable(s, a, r))
    && (forall j :: !Open(s, j, r))
  }

  // ---- an abandoned run stays as it is ----

  lemma NobodyGetsBusy(s: System, l: Label, r: RunId, w: WorkerId)
    requires Inv(s) && Enabled(s, l) && Abandoned(s, r)
    ensures !Busy(Next(s, l), w, r)
  {
    assert !Busy(s, w, r);
    if l.TakeJob? && l.w == w {
      assert !Open(s, l.j, r);
    } else if Local(l) && l.w == w {
      LocalStepShape(s, l);
    } else if (l.WriteRunning? || l.ResolveJob? || l.AddWorker?) && l.w == w {
      OwnClaimKept(s, l, r);
    } else if w in s.workers {
      Stranding.OthersKeepPc(s, l, w);
    } else {
      NewWorkersIdle(s, l, w);
    }
  }

  lemma OwnClaimKept(s: System, l: Label, r: RunId)
    requires Enabled(s, l) && (l.WriteRunning? || l.ResolveJob? || l.AddWorker?) && !Busy(s, l.w, r)
    ensures !Busy(Next(s, l), l.w, r)
  {
  }

  lemma NewWorkersIdle(s: System, l: Label, w: WorkerId)
    requires Enabled(s, l) && w !in s.workers
    ensures !Active(PcOf(Next(s, l), w))
  {
  }

  lemma NothingGetsDecidable(s: System, l: Label, r: RunId, a: ApprovalId)
    requires Inv(s) && Enabled(s, l) && Abandoned(s, r)
    ensures !Decidable(Next(s, l), a, r)
  {
    assert !Decidable(s, a, r);
    if Local(l) {
      LocalStepShape(s, l);
    } else if l.RequestApproval? {
      assert !Busy(s, l.w, r);
    } else {
      QuietApproval(s, l, r, a);
    }
  }

  lemma QuietApproval(s: System, l: Label, r: RunId, a: ApprovalId)
    requires Enabled(s, l) && !Local(l) && !l.RequestApproval? && !Decidable(s, a, r)
    ensures !Decidable(Next(s, l), a, r)
  {
  }

  lemma NothingOpens(s: System, l: Label, r: RunId, j: JobId)
    requires Inv(s) && Enabled(s, l) && Abandoned(s, r)
    ensures !Open(Next(s, l), j, r)
  {
    assert !Open(s, j, r);
    if j in s.db.jobs {
      if JobOver(s.db.jobs[j].status) {
        FinishedJobFrozen(s, l, j);
      } else {
        JobKeepsRun(s, l, j);
      }
    } else {
      NewJobElsewhere(s, l, r, j);
    }
  }

  /** A job that appears is that of a new run, or of a run that a decision moved. */
  lemma NewJobElsewhere(s: System, l: Label, r: RunId, j: JobId)
    requires Enabled(s, l) && r in s.db.runs && j !in s.db.jobs && forall a :: !Decidable(s, a, r)
    ensures !Open(Next(s, l), j, r)
  {
    if Local(l) {
      LocalStepShape(s, l);
    } else if l.Decide? {
      assert !Decidable(s, l.a, r);
    } else {
      OldJobsOnly(s, l, r, j);
    }
  }

  lemma OldJobsOnly(s: System, l: Label, r: RunId, j: JobId)
    requires Enabled(s, l) && r in s.db.runs && j !in s.db.jobs && !Local(l) && !l.Decide?
    ensures !Open(Next(s, l), j, r)
  {
  }

  lemma RowUntouched(s: System, l: Label, r: RunId)
    requires Enabled(s, l) && Abandoned(s, r) && l != Cancel(r)
    ensures r in Next(s, l).db.runs && Next(s, l).db.runs[r] == s.db.runs[r]
  {
    if Local(l) || l.WriteRunning? {
      assert !Busy(s, l.w, r);
      OthersRow(s, l, r);
    } else if l.Decide? {
      assert !Decidable(s, l.a, r);
    } else {
      QuietRow(s, l, r);
    }
  }

  lemma OthersRow(s: System, l: Label, r: RunId)
    requires Enabled(s, l) && r in s.db.runs && (Local(l) || l.WriteRunning?) && !Busy(s, l.w, r)
    ensures r in Next(s, l).db.runs && Next(s, l).db.runs[r] == s.db.runs[r]
  {
  }

  lemma QuietRow(s: System, l: Label, r: RunId)
    requires Enabled(s, l) && r in s.db.runs && !Local(l) && !l.WriteRunning? && !l.Decide? && l != Cancel(r)
    ensures r in Next(s, l).db.runs && Next(s, l).db.runs[r] == s.db.runs[r]
  {
  }

  lemma StepKeepsAbandoned(s: System, l: Label, r: RunId)
    requires Inv(s) && Enabled(s, l) && Abandoned(s, r) && l != Cancel(r)
    ensures Abandoned(Next(s, l), r) && Next(s, l).db.runs[r] == s.db.runs[r]
  {
    RowUntouched(s, l, r);
    forall w
      ensures !Busy(Next(s, l), w, r)
    {
      NobodyGetsBusy(s, l, r, w);
    }
    forall a
      ensures !Decidable(Next(s, l), a, r)
    {
      NothingGetsDecidable(s, l, r, a);
    }
    forall j
      ensures !Open(Next(s, l), j, r)
    {
      NothingOpens(s, l, r, j);
    }
  }

  lemma {:induction false} AbandonedForever(s: System, ls: seq<Label>, r: RunId)
    requires Inv(s) && Legal(s, ls) && Abandoned(s, r) && Cancel(r) !in ls
    ensures Abandoned(Exec(s, ls), r) && Exec(s, ls).db.runs[r] == s.db.runs[r]
    decreases |ls|
  {
    if ls != [] {
      assert ls[0] in ls;
      StepKeepsAbandoned(s, ls[0], r);
      StepKeepsInv(s, ls[0]);
      AbandonedForever(Next(s, ls[0]), ls[1..], r);
    }
  }

  // ---- any other paused run can still move ----

  /** Steps in which a busy worker comes to write the run. */
  function Rank(pc: Pc): nat {
    match pc
    case Resolved(_, v) => if v.Returned? then 3 else 1
    case Handled(_, v) => if v.Returned? then 3 else 2
    case _ => 4
  }

  /** The step takes the run out of `paused`, or brings its worker closer to doing so. */
  ghost predicate Nears(s: System, l: Label, w: WorkerId, r: RunId)
    requires Enabled(s, l)
  {
    var t := Next(s, l);
    && r in t.db.runs
    && (!t.db.runs[r].status.Paused? || (Busy(t, w, r) && Rank(PcOf(t, w)) < Rank(PcOf(s, w))))
  }

  /** Whatever a busy worker is at, it can still run into an exception, which it reports. */
  lemma BusyNears(s: System, w: WorkerId, r: RunId) returns (l: Label)
    requires IsPaused(s, r) && Busy(s, w, r)
    ensures Enabled(s, l) && l != Cancel(r) && Nears(s, l, w, r)
  {
    var pc := PcOf(s, w);
    if (pc.Handled? || pc.Resolved?) && !pc.verdict.Returned? {
      l := if pc.Handled? then ResolveJob(w) else WriteOutcome(w);
      ReportNears(s, w, r);
    } else {
      l := HandlerError(w, "");
    }
  }

  lemma ReportNears(s: System, w: WorkerId, r: RunId)
    requires IsPaused(s, r) && Busy(s, w, r) && !PcOf(s, w).Idle?
    requires (PcOf(s, w).Handled? || PcOf(s, w).Resolved?) && !PcOf(s, w).verdict.Returned?
    ensures var l := if PcOf(s, w).Handled? then ResolveJob(w) else WriteOutcome(w); Enabled(s, l) && Nears(s, l, w, r)
  {
    if PcOf(s, w).Handled? {
      assert DoResolve(s, w).db.runs == s.db.runs;
    }
  }

  ghost predicate Moves(s: System, ls: seq<Label>, r: RunId) {
    Legal(s, ls) && Cancel(r) !in ls && r in Exec(s, ls).db.runs && !Exec(s, ls).db.runs[r].status.Paused?
  }

  lemma MovesCons(s: System, l: Label, ls: seq<Label>, r: RunId)
    requires Enabled(s, l) && l != Cancel(r) && Moves(Next(s, l), ls, r)
    ensures Moves(s, [l] + ls, r)
  {
    ExecCons(s, l, ls);
  }

  lemma {:induction false} BusyMoves(s: System, w: WorkerId, r: RunId) returns (ls: seq<Label>)
    requires IsPaused(s, r) && Busy(s, w, r)
    ensures Moves(s, ls, r)
    decreases Rank(PcOf(s, w))
  {
    var l := BusyNears(s, w, r);
    var more: seq<Label> := [];
    if IsPaused(Next(s, l), r) {
      more := BusyMoves(Next(s, l), w, r);
    }
    MovesCons(s, l, more, r);
    ls := [l] + more;
  }

  lemma UnusedId(used: set<nat>) returns (n: nat)
    ensures n !in used && forall k :: k in used ==> k < n
  {
    if used == {} {
      n := 0;
    } else {
      var k :| k in used;
      var rest := used - {k};
      assert used == rest + {k};
      var m := UnusedId(rest);
      n := if k < m then m else k + 1;
      assert forall x :: x in used ==> x == k || x in rest;
    }
  }

  lemma DecidableMoves(s: System, a: ApprovalId, r: RunId) returns (ls: seq<Label>)
    requires IsPaused(s, r) && Decidable(s, a, r)
    ensures Moves(s, ls, r)
  {
    var j := UnusedId(s.db.jobs.Keys);
    MovesCons(s, Decide(a, true, "", j), [], r);
    ls := [Decide(a, true, "", j)] + [];
  }

  /** How long to wait until an open job can be claimed. */
  function Wait(s: System, job: Job): nat {
    if job.status.JobRetryWait? && job.nextAttempt.Some? then job.nextAttempt.value
    else if job.status.JobRunning? && job.expires.Some? then job.expires.value + 1
    else 0
  }

  lemma OpenIsClaimable(s: System, j: JobId, r: RunId)
    requires IsPaused(s, r) && Open(s, j, r) && RowOk(s.db.jobs[j]) && s.clock >= Wait(s, s.db.jobs[j])
    ensures ClaimChoice(s.db, s.clock, s.db.jobs.Keys - {j}, j)
  {
  }

  /** A new worker that takes the job and marks the run running. */
  lemma ClaimMoves(s: System, j: JobId, r: RunId, w: WorkerId) returns (ls: seq<Label>)
    requires IsPaused(s, r) && Open(s, j, r) && RowOk(s.db.jobs[j]) && s.clock >= Wait(s, s.db.jobs[j])
    requires w in s.workers && s.workers[w].pc.Idle?
    ensures Moves(s, ls, r)
  {
    var take := TakeJob(w, j, s.db.jobs.Keys - {j});
    OpenIsClaimable(s, j, r);
    var t := Next(s, take);
    MarkMoves(t, w, r);
    MovesCons(s, take, [WriteRunning(w)] + [], r);
    ls := [take] + ([WriteRunning(w)] + []);
  }

  lemma MarkMoves(s: System, w: WorkerId, r: RunId)
    requires IsPaused(s, r) && PcOf(s, w).MarkRunning? && PcOf(s, w).claim.run == r
    ensures Moves(s, [WriteRunning(w)] + [], r)
  {
    MovesCons(s, WriteRunning(w), [], r);
  }

  lemma OpenMoves(s: System, j: JobId, r: RunId) returns (ls: seq<Label>)
    requires Inv(s) && IsPaused(s, r) && Open(s, j, r)
    ensures Moves(s, ls, r)
  {
    assert JobOk(s, j);
    var w := UnusedId(s.workers.Keys);
    var wait, add := Tick(Wait(s, s.db.jobs[j])), AddWorker(w, 60, 5);
    var t := Next(s, wait);
    var more := ClaimMoves(Next(t, add), j, r, w);
    MovesCons(t, add, more, r);
    MovesCons(s, wait, [add] + more, r);
    ls := [wait] + ([add] + more);
  }

  lemma NotAbandonedMoves(s: System, r: RunId) returns (ls: seq<Label>)
    requires Inv(s) && IsPaused(s, r) && !Abandoned(s, r)
    ensures Moves(s, ls, r)
  {
    if w :| Busy(s, w, r) {
      ls := BusyMoves(s, w, r);
    } else if a :| Decidable(s, a, r) {
      ls := DecidableMoves(s, a, r);
    } else {
      var j :| Open(s, j, r);
      ls := OpenMoves(s, j, r);
    }
  }

  /** A paused run stays paused in every continuation without a cancellation exactly when it has no
      approval left to decide, no job that is not over, and no worker still busy with it. */
  lemma PausedForGoodExactly(s: System, r: RunId)
    requires Inv(s) && IsPaused(s, r)
    ensures (forall ls :: Legal(s, ls) && Cancel(r) !in ls ==> IsPaused(Exec(s, ls), r)) <==> Abandoned(s, r)
  {
    if Abandoned(s, r) {
      forall ls | Legal(s, ls) && Cancel(r) !in ls
        ensures IsPaused(Exec(s, ls), r)
      {
        AbandonedForever(s, ls, r);
      }
    } else {
      var ls := NotAbandonedMoves(s, r);
      assert Legal(s, ls) && Cancel(r) !in ls && !IsPaused(Exec(s, ls), r);
    }
  }
}
