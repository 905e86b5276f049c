/** Terminal runs absorb: their status never changes, their jobs are never claimed again,
    and executions in flight stop at their next cancel check. */
module Absorption {
  import opened Domain
  import opened Transactions
  import opened Outcomes
  import opened Protocol
  import opened Fencing
  import opened Leases
  import Stranding

  ghost predicate RunIs(s: System, r: RunId, status: RunStatus) {
    r in s.db.runs && s.db.runs[r].status == status
  }

  lemma TerminalStepFrozen(s: System, l: Label, r: RunId, status: RunStatus)
    requires Enabled(s, l) && RunIs(s, r, status) && Terminal(status)
    ensures RunIs(Next(s, l), r, status)
  {
  }

  /** A terminal status is final in every later state, late ex-owners and crashes included. */
  lemma {:induction false} TerminalForever(s: System, ls: seq<Label>, r: RunId, status: RunStatus)
    requires Legal(s, ls) && RunIs(s, r, status) && Terminal(status)
    ensures RunIs(Exec(s, ls), r, status)
    decreases |ls|
  {
    if ls != [] {
      TerminalStepFrozen(s, ls[0], r, status);
      TerminalForever(Next(s, ls[0]), ls[1..], r, status);
    }
  }

  lemma JobKeepsRun(s: System, l: Label, j: JobId)
    requires Inv(s) && Enabled(s, l) && j in s.db.jobs
    ensures j in Next(s, l).db.jobs && Next(s, l).db.jobs[j].run == s.db.jobs[j].run
  {
    assert JobOk(s, j);
    if !Touches(s, l, j) {
      UntouchedRow(s, l, j);
    } else if l.ResolveJob? {
      var Handled(c, v) := s.workers[l.w].pc;
      ResolveTxIsOwnRowStep(s.db, l.w, s.workers[l.w].retryDelay, s.workers[l.w].lease, s.clock, c, v);
    } else {
      TouchKeepsRun(s, l, j);
    }
  }

  lemma TouchKeepsRun(s: System, l: Label, j: JobId)
    requires Enabled(s, l) && j in s.db.jobs && (l.TakeJob? || l.WriteRunning? || l.Beat?)
    ensures j in Next(s, l).db.jobs && Next(s, l).db.jobs[j].run == s.db.jobs[j].run
  {
  }

  /** No job of a terminal run is ever claimed again. */
  lemma {:induction false} TerminalRunNeverClaimed(s: System, ls: seq<Label>, r: RunId, status: RunStatus, j: JobId, i: nat)
    requires Inv(s) && Legal(s, ls) && RunIs(s, r, status) && Terminal(status)
    requires j in s.db.jobs && s.db.jobs[j].run == r && i < |ls|
    ensures !(ls[i].TakeJob? && ls[i].j == j)
    decreases |ls|
  {
    if i > 0 {
      TerminalStepFrozen(s, ls[0], r, status);
      StepKeepsInv(s, ls[0]);
      JobKeepsRun(s, ls[0], j);
      TerminalRunNeverClaimed(Next(s, ls[0]), ls[1..], r, status, j, i - 1);
      assert ls[i] == ls[1..][i - 1];
    }
  }

  // ---- cancellation ----

  ghost predicate StartsNodeOf(s: System, l: Label, w: WorkerId, r: RunId) {
    l == StartNode(w) && PcOf(s, w).PassedCheck? && PcOf(s, w).claim.run == r
  }

  /** How many nodes of run `r` worker `w` starts along `ls`. */
  ghost function NodeStarts(s: System, ls: seq<Label>, w: WorkerId, r: RunId): nat
    requires Legal(s, ls)
    decreases |ls|
  {
    if ls == [] then 0
    else (if StartsNodeOf(s, ls[0], w, r) then 1 else 0) + NodeStarts(Next(s, ls[0]), ls[1..], w, r)
  }

  /** A worker whose last cancel check on run `r` passed and that has not started the node yet. */
  ghost predicate PastCheck(s: System, w: WorkerId, r: RunId) {
    PcOf(s, w).PassedCheck? && PcOf(s, w).claim.run == r
  }

  lemma CancelledStep(s: System, l: Label, w: WorkerId, r: RunId)
    requires Enabled(s, l) && RunIs(s, r, Cancelled)
    ensures PastCheck(Next(s, l), w, r) ==> PastCheck(s, w, r) && !StartsNodeOf(s, l, w, r)
    ensures StartsNodeOf(s, l, w, r) ==> PastCheck(s, w, r)
  {
    if Local(l) {
      if l.w == w {
        CancelledActor(s, l, r);
      } else {
        LocalStepShape(s, l);
      }
    } else if PcOf(Next(s, l), w).PassedCheck? {
      OthersPassNoCheck(s, l, w);
    }
  }

  /** The worker that moves passes no check of a cancelled run, and leaves the check when it starts
      the node. */
  lemma CancelledActor(s: System, l: Label, r: RunId)
    requires Enabled(s, l) && Local(l) && RunIs(s, r, Cancelled)
    ensures !PastCheck(Next(s, l), l.w, r)
  {
  }

  lemma OthersPassNoCheck(s: System, l: Label, w: WorkerId)
    requires Enabled(s, l) && !Local(l) && PcOf(Next(s, l), w).PassedCheck?
    ensures PcOf(Next(s, l), w) == PcOf(s, w)
  {
  }

  /** After cancellation each worker starts at most one more node of the run, and that one
      only if its check had passed before; at its next check it stops. */
  lemma {:induction false} CancelledRunStops(s: System, ls: seq<Label>, w: WorkerId, r: RunId)
    requires Legal(s, ls) && RunIs(s, r, Cancelled)
    ensures NodeStarts(s, ls, w, r) <= if PastCheck(s, w, r) then 1 else 0
    decreases |ls|
  {
    if ls != [] {
      CancelledStep(s, ls[0], w, r);
      TerminalStepFrozen(s, ls[0], r, Cancelled);
      CancelledRunStops(Next(s, ls[0]), ls[1..], w, r);
    }
  }

  lemma CheckMeetsCancellation(s: System, w: WorkerId, node: string)
    requires Enabled(s, CheckCancel(w, node)) && RunIs(s, s.workers[w].pc.claim.run, Cancelled)
    ensures var t := Next(s, CheckCancel(w, node)); var c := PcOf(s, w).claim;
            && PcOf(t, w) == Storing(c, CancelledBefore(node))
            && t.db == s.db
  {
  }

  /** Worker `w` is about to store its cancelled attempt, or has stored it and will complete the job,
      or the job is completed. */
  ghost predicate Closing(s: System, w: WorkerId, c: Claim, node: string) {
    && RunIs(s, c.run, Cancelled)
    && c.job in s.db.jobs && s.db.jobs[c.job].run == c.run
    && (|| s.db.jobs[c.job].status.JobCompleted?
        || (&& s.db.jobs[c.job].status.JobRunning? && s.db.jobs[c.job].owner == Some(w)
            && (PcOf(s, w) == Storing(c, CancelledBefore(node)) || PcOf(s, w) == Handled(c, Returned(Cancelled)))))
  }

  /** The check that meets the cancellation starts it. */
  lemma CheckStartsClosing(s: System, w: WorkerId, node: string)
    requires Inv(s) && Enabled(s, CheckCancel(w, node)) && RunIs(s, s.workers[w].pc.claim.run, Cancelled)
    requires s.db.jobs[s.workers[w].pc.claim.job].owner == Some(w)
    ensures Closing(Next(s, CheckCancel(w, node)), w, PcOf(s, w).claim, node)
  {
    assert WorkerOk(s, w) && JobOk(s, PcOf(s, w).claim.job);
    CheckMeetsCancellation(s, w, node);
  }

  /** The row of a closing job under any step but the owner's resolution. */
  lemma ClosingRow(s: System, l: Label, w: WorkerId, c: Claim, node: string)
    requires Inv(s) && Enabled(s, l) && Closing(s, w, c, node) && !s.db.jobs[c.job].status.JobCompleted? && l != ResolveJob(w)
    ensures var t := Next(s, l);
            && c.job in t.db.jobs && t.db.jobs[c.job].run == c.run
            && t.db.jobs[c.job].status.JobRunning? && t.db.jobs[c.job].owner == Some(w)
  {
    assert JobOk(s, c.job);
    JobKeepsRun(s, l, c.job);
    if !Touches(s, l, c.job) {
      UntouchedRow(s, l, c.job);
    } else if l.ResolveJob? {
      OtherResolves(s, l.w, c.job);
    } else {
      TouchKeepsOwner(s, l, c.job, w);
    }
  }

  lemma OtherResolves(s: System, w: WorkerId, j: JobId)
    requires Enabled(s, ResolveJob(w)) && j in s.db.jobs && s.db.jobs[j].owner != Some(w)
    ensures j in DoResolve(s, w).db.jobs && DoResolve(s, w).db.jobs[j] == s.db.jobs[j]
  {
  }

  lemma TouchKeepsOwner(s: System, l: Label, j: JobId, w: WorkerId)
    requires Enabled(s, l) && j in s.db.jobs && Touches(s, l, j) && !l.ResolveJob?
    requires s.db.jobs[j].owner == Some(w) && s.db.jobs[j].status.JobRunning?
    requires s.db.jobs[j].run in s.db.runs && Terminal(s.db.runs[s.db.jobs[j].run].status)
    ensures var t := Next(s, l);
            j in t.db.jobs && t.db.jobs[j].status.JobRunning? && t.db.jobs[j].owner == Some(w)
  {
  }

  lemma ClosingPc(s: System, l: Label, w: WorkerId, c: Claim, node: string)
    requires Inv(s) && Enabled(s, l) && Closing(s, w, c, node) && !s.db.jobs[c.job].status.JobCompleted?
    requires l != ResolveJob(w) && l != Crash(w) && !(l.HandlerError? && l.w == w)
    ensures PcOf(Next(s, l), w) == PcOf(s, w) || PcOf(Next(s, l), w) == Handled(c, Returned(Cancelled))
  {
    if l == Store(w) {
      ClosingStored(s, w, c, node);
    } else {
      ClosingWaits(s, l, w, c, node);
    }
  }

  lemma ClosingStored(s: System, w: WorkerId, c: Claim, node: string)
    requires Enabled(s, Store(w)) && PcOf(s, w) == Storing(c, CancelledBefore(node))
    ensures PcOf(DoStore(s, w), w) == Handled(c, Returned(Cancelled))
  {
    assert VerdictOf(CancelledBefore(node)) == Returned(Cancelled);
  }

  /** No other step moves the worker: it owns a running row, so its lease is not lost. */
  lemma ClosingWaits(s: System, l: Label, w: WorkerId, c: Claim, node: string)
    requires Enabled(s, l) && w in s.workers
    requires PcOf(s, w) == Storing(c, CancelledBefore(node)) || PcOf(s, w) == Handled(c, Returned(Cancelled))
    requires Owns(s.db, w, c.job) && s.db.jobs[c.job].status.JobRunning?
    requires l != ResolveJob(w) && l != Crash(w) && l != Store(w) && !(l.HandlerError? && l.w == w)
    ensures PcOf(Next(s, l), w) == PcOf(s, w)
  {
    if !(l.Tick? || l.CreateRun? || l.Cancel? || l.Decide? || l.RequestApproval? || l.Beat?) {
      assert l.w != w;
    }
    Stranding.OthersKeepPc(s, l, w);
  }

  lemma ClosingResolved(s: System, w: WorkerId, c: Claim, node: string)
    requires Enabled(s, ResolveJob(w)) && Closing(s, w, c, node) && !s.db.jobs[c.job].status.JobCompleted?
    ensures var t := DoResolve(s, w);
            c.job in t.db.jobs && t.db.jobs[c.job].run == c.run && t.db.jobs[c.job].status.JobCompleted?
  {
  }

  lemma StepKeepsClosing(s: System, l: Label, w: WorkerId, c: Claim, node: string)
    requires Inv(s) && Enabled(s, l) && Closing(s, w, c, node) && l != Crash(w) && !(l.HandlerError? && l.w == w)
    ensures Closing(Next(s, l), w, c, node)
  {
    TerminalStepFrozen(s, l, c.run, Cancelled);
    if s.db.jobs[c.job].status.JobCompleted? {
      FinishedJobFrozen(s, l, c.job);
    } else if l == ResolveJob(w) {
      ClosingResolved(s, w, c, node);
    } else {
      ClosingRow(s, l, w, c, node);
      ClosingPc(s, l, w, c, node);
    }
  }

  lemma {:induction false} ClosingKept(s: System, ls: seq<Label>, w: WorkerId, c: Claim, node: string)
    requires Inv(s) && Legal(s, ls) && Closing(s, w, c, node)
    requires forall l :: l in ls ==> l != Crash(w) && !(l.HandlerError? && l.w == w)
    ensures Closing(Exec(s, ls), w, c, node)
    decreases |ls|
  {
    if ls != [] {
      assert ls[0] in ls;
      StepKeepsClosing(s, ls[0], w, c, node);
      StepKeepsInv(s, ls[0]);
      ClosingKept(Next(s, ls[0]), ls[1..], w, c, node);
    }
  }

  /** Over every interleaving: once the owner of a job has met the cancellation at a check, the run
      stays cancelled, and unless that worker crashes or fails to store or to complete, it keeps the job
      until it has completed it. */
  lemma CancelledAttemptCloses(s: System, w: WorkerId, node: string, ls: seq<Label>)
    requires Inv(s) && Enabled(s, CheckCancel(w, node)) && RunIs(s, s.workers[w].pc.claim.run, Cancelled)
    requires s.db.jobs[s.workers[w].pc.claim.job].owner == Some(w)
    requires Legal(Next(s, CheckCancel(w, node)), ls)
    requires forall l :: l in ls ==> l != Crash(w) && !(l.HandlerError? && l.w == w)
    ensures Closing(Exec(Next(s, CheckCancel(w, node)), ls), w, PcOf(s, w).claim, node)
  {
    CheckStartsClosing(s, w, node);
    StepKeepsInv(s, CheckCancel(w, node));
    ClosingKept(Next(s, CheckCancel(w, node)), ls, w, PcOf(s, w).claim, node);
  }

  lemma ResolveCloses(s: System, w: WorkerId, c: Claim, node: string)
    requires Closing(s, w, c, node) && PcOf(s, w) == Handled(c, Returned(Cancelled)) && !s.db.jobs[c.job].status.JobCompleted?
    ensures Legal(s, [ResolveJob(w)])
    ensures var t := Exec(s, [ResolveJob(w)]);
            RunIs(t, c.run, Cancelled) && c.job in t.db.jobs && t.db.jobs[c.job].status.JobCompleted?
  {
    ClosingResolved(s, w, c, node);
    TerminalStepFrozen(s, ResolveJob(w), c.run, Cancelled);
    ExecCons(s, ResolveJob(w), []);
    assert [ResolveJob(w)] + [] == [ResolveJob(w)];
  }

  /** From wherever it is then, the worker completes the job with its own next steps: nobody else has
      to do anything, and nobody can have taken the job away. */
  lemma CheckedCancellationEndsJob(s: System, w: WorkerId, node: string, ls: seq<Label>) returns (own: seq<Label>)
    requires Inv(s) && Enabled(s, CheckCancel(w, node)) && RunIs(s, s.workers[w].pc.claim.run, Cancelled)
    requires s.db.jobs[s.workers[w].pc.claim.job].owner == Some(w)
    requires Legal(Next(s, CheckCancel(w, node)), ls)
    requires forall l :: l in ls ==> l != Crash(w) && !(l.HandlerError? && l.w == w)
    ensures own <= [Store(w), ResolveJob(w)] || own == [ResolveJob(w)]
    ensures var t := Exec(Next(s, CheckCancel(w, node)), ls); var c := PcOf(s, w).claim;
            && Legal(t, own)
            && RunIs(Exec(t, own), c.run, Cancelled)
            && c.job in Exec(t, own).db.jobs && Exec(t, own).db.jobs[c.job].status.JobCompleted?
  {
    CancelledAttemptCloses(s, w, node, ls);
    own := OwnSteps(Exec(Next(s, CheckCancel(w, node)), ls), w, PcOf(s, w).claim, node);
  }

  lemma OwnSteps(t: System, w: WorkerId, c: Claim, node: string) returns (own: seq<Label>)
    requires Closing(t, w, c, node)
    ensures own <= [Store(w), ResolveJob(w)] || own == [ResolveJob(w)]
    ensures Legal(t, own) && RunIs(Exec(t, own), c.run, Cancelled)
    ensures c.job in Exec(t, own).db.jobs && Exec(t, own).db.jobs[c.job].status.JobCompleted?
  {
    if t.db.jobs[c.job].status.JobCompleted? {
      own := [];
    } else if PcOf(t, w).Handled? {
      own := [ResolveJob(w)];
      ResolveCloses(t, w, c, node);
    } else {
      ClosingStored(t, w, c, node);
      var u := Next(t, Store(w));
      TerminalStepFrozen(t, Store(w), c.run, Cancelled);
      assert u.db.jobs == t.db.jobs;
      ResolveCloses(u, w, c, node);
      ExecCons(t, Store(w), [ResolveJob(w)]);
      own := [Store(w)] + [ResolveJob(w)];
    }
  }
}
