/** When can a run be left neither finished nor paused with nobody to drive it? */
module Stranding {
  import opened Domain
  import opened Transactions
  import opened Outcomes
  import opened Protocol
  import opened Fencing
  import opened Leases

  /** The row's owner is past the point of writing the run: it stored or observed `paused`
      and will only complete the job. */
  ghost predicate PauseBound(s: System, j: JobId)
    requires j in s.db.jobs
  {
    && s.db.jobs[j].owner.Some?
    && var pc := PcOf(s, s.db.jobs[j].owner.value);
       pc.Handled? && pc.claim.job == j && pc.verdict == Returned(Paused)
  }

  /** A job that will still move its run: queued, waiting to retry, or running. */
  ghost predicate Live(s: System, r: RunId, j: JobId) {
    j in s.db.jobs && s.db.jobs[j].run == r && !JobOver(s.db.jobs[j].status) && !PauseBound(s, j)
  }

  ghost predicate HasLive(s: System, r: RunId) {
    exists j :: Live(s, r, j)
  }

  /** A worker has failed the job for good and is about to fail the run. */
  ghost predicate PendingFailure(s: System, r: RunId, w: WorkerId) {
    && PcOf(s, w).Resolved? && PcOf(s, w).verdict.Errored? && PcOf(s, w).claim.run == r
    && PcOf(s, w).claim.attempt >= Budget(PcOf(s, w).claim.maxAttempts)
  }

  ghost predicate HasPending(s: System, r: RunId) {
    exists w :: PendingFailure(s, r, w)
  }

  predicate Resting(status: RunStatus) { Terminal(status) || status.Paused? }

  ghost predicate Covered(s: System, r: RunId)
    requires r in s.db.runs
  {
    Resting(s.db.runs[r].status) || HasLive(s, r) || HasPending(s, r)
  }

  // ---- what a worker knows about the run it is done with ----

  ghost predicate RunOver(s: System, r: RunId) {
    r in s.db.runs && Terminal(s.db.runs[r].status)
  }

  ghost predicate VerdictOk(s: System, c: Claim, v: Verdict) {
    match v
    case Returned(st) => st.Paused? || RunOver(s, c.run)
    case Deterministic(_) => RunOver(s, c.run)
    case Errored(_) => true
  }

  ghost predicate PcOk(s: System, pc: Pc) {
    match pc
    case Storing(c, e) => !e.status.Queued? && !e.status.Running? && (e.status.Cancelled? ==> RunOver(s, c.run))
    case Handled(c, v) => VerdictOk(s, c, v)
    case Resolved(c, v) => VerdictOk(s, c, v) && (v.Returned? ==> v.status.Completed?)
    case _ => true
  }

  ghost predicate Inv2(s: System) {
    Inv(s) && forall w :: w in s.workers ==> PcOk(s, s.workers[w].pc)
  }

  lemma StepKeepsRunOver(s: System, l: Label, r: RunId)
    requires Enabled(s, l) && RunOver(s, r)
    ensures RunOver(Next(s, l), r)
  {
  }

  lemma StoreOk(s: System, w: WorkerId)
    requires Inv(s) && Enabled(s, Store(w)) && PcOk(s, s.workers[w].pc)
    ensures PcOk(DoStore(s, w), DoStore(s, w).workers[w].pc)
  {
    assert WorkerOk(s, w);
    assert JobOk(s, s.workers[w].pc.claim.job);
  }

  lemma ResolveOk(s: System, w: WorkerId)
    requires Enabled(s, ResolveJob(w)) && PcOk(s, s.workers[w].pc)
    ensures PcOk(DoResolve(s, w), DoResolve(s, w).workers[w].pc)
  {
    assert DoResolve(s, w).db.runs == s.db.runs;
  }

  lemma ActorOk(s: System, l: Label, w: WorkerId)
    requires Inv(s) && Enabled(s, l) && w in s.workers && PcOk(s, s.workers[w].pc)
    requires Local(l) && l.w == w
    ensures w in Next(s, l).workers && PcOk(Next(s, l), Next(s, l).workers[w].pc)
  {
    match l
    case Store(_) => StoreOk(s, w);
    case ReadRun(_) => ReadRunOk(s, w);
    case CheckCancel(_, node) => CheckCancelOk(s, w, node);
    case _ => QuietActorOk(s, l, w);
  }

  lemma QuietActorOk(s: System, l: Label, w: WorkerId)
    requires Inv(s) && Enabled(s, l) && w in s.workers && PcOk(s, s.workers[w].pc)
    requires Local(l) && l.w == w && !l.Store? && !l.ReadRun? && !l.CheckCancel?
    ensures w in Next(s, l).workers && PcOk(Next(s, l), Next(s, l).workers[w].pc)
  {
    LocalStepShape(s, l);
  }

  lemma ReadRunOk(s: System, w: WorkerId)
    requires w in s.workers && s.workers[w].pc.LoadRun?
    ensures var t := DoReadRun(s, w); w in t.workers && PcOk(t, t.workers[w].pc)
  {
  }

  lemma CheckCancelOk(s: System, w: WorkerId, node: string)
    requires w in s.workers && s.workers[w].pc.BeforeNode?
    ensures var t := DoCheckCancel(s, w, node); w in t.workers && PcOk(t, t.workers[w].pc)
  {
  }

  lemma OthersKeepPc(s: System, l: Label, w: WorkerId)
    requires Enabled(s, l) && w in s.workers
    requires l.Tick? || l.CreateRun? || l.Cancel? || l.Decide? || l.w != w || l.Beat? || l.RequestApproval?
    ensures w in Next(s, l).workers && Next(s, l).workers[w] == s.workers[w]
  {
  }

  lemma StepKeepsPcOk(s: System, l: Label, w: WorkerId)
    requires Inv2(s) && Enabled(s, l) && w in Next(s, l).workers
    ensures PcOk(Next(s, l), Next(s, l).workers[w].pc)
  {
    if Local(l) && l.w == w {
      ActorOk(s, l, w);
    } else if l == ResolveJob(w) {
      ResolveOk(s, w);
    } else if (l.TakeJob? || l.WriteRunning? || l.AddWorker?) && l.w == w {
    } else {
      OthersKeepPc(s, l, w);
      var pc := s.workers[w].pc;
      if Active(pc) && RunOver(s, pc.claim.run) {
        StepKeepsRunOver(s, l, pc.claim.run);
      }
    }
  }

  lemma StepKeepsInv2(s: System, l: Label)
    requires Inv2(s) && Enabled(s, l)
    ensures Inv2(Next(s, l))
  {
    StepKeepsInv(s, l);
    forall w | w in Next(s, l).workers
      ensures PcOk(Next(s, l), Next(s, l).workers[w].pc)
    {
      StepKeepsPcOk(s, l, w);
    }
  }

  // ---- a live job keeps its run covered ----

  /** A step that leaves row `j` and its owner's program counter alone, or moves it to
      anything but "done with a paused run", keeps `j` live. */
  lemma LiveFrame(s: System, t: System, r: RunId, j: JobId)
    requires Live(s, r, j)
    requires j in t.db.jobs && t.db.jobs[j].run == r && !JobOver(t.db.jobs[j].status)
    requires t.db.jobs[j].owner.Some? ==>
               var pc := PcOf(t, t.db.jobs[j].owner.value);
               !(pc.Handled? && pc.claim.job == j && pc.verdict == Returned(Paused))
    ensures Live(t, r, j)
  {
  }

  /** The owner of a live row resolves it: the row waits for a retry, or the run is over, or
      this worker is about to fail the run. */
  lemma ResolveOwnRow(s: System, w: WorkerId, r: RunId)
    requires Enabled(s, ResolveJob(w)) && ClaimOk(s, w, s.workers[w].pc.claim) && PcOk(s, s.workers[w].pc)
    requires s.workers[w].pc.claim.run == r && Owns(s.db, w, s.workers[w].pc.claim.job)
    requires s.workers[w].pc.verdict != Returned(Paused)
    ensures var t := DoResolve(s, w);
            || RunOver(s, r)
            || Live(t, r, s.workers[w].pc.claim.job)
            || PendingFailure(t, r, w)
  {
    var Handled(c, v) := s.workers[w].pc;
    if v.Errored? && c.attempt < Budget(c.maxAttempts) {
      assert DoResolve(s, w).db.jobs[c.job].status.JobRetryWait?;
      assert DoResolve(s, w).db.jobs[c.job].owner.None?;
    }
  }

  lemma ResolveOtherRow(s: System, w: WorkerId, r: RunId, j: JobId)
    requires Enabled(s, ResolveJob(w)) && Live(s, r, j)
    requires s.workers[w].pc.claim.job != j || !Owns(s.db, w, j)
    ensures Live(DoResolve(s, w), r, j)
  {
    var t := DoResolve(s, w);
    assert t.db.jobs[j] == s.db.jobs[j];
    LiveFrame(s, t, r, j);
  }

  lemma ResolveKeepsRuns(s: System, w: WorkerId)
    requires Enabled(s, ResolveJob(w))
    ensures DoResolve(s, w).db.runs == s.db.runs
  {
  }

  lemma ResolveLive(s: System, w: WorkerId, r: RunId, j: JobId)
    requires Enabled(s, ResolveJob(w)) && WorkerOk(s, w) && PcOk(s, s.workers[w].pc)
    requires r in s.db.runs && Live(s, r, j)
    ensures Live(DoResolve(s, w), r, j) || Resting(s.db.runs[r].status) || PendingFailure(DoResolve(s, w), r, w)
  {
    if s.workers[w].pc.claim.job == j && Owns(s.db, w, j) {
      ResolveOwnRow(s, w, r);
    } else {
      ResolveOtherRow(s, w, r, j);
    }
  }

  lemma StoreLive(s: System, t: System, w: WorkerId, r: RunId, j: JobId)
    requires Enabled(s, Store(w)) && WorkerOk(s, w) && r in s.db.runs && Live(s, r, j) && t == DoStore(s, w)
    ensures Live(t, r, j) || (r in t.db.runs && Resting(t.db.runs[r].status))
  {
    var Storing(c, e) := s.workers[w].pc;
    if c.job == j && VerdictOf(e) == Returned(Paused) {
      assert c.run == r && PersistedStatus(e.status, e.reason) == Paused;
    } else {
      LiveFrame(s, t, r, j);
    }
  }

  lemma ReadSnapshotLive(s: System, t: System, w: WorkerId, r: RunId, j: JobId)
    requires Enabled(s, ReadSnapshot(w)) && WorkerOk(s, w) && r in s.db.runs && Live(s, r, j) && t == DoReadSnapshot(s, w)
    ensures r in t.db.runs && (Live(t, r, j) || Resting(t.db.runs[r].status))
  {
    if s.workers[w].pc.claim.job != j || !t.workers[w].pc.Handled? || t.workers[w].pc.verdict != Returned(Paused) {
      LiveFrame(s, t, r, j);
    }
  }

  lemma TakeJobLive(s: System, w: WorkerId, k: JobId, r: RunId, j: JobId)
    requires w in s.workers && s.workers[w].pc.Idle? && k in s.db.jobs && Live(s, r, j)
    ensures Live(DoTakeJob(s, w, k), r, j)
  {
    LiveFrame(s, DoTakeJob(s, w, k), r, j);
  }

  lemma QuietLive(s: System, l: Label, r: RunId, j: JobId)
    requires Inv2(s) && Enabled(s, l) && Live(s, r, j)
    requires Local(l) && !l.Store? && !l.ReadSnapshot?
    ensures Live(Next(s, l), r, j)
  {
    LocalStepShape(s, l);
    assert WorkerOk(s, l.w) && JobOk(s, j);
    LiveFrame(s, Next(s, l), r, j);
  }

  lemma OtherLive(s: System, l: Label, r: RunId, j: JobId)
    requires Enabled(s, l) && Live(s, r, j)
    requires l.Tick? || l.AddWorker? || l.CreateRun? || l.Cancel? || l.Decide? || l.RequestApproval? || l.WriteRunning? || l.Beat?
    ensures Live(Next(s, l), r, j)
  {
    LiveFrame(s, Next(s, l), r, j);
  }

  lemma LiveStaysCovered(s: System, l: Label, r: RunId, j: JobId)
    requires Inv2(s) && Enabled(s, l) && r in s.db.runs && Live(s, r, j)
    ensures r in Next(s, l).db.runs && Covered(Next(s, l), r)
  {
    RunsStay(s, l, r);
    if l.ResolveJob? {
      assert WorkerOk(s, l.w) && PcOk(s, s.workers[l.w].pc);
      ResolveKeepsRuns(s, l.w);
      ResolveLive(s, l.w, r, j);
    } else if l.Store? {
      assert WorkerOk(s, l.w);
      StoreLive(s, DoStore(s, l.w), l.w, r, j);
    } else if l.ReadSnapshot? {
      assert WorkerOk(s, l.w);
      ReadSnapshotLive(s, DoReadSnapshot(s, l.w), l.w, r, j);
    } else {
      RestLive(s, l, r, j);
    }
  }

  lemma RestLive(s: System, l: Label, r: RunId, j: JobId)
    requires Inv2(s) && Enabled(s, l) && Live(s, r, j)
    requires !l.ResolveJob? && !l.Store? && !l.ReadSnapshot?
    ensures Live(Next(s, l), r, j)
  {
    if Local(l) {
      QuietLive(s, l, r, j);
    } else if l.TakeJob? {
      TakeJobLive(s, l.w, l.j, r, j);
    } else {
      OtherLive(s, l, r, j);
    }
  }

  // ---- the two hazards ----

  /** A worker is about to take run `r` out of `paused`: it marks it running, stores an attempt worth
      another try, or reports a failure that leaves another try. */
  ghost predicate Unpauses(s: System, l: Label, r: RunId)
    requires Enabled(s, l) && r in s.db.runs
  {
    && s.db.runs[r].status.Paused?
    && (l.WriteRunning? || l.Store? || l.WriteOutcome?)
    && var pc := s.workers[l.w].pc;
    && pc.claim.run == r
    && match pc
       case Storing(_, e) => PersistedStatus(e.status, e.reason).Queued?
       case Resolved(c, v) => v.Errored? && c.attempt < Budget(c.maxAttempts)
       case _ => true
  }

  /** The only worker that was about to fail run `r` stops before it does. */
  ghost predicate Abandons(s: System, l: Label, r: RunId)
    requires Enabled(s, l) && r in s.db.runs
  {
    && !Resting(s.db.runs[r].status)
    && (l.Crash? || l.Escape?)
    && PendingFailure(s, r, l.w)
    && forall w :: PendingFailure(s, r, w) ==> w == l.w
  }

  /** Nothing else drives the run, and the step takes it out of `paused` or loses its last failure. */
  ghost predicate StrandingStep(s: System, l: Label, r: RunId)
    requires Enabled(s, l) && r in s.db.runs
  {
    !HasLive(s, r) && ((Unpauses(s, l, r) && !HasPending(s, r)) || Abandons(s, l, r))
  }

  /** The step took the last driver of run `r` away. */
  ghost predicate Strands(s: System, l: Label, r: RunId)
    requires Enabled(s, l) && r in s.db.runs && r in Next(s, l).db.runs
  {
    Covered(s, r) && !Covered(Next(s, l), r)
  }

  /** Of all steps but a decision, only those take a run out of `paused` and leave it unfinished. */
  lemma LeavesPausedExactly(s: System, l: Label, r: RunId)
    requires Inv2(s) && Enabled(s, l) && r in s.db.runs && s.db.runs[r].status.Paused? && !l.Decide?
    ensures r in Next(s, l).db.runs
    ensures !Resting(Next(s, l).db.runs[r].status) <==> Unpauses(s, l, r)
  {
    if l.Store? {
      assert PcOk(s, s.workers[l.w].pc);
      StoreLeavesPaused(s, l.w, r);
    } else if l.WriteOutcome? {
      assert PcOk(s, s.workers[l.w].pc);
      OutcomeLeavesPaused(s, l.w, r);
    } else {
      OtherLeavesPaused(s, l, r);
    }
  }

  lemma StoreLeavesPaused(s: System, w: WorkerId, r: RunId)
    requires Enabled(s, Store(w)) && PcOk(s, s.workers[w].pc) && r in s.db.runs && s.db.runs[r].status.Paused?
    ensures r in DoStore(s, w).db.runs
    ensures !Resting(DoStore(s, w).db.runs[r].status) <==> Unpauses(s, Store(w), r)
  {
  }

  lemma OutcomeLeavesPaused(s: System, w: WorkerId, r: RunId)
    requires Enabled(s, WriteOutcome(w)) && r in s.db.runs && s.db.runs[r].status.Paused?
    ensures r in DoWriteOutcome(s, w).db.runs
    ensures !Resting(DoWriteOutcome(s, w).db.runs[r].status) <==> Unpauses(s, WriteOutcome(w), r)
  {
  }

  lemma OtherLeavesPaused(s: System, l: Label, r: RunId)
    requires Enabled(s, l) && r in s.db.runs && s.db.runs[r].status.Paused?
    requires !l.Decide? && !l.Store? && !l.WriteOutcome?
    ensures r in Next(s, l).db.runs
    ensures !Resting(Next(s, l).db.runs[r].status) <==> l.WriteRunning? && s.workers[l.w].pc.claim.run == r
  {
    if !l.WriteRunning? {
      OtherRestsPaused(s, l, r);
    }
  }

  lemma OtherRestsPaused(s: System, l: Label, r: RunId)
    requires Enabled(s, l) && r in s.db.runs && s.db.runs[r].status.Paused?
    requires !l.Decide? && !l.Store? && !l.WriteOutcome? && !l.WriteRunning?
    ensures r in Next(s, l).db.runs && Resting(Next(s, l).db.runs[r].status)
  {
  }

  lemma PendingStaysCovered(s: System, l: Label, r: RunId, w: WorkerId)
    requires Inv2(s) && Enabled(s, l) && r in s.db.runs && PendingFailure(s, r, w)
    requires !((l.Crash? || l.Escape?) && l.w == w)
    ensures r in Next(s, l).db.runs && (Resting(Next(s, l).db.runs[r].status) || PendingFailure(Next(s, l), r, w))
  {
    RunsStay(s, l, r);
    if l.Tick? || l.CreateRun? || l.Cancel? || l.Decide? || l.w != w || l.Beat? || l.RequestApproval? {
      OthersKeepPc(s, l, w);
    }
  }

  /** A decision that moves a paused run adds the job that will drive it. */
  lemma DecideCovers(s: System, a: ApprovalId, approve: bool, decider: string, j: JobId, r: RunId)
    requires Inv2(s) && Enabled(s, Decide(a, approve, decider, j)) && r in s.db.runs && s.db.runs[r].status.Paused?
    ensures var t := DoDecide(s, a, approve, decider, j);
            r in t.db.runs && Covered(t, r)
  {
    var t := DoDecide(s, a, approve, decider, j);
    if t.db.runs[r].status != Paused {
      assert Live(t, r, j);
    }
  }

  /** No other step takes the last driver away. */
  lemma StrandsOnlyThen(s: System, l: Label, r: RunId)
    requires Inv2(s) && Enabled(s, l) && r in s.db.runs && Covered(s, r) && !StrandingStep(s, l, r)
    ensures r in Next(s, l).db.runs && Covered(Next(s, l), r)
  {
    RunsStay(s, l, r);
    if j :| Live(s, r, j) {
      LiveStaysCovered(s, l, r, j);
    } else if Terminal(s.db.runs[r].status) {
      StepKeepsRunOver(s, l, r);
    } else if w :| PendingFailure(s, r, w) && !((l.Crash? || l.Escape?) && l.w == w) {
      PendingStaysCovered(s, l, r, w);
    } else {
      RestStaysCovered(s, l, r);
    }
  }

  /** A paused run that nobody is about to fail stays covered unless a worker unpauses it. */
  lemma RestStaysCovered(s: System, l: Label, r: RunId)
    requires Inv2(s) && Enabled(s, l) && r in s.db.runs && Covered(s, r) && !StrandingStep(s, l, r)
    requires !HasLive(s, r) && !Terminal(s.db.runs[r].status)
    requires forall w :: PendingFailure(s, r, w) ==> (l.Crash? || l.Escape?) && l.w == w
    ensures r in Next(s, l).db.runs && Covered(Next(s, l), r)
  {
    if s.db.runs[r].status.Paused? {
      if l.Decide? {
        DecideCovers(s, l.a, l.approve, l.decider, l.j, r);
      } else {
        LeavesPausedExactly(s, l, r);
      }
    }
  }

  /** The actor of a stranding step and what the step does: it moves one program counter and at most
      the run table. */
  lemma StrandingShape(s: System, l: Label, r: RunId)
    requires Inv2(s) && Enabled(s, l) && r in s.db.runs && (Unpauses(s, l, r) || Abandons(s, l, r))
    ensures var t := Next(s, l);
            && t.db.jobs == s.db.jobs && l.w in s.workers && l.w in t.workers
            && (forall w :: w != l.w ==> PcOf(t, w) == PcOf(s, w))
            && !PcOf(s, l.w).Handled? && !PendingFailure(t, r, l.w)
  {
    if l.WriteRunning? {
      MarkShape(s, l.w, r);
    } else {
      LocalStepShape(s, l);
      StrandingActor(s, l, r);
    }
  }

  lemma MarkShape(s: System, w: WorkerId, r: RunId)
    requires Enabled(s, WriteRunning(w))
    ensures var t := DoWriteRunning(s, w);
            && t.db.jobs == s.db.jobs && w in t.workers
            && (forall v :: v != w ==> PcOf(t, v) == PcOf(s, v))
            && !PendingFailure(t, r, w)
  {
  }

  lemma StrandingActor(s: System, l: Label, r: RunId)
    requires Enabled(s, l) && Local(l) && r in s.db.runs && (Unpauses(s, l, r) || Abandons(s, l, r))
    ensures !PcOf(s, l.w).Handled? && !PendingFailure(Next(s, l), r, l.w)
  {
  }

  /** Nobody else comes to be about to fail the run, and no row comes to life. */
  lemma StrandingLeavesNobody(s: System, l: Label, r: RunId, t: System)
    requires Inv2(s) && Enabled(s, l) && r in s.db.runs && StrandingStep(s, l, r)
    requires t.db.jobs == s.db.jobs && l.w in s.workers && l.w in t.workers
    requires (forall w :: w != l.w ==> PcOf(t, w) == PcOf(s, w)) && !PcOf(s, l.w).Handled? && !PendingFailure(t, r, l.w)
    ensures !HasLive(t, r) && !HasPending(t, r)
  {
    forall j
      ensures !Live(t, r, j)
    {
      assert !Live(s, r, j);
    }
    forall w
      ensures !PendingFailure(t, r, w)
    {
      if w != l.w {
        assert PendingFailure(t, r, w) <==> PendingFailure(s, r, w);
      }
    }
  }

  lemma StrandingLeavesUnfinished(s: System, l: Label, r: RunId)
    requires Inv2(s) && Enabled(s, l) && r in s.db.runs && (Unpauses(s, l, r) || Abandons(s, l, r))
    ensures r in Next(s, l).db.runs && !Resting(Next(s, l).db.runs[r].status)
  {
    if Unpauses(s, l, r) {
      LeavesPausedExactly(s, l, r);
    } else {
      LocalStepShape(s, l);
      StoppingKeepsRuns(s, l);
    }
  }

  lemma StoppingKeepsRuns(s: System, l: Label)
    requires Enabled(s, l) && (l.Crash? || l.Escape?)
    ensures Next(s, l).db == s.db
  {
  }

  /** Exactly when a step strands a run, in terms of the state before it: nothing drives the run, and
      the step takes it out of `paused` for another try, or its worker was the only one left to fail
      it and stops. */
  lemma StrandedExactly(s: System, l: Label, r: RunId)
    requires Inv2(s) && Enabled(s, l) && r in s.db.runs
    ensures r in Next(s, l).db.runs
    ensures Strands(s, l, r) <==> StrandingStep(s, l, r)
  {
    RunsStay(s, l, r);
    if StrandingStep(s, l, r) {
      StrandingStepStrands(s, l, r);
    } else if Covered(s, r) {
      StrandsOnlyThen(s, l, r);
    }
  }

  lemma StrandingStepStrands(s: System, l: Label, r: RunId)
    requires Inv2(s) && Enabled(s, l) && r in s.db.runs && StrandingStep(s, l, r)
    ensures Covered(s, r) && r in Next(s, l).db.runs && !Covered(Next(s, l), r)
  {
    StrandingShape(s, l, r);
    StrandingLeavesNobody(s, l, r, Next(s, l));
    StrandingLeavesUnfinished(s, l, r);
  }
}
