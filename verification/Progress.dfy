/** No stranded run: over whole runs of the protocol, and with resolutions taken as one step. */
module Progress {
  import opened Domain
  import opened Transactions
  import opened Protocol
  import opened Fencing
  import opened Stranding

  // ---- every interleaving ----

  /** Step `i` of the run strands `r`. */
  ghost predicate StrandedAt(s: System, ls: seq<Label>, i: nat, r: RunId) {
    && i < |ls|
    && Legal(s, ls[..i])
    && var u := Exec(s, ls[..i]);
    && Enabled(u, ls[i])
    && r in u.db.runs
    && StrandingStep(u, ls[i], r)
  }

  lemma StrandedLater(s: System, ls: seq<Label>, i: nat, r: RunId)
    requires ls != [] && Enabled(s, ls[0]) && StrandedAt(Next(s, ls[0]), ls[1..], i, r)
    ensures StrandedAt(s, ls, i + 1, r)
  {
    assert ls[1..][..i] == ls[..i + 1][1..];
    assert ls[1..][i] == ls[i + 1];
  }

  lemma NewRunCovered(s: System, l: Label, r: RunId)
    requires Enabled(s, l) && r !in s.db.runs && r in Next(s, l).db.runs
    ensures Covered(Next(s, l), r)
  {
    assert l.CreateRun? by {
      if Local(l) {
        LocalStepShape(s, l);
      }
    }
    assert Live(Next(s, l), r, l.j);
  }

  /** A run without a driver lost it in a step that strands it; no other step can. */
  lemma {:induction false} UncoveredWasStranded(s: System, ls: seq<Label>, r: RunId)
    requires Inv2(s) && Legal(s, ls)
    requires r in s.db.runs ==> Covered(s, r)
    requires r in Exec(s, ls).db.runs && !Covered(Exec(s, ls), r)
    ensures exists i :: StrandedAt(s, ls, i, r)
    decreases |ls|
  {
    var t := Next(s, ls[0]);
    StepKeepsInv2(s, ls[0]);
    if r in s.db.runs {
      StrandedExactly(s, ls[0], r);
    } else if r in t.db.runs {
      NewRunCovered(s, ls[0], r);
    }
    if r in t.db.runs && !Covered(t, r) {
      assert ls[..0] == [];
      assert StrandedAt(s, ls, 0, r);
    } else {
      UncoveredWasStranded(t, ls[1..], r);
      var i :| StrandedAt(t, ls[1..], i, r);
      StrandedLater(s, ls, i, r);
    }
  }

  lemma {:induction false} PrefixLegal(s: System, ls: seq<Label>, i: nat)
    requires Legal(s, ls) && i < |ls|
    ensures Legal(s, ls[..i]) && Enabled(Exec(s, ls[..i]), ls[i])
    ensures Legal(s, ls[..i + 1]) && Exec(s, ls[..i + 1]) == Next(Exec(s, ls[..i]), ls[i])
    decreases i
  {
    if i == 0 {
      assert ls[..0] == [] && ls[..1] == [ls[0]] + [];
      ExecCons(s, ls[0], []);
    } else {
      PrefixLegal(Next(s, ls[0]), ls[1..], i - 1);
      assert ls[..i] == [ls[0]] + ls[1..][..i - 1] && ls[..i + 1] == [ls[0]] + ls[1..][..i];
      ExecCons(s, ls[0], ls[1..][..i - 1]);
      ExecCons(s, ls[0], ls[1..][..i]);
    }
  }

  ghost predicate CoveredAfter(s: System, ls: seq<Label>, i: nat, r: RunId) {
    && i <= |ls| && Legal(s, ls[..i])
    && (r in Exec(s, ls[..i]).db.runs ==> Covered(Exec(s, ls[..i]), r))
  }

  lemma StrandedInPrefix(s: System, ls: seq<Label>, n: nat, i: nat, r: RunId)
    requires n <= |ls| && StrandedAt(s, ls[..n], i, r)
    ensures StrandedAt(s, ls, i, r)
  {
    assert ls[..n][..i] == ls[..i] && ls[..n][i] == ls[i];
  }

  lemma {:induction false} InvAfter(s: System, ls: seq<Label>)
    requires Inv2(s) && Legal(s, ls)
    ensures Inv2(Exec(s, ls))
    decreases |ls|
  {
    if ls != [] {
      StepKeepsInv2(s, ls[0]);
      InvAfter(Next(s, ls[0]), ls[1..]);
    }
  }

  lemma StrandedIsUncovered(s: System, ls: seq<Label>, i: nat, r: RunId)
    requires Inv2(s) && Legal(s, ls) && StrandedAt(s, ls, i, r)
    ensures !CoveredAfter(s, ls, i + 1, r)
  {
    PrefixLegal(s, ls, i);
    InvAfter(s, ls[..i]);
    StrandedExactly(Exec(s, ls[..i]), ls[i], r);
  }

  lemma UncoveredPrefix(s: System, ls: seq<Label>, i: nat, r: RunId)
    requires Inv2(s) && Legal(s, ls) && i <= |ls| && !CoveredAfter(s, ls, i, r)
    requires r in s.db.runs ==> Covered(s, r)
    ensures exists k :: StrandedAt(s, ls, k, r)
  {
    if i == |ls| {
      assert ls[..i] == ls;
    } else {
      PrefixLegal(s, ls, i);
    }
    UncoveredWasStranded(s, ls[..i], r);
    var k :| StrandedAt(s, ls[..i], k, r);
    StrandedInPrefix(s, ls, i, k, r);
  }

  /** Over whole runs, in both directions: the run is covered in every state passed exactly when no
      step strands it. */
  lemma CoveredThroughoutExactly(s: System, ls: seq<Label>, r: RunId)
    requires Inv2(s) && Legal(s, ls)
    requires r in s.db.runs ==> Covered(s, r)
    ensures (forall i :: 0 <= i <= |ls| ==> CoveredAfter(s, ls, i, r)) <==> forall i: nat :: !StrandedAt(s, ls, i, r)
  {
    if i :| 0 <= i <= |ls| && !CoveredAfter(s, ls, i, r) {
      UncoveredPrefix(s, ls, i, r);
    }
    forall i: nat | StrandedAt(s, ls, i, r)
      ensures !CoveredAfter(s, ls, i + 1, r)
    {
      StrandedIsUncovered(s, ls, i, r);
    }
  }

  // ---- resolutions as one step, takeovers only from workers that stopped ----

  /** `ResolveJob` together with the run-status write that follows it; any other label alone. */
  ghost function Whole(s: System, l: Label): System
    requires Enabled(s, l)
  {
    var t := Next(s, l);
    if l.ResolveJob? && PcOf(t, l.w).Resolved? then Next(t, WriteOutcome(l.w)) else t
  }

  /** The row's owner, if any, no longer works on it. */
  ghost predicate OwnerStopped(s: System, j: JobId)
    requires j in s.db.jobs
  {
    s.db.jobs[j].owner.Some? ==>
      var pc := PcOf(s, s.db.jobs[j].owner.value); !Active(pc) || pc.claim.job != j
  }

  ghost predicate CalmEnabled(s: System, l: Label) {
    Enabled(s, l) && (l.TakeJob? ==> OwnerStopped(s, l.j))
  }

  ghost predicate CalmLegal(s: System, ls: seq<Label>)
    decreases |ls|
  {
    ls == [] || (CalmEnabled(s, ls[0]) && CalmLegal(Whole(s, ls[0]), ls[1..]))
  }

  ghost function CalmExec(s: System, ls: seq<Label>): System
    requires CalmLegal(s, ls)
    decreases |ls|
  {
    if ls == [] then s else CalmExec(Whole(s, ls[0]), ls[1..])
  }

  ghost predicate StillOwns(s: System, w: WorkerId)
    requires w in s.workers
  {
    Active(s.workers[w].pc) ==> !s.workers[w].pc.Resolved? && Owns(s.db, w, s.workers[w].pc.claim.job)
  }

  /** Between whole steps every busy worker still owns the row it works on. */
  ghost predicate Calm(s: System) {
    && Inv2(s)
    && (forall w :: w in s.workers ==> StillOwns(s, w))
    && (forall r :: r in s.db.runs ==> Resting(s.db.runs[r].status) || HasLive(s, r))
  }

  lemma BeatOwners(s: System, w: WorkerId, v: WorkerId)
    requires Enabled(s, Beat(w)) && v in s.workers && StillOwns(s, v)
    ensures StillOwns(DoBeat(s, w), v)
  {
  }

  lemma OtherOwners(s: System, l: Label, v: WorkerId)
    requires Enabled(s, l) && v in Next(s, l).workers && (v in s.workers ==> StillOwns(s, v))
    requires l.Tick? || l.AddWorker? || l.CreateRun? || l.Cancel? || l.Decide? || l.RequestApproval? || l.WriteRunning?
    ensures StillOwns(Next(s, l), v)
  {
  }

  lemma LocalOwners(s: System, l: Label, v: WorkerId)
    requires Enabled(s, l) && Local(l) && v in s.workers && StillOwns(s, v)
    ensures v in Next(s, l).workers && StillOwns(Next(s, l), v)
  {
    LocalStepShape(s, l);
  }

  lemma CalmOwners(s: System, l: Label, v: WorkerId)
    requires CalmEnabled(s, l) && v in Whole(s, l).workers
    requires forall w :: w in s.workers ==> StillOwns(s, w)
    ensures StillOwns(Whole(s, l), v)
  {
    if l.ResolveJob? {
      WholeResolveShape(s, l.w);
      CalmResolveOwners(s, l.w, v);
    } else if Local(l) {
      LocalStepShape(s, l);
      LocalOwners(s, l, v);
    } else if l.TakeJob? {
      CalmTakeOwners(s, l.w, l.j, v);
    } else if l.Beat? {
      BeatOwners(s, l.w, v);
    } else {
      OtherOwners(s, l, v);
    }
  }

  lemma CalmTakeOwners(s: System, w: WorkerId, j: JobId, v: WorkerId)
    requires w in s.workers && s.workers[w].pc.Idle? && j in s.db.jobs && OwnerStopped(s, j)
    requires v in s.workers && StillOwns(s, v)
    ensures StillOwns(DoTakeJob(s, w, j), v)
  {
    assert StillOwns(s, v);
  }

  lemma ResolveShape(s: System, w: WorkerId)
    requires Enabled(s, ResolveJob(w))
    ensures var t := DoResolve(s, w);
            && t.workers.Keys == s.workers.Keys
            && (t.workers[w].pc.Idle? || t.workers[w].pc == Resolved(s.workers[w].pc.claim, s.workers[w].pc.verdict))
            && (forall v :: v in s.workers && v != w ==> t.workers[v] == s.workers[v])
            && t.db.runs == s.db.runs && t.db.jobs.Keys == s.db.jobs.Keys
            && (forall k :: k in s.db.jobs && k != s.workers[w].pc.claim.job ==> t.db.jobs[k] == s.db.jobs[k])
  {
  }

  /** A whole resolution leaves its worker idle and touches no other worker and no other row. */
  lemma WholeResolveShape(s: System, w: WorkerId)
    requires Enabled(s, ResolveJob(w))
    ensures var t := Whole(s, ResolveJob(w));
            && t.workers.Keys == s.workers.Keys
            && t.workers[w].pc.Idle?
            && (forall v :: v in s.workers && v != w ==> t.workers[v] == s.workers[v])
            && t.db.jobs.Keys == s.db.jobs.Keys
            && (forall k :: k in s.db.jobs && k != s.workers[w].pc.claim.job ==> t.db.jobs[k] == s.db.jobs[k])
  {
    ResolveShape(s, w);
    var u := DoResolve(s, w);
    if u.workers[w].pc.Resolved? {
      LocalStepShape(u, WriteOutcome(w));
    }
  }

  lemma CalmResolveOwners(s: System, w: WorkerId, v: WorkerId)
    requires Enabled(s, ResolveJob(w)) && StillOwns(s, w)
    requires v in s.workers && StillOwns(s, v)
    ensures v in Whole(s, ResolveJob(w)).workers && StillOwns(Whole(s, ResolveJob(w)), v)
  {
    WholeResolveShape(s, w);
  }

  /** A worker that moves a paused run still owns its job, which is therefore live. */
  lemma CalmStepCovers(s: System, l: Label, r: RunId)
    requires Calm(s) && Enabled(s, l) && r in s.db.runs
    ensures r in Next(s, l).db.runs && Covered(Next(s, l), r)
  {
    StrandedExactly(s, l, r);
    if Unpauses(s, l, r) {
      CalmUnpauserIsLive(s, l, r);
    }
  }

  lemma CalmUnpauserIsLive(s: System, l: Label, r: RunId)
    requires Inv2(s) && Enabled(s, l) && r in s.db.runs && Unpauses(s, l, r)
    requires l.w in s.workers && StillOwns(s, l.w)
    ensures HasLive(s, r)
  {
    assert WorkerOk(s, l.w);
    var c := s.workers[l.w].pc.claim;
    assert JobOk(s, c.job);
    assert Live(s, r, c.job);
  }

  lemma CalmNoPending(s: System, r: RunId)
    requires forall w :: w in s.workers ==> StillOwns(s, w)
    ensures !HasPending(s, r)
  {
  }

  lemma RetriedJobIsLive(s: System, w: WorkerId, r: RunId)
    requires Enabled(s, ResolveJob(w)) && ClaimOk(s, w, s.workers[w].pc.claim)
    requires var c := s.workers[w].pc.claim;
             c.run == r && s.workers[w].pc.verdict.Errored? && c.attempt < Budget(c.maxAttempts) && Owns(s.db, w, c.job)
    ensures HasLive(DoResolve(s, w), r)
  {
    var c := s.workers[w].pc.claim;
    assert DoResolve(s, w).db.jobs[c.job].status.JobRetryWait?;
    assert Live(DoResolve(s, w), r, c.job);
  }

  lemma OutcomeWriteCovers(u: System, w: WorkerId, r: RunId)
    requires Inv2(u) && Enabled(u, WriteOutcome(w)) && r in u.db.runs && Covered(u, r)
    requires var c := u.workers[w].pc.claim;
             c.run == r && u.workers[w].pc.verdict.Errored? && c.attempt < Budget(c.maxAttempts) ==> HasLive(u, r)
    ensures var t := Next(u, WriteOutcome(w)); r in t.db.runs && Covered(t, r)
  {
    StrandedExactly(u, WriteOutcome(w), r);
  }

  lemma AfterResolveRetryIsLive(s: System, w: WorkerId, r: RunId)
    requires Enabled(s, ResolveJob(w)) && ClaimOk(s, w, s.workers[w].pc.claim) && StillOwns(s, w)
    ensures var u := Next(s, ResolveJob(w));
            && w in u.workers
            && (u.workers[w].pc.Resolved? ==>
                  var c := u.workers[w].pc.claim;
                  c.run == r && u.workers[w].pc.verdict.Errored? && c.attempt < Budget(c.maxAttempts) ==> HasLive(u, r))
  {
    ResolveShape(s, w);
    var Handled(c, v) := s.workers[w].pc;
    if c.run == r && v.Errored? && c.attempt < Budget(c.maxAttempts) {
      RetriedJobIsLive(s, w, r);
    }
  }

  lemma CalmResolveCovers(s: System, w: WorkerId, r: RunId)
    requires Calm(s) && Enabled(s, ResolveJob(w)) && r in s.db.runs
    ensures var t := Whole(s, ResolveJob(w)); r in t.db.runs && Covered(t, r)
  {
    CalmStepCovers(s, ResolveJob(w), r);
    StepKeepsInv2(s, ResolveJob(w));
    assert WorkerOk(s, w) && StillOwns(s, w);
    AfterResolveRetryIsLive(s, w, r);
    var u := Next(s, ResolveJob(w));
    if PcOf(u, w).Resolved? {
      OutcomeWriteCovers(u, w, r);
    }
  }

  lemma CalmStep(s: System, l: Label)
    requires Calm(s) && CalmEnabled(s, l)
    ensures Calm(Whole(s, l))
  {
    CalmInv(s, l);
    var t := Whole(s, l);
    forall w | w in t.workers
      ensures StillOwns(t, w)
    {
      CalmOwners(s, l, w);
    }
    forall r | r in t.db.runs
      ensures Resting(t.db.runs[r].status) || HasLive(t, r)
    {
      CalmRunCovered(s, l, t, r);
    }
  }

  lemma CalmInv(s: System, l: Label)
    requires Inv2(s) && Enabled(s, l)
    ensures Inv2(Whole(s, l))
  {
    StepKeepsInv2(s, l);
    if l.ResolveJob? && PcOf(Next(s, l), l.w).Resolved? {
      StepKeepsInv2(Next(s, l), WriteOutcome(l.w));
    }
  }

  lemma ResolveAddsNoRun(s: System, w: WorkerId, r: RunId)
    requires Enabled(s, ResolveJob(w)) && r in Whole(s, ResolveJob(w)).db.runs
    ensures r in s.db.runs
  {
  }

  lemma CalmRunCovered(s: System, l: Label, t: System, r: RunId)
    requires Calm(s) && CalmEnabled(s, l) && t == Whole(s, l) && r in t.db.runs
    requires forall w :: w in t.workers ==> StillOwns(t, w)
    ensures Resting(t.db.runs[r].status) || HasLive(t, r)
  {
    CalmNoPending(t, r);
    if l.ResolveJob? {
      ResolveAddsNoRun(s, l.w, r);
      CalmResolveCovers(s, l.w, r);
    } else if r in s.db.runs {
      CalmStepCovers(s, l, r);
    } else {
      NewRunCovered(s, l, r);
    }
  }

  lemma {:induction false} CalmRun(s: System, ls: seq<Label>)
    requires Calm(s) && CalmLegal(s, ls)
    ensures Calm(CalmExec(s, ls))
    decreases |ls|
  {
    if ls != [] {
      CalmStep(s, ls[0]);
      CalmRun(Whole(s, ls[0]), ls[1..]);
    }
  }

  /** No stranded run: with each job resolution and its run-status write taken as one step
      and leases taken over only from workers that have stopped, every run that is neither
      terminal nor paused has a job that is queued, waiting to retry or running under a
      worker that has neither stored nor observed `paused`. */
  lemma NoStrandedRun(ls: seq<Label>, r: RunId)
    requires CalmLegal(Init(), ls) && r in CalmExec(Init(), ls).db.runs
    ensures var s := CalmExec(Init(), ls);
            Terminal(s.db.runs[r].status) || s.db.runs[r].status.Paused? || exists j :: Live(s, r, j)
  {
    CalmRun(Init(), ls);
  }
}
