/** How often the workers start executing a job's graph, counted along a run of the protocol. */
module JobAttempts {
  import opened Domain
  import opened Transactions
  import opened Protocol
  import opened Fencing
  import Leases

  /** The step takes a worker into the graph of job `j`. */
  ghost predicate Enters(s: System, l: Label, j: JobId)
    requires Enabled(s, l)
  {
    l.ReadSnapshot? && PcOf(s, l.w).LoadSnapshot? && PcOf(s, l.w).claim.job == j && PcOf(Next(s, l), l.w).BeforeNode?
  }

  ghost function Entries(s: System, ls: seq<Label>, j: JobId): nat
    requires Legal(s, ls)
    decreases |ls|
  {
    if ls == [] then 0
    else (if Enters(s, ls[0], j) then 1 else 0) + Entries(Next(s, ls[0]), ls[1..], j)
  }

  /** Handlers of job `j` that were started and have not entered the graph yet. */
  ghost function Waiting(s: System, j: JobId): set<WorkerId> {
    set w | w in s.workers && (s.workers[w].pc.LoadRun? || s.workers[w].pc.LoadSnapshot?) && s.workers[w].pc.claim.job == j
  }

  ghost function Starts(s: System, j: JobId): nat {
    if j in s.holds then HandlerStarts(s.holds[j]) else 0
  }

  // ---- counting starts ----

  lemma {:induction false} SameStarts(h: seq<Hold>, g: seq<Hold>)
    requires |h| == |g| && forall i :: 0 <= i < |h| ==> h[i].starts == g[i].starts
    ensures HandlerStarts(h) == HandlerStarts(g)
    decreases |h|
  {
    if h != [] {
      SameStarts(h[..|h| - 1], g[..|g| - 1]);
    }
  }

  lemma {:induction false} OneStartMore(h: seq<Hold>, attempt: nat)
    requires 0 < attempt <= |h|
    ensures HandlerStarts(CountStart(h, attempt)) == HandlerStarts(h) + 1
  {
    var n := |h| - 1;
    var g := CountStart(h, attempt);
    if attempt == |h| {
      SameStarts(g[..n], h[..n]);
    } else {
      assert g[..n] == CountStart(h[..n], attempt);
      OneStartMore(h[..n], attempt);
    }
  }

  lemma ClaimStartsNothing(h: seq<Hold>, x: Hold)
    requires x.starts == 0
    ensures HandlerStarts(Superseded(h) + [x]) == HandlerStarts(h)
  {
    assert (Superseded(h) + [x])[..|h|] == Superseded(h);
    SameStarts(h, Superseded(h));
  }

  // ---- one step ----

  /** What a step that is not a handler start does: it starts none, and nobody comes to wait. */
  lemma TakeStartsNothing(s: System, w: WorkerId, k: JobId, j: JobId)
    requires w in s.workers && s.workers[w].pc.Idle? && k in s.db.jobs
    ensures Starts(DoTakeJob(s, w, k), j) == Starts(s, j) && Waiting(DoTakeJob(s, w, k), j) <= Waiting(s, j)
  {
    if k == j {
      ClaimStartsNothing(if j in s.holds then s.holds[j] else [], Hold(w, s.clock, s.clock + s.workers[w].lease, Held, 0));
    }
  }

  lemma RecordStartsNothing(s: System, db: Tables, w: WorkerId, k: JobId, j: JobId)
    ensures Starts(RecordJob(s, db, w, k), j) == Starts(s, j)
  {
    if k == j && j in s.holds && j in s.db.jobs && j in db.jobs {
      SameStarts(s.holds[j], Recorded(s.holds[j], s.db.jobs[j], db.jobs[j], w, s.clock));
    }
  }

  lemma ResolveStartsNothing(s: System, w: WorkerId, j: JobId)
    requires Enabled(s, ResolveJob(w))
    ensures Starts(DoResolve(s, w), j) == Starts(s, j) && Waiting(DoResolve(s, w), j) <= Waiting(s, j)
  {
    var Handled(c, v) := s.workers[w].pc;
    RecordStartsNothing(s, ResolveTx(s.db, w, s.workers[w].retryDelay, s.clock, c, v), w, c.job, j);
  }

  lemma BeatStartsNothing(s: System, w: WorkerId, j: JobId)
    requires Enabled(s, Beat(w))
    ensures Starts(DoBeat(s, w), j) == Starts(s, j) && Waiting(DoBeat(s, w), j) == Waiting(s, j)
  {
    RecordStartsNothing(s, HeartbeatTx(s.db, w, s.workers[w].lease, s.clock, s.workers[w].pc.claim.job), w, s.workers[w].pc.claim.job, j);
  }

  lemma LocalStartsNothing(s: System, l: Label, j: JobId)
    requires Enabled(s, l) && Local(l)
    ensures Starts(Next(s, l), j) == Starts(s, j) && Waiting(Next(s, l), j) <= Waiting(s, j)
    ensures Enters(s, l, j) ==> l.w in Waiting(s, j) && l.w !in Waiting(Next(s, l), j)
  {
    LocalStepShape(s, l);
    var t := Next(s, l);
    assert t.holds == s.holds;
    forall w | w in Waiting(t, j)
      ensures w in Waiting(s, j)
    {
      if w == l.w {
        OnlyReadersWait(s, l);
      }
    }
  }

  /** A worker that moves on to its next read was waiting before. */
  lemma OnlyReadersWait(s: System, l: Label)
    requires Enabled(s, l) && Local(l) && (PcOf(Next(s, l), l.w).LoadRun? || PcOf(Next(s, l), l.w).LoadSnapshot?)
    ensures PcOf(s, l.w).LoadRun? || PcOf(s, l.w).LoadSnapshot?
  {
  }

  lemma QuietStartsNothing(s: System, l: Label, j: JobId)
    requires Enabled(s, l)
    requires l.Tick? || l.AddWorker? || l.Cancel? || l.RequestApproval? || ((l.CreateRun? || l.Decide?) && l.j !in s.holds)
    ensures Starts(Next(s, l), j) == Starts(s, j) && Waiting(Next(s, l), j) <= Waiting(s, j)
  {
  }

  lemma MarkStartsOne(s: System, w: WorkerId, j: JobId)
    requires Enabled(s, WriteRunning(w)) && WorkerOk(s, w)
    ensures var n := if s.workers[w].pc.claim.job == j then 1 else 0;
            Starts(DoWriteRunning(s, w), j) == Starts(s, j) + n && |Waiting(DoWriteRunning(s, w), j)| <= |Waiting(s, j)| + n
  {
    var c := s.workers[w].pc.claim;
    var t := DoWriteRunning(s, w);
    if c.job == j {
      OneStartMore(s.holds[j], c.attempt);
      assert Waiting(t, j) == Waiting(s, j) + {w};
    } else {
      assert Waiting(t, j) == Waiting(s, j);
    }
  }

  lemma Smaller(a: set<WorkerId>, b: set<WorkerId>)
    requires a <= b
    ensures |a| <= |b|
  {
    if a != {} {
      var x :| x in a;
      Smaller(a - {x}, b - {x});
    }
  }

  /** Job ids with a history are ids of jobs. */
  ghost predicate HistoriesOfJobs(s: System) {
    s.holds.Keys == s.db.jobs.Keys
  }

  lemma EntryLeavesWaiting(before: set<WorkerId>, after: set<WorkerId>, w: WorkerId)
    requires after <= before && w in before && w !in after
    ensures |after| + 1 <= |before|
  {
    Smaller(after, before - {w});
  }

  /** A step adds at least as many starts as it adds entries and waiting handlers. */
  lemma StepPaysForEntries(s: System, l: Label, j: JobId)
    requires Inv(s) && HistoriesOfJobs(s) && Enabled(s, l)
    ensures (if Enters(s, l, j) then 1 else 0) + |Waiting(Next(s, l), j)| + Starts(s, j) <= |Waiting(s, j)| + Starts(Next(s, l), j)
  {
    var t := Next(s, l);
    if l.WriteRunning? {
      assert WorkerOk(s, l.w);
      MarkStartsOne(s, l.w, j);
    } else {
      if Local(l) {
        LocalStartsNothing(s, l, j);
      } else if l.TakeJob? {
        TakeStartsNothing(s, l.w, l.j, j);
      } else if l.ResolveJob? {
        ResolveStartsNothing(s, l.w, j);
      } else if l.Beat? {
        BeatStartsNothing(s, l.w, j);
      } else {
        QuietStartsNothing(s, l, j);
      }
      if Enters(s, l, j) {
        EntryLeavesWaiting(Waiting(s, j), Waiting(t, j), l.w);
      } else {
        Smaller(Waiting(t, j), Waiting(s, j));
      }
    }
  }

  lemma StepKeepsHistories(s: System, l: Label)
    requires Inv(s) && HistoriesOfJobs(s) && Enabled(s, l)
    ensures HistoriesOfJobs(Next(s, l))
  {
    if Local(l) {
      LocalStepShape(s, l);
      assert Next(s, l).holds == s.holds;
    } else if l.ResolveJob? || l.Beat? || l.WriteRunning? {
      assert WorkerOk(s, l.w);
      OwnStepKeepsHistories(s, l);
    } else {
      OtherStepKeepsHistories(s, l);
    }
  }

  lemma OtherStepKeepsHistories(s: System, l: Label)
    requires HistoriesOfJobs(s) && Enabled(s, l) && !Local(l) && !l.ResolveJob? && !l.Beat? && !l.WriteRunning?
    ensures HistoriesOfJobs(Next(s, l))
  {
  }

  lemma OwnStepKeepsHistories(s: System, l: Label)
    requires HistoriesOfJobs(s) && Enabled(s, l) && (l.ResolveJob? || l.Beat? || l.WriteRunning?) && WorkerOk(s, l.w)
    ensures HistoriesOfJobs(Next(s, l))
  {
  }

  lemma {:induction false} EntriesPaid(s: System, ls: seq<Label>, j: JobId)
    requires Inv(s) && HistoriesOfJobs(s) && Legal(s, ls)
    ensures Entries(s, ls, j) + Starts(s, j) <= |Waiting(s, j)| + Starts(Exec(s, ls), j)
    decreases |ls|
  {
    if ls != [] {
      StepPaysForEntries(s, ls[0], j);
      StepKeepsInv(s, ls[0]);
      StepKeepsHistories(s, ls[0]);
      EntriesPaid(Next(s, ls[0]), ls[1..], j);
    }
  }

  /** A job's graph is entered at most once for each start of its handler. */
  lemma EntriesBounded(ls: seq<Label>, j: JobId)
    requires Legal(Init(), ls) && j in Exec(Init(), ls).db.jobs
    ensures var s := Exec(Init(), ls);
            j in s.holds && Entries(Init(), ls, j) <= HandlerStarts(s.holds[j])
  {
    var s := Exec(Init(), ls);
    assert Leases.Reachable(s);
    Leases.ReachableInv(s);
    assert JobOk(s, j);
    EntriesPaid(Init(), ls, j);
  }
}
