/** Concrete runs of the protocol: both ways to strand a run, and the writes that change a
    terminal row. Workers have the default lease and retry delay. */
module Witnesses {
  import opened Domain
  import opened Transactions
  import opened Outcomes
  import opened Protocol
  import opened Fencing
  import opened Stranding
  import opened Leases
  import opened TerminalRows
  import opened PausedRuns

  const LEASE: nat := 60
  const DELAY: nat := 5

  /** Run 0 with job 0; worker k is in state pcs[k]. */
  ghost function Sys(run: Run, job: Job, now: Time, pcs: seq<Pc>, h: seq<Hold>): System {
    System(Tables(map[0 := run], map[0 := job], map[]), now,
           map w: nat | w < |pcs| :: Worker(pcs[w], LEASE, DELAY), map[0 := h], {})
  }

  function RunRow(status: RunStatus, updated: Time): Run { NewRun("hi", 0).(status := status, updated := updated) }

  function At(n: nat): Claim { Claim(0, 0, n, 3) }

  function Row(status: JobStatus, owner: Option<WorkerId>, since: Option<Time>, attempts: nat): Job {
    NewJob(0, 0).(status := status, owner := owner, attempts := attempts, heartbeat := since,
                  expires := if since.Some? then Some(since.value + LEASE) else None)
  }

  lemma SysEq(t: System, run: Run, job: Job, now: Time, pcs: seq<Pc>, h: seq<Hold>)
    requires t.db.runs.Keys == {0} && t.db.runs[0] == run
    requires t.db.jobs.Keys == {0} && t.db.jobs[0] == job
    requires t.db.approvals.Keys == {} && t.clock == now && t.resumed == {}
    requires forall w: nat :: w in t.workers <==> w < |pcs|
    requires forall w: nat :: w < |pcs| ==> t.workers[w] == Worker(pcs[w], LEASE, DELAY)
    requires t.holds.Keys == {0} && t.holds[0] == h
    ensures t == Sys(run, job, now, pcs, h)
  {
    var u := Sys(run, job, now, pcs, h);
    assert t.db.runs == u.db.runs && t.db.jobs == u.db.jobs && t.db.approvals == u.db.approvals;
    assert t.workers == u.workers && t.holds == u.holds;
  }

  lemma Take(run: Run, job: Job, now: Time, pcs: seq<Pc>, h: seq<Hold>, w: nat, job': Job, pcs': seq<Pc>, h': seq<Hold>)
    requires Reachable(Sys(run, job, now, pcs, h)) && w < |pcs| && pcs[w].Idle?
    requires job.run == 0 && !Terminal(run.status)
    requires job.status.JobQueued? || (job.status.JobRunning? && job.expires.Some? && job.expires.value < now)
    requires job' == Claimed(job, w, LEASE, now)
    requires pcs' == pcs[w := MarkRunning(Claim(0, 0, job'.attempts, job.maxAttempts))]
    requires h' == Superseded(h) + [Hold(w, now, now + LEASE, Held, 0)]
    ensures Reachable(Sys(run, job', now, pcs', h'))
  {
    var s := Sys(run, job, now, pcs, h);
    assert Claimable(s.db, s.clock, 0);
    ReachableStep(s, TakeJob(w, 0, {}));
    SysEq(DoTakeJob(s, w, 0), run, job', now, pcs', h');
  }

  lemma Wait(run: Run, job: Job, now: Time, d: nat, pcs: seq<Pc>, h: seq<Hold>)
    requires Reachable(Sys(run, job, now, pcs, h))
    ensures Reachable(Sys(run, job, now + d, pcs, h))
  {
    ReachableStep(Sys(run, job, now, pcs, h), Tick(d));
  }

  /** A worker's step that leaves the job alone. */
  lemma Move(run: Run, job: Job, now: Time, pcs: seq<Pc>, h: seq<Hold>, l: Label, pcs': seq<Pc>, run': Run)
    requires Reachable(Sys(run, job, now, pcs, h)) && Local(l) && l.w < |pcs| == |pcs'|
    requires Enabled(Sys(run, job, now, pcs, h), l)
    requires var t := Next(Sys(run, job, now, pcs, h), l);
             t.workers[l.w].pc == pcs'[l.w] && pcs' == pcs[l.w := pcs'[l.w]] && t.db.runs[0] == run'
    ensures Reachable(Sys(run', job, now, pcs', h)) && Next(Sys(run, job, now, pcs, h), l) == Sys(run', job, now, pcs', h)
  {
    var s := Sys(run, job, now, pcs, h);
    ReachableStep(s, l);
    LocalStepShape(s, l);
    assert Next(s, l).db.runs.Keys == {0};
    SysEq(Next(s, l), run', job, now, pcs', h);
  }

  lemma Mark(run: Run, job: Job, now: Time, pcs: seq<Pc>, h: seq<Hold>, w: nat, pcs': seq<Pc>, h': seq<Hold>)
    requires Reachable(Sys(run, job, now, pcs, h)) && w < |pcs| && pcs[w].MarkRunning?
    requires pcs[w].claim.run == 0 && pcs[w].claim.job == 0 && !Terminal(run.status)
    requires pcs' == pcs[w := LoadRun(pcs[w].claim)] && h' == CountStart(h, pcs[w].claim.attempt)
    ensures Reachable(Sys(run.(status := Running, error := None, updated := now), job, now, pcs', h'))
  {
    var s := Sys(run, job, now, pcs, h);
    ReachableStep(s, WriteRunning(w));
    SysEq(DoWriteRunning(s, w), run.(status := Running, error := None, updated := now), job, now, pcs', h');
  }

  /** A worker that still owns the job resolves it. */
  lemma Resolve(run: Run, job: Job, now: Time, pcs: seq<Pc>, h: seq<Hold>, w: nat, job': Job, pcs': seq<Pc>, h': seq<Hold>)
    requires Reachable(Sys(run, job, now, pcs, h)) && w < |pcs| && pcs[w].Handled?
    requires pcs[w].claim.job == 0 && job.owner == Some(w) && job.status.JobRunning? && h != []
    requires var after := ResolveTx(Sys(run, job, now, pcs, h).db, w, DELAY, now, pcs[w].claim, pcs[w].verdict);
             0 in after.jobs && job' == after.jobs[0]
    requires pcs' == pcs[w := if OutcomeWrite(pcs[w].claim, pcs[w].verdict).Some? then Resolved(pcs[w].claim, pcs[w].verdict) else Idle]
    requires h' == Recorded(h, job, job', w, now)
    ensures Reachable(Sys(run, job', now, pcs', h'))
    ensures DoResolve(Sys(run, job, now, pcs, h), w) == Sys(run, job', now, pcs', h')
  {
    var s := Sys(run, job, now, pcs, h);
    ReachableStep(s, ResolveJob(w));
    SysEq(DoResolve(s, w), run, job', now, pcs', h');
  }

  /** Three workers, run 0 and its queued job. */
  lemma Setup()
    ensures Reachable(Sys(RunRow(Queued, 0), NewJob(0, 0), 0, [Idle, Idle, Idle], []))
  {
    InitReachable();
    ReachableStep(Init(), AddWorker(0, LEASE, DELAY));
    var s1 := Next(Init(), AddWorker(0, LEASE, DELAY));
    ReachableStep(s1, AddWorker(1, LEASE, DELAY));
    var s2 := Next(s1, AddWorker(1, LEASE, DELAY));
    ReachableStep(s2, AddWorker(2, LEASE, DELAY));
    var s3 := Next(s2, AddWorker(2, LEASE, DELAY));
    ReachableStep(s3, CreateRun(0, 0, "hi"));
    SysEq(Next(s3, CreateRun(0, 0, "hi")), RunRow(Queued, 0), NewJob(0, 0), 0, [Idle, Idle, Idle], []);
  }

  lemma NothingDrives(s: System, r: RunId)
    requires forall j :: j in s.db.jobs ==> JobOver(s.db.jobs[j].status)
    requires forall w :: w in s.workers ==> !s.workers[w].pc.Resolved?
    ensures !HasLive(s, r) && !HasPending(s, r)
  {
  }

  // ---- a crash between the last failure of the job and the failure of the run ----

  const BOOM := Errored("boom")

  /** Worker `w` claims the job, crashes, and its lease lapses. */
  lemma ClaimAndCrash(job: Job, now: Time, pcs: seq<Pc>, h: seq<Hold>, w: nat, job': Job, pcs': seq<Pc>, h': seq<Hold>)
    requires Reachable(Sys(RunRow(Queued, 0), job, now, pcs, h)) && w < |pcs| && pcs[w].Idle?
    requires job.run == 0 && (job.status.JobQueued? || (job.status.JobRunning? && job.expires.Some? && job.expires.value < now))
    requires job' == Claimed(job, w, LEASE, now) && pcs' == pcs[w := Stopped] && h' == Superseded(h) + [Hold(w, now, now + LEASE, Held, 0)]
    ensures Reachable(Sys(RunRow(Queued, 0), job', now + 61, pcs', h'))
  {
    var mid := pcs[w := MarkRunning(Claim(0, 0, job'.attempts, job.maxAttempts))];
    Take(RunRow(Queued, 0), job, now, pcs, h, w, job', mid, h');
    Move(RunRow(Queued, 0), job', now, mid, h', Crash(w), pcs', RunRow(Queued, 0));
    Wait(RunRow(Queued, 0), job', now, 61, pcs', h');
  }

  /** Workers 0 and 1 claim the job and crash. */
  lemma TwoCrashes(h: seq<Hold>)
    requires h == [Hold(0, 0, 60, TakenOver, 0), Hold(1, 61, 121, Held, 0)]
    ensures Reachable(Sys(RunRow(Queued, 0), Row(JobRunning, Some(1), Some(61), 2), 122, [Stopped, Stopped, Idle], h))
  {
    var h1 := [Hold(0, 0, 60, Held, 0)];
    var j1, j2 := Row(JobRunning, Some(0), Some(0), 1), Row(JobRunning, Some(1), Some(61), 2);
    Setup();
    ClaimAndCrash(NewJob(0, 0), 0, [Idle, Idle, Idle], [], 0, j1, [Stopped, Idle, Idle], h1);
    ClaimAndCrash(j1, 61, [Stopped, Idle, Idle], h1, 1, j2, [Stopped, Stopped, Idle], h);
  }

  /** Worker 2 takes the job over for the third attempt and fails. */
  lemma ThirdAttemptFailed(h: seq<Hold>)
    requires h == [Hold(0, 0, 60, TakenOver, 0), Hold(1, 61, 121, TakenOver, 0), Hold(2, 122, 182, Held, 0)]
    ensures Reachable(Sys(RunRow(Queued, 0), Row(JobRunning, Some(2), Some(122), 3), 122, [Stopped, Stopped, Handled(At(3), BOOM)], h))
  {
    var h2 := [Hold(0, 0, 60, TakenOver, 0), Hold(1, 61, 121, Held, 0)];
    var j2, j3 := Row(JobRunning, Some(1), Some(61), 2), Row(JobRunning, Some(2), Some(122), 3);
    var run := RunRow(Queued, 0);
    TwoCrashes(h2);
    Take(run, j2, 122, [Stopped, Stopped, Idle], h2, 2, j3, [Stopped, Stopped, MarkRunning(At(3))], h);
    Move(run, j3, 122, [Stopped, Stopped, MarkRunning(At(3))], h, HandlerError(2, "boom"), [Stopped, Stopped, Handled(At(3), BOOM)], run);
  }

  /** The window between failing the job for good and failing its run is real: a crash there
      leaves the run queued with no job to drive it. */
  lemma CrashStrandsRun()
    ensures exists s :: Reachable(s) && Enabled(s, Crash(2)) && 0 in s.db.runs && Strands(s, Crash(2), 0)
  {
    var h := [Hold(0, 0, 60, TakenOver, 0), Hold(1, 61, 121, TakenOver, 0), Hold(2, 122, 182, Held, 0)];
    ThirdAttemptFailed(h);
    var job := Row(JobRunning, Some(2), Some(122), 3);
    var pcs := [Stopped, Stopped, Handled(At(3), BOOM)];
    var after := job.(status := JobFailed, owner := None, expires := None, error := Some("boom"), finishedAt := Some(122));
    var pcs' := [Stopped, Stopped, Resolved(At(3), BOOM)];
    var h' := h[2 := Hold(2, 122, 122, Released(2), 0)];
    Resolve(RunRow(Queued, 0), job, 122, pcs, h, 2, after, pcs', h');
    var s := Sys(RunRow(Queued, 0), after, 122, pcs', h');
    assert PendingFailure(s, 0, 2);
    NothingDrives(Next(s, Crash(2)), 0);
    assert Strands(s, Crash(2), 0);
  }

  // ---- a late worker that lost its lease ----

  /** A worker that has claimed the job reads the run and enters the graph. */
  lemma Enter(status: RunStatus, at: Time, job: Job, now: Time, pcs: seq<Pc>, h: seq<Hold>, w: nat, n: nat, pcs': seq<Pc>, h': seq<Hold>)
    requires Reachable(Sys(RunRow(status, at), job, now, pcs, h)) && !Terminal(status)
    requires w < |pcs| && pcs[w] == MarkRunning(At(n))
    requires pcs' == pcs[w := BeforeNode(At(n))] && h' == CountStart(h, n)
    ensures Reachable(Sys(RunRow(Running, now), job, now, pcs', h'))
  {
    var mid1, mid2 := pcs[w := LoadRun(At(n))], pcs[w := LoadSnapshot(At(n))];
    var run := RunRow(Running, now);
    Mark(RunRow(status, at), job, now, pcs, h, w, mid1, h');
    Move(run, job, now, mid1, h', ReadRun(w), mid2, run);
    Move(run, job, now, mid2, h', ReadSnapshot(w), pcs', run);
  }

  /** Worker 0 is between two nodes when its lease lapses and worker 1 takes the job over. */
  lemma Overtaken(h: seq<Hold>)
    requires h == [Hold(0, 0, 60, TakenOver, 1), Hold(1, 61, 121, Held, 0)]
    ensures Reachable(Sys(RunRow(Running, 0), Row(JobRunning, Some(1), Some(61), 2), 61,
                          [BeforeNode(At(1)), MarkRunning(At(2)), Idle], h))
  {
    var h1 := [Hold(0, 0, 60, Held, 0)];
    var h2 := [Hold(0, 0, 60, Held, 1)];
    var j1 := Row(JobRunning, Some(0), Some(0), 1);
    Setup();
    Take(RunRow(Queued, 0), NewJob(0, 0), 0, [Idle, Idle, Idle], [], 0, j1, [MarkRunning(At(1)), Idle, Idle], h1);
    Enter(Queued, 0, j1, 0, [MarkRunning(At(1)), Idle, Idle], h1, 0, 1, [BeforeNode(At(1)), Idle, Idle], h2);
    Wait(RunRow(Running, 0), j1, 0, 61, [BeforeNode(At(1)), Idle, Idle], h2);
    Take(RunRow(Running, 0), j1, 61, [BeforeNode(At(1)), Idle, Idle], h2, 1, Row(JobRunning, Some(1), Some(61), 2),
         [BeforeNode(At(1)), MarkRunning(At(2)), Idle], h);
  }

  function PausedRun(): Run { RunRow(Paused, 61).(output := Some(""), reason := Some("approval_required")) }

  const NEEDS_APPROVAL := Execution(Paused, "", None, "approval_required")

  /** Worker 1 runs into an approval and stores `paused`. */
  lemma PausedByTheOther(h: seq<Hold>)
    requires h == [Hold(0, 0, 60, TakenOver, 1), Hold(1, 61, 121, Held, 1)]
    ensures Reachable(Sys(PausedRun(), Row(JobRunning, Some(1), Some(61), 2), 61,
                          [BeforeNode(At(1)), Handled(At(2), Returned(Paused)), Idle], h))
  {
    var h1 := [Hold(0, 0, 60, TakenOver, 1), Hold(1, 61, 121, Held, 0)];
    var job := Row(JobRunning, Some(1), Some(61), 2);
    var run := RunRow(Running, 61);
    var late := BeforeNode(At(1));
    Overtaken(h1);
    Enter(Running, 0, job, 61, [late, MarkRunning(At(2)), Idle], h1, 1, 2, [late, BeforeNode(At(2)), Idle], h);
    Move(run, job, 61, [late, BeforeNode(At(2)), Idle], h, EndGraph(1, Interrupted), [late, Storing(At(2), NEEDS_APPROVAL), Idle], run);
    Move(run, job, 61, [late, Storing(At(2), NEEDS_APPROVAL), Idle], h, Store(1), [late, Handled(At(2), Returned(Paused)), Idle], PausedRun());
  }

  const FAULT := Execution(Failed, "", Some("boom"), "error")

  /** Worker 1 has completed the paused job; worker 0, without its lease, is about to store a fault. */
  lemma LateFault(job: Job, h: seq<Hold>)
    requires job == Row(JobCompleted, None, None, 2).(heartbeat := Some(61), finishedAt := Some(61))
    requires h == [Hold(0, 0, 60, TakenOver, 1), Hold(1, 61, 61, Released(1), 1)]
    ensures Reachable(Sys(PausedRun(), job, 61, [Storing(At(1), FAULT), Idle, Idle], h))
  {
    var h1 := [Hold(0, 0, 60, TakenOver, 1), Hold(1, 61, 121, Held, 1)];
    PausedByTheOther(h1);
    Resolve(PausedRun(), Row(JobRunning, Some(1), Some(61), 2), 61, [BeforeNode(At(1)), Handled(At(2), Returned(Paused)), Idle], h1, 1,
            job, [BeforeNode(At(1)), Idle, Idle], h);
    Move(PausedRun(), job, 61, [BeforeNode(At(1)), Idle, Idle], h, EndGraph(0, Raised(OtherFailure("boom"))),
         [Storing(At(1), FAULT), Idle, Idle], PausedRun());
  }

  /** The late-writer hazard is real: a worker whose lease was taken over stores a retryable
      failure and takes the paused run back to `queued`, where no job drives it. */
  lemma LateWriterStrandsRun()
    ensures exists s :: Reachable(s) && Enabled(s, Store(0)) && 0 in s.db.runs && Strands(s, Store(0), 0)
                        && !Owns(s.db, 0, s.workers[0].pc.claim.job)
  {
    var job := Row(JobCompleted, None, None, 2).(heartbeat := Some(61), finishedAt := Some(61));
    var h := [Hold(0, 0, 60, TakenOver, 1), Hold(1, 61, 61, Released(1), 1)];
    LateFault(job, h);
    var s := Sys(PausedRun(), job, 61, [Storing(At(1), FAULT), Idle, Idle], h);
    NothingDrives(Next(s, Store(0)), 0);
    assert Strands(s, Store(0), 0);
  }

  // ---- terminal rows that change ----

  /** A worker in the graph ends it. */
  lemma End(run: Run, job: Job, now: Time, pcs: seq<Pc>, h: seq<Hold>, w: nat, n: nat, outcome: Outcome, pcs': seq<Pc>)
    requires Reachable(Sys(run, job, now, pcs, h)) && w < |pcs| && pcs[w] == BeforeNode(At(n))
    requires !(outcome.Raised? && outcome.failure.RunCancelled?)
    requires pcs' == pcs[w := Storing(At(n), ExecutionOf(outcome))]
    ensures Reachable(Sys(run, job, now, pcs', h)) && Next(Sys(run, job, now, pcs, h), EndGraph(w, outcome)) == Sys(run, job, now, pcs', h)
  {
    Move(run, job, now, pcs, h, EndGraph(w, outcome), pcs', run);
  }

  /** A worker stores its attempt while the run is running. */
  lemma Keep(at: Time, job: Job, now: Time, pcs: seq<Pc>, h: seq<Hold>, w: nat, n: nat, e: Execution, pcs': seq<Pc>, run': Run)
    requires Reachable(Sys(RunRow(Running, at), job, now, pcs, h)) && w < |pcs| && pcs[w] == Storing(At(n), e)
    requires pcs' == pcs[w := Handled(At(n), VerdictOf(e))]
    requires run' == RunRow(PersistedStatus(e.status, e.reason), now).(output := Some(e.output), error := e.error, reason := Some(e.reason))
    ensures Reachable(Sys(run', job, now, pcs', h)) && DoStore(Sys(RunRow(Running, at), job, now, pcs, h), w) == Sys(run', job, now, pcs', h)
  {
    Move(RunRow(Running, at), job, now, pcs, h, Store(w), pcs', run');
  }

  const STEPS_ERROR := "recursion limit reached: max_steps exceeded"

  const STUCK := Execution(Failed, "", Some(STEPS_ERROR), "max_steps")

  const STUCK_VERDICT := Deterministic("max_steps: " + STEPS_ERROR)

  function FailedRun(): Run { RunRow(Failed, 0).(output := Some(""), error := Some(STEPS_ERROR), reason := Some("max_steps")) }

  lemma StuckVerdict()
    ensures VerdictOf(STUCK) == STUCK_VERDICT && PersistedStatus(Failed, "max_steps") == Failed
  {
    assert "max_steps"[0] != "error"[0] && |"max_steps"| != |"model_error:recoverable"|;
    assert "max_steps" + ": " + STEPS_ERROR == "max_steps: " + STEPS_ERROR;
  }

  /** Worker 0, alone and undisturbed, enters the graph. */
  lemma AloneInGraph(h: seq<Hold>)
    requires h == [Hold(0, 0, 60, Held, 1)]
    ensures Reachable(Sys(RunRow(Running, 0), Row(JobRunning, Some(0), Some(0), 1), 0, [BeforeNode(At(1)), Idle, Idle], h))
  {
    var h1 := [Hold(0, 0, 60, Held, 0)];
    var job := Row(JobRunning, Some(0), Some(0), 1);
    Setup();
    Take(RunRow(Queued, 0), NewJob(0, 0), 0, [Idle, Idle, Idle], [], 0, job, [MarkRunning(At(1)), Idle, Idle], h1);
    Enter(Queued, 0, job, 0, [MarkRunning(At(1)), Idle, Idle], h1, 0, 1, [BeforeNode(At(1)), Idle, Idle], h);
  }

  /** It runs out of steps and stores that. */
  lemma StuckAttemptStored(h: seq<Hold>)
    requires h == [Hold(0, 0, 60, Held, 1)]
    ensures Reachable(Sys(FailedRun(), Row(JobRunning, Some(0), Some(0), 1), 0, [Handled(At(1), STUCK_VERDICT), Idle, Idle], h))
  {
    var job := Row(JobRunning, Some(0), Some(0), 1);
    AloneInGraph(h);
    End(RunRow(Running, 0), job, 0, [BeforeNode(At(1)), Idle, Idle], h, 0, 1, Raised(RecursionLimit("")), [Storing(At(1), STUCK), Idle, Idle]);
    StuckVerdict();
    Keep(0, job, 0, [Storing(At(1), STUCK), Idle, Idle], h, 0, 1, STUCK, [Handled(At(1), STUCK_VERDICT), Idle, Idle], FailedRun());
  }

  /** The ordinary end of a deterministic failure changes a terminal row: the worker that stored the
      failed attempt, still undisturbed, replaces its error by the one it reports. */
  lemma FailureReportRewritesError()
    ensures exists s :: Reachable(s) && Over(s, 0) && Enabled(s, WriteOutcome(0)) && Replaces(s, WriteOutcome(0), 0)
  {
    var h := [Hold(0, 0, 60, Held, 1)];
    StuckAttemptStored(h);
    var job := Row(JobRunning, Some(0), Some(0), 1);
    var after := job.(status := JobFailed, owner := None, expires := None, error := Some(STUCK_VERDICT.error), finishedAt := Some(0));
    var h' := [Hold(0, 0, 0, Released(0), 1)];
    assert h[0 := Hold(0, 0, 0, Released(0), 1)] == h';
    Resolve(FailedRun(), job, 0, [Handled(At(1), STUCK_VERDICT), Idle, Idle], h, 0, after, [Resolved(At(1), STUCK_VERDICT), Idle, Idle], h');
    var s := Sys(FailedRun(), after, 0, [Resolved(At(1), STUCK_VERDICT), Idle, Idle], h');
    assert |STUCK_VERDICT.error| > |STEPS_ERROR|;
    assert Over(s, 0) && Replaces(s, WriteOutcome(0), 0);
  }

  function Answer(output: string): Execution { Execution(Completed, output, None, "supervisor_final") }

  function CompletedRun(output: string, at: Time): Run {
    RunRow(Completed, at).(output := Some(output), reason := Some("supervisor_final"))
  }

  const DONE := Handled(At(1), Returned(Completed))

  /** Worker 0, alone and undisturbed, completes the run and a second later its job. */
  lemma AloneCompleted(h: seq<Hold>, job: Job)
    requires h == [Hold(0, 0, 1, Released(0), 1)]
    requires job == Row(JobCompleted, None, None, 1).(heartbeat := Some(0), finishedAt := Some(1))
    ensures Reachable(Sys(CompletedRun("done", 0), job, 1, [Resolved(At(1), Returned(Completed)), Idle, Idle], h))
  {
    var h1 := [Hold(0, 0, 60, Held, 1)];
    var held := Row(JobRunning, Some(0), Some(0), 1);
    AloneInGraph(h1);
    End(RunRow(Running, 0), held, 0, [BeforeNode(At(1)), Idle, Idle], h1, 0, 1, Finished("done"), [Storing(At(1), Answer("done")), Idle, Idle]);
    Keep(0, held, 0, [Storing(At(1), Answer("done")), Idle, Idle], h1, 0, 1, Answer("done"), [DONE, Idle, Idle], CompletedRun("done", 0));
    Wait(CompletedRun("done", 0), held, 0, 1, [DONE, Idle, Idle], h1);
    assert h1[0 := Hold(0, 0, 1, Released(0), 1)] == h;
    Resolve(CompletedRun("done", 0), held, 1, [DONE, Idle, Idle], h1, 0, job, [Resolved(At(1), Returned(Completed)), Idle, Idle], h);
  }

  /** Every ordinary success writes its terminal row twice: the worker that stored the completed
      attempt marks the run completed once more, which moves the time of its last update. */
  lemma SuccessWritesRowAgain()
    ensures exists s :: Reachable(s) && Over(s, 0) && s.db.runs[0].status.Completed? && Enabled(s, WriteOutcome(0))
                        && OutcomeWrites(s, WriteOutcome(0), 0) && !Replaces(s, WriteOutcome(0), 0)
                        && Next(s, WriteOutcome(0)).db.runs[0] != s.db.runs[0]
  {
    var h := [Hold(0, 0, 1, Released(0), 1)];
    var job := Row(JobCompleted, None, None, 1).(heartbeat := Some(0), finishedAt := Some(1));
    AloneCompleted(h, job);
    var s := Sys(CompletedRun("done", 0), job, 1, [Resolved(At(1), Returned(Completed)), Idle, Idle], h);
    assert Over(s, 0);
    OutcomeRow(s, 0, 0);
    assert OutcomeWrites(s, WriteOutcome(0), 0) && !Replaces(s, WriteOutcome(0), 0);
  }

  /** Worker 1 has completed the run that worker 0, without its lease, still executes. */
  lemma CompletedByTheOther(h: seq<Hold>)
    requires h == [Hold(0, 0, 60, TakenOver, 1), Hold(1, 61, 121, Held, 1)]
    ensures Reachable(Sys(CompletedRun("first", 61), Row(JobRunning, Some(1), Some(61), 2), 61,
                          [BeforeNode(At(1)), Handled(At(2), Returned(Completed)), Idle], h))
  {
    var h1 := [Hold(0, 0, 60, TakenOver, 1), Hold(1, 61, 121, Held, 0)];
    var job := Row(JobRunning, Some(1), Some(61), 2);
    var late := BeforeNode(At(1));
    Overtaken(h1);
    Enter(Running, 0, job, 61, [late, MarkRunning(At(2)), Idle], h1, 1, 2, [late, BeforeNode(At(2)), Idle], h);
    End(RunRow(Running, 61), job, 61, [late, BeforeNode(At(2)), Idle], h, 1, 2, Finished("first"), [late, Storing(At(2), Answer("first")), Idle]);
    Keep(61, job, 61, [late, Storing(At(2), Answer("first")), Idle], h, 1, 2, Answer("first"), [late, Handled(At(2), Returned(Completed)), Idle],
         CompletedRun("first", 61));
  }

  /** A worker whose lease was taken over replaces the output of a run that the other one completed. */
  lemma LateStoreReplacesOutput()
    ensures exists s :: Reachable(s) && Over(s, 0) && Enabled(s, Store(0)) && Replaces(s, Store(0), 0)
                        && !Owns(s.db, 0, s.workers[0].pc.claim.job)
  {
    var h := [Hold(0, 0, 60, TakenOver, 1), Hold(1, 61, 121, Held, 1)];
    var job := Row(JobRunning, Some(1), Some(61), 2);
    var finished := Handled(At(2), Returned(Completed));
    CompletedByTheOther(h);
    var pcs := [Storing(At(1), Answer("second")), finished, Idle];
    End(CompletedRun("first", 61), job, 61, [BeforeNode(At(1)), finished, Idle], h, 0, 1, Finished("second"), pcs);
    var s := Sys(CompletedRun("first", 61), job, 61, pcs, h);
    assert "first"[0] != "second"[0];
    assert Over(s, 0) && Replaces(s, Store(0), 0);
  }

  // ---- an approval decided too early ----

  ghost function WithApproval(s: System, ap: Approval): System {
    s.(db := s.db.(approvals := map[0 := ap]))
  }

  function Request(status: ApprovalStatus): Approval {
    var x := ActionId(0, "gate", "{}");
    if status.Pending? then Approval(x, 0, "approve", "{}", Pending, Some(3600), None, None)
    else Approval(x, 0, "approve", "{}", status, Some(3600), Some(0), Some("ann"))
  }

  /** The node asks for an approval, and it is granted while the run is still running. */
  lemma DecidedWhileRunning(s: System)
    requires Reachable(s) && s.db.approvals == map[] && s.clock == 0 && s.db.runs.Keys == {0} && s.db.runs[0].status.Running?
    requires PcOf(s, 0) == InNode(At(1)) && 1 !in s.db.jobs
    ensures Reachable(WithApproval(s, Request(Approved)))
  {
    var ask, grant := RequestApproval(0, 0, "gate", "approve", "{}", 3600), Decide(0, true, "ann", 1);
    ReachableStep(s, ask);
    var asked := WithApproval(s, Request(Pending));
    assert Next(s, ask).db.approvals == map[0 := Request(Pending)];
    assert Next(s, ask) == asked;
    ReachableStep(asked, grant);
    assert Next(asked, grant).db.approvals == map[0 := Request(Approved)];
    assert Next(asked, grant) == WithApproval(s, Request(Approved));
  }

  /** Ending the graph, storing and resolving do not look at approvals. */
  lemma EndIgnoresApproval(s: System, ap: Approval, l: Label)
    requires Enabled(s, l) && (l.EndGraph? || l.Store? || l.ResolveJob?)
    requires Reachable(WithApproval(s, ap))
    ensures Reachable(WithApproval(Next(s, l), ap))
  {
    ReachableStep(WithApproval(s, ap), l);
    assert Next(WithApproval(s, ap), l) == WithApproval(Next(s, l), ap);
  }

  function PausedAtOnce(): Run { RunRow(Paused, 0).(output := Some(""), reason := Some("approval_required")) }

  /** Worker 0, alone and undisturbed, is inside the node that asks for the approval. */
  lemma InsideNode(h: seq<Hold>)
    requires h == [Hold(0, 0, 60, Held, 1)]
    ensures Reachable(Sys(RunRow(Running, 0), Row(JobRunning, Some(0), Some(0), 1), 0, [InNode(At(1)), Idle, Idle], h))
  {
    var job, run := Row(JobRunning, Some(0), Some(0), 1), RunRow(Running, 0);
    AloneInGraph(h);
    Move(run, job, 0, [BeforeNode(At(1)), Idle, Idle], h, CheckCancel(0, "gate"), [PassedCheck(At(1)), Idle, Idle], run);
    Move(run, job, 0, [PassedCheck(At(1)), Idle, Idle], h, StartNode(0), [InNode(At(1)), Idle, Idle], run);
  }

  /** The graph then pauses on the approval, and the pause is stored. */
  lemma PausedAfterDecision(h: seq<Hold>)
    requires h == [Hold(0, 0, 60, Held, 1)]
    ensures Reachable(WithApproval(Sys(PausedAtOnce(), Row(JobRunning, Some(0), Some(0), 1), 0,
                                       [Handled(At(1), Returned(Paused)), Idle, Idle], h), Request(Approved)))
  {
    var job, run := Row(JobRunning, Some(0), Some(0), 1), RunRow(Running, 0);
    InsideNode(h);
    var s := Sys(run, job, 0, [InNode(At(1)), Idle, Idle], h);
    DecidedWhileRunning(s);
    var t := Sys(run, job, 0, [Storing(At(1), NEEDS_APPROVAL), Idle, Idle], h);
    Move(run, job, 0, [InNode(At(1)), Idle, Idle], h, EndGraph(0, Interrupted), [Storing(At(1), NEEDS_APPROVAL), Idle, Idle], run);
    EndIgnoresApproval(s, Request(Approved), EndGraph(0, Interrupted));
    Keep(0, job, 0, [Storing(At(1), NEEDS_APPROVAL), Idle, Idle], h, 0, 1, NEEDS_APPROVAL,
         [Handled(At(1), Returned(Paused)), Idle, Idle], PausedAtOnce());
    EndIgnoresApproval(t, Request(Approved), Store(0));
  }

  /** An approval granted before `paused` is stored moves nothing: a reachable run is paused for good
      although its approval was granted. */
  lemma EarlyDecisionAbandonsRun()
    ensures exists s :: Reachable(s) && Abandoned(s, 0) && 0 in s.db.approvals && s.db.approvals[0].run == 0
                        && s.db.approvals[0].status.Approved?
  {
    var h := [Hold(0, 0, 60, Held, 1)];
    PausedAfterDecision(h);
    var job := Row(JobRunning, Some(0), Some(0), 1);
    var after := Row(JobCompleted, None, None, 1).(heartbeat := Some(0), finishedAt := Some(0));
    var pcs := [Handled(At(1), Returned(Paused)), Idle, Idle];
    var h' := [Hold(0, 0, 0, Released(0), 1)];
    assert h[0 := Hold(0, 0, 0, Released(0), 1)] == h';
    PausedResolved(pcs, h, job, after, h');
    var s := WithApproval(Sys(PausedAtOnce(), after, 0, [Idle, Idle, Idle], h'), Request(Approved));
    assert Abandoned(s, 0) by {
      assert forall w :: PcOf(s, w).Idle?;
    }
  }

  lemma PausedResolved(pcs: seq<Pc>, h: seq<Hold>, job: Job, after: Job, h': seq<Hold>)
    requires pcs == [Handled(At(1), Returned(Paused)), Idle, Idle] && h == [Hold(0, 0, 60, Held, 1)]
    requires job == Row(JobRunning, Some(0), Some(0), 1) && h' == h[0 := Hold(0, 0, 0, Released(0), 1)]
    requires after == Row(JobCompleted, None, None, 1).(heartbeat := Some(0), finishedAt := Some(0))
    requires Reachable(WithApproval(Sys(PausedAtOnce(), job, 0, pcs, h), Request(Approved)))
    ensures Reachable(WithApproval(Sys(PausedAtOnce(), after, 0, [Idle, Idle, Idle], h'), Request(Approved)))
  {
    var s := Sys(PausedAtOnce(), job, 0, pcs, h);
    EndIgnoresApproval(s, Request(Approved), ResolveJob(0));
    SysEq(DoResolve(s, 0), PausedAtOnce(), after, 0, [Idle, Idle, Idle], h');
  }
}
