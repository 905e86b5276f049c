/** The run/job protocol as a transition system: any number of workers, the API, one clock.
    A label names one atomic step with every choice it involves, so a run of the system is
    a sequence of labels. */
module Protocol {
  import opened Domain
  import opened Transactions
  import opened Outcomes

  /** The detached job row a claim returns to its worker. */
  datatype Claim = Claim(job: JobId, run: RunId, attempt: nat, maxAttempts: nat)

  datatype Pc =
    | Idle
    | Stopped
    | MarkRunning(claim: Claim)                       // about to write `running`
    | LoadRun(claim: Claim)                           // handler: first read of the run
    | LoadSnapshot(claim: Claim)                      // handler: read before execution
    | BeforeNode(claim: Claim)                        // graph: between two nodes
    | PassedCheck(claim: Claim)                       // graph: cancel check passed, node not started
    | InNode(claim: Claim)                            // graph: node body running
    | Storing(claim: Claim, execution: Execution)     // about to store the attempt's outcome
    | Handled(claim: Claim, verdict: Verdict)         // handler over, job row not yet resolved
    | Resolved(claim: Claim, verdict: Verdict)        // job row resolved, run row not yet written

  predicate Active(pc: Pc) { !pc.Idle? && !pc.Stopped? }

  /** The handler task exists, so the heartbeat loop runs beside it. */
  predicate InHandler(pc: Pc) {
    pc.LoadRun? || pc.LoadSnapshot? || pc.BeforeNode? || pc.PassedCheck? || pc.InNode? || pc.Storing?
  }

  /** The heartbeat loop is still beside the handler: it is stopped only after the handler returned,
      and a handler that has stored its outcome may not have returned yet. */
  predicate Beating(pc: Pc) { InHandler(pc) || pc.Handled? }

  datatype Worker = Worker(pc: Pc, lease: nat, retryDelay: nat)

  datatype Fate =
    | Held
    | Released(worker: WorkerId)
    | TakenOver

  /** History of one claim: who made it, from when, until when it held the row, how it
      ended, and how often its handler was started. */
  datatype Hold = Hold(worker: WorkerId, from: Time, until: Time, fate: Fate, starts: nat)

  /** Tables, clock and workers; `holds` and `resumed` are history: the claims made on each
      job, and the approvals whose decision re-queued a run. */
  datatype System = System(
    db: Tables,
    clock: Time,
    workers: map<WorkerId, Worker>,
    holds: map<JobId, seq<Hold>>,
    resumed: set<ApprovalId>)

  datatype Label =
    | Tick(d: nat)
    | AddWorker(w: WorkerId, lease: nat, retryDelay: nat)
    | CreateRun(r: RunId, j: JobId, input: string)
    | Cancel(r: RunId)
    | Decide(a: ApprovalId, approve: bool, decider: string, j: JobId)
    | TakeJob(w: WorkerId, j: JobId, locked: set<JobId>)
    | WriteRunning(w: WorkerId)
    | ReadRun(w: WorkerId)
    | ReadSnapshot(w: WorkerId)
    | CheckCancel(w: WorkerId, node: string)
    | StartNode(w: WorkerId)
    | EndNode(w: WorkerId)
    | RequestApproval(w: WorkerId, a: ApprovalId, node: string, action: string, arguments: string, expiresIn: nat)
    | EndGraph(w: WorkerId, outcome: Outcome)
    | Store(w: WorkerId)
    | HandlerError(w: WorkerId, error: string)
    | Beat(w: WorkerId)
    | AbortOnLostLease(w: WorkerId)
    | ResolveJob(w: WorkerId)
    | WriteOutcome(w: WorkerId)
    | Escape(w: WorkerId)
    | Crash(w: WorkerId)

  function Init(): System {
    System(Tables(map[], map[], map[]), 0, map[], map[], {})
  }

  function PcOf(s: System, w: WorkerId): Pc {
    if w in s.workers then s.workers[w].pc else Idle
  }

  function SetPc(s: System, w: WorkerId, pc: Pc): System
    requires w in s.workers
  {
    s.(workers := s.workers[w := s.workers[w].(pc := pc)])
  }

  // ---- history ----

  /** The previous claim, if still open, ends when another claim takes the row over. */
  function Superseded(h: seq<Hold>): seq<Hold> {
    if h != [] && h[|h| - 1].fate.Held? then h[|h| - 1 := h[|h| - 1].(fate := TakenOver)] else h
  }

  /** Record what step of worker `w` did to a job row: nothing, a longer lease, or the end of a claim. */
  function Recorded(h: seq<Hold>, before: Job, after: Job, w: WorkerId, now: Time): seq<Hold> {
    if h == [] || before == after then h
    else if before.status.JobRunning? && !after.status.JobRunning? then
      h[|h| - 1 := h[|h| - 1].(fate := Released(w), until := now)]
    else if after.expires.Some? then h[|h| - 1 := h[|h| - 1].(until := after.expires.value)]
    else h
  }

  function RecordJob(s: System, db: Tables, w: WorkerId, j: JobId): System {
    if j in s.db.jobs && j in db.jobs && j in s.holds then
      s.(db := db, holds := s.holds[j := Recorded(s.holds[j], s.db.jobs[j], db.jobs[j], w, s.clock)])
    else s.(db := db)
  }

  function CountStart(h: seq<Hold>, attempt: nat): seq<Hold> {
    if 0 < attempt <= |h| then h[attempt - 1 := h[attempt - 1].(starts := h[attempt - 1].starts + 1)] else h
  }

  // ---- steps ----

  /** The status the worker writes to the run after it resolved the job row; nothing for
      a returned status other than `completed`. */
  function OutcomeWrite(c: Claim, v: Verdict): Option<(RunStatus, Option<string>)> {
    match v
    case Returned(st) => if st.Completed? then Some((Completed, None)) else None
    case Deterministic(e) => Some((Failed, Some(e)))
    case Errored(e) => Some((if c.attempt >= Budget(c.maxAttempts) then Failed else Queued, Some(e)))
  }

  function ResolveTx(db: Tables, w: WorkerId, retryDelay: nat, now: Time, c: Claim, v: Verdict): Tables {
    match v
    case Returned(_) => CompleteTx(db, w, now, c.job)
    case Deterministic(e) => FailWithoutRetryTx(db, w, now, c.job, e)
    case Errored(e) => FailTx(db, w, retryDelay, now, c.job, e)
  }

  ghost predicate Enabled(s: System, l: Label) {
    match l
    case Tick(_) => true
    case AddWorker(w, _, _) => w !in s.workers
    case CreateRun(r, j, _) => r !in s.db.runs && j !in s.db.jobs
    case Cancel(r) => r in s.db.runs && !Terminal(s.db.runs[r].status)
    case Decide(a, _, _, j) => j !in s.db.jobs
    case TakeJob(w, j, locked) =>
      w in s.workers && s.workers[w].pc.Idle? && ClaimChoice(s.db, s.clock, locked, j)
    case WriteRunning(w) => PcOf(s, w).MarkRunning?
    case ReadRun(w) => PcOf(s, w).LoadRun?
    case ReadSnapshot(w) => PcOf(s, w).LoadSnapshot?
    case CheckCancel(w, _) => PcOf(s, w).BeforeNode?
    case StartNode(w) => PcOf(s, w).PassedCheck?
    case EndNode(w) => PcOf(s, w).InNode?
    case RequestApproval(w, a, _, _, _, _) => PcOf(s, w).InNode? && a !in s.db.approvals
    case EndGraph(w, outcome) =>
      (PcOf(s, w).BeforeNode? || PcOf(s, w).InNode?) && !(outcome.Raised? && outcome.failure.RunCancelled?)
    case Store(w) => PcOf(s, w).Storing?
    case HandlerError(w, _) =>
      || PcOf(s, w).MarkRunning?
      || InHandler(PcOf(s, w))
      || ((PcOf(s, w).Handled? || PcOf(s, w).Resolved?) && PcOf(s, w).verdict.Returned?)
    case Beat(w) => Beating(PcOf(s, w)) && CanHeartbeat(s.db, w, PcOf(s, w).claim.job)
    case AbortOnLostLease(w) => Beating(PcOf(s, w)) && !CanHeartbeat(s.db, w, PcOf(s, w).claim.job)
    case ResolveJob(w) => PcOf(s, w).Handled?
    case WriteOutcome(w) => PcOf(s, w).Resolved?
    case Escape(w) => (PcOf(s, w).Handled? || PcOf(s, w).Resolved?) && !PcOf(s, w).verdict.Returned?
    case Crash(w) => w in s.workers
  }

  function DoTakeJob(s: System, w: WorkerId, j: JobId): System
    requires w in s.workers && j in s.db.jobs
  {
    var wk := s.workers[w];
    var db := ClaimTx(s.db, w, wk.lease, s.clock, j);
    var job := db.jobs[j];
    var h := Superseded(if j in s.holds then s.holds[j] else [])
             + [Hold(w, s.clock, s.clock + wk.lease, Held, 0)];
    SetPc(s.(db := db, holds := s.holds[j := h]), w,
          MarkRunning(Claim(j, job.run, job.attempts, job.maxAttempts)))
  }

  /** Mark the run running and start the handler. */
  function DoWriteRunning(s: System, w: WorkerId): System
    requires w in s.workers && s.workers[w].pc.MarkRunning?
  {
    var c := s.workers[w].pc.claim;
    var holds := if c.job in s.holds then s.holds[c.job := CountStart(s.holds[c.job], c.attempt)] else s.holds;
    SetPc(s.(db := SetStatusTx(s.db, s.clock, c.run, Running, None), holds := holds), w, LoadRun(c))
  }

  function DoReadRun(s: System, w: WorkerId): System
    requires w in s.workers && s.workers[w].pc.LoadRun?
  {
    var c := s.workers[w].pc.claim;
    if c.run !in s.db.runs then SetPc(s, w, Handled(c, Errored("run not found")))
    else if Terminal(s.db.runs[c.run].status) then SetPc(s, w, Handled(c, Returned(s.db.runs[c.run].status)))
    else SetPc(s, w, LoadSnapshot(c))
  }

  ghost function DoReadSnapshot(s: System, w: WorkerId): System
    requires w in s.workers && s.workers[w].pc.LoadSnapshot?
  {
    var c := s.workers[w].pc.claim;
    if c.run !in s.db.runs then SetPc(s, w, Handled(c, Errored("run not found")))
    else if s.db.runs[c.run].status.Paused? && !HasDecision(s.db, c.run) then SetPc(s, w, Handled(c, Returned(Paused)))
    else SetPc(s, w, BeforeNode(c))
  }

  /** The exception that the cancel check raises names the node it stops before. */
  function CancelledBefore(node: string): Execution {
    ExecutionOf(Raised(RunCancelled("run cancelled before node " + node)))
  }

  function DoCheckCancel(s: System, w: WorkerId, node: string): System
    requires w in s.workers && s.workers[w].pc.BeforeNode?
  {
    var c := s.workers[w].pc.claim;
    if c.run in s.db.runs && s.db.runs[c.run].status.Cancelled?
    then SetPc(s, w, Storing(c, CancelledBefore(node)))
    else SetPc(s, w, PassedCheck(c))
  }

  function DoStore(s: System, w: WorkerId): System
    requires w in s.workers && s.workers[w].pc.Storing?
  {
    var Storing(c, e) := s.workers[w].pc;
    SetPc(s.(db := UpdateRunTx(s.db, s.clock, c.run, PersistedStatus(e.status, e.reason), e.output, e.error, e.reason)), w,
          Handled(c, VerdictOf(e)))
  }

  function DoBeat(s: System, w: WorkerId): System
    requires w in s.workers && Beating(s.workers[w].pc)
  {
    var j := s.workers[w].pc.claim.job;
    RecordJob(s, HeartbeatTx(s.db, w, s.workers[w].lease, s.clock, j), w, j)
  }

  function DoResolve(s: System, w: WorkerId): System
    requires w in s.workers && s.workers[w].pc.Handled?
  {
    var Handled(c, v) := s.workers[w].pc;
    var s1 := RecordJob(s, ResolveTx(s.db, w, s.workers[w].retryDelay, s.clock, c, v), w, c.job);
    SetPc(s1, w, if OutcomeWrite(c, v).Some? then Resolved(c, v) else Idle)
  }

  function DoWriteOutcome(s: System, w: WorkerId): System
    requires w in s.workers && s.workers[w].pc.Resolved?
  {
    var Resolved(c, v) := s.workers[w].pc;
    var s1 := match OutcomeWrite(c, v)
      case None => s
      case Some((status, error)) => s.(db := SetStatusTx(s.db, s.clock, c.run, status, error));
    SetPc(s1, w, Idle)
  }

  function DoDecide(s: System, a: ApprovalId, approve: bool, decider: string, j: JobId): System {
    var db := DecideTx(s.db, a, approve, decider, s.clock, j);
    if Resumes(s.db, a, s.clock)
    then s.(db := db, holds := s.holds[j := []], resumed := s.resumed + {a})
    else s.(db := db)
  }

  ghost function Next(s: System, l: Label): System
    requires Enabled(s, l)
  {
    match l
    case Tick(d) => s.(clock := s.clock + d)
    case AddWorker(w, lease, retryDelay) => s.(workers := s.workers[w := Worker(Idle, lease, retryDelay)])
    case CreateRun(r, j, input) => s.(db := CreateRunTx(s.db, r, j, input, s.clock), holds := s.holds[j := []])
    case Cancel(r) => s.(db := CancelTx(s.db, s.clock, r))
    case Decide(a, approve, decider, j) => DoDecide(s, a, approve, decider, j)
    case TakeJob(w, j, _) => DoTakeJob(s, w, j)
    case WriteRunning(w) => DoWriteRunning(s, w)
    case ReadRun(w) => DoReadRun(s, w)
    case ReadSnapshot(w) => DoReadSnapshot(s, w)
    case CheckCancel(w, node) => DoCheckCancel(s, w, node)
    case StartNode(w) => SetPc(s, w, InNode(s.workers[w].pc.claim))
    case EndNode(w) => SetPc(s, w, BeforeNode(s.workers[w].pc.claim))
    case RequestApproval(w, a, node, action, arguments, expiresIn) =>
      var c := s.workers[w].pc.claim;
      s.(db := CreatePendingTx(s.db, a, ActionId(c.run, node, arguments), action, s.clock + expiresIn))
    case EndGraph(w, outcome) => SetPc(s, w, Storing(s.workers[w].pc.claim, ExecutionOf(outcome)))
    case Store(w) => DoStore(s, w)
    case HandlerError(w, error) => SetPc(s, w, Handled(s.workers[w].pc.claim, Errored(error)))
    case Beat(w) => DoBeat(s, w)
    case AbortOnLostLease(w) => SetPc(s, w, Idle)
    case ResolveJob(w) => DoResolve(s, w)
    case WriteOutcome(w) => DoWriteOutcome(s, w)
    case Escape(w) => SetPc(s, w, Idle)
    case Crash(w) => SetPc(s, w, Stopped)
  }

  ghost predicate Legal(s: System, ls: seq<Label>)
    decreases |ls|
  {
    ls == [] || (Enabled(s, ls[0]) && Legal(Next(s, ls[0]), ls[1..]))
  }

  ghost function Exec(s: System, ls: seq<Label>): System
    requires Legal(s, ls)
    decreases |ls|
  {
    if ls == [] then s else Exec(Next(s, ls[0]), ls[1..])
  }

  /** Adding one step at the front of a run. */
  lemma ExecCons(s: System, l: Label, ls: seq<Label>)
    requires Enabled(s, l) && Legal(Next(s, l), ls)
    ensures Legal(s, [l] + ls) && Exec(s, [l] + ls) == Exec(Next(s, l), ls)
  {
    assert ([l] + ls)[1..] == ls;
  }
}
