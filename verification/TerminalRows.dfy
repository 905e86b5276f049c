/** What can still happen to a run's row once its status is terminal: one step, and all steps. */
module TerminalRows {
  import opened Domain
  import opened Outcomes
  import opened Protocol
  import opened Fencing
  import Stranding

  ghost predicate Over(s: System, r: RunId) {
    r in s.db.runs && Terminal(s.db.runs[r].status)
  }

  /** Worker `l.w` stores an attempt of run `r` under the run's own terminal status: the UPDATE's
      guard lets it through. */
  ghost predicate StoreWrites(s: System, l: Label, r: RunId)
    requires Enabled(s, l) && r in s.db.runs
  {
    l.Store? && s.workers[l.w].pc.claim.run == r
    && var e := s.workers[l.w].pc.execution;
       PersistedStatus(e.status, e.reason) == s.db.runs[r].status
  }

  /** Worker `l.w` writes the run's own terminal status after resolving its job. */
  ghost predicate OutcomeWrites(s: System, l: Label, r: RunId)
    requires Enabled(s, l) && r in s.db.runs
  {
    l.WriteOutcome? && s.workers[l.w].pc.claim.run == r
    && var o := OutcomeWrite(s.workers[l.w].pc.claim, s.workers[l.w].pc.verdict);
       o.Some? && o.value.0 == s.db.runs[r].status
  }

  /** The row after the attempt `e` was stored, and after the error `error` was written. */
  function Stored(row: Run, e: Execution, now: Time): Run {
    row.(output := Some(e.output), error := e.error, reason := Some(e.reason), updated := now)
  }

  /** A terminal row is written exactly by these two steps; it then takes that worker's values and the
      time, and nothing else of it changes. Every other step leaves it alone. */
  lemma TerminalRowWrittenExactly(s: System, l: Label, r: RunId)
    requires Enabled(s, l) && Over(s, r)
    ensures r in Next(s, l).db.runs
    ensures StoreWrites(s, l, r) ==> Next(s, l).db.runs[r] == Stored(s.db.runs[r], s.workers[l.w].pc.execution, s.clock)
    ensures OutcomeWrites(s, l, r) ==>
              var o := OutcomeWrite(s.workers[l.w].pc.claim, s.workers[l.w].pc.verdict);
              Next(s, l).db.runs[r] == s.db.runs[r].(error := o.value.1, updated := s.clock)
    ensures !StoreWrites(s, l, r) && !OutcomeWrites(s, l, r) ==> Next(s, l).db.runs[r] == s.db.runs[r]
  {
    if l.Store? {
      StoreRow(s, l.w, r);
    } else if l.WriteOutcome? {
      OutcomeRow(s, l.w, r);
    } else {
      OtherRow(s, l, r);
    }
  }

  /** What a client reads as the result: the row without the time of its last write. */
  function Values(row: Run): Run {
    row.(updated := 0)
  }

  /** The step replaces output, error or reason of the row by other values. */
  ghost predicate Replaces(s: System, l: Label, r: RunId)
    requires Enabled(s, l) && r in s.db.runs
  {
    || (StoreWrites(s, l, r) && Differs(s.db.runs[r], s.workers[l.w].pc.execution))
    || (OutcomeWrites(s, l, r)
        && s.db.runs[r].error != OutcomeWrite(s.workers[l.w].pc.claim, s.workers[l.w].pc.verdict).value.1)
  }

  /** Output, error and reason change exactly when such a write brings other ones. */
  lemma ValuesChangeExactly(s: System, l: Label, r: RunId)
    requires Enabled(s, l) && Over(s, r)
    ensures r in Next(s, l).db.runs
    ensures Values(Next(s, l).db.runs[r]) != Values(s.db.runs[r]) <==> Replaces(s, l, r)
  {
    TerminalRowWrittenExactly(s, l, r);
  }

  lemma StoreRow(s: System, w: WorkerId, r: RunId)
    requires Enabled(s, Store(w)) && Over(s, r)
    ensures var t := DoStore(s, w); var row := s.db.runs[r];
            && r in t.db.runs
            && t.db.runs[r] == if StoreWrites(s, Store(w), r) then Stored(row, s.workers[w].pc.execution, s.clock) else row
  {
  }

  lemma OutcomeRow(s: System, w: WorkerId, r: RunId)
    requires Enabled(s, WriteOutcome(w)) && Over(s, r)
    ensures var t := DoWriteOutcome(s, w); var row := s.db.runs[r];
            var o := OutcomeWrite(s.workers[w].pc.claim, s.workers[w].pc.verdict);
            && r in t.db.runs
            && t.db.runs[r] ==
                 if OutcomeWrites(s, WriteOutcome(w), r) then row.(error := o.value.1, updated := s.clock) else row
  {
  }

  /** The other steps leave a terminal row alone. */
  lemma OtherRow(s: System, l: Label, r: RunId)
    requires Enabled(s, l) && Over(s, r) && !l.Store? && !l.WriteOutcome?
    ensures r in Next(s, l).db.runs && Next(s, l).db.runs[r] == s.db.runs[r]
  {
    if Local(l) {
      LocalRow(s, l);
    } else {
      RemainingRow(s, l, r);
    }
  }

  lemma LocalRow(s: System, l: Label)
    requires Enabled(s, l) && Local(l) && !l.Store? && !l.WriteOutcome?
    ensures Next(s, l).db == s.db
  {
  }

  lemma RemainingRow(s: System, l: Label, r: RunId)
    requires Enabled(s, l) && Over(s, r) && !Local(l)
    ensures r in Next(s, l).db.runs && Next(s, l).db.runs[r] == s.db.runs[r]
  {
  }

  // ---- every continuation ----

  predicate Exhausted(c: Claim) {
    c.attempt >= Budget(c.maxAttempts)
  }

  predicate Differs(row: Run, e: Execution) {
    row.output != Some(e.output) || row.error != e.error || row.reason != Some(e.reason)
  }

  /** From here a worker can still come to write this terminal row; with `values`, to write other
      values over it. */
  predicate Threatens(row: Run, pc: Pc, values: bool) {
    match pc
    case Idle => false
    case Stopped => false
    case MarkRunning(c) => StartThreatens(row, c, values)
    case LoadRun(c) => StartThreatens(row, c, values)
    case LoadSnapshot(_) => true
    case BeforeNode(_) => true
    case PassedCheck(_) => true
    case InNode(_) => true
    case Storing(c, e) =>
      (match row.status
       case Completed => e.status.Completed? && (!values || Differs(row, e) || row.error.Some?)
       case Failed => Exhausted(c) || PersistedStatus(e.status, e.reason).Failed?
       case _ => e.status.Cancelled? && (!values || Differs(row, e)))
    case Handled(c, v) => VerdictThreatens(row, c, v, values)
    case Resolved(c, v) => VerdictThreatens(row, c, v, values)
  }

  /** A handler that only finds the run over: a completed run is marked completed once more, which
      clears its error; on its last attempt it may still fail, and mark a failed run failed. */
  predicate StartThreatens(row: Run, c: Claim, values: bool) {
    || (row.status.Completed? && (!values || row.error.Some?))
    || (row.status.Failed? && Exhausted(c))
  }

  /** After the handler. */
  predicate VerdictThreatens(row: Run, c: Claim, v: Verdict, values: bool) {
    match row.status
    case Completed => v == Returned(Completed) && (!values || row.error.Some?)
    case Failed =>
      (match v
       case Returned(_) => Exhausted(c)
       case Deterministic(m) => !values || row.error != Some(m)
       case Errored(m) => Exhausted(c) && (!values || row.error != Some(m)))
    case _ => false
  }

  ghost predicate Threat(s: System, w: WorkerId, r: RunId, values: bool) {
    && r in s.db.runs
    && Active(PcOf(s, w)) && PcOf(s, w).claim.run == r
    && Threatens(s.db.runs[r], PcOf(s, w), values)
  }

  ghost predicate Safe(s: System, r: RunId, values: bool) {
    Over(s, r) && forall w :: !Threat(s, w, r, values)
  }

  /** The row is the same, up to the time of its last write if only values count. */
  predicate Same(a: Run, b: Run, values: bool) {
    if values then Values(a) == Values(b) else a == b
  }

  lemma SafeRowStays(s: System, l: Label, r: RunId, values: bool)
    requires Enabled(s, l) && Safe(s, r, values)
    ensures r in Next(s, l).db.runs && Same(Next(s, l).db.runs[r], s.db.runs[r], values)
  {
    TerminalRowWrittenExactly(s, l, r);
    if l.Store? || l.WriteOutcome? {
      assert !Threat(s, l.w, r, values);
    }
  }

  lemma ActorStaysSafe(s: System, l: Label, r: RunId, values: bool)
    requires Enabled(s, l) && Safe(s, r, values) && Local(l)
    requires r in Next(s, l).db.runs && Same(Next(s, l).db.runs[r], s.db.runs[r], values)
    ensures !Threat(Next(s, l), l.w, r, values)
  {
    assert !Threat(s, l.w, r, values);
    LocalStepShape(s, l);
    SameThreatens(Next(s, l).db.runs[r], s.db.runs[r], PcOf(Next(s, l), l.w), values);
    if Active(PcOf(s, l.w)) && PcOf(s, l.w).claim.run == r {
      if l.Store? {
        StoredIsSafe(s, l.w, r, values);
      } else if l.ReadRun? {
        ReadIsSafe(s, l.w, r, values);
      } else {
        QuietIsSafe(s, l, r, values);
      }
    }
  }

  lemma QuietIsSafe(s: System, l: Label, r: RunId, values: bool)
    requires Enabled(s, l) && Over(s, r) && Local(l) && !l.Store? && !l.ReadRun?
    requires Active(s.workers[l.w].pc) && s.workers[l.w].pc.claim.run == r
    requires !Threatens(s.db.runs[r], s.workers[l.w].pc, values)
    ensures l.w in Next(s, l).workers && !Threatens(s.db.runs[r], PcOf(Next(s, l), l.w), values)
  {
  }

  /** The time of the last write does not matter to what can happen. */
  lemma SameThreatens(a: Run, b: Run, pc: Pc, values: bool)
    requires Same(a, b, values)
    ensures Threatens(a, pc, values) <==> Threatens(b, pc, values)
  {
  }

  lemma StoredIsSafe(s: System, w: WorkerId, r: RunId, values: bool)
    requires Enabled(s, Store(w)) && Over(s, r) && s.workers[w].pc.claim.run == r
    requires !Threatens(s.db.runs[r], s.workers[w].pc, values)
    ensures !Threatens(s.db.runs[r], DoStore(s, w).workers[w].pc, values)
  {
  }

  lemma ReadIsSafe(s: System, w: WorkerId, r: RunId, values: bool)
    requires Enabled(s, ReadRun(w)) && Over(s, r) && s.workers[w].pc.claim.run == r
    requires !Threatens(s.db.runs[r], s.workers[w].pc, values)
    ensures !Threatens(s.db.runs[r], DoReadRun(s, w).workers[w].pc, values)
  {
  }

  lemma OtherActorStaysSafe(s: System, l: Label, r: RunId, values: bool)
    requires Enabled(s, l) && Safe(s, r, values) && (l.TakeJob? || l.WriteRunning? || l.ResolveJob? || l.AddWorker?)
    requires r in Next(s, l).db.runs && Next(s, l).db.runs[r] == s.db.runs[r]
    ensures !Threat(Next(s, l), l.w, r, values)
  {
    assert !Threat(s, l.w, r, values);
  }

  lemma StepStaysSafe(s: System, l: Label, r: RunId, values: bool)
    requires Enabled(s, l) && Safe(s, r, values)
    ensures Safe(Next(s, l), r, values) && Same(Next(s, l).db.runs[r], s.db.runs[r], values)
  {
    SafeRowStays(s, l, r, values);
    forall w
      ensures !Threat(Next(s, l), w, r, values)
    {
      if Local(l) && l.w == w {
        ActorStaysSafe(s, l, r, values);
      } else if (l.TakeJob? || l.WriteRunning? || l.ResolveJob? || l.AddWorker?) && l.w == w {
        OtherRow(s, l, r);
        OtherActorStaysSafe(s, l, r, values);
      } else {
        assert !Threat(s, w, r, values);
        PcKept(s, l, w);
        SameThreatens(Next(s, l).db.runs[r], s.db.runs[r], PcOf(s, w), values);
      }
    }
  }

  lemma PcKept(s: System, l: Label, w: WorkerId)
    requires Enabled(s, l)
    requires !((Local(l) || l.TakeJob? || l.WriteRunning? || l.ResolveJob? || l.AddWorker?) && l.w == w)
    ensures PcOf(Next(s, l), w) == PcOf(s, w)
  {
    if w in s.workers {
      Stranding.OthersKeepPc(s, l, w);
    } else {
      NoOtherWorkerAdded(s, l, w);
    }
  }

  lemma NoOtherWorkerAdded(s: System, l: Label, w: WorkerId)
    requires Enabled(s, l) && w !in s.workers && !(l.AddWorker? && l.w == w)
    ensures w !in Next(s, l).workers
  {
  }

  lemma {:induction false} SafeForever(s: System, ls: seq<Label>, r: RunId, values: bool)
    requires Legal(s, ls) && Safe(s, r, values)
    ensures r in Exec(s, ls).db.runs && Same(Exec(s, ls).db.runs[r], s.db.runs[r], values)
    decreases |ls|
  {
    if ls != [] {
      StepStaysSafe(s, ls[0], r, values);
      SafeForever(Next(s, ls[0]), ls[1..], r, values);
    }
  }

  // ---- a threat can be carried out ----

  /** Steps that a threatening worker is away from its write, at most. */
  function Rank(row: Run, pc: Pc): nat {
    match pc
    case Resolved(_, v) => if v.Returned? && row.status.Failed? then 3 else 1
    case Handled(_, v) => if v.Returned? && row.status.Failed? then 3 else 2
    case Storing(_, _) => 4
    case BeforeNode(_) => 5
    case InNode(_) => 6
    case PassedCheck(_) => 7
    case LoadSnapshot(_) => 8
    case LoadRun(_) => 9
    case MarkRunning(_) => 10
    case _ => 0
  }

  /** The step writes the row; with `values`, other values. */
  ghost predicate Hits(s: System, l: Label, r: RunId, values: bool)
    requires Enabled(s, l) && r in s.db.runs
  {
    if values then Replaces(s, l, r) else StoreWrites(s, l, r) || OutcomeWrites(s, l, r)
  }

  /** The step hits the row, or leaves it the same, takes no time and brings worker `w` closer. */
  ghost predicate Advances(s: System, l: Label, w: WorkerId, r: RunId, values: bool)
    requires Enabled(s, l) && r in s.db.runs
  {
    var t := Next(s, l);
    && r in t.db.runs
    && (|| Hits(s, l, r, values)
        || (&& Same(t.db.runs[r], s.db.runs[r], values) && t.clock == s.clock
            && Threat(t, w, r, values) && Rank(s.db.runs[r], PcOf(t, w)) < Rank(s.db.runs[r], PcOf(s, w))))
  }

  /** An error text that the row does not hold. */
  function OtherText(o: Option<string>): (m: string)
    ensures o != Some(m)
  {
    if o.Some? then
      assert |o.value + "!"| != |o.value|;
      o.value + "!"
    else ""
  }

  /** On its last attempt, a worker that runs into an unexpected exception will report it. */
  lemma FaultAdvances(s: System, w: WorkerId, r: RunId, values: bool) returns (l: Label)
    requires Over(s, r) && Threat(s, w, r, values) && s.db.runs[r].status.Failed? && Exhausted(PcOf(s, w).claim)
    requires var pc := PcOf(s, w);
             pc.MarkRunning? || pc.LoadRun? || pc.Storing? || ((pc.Handled? || pc.Resolved?) && pc.verdict.Returned?)
    ensures Enabled(s, l) && Advances(s, l, w, r, values)
  {
    l := HandlerError(w, OtherText(s.db.runs[r].error));
    LocalStepShape(s, l);
    OtherRow(s, l, r);
  }

  lemma StartAdvances(s: System, w: WorkerId, r: RunId, values: bool) returns (l: Label)
    requires Over(s, r) && Threat(s, w, r, values)
    requires var pc := PcOf(s, w);
             pc.MarkRunning? || pc.LoadRun? || pc.LoadSnapshot? || pc.PassedCheck? || pc.InNode?
    ensures Enabled(s, l) && Advances(s, l, w, r, values)
  {
    var pc := PcOf(s, w);
    if (pc.MarkRunning? || pc.LoadRun?) && s.db.runs[r].status.Failed? {
      l := FaultAdvances(s, w, r, values);
    } else {
      l := match pc
        case MarkRunning(_) => WriteRunning(w)
        case LoadRun(_) => ReadRun(w)
        case LoadSnapshot(_) => ReadSnapshot(w)
        case PassedCheck(_) => StartNode(w)
        case _ => EndNode(w);
      OtherRow(s, l, r);
    }
  }

  /** What the graph may end with so that the stored outcome is of the given status, and new. */
  function NewOutcome(row: Run): Outcome {
    if row.status.Completed? then Finished(OtherText(row.output))
    else Raised(ModelCall(ProviderError, false, ""))
  }

  lemma GraphAdvances(s: System, w: WorkerId, r: RunId, values: bool) returns (l: Label)
    requires Over(s, r) && Threat(s, w, r, values) && PcOf(s, w).BeforeNode?
    ensures Enabled(s, l) && Advances(s, l, w, r, values)
  {
    var row := s.db.runs[r];
    if row.status.Cancelled? {
      var node := CancelNode(row);
      l := CheckCancel(w, node);
    } else {
      l := EndGraph(w, NewOutcome(row));
      NotRetried();
    }
    OtherRow(s, l, r);
  }

  lemma NotRetried()
    ensures !Retryable("model_error")
  {
    assert |"model_error"| == 11 && |"error"| == 5 && |"model_error:recoverable"| == 23;
  }

  /** A node whose name the row's error does not mention. */
  lemma CancelNode(row: Run) returns (node: string)
    ensures Differs(row, CancelledBefore(node))
  {
    node := if row.error.Some? then row.error.value else "";
    assert |CancelledBefore(node).error.value| > |node|;
  }

  lemma StoringAdvances(s: System, w: WorkerId, r: RunId, values: bool) returns (l: Label)
    requires Over(s, r) && Threat(s, w, r, values) && PcOf(s, w).Storing?
    ensures Enabled(s, l) && Advances(s, l, w, r, values)
  {
    var row := s.db.runs[r];
    var Storing(c, e) := PcOf(s, w);
    if row.status.Failed? && Exhausted(c) {
      l := FaultAdvances(s, w, r, values);
    } else {
      l := Store(w);
      StoreRow(s, w, r);
      if row.status.Failed? {
        ReportDiffers(e);
      }
    }
  }

  /** The error that the worker reports for a deterministic failure is never the one stored before. */
  lemma ReportDiffers(e: Execution)
    requires PersistedStatus(e.status, e.reason).Failed?
    ensures VerdictOf(e).Deterministic? && e.error != Some(VerdictOf(e).error)
  {
    var m := VerdictOf(e).error;
    if e.error.Some? && e.error.value != "" {
      assert m == e.reason + ": " + e.error.value;
    } else {
      assert m == e.reason + ": " + "deterministic failure";
    }
  }

  lemma VerdictAdvances(s: System, w: WorkerId, r: RunId, values: bool) returns (l: Label)
    requires Over(s, r) && Threat(s, w, r, values) && (PcOf(s, w).Handled? || PcOf(s, w).Resolved?)
    ensures Enabled(s, l) && Advances(s, l, w, r, values)
  {
    if PcOf(s, w).verdict.Returned? && s.db.runs[r].status.Failed? {
      l := FaultAdvances(s, w, r, values);
    } else if PcOf(s, w).Handled? {
      l := ResolveJob(w);
      OtherRow(s, l, r);
    } else {
      l := WriteOutcome(w);
      OutcomeRow(s, w, r);
    }
  }

  lemma ThreatAdvances(s: System, w: WorkerId, r: RunId, values: bool) returns (l: Label)
    requires Over(s, r) && Threat(s, w, r, values)
    ensures Enabled(s, l) && Advances(s, l, w, r, values)
  {
    var pc := PcOf(s, w);
    if pc.Handled? || pc.Resolved? {
      l := VerdictAdvances(s, w, r, values);
    } else if pc.Storing? {
      l := StoringAdvances(s, w, r, values);
    } else if pc.BeforeNode? {
      l := GraphAdvances(s, w, r, values);
    } else {
      l := StartAdvances(s, w, r, values);
    }
  }

  /** A hit changes the row: its values, or at least the time of its last write. */
  lemma HitChanges(s: System, l: Label, r: RunId, values: bool)
    requires Enabled(s, l) && Over(s, r) && Hits(s, l, r, values) && (!values ==> s.clock != s.db.runs[r].updated)
    ensures r in Next(s, l).db.runs && !Same(Next(s, l).db.runs[r], s.db.runs[r], values)
  {
    TerminalRowWrittenExactly(s, l, r);
  }

  lemma {:induction false} ThreatCarriedOut(s: System, w: WorkerId, r: RunId, values: bool) returns (ls: seq<Label>)
    requires Over(s, r) && Threat(s, w, r, values) && (!values ==> s.clock != s.db.runs[r].updated)
    ensures Legal(s, ls) && r in Exec(s, ls).db.runs && !Same(Exec(s, ls).db.runs[r], s.db.runs[r], values)
    decreases Rank(s.db.runs[r], PcOf(s, w))
  {
    var l := ThreatAdvances(s, w, r, values);
    if Hits(s, l, r, values) {
      HitChanges(s, l, r, values);
      ExecCons(s, l, []);
      ls := [l] + [];
    } else {
      var more := ThreatCarriedOut(Next(s, l), w, r, values);
      ExecCons(s, l, more);
      ls := [l] + more;
    }
  }

  /** Waiting makes sure that the next write changes the time. */
  lemma ThreatAfterWaiting(s: System, w: WorkerId, r: RunId) returns (ls: seq<Label>)
    requires Over(s, r) && Threat(s, w, r, false)
    ensures Legal(s, ls) && r in Exec(s, ls).db.runs && Exec(s, ls).db.runs[r] != s.db.runs[r]
  {
    var wait := Tick(if s.clock < s.db.runs[r].updated then 0 else 1);
    var more := ThreatCarriedOut(Next(s, wait), w, r, false);
    ExecCons(s, wait, more);
    ls := [wait] + more;
  }

  /** A terminal row is the same in every continuation exactly when no busy worker can still come to
      write the run's terminal status once more. */
  lemma FrozenExactly(s: System, r: RunId)
    requires Over(s, r)
    ensures (forall ls :: Legal(s, ls) ==> r in Exec(s, ls).db.runs && Exec(s, ls).db.runs[r] == s.db.runs[r])
            <==> forall w :: !Threat(s, w, r, false)
  {
    if w :| Threat(s, w, r, false) {
      var ls := ThreatAfterWaiting(s, w, r);
      assert Legal(s, ls);
    } else {
      forall ls | Legal(s, ls)
        ensures r in Exec(s, ls).db.runs && Exec(s, ls).db.runs[r] == s.db.runs[r]
      {
        SafeForever(s, ls, r, false);
      }
    }
  }

  /** And its output, error and reason are the same in every continuation exactly when no busy worker
      can still come to write other ones. */
  lemma ValuesFrozenExactly(s: System, r: RunId)
    requires Over(s, r)
    ensures (forall ls :: Legal(s, ls) ==> r in Exec(s, ls).db.runs && Values(Exec(s, ls).db.runs[r]) == Values(s.db.runs[r]))
            <==> forall w :: !Threat(s, w, r, true)
  {
    if w :| Threat(s, w, r, true) {
      var ls := ThreatCarriedOut(s, w, r, true);
      assert Legal(s, ls);
    } else {
      forall ls | Legal(s, ls)
        ensures r in Exec(s, ls).db.runs && Values(Exec(s, ls).db.runs[r]) == Values(s.db.runs[r])
      {
        SafeForever(s, ls, r, true);
      }
    }
  }

  /** In particular nothing writes it any more once no busy worker holds a claim of the run. */
  lemma IdleRunFrozen(s: System, ls: seq<Label>, r: RunId)
    requires Over(s, r) && Legal(s, ls)
    requires forall w :: Active(PcOf(s, w)) ==> PcOf(s, w).claim.run != r
    ensures r in Exec(s, ls).db.runs && Exec(s, ls).db.runs[r] == s.db.runs[r]
  {
    assert Safe(s, r, false);
    SafeForever(s, ls, r, false);
  }
}
