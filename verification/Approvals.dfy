/** Approvals: one row per action id, decided at most once, and one extra job per decision
    that found its run paused. */
module Approvals {
  import opened Domain
  import opened Transactions
  import opened Protocol
  import opened Fencing
  import opened Leases
  import opened Absorption

  ghost function JobsOf(s: System, r: RunId): set<JobId> {
    set j | j in s.db.jobs && s.db.jobs[j].run == r
  }

  /** The approvals of run `r` whose decision found the run paused. */
  ghost function ResumedOf(s: System, r: RunId): set<ApprovalId> {
    set a | a in s.resumed && a in s.db.approvals && s.db.approvals[a].run == r
  }

  predicate Decided(status: ApprovalStatus) { !status.Pending? }

  ghost predicate OneRowPerAction(db: Tables) {
    forall a, b ::
      (a in db.approvals && b in db.approvals && db.approvals[a].actionId == db.approvals[b].actionId) ==> a == b
  }

  ghost predicate RowsOk(s: System) {
    && (forall a :: a in s.db.approvals ==>
          && s.db.approvals[a].run in s.db.runs
          && s.db.approvals[a].run == s.db.approvals[a].actionId.run
          && s.db.approvals[a].arguments == s.db.approvals[a].actionId.arguments)
    && OneRowPerAction(s.db)
    && (forall a :: a in s.resumed ==>
          a in s.db.approvals && (s.db.approvals[a].status.Approved? || s.db.approvals[a].status.Rejected?))
  }

  ghost predicate CountsOk(s: System) {
    forall r :: r in s.db.runs ==> |JobsOf(s, r)| == 1 + |ResumedOf(s, r)|
  }

  ghost predicate ApprovalInv(s: System) {
    Inv(s) && RowsOk(s) && CountsOk(s)
  }

  // ---- what one step may do to an approval row ----

  /** What the first request fixed stays fixed, and a decided row stays as it is. */
  lemma ApprovalStep(s: System, l: Label, a: ApprovalId)
    requires Enabled(s, l) && a in s.db.approvals
    ensures var t := Next(s, l);
            && a in t.db.approvals
            && var x := s.db.approvals[a]; var y := t.db.approvals[a];
            && y.actionId == x.actionId && y.run == x.run && y.action == x.action
            && y.arguments == x.arguments && y.expiresAt == x.expiresAt
            && (Decided(x.status) ==> y == x)
            && (y != x ==> l.Decide? && l.a == a)
  {
    if Local(l) {
      LocalStepShape(s, l);
    } else if l.ResolveJob? {
      assert Next(s, l).db.approvals == s.db.approvals;
    } else if l.Decide? {
      DecideRow(s, l.a, l.approve, l.decider, l.j, a);
    }
  }

  lemma DecideRow(s: System, d: ApprovalId, approve: bool, decider: string, j: JobId, a: ApprovalId)
    requires a in s.db.approvals
    ensures var t := DoDecide(s, d, approve, decider, j);
            && a in t.db.approvals
            && var x := s.db.approvals[a]; var y := t.db.approvals[a];
            && y.actionId == x.actionId && y.run == x.run && y.action == x.action
            && y.arguments == x.arguments && y.expiresAt == x.expiresAt
            && (Decided(x.status) ==> y == x)
            && (y != x ==> d == a)
  {
  }

  /** A replayed request for an action that already has a row adds nothing, whatever it asks for. */
  lemma ReplayAddsNothing(s: System, w: WorkerId, a: ApprovalId, node: string, action: string, arguments: string, expiresIn: nat)
    requires Inv(s) && Enabled(s, RequestApproval(w, a, node, action, arguments, expiresIn))
    requires HasAction(s.db, ActionId(s.workers[w].pc.claim.run, node, arguments))
    ensures Next(s, RequestApproval(w, a, node, action, arguments, expiresIn)) == s
  {
  }

  lemma ApprovalsUntouched(s: System, l: Label)
    requires Enabled(s, l) && !l.Decide? && !l.RequestApproval?
    ensures Next(s, l).db.approvals == s.db.approvals && Next(s, l).resumed == s.resumed
  {
    if Local(l) {
      LocalStepShape(s, l);
    }
  }

  lemma RequestKeepsRows(s: System, l: Label)
    requires Inv(s) && RowsOk(s) && l.RequestApproval? && Enabled(s, l)
    ensures RowsOk(Next(s, l))
  {
    assert WorkerOk(s, l.w);
    assert JobOk(s, s.workers[l.w].pc.claim.job);
  }

  lemma DecideShape(s: System, l: Label)
    requires l.Decide? && Enabled(s, l)
    ensures var t := Next(s, l);
            && t.db.approvals.Keys == s.db.approvals.Keys
            && t.db.runs.Keys == s.db.runs.Keys
            && (t.resumed == s.resumed || t.resumed == s.resumed + {l.a})
            && (l.a in t.resumed && l.a !in s.resumed ==>
                  l.a in t.db.approvals && (t.db.approvals[l.a].status.Approved? || t.db.approvals[l.a].status.Rejected?))
  {
  }

  lemma DecideKeepsRows(s: System, l: Label)
    requires RowsOk(s) && l.Decide? && Enabled(s, l)
    ensures RowsOk(Next(s, l))
  {
    DecideShape(s, l);
    var t := Next(s, l);
    forall a | a in s.db.approvals
      ensures a in t.db.approvals
      ensures t.db.approvals[a].actionId == s.db.approvals[a].actionId && t.db.approvals[a].run == s.db.approvals[a].run
      ensures t.db.approvals[a].arguments == s.db.approvals[a].arguments
      ensures Decided(s.db.approvals[a].status) ==> t.db.approvals[a] == s.db.approvals[a]
    {
      ApprovalStep(s, l, a);
    }
  }

  lemma StepKeepsRows(s: System, l: Label)
    requires Inv(s) && RowsOk(s) && Enabled(s, l)
    ensures RowsOk(Next(s, l))
  {
    if l.RequestApproval? {
      RequestKeepsRows(s, l);
    } else if l.Decide? {
      DecideKeepsRows(s, l);
    } else {
      ApprovalsUntouched(s, l);
      forall a | a in s.db.approvals
        ensures s.db.approvals[a].run in Next(s, l).db.runs
      {
        RunsStay(s, l, s.db.approvals[a].run);
      }
    }
  }

  // ---- counting jobs ----

  lemma SameJobKeys(s: System, l: Label)
    requires Inv(s) && Enabled(s, l) && !l.CreateRun? && !(l.Decide? && Resumes(s.db, l.a, s.clock))
    ensures Next(s, l).db.jobs.Keys == s.db.jobs.Keys && Next(s, l).db.runs.Keys == s.db.runs.Keys
  {
    if Local(l) {
      LocalStepShape(s, l);
    } else if l.ResolveJob? {
      assert WorkerOk(s, l.w);
      ResolveSameKeys(s, l.w);
    } else if l.Beat? {
      assert WorkerOk(s, l.w);
    }
  }

  lemma ResolveSameKeys(s: System, w: WorkerId)
    requires Enabled(s, ResolveJob(w)) && WorkerOk(s, w)
    ensures DoResolve(s, w).db.jobs.Keys == s.db.jobs.Keys && DoResolve(s, w).db.runs.Keys == s.db.runs.Keys
  {
  }

  lemma SameCounts(s: System, t: System, r: RunId)
    requires t.db.jobs.Keys == s.db.jobs.Keys
    requires forall j :: j in s.db.jobs ==> t.db.jobs[j].run == s.db.jobs[j].run
    requires t.resumed == s.resumed
    requires forall a :: a in s.db.approvals ==> a in t.db.approvals && t.db.approvals[a].run == s.db.approvals[a].run
    requires forall a :: a in s.resumed ==> a in s.db.approvals
    ensures JobsOf(t, r) == JobsOf(s, r) && ResumedOf(t, r) == ResumedOf(s, r)
  {
  }

  /** Adding job `j` for run `r` and, unless the run is new, marking approval `a` as resumed. */
  lemma CountsAfterNewJob(s: System, t: System, r: RunId, j: JobId, q: RunId)
    requires j !in s.db.jobs && t.db.jobs.Keys == s.db.jobs.Keys + {j}
    requires t.db.jobs[j].run == r && forall k :: k in s.db.jobs ==> t.db.jobs[k].run == s.db.jobs[k].run
    ensures JobsOf(t, q) == JobsOf(s, q) + (if q == r then {j} else {})
    ensures |JobsOf(t, q)| == |JobsOf(s, q)| + (if q == r then 1 else 0)
  {
    assert JobsOf(t, q) == JobsOf(s, q) + (if q == r then {j} else {});
    assert j !in JobsOf(s, q);
  }

  lemma NoRowsOfUnknownRun(s: System, r: RunId)
    requires Inv(s) && RowsOk(s) && r !in s.db.runs
    ensures JobsOf(s, r) == {} && ResumedOf(s, r) == {}
  {
    forall j | j in s.db.jobs
      ensures s.db.jobs[j].run != r
    {
      assert JobOk(s, j);
    }
  }

  lemma CreateCounts(s: System, l: Label, q: RunId)
    requires l.CreateRun? && Enabled(s, l)
    ensures var t := Next(s, l);
            |JobsOf(t, q)| == |JobsOf(s, q)| + (if q == l.r then 1 else 0) && ResumedOf(t, q) == ResumedOf(s, q)
  {
    CountsAfterNewJob(s, Next(s, l), l.r, l.j, q);
  }

  lemma CreateKeepsCounts(s: System, l: Label)
    requires ApprovalInv(s) && l.CreateRun? && Enabled(s, l)
    ensures CountsOk(Next(s, l))
  {
    var t := Next(s, l);
    NoRowsOfUnknownRun(s, l.r);
    assert t.db.runs.Keys == s.db.runs.Keys + {l.r};
    forall q | q in t.db.runs
      ensures |JobsOf(t, q)| == 1 + |ResumedOf(t, q)|
    {
      CreateCounts(s, l, q);
    }
  }

  lemma ResumedSets(s: System, t: System, a: ApprovalId, q: RunId)
    requires t.db.approvals.Keys == s.db.approvals.Keys && a in s.db.approvals && a !in s.resumed
    requires t.resumed == s.resumed + {a}
    requires forall b :: b in s.db.approvals ==> t.db.approvals[b].run == s.db.approvals[b].run
    ensures |ResumedOf(t, q)| == |ResumedOf(s, q)| + (if q == s.db.approvals[a].run then 1 else 0)
  {
    assert ResumedOf(t, q) == ResumedOf(s, q) + (if q == s.db.approvals[a].run then {a} else {});
  }

  lemma ResumedAfterDecision(s: System, l: Label, q: RunId)
    requires RowsOk(s) && l.Decide? && Enabled(s, l) && Resumes(s.db, l.a, s.clock)
    ensures |ResumedOf(Next(s, l), q)| == |ResumedOf(s, q)| + (if q == s.db.approvals[l.a].run then 1 else 0)
  {
    var t := Next(s, l);
    assert l.a !in s.resumed;
    DecideShape(s, l);
    forall b | b in s.db.approvals
      ensures t.db.approvals[b].run == s.db.approvals[b].run
    {
      ApprovalStep(s, l, b);
    }
    ResumedSets(s, t, l.a, q);
  }

  lemma ResumeKeepsCounts(s: System, l: Label)
    requires ApprovalInv(s) && l.Decide? && Enabled(s, l) && Resumes(s.db, l.a, s.clock)
    ensures CountsOk(Next(s, l))
  {
    var t := Next(s, l);
    DecideShape(s, l);
    forall q | q in t.db.runs
      ensures |JobsOf(t, q)| == 1 + |ResumedOf(t, q)|
    {
      ResumedAfterDecision(s, l, q);
      ResumedJobs(s, l, q);
    }
  }

  lemma ResumedJobs(s: System, l: Label, q: RunId)
    requires l.Decide? && Enabled(s, l) && Resumes(s.db, l.a, s.clock)
    ensures |JobsOf(Next(s, l), q)| == |JobsOf(s, q)| + (if q == s.db.approvals[l.a].run then 1 else 0)
  {
    CountsAfterNewJob(s, Next(s, l), s.db.approvals[l.a].run, l.j, q);
  }

  lemma StepKeepsApprovalInv(s: System, l: Label)
    requires ApprovalInv(s) && Enabled(s, l)
    ensures ApprovalInv(Next(s, l))
  {
    StepKeepsInv(s, l);
    StepKeepsRows(s, l);
    if l.CreateRun? {
      CreateKeepsCounts(s, l);
    } else if l.Decide? && Resumes(s.db, l.a, s.clock) {
      ResumeKeepsCounts(s, l);
    } else {
      var t := Next(s, l);
      SameJobKeys(s, l);
      QuietResumed(s, l);
      forall j | j in s.db.jobs
        ensures t.db.jobs[j].run == s.db.jobs[j].run
      {
        JobKeepsRun(s, l, j);
      }
      forall a | a in s.db.approvals
        ensures a in t.db.approvals && t.db.approvals[a].run == s.db.approvals[a].run
      {
        ApprovalStep(s, l, a);
      }
      forall r | r in t.db.runs
        ensures |JobsOf(t, r)| == 1 + |ResumedOf(t, r)|
      {
        SameCounts(s, t, r);
      }
    }
  }

  lemma QuietResumed(s: System, l: Label)
    requires Enabled(s, l) && !(l.Decide? && Resumes(s.db, l.a, s.clock))
    ensures Next(s, l).resumed == s.resumed
  {
    if Local(l) {
      LocalStepShape(s, l);
    }
  }

  lemma {:induction false} RunKeepsApprovalInv(s: System, ls: seq<Label>)
    requires ApprovalInv(s) && Legal(s, ls)
    ensures ApprovalInv(Exec(s, ls))
    decreases |ls|
  {
    if ls != [] {
      StepKeepsApprovalInv(s, ls[0]);
      RunKeepsApprovalInv(Next(s, ls[0]), ls[1..]);
    }
  }

  /** In every reachable state an action id has at most one row, and a run has one job more
      than it has approvals decided while it was paused. */
  lemma ApprovalsConserved(s: System, r: RunId)
    requires Reachable(s) && r in s.db.runs
    ensures |JobsOf(s, r)| == 1 + |ResumedOf(s, r)|
    ensures OneRowPerAction(s.db)
    ensures forall a :: a in s.resumed ==> a in s.db.approvals && Decided(s.db.approvals[a].status)
  {
    ReachableApprovalInv(s);
  }

  lemma ReachableApprovalInv(s: System)
    requires Reachable(s)
    ensures ApprovalInv(s)
  {
    var ls :| Legal(Init(), ls) && s == Exec(Init(), ls);
    RunKeepsApprovalInv(Init(), ls);
  }

  /** A decided approval never changes again, and its arguments are those of the first request. */
  lemma {:induction false} DecidedForever(s: System, ls: seq<Label>, a: ApprovalId)
    requires Legal(s, ls) && a in s.db.approvals
    ensures var t := Exec(s, ls);
            && a in t.db.approvals
            && t.db.approvals[a].actionId == s.db.approvals[a].actionId
            && t.db.approvals[a].action == s.db.approvals[a].action
            && t.db.approvals[a].arguments == s.db.approvals[a].arguments
            && t.db.approvals[a].expiresAt == s.db.approvals[a].expiresAt
            && (Decided(s.db.approvals[a].status) ==> t.db.approvals[a] == s.db.approvals[a])
    decreases |ls|
  {
    if ls != [] {
      ApprovalStep(s, ls[0], a);
      DecidedForever(Next(s, ls[0]), ls[1..], a);
    }
  }

  /** Any number of replayed requests for one recorded action leaves the whole system as it is. */
  lemma {:induction false} ReplaysChangeNothing(s: System, x: ActionId, ls: seq<Label>)
    requires Inv(s) && HasAction(s.db, x) && Legal(s, ls)
    requires forall l :: l in ls ==>
               && l.RequestApproval? && l.node == x.node && l.arguments == x.arguments
               && Active(PcOf(s, l.w)) && PcOf(s, l.w).claim.run == x.run
    ensures Exec(s, ls) == s
    decreases |ls|
  {
    if ls != [] {
      var l := ls[0];
      assert l in ls && x == ActionId(s.workers[l.w].pc.claim.run, l.node, l.arguments);
      ReplayAddsNothing(s, l.w, l.a, l.node, l.action, l.arguments, l.expiresIn);
      ReplaysChangeNothing(s, x, ls[1..]);
    }
  }

  lemma {:induction false} ExecReachable(s: System, ls: seq<Label>)
    requires Reachable(s) && Legal(s, ls)
    ensures Reachable(Exec(s, ls))
    decreases |ls|
  {
    if ls != [] {
      ReachableStep(s, ls[0]);
      ExecReachable(Next(s, ls[0]), ls[1..]);
    }
  }

  /** However often the node is replayed and whatever happens meanwhile, the action keeps exactly the
      one row of its first request, with the arguments and the expiry fixed then. */
  lemma FirstRequestStands(s: System, w: WorkerId, a: ApprovalId, node: string, action: string, arguments: string,
                           expiresIn: nat, ls: seq<Label>)
    requires Reachable(s) && Enabled(s, RequestApproval(w, a, node, action, arguments, expiresIn))
    requires !HasAction(s.db, ActionId(s.workers[w].pc.claim.run, node, arguments))
    requires Legal(Next(s, RequestApproval(w, a, node, action, arguments, expiresIn)), ls)
    ensures var t := Exec(Next(s, RequestApproval(w, a, node, action, arguments, expiresIn)), ls);
            var x := ActionId(s.workers[w].pc.claim.run, node, arguments);
            && (forall b :: b in t.db.approvals ==> (t.db.approvals[b].actionId == x <==> b == a))
            && a in t.db.approvals
            && var row := t.db.approvals[a];
               row.run == x.run && row.action == action && row.arguments == arguments
               && row.expiresAt == Some(s.clock + expiresIn)
  {
    var l := RequestApproval(w, a, node, action, arguments, expiresIn);
    ReachableStep(s, l);
    var u := Next(s, l);
    var t := Exec(u, ls);
    DecidedForever(u, ls, a);
    ExecReachable(u, ls);
    ApprovalsKeepRun(u, ls, a);
    OneRowInReachable(t);
  }

  lemma {:induction false} ApprovalsKeepRun(s: System, ls: seq<Label>, a: ApprovalId)
    requires Legal(s, ls) && a in s.db.approvals
    ensures a in Exec(s, ls).db.approvals && Exec(s, ls).db.approvals[a].run == s.db.approvals[a].run
    decreases |ls|
  {
    if ls != [] {
      ApprovalStep(s, ls[0], a);
      ApprovalsKeepRun(Next(s, ls[0]), ls[1..], a);
    }
  }

  lemma OneRowInReachable(s: System)
    requires Reachable(s)
    ensures OneRowPerAction(s.db)
  {
    var ls :| Legal(Init(), ls) && s == Exec(Init(), ls);
    RunKeepsApprovalInv(Init(), ls);
  }
}
