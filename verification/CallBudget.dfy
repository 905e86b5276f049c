/** How many model completions an attempt, and all attempts of a job, can ask for. */
module CallBudget {
  import opened Domain
  import opened Graph
  import opened Compiler
  import opened Execution
  import Subagents
  import P = Protocol
  import Fencing
  import Leases
  import JobAttempts

  function Calls(v: seq<Visit>): nat {
    if v == [] then 0 else Calls(v[..|v| - 1]) + v[|v| - 1].calls
  }

  /** The bound for n node executions, the first of which costs at most `first`. */
  function Bound(n: nat, m: nat, first: nat): nat {
    (n / 2) * (m + 2) + (n % 2) * first
  }

  /** What a visit can cost: a subagent its step limit and a plan, any other node one completion. */
  predicate CostOk(x: Visit, m: nat) {
    x.calls <= if x.kind.Subagent? then m + 1 else 1
  }

  /** No call of the executor asks for more than m + 1 completions. */
  ghost predicate Bounded(sub: Executor, m: nat) {
    forall task, world :: |sub(task, world).requests| <= m + 1
  }

  lemma ReActBounded(m: nat)
    ensures Bounded(ReAct(m), m)
  {
    forall task, world
      ensures |ReAct(m)(task, world).requests| <= m + 1
    {
      Subagents.CallsBounded(task, 0, world, m);
    }
  }

  lemma NodeCallsBounded(n: NodeDef, s: State, r: Reply, sub: Executor, m: nat)
    requires Bounded(sub, m)
    ensures NodeCalls(n, s, r, sub) <= if n.kind.Subagent? then m + 1 else 1
    ensures n.kind.Subagent? && !HasDecision(s) ==> NodeCalls(n, s, r, sub) == 0
  {
  }

  lemma {:induction false} VisitsCost(p: Program, sub: Executor, m: nat, s: State, at: Target, oracle: nat -> Reply, k: nat, limit: nat)
    requires Bounded(sub, m) && WellFormed(p) && TargetKnown(p, at) && k <= limit
    ensures var v := RunFrom(p, sub, s, at, oracle, k, limit).visits;
            && |v| <= limit - k
            && (forall i :: 0 <= i < |v| ==> CostOk(v[i], m))
            && (v != [] && !HasDecision(s) ==> v[0].calls <= 1)
    decreases limit - k
  {
    if at.To? && k < limit {
      NodeCallsBounded(p.nodes[at.id], s, oracle(k), sub, m);
      var end := RunNode(p.nodes, p.nodes[at.id], s, oracle(k), sub);
      if end.Patched? {
        assert NodeOk(p, at.id);
        var next := After(p, at.id, Merged(s, end.patch));
        if next.Some? {
          VisitsCost(p, sub, m, Merged(s, end.patch), next.value, oracle, k + 1, limit);
        }
      }
    }
  }

  /** A thread state of this program: only a Supervisor leaves a decision behind. */
  predicate ThreadState(p: Program, s: State) {
    HasDecision(s) ==> p.supervisor.Some?
  }

  /** Every attempt leaves its thread in such a state, however it ends. */
  lemma {:induction false} ThreadStateKept(p: Program, sub: Executor, s: State, at: Target, oracle: nat -> Reply, k: nat, limit: nat)
    requires WellFormed(p) && TargetKnown(p, at) && k <= limit && ThreadState(p, s)
    ensures ThreadState(p, RunFrom(p, sub, s, at, oracle, k, limit).state)
    decreases limit - k
  {
    if at.To? && k < limit {
      var end := RunNode(p.nodes, p.nodes[at.id], s, oracle(k), sub);
      if end.Patched? {
        assert NodeOk(p, at.id);
        var next := After(p, at.id, Merged(s, end.patch));
        if next.Some? {
          ThreadStateKept(p, sub, Merged(s, end.patch), next.value, oracle, k + 1, limit);
        }
      }
    }
  }

  /** A node that is not the Supervisor leaves no decision. */
  lemma NoNewDecision(nodes: map<string, NodeDef>, n: NodeDef, s: State, r: Reply, sub: Executor)
    requires !n.kind.Supervisor? && !HasDecision(s) && RunNode(nodes, n, s, r, sub).Patched?
    ensures !HasDecision(Merged(s, RunNode(nodes, n, s, r, sub).patch))
    ensures !Capability(n.kind)
  {
  }

  predicate Cheap(v: seq<Visit>) {
    forall x :: x in v ==> x.calls <= 1
  }

  /** Without a Supervisor no subagent ever gets as far as a completion. */
  lemma {:induction false} NoSupervisorCheap(p: Program, sub: Executor, m: nat, s: State, at: Target, oracle: nat -> Reply, k: nat, limit: nat)
    requires Bounded(sub, m) && WellFormed(p) && TargetKnown(p, at) && k <= limit && p.supervisor.None? && !HasDecision(s)
    ensures Cheap(RunFrom(p, sub, s, at, oracle, k, limit).visits)
    decreases limit - k
  {
    if at.To? && k < limit {
      assert NodeOk(p, at.id);
      var n := p.nodes[at.id];
      NodeCallsBounded(n, s, oracle(k), sub, m);
      var end := RunNode(p.nodes, n, s, oracle(k), sub);
      if end.Patched? {
        NoNewDecision(p.nodes, n, s, oracle(k), sub);
        NoSupervisorCheap(p, sub, m, Merged(s, end.patch), p.next[at.id], oracle, k + 1, limit);
      }
    }
  }

  /** Two neighbours never both are subagents, so they cost at most m + 2 together. */
  predicate PairsOk(v: seq<Visit>, m: nat) {
    && (forall i :: 0 <= i < |v| ==> CostOk(v[i], m))
    && (forall i :: 0 < i < |v| ==> v[i - 1].calls + v[i].calls <= m + 2)
  }

  lemma PairsOfRun(p: Program, sub: Executor, m: nat, s: State, at: Target, oracle: nat -> Reply, limit: nat)
    requires Bounded(sub, m) && WellFormed(p) && TargetKnown(p, at) && ThreadState(p, s)
    ensures PairsOk(RunFrom(p, sub, s, at, oracle, 0, limit).visits, m)
  {
    var v := RunFrom(p, sub, s, at, oracle, 0, limit).visits;
    VisitsFollow(p, sub, s, at, oracle, 0, limit);
    VisitsCost(p, sub, m, s, at, oracle, 0, limit);
    if p.supervisor.None? {
      NoSupervisorCheap(p, sub, m, s, at, oracle, 0, limit);
    } else {
      NeighboursCost(p, v, m);
    }
  }

  lemma NeighboursCost(p: Program, v: seq<Visit>, m: nat)
    requires WellFormed(p) && Chained(p, v) && p.supervisor.Some?
    requires forall i :: 0 <= i < |v| ==> CostOk(v[i], m)
    ensures forall i :: 0 < i < |v| ==> v[i - 1].calls + v[i].calls <= m + 2
  {
    forall i | 0 < i < |v|
      ensures v[i - 1].calls + v[i].calls <= m + 2
    {
      assert CostOk(v[i - 1], m) && CostOk(v[i], m);
      if v[i - 1].kind.Subagent? {
        ProtocolAlternates(p, v, i - 1, i);
        assert InTurn(false, 1, v[i].kind);
      }
    }
  }

  lemma {:induction false} PairwiseSum(v: seq<Visit>, m: nat, first: nat)
    requires PairsOk(v, m) && (v != [] ==> v[0].calls <= first)
    ensures Calls(v) <= Bound(|v|, m, first)
    decreases |v|
  {
    if |v| >= 2 {
      var n := |v| - 2;
      var w := v[..n];
      PairwiseSum(w, m, first);
      assert v[..n + 1][..n] == w;
      assert v[n + 1 - 1].calls + v[n + 1].calls <= m + 2;
      OnePairMore(n, m, first);
    } else if |v| == 1 {
      assert v[..0] == [];
    }
  }

  lemma OnePairMore(n: nat, m: nat, first: nat)
    ensures Bound(n + 2, m, first) == Bound(n, m, first) + m + 2
  {
    assert (n + 2) / 2 == n / 2 + 1 && (n + 2) % 2 == n % 2;
    assert (n / 2 + 1) * (m + 2) == (n / 2) * (m + 2) + (m + 2);
  }

  lemma {:induction false} BoundMonotone(n: nat, k: nat, m: nat, first: nat)
    requires n <= k && first <= m + 2
    ensures Bound(n, m, first) <= Bound(k, m, first)
    decreases k
  {
    if n + 2 <= k {
      BoundMonotone(n, k - 2, m, first);
      OnePairMore(k - 2, m, first);
    } else if n < k {
      if n % 2 == 0 {
        assert k / 2 == n / 2 && k % 2 == 1;
      } else {
        assert k / 2 == n / 2 + 1 && k % 2 == 0;
        assert (n / 2 + 1) * (m + 2) == (n / 2) * (m + 2) + (m + 2);
      }
    }
  }

  /** An attempt of at most `limit` node executions asks for at most floor(limit/2)*(m+2) completions,
      and for an odd limit one more when the thread is fresh, and m + 1 more otherwise. */
  lemma AttemptBudget(p: Program, m: nat, s: State, oracle: nat -> Reply, limit: nat)
    requires WellFormed(p) && ThreadState(p, s)
    ensures Calls(Attempt(p, ReAct(m), s, oracle, limit).visits) <= Bound(limit, m, if HasDecision(s) then m + 1 else 1)
  {
    ReActBounded(m);
    BoundedAttempt(p, ReAct(m), m, s, oracle, limit);
  }

  lemma BoundedAttempt(p: Program, sub: Executor, m: nat, s: State, oracle: nat -> Reply, limit: nat)
    requires Bounded(sub, m) && WellFormed(p) && ThreadState(p, s)
    ensures Calls(Attempt(p, sub, s, oracle, limit).visits) <= Bound(limit, m, if HasDecision(s) then m + 1 else 1)
  {
    var v := Attempt(p, sub, s, oracle, limit).visits;
    PairsOfRun(p, sub, m, s, To(p.entry), oracle, limit);
    VisitsCost(p, sub, m, s, To(p.entry), oracle, 0, limit);
    WithinBound(v, m, if HasDecision(s) then m + 1 else 1, limit);
  }

  lemma WithinBound(v: seq<Visit>, m: nat, first: nat, limit: nat)
    requires PairsOk(v, m) && |v| <= limit && 1 <= first <= m + 1
    requires v != [] ==> v[0].calls <= 1 || first == m + 1
    ensures Calls(v) <= Bound(limit, m, first)
  {
    if v != [] {
      assert CostOk(v[0], m);
    }
    PairwiseSum(v, m, first);
    BoundMonotone(|v|, limit, m, first);
  }

  // ---- the settings of the program ----

  const RECURSION_LIMIT: nat := 20
  const SUBAGENT_STEPS: nat := 8

  /** With the program's settings, every attempt stays within 100 completions. */
  lemma AttemptAtMostHundred(p: Program, s: State, oracle: nat -> Reply)
    requires WellFormed(p) && ThreadState(p, s)
    ensures Calls(Attempt(p, ReAct(SUBAGENT_STEPS), s, oracle, RECURSION_LIMIT).visits) <= 100
  {
    AttemptBudget(p, SUBAGENT_STEPS, s, oracle, RECURSION_LIMIT);
    HundredWithSettings(Calls(Attempt(p, ReAct(SUBAGENT_STEPS), s, oracle, RECURSION_LIMIT).visits), 1);
    HundredWithSettings(Calls(Attempt(p, ReAct(SUBAGENT_STEPS), s, oracle, RECURSION_LIMIT).visits), SUBAGENT_STEPS + 1);
  }

  /** For the even limit 20 the first node does not matter. */
  lemma HundredWithSettings(calls: nat, first: nat)
    ensures calls <= Bound(RECURSION_LIMIT, SUBAGENT_STEPS, first) ==> calls <= 100
  {
    assert RECURSION_LIMIT / 2 == 10 && RECURSION_LIMIT % 2 == 0;
  }

  /** The completions of the first n attempts. */
  function TotalCalls(p: Program, states: nat -> State, oracles: nat -> (nat -> Reply), n: nat): nat
    requires WellFormed(p)
  {
    if n == 0 then 0
    else
      TotalCalls(p, states, oracles, n - 1)
        + Calls(Attempt(p, ReAct(SUBAGENT_STEPS), states(n - 1), oracles(n - 1), RECURSION_LIMIT).visits)
  }

  lemma {:induction false} AttemptsCost(p: Program, states: nat -> State, oracles: nat -> (nat -> Reply), n: nat)
    requires WellFormed(p) && forall k: nat :: ThreadState(p, states(k))
    ensures TotalCalls(p, states, oracles, n) <= 100 * n
  {
    if n > 0 {
      AttemptsCost(p, states, oracles, n - 1);
      AttemptAtMostHundred(p, states(n - 1), oracles(n - 1));
    }
  }

  /** Whatever the workers do: all the attempts they start on a job's graph, each in any state its
      thread can be in, ask for at most 300 completions, and 100 more for each takeover of a lease
      that ran out. */
  lemma JobBudget(ls: seq<P.Label>, j: JobId, p: Program, states: nat -> State, oracles: nat -> (nat -> Reply))
    requires P.Legal(P.Init(), ls) && j in P.Exec(P.Init(), ls).db.jobs
    requires WellFormed(p) && forall k: nat :: ThreadState(p, states(k))
    ensures var s := P.Exec(P.Init(), ls);
            && j in s.holds
            && TotalCalls(p, states, oracles, JobAttempts.Entries(P.Init(), ls, j)) <= 300 + 100 * Fencing.Takeovers(s.holds[j])
  {
    var s := P.Exec(P.Init(), ls);
    assert Leases.Reachable(s);
    Leases.ThreeStartsWithoutTakeover(s, j);
    JobAttempts.EntriesBounded(ls, j);
    AttemptsCost(p, states, oracles, JobAttempts.Entries(P.Init(), ls, j));
  }

  // ---- the bound is met ----

  /** The program starts with the Supervisor, and `a` is a planning subagent with a tool. */
  predicate Delegates(p: Program, a: string) {
    && p.supervisor == Some(p.entry)
    && a in p.dispatch && a in p.nodes && a != "" && p.nodes[a].kind.Subagent?
    && p.nodes[a].config.template == Some("planner_react")
    && p.nodes[a].config.allowedTools != [] && p.nodes[a].config.allowedTools[0] != ""
  }

  /** The model never finishes: the Supervisor keeps delegating to `a`, and the subagent keeps
      calling a tool. */
  function Busy(a: string, tools: seq<string>): (r: Reply)
    requires tools != []
  {
    var registered := set t | t in tools;
    Reply(false, None, false, "", Decision(UseSubagent, Some(a), None, None, None, []),
          Subagents.World(registered, registered,
                          k => Subagents.Reply(true, "", Some(Subagents.UseTool(Some(tools[0]), "")), None), k => ""))
  }

  /** On the busy world the executor returns after m + 1 completions, whatever the decision. */
  ghost predicate UsesUp(sub: Executor, p: Program, a: string, m: nat)
    requires Delegates(p, a)
  {
    forall d: Decision ::
      var t := sub(TaskOf(p.nodes[a], d), Busy(a, p.nodes[a].config.allowedTools).world);
      |t.requests| == m + 1 && t.end.Returned?
  }

  /** A busy subagent uses its whole budget: the plan and all its steps. */
  lemma ReActUsesUp(p: Program, a: string, m: nat)
    requires Delegates(p, a)
    ensures UsesUp(ReAct(m), p, a, m)
  {
    var tools := p.nodes[a].config.allowedTools;
    var w := Busy(a, tools).world;
    forall d: Decision
      ensures var t := ReAct(m)(TaskOf(p.nodes[a], d), w); |t.requests| == m + 1 && t.end.Returned?
    {
      BusyTask(TaskOf(p.nodes[a], d), a, tools, m);
    }
  }

  lemma BusyTask(task: Subagents.Task, a: string, tools: seq<string>, m: nat)
    requires task.allowed == tools && tools != [] && tools[0] != "" && task.template == "planner_react"
    ensures var t := Subagents.Executed(task, 0, Busy(a, tools).world, m); |t.requests| == m + 1 && t.end.Returned?
  {
    var w := Busy(a, tools).world;
    forall i | 1 <= i <= m
      ensures Subagents.Stop(task, w, i).None?
    {
      assert tools[0] in task.allowed && tools[0] in w.scope;
    }
    assert Subagents.Started(task, 0, w);
    Subagents.TimeoutExactly(task, 0, w, m);
  }

  /** The node the busy attempt is at: the Supervisor and the subagent take turns. */
  function Turn(p: Program, a: string, supervisor: bool): string {
    if supervisor then p.entry else a
  }

  function BusyCost(m: nat, supervisor: bool): nat {
    if supervisor then 1 else m + 1
  }

  /** n nodes in turn. */
  function TurnsCost(n: nat, m: nat, supervisor: bool): nat {
    if n == 0 then 0 else BusyCost(m, supervisor) + TurnsCost(n - 1, m, !supervisor)
  }

  lemma {:induction false} TurnsCostIsBound(n: nat, m: nat)
    ensures TurnsCost(n, m, true) == Bound(n, m, 1)
  {
    if n >= 2 {
      TurnsCostIsBound(n - 2, m);
      OnePairMore(n - 2, m, 1);
      assert TurnsCost(n - 1, m, false) == m + 1 + TurnsCost(n - 2, m, true);
    } else if n == 1 {
      assert TurnsCost(0, m, false) == 0;
    }
  }

  lemma BusyNode(p: Program, a: string, sub: Executor, m: nat, s: State, supervisor: bool) returns (t: State)
    requires WellFormed(p) && Delegates(p, a) && UsesUp(sub, p, a, m) && (!supervisor ==> HasDecision(s))
    ensures var n := p.nodes[Turn(p, a, supervisor)]; var r := Busy(a, p.nodes[a].config.allowedTools);
            && RunNode(p.nodes, n, s, r, sub).Patched?
            && t == Merged(s, RunNode(p.nodes, n, s, r, sub).patch)
            && NodeCalls(n, s, r, sub) == BusyCost(m, supervisor)
            && HasDecision(t)
            && After(p, n.id, t) == Some(To(Turn(p, a, !supervisor)))
  {
    assert NodeOk(p, p.entry) && NodeOk(p, a);
    var r := Busy(a, p.nodes[a].config.allowedTools);
    if !supervisor {
      var t := sub(TaskOf(p.nodes[a], s.control[DECISION]), r.world);
      assert |t.requests| == m + 1;
    }
    t := Merged(s, RunNode(p.nodes, p.nodes[Turn(p, a, supervisor)], s, r, sub).patch);
  }

  lemma {:induction false} CallsFromFront(first: Visit, v: seq<Visit>)
    ensures Calls([first] + v) == first.calls + Calls(v)
    decreases |v|
  {
    if v == [] {
      assert ([first] + v)[..0] == [];
    } else {
      CallsFromFront(first, v[..|v| - 1]);
      assert ([first] + v)[..|v|] == [first] + v[..|v| - 1];
    }
  }

  /** Whichever node of the pair one of the first n executions is of, it completes at its full cost
      and leads to the other one. */
  ghost predicate Steady(p: Program, a: string, sub: Executor, m: nat, oracle: nat -> Reply, n: nat)
    requires WellFormed(p) && Turn(p, a, true) in p.nodes && Turn(p, a, false) in p.nodes
  {
    n > 0 ==>
      var last := oracle(n - 1);
      && (forall s: State, supervisor: bool :: (supervisor || HasDecision(s)) ==> SteadyAt(p, a, sub, m, last, s, supervisor))
      && Steady(p, a, sub, m, oracle, n - 1)
  }

  lemma {:induction false} SteadyStep(p: Program, a: string, sub: Executor, m: nat, oracle: nat -> Reply, n: nat, k: nat, s: State, supervisor: bool)
    requires WellFormed(p) && a in p.nodes && k < n && (supervisor || HasDecision(s))
    requires Steady(p, a, sub, m, oracle, n)
    ensures SteadyAt(p, a, sub, m, oracle(k), s, supervisor)
  {
    if k < n - 1 {
      SteadyStep(p, a, sub, m, oracle, n - 1, k, s, supervisor);
    }
  }

  ghost predicate SteadyAt(p: Program, a: string, sub: Executor, m: nat, r: Reply, s: State, supervisor: bool)
    requires WellFormed(p) && Turn(p, a, supervisor) in p.nodes
  {
    var id := Turn(p, a, supervisor);
    var end := RunNode(p.nodes, p.nodes[id], s, r, sub);
    && end.Patched?
    && NodeCalls(p.nodes[id], s, r, sub) == BusyCost(m, supervisor)
    && HasDecision(Merged(s, end.patch))
    && After(p, id, Merged(s, end.patch)) == Some(To(Turn(p, a, !supervisor)))
  }

  lemma {:induction false} BusyIsSteady(p: Program, a: string, sub: Executor, m: nat, oracle: nat -> Reply, n: nat)
    requires WellFormed(p) && Delegates(p, a) && UsesUp(sub, p, a, m)
    requires forall i: nat :: oracle(i) == Busy(a, p.nodes[a].config.allowedTools)
    ensures p.entry in p.nodes
    ensures Steady(p, a, sub, m, oracle, n)
  {
    assert NodeOk(p, p.entry) && NodeOk(p, a);
    if n > 0 {
      var last := oracle(n - 1);
      forall s: State, supervisor: bool | supervisor || HasDecision(s)
        ensures SteadyAt(p, a, sub, m, last, s, supervisor)
      {
        var t := BusyNode(p, a, sub, m, s, supervisor);
      }
      BusyIsSteady(p, a, sub, m, oracle, n - 1);
    }
  }

  lemma BusyStep(p: Program, a: string, sub: Executor, m: nat, s: State, at: Target, oracle: nat -> Reply, k: nat, limit: nat, supervisor: bool, r: Ran)
    returns (t: State, next: Target, rest: Ran)
    requires WellFormed(p) && a in p.nodes && k < limit && (supervisor || HasDecision(s))
    requires at == To(Turn(p, a, supervisor)) && Steady(p, a, sub, m, oracle, limit)
    requires r == RunFrom(p, sub, s, at, oracle, k, limit)
    ensures HasDecision(t) && next == To(Turn(p, a, !supervisor))
    ensures rest == RunFrom(p, sub, t, next, oracle, k + 1, limit)
    ensures Calls(r.visits) == BusyCost(m, supervisor) + Calls(rest.visits)
  {
    SteadyStep(p, a, sub, m, oracle, limit, k, s, supervisor);
    t := Merged(s, RunNode(p.nodes, p.nodes[at.id], s, oracle(k), sub).patch);
    next := To(Turn(p, a, !supervisor));
    rest := RunFrom(p, sub, t, next, oracle, k + 1, limit);
    assert r.visits == [r.visits[0]] + rest.visits;
    CallsFromFront(r.visits[0], rest.visits);
  }

  lemma {:induction false} BusyRun(p: Program, a: string, sub: Executor, m: nat, s: State, at: Target, oracle: nat -> Reply, k: nat, limit: nat, supervisor: bool, r: Ran)
    requires WellFormed(p) && a in p.nodes && k <= limit && (supervisor || HasDecision(s))
    requires at == To(Turn(p, a, supervisor)) && Steady(p, a, sub, m, oracle, limit)
    requires r == RunFrom(p, sub, s, at, oracle, k, limit)
    ensures Calls(r.visits) == TurnsCost(limit - k, m, supervisor)
    decreases limit - k
  {
    if k < limit {
      var t, next, rest := BusyStep(p, a, sub, m, s, at, oracle, k, limit, supervisor, r);
      BusyRun(p, a, sub, m, t, next, oracle, k + 1, limit, !supervisor, rest);
    }
  }

  /** For every such program the bound for a fresh attempt is the best possible one, whatever the
      limit and the number of subagent steps. */
  lemma BudgetIsMet(p: Program, a: string, m: nat, limit: nat, input: string, run: string, oracle: nat -> Reply)
    requires WellFormed(p) && Delegates(p, a)
    requires forall i: nat :: oracle(i) == Busy(a, p.nodes[a].config.allowedTools)
    ensures Calls(Attempt(p, ReAct(m), Fresh(input, run), oracle, limit).visits) == Bound(limit, m, 1)
  {
    ReActUsesUp(p, a, m);
    TurnsCostIsBound(limit, m);
    BusyAttempt(p, a, ReAct(m), m, limit, input, run, oracle);
  }

  lemma BusyAttempt(p: Program, a: string, sub: Executor, m: nat, limit: nat, input: string, run: string, oracle: nat -> Reply)
    requires WellFormed(p) && Delegates(p, a) && UsesUp(sub, p, a, m)
    requires forall i: nat :: oracle(i) == Busy(a, p.nodes[a].config.allowedTools)
    ensures Calls(Attempt(p, sub, Fresh(input, run), oracle, limit).visits) == TurnsCost(limit, m, true)
  {
    BusyIsSteady(p, a, sub, m, oracle, limit);
    BusyRun(p, a, sub, m, Fresh(input, run), To(p.entry), oracle, 0, limit, true,
            Attempt(p, sub, Fresh(input, run), oracle, limit));
  }
}
