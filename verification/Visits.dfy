/** Which nodes can actually be visited, by a fresh attempt or later on the same thread. */
module Visits {
  import opened Domain
  import opened Outcomes
  import opened Graph
  import opened Validator
  import opened Compiler
  import opened Execution
  import opened Prelude
  import opened Reachability
  import Subagents

  // ---- the condition on the graph ----

  /** A plain node that does not fail by itself: a transform has a known operation. */
  predicate Passable(p: Program, t: Target) {
    PlainTarget(p, t) && KnownOperation(p.nodes[t.id])
  }

  /** The first k nodes of the entry's chain can be passed. */
  predicate OpenTo(p: Program, k: nat)
    requires WellFormed(p)
  {
    forall i :: 0 <= i < k ==> Passable(p, Chain(p, To(p.entry), i))
  }

  /** The chain comes to the node within the limit. */
  predicate OnOpenChain(p: Program, limit: nat, n: string)
    requires WellFormed(p)
  {
    exists k :: 0 <= k < limit && OpenTo(p, k) && Chain(p, To(p.entry), k) == To(n)
  }

  /** The chain comes to the Supervisor within the limit. */
  predicate SupervisorBy(p: Program, limit: nat)
    requires WellFormed(p)
  {
    p.supervisor.Some? && OnOpenChain(p, limit, p.supervisor.value)
  }

  /** The node is on the chain, or a capability that a Supervisor reached one step earlier can select. */
  predicate CanVisit(p: Program, limit: nat, n: string)
    requires WellFormed(p)
  {
    OnOpenChain(p, limit, n) || (n in p.dispatch && limit > 0 && SupervisorBy(p, limit - 1))
  }

  ghost predicate SupervisorOpens(p: Program)
    requires WellFormed(p)
  {
    exists limit :: SupervisorBy(p, limit)
  }

  // ---- nothing else is visited ----

  ghost predicate Visits(p: Program, sub: Executor, s: State, oracle: nat -> Reply, limit: nat, n: string)
    requires WellFormed(p)
  {
    exists i :: 0 <= i < |Attempt(p, sub, s, oracle, limit).visits| && Attempt(p, sub, s, oracle, limit).visits[i].node == n
  }

  /** Completed transforms had a known operation, and there are at most `limit` visits. */
  lemma {:induction false} CompletedIsKnown(p: Program, sub: Executor, s: State, at: Target, oracle: nat -> Reply, k: nat, limit: nat, r: Ran)
    requires WellFormed(p) && TargetKnown(p, at) && k <= limit && r == RunFrom(p, sub, s, at, oracle, k, limit)
    ensures |r.visits| <= limit - k
    ensures forall x :: x in r.visits && x.end.Patched? && x.node in p.nodes ==> KnownOperation(p.nodes[x.node])
    decreases limit - k
  {
    if at.To? && k < limit {
      var end := RunNode(p.nodes, p.nodes[at.id], s, oracle(k), sub);
      if end.Patched? {
        assert NodeOk(p, at.id);
        var t := Merged(s, end.patch);
        var next := After(p, at.id, t);
        if next.Some? {
          CompletedIsKnown(p, sub, t, next.value, oracle, k + 1, limit, RunFrom(p, sub, t, next.value, oracle, k + 1, limit));
        }
      }
    }
  }

  ghost predicate PlainBefore(v: seq<Visit>, i: nat) {
    i <= |v| && forall j :: 0 <= j < i ==> Plain(v[j].kind)
  }

  /** As long as the visits are of plain nodes, they follow the chain. */
  lemma {:induction false} VisitsFollowChain(p: Program, v: seq<Visit>, i: nat)
    requires WellFormed(p) && Chained(p, v) && (v != [] ==> v[0].node == p.entry)
    requires i < |v| && PlainBefore(v, i)
    requires forall x :: x in v && x.end.Patched? && x.node in p.nodes ==> KnownOperation(p.nodes[x.node])
    ensures OpenTo(p, i) && Chain(p, To(p.entry), i) == To(v[i].node)
  {
    if i > 0 {
      VisitsFollowChain(p, v, i - 1);
      assert Follows(p, v[i - 1], v[i]) && v[i - 1] in v;
      assert Plain(v[i - 1].kind);
    }
  }

  /** A chain that leaves at a capability never comes to the Supervisor. */
  lemma ExitIsUnique(p: Program, i: nat, k: nat, a: string, b: string)
    requires WellFormed(p) && Chain(p, To(p.entry), i) == To(a) && Chain(p, To(p.entry), k) == To(b)
    requires !PlainTarget(p, To(a)) && !PlainTarget(p, To(b))
    ensures a == b
  {
    if i <= k {
      LeftForGood(p, To(p.entry), i, k);
    } else {
      LeftForGood(p, To(p.entry), k, i);
    }
  }

  /** The facts about an attempt's visits that the argument needs. */
  lemma AttemptFacts(p: Program, sub: Executor, s: State, oracle: nat -> Reply, limit: nat, v: seq<Visit>)
    requires WellFormed(p) && v == Attempt(p, sub, s, oracle, limit).visits
    ensures Chained(p, v) && (v != [] ==> v[0].node == p.entry) && |v| <= limit
    ensures forall x :: x in v && x.end.Patched? && x.node in p.nodes ==> KnownOperation(p.nodes[x.node])
  {
    VisitsFollow(p, sub, s, To(p.entry), oracle, 0, limit);
    CompletedIsKnown(p, sub, s, To(p.entry), oracle, 0, limit, Attempt(p, sub, s, oracle, limit));
  }

  /** A visit after the chain was left at `q`. */
  lemma AfterExit(p: Program, v: seq<Visit>, q: nat, i: nat, limit: nat)
    requires WellFormed(p) && Chained(p, v) && (v != [] ==> v[0].node == p.entry) && |v| <= limit
    requires forall x :: x in v && x.end.Patched? && x.node in p.nodes ==> KnownOperation(p.nodes[x.node])
    requires q < i < |v| && PlainBefore(v, q) && v[q].kind.Supervisor?
    ensures CanVisit(p, limit, v[i].node)
  {
    VisitsFollowChain(p, v, q);
    assert NodeOk(p, v[q].node);
    assert SupervisorBy(p, limit - 1);
    ProtocolAlternates(p, v, q, i);
    assert NodeOk(p, v[i].node);
    if v[i].kind.Supervisor? {
      assert v[i].node == v[q].node;
    }
  }

  /** In a thread that holds a decision only if the chain leads to the Supervisor, an attempt visits no
      other nodes. */
  lemma VisitedOnlyIf(p: Program, sub: Executor, s: State, oracle: nat -> Reply, limit: nat, i: nat)
    requires WellFormed(p) && (HasDecision(s) ==> SupervisorOpens(p))
    requires i < |Attempt(p, sub, s, oracle, limit).visits|
    ensures CanVisit(p, limit, Attempt(p, sub, s, oracle, limit).visits[i].node)
  {
    var v := Attempt(p, sub, s, oracle, limit).visits;
    AttemptFacts(p, sub, s, oracle, limit, v);
    var q := PlainPrefix(v, 0);
    if i <= q {
      VisitsFollowChain(p, v, i);
      assert OnOpenChain(p, limit, v[i].node);
    } else {
      assert NodeOk(p, v[q].node);
      assert Follows(p, v[q + 1 - 1], v[q + 1]);
      if Capability(v[q].kind) {
        CapabilityExitFails(p, sub, s, oracle, limit, v, q);
        assert false;
      } else {
        AfterExit(p, v, q, i, limit);
      }
    }
  }

  /** A capability at the end of the chain fails: no Supervisor has decided, now or before. */
  lemma CapabilityExitFails(p: Program, sub: Executor, s: State, oracle: nat -> Reply, limit: nat, v: seq<Visit>, q: nat)
    requires WellFormed(p) && (HasDecision(s) ==> SupervisorOpens(p)) && v == Attempt(p, sub, s, oracle, limit).visits
    requires q < |v| && PlainBefore(v, q) && Capability(v[q].kind)
    ensures v[q].end.Faulted?
  {
    AttemptFacts(p, sub, s, oracle, limit, v);
    VisitsFollowChain(p, v, q);
    if HasDecision(s) {
      var n: nat :| SupervisorBy(p, n);
      var k :| 0 <= k < n && OpenTo(p, k) && Chain(p, To(p.entry), k) == To(p.supervisor.value);
      assert NodeOk(p, v[q].node) && NodeOk(p, p.supervisor.value);
      ExitIsUnique(p, q, k, v[q].node, p.supervisor.value);
    } else {
      UnselectedFails(p, sub, s, To(p.entry), oracle, 0, limit, Attempt(p, sub, s, oracle, limit), q);
    }
  }

  // ---- every such node is visited by some attempt ----

  /** No cancellation and no fault. */
  ghost predicate Calm(oracle: nat -> Reply) {
    forall i: nat :: !oracle(i).cancelled && oracle(i).fault.None?
  }

  lemma PassStep(p: Program, sub: Executor, s: State, at: Target, oracle: nat -> Reply, k: nat, limit: nat, r: Ran)
    returns (t: State, rest: Ran)
    requires WellFormed(p) && Passable(p, at) && k < limit && Calm(oracle) && r == RunFrom(p, sub, s, at, oracle, k, limit)
    ensures at.id in p.next && TargetKnown(p, p.next[at.id])
    ensures rest == RunFrom(p, sub, t, p.next[at.id], oracle, k + 1, limit)
    ensures |r.visits| > 0 && r.visits[1..] == rest.visits
  {
    assert NodeOk(p, at.id);
    PlainNodeCompletes(p.nodes, p.nodes[at.id], s, oracle(k), sub);
    t := Merged(s, RunNode(p.nodes, p.nodes[at.id], s, oracle(k), sub).patch);
    rest := RunFrom(p, sub, t, p.next[at.id], oracle, k + 1, limit);
  }

  lemma DropOneMore<T>(v: seq<T>, n: nat)
    requires n < |v|
    ensures v[n..][1..] == v[n + 1..]
  {
  }

  /** The n-th node of the open part is passed. */
  lemma OpenStep(p: Program, sub: Executor, s: State, oracle: nat -> Reply, limit: nat, n: nat, mid: Ran)
    returns (t: State, rest: Ran)
    requires WellFormed(p) && n < limit && Calm(oracle) && OpenTo(p, n + 1)
    requires mid == RunFrom(p, sub, s, Chain(p, To(p.entry), n), oracle, n, limit)
    ensures rest == RunFrom(p, sub, t, Chain(p, To(p.entry), n + 1), oracle, n + 1, limit)
    ensures |mid.visits| > 0 && mid.visits[1..] == rest.visits
  {
    assert Passable(p, Chain(p, To(p.entry), n));
    t, rest := PassStep(p, sub, s, Chain(p, To(p.entry), n), oracle, n, limit, mid);
  }

  lemma OpenPrefix(p: Program, n: nat)
    requires WellFormed(p) && OpenTo(p, n + 1)
    ensures OpenTo(p, n)
  {
  }

  /** A calm attempt passes the open part of the chain. */
  lemma {:induction false} OpenRun(p: Program, sub: Executor, s: State, oracle: nat -> Reply, limit: nat, n: nat, r: Ran)
    returns (t: State, rest: Ran)
    requires WellFormed(p) && n <= limit && Calm(oracle) && OpenTo(p, n) && r == Attempt(p, sub, s, oracle, limit)
    ensures rest == RunFrom(p, sub, t, Chain(p, To(p.entry), n), oracle, n, limit)
    ensures |r.visits| >= n && r.visits[n..] == rest.visits
  {
    if n == 0 {
      t, rest := s, r;
    } else {
      OpenPrefix(p, n - 1);
      var u, mid := OpenRun(p, sub, s, oracle, limit, n - 1, r);
      t, rest := OpenStep(p, sub, u, oracle, limit, n - 1, mid);
      DropOneMore(r.visits, n - 1);
    }
  }

  lemma FirstVisit(p: Program, sub: Executor, s: State, at: Target, oracle: nat -> Reply, k: nat, limit: nat, r: Ran)
    requires WellFormed(p) && at.To? && at.id in p.nodes && k < limit && r == RunFrom(p, sub, s, at, oracle, k, limit)
    ensures |r.visits| > 0 && r.visits[0].node == at.id
  {
  }

  /** The reply of an oracle that lets everything succeed and decides for the given node. */
  function Deciding(p: Program, n: string): Reply {
    var kind := if n in p.nodes then p.nodes[n].kind else Tool;
    var action := if kind.Tool? then UseTool else if kind.Rag? then UseRag else if kind.Subagent? then UseSubagent else UseGate;
    Reply(false, None, false, "", Decision(action, None, Some(n), None, None, []),
          Subagents.World({}, {}, k => Subagents.Reply(false, "", None, None), k => ""))
  }

  function AlwaysDeciding(p: Program, n: string): nat -> Reply {
    _ => Deciding(p, n)
  }

  /** A Supervisor that decides for a capability is followed by it. */
  lemma SelectedNext(p: Program, sub: Executor, s: State, oracle: nat -> Reply, k: nat, limit: nat, n: string, r: Ran)
    requires WellFormed(p) && p.supervisor.Some? && n in p.dispatch && k + 1 < limit
    requires oracle(k) == Deciding(p, n) && r == RunFrom(p, sub, s, To(p.supervisor.value), oracle, k, limit)
    ensures |r.visits| > 1 && r.visits[1].node == n
  {
    var id := p.supervisor.value;
    assert NodeOk(p, id) && NodeOk(p, n);
    var t := Merged(s, RunNode(p.nodes, p.nodes[id], s, oracle(k), sub).patch);
    assert After(p, id, t) == Some(To(n));
    FirstVisit(p, sub, t, To(n), oracle, k + 1, limit, RunFrom(p, sub, t, To(n), oracle, k + 1, limit));
  }

  lemma VisitIn(p: Program, sub: Executor, s: State, limit: nat, n: string, oracle: nat -> Reply, r: Ran, k: nat, i: nat)
    requires WellFormed(p) && r == Attempt(p, sub, s, oracle, limit)
    requires k <= |r.visits| && i < |r.visits[k..]| && r.visits[k..][i].node == n
    ensures Visits(p, sub, s, oracle, limit, n)
  {
    assert r.visits[k + i].node == n;
  }

  lemma ChainVisited(p: Program, sub: Executor, s: State, limit: nat, n: string, oracle: nat -> Reply)
    requires WellFormed(p) && OnOpenChain(p, limit, n) && Calm(oracle)
    ensures Visits(p, sub, s, oracle, limit, n)
  {
    var k :| 0 <= k < limit && OpenTo(p, k) && Chain(p, To(p.entry), k) == To(n);
    var r := Attempt(p, sub, s, oracle, limit);
    var t, rest := OpenRun(p, sub, s, oracle, limit, k, r);
    FirstVisit(p, sub, t, To(n), oracle, k, limit, rest);
    VisitIn(p, sub, s, limit, n, oracle, r, k, 0);
  }

  lemma SelectionVisited(p: Program, sub: Executor, s: State, limit: nat, n: string)
    requires WellFormed(p) && n in p.dispatch && limit > 0 && SupervisorBy(p, limit - 1)
    ensures Visits(p, sub, s, AlwaysDeciding(p, n), limit, n)
  {
    var oracle := AlwaysDeciding(p, n);
    var k :| 0 <= k < limit - 1 && OpenTo(p, k) && Chain(p, To(p.entry), k) == To(p.supervisor.value);
    var r := Attempt(p, sub, s, oracle, limit);
    var t, rest := OpenRun(p, sub, s, oracle, limit, k, r);
    SelectedNext(p, sub, t, oracle, k, limit, n, rest);
    VisitIn(p, sub, s, limit, n, oracle, r, k, 1);
  }

  /** A node is visited by some fresh attempt exactly when the entry's chain comes to it within the
      limit through nodes that can be passed, or it is a capability and the chain comes to the
      Supervisor so with a step to spare. */
  lemma VisitedExactly(p: Program, sub: Executor, limit: nat, input: string, run: string, n: string)
    requires WellFormed(p)
    ensures (exists oracle :: Visits(p, sub, Fresh(input, run), oracle, limit, n)) <==> CanVisit(p, limit, n)
  {
    var s := Fresh(input, run);
    if OnOpenChain(p, limit, n) {
      ChainVisited(p, sub, s, limit, n, AlwaysDeciding(p, n));
    } else if CanVisit(p, limit, n) {
      SelectionVisited(p, sub, s, limit, n);
    } else if oracle :| Visits(p, sub, s, oracle, limit, n) {
      var i :| 0 <= i < |Attempt(p, sub, s, oracle, limit).visits| && Attempt(p, sub, s, oracle, limit).visits[i].node == n;
      VisitedOnlyIf(p, sub, s, oracle, limit, i);
    }
  }

  // ---- later attempts on the thread ----

  /** The thread when another attempt starts on it: the input is appended once more. */
  function Continued(s: State, input: string): State {
    Merged(s, Patch([Message("user", input)], map[], map[], map[]))
  }

  /** The thread's state after the given attempts. */
  function Thread(p: Program, sub: Executor, limit: nat, input: string, run: string, oracles: seq<nat -> Reply>): State
    requires WellFormed(p)
  {
    if oracles == [] then Fresh(input, run)
    else
      var n := |oracles| - 1;
      Continued(Attempt(p, sub, Thread(p, sub, limit, input, run, oracles[..n]), oracles[n], limit).state, input)
  }

  /** A decision in the state was there before, or a Supervisor was visited. */
  lemma {:induction false} DecisionFromSupervisor(p: Program, sub: Executor, s: State, at: Target, oracle: nat -> Reply, k: nat, limit: nat, r: Ran)
    requires WellFormed(p) && TargetKnown(p, at) && k <= limit && r == RunFrom(p, sub, s, at, oracle, k, limit)
    requires HasDecision(r.state) && !HasDecision(s)
    ensures exists x :: x in r.visits && x.kind.Supervisor?
    decreases limit - k
  {
    if at.To? && k < limit {
      var n := p.nodes[at.id];
      var end := RunNode(p.nodes, n, s, oracle(k), sub);
      if end.Patched? {
        assert NodeOk(p, at.id);
        var t := Merged(s, end.patch);
        var next := After(p, at.id, t);
        if n.kind.Supervisor? {
          assert r.visits[0].kind.Supervisor?;
        } else if next.Some? {
          UndecidedNode(p.nodes, n, s, oracle(k), sub);
          var rest := RunFrom(p, sub, t, next.value, oracle, k + 1, limit);
          DecisionFromSupervisor(p, sub, t, next.value, oracle, k + 1, limit, rest);
          var x :| x in rest.visits && x.kind.Supervisor?;
          assert x in r.visits;
        }
      }
    }
  }

  lemma SupervisorVisitOpens(p: Program, sub: Executor, s: State, oracle: nat -> Reply, limit: nat, i: nat)
    requires WellFormed(p) && !HasDecision(s)
    requires var v := Attempt(p, sub, s, oracle, limit).visits; i < |v| && v[i].kind.Supervisor?
    ensures SupervisorOpens(p)
  {
    var v := Attempt(p, sub, s, oracle, limit).visits;
    AttemptFacts(p, sub, s, oracle, limit, v);
    VisitedOnlyIf(p, sub, s, oracle, limit, i);
    assert NodeOk(p, v[i].node);
    assert SupervisorBy(p, limit);
  }

  lemma {:induction false} ThreadDecides(p: Program, sub: Executor, limit: nat, input: string, run: string, oracles: seq<nat -> Reply>)
    requires WellFormed(p)
    ensures HasDecision(Thread(p, sub, limit, input, run, oracles)) ==> SupervisorOpens(p)
  {
    if oracles != [] {
      var n := |oracles| - 1;
      ThreadDecides(p, sub, limit, input, run, oracles[..n]);
      var s := Thread(p, sub, limit, input, run, oracles[..n]);
      AttemptDecides(p, sub, s, oracles[n], limit);
    }
  }

  lemma AttemptDecides(p: Program, sub: Executor, s: State, oracle: nat -> Reply, limit: nat)
    requires WellFormed(p) && (HasDecision(s) ==> SupervisorOpens(p))
    ensures HasDecision(Attempt(p, sub, s, oracle, limit).state) ==> SupervisorOpens(p)
  {
    var r := Attempt(p, sub, s, oracle, limit);
    if HasDecision(r.state) && !HasDecision(s) {
      DecisionFromSupervisor(p, sub, s, To(p.entry), oracle, 0, limit, r);
      var x :| x in r.visits && x.kind.Supervisor?;
      var i :| 0 <= i < |r.visits| && r.visits[i] == x;
      SupervisorVisitOpens(p, sub, s, oracle, limit, i);
    }
  }

  /** However often a run is retried on its thread, no attempt visits a node that no fresh attempt can
      visit. */
  lemma RetriesVisitNoMore(p: Program, sub: Executor, limit: nat, input: string, run: string, oracles: seq<nat -> Reply>,
                           oracle: nat -> Reply, n: string)
    requires WellFormed(p) && Visits(p, sub, Thread(p, sub, limit, input, run, oracles), oracle, limit, n)
    ensures CanVisit(p, limit, n)
  {
    var s := Thread(p, sub, limit, input, run, oracles);
    ThreadDecides(p, sub, limit, input, run, oracles);
    var i :| 0 <= i < |Attempt(p, sub, s, oracle, limit).visits| && Attempt(p, sub, s, oracle, limit).visits[i].node == n;
    VisitedOnlyIf(p, sub, s, oracle, limit, i);
  }

  // ---- all nodes of an accepted graph ----

  /** All llm and transform nodes are on the chain within the limit; and all the other nodes are just
      its exit, or it comes to the Supervisor with a step to spare. */
  predicate AllOnTheWay(p: Program, limit: nat)
    requires WellFormed(p)
  {
    && (forall n :: n in p.nodes && Plain(p.nodes[n].kind) ==> OnOpenChain(p, limit, n))
    && (|| (forall n :: n in p.nodes && !Plain(p.nodes[n].kind) ==> OnOpenChain(p, limit, n))
        || (limit > 0 && SupervisorBy(p, limit - 1)))
  }

  /** Every node of an accepted graph is visited by some fresh attempt exactly when the graph has that
      form. */
  lemma EveryNodeRunsExactly(c: CompiledGraph, sub: Executor, limit: nat, input: string, run: string)
    requires Compiled(c) && Executable(c)
    ensures WellFormed(ProgramOf(c))
    ensures (forall n :: n in c.nodeMap ==> exists oracle :: Visits(ProgramOf(c), sub, Fresh(input, run), oracle, limit, n))
            <==> AllOnTheWay(ProgramOf(c), limit)
  {
    CompiledIsIndexed(c);
    ProgramWellFormed(c);
    var p := ProgramOf(c);
    forall n | n in c.nodeMap
      ensures (exists oracle :: Visits(p, sub, Fresh(input, run), oracle, limit, n)) <==> CanVisit(p, limit, n)
    {
      VisitedExactly(p, sub, limit, input, run, n);
    }
    AllVisitableExactly(p, limit);
  }

  lemma AllVisitableExactly(p: Program, limit: nat)
    requires WellFormed(p)
    ensures (forall n :: n in p.nodes ==> CanVisit(p, limit, n)) <==> AllOnTheWay(p, limit)
  {
    forall n | n in p.nodes
      ensures n in p.dispatch <==> Capability(p.nodes[n].kind) && p.supervisor.Some?
      ensures p.nodes[n].kind.Supervisor? <==> p.supervisor == Some(n)
    {
      assert NodeOk(p, n);
    }
    if limit > 0 && SupervisorBy(p, limit - 1) {
      SpareStep(p, limit);
    }
  }

  lemma SpareStep(p: Program, limit: nat)
    requires WellFormed(p) && limit > 0 && SupervisorBy(p, limit - 1)
    ensures OnOpenChain(p, limit, p.supervisor.value)
  {
    var k :| 0 <= k < limit - 1 && OpenTo(p, k) && Chain(p, To(p.entry), k) == To(p.supervisor.value);
    assert 0 <= k < limit;
  }

  // ---- an accepted node behind a capability that nobody can select ----

  /** A tool is the entry and leads to an llm node; there is no Supervisor. */
  function ToolFirst(): AgentDefinition {
    AgentDefinition([LOOKUP, SUMMARY], [EdgeDef("t", "x", None)], "t")
  }

  lemma NoSupervisor()
    ensures Supervisors(ToolFirst().nodes) == []
  {
    var nodes := ToolFirst().nodes;
    assert nodes[..1] == [LOOKUP] && nodes[..1][..0] == [];
    assert Supervisors([LOOKUP]) == [];
  }

  lemma ToolFirstAccepted()
    ensures ValidDefinition(ToolFirst())
  {
    var d := ToolFirst();
    NoSupervisor();
    assert LOOKUP.id[0] == 't' && SUMMARY.id[0] == 'x';
    assert LOOKUP in d.nodes && SUMMARY in d.nodes;
    var adj, roots := Adjacency(d), Roots(d);
    assert roots == {"t"};
    RootReached(adj, roots, "t");
    assert d.edges[0] in d.edges;
    assert Step(adj, "t", "x");
    StepReached(adj, roots, "t", "x");
  }

  lemma OneEdgeAt(c: CompiledGraph, n: NodeDef)
    requires c == CompiledOf(ToolFirst()) && Indexed(c) && n in c.definition.nodes
    ensures LinearAt(c, n)
    ensures n == LOOKUP ==> NextOf(c, n) == To("x")
  {
    NoSupervisor();
    var edges := ToolFirst().edges;
    assert |LOOKUP.id| == 1 && LOOKUP.id[0] != SUMMARY.id[0];
    assert edges[..0] == [];
    assert Out(edges, "x") == [] && Out(edges, "t") == [edges[0]];
  }

  lemma ToolIsTheExit(p: Program, limit: nat)
    requires WellFormed(p) && p.entry != "x" && p.supervisor.None? && Capability(p.nodes[p.entry].kind)
    ensures !CanVisit(p, limit, "x")
  {
    assert NodeOk(p, p.entry);
    forall k: nat
      ensures Chain(p, To(p.entry), k) == To(p.entry)
    {
      LeftForGood(p, To(p.entry), 0, k);
    }
    if "x" in p.nodes {
      assert NodeOk(p, "x");
    }
  }

  /** The definition passes the validator and both compilers, its program relates the entry to the llm
      node, and yet no attempt on any thread ever visits that node: the tool at the entry always fails,
      because nothing selected it. */
  lemma AcceptedNodeBehindTool(sub: Executor, limit: nat, input: string, run: string, oracles: seq<nat -> Reply>,
                                  oracle: nat -> Reply)
    ensures var c := CompiledOf(ToolFirst());
            && ValidDefinition(ToolFirst()) && Executable(c) && WellFormed(ProgramOf(c))
            && EscapesOnChain(c) && "x" in c.nodeMap && Live(c, "x")
            && !Visits(ProgramOf(c), sub, Thread(ProgramOf(c), sub, limit, input, run, oracles), oracle, limit, "x")
  {
    var c := CompiledOf(ToolFirst());
    ToolFirstAccepted();
    CompiledIsIndexed(c);
    NoSupervisor();
    assert LOOKUP in c.definition.nodes && SUMMARY in c.definition.nodes;
    forall n | n in c.definition.nodes
      ensures LinearAt(c, n)
    {
      OneEdgeAt(c, n);
    }
    ProgramWellFormed(c);
    OneEdgeAt(c, LOOKUP);
    var p := ProgramOf(c);
    assert "t"[0] != "x"[0];
    ToolLeadsToSummary(c);
    ToolIsTheExit(p, limit);
    if Visits(p, sub, Thread(p, sub, limit, input, run, oracles), oracle, limit, "x") {
      RetriesVisitNoMore(p, sub, limit, input, run, oracles, oracle, "x");
    }
  }

  lemma ToolLeadsToSummary(c: CompiledGraph)
    requires Indexed(c) && c.entry == "t" && "t" in c.nodeMap && c.nodeMap["t"] == LOOKUP && NextOf(c, LOOKUP) == To("x")
    ensures Live(c, "x")
  {
    var succ := Successors(ProgramOf(c));
    RootReached(succ, {c.entry}, "t");
    assert Step(succ, "t", "x");
    StepReached(succ, {c.entry}, "t", "x");
  }
}
