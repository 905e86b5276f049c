/** When the nodes that the validator accepts as reachable are those that the program can reach. */
module Reachability {
  import opened Domain
  import opened Graph
  import opened Validator
  import opened Compiler
  import opened Execution
  import opened Prelude

  /** The node is one of the plain nodes that the program runs through from its entry. */
  predicate OnChain(c: CompiledGraph, n: string)
    requires WellFormed(ProgramOf(c))
  {
    var p := ProgramOf(c);
    exists k :: 0 <= k < |PlainNodes(p)| && Chain(p, To(p.entry), k) == To(n)
  }

  /** Once the chain is outside the plain nodes it stays where it is. */
  lemma {:induction false} LeftForGood(p: Program, at: Target, i: nat, k: nat)
    requires WellFormed(p) && TargetKnown(p, at) && i <= k && !PlainTarget(p, Chain(p, at, i))
    ensures Chain(p, at, k) == Chain(p, at, i)
  {
    if i < k {
      LeftForGood(p, at, i, k - 1);
    }
  }

  /** What the chain ever passes it passes within as many steps as there are plain nodes. */
  lemma {:induction false} PassedEarly(p: Program, at: Target, k: nat) returns (n: nat)
    requires WellFormed(p) && TargetKnown(p, at) && PlainTarget(p, Chain(p, at, k))
    ensures n < |PlainNodes(p)| && Chain(p, at, n) == Chain(p, at, k)
    decreases k
  {
    forall i | 0 <= i <= k
      ensures PlainTarget(p, Chain(p, at, i))
    {
      if !PlainTarget(p, Chain(p, at, i)) {
        LeftForGood(p, at, i, k);
      }
    }
    var a, b := DifferentOrRepeated(p, at, k + 1);
    SubsetCardinality(Visited(p, at, k + 1), PlainNodes(p));
    if k < |PlainNodes(p)| {
      n := k;
    } else {
      SameFuture(p, at, a, b, k - b);
      n := PassedEarly(p, at, a + (k - b));
    }
  }

  lemma {:induction false} ChainIsLive(c: CompiledGraph, k: nat)
    requires Indexed(c) && WellFormed(ProgramOf(c))
    ensures var t := Chain(ProgramOf(c), To(c.entry), k); t.To? ==> Live(c, t.id)
  {
    var p := ProgramOf(c);
    var succ := Successors(p);
    if k == 0 {
      RootReached(succ, {c.entry}, c.entry);
    } else {
      ChainIsLive(c, k - 1);
      var t := Chain(p, To(c.entry), k - 1);
      if PlainTarget(p, t) {
        assert NodeOk(p, t.id);
        var next := p.next[t.id];
        if next.To? {
          assert Step(succ, t.id, next.id);
          StepReached(succ, {c.entry}, t.id, next.id);
        }
      }
    }
  }

  ghost predicate Passed(p: Program, n: string)
    requires WellFormed(p)
  {
    exists k: nat :: Chain(p, To(p.entry), k) == To(n)
  }

  /** With a Supervisor, no step of the program leads to a plain node but the chain's own. */
  lemma PlainStepsAreChain(p: Program, a: string, b: string)
    requires WellFormed(p) && p.supervisor.Some? && Step(Successors(p), a, b)
    requires PlainTarget(p, To(a)) ==> Passed(p, a)
    ensures PlainTarget(p, To(b)) ==> Passed(p, b)
  {
    assert NodeOk(p, a);
    if PlainTarget(p, To(a)) {
      var k: nat :| Chain(p, To(p.entry), k) == To(a);
      assert Chain(p, To(p.entry), k + 1) == To(b);
    } else if b in p.nodes {
      assert NodeOk(p, b);
    }
  }

  /** A plain node of a graph with a Supervisor can be reached by the program exactly when it is on
      the entry's chain. */
  lemma PlainLiveExactly(c: CompiledGraph, n: string)
    requires Indexed(c) && Executable(c) && WellFormed(ProgramOf(c)) && c.supervisor.Some?
    requires PlainTarget(ProgramOf(c), To(n))
    ensures Live(c, n) <==> OnChain(c, n)
  {
    var p := ProgramOf(c);
    var succ := Successors(p);
    if Live(c, n) {
      var s := iset m | PlainTarget(p, To(m)) ==> Passed(p, m);
      assert Chain(p, To(p.entry), 0) == To(p.entry);
      forall a, b | a in s && Step(succ, a, b)
        ensures b in s
      {
        PlainStepsAreChain(p, a, b);
      }
      var path :| Leads(succ, {c.entry}, path, n);
      ReachedInClosed(succ, {c.entry}, path, n, s);
      var k: nat :| Chain(p, To(p.entry), k) == To(n);
      var i := PassedEarly(p, To(p.entry), k);
    } else if k :| 0 <= k < |PlainNodes(p)| && Chain(p, To(p.entry), k) == To(n) {
      ChainIsLive(c, k);
    }
  }

  /** Every explicit edge out of the Supervisor or a capability that leads to a plain node leads to
      one on the entry's chain. */
  predicate EscapesOnChain(c: CompiledGraph)
    requires WellFormed(ProgramOf(c))
  {
    forall e :: e in c.definition.edges && RoutedNode(c, e.source) && !RoutedNode(c, e.target) ==> OnChain(c, e.target)
  }

  lemma EscapesRedundantExactly(c: CompiledGraph)
    requires Indexed(c) && Executable(c) && WellFormed(ProgramOf(c))
    ensures IgnoredEdgesRedundant(c) <==> EscapesOnChain(c)
  {
    forall e | e in c.definition.edges && RoutedNode(c, e.source) && !RoutedNode(c, e.target)
      ensures Live(c, e.target) <==> OnChain(c, e.target)
    {
      EscapeIsPlain(c, e);
      PlainLiveExactly(c, e.target);
    }
  }

  lemma EscapeIsPlain(c: CompiledGraph, e: EdgeDef)
    requires Indexed(c) && e in c.definition.edges && RoutedNode(c, e.source) && !RoutedNode(c, e.target)
    ensures c.supervisor.Some? && PlainTarget(ProgramOf(c), To(e.target))
  {
    assert c.nodeMap[e.source].kind.Supervisor? <==> c.supervisor == Some(e.source);
    assert e.target in c.nodeMap;
  }

  /** The search that accepted the graph and the program agree on every node exactly when each
      explicit edge out of the Supervisor's protocol leads back to the entry's chain. */
  lemma ReachabilityAgreesExactly(c: CompiledGraph)
    requires Compiled(c) && Executable(c)
    ensures WellFormed(ProgramOf(c))
    ensures (forall n :: Reaches(Adjacency(c.definition), Roots(c.definition), n) <==> Live(c, n))
            <==> EscapesOnChain(c)
  {
    CompiledIsIndexed(c);
    ProgramWellFormed(c);
    EscapesRedundantExactly(c);
    AgreesWhenRedundant(c);
  }

  // ---- an accepted node that never runs ----

  const PLAIN := Config([], None, None, None, None, [], "")
  const CHOOSER := NodeDef("s", Supervisor, PLAIN)
  const LOOKUP := NodeDef("t", Tool, PLAIN)
  const SUMMARY := NodeDef("x", Llm, PLAIN)

  /** The tool has an edge to an llm node; the entry is the Supervisor. */
  function Definition(): AgentDefinition {
    AgentDefinition([CHOOSER, LOOKUP, SUMMARY], [EdgeDef("t", "x", None)], "s")
  }

  lemma SupervisorsOf()
    ensures Supervisors(Definition().nodes) == [CHOOSER]
  {
    var nodes := Definition().nodes;
    assert nodes[..2] == [CHOOSER, LOOKUP] && nodes[..2][..1] == [CHOOSER];
    assert Supervisors([CHOOSER]) == [CHOOSER];
    assert Supervisors([CHOOSER, LOOKUP]) == [CHOOSER];
  }

  lemma Accepted()
    ensures ValidDefinition(Definition())
  {
    var d := Definition();
    SupervisorsOf();
    assert CHOOSER.id[0] == 's' && LOOKUP.id[0] == 't' && SUMMARY.id[0] == 'x';
    assert CHOOSER in d.nodes && LOOKUP in d.nodes && SUMMARY in d.nodes;
    SearchAccepts(d);
  }

  lemma SearchAccepts(d: AgentDefinition)
    requires d == Definition() && CHOOSER in d.nodes && LOOKUP in d.nodes && SUMMARY in d.nodes
    ensures AllReachable(d)
  {
    var adj, roots := Adjacency(d), Roots(d);
    assert roots == {"s"};
    RootReached(adj, roots, "s");
    assert Step(adj, "s", "t");
    StepReached(adj, roots, "s", "t");
    assert d.edges[0] in d.edges;
    assert Step(adj, "t", "x");
    StepReached(adj, roots, "t", "x");
  }

  /** The definition passes the validator and both compilers, and no run ever visits the llm node. */
  lemma AcceptedNodeNeverRuns(sub: Executor, s: State, oracle: nat -> Reply, limit: nat)
    ensures var c := CompiledOf(Definition());
            && ValidDefinition(Definition()) && Executable(c)
            && "x" in c.nodeMap && !Live(c, "x")
            && WellFormed(ProgramOf(c))
            && var v := Attempt(ProgramOf(c), sub, s, oracle, limit).visits;
               forall i :: 0 <= i < |v| ==> v[i].node != "x"
  {
    var c := CompiledOf(Definition());
    Accepted();
    CompiledIsIndexed(c);
    SupervisorsOf();
    assert CHOOSER in c.definition.nodes && LOOKUP in c.definition.nodes && SUMMARY in c.definition.nodes;
    forall n | n in c.definition.nodes
      ensures LinearAt(c, n)
    {
      SummaryIsLast(c, n);
    }
    ProgramWellFormed(c);
    assert "s"[0] != "x"[0];
    SummaryNotOnChain(c);
    forall i | 0 <= i < |Attempt(ProgramOf(c), sub, s, oracle, limit).visits|
      ensures Attempt(ProgramOf(c), sub, s, oracle, limit).visits[i].node != "x"
    {
      VisitedIsReachable(ProgramOf(c), sub, s, oracle, limit, i);
    }
  }

  lemma SummaryIsLast(c: CompiledGraph, n: NodeDef)
    requires c == CompiledOf(Definition()) && Indexed(c) && n in c.definition.nodes && c.supervisor.Some?
    ensures LinearAt(c, n)
  {
    assert |LOOKUP.id| == 1 && LOOKUP.id[0] != SUMMARY.id[0];
    assert Definition().edges[..0] == [] && Out(Definition().edges, "x") == [];
  }

  lemma SummaryNotOnChain(c: CompiledGraph)
    requires c == CompiledOf(Definition()) && Indexed(c) && Executable(c) && WellFormed(ProgramOf(c))
    requires "x" in c.nodeMap && c.nodeMap["x"] == SUMMARY && c.supervisor == Some(c.entry) && c.entry != "x"
    ensures !Live(c, "x")
  {
    PlainLiveExactly(c, "x");
    NothingFromSupervisor(ProgramOf(c), "x");
  }

  /** A program that starts at the Supervisor has no chain of plain nodes. */
  lemma NothingFromSupervisor(p: Program, n: string)
    requires WellFormed(p) && p.supervisor == Some(p.entry) && n != p.entry
    ensures forall k: nat :: Chain(p, To(p.entry), k) != To(n)
  {
    assert NodeOk(p, p.entry);
    forall k: nat
      ensures Chain(p, To(p.entry), k) == To(p.entry)
    {
      LeftForGood(p, To(p.entry), 0, k);
    }
  }
}
