/** From a definition to the compiled graph, and from that to the program that is run. */
module Compiler {
  import opened Domain
  import opened Graph
  import opened Validator

  datatype CompiledGraph = CompiledGraph(
    definition: AgentDefinition,
    nodeMap: map<string, NodeDef>,
    outEdges: map<string, seq<EdgeDef>>,
    supervisor: Option<string>,
    entry: string)

  /** The explicit edges that leave a node, in the order of the definition. */
  function Out(edges: seq<EdgeDef>, n: string): (q: seq<EdgeDef>)
    ensures forall e :: e in q <==> e in edges && e.source == n
  {
    if edges == [] then []
    else
      var last := edges[|edges| - 1];
      Out(edges[..|edges| - 1], n) + if last.source == n then [last] else []
  }

  function FirstSupervisor(d: AgentDefinition): Option<string> {
    var s := Supervisors(d.nodes);
    if s == [] then None else Some(s[0].id)
  }

  function CompiledOf(d: AgentDefinition): CompiledGraph {
    CompiledGraph(d, NodeMap(d.nodes), map n | n in Ids(d.nodes) :: Out(d.edges, n), FirstSupervisor(d), d.entry)
  }

  method CompileGraph(d: AgentDefinition) returns (r: Result<CompiledGraph>)
    ensures r.Ok? <==> ValidDefinition(d)
    ensures r.Ok? ==> r.value == CompiledOf(d)
    ensures r.Err? ==> Blames(d, r.error)
  {
    var failed := ValidateGraph(d);
    if failed.Some? {
      return Err(failed.value);
    }
    var c := Index(d);
    return Ok(c);
  }

  method Index(d: AgentDefinition) returns (c: CompiledGraph)
    requires EdgesKnown(d)
    ensures c == CompiledOf(d)
  {
    var nodeMap := NodeMap(d.nodes);
    var outEdges := IndexEdges(Ids(d.nodes), d.edges);
    var supervisors := Supervisors(d.nodes);
    var supervisor := if supervisors != [] then Some(supervisors[0].id) else None;
    return CompiledGraph(d, nodeMap, outEdges, supervisor, d.entry);
  }

  /** The loop that files every edge under its source. */
  method IndexEdges(ids: set<string>, edges: seq<EdgeDef>) returns (index: map<string, seq<EdgeDef>>)
    requires forall e :: e in edges ==> e.source in ids
    ensures index == map n | n in ids :: Out(edges, n)
  {
    index := map n | n in ids :: [];
    for i := 0 to |edges|
      invariant Filed(ids, edges[..i], index)
    {
      assert edges[i] in edges;
      assert edges[..i + 1] == edges[..i] + [edges[i]];
      index := FileEdge(ids, edges[..i], index, edges[i]);
    }
    assert edges[..|edges|] == edges;
  }

  ghost predicate Filed(ids: set<string>, edges: seq<EdgeDef>, index: map<string, seq<EdgeDef>>) {
    index.Keys == ids && forall n :: n in ids ==> index[n] == Out(edges, n)
  }

  method FileEdge(ghost ids: set<string>, ghost done: seq<EdgeDef>, index: map<string, seq<EdgeDef>>, edge: EdgeDef)
    returns (more: map<string, seq<EdgeDef>>)
    requires Filed(ids, done, index) && edge.source in ids
    ensures Filed(ids, done + [edge], more)
  {
    more := index[edge.source := (if edge.source in index then index[edge.source] else []) + [edge]];
    forall n | n in ids
      ensures more[n] == Out(done + [edge], n)
    {
      assert (done + [edge])[..|done|] == done && (done + [edge])[|done|] == edge;
    }
  }

  /** A compiled graph as `CompileGraph` returns it. */
  ghost predicate Compiled(c: CompiledGraph) {
    ValidDefinition(c.definition) && c == CompiledOf(c.definition)
  }

  // ---- the program ----

  datatype Target = Finish | To(id: string)

  /** One fixed successor for every node but the Supervisor, and the Supervisor's path map without
      its `__end__` entry. */
  datatype Program = Program(
    nodes: map<string, NodeDef>,
    entry: string,
    supervisor: Option<string>,
    next: map<string, Target>,
    dispatch: set<string>)

  /** The node's successor is decided by the Supervisor's protocol, not by its explicit edges. */
  predicate Routed(kind: NodeType, supervisor: Option<string>) {
    kind.Supervisor? || (Capability(kind) && supervisor.Some?)
  }

  predicate Linear(edges: seq<EdgeDef>) {
    edges == [] || (|edges| == 1 && edges[0].condition.None?)
  }

  predicate LinearAt(c: CompiledGraph, n: NodeDef) {
    Routed(n.kind, c.supervisor) || (n.id in c.outEdges && Linear(c.outEdges[n.id]))
  }

  predicate Executable(c: CompiledGraph) {
    c.entry in c.nodeMap && forall n :: n in c.definition.nodes ==> LinearAt(c, n)
  }

  function NextOf(c: CompiledGraph, n: NodeDef): Target {
    if Capability(n.kind) && c.supervisor.Some? then To(c.supervisor.value)
    else if n.id !in c.outEdges || c.outEdges[n.id] == [] then Finish
    else To(c.outEdges[n.id][0].target)
  }

  function CapabilitiesOf(nodes: map<string, NodeDef>): set<string> {
    set id | id in nodes && Capability(nodes[id].kind)
  }

  function ProgramOf(c: CompiledGraph): Program {
    Program(
      c.nodeMap, c.entry, c.supervisor,
      map n | n in c.nodeMap && !c.nodeMap[n].kind.Supervisor? :: NextOf(c, c.nodeMap[n]),
      if c.supervisor.Some? then CapabilitiesOf(c.nodeMap) else {})
  }

  /** The parts of a compiled graph fit together. */
  ghost predicate Indexed(c: CompiledGraph) {
    && (forall n :: n in c.definition.nodes ==> n.id in c.nodeMap && c.nodeMap[n.id] == n)
    && (forall id :: id in c.nodeMap ==> c.nodeMap[id] in c.definition.nodes && c.nodeMap[id].id == id)
    && c.outEdges.Keys == c.nodeMap.Keys
    && (forall id, e :: id in c.nodeMap ==>
          (e in c.outEdges[id] <==> e in c.definition.edges && e.source == id))
    && (forall e :: e in c.definition.edges ==> e.source in c.nodeMap && e.target in c.nodeMap)
    && (forall id :: id in c.nodeMap ==> (c.nodeMap[id].kind.Supervisor? <==> c.supervisor == Some(id)))
    && (c.supervisor.Some? ==> c.supervisor.value in c.nodeMap)
  }

  lemma KeysAreIds(nodes: seq<NodeDef>)
    ensures NodeMap(nodes).Keys == Ids(nodes)
  {
    forall id | id in Ids(nodes)
      ensures id in NodeMap(nodes)
    {
      var n :| n in nodes && n.id == id;
      var i :| 0 <= i < |nodes| && nodes[i] == n;
    }
  }

  lemma SupervisorIndexed(d: AgentDefinition)
    requires DistinctIds(d.nodes) && OneSupervisor(d.nodes)
    ensures var m := NodeMap(d.nodes);
            forall id :: id in m ==> (m[id].kind.Supervisor? <==> FirstSupervisor(d) == Some(id))
    ensures FirstSupervisor(d).Some? ==> FirstSupervisor(d).value in NodeMap(d.nodes)
  {
    NodeMapAt(d.nodes);
    var m := NodeMap(d.nodes);
    var s := Supervisors(d.nodes);
    if s != [] {
      var first := s[0];
      assert first in s;
      var i :| 0 <= i < |d.nodes| && d.nodes[i] == first;
      assert m[first.id] == first;
    }
    forall id | id in m
      ensures m[id].kind.Supervisor? <==> FirstSupervisor(d) == Some(id)
    {
      assert m[id] in d.nodes && m[id].id == id;
      if m[id].kind.Supervisor? {
        assert m[id] in s;
      }
    }
  }

  lemma CompiledIsIndexed(c: CompiledGraph)
    requires Compiled(c)
    ensures Indexed(c)
    ensures c.nodeMap.Keys == Ids(c.definition.nodes)
  {
    var d := c.definition;
    KeysAreIds(d.nodes);
    SupervisorIndexed(d);
    NodeMapAt(d.nodes);
  }

  /** The program is built exactly when the entry is a node and every node outside the
      Supervisor's protocol has at most one explicit edge, without a condition. */
  method CompileLanggraph(c: CompiledGraph) returns (r: Result<Program>)
    requires Indexed(c)
    ensures r.Ok? <==> Executable(c)
    ensures r.Ok? ==> r.value == ProgramOf(c)
    ensures r.Err? ==>
              if c.entry !in c.nodeMap then r.error == EntryNotANode
              else exists n :: n in c.definition.nodes && !LinearAt(c, n) && r.error == NeedsOneEdge(n.id)
  {
    if c.entry !in c.nodeMap {
      return Err(EntryNotANode);
    }
    var next: map<string, Target> := map[];
    var dispatch: set<string> := {};
    var nodes := c.definition.nodes;
    for i := 0 to |nodes|
      invariant forall n :: n in nodes[..i] ==> LinearAt(c, n)
      invariant Wired(c, nodes[..i], next, dispatch)
    {
      var node := nodes[i];
      assert node in nodes;
      assert nodes[..i + 1] == nodes[..i] + [node];
      if node.kind.Supervisor? {
        dispatch := PathMap(c);
        continue;
      }
      var edge := FixedEdge(c, node);
      if edge.Err? {
        return Err(edge.error);
      }
      WiredOne(c, nodes[..i], node, next, edge.value, dispatch);
      next := next[node.id := edge.value];
    }
    assert nodes[..|nodes|] == nodes;
    AllWired(c, next, dispatch);
    return Ok(Program(c.nodeMap, c.entry, c.supervisor, next, dispatch));
  }

  /** The one edge a node outside the Supervisor gets. */
  method FixedEdge(c: CompiledGraph, node: NodeDef) returns (r: Result<Target>)
    requires node.id in c.outEdges && !node.kind.Supervisor?
    ensures r.Ok? <==> LinearAt(c, node)
    ensures r.Ok? ==> r.value == NextOf(c, node)
    ensures r.Err? ==> r.error == NeedsOneEdge(node.id)
  {
    if Capability(node.kind) && c.supervisor.Some? {
      return Ok(To(c.supervisor.value));
    }
    var edges := c.outEdges[node.id];
    if edges == [] {
      return Ok(Finish);
    }
    if !(|edges| == 1 && edges[0].condition.None?) {
      return Err(NeedsOneEdge(node.id));
    }
    return Ok(To(edges[0].target));
  }

  /** The edges added so far are those of the nodes seen so far. */
  ghost predicate Wired(c: CompiledGraph, seen: seq<NodeDef>, next: map<string, Target>, dispatch: set<string>) {
    && (forall n :: n in seen && !n.kind.Supervisor? ==> n.id in next && next[n.id] == NextOf(c, n))
    && (forall id :: id in next ==> id in c.nodeMap && c.nodeMap[id] in seen && !c.nodeMap[id].kind.Supervisor?)
    && dispatch == if exists n :: n in seen && n.kind.Supervisor? then CapabilitiesOf(c.nodeMap) else {}
  }

  lemma WiredOne(c: CompiledGraph, seen: seq<NodeDef>, node: NodeDef, next: map<string, Target>,
                 target: Target, dispatch: set<string>)
    requires Indexed(c) && node in c.definition.nodes && (forall n :: n in seen ==> n in c.definition.nodes)
    requires !node.kind.Supervisor? && target == NextOf(c, node)
    requires Wired(c, seen, next, dispatch)
    ensures Wired(c, seen + [node], next[node.id := target], dispatch)
  {
    assert (exists n :: n in seen + [node] && n.kind.Supervisor?) <==> exists n :: n in seen && n.kind.Supervisor?;
  }

  lemma AllWired(c: CompiledGraph, next: map<string, Target>, dispatch: set<string>)
    requires Indexed(c) && Wired(c, c.definition.nodes, next, dispatch)
    ensures next == ProgramOf(c).next && dispatch == ProgramOf(c).dispatch
  {
    if c.supervisor.Some? {
      assert c.nodeMap[c.supervisor.value].kind.Supervisor?;
    }
    forall id
      ensures id in next <==> id in ProgramOf(c).next
    {
    }
  }

  method PathMap(c: CompiledGraph) returns (paths: set<string>)
    requires Indexed(c)
    ensures paths == CapabilitiesOf(c.nodeMap)
  {
    var nodes := c.definition.nodes;
    paths := {};
    for i := 0 to |nodes|
      invariant forall id :: id in paths <==> id in c.nodeMap && c.nodeMap[id] in nodes[..i] && Capability(c.nodeMap[id].kind)
    {
      assert nodes[i] in nodes;
      assert nodes[..i + 1] == nodes[..i] + [nodes[i]];
      if Capability(nodes[i].kind) {
        paths := paths + {nodes[i].id};
      }
    }
    assert nodes[..|nodes|] == nodes;
  }

  // ---- what every program satisfies ----

  predicate TargetKnown(p: Program, t: Target) {
    t.To? ==> t.id in p.nodes
  }

  predicate NodeOk(p: Program, id: string) {
    && id in p.nodes
    && p.nodes[id].id == id
    && (p.nodes[id].kind.Supervisor? <==> p.supervisor == Some(id))
    && (!p.nodes[id].kind.Supervisor? ==> id in p.next && TargetKnown(p, p.next[id]))
    && (Capability(p.nodes[id].kind) && p.supervisor.Some? ==> p.next[id] == To(p.supervisor.value))
    && (id in p.dispatch <==> Capability(p.nodes[id].kind) && p.supervisor.Some?)
  }

  predicate WellFormed(p: Program) {
    && p.entry in p.nodes
    && (forall id :: id in p.nodes ==> NodeOk(p, id))
    && (forall id :: id in p.dispatch ==> id in p.nodes)
    && (p.supervisor.Some? ==> p.supervisor.value in p.nodes)
  }

  lemma ProgramWellFormed(c: CompiledGraph)
    requires Indexed(c) && Executable(c)
    ensures WellFormed(ProgramOf(c))
  {
    var p := ProgramOf(c);
    forall id | id in p.nodes
      ensures NodeOk(p, id)
    {
      var n := c.nodeMap[id];
      if !n.kind.Supervisor? && !(Capability(n.kind) && c.supervisor.Some?) && c.outEdges[id] != [] {
        assert c.outEdges[id][0] in c.outEdges[id];
      }
    }
  }

  // ---- the validator's reachability against the program's ----

  /** The nodes a node can be followed by when the program runs. */
  function Successors(p: Program): map<string, set<string>> {
    map id | id in p.nodes ::
      if p.nodes[id].kind.Supervisor? then p.dispatch
      else if id in p.next && p.next[id].To? then {p.next[id].id} else {}
  }

  predicate RoutedNode(c: CompiledGraph, id: string) {
    id in c.nodeMap && Routed(c.nodeMap[id].kind, c.supervisor)
  }

  ghost predicate Live(c: CompiledGraph, id: string) {
    Reaches(Successors(ProgramOf(c)), {c.entry}, id)
  }

  ghost predicate HasEdge(c: CompiledGraph, a: string, b: string) {
    exists e :: e in c.definition.edges && e.source == a && e.target == b
  }

  /** The validator's relation, in terms of the compiled graph. */
  lemma AdjacencyMeans(c: CompiledGraph, a: string, b: string)
    requires Indexed(c)
    ensures Step(Adjacency(c.definition), a, b) <==>
            && a in c.nodeMap
            && (|| HasEdge(c, a, b)
                || (c.supervisor == Some(a) && b in CapabilitiesOf(c.nodeMap))
                || (a in CapabilitiesOf(c.nodeMap) && c.supervisor == Some(b)))
  {
    var d := c.definition;
    assert a in Ids(d.nodes) <==> a in c.nodeMap;
    assert b in Targets(d.edges, a) <==> HasEdge(c, a, b);
    forall id
      ensures id in CapabilityIds(d.nodes) <==> id in CapabilitiesOf(c.nodeMap)
      ensures id in SupervisorIds(d.nodes) <==> c.supervisor == Some(id)
    {
      if id in c.nodeMap {
        assert c.nodeMap[id] in d.nodes;
      }
    }
  }

  /** The program's relation, in terms of the compiled graph. */
  lemma StepMeans(c: CompiledGraph, a: string, b: string)
    requires Indexed(c)
    ensures Step(Successors(ProgramOf(c)), a, b) <==>
            && a in c.nodeMap
            && if c.nodeMap[a].kind.Supervisor? then b in CapabilitiesOf(c.nodeMap) else NextOf(c, c.nodeMap[a]) == To(b)
  {
  }

  /** Every step the program can take is a step of the validator's relation. */
  lemma SuccessorsAreAdjacent(c: CompiledGraph, a: string, b: string)
    requires Indexed(c) && Executable(c)
    requires Step(Successors(ProgramOf(c)), a, b)
    ensures Step(Adjacency(c.definition), a, b)
  {
    StepMeans(c, a, b);
    AdjacencyMeans(c, a, b);
    if !RoutedNode(c, a) {
      assert c.outEdges[a][0] in c.outEdges[a];
    }
  }

  /** A node outside the protocol is followed by the target of its one edge. */
  lemma LinearNext(c: CompiledGraph, a: string, b: string)
    requires Indexed(c) && Executable(c) && a in c.nodeMap && !RoutedNode(c, a) && HasEdge(c, a, b)
    ensures NextOf(c, c.nodeMap[a]) == To(b)
  {
    assert LinearAt(c, c.nodeMap[a]);
    var e :| e in c.definition.edges && e.source == a && e.target == b;
    assert e in c.outEdges[a];
  }

  /** A step of the validator's relation is a step of the program, or an explicit edge that the
      program ignores. */
  lemma AdjacentOrIgnored(c: CompiledGraph, a: string, b: string)
    requires Indexed(c) && Executable(c)
    requires Step(Adjacency(c.definition), a, b)
    ensures Step(Successors(ProgramOf(c)), a, b) || (RoutedNode(c, a) && HasEdge(c, a, b))
  {
    AdjacencyMeans(c, a, b);
    StepMeans(c, a, b);
    if HasEdge(c, a, b) && !RoutedNode(c, a) {
      LinearNext(c, a, b);
    }
  }

  /** The validator's verdict, once the entry is known to be a node. */
  ghost predicate Validated(c: CompiledGraph) {
    forall id :: id in c.nodeMap ==> Reaches(Adjacency(c.definition), {c.entry}, id)
  }

  lemma CompiledIsValidated(c: CompiledGraph)
    requires Compiled(c) && c.entry in c.nodeMap
    ensures Validated(c) && Roots(c.definition) == {c.entry}
  {
    KeysAreIds(c.definition.nodes);
    assert Roots(c.definition) == {c.entry};
  }

  /** Every node of the Supervisor's protocol is live. */
  lemma ProtocolEntered(c: CompiledGraph, id: string)
    requires Indexed(c) && Executable(c) && Validated(c) && RoutedNode(c, id)
    ensures Live(c, id)
  {
    var succ := Successors(ProgramOf(c));
    var adj := Adjacency(c.definition);
    // Until the protocol is entered, the validator's path is one the program can take.
    var s := iset n | Live(c, n) || exists m :: Live(c, m) && RoutedNode(c, m);
    forall a, b | a in s && Step(adj, a, b)
      ensures b in s
    {
      if !exists m :: Live(c, m) && RoutedNode(c, m) {
        AdjacentOrIgnored(c, a, b);
        StepReached(succ, {c.entry}, a, b);
      }
    }
    RootReached(succ, {c.entry}, c.entry);
    var p :| Leads(adj, {c.entry}, p, id);
    ReachedInClosed(adj, {c.entry}, p, id, s);
    if !Live(c, id) {
      var m :| Live(c, m) && RoutedNode(c, m);
      ProtocolConnected(c, m, id);
    }
  }

  lemma ProtocolConnected(c: CompiledGraph, m: string, id: string)
    requires Indexed(c) && Executable(c) && RoutedNode(c, m) && RoutedNode(c, id)
    requires Live(c, m)
    ensures Live(c, id)
  {
    ProgramWellFormed(c);
    var p := ProgramOf(c);
    var succ := Successors(p);
    assert NodeOk(p, m) && NodeOk(p, id);
    var s := c.supervisor.value;
    if m != s {
      assert Step(succ, m, s);
      StepReached(succ, {c.entry}, m, s);
    }
    if id != s {
      assert NodeOk(p, s);
      assert Step(succ, s, id);
      StepReached(succ, {c.entry}, s, id);
    }
  }

  /** No explicit edge out of the Supervisor or a capability leads to a node outside their protocol
      that the program cannot reach without that edge. */
  ghost predicate IgnoredEdgesRedundant(c: CompiledGraph) {
    forall e :: e in c.definition.edges && RoutedNode(c, e.source) && !RoutedNode(c, e.target) ==> Live(c, e.target)
  }

  lemma RedundantKeepsLive(c: CompiledGraph, a: string, b: string)
    requires Indexed(c) && Executable(c) && Validated(c) && IgnoredEdgesRedundant(c)
    requires Step(Adjacency(c.definition), a, b) && Live(c, a)
    ensures Live(c, b)
  {
    AdjacentOrIgnored(c, a, b);
    if Step(Successors(ProgramOf(c)), a, b) {
      StepReached(Successors(ProgramOf(c)), {c.entry}, a, b);
    } else if RoutedNode(c, b) {
      ProtocolEntered(c, b);
    }
  }

  /** The search that accepted the graph and the program agree on every node exactly when the
      edges that the program ignores are redundant. The module Reachability says when they are. */
  lemma AgreesWhenRedundant(c: CompiledGraph)
    requires Compiled(c) && Executable(c)
    ensures (forall n :: Reaches(Adjacency(c.definition), Roots(c.definition), n) <==> Live(c, n))
            <==> IgnoredEdgesRedundant(c)
  {
    CompiledIsIndexed(c);
    CompiledIsValidated(c);
    LiveIsAccepted(c);
    if IgnoredEdgesRedundant(c) {
      AcceptedIsLive(c, Adjacency(c.definition));
    }
  }

  lemma LiveIsAccepted(c: CompiledGraph)
    requires Indexed(c) && Executable(c)
    ensures forall n :: Live(c, n) ==> Reaches(Adjacency(c.definition), {c.entry}, n)
  {
    forall a, b | Step(Successors(ProgramOf(c)), a, b)
      ensures Step(Adjacency(c.definition), a, b)
    {
      SuccessorsAreAdjacent(c, a, b);
    }
    ReachesMore(Successors(ProgramOf(c)), Adjacency(c.definition), {c.entry});
  }

  lemma AcceptedIsLive(c: CompiledGraph, adj: map<string, set<string>>)
    requires Indexed(c) && Executable(c) && Validated(c) && IgnoredEdgesRedundant(c)
    requires adj == Adjacency(c.definition)
    ensures forall n :: Reaches(adj, {c.entry}, n) ==> Live(c, n)
  {
    forall n | Reaches(adj, {c.entry}, n)
      ensures Live(c, n)
    {
      forall a, b | Step(adj, a, b) && Live(c, a)
        ensures Live(c, b)
      {
        RedundantKeepsLive(c, a, b);
      }
      ReachesMonotone(adj, Successors(ProgramOf(c)), {c.entry}, n);
    }
  }

  /** In particular they agree when no explicit edge leads from the Supervisor or a capability to
      a node outside their protocol; then every accepted node can be reached at run time. */
  lemma NoEscapesAgree(c: CompiledGraph)
    requires Compiled(c) && Executable(c)
    requires forall e :: e in c.definition.edges && RoutedNode(c, e.source) ==> RoutedNode(c, e.target)
    ensures forall n :: Reaches(Adjacency(c.definition), Roots(c.definition), n) <==> Live(c, n)
    ensures forall n :: n in c.nodeMap ==> Live(c, n)
  {
    AgreesWhenRedundant(c);
    CompiledIsValidated(c);
  }
}
