/** Agent definitions: nodes, edges, and which node can follow which. */
module Graph {
  import opened Domain

  /** `Gate` is the node type "approval". */
  datatype NodeType = Llm | Supervisor | Tool | Rag | Subagent | Gate | Transform

  predicate Capability(t: NodeType) {
    t.Tool? || t.Rag? || t.Subagent? || t.Gate?
  }

  /** The entries of a node's `config` that decide something here: the types of nested nodes, the
      transform's operation, constant value and output key, and the subagent's setting and task. */
  datatype Config = Config(
    children: seq<Option<string>>,
    operation: Option<string>,
    value: Option<string>,
    outputRef: Option<string>,
    template: Option<string>,
    allowedTools: seq<string>,
    task: string)

  datatype NodeDef = NodeDef(id: string, kind: NodeType, config: Config)

  datatype EdgeDef = EdgeDef(source: string, target: string, condition: Option<string>)

  datatype AgentDefinition = AgentDefinition(nodes: seq<NodeDef>, edges: seq<EdgeDef>, entry: string)

  datatype GraphError =
    | DuplicateId(id: string)
    | UnknownSource(id: string)
    | UnknownTarget(id: string)
    | TooManySupervisors(found: nat)
    | NestedSubagent
    | UnknownEntry(id: string)
    | UnreachableNodes(ids: set<string>)
    | EntryNotANode
    | NeedsOneEdge(id: string)

  datatype Result<+T> = Ok(value: T) | Err(error: GraphError)

  /** `{n.id: n for n in nodes}`. */
  function NodeMap(nodes: seq<NodeDef>): (m: map<string, NodeDef>)
    ensures forall n :: n in m <==> exists i :: 0 <= i < |nodes| && nodes[i].id == n
  {
    if nodes == [] then map[]
    else
      var last := nodes[|nodes| - 1];
      NodeMap(nodes[..|nodes| - 1])[last.id := last]
  }

  predicate DistinctIds(nodes: seq<NodeDef>) {
    forall i, k :: 0 <= i < k < |nodes| ==> nodes[i].id != nodes[k].id
  }

  lemma {:induction false} NodeMapAt(nodes: seq<NodeDef>)
    requires DistinctIds(nodes)
    ensures forall i :: 0 <= i < |nodes| ==> nodes[i].id in NodeMap(nodes) && NodeMap(nodes)[nodes[i].id] == nodes[i]
    ensures forall n :: n in NodeMap(nodes) ==> NodeMap(nodes)[n] in nodes && NodeMap(nodes)[n].id == n
  {
    if nodes != [] {
      NodeMapAt(nodes[..|nodes| - 1]);
    }
  }

  function Ids(nodes: seq<NodeDef>): set<string> {
    set n | n in nodes :: n.id
  }

  /** Ids of the nodes of a group: the supervisors, or the capabilities. */
  function SupervisorIds(nodes: seq<NodeDef>): set<string> {
    set n | n in nodes && n.kind.Supervisor? :: n.id
  }

  function CapabilityIds(nodes: seq<NodeDef>): set<string> {
    set n | n in nodes && Capability(n.kind) :: n.id
  }

  function Targets(edges: seq<EdgeDef>, source: string): set<string> {
    set e | e in edges && e.source == source :: e.target
  }

  predicate EdgesKnown(d: AgentDefinition) {
    forall e :: e in d.edges ==> e.source in Ids(d.nodes) && e.target in Ids(d.nodes)
  }

  /** The explicit edges, the dispatch from a Supervisor to every capability, and the way back. */
  function Neighbours(d: AgentDefinition, n: string): set<string> {
    Targets(d.edges, n)
    + (if n in SupervisorIds(d.nodes) then CapabilityIds(d.nodes) else {})
    + (if n in CapabilityIds(d.nodes) then SupervisorIds(d.nodes) else {})
  }

  function Adjacency(d: AgentDefinition): map<string, set<string>> {
    map n | n in Ids(d.nodes) :: Neighbours(d, n)
  }

  /** Where the search starts: the entry, or for the START marker every node without an incoming
      edge, or every node when there is none of those. */
  function Roots(d: AgentDefinition): set<string> {
    if d.entry in Ids(d.nodes) then {d.entry}
    else
      var sources := set n | n in Ids(d.nodes) && (forall e :: e in d.edges ==> e.target != n);
      if sources == {} then Ids(d.nodes) else sources
  }

  // ---- reachability in any finite successor relation ----

  predicate Step(succ: map<string, set<string>>, a: string, b: string) {
    a in succ && b in succ[a]
  }

  predicate Walk(succ: map<string, set<string>>, p: seq<string>) {
    p != [] && forall i :: 0 <= i < |p| - 1 ==> Step(succ, p[i], p[i + 1])
  }

  ghost predicate Leads(succ: map<string, set<string>>, roots: set<string>, p: seq<string>, n: string) {
    Walk(succ, p) && p[0] in roots && p[|p| - 1] == n
  }

  ghost predicate Reaches(succ: map<string, set<string>>, roots: set<string>, n: string) {
    exists p :: Leads(succ, roots, p, n)
  }

  lemma RootReached(succ: map<string, set<string>>, roots: set<string>, n: string)
    requires n in roots
    ensures Reaches(succ, roots, n)
  {
    assert Leads(succ, roots, [n], n);
  }

  lemma StepReached(succ: map<string, set<string>>, roots: set<string>, a: string, b: string)
    requires Reaches(succ, roots, a) && Step(succ, a, b)
    ensures Reaches(succ, roots, b)
  {
    var p :| Leads(succ, roots, p, a);
    var q := p + [b];
    forall i | 0 <= i < |q| - 1
      ensures Step(succ, q[i], q[i + 1])
    {
      if i < |p| - 1 {
        assert Step(succ, p[i], p[i + 1]);
      }
    }
    assert Leads(succ, roots, q, b);
  }

  ghost predicate ClosedUnder(succ: map<string, set<string>>, s: iset<string>) {
    forall a, b :: a in s && Step(succ, a, b) ==> b in s
  }

  /** A set that holds the roots and is closed under the relation holds every reachable node. */
  lemma {:induction false} ReachedInClosed(succ: map<string, set<string>>, roots: set<string>, p: seq<string>, n: string, s: iset<string>)
    requires Leads(succ, roots, p, n)
    requires (forall r :: r in roots ==> r in s) && ClosedUnder(succ, s)
    ensures n in s
    decreases |p|
  {
    if |p| > 1 {
      var q := p[..|p| - 1];
      forall i | 0 <= i < |q| - 1
        ensures Step(succ, q[i], q[i + 1])
      {
        assert Step(succ, p[i], p[i + 1]);
      }
      ReachedInClosed(succ, roots, q, q[|q| - 1], s);
      assert Step(succ, p[|p| - 2], p[|p| - 2 + 1]);
    }
  }

  /** Same roots, every step of one relation matched by reachability in the other. */
  lemma ReachesMonotone(succ: map<string, set<string>>, other: map<string, set<string>>, roots: set<string>, n: string)
    requires Reaches(succ, roots, n)
    requires forall a, b :: Step(succ, a, b) && Reaches(other, roots, a) ==> Reaches(other, roots, b)
    ensures Reaches(other, roots, n)
  {
    var s := iset a | Reaches(other, roots, a);
    forall r | r in roots
      ensures r in s
    {
      RootReached(other, roots, r);
    }
    var p :| Leads(succ, roots, p, n);
    ReachedInClosed(succ, roots, p, n, s);
  }

  /** Every step of one relation is a step of the other. */
  lemma ReachesMore(succ: map<string, set<string>>, other: map<string, set<string>>, roots: set<string>)
    requires forall a, b :: Step(succ, a, b) ==> Step(other, a, b)
    ensures forall n :: Reaches(succ, roots, n) ==> Reaches(other, roots, n)
  {
    forall n | Reaches(succ, roots, n)
      ensures Reaches(other, roots, n)
    {
      forall a, b | Step(succ, a, b) && Reaches(other, roots, a)
        ensures Reaches(other, roots, b)
      {
        StepReached(other, roots, a, b);
      }
      ReachesMonotone(succ, other, roots, n);
    }
  }
}
