/** The semantic checks on a definition, in the order in which they run. */
module Validator {
  import opened Domain
  import opened Graph

  predicate OneSupervisor(nodes: seq<NodeDef>) {
    |Supervisors(nodes)| <= 1
  }

  /** `[n for n in nodes if n.type == "supervisor"]`. */
  function Supervisors(nodes: seq<NodeDef>): (q: seq<NodeDef>)
    ensures forall n :: n in q <==> n in nodes && n.kind.Supervisor?
  {
    if nodes == [] then []
    else
      var last := nodes[|nodes| - 1];
      Supervisors(nodes[..|nodes| - 1]) + if last.kind.Supervisor? then [last] else []
  }

  predicate Nests(n: NodeDef) {
    n.kind.Subagent? && Some("subagent") in n.config.children
  }

  predicate FlatSubagents(nodes: seq<NodeDef>) {
    forall n :: n in nodes ==> !Nests(n)
  }

  predicate EntryKnown(d: AgentDefinition) {
    d.entry == "START" || d.entry in Ids(d.nodes)
  }

  ghost predicate AllReachable(d: AgentDefinition) {
    forall n :: n in Ids(d.nodes) ==> Reaches(Adjacency(d), Roots(d), n)
  }

  /** What a definition has to satisfy. */
  ghost predicate ValidDefinition(d: AgentDefinition) {
    && DistinctIds(d.nodes)
    && EdgesKnown(d)
    && OneSupervisor(d.nodes)
    && FlatSubagents(d.nodes)
    && EntryKnown(d)
    && AllReachable(d)
  }

  predicate FirstDuplicate(nodes: seq<NodeDef>, i: nat, id: string) {
    i < |nodes| && nodes[i].id == id && id in Ids(nodes[..i]) && DistinctIds(nodes[..i])
  }

  predicate FirstBadEdge(d: AgentDefinition, i: nat) {
    && i < |d.edges|
    && EdgesKnown(d.(edges := d.edges[..i]))
    && !(d.edges[i].source in Ids(d.nodes) && d.edges[i].target in Ids(d.nodes))
  }

  /** The error is the one of the first check that fails, and its detail is right. */
  ghost predicate Blames(d: AgentDefinition, e: GraphError) {
    match e
    case DuplicateId(id) => exists i: nat :: FirstDuplicate(d.nodes, i, id)
    case UnknownSource(id) =>
      && DistinctIds(d.nodes)
      && exists i: nat :: FirstBadEdge(d, i) && d.edges[i].source == id && id !in Ids(d.nodes)
    case UnknownTarget(id) =>
      && DistinctIds(d.nodes)
      && exists i: nat :: FirstBadEdge(d, i) && d.edges[i].source in Ids(d.nodes) && d.edges[i].target == id
    case TooManySupervisors(n) =>
      && DistinctIds(d.nodes) && EdgesKnown(d)
      && n == |Supervisors(d.nodes)| > 1
    case NestedSubagent =>
      && DistinctIds(d.nodes) && EdgesKnown(d) && OneSupervisor(d.nodes)
      && !FlatSubagents(d.nodes)
    case UnknownEntry(id) =>
      && DistinctIds(d.nodes) && EdgesKnown(d) && OneSupervisor(d.nodes) && FlatSubagents(d.nodes)
      && id == d.entry && !EntryKnown(d)
    case UnreachableNodes(ids) =>
      && DistinctIds(d.nodes) && EdgesKnown(d) && OneSupervisor(d.nodes) && FlatSubagents(d.nodes) && EntryKnown(d)
      && ids != {}
      && (forall n :: n in ids <==> n in Ids(d.nodes) && !Reaches(Adjacency(d), Roots(d), n))
    case EntryNotANode => false
    case NeedsOneEdge(_) => false
  }

  /** An error is only ever blamed on a definition that is not valid. */
  lemma BlamedIsInvalid(d: AgentDefinition, e: GraphError)
    requires Blames(d, e)
    ensures !ValidDefinition(d)
  {
    match e
    case DuplicateId(id) =>
      var i: nat :| FirstDuplicate(d.nodes, i, id);
      var n :| n in d.nodes[..i] && n.id == id;
      var k :| 0 <= k < i && d.nodes[k] == n;
      assert d.nodes[k].id == d.nodes[i].id;
    case UnknownSource(id) =>
      var i: nat :| FirstBadEdge(d, i) && d.edges[i].source == id && id !in Ids(d.nodes);
      assert d.edges[i] in d.edges;
    case UnknownTarget(id) =>
      var i: nat :| FirstBadEdge(d, i) && d.edges[i].source in Ids(d.nodes) && d.edges[i].target == id;
      assert d.edges[i] in d.edges;
    case TooManySupervisors(_) =>
    case NestedSubagent =>
    case UnknownEntry(_) =>
    case UnreachableNodes(ids) =>
      var n :| n in ids;
      assert !Reaches(Adjacency(d), Roots(d), n);
    case EntryNotANode =>
    case NeedsOneEdge(_) =>
  }

  function AsSet(q: seq<string>): set<string> {
    set r | r in q
  }

  /** The members of a set in some order. */
  method Listed(s: set<string>) returns (q: seq<string>)
    ensures forall x :: x in q <==> x in s
    ensures |q| == |s|
  {
    q := [];
    var rest := s;
    while rest != {}
      invariant rest <= s
      invariant forall x :: x in q <==> x in s - rest
      invariant |q| + |rest| == |s|
    {
      var x :| x in rest;
      q := q + [x];
      rest := rest - {x};
    }
  }

  method CheckNoDuplicateIds(d: AgentDefinition) returns (e: Option<GraphError>)
    ensures e.None? <==> DistinctIds(d.nodes)
    ensures e.Some? ==> e.value.DuplicateId? && Blames(d, e.value)
  {
    var seen: set<string> := {};
    for i := 0 to |d.nodes|
      invariant seen == Ids(d.nodes[..i]) && DistinctIds(d.nodes[..i])
    {
      var node := d.nodes[i];
      if node.id in seen {
        assert FirstDuplicate(d.nodes, i, node.id);
        BlamedIsInvalidId(d, i);
        return Some(DuplicateId(node.id));
      }
      seen := seen + {node.id};
      assert d.nodes[..i + 1] == d.nodes[..i] + [node];
      assert forall k :: 0 <= k < i ==> d.nodes[..i][k].id in Ids(d.nodes[..i]);
    }
    assert d.nodes[..|d.nodes|] == d.nodes;
    return None;
  }

  lemma BlamedIsInvalidId(d: AgentDefinition, i: nat)
    requires i < |d.nodes| && d.nodes[i].id in Ids(d.nodes[..i])
    ensures !DistinctIds(d.nodes)
  {
    var n :| n in d.nodes[..i] && n.id == d.nodes[i].id;
    var k :| 0 <= k < i && d.nodes[k] == n;
    assert d.nodes[k].id == d.nodes[i].id;
  }

  method CheckAllEdgesValid(d: AgentDefinition) returns (e: Option<GraphError>)
    requires DistinctIds(d.nodes)
    ensures e.None? <==> EdgesKnown(d)
    ensures e.Some? ==> (e.value.UnknownSource? || e.value.UnknownTarget?) && Blames(d, e.value)
  {
    var known := Ids(d.nodes);
    for i := 0 to |d.edges|
      invariant EdgesKnown(d.(edges := d.edges[..i]))
    {
      var edge := d.edges[i];
      assert edge in d.edges;
      if edge.source !in known {
        assert FirstBadEdge(d, i);
        return Some(UnknownSource(edge.source));
      }
      if edge.target !in known {
        assert FirstBadEdge(d, i);
        return Some(UnknownTarget(edge.target));
      }
      assert d.edges[..i + 1] == d.edges[..i] + [edge];
    }
    assert d.edges[..|d.edges|] == d.edges;
    return None;
  }

  method CheckNoNestedSubagent(nodes: seq<NodeDef>) returns (nested: bool)
    ensures nested <==> !FlatSubagents(nodes)
  {
    for i := 0 to |nodes|
      invariant FlatSubagents(nodes[..i])
    {
      if nodes[i].kind.Subagent? {
        var children := nodes[i].config.children;
        for k := 0 to |children|
          invariant Some("subagent") !in children[..k]
        {
          if children[k] == Some("subagent") {
            assert Nests(nodes[i]);
            return true;
          }
        }
        assert children[..|children|] == children;
      }
      assert nodes[..i + 1] == nodes[..i] + [nodes[i]];
    }
    assert nodes[..|nodes|] == nodes;
    return false;
  }

  /** Dispatch from a Supervisor, or the way back. */
  predicate Joined(supervisors: set<string>, capabilities: set<string>, a: string, b: string) {
    (a in supervisors && b in capabilities) || (a in capabilities && b in supervisors)
  }

  /** `now` has the neighbours of `before` and the joined pairs. */
  ghost predicate Added(before: map<string, set<string>>, now: map<string, set<string>>,
                        supervisors: set<string>, capabilities: set<string>) {
    && now.Keys == before.Keys
    && forall a, b :: a in before ==> (b in now[a] <==> b in before[a] || Joined(supervisors, capabilities, a, b))
  }

  method ExplicitAdjacency(d: AgentDefinition) returns (adjacency: map<string, set<string>>)
    requires EdgesKnown(d)
    ensures adjacency == map n | n in Ids(d.nodes) :: Targets(d.edges, n)
  {
    var known := Ids(d.nodes);
    adjacency := map n | n in known :: {};
    for i := 0 to |d.edges|
      invariant adjacency.Keys == known
      invariant forall n :: n in known ==> adjacency[n] == Targets(d.edges[..i], n)
    {
      var edge := d.edges[i];
      assert d.edges[..i + 1] == d.edges[..i] + [edge];
      assert edge in d.edges;
      adjacency := adjacency[edge.source := adjacency[edge.source] + {edge.target}];
    }
    assert d.edges[..|d.edges|] == d.edges;
  }

  lemma CapabilityIdsExtended(nodes: seq<NodeDef>, k: nat)
    requires k < |nodes|
    ensures CapabilityIds(nodes[..k + 1]) ==
            CapabilityIds(nodes[..k]) + (if Capability(nodes[k].kind) then {nodes[k].id} else {})
  {
    assert nodes[..k + 1] == nodes[..k] + [nodes[k]];
  }

  /** Dispatch and return edges of one Supervisor. */
  method LinkSupervisor(before: map<string, set<string>>, nodes: seq<NodeDef>, s: string)
    returns (adjacency: map<string, set<string>>)
    requires s in before && Ids(nodes) <= before.Keys
    ensures Added(before, adjacency, {s}, CapabilityIds(nodes))
  {
    adjacency := before;
    for q := 0 to |nodes|
      invariant Added(before, adjacency, {s}, CapabilityIds(nodes[..q]))
    {
      CapabilityIdsExtended(nodes, q);
      if Capability(nodes[q].kind) {
        var n := nodes[q].id;
        assert nodes[q] in nodes;
        adjacency := LinkPair(before, adjacency, s, CapabilityIds(nodes[..q]), n);
      }
    }
    assert nodes[..|nodes|] == nodes;
  }

  method LinkPair(ghost before: map<string, set<string>>, was: map<string, set<string>>,
                  s: string, ghost linked: set<string>, n: string)
    returns (now: map<string, set<string>>)
    requires s in was && n in was
    requires Added(before, was, {s}, linked)
    ensures Added(before, now, {s}, linked + {n})
  {
    now := was[s := was[s] + {n}];
    now := now[n := now[n] + {s}];
  }

  lemma AddedTwice(explicit: map<string, set<string>>, was: map<string, set<string>>, now: map<string, set<string>>,
                   done: set<string>, s: string, capabilities: set<string>)
    requires Added(explicit, was, done, capabilities) && Added(was, now, {s}, capabilities)
    ensures Added(explicit, now, done + {s}, capabilities)
  {
  }

  method BuildAdjacency(d: AgentDefinition) returns (adjacency: map<string, set<string>>)
    requires DistinctIds(d.nodes) && EdgesKnown(d)
    ensures adjacency == Adjacency(d)
  {
    adjacency := ExplicitAdjacency(d);
    ghost var explicit := adjacency;
    var supervisors := Supervisors(d.nodes);
    for p := 0 to |supervisors|
      invariant Added(explicit, adjacency, Ids(supervisors[..p]), CapabilityIds(d.nodes))
    {
      var s := supervisors[p].id;
      assert supervisors[p] in supervisors;
      assert supervisors[..p + 1] == supervisors[..p] + [supervisors[p]];
      assert Ids(supervisors[..p + 1]) == Ids(supervisors[..p]) + {s};
      ghost var was := adjacency;
      adjacency := LinkSupervisor(adjacency, d.nodes, s);
      AddedTwice(explicit, was, adjacency, Ids(supervisors[..p]), s, CapabilityIds(d.nodes));
    }
    assert supervisors[..|supervisors|] == supervisors;
    assert Ids(supervisors) == SupervisorIds(d.nodes);
    AddedIsAdjacency(d, explicit, adjacency);
  }

  lemma AddedIsAdjacency(d: AgentDefinition, explicit: map<string, set<string>>, adjacency: map<string, set<string>>)
    requires explicit == map n | n in Ids(d.nodes) :: Targets(d.edges, n)
    requires Added(explicit, adjacency, SupervisorIds(d.nodes), CapabilityIds(d.nodes))
    ensures adjacency == Adjacency(d)
  {
    forall a | a in Ids(d.nodes)
      ensures adjacency[a] == Neighbours(d, a)
    {
      forall b
        ensures b in adjacency[a] <==> b in Neighbours(d, a)
      {
        assert explicit[a] == Targets(d.edges, a);
      }
    }
  }

  /** The worklist search: whatever order the neighbours are pushed in, it ends with exactly the
      reachable nodes. */
  method Search(adjacency: map<string, set<string>>, roots: seq<string>) returns (seen: set<string>)
    requires forall r :: r in roots ==> r in adjacency
    requires forall a, b :: Step(adjacency, a, b) ==> b in adjacency
    ensures forall n :: n in seen <==> Reaches(adjacency, AsSet(roots), n)
  {
    ghost var start := AsSet(roots);
    seen := {};
    var frontier := roots;
    forall r | r in roots
      ensures Reaches(adjacency, start, r)
    {
      RootReached(adjacency, start, r);
    }
    while frontier != []
      invariant forall n :: n in frontier ==> n in adjacency && Reaches(adjacency, start, n)
      invariant seen <= adjacency.Keys
      invariant forall n :: n in seen ==> Reaches(adjacency, start, n)
      invariant forall r :: r in start ==> r in seen || r in frontier
      invariant forall a, b :: a in seen && Step(adjacency, a, b) ==> b in seen || b in frontier
      decreases adjacency.Keys - seen, |frontier|
    {
      var current := frontier[|frontier| - 1];
      assert frontier == frontier[..|frontier| - 1] + [current];
      frontier := frontier[..|frontier| - 1];
      if current in seen {
        continue;
      }
      seen := seen + {current};
      var pushed := Listed(adjacency[current] - seen);
      forall b | b in pushed
        ensures b in adjacency && Reaches(adjacency, start, b)
      {
        assert Step(adjacency, current, b);
        StepReached(adjacency, start, current, b);
      }
      frontier := frontier + pushed;
    }
    forall n | Reaches(adjacency, start, n)
      ensures n in seen
    {
      var p :| Leads(adjacency, start, p, n);
      ReachedInClosed(adjacency, start, p, n, iset m | m in seen);
    }
  }

  lemma AdjacencyClosed(d: AgentDefinition)
    requires EdgesKnown(d)
    ensures forall a, b :: Step(Adjacency(d), a, b) ==> b in Adjacency(d)
    ensures Roots(d) <= Ids(d.nodes)
  {
    forall a, b | Step(Adjacency(d), a, b)
      ensures b in Adjacency(d)
    {
      assert b in Neighbours(d, a);
    }
  }

  method CheckEntryReachable(d: AgentDefinition) returns (e: Option<GraphError>)
    requires DistinctIds(d.nodes) && EdgesKnown(d) && OneSupervisor(d.nodes) && FlatSubagents(d.nodes)
    ensures e.None? <==> EntryKnown(d) && AllReachable(d)
    ensures e.Some? ==> (e.value.UnknownEntry? || e.value.UnreachableNodes?) && Blames(d, e.value)
  {
    var known := Ids(d.nodes);
    if d.entry != "START" && d.entry !in known {
      return Some(UnknownEntry(d.entry));
    }
    var adjacency := BuildAdjacency(d);
    var roots := StartNodes(d);
    AdjacencyClosed(d);
    var seen := Search(adjacency, roots);
    var unreachable := known - seen;
    if unreachable != {} {
      ghost var n :| n in unreachable;
      assert !Reaches(Adjacency(d), Roots(d), n);
      return Some(UnreachableNodes(unreachable));
    }
    forall n | n in Ids(d.nodes)
      ensures Reaches(Adjacency(d), Roots(d), n)
    {
      assert n !in unreachable;
    }
    return None;
  }

  method StartNodes(d: AgentDefinition) returns (roots: seq<string>)
    ensures AsSet(roots) == Roots(d)
  {
    var known := Ids(d.nodes);
    if d.entry in known {
      roots := [d.entry];
      assert |roots| == 1;
    } else {
      var targets := set e | e in d.edges :: e.target;
      roots := Listed(known - targets);
    }
    if roots == [] {
      roots := Listed(known);
    }
    StartNodesAreRoots(d, roots);
  }

  lemma StartNodesAreRoots(d: AgentDefinition, roots: seq<string>)
    requires var free := Ids(d.nodes) - (set e | e in d.edges :: e.target);
             forall n :: n in roots <==>
               n in (if d.entry in Ids(d.nodes) then {d.entry} else if free == {} then Ids(d.nodes) else free)
    ensures AsSet(roots) == Roots(d)
  {
    var free := Ids(d.nodes) - (set e | e in d.edges :: e.target);
    assert free == set n | n in Ids(d.nodes) && (forall e :: e in d.edges ==> e.target != n);
  }

  /** A definition is accepted exactly when it is valid, and otherwise the first failing check
      is named with its detail. */
  method ValidateGraph(d: AgentDefinition) returns (e: Option<GraphError>)
    ensures e.None? <==> ValidDefinition(d)
    ensures e.Some? ==> Blames(d, e.value)
  {
    e := CheckNoDuplicateIds(d);
    if e.Some? { return; }
    e := CheckAllEdgesValid(d);
    if e.Some? { return; }
    var supervisors := Supervisors(d.nodes);
    if |supervisors| > 1 {
      return Some(TooManySupervisors(|supervisors|));
    }
    var nested := CheckNoNestedSubagent(d.nodes);
    if nested {
      return Some(NestedSubagent);
    }
    e := CheckEntryReachable(d);
  }
}
