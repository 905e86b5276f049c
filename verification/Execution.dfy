/** Running a program: one node per step, patches merged into the state, an arbitrary oracle for
    models, tools, retrievers, approvals and cancellation. */
module Execution {
  import opened Domain
  import opened Outcomes
  import opened Graph
  import opened Compiler
  import Subagents

  // ---- state ----

  datatype Message = Message(role: string, content: string)

  /** One element of a result list. `Letter` appears when a list is started from a text. */
  datatype Item =
    | Letter(c: char)
    | Outcome(body: string)
    | Delegated(result: Subagents.Result)

  datatype Datum = Text(text: string) | Results(items: seq<Item>)

  datatype Action = UseTool | UseRag | UseSubagent | UseGate | Final

  datatype Decision = Decision(
    action: Action,
    node: Option<string>,
    target: Option<string>,
    response: Option<string>,
    task: Option<string>,
    context: seq<string>)

  datatype State = State(
    messages: seq<Message>,
    data: map<string, Datum>,
    control: map<string, Decision>,
    runtime: map<string, string>)

  datatype Patch = Patch(
    messages: seq<Message>,
    data: map<string, Datum>,
    control: map<string, Decision>,
    runtime: map<string, string>)

  const DECISION := "supervisor_decision"
  const RESPONSE := "final_response"

  /** The reducers: messages are appended, the other channels are merged. */
  function Merged(s: State, patch: Patch): State {
    State(s.messages + patch.messages, s.data + patch.data, s.control + patch.control, s.runtime + patch.runtime)
  }

  /** The state a fresh thread starts with. */
  function Fresh(input: string, run: string): State {
    State([Message("user", input)], map[], map[], map["run_id" := run])
  }

  predicate HasDecision(s: State) {
    DECISION in s.control
  }

  function ResultKey(kind: NodeType): string {
    match kind
    case Tool => "tool_results"
    case Rag => "rag_results"
    case Subagent => "subagent_results"
    case _ => "approval_results"
  }

  /** `list(data.get(key, []))`: a text becomes the list of its letters. */
  function AsList(data: map<string, Datum>, key: string): seq<Item> {
    if key !in data then []
    else match data[key]
      case Results(items) => items
      case Text(text) => seq(|text|, i requires 0 <= i < |text| => Letter(text[i]))
  }

  // ---- decisions ----

  function KindOf(a: Action): NodeType
    requires !a.Final?
  {
    match a
    case UseTool => Tool
    case UseRag => Rag
    case UseSubagent => Subagent
    case UseGate => Gate
  }

  /** `capability_node_id or target`. */
  function Selected(d: Decision): Option<string> {
    if d.node.Some? && d.node.value != "" then d.node else d.target
  }

  function OrElse(o: Option<string>, default: string): string {
    if o.Some? then o.value else default
  }

  /** `_validate_decision`: a missing id is looked up as the empty one. */
  predicate Accepts(nodes: map<string, NodeDef>, d: Decision) {
    d.action.Final? ||
    (var id := OrElse(Selected(d), ""); id in nodes && nodes[id].kind == KindOf(d.action))
  }

  /** `str(node_id)`: a missing id is routed to as "None". */
  function RouteName(d: Decision): string {
    OrElse(Selected(d), "None")
  }

  // ---- nodes ----

  /** Everything one node meets from outside. `fault` is an error of the model, the retriever, a
      missing dependency or a tool; `pause` is an interrupt for an approval. */
  datatype Reply = Reply(
    cancelled: bool,
    fault: Option<Failure>,
    pause: bool,
    text: string,
    decision: Decision,
    world: Subagents.World)

  datatype Ended =
    | Patched(patch: Patch)
    | Suspended
    | Faulted(failure: Failure)

  function LastContent(s: State): string {
    if s.messages == [] then "" else s.messages[|s.messages| - 1].content
  }

  function Upper(s: string): string {
    if s == "" then "" else [if 'a' <= s[0] <= 'z' then s[0] - 'a' + 'A' else s[0]] + Upper(s[1..])
  }

  function Lower(s: string): string {
    if s == "" then "" else [if 'A' <= s[0] <= 'Z' then s[0] - 'A' + 'a' else s[0]] + Lower(s[1..])
  }

  predicate Blank(c: char) {
    c == ' ' || 9 as char <= c <= 13 as char || 28 as char <= c <= 31 as char
  }

  function Strip(s: string): string
    decreases |s|
  {
    if s == "" then ""
    else if Blank(s[0]) then Strip(s[1..])
    else if Blank(s[|s| - 1]) then Strip(s[..|s| - 1])
    else s
  }

  /** The transform's text, or None for an unknown operation. */
  function Transformed(config: Config, s: State): Option<string> {
    var text := OrElse(config.value, LastContent(s));
    match OrElse(config.operation, "strip")
    case "upper" => Some(Upper(text))
    case "lower" => Some(Lower(text))
    case "strip" => Some(Strip(text))
    case _ => None
  }

  function OutputKey(n: NodeDef): string {
    OrElse(n.config.outputRef, n.id)
  }

  function DataPatch(key: string, value: Datum): Patch {
    Patch([], map[key := value], map[], map[])
  }

  function TaskOf(n: NodeDef, d: Decision): Subagents.Task {
    Subagents.Task(OrElse(d.task, n.config.task), d.context, n.config.allowedTools, OrElse(n.config.template, "react"))
  }

  /** The subagent executor that the runtime is given; `ReAct` below is the one of the program. */
  type Executor = (Subagents.Task, Subagents.World) -> Subagents.Trace

  /** The bounded loop with `steps` steps, called at delegation depth 0. */
  function ReAct(steps: nat): Executor {
    (task, world) => Subagents.Executed(task, 0, world, steps)
  }

  function Delegation(n: NodeDef, d: Decision, r: Reply, sub: Executor): Subagents.Trace {
    sub(TaskOf(n, d), r.world)
  }

  function Append(s: State, kind: NodeType, item: Item): Patch {
    DataPatch(ResultKey(kind), Results(AsList(s.data, ResultKey(kind)) + [item]))
  }

  function RunSupervisor(nodes: map<string, NodeDef>, d: Decision): Ended {
    if !Accepts(nodes, d) then Faulted(OtherFailure("invalid supervisor decision"))
    else Patched(Patch(
      [], if d.action.Final? then map[RESPONSE := Text(OrElse(d.response, ""))] else map[], map[DECISION := d], map[]))
  }

  function RunCapability(n: NodeDef, s: State, r: Reply, sub: Executor): Ended {
    if !HasDecision(s) then Faulted(OtherFailure("capability invoked without SupervisorDecision"))
    else if r.pause && (n.kind.Tool? || n.kind.Gate?) then Suspended
    else
      var item := Produced(n, s.control[DECISION], r, sub);
      if item.None? then Faulted(OtherFailure("tool not allowed by scope")) else Patched(Append(s, n.kind, item.value))
  }

  /** What a capability adds to its result list, or None when its tool scope raises. */
  function Produced(n: NodeDef, d: Decision, r: Reply, sub: Executor): Option<Item> {
    if !n.kind.Subagent? then Some(Outcome(r.text))
    else
      var end := Delegation(n, d, r, sub).end;
      if end.Raised? then None else Some(Delegated(end.result))
  }

  /** The result a visited node contributes: only capabilities that complete have one. */
  function ItemOf(n: NodeDef, s: State, r: Reply, sub: Executor, end: Ended): Option<Item> {
    if Capability(n.kind) && HasDecision(s) && end.Patched? then Produced(n, s.control[DECISION], r, sub) else None
  }

  /** One node: the cancel check, then the body. */
  function RunNode(nodes: map<string, NodeDef>, n: NodeDef, s: State, r: Reply, sub: Executor): Ended {
    if r.cancelled then Faulted(RunCancelled("run cancelled before node"))
    else if r.fault.Some? then Faulted(r.fault.value)
    else match n.kind
      case Llm => Patched(Patch([Message("assistant", r.text)], map[], map[], map[]))
      case Supervisor => RunSupervisor(nodes, r.decision)
      case Transform =>
        var text := Transformed(n.config, s);
        if text.None? then Faulted(OtherFailure("unknown transform operation"))
        else Patched(DataPatch(OutputKey(n), Text(text.value)))
      case _ => RunCapability(n, s, r, sub)
  }

  /** The completions one node asks for: one for a model or Supervisor node, those of the inner loop
      for a subagent, none when the node is not started. */
  function NodeCalls(n: NodeDef, s: State, r: Reply, sub: Executor): nat {
    if r.cancelled then 0
    else if n.kind.Llm? || n.kind.Supervisor? then 1
    else if n.kind.Subagent? && HasDecision(s) then |Delegation(n, s.control[DECISION], r, sub).requests|
    else 0
  }

  // ---- the program ----

  /** The node after a completed one, or None when the Supervisor's route raises. */
  function After(p: Program, id: string, s: State): Option<Target>
    requires WellFormed(p) && id in p.nodes
  {
    assert NodeOk(p, id);
    if !p.nodes[id].kind.Supervisor? then Some(p.next[id])
    else if !HasDecision(s) then None
    else
      var d := s.control[DECISION];
      if d.action.Final? then Some(Finish)
      else if Accepts(p.nodes, d) && RouteName(d) in p.dispatch then Some(To(RouteName(d)))
      else None
  }

  datatype Visit = Visit(node: string, kind: NodeType, end: Ended, calls: nat, item: Option<Item>)

  datatype Ending = Done | Interrupt | Stopped(failure: Failure)

  datatype Ran = Ran(visits: seq<Visit>, state: State, end: Ending)

  /** From `at` on, with the k-th node execution about to start and `limit` of them allowed. */
  function RunFrom(p: Program, sub: Executor, s: State, at: Target, oracle: nat -> Reply, k: nat, limit: nat): Ran
    requires WellFormed(p) && TargetKnown(p, at) && k <= limit
    decreases limit - k
  {
    if at.Finish? then Ran([], s, Done)
    else if k == limit then Ran([], s, Stopped(RecursionLimit("recursion limit reached")))
    else
      var n := p.nodes[at.id];
      var end := RunNode(p.nodes, n, s, oracle(k), sub);
      var visit := Visit(at.id, n.kind, end, NodeCalls(n, s, oracle(k), sub), ItemOf(n, s, oracle(k), sub, end));
      match end
      case Faulted(failure) => Ran([visit], s, Stopped(failure))
      case Suspended => Ran([visit], s, Interrupt)
      case Patched(patch) =>
        var t := Merged(s, patch);
        var next := After(p, at.id, t);
        if next.None? then Ran([visit], s, Stopped(OtherFailure("no route")))
        else
          assert NodeOk(p, at.id);
          var rest := RunFrom(p, sub, t, next.value, oracle, k + 1, limit);
          Ran([visit] + rest.visits, rest.state, rest.end)
  }

  /** One attempt: from the entry, in the given thread state. */
  function Attempt(p: Program, sub: Executor, s: State, oracle: nat -> Reply, limit: nat): Ran
    requires WellFormed(p)
  {
    RunFrom(p, sub, s, To(p.entry), oracle, 0, limit)
  }

  /** What the run manager makes of it. */
  function OutcomeOf(r: Ran): Outcomes.Outcome {
    match r.end
    case Done =>
      Finished(if RESPONSE in r.state.data && r.state.data[RESPONSE].Text? then r.state.data[RESPONSE].text else "")
    case Interrupt => Interrupted
    case Stopped(f) => Outcomes.Raised(f)
  }

  // ---- the shape of a trace ----

  predicate Plain(kind: NodeType) {
    kind.Llm? || kind.Transform?
  }

  /** After `prelude` plain nodes, the Supervisor and capabilities take turns. */
  predicate Alternates(v: seq<Visit>, prelude: nat) {
    && prelude <= |v|
    && (forall i :: 0 <= i < prelude ==> Plain(v[i].kind))
    && (forall i :: prelude <= i < |v| ==> InTurn(true, i - prelude, v[i].kind))
  }

  /** Position i of an alternation that starts with the Supervisor, or with a capability. */
  predicate InTurn(supervisorFirst: bool, i: nat, kind: NodeType) {
    if supervisorFirst == (i % 2 == 0) then kind.Supervisor? else Capability(kind)
  }

  /** The chain of plain nodes runs into a capability that no Supervisor has selected. */
  predicate DeadEnd(v: seq<Visit>, prelude: nat) {
    && |v| == prelude + 1
    && (forall i :: 0 <= i < prelude ==> Plain(v[i].kind))
    && Capability(v[prelude].kind) && v[prelude].end.Faulted?
  }

  function DecisionOf(v: Visit): Option<Decision> {
    if v.end.Patched? && DECISION in v.end.patch.control then Some(v.end.patch.control[DECISION]) else None
  }

  /** `d` is accepted and the route for it exists. */
  predicate Dispatches(p: Program, d: Decision) {
    !d.action.Final? && Accepts(p.nodes, d) && RouteName(d) in p.dispatch
  }

  /** Visit `w` comes right after visit `v`. */
  predicate Follows(p: Program, v: Visit, w: Visit) {
    && v.end.Patched?
    && if v.kind.Supervisor? then
         DecisionOf(v).Some? && Dispatches(p, DecisionOf(v).value) && w.node == RouteName(DecisionOf(v).value)
       else v.node in p.next && p.next[v.node] == To(w.node)
  }

  /** The visits are of the program's nodes, and each comes after the one before. */
  predicate Chained(p: Program, v: seq<Visit>) {
    && (forall i :: 0 <= i < |v| ==> v[i].node in p.nodes && p.nodes[v[i].node].kind == v[i].kind)
    && (forall i :: 0 < i < |v| ==> Follows(p, v[i - 1], v[i]))
  }

  lemma {:induction false} VisitsFollow(p: Program, sub: Executor, s: State, at: Target, oracle: nat -> Reply, k: nat, limit: nat)
    requires WellFormed(p) && TargetKnown(p, at) && k <= limit
    ensures var v := RunFrom(p, sub, s, at, oracle, k, limit).visits;
            && (v != [] ==> at == To(v[0].node))
            && Chained(p, v)
    decreases limit - k
  {
    if at.To? && k < limit {
      assert NodeOk(p, at.id);
      var end := RunNode(p.nodes, p.nodes[at.id], s, oracle(k), sub);
      if end.Patched? {
        var t := Merged(s, end.patch);
        var next := After(p, at.id, t);
        if next.Some? {
          VisitsFollow(p, sub, t, next.value, oracle, k + 1, limit);
          var v, w := RunFrom(p, sub, s, at, oracle, k, limit).visits, RunFrom(p, sub, t, next.value, oracle, k + 1, limit).visits;
          assert v == [v[0]] + w;
          assert w != [] ==> Follows(p, v[0], w[0]);
          forall i | 0 < i < |v|
            ensures Follows(p, v[i - 1], v[i])
          {
            if i > 1 {
              assert v[i - 1] == w[i - 1 - 1] && v[i] == w[i - 1];
            }
          }
        }
      }
    }
  }

  /** Once the Supervisor's protocol is entered, it is never left. */
  lemma {:induction false} ProtocolAlternates(p: Program, v: seq<Visit>, from: nat, i: nat)
    requires WellFormed(p) && Chained(p, v) && from <= i < |v|
    requires v[from].kind.Supervisor? || (Capability(v[from].kind) && p.supervisor.Some?)
    ensures InTurn(v[from].kind.Supervisor?, i - from, v[i].kind)
  {
    if from < i {
      ProtocolAlternates(p, v, from, i - 1);
      assert Follows(p, v[i - 1], v[i]);
      assert NodeOk(p, v[i - 1].node) && NodeOk(p, v[i].node);
    }
  }

  /** Without a decision in the state, a capability fails and a plain node leaves none either. */
  lemma UndecidedNode(nodes: map<string, NodeDef>, n: NodeDef, s: State, r: Reply, sub: Executor)
    requires !HasDecision(s)
    ensures Capability(n.kind) ==> RunNode(nodes, n, s, r, sub).Faulted?
    ensures Plain(n.kind) && RunNode(nodes, n, s, r, sub).Patched? ==>
              !HasDecision(Merged(s, RunNode(nodes, n, s, r, sub).patch))
  {
  }

  /** What the first visit of a run without a decision is, and what comes after a plain one. */
  lemma UndecidedStep(p: Program, sub: Executor, s: State, at: Target, oracle: nat -> Reply, k: nat, limit: nat, r: Ran)
    returns (t: State, next: Target, rest: Ran)
    requires WellFormed(p) && TargetKnown(p, at) && k <= limit && !HasDecision(s)
    requires r == RunFrom(p, sub, s, at, oracle, k, limit) && r.visits != []
    ensures Capability(r.visits[0].kind) ==> r.visits[0].end.Faulted?
    ensures Plain(r.visits[0].kind) && |r.visits| > 1 ==>
              && k < limit && !HasDecision(t) && TargetKnown(p, next)
              && rest == RunFrom(p, sub, t, next, oracle, k + 1, limit) && r.visits[1..] == rest.visits
  {
    var n := p.nodes[at.id];
    UndecidedNode(p.nodes, n, s, oracle(k), sub);
    t, next, rest := s, at, r;
    if Plain(n.kind) && |r.visits| > 1 {
      assert NodeOk(p, at.id);
      t := Merged(s, RunNode(p.nodes, n, s, oracle(k), sub).patch);
      next := p.next[at.id];
      rest := RunFrom(p, sub, t, next, oracle, k + 1, limit);
    }
  }

  /** Visit i is of a capability, with only plain nodes before it. */
  predicate FirstCapability(v: seq<Visit>, i: nat) {
    i < |v| && (forall j :: 0 <= j < i ==> Plain(v[j].kind)) && Capability(v[i].kind)
  }

  lemma FirstCapabilityLater(v: seq<Visit>, i: nat)
    requires i > 0 && FirstCapability(v, i)
    ensures |v| > 1 && Plain(v[0].kind) && FirstCapability(v[1..], i - 1) && v[1..][i - 1] == v[i]
  {
    assert Plain(v[0].kind);
    assert forall j :: 0 <= j < i - 1 ==> v[1..][j] == v[j + 1];
  }

  /** Without a decision in the state, a capability at the end of a plain chain fails. */
  lemma {:induction false} UnselectedFails(p: Program, sub: Executor, s: State, at: Target, oracle: nat -> Reply, k: nat, limit: nat, r: Ran, i: nat)
    requires WellFormed(p) && TargetKnown(p, at) && k <= limit && !HasDecision(s)
    requires r == RunFrom(p, sub, s, at, oracle, k, limit)
    requires FirstCapability(r.visits, i)
    ensures r.visits[i].end.Faulted?
    decreases i
  {
    var t, next, rest := UndecidedStep(p, sub, s, at, oracle, k, limit, r);
    if i > 0 {
      FirstCapabilityLater(r.visits, i);
      UnselectedFails(p, sub, t, next, oracle, k + 1, limit, rest, i - 1);
    }
  }

  lemma {:induction false} PlainPrefix(v: seq<Visit>, from: nat) returns (n: nat)
    requires from <= |v| && forall i :: 0 <= i < from ==> Plain(v[i].kind)
    ensures n <= |v| && (forall i :: 0 <= i < n ==> Plain(v[i].kind)) && (n < |v| ==> !Plain(v[n].kind))
    decreases |v| - from
  {
    if from < |v| && Plain(v[from].kind) {
      n := PlainPrefix(v, from + 1);
    } else {
      n := from;
    }
  }

  lemma ShapeFrom(p: Program, sub: Executor, s: State, at: Target, oracle: nat -> Reply, limit: nat)
    requires WellFormed(p) && TargetKnown(p, at) && !HasDecision(s)
    ensures var v := RunFrom(p, sub, s, at, oracle, 0, limit).visits;
            exists prelude: nat :: Alternates(v, prelude) || DeadEnd(v, prelude)
  {
    var v := RunFrom(p, sub, s, at, oracle, 0, limit).visits;
    VisitsFollow(p, sub, s, at, oracle, 0, limit);
    var n := PlainPrefix(v, 0);
    if n < |v| && Capability(v[n].kind) {
      UnselectedFails(p, sub, s, at, oracle, 0, limit, RunFrom(p, sub, s, at, oracle, 0, limit), n);
      assert n + 1 < |v| ==> Follows(p, v[n + 1 - 1], v[n + 1]);
      assert DeadEnd(v, n);
    } else {
      forall i | n <= i < |v|
        ensures InTurn(true, i - n, v[i].kind)
      {
        ProtocolAlternates(p, v, n, i);
      }
      assert Alternates(v, n);
    }
  }

  /** A fresh attempt is a chain of plain nodes followed by strict alternation of the Supervisor and
      capabilities, or such a chain that fails at a capability nobody selected. */
  lemma TraceShape(p: Program, sub: Executor, input: string, run: string, oracle: nat -> Reply, limit: nat)
    requires WellFormed(p)
    ensures var v := Attempt(p, sub, Fresh(input, run), oracle, limit).visits;
            exists prelude: nat :: Alternates(v, prelude) || DeadEnd(v, prelude)
  {
    ShapeFrom(p, sub, Fresh(input, run), To(p.entry), oracle, limit);
  }

  /** So no plain node is visited once a Supervisor has been. */
  lemma NoPlainAfterSupervisor(p: Program, sub: Executor, input: string, run: string, oracle: nat -> Reply, limit: nat, i: nat, k: nat)
    requires WellFormed(p)
    requires var v := Attempt(p, sub, Fresh(input, run), oracle, limit).visits;
             i < k < |v| && v[i].kind.Supervisor?
    ensures !Plain(Attempt(p, sub, Fresh(input, run), oracle, limit).visits[k].kind)
  {
    TraceShape(p, sub, input, run, oracle, limit);
  }

  // ---- who selects a capability ----

  /** A capability that completes in a fresh attempt comes right after a completed Supervisor whose
      accepted decision routes to it. */
  lemma CapabilityWasSelected(p: Program, sub: Executor, input: string, run: string, oracle: nat -> Reply, limit: nat, i: nat)
    requires WellFormed(p)
    requires var v := Attempt(p, sub, Fresh(input, run), oracle, limit).visits;
             i < |v| && Capability(v[i].kind) && v[i].end.Patched?
    ensures var v := Attempt(p, sub, Fresh(input, run), oracle, limit).visits;
            && i > 0 && v[i - 1].kind.Supervisor? && v[i - 1].end.Patched?
            && DecisionOf(v[i - 1]).Some?
            && var d := DecisionOf(v[i - 1]).value;
               Dispatches(p, d) && v[i].node == RouteName(d) && v[i].kind == p.nodes[RouteName(d)].kind
  {
    TraceShape(p, sub, input, run, oracle, limit);
    VisitsFollow(p, sub, Fresh(input, run), To(p.entry), oracle, 0, limit);
    var v := Attempt(p, sub, Fresh(input, run), oracle, limit).visits;
    var prelude: nat :| Alternates(v, prelude) || DeadEnd(v, prelude);
    SelectedBefore(p, v, prelude, i);
  }

  lemma SelectedBefore(p: Program, v: seq<Visit>, prelude: nat, i: nat)
    requires Chained(p, v) && (Alternates(v, prelude) || DeadEnd(v, prelude))
    requires i < |v| && Capability(v[i].kind) && v[i].end.Patched?
    ensures i > 0 && v[i - 1].kind.Supervisor? && v[i - 1].end.Patched? && DecisionOf(v[i - 1]).Some?
    ensures var d := DecisionOf(v[i - 1]).value;
            Dispatches(p, d) && v[i].node == RouteName(d) && RouteName(d) in p.nodes && v[i].kind == p.nodes[RouteName(d)].kind
  {
    assert prelude <= i;
    assert InTurn(true, i - prelude, v[i].kind);
    assert InTurn(true, i - 1 - prelude, v[i - 1].kind);
    assert Follows(p, v[i - 1], v[i]);
  }

  /** The one way a decision can reach a node of another type than the one it names: it names no
      node, a node with the empty id passes the test, and a node called "None" gets the visit. */
  predicate Confusable(p: Program) {
    && "" in p.dispatch && "None" in p.dispatch && "" in p.nodes && "None" in p.nodes
    && p.nodes[""].kind != p.nodes["None"].kind
  }

  lemma NamelessDispatch(p: Program, d: Decision)
    requires WellFormed(p) && Dispatches(p, d) && Selected(d).None?
    ensures "" in p.dispatch && "None" in p.dispatch && p.nodes[""].kind == KindOf(d.action)
  {
    assert NodeOk(p, "") && NodeOk(p, "None");
  }

  /** Every decision that dispatches reaches a node of the type it names exactly when the program
      has no such pair of nodes. */
  lemma DispatchMatchesExactly(p: Program)
    requires WellFormed(p)
    ensures (forall d :: Dispatches(p, d) ==> p.nodes[RouteName(d)].kind == KindOf(d.action)) <==> !Confusable(p)
  {
    if Confusable(p) {
      assert NodeOk(p, "");
      var kind := p.nodes[""].kind;
      var action := if kind.Tool? then UseTool else if kind.Rag? then UseRag else if kind.Subagent? then UseSubagent else UseGate;
      var d := Decision(action, None, None, None, None, []);
      assert Dispatches(p, d) && RouteName(d) == "None";
    } else {
      forall d | Dispatches(p, d)
        ensures p.nodes[RouteName(d)].kind == KindOf(d.action)
      {
        if Selected(d).None? {
          NamelessDispatch(p, d);
        }
      }
    }
  }

  /** And it reaches the very node it names exactly when not both names are in use. */
  lemma DispatchIsSelectionExactly(p: Program)
    requires WellFormed(p)
    ensures (forall d :: Dispatches(p, d) ==> Selected(d) == Some(RouteName(d))) <==> !("" in p.dispatch && "None" in p.dispatch)
  {
    if "" in p.dispatch && "None" in p.dispatch {
      assert NodeOk(p, "");
      var kind := p.nodes[""].kind;
      var action := if kind.Tool? then UseTool else if kind.Rag? then UseRag else if kind.Subagent? then UseSubagent else UseGate;
      var d := Decision(action, None, None, None, None, []);
      assert Dispatches(p, d) && Selected(d).None?;
    } else {
      forall d | Dispatches(p, d)
        ensures Selected(d) == Some(RouteName(d))
      {
        if Selected(d).None? {
          NamelessDispatch(p, d);
        }
      }
    }
  }

  /** Only nodes the program's own relation reaches are ever visited, in any thread state. */
  lemma {:induction false} VisitedIsReachable(p: Program, sub: Executor, s: State, oracle: nat -> Reply, limit: nat, i: nat)
    requires WellFormed(p) && i < |Attempt(p, sub, s, oracle, limit).visits|
    ensures Reaches(Successors(p), {p.entry}, Attempt(p, sub, s, oracle, limit).visits[i].node)
  {
    var v := Attempt(p, sub, s, oracle, limit).visits;
    VisitsFollow(p, sub, s, To(p.entry), oracle, 0, limit);
    if i == 0 {
      RootReached(Successors(p), {p.entry}, p.entry);
    } else {
      VisitedIsReachable(p, sub, s, oracle, limit, i - 1);
      assert Follows(p, v[i - 1], v[i]) && NodeOk(p, v[i - 1].node);
      assert Step(Successors(p), v[i - 1].node, v[i].node);
      StepReached(Successors(p), {p.entry}, v[i - 1].node, v[i].node);
    }
  }
}
