/** The state a completed attempt ends with is the fold of what its nodes did. */
module StateFold {
  import opened Domain
  import opened Outcomes
  import opened Graph
  import opened Compiler
  import opened Execution

  /** The assistant messages of the llm visits, in order; the first visit is execution k. */
  function Spoken(v: seq<Visit>, oracle: nat -> Reply, k: nat): seq<Message> {
    if v == [] then []
    else (if v[0].kind.Llm? then [Message("assistant", oracle(k).text)] else []) + Spoken(v[1..], oracle, k + 1)
  }

  function LlmVisits(v: seq<Visit>): nat {
    if v == [] then 0 else (if v[0].kind.Llm? then 1 else 0) + LlmVisits(v[1..])
  }

  /** The oracle's decision at the last Supervisor visit. */
  function LastDecision(v: seq<Visit>, oracle: nat -> Reply, k: nat): Option<Decision> {
    if v == [] then None
    else
      var later := LastDecision(v[1..], oracle, k + 1);
      if later.Some? then later else if v[0].kind.Supervisor? then Some(oracle(k).decision) else None
  }

  /** The results of the capabilities of one type, in order. */
  function Gathered(v: seq<Visit>, kind: NodeType): seq<Item> {
    if v == [] then []
    else (if v[0].kind == kind && v[0].item.Some? then [v[0].item.value] else []) + Gathered(v[1..], kind)
  }

  /** A transform that writes to the given key. */
  predicate Writes(v: Visit, key: string) {
    v.kind.Transform? && v.end.Patched? && key in v.end.patch.data
  }

  /** What one visit does to the result list of a type: a transform that writes its key restarts it. */
  function Replay1(base: seq<Item>, x: Visit, kind: NodeType): seq<Item> {
    if Writes(x, ResultKey(kind)) then AsList(x.end.patch.data, ResultKey(kind))
    else if x.kind == kind && x.item.Some? then base + [x.item.value]
    else base
  }

  /** A result list replayed over a trace. */
  function Replayed(base: seq<Item>, v: seq<Visit>, kind: NodeType): seq<Item>
    decreases |v|
  {
    if v == [] then base
    else
      Replayed(Replay1(base, v[0], kind), v[1..], kind)
  }

  /** A completed run unfolds into its first visit and a completed rest. */
  lemma DoneStep(p: Program, sub: Executor, s: State, at: Target, oracle: nat -> Reply, k: nat, limit: nat)
    returns (patch: Patch, next: Target)
    requires WellFormed(p) && TargetKnown(p, at) && k <= limit && at.To?
    requires RunFrom(p, sub, s, at, oracle, k, limit).end.Done?
    ensures k < limit && TargetKnown(p, next)
    ensures var n := p.nodes[at.id];
            && RunNode(p.nodes, n, s, oracle(k), sub) == Patched(patch)
            && After(p, at.id, Merged(s, patch)) == Some(next)
            && var r := RunFrom(p, sub, s, at, oracle, k, limit);
               var rest := RunFrom(p, sub, Merged(s, patch), next, oracle, k + 1, limit);
               && r.visits == [Visit(at.id, n.kind, Patched(patch), NodeCalls(n, s, oracle(k), sub),
                                     ItemOf(n, s, oracle(k), sub, Patched(patch)))] + rest.visits
               && r.visits[1..] == rest.visits
               && r.state == rest.state && rest.end.Done?
  {
    var n := p.nodes[at.id];
    patch := RunNode(p.nodes, n, s, oracle(k), sub).patch;
    assert NodeOk(p, at.id);
    next := After(p, at.id, Merged(s, patch)).value;
  }

  /** What one completed node does to the state, channel by channel. */
  lemma NodeEffect(nodes: map<string, NodeDef>, n: NodeDef, s: State, r: Reply, sub: Executor, patch: Patch)
    requires RunNode(nodes, n, s, r, sub) == Patched(patch)
    ensures patch.messages == if n.kind.Llm? then [Message("assistant", r.text)] else []
    ensures patch.control == if n.kind.Supervisor? then map[DECISION := r.decision] else map[]
    ensures patch.runtime == map[]
  {
  }

  lemma KeysDiffer(kind: NodeType, other: NodeType)
    requires Capability(kind) && Capability(other)
    ensures ResultKey(kind) != RESPONSE
    ensures ResultKey(kind) == ResultKey(other) <==> kind == other
  {
    assert "tool_results"[0] == 't' && "rag_results"[0] == 'r' && "subagent_results"[0] == 's';
    assert "approval_results"[0] == 'a' && RESPONSE[0] == 'f';
  }

  lemma ResultEffect(nodes: map<string, NodeDef>, n: NodeDef, s: State, r: Reply, sub: Executor, patch: Patch, kind: NodeType)
    requires RunNode(nodes, n, s, r, sub) == Patched(patch) && Capability(kind)
    ensures var key := ResultKey(kind); var item := ItemOf(n, s, r, sub, Patched(patch));
            AsList((s.data + patch.data), key) ==
              if n.kind.Transform? && key in patch.data then AsList(patch.data, key)
              else if n.kind == kind && item.Some? then AsList(s.data, key) + [item.value]
              else AsList(s.data, key)
    ensures n.kind == kind ==> ItemOf(n, s, r, sub, Patched(patch)).Some?
  {
    if Capability(n.kind) {
      KeysDiffer(kind, n.kind);
    } else {
      KeysDiffer(kind, kind);
    }
  }

  lemma SpokenStep(before: seq<Message>, said: seq<Message>, r: Ran, rest: Ran, x: Visit, oracle: nat -> Reply, k: nat)
    requires r.visits == [x] + rest.visits && r.visits[1..] == rest.visits && r.state == rest.state
    requires said == if x.kind.Llm? then [Message("assistant", oracle(k).text)] else []
    requires rest.state.messages == (before + said) + Spoken(rest.visits, oracle, k + 1)
    ensures r.state.messages == before + Spoken(r.visits, oracle, k)
  {
    assert (before + said) + Spoken(rest.visits, oracle, k + 1) == before + (said + Spoken(rest.visits, oracle, k + 1));
  }

  lemma {:induction false} MessagesFold(p: Program, sub: Executor, s: State, at: Target, oracle: nat -> Reply, k: nat, limit: nat)
    requires WellFormed(p) && TargetKnown(p, at) && k <= limit
    requires RunFrom(p, sub, s, at, oracle, k, limit).end.Done?
    ensures var r := RunFrom(p, sub, s, at, oracle, k, limit);
            r.state.messages == s.messages + Spoken(r.visits, oracle, k)
    decreases limit - k
  {
    if at.To? {
      var patch, next := DoneStep(p, sub, s, at, oracle, k, limit);
      NodeEffect(p.nodes, p.nodes[at.id], s, oracle(k), sub, patch);
      var t := Merged(s, patch);
      MessagesFold(p, sub, t, next, oracle, k + 1, limit);
      var r := RunFrom(p, sub, s, at, oracle, k, limit);
      SpokenStep(s.messages, patch.messages, r, RunFrom(p, sub, t, next, oracle, k + 1, limit), r.visits[0], oracle, k);
    }
  }

  lemma {:induction false} RuntimeKept(p: Program, sub: Executor, s: State, at: Target, oracle: nat -> Reply, k: nat, limit: nat)
    requires WellFormed(p) && TargetKnown(p, at) && k <= limit
    requires RunFrom(p, sub, s, at, oracle, k, limit).end.Done?
    ensures var r := RunFrom(p, sub, s, at, oracle, k, limit);
            r.state.runtime == s.runtime
    decreases limit - k
  {
    if at.To? {
      var patch, next := DoneStep(p, sub, s, at, oracle, k, limit);
      NodeEffect(p.nodes, p.nodes[at.id], s, oracle(k), sub, patch);
      RuntimeKept(p, sub, Merged(s, patch), next, oracle, k + 1, limit);
    }
  }

  function WithDecision(control: map<string, Decision>, d: Option<Decision>): map<string, Decision> {
    if d.Some? then control[DECISION := d.value] else control
  }

  lemma {:induction false} ControlFold(p: Program, sub: Executor, s: State, at: Target, oracle: nat -> Reply, k: nat, limit: nat)
    requires WellFormed(p) && TargetKnown(p, at) && k <= limit
    requires RunFrom(p, sub, s, at, oracle, k, limit).end.Done?
    ensures var r := RunFrom(p, sub, s, at, oracle, k, limit);
            r.state.control == WithDecision(s.control, LastDecision(r.visits, oracle, k))
    decreases limit - k
  {
    if at.To? {
      var patch, next := DoneStep(p, sub, s, at, oracle, k, limit);
      NodeEffect(p.nodes, p.nodes[at.id], s, oracle(k), sub, patch);
      ControlFold(p, sub, Merged(s, patch), next, oracle, k + 1, limit);
    }
  }

  lemma {:induction false} ResultsFold(p: Program, sub: Executor, s: State, at: Target, oracle: nat -> Reply, k: nat, limit: nat, kind: NodeType)
    requires WellFormed(p) && TargetKnown(p, at) && k <= limit && Capability(kind)
    requires RunFrom(p, sub, s, at, oracle, k, limit).end.Done?
    ensures var r := RunFrom(p, sub, s, at, oracle, k, limit);
            AsList(r.state.data, ResultKey(kind)) == Replayed(AsList(s.data, ResultKey(kind)), r.visits, kind)
    decreases limit - k
  {
    if at.To? {
      var patch, next := DoneStep(p, sub, s, at, oracle, k, limit);
      ResultEffect(p.nodes, p.nodes[at.id], s, oracle(k), sub, patch, kind);
      ResultsFold(p, sub, Merged(s, patch), next, oracle, k + 1, limit, kind);
    }
  }

  lemma Regroup(base: seq<Item>, next: seq<Item>, x: Visit, kind: NodeType, rest: seq<Item>)
    requires !Writes(x, ResultKey(kind)) && next == Replay1(base, x, kind)
    ensures next + rest == base + ((if x.kind == kind && x.item.Some? then [x.item.value] else []) + rest)
  {
  }

  /** Without a writing transform, replaying only appends. */
  lemma {:induction false} ReplayAppends(base: seq<Item>, v: seq<Visit>, kind: NodeType)
    requires forall i :: 0 <= i < |v| ==> !Writes(v[i], ResultKey(kind))
    ensures Replayed(base, v, kind) == base + Gathered(v, kind)
    decreases |v|
  {
    if v != [] {
      assert !Writes(v[0], ResultKey(kind));
      assert forall i :: 0 <= i < |v| - 1 ==> v[1..][i] == v[i + 1];
      var next := Replay1(base, v[0], kind);
      ReplayAppends(next, v[1..], kind);
      Regroup(base, next, v[0], kind, Gathered(v[1..], kind));
    }
  }

  lemma {:induction false} ReplaySplit(base: seq<Item>, v: seq<Visit>, w: seq<Visit>, kind: NodeType)
    ensures Replayed(base, v + w, kind) == Replayed(Replayed(base, v, kind), w, kind)
    decreases |v|
  {
    if v == [] {
      assert v + w == w;
    } else {
      assert (v + w)[1..] == v[1..] + w;
      ReplaySplit(Replay1(base, v[0], kind), v[1..], w, kind);
    }
  }

  lemma CompletedAlternates(p: Program, sub: Executor, input: string, run: string, oracle: nat -> Reply, limit: nat)
    returns (prelude: nat)
    requires WellFormed(p) && Attempt(p, sub, Fresh(input, run), oracle, limit).end.Done?
    ensures Alternates(Attempt(p, sub, Fresh(input, run), oracle, limit).visits, prelude)
  {
    var v := Attempt(p, sub, Fresh(input, run), oracle, limit).visits;
    TraceShape(p, sub, input, run, oracle, limit);
    prelude :| Alternates(v, prelude) || DeadEnd(v, prelude);
    AllComplete(p, sub, Fresh(input, run), To(p.entry), oracle, 0, limit);
  }

  /** From the Supervisor on no transform writes. */
  lemma ReplayAlternating(v: seq<Visit>, prelude: nat, kind: NodeType)
    requires Capability(kind) && Alternates(v, prelude)
    ensures Replayed([], v, kind) == Replayed([], v[..prelude], kind) + Gathered(v[prelude..], kind)
  {
    var front, back := v[..prelude], v[prelude..];
    assert v == front + back;
    ReplaySplit([], front, back, kind);
    forall i | 0 <= i < |back|
      ensures !Writes(back[i], ResultKey(kind))
    {
      assert back[i] == v[prelude + i];
      assert InTurn(true, i, back[i].kind);
    }
    ReplayAppends(Replayed([], front, kind), back, kind);
  }

  /** The list starts from what the chain in front of the Supervisor left under its key, and then
      holds the results of the capabilities of its type, in the order of their visits. */
  lemma ResultListExactly(p: Program, sub: Executor, input: string, run: string, oracle: nat -> Reply, limit: nat, kind: NodeType)
    requires WellFormed(p) && Capability(kind)
    requires Attempt(p, sub, Fresh(input, run), oracle, limit).end.Done?
    ensures var r := Attempt(p, sub, Fresh(input, run), oracle, limit);
            exists prelude: nat :: Alternates(r.visits, prelude)
              && AsList(r.state.data, ResultKey(kind))
                   == Replayed([], r.visits[..prelude], kind) + Gathered(r.visits[prelude..], kind)
  {
    var prelude := CompletedAlternates(p, sub, input, run, oracle, limit);
    ResultsFold(p, sub, Fresh(input, run), To(p.entry), oracle, 0, limit, kind);
    ReplayAlternating(Attempt(p, sub, Fresh(input, run), oracle, limit).visits, prelude, kind);
  }

  lemma {:induction false} AllComplete(p: Program, sub: Executor, s: State, at: Target, oracle: nat -> Reply, k: nat, limit: nat)
    requires WellFormed(p) && TargetKnown(p, at) && k <= limit
    requires RunFrom(p, sub, s, at, oracle, k, limit).end.Done?
    ensures var v := RunFrom(p, sub, s, at, oracle, k, limit).visits; forall i :: 0 <= i < |v| ==> v[i].end.Patched?
    decreases limit - k
  {
    if at.To? {
      var patch, next := DoneStep(p, sub, s, at, oracle, k, limit);
      AllComplete(p, sub, Merged(s, patch), next, oracle, k + 1, limit);
    }
  }

  lemma {:induction false} SpokenLength(v: seq<Visit>, oracle: nat -> Reply, k: nat)
    ensures |Spoken(v, oracle, k)| == LlmVisits(v)
  {
    if v != [] {
      SpokenLength(v[1..], oracle, k + 1);
    }
  }

  /** A completed fresh attempt: every result list no transform has written to holds the in-order
      results of its type, messages are the input and one reply per llm visit, control holds the
      last decision, and runtime is what it was. */
  lemma StateIsTheFoldOfTheTrace(p: Program, sub: Executor, input: string, run: string, oracle: nat -> Reply, limit: nat)
    requires WellFormed(p)
    requires Attempt(p, sub, Fresh(input, run), oracle, limit).end.Done?
    ensures var r := Attempt(p, sub, Fresh(input, run), oracle, limit); var v := r.visits;
            && r.state.messages == [Message("user", input)] + Spoken(v, oracle, 0)
            && |r.state.messages| == 1 + LlmVisits(v)
            && r.state.runtime == map["run_id" := run]
            && var d := LastDecision(v, oracle, 0);
               r.state.control == if d.Some? then map[DECISION := d.value] else map[]
    ensures var r := Attempt(p, sub, Fresh(input, run), oracle, limit); var v := r.visits;
            forall kind :: Capability(kind) && (forall i :: 0 <= i < |v| ==> !Writes(v[i], ResultKey(kind))) ==>
              AsList(r.state.data, ResultKey(kind)) == Gathered(v, kind)
  {
    var s := Fresh(input, run);
    var r := Attempt(p, sub, s, oracle, limit);
    MessagesFold(p, sub, s, To(p.entry), oracle, 0, limit);
    RuntimeKept(p, sub, s, To(p.entry), oracle, 0, limit);
    ControlFold(p, sub, s, To(p.entry), oracle, 0, limit);
    SpokenLength(r.visits, oracle, 0);
    forall kind | Capability(kind) && (forall i :: 0 <= i < |r.visits| ==> !Writes(r.visits[i], ResultKey(kind)))
      ensures AsList(r.state.data, ResultKey(kind)) == Gathered(r.visits, kind)
    {
      ResultsFold(p, sub, s, To(p.entry), oracle, 0, limit, kind);
      ReplayAppends([], r.visits, kind);
    }
  }

  /** `d` is a final decision and the run returns its answer. */
  predicate Answers(r: Ran, d: Decision) {
    d.action.Final? && OutcomeOf(r) == Finished(OrElse(d.response, ""))
  }

  /** A completed run of n + 1 visits, the last one of the Supervisor. */
  predicate EndsAtSupervisor(r: Ran, n: nat) {
    r.end.Done? && |r.visits| == n + 1 && r.visits[n].kind.Supervisor?
  }

  lemma {:induction false} FinalAnswerFrom(p: Program, sub: Executor, s: State, at: Target, oracle: nat -> Reply, k: nat, limit: nat, r: Ran, last: nat)
    requires WellFormed(p) && TargetKnown(p, at) && k <= limit && k <= last
    requires r == RunFrom(p, sub, s, at, oracle, k, limit) && EndsAtSupervisor(r, last - k)
    ensures Answers(r, oracle(last).decision)
    decreases last - k
  {
    if k < last {
      var t, next, rest := LaterEnd(p, sub, s, at, oracle, k, limit, r, last - k);
      FinalAnswerFrom(p, sub, t, next, oracle, k + 1, limit, rest, last);
      SameAnswer(rest, r, oracle(last).decision);
    } else {
      LastVisitAnswers(p, sub, s, at, oracle, k, limit, r);
    }
  }

  lemma SameAnswer(rest: Ran, r: Ran, d: Decision)
    requires Answers(rest, d) && rest.state == r.state && rest.end == r.end
    ensures Answers(r, d)
  {
  }

  lemma LaterEnd(p: Program, sub: Executor, s: State, at: Target, oracle: nat -> Reply, k: nat, limit: nat, r: Ran, n: nat)
    returns (t: State, next: Target, rest: Ran)
    requires WellFormed(p) && TargetKnown(p, at) && k <= limit && n > 0
    requires r == RunFrom(p, sub, s, at, oracle, k, limit) && EndsAtSupervisor(r, n)
    ensures k < limit && TargetKnown(p, next) && rest == RunFrom(p, sub, t, next, oracle, k + 1, limit)
    ensures EndsAtSupervisor(rest, n - 1) && rest.state == r.state && rest.end == r.end
  {
    var patch: Patch;
    patch, next := DoneStep(p, sub, s, at, oracle, k, limit);
    t := Merged(s, patch);
    rest := RunFrom(p, sub, t, next, oracle, k + 1, limit);
    OneVisitLess(r, rest, n);
  }

  /** A completed attempt whose last node is the Supervisor returns that Supervisor's final answer. */
  lemma OutputIsFinalAnswer(p: Program, sub: Executor, s: State, oracle: nat -> Reply, limit: nat, n: nat)
    requires WellFormed(p) && EndsAtSupervisor(Attempt(p, sub, s, oracle, limit), n)
    ensures Answers(Attempt(p, sub, s, oracle, limit), oracle(n).decision)
  {
    FinalAnswerFrom(p, sub, s, To(p.entry), oracle, 0, limit, Attempt(p, sub, s, oracle, limit), n);
  }

  lemma OneVisitLess(r: Ran, rest: Ran, n: nat)
    requires EndsAtSupervisor(r, n) && n > 0 && rest.end.Done? && r.visits[1..] == rest.visits
    ensures EndsAtSupervisor(rest, n - 1)
  {
    assert r.visits[1..][n - 1] == r.visits[n];
  }

  lemma LastVisitAnswers(p: Program, sub: Executor, s: State, at: Target, oracle: nat -> Reply, k: nat, limit: nat, r: Ran)
    requires WellFormed(p) && TargetKnown(p, at) && k <= limit
    requires r == RunFrom(p, sub, s, at, oracle, k, limit) && EndsAtSupervisor(r, 0)
    ensures Answers(r, oracle(k).decision)
  {
    var patch, next := DoneStep(p, sub, s, at, oracle, k, limit);
    NoVisitsMeansThere(p, sub, Merged(s, patch), next, oracle, k + 1, limit);
    FinalPatch(p, at.id, s, oracle(k), sub, patch);
  }

  lemma NoVisitsMeansThere(p: Program, sub: Executor, s: State, at: Target, oracle: nat -> Reply, k: nat, limit: nat)
    requires WellFormed(p) && TargetKnown(p, at) && k <= limit
    requires var r := RunFrom(p, sub, s, at, oracle, k, limit); r.end.Done? && r.visits == []
    ensures at.Finish? && RunFrom(p, sub, s, at, oracle, k, limit).state == s
  {
  }

  lemma FinalPatch(p: Program, id: string, s: State, r: Reply, sub: Executor, patch: Patch)
    requires WellFormed(p) && id in p.nodes && p.nodes[id].kind.Supervisor?
    requires RunNode(p.nodes, p.nodes[id], s, r, sub) == Patched(patch)
    requires After(p, id, Merged(s, patch)) == Some(Finish)
    ensures r.decision.action.Final?
    ensures RESPONSE in Merged(s, patch).data && Merged(s, patch).data[RESPONSE] == Text(OrElse(r.decision.response, ""))
  {
  }
}
