/** The chain of llm and transform nodes in front of the Supervisor: it is left within as many steps
    as there are such nodes, or never. */
module Prelude {
  import opened Outcomes
  import opened Graph
  import opened Compiler
  import opened Execution

  predicate PlainTarget(p: Program, t: Target) {
    t.To? && t.id in p.nodes && Plain(p.nodes[t.id].kind)
  }

  /** Where the program is after n plain nodes, or where it left them. */
  function Chain(p: Program, at: Target, n: nat): (t: Target)
    requires WellFormed(p) && TargetKnown(p, at)
    ensures TargetKnown(p, t)
  {
    if n == 0 then at
    else
      var t := Chain(p, at, n - 1);
      if PlainTarget(p, t) then
        assert NodeOk(p, t.id);
        p.next[t.id]
      else t
  }

  function PlainNodes(p: Program): (nodes: set<Target>)
    ensures forall t :: t in nodes <==> PlainTarget(p, t)
  {
    set id | id in p.nodes && Plain(p.nodes[id].kind) :: To(id)
  }

  ghost predicate PlainUpTo(p: Program, at: Target, n: nat)
    requires WellFormed(p) && TargetKnown(p, at)
  {
    forall i :: 0 <= i <= n ==> PlainTarget(p, Chain(p, at, i))
  }

  ghost predicate NeverLeaves(p: Program, at: Target)
    requires WellFormed(p) && TargetKnown(p, at)
  {
    forall i: nat :: PlainTarget(p, Chain(p, at, i))
  }

  /** The first n targets of the chain. */
  function Visited(p: Program, at: Target, n: nat): set<Target>
    requires WellFormed(p) && TargetKnown(p, at)
  {
    if n == 0 then {} else Visited(p, at, n - 1) + {Chain(p, at, n - 1)}
  }

  lemma {:induction false} VisitedAt(p: Program, at: Target, n: nat, t: Target) returns (i: nat)
    requires WellFormed(p) && TargetKnown(p, at) && t in Visited(p, at, n)
    ensures i < n && Chain(p, at, i) == t
  {
    if t == Chain(p, at, n - 1) {
      i := n - 1;
    } else {
      i := VisitedAt(p, at, n - 1, t);
    }
  }

  /** The first n plain nodes of the chain are all different, or one comes twice. */
  lemma {:induction false} DifferentOrRepeated(p: Program, at: Target, n: nat) returns (i: nat, k: nat)
    requires WellFormed(p) && TargetKnown(p, at) && (n > 0 ==> PlainUpTo(p, at, n - 1))
    ensures Visited(p, at, n) <= PlainNodes(p)
    ensures |Visited(p, at, n)| == n || (i < k < n && Chain(p, at, i) == Chain(p, at, k))
  {
    i, k := 0, 0;
    if n > 0 {
      i, k := DifferentOrRepeated(p, at, n - 1);
      var t := Chain(p, at, n - 1);
      assert PlainTarget(p, t);
      if t in Visited(p, at, n - 1) {
        i := VisitedAt(p, at, n - 1, t);
        k := n - 1;
      }
    }
  }

  lemma SubsetCardinality(a: set<Target>, b: set<Target>)
    requires a <= b
    ensures |a| <= |b|
  {
    if a != {} {
      var x :| x in a;
      SubsetCardinality(a - {x}, b - {x});
    }
  }

  lemma {:induction false} SameFuture(p: Program, at: Target, i: nat, k: nat, d: nat)
    requires WellFormed(p) && TargetKnown(p, at) && Chain(p, at, i) == Chain(p, at, k)
    ensures Chain(p, at, i + d) == Chain(p, at, k + d)
  {
    if d > 0 {
      SameFuture(p, at, i, k, d - 1);
    }
  }

  lemma {:induction false} RepeatedNeverLeaves(p: Program, at: Target, i: nat, k: nat, n: nat)
    requires WellFormed(p) && TargetKnown(p, at)
    requires i < k && Chain(p, at, i) == Chain(p, at, k) && PlainUpTo(p, at, k)
    ensures PlainTarget(p, Chain(p, at, n))
    decreases n
  {
    if n > k {
      SameFuture(p, at, i, k, n - k);
      RepeatedNeverLeaves(p, at, i, k, i + (n - k));
    }
  }

  /** The chain leaves the plain nodes within as many steps as there are plain nodes, or never. */
  lemma Lasso(p: Program, at: Target)
    requires WellFormed(p) && TargetKnown(p, at)
    ensures NeverLeaves(p, at) <==> PlainUpTo(p, at, |PlainNodes(p)|)
  {
    var n := |PlainNodes(p)|;
    if PlainUpTo(p, at, n) {
      var i, k := DifferentOrRepeated(p, at, n + 1);
      SubsetCardinality(Visited(p, at, n + 1), PlainNodes(p));
      forall j: nat
        ensures PlainTarget(p, Chain(p, at, j))
      {
        RepeatedNeverLeaves(p, at, i, k, j);
      }
    }
  }

  // ---- what a run makes of it ----

  predicate KnownOperation(n: NodeDef) {
    n.kind.Transform? ==> OrElse(n.config.operation, "strip") in {"upper", "lower", "strip"}
  }

  /** No cancellation, and no plain node fails. */
  ghost predicate Smooth(p: Program, oracle: nat -> Reply) {
    && (forall i: nat :: !oracle(i).cancelled && oracle(i).fault.None?)
    && (forall id :: id in p.nodes ==> KnownOperation(p.nodes[id]))
  }

  lemma {:induction false} ChainFromNext(p: Program, at: Target, n: nat)
    requires WellFormed(p) && PlainTarget(p, at) && NodeOk(p, at.id)
    ensures Chain(p, p.next[at.id], n) == Chain(p, at, n + 1)
  {
    if n > 0 {
      ChainFromNext(p, at, n - 1);
    }
  }

  lemma PlainNodeCompletes(nodes: map<string, NodeDef>, n: NodeDef, s: State, r: Reply, sub: Executor)
    requires Plain(n.kind) && KnownOperation(n) && !r.cancelled && r.fault.None?
    ensures RunNode(nodes, n, s, r, sub).Patched?
  {
  }

  lemma PlainStep(p: Program, sub: Executor, s: State, at: Target, oracle: nat -> Reply, k: nat, limit: nat) returns (t: State)
    requires WellFormed(p) && PlainTarget(p, at) && k < limit && Smooth(p, oracle)
    ensures at.id in p.next && TargetKnown(p, p.next[at.id])
    ensures var r := RunFrom(p, sub, s, at, oracle, k, limit); var rest := RunFrom(p, sub, t, p.next[at.id], oracle, k + 1, limit);
            r.end == rest.end && |r.visits| > 0 && Plain(r.visits[0].kind) && r.visits == [r.visits[0]] + rest.visits
  {
    assert NodeOk(p, at.id);
    PlainNodeCompletes(p.nodes, p.nodes[at.id], s, oracle(k), sub);
    t := Merged(s, RunNode(p.nodes, p.nodes[at.id], s, oracle(k), sub).patch);
  }

  /** The run made n plain visits and then hit its limit. */
  predicate Exhausted(r: Ran, n: nat) {
    && r.end == Stopped(RecursionLimit("recursion limit reached"))
    && |r.visits| == n
    && OnlyPlain(r.visits)
  }

  predicate OnlyPlain(v: seq<Visit>) {
    forall i :: 0 <= i < |v| ==> Plain(v[i].kind)
  }

  /** Inside a chain that is never left, an attempt uses up its limit. */
  lemma {:induction false} StuckRun(p: Program, sub: Executor, s: State, at: Target, oracle: nat -> Reply, k: nat, limit: nat)
    requires WellFormed(p) && TargetKnown(p, at) && k <= limit
    requires Smooth(p, oracle) && NeverLeaves(p, at)
    ensures Exhausted(RunFrom(p, sub, s, at, oracle, k, limit), limit - k)
    decreases limit - k
  {
    assert PlainTarget(p, Chain(p, at, 0));
    if k < limit {
      var t := PlainStep(p, sub, s, at, oracle, k, limit);
      NextNeverLeaves(p, at);
      StuckRun(p, sub, t, p.next[at.id], oracle, k + 1, limit);
      OneMoreExhausted(RunFrom(p, sub, s, at, oracle, k, limit), RunFrom(p, sub, t, p.next[at.id], oracle, k + 1, limit), limit - k);
    } else {
      AtTheLimit(p, sub, s, at, oracle, limit);
    }
  }

  lemma AtTheLimit(p: Program, sub: Executor, s: State, at: Target, oracle: nat -> Reply, limit: nat)
    requires WellFormed(p) && PlainTarget(p, at)
    ensures Exhausted(RunFrom(p, sub, s, at, oracle, limit, limit), 0)
  {
  }

  lemma NextNeverLeaves(p: Program, at: Target)
    requires WellFormed(p) && PlainTarget(p, at) && NeverLeaves(p, at)
    ensures at.id in p.next && TargetKnown(p, p.next[at.id]) && NeverLeaves(p, p.next[at.id])
  {
    assert NodeOk(p, at.id);
    forall i: nat
      ensures PlainTarget(p, Chain(p, p.next[at.id], i))
    {
      ChainFromNext(p, at, i);
    }
  }

  lemma OneMoreExhausted(r: Ran, rest: Ran, n: nat)
    requires r.end == rest.end && |r.visits| > 0 && Plain(r.visits[0].kind) && r.visits == [r.visits[0]] + rest.visits
    requires n > 0 && Exhausted(rest, n - 1)
    ensures Exhausted(r, n)
  {
  }

  /** The visits start with n plain ones and then reach the target, with a node or the end. */
  predicate Leaves(r: Ran, n: nat, t: Target) {
    && |r.visits| >= n && (forall i :: 0 <= i < n ==> Plain(r.visits[i].kind))
    && if t.Finish? then |r.visits| == n && r.end.Done?
       else |r.visits| > n && r.visits[n].node == t.id && !Plain(r.visits[n].kind)
  }

  lemma OneMoreLeaves(r: Ran, rest: Ran, n: nat, t: Target)
    requires r.end == rest.end && |r.visits| > 0 && Plain(r.visits[0].kind) && r.visits == [r.visits[0]] + rest.visits
    requires n > 0 && Leaves(rest, n - 1, t)
    ensures Leaves(r, n, t)
  {
    assert forall i :: 0 < i < |r.visits| ==> r.visits[i] == rest.visits[i - 1];
  }

  /** A chain that is left after n plain nodes, with steps to spare, is left by the run. */
  lemma {:induction false} LeavingRun(p: Program, sub: Executor, s: State, at: Target, oracle: nat -> Reply, k: nat, limit: nat, n: nat)
    requires WellFormed(p) && TargetKnown(p, at) && k + n < limit
    requires Smooth(p, oracle)
    requires (n > 0 ==> PlainUpTo(p, at, n - 1)) && !PlainTarget(p, Chain(p, at, n))
    ensures Leaves(RunFrom(p, sub, s, at, oracle, k, limit), n, Chain(p, at, n))
    decreases n
  {
    if n > 0 {
      assert PlainTarget(p, Chain(p, at, 0));
      var t := PlainStep(p, sub, s, at, oracle, k, limit);
      assert NodeOk(p, at.id);
      forall i: nat | i < n
        ensures Chain(p, p.next[at.id], i) == Chain(p, at, i + 1)
      {
        ChainFromNext(p, at, i);
      }
      LeavingRun(p, sub, t, p.next[at.id], oracle, k + 1, limit, n - 1);
      OneMoreLeaves(RunFrom(p, sub, s, at, oracle, k, limit), RunFrom(p, sub, t, p.next[at.id], oracle, k + 1, limit), n, Chain(p, at, n));
    } else {
      LeftAlready(p, sub, s, at, oracle, k, limit);
    }
  }

  lemma LeftAlready(p: Program, sub: Executor, s: State, at: Target, oracle: nat -> Reply, k: nat, limit: nat)
    requires WellFormed(p) && TargetKnown(p, at) && k < limit && !PlainTarget(p, at)
    ensures Leaves(RunFrom(p, sub, s, at, oracle, k, limit), 0, at)
  {
  }

  /** With more steps than plain nodes, an undisturbed attempt ends among plain nodes by exhausting
      its limit exactly when the chain from the entry never leaves them. */
  lemma StuckExactly(p: Program, sub: Executor, s: State, oracle: nat -> Reply, limit: nat)
    requires WellFormed(p) && Smooth(p, oracle) && limit > |PlainNodes(p)|
    ensures var r := Attempt(p, sub, s, oracle, limit);
            (OnlyPlain(r.visits) && r.end.Stopped?) <==> NeverLeaves(p, To(p.entry))
  {
    var at := To(p.entry);
    Lasso(p, at);
    if NeverLeaves(p, at) {
      StuckRun(p, sub, s, at, oracle, 0, limit);
    } else {
      var i: nat :| i <= |PlainNodes(p)| && !PlainTarget(p, Chain(p, at, i));
      var n := FirstExit(p, at, i);
      LeavingRun(p, sub, s, at, oracle, 0, limit, n);
    }
  }

  lemma {:induction false} FirstExit(p: Program, at: Target, i: nat) returns (n: nat)
    requires WellFormed(p) && TargetKnown(p, at) && !PlainTarget(p, Chain(p, at, i))
    ensures n <= i && (n > 0 ==> PlainUpTo(p, at, n - 1)) && !PlainTarget(p, Chain(p, at, n))
  {
    if k: nat :| k < i && !PlainTarget(p, Chain(p, at, k)) {
      n := FirstExit(p, at, k);
    } else {
      n := i;
    }
  }

  /** An attempt caught in the chain is reported as `max_steps`, stored as failed, and no further
      attempt is spent on it. */
  lemma StuckIsNotRetried(p: Program, sub: Executor, s: State, oracle: nat -> Reply, limit: nat)
    requires WellFormed(p) && Smooth(p, oracle) && NeverLeaves(p, To(p.entry))
    ensures var e := ExecutionOf(OutcomeOf(Attempt(p, sub, s, oracle, limit)));
            && e.status.Failed? && e.reason == "max_steps" && !Retryable(e.reason)
            && PersistedStatus(e.status, e.reason).Failed? && VerdictOf(e).Deterministic?
  {
    StuckRun(p, sub, s, To(p.entry), oracle, 0, limit);
    assert "max_steps"[0] != "error"[0];
    assert |"max_steps"| != |"model_error:recoverable"|;
  }
}
