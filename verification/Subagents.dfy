/** The bounded decision loop of a subagent over an explicit tool allowlist. */
module Subagents {
  import opened Domain

  datatype Task = Task(
    text: string,
    context: seq<string>,
    allowed: seq<string>,
    template: string)

  datatype Decision =
    | UseTool(tool: Option<string>, arguments: string)
    | Final(answer: Option<string>)

  /** A completion; `decision` is the structured reply, if there is one. */
  datatype Reply = Reply(success: bool, content: string, decision: Option<Decision>, error: Option<string>)

  /** `reply` stands for the tool's result, whether it succeeded or not. */
  datatype Message =
    | SystemPrompt(context: seq<string>, tools: set<string>)
    | UserText(text: string)
    | PlanText(content: string)
    | Chose(decision: Decision)
    | ToolReturned(tool: string, reply: string)

  datatype Result =
    | Success(answer: string, steps: nat)
    | Timeout(steps: nat)
    | DepthExceeded(depth: int)
    | UnknownTemplate(template: string)
    | UnknownTools(tools: seq<string>)
    | ModelError(error: string, steps: nat)
    | NotAllowed(tool: Option<string>, steps: nat)

  /** `execute` returns, or the tool scope makes it raise. */
  datatype Ended = Returned(result: Result) | Raised(tool: string)

  /** What can be observed of one call: how it ended, the messages of every completion it asked
      for, and the tools it invoked. */
  datatype Trace = Trace(end: Ended, requests: seq<seq<Message>>, invoked: seq<string>)

  /** Everything `execute` meets from outside: the registered tools, those the registry's scope
      permits, the replies (0 is the plan, k the k-th step) and the tool results. */
  datatype World = World(registered: set<string>, scope: set<string>, model: nat -> Reply, tool: nat -> string)

  const PLAN_REQUEST := UserText("Produce a concise execution plan. Do not call tools yet.")

  function Unknown(allowed: seq<string>, registered: set<string>): (q: seq<string>)
    ensures forall t :: t in q <==> t in allowed && t !in registered
  {
    if allowed == [] then []
    else (if allowed[0] !in registered then [allowed[0]] else []) + Unknown(allowed[1..], registered)
  }

  function Opening(task: Task, w: World): seq<Message> {
    [SystemPrompt(task.context, set t | t in w.registered && t in task.allowed), UserText(task.text)]
  }

  function OrElse(o: Option<string>, default: string): string {
    if o.Some? then o.value else default
  }

  predicate Named(task: Task, d: Decision) {
    d.UseTool? && d.tool.Some? && d.tool.value != "" && d.tool.value in task.allowed
  }

  /** How a reply ends the loop at this step, or None when it is a permitted tool call. */
  function Stop(task: Task, w: World, step: nat): Option<Ended> {
    var r := w.model(step);
    if !r.success || r.decision.None? then
      Some(Returned(ModelError(OrElse(r.error, "invalid subagent decision"), step)))
    else if r.decision.value.Final? then
      Some(Returned(Success(OrElse(r.decision.value.answer, ""), step)))
    else if !Named(task, r.decision.value) then
      Some(Returned(NotAllowed(r.decision.value.tool, step)))
    else if r.decision.value.tool.value !in w.scope then
      Some(Raised(r.decision.value.tool.value))
    else None
  }

  function ToolOf(w: World, step: nat): string {
    var r := w.model(step);
    if r.decision.Some? && r.decision.value.UseTool? then OrElse(r.decision.value.tool, "") else ""
  }

  /** The two messages a tool round adds. */
  function RoundMessages(w: World, step: nat): seq<Message> {
    var r := w.model(step);
    if r.decision.None? then [] else [Chose(r.decision.value), ToolReturned(ToolOf(w, step), w.tool(step))]
  }

  /** The messages after the tool rounds 1..k. */
  function History(opening: seq<Message>, w: World, k: nat): seq<Message> {
    if k == 0 then opening else History(opening, w, k - 1) + RoundMessages(w, k)
  }

  function Invoked(w: World, k: nat): seq<string> {
    if k == 0 then [] else Invoked(w, k - 1) + [ToolOf(w, k)]
  }

  function Requests(opening: seq<Message>, w: World, k: nat): seq<seq<Message>> {
    if k == 0 then [] else Requests(opening, w, k - 1) + [History(opening, w, k - 1)]
  }

  ghost predicate ToolRounds(task: Task, w: World, k: nat) {
    forall i :: 1 <= i <= k ==> Stop(task, w, i).None?
  }

  /** The steps 1..k-1 were tool rounds, and step k ended the loop. */
  ghost predicate StopsAt(task: Task, w: World, k: nat) {
    k >= 1 && ToolRounds(task, w, k - 1) && Stop(task, w, k).Some?
  }

  /** The loop from a step on. */
  function Loop(task: Task, w: World, maxSteps: nat, step: nat, messages: seq<Message>): Trace
    requires 1 <= step <= maxSteps + 1
    decreases maxSteps + 1 - step
  {
    if step == maxSteps + 1 then Trace(Returned(Timeout(maxSteps)), [], [])
    else
      match Stop(task, w, step)
      case Some(end) =>
        Trace(end, [messages], if end.Raised? then [end.tool] else [])
      case None =>
        var rest := Loop(task, w, maxSteps, step + 1, messages + RoundMessages(w, step));
        Trace(rest.end, [messages] + rest.requests, [ToolOf(w, step)] + rest.invoked)
  }

  /** The messages the first step is asked with. */
  function FirstMessages(task: Task, w: World): seq<Message> {
    if task.template == "planner_react" then Opening(task, w) + [PlanText(w.model(0).content)] else Opening(task, w)
  }

  /** The completion that asks for a plan, for the planning template. */
  function PlanRequests(task: Task, w: World): seq<seq<Message>> {
    if task.template == "planner_react" then [Opening(task, w) + [PLAN_REQUEST]] else []
  }

  function Executed(task: Task, depth: int, w: World, maxSteps: nat): Trace {
    var unknown := Unknown(task.allowed, w.registered);
    if depth != 0 then Trace(Returned(DepthExceeded(depth)), [], [])
    else if task.template != "react" && task.template != "planner_react" then
      Trace(Returned(UnknownTemplate(task.template)), [], [])
    else if unknown != [] then Trace(Returned(UnknownTools(unknown)), [], [])
    else if task.template == "planner_react" && !w.model(0).success then
      Trace(Returned(ModelError(OrElse(w.model(0).error, "planning failed"), 0)), PlanRequests(task, w), [])
    else
      var t := Loop(task, w, maxSteps, 1, FirstMessages(task, w));
      Trace(t.end, PlanRequests(task, w) + t.requests, t.invoked)
  }

  lemma {:induction false} LoopExtended(task: Task, w: World, maxSteps: nat, step: nat, messages: seq<Message>)
    requires 1 <= step <= maxSteps && Stop(task, w, step).None?
    ensures var rest := Loop(task, w, maxSteps, step + 1, messages + RoundMessages(w, step));
            Loop(task, w, maxSteps, step, messages)
              == Trace(rest.end, [messages] + rest.requests, [ToolOf(w, step)] + rest.invoked)
  {
  }

  lemma RestShifted(sent: seq<seq<Message>>, messages: seq<Message>, before: seq<string>, name: string, rest: Trace)
    ensures sent + ([messages] + rest.requests) == (sent + [messages]) + rest.requests
    ensures before + ([name] + rest.invoked) == (before + [name]) + rest.invoked
  {
  }

  // ---- what the loop promises ----

  lemma {:induction false} HistoryLength(opening: seq<Message>, task: Task, w: World, k: nat)
    requires ToolRounds(task, w, k)
    ensures |History(opening, w, k)| == |opening| + 2 * k
  {
    if k > 0 {
      HistoryLength(opening, task, w, k - 1);
      assert Stop(task, w, k).None?;
    }
  }

  lemma {:induction false} RoundsUnfold(task: Task, w: World, maxSteps: nat, opening: seq<Message>, k: nat)
    requires k <= maxSteps && ToolRounds(task, w, k)
    ensures var rest := Loop(task, w, maxSteps, k + 1, History(opening, w, k));
            Loop(task, w, maxSteps, 1, opening)
              == Trace(rest.end, Requests(opening, w, k) + rest.requests, Invoked(w, k) + rest.invoked)
  {
    if k == 0 {
      var rest := Loop(task, w, maxSteps, 1, opening);
      assert [] + rest.requests == rest.requests && [] + rest.invoked == rest.invoked;
    } else {
      RoundsUnfold(task, w, maxSteps, opening, k - 1);
      var h := History(opening, w, k - 1);
      LoopExtended(task, w, maxSteps, k, h);
      RestShifted(Requests(opening, w, k - 1), h, Invoked(w, k - 1), ToolOf(w, k),
                  Loop(task, w, maxSteps, k + 1, History(opening, w, k)));
    }
  }

  /** Where the loop ends: after `maxSteps` tool rounds, or at the first reply that is not a
      permitted tool call. */
  ghost predicate Ends(task: Task, w: World, maxSteps: nat, k: nat) {
    if k == maxSteps + 1 then ToolRounds(task, w, maxSteps) else k <= maxSteps && StopsAt(task, w, k)
  }

  lemma {:induction false} EndsSomewhere(task: Task, w: World, maxSteps: nat, from: nat) returns (k: nat)
    requires 1 <= from <= maxSteps + 1 && ToolRounds(task, w, from - 1)
    ensures Ends(task, w, maxSteps, k)
    decreases maxSteps + 1 - from
  {
    if from == maxSteps + 1 || Stop(task, w, from).Some? {
      k := from;
    } else {
      k := EndsSomewhere(task, w, maxSteps, from + 1);
    }
  }

  /** The whole loop, in closed form: it ends where it must, asks for one completion per step on a
      history that grows by two messages a round, and invokes the tools of the rounds. */
  lemma LoopMeaning(task: Task, w: World, maxSteps: nat, opening: seq<Message>, k: nat)
    requires Ends(task, w, maxSteps, k)
    ensures var t := Loop(task, w, maxSteps, 1, opening);
            if k == maxSteps + 1 then
              t == Trace(Returned(Timeout(maxSteps)), Requests(opening, w, maxSteps), Invoked(w, maxSteps))
            else
              && t.end == Stop(task, w, k).value
              && t.requests == Requests(opening, w, k)
              && t.invoked == if t.end.Raised? then Invoked(w, k) else Invoked(w, k - 1)
  {
    RoundsUnfold(task, w, maxSteps, opening, k - 1);
    if k == maxSteps + 1 {
      assert Requests(opening, w, k - 1) + [] == Requests(opening, w, k - 1);
      assert Invoked(w, k - 1) + [] == Invoked(w, k - 1);
    }
  }

  lemma {:induction false} RequestsAt(opening: seq<Message>, w: World, k: nat)
    ensures |Requests(opening, w, k)| == k
    ensures forall i :: 0 <= i < k ==> Requests(opening, w, k)[i] == History(opening, w, i)
  {
    if k > 0 {
      RequestsAt(opening, w, k - 1);
    }
  }

  lemma {:induction false} InvokedAt(w: World, k: nat)
    ensures |Invoked(w, k)| == k
    ensures forall i :: 0 <= i < k ==> Invoked(w, k)[i] == ToolOf(w, i + 1)
  {
    if k > 0 {
      InvokedAt(w, k - 1);
    }
  }

  /** The call gets as far as the loop. */
  predicate Started(task: Task, depth: int, w: World) {
    && depth == 0
    && (task.template == "react" || (task.template == "planner_react" && w.model(0).success))
    && (forall t :: t in task.allowed ==> t in w.registered)
  }

  function OpeningLength(task: Task): nat {
    if task.template == "planner_react" then 3 else 2
  }

  function PlanCalls(task: Task): nat {
    if task.template == "planner_react" then 1 else 0
  }

  lemma StartedLoops(task: Task, depth: int, w: World, maxSteps: nat)
    requires Started(task, depth, w)
    ensures |FirstMessages(task, w)| == OpeningLength(task) && |PlanRequests(task, w)| == PlanCalls(task)
    ensures var t := Loop(task, w, maxSteps, 1, FirstMessages(task, w));
            Executed(task, depth, w, maxSteps) == Trace(t.end, PlanRequests(task, w) + t.requests, t.invoked)
  {
    assert Unknown(task.allowed, w.registered) == [] by {
      NoneUnknown(task.allowed, w.registered);
    }
  }

  lemma {:induction false} NoneUnknown(allowed: seq<string>, registered: set<string>)
    requires forall t :: t in allowed ==> t in registered
    ensures Unknown(allowed, registered) == []
  {
    if allowed != [] {
      assert allowed[0] in allowed;
      NoneUnknown(allowed[1..], registered);
    }
  }

  lemma ExecutedStops(task: Task, depth: int, w: World, maxSteps: nat, k: nat)
    requires Started(task, depth, w) && k <= maxSteps && StopsAt(task, w, k)
    ensures var end := Stop(task, w, k).value;
            Executed(task, depth, w, maxSteps)
              == Trace(end, PlanRequests(task, w) + Requests(FirstMessages(task, w), w, k),
                       if end.Raised? then Invoked(w, k) else Invoked(w, k - 1))
  {
    StartedLoops(task, depth, w, maxSteps);
    LoopMeaning(task, w, maxSteps, FirstMessages(task, w), k);
  }

  lemma ExecutedTimesOut(task: Task, depth: int, w: World, maxSteps: nat)
    requires Started(task, depth, w) && ToolRounds(task, w, maxSteps)
    ensures Executed(task, depth, w, maxSteps)
              == Trace(Returned(Timeout(maxSteps)), PlanRequests(task, w) + Requests(FirstMessages(task, w), w, maxSteps),
                       Invoked(w, maxSteps))
  {
    StartedLoops(task, depth, w, maxSteps);
    LoopMeaning(task, w, maxSteps, FirstMessages(task, w), maxSteps + 1);
  }

  /** What has been observed after k tool rounds. */
  ghost predicate AfterRounds(task: Task, w: World, k: nat, messages: seq<Message>, requests: seq<seq<Message>>, invoked: seq<string>) {
    && ToolRounds(task, w, k)
    && messages == History(FirstMessages(task, w), w, k)
    && requests == PlanRequests(task, w) + Requests(FirstMessages(task, w), w, k)
    && invoked == Invoked(w, k)
  }

  lemma OneRoundMore(task: Task, w: World, k: nat, messages: seq<Message>, requests: seq<seq<Message>>, invoked: seq<string>)
    requires AfterRounds(task, w, k, messages, requests, invoked) && Stop(task, w, k + 1).None?
    ensures AfterRounds(task, w, k + 1, messages + RoundMessages(w, k + 1), requests + [messages], invoked + [ToolOf(w, k + 1)])
  {
    assert requests + [messages] == PlanRequests(task, w) + (Requests(FirstMessages(task, w), w, k) + [messages]);
  }

  /** The loop ends here, with one more request. */
  lemma EndsHere(task: Task, depth: int, w: World, maxSteps: nat, k: nat,
                 messages: seq<Message>, requests: seq<seq<Message>>, invoked: seq<string>)
    requires Started(task, depth, w) && k < maxSteps
    requires AfterRounds(task, w, k, messages, requests, invoked) && Stop(task, w, k + 1).Some?
    ensures var end := Stop(task, w, k + 1).value;
            Executed(task, depth, w, maxSteps)
              == Trace(end, requests + [messages], if end.Raised? then invoked + [ToolOf(w, k + 1)] else invoked)
  {
    ExecutedStops(task, depth, w, maxSteps, k + 1);
    assert requests + [messages] == PlanRequests(task, w) + (Requests(FirstMessages(task, w), w, k) + [messages]);
  }

  /** The loop as it runs: a growing message list and early returns. The last two results record
      the completions asked for and the tools invoked. */
  method Execute(task: Task, depth: int, w: World, maxSteps: nat)
    returns (end: Ended, requests: seq<seq<Message>>, invoked: seq<string>)
    ensures Trace(end, requests, invoked) == Executed(task, depth, w, maxSteps)
  {
    requests, invoked := [], [];
    if depth != 0 {
      return Returned(DepthExceeded(depth)), requests, invoked;
    }
    if task.template !in {"react", "planner_react"} {
      return Returned(UnknownTemplate(task.template)), requests, invoked;
    }
    var unknown := Unknown(task.allowed, w.registered);
    if unknown != [] {
      return Returned(UnknownTools(unknown)), requests, invoked;
    }
    var messages := Opening(task, w);
    if task.template == "planner_react" {
      var plan := w.model(0);
      requests := [messages + [PLAN_REQUEST]];
      if !plan.success {
        return Returned(ModelError(OrElse(plan.error, "planning failed"), 0)), requests, invoked;
      }
      messages := messages + [PlanText(plan.content)];
    }
    end, requests, invoked := Rounds(task, depth, w, maxSteps, messages, requests);
  }

  /** The steps, from the opening messages on. */
  method Rounds(task: Task, depth: int, w: World, maxSteps: nat, opening: seq<Message>, planned: seq<seq<Message>>)
    returns (end: Ended, requests: seq<seq<Message>>, invoked: seq<string>)
    requires Started(task, depth, w) && opening == FirstMessages(task, w) && planned == PlanRequests(task, w)
    ensures Trace(end, requests, invoked) == Executed(task, depth, w, maxSteps)
  {
    requests, invoked := planned, [];
    var messages := opening;
    for step := 1 to maxSteps + 1
      invariant AfterRounds(task, w, step - 1, messages, requests, invoked)
    {
      if Stop(task, w, step).Some? {
        EndsHere(task, depth, w, maxSteps, step - 1, messages, requests, invoked);
      } else {
        OneRoundMore(task, w, step - 1, messages, requests, invoked);
      }
      var response := w.model(step);
      requests := requests + [messages];
      if !response.success || response.decision.None? {
        return Returned(ModelError(OrElse(response.error, "invalid subagent decision"), step)), requests, invoked;
      }
      var decision := response.decision.value;
      if decision.Final? {
        return Returned(Success(OrElse(decision.answer, ""), step)), requests, invoked;
      }
      if decision.tool.None? || decision.tool.value == "" || decision.tool.value !in task.allowed {
        return Returned(NotAllowed(decision.tool, step)), requests, invoked;
      }
      var name := decision.tool.value;
      invoked := invoked + [name];
      if name !in w.scope {
        return Raised(name), requests, invoked;
      }
      messages := messages + [Chose(decision), ToolReturned(name, w.tool(step))];
    }
    ExecutedTimesOut(task, depth, w, maxSteps);
    return Returned(Timeout(maxSteps)), requests, invoked;
  }

  lemma NotStarted(task: Task, depth: int, w: World, maxSteps: nat)
    requires !Started(task, depth, w)
    ensures var e := Executed(task, depth, w, maxSteps);
            && e.invoked == [] && |e.requests| <= 1
            && e.end.Returned? && !e.end.result.Success? && !e.end.result.Timeout?
  {
    if t :| t in task.allowed && t !in w.registered {
      assert t in Unknown(task.allowed, w.registered);
    }
  }

  /** Whatever the model answers: every invoked tool is named, allowlisted and registered. */
  lemma OnlyAllowedTools(task: Task, depth: int, w: World, maxSteps: nat)
    ensures forall t :: t in Executed(task, depth, w, maxSteps).invoked ==>
              t != "" && t in task.allowed && t in w.registered
  {
    if Started(task, depth, w) {
      StartedLoops(task, depth, w, maxSteps);
      LoopInvokesAllowed(task, w, maxSteps, 1, FirstMessages(task, w));
    } else {
      NotStarted(task, depth, w, maxSteps);
    }
  }

  lemma {:induction false} LoopInvokesAllowed(task: Task, w: World, maxSteps: nat, step: nat, messages: seq<Message>)
    requires 1 <= step <= maxSteps + 1
    ensures forall t :: t in Loop(task, w, maxSteps, step, messages).invoked ==> t != "" && t in task.allowed
    decreases maxSteps + 1 - step
  {
    if step <= maxSteps && Stop(task, w, step).None? {
      LoopInvokesAllowed(task, w, maxSteps, step + 1, messages + RoundMessages(w, step));
      assert Named(task, w.model(step).decision.value);
    }
  }

  lemma StopUnique(task: Task, w: World, maxSteps: nat, e: nat, k: nat)
    requires Ends(task, w, maxSteps, e) && 1 <= k <= maxSteps
    ensures StopsAt(task, w, k) <==> k == e
  {
    if e <= maxSteps && e < k {
      assert Stop(task, w, e).Some?;
    }
  }

  /** The call succeeds exactly when it starts, and its first reply that is not a permitted tool
      call comes within the budget and is a final answer; `steps` is the number of that reply. */
  lemma SuccessExactly(task: Task, depth: int, w: World, maxSteps: nat, answer: string, k: nat)
    ensures Executed(task, depth, w, maxSteps).end == Returned(Success(answer, k)) <==>
            && Started(task, depth, w)
            && 1 <= k <= maxSteps && ToolRounds(task, w, k - 1)
            && var r := w.model(k);
               r.success && r.decision.Some? && r.decision.value.Final? && answer == OrElse(r.decision.value.answer, "")
  {
    if Started(task, depth, w) {
      StartedLoops(task, depth, w, maxSteps);
      var e := EndsSomewhere(task, w, maxSteps, 1);
      LoopMeaning(task, w, maxSteps, FirstMessages(task, w), e);
      if 1 <= k <= maxSteps {
        StopUnique(task, w, maxSteps, e, k);
      }
    } else {
      NotStarted(task, depth, w, maxSteps);
    }
  }

  /** It times out exactly when all `maxSteps` steps were tool rounds. */
  lemma TimeoutExactly(task: Task, depth: int, w: World, maxSteps: nat)
    ensures var e := Executed(task, depth, w, maxSteps);
            && ((e.end.Returned? && e.end.result.Timeout?) <==> Started(task, depth, w) && ToolRounds(task, w, maxSteps))
            && (e.end.Returned? && e.end.result.Timeout? ==>
                  e.end.result.steps == maxSteps && |e.invoked| == maxSteps && |e.requests| == PlanCalls(task) + maxSteps)
  {
    if Started(task, depth, w) {
      StartedLoops(task, depth, w, maxSteps);
      var k := EndsSomewhere(task, w, maxSteps, 1);
      LoopMeaning(task, w, maxSteps, FirstMessages(task, w), k);
      InvokedAt(w, maxSteps);
      RequestsAt(FirstMessages(task, w), w, maxSteps);
      if k <= maxSteps {
        assert Stop(task, w, k).Some?;
      }
    } else {
      NotStarted(task, depth, w, maxSteps);
    }
  }

  /** Step k of the loop is asked with the 2 or 3 opening messages and two more for each earlier
      round, and each history extends the one before. */
  lemma HistoryGrows(task: Task, depth: int, w: World, maxSteps: nat)
    requires Started(task, depth, w)
    ensures var e := Executed(task, depth, w, maxSteps); var n := PlanCalls(task);
            && n <= |e.requests| <= n + maxSteps
            && var q := e.requests[n..];
               && (forall i :: 0 <= i < |q| ==> |q[i]| == OpeningLength(task) + 2 * i)
               && (forall i, k :: 0 <= i < |q| && k == i + 1 && k < |q| ==> q[i] < q[k])
  {
    StartedLoops(task, depth, w, maxSteps);
    var e := Executed(task, depth, w, maxSteps);
    var opening := FirstMessages(task, w);
    var k := EndsSomewhere(task, w, maxSteps, 1);
    LoopMeaning(task, w, maxSteps, opening, k);
    var last := if k == maxSteps + 1 then maxSteps else k;
    RequestsGrow(opening, task, w, last);
    assert e.requests[PlanCalls(task)..] == Requests(opening, w, last);
  }

  lemma RequestsGrow(opening: seq<Message>, task: Task, w: World, n: nat)
    requires n > 0 ==> ToolRounds(task, w, n - 1)
    ensures var q := Requests(opening, w, n);
            && |q| == n
            && (forall i :: 0 <= i < n ==> |q[i]| == |opening| + 2 * i)
            && (forall i, k :: 0 <= i < n && k == i + 1 && k < n ==> q[i] < q[k])
  {
    RequestsAt(opening, w, n);
    forall i | 0 <= i < n
      ensures |History(opening, w, i)| == |opening| + 2 * i
    {
      HistoryLength(opening, task, w, i);
    }
    forall i, k | 0 <= i < n && k == i + 1 && k < n
      ensures History(opening, w, i) < History(opening, w, k)
    {
      assert History(opening, w, k) == History(opening, w, i) + RoundMessages(w, k);
    }
  }

  /** One call asks for at most one completion per step, and one more for a plan. */
  lemma CallsBounded(task: Task, depth: int, w: World, maxSteps: nat)
    ensures |Executed(task, depth, w, maxSteps).requests| <= maxSteps + 1
  {
    if Started(task, depth, w) {
      HistoryGrows(task, depth, w, maxSteps);
    } else {
      NotStarted(task, depth, w, maxSteps);
    }
  }
}
