# A verified model of a durable agent runtime

The repository runs agent graphs durably: a run is stored with a job, any number of workers claim
jobs under leases, execute the run's graph, and write the outcome back; an append-only event log is
streamed to clients. This project models those parts in Dafny and proves what they keep. Nothing of
the repository is executed; `dafny verify dfyconfig.toml` checks the whole project.

## How it is built

**The run and job protocol.** `Domain` holds the rows of the `runs`, `jobs` and `approvals` tables,
`Transactions` what each database transaction does to them, and `Outcomes` how an attempt's ending
is classified. `Protocol` is the transition system: any number of workers, each with a program
counter and its own copy of the claim, one shared monotone clock, and one step per transaction, with
crashes, lost leases, exceptions at any point and ex-owners that go on writing. Beside the tables it
keeps, per job, the history of claims (`holds`) as bookkeeping. `Fencing` proves the inductive
invariant; `Leases`, `Absorption`, `TerminalRows`, `Stranding`, `Progress`, `PausedRuns`, `Approvals` and
`JobAttempts` draw the consequences over all runs; `Witnesses` holds reachable counterexamples. `Services`
has the classes that own these transactions, updating rows in place, each method proved against its
transaction.

**The event log and its stream.** `EventLog` is the log with lock, read of the maximum, insert and
commit as separate steps of concurrent writers that may roll back at any point; `EventRuns` proves the
invariants of its runs. `EventServices` has the repository and the emitter as classes. `Streaming` is
the cursor loop and a client that reconnects, and `StreamRuns` puts that client beside the writers.
`Wire` has the printed frames and the parser of section 9.2.6 of the WHATWG HTML Living Standard,
`Connections` what that parser keeps over any number of connections, `Reconnect` ties it to the client of
`Streaming`, and `JsonReader` is a reader for the events' JSON.

**Graphs.** `Graph`, `Validator` and `Compiler` take a definition through its checks to the program
that is run; `Execution` runs a program one node per step against an arbitrary oracle for models,
tools, retrievers, approvals and cancellation. `Prelude`, `Reachability`, `Visits`, `StateFold` and
`CallBudget` prove what holds of every run; `Misdispatch` is a concrete counterexample. `Subagents` is the bounded inner loop and
`Chunking` the text splitter.

## What was found

- A run can be left neither terminal nor paused with no job that could drive it. `Stranding.StrandedExactly`
  says when, in terms of the state before the step: nothing drives the run, and a worker takes it out of
  `paused` for another try, or the only worker left to fail it stops first. Both happen in reachable states
  (`Witnesses`). `Progress.CoveredThroughoutExactly` says it of whole runs. Taken as one step, and with
  takeovers only from stopped workers, no run is stranded (`Progress.NoStrandedRun`).
- docs/ARCHITECTURE.md:592 says that terminal runs are immutable. The code freezes their status only: every
  write of the same status goes through, and sets `updated_at`. `TerminalRows.TerminalRowWrittenExactly` says
  which steps write a terminal row, and `TerminalRows.FrozenExactly` when no continuation writes it. An
  undisturbed success already writes its row twice (`Witnesses.SuccessWritesRowAgain`).
  `TerminalRows.ValuesChangeExactly` and `TerminalRows.ValuesFrozenExactly` say the same of output, error and
  reason alone. These change in the ordinary course of a deterministic failure, where the worker replaces the
  stored error by the one it reports (`Witnesses.FailureReportRewritesError`), and when a worker that lost its
  lease replaces the output of a completed run (`Witnesses.LateStoreReplacesOutput`). The model follows the
  code.
- A decision finds a run to wake up only if the run is already stored as `paused`. A run that is stored so
  after its approval was decided, or whose approval lapses, can stay paused until somebody cancels it.
  `PausedRuns.PausedForGoodExactly` gives the condition, `Witnesses.EarlyDecisionAbandonsRun` a reachable state.
- The validator accepts nodes that no run visits. It counts explicit edges out of the Supervisor and the
  capabilities, which the program ignores (`Reachability.AcceptedNodeNeverRuns`), and nodes behind a
  capability that nobody can select (`Visits.AcceptedNodeBehindTool`). `Visits.VisitedExactly` says which
  nodes an attempt can visit, `Visits.RetriesVisitNoMore` that later attempts on the thread visit no others,
  and `Visits.EveryNodeRunsExactly` when these are all nodes of an accepted graph. How the validator's relation
  and the program's compare is `Reachability.ReachabilityAgreesExactly`.
- A keep-alive that arrives on a reconnected stream before any event empties the client's last event ID. The
  next connection then starts over at `after_seq`, and events arrive twice. `Connections.HeaderIsLastExactly`
  says when the id is that of the last event, `Streaming.ReceivedIsLogSliceExactly` that nothing arrives twice
  exactly when no event arrives on such a connection, and `Reconnect.KeepAliveThenRepeat` shows it in a run.
- A decision that names no node is looked up under the empty id and routed to under the name `None`. It can
  so be carried out by a node of another type: `Execution.DispatchMatchesExactly` gives the condition on the
  graph, `Misdispatch.ToolDecisionRunsRetriever` an accepted graph on which it happens.
- A batch of events leaves a hole in the numbering when something it keeps follows a dropped terminal
  duplicate, and only then (`EventLog.DenseExactly`). The program appends single events, which never do.

## Model

| member | source | states |
|---|---|---|
| Outcomes.RetriedExactlyWhenTransient | app/runtime/run_manager.py:346-411 | Another attempt is spent exactly on unclassified exceptions and recoverable timeouts or rate limits; then the run is stored as queued, and every other ending but an interrupt is stored as terminal |
| Fencing.StepKeepsInv | app/runtime/worker.py:62-312 | Every step of every worker keeps the global invariant that ties job rows, claim histories and the workers' local claims together |
| Leases.Fenced | app/runtime/worker.py:95-149 | In every reachable state the owner column is set exactly while the job runs, the open claim is the latest one and the owner's, and a released claim was released by the worker that made it |
| Leases.ReleasedOnlyByClaimant | app/runtime/worker.py:110-149 | A claim is released only by its own worker, resolving this very attempt while the row still names it |
| Leases.ResolvedAtMostOnce | app/runtime/worker.py:110-149 | A claim that is over stays over in the same way, with the same end, in every later state |
| Leases.FinishedJobFrozenForever | app/runtime/worker.py:110-125 | A completed or failed job row never changes again, although the writes test the owner only |
| Leases.LeasesExclude | app/runtime/worker.py:62-108 | Under one clock a later claim of a job starts no earlier than every earlier one has ended, so no two hold it at one time |
| Leases.HeartbeatNeverShortens | app/runtime/worker.py:151-169 | A heartbeat keeps the owner and moves the expiry forward, never back |
| Leases.OwnerChangesOnlyAfterExpiry | app/runtime/worker.py:70-101 | Only a claim names a new owner, and only after the stored expiry of the old one has passed |
| Leases.AttemptsAccounted | app/runtime/worker.py:95-146 | attempt_count is the number of claims; queued means 0; retry_wait means strictly between 0 and the budget; handler starts are at most the budget plus the stale takeovers |
| Leases.ThreeStartsWithoutTakeover | app/runtime/run_manager.py:168-175 | Jobs are created with budget 3 and keep it, so handler starts are at most 3 plus the takeovers |
| Absorption.TerminalForever | app/runtime/worker.py:298-312 | A terminal status is final in every later state, with late ex-owners and crashes |
| TerminalRows.TerminalRowWrittenExactly | app/runtime/run_manager.py:434-446 | A step writes a terminal row exactly when a worker of the run stores an attempt of the same status, or writes that status after resolving its job; the row then takes that worker's values and the time of the write, and nothing else of it changes |
| TerminalRows.ValuesChangeExactly | app/runtime/worker.py:298-312 | If and only if: its output, error and reason change exactly when such a write brings other ones |
| TerminalRows.FrozenExactly | app/runtime/worker.py:203-228 | If and only if, over every continuation: a terminal row, with the time of its last update, never changes again exactly when no busy worker can still come to write the run's terminal status once more, read off its program counter, verdict and remaining attempts |
| TerminalRows.ValuesFrozenExactly | app/runtime/worker.py:203-228 | If and only if, over every continuation: its output, error and reason never change again exactly when no busy worker can still come to write other ones |
| TerminalRows.IdleRunFrozen | app/runtime/worker.py:298-312 | Once no busy worker holds a claim of the run, its terminal row is the same in every continuation |
| Witnesses.SuccessWritesRowAgain | app/runtime/worker.py:203-208 | A reachable state, with one undisturbed worker, in which an ordinary success writes the completed row a second time |
| Witnesses.FailureReportRewritesError | app/runtime/worker.py:214-218 | A reachable state, with one undisturbed worker, in which reporting a deterministic failure replaces the error of the failed row |
| Witnesses.LateStoreReplacesOutput | app/runtime/run_manager.py:335 | A reachable state in which a worker without its lease replaces the output of a completed run |
| Absorption.TerminalRunNeverClaimed | app/runtime/worker.py:70-74 | No job of a terminal run is claimed in any continuation |
| Absorption.CancelledRunStops | app/graph/langgraph_runtime.py:164-166 | After cancellation each worker starts at most one more node of the run, and that one only if its check had already passed |
| Absorption.CheckedCancellationEndsJob | app/runtime/run_manager.py:352-353 | Over every interleaving without a crash or failure of that worker: from wherever it then is, at most two steps of its own complete the job, and the run is still cancelled |
| Absorption.CancelledAttemptCloses | app/graph/langgraph_runtime.py:164-166 | Over every interleaving: from the check at which the owner meets the cancellation, the run stays cancelled, and the owner keeps the job until it has completed it, unless it crashes or fails to store or complete |
| Stranding.StepKeepsInv2 | app/runtime/worker.py:171-245 | The stronger invariant about verdicts and stored statuses that the driver argument needs is kept by every step |
| Stranding.LeavesPausedExactly | app/runtime/worker.py:184-228 | If and only if: of all steps but a decision, a paused run is left unfinished exactly by marking it running, storing an attempt worth a retry, or reporting a failure that leaves one |
| Stranding.StrandedExactly | app/runtime/worker.py:214-228 | If and only if, in terms of the state before: a step strands a run exactly when no job drives it and the step is one of those with no failure pending, or stops the only worker that was about to fail it |
| Progress.UncoveredWasStranded | app/runtime/worker.py:171-245 | Over whole runs: a run found without a driver lost it in an earlier step that strands it |
| Progress.CoveredThroughoutExactly | app/runtime/worker.py:171-245 | If and only if, over whole runs: the run has a driver in every state passed exactly when no step strands it |
| Progress.NoStrandedRun | app/runtime/worker.py:171-245 | With resolution and run write as one step and takeovers only from stopped workers, every reachable run is terminal, paused, or has a live job |
| PausedRuns.PausedForGoodExactly | app/services/approval_repository.py:92-113 | If and only if: a paused run stays paused in every continuation without a cancellation exactly when no approval of it can still be decided, no job of it is open and no worker is busy with it |
| Witnesses.EarlyDecisionAbandonsRun | app/services/approval_repository.py:92-113 | A reachable state in which a run is paused for good although its approval was granted, because it was granted before `paused` was stored |
| Witnesses.CrashStrandsRun | app/runtime/worker.py:220-228 | A reachable state in which a crash after the job was failed for good strands the run |
| Witnesses.LateWriterStrandsRun | app/runtime/run_manager.py:434-446 | A reachable state in which an ex-owner's store takes a paused run back to queued with no job |
| Approvals.FirstRequestStands | app/services/approval_repository.py:37-62 | In every continuation the action has exactly one row, that of its first request, with the arguments and expiry fixed then |
| Approvals.ReplaysChangeNothing | app/graph/langgraph_runtime.py:471-481 | Any number of replayed requests for a recorded action leaves the whole system as it is |
| Approvals.ApprovalsConserved | app/services/approval_repository.py:97-113 | One row per action id, and a run has 1 job plus one per approval decided while it was paused |
| Approvals.DecidedForever | app/services/approval_repository.py:89-96 | What the first request fixed never changes, and a decided or expired approval never changes at all |
| Services.WorkerQueue.ClaimNext | app/runtime/worker.py:62-108 | Claims the oldest claimable unlocked job and takes the row over, or shows that every claimable job is locked |
| Services.WorkerQueue.Complete | app/runtime/worker.py:110-125 | When this worker owns the row it is completed, has no owner and no expiry, keeps its run and counts, and no other row or table changes; otherwise nothing changes |
| Services.WorkerQueue.Fail | app/runtime/worker.py:127-149 | When owned, the row is released with the error, waits for a retry exactly within its budget and fails otherwise, and no other row or table changes; otherwise nothing changes |
| Services.WorkerQueue.FailWithoutRetry | app/runtime/worker.py:247-263 | When owned, the row is released as failed whatever its budget, and no other row or table changes; otherwise nothing changes |
| Services.WorkerQueue.Heartbeat | app/runtime/worker.py:151-169 | True exactly for a running row of this worker, which then keeps status and owner and expires a lease from now; no other row or table changes |
| Services.WorkerQueue.HeartbeatLoop | app/runtime/worker.py:279-296 | Renews until told to stop; reports the lease lost at exactly the first poll that finds the row no longer its own |
| Services.WorkerQueue.RunOnce | app/runtime/worker.py:171-245 | The outcome table of an undisturbed pass: job and run status for every way a program can end, attempts up by one, lease released, all other rows unchanged |
| Services.PassMeetsTable | app/runtime/worker.py:171-245 | The transactions of a pass, composed, meet that outcome table |
| Services.RunManager.CreateRun | app/runtime/run_manager.py:153-176 | Adds one queued run with the input and no output, and one queued job of that run with budget 3 and nobody's lease; every other row stays |
| Services.RunManager.UpdateRun | app/runtime/run_manager.py:425-449 | A missing run or one with another terminal status stays as it is; otherwise status, output, error, reason and time of update are stored, the input is kept, and no other row or table changes |
| Services.RunManager.ExecuteRunSync | app/runtime/run_manager.py:201-343 | A missing run raises; a paused run without a decided approval is reported paused and not touched; otherwise the classified outcome is stored under the guard |
| Services.RunManager.ExecuteJob | app/runtime/run_manager.py:389-411 | Missing and terminal runs are answered without executing; otherwise the verdict is that of the execution |
| Services.CancelRun | app/api/runs.py:119-141 | 404 for unknown, 409 for terminal runs, otherwise the run is cancelled |
| Services.ApprovalRepository.CreatePending | app/services/approval_repository.py:37-62 | Returns the existing row of the action unchanged or adds one pending row, and keeps one row per action |
| Services.ApprovalRepository.ResolveAndEnqueue | app/services/approval_repository.py:73-117 | Invalid decisions, unknown, decided and lapsed approvals; a decision on a paused run queues it with one new job |
| EventLog.InsertedShape | app/services/event_repository.py:31-44 | A batch inserts rows of its own events, in order, numbered upwards, and the run ends with at most one terminal row |
| EventLog.ConflictIsDrop | app/services/event_repository.py:43 | Under the lock a conflict comes exactly from a second terminal event, never from a number |
| EventLog.DenseExactly | app/services/event_repository.py:31-44 | If and only if: a batch leaves no hole exactly when nothing it keeps follows something it drops |
| EventRuns.AppendOnly | app/services/event_repository.py:20-46 | Committed rows are never changed or removed, over every interleaving of writers |
| EventRuns.LogOrdered | app/services/event_repository.py:22-46 | Per run, numbers grow in the order in which rows become visible, and at most one row is terminal |
| EventRuns.NumberedInOrder | app/services/event_repository.py:22-46 | With single-event batches the rows of a run are numbered exactly 0..n-1 |
| EventRuns.EmittersKeepOrder | app/services/events.py:65-76 | Each emitter's events are logged in emission order, each at most once and unaltered |
| EventServices.EventRepository.AppendMany | app/services/event_repository.py:16-47 | The loop appends exactly the rows of the batch that do not conflict, and keeps the log ordered |
| EventServices.EventRepository.HasEvent | app/services/event_repository.py:59-68 | True exactly when the run has a row of that type |
| EventServices.DurableEmitter.Emit | app/services/events.py:58-67 | The event gets the next number, is queued for the log, and is the last of both lists |
| EventServices.DurableEmitter.LatestSeq | app/services/events.py:41-42 | The number of the last emitted event, or -1 |
| EventServices.DurableEmitter.Drain | app/services/events.py:69-76 | The waiting events whose transaction succeeds are appended one by one in emission order; the drain raises exactly when some task failed, and then keeps the tasks |
| EventServices.DrainLogsSurvivors | app/services/events.py:69-76 | Whichever transactions fail, the event of every other waiting task is in the log, or was a second terminal one |
| Streaming.ListAfterAdvance | app/services/event_repository.py:49-57 | Moving the cursor to the k-th listed row drops exactly the first k rows |
| Streaming.ReceivedIsLogSliceExactly | app/api/streaming.py:33-64 | If and only if: across any disconnects, reconnects and keep-alives, interleaved with appends, the client has a prefix of the log slice after its first cursor exactly when no event has arrived on a connection that started elsewhere than at the last event received; and each connection stops at its first terminal event |
| Streaming.CaughtUp | app/api/streaming.py:46-58 | In such a run, a client that is sent nothing more has the whole slice |
| StreamRuns.ReceivedIsCommittedSliceExactly | app/api/streaming.py:33-64 | The same if and only if beside concurrent writers that lock, insert, commit and roll back, for the run's committed rows |
| StreamRuns.CaughtUpWithWriters | app/api/streaming.py:46-58 | In such a run, an idle client with nothing left to list has received all committed rows after its first cursor |
| Streaming.EventGenerator | app/api/streaming.py:40-62 | The loop sends the slice after the cursor up to and including the first terminal event, over any number of turns, and ends only when settled, disconnected or past a terminal event |
| Wire.IntRoundTrip | app/api/streaming.py:38 | Reading a printed sequence number gives the number back |
| Wire.DumpsPlain | app/api/streaming.py:82 | The compact JSON never contains a line break or a character outside printable ASCII |
| Wire.ParsePrintAll | app/api/streaming.py:77-83 | Parsing any concatenation of frames and keep-alive comments gives back the ids, types and data of exactly the events, in order |
| Wire.CutAnywhere | app/api/streaming.py:77-83 | Wherever a connection is cut, and whatever id the client came with, it has seen exactly the events that are whole before the cut; its id is then that of the last of them, or the one it came with if no frame was whole, or empty if only keep-alives were |
| Connections.HeaderIsLastExactly | app/api/streaming.py:58-60 | If and only if, after any number of connections, each cut anywhere: the id sent back is that of the last event seen exactly when no later connection has brought a whole keep-alive, and otherwise none is sent |
| Connections.ReconnectResumesAtLast | app/api/streaming.py:33-38 | After any number of connections, the next one starts at the last event seen, and at the query's cursor if none was seen or the id was emptied |
| Connections.KeepAliveEmptiesHeader | app/api/streaming.py:58-60 | For every event: a client that has seen it, and on its next connection a keep-alive, sends no id and starts over |
| Reconnect.ParserGivesCursor | app/api/streaming.py:33-38 | In every run of the session, for every text that brings the delivered frames, the parser's messages are exactly the rows received, and the header it sends takes the server to the session's reconnect cursor |
| Reconnect.StaleExactlyWhenEmptied | app/api/streaming.py:58-60 | If and only if: until an event has arrived twice, the next connection starts elsewhere than at the last event exactly when a later connection has brought a whole keep-alive |
| Reconnect.KeepAliveThenRepeat | app/api/streaming.py:40-60 | A run in which a client that heard only a keep-alive on its second connection receives the one event of the log twice |
| JsonReader.DumpsReadBack | app/api/streaming.py:78-82 | Reading the compact JSON gives the value back with nothing left over |
| JsonReader.StreamReadBack | app/api/streaming.py:77-83 | Each message's data reads back as the type, number, node and payload of its event, in order |
| Validator.Search | app/graph/validator.py:110-118 | The worklist loop terminates and ends with exactly the nodes that a path leads to, whatever order neighbours are pushed in |
| Validator.BuildAdjacency | app/graph/validator.py:95-103 | The loops build the explicit edges, the dispatch edges and the return edges, and no others |
| Validator.StartNodes | app/graph/validator.py:105-111 | The entry, or the nodes without incoming edge, or all nodes |
| Validator.CheckNoDuplicateIds | app/graph/validator.py:36-41 | Names the first repeated id, if there is one |
| Validator.CheckAllEdgesValid | app/graph/validator.py:46-52 | Names the first edge end that is not a node, if there is one |
| Validator.CheckNoNestedSubagent | app/graph/validator.py:73-80 | True exactly when a subagent lists a subagent among its nodes |
| Validator.CheckEntryReachable | app/graph/validator.py:82-124 | Raises exactly for an unknown entry or an unreachable node, and lists exactly the unreachable nodes |
| Validator.ValidateGraph | app/graph/validator.py:22-30 | A definition passes exactly when it is valid, and otherwise the error is that of the first check that fails |
| Validator.BlamedIsInvalid | app/graph/validator.py:22-30 | An error is only ever given for a definition that is not valid |
| Compiler.CompileGraph | app/graph/compiler.py:8-28 | Succeeds exactly on valid definitions, with the edge index equal to filtering the edge list by source |
| Compiler.IndexEdges | app/graph/compiler.py:13-15 | The loop files every edge under its source, in order |
| Compiler.CompileLanggraph | app/graph/langgraph_runtime.py:109-153 | Succeeds exactly when the entry is a node and every node outside the Supervisor's protocol has at most one edge, without a condition; otherwise names such a node |
| Compiler.ProgramWellFormed | app/graph/langgraph_runtime.py:123-148 | Every compiled program's successors are its own nodes, capabilities return to the Supervisor, and the Supervisor dispatches to exactly the capabilities |
| Compiler.AdjacentOrIgnored | app/graph/langgraph_runtime.py:126-136 | A step of the validator's relation is a step of the program or an explicit edge out of the Supervisor's protocol |
| Reachability.PlainLiveExactly | app/graph/langgraph_runtime.py:138-148 | If and only if: with a Supervisor, the program's successor relation leads to an llm or transform node exactly when the node is on the entry's chain, within as many steps as there are such nodes |
| Reachability.ReachabilityAgreesExactly | app/graph/validator.py:95-124 | If and only if: the validator's relation and the program's successor relation reach the same nodes exactly when every explicit edge out of the Supervisor's protocol leads back into it or to the entry's chain |
| Reachability.AcceptedNodeNeverRuns | app/graph/langgraph_runtime.py:126-136 | A valid, compilable definition with a node that no run visits, in any thread state |
| Compiler.NoEscapesAgree | app/graph/langgraph_runtime.py:125-148 | Without an explicit edge out of the Supervisor's protocol, the program's successor relation leads to every accepted node |
| Visits.VisitedExactly | app/graph/langgraph_runtime.py:123-148 | If and only if: some fresh attempt with limit N visits a node exactly when the entry's chain comes to it below position N with known transform operations before it, or the node is a capability and the chain comes so to the Supervisor with one step to spare |
| Visits.RetriesVisitNoMore | app/runtime/run_manager.py:298-310 | However often a run is attempted again on its thread, no attempt visits a node that no fresh attempt can visit |
| Visits.EveryNodeRunsExactly | app/graph/validator.py:95-124 | If and only if: every node of an accepted graph is visited by some fresh attempt exactly when all llm and transform nodes are on the chain within the limit, and the other nodes are just its exit or the chain comes to the Supervisor with a step to spare |
| Visits.AcceptedNodeBehindTool | app/graph/langgraph_runtime.py:498-501 | A valid, compilable definition whose llm node the program's relation reaches, but no attempt on any thread visits |
| Execution.TraceShape | app/graph/langgraph_runtime.py:125-148 | A fresh attempt is a chain of llm and transform nodes followed by strict alternation of Supervisor and capability, or such a chain that fails at an unselected capability |
| Execution.NoPlainAfterSupervisor | app/graph/langgraph_runtime.py:126-136 | No llm or transform node is visited after the first Supervisor |
| Execution.CapabilityWasSelected | app/graph/langgraph_runtime.py:498-527 | A capability that completes comes right after a completed Supervisor whose accepted decision routes to it |
| Execution.DispatchMatchesExactly | app/graph/langgraph_runtime.py:505-527 | If and only if: every dispatched decision reaches a node of its own type exactly when the graph has no nameless and `None` capabilities of different types |
| Execution.DispatchIsSelectionExactly | app/graph/langgraph_runtime.py:508-525 | If and only if: it reaches the very node it names exactly when not both ids are in use |
| Execution.VisitedIsReachable | app/graph/langgraph_runtime.py:123-148 | Only nodes the program's relation reaches from the entry are ever visited |
| Misdispatch.ToolDecisionRunsRetriever | app/graph/langgraph_runtime.py:505-527 | A valid definition on which a decision for a tool makes a retriever node run to completion |
| Prelude.Lasso | app/graph/langgraph_runtime.py:138-148 | The chain of plain nodes is left within as many steps as there are plain nodes, or never |
| Prelude.StuckExactly | app/runtime/run_manager.py:298-310 | If and only if: with more steps than plain nodes, an undisturbed attempt stops among plain nodes exactly when the chain never leaves them |
| Prelude.StuckIsNotRetried | app/runtime/run_manager.py:354-355 | Such an attempt is reported as max_steps, stored as failed, and not retried |
| StateFold.StateIsTheFoldOfTheTrace | app/graph/langgraph_runtime.py:40-50 | A completed fresh attempt: result lists no transform wrote to are the in-order results of their type, messages are the input plus one reply per llm visit, control holds the last decision, runtime is unchanged |
| StateFold.ResultListExactly | app/graph/langgraph_runtime.py:288-435 | Without that proviso: a result list is what the chain left under its key, followed by the in-order results |
| StateFold.OutputIsFinalAnswer | app/graph/langgraph_runtime.py:288-291 | A completed attempt that ends at the Supervisor returns the answer of that last, final decision |
| CallBudget.AttemptBudget | app/graph/langgraph_runtime.py:125-148 | N node steps with subagent limit M ask for at most floor(N/2)*(M+2) completions plus 1 for odd N on a fresh thread, plus M+1 for odd N on any other |
| CallBudget.BudgetIsMet | app/graph/langgraph_runtime.py:125-148 | The fresh bound is the best possible, for every N and M, on every program that delegates to a planning subagent |
| CallBudget.ThreadStateKept | app/graph/langgraph_runtime.py:288 | Every attempt leaves the thread in a state the next attempt's bound applies to |
| CallBudget.AttemptAtMostHundred | app/runtime/run_manager.py:298-310 | With the limits 20 and 8 an attempt asks for at most 100 completions |
| JobAttempts.EntriesBounded | app/runtime/worker.py:184-192 | Along every run of the protocol a job's graph is entered at most once for each start of its handler |
| CallBudget.JobBudget | app/runtime/worker.py:95-146 | Along every run of the protocol, all the attempts that workers start on a job's graph ask together for at most 300 completions, and 100 more for each takeover |
| Subagents.Execute | app/capabilities/subagent.py:53-124 | The loop returns, asks and invokes exactly what its specification says, early returns included |
| Subagents.LoopMeaning | app/capabilities/subagent.py:86-119 | The loop in closed form: where it ends, with which requests and which invocations |
| Subagents.OnlyAllowedTools | app/capabilities/subagent.py:64-68 | Whatever the model answers, every invoked tool is named, allowlisted and registered |
| Subagents.SuccessExactly | app/capabilities/subagent.py:101-107 | If and only if: success at step k exactly when the steps before were tool rounds, k is within the budget and its reply is final |
| Subagents.TimeoutExactly | app/capabilities/subagent.py:120-124 | If and only if: timeout exactly when all steps were tool rounds, and then as many tools were invoked |
| Subagents.HistoryGrows | app/capabilities/subagent.py:70-119 | Step k is asked with the 2 or 3 opening messages and two for each earlier round, each history extending the last |
| Subagents.CallsBounded | app/capabilities/subagent.py:76-95 | At most one completion per step and one for a plan |
| Chunking.ChunkText | app/capabilities/embeddings.py:28-45 | Terminates; the chunks are the pieces up to the first that reaches the end, their number has the closed form, and they reassemble to the text |
| Chunking.CountOfChunks | app/capabilities/embeddings.py:35-44 | The count is max(1, ceil((length - overlap) / (size - overlap))) for a non-empty text |
| Chunking.ChunksRebuildText | app/capabilities/embeddings.py:35-44 | The first chunk followed by every later one without its first overlap characters is the text |
| Chunking.NeighboursShareOverlap | app/capabilities/embeddings.py:35-44 | Neighbours share exactly overlap characters, every chunk but the last is full, and the last is longer than the overlap |

## Left out

- Services.WorkerQueue.RunOnce: states one pass with nothing else touching the tables, because interleavings are the subject of `Protocol`, whose steps are the same transactions.
- Services.RunManager.ExecuteRunSync: takes what the graph program does as a parameter, and states one call with no other transaction between its read and its store; `Execution` says what the program can do, and `Protocol` has the interleavings.
- Services.RunManager.ExecuteJob: states one call with no other transaction between its reads and its store, because interleavings are the subject of `Protocol`.
- Streaming.ReceivedIsLogSliceExactly: speaks of a prefix of the slice, because what is still on the wire or not yet polled has not been received; `Streaming.CaughtUp` gives equality.
- Execution.TraceShape: is about a fresh thread, because on a thread that already holds a decision an entry capability may run first.
- CallBudget.AttemptBudget: counts calls of the model gateway, not the provider retries and fallbacks inside it.
- EventServices.DurableEmitter.Drain: takes a failed drain to have run all tasks, where the code raises at the first failure and lets the others finish afterwards.
- CallBudget.JobBudget: lets each attempt start in any thread state and meet any oracle, and does not follow the thread from one attempt to the next.
- Chunking.ChunkText: assumes 0 <= overlap < chunk_size, which app/api/rag.py:51 demands when a knowledge base is created.
- SQL, sessions and asyncio: each transaction is one atomic step, and the time it uses is the clock at that step; a statement that samples the time before waiting for a row lock is not distinguished.
- Time zones, clock skew between machines, and fairness or liveness of workers.
- `run_forever` and its back-off; `RunOnce` and `HeartbeatLoop` are the bodies that matter.
- `WorkerQueue.enqueue`: no code of the application calls it; jobs come from `create_run` and `resolve_and_enqueue`.
- The approval's reason column, the value an approved run is resumed with, and the resume itself: on the ordinary worker path the run has been set to running before `paused` is tested.
- SHA-256 of the arguments: taken to be injective, so an action id holds the arguments themselves.
- The events that the worker, `create_run` and `cancel_run` append: `EventLog` covers any writer, but the two systems are not composed, so a terminal event and the stored status are not related; the code emits the event first and the two may differ.
- Event subscribers, `clear`, redaction of payloads and the `node` column.
- PostgreSQL's 32-bit lock hash enters as an arbitrary function from runs to lock keys; collisions only serialize more.
- Floating-point numbers in payloads, and the blanks, underscores and non-ASCII digits that Python's `int` accepts in a header.
- LangGraph's engine and checkpoints: one node per step, the declared reducers, and a limit on node executions that raises; its own checks on reserved node ids are not modelled.
- The retry of a checkpointed thread appends the user message again; `CallBudget` allows any starting state and `Visits.RetriesVisitNoMore` follows the thread, the other results speak of one fresh thread.
- Non-ASCII case mapping and white space in transform nodes.
- How tool, retriever and approval nodes build their arguments, and which of their errors is raised: an oracle gives the result, the failure or the interrupt.
- Pydantic's checks of types and of structured replies: ill-typed definitions and decisions do not reach the modelled code.
- The default graph file, `app/graph/routing.py`, `app/services/runtime_guards.py`, model catalogue, tool scopes, calculator, retrieval ranking, memory, telemetry, web UI and the HTTP layer apart from `cancel_run` and the stream: not on the modelled path or only easy members.
