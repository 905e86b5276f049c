/** How one graph execution ends, how that ending is classified, and which endings are
    worth another job attempt. */
module Outcomes {
  import opened Domain

  datatype ErrorCategory =
    | ValidationError | Timeout | RateLimit | PermissionDenied | ProviderError
    | ToolError | RagError | SubagentError | InternalError | CancelledCategory

  /** The exception classes that the classifier tells apart. */
  datatype Failure =
    | RunCancelled(message: string)
    | RecursionLimit(message: string)
    | ModelCall(category: ErrorCategory, recoverable: bool, message: string)
    | OtherFailure(message: string)

  /** What came out of running the graph program once. */
  datatype Outcome =
    | Finished(output: string)
    | Interrupted
    | Raised(failure: Failure)

  /** What `execute_run_sync` returns. */
  datatype Execution = Execution(status: RunStatus, output: string, error: Option<string>, reason: string)

  function ClassifyFailure(f: Failure): (RunStatus, string, string) {
    match f
    case RunCancelled(m) => (Cancelled, "cancelled", m)
    case RecursionLimit(_) => (Failed, "max_steps", "recursion limit reached: max_steps exceeded")
    case ModelCall(category, recoverable, m) =>
      if category.Timeout? || category.RateLimit? then
        (Failed, "model_error:" + (if recoverable then "recoverable" else "fatal"), m)
      else (Failed, "model_error", m)
    case OtherFailure(m) => (Failed, "error", m)
  }

  function ExecutionOf(o: Outcome): Execution {
    match o
    case Finished(output) => Execution(Completed, output, None, "supervisor_final")
    case Interrupted => Execution(Paused, "", None, "approval_required")
    case Raised(f) =>
      var (status, reason, error) := ClassifyFailure(f);
      Execution(status, "", Some(error), reason)
  }

  predicate Retryable(reason: string) {
    reason == "error" || reason == "model_error:recoverable"
  }

  function PersistedStatus(status: RunStatus, reason: string): RunStatus {
    if status.Failed? && Retryable(reason) then Queued else status
  }

  /** How the job handler ends: it returns a run status, or raises the exception for a
      deterministic failure, or raises any other exception. */
  datatype Verdict =
    | Returned(status: RunStatus)
    | Deterministic(error: string)
    | Errored(error: string)

  /** The end of `execute_job` once `execute_run_sync` has returned. */
  function VerdictOf(e: Execution): Verdict {
    if e.status.Failed? then
      var error := if e.error.Some? && e.error.value != "" then e.error.value else "";
      if Retryable(e.reason)
      then Errored(if error != "" then error else "run execution failed")
      else Deterministic(e.reason + ": " + (if error != "" then error else "deterministic failure"))
    else Returned(e.status)
  }

  /** A failure that another attempt may cure: an unclassified exception, or a recoverable
      timeout or rate limit of a model call. */
  predicate Transient(f: Failure) {
    || f.OtherFailure?
    || (f.ModelCall? && f.recoverable && (f.category.Timeout? || f.category.RateLimit?))
  }

  /** Another attempt is spent exactly on the transient failures; every other ending is
      stored with a status the queue never leaves again, except an interrupt. */
  lemma RetriedExactlyWhenTransient(o: Outcome)
    ensures VerdictOf(ExecutionOf(o)).Errored? <==> o.Raised? && Transient(o.failure)
    ensures var e := ExecutionOf(o);
            PersistedStatus(e.status, e.reason).Queued? <==> VerdictOf(e).Errored?
    ensures var e := ExecutionOf(o);
            !VerdictOf(e).Errored? ==> Terminal(PersistedStatus(e.status, e.reason)) || o.Interrupted?
    ensures VerdictOf(ExecutionOf(o)).Deterministic? ==> PersistedStatus(ExecutionOf(o).status, ExecutionOf(o).reason).Failed?
  {
    assert "model_error:" + "recoverable" == "model_error:recoverable";
    assert ("model_error:" + "fatal")[12] == 'f' && "model_error:recoverable"[12] == 'r';
    assert |"error"| == 5 && |"max_steps"| == 9 && |"model_error"| == 11 && |"cancelled"| == 9;
    if o.Raised? {
      match o.failure
      case RunCancelled(_) =>
      case RecursionLimit(_) => assert "max_steps"[0] != "error"[0];
      case ModelCall(_, _, _) =>
      case OtherFailure(_) =>
    }
  }
}
