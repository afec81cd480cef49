/** Tasks, worker results and outcomes (src/hive/task.rs, src/hive/outcome/outcome.rs,
    src/bee/error.rs). */
module Tasks {
  import opened Wrappers

  type Input(==, !new)
  type Output(==, !new)
  type Error(==, !new)

  /** What `Worker::apply` returns: `Ok` or one of the `ApplyError` variants. */
  datatype ApplyResult =
    | Returned(value: Output)
    | Retryable(retryInput: Input, retryError: Error)
    | Fatal(fatalInput: Option<Input>, fatalError: Error)
    | Cancelled(cancelledInput: Input)
    | CaughtPanic(panicInput: Option<Input>, payload: string)

  datatype Outcome =
    | Success(value: Output, index: nat)
    | Failure(failedInput: Option<Input>, error: Error, index: nat)
    | Unprocessed(input: Input, index: nat)
    | Missing(index: nat)
    | Panic(panicInput: Option<Input>, payload: string, index: nat)
    | MaxRetriesAttempted(retriedInput: Input, retryError: Error, index: nat)

  /** The outcome tells what the worker answered for the task with this index: the kind of the answer,
      the worker's output, error or panic payload, and every input that the answer gives back. */
  predicate Reports(o: Outcome, answer: ApplyResult, index: nat) {
    && o.index == index
    && (o.Success? <==> answer.Returned?) && (o.Success? ==> o.value == answer.value)
    && (o.Unprocessed? <==> answer.Cancelled?) && (o.Unprocessed? ==> o.input == answer.cancelledInput)
    && (o.Panic? <==> answer.CaughtPanic?)
    && (o.Panic? ==> o.payload == answer.payload && o.panicInput == answer.panicInput)
    && (o.Failure? <==> answer.Fatal?)
    && (o.Failure? ==> o.error == answer.fatalError && o.failedInput == answer.fatalInput)
    && (o.MaxRetriesAttempted? <==> answer.Retryable?)
    && (o.MaxRetriesAttempted? ==> o.retryError == answer.retryError && o.retriedInput == answer.retryInput)
  }

  function FromWorkerResult(result: ApplyResult, index: nat): (o: Outcome)
    ensures Reports(o, result, index)
    ensures IsFailure(o) <==> result.Retryable? || result.Fatal? || result.CaughtPanic?
  {
    match result
    case Returned(value) => Success(value, index)
    case Retryable(input, error) => MaxRetriesAttempted(input, error, index)
    case Fatal(input, error) => Failure(input, error, index)
    case Cancelled(input) => Unprocessed(input, index)
    case CaughtPanic(input, payload) => Panic(input, payload, index)
  }

  predicate IsFailure(o: Outcome) {
    o.Failure? || o.Panic? || o.MaxRetriesAttempted?
  }

  /** A task: its input, its context (index and attempt number) and its outcome sender, named by
      a channel number. */
  datatype Task = Task(input: Input, index: nat, attempt: nat, tx: Option<nat>)

  function IntoUnprocessed(t: Task): Outcome {
    Unprocessed(t.input, t.index)
  }
}
