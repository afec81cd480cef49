/** What the retry loop computes, said without the loop: the answer at the last attempt counts, and the
    last attempt is the first whose answer is not retryable, or the last one allowed. */
module Retries {
  import opened Wrappers
  import opened Tasks
  import opened Protocol
  import opened PureRuns
  import opened Ordered
  import opened Scenarios
  import Theorems

  /** The input of attempt number n, as the answers of the earlier attempts hand it on. */
  function InputAt(f: PureWorker, input: Input, n: nat): Input {
    if n == 0 then input
    else
      var r := f(InputAt(f, input, n - 1), n - 1);
      if r.Retryable? then r.retryInput else InputAt(f, input, n - 1)
  }

  function AnswerAt(f: PureWorker, input: Input, n: nat): ApplyResult {
    f(InputAt(f, input, n), n)
  }

  /** All earlier attempts asked for a retry; this one does not, or it is number max_retries (0 if there
      are no retries). */
  predicate IsLastAttempt(f: PureWorker, maxRetries: Option<nat>, input: Input, n: nat) {
    var max := if maxRetries.Some? then maxRetries.value else 0;
    && n <= max && (forall k :: 0 <= k < n ==> AnswerAt(f, input, k).Retryable?)
    && (n == max || !AnswerAt(f, input, n).Retryable?)
  }

  /** There is exactly one last attempt. */
  lemma {:induction false} LastAttemptFrom(f: PureWorker, maxRetries: Option<nat>, input: Input, k: nat) returns (n: nat)
    requires k <= if maxRetries.Some? then maxRetries.value else 0
    requires forall i :: 0 <= i < k ==> AnswerAt(f, input, i).Retryable?
    ensures IsLastAttempt(f, maxRetries, input, n)
    ensures forall m :: IsLastAttempt(f, maxRetries, input, m) ==> m == n
    decreases (if maxRetries.Some? then maxRetries.value else 0) - k
  {
    n := k;
    if AnswerAt(f, input, k).Retryable? && maxRetries.Some? && k < maxRetries.value {
      n := LastAttemptFrom(f, maxRetries, input, k + 1);
    }
  }

  lemma {:induction false} LoopFrom(f: PureWorker, cfg: Config, input: Input, index: nat, k: nat, n: nat)
    requires IsLastAttempt(f, cfg.maxRetries, input, n) && k <= n
    ensures RetryLoop(f, cfg, InputAt(f, input, k), k, index) == FromWorkerResult(AnswerAt(f, input, n), index)
    decreases n - k
  {
    if k < n {
      assert AnswerAt(f, input, k).Retryable?;
      LoopFrom(f, cfg, input, index, k + 1, n);
    }
  }

  /** The retry loop reports the answer of the worker at the last attempt. */
  lemma LoopReportsLastAttempt(f: PureWorker, cfg: Config, input: Input, index: nat) returns (n: nat)
    ensures IsLastAttempt(f, cfg.maxRetries, input, n)
    ensures Reports(RetryLoop(f, cfg, input, 0, index), AnswerAt(f, input, n), index)
  {
    n := LastAttemptFrom(f, cfg.maxRetries, input, 0);
    LoopFrom(f, cfg, input, index, 0, n);
  }

  /** In every run of a pure worker without a drain, whatever the schedule: an outcome that was sent or
      stored reports the worker's answer at the last attempt for the input issued with its index. */
  lemma QueueReportsLastAttempt(s: State, f: PureWorker, o: Outcome) returns (n: nat)
    requires PurelyReachable(s, f) && !s.hist.everDrained
    requires (exists tx :: Parcel(tx, o) in s.outlet.sent) || (o.index in s.outlet.store && s.outlet.store[o.index] == o)
    ensures o.index < |s.hist.log|
    ensures IsLastAttempt(f, s.cfg.maxRetries, s.hist.log[o.index].input, n)
    ensures Reports(o, AnswerAt(f, s.hist.log[o.index].input, n), o.index)
  {
    RetryQueueRefinesLoop(s, f);
    n := LoopReportsLastAttempt(f, s.cfg, s.hist.log[o.index].input, o.index);
  }

  /** The bound on the applications of one index is attained: by a worker that always asks for a retry,
      unless the delay of attempt 65 stops it. */
  lemma BoundIsAttained(cfg: Config, x: Input, e: Error) returns (s: State)
    ensures Reachable(s) && s.cfg == cfg
    ensures var max := if cfg.maxRetries.Some? then cfg.maxRetries.value else 0;
            s.hist.applies[0] == 1 + if cfg.retryFactor.Some? && max > 64 then 64 else max
  {
    var max := if cfg.maxRetries.Some? then cfg.maxRetries.value else 0;
    var k := if cfg.retryFactor.Some? && max > 64 then 64 else max;
    var before := AttemptReached(cfg, x, e, k);
    Theorems.ExecutingHasAttemptsLeft(before, 0);
    s := AppliedOnceMore(before, TheTask(x, k), Retryable(x, e));
  }

  lemma AppliedOnceMore(s: State, task: Task, result: ApplyResult) returns (s': State)
    requires Reachable(s) && s.workers == [Executing(task)] && !s.flags.aborted
    ensures Reachable(s') && s'.cfg == s.cfg
    ensures s'.hist.applies[task.index] == s.hist.applies[task.index] + 1
  {
    var a := OfWorker(0, ApplyReturns(result));
    s' := Step(s, a).value;
    StaysReachable(s, a, s');
  }
}
