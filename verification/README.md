# A verified model of the Beekeeper hive

Beekeeper's `Hive` is a pool of worker threads. Its core is a concurrent protocol over a small shared
state: a task counter that packs two halves into one atomic word, a task channel, a retry queue with a
cached due time, a map of stored outcomes, two gates, and a sentinel per thread. Whether `join` may
return, whether a task can be lost or run twice, and whether results come back in order all depend on
the order of a few atomic steps. This project models that protocol in the `retry` build, the data
structures under it, and proves what every schedule keeps.

`dafny verify dfyconfig.toml` checks the whole project.

## How the model is built

- **Words, Counter**: `DualCounter` for every L in 1..63 as a class over one wrapping 64-bit word, its
  three calls written as the code computes them (update first, check afterwards), and its refinement of
  a pair of unbounded integers.
- **Tasks, Backoff, Delay**: tasks and outcomes; the retry delay with the code's checked arithmetic; the
  delay queue as a class over a real binary heap with sift loops, specified by a bag and the sequence
  of calls made on it.
- **Protocol**: the hive as a state machine. One action is one atomic access by a worker, a submitting
  thread or a controlling thread, and every thread has an explicit program counter. `Effect` is what an
  action does given the counter's reply, and `Step` adds the counter itself. `History` records what
  happened (indices issued, applications, losses, clean exits); no step depends on it.
- **CounterLaw, Ledger, Places, Provenance, Calls, Attempts, RetryCache, PureRuns, Suspension**: one
  invariant each, proved step by step for all actions. **Progress** is the measure executions use up.
- **Theorems, Service, Ordered, Retries**: what holds in every reachable state, that is, after any run of any
  hive. **Scenarios** builds runs in which the hive does less than it promises, and says exactly when.
- **Reorder**: `OutcomeIterator` as a class with its loop, proved against a specification that looks
  outcomes up by position; `Ordered` composes it with the protocol.
- **Gates**: the condition-variable protocol of both gates as a machine of any number of waiters and
  notifiers, and the gate's methods as programs over it. **JoinGate** and **ResumeGate** couple each
  gate with the hive; in JoinGate every look at `has_work` is three reads, with any other thread in
  between. **JoinWakeUps** is about who wakes a joiner, **JoinReturns** about what a return from
  `join` means, and **LostWakeUp**, **EarlyReturn** and **OthersReturn** are runs in which `join` does
  less than it says.
- **Threads, Steps, Hive**: `Shared` as a class whose methods are the code's methods. Ghost fields say where
  each thread stands and which actions were taken. `Yield` lets all other threads run between two
  accesses, and `Valid` makes each execution a run of the machine, so the theorems apply to it.
- **Batch, Store, Handles**: the lazy iterator of `prepare_batch` among other submitters; the outcome
  store and its counting and removing methods; handle counting and thread indices.

A hive is *in service* while it is not poisoned, some task sender is alive, no increment of the queued
half has overflowed and it has at most 65535 workers. As long as a handle lives, the first two hold.
In service no worker has left its loop. The code needs that: a cancelled sentinel still runs `finish_task`
(src/hive/hive.rs:726-733) and so decrements the active half without a transfer of its own. A run is
*orderly* as long as no worker has done so. The counter law carries the exits as a term and holds in
every run.

## Where the code does less than it says

- A suspension does not notify the join gate: a thread in `join` can sleep on although `has_work` is
  false. `LostWakeUp.SuspensionLosesAWakeUp` is such a run for any number of workers. In every run in
  service a sleeping joiner is left alone if and only if the hive is suspended, nothing is active and
  no worker is about to look or notify (`JoinWakeUps.JoinersServedInService`); so only after a
  suspension hit a hive with tasks queued and none active, and only until the next resume
  (`JoinWakeUps.JoinersAreWoken`).
- `join` can return while a task is being executed and the hive is in service: `has_work` reads the
  counter first and the suspension flag later, and in between a worker starts the task and a thread
  suspends the hive. `EarlyReturn.JoinReturnsTooEarly` is such a run, in which the promise of `join`
  is kept at no moment from entry to return. Without a suspension between the two reads, or with no
  task queued at the first, the promise is kept at the first; it is broken there if and only if the
  hive is not suspended yet and an index issued is still live (`JoinReturns.LookKeepsPromise`).
- `join` can also return on the look of another joiner, made before the call began: the phase is loaded
  before the mutex is taken, so it may be one that the other joiner is about to leave. In
  `OthersReturn.JoinReturnsOnAnothersLook` the whole call sees one hive, in service, not suspended,
  with a task queued. What holds in general is that the look was made during the phase it waited in
  (`JoinReturns.JoinReturnsAfterTheEnd`).
- After a clean exit the counter no longer counts: `Scenarios.CleanExitMiscounts` says by how much.
  Two runs show it: an idle worker leaves, and the counter claims 65535 active tasks; and the last
  handle is dropped while a worker executes, another one leaves, and the counter reads (0, 0). No
  thread is in `join` then, since it would borrow a handle; as long as a handle lives there is no
  clean exit (`Service.InServiceIsOrderly`).
- A task lost to a panic hides the results of all later inputs of its call: the iterators of `swarm`
  and `map` yield `Missing` for it again and again and never come to the outcomes behind it, which are
  there (`Ordered.PanicHidesTheRest`).
- A retry with a factor at attempt 65 panics the worker and loses the task; a hive can come to that if
  and only if it allows 65 retries and has a factor (`Scenarios.DelayLosesATaskIff`).
- `count` reports a stored `Missing` outcome as a failure and `num_failures` does not:
  `Store.CountAgreesIff`.
- `ok_or_unwrap_errors(true)` is documented to discard unprocessed inputs
  (src/hive/outcome/store.rs:238-240) and panics on them when nothing failed:
  `Store.OutcomeStore.OkOrUnwrapErrors`.
- A batch shorter than its claimed size stays counted for good: `Batch.TaskIterator.Collect`.
- Drains turn queued tasks into `Unprocessed` outcomes and never decrement the queued half
  (src/hive/shared.rs:200-203, 491-500). The counter law carries them as a term of its own.

## Model

| member | source | states |
|---|---|---|
| Theorems.JoinIsSound | src/hive/shared.rs:144-168 | in every reachable state before the first clean exit, if the counter reads (0, 0) then every issued index has been sent, stored, taken from the store or lost to a panic, exactly one of these, and no task or outcome is on its way |
| Theorems.JoinSeesEverythingEnded | src/hive/shared.rs:144-168 | the same for all issued indices at once, the form in which `has_work` and the join gate use it |
| Service.InServiceIsOrderly | src/hive/hive.rs:67-80 | while a hive is not poisoned, has a task sender, at most 65535 workers and no overflow, no worker is on its way out and no `finish_task` lacks its transfer |
| Service.JoinIsSoundInService | src/hive/shared.rs:163-174 | in such a hive the counter reads exactly the queued and active totals, and (0, 0) means that every index ever issued has ended |
| Service.CountsInService | src/hive/shared.rs:65-69 | in such a hive `transfer` and `finish_task` never fail, and an increment fails exactly when the left half is full |
| Scenarios.CleanExitMiscounts | src/hive/hive.rs:726-733 | a worker that leaves its loop in an orderly run decrements for nothing: it fails if and only if nothing is active, and otherwise the counter reads (0, 0) if and only if one task was active and none queued |
| Scenarios.IdleExitRuinsTheCounter | src/hive/hive.rs:726-733 | a run of one idle worker and no task in which the exit leaves the counter at 65535 active tasks |
| Scenarios.CleanExitHidesATask | src/hive/hive.rs:693-706 | a run in which, for any input, the last handle is dropped and poisons the hive while a worker executes the task; another worker leaves, and the counter reads (0, 0) |
| Theorems.ExactCounterLaw | src/hive/shared.rs:65-106 | after every run the counter word is (queued places + tasks drained + increments that panicked) + 2^48 * (active places + failed transfers - unmatched finishes) modulo 2^64; while runs stay orderly it reads back exactly |
| Theorems.NoCounterErrors | src/hive/shared.rs:482-485 | before the first clean exit, with at most 65535 workers and no overflow, no `transfer` and no `finish_task` of a busy or panicking worker reports an error |
| Theorems.IncrementFailsIffFull | src/hive/shared.rs:65-69 | `increment_left(n)` succeeds if and only if the tasks counted stay at or below 2^48 - 1 |
| Theorems.EveryIndexInOnePlace | src/hive/shared.rs:110-140 | in every reachable state each issued index is in exactly one place, and no other index is anywhere |
| Theorems.StoreNeverOverwrites | src/hive/shared.rs:238-261 | a step never replaces a stored outcome; only a client's removal makes it disappear |
| Theorems.DrainedHiveKeepsEverything | src/hive/shared.rs:491-515 | with all threads gone and both queues drained each index has ended, its outcome with the sender it was issued with, or in the store because that sender has no receiver |
| Theorems.WorkIsBounded | src/hive/hive.rs:810-822 | no index is applied more than max_retries + 1 times, and the hive applies at most (max_retries + 1) * indices times in all |
| Retries.BoundIsAttained | src/hive/shared.rs:403-409 | some run applies one index max_retries + 1 times, or 65 times if there is a retry factor and more retries are allowed |
| Scenarios.AttemptReached | src/hive/shared.rs:403-409 | every attempt number up to max_retries is reached by some run without a retry factor, and every one up to 64 with one |
| Progress.ExecutionsUseUpAttempts | src/hive/hive.rs:810-822 | in every run the sum of the attempts left to the live tasks is never negative, strictly decreases at every execution whatever its result, and grows only when indices are issued |
| Theorems.ExecutingHasAttemptsLeft | src/hive/shared.rs:403-409 | a task being executed has been applied once per earlier attempt and its attempt number is at most max_retries |
| Theorems.DelayPanicsIff | src/hive/shared.rs:428-442 | the computation for one task loses it if and only if a retry with a factor is at attempt 65 or more |
| Theorems.NoDelayPanics | src/hive/shared.rs:428-442 | with max_retries at most 64, or without a factor, no run ever loses a task that way |
| Scenarios.DelayLosesATaskIff | src/hive/shared.rs:428-442 | some run loses a task to the `unwrap` if and only if the hive allows 65 retries or more and has a retry factor; the failing run is built attempt by attempt |
| Theorems.CacheIsSound | src/hive/shared.rs:464-474 | before any drain and with the retry lock free, `next_retry` is None exactly for an empty queue and otherwise no later than the earliest entry, so the cheap check never hides a due task |
| Theorems.CompletedCallHasItsIndices | src/hive/hive.rs:207-233 | a finished submitting call holds one index per input, strictly increasing, each issued for that input and its sender |
| CounterLaw.StepKeepsLaw | src/hive/shared.rs:65-106 | every action changes the ideal totals exactly as its counter call changes the word, on success, failure, retry, panic and exit paths |
| CounterLaw.ActiveCallsSucceed | src/hive/shared.rs:144-149 | in an orderly state a transfer, and a finish with a transfer to match, cannot fail |
| CounterLaw.NothingLeft | src/hive/shared.rs:163-168 | zero totals leave no task and no outcome on its way anywhere |
| Ledger.StepKeepsBalance | src/hive/shared.rs:110-140 | every step keeps the count of places per index at one for issued indices and zero for others |
| Ledger.DeliveringIsUnstored | src/hive/shared.rs:238-241 | the index of an outcome on its way is not yet in the store |
| Provenance.EffectKeepsTrace | src/hive/shared.rs:110-118 | tasks and outcomes keep the sender their index was issued with; outcomes are stored only without a living receiver |
| Calls.EffectKeepsCalls | src/hive/shared.rs:76-106 | each submitting call has issued, counted and remaining inputs that make up its whole input in order |
| Attempts.EffectKeepsAttempts | src/hive/hive.rs:810-817 | the attempt number of every live task is the number of times it was applied, never above the limit |
| RetryCache.StepKeepsCache | src/hive/shared.rs:411-420 | every step keeps the cached time a lower bound except for the entry its lock holder is about to publish |
| Suspension.SuspensionBound | src/hive/shared.rs:456-486 | from a suspension to the next resume each worker starts at most one task, and none unless it had already passed the resume gate |
| Suspension.PoisonBound | src/hive/hive.rs:67-80 | from a poisoning on, for ever, each worker starts at most one task, and none unless it had found the flag unset before; a worker that leaves or panics never comes back, since a poisoned hive replaces no thread |
| PureRuns.EffectKeepsPure | src/hive/hive.rs:810-822 | with a pure worker every live task is in the middle of its sequential retry loop and every outcome is that loop's result |
| Ordered.RetryQueueRefinesLoop | src/hive/hive.rs:810-822 | in every run with a pure worker each outcome sent or stored equals the sequential loop over attempts 0, 1, ... up to max_retries (or is an input interrupted by a drain) |
| Retries.LoopReportsLastAttempt | src/hive/hive.rs:810-822 | the sequential loop reports the answer at the last attempt: the first whose answer is not retryable, or number max_retries (0 without retries), along the inputs that the retryable answers hand on |
| Retries.LastAttemptFrom | src/hive/shared.rs:403-409 | there is exactly one last attempt |
| Retries.QueueReportsLastAttempt | src/hive/hive.rs:810-822 | in every run with a pure worker and without a drain, whatever the schedule, each outcome sent or stored reports the worker's answer at the last attempt for the input issued with its index |
| Ordered.CallYieldsInInputOrder | src/hive/hive.rs:240-248 | with a pure worker, for every schedule of any number of workers, the iterator of `swarm` and `map` yields the sequential results in input order |
| Ordered.CallYieldsSoFar | src/hive/hive.rs:240-248 | at any moment, with workers still busy, the iterator over what has arrived yields the sequential results in input order as far as they have arrived |
| Ordered.ArrivalsStay | src/hive/shared.rs:110-118 | no step moves or removes what has arrived on an outcome channel |
| Ordered.CallYieldsAfterJoin | src/hive/hive.rs:300-310 | the same for a call that has issued all its inputs and none of whose tasks panicked, at any moment the counter reads (0, 0) |
| Ordered.PanicHidesTheRest | src/hive/outcome/iter.rs:50-72 | when all tasks of a call have ended and input number p is the first whose task panicked, any number of calls of the iterator yield the sequential results for the inputs below p, and from then on `Missing` for the index of p |
| Counter.DecomposeIsShiftAndMask | src/hive/counter.rs:47-49 | bit by bit, the two parts are the low L bits and the word shifted right by L |
| Counter.DualCounter.Get | src/hive/counter.rs:52-54 | the word is left + right * 2^L with both parts in range |
| Counter.DualCounter.IncrementLeft | src/hive/counter.rs:64-74 | the word changes whenever the size check passes, and the verdict is the stated check on the previous parts |
| Counter.DualCounter.DecrementRight | src/hive/counter.rs:80-92 | the same for a decrement of the right part, wrapping included |
| Counter.DualCounter.Transfer | src/hive/counter.rs:99-117 | the same for a transfer in one addition |
| Counter.RunRefines | src/hive/counter.rs:64-117 | for every L in 1..63 and every sequence of calls, failing ones included, the word equals the ideal left + 2^L * right modulo 2^64 |
| Counter.RunReads | src/hive/counter.rs:52-54 | whenever the ideal totals are in range, `get` returns exactly them |
| Counter.SucceedsIffInRange | src/hive/counter.rs:64-117 | from an in-range state a call is Ok if and only if its ideal result is in range |
| Counter.ErrorsNameTheHalf | src/hive/counter.rs:64-117 | from an in-range state the error of each call names the half that would over- or underflow, in the order of the checks |
| Counter.HalvesFillTheWord | src/hive/counter.rs:47-49 | the largest word has both halves at their maxima, which are therefore 2^L - 1 and 2^(64-L) - 1 |
| Counter.UnderflowWraps | src/hive/counter.rs:80-92 | a decrement of an empty right half fails and leaves the half at its maximum |
| Counter.UnchangedIffRejectedOrZero | src/hive/counter.rs:64-117 | a call leaves the word as it was if and only if its amount is zero or exceeds what the half concerned can hold |
| Backoff.DelayIsCappedExponential | src/hive/shared.rs:428-442 | the delay is min(factor * 2^(attempt - 1), 2^64 - 1) for attempts 1 to 64, and the computation panics exactly for larger ones |
| Backoff.DelayIsMonotone | src/hive/shared.rs:428-442 | the delay does not decrease with the attempt number |
| Gates.SleepersAreNotForgotten | src/hive/gate.rs:47-68 | while a waiter sleeps, the condition is true or some thread that made it false has yet to look or to notify |
| Gates.NotificationIsNotBlocked | src/hive/gate.rs:65-68 | and that notification is never stuck: its thread, or the holder of the mutex, has a step to take |
| Gates.ReturnsAreJustified | src/hive/gate.rs:47-62 | every return saw the condition false itself, under the mutex during its own phase, or left because the phase had moved |
| Gates.ReasonsAreTrue | src/hive/gate.rs:47-62 | a waiter is given a reason only in a step in which it is true: it sees the condition false on entry, or under the mutex in the present phase, or it holds the mutex in a phase other than its own |
| Gates.PhaseStepsAreJustified | src/hive/gate.rs:54-60 | each phase is left exactly once, by a waiter of that phase that saw the condition false during it |
| Gates.PhaseMovedHasWitness | src/hive/gate.rs:47-62 | a waiter that left because the phase moved owes it to such a step of its own phase |
| Gates.SharedGate.WaitWhile | src/hive/gate.rs:47-62 | when the waiting loop returns, this call has entered the gate and its reason is justified; it gives up only if it is blocked: asleep, or at the mutex that another thread holds |
| Gates.SharedGate.NotifyAllWaiters | src/hive/gate.rs:65-68 | once the notifier has had the mutex nobody is asleep |
| JoinGate.WhoEndsTheWork | src/hive/shared.rs:144-181 | the action that takes the last work away is a worker's `finish_task`, which notifies next, or a suspension or poisoning, which does not |
| JoinGate.WorkEndsByFinish | src/hive/shared.rs:144-149 | before the first clean exit only a worker's `finish_task` makes the counter show no work when it showed some, and that worker notifies next |
| JoinWakeUps.JoinersServedIff | src/hive/shared.rs:172-181 | in every run without poisoning or clean exit, whatever its suspensions: while a thread sleeps in `join`, it has work to wait for or a worker that will look or notify, if and only if the hive is not suspended, or a task is active, or there is such a worker |
| JoinWakeUps.JoinersServedInService | src/hive/shared.rs:172-181 | the same for every run of a hive in service, the conditions a handle's owner can see |
| JoinWakeUps.ResponsibleIsNotifying | src/hive/shared.rs:177-181 | a worker that will look or notify is between its `finish_task` and its `notify_all` |
| JoinWakeUps.JoinersAreWoken | src/hive/shared.rs:172-181 | no lost wake-up: in every run in which, since the last resume, no suspension hit a hive with tasks queued and none active, without poisoning or clean exit, a thread asleep in `join` has work to wait for or a worker that will look or notify |
| JoinWakeUps.JoinersAreWokenInService | src/hive/shared.rs:172-181 | the same for every such run of a hive in service |
| JoinReturns.LookKeepsPromise | src/hive/shared.rs:163-168 | a look without work in service reads the counter and later the suspension flag, and nothing in between: at the counter read no task is active, and unless the hive is suspended at the flag read every issued index has ended by then; the counter read keeps the promise of `join` unless tasks are queued then and a suspension comes between the two reads, and it breaks it if and only if the hive is not suspended yet and an issued index is live |
| JoinReturns.JoinReturnsAfterTheEnd | src/hive/shared.rs:170-174 | in every run of a hive in service, whatever its suspensions, each return from `join` goes back to such a look: the caller's own last look, in this very call, or, if the phase moved, one that a joiner made under the mutex during the phase the caller waited in, from the counter read on; and what `LookKeepsPromise` says holds of its two reads |
| JoinReturns.PromiseKeptIff | src/hive/shared.rs:170-174 | in service with no task active, the promise of `join` holds if and only if the hive is suspended or no issued index is live |
| EarlyReturn.JoinReturnsTooEarly | src/hive/shared.rs:163-174 | for any input, a run of one worker in service in which `join` returns while the task is executed, and at no moment from entry to return the promise of `join` is kept |
| OthersReturn.JoinReturnsOnAnothersLook | src/hive/gate.rs:47-62 | for any input, a run of one worker and two joiners in which `join` returns although its whole call sees one hive in service, not suspended, with a task queued: the other joiner looked during a suspension that was over, and left the phase that this call had loaded |
| LostWakeUp.SuspensionLosesAWakeUp | src/hive/shared.rs:215-224 | for any number of workers and any input, a run in which a suspension leaves a joiner asleep that was served before: no work, nobody to notify, all workers at the gate |
| LostWakeUp.FrozenJoinerSleepsOn | src/hive/shared.rs:215-224 | and whatever happens next short of a resumption, only a spurious wake-up ends its sleep |
| ResumeGate.SleepingWorkersAreResumed | src/hive/shared.rs:215-224 | in every run of the hive with its resume gate, a worker asleep there means that the hive is suspended or that a thread has unset the flag and is not through with its notification |
| Delay.DelayQueue.Push | src/hive/delay.rs:10-15 | adds the task with its time, keeps the heap, and returns that time |
| Delay.DelayQueue.NextAvailable | src/hive/delay.rs:19-21 | returns the least time present, None exactly for the empty queue |
| Delay.DelayQueue.TryPop | src/hive/delay.rs:24-35 | pops if and only if something is due, and then an item with the least time; otherwise leaves the heap alone |
| Delay.DelayQueue.DrainNext | src/hive/delay.rs:38-40 | hands out one task of the bag until none is left |
| Delay.DelayQueue.SiftUp | src/hive/delay.rs:69-73 | moving one item up restores the heap order under the reversed comparison and keeps the bag |
| Delay.DelayQueue.SiftDown | src/hive/delay.rs:69-73 | moving the root down restores the heap order and keeps the bag |
| Delay.RootIsEarliest | src/hive/delay.rs:69-73 | the root of a heap under the reversed comparison has the least time |
| Delay.BagIsPushedMinusRemoved | src/hive/delay.rs:10-40 | after any sequence of calls, what was pushed is what was handed out and what waits |
| Delay.PopsComeInOrder | src/hive/delay.rs:24-35 | no task comes out before it is due, and of two pops the later has the later time unless its item was pushed in between |
| Delay.HeadIsEarliest | src/hive/delay.rs:19-21 | the heap's head time is the earliest time of any listing of the same items |
| Delay.TookIsARetryStep | src/hive/shared.rs:468-474 | a task that `try_pop` returns under the retry lock is one that the protocol lets the worker take |
| Delay.NothingDueIsARetryStep | src/hive/shared.rs:468-474 | and None means that nothing is due there |
| Reorder.OutcomeIterator.constructor | src/hive/outcome/iter.rs:34-44 | takes no more outcomes than there are indices and buffers nothing |
| Reorder.OutcomeIterator.Advance | src/hive/outcome/iter.rs:50-72 | the loop over the buffer and the source computes the specification of one call |
| Reorder.NextIsLookup | src/hive/outcome/iter.rs:50-72 | one call returns the outcome of the next index and has read the source exactly as far as needed; if it is absent the call returns Missing and stays |
| Reorder.ReorderSpec | src/hive/outcome/iter.rs:38-72 | for any source and any number of calls: the k-th returns the outcome of the k-th index as long as all indices up to it have an outcome among the first `indices.len()` items of the source; from the first index on that has none, Missing for that one, even if its outcome comes later; after the last index, nothing |
| Reorder.SomeFirstLate | src/hive/outcome/iter.rs:38-72 | every source and order have such a first index, or the end of the order |
| Reorder.OnlyTheFirstMatter | src/hive/outcome/iter.rs:40-40 | no number of calls depends on the source from position `indices.len()` on |
| Reorder.PermutationIsSorted | src/hive/outcome/iter.rs:50-72 | a source holding exactly the wanted outcomes in any order comes out in the wanted order |
| Store.OutcomeStore.Count | src/hive/outcome/store.rs:45-54 | the three counts are the numbers of outcomes unprocessed, successful, and of any other kind |
| Store.CountAgreesIff | src/hive/outcome/store.rs:45-54 | the failure count of `count` is `num_failures` if and only if no Missing outcome is stored |
| Store.KindsPartition | src/hive/outcome/store.rs:75-127 | the kinds split the store |
| Store.OutcomeStore.AssertEmptyPanics | src/hive/outcome/store.rs:58-65 | panics if and only if something is stored that is not an allowed success |
| Store.OutcomeStore.Has | src/hive/outcome/store.rs:68-72 | true exactly when an outcome of the kind is stored |
| Store.OutcomeStore.NumOf | src/hive/outcome/store.rs:75-80 | the number of outcomes of the kind |
| Store.OutcomeStore.IndicesOf | src/hive/outcome/store.rs:83-89 | each index of the kind exactly once, in any order |
| Store.OutcomeStore.RemoveOne | src/hive/outcome/store.rs:155-162 | removes the index in every case, and panics exactly if an outcome of the wrong kind was there |
| Store.OutcomeStore.RemoveAllOf | src/hive/outcome/store.rs:165-171 | returns each outcome of the kind once with its index and leaves exactly the others |
| Store.OutcomeStore.RemoveAll | src/hive/outcome/store.rs:143-151 | returns the whole store strictly sorted by index and empties it |
| Store.OutcomeStore.Unwrap | src/hive/outcome/store.rs:222-236 | returns the outputs of all successes, and panics if and only if a failure or unprocessed input is stored |
| Store.OutcomeStore.CollectErrors | src/hive/outcome/store.rs:249-255 | returns the errors of all failures, or resumes a stored panic, with its payload, if and only if one is stored |
| Store.OutcomeStore.OkOrUnwrapErrors | src/hive/outcome/store.rs:241-260 | panics if and only if inputs are unprocessed and either they may not be dropped or nothing failed; otherwise it is Ok exactly without a failure, and resumes a stored panic, with its payload, exactly if one is stored |
| Store.VerdictOnAnswers | src/hive/outcome/store.rs:241-260 | for the outcomes of any worker answers: the workers' own errors, each once, if some answer was fatal or an exhausted retry and none was a panic; the payload of a caught panic exactly if there was one; the workers' outputs if no answer was an error |
| Tasks.FromWorkerResult | src/hive/outcome/outcome.rs:43-76 | the outcome tells what the worker answered: it has the index of the task, is a success, a failure, a panic, an exhausted retry or an unprocessed input exactly as the answer is, and carries the output, error, payload and input of the answer |
| Batch.PrepareBatch | src/hive/shared.rs:76-87 | counts the claimed size at once and fails exactly if that overflows; then reserves consecutive indices |
| Batch.TaskIterator.constructor | src/hive/shared.rs:76-87 | reserves min_size consecutive indices and yields nothing yet |
| Batch.TaskIterator.Advance | src/hive/shared.rs:88-105 | yields the next input; at the end panics exactly if the inputs were fewer than min_size; surplus inputs are counted one at a time, and one that the counter rejects, and no other, ends in an overflow |
| Batch.TaskIterator.Collect | src/hive/shared.rs:76-106 | among any other submitters, a proper end means one task per input in order, min_size consecutive indices then fresh ones, and exactly as many counted and reserved; a short batch leaves its surplus counted |
| Batch.Counters.Issue | src/hive/shared.rs:85-87 | the indices are consecutive, new, and the batch's own |
| Handles.ReferrersCountHandles | src/hive/hive.rs:692-706 | in every interleaving `num_referrers` is the number of handles not being dropped; poisoning happens only when there is none; when all are dropped the hive is poisoned |
| Handles.HuskOnlyForSoleHandle | src/hive/hive.rs:624-629 | `try_into_husk` proceeds if and only if its handle is the only one left |
| Handles.HandleCount.Clone | src/hive/hive.rs:649-656 | the new handle is counted before it exists, and the hive it belongs to is not poisoned |
| Handles.HandleCount.DropHandle | src/hive/hive.rs:693-706 | with the other threads running between the decrement and the read: if no referrer is left when it returns the hive is poisoned, and a poisoned hive has no handle left |
| Handles.HandleCount.TryIntoHusk | src/hive/hive.rs:624-631 | takes the inner value if and only if no other handle is left, and otherwise drops its own |
| Handles.StepKeepsCount | src/hive/hive.rs:646-656 | each step of clone, drop and try_into_husk keeps the count |
| Handles.BroodsPartition | src/hive/hive.rs:110-129 | the ranges handed to `brood` by any calls in any order are disjoint, and with the initial range cover exactly the indices below the number of threads |
| Handles.CallsAddWhatTheySay | src/hive/hive.rs:110-129 | whatever came before, `grow(n)` adds exactly n threads; `use_all_cores` raises the number to the cores, and leaves it and broods nothing if and only if it was as high already |
| Handles.ThreadsAreThoseWanted | src/hive/hive.rs:121-128 | after any calls in any order there are at least the initial number and at least each number wanted; if every call was `use_all_cores`, exactly the largest of these |
| Handles.GrowthsAddUp | src/hive/hive.rs:110-117 | if every call was `grow`, the number is the initial one and the sum of all growths |
| Hive.Shared.constructor | src/hive/shared.rs:14-34 | a new hive is the initial state of the machine |
| Hive.Shared.WaitForResume | src/hive/shared.rs:457-458 | passes the gate only when the hive is not suspended |
| Hive.Shared.HasRetry | src/hive/shared.rs:464-467 | before any drain and with the retry lock free, a task that is due is never missed |
| Hive.Shared.TryPopRetry | src/hive/shared.rs:468-470 | takes the lock and the earliest task, which is due, out of the heap; or leaves the heap and the lock alone because nothing is due |
| Hive.Shared.UpdateAfterRetry | src/hive/shared.rs:471-473 | releases the lock, and before any drain the cached time is None exactly for an empty queue and otherwise bounds every entry |
| Hive.Shared.RecvTimeout | src/hive/shared.rs:476-480 | takes the oldest message; reports disconnection only for an empty channel without senders, and a timeout only for an empty channel or a message that came too late |
| Hive.Shared.TransferOne | src/hive/shared.rs:482-485 | moves the task to the active half; fails only if the counter is not reliable (out of service and after a clean exit) |
| Hive.Shared.NextTask | src/hive/shared.rs:456-486 | a task returned is being executed, was transferred and has been applied once per attempt; each error is explained by the state of the hive; without either the worker is at the gate of a suspended hive, or at the retry lock, which is taken, or the run holds a timeout of its own for every round it was given, at an empty channel in each round whose message did not come too late |
| Hive.Shared.CountForRetry | src/hive/shared.rs:444-447 | increments under the lock and keeps the lock unless it fails; with a reliable counter it succeeds if and only if one more queued task fits the left half, and a failure panics the worker |
| Hive.Shared.PushOntoRetry | src/hive/shared.rs:448-448 | adds exactly the task with its time to the queue |
| Hive.Shared.PublishUntil | src/hive/shared.rs:449-449 | the same after a push, and the cached time is at most the pushed one |
| Hive.Shared.QueueRetry | src/hive/shared.rs:422-450 | the trace holds the counter call, made before the queue grew by exactly this task; at the end its time, no earlier than its delay from the beginning of the call, is published and the lock is free; it blocks only while the lock is taken |
| Hive.Shared.SendOrStoreOutcome | src/hive/shared.rs:110-118 | the outcome is the latest on its channel if a receiver lives, else stored under its index |
| Hive.Shared.Conclude | src/hive/hive.rs:812-821 | a retryable answer with attempts left puts the task, with the answer's input and the next attempt number, into the retry queue, due no earlier than its delay; everything else is handed over as an outcome that reports the answer |
| Hive.Shared.Execute | src/hive/hive.rs:810-822 | consumes exactly one answer of `apply`; ends with an outcome that reports it handed over, or with the retry queued, due no earlier than its delay, or panics only by `apply`, by the delay or by an overflow |
| Hive.Shared.FinishDelivered | src/hive/shared.rs:144-149 | the decrement after an execution fails only if the counter is not reliable |
| Hive.Shared.FinishExiting | src/hive/hive.rs:726-733 | a cancelled sentinel still decrements; with a reliable counter it fails if and only if nothing is active |
| Hive.Shared.FinishPanicking | src/hive/hive.rs:731-733 | with a reliable counter the decrement of a panicking worker succeeds, so the process is not aborted |
| Hive.Shared.HasWork | src/hive/shared.rs:163-168 | three separate reads; false for a hive poisoned before the call; a negative answer in a quiet hive with a reliable counter means that every index issued by the moment of the counter read had ended then |
| Hive.Shared.NoWorkNotifyAll | src/hive/shared.rs:177-181 | notifies exactly when `has_work` was found false |
| Hive.Shared.RunTask | src/hive/hive.rs:67-75 | executes the task with exactly one answer of `apply`, finishes it and goes back to the gate |
| Hive.Shared.RunWorker | src/hive/hive.rs:53-80 | executes exactly one task per answer it uses up, in their order, interleaved with any other threads; it uses fewer answers only if a `next_task` failed, which leaves the worker dead, or gave up as above, or a task ended in a panic without a replacement, in an abort, or at a retry lock that is taken |
| Hive.Shared.CountAll | src/hive/shared.rs:65-69 | counts the whole input of a call; with a reliable counter exactly if it fits |
| Hive.Shared.TakeAllIndices | src/hive/shared.rs:85-87 | consecutive indices recorded for the call's inputs |
| Hive.Shared.RejectOneTask | src/hive/shared.rs:123-140 | a rejected task becomes an Unprocessed outcome, sent or stored |
| Hive.Shared.SendBatch | src/hive/hive.rs:207-233 | returns consecutive new indices, each recorded for its input and sender, with all tasks of the call sent or all rejected; unless the count overflows |
| Hive.Shared.SendOne | src/hive/hive.rs:156-171 | returns a new index, recorded for the input, its task sent or rejected; unless the count overflows |
| Hive.Shared.TakeUnprocessed | src/hive/shared.rs:250-261 | removes exactly the Unprocessed outcomes and returns each input once |
| Hive.Shared.ResumeAndSubmit | src/hive/hive.rs:591-605 | does nothing unless the flag was set; then, at the returned moment of the run, exactly the outcomes stored unprocessed leave the store, and their inputs are submitted again, each once, with consecutive indices that did not exist at that moment and all their tasks sent or all rejected; or the call panics because they overflow the count |
| Hive.Shared.Poison | src/hive/shared.rs:200-203 | sets the flag; when it reports to have drained, the channel was empty at a named moment after the call began and the retry queue is empty at the end; otherwise it has received as many tasks as it was given and there are more, or it is at the retry lock, which is taken |
| Hive.Shared.DrainDeliverTask | src/hive/shared.rs:307-316 | a drained task becomes an Unprocessed outcome, sent or stored |
| Hive.Shared.DrainRetryQueue | src/hive/shared.rs:496-500 | empties the retry queue although other threads run, because it holds the lock |
| Hive.Shared.TryIntoHusk | src/hive/shared.rs:503-515 | with all threads gone both queues end empty, and every index ever issued has ended, its outcome with its sender or in the husk |

## Left out

- Gates.SharedGate.WaitWhile: a blocked thread waits for ever in the code; the method gives up after a given number of looks if it is blocked then, because nothing bounds the wait.
- Hive.Shared.NextTask: waits at the resume gate and for the retry lock are bounded in the same way, the number of rounds is a parameter, and so is in which of them a message comes too late.
- Hive.Shared.Poison: a drain that finds the channel full again and again, or the retry lock taken, is reported as still under way instead of running for ever.
- Ordered.CallYieldsInInputOrder: for a worker that is a function of input and attempt, before any drain, for an outcome channel used by one call (as `map` and `swarm` create it) with a living receiver, once every task of the call has ended without panic or failed transfer; `Ordered.CallYieldsSoFar` says what a receiver reads before that, and `Ordered.PanicHidesTheRest` what it reads after a panic.
- Delay.DelayQueue.TryPop: the standard library's heap is modelled by the usual sift loops; the order among equal times may differ from it.
- Handles.HandleCount.TryIntoHusk: stops before the wait for the workers; `Hive.Shared.TryIntoHusk` goes on after it, when all threads are gone.
- Weak memory: atomics are sequentially consistent, and taking a lock is merged with the first access made under it.
- Widths: indices, phases, attempt numbers and the time are unbounded; only the packed counter and the delay arithmetic wrap, saturate or overflow as in the code.
- Time: a clock that some action advances; `recv_timeout` may time out at any moment.
- The non-`retry` build: its `next_task` has no retry queue and poisons the hive when a transfer fails.
- Channels: a sequence with a flag for living senders; outcome channels with a set of receivers that hung up.
- `Worker::apply` is any answer or a panic, and `Queen::create` is assumed not to panic.
- A fuel-free proof that `try_into_husk` terminates: workers of a suspended hive never leave the gate, so its spin loop may not end.
- Wake-ups of a condition variable may also be spurious; the mutex is not fair.
- Threads, names, stack sizes, core pinning, builders and configuration defaults, `scan*`, `Husk::into_hive*`, iteration order of the hash map: easy or platform code.
- src/hive/scoped/hive.rs is unfinished and not compiled.
