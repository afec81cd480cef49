/** What holds in every state that any schedule of any hive can reach. */
module Theorems {
  import opened Wrappers
  import opened Tasks
  import opened Sums
  import opened Protocol
  import opened Ledger
  import opened Places
  import opened Provenance
  import opened Calls
  import opened Attempts
  import opened RetryCache
  import Counter
  import CounterLaw
  import Backoff
  import Words

  // ------------------------------------------------------------------------------------------
  // The invariant
  // ------------------------------------------------------------------------------------------

  ghost predicate Invariant(s: State) {
    && CounterLaw.Law(s) && CounterLaw.Ranged(s)
    && Balanced(s)
    && Traced(s) && AllCallsTraced(s)
    && AttemptsCounted(s)
    && Locked(s) && CacheBounds(s)
  }

  /** A hive whose workers are all at the gate, with no submitter and empty queues. */
  ghost predicate Fresh(s: State) {
    && s.num.word == 0
    && s.queues == Queues(0, [], [], None, None) && s.outlet == Outlet([], map[], {})
    && (forall w :: 0 <= w < |s.workers| ==> s.workers[w] == AtGate) && s.subs == [] && s.drainer == Resting
    && s.hist == History([], multiset{}, multiset{}, multiset{}, multiset{}, 0, 0, 0, 0, false, false)
  }

  lemma FreshCounts(s: State)
    requires Fresh(s)
    ensures CounterLaw.Totals(s) == Counter.Totals(0, 0)
    ensures Balanced(s)
  {
    SumOfNothing(s.workers, WorkerQueued);
    SumOfNothing(s.workers, WorkerActive);
    forall i: nat
      ensures Live(s, i) + Settled(s, i) == 0
    {
      CountOfNothing(s.workers, WorkerLive, i);
      CountOfNothing(s.workers, WorkerSettled, i);
    }
  }

  lemma FreshRecords(s: State)
    requires Fresh(s)
    ensures Traced(s) && AllCallsTraced(s) && AttemptsCounted(s) && Locked(s) && CacheBounds(s)
    ensures CounterLaw.AllCounted(s)
  {
  }

  lemma FreshHolds(s: State)
    requires Fresh(s) && s.num.bits == LEFT_BITS
    ensures Invariant(s)
  {
    FreshCounts(s);
    FreshRecords(s);
    Counter.ZeroIsPacked(s.num.bits);
    assert CounterLaw.Ranged(s);
  }

  lemma InitHolds(cfg: Config, n: nat)
    ensures Invariant(Init(cfg, n))
  {
    var s := Init(cfg, n);
    assert Fresh(s);
    FreshHolds(s);
  }

  lemma EffectKeepsRecords(s: State, a: Action, reply: Reply, t: State)
    requires Balanced(s) && Traced(s) && AllCallsTraced(s) && AttemptsCounted(s)
    requires Effect(s, a, reply) == Some(t)
    ensures Traced(t) && AllCallsTraced(t) && AttemptsCounted(t)
  {
    EffectKeepsTrace(s, a, reply, t);
    EffectKeepsCalls(s, a, reply, t);
    EffectKeepsAttempts(s, a, reply, t);
  }

  /** The records do not depend on the counter word. */
  lemma RecordsIgnoreNum(t: State, num: Counter.Cell)
    requires Traced(t) && AllCallsTraced(t) && AttemptsCounted(t)
    ensures var s' := t.(num := num); Traced(s') && AllCallsTraced(s') && AttemptsCounted(s')
  {
  }

  lemma StepKeepsInvariant(s: State, a: Action, s': State)
    requires Invariant(s) && Step(s, a) == Some(s')
    ensures Invariant(s')
  {
    CounterLaw.StepKeepsLaw(s, a, s');
    CounterLaw.StepKeepsRange(s, a, s');
    StepKeepsBalance(s, a, s');
    StepKeepsCache(s, a, s');
    var reply := ReplyTo(s.num, CallOf(a));
    var t := Effect(s, a, reply).value;
    EffectKeepsRecords(s, a, reply, t);
    RecordsIgnoreNum(t, s'.num);
  }

  lemma {:induction false} RunKeepsInvariant(s: State, actions: seq<Action>, s': State)
    requires Invariant(s) && Run(s, actions) == Some(s')
    ensures Invariant(s')
    decreases |actions|
  {
    if actions != [] {
      var t := Step(s, actions[0]).value;
      StepKeepsInvariant(s, actions[0], t);
      RunKeepsInvariant(t, actions[1..], s');
    }
  }

  lemma ReachableInvariant(s: State)
    requires Reachable(s)
    ensures Invariant(s)
  {
    var cfg, n, actions :| Run(Init(cfg, n), actions) == Some(s);
    InitHolds(cfg, n);
    RunKeepsInvariant(Init(cfg, n), actions, s);
  }

  // ------------------------------------------------------------------------------------------
  // The task counter
  // ------------------------------------------------------------------------------------------

  /** The counter law, for every run, with failures, retries, panics and exits. */
  lemma ExactCounterLaw(s: State)
    requires Reachable(s)
    ensures s.num.word == (Queued(s) + Active(s) * Words.Pow2(s.num.bits)) % Words.WORD
    ensures s.num.bits == LEFT_BITS
    ensures CounterLaw.Orderly(s) ==> s.num.Read() == (Queued(s), Active(s))
  {
    ReachableInvariant(s);
    CounterLaw.LawWord(s);
    if CounterLaw.Orderly(s) {
      CounterLaw.CounterReads(s);
    }
  }

  /** Before the first clean exit, with at most 65535 workers and no overflowed increment, no
      `transfer` and no `finish_task` of a busy or panicking worker reports an error. */
  lemma NoCounterErrors(s: State, a: Action)
    requires Reachable(s) && CounterLaw.Orderly(s)
    requires CounterLaw.MovesActive(a) && Step(s, a).Some?
    ensures ReplyTo(s.num, CallOf(a)).Fine?
  {
    ReachableInvariant(s);
    CounterLaw.EffectEnabled(s, a, ReplyTo(s.num, CallOf(a)));
    CounterLaw.ActiveCallsSucceed(s, a);
  }

  /** An increment of the queued half fails exactly when the tasks counted would exceed 2^48 - 1. */
  lemma IncrementFailsIffFull(s: State, a: Action)
    requires Reachable(s) && CounterLaw.Orderly(s)
    requires CallOf(a).Some? && CallOf(a).value.IncrementLeft?
    ensures ReplyTo(s.num, CallOf(a)).Fine? <==> Queued(s) + CallOf(a).value.n <= Counter.LMax(s.num.bits)
    ensures Counter.LMax(s.num.bits) == 0xFFFF_FFFF_FFFF
  {
    Words.Pow2Of48();
    ReachableInvariant(s);
    Counter.SucceedsIffInRange(s.num.bits, CounterLaw.Totals(s), CallOf(a).value);
  }

  /** When the counter reads (0, 0), every index ever assigned has ended: its outcome was sent, is
      stored or was taken from the store, or its execution panicked - exactly one of these. No
      task is queued, executing, waiting for a retry or between two of these places. */
  lemma JoinIsSound(s: State, i: nat)
    requires Reachable(s) && CounterLaw.Orderly(s)
    requires s.num.Read() == (0, 0) && i < s.queues.next
    ensures Live(s, i) == 0 && Count(s.workers, WorkerSettled, i) == 0
    ensures Shipped(s.outlet, i) + s.hist.taken[i] + s.hist.panicked[i] == 1
    ensures s.hist.dropped[i] == 0
  {
    ReachableInvariant(s);
    CounterLaw.CounterReads(s);
    CounterLaw.NothingLeft(s, i);
    assert Live(s, i) + Settled(s, i) == 1;
    assert s.hist.dropped == multiset{};
  }

  /** Every index issued so far has ended: its outcome was sent, stored or taken, or its execution
      panicked, and its task is nowhere in the hive. */
  ghost predicate EverythingEnded(s: State) {
    forall i: nat :: i < s.queues.next ==>
      Live(s, i) == 0 && Shipped(s.outlet, i) + s.hist.taken[i] + s.hist.panicked[i] == 1
  }

  lemma JoinSeesEverythingEnded(s: State)
    requires Reachable(s) && CounterLaw.Orderly(s) && s.num.Read() == (0, 0)
    ensures EverythingEnded(s)
  {
    forall i: nat | i < s.queues.next
      ensures Live(s, i) == 0 && Shipped(s.outlet, i) + s.hist.taken[i] + s.hist.panicked[i] == 1
    {
      JoinIsSound(s, i);
    }
  }

  /** With nothing active, what is not live has ended. */
  lemma IdleAndNotLive(s: State, i: nat)
    requires Reachable(s) && CounterLaw.Orderly(s) && i < s.queues.next
    requires Active(s) == 0 && Live(s, i) == 0
    ensures Shipped(s.outlet, i) + s.hist.taken[i] + s.hist.panicked[i] == 1
  {
    ReachableInvariant(s);
    CounterLaw.WeightBounds(s.workers, s.subs);
    CountOfNothing(s.workers, WorkerSettled, i);
    assert Live(s, i) + Settled(s, i) == 1;
    assert s.hist.dropped == multiset{};
  }

  // ------------------------------------------------------------------------------------------
  // Conservation
  // ------------------------------------------------------------------------------------------

  /** In every run each issued index is in exactly one place, and no other index is anywhere. */
  lemma EveryIndexInOnePlace(s: State, i: nat)
    requires Reachable(s)
    ensures Live(s, i) + Settled(s, i) == if i < s.queues.next then 1 else 0
  {
    ReachableInvariant(s);
  }

  /** The outcome, with its sender, that an action sends or stores. */
  function DeliveredBy(s: State, a: Action): Option<(Outcome, Option<nat>)> {
    if a.OfWorker? && a.wa.DeliverOutcome? && a.w < |s.workers| && s.workers[a.w].Delivering? then
      Some((s.workers[a.w].outcome, s.workers[a.w].tx))
    else
      match TurnedUnprocessed(s, a)
      case Some(t) => Some((IntoUnprocessed(t), t.tx))
      case None => None
  }

  lemma DeliveredIsUnstored(s: State, a: Action)
    requires Balanced(s) && DeliveredBy(s, a).Some?
    ensures DeliveredBy(s, a).value.0.index !in s.outlet.store.Keys
  {
    if a.OfWorker? {
      DeliveringIsUnstored(s, a.w);
    } else if a.OfSubmitter? {
      ReadyIsUnstored(s, a.u);
    } else {
      LiveIsUnstored(s, InHand(s.drainer).value.index);
    }
  }

  /** What an action does to the store. */
  function StoreAfter(s: State, a: Action): map<nat, Outcome> {
    if a.OfControl? && a.ca.TakeStored? then s.outlet.store - a.ca.keys
    else
      match DeliveredBy(s, a)
      case Some((o, tx)) => Deliver(s.outlet, o, tx).store
      case None => s.outlet.store
  }

  lemma WorkerStores(s: State, w: nat, a: WorkerAction, reply: Reply, t: State)
    requires WorkerStep(s, w, a, reply) == Some(t)
    ensures t.outlet.store == StoreAfter(s, OfWorker(w, a))
  {
  }

  lemma SubmitterStores(s: State, u: nat, a: SubmitterAction, reply: Reply, t: State)
    requires SubmitterStep(s, u, a, reply) == Some(t)
    ensures t.outlet.store == StoreAfter(s, OfSubmitter(u, a))
  {
  }

  lemma ControlStores(s: State, a: ControlAction, t: State)
    requires ControlStep(s, a) == Some(t)
    ensures t.outlet.store == StoreAfter(s, OfControl(a))
  {
  }

  lemma StepStores(s: State, a: Action, s': State)
    requires Step(s, a) == Some(s')
    ensures s'.outlet.store == StoreAfter(s, a)
  {
    var reply := ReplyTo(s.num, CallOf(a));
    var t := Effect(s, a, reply).value;
    match a
    case OfWorker(w, wa) => WorkerStores(s, w, wa, reply, t);
    case OfSubmitter(u, ua) => SubmitterStores(s, u, ua, reply, t);
    case OfControl(ca) => ControlStores(s, ca, t);
  }

  /** A stored outcome is never overwritten: it stays until a client takes it. */
  lemma StoreNeverOverwrites(s: State, a: Action, s': State, i: nat)
    requires Reachable(s) && Step(s, a) == Some(s') && i in s.outlet.store.Keys
    ensures i in s'.outlet.store.Keys ==> s'.outlet.store[i] == s.outlet.store[i]
    ensures i !in s'.outlet.store.Keys ==> a.OfControl? && a.ca.TakeStored? && i in a.ca.keys
  {
    ReachableInvariant(s);
    StepStores(s, a, s');
    if DeliveredBy(s, a).Some? {
      DeliveredIsUnstored(s, a);
    }
  }

  /** Once all threads are gone and the queues are drained, each index has ended: its outcome was
      sent to the sender it was issued with, or is in the store because it has no living receiver,
      or was taken from the store, or the task was lost to a panic or to a failed transfer. */
  lemma DrainedHiveKeepsEverything(s: State, i: nat)
    requires Reachable(s) && i < s.queues.next
    requires NoThreads(s) && s.drainer.Resting? && s.queues.channel == [] && s.queues.retry == []
    ensures Shipped(s.outlet, i) + s.hist.taken[i] + s.hist.panicked[i] + s.hist.dropped[i] == 1
    ensures i < |s.hist.log|
    ensures forall p :: p in s.outlet.sent && p.outcome.index == i ==> s.hist.log[i].tx == Some(p.tx)
    ensures i in s.outlet.store.Keys ==> s.outlet.store[i].index == i && Homeless(s.hist.log, s.outlet.hungUp, i)
  {
    ReachableInvariant(s);
    forall x | x in s.workers
      ensures x == Dead
    {
      var w :| 0 <= w < |s.workers| && s.workers[w] == x;
    }
    CountOfNothing(s.workers, WorkerLive, i);
    CountOfNothing(s.workers, WorkerSettled, i);
    forall u | u in s.subs
      ensures SubmitterLive(u, i) == 0
    {
      var k :| 0 <= k < |s.subs| && s.subs[k] == u;
    }
    CountOfNothing(s.subs, SubmitterLive, i);
    assert Live(s, i) + Settled(s, i) == 1;
    forall p | p in s.outlet.sent && p.outcome.index == i
      ensures s.hist.log[i].tx == Some(p.tx)
    {
      var k :| 0 <= k < |s.outlet.sent| && s.outlet.sent[k] == p;
    }
  }

  // ------------------------------------------------------------------------------------------
  // Retries
  // ------------------------------------------------------------------------------------------

  /** No task is applied more than max_retries + 1 times, so the whole hive applies its worker at
      most (max_retries + 1) * (indices issued) times, whatever the schedule. */
  lemma WorkIsBounded(s: State, i: nat)
    requires Reachable(s)
    ensures s.hist.applies[i] <= Limit(s.cfg) + 1
    ensures |s.hist.applies| <= (Limit(s.cfg) + 1) * s.queues.next
  {
    ReachableInvariant(s);
    TotalWorkIsBounded(s);
  }

  /** A task that is being executed was applied once per earlier attempt, and has attempts left. */
  lemma ExecutingHasAttemptsLeft(s: State, w: nat)
    requires Reachable(s) && w < |s.workers| && s.workers[w].Executing?
    ensures s.hist.applies[s.workers[w].task.index] == s.workers[w].task.attempt <= Limit(s.cfg)
  {
    ReachableInvariant(s);
    assert AttemptRule(s.cfg, s.hist.applies)(s.workers[w].task);
  }

  /** Computing the retry delay makes a worker lose a task exactly when the task is to be retried
      with a backoff factor and this is retry number 65 or more. */
  lemma DelayPanicsIff(cfg: Config, task: Task, result: ApplyResult)
    ensures AfterApply(cfg, task, result).1 <==>
              result.Retryable? && CanRetry(cfg, task.attempt) && cfg.retryFactor.Some? && task.attempt >= 64
  {
    Backoff.DelayIsCappedExponential(cfg.retryFactor, task.attempt + 1);
  }

  /** With at most 64 retries, or without a factor, no run loses a task that way. */
  lemma NoDelayPanics(s: State, w: nat, a: WorkerAction, s': State)
    requires Reachable(s) && (Limit(s.cfg) <= 64 || s.cfg.retryFactor.None?)
    requires a.ApplyReturns? && Step(s, OfWorker(w, a)) == Some(s')
    ensures s'.hist.panicked == s.hist.panicked
  {
    DelayPanicsIff(s.cfg, s.workers[w].task, a.result);
  }

  /** Before any drain, with the retry lock free, the cached time never hides a due task. */
  lemma CacheIsSound(s: State)
    requires Reachable(s) && !s.hist.everDrained && s.queues.owner.None?
    ensures s.queues.cached.None? <==> s.queues.retry == []
    ensures s.queues.retry != [] ==> s.queues.cached.value <= Earliest(s.queues.retry).value
    ensures (exists d :: d in s.queues.retry && d.until <= s.flags.now) ==>
              s.queues.cached.Some? && s.queues.cached.value <= s.flags.now
  {
    ReachableInvariant(s);
    FreeCacheIsLowerBound(s);
  }

  // ------------------------------------------------------------------------------------------
  // Submitting calls
  // ------------------------------------------------------------------------------------------

  /** A call that has issued all its inputs holds one index per input, strictly increasing, each
      issued for that input and the call's sender. */
  lemma CompletedCallHasItsIndices(s: State, u: nat)
    requires Reachable(s) && u < |s.subs| && Idle(s.subs[u]) && !s.subs[u].mode.Broken?
    ensures var sub := s.subs[u];
            |sub.issued| == |sub.given| &&
            (forall j, k :: 0 <= j < k < |sub.issued| ==> sub.issued[j] < sub.issued[k]) &&
            (forall k :: 0 <= k < |sub.issued| ==>
               sub.issued[k] < |s.hist.log| && s.hist.log[sub.issued[k]] == Issue(sub.given[k], sub.tx))
  {
    ReachableInvariant(s);
    assert CallTraced(s.hist.log, s.subs[u]);
  }
}
