/** The cached `next_retry` never hides a due task (src/hive/shared.rs, retry part). */
module RetryCache {
  import opened Wrappers
  import opened Tasks
  import opened Protocol

  predicate HoldsRetryLock(x: Worker) {
    x.Popped? || x.RetryCounted? || x.RetryPushed?
  }

  /** The lock is held by exactly the thread that its program counter says. */
  ghost predicate Locked(s: State) {
    && (forall w :: 0 <= w < |s.workers| ==>
          (HoldsRetryLock(s.workers[w]) <==> s.queues.owner == Some(WorkerOwner(w))))
    && (s.queues.owner.Some? && s.queues.owner.value.WorkerOwner? ==> s.queues.owner.value.w < |s.workers|)
    && (s.drainer.DrainingRetry? <==> s.queues.owner == Some(DrainOwner))
  }

  /** The worker that holds the lock, if a worker does. */
  function Holder(s: State): Worker {
    match s.queues.owner
    case Some(WorkerOwner(w)) => if w < |s.workers| then s.workers[w] else Dead
    case _ => Dead
  }

  lemma HolderHoldsLock(s: State)
    requires Locked(s) && s.queues.owner.Some? && !s.drainer.DrainingRetry?
    ensures HoldsRetryLock(Holder(s))
  {
    match s.queues.owner.value
    case WorkerOwner(w) => assert s.queues.owner == Some(WorkerOwner(w)) && w < |s.workers|;
    case DrainOwner => assert false;
  }

  /** An entry is covered when the cached time is no later than its own, or when it was pushed by
      the lock holder and its time is still to be published. */
  predicate Covered(cached: Option<nat>, holder: Worker, d: Delayed) {
    (cached.Some? && cached.value <= d.until) || (holder.RetryPushed? && d.until == holder.until)
  }

  ghost predicate CacheBounds(s: State) {
    !s.hist.everDrained ==>
      && s.drainer.Resting?
      && (forall d :: d in s.queues.retry ==> Covered(s.queues.cached, Holder(s), d))
      && (s.queues.retry == [] ==> s.queues.cached.None? || Holder(s).Popped?)
      && (Holder(s).RetryPushed? ==> s.queues.retry != [])
  }

  /** Before any drain and with the lock free, the cache is empty exactly when the queue is, and is
      otherwise no later than the earliest entry. So a due task always passes the cheap check. */
  lemma FreeCacheIsLowerBound(s: State)
    requires Locked(s) && CacheBounds(s) && !s.hist.everDrained && s.queues.owner.None?
    ensures s.queues.cached.None? <==> s.queues.retry == []
    ensures s.queues.retry != [] ==> s.queues.cached.value <= Earliest(s.queues.retry).value
    ensures (exists d :: d in s.queues.retry && d.until <= s.flags.now) ==>
              s.queues.cached.Some? && s.queues.cached.value <= s.flags.now
  {
    if s.queues.retry != [] {
      EarliestIsLeast(s.queues.retry);
      assert s.queues.retry[0] in s.queues.retry;
    }
  }

  lemma FetchKeepsCache(s: State, w: nat, a: WorkerAction, reply: Reply, s': State)
    requires Locked(s) && CacheBounds(s)
    requires w < |s.workers| && FetchStep(s, w, a, reply) == Some(s')
    ensures Locked(s') && CacheBounds(s')
  {
  }

  lemma RetryKeepsCache(s: State, w: nat, a: WorkerAction, s': State)
    requires Locked(s) && CacheBounds(s)
    requires w < |s.workers| && RetryStep(s, w, a) == Some(s')
    ensures Locked(s') && CacheBounds(s')
  {
    if s'.queues.retry != [] {
      EarliestIsLeast(s'.queues.retry);
    }
    assert forall d :: d in s'.queues.retry ==> d in s.queues.retry;
  }

  lemma ExecuteKeepsCache(s: State, w: nat, a: WorkerAction, reply: Reply, s': State)
    requires Locked(s) && CacheBounds(s)
    requires w < |s.workers| && ExecuteStep(s, w, a, reply) == Some(s')
    ensures Locked(s') && CacheBounds(s')
  {
  }

  lemma FinishKeepsCache(s: State, w: nat, a: WorkerAction, reply: Reply, s': State)
    requires Locked(s) && CacheBounds(s)
    requires w < |s.workers| && FinishStep(s, w, a, reply) == Some(s')
    ensures Locked(s') && CacheBounds(s')
  {
  }

  lemma SubmitterKeepsCache(s: State, u: nat, a: SubmitterAction, reply: Reply, s': State)
    requires Locked(s) && CacheBounds(s)
    requires SubmitterStep(s, u, a, reply) == Some(s')
    ensures Locked(s') && CacheBounds(s')
  {
  }

  lemma ControlKeepsCache(s: State, a: ControlAction, s': State)
    requires Locked(s) && CacheBounds(s)
    requires ControlStep(s, a) == Some(s')
    ensures Locked(s') && CacheBounds(s')
  {
  }

  lemma StepKeepsCache(s: State, a: Action, s': State)
    requires Locked(s) && CacheBounds(s) && Step(s, a) == Some(s')
    ensures Locked(s') && CacheBounds(s')
  {
    var reply := ReplyTo(s.num, CallOf(a));
    var t := Effect(s, a, reply).value;
    match a
    case OfWorker(w, wa) =>
      if IsFetch(wa) { FetchKeepsCache(s, w, wa, reply, t); }
      else if IsRetry(wa) { RetryKeepsCache(s, w, wa, t); }
      else if IsExecute(wa) { ExecuteKeepsCache(s, w, wa, reply, t); }
      else { FinishKeepsCache(s, w, wa, reply, t); }
    case OfSubmitter(u, ua) => SubmitterKeepsCache(s, u, ua, reply, t);
    case OfControl(ca) => ControlKeepsCache(s, ca, t);
  }
}
