/** How often a task is applied. */
module Attempts {
  import opened Wrappers
  import opened Tasks
  import opened Sums
  import opened Protocol
  import opened Places
  import opened Ledger

  /** The number of retries the hive allows. */
  function Limit(cfg: Config): nat {
    if cfg.maxRetries.Some? then cfg.maxRetries.value else 0
  }

  /** A live task has been applied once per attempt number. */
  function AttemptRule(cfg: Config, applies: multiset<nat>): Task -> bool {
    (t: Task) => applies[t.index] == t.attempt && t.attempt <= Limit(cfg)
  }

  ghost predicate AttemptsCounted(s: State) {
    && EveryTask(s, AttemptRule(s.cfg, s.hist.applies))
    && (forall i: nat :: s.hist.applies[i] <= if i < s.queues.next then Limit(s.cfg) + 1 else 0)
  }

  /** When no task with index i is counted, none is found. */
  lemma ZeroLiveMeansNone(s: State, i: nat)
    requires Live(s, i) == 0
    ensures EveryTask(s, (t: Task) => t.index != i)
  {
    CountsAreNatural(s, i);
    forall u, k | 0 <= u < |s.subs| && 0 <= k < |s.subs[u].ready|
      ensures s.subs[u].ready[k].index != i
    {
      CountOfNats(s.subs[u].ready, TaskLive, i);
      assert s.subs[u] in s.subs;
      assert TaskLive(s.subs[u].ready[k], i) == 0;
    }
    CountOfNats(s.queues.channel, TaskLive, i);
    forall k | 0 <= k < |s.queues.channel|
      ensures s.queues.channel[k].index != i
    {
      assert TaskLive(s.queues.channel[k], i) == 0;
    }
    CountOfNats(s.queues.retry, DelayedLive, i);
    forall k | 0 <= k < |s.queues.retry|
      ensures s.queues.retry[k].task.index != i
    {
      assert DelayedLive(s.queues.retry[k], i) == 0;
    }
    forall w | 0 <= w < |s.workers| && HoldsTask(s.workers[w])
      ensures s.workers[w].task.index != i
    {
      assert WorkerLive(s.workers[w], i) == 0;
    }
  }

  /** The state without worker w's task. */
  function Without(s: State, w: nat): State
    requires w < |s.workers|
  {
    s.(workers := s.workers[w := Dead])
  }

  /** The executing task is the only one with its index. */
  lemma ExecutingIsAlone(s: State, w: nat)
    requires Balanced(s) && w < |s.workers| && s.workers[w].Executing?
    ensures EveryTask(Without(s, w), (t: Task) => t.index != s.workers[w].task.index)
    ensures s.workers[w].task.index < s.queues.next
  {
    var i := s.workers[w].task.index;
    CountUpdate(s.workers, w, Dead, WorkerLive, i);
    CountsAreNatural(s, i);
    CountsAreNatural(Without(s, w), i);
    assert Live(s, i) + Settled(s, i) <= 1;
    ZeroLiveMeansNone(Without(s, w), i);
  }

  /** Applying the task of worker w counts one application more, for that task alone. */
  lemma ApplyKeepsAttempts(s: State, w: nat, a: WorkerAction, reply: Reply, s': State)
    requires Balanced(s) && AttemptsCounted(s)
    requires w < |s.workers| && ExecuteStep(s, w, a, reply) == Some(s') && (a.ApplyReturns? || a.ApplyPanics?)
    ensures AttemptsCounted(s')
  {
    var t := s.workers[w].task;
    assert AttemptRule(s.cfg, s.hist.applies)(t);
    OthersKeepAttempts(s, w, s'.hist.applies);
    assert s'.workers == Without(s, w).workers[w := s'.workers[w]];
  }

  lemma OthersKeepAttempts(s: State, w: nat, applies: multiset<nat>)
    requires Balanced(s) && AttemptsCounted(s) && w < |s.workers| && s.workers[w].Executing?
    requires applies == s.hist.applies + multiset{s.workers[w].task.index}
    ensures s.workers[w].task.index < s.queues.next
    ensures EveryTask(Without(s, w), AttemptRule(s.cfg, applies))
  {
    ExecutingIsAlone(s, w);
    assert EveryTask(Without(s, w), AttemptRule(s.cfg, s.hist.applies));
  }

  lemma OtherWorkerKeepsAttempts(s: State, w: nat, a: WorkerAction, reply: Reply, s': State)
    requires AttemptsCounted(s)
    requires WorkerStep(s, w, a, reply) == Some(s') && !a.ApplyReturns? && !a.ApplyPanics?
    ensures s'.hist.applies == s.hist.applies && s'.queues.next == s.queues.next && s'.cfg == s.cfg
  {
  }

  lemma SubmitterKeepsApplies(s: State, u: nat, a: SubmitterAction, reply: Reply, s': State)
    requires AttemptsCounted(s) && SubmitterStep(s, u, a, reply) == Some(s')
    ensures s'.hist.applies == s.hist.applies && s'.queues.next >= s.queues.next && s'.cfg == s.cfg
    ensures NewTasksFit(s, OfSubmitter(u, a), s', AttemptRule(s.cfg, s.hist.applies))
  {
  }

  lemma ControlKeepsApplies(s: State, a: ControlAction, s': State)
    requires ControlStep(s, a) == Some(s')
    ensures s'.hist.applies == s.hist.applies && s'.queues.next == s.queues.next && s'.cfg == s.cfg
  {
  }

  lemma EffectKeepsAttempts(s: State, a: Action, reply: Reply, s': State)
    requires Balanced(s) && AttemptsCounted(s) && Effect(s, a, reply) == Some(s')
    ensures AttemptsCounted(s')
  {
    if a.OfWorker? && (a.wa.ApplyReturns? || a.wa.ApplyPanics?) {
      ApplyKeepsAttempts(s, a.w, a.wa, reply, s');
    } else {
      match a {
        case OfWorker(w, wa) => OtherWorkerKeepsAttempts(s, w, wa, reply, s');
        case OfSubmitter(u, ua) => SubmitterKeepsApplies(s, u, ua, reply, s');
        case OfControl(ca) => ControlKeepsApplies(s, ca, s');
      }
      EffectKeepsTasks(s, a, reply, s', AttemptRule(s.cfg, s.hist.applies));
    }
  }

  // ------------------------------------------------------------------------------------------
  // Total work
  // ------------------------------------------------------------------------------------------

  lemma {:induction false} BoundedMultiset(m: multiset<nat>, n: nat, bound: nat)
    requires forall i: nat :: m[i] <= if i < n then bound else 0
    ensures |m| <= bound * n
    decreases n
  {
    if n == 0 {
      assert m == multiset{};
    } else {
      var rest := m[n - 1 := 0];
      BoundedMultiset(rest, n - 1, bound);
      assert |rest| == |m| - m[n - 1];
      assert bound * (n - 1) == bound * n - bound;
    }
  }

  /** All executions together are at most max_retries + 1 per index issued, so while no index is
      issued the number of executions left goes down with every execution. */
  lemma TotalWorkIsBounded(s: State)
    requires AttemptsCounted(s)
    ensures |s.hist.applies| <= (Limit(s.cfg) + 1) * s.queues.next
  {
    BoundedMultiset(s.hist.applies, s.queues.next, Limit(s.cfg) + 1);
  }
}
