/** The attempts left to all live tasks: a measure that every execution uses up. */
module Progress {
  import opened Wrappers
  import opened Sums
  import opened Protocol
  import opened Ledger
  import opened Attempts
  import Counter
  import Theorems

  /** The attempts left to the task with index i, if it is live. */
  function LeftTo(s: State, i: nat): int {
    if Live(s, i) > 0 then Limit(s.cfg) + 1 - s.hist.applies[i] else 0
  }

  /** The sum of the attempts left to the live tasks with indices below n. */
  function LeftBelow(s: State, n: nat): int {
    if n == 0 then 0 else LeftBelow(s, n - 1) + LeftTo(s, n - 1)
  }

  function AttemptsLeft(s: State): int {
    LeftBelow(s, s.queues.next)
  }

  lemma {:induction false} LeftIsNatural(s: State, n: nat)
    requires AttemptsCounted(s)
    ensures LeftBelow(s, n) >= 0
  {
    if n > 0 {
      LeftIsNatural(s, n - 1);
    }
  }

  lemma {:induction false} SmallerEverywhere(s: State, t: State, n: nat, at: nat)
    requires forall i: nat :: i < n ==> LeftTo(t, i) <= LeftTo(s, i)
    ensures LeftBelow(t, n) <= LeftBelow(s, n)
    ensures at < n && LeftTo(t, at) < LeftTo(s, at) ==> LeftBelow(t, n) < LeftBelow(s, n)
  {
    if n > 0 {
      SmallerEverywhere(s, t, n - 1, at);
    }
  }

  predicate Applies(a: Action) {
    a.OfWorker? && (a.wa.ApplyReturns? || a.wa.ApplyPanics?)
  }

  lemma ApplicationOf(s: State, w: nat, a: WorkerAction, reply: Reply, t: State)
    requires Effect(s, OfWorker(w, a), reply) == Some(t) && (a.ApplyReturns? || a.ApplyPanics?)
    ensures w < |s.workers| && s.workers[w].Executing?
    ensures t.cfg == s.cfg && t.hist.applies == s.hist.applies + multiset{s.workers[w].task.index}
  {
  }

  /** Only an execution counts applications, and only for its own task. */
  lemma ApplicationsOf(s: State, a: Action, reply: Reply, t: State)
    requires AttemptsCounted(s) && Effect(s, a, reply) == Some(t)
    ensures t.cfg == s.cfg
    ensures Applies(a) ==> a.w < |s.workers| && s.workers[a.w].Executing?
    ensures t.hist.applies ==
              if Applies(a) then s.hist.applies + multiset{s.workers[a.w].task.index} else s.hist.applies
  {
    match a
    case OfWorker(w, wa) =>
      if Applies(a) { ApplicationOf(s, w, wa, reply, t); }
      else { OtherWorkerKeepsAttempts(s, w, wa, reply, t); }
    case OfSubmitter(u, ua) => SubmitterKeepsApplies(s, u, ua, reply, t);
    case OfControl(ca) => ControlKeepsApplies(s, ca, t);
  }

  /** No action but the issuing of indices gives an attempt to any index. */
  lemma AttemptsOnlyShrink(s: State, a: Action, reply: Reply, t: State, i: nat)
    requires Balanced(s) && AttemptsCounted(s)
    requires Effect(s, a, reply) == Some(t) && !(a.OfSubmitter? && a.ua.TakeIndices?)
    ensures t.queues.next == s.queues.next && LeftTo(t, i) <= LeftTo(s, i)
  {
    EffectMoves(s, a, reply, t, i);
    ApplicationsOf(s, a, reply, t);
  }

  /** The task of an executing worker is live and has an attempt left. */
  lemma ExecutingIsLive(s: State, w: nat)
    requires Balanced(s) && AttemptsCounted(s) && w < |s.workers| && s.workers[w].Executing?
    ensures var i := s.workers[w].task.index; i < s.queues.next && LeftTo(s, i) >= 1
  {
    var i := s.workers[w].task.index;
    CountsAreNatural(s, i);
    assert s.workers[w] in s.workers;
    assert Live(s, i) + Settled(s, i) >= 1;
    assert AttemptRule(s.cfg, s.hist.applies)(s.workers[w].task);
  }

  lemma {:induction false} NumIsIrrelevant(t: State, num: Counter.Cell, n: nat)
    ensures LeftBelow(t.(num := num), n) == LeftBelow(t, n)
  {
    if n > 0 {
      NumIsIrrelevant(t, num, n - 1);
    }
  }

  /** In every run, the sum of the attempts left to the live tasks is never negative, strictly
      decreases whenever a worker executes a task - whether it succeeds, fails, is retried or
      panics - and grows only when new indices are issued. */
  lemma ExecutionsUseUpAttempts(s: State, a: Action, s': State)
    requires Reachable(s) && Step(s, a) == Some(s') && !(a.OfSubmitter? && a.ua.TakeIndices?)
    ensures 0 <= AttemptsLeft(s') <= AttemptsLeft(s)
    ensures Applies(a) ==> AttemptsLeft(s') < AttemptsLeft(s)
  {
    Theorems.ReachableInvariant(s);
    Theorems.StepKeepsInvariant(s, a, s');
    var reply := ReplyTo(s.num, CallOf(a));
    var t := Effect(s, a, reply).value;
    EffectUsesUpAttempts(s, a, reply, t);
    NumIsIrrelevant(t, s'.num, t.queues.next);
    LeftIsNatural(s', s'.queues.next);
  }

  lemma EffectUsesUpAttempts(s: State, a: Action, reply: Reply, t: State)
    requires Balanced(s) && AttemptsCounted(s)
    requires Effect(s, a, reply) == Some(t) && !(a.OfSubmitter? && a.ua.TakeIndices?)
    ensures t.queues.next == s.queues.next && AttemptsLeft(t) <= AttemptsLeft(s)
    ensures Applies(a) ==> AttemptsLeft(t) < AttemptsLeft(s)
  {
    forall i: nat
      ensures LeftTo(t, i) <= LeftTo(s, i) && t.queues.next == s.queues.next
    {
      AttemptsOnlyShrink(s, a, reply, t, i);
    }
    ApplicationsOf(s, a, reply, t);
    var at := 0;
    if Applies(a) {
      at := s.workers[a.w].task.index;
      ExecutingIsLive(s, a.w);
      EffectMoves(s, a, reply, t, at);
    }
    SmallerEverywhere(s, t, s.queues.next, at);
  }
}
