/** Suspending or poisoning the hive: each worker starts at most one more task. */
module Suspension {
  import opened Wrappers
  import opened Protocol

  /** Whether a worker has passed the resume gate and not yet started a task. */
  predicate PastGate(x: Worker) {
    x.CheckingPoison? || x.CheckingRetry? || x.LockingRetry? || x.Popped? || x.Receiving? || x.Holding?
  }

  function Passes(s: State, w: nat): nat {
    if w < |s.workers| && PastGate(s.workers[w]) then 1 else 0
  }

  /** Whether the step starts a task on worker w. */
  function StartsTask(s: State, a: Action, s': State, w: nat): nat {
    if a.OfWorker? && a.w == w && a.wa.TransferTask? && w < |s'.workers| && s'.workers[w].Executing? then 1 else 0
  }

  /** The number of tasks worker w starts along a run. */
  function Starts(s: State, actions: seq<Action>, w: nat): nat
    decreases |actions|
  {
    if actions == [] then 0
    else
      match Step(s, actions[0])
      case None => 0
      case Some(s') => StartsTask(s, actions[0], s', w) + Starts(s', actions[1..], w)
  }

  predicate NeverResumed(actions: seq<Action>) {
    forall k :: 0 <= k < |actions| ==> actions[k] != OfControl(Resume)
  }

  lemma WorkerSpendsPass(s: State, v: nat, a: WorkerAction, reply: Reply, s': State, w: nat)
    requires s.flags.suspended && WorkerStep(s, v, a, reply) == Some(s')
    ensures s'.flags.suspended
    ensures StartsTask(s, OfWorker(v, a), s', w) + Passes(s', w) <= Passes(s, w)
  {
  }

  lemma OthersSpendNothing(s: State, a: Action, reply: Reply, s': State, w: nat)
    requires s.flags.suspended && Effect(s, a, reply) == Some(s') && !a.OfWorker? && a != OfControl(Resume)
    ensures s'.flags.suspended
    ensures Passes(s', w) <= Passes(s, w)
  {
  }

  lemma {:induction false} StartsAreSpent(s: State, actions: seq<Action>, w: nat)
    requires s.flags.suspended && Run(s, actions).Some? && NeverResumed(actions)
    ensures Starts(s, actions, w) <= Passes(s, w)
    decreases |actions|
  {
    if actions != [] {
      var a := actions[0];
      var reply := ReplyTo(s.num, CallOf(a));
      var t := Effect(s, a, reply).value;
      if a.OfWorker? {
        WorkerSpendsPass(s, a.w, a.wa, reply, t, w);
      } else {
        OthersSpendNothing(s, a, reply, t, w);
      }
      assert forall k :: 0 <= k < |actions[1..]| ==> actions[1..][k] == actions[k + 1];
      StartsAreSpent(Step(s, a).value, actions[1..], w);
    }
  }

  /** From the step that suspends the hive until it is resumed, a worker starts at most one task,
      and none unless it had passed the resume gate before: not if it was at the gate, busy,
      unwinding or dead, nor if it is spawned meanwhile. */
  lemma SuspensionBound(s: State, actions: seq<Action>, w: nat)
    requires s.flags.suspended && Run(s, actions).Some? && NeverResumed(actions)
    ensures Starts(s, actions, w) <= 1
    ensures w >= |s.workers| || !PastGate(s.workers[w]) ==> Starts(s, actions, w) == 0
  {
    StartsAreSpent(s, actions, w);
  }

  // ------------------------------------------------------------------------------------------
  // Poisoning
  // ------------------------------------------------------------------------------------------

  /** Whether a worker has found the poison flag unset and not yet started a task. */
  predicate PastPoisonCheck(x: Worker) {
    PastGate(x) && !x.CheckingPoison?
  }

  function Chances(s: State, w: nat): nat {
    if w < |s.workers| && PastPoisonCheck(s.workers[w]) then 1 else 0
  }

  /** The worker is leaving its loop, unwinding, or gone. */
  predicate WayOut(x: Worker) {
    x.Exiting? || x.Unwinding? || x.Respawning? || x.Dead? || (x.Notifying? && !x.after.Loop?)
  }

  lemma WorkerSpendsChance(s: State, v: nat, a: WorkerAction, reply: Reply, s': State, w: nat)
    requires s.flags.poisoned && WorkerStep(s, v, a, reply) == Some(s')
    ensures s'.flags.poisoned && |s'.workers| == |s.workers|
    ensures StartsTask(s, OfWorker(v, a), s', w) + Chances(s', w) <= Chances(s, w)
    ensures w < |s.workers| && WayOut(s.workers[w]) ==> WayOut(s'.workers[w])
  {
  }

  lemma OthersGiveNoChance(s: State, a: Action, reply: Reply, s': State, w: nat)
    requires s.flags.poisoned && Effect(s, a, reply) == Some(s') && !a.OfWorker?
    ensures s'.flags.poisoned && |s.workers| <= |s'.workers|
    ensures Chances(s', w) <= Chances(s, w)
    ensures w < |s.workers| ==> s'.workers[w] == s.workers[w]
  {
  }

  /** Poisoning is for good: from then on each worker starts at most one task, and none unless it had
      found the flag unset before; and a worker on its way out never comes back, because a poisoned hive
      does not replace a thread that panicked. */
  lemma {:induction false} PoisonBound(s: State, actions: seq<Action>, s': State, w: nat)
    requires s.flags.poisoned && Run(s, actions) == Some(s')
    ensures s'.flags.poisoned && Starts(s, actions, w) <= Chances(s, w) <= 1
    ensures w < |s.workers| && WayOut(s.workers[w]) ==> w < |s'.workers| && WayOut(s'.workers[w])
    decreases |actions|
  {
    if actions != [] {
      var a := actions[0];
      var reply := ReplyTo(s.num, CallOf(a));
      var t := Effect(s, a, reply).value;
      if a.OfWorker? {
        WorkerSpendsChance(s, a.w, a.wa, reply, t, w);
      } else {
        OthersGiveNoChance(s, a, reply, t, w);
      }
      PoisonBound(Step(s, a).value, actions[1..], s', w);
    }
  }
}
