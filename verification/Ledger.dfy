/** The protocol seen as a ledger of task indices: every index issued is with exactly one live task
    or has ended exactly once, in every run. */
module Ledger {
  import opened Wrappers
  import opened Tasks
  import opened Sums
  import opened Protocol

  /** Every index issued so far is in exactly one place, once; an index not yet issued is nowhere. */
  ghost predicate Balanced(s: State) {
    forall i: nat :: Live(s, i) + Settled(s, i) == if i < s.queues.next then 1 else 0
  }

  // ------------------------------------------------------------------------------------------
  // The three moves of the ledger
  // ------------------------------------------------------------------------------------------

  datatype Move =
    | Same                  // the task changes place, or goes round again
    | Settle(index: nat)    // the task ends
    | Enter(count: nat)     // new tasks with new indices

  /** The effect of a move on index i. */
  predicate Moved(s: State, m: Move, s': State, i: nat) {
    match m
    case Same =>
      s'.queues.next == s.queues.next && Live(s', i) == Live(s, i) && Settled(s', i) == Settled(s, i)
    case Settle(ended) =>
      var one := if i == ended then 1 else 0;
      s'.queues.next == s.queues.next && Live(s', i) == Live(s, i) - one && Settled(s', i) == Settled(s, i) + one
    case Enter(n) =>
      var one := if s.queues.next <= i < s.queues.next + n then 1 else 0;
      s'.queues.next == s.queues.next + n && Live(s', i) == Live(s, i) + one && Settled(s', i) == Settled(s, i)
  }

  /** The move that an action makes. */
  function MoveOf(s: State, a: Action, reply: Reply): Move {
    match a
    case OfWorker(w, wa) =>
      if w >= |s.workers| then Same else WorkerMove(s.cfg, s.workers[w], wa, reply)
    case OfSubmitter(u, ua) =>
      if u >= |s.subs| then Same else SubmitterMove(s.subs[u], ua)
    case OfControl(ca) =>
      if ca.DrainDeliver? && InHand(s.drainer).Some? then Settle(InHand(s.drainer).value.index) else Same
  }

  function WorkerMove(cfg: Config, x: Worker, a: WorkerAction, reply: Reply): Move {
    if a.TransferTask? && x.Holding? && !reply.Fine? then Settle(x.task.index)
    else if a.ApplyPanics? && x.Executing? then Settle(x.task.index)
    else if a.ApplyReturns? && x.Executing? && !AfterApply(cfg, x.task, a.result).0.Requeueing? then
      Settle(x.task.index)
    else if a.CountRetry? && x.Requeueing? && !reply.Fine? then Settle(x.task.index)
    else Same
  }

  function SubmitterMove(u: Submitter, a: SubmitterAction): Move {
    if a.TakeIndices? then Enter(|u.counted|)
    else if a.RejectTask? && u.ready != [] then Settle(u.ready[0].index)
    else Same
  }

  // ------------------------------------------------------------------------------------------
  // Every action is its move
  // ------------------------------------------------------------------------------------------

  /** Delivering adds one, provided the stored map has no entry to overwrite. */
  lemma DeliverCounts(out: Outlet, o: Outcome, tx: Option<nat>, i: nat)
    requires o.index !in out.store.Keys
    ensures Shipped(Deliver(out, o, tx), i) == Shipped(out, i) + One(o.index == i)
  {
    if tx.Some? && tx.value !in out.hungUp {
      CountAppend(out.sent, Parcel(tx.value, o), ParcelSettled, i);
    }
  }

  lemma {:induction false} NewTaskCounts(start: nat, inputs: seq<Input>, tx: Option<nat>, i: nat)
    ensures Count(NewTasks(start, inputs, tx), TaskLive, i) == One(start <= i < start + |inputs|)
    decreases |inputs|
  {
    var ts := NewTasks(start, inputs, tx);
    if inputs != [] {
      assert ts[1..] == NewTasks(start + 1, inputs[1..], tx);
      NewTaskCounts(start + 1, inputs[1..], tx, i);
    }
  }

  lemma FetchMoves(s: State, w: nat, a: WorkerAction, reply: Reply, s': State, i: nat)
    requires w < |s.workers| && FetchStep(s, w, a, reply) == Some(s')
    ensures Moved(s, WorkerMove(s.cfg, s.workers[w], a, reply), s', i)
  {
    CountUpdate(s.workers, w, s'.workers[w], WorkerLive, i);
    CountUpdate(s.workers, w, s'.workers[w], WorkerSettled, i);
  }

  lemma RetryMoves(s: State, w: nat, a: WorkerAction, s': State, i: nat)
    requires w < |s.workers| && RetryStep(s, w, a) == Some(s')
    ensures Moved(s, Same, s', i)
  {
    CountUpdate(s.workers, w, s'.workers[w], WorkerLive, i);
    CountUpdate(s.workers, w, s'.workers[w], WorkerSettled, i);
    if a.PopRetry? && a.head.Some? {
      CountRemove(s.queues.retry, a.head.value, DelayedLive, i);
    }
  }

  lemma DeliverMoves(s: State, w: nat, reply: Reply, s': State, i: nat)
    requires Balanced(s)
    requires w < |s.workers| && ExecuteStep(s, w, DeliverOutcome, reply) == Some(s')
    ensures Moved(s, WorkerMove(s.cfg, s.workers[w], DeliverOutcome, reply), s', i)
  {
    var x := s.workers[w];
    CountUpdate(s.workers, w, Delivered, WorkerLive, i);
    CountUpdate(s.workers, w, Delivered, WorkerSettled, i);
    DeliveringIsUnstored(s, w);
    DeliverCounts(s.outlet, x.outcome, x.tx, i);
  }

  lemma ApplyMoves(s: State, w: nat, a: WorkerAction, reply: Reply, s': State, i: nat)
    requires a.ApplyReturns? || a.ApplyPanics?
    requires w < |s.workers| && ExecuteStep(s, w, a, reply) == Some(s')
    ensures Moved(s, WorkerMove(s.cfg, s.workers[w], a, reply), s', i)
  {
    CountUpdate(s.workers, w, s'.workers[w], WorkerLive, i);
    CountUpdate(s.workers, w, s'.workers[w], WorkerSettled, i);
  }

  lemma RequeueMoves(s: State, w: nat, a: WorkerAction, reply: Reply, s': State, i: nat)
    requires a.CountRetry? || a.PushRetry? || a.PublishRetry?
    requires w < |s.workers| && ExecuteStep(s, w, a, reply) == Some(s')
    ensures Moved(s, WorkerMove(s.cfg, s.workers[w], a, reply), s', i)
  {
    CountUpdate(s.workers, w, s'.workers[w], WorkerLive, i);
    CountUpdate(s.workers, w, s'.workers[w], WorkerSettled, i);
    if a.PushRetry? {
      CountAppend(s.queues.retry, Delayed(s.workers[w].task, s'.workers[w].until), DelayedLive, i);
    }
  }

  lemma ExecuteMoves(s: State, w: nat, a: WorkerAction, reply: Reply, s': State, i: nat)
    requires Balanced(s)
    requires w < |s.workers| && ExecuteStep(s, w, a, reply) == Some(s')
    ensures Moved(s, WorkerMove(s.cfg, s.workers[w], a, reply), s', i)
  {
    if a.DeliverOutcome? {
      DeliverMoves(s, w, reply, s', i);
    } else if a.ApplyReturns? || a.ApplyPanics? {
      ApplyMoves(s, w, a, reply, s', i);
    } else {
      RequeueMoves(s, w, a, reply, s', i);
    }
  }

  lemma FinishMoves(s: State, w: nat, a: WorkerAction, reply: Reply, s': State, i: nat)
    requires w < |s.workers| && FinishStep(s, w, a, reply) == Some(s')
    ensures Moved(s, Same, s', i)
  {
    CountUpdate(s.workers, w, s'.workers[w], WorkerLive, i);
    CountUpdate(s.workers, w, s'.workers[w], WorkerSettled, i);
  }

  lemma SubmitterMoves(s: State, u: nat, a: SubmitterAction, reply: Reply, s': State, i: nat)
    requires Balanced(s)
    requires SubmitterStep(s, u, a, reply) == Some(s')
    ensures Moved(s, SubmitterMove(s.subs[u], a), s', i)
  {
    var sub := s.subs[u];
    CountUpdate(s.subs, u, s'.subs[u], SubmitterLive, i);
    match a
    case TakeIndices =>
      NewTaskCounts(s.queues.next, sub.counted, sub.tx, i);
      CountConcat(sub.ready, NewTasks(s.queues.next, sub.counted, sub.tx), TaskLive, i);
    case SendTask =>
      CountAppend(s.queues.channel, sub.ready[0], TaskLive, i);
    case RejectTask =>
      ReadyIsUnstored(s, u);
      DeliverCounts(s.outlet, IntoUnprocessed(sub.ready[0]), sub.ready[0].tx, i);
    case _ =>
  }

  lemma DrainMoves(s: State, a: ControlAction, s': State, i: nat)
    requires Balanced(s)
    requires DrainStep(s, a) == Some(s')
    ensures Moved(s, MoveOf(s, OfControl(a), Fine), s', i)
  {
    if a.DrainPop? {
      CountRemove(s.queues.retry, a.at, DelayedLive, i);
    }
    if a.DrainDeliver? {
      var t := InHand(s.drainer).value;
      LiveIsUnstored(s, t.index);
      DeliverCounts(s.outlet, IntoUnprocessed(t), t.tx, i);
    }
  }

  lemma ControlMoves(s: State, a: ControlAction, s': State, i: nat)
    requires Balanced(s)
    requires ControlStep(s, a) == Some(s')
    ensures Moved(s, MoveOf(s, OfControl(a), Fine), s', i)
  {
    if IsDrain(a) {
      DrainMoves(s, a, s', i);
    } else if a.Grow? {
      CountAppend(s.workers, AtGate, WorkerLive, i);
      CountAppend(s.workers, AtGate, WorkerSettled, i);
    } else if a.NewSubmitter? {
      CountAppend(s.subs, NO_CALL, SubmitterLive, i);
    }
  }

  lemma EffectMoves(s: State, a: Action, reply: Reply, s': State, i: nat)
    requires Balanced(s)
    requires Effect(s, a, reply) == Some(s')
    ensures Moved(s, MoveOf(s, a, reply), s', i)
  {
    match a
    case OfWorker(w, wa) =>
      if IsFetch(wa) { FetchMoves(s, w, wa, reply, s', i); }
      else if IsRetry(wa) { RetryMoves(s, w, wa, s', i); }
      else if IsExecute(wa) { ExecuteMoves(s, w, wa, reply, s', i); }
      else { FinishMoves(s, w, wa, reply, s', i); }
    case OfSubmitter(u, ua) => SubmitterMoves(s, u, ua, reply, s', i);
    case OfControl(ca) => ControlMoves(s, ca, s', i);
  }

  // ------------------------------------------------------------------------------------------
  // The balance forbids overwriting
  // ------------------------------------------------------------------------------------------

  lemma CountsAreNatural(s: State, i: nat)
    ensures Count(s.subs, SubmitterLive, i) >= 0 && Count(s.queues.channel, TaskLive, i) >= 0
    ensures Count(s.queues.retry, DelayedLive, i) >= 0 && Count(s.workers, WorkerLive, i) >= 0
    ensures Count(s.workers, WorkerSettled, i) >= 0 && Count(s.outlet.sent, ParcelSettled, i) >= 0
    ensures forall u :: u in s.subs ==> Count(u.ready, TaskLive, i) <= Count(s.subs, SubmitterLive, i)
    ensures forall x :: x in s.workers ==> WorkerSettled(x, i) <= Count(s.workers, WorkerSettled, i)
    ensures forall x :: x in s.workers ==> WorkerLive(x, i) <= Count(s.workers, WorkerLive, i)
  {
    forall u | u in s.subs
      ensures SubmitterLive(u, i) >= 0
    {
      CountOfNats(u.ready, TaskLive, i);
    }
    CountOfNats(s.subs, SubmitterLive, i);
    CountOfNats(s.queues.channel, TaskLive, i);
    CountOfNats(s.queues.retry, DelayedLive, i);
    CountOfNats(s.workers, WorkerLive, i);
    CountOfNats(s.workers, WorkerSettled, i);
    CountOfNats(s.outlet.sent, ParcelSettled, i);
  }

  /** An index that is still live has no stored outcome. */
  lemma LiveIsUnstored(s: State, i: nat)
    requires Balanced(s) && HandLive(s.drainer, i) == 1
    ensures i !in s.outlet.store.Keys
  {
    CountsAreNatural(s, i);
    assert Live(s, i) + Settled(s, i) <= 1;
  }

  lemma ReadyIsUnstored(s: State, u: nat)
    requires Balanced(s) && u < |s.subs| && s.subs[u].ready != []
    ensures s.subs[u].ready[0].index !in s.outlet.store.Keys
  {
    var i := s.subs[u].ready[0].index;
    CountsAreNatural(s, i);
    CountOfNats(s.subs[u].ready, TaskLive, i);
    assert TaskLive(s.subs[u].ready[0], i) == 1;
    assert Live(s, i) + Settled(s, i) <= 1;
  }

  lemma DeliveringIsUnstored(s: State, w: nat)
    requires Balanced(s) && w < |s.workers| && s.workers[w].Delivering?
    ensures s.workers[w].outcome.index !in s.outlet.store.Keys
  {
    var i := s.workers[w].outcome.index;
    CountsAreNatural(s, i);
    assert WorkerSettled(s.workers[w], i) == 1;
    assert Live(s, i) + Settled(s, i) <= 1;
  }

  // ------------------------------------------------------------------------------------------
  // Preservation
  // ------------------------------------------------------------------------------------------

  lemma StepKeepsBalance(s: State, a: Action, s': State)
    requires Balanced(s) && Step(s, a) == Some(s')
    ensures Balanced(s')
  {
    var reply := ReplyTo(s.num, CallOf(a));
    var t := Effect(s, a, reply).value;
    forall i: nat
      ensures Live(s', i) + Settled(s', i) == if i < s'.queues.next then 1 else 0
    {
      EffectMoves(s, a, reply, t, i);
      assert Live(s', i) == Live(t, i) && Settled(s', i) == Settled(t, i);
      assert Live(s, i) + Settled(s, i) == if i < s.queues.next then 1 else 0;
    }
  }
}
