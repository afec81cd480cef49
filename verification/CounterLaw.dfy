/** The task counter equals what the hive holds, in every run. */
module CounterLaw {
  import opened Wrappers
  import opened Sums
  import opened Protocol
  import opened Counter
  import Words

  function Totals(s: State): Counter.Totals {
    Counter.Totals(Queued(s), Active(s))
  }

  /** The word is the queued total plus 2^48 times the active total, modulo 2^64. */
  predicate Law(s: State) {
    s.num == PackedCell(s.num.bits, Totals(s))
  }

  /** The ideal totals after a call with the given reply. */
  function TotalsAfter(t: Counter.Totals, call: Option<Call>, reply: Reply): Counter.Totals {
    if call.None? || reply.Rejected? then t else IdealCall(t, call.value)
  }

  lemma OneFits(bits: Width)
    ensures LMax(bits) >= 1 && RMax(bits) >= 1
  {
    Words.Pow2Monotone(1, bits);
    Words.Pow2Monotone(1, 64 - bits);
  }

  lemma FetchTotals(s: State, w: nat, a: WorkerAction, reply: Reply, s': State)
    requires w < |s.workers| && FetchStep(s, w, a, reply) == Some(s') && !reply.Rejected?
    ensures Totals(s') == TotalsAfter(Totals(s), CallOf(OfWorker(w, a)), reply)
  {
    FetchQueued(s, w, a, reply, s');
    SumUpdate(s.workers, w, s'.workers[w], WorkerActive);
  }

  lemma FetchQueued(s: State, w: nat, a: WorkerAction, reply: Reply, s': State)
    requires w < |s.workers| && FetchStep(s, w, a, reply) == Some(s') && !reply.Rejected?
    ensures Queued(s') == Queued(s) - if a.TransferTask? then 1 else 0
  {
    SumUpdate(s.workers, w, s'.workers[w], WorkerQueued);
  }

  lemma RetryTotals(s: State, w: nat, a: WorkerAction, s': State)
    requires w < |s.workers| && RetryStep(s, w, a) == Some(s')
    ensures Totals(s') == Totals(s)
  {
    RetryKeepsQueued(s, w, a, s');
    SumUpdate(s.workers, w, s'.workers[w], WorkerActive);
  }

  lemma RetryKeepsQueued(s: State, w: nat, a: WorkerAction, s': State)
    requires w < |s.workers| && RetryStep(s, w, a) == Some(s')
    ensures Queued(s') == Queued(s)
  {
    SumUpdate(s.workers, w, s'.workers[w], WorkerQueued);
  }

  lemma ExecuteTotals(s: State, w: nat, a: WorkerAction, reply: Reply, s': State)
    requires w < |s.workers| && ExecuteStep(s, w, a, reply) == Some(s') && !reply.Rejected?
    ensures Totals(s') == TotalsAfter(Totals(s), CallOf(OfWorker(w, a)), reply)
  {
    SumUpdate(s.workers, w, s'.workers[w], WorkerQueued);
    SumUpdate(s.workers, w, s'.workers[w], WorkerActive);
  }

  lemma FinishTotals(s: State, w: nat, a: WorkerAction, reply: Reply, s': State)
    requires w < |s.workers| && FinishStep(s, w, a, reply) == Some(s') && !reply.Rejected?
    ensures Totals(s') == TotalsAfter(Totals(s), CallOf(OfWorker(w, a)), reply)
  {
    SumUpdate(s.workers, w, s'.workers[w], WorkerQueued);
    SumUpdate(s.workers, w, s'.workers[w], WorkerActive);
  }

  lemma SubmitterTotals(s: State, u: nat, a: SubmitterAction, reply: Reply, s': State)
    requires SubmitterStep(s, u, a, reply) == Some(s')
    ensures Totals(s') == TotalsAfter(Totals(s), CallOf(OfSubmitter(u, a)), reply)
  {
    SumUpdate(s.subs, u, s'.subs[u], SubmitterQueued);
  }

  lemma ControlTotals(s: State, a: ControlAction, s': State)
    requires ControlStep(s, a) == Some(s')
    ensures Totals(s') == Totals(s)
  {
    SumAppend(s.workers, AtGate, WorkerQueued);
    SumAppend(s.workers, AtGate, WorkerActive);
    SumAppend(s.subs, NO_CALL, SubmitterQueued);
  }

  /** Every action moves the ideal totals by exactly its counter call. */
  lemma EffectTotals(s: State, a: Action, reply: Reply, s': State)
    requires Effect(s, a, reply) == Some(s')
    requires a.OfWorker? ==> !reply.Rejected?
    ensures Totals(s') == TotalsAfter(Totals(s), CallOf(a), reply)
  {
    match a
    case OfWorker(w, wa) =>
      if IsFetch(wa) { FetchTotals(s, w, wa, reply, s'); }
      else if IsRetry(wa) { RetryTotals(s, w, wa, s'); }
      else if IsExecute(wa) { ExecuteTotals(s, w, wa, reply, s'); }
      else { FinishTotals(s, w, wa, reply, s'); }
    case OfSubmitter(u, ua) => SubmitterTotals(s, u, ua, reply, s');
    case OfControl(ca) => ControlTotals(s, ca, s');
  }

  lemma NumFollows(num: Cell, t: Counter.Totals, call: Option<Call>)
    requires num == PackedCell(num.bits, t)
    ensures NumAfter(num, call) == PackedCell(num.bits, TotalsAfter(t, call, ReplyTo(num, call)))
    ensures call.Some? && call.value.n == 1 ==> !ReplyTo(num, call).Rejected?
  {
    if call.Some? {
      OneFits(num.bits);
      CallRefines(num.bits, t, call.value);
    }
  }

  lemma StepKeepsLaw(s: State, a: Action, s': State)
    requires Law(s) && Step(s, a) == Some(s')
    ensures Law(s')
  {
    var reply := ReplyTo(s.num, CallOf(a));
    var t := Effect(s, a, reply).value;
    NumFollows(s.num, Totals(s), CallOf(a));
    EffectTotals(s, a, reply, t);
    assert Totals(s') == Totals(t);
  }

  // ------------------------------------------------------------------------------------------
  // Range: no counter call fails before the first clean exit
  // ------------------------------------------------------------------------------------------

  /** No increment of the queued half has overflowed, every `finish_task` had its own transfer, and
      there are at most 65535 worker threads. */
  predicate Orderly(s: State) {
    !s.hist.overflowed && s.hist.unmatched == 0 && |s.workers| <= MAX_WORKERS
  }

  /** Every unwinding thread still counts in the active half. */
  ghost predicate AllCounted(s: State) {
    forall w :: 0 <= w < |s.workers| && s.workers[w].Unwinding? ==> s.workers[w].counted
  }

  ghost predicate Ranged(s: State) {
    && s.num.bits == LEFT_BITS
    && |s.hist.dropped| == s.hist.failed
    && (Orderly(s) ==> InRange(s.num.bits, Totals(s)) && s.hist.failed == 0 && AllCounted(s))
  }

  lemma RightHalfHoldsWorkers(bits: Width)
    requires bits == LEFT_BITS
    ensures RMax(bits) == MAX_WORKERS
  {
    assert Words.Pow2(8) == 256;
    Words.Pow2Product(8, 8);
  }

  lemma WeightBounds(workers: seq<Worker>, subs: seq<Submitter>)
    ensures 0 <= Sum(workers, WorkerQueued) && 0 <= Sum(workers, WorkerActive) <= |workers|
    ensures 0 <= Sum(subs, SubmitterQueued)
    ensures forall x :: x in workers ==> WorkerQueued(x) <= Sum(workers, WorkerQueued)
    ensures forall x :: x in workers ==> WorkerActive(x) <= Sum(workers, WorkerActive)
    ensures forall u :: u in subs ==> SubmitterQueued(u) <= Sum(subs, SubmitterQueued)
  {
    SumOfBits(workers, WorkerQueued);
    SumOfBits(workers, WorkerActive);
    SumOfNats(subs, SubmitterQueued);
  }

  /** The calls that move a task into or out of the active half. */
  predicate MovesActive(a: Action) {
    a.OfWorker? && (a.wa.TransferTask? || a.wa.FinishTask? || a.wa.SentinelFinish?)
  }

  /** In an orderly state a transfer, and a finish that has a transfer to match, cannot fail. */
  lemma ActiveCallsSucceed(s: State, a: Action)
    requires Law(s) && Ranged(s) && Orderly(s)
    requires MovesActive(a) && Effect(s, a, Fine).Some?
    ensures ReplyTo(s.num, CallOf(a)).Fine?
  {
    FineTotalsInRange(s, a);
    SucceedsIffInRange(s.num.bits, Totals(s), CallOf(a).value);
  }

  /** What the totals would be after the call. */
  lemma FineTotalsInRange(s: State, a: Action)
    requires Ranged(s) && Orderly(s)
    requires MovesActive(a) && Effect(s, a, Fine).Some?
    ensures CallOf(a).Some? && InRange(s.num.bits, IdealCall(Totals(s), CallOf(a).value))
  {
    var s' := Effect(s, a, Fine).value;
    EffectTotals(s, a, Fine, s');
    MovedTotals(s, a, s');
    StillInRange(s, a, s');
  }

  lemma StillInRange(s: State, a: Action, s': State)
    requires Ranged(s) && Orderly(s) && MovesActive(a)
    requires Totals(s') == TotalsAfter(Totals(s), CallOf(a), Fine) && |s'.workers| == |s.workers|
    requires s'.hist.failed == s.hist.failed && s'.hist.unmatched == s.hist.unmatched
    ensures CallOf(a).Some? && InRange(s.num.bits, IdealCall(Totals(s), CallOf(a).value))
  {
    TotalsAreBounded(s');
    MovedInRange(s.num.bits, Totals(s), CallOf(a).value, Totals(s'));
  }

  lemma MovedInRange(bits: Width, t: Counter.Totals, call: Call, moved: Counter.Totals)
    requires InRange(bits, t) && (call == Call.Transfer(1) || call == DecrementRight(1)) && moved == IdealCall(t, call)
    requires 0 <= moved.left && 0 <= moved.right <= RMax(bits)
    ensures InRange(bits, moved)
  {
  }

  lemma TotalsAreBounded(s: State)
    requires s.hist.failed == 0 && s.hist.unmatched == 0 && |s.workers| <= MAX_WORKERS
    ensures 0 <= Queued(s) && 0 <= Active(s) <= RMax(LEFT_BITS)
  {
    WeightBounds(s.workers, s.subs);
    RightHalfHoldsWorkers(LEFT_BITS);
  }

  /** What the successful call of a worker leaves alone. */
  lemma MovedTotals(s: State, a: Action, s': State)
    requires MovesActive(a) && Effect(s, a, Fine) == Some(s') && AllCounted(s)
    ensures |s'.workers| == |s.workers| && s'.hist.failed == s.hist.failed && s'.hist.unmatched == s.hist.unmatched
  {
  }

  lemma FetchOrder(s: State, w: nat, a: WorkerAction, reply: Reply, s': State)
    requires w < |s.workers| && FetchStep(s, w, a, reply) == Some(s') && |s.hist.dropped| == s.hist.failed
    ensures |s'.hist.dropped| == s'.hist.failed
    ensures Orderly(s') ==> Orderly(s)
    ensures Orderly(s') ==> !a.ExitFinish? && (a.CountRetry? ==> reply.Fine?)
    ensures reply.Fine? ==> s'.hist.failed == s.hist.failed
    ensures reply.Fine? && AllCounted(s) ==> AllCounted(s')
  {
  }

  lemma ExecuteOrder(s: State, w: nat, a: WorkerAction, reply: Reply, s': State)
    requires w < |s.workers| && ExecuteStep(s, w, a, reply) == Some(s') && |s.hist.dropped| == s.hist.failed
    ensures |s'.hist.dropped| == s'.hist.failed
    ensures Orderly(s') ==> Orderly(s)
    ensures Orderly(s') ==> !a.ExitFinish? && (a.CountRetry? ==> reply.Fine?)
    ensures reply.Fine? ==> s'.hist.failed == s.hist.failed
    ensures reply.Fine? && AllCounted(s) ==> AllCounted(s')
  {
  }

  lemma FinishOrder(s: State, w: nat, a: WorkerAction, reply: Reply, s': State)
    requires w < |s.workers| && FinishStep(s, w, a, reply) == Some(s') && |s.hist.dropped| == s.hist.failed
    ensures |s'.hist.dropped| == s'.hist.failed
    ensures Orderly(s') ==> Orderly(s)
    ensures Orderly(s') ==> !a.ExitFinish? && (a.CountRetry? ==> reply.Fine?)
    ensures reply.Fine? ==> s'.hist.failed == s.hist.failed
    ensures reply.Fine? && AllCounted(s) ==> AllCounted(s')
  {
  }

  lemma RetryOrder(s: State, w: nat, a: WorkerAction, s': State)
    requires w < |s.workers| && RetryStep(s, w, a) == Some(s')
    ensures s'.hist == s.hist && |s'.workers| == |s.workers| && !a.ExitFinish? && !a.CountRetry?
    ensures AllCounted(s) ==> AllCounted(s')
  {
  }

  /** What a worker's action may do to the figures that `Orderly` and `Ranged` mention. */
  lemma WorkerOrder(s: State, w: nat, a: WorkerAction, reply: Reply, s': State)
    requires WorkerStep(s, w, a, reply) == Some(s') && |s.hist.dropped| == s.hist.failed
    ensures |s'.hist.dropped| == s'.hist.failed
    ensures Orderly(s') ==> Orderly(s)
    ensures Orderly(s') ==> !a.ExitFinish? && (a.CountRetry? ==> reply.Fine?)
    ensures reply.Fine? ==> s'.hist.failed == s.hist.failed
    ensures reply.Fine? && AllCounted(s) ==> AllCounted(s')
  {
    if IsFetch(a) { FetchOrder(s, w, a, reply, s'); }
    else if IsRetry(a) { RetryOrder(s, w, a, s'); }
    else if IsExecute(a) { ExecuteOrder(s, w, a, reply, s'); }
    else { FinishOrder(s, w, a, reply, s'); }
  }

  lemma SubmitterOrder(s: State, u: nat, a: SubmitterAction, reply: Reply, s': State)
    requires SubmitterStep(s, u, a, reply) == Some(s')
    ensures s'.hist.failed == s.hist.failed && s'.hist.dropped == s.hist.dropped && s'.workers == s.workers
    ensures Orderly(s') ==> Orderly(s) && (a.CountInputs? ==> reply.Fine?)
  {
  }

  lemma ControlOrder(s: State, a: ControlAction, s': State)
    requires ControlStep(s, a) == Some(s')
    ensures s'.hist.failed == s.hist.failed && s'.hist.dropped == s.hist.dropped
    ensures Orderly(s') ==> Orderly(s)
    ensures AllCounted(s) ==> AllCounted(s')
  {
  }

  lemma OrderlyBackwards(s: State, a: Action, reply: Reply, s': State)
    requires Effect(s, a, reply) == Some(s') && |s.hist.dropped| == s.hist.failed
    ensures |s'.hist.dropped| == s'.hist.failed
    ensures Orderly(s') ==> Orderly(s)
    ensures reply.Fine? ==> s'.hist.failed == s.hist.failed
    ensures reply.Fine? && AllCounted(s) ==> AllCounted(s')
    ensures Orderly(s') && CallOf(a).Some? ==> reply.Fine? || MovesActive(a)
  {
    match a
    case OfWorker(w, wa) => WorkerOrder(s, w, wa, reply, s');
    case OfSubmitter(u, ua) => SubmitterOrder(s, u, ua, reply, s');
    case OfControl(ca) => ControlOrder(s, ca, s');
  }

  /** An action that leaves the hive orderly made no counter call that failed. */
  lemma OrderlyMeansFine(s: State, a: Action, reply: Reply, t: State)
    requires Law(s) && Ranged(s)
    requires reply == ReplyTo(s.num, CallOf(a)) && Effect(s, a, reply) == Some(t) && Orderly(t)
    ensures Orderly(s) && reply.Fine?
  {
    OrderlyBackwards(s, a, reply, t);
    if MovesActive(a) {
      EffectEnabled(s, a, reply);
      ActiveCallsSucceed(s, a);
    }
  }

  lemma EffectKeepsRange(s: State, a: Action, reply: Reply, t: State)
    requires Law(s) && Ranged(s)
    requires reply == ReplyTo(s.num, CallOf(a)) && Effect(s, a, reply) == Some(t)
    ensures |t.hist.dropped| == t.hist.failed
    ensures Orderly(t) ==> InRange(s.num.bits, Totals(t)) && t.hist.failed == 0 && AllCounted(t)
  {
    OrderlyBackwards(s, a, reply, t);
    if Orderly(t) {
      OrderlyMeansFine(s, a, reply, t);
      FineKeepsRange(s, a, t);
    }
  }

  lemma StepKeepsRange(s: State, a: Action, s': State)
    requires Law(s) && Ranged(s) && Step(s, a) == Some(s')
    ensures Ranged(s')
  {
    var reply := ReplyTo(s.num, CallOf(a));
    var t := Effect(s, a, reply).value;
    EffectKeepsRange(s, a, reply, t);
    assert Totals(s') == Totals(t);
  }

  lemma FineKeepsRange(s: State, a: Action, t: State)
    requires Law(s) && Ranged(s) && Orderly(s)
    requires Effect(s, a, Fine) == Some(t) && ReplyTo(s.num, CallOf(a)).Fine?
    ensures InRange(s.num.bits, Totals(t))
  {
    EffectTotals(s, a, Fine, t);
    if CallOf(a).Some? {
      SucceedsIffInRange(s.num.bits, Totals(s), CallOf(a).value);
    }
  }

  lemma EffectEnabled(s: State, a: Action, reply: Reply)
    requires MovesActive(a)
    ensures Effect(s, a, reply).Some? <==> Effect(s, a, Fine).Some?
  {
  }

  // ------------------------------------------------------------------------------------------
  // What the counter reads
  // ------------------------------------------------------------------------------------------

  /** The two halves read exactly the queued and the active totals. */
  lemma CounterReads(s: State)
    requires Law(s) && Ranged(s) && Orderly(s)
    ensures s.num.Read() == (Queued(s), Active(s))
  {
    PackedReads(s.num.bits, Totals(s));
  }

  /** The law, written out. */
  lemma LawWord(s: State)
    requires Law(s)
    ensures s.num.word == (Queued(s) + Active(s) * Words.Pow2(s.num.bits)) % Words.WORD
  {
  }

  /** When both halves are empty no task is left anywhere and no outcome is still on its way. */
  lemma NothingLeft(s: State, i: nat)
    requires Queued(s) == 0 && Sum(s.workers, WorkerActive) == 0
    ensures Live(s, i) == 0
    ensures Count(s.workers, WorkerSettled, i) == 0
    ensures s.hist.drained == 0
  {
    WeightBounds(s.workers, s.subs);
    CountOfNothing(s.workers, WorkerLive, i);
    CountOfNothing(s.workers, WorkerSettled, i);
    CountOfNothing(s.subs, SubmitterLive, i);
    assert s.queues.channel == [] && s.queues.retry == [];
  }
}
