/** `map` and `swarm` yield the results in input order, for every schedule. */
module Ordered {
  import opened Wrappers
  import opened Tasks
  import opened Sums
  import opened Protocol
  import opened Places
  import opened Provenance
  import opened PureRuns
  import opened Reorder
  import CounterLaw
  import Ledger
  import Theorems

  // ------------------------------------------------------------------------------------------
  // Runs of a pure worker
  // ------------------------------------------------------------------------------------------

  predicate PureRun(s: State, actions: seq<Action>, f: PureWorker)
    decreases |actions|
  {
    if actions == [] then true
    else
      ActsPurely(s, actions[0], f) &&
      match Step(s, actions[0])
      case None => false
      case Some(s') => PureRun(s', actions[1..], f)
  }

  ghost predicate PurelyReachable(s: State, f: PureWorker) {
    exists cfg, n, actions ::
      Run(Init(cfg, n), actions) == Some(s) && PureRun(Init(cfg, n), actions, f)
  }

  lemma {:induction false} RunKeepsPure(s: State, actions: seq<Action>, s': State, f: PureWorker)
    requires Pure(s, f) && Run(s, actions) == Some(s') && PureRun(s, actions, f)
    ensures Pure(s', f)
    decreases |actions|
  {
    if actions != [] {
      var a := actions[0];
      var reply := ReplyTo(s.num, CallOf(a));
      var t := Effect(s, a, reply).value;
      EffectKeepsPure(s, a, reply, t, f);
      PureIgnoresNum(t, Step(s, a).value, f);
      RunKeepsPure(Step(s, a).value, actions[1..], s', f);
    }
  }

  lemma PureIgnoresNum(t: State, s': State, f: PureWorker)
    requires Pure(t, f) && s' == t.(num := s'.num)
    ensures Pure(s', f)
  {
  }

  lemma InitIsPure(cfg: Config, n: nat, f: PureWorker)
    ensures Pure(Init(cfg, n), f)
  {
  }

  lemma PurelyReachableHolds(s: State, f: PureWorker)
    requires PurelyReachable(s, f)
    ensures Reachable(s) && Pure(s, f) && Theorems.Invariant(s)
  {
    var cfg, n, actions :|
      Run(Init(cfg, n), actions) == Some(s) && PureRun(Init(cfg, n), actions, f);
    InitIsPure(cfg, n, f);
    RunKeepsPure(Init(cfg, n), actions, s, f);
    assert Reachable(s);
    Theorems.ReachableInvariant(s);
  }

  /** Retrying through the queue refines the sequential loop: in every run of a pure worker every
      outcome sent or stored is what the loop makes of the input issued with its index; only a
      drain (after poisoning, or into a husk) may instead leave `Unprocessed`, with an input from
      which the loop continues to the same result. */
  lemma RetryQueueRefinesLoop(s: State, f: PureWorker)
    requires PurelyReachable(s, f)
    ensures forall p :: p in s.outlet.sent ==> PureOutcome(f, s.cfg, s.hist.log, s.hist.everDrained, p.outcome)
    ensures forall i :: i in s.outlet.store.Keys ==>
              s.outlet.store[i].index == i &&
              PureOutcome(f, s.cfg, s.hist.log, s.hist.everDrained, s.outlet.store[i])
  {
    PurelyReachableHolds(s, f);
    forall p | p in s.outlet.sent
      ensures PureOutcome(f, s.cfg, s.hist.log, s.hist.everDrained, p.outcome)
    {
      var k :| 0 <= k < |s.outlet.sent| && s.outlet.sent[k] == p;
    }
  }

  // ------------------------------------------------------------------------------------------
  // What a receiver sees
  // ------------------------------------------------------------------------------------------

  /** The outcomes that arrive on outcome channel x, in the order they were sent. */
  function Received(sent: seq<Parcel>, x: nat): seq<Outcome> {
    if sent == [] then []
    else if sent[0].tx == x then [sent[0].outcome] + Received(sent[1..], x)
    else Received(sent[1..], x)
  }

  /** A channel receives exactly the outcomes sent to it. */
  lemma {:induction false} ReceivedIffSent(sent: seq<Parcel>, x: nat, o: Outcome)
    ensures o in Received(sent, x) <==> Parcel(x, o) in sent
  {
    if sent != [] {
      ReceivedIffSent(sent[1..], x, o);
      assert sent == [sent[0]] + sent[1..];
      assert o in Received(sent, x) <==> (sent[0].tx == x && o == sent[0].outcome) || o in Received(sent[1..], x);
    }
  }

  /** When each index was sent at most once, the outcomes received are distinct. */
  lemma {:induction false} ReceivedAreDistinct(sent: seq<Parcel>, x: nat)
    requires forall i: nat :: Count(sent, ParcelSettled, i) <= 1
    ensures DistinctOutcomes(Received(sent, x))
  {
    if sent != [] {
      var rest := Received(sent[1..], x);
      forall i: nat
        ensures Count(sent[1..], ParcelSettled, i) <= 1
      {
        assert Count(sent, ParcelSettled, i) == ParcelSettled(sent[0], i) + Count(sent[1..], ParcelSettled, i);
      }
      ReceivedAreDistinct(sent[1..], x);
      if sent[0].tx == x {
        var i := sent[0].outcome.index;
        CountOfNats(sent[1..], ParcelSettled, i);
        assert Count(sent, ParcelSettled, i) == 1 + Count(sent[1..], ParcelSettled, i);
        forall k | 0 <= k < |rest|
          ensures rest[k].index != i
        {
          ReceivedIffSent(sent[1..], x, rest[k]);
          assert ParcelSettled(Parcel(x, rest[k]), i) == 0;
        }
      }
    }
  }

  lemma {:induction false} SentSomewhere(sent: seq<Parcel>, i: nat)
    requires Count(sent, ParcelSettled, i) == 1
    ensures exists p :: p in sent && p.outcome.index == i
  {
    if sent[0].outcome.index == i {
      assert sent[0] in sent;
    } else {
      SentSomewhere(sent[1..], i);
      var p :| p in sent[1..] && p.outcome.index == i;
      assert p in sent;
    }
  }

  // ------------------------------------------------------------------------------------------
  // Results in input order
  // ------------------------------------------------------------------------------------------

  /** The call of submitter u has an outcome channel of its own, with a living receiver: `map` and
      `swarm` make one for themselves. */
  ghost predicate OwnsChannel(s: State, u: nat)
    requires u < |s.subs|
  {
    var sub := s.subs[u];
    sub.tx.Some? && sub.tx.value !in s.outlet.hungUp &&
    forall i :: 0 <= i < |s.hist.log| && s.hist.log[i].tx == sub.tx ==> i in sub.issued
  }

  /** The call has issued all its inputs and every task of it has ended: its outcome was delivered, or
      it was lost to a panic. */
  ghost predicate TasksEnded(s: State, u: nat)
    requires u < |s.subs|
  {
    Idle(s.subs[u]) && !s.subs[u].mode.Broken? &&
    forall i :: i in s.subs[u].issued ==>
      Live(s, i) == 0 && Count(s.workers, WorkerSettled, i) == 0 && s.hist.dropped[i] == 0
  }

  /** And none was lost. */
  ghost predicate CallEnded(s: State, u: nat)
    requires u < |s.subs|
  {
    TasksEnded(s, u) && forall i :: i in s.subs[u].issued ==> s.hist.panicked[i] == 0
  }

  /** Each task that ended without a panic has its outcome in the call's own channel. */
  lemma OutcomeArrived(s: State, u: nat, i: nat)
    requires Theorems.Invariant(s) && u < |s.subs|
    requires OwnsChannel(s, u) && TasksEnded(s, u) && i in s.subs[u].issued && s.hist.panicked[i] == 0
    ensures exists q :: 0 <= q < |Received(s.outlet.sent, s.subs[u].tx.value)| &&
                        Received(s.outlet.sent, s.subs[u].tx.value)[q].index == i
  {
    var x := s.subs[u].tx.value;
    assert s.hist.log[i].tx == Some(x);
    assert !Homeless(s.hist.log, s.outlet.hungUp, i);
    assert i !in s.outlet.store.Keys;
    assert s.hist.taken[i] == 0;
    assert Live(s, i) + Settled(s, i) == 1;
    SentSomewhere(s.outlet.sent, i);
    var p :| p in s.outlet.sent && p.outcome.index == i;
    var k :| 0 <= k < |s.outlet.sent| && s.outlet.sent[k] == p;
    assert p.tx == x;
    ReceivedIffSent(s.outlet.sent, x, p.outcome);
  }

  /** What arrives on the call's channel: distinct outcomes, no more than it has inputs. */
  lemma ArrivalsAreTheCalls(s: State, u: nat)
    requires Theorems.Invariant(s) && u < |s.subs| && OwnsChannel(s, u)
    ensures var source := Received(s.outlet.sent, s.subs[u].tx.value);
            DistinctOutcomes(source) && |source| <= |s.subs[u].issued| && Distinct(s.subs[u].issued)
  {
    var sub := s.subs[u];
    var x := sub.tx.value;
    var source := Received(s.outlet.sent, x);
    forall i: nat
      ensures Count(s.outlet.sent, ParcelSettled, i) <= 1
    {
      Ledger.CountsAreNatural(s, i);
      assert Live(s, i) + Settled(s, i) <= 1;
    }
    ReceivedAreDistinct(s.outlet.sent, x);
    forall k | 0 <= k < |source|
      ensures source[k].index in Elements(sub.issued)
    {
      ReceivedIffSent(s.outlet.sent, x, source[k]);
      var j :| 0 <= j < |s.outlet.sent| && s.outlet.sent[j] == Parcel(x, source[k]);
      assert s.hist.log[source[k].index].tx == sub.tx;
    }
    NoMoreThanWanted(source, Elements(sub.issued));
    DistinctIndices(sub.issued);
  }

  /** The ordered iterator over the call's channel yields, for each input in order, the result of
      the sequential retry loop on that input - whatever the schedule, the number of workers and
      the order of completion. */
  lemma CallYieldsInInputOrder(s: State, u: nat, f: PureWorker, k: nat)
    requires PurelyReachable(s, f) && !s.hist.everDrained && u < |s.subs|
    requires OwnsChannel(s, u) && CallEnded(s, u) && k < |s.subs[u].given|
    ensures var sub := s.subs[u];
            var results := Results(NewIter(Received(s.outlet.sent, sub.tx.value), sub.issued), |sub.given|);
            |sub.issued| == |sub.given| &&
            results[k] == Some(RetryLoop(f, s.cfg, sub.given[k], 0, sub.issued[k]))
  {
    PurelyReachableHolds(s, f);
    var sub := s.subs[u];
    var source := Received(s.outlet.sent, sub.tx.value);
    Theorems.CompletedCallHasItsIndices(s, u);
    ArrivalsAreTheCalls(s, u);
    forall i | i in sub.issued
      ensures exists q :: 0 <= q < |source| && source[q].index == i
    {
      OutcomeArrived(s, u, i);
    }
    PermutationIsSorted(source, sub.issued, k);
    var o := Results(NewIter(source, sub.issued), |sub.issued|)[k].value;
    ReceivedIffSent(s.outlet.sent, sub.tx.value, o);
    RetryQueueRefinesLoop(s, f);
  }

  /** What is due at position k, as far as all earlier outcomes have arrived. */
  lemma DueSoFar(s: State, u: nat, f: PureWorker, k: nat)
    requires PurelyReachable(s, f) && !s.hist.everDrained && u < |s.subs|
    requires OwnsChannel(s, u) && Idle(s.subs[u]) && !s.subs[u].mode.Broken?
    requires k < FirstAbsent(Received(s.outlet.sent, s.subs[u].tx.value), s.subs[u].issued)
    ensures var sub := s.subs[u];
            |sub.issued| == |sub.given| &&
            ResultAt(Received(s.outlet.sent, sub.tx.value), sub.issued, k) ==
              Some(RetryLoop(f, s.cfg, sub.given[k], 0, sub.issued[k]))
  {
    PurelyReachableHolds(s, f);
    var sub := s.subs[u];
    var source := Received(s.outlet.sent, sub.tx.value);
    Theorems.CompletedCallHasItsIndices(s, u);
    var o := source[Position(source, sub.issued[k]).value];
    ReceivedIffSent(s.outlet.sent, sub.tx.value, o);
    RetryQueueRefinesLoop(s, f);
  }

  /** At any moment of the run, while workers are still busy: reading what has arrived so far, the
      iterator yields for each input in order the result of the sequential loop, as far as the
      outcomes of all earlier inputs have arrived too. */
  lemma CallYieldsSoFar(s: State, u: nat, f: PureWorker, k: nat)
    requires PurelyReachable(s, f) && !s.hist.everDrained && u < |s.subs|
    requires OwnsChannel(s, u) && Idle(s.subs[u]) && !s.subs[u].mode.Broken?
    requires k < FirstAbsent(Received(s.outlet.sent, s.subs[u].tx.value), s.subs[u].issued)
    ensures var sub := s.subs[u];
            var results := Results(NewIter(Received(s.outlet.sent, sub.tx.value), sub.issued), k + 1);
            |sub.issued| == |sub.given| &&
            results[k] == Some(RetryLoop(f, s.cfg, sub.given[k], 0, sub.issued[k]))
  {
    PurelyReachableHolds(s, f);
    var sub := s.subs[u];
    var source := Received(s.outlet.sent, sub.tx.value);
    Theorems.CompletedCallHasItsIndices(s, u);
    ArrivalsAreTheCalls(s, u);
    LookupSpec(source, sub.issued, k + 1, k);
    DueSoFar(s, u, f, k);
  }

  lemma {:induction false} ReceivedGrows(sent: seq<Parcel>, more: seq<Parcel>, x: nat)
    ensures Received(sent, x) <= Received(sent + more, x)
  {
    if sent != [] {
      assert (sent + more)[1..] == sent[1..] + more;
      ReceivedGrows(sent[1..], more, x);
    }
  }

  lemma WorkerOnlySends(s: State, w: nat, a: WorkerAction, reply: Reply, t: State)
    requires WorkerStep(s, w, a, reply) == Some(t)
    ensures s.outlet.sent <= t.outlet.sent
  {
  }

  lemma OthersOnlySend(s: State, a: Action, reply: Reply, t: State)
    requires Effect(s, a, reply) == Some(t) && !a.OfWorker?
    ensures s.outlet.sent <= t.outlet.sent
  {
  }

  /** What has arrived on a channel stays where it is: later arrivals come behind it. */
  lemma ArrivalsStay(s: State, a: Action, s': State, x: nat)
    requires Step(s, a) == Some(s')
    ensures Received(s.outlet.sent, x) <= Received(s'.outlet.sent, x)
  {
    var reply := ReplyTo(s.num, CallOf(a));
    var t := Effect(s, a, reply).value;
    if a.OfWorker? {
      WorkerOnlySends(s, a.w, a.wa, reply, t);
    } else {
      OthersOnlySend(s, a, reply, t);
    }
    var n := |s.outlet.sent|;
    assert t.outlet.sent == s.outlet.sent + t.outlet.sent[n..];
    ReceivedGrows(s.outlet.sent, t.outlet.sent[n..], x);
  }

  /** The same at a join: when the counter reads (0, 0) every completed call whose tasks did not
      panic yields its results in input order; a worker that succeeds at once yields its outputs. */
  lemma CallYieldsAfterJoin(s: State, u: nat, f: PureWorker, k: nat)
    requires PurelyReachable(s, f) && CounterLaw.Orderly(s) && !s.hist.everDrained && u < |s.subs|
    requires s.num.Read() == (0, 0) && OwnsChannel(s, u)
    requires Idle(s.subs[u]) && !s.subs[u].mode.Broken?
    requires forall i :: i in s.subs[u].issued ==> s.hist.panicked[i] == 0
    requires k < |s.subs[u].given|
    ensures var sub := s.subs[u];
            var results := Results(NewIter(Received(s.outlet.sent, sub.tx.value), sub.issued), |sub.given|);
            |sub.issued| == |sub.given| &&
            results[k] == Some(RetryLoop(f, s.cfg, sub.given[k], 0, sub.issued[k])) &&
            (f(sub.given[k], 0).Returned? ==> results[k] == Some(Success(f(sub.given[k], 0).value, sub.issued[k])))
  {
    TasksEndedAtJoin(s, u, f);
    CallYieldsInInputOrder(s, u, f, k);
  }

  lemma TasksEndedAtJoin(s: State, u: nat, f: PureWorker)
    requires PurelyReachable(s, f) && CounterLaw.Orderly(s) && u < |s.subs|
    requires s.num.Read() == (0, 0) && Idle(s.subs[u]) && !s.subs[u].mode.Broken?
    ensures TasksEnded(s, u)
  {
    PurelyReachableHolds(s, f);
    Theorems.CompletedCallHasItsIndices(s, u);
    forall i | i in s.subs[u].issued
      ensures Live(s, i) == 0 && Count(s.workers, WorkerSettled, i) == 0 && s.hist.dropped[i] == 0
    {
      Theorems.JoinIsSound(s, i);
    }
  }

  // ------------------------------------------------------------------------------------------
  // A panic in the middle
  // ------------------------------------------------------------------------------------------

  /** Input number p is the first of the call whose task was lost to a panic. */
  predicate FirstPanicked(s: State, u: nat, p: nat)
    requires u < |s.subs|
  {
    var issued := s.subs[u].issued;
    && p < |issued| && s.hist.panicked[issued[p]] > 0
    && forall q :: 0 <= q < p ==> s.hist.panicked[issued[q]] == 0
  }

  /** A task lost to a panic sends nothing. */
  lemma PanickedIsAbsent(s: State, x: nat, i: nat)
    requires Theorems.Invariant(s) && s.hist.panicked[i] > 0
    ensures Position(Received(s.outlet.sent, x), i).None?
  {
    var source := Received(s.outlet.sent, x);
    if Position(source, i).Some? {
      SentDidNotPanic(s, x, source[Position(source, i).value]);
    }
  }

  lemma SentDidNotPanic(s: State, x: nat, o: Outcome)
    requires Theorems.Invariant(s) && o in Received(s.outlet.sent, x)
    ensures s.hist.panicked[o.index] == 0
  {
    ReceivedIffSent(s.outlet.sent, x, o);
    Ledger.CountsAreNatural(s, o.index);
    CountOfNats(s.outlet.sent, ParcelSettled, o.index);
    assert ParcelSettled(Parcel(x, o), o.index) == 1;
    assert Live(s, o.index) + Settled(s, o.index) <= 1;
  }

  lemma FirstPanickedIsFirstAbsent(s: State, u: nat, p: nat)
    requires Theorems.Invariant(s) && u < |s.subs|
    requires OwnsChannel(s, u) && TasksEnded(s, u) && FirstPanicked(s, u, p)
    ensures FirstAbsent(Received(s.outlet.sent, s.subs[u].tx.value), s.subs[u].issued) == p
  {
    var issued, x := s.subs[u].issued, s.subs[u].tx.value;
    PanickedIsAbsent(s, x, issued[p]);
    forall q | 0 <= q < p
      ensures Position(Received(s.outlet.sent, x), issued[q]).Some?
    {
      OutcomeArrived(s, u, issued[q]);
    }
  }

  /** When all tasks of a call have ended and the one for input number p is the first that panicked, the
      iterator yields the results of the sequential loop for the inputs before it, and then `Missing`
      for input p, again and again: all later results stay in the buffer and are never handed out. */
  lemma PanicHidesTheRest(s: State, u: nat, f: PureWorker, p: nat, n: nat, k: nat)
    requires PurelyReachable(s, f) && !s.hist.everDrained && u < |s.subs|
    requires OwnsChannel(s, u) && TasksEnded(s, u) && FirstPanicked(s, u, p) && k < n
    ensures var sub := s.subs[u];
            var results := Results(NewIter(Received(s.outlet.sent, sub.tx.value), sub.issued), n);
            |sub.issued| == |sub.given| &&
            results[k] == Some(if k < p then RetryLoop(f, s.cfg, sub.given[k], 0, sub.issued[k])
                               else Missing(sub.issued[p]))
  {
    PurelyReachableHolds(s, f);
    var sub := s.subs[u];
    var source := Received(s.outlet.sent, sub.tx.value);
    Theorems.CompletedCallHasItsIndices(s, u);
    ArrivalsAreTheCalls(s, u);
    FirstPanickedIsFirstAbsent(s, u, p);
    LookupSpec(source, sub.issued, n, k);
    if k < p {
      DueSoFar(s, u, f, k);
    }
  }
}
