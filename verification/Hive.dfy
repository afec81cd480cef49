/** `Shared` and the threads that use it (src/hive/shared.rs, src/hive/hive.rs), as programs.

    The fields are the shared state. The ghost fields say where each thread stands, what happened
    so far, and which actions of the state machine all threads together have taken: `Valid` makes
    every execution of these methods a run of the machine, so what holds of every run holds here.
    `Yield` stands between two atomic accesses of a thread and lets all other threads run. */
module Hive {
  import opened Wrappers
  import opened Tasks
  import opened Protocol
  import opened Threads
  import opened Steps
  import opened Delay
  import opened Counter
  import CounterLaw
  import RetryCache
  import Progress
  import Scenarios
  import Service
  import Theorems
  import Backoff
  import opened Store

  datatype NextTaskError = Disconnected | Poisoned | InvalidCounter(error: CounterError)

  /** How `next_task` ends; it is `Blocked` when its patience is over while it waits. */
  datatype Fetched = Got(task: Task) | Failed(error: NextTaskError) | Blocked

  /** What `recv_timeout` returns. */
  datatype Polled = Message(task: Task) | Timeout | HungUp

  /** How an execution ends. */
  datatype Executed = Ended | Panicking | StillBlocked

  /** The counter can be relied on: the hive is in service, or no clean exit has happened. */
  predicate Reliable(s: State) {
    Service.InService(s) || CounterLaw.Orderly(s)
  }

  lemma ReliableIffOrderly(s: State)
    requires Reachable(s)
    ensures Reliable(s) <==> CounterLaw.Orderly(s)
  {
    if Service.InService(s) {
      Service.InServiceIsOrderly(s);
    }
  }

  /** A reliable counter does not fail for a panicking worker, which is still active. */
  lemma PanicFits(s: State, w: nat)
    requires Reachable(s) && Reliable(s) && w < |s.workers| && s.workers[w].Unwinding? && !s.flags.aborted
    ensures !s.num.Fails(DecrementRight(1))
  {
    ReliableIffOrderly(s);
    var step := SentinelStepOf(s, w, s.workers[w].counted);
    Theorems.NoCounterErrors(s, OfWorker(w, SentinelFinish));
  }

  /** Whether the counter showed work at that moment. */
  predicate WorkAt(s: State, suspended: bool) {
    s.num.Read().1 > 0 || (!suspended && s.num.Read().0 > 0)
  }

  /** The index has ended in one way: its outcome was sent to its own sender, or is stored because it
      has no receiver, or was taken from the store, or its task was lost to a panic or a failed
      transfer. */
  ghost predicate Kept(s: State, i: nat) {
    && Shipped(s.outlet, i) + s.hist.taken[i] + s.hist.panicked[i] + s.hist.dropped[i] == 1
    && i < |s.hist.log|
    && (forall p :: p in s.outlet.sent && p.outcome.index == i ==> s.hist.log[i].tx == Some(p.tx))
    && (i in s.outlet.store.Keys ==> s.outlet.store[i].index == i)
  }

  lemma RetryLockIsFree(s: State)
    requires RetryCache.Locked(s) && NoThreads(s) && !s.drainer.DrainingRetry?
    ensures s.queues.owner.None?
  {
    assert RetryCache.Holder(s) == Dead;
    if s.queues.owner.Some? {
      RetryCache.HolderHoldsLock(s);
    }
  }

  /** The earliest time of a listing bounds the items of any other listing. */
  lemma SameItems(retry: seq<Delayed>, heap: seq<Delayed>)
    requires multiset(heap) == multiset(retry)
    ensures retry == [] <==> heap == []
    ensures forall d :: d in multiset(heap) ==> retry != [] && Earliest(retry).value <= d.until
  {
    if retry == [] {
      assert |multiset(heap)| == 0;
    } else {
      assert retry[0] in multiset(heap);
      EarliestIsLeast(retry);
    }
  }

  lemma NothingToDrain(retry: seq<Delayed>, heap: seq<Delayed>)
    requires multiset(heap) == multiset(retry) && heap == []
    ensures retry == []
  {
    assert |multiset(retry)| == 0;
  }

  lemma PositionOf(retry: seq<Delayed>, item: Delayed) returns (k: nat)
    requires item in multiset(retry)
    ensures k < |retry| && retry[k] == item && multiset(WithoutAt(retry, k)) == multiset(retry) - multiset{item}
  {
    k :| k < |retry| && retry[k] == item;
    assert retry == retry[..k] + [item] + retry[k + 1..];
  }

  /** The indices from start on were issued for these inputs. */
  ghost predicate Issued(log: seq<Issue>, start: nat, inputs: seq<Input>, tx: Option<nat>) {
    start + |inputs| <= |log| && log[start..start + |inputs|] == Issues(inputs, tx)
  }

  lemma OneIssued(log: seq<Issue>, indices: seq<nat>, input: Input, tx: Option<nat>, low: nat)
    requires exists start: nat :: low <= start && indices == IndicesFrom(start, 1) && Issued(log, start, [input], tx)
    ensures |indices| == 1 && low <= indices[0] < |log| && log[indices[0]] == Issue(input, tx)
  {
    var start: nat :| low <= start && indices == IndicesFrom(start, 1) && Issued(log, start, [input], tx);
    assert log[start..start + 1][0] == Issue(input, tx);
  }

  lemma OneMore<T>(before: seq<T>, xs: seq<T>, n: nat)
    requires n < |xs|
    ensures before + xs[..n] + [xs[n]] == before + xs[..n + 1]
  {
  }

  /** These are the inputs of the outcomes stored under these keys, in order. */
  ghost predicate InputsOf(m: map<nat, Outcome>, order: seq<nat>, inputs: seq<Input>) {
    |inputs| == |order| &&
    forall k :: 0 <= k < |order| ==>
      order[k] in m && m[order[k]].Unprocessed? && m[order[k]].input == inputs[k]
  }

  method ToInputs(ghost m: map<nat, Outcome>, ghost order: seq<nat>, taken: seq<Outcome>) returns (inputs: seq<Input>)
    requires |taken| == |order| && Enumerates(order, Where(m, IsUnprocessed))
    requires forall k :: 0 <= k < |order| ==> order[k] in m && taken[k] == m[order[k]]
    ensures InputsOf(m, order, inputs)
  {
    assert forall k :: 0 <= k < |order| ==> order[k] in order;
    inputs := seq(|taken|, k requires 0 <= k < |taken| && taken[k].Unprocessed? => taken[k].input);
  }

  lemma IssuedForever(log: seq<Issue>, later: seq<Issue>, start: nat, inputs: seq<Input>, tx: Option<nat>)
    requires Issued(log, start, inputs, tx) && log <= later
    ensures Issued(later, start, inputs, tx)
  {
    assert later[start..start + |inputs|] == log[start..start + |inputs|];
  }

  ghost predicate SomethingDue(heap: seq<Delayed>, now: nat) {
    exists d :: d in multiset(heap) && d.until <= now
  }

  predicate HandedIn(out: Outlet, o: Outcome, tx: Option<nat>) {
    if tx.Some? && tx.value !in out.hungUp then out.sent != [] && out.sent[|out.sent| - 1] == Parcel(tx.value, o)
    else o.index in out.store && out.store[o.index] == o
  }

  lemma DeliverHands(out: Outlet, o: Outcome, tx: Option<nat>)
    ensures HandedIn(Deliver(out, o, tx), o, tx) && Deliver(out, o, tx).hungUp == out.hungUp
  {
  }

  class Shared {
    const cfg: Config
    const numTasks: DualCounter
    const retryQueue: DelayQueue
    var nextTaskIndex: nat
    var tasks: seq<Task>                 // the task channel
    var retryLock: Option<Owner>
    var nextRetry: Option<nat>
    var outlet: Outlet                   // the outcome channels and the stored outcomes
    var outcomesLocked: bool             // by a drain
    var flags: Flags
    ghost var queues: Queues             // the queues as the machine sees them
    ghost var workers: seq<Worker>
    ghost var subs: seq<Submitter>
    ghost var drainer: Drainer
    ghost var hist: History
    ghost var trace: seq<Action>         // the actions of all threads so far
    ghost var past: seq<State>           // the state before and after each of them
    ghost const start: State             // the first of these states

    ghost function View(): State
      reads this, numTasks
    {
      State(cfg, Cell(numTasks.bits, numTasks.word), queues, outlet, flags, workers, subs, drainer, hist)
    }

    /** The parts are sound, and agree with the ghost state. */
    ghost predicate Sound()
      reads this, numTasks, retryQueue
    {
      && numTasks.Valid() && retryQueue.Valid()
      && queues == Queues(nextTaskIndex, tasks, queues.retry, retryLock, nextRetry)
      && multiset(retryQueue.heap) == multiset(queues.retry)
      && (outcomesLocked <==> !drainer.Resting?)
    }

    /** What happened so far led from the start to state s. */
    ghost predicate Recorded(s: State)
      reads this
    {
      Chronicle(past, trace) && past[0] == start && past[|trace|] == s
    }

    ghost predicate Valid()
      reads this, numTasks, retryQueue
    {
      Sound() && Recorded(View())
    }

    /** A thread executes only while the process has not been aborted. */
    ghost predicate Running()
      reads this, numTasks, retryQueue
    {
      Valid() && !flags.aborted
    }

    ghost predicate At(w: nat, x: Worker)
      reads this
    {
      w < |workers| && workers[w] == x
    }

    /** Since then, no execution of worker w has been answered. */
    ghost predicate NoAnswer(before: seq<Action>, w: nat)
      reads this
    {
      before <= trace && Answers(trace, w) == Answers(before, w)
    }

    /** Since then, the executions of worker w have got exactly these answers. */
    ghost predicate Heard(before: seq<Action>, w: nat, answers: seq<Option<ApplyResult>>)
      reads this
    {
      before <= trace && Answers(trace, w) == Answers(before, w) + answers
    }

    constructor (cfg: Config, n: nat)
      ensures Running() && View() == Init(cfg, n) && trace == []
      ensures fresh(numTasks) && fresh(retryQueue)
    {
      this.cfg := cfg;
      numTasks := new DualCounter(LEFT_BITS);
      retryQueue := new DelayQueue();
      nextTaskIndex, tasks, retryLock, nextRetry, outcomesLocked := 0, [], None, None, false;
      outlet, flags := Outlet([], map[], {}), Flags(false, false, true, false, 0, 0);
      queues := Queues(0, [], [], None, None);
      workers, subs, drainer, hist := Init(cfg, n).workers, [], Resting, Init(cfg, n).hist;
      start, trace, past := Init(cfg, n), [], [Init(cfg, n)];
    }

    lemma IsReachable()
      requires Valid()
      ensures Reachable(View()) && Theorems.Invariant(View())
    {
      ChronicleIsReachable(past, trace, |trace|);
      Theorems.ReachableInvariant(View());
    }

    /** The fields have just been changed as action a of the machine does. */
    ghost method Commit(s: State, a: Action)
      requires Sound() && Recorded(s) && Step(s, a) == Some(View())
      requires !Progress.Applies(a)
      modifies this`trace, this`past
      ensures Valid() && trace == old(trace) + [a] && old(past) <= past
      ensures forall w: nat :: Answers(trace, w) == Answers(old(trace), w)
    {
      ChronicleGrows(past, trace, a, View());
      NothingAnswered(trace, a);
      past := past + [View()];
      trace := trace + [a];
    }

    /** The other fields have just been changed as action a of the machine does; the threads and the
        history follow. */
    ghost method Follow(s: State, a: Action, t: State)
      requires Recorded(s) && Step(s, a) == Some(t) && !Progress.Applies(a)
      requires numTasks.Valid() && t.cfg == cfg && t.num == Cell(numTasks.bits, numTasks.word)
      requires retryQueue.Valid() && multiset(retryQueue.heap) == multiset(queues.retry)
      requires t.queues == queues == Queues(nextTaskIndex, tasks, queues.retry, retryLock, nextRetry)
      requires t.outlet == outlet && t.flags == flags
      requires t.drainer == drainer && (outcomesLocked <==> !drainer.Resting?)
      modifies this`workers, this`subs, this`hist, this`trace, this`past
      ensures Valid() && View() == t && trace == old(trace) + [a] && old(past) <= past
      ensures forall w: nat :: Answers(trace, w) == Answers(old(trace), w)
    {
      workers, subs, hist := t.workers, t.subs, t.hist;
      Commit(s, a);
    }

    /** The same for the end of an execution by worker w. */
    ghost method CommitAnswer(s: State, w: nat, a: WorkerAction)
      requires Sound() && Recorded(s) && Step(s, OfWorker(w, a)) == Some(View())
      requires Progress.Applies(OfWorker(w, a))
      modifies this`trace, this`past
      ensures Valid() && trace == old(trace) + [OfWorker(w, a)]
      ensures Answers(trace, w) == Answers(old(trace), w) + AnswerOf(OfWorker(w, a), w)
    {
      ChronicleGrows(past, trace, OfWorker(w, a), View());
      AnswersAppend(trace, OfWorker(w, a), w);
      past := past + [View()];
      trace := trace + [OfWorker(w, a)];
    }

    /** Whatever the other threads do. They take actions of the machine and none that belongs to
        this thread; and if they abort the process, this thread never gets to run again. */
    method Interfere(ghost me: Me)
      requires Running()
      modifies this, numTasks, retryQueue
      ensures Running() && old(trace) <= trace && old(past) <= past
      ensures forall k :: |old(trace)| <= k < |trace| ==> ByOthers(trace[k], me)
    {
    }

    /** The same, with what it means for this thread. */
    method Yield(ghost me: Me)
      requires Running()
      modifies this, numTasks, retryQueue
      ensures old(trace) <= trace && (me.AWorker? ==> NoAnswer(old(trace), me.w))
      ensures Running() && SamePlace(old(View()), View(), me) && Sticky(old(View()), View()) && old(past) <= past
    {
      ghost var before := |trace|;
      Interfere(me);
      if me.AWorker? {
        OthersGetTheirOwn(old(trace), trace, me.w);
      }
      assert past[before] == old(View());
      OthersLeaveMe(past, trace, before, |trace|, me);
    }

    /** The worker is at the resume gate of a suspended hive, or at the retry lock, which is taken. */
    ghost predicate AtClosedDoor(w: nat)
      reads this
    {
      (At(w, AtGate) && flags.suspended) || (At(w, LockingRetry) && retryLock.Some?)
    }

    /** A worker that has not got a task may give up only for one of these reasons: it is at the resume
        gate of a suspended hive, or at the retry lock, which is taken; or it has waited for a message in
        as many rounds as it was given, each time in vain - in all rounds whose message did not come too
        late, because the channel was empty. */
    ghost predicate GaveUp(before: seq<Action>, w: nat, rounds: nat, late: nat -> bool)
      reads this
    {
      AtClosedDoor(w) || (At(w, AtGate) && WaitedInVain(start, before, trace, w, rounds, LateRounds(late, rounds)))
    }

    /** Whatever all threads did since. */
    lemma NothingIsTakenBack(before: seq<State>)
      requires Valid() && before <= past && before != []
      ensures Sticky(before[|before| - 1], View())
    {
      NothingTakenBack(past, trace, |before| - 1, |trace|);
    }

    // ----------------------------------------------------------------------------------------
    // next_task
    // ----------------------------------------------------------------------------------------

    /** `resume_gate.wait_while(|| self.is_suspended())`. */
    method WaitForResume(w: nat, patience: nat) returns (passed: bool)
      requires Running() && At(w, AtGate)
      modifies this, numTasks, retryQueue
      ensures NoAnswer(old(trace), w)
      ensures Running() && old(past) <= past
      ensures At(w, if passed then CheckingPoison else AtGate)
      ensures passed <==> !flags.suspended
    {
      WaitAtGate(w, patience);
      passed := !flags.suspended;
      if passed {
        LeaveGate(w);
      }
    }

    method WaitAtGate(w: nat, patience: nat)
      requires Running() && At(w, AtGate)
      modifies this, numTasks, retryQueue
      ensures NoAnswer(old(trace), w)
      ensures Running() && At(w, AtGate) && old(past) <= past
    {
      var left := patience;
      while flags.suspended && left > 0
        invariant NoAnswer(old(trace), w)
        invariant Running() && At(w, AtGate) && old(past) <= past
      {
        Yield(AWorker(w));
        left := left - 1;
      }
    }

    method LeaveGate(w: nat)
      requires Running() && At(w, AtGate) && !flags.suspended
      modifies this`workers, this`trace, this`past
      ensures NoAnswer(old(trace), w) && old(past) <= past
      ensures Running() && At(w, CheckingPoison)
    {
      ghost var s := View();
      workers := workers[w := CheckingPoison];
      Commit(s, OfWorker(w, PassGate));
    }

    method IsPoisoned(w: nat) returns (yes: bool)
      requires Running() && At(w, CheckingPoison)
      modifies this`workers, this`trace, this`past
      ensures NoAnswer(old(trace), w)
      ensures Running() && yes == flags.poisoned && At(w, if yes then Exiting else CheckingRetry)
    {
      yes := flags.poisoned;
      ghost var s := View();
      workers := workers[w := if yes then Exiting else CheckingRetry];
      Commit(s, OfWorker(w, CheckPoison));
    }

    /** The cached time covers the queue: it is None exactly if the queue is empty, and no later than
        any entry otherwise. */
    ghost predicate CacheCovers()
      reads this, retryQueue
    {
      && (nextRetry.None? <==> retryQueue.heap == [])
      && forall d :: d in multiset(retryQueue.heap) ==> nextRetry.Some? && nextRetry.value <= d.until
    }

    lemma FreeCacheCovers()
      requires Valid() && !hist.everDrained && retryLock.None?
      ensures CacheCovers()
    {
      IsReachable();
      Theorems.CacheIsSound(View());
      SameItems(queues.retry, retryQueue.heap);
    }

    lemma NoDueTaskIsMissed()
      requires Valid()
      ensures !hist.everDrained && retryLock.None? && SomethingDue(retryQueue.heap, flags.now) ==>
                nextRetry.Some? && nextRetry.value <= flags.now
    {
      if !hist.everDrained && retryLock.None? {
        FreeCacheCovers();
      }
    }

    /** The look at the cached `next_retry`. Before any drain and with the retry lock free it never
        misses a task that is due. */
    method HasRetry(w: nat) returns (due: bool)
      requires Running() && At(w, CheckingRetry)
      modifies this`workers, this`trace, this`past
      ensures NoAnswer(old(trace), w)
      ensures Running() && At(w, if due then LockingRetry else Receiving)
      ensures !hist.everDrained && retryLock.None? && SomethingDue(retryQueue.heap, flags.now) ==> due
      ensures due <==> nextRetry.Some? && nextRetry.value <= flags.now
    {
      NoDueTaskIsMissed();
      due := ReadCachedTime(w);
    }

    method ReadCachedTime(w: nat) returns (due: bool)
      requires Running() && At(w, CheckingRetry)
      modifies this`workers, this`trace, this`past
      ensures NoAnswer(old(trace), w)
      ensures Running() && At(w, if due then LockingRetry else Receiving)
      ensures due <==> nextRetry.Some? && nextRetry.value <= flags.now
    {
      due := nextRetry.Some? && nextRetry.value <= flags.now;
      ghost var s := View();
      workers := workers[w := if due then LockingRetry else Receiving];
      Commit(s, OfWorker(w, CheckRetry));
    }

    /** `update_next_retry`. */
    method UpdateNextRetry(instant: Option<nat>)
      modifies this`nextRetry
      ensures nextRetry == Publish(old(nextRetry), instant)
    {
      match instant
      case Some(t) =>
        if nextRetry.None? || t < nextRetry.value {
          nextRetry := Some(t);
        }
      case None => nextRetry := None;
    }

    /** `queue.try_pop()` under the free retry lock, which is kept if there is a task. Its task is due
        and the earliest in the queue; without one, nothing in the queue is due. */
    method TryPopRetry(w: nat) returns (r: Option<Task>, ghost e: Event)
      requires Running() && At(w, LockingRetry) && retryLock.None?
      modifies this`retryLock, this`queues, this`workers, this`trace, this`past, retryQueue
      ensures NoAnswer(old(trace), w)
      ensures Running() && At(w, if r.Some? then Popped(r.value) else Receiving)
      ensures retryLock == if r.Some? then Some(WorkerOwner(w)) else None
      ensures match e
              case Took(item, at) => r == Some(item.task) && at == flags.now
              case NothingDue(at) => r == None && at == flags.now
              case _ => false
      ensures Legal(multiset(old(retryQueue.heap)), e)
      ensures multiset(retryQueue.heap) == BagAfter(multiset(old(retryQueue.heap)), e)
    {
      r := retryQueue.TryPop(flags.now);
      e := retryQueue.Last();
      LockIfPopped(w, r, e);
    }

    method LockIfPopped(w: nat, r: Option<Task>, ghost e: Event)
      requires numTasks.Valid() && retryQueue.Valid() && (outcomesLocked <==> !drainer.Resting?)
      requires queues == Queues(nextTaskIndex, tasks, queues.retry, retryLock, nextRetry)
      requires Recorded(View()) && !flags.aborted && At(w, LockingRetry) && retryLock.None?
      requires Legal(multiset(queues.retry), e)
      requires multiset(retryQueue.heap) == BagAfter(multiset(queues.retry), e)
      requires if r.Some? then e.Took? && e.item.task == r.value && e.now == flags.now else e == NothingDue(flags.now)
      modifies this`retryLock, this`queues, this`workers, this`trace, this`past
      ensures NoAnswer(old(trace), w)
      ensures Running() && At(w, if r.Some? then Popped(r.value) else Receiving)
      ensures retryLock == if r.Some? then Some(WorkerOwner(w)) else None
    {
      if r.Some? {
        LockPopped(w, e.item);
      } else {
        FindNothingDue(w);
      }
    }

    method LockPopped(w: nat, ghost item: Delayed)
      requires numTasks.Valid() && retryQueue.Valid() && (outcomesLocked <==> !drainer.Resting?)
      requires queues == Queues(nextTaskIndex, tasks, queues.retry, retryLock, nextRetry)
      requires Recorded(View()) && !flags.aborted
      requires At(w, LockingRetry) && retryLock.None?
      requires Legal(multiset(queues.retry), Took(item, flags.now))
      requires multiset(retryQueue.heap) == multiset(queues.retry) - multiset{item}
      modifies this`retryLock, this`queues, this`workers, this`trace, this`past
      ensures NoAnswer(old(trace), w)
      ensures Running() && At(w, Popped(item.task)) && retryLock == Some(WorkerOwner(w))
    {
      ghost var k := TookIsARetryStep(View(), w, item);
      LockRetry(w, item.task, WithoutAt(queues.retry, k), OfWorker(w, PopRetry(Some(k))));
    }

    method LockRetry(w: nat, ghost task: Task, ghost rest: seq<Delayed>, ghost a: Action)
      requires numTasks.Valid() && retryQueue.Valid() && (outcomesLocked <==> !drainer.Resting?)
      requires queues == Queues(nextTaskIndex, tasks, queues.retry, retryLock, nextRetry)
      requires multiset(retryQueue.heap) == multiset(rest) && !Progress.Applies(a)
      requires Recorded(View()) && !flags.aborted && w < |workers|
      requires Step(View(), a) == Some(
                 View().(workers := workers[w := Popped(task)],
                    queues := queues.(retry := rest, owner := Some(WorkerOwner(w)))))
      modifies this`retryLock, this`queues, this`workers, this`trace, this`past
      ensures NoAnswer(old(trace), w)
      ensures Running() && At(w, Popped(task)) && retryLock == Some(WorkerOwner(w))
    {
      ghost var s := View();
      retryLock := Some(WorkerOwner(w));
      queues, workers := queues.(retry := rest, owner := retryLock), workers[w := Popped(task)];
      Commit(s, a);
    }

    ghost method FindNothingDue(w: nat)
      requires Running() && At(w, LockingRetry) && retryLock.None? && Legal(multiset(queues.retry), NothingDue(flags.now))
      modifies this`workers, this`trace, this`past
      ensures NoAnswer(old(trace), w)
      ensures Running() && At(w, Receiving)
    {
      ghost var s := View();
      NothingDueIsARetryStep(s, w);
      workers := workers[w := Receiving];
      Commit(s, OfWorker(w, PopRetry(None)));
    }

    /** Waits for the retry lock. */
    method AwaitRetryLock(ghost me: Me, patience: nat) returns (free: bool)
      requires Running()
      modifies this, numTasks, retryQueue
      ensures old(past) <= past && old(trace) <= trace && (me.AWorker? ==> NoAnswer(old(trace), me.w))
      ensures Running() && SamePlace(old(View()), View(), me) && Sticky(old(View()), View())
      ensures free <==> retryLock.None?
    {
      var left := patience;
      while retryLock.Some? && left > 0
        invariant old(past) <= past && old(trace) <= trace && (me.AWorker? ==> NoAnswer(old(trace), me.w))
        invariant Running() && SamePlace(old(View()), View(), me) && Sticky(old(View()), View())
      {
        Yield(me);
        left := left - 1;
      }
      free := retryLock.None?;
    }

    method NextAvailable() returns (next: Option<nat>)
      requires Valid()
      ensures next == Earliest(queues.retry)
    {
      next := retryQueue.NextAvailable();
      if retryQueue.heap == [] {
        assert |multiset(queues.retry)| == 0;
      } else {
        HeadIsEarliest(queues.retry, retryQueue.heap);
      }
    }

    /** `update_next_retry(queue.next_available())`, and the lock is released. */
    method UpdateAfterRetry(w: nat, task: Task)
      requires Running() && At(w, Popped(task))
      modifies this`nextRetry, this`retryLock, this`queues, this`workers, this`trace, this`past
      ensures NoAnswer(old(trace), w)
      ensures Running() && At(w, Holding(task)) && retryLock.None?
      ensures !hist.everDrained ==> CacheCovers()
    {
      ghost var s := View();
      var next := NextAvailable();
      UpdateNextRetry(next);
      retryLock := None;
      UpdateStep(s, w, task, next);
      queues, workers := queues.(cached := nextRetry, owner := None), workers[w := Holding(task)];
      Commit(s, OfWorker(w, UpdateAfterPop));
      if !hist.everDrained {
        FreeCacheCovers();
      }
    }

    /** `task_rx.lock().recv_timeout(RECV_TIMEOUT)`, in a moment when a message that waits is, or is not,
        too late. */
    method RecvTimeout(w: nat, late: bool) returns (r: Polled)
      requires Running() && At(w, Receiving)
      modifies this`tasks, this`queues, this`workers, this`trace, this`past
      ensures NoAnswer(old(trace), w)
      ensures Running()
      ensures At(w, match r case Message(task) => Holding(task) case Timeout => AtGate case HungUp => Exiting)
      ensures r.Message? ==> old(tasks) == [r.task] + tasks
      ensures r.HungUp? ==> !flags.connected && tasks == []
      ensures r.Timeout? ==> (old(tasks) == [] && flags.connected) || (old(tasks) != [] && late)
      ensures r.Timeout? ==> TimedOut(old(trace), w, late)
    {
      if tasks != [] && !late {
        var task := TakeMessage(w);
        return Message(task);
      }
      if tasks == [] && !flags.connected {
        FindHungUp(w);
        return HungUp;
      }
      ReceiveNothing(w);
      return Timeout;
    }

    /** Since then worker w has waited for a message in vain, once or more; unless one came too late, at
        an empty channel. */
    ghost predicate TimedOut(before: seq<Action>, w: nat, late: bool)
      reads this
    {
      WaitedInVain(start, before, trace, w, 1, if late then 1 else 0)
    }

    ghost method FindHungUp(w: nat)
      requires Running() && At(w, Receiving) && tasks == [] && !flags.connected
      modifies this`workers, this`trace, this`past
      ensures NoAnswer(old(trace), w)
      ensures Running() && At(w, Exiting)
    {
      var s := View();
      ReceiveSteps(s, w);
      workers := workers[w := Exiting];
      Commit(s, OfWorker(w, ReceiveDisconnected));
    }

    ghost method ReceiveNothing(w: nat)
      requires Running() && At(w, Receiving) && (tasks == [] ==> flags.connected)
      modifies this`workers, this`trace, this`past
      ensures NoAnswer(old(trace), w)
      ensures Running() && At(w, AtGate)
      ensures TimedOut(old(trace), w, tasks != [])
    {
      var s := View();
      ReceiveSteps(s, w);
      TimeoutCounts(past, trace, w);
      workers := workers[w := AtGate];
      Commit(s, OfWorker(w, ReceiveTimeout));
    }

    method TakeMessage(w: nat) returns (task: Task)
      requires Running() && At(w, Receiving) && tasks != []
      modifies this`tasks, this`queues, this`workers, this`trace, this`past
      ensures NoAnswer(old(trace), w)
      ensures Running() && At(w, Holding(task)) && old(tasks) == [task] + tasks
    {
      ghost var s := View();
      ReceiveSteps(s, w);
      task := tasks[0];
      assert [task] + tasks[1..] == tasks;
      tasks := tasks[1..];
      queues, workers := queues.(channel := tasks), workers[w := Holding(task)];
      Commit(s, OfWorker(w, Receive));
    }

    lemma FailureIsDisorder()
      requires Valid() && hist.failed > 0
      ensures !Reliable(View())
    {
      IsReachable();
      ReliableIffOrderly(View());
    }

    /** `num_tasks.transfer(1)` for a task in hand. If it fails the task is dropped; and it fails only
        if the counter is not reliable. */
    method TransferOne(w: nat, task: Task) returns (r: Result<(nat, nat), CounterError>)
      requires Running() && At(w, Holding(task))
      modifies this`workers, this`hist, this`trace, this`past, numTasks
      ensures NoAnswer(old(trace), w)
      ensures Running() && At(w, if r.Ok? then Executing(task) else Exiting)
      ensures r.Err? ==> !Reliable(View())
    {
      ghost var s := View();
      TransferStepOf(s, w, task);
      ghost var t := Step(s, OfWorker(w, TransferTask)).value;
      r := numTasks.Transfer(1);
      workers, hist := t.workers, t.hist;
      Commit(s, OfWorker(w, TransferTask));
      if r.Err? {
        FailureIsDisorder();
      }
    }

    /** The part of the loop of `next_task` that looks for a task to retry. */
    method LookForRetry(w: nat, patience: nat) returns (found: Option<Task>, blocked: bool)
      requires Running() && At(w, CheckingRetry)
      modifies this, numTasks, retryQueue
      ensures NoAnswer(old(trace), w)
      ensures Running()
      ensures At(w, if blocked then LockingRetry else if found.Some? then Holding(found.value) else Receiving)
      ensures blocked ==> retryLock.Some?
    {
      found, blocked := None, false;
      var due := SeesRetry(w);
      if due {
        found, blocked := LockAndPop(w, patience);
      }
    }

    method SeesRetry(w: nat) returns (due: bool)
      requires Running() && At(w, CheckingRetry)
      modifies this, numTasks, retryQueue
      ensures NoAnswer(old(trace), w)
      ensures Running() && At(w, if due then LockingRetry else Receiving)
    {
      due := HasRetry(w);
      Yield(AWorker(w));
    }

    method LockAndPop(w: nat, patience: nat) returns (found: Option<Task>, blocked: bool)
      requires Running() && At(w, LockingRetry)
      modifies this, numTasks, retryQueue
      ensures NoAnswer(old(trace), w)
      ensures Running()
      ensures At(w, if blocked then LockingRetry else if found.Some? then Holding(found.value) else Receiving)
      ensures blocked ==> retryLock.Some?
    {
      var free := AwaitRetryLock(AWorker(w), patience);
      if !free {
        return None, true;
      }
      found := PopUnderLock(w);
      blocked := false;
    }

    method PopDue(w: nat) returns (found: Option<Task>)
      requires Running() && At(w, LockingRetry) && retryLock.None?
      modifies this`retryLock, this`queues, this`workers, this`trace, this`past, retryQueue
      ensures NoAnswer(old(trace), w)
      ensures Running() && At(w, if found.Some? then Popped(found.value) else Receiving)
    {
      ghost var e;
      found, e := TryPopRetry(w);
    }

    method PopUnderLock(w: nat) returns (found: Option<Task>)
      requires Running() && At(w, LockingRetry) && retryLock.None?
      modifies this, numTasks, retryQueue
      ensures NoAnswer(old(trace), w)
      ensures Running()
      ensures At(w, if found.Some? then Holding(found.value) else Receiving)
    {
      found := PopDue(w);
      if found.Some? {
        UpdateLater(w, found.value);
      }
    }

    method UpdateLater(w: nat, task: Task)
      requires Running() && At(w, Popped(task))
      modifies this, numTasks, retryQueue
      ensures NoAnswer(old(trace), w)
      ensures Running() && At(w, Holding(task))
    {
      Yield(AWorker(w));
      UpdateAfterRetry(w, task);
    }

    /** What became of the search for a task. */
    ghost predicate Found(r: Polled, blocked: bool, before: seq<Action>, w: nat, late: bool)
      reads this
    {
      if blocked then At(w, LockingRetry) && retryLock.Some?
      else
        match r
        case Message(task) => At(w, Holding(task))
        case Timeout => At(w, AtGate) && TimedOut(before, w, late)
        case HungUp => At(w, Exiting) && !flags.connected && tasks == []
    }

    /** A task for the worker from the retry queue or from the channel, if there is one in time. */
    method FindTask(w: nat, patience: nat, late: bool) returns (r: Polled, blocked: bool)
      requires Running() && At(w, CheckingRetry)
      modifies this, numTasks, retryQueue
      ensures NoAnswer(old(trace), w)
      ensures Running()
      ensures Found(r, blocked, old(trace), w, late)
    {
      var found, stuck := LookForRetry(w, patience);
      if stuck {
        return Timeout, true;
      }
      if found.Some? {
        return Message(found.value), false;
      }
      ghost var before := trace;
      r := ReceiveLater(w, late);
      blocked := false;
      NothingInVain(start, old(trace), before, w);
    }

    method ReceiveLater(w: nat, late: bool) returns (r: Polled)
      requires Running() && At(w, Receiving)
      modifies this, numTasks, retryQueue
      ensures NoAnswer(old(trace), w)
      ensures Running()
      ensures At(w, match r case Message(task) => Holding(task) case Timeout => AtGate case HungUp => Exiting)
      ensures r.HungUp? ==> !flags.connected && tasks == []
      ensures r.Timeout? ==> TimedOut(old(trace), w, late)
    {
      Yield(AWorker(w));
      ghost var before := trace;
      r := RecvTimeout(w, late);
      NothingInVain(start, old(trace), before, w);
    }

    /** How a round of `next_task` ends: the worker has waited in vain and is at the gate again, or it has
        a task, or it is on its way out, or it is blocked. */
    ghost predicate RoundEnds(r: Option<Fetched>, before: seq<Action>, w: nat, late: bool)
      reads this, numTasks
    {
      match r
      case None => At(w, AtGate) && TimedOut(before, w, late)
      case Some(Got(task)) => At(w, Executing(task))
      case Some(Failed(e)) => At(w, Exiting) && Explained(e)
      case Some(Blocked) => AtClosedDoor(w)
    }

    lemma RoundEndsSince(r: Option<Fetched>, before: seq<Action>, later: seq<Action>, w: nat, late: bool)
      requires before <= later && RoundEnds(r, later, w, late)
      ensures RoundEnds(r, before, w, late)
    {
      NothingInVain(start, before, later, w);
    }

    /** One round of the loop of `next_task`, or a wait at the resume gate or for the retry lock. */
    method TryNextTask(w: nat, patience: nat, late: bool) returns (r: Option<Fetched>)
      requires Running() && At(w, AtGate)
      modifies this, numTasks, retryQueue
      ensures NoAnswer(old(trace), w)
      ensures Running()
      ensures RoundEnds(r, old(trace), w, late)
    {
      var passed := WaitForResume(w, patience);
      if !passed {
        return Some(Blocked);
      }
      ghost var before := trace;
      r := PassedGate(w, patience, late);
      RoundEndsSince(r, old(trace), before, w, late);
    }

    method PassedGate(w: nat, patience: nat, late: bool) returns (r: Option<Fetched>)
      requires Running() && At(w, CheckingPoison)
      modifies this, numTasks, retryQueue
      ensures NoAnswer(old(trace), w)
      ensures Running()
      ensures RoundEnds(r, old(trace), w, late)
    {
      Yield(AWorker(w));
      var poisoned := IsPoisoned(w);
      if poisoned {
        return Some(Failed(Poisoned));
      }
      ghost var before := trace;
      r := FindAndTake(w, patience, late);
      RoundEndsSince(r, old(trace), before, w, late);
    }

    method FindAndTake(w: nat, patience: nat, late: bool) returns (r: Option<Fetched>)
      requires Running() && At(w, CheckingRetry)
      modifies this, numTasks, retryQueue
      ensures NoAnswer(old(trace), w)
      ensures Running()
      ensures RoundEnds(r, old(trace), w, late)
    {
      var found, blocked := FindLater(w, patience, late);
      if blocked {
        return Some(Blocked);
      }
      if found.Timeout? {
        return None;
      }
      r := TakeTask(w, found);
    }

    method FindLater(w: nat, patience: nat, late: bool) returns (r: Polled, blocked: bool)
      requires Running() && At(w, CheckingRetry)
      modifies this, numTasks, retryQueue
      ensures NoAnswer(old(trace), w)
      ensures Running()
      ensures Found(r, blocked, old(trace), w, late)
    {
      Yield(AWorker(w));
      ghost var before := trace;
      r, blocked := FindTask(w, patience, late);
      NothingInVain(start, old(trace), before, w);
    }

    method TakeTask(w: nat, found: Polled) returns (r: Option<Fetched>)
      requires Running() && !found.Timeout?
      requires At(w, if found.Message? then Holding(found.task) else Exiting)
      requires found.HungUp? ==> !flags.connected && tasks == []
      modifies this, numTasks, retryQueue
      ensures NoAnswer(old(trace), w)
      ensures Running()
      ensures r.Some? && RoundEnds(r, old(trace), w, false)
    {
      if found.HungUp? {
        return Some(Failed(Disconnected));
      }
      Yield(AWorker(w));
      var moved := TransferOne(w, found.task);
      return Some(if moved.Ok? then Got(found.task) else Failed(InvalidCounter(moved.error)));
    }

    /** What an error of `next_task` says about the hive. */
    ghost predicate Explained(e: NextTaskError)
      reads this, numTasks
    {
      match e
      case Poisoned => flags.poisoned
      case Disconnected => !flags.connected && tasks == []
      case InvalidCounter(_) => !Reliable(View())
    }

    /** `next_task`, for at most `rounds` rounds; `late` says in which of them, counted from the end, a
        message comes too late. A task it returns has been moved from the queued to the active half, and
        has attempts left; an error leaves the worker on its way out. */
    method NextTask(w: nat, rounds: nat, patience: nat, late: nat -> bool) returns (r: Fetched)
      requires Running() && At(w, AtGate)
      modifies this, numTasks, retryQueue
      ensures NoAnswer(old(trace), w)
      ensures Running()
      ensures FetchEnds(r, old(trace), w, rounds, late)
    {
      var left := rounds;
      while left > 0
        invariant 0 <= left <= rounds && NoAnswer(old(trace), w)
        invariant Running() && At(w, AtGate)
        invariant VainRounds(old(trace), w, rounds, left, late)
      {
        left := left - 1;
        var round := CountedRound(w, patience, old(trace), rounds, left, late);
        if round.Some? {
          return round.value;
        }
      }
      return Blocked;
    }

    method CountedRound(w: nat, patience: nat, ghost before: seq<Action>, ghost rounds: nat, left: nat, late: nat -> bool)
      returns (r: Option<Fetched>)
      requires Running() && At(w, AtGate) && left < rounds && VainRounds(before, w, rounds, left + 1, late)
      modifies this, numTasks, retryQueue
      ensures NoAnswer(old(trace), w)
      ensures Running()
      ensures match r
              case None => At(w, AtGate) && VainRounds(before, w, rounds, left, late)
              case Some(fetched) => FetchEnds(fetched, before, w, rounds, late)
    {
      r := Round(w, patience, late(left), before, rounds, late);
      if r.None? {
        OneRoundMore(before, old(trace), w, rounds, left, late);
      }
    }

    /** How `next_task` ends. */
    ghost predicate FetchEnds(r: Fetched, before: seq<Action>, w: nat, rounds: nat, late: nat -> bool)
      reads this, numTasks
    {
      match r
      case Got(task) => At(w, Executing(task)) && hist.applies[task.index] == task.attempt
      case Failed(e) => At(w, Exiting) && Explained(e)
      case Blocked => GaveUp(before, w, rounds, late)
    }

    /** All but so many of these rounds are over, and were in vain. */
    ghost predicate VainRounds(before: seq<Action>, w: nat, rounds: nat, left: nat, late: nat -> bool)
      reads this
    {
      WaitedInVain(start, before, trace, w, rounds - left, LateRounds(late, rounds) - LateRounds(late, left))
    }

    lemma OneRoundMore(before: seq<Action>, later: seq<Action>, w: nat, rounds: nat, left: nat, late: nat -> bool)
      requires left < rounds && TimedOut(later, w, late(left))
      requires WaitedInVain(start, before, later, w, rounds - (left + 1),
                            LateRounds(late, rounds) - LateRounds(late, left + 1))
      ensures VainRounds(before, w, rounds, left, late)
    {
      VainAdds(start, before, later, trace, w, rounds - (left + 1), LateRounds(late, rounds) - LateRounds(late, left + 1),
               1, if late(left) then 1 else 0);
    }

    /** One round, before which the worker has not got a task; and the other threads run. */
    method Round(w: nat, patience: nat, tooLate: bool, ghost before: seq<Action>, ghost rounds: nat,
                 ghost late: nat -> bool)
      returns (r: Option<Fetched>)
      requires Running() && At(w, AtGate)
      modifies this, numTasks, retryQueue
      ensures NoAnswer(old(trace), w)
      ensures Running()
      ensures match r
              case None => At(w, AtGate) && TimedOut(old(trace), w, tooLate)
              case Some(fetched) => FetchEnds(fetched, before, w, rounds, late)
    {
      r := TryNextTask(w, patience, tooLate);
      if r.None? {
        ghost var now := trace;
        Yield(AWorker(w));
        NothingInVain(start, now, trace, w);
      } else if r.value.Got? {
        StartedWithAttemptsLeft(w);
      }
    }

    lemma StartedWithAttemptsLeft(w: nat)
      requires Valid() && w < |workers| && workers[w].Executing?
      ensures hist.applies[workers[w].task.index] == workers[w].task.attempt
    {
      IsReachable();
      Theorems.ExecutingHasAttemptsLeft(View(), w);
    }

    // ----------------------------------------------------------------------------------------
    // execute
    // ----------------------------------------------------------------------------------------

    /** `worker.apply` panics. */
    method ApplyPanicked(w: nat, task: Task)
      requires Running() && At(w, Executing(task))
      modifies this`workers, this`hist, this`trace, this`past
      ensures Heard(old(trace), w, [None])
      ensures Running() && At(w, Unwinding(true))
    {
      ghost var s := View();
      PanicStep(s, w, task);
      workers := workers[w := Unwinding(true)];
      hist := hist.(applies := hist.applies + multiset{task.index}, panicked := hist.panicked + multiset{task.index});
      CommitAnswer(s, w, ApplyPanics);
    }

    /** `worker.apply` returns and the thread goes on by itself up to its next shared access. */
    ghost method ApplyReturned(w: nat, task: Task, result: ApplyResult)
      requires Running() && At(w, Executing(task))
      modifies this`workers, this`hist, this`trace, this`past
      ensures Heard(old(trace), w, [Some(result)])
      ensures Running() && At(w, AfterApply(cfg, task, result).0)
    {
      var s := View();
      ReturnStep(s, w, task, result);
      var (after, lost) := AfterApply(cfg, task, result);
      workers := workers[w := after];
      hist := hist.(
        applies := hist.applies + multiset{task.index},
        panicked := hist.panicked + if lost then multiset{task.index} else multiset{});
      CommitAnswer(s, w, ApplyReturns(result));
    }

    /** The counter's increment under the free retry lock, which is kept unless it fails: with a
        reliable counter, exactly when one more task would exceed the left half. */
    method CountForRetry(w: nat, task: Task, delay: nat) returns (ok: bool)
      requires Running() && At(w, Requeueing(task, delay)) && retryLock.None?
      modifies this`retryLock, this`queues, this`workers, this`subs, this`hist, this`trace, this`past, numTasks
      ensures subs == old(subs)
      ensures NoAnswer(old(trace), w)
      ensures Running() && At(w, if ok then RetryCounted(task, delay) else Unwinding(true))
      ensures old(Reliable(View())) ==> (ok <==> old(Queued(View())) + 1 <= LMax(numTasks.bits))
      ensures !ok ==> hist.overflowed
      ensures queues.retry == old(queues.retry) && trace == old(trace) + [OfWorker(w, CountRetry)] && old(past) <= past
    {
      if Reliable(View()) {
        FitsIff(1);
      }
      ok := IncrementForRetry(w, task, delay);
    }

    method IncrementForRetry(w: nat, task: Task, delay: nat) returns (ok: bool)
      requires Running() && At(w, Requeueing(task, delay)) && retryLock.None?
      modifies this`retryLock, this`queues, this`workers, this`subs, this`hist, this`trace, this`past, numTasks
      ensures subs == old(subs)
      ensures NoAnswer(old(trace), w)
      ensures Running() && At(w, if ok then RetryCounted(task, delay) else Unwinding(true))
      ensures ok <==> !old(View()).num.Fails(Call.IncrementLeft(1))
      ensures !ok ==> hist.overflowed
      ensures queues.retry == old(queues.retry) && trace == old(trace) + [OfWorker(w, CountRetry)] && old(past) <= past
    {
      ghost var s := View();
      ghost var panicked := CountRetryStepOf(s, w, task, delay);
      var r := numTasks.IncrementLeft(1);
      ok := r.Ok?;
      if ok {
        retryLock := Some(WorkerOwner(w));
        queues := queues.(owner := retryLock);
      }
      Follow(s, OfWorker(w, CountRetry), Step(s, OfWorker(w, CountRetry)).value);
    }

    /** `queue.push(task, delay)` with the lock held. */
    method PushOntoRetry(w: nat, task: Task, delay: nat) returns (until: nat)
      requires Running() && At(w, RetryCounted(task, delay))
      modifies this`queues, this`workers, this`trace, this`past, retryQueue
      ensures NoAnswer(old(trace), w)
      ensures Running() && At(w, RetryPushed(until)) && until == flags.now + delay
      ensures queues.retry == old(queues.retry) + [Delayed(task, until)] && old(trace) <= trace && old(past) <= past
      ensures multiset(retryQueue.heap) == multiset(old(retryQueue.heap)) + multiset{Delayed(task, until)}
    {
      until := retryQueue.Push(task, delay, flags.now);
      PushStep(View(), w, task, delay);
      QueueGrew(w, until, queues.retry + [Delayed(task, until)], OfWorker(w, PushRetry));
    }

    ghost method QueueGrew(w: nat, until: nat, retry: seq<Delayed>, a: Action)
      requires numTasks.Valid() && retryQueue.Valid() && (outcomesLocked <==> !drainer.Resting?)
      requires queues == Queues(nextTaskIndex, tasks, queues.retry, retryLock, nextRetry)
      requires multiset(retryQueue.heap) == multiset(retry) && !Progress.Applies(a)
      requires Recorded(View()) && !flags.aborted && w < |workers|
      requires Step(View(), a) == Some(
                 View().(queues := queues.(retry := retry), workers := workers[w := RetryPushed(until)]))
      modifies this`queues, this`workers, this`trace, this`past
      ensures NoAnswer(old(trace), w) && old(past) <= past
      ensures Running() && At(w, RetryPushed(until)) && queues.retry == retry
    {
      var s := View();
      queues, workers := queues.(retry := retry), workers[w := RetryPushed(until)];
      Commit(s, a);
    }

    /** `update_next_retry(Some(until))`, and the lock is released. */
    method PublishUntil(w: nat, until: nat)
      requires Running() && At(w, RetryPushed(until))
      modifies this`nextRetry, this`retryLock, this`queues, this`workers, this`trace, this`past
      ensures NoAnswer(old(trace), w)
      ensures Running() && At(w, Delivered) && retryLock.None?
      ensures !hist.everDrained ==> CacheCovers()
      ensures queues.retry == old(queues.retry) && old(trace) <= trace && old(past) <= past
      ensures nextRetry.Some? && nextRetry.value <= until
    {
      PublishTime(w, until);
      if !hist.everDrained {
        FreeCacheCovers();
      }
    }

    method PublishTime(w: nat, until: nat)
      requires Running() && At(w, RetryPushed(until))
      modifies this`nextRetry, this`retryLock, this`queues, this`workers, this`trace, this`past
      ensures NoAnswer(old(trace), w)
      ensures Running() && At(w, Delivered) && retryLock.None?
      ensures queues.retry == old(queues.retry) && old(trace) <= trace && old(past) <= past
      ensures nextRetry.Some? && nextRetry.value <= until
    {
      ghost var s := View();
      PublishStep(s, w, until);
      UpdateNextRetry(Some(until));
      retryLock := None;
      queues, workers := queues.(cached := nextRetry, owner := None), workers[w := Delivered];
      Commit(s, OfWorker(w, PublishRetry));
    }

    /** `queue_retry`, once its delay is known. If it ends, the task was counted under the lock (by the
        action at place `counted`), the queue then grew by exactly this task, and only then was its
        time published and the lock released. */
    method QueueRetry(w: nat, task: Task, delay: nat, patience: nat)
      returns (r: Executed, ghost counted: nat, ghost until: nat)
      requires Running() && At(w, Requeueing(task, delay))
      modifies this, numTasks, retryQueue
      ensures NoAnswer(old(trace), w)
      ensures Running()
      ensures At(w, match r
                    case Ended => Delivered
                    case Panicking => Unwinding(true)
                    case StillBlocked => Requeueing(task, delay))
      ensures r.Panicking? ==> hist.overflowed
      ensures r.Ended? ==> |old(trace)| <= counted < |trace| && trace[counted] == OfWorker(w, CountRetry)
      ensures r.Ended? ==> queues.retry == past[counted].queues.retry + [Delayed(task, until)]
      ensures r.Ended? ==> retryLock.None? && nextRetry.Some? && nextRetry.value <= until
      ensures r.Ended? ==> until >= old(flags.now) + delay
      ensures r.StillBlocked? ==> retryLock.Some?
    {
      counted, until := 0, 0;
      var free := AwaitRetryLock(AWorker(w), patience);
      if !free {
        r := StillBlocked;
        return;
      }
      NothingIsTakenBack(old(past));
      r, counted, until := QueueLocked(w, task, delay);
    }

    method QueueLocked(w: nat, task: Task, delay: nat) returns (r: Executed, ghost counted: nat, ghost until: nat)
      requires Running() && At(w, Requeueing(task, delay)) && retryLock.None?
      modifies this, numTasks, retryQueue
      ensures NoAnswer(old(trace), w)
      ensures Running() && !r.StillBlocked?
      ensures At(w, if r.Ended? then Delivered else Unwinding(true))
      ensures r.Panicking? ==> hist.overflowed
      ensures r.Ended? ==> |old(trace)| == counted < |trace| && trace[counted] == OfWorker(w, CountRetry)
      ensures r.Ended? ==> queues.retry == past[counted].queues.retry + [Delayed(task, until)]
      ensures r.Ended? ==> retryLock.None? && nextRetry.Some? && nextRetry.value <= until
      ensures r.Ended? ==> until >= old(flags.now) + delay
    {
      counted, until := |trace|, 0;
      var ok := CountForRetry(w, task, delay);
      if !ok {
        return Panicking, counted, until;
      }
      until := QueueCounted(w, task, delay);
      r := Ended;
    }

    method QueueCounted(w: nat, task: Task, delay: nat) returns (ghost until: nat)
      requires Running() && At(w, RetryCounted(task, delay))
      modifies this, numTasks, retryQueue
      ensures NoAnswer(old(trace), w) && old(trace) <= trace && old(past) <= past
      ensures Running() && At(w, Delivered) && until >= old(flags.now) + delay
      ensures queues.retry == old(queues.retry) + [Delayed(task, until)]
      ensures retryLock.None? && nextRetry.Some? && nextRetry.value <= until
    {
      var time := PushLater(w, task, delay);
      until := time;
      PublishLater(w, time);
    }

    method PushLater(w: nat, task: Task, delay: nat) returns (until: nat)
      requires Running() && At(w, RetryCounted(task, delay))
      modifies this, numTasks, retryQueue
      ensures NoAnswer(old(trace), w) && old(trace) <= trace && old(past) <= past
      ensures Running() && At(w, RetryPushed(until)) && until >= old(flags.now) + delay
      ensures queues.retry == old(queues.retry) + [Delayed(task, until)]
    {
      Yield(AWorker(w));
      until := PushOntoRetry(w, task, delay);
    }

    method PublishLater(w: nat, until: nat)
      requires Running() && At(w, RetryPushed(until))
      modifies this, numTasks, retryQueue
      ensures NoAnswer(old(trace), w) && old(trace) <= trace && old(past) <= past
      ensures Running() && At(w, Delivered) && queues.retry == old(queues.retry)
      ensures retryLock.None? && nextRetry.Some? && nextRetry.value <= until
    {
      Yield(AWorker(w));
      PublishUntil(w, until);
    }

    /** The outcome is the latest on its channel, or it is stored because nobody can receive it. */
    predicate Handed(o: Outcome, tx: Option<nat>)
      reads this
    {
      HandedIn(outlet, o, tx)
    }

    /** `send_or_store_outcome`. */
    method SendOrStoreOutcome(w: nat, o: Outcome, tx: Option<nat>)
      requires Running() && At(w, Delivering(o, tx))
      modifies this`outlet, this`workers, this`trace, this`past
      ensures NoAnswer(old(trace), w)
      ensures Running() && At(w, Delivered) && Handed(o, tx)
      ensures outlet == Deliver(old(outlet), o, tx)
    {
      ghost var s := View();
      DeliverStepOf(s, w, o, tx);
      outlet := Deliver(outlet, o, tx);
      workers := workers[w := Delivered];
      Commit(s, OfWorker(w, DeliverOutcome));
    }

    /** The task is in the retry queue. */
    ghost predicate Awaits(task: Task, earliest: nat)
      reads this, retryQueue
    {
      exists until: nat :: earliest <= until && Delayed(task, until) in multiset(retryQueue.heap)
    }

    /** The hive allows more retries than this attempt number. */
    predicate RetriesLeft(attempt: nat) {
      cfg.maxRetries.Some? && attempt < cfg.maxRetries.value
    }

    /** The outcome handed over tells what the worker answered for the task. */
    ghost predicate HandedOver(answer: ApplyResult, task: Task)
      reads this
    {
      exists o :: Reports(o, answer, task.index) && Handed(o, task.tx)
    }

    /** `execute`, once `apply` has returned: the task goes back to the retry queue if its result asks
        for it and it has retries left; otherwise its outcome is sent or stored. */
    method Conclude(w: nat, task: Task, result: ApplyResult, patience: nat) returns (r: Executed)
      requires Running() && At(w, AfterApply(cfg, task, result).0)
      modifies this, numTasks, retryQueue
      ensures NoAnswer(old(trace), w)
      ensures Running()
      ensures r.Ended? ==> At(w, Delivered)
      ensures !(result.Retryable? && RetriesLeft(task.attempt)) ==>
                r.Ended? && HandedOver(result, task)
      ensures r.Ended? && result.Retryable? && RetriesLeft(task.attempt) ==>
                Backoff.Delay(cfg.retryFactor, task.attempt + 1).Some? &&
                Awaits(Task(result.retryInput, task.index, task.attempt + 1, task.tx),
                       old(flags.now) + Backoff.Delay(cfg.retryFactor, task.attempt + 1).value)
      ensures r.Panicking? ==> At(w, Unwinding(true))
      ensures r.Panicking? ==> Backoff.Delay(cfg.retryFactor, task.attempt + 1).None? || hist.overflowed
      ensures r.StillBlocked? ==> w < |workers| && workers[w].Requeueing? && retryLock.Some?
    {
      if result.Retryable? && CanRetry(cfg, task.attempt) {
        var delay := Backoff.Delay(cfg.retryFactor, task.attempt + 1);
        if delay.None? {
          return Panicking;
        }
        ghost var counted, until;
        var again := Task(result.retryInput, task.index, task.attempt + 1, task.tx);
        r, counted, until := QueueRetry(w, again, delay.value, patience);
        if r.Ended? {
          assert Delayed(again, until) in multiset(queues.retry);
        }
      } else {
        SendOrStoreOutcome(w, FromWorkerResult(result, task.index), task.tx);
        return Ended;
      }
    }

    /** `execute`, when `apply` gives this answer; no answer is a panic. */
    method Execute(w: nat, task: Task, answer: Option<ApplyResult>, patience: nat) returns (r: Executed)
      requires Running() && At(w, Executing(task))
      modifies this, numTasks, retryQueue
      ensures Running()
      ensures Heard(old(trace), w, [answer])
      ensures r.Ended? ==> answer.Some? && At(w, Delivered)
      ensures answer.Some? && !(answer.value.Retryable? && RetriesLeft(task.attempt)) ==>
                r.Ended? && HandedOver(answer.value, task)
      ensures r.Ended? && answer.value.Retryable? && RetriesLeft(task.attempt) ==>
                Backoff.Delay(cfg.retryFactor, task.attempt + 1).Some? &&
                Awaits(Task(answer.value.retryInput, task.index, task.attempt + 1, task.tx),
                       old(flags.now) + Backoff.Delay(cfg.retryFactor, task.attempt + 1).value)
      ensures r.Panicking? ==> At(w, Unwinding(true))
      ensures r.Panicking? && answer.Some? ==>
                Backoff.Delay(cfg.retryFactor, task.attempt + 1).None? || hist.overflowed
      ensures r.StillBlocked? ==> w < |workers| && workers[w].Requeueing? && retryLock.Some?
    {
      if answer.None? {
        ApplyPanicked(w, task);
        return Panicking;
      }
      ApplyReturned(w, task, answer.value);
      Yield(AWorker(w));
      r := Conclude(w, task, answer.value, patience);
    }

    // ----------------------------------------------------------------------------------------
    // finish_task
    // ----------------------------------------------------------------------------------------

    /** `num_tasks.decrement_right(1)`. */
    method DecrementActive() returns (ok: bool)
      requires numTasks.Valid()
      modifies numTasks
      ensures numTasks.Valid()
      ensures Cell(numTasks.bits, numTasks.word) ==
              old(Cell(numTasks.bits, numTasks.word)).After(DecrementRight(1))
      ensures ok == !old(Cell(numTasks.bits, numTasks.word)).Fails(DecrementRight(1))
    {
      var r := numTasks.DecrementRight(1);
      ok := r.Ok?;
    }

    lemma UncountedIsDisorder(w: nat)
      requires Valid() && w < |workers| && workers[w] == Unwinding(false)
      ensures !Reliable(View())
    {
      IsReachable();
      ReliableIffOrderly(View());
    }

    /** The decrement of `finish_task` after an execution. It fails, and the worker panics, only if
        the counter is not reliable. */
    method FinishDelivered(w: nat) returns (ok: bool)
      requires Running() && At(w, Delivered)
      modifies this`workers, this`trace, this`past, numTasks
      ensures NoAnswer(old(trace), w)
      ensures Running() && At(w, if ok then Notifying(Loop) else Unwinding(false))
      ensures !ok ==> !Reliable(View())
    {
      ghost var s := View();
      FinishStepOf(s, w, WorkerAction.FinishTask);
      ok := DecrementActive();
      workers := workers[w := if ok then Notifying(Loop) else Unwinding(false)];
      Commit(s, OfWorker(w, WorkerAction.FinishTask));
      if !ok {
        UncountedIsDisorder(w);
      }
    }

    /** In an orderly run a decrement fails exactly if nothing is active. */
    lemma ActiveDecides()
      requires Valid() && Reliable(View())
      ensures View().num.Fails(DecrementRight(1)) <==> Active(View()) == 0
      ensures Active(View()) >= 0
    {
      IsReachable();
      ReliableIffOrderly(View());
      Scenarios.DecrementFrom(View().num, CounterLaw.Totals(View()));
    }

    /** The same in the sentinel that a worker leaving its loop has cancelled. */
    method FinishExiting(w: nat) returns (ok: bool)
      requires Running() && At(w, Exiting)
      modifies this`workers, this`hist, this`trace, this`past, numTasks
      ensures NoAnswer(old(trace), w)
      ensures Running() && At(w, if ok then Notifying(Die) else Dead)
      ensures Cell(numTasks.bits, numTasks.word) ==
              old(Cell(numTasks.bits, numTasks.word)).After(DecrementRight(1))
      ensures old(Reliable(View())) ==> (ok <==> old(Active(View())) > 0)
    {
      if Reliable(View()) {
        ActiveDecides();
      }
      ok := CountExit(w);
    }

    method CountExit(w: nat) returns (ok: bool)
      requires Running() && At(w, Exiting)
      modifies this`workers, this`hist, this`trace, this`past, numTasks
      ensures NoAnswer(old(trace), w)
      ensures Running() && At(w, if ok then Notifying(Die) else Dead)
      ensures Cell(numTasks.bits, numTasks.word) ==
              old(Cell(numTasks.bits, numTasks.word)).After(DecrementRight(1))
      ensures ok == !old(View()).num.Fails(DecrementRight(1))
    {
      ghost var s := View();
      FinishStepOf(s, w, ExitFinish);
      ok := DecrementActive();
      workers := workers[w := if ok then Notifying(Die) else Dead];
      hist := hist.(unmatched := hist.unmatched + 1);
      Commit(s, OfWorker(w, ExitFinish));
    }

    /** And a panicking worker is still active. */
    lemma PanicIsCounted(w: nat)
      requires Running() && Reliable(View()) && w < |workers| && workers[w].Unwinding?
      ensures !View().num.Fails(DecrementRight(1))
    {
      IsReachable();
      PanicFits(View(), w);
    }

    /** The same in the sentinel of a panicking worker. A second panic aborts the process, which an
        orderly run never comes to. */
    method FinishPanicking(w: nat, ghost counted: bool) returns (ok: bool)
      requires Running() && At(w, Unwinding(counted))
      modifies this`flags, this`workers, this`subs, this`hist, this`trace, this`past, numTasks
      ensures subs == old(subs)
      ensures NoAnswer(old(trace), w)
      ensures Valid() && At(w, if ok then Notifying(Respawn) else Dead)
      ensures old(Reliable(View())) ==> ok
      ensures flags == if ok then old(flags).(numPanics := old(flags.numPanics) + 1) else old(flags).(aborted := true)
    {
      if Reliable(View()) {
        PanicIsCounted(w);
      }
      ok := CountPanic(w, counted);
    }

    method CountPanic(w: nat, ghost counted: bool) returns (ok: bool)
      requires Running() && At(w, Unwinding(counted))
      modifies this`flags, this`workers, this`subs, this`hist, this`trace, this`past, numTasks
      ensures subs == old(subs)
      ensures NoAnswer(old(trace), w)
      ensures Valid() && At(w, if ok then Notifying(Respawn) else Dead)
      ensures ok == !old(View()).num.Fails(DecrementRight(1))
      ensures flags == if ok then old(flags).(numPanics := old(flags.numPanics) + 1) else old(flags).(aborted := true)
    {
      ghost var s := View();
      ghost var t := SentinelStepOf(s, w, counted);
      ok := DecrementActive();
      flags := if ok then flags.(numPanics := flags.numPanics + 1) else flags.(aborted := true);
      Follow(s, OfWorker(w, SentinelFinish), t);
    }

    lemma ZeroMeansEnded()
      requires Valid() && Reliable(View()) && View().num.Read() == (0, 0)
      ensures Theorems.EverythingEnded(View())
    {
      IsReachable();
      ReliableIffOrderly(View());
      Theorems.JoinSeesEverythingEnded(View());
    }

    /** `num_tasks`. */
    method ReadTasks() returns (queued: nat, active: nat)
      requires Running()
      ensures View().num.Read() == (queued, active)
      ensures Reliable(View()) && queued == 0 && active == 0 ==> Theorems.EverythingEnded(View())
    {
      queued, active := numTasks.Get();
      if Reliable(View()) && queued == 0 && active == 0 {
        ZeroMeansEnded();
      }
    }

    /** `has_work`: three reads, with the other threads running in between. When it finds no work in a
        hive that is neither poisoned nor suspended and whose counter is reliable, then at the
        moment of the second read every index issued so far had ended. */
    method HasWork(ghost me: Me) returns (busy: bool, ghost moment: nat)
      requires Running()
      modifies this, numTasks, retryQueue
      ensures old(trace) <= trace && (me.AWorker? ==> NoAnswer(old(trace), me.w))
      ensures Running() && SamePlace(old(View()), View(), me)
      ensures |old(past)| <= moment + 1 <= |past|
      ensures old(flags.poisoned) ==> !busy
      ensures busy ==> WorkAt(past[moment], flags.suspended)
      ensures !busy ==> flags.poisoned || !WorkAt(past[moment], flags.suspended)
      ensures !busy && !flags.poisoned && !flags.suspended && Reliable(past[moment]) ==>
                Theorems.EverythingEnded(past[moment])
    {
      busy, moment := false, |past| - 1;
      if !flags.poisoned {
        Yield(me);
        busy, moment := TasksLeft(me);
      }
    }

    /** The second and third read. */
    method TasksLeft(ghost me: Me) returns (busy: bool, ghost moment: nat)
      requires Running()
      modifies this, numTasks, retryQueue
      ensures old(trace) <= trace && (me.AWorker? ==> NoAnswer(old(trace), me.w))
      ensures Running() && SamePlace(old(View()), View(), me)
      ensures moment == |old(past)| - 1 && old(past) <= past && busy == WorkAt(past[moment], flags.suspended)
      ensures !busy && !flags.suspended && Reliable(past[moment]) ==> Theorems.EverythingEnded(past[moment])
    {
      moment := |past| - 1;
      var queued, active := ReadTasks();
      if active > 0 {
        return true, moment;
      }
      Yield(me);
      busy := !flags.suspended && queued > 0;
    }

    /** `no_work_notify_all`, up to the call of `notify_all` that it decides on. */
    method NoWorkNotifyAll(w: nat, after: After) returns (notify: bool, ghost moment: nat)
      requires Running() && At(w, Notifying(after))
      modifies this, numTasks, retryQueue
      ensures NoAnswer(old(trace), w)
      ensures Running()
      ensures At(w, PcAfter(after))
      ensures |old(past)| <= moment + 1 < |past|
      ensures notify ==> flags.poisoned || !WorkAt(past[moment], flags.suspended)
      ensures !notify ==> WorkAt(past[moment], flags.suspended)
    {
      var busy;
      busy, moment := HasWork(AWorker(w));
      notify := !busy;
      ghost var s := View();
      NotifyStep(s, w, after);
      workers := workers[w := PcAfter(after)];
      Commit(s, OfWorker(w, NotifyDone));
    }

    /** The end of `finish_task`. */
    method FinishNotify(w: nat, after: After)
      requires Running() && At(w, Notifying(after))
      modifies this, numTasks, retryQueue
      ensures NoAnswer(old(trace), w)
      ensures Running() && At(w, PcAfter(after))
    {
      Yield(AWorker(w));
      var notify, _ := NoWorkNotifyAll(w, after);
    }

    /** The sentinel of a panicking worker spawns a new thread unless the hive is poisoned. */
    method RespawnWorker(w: nat, canSpawn: bool) returns (spawned: bool)
      requires Running() && At(w, Respawning)
      modifies this`workers, this`trace, this`past
      ensures NoAnswer(old(trace), w)
      ensures Running() && spawned == (canSpawn && !flags.poisoned) && At(w, if spawned then AtGate else Dead)
    {
      ghost var s := View();
      spawned := canSpawn && !flags.poisoned;
      SpawnStep(s, w, spawned);
      workers := workers[w := if spawned then AtGate else Dead];
      Commit(s, OfWorker(w, SentinelSpawn(spawned)));
    }

    /** `Sentinel::drop` in a panicking worker. */
    method DropSentinel(w: nat, ghost counted: bool, canSpawn: bool) returns (spawned: bool)
      requires Running() && At(w, Unwinding(counted))
      modifies this, numTasks, retryQueue
      ensures NoAnswer(old(trace), w)
      ensures Valid()
      ensures spawned ==> !flags.aborted && At(w, AtGate)
      ensures !spawned ==> Stopped(w, canSpawn)
    {
      spawned := false;
      var ok := FinishPanicking(w, counted);
      if ok {
        spawned := ReplaceWorker(w, canSpawn);
      }
    }

    method ReplaceWorker(w: nat, canSpawn: bool) returns (spawned: bool)
      requires Running() && At(w, Notifying(Respawn))
      modifies this, numTasks, retryQueue
      ensures NoAnswer(old(trace), w)
      ensures Running() && At(w, if spawned then AtGate else Dead)
      ensures spawned == (canSpawn && !flags.poisoned)
    {
      FinishNotify(w, Respawn);
      spawned := RespawnLater(w, canSpawn);
    }

    method RespawnLater(w: nat, canSpawn: bool) returns (spawned: bool)
      requires Running() && At(w, Respawning)
      modifies this, numTasks, retryQueue
      ensures NoAnswer(old(trace), w)
      ensures Running() && spawned == (canSpawn && !flags.poisoned) && At(w, if spawned then AtGate else Dead)
    {
      Yield(AWorker(w));
      spawned := RespawnWorker(w, canSpawn);
    }

    /** `sentinel.cancel()`: the sentinel is dropped all the same, and decrements. */
    method CancelSentinel(w: nat)
      requires Running() && At(w, Exiting)
      modifies this, numTasks, retryQueue
      ensures NoAnswer(old(trace), w)
      ensures Running() && At(w, Dead)
    {
      var ok := FinishExiting(w);
      assert NoAnswer(old(trace), w);
      if ok {
        FinishNotify(w, Die);
      }
    }

    // ----------------------------------------------------------------------------------------
    // The worker loop
    // ----------------------------------------------------------------------------------------

    /** The body of the `while let` loop after `next_task`: execute the task and finish it. */
    method RunTask(w: nat, task: Task, answer: Option<ApplyResult>, patience: nat) returns (r: Executed)
      requires Running() && At(w, Executing(task))
      modifies this, numTasks, retryQueue
      ensures Running()
      ensures Heard(old(trace), w, [answer])
      ensures match r
              case Ended => At(w, AtGate)
              case Panicking => w < |workers| && workers[w].Unwinding?
              case StillBlocked => w < |workers| && workers[w].Requeueing? && retryLock.Some?
    {
      r := Execute(w, task, answer, patience);
      if !r.Ended? {
        return r;
      }
      r := FinishExecuted(w);
    }

    method FinishExecuted(w: nat) returns (r: Executed)
      requires Running() && At(w, Delivered)
      modifies this, numTasks, retryQueue
      ensures Running() && NoAnswer(old(trace), w)
      ensures match r
              case Ended => At(w, AtGate)
              case Panicking => w < |workers| && workers[w].Unwinding?
              case StillBlocked => false
    {
      var ok := FinishLater(w);
      if !ok {
        return Panicking;
      }
      FinishNotify(w, Loop);
      return Ended;
    }

    method FinishLater(w: nat) returns (ok: bool)
      requires Running() && At(w, Delivered)
      modifies this, numTasks, retryQueue
      ensures Running() && NoAnswer(old(trace), w)
      ensures if ok then At(w, Notifying(Loop)) else w < |workers| && workers[w].Unwinding?
    {
      Yield(AWorker(w));
      ok := FinishDelivered(w);
    }

    /** The thread stops although it got a task: the process is aborted, or it panicked and is not
        replaced, because no thread can be spawned or the hive is poisoned; or it is blocked at the retry
        lock, which is taken. */
    ghost predicate Stopped(w: nat, canSpawn: bool)
      reads this
    {
      || flags.aborted
      || (At(w, Dead) && (!canSpawn || flags.poisoned))
      || (w < |workers| && workers[w].Requeueing? && retryLock.Some?)
    }

    /** One turn of the worker's thread: a task, executed with this answer and finished, or the way out.
        A panicking thread is replaced. */
    method RunTurn(w: nat, answer: Option<ApplyResult>, rounds: nat, patience: nat, late: nat -> bool, canSpawn: bool)
      returns (fetched: Fetched, goesOn: bool)
      requires Running() && At(w, AtGate)
      modifies this, numTasks, retryQueue
      ensures Valid() && (goesOn ==> fetched.Got? && !flags.aborted && At(w, AtGate))
      ensures Heard(old(trace), w, if fetched.Got? then [answer] else [])
      ensures fetched.Blocked? ==> GaveUp(old(trace), w, rounds, late)
      ensures fetched.Failed? ==> !flags.aborted && At(w, Dead)
      ensures fetched.Got? && !goesOn ==> Stopped(w, canSpawn)
    {
      fetched := NextTask(w, rounds, patience, late);
      if fetched.Blocked? {
        return fetched, false;
      }
      goesOn := FollowUp(w, fetched, answer, patience, canSpawn);
    }

    method FollowUp(w: nat, fetched: Fetched, answer: Option<ApplyResult>, patience: nat, canSpawn: bool)
      returns (goesOn: bool)
      requires Running() && !fetched.Blocked? && At(w, if fetched.Got? then Executing(fetched.task) else Exiting)
      modifies this, numTasks, retryQueue
      ensures Valid() && (goesOn ==> fetched.Got? && !flags.aborted && At(w, AtGate))
      ensures Heard(old(trace), w, if fetched.Got? then [answer] else [])
      ensures fetched.Failed? ==> !flags.aborted && At(w, Dead)
      ensures fetched.Got? && !goesOn ==> Stopped(w, canSpawn)
    {
      if fetched.Failed? {
        LeaveLoop(w);
        return false;
      }
      goesOn := RunGotten(w, fetched.task, answer, patience, canSpawn);
    }

    method LeaveLoop(w: nat)
      requires Running() && At(w, Exiting)
      modifies this, numTasks, retryQueue
      ensures NoAnswer(old(trace), w)
      ensures Running() && At(w, Dead)
    {
      Yield(AWorker(w));
      CancelSentinel(w);
    }

    method RunGotten(w: nat, task: Task, answer: Option<ApplyResult>, patience: nat, canSpawn: bool)
      returns (goesOn: bool)
      requires Running() && At(w, Executing(task))
      modifies this, numTasks, retryQueue
      ensures Valid() && (goesOn ==> !flags.aborted && At(w, AtGate))
      ensures Heard(old(trace), w, [answer])
      ensures !goesOn ==> Stopped(w, canSpawn)
    {
      Yield(AWorker(w));
      var r := RunTask(w, task, answer, patience);
      goesOn := r.Ended?;
      if r.Panicking? {
        goesOn := DropSentinel(w, workers[w].counted, canSpawn);
      }
    }

    /** A worker thread from its first look at the gate, for as many tasks as there are answers of
        `apply` to give it: it executes one task per answer used, in their order. It uses fewer only if
        a `next_task` failed, which is the end of it, or gave up, or a task stopped the thread. */
    method RunWorker(w: nat, answers: seq<Option<ApplyResult>>, rounds: nat, patience: nat, late: nat -> nat -> bool,
                     canSpawn: bool)
      returns (last: Fetched, done: nat)
      requires Running() && At(w, AtGate)
      modifies this, numTasks, retryQueue
      ensures Valid() && done <= |answers|
      ensures Heard(old(trace), w, answers[..done])
      ensures last.Failed? ==> !flags.aborted && At(w, Dead)
      ensures done < |answers| ==>
                match last
                case Failed(_) => true
                case Blocked => GaveUp(old(trace), w, rounds, late(done))
                case Got(_) => Stopped(w, canSpawn)
    {
      last, done := Blocked, 0;
      while done < |answers|
        invariant Running() && At(w, AtGate) && done <= |answers| && !last.Failed?
        invariant Heard(old(trace), w, answers[..done])
      {
        ghost var before := trace;
        var goesOn;
        last, goesOn := RunTurn(w, answers[done], rounds, patience, late(done), canSpawn);
        HeardMore(old(trace), before, w, answers, done, last.Got?);
        GaveUpSince(old(trace), before, w, rounds, late(done));
        if last.Got? {
          done := done + 1;
        }
        if !goesOn {
          return;
        }
        Yield(AWorker(w));
      }
    }

    lemma HeardMore(before: seq<Action>, later: seq<Action>, w: nat, answers: seq<Option<ApplyResult>>, done: nat,
                    got: bool)
      requires done < |answers| && before <= later && Answers(later, w) == Answers(before, w) + answers[..done]
      requires Heard(later, w, if got then [answers[done]] else [])
      ensures Heard(before, w, answers[..if got then done + 1 else done])
    {
      OneMore(Answers(before, w), answers, done);
    }

    lemma GaveUpSince(before: seq<Action>, later: seq<Action>, w: nat, rounds: nat, late: nat -> bool)
      requires before <= later <= trace
      ensures GaveUp(later, w, rounds, late) ==> GaveUp(before, w, rounds, late)
    {
      NothingInVain(start, before, later, w);
    }

    // ----------------------------------------------------------------------------------------
    // send_one, send_batch
    // ----------------------------------------------------------------------------------------

    ghost predicate AtCall(u: nat, sub: Submitter)
      reads this
    {
      u < |subs| && subs[u] == sub
    }

    ghost method BeginCall(u: nat, inputs: seq<Input>, tx: Option<nat>)
      requires Running() && u < |subs| && Idle(subs[u]) && !subs[u].mode.Broken? && flags.connected
      modifies this`subs, this`trace, this`past
      ensures old(past) <= past
      ensures Running() && AtCall(u, Submitter(tx, inputs, inputs, [], [], Undecided, []))
    {
      var s := View();
      subs := subs[u := Submitter(tx, inputs, inputs, [], [], Undecided, [])];
      Commit(s, OfSubmitter(u, Submit(tx, inputs)));
    }

    lemma FitsIff(n: nat)
      requires Valid() && Reliable(View())
      ensures View().num.Fails(Call.IncrementLeft(n)) <==> Queued(View()) + n > LMax(numTasks.bits)
    {
      IsReachable();
      ReliableIffOrderly(View());
      Theorems.IncrementFailsIffFull(View(), OfSubmitter(0, CountInputs(n, false)));
    }

    /** `num_tasks.increment_left(n)` for the whole input of the call. It panics, and the call ends
        without an index, exactly when the tasks counted would exceed the left half, if the counter is
        reliable. */
    method CountAll(u: nat, ghost inputs: seq<Input>, n: nat, ghost tx: Option<nat>) returns (ok: bool)
      requires Running() && AtCall(u, Submitter(tx, inputs, inputs, [], [], Undecided, []))
      requires n == |inputs|
      modifies this`subs, this`workers, this`hist, this`trace, this`past, numTasks
      ensures workers == old(workers) && old(past) <= past
      ensures Running()
      ensures AtCall(u, if ok then Submitter(tx, inputs, [], inputs, [], Undecided, [])
                        else Submitter(tx, inputs, [], [], [], Mode.Broken, []))
      ensures old(Reliable(View())) ==> (ok <==> old(Queued(View())) + n <= LMax(numTasks.bits))
      ensures !ok ==> hist.overflowed
    {
      ghost var s := View();
      if Reliable(s) {
        FitsIff(n);
      }
      CountStep(s, u, n);
      var r := numTasks.IncrementLeft(n);
      ok := r.Ok?;
      Follow(s, OfSubmitter(u, CountInputs(n, false)), Step(s, OfSubmitter(u, CountInputs(n, false))).value);
    }

    /** `next_task_index.add(n)`: the call gets n consecutive indices, issued to nobody else. */
    method TakeAllIndices(u: nat, ghost inputs: seq<Input>, n: nat, ghost tx: Option<nat>) returns (start: nat)
      requires Running() && AtCall(u, Submitter(tx, inputs, [], inputs, [], Undecided, [])) && n == |inputs|
      modifies this`nextTaskIndex, this`queues, this`subs, this`hist, this`trace, this`past
      ensures old(past) <= past
      ensures Running() && start == old(nextTaskIndex) && nextTaskIndex == start + n
      ensures hist.log == old(hist.log) + Issues(inputs, tx)
      ensures AtCall(u, Submitter(tx, inputs, [], [], NewTasks(start, inputs, tx), Undecided, IndicesFrom(start, n)))
    {
      ghost var s := View();
      IndicesStep(s, u);
      start := nextTaskIndex;
      nextTaskIndex := start + n;
      queues := queues.(next := nextTaskIndex);
      hist := hist.(log := hist.log + Issues(inputs, tx));
      subs := subs[u := Submitter(tx, inputs, [], [], NewTasks(start, inputs, tx), Undecided, IndicesFrom(start, n))];
      assert [] + NewTasks(start, inputs, tx) == NewTasks(start, inputs, tx);
      assert [] + IndicesFrom(start, n) == IndicesFrom(start, n);
      Commit(s, OfSubmitter(u, TakeIndices));
    }

    /** `is_poisoned`, which decides what happens to all tasks of the call. */
    method DecideCall(u: nat, ghost sub: Submitter) returns (poisoned: bool)
      requires Running() && AtCall(u, sub) && sub.mode.Undecided? && sub.counted == []
      modifies this`subs, this`trace, this`past
      ensures old(past) <= past
      ensures Running() && poisoned == flags.poisoned
      ensures AtCall(u, sub.(mode := if poisoned then Rejecting else Sending))
    {
      ghost var s := View();
      poisoned := flags.poisoned;
      subs := subs[u := sub.(mode := if poisoned then Rejecting else Sending)];
      Commit(s, OfSubmitter(u, Decide));
    }

    /** `task_tx.send(task)`. */
    method SendOneTask(u: nat, task: Task, ghost sub: Submitter)
      requires Running() && AtCall(u, sub) && sub.mode.Sending? && sub.ready != [] && sub.ready[0] == task
      modifies this`tasks, this`queues, this`subs, this`trace, this`past
      ensures old(past) <= past
      ensures Running() && AtCall(u, sub.(ready := sub.ready[1..]))
      ensures tasks == old(tasks) + [task]
    {
      ghost var s := View();
      SendStep(s, u);
      tasks := tasks + [task];
      queues, subs := queues.(channel := tasks), subs[u := sub.(ready := sub.ready[1..])];
      Commit(s, OfSubmitter(u, SendTask));
    }

    /** `into_unprocessed_try_send`, and the outcome is stored if that fails. */
    method RejectOneTask(u: nat, task: Task, ghost sub: Submitter)
      requires Running() && AtCall(u, sub) && sub.mode.Rejecting? && sub.ready != [] && sub.ready[0] == task
      modifies this`outlet, this`subs, this`hist, this`trace, this`past
      ensures old(past) <= past
      ensures Running() && AtCall(u, sub.(ready := sub.ready[1..]))
      ensures Handed(Unprocessed(task.input, task.index), task.tx)
      ensures hist.log == old(hist.log) && outlet.hungUp == old(outlet.hungUp)
    {
      ghost var s := View();
      RejectStep(s, u);
      outlet := Deliver(outlet, IntoUnprocessed(task), task.tx);
      subs, hist := subs[u := sub.(ready := sub.ready[1..])], hist.(drained := hist.drained + 1);
      Commit(s, OfSubmitter(u, RejectTask));
    }

    /** Sends or rejects the tasks of a call, in input order. */
    method ShipTasks(u: nat, batch: seq<Task>, poisoned: bool, ghost sub: Submitter)
      requires Running() && AtCall(u, sub) && sub.ready == batch
      requires sub.mode == if poisoned then Rejecting else Sending
      modifies this, numTasks, retryQueue
      ensures old(past) <= past
      ensures Running() && AtCall(u, sub.(ready := []))
    {
      var k := 0;
      while k < |batch|
        invariant k <= |batch| && old(past) <= past
        invariant Running() && AtCall(u, sub.(ready := batch[k..]))
      {
        ShipTask(u, batch[k], poisoned, sub.(ready := batch[k..]));
        k := k + 1;
      }
    }

    method ShipTask(u: nat, task: Task, poisoned: bool, ghost sub: Submitter)
      requires Running() && AtCall(u, sub) && sub.ready != [] && sub.ready[0] == task
      requires sub.mode == if poisoned then Rejecting else Sending
      modifies this, numTasks, retryQueue
      ensures old(past) <= past
      ensures Running() && AtCall(u, sub.(ready := sub.ready[1..]))
    {
      Yield(ASubmitter(u));
      if poisoned {
        RejectOneTask(u, task, sub);
      } else {
        SendOneTask(u, task, sub);
      }
    }

    /** The call is done: each of its tasks has been sent, or each rejected. */
    ghost predicate AllShipped(u: nat, sub: Submitter)
      reads this
    {
      AtCall(u, sub.(ready := [], mode := Sending)) || AtCall(u, sub.(ready := [], mode := Rejecting))
    }

    /** How a call of `send_batch` for these inputs has ended: it is done and has shipped them all with
        consecutive indices of its own, none below `low`, recorded for these inputs and this sender; or
        the count overflowed and it has none. */
    ghost predicate Answered(r: Option<seq<nat>>, u: nat, inputs: seq<Input>, tx: Option<nat>, low: nat)
      reads this
    {
      match r
      case Some(indices) =>
        && AllShipped(u, Submitter(tx, inputs, [], [], [], Undecided, indices))
        && exists start: nat ::
             low <= start && indices == IndicesFrom(start, |inputs|) && Issued(hist.log, start, inputs, tx)
      case None => AtCall(u, Submitter(tx, inputs, [], [], [], Mode.Broken, []))
    }

    /** `send_batch` for n inputs, and `send_one` for one: count them all, take consecutive indices,
        look once whether the hive is poisoned, then send or reject the tasks in order. The call
        returns its indices unless the count overflows; each was issued for its input and sender. */
    method SendBatch(u: nat, inputs: seq<Input>, tx: Option<nat>) returns (r: Option<seq<nat>>)
      requires Running() && u < |subs| && Idle(subs[u]) && !subs[u].mode.Broken? && flags.connected
      modifies this, numTasks, retryQueue
      ensures old(past) <= past
      ensures Running()
      ensures Answered(r, u, inputs, tx, old(|hist.log|))
    {
      var ok := BeginAndCount(u, inputs, tx);
      if !ok {
        return None;
      }
      Yield(ASubmitter(u));
      NothingIsTakenBack(old(past));
      var start := SendCounted(u, inputs, tx);
      return Some(IndicesFrom(start, |inputs|));
    }

    method BeginAndCount(u: nat, inputs: seq<Input>, tx: Option<nat>) returns (ok: bool)
      requires Running() && u < |subs| && Idle(subs[u]) && !subs[u].mode.Broken? && flags.connected
      modifies this, numTasks, retryQueue
      ensures Running() && old(past) <= past
      ensures AtCall(u, if ok then Submitter(tx, inputs, [], inputs, [], Undecided, [])
                        else Submitter(tx, inputs, [], [], [], Mode.Broken, []))
    {
      BeginCall(u, inputs, tx);
      Yield(ASubmitter(u));
      ok := CountAll(u, inputs, |inputs|, tx);
    }

    lemma LogLength()
      requires Valid()
      ensures |hist.log| == nextTaskIndex
    {
      IsReachable();
    }

    method IssueIndices(u: nat, ghost inputs: seq<Input>, n: nat, ghost tx: Option<nat>) returns (start: nat)
      requires Running() && AtCall(u, Submitter(tx, inputs, [], inputs, [], Undecided, [])) && n == |inputs|
      modifies this`nextTaskIndex, this`queues, this`subs, this`hist, this`trace, this`past
      ensures old(past) <= past
      ensures Running() && old(|hist.log|) <= start && Issued(hist.log, start, inputs, tx)
      ensures AtCall(u, Submitter(tx, inputs, [], [], NewTasks(start, inputs, tx), Undecided, IndicesFrom(start, n)))
    {
      LogLength();
      start := TakeAllIndices(u, inputs, n, tx);
    }

    method SendCounted(u: nat, inputs: seq<Input>, tx: Option<nat>) returns (start: nat)
      requires Running() && AtCall(u, Submitter(tx, inputs, [], inputs, [], Undecided, []))
      modifies this, numTasks, retryQueue
      ensures old(past) <= past
      ensures Running() && old(|hist.log|) <= start && Issued(hist.log, start, inputs, tx)
      ensures AllShipped(u, Submitter(tx, inputs, [], [], [], Undecided, IndicesFrom(start, |inputs|)))
    {
      start := IssueIndices(u, inputs, |inputs|, tx);
      SendIssued(u, start, inputs, tx, subs[u]);
    }

    method SendIssued(u: nat, start: nat, inputs: seq<Input>, tx: Option<nat>, ghost sub: Submitter)
      requires Running() && AtCall(u, sub) && Issued(hist.log, start, inputs, tx)
      requires sub == Submitter(tx, inputs, [], [], NewTasks(start, inputs, tx), Undecided, IndicesFrom(start, |inputs|))
      modifies this, numTasks, retryQueue
      ensures Running() && old(past) <= past && Issued(hist.log, start, inputs, tx)
      ensures AllShipped(u, sub)
    {
      SendPrepared(u, NewTasks(start, inputs, tx), sub);
      StillIssued(old(past), start, inputs, tx);
    }

    lemma StillIssued(before: seq<State>, start: nat, inputs: seq<Input>, tx: Option<nat>)
      requires Valid() && before <= past && before != []
      requires Issued(before[|before| - 1].hist.log, start, inputs, tx)
      ensures Issued(hist.log, start, inputs, tx)
    {
      NothingIsTakenBack(before);
      IssuedForever(before[|before| - 1].hist.log, hist.log, start, inputs, tx);
    }

    /** The rest of the call: one look at the flag, then all tasks. */
    method SendPrepared(u: nat, batch: seq<Task>, ghost sub: Submitter)
      requires Running() && AtCall(u, sub) && sub.mode.Undecided?
      requires sub.later == [] && sub.counted == [] && sub.ready == batch
      modifies this, numTasks, retryQueue
      ensures Running() && old(past) <= past
      ensures AllShipped(u, sub)
    {
      Yield(ASubmitter(u));
      var poisoned := DecideCall(u, sub);
      ShipTasks(u, batch, poisoned, sub.(mode := if poisoned then Rejecting else Sending));
    }

    /** `send_one`. */
    method SendOne(u: nat, input: Input, tx: Option<nat>) returns (r: Option<nat>)
      requires Running() && u < |subs| && Idle(subs[u]) && !subs[u].mode.Broken? && flags.connected
      modifies this, numTasks, retryQueue
      ensures Running()
      ensures r.None? ==> AtCall(u, Submitter(tx, [input], [], [], [], Mode.Broken, []))
      ensures r.Some? ==> old(|hist.log|) <= r.value < |hist.log| && hist.log[r.value] == Issue(input, tx)
      ensures r.Some? ==> AllShipped(u, Submitter(tx, [input], [], [], [], Undecided, [r.value]))
    {
      var batch := SendBatch(u, [input], tx);
      if batch.None? {
        return None;
      }
      OneIssued(hist.log, batch.value, input, tx, old(|hist.log|));
      return Some(batch.value[0]);
    }

    // ----------------------------------------------------------------------------------------
    // resume_store, resume_send
    // ----------------------------------------------------------------------------------------

    lemma StoreIsKeyed()
      requires Valid()
      ensures Keyed(outlet.store)
    {
      IsReachable();
    }

    /** The stored `Unprocessed` outcomes with their inputs, each once and in any order, and the rest
        of the store. */
    method SplitStore() returns (inputs: seq<Input>, rest: map<nat, Outcome>, ghost order: seq<nat>)
      requires Keyed(outlet.store)
      ensures Enumerates(order, Where(outlet.store, IsUnprocessed)) && InputsOf(outlet.store, order, inputs)
      ensures rest == outlet.store - Where(outlet.store, IsUnprocessed)
    {
      var locked := new OutcomeStore(outlet.store);
      var indices, taken := locked.RemoveAllOf(IsUnprocessed);
      rest, order := locked.outcomes, indices;
      inputs := ToInputs(outlet.store, indices, taken);
    }

    method ReplaceStore(rest: map<nat, Outcome>, ghost keys: set<nat>)
      requires Running() && rest == outlet.store - keys
      modifies this`outlet, this`hist, this`trace, this`past
      ensures |past| == |old(past)| + 1 && old(past) <= past
      ensures Running() && outlet == old(outlet).(store := rest)
      ensures hist.log == old(hist.log)
    {
      ghost var s := View();
      TakeStep(s, keys);
      outlet := outlet.(store := rest);
      hist := hist.(taken := hist.taken + multiset(s.outlet.store.Keys * keys));
      Commit(s, OfControl(TakeStored(keys)));
    }

    /** `take_unprocessed`. */
    method TakeUnprocessed() returns (inputs: seq<Input>, ghost order: seq<nat>)
      requires Running()
      modifies this`outlet, this`hist, this`trace, this`past
      ensures |past| == |old(past)| + 1 && old(past) <= past
      ensures Running() && hist.log == old(hist.log)
      ensures Enumerates(order, Where(old(outlet.store), IsUnprocessed)) && InputsOf(old(outlet.store), order, inputs)
      ensures outlet == old(outlet).(store := old(outlet.store) - Where(old(outlet.store), IsUnprocessed))
    {
      StoreIsKeyed();
      var rest;
      inputs, rest, order := SplitStore();
      ReplaceStore(rest, Where(outlet.store, IsUnprocessed));
    }

    /** At that moment the outcomes stored unprocessed left the store; these are their inputs. */
    ghost predicate Resubmitted(moment: nat, order: seq<nat>, inputs: seq<Input>)
      reads this
    {
      && moment + 1 < |past|
      && var store := past[moment].outlet.store;
      && Enumerates(order, Where(store, IsUnprocessed)) && InputsOf(store, order, inputs)
      && past[moment + 1].outlet.store == store - Where(store, IsUnprocessed)
    }

    /** The inputs of all stored `Unprocessed` outcomes are submitted again, each once. */
    method Resubmit(u: nat, tx: Option<nat>)
      returns (r: Option<seq<nat>>, ghost moment: nat, ghost order: seq<nat>, ghost inputs: seq<Input>)
      requires Running() && u < |subs| && Idle(subs[u]) && !subs[u].mode.Broken? && flags.connected
      modifies this, numTasks, retryQueue
      ensures Running() && old(past) <= past && |past| > |old(past)|
      ensures moment == |old(past)| - 1 && Resubmitted(moment, order, inputs)
      ensures Answered(r, u, inputs, tx, |past[moment].hist.log|)
    {
      moment := |past| - 1;
      var unprocessed;
      unprocessed, order := TakeUnprocessed();
      inputs := unprocessed;
      Yield(ASubmitter(u));
      r := SendBatch(u, unprocessed, tx);
    }

    /** `resume_store` and `resume_send`: clear the flag, and only if it was set, resubmit what is
        stored unprocessed by then: at the moment returned, when exactly those outcomes leave the
        store. The call returns their indices unless the count of their inputs overflows. */
    method ResumeAndSubmit(u: nat, tx: Option<nat>)
      returns (r: Option<seq<nat>>, ghost moment: nat, ghost order: seq<nat>, ghost inputs: seq<Input>)
      requires Running() && u < |subs| && Idle(subs[u]) && !subs[u].mode.Broken? && flags.connected
      modifies this, numTasks, retryQueue
      ensures Running() && old(past) <= past
      ensures !old(flags.suspended) ==> r == Some([]) && subs == old(subs) && outlet == old(outlet)
      ensures old(flags.suspended) ==>
                |old(past)| <= moment && Resubmitted(moment, order, inputs) &&
                Answered(r, u, inputs, tx, |past[moment].hist.log|)
    {
      moment, order, inputs := 0, [], [];
      var changed := SetSuspended(false);
      if !changed {
        return Some([]), moment, order, inputs;
      }
      Yield(ASubmitter(u));
      r, moment, order, inputs := Resubmit(u, tx);
    }

    // ----------------------------------------------------------------------------------------
    // set_suspended, poison, try_into_husk
    // ----------------------------------------------------------------------------------------

    /** `set_suspended`, up to the notification of the resume gate that its result asks for. */
    method SetSuspended(suspended: bool) returns (changed: bool)
      requires Running()
      modifies this`flags, this`trace, this`past
      ensures old(past) <= past
      ensures Running() && flags == old(flags).(suspended := suspended)
      ensures changed <==> old(flags.suspended) != suspended
      ensures trace == old(trace) + [OfControl(if suspended then Suspend else Resume)]
    {
      ghost var s := View();
      changed := flags.suspended != suspended;
      flags := flags.(suspended := suspended);
      Commit(s, OfControl(if suspended then Suspend else Resume));
    }

    /** `into_unprocessed_try_send` for the task a drain has in hand. */
    method DrainDeliverTask(task: Task)
      requires Running() && InHand(drainer) == Some(task)
      modifies this`outlet, this`drainer, this`hist, this`trace, this`past
      ensures old(past) <= past && old(trace) <= trace
      ensures Running() && drainer == old(drainer).(hand := None) && hist == old(hist).(drained := hist.drained)
      ensures Handed(Unprocessed(task.input, task.index), task.tx) && outlet.hungUp == old(outlet.hungUp)
    {
      ghost var s := View();
      DrainDeliverStep(s, task);
      DeliverHands(outlet, IntoUnprocessed(task), task.tx);
      outlet := Deliver(outlet, IntoUnprocessed(task), task.tx);
      drainer, hist := drainer.(hand := None), hist.(drained := hist.drained + 1);
      Commit(s, OfControl(DrainDeliver));
    }

    /** One item of `task_rx.try_iter()`. */
    method DrainReceiveTask() returns (task: Task)
      requires Running() && drainer == DrainingChannel(None) && tasks != []
      modifies this`tasks, this`queues, this`drainer, this`trace, this`past
      ensures old(past) <= past && DrainedSince(old(trace), 1)
      ensures Running() && drainer == DrainingChannel(Some(task)) && old(tasks) == [task] + tasks
    {
      ghost var s := View();
      task := tasks[0];
      DrainReceiveStep(s, task);
      tasks := tasks[1..];
      queues, drainer := queues.(channel := tasks), DrainingChannel(Some(task));
      Commit(s, OfControl(DrainReceive));
    }

    /** `task_rx.try_iter()` ends. */
    method DrainFindsEmpty()
      requires Running() && drainer == DrainingChannel(None) && tasks == []
      modifies this`drainer, this`trace, this`past
      ensures old(past) <= past
      ensures Running() && drainer == LockingRetryQueue
    {
      ghost var s := View();
      DrainEmptyStep(s);
      drainer := LockingRetryQueue;
      Commit(s, OfControl(DrainChannelEmpty));
    }

    method DrainTakesLock()
      requires Running() && drainer == LockingRetryQueue && retryLock.None?
      modifies this`retryLock, this`queues, this`drainer, this`trace, this`past
      ensures old(past) <= past
      ensures Running() && drainer == DrainingRetry(None)
    {
      ghost var s := View();
      DrainLockStep(s);
      retryLock := Some(DrainOwner);
      queues, drainer := queues.(owner := retryLock), DrainingRetry(None);
      Commit(s, OfControl(DrainLock));
    }

    /** One item of `retry_queue.drain()`. */
    method DrainPopTask() returns (task: Task)
      requires Running() && drainer == DrainingRetry(None) && retryQueue.heap != []
      modifies this`queues, this`drainer, this`trace, this`past, retryQueue
      ensures old(past) <= past
      ensures Running() && drainer == DrainingRetry(Some(task))
      ensures |queues.retry| + 1 == old(|queues.retry|)
    {
      ghost var events := retryQueue.events;
      var next := retryQueue.DrainNext();
      task := next.value;
      LastIsLegal(events, retryQueue.Last());
      ghost var k := PositionOf(queues.retry, retryQueue.Last().item);
      DrainPopStep(View(), k);
      TakeFromRetry(task, WithoutAt(queues.retry, k), OfControl(DrainPop(k)));
    }

    ghost method TakeFromRetry(task: Task, rest: seq<Delayed>, a: Action)
      requires numTasks.Valid() && retryQueue.Valid() && outcomesLocked && drainer == DrainingRetry(None)
      requires queues == Queues(nextTaskIndex, tasks, queues.retry, retryLock, nextRetry)
      requires multiset(retryQueue.heap) == multiset(rest)
      requires Recorded(View()) && !flags.aborted && !Progress.Applies(a)
      requires Step(View(), a) == Some(
                 View().(queues := queues.(retry := rest), drainer := DrainingRetry(Some(task))))
      modifies this`queues, this`drainer, this`trace, this`past
      ensures old(past) <= past
      ensures Running() && drainer == DrainingRetry(Some(task)) && queues.retry == rest
    {
      var s := View();
      queues, drainer := queues.(retry := rest), DrainingRetry(Some(task));
      Commit(s, a);
    }

    /** The retry queue is empty: release both locks. */
    method DrainEnd()
      requires Running() && drainer == DrainingRetry(None) && retryQueue.heap == []
      modifies this`retryLock, this`queues, this`outcomesLocked, this`drainer, this`trace, this`past
      ensures old(past) <= past
      ensures Running() && drainer == Resting && queues.retry == [] && retryLock.None? && !outcomesLocked
    {
      ghost var s := View();
      NothingToDrain(queues.retry, retryQueue.heap);
      DrainEndStep(s);
      retryLock, outcomesLocked := None, false;
      queues, drainer := queues.(owner := None), Resting;
      Commit(s, OfControl(DrainRetryEmpty));
    }

    /** A drain that has not finished has received as many tasks as it was given and there are more; or it
        is at the retry lock, which is taken. */
    ghost predicate StillDraining(before: seq<Action>, patience: nat)
      reads this
    {
      || (drainer == DrainingChannel(None) && tasks != [] && DrainedSince(before, patience))
      || (drainer == LockingRetryQueue && retryLock.Some?)
    }

    /** Since then the drain has received at least n tasks. */
    ghost predicate DrainedSince(before: seq<Action>, n: nat)
      reads this
    {
      before <= trace &&
      multiset(trace)[OfControl(DrainReceive)] >= multiset(before)[OfControl(DrainReceive)] + n
    }

    lemma DrainedMore(before: seq<Action>, later: seq<Action>, n: nat, m: nat)
      requires before <= later && DrainedSince(later, m)
      requires multiset(later)[OfControl(DrainReceive)] >= multiset(before)[OfControl(DrainReceive)] + n
      ensures DrainedSince(before, n + m)
    {
    }

    lemma StillDrainingSince(before: seq<Action>, later: seq<Action>, patience: nat)
      requires before <= later
      ensures StillDraining(later, patience) ==> StillDraining(before, patience)
    {
      assert later == before + later[|before|..];
    }

    lemma NothingDrained(before: seq<Action>)
      requires before <= trace
      ensures DrainedSince(before, 0)
    {
      assert trace == before + trace[|before|..];
    }

    /** `poison`: sets the flag and drains. It has drained when it found the channel empty, at moment
        `empty`, and then emptied the retry queue. It may find new tasks again and again and may have
        to wait for the retry lock; with too little patience it is still under way. */
    method Poison(patience: nat) returns (drained: bool, ghost empty: nat)
      requires Running() && !outcomesLocked
      modifies this, numTasks, retryQueue
      ensures Running() && flags.poisoned
      ensures drained ==> |old(past)| < empty < |past| && past[empty].queues.channel == []
      ensures drained ==> drainer == Resting && queues.retry == []
      ensures !drained ==> StillDraining(old(trace), patience)
    {
      SetPoisoned();
      ghost var poisoned := past;
      ghost var before := trace;
      drained, empty := DrainLater(patience);
      StillDrainingSince(old(trace), before, patience);
      NothingIsTakenBack(poisoned);
    }

    method DrainLater(patience: nat) returns (drained: bool, ghost empty: nat)
      requires Running() && drainer == DrainingChannel(None)
      modifies this, numTasks, retryQueue
      ensures Running() && old(past) <= past
      ensures drained ==> |old(past)| <= empty < |past| && past[empty].queues.channel == []
      ensures drained ==> drainer == Resting && queues.retry == []
      ensures !drained ==> StillDraining(old(trace), patience)
    {
      Yield(ADrain);
      ghost var before := trace;
      drained, empty := DrainQueues(patience);
      StillDrainingSince(old(trace), before, patience);
    }

    /** `drain_tasks_into_unprocessed`. */
    method DrainQueues(patience: nat) returns (drained: bool, ghost empty: nat)
      requires Running() && drainer == DrainingChannel(None)
      modifies this, numTasks, retryQueue
      ensures Running() && old(past) <= past
      ensures drained ==> |old(past)| <= empty < |past| && past[empty].queues.channel == []
      ensures drained ==> drainer == Resting && queues.retry == []
      ensures !drained ==> StillDraining(old(trace), patience)
    {
      drained := DrainChannel(patience);
      empty := |past| - 1;
      if !drained {
        return;
      }
      drained := DrainRest(patience);
    }

    method DrainRest(patience: nat) returns (drained: bool)
      requires Running() && drainer == LockingRetryQueue
      modifies this, numTasks, retryQueue
      ensures Running() && old(past) <= past
      ensures if drained then drainer == Resting && queues.retry == []
              else drainer == LockingRetryQueue && retryLock.Some?
    {
      Yield(ADrain);
      drained := AwaitRetryLock(ADrain, patience);
      if drained {
        DrainTakesLock();
        DrainRetryQueue();
      }
    }

    method SetPoisoned()
      requires Running() && !outcomesLocked
      modifies this`flags, this`outcomesLocked, this`drainer, this`hist, this`trace, this`past
      ensures old(past) <= past && |past| == |old(past)| + 1 && old(trace) <= trace
      ensures Running() && flags == old(flags).(poisoned := true) && drainer == DrainingChannel(None)
    {
      ghost var s := View();
      flags, outcomesLocked := flags.(poisoned := true), true;
      drainer, hist := DrainingChannel(None), hist.(everDrained := true);
      Commit(s, OfControl(ControlAction.Poison));
    }

    /** `send_or_store(task_rx.try_iter(), ..)`, for at most `patience` tasks. */
    method DrainChannel(patience: nat) returns (done: bool)
      requires Running() && drainer == DrainingChannel(None)
      modifies this, numTasks, retryQueue
      ensures Running()
      ensures old(past) <= past && (done ==> |old(past)| < |past| && past[|past| - 1].queues.channel == [])
      ensures drainer == if done then LockingRetryQueue else DrainingChannel(None)
      ensures !done ==> tasks != [] && DrainedSince(old(trace), patience)
    {
      DrainItems(patience);
      done := tasks == [];
      if done {
        DrainFindsEmpty();
      }
    }

    method DrainItems(patience: nat)
      requires Running() && drainer == DrainingChannel(None)
      modifies this, numTasks, retryQueue
      ensures Running() && drainer == DrainingChannel(None)
      ensures old(past) <= past && (tasks == [] || DrainedSince(old(trace), patience))
    {
      var done := 0;
      while tasks != [] && done < patience
        invariant old(past) <= past && done <= patience && DrainedSince(old(trace), done)
        invariant Running() && drainer == DrainingChannel(None)
        decreases patience - done
      {
        ghost var before := trace;
        DrainOneTask();
        DrainedMore(old(trace), before, done, 1);
        done := done + 1;
      }
    }

    /** One task, and the other threads run. */
    method DrainOneTask()
      requires Running() && drainer == DrainingChannel(None) && tasks != []
      modifies this, numTasks, retryQueue
      ensures old(past) <= past && DrainedSince(old(trace), 1)
      ensures Running() && drainer == DrainingChannel(None)
    {
      var task := DrainReceiveTask();
      ghost var before := trace;
      DeliverLater(task);
      NothingDrained(before);
      DrainedMore(old(trace), before, 1, 0);
    }

    method DeliverLater(task: Task)
      requires Running() && drainer == DrainingChannel(Some(task))
      modifies this, numTasks, retryQueue
      ensures old(past) <= past && old(trace) <= trace
      ensures Running() && drainer == DrainingChannel(None)
    {
      Yield(ADrain);
      DrainDeliverTask(task);
      Yield(ADrain);
    }

    /** `send_or_store(retry_queue.drain(), ..)`: with the lock held nothing is added meanwhile. */
    method DrainRetryQueue()
      requires Running() && drainer == DrainingRetry(None)
      modifies this, numTasks, retryQueue
      ensures old(past) <= past
      ensures Running()
      ensures drainer == Resting && queues.retry == []
    {
      DrainRetryItems();
      DrainEnd();
    }

    method DrainRetryItems()
      requires Running() && drainer == DrainingRetry(None)
      modifies this, numTasks, retryQueue
      ensures old(past) <= past
      ensures Running()
      ensures drainer == DrainingRetry(None) && retryQueue.heap == []
    {
      while retryQueue.heap != []
        invariant old(past) <= past
        invariant Running() && drainer == DrainingRetry(None)
        decreases |queues.retry|
      {
        DrainOneRetry();
        Yield(ADrain);
      }
    }

    method DrainOneRetry()
      requires Running() && drainer == DrainingRetry(None) && retryQueue.heap != []
      modifies this, numTasks, retryQueue
      ensures old(past) <= past
      ensures Running() && drainer == DrainingRetry(None)
      ensures |queues.retry| < old(|queues.retry|)
    {
      var task := DrainPopTask();
      Yield(ADrain);
      DrainDeliverTask(task);
    }

    /** `try_into_husk`, when all threads are gone: it drains both queues without interruption, and
        every index ever issued has ended, its outcome with its sender or in the husk. */
    method TryIntoHusk()
      requires Running() && NoThreads(View()) && !outcomesLocked
      modifies this, retryQueue
      ensures Running() && tasks == [] && queues.retry == []
      ensures nextTaskIndex == old(nextTaskIndex) && hist.log == old(hist.log)
      ensures forall i: nat :: i < nextTaskIndex ==> Kept(View(), i)
    {
      StartDrain();
      HuskQueues();
      EverythingKept();
    }

    method HuskQueues()
      requires Running() && NoThreads(View()) && drainer == DrainingChannel(None)
      modifies this`tasks, this`retryLock, this`outcomesLocked, this`queues, this`outlet, this`drainer, this`hist
      modifies this`trace, this`past, retryQueue
      ensures Running() && drainer == Resting && tasks == [] && queues.retry == []
      ensures hist.log == old(hist.log)
    {
      HuskChannel();
      HuskLocksRetry();
      HuskRetryQueue();
      DrainEnd();
    }

    method HuskLocksRetry()
      requires Running() && NoThreads(View()) && drainer == DrainingChannel(None) && tasks == []
      modifies this`retryLock, this`queues, this`drainer, this`trace, this`past
      ensures Running() && drainer == DrainingRetry(None)
    {
      DrainFindsEmpty();
      NobodyHoldsRetryLock();
      DrainTakesLock();
    }

    method HuskChannel()
      requires Running() && drainer == DrainingChannel(None)
      modifies this`tasks, this`queues, this`outlet, this`drainer, this`hist, this`trace, this`past
      ensures Running() && drainer == DrainingChannel(None) && tasks == []
      ensures hist.log == old(hist.log)
    {
      while tasks != []
        invariant Running() && drainer == DrainingChannel(None)
        invariant hist.log == old(hist.log)
        decreases |tasks|
      {
        var task := DrainReceiveTask();
        DrainDeliverTask(task);
      }
    }

    method HuskRetryQueue()
      requires Running() && drainer == DrainingRetry(None)
      modifies this`queues, this`outlet, this`drainer, this`hist, this`trace, this`past, retryQueue
      ensures Running() && drainer == DrainingRetry(None) && retryQueue.heap == []
      ensures hist.log == old(hist.log)
    {
      while retryQueue.heap != []
        invariant Running() && drainer == DrainingRetry(None)
        invariant hist.log == old(hist.log)
        decreases |queues.retry|
      {
        var task := DrainPopTask();
        DrainDeliverTask(task);
      }
    }

    method StartDrain()
      requires Running() && NoThreads(View()) && !outcomesLocked
      modifies this`outcomesLocked, this`drainer, this`hist, this`trace, this`past
      ensures Running() && drainer == DrainingChannel(None)
      ensures hist == old(hist).(everDrained := true)
    {
      ghost var s := View();
      outcomesLocked, drainer, hist := true, DrainingChannel(None), hist.(everDrained := true);
      Commit(s, OfControl(StartHusk));
    }

    lemma NobodyHoldsRetryLock()
      requires Running() && NoThreads(View()) && !drainer.DrainingRetry?
      ensures retryLock.None?
    {
      IsReachable();
      RetryLockIsFree(View());
    }

    lemma EverythingKept()
      requires Running() && NoThreads(View()) && drainer == Resting && tasks == [] && queues.retry == []
      ensures forall i: nat :: i < nextTaskIndex ==> Kept(View(), i)
    {
      IsReachable();
      forall i: nat | i < nextTaskIndex
        ensures Kept(View(), i)
      {
        Theorems.DrainedHiveKeepsEverything(View(), i);
      }
    }
  }
}
