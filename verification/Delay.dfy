/** The delay queue (src/hive/delay.rs): a binary heap ordered by the time at which each task becomes
    available. The source's queue is generic; here it holds tasks, as `retry_queue` does. */
module Delay {
  import opened Wrappers
  import opened Tasks
  import opened Protocol

  // ------------------------------------------------------------------------------------------
  // The queue as a bag
  // ------------------------------------------------------------------------------------------

  /** What a call did: `push`, a `try_pop` that returned a task, one that returned nothing, or one step of
      the iterator that `drain` returns. */
  datatype Event =
    | Put(item: Delayed)
    | Took(item: Delayed, now: nat)
    | NothingDue(now: nat)
    | Drained(item: Delayed)

  /** Whether a bag of waiting items allows the event. */
  ghost predicate Legal(bag: multiset<Delayed>, e: Event) {
    match e
    case Put(_) => true
    case Took(item, now) => item in bag && item.until <= now && forall d :: d in bag ==> item.until <= d.until
    case NothingDue(now) => forall d :: d in bag ==> now < d.until
    case Drained(item) => item in bag
  }

  function BagAfter(bag: multiset<Delayed>, e: Event): multiset<Delayed> {
    match e
    case Put(item) => bag + multiset{item}
    case Took(item, _) => bag - multiset{item}
    case NothingDue(_) => bag
    case Drained(item) => bag - multiset{item}
  }

  /** The bag after a sequence of events. */
  function Bag(events: seq<Event>): multiset<Delayed> {
    if events == [] then multiset{} else BagAfter(Bag(events[..|events| - 1]), events[|events| - 1])
  }

  ghost predicate LegalRun(events: seq<Event>) {
    forall k :: 0 <= k < |events| ==> Legal(Bag(events[..k]), events[k])
  }

  function PushedItems(events: seq<Event>): multiset<Delayed> {
    if events == [] then multiset{}
    else
      var e := events[|events| - 1];
      PushedItems(events[..|events| - 1]) + if e.Put? then multiset{e.item} else multiset{}
  }

  /** What `try_pop` and `drain` have handed out. */
  function RemovedItems(events: seq<Event>): multiset<Delayed> {
    if events == [] then multiset{}
    else
      var e := events[|events| - 1];
      RemovedItems(events[..|events| - 1]) + if e.Took? || e.Drained? then multiset{e.item} else multiset{}
  }

  lemma LegalPrefix(events: seq<Event>, n: nat)
    requires LegalRun(events) && n <= |events|
    ensures LegalRun(events[..n])
  {
    forall k | 0 <= k < n
      ensures Legal(Bag(events[..n][..k]), events[..n][k])
    {
      assert events[..n][..k] == events[..k];
    }
  }

  /** Nothing is lost and nothing is made up: what was pushed is what was handed out and what waits. */
  lemma {:induction false} BagIsPushedMinusRemoved(events: seq<Event>)
    requires LegalRun(events)
    ensures PushedItems(events) == RemovedItems(events) + Bag(events)
  {
    if events != [] {
      var n := |events| - 1;
      LegalPrefix(events, n);
      BagIsPushedMinusRemoved(events[..n]);
      assert Legal(Bag(events[..n]), events[n]);
    }
  }

  lemma LastIsLegal(events: seq<Event>, e: Event)
    requires LegalRun(events + [e])
    ensures Legal(Bag(events), e) && Bag(events + [e]) == BagAfter(Bag(events), e)
  {
    assert (events + [e])[..|events|] == events;
    assert (events + [e])[|events|] == e;
  }

  /** An item that waits after event k and was not pushed after event j was waiting after event j. */
  lemma {:induction false} WaitedAllAlong(events: seq<Event>, j: nat, k: nat, d: Delayed)
    requires j <= k <= |events| && d in Bag(events[..k])
    requires forall m :: j <= m < k ==> events[m] != Put(d)
    ensures d in Bag(events[..j])
    decreases k
  {
    if j < k {
      assert events[..k][..k - 1] == events[..k - 1];
      assert d in Bag(events[..k - 1]);
      WaitedAllAlong(events, j, k - 1, d);
    }
  }

  /** Tasks come out when they are due, earliest first: of two pops, the later one returns an
      earlier time only if its item was pushed between them. */
  lemma PopsComeInOrder(events: seq<Event>, j: nat, k: nat)
    requires LegalRun(events) && j < k < |events| && events[j].Took? && events[k].Took?
    ensures events[k].item.until <= events[k].now
    ensures events[j].item.until <= events[k].item.until || exists m :: j < m < k && events[m] == Put(events[k].item)
  {
    assert Legal(Bag(events[..j]), events[j]) && Legal(Bag(events[..k]), events[k]);
    if forall m :: j < m < k ==> events[m] != Put(events[k].item) {
      WaitedAllAlong(events, j, k, events[k].item);
    }
  }

  // ------------------------------------------------------------------------------------------
  // The heap
  // ------------------------------------------------------------------------------------------

  /** The reversed `Ord`: earlier is greater. */
  predicate AtLeast(a: Delayed, b: Delayed) {
    a.until <= b.until
  }

  function Parent(i: nat): (p: nat)
    requires i > 0
    ensures p < i
  {
    (i - 1) / 2
  }

  /** No item is greater than its parent. */
  ghost predicate Heap(h: seq<Delayed>) {
    forall i :: 0 < i < |h| ==> AtLeast(h[Parent(i)], h[i])
  }

  /** A heap but for the pair of item p and its parent. */
  ghost predicate HeapButAbove(h: seq<Delayed>, p: nat) {
    && (forall i :: 0 < i < |h| && i != p ==> AtLeast(h[Parent(i)], h[i]))
    && (forall i :: 0 < i < |h| && Parent(i) == p && p > 0 ==> AtLeast(h[Parent(p)], h[i]))
  }

  /** A heap but for the pairs of item p and its children. */
  ghost predicate HeapButBelow(h: seq<Delayed>, p: nat) {
    && (forall i :: 0 < i < |h| && Parent(i) != p ==> AtLeast(h[Parent(i)], h[i]))
    && (forall i :: 0 < i < |h| && Parent(i) == p && p > 0 ==> AtLeast(h[Parent(p)], h[i]))
  }

  lemma {:induction false} RootIsGreatest(h: seq<Delayed>, i: nat)
    requires Heap(h) && i < |h|
    ensures h[0].until <= h[i].until
  {
    if i > 0 {
      RootIsGreatest(h, Parent(i));
    }
  }

  lemma RootIsEarliest(h: seq<Delayed>)
    requires Heap(h) && h != []
    ensures h[0] in h && forall d :: d in multiset(h) ==> h[0].until <= d.until
  {
    forall d | d in multiset(h)
      ensures h[0].until <= d.until
    {
      var i :| 0 <= i < |h| && h[i] == d;
      RootIsGreatest(h, i);
    }
  }

  function Swapped(h: seq<Delayed>, i: nat, j: nat): (r: seq<Delayed>)
    requires i < |h| && j < |h|
    ensures |r| == |h| && multiset(r) == multiset(h)
    ensures forall k :: 0 <= k < |h| ==> r[k] == if k == i then h[j] else if k == j then h[i] else h[k]
  {
    h[i := h[j]][j := h[i]]
  }

  lemma SwapUp(h: seq<Delayed>, p: nat)
    requires HeapButAbove(h, p) && 0 < p < |h| && !AtLeast(h[Parent(p)], h[p])
    ensures HeapButAbove(Swapped(h, p, Parent(p)), Parent(p))
  {
  }

  lemma SwapDown(h: seq<Delayed>, p: nat, c: nat)
    requires HeapButBelow(h, p) && 0 < c < |h| && Parent(c) == p && !AtLeast(h[p], h[c])
    requires forall i :: 0 < i < |h| && Parent(i) == p ==> AtLeast(h[c], h[i])
    ensures HeapButBelow(Swapped(h, p, c), c)
  {
  }

  /** The greater child of p. */
  function GreaterChild(h: seq<Delayed>, p: nat): (c: nat)
    requires 2 * p + 1 < |h|
    ensures 0 < c < |h| && Parent(c) == p
    ensures forall i :: 0 < i < |h| && Parent(i) == p ==> AtLeast(h[c], h[i])
  {
    var l := 2 * p + 1;
    assert forall i :: i > 0 && Parent(i) == p ==> i == l || i == l + 1;
    if l + 1 < |h| && !AtLeast(h[l], h[l + 1]) then l + 1 else l
  }

  lemma HeadIsEarliest(retry: seq<Delayed>, h: seq<Delayed>)
    requires multiset(retry) == multiset(h) && Heap(h) && h != []
    ensures retry != [] && Earliest(retry) == Some(h[0].until)
  {
    assert h[0] in multiset(h);
    EarliestIsLeast(retry);
    var d :| d in retry && d.until == Earliest(retry).value;
    RootIsEarliest(h);
    assert d in multiset(retry);
  }

  class DelayQueue {
    var heap: seq<Delayed>
    ghost var events: seq<Event>

    /** The heap holds the bag of a legal sequence of events. */
    ghost predicate Valid()
      reads this
    {
      Heap(heap) && LegalRun(events) && Bag(events) == multiset(heap)
    }

    /** The latest event. */
    ghost function Last(): Event
      reads this
    {
      if events == [] then NothingDue(0) else events[|events| - 1]
    }

    constructor ()
      ensures Valid() && events == []
    {
      heap, events := [], [];
    }

    ghost method Record(e: Event, before: multiset<Delayed>)
      requires LegalRun(events) && Bag(events) == before && Legal(before, e)
      modifies this`events
      ensures events == old(events) + [e] && LegalRun(events) && Bag(events) == BagAfter(before, e)
    {
      var es := events;
      events := es + [e];
      forall k | 0 <= k < |events|
        ensures Legal(Bag(events[..k]), events[k])
      {
        assert events[..k] == es[..k];
        assert es[..|es|] == es;
      }
      assert events[..|es|] == es;
    }

    method SiftUp(start: nat)
      requires start < |heap| && HeapButAbove(heap, start)
      modifies this`heap
      ensures Heap(heap) && multiset(heap) == multiset(old(heap))
    {
      var pos: nat := start;
      while pos > 0 && !AtLeast(heap[Parent(pos)], heap[pos])
        invariant pos < |heap| && HeapButAbove(heap, pos)
        invariant multiset(heap) == multiset(old(heap))
      {
        SwapUp(heap, pos);
        heap := Swapped(heap, pos, Parent(pos));
        pos := Parent(pos);
      }
    }

    method SiftDown()
      requires HeapButBelow(heap, 0)
      modifies this`heap
      ensures Heap(heap) && multiset(heap) == multiset(old(heap))
    {
      var pos: nat := 0;
      while 2 * pos + 1 < |heap| && !AtLeast(heap[pos], heap[GreaterChild(heap, pos)])
        invariant HeapButBelow(heap, pos)
        invariant multiset(heap) == multiset(old(heap))
        decreases |heap| - pos
      {
        var child := GreaterChild(heap, pos);
        SwapDown(heap, pos, child);
        heap := Swapped(heap, pos, child);
        pos := child;
      }
    }

    /** `push`: returns the time at which the task will be available. */
    method Push(task: Task, delay: nat, now: nat) returns (until: nat)
      requires Valid()
      modifies this
      ensures Valid() && until == now + delay
      ensures events == old(events) + [Put(Delayed(task, until))]
      ensures multiset(heap) == multiset(old(heap)) + multiset{Delayed(task, until)}
    {
      until := now + delay;
      heap := heap + [Delayed(task, until)];
      SiftUp(|heap| - 1);
      Record(Put(Delayed(task, until)), multiset(old(heap)));
    }

    /** `next_available`. */
    method NextAvailable() returns (t: Option<nat>)
      requires Valid()
      ensures t == if heap == [] then None else Some(heap[0].until)
      ensures t.Some? ==> (exists d :: d in heap && d.until == t.value) && forall d :: d in heap ==> t.value <= d.until
    {
      if heap == [] {
        return None;
      }
      RootIsEarliest(heap);
      return Some(heap[0].until);
    }

    /** `BinaryHeap::pop`: the last item takes the root's place and sifts down. */
    method Pop() returns (head: Delayed)
      requires Heap(heap) && heap != []
      modifies this`heap
      ensures head == old(heap)[0] && Heap(heap)
      ensures multiset(heap) == multiset(old(heap)) - multiset{head}
    {
      head := heap[0];
      var last := |heap| - 1;
      ghost var rest := heap[1..];
      assert heap == [head] + rest;
      if last == 0 {
        heap := [];
      } else {
        assert heap == [head] + heap[1..last] + [heap[last]];
        heap := [heap[last]] + heap[1..last];
        SiftDown();
      }
    }

    /** `try_pop`: the task that became available first, if any is available now. */
    method TryPop(now: nat) returns (r: Option<Task>)
      requires Valid()
      modifies this
      ensures Valid()
      ensures events == old(events) + [Last()]
      ensures match Last()
              case Took(item, at) => r == Some(item.task) && at == now
              case NothingDue(at) => r == None && at == now && heap == old(heap)
              case _ => false
      ensures Legal(multiset(old(heap)), Last()) && multiset(heap) == BagAfter(multiset(old(heap)), Last())
      ensures r.Some? <==> exists d :: d in old(heap) && d.until <= now
    {
      var next := NextAvailable();
      if next.Some? && next.value <= now {
        ghost var bag := multiset(heap);
        RootIsEarliest(heap);
        var head := Pop();
        assert Legal(bag, Took(head, now));
        Record(Took(head, now), bag);
        return Some(head.task);
      }
      Record(NothingDue(now), multiset(heap));
      return None;
    }

    /** One step of the iterator that `drain` returns: some task, as long as there is one. */
    method DrainNext() returns (r: Option<Task>)
      requires Valid()
      modifies this
      ensures Valid()
      ensures r.None? <==> old(heap) == []
      ensures r.None? ==> heap == old(heap) && events == old(events)
      ensures r.Some? ==> events == old(events) + [Last()] && Last().Drained? && Last().item.task == r.value
      ensures r.Some? ==> |heap| + 1 == |old(heap)|
    {
      if heap == [] {
        return None;
      }
      var last := |heap| - 1;
      var item := heap[last];
      assert heap == heap[..last] + [item];
      Record(Drained(item), multiset(heap));
      heap := heap[..last];
      return Some(item.task);
    }
  }

  // ------------------------------------------------------------------------------------------
  // The heap in the hive
  // ------------------------------------------------------------------------------------------

  /** What a worker gets from `try_pop` under the retry lock is a step of the hive: a task is an item
      that the hive's retry queue allows it to take, and none means that nothing is due there. */
  lemma TookIsARetryStep(s: State, w: nat, item: Delayed) returns (k: nat)
    requires w < |s.workers| && s.workers[w].LockingRetry? && s.queues.owner.None? && !s.flags.aborted
    requires Legal(multiset(s.queues.retry), Took(item, s.flags.now))
    ensures k < |s.queues.retry|
    ensures var rest := WithoutAt(s.queues.retry, k);
            multiset(rest) == multiset(s.queues.retry) - multiset{item} &&
            Step(s, OfWorker(w, PopRetry(Some(k)))) == Some(
              s.(workers := s.workers[w := Protocol.Popped(item.task)],
                 queues := s.queues.(retry := rest, owner := Some(WorkerOwner(w)))))
  {
    k := FindItem(s.queues.retry, item);
    ItemTaken(s, w, k);
  }

  lemma FindItem(retry: seq<Delayed>, item: Delayed) returns (k: nat)
    requires item in multiset(retry) && forall d :: d in multiset(retry) ==> item.until <= d.until
    ensures k < |retry| && retry[k] == item && Earliest(retry) == Some(item.until)
    ensures multiset(WithoutAt(retry, k)) == multiset(retry) - multiset{item}
  {
    k :| k < |retry| && retry[k] == item;
    EarliestIsLeast(retry);
    var d :| d in retry && d.until == Earliest(retry).value;
    assert d in multiset(retry);
    assert retry == retry[..k] + [item] + retry[k + 1..];
  }

  lemma ItemTaken(s: State, w: nat, k: nat)
    requires w < |s.workers| && s.workers[w].LockingRetry? && s.queues.owner.None? && !s.flags.aborted
    requires k < |s.queues.retry| && Earliest(s.queues.retry) == Some(s.queues.retry[k].until)
    requires s.queues.retry[k].until <= s.flags.now
    ensures Step(s, OfWorker(w, PopRetry(Some(k)))) == Some(
              s.(workers := s.workers[w := Protocol.Popped(s.queues.retry[k].task)],
                 queues := s.queues.(retry := WithoutAt(s.queues.retry, k), owner := Some(WorkerOwner(w)))))
  {
  }

  lemma NothingDueIsARetryStep(s: State, w: nat)
    requires w < |s.workers| && s.workers[w].LockingRetry? && s.queues.owner.None? && !s.flags.aborted
    requires Legal(multiset(s.queues.retry), NothingDue(s.flags.now))
    ensures Step(s, OfWorker(w, PopRetry(None))) == Some(s.(workers := s.workers[w := Receiving]))
  {
    var retry := s.queues.retry;
    if retry != [] {
      EarliestIsLeast(retry);
      var d :| d in retry && d.until == Earliest(retry).value;
      assert d in multiset(retry);
    }
  }
}
