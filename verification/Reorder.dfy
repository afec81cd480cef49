/** `OutcomeIterator` (src/hive/outcome/iter.rs): outcomes in completion order become outcomes in
    submission order. */
module Reorder {
  import opened Wrappers
  import opened Tasks

  /** The iterator's fields as a value. */
  datatype Iter = Iter(inner: seq<Outcome>, indices: seq<nat>, buf: map<nat, Outcome>) {
    /** Buffered outcomes are filed under their own index. */
    ghost predicate Filed() {
      forall i :: i in buf ==> buf[i].index == i
    }
  }

  /** `OutcomeIterator::new`: no more than `indices.len()` outcomes are taken from the source. */
  function NewIter(source: seq<Outcome>, indices: seq<nat>): (it: Iter)
    ensures it.Filed()
  {
    Iter(if |source| <= |indices| then source else source[..|indices|], indices, map[])
  }

  /** What `next` returns and leaves behind. */
  function Next(it: Iter): (Option<Outcome>, Iter)
    decreases |it.inner|
  {
    if it.indices == [] then (None, it)
    else
      var i := it.indices[0];
      if i in it.buf then (Some(it.buf[i]), it.(buf := it.buf - {i}, indices := it.indices[1..]))
      else if it.inner == [] then (Some(Missing(i)), it)
      else
        var o := it.inner[0];
        var rest := it.(inner := it.inner[1..]);
        if o.index == i then (Some(o), rest.(indices := it.indices[1..]))
        else Next(if o.index in it.indices then rest.(buf := it.buf[o.index := o]) else rest)
  }

  class OutcomeIterator {
    var inner: seq<Outcome>
    var indices: seq<nat>
    var buf: map<nat, Outcome>

    ghost function View(): Iter
      reads this
    {
      Iter(inner, indices, buf)
    }

    constructor (source: seq<Outcome>, indices: seq<nat>)
      ensures View() == NewIter(source, indices)
    {
      inner := if |source| <= |indices| then source else source[..|indices|];
      this.indices := indices;
      buf := map[];
    }

    method Advance() returns (r: Option<Outcome>)
      requires View().Filed()
      modifies this
      ensures View().Filed()
      ensures (r, View()) == Next(old(View()))
    {
      while indices != []
        invariant View().Filed()
        invariant Next(View()) == Next(old(View()))
        decreases |inner|, |buf|
      {
        var next := indices[0];
        var found: Option<Outcome> := None;
        if next in buf {
          found := Some(buf[next]);
          buf := buf - {next};
        } else if inner != [] {
          found := Some(inner[0]);
          inner := inner[1..];
        }
        if found.None? {
          return Some(Missing(next));
        }
        var outcome := found.value;
        if outcome.index == next {
          indices := indices[1..];
          return found;
        }
        if outcome.index in indices {
          buf := buf[outcome.index := outcome];
        }
      }
      return None;
    }
  }

  // ------------------------------------------------------------------------------------------
  // Specification: look each index up in the source
  // ------------------------------------------------------------------------------------------

  ghost predicate Distinct<T>(xs: seq<T>) {
    forall j, k :: 0 <= j < k < |xs| ==> xs[j] != xs[k]
  }

  ghost predicate DistinctOutcomes(s: seq<Outcome>) {
    forall j, k :: 0 <= j < k < |s| ==> s[j].index != s[k].index
  }

  /** The position of the outcome with index i. */
  function Position(s: seq<Outcome>, i: nat): (p: Option<nat>)
    ensures p.Some? ==> p.value < |s| && s[p.value].index == i
    ensures p.None? ==> forall k :: 0 <= k < |s| ==> s[k].index != i
  {
    if s == [] then None
    else if s[0].index == i then Some(0)
    else
      match Position(s[1..], i)
      case None => None
      case Some(p) => Some(p + 1)
  }

  /** The state after k outcomes were returned in order and c items of the source were read: the
      buffer holds exactly the items read whose turn is still to come. */
  ghost predicate Progress(it: Iter, source: seq<Outcome>, order: seq<nat>, k: nat, c: nat) {
    && k <= |order| && c <= |source|
    && it.inner == source[c..]
    && it.indices == order[k..]
    && it.Filed()
    && (forall i :: i in it.buf <==>
          i in order[k..] && Position(source, i).Some? && Position(source, i).value < c)
    && (forall i :: i in it.buf ==> it.buf[i] == source[Position(source, i).value])
  }

  lemma PositionIsUnique(source: seq<Outcome>, p: nat)
    requires DistinctOutcomes(source) && p < |source|
    ensures Position(source, source[p].index) == Some(p)
  {
  }

  lemma TurnTaken(order: seq<nat>, k: nat, j: nat)
    requires Distinct(order) && k < |order|
    ensures j in order[k + 1..] <==> j in order[k..] && j != order[k]
  {
    assert order[k..] == [order[k]] + order[k + 1..];
  }

  lemma FoundInBuffer(it: Iter, source: seq<Outcome>, order: seq<nat>, k: nat, c: nat)
    requires Distinct(order) && Progress(it, source, order, k, c) && k < |order| && order[k] in it.buf
    ensures Progress(it.(buf := it.buf - {order[k]}, indices := it.indices[1..]), source, order, k + 1, c)
  {
    forall j
      ensures j in order[k + 1..] <==> j in order[k..] && j != order[k]
    {
      TurnTaken(order, k, j);
    }
  }

  lemma FoundAhead(it: Iter, source: seq<Outcome>, order: seq<nat>, k: nat, c: nat)
    requires Distinct(order) && DistinctOutcomes(source) && Progress(it, source, order, k, c)
    requires k < |order| && c < |source| && source[c].index == order[k]
    ensures Progress(it.(inner := it.inner[1..], indices := it.indices[1..]), source, order, k + 1, c + 1)
  {
    PositionIsUnique(source, c);
    forall j
      ensures j in order[k + 1..] <==> j in order[k..] && j != order[k]
    {
      TurnTaken(order, k, j);
    }
    BufferGrows(source, c);
  }

  /** The item at position c is the only one whose turn among the items read comes with it. */
  lemma BufferGrows(source: seq<Outcome>, c: nat)
    requires DistinctOutcomes(source) && c < |source|
    ensures forall j: nat :: j != source[c].index && Position(source, j).Some? ==>
              (Position(source, j).value < c <==> Position(source, j).value < c + 1)
  {
  }

  lemma Skipped(it: Iter, source: seq<Outcome>, order: seq<nat>, k: nat, c: nat)
    requires DistinctOutcomes(source) && Progress(it, source, order, k, c) && c < |source|
    ensures var o := source[c];
            Progress(it.(inner := it.inner[1..], buf := if o.index in it.indices then it.buf[o.index := o] else it.buf),
                     source, order, k, c + 1)
  {
    PositionIsUnique(source, c);
    BufferGrows(source, c);
  }

  /** One call of `next`: it returns the outcome for the next index and has then read the source
      exactly as far as that outcome, or not at all if it had been read before; if the source has
      no such outcome it reads all of it, returns `Missing` and stays at the same index. */
  lemma {:induction false} NextIsLookup(it: Iter, source: seq<Outcome>, order: seq<nat>, k: nat, c: nat)
    requires Distinct(order) && DistinctOutcomes(source)
    requires Progress(it, source, order, k, c) && k < |order|
    ensures var (r, it') := Next(it);
            match Position(source, order[k])
            case Some(p) => r == Some(source[p]) && Progress(it', source, order, k + 1, if p < c then c else p + 1)
            case None => r == Some(Missing(order[k])) && Progress(it', source, order, k, |source|)
    decreases |source| - c
  {
    assert it.indices[0] == order[k];
    if order[k] in it.buf {
      FoundInBuffer(it, source, order, k, c);
    } else if c == |source| {
      assert order[k] in order[k..];
    } else {
      PositionIsUnique(source, c);
      assert order[k] in order[k..];
      var o := source[c];
      if o.index == order[k] {
        FoundAhead(it, source, order, k, c);
      } else {
        Skipped(it, source, order, k, c);
        var buf' := if o.index in it.indices then it.buf[o.index := o] else it.buf;
        NextIsLookup(it.(inner := it.inner[1..], buf := buf'), source, order, k, c + 1);
      }
    }
  }

  // ------------------------------------------------------------------------------------------
  // Any number of calls
  // ------------------------------------------------------------------------------------------

  function Results(it: Iter, n: nat): (rs: seq<Option<Outcome>>)
    ensures |rs| == n
    decreases n
  {
    if n == 0 then [] else [Next(it).0] + Results(Next(it).1, n - 1)
  }

  /** The first place in the order whose index the source lacks, or the end of the order. */
  function FirstAbsent(source: seq<Outcome>, order: seq<nat>): (a: nat)
    ensures a <= |order|
    ensures forall k :: 0 <= k < a ==> Position(source, order[k]).Some?
    ensures a < |order| ==> Position(source, order[a]).None?
  {
    if order == [] || Position(source, order[0]).None? then 0
    else 1 + FirstAbsent(source, order[1..])
  }

  /** What the k-th call returns, said without the iterator. */
  function ResultAt(source: seq<Outcome>, order: seq<nat>, k: nat): Option<Outcome> {
    var a := FirstAbsent(source, order);
    if k < a then Some(source[Position(source, order[k]).value])
    else if a < |order| then Some(Missing(order[a]))
    else None
  }

  /** One call returns the result due at position k; it moves on to k + 1, or stays at k for good. */
  lemma OneResult(it: Iter, source: seq<Outcome>, order: seq<nat>, k: nat, c: nat) returns (k': nat, c': nat)
    requires Distinct(order) && DistinctOutcomes(source)
    requires Progress(it, source, order, k, c) && k <= FirstAbsent(source, order)
    ensures Progress(Next(it).1, source, order, k', c') && k' <= FirstAbsent(source, order)
    ensures Next(it).0 == ResultAt(source, order, k)
    ensures k' == k + 1 || (k' == k && k == FirstAbsent(source, order))
  {
    k', c' := k, c;
    if k < |order| {
      NextIsLookup(it, source, order, k, c);
      match Position(source, order[k])
      case Some(p) => k', c' := k + 1, if p < c then c else p + 1;
      case None => c' := |source|;
    }
  }

  /** The iterator after j calls. */
  function AfterCalls(it: Iter, j: nat): Iter
    decreases j
  {
    if j == 0 then it else AfterCalls(Next(it).1, j - 1)
  }

  lemma {:induction false} ResultIsNext(it: Iter, n: nat, j: nat)
    requires j < n
    ensures Results(it, n)[j] == Next(AfterCalls(it, j)).0
    decreases n
  {
    LaterResults(it, n, j);
    if j > 0 {
      ResultIsNext(Next(it).1, n - 1, j - 1);
    }
  }

  lemma LaterResults(it: Iter, n: nat, j: nat)
    requires j < n
    ensures Results(it, n)[j] == if j == 0 then Next(it).0 else Results(Next(it).1, n - 1)[j - 1]
  {
  }

  lemma {:induction false} ProgressAfter(it: Iter, source: seq<Outcome>, order: seq<nat>, k: nat, c: nat, j: nat)
    returns (k': nat, c': nat)
    requires Distinct(order) && DistinctOutcomes(source)
    requires Progress(it, source, order, k, c) && k <= FirstAbsent(source, order)
    ensures Progress(AfterCalls(it, j), source, order, k', c') && k' <= FirstAbsent(source, order)
    ensures k' == k + j || (k' < k + j && k' == FirstAbsent(source, order))
    decreases j
  {
    k', c' := k, c;
    if j > 0 {
      k', c' := OneResult(it, source, order, k, c);
      k', c' := ProgressAfter(Next(it).1, source, order, k', c', j - 1);
    }
  }

  /** As many outcomes as there are indices: the k-th call returns the outcome for the k-th index as long
      as all indices up to it occur in the source; from the first absent index on, every call returns
      `Missing` for it; after the last index, nothing. */
  lemma LookupSpec(source: seq<Outcome>, order: seq<nat>, n: nat, k: nat)
    requires Distinct(order) && DistinctOutcomes(source) && |source| <= |order| && k < n
    ensures Results(NewIter(source, order), n)[k] == ResultAt(source, order, k)
  {
    var it := NewIter(source, order);
    assert Progress(it, source, order, 0, 0);
    var k', c := ProgressAfter(it, source, order, 0, 0, k);
    var _, _ := OneResult(AfterCalls(it, k), source, order, k', c);
    ResultIsNext(it, n, k);
  }

  // ------------------------------------------------------------------------------------------
  // Any source
  // ------------------------------------------------------------------------------------------

  /** The outcome is one of the first n of the source. */
  ghost predicate AmongFirst(source: seq<Outcome>, n: nat, o: Outcome) {
    exists p :: 0 <= p < |source| && p < n && source[p] == o
  }

  /** Place a is the first in the order whose index has no outcome among the first |order| of the source,
      or the end of the order. */
  ghost predicate FirstLate(source: seq<Outcome>, order: seq<nat>, a: nat) {
    && a <= |order|
    && (forall k :: 0 <= k < a ==> exists o :: AmongFirst(source, |order|, o) && o.index == order[k])
    && (a < |order| ==> forall o :: AmongFirst(source, |order|, o) ==> o.index != order[a])
  }

  /** There is such a place. */
  lemma SomeFirstLate(source: seq<Outcome>, order: seq<nat>) returns (a: nat)
    ensures FirstLate(source, order, a)
  {
    var first := Taken(source, |order|);
    a := FirstAbsent(first, order);
    forall k | 0 <= k < a
      ensures exists o :: AmongFirst(source, |order|, o) && o.index == order[k]
    {
      TakenOnTime(source, order, k);
    }
  }

  /** For any source and distinct indices, any number of calls: the k-th returns the outcome for the k-th
      index as long as all indices up to it have an outcome among the first `indices.len()` items of the
      source; from the first index on that has none, every call returns `Missing` for it, even if its
      outcome comes later; after the last index, nothing. */
  lemma ReorderSpec(source: seq<Outcome>, order: seq<nat>, a: nat, n: nat, k: nat)
    requires Distinct(order) && FirstLate(source, order, a) && k < n
    requires forall i, j :: 0 <= i < j < |source| && j < |order| ==> source[i].index != source[j].index
    ensures var r := Results(NewIter(source, order), n)[k];
            if k < a then r.Some? && AmongFirst(source, |order|, r.value) && r.value.index == order[k]
            else r == if a < |order| then Some(Missing(order[a])) else None
  {
    var first := Taken(source, |order|);
    assert NewIter(source, order) == NewIter(first, order);
    LookupSpec(first, order, n, k);
    LateIsAbsent(source, order, a);
    if k < a {
      TakenOnTime(source, order, k);
    }
  }

  function Taken(source: seq<Outcome>, n: nat): seq<Outcome> {
    if |source| <= n then source else source[..n]
  }

  lemma TakenOnTime(source: seq<Outcome>, order: seq<nat>, k: nat)
    requires k < |order| && Position(Taken(source, |order|), order[k]).Some?
    ensures var first := Taken(source, |order|);
            AmongFirst(source, |order|, first[Position(first, order[k]).value])
  {
  }

  lemma LateIsAbsent(source: seq<Outcome>, order: seq<nat>, a: nat)
    requires FirstLate(source, order, a)
    ensures FirstAbsent(Taken(source, |order|), order) == a
  {
    var first := Taken(source, |order|);
    forall m | 0 <= m < a
      ensures Position(first, order[m]).Some?
    {
      var o :| AmongFirst(source, |order|, o) && o.index == order[m];
      var p :| 0 <= p < |source| && p < |order| && source[p] == o;
      assert first[p].index == order[m];
    }
    if a < |order| && Position(first, order[a]).Some? {
      TakenOnTime(source, order, a);
    }
  }

  /** What the source holds from position |order| on does not matter. */
  lemma OnlyTheFirstMatter(source: seq<Outcome>, other: seq<Outcome>, order: seq<nat>, n: nat)
    requires |source| < |order| || |other| < |order| ==> source == other
    requires forall p :: 0 <= p < |source| && p < |other| && p < |order| ==> source[p] == other[p]
    ensures Results(NewIter(source, order), n) == Results(NewIter(other, order), n)
  {
    if |source| >= |order| && |other| >= |order| {
      assert NewIter(source, order).inner == NewIter(other, order).inner;
    }
  }

  /** A source that holds exactly the wanted outcomes, in any order, comes out in the wanted order. */
  lemma PermutationIsSorted(source: seq<Outcome>, order: seq<nat>, k: nat)
    requires Distinct(order) && DistinctOutcomes(source) && |source| <= |order| && k < |order|
    requires forall i :: i in order ==> exists p :: 0 <= p < |source| && source[p].index == i
    ensures var r := Results(NewIter(source, order), |order|)[k];
            r.Some? && r.value in source && r.value.index == order[k]
  {
    LookupSpec(source, order, |order|, k);
    forall m | 0 <= m < |order|
      ensures Position(source, order[m]).Some?
    {
      assert order[m] in order;
    }
  }

  /** Distinct outcomes whose indices are all wanted are no more than the wanted indices. */
  lemma {:induction false} NoMoreThanWanted(source: seq<Outcome>, wanted: set<nat>)
    requires DistinctOutcomes(source)
    requires forall k :: 0 <= k < |source| ==> source[k].index in wanted
    ensures |source| <= |wanted|
  {
    if source != [] {
      NoMoreThanWanted(source[1..], wanted - {source[0].index});
    }
  }

  function Elements(xs: seq<nat>): set<nat> {
    set i | i in xs
  }

  lemma {:induction false} DistinctIndices(order: seq<nat>)
    requires Distinct(order)
    ensures |Elements(order)| == |order|
  {
    if order != [] {
      var first, rest := order[0], Elements(order[1..]);
      DistinctIndices(order[1..]);
      assert order == [first] + order[1..];
      assert Elements(order) == {first} + rest;
      assert first !in rest;
    }
  }
}
