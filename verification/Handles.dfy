/** The handles of a hive: `clone`, `drop` and `try_into_husk` around the `num_referrers` counter
    (src/hive/hive.rs, src/hive/shared.rs). */
module Handles {
  import opened Wrappers
  import opened Sums

  datatype Handle =
    | Live            // can be used, cloned, dropped or turned into a husk
    | Cloning         // counted in `num_referrers`, not yet returned by `clone`
    | Refused         // `try_into_husk` gave up on it; it is about to be dropped
    | Dropping        // decremented `num_referrers`, about to read it
    | Dropped
    | Husked          // its inner value was taken: dropping it does nothing

  datatype Referrers = Referrers(numReferrers: int, poisoned: bool, handles: seq<Handle>)

  datatype HandleAction =
    | BeginClone(h: nat) | EndClone(h: nat)
    | CheckHusk(h: nat)
    | Decrement(h: nat) | CheckLast(h: nat)

  function SetHandle(r: Referrers, h: nat, x: Handle): Referrers
    requires h < |r.handles|
  {
    r.(handles := r.handles[h := x])
  }

  function HandleStep(r: Referrers, a: HandleAction): Option<Referrers> {
    if a.h >= |r.handles| then None
    else
      var x := r.handles[a.h];
      match a
      case BeginClone(h) =>
        if !x.Live? then None
        else Some(r.(numReferrers := r.numReferrers + 1, handles := r.handles + [Cloning]))
      case EndClone(h) =>
        if !x.Cloning? then None else Some(SetHandle(r, h, Live))
      case CheckHusk(h) =>
        if !x.Live? then None else Some(SetHandle(r, h, if r.numReferrers > 1 then Refused else Husked))
      case Decrement(h) =>
        if !x.Live? && !x.Refused? then None
        else Some(SetHandle(r, h, Dropping).(numReferrers := r.numReferrers - 1))
      case CheckLast(h) =>
        if !x.Dropping? then None
        else Some(SetHandle(r, h, Dropped).(poisoned := r.poisoned || r.numReferrers == 0))
  }

  function HandleRun(r: Referrers, actions: seq<HandleAction>): Option<Referrers>
    decreases |actions|
  {
    if actions == [] then Some(r)
    else
      match HandleStep(r, actions[0])
      case None => None
      case Some(r') => HandleRun(r', actions[1..])
  }

  /** A new hive has one handle. */
  function NewReferrers(): Referrers {
    Referrers(1, false, [Live])
  }

  /** Whether the handle still gives access to the hive, or has become a husk. */
  predicate Holds(x: Handle) {
    !x.Dropping? && !x.Dropped?
  }

  function Weight(x: Handle): int {
    if Holds(x) then 1 else 0
  }

  ghost predicate SomeHandle(r: Referrers, p: Handle -> bool) {
    exists h :: 0 <= h < |r.handles| && p(r.handles[h])
  }

  ghost predicate Counted(r: Referrers) {
    && r.numReferrers == Sum(r.handles, Weight)
    && r.handles != []
    && (r.poisoned ==> r.numReferrers == 0)
    && (r.numReferrers == 0 ==> r.poisoned || SomeHandle(r, (x: Handle) => x.Dropping?))
  }

  lemma NobodyHolds(r: Referrers)
    requires Counted(r)
    ensures r.numReferrers >= 0
    ensures r.numReferrers == 0 <==> forall x :: x in r.handles ==> !Holds(x)
  {
    SumOfBits(r.handles, Weight);
    if forall x :: x in r.handles ==> !Holds(x) {
      SumOfNothing(r.handles, Weight);
    }
  }

  lemma StepKeepsCount(r: Referrers, a: HandleAction, r': Referrers)
    requires Counted(r) && HandleStep(r, a) == Some(r')
    ensures Counted(r')
    ensures r.poisoned ==> r'.poisoned
  {
    NobodyHolds(r);
    assert r.handles[a.h] in r.handles;
    if a.BeginClone? {
      SumAppend(r.handles, Cloning, Weight);
    } else {
      SumUpdate(r.handles, a.h, r'.handles[a.h], Weight);
    }
    if a.Decrement? {
      assert r'.handles[a.h].Dropping?;
    }
  }

  lemma {:induction false} RunKeepsCount(r: Referrers, actions: seq<HandleAction>, r': Referrers)
    requires Counted(r) && HandleRun(r, actions) == Some(r')
    ensures Counted(r')
    decreases |actions|
  {
    if actions != [] {
      var h := HandleStep(r, actions[0]).value;
      StepKeepsCount(r, actions[0], h);
      RunKeepsCount(h, actions[1..], r');
    }
  }

  lemma NewIsCounted()
    ensures Counted(NewReferrers())
  {
    assert NewReferrers().handles[1..] == [];
  }

  /** In every interleaving: `num_referrers` is the number of handles not yet being dropped; the hive
      is poisoned only once there is none; and when all handles are gone, it is poisoned. */
  lemma ReferrersCountHandles(actions: seq<HandleAction>, r: Referrers)
    requires HandleRun(NewReferrers(), actions) == Some(r)
    ensures r.numReferrers == Sum(r.handles, Weight) >= 0
    ensures r.poisoned ==> forall x :: x in r.handles ==> !Holds(x)
    ensures (forall x :: x in r.handles ==> x.Dropped?) ==> r.poisoned
  {
    NewIsCounted();
    RunKeepsCount(NewReferrers(), actions, r);
    NobodyHolds(r);
    if h :| 0 <= h < |r.handles| && r.handles[h].Dropping? {
      assert r.handles[h] in r.handles;
    }
  }

  lemma {:induction false} SoleHolder(handles: seq<Handle>, h: nat, k: nat)
    requires h < |handles| && k < |handles| && h != k && Holds(handles[h]) && Holds(handles[k])
    ensures Sum(handles, Weight) >= 2
  {
    var others := handles[h := Dropped];
    SumUpdate(handles, h, Dropped, Weight);
    SumOfBits(others, Weight);
    assert others[k] in others;
  }

  /** `try_into_husk` proceeds exactly for a handle that is the only one left. */
  lemma HuskOnlyForSoleHandle(actions: seq<HandleAction>, r: Referrers, h: nat)
    requires HandleRun(NewReferrers(), actions) == Some(r)
    requires h < |r.handles| && r.handles[h].Live?
    ensures HandleStep(r, CheckHusk(h)).value.handles[h].Husked? <==>
              forall k :: 0 <= k < |r.handles| && Holds(r.handles[k]) ==> k == h
  {
    NewIsCounted();
    RunKeepsCount(NewReferrers(), actions, r);
    if k :| 0 <= k < |r.handles| && Holds(r.handles[k]) && k != h {
      SoleHolder(r.handles, h, k);
    } else {
      SumUpdate(r.handles, h, Dropped, Weight);
      forall x | x in r.handles[h := Dropped]
        ensures Weight(x) == 0
      {
        var k :| 0 <= k < |r.handles| && r.handles[h := Dropped][k] == x;
      }
      SumOfNothing(r.handles[h := Dropped], Weight);
    }
  }

  // ------------------------------------------------------------------------------------------
  // The methods as programs
  // ------------------------------------------------------------------------------------------

  lemma {:induction false} HandleRunConcat(r: Referrers, xs: seq<HandleAction>, ys: seq<HandleAction>)
    requires HandleRun(r, xs).Some?
    ensures HandleRun(r, xs + ys) == HandleRun(HandleRun(r, xs).value, ys)
    decreases |xs|
  {
    if xs == [] {
      assert xs + ys == ys;
    } else {
      assert (xs + ys)[1..] == xs[1..] + ys;
      HandleRunConcat(HandleStep(r, xs[0]).value, xs[1..], ys);
    }
  }

  /** Actions on other handles leave handle h as it is, and never take poison back. */
  lemma {:induction false} OthersLeaveHandle(r: Referrers, actions: seq<HandleAction>, r': Referrers, h: nat)
    requires HandleRun(r, actions) == Some(r') && h < |r.handles|
    requires forall k :: 0 <= k < |actions| ==> actions[k].h != h
    ensures h < |r'.handles| && r'.handles[h] == r.handles[h] && (r.poisoned ==> r'.poisoned)
    decreases |actions|
  {
    if actions != [] {
      assert forall k :: 0 <= k < |actions[1..]| ==> actions[1..][k] == actions[k + 1];
      OthersLeaveHandle(HandleStep(r, actions[0]).value, actions[1..], r', h);
    }
  }

  /** The shared counter and flag, with the handles that exist. */
  class HandleCount {
    var numReferrers: int
    var poisoned: bool
    ghost var handles: seq<Handle>
    ghost var trace: seq<HandleAction>

    ghost function View(): Referrers
      reads this
    {
      Referrers(numReferrers, poisoned, handles)
    }

    ghost predicate Valid()
      reads this
    {
      HandleRun(NewReferrers(), trace) == Some(View())
    }

    constructor ()
      ensures Valid() && View() == NewReferrers()
    {
      numReferrers, poisoned, handles, trace := 1, false, [Live], [];
    }

    ghost method Commit(r: Referrers, a: HandleAction)
      requires HandleRun(NewReferrers(), trace) == Some(r) && HandleStep(r, a) == Some(View())
      modifies this`trace
      ensures Valid() && trace == old(trace) + [a]
    {
      HandleRunConcat(NewReferrers(), trace, [a]);
      trace := trace + [a];
    }

    /** What other threads do with other handles. */
    method Interfere(ghost h: nat)
      requires Valid()
      modifies this
      ensures Valid() && old(trace) <= trace
      ensures forall k :: |old(trace)| <= k < |trace| ==> trace[k].h != h
    {
    }

    method Yield(ghost h: nat)
      requires Valid() && h < |handles|
      modifies this
      ensures Valid() && h < |handles| && handles[h] == old(handles[h])
      ensures old(poisoned) ==> poisoned
    {
      ghost var r, before := View(), trace;
      Interfere(h);
      ghost var others := trace[|before|..];
      assert trace == before + others;
      HandleRunConcat(NewReferrers(), before, others);
      OthersLeaveHandle(r, others, View(), h);
    }

    /** `clone`: the new handle is counted before it exists, and never comes from a poisoned hive. */
    method Clone(ghost h: nat) returns (ghost c: nat)
      requires Valid() && h < |handles| && handles[h].Live?
      modifies this
      ensures Valid() && c < |handles| && handles[c].Live? && c >= old(|handles|)
      ensures !poisoned
    {
      ghost var r := View();
      numReferrers := numReferrers + 1;
      c, handles := |handles|, handles + [Cloning];
      Commit(r, BeginClone(h));
      Yield(c);
      r := View();
      handles := handles[c := Live];
      Commit(r, EndClone(c));
      ReferrersCountHandles(trace, View());
      assert handles[c] in handles;
    }

    /** `drop`: when it returns with no referrer left the hive is poisoned, and it is never poisoned
        while a handle is left. */
    method DropHandle(ghost h: nat)
      requires Valid() && h < |handles| && (handles[h].Live? || handles[h].Refused?)
      modifies this
      ensures Valid() && h < |handles| && handles[h].Dropped?
      ensures numReferrers == 0 ==> poisoned
      ensures poisoned ==> forall x :: x in handles ==> !Holds(x)
    {
      ghost var r := View();
      numReferrers, handles := numReferrers - 1, handles[h := Dropping];
      Commit(r, Decrement(h));
      Yield(h);
      r := View();
      poisoned, handles := poisoned || numReferrers == 0, handles[h := Dropped];
      Commit(r, CheckLast(h));
      ReferrersCountHandles(trace, View());
    }

    /** `try_into_husk`, up to the wait for the workers: the inner value is taken exactly if this is
        the only handle left; otherwise the handle is dropped. */
    method TryIntoHusk(ghost h: nat) returns (husk: bool)
      requires Valid() && h < |handles| && handles[h].Live?
      modifies this
      ensures Valid() && h < |handles|
      ensures husk <==> forall k :: 0 <= k < |old(handles)| && Holds(old(handles)[k]) ==> k == h
      ensures if husk then handles == old(handles)[h := Husked] && numReferrers == old(numReferrers)
              else handles[h].Dropped?
    {
      ghost var r := View();
      HuskOnlyForSoleHandle(trace, r, h);
      husk := numReferrers <= 1;
      handles := handles[h := if husk then Husked else Refused];
      Commit(r, CheckHusk(h));
      if !husk {
        Yield(h);
        DropHandle(h);
      }
    }
  }

  // ------------------------------------------------------------------------------------------
  // Thread indices
  // ------------------------------------------------------------------------------------------

  /** A call that adds threads: `grow(n)` with n > 0, which adds n, or `use_all_cores()` on a machine
      with n cores, which raises the number to n. */
  datatype GrowCall = GrowBy(n: nat) | RaiseTo(n: nat)

  /** The number of threads after the call's one atomic update. */
  function NumAfterGrow(numThreads: nat, call: GrowCall): nat {
    match call
    case GrowBy(n) => numThreads + n
    case RaiseTo(n) => if n > numThreads then n else numThreads
  }

  /** The range of thread indices the call hands to `brood`: from the value before its update. */
  function Brood(numThreads: nat, call: GrowCall): (nat, nat) {
    match call
    case GrowBy(n) => (numThreads, numThreads + n)
    case RaiseTo(n) => if n > numThreads then (numThreads, n) else (0, 0)
  }

  function NumThreads(initial: nat, calls: seq<GrowCall>): nat {
    if calls == [] then initial else NumAfterGrow(NumThreads(initial, calls[..|calls| - 1]), calls[|calls| - 1])
  }

  /** Whether index i is in the range of call k. */
  predicate Hatched(initial: nat, calls: seq<GrowCall>, k: nat, i: nat)
    requires k < |calls|
  {
    var (from, to) := Brood(NumThreads(initial, calls[..k]), calls[k]);
    from <= i < to
  }

  /** In whatever order the updates of concurrent calls happen, their ranges and the initial one are
      disjoint and together cover exactly the indices below the number of threads. */
  lemma {:induction false} BroodsPartition(initial: nat, calls: seq<GrowCall>, i: nat)
    ensures initial <= NumThreads(initial, calls)
    ensures i < NumThreads(initial, calls) <==>
              i < initial || exists k :: 0 <= k < |calls| && Hatched(initial, calls, k, i)
    ensures forall k :: 0 <= k < |calls| && Hatched(initial, calls, k, i) ==> initial <= i
    ensures forall j, k :: 0 <= j < k < |calls| ==> !(Hatched(initial, calls, j, i) && Hatched(initial, calls, k, i))
  {
    if calls != [] {
      var n := |calls| - 1;
      var before := calls[..n];
      BroodsPartition(initial, before, i);
      forall k | 0 <= k < n
        ensures Hatched(initial, calls, k, i) == Hatched(initial, before, k, i)
      {
        assert before[..k] == calls[..k];
      }
      if Hatched(initial, calls, n, i) {
        assert i >= NumThreads(initial, before);
      } else if i < NumThreads(initial, calls) && i >= initial {
        var k :| 0 <= k < n && Hatched(initial, before, k, i);
        assert Hatched(initial, calls, k, i);
      }
    }
  }

  // ------------------------------------------------------------------------------------------
  // How many threads there are
  // ------------------------------------------------------------------------------------------

  /** What one call does, whatever came before: `grow(n)` adds exactly n threads; `use_all_cores` on n
      cores leaves at least n, changes nothing and broods nothing if and only if there were as many
      already, and never adds more than it needs. */
  lemma CallsAddWhatTheySay(initial: nat, calls: seq<GrowCall>, k: nat)
    requires k < |calls|
    ensures var (before, after) := (NumThreads(initial, calls[..k]), NumThreads(initial, calls[..k + 1]));
            match calls[k]
            case GrowBy(n) =>
              after == before + n && forall i: nat :: Hatched(initial, calls, k, i) <==> before <= i < after
            case RaiseTo(n) =>
              (after == before <==> before >= n) && (before < n ==> after == n) &&
              ((exists i: nat :: Hatched(initial, calls, k, i)) <==> before < n) &&
              forall i: nat :: Hatched(initial, calls, k, i) <==> before <= i < n
  {
    assert calls[..k + 1][..k] == calls[..k];
    if calls[k].RaiseTo? && NumThreads(initial, calls[..k]) < calls[k].n {
      assert Hatched(initial, calls, k, NumThreads(initial, calls[..k]));
    }
  }

  /** The largest of the initial number and the targets of all calls that raise it. */
  ghost predicate IsLargestTarget(initial: nat, calls: seq<GrowCall>, m: nat) {
    && m >= initial && (forall k :: 0 <= k < |calls| && calls[k].RaiseTo? ==> calls[k].n <= m)
    && (m == initial || exists k :: 0 <= k < |calls| && calls[k].RaiseTo? && calls[k].n == m)
  }

  /** In whatever order concurrent calls take effect: there are at least as many threads as at the
      beginning and as any call wanted, and if all calls raise the number there are exactly as many as
      the most demanding of them wanted. */
  lemma {:induction false} ThreadsAreThoseWanted(initial: nat, calls: seq<GrowCall>)
    ensures NumThreads(initial, calls) >= initial
    ensures forall k :: 0 <= k < |calls| && calls[k].RaiseTo? ==> calls[k].n <= NumThreads(initial, calls)
    ensures (forall k :: 0 <= k < |calls| ==> calls[k].RaiseTo?) ==>
              IsLargestTarget(initial, calls, NumThreads(initial, calls))
  {
    if calls != [] {
      var n := |calls| - 1;
      ThreadsAreThoseWanted(initial, calls[..n]);
      assert forall k :: 0 <= k < n ==> calls[..n][k] == calls[k];
      var before := NumThreads(initial, calls[..n]);
      if (forall k :: 0 <= k < |calls| ==> calls[k].RaiseTo?) && NumThreads(initial, calls) == before != initial {
        assert IsLargestTarget(initial, calls[..n], before);
        var k :| 0 <= k < n && calls[..n][k].RaiseTo? && calls[..n][k].n == before;
        assert calls[k].n == before;
      }
    }
  }

  /** If all calls grow the number, it is the initial number and all they add, in any order. */
  lemma {:induction false} GrowthsAddUp(initial: nat, calls: seq<GrowCall>)
    requires forall k :: 0 <= k < |calls| ==> calls[k].GrowBy?
    ensures NumThreads(initial, calls) == initial + Sum(calls, Added)
  {
    if calls != [] {
      var n := |calls| - 1;
      GrowthsAddUp(initial, calls[..n]);
      assert calls == calls[..n] + [calls[n]];
      SumConcat(calls[..n], [calls[n]], Added);
    }
  }

  function Added(call: GrowCall): int {
    match call
    case GrowBy(n) => n
    case RaiseTo(_) => 0
  }
}
