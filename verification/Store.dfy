/** The outcome store (src/hive/outcome/store.rs): a hash map from index to outcome, whose iteration
    order nobody may rely on. */
module Store {
  import opened Wrappers
  import opened Tasks

  type Kind = Outcome -> bool

  predicate IsUnprocessed(o: Outcome) { o.Unprocessed? }

  predicate IsSuccess(o: Outcome) { o.Success? }

  predicate IsMissing(o: Outcome) { o.Missing? }

  /** The keys of the outcomes of a kind. */
  ghost function Where(m: map<nat, Outcome>, kind: Kind): set<nat> {
    set i | i in m && kind(m[i])
  }

  /** The sequence holds each key once. */
  ghost predicate Enumerates(order: seq<nat>, keys: set<nat>) {
    && (forall i :: i in order <==> i in keys)
    && (forall j, k :: 0 <= j < k < |order| ==> order[j] != order[k])
  }

  lemma EnumerationGrows(order: seq<nat>, keys: set<nat>, i: nat)
    requires Enumerates(order, keys) && i !in keys
    ensures Enumerates(order + [i], keys + {i})
  {
    forall j, k | 0 <= j < k < |order + [i]|
      ensures (order + [i])[j] != (order + [i])[k]
    {
      if k == |order| {
        assert order[j] in order;
      }
    }
  }

  /** Every outcome is stored under its own index, as `insert(*outcome.index(), outcome)` does. */
  ghost predicate Keyed(m: map<nat, Outcome>) {
    forall i :: i in m ==> m[i].index == i
  }

  predicate IsStored(m: map<nat, Outcome>, o: Outcome) {
    o.index in m && m[o.index] == o
  }

  /** The keys of a kind among the first n of an enumeration. */
  ghost function Among(m: map<nat, Outcome>, order: seq<nat>, n: nat, kind: Kind): set<nat>
    requires n <= |order| && Enumerates(order, m.Keys)
  {
    set i | i in order[..n] && kind(m[i])
  }

  lemma NextAmong(m: map<nat, Outcome>, order: seq<nat>, n: nat, kind: Kind)
    requires n < |order| && Enumerates(order, m.Keys)
    ensures order[n] in m && order[n] !in Among(m, order, n, kind)
    ensures Among(m, order, n + 1, kind) ==
              Among(m, order, n, kind) + if kind(m[order[n]]) then {order[n]} else {}
  {
    assert order[n] in order && order[n] !in order[..n];
    assert order[..n + 1] == order[..n] + [order[n]];
  }

  /** Each stored outcome is of one of the three kinds. */
  lemma NextOfEachKind(m: map<nat, Outcome>, order: seq<nat>, n: nat)
    requires n < |order| && Enumerates(order, m.Keys)
    ensures order[n] in m
    ensures |Among(m, order, n + 1, IsUnprocessed)| ==
              |Among(m, order, n, IsUnprocessed)| + if m[order[n]].Unprocessed? then 1 else 0
    ensures |Among(m, order, n + 1, IsSuccess)| ==
              |Among(m, order, n, IsSuccess)| + if m[order[n]].Success? then 1 else 0
    ensures |Among(m, order, n + 1, IsOther)| ==
              |Among(m, order, n, IsOther)| + if m[order[n]].Unprocessed? || m[order[n]].Success? then 0 else 1
  {
    NextAmong(m, order, n, IsUnprocessed);
    NextAmong(m, order, n, IsSuccess);
    NextAmong(m, order, n, IsOther);
  }

  lemma AllOfEachKind(m: map<nat, Outcome>, order: seq<nat>)
    requires Enumerates(order, m.Keys)
    ensures Among(m, order, |order|, IsUnprocessed) == Where(m, IsUnprocessed)
    ensures Among(m, order, |order|, IsSuccess) == Where(m, IsSuccess)
    ensures Among(m, order, |order|, IsOther) == Where(m, IsOther)
  {
    AllAmong(m, order, IsUnprocessed);
    AllAmong(m, order, IsSuccess);
    AllAmong(m, order, IsOther);
  }

  lemma AllAmong(m: map<nat, Outcome>, order: seq<nat>, kind: Kind)
    requires Enumerates(order, m.Keys)
    ensures Among(m, order, |order|, kind) == Where(m, kind)
  {
    assert order[..|order|] == order;
  }

  lemma KindSplits(m: map<nat, Outcome>, kind: Kind, left: Kind, right: Kind)
    requires forall i :: i in m ==> (kind(m[i]) <==> left(m[i]) || right(m[i])) && !(left(m[i]) && right(m[i]))
    ensures |Where(m, kind)| == |Where(m, left)| + |Where(m, right)|
  {
    assert Where(m, kind) == Where(m, left) + Where(m, right);
    assert Where(m, left) * Where(m, right) == {};
  }

  predicate IsAny(o: Outcome) { true }

  predicate IsProcessed(o: Outcome) { !o.Unprocessed? }

  /** The four kinds split the store. */
  lemma KindsPartition(m: map<nat, Outcome>)
    ensures |m| == |Where(m, IsUnprocessed)| + |Where(m, IsSuccess)| + |Where(m, IsOther)|
    ensures |Where(m, IsOther)| == |Where(m, IsFailure)| + |Where(m, IsMissing)|
  {
    assert Where(m, IsAny) == m.Keys;
    KindSplits(m, IsAny, IsUnprocessed, IsProcessed);
    KindSplits(m, IsProcessed, IsSuccess, IsOther);
    KindSplits(m, IsOther, IsFailure, IsMissing);
  }

  /** What the third component of `count` counts. */
  predicate IsOther(o: Outcome) {
    !o.Success? && !o.Unprocessed?
  }

  /** `count` and `num_failures` disagree about failures exactly when a `Missing` outcome is stored. */
  lemma CountAgreesIff(m: map<nat, Outcome>)
    ensures |Where(m, IsOther)| == |Where(m, IsFailure)| <==> forall i :: i in m ==> !m[i].Missing?
  {
    KindsPartition(m);
    if |Where(m, IsMissing)| == 0 {
      assert forall i :: i in m && m[i].Missing? ==> i in Where(m, IsMissing);
    } else {
      var i :| i in Where(m, IsMissing);
    }
  }

  /** The panics of the store's methods. */
  datatype Removed<T> = Absent | Taken(value: T) | WrongKind

  /** How `ok_or_unwrap_errors` ends: with the outputs, with the errors, by a panic of its own, or by
      resuming the panic of a task. */
  datatype Unwrapped = AllOk(values: seq<Output>) | Errors(errors: seq<Error>) | Refused | Resumed(payload: string)

  predicate IsPanic(o: Outcome) { o.Panic? }

  /** `into_error`, for a failure that is not a `Panic`. */
  function IntoError(o: Outcome): Error
    requires o.Failure? || o.MaxRetriesAttempted?
  {
    if o.Failure? then o.error else o.retryError
  }

  /** The values are the outputs stored under these keys, in order. */
  ghost predicate Outputs(m: map<nat, Outcome>, order: seq<nat>, values: seq<Output>) {
    |values| == |order| &&
    forall k :: 0 <= k < |order| ==> order[k] in m && m[order[k]].Success? && m[order[k]].value == values[k]
  }

  ghost predicate ErrorsOf(m: map<nat, Outcome>, order: seq<nat>, errors: seq<Error>) {
    |errors| == |order| &&
    forall k :: 0 <= k < |order| ==>
      order[k] in m && (m[order[k]].Failure? || m[order[k]].MaxRetriesAttempted?) && IntoError(m[order[k]]) == errors[k]
  }

  /** The payload of a stored panic. */
  ghost predicate SomePanic(m: map<nat, Outcome>, payload: string) {
    exists i :: i in m && m[i].Panic? && m[i].payload == payload
  }

  /** How `ok_or_unwrap_errors` must end. */
  ghost predicate VerdictKind(m: map<nat, Outcome>, dropUnprocessed: bool, v: Unwrapped) {
    && (v.Refused? <==> Where(m, IsUnprocessed) != {} && (!dropUnprocessed || Where(m, IsFailure) == {}))
    && (!v.Refused? ==> (v.AllOk? <==> Where(m, IsFailure) == {}) && (v.Resumed? <==> Where(m, IsPanic) != {}))
    && (v.Resumed? ==> SomePanic(m, v.payload))
  }

  /** And with what it returns, in the order of these indices. */
  ghost predicate Verdict(m: map<nat, Outcome>, dropUnprocessed: bool, v: Unwrapped, order: seq<nat>) {
    && VerdictKind(m, dropUnprocessed, v)
    && (v.Errors? ==> Enumerates(order, Where(m, IsFailure)) && ErrorsOf(m, order, v.errors))
    && (v.AllOk? ==> Enumerates(order, Where(m, IsSuccess)) && Outputs(m, order, v.values))
  }

  /** The outcomes of tasks that were executed, each with its last answer. */
  ghost function OutcomesOf(answers: map<nat, ApplyResult>): map<nat, Outcome> {
    map i | i in answers :: FromWorkerResult(answers[i], i)
  }

  /** Which answers decide the verdict. */
  lemma AnswersByKind(answers: map<nat, ApplyResult>)
    ensures var m := OutcomesOf(answers);
            && Where(m, IsUnprocessed) == (set i | i in answers && answers[i].Cancelled?)
            && Where(m, IsSuccess) == (set i | i in answers && answers[i].Returned?)
            && Where(m, IsPanic) == (set i | i in answers && answers[i].CaughtPanic?)
            && Where(m, IsFailure) == set i | i in answers && !answers[i].Returned? && !answers[i].Cancelled?
  {
  }

  /** For the outcomes of any answers of the workers, `ok_or_unwrap_errors` returns the workers' own
      outputs if no answer was an error or a panic, resumes the panic of some answer if and only if there
      is one, and otherwise returns the workers' own errors, each once: those of the fatal answers and
      those of the last retryable ones. It refuses cancelled inputs unless they are to be dropped and
      some answer was an error or a panic. */
  lemma VerdictOnAnswers(answers: map<nat, ApplyResult>, dropUnprocessed: bool, v: Unwrapped, order: seq<nat>)
    requires Verdict(OutcomesOf(answers), dropUnprocessed, v, order)
    ensures v.Refused? <==>
              (exists i :: i in answers && answers[i].Cancelled?) &&
              (!dropUnprocessed || forall i :: i in answers ==> answers[i].Returned? || answers[i].Cancelled?)
    ensures !v.Refused? ==> (v.Resumed? <==> exists i :: i in answers && answers[i].CaughtPanic?)
    ensures v.Resumed? ==> exists i :: i in answers && answers[i].CaughtPanic? && answers[i].payload == v.payload
    ensures !v.Refused? ==>
              (v.AllOk? <==> forall i :: i in answers ==> answers[i].Returned? || answers[i].Cancelled?)
    ensures v.AllOk? ==>
              Enumerates(order, set i | i in answers && answers[i].Returned?) && |v.values| == |order| &&
              forall k :: 0 <= k < |order| ==> answers[order[k]].value == v.values[k]
    ensures v.Errors? ==>
              Enumerates(order, set i | i in answers && (answers[i].Fatal? || answers[i].Retryable?)) &&
              |v.errors| == |order| &&
              forall k :: 0 <= k < |order| ==>
                var answer := answers[order[k]];
                v.errors[k] == if answer.Fatal? then answer.fatalError else answer.retryError
  {
    AnswersByKind(answers);
    var m := OutcomesOf(answers);
    assert forall i :: i in answers && answers[i].Cancelled? ==> i in Where(m, IsUnprocessed);
    assert forall i :: i in answers && answers[i].CaughtPanic? ==> i in Where(m, IsPanic);
    assert forall i :: i in answers && !answers[i].Returned? && !answers[i].Cancelled? ==> i in Where(m, IsFailure);
  }

  class OutcomeStore {
    var outcomes: map<nat, Outcome>

    constructor (outcomes: map<nat, Outcome>)
      ensures this.outcomes == outcomes
    {
      this.outcomes := outcomes;
    }

    /** The map's iteration order: any. */
    method Keys() returns (order: seq<nat>)
      ensures Enumerates(order, outcomes.Keys)
    {
      order := [];
      var rest := outcomes.Keys;
      ghost var done: set<nat> := {};
      while rest != {}
        invariant done + rest == outcomes.Keys && done * rest == {}
        invariant Enumerates(order, done)
        decreases rest
      {
        var i :| i in rest;
        EnumerationGrows(order, done, i);
        order, rest, done := order + [i], rest - {i}, done + {i};
      }
    }

    /** `count`: one fold over the values. */
    method Count() returns (unprocessed: nat, successes: nat, failures: nat)
      ensures unprocessed == |Where(outcomes, IsUnprocessed)|
      ensures successes == |Where(outcomes, IsSuccess)|
      ensures failures == |Where(outcomes, IsOther)|
      ensures unprocessed + successes + failures == |outcomes|
    {
      var order := Keys();
      unprocessed, successes, failures := 0, 0, 0;
      for k := 0 to |order|
        invariant unprocessed == |Among(outcomes, order, k, IsUnprocessed)|
        invariant successes == |Among(outcomes, order, k, IsSuccess)|
        invariant failures == |Among(outcomes, order, k, IsOther)|
      {
        NextOfEachKind(outcomes, order, k);
        match outcomes[order[k]] {
          case Success(_, _) => successes := successes + 1;
          case Unprocessed(_, _) => unprocessed := unprocessed + 1;
          case _ => failures := failures + 1;
        }
      }
      AllOfEachKind(outcomes, order);
      KindsPartition(outcomes);
    }

    /** `assert_empty`: whether it panics. */
    method AssertEmptyPanics(allowSuccesses: bool) returns (panics: bool)
      ensures panics <==> exists i :: i in outcomes && (allowSuccesses ==> !outcomes[i].Success?)
    {
      var unprocessed, successes, failures := Count();
      panics := (!allowSuccesses && successes > 0) || unprocessed > 0 || failures > 0;
      ghost var u, s, f := Where(outcomes, IsUnprocessed), Where(outcomes, IsSuccess), Where(outcomes, IsOther);
      if panics {
        ghost var i :| i in if !allowSuccesses && successes > 0 then s else if unprocessed > 0 then u else f;
        assert i in outcomes;
      } else {
        forall i | i in outcomes
          ensures allowSuccesses && outcomes[i].Success?
        {
          assert i in u || i in s || i in f;
        }
      }
    }

    /** `has_unprocessed`, `has_successes`, `has_failures`. */
    method Has(kind: Kind) returns (found: bool)
      ensures found <==> Where(outcomes, kind) != {}
    {
      var order := Keys();
      for k := 0 to |order|
        invariant forall j :: 0 <= j < k ==> !kind(outcomes[order[j]])
      {
        assert order[k] in order;
        if kind(outcomes[order[k]]) {
          assert order[k] in Where(outcomes, kind);
          return true;
        }
      }
      return false;
    }

    /** `unprocessed_indices`, `success_indices`, `failure_indices`: each index of the kind once. As
        they read the indices off the outcomes, they need every outcome under its own index. */
    method IndicesOf(kind: Kind) returns (indices: seq<nat>)
      requires Keyed(outcomes)
      ensures Enumerates(indices, Where(outcomes, kind))
    {
      var order := Keys();
      indices := [];
      for k := 0 to |order|
        invariant Enumerates(indices, Among(outcomes, order, k, kind))
      {
        var i := order[k];
        NextAmong(outcomes, order, k, kind);
        if kind(outcomes[i]) {
          EnumerationGrows(indices, Among(outcomes, order, k, kind), i);
          indices := indices + [outcomes[i].index];
        }
      }
      AllAmong(outcomes, order, kind);
    }

    /** `num_unprocessed`, `num_successes`, `num_failures`. */
    method NumOf(kind: Kind) returns (n: nat)
      ensures n == |Where(outcomes, kind)|
    {
      var order := Keys();
      n := 0;
      for k := 0 to |order|
        invariant n == |Among(outcomes, order, k, kind)|
      {
        NextAmong(outcomes, order, k, kind);
        if kind(outcomes[order[k]]) {
          n := n + 1;
        }
      }
      AllAmong(outcomes, order, kind);
    }

    /** `unwrap`: refuses any failure or unprocessed input, and drops `Missing` outcomes. */
    method Unwrap() returns (v: Unwrapped, ghost order: seq<nat>)
      requires Keyed(outcomes)
      ensures v.AllOk? || v.Refused?
      ensures v.Refused? <==> Where(outcomes, IsFailure) != {} || Where(outcomes, IsUnprocessed) != {}
      ensures v.AllOk? ==> Enumerates(order, Where(outcomes, IsSuccess)) && Outputs(outcomes, order, v.values)
    {
      order := [];
      var failed := Has(IsFailure);
      var unprocessed := Has(IsUnprocessed);
      if failed || unprocessed {
        return Refused, order;
      }
      var indices := IndicesOf(IsSuccess);
      var m := outcomes;
      assert forall k :: 0 <= k < |indices| ==> indices[k] in indices;
      v := AllOk(seq(|indices|, k requires 0 <= k < |indices| && indices[k] in m && m[indices[k]].Success? =>
        m[indices[k]].value));
      order := indices;
    }

    /** The errors of all failures, unless one of them is a `Panic`, which is resumed. */
    method CollectErrors() returns (v: Unwrapped, ghost order: seq<nat>)
      requires Keyed(outcomes)
      ensures v.Resumed? || v.Errors?
      ensures v.Resumed? <==> Where(outcomes, IsPanic) != {}
      ensures v.Resumed? ==> SomePanic(outcomes, v.payload)
      ensures v.Errors? ==> Enumerates(order, Where(outcomes, IsFailure)) && ErrorsOf(outcomes, order, v.errors)
    {
      var indices := IndicesOf(IsFailure);
      order := indices;
      var errors := [];
      for k := 0 to |indices|
        invariant |errors| == k
        invariant forall j :: 0 <= j < k ==>
                    indices[j] in outcomes &&
                    (outcomes[indices[j]].Failure? || outcomes[indices[j]].MaxRetriesAttempted?) &&
                    IntoError(outcomes[indices[j]]) == errors[j]
      {
        assert indices[k] in indices;
        var o := outcomes[indices[k]];
        if o.Panic? {
          assert indices[k] in Where(outcomes, IsPanic);
          return Resumed(o.payload), order;
        }
        errors := errors + [IntoError(o)];
      }
      assert forall i :: i in Where(outcomes, IsPanic) ==> i in Where(outcomes, IsFailure);
      assert forall i :: i in indices ==> !outcomes[i].Panic?;
      v := Errors(errors);
    }

    /** `ok_or_unwrap_errors`: it refuses unprocessed inputs unless they are to be dropped - and, even
        then, refuses them when there is no failure. */
    method OkOrUnwrapErrors(dropUnprocessed: bool) returns (v: Unwrapped, ghost order: seq<nat>)
      requires Keyed(outcomes)
      ensures VerdictKind(outcomes, dropUnprocessed, v)
      ensures Verdict(outcomes, dropUnprocessed, v, order)
    {
      var unprocessed := Has(IsUnprocessed);
      if !dropUnprocessed && unprocessed {
        return Refused, [];
      }
      var failed := Has(IsFailure);
      if failed {
        v, order := CollectErrors();
      } else {
        v, order := Unwrap();
      }
    }

    /** `remove_unprocessed`, `remove_success`, `remove_failure`: the outcome is gone even if it is of
        the wrong kind and the call panics. */
    method RemoveOne(kind: Kind, index: nat) returns (r: Removed<Outcome>)
      modifies this
      ensures outcomes == old(outcomes) - {index}
      ensures r == if index !in old(outcomes) then Absent
                   else if kind(old(outcomes)[index]) then Taken(old(outcomes)[index])
                   else WrongKind
    {
      if index !in outcomes {
        assert outcomes - {index} == outcomes;
        return Absent;
      }
      var o := outcomes[index];
      outcomes := outcomes - {index};
      return if kind(o) then Taken(o) else WrongKind;
    }

    /** `remove_all_unprocessed`, `remove_all_successes`, `remove_all_failures`: never panics, returns
        each outcome of the kind once with its index, and leaves exactly the others. */
    method RemoveAllOf(kind: Kind) returns (indices: seq<nat>, taken: seq<Outcome>)
      requires Keyed(outcomes)
      modifies this
      ensures Keyed(outcomes)
      ensures outcomes == old(outcomes) - Where(old(outcomes), kind)
      ensures Enumerates(indices, Where(old(outcomes), kind)) && |taken| == |indices|
      ensures forall k :: 0 <= k < |indices| ==>
                indices[k] in old(outcomes) && taken[k] == old(outcomes)[indices[k]]
    {
      indices := IndicesOf(kind);
      assert forall k :: 0 <= k < |indices| ==> indices[k] in indices;
      taken := [];
      ghost var gone: set<nat> := {};
      for k := 0 to |indices|
        invariant |taken| == k && forall j :: 0 <= j < k ==> taken[j] == old(outcomes)[indices[j]]
        invariant gone == set i | i in indices[..k]
        invariant outcomes == old(outcomes) - gone
      {
        var i := indices[k];
        assert i in indices && i !in indices[..k];
        assert indices[..k + 1] == indices[..k] + [i];
        var r := RemoveOne(kind, i);
        taken := taken + [r.value];
        gone := gone + {i};
      }
      assert indices[..|indices|] == indices;
      assert gone == Where(old(outcomes), kind);
    }

    /** `remove_all`: the whole store, sorted by index. */
    method RemoveAll() returns (r: seq<Outcome>)
      requires Keyed(outcomes)
      modifies this
      ensures outcomes == map[]
      ensures Sorted(r)
      ensures forall o :: o in r <==> IsStored(old(outcomes), o)
    {
      var order := Keys();
      var m := outcomes;
      r := [];
      for k := 0 to |order|
        invariant Sorted(r)
        invariant forall o :: o in r <==> o.index in Among(m, order, k, IsAny) && IsStored(m, o)
      {
        NextAmong(m, order, k, IsAny);
        r := InsertSorted(r, m[order[k]]);
      }
      AllAmong(m, order, IsAny);
      outcomes := map[];
    }
  }

  ghost predicate Sorted(r: seq<Outcome>) {
    forall j, k :: 0 <= j < k < |r| ==> r[j].index < r[k].index
  }

  lemma Inserted(r: seq<Outcome>, o: Outcome, p: nat)
    requires Sorted(r) && p <= |r|
    requires forall j :: 0 <= j < p ==> r[j].index < o.index
    requires p < |r| ==> o.index < r[p].index
    ensures Sorted(r[..p] + [o] + r[p..])
    ensures forall x :: x in r[..p] + [o] + r[p..] <==> x == o || x in r
  {
    var r' := r[..p] + [o] + r[p..];
    assert forall j :: 0 <= j < |r'| ==> r'[j] == if j < p then r[j] else if j == p then o else r[j - 1];
    SplitHas(r, p);
  }

  lemma SplitHas(r: seq<Outcome>, p: nat)
    requires p <= |r|
    ensures forall x :: x in r <==> x in r[..p] || x in r[p..]
  {
    assert r == r[..p] + r[p..];
  }

  method InsertSorted(r: seq<Outcome>, o: Outcome) returns (r': seq<Outcome>)
    requires Sorted(r) && forall x :: x in r ==> x.index != o.index
    ensures Sorted(r') && forall x :: x in r' <==> x == o || x in r
  {
    var p := 0;
    while p < |r| && r[p].index < o.index
      invariant p <= |r| && forall j :: 0 <= j < p ==> r[j].index < o.index
    {
      p := p + 1;
    }
    assert p < |r| ==> r[p] in r;
    r' := r[..p] + [o] + r[p..];
    Inserted(r, o, p);
  }
}
