/** `prepare_batch` (src/hive/shared.rs): a lazy iterator that pairs inputs with reserved indices, and
    prepares surplus inputs one at a time, while other threads submit tasks too. */
module Batch {
  import opened Wrappers
  import opened Tasks
  import opened Counter

  /** What a step of the iterator gives: a task, the end, the panic "batch contained fewer items", or
      the panic "overflowed queued task counter". */
  datatype Item = Yielded(task: Task) | Ended | TooFew | Overflowed

  /** How many indices went to this batch. */
  function Owned(owner: seq<bool>): (n: nat)
    ensures n <= |owner|
  {
    if owner == [] then 0
    else Owned(owner[..|owner| - 1]) + if owner[|owner| - 1] then 1 else 0
  }

  lemma {:induction false} OwnedGrows(owner: seq<bool>, more: seq<bool>)
    requires forall i, j :: 0 <= i < |more| && 0 <= j < |more| ==> more[i] == more[j]
    ensures Owned(owner + more) == Owned(owner) + if more != [] && more[0] then |more| else 0
    decreases |more|
  {
    if more == [] {
      assert owner + more == owner;
    } else {
      var n := |more| - 1;
      assert (owner + more)[..|owner + more| - 1] == owner + more[..n];
      OwnedGrows(owner, more[..n]);
    }
  }

  function Repeated(b: bool, n: nat): (r: seq<bool>)
    ensures |r| == n && forall i :: 0 <= i < n ==> r[i] == b
  {
    seq(n, i => b)
  }

  /** The counters that all submitters share, as one of them sees them: `mine` is what its own calls
      have counted, `owner` says which of the indices issued so far are its own. */
  class Counters {
    const numTasks: DualCounter
    var nextTaskIndex: nat
    ghost var mine: nat
    ghost var owner: seq<bool>

    ghost predicate Valid()
      reads this, numTasks
    {
      numTasks.Valid() && |owner| == nextTaskIndex
    }

    constructor (numTasks: DualCounter, next: nat)
      requires numTasks.Valid()
      ensures Valid() && this.numTasks == numTasks && nextTaskIndex == next && mine == 0 && Owned(owner) == 0
    {
      this.numTasks, nextTaskIndex, mine := numTasks, next, 0;
      owner := Repeated(false, next);
      new;
      OwnedGrows([], Repeated(false, next));
      assert [] + owner == owner;
    }

    /** The other threads count and issue whatever they like. */
    method Interfere()
      requires Valid()
      modifies this, numTasks
      ensures Valid() && mine == old(mine) && Owned(owner) == Owned(old(owner))
      ensures old(owner) <= owner && forall i :: |old(owner)| <= i < |owner| ==> !owner[i]
    {
    }

    /** `num_tasks.increment_left(n)`. */
    method Count(n: nat) returns (ok: bool)
      requires Valid()
      modifies this`mine, numTasks
      ensures Valid() && numTasks.word == NewWord(numTasks.bits, old(numTasks.word), Call.IncrementLeft(n))
      ensures ok <==> !Cell(numTasks.bits, old(numTasks.word)).Fails(Call.IncrementLeft(n))
      ensures mine == old(mine) + if ok then n else 0
    {
      var r := numTasks.IncrementLeft(n);
      ok := r.Ok?;
      mine := mine + if ok then n else 0;
    }

    /** `next_task_index.add(n)`. */
    method Issue(n: nat) returns (start: nat)
      requires Valid()
      modifies this`nextTaskIndex, this`owner
      ensures Valid() && start == old(nextTaskIndex) && nextTaskIndex == start + n
      ensures owner == old(owner) + Repeated(true, n) && Owned(owner) == Owned(old(owner)) + n
    {
      start := nextTaskIndex;
      nextTaskIndex := start + n;
      OwnedGrows(owner, Repeated(true, n));
      owner := owner + Repeated(true, n);
    }
  }

  function Max(a: nat, b: nat): nat {
    if a < b then b else a
  }

  /** The iterator that `prepare_batch` returns. */
  class TaskIterator {
    const counters: Counters
    const tx: Option<nat>
    const end: nat
    var index: nat                     // the next reserved index
    var inputs: seq<Input>             // the rest of the input iterator
    ghost const minSize: nat
    ghost const given: seq<Input>      // all of it
    ghost var yielded: seq<Task>

    /** What has been yielded so far: the inputs in order, the first `minSize` with consecutive
        indices, the others with later ones; all indices are the batch's own and strictly increase. */
    ghost predicate InOrder()
      reads this, counters, counters.numTasks
    {
      && counters.Valid()
      && index <= end && end <= counters.nextTaskIndex && minSize <= end
      && index == end - minSize + (if |yielded| < minSize then |yielded| else minSize)
      && |yielded| <= |given| && inputs == given[|yielded|..]
      && (forall k :: 0 <= k < |yielded| ==>
            && yielded[k] == Task(given[k], yielded[k].index, 0, tx)
            && yielded[k].index < counters.nextTaskIndex && counters.owner[yielded[k].index]
            && (if k < minSize then yielded[k].index == end - minSize + k else end <= yielded[k].index))
      && (forall j, k :: 0 <= j < k < |yielded| ==> yielded[j].index < yielded[k].index)
      && (forall i :: end - minSize <= i < end ==> counters.owner[i])
    }

    /** And the batch has counted, and holds, as many indices as the larger of `minSize` and the
        number of tasks. */
    ghost predicate Valid()
      reads this, counters, counters.numTasks
    {
      InOrder() && counters.mine == Max(minSize, |yielded|) && Owned(counters.owner) == Max(minSize, |yielded|)
    }

    /** `prepare_batch`, once `min_size` tasks are counted. */
    constructor (counters: Counters, minSize: nat, inputs: seq<Input>, tx: Option<nat>)
      requires counters.Valid() && counters.mine == minSize && Owned(counters.owner) == 0
      modifies counters`nextTaskIndex, counters`owner
      ensures Valid() && yielded == [] && given == inputs && this.minSize == minSize && this.tx == tx
      ensures this.counters == counters && end == old(counters.nextTaskIndex) + minSize
    {
      var start := counters.Issue(minSize);
      this.counters, this.tx, this.minSize, this.given := counters, tx, minSize, inputs;
      index, end, this.inputs, yielded := start, start + minSize, inputs, [];
    }

    method Interfere()
      requires Valid()
      modifies counters, counters.numTasks
      ensures Valid()
    {
      counters.Interfere();
    }

    /** One step. It yields the next input; at the end of the inputs it panics exactly if the batch was
        shorter than `minSize`; a surplus input is counted first, and that may overflow. */
    method Advance() returns (r: Item)
      requires Valid()
      modifies this, counters, counters.numTasks
      ensures r.Overflowed? || Valid()
      ensures r.Yielded? <==> yielded != old(yielded)
      ensures r.Yielded? ==> yielded == old(yielded) + [r.task]
      ensures r.TooFew? <==> |old(yielded)| == |given| && |given| < minSize
      ensures r.Ended? <==> |old(yielded)| == |given| && |given| >= minSize
      ensures r.Overflowed? <==>
                minSize <= |old(yielded)| < |given| &&
                Cell(counters.numTasks.bits, old(counters.numTasks.word)).Fails(Call.IncrementLeft(1))
      ensures counters.numTasks.word ==
                if minSize <= |old(yielded)| < |given|
                then NewWord(counters.numTasks.bits, old(counters.numTasks.word), Call.IncrementLeft(1))
                else old(counters.numTasks.word)
    {
      if inputs == [] {
        return if index < end then TooFew else Ended;
      }
      if index < end {
        var task := TakeReserved();
        return Yielded(task);
      }
      var ok := counters.Count(1);
      if !ok {
        return Overflowed;
      }
      var task := TakeSurplus();
      return Yielded(task);
    }

    /** The next input gets the next reserved index. */
    method TakeReserved() returns (task: Task)
      requires Valid() && inputs != [] && index < end
      modifies this
      ensures Valid() && yielded == old(yielded) + [task]
    {
      task := Task(inputs[0], index, 0, tx);
      index, inputs := index + 1, inputs[1..];
      yielded := yielded + [task];
    }

    /** The next input, already counted, gets an index of its own. */
    method TakeSurplus() returns (task: Task)
      requires InOrder() && inputs != [] && index == end
      requires counters.mine == |yielded| + 1 && Owned(counters.owner) == |yielded|
      modifies this, counters`nextTaskIndex, counters`owner
      ensures Valid() && yielded == old(yielded) + [task]
    {
      var late := counters.Issue(1);
      task := Task(inputs[0], late, 0, tx);
      inputs := inputs[1..];
      yielded := yielded + [task];
    }

    /** The counter has just rejected one more task. */
    ghost predicate JustOverflowed()
      reads this, counters, counters.numTasks
    {
      var bits, one := counters.numTasks.bits, Call.IncrementLeft(1);
      exists word: nat :: Cell(bits, word).Fails(one) && counters.numTasks.word == NewWord(bits, word, one)
    }

    /** All steps, with the other threads running in between. If the iterator ends properly, the batch
        has one task per input, in order, and has counted and reserved exactly as many. If it ends in
        a panic for want of inputs, the tasks missing stay counted and their indices unused. */
    method Collect() returns (tasks: seq<Task>, last: Item)
      requires Valid() && yielded == []
      modifies this, counters, counters.numTasks
      ensures !last.Yielded?
      ensures last.Ended? <==> |tasks| == |given| && !last.Overflowed? && |given| >= minSize
      ensures last.Ended? || last.TooFew? ==> Valid() && tasks == yielded && |tasks| == |given|
      ensures last.Ended? ==> counters.mine == |given| && Owned(counters.owner) == |given|
      ensures last.Overflowed? ==> minSize <= |tasks| < |given| && tasks == yielded && JustOverflowed()
      ensures last.TooFew? ==> |given| < minSize && counters.mine == minSize && Owned(counters.owner) == minSize
    {
      tasks := [];
      while true
        invariant Valid() && tasks == yielded && |tasks| <= |given|
        decreases |given| - |yielded|
      {
        Interfere();
        last := Advance();
        if !last.Yielded? {
          return;
        }
        tasks := tasks + [last.task];
      }
    }
  }

  /** `prepare_batch`: count, then reserve. */
  method PrepareBatch(counters: Counters, minSize: nat, inputs: seq<Input>, tx: Option<nat>)
    returns (it: Option<TaskIterator>)
    requires counters.Valid() && counters.mine == 0 && Owned(counters.owner) == 0
    modifies counters, counters.numTasks
    ensures it.None? <==>
              old(Cell(counters.numTasks.bits, counters.numTasks.word)).Fails(Call.IncrementLeft(minSize))
    ensures it.Some? ==>
              && it.value.Valid() && it.value.yielded == [] && it.value.given == inputs
              && it.value.minSize == minSize && it.value.counters == counters
  {
    var ok := counters.Count(minSize);
    if !ok {
      return None;
    }
    counters.Interfere();
    var batch := new TaskIterator(counters, minSize, inputs, tx);
    return Some(batch);
  }
}
