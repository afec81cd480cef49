/** `DualCounter<L>` (src/hive/counter.rs): two counters in one wrapping 64-bit word. */
module Counter {
  import opened Words
  import opened Wrappers

  datatype CounterError = LeftOverflow | RightOverflow | LeftUnderflow | RightUnderflow

  /** The widths that the constants `L_BITS` and `R_BITS` accept at compile time. */
  type Width = bits: nat | 0 < bits < 64 witness 48

  function LMax(bits: Width): nat
  {
    Pow2(bits) - 1
  }

  function RMax(bits: Width): nat
  {
    Pow2(64 - bits) - 1
  }

  // ------------------------------------------------------------------------------------------
  // Bit layout
  // ------------------------------------------------------------------------------------------

  function Decompose(bits: Width, word: nat): (parts: (nat, nat))
  {
    (Rem(word, Pow2(bits)), Quot(word, Pow2(bits)))
  }

  /** Both halves of the largest word are at their maximum, so the maxima are the largest numbers that fit. */
  lemma HalvesFillTheWord(bits: Width)
    ensures Decompose(bits, WORD - 1) == (LMax(bits), RMax(bits))
    ensures WORD == (RMax(bits) + 1) * (LMax(bits) + 1)
  {
    Pow2Of64();
    Pow2Product(64 - bits, bits);
    LargestSplit(WORD, Pow2(64 - bits), Pow2(bits));
  }

  lemma LargestSplit(word: nat, m: nat, d: nat)
    requires m > 0 && d > 0 && word == m * d
    ensures word > 0 && Quot(word - 1, d) == m - 1 && Rem(word - 1, d) == d - 1
  {
    MulPlus(m - 1, 1, d);
    MulSign(m, d);
    QuotRemUnique(word - 1, d, m - 1, d - 1);
  }

  /** Bit `i` of the binary representation of `n`. */
  predicate Bit(n: nat, i: nat) {
    Quot(n, Pow2(i)) % 2 == 1
  }

  lemma TwoDigits(m: int, a: int, b: int, q: int, s: int)
    requires a > 0 && b > 0 && m == q * b + s
    ensures a * b > 0 && b * a == a * b
    ensures m * a == q * (a * b) + s * a
  {
    MulSign(a, b);
    MulPlus(q * b, s, a);
    MulAssoc(q, b, a);
  }

  /** Dividing by a and then by b is dividing by their product. */
  lemma QuotTwice(n: nat, a: nat, b: nat)
    requires a > 0 && b > 0
    ensures a * b > 0 && Quot(Quot(n, a), b) == Quot(n, a * b)
  {
    var m, r := Quot(n, a), Rem(n, a);
    var q, s := Quot(m, b), Rem(m, b);
    QuotRem(n, a);
    QuotRem(m, b);
    TwoDigits(m, a, b, q, s);
    ProductBelow(s, b, a);
    QuotRemUnique(n, a * b, q, s * a + r);
  }

  lemma EvenMultiple(right: nat, p: nat, h: nat)
    ensures right * (p * (2 * h)) == (2 * (right * h)) * p
  {
  }

  /** The low part of p * (2 * h): dividing by p keeps the parity of the quotient. */
  lemma ParityOfQuot(n: nat, left: nat, right: nat, p: nat, h: nat)
    requires p > 0
    requires n == right * (p * (2 * h)) + left
    ensures Quot(n, p) % 2 == Quot(left, p) % 2
  {
    EvenMultiple(right, p, h);
    QuotOfMore(n, left, 2 * (right * h), p);
  }

  lemma QuotOfMore(n: nat, left: nat, k: nat, p: nat)
    requires p > 0 && n == k * p + left
    ensures Quot(n, p) == k + Quot(left, p)
  {
    QuotRem(left, p);
    MulPlus(k, Quot(left, p), p);
    QuotRemUnique(n, p, k + Quot(left, p), Rem(left, p));
  }

  /** The quotient and the remainder hold exactly the bits that the code's `>> L` and
      `& L_MAX` select: bit i of the right part is bit L+i of the word, and the left part keeps
      the L low bits and clears the rest. */
  lemma DecomposeIsShiftAndMask(bits: Width, word: nat, i: nat)
    ensures Bit(Decompose(bits, word).1, i) == Bit(word, bits + i)
    ensures Bit(Decompose(bits, word).0, i) == (i < bits && Bit(word, i))
  {
    Pow2Product(bits, i);
    QuotTwice(word, Pow2(bits), Pow2(i));
    var (left, right) := Decompose(bits, word);
    QuotRem(word, Pow2(bits));
    if i < bits {
      Pow2Product(i, bits - i);
      ParityOfQuot(word, left, right, Pow2(i), Pow2(bits - i - 1));
    } else {
      Pow2Monotone(bits, i);
    }
  }

  // ------------------------------------------------------------------------------------------
  // The three calls as functions of the word
  // ------------------------------------------------------------------------------------------

  datatype Call = IncrementLeft(n: nat) | DecrementRight(n: nat) | Transfer(n: nat)

  /** The size check a call makes before it touches the word. */
  function Guard(bits: Width, call: Call): Option<CounterError>
  {
    match call
    case IncrementLeft(n) => if n > LMax(bits) then Some(LeftOverflow) else None
    case DecrementRight(n) => if n > RMax(bits) then Some(RightUnderflow) else None
    case Transfer(n) =>
      if n > LMax(bits) then Some(LeftUnderflow)
      else if n > RMax(bits) then Some(RightOverflow)
      else None
  }

  /** The amount a call that passes its size check adds to the word. */
  function Delta(bits: Width, call: Call): int
  {
    match call
    case IncrementLeft(n) => n
    case DecrementRight(n) => -(n * Pow2(bits))
    case Transfer(n) => n * Pow2(bits) - n
  }

  /** The word after a call: it changes whenever the size check passes, whether or not the call
      then reports an error. */
  function NewWord(bits: Width, word: nat, call: Call): nat
  {
    if Guard(bits, call).Some? then word else (word + Delta(bits, call)) % WORD
  }

  /** The check a call makes on the parts it read before the update. */
  function Verdict(bits: Width, left: nat, right: nat, call: Call): Option<CounterError>
  {
    match call
    case IncrementLeft(n) => if left + n <= LMax(bits) then None else Some(LeftOverflow)
    case DecrementRight(n) => if right >= n then None else Some(RightUnderflow)
    case Transfer(n) =>
      if left < n then Some(LeftUnderflow)
      else if right + n <= RMax(bits) then None
      else Some(RightOverflow)
  }

  function Failure(bits: Width, word: nat, call: Call): Option<CounterError>
  {
    match Guard(bits, call)
    case Some(e) => Some(e)
    case None =>
      var (left, right) := Decompose(bits, word);
      Verdict(bits, left, right, call)
  }

  /** A counter as a value: its split point and its word. */
  datatype Cell = Cell(bits: Width, word: nat) {
    function After(call: Call): Cell {
      Cell(bits, NewWord(bits, word, call))
    }

    predicate Fails(call: Call) {
      Failure(bits, word, call).Some?
    }

    function Read(): (nat, nat) {
      Decompose(bits, word)
    }
  }

  class DualCounter {
    const bits: Width
    var word: nat

    ghost predicate Valid()
      reads this
    {
      word < WORD
    }

    constructor (bits: Width)
        ensures Valid() && this.bits == bits && word == 0
    {
      this.bits := bits;
      word := 0;
    }

    method Get() returns (left: nat, right: nat)
      requires Valid()
      ensures (left, right) == Decompose(bits, word)
      ensures word == left + right * Pow2(bits) && left <= LMax(bits) && right <= RMax(bits)
    {
      left, right := Rem(word, Pow2(bits)), Quot(word, Pow2(bits));
      WordParts(bits, word);
    }

    method IncrementLeft(n: nat) returns (r: Result<nat, CounterError>)
      requires Valid()
      modifies this`word
      ensures Valid()
      ensures word == NewWord(bits, old(word), Call.IncrementLeft(n))
      ensures r == match Failure(bits, old(word), Call.IncrementLeft(n))
                   case Some(e) => Err(e)
                   case None => Ok(Decompose(bits, old(word)).0)
    {
      if n > LMax(bits) {
        return Err(LeftOverflow);
      }
      var prev := Rem(word, Pow2(bits));
      word := (word + n) % WORD;
      // The code's `checked_add` cannot overflow: both terms are at most L_MAX <= 2^63 - 1.
      assert prev + n < WORD by {
        Pow2Monotone(bits, 63);
        Pow2Of64();
      }
      if prev + n <= LMax(bits) {
        return Ok(prev);
      }
      return Err(LeftOverflow);
    }

    method DecrementRight(n: nat) returns (r: Result<nat, CounterError>)
      requires Valid()
      modifies this`word
      ensures Valid()
      ensures word == NewWord(bits, old(word), Call.DecrementRight(n))
      ensures r == match Failure(bits, old(word), Call.DecrementRight(n))
                   case Some(e) => Err(e)
                   case None => Ok(Decompose(bits, old(word)).1)
    {
      if n > RMax(bits) {
        return Err(RightUnderflow);
      }
      var shifted := n * Pow2(bits);
      // Shifting left by L loses no bit of a value that fits in 64 - L bits.
      assert shifted < WORD by {
        DeltaRange(bits, Call.DecrementRight(n));
      }
      var prev := Quot(word, Pow2(bits));
      word := (word - shifted) % WORD;
      if prev >= n {
        return Ok(prev);
      }
      return Err(RightUnderflow);
    }

    method Transfer(n: nat) returns (r: Result<(nat, nat), CounterError>)
      requires Valid()
      modifies this`word
      ensures Valid()
      ensures word == NewWord(bits, old(word), Call.Transfer(n))
      ensures r == match Failure(bits, old(word), Call.Transfer(n))
                   case Some(e) => Err(e)
                   case None => Ok(Decompose(bits, old(word)))
    {
      if n > LMax(bits) {
        return Err(LeftUnderflow);
      }
      if n > RMax(bits) {
        return Err(RightOverflow);
      }
      // The code's `checked_sub` cannot underflow.
      var delta := n * Pow2(bits) - n;
      assert delta >= 0 by {
        ShiftGrows(n, Pow2(bits));
      }
      var prevLeft, prevRight := Rem(word, Pow2(bits)), Quot(word, Pow2(bits));
      word := (word + delta) % WORD;
      if prevLeft < n {
        return Err(LeftUnderflow);
      }
      if prevRight + n <= RMax(bits) {
        return Ok((prevLeft, prevRight));
      }
      return Err(RightOverflow);
    }
  }

  // ------------------------------------------------------------------------------------------
  // Refinement of a pair of unbounded integers
  // ------------------------------------------------------------------------------------------

  /** The ideal counter: two integers that never wrap. */
  datatype Totals = Totals(left: int, right: int)

  function IdealCall(t: Totals, call: Call): Totals {
    match call
    case IncrementLeft(n) => t.(left := t.left + n)
    case DecrementRight(n) => t.(right := t.right - n)
    case Transfer(n) => Totals(t.left - n, t.right + n)
  }

  predicate InRange(bits: Width, t: Totals)
  {
    0 <= t.left <= LMax(bits) && 0 <= t.right <= RMax(bits)
  }

  function Packed(bits: Width, t: Totals): nat
  {
    (t.left + t.right * Pow2(bits)) % WORD
  }

  function RunWord(bits: Width, word: nat, calls: seq<Call>): nat
    decreases |calls|
  {
    if calls == [] then word else RunWord(bits, NewWord(bits, word, calls[0]), calls[1..])
  }

  /** The ideal totals count the calls that pass their size check, failing ones included. */
  function RunTotals(bits: Width, t: Totals, calls: seq<Call>): Totals
    decreases |calls|
  {
    if calls == [] then t
    else RunTotals(bits, if Guard(bits, calls[0]).Some? then t else IdealCall(t, calls[0]), calls[1..])
  }

  lemma WordParts(bits: Width, word: nat)
    requires word < WORD
    ensures word == Decompose(bits, word).0 + Decompose(bits, word).1 * Pow2(bits)
    ensures Decompose(bits, word).0 <= LMax(bits) && Decompose(bits, word).1 <= RMax(bits)
  {
    WordSplit(bits);
    SplitParts(word, Pow2(64 - bits), Pow2(bits));
  }

  /** In range, the packed word reads back as exactly the two totals. */
  lemma PackedReads(bits: Width, t: Totals)
    requires InRange(bits, t)
    ensures Packed(bits, t) == t.left + t.right * Pow2(bits)
    ensures Decompose(bits, Packed(bits, t)) == (t.left, t.right)
  {
    WordSplit(bits);
    SplitPacked(t.left, t.right, Pow2(64 - bits), Pow2(bits));
    WrapRange(t.left + t.right * Pow2(bits));
  }

  function PackedCell(bits: Width, t: Totals): Cell {
    Cell(bits, Packed(bits, t))
  }

  lemma ZeroIsPacked(bits: Width)
    ensures InRange(bits, Totals(0, 0)) && PackedCell(bits, Totals(0, 0)) == Cell(bits, 0)
    ensures Cell(bits, 0).Read() == (0, 0)
  {
  }

  lemma CallRefines(bits: Width, t: Totals, call: Call)
    ensures Guard(bits, call).None? ==>
              NewWord(bits, Packed(bits, t), call) == Packed(bits, IdealCall(t, call))
  {
    var d := Pow2(bits);
    var t' := IdealCall(t, call);
    var before, after := t.left + t.right * d, t'.left + t'.right * d;
    MulMinus(t.right, call.n, d);
    MulPlus(t.right, call.n, d);
    assert after == before + Delta(bits, call);
    WrapAdd(before, Delta(bits, call));
  }

  /** Whatever the calls return, the word is the packed image of the ideal totals modulo 2^64. */
  lemma {:induction false} RunRefines(bits: Width, t: Totals, calls: seq<Call>)
    ensures RunWord(bits, Packed(bits, t), calls) == Packed(bits, RunTotals(bits, t, calls))
    decreases |calls|
  {
    if calls != [] {
      CallRefines(bits, t, calls[0]);
      RunRefines(bits, if Guard(bits, calls[0]).Some? then t else IdealCall(t, calls[0]), calls[1..]);
    }
  }

  /** Whenever the ideal totals are in range, `get` returns exactly them, even if they left the
      range and failed calls happened on the way. */
  lemma RunReads(bits: Width, calls: seq<Call>)
    requires InRange(bits, RunTotals(bits, Totals(0, 0), calls))
    ensures var t := RunTotals(bits, Totals(0, 0), calls);
            Decompose(bits, RunWord(bits, 0, calls)) == (t.left, t.right)
  {
    PackedReads(bits, Totals(0, 0));
    RunRefines(bits, Totals(0, 0), calls);
    PackedReads(bits, RunTotals(bits, Totals(0, 0), calls));
  }

  /** From an in-range state a call succeeds exactly when its ideal result stays in range. */
  lemma SucceedsIffInRange(bits: Width, t: Totals, call: Call)
    requires InRange(bits, t)
    ensures Failure(bits, Packed(bits, t), call).None? <==> InRange(bits, IdealCall(t, call))
  {
    PackedReads(bits, t);
  }

  /** From an in-range state the error names what is wrong: too many on the left, too few or too many on
      the right; a transfer of more than one half can hold is rejected for that half, the left first. */
  lemma ErrorsNameTheHalf(bits: Width, t: Totals, call: Call)
    requires InRange(bits, t)
    ensures Failure(bits, Packed(bits, t), call) ==
              match call
              case IncrementLeft(n) => if t.left + n > LMax(bits) then Some(LeftOverflow) else None
              case DecrementRight(n) => if t.right < n then Some(RightUnderflow) else None
              case Transfer(n) =>
                if n > LMax(bits) || (n <= RMax(bits) && t.left < n) then Some(LeftUnderflow)
                else if t.right + n > RMax(bits) then Some(RightOverflow)
                else None
  {
    PackedReads(bits, t);
  }

  /** A call leaves the word unchanged exactly when its amount is zero or more than the half it takes it
      from or adds it to can hold: in particular any other error has already changed the word. */
  lemma UnchangedIffRejectedOrZero(bits: Width, word: nat, call: Call)
    requires word < WORD
    ensures NewWord(bits, word, call) == word <==>
              call.n == 0 || match call
                             case IncrementLeft(n) => n > LMax(bits)
                             case DecrementRight(n) => n > RMax(bits)
                             case Transfer(n) => n > LMax(bits) || n > RMax(bits)
  {
    if Guard(bits, call).None? {
      var delta := Delta(bits, call);
      DeltaRange(bits, call);
      WrapRange(word + delta);
    }
  }

  /** A decrement of an empty right half reports an error, and leaves the half at its maximum. */
  lemma UnderflowWraps(bits: Width, left: nat)
    requires left <= LMax(bits)
    ensures PackedCell(bits, Totals(left, 0)).Fails(DecrementRight(1))
    ensures PackedCell(bits, Totals(left, 0)).After(DecrementRight(1)).Read() == (left, RMax(bits))
  {
    var t := Totals(left, 0);
    PackedReads(bits, t);
    Pow2Monotone(1, 64 - bits);
    CallRefines(bits, t, DecrementRight(1));
    WordSplit(bits);
    var d, m := Pow2(bits), Pow2(64 - bits);
    MulMinus(m, 1, d);
    assert left - d + WORD == left + (m - 1) * d;
    WrapRange(left - d);
    PackedReads(bits, Totals(left, RMax(bits)));
    WrapRange(left + (m - 1) * d);
  }


  /** A call that passes its size check moves the word by less than 2^64, and by nothing exactly
      when its amount is zero. */
  lemma DeltaRange(bits: Width, call: Call)
    requires Guard(bits, call).None?
    ensures -(WORD as int) < Delta(bits, call) < WORD
    ensures Delta(bits, call) == 0 <==> call.n == 0
  {
    if call.IncrementLeft? {
      Pow2Monotone(bits, 64);
      Pow2Of64();
    } else {
      WordSplit(bits);
      SplitShift(call.n, Pow2(64 - bits), Pow2(bits));
    }
  }
}
