/** The folded shift register of branch/hashed_perceptron/folded_shift_register.h. Values are lists of 64 bits,
  * lowest first. */
module FoldedHistory {
  import opened Bits

  const DIGITS: nat := 64

  type Value = v: seq<bool> | |v| == DIGITS witness Zeros(DIGITS)

  /** Words of this many bits are packed into a value. */
  predicate WordLength(w: nat) { 1 <= w <= DIGITS }

  function WordsPerValue(w: nat): (n: nat)
    requires WordLength(w)
    ensures n >= 1 && n * w <= DIGITS < (n + 1) * w
  {
    Quotient(DIGITS, w);
    DIGITS / w
  }

  lemma Quotient(n: nat, w: nat)
    requires 1 <= w <= n
    ensures n / w >= 1 && (n / w) * w <= n < (n / w + 1) * w
  {
    assert n == (n / w) * w + n % w;
  }

  function ValueLength(w: nat): (n: nat)
    requires WordLength(w)
    ensures w <= n <= DIGITS
  {
    WordsPerValue(w) * w
  }

  // Bit operations on values.

  function Masked(v: Value, bits: nat): Value
    requires bits <= DIGITS
  {
    v[..bits] + Zeros(DIGITS - bits)
  }

  function ShiftRight(v: Value, n: nat): Value
    requires n <= DIGITS
  {
    v[n..] + Zeros(n)
  }

  function ShiftIn(v: Value, lsb: bool, bits: nat): Value
    requires 1 <= bits <= DIGITS
  {
    Masked([lsb] + v[..DIGITS - 1], bits)
  }

  // The meaning: parities of a history, most recent outcome first.

  /** The exclusive or of every step-th bit from j on. */
  function Parity(h: seq<bool>, j: nat, step: nat): bool
    requires step > 0
    decreases |h| - j
  {
    if j >= |h| then false else h[j] != Parity(h, j + step, step)
  }

  lemma {:induction false} ParityDrop(h: seq<bool>, j: nat, step: nat, d: nat)
    requires step > 0 && d <= |h|
    ensures Parity(h, j + d, step) == Parity(h[d..], j, step)
    decreases |h| - j
  {
    if j + d < |h| { ParityDrop(h, j + step, step, d); }
  }

  lemma {:induction false} ParityXor(a: seq<bool>, b: seq<bool>, j: nat, step: nat)
    requires step > 0 && |a| == |b|
    ensures Parity(Xor(a, b), j, step) == (Parity(a, j, step) != Parity(b, j, step))
    decreases |a| - j
  {
    if j < |a| { ParityXor(a, b, j + step, step); }
  }

  lemma {:induction false} ParityZeros(n: nat, j: nat, step: nat)
    requires step > 0
    ensures !Parity(Zeros(n), j, step)
    decreases n - j
  {
    if j < n { ParityZeros(n, j + step, step); }
  }

  lemma {:induction false} ParityPad(h: seq<bool>, n: nat, j: nat, step: nat)
    requires step > 0
    ensures Parity(h + Zeros(n), j, step) == Parity(h, j, step)
    decreases |h| - j
  {
    if j < |h| {
      ParityPad(h, n, j + step, step);
    } else {
      ParityDrop(h + Zeros(n), j - |h|, step, |h|);
      assert (h + Zeros(n))[|h|..] == Zeros(n);
      ParityZeros(n, j - |h|, step);
    }
  }

  /** A list whose length is a multiple of the step in front of another adds its own parity. */
  lemma {:induction false} ParityConcat(a: seq<bool>, m: nat, b: seq<bool>, j: nat, step: nat)
    requires 0 <= j < step && |a| == m * step
    ensures Parity(a + b, j, step) == (Parity(a, j, step) != Parity(b, j, step))
    decreases m
  {
    if m == 0 {
      assert a + b == b;
    } else {
      assert (m - 1) * step == m * step - step;
      ParityConcat(a[step..], m - 1, b, j, step);
      ParityDrop(a + b, j, step, step);
      ParityDrop(a, j, step, step);
      assert (a + b)[step..] == a[step..] + b;
    }
  }

  // The register.

  /** The stored values one after another, each with its used bits only. */
  function Flat(words: seq<Value>, bits: nat): (r: seq<bool>)
    requires bits <= DIGITS
    ensures |r| == |words| * bits
  {
    if words == [] then [] else words[0][..bits] + Flat(words[1..], bits)
  }

  function XorAll(words: seq<Value>): Value {
    if words == [] then Zeros(DIGITS) else Xor(XorAll(words[..|words| - 1]), words[|words| - 1])
  }

  predicate Clean(v: Value, bits: nat)
    requires bits <= DIGITS
  {
    v == Masked(v, bits)
  }

  lemma {:induction false} FlatLast(words: seq<Value>, bits: nat)
    requires words != [] && bits <= DIGITS
    ensures Flat(words, bits) == Flat(words[..|words| - 1], bits) + words[|words| - 1][..bits]
  {
    if |words| == 1 {
      assert Flat(words[1..], bits) == [];
    } else {
      FlatLast(words[1..], bits);
      assert words[1..][..|words| - 2] == words[..|words| - 1][1..];
    }
  }

  /** The parity of all the values together is that of their exclusive or. */
  lemma {:induction false} ParityOfWords(words: seq<Value>, w: nat, j: nat)
    requires WordLength(w) && j < w && forall k :: 0 <= k < |words| ==> Clean(words[k], ValueLength(w))
    ensures Parity(XorAll(words), j, w) == Parity(Flat(words, ValueLength(w)), j, w)
  {
    if words == [] {
      ParityZeros(DIGITS, j, w);
    } else {
      var most, last := words[..|words| - 1], words[|words| - 1];
      ParityOfWords(most, w, j);
      FlatLast(words, ValueLength(w));
      assert XorAll(words) == Xor(XorAll(most), last);
      hide XorAll, Flat;
      OneWordMore(XorAll(most), last, Flat(most, ValueLength(w)), |most|, w, j);
    }
  }

  lemma OneWordMore(joined: Value, last: Value, flat: seq<bool>, m: nat, w: nat, j: nat)
    requires WordLength(w) && j < w && Clean(last, ValueLength(w)) && |flat| == m * ValueLength(w)
    requires Parity(joined, j, w) == Parity(flat, j, w)
    ensures Parity(Xor(joined, last), j, w) == Parity(flat + last[..ValueLength(w)], j, w)
  {
    var bits := ValueLength(w);
    ParityXor(joined, last, j, w);
    Regroup(m, WordsPerValue(w), w);
    ParityConcat(flat, m * WordsPerValue(w), last[..bits], j, w);
    ParityPad(last[..bits], DIGITS - bits, j, w);
  }

  lemma Regroup(m: nat, n: nat, w: nat)
    ensures m * (n * w) == (m * n) * w
  {
  }

  lemma {:induction false} XorAllClean(words: seq<Value>, bits: nat)
    requires bits <= DIGITS && forall k :: 0 <= k < |words| ==> Clean(words[k], bits)
    ensures Clean(XorAll(words), bits)
  {
    if words != [] {
      XorAllClean(words[..|words| - 1], bits);
      XorClean(XorAll(words[..|words| - 1]), words[|words| - 1], bits);
    }
  }

  lemma XorClean(a: Value, b: Value, bits: nat)
    requires bits <= DIGITS && Clean(a, bits) && Clean(b, bits)
    ensures Clean(Xor(a, b), bits)
  {
    forall k | bits <= k < DIGITS ensures !Xor(a, b)[k] {
      assert !Masked(a, bits)[k] && !Masked(b, bits)[k];
    }
    assert Xor(a, b) == Masked(Xor(a, b), bits);
  }

  /** The history as the register holds it: the last outcomes, as many as its length, and zeros before them. */
  function Window(history: seq<bool>, length: nat): (r: seq<bool>)
    ensures |r| == length
  {
    if |history| >= length then history[..length] else history + Zeros(length - |history|)
  }

  function ValuesNeeded(length: nat, bits: nat): nat
    requires bits > 0
  {
    length / bits + if length % bits != 0 then 1 else 0
  }

  /** The register holds the history: flattened, the values are its window and zeros. */
  ghost predicate Holds(words: seq<Value>, w: nat, length: nat, history: seq<bool>)
    requires WordLength(w)
  {
    && |words| == ValuesNeeded(length, ValueLength(w))
    && (forall k :: 0 <= k < |words| ==> Clean(words[k], ValueLength(w)))
    && length <= |words| * ValueLength(w)
    && Flat(words, ValueLength(w)) == Window(history, length) + Zeros(|words| * ValueLength(w) - length)
  }

  function Msb(v: Value, bits: nat): bool
    requires 1 <= bits <= DIGITS
  {
    v[bits - 1]
  }

  /** All values shifted by one, each passing its highest bit to the next. */
  function Shifted(words: seq<Value>, lsb: bool, bits: nat): (r: seq<Value>)
    requires 1 <= bits <= DIGITS
    ensures |r| == |words|
  {
    if words == [] then [] else [ShiftIn(words[0], lsb, bits)] + Shifted(words[1..], Msb(words[0], bits), bits)
  }

  lemma {:induction false} ShiftedFlat(words: seq<Value>, lsb: bool, bits: nat)
    requires 1 <= bits <= DIGITS
    ensures Flat(Shifted(words, lsb, bits), bits) == ([lsb] + Flat(words, bits))[..|Flat(words, bits)|]
  {
    if words != [] {
      var rest, msb := words[1..], Msb(words[0], bits);
      ShiftedFlat(rest, msb, bits);
      assert Shifted(words, lsb, bits)[1..] == Shifted(rest, msb, bits);
      ShiftGlue(words[0], Flat(rest, bits), lsb, bits);
    }
  }

  lemma {:induction false} ShiftedClean(words: seq<Value>, lsb: bool, bits: nat)
    requires 1 <= bits <= DIGITS
    ensures forall k :: 0 <= k < |words| ==> Clean(Shifted(words, lsb, bits)[k], bits)
  {
    if words != [] {
      ShiftedClean(words[1..], Msb(words[0], bits), bits);
      MaskedClean([lsb] + words[0][..DIGITS - 1], bits, bits);
    }
  }

  lemma ShiftGlue(v: Value, rest: seq<bool>, lsb: bool, bits: nat)
    requires 1 <= bits <= DIGITS
    ensures ShiftIn(v, lsb, bits)[..bits] + ([Msb(v, bits)] + rest)[..|rest|]
            == ([lsb] + (v[..bits] + rest))[..bits + |rest|]
  {
  }

  function MaskLast(words: seq<Value>, bits: nat): (r: seq<Value>)
    requires words != [] && bits <= DIGITS
    ensures |r| == |words|
  {
    words[|words| - 1 := Masked(words[|words| - 1], bits)]
  }

  lemma MaskedFlat(words: seq<Value>, bits: nat, last: nat, length: nat)
    requires words != [] && last <= bits <= DIGITS && length == (|words| - 1) * bits + last
    ensures |words| * bits - length == bits - last
    ensures length <= |words| * bits
    ensures Flat(MaskLast(words, last), bits) == Flat(words, bits)[..length] + Zeros(bits - last)
  {
    assert |words| * bits == (|words| - 1) * bits + bits;
    FlatLast(words, bits);
    FlatLast(MaskLast(words, last), bits);
    assert MaskLast(words, last)[..|words| - 1] == words[..|words| - 1];
  }

  function Pushed(words: seq<Value>, ins: bool, w: nat, length: nat): (r: seq<Value>)
    requires WordLength(w) && |words| == ValuesNeeded(length, ValueLength(w))
    ensures |r| == |words|
  {
    var bits := ValueLength(w);
    var s := Shifted(words, ins, bits);
    if length % bits != 0 then MaskLast(s, length % bits) else s
  }

  /** A push makes the window one outcome longer at the front, and no longer than the register. */
  lemma WindowPush(history: seq<bool>, ins: bool, length: nat, zeros: nat)
    ensures Window([ins] + history, length) == ([ins] + (Window(history, length) + Zeros(zeros)))[..length]
  {
  }

  lemma PushHolds(words: seq<Value>, ins: bool, w: nat, length: nat, history: seq<bool>)
    requires WordLength(w) && Holds(words, w, length, history)
    ensures Holds(Pushed(words, ins, w, length), w, length, [ins] + history)
  {
    var bits := ValueLength(w);
    var s := Shifted(words, ins, bits);
    var t := Pushed(words, ins, w, length);
    ShiftedFlat(words, ins, bits);
    ShiftedClean(words, ins, bits);
    WindowPush(history, ins, length, |words| * bits - length);
    Lengths(length, bits);
    if length % bits != 0 {
      MaskedFlat(s, bits, length % bits, length);
      MaskedClean(s[|s| - 1], length % bits, bits);
    } else {
      assert Zeros(0) == [];
    }
  }

  lemma MaskedClean(v: Value, last: nat, bits: nat)
    requires last <= bits <= DIGITS
    ensures Clean(Masked(v, last), bits)
  {
  }

  lemma Lengths(length: nat, bits: nat)
    requires bits > 0
    ensures var n := ValuesNeeded(length, bits);
            && (length % bits != 0 ==> n > 0 && length == (n - 1) * bits + length % bits)
            && (length % bits == 0 ==> length == n * bits)
  {
    assert length == (length / bits) * bits + length % bits;
  }

  lemma {:induction false} EmptyFlat(words: seq<Value>, bits: nat)
    requires bits <= DIGITS && forall k :: 0 <= k < |words| ==> words[k] == Zeros(DIGITS)
    ensures Flat(words, bits) == Zeros(|words| * bits)
  {
    if words != [] {
      EmptyFlat(words[1..], bits);
      assert |words| * bits == bits + |words[1..]| * bits;
    }
  }

  // Reading the value.

  /** The shifting loop folds the words of the joined value onto the lowest one. */
  ghost predicate Folding(joined: Value, now: Value, result: Value, w: nat)
    requires WordLength(w)
  {
    forall j :: 0 <= j < w ==> Parity(joined, j, w) == (result[j] != Parity(now[w..], j, w))
  }

  lemma FoldStep(joined: Value, now: Value, result: Value, w: nat)
    requires WordLength(w) && w <= DIGITS - w && Folding(joined, now, result, w)
    ensures Folding(joined, ShiftRight(now, w), Xor(result, ShiftRight(now, w)), w)
  {
    var next := ShiftRight(now, w);
    forall j | 0 <= j < w ensures Parity(joined, j, w) == (Xor(result, next)[j] != Parity(next[w..], j, w)) {
      ParityDrop(now[w..], j, w, w);
      assert next[w..] == now[w..][w..] + Zeros(w);
      ParityPad(now[w..][w..], w, j, w);
      assert now[w..][j] == next[j];
    }
  }

  class FoldedShiftRegister {
    const w: nat
    const length: nat
    var words: seq<Value>
    /** Every outcome pushed so far, the most recent first. */
    ghost var history: seq<bool>

    ghost predicate Valid()
      reads this
    {
      WordLength(w) && Holds(words, w, length, history)
    }

    constructor (w: nat, length: nat)
      requires WordLength(w)
      ensures Valid() && this.w == w && this.length == length && history == []
    {
      this.w, this.length, history := w, length, [];
      var bits := ValueLength(w);
      words := seq(ValuesNeeded(length, bits), _ => Zeros(DIGITS));
      new;
      Lengths(length, bits);
      EmptyFlat(words, bits);
      assert Zeros(|words| * bits) == Window([], length) + Zeros(|words| * bits - length);
    }

    method PushBack(ins: bool)
      requires Valid()
      modifies this
      ensures Valid() && history == [ins] + old(history)
    {
      var bits := ValueLength(w);
      PushHolds(words, ins, w, length, history);
      ShiftWords(ins, bits);
      if length % bits != 0 {
        Lengths(length, bits);
        words := words[|words| - 1 := Masked(words[|words| - 1], length % bits)];
      }
      history := [ins] + history;
    }

    method ShiftWords(ins: bool, bits: nat)
      requires 1 <= bits <= DIGITS
      modifies `words
      ensures words == Shifted(old(words), ins, bits)
    {
      var msbs := [ins];
      for k := 0 to |words|
        invariant |msbs| == k + 1 && msbs[0] == ins
        invariant forall j :: 0 <= j < k ==> msbs[j + 1] == Msb(words[j], bits)
      {
        msbs := msbs + [Msb(words[k], bits)];
      }
      ghost var before := words;
      for k := 0 to |words|
        invariant |words| == |before| && forall j :: k <= j < |words| ==> words[j] == before[j]
        invariant forall j :: 0 <= j < k ==> words[j] == ShiftIn(before[j], msbs[j], bits)
      {
        words := words[k := ShiftIn(words[k], msbs[k], bits)];
      }
      ShiftedAre(before, ins, bits, msbs, words);
    }

    /** Bit j is the exclusive or of the last outcomes at the positions j, j + w, j + 2w and so on, for every length
      * of the register. */
    method ReadValue() returns (result: seq<bool>)
      requires Valid()
      ensures |result| == w
      ensures forall j :: 0 <= j < w ==> result[j] == Parity(Window(history, length), j, w)
    {
      var joined: Value := Zeros(DIGITS);
      for k := 0 to |words|
        invariant joined == XorAll(words[..k])
      {
        assert words[..k + 1][..k] == words[..k];
        joined := Xor(joined, words[k]);
      }
      assert words[..|words|] == words;
      XorAllClean(words, ValueLength(w));
      var folded := Fold(joined);
      hide XorAll, Flat;
      forall j | 0 <= j < w ensures folded[j] == Parity(Window(history, length), j, w) { ValueIsParity(j); }
      return folded[..w];
    }

    lemma ValueIsParity(j: nat)
      requires Valid() && j < w
      ensures Parity(XorAll(words), j, w) == Parity(Window(history, length), j, w)
    {
      ParityOfWords(words, w, j);
      ParityPad(Window(history, length), |words| * ValueLength(w) - length, j, w);
    }

    method Fold(joined: Value) returns (result: Value)
      requires WordLength(w) && Clean(joined, ValueLength(w))
      ensures forall j :: 0 <= j < w ==> result[j] == Parity(joined, j, w)
    {
      result := joined;
      var now := joined;
      StartFolding(joined);
      var n := WordsPerValue(w);
      if n > 1 {
        assert n * w >= 2 * w;
        ghost var gone: nat := 0;
        for i := 0 to n + 1
          invariant Folding(joined, now, result, w)
          invariant gone == i * w && forall p :: 0 <= p < DIGITS && p + gone >= DIGITS ==> !now[p]
        {
          FoldStep(joined, now, result, w);
          assert (i + 1) * w == i * w + w;
          now := ShiftRight(now, w);
          result := Xor(result, now);
          gone := gone + w;
        }
        assert gone > DIGITS;
        assert now[w..] == Zeros(DIGITS - w);
      } else {
        assert now[w..] == Zeros(DIGITS - w);
      }
      forall j | 0 <= j < w ensures result[j] == Parity(joined, j, w) { ParityZeros(DIGITS - w, j, w); }
    }

    lemma StartFolding(joined: Value)
      requires WordLength(w)
      ensures Folding(joined, joined, joined, w)
    {
      forall j | 0 <= j < w ensures Parity(joined, j, w) == (joined[j] != Parity(joined[w..], j, w)) {
        ParityDrop(joined, j, w, w);
      }
    }

    lemma {:induction false} ShiftedAre(before: seq<Value>, lsb: bool, bits: nat, msbs: seq<bool>, after: seq<Value>)
      requires 1 <= bits <= DIGITS && |msbs| == |before| + 1 && |after| == |before| && msbs[0] == lsb
      requires forall j :: 0 <= j < |before| ==> msbs[j + 1] == Msb(before[j], bits)
      requires forall j :: 0 <= j < |before| ==> after[j] == ShiftIn(before[j], msbs[j], bits)
      ensures after == Shifted(before, lsb, bits)
      decreases |before|
    {
      if before != [] {
        ShiftedAre(before[1..], Msb(before[0], bits), bits, msbs[1..], after[1..]);
        assert after == [after[0]] + after[1..];
      }
    }
  }
}
