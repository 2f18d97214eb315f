/** Powers of two, and numbers as lists of bits, lowest first. */
module Bits {

  function Pow2(n: nat): (p: nat)
    ensures p > 0
  {
    if n == 0 then 1 else 2 * Pow2(n - 1)
  }

  /** The loop of lg2 counts how often the number can be halved. */
  method Lg2(n: nat) returns (r: nat)
    ensures n == 0 ==> r == 0
    ensures n > 0 ==> Pow2(r) <= n < Pow2(r + 1)
  {
    var rest := n;
    r := 0;
    while rest > 1
      invariant n > 0 ==> 1 <= rest
      invariant n == 0 ==> r == 0 && rest == 0
      invariant rest * Pow2(r) <= n < (rest + 1) * Pow2(r)
    {
      Halve(rest, Pow2(r), n);
      rest := rest / 2;
      r := r + 1;
    }
  }

  lemma Halve(rest: nat, p: nat, n: nat)
    requires rest * p <= n < (rest + 1) * p
    ensures (rest / 2) * (2 * p) <= n < (rest / 2 + 1) * (2 * p)
  {
    var h := rest / 2;
    assert rest == 2 * h || rest == 2 * h + 1;
    assert (2 * h) * p == h * (2 * p);
    assert (2 * h + 1) * p == h * (2 * p) + p;
    assert (2 * h + 2) * p == (h + 1) * (2 * p);
  }

  function Digit(b: bool): nat { if b then 1 else 0 }

  function Value(bits: seq<bool>): (v: nat)
    ensures v < Pow2(|bits|)
  {
    if bits == [] then 0 else Digit(bits[0]) + 2 * Value(bits[1..])
  }

  lemma {:induction false} ValueInjective(a: seq<bool>, b: seq<bool>)
    requires |a| == |b| && Value(a) == Value(b)
    ensures a == b
  {
    if a != [] {
      ValueInjective(a[1..], b[1..]);
      assert a == [a[0]] + a[1..] && b == [b[0]] + b[1..];
    }
  }

  /** Exclusive or; the shorter second operand is extended with zeros. */
  function Xor(a: seq<bool>, b: seq<bool>): (r: seq<bool>)
    requires |b| <= |a|
    ensures |r| == |a|
  {
    seq(|a|, k requires 0 <= k < |a| => a[k] != (k < |b| && b[k]))
  }

  function Zeros(n: nat): (r: seq<bool>)
    ensures |r| == n
  {
    seq(n, _ => false)
  }

  lemma XorTwice(a: seq<bool>, b: seq<bool>)
    requires |b| <= |a|
    ensures Xor(Xor(a, b), b) == a
  {
  }

  lemma XorAssoc(a: seq<bool>, b: seq<bool>, c: seq<bool>)
    requires |b| == |a| && |c| <= |a|
    ensures Xor(Xor(a, b), c) == Xor(a, Xor(b, c))
  {
  }
}
