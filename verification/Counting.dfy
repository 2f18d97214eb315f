/** Occurrences of a number in a list, and the first few entries that qualify. */
module Counting {

  /** How often q is listed. */
  function Count(s: seq<int>, q: int): nat {
    if s == [] then 0 else Count(s[..|s| - 1], q) + if s[|s| - 1] == q then 1 else 0
  }

  lemma {:induction false} CountUpdate(s: seq<int>, r: nat, p: int, q: int)
    requires r < |s|
    ensures Count(s[r := p], q) + (if s[r] == q then 1 else 0) == Count(s, q) + if p == q then 1 else 0
  {
    var last := |s| - 1;
    if r < last {
      CountUpdate(s[..last], r, p, q);
      assert s[r := p][..last] == s[..last][r := p];
    } else {
      assert s[r := p][..last] == s[..last];
    }
  }

  lemma {:induction false} CountIn(s: seq<int>, q: int)
    ensures Count(s, q) > 0 <==> q in s
  {
    if s != [] {
      CountIn(s[..|s| - 1], q);
      assert s == s[..|s| - 1] + [s[|s| - 1]];
    }
  }

  lemma {:induction false} CountConcat(s: seq<int>, t: seq<int>, q: int)
    ensures Count(s + t, q) == Count(s, q) + Count(t, q)
  {
    if t == [] {
      assert s + t == s;
    } else {
      CountConcat(s, t[..|t| - 1], q);
      assert (s + t)[..|s + t| - 1] == s + t[..|t| - 1];
    }
  }

  lemma {:induction false} CountTwice(s: seq<int>, i: nat, j: nat)
    requires i < j < |s| && s[i] == s[j]
    ensures Count(s, s[i]) >= 2
  {
    assert s == s[..j] + s[j..];
    CountConcat(s[..j], s[j..], s[i]);
    assert s[..j][i] == s[i] && s[j..][0] == s[i];
    CountIn(s[..j], s[i]);
    CountIn(s[j..], s[i]);
  }

  // The first few that qualify.

  /** How many of the first i entries qualify. */
  function Before(q: seq<bool>, i: nat): (n: nat)
    requires i <= |q|
    ensures n <= i
  {
    if i == 0 then 0 else Before(q, i - 1) + if q[i - 1] then 1 else 0
  }

  /** Of those that qualify, the first `width` are served. */
  predicate Served(q: seq<bool>, i: nat, width: nat)
    requires i < |q|
  {
    q[i] && Before(q, i) < width
  }

  lemma NextBefore(q: seq<bool>, i: nat)
    requires i < |q|
    ensures Before(q, i + 1) == Before(q, i) + if q[i] then 1 else 0
  {
  }

  /** What the later turns leave alone. */
  lemma AfterTurn<T>(d: seq<T>, u: seq<T>, t: seq<T>, i: nat)
    requires i < |d| == |u| == |t| && u[..i] == d[..i] && t[..i + 1] == u[..i + 1]
    ensures t[..i] == d[..i] && t[i] == u[i]
  {
    assert t[i] == t[..i + 1][i] && u[i] == u[..i + 1][i];
    assert t[..i] == t[..i + 1][..i] && u[..i] == u[..i + 1][..i];
  }

  lemma ServesNone(q: seq<bool>, i: nat, width: nat)
    requires i <= |q| && (i == |q| || width <= Before(q, i))
    ensures forall j :: i <= j < |q| ==> !Served(q, j, width)
  {
    forall j | i <= j < |q| ensures !Served(q, j, width) { BeforeGrows(q, i, j); }
  }

  lemma {:induction false} BeforeGrows(q: seq<bool>, i: nat, j: nat)
    requires i <= j <= |q|
    ensures Before(q, i) <= Before(q, j)
  {
    if i < j { BeforeGrows(q, i, j - 1); }
  }

  // Lists of distinct numbers.

  function UpTo(n: nat): set<nat> { if n == 0 then {} else UpTo(n - 1) + {n - 1} }

  lemma {:induction false} UpToIs(n: nat)
    ensures |UpTo(n)| == n && forall k: nat :: k in UpTo(n) <==> k < n
  {
    if n > 0 { UpToIs(n - 1); }
  }

  lemma DistinctBelow(order: seq<nat>, n: nat)
    requires forall i :: 0 <= i < |order| ==> order[i] < n
    requires forall i, j :: 0 <= i < j < |order| ==> order[i] != order[j]
    ensures |order| <= n
    ensures (forall k: nat :: k < n ==> k in order) <==> |order| == n
  {
    var used := Members(order);
    UpToIs(n);
    Distinct(order);
    assert forall k :: k in used ==> k in UpTo(n);
    CardinalityMonotone(used, UpTo(n));
    if forall k: nat :: k < n ==> k in order { assert used == UpTo(n); }
    if |order| == n {
      CardinalityEqual(used, UpTo(n));
      forall k: nat | k < n ensures k in order { assert k in UpTo(n); }
    }
  }

  function Members(s: seq<nat>): set<nat> { if s == [] then {} else Members(s[..|s| - 1]) + {s[|s| - 1]} }

  lemma {:induction false} Distinct(s: seq<nat>)
    ensures forall k: nat :: k in Members(s) <==> k in s
    ensures (forall i, j :: 0 <= i < j < |s| ==> s[i] != s[j]) ==> |Members(s)| == |s|
  {
    if s != [] {
      Distinct(s[..|s| - 1]);
      assert s == s[..|s| - 1] + [s[|s| - 1]];
    }
  }

  lemma {:induction false} CardinalityMonotone(a: set<nat>, b: set<nat>)
    requires a <= b
    ensures |a| <= |b|
  {
    if a != {} {
      var x :| x in a;
      CardinalityMonotone(a - {x}, b - {x});
    }
  }

  lemma CardinalityEqual(a: set<nat>, b: set<nat>)
    requires a <= b && |a| == |b|
    ensures a == b
  {
    if a != b {
      var x :| x in b && x !in a;
      CardinalityMonotone(a, b - {x});
    }
  }
}
