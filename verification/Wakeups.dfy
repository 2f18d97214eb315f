/** Merging of dependence lists with std::set_union, as the queues and caches do when requests collide. */
module Wakeups {

  function SetUnion(a: seq<nat>, b: seq<nat>): seq<nat>
    decreases |a| + |b|
  {
    if a == [] then b
    else if b == [] then a
    else if a[0] < b[0] then [a[0]] + SetUnion(a[1..], b)
    else if b[0] < a[0] then [b[0]] + SetUnion(a, b[1..])
    else [a[0]] + SetUnion(a[1..], b[1..])
  }

  /** Nothing is lost and nothing invented, even when the lists are not sorted. */
  lemma {:induction false} SetUnionMembers(a: seq<nat>, b: seq<nat>, x: nat)
    ensures x in SetUnion(a, b) <==> x in a || x in b
    decreases |a| + |b|
  {
    if a != [] && b != [] {
      assert a == [a[0]] + a[1..] && b == [b[0]] + b[1..];
      if a[0] < b[0] {
        SetUnionMembers(a[1..], b, x);
      } else if b[0] < a[0] {
        SetUnionMembers(a, b[1..], x);
      } else {
        SetUnionMembers(a[1..], b[1..], x);
      }
    }
  }
}
