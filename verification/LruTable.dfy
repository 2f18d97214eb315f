/** The least-recently-used table of inc/msl/lru_table.h. */
module LruTable {
  import opened Options
  import opened Counting

  /** A value with its projections on set and tag. */
  datatype Item = Item(index: int, tag: nat, payload: nat)

  /** A way is valid when its stamp is positive. */
  datatype Block = Block(lastUsed: nat, data: Item)

  // One set as a list of items, least recently used first.

  function Keep(l: seq<Item>, tags: set<nat>): seq<Item> {
    if l == [] then [] else (if l[0].tag in tags then [l[0]] else []) + Keep(l[1..], tags)
  }

  function Without(l: seq<Item>, tag: nat): seq<Item> {
    if l == [] then [] else (if l[0].tag == tag then [] else [l[0]]) + Without(l[1..], tag)
  }

  /** The entry with a tag; the caller knows there is one. */
  function Entry(l: seq<Item>, tag: nat): Option<Item> {
    if l == [] then None else if l[0].tag == tag then Some(l[0]) else Entry(l[1..], tag)
  }

  predicate Has(l: seq<Item>, tag: nat) { exists i :: 0 <= i < |l| && l[i].tag == tag }

  predicate UniqueTags(l: seq<Item>) { forall i, j :: 0 <= i < j < |l| ==> l[i].tag != l[j].tag }

  function Touch(l: seq<Item>, tag: nat): seq<Item> {
    match Entry(l, tag)
    case None => l
    case Some(x) => Without(l, tag) + [x]
  }

  /** The oldest makes room when the set is full. */
  function MakeRoom(l: seq<Item>, ways: nat): seq<Item> { if l != [] && |l| >= ways then l[1..] else l }

  function Fill(l: seq<Item>, ways: nat, x: Item): seq<Item> {
    if ways == 0 then l else MakeRoom(Without(l, x.tag), ways) + [x]
  }

  datatype Op = CheckHit(tag: nat) | FillWith(item: Item) | Invalidate(tag: nat)

  function Apply(l: seq<Item>, ways: nat, op: Op): seq<Item> {
    match op
    case CheckHit(tag) => Touch(l, tag)
    case FillWith(x) => Fill(l, ways, x)
    case Invalidate(tag) => Without(l, tag)
  }

  function Run(l: seq<Item>, ways: nat, ops: seq<Op>): seq<Item> {
    if ops == [] then l else Apply(Run(l, ways, ops[..|ops| - 1]), ways, ops[|ops| - 1])
  }

  // Facts about the lists.

  lemma {:induction false} WithoutMembers(l: seq<Item>, tag: nat, x: Item)
    ensures x in Without(l, tag) <==> x in l && x.tag != tag
  {
    if l != [] {
      assert l == [l[0]] + l[1..];
      WithoutMembers(l[1..], tag, x);
    }
  }

  lemma {:induction false} WithoutLength(l: seq<Item>, tag: nat)
    requires UniqueTags(l)
    ensures |Without(l, tag)| == |l| - if Has(l, tag) then 1 else 0
    ensures UniqueTags(Without(l, tag)) && !Has(Without(l, tag), tag)
    ensures !Has(l, tag) ==> Without(l, tag) == l
  {
    if l != [] {
      WithoutLength(l[1..], tag);
      assert forall i :: 1 <= i < |l| ==> l[i] == l[1..][i - 1];
      var rest := Without(l[1..], tag);
      if l[0].tag == tag {
        assert forall i :: 0 <= i < |l[1..]| ==> l[1..][i].tag != tag;
        assert !Has(l[1..], tag);
      } else {
        assert Has(l, tag) <==> Has(l[1..], tag);
        forall i | 0 <= i < |rest| ensures rest[i].tag != l[0].tag {
          WithoutMembers(l[1..], tag, rest[i]);
          assert rest[i] in l[1..];
        }
        assert Without(l, tag) == [l[0]] + rest;
        assert forall i :: 0 <= i < |Without(l, tag)| ==> Without(l, tag)[i].tag != tag;
      }
    }
  }

  lemma {:induction false} EntryIs(l: seq<Item>, tag: nat)
    ensures Entry(l, tag).Some? <==> Has(l, tag)
    ensures Entry(l, tag).Some? ==> Entry(l, tag).value.tag == tag && Entry(l, tag).value in l
  {
    if l != [] {
      EntryIs(l[1..], tag);
      assert forall i :: 1 <= i < |l| ==> l[i] == l[1..][i - 1];
      if Has(l[1..], tag) {
        var i :| 0 <= i < |l[1..]| && l[1..][i].tag == tag;
        assert l[i + 1].tag == tag;
      }
    }
  }

  /** Never more items than ways, and each tag once. */
  lemma ApplyKeepsUnique(l: seq<Item>, ways: nat, op: Op)
    requires UniqueTags(l) && |l| <= ways
    ensures UniqueTags(Apply(l, ways, op)) && |Apply(l, ways, op)| <= ways
  {
    match op
    case CheckHit(tag) =>
      EntryIs(l, tag);
      WithoutLength(l, tag);
    case FillWith(x) =>
      WithoutLength(l, x.tag);
    case Invalidate(tag) =>
      WithoutLength(l, tag);
  }

  /** The item last filled under a tag and not invalidated since. */
  function LastFill(ops: seq<Op>, tag: nat): Option<Item> {
    if ops == [] then None
    else
      match ops[|ops| - 1]
      case FillWith(x) => if x.tag == tag then Some(x) else LastFill(ops[..|ops| - 1], tag)
      case Invalidate(t) => if t == tag then None else LastFill(ops[..|ops| - 1], tag)
      case CheckHit(_) => LastFill(ops[..|ops| - 1], tag)
  }

  /** In every run a hit returns the item last filled under its tag, and no hit follows an invalidation. */
  lemma HitReturnsFill(ways: nat, ops: seq<Op>, tag: nat)
    requires Entry(Run([], ways, ops), tag).Some?
    ensures Entry(Run([], ways, ops), tag) == LastFill(ops, tag)
  {
    var l := Run([], ways, ops);
    EntryIs(l, tag);
    HoldsFills(ways, ops, Entry(l, tag).value);
  }

  lemma {:induction false} HoldsFills(ways: nat, ops: seq<Op>, x: Item)
    requires x in Run([], ways, ops)
    ensures LastFill(ops, x.tag) == Some(x)
  {
    if ops != [] {
      var rest, op := ops[..|ops| - 1], ops[|ops| - 1];
      var l := Run([], ways, rest);
      if ways == 0 { NothingHeld(rest); }
      AppliedMembers(l, ways, op, x);
      if op != FillWith(x) { HoldsFills(ways, rest, x); }
    }
  }

  lemma {:induction false} NothingHeld(ops: seq<Op>)
    ensures Run([], 0, ops) == []
  {
    if ops != [] { NothingHeld(ops[..|ops| - 1]); }
  }

  /** An operation brings in only what it fills, and leaves nothing else under its tag. */
  lemma AppliedMembers(l: seq<Item>, ways: nat, op: Op, x: Item)
    requires x in Apply(l, ways, op)
    ensures x in l || op == FillWith(x)
    ensures op.Invalidate? ==> op.tag != x.tag
    ensures op.FillWith? && ways > 0 && op.item.tag == x.tag ==> op.item == x
  {
    match op
    case CheckHit(tag) =>
      EntryIs(l, tag);
      WithoutMembers(l, tag, x);
    case FillWith(y) => WithoutMembers(l, y.tag, x);
    case Invalidate(tag) => WithoutMembers(l, tag, x);
  }

  // Keeping a subset of the tags commutes with the operations.

  lemma {:induction false} KeepConcat(l: seq<Item>, m: seq<Item>, tags: set<nat>)
    ensures Keep(l + m, tags) == Keep(l, tags) + Keep(m, tags)
  {
    if l == [] {
      assert l + m == m;
    } else {
      KeepConcat(l[1..], m, tags);
      assert (l + m)[1..] == l[1..] + m;
      Regroup(if l[0].tag in tags then [l[0]] else [], Keep(l[1..], tags), Keep(m, tags));
    }
  }

  lemma Regroup(x: seq<Item>, y: seq<Item>, z: seq<Item>)
    ensures (x + y) + z == x + (y + z) && [] + z == z
  {
  }

  lemma {:induction false} KeepMembers(l: seq<Item>, tags: set<nat>, x: Item)
    ensures x in Keep(l, tags) <==> x in l && x.tag in tags
  {
    if l != [] {
      assert l == [l[0]] + l[1..];
      KeepMembers(l[1..], tags, x);
    }
  }

  lemma {:induction false} KeepWithout(l: seq<Item>, tags: set<nat>, tag: nat)
    ensures Keep(Without(l, tag), tags) == Without(Keep(l, tags), tag)
    ensures Keep(Without(l, tag), tags - {tag}) == Without(Keep(l, tags), tag)
    ensures Keep(Without(l, tag), tags + {tag}) == Without(Keep(l, tags), tag)
  {
    if l != [] {
      KeepWithout(l[1..], tags, tag);
      var x, rest := l[0], Keep(l[1..], tags);
      WithoutCons(x, rest, tag);
      if x.tag == tag {
        assert Without(l, tag) == Without(l[1..], tag);
      } else {
        assert Without(l, tag)[1..] == Without(l[1..], tag);
      }
    }
  }

  lemma WithoutCons(x: Item, rest: seq<Item>, tag: nat)
    ensures Without([x] + rest, tag) == (if x.tag == tag then [] else [x]) + Without(rest, tag)
    ensures [] + rest == rest
  {
    assert ([x] + rest)[1..] == rest;
  }

  /** With its oldest item gone, the kept list is the list kept without that item's tag. */
  lemma {:induction false} KeepTail(l: seq<Item>, tags: set<nat>)
    requires UniqueTags(l) && Keep(l, tags) != []
    ensures Keep(l, tags)[1..] == Keep(l, tags - {Keep(l, tags)[0].tag})
  {
    if l[0].tag in tags {
      assert forall i :: 1 <= i < |l| ==> l[i] == l[1..][i - 1];
      DropTag(l[1..], tags, l[0].tag);
    } else {
      KeepTail(l[1..], tags);
      KeepMembers(l[1..], tags, Keep(l[1..], tags)[0]);
    }
  }

  lemma {:induction false} DropTag(l: seq<Item>, tags: set<nat>, tag: nat)
    requires forall i :: 0 <= i < |l| ==> l[i].tag != tag
    ensures Keep(l, tags) == Keep(l, tags - {tag}) == Keep(l, tags + {tag})
  {
    if l != [] { DropTag(l[1..], tags, tag); }
  }

  // Inclusion.

  /** The small set is what the large one keeps of some tags, in the same order, and has no more room left. */
  ghost predicate Included(small: seq<Item>, ways: nat, large: seq<Item>, more: nat, tags: set<nat>) {
    && UniqueTags(small) && UniqueTags(large) && |small| <= ways && |large| <= more
    && small == Keep(large, tags) && ways - |small| <= more - |large|
  }

  lemma IncludedStep(small: seq<Item>, ways: nat, large: seq<Item>, more: nat, tags: set<nat>, op: Op)
    returns (next: set<nat>)
    requires ways <= more && Included(small, ways, large, more, tags)
    ensures Included(Apply(small, ways, op), ways, Apply(large, more, op), more, next)
  {
    ApplyKeepsUnique(small, ways, op);
    ApplyKeepsUnique(large, more, op);
    match op
    case CheckHit(tag) => next := IncludedTouch(small, ways, large, more, tags, tag);
    case FillWith(x) => next := IncludedFill(small, ways, large, more, tags, x);
    case Invalidate(tag) =>
      next := tags - {tag};
      KeepWithout(large, tags, tag);
      WithoutLength(small, tag);
      WithoutLength(large, tag);
      SmallerHas(small, large, tags, tag);
  }

  lemma SmallerHas(small: seq<Item>, large: seq<Item>, tags: set<nat>, tag: nat)
    requires small == Keep(large, tags)
    ensures Has(small, tag) ==> Has(large, tag) && tag in tags
    ensures Has(large, tag) && tag in tags ==> Has(small, tag)
  {
    if Has(small, tag) {
      var i :| 0 <= i < |small| && small[i].tag == tag;
      KeepMembers(large, tags, small[i]);
    }
    if Has(large, tag) && tag in tags {
      var i :| 0 <= i < |large| && large[i].tag == tag;
      KeepMembers(large, tags, large[i]);
      assert large[i] in small;
    }
  }

  lemma IncludedTouch(small: seq<Item>, ways: nat, large: seq<Item>, more: nat, tags: set<nat>, tag: nat)
    returns (next: set<nat>)
    requires Included(small, ways, large, more, tags)
    ensures Touch(small, tag) == Keep(Touch(large, tag), next)
    ensures ways - |Touch(small, tag)| <= more - |Touch(large, tag)|
  {
    SmallerHas(small, large, tags, tag);
    EntryIs(small, tag);
    EntryIs(large, tag);
    WithoutLength(small, tag);
    WithoutLength(large, tag);
    KeepWithout(large, tags, tag);
    next := if Has(small, tag) then tags else tags - {tag};
    if Has(large, tag) {
      var x := Entry(large, tag).value;
      KeepConcat(Without(large, tag), [x], next);
      assert Keep([x], next) == if tag in next then [x] else [];
      if Has(small, tag) {
        KeepMembers(large, tags, Entry(small, tag).value);
        SameTag(large, Entry(small, tag).value, x);
      } else {
        assert Without(small, tag) + [] == small;
      }
    } else {
      assert !Has(small, tag);
      assert Without(large, tag) == large && Without(small, tag) == small;
    }
  }

  lemma SameTag(l: seq<Item>, x: Item, y: Item)
    requires UniqueTags(l) && x in l && y in l && x.tag == y.tag
    ensures x == y
  {
  }

  lemma IncludedFill(small: seq<Item>, ways: nat, large: seq<Item>, more: nat, tags: set<nat>, x: Item)
    returns (next: set<nat>)
    requires ways <= more && Included(small, ways, large, more, tags)
    ensures Fill(small, ways, x) == Keep(Fill(large, more, x), next)
    ensures ways - |Fill(small, ways, x)| <= more - |Fill(large, more, x)|
  {
    if ways == 0 {
      next := {};
      KeepNothing(Fill(large, more, x));
      WithoutLength(large, x.tag);
    } else {
      var s, l := Without(small, x.tag), Without(large, x.tag);
      SmallerHas(small, large, tags, x.tag);
      WithoutLength(small, x.tag);
      WithoutLength(large, x.tag);
      KeepWithout(large, tags, x.tag);
      var rest := RoomMade(s, ways, l, more, tags - {x.tag});
      next := rest + {x.tag};
      RestUnchanged(l, more, rest, x.tag);
      KeepConcat(MakeRoom(l, more), [x], next);
      assert Keep([x], next) == [x];
    }
  }

  lemma {:induction false} KeepNothing(l: seq<Item>)
    ensures Keep(l, {}) == []
  {
    if l != [] { KeepNothing(l[1..]); }
  }

  lemma RestUnchanged(l: seq<Item>, more: nat, rest: set<nat>, tag: nat)
    requires !Has(l, tag)
    ensures Keep(MakeRoom(l, more), rest + {tag}) == Keep(MakeRoom(l, more), rest)
  {
    DropTag(MakeRoom(l, more), rest, tag);
  }

  lemma RoomMade(s: seq<Item>, ways: nat, l: seq<Item>, more: nat, tags: set<nat>) returns (next: set<nat>)
    requires 0 < ways <= more && UniqueTags(l) && s == Keep(l, tags)
    requires |s| <= ways && |l| <= more && ways - |s| <= more - |l|
    ensures MakeRoom(s, ways) == Keep(MakeRoom(l, more), next)
    ensures ways - |MakeRoom(s, ways)| <= more - |MakeRoom(l, more)|
  {
    next := tags;
    if |s| == ways {
      KeepTail(l, tags);
      next := tags - {s[0].tag};
      if |l| == more {
        if l[0].tag in tags {
          DropTag(l[1..], tags, l[0].tag);
        } else {
          assert Keep(l, next) == Keep(l[1..], next);
        }
      }
    }
  }

  /** Under any common sequence of operations a set with more ways holds everything one with fewer does. */
  lemma {:induction false} RunIncludes(ways: nat, more: nat, ops: seq<Op>) returns (tags: set<nat>)
    requires ways <= more
    ensures Included(Run([], ways, ops), ways, Run([], more, ops), more, tags)
    ensures forall x :: x in Run([], ways, ops) ==> x in Run([], more, ops)
  {
    if ops == [] {
      tags := {};
    } else {
      tags := RunIncludes(ways, more, ops[..|ops| - 1]);
      tags := IncludedStep(Run([], ways, ops[..|ops| - 1]), ways, Run([], more, ops[..|ops| - 1]), more, tags,
        ops[|ops| - 1]);
    }
    var small, large := Run([], ways, ops), Run([], more, ops);
    forall x | x in small ensures x in large { KeepMembers(large, tags, x); }
  }

  // Ways and stamps.

  predicate IsValid(b: Block) { b.lastUsed > 0 }

  predicate Matches(b: Block, tag: nat) { IsValid(b) && b.data.tag == tag }

  /** `order` lists the valid ways, oldest stamp first; they hold the items of l. */
  ghost predicate Refines(ways: seq<Block>, l: seq<Item>, order: seq<nat>, count: nat) {
    && |order| == |l| && UniqueTags(l)
    && (forall i :: 0 <= i < |order| ==> order[i] < |ways| && IsValid(ways[order[i]]) && ways[order[i]].data == l[i])
    && (forall i, j :: 0 <= i < j < |order| ==> ways[order[i]].lastUsed < ways[order[j]].lastUsed)
    && (forall k: nat :: k < |ways| && IsValid(ways[k]) ==> k in order && ways[k].lastUsed <= count)
  }

  function FirstMatch(ways: seq<Block>, tag: nat, k: nat): (r: nat)
    requires k <= |ways|
    ensures k <= r <= |ways| && (r < |ways| ==> Matches(ways[r], tag))
    ensures forall j :: k <= j < r ==> !Matches(ways[j], tag)
    decreases |ways| - k
  {
    if k == |ways| || Matches(ways[k], tag) then k else FirstMatch(ways, tag, k + 1)
  }

  function CutOut<T>(s: seq<T>, p: nat): (r: seq<T>)
    requires p < |s|
    ensures |r| == |s| - 1 && forall i :: 0 <= i < |r| ==> r[i] == s[if i < p then i else i + 1]
  {
    s[..p] + s[p + 1..]
  }

  lemma {:induction false} WithoutCuts(l: seq<Item>, p: nat, tag: nat)
    requires UniqueTags(l) && p < |l| && l[p].tag == tag
    ensures Without(l, tag) == CutOut(l, p) && Entry(l, tag) == Some(l[p])
  {
    if p == 0 {
      WithoutLength(l[1..], tag);
      forall i | 0 <= i < |l[1..]| ensures l[1..][i].tag != tag { assert l[1..][i] == l[i + 1]; }
    } else {
      WithoutCuts(l[1..], p - 1, tag);
      assert CutOut(l, p) == [l[0]] + CutOut(l[1..], p - 1);
    }
  }

  lemma PlaceOf(ways: seq<Block>, l: seq<Item>, order: seq<nat>, count: nat, k: nat) returns (p: nat)
    requires Refines(ways, l, order, count) && k < |ways| && IsValid(ways[k])
    ensures p < |order| && order[p] == k && l[p] == ways[k].data
    ensures forall i :: 0 <= i < |order| && i != p ==> order[i] != k
  {
    p :| 0 <= p < |order| && order[p] == k;
  }

  lemma NoMatch(ways: seq<Block>, l: seq<Item>, order: seq<nat>, count: nat, tag: nat)
    requires Refines(ways, l, order, count) && forall j :: 0 <= j < |ways| ==> !Matches(ways[j], tag)
    ensures !Has(l, tag)
  {
    forall i | 0 <= i < |l| ensures l[i].tag != tag { assert !Matches(ways[order[i]], tag); }
  }

  /** Stamping a way that held item p, now with item x of the same tag or a new one, moves it to the end. */
  lemma StampRefines(ways: seq<Block>, l: seq<Item>, order: seq<nat>, count: nat, p: nat, x: Item)
    requires Refines(ways, l, order, count) && p < |l|
    requires forall i :: 0 <= i < |l| && i != p ==> l[i].tag != x.tag
    ensures Refines(ways[order[p] := Block(count + 1, x)], CutOut(l, p) + [x], CutOut(order, p) + [order[p]], count + 1)
  {
    var w, m, o := ways[order[p] := Block(count + 1, x)], CutOut(l, p) + [x], CutOut(order, p) + [order[p]];
    forall k: nat | k < |w| && IsValid(w[k]) ensures k in o && w[k].lastUsed <= count + 1 {
      if k != order[p] {
        var q := PlaceOf(ways, l, order, count, k);
        assert o[if q < p then q else q - 1] == k;
      } else {
        assert o[|o| - 1] == k;
      }
    }
  }

  lemma AppendRefines(ways: seq<Block>, l: seq<Item>, order: seq<nat>, count: nat, k: nat, x: Item)
    requires Refines(ways, l, order, count) && k < |ways| && !IsValid(ways[k]) && !Has(l, x.tag)
    ensures Refines(ways[k := Block(count + 1, x)], l + [x], order + [k], count + 1)
  {
    var w, o := ways[k := Block(count + 1, x)], order + [k];
    assert o[|order|] == k;
    forall j: nat | j < |w| && IsValid(w[j]) ensures j in o && w[j].lastUsed <= count + 1 {
      if j != k {
        var q := PlaceOf(ways, l, order, count, j);
        assert o[q] == j;
      }
    }
  }

  lemma RemoveRefines(ways: seq<Block>, l: seq<Item>, order: seq<nat>, count: nat, p: nat, b: Block)
    requires Refines(ways, l, order, count) && p < |l| && !IsValid(b)
    ensures Refines(ways[order[p] := b], CutOut(l, p), CutOut(order, p), count)
  {
    var w, o := ways[order[p] := b], CutOut(order, p);
    forall k: nat | k < |w| && IsValid(w[k]) ensures k in o && w[k].lastUsed <= count {
      var q := PlaceOf(ways, l, order, count, k);
      assert o[if q < p then q else q - 1] == k;
    }
  }

  // How full the set is.

  /** The list is as long as there are ways exactly when every way is valid. */
  lemma FullWhenAllValid(ways: seq<Block>, l: seq<Item>, order: seq<nat>, count: nat)
    requires Refines(ways, l, order, count)
    ensures |l| <= |ways| && (|l| == |ways| <==> forall k :: 0 <= k < |ways| ==> IsValid(ways[k]))
  {
    DistinctBelow(order, |ways|);
    if |l| == |ways| {
      forall k: nat | k < |ways| ensures IsValid(ways[k]) {
        assert k in order;
        var i :| 0 <= i < |order| && order[i] == k;
      }
    }
  }

  // Finding the way to fill.

  /** The comparison of match_and_check: invalid ways first, then those without the tag, then by age. */
  predicate Less(x: Block, y: Block, tag: nat) {
    !IsValid(x) || (IsValid(y) && ((x.data.tag != tag && y.data.tag == tag)
                                   || ((x.data.tag == tag) == (y.data.tag == tag) && x.lastUsed < y.lastUsed)))
  }

  ghost predicate Least(ways: seq<Block>, tag: nat, n: nat, m: nat) {
    && m < n <= |ways|
    && if exists j :: 0 <= j < n && !IsValid(ways[j]) then !IsValid(ways[m])
       else forall j :: 0 <= j < n ==> !Less(ways[j], ways[m], tag)
  }

  ghost predicate Greatest(ways: seq<Block>, tag: nat, n: nat, m: nat) {
    && m < n <= |ways|
    && forall j :: 0 <= j < n && IsValid(ways[j]) ==> IsValid(ways[m]) && !Less(ways[m], ways[j], tag)
  }

  /** std::minmax_element, which takes the elements in pairs. The comparison is no strict weak order when several
    * ways are invalid; still the result is an invalid way if there is one and otherwise the least, and a valid way
    * if there is one, the greatest of them. */
  method MinMaxElement(ways: seq<Block>, tag: nat) returns (min: nat, max: nat)
    requires ways != []
    ensures Least(ways, tag, |ways|, min) && Greatest(ways, tag, |ways|, max)
  {
    if |ways| == 1 { return 0, 0; }
    if Less(ways[1], ways[0], tag) { min, max := 1, 0; } else { min, max := 0, 1; }
    var first: nat := 2;
    while first < |ways|
      invariant first <= |ways| && Least(ways, tag, first, min) && Greatest(ways, tag, first, max)
    {
      var next := first + 1;
      if next == |ways| {
        if Less(ways[first], ways[min], tag) { min := first; }
        else if !Less(ways[first], ways[max], tag) { max := first; }
        return;
      }
      if Less(ways[next], ways[first], tag) {
        if Less(ways[next], ways[min], tag) { min := next; }
        if !Less(ways[first], ways[max], tag) { max := first; }
      } else {
        if Less(ways[first], ways[min], tag) { min := first; }
        if !Less(ways[next], ways[max], tag) { max := next; }
      }
      first := first + 2;
    }
  }

  lemma LaterRefines(ways: seq<Block>, l: seq<Item>, order: seq<nat>, count: nat, more: nat)
    requires Refines(ways, l, order, count) && count <= more
    ensures Refines(ways, l, order, more)
  {
  }

  /** The victim found by the loop: the tag's own way, else an invalid way, else the oldest. */
  lemma FillRefines(ways: seq<Block>, l: seq<Item>, order: seq<nat>, count: nat, x: Item, miss: nat, hit: nat)
    returns (next: seq<nat>)
    requires Refines(ways, l, order, count) && ways != []
    requires Least(ways, x.tag, |ways|, miss) && Greatest(ways, x.tag, |ways|, hit)
    ensures var k := if ways[hit].data.tag == x.tag then hit else miss;
            Refines(ways[k := Block(count + 1, x)], Fill(l, |ways|, x), next, count + 1)
  {
    FullWhenAllValid(ways, l, order, count);
    WithoutLength(l, x.tag);
    var k := if ways[hit].data.tag == x.tag then hit else miss;
    if exists j :: 0 <= j < |ways| && Matches(ways[j], x.tag) {
      var j :| 0 <= j < |ways| && Matches(ways[j], x.tag);
      assert Matches(ways[hit], x.tag);
      var p := PlaceOf(ways, l, order, count, hit);
      WithoutCuts(l, p, x.tag);
      StampRefines(ways, l, order, count, p, x);
      next := CutOut(order, p) + [order[p]];
    } else {
      NoMatch(ways, l, order, count, x.tag);
      next := MissRefines(ways, l, order, count, x, k, miss, hit);
    }
  }

  lemma MissRefines(ways: seq<Block>, l: seq<Item>, order: seq<nat>, count: nat, x: Item, k: nat, miss: nat, hit: nat)
    returns (next: seq<nat>)
    requires Refines(ways, l, order, count) && ways != [] && !Has(l, x.tag)
    requires forall j :: 0 <= j < |ways| ==> !Matches(ways[j], x.tag)
    requires Least(ways, x.tag, |ways|, miss) && Greatest(ways, x.tag, |ways|, hit)
    requires k == if ways[hit].data.tag == x.tag then hit else miss
    ensures Refines(ways[k := Block(count + 1, x)], Fill(l, |ways|, x), next, count + 1)
  {
    FullWhenAllValid(ways, l, order, count);
    WithoutLength(l, x.tag);
    if !IsValid(ways[k]) {
      AppendRefines(ways, l, order, count, k, x);
      next := order + [k];
    } else {
      assert k == miss;
      next := OldestRefines(ways, l, order, count, x, miss);
    }
  }

  lemma OldestRefines(ways: seq<Block>, l: seq<Item>, order: seq<nat>, count: nat, x: Item, miss: nat)
    returns (next: seq<nat>)
    requires Refines(ways, l, order, count) && miss < |ways| && |l| == |ways| && !Has(l, x.tag)
    requires forall j :: 0 <= j < |ways| ==>
          IsValid(ways[j]) && ways[j].data.tag != x.tag && !Less(ways[j], ways[miss], x.tag)
    ensures Refines(ways[miss := Block(count + 1, x)], l[1..] + [x], next, count + 1)
  {
    var p := PlaceOf(ways, l, order, count, miss);
    assert !Less(ways[order[0]], ways[miss], x.tag);
    assert p == 0;
    StampRefines(ways, l, order, count, 0, x);
    assert CutOut(l, 0) == l[1..];
    next := CutOut(order, 0) + [order[0]];
  }

  lemma HitRefines(ways: seq<Block>, l: seq<Item>, order: seq<nat>, count: nat, w: nat,
      tag: nat) returns (next: seq<nat>)
    requires Refines(ways, l, order, count) && w < |ways| && Matches(ways[w], tag)
    ensures Entry(l, tag) == Some(ways[w].data)
    ensures Refines(ways[w := Block(count + 1, ways[w].data)], Touch(l, tag), next, count + 1)
  {
    var p := PlaceOf(ways, l, order, count, w);
    WithoutCuts(l, p, tag);
    StampRefines(ways, l, order, count, p, ways[w].data);
    next := CutOut(order, p) + [w];
  }

  class LruTable {
    const numSets: nat
    const numWays: nat
    var accessCount: nat
    var sets: seq<seq<Block>>
    /** The items of each set, oldest first, and the ways they are in. */
    ghost var lists: seq<seq<Item>>
    ghost var orders: seq<seq<nat>>

    ghost predicate Valid()
      reads this
    {
      && numSets > 0 && |sets| == |lists| == |orders| == numSets
      && forall k :: 0 <= k < numSets ==> |sets[k]| == numWays && Refines(sets[k], lists[k], orders[k], accessCount)
    }

    constructor (numSets: nat, numWays: nat)
      requires numSets > 0
      ensures Valid() && this.numSets == numSets && this.numWays == numWays
      ensures forall k :: 0 <= k < numSets ==> lists[k] == []
    {
      this.numSets, this.numWays := numSets, numWays;
      accessCount := 0;
      sets := seq(numSets, _ => seq(numWays, _ => Block(0, Item(0, 0, 0))));
      lists, orders := seq(numSets, _ => []), seq(numSets, _ => []);
    }

    method Find(k: nat, tag: nat) returns (w: nat)
      requires Valid() && k < numSets
      ensures w == FirstMatch(sets[k], tag, 0)
    {
      w := 0;
      while w < |sets[k]| && !(sets[k][w].lastUsed > 0 && sets[k][w].data.tag == tag)
        invariant w <= |sets[k]| && FirstMatch(sets[k], tag, 0) == FirstMatch(sets[k], tag, w)
      {
        w := w + 1;
      }
    }

    ghost method Replace(k: nat, w: nat, b: Block, l: seq<Item>, order: seq<nat>, before: seq<seq<Block>>, count: nat)
      requires numSets > 0 && |before| == |lists| == |orders| == numSets && k < numSets && count <= accessCount
      requires forall j :: 0 <= j < numSets ==> |before[j]| == numWays && Refines(before[j], lists[j], orders[j], count)
      requires w < numWays && sets == before[k := before[k][w := b]]
          && Refines(before[k][w := b], l, order, accessCount)
      modifies `lists, `orders
      ensures Valid() && lists == old(lists)[k := l]
    {
      forall j | 0 <= j < numSets ensures Refines(before[j], lists[j], orders[j], accessCount) {
        LaterRefines(before[j], lists[j], orders[j], count, accessCount);
      }
      lists, orders := lists[k := l], orders[k := order];
    }

    method CheckHit(elem: Item) returns (thrown: bool, r: Option<Item>)
      requires Valid()
      modifies this
      ensures Valid() && thrown == (elem.index < 0)
      ensures if thrown then r == None && lists == old(lists)
              else r == Entry(old(lists)[elem.index % numSets], elem.tag)
                   && lists == old(lists)[elem.index % numSets := Touch(old(lists)[elem.index % numSets], elem.tag)]
    {
      hide Refines;
      if elem.index < 0 { return true, None; }
      var k := elem.index % numSets;
      var w := Find(k, elem.tag);
      EntryIs(lists[k], elem.tag);
      if w == |sets[k]| {
        NoMatch(sets[k], lists[k], orders[k], accessCount, elem.tag);
        assert lists == lists[k := lists[k]];
        return false, None;
      }
      ghost var before, count := sets, accessCount;
      ghost var next := HitRefines(sets[k], lists[k], orders[k], accessCount, w, elem.tag);
      hide Entry, Touch, FirstMatch, Without;
      accessCount := accessCount + 1;
      var block := Block(accessCount, sets[k][w].data);
      sets := sets[k := sets[k][w := block]];
      Replace(k, w, block, Touch(lists[k], elem.tag), next, before, count);
      return false, Some(block.data);
    }

    method FillElement(elem: Item) returns (thrown: bool)
      requires Valid()
      modifies this
      ensures Valid() && thrown == (elem.index < 0)
      ensures if thrown then lists == old(lists)
              else lists == old(lists)[elem.index % numSets := Fill(old(lists)[elem.index % numSets], numWays, elem)]
    {
      if elem.index < 0 { return true; }
      var k := elem.index % numSets;
      if sets[k] == [] {
        assert lists == lists[k := lists[k]];
        return false;
      }
      ghost var before, count := sets, accessCount;
      var miss, hit := MinMaxElement(sets[k], elem.tag);
      ghost var next := FillRefines(sets[k], lists[k], orders[k], accessCount, elem, miss, hit);
      accessCount := accessCount + 1;
      var w := if sets[k][hit].data.tag == elem.tag then hit else miss;
      sets := sets[k := sets[k][w := Block(accessCount, elem)]];
      Replace(k, w, Block(accessCount, elem), Fill(lists[k], numWays, elem), next, before, count);
      return false;
    }

    method InvalidateElement(elem: Item) returns (thrown: bool, r: Option<Item>)
      requires Valid()
      modifies this
      ensures Valid() && thrown == (elem.index < 0)
      ensures if thrown then r == None && lists == old(lists)
              else r == Entry(old(lists)[elem.index % numSets], elem.tag)
                   && lists == old(lists)[elem.index % numSets := Without(old(lists)[elem.index % numSets], elem.tag)]
    {
      if elem.index < 0 { return true, None; }
      var k := elem.index % numSets;
      var w := Find(k, elem.tag);
      EntryIs(lists[k], elem.tag);
      WithoutLength(lists[k], elem.tag);
      if w == |sets[k]| {
        NoMatch(sets[k], lists[k], orders[k], accessCount, elem.tag);
        assert lists == lists[k := lists[k]];
        return false, None;
      }
      ghost var before := sets;
      ghost var p := PlaceOf(sets[k], lists[k], orders[k], accessCount, w);
      WithoutCuts(lists[k], p, elem.tag);
      var empty := Block(0, Item(0, 0, 0));
      RemoveRefines(sets[k], lists[k], orders[k], accessCount, p, empty);
      r := Some(sets[k][w].data);
      sets := sets[k := sets[k][w := empty]];
      Replace(k, w, empty, Without(lists[k], elem.tag), CutOut(orders[k], p), before, accessCount);
      return false, r;
    }
  }
}
