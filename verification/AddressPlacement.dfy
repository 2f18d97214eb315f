/** Placing pages in the memory pool: scripts/page_owner_to_cxl_config.py lists page ranges, src/address_map.cc
  * loads and looks them up, src/vmem.cc gives the pages physical places. */
module AddressPlacement {
  import opened Options
  import opened Counting

  const PAGE: nat := 4096
  const POOL_OWNER: nat := 100
  const SPACE: nat := 0x1_0000_0000_0000_0000

  datatype Kind = Local | Remote | Pool

  datatype Range = Range(node: nat, start: nat, size: nat, kind: Kind, target: nat, poolOffset: nat)

  predicate Contains(r: Range, a: nat) { r.start <= a < (r.start + r.size) % SPACE }

  predicate Aligned(r: Range) { r.start % PAGE == 0 && r.size % PAGE == 0 }

  // Merging page numbers into ranges.

  datatype PageRange = PageRange(first: nat, last: nat)

  predicate Covers(r: PageRange, p: nat) { r.first <= p <= r.last }

  ghost predicate Covered(ranges: seq<PageRange>, p: nat) { exists k :: 0 <= k < |ranges| && Covers(ranges[k], p) }

  predicate Increasing(s: seq<nat>) { forall i, j :: 0 <= i < j < |s| ==> s[i] < s[j] }

  /** In order, nonempty, and with at least one page between one range and the next. */
  predicate Apart(ranges: seq<PageRange>) {
    && (forall k :: 0 <= k < |ranges| ==> ranges[k].first <= ranges[k].last)
    && (forall j, k :: 0 <= j < k < |ranges| ==> ranges[j].last + 1 < ranges[k].first)
  }

  /** sorted(set(pages)) */
  method SortedSet(pages: seq<nat>) returns (s: seq<nat>)
    ensures Increasing(s) && forall p :: p in s <==> p in pages
  {
    s := [];
    for k := 0 to |pages|
      invariant Increasing(s) && forall p :: p in s <==> p in pages[..k]
    {
      assert pages[..k + 1] == pages[..k] + [pages[k]];
      s := InsertPage(s, pages[k]);
    }
    assert pages[..|pages|] == pages;
  }

  method InsertPage(s: seq<nat>, p: nat) returns (t: seq<nat>)
    requires Increasing(s)
    ensures Increasing(t) && forall x :: x in t <==> x in s || x == p
  {
    var i := 0;
    while i < |s| && s[i] < p
      invariant i <= |s| && forall j :: 0 <= j < i ==> s[j] < p
    {
      i := i + 1;
    }
    if i < |s| && s[i] == p { return s; }
    t := s[..i] + [p] + s[i..];
    InsertedMembers(s, i, p);
    InsertedIncreasing(s, i, p);
  }

  lemma InsertedMembers(s: seq<nat>, i: nat, p: nat)
    requires i <= |s|
    ensures forall x :: x in s[..i] + [p] + s[i..] <==> x in s || x == p
  {
    assert s == s[..i] + s[i..];
  }

  lemma InsertedIncreasing(s: seq<nat>, i: nat, p: nat)
    requires Increasing(s) && i <= |s| && (i > 0 ==> s[i - 1] < p) && (i < |s| ==> p < s[i])
    ensures Increasing(s[..i] + [p] + s[i..])
  {
  }

  /** The ranges hold exactly the listed pages, and no two could be joined. */
  method MergePages(pages: seq<nat>) returns (ranges: seq<PageRange>)
    ensures Apart(ranges) && forall p: nat :: Covered(ranges, p) <==> p in pages
  {
    var s := SortedSet(pages);
    if s == [] {
      assert forall p: nat :: p !in pages by { forall p: nat ensures p !in pages { assert p !in s; } }
      return [];
    }
    ranges := [];
    var start, prev := s[0], s[0];
    for k := 1 to |s|
      invariant prev == s[k - 1] && Run(s, k, start, prev, ranges)
    {
      if s[k] == prev + 1 {
        RunOn(s, k, start, prev, ranges);
        prev := s[k];
      } else {
        RunEnds(s, k, start, prev, ranges);
        ranges := ranges + [PageRange(start, prev)];
        start := s[k];
        prev := s[k];
      }
    }
    ranges := ranges + [PageRange(start, prev)];
    assert s[..|s|] == s;
    forall p: nat ensures Covered(ranges, p) <==> p in pages { assert p in s <==> p in pages; }
  }

  /** After k pages: closed ranges and one still open hold exactly those pages. */
  ghost predicate Run(s: seq<nat>, k: nat, start: nat, prev: nat, ranges: seq<PageRange>) {
    && 1 <= k <= |s| && start <= prev && Apart(ranges + [PageRange(start, prev)])
    && forall p: nat :: Covered(ranges + [PageRange(start, prev)], p) <==> p in s[..k]
  }

  lemma CoveredMore(ranges: seq<PageRange>, r: PageRange, p: nat)
    ensures Covered(ranges + [r], p) <==> Covered(ranges, p) || Covers(r, p)
  {
    var more := ranges + [r];
    if Covered(ranges, p) {
      var k :| 0 <= k < |ranges| && Covers(ranges[k], p);
      assert Covers(more[k], p);
    }
    if Covers(r, p) { assert Covers(more[|ranges|], p); }
  }

  lemma RunOn(s: seq<nat>, k: nat, start: nat, prev: nat, ranges: seq<PageRange>)
    requires Increasing(s) && k < |s| && Run(s, k, start, prev, ranges) && s[k] == prev + 1
    ensures Run(s, k + 1, start, prev + 1, ranges)
  {
    var longer := ranges + [PageRange(start, prev + 1)];
    assert s[..k + 1] == s[..k] + [s[k]];
    forall p: nat ensures Covered(longer, p) <==> p in s[..k + 1] {
      CoveredMore(ranges, PageRange(start, prev), p);
      CoveredMore(ranges, PageRange(start, prev + 1), p);
      assert p in s[..k + 1] <==> p in s[..k] || p == prev + 1;
    }
    ApartLast(ranges, PageRange(start, prev));
    ApartLast(ranges, PageRange(start, prev + 1));
  }

  lemma ApartLast(ranges: seq<PageRange>, r: PageRange)
    ensures Apart(ranges + [r])
            <==> Apart(ranges) && r.first <= r.last && forall j :: 0 <= j < |ranges| ==> ranges[j].last + 1 < r.first
  {
    var all := ranges + [r];
    assert all[|ranges|] == r && forall j :: 0 <= j < |ranges| ==> all[j] == ranges[j];
  }

  lemma RunEnds(s: seq<nat>, k: nat, start: nat, prev: nat, ranges: seq<PageRange>)
    requires Increasing(s) && k < |s| && Run(s, k, start, prev, ranges) && prev == s[k - 1] && s[k] != prev + 1
    ensures Run(s, k + 1, s[k], s[k], ranges + [PageRange(start, prev)])
  {
    var closed := ranges + [PageRange(start, prev)];
    assert s[k - 1] < s[k];
    forall p: nat ensures Covered(closed + [PageRange(s[k], s[k])], p) <==> p in s[..k + 1] {
      CoveredMore(closed, PageRange(s[k], s[k]), p);
      assert s[..k + 1] == s[..k] + [s[k]];
    }
    ApartLast(ranges, PageRange(start, prev));
    ApartLast(closed, PageRange(s[k], s[k]));
  }

  /** No other list of ranges holding exactly the same pages is shorter. */
  lemma FewestRanges(ranges: seq<PageRange>, other: seq<PageRange>)
    requires Apart(ranges)
    requires forall p: nat :: Covered(ranges, p) <==> Covered(other, p)
    ensures |ranges| <= |other|
  {
    var places: seq<nat> := [];
    for k := 0 to |ranges|
      invariant |places| == k
      invariant forall j :: 0 <= j < k ==> places[j] < |other| && other[places[j]].first == ranges[j].first
    {
      var i := StartsSomewhere(ranges, other, k);
      places := places + [i];
    }
    forall i, j | 0 <= i < j < |places| ensures places[i] != places[j] {
      assert ranges[i].last + 1 < ranges[j].first;
    }
    DistinctBelow(places, |other|);
  }

  lemma StartsSomewhere(ranges: seq<PageRange>, other: seq<PageRange>, k: nat) returns (i: nat)
    requires Apart(ranges) && k < |ranges|
    requires forall p: nat :: Covered(ranges, p) <==> Covered(other, p)
    ensures i < |other| && other[i].first == ranges[k].first
  {
    var p := ranges[k].first;
    assert Covers(ranges[k], p);
    assert Covered(ranges, p);
    i :| 0 <= i < |other| && Covers(other[i], p);
    GapBefore(ranges, k);
    assert p > 0 ==> !Covered(other, p - 1);
    assert p > 0 ==> !Covers(other[i], p - 1);
  }

  lemma GapBefore(ranges: seq<PageRange>, k: nat)
    requires Apart(ranges) && k < |ranges|
    ensures ranges[k].first > 0 ==> !Covered(ranges, ranges[k].first - 1)
  {
    forall j | 0 <= j < |ranges| ensures ranges[k].first > 0 ==> !Covers(ranges[j], ranges[k].first - 1) {
      assert j < k ==> ranges[j].last + 1 < ranges[k].first;
      assert k < j ==> ranges[k].last + 1 < ranges[j].first;
    }
  }

  // The table of ranges of one node.

  predicate Sorted(t: seq<Range>) { forall i, j :: 0 <= i < j < |t| ==> t[i].start <= t[j].start }

  function PoolBytes(t: seq<Range>): nat {
    if t == [] then 0
    else PoolBytes(t[..|t| - 1]) + if t[|t| - 1].kind == Pool then t[|t| - 1].size else 0
  }

  /** Each pool range knows how many pool bytes lie in the ranges before it. */
  ghost predicate Offsets(t: seq<Range>) {
    forall i :: 0 <= i < |t| && t[i].kind == Pool ==> t[i].poolOffset == PoolBytes(t[..i])
  }

  /** Page-aligned, nonempty, not wrapping and not overlapping. */
  ghost predicate Proper(t: seq<Range>) {
    && (forall i :: 0 <= i < |t| ==> Aligned(t[i]) && t[i].size > 0 && t[i].start + t[i].size < SPACE)
    && (forall i, j :: 0 <= i < j < |t| ==> t[i].start + t[i].size <= t[j].start)
  }

  /** How many ranges start at or below an address, in a sorted table. */
  function Starts(t: seq<Range>, a: nat): (n: nat)
    ensures n <= |t|
  {
    if t == [] || t[|t| - 1].start <= a then |t| else Starts(t[..|t| - 1], a)
  }

  lemma {:induction false} StartsSplit(t: seq<Range>, a: nat, n: nat)
    requires n <= |t| && (forall i :: 0 <= i < n ==> t[i].start <= a) && (forall i :: n <= i < |t| ==> a < t[i].start)
    ensures Starts(t, a) == n
  {
    if n < |t| { StartsSplit(t[..|t| - 1], a, n); }
  }

  function LookupIn(t: seq<Range>, a: nat): Option<Range> {
    var n := Starts(t, a);
    if n == 0 || !Contains(t[n - 1], a) then None else Some(t[n - 1])
  }

  lemma {:induction false} StartsOf(t: seq<Range>, a: nat) returns (n: nat)
    requires Sorted(t) || Proper(t)
    ensures n == Starts(t, a) && n <= |t|
    ensures (forall i :: 0 <= i < n ==> t[i].start <= a) && (forall i :: n <= i < |t| ==> a < t[i].start)
  {
    n := Starts(t, a);
    if t != [] {
      if t[|t| - 1].start > a { var m := StartsOf(t[..|t| - 1], a); }
    }
  }

  /** Starts and sizes are 64-bit words. */
  predicate Words(t: seq<Range>) { forall i :: 0 <= i < |t| ==> t[i].start < SPACE && t[i].size < SPACE }

  /** The end of a range; one that wraps round ends where it starts, because it contains nothing. */
  function Reach(r: Range): nat { if r.start + r.size < SPACE then r.start + r.size else r.start }

  lemma ContainsToReach(r: Range, a: nat)
    requires r.start < SPACE && r.size < SPACE
    ensures Contains(r, a) <==> r.start <= a < Reach(r)
  {
  }

  ghost predicate Listed(t: seq<Range>, a: nat) { exists i :: 0 <= i < |t| && Contains(t[i], a) }

  /** No range reaches beyond a later one into a gap: it does not reach further, or the next range starts in time. */
  predicate NoneHidden(t: seq<Range>) { forall i: nat, j: nat :: i < j < |t| ==> Unhidden(t, i, j) }

  predicate Unhidden(t: seq<Range>, i: nat, j: nat)
    requires i < j < |t|
  {
    Reach(t[i]) <= Reach(t[j]) || (j + 1 < |t| && t[j + 1].start <= Reach(t[j]))
  }

  /** Every address in some range is found in one, exactly when no range is hidden. Ranges may be empty, wrap round or
    * overlap. */
  lemma LookupServesExactly(t: seq<Range>)
    requires Sorted(t) && Words(t)
    ensures (forall a: nat :: Listed(t, a) ==> LookupIn(t, a).Some?) <==> NoneHidden(t)
  {
    hide Contains, LookupIn, Sorted, Words, Reach, Unhidden, Uncut;
    if NoneHidden(t) {
      hide NoneHidden;
      forall a: nat, i: nat | 0 <= i < |t| && Contains(t[i], a)
        ensures LookupIn(t, a).Some?
      {
        FoundUnlessHidden(t, i, a);
      }
    } else {
      var i: nat, j: nat :| i < j < |t| && !Unhidden(t, i, j);
      HiddenAt(t, i, j);
      assert Listed(t, Reach(t[j]));
    }
  }

  lemma FoundUnlessHidden(t: seq<Range>, i: nat, a: nat)
    requires Sorted(t) && Words(t) && NoneHidden(t) && i < |t| && Contains(t[i], a)
    ensures LookupIn(t, a).Some?
  {
    var n := StartsOf(t, a);
    var j := n - 1;
    ContainsToReach(t[i], a);
    ContainsToReach(t[j], a);
    if i < j { assert Unhidden(t, i, j); }
  }

  lemma HiddenAt(t: seq<Range>, i: nat, j: nat)
    requires Sorted(t) && Words(t) && i < j < |t| && !Unhidden(t, i, j)
    ensures Contains(t[i], Reach(t[j])) && LookupIn(t, Reach(t[j])).None?
  {
    var a := Reach(t[j]);
    StartsSplit(t, a, j + 1);
    ContainsToReach(t[i], a);
    ContainsToReach(t[j], a);
  }

  /** Where a range starts before an earlier one ends, another starts at the same place, or the two are alike. */
  predicate NoneCut(t: seq<Range>) { forall i: nat, j: nat :: i < j < |t| ==> Uncut(t, i, j) }

  predicate Uncut(t: seq<Range>, i: nat, j: nat)
    requires i < j < |t|
  {
    Reach(t[i]) <= t[j].start || t[i] == t[j] || (j + 1 < |t| && t[j + 1].start == t[j].start)
  }

  /** What is found is the range searched for: looking up agrees with a scan of all ranges, exactly when none is cut. */
  lemma LookupIsScanExactly(t: seq<Range>)
    requires Sorted(t) && Words(t)
    ensures (forall a: nat, i :: 0 <= i < |t| ==> (Contains(t[i], a) <==> LookupIn(t, a) == Some(t[i]))) <==> NoneCut(t)
  {
    hide Contains, LookupIn, Sorted, Words, Reach, Unhidden, Uncut;
    if NoneCut(t) {
      hide NoneCut;
      forall a: nat, i: nat | i < |t| ensures Contains(t[i], a) <==> LookupIn(t, a) == Some(t[i]) {
        FoundUnlessCut(t, i, a);
      }
    } else {
      var i: nat, j: nat :| i < j < |t| && !Uncut(t, i, j);
      CutAt(t, i, j);
    }
  }

  lemma CutAt(t: seq<Range>, i: nat, j: nat)
    requires Sorted(t) && Words(t) && i < j < |t| && !Uncut(t, i, j)
    ensures Contains(t[i], t[j].start) && LookupIn(t, t[j].start) != Some(t[i])
  {
    ContainsToReach(t[i], t[j].start);
    StartsSplit(t, t[j].start, j + 1);
  }

  lemma FoundUnlessCut(t: seq<Range>, i: nat, a: nat)
    requires Sorted(t) && Words(t) && NoneCut(t) && i < |t|
    ensures Contains(t[i], a) <==> LookupIn(t, a) == Some(t[i])
  {
    var n := StartsOf(t, a);
    ContainsToReach(t[i], a);
    if i + 1 < n { assert Uncut(t, i, n - 1); }
  }

  /** Proper ranges are not cut. */
  lemma LookupIsScan(t: seq<Range>, a: nat)
    requires Proper(t)
    ensures forall i :: 0 <= i < |t| ==> (Contains(t[i], a) <==> LookupIn(t, a) == Some(t[i]))
    ensures LookupIn(t, a).Some? ==> LookupIn(t, a).value in t
  {
    assert NoneCut(t) && Sorted(t) && Words(t);
    forall i | 0 <= i < |t| ensures Contains(t[i], a) <==> LookupIn(t, a) == Some(t[i]) { FoundUnlessCut(t, i, a); }
  }

  /** Two ranges that overlap and hide nothing, and one hidden in part by a range with which it shares no address. */
  lemma OverlapHides()
    ensures var outer, inner := Range(0, 0, 4 * PAGE, Pool, 0, 0), Range(0, PAGE, PAGE, Local, 0, 0);
            Sorted([outer, inner]) && Contains(outer, 3 * PAGE) && LookupIn([outer, inner], 3 * PAGE) == None
    ensures var outer, empty := Range(0, 0, 4 * PAGE, Pool, 0, 0), Range(0, PAGE, 0, Local, 0, 0);
            Sorted([outer, empty]) && Contains(outer, PAGE) && LookupIn([outer, empty], PAGE) == None
    ensures var low, high := Range(0, 0, 2 * PAGE, Pool, 0, 0), Range(0, PAGE, 2 * PAGE, Local, 0, 0);
            Contains(low, PAGE) && Contains(high, PAGE) && NoneHidden([low, high])
  {
    StartsSplit([Range(0, 0, 4 * PAGE, Pool, 0, 0), Range(0, PAGE, PAGE, Local, 0, 0)], 3 * PAGE, 2);
    StartsSplit([Range(0, 0, 4 * PAGE, Pool, 0, 0), Range(0, PAGE, 0, Local, 0, 0)], PAGE, 2);
  }

  // Pages.

  function FirstPage(r: Range): nat { r.start / PAGE }

  function Pages(r: Range): nat { r.size / PAGE }

  ghost predicate PoolPage(t: seq<Range>, v: nat) {
    exists i :: 0 <= i < |t| && t[i].kind == Pool && Contains(t[i], v * PAGE)
  }

  /** The number of pool pages below a page. */
  ghost function PoolPagesBelow(t: seq<Range>, v: nat): nat {
    if v == 0 then 0 else PoolPagesBelow(t, v - 1) + if PoolPage(t, v - 1) then 1 else 0
  }

  /** How many pages of a range lie below v. */
  function Clip(r: Range, v: nat): nat {
    if v <= FirstPage(r) then 0 else if v - FirstPage(r) < Pages(r) then v - FirstPage(r) else Pages(r)
  }

  function ClipSum(t: seq<Range>, v: nat): nat {
    if t == [] then 0 else ClipSum(t[..|t| - 1], v) + if t[|t| - 1].kind == Pool then Clip(t[|t| - 1], v) else 0
  }

  lemma PagesOf(r: Range)
    requires Aligned(r)
    ensures r.start == FirstPage(r) * PAGE && r.size == Pages(r) * PAGE
  {
  }

  lemma ContainsPage(r: Range, v: nat)
    requires Aligned(r) && r.start + r.size < SPACE
    ensures Contains(r, v * PAGE) <==> FirstPage(r) <= v < FirstPage(r) + Pages(r)
  {
    PagesOf(r);
  }

  lemma {:induction false} ClipStep(t: seq<Range>, v: nat)
    requires Proper(t)
    ensures ClipSum(t, v + 1) == ClipSum(t, v) + if PoolPage(t, v) then 1 else 0
  {
    if t != [] {
      ClipStep(t[..|t| - 1], v);
      PoolPageLast(t, v);
      ClipOne(t[|t| - 1], v);
      hide PoolPage, Contains, Clip;
    }
  }

  lemma ClipOne(r: Range, v: nat)
    requires Aligned(r) && r.size > 0 && r.start + r.size < SPACE
    ensures Clip(r, v + 1) == Clip(r, v) + if Contains(r, v * PAGE) then 1 else 0
  {
    ContainsPage(r, v);
  }

  /** The last range holds a page that no range before it holds, or it does not hold it. */
  lemma PoolPageLast(t: seq<Range>, v: nat)
    requires Proper(t) && t != []
    ensures var most, r := t[..|t| - 1], t[|t| - 1];
            && !(PoolPage(most, v) && r.kind == Pool && Contains(r, v * PAGE))
            && (PoolPage(t, v) <==> PoolPage(most, v) || (r.kind == Pool && Contains(r, v * PAGE)))
  {
    if Contains(t[|t| - 1], v * PAGE) { NoneBefore(t, v); }
    PoolPageSplit(t, v);
  }

  lemma NoneBefore(t: seq<Range>, v: nat)
    requires Proper(t) && t != [] && Contains(t[|t| - 1], v * PAGE)
    ensures !PoolPage(t[..|t| - 1], v)
  {
    var most := t[..|t| - 1];
    forall i | 0 <= i < |most| ensures !Contains(most[i], v * PAGE) {
      assert t[i].start + t[i].size <= t[|t| - 1].start;
    }
  }

  lemma PoolPageSplit(t: seq<Range>, v: nat)
    requires t != []
    ensures PoolPage(t, v) <==> PoolPage(t[..|t| - 1], v) || (t[|t| - 1].kind == Pool && Contains(t[|t| - 1], v * PAGE))
  {
    hide Contains;
    var most := t[..|t| - 1];
    if PoolPage(most, v) {
      var i :| 0 <= i < |most| && most[i].kind == Pool && Contains(most[i], v * PAGE);
      assert t[i] == most[i];
    }
    if PoolPage(t, v) {
      var i :| 0 <= i < |t| && t[i].kind == Pool && Contains(t[i], v * PAGE);
      assert i < |most| ==> most[i] == t[i];
    }
  }

  lemma {:induction false} ClipZero(t: seq<Range>)
    ensures ClipSum(t, 0) == 0
  {
    if t != [] { ClipZero(t[..|t| - 1]); }
  }

  lemma {:induction false} RankIsClipSum(t: seq<Range>, v: nat)
    requires Proper(t)
    ensures PoolPagesBelow(t, v) == ClipSum(t, v)
  {
    if v == 0 {
      ClipZero(t);
    } else {
      RankIsClipSum(t, v - 1);
      ClipStep(t, v - 1);
    }
  }

  /** Ranges that end at or below page v contribute all their pages, ranges that start there or above none. */
  lemma {:induction false} ClipFull(t: seq<Range>, v: nat)
    requires Proper(t) && forall i :: 0 <= i < |t| ==> FirstPage(t[i]) + Pages(t[i]) <= v
    ensures ClipSum(t, v) * PAGE == PoolBytes(t)
  {
    if t != [] {
      ClipFull(t[..|t| - 1], v);
      PagesOf(t[|t| - 1]);
    }
  }

  lemma {:induction false} ClipAppend(t: seq<Range>, i: nat, v: nat)
    requires i <= |t| && forall j :: i <= j < |t| ==> v <= FirstPage(t[j])
    ensures ClipSum(t, v) == ClipSum(t[..i], v)
  {
    if i < |t| {
      ClipAppend(t[..|t| - 1], i, v);
      assert t[..|t| - 1][..i] == t[..i];
    } else {
      assert t[..i] == t;
    }
  }

  /** The place va_to_pa computes for a page of a pool range. */
  function PoolPlace(base: nat, r: Range, v: nat): int { base + r.poolOffset / PAGE + (v - FirstPage(r)) }

  /** A pool page's place is the base plus the number of pool pages below it. */
  lemma PlaceIsRank(t: seq<Range>, base: nat, i: nat, v: nat)
    requires Proper(t) && Offsets(t) && i < |t| && t[i].kind == Pool && Contains(t[i], v * PAGE)
    ensures PoolPlace(base, t[i], v) == base + PoolPagesBelow(t, v)
  {
    var r := t[i];
    RankIsClipSum(t, v);
    ContainsPage(r, v);
    forall j | i < j < |t| ensures v <= FirstPage(t[j]) { RangesInOrder(t, i, j); }
    ClipAppend(t, i + 1, v);
    assert t[..i + 1][..i] == t[..i];
    forall j | 0 <= j < i ensures FirstPage(t[j]) + Pages(t[j]) <= v { RangesInOrder(t, j, i); }
    ClipFull(t[..i], v);
    assert r.poolOffset == ClipSum(t[..i], v) * PAGE;
  }

  lemma RangesInOrder(t: seq<Range>, i: nat, j: nat)
    requires Proper(t) && i < j < |t|
    ensures FirstPage(t[i]) + Pages(t[i]) <= FirstPage(t[j])
  {
    PagesOf(t[i]);
    PagesOf(t[j]);
  }

  lemma {:induction false} RankGrows(t: seq<Range>, v: nat, w: nat)
    requires v <= w
    ensures PoolPagesBelow(t, v) <= PoolPagesBelow(t, w)
    ensures v < w && PoolPage(t, v) ==> PoolPagesBelow(t, v) < PoolPagesBelow(t, w)
  {
    if v < w { RankGrows(t, v, w - 1); }
  }

  /** Different pool pages have different places. */
  lemma PlacesDiffer(t: seq<Range>, v: nat, w: nat)
    requires PoolPage(t, v) && PoolPage(t, w) && v != w
    ensures PoolPagesBelow(t, v) != PoolPagesBelow(t, w)
  {
    RankGrows(t, if v < w then v else w, if v < w then w else v);
  }

  /** Every place of the window belongs to a pool page. */
  lemma {:induction false} PlacesFill(t: seq<Range>, end: nat, k: nat) returns (v: nat)
    requires k < PoolPagesBelow(t, end)
    ensures v < end && PoolPage(t, v) && PoolPagesBelow(t, v) == k
  {
    if PoolPagesBelow(t, end - 1) > k { v := PlacesFill(t, end - 1, k); } else { v := end - 1; }
  }

  const LAST_PAGE: nat := SPACE / PAGE

  /** No page of the list of free pages is in the window of the pool. */
  ghost predicate WindowFree(t: seq<Range>, base: nat, order: seq<nat>) {
    forall k :: 0 <= k < |order| ==> order[k] < base || base + PoolPagesBelow(t, LAST_PAGE) <= order[k]
  }

  lemma PoolPageInSpace(t: seq<Range>, v: nat)
    requires Proper(t) && PoolPage(t, v)
    ensures v < LAST_PAGE
  {
  }

  /** The places of pool pages are clear of the list exactly when the list leaves the window free. */
  lemma PlacesClearExactly(t: seq<Range>, base: nat, order: seq<nat>)
    requires Proper(t)
    ensures (forall v: nat :: PoolPage(t, v) ==> base + PoolPagesBelow(t, v) !in order) <==> WindowFree(t, base, order)
  {
    if WindowFree(t, base, order) {
      forall v: nat | PoolPage(t, v) ensures base + PoolPagesBelow(t, v) !in order {
        PoolPageInSpace(t, v);
        RankGrows(t, v, LAST_PAGE);
      }
    } else {
      var k :| 0 <= k < |order| && base <= order[k] < base + PoolPagesBelow(t, LAST_PAGE);
      var v := PlacesFill(t, LAST_PAGE, order[k] - base);
    }
  }

  // The configuration written for a node, loaded and used.

  function PoolRange(node: nat, r: PageRange): Range
    requires r.first <= r.last
  {
    Range(node, r.first * PAGE, (r.last - r.first + 1) * PAGE, Pool, POOL_OWNER, 0)
  }

  function ConfigLines(node: nat, ranges: seq<PageRange>): (lines: seq<Range>)
    requires Apart(ranges)
    ensures |lines| == |ranges|
  {
    seq(|ranges|, k requires 0 <= k < |ranges| => PoolRange(node, ranges[k]))
  }

  /** What loading makes of the lines of a node: sorted, and with the pool offsets filled in. */
  ghost predicate Loaded(t: seq<Range>, lines: seq<Range>) {
    && Sorted(t) && Offsets(t) && multiset(Plain(t)) == multiset(Plain(lines))
  }

  function Plain(t: seq<Range>): (r: seq<Range>)
    ensures |r| == |t|
  {
    seq(|t|, k requires 0 <= k < |t| => t[k].(poolOffset := 0))
  }

  /** The written lines load into a proper table. */
  lemma LinesLoadProper(node: nat, ranges: seq<PageRange>, t: seq<Range>)
    requires Apart(ranges) && Loaded(t, ConfigLines(node, ranges))
    requires forall k :: 0 <= k < |ranges| ==> (ranges[k].last + 1) * PAGE < SPACE
    ensures Proper(t) && Plain(t) == ConfigLines(node, ranges)
  {
    var lines := ConfigLines(node, ranges);
    assert Plain(lines) == lines;
    assert StrictlySorted(lines) && Sorted(Plain(t));
    SortedUnique(Plain(t), lines);
    PlainIsProper(node, ranges, t);
  }

  lemma PlainIsProper(node: nat, ranges: seq<PageRange>, t: seq<Range>)
    requires Apart(ranges) && Plain(t) == ConfigLines(node, ranges)
    requires forall k :: 0 <= k < |ranges| ==> (ranges[k].last + 1) * PAGE < SPACE
    ensures Proper(t)
  {
    forall i | 0 <= i < |t|
      ensures t[i].start == ranges[i].first * PAGE && t[i].size == (ranges[i].last - ranges[i].first + 1) * PAGE
    {
      assert Plain(t)[i] == PoolRange(node, ranges[i]);
    }
    assert forall i, j :: 0 <= i < j < |t| ==> ranges[i].last + 1 < ranges[j].first;
  }

  predicate StrictlySorted(t: seq<Range>) { forall i, j :: 0 <= i < j < |t| ==> t[i].start < t[j].start }

  lemma {:induction false} SortedUnique(a: seq<Range>, b: seq<Range>)
    requires multiset(a) == multiset(b) && Sorted(a) && StrictlySorted(b)
    ensures a == b
  {
    assert |a| == |multiset(a)| == |b|;
    if b != [] {
      LastSame(a, b);
      var last := |b| - 1;
      WithoutLast(a, b);
      SortedUnique(a[..last], b[..last]);
      assert a == a[..last] + [a[last]] && b == b[..last] + [b[last]];
    }
  }

  lemma LastSame(a: seq<Range>, b: seq<Range>)
    requires multiset(a) == multiset(b) && Sorted(a) && StrictlySorted(b) && |a| == |b| > 0
    ensures a[|a| - 1] == b[|b| - 1]
  {
    var last := |b| - 1;
    assert b[last] in multiset(a) && a[last] in multiset(b);
    var i :| 0 <= i < |a| && a[i] == b[last];
    var j :| 0 <= j < |b| && b[j] == a[last];
    assert b[last].start <= a[last].start;
    assert forall k :: 0 <= k < last ==> b[k].start < b[last].start;
  }

  lemma WithoutLast(a: seq<Range>, b: seq<Range>)
    requires multiset(a) == multiset(b) && |a| == |b| > 0 && a[|a| - 1] == b[|b| - 1]
    ensures multiset(a[..|a| - 1]) == multiset(b[..|b| - 1])
  {
    var last := |b| - 1;
    assert a == a[..last] + [a[last]] && b == b[..last] + [b[last]];
    assert multiset(a[..last]) == multiset(a) - multiset{a[last]};
    assert multiset(b[..last]) == multiset(b) - multiset{b[last]};
  }

  /** A page is a pool page of the loaded table exactly when it was listed; its place is the base plus the number of
    * listed pages below it. */
  lemma ListedPagesPacked(node: nat, pages: seq<nat>, ranges: seq<PageRange>, t: seq<Range>, base: nat, v: nat)
    requires Apart(ranges) && forall p: nat :: Covered(ranges, p) <==> p in pages
    requires Loaded(t, ConfigLines(node, ranges))
    requires forall k :: 0 <= k < |ranges| ==> (ranges[k].last + 1) * PAGE < SPACE
    ensures PoolPage(t, v) <==> v in pages
    ensures PoolPagesBelow(t, v) == ListedBelow(pages, v)
    ensures v in pages ==>
      var r := LookupIn(t, v * PAGE);
      r.Some? && r.value.kind == Pool && PoolPlace(base, r.value, v) == base + ListedBelow(pages, v)
  {
    LinesLoadProper(node, ranges, t);
    LinesCover(node, ranges, t, v);
    RankIsListed(node, pages, ranges, t, v);
    if v in pages {
      var i :| 0 <= i < |t| && t[i].kind == Pool && Contains(t[i], v * PAGE);
      LookupIsScan(t, v * PAGE);
      PlaceIsRank(t, base, i, v);
    }
  }

  function ListedBelow(pages: seq<nat>, v: nat): nat {
    if v == 0 then 0 else ListedBelow(pages, v - 1) + if v - 1 in pages then 1 else 0
  }

  lemma LinesCover(node: nat, ranges: seq<PageRange>, t: seq<Range>, v: nat)
    requires Apart(ranges) && Proper(t) && Plain(t) == ConfigLines(node, ranges)
    ensures PoolPage(t, v) <==> Covered(ranges, v)
  {
    forall k | 0 <= k < |t| ensures t[k].kind == Pool && (Contains(t[k], v * PAGE) <==> Covers(ranges[k], v)) {
      assert Plain(t)[k] == PoolRange(node, ranges[k]);
      ContainsPage(t[k], v);
    }
    if PoolPage(t, v) {
      var i :| 0 <= i < |t| && t[i].kind == Pool && Contains(t[i], v * PAGE);
      assert Covers(ranges[i], v);
    }
    if Covered(ranges, v) {
      var i :| 0 <= i < |ranges| && Covers(ranges[i], v);
      assert Contains(t[i], v * PAGE);
    }
  }

  lemma {:induction false} RankIsListed(node: nat, pages: seq<nat>, ranges: seq<PageRange>, t: seq<Range>, v: nat)
    requires Apart(ranges) && Proper(t) && Plain(t) == ConfigLines(node, ranges)
    requires forall p: nat :: Covered(ranges, p) <==> p in pages
    ensures PoolPagesBelow(t, v) == ListedBelow(pages, v)
  {
    if v > 0 {
      RankIsListed(node, pages, ranges, t, v - 1);
      LinesCover(node, ranges, t, v - 1);
    }
  }

  /** The lines of one node, in the order of the file. */
  function OfNode(lines: seq<Range>, node: nat): seq<Range> {
    if lines == [] then []
    else OfNode(lines[..|lines| - 1], node) + if lines[|lines| - 1].node == node then [lines[|lines| - 1]] else []
  }

  lemma {:induction false} NodeLines(lines: seq<Range>, node: nat)
    ensures forall x :: x in OfNode(lines, node) ==> x in lines && x.node == node
  {
    if lines != [] { NodeLines(lines[..|lines| - 1], node); }
  }

  class AddressMap {
    /** The ranges of each node. */
    var tables: seq<seq<Range>>

    function Table(node: nat): seq<Range>
      reads this
    {
      if node < |tables| then tables[node] else []
    }

    /** std::sort by start. */
    static method SortByStart(lines: seq<Range>) returns (t: seq<Range>)
      ensures Sorted(t) && multiset(t) == multiset(lines)
    {
      t := [];
      for k := 0 to |lines|
        invariant Sorted(t) && multiset(t) == multiset(lines[..k])
      {
        assert lines[..k + 1] == lines[..k] + [lines[k]];
        t := InsertRange(t, lines[k]);
      }
      assert lines[..|lines|] == lines;
    }

    static method InsertRange(s: seq<Range>, r: Range) returns (t: seq<Range>)
      requires Sorted(s)
      ensures Sorted(t) && multiset(t) == multiset(s) + multiset{r}
    {
      var i := 0;
      while i < |s| && s[i].start <= r.start
        invariant i <= |s| && forall j :: 0 <= j < i ==> s[j].start <= r.start
      {
        i := i + 1;
      }
      assert s == s[..i] + s[i..];
      t := s[..i] + [r] + s[i..];
    }

    /** Loading throws on a range that is not page-aligned; otherwise each node's lines make its table. */
    method Load(lines: seq<Range>) returns (thrown: bool)
      requires forall k :: 0 <= k < |lines| ==> lines[k].poolOffset == 0
      modifies this
      ensures thrown <==> exists k :: 0 <= k < |lines| && !Aligned(lines[k])
      ensures !thrown ==> forall n: nat :: Loaded(Table(n), OfNode(lines, n))
    {
      tables := [];
      for k := 0 to |lines|
        invariant forall j :: 0 <= j < k ==> Aligned(lines[j])
        invariant forall n: nat :: Table(n) == OfNode(lines[..k], n)
      {
        if lines[k].start % PAGE != 0 || lines[k].size % PAGE != 0 { return true; }
        assert lines[..k + 1][..k] == lines[..k];
        Append(lines[k]);
      }
      assert lines[..|lines|] == lines;
      ghost var raw := tables;
      for n := 0 to |tables|
        invariant |tables| == |raw| && forall j :: n <= j < |tables| ==> tables[j] == raw[j]
        invariant forall j :: 0 <= j < n ==> Loaded(tables[j], raw[j])
      {
        NodeLines(lines, n);
        var table := LoadTable(tables[n]);
        tables := tables[n := table];
      }
      forall n: nat ensures Loaded(Table(n), OfNode(lines, n)) {
        if n < |raw| { assert raw[n] == OfNode(lines, n); } else { assert OfNode(lines, n) == []; }
      }
      return false;
    }

    /** The line goes to the end of its node's list, which is made room for. */
    method Append(line: Range)
      modifies this
      ensures forall n: nat :: Table(n) == old(Table(n)) + if n == line.node then [line] else []
    {
      if line.node >= |tables| {
        tables := tables + seq(line.node + 1 - |tables|, _ => []);
      }
      tables := tables[line.node := tables[line.node] + [line]];
    }

    static method LoadTable(lines: seq<Range>) returns (t: seq<Range>)
      requires forall k :: 0 <= k < |lines| ==> lines[k].poolOffset == 0
      ensures Loaded(t, lines)
    {
      var sorted := SortByStart(lines);
      t := AssignOffsets(sorted);
      assert Plain(lines) == lines;
      forall k | 0 <= k < |sorted| ensures sorted[k].poolOffset == 0 {
        assert sorted[k] in multiset(lines);
      }
      assert Plain(sorted) == sorted;
    }

    static method AssignOffsets(before: seq<Range>) returns (table: seq<Range>)
      requires Sorted(before)
      ensures Sorted(table) && Offsets(table) && Plain(table) == Plain(before)
    {
      table := before;
      var running := 0;
      for k := 0 to |table|
        invariant |table| == |before| && running == PoolBytes(before[..k])
        invariant forall j :: 0 <= j < |table| ==>
          table[j] == if j < k && before[j].kind == Pool
                      then before[j].(poolOffset := PoolBytes(before[..j])) else before[j]
      {
        assert before[..k + 1][..k] == before[..k];
        if table[k].kind == Pool {
          table := table[k := table[k].(poolOffset := running)];
          running := running + table[k].size;
        }
      }
      forall i | 0 <= i < |table| ensures PoolBytes(table[..i]) == PoolBytes(before[..i]) {
        SameBytes(table[..i], before[..i]);
      }
    }

    static lemma {:induction false} SameBytes(a: seq<Range>, b: seq<Range>)
      requires |a| == |b| && forall k :: 0 <= k < |a| ==> a[k].kind == b[k].kind && a[k].size == b[k].size
      ensures PoolBytes(a) == PoolBytes(b)
    {
      if a != [] { SameBytes(a[..|a| - 1], b[..|b| - 1]); }
    }

    /** std::upper_bound: a binary search for the first range that starts above the address. */
    method Lookup(node: nat, addr: nat) returns (r: Option<Range>)
      requires Sorted(Table(node))
      ensures r == LookupIn(Table(node), addr)
    {
      if node >= |tables| || tables[node] == [] { return None; }
      var table := tables[node];
      var first, count := 0, |table|;
      while count > 0
        invariant 0 <= first <= first + count <= |table|
        invariant forall i :: 0 <= i < first ==> table[i].start <= addr
        invariant forall i :: first + count <= i < |table| ==> addr < table[i].start
        decreases count
      {
        var step := count / 2;
        if !(addr < table[first + step].start) {
          first := first + step + 1;
          count := count - step - 1;
        } else {
          count := step;
        }
      }
      StartsSplit(table, addr, first);
      if first == 0 { return None; }
      var candidate := table[first - 1];
      if candidate.start <= addr < (candidate.start + candidate.size) % SPACE { return Some(candidate); }
      return None;
    }
  }

  // Virtual memory.

  datatype Touch = Touch(cpu: nat, page: nat)

  /** `order` is the list of free pages as it is filled anew each time it runs out; `taken` counts the pages taken from
    * it. `owner` remembers, for a place from the list, which taking it was. */
  datatype Vm = Vm(places: map<Touch, nat>, free: seq<nat>, taken: nat, owner: map<Touch, nat>)

  function Fresh(order: seq<nat>): Vm { Vm(map[], order, 0, map[]) }

  /** ppage_pop: the list is filled again as soon as it is empty. */
  function Pop(order: seq<nat>, m: Vm): Vm
    requires m.free != []
  {
    m.(free := if |m.free| == 1 then order else m.free[1..], taken := m.taken + 1)
  }

  function PoolRangeOf(t: seq<Range>, v: nat): (r: Option<Range>)
    ensures r.Some? ==> FirstPage(r.value) <= v
  {
    var r := LookupIn(t, v * PAGE);
    if r.Some? && r.value.kind == Pool then r else None
  }

  /** First touch of a page by a processor gives it a place for good: its own in the pool, or the next free one. */
  function VaToPa(t: seq<Range>, base: nat, order: seq<nat>, m: Vm, k: Touch): Vm
    requires m.free != []
  {
    if k in m.places then m
    else
      match PoolRangeOf(t, k.page)
      case Some(r) => m.(places := m.places[k := base + r.poolOffset / PAGE + (k.page - FirstPage(r))])
      case None => Pop(order, m.(places := m.places[k := m.free[0]], owner := m.owner[k := m.taken]))
  }

  datatype Event = Translate(touch: Touch) | TablePage

  function Apply(t: seq<Range>, base: nat, order: seq<nat>, m: Vm, e: Event): Vm
    requires m.free != []
  {
    match e
    case Translate(k) => VaToPa(t, base, order, m, k)
    case TablePage => Pop(order, m)
  }

  /** The k-th page taken from the list, counting through all its refills. */
  function Nth(order: seq<nat>, k: nat): nat
    requires order != []
  {
    order[k % |order|]
  }

  ghost predicate VmInv(t: seq<Range>, base: nat, order: seq<nat>, m: Vm) {
    && order != [] && m.free == order[m.taken % |order|..]
    && (forall k :: k in m.owner <==> k in m.places && !PoolPage(t, k.page))
    && (forall k :: k in m.places && PoolPage(t, k.page) ==> m.places[k] == base + PoolPagesBelow(t, k.page))
    && (forall k :: k in m.owner ==> k in m.places && m.owner[k] < m.taken && m.places[k] == Nth(order, m.owner[k]))
    && (forall k, l :: k in m.owner && l in m.owner && k != l ==> m.owner[k] != m.owner[l])
  }

  lemma PoolRangeIs(t: seq<Range>, base: nat, v: nat)
    requires Proper(t) && Offsets(t)
    ensures PoolRangeOf(t, v).Some? <==> PoolPage(t, v)
    ensures PoolRangeOf(t, v).Some? ==>
      var r := PoolRangeOf(t, v).value;
      base + r.poolOffset / PAGE + (v - FirstPage(r)) == base + PoolPagesBelow(t, v)
  {
    LookupIsScan(t, v * PAGE);
    if PoolPage(t, v) {
      var i :| 0 <= i < |t| && t[i].kind == Pool && Contains(t[i], v * PAGE);
      PlaceIsRank(t, base, i, v);
      ContainsPage(t[i], v);
    }
  }

  lemma Wraps(k: nat, n: nat)
    requires n > 0
    ensures (k + 1) % n == if k % n + 1 == n then 0 else k % n + 1
  {
    var q, r := k / n, k % n;
    assert k + 1 == n * q + (r + 1);
    if r + 1 == n {
      assert k + 1 == n * (q + 1);
      ModIs(k + 1, q + 1, 0, n);
    } else {
      ModIs(k + 1, q, r + 1, n);
    }
  }

  lemma ModIs(x: int, q: int, r: int, n: int)
    requires n > 0 && 0 <= r < n && x == n * q + r
    ensures x % n == r
  {
    var p := x / n;
    assert x == n * p + x % n;
    assert n * (q - p) == x % n - r;
    assert q - p >= 1 ==> n * (q - p) >= n;
    assert q - p <= -1 ==> n * (q - p) <= -n;
  }

  lemma PopKeeps(t: seq<Range>, base: nat, order: seq<nat>, m: Vm)
    requires VmInv(t, base, order, m)
    ensures m.free != [] && m.free[0] == Nth(order, m.taken)
    ensures VmInv(t, base, order, Pop(order, m))
  {
    Wraps(m.taken, |order|);
    hide PoolPage, PoolPagesBelow, Nth;
  }

  lemma ApplyKeeps(t: seq<Range>, base: nat, order: seq<nat>, m: Vm, e: Event)
    requires Proper(t) && Offsets(t) && VmInv(t, base, order, m)
    ensures m.free != [] && VmInv(t, base, order, Apply(t, base, order, m, e))
  {
    hide VmInv, Proper, Offsets, PoolPage, PoolPagesBelow, PoolRangeOf, Pop, Nth;
    PopKeeps(t, base, order, m);
    if e.Translate? && e.touch !in m.places {
      PoolRangeIs(t, base, e.touch.page);
      if PoolRangeOf(t, e.touch.page).Some? {
        PoolTouched(t, base, order, m, e.touch);
      } else {
        FreeTouched(t, base, order, m, e.touch);
      }
    }
  }

  lemma PoolTouched(t: seq<Range>, base: nat, order: seq<nat>, m: Vm, k: Touch)
    requires VmInv(t, base, order, m) && k !in m.places && PoolPage(t, k.page)
    ensures VmInv(t, base, order, m.(places := m.places[k := base + PoolPagesBelow(t, k.page)]))
  {
    hide PoolPage, PoolPagesBelow, Nth;
  }

  lemma FreeTouched(t: seq<Range>, base: nat, order: seq<nat>, m: Vm, k: Touch)
    requires VmInv(t, base, order, m) && k !in m.places && !PoolPage(t, k.page) && m.free != []
    requires m.free[0] == Nth(order, m.taken)
    ensures VmInv(t, base, order, Pop(order, m.(places := m.places[k := m.free[0]], owner := m.owner[k := m.taken])))
  {
    PopFree(order, m);
    var n := Pop(order, m.(places := m.places[k := m.free[0]], owner := m.owner[k := m.taken]));
    hide PoolPage, PoolPagesBelow, Nth, Pop;
    FreeTouchedFrom(t, base, order, m, n, k, m.free[0]);
  }

  lemma PopFree(order: seq<nat>, m: Vm)
    requires order != [] && m.free == order[m.taken % |order|..] && m.free != []
    ensures Pop(order, m).free == order[(m.taken + 1) % |order|..]
  {
    Wraps(m.taken, |order|);
  }

  lemma FreeTouchedFrom(t: seq<Range>, base: nat, order: seq<nat>, m: Vm, n: Vm, k: Touch, place: nat)
    requires VmInv(t, base, order, m) && k !in m.places && !PoolPage(t, k.page) && place == Nth(order, m.taken)
    requires n.free == order[(m.taken + 1) % |order|..] && n.taken == m.taken + 1
    requires n.places == m.places[k := place] && n.owner == m.owner[k := m.taken]
    ensures VmInv(t, base, order, n)
  {
    hide PoolPage, PoolPagesBelow, Nth;
  }

  ghost predicate IsRun(t: seq<Range>, base: nat, order: seq<nat>, states: seq<Vm>, events: seq<Event>) {
    && |states| == |events| + 1 && order != [] && states[0] == Fresh(order)
    && forall i :: 0 <= i < |events| ==> Steps(t, base, order, states[i], events[i], states[i + 1])
  }

  ghost predicate Steps(t: seq<Range>, base: nat, order: seq<nat>, m: Vm, e: Event, n: Vm) {
    m.free != [] && n == Apply(t, base, order, m, e)
  }

  lemma {:induction false} RunInv(t: seq<Range>, base: nat, order: seq<nat>, states: seq<Vm>, events: seq<Event>,
      i: nat)
    requires Proper(t) && Offsets(t) && IsRun(t, base, order, states, events) && i < |states|
    ensures VmInv(t, base, order, states[i]) && states[i].free != []
  {
    if i == 0 {
      ModIs(0, 0, 0, |order|);
    } else {
      RunInv(t, base, order, states, events, i - 1);
      assert Steps(t, base, order, states[i - 1], events[i - 1], states[i]);
      hide VmInv, Apply, Proper, Offsets;
      ApplyKeeps(t, base, order, states[i - 1], events[i - 1]);
      LastKeeps(t, base, order, states[i]);
    }
  }

  lemma LastKeeps(t: seq<Range>, base: nat, order: seq<nat>, m: Vm)
    requires VmInv(t, base, order, m)
    ensures m.free != []
  {
    hide PoolPage, PoolPagesBelow, Nth;
  }

  /** In every reachable state the pool pages touched are at the base plus their rank, whoever touched them; every
    * other page has a place from the free list, the one its turn gave it, so that two of them share a place exactly
    * when a whole number of refills lies between their turns; and no pool page shares one with a page from the list if
    * the list leaves the window free. */
  lemma RunPlacesPages(t: seq<Range>, base: nat, order: seq<nat>, states: seq<Vm>, events: seq<Event>, i: nat,
                       k: Touch, l: Touch)
    requires Proper(t) && Offsets(t) && IsRun(t, base, order, states, events) && i < |states|
    requires k in states[i].places && l in states[i].places && k != l
    requires forall a, b :: 0 <= a < b < |order| ==> order[a] != order[b]
    ensures PoolPage(t, k.page) ==> states[i].places[k] == base + PoolPagesBelow(t, k.page)
    ensures PoolPage(t, k.page) && PoolPage(t, l.page) ==>
        (states[i].places[k] == states[i].places[l] <==> k.page == l.page)
    ensures !PoolPage(t, k.page) && !PoolPage(t, l.page) ==>
      var m := states[i];
      && k in m.owner && l in m.owner && m.owner[k] != m.owner[l]
      && (m.places[k] == m.places[l] <==> m.owner[k] % |order| == m.owner[l] % |order|)
      && (m.taken <= |order| ==> m.places[k] != m.places[l])
    ensures PoolPage(t, k.page) && !PoolPage(t, l.page) && WindowFree(t, base, order) ==>
      states[i].places[k] != states[i].places[l]
  {
    RunInv(t, base, order, states, events, i);
    var m := states[i];
    assert PoolPage(t, k.page) ==> m.places[k] == base + PoolPagesBelow(t, k.page);
    assert PoolPage(t, l.page) ==> m.places[l] == base + PoolPagesBelow(t, l.page);
    hide PoolPage, PoolPagesBelow;
    if PoolPage(t, k.page) && !PoolPage(t, l.page) && WindowFree(t, base, order) {
      PlacesClearExactly(t, base, order);
      assert m.places[l] in order;
    }
    if PoolPage(t, k.page) && PoolPage(t, l.page) && k.page != l.page {
      PlacesDiffer(t, k.page, l.page);
    }
    if !PoolPage(t, k.page) && !PoolPage(t, l.page) {
      assert k in m.owner && l in m.owner;
      SameNth(order, m.owner[k], m.owner[l]);
      if m.taken <= |order| {
        ModIs(m.owner[k], 0, m.owner[k], |order|);
        ModIs(m.owner[l], 0, m.owner[l], |order|);
      }
    }
  }

  lemma SameNth(order: seq<nat>, a: nat, b: nat)
    requires order != [] && forall i, j :: 0 <= i < j < |order| ==> order[i] != order[j]
    ensures Nth(order, a) == Nth(order, b) <==> a % |order| == b % |order|
  {
    var i, j := a % |order|, b % |order|;
    assert 0 <= i < |order| && 0 <= j < |order|;
  }

  class VirtualMemory {
    const addressMap: AddressMap
    const node: nat
    const base: nat
    const order: seq<nat>
    var translations: map<Touch, nat>
    var free: seq<nat>
    ghost var taken: nat
    ghost var owner: map<Touch, nat>

    ghost function View(): Vm
      reads this
    {
      Vm(translations, free, taken, owner)
    }

    constructor (addressMap: AddressMap, node: nat, base: nat, order: seq<nat>)
      requires order != []
      ensures this.addressMap == addressMap && this.node == node && this.base == base && this.order == order
      ensures View() == Fresh(order)
    {
      this.addressMap, this.node, this.base, this.order := addressMap, node, base, order;
      translations, free := map[], order;
      taken, owner := 0, map[];
    }

    method PopPage()
      requires free != []
      modifies `free, `taken
      ensures View() == Pop(order, old(View()))
    {
      free := free[1..];
      if |free| == 0 { free := order; }
      taken := taken + 1;
    }

    method Translate(cpu: nat, page: nat) returns (place: nat, fault: bool)
      requires free != [] && Sorted(addressMap.Table(node))
      modifies this
      ensures View() == VaToPa(addressMap.Table(node), base, order, old(View()), Touch(cpu, page))
      ensures Touch(cpu, page) in translations && place == translations[Touch(cpu, page)]
      ensures fault == (Touch(cpu, page) !in old(translations))
    {
      var k := Touch(cpu, page);
      var entry := addressMap.Lookup(node, page * PAGE);
      if entry.Some? && entry.value.kind == Pool {
        var r := entry.value;
        fault := k !in translations;
        if fault { translations := translations[k := base + r.poolOffset / PAGE + (page - r.start / PAGE)]; }
        return translations[k], fault;
      }
      fault := k !in translations;
      if fault {
        translations := translations[k := free[0]];
        owner := owner[k := taken];
        PopPage();
      }
      return translations[k], fault;
    }
  }
}
