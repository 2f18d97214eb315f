/** The in-order front end of src/ooo_cpu.cc: fetch buffer, split decode buffers, dispatch buffer. */
module FrontEnd {

  datatype Instr = Instr(id: nat, ready: int, dibChecked: bool, fetchCompleted: bool, decoded: bool)

  datatype Config = Config(fetchSize: nat, dibSize: nat, decodeSize: nat, dispatchSize: nat, robSize: nat,
                           fetchWidth: nat, decodeWidth: nat, inorderWidth: nat, dispatchWidth: nat,
                           decodeLatency: nat, dibLatency: nat, dispatchLatency: nat)

  /** `retired` lists the ids that have left the reorder buffer. */
  datatype Pipe = Pipe(input: seq<Instr>, fetch: seq<Instr>, dib: seq<Instr>, decode: seq<Instr>,
                       dispatch: seq<Instr>, rob: seq<Instr>, retired: seq<nat>)

  function Ids(s: seq<Instr>): (r: seq<nat>)
    ensures |r| == |s|
  {
    seq(|s|, k requires 0 <= k < |s| => s[k].id)
  }

  lemma IdsConcat(s: seq<Instr>, t: seq<Instr>)
    ensures Ids(s + t) == Ids(s) + Ids(t)
  {
  }

  lemma IdsSplit(s: seq<Instr>, k: nat)
    requires k <= |s|
    ensures Ids(s) == Ids(s[..k]) + Ids(s[k..])
  {
  }

  function Delayed(s: seq<Instr>, ready: int): (r: seq<Instr>)
    ensures |r| == |s| && Ids(r) == Ids(s)
  {
    seq(|s|, k requires 0 <= k < |s| => s[k].(ready := ready))
  }

  /** The instructions of the two decode buffers in program order. */
  function Merge(a: seq<nat>, b: seq<nat>): seq<nat>
    decreases |a| + |b|
  {
    if a == [] then b
    else if b == [] then a
    else if b[0] < a[0] then [b[0]] + Merge(a, b[1..])
    else [a[0]] + Merge(a[1..], b)
  }

  /** Everything in the pipe, oldest first. */
  function InOrder(p: Pipe): seq<nat> {
    p.retired + Ids(p.rob) + Ids(p.dispatch) + Merge(Ids(p.dib), Ids(p.decode)) + Ids(p.fetch) + Ids(p.input)
  }

  predicate Increasing(s: seq<nat>) {
    forall i, j :: 0 <= i < j < |s| ==> s[i] < s[j]
  }

  predicate AllBelow(s: seq<nat>, t: seq<nat>) {
    forall i, j :: 0 <= i < |s| && 0 <= j < |t| ==> s[i] < t[j]
  }

  /** Nothing lost, duplicated or reordered, and every buffer within its capacity. */
  predicate Valid(c: Config, p: Pipe, stream: seq<nat>) {
    && Increasing(stream) && InOrder(p) == stream
    && Increasing(Ids(p.dib)) && Increasing(Ids(p.decode))
    && |p.fetch| <= c.fetchSize && |p.dib| <= c.dibSize && |p.decode| <= c.decodeSize
    && |p.dispatch| <= c.dispatchSize && |p.rob| <= c.robSize
  }

  // Merging.

  lemma {:induction false} MergeMembers(a: seq<nat>, b: seq<nat>, x: nat)
    ensures x in Merge(a, b) <==> x in a || x in b
    decreases |a| + |b|
  {
    if a != [] && b != [] {
      assert a == [a[0]] + a[1..] && b == [b[0]] + b[1..];
      if b[0] < a[0] { MergeMembers(a, b[1..], x); } else { MergeMembers(a[1..], b, x); }
    }
  }

  /** Merging splits where everything before is smaller than everything after. */
  lemma {:induction false} MergeSplit(a1: seq<nat>, a2: seq<nat>, b1: seq<nat>, b2: seq<nat>)
    requires AllBelow(a1, b2) && AllBelow(b1, a2)
    ensures Merge(a1 + a2, b1 + b2) == Merge(a1, b1) + Merge(a2, b2)
    decreases |a1| + |b1|
  {
    if a1 == [] && b1 == [] {
      assert a1 + a2 == a2 && b1 + b2 == b2;
    } else if b1 != [] && (a1 == [] || b1[0] < a1[0]) {
      TailBelow(b1, a2);
      MergeSplit(a1, a2, b1[1..], b2);
      MergeGlueSecond(a1, a2, b1, b2);
    } else {
      TailBelow(a1, b2);
      MergeSplit(a1[1..], a2, b1, b2);
      MergeGlueFirst(a1, a2, b1, b2);
    }
  }

  lemma Regroup(x: seq<nat>, y: seq<nat>, z: seq<nat>)
    ensures x + (y + z) == (x + y) + z
  {
  }

  lemma TailBelow(a: seq<nat>, b: seq<nat>)
    requires AllBelow(a, b) && a != []
    ensures AllBelow(a[1..], b)
  {
  }

  lemma MergeGlueSecond(a1: seq<nat>, a2: seq<nat>, b1: seq<nat>, b2: seq<nat>)
    requires AllBelow(b1, a2) && b1 != [] && (a1 == [] || b1[0] < a1[0])
    requires Merge(a1 + a2, b1[1..] + b2) == Merge(a1, b1[1..]) + Merge(a2, b2)
    ensures Merge(a1 + a2, b1 + b2) == Merge(a1, b1) + Merge(a2, b2)
  {
    MergeTakesSecond(a1, a2, b1, b2);
    Regroup([b1[0]], Merge(a1, b1[1..]), Merge(a2, b2));
    hide Merge, AllBelow;
  }

  lemma MergeGlueFirst(a1: seq<nat>, a2: seq<nat>, b1: seq<nat>, b2: seq<nat>)
    requires AllBelow(a1, b2) && a1 != [] && (b1 == [] || a1[0] <= b1[0])
    requires Merge(a1[1..] + a2, b1 + b2) == Merge(a1[1..], b1) + Merge(a2, b2)
    ensures Merge(a1 + a2, b1 + b2) == Merge(a1, b1) + Merge(a2, b2)
  {
    MergeTakesFirst(a1, a2, b1, b2);
    Regroup([a1[0]], Merge(a1[1..], b1), Merge(a2, b2));
    hide Merge, AllBelow;
  }

  lemma MergeTakesSecond(a1: seq<nat>, a2: seq<nat>, b1: seq<nat>, b2: seq<nat>)
    requires AllBelow(b1, a2) && b1 != [] && (a1 == [] || b1[0] < a1[0])
    ensures Merge(a1, b1) == [b1[0]] + Merge(a1, b1[1..])
    ensures Merge(a1 + a2, b1 + b2) == [b1[0]] + Merge(a1 + a2, b1[1..] + b2)
  {
    var a, b := a1 + a2, b1 + b2;
    assert b1 == [b1[0]] + b1[1..] && b[1..] == b1[1..] + b2 && b == [b1[0]] + b[1..];
    if a != [] { assert b1[0] < a[0]; }
  }

  lemma MergeTakesFirst(a1: seq<nat>, a2: seq<nat>, b1: seq<nat>, b2: seq<nat>)
    requires AllBelow(a1, b2) && a1 != [] && (b1 == [] || a1[0] <= b1[0])
    ensures Merge(a1, b1) == [a1[0]] + Merge(a1[1..], b1)
    ensures Merge(a1 + a2, b1 + b2) == [a1[0]] + Merge(a1[1..] + a2, b1 + b2)
  {
    var a, b := a1 + a2, b1 + b2;
    assert a1 == [a1[0]] + a1[1..] && a[1..] == a1[1..] + a2 && a == [a1[0]] + a[1..];
    if b != [] { assert a1[0] <= b[0]; }
  }

  /** A strictly increasing merge has no element from both sides. */
  lemma {:induction false} MergeApart(a: seq<nat>, b: seq<nat>)
    requires Increasing(Merge(a, b))
    ensures forall x :: !(x in a && x in b)
    decreases |a| + |b|
  {
    if a != [] && b != [] {
      var m := Merge(a, b);
      assert a == [a[0]] + a[1..] && b == [b[0]] + b[1..];
      assert Increasing(m[1..]);
      if b[0] < a[0] {
        assert m[1..] == Merge(a, b[1..]);
        MergeApart(a, b[1..]);
        MergeMembers(a, b[1..], b[0]);
      } else {
        assert m[1..] == Merge(a[1..], b);
        MergeApart(a[1..], b);
        MergeMembers(a[1..], b, a[0]);
      }
      assert m[0] !in m[1..];
    }
  }

  // Moving instructions into the fetch buffer, and out of the pipe.

  /** The first k instructions of the input enter the fetch buffer. */
  function Initialize(p: Pipe, k: nat, now: int): Pipe
    requires k <= |p.input|
  {
    p.(fetch := p.fetch + Delayed(p.input[..k], now), input := p.input[k..])
  }

  lemma InitializeKeeps(c: Config, p: Pipe, stream: seq<nat>, k: nat, now: int)
    requires Valid(c, p, stream) && k <= |p.input| && |p.fetch| + k <= c.fetchSize
    ensures Valid(c, Initialize(p, k, now), stream)
  {
    IdsConcat(p.fetch, Delayed(p.input[..k], now));
    IdsSplit(p.input, k);
  }

  function Dispatched(p: Pipe, k: nat): Pipe
    requires k <= |p.dispatch|
  {
    p.(rob := p.rob + p.dispatch[..k], dispatch := p.dispatch[k..])
  }

  lemma DispatchedKeeps(c: Config, p: Pipe, stream: seq<nat>, k: nat)
    requires Valid(c, p, stream) && k <= |p.dispatch| && |p.rob| + k <= c.robSize
    ensures Valid(c, Dispatched(p, k), stream)
  {
    IdsConcat(p.rob, p.dispatch[..k]);
    IdsSplit(p.dispatch, k);
  }

  function Retired(p: Pipe, k: nat): Pipe
    requires k <= |p.rob|
  {
    p.(rob := p.rob[k..], retired := p.retired + Ids(p.rob[..k]))
  }

  lemma RetiredKeeps(c: Config, p: Pipe, stream: seq<nat>, k: nat)
    requires Valid(c, p, stream) && k <= |p.rob|
    ensures Valid(c, Retired(p, k), stream)
  {
    IdsSplit(p.rob, k);
  }

  // Promotion to the decode buffers.

  function Select(s: seq<Instr>, decoded: bool): seq<Instr> {
    if s == [] then []
    else Select(s[..|s| - 1], decoded) + if s[|s| - 1].decoded == decoded then [s[|s| - 1]] else []
  }

  function Promote(c: Config, p: Pipe, k: nat, now: int): Pipe
    requires k <= |p.fetch|
  {
    var w := p.fetch[..k];
    if c.dibSize == 0 then
      p.(fetch := p.fetch[k..], decode := p.decode +
        seq(k, m requires 0 <= m < k => w[m].(ready := now + if w[m].decoded then c.dibLatency else c.decodeLatency)))
    else
      p.(fetch := p.fetch[k..],
         dib := p.dib + Delayed(Select(w, true), now + c.dibLatency),
         decode := p.decode + Delayed(Select(w, false), now + c.decodeLatency))
  }

  lemma {:induction false} SelectIds(s: seq<Instr>, decoded: bool)
    requires Increasing(Ids(s))
    ensures |Select(s, decoded)| <= |s| && Increasing(Ids(Select(s, decoded)))
    ensures forall x :: x in Ids(Select(s, decoded)) ==> x in Ids(s)
  {
    if s != [] {
      var k := |s| - 1;
      var t, u := Select(s[..k], decoded), Select(s, decoded);
      SplitLast(s);
      SelectIds(s[..k], decoded);
      IdsConcat(t, [s[k]]);
      forall i | 0 <= i < |t| ensures Ids(t)[i] < s[k].id { assert Ids(t)[i] in Ids(s[..k]); }
      assert Ids(u) == if s[k].decoded == decoded then Ids(t) + [s[k].id] else Ids(t);
    }
  }

  lemma SelectLast(s: seq<Instr>, decoded: bool)
    requires s != []
    ensures var k := |s| - 1;
      Ids(Select(s, decoded)) == Ids(Select(s[..k], decoded)) + if s[k].decoded == decoded then [s[k].id] else []
  {
    var k := |s| - 1;
    IdsConcat(Select(s[..k], decoded), [s[k]]);
    assert Select(s[..k], decoded) + [] == Select(s[..k], decoded);
  }

  lemma SplitLast(s: seq<Instr>)
    requires s != [] && Increasing(Ids(s))
    ensures var k := |s| - 1;
      && Ids(s) == Ids(s[..k]) + [s[k].id] && Increasing(Ids(s[..k]))
      && (forall x :: x in Ids(s[..k]) ==> x < s[k].id)
  {
    var k := |s| - 1;
    assert Ids(s) == Ids(s[..k]) + [s[k].id];
    forall i, j | 0 <= i < j < k ensures Ids(s[..k])[i] < Ids(s[..k])[j] { assert Ids(s)[i] < Ids(s)[j]; }
    forall i | 0 <= i < k ensures Ids(s[..k])[i] < s[k].id { assert Ids(s)[i] < Ids(s)[k]; }
  }

  /** Splitting a window and merging it again gives the window. */
  lemma {:induction false} SelectMerge(s: seq<Instr>)
    requires Increasing(Ids(s))
    ensures Merge(Ids(Select(s, true)), Ids(Select(s, false))) == Ids(s)
  {
    if s != [] {
      var k := |s| - 1;
      var x, t, f := s[k].id, Ids(Select(s[..k], true)), Ids(Select(s[..k], false));
      SplitLast(s);
      SelectMerge(s[..k]);
      SelectIds(s[..k], true);
      SelectIds(s[..k], false);
      SelectLast(s, true);
      SelectLast(s, false);
      forall i | 0 <= i < |t| ensures t[i] < x { assert t[i] in Ids(s[..k]); }
      forall i | 0 <= i < |f| ensures f[i] < x { assert f[i] in Ids(s[..k]); }
      if s[k].decoded { MergeSplit(t, [x], f, []); } else { MergeSplit(t, [], f, [x]); }
    }
  }

  /** What is being decoded is older than what is being fetched. */
  lemma DecodingBeforeFetching(p: Pipe, stream: seq<nat>)
    requires Increasing(stream) && InOrder(p) == stream
    ensures Increasing(Ids(p.fetch))
    ensures AllBelow(Ids(p.dib), Ids(p.fetch)) && AllBelow(Ids(p.decode), Ids(p.fetch))
    ensures AllBelow(Merge(Ids(p.dib), Ids(p.decode)), Ids(p.fetch))
  {
    var m, f := Merge(Ids(p.dib), Ids(p.decode)), Ids(p.fetch);
    var before := p.retired + Ids(p.rob) + Ids(p.dispatch);
    assert stream == before + m + f + Ids(p.input);
    forall i, j | 0 <= i < |m| && 0 <= j < |f| ensures m[i] < f[j] {
      assert stream[|before| + i] == m[i] && stream[|before| + |m| + j] == f[j];
    }
    forall i, j | 0 <= i < j < |f| ensures f[i] < f[j] {
      assert stream[|before| + |m| + i] == f[i] && stream[|before| + |m| + j] == f[j];
    }
    forall i, j | 0 <= i < |p.dib| && 0 <= j < |f| ensures Ids(p.dib)[i] < f[j] {
      MergeMembers(Ids(p.dib), Ids(p.decode), Ids(p.dib)[i]);
    }
    forall i, j | 0 <= i < |p.decode| && 0 <= j < |f| ensures Ids(p.decode)[i] < f[j] {
      MergeMembers(Ids(p.dib), Ids(p.decode), Ids(p.decode)[i]);
    }
  }

  lemma PromoteMerges(a: seq<nat>, b: seq<nat>, w: seq<Instr>)
    requires Increasing(Ids(w)) && AllBelow(a, Ids(w)) && AllBelow(b, Ids(w))
    ensures Merge(a + Ids(Select(w, true)), b + Ids(Select(w, false))) == Merge(a, b) + Ids(w)
  {
    SelectedAbove(a, w, false);
    SelectedAbove(b, w, true);
    MergeSplit(a, Ids(Select(w, true)), b, Ids(Select(w, false)));
    SelectMerge(w);
  }

  lemma AppendIncreasing(a: seq<nat>, b: seq<nat>)
    requires Increasing(a) && Increasing(b) && AllBelow(a, b)
    ensures Increasing(a + b)
  {
  }

  /** What the promoted window is, and that it is younger than everything being decoded. */
  lemma Window(p: Pipe, stream: seq<nat>, k: nat)
    requires Increasing(stream) && InOrder(p) == stream && k <= |p.fetch|
    ensures var w := Ids(p.fetch[..k]);
      && Ids(p.fetch) == w + Ids(p.fetch[k..]) && Increasing(w)
      && AllBelow(Ids(p.dib), w) && AllBelow(Ids(p.decode), w)
  {
    DecodingBeforeFetching(p, stream);
    IdsSplit(p.fetch, k);
    var w := Ids(p.fetch[..k]);
    assert forall i :: 0 <= i < k ==> w[i] == Ids(p.fetch)[i];
  }

  lemma PromoteToDecode(c: Config, p: Pipe, stream: seq<nat>, k: nat, now: int)
    requires Valid(c, p, stream) && k <= |p.fetch| && |p.decode| + k <= c.decodeSize && c.dibSize == 0
    ensures Valid(c, Promote(c, p, k, now), stream)
  {
    Window(p, stream, k);
    var q, w := Promote(c, p, k, now), p.fetch[..k];
    var d := q.decode[|p.decode|..];
    assert q.decode == p.decode + d && Ids(d) == Ids(w);
    IdsConcat(p.decode, d);
    AppendIncreasing(Ids(p.decode), Ids(w));
    assert Ids(p.dib) == [] && Ids(q.dib) == [];
    var x := p.retired + Ids(p.rob) + Ids(p.dispatch);
    assert x + (Ids(p.decode) + Ids(w)) + Ids(q.fetch) == x + Ids(p.decode) + (Ids(w) + Ids(q.fetch));
  }

  lemma PromoteToBoth(c: Config, p: Pipe, stream: seq<nat>, k: nat, now: int)
    requires Valid(c, p, stream) && k <= |p.fetch| && |p.decode| + k <= c.decodeSize
    requires c.dibSize > 0 && |p.dib| + k <= c.dibSize
    ensures Valid(c, Promote(c, p, k, now), stream)
  {
    Window(p, stream, k);
    var q, w := Promote(c, p, k, now), p.fetch[..k];
    var t, f := Ids(Select(w, true)), Ids(Select(w, false));
    SelectIds(w, true);
    SelectIds(w, false);
    IdsConcat(p.dib, Delayed(Select(w, true), now + c.dibLatency));
    IdsConcat(p.decode, Delayed(Select(w, false), now + c.decodeLatency));
    PromoteMerges(Ids(p.dib), Ids(p.decode), w);
    SelectedAbove(Ids(p.dib), w, true);
    SelectedAbove(Ids(p.decode), w, false);
    AppendIncreasing(Ids(p.dib), t);
    AppendIncreasing(Ids(p.decode), f);
    hide Select, Increasing, AllBelow, Merge;
    var x, m := p.retired + Ids(p.rob) + Ids(p.dispatch), Merge(Ids(p.dib), Ids(p.decode));
    assert x + (m + Ids(w)) + Ids(q.fetch) == x + m + (Ids(w) + Ids(q.fetch));
  }

  lemma PromoteKeeps(c: Config, p: Pipe, stream: seq<nat>, k: nat, now: int)
    requires Valid(c, p, stream) && k <= |p.fetch| && |p.decode| + k <= c.decodeSize
    requires c.dibSize > 0 ==> |p.dib| + k <= c.dibSize
    ensures Valid(c, Promote(c, p, k, now), stream)
  {
    hide Valid;
    if c.dibSize == 0 { PromoteToDecode(c, p, stream, k, now); } else { PromoteToBoth(c, p, stream, k, now); }
  }

  lemma SelectedAbove(a: seq<nat>, w: seq<Instr>, decoded: bool)
    requires Increasing(Ids(w)) && AllBelow(a, Ids(w))
    ensures AllBelow(a, Ids(Select(w, decoded)))
  {
    SelectIds(w, decoded);
    var t := Ids(Select(w, decoded));
    forall i, j | 0 <= i < |a| && 0 <= j < |t| ensures a[i] < t[j] { assert t[j] in Ids(w); }
  }

  // Decoding.

  /** Greedy decoding in program order: take the older front instruction while it is ready and there
      is bandwidth for it; only instructions that missed the decoded-instruction buffer use `dw`. */
  function Greedy(dib: seq<Instr>, decode: seq<Instr>, i: nat, j: nat, w: nat, dw: nat, now: int): (r: (nat, nat))
    requires i <= |dib| && j <= |decode|
    ensures i <= r.0 <= |dib| && j <= r.1 <= |decode| && (r.0 - i) + (r.1 - j) <= w
    decreases |dib| - i + |decode| - j
  {
    if i < |dib| && (j == |decode| || dib[i].id < decode[j].id) then
      if w > 0 && dib[i].ready <= now then Greedy(dib, decode, i + 1, j, w - 1, dw, now) else (i, j)
    else if j < |decode| then
      if w > 0 && dw > 0 && decode[j].ready <= now then Greedy(dib, decode, i, j + 1, w - 1, dw - 1, now) else (i, j)
    else (i, j)
  }

  /** What is taken precedes what is left. */
  predicate Prefix(dib: seq<Instr>, decode: seq<Instr>, i: nat, j: nat)
    requires i <= |dib| && j <= |decode|
  {
    && (forall x, y :: 0 <= x < i && j <= y < |decode| ==> dib[x].id < decode[y].id)
    && (forall x, y :: i <= x < |dib| && 0 <= y < j ==> decode[y].id < dib[x].id)
  }

  predicate Ordered(s: seq<Instr>) {
    forall i, j :: 0 <= i < j < |s| ==> s[i].id < s[j].id
  }

  predicate Disjoint(s: seq<Instr>, t: seq<Instr>) {
    forall i, j :: 0 <= i < |s| && 0 <= j < |t| ==> s[i].id != t[j].id
  }

  lemma {:induction false} GreedyTakesPrefix(dib: seq<Instr>, decode: seq<Instr>, i: nat, j: nat, w: nat, dw: nat,
      now: int)
    requires i <= |dib| && j <= |decode| && Ordered(dib) && Ordered(decode) && Disjoint(dib, decode)
        && Prefix(dib, decode, i, j)
    ensures var r := Greedy(dib, decode, i, j, w, dw, now); Prefix(dib, decode, r.0, r.1)
    decreases |dib| - i + |decode| - j
  {
    if i < |dib| && (j == |decode| || dib[i].id < decode[j].id) {
      if w > 0 && dib[i].ready <= now {
        PrefixGrowsFirst(dib, decode, i, j);
        hide Prefix, Ordered, Disjoint;
        GreedyTakesPrefix(dib, decode, i + 1, j, w - 1, dw, now);
      }
    } else if j < |decode| {
      if w > 0 && dw > 0 && decode[j].ready <= now {
        PrefixGrowsSecond(dib, decode, i, j);
        hide Prefix, Ordered, Disjoint;
        GreedyTakesPrefix(dib, decode, i, j + 1, w - 1, dw - 1, now);
      }
    }
  }

  lemma PrefixGrowsFirst(dib: seq<Instr>, decode: seq<Instr>, i: nat, j: nat)
    requires i < |dib| && j <= |decode| && Ordered(dib) && Ordered(decode) && Prefix(dib, decode, i, j)
    requires j == |decode| || dib[i].id < decode[j].id
    ensures Prefix(dib, decode, i + 1, j)
  {
  }

  lemma PrefixGrowsSecond(dib: seq<Instr>, decode: seq<Instr>, i: nat, j: nat)
    requires i <= |dib| && j < |decode| && Ordered(dib) && Ordered(decode) && Disjoint(dib, decode)
        && Prefix(dib, decode, i, j)
    requires i == |dib| || decode[j].id <= dib[i].id
    ensures Prefix(dib, decode, i, j + 1)
  {
  }

  function MergeInstrs(a: seq<Instr>, b: seq<Instr>): seq<Instr>
    decreases |a| + |b|
  {
    if a == [] then b
    else if b == [] then a
    else if b[0].id < a[0].id then [b[0]] + MergeInstrs(a, b[1..])
    else [a[0]] + MergeInstrs(a[1..], b)
  }

  lemma {:induction false} MergeInstrsIds(a: seq<Instr>, b: seq<Instr>)
    ensures Ids(MergeInstrs(a, b)) == Merge(Ids(a), Ids(b)) && |MergeInstrs(a, b)| == |a| + |b|
    decreases |a| + |b|
  {
    if a != [] && b != [] {
      IdsHead(a);
      IdsHead(b);
      hide Ids;
      if b[0].id < a[0].id {
        MergeInstrsIds(a, b[1..]);
        IdsCons(b[0], MergeInstrs(a, b[1..]));
      } else {
        MergeInstrsIds(a[1..], b);
        IdsCons(a[0], MergeInstrs(a[1..], b));
      }
    }
  }

  lemma IdsHead(s: seq<Instr>)
    requires s != []
    ensures Ids(s) != [] && Ids(s)[0] == s[0].id && Ids(s)[1..] == Ids(s[1..])
  {
  }

  lemma IdsCons(e: Instr, s: seq<Instr>)
    ensures Ids([e] + s) == [e.id] + Ids(s)
  {
  }

  function Decode(p: Pipe, i: nat, j: nat, ready: int): Pipe
    requires i <= |p.dib| && j <= |p.decode|
  {
    p.(dispatch := p.dispatch + MergeInstrs(Delayed(p.dib[..i], ready), Delayed(p.decode[..j], ready)),
       dib := p.dib[i..], decode := p.decode[j..])
  }

  lemma DecodeKeeps(c: Config, p: Pipe, stream: seq<nat>, i: nat, j: nat, ready: int)
    requires Valid(c, p, stream) && i <= |p.dib| && j <= |p.decode| && Prefix(p.dib, p.decode, i, j)
    requires |p.dispatch| + i + j <= c.dispatchSize
    ensures Valid(c, Decode(p, i, j, ready), stream)
  {
    var q, m := Decode(p, i, j, ready), MergeInstrs(Delayed(p.dib[..i], ready), Delayed(p.decode[..j], ready));
    MergeInstrsIds(Delayed(p.dib[..i], ready), Delayed(p.decode[..j], ready));
    IdsConcat(p.dispatch, m);
    IdsSplit(p.dib, i);
    IdsSplit(p.decode, j);
    SuffixIncreasing(Ids(p.dib[..i]), Ids(q.dib));
    SuffixIncreasing(Ids(p.decode[..j]), Ids(q.decode));
    MergeSplit(Ids(p.dib[..i]), Ids(q.dib), Ids(p.decode[..j]), Ids(q.decode));
    hide MergeInstrs, Increasing, AllBelow, Merge, Prefix;
    var x, rest := p.retired + Ids(p.rob), Merge(Ids(q.dib), Ids(q.decode));
    hide Ids;
    Regroup(x + Ids(p.dispatch), Ids(m), rest);
    Regroup(x, Ids(p.dispatch), Ids(m));
  }

  lemma SuffixIncreasing(a: seq<nat>, b: seq<nat>)
    requires Increasing(a + b)
    ensures Increasing(b)
  {
    forall i, j | 0 <= i < j < |b| ensures b[i] < b[j] { assert (a + b)[|a| + i] < (a + b)[|a| + j]; }
  }

  /** The two decode buffers share no instruction. */
  lemma BuffersDisjoint(c: Config, p: Pipe, stream: seq<nat>)
    requires Valid(c, p, stream)
    ensures Ordered(p.dib) && Ordered(p.decode) && Disjoint(p.dib, p.decode)
  {
    var a, b := Ids(p.dib), Ids(p.decode);
    var m, before := Merge(a, b), p.retired + Ids(p.rob) + Ids(p.dispatch);
    assert stream == before + m + Ids(p.fetch) + Ids(p.input);
    forall i, j | 0 <= i < j < |m| ensures m[i] < m[j] {
      assert stream[|before| + i] == m[i] && stream[|before| + j] == m[j];
    }
    MergeApart(a, b);
    forall i, j | 0 <= i < |p.dib| && 0 <= j < |p.decode| ensures p.dib[i].id != p.decode[j].id {
      assert a[i] in a && b[j] in b;
    }
    forall i, j | 0 <= i < j < |p.dib| ensures p.dib[i].id < p.dib[j].id { assert a[i] < a[j]; }
    forall i, j | 0 <= i < j < |p.decode| ensures p.decode[i].id < p.decode[j].id { assert b[i] < b[j]; }
  }

  // The stages, with their bandwidths and guards.

  function Min(a: int, b: int): int {
    if a < b then a else b
  }

  /** How many instructions the fetch stage takes: it stops after one that redirects fetch. */
  function InitSpan(input: seq<Instr>, bw: nat, stop: set<nat>): (k: nat)
    ensures k <= |input| && k <= bw
  {
    if input == [] || bw == 0 then 0
    else if input[0].id in stop then 1
    else 1 + InitSpan(input[1..], bw - 1, stop)
  }

  function InitializeStage(c: Config, p: Pipe, now: int, stop: set<nat>): Pipe
    requires |p.fetch| <= c.fetchSize
  {
    Initialize(p, InitSpan(p.input, Min(c.fetchWidth, c.fetchSize - |p.fetch|), stop), now)
  }

  function FirstUnchecked(fetch: seq<Instr>): (k: nat)
    ensures k <= |fetch| && (k < |fetch| ==> !fetch[k].dibChecked)
  {
    if fetch == [] || !fetch[0].dibChecked then 0 else 1 + FirstUnchecked(fetch[1..])
  }

  function CheckOne(e: Instr, now: int, hits: set<nat>): Instr {
    if e.id in hits then Instr(e.id, now, true, true, true) else e.(dibChecked := true)
  }

  /** Looks up the next instructions in the decoded-instruction buffer; `hits` are those found. */
  function CheckStage(c: Config, p: Pipe, now: int, hits: set<nat>): Pipe {
    var k := FirstUnchecked(p.fetch);
    p.(fetch := seq(|p.fetch|, m requires 0 <= m < |p.fetch| =>
         if k <= m < k + c.fetchWidth then CheckOne(p.fetch[m], now, hits) else p.fetch[m]))
  }

  /** The instruction cache answers for some instructions. */
  function FetchStage(p: Pipe, answered: set<nat>): Pipe {
    p.(fetch := seq(|p.fetch|, m requires 0 <= m < |p.fetch| =>
         if p.fetch[m].id in answered then p.fetch[m].(fetchCompleted := true) else p.fetch[m]))
  }

  function FetchedSpan(fetch: seq<Instr>, bw: nat, now: int): (k: nat)
    ensures k <= |fetch| && k <= bw
  {
    if fetch == [] || bw == 0 || !fetch[0].fetchCompleted || fetch[0].ready > now then 0
    else 1 + FetchedSpan(fetch[1..], bw - 1, now)
  }

  function PromoteBandwidth(c: Config, p: Pipe): (bw: nat)
    requires |p.dib| <= c.dibSize && |p.decode| <= c.decodeSize
    ensures |p.decode| + bw <= c.decodeSize && (c.dibSize > 0 ==> |p.dib| + bw <= c.dibSize)
  {
    if c.dibSize == 0 then Min(c.fetchWidth, c.decodeSize - |p.decode|)
    else Min(c.fetchWidth, Min(c.dibSize - |p.dib|, c.decodeSize - |p.decode|))
  }

  function PromoteStage(c: Config, p: Pipe, now: int): Pipe
    requires |p.dib| <= c.dibSize && |p.decode| <= c.decodeSize
  {
    Promote(c, p, FetchedSpan(p.fetch, PromoteBandwidth(c, p), now), now)
  }

  /** With no buffer for decoded instructions the decode width also bounds the dispatch buffer's intake. */
  function DecodeWindow(c: Config, p: Pipe): (w: nat)
    requires |p.dispatch| <= c.dispatchSize
    ensures |p.dispatch| + w <= c.dispatchSize
  {
    Min(if c.dibSize == 0 then c.decodeWidth else c.inorderWidth, c.dispatchSize - |p.dispatch|)
  }

  function DecodeStage(c: Config, p: Pipe, now: int): Pipe
    requires |p.dispatch| <= c.dispatchSize
  {
    var r := Greedy(p.dib, p.decode, 0, 0, DecodeWindow(c, p), c.decodeWidth, now);
    Decode(p, r.0, r.1, now + c.dispatchLatency)
  }

  function ReadySpan(dispatch: seq<Instr>, bw: nat, now: int): (k: nat)
    ensures k <= |dispatch| && k <= bw
  {
    if dispatch == [] || bw == 0 || dispatch[0].ready > now then 0 else 1 + ReadySpan(dispatch[1..], bw - 1, now)
  }

  /** `fits` is how many of the next instructions the load and store queues have room for. */
  function DispatchStage(c: Config, p: Pipe, now: int, fits: nat): Pipe
    requires |p.rob| <= c.robSize
  {
    Dispatched(p, ReadySpan(p.dispatch, Min(c.dispatchWidth, Min(fits, c.robSize - |p.rob|)), now))
  }

  lemma InitSpanStep(input: seq<Instr>, bw: nat, stop: set<nat>)
    requires input != [] && bw > 0
    ensures InitSpan(input, bw, stop) == 1 + if input[0].id in stop then 0 else InitSpan(input[1..], bw - 1, stop)
  {
  }

  lemma InitSpanStop(input: seq<Instr>, bw: nat, stop: set<nat>)
    requires input == [] || bw == 0
    ensures InitSpan(input, bw, stop) == 0
  {
  }

  lemma DelayedStep(s: seq<Instr>, k: nat, now: int)
    requires k < |s|
    ensures Delayed(s[..k + 1], now) == Delayed(s[..k], now) + [s[k].(ready := now)]
  {
  }

  lemma ReadySpanStep(dispatch: seq<Instr>, bw: nat, now: int)
    requires dispatch != [] && bw > 0 && dispatch[0].ready <= now
    ensures ReadySpan(dispatch, bw, now) == 1 + ReadySpan(dispatch[1..], bw - 1, now)
  {
  }

  lemma ReadySpanStop(dispatch: seq<Instr>, bw: nat, now: int)
    requires dispatch == [] || bw == 0 || dispatch[0].ready > now
    ensures ReadySpan(dispatch, bw, now) == 0
  {
  }

  datatype Event =
    | Fetches(now: int, stop: set<nat>)
    | Checks(now: int, hits: set<nat>)
    | Answers(ids: set<nat>)
    | Promotes(now: int)
    | Decodes(now: int)
    | Dispatches(now: int, fits: nat)
    | Retires(count: nat)

  function Apply(c: Config, p: Pipe, stream: seq<nat>, e: Event): (q: Pipe)
    requires Valid(c, p, stream)
    ensures Valid(c, q, stream)
  {
    match e
    case Fetches(now, stop) =>
      InitializeKeeps(c, p, stream, InitSpan(p.input, Min(c.fetchWidth, c.fetchSize - |p.fetch|), stop), now);
      InitializeStage(c, p, now, stop)
    case Checks(now, hits) => MarkKeeps(c, p, CheckStage(c, p, now, hits), stream); CheckStage(c, p, now, hits)
    case Answers(ids) => MarkKeeps(c, p, FetchStage(p, ids), stream); FetchStage(p, ids)
    case Promotes(now) =>
      PromoteKeeps(c, p, stream, FetchedSpan(p.fetch, PromoteBandwidth(c, p), now), now);
      PromoteStage(c, p, now)
    case Decodes(now) => DecodeStageKeeps(c, p, stream, now); DecodeStage(c, p, now)
    case Dispatches(now, fits) =>
      DispatchedKeeps(c, p, stream, ReadySpan(p.dispatch, Min(c.dispatchWidth, Min(fits, c.robSize - |p.rob|)), now));
      DispatchStage(c, p, now, fits)
    case Retires(count) => RetiredKeeps(c, p, stream, Min(count, |p.rob|)); Retired(p, Min(count, |p.rob|))
  }

  lemma MarkKeeps(c: Config, p: Pipe, q: Pipe, stream: seq<nat>)
    requires Valid(c, p, stream) && q == p.(fetch := q.fetch) && |q.fetch| == |p.fetch|
    requires forall m :: 0 <= m < |p.fetch| ==> q.fetch[m].id == p.fetch[m].id
    ensures Valid(c, q, stream)
  {
    assert Ids(q.fetch) == Ids(p.fetch);
  }

  lemma DecodeStageKeeps(c: Config, p: Pipe, stream: seq<nat>, now: int)
    requires Valid(c, p, stream)
    ensures Valid(c, DecodeStage(c, p, now), stream)
  {
    var r := Greedy(p.dib, p.decode, 0, 0, DecodeWindow(c, p), c.decodeWidth, now);
    BuffersDisjoint(c, p, stream);
    GreedyTakesPrefix(p.dib, p.decode, 0, 0, DecodeWindow(c, p), c.decodeWidth, now);
    hide Greedy, Ordered, Disjoint, InOrder, Increasing, Prefix;
    DecodeKeeps(c, p, stream, r.0, r.1, now + c.dispatchLatency);
  }

  function Run(c: Config, p: Pipe, stream: seq<nat>, es: seq<Event>): (q: Pipe)
    requires Valid(c, p, stream)
    ensures Valid(c, q, stream)
    decreases |es|
  {
    if es == [] then p else Run(c, Apply(c, p, stream, es[0]), stream, es[1..])
  }

  /** Whatever the order of events, the instructions in the pipe, oldest first, are the input stream:
      none is lost, repeated or overtaken, and no buffer outgrows its size. */
  lemma RunKeepsProgramOrder(c: Config, input: seq<Instr>, es: seq<Event>)
    requires Increasing(Ids(input))
    ensures var start := Pipe(input, [], [], [], [], [], []);
      && Valid(c, start, Ids(input))
      && var p := Run(c, start, Ids(input), es);
      && InOrder(p) == Ids(input)
      && |p.fetch| <= c.fetchSize && |p.dib| <= c.dibSize && |p.decode| <= c.decodeSize
      && |p.dispatch| <= c.dispatchSize && |p.rob| <= c.robSize
  {
    var start := Pipe(input, [], [], [], [], [], []);
    assert InOrder(start) == Ids(input);
  }

  class FrontEndPipe {
    const c: Config
    var input: seq<Instr>
    var fetch: seq<Instr>
    var dib: seq<Instr>
    var decode: seq<Instr>
    var dispatch: seq<Instr>
    var rob: seq<Instr>
    var retired: seq<nat>

    ghost function View(): Pipe
      reads this
    {
      Pipe(input, fetch, dib, decode, dispatch, rob, retired)
    }

    constructor (c: Config, input: seq<Instr>)
      ensures this.c == c && View() == Pipe(input, [], [], [], [], [], [])
    {
      this.c, this.input := c, input;
      fetch, dib, decode, dispatch, rob, retired := [], [], [], [], [], [];
    }

    method InitializeInstruction(now: int, stop: set<nat>)
      requires |fetch| <= c.fetchSize
      modifies this
      ensures View() == InitializeStage(c, old(View()), now, stop)
    {
      var bw := Min(c.fetchWidth, c.fetchSize - |fetch|);
      var stopFetch, k := false, 0;
      assert input[0..] == input && InitSpan(input, bw, stop) == InitSpan(input[0..], bw - 0, stop);
      hide InitSpan;
      while k < bw && !stopFetch && input != []
        invariant 0 <= k <= |old(input)| && k <= bw && input == old(input)[k..]
        invariant View() == old(View()).(fetch := fetch, input := input)
        invariant fetch == old(fetch) + Delayed(old(input)[..k], now)
        invariant InitSpan(old(input), bw, stop) == k + if stopFetch then 0 else InitSpan(input, bw - k, stop)
      {
        InitSpanStep(input, bw - k, stop);
        stopFetch := input[0].id in stop;
        DelayedStep(old(input), k, now);
        fetch := fetch + [input[0].(ready := now)];
        input := input[1..];
        k := k + 1;
      }
      if !stopFetch { InitSpanStop(input, bw - k, stop); }
    }

    method PromoteToDecodeBuffers(now: int)
      requires |dib| <= c.dibSize && |decode| <= c.decodeSize
      modifies this
      ensures View() == PromoteStage(c, old(View()), now)
    {
      var bw := PromoteBandwidth(c, Pipe(input, fetch, dib, decode, dispatch, rob, retired));
      var k := CountFetched(bw, now);
      MoveWindow(k, now);
    }

    method CountFetched(bw: nat, now: int) returns (k: nat)
      ensures k == FetchedSpan(fetch, bw, now)
    {
      k := 0;
      assert fetch[0..] == fetch;
      while k < |fetch| && k < bw && fetch[k].fetchCompleted && fetch[k].ready <= now
        invariant 0 <= k <= |fetch| && k <= bw
        invariant FetchedSpan(fetch, bw, now) == k + FetchedSpan(fetch[k..], bw - k, now)
      {
        assert fetch[k..][1..] == fetch[k + 1..];
        k := k + 1;
      }
    }

    /** std::stable_partition of the window, then the two moves. */
    method MoveWindow(k: nat, now: int)
      requires k <= |fetch|
      modifies this
      ensures View() == Promote(c, old(View()), k, now)
    {
      var m := 0;
      ghost var p := View();
      PromoteNone(c, p, now);
      hide Promote;
      while m < k
        invariant 0 <= m <= k && fetch == old(fetch)
        invariant View() == Promote(c, p, m, now).(fetch := fetch)
      {
        var e := fetch[m];
        PromoteOne(c, p, m, now);
        if c.dibSize == 0 {
          decode := decode + [e.(ready := now + if e.decoded then c.dibLatency else c.decodeLatency)];
        } else if e.decoded {
          dib := dib + [e.(ready := now + c.dibLatency)];
        } else {
          decode := decode + [e.(ready := now + c.decodeLatency)];
        }
        m := m + 1;
      }
      PromoteFetch(c, p, k, now);
      fetch := fetch[k..];
    }

    lemma PromoteNone(c: Config, p: Pipe, now: int)
      ensures Promote(c, p, 0, now) == p
    {
    }

    lemma PromoteFetch(c: Config, p: Pipe, k: nat, now: int)
      requires k <= |p.fetch|
      ensures Promote(c, p, k, now).fetch == p.fetch[k..]
    {
    }

    /** One more instruction goes to its buffer. */
    lemma PromoteOne(c: Config, p: Pipe, m: nat, now: int)
      requires m < |p.fetch|
      ensures var e, q, t := p.fetch[m], Promote(c, p, m, now), Promote(c, p, m + 1, now);
              t == (if c.dibSize == 0 then
                      q.(decode := q.decode + [e.(ready := now + if e.decoded then c.dibLatency else c.decodeLatency)])
                    else if e.decoded then q.(dib := q.dib + [e.(ready := now + c.dibLatency)])
                    else q.(decode := q.decode + [e.(ready := now + c.decodeLatency)])).(fetch := t.fetch)
    {
      hide Select, Delayed;
      SelectMore(p.fetch, m, true);
      SelectMore(p.fetch, m, false);
      DelayedMore(Select(p.fetch[..m], true), p.fetch[m], now + c.dibLatency);
      DelayedMore(Select(p.fetch[..m], false), p.fetch[m], now + c.decodeLatency);
    }

    lemma SelectMore(s: seq<Instr>, m: nat, decoded: bool)
      requires m < |s|
      ensures Select(s[..m + 1], decoded)
              == if s[m].decoded == decoded then Select(s[..m], decoded) + [s[m]] else Select(s[..m], decoded)
    {
      assert s[..m + 1][..m] == s[..m];
    }

    lemma DelayedMore(s: seq<Instr>, e: Instr, ready: int)
      ensures Delayed(s + [e], ready) == Delayed(s, ready) + [e.(ready := ready)]
    {
    }

    method DecodeInstruction(now: int)
      requires |dispatch| <= c.dispatchSize
      modifies this
      ensures View() == DecodeStage(c, old(View()), now)
    {
      var w := DecodeWindow(c, Pipe(input, fetch, dib, decode, dispatch, rob, retired));
      var i, j := ChooseSpans(w, c.decodeWidth, now);
      MoveMerged(i, j, now + c.dispatchLatency);
    }

    /** The three loops that choose how much of each buffer moves on. Together they are greedy. */
    method ChooseSpans(w: nat, dw: nat, now: int) returns (i: nat, j: nat)
      ensures (i, j) == Greedy(dib, decode, 0, 0, w, dw, now)
    {
      i, j := 0, 0;
      var left: nat, decodeLeft: nat := w, dw;
      while i < |dib| && j < |decode| && left > 0 && decodeLeft > 0
            && (if dib[i].id < decode[j].id then dib[i].ready else decode[j].ready) <= now
        invariant i <= |dib| && j <= |decode|
        invariant Greedy(dib, decode, i, j, left, decodeLeft, now) == Greedy(dib, decode, 0, 0, w, dw, now)
        decreases |dib| - i + |decode| - j
      {
        if dib[i].id < decode[j].id {
          i, left := i + 1, left - 1;
        } else {
          j, left, decodeLeft := j + 1, left - 1, decodeLeft - 1;
        }
      }
      while i < |dib| && left > 0 && dib[i].ready <= now && (j == |decode| || dib[i].id < decode[j].id)
        invariant i <= |dib| && j <= |decode|
        invariant Greedy(dib, decode, i, j, left, decodeLeft, now) == Greedy(dib, decode, 0, 0, w, dw, now)
        invariant !(i < |dib| && j < |decode| && left > 0 && decodeLeft > 0 && decode[j].id <= dib[i].id
            && decode[j].ready <= now)
      {
        i, left := i + 1, left - 1;
      }
      while j < |decode| && left > 0 && decodeLeft > 0 && decode[j].ready <= now
        && (i == |dib| || decode[j].id < dib[i].id)
        invariant i <= |dib| && j <= |decode|
        invariant Greedy(dib, decode, i, j, left, decodeLeft, now) == Greedy(dib, decode, 0, 0, w, dw, now)
        invariant i == |dib| || Greedy(dib, decode, i, j, left, decodeLeft, now) == (i, j)
      {
        j, left, decodeLeft := j + 1, left - 1, decodeLeft - 1;
      }
    }

    /** std::merge into the dispatch buffer, and the two erasures. */
    method MoveMerged(i: nat, j: nat, ready: int)
      requires i <= |dib| && j <= |decode|
      modifies this
      ensures View() == Decode(old(View()), i, j, ready)
    {
      var a, b := Delayed(dib[..i], ready), Delayed(decode[..j], ready);
      ghost var start := dispatch;
      while a != [] && b != []
        invariant View() == old(View()).(dispatch := dispatch)
        invariant dispatch + MergeInstrs(a, b) == start
            + MergeInstrs(Delayed(dib[..i], ready), Delayed(decode[..j], ready))
        decreases |a| + |b|
      {
        if b[0].id < a[0].id {
          dispatch, b := dispatch + [b[0]], b[1..];
        } else {
          dispatch, a := dispatch + [a[0]], a[1..];
        }
      }
      dispatch := dispatch + a + b;
      dib, decode := dib[i..], decode[j..];
    }

    method DispatchInstruction(now: int, fits: nat)
      requires |rob| <= c.robSize
      modifies `rob, `dispatch
      ensures View() == DispatchStage(c, old(View()), now, fits)
    {
      var bw: nat, k: nat := Min(c.dispatchWidth, Min(fits, c.robSize - |rob|)), 0;
      ghost var q, r := dispatch, rob;
      assert q[0..] == q && r + q[..0] == r;
      hide ReadySpan;
      while k < bw && dispatch != [] && dispatch[0].ready <= now
        invariant 0 <= k <= |q| && k <= bw && dispatch == q[k..] && rob == r + q[..k]
        invariant ReadySpan(q, bw, now) == k + ReadySpan(dispatch, bw - k, now)
      {
        ReadySpanStep(dispatch, bw - k, now);
        MoveOne(r, q, k);
        rob := rob + [dispatch[0]];
        dispatch := dispatch[1..];
        k := k + 1;
      }
      ReadySpanStop(dispatch, bw - k, now);
      assert k == ReadySpan(q, bw, now);
    }

    lemma MoveOne(r: seq<Instr>, q: seq<Instr>, k: nat)
      requires k < |q|
      ensures (r + q[..k]) + [q[k]] == r + q[..k + 1] && q[k..][1..] == q[k + 1..]
    {
    }
  }
}
