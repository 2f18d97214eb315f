/** What each stage of the front end (src/ooo_cpu.cc) moves, read off the state before it: which instructions, where to,
  * and why it stops where it does. */
module FrontEndLaws {
  import opened FrontEnd

  // Fetching.

  lemma {:induction false} InitSpanExactly(input: seq<Instr>, bw: nat, stop: set<nat>)
    ensures var k := InitSpan(input, bw, stop);
            && (forall m :: 0 <= m < k - 1 ==> input[m].id !in stop)
            && (k == |input| || k == bw || (k > 0 && input[k - 1].id in stop))
  {
    if input != [] && bw > 0 && input[0].id !in stop { InitSpanExactly(input[1..], bw - 1, stop); }
  }

  /** Instructions enter the fetch buffer in order, ready at once, up to the width, the room, or one that redirects
    * fetch, which still enters. */
  lemma FetchesExactly(c: Config, p: Pipe, now: int, stop: set<nat>)
    requires |p.fetch| <= c.fetchSize
    ensures var t := InitializeStage(c, p, now, stop);
            var k := |p.input| - |t.input|;
            && 0 <= k <= c.fetchWidth && |t.fetch| == |p.fetch| + k <= c.fetchSize
            && t == p.(fetch := t.fetch, input := p.input[k..]) && p.fetch <= t.fetch
            && (forall m :: 0 <= m < k ==> t.fetch[|p.fetch| + m] == p.input[m].(ready := now))
            && (forall m :: 0 <= m < k - 1 ==> p.input[m].id !in stop)
            && (k == |p.input| || k == c.fetchWidth || |t.fetch| == c.fetchSize || (k > 0 && p.input[k - 1].id in stop))
  {
    InitSpanExactly(p.input, Min(c.fetchWidth, c.fetchSize - |p.fetch|), stop);
  }

  // Looking up the decoded-instruction buffer.

  /** Instructions are looked up in the order in which they were fetched. */
  predicate CheckedFirst(s: seq<Instr>) { forall i, j :: 0 <= i < j < |s| && s[j].dibChecked ==> s[i].dibChecked }

  predicate Unchecked(s: seq<Instr>) { forall i :: 0 <= i < |s| ==> !s[i].dibChecked }

  function UncheckedIn(s: seq<Instr>): nat {
    if s == [] then 0 else UncheckedIn(s[..|s| - 1]) + if s[|s| - 1].dibChecked then 0 else 1
  }

  lemma {:induction false} FirstUncheckedExactly(s: seq<Instr>)
    ensures var k := FirstUnchecked(s); forall m :: 0 <= m < k ==> s[m].dibChecked
  {
    if s != [] && s[0].dibChecked { FirstUncheckedExactly(s[1..]); }
  }

  lemma {:induction false} UncheckedCounts(s: seq<Instr>, m: nat)
    requires CheckedFirst(s) && m <= |s|
    ensures UncheckedIn(s[..m]) == Max(0, m - FirstUnchecked(s))
  {
    FirstUncheckedExactly(s);
    if m > 0 {
      UncheckedCounts(s, m - 1);
      assert s[..m][..m - 1] == s[..m - 1];
    }
  }

  function Max(a: int, b: int): int { if a < b then b else a }

  /** As many instructions as the fetch width are looked up, the oldest not yet looked up; those found count as fetched
    * and decoded, ready at once; the others are only marked. */
  lemma ChecksExactly(c: Config, p: Pipe, now: int, hits: set<nat>)
    requires CheckedFirst(p.fetch)
    ensures var t := CheckStage(c, p, now, hits);
            && t == p.(fetch := t.fetch) && |t.fetch| == |p.fetch| && CheckedFirst(t.fetch)
            && forall m :: 0 <= m < |p.fetch| ==>
                 var e := p.fetch[m];
                 t.fetch[m] ==
                   if e.dibChecked || UncheckedIn(p.fetch[..m]) >= c.fetchWidth then e
                   else if e.id in hits
                     then e.(ready := now, dibChecked := true, fetchCompleted := true, decoded := true)
                   else e.(dibChecked := true)
  {
    FirstUncheckedExactly(p.fetch);
    var t, k := CheckStage(c, p, now, hits), FirstUnchecked(p.fetch);
    forall m | 0 <= m < |p.fetch| ensures UncheckedIn(p.fetch[..m]) == Max(0, m - k) {
      UncheckedCounts(p.fetch, m);
    }
    hide UncheckedIn;
  }

  // Promotion.

  predicate Fetched(e: Instr, now: int) { e.fetchCompleted && e.ready <= now }

  lemma {:induction false} FetchedSpanExactly(s: seq<Instr>, bw: nat, now: int)
    ensures var k := FetchedSpan(s, bw, now);
            && (forall m :: 0 <= m < k ==> Fetched(s[m], now))
            && (k == |s| || k == bw || !Fetched(s[k], now))
  {
    if s != [] && bw > 0 && Fetched(s[0], now) { FetchedSpanExactly(s[1..], bw - 1, now); }
  }

  lemma {:induction false} SelectHas(s: seq<Instr>, decoded: bool)
    ensures forall e :: e in Select(s, decoded) <==> e in s && e.decoded == decoded
    ensures |Select(s, decoded)| + |Select(s, !decoded)| == |s|
  {
    if s != [] {
      SelectHas(s[..|s| - 1], decoded);
      assert s == s[..|s| - 1] + [s[|s| - 1]];
    }
  }

  /** Where a promoted instruction goes, and when it may go on. */
  predicate PromotedTo(c: Config, e: Instr, now: int, dib: seq<Instr>, decode: seq<Instr>) {
    if e.decoded then e.(ready := now + c.dibLatency) in (if c.dibSize > 0 then dib else decode)
    else e.(ready := now + c.decodeLatency) in decode
  }

  lemma PromoteMoves(c: Config, p: Pipe, k: nat, now: int)
    requires k <= |p.fetch|
    ensures var t := Promote(c, p, k, now);
            && t == p.(fetch := p.fetch[k..], dib := t.dib, decode := t.decode)
            && p.dib <= t.dib && p.decode <= t.decode
            && |t.dib| + |t.decode| == |p.dib| + |p.decode| + k
            && forall m :: 0 <= m < k ==>
                 PromotedTo(c, p.fetch[m], now, t.dib[|p.dib|..], t.decode[|p.decode|..])
  {
    SelectHas(p.fetch[..k], true);
    hide Select, PromotedTo;
    forall m | 0 <= m < k
      ensures var t := Promote(c, p, k, now);
              PromotedTo(c, p.fetch[m], now, t.dib[|p.dib|..], t.decode[|p.decode|..])
    {
      if c.dibSize == 0 { PromotesToOne(c, p, k, now, m); } else { PromotesToEither(c, p, k, now, m); }
    }
  }

  lemma PromotesToOne(c: Config, p: Pipe, k: nat, now: int, m: nat)
    requires m < k <= |p.fetch| && c.dibSize == 0
    ensures var t := Promote(c, p, k, now); PromotedTo(c, p.fetch[m], now, t.dib[|p.dib|..], t.decode[|p.decode|..])
  {
    var t, e := Promote(c, p, k, now), p.fetch[m];
    assert t.decode[|p.decode|..][m] == e.(ready := now + if e.decoded then c.dibLatency else c.decodeLatency);
  }

  lemma PromotesToEither(c: Config, p: Pipe, k: nat, now: int, m: nat)
    requires m < k <= |p.fetch| && c.dibSize > 0
    ensures var t := Promote(c, p, k, now); PromotedTo(c, p.fetch[m], now, t.dib[|p.dib|..], t.decode[|p.decode|..])
  {
    hide Select, Delayed;
    var t, e, w := Promote(c, p, k, now), p.fetch[m], p.fetch[..k];
    SelectHas(w, e.decoded);
    assert w[m] == e;
    DelayedHas(Select(w, e.decoded), e, now + if e.decoded then c.dibLatency else c.decodeLatency);
    assert t.dib[|p.dib|..] == Delayed(Select(w, true), now + c.dibLatency);
    assert t.decode[|p.decode|..] == Delayed(Select(w, false), now + c.decodeLatency);
  }

  lemma DelayedHas(s: seq<Instr>, e: Instr, ready: int)
    requires e in s
    ensures e.(ready := ready) in Delayed(s, ready)
  {
    var i :| 0 <= i < |s| && s[i] == e;
    assert Delayed(s, ready)[i] == e.(ready := ready);
  }

  /** The oldest instructions that are fetched and ready leave the fetch buffer, up to the width and the room in both
    * buffers: those found decoded to the one, the others to the other, each with its own latency. */
  lemma PromotesExactly(c: Config, p: Pipe, now: int)
    requires |p.dib| <= c.dibSize && |p.decode| <= c.decodeSize
    ensures var t := PromoteStage(c, p, now);
            var k := |p.fetch| - |t.fetch|;
            && 0 <= k <= c.fetchWidth && |p.decode| + k <= c.decodeSize && (c.dibSize > 0 ==> |p.dib| + k <= c.dibSize)
            && t == p.(fetch := p.fetch[k..], dib := t.dib, decode := t.decode)
            && p.dib <= t.dib && p.decode <= t.decode
            && (forall m :: 0 <= m < k ==> Fetched(p.fetch[m], now))
            && (k == |p.fetch| || k == c.fetchWidth || |p.decode| + k == c.decodeSize
                || (c.dibSize > 0 && |p.dib| + k == c.dibSize) || !Fetched(p.fetch[k], now))
            && |t.dib| + |t.decode| == |p.dib| + |p.decode| + k
            && (forall m :: 0 <= m < k ==>
                  PromotedTo(c, p.fetch[m], now, t.dib[|p.dib|..], t.decode[|p.decode|..]))
  {
    var k := FetchedSpan(p.fetch, PromoteBandwidth(c, p), now);
    FetchedSpanExactly(p.fetch, PromoteBandwidth(c, p), now);
    PromoteMoves(c, p, k, now);
    hide Promote, PromotedTo, Fetched, FetchedSpan;
  }

  // Decoding.

  /** The buffer whose front is older gives the next instruction. */
  predicate DibNext(dib: seq<Instr>, decode: seq<Instr>, i: nat, j: nat) {
    i < |dib| && (j >= |decode| || dib[i].id < decode[j].id)
  }

  lemma {:induction false} GreedyExactly(dib: seq<Instr>, decode: seq<Instr>, i: nat, j: nat, w: nat, dw: nat, now: int)
    requires i <= |dib| && j <= |decode|
    ensures var r := Greedy(dib, decode, i, j, w, dw, now);
            && (r.0 - i) + (r.1 - j) <= w && r.1 - j <= dw
            && (forall x :: i <= x < r.0 ==> dib[x].ready <= now)
            && (forall y :: j <= y < r.1 ==> decode[y].ready <= now)
            && ((r.0 == |dib| && r.1 == |decode|) || (r.0 - i) + (r.1 - j) == w
                || if DibNext(dib, decode, r.0, r.1) then dib[r.0].ready > now
                   else r.1 < |decode| && (decode[r.1].ready > now || r.1 - j == dw))
    decreases |dib| - i + |decode| - j
  {
    if DibNext(dib, decode, i, j) {
      if w > 0 && dib[i].ready <= now { GreedyExactly(dib, decode, i + 1, j, w - 1, dw, now); }
    } else if j < |decode| {
      if w > 0 && dw > 0 && decode[j].ready <= now { GreedyExactly(dib, decode, i, j + 1, w - 1, dw - 1, now); }
    }
  }

  lemma {:induction false} MergeInstrsHas(a: seq<Instr>, b: seq<Instr>)
    ensures forall e :: e in MergeInstrs(a, b) <==> e in a || e in b
    ensures |MergeInstrs(a, b)| == |a| + |b|
    decreases |a| + |b|
  {
    if a != [] && b != [] {
      assert a == [a[0]] + a[1..] && b == [b[0]] + b[1..];
      if b[0].id < a[0].id { MergeInstrsHas(a, b[1..]); } else { MergeInstrsHas(a[1..], b); }
    }
  }

  lemma DecodeMoves(p: Pipe, i: nat, j: nat, ready: int)
    requires i <= |p.dib| && j <= |p.decode|
    ensures var t := Decode(p, i, j, ready);
            && t == p.(dib := p.dib[i..], decode := p.decode[j..], dispatch := t.dispatch) && p.dispatch <= t.dispatch
            && |t.dispatch| == |p.dispatch| + i + j
            && (forall x :: 0 <= x < i ==> p.dib[x].(ready := ready) in t.dispatch[|p.dispatch|..])
            && (forall y :: 0 <= y < j ==> p.decode[y].(ready := ready) in t.dispatch[|p.dispatch|..])
  {
    var a, b := Delayed(p.dib[..i], ready), Delayed(p.decode[..j], ready);
    MergeInstrsHas(a, b);
    assert Decode(p, i, j, ready).dispatch[|p.dispatch|..] == MergeInstrs(a, b);
    forall x | 0 <= x < i ensures p.dib[x].(ready := ready) in a {
      assert p.dib[..i][x] == p.dib[x];
      DelayedHas(p.dib[..i], p.dib[x], ready);
    }
    forall y | 0 <= y < j ensures p.decode[y].(ready := ready) in b {
      assert p.decode[..j][y] == p.decode[y];
      DelayedHas(p.decode[..j], p.decode[y], ready);
    }
    hide MergeInstrs, Delayed;
  }

  /** Decoding i and j instructions takes ready ones only, and goes on as far as it can. */
  predicate AsFarAsReady(c: Config, p: Pipe, i: nat, j: nat, now: int)
    requires i <= |p.dib| && j <= |p.decode|
  {
    var width := if c.dibSize == 0 then c.decodeWidth else c.inorderWidth;
    && i + j <= width && j <= c.decodeWidth && |p.dispatch| + i + j <= c.dispatchSize
    && (forall x :: 0 <= x < i ==> p.dib[x].ready <= now) && (forall y :: 0 <= y < j ==> p.decode[y].ready <= now)
    && ((i == |p.dib| && j == |p.decode|) || i + j == width || |p.dispatch| + i + j == c.dispatchSize
        || if DibNext(p.dib, p.decode, i, j) then p.dib[i].ready > now
           else j < |p.decode| && (p.decode[j].ready > now || j == c.decodeWidth))
  }

  lemma DecodesAsFar(c: Config, p: Pipe, now: int)
    requires |p.dispatch| <= c.dispatchSize
    ensures var r := Greedy(p.dib, p.decode, 0, 0, DecodeWindow(c, p), c.decodeWidth, now);
            AsFarAsReady(c, p, r.0, r.1, now)
  {
    GreedyExactly(p.dib, p.decode, 0, 0, DecodeWindow(c, p), c.decodeWidth, now);
    hide Greedy, DibNext;
  }

  /** Decoding moves the oldest ready instructions of both buffers together, all of them older than any left behind, up
    * to the width, the room, and the decode width for those that were not found decoded; the first one left behind is
    * not ready unless one of these is used up. */
  lemma DecodesExactly(c: Config, p: Pipe, stream: seq<nat>, now: int)
    requires Valid(c, p, stream)
    ensures var t := DecodeStage(c, p, now);
            var i, j := |p.dib| - |t.dib|, |p.decode| - |t.decode|;
            && 0 <= i && 0 <= j && AsFarAsReady(c, p, i, j, now) && Prefix(p.dib, p.decode, i, j)
            && t == p.(dib := p.dib[i..], decode := p.decode[j..], dispatch := t.dispatch) && p.dispatch <= t.dispatch
            && |t.dispatch| == |p.dispatch| + i + j
            && (forall x :: 0 <= x < i ==>
                  p.dib[x].(ready := now + c.dispatchLatency) in t.dispatch[|p.dispatch|..])
            && (forall y :: 0 <= y < j ==>
                  p.decode[y].(ready := now + c.dispatchLatency) in t.dispatch[|p.dispatch|..])
  {
    var w := DecodeWindow(c, p);
    var r := Greedy(p.dib, p.decode, 0, 0, w, c.decodeWidth, now);
    BuffersDisjoint(c, p, stream);
    GreedyTakesPrefix(p.dib, p.decode, 0, 0, w, c.decodeWidth, now);
    DecodesAsFar(c, p, now);
    DecodeMoves(p, r.0, r.1, now + c.dispatchLatency);
    hide Greedy, Ordered, Disjoint, InOrder, Increasing, Prefix, Decode, AsFarAsReady, Merge, Ids;
  }

  // Dispatch.

  lemma {:induction false} ReadySpanExactly(s: seq<Instr>, bw: nat, now: int)
    ensures var k := ReadySpan(s, bw, now);
            && (forall m :: 0 <= m < k ==> s[m].ready <= now) && (k == |s| || k == bw || s[k].ready > now)
  {
    if s != [] && bw > 0 && s[0].ready <= now { ReadySpanExactly(s[1..], bw - 1, now); }
  }

  /** The oldest ready instructions go to the reorder buffer, up to the width, the room there, and what fits into the
    * load and store queues. */
  lemma DispatchesExactly(c: Config, p: Pipe, now: int, fits: nat)
    requires |p.rob| <= c.robSize
    ensures var t := DispatchStage(c, p, now, fits);
            var k := |p.dispatch| - |t.dispatch|;
            && 0 <= k <= c.dispatchWidth && k <= fits && |p.rob| + k <= c.robSize
            && t == p.(dispatch := p.dispatch[k..], rob := p.rob + p.dispatch[..k])
            && (forall m :: 0 <= m < k ==> p.dispatch[m].ready <= now)
            && (k == |p.dispatch| || k == c.dispatchWidth || k == fits || |t.rob| == c.robSize
                || p.dispatch[k].ready > now)
  {
    ReadySpanExactly(p.dispatch, Min(c.dispatchWidth, Min(fits, c.robSize - |p.rob|)), now);
  }

  // Over runs.

  predicate Ordinary(p: Pipe) { CheckedFirst(p.fetch) && Unchecked(p.input) }

  lemma Within(c: Config, p: Pipe, stream: seq<nat>)
    requires Valid(c, p, stream)
    ensures |p.fetch| <= c.fetchSize && |p.dib| <= c.dibSize && |p.decode| <= c.decodeSize
  {
  }

  lemma ApplyChecksInOrder(c: Config, p: Pipe, stream: seq<nat>, e: Event)
    requires Valid(c, p, stream) && Ordinary(p)
    ensures Ordinary(Apply(c, p, stream, e))
  {
    Within(c, p, stream);
    hide Valid, Merge, InOrder;
    match e
    case Fetches(now, stop) => FetchesExactly(c, p, now, stop);
    case Checks(now, hits) => ChecksExactly(c, p, now, hits);
    case Promotes(now) => PromotesExactly(c, p, now);
    case _ =>
  }

  /** In every run from a pipe of instructions not looked up yet, they are looked up in order, so that ChecksExactly
    * says what every lookup does. */
  lemma {:induction false} RunChecksInOrder(c: Config, p: Pipe, stream: seq<nat>, es: seq<Event>)
    requires Valid(c, p, stream) && Ordinary(p)
    ensures Ordinary(Run(c, p, stream, es))
    decreases |es|
  {
    hide Valid, Ordinary, Apply;
    if es != [] {
      ApplyChecksInOrder(c, p, stream, es[0]);
      RunChecksInOrder(c, Apply(c, p, stream, es[0]), stream, es[1..]);
    }
  }
}
