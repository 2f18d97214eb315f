/** What the steps of the miss handling in src/cache.cc do, read off the state before them. */
module MissLaws {
  import opened Options
  import opened MissHandling
  import C = Channels

  predicate SameBlock(c: Config, a: nat, b: nat) { BlockOf(c, a) == BlockOf(c, b) }

  /** Data from below completes the one register for its block, `fillLatency` later, and puts it behind the registers
    * already complete and before all that wait; no other register changes. */
  lemma AnswerCompletes(c: Config, s: Cache, a: nat) returns (k: nat, f: nat)
    requires MshrOk(c, s.mshr, s.asked) && BlockOf(c, a) in s.asked
    ensures f <= k < |s.mshr| && SameBlock(c, s.mshr[k].address, a) && s.mshr[k].ready.None?
    ensures FindMiss(c, s.mshr, a) == k && FirstUnreturned(s.mshr) == f
    ensures var t := FinishedPacket(c, s, a);
            && t == s.(mshr := t.mshr, asked := s.asked - {BlockOf(c, a)}) && |t.mshr| == |s.mshr|
            && t.mshr[f] == s.mshr[k].(ready := Some(s.now + c.fillLatency))
            && (forall j :: 0 <= j < f ==> t.mshr[j] == s.mshr[j] && s.mshr[j].ready.Some?)
            && (forall j :: f < j < |s.mshr| ==> t.mshr[j].ready.None?)
            && (forall j :: f < j < |s.mshr| && j != k ==> t.mshr[j] == s.mshr[j])
            && (f < k ==> t.mshr[k] == s.mshr[f])
  {
    AnswerFindsRegister(c, s, a);
    k, f := FindMiss(c, s.mshr, a), FirstUnreturned(s.mshr);
    assert forall j :: f <= j < |s.mshr| ==> s.mshr[j].ready.None?;
  }

  /** Data from another node completes the register for its block, and puts it before all others. */
  lemma RemoteCompletes(c: Config, s: Cache, a: nat) returns (k: nat)
    requires MshrOk(c, s.mshr, s.asked) && BlockOf(c, a) in s.asked
    ensures k < |s.mshr| && SameBlock(c, s.mshr[k].address, a) && s.mshr[k].ready.None? && FindMiss(c, s.mshr, a) == k
    ensures var t := RemoteResponse(c, s, a);
            && t == s.(mshr := t.mshr, asked := s.asked - {BlockOf(c, a)}) && |t.mshr| == |s.mshr|
            && t.mshr[0] == s.mshr[k].(ready := Some(s.now + c.fillLatency))
            && forall j :: 0 < j < |s.mshr| ==> t.mshr[j] == s.mshr[if j <= k then j - 1 else j]
  {
    AnswerFindsRegister(c, s, a);
    k := FindMiss(c, s.mshr, a);
  }

  ghost predicate HasRegister(c: Config, s: Cache, t: Tag) {
    exists k :: 0 <= k < |s.mshr| && SameBlock(c, s.mshr[k].address, t.address)
  }

  predicate Direct(c: Config, t: Tag) { t.kind.Write? && !c.matchOffset }

  /** A write goes ahead without a register, unless the cache compares offsets. Any other miss joins the register for
    * its block; without one it fails exactly when all are taken or the request below is refused, and otherwise gets a
    * new one behind the others, unless it is a prefetch that wants no answer. */
  lemma MissExactly(c: Config, s: Cache, t: Tag, accepted: bool)
    requires UniqueBlocks(c, s.mshr)
    ensures Miss1(c, s, t, accepted).None? <==>
              !Direct(c, t) && !HasRegister(c, s, t) && (|s.mshr| >= c.mshrSize || !accepted)
    ensures var r := Miss1(c, s, t, accepted);
            r.Some? ==>
              var u := r.value;
              && u == s.(mshr := u.mshr, writes := u.writes, asked := u.asked, log := u.log)
              && (if Direct(c, t) then
                    && u.mshr == s.mshr && u.asked == s.asked && |u.writes| == |s.writes| + 1 && s.writes <= u.writes
                    && ForTag(u.writes[|s.writes|], t, Some(s.now + c.fillLatency))
                  else if HasRegister(c, s, t) then
                    && u.writes == s.writes && u.asked == s.asked && |u.mshr| == |s.mshr|
                    && forall k :: 0 <= k < |s.mshr| ==>
                         if SameBlock(c, s.mshr[k].address, t.address)
                         then u.mshr[k].merged == s.mshr[k].merged + [t] && u.mshr[k].ready == s.mshr[k].ready
                         else u.mshr[k] == s.mshr[k]
                  else if t.local && t.skip then u.mshr == s.mshr && u.writes == s.writes && u.asked == s.asked
                  else
                    && u.writes == s.writes && |u.mshr| == |s.mshr| + 1 && s.mshr <= u.mshr
                    && ForTag(u.mshr[|s.mshr|], t, None) && u.asked == s.asked + {BlockOf(c, t.address)})
  {
    var k := FindMiss(c, s.mshr, t.address);
    if k < |s.mshr| {
      assert SameBlock(c, s.mshr[k].address, t.address);
      forall j | 0 <= j < |s.mshr| ensures SameBlock(c, s.mshr[j].address, t.address) <==> j == k {}
    }
    hide C.Block, FindMiss;
  }

  /** A register or write for one request. */
  predicate ForTag(m: Miss, t: Tag, ready: Option<int>) {
    && m.address == t.address && m.vAddress == t.vAddress && m.kind == t.kind && m.local == t.local
    && m.deps == t.deps && m.sinks == t.sinks && m.merged == [t] && m.ready == ready
  }

  /** A miss that failed may have been followed by others that did not. It stays only if it is no direct write, has
    * had no register, and was refused below or finds all registers taken in the end. */
  ghost predicate Fails(c: Config, s: Cache, t: Cache, x: Tag, hit: bool, accepted: bool) {
    !hit && !Direct(c, x) && !HasRegister(c, s, x) && (!accepted || |t.mshr| >= c.mshrSize)
  }

  ghost predicate KeptFor(c: Config, s: Cache, t: Cache, span: seq<Tag>, hits: seq<bool>, accepted: seq<bool>, x: Tag)
    requires |hits| == |span| == |accepted|
  {
    exists k :: 0 <= k < |span| && span[k] == x && Fails(c, s, t, x, hits[k], accepted[k])
  }

  lemma {:induction false} MissesGrow(c: Config, s: Cache, span: seq<Tag>, hits: seq<bool>, accepted: seq<bool>)
    requires |hits| == |span| == |accepted|
    ensures var t := Misses(c, s, span, hits, accepted).0;
            && |s.mshr| <= |t.mshr|
            && forall k :: 0 <= k < |s.mshr| ==> SameBlock(c, t.mshr[k].address, s.mshr[k].address)
    decreases |span|
  {
    if span != [] {
      var next := s;
      if !hits[0] && Miss1(c, s, span[0], accepted[0]).Some? { next := Miss1(c, s, span[0], accepted[0]).value; }
      assert forall k :: 0 <= k < |s.mshr| ==> SameBlock(c, next.mshr[k].address, s.mshr[k].address);
      hide Miss1, C.Block;
      MissesGrow(c, next, span[1..], hits[1..], accepted[1..]);
    }
  }

  lemma FirstFails(c: Config, s: Cache, t: Tag, accepted: bool)
    requires Miss1(c, s, t, accepted).None?
    ensures !Direct(c, t) && !HasRegister(c, s, t) && (|s.mshr| >= c.mshrSize || !accepted)
  {
    hide C.Block;
  }

  lemma NextGrows(c: Config, s: Cache, t: Tag, accepted: bool, x: Tag)
    requires Miss1(c, s, t, accepted).Some?
    ensures HasRegister(c, s, x) ==> HasRegister(c, Miss1(c, s, t, accepted).value, x)
  {
    var u := Miss1(c, s, t, accepted).value;
    if HasRegister(c, s, x) {
      var k :| 0 <= k < |s.mshr| && SameBlock(c, s.mshr[k].address, x.address);
      assert SameBlock(c, u.mshr[k].address, x.address);
    }
  }

  /** Those that stay are misses that failed; a failure holds up none behind it. */
  lemma {:induction false} KeptExactly(c: Config, s: Cache, span: seq<Tag>, hits: seq<bool>, accepted: seq<bool>,
                                       x: Tag)
    requires |hits| == |span| == |accepted|
    ensures var (t, kept) := Misses(c, s, span, hits, accepted);
            |kept| <= |span| && (x in kept ==> KeptFor(c, s, t, span, hits, accepted, x))
    decreases |span|
  {
    if span != [] {
      var next := s;
      var r := Miss1(c, s, span[0], accepted[0]);
      if !hits[0] && r.Some? {
        NextGrows(c, s, span[0], accepted[0], x);
        next := r.value;
      }
      var (t, kept) := Misses(c, next, span[1..], hits[1..], accepted[1..]);
      MissesGrow(c, next, span[1..], hits[1..], accepted[1..]);
      KeptExactly(c, next, span[1..], hits[1..], accepted[1..], x);
      if !hits[0] && r.None? {
        FirstFails(c, s, span[0], accepted[0]);
        assert Fails(c, s, t, span[0], hits[0], accepted[0]);
      }
      hide Miss1, HasRegister, Direct;
      if x in kept {
        var k :| 0 <= k < |span[1..]| && span[1..][k] == x && Fails(c, next, t, x, hits[1..][k], accepted[1..][k]);
        assert Fails(c, s, t, x, hits[k + 1], accepted[k + 1]);
      }
    }
  }

  // Translations.

  ghost predicate WaitsFor(c: Config, t: Tag, v: nat) {
    !t.translated && t.vAddress / c.pageSize == v / c.pageSize
  }

  /** The request with its translation: the frame, and its own place in the page. */
  predicate Mapped(c: Config, t: Tag, u: Tag, frame: nat) {
    u == t.(address := u.address, translated := true) && u.address / c.pageSize == frame
    && u.address % c.pageSize == t.vAddress % c.pageSize
  }

  lemma {:induction false} MatchingAre(c: Config, q: seq<Tag>, v: nat)
    ensures forall x :: x in Matching(c, q, v) <==> x in q && WaitsFor(c, x, v)
    ensures forall x :: x in NotMatching(c, q, v) <==> x in q && !WaitsFor(c, x, v)
  {
    if q != [] {
      MatchingAre(c, q[1..], v);
      assert q == [q[0]] + q[1..];
    }
  }

  lemma {:induction false} TranslatedPrefix(q: seq<Tag>)
    ensures forall k :: 0 <= k < TranslatedFirst(q) ==> q[k].translated
  {
    if q != [] && q[0].translated { TranslatedPrefix(q[1..]); }
  }

  lemma MapsTo(c: Config, t: Tag, v: nat, frame: nat)
    ensures var u := Translated(c, t, v, frame); if WaitsFor(c, t, v) then Mapped(c, t, u, frame) else u == t
  {
    Frame(frame, c.pageSize, t.vAddress % c.pageSize);
  }

  lemma Frame(frame: nat, size: C.Positive, offset: nat)
    requires offset < size
    ensures (frame * size + offset) / size == frame && (frame * size + offset) % size == offset
  {
    var x := frame * size + offset;
    assert x == (x / size) * size + x % size;
    var d := x / size - frame;
    assert d * size == offset - x % size;
    assert (d > 0 ==> d * size >= size) && (d < 0 ==> d * size + size <= 0);
  }

  /** Each request is looked up again with its translation if it waits for that page, and is unchanged otherwise. */
  predicate TurnsInto(c: Config, t: Tag, u: Tag, v: nat, frame: nat) {
    u == t || (!t.translated && t.vAddress / c.pageSize == v / c.pageSize && Mapped(c, t, u, frame))
  }

  ghost predicate ComesFrom(c: Config, q: seq<Tag>, u: Tag, v: nat, frame: nat) {
    exists t :: t in q && TurnsInto(c, t, u, v, frame)
  }

  lemma StashTranslated(c: Config, q: seq<Tag>, v: nat, frame: nat, u: Tag)
    requires var k := TranslatedFirst(q);
             u in q[..k] + TranslatedAll(c, Matching(c, q[k..], v), v, frame) + NotMatching(c, q[k..], v)
    ensures !WaitsFor(c, u, v) && ComesFrom(c, q, u, v, frame)
  {
    var k := TranslatedFirst(q);
    var m := Matching(c, q[k..], v);
    TranslatedPrefix(q);
    MatchingAre(c, q[k..], v);
    if u in q[..k] || u in NotMatching(c, q[k..], v) {
      assert TurnsInto(c, u, u, v, frame);
    } else {
      var i :| 0 <= i < |m| && TranslatedAll(c, m, v, frame)[i] == u;
      MapsTo(c, m[i], v, frame);
      assert m[i] in m && TurnsInto(c, m[i], u, v, frame);
    }
  }

  /** Afterwards nobody waits for the page: all who did have its frame and their own place in it, and nobody else has
    * changed; those being looked up keep their order. */
  lemma TranslatesExactly(c: Config, s: Cache, v: nat, frame: nat)
    ensures var t := FinishTranslation(c, s, v, frame);
            && t == s.(inflight := t.inflight, stash := t.stash) && |t.inflight| == |s.inflight|
            && (forall k :: 0 <= k < |s.inflight| ==>
                  && !WaitsFor(c, t.inflight[k], v) && TurnsInto(c, s.inflight[k], t.inflight[k], v, frame))
            && (forall u :: u in t.stash ==> !WaitsFor(c, u, v) && ComesFrom(c, s.stash, u, v, frame))
  {
    var t := FinishTranslation(c, s, v, frame);
    forall k | 0 <= k < |s.inflight|
      ensures !WaitsFor(c, t.inflight[k], v) && TurnsInto(c, s.inflight[k], t.inflight[k], v, frame)
    {
      MapsTo(c, s.inflight[k], v, frame);
    }
    forall u | u in t.stash ensures !WaitsFor(c, u, v) && ComesFrom(c, s.stash, u, v, frame) {
      StashTranslated(c, s.stash, v, frame, u);
    }
  }

  // Beginning.

  /** A request begun from a channel, to be looked up `hitLatency` later. */
  predicate BegunAs(c: Config, s: Cache, ul: nat, r: C.Request, t: Tag) {
    && t.address == r.address && t.vAddress == r.vAddress && t.kind == r.kind && t.translated == r.translated
    && t.deps == r.deps && t.sinks == (if r.wanted then [ul] else []) && !t.local && !t.skip
    && t.event == s.now + c.hitLatency
  }

  /** The first requests of the queue are begun in order, numbered on, and no other channel is touched. */
  lemma BeginsExactly(c: Config, s: Cache, ul: nat, w: Which, n: nat)
    requires ul < |s.uppers| && n <= |QueueOf(s.uppers[ul], w)|
    ensures var t, q := TakeUpper(c, s, ul, w, n), QueueOf(s.uppers[ul], w);
            && t == s.(uppers := t.uppers, inflight := t.inflight, taken := s.taken + n)
            && |t.uppers| == |s.uppers| && QueueOf(t.uppers[ul], w) == q[n..]
            && t.uppers[ul].returned == s.uppers[ul].returned
            && (forall x :: x != w ==> QueueOf(t.uppers[ul], x) == QueueOf(s.uppers[ul], x))
            && (forall k :: 0 <= k < |s.uppers| && k != ul ==> t.uppers[k] == s.uppers[k])
            && |t.inflight| == |s.inflight| + n && s.inflight <= t.inflight
            && forall k :: 0 <= k < n ==>
                 BegunAs(c, s, ul, q[k], t.inflight[|s.inflight| + k]) && t.inflight[|s.inflight| + k].id == s.taken + k
  {
    var q := QueueOf(s.uppers[ul], w);
    forall k | 0 <= k < n ensures BegunAs(c, s, ul, q[k], TagsFor(c, s, ul, q[..n])[k]) {
      BegunIs(c, s, ul, q[..n], k);
    }
    hide BegunAs;
  }

  lemma BegunIs(c: Config, s: Cache, ul: nat, q: seq<C.Request>, k: nat)
    requires k < |q|
    ensures BegunAs(c, s, ul, q[k], TagsFor(c, s, ul, q)[k])
  {
  }
}
