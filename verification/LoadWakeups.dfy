/** Loads and instruction fetches find themselves in a reply by its virtual block (src/ooo_cpu.cc), while misses are
  * merged by physical block (src/cache.cc). None of them is forgotten exactly when no two pages share a frame. */
module LoadWakeups {
  import opened Options
  import opened MissHandling
  import opened Wakeups
  import C = Channels

  /** A page and the frame it is translated to. */
  datatype Mapping = Mapping(page: nat, frame: nat)

  predicate OneToOne(table: set<Mapping>) {
    forall x, y :: x in table && y in table && x.frame == y.frame ==> x.page == y.page
  }

  function PageOf(c: Config, a: nat): nat { C.Block(c.pageSize, a) }

  predicate WholeBlocks(c: Config) { c.pageSize % c.channel.blockSize == 0 }

  /** The core issues untranslated loads and stores under their virtual address; other users of the cache stay away
    * from its frames; translations are those of the table. */
  predicate CoreEvent(c: Config, table: set<Mapping>, e: Event) {
    match e
    case Request(_, _, r) =>
      && !r.kind.Prefetch?
      && (if r.translated then forall m :: m in table ==> m.frame != PageOf(c, r.address) else r.address == r.vAddress)
    case Translate(v, frame) => Mapping(PageOf(c, v), frame) in table
    case _ => true
  }

  ghost predicate IsCoreRun(c: Config, table: set<Mapping>, states: seq<Cache>, events: seq<Event>) {
    IsRun(c, states, events) && forall k :: 0 <= k < |events| ==> CoreEvent(c, table, events[k])
  }

  // Who waits, and what for.

  /** A load looks for its virtual block only, an instruction fetch for itself among the dependents as well. */
  datatype Look = Look(sink: nat, id: Option<nat>, vBlock: nat)

  predicate ListedIn(x: Look, deps: seq<nat>) { x.id.Some? ==> x.id.value in deps }

  /** The core has issued the read. */
  ghost predicate Issued(c: Config, s: Cache, x: Look) {
    x.sink < |s.uppers| && exists k :: 0 <= k < |s.uppers[x.sink].rq| && Issues(c, s.uppers[x.sink].rq[k], x)
  }

  predicate Issues(c: Config, r: C.Request, x: Look) {
    r.wanted && !r.translated && ListedIn(x, r.deps) && BlockOf(c, r.address) == x.vBlock
  }

  ghost predicate Queued(c: Config, q: seq<C.Request>, x: Look) {
    exists r :: r in q && r.wanted && ListedIn(x, r.deps) && BlockOf(c, r.vAddress) == x.vBlock
  }

  predicate TagFits(c: Config, t: Tag, x: Look) {
    x.sink in t.sinks && ListedIn(x, t.deps) && BlockOf(c, t.vAddress) == x.vBlock
  }

  predicate MissFits(c: Config, m: Miss, x: Look) {
    x.sink in m.sinks && ListedIn(x, m.deps) && BlockOf(c, m.vAddress) == x.vBlock
  }

  /** Somewhere in the cache a reply for it is in preparation. */
  ghost predicate Inside(c: Config, s: Cache, x: Look) {
    || (x.sink < |s.uppers|
        && var ch := s.uppers[x.sink]; Queued(c, ch.rq, x) || Queued(c, ch.pq, x) || Queued(c, ch.wq, x))
    || (exists t :: (t in s.inflight || t in s.stash) && TagFits(c, t, x))
    || (exists m :: (m in s.mshr || m in s.writes) && MissFits(c, m, x))
  }

  predicate ReplyFits(c: Config, r: C.Reply, x: Look) { ListedIn(x, r.deps) && BlockOf(c, r.vAddress) == x.vBlock }

  /** It has been sent such a reply between the two states. */
  ghost predicate Replied(c: Config, s: Cache, t: Cache, x: Look) {
    || (x.sink < |t.uppers| && x.sink < |s.uppers|
        && exists k :: |s.uppers[x.sink].returned| <= k < |t.uppers[x.sink].returned|
                       && ReplyFits(c, t.uppers[x.sink].returned[k], x))
    || (exists k :: |s.responses| <= k < |t.responses| && t.responses[k].sink == x.sink
                    && ReplyFits(c, t.responses[k].reply, x))
  }

  /** Every read issued in any run is at every later point still in preparation, or has been replied to. */
  ghost predicate ReadsWoken(c: Config, table: set<Mapping>) {
    forall states, events, i: nat, j: nat, x | IsCoreRun(c, table, states, events) && i <= j < |states| ::
      Issued(c, states[i], x) ==> Inside(c, states[j], x) || Replied(c, states[i], states[j], x)
  }

  // One page to a frame.

  lemma DivideIs(q: nat, d: nat, r: nat)
    requires r < d
    ensures (q * d + r) / d == q && (q * d + r) % d == r
  {
    var p, k: int := (q * d + r) / d, d;
    assert (p - q) * k == r - (q * d + r) % d;
    assert p - q >= 1 ==> (p - q) * k >= k;
    assert p - q <= -1 ==> (p - q) * k <= -k;
  }

  lemma Multiplied(bs: nat, n: nat, page: nat, k: nat)
    ensures page * (n * bs) == (page * n) * bs && (page * n + k) * bs == page * (n * bs) + k * bs
  {
  }

  /** A block lies within its page; `n` is the number of blocks of a page, `k` the block's place in it. */
  lemma BlockAt(bs: C.Positive, n: nat, page: nat, k: nat, r: nat)
    requires k * bs < n * bs && r < bs
    ensures (page * (n * bs) + (k * bs + r)) / bs == page * n + k
    ensures ((page * n + k) * bs) / (n * bs) == page && ((page * n + k) * bs) % (n * bs) == k * bs
  {
    var size: nat, first: nat, blocks: nat := n * bs, k * bs, page * n + k;
    Multiplied(bs, n, page, k);
    assert page * size + (first + r) == blocks * bs + r;
    DivideIs(blocks, bs, r);
    DivideIs(page, size, first);
  }

  lemma BlockInPage(bs: C.Positive, n: nat, page: nat, offset: nat)
    requires n > 0 && offset < n * bs
    ensures (page * (n * bs) + offset) / bs == page * n + offset / bs
    ensures ((page * n + offset / bs) * bs) / (n * bs) == page
    ensures ((page * n + offset / bs) * bs) % (n * bs) == offset / bs * bs
    ensures offset / bs * bs <= offset
  {
    var k: nat, r := offset / bs, offset % bs;
    assert offset == k * bs + r;
    BlockAt(bs, n, page, k, r);
  }

  function BlocksPerPage(c: Config): (n: nat)
    requires WholeBlocks(c)
    ensures n > 0 && n * c.channel.blockSize == c.pageSize
  {
    var n := c.pageSize / c.channel.blockSize;
    assert n * c.channel.blockSize == c.pageSize;
    n
  }

  /** The virtual block a physical block holds. */
  ghost function Origin(c: Config, table: set<Mapping>, b: nat): Option<nat> {
    var a := b * c.channel.blockSize;
    if exists m :: m in table && m.frame == PageOf(c, a) then
      var m :| m in table && m.frame == PageOf(c, a);
      Some(BlockOf(c, m.page * c.pageSize + a % c.pageSize))
    else None
  }

  lemma OriginOf(c: Config, table: set<Mapping>, page: nat, frame: nat, offset: nat)
    requires WholeBlocks(c) && OneToOne(table) && Mapping(page, frame) in table && offset < c.pageSize
    ensures Origin(c, table, BlockOf(c, frame * c.pageSize + offset)) == Some(BlockOf(c, page * c.pageSize + offset))
  {
    var bs, n := c.channel.blockSize, BlocksPerPage(c);
    BlockInPage(bs, n, frame, offset);
    BlockInPage(bs, n, page, offset);
    BlockInPage(bs, n, page, offset / bs * bs);
    DivideIs(offset / bs, bs, 0);
    var a := BlockOf(c, frame * c.pageSize + offset) * bs;
    assert PageOf(c, a) == frame && a % c.pageSize == offset / bs * bs;
    assert Mapping(page, frame).frame == PageOf(c, a);
  }

  lemma NoOrigin(c: Config, table: set<Mapping>, a: nat)
    requires WholeBlocks(c) && forall m :: m in table ==> m.frame != PageOf(c, a)
    ensures Origin(c, table, BlockOf(c, a)) == None
  {
    var page, offset := a / c.pageSize, a % c.pageSize;
    assert a == page * c.pageSize + offset;
    InPage(c, page, offset);
  }

  /** The first address of a block is in the page of every address of the block. */
  lemma InPage(c: Config, page: nat, offset: nat)
    requires WholeBlocks(c) && offset < c.pageSize
    ensures PageOf(c, page * c.pageSize + offset) == page
    ensures PageOf(c, BlockOf(c, page * c.pageSize + offset) * c.channel.blockSize) == page
  {
    BlockInPage(c.channel.blockSize, BlocksPerPage(c), page, offset);
    DivideIs(page, c.pageSize, offset);
  }

  /** The waiter of the cache's own account. */
  ghost function AsWaiter(c: Config, table: set<Mapping>, s: Cache, x: Look): C.Waiter {
    C.Waiter(x.sink, x.id, None, Some(x.vBlock), b => Origin(c, table, b), |s.responses|,
             if x.sink < |s.uppers| then |s.uppers[x.sink].returned| else 0)
  }

  lemma HonestRun(c: Config, table: set<Mapping>, e: Event, w: C.Waiter)
    requires WholeBlocks(c) && OneToOne(table) && CoreEvent(c, table, e) && w.origin == (b => Origin(c, table, b))
    ensures HonestEvent(c, e, w)
  {
    match e
    case Request(_, _, r) => if r.translated { NoOrigin(c, table, r.address); }
    case Translate(v, frame) =>
      var page := PageOf(c, v);
      forall a: nat | PageOf(c, a) == page
        ensures Origin(c, table, BlockOf(c, frame * c.pageSize + a % c.pageSize)) == Some(BlockOf(c, a))
      {
        assert a == page * c.pageSize + a % c.pageSize;
        OriginOf(c, table, page, frame, a % c.pageSize);
      }
    case _ =>
  }

  lemma IssuedIsOwed(c: Config, table: set<Mapping>, s: Cache, x: Look)
    requires Issued(c, s, x)
    ensures Owed(c, s, AsWaiter(c, table, s, x)) && Begun(s, AsWaiter(c, table, s, x))
  {
    var w := AsWaiter(c, table, s, x);
    var k :| 0 <= k < |s.uppers[x.sink].rq| && Issues(c, s.uppers[x.sink].rq[k], x);
    assert C.Asks(c.channel.blockSize, s.uppers[x.sink].rq[k], w);
  }

  lemma QueuedSo(c: Config, q: seq<C.Request>, x: Look, w: C.Waiter)
    requires C.Asked(c.channel.blockSize, q, w) && C.AllHonest(c.channel.blockSize, q, w)
    requires w.id == x.id && w.block.None? && w.vBlock == Some(x.vBlock)
    ensures Queued(c, q, x)
  {
    hide C.Block;
    var k :| 0 <= k < |q| && C.Asks(c.channel.blockSize, q[k], w);
    assert q[k] in q;
  }

  lemma TagsSo(c: Config, q: seq<Tag>, x: Look, w: C.Waiter)
    requires TagsOwe(c, q, w) && HonestTags(c, q, w)
    requires w.sink == x.sink && w.id == x.id && w.block.None? && w.vBlock == Some(x.vBlock)
    ensures exists t :: t in q && TagFits(c, t, x)
  {
    hide C.Block;
    var t :| t in q && TagOwes(c, t, w);
    assert HonestTag(c, t, w);
  }

  lemma MissesSo(c: Config, q: seq<Miss>, x: Look, w: C.Waiter)
    requires MissesOwe(c, q, w) && HonestMisses(c, q, w)
    requires w.sink == x.sink && w.id == x.id && w.block.None? && w.vBlock == Some(x.vBlock)
    ensures exists m :: m in q && MissFits(c, m, x)
  {
    hide C.Block;
    var m :| m in q && MissOwes(c, m, w);
    assert HonestMiss(c, m, w);
  }

  /** What is owed on the cache's account is in preparation under the virtual block. */
  lemma OwedIsInside(c: Config, s: Cache, x: Look, w: C.Waiter)
    requires Owed(c, s, w) && HonestCache(c, s, w)
    requires w.sink == x.sink && w.id == x.id && w.block.None? && w.vBlock == Some(x.vBlock)
    ensures Inside(c, s, x)
  {
    hide TagsOwe, MissesOwe, HonestTags, HonestMisses, C.Asked, C.AllHonest, Queued, TagFits, MissFits;
    if TagsOwe(c, s.inflight, w) {
      TagsSo(c, s.inflight, x, w);
    } else if TagsOwe(c, s.stash, w) {
      TagsSo(c, s.stash, x, w);
    } else if MissesOwe(c, s.mshr, w) {
      MissesSo(c, s.mshr, x, w);
    } else if MissesOwe(c, s.writes, w) {
      MissesSo(c, s.writes, x, w);
    } else {
      var ch := s.uppers[w.sink];
      if C.Asked(c.channel.blockSize, ch.rq, w) {
        QueuedSo(c, ch.rq, x, w);
      } else if C.Asked(c.channel.blockSize, ch.pq, w) {
        QueuedSo(c, ch.pq, x, w);
      } else {
        QueuedSo(c, ch.wq, x, w);
      }
    }
  }

  lemma AnsweredIsReplied(c: Config, table: set<Mapping>, s: Cache, t: Cache, x: Look)
    requires x.sink < |s.uppers| && Answered(c, t, AsWaiter(c, table, s, x))
    ensures Replied(c, s, t, x)
  {
    hide C.Block;
    var w := AsWaiter(c, table, s, x);
    if Waking(c, t.responses, w.since, w) {
      var k :| w.since <= k < |t.responses| && Wakes(c, t.responses[k], w);
      assert ReplyFits(c, t.responses[k].reply, x);
    } else {
      var q := t.uppers[x.sink].returned;
      var k :| w.returned <= k < |q| && C.Wakes(c.channel.blockSize, q[k], w);
      assert ReplyFits(c, q[k], x);
    }
  }

  lemma InitialHonest(c: Config, s: Cache, w: C.Waiter)
    requires Initial(s)
    ensures HonestCache(c, s, w)
  {
  }

  /** With one page to a frame no read is forgotten. */
  lemma ReadWoken(c: Config, table: set<Mapping>, states: seq<Cache>, events: seq<Event>, i: nat, j: nat, x: Look)
    requires WholeBlocks(c) && OneToOne(table)
    requires IsCoreRun(c, table, states, events) && i <= j < |states| && Issued(c, states[i], x)
    ensures Inside(c, states[j], x) || Replied(c, states[i], states[j], x)
  {
    var w := AsWaiter(c, table, states[i], x);
    var first := w.(since := 0, returned := 0);
    forall k | 0 <= k < |events| ensures HonestEvent(c, events[k], w) && HonestEvent(c, events[k], first) {
      HonestRun(c, table, events[k], w);
      HonestRun(c, table, events[k], first);
    }
    IssuedIsOwed(c, table, states[i], x);
    InitialHonest(c, states[0], first);
    assert Begun(states[0], first);
    hide HonestEvent, CoreEvent, Owed, Answered, Inside, Replied, Begun;
    RunSafe(c, states, events, 0, i, first);
    assert HonestCache(c, states[i], w);
    hide HonestCache;
    RunSafe(c, states, events, i, j, w);
    if Owed(c, states[j], w) {
      OwedIsInside(c, states[j], x, w);
    } else {
      AnsweredIsReplied(c, table, states[i], states[j], x);
    }
  }

  // The run that forgets one: two loads whose pages share a frame miss together.

  function Read(a: nat): C.Request { C.Request(a, a, false, false, true, C.Load, []) }

  function Upper(rq: seq<C.Request>): seq<C.Channel> { [C.Channel(rq, [], [], [])] }

  function Empty(): Cache { Cache(0, Upper([]), [], [], [], [], [], {}, [], 0, []) }

  function Looked(c: Config, a: nat, vAddress: nat, translated: bool, id: nat): Tag {
    Tag(a, vAddress, C.Load, false, false, translated, false, c.hitLatency, [], [0], id)
  }

  function TwoReads(c: Config, v1: nat, v2: nat, frame: nat): seq<Event> {
    var a := frame * c.pageSize;
    [Request(0, Rq, Read(v1)), Request(0, Rq, Read(v2)), StartUpper(0, Rq, 2), Translate(v1, frame),
     Translate(v2, frame), Later(c.hitLatency), CheckTags([false, false], [true, true]), Answer(a),
     Later(c.hitLatency + c.fillLatency), Fill(1)]
  }

  function TwoReadStates(c: Config, v1: nat, v2: nat, frame: nat): seq<Cache> {
    var a := frame * c.pageSize;
    var t1, t2 := Looked(c, v1, v1, false, 0), Looked(c, v2, v2, false, 1);
    var u1, u2 := Looked(c, a, v1, true, 0), Looked(c, a, v2, true, 1);
    var miss := Miss(a, v2, C.Load, false, None, [], [0], [u1, u2]);
    var done := miss.(ready := Some(c.hitLatency + c.fillLatency));
    var e := Empty();
    var begun := e.(taken := 2);
    var checked := begun.(now := c.hitLatency);
    [e, e.(uppers := Upper([Read(v1)])), e.(uppers := Upper([Read(v1), Read(v2)])), begun.(inflight := [t1, t2]),
     begun.(inflight := [u1, t2]), begun.(inflight := [u1, u2]), checked.(inflight := [u1, u2]),
     checked.(mshr := [miss], asked := {BlockOf(c, a)}), checked.(mshr := [done]),
     begun.(now := c.hitLatency + c.fillLatency, mshr := [done]),
     begun.(now := c.hitLatency + c.fillLatency, responses := [Response(0, C.Reply(a, v2, []))],
            log := [Filled(done)])]
  }

  /** What the step at k comes to, unless the invariant fails, which it does not. */
  ghost predicate StepAt(c: Config, states: seq<Cache>, events: seq<Event>, k: nat)
    requires k < |events| && |states| == |events| + 1
  {
    Inv(c, states[k]) ==> Steps(c, states[k], events[k], states[k + 1])
  }

  lemma ReadsArrive(c: Config, v1: nat, v2: nat, frame: nat)
    requires c.channel.rqSize >= 2
    ensures var states, events := TwoReadStates(c, v1, v2, frame), TwoReads(c, v1, v2, frame);
            StepAt(c, states, events, 0) && StepAt(c, states, events, 1) && StepAt(c, states, events, 2)
  {
    hide Inv;
    var e := Empty();
    assert [] + [Read(v1)] == [Read(v1)] && [Read(v1)] + [Read(v2)] == [Read(v1), Read(v2)];
    assert e.uppers[0 := e.uppers[0].(rq := [Read(v1)])] == Upper([Read(v1)]);
    assert [Read(v1), Read(v2)][..2] == [Read(v1), Read(v2)] && [Read(v1), Read(v2)][2..] == [];
    assert Upper([Read(v1), Read(v2)])[0 := C.Channel([], [], [], [])] == Upper([]);
    assert TagsFor(c, e, 0, [Read(v1), Read(v2)]) == [Looked(c, v1, v1, false, 0), Looked(c, v2, v2, false, 1)];
  }

  lemma ReadsTranslate(c: Config, v1: nat, v2: nat, frame: nat)
    requires v1 % c.pageSize == 0 && v2 % c.pageSize == 0 && PageOf(c, v1) != PageOf(c, v2)
    ensures var states, events := TwoReadStates(c, v1, v2, frame), TwoReads(c, v1, v2, frame);
            StepAt(c, states, events, 3) && StepAt(c, states, events, 4) && StepAt(c, states, events, 5)
  {
    hide Inv;
  }

  lemma ReadsMiss(c: Config, v1: nat, v2: nat, frame: nat)
    requires c.mshrSize > 0
    ensures var states, events := TwoReadStates(c, v1, v2, frame), TwoReads(c, v1, v2, frame);
            StepAt(c, states, events, 6)
  {
    hide Inv;
    var a := frame * c.pageSize;
    var u1, u2 := Looked(c, a, v1, true, 0), Looked(c, a, v2, true, 1);
    var s := Empty().(now := c.hitLatency, inflight := [u1, u2], taken := 2);
    BothMiss(c, s, u1, u2);
    assert s.inflight[..2] == [u1, u2] && s.inflight[2..] == [];
    assert s.responses + [] == s.responses && s.log + [] == s.log;
  }

  /** The second read is merged into the register of the first, under its own virtual address. */
  lemma BothMiss(c: Config, s: Cache, t1: Tag, t2: Tag)
    requires c.mshrSize > 0 && s.mshr == [] && t1 == t2.(vAddress := t1.vAddress, id := t1.id) && t1.kind.Load?
    requires t1.deps == [] && t1.sinks == [0] && !t1.local
    ensures HitReplies([t1, t2], [false, false]) == [] && HitLog([t1, t2], [false, false]) == []
    ensures Misses(c, s, [t1, t2], [false, false], [true, true])
            == (s.(mshr := [NewMiss(t2).(merged := [t1, t2])], asked := s.asked + {BlockOf(c, t1.address)}), [])
  {
    var hits, accepted := [false, false], [true, true];
    var s1 := s.(mshr := [NewMiss(t1)], asked := s.asked + {BlockOf(c, t1.address)});
    var s2 := s1.(mshr := [NewMiss(t2).(merged := [t1, t2])]);
    HitOne([t1, t2], hits);
    HitOne([t2], [false]);
    assert [t1, t2][1..] == [t2] && hits[1..] == [false] && accepted[1..] == [true];
    assert [t2][1..] == [] && [false][1..] == [] && [true][1..] == [];
    assert Miss1(c, s, t1, true) == Some(s1) by { assert s.mshr + [NewMiss(t1)] == [NewMiss(t1)]; }
    assert Miss1(c, s1, t2, true) == Some(s2) by {
      assert [0][1..] == [] && SetUnion([0], [0]) == [0];
      assert MergeMiss(NewMiss(t1), NewMiss(t2)) == NewMiss(t2).(merged := [t1, t2]);
      assert s1.mshr[0 := NewMiss(t2).(merged := [t1, t2])] == s2.mshr;
    }
    MissesOne(c, s, [t1, t2], hits, accepted);
    MissesOne(c, s1, [t2], [false], [true]);
    MissesNone(c, s2);
    assert HitLog([t2], [false]) == [] + HitLog([], []) && HitLog([t1, t2], hits) == [] + HitLog([t2], [false]);
  }

  lemma ReadsFill(c: Config, v1: nat, v2: nat, frame: nat)
    ensures var states, events := TwoReadStates(c, v1, v2, frame), TwoReads(c, v1, v2, frame);
            StepAt(c, states, events, 7) && StepAt(c, states, events, 8) && StepAt(c, states, events, 9)
  {
    hide Inv;
    var a := frame * c.pageSize;
    var done := Miss(a, v2, C.Load, false, Some(c.hitLatency + c.fillLatency), [], [0],
                     [Looked(c, a, v1, true, 0), Looked(c, a, v2, true, 1)]);
    assert [done][..1] == [done] && [done][1..] == [] && FillReplies([]) == [] && FillLog([done]) == [Filled(done)];
    assert [0][1..] == [] && Replies(MissReply(done), []) == [];
    assert FillReplies([done]) == [Response(0, MissReply(done))];
  }

  lemma TwoReadsFromCore(c: Config, table: set<Mapping>, x: Mapping, y: Mapping)
    requires x in table && y in table && x.frame == y.frame
    ensures var events := TwoReads(c, x.page * c.pageSize, y.page * c.pageSize, x.frame);
            forall k :: 0 <= k < |events| ==> CoreEvent(c, table, events[k])
  {
    DivideIs(x.page, c.pageSize, 0);
    DivideIs(y.page, c.pageSize, 0);
  }

  lemma TwoReadsRun(c: Config, table: set<Mapping>, x: Mapping, y: Mapping)
    requires c.channel.rqSize >= 2 && c.mshrSize > 0
    requires x in table && y in table && x.frame == y.frame && x.page != y.page
    ensures var v1, v2 := x.page * c.pageSize, y.page * c.pageSize;
            IsCoreRun(c, table, TwoReadStates(c, v1, v2, x.frame), TwoReads(c, v1, v2, x.frame))
  {
    var v1, v2 := x.page * c.pageSize, y.page * c.pageSize;
    var states, events := TwoReadStates(c, v1, v2, x.frame), TwoReads(c, v1, v2, x.frame);
    hide *;
    TwoReadsSteps(c, x.page, y.page, x.frame);
    TwoReadsFromCore(c, table, x, y);
    CoreRunIs(c, table, states, events);
  }

  lemma TwoReadsSteps(c: Config, page1: nat, page2: nat, frame: nat)
    requires c.channel.rqSize >= 2 && c.mshrSize > 0 && page1 != page2
    ensures var v1, v2 := page1 * c.pageSize, page2 * c.pageSize;
            IsRun(c, TwoReadStates(c, v1, v2, frame), TwoReads(c, v1, v2, frame))
  {
    hide *;
    var v1, v2 := page1 * c.pageSize, page2 * c.pageSize;
    var states, events := TwoReadStates(c, v1, v2, frame), TwoReads(c, v1, v2, frame);
    TwoReadsStart(c, v1, v2, frame);
    PagesApart(c, page1, page2);
    ReadsArrive(c, v1, v2, frame);
    ReadsTranslate(c, v1, v2, frame);
    ReadsMiss(c, v1, v2, frame);
    ReadsFill(c, v1, v2, frame);
    StepsMake(c, states, events);
  }

  lemma PagesApart(c: Config, page1: nat, page2: nat)
    requires page1 != page2
    ensures var v1, v2 := page1 * c.pageSize, page2 * c.pageSize;
            v1 % c.pageSize == 0 && v2 % c.pageSize == 0 && PageOf(c, v1) != PageOf(c, v2)
  {
    DivideIs(page1, c.pageSize, 0);
    DivideIs(page2, c.pageSize, 0);
  }

  lemma CoreRunIs(c: Config, table: set<Mapping>, states: seq<Cache>, events: seq<Event>)
    requires IsRun(c, states, events) && forall k :: 0 <= k < |events| ==> CoreEvent(c, table, events[k])
    ensures IsCoreRun(c, table, states, events)
  {
  }

  lemma TwoReadsStart(c: Config, v1: nat, v2: nat, frame: nat)
    ensures Initial(TwoReadStates(c, v1, v2, frame)[0])
    ensures |TwoReadStates(c, v1, v2, frame)| == |TwoReads(c, v1, v2, frame)| + 1 == 11
  {
  }

  lemma StepsMake(c: Config, states: seq<Cache>, events: seq<Event>)
    requires |states| == |events| + 1 && Initial(states[0]) && forall k :: 0 <= k < |events| ==>
        StepAt(c, states, events, k)
    ensures IsRun(c, states, events)
  {
    hide Inv, Steps, Initial;
    forall k | 0 <= k < |events| && Inv(c, states[k]) ensures Steps(c, states[k], events[k], states[k + 1]) {
      assert StepAt(c, states, events, k);
    }
  }

  /** Two pages with one frame: the first of two loads is never replied to. */
  lemma TwoReadsForget(c: Config, table: set<Mapping>, x: Mapping, y: Mapping)
    requires WholeBlocks(c) && c.channel.rqSize >= 2 && c.mshrSize > 0
    requires x in table && y in table && x.frame == y.frame && x.page != y.page
    ensures !ReadsWoken(c, table)
  {
    var v1, v2 := x.page * c.pageSize, y.page * c.pageSize;
    var states, events := TwoReadStates(c, v1, v2, x.frame), TwoReads(c, v1, v2, x.frame);
    var look := Look(0, None, BlockOf(c, v1));
    TwoReadsRun(c, table, x, y);
    FirstForgotten(c, x.page, y.page, x.frame);
    hide IsCoreRun, Issued, Inside, Replied, TwoReads, TwoReadStates;
    assert IsCoreRun(c, table, states, events) && Issued(c, states[1], look);
  }

  lemma FirstForgotten(c: Config, page1: nat, page2: nat, frame: nat)
    requires WholeBlocks(c) && page1 != page2
    ensures var v1, v2 := page1 * c.pageSize, page2 * c.pageSize;
            var states, look := TwoReadStates(c, v1, v2, frame), Look(0, None, BlockOf(c, v1));
            && |states| == 11 && Issued(c, states[1], look)
            && !Inside(c, states[10], look) && !Replied(c, states[1], states[10], look)
  {
    var v1, v2 := page1 * c.pageSize, page2 * c.pageSize;
    InPage(c, page1, 0);
    InPage(c, page2, 0);
    assert BlockOf(c, v1) != BlockOf(c, v2);
    var states, look := TwoReadStates(c, v1, v2, frame), Look(0, None, BlockOf(c, v1));
    hide C.Block;
    assert Issues(c, states[1].uppers[0].rq[0], look);
  }

  /** No read is ever forgotten exactly when no two pages are translated to one frame. */
  lemma ReadsWokenExactly(c: Config, table: set<Mapping>)
    requires WholeBlocks(c) && c.channel.rqSize >= 2 && c.mshrSize > 0
    ensures ReadsWoken(c, table) <==> OneToOne(table)
  {
    hide IsCoreRun, Issued, Inside, Replied;
    if OneToOne(table) {
      forall states, events, i: nat, j: nat, x | IsCoreRun(c, table, states, events) && i <= j < |states|
        && Issued(c, states[i], x)
        ensures Inside(c, states[j], x) || Replied(c, states[i], states[j], x)
      {
        ReadWoken(c, table, states, events, i, j, x);
      }
    } else {
      var x, y :| x in table && y in table && x.frame == y.frame && x.page != y.page;
      TwoReadsForget(c, table, x, y);
    }
  }
}
