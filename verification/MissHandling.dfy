/** Miss handling in src/cache.cc: the miss registers, tag checks and translations between a channel above and the
  * levels below. */
module MissHandling {
  import opened Options
  import opened Wakeups
  import C = Channels

  type Access = C.Access

  /** The cache and the channels above it compare addresses for the same block size. */
  datatype Config = Config(pageSize: C.Positive, mshrSize: nat, matchOffset: bool, hitLatency: nat, fillLatency: nat,
                           channel: C.ChannelConfig)

  /** A request whose tag is being looked up. `sinks` are the channels to reply to, `local` a prefetch of this cache's
    * own, `skip` one that is not to be filled here; `id` is its serial number. */
  datatype Tag = Tag(address: nat, vAddress: nat, kind: Access, local: bool, skip: bool, translated: bool, issued: bool,
                     event: int, deps: seq<nat>, sinks: seq<nat>, id: nat)

  /** A miss register or write in flight; `ready` is unknown until data has been returned. `merged` lists the requests
    * it stands for, in the order in which they missed. */
  datatype Miss = Miss(address: nat, vAddress: nat, kind: Access, local: bool, ready: Option<int>, deps: seq<nat>,
                       sinks: seq<nat>, merged: seq<Tag>)

  datatype Response = Response(sink: nat, reply: C.Reply)

  /** How requests leave the cache: found, filled, or passed on without a register. */
  datatype Outcome = Found(tag: Tag) | Filled(miss: Miss) | Passed(tag: Tag)

  /** `asked` is the set of blocks that a lower level or another node owes data for; `responses` lists the replies
    * given. `taken` counts the requests begun and `log` lists how they left. */
  datatype Cache = Cache(now: int, uppers: seq<C.Channel>, inflight: seq<Tag>, stash: seq<Tag>, own: seq<Tag>,
                         mshr: seq<Miss>, writes: seq<Miss>, asked: set<nat>, responses: seq<Response>,
                         taken: nat, log: seq<Outcome>)

  function BlockOf(c: Config, a: nat): nat { C.Block(c.channel.blockSize, a) }

  // Miss registers.

  function FindMiss(c: Config, m: seq<Miss>, a: nat): (k: nat)
    ensures k <= |m| && (k < |m| ==> BlockOf(c, m[k].address) == BlockOf(c, a))
    ensures forall j :: 0 <= j < k ==> BlockOf(c, m[j].address) != BlockOf(c, a)
  {
    if m == [] || BlockOf(c, m[0].address) == BlockOf(c, a) then 0 else 1 + FindMiss(c, m[1..], a)
  }

  function FirstUnreturned(m: seq<Miss>): (k: nat)
    ensures k <= |m| && (k < |m| ==> m[k].ready.None?) && forall j :: 0 <= j < k ==> m[j].ready.Some?
  {
    if m == [] || m[0].ready.None? then 0 else 1 + FirstUnreturned(m[1..])
  }

  function NewMiss(t: Tag): Miss { Miss(t.address, t.vAddress, t.kind, t.local, None, t.deps, t.sinks, [t]) }

  function MergeMiss(first: Miss, second: Miss): Miss {
    (if second.kind.Prefetch? then first else second)
      .(ready := first.ready, deps := SetUnion(first.deps, second.deps), sinks := SetUnion(first.sinks, second.sinks),
        merged := first.merged + second.merged)
  }

  /** Whether the request forwarded below asks for a response, so that a register is kept for it. */
  predicate WantsResponse(t: Tag) { !t.local || !t.skip }

  /** A miss; `accepted` is whether the level below or the fabric takes the forwarded request. */
  function HandleMiss(c: Config, s: Cache, t: Tag, accepted: bool): Option<Cache> {
    var k := FindMiss(c, s.mshr, t.address);
    if k < |s.mshr| then Some(s.(mshr := s.mshr[k := MergeMiss(s.mshr[k], NewMiss(t))]))
    else if |s.mshr| >= c.mshrSize || !accepted then None
    else if WantsResponse(t) then Some(s.(mshr := s.mshr + [NewMiss(t)], asked := s.asked + {BlockOf(c, t.address)}))
    else Some(s.(log := s.log + [Passed(t)]))
  }

  function HandleWrite(c: Config, s: Cache, t: Tag): Cache {
    s.(writes := s.writes + [NewMiss(t).(ready := Some(s.now + c.fillLatency))])
  }

  function Miss1(c: Config, s: Cache, t: Tag, accepted: bool): Option<Cache> {
    if t.kind.Write? && !c.matchOffset then Some(HandleWrite(c, s, t)) else HandleMiss(c, s, t, accepted)
  }

  function Returned(c: Config, s: Cache, m: Miss): Miss { m.(ready := Some(s.now + c.fillLatency)) }

  function Swapped(m: seq<Miss>, i: nat, j: nat): (r: seq<Miss>)
    requires i < |m| && j < |m|
    ensures |r| == |m|
  {
    m[i := m[j]][j := m[i]]
  }

  /** A reply from below: the register is completed and moved to the end of the completed ones. */
  function FinishedPacket(c: Config, s: Cache, a: nat): Cache
    requires FindMiss(c, s.mshr, a) < |s.mshr| && FirstUnreturned(s.mshr) < |s.mshr|
  {
    var k, f := FindMiss(c, s.mshr, a), FirstUnreturned(s.mshr);
    s.(mshr := Swapped(s.mshr[k := Returned(c, s, s.mshr[k])], k, f), asked := s.asked - {BlockOf(c, a)})
  }

  /** A reply from another node: the register is completed and moved to the front. */
  function RemoteResponse(c: Config, s: Cache, a: nat): Cache
    requires FindMiss(c, s.mshr, a) < |s.mshr|
  {
    var k := FindMiss(c, s.mshr, a);
    s.(mshr := [Returned(c, s, s.mshr[k])] + C.Erase(s.mshr, k), asked := s.asked - {BlockOf(c, a)})
  }

  function Replies(r: C.Reply, sinks: seq<nat>): seq<Response> {
    if sinks == [] then [] else [Response(sinks[0], r)] + Replies(r, sinks[1..])
  }

  function MissReply(m: Miss): C.Reply { C.Reply(m.address, m.vAddress, m.deps) }

  function FillReplies(m: seq<Miss>): seq<Response> {
    if m == [] then [] else Replies(MissReply(m[0]), m[0].sinks) + FillReplies(m[1..])
  }

  function FillLog(m: seq<Miss>): (r: seq<Outcome>)
    ensures |r| == |m|
  {
    seq(|m|, k requires 0 <= k < |m| => Filled(m[k]))
  }

  /** The first n registers, or writes, are filled and answered. */
  function FillMshr(s: Cache, n: nat): Cache
    requires n <= |s.mshr|
  {
    s.(mshr := s.mshr[n..], responses := s.responses + FillReplies(s.mshr[..n]), log := s.log + FillLog(s.mshr[..n]))
  }

  function FillWrites(s: Cache, n: nat): Cache
    requires n <= |s.writes|
  {
    s.(writes := s.writes[n..], responses := s.responses + FillReplies(s.writes[..n]),
       log := s.log + FillLog(s.writes[..n]))
  }

  predicate Fillable(s: Cache, m: seq<Miss>, n: nat) {
    n <= |m| && forall k :: 0 <= k < n ==> m[k].ready.Some? && m[k].ready.value <= s.now
  }

  // Tag checks.

  function TagFor(c: Config, s: Cache, ul: nat, r: C.Request, id: nat): Tag {
    Tag(r.address, r.vAddress, r.kind, false, false, r.translated, false, s.now + c.hitLatency, r.deps,
        if r.wanted then [ul] else [], id)
  }

  function TagsFor(c: Config, s: Cache, ul: nat, q: seq<C.Request>): (r: seq<Tag>)
    ensures |r| == |q|
  {
    seq(|q|, k requires 0 <= k < |q| => TagFor(c, s, ul, q[k], s.taken + k))
  }

  datatype Which = Wq | Rq | Pq

  function QueueOf(ch: C.Channel, w: Which): seq<C.Request> {
    match w case Wq => ch.wq case Rq => ch.rq case Pq => ch.pq
  }

  function WithQueue(ch: C.Channel, w: Which, q: seq<C.Request>): C.Channel {
    match w case Wq => ch.(wq := q) case Rq => ch.(rq := q) case Pq => ch.(pq := q)
  }

  /** The first n requests of an upper queue begin their tag checks. */
  function TakeUpper(c: Config, s: Cache, ul: nat, w: Which, n: nat): Cache
    requires ul < |s.uppers| && n <= |QueueOf(s.uppers[ul], w)|
  {
    var q := QueueOf(s.uppers[ul], w);
    s.(uppers := s.uppers[ul := WithQueue(s.uppers[ul], w, q[n..])],
       inflight := s.inflight + TagsFor(c, s, ul, q[..n]), taken := s.taken + n)
  }

  function Restarted(c: Config, s: Cache, t: seq<Tag>): (r: seq<Tag>)
    ensures |r| == |t|
  {
    seq(|t|, k requires 0 <= k < |t| => t[k].(event := s.now + c.hitLatency))
  }

  function TakeStash(c: Config, s: Cache, n: nat): Cache
    requires n <= |s.stash|
  {
    s.(stash := s.stash[n..], inflight := s.inflight + Restarted(c, s, s.stash[..n]))
  }

  function TakeOwn(c: Config, s: Cache, n: nat): Cache
    requires n <= |s.own|
  {
    s.(own := s.own[n..], inflight := s.inflight + Restarted(c, s, s.own[..n]))
  }

  /** Ready entries still without a translation go to the stash, the others close up. */
  predicate Unmapped(s: Cache, t: Tag) { t.event <= s.now && !t.translated }

  function Unready(s: Cache, q: seq<Tag>): seq<Tag> {
    if q == [] then [] else Unready(s, q[..|q| - 1]) + if Unmapped(s, q[|q| - 1]) then [q[|q| - 1]] else []
  }

  function Others(s: Cache, q: seq<Tag>): seq<Tag> {
    if q == [] then [] else Others(s, q[..|q| - 1]) + if Unmapped(s, q[|q| - 1]) then [] else [q[|q| - 1]]
  }

  function Stash(s: Cache): Cache {
    s.(inflight := Others(s, s.inflight), stash := s.stash + Unready(s, s.inflight))
  }

  /** The page of a virtual address has been found; `frame` is the physical page. */
  predicate SamePage(c: Config, t: Tag, v: nat) {
    C.Block(c.pageSize, t.vAddress) == C.Block(c.pageSize, v) && !t.translated
  }

  function Translated(c: Config, t: Tag, v: nat, frame: nat): Tag {
    if SamePage(c, t, v) then t.(address := frame * c.pageSize + t.vAddress % c.pageSize, translated := true) else t
  }

  function TranslatedAll(c: Config, q: seq<Tag>, v: nat, frame: nat): (r: seq<Tag>)
    ensures |r| == |q|
  {
    seq(|q|, k requires 0 <= k < |q| => Translated(c, q[k], v, frame))
  }

  /** The stash after its first already translated entries, the matching ones moved forward. */
  function TranslatedFirst(q: seq<Tag>): (k: nat)
    ensures k <= |q|
  {
    if q == [] || !q[0].translated then 0 else 1 + TranslatedFirst(q[1..])
  }

  function Matching(c: Config, q: seq<Tag>, v: nat): seq<Tag> {
    if q == [] then [] else (if SamePage(c, q[0], v) then [q[0]] else []) + Matching(c, q[1..], v)
  }

  function NotMatching(c: Config, q: seq<Tag>, v: nat): seq<Tag> {
    if q == [] then [] else (if SamePage(c, q[0], v) then [] else [q[0]]) + NotMatching(c, q[1..], v)
  }

  function FinishTranslation(c: Config, s: Cache, v: nat, frame: nat): Cache {
    var k := TranslatedFirst(s.stash);
    s.(stash := s.stash[..k] + TranslatedAll(c, Matching(c, s.stash[k..], v), v, frame)
      + NotMatching(c, s.stash[k..], v),
       inflight := TranslatedAll(c, s.inflight, v, frame))
  }

  function TagReply(t: Tag): C.Reply { C.Reply(t.address, t.vAddress, t.deps) }

  /** What try_hit finds for the first n entries, and what becomes of the forwarded requests, are given. */
  function HitReplies(span: seq<Tag>, hits: seq<bool>): seq<Response>
    requires |hits| == |span|
  {
    if span == [] then []
    else (if hits[0] then Replies(TagReply(span[0]), span[0].sinks) else []) + HitReplies(span[1..], hits[1..])
  }

  function HitLog(span: seq<Tag>, hits: seq<bool>): seq<Outcome>
    requires |hits| == |span|
  {
    if span == [] then [] else (if hits[0] then [Found(span[0])] else []) + HitLog(span[1..], hits[1..])
  }

  /** The hits among the first entries reply. */
  function AfterHits(s: Cache, span: seq<Tag>, hits: seq<bool>): Cache
    requires |hits| == |span|
  {
    s.(responses := s.responses + HitReplies(span, hits), log := s.log + HitLog(span, hits))
  }

  /** The misses among them in order; those that cannot proceed stay. */
  function Misses(c: Config, s: Cache, span: seq<Tag>, hits: seq<bool>, accepted: seq<bool>): (Cache, seq<Tag>)
    requires |hits| == |span| == |accepted|
    decreases |span|
  {
    if span == [] then (s, [])
    else if hits[0] then Misses(c, s, span[1..], hits[1..], accepted[1..])
    else
      match Miss1(c, s, span[0], accepted[0])
      case Some(t) => Misses(c, t, span[1..], hits[1..], accepted[1..])
      case None =>
        var r := Misses(c, s, span[1..], hits[1..], accepted[1..]);
        (r.0, [span[0]] + r.1)
  }

  function TagCheck(c: Config, s: Cache, hits: seq<bool>, accepted: seq<bool>): Cache
    requires |hits| == |accepted| <= |s.inflight|
  {
    var n := |hits|;
    var r := Misses(c, AfterHits(s, s.inflight[..n], hits), s.inflight[..n], hits, accepted);
    r.0.(inflight := r.1 + s.inflight[n..])
  }

  predicate Checkable(s: Cache, n: nat) {
    n <= |s.inflight| && forall k :: 0 <= k < n ==> s.inflight[k].event <= s.now && s.inflight[k].translated
  }

  // The miss registers stay in order.

  ghost predicate UniqueBlocks(c: Config, m: seq<Miss>) {
    forall i, j :: 0 <= i < j < |m| ==> BlockOf(c, m[i].address) != BlockOf(c, m[j].address)
  }

  ghost predicate ReturnedFirst(m: seq<Miss>) {
    forall i, j :: 0 <= i < j < |m| && m[j].ready.Some? ==> m[i].ready.Some?
  }

  /** The blocks asked for below are exactly those of the registers without data. */
  ghost predicate Matched(c: Config, m: seq<Miss>, asked: set<nat>) {
    forall b :: b in asked <==> Awaits(c, m, b)
  }

  ghost predicate Awaits(c: Config, m: seq<Miss>, b: nat) {
    exists k :: 0 <= k < |m| && AwaitsAt(c, m[k], b)
  }

  predicate AwaitsAt(c: Config, x: Miss, b: nat) { x.ready.None? && BlockOf(c, x.address) == b }

  ghost predicate NoLocalSinks(q: seq<Tag>) { forall k :: 0 <= k < |q| && q[k].local ==> q[k].sinks == [] }

  ghost predicate MshrOk(c: Config, m: seq<Miss>, asked: set<nat>) {
    |m| <= c.mshrSize && UniqueBlocks(c, m) && ReturnedFirst(m) && Matched(c, m, asked)
  }

  ghost predicate Inv(c: Config, s: Cache) {
    MshrOk(c, s.mshr, s.asked) && NoLocalSinks(s.inflight) && NoLocalSinks(s.stash) && NoLocalSinks(s.own)
  }

  /** Whoever answers each request once finds a register, and one that still waits: the checks in finish_packet and
    * handle_remote_response never fail. */
  lemma AnswerFindsRegister(c: Config, s: Cache, a: nat)
    requires MshrOk(c, s.mshr, s.asked) && BlockOf(c, a) in s.asked
    ensures var k, f := FindMiss(c, s.mshr, a), FirstUnreturned(s.mshr);
            && k < |s.mshr| && s.mshr[k].ready.None? && f <= k
  {
    var k :| 0 <= k < |s.mshr| && AwaitsAt(c, s.mshr[k], BlockOf(c, a));
    assert FindMiss(c, s.mshr, a) == k;
  }

  lemma FinishKeeps(c: Config, s: Cache, a: nat)
    requires MshrOk(c, s.mshr, s.asked) && BlockOf(c, a) in s.asked
    ensures FindMiss(c, s.mshr, a) < |s.mshr| && FirstUnreturned(s.mshr) < |s.mshr|
    ensures var t := FinishedPacket(c, s, a); MshrOk(c, t.mshr, t.asked)
  {
    AnswerFindsRegister(c, s, a);
    var k, f := FindMiss(c, s.mshr, a), FirstUnreturned(s.mshr);
    var m := s.mshr[k := Returned(c, s, s.mshr[k])];
    ReturnedMatched(c, s.mshr, s.asked, k, m[k]);
    hide Matched, BlockOf;
    SwappedMatched(c, m, s.asked - {BlockOf(c, a)}, k, f);
    var n := Swapped(m, k, f);
    forall j | 0 <= j < |n| ensures n[j].ready.Some? <==> j <= f {
      assert f <= j < |s.mshr| ==> s.mshr[j].ready.None?;
    }
  }

  /** A register that gets its data no longer waits; it was the only one for its block. */
  lemma ReturnedMatched(c: Config, m: seq<Miss>, asked: set<nat>, k: nat, x: Miss)
    requires k < |m| && UniqueBlocks(c, m) && Matched(c, m, asked) && x.ready.Some? && x.address == m[k].address
    ensures UniqueBlocks(c, m[k := x]) && Matched(c, m[k := x], asked - {BlockOf(c, x.address)})
  {
    hide BlockOf;
    var n := m[k := x];
    forall b ensures b in asked - {BlockOf(c, x.address)} <==> Awaits(c, n, b) {
      if b in asked && b != BlockOf(c, x.address) {
        var j :| 0 <= j < |m| && AwaitsAt(c, m[j], b);
        assert AwaitsAt(c, n[j], b);
      }
      if Awaits(c, n, b) {
        var j :| 0 <= j < |n| && AwaitsAt(c, n[j], b);
        assert AwaitsAt(c, m[j], b);
      }
    }
  }

  lemma SwappedMatched(c: Config, m: seq<Miss>, asked: set<nat>, k: nat, f: nat)
    requires k < |m| && f < |m| && UniqueBlocks(c, m) && Matched(c, m, asked)
    ensures UniqueBlocks(c, Swapped(m, k, f)) && Matched(c, Swapped(m, k, f), asked)
  {
    hide BlockOf;
    var n := Swapped(m, k, f);
    forall b ensures Awaits(c, n, b) <==> Awaits(c, m, b) {
      if Awaits(c, m, b) {
        var j :| 0 <= j < |m| && AwaitsAt(c, m[j], b);
        assert AwaitsAt(c, n[if j == f then k else if j == k then f else j], b);
      }
      if Awaits(c, n, b) {
        var j :| 0 <= j < |n| && AwaitsAt(c, n[j], b);
        assert AwaitsAt(c, m[if j == f then k else if j == k then f else j], b);
      }
    }
  }

  lemma RotatedMatched(c: Config, m: seq<Miss>, asked: set<nat>, k: nat)
    requires k < |m| && UniqueBlocks(c, m) && Matched(c, m, asked)
    ensures UniqueBlocks(c, [m[k]] + C.Erase(m, k)) && Matched(c, [m[k]] + C.Erase(m, k), asked)
  {
    hide BlockOf;
    var n := [m[k]] + C.Erase(m, k);
    assert forall j :: 1 <= j < |n| ==> n[j] == m[if j - 1 < k then j - 1 else j];
    forall b ensures Awaits(c, n, b) <==> Awaits(c, m, b) {
      if Awaits(c, m, b) {
        var j :| 0 <= j < |m| && AwaitsAt(c, m[j], b);
        assert AwaitsAt(c, n[if j == k then 0 else if j < k then j + 1 else j], b);
      }
      if Awaits(c, n, b) {
        var j :| 0 <= j < |n| && AwaitsAt(c, n[j], b);
        assert AwaitsAt(c, m[if j == 0 then k else if j - 1 < k then j - 1 else j], b);
      }
    }
  }

  lemma RemoteKeeps(c: Config, s: Cache, a: nat)
    requires MshrOk(c, s.mshr, s.asked) && BlockOf(c, a) in s.asked
    ensures FindMiss(c, s.mshr, a) < |s.mshr|
    ensures var t := RemoteResponse(c, s, a); MshrOk(c, t.mshr, t.asked)
  {
    AnswerFindsRegister(c, s, a);
    var k := FindMiss(c, s.mshr, a);
    var m := s.mshr[k := Returned(c, s, s.mshr[k])];
    ReturnedMatched(c, s.mshr, s.asked, k, m[k]);
    RotatedMatched(c, m, s.asked - {BlockOf(c, a)}, k);
    hide Matched, BlockOf;
    assert [m[k]] + C.Erase(m, k) == RemoteResponse(c, s, a).mshr;
    RotatedReturned(s.mshr, k, m[k]);
  }

  lemma RotatedReturned(m: seq<Miss>, k: nat, x: Miss)
    requires k < |m| && ReturnedFirst(m) && x.ready.Some?
    ensures ReturnedFirst([x] + C.Erase(m, k))
  {
    var n := [x] + C.Erase(m, k);
    assert forall j :: 1 <= j < |n| ==> n[j] == m[if j - 1 < k then j - 1 else j];
  }

  lemma MergeKeeps(c: Config, m: seq<Miss>, asked: set<nat>, k: nat, x: Miss)
    requires MshrOk(c, m, asked) && k < |m| && BlockOf(c, m[k].address) == BlockOf(c, x.address)
    ensures MshrOk(c, m[k := MergeMiss(m[k], x)], asked)
  {
    var n := m[k := MergeMiss(m[k], x)];
    forall b ensures Awaits(c, n, b) <==> Awaits(c, m, b) {
      if Awaits(c, m, b) {
        var j :| 0 <= j < |m| && AwaitsAt(c, m[j], b);
        assert AwaitsAt(c, n[j], b);
      }
      if Awaits(c, n, b) {
        var j :| 0 <= j < |n| && AwaitsAt(c, n[j], b);
        assert AwaitsAt(c, m[j], b);
      }
    }
  }

  lemma AllocateKeeps(c: Config, m: seq<Miss>, asked: set<nat>, x: Miss)
    requires MshrOk(c, m, asked) && |m| < c.mshrSize && FindMiss(c, m, x.address) == |m| && x.ready.None?
    ensures MshrOk(c, m + [x], asked + {BlockOf(c, x.address)})
  {
    var n := m + [x];
    forall b ensures Awaits(c, n, b) <==> Awaits(c, m, b) || b == BlockOf(c, x.address) {
      if Awaits(c, m, b) {
        var j :| 0 <= j < |m| && AwaitsAt(c, m[j], b);
        assert AwaitsAt(c, n[j], b);
      }
      assert AwaitsAt(c, n[|m|], BlockOf(c, x.address));
      if Awaits(c, n, b) {
        var j :| 0 <= j < |n| && AwaitsAt(c, n[j], b);
        assert j < |m| ==> AwaitsAt(c, m[j], b);
      }
    }
  }

  lemma FillKeeps(c: Config, m: seq<Miss>, asked: set<nat>, n: nat)
    requires MshrOk(c, m, asked) && n <= |m| && forall k :: 0 <= k < n ==> m[k].ready.Some?
    ensures MshrOk(c, m[n..], asked)
  {
    var r := m[n..];
    forall b ensures Awaits(c, r, b) <==> Awaits(c, m, b) {
      if Awaits(c, m, b) {
        var j :| 0 <= j < |m| && AwaitsAt(c, m[j], b);
        assert AwaitsAt(c, r[j - n], b);
      }
      if Awaits(c, r, b) {
        var j :| 0 <= j < |r| && AwaitsAt(c, r[j], b);
        assert AwaitsAt(c, m[j + n], b);
      }
    }
  }

  lemma Miss1Keeps(c: Config, s: Cache, t: Tag, accepted: bool)
    requires MshrOk(c, s.mshr, s.asked) && Miss1(c, s, t, accepted).Some?
    ensures var u := Miss1(c, s, t, accepted).value;
            && MshrOk(c, u.mshr, u.asked)
            && u == s.(mshr := u.mshr, writes := u.writes, asked := u.asked, log := u.log)
  {
    var k := FindMiss(c, s.mshr, t.address);
    if k < |s.mshr| {
      MergeKeeps(c, s.mshr, s.asked, k, NewMiss(t));
    } else if |s.mshr| < c.mshrSize {
      AllocateKeeps(c, s.mshr, s.asked, NewMiss(t));
    }
  }

  lemma {:induction false} MissesKeep(c: Config, s: Cache, span: seq<Tag>, hits: seq<bool>, accepted: seq<bool>)
    requires |hits| == |span| == |accepted| && MshrOk(c, s.mshr, s.asked)
    ensures var r := Misses(c, s, span, hits, accepted);
            && MshrOk(c, r.0.mshr, r.0.asked)
            && r.0 == s.(mshr := r.0.mshr, writes := r.0.writes, asked := r.0.asked, log := r.0.log)
            && forall k :: 0 <= k < |r.1| ==> r.1[k] in span
    decreases |span|
  {
    if span != [] {
      var next := s;
      if !hits[0] && Miss1(c, s, span[0], accepted[0]).Some? {
        Miss1Keeps(c, s, span[0], accepted[0]);
        next := Miss1(c, s, span[0], accepted[0]).value;
      }
      assert span[0] in span && forall x :: x in span[1..] ==> x in span;
      hide MshrOk, Miss1;
      MissesKeep(c, next, span[1..], hits[1..], accepted[1..]);
    }
  }

  // No wake-up is lost.

  predicate TagOwes(c: Config, t: Tag, w: C.Waiter) {
    w.sink in t.sinks && C.Dependent(w, t.deps) && C.At(c.channel.blockSize, w, t.translated, t.address)
  }

  ghost predicate TagsOwe(c: Config, q: seq<Tag>, w: C.Waiter) { exists t :: t in q && TagOwes(c, t, w) }

  predicate MissOwes(c: Config, m: Miss, w: C.Waiter) {
    w.sink in m.sinks && C.Dependent(w, m.deps) && C.At(c.channel.blockSize, w, true, m.address)
  }

  ghost predicate MissesOwe(c: Config, q: seq<Miss>, w: C.Waiter) { exists m :: m in q && MissOwes(c, m, w) }

  /** Someone waiting behind a channel is still provided for: its request is queued there, has its tag checked, awaits
    * its translation, or is in a register or in a write in flight. */
  ghost predicate Owed(c: Config, s: Cache, w: C.Waiter) {
    || (w.sink < |s.uppers| && C.Owed(c.channel, s.uppers[w.sink], w))
    || TagsOwe(c, s.inflight, w) || TagsOwe(c, s.stash, w) || MissesOwe(c, s.mshr, w) || MissesOwe(c, s.writes, w)
  }

  predicate Wakes(c: Config, r: Response, w: C.Waiter) {
    r.sink == w.sink && C.Wakes(c.channel.blockSize, r.reply, w)
  }

  ghost predicate Waking(c: Config, q: seq<Response>, from: nat, w: C.Waiter) {
    exists k :: from <= k < |q| && Wakes(c, q[k], w)
  }

  /** A reply that wakes it has been given since the wait began. */
  ghost predicate Answered(c: Config, s: Cache, w: C.Waiter) {
    || (w.sink < |s.uppers| && C.Woken(c.channel.blockSize, s.uppers[w.sink].returned, w))
    || Waking(c, s.responses, w.since, w)
  }

  ghost predicate Safe(c: Config, s: Cache, w: C.Waiter) { Owed(c, s, w) || Answered(c, s, w) }

  /** The wait began no later than now. */
  ghost predicate Begun(s: Cache, w: C.Waiter) {
    w.since <= |s.responses| && (w.sink < |s.uppers| ==> w.returned <= |s.uppers[w.sink].returned|)
  }

  // Virtual addresses. They matter to those who look for a virtual block only.

  /** Nobody waits for a prefetch, whose virtual address may be made up. */
  predicate HonestTag(c: Config, t: Tag, w: C.Waiter) {
    if t.kind.Prefetch? then t.sinks == [] else C.Honest(c.channel.blockSize, w, t.translated, t.address, t.vAddress)
  }

  ghost predicate HonestTags(c: Config, q: seq<Tag>, w: C.Waiter) {
    w.vBlock.Some? ==> forall t :: t in q ==> HonestTag(c, t, w)
  }

  predicate HonestMiss(c: Config, m: Miss, w: C.Waiter) {
    if m.kind.Prefetch? then m.sinks == [] else C.Honest(c.channel.blockSize, w, true, m.address, m.vAddress)
  }

  ghost predicate HonestMisses(c: Config, q: seq<Miss>, w: C.Waiter) {
    w.vBlock.Some? ==> forall m :: m in q ==> HonestMiss(c, m, w)
  }

  ghost predicate HonestCache(c: Config, s: Cache, w: C.Waiter) {
    && (forall k :: 0 <= k < |s.uppers| ==> C.HonestChannel(c.channel, s.uppers[k], w))
    && HonestTags(c, s.inflight, w) && HonestTags(c, s.stash, w) && HonestTags(c, s.own, w)
    && HonestMisses(c, s.mshr, w) && HonestMisses(c, s.writes, w)
  }

  /** The translation puts every address of the page where its origin says. */
  ghost predicate HonestPage(c: Config, w: C.Waiter, v: nat, frame: nat) {
    w.vBlock.Some? ==> forall a: nat :: C.Block(c.pageSize, a) == C.Block(c.pageSize, v) ==>
      w.origin(BlockOf(c, frame * c.pageSize + a % c.pageSize)) == Some(BlockOf(c, a))
  }

  // Replies.

  lemma {:induction false} RepliesWake(c: Config, r: C.Reply, sinks: seq<nat>, w: C.Waiter)
    requires w.sink in sinks && C.Wakes(c.channel.blockSize, r, w)
    ensures Waking(c, Replies(r, sinks), 0, w)
  {
    var q := Replies(r, sinks);
    if sinks[0] == w.sink {
      assert Wakes(c, q[0], w);
    } else {
      assert sinks == [sinks[0]] + sinks[1..];
      RepliesWake(c, r, sinks[1..], w);
      var k :| 0 <= k < |Replies(r, sinks[1..])| && Wakes(c, Replies(r, sinks[1..])[k], w);
      assert Wakes(c, q[k + 1], w);
    }
  }

  lemma WakingIn(c: Config, a: seq<Response>, b: seq<Response>, from: nat, w: C.Waiter)
    requires from <= |a| && (Waking(c, a, from, w) || Waking(c, b, 0, w))
    ensures Waking(c, a + b, from, w)
  {
    hide Wakes;
    var all := a + b;
    if Waking(c, a, from, w) {
      var k :| from <= k < |a| && Wakes(c, a[k], w);
      assert Wakes(c, all[k], w);
    } else {
      var k :| 0 <= k < |b| && Wakes(c, b[k], w);
      assert Wakes(c, all[|a| + k], w);
    }
  }

  /** The reply of a register names everyone it owes one. */
  lemma MissWakes(c: Config, m: Miss, w: C.Waiter)
    requires MissOwes(c, m, w) && HonestMisses(c, [m], w)
    ensures C.Wakes(c.channel.blockSize, MissReply(m), w)
  {
    assert m in [m];
    hide C.Block;
  }

  lemma TagWakes(c: Config, t: Tag, w: C.Waiter)
    requires TagOwes(c, t, w) && HonestTags(c, [t], w)
    ensures C.Wakes(c.channel.blockSize, TagReply(t), w)
  {
    assert t in [t];
    hide C.Block;
  }

  lemma {:induction false} FillWakes(c: Config, m: seq<Miss>, w: C.Waiter)
    requires MissesOwe(c, m, w) && HonestMisses(c, m, w)
    ensures Waking(c, FillReplies(m), 0, w)
  {
    var x :| x in m && MissOwes(c, x, w);
    assert m == [m[0]] + m[1..];
    var first := Replies(MissReply(m[0]), m[0].sinks);
    hide HonestMiss, C.Wakes;
    if x == m[0] {
      MissWakes(c, x, w);
      RepliesWake(c, MissReply(x), x.sinks, w);
    } else {
      FillWakes(c, m[1..], w);
    }
    WakingIn(c, first, FillReplies(m[1..]), 0, w);
  }

  lemma SplitOwe(c: Config, m: seq<Miss>, n: nat, w: C.Waiter)
    requires n <= |m| && MissesOwe(c, m, w)
    ensures MissesOwe(c, m[..n], w) || MissesOwe(c, m[n..], w)
  {
    var x :| x in m && MissOwes(c, x, w);
    assert m == m[..n] + m[n..];
  }

  lemma FilledSafe(c: Config, m: seq<Miss>, n: nat, responses: seq<Response>, w: C.Waiter)
    requires n <= |m| && HonestMisses(c, m, w) && w.since <= |responses|
    ensures var more := responses + FillReplies(m[..n]);
            && HonestMisses(c, m[n..], w)
            && (MissesOwe(c, m, w) ==> MissesOwe(c, m[n..], w) || Waking(c, more, w.since, w))
            && (Waking(c, responses, w.since, w) ==> Waking(c, more, w.since, w))
  {
    hide HonestMiss, MissOwes;
    if MissesOwe(c, m, w) {
      SplitOwe(c, m, n, w);
      if MissesOwe(c, m[..n], w) {
        FillWakes(c, m[..n], w);
        WakingIn(c, responses, FillReplies(m[..n]), w.since, w);
      }
    }
    if Waking(c, responses, w.since, w) { WakingIn(c, responses, FillReplies(m[..n]), w.since, w); }
  }

  lemma FillMshrSafe(c: Config, s: Cache, n: nat, w: C.Waiter)
    requires n <= |s.mshr| && Begun(s, w) && HonestCache(c, s, w)
    ensures var t := FillMshr(s, n); HonestCache(c, t, w) && (Safe(c, s, w) ==> Safe(c, t, w))
  {
    FilledSafe(c, s.mshr, n, s.responses, w);
    hide HonestMisses, HonestTags, C.HonestChannel, MissesOwe, TagsOwe, C.Owed, C.Woken, Waking;
  }

  lemma FillWritesSafe(c: Config, s: Cache, n: nat, w: C.Waiter)
    requires n <= |s.writes| && Begun(s, w) && HonestCache(c, s, w)
    ensures var t := FillWrites(s, n); HonestCache(c, t, w) && (Safe(c, s, w) ==> Safe(c, t, w))
  {
    FilledSafe(c, s.writes, n, s.responses, w);
    hide HonestMisses, HonestTags, C.HonestChannel, MissesOwe, TagsOwe, C.Owed, C.Woken, Waking;
  }

  /** Registers may be reordered and completed: what they owe stays. */
  ghost predicate Covers(m: seq<Miss>, n: seq<Miss>) { forall x :: x in m ==> exists y :: y in n && Alike(x, y) }

  predicate Alike(x: Miss, y: Miss) { y == x.(ready := y.ready) }

  lemma CoversOwe(c: Config, m: seq<Miss>, n: seq<Miss>, w: C.Waiter)
    requires Covers(m, n) && MissesOwe(c, m, w)
    ensures MissesOwe(c, n, w)
  {
    var x :| x in m && MissOwes(c, x, w);
    var y :| y in n && Alike(x, y);
  }

  lemma CoversHonest(c: Config, m: seq<Miss>, n: seq<Miss>, w: C.Waiter)
    requires Covers(n, m) && HonestMisses(c, m, w)
    ensures HonestMisses(c, n, w)
  {
  }

  lemma CoversSafe(c: Config, s: Cache, n: seq<Miss>, asked: set<nat>, w: C.Waiter)
    requires Covers(s.mshr, n) && Covers(n, s.mshr) && HonestCache(c, s, w)
    ensures var t := s.(mshr := n, asked := asked); HonestCache(c, t, w) && (Safe(c, s, w) ==> Safe(c, t, w))
  {
    if MissesOwe(c, s.mshr, w) { CoversOwe(c, s.mshr, n, w); }
    CoversHonest(c, s.mshr, n, w);
    hide HonestTags, HonestMisses, C.HonestChannel, TagsOwe, MissesOwe, C.Owed, C.Woken, Waking, Covers;
  }

  lemma FinishSafe(c: Config, s: Cache, a: nat, w: C.Waiter)
    requires FindMiss(c, s.mshr, a) < |s.mshr| && FirstUnreturned(s.mshr) < |s.mshr| && HonestCache(c, s, w)
    ensures var t := FinishedPacket(c, s, a); HonestCache(c, t, w) && (Safe(c, s, w) ==> Safe(c, t, w))
  {
    var k, f := FindMiss(c, s.mshr, a), FirstUnreturned(s.mshr);
    var n := FinishedPacket(c, s, a).mshr;
    SwapCovers(c, s, k, f);
    CoversSafe(c, s, n, s.asked - {BlockOf(c, a)}, w);
  }

  lemma SwapCovers(c: Config, s: Cache, k: nat, f: nat)
    requires k < |s.mshr| && f < |s.mshr|
    ensures var n := Swapped(s.mshr[k := Returned(c, s, s.mshr[k])], k, f); Covers(s.mshr, n) && Covers(n, s.mshr)
  {
    var m := s.mshr;
    var n := Swapped(m[k := Returned(c, s, m[k])], k, f);
    forall x | x in m ensures exists y :: y in n && Alike(x, y) {
      var j :| 0 <= j < |m| && m[j] == x;
      assert n[if j == k then f else if j == f then k else j] in n;
    }
    forall y | y in n ensures exists x :: x in m && Alike(y, x) {
      var j :| 0 <= j < |n| && n[j] == y;
      assert m[if j == k then f else if j == f then k else j] in m;
    }
  }

  lemma RemoteSafe(c: Config, s: Cache, a: nat, w: C.Waiter)
    requires FindMiss(c, s.mshr, a) < |s.mshr| && HonestCache(c, s, w)
    ensures var t := RemoteResponse(c, s, a); HonestCache(c, t, w) && (Safe(c, s, w) ==> Safe(c, t, w))
  {
    var k := FindMiss(c, s.mshr, a);
    var n := RemoteResponse(c, s, a).mshr;
    RotateCovers(c, s, k);
    CoversSafe(c, s, n, s.asked - {BlockOf(c, a)}, w);
  }

  lemma RotateCovers(c: Config, s: Cache, k: nat)
    requires k < |s.mshr|
    ensures var n := [Returned(c, s, s.mshr[k])] + C.Erase(s.mshr, k); Covers(s.mshr, n) && Covers(n, s.mshr)
  {
    var m := s.mshr;
    var n := [Returned(c, s, m[k])] + C.Erase(m, k);
    forall x | x in m ensures exists y :: y in n && Alike(x, y) {
      var j :| 0 <= j < |m| && m[j] == x;
      assert n[if j == k then 0 else if j < k then j + 1 else j] in n;
    }
    forall y | y in n ensures exists x :: x in m && Alike(y, x) {
      var j :| 0 <= j < |n| && n[j] == y;
      assert m[if j == 0 then k else if j - 1 < k then j - 1 else j] in m;
    }
  }

  // Tag checks.

  lemma TagsSplit(c: Config, q: seq<Tag>, n: nat, w: C.Waiter)
    requires n <= |q| && HonestTags(c, q, w)
    ensures TagsOwe(c, q, w) ==> TagsOwe(c, q[..n], w) || TagsOwe(c, q[n..], w)
    ensures HonestTags(c, q[..n], w) && HonestTags(c, q[n..], w)
  {
    assert q == q[..n] + q[n..];
  }

  lemma TagsIn(c: Config, a: seq<Tag>, b: seq<Tag>, w: C.Waiter)
    requires HonestTags(c, a, w) && HonestTags(c, b, w)
    ensures TagsOwe(c, a, w) || TagsOwe(c, b, w) ==> TagsOwe(c, a + b, w)
    ensures HonestTags(c, a + b, w)
  {
    hide TagOwes, HonestTag;
    if TagsOwe(c, a, w) || TagsOwe(c, b, w) {
      var x :| (x in a || x in b) && TagOwes(c, x, w);
      assert x in a + b;
    }
  }

  lemma RestartedOwe(c: Config, s: Cache, q: seq<Tag>, w: C.Waiter)
    requires HonestTags(c, q, w)
    ensures TagsOwe(c, q, w) ==> TagsOwe(c, Restarted(c, s, q), w)
    ensures HonestTags(c, Restarted(c, s, q), w)
  {
    var r := Restarted(c, s, q);
    hide C.Block;
    if TagsOwe(c, q, w) {
      var k :| 0 <= k < |q| && TagOwes(c, q[k], w);
      assert TagOwes(c, r[k], w);
    }
    if w.vBlock.Some? {
      forall t | t in r ensures HonestTag(c, t, w) {
        var k :| 0 <= k < |r| && r[k] == t;
        assert HonestTag(c, q[k], w);
      }
    }
  }

  lemma TakeStashSafe(c: Config, s: Cache, n: nat, w: C.Waiter)
    requires n <= |s.stash| && HonestCache(c, s, w)
    ensures var t := TakeStash(c, s, n); HonestCache(c, t, w) && (Safe(c, s, w) ==> Safe(c, t, w))
  {
    TagsSplit(c, s.stash, n, w);
    RestartedOwe(c, s, s.stash[..n], w);
    TagsIn(c, s.inflight, Restarted(c, s, s.stash[..n]), w);
    hide HonestTags, HonestMisses, C.HonestChannel, MissesOwe, TagsOwe, C.Owed, C.Woken, Waking;
  }

  lemma TakeOwnSafe(c: Config, s: Cache, n: nat, w: C.Waiter)
    requires n <= |s.own| && HonestCache(c, s, w)
    ensures var t := TakeOwn(c, s, n); HonestCache(c, t, w) && (Safe(c, s, w) ==> Safe(c, t, w))
  {
    TagsSplit(c, s.own, n, w);
    RestartedOwe(c, s, s.own[..n], w);
    TagsIn(c, s.inflight, Restarted(c, s, s.own[..n]), w);
    hide HonestTags, HonestMisses, C.HonestChannel, MissesOwe, TagsOwe, C.Owed, C.Woken, Waking;
  }

  lemma AskedSplit(c: Config, q: seq<C.Request>, n: nat, w: C.Waiter)
    requires n <= |q| && C.AllHonest(c.channel.blockSize, q, w)
    ensures C.AllHonest(c.channel.blockSize, q[..n], w) && C.AllHonest(c.channel.blockSize, q[n..], w)
    ensures C.Asked(c.channel.blockSize, q, w) ==>
      C.Asked(c.channel.blockSize, q[..n], w) || C.Asked(c.channel.blockSize, q[n..], w)
  {
    if C.Asked(c.channel.blockSize, q, w) {
      var k :| 0 <= k < |q| && C.Asks(c.channel.blockSize, q[k], w);
      if k < n {
        assert C.Asks(c.channel.blockSize, q[..n][k], w);
      } else {
        assert C.Asks(c.channel.blockSize, q[n..][k - n], w);
      }
    }
  }

  lemma TagsForOwe(c: Config, s: Cache, ul: nat, q: seq<C.Request>, w: C.Waiter)
    requires C.AllHonest(c.channel.blockSize, q, w)
    ensures ul == w.sink && C.Asked(c.channel.blockSize, q, w) ==> TagsOwe(c, TagsFor(c, s, ul, q), w)
    ensures HonestTags(c, TagsFor(c, s, ul, q), w)
  {
    var r := TagsFor(c, s, ul, q);
    hide C.Block;
    if ul == w.sink && C.Asked(c.channel.blockSize, q, w) {
      var k :| 0 <= k < |q| && C.Asks(c.channel.blockSize, q[k], w);
      assert r[k] in r && TagOwes(c, r[k], w);
    }
    if w.vBlock.Some? {
      forall t | t in r ensures HonestTag(c, t, w) { var k :| 0 <= k < |r| && r[k] == t; }
    }
  }

  lemma QueuesOwe(c: Config, ch: C.Channel, which: Which, q: seq<C.Request>, w: C.Waiter)
    requires C.HonestChannel(c.channel, ch, w) && C.AllHonest(c.channel.blockSize, q, w)
    ensures C.HonestChannel(c.channel, WithQueue(ch, which, q), w)
    ensures C.AllHonest(c.channel.blockSize, QueueOf(ch, which), w)
    ensures C.Owed(c.channel, ch, w) ==>
      C.Owed(c.channel, WithQueue(ch, which, q), w) || C.Asked(c.channel.blockSize, QueueOf(ch, which), w)
    ensures C.Asked(c.channel.blockSize, q, w) ==> C.Owed(c.channel, WithQueue(ch, which, q), w)
  {
    hide C.AllHonest, C.Asked;
  }

  lemma TakeUpperSafe(c: Config, s: Cache, ul: nat, which: Which, n: nat, w: C.Waiter)
    requires ul < |s.uppers| && n <= |QueueOf(s.uppers[ul], which)| && HonestCache(c, s, w)
    ensures var t := TakeUpper(c, s, ul, which, n); HonestCache(c, t, w) && (Safe(c, s, w) ==> Safe(c, t, w))
  {
    var ch := s.uppers[ul];
    var q := QueueOf(ch, which);
    QueuesOwe(c, ch, which, [], w);
    AskedSplit(c, q, n, w);
    TagsForOwe(c, s, ul, q[..n], w);
    TagsIn(c, s.inflight, TagsFor(c, s, ul, q[..n]), w);
    QueuesOwe(c, ch, which, q[n..], w);
    hide HonestTags, HonestMisses, C.HonestChannel, MissesOwe, TagsOwe, C.Owed, C.AllHonest, C.Asked, C.Woken, Waking;
  }

  lemma {:induction false} PartitionMembers(s: Cache, q: seq<Tag>, t: Tag)
    ensures t in q <==> t in Others(s, q) || t in Unready(s, q)
  {
    if q != [] {
      assert q == q[..|q| - 1] + [q[|q| - 1]];
      PartitionMembers(s, q[..|q| - 1], t);
    }
  }

  lemma StashSafe(c: Config, s: Cache, w: C.Waiter)
    requires HonestCache(c, s, w)
    ensures HonestCache(c, Stash(s), w) && (Safe(c, s, w) ==> Safe(c, Stash(s), w))
  {
    forall t ensures t in s.inflight <==> t in Others(s, s.inflight) || t in Unready(s, s.inflight) {
      PartitionMembers(s, s.inflight, t);
    }
    TagsIn(c, s.stash, Unready(s, s.inflight), w);
    hide HonestMisses, C.HonestChannel, MissesOwe, C.Owed, C.Woken, Waking, TagOwes, HonestTag;
  }

  lemma TranslatedTag(c: Config, t: Tag, v: nat, frame: nat, w: C.Waiter)
    requires HonestPage(c, w, v, frame) && HonestTags(c, [t], w)
    ensures HonestTags(c, [Translated(c, t, v, frame)], w)
    ensures TagOwes(c, t, w) ==> TagOwes(c, Translated(c, t, v, frame), w)
  {
    assert t in [t];
    hide C.Block;
    if SamePage(c, t, v) && w.vBlock.Some? {
      assert w.origin(BlockOf(c, frame * c.pageSize + t.vAddress % c.pageSize)) == Some(BlockOf(c, t.vAddress));
    }
  }

  lemma TranslatedOwe(c: Config, q: seq<Tag>, v: nat, frame: nat, w: C.Waiter)
    requires HonestPage(c, w, v, frame) && HonestTags(c, q, w)
    ensures TagsOwe(c, q, w) ==> TagsOwe(c, TranslatedAll(c, q, v, frame), w)
    ensures HonestTags(c, TranslatedAll(c, q, v, frame), w)
  {
    var r := TranslatedAll(c, q, v, frame);
    hide HonestPage, HonestTag, TagOwes, Translated;
    if TagsOwe(c, q, w) {
      var k :| 0 <= k < |q| && TagOwes(c, q[k], w);
      TranslatedTag(c, q[k], v, frame, w);
      assert TagOwes(c, r[k], w);
    }
    if w.vBlock.Some? {
      forall t | t in r ensures HonestTag(c, t, w) {
        var k :| 0 <= k < |r| && r[k] == t;
        TranslatedTag(c, q[k], v, frame, w);
        assert t in [t];
      }
    }
  }

  lemma {:induction false} MatchingMembers(c: Config, q: seq<Tag>, v: nat, t: Tag)
    ensures t in q <==> t in Matching(c, q, v) || t in NotMatching(c, q, v)
  {
    if q != [] {
      assert q == [q[0]] + q[1..];
      MatchingMembers(c, q[1..], v, t);
    }
  }

  lemma MatchingOwe(c: Config, q: seq<Tag>, v: nat, w: C.Waiter)
    requires HonestTags(c, q, w)
    ensures HonestTags(c, Matching(c, q, v), w) && HonestTags(c, NotMatching(c, q, v), w)
    ensures TagsOwe(c, q, w) ==> TagsOwe(c, Matching(c, q, v), w) || TagsOwe(c, NotMatching(c, q, v), w)
  {
    forall t ensures t in q <==> t in Matching(c, q, v) || t in NotMatching(c, q, v) { MatchingMembers(c, q, v, t); }
    hide TagOwes, HonestTag;
  }

  lemma TranslationSafe(c: Config, s: Cache, v: nat, frame: nat, w: C.Waiter)
    requires HonestCache(c, s, w) && HonestPage(c, w, v, frame)
    ensures var t := FinishTranslation(c, s, v, frame); HonestCache(c, t, w) && (Safe(c, s, w) ==> Safe(c, t, w))
  {
    var k := TranslatedFirst(s.stash);
    var front, mid, back := s.stash[..k], Matching(c, s.stash[k..], v), NotMatching(c, s.stash[k..], v);
    TagsSplit(c, s.stash, k, w);
    MatchingOwe(c, s.stash[k..], v, w);
    TranslatedOwe(c, s.inflight, v, frame, w);
    TranslatedOwe(c, mid, v, frame, w);
    TagsIn(c, front, TranslatedAll(c, mid, v, frame), w);
    TagsIn(c, front + TranslatedAll(c, mid, v, frame), back, w);
    hide HonestTags, HonestMisses, C.HonestChannel, MissesOwe, TagsOwe, C.Owed, C.Woken, Waking;
  }

  lemma {:induction false} HitsWake(c: Config, span: seq<Tag>, hits: seq<bool>, k: nat, w: C.Waiter)
    requires |hits| == |span| && k < |span| && hits[k] && TagOwes(c, span[k], w) && HonestTags(c, span, w)
    ensures Waking(c, HitReplies(span, hits), 0, w)
  {
    var first := if hits[0] then Replies(TagReply(span[0]), span[0].sinks) else [];
    hide HonestTag, C.Wakes;
    if k == 0 {
      TagWakes(c, span[0], w);
      RepliesWake(c, TagReply(span[0]), span[0].sinks, w);
    } else {
      HitsWake(c, span[1..], hits[1..], k - 1, w);
    }
    WakingIn(c, first, HitReplies(span[1..], hits[1..]), 0, w);
  }

  /** What a state owes apart from its tag checks. */
  ghost predicate Registered(c: Config, s: Cache, w: C.Waiter) { MissesOwe(c, s.mshr, w) || MissesOwe(c, s.writes, w) }

  ghost predicate HonestRegisters(c: Config, s: Cache, w: C.Waiter) {
    HonestMisses(c, s.mshr, w) && HonestMisses(c, s.writes, w)
  }

  lemma Miss1Registers(c: Config, s: Cache, t: Tag, accepted: bool, w: C.Waiter)
    requires Miss1(c, s, t, accepted).Some? && (t.local ==> t.sinks == []) && t.translated
    requires HonestRegisters(c, s, w) && HonestTags(c, [t], w)
    ensures var u := Miss1(c, s, t, accepted).value;
            HonestRegisters(c, u, w) && (TagOwes(c, t, w) || Registered(c, s, w) ==> Registered(c, u, w))
  {
    var u := Miss1(c, s, t, accepted).value;
    var k := FindMiss(c, s.mshr, t.address);
    assert t in [t];
    hide C.Block;
    if t.kind.Write? && !c.matchOffset {
      assert u.writes[|s.writes|] in u.writes;
      assert forall x :: x in s.writes ==> x in u.writes;
    } else if k < |s.mshr| {
      MergeRegisters(c, s.mshr, k, NewMiss(t), w);
    } else {
      assert forall x :: x in s.mshr ==> x in u.mshr;
      if WantsResponse(t) { assert u.mshr[|s.mshr|] in u.mshr; }
    }
  }

  lemma MergeRegisters(c: Config, m: seq<Miss>, k: nat, x: Miss, w: C.Waiter)
    requires k < |m| && BlockOf(c, m[k].address) == BlockOf(c, x.address)
    requires HonestMisses(c, m, w) && HonestMisses(c, [x], w)
    ensures HonestMisses(c, m[k := MergeMiss(m[k], x)], w)
    ensures MissOwes(c, x, w) || MissesOwe(c, m, w) ==> MissesOwe(c, m[k := MergeMiss(m[k], x)], w)
  {
    var n := m[k := MergeMiss(m[k], x)];
    hide C.Block;
    if w.id.Some? { SetUnionMembers(m[k].deps, x.deps, w.id.value); }
    SetUnionMembers(m[k].sinks, x.sinks, w.sink);
    assert n[k] in n && x in [x] && m[k] in m;
    assert forall j :: 0 <= j < |n| && j != k ==> n[j] in m;
    if MissesOwe(c, m, w) {
      var j :| 0 <= j < |m| && MissOwes(c, m[j], w);
      assert n[j] in n;
    }
  }

  /** A missing entry among those looked up owes a reply. */
  ghost predicate MissOwed(c: Config, span: seq<Tag>, hits: seq<bool>, w: C.Waiter)
    requires |hits| == |span|
  {
    exists k :: 0 <= k < |span| && !hits[k] && TagOwes(c, span[k], w)
  }

  predicate Translations(span: seq<Tag>) { forall k :: 0 <= k < |span| ==> span[k].translated }

  lemma {:induction false} MissesSafe(c: Config, s: Cache, span: seq<Tag>, hits: seq<bool>, accepted: seq<bool>,
      w: C.Waiter)
    requires |hits| == |span| == |accepted| && NoLocalSinks(span) && Translations(span)
    requires HonestRegisters(c, s, w) && HonestTags(c, span, w)
    ensures var (t, kept) := Misses(c, s, span, hits, accepted);
            && HonestRegisters(c, t, w) && HonestTags(c, kept, w)
            && (Registered(c, s, w) || MissOwed(c, span, hits, w) ==> Registered(c, t, w) || TagsOwe(c, kept, w))
    decreases |span|
  {
    if span != [] {
      assert span == [span[0]] + span[1..];
      MissOwedRest(c, span, hits, w);
      hide TagOwes, HonestTag, Miss1, Registered, HonestRegisters, MissOwed;
      var m := Miss1(c, s, span[0], accepted[0]);
      if hits[0] || m.None? {
        MissesSafe(c, s, span[1..], hits[1..], accepted[1..], w);
        var (t, kept) := Misses(c, s, span[1..], hits[1..], accepted[1..]);
        TagsIn(c, [span[0]], kept, w);
        OneOwes(c, span[0], w);
      } else {
        Miss1Registers(c, s, span[0], accepted[0], w);
        MissesSafe(c, m.value, span[1..], hits[1..], accepted[1..], w);
      }
    }
  }

  lemma OneOwes(c: Config, t: Tag, w: C.Waiter)
    ensures TagsOwe(c, [t], w) <==> TagOwes(c, t, w)
  {
    assert t in [t];
  }

  lemma MissOwedRest(c: Config, span: seq<Tag>, hits: seq<bool>, w: C.Waiter)
    requires |hits| == |span| && span != []
    ensures MissOwed(c, span, hits, w) <==> (!hits[0] && TagOwes(c, span[0], w)) || MissOwed(c, span[1..], hits[1..], w)
  {
    hide TagOwes;
    if MissOwed(c, span[1..], hits[1..], w) {
      var k :| 0 <= k < |span| - 1 && !hits[1..][k] && TagOwes(c, span[1..][k], w);
      assert !hits[k + 1] && TagOwes(c, span[k + 1], w);
    }
    if MissOwed(c, span, hits, w) {
      var k :| 0 <= k < |span| && !hits[k] && TagOwes(c, span[k], w);
      assert k > 0 ==> !hits[1..][k - 1] && TagOwes(c, span[1..][k - 1], w);
    }
  }

  lemma TagCheckSafe(c: Config, s: Cache, hits: seq<bool>, accepted: seq<bool>, w: C.Waiter)
    requires |hits| == |accepted| && Checkable(s, |hits|) && NoLocalSinks(s.inflight) && MshrOk(c, s.mshr, s.asked)
    requires Begun(s, w) && HonestCache(c, s, w)
    ensures var t := TagCheck(c, s, hits, accepted); HonestCache(c, t, w) && (Safe(c, s, w) ==> Safe(c, t, w))
  {
    var n := |hits|;
    var span := s.inflight[..n];
    var h := AfterHits(s, span, hits);
    var (r, kept) := Misses(c, h, span, hits, accepted);
    MissesKeep(c, h, span, hits, accepted);
    TagsSplit(c, s.inflight, n, w);
    SpanSafe(c, s, span, hits, w);
    hide MshrOk, Misses, HitReplies, TagsOwe, HonestTags, HonestMisses, MissesOwe, Waking;
    MissesSafe(c, h, span, hits, accepted, w);
    TagsIn(c, kept, s.inflight[n..], w);
    hide C.Owed, C.Woken, C.HonestChannel, MissOwed, NoLocalSinks;
  }

  lemma SpanSafe(c: Config, s: Cache, span: seq<Tag>, hits: seq<bool>, w: C.Waiter)
    requires |hits| == |span| && HonestTags(c, span, w) && w.since <= |s.responses|
    ensures var more := s.responses + HitReplies(span, hits);
            && (Waking(c, s.responses, w.since, w) ==> Waking(c, more, w.since, w))
            && (TagsOwe(c, span, w) ==> MissOwed(c, span, hits, w) || Waking(c, more, w.since, w))
  {
    hide TagOwes, HonestTag;
    if TagsOwe(c, span, w) && !MissOwed(c, span, hits, w) {
      var k :| 0 <= k < |span| && TagOwes(c, span[k], w);
      HitsWake(c, span, hits, k, w);
      WakingIn(c, s.responses, HitReplies(span, hits), w.since, w);
    }
    if Waking(c, s.responses, w.since, w) { WakingIn(c, s.responses, HitReplies(span, hits), w.since, w); }
  }

  // Whole runs.

  datatype Event =
    | Request(ul: nat, which: Which, request: C.Request)
    | Collide(ul: nat)
    | Answer(address: nat)
    | RemoteAnswer(address: nat)
    | Translate(vAddress: nat, frame: nat)
    | Fill(n: nat)
    | FillWrite(n: nat)
    | StartUpper(ul: nat, which: Which, n: nat)
    | StartStash(n: nat)
    | StartOwn(n: nat)
    | PrefetchLine(tag: Tag)
    | SetAside
    | CheckTags(hits: seq<bool>, accepted: seq<bool>)
    | Later(now: int)

  /** A level below answers only what it has been asked for; entries are filled when ready, and looked up when ready and
    * translated. */
  predicate Enabled(c: Config, s: Cache, e: Event) {
    match e
    case Request(ul, _, _) => ul < |s.uppers|
    case Collide(ul) => ul < |s.uppers|
    case Answer(a) => BlockOf(c, a) in s.asked
    case RemoteAnswer(a) => BlockOf(c, a) in s.asked
    case Translate(_, _) => true
    case Fill(n) => Fillable(s, s.mshr, n)
    case FillWrite(n) => Fillable(s, s.writes, n)
    case StartUpper(ul, w, n) => ul < |s.uppers| && n <= |QueueOf(s.uppers[ul], w)|
    case StartStash(n) => n <= |s.stash|
    case StartOwn(n) => n <= |s.own|
    case PrefetchLine(t) => t.local && t.kind.Prefetch? && t.sinks == [] && t.id == s.taken
    case SetAside => true
    case CheckTags(hits, accepted) => |hits| == |accepted| && Checkable(s, |hits|)
    case Later(now) => s.now <= now
  }

  function SizeOf(c: C.ChannelConfig, w: Which): nat {
    match w case Wq => c.wqSize case Rq => c.rqSize case Pq => c.pqSize
  }

  ghost function Apply(c: Config, s: Cache, e: Event): Cache
    requires Inv(c, s) && Enabled(c, s, e)
  {
    match e
    case Request(ul, w, r) =>
      var ch := s.uppers[ul];
      s.(uppers := s.uppers[ul := WithQueue(ch, w, C.Enqueue(QueueOf(ch, w), SizeOf(c.channel, w), r))])
    case Collide(ul) => s.(uppers := s.uppers[ul := C.CheckCollision(c.channel, s.uppers[ul])])
    case Answer(a) =>
      FinishKeeps(c, s, a);
      FinishedPacket(c, s, a)
    case RemoteAnswer(a) =>
      RemoteKeeps(c, s, a);
      RemoteResponse(c, s, a)
    case Translate(v, frame) => FinishTranslation(c, s, v, frame)
    case Fill(n) => FillMshr(s, n)
    case FillWrite(n) => FillWrites(s, n)
    case StartUpper(ul, w, n) => TakeUpper(c, s, ul, w, n)
    case StartStash(n) => TakeStash(c, s, n)
    case StartOwn(n) => TakeOwn(c, s, n)
    case PrefetchLine(t) => s.(own := s.own + [t], taken := s.taken + 1)
    case SetAside => Stash(s)
    case CheckTags(hits, accepted) => TagCheck(c, s, hits, accepted)
    case Later(now) => s.(now := now)
  }

  predicate Covered(q: seq<Tag>, r: seq<Tag>) { forall t :: t in q ==> t in r }

  lemma {:induction false} PartitionCovered(s: Cache, q: seq<Tag>)
    ensures Covered(Others(s, q), q) && Covered(Unready(s, q), q)
  {
    if q != [] {
      PartitionCovered(s, q[..|q| - 1]);
      assert q == q[..|q| - 1] + [q[|q| - 1]];
    }
  }

  lemma {:induction false} MatchingCovered(c: Config, q: seq<Tag>, v: nat)
    ensures Covered(Matching(c, q, v), q) && Covered(NotMatching(c, q, v), q)
  {
    if q != [] {
      MatchingCovered(c, q[1..], v);
      assert q == [q[0]] + q[1..];
    }
  }

  lemma CoveredNoSinks(q: seq<Tag>, r: seq<Tag>)
    requires Covered(q, r) && NoLocalSinks(r)
    ensures NoLocalSinks(q)
  {
    forall k | 0 <= k < |q| && q[k].local ensures q[k].sinks == [] { assert q[k] in r; }
  }

  lemma NoSinksJoined(a: seq<Tag>, b: seq<Tag>)
    requires NoLocalSinks(a) && NoLocalSinks(b)
    ensures NoLocalSinks(a + b)
  {
  }

  lemma TranslationKeeps(c: Config, s: Cache, v: nat, frame: nat)
    requires Inv(c, s)
    ensures Inv(c, FinishTranslation(c, s, v, frame))
  {
    hide MshrOk;
    var k := TranslatedFirst(s.stash);
    MatchingCovered(c, s.stash[k..], v);
    CoveredNoSinks(Matching(c, s.stash[k..], v), s.stash[k..]);
    CoveredNoSinks(NotMatching(c, s.stash[k..], v), s.stash[k..]);
    NoSinksJoined(s.stash[..k], TranslatedAll(c, Matching(c, s.stash[k..], v), v, frame));
    NoSinksJoined(s.stash[..k] + TranslatedAll(c, Matching(c, s.stash[k..], v), v, frame),
      NotMatching(c, s.stash[k..], v));
  }

  lemma StashKeeps(c: Config, s: Cache)
    requires Inv(c, s)
    ensures Inv(c, Stash(s))
  {
    hide MshrOk;
    PartitionCovered(s, s.inflight);
    CoveredNoSinks(Others(s, s.inflight), s.inflight);
    CoveredNoSinks(Unready(s, s.inflight), s.inflight);
    NoSinksJoined(s.stash, Unready(s, s.inflight));
  }

  lemma TagCheckKeeps(c: Config, s: Cache, hits: seq<bool>, accepted: seq<bool>)
    requires Inv(c, s) && |hits| == |accepted| <= |s.inflight|
    ensures Inv(c, TagCheck(c, s, hits, accepted))
  {
    var n := |hits|;
    var span := s.inflight[..n];
    var h := AfterHits(s, span, hits);
    MissesKeep(c, h, span, hits, accepted);
    var r := Misses(c, h, span, hits, accepted);
    hide MshrOk, Misses;
    CoveredNoSinks(r.1, span);
    NoSinksJoined(r.1, s.inflight[n..]);
  }

  lemma ApplyKeeps(c: Config, s: Cache, e: Event)
    requires Inv(c, s) && Enabled(c, s, e)
    ensures Inv(c, Apply(c, s, e))
  {
    match e
    case Answer(a) => FinishKeeps(c, s, a);
    case RemoteAnswer(a) => RemoteKeeps(c, s, a);
    case Translate(v, frame) => TranslationKeeps(c, s, v, frame);
    case Fill(n) => FillKeeps(c, s.mshr, s.asked, n);
    case SetAside => StashKeeps(c, s);
    case CheckTags(hits, accepted) => TagCheckKeeps(c, s, hits, accepted);
    case _ => hide MshrOk;
  }

  lemma RequestSafe(c: Config, s: Cache, ul: nat, which: Which, r: C.Request, w: C.Waiter)
    requires ul < |s.uppers| && HonestCache(c, s, w) && HonestRequest(c, r, w)
    ensures var ch := s.uppers[ul];
            var t := s.(uppers := s.uppers[ul := WithQueue(ch, which,
              C.Enqueue(QueueOf(ch, which), SizeOf(c.channel, which), r))]);
            HonestCache(c, t, w) && (Safe(c, s, w) ==> Safe(c, t, w))
  {
    var ch := s.uppers[ul];
    var q := QueueOf(ch, which);
    var longer := C.Enqueue(q, SizeOf(c.channel, which), r);
    QueuesOwe(c, ch, which, [], w);
    if C.Asked(c.channel.blockSize, q, w) {
      var k :| 0 <= k < |q| && C.Asks(c.channel.blockSize, q[k], w);
      assert C.Asks(c.channel.blockSize, longer[k], w);
    }
    QueuesOwe(c, ch, which, longer, w);
    hide HonestTags, HonestMisses, C.HonestChannel, MissesOwe, TagsOwe, C.Owed, C.AllHonest, C.Asked, C.Woken, Waking;
  }

  lemma CollideSafe(c: Config, s: Cache, ul: nat, w: C.Waiter)
    requires ul < |s.uppers| && Begun(s, w) && HonestCache(c, s, w)
    ensures var t := s.(uppers := s.uppers[ul := C.CheckCollision(c.channel, s.uppers[ul])]);
            Begun(t, w) && HonestCache(c, t, w) && (Safe(c, s, w) ==> Safe(c, t, w))
  {
    var here := w.(returned := if ul == w.sink then w.returned else 0);
    assert C.HonestChannel(c.channel, s.uppers[ul], here);
    C.CollisionSafe(c.channel, s.uppers[ul], here);
    assert C.HonestChannel(c.channel, C.CheckCollision(c.channel, s.uppers[ul]), w);
    hide HonestTags, HonestMisses, C.HonestChannel, MissesOwe, TagsOwe, C.Owed, C.AllHonest, C.Asked, C.Woken, Waking;
    hide C.CheckCollision;
  }

  /** What those who look for a virtual block need of the requests and translations from outside. */
  predicate HonestRequest(c: Config, r: C.Request, w: C.Waiter) {
    w.vBlock.Some? ==>
      !r.kind.Prefetch? && C.Honest(c.channel.blockSize, w, r.translated, r.address, r.vAddress)
  }

  ghost predicate HonestEvent(c: Config, e: Event, w: C.Waiter) {
    match e
    case Request(_, _, r) => HonestRequest(c, r, w)
    case Translate(v, frame) => HonestPage(c, w, v, frame)
    case _ => true
  }

  lemma ApplySafe(c: Config, s: Cache, e: Event, w: C.Waiter)
    requires Inv(c, s) && Enabled(c, s, e) && Begun(s, w) && HonestCache(c, s, w) && HonestEvent(c, e, w)
    ensures var t := Apply(c, s, e); HonestCache(c, t, w) && (Safe(c, s, w) ==> Safe(c, t, w))
  {
    match e
    case Request(ul, which, r) => RequestSafe(c, s, ul, which, r, w);
    case Collide(ul) => CollideSafe(c, s, ul, w);
    case Answer(a) =>
      FinishKeeps(c, s, a);
      FinishSafe(c, s, a, w);
    case RemoteAnswer(a) =>
      RemoteKeeps(c, s, a);
      RemoteSafe(c, s, a, w);
    case Translate(v, frame) => TranslationSafe(c, s, v, frame, w);
    case Fill(n) => FillMshrSafe(c, s, n, w);
    case FillWrite(n) => FillWritesSafe(c, s, n, w);
    case StartUpper(ul, which, n) => TakeUpperSafe(c, s, ul, which, n, w);
    case StartStash(n) => TakeStashSafe(c, s, n, w);
    case StartOwn(n) => TakeOwnSafe(c, s, n, w);
    case PrefetchLine(t) => hide C.HonestChannel, C.Owed;
    case SetAside => StashSafe(c, s, w);
    case CheckTags(hits, accepted) => TagCheckSafe(c, s, hits, accepted, w);
    case Later(now) => hide C.HonestChannel, C.Owed;
  }

  /** Replies only accumulate. */
  lemma ApplyBegun(c: Config, s: Cache, e: Event, w: C.Waiter)
    requires Inv(c, s) && Enabled(c, s, e) && Begun(s, w) && HonestCache(c, s, w)
    ensures Begun(Apply(c, s, e), w)
  {
    match e
    case Collide(ul) => CollideSafe(c, s, ul, w);
    case Answer(a) => FinishKeeps(c, s, a);
    case RemoteAnswer(a) => RemoteKeeps(c, s, a);
    case CheckTags(hits, accepted) =>
      var span := s.inflight[..|hits|];
      MissesKeep(c, AfterHits(s, span, hits), span, hits, accepted);
    case _ =>
  }

  ghost predicate Initial(s: Cache) {
    && (forall k :: 0 <= k < |s.uppers| ==> s.uppers[k] == C.Channel([], [], [], []))
    && s.inflight == [] && s.stash == [] && s.own == [] && s.mshr == [] && s.writes == []
    && s.asked == {} && s.responses == [] && s.taken == 0 && s.log == []
  }

  ghost predicate Steps(c: Config, s: Cache, e: Event, t: Cache) {
    Inv(c, s) && Enabled(c, s, e) && t == Apply(c, s, e)
  }

  /** Each state follows from the one before; the invariant, proved below, only makes the step well defined. */
  ghost predicate IsRun(c: Config, states: seq<Cache>, events: seq<Event>) {
    && |states| == |events| + 1 && Initial(states[0])
    && forall i :: 0 <= i < |events| && Inv(c, states[i]) ==> Steps(c, states[i], events[i], states[i + 1])
  }

  lemma {:induction false} RunInv(c: Config, states: seq<Cache>, events: seq<Event>, i: nat)
    requires IsRun(c, states, events) && i < |states|
    ensures Inv(c, states[i])
  {
    if i > 0 {
      RunInv(c, states, events, i - 1);
      assert Steps(c, states[i - 1], events[i - 1], states[i]);
      hide Inv, Apply, Enabled;
      ApplyKeeps(c, states[i - 1], events[i - 1]);
    }
  }

  /** In every reachable state there are no more registers than allowed and at most one for a block, those with data
    * come before those without, and every reply a lower level or another node still owes has its register waiting for
    * it. */
  lemma RunKeepsRegisters(c: Config, states: seq<Cache>, events: seq<Event>, i: nat)
    requires IsRun(c, states, events) && i < |states|
    ensures var s := states[i];
            && |s.mshr| <= c.mshrSize
            && (forall j, k :: 0 <= j < k < |s.mshr| ==> BlockOf(c, s.mshr[j].address) != BlockOf(c, s.mshr[k].address))
            && (forall j, k :: 0 <= j < k < |s.mshr| && s.mshr[k].ready.Some? ==> s.mshr[j].ready.Some?)
            && (forall a: nat :: BlockOf(c, a) in s.asked ==>
                 FindMiss(c, s.mshr, a) < |s.mshr| && s.mshr[FindMiss(c, s.mshr, a)].ready.None?)
  {
    RunInv(c, states, events, i);
    var s := states[i];
    forall a: nat | BlockOf(c, a) in s.asked
      ensures FindMiss(c, s.mshr, a) < |s.mshr| && s.mshr[FindMiss(c, s.mshr, a)].ready.None?
    {
      AnswerFindsRegister(c, s, a);
    }
  }

  lemma RunSteps(c: Config, states: seq<Cache>, events: seq<Event>, i: nat)
    requires IsRun(c, states, events) && i < |events|
    ensures Steps(c, states[i], events[i], states[i + 1])
  {
    RunInv(c, states, events, i);
    hide Inv, Steps;
  }

  lemma StepSafe(c: Config, s: Cache, e: Event, t: Cache, w: C.Waiter)
    requires Steps(c, s, e, t) && Begun(s, w) && HonestCache(c, s, w) && HonestEvent(c, e, w)
    ensures Begun(t, w) && HonestCache(c, t, w) && (Safe(c, s, w) ==> Safe(c, t, w))
  {
    hide Inv, Enabled, Apply, Safe, HonestCache, HonestEvent, Begun;
    ApplySafe(c, s, e, w);
    ApplyBegun(c, s, e, w);
  }

  lemma {:induction false} RunSafe(c: Config, states: seq<Cache>, events: seq<Event>, i: nat, j: nat, w: C.Waiter)
    requires IsRun(c, states, events) && i <= j < |states| && Begun(states[i], w) && HonestCache(c, states[i], w)
    requires forall k :: i <= k < j ==> HonestEvent(c, events[k], w)
    ensures Begun(states[j], w) && HonestCache(c, states[j], w)
    ensures Safe(c, states[i], w) ==> Safe(c, states[j], w)
    decreases j - i
  {
    if i < j {
      RunSafe(c, states, events, i, j - 1, w);
      RunSteps(c, states, events, j - 1);
      assert HonestEvent(c, events[j - 1], w);
      hide *;
      StepSafe(c, states[j - 1], events[j - 1], states[j], w);
    }
  }

  /** One who begins to wait now behind a channel, for a reply to a dependent, to a block, or to both. */
  function WaitFrom(s: Cache, sink: nat, id: Option<nat>, block: Option<nat>): C.Waiter {
    C.Waiter(sink, id, block, None, (b: nat) => None, |s.responses|,
             if sink < |s.uppers| then |s.uppers[sink].returned| else 0)
  }

  /** Whoever waits at one point of a run, for a dependent, a block or both, is at every later point still provided for,
    * or has in the meantime been sent a reply that names what it waits for. */
  lemma RunLosesNoWakeup(c: Config, states: seq<Cache>, events: seq<Event>, i: nat, j: nat,
                         sink: nat, id: Option<nat>, block: Option<nat>)
    requires IsRun(c, states, events) && i <= j < |states| && Owed(c, states[i], WaitFrom(states[i], sink, id, block))
    ensures var w := WaitFrom(states[i], sink, id, block); Owed(c, states[j], w) || Answered(c, states[j], w)
  {
    var w := WaitFrom(states[i], sink, id, block);
    Indifferent(c, states[i], w);
    forall k | i <= k < j ensures HonestEvent(c, events[k], w) {}
    hide Owed, Answered, HonestCache, HonestEvent, Begun;
    RunSafe(c, states, events, i, j, w);
  }

  lemma Indifferent(c: Config, s: Cache, w: C.Waiter)
    requires w.vBlock.None?
    ensures HonestCache(c, s, w)
  {
  }

  // The loops.

  lemma MissesOne(c: Config, s: Cache, span: seq<Tag>, hits: seq<bool>, accepted: seq<bool>)
    requires |hits| == |span| == |accepted| && span != []
    ensures Misses(c, s, span, hits, accepted)
            == if hits[0] then Misses(c, s, span[1..], hits[1..], accepted[1..])
               else
                 match Miss1(c, s, span[0], accepted[0])
                 case Some(t) => Misses(c, t, span[1..], hits[1..], accepted[1..])
                 case None =>
                   var r := Misses(c, s, span[1..], hits[1..], accepted[1..]);
                   (r.0, [span[0]] + r.1)
  {
  }

  lemma MissesNone(c: Config, s: Cache)
    ensures Misses(c, s, [], [], []) == (s, []) && HitReplies([], []) == []
  {
  }

  lemma HitOne(span: seq<Tag>, hits: seq<bool>)
    requires |hits| == |span| && span != []
    ensures HitReplies(span, hits)
            == (if hits[0] then Replies(TagReply(span[0]), span[0].sinks) else []) + HitReplies(span[1..], hits[1..])
  {
  }

  lemma Regroup<T>(x: seq<T>, y: seq<T>, z: seq<T>)
    ensures (x + y) + z == x + (y + z)
  {
  }

  lemma FillOne(m: seq<Miss>, k: nat)
    requires k < |m|
    ensures FillReplies(m[..k + 1]) == FillReplies(m[..k]) + Replies(MissReply(m[k]), m[k].sinks)
    decreases k
  {
    assert m[..k + 1][1..] == m[1..][..k];
    if k > 0 {
      FillOne(m[1..], k - 1);
      assert m[..k][1..] == m[1..][..k - 1];
      Regroup(Replies(MissReply(m[0]), m[0].sinks), FillReplies(m[1..][..k - 1]), Replies(MissReply(m[k]), m[k].sinks));
    } else {
      assert FillReplies(m[1..][..0]) == [];
      assert FillReplies(m[..0]) == [];
    }
  }

  class MissUnit {
    const c: Config
    var now: int
    var uppers: seq<C.Channel>
    var inflight: seq<Tag>
    var stash: seq<Tag>
    var own: seq<Tag>
    var mshr: seq<Miss>
    var writes: seq<Miss>
    ghost var asked: set<nat>
    var responses: seq<Response>
    var taken: nat
    ghost var log: seq<Outcome>

    ghost function View(): Cache
      reads this
    {
      Cache(now, uppers, inflight, stash, own, mshr, writes, asked, responses, taken, log)
    }

    method FindRegister(a: nat) returns (k: nat)
      ensures k == FindMiss(c, mshr, a)
    {
      k := 0;
      assert mshr[0..] == mshr;
      while k < |mshr| && BlockOf(c, mshr[k].address) != BlockOf(c, a)
        invariant k <= |mshr| && FindMiss(c, mshr, a) == k + FindMiss(c, mshr[k..], a)
      {
        assert mshr[k..][1..] == mshr[k + 1..];
        k := k + 1;
      }
    }

    method FindUnreturned() returns (k: nat)
      ensures k == FirstUnreturned(mshr)
    {
      k := 0;
      assert mshr[0..] == mshr;
      while k < |mshr| && mshr[k].ready.Some?
        invariant k <= |mshr| && FirstUnreturned(mshr) == k + FirstUnreturned(mshr[k..])
      {
        assert mshr[k..][1..] == mshr[k + 1..];
        k := k + 1;
      }
    }

    /** A reply to a request that was made: the sanity check for its register holds. */
    method FinishPacket(address: nat)
      requires MshrOk(c, mshr, asked) && BlockOf(c, address) in asked
      modifies `mshr, `asked
      ensures FindMiss(c, old(mshr), address) < |old(mshr)| && FirstUnreturned(old(mshr)) < |old(mshr)|
      ensures View() == FinishedPacket(c, old(View()), address) && MshrOk(c, mshr, asked)
    {
      AnswerFindsRegister(c, View(), address);
      FinishKeeps(c, View(), address);
      var entry := FindRegister(address);
      var first := FindUnreturned();
      assert entry != |mshr|;
      mshr := mshr[entry := mshr[entry].(ready := Some(now + c.fillLatency))];
      mshr := mshr[entry := mshr[first]][first := mshr[entry]];
      asked := asked - {BlockOf(c, address)};
    }

    method HandleRemoteResponse(address: nat)
      requires MshrOk(c, mshr, asked) && BlockOf(c, address) in asked
      modifies `mshr, `asked
      ensures FindMiss(c, old(mshr), address) < |old(mshr)|
      ensures View() == RemoteResponse(c, old(View()), address) && MshrOk(c, mshr, asked)
    {
      AnswerFindsRegister(c, View(), address);
      RemoteKeeps(c, View(), address);
      var entry := FindRegister(address);
      assert entry != |mshr|;
      mshr := mshr[entry := mshr[entry].(ready := Some(now + c.fillLatency))];
      mshr := [mshr[entry]] + mshr[..entry] + mshr[entry + 1..];
      asked := asked - {BlockOf(c, address)};
    }

    method HandleMissOf(t: Tag, accepted: bool) returns (done: bool)
      modifies `mshr, `asked, `log
      ensures match HandleMiss(c, old(View()), t, accepted)
              case Some(u) => done && View() == u
              case None => !done && View() == old(View())
    {
      var entry := FindRegister(t.address);
      if entry < |mshr| {
        mshr := mshr[entry := MergeMiss(mshr[entry], NewMiss(t))];
        return true;
      }
      if |mshr| >= c.mshrSize { return false; }
      if !accepted { return false; }
      if WantsResponse(t) {
        mshr := mshr + [NewMiss(t)];
        asked := asked + {BlockOf(c, t.address)};
      } else {
        log := log + [Passed(t)];
      }
      return true;
    }

    method HandleOne(t: Tag, accepted: bool) returns (done: bool)
      modifies `mshr, `asked, `writes, `log
      ensures match Miss1(c, old(View()), t, accepted)
              case Some(u) => done && View() == u
              case None => !done && View() == old(View())
    {
      if t.kind == C.Write && !c.matchOffset {
        writes := writes + [NewMiss(t).(ready := Some(now + c.fillLatency))];
        return true;
      }
      done := HandleMissOf(t, accepted);
    }

    method Respond(reply: C.Reply, sinks: seq<nat>)
      modifies `responses
      ensures responses == old(responses) + Replies(reply, sinks)
    {
      var k := 0;
      assert sinks[0..] == sinks;
      ghost var sent: seq<Response> := [];
      while k < |sinks|
        invariant k <= |sinks| && responses == old(responses) + sent
        invariant sent + Replies(reply, sinks[k..]) == Replies(reply, sinks)
      {
        var r := Response(sinks[k], reply);
        assert sinks[k..][1..] == sinks[k + 1..];
        Regroup(sent, [r], Replies(reply, sinks[k + 1..]));
        responses := responses + [r];
        sent := sent + [r];
        k := k + 1;
      }
    }

    /** The fills of a cycle: registers from the front that are ready, until the bandwidth or a fill fails. */
    method FillFront(bandwidth: nat, filled: seq<bool>) returns (n: nat)
      requires |filled| >= |mshr|
      modifies `mshr, `responses, `log
      ensures Fillable(old(View()), old(mshr), n) && View() == FillMshr(old(View()), n)
      ensures n <= bandwidth && forall k :: 0 <= k < n ==> filled[k]
      ensures n == bandwidth || n == |old(mshr)| || !filled[n] || !Fillable(old(View()), old(mshr), n + 1)
    {
      ghost var before := responses;
      n := 0;
      while n < bandwidth && n < |mshr| && mshr[n].ready.Some? && mshr[n].ready.value <= now && filled[n]
        invariant n <= bandwidth && Fillable(old(View()), mshr, n) && mshr == old(mshr) && log == old(log)
        invariant responses == before + FillReplies(mshr[..n]) && forall k :: 0 <= k < n ==> filled[k]
      {
        FillOne(mshr, n);
        Regroup(before, FillReplies(mshr[..n]), Replies(MissReply(mshr[n]), mshr[n].sinks));
        Respond(MissReply(mshr[n]), mshr[n].sinks);
        n := n + 1;
      }
      log := log + FillLog(mshr[..n]);
      mshr := mshr[n..];
    }

    /** extract_if: what cannot be looked up yet is moved to the stash, the rest closes up in place. */
    method SetAsideUnready()
      modifies `inflight, `stash
      ensures View() == Stash(old(View()))
    {
      hide Others, Unready;
      ghost var s, q := View(), inflight;
      PartNone(s, q);
      var first: nat := 0;
      while first < |inflight| && !(inflight[first].event <= now && !inflight[first].translated)
        invariant inflight == q && stash == s.stash
        invariant first <= |inflight| && Others(s, q[..first]) == q[..first] && Unready(s, q[..first]) == []
      {
        PartOne(s, q, first);
        assert q[..first] + [q[first]] == q[..first + 1];
        first := first + 1;
      }
      assert s.stash + [] == s.stash;
      var i: nat := first;
      while i < |inflight|
        invariant first <= i <= |inflight| == |q|
        invariant inflight[..first] == Others(s, q[..i]) && stash == s.stash + Unready(s, q[..i])
        invariant forall k :: i <= k < |q| ==> inflight[k] == q[k]
      {
        PartOne(s, q, i);
        if inflight[i].event <= now && !inflight[i].translated {
          Regroup(s.stash, Unready(s, q[..i]), [q[i]]);
          stash := stash + [inflight[i]];
        } else {
          Compact(inflight, first, inflight[i]);
          inflight := inflight[first := inflight[i]];
          first := first + 1;
        }
        i := i + 1;
      }
      assert q[..|q|] == q;
      inflight := inflight[..first];
    }

    lemma PartOne(s: Cache, q: seq<Tag>, i: nat)
      requires i < |q|
      ensures Others(s, q[..i + 1]) == Others(s, q[..i]) + if Unmapped(s, q[i]) then [] else [q[i]]
      ensures Unready(s, q[..i + 1]) == Unready(s, q[..i]) + if Unmapped(s, q[i]) then [q[i]] else []
      ensures Others(s, q[..i]) + [] == Others(s, q[..i]) && Unready(s, q[..i]) + [] == Unready(s, q[..i])
    {
      assert q[..i + 1][..i] == q[..i];
    }

    lemma PartNone(s: Cache, q: seq<Tag>)
      ensures Others(s, q[..0]) == [] && Unready(s, q[..0]) == []
    {
    }

    lemma Compact(q: seq<Tag>, first: nat, x: Tag)
      requires first < |q|
      ensures q[first := x][..first + 1] == q[..first] + [x]
    {
    }

    /** The hits of the first n entries reply; then their misses are handled in order, and those that fail stay. */
    method CheckTagsOf(hits: seq<bool>, accepted: seq<bool>)
      requires |hits| == |accepted| <= |inflight|
      modifies this
      ensures View() == TagCheck(c, old(View()), hits, accepted)
    {
      var n := |hits|;
      var span := inflight[..n];
      ReplyHits(span, hits);
      log := log + HitLog(span, hits);
      var kept := HandleMisses(span, hits, accepted);
      inflight := kept + inflight[n..];
    }

    method ReplyHits(span: seq<Tag>, hits: seq<bool>)
      requires |hits| == |span|
      modifies `responses
      ensures responses == old(responses) + HitReplies(span, hits)
    {
      hide HitReplies;
      ghost var sent: seq<Response> := [];
      assert span[0..] == span && hits[0..] == hits;
      for k := 0 to |span|
        invariant responses == old(responses) + sent
        invariant sent + HitReplies(span[k..], hits[k..]) == HitReplies(span, hits)
      {
        HitOne(span[k..], hits[k..]);
        assert span[k..][1..] == span[k + 1..] && hits[k..][1..] == hits[k + 1..];
        ghost var r := if hits[k] then Replies(TagReply(span[k]), span[k].sinks) else [];
        Regroup(sent, r, HitReplies(span[k + 1..], hits[k + 1..]));
        if hits[k] { Respond(TagReply(span[k]), span[k].sinks); }
        sent := sent + r;
      }
      MissesNone(c, View());
      assert span[|span|..] == [] && hits[|span|..] == [];
    }

    method HandleMisses(span: seq<Tag>, hits: seq<bool>, accepted: seq<bool>) returns (kept: seq<Tag>)
      requires |hits| == |span| == |accepted|
      modifies `mshr, `asked, `writes, `log
      ensures (View(), kept) == Misses(c, old(View()), span, hits, accepted)
    {
      hide Misses, Miss1;
      kept := [];
      ghost var goal := Misses(c, View(), span, hits, accepted);
      assert [] + goal.1 == goal.1;
      assert span[0..] == span && hits[0..] == hits && accepted[0..] == accepted;
      for k := 0 to |span|
        invariant View() == old(View()).(mshr := mshr, asked := asked, writes := writes, log := log)
        invariant var r := Misses(c, View(), span[k..], hits[k..], accepted[k..]); (r.0, kept + r.1) == goal
      {
        MissesOne(c, View(), span[k..], hits[k..], accepted[k..]);
        assert span[k..][1..] == span[k + 1..] && hits[k..][1..] == hits[k + 1..]
          && accepted[k..][1..] == accepted[k + 1..];
        if !hits[k] {
          var done := HandleOne(span[k], accepted[k]);
          if !done {
            Regroup(kept, [span[k]], Misses(c, View(), span[k + 1..], hits[k + 1..], accepted[k + 1..]).1);
            kept := kept + [span[k]];
          }
        }
      }
      MissesNone(c, View());
      assert span[|span|..] == [] && hits[|span|..] == [] && accepted[|span|..] == [];
      assert kept + [] == kept;
    }
  }
}
