/** The request channel between two levels, src/channel.cc. */
module Channels {
  import opened Options
  import opened Wakeups

  datatype Access = Load | Rfo | Prefetch | Write | Translation

  datatype Request = Request(address: nat, vAddress: nat, translated: bool, checked: bool, wanted: bool, kind: Access,
                             deps: seq<nat>)

  datatype Reply = Reply(address: nat, vAddress: nat, deps: seq<nat>)

  type Positive = n: int | n > 0 witness 1

  /** Addresses are compared above the block offset; writes, where so configured, in full. */
  datatype ChannelConfig = ChannelConfig(blockSize: Positive, matchOffset: bool, rqSize: nat, pqSize: nat, wqSize: nat)

  datatype Channel = Channel(rq: seq<Request>, pq: seq<Request>, wq: seq<Request>, returned: seq<Reply>)

  function Block(size: Positive, a: nat): nat { a / size }

  function WriteUnit(c: ChannelConfig): Positive { if c.matchOffset then 1 else c.blockSize }

  /** The first of the first `end` requests for the same unit; `end` when there is none. */
  function FirstSame(q: seq<Request>, unit: Positive, a: nat, k: nat, end: nat): (r: nat)
    requires k <= end <= |q|
    ensures k <= r <= end && (r < end ==> Block(unit, q[r].address) == Block(unit, a))
    ensures forall j :: k <= j < r ==> Block(unit, q[j].address) != Block(unit, a)
    decreases end - k
  {
    if k == end || Block(unit, q[k].address) == Block(unit, a) then k else FirstSame(q, unit, a, k + 1, end)
  }

  /** The request collides with the first one for its unit, if both or neither are translated. */
  predicate Collides(q: seq<Request>, unit: Positive, r: Request, end: nat)
    requires end <= |q|
  {
    var j := FirstSame(q, unit, r.address, 0, end);
    j < end && q[j].translated == r.translated
  }

  function Merged(into: Request, from: Request): Request {
    into.(wanted := into.wanted || from.wanted, deps := SetUnion(into.deps, from.deps))
  }

  function Erase<T>(s: seq<T>, i: nat): (r: seq<T>)
    requires i < |s|
    ensures |r| == |s| - 1
  {
    s[..i] + s[i + 1..]
  }

  function FirstUnchecked(q: seq<Request>): (k: nat)
    ensures k <= |q|
  {
    if q == [] || !q[0].checked then 0 else 1 + FirstUnchecked(q[1..])
  }

  function MergeInto(q: seq<Request>, unit: Positive, i: nat): (r: seq<Request>)
    requires i < |q| && Collides(q, unit, q[i], i)
    ensures |r| == |q| - 1
  {
    var j := FirstSame(q, unit, q[i].address, 0, i);
    Erase(q[j := Merged(q[j], q[i])], i)
  }

  /** The write queue from its i-th request on. */
  function CheckWrites(q: seq<Request>, unit: Positive, i: nat): seq<Request>
    requires i <= |q|
    decreases |q| - i
  {
    if i == |q| then q
    else if Collides(q, unit, q[i], i) then CheckWrites(MergeInto(q, unit, i), unit, i)
    else CheckWrites(q[i := q[i].(checked := true)], unit, i + 1)
  }

  function ReplyTo(r: Request): Reply { Reply(r.address, r.vAddress, r.deps) }

  function Forward(returned: seq<Reply>, r: Request): seq<Reply> {
    if r.wanted then returned + [ReplyTo(r)] else returned
  }

  /** The read or prefetch queue from its i-th request on: answered from a write, merged, or passed. */
  function CheckReads(c: ChannelConfig, wq: seq<Request>, q: seq<Request>, returned: seq<Reply>, i: nat)
    : (seq<Request>, seq<Reply>)
    requires i <= |q|
    decreases |q| - i
  {
    if i == |q| then (q, returned)
    else if Collides(wq, WriteUnit(c), q[i], |wq|) then CheckReads(c, wq, Erase(q, i), Forward(returned, q[i]), i)
    else if Collides(q, c.blockSize, q[i], i) then CheckReads(c, wq, MergeInto(q, c.blockSize, i), returned, i)
    else CheckReads(c, wq, q[i := q[i].(checked := true)], returned, i + 1)
  }

  function CheckCollision(c: ChannelConfig, s: Channel): Channel {
    var wq := CheckWrites(s.wq, WriteUnit(c), FirstUnchecked(s.wq));
    var (rq, forwarded) := CheckReads(c, wq, s.rq, s.returned, FirstUnchecked(s.rq));
    var (pq, returned) := CheckReads(c, wq, s.pq, forwarded, FirstUnchecked(s.pq));
    Channel(rq, pq, wq, returned)
  }

  function Enqueue(q: seq<Request>, size: nat, r: Request): seq<Request> {
    if |q| >= size then q else q + [r.(checked := false)]
  }

  // No wake-up is lost.

  /** Who waits behind a channel, and for what: a reply that names a dependent, a block, or a virtual block, counting
    * only replies after the first `since` of the cache's and the first `returned` of the channel's. `origin` is the
    * virtual block that a physical block holds. */
  datatype Waiter = Waiter(sink: nat, id: Option<nat>, block: Option<nat>, vBlock: Option<nat>,
                           origin: nat -> Option<nat>, since: nat, returned: nat)

  predicate Dependent(w: Waiter, deps: seq<nat>) { w.id.Some? ==> w.id.value in deps }

  /** The virtual block of an address; before translation it is that of the address itself. */
  function VirtualBlock(size: Positive, w: Waiter, translated: bool, a: nat): Option<nat> {
    if translated then w.origin(Block(size, a)) else Some(Block(size, a))
  }

  predicate At(size: Positive, w: Waiter, translated: bool, a: nat) {
    && (w.block.Some? ==> translated && w.block.value == Block(size, a))
    && (w.vBlock.Some? ==> VirtualBlock(size, w, translated, a) == w.vBlock)
  }

  predicate Asks(size: Positive, r: Request, w: Waiter) {
    r.wanted && Dependent(w, r.deps) && At(size, w, r.translated, r.address)
  }

  ghost predicate Asked(size: Positive, q: seq<Request>, w: Waiter) {
    exists k :: 0 <= k < |q| && Asks(size, q[k], w)
  }

  /** The waiter finds itself, and its block, in a reply. */
  predicate Names(size: Positive, w: Waiter, address: nat, vAddress: nat, deps: seq<nat>) {
    && Dependent(w, deps) && (w.block.Some? ==> w.block.value == Block(size, address))
    && (w.vBlock.Some? ==> w.vBlock.value == Block(size, vAddress))
  }

  predicate Wakes(size: Positive, r: Reply, w: Waiter) { Names(size, w, r.address, r.vAddress, r.deps) }

  ghost predicate Woken(size: Positive, returned: seq<Reply>, w: Waiter) {
    exists k :: w.returned <= k < |returned| && Wakes(size, returned[k], w)
  }

  /** Untranslated requests carry their virtual address twice; a translated one that is for a block with a known origin
    * carries an address there. */
  predicate Honest(size: Positive, w: Waiter, translated: bool, address: nat, vAddress: nat) {
    if translated then w.origin(Block(size, address)) in {None, Some(Block(size, vAddress))} else address == vAddress
  }

  ghost predicate AllHonest(size: Positive, q: seq<Request>, w: Waiter) {
    w.vBlock.Some? ==> forall k :: 0 <= k < |q| ==>
      !q[k].kind.Prefetch? && Honest(size, w, q[k].translated, q[k].address, q[k].vAddress)
  }

  lemma EraseAsked(size: Positive, q: seq<Request>, i: nat, k: nat, w: Waiter)
    requires i < |q| && k < |q| && k != i && Asks(size, q[k], w)
    ensures Asked(size, Erase(q, i), w)
  {
    var e := Erase(q, i);
    assert Asks(size, e[if k < i then k else k - 1], w);
  }

  /** Requests for one unit are for one block. */
  lemma UnitInBlock(c: ChannelConfig, unit: Positive, a: nat, b: nat)
    requires unit in {1, c.blockSize} && Block(unit, a) == Block(unit, b)
    ensures Block(c.blockSize, a) == Block(c.blockSize, b)
  {
  }

  lemma MergeAsked(c: ChannelConfig, q: seq<Request>, unit: Positive, i: nat, w: Waiter)
    requires unit in {1, c.blockSize} && i < |q| && Collides(q, unit, q[i], i) && Asked(c.blockSize, q, w)
    ensures Asked(c.blockSize, MergeInto(q, unit, i), w)
  {
    var j := FirstSame(q, unit, q[i].address, 0, i);
    var m := q[j := Merged(q[j], q[i])];
    var k :| 0 <= k < |q| && Asks(c.blockSize, q[k], w);
    UnitInBlock(c, unit, q[j].address, q[i].address);
    if w.id.Some? { SetUnionMembers(q[j].deps, q[i].deps, w.id.value); }
    hide Block;
    if k == i || k == j { EraseAsked(c.blockSize, m, i, j, w); } else { EraseAsked(c.blockSize, m, i, k, w); }
  }

  lemma PassAsked(size: Positive, q: seq<Request>, i: nat, w: Waiter)
    requires i < |q| && Asked(size, q, w)
    ensures Asked(size, q[i := q[i].(checked := true)], w)
  {
    var k :| 0 <= k < |q| && Asks(size, q[k], w);
    assert Asks(size, q[i := q[i].(checked := true)][k], w);
  }

  lemma MergeHonest(size: Positive, q: seq<Request>, unit: Positive, i: nat, w: Waiter)
    requires i < |q| && Collides(q, unit, q[i], i)
    ensures AllHonest(size, q, w) ==> AllHonest(size, MergeInto(q, unit, i), w)
  {
    hide Honest, Block;
  }

  lemma PassHonest(size: Positive, q: seq<Request>, i: nat, w: Waiter)
    requires i < |q|
    ensures AllHonest(size, q, w) ==> AllHonest(size, q[i := q[i].(checked := true)], w)
  {
    hide Honest;
  }

  lemma {:induction false} CheckWritesAsked(c: ChannelConfig, q: seq<Request>, unit: Positive, i: nat, w: Waiter)
    requires unit in {1, c.blockSize} && i <= |q|
    ensures Asked(c.blockSize, q, w) ==> Asked(c.blockSize, CheckWrites(q, unit, i), w)
    ensures AllHonest(c.blockSize, q, w) ==> AllHonest(c.blockSize, CheckWrites(q, unit, i), w)
    decreases |q| - i
  {
    hide Asked, Asks, Honest;
    if i < |q| {
      if Collides(q, unit, q[i], i) {
        if Asked(c.blockSize, q, w) { MergeAsked(c, q, unit, i, w); }
        MergeHonest(c.blockSize, q, unit, i, w);
        hide AllHonest;
        CheckWritesAsked(c, MergeInto(q, unit, i), unit, i, w);
      } else {
        if Asked(c.blockSize, q, w) { PassAsked(c.blockSize, q, i, w); }
        PassHonest(c.blockSize, q, i, w);
        hide AllHonest;
        CheckWritesAsked(c, q[i := q[i].(checked := true)], unit, i + 1, w);
      }
    }
  }

  lemma WokenMore(size: Positive, returned: seq<Reply>, r: Reply, w: Waiter)
    requires w.returned <= |returned| && (Woken(size, returned, w) || Wakes(size, r, w))
    ensures Woken(size, returned + [r], w)
  {
    var more := returned + [r];
    if Woken(size, returned, w) {
      var k :| w.returned <= k < |returned| && Wakes(size, returned[k], w);
      assert Wakes(size, more[k], w);
    } else {
      assert Wakes(size, more[|returned|], w);
    }
  }

  lemma {:induction false} CheckReadsSafe(c: ChannelConfig, wq: seq<Request>, q: seq<Request>, returned: seq<Reply>,
                                          i: nat, w: Waiter)
    requires i <= |q| && w.returned <= |returned| && AllHonest(c.blockSize, q, w)
    ensures var (q', returned') := CheckReads(c, wq, q, returned, i);
            && returned <= returned' && AllHonest(c.blockSize, q', w)
            && (Asked(c.blockSize, q, w) || Woken(c.blockSize, returned, w) ==>
                 Asked(c.blockSize, q', w) || Woken(c.blockSize, returned', w))
    decreases |q| - i
  {
    hide Asked, Woken, AllHonest;
    if i < |q| {
      if Collides(wq, WriteUnit(c), q[i], |wq|) {
        AnswerSafe(c.blockSize, q, returned, i, w);
        CheckReadsSafe(c, wq, Erase(q, i), Forward(returned, q[i]), i, w);
      } else if Collides(q, c.blockSize, q[i], i) {
        if Asked(c.blockSize, q, w) { MergeAsked(c, q, c.blockSize, i, w); }
        MergeHonest(c.blockSize, q, c.blockSize, i, w);
        CheckReadsSafe(c, wq, MergeInto(q, c.blockSize, i), returned, i, w);
      } else {
        if Asked(c.blockSize, q, w) { PassAsked(c.blockSize, q, i, w); }
        PassHonest(c.blockSize, q, i, w);
        CheckReadsSafe(c, wq, q[i := q[i].(checked := true)], returned, i + 1, w);
      }
    }
  }

  lemma AnswerSafe(size: Positive, q: seq<Request>, returned: seq<Reply>, i: nat, w: Waiter)
    requires i < |q| && w.returned <= |returned| && AllHonest(size, q, w)
    ensures AllHonest(size, Erase(q, i), w)
    ensures Asked(size, q, w) || Woken(size, returned, w) ==>
      Asked(size, Erase(q, i), w) || Woken(size, Forward(returned, q[i]), w)
  {
    if Woken(size, returned, w) {
      WokenMore(size, returned, ReplyTo(q[i]), w);
    } else if Asked(size, q, w) {
      var k :| 0 <= k < |q| && Asks(size, q[k], w);
      if k == i { WokenMore(size, returned, ReplyTo(q[i]), w); } else { EraseAsked(size, q, i, k, w); }
    }
  }

  ghost predicate Owed(c: ChannelConfig, s: Channel, w: Waiter) {
    Asked(c.blockSize, s.rq, w) || Asked(c.blockSize, s.pq, w) || Asked(c.blockSize, s.wq, w)
  }

  ghost predicate HonestChannel(c: ChannelConfig, s: Channel, w: Waiter) {
    AllHonest(c.blockSize, s.rq, w) && AllHonest(c.blockSize, s.pq, w) && AllHonest(c.blockSize, s.wq, w)
  }

  /** Merging collisions and answering from the write queue lose nobody who waits, for a dependent or for a block. */
  lemma CollisionSafe(c: ChannelConfig, s: Channel, w: Waiter)
    requires w.returned <= |s.returned| && HonestChannel(c, s, w)
    ensures var t := CheckCollision(c, s);
            && s.returned <= t.returned && HonestChannel(c, t, w)
            && (Owed(c, s, w) || Woken(c.blockSize, s.returned, w) ==>
                 Owed(c, t, w) || Woken(c.blockSize, t.returned, w))
  {
    var wq := CheckWrites(s.wq, WriteUnit(c), FirstUnchecked(s.wq));
    var (rq, forwarded) := CheckReads(c, wq, s.rq, s.returned, FirstUnchecked(s.rq));
    hide AllHonest, Asked, Woken;
    CheckWritesAsked(c, s.wq, WriteUnit(c), FirstUnchecked(s.wq), w);
    CheckReadsSafe(c, wq, s.rq, s.returned, FirstUnchecked(s.rq), w);
    CheckReadsSafe(c, wq, s.pq, forwarded, FirstUnchecked(s.pq), w);
  }

  lemma CheckReadsTurn(c: ChannelConfig, wq: seq<Request>, q: seq<Request>, returned: seq<Reply>, i: nat)
    requires i < |q|
    ensures CheckReads(c, wq, q, returned, i)
            == if Collides(wq, WriteUnit(c), q[i], |wq|) then CheckReads(c, wq, Erase(q, i), Forward(returned, q[i]), i)
               else if Collides(q, c.blockSize, q[i], i)
                 then CheckReads(c, wq, MergeInto(q, c.blockSize, i), returned, i)
               else CheckReads(c, wq, q[i := q[i].(checked := true)], returned, i + 1)
  {
  }

  lemma CheckReadsEnd(c: ChannelConfig, wq: seq<Request>, q: seq<Request>, returned: seq<Reply>)
    ensures CheckReads(c, wq, q, returned, |q|) == (q, returned)
  {
  }

  class RequestChannel {
    const c: ChannelConfig
    var rq: seq<Request>
    var pq: seq<Request>
    var wq: seq<Request>
    var returned: seq<Reply>

    ghost function View(): Channel
      reads this
    {
      Channel(rq, pq, wq, returned)
    }

    method FindSame(q: seq<Request>, unit: Positive, a: nat, end: nat) returns (j: nat)
      requires end <= |q|
      ensures j == FirstSame(q, unit, a, 0, end)
    {
      j := 0;
      while j < end && Block(unit, q[j].address) != Block(unit, a)
        invariant j <= end && FirstSame(q, unit, a, 0, end) == FirstSame(q, unit, a, j, end)
      {
        j := j + 1;
      }
    }

    method FindUnchecked(q: seq<Request>) returns (k: nat)
      ensures k == FirstUnchecked(q)
    {
      k := 0;
      assert q[0..] == q;
      while k < |q| && q[k].checked
        invariant k <= |q| && FirstUnchecked(q) == k + FirstUnchecked(q[k..])
      {
        assert q[k..][1..] == q[k + 1..];
        k := k + 1;
      }
    }

    method CheckWriteQueue()
      modifies `wq
      ensures wq == CheckWrites(old(wq), WriteUnit(c), FirstUnchecked(old(wq)))
    {
      var unit := WriteUnit(c);
      var i: nat := FindUnchecked(wq);
      while i < |wq|
        invariant i <= |wq| && CheckWrites(wq, unit, i) == CheckWrites(old(wq), unit, FirstUnchecked(old(wq)))
        decreases |wq| - i
      {
        var j: nat := FindSame(wq, unit, wq[i].address, i);
        if j != i && wq[j].translated == wq[i].translated {
          wq := wq[j := Merged(wq[j], wq[i])];
          wq := wq[..i] + wq[i + 1..];
        } else {
          wq := wq[i := wq[i].(checked := true)];
          i := i + 1;
        }
      }
    }

    method CheckQueue(queue: seq<Request>) returns (q: seq<Request>)
      modifies `returned
      ensures (q, returned) == CheckReads(c, wq, queue, old(returned), FirstUnchecked(queue))
    {
      hide CheckReads, FirstSame, Block, SetUnion;
      q := queue;
      var i: nat := FindUnchecked(q);
      while i < |q|
        invariant i <= |q|
        invariant CheckReads(c, wq, q, returned, i) == CheckReads(c, wq, queue, old(returned), FirstUnchecked(queue))
        decreases |q| - i
      {
        CheckReadsTurn(c, wq, q, returned, i);
        var w: nat := FindSame(wq, WriteUnit(c), q[i].address, |wq|);
        if w != |wq| && wq[w].translated == q[i].translated {
          if q[i].wanted { returned := returned + [Reply(q[i].address, q[i].vAddress, q[i].deps)]; }
          q := q[..i] + q[i + 1..];
        } else {
          var j: nat := FindSame(q, c.blockSize, q[i].address, i);
          if j != i && q[j].translated == q[i].translated {
            q := q[j := Merged(q[j], q[i])];
            q := q[..i] + q[i + 1..];
          } else {
            q := q[i := q[i].(checked := true)];
            i := i + 1;
          }
        }
      }
      CheckReadsEnd(c, wq, q, returned);
    }

    method Collide()
      modifies this
      ensures View() == CheckCollision(c, old(View()))
    {
      hide CheckWrites, CheckReads;
      CheckWriteQueue();
      rq := CheckQueue(rq);
      pq := CheckQueue(pq);
    }

    method AddRq(packet: Request) returns (ok: bool)
      modifies `rq
      ensures rq == Enqueue(old(rq), c.rqSize, packet) && ok == (|old(rq)| < c.rqSize)
    {
      if |rq| >= c.rqSize { return false; }
      rq := rq + [packet.(checked := false)];
      return true;
    }

    method AddPq(packet: Request) returns (ok: bool)
      modifies `pq
      ensures pq == Enqueue(old(pq), c.pqSize, packet) && ok == (|old(pq)| < c.pqSize)
    {
      if |pq| >= c.pqSize { return false; }
      pq := pq + [packet.(checked := false)];
      return true;
    }

    method AddWq(packet: Request) returns (ok: bool)
      modifies `wq
      ensures wq == Enqueue(old(wq), c.wqSize, packet) && ok == (|old(wq)| < c.wqSize)
    {
      if |wq| >= c.wqSize { return false; }
      wq := wq + [packet.(checked := false)];
      return true;
    }
  }
}
