/** What every step of the load and store queues keeps. */
module MemoryOrder {
  import opened Counting
  import opened Options
  import opened LoadStoreQueue

  // The invariant.

  /** The owners of the load-queue slots and of the stores not yet finished; -1 owns nothing. */
  function LqIds(lq: seq<Option<Load>>): seq<int> {
    seq(|lq|, w requires 0 <= w < |lq| => if lq[w].Some? then lq[w].value.id else -1)
  }

  function SqIds(sq: seq<StoreEntry>): seq<int> {
    seq(|sq|, k requires 0 <= k < |sq| => if sq[k].issued then -1 else sq[k].id)
  }

  /** How many waiting lists of unfinished stores name slot w. */
  function Waits(sq: seq<StoreEntry>, w: int): nat {
    if sq == [] then 0
    else Waits(sq[..|sq| - 1], w) + if sq[|sq| - 1].issued then 0 else Count(sq[|sq| - 1].waiters, w)
  }

  predicate InRob(rob: seq<RobEntry>, id: nat) {
    exists i :: 0 <= i < |rob| && rob[i].id == id
  }

  function Queued(sq: seq<StoreEntry>): seq<Store> {
    seq(|sq|, k requires 0 <= k < |sq| => Store(sq[k].addr, sq[k].id))
  }

  predicate InOrder(s: Lsq) {
    && (forall i, j :: 0 <= i < j < |s.program| ==> s.program[i].id < s.program[j].id)
    && |s.rob| <= |s.program|
    && (forall i :: 0 <= i < |s.rob| ==> s.rob[i].id == s.program[|s.program| - |s.rob| + i].id)
    && (forall i, j :: 0 <= i < j < |s.sq| ==> s.sq[i].id <= s.sq[j].id)
    && (forall i, j :: 0 <= i < j < |s.sq| && s.sq[j].issued ==> s.sq[i].issued)
  }

  /** Unfinished operations belong to unretired instructions. */
  predicate Owned(s: Lsq) {
    && (forall k :: 0 <= k < |s.sq| && !s.sq[k].issued ==> InRob(s.rob, s.sq[k].id))
    && (forall w :: 0 <= w < |s.lq| && s.lq[w].Some? ==> InRob(s.rob, s.lq[w].value.id))
  }

  /** Finished operations, live loads and unfinished stores add up to the operand count of every
      instruction, up to `adj` operations of instruction `who` that a step is in the middle of. */
  predicate Balanced(rob: seq<RobEntry>, lq: seq<Option<Load>>, sq: seq<StoreEntry>, who: nat, adj: int) {
    forall i :: 0 <= i < |rob| ==>
      rob[i].done + Count(LqIds(lq), rob[i].id) + Count(SqIds(sq), rob[i].id)
        + (if rob[i].id == who then adj else 0) == rob[i].ops
  }

  predicate CompletedDone(rob: seq<RobEntry>) {
    forall i :: 0 <= i < |rob| && rob[i].completed ==> rob[i].done == rob[i].ops
  }

  /** A waiting load waits for the store it should see; any other has no older store to its address
      left in the queue. */
  predicate LoadOk(stores: seq<Store>, sq: seq<StoreEntry>, e: Load) {
    match e.producer
    case Some(p) => !e.issued && LastBefore(stores, e.addr, e.id) == Some(p)
    case None => forall k :: 0 <= k < |sq| && sq[k].addr == e.addr ==> sq[k].id >= e.id
  }

  predicate LoadsOk(s: Lsq) {
    forall w :: 0 <= w < |s.lq| && s.lq[w].Some? ==> LoadOk(s.stores, s.sq, s.lq[w].value)
  }

  /** References between the queues: each waiting load is named once, by a store of its producer. */
  ghost predicate References(lq: seq<Option<Load>>, sq: seq<StoreEntry>) {
    && (forall w :: 0 <= w < |lq| ==> Waits(sq, w) == if lq[w].Some? && lq[w].value.producer.Some? then 1 else 0)
    && (forall k, j :: 0 <= k < |sq| && !sq[k].issued && 0 <= j < |sq[k].waiters| ==>
        Names(lq, sq[k], sq[k].waiters[j]))
  }

  predicate Names(lq: seq<Option<Load>>, e: StoreEntry, w: int) {
    0 <= w < |lq| && lq[w].Some? && lq[w].value.producer == Some(e.id)
  }

  /** Stores reach the cache in program order, and only those of retired instructions have. */
  predicate WrittenOk(s: Lsq) {
    && s.stores == s.written + Queued(s.sq)
    && (forall k, i :: 0 <= k < |s.written| && 0 <= i < |s.rob| ==> s.written[k].id < s.rob[i].id)
    && (forall k :: 0 <= k < |s.stores| ==> Dispatched(s.program, s.stores[k].id))
  }

  /** The instruction has been dispatched, so anything dispatched later has a greater id. */
  predicate Dispatched(program: seq<MemInstr>, id: nat) {
    program != [] && id <= program[|program| - 1].id
  }

  predicate ObservedOk(s: Lsq) {
    forall k :: 0 <= k < |s.observed| ==>
      && s.observed[k].source == LastBefore(s.stores, s.observed[k].addr, s.observed[k].id)
      && Dispatched(s.program, s.observed[k].id)
  }

  ghost predicate Inv(s: Lsq, who: nat, adj: int) {
    match s
    case Lsq(_, rob, lq, sq, _, _, _, _) =>
      && InOrder(s) && Owned(s) && Balanced(rob, lq, sq, who, adj) && CompletedDone(rob)
      && LoadsOk(s) && References(lq, sq) && WrittenOk(s) && ObservedOk(s)
  }

  // Counting facts.

  lemma LqCountUpdate(lq: seq<Option<Load>>, w: nat, x: Option<Load>, id: nat)
    requires w < |lq|
    ensures Count(LqIds(lq[w := x]), id) + (if lq[w].Some? && lq[w].value.id == id then 1 else 0)
         == Count(LqIds(lq), id) + if x.Some? && x.value.id == id then 1 else 0
  {
    var y := if x.Some? then x.value.id else -1;
    assert LqIds(lq[w := x]) == LqIds(lq)[w := y];
    CountUpdate(LqIds(lq), w, y, id);
  }

  lemma SqCountUpdate(sq: seq<StoreEntry>, k: nat, x: StoreEntry, id: nat)
    requires k < |sq|
    ensures Count(SqIds(sq[k := x]), id) + (if !sq[k].issued && sq[k].id == id then 1 else 0)
         == Count(SqIds(sq), id) + if !x.issued && x.id == id then 1 else 0
  {
    var y := if x.issued then -1 else x.id;
    assert SqIds(sq[k := x]) == SqIds(sq)[k := y];
    CountUpdate(SqIds(sq), k, y, id);
  }

  lemma {:induction false} WaitsUpdate(sq: seq<StoreEntry>, k: nat, x: StoreEntry, w: int)
    requires k < |sq|
    ensures Waits(sq[k := x], w) + (if sq[k].issued then 0 else Count(sq[k].waiters, w))
         == Waits(sq, w) + if x.issued then 0 else Count(x.waiters, w)
  {
    var n := |sq| - 1;
    if k < n {
      WaitsUpdate(sq[..n], k, x, w);
      assert sq[k := x][..n] == sq[..n][k := x];
    } else {
      assert sq[k := x][..n] == sq[..n];
    }
  }

  lemma {:induction false} WaitsNone(sq: seq<StoreEntry>, w: int)
    requires forall k :: 0 <= k < |sq| ==> sq[k].issued || sq[k].waiters == []
    ensures Waits(sq, w) == 0
  {
    if sq != [] { WaitsNone(sq[..|sq| - 1], w); }
  }

  lemma {:induction false} WaitsConcat(sq: seq<StoreEntry>, t: seq<StoreEntry>, w: int)
    ensures Waits(sq + t, w) == Waits(sq, w) + Waits(t, w)
  {
    if t == [] {
      assert sq + t == sq;
    } else {
      WaitsConcat(sq, t[..|t| - 1], w);
      assert (sq + t)[..|sq + t| - 1] == sq + t[..|t| - 1];
    }
  }

  lemma {:induction false} WaitsAt(sq: seq<StoreEntry>, k: nat, w: int)
    requires k < |sq| && !sq[k].issued
    ensures Waits(sq, w) >= Count(sq[k].waiters, w)
  {
    if k < |sq| - 1 { WaitsAt(sq[..|sq| - 1], k, w); }
  }

  lemma {:induction false} WaitsTwo(sq: seq<StoreEntry>, k: nat, l: nat, w: int)
    requires k < l < |sq| && !sq[k].issued && !sq[l].issued
    ensures Waits(sq, w) >= Count(sq[k].waiters, w) + Count(sq[l].waiters, w)
  {
    if l < |sq| - 1 { WaitsTwo(sq[..|sq| - 1], k, l, w); } else { WaitsAt(sq[..l], k, w); }
  }

  /** A slot that waits is named in one place only. */
  lemma NamedOnce(lq: seq<Option<Load>>, sq: seq<StoreEntry>, k: nat, j: nat)
    requires References(lq, sq) && k < |sq| && !sq[k].issued && j < |sq[k].waiters|
    ensures var w := sq[k].waiters[j];
      && Names(lq, sq[k], w) && Waits(sq, w) == 1
      && (forall i :: 0 <= i < |sq[k].waiters| && i != j ==> sq[k].waiters[i] != w)
      && (forall l, i :: 0 <= l < |sq| && l != k && !sq[l].issued && 0 <= i < |sq[l].waiters| ==> sq[l].waiters[i] != w)
  {
    var w := sq[k].waiters[j];
    assert Names(lq, sq[k], w);
    CountIn(sq[k].waiters, w);
    WaitsAt(sq, k, w);
    forall i | 0 <= i < |sq[k].waiters| && i != j ensures sq[k].waiters[i] != w {
      if sq[k].waiters[i] == w { CountTwice(sq[k].waiters, if i < j then i else j, if i < j then j else i); }
    }
    forall l, i | 0 <= l < |sq| && l != k && !sq[l].issued && 0 <= i < |sq[l].waiters| ensures sq[l].waiters[i] != w {
      if sq[l].waiters[i] == w {
        CountIn(sq[l].waiters, w);
        if l < k { WaitsTwo(sq, l, k, w); } else { WaitsTwo(sq, k, l, w); }
      }
    }
  }

  // Finishing one memory operation.

  lemma BumpIds(rob: seq<RobEntry>, id: nat)
    ensures forall i :: 0 <= i < |rob| ==>
          Bump(rob, id)[i] == rob[i].(done := rob[i].done + if rob[i].id == id then 1 else 0)
    ensures forall x :: InRob(rob, x) ==> InRob(Bump(rob, id), x)
  {
    forall x | InRob(rob, x) ensures InRob(Bump(rob, id), x) {
      var i :| 0 <= i < |rob| && rob[i].id == x;
      assert Bump(rob, id)[i].id == x;
    }
  }

  /** Counting one more finished operation keeps everything but the balance. */
  lemma BumpFrame(s: Lsq, t: Lsq, id: nat)
    requires InOrder(s) && Owned(s) && WrittenOk(s) && t == s.(rob := Bump(s.rob, id))
    ensures InOrder(t) && Owned(t) && WrittenOk(t)
  {
    BumpIds(s.rob, id);
  }

  /** The operations of instruction id that are still live, including those a step is dealing with. */
  function LiveOps(s: Lsq, who: nat, adj: int, id: nat): int {
    Count(LqIds(s.lq), id) + Count(SqIds(s.sq), id) + if id == who then adj else 0
  }

  lemma BumpBalance(s: Lsq, who: nat, adj: int, id: nat)
    requires Balanced(s.rob, s.lq, s.sq, who, adj) && CompletedDone(s.rob) && LiveOps(s, who, adj, id) > 0
    requires id == who || adj == 0
    ensures Balanced(Bump(s.rob, id), s.lq, s.sq, id, adj - 1) && CompletedDone(Bump(s.rob, id))
  {
    BumpIds(s.rob, id);
  }

  lemma SlotBalance(rob: seq<RobEntry>, lq: seq<Option<Load>>, sq: seq<StoreEntry>, who: nat, adj: int, w: nat)
    requires Balanced(rob, lq, sq, who, adj) && w < |lq| && lq[w].Some? && (lq[w].value.id == who || adj == 0)
    ensures Balanced(rob, lq[w := None], sq, lq[w].value.id, adj + 1)
  {
    forall i | 0 <= i < |rob|
      ensures Count(LqIds(lq[w := None]), rob[i].id)
          + (if rob[i].id == lq[w].value.id then 1 else 0) == Count(LqIds(lq), rob[i].id)
    {
      LqCountUpdate(lq, w, None, rob[i].id);
    }
  }

  lemma ResolveReferences(lq: seq<Option<Load>>, sq: seq<StoreEntry>, w: nat)
    requires References(lq, sq) && w < |lq| && Waits(sq, w) == 0
    ensures References(lq[w := None], sq)
  {
    forall k, j | 0 <= k < |sq| && !sq[k].issued && 0 <= j < |sq[k].waiters|
      ensures Names(lq[w := None], sq[k], sq[k].waiters[j])
    {
      assert Names(lq, sq[k], sq[k].waiters[j]);
      CountIn(sq[k].waiters, sq[k].waiters[j]);
      WaitsAt(sq, k, sq[k].waiters[j]);
    }
  }

  lemma ResolveFrame(s: Lsq, w: nat, source: Option<nat>)
    requires InOrder(s) && Owned(s) && LoadsOk(s) && WrittenOk(s) && ObservedOk(s) && w < |s.lq| && s.lq[w].Some?
    requires LastBefore(s.stores, s.lq[w].value.addr, s.lq[w].value.id) == source
    requires Dispatched(s.program, s.lq[w].value.id)
    ensures var t := Resolve(s, w, source); InOrder(t) && Owned(t) && LoadsOk(t) && WrittenOk(t) && ObservedOk(t)
  {
    var t := Resolve(s, w, source);
    BumpFrame(s, s.(rob := t.rob), s.lq[w].value.id);
    hide Bump, LoadOk, LastBefore;
  }

  /** A load that resolves with the right source leaves no trace but its observation. */
  lemma ResolveKeeps(s: Lsq, who: nat, adj: int, w: nat, source: Option<nat>)
    requires Inv(s, who, adj) && w < |s.lq| && s.lq[w].Some? && Waits(s.sq, w) == 0
    requires s.lq[w].value.id == who || adj == 0
    requires LiveOps(s, who, adj, s.lq[w].value.id) > 0
    requires LastBefore(s.stores, s.lq[w].value.addr, s.lq[w].value.id) == source
    requires Dispatched(s.program, s.lq[w].value.id)
    ensures Inv(Resolve(s, w, source), s.lq[w].value.id, adj)
  {
    var t, id := Resolve(s, w, source), s.lq[w].value.id;
    ResolveFrame(s, w, source);
    BumpBalance(s, who, adj, id);
    SlotBalance(t.rob, s.lq, s.sq, id, adj - 1, w);
    ResolveReferences(s.lq, s.sq, w);
    hide InOrder, Owned, Balanced, CompletedDone, LoadsOk, References, WrittenOk, ObservedOk, Bump;
  }

  lemma LiveLoad(s: Lsq, w: nat)
    requires InOrder(s) && Owned(s) && w < |s.lq| && s.lq[w].Some?
    ensures Count(LqIds(s.lq), s.lq[w].value.id) >= 1 && Dispatched(s.program, s.lq[w].value.id)
  {
    assert LqIds(s.lq)[w] == s.lq[w].value.id;
    CountIn(LqIds(s.lq), s.lq[w].value.id);
    LiveIsDispatched(s, s.lq[w].value.id);
  }

  lemma LiveIsDispatched(s: Lsq, id: nat)
    requires InOrder(s) && InRob(s.rob, id)
    ensures Dispatched(s.program, id)
  {
  }

  /** What a load that does not wait sees in the cache is what program order gives it. */
  lemma AnswerIsRight(s: Lsq, w: nat)
    requires InOrder(s) && Owned(s) && LoadsOk(s) && WrittenOk(s)
    requires w < |s.lq| && s.lq[w].Some? && s.lq[w].value.producer.None?
    ensures LastBefore(s.stores, s.lq[w].value.addr, s.lq[w].value.id) == LastWriter(s.written, s.lq[w].value.addr)
  {
    var e := s.lq[w].value;
    assert LoadOk(s.stores, s.sq, e);
    LastBeforeSkips(s.written, Queued(s.sq), e.addr, e.id);
    LastBeforeAll(s.written, e.addr, e.id);
  }

  lemma AnswerKeeps(s: Lsq, who: nat, w: nat)
    requires Inv(s, who, 0) && w < |s.lq| && s.lq[w].Some? && s.lq[w].value.producer.None?
    ensures Inv(Answer(s, w), s.lq[w].value.id, 0)
  {
    AnswerIsRight(s, w);
    LiveLoad(s, w);
    ResolveKeeps(s, who, 0, w, LastWriter(s.written, s.lq[w].value.addr));
  }

  // Forwarding from a finishing store.

  /** Instruction `id` has one store that has finished but is not marked yet. */
  lemma BumpStoreKeeps(s: Lsq, who: nat, k: nat)
    requires Inv(s, who, 0) && k < |s.sq| && !s.sq[k].issued
    ensures Inv(s.(rob := Bump(s.rob, s.sq[k].id)), s.sq[k].id, -1)
  {
    var id := s.sq[k].id;
    assert SqIds(s.sq)[k] == id;
    CountIn(SqIds(s.sq), id);
    BumpFrame(s, s.(rob := Bump(s.rob, id)), id);
    BumpBalance(s, who, 0, id);
    hide InOrder, Owned, Balanced, CompletedDone, References, WrittenOk, Bump, LoadOk, LastBefore;
  }

  predicate Forwarding(s: Lsq, k: nat) {
    k < |s.sq| && !s.sq[k].issued && s.sq[k].waiters != []
  }

  /** The first waiting load is live and waits for this store. */
  lemma FirstWaiter(s: Lsq, who: nat, adj: int, k: nat)
    requires Inv(s, who, adj) && Forwarding(s, k)
    ensures Names(s.lq, s.sq[k], s.sq[k].waiters[0])
    ensures LastBefore(s.stores, s.lq[s.sq[k].waiters[0]].value.addr, s.lq[s.sq[k].waiters[0]].value.id)
        == Some(s.sq[k].id)
    ensures Dispatched(s.program, s.lq[s.sq[k].waiters[0]].value.id)
    ensures Count(LqIds(s.lq), s.lq[s.sq[k].waiters[0]].value.id) >= 1
  {
    var w := s.sq[k].waiters[0];
    assert Names(s.lq, s.sq[k], w);
    assert LoadOk(s.stores, s.sq, s.lq[w].value);
    LiveLoad(s, w);
  }

  function DropWaiter(s: Lsq, k: nat): Lsq
    requires Forwarding(s, k)
  {
    s.(sq := s.sq[k := s.sq[k].(waiters := s.sq[k].waiters[1..])])
  }

  lemma DropReferences(s: Lsq, k: nat)
    requires References(s.lq, s.sq) && Forwarding(s, k)
    ensures var t, w := DropWaiter(s, k), s.sq[k].waiters[0];
      0 <= w < |s.lq| && Waits(t.sq, w) == 0 && References(t.lq[w := None], t.sq)
  {
    var e := s.sq[k];
    var t, w := DropWaiter(s, k), e.waiters[0];
    NamedOnce(s.lq, s.sq, k, 0);
    assert e.waiters == [w] + e.waiters[1..];
    forall v | 0 <= v < |s.lq|
      ensures Waits(t.sq, v) == Waits(s.sq, v) - if v == w then 1 else 0
    {
      WaitsUpdate(s.sq, k, t.sq[k], v);
      CountConcat([w], e.waiters[1..], v);
    }
    forall l, j | 0 <= l < |t.sq| && !t.sq[l].issued && 0 <= j < |t.sq[l].waiters|
      ensures Names(t.lq[w := None], t.sq[l], t.sq[l].waiters[j])
    {
      if l == k {
        assert Names(s.lq, s.sq[k], s.sq[k].waiters[j + 1]);
      } else {
        assert Names(s.lq, s.sq[l], s.sq[l].waiters[j]);
      }
    }
  }

  lemma DropFrame(s: Lsq, k: nat)
    requires InOrder(s) && Owned(s) && LoadsOk(s) && WrittenOk(s) && ObservedOk(s) && Forwarding(s, k)
    ensures var t := DropWaiter(s, k);
      && InOrder(t) && Owned(t) && LoadsOk(t) && WrittenOk(t) && ObservedOk(t)
      && SqIds(t.sq) == SqIds(s.sq)
  {
    var t := DropWaiter(s, k);
    assert Queued(t.sq) == Queued(s.sq);
    forall w | 0 <= w < |t.lq| && t.lq[w].Some? ensures LoadOk(t.stores, t.sq, t.lq[w].value) {
      assert LoadOk(s.stores, s.sq, s.lq[w].value);
    }
  }

  /** Forwarding to one load, while the store's own instruction is one operation ahead. */
  lemma ReleaseKeeps(s: Lsq, k: nat)
    requires Forwarding(s, k) && Inv(s, s.sq[k].id, -1)
    ensures Names(s.lq, s.sq[k], s.sq[k].waiters[0])
    ensures Inv(Release(s, k), s.sq[k].id, -1)
  {
    var id, w := s.sq[k].id, s.sq[k].waiters[0];
    FirstWaiter(s, id, -1, k);
    DropFrame(s, k);
    DropReferences(s, k);
    ReleaseBalance(s, k);
    var t := DropWaiter(s, k);
    ResolveFrame(t, w, Some(id));
    assert Release(s, k) == Resolve(t, w, Some(id));
    hide InOrder, Owned, Balanced, CompletedDone, LoadsOk, References, WrittenOk, ObservedOk, Resolve, DropWaiter,
      Release;
  }

  lemma ReleaseBalance(s: Lsq, k: nat)
    requires Forwarding(s, k) && Inv(s, s.sq[k].id, -1) && Names(s.lq, s.sq[k], s.sq[k].waiters[0])
    ensures Balanced(Release(s, k).rob, Release(s, k).lq, Release(s, k).sq, s.sq[k].id, -1)
        && CompletedDone(Release(s, k).rob)
  {
    var id, w := s.sq[k].id, s.sq[k].waiters[0];
    var t := Release(s, k);
    assert SqIds(s.sq)[k] == id;
    CountIn(SqIds(s.sq), id);
    DropFrame(s, k);
    LiveLoad(s, w);
    BumpIds(s.rob, s.lq[w].value.id);
    forall i | 0 <= i < |s.rob|
      ensures Count(LqIds(t.lq), s.rob[i].id) + (if s.rob[i].id == s.lq[w].value.id then 1 else 0)
          == Count(LqIds(s.lq), s.rob[i].id)
    {
      LqCountUpdate(s.lq, w, None, s.rob[i].id);
    }
  }

  predicate Settled(s: Lsq, k: nat) {
    && k < |s.sq| && !s.sq[k].issued && s.sq[k].waiters == []
    && forall j :: 0 <= j < k ==> s.sq[j].issued
  }

  lemma MarkIssuedFrame(s: Lsq, k: nat)
    requires InOrder(s) && Owned(s) && LoadsOk(s) && WrittenOk(s) && ObservedOk(s) && Settled(s, k)
    ensures var t := MarkIssued(s, k); InOrder(t) && Owned(t) && LoadsOk(t) && WrittenOk(t) && ObservedOk(t)
  {
    var t := MarkIssued(s, k);
    assert Queued(t.sq) == Queued(s.sq);
    forall w | 0 <= w < |t.lq| && t.lq[w].Some? ensures LoadOk(t.stores, t.sq, t.lq[w].value) {
      assert LoadOk(s.stores, s.sq, s.lq[w].value);
    }
  }

  lemma MarkIssuedCounts(s: Lsq, k: nat)
    requires Balanced(s.rob, s.lq, s.sq, (if k < |s.sq| then s.sq[k].id else 0), -1) && References(s.lq, s.sq)
        && Settled(s, k)
    ensures Balanced(s.rob, s.lq, MarkIssued(s, k).sq, s.sq[k].id, 0) && References(s.lq, MarkIssued(s, k).sq)
  {
    var t := MarkIssued(s, k);
    forall i | 0 <= i < |s.rob|
      ensures Count(SqIds(t.sq), s.rob[i].id) + (if s.rob[i].id == s.sq[k].id then 1 else 0)
          == Count(SqIds(s.sq), s.rob[i].id)
    {
      SqCountUpdate(s.sq, k, t.sq[k], s.rob[i].id);
    }
    forall w | 0 <= w < |s.lq| ensures Waits(t.sq, w) == Waits(s.sq, w) { WaitsUpdate(s.sq, k, t.sq[k], w); }
    forall l, j | 0 <= l < |t.sq| && !t.sq[l].issued && 0 <= j < |t.sq[l].waiters|
      ensures Names(s.lq, t.sq[l], t.sq[l].waiters[j])
    {
      assert Names(s.lq, s.sq[l], s.sq[l].waiters[j]);
    }
  }

  /** Once nothing waits any more, marking the store settles the balance. */
  lemma MarkIssuedKeeps(s: Lsq, k: nat)
    requires Settled(s, k) && Inv(s, s.sq[k].id, -1)
    ensures Inv(MarkIssued(s, k), s.sq[k].id, 0)
  {
    MarkIssuedFrame(s, k);
    MarkIssuedCounts(s, k);
    hide InOrder, Owned, Balanced, LoadsOk, References, WrittenOk, ObservedOk, Settled;
  }

  // Handing stores to the cache, issuing loads.

  /** The oldest store has finished and its instruction has retired. */
  predicate Drainable(s: Lsq) {
    s.sq != [] && s.sq[0].issued && forall i :: 0 <= i < |s.rob| ==> s.sq[0].id < s.rob[i].id
  }

  lemma DrainFrame(s: Lsq)
    requires InOrder(s) && Owned(s) && LoadsOk(s) && WrittenOk(s) && ObservedOk(s) && Drainable(s)
    ensures var t := Drain(s); InOrder(t) && Owned(t) && LoadsOk(t) && WrittenOk(t) && ObservedOk(t)
  {
    var t := Drain(s);
    assert Queued(s.sq) == [Store(s.sq[0].addr, s.sq[0].id)] + Queued(t.sq);
    forall w | 0 <= w < |t.lq| && t.lq[w].Some? ensures LoadOk(t.stores, t.sq, t.lq[w].value) {
      assert LoadOk(s.stores, s.sq, s.lq[w].value);
    }
  }

  lemma DrainCounts(s: Lsq, who: nat)
    requires Balanced(s.rob, s.lq, s.sq, who, 0) && References(s.lq, s.sq) && Drainable(s)
    ensures Balanced(s.rob, s.lq, Drain(s).sq, who, 0) && References(s.lq, Drain(s).sq)
  {
    var t := Drain(s);
    assert SqIds(s.sq) == [-1] + SqIds(t.sq);
    forall i | 0 <= i < |s.rob| ensures Count(SqIds(s.sq), s.rob[i].id) == Count(SqIds(t.sq), s.rob[i].id) {
      CountConcat([-1], SqIds(t.sq), s.rob[i].id);
    }
    assert s.sq == [s.sq[0]] + t.sq;
    forall w | 0 <= w < |s.lq| ensures Waits(t.sq, w) == Waits(s.sq, w) { WaitsConcat([s.sq[0]], t.sq, w); }
    forall l, j | 0 <= l < |t.sq| && !t.sq[l].issued && 0 <= j < |t.sq[l].waiters|
      ensures Names(s.lq, t.sq[l], t.sq[l].waiters[j])
    {
      assert Names(s.lq, s.sq[l + 1], s.sq[l + 1].waiters[j]);
    }
  }

  lemma DrainKeeps(s: Lsq, who: nat)
    requires Inv(s, who, 0) && Drainable(s)
    ensures Inv(Drain(s), who, 0)
  {
    DrainFrame(s);
    DrainCounts(s, who);
    hide InOrder, Owned, Balanced, LoadsOk, References, WrittenOk, ObservedOk, Drainable;
  }

  lemma MarkLoadKeeps(s: Lsq, who: nat, w: nat)
    requires Inv(s, who, 0) && w < |s.lq| && s.lq[w].Some? && s.lq[w].value.producer.None?
    ensures Inv(MarkLoad(s, w), who, 0)
  {
    var t := MarkLoad(s, w);
    assert LqIds(t.lq) == LqIds(s.lq);
    forall v | 0 <= v < |t.lq| && t.lq[v].Some? ensures LoadOk(t.stores, t.sq, t.lq[v].value) {
      assert LoadOk(s.stores, s.sq, s.lq[v].value);
    }
    forall l, j | 0 <= l < |t.sq| && !t.sq[l].issued && 0 <= j < |t.sq[l].waiters|
      ensures Names(t.lq, t.sq[l], t.sq[l].waiters[j])
    {
      assert Names(s.lq, s.sq[l], s.sq[l].waiters[j]);
    }
  }

  // Dispatch.

  /** Instruction `id` is the youngest, and it still has `adj` operations to dispatch. */
  predicate Youngest(s: Lsq, id: nat) {
    && s.program != [] && s.rob != [] && s.program[|s.program| - 1].id == id
    && forall k :: 0 <= k < |s.sq| ==> s.sq[k].id < id
  }

  lemma YoungestInRob(s: Lsq, id: nat)
    requires InOrder(s) && Youngest(s, id)
    ensures InRob(s.rob, id) && forall x: nat :: InRob(s.rob, x) ==> x <= id
    ensures s.rob[|s.rob| - 1].id == id
  {
    assert s.rob[|s.rob| - 1].id == id;
  }

  /** Filling a free slot. */
  lemma FillBalance(rob: seq<RobEntry>, lq: seq<Option<Load>>, sq: seq<StoreEntry>, id: nat, adj: int, w: nat, e: Load)
    requires Balanced(rob, lq, sq, id, adj) && w < |lq| && lq[w].None? && e.id == id
    ensures Balanced(rob, lq[w := Some(e)], sq, id, adj - 1)
  {
    forall i | 0 <= i < |rob|
      ensures Count(LqIds(lq[w := Some(e)]), rob[i].id) == Count(LqIds(lq), rob[i].id) + if rob[i].id == id
          then 1 else 0
    {
      LqCountUpdate(lq, w, Some(e), rob[i].id);
    }
  }

  lemma FillFrame(s: Lsq, w: nat, e: Load)
    requires InOrder(s) && Owned(s) && LoadsOk(s) && WrittenOk(s) && ObservedOk(s)
    requires w < |s.lq| && InRob(s.rob, e.id) && LoadOk(s.stores, s.sq, e)
    ensures var t := s.(lq := s.lq[w := Some(e)]); InOrder(t) && Owned(t) && LoadsOk(t) && WrittenOk(t) && ObservedOk(t)
  {
    hide LoadOk;
  }

  lemma FillReferences(lq: seq<Option<Load>>, sq: seq<StoreEntry>, w: nat, e: Load)
    requires References(lq, sq) && w < |lq| && lq[w].None? && e.producer.None?
    ensures References(lq[w := Some(e)], sq)
  {
    forall k, j | 0 <= k < |sq| && !sq[k].issued && 0 <= j < |sq[k].waiters|
      ensures Names(lq[w := Some(e)], sq[k], sq[k].waiters[j])
    {
      assert Names(lq, sq[k], sq[k].waiters[j]);
    }
  }

  /** A load with no older store to its address in the queue goes to the cache. */
  lemma LoadFromCacheKeeps(s: Lsq, addr: nat, id: nat, adj: int)
    requires Inv(s, id, adj) && Youngest(s, id) && FreeSlots(s.lq) > 0 && Forwarder(s.sq, addr).None?
    ensures Inv(DispatchLoad(s, addr, id), id, adj - 1)
  {
    var w, e := FirstFree(s.lq), Load(addr, id, None, false, Never, Never);
    YoungestInRob(s, id);
    FillFrame(s, w, e);
    FillBalance(s.rob, s.lq, s.sq, id, adj, w, e);
    FillReferences(s.lq, s.sq, w, e);
    hide InOrder, Owned, Balanced, CompletedDone, LoadsOk, References, WrittenOk, ObservedOk;
  }

  /** The store that the scan picks is the one program order gives. */
  lemma ForwarderIsRight(s: Lsq, addr: nat, id: nat)
    requires InOrder(s) && WrittenOk(s) && Youngest(s, id) && Forwarder(s.sq, addr).Some?
    ensures LastBefore(s.stores, addr, id) == Some(s.sq[Forwarder(s.sq, addr).value].id)
  {
    var f := Forwarder(s.sq, addr).value;
    var n := |s.written|;
    assert Queued(s.sq)[f] == Store(addr, s.sq[f].id);
    forall j | n + f < j < |s.stores| && s.stores[j].addr == addr ensures s.stores[j].id == s.sq[f].id {
      assert s.stores[j] == Queued(s.sq)[j - n];
    }
    LastBeforeAt(s.stores, n + f, id);
  }

  /** A load that finds a finished store is finished at once. */
  lemma LoadFromFinishedKeeps(s: Lsq, addr: nat, id: nat, adj: int)
    requires Inv(s, id, adj) && Youngest(s, id) && FreeSlots(s.lq) > 0 && adj > 0
    requires Forwarder(s.sq, addr).Some? && s.sq[Forwarder(s.sq, addr).value].issued
    ensures Inv(DispatchLoad(s, addr, id), id, adj - 1)
  {
    var t := DispatchLoad(s, addr, id);
    ForwarderIsRight(s, addr, id);
    BumpBalance(s, id, adj, id);
    LoadFromFinishedFrame(s, addr, id);
    assert t.rob == Bump(s.rob, id) && t.lq == s.lq && t.sq == s.sq;
    hide InOrder, Owned, Balanced, CompletedDone, LoadsOk, References, WrittenOk, ObservedOk, Bump, LastBefore,
      DispatchLoad;
  }

  lemma LoadFromFinishedFrame(s: Lsq, addr: nat, id: nat)
    requires InOrder(s) && Owned(s) && LoadsOk(s) && WrittenOk(s) && ObservedOk(s)
    requires FreeSlots(s.lq) > 0 && Dispatched(s.program, id)
    requires Forwarder(s.sq, addr).Some? && s.sq[Forwarder(s.sq, addr).value].issued
    requires LastBefore(s.stores, addr, id) == Some(s.sq[Forwarder(s.sq, addr).value].id)
    ensures var t := DispatchLoad(s, addr, id); InOrder(t) && Owned(t) && LoadsOk(t) && WrittenOk(t) && ObservedOk(t)
  {
    var t, o := DispatchLoad(s, addr, id), Observation(id, addr, LastBefore(s.stores, addr, id));
    BumpFrame(s, s.(rob := t.rob), id);
    assert t == s.(rob := t.rob, observed := s.observed + [o]);
    hide InOrder, Owned, LoadsOk, WrittenOk, ObservedOk, DispatchLoad, LastBefore;
    ObserveFrame(s.(rob := t.rob), o);
    LoadsFrame(s, s.(rob := t.rob));
  }

  /** Loads and observations do not depend on the reorder buffer. */
  lemma LoadsFrame(s: Lsq, t: Lsq)
    requires LoadsOk(s) && ObservedOk(s) && t == s.(rob := t.rob)
    ensures LoadsOk(t) && ObservedOk(t)
  {
    hide LoadOk, LastBefore;
  }

  lemma ObserveFrame(s: Lsq, o: Observation)
    ensures var t := s.(observed := s.observed + [o]);
      && (InOrder(s) ==> InOrder(t)) && (Owned(s) ==> Owned(t)) && (LoadsOk(s) ==> LoadsOk(t))
          && (WrittenOk(s) ==> WrittenOk(t))
      && (ObservedOk(s) && o.source == LastBefore(s.stores, o.addr, o.id) && Dispatched(s.program, o.id) ==>
          ObservedOk(t))
  {
    hide LoadOk, LastBefore;
  }

  function AddWaiter(s: Lsq, f: nat, w: nat): Lsq
    requires f < |s.sq|
  {
    s.(sq := s.sq[f := s.sq[f].(waiters := s.sq[f].waiters + [w])])
  }

  lemma AddWaiterFrame(s: Lsq, f: nat, w: nat)
    requires InOrder(s) && Owned(s) && LoadsOk(s) && WrittenOk(s) && ObservedOk(s) && f < |s.sq|
    ensures var t := AddWaiter(s, f, w);
      && InOrder(t) && Owned(t) && LoadsOk(t) && WrittenOk(t) && ObservedOk(t)
      && SqIds(t.sq) == SqIds(s.sq)
  {
    var t := AddWaiter(s, f, w);
    assert Queued(t.sq) == Queued(s.sq);
    forall v | 0 <= v < |t.lq| && t.lq[v].Some? ensures LoadOk(t.stores, t.sq, t.lq[v].value) {
      assert LoadOk(s.stores, s.sq, s.lq[v].value);
    }
  }

  lemma AddWaiterReferences(s: Lsq, f: nat, w: nat, e: Load)
    requires References(s.lq, s.sq) && f < |s.sq| && !s.sq[f].issued && w < |s.lq| && s.lq[w].None?
    requires e.producer == Some(s.sq[f].id)
    ensures References(s.lq[w := Some(e)], AddWaiter(s, f, w).sq)
  {
    var t, lq := AddWaiter(s, f, w), s.lq[w := Some(e)];
    forall v | 0 <= v < |lq| ensures Waits(t.sq, v) == Waits(s.sq, v) + if v == w then 1 else 0 {
      WaitsUpdate(s.sq, f, t.sq[f], v);
      CountConcat(s.sq[f].waiters, [w], v);
    }
    forall k, j | 0 <= k < |t.sq| && !t.sq[k].issued && 0 <= j < |t.sq[k].waiters|
      ensures Names(lq, t.sq[k], t.sq[k].waiters[j])
    {
      if k != f || j < |s.sq[f].waiters| { assert Names(s.lq, s.sq[k], s.sq[k].waiters[j]); }
    }
  }

  /** A load that finds an unfinished store waits for it. */
  lemma LoadWaitsKeeps(s: Lsq, addr: nat, id: nat, adj: int)
    requires Inv(s, id, adj) && Youngest(s, id) && FreeSlots(s.lq) > 0
    requires Forwarder(s.sq, addr).Some? && !s.sq[Forwarder(s.sq, addr).value].issued
    ensures Inv(DispatchLoad(s, addr, id), id, adj - 1)
  {
    var w, f := FirstFree(s.lq), Forwarder(s.sq, addr).value;
    var e := Load(addr, id, Some(s.sq[f].id), false, Never, Never);
    YoungestInRob(s, id);
    ForwarderIsRight(s, addr, id);
    AddWaiterFrame(s, f, w);
    var t := AddWaiter(s, f, w);
    FillFrame(t, w, e);
    FillBalance(s.rob, s.lq, s.sq, id, adj, w, e);
    AddWaiterReferences(s, f, w, e);
    BalanceFrame(s.rob, t.lq[w := Some(e)], s.sq, t.sq, id, adj - 1);
    hide InOrder, Owned, Balanced, CompletedDone, LoadsOk, References, WrittenOk, ObservedOk;
  }

  lemma BalanceFrame(rob: seq<RobEntry>, lq: seq<Option<Load>>, sq: seq<StoreEntry>, sq2: seq<StoreEntry>, who: nat,
      adj: int)
    requires Balanced(rob, lq, sq, who, adj) && SqIds(sq2) == SqIds(sq)
    ensures Balanced(rob, lq, sq2, who, adj)
  {
  }

  lemma StaysYoungest(s: Lsq, addr: nat, id: nat)
    requires Youngest(s, id) && FreeSlots(s.lq) > 0
    ensures Youngest(DispatchLoad(s, addr, id), id)
    ensures DispatchLoad(s, addr, id).program == s.program && DispatchLoad(s, addr, id).stores == s.stores
  {
  }

  lemma DispatchLoadKeeps(s: Lsq, addr: nat, id: nat, adj: int)
    requires Inv(s, id, adj) && Youngest(s, id) && FreeSlots(s.lq) > 0 && adj > 0
    ensures Inv(DispatchLoad(s, addr, id), id, adj - 1)
  {
    hide Inv, Youngest, DispatchLoad, FreeSlots;
    var f := Forwarder(s.sq, addr);
    if f.None? {
      LoadFromCacheKeeps(s, addr, id, adj);
    } else if s.sq[f.value].issued {
      LoadFromFinishedKeeps(s, addr, id, adj);
    } else {
      LoadWaitsKeeps(s, addr, id, adj);
    }
  }

  lemma {:induction false} DispatchLoadsKeeps(s: Lsq, p: MemInstr, n: nat)
    requires Inv(s, p.id, |p.loads| + |p.stores|) && Youngest(s, p.id) && n <= |p.loads| <= FreeSlots(s.lq)
    ensures var t := DispatchLoads(s, p, n);
      && Inv(t, p.id, |p.loads| - n + |p.stores|) && Youngest(t, p.id) && t.program == s.program && t.stores == s.stores
  {
    hide Inv, Youngest, DispatchLoad;
    if n > 0 {
      DispatchLoadsKeeps(s, p, n - 1);
      var t := DispatchLoads(s, p, n - 1);
      DispatchLoadKeeps(t, p.loads[n - 1], p.id, |p.loads| - (n - 1) + |p.stores|);
      StaysYoungest(t, p.loads[n - 1], p.id);
    }
  }

  /** The instruction enters the reorder buffer with all its operations outstanding. */
  lemma PushInstrFrame(s: Lsq, p: MemInstr)
    requires InOrder(s) && Owned(s) && LoadsOk(s) && WrittenOk(s) && ObservedOk(s) && !Dispatched(s.program, p.id)
    ensures var t := PushInstr(s, p);
      InOrder(t) && Owned(t) && LoadsOk(t) && WrittenOk(t) && ObservedOk(t) && Youngest(t, p.id)
  {
    var t := PushInstr(s, p);
    forall id: nat | InRob(s.rob, id) ensures InRob(t.rob, id) {
      var i :| 0 <= i < |s.rob| && s.rob[i].id == id;
      assert t.rob[i].id == id;
    }
    forall k | 0 <= k < |s.sq| ensures s.sq[k].id < p.id {
      assert Queued(s.sq)[k].id == s.sq[k].id;
      assert Dispatched(s.program, s.stores[|s.written| + k].id);
    }
    forall k, i | 0 <= k < |t.written| && 0 <= i < |t.rob| ensures t.written[k].id < t.rob[i].id {
      assert Dispatched(s.program, s.stores[k].id);
    }
    hide LoadOk, LastBefore, Queued;
  }

  lemma PushInstrBalance(s: Lsq, who: nat, p: MemInstr)
    requires Balanced(s.rob, s.lq, s.sq, who, 0) && CompletedDone(s.rob) && InOrder(s) && Owned(s)
    requires !Dispatched(s.program, p.id)
    ensures Balanced(PushInstr(s, p).rob, s.lq, s.sq, p.id, |p.loads| + |p.stores|)
        && CompletedDone(PushInstr(s, p).rob)
  {
    CountIn(LqIds(s.lq), p.id);
    CountIn(SqIds(s.sq), p.id);
    forall id: nat | InRob(s.rob, id) ensures id != p.id { LiveIsDispatched(s, id); }
    forall i | 0 <= i < |s.rob| ensures s.rob[i].id != p.id { assert InRob(s.rob, s.rob[i].id); }
  }

  lemma PushInstrKeeps(s: Lsq, who: nat, p: MemInstr)
    requires Inv(s, who, 0) && !Dispatched(s.program, p.id)
    ensures Inv(PushInstr(s, p), p.id, |p.loads| + |p.stores|) && Youngest(PushInstr(s, p), p.id)
  {
    PushInstrFrame(s, p);
    PushInstrBalance(s, who, p);
    hide InOrder, Owned, Balanced, CompletedDone, LoadsOk, References, WrittenOk, ObservedOk, Youngest;
  }

  lemma NewStoresFacts(p: MemInstr, sq: seq<StoreEntry>)
    ensures var t := sq + NewStores(p, |p.stores|);
      && Queued(t) == Queued(sq) + StoresIn(p)
      && SqIds(t) == SqIds(sq) + SqIds(NewStores(p, |p.stores|))
      && (forall w :: Waits(t, w) == Waits(sq, w))
  {
    forall w ensures Waits(sq + NewStores(p, |p.stores|), w) == Waits(sq, w) {
      WaitsConcat(sq, NewStores(p, |p.stores|), w);
      WaitsNone(NewStores(p, |p.stores|), w);
    }
  }

  lemma {:induction false} NewStoresCount(p: MemInstr, n: nat, id: nat)
    requires n <= |p.stores|
    ensures Count(SqIds(NewStores(p, n)), id) == if id == p.id then n else 0
  {
    if n > 0 {
      NewStoresCount(p, n - 1, id);
      assert SqIds(NewStores(p, n))[..n - 1] == SqIds(NewStores(p, n - 1));
    }
  }

  lemma PushStoresBalance(s: Lsq, p: MemInstr)
    requires Balanced(s.rob, s.lq, s.sq, p.id, |p.stores|) && References(s.lq, s.sq)
    ensures Balanced(s.rob, s.lq, PushStores(s, p).sq, p.id, 0) && References(s.lq, PushStores(s, p).sq)
  {
    var t := PushStores(s, p);
    NewStoresFacts(p, s.sq);
    forall i | 0 <= i < |s.rob|
      ensures Count(SqIds(t.sq), s.rob[i].id) == Count(SqIds(s.sq), s.rob[i].id) + if s.rob[i].id == p.id
          then |p.stores| else 0
    {
      CountConcat(SqIds(s.sq), SqIds(NewStores(p, |p.stores|)), s.rob[i].id);
      NewStoresCount(p, |p.stores|, s.rob[i].id);
    }
    forall l, j | 0 <= l < |t.sq| && !t.sq[l].issued && 0 <= j < |t.sq[l].waiters|
      ensures Names(s.lq, t.sq[l], t.sq[l].waiters[j])
    {
      assert l < |s.sq|;
      assert Names(s.lq, s.sq[l], s.sq[l].waiters[j]);
    }
  }

  lemma PushStoresFrame(s: Lsq, p: MemInstr)
    requires InOrder(s) && Owned(s) && WrittenOk(s) && Youngest(s, p.id)
    ensures var t := PushStores(s, p); InOrder(t) && Owned(t) && WrittenOk(t)
  {
    var t := PushStores(s, p);
    NewStoresFacts(p, s.sq);
    YoungestInRob(s, p.id);
    hide Queued, InRob;
  }

  /** No load sees the new stores: they are the youngest of all. */
  lemma PushStoresLoads(s: Lsq, p: MemInstr)
    requires InOrder(s) && Owned(s) && LoadsOk(s) && ObservedOk(s) && Youngest(s, p.id)
    ensures LoadsOk(PushStores(s, p)) && ObservedOk(PushStores(s, p))
  {
    var t := PushStores(s, p);
    YoungestInRob(s, p.id);
    forall w | 0 <= w < |t.lq| && t.lq[w].Some? ensures LoadOk(t.stores, t.sq, t.lq[w].value) {
      assert LoadOk(s.stores, s.sq, s.lq[w].value);
      LastBeforeSkips(s.stores, StoresIn(p), s.lq[w].value.addr, s.lq[w].value.id);
    }
    forall k | 0 <= k < |t.observed|
      ensures t.observed[k].source == LastBefore(t.stores, t.observed[k].addr, t.observed[k].id)
    {
      LastBeforeSkips(s.stores, StoresIn(p), s.observed[k].addr, s.observed[k].id);
    }
  }

  lemma PushStoresKeeps(s: Lsq, p: MemInstr)
    requires Inv(s, p.id, |p.stores|) && Youngest(s, p.id)
    ensures Inv(PushStores(s, p), p.id, 0)
  {
    PushStoresBalance(s, p);
    PushStoresFrame(s, p);
    PushStoresLoads(s, p);
    hide InOrder, Owned, Balanced, CompletedDone, LoadsOk, References, WrittenOk, ObservedOk, Youngest;
  }

  lemma DispatchKeeps(s: Lsq, who: nat, p: MemInstr)
    requires Inv(s, who, 0) && !Dispatched(s.program, p.id) && |p.loads| <= FreeSlots(s.lq)
    requires s.stores == StoresOf(s.program)
    ensures var t := Dispatch(s, p); Inv(t, p.id, 0) && t.stores == StoresOf(t.program)
  {
    hide Inv, Youngest, FreeSlots, Dispatched;
    PushInstrKeeps(s, who, p);
    DispatchLoadsKeeps(PushInstr(s, p), p, |p.loads|);
    PushStoresKeeps(DispatchLoads(PushInstr(s, p), p, |p.loads|), p);
    assert (s.program + [p])[..|s.program|] == s.program;
  }

  // Execution, completion, retirement.

  lemma ExecuteKeeps(s: Lsq, who: nat, i: nat, latency: nat)
    requires Inv(s, who, 0) && i < |s.rob|
    ensures Inv(Execute(s, i, latency), who, 0)
  {
    ExecuteReferences(s, i, latency);
    ExecuteLoads(s, i, latency);
    ExecuteOwned(s, i, latency);
    ExecuteCounts(s, who, i, latency);
    ExecuteOrder(s, i, latency);
    hide InOrder, Owned, Balanced, CompletedDone, LoadsOk, References, WrittenOk, ObservedOk;
  }

  lemma ExecuteCounts(s: Lsq, who: nat, i: nat, latency: nat)
    requires Balanced(s.rob, s.lq, s.sq, who, 0) && CompletedDone(s.rob) && i < |s.rob|
    ensures var t := Execute(s, i, latency); Balanced(t.rob, t.lq, t.sq, who, 0) && CompletedDone(t.rob)
  {
    var t := Execute(s, i, latency);
    assert LqIds(t.lq) == LqIds(s.lq) && SqIds(t.sq) == SqIds(s.sq);
    hide LqIds, SqIds;
  }

  lemma ExecuteOrder(s: Lsq, i: nat, latency: nat)
    requires InOrder(s) && WrittenOk(s) && ObservedOk(s) && i < |s.rob|
    ensures var t := Execute(s, i, latency); InOrder(t) && WrittenOk(t) && ObservedOk(t)
  {
    assert Queued(Execute(s, i, latency).sq) == Queued(s.sq);
    hide LastBefore, Queued;
  }

  lemma ExecuteOwned(s: Lsq, i: nat, latency: nat)
    requires Owned(s) && i < |s.rob|
    ensures Owned(Execute(s, i, latency))
  {
    var t := Execute(s, i, latency);
    forall id: nat | InRob(s.rob, id) ensures InRob(t.rob, id) {
      var j :| 0 <= j < |s.rob| && s.rob[j].id == id;
      assert t.rob[j].id == id;
    }
  }

  lemma ExecuteLoads(s: Lsq, i: nat, latency: nat)
    requires LoadsOk(s) && i < |s.rob|
    ensures LoadsOk(Execute(s, i, latency))
  {
    var t := Execute(s, i, latency);
    hide LastBefore;
    forall w | 0 <= w < |t.lq| && t.lq[w].Some? ensures LoadOk(t.stores, t.sq, t.lq[w].value) {
      assert LoadOk(s.stores, s.sq, s.lq[w].value);
    }
  }

  lemma {:induction false} WaitsFrame(sq: seq<StoreEntry>, t: seq<StoreEntry>, w: int)
    requires |sq| == |t| && forall k :: 0 <= k < |sq| ==> sq[k].issued == t[k].issued && sq[k].waiters == t[k].waiters
    ensures Waits(sq, w) == Waits(t, w)
  {
    if sq != [] { WaitsFrame(sq[..|sq| - 1], t[..|t| - 1], w); }
  }

  lemma ExecuteReferences(s: Lsq, i: nat, latency: nat)
    requires References(s.lq, s.sq) && i < |s.rob|
    ensures References(Execute(s, i, latency).lq, Execute(s, i, latency).sq)
  {
    var t := Execute(s, i, latency);
    forall w | 0 <= w < |t.lq| ensures Waits(t.sq, w) == Waits(s.sq, w) { WaitsFrame(t.sq, s.sq, w); }
    forall l, j | 0 <= l < |t.sq| && !t.sq[l].issued && 0 <= j < |t.sq[l].waiters|
      ensures Names(t.lq, t.sq[l], t.sq[l].waiters[j])
    {
      assert Names(s.lq, s.sq[l], s.sq[l].waiters[j]);
    }
  }

  lemma CompleteKeeps(s: Lsq, who: nat, i: nat)
    requires Inv(s, who, 0) && i < |s.rob| && s.rob[i].done == s.rob[i].ops
    ensures Inv(Complete(s, i), who, 0)
  {
    var t := Complete(s, i);
    forall id: nat | InRob(s.rob, id) ensures InRob(t.rob, id) {
      var j :| 0 <= j < |s.rob| && s.rob[j].id == id;
      assert t.rob[j].id == id;
    }
    hide LoadsOk, LastBefore, References, Queued, InRob, ObservedOk;
    assert LoadsOk(t) && ObservedOk(t) by { LoadsFrame(s, t); }
  }

  /** A completed head has no live operation, so nothing refers to it when it leaves. */
  lemma RetireKeeps(s: Lsq, who: nat)
    requires Inv(s, who, 0) && s.rob != [] && s.rob[0].completed
    ensures Inv(RetireHead(s), who, 0)
  {
    var t, id := RetireHead(s), s.rob[0].id;
    CountIn(LqIds(s.lq), id);
    CountIn(SqIds(s.sq), id);
    forall w | 0 <= w < |s.lq| && s.lq[w].Some?
      ensures s.lq[w].value.id != id
    {
      assert LqIds(s.lq)[w] == s.lq[w].value.id;
    }
    forall k | 0 <= k < |s.sq| && !s.sq[k].issued ensures s.sq[k].id != id { assert SqIds(s.sq)[k] == s.sq[k].id; }
    forall x: nat | InRob(s.rob, x) && x != id ensures InRob(t.rob, x) {
      var j :| 0 <= j < |s.rob| && s.rob[j].id == x;
      assert t.rob[j - 1].id == x;
    }
    LoadsFrame(s, t);
    hide LoadsOk, LastBefore, References, Queued, InRob, ObservedOk, LqIds, SqIds;
  }
}
