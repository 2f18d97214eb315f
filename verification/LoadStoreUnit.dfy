/** The loops over the load and store queues, and whole runs of them. */
module LoadStoreUnit {
  import opened Counting
  import opened Options
  import opened LoadStoreQueue
  import opened MemoryOrder

  /** A state between two steps. */
  ghost predicate Good(s: Lsq) {
    Inv(s, 0, 0) && s.stores == StoresOf(s.program)
  }

  lemma AnyOwner(s: Lsq, a: nat, b: nat)
    requires Inv(s, a, 0)
    ensures Inv(s, b, 0)
  {
    hide InOrder, Owned, CompletedDone, LoadsOk, References, WrittenOk, ObservedOk;
    assert Balanced(s.rob, s.lq, s.sq, b, 0);
  }

  predicate SameHistory(s: Lsq, t: Lsq) {
    t.program == s.program && t.stores == s.stores && t.now == s.now
  }

  // Finishing stores.

  /** Everything but store k is as before, and store k has nothing waiting. */
  predicate OnlyReleased(s: Lsq, t: Lsq, k: nat) {
    && SameHistory(s, t) && |t.sq| == |s.sq| && k < |s.sq|
    && (forall j :: 0 <= j < |s.sq| && j != k ==> t.sq[j] == s.sq[j])
    && t.sq[k] == s.sq[k].(waiters := [])
  }

  ghost function ReleaseAll(s: Lsq, k: nat): (t: Lsq)
    requires k < |s.sq| && !s.sq[k].issued && Inv(s, s.sq[k].id, -1)
    ensures OnlyReleased(s, t, k) && Inv(t, s.sq[k].id, -1)
    decreases |s.sq[k].waiters|
  {
    if s.sq[k].waiters == [] then s
    else
      ReleaseKeeps(s, k);
      ReleaseAll(Release(s, k), k)
  }

  /** Stores finish in order: all older stores in the queue have. */
  predicate NextStore(s: Lsq, k: nat) {
    k < |s.sq| && !s.sq[k].issued && forall j :: 0 <= j < k ==> s.sq[j].issued
  }

  /** do_finish_store: the store counts as finished, then its loads do. */
  ghost function Forward(s: Lsq, k: nat): (t: Lsq)
    requires Good(s) && NextStore(s, k)
    ensures OnlyReleased(s, t, k) && Inv(t, s.sq[k].id, -1)
  {
    BumpStoreKeeps(s, 0, k);
    ReleaseAll(s.(rob := Bump(s.rob, s.sq[k].id)), k)
  }

  lemma InIssueOrder(s: Lsq, k: nat)
    requires Good(s) && NextStore(s, k) && k + 1 < |s.sq|
    ensures !s.sq[k + 1].issued
  {
  }

  lemma MarkForwarded(s: Lsq, r: Lsq, k: nat)
    requires Good(s) && NextStore(s, k) && OnlyReleased(s, r, k) && Inv(r, s.sq[k].id, -1)
    ensures Good(MarkIssued(r, k)) && SameHistory(s, MarkIssued(r, k))
    ensures k + 1 < |s.sq| ==> NextStore(MarkIssued(r, k), k + 1)
  {
    assert Settled(r, k);
    if k + 1 < |s.sq| { InIssueOrder(s, k); }
    hide Inv;
    MarkIssuedKeeps(r, k);
    AnyOwner(MarkIssued(r, k), s.sq[k].id, 0);
  }

  /** Finishing store k, which is then marked. */
  ghost function FinishStore(s: Lsq, k: nat): (t: Lsq)
    requires Good(s) && NextStore(s, k)
    ensures Good(t) && SameHistory(s, t) && |t.sq| == |s.sq|
    ensures k + 1 < |s.sq| ==> NextStore(t, k + 1)
  {
    MarkForwarded(s, Forward(s, k), k);
    MarkIssued(Forward(s, k), k)
  }

  lemma FinishStoreShape(s: Lsq, k: nat)
    requires Good(s) && NextStore(s, k)
    ensures forall j :: 0 <= j <= k ==> FinishStore(s, k).sq[j].issued
    ensures forall j :: k < j < |s.sq| ==> FinishStore(s, k).sq[j] == s.sq[j]
  {
    hide Inv;
  }

  /** The first store that has not finished. */
  function IssuedPrefix(sq: seq<StoreEntry>): (k: nat)
    ensures k <= |sq| && (k < |sq| ==> !sq[k].issued)
    ensures forall j :: 0 <= j < k ==> sq[j].issued
  {
    if sq == [] || !sq[0].issued then 0
    else
      var k := IssuedPrefix(sq[1..]);
      assert forall j :: 0 < j < k + 1 ==> sq[j] == sq[1..][j - 1];
      k + 1
  }

  ghost function FinishStores(s: Lsq, k: nat, bw: nat): (t: Lsq)
    requires Good(s) && k <= |s.sq| && (k < |s.sq| ==> NextStore(s, k))
    ensures Good(t) && SameHistory(s, t)
    decreases |s.sq| - k
  {
    hide Inv, FinishStore;
    if k == |s.sq| || bw == 0 || !Due(s.sq[k].ready, s.now) then s
    else FinishStores(FinishStore(s, k), k + 1, bw - 1)
  }

  /** How many stores FinishStores finishes. */
  function DueRun(sq: seq<StoreEntry>, k: nat, bw: nat, now: int): (n: nat)
    requires k <= |sq|
    ensures n <= bw
    decreases |sq| - k
  {
    if k == |sq| || bw == 0 || !Due(sq[k].ready, now) then 0 else 1 + DueRun(sq, k + 1, bw - 1, now)
  }

  // Handing stores of retired instructions to the cache.

  predicate Finished(s: Lsq, e: StoreEntry) {
    s.rob == [] || e.id < s.rob[0].id
  }

  lemma FinishedIsDrainable(s: Lsq)
    requires InOrder(s) && Owned(s) && s.sq != [] && Finished(s, s.sq[0])
    ensures Drainable(s)
  {
  }

  ghost function DrainStores(s: Lsq, bw: nat, room: nat): (t: Lsq)
    requires Good(s)
    ensures Good(t) && SameHistory(s, t)
    decreases bw
  {
    if s.sq == [] || bw == 0 || !Finished(s, s.sq[0]) || !Due(s.sq[0].ready, s.now) || room == 0 then s
    else
      FinishedIsDrainable(s);
      DrainKeeps(s, 0);
      DrainStores(Drain(s), bw - 1, room - 1)
  }

  // Issuing loads.

  predicate Issuable(s: Lsq, w: nat)
    requires w < |s.lq|
  {
    match s.lq[w]
    case None => false
    case Some(e) => e.producer.None? && !e.issued && e.ready.At? && e.ready.t < s.now
  }

  ghost function IssueLoads(s: Lsq, w: nat, bw: nat, room: nat): (t: Lsq)
    requires Good(s) && w <= |s.lq|
    ensures Good(t) && SameHistory(s, t)
    decreases |s.lq| - w
  {
    if w == |s.lq| then s
    else if bw > 0 && Issuable(s, w) && room > 0 then
      MarkLoadKeeps(s, 0, w);
      IssueLoads(MarkLoad(s, w), w + 1, bw - 1, room - 1)
    else IssueLoads(s, w + 1, bw, room)
  }

  // Responses.

  predicate Answered(s: Lsq, w: nat, block: nat)
    requires w < |s.lq|
  {
    match s.lq[w]
    case None => false
    case Some(e) => e.issued && Block(e.addr) == block
  }

  lemma AnsweredKeeps(s: Lsq, w: nat, block: nat)
    requires Good(s) && w < |s.lq| && Answered(s, w, block)
    ensures Good(Answer(s, w))
  {
    assert LoadOk(s.stores, s.sq, s.lq[w].value);
    AnswerKeeps(s, 0, w);
    AnyOwner(Answer(s, w), s.lq[w].value.id, 0);
  }

  ghost function AnswerBlock(s: Lsq, w: nat, block: nat): (t: Lsq)
    requires Good(s) && w <= |s.lq|
    ensures Good(t) && SameHistory(s, t)
    decreases |s.lq| - w
  {
    if w == |s.lq| then s
    else if Answered(s, w, block) then
      AnsweredKeeps(s, w, block);
      AnswerBlock(Answer(s, w), w + 1, block)
    else AnswerBlock(s, w + 1, block)
  }

  ghost function AnswerBlocks(s: Lsq, blocks: seq<nat>): (t: Lsq)
    requires Good(s)
    ensures Good(t) && SameHistory(s, t)
    decreases |blocks|
  {
    if blocks == [] then s else AnswerBlocks(AnswerBlock(s, 0, blocks[0]), blocks[1..])
  }

  // Whole runs.

  /** What can happen to the queues. `wqRoom` and `rqRoom` are how many requests the cache channel takes. */
  datatype Event =
    | Clock(now: int)
    | Executes(i: nat, latency: nat)
    | Completes(i: nat)
    | Retires
    | Responses(blocks: seq<nat>)
    | StoreTurn(width: nat, wqRoom: nat)
    | LoadTurn(width: nat, rqRoom: nat)
    | Dispatches(p: MemInstr)

  ghost predicate Enabled(s: Lsq, e: Event) {
    match e
    case Clock(_) => true
    case Executes(i, _) => i < |s.rob| && !s.rob[i].executed
    case Completes(i) => i < |s.rob| && s.rob[i].executed && s.rob[i].done == s.rob[i].ops
    case Retires => s.rob != [] && s.rob[0].completed
    case Responses(_) => true
    case StoreTurn(_, _) => true
    case LoadTurn(_, _) => true
    case Dispatches(p) => !Dispatched(s.program, p.id) && |p.loads| <= FreeSlots(s.lq)
  }

  ghost function StoreStage(s: Lsq, width: nat, room: nat): (t: Lsq)
    requires Good(s)
    ensures Good(t)
  {
    var k := IssuedPrefix(s.sq);
    DrainStores(FinishStores(s, k, width), width - DueRun(s.sq, k, width, s.now), room)
  }

  lemma ClockKeeps(s: Lsq, now: int)
    requires Good(s)
    ensures Good(s.(now := now))
  {
    hide LoadOk, LastBefore, References, Balanced, InRob, Queued;
  }

  ghost function Apply(s: Lsq, e: Event): (t: Lsq)
    requires Good(s) && Enabled(s, e)
    ensures Good(t)
  {
    match e
    case Clock(now) => ClockKeeps(s, now); s.(now := now)
    case Executes(i, latency) => ExecuteKeeps(s, 0, i, latency); Execute(s, i, latency)
    case Completes(i) => CompleteKeeps(s, 0, i); Complete(s, i)
    case Retires => RetireKeeps(s, 0); RetireHead(s)
    case Responses(blocks) => AnswerBlocks(s, blocks)
    case StoreTurn(width, room) => StoreStage(s, width, room)
    case LoadTurn(width, room) => IssueLoads(s, 0, width, room)
    case Dispatches(p) => DispatchKeeps(s, 0, p); AnyOwner(Dispatch(s, p), p.id, 0); Dispatch(s, p)
  }

  function Start(slots: nat): Lsq {
    Lsq(0, [], seq(slots, _ => None), [], [], [], [], [])
  }

  lemma StartIsGood(slots: nat)
    ensures Good(Start(slots))
  {
  }

  ghost predicate Possible(s: Lsq, es: seq<Event>)
    requires Good(s)
    decreases |es|
  {
    es == [] || (Enabled(s, es[0]) && Possible(Apply(s, es[0]), es[1..]))
  }

  ghost function Run(s: Lsq, es: seq<Event>): (t: Lsq)
    requires Good(s) && Possible(s, es)
    ensures Good(t)
    decreases |es|
  {
    if es == [] then s else Run(Apply(s, es[0]), es[1..])
  }

  /** In every reachable state, whatever the order of events, widths and cache delays: the stores
      handed to the cache are a prefix of the program's stores in program order and belong to retired
      instructions; every finished load saw the last store to its address before it in program order;
      and finished operations plus live ones make up each instruction's operand count. */
  lemma RunKeepsMemoryOrder(slots: nat, es: seq<Event>)
    requires Good(Start(slots)) && Possible(Start(slots), es)
    ensures var s := Run(Start(slots), es);
      && s.written <= StoresOf(s.program)
      && (forall k, i :: 0 <= k < |s.written| && 0 <= i < |s.rob| ==> s.written[k].id < s.rob[i].id)
      && (forall o :: o in s.observed ==> o.source == LastBefore(StoresOf(s.program), o.addr, o.id))
      && (forall i :: 0 <= i < |s.rob| ==>
            s.rob[i].done + Count(LqIds(s.lq), s.rob[i].id) + Count(SqIds(s.sq), s.rob[i].id) == s.rob[i].ops)
  {
    var s := Run(Start(slots), es);
    assert Good(s);
  }

  class LoadStoreQueues {
    var now: int
    var rob: seq<RobEntry>
    var lq: seq<Option<Load>>
    var sq: seq<StoreEntry>
    // The history that the model adds.
    var program: seq<MemInstr>
    var stores: seq<Store>
    var written: seq<Store>
    var observed: seq<Observation>

    ghost function View(): Lsq
      reads this
    {
      Lsq(now, rob, lq, sq, program, stores, written, observed)
    }

    constructor (slots: nat)
      ensures View() == Start(slots) && Good(View())
    {
      now, rob, lq, sq := 0, [], seq(slots, _ => None), [];
      program, stores, written, observed := [], [], [], [];
      new;
      StartIsGood(slots);
    }

    /** Counts one finished memory operation of instruction `id`. The assertions are those of
        LSQ_ENTRY::finish. */
    method Finish(id: nat, ghost who: nat, ghost adj: int)
      requires Balanced(rob, lq, sq, who, adj) && InOrder(View()) && InRob(rob, id) && LiveOps(View(), who, adj, id) > 0
      modifies this`rob
      ensures rob == Bump(old(rob), id)
    {
      var k := 0;
      while k < |rob| && rob[k].id < id
        invariant 0 <= k <= |rob| && forall j :: 0 <= j < k ==> rob[j].id < id
      {
        k := k + 1;
      }
      assert k < |rob|;
      RobSorted(View());
      assert rob[k].id == id;
      assert rob[k].done + 1 <= rob[k].ops;
      rob := rob[k := rob[k].(done := rob[k].done + 1)];
    }

    /** The load in slot w leaves the queue. */
    method ResolveSlot(w: nat, source: Option<nat>, ghost who: nat, ghost adj: int)
      requires Balanced(rob, lq, sq, who, adj) && InOrder(View()) && Owned(View())
      requires w < |lq| && lq[w].Some? && LiveOps(View(), who, adj, lq[w].value.id) > 0
      modifies this
      ensures View() == Resolve(old(View()), w, source)
    {
      var e := lq[w].value;
      Finish(e.id, who, adj);
      lq := lq[w := None];
      observed := observed + [Observation(e.id, e.addr, source)];
    }

    /** do_finish_store; the store is then marked as issued. */
    method DoFinishStore(k: nat)
      requires Good(View()) && NextStore(View(), k)
      modifies this
      ensures View() == FinishStore(old(View()), k)
    {
      BumpStoreKeeps(View(), 0, k);
      LiveStore(View(), k);
      hide Inv, Good, Balanced, InOrder, InRob, LiveOps, Bump, ReleaseAll;
      Finish(sq[k].id, 0, 0);
      ForwardAll(k);
      sq := sq[k := sq[k].(issued := true, ready := At(now))];
    }

    method ForwardAll(k: nat)
      requires k < |sq| && !sq[k].issued && Inv(View(), sq[k].id, -1)
      modifies this
      ensures View() == ReleaseAll(old(View()), k)
    {
      hide Inv;
      ghost var id := sq[k].id;
      while sq[k].waiters != []
        invariant k < |sq| && sq[k].id == id && !sq[k].issued && Inv(View(), id, -1)
        invariant ReleaseAll(View(), k) == ReleaseAll(old(View()), k)
        decreases |sq[k].waiters|
      {
        DoForward(k);
      }
    }

    /** Forwards to the first waiting load. The assertions are those of do_finish_store. */
    method DoForward(k: nat)
      requires Forwarding(View(), k) && Inv(View(), sq[k].id, -1)
      modifies this
      ensures View() == Release(old(View()), k) && Inv(View(), old(sq[k].id), -1)
    {
      ReleaseKeeps(View(), k);
      WaiterIsLive(View(), k);
      var w := sq[k].waiters[0];
      assert lq[w].Some?;
      assert lq[w].value.producer == Some(sq[k].id);
      ResolveSlot(w, Some(sq[k].id), sq[k].id, -1);
      sq := sq[k := sq[k].(waiters := sq[k].waiters[1..])];
    }

    method OperateStores(width: nat, wqRoom: nat)
      requires Good(View())
      modifies this
      ensures View() == StoreStage(old(View()), width, wqRoom)
    {
      hide Inv, FinishStores, DrainStores;
      var first := FindUnissued();
      assert first < |sq| ==> NextStore(View(), first);
      var used := FinishDue(first, width);
      DrainDue(width - used, wqRoom);
    }

    method FindUnissued() returns (k: nat)
      ensures k == IssuedPrefix(sq)
    {
      k := 0;
      assert sq[0..] == sq;
      while k < |sq| && sq[k].issued
        invariant 0 <= k <= |sq| && IssuedPrefix(sq) == k + IssuedPrefix(sq[k..])
      {
        assert sq[k..][1..] == sq[k + 1..];
        k := k + 1;
      }
    }

    method FinishDue(first: nat, width: nat) returns (used: nat)
      requires Good(View()) && first <= |sq| && (first < |sq| ==> NextStore(View(), first))
      modifies this
      ensures View() == FinishStores(old(View()), first, width)
      ensures used == DueRun(old(sq), first, width, old(now)) && used <= width
    {
      hide Inv, FinishStores, FinishStore, DueRun, NextStore;
      var k := first;
      used := 0;
      while k < |sq| && used < width && Due(sq[k].ready, now)
        invariant first <= k <= |sq| == |old(sq)| && used == k - first <= width && now == old(now)
        invariant Good(View()) && (k < |sq| ==> NextStore(View(), k))
        invariant forall j :: k <= j < |sq| ==> sq[j] == old(sq)[j]
        invariant FinishStores(View(), k, width - used) == FinishStores(old(View()), first, width)
        invariant DueRun(old(sq), first, width, old(now)) == used + DueRun(old(sq), k, width - used, old(now))
      {
        FinishStep(View(), k, width - used);
        FinishStoreShape(View(), k);
        DueStep(old(sq), k, width - used, now);
        DoFinishStore(k);
        k, used := k + 1, used + 1;
      }
      FinishStop(View(), k, width - used);
      DueStop(old(sq), k, width - used, now);
    }

    method DrainDue(bw: nat, wqRoom: nat)
      requires Good(View())
      modifies this
      ensures View() == DrainStores(old(View()), bw, wqRoom)
    {
      hide Inv, Drainable;
      var left: nat, room: nat := bw, wqRoom;
      while sq != [] && left > 0 && (rob == [] || sq[0].id < rob[0].id) && Due(sq[0].ready, now) && room > 0
        invariant Good(View()) && left <= bw
        invariant DrainStores(View(), left, room) == DrainStores(old(View()), bw, wqRoom)
        decreases left
      {
        DrainStep(View());
        written := written + [Store(sq[0].addr, sq[0].id)];
        sq := sq[1..];
        left, room := left - 1, room - 1;
      }
    }

    method OperateLoads(width: nat, rqRoom: nat)
      requires Good(View())
      modifies this
      ensures View() == IssueLoads(old(View()), 0, width, rqRoom)
    {
      hide Inv, Drainable;
      var w: nat, left: nat, room: nat := 0, width, rqRoom;
      while w < |lq|
        invariant 0 <= w <= |lq| && Good(View())
        invariant IssueLoads(View(), w, left, room) == IssueLoads(old(View()), 0, width, rqRoom)
        decreases |lq| - w
      {
        if left > 0 && lq[w].Some? && lq[w].value.producer.None? && !lq[w].value.issued
           && lq[w].value.ready.At? && lq[w].value.ready.t < now && room > 0 {
          IssueStep(View(), w);
          lq := lq[w := Some(lq[w].value.(issued := true, sent := At(now)))];
          left, room := left - 1, room - 1;
        }
        w := w + 1;
      }
    }

    method HandleMemoryReturn(blocks: seq<nat>)
      requires Good(View())
      modifies this
      ensures View() == AnswerBlocks(old(View()), blocks)
    {
      hide Inv, AnswerBlock;
      var n := 0;
      assert blocks[0..] == blocks;
      while n < |blocks|
        invariant 0 <= n <= |blocks| && Good(View())
        invariant AnswerBlocks(View(), blocks[n..]) == AnswerBlocks(old(View()), blocks)
      {
        assert blocks[n..][1..] == blocks[n + 1..];
        HandleResponse(blocks[n]);
        n := n + 1;
      }
    }

    method HandleResponse(block: nat)
      requires Good(View())
      modifies this
      ensures View() == AnswerBlock(old(View()), 0, block)
    {
      hide Inv;
      var w := 0;
      while w < |lq|
        invariant 0 <= w <= |lq| && Good(View())
        invariant AnswerBlock(View(), w, block) == AnswerBlock(old(View()), 0, block)
        decreases |lq| - w
      {
        if lq[w].Some? && lq[w].value.issued && Block(lq[w].value.addr) == block {
          AnsweredKeeps(View(), w, block);
          LoadIsLive(View(), w);
          ResolveSlot(w, LastWriter(written, lq[w].value.addr), 0, 0);
        }
        w := w + 1;
      }
    }

    /** do_memory_scheduling for an instruction that has just entered the reorder buffer. */
    method DoMemoryScheduling(p: MemInstr)
      requires Good(View()) && !Dispatched(program, p.id) && |p.loads| <= FreeSlots(lq)
      modifies this
      ensures View() == Dispatch(old(View()), p) && Good(View())
    {
      DispatchStep(View(), p);
      hide Inv, Good, Youngest, DispatchLoads, FreeSlots, Dispatched, PushStores, PushInstr;
      EnterRob(p);
      ScheduleLoads(p);
      AppendStores(p);
    }

    method EnterRob(p: MemInstr)
      modifies this
      ensures View() == PushInstr(old(View()), p)
    {
      rob := rob + [RobEntry(p.id, |p.loads| + |p.stores|, 0, false, false)];
      program := program + [p];
    }

    method AppendStores(p: MemInstr)
      modifies this
      ensures View() == PushStores(old(View()), p)
    {
      ghost var before := View();
      var k := 0;
      while k < |p.stores|
        invariant 0 <= k <= |p.stores| && View() == before.(sq := before.sq + NewStores(p, k))
      {
        sq := sq + [StoreEntry(p.stores[k], p.id, false, Never, [])];
        k := k + 1;
        assert NewStores(p, k) == NewStores(p, k - 1) + [StoreEntry(p.stores[k - 1], p.id, false, Never, [])];
      }
      stores := stores + StoresIn(p);
    }

    method ScheduleLoads(p: MemInstr)
      requires Inv(View(), p.id, |p.loads| + |p.stores|) && Youngest(View(), p.id) && |p.loads| <= FreeSlots(lq)
      modifies this
      ensures View() == DispatchLoads(old(View()), p, |p.loads|)
    {
      hide Inv, Youngest, DispatchLoad, FreeSlots;
      ghost var start := View();
      var j := 0;
      while j < |p.loads|
        invariant 0 <= j <= |p.loads| && View() == DispatchLoads(start, p, j)
      {
        DispatchLoadsKeeps(start, p, j);
        ScheduleLoad(p.loads[j], p.id, |p.loads| - j + |p.stores|);
        j := j + 1;
      }
    }

    method ScheduleLoad(addr: nat, id: nat, ghost adj: int)
      requires Inv(View(), id, adj) && Youngest(View(), id) && FreeSlots(lq) > 0 && adj > 0
      modifies this
      ensures View() == DispatchLoad(old(View()), addr, id)
    {
      var w := FindFreeSlot();
      var f := FindForwarder(addr);
      if f < |sq| && sq[f].addr == addr {
        if sq[f].issued {
          YoungestInRob(View(), id);
          Finish(id, id, adj);
          observed := observed + [Observation(id, addr, Some(sq[f].id))];
        } else {
          assert sq[f].id < id;
          lq := lq[w := Some(Load(addr, id, Some(sq[f].id), false, Never, Never))];
          sq := sq[f := sq[f].(waiters := sq[f].waiters + [w])];
        }
      } else {
        lq := lq[w := Some(Load(addr, id, None, false, Never, Never))];
      }
    }

    method FindFreeSlot() returns (w: nat)
      requires FreeSlots(lq) > 0
      ensures w < |lq| && w == FirstFree(lq)
    {
      w := 0;
      while lq[w].Some?
        invariant 0 <= w <= FirstFree(lq) < |lq|
        decreases |lq| - w
      {
        w := w + 1;
      }
    }

    /** std::max_element with the comparison that ranks any store to another address lowest. */
    method FindForwarder(addr: nat) returns (f: nat)
      ensures Forwarder(sq, addr).Some? ==> f == Forwarder(sq, addr).value
      ensures Forwarder(sq, addr).None? ==> f == |sq| || (f < |sq| && sq[f].addr != addr)
    {
      if sq == [] {
        return 0;
      }
      f := 0;
      var k := 1;
      while k < |sq|
        invariant 1 <= k <= |sq| && 0 <= f < k
        invariant match Forwarder(sq[..k], addr) case Some(b) => f == b case None => sq[f].addr != addr
      {
        assert sq[..k + 1][..k] == sq[..k];
        if sq[f].addr != addr || (sq[k].addr == addr && sq[f].id < sq[k].id) {
          f := k;
        }
        k := k + 1;
      }
      assert sq[..k] == sq;
    }
  }

  lemma RobSorted(s: Lsq)
    requires InOrder(s)
    ensures forall i, j :: 0 <= i < j < |s.rob| ==> s.rob[i].id < s.rob[j].id
  {
  }

  lemma LiveStore(s: Lsq, k: nat)
    requires Good(s) && k < |s.sq| && !s.sq[k].issued
    ensures InRob(s.rob, s.sq[k].id) && LiveOps(s, 0, 0, s.sq[k].id) > 0
    ensures Balanced(s.rob, s.lq, s.sq, 0, 0) && InOrder(s)
  {
    assert SqIds(s.sq)[k] == s.sq[k].id;
    CountIn(SqIds(s.sq), s.sq[k].id);
  }

  lemma DispatchStep(s: Lsq, p: MemInstr)
    requires Good(s) && !Dispatched(s.program, p.id) && |p.loads| <= FreeSlots(s.lq)
    ensures Inv(PushInstr(s, p), p.id, |p.loads| + |p.stores|) && Youngest(PushInstr(s, p), p.id)
    ensures Good(Dispatch(s, p)) && PushInstr(s, p).lq == s.lq
  {
    hide Inv, Youngest;
    PushInstrKeeps(s, 0, p);
    DispatchKeeps(s, 0, p);
    AnyOwner(Dispatch(s, p), p.id, 0);
  }

  lemma FinishStep(s: Lsq, k: nat, bw: nat)
    requires Good(s) && NextStore(s, k) && bw > 0 && Due(s.sq[k].ready, s.now)
    ensures k + 1 < |s.sq| ==> NextStore(FinishStore(s, k), k + 1)
    ensures FinishStores(s, k, bw) == FinishStores(FinishStore(s, k), k + 1, bw - 1)
  {
    hide Inv, NextStore;
  }

  lemma FinishStop(s: Lsq, k: nat, bw: nat)
    requires Good(s) && k <= |s.sq| && (k < |s.sq| ==> NextStore(s, k))
    requires k == |s.sq| || bw == 0 || !Due(s.sq[k].ready, s.now)
    ensures FinishStores(s, k, bw) == s
  {
  }

  lemma DueStep(sq: seq<StoreEntry>, k: nat, bw: nat, now: int)
    requires k < |sq| && bw > 0 && Due(sq[k].ready, now)
    ensures DueRun(sq, k, bw, now) == 1 + DueRun(sq, k + 1, bw - 1, now)
  {
  }

  lemma DueStop(sq: seq<StoreEntry>, k: nat, bw: nat, now: int)
    requires k <= |sq| && (k == |sq| || bw == 0 || !Due(sq[k].ready, now))
    ensures DueRun(sq, k, bw, now) == 0
  {
  }

  lemma LoadIsLive(s: Lsq, w: nat)
    requires Good(s) && w < |s.lq| && s.lq[w].Some?
    ensures InOrder(s) && Owned(s) && Balanced(s.rob, s.lq, s.sq, 0, 0)
    ensures LiveOps(s, 0, 0, s.lq[w].value.id) > 0
  {
    LiveLoad(s, w);
  }

  lemma DrainStep(s: Lsq)
    requires Good(s) && s.sq != [] && Finished(s, s.sq[0])
    ensures Good(Drain(s))
  {
    FinishedIsDrainable(s);
    hide Inv;
    DrainKeeps(s, 0);
  }

  lemma IssueStep(s: Lsq, w: nat)
    requires Good(s) && w < |s.lq| && Issuable(s, w)
    ensures Good(MarkLoad(s, w))
  {
    hide Inv;
    MarkLoadKeeps(s, 0, w);
  }

  lemma WaiterIsLive(s: Lsq, k: nat)
    requires Forwarding(s, k) && Inv(s, s.sq[k].id, -1)
    ensures Names(s.lq, s.sq[k], s.sq[k].waiters[0])
    ensures LiveOps(s, s.sq[k].id, -1, s.lq[s.sq[k].waiters[0]].value.id) > 0
  {
    FirstWaiter(s, s.sq[k].id, -1, k);
    assert SqIds(s.sq)[k] == s.sq[k].id;
    CountIn(SqIds(s.sq), s.sq[k].id);
  }
}
