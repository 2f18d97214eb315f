/** The load queue, the store queue and the operation counts of the reorder buffer, as src/ooo_cpu.cc
    keeps them. */
module LoadStoreQueue {
  import opened Counting
  import opened Options

  // time_point::max() is the time that never comes.
  datatype Time = Never | At(t: int)

  /** The memory operands of one instruction. */
  datatype MemInstr = MemInstr(id: nat, loads: seq<nat>, stores: seq<nat>)

  datatype RobEntry = RobEntry(id: nat, ops: nat, done: nat, executed: bool, completed: bool)

  /** `sent` is when the load was sent to the cache. */
  datatype Load = Load(addr: nat, id: nat, producer: Option<nat>, issued: bool, ready: Time, sent: Time)

  /** `waiters` are the load-queue slots that the store forwards to when it finishes. */
  datatype StoreEntry = StoreEntry(addr: nat, id: nat, issued: bool, ready: Time, waiters: seq<int>)

  datatype Store = Store(addr: nat, id: nat)

  /** A finished load, and the instruction whose store it saw (None for memory as the trace found it). */
  datatype Observation = Observation(id: nat, addr: nat, source: Option<nat>)

  /** `program` and `stores` are everything dispatched so far in program order, `written` is what has
      been handed to the first-level data cache, `observed` logs the finished loads. */
  datatype Lsq = Lsq(now: int, rob: seq<RobEntry>, lq: seq<Option<Load>>, sq: seq<StoreEntry>,
                     program: seq<MemInstr>, stores: seq<Store>, written: seq<Store>, observed: seq<Observation>)

  predicate Due(x: Time, now: int) {
    x.At? && x.t <= now
  }

  function Block(addr: nat): nat {
    addr / 64
  }

  // Single steps.

  /** One memory operation of instruction `id` has finished. */
  function Bump(rob: seq<RobEntry>, id: nat): (r: seq<RobEntry>)
    ensures |r| == |rob|
  {
    seq(|rob|, i requires 0 <= i < |rob| => if rob[i].id == id then rob[i].(done := rob[i].done + 1) else rob[i])
  }

  /** The load in slot w finishes having seen the store of `source`, and leaves the queue. */
  function Resolve(s: Lsq, w: nat, source: Option<nat>): Lsq
    requires w < |s.lq| && s.lq[w].Some?
  {
    var e := s.lq[w].value;
    s.(rob := Bump(s.rob, e.id), lq := s.lq[w := None], observed := s.observed + [Observation(e.id, e.addr, source)])
  }

  /** Store k forwards to the first load that waits for it. */
  function Release(s: Lsq, k: nat): Lsq
    requires k < |s.sq| && s.sq[k].waiters != []
    requires 0 <= s.sq[k].waiters[0] < |s.lq| && s.lq[s.sq[k].waiters[0]].Some?
  {
    var e := s.sq[k];
    Resolve(s, e.waiters[0], Some(e.id)).(sq := s.sq[k := e.(waiters := e.waiters[1..])])
  }

  function MarkIssued(s: Lsq, k: nat): Lsq
    requires k < |s.sq|
  {
    s.(sq := s.sq[k := s.sq[k].(issued := true, ready := At(s.now))])
  }

  /** The oldest store is handed to the cache. */
  function Drain(s: Lsq): Lsq
    requires s.sq != []
  {
    s.(sq := s.sq[1..], written := s.written + [Store(s.sq[0].addr, s.sq[0].id)])
  }

  function MarkLoad(s: Lsq, w: nat): Lsq
    requires w < |s.lq| && s.lq[w].Some?
  {
    s.(lq := s.lq[w := Some(s.lq[w].value.(issued := true, sent := At(s.now)))])
  }

  /** The response to an issued load arrives: it sees the stores handed to the cache so far. */
  function Answer(s: Lsq, w: nat): Lsq
    requires w < |s.lq| && s.lq[w].Some?
  {
    Resolve(s, w, LastWriter(s.written, s.lq[w].value.addr))
  }

  function LastWriter(stores: seq<Store>, addr: nat): Option<nat> {
    if stores == [] then None
    else if stores[|stores| - 1].addr == addr then Some(stores[|stores| - 1].id)
    else LastWriter(stores[..|stores| - 1], addr)
  }

  function FreeSlots(lq: seq<Option<Load>>): nat {
    if lq == [] then 0 else FreeSlots(lq[..|lq| - 1]) + if lq[|lq| - 1].None? then 1 else 0
  }

  function FirstFree(lq: seq<Option<Load>>): (w: nat)
    requires FreeSlots(lq) > 0
    ensures w < |lq| && lq[w].None? && forall k :: 0 <= k < w ==> lq[k].Some?
  {
    var n := |lq| - 1;
    if FreeSlots(lq[..n]) > 0 then FirstFree(lq[..n])
    else NoneFree(lq[..n]); n
  }

  lemma {:induction false} NoneFree(lq: seq<Option<Load>>)
    requires FreeSlots(lq) == 0
    ensures forall k :: 0 <= k < |lq| ==> lq[k].Some?
  {
    if lq != [] { NoneFree(lq[..|lq| - 1]); }
  }

  /** The store that the scan for forwarding picks: among the stores to the address, the first with
      the greatest instruction id. */
  function Forwarder(sq: seq<StoreEntry>, addr: nat): (r: Option<nat>)
    ensures r.Some? ==> r.value < |sq| && sq[r.value].addr == addr
    ensures r.Some? ==> forall k :: 0 <= k < |sq| && sq[k].addr == addr ==> sq[k].id <= sq[r.value].id
    ensures r.None? ==> forall k :: 0 <= k < |sq| ==> sq[k].addr != addr
  {
    if sq == [] then None
    else
      var n := |sq| - 1;
      var best := Forwarder(sq[..n], addr);
      if sq[n].addr == addr && (best.None? || sq[best.value].id < sq[n].id) then Some(n) else best
  }

  /** One load operand of the instruction being dispatched. */
  function DispatchLoad(s: Lsq, addr: nat, id: nat): Lsq
    requires FreeSlots(s.lq) > 0
  {
    var w, f := FirstFree(s.lq), Forwarder(s.sq, addr);
    if f.None? then s.(lq := s.lq[w := Some(Load(addr, id, None, false, Never, Never))])
    else
      var e := s.sq[f.value];
      if e.issued then s.(rob := Bump(s.rob, id), observed := s.observed + [Observation(id, addr, Some(e.id))])
      else s.(lq := s.lq[w := Some(Load(addr, id, Some(e.id), false, Never, Never))],
              sq := s.sq[f.value := e.(waiters := e.waiters + [w])])
  }

  function PushInstr(s: Lsq, p: MemInstr): Lsq {
    s.(rob := s.rob + [RobEntry(p.id, |p.loads| + |p.stores|, 0, false, false)], program := s.program + [p])
  }

  function NewStores(p: MemInstr, n: nat): seq<StoreEntry>
    requires n <= |p.stores|
  {
    seq(n, k requires 0 <= k < n => StoreEntry(p.stores[k], p.id, false, Never, []))
  }

  function PushStores(s: Lsq, p: MemInstr): Lsq {
    s.(sq := s.sq + NewStores(p, |p.stores|), stores := s.stores + StoresIn(p))
  }

  function StoresIn(p: MemInstr): seq<Store> {
    seq(|p.stores|, k requires 0 <= k < |p.stores| => Store(p.stores[k], p.id))
  }

  lemma {:induction false} FreeUpdate(lq: seq<Option<Load>>, w: nat, x: Option<Load>)
    requires w < |lq|
    ensures FreeSlots(lq[w := x]) + (if lq[w].None? then 1 else 0) == FreeSlots(lq) + if x.None? then 1 else 0
  {
    var n := |lq| - 1;
    if w < n {
      FreeUpdate(lq[..n], w, x);
      assert lq[w := x][..n] == lq[..n][w := x];
    } else {
      assert lq[w := x][..n] == lq[..n];
    }
  }

  lemma LoadTakesSlot(s: Lsq, addr: nat, id: nat)
    requires FreeSlots(s.lq) > 0
    ensures FreeSlots(DispatchLoad(s, addr, id).lq) + 1 >= FreeSlots(s.lq)
  {
    var w, t := FirstFree(s.lq), DispatchLoad(s, addr, id);
    if t.lq != s.lq { FreeUpdate(s.lq, w, t.lq[w]); }
  }

  function DispatchLoads(s: Lsq, p: MemInstr, n: nat): (t: Lsq)
    requires n <= |p.loads| && n <= FreeSlots(s.lq)
    ensures FreeSlots(t.lq) + n >= FreeSlots(s.lq)
  {
    if n == 0 then s
    else
      var t := DispatchLoads(s, p, n - 1);
      LoadTakesSlot(t, p.loads[n - 1], p.id);
      DispatchLoad(t, p.loads[n - 1], p.id)
  }

  /** do_memory_scheduling, after the instruction has entered the reorder buffer. */
  function Dispatch(s: Lsq, p: MemInstr): Lsq
    requires |p.loads| <= FreeSlots(s.lq)
  {
    PushStores(DispatchLoads(PushInstr(s, p), p, |p.loads|), p)
  }

  function Execute(s: Lsq, i: nat, latency: nat): Lsq
    requires i < |s.rob|
  {
    var id, t := s.rob[i].id, At(s.now + latency);
    s.(rob := s.rob[i := s.rob[i].(executed := true)],
       lq := seq(|s.lq|, w requires 0 <= w < |s.lq| =>
               if s.lq[w].Some? && s.lq[w].value.id == id then Some(s.lq[w].value.(ready := t)) else s.lq[w]),
       sq := seq(|s.sq|, k requires 0 <= k < |s.sq| => if s.sq[k].id == id then s.sq[k].(ready := t) else s.sq[k]))
  }

  function Complete(s: Lsq, i: nat): Lsq
    requires i < |s.rob|
  {
    s.(rob := s.rob[i := s.rob[i].(completed := true)])
  }

  function RetireHead(s: Lsq): Lsq
    requires s.rob != []
  {
    s.(rob := s.rob[1..])
  }

  // Program order and what a load should see.

  function StoresOf(program: seq<MemInstr>): seq<Store> {
    if program == [] then [] else StoresOf(program[..|program| - 1]) + StoresIn(program[|program| - 1])
  }

  /** The instruction that last stored to the address before instruction `id`, in program order. */
  function LastBefore(stores: seq<Store>, addr: nat, id: nat): Option<nat> {
    if stores == [] then None
    else
      var last := stores[|stores| - 1];
      if last.addr == addr && last.id < id then Some(last.id) else LastBefore(stores[..|stores| - 1], addr, id)
  }

  lemma {:induction false} LastBeforeSkips(s: seq<Store>, t: seq<Store>, addr: nat, id: nat)
    requires forall k :: 0 <= k < |t| ==> t[k].addr != addr || t[k].id >= id
    ensures LastBefore(s + t, addr, id) == LastBefore(s, addr, id)
  {
    if t == [] {
      assert s + t == s;
    } else {
      LastBeforeSkips(s, t[..|t| - 1], addr, id);
      assert (s + t)[..|s + t| - 1] == s + t[..|t| - 1];
    }
  }

  lemma {:induction false} LastBeforeAll(s: seq<Store>, addr: nat, id: nat)
    requires forall k :: 0 <= k < |s| ==> s[k].id < id
    ensures LastBefore(s, addr, id) == LastWriter(s, addr)
  {
    if s != [] { LastBeforeAll(s[..|s| - 1], addr, id); }
  }

  lemma {:induction false} LastBeforeAt(s: seq<Store>, k: nat, id: nat)
    requires k < |s| && s[k].id < id
    requires forall j :: k < j < |s| && s[j].addr == s[k].addr ==> s[j].id == s[k].id
    ensures LastBefore(s, s[k].addr, id) == Some(s[k].id)
  {
    var n := |s| - 1;
    if k < n && s[n].addr != s[k].addr { LastBeforeAt(s[..n], k, id); }
  }
}
