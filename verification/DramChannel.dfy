/** The bank, bus and refresh state machine of DRAM_CHANNEL in src/dram_controller.cc. */
module DramChannel {
  import opened Options
  import opened DramMapping
  import opened Bits
  import opened Wakeups

  /** The ready time of a scheduled entry. */
  const NEVER: int := 0x7FFF_FFFF_FFFF_FFFF

  datatype Timing = Timing(m: Mapping, rp: nat, rcd: nat, cas: nat, refresh: nat, rfc: nat, turnaround: nat,
                           transfer: nat, stall: nat)

  datatype Entry = Entry(address: Address, ready: int, scheduled: bool, checked: bool, deps: seq<nat>, sinks: seq<nat>)

  /** What has happened to a bank: it was given a request for a row, to be ready at some time; a change of mode took the
    * request away again; a refresh began; a refresh ended. */
  datatype Mark = Serviced(row: seq<bool>, at: int, due: int) | GivenBack(at: int) | Refreshed(at: int) | RefreshEnded

  /** The iterator to the request being served is its queue and its place there. `refreshed`, when the last refresh of
    * the bank began, and `marks` are history. */
  datatype Bank = Bank(valid: bool, hit: bool, needRefresh: bool, underRefresh: bool, open: Option<seq<bool>>,
                       ready: int, write: bool, slot: nat, refreshed: int, marks: seq<Mark>)

  datatype Response = Response(queue: nat, address: Address, deps: seq<nat>)

  /** A use of the data bus, with the bank, its bank group, and which of the bank's marks is the service it completes.
    * */
  datatype Transfer = Transfer(start: int, end: int, write: bool, bank: nat, group: nat, service: int)

  /** A change of mode, when it was made, when the bus is then done with the transfer in progress, if any, and how many
    * transfers had begun. */
  datatype Change = Change(at: int, after: int, transfers: nat)

  /** `responses`, `transfers` and `changes` are the histories of responses pushed, of uses of the data bus and of
    * changes of mode. */
  datatype Channel = Channel(now: int, wq: seq<Option<Entry>>, rq: seq<Option<Entry>>, banks: seq<Bank>,
                             active: Option<nat>, groupReady: seq<int>, writeMode: bool, busFree: int, lastRefresh: int,
                             responses: seq<Response>, transfers: seq<Transfer>, changes: seq<Change>)

  // The mapping.

  function Banks(m: Mapping): nat { Pow2(m.rank) * Pow2(m.bankgroup) * Pow2(m.bank) }

  function Groups(m: Mapping): nat { Pow2(m.rank) * Pow2(m.bankgroup) }

  function BankOf(m: Mapping, a: Address): (b: nat)
    requires Usable(m)
    ensures b < Banks(m)
  {
    BankIndexInRange(m, Locate(m, a));
    BankIndex(m, Locate(m, a))
  }

  function GroupOf(m: Mapping, a: Address): (g: nat)
    requires Usable(m)
    ensures g < Groups(m)
  {
    BankIndexInRange(m, Locate(m, a));
    BankgroupIndex(m, Locate(m, a))
  }

  function RowOf(m: Mapping, a: Address): seq<bool>
    requires Usable(m)
  {
    Locate(m, a).row
  }

  // Collisions.

  predicate Hits(m: Mapping, x: Option<Entry>, a: Address)
    requires Fits(m)
  {
    x.Some? && IsCollision(m, x.value.address, a)
  }

  /** The first place from k up to end that holds a colliding entry; end when there is none. */
  function FirstHit(m: Mapping, q: seq<Option<Entry>>, a: Address, k: nat, end: nat): (r: nat)
    requires Fits(m) && k <= end <= |q|
    ensures k <= r <= end && (r < end ==> Hits(m, q[r], a)) && forall j :: k <= j < r ==> !Hits(m, q[j], a)
    decreases end - k
  {
    if k == end || Hits(m, q[k], a) then k else FirstHit(m, q, a, k + 1, end)
  }

  /** Another entry than the i-th one collides with it. */
  predicate Duplicated(m: Mapping, q: seq<Option<Entry>>, i: nat)
    requires Fits(m) && i < |q| && q[i].Some?
  {
    FirstHit(m, q, q[i].value.address, 0, i) < i || FirstHit(m, q, q[i].value.address, i + 1, |q|) < |q|
  }

  predicate Unchecked(x: Option<Entry>) { x.Some? && !x.value.checked }

  function CheckWrite(m: Mapping, q: seq<Option<Entry>>, i: nat): (r: seq<Option<Entry>>)
    requires Fits(m) && i < |q|
    ensures |r| == |q|
  {
    if !Unchecked(q[i]) then q
    else if Duplicated(m, q, i) then q[i := None]
    else q[i := Some(q[i].value.(checked := true))]
  }

  function CheckWrites(m: Mapping, q: seq<Option<Entry>>, i: nat): (r: seq<Option<Entry>>)
    requires Fits(m) && i <= |q|
    ensures |r| == |q|
    decreases |q| - i
  {
    if i == |q| then q else CheckWrites(m, CheckWrite(m, q, i), i + 1)
  }

  function ResponsesFor(e: Entry, k: nat): seq<Response>
    requires k <= |e.sinks|
    decreases |e.sinks| - k
  {
    if k == |e.sinks| then [] else [Response(e.sinks[k], e.address, e.deps)] + ResponsesFor(e, k + 1)
  }

  function Merged(into: Entry, from: Entry): Entry {
    into.(deps := SetUnion(into.deps, from.deps), sinks := SetUnion(into.sinks, from.sinks))
  }

  /** One turn of check_read_collision: forward from a write, merge into an earlier or a later read, or pass. */
  function CheckRead(m: Mapping, s: Channel, i: nat): (t: Channel)
    requires Fits(m) && i < |s.rq|
    ensures t == s.(rq := t.rq, responses := t.responses) && |t.rq| == |s.rq|
  {
    if !Unchecked(s.rq[i]) then s
    else
      var e := s.rq[i].value;
      if FirstHit(m, s.wq, e.address, 0, |s.wq|) < |s.wq| then
        s.(rq := s.rq[i := None], responses := s.responses + ResponsesFor(e, 0))
      else
        var before := FirstHit(m, s.rq, e.address, 0, i);
        var after := FirstHit(m, s.rq, e.address, i + 1, |s.rq|);
        if before < i then s.(rq := s.rq[before := Some(Merged(s.rq[before].value, e))][i := None])
        else if after < |s.rq| then s.(rq := s.rq[after := Some(Merged(s.rq[after].value, e))][i := None])
        else s.(rq := s.rq[i := Some(e.(checked := true))])
  }

  function CheckReads(m: Mapping, s: Channel, i: nat): (t: Channel)
    requires Fits(m) && i <= |s.rq|
    ensures t == s.(rq := t.rq, responses := t.responses) && |t.rq| == |s.rq|
    decreases |s.rq| - i
  {
    if i == |s.rq| then s else CheckReads(m, CheckRead(m, s, i), i + 1)
  }

  // The stages of a cycle.

  function Queue(s: Channel, write: bool): seq<Option<Entry>> { if write then s.wq else s.rq }

  function WithQueue(s: Channel, write: bool, q: seq<Option<Entry>>): Channel {
    if write then s.(wq := q) else s.(rq := q)
  }

  predicate Shape(c: Timing, s: Channel) {
    && Usable(c.m) && |s.wq| > 0 && |s.rq| > 0 && |s.banks| == Banks(c.m) && |s.groupReady| == Groups(c.m)
    && (s.active.Some? ==> s.active.value < |s.banks|)
  }

  /** The entry a bank is serving. */
  predicate Serving(s: Channel, b: nat) {
    b < |s.banks| && s.banks[b].slot < |Queue(s, s.banks[b].write)| && Queue(s, s.banks[b].write)[s.banks[b].slot].Some?
  }

  function Served(s: Channel, b: nat): Entry
    requires Serving(s, b)
  {
    Queue(s, s.banks[b].write)[s.banks[b].slot].value
  }

  function FinishBus(s: Channel): Channel
    requires s.active.Some? ==> Serving(s, s.active.value)
  {
    if s.active.None? || s.banks[s.active.value].ready > s.now then s
    else
      var b := s.active.value;
      var bank := s.banks[b];
      WithQueue(s, bank.write, Queue(s, bank.write)[bank.slot := None])
        .(banks := s.banks[b := bank.(valid := false)], active := None,
          responses := s.responses + ResponsesFor(Served(s, b), 0))
  }

  function Occupied(q: seq<Option<Entry>>): nat {
    if q == [] then 0 else Occupied(q[..|q| - 1]) + if q[|q| - 1].Some? then 1 else 0
  }

  predicate SwapNow(s: Channel) {
    var high, low := |s.wq| * 7 / 8, |s.wq| * 6 / 8;
    var w, r := Occupied(s.wq), Occupied(s.rq);
    (!s.writeMode && (w >= high || (r == 0 && w > 0))) || (s.writeMode && (w == 0 || (r > 0 && w < low)))
  }

  /** A bank keeps its request on a change of mode only when it is on the data bus. */
  predicate GivesUp(s: Channel, b: nat)
    requires b < |s.banks|
  {
    s.active != Some(b) && s.banks[b].valid
  }

  predicate GivenUp(s: Channel, write: bool, slot: nat) {
    exists b :: 0 <= b < |s.banks| && GivesUp(s, b) && s.banks[b].write == write && s.banks[b].slot == slot
  }

  function ReleasedQueue(s: Channel, write: bool): (r: seq<Option<Entry>>)
    ensures |r| == |Queue(s, write)|
  {
    var q := Queue(s, write);
    seq(|q|, i requires 0 <= i < |q| =>
      if q[i].Some? && GivenUp(s, write, i) then Some(q[i].value.(scheduled := false, ready := s.now)) else q[i])
  }

  function ReleasedBank(c: Timing, s: Channel, b: nat): Bank
    requires b < |s.banks|
  {
    var bank := s.banks[b];
    if GivesUp(s, b) then bank.(valid := false, open := if bank.ready < s.now + c.cas then None else bank.open,
                                marks := bank.marks + [GivenBack(s.now)])
      else bank
  }

  function ReleasedBanks(c: Timing, s: Channel): (r: seq<Bank>)
    ensures |r| == |s.banks|
  {
    seq(|s.banks|, b requires 0 <= b < |s.banks| => ReleasedBank(c, s, b))
  }

  function SwapMode(c: Timing, s: Channel): Channel
    requires s.active.Some? ==> s.active.value < |s.banks|
  {
    if !SwapNow(s) then s
    else
      s.(wq := ReleasedQueue(s, true), rq := ReleasedQueue(s, false), banks := ReleasedBanks(c, s),
         busFree := BusyUntil(s) + c.turnaround, writeMode := !s.writeMode,
         changes := s.changes + [Change(s.now, BusyUntil(s), |s.transfers|)])
  }

  function BusyUntil(s: Channel): int
    requires s.active.Some? ==> s.active.value < |s.banks|
  {
    if s.active.Some? then s.banks[s.active.value].ready else s.now
  }

  function RefreshBank(c: Timing, bank: Bank, due: bool, now: int): Bank {
    var need := due || bank.needRefresh;
    if need && !bank.valid then
      bank.(ready := now + c.rfc, needRefresh := false, underRefresh := true, refreshed := now,
            marks := bank.marks + [Refreshed(now)])
    else if bank.underRefresh && bank.ready <= now then
      bank.(needRefresh := need, underRefresh := false, open := None, marks := bank.marks + [RefreshEnded])
    else bank.(needRefresh := need)
  }

  predicate RefreshDue(c: Timing, s: Channel) { s.now >= s.lastRefresh + c.refresh }

  function ScheduleRefresh(c: Timing, s: Channel): (t: Channel)
    ensures |t.banks| == |s.banks|
  {
    var due := RefreshDue(c, s);
    s.(lastRefresh := if due then s.now else s.lastRefresh,
       banks := seq(|s.banks|, b requires 0 <= b < |s.banks| => RefreshBank(c, s.banks[b], due, s.now)))
  }

  /** The element min_element is at after looking at the first k + 1 banks. */
  function NextOnBus(banks: seq<Bank>, k: nat): (r: nat)
    requires k < |banks|
    ensures r <= k
  {
    if k == 0 then 0
    else
      var r := NextOnBus(banks, k - 1);
      if !banks[r].valid || (banks[k].valid && banks[k].ready < banks[r].ready) then k else r
  }

  function Populate(c: Timing, s: Channel): Channel
    requires Shape(c, s) && s.banks != [] && forall b :: 0 <= b < |s.banks| && s.banks[b].valid ==> Serving(s, b)
  {
    var b := NextOnBus(s.banks, |s.banks| - 1);
    var bank := s.banks[b];
    if bank.valid && bank.ready <= s.now && s.active.None? && s.busFree <= s.now then
      var g := GroupOf(c.m, Served(s, b).address);
      var end := (if s.groupReady[g] > s.now then s.groupReady[g] else s.now) + c.transfer;
      s.(active := Some(b), banks := s.banks[b := bank.(ready := end)],
         groupReady := s.groupReady[g := s.now + c.transfer + c.stall],
         transfers := s.transfers + [Transfer(s.now, end, bank.write, b, g, |bank.marks| - 1)])
    else s
  }

  predicate Waiting(x: Option<Entry>) { x.Some? && !x.value.scheduled }

  /** The comparison of schedule_packet. */
  predicate Before(c: Timing, s: Channel, x: Option<Entry>, y: Option<Entry>)
    requires Shape(c, s)
  {
    if !Waiting(y) then true
    else if !Waiting(x) then false
    else
      var xFree, yFree := !s.banks[BankOf(c.m, x.value.address)].valid, !s.banks[BankOf(c.m, y.value.address)].valid;
      if xFree == yFree then x.value.ready <= y.value.ready else xFree
  }

  function NextToSchedule(c: Timing, s: Channel, q: seq<Option<Entry>>, k: nat): (r: nat)
    requires Shape(c, s) && k < |q|
    ensures r <= k
  {
    if k == 0 then 0
    else
      var r := NextToSchedule(c, s, q, k - 1);
      if Before(c, s, q[k], q[r]) then k else r
  }

  function Service(c: Timing, s: Channel, slot: nat): Channel
    requires Shape(c, s) && slot < |Queue(s, s.writeMode)|
  {
    var q := Queue(s, s.writeMode);
    if q[slot].None? || q[slot].value.ready > s.now then s
    else
      var e := q[slot].value;
      var b := BankOf(c.m, e.address);
      var bank := s.banks[b];
      if bank.valid || bank.underRefresh then s
      else
        var hit := bank.open == Some(RowOf(c.m, e.address));
        var delay := if hit then 0 else if bank.open.Some? then c.rp + c.rcd else c.rcd;
        WithQueue(s, s.writeMode, q[slot := Some(e.(scheduled := true, ready := NEVER))])
          .(banks := s.banks[b := Bank(true, hit, false, false, Some(RowOf(c.m, e.address)), s.now + c.cas + delay,
                                       s.writeMode, slot, bank.refreshed,
                                       bank.marks + [Serviced(RowOf(c.m, e.address), s.now, s.now + c.cas + delay)])])
  }

  // The invariant.

  /** A valid bank serves an occupied, scheduled entry of its own; it is not refreshing; unless it is on the bus,
    * the entry is in the queue of the current mode. */
  ghost predicate BankOk(c: Timing, s: Channel, b: nat)
    requires Shape(c, s)
  {
    b < |s.banks| && s.banks[b].valid ==>
      && Serving(s, b) && Served(s, b).scheduled && BankOf(c.m, Served(s, b).address) == b
      && !s.banks[b].underRefresh && (s.active != Some(b) ==> s.banks[b].write == s.writeMode)
  }

  /** A scheduled entry is served by exactly one bank, which is its own; it is out of reach of merging. */
  ghost predicate EntryOk(c: Timing, s: Channel, write: bool, slot: nat)
    requires Shape(c, s)
  {
    slot < |Queue(s, write)| && Queue(s, write)[slot].Some? && Queue(s, write)[slot].value.scheduled ==>
      var e := Queue(s, write)[slot].value;
      var bank := s.banks[BankOf(c.m, e.address)];
      e.checked && e.ready == NEVER && bank.valid && bank.write == write && bank.slot == slot
  }

  /** The bus: transfers follow one another, with the turn-around time between different directions. */
  ghost predicate Spaced(c: Timing, t: seq<Transfer>) {
    forall k :: 0 < k < |t| ==>
      t[k].start >= t[k - 1].end + if t[k].write != t[k - 1].write then c.turnaround else 0
  }

  ghost predicate BusOk(c: Timing, s: Channel)
    requires Shape(c, s)
  {
    && Spaced(c, s.transfers)
    && (s.active.Some? ==>
         && s.transfers != [] && s.banks[s.active.value].valid
         && var last := s.transfers[|s.transfers| - 1];
            last.end == s.banks[s.active.value].ready && last.write == s.banks[s.active.value].write)
    && (s.transfers != [] ==>
         var last := s.transfers[|s.transfers| - 1];
         && (s.active.None? ==> last.end <= s.now)
         && (s.writeMode != last.write ==> s.busFree >= last.end + c.turnaround))
  }

  /** After a change the bus is left alone for the turn-around time, from the change or from the end of the transfer
    * then in progress. */
  predicate ChangeKept(c: Timing, t: seq<Transfer>, x: Change) {
    && x.transfers <= |t| && x.at <= x.after
    && (x.transfers > 0 ==> t[x.transfers - 1].end <= x.after)
    && (x.after != x.at ==> x.transfers > 0 && x.after == t[x.transfers - 1].end)
    && (x.transfers < |t| ==> t[x.transfers].start >= x.after + c.turnaround)
  }

  ghost predicate ChangesOk(c: Timing, s: Channel)
    requires Shape(c, s)
  {
    forall i :: 0 <= i < |s.changes| ==>
      && ChangeKept(c, s.transfers, s.changes[i])
      && s.changes[i].after <= BusyUntil(s) && s.busFree >= s.changes[i].after + c.turnaround
  }

  /** Every bank has begun a refresh since refreshing last fell due, or still has it to do. */
  ghost predicate RefreshOk(s: Channel) {
    forall b :: 0 <= b < |s.banks| ==> s.banks[b].needRefresh || s.banks[b].refreshed >= s.lastRefresh
  }

  ghost predicate Inv(c: Timing, s: Channel) {
    && Shape(c, s)
    && (forall b: nat :: BankOk(c, s, b))
    && (forall w: bool, i: nat :: EntryOk(c, s, w, i))
    && BusOk(c, s) && ChangesOk(c, s)
    && RefreshOk(s) && s.lastRefresh <= s.now < NEVER
  }

  /** What holds between cycles as well: a bank that still has to refresh is busy with a request. */
  ghost predicate Settled(c: Timing, s: Channel) {
    Inv(c, s) && forall b :: 0 <= b < |s.banks| ==> s.banks[b].needRefresh ==> s.banks[b].valid
  }

  // Collisions leave what is scheduled alone.

  ghost predicate KeptEntry(x: Option<Entry>, y: Option<Entry>) {
    && (x.Some? && x.value.checked ==> y.Some?)
    && (y.Some? ==> x.Some? && y.value == x.value.(checked := y.value.checked, deps := y.value.deps,
        sinks := y.value.sinks)
                    && (x.value.checked ==> y.value.checked))
  }

  ghost predicate Kept(p: seq<Option<Entry>>, q: seq<Option<Entry>>) {
    |p| == |q| && forall i :: 0 <= i < |p| ==> KeptEntry(p[i], q[i])
  }

  lemma KeptTwice(p: seq<Option<Entry>>, q: seq<Option<Entry>>, r: seq<Option<Entry>>)
    requires Kept(p, q) && Kept(q, r)
    ensures Kept(p, r)
  {
    forall i | 0 <= i < |p| ensures KeptEntry(p[i], r[i]) { assert KeptEntry(p[i], q[i]) && KeptEntry(q[i], r[i]); }
  }

  lemma {:induction false} CheckWritesKeep(m: Mapping, q: seq<Option<Entry>>, i: nat)
    requires Fits(m) && i <= |q|
    ensures Kept(q, CheckWrites(m, q, i))
    decreases |q| - i
  {
    if i < |q| {
      CheckWritesKeep(m, CheckWrite(m, q, i), i + 1);
      KeptTwice(q, CheckWrite(m, q, i), CheckWrites(m, q, i));
    }
  }

  lemma {:induction false} CheckReadsKeep(m: Mapping, s: Channel, i: nat)
    requires Fits(m) && i <= |s.rq|
    ensures Kept(s.rq, CheckReads(m, s, i).rq)
    decreases |s.rq| - i
  {
    if i < |s.rq| {
      CheckReadsKeep(m, CheckRead(m, s, i), i + 1);
      KeptTwice(s.rq, CheckRead(m, s, i).rq, CheckReads(m, s, i).rq);
    }
  }

  lemma KeptKeepsInv(c: Timing, s: Channel, t: Channel)
    requires Inv(c, s) && t == s.(wq := t.wq, rq := t.rq, responses := t.responses)
    requires Kept(s.wq, t.wq) && Kept(s.rq, t.rq)
    ensures Inv(c, t)
  {
    hide BankOf, Spaced;
    forall b: nat ensures BankOk(c, t, b) { KeptBank(c, s, t, b); }
    forall w: bool, i: nat ensures EntryOk(c, t, w, i) {
      assert EntryOk(c, s, w, i);
      if i < |Queue(s, w)| { assert KeptEntry(Queue(s, w)[i], Queue(t, w)[i]); }
    }
  }

  lemma KeptBank(c: Timing, s: Channel, t: Channel, b: nat)
    requires Inv(c, s) && t == s.(wq := t.wq, rq := t.rq, responses := t.responses)
    requires Kept(s.wq, t.wq) && Kept(s.rq, t.rq)
    ensures BankOk(c, t, b)
  {
    hide BankOf, Spaced;
    assert BankOk(c, s, b);
    if b < |s.banks| && s.banks[b].valid {
      var w, i := s.banks[b].write, s.banks[b].slot;
      assert EntryOk(c, s, w, i) && KeptEntry(Queue(s, w)[i], Queue(t, w)[i]);
    }
  }

  // The stages.

  lemma FinishKeeps(c: Timing, s: Channel)
    requires Inv(c, s)
    ensures s.active.Some? ==> Serving(s, s.active.value)
    ensures Inv(c, FinishBus(s)) && OffBus(FinishBus(s))
  {
    hide BankOf, Spaced;
    if s.active.Some? {
      var b := s.active.value;
      assert BankOk(c, s, b);
      if s.banks[b].ready <= s.now {
        var t := FinishBus(s);
        forall x: nat ensures BankOk(c, t, x) {
          assert BankOk(c, s, x);
          if x < |s.banks| && x != b && s.banks[x].valid {
            assert EntryOk(c, s, s.banks[x].write, s.banks[x].slot);
          }
        }
        forall w: bool, i: nat ensures EntryOk(c, t, w, i) { assert EntryOk(c, s, w, i); }
      }
    }
  }

  /** A transfer that has ended is off the bus when the mode changes. */
  predicate OffBus(s: Channel) {
    s.active.Some? ==> s.active.value < |s.banks| && s.banks[s.active.value].ready > s.now
  }

  lemma SwapKeeps(c: Timing, s: Channel)
    requires Inv(c, s) && OffBus(s)
    ensures Inv(c, SwapMode(c, s))
  {
    hide BankOf, Spaced, SwapNow;
    var t := SwapMode(c, s);
    if SwapNow(s) {
      forall b: nat ensures BankOk(c, t, b) { SwapBank(c, s, t, b); }
      forall w: bool, i: nat ensures EntryOk(c, t, w, i) { SwapEntry(c, s, t, w, i); }
    }
  }

  lemma SwapBank(c: Timing, s: Channel, t: Channel, b: nat)
    requires Inv(c, s) && SwapNow(s) && t == SwapMode(c, s)
    ensures BankOk(c, t, b)
  {
    hide BankOf, Spaced, SwapNow, BusOk;
    assert BankOk(c, s, b);
    if b < |s.banks| && t.banks[b].valid {
      var w, i := s.banks[b].write, s.banks[b].slot;
      assert s.active == Some(b);
      forall x | 0 <= x < |s.banks| && GivesUp(s, x) ensures s.banks[x].write != w || s.banks[x].slot != i {
        assert BankOk(c, s, x);
      }
      assert !GivenUp(s, w, i);
    }
  }

  lemma SwapEntry(c: Timing, s: Channel, t: Channel, w: bool, i: nat)
    requires Inv(c, s) && SwapNow(s) && t == SwapMode(c, s)
    ensures EntryOk(c, t, w, i)
  {
    hide Spaced, SwapNow, BusOk;
    assert EntryOk(c, s, w, i);
    if i < |Queue(s, w)| && Queue(t, w)[i].Some? && Queue(t, w)[i].value.scheduled {
      var b := BankOf(c.m, Queue(s, w)[i].value.address);
      hide BankOf;
      assert !GivenUp(s, w, i);
      assert !GivesUp(s, b);
    }
  }

  lemma RefreshKeeps(c: Timing, s: Channel)
    requires Inv(c, s)
    ensures Settled(c, ScheduleRefresh(c, s))
  {
    hide BankOf, Spaced;
    var t := ScheduleRefresh(c, s);
    forall b: nat ensures BankOk(c, t, b) { assert BankOk(c, s, b); }
    forall w: bool, i: nat ensures EntryOk(c, t, w, i) { assert EntryOk(c, s, w, i); }
  }

  lemma {:induction false} NextOnBusLeast(banks: seq<Bank>, k: nat)
    requires k < |banks|
    ensures var r := NextOnBus(banks, k);
            forall j :: 0 <= j <= k && banks[j].valid ==> banks[r].valid && banks[r].ready <= banks[j].ready
  {
    if k > 0 { NextOnBusLeast(banks, k - 1); }
  }

  lemma BanksExist(c: Timing, s: Channel)
    requires Settled(c, s)
    ensures Shape(c, s) && s.banks != [] && forall b :: 0 <= b < |s.banks| && s.banks[b].valid ==> Serving(s, b)
  {
    forall b | 0 <= b < |s.banks| && s.banks[b].valid ensures Serving(s, b) { assert BankOk(c, s, b); }
    assert BankOf(c.m, Zeros(WIDTH)) < |s.banks|;
  }

  lemma PopulateKeeps(c: Timing, s: Channel)
    requires Settled(c, s)
    ensures s.banks != [] && forall b :: 0 <= b < |s.banks| && s.banks[b].valid ==> Serving(s, b)
    ensures Settled(c, Populate(c, s))
  {
    hide Inv, Settled, BankOf, GroupOf, NextOnBus, Pow2, Usable;
    BanksExist(c, s);
    var t := Populate(c, s);
    var b := NextOnBus(s.banks, |s.banks| - 1);
    if t != s { PopulatedKeeps(c, s, t, b, GroupOf(c.m, Served(s, b).address)); }
  }

  lemma PopulatedKeeps(c: Timing, s: Channel, t: Channel, b: nat, g: nat)
    requires Settled(c, s) && b < |s.banks| && s.banks[b].valid && s.active.None? && s.busFree <= s.now
    requires t == s.(active := Some(b), banks := t.banks, groupReady := t.groupReady, transfers := t.transfers)
    requires |t.groupReady| == |s.groupReady| && |t.banks| == |s.banks|
        && t.banks == s.banks[b := s.banks[b].(ready := t.banks[b].ready)]
    requires t.transfers
             == s.transfers + [Transfer(s.now, t.banks[b].ready, s.banks[b].write, b, g, |s.banks[b].marks| - 1)]
    requires s.now <= t.banks[b].ready
    ensures Settled(c, t)
  {
    hide BankOf, Spaced;
    forall x: nat ensures BankOk(c, t, x) { assert BankOk(c, s, x); }
    forall w: bool, i: nat ensures EntryOk(c, t, w, i) { assert EntryOk(c, s, w, i); }
    assert BankOk(c, s, b);
    SpacedMore(c, s, t.transfers[|s.transfers|]);
  }

  lemma SpacedMore(c: Timing, s: Channel, x: Transfer)
    requires Shape(c, s) && BusOk(c, s) && s.active.None? && s.busFree <= s.now && x.start == s.now
    requires x.write == s.writeMode
    ensures Spaced(c, s.transfers + [x])
  {
  }

  lemma ServiceKeeps(c: Timing, s: Channel, slot: nat)
    requires Settled(c, s) && slot < |Queue(s, s.writeMode)| && AllChecked(Queue(s, s.writeMode))
    ensures Settled(c, Service(c, s, slot))
  {
    var t := Service(c, s, slot);
    hide RowOf, Spaced, BankOf;
    if t != s {
      var e := Queue(s, s.writeMode)[slot].value;
      assert EntryOk(c, s, s.writeMode, slot);
      ServicedKeeps(c, s, t, slot, e, BankOf(c.m, e.address));
    }
  }

  lemma ServicedKeeps(c: Timing, s: Channel, t: Channel, slot: nat, e: Entry, b: nat)
    requires Settled(c, s) && slot < |Queue(s, s.writeMode)| && Queue(s, s.writeMode)[slot] == Some(e)
    requires e.checked && !e.scheduled && b == BankOf(c.m, e.address) && !s.banks[b].valid && !s.banks[b].underRefresh
    requires t == WithQueue(s, s.writeMode, Queue(s, s.writeMode)[slot := Some(e.(scheduled := true, ready := NEVER))])
                    .(banks := t.banks)
    requires |t.banks| == |s.banks|
    requires t.banks == s.banks[b := Bank(true, t.banks[b].hit, false, false, t.banks[b].open, t.banks[b].ready,
                                          s.writeMode, slot, s.banks[b].refreshed, t.banks[b].marks)]
    ensures Settled(c, t)
  {
    forall x: nat ensures BankOk(c, t, x) { ServicedBank(c, s, t, slot, e, b, x); }
    forall w: bool, i: nat ensures EntryOk(c, t, w, i) { ServicedEntry(c, s, t, slot, e, b, w, i); }
    assert s.active != Some(b);
    hide RowOf, Spaced, BankOf, BankOk, EntryOk;
  }

  lemma ServicedEntry(c: Timing, s: Channel, t: Channel, slot: nat, e: Entry, b: nat, w: bool, i: nat)
    requires Inv(c, s) && slot < |Queue(s, s.writeMode)| && Queue(s, s.writeMode)[slot] == Some(e)
    requires e.checked && b == BankOf(c.m, e.address) && !s.banks[b].valid && Shape(c, t)
    requires t == WithQueue(s, s.writeMode, Queue(s, s.writeMode)[slot := Some(e.(scheduled := true, ready := NEVER))])
                    .(banks := t.banks)
    requires |t.banks| == |s.banks|
    requires t.banks == s.banks[b := Bank(true, t.banks[b].hit, false, false, t.banks[b].open, t.banks[b].ready,
                                          s.writeMode, slot, s.banks[b].refreshed, t.banks[b].marks)]
    ensures EntryOk(c, t, w, i)
  {
    hide Spaced, BankOf, BusOk;
    assert EntryOk(c, s, w, i);
  }

  lemma ServicedBank(c: Timing, s: Channel, t: Channel, slot: nat, e: Entry, b: nat, x: nat)
    requires Inv(c, s) && slot < |Queue(s, s.writeMode)| && Queue(s, s.writeMode)[slot] == Some(e)
    requires !e.scheduled && b == BankOf(c.m, e.address) && Shape(c, t)
    requires t == WithQueue(s, s.writeMode, Queue(s, s.writeMode)[slot := Some(e.(scheduled := true, ready := NEVER))])
                    .(banks := t.banks)
    requires |t.banks| == |s.banks|
    requires t.banks == s.banks[b := Bank(true, t.banks[b].hit, false, false, t.banks[b].open, t.banks[b].ready,
                                          s.writeMode, slot, s.banks[b].refreshed, t.banks[b].marks)]
    ensures BankOk(c, t, x)
  {
    hide Spaced, BankOf, BusOk;
    assert BankOk(c, s, x);
  }

  predicate AllChecked(q: seq<Option<Entry>>) { forall i :: 0 <= i < |q| && q[i].Some? ==> q[i].value.checked }

  // One cycle.

  ghost function Checked(c: Timing, s: Channel): (t: Channel)
    requires Inv(c, s)
    ensures Inv(c, t) && AllChecked(t.wq) && AllChecked(t.rq)
  {
    CheckedKeeps(c, s);
    CheckReads(c.m, s.(wq := CheckWrites(c.m, s.wq, 0)), 0)
  }

  lemma CheckedKeeps(c: Timing, s: Channel)
    requires Inv(c, s)
    ensures var t := CheckReads(c.m, s.(wq := CheckWrites(c.m, s.wq, 0)), 0);
            Inv(c, t) && AllChecked(t.wq) && AllChecked(t.rq)
  {
    var w := s.(wq := CheckWrites(c.m, s.wq, 0));
    CheckWritesKeep(c.m, s.wq, 0);
    CheckReadsKeep(c.m, w, 0);
    CheckWritesCheck(c.m, s.wq, 0);
    CheckReadsCheck(c.m, w, 0);
    hide Inv, CheckWrites, CheckReads, AllChecked;
    KeptKeepsInv(c, s, CheckReads(c.m, w, 0));
  }

  predicate CheckedBelow(q: seq<Option<Entry>>, i: nat) {
    forall j :: 0 <= j < i && j < |q| && q[j].Some? ==> q[j].value.checked
  }

  lemma {:induction false} CheckWritesCheck(m: Mapping, q: seq<Option<Entry>>, i: nat)
    requires Fits(m) && i <= |q| && CheckedBelow(q, i)
    ensures AllChecked(CheckWrites(m, q, i))
    decreases |q| - i
  {
    if i < |q| { CheckWritesCheck(m, CheckWrite(m, q, i), i + 1); }
  }

  lemma {:induction false} CheckReadsCheck(m: Mapping, s: Channel, i: nat)
    requires Fits(m) && i <= |s.rq| && CheckedBelow(s.rq, i)
    ensures AllChecked(CheckReads(m, s, i).rq)
    decreases |s.rq| - i
  {
    if i < |s.rq| { CheckReadsCheck(m, CheckRead(m, s, i), i + 1); }
  }

  lemma LaterKeeps(c: Timing, s: Channel, now: int)
    requires Inv(c, s) && s.now <= now < NEVER
    ensures Inv(c, s.(now := now))
  {
    var t := s.(now := now);
    hide BankOf, Spaced;
    forall b: nat ensures BankOk(c, t, b) { assert BankOk(c, s, b); }
    forall w: bool, i: nat ensures EntryOk(c, t, w, i) { assert EntryOk(c, s, w, i); }
  }

  lemma StillChecked(c: Timing, s: Channel)
    requires Inv(c, s) && AllChecked(s.wq) && AllChecked(s.rq)
    ensures s.active.Some? ==> Serving(s, s.active.value)
    ensures var t := ScheduleRefresh(c, SwapMode(c, FinishBus(s)));
            AllChecked(t.wq) && AllChecked(t.rq)
  {
    FinishKeeps(c, s);
    hide SwapNow, BankOf;
  }

  /** Everything a cycle does before it looks for the next request to schedule. */
  ghost function Prepared(c: Timing, s: Channel): (t: Channel)
    requires Inv(c, s)
    ensures Settled(c, t) && AllChecked(t.wq) && AllChecked(t.rq)
  {
    var checked := Checked(c, s);
    FinishKeeps(c, checked);
    SwapKeeps(c, FinishBus(checked));
    StillChecked(c, checked);
    RefreshKeeps(c, SwapMode(c, FinishBus(checked)));
    PopulateKeeps(c, ScheduleRefresh(c, SwapMode(c, FinishBus(checked))));
    Populate(c, ScheduleRefresh(c, SwapMode(c, FinishBus(checked))))
  }

  ghost function Operate(c: Timing, s: Channel, now: int): (t: Channel)
    requires Settled(c, s) && s.now <= now < NEVER
    ensures Settled(c, t)
  {
    LaterKeeps(c, s, now);
    var p := Prepared(c, s.(now := now));
    var slot := NextToSchedule(c, p, Queue(p, p.writeMode), |Queue(p, p.writeMode)| - 1);
    ServiceKeeps(c, p, slot);
    Service(c, p, slot)
  }

  /** The entry considered for scheduling waits for a bank if any in the queue does; one whose bank is free comes
    * before one whose bank is busy, and among those of the same kind the one longest ready. */
  lemma {:induction false} ScheduleBest(c: Timing, s: Channel, q: seq<Option<Entry>>, k: nat, j: nat)
    requires Shape(c, s) && j <= k < |q| && Waiting(q[j])
    ensures var r := NextToSchedule(c, s, q, k);
            && Waiting(q[r])
            && var free, rFree := !s.banks[BankOf(c.m, q[j].value.address)].valid,
                !s.banks[BankOf(c.m, q[r].value.address)].valid;
               && (free ==> rFree)
               && (free == rFree ==> q[r].value.ready <= q[j].value.ready)
  {
    hide BankOf;
    if j < k {
      ScheduleBest(c, s, q, k - 1, j);
    }
  }

  // No response is lost.

  /** Who waits for a response, and for what: one that names a dependent, one for an address, or both; counted are
    * responses after the first `since`. */
  datatype Waiter = Waiter(sink: nat, id: Option<nat>, address: Option<Address>, since: nat)

  predicate Named(m: Mapping, who: Waiter, address: Address, deps: seq<nat>)
    requires Fits(m)
  {
    && (who.id.Some? ==> who.id.value in deps)
    && (who.address.Some? ==> IsCollision(m, address, who.address.value))
  }

  /** Some read in the queue will have it sent one. */
  ghost predicate Owed(m: Mapping, q: seq<Option<Entry>>, who: Waiter)
    requires Fits(m)
  {
    exists i :: 0 <= i < |q| && Owes(m, q[i], who)
  }

  predicate Owes(m: Mapping, x: Option<Entry>, who: Waiter)
    requires Fits(m)
  {
    x.Some? && who.sink in x.value.sinks && Named(m, who, x.value.address, x.value.deps)
  }

  ghost predicate Answered(m: Mapping, r: seq<Response>, since: nat, who: Waiter)
    requires Fits(m)
  {
    exists k :: since <= k < |r| && Wakes(m, r[k], who)
  }

  predicate Wakes(m: Mapping, x: Response, who: Waiter)
    requires Fits(m)
  {
    x.queue == who.sink && Named(m, who, x.address, x.deps)
  }

  ghost predicate Safe(m: Mapping, s: Channel, who: Waiter)
    requires Fits(m)
  {
    who.since <= |s.responses| && (Owed(m, s.rq, who) || Answered(m, s.responses, who.since, who))
  }

  lemma {:induction false} ResponsesWake(m: Mapping, e: Entry, k: nat, who: Waiter)
    requires Fits(m) && k <= |e.sinks| && who.sink in e.sinks[k..] && Named(m, who, e.address, e.deps)
    ensures Answered(m, ResponsesFor(e, k), 0, who)
    decreases |e.sinks| - k
  {
    hide Named;
    var r := ResponsesFor(e, k);
    if e.sinks[k] == who.sink {
      assert Wakes(m, r[0], who);
    } else {
      assert e.sinks[k..] == [e.sinks[k]] + e.sinks[k + 1..];
      ResponsesWake(m, e, k + 1, who);
      var j :| 0 <= j < |ResponsesFor(e, k + 1)| && Wakes(m, ResponsesFor(e, k + 1)[j], who);
      assert Wakes(m, r[j + 1], who);
    }
  }

  lemma AnsweredMore(m: Mapping, r: seq<Response>, more: seq<Response>, who: Waiter)
    requires Fits(m) && who.since <= |r| && (Answered(m, r, who.since, who) || Answered(m, more, 0, who))
    ensures Answered(m, r + more, who.since, who)
  {
    hide Wakes;
    if Answered(m, r, who.since, who) {
      var k :| who.since <= k < |r| && Wakes(m, r[k], who);
      assert Wakes(m, (r + more)[k], who);
    } else {
      var k :| 0 <= k < |more| && Wakes(m, more[k], who);
      assert Wakes(m, (r + more)[|r| + k], who);
    }
  }

  lemma MergedOwes(m: Mapping, into: Entry, from: Entry, who: Waiter)
    requires Fits(m) && IsCollision(m, into.address, from.address)
    requires Owes(m, Some(into), who) || Owes(m, Some(from), who)
    ensures Owes(m, Some(Merged(into, from)), who)
  {
    if who.id.Some? { SetUnionMembers(into.deps, from.deps, who.id.value); }
    SetUnionMembers(into.sinks, from.sinks, who.sink);
  }

  lemma CheckReadSafe(m: Mapping, s: Channel, i: nat, who: Waiter)
    requires Fits(m) && i < |s.rq| && Safe(m, s, who)
    ensures Safe(m, CheckRead(m, s, i), who)
  {
    var t := CheckRead(m, s, i);
    if Answered(m, s.responses, who.since, who) {
      if t.responses != s.responses { AnsweredMore(m, s.responses, ResponsesFor(s.rq[i].value, 0), who); }
    } else if Unchecked(s.rq[i]) {
      var j :| 0 <= j < |s.rq| && Owes(m, s.rq[j], who);
      CheckReadOwes(m, s, i, who, j);
    }
  }

  lemma CheckReadOwes(m: Mapping, s: Channel, i: nat, who: Waiter, j: nat)
    requires Fits(m) && who.since <= |s.responses| && i < |s.rq| && Unchecked(s.rq[i]) && j < |s.rq|
        && Owes(m, s.rq[j], who)
    ensures Safe(m, CheckRead(m, s, i), who)
  {
    var t := CheckRead(m, s, i);
    var e := s.rq[i].value;
    var before := FirstHit(m, s.rq, e.address, 0, i);
    var after := FirstHit(m, s.rq, e.address, i + 1, |s.rq|);
    if FirstHit(m, s.wq, e.address, 0, |s.wq|) < |s.wq| {
      if j == i {
        ResponsesWake(m, e, 0, who);
        AnsweredMore(m, s.responses, ResponsesFor(e, 0), who);
      } else {
        assert Owes(m, t.rq[j], who);
      }
    } else if before < i || after < |s.rq| {
      var k := if before < i then before else after;
      if j == i || j == k {
        MergedOwes(m, s.rq[k].value, e, who);
        assert Owes(m, t.rq[k], who);
      } else {
        assert Owes(m, t.rq[j], who);
      }
    } else {
      assert Owes(m, t.rq[j], who);
    }
  }

  lemma {:induction false} CheckReadsSafe(m: Mapping, s: Channel, i: nat, who: Waiter)
    requires Fits(m) && i <= |s.rq| && Safe(m, s, who)
    ensures Safe(m, CheckReads(m, s, i), who)
    decreases |s.rq| - i
  {
    if i < |s.rq| {
      CheckReadSafe(m, s, i, who);
      hide Safe, CheckRead;
      CheckReadsSafe(m, CheckRead(m, s, i), i + 1, who);
    }
  }

  lemma FinishSafe(m: Mapping, s: Channel, who: Waiter)
    requires Fits(m) && (s.active.Some? ==> Serving(s, s.active.value)) && Safe(m, s, who)
    ensures Safe(m, FinishBus(s), who)
  {
    var t := FinishBus(s);
    if t != s {
      var b := s.active.value;
      var e := Served(s, b);
      if Answered(m, s.responses, who.since, who) {
        AnsweredMore(m, s.responses, ResponsesFor(e, 0), who);
      } else {
        var j :| 0 <= j < |s.rq| && Owes(m, s.rq[j], who);
        if !s.banks[b].write && j == s.banks[b].slot {
          ResponsesWake(m, e, 0, who);
          AnsweredMore(m, s.responses, ResponsesFor(e, 0), who);
        } else {
          assert Owes(m, t.rq[j], who);
        }
      }
    }
  }

  /** The read queue still holds, for the same requests, what it held. */
  ghost predicate SameOwed(p: seq<Option<Entry>>, q: seq<Option<Entry>>) {
    |p| == |q| && forall i :: 0 <= i < |p| && p[i].Some? ==>
      q[i].Some? && q[i].value.address == p[i].value.address
      && q[i].value.deps == p[i].value.deps && q[i].value.sinks == p[i].value.sinks
  }

  lemma SameOwedSafe(m: Mapping, s: Channel, t: Channel, who: Waiter)
    requires Fits(m) && SameOwed(s.rq, t.rq) && t.responses == s.responses && Safe(m, s, who)
    ensures Safe(m, t, who)
  {
    if Owed(m, s.rq, who) {
      var i :| 0 <= i < |s.rq| && Owes(m, s.rq[i], who);
      assert Owes(m, t.rq[i], who);
    }
  }

  /** Through a whole cycle, whoever was owed a response still is, or has had it. */
  lemma OperateSafe(c: Timing, s: Channel, now: int, who: Waiter)
    requires Settled(c, s) && s.now <= now < NEVER && Safe(c.m, s, who)
    ensures Safe(c.m, Operate(c, s, now), who)
  {
    LaterKeeps(c, s, now);
    var z := s.(now := now);
    var w := z.(wq := CheckWrites(c.m, z.wq, 0));
    SameOwedSafe(c.m, s, w, who);
    CheckReadsSafe(c.m, w, 0, who);
    var checked := Checked(c, z);
    FinishKeeps(c, checked);
    FinishSafe(c.m, checked, who);
    RestSafe(c, checked, FinishBus(checked), who);
    hide Inv, Settled, Safe, Service, Populate, FinishBus, SwapMode, ScheduleRefresh, CheckReads, CheckWrites;
    var p := Prepared(c, z);
    ServiceSafe(c, p, NextToSchedule(c, p, Queue(p, p.writeMode), |Queue(p, p.writeMode)| - 1), who);
  }

  lemma RestSafe(c: Timing, s: Channel, f: Channel, who: Waiter)
    requires Inv(c, s) && AllChecked(s.wq) && AllChecked(s.rq) && (s.active.Some? ==> Serving(s, s.active.value))
    requires f == FinishBus(s) && Inv(c, f) && Safe(c.m, f, who)
    ensures Inv(c, SwapMode(c, f)) && Settled(c, ScheduleRefresh(c, SwapMode(c, f)))
    ensures var r := ScheduleRefresh(c, SwapMode(c, f));
            && r.banks != [] && (forall b :: 0 <= b < |r.banks| && r.banks[b].valid ==> Serving(r, b))
            && Safe(c.m, Populate(c, r), who)
  {
    SwapKeeps(c, f);
    RefreshKeeps(c, SwapMode(c, f));
    PopulateKeeps(c, ScheduleRefresh(c, SwapMode(c, f)));
    SwapSame(c, f);
    hide Inv, Settled, Safe, SameOwed, SwapMode, ScheduleRefresh, FinishBus;
    PopulateSame(c, ScheduleRefresh(c, SwapMode(c, f)));
    SameOwedSafe(c.m, f, SwapMode(c, f), who);
    SameOwedSafe(c.m, SwapMode(c, f), ScheduleRefresh(c, SwapMode(c, f)), who);
    SameOwedSafe(c.m, ScheduleRefresh(c, SwapMode(c, f)), Populate(c, ScheduleRefresh(c, SwapMode(c, f))), who);
  }

  lemma SwapSame(c: Timing, s: Channel)
    requires s.active.Some? ==> s.active.value < |s.banks|
    ensures var t := SwapMode(c, s); var r := ScheduleRefresh(c, t);
            && SameOwed(s.rq, t.rq) && t.responses == s.responses && SameOwed(t.rq, r.rq) && r.responses == t.responses
  {
    hide SwapNow;
  }

  lemma PopulateSame(c: Timing, s: Channel)
    requires Shape(c, s) && s.banks != [] && forall b :: 0 <= b < |s.banks| && s.banks[b].valid ==> Serving(s, b)
    ensures var t := Populate(c, s); SameOwed(s.rq, t.rq) && t.responses == s.responses
  {
    hide BankOf, GroupOf;
  }

  lemma ServiceSafe(c: Timing, s: Channel, slot: nat, who: Waiter)
    requires Shape(c, s) && slot < |Queue(s, s.writeMode)| && Safe(c.m, s, who)
    ensures Safe(c.m, Service(c, s, slot), who)
  {
    hide BankOf, RowOf;
    SameOwedSafe(c.m, s, Service(c, s, slot), who);
  }

  // Whole runs.

  datatype Event = AddRead(entry: Entry) | AddWrite(entry: Entry) | Cycle(now: int)

  function FirstEmpty(q: seq<Option<Entry>>): (k: nat)
    ensures k <= |q| && (k < |q| ==> q[k].None?)
  {
    if q == [] || q[0].None? then 0 else 1 + FirstEmpty(q[1..])
  }

  /** A request is put in the first empty place; there may be none. */
  function Added(q: seq<Option<Entry>>, e: Entry): (r: seq<Option<Entry>>)
    ensures |r| == |q|
  {
    if FirstEmpty(q) < |q| then q[FirstEmpty(q) := Some(e.(scheduled := false, checked := false))] else q
  }

  ghost predicate Enabled(s: Channel, e: Event) {
    match e
    case AddRead(_) => true
    case AddWrite(entry) => entry.sinks == []
    case Cycle(now) => s.now <= now < NEVER
  }

  ghost function Apply(c: Timing, s: Channel, e: Event): (t: Channel)
    requires Settled(c, s) && Enabled(s, e)
    ensures Settled(c, t)
  {
    match e
    case AddRead(entry) =>
      AddKeeps(c, s, s.(rq := Added(s.rq, entry)));
      s.(rq := Added(s.rq, entry))
    case AddWrite(entry) =>
      AddKeeps(c, s, s.(wq := Added(s.wq, entry)));
      s.(wq := Added(s.wq, entry))
    case Cycle(now) => Operate(c, s, now)
  }

  ghost predicate AddedTo(p: seq<Option<Entry>>, q: seq<Option<Entry>>) {
    |p| == |q| && forall i :: 0 <= i < |p| ==> q[i] == p[i] || (p[i].None? && q[i].Some? && !q[i].value.scheduled)
  }

  lemma AddKeeps(c: Timing, s: Channel, t: Channel)
    requires Settled(c, s) && t == s.(rq := t.rq, wq := t.wq) && AddedTo(s.rq, t.rq) && AddedTo(s.wq, t.wq)
    ensures Settled(c, t)
  {
    hide BankOf, Spaced;
    forall b: nat ensures BankOk(c, t, b) { assert BankOk(c, s, b); }
    forall w: bool, i: nat ensures EntryOk(c, t, w, i) { assert EntryOk(c, s, w, i); }
  }

  /** A channel with empty queues and idle banks. */
  ghost predicate Initial(c: Timing, s: Channel) {
    && Shape(c, s) && s.active.None? && s.transfers == [] && s.changes == [] && s.responses == [] && s.lastRefresh == 0
        && 0 <= s.now < NEVER
    && (forall i :: 0 <= i < |s.wq| ==> s.wq[i].None?) && (forall i :: 0 <= i < |s.rq| ==> s.rq[i].None?)
    && (forall b :: 0 <= b < |s.banks| ==>
         !s.banks[b].valid && !s.banks[b].needRefresh && !s.banks[b].underRefresh && s.banks[b].refreshed == 0)
  }

  ghost predicate Steps(c: Timing, s: Channel, e: Event, t: Channel) {
    Settled(c, s) && Enabled(s, e) && t == Apply(c, s, e)
  }

  ghost predicate IsRun(c: Timing, states: seq<Channel>, events: seq<Event>) {
    && |states| == |events| + 1 && Initial(c, states[0])
    && forall i :: 0 <= i < |events| && Settled(c, states[i]) ==> Steps(c, states[i], events[i], states[i + 1])
  }

  lemma InitialSettled(c: Timing, s: Channel)
    requires Initial(c, s)
    ensures Settled(c, s)
  {
    hide BankOf;
  }

  lemma {:induction false} RunSettled(c: Timing, states: seq<Channel>, events: seq<Event>, i: nat)
    requires IsRun(c, states, events) && i < |states|
    ensures Settled(c, states[i])
  {
    if i == 0 {
      InitialSettled(c, states[0]);
    } else {
      RunSettled(c, states, events, i - 1);
      hide Settled, Initial;
      assert Steps(c, states[i - 1], events[i - 1], states[i]);
    }
  }

  /** In every reachable state: each bank in use serves an occupied, scheduled entry of its own, each scheduled entry is
    * served by exactly one bank, no bank is in use while it refreshes, a bank not on the bus works for the current
    * mode, no refresh that fell due is forgotten, the transfers on the bus neither overlap nor change direction
    * without the turn-around time between them, and after every change of mode, with a transfer since the one before or
    * not, the bus stays unused for the turn-around time. */
  lemma RunKeepsBanks(c: Timing, states: seq<Channel>, events: seq<Event>, n: nat)
    requires IsRun(c, states, events) && n < |states|
    ensures var s := states[n];
            && Shape(c, s)
            && (forall b :: 0 <= b < |s.banks| && s.banks[b].valid ==>
                 && Serving(s, b) && Served(s, b).scheduled && BankOf(c.m, Served(s, b).address) == b
                 && !s.banks[b].underRefresh && (s.active != Some(b) ==> s.banks[b].write == s.writeMode))
            && (forall w, i :: 0 <= i < |Queue(s, w)| && Queue(s, w)[i].Some? && Queue(s, w)[i].value.scheduled ==>
                 exists b :: 0 <= b < |s.banks| && ServedBy(s, b, w, i)
                             && forall x :: 0 <= x < |s.banks| && ServedBy(s, x, w, i) ==> x == b)
            && (forall b :: 0 <= b < |s.banks| ==>
                 (s.banks[b].needRefresh ==> s.banks[b].valid)
                   && (s.banks[b].needRefresh || s.banks[b].refreshed >= s.lastRefresh))
            && (forall k :: 0 < k < |s.transfers| ==>
                 s.transfers[k].start >= s.transfers[k - 1].end
                   + if s.transfers[k].write != s.transfers[k - 1].write then c.turnaround else 0)
            && (forall i :: 0 <= i < |s.changes| ==> ChangeKept(c, s.transfers, s.changes[i]))
  {
    RunSettled(c, states, events, n);
    var s := states[n];
    hide BankOf;
    forall b | 0 <= b < |s.banks| && s.banks[b].valid
      ensures Serving(s, b) && Served(s, b).scheduled && BankOf(c.m, Served(s, b).address) == b
      ensures !s.banks[b].underRefresh && (s.active != Some(b) ==> s.banks[b].write == s.writeMode)
    {
      assert BankOk(c, s, b);
    }
    forall w, i | 0 <= i < |Queue(s, w)| && Queue(s, w)[i].Some? && Queue(s, w)[i].value.scheduled
      ensures exists b :: 0 <= b < |s.banks| && ServedBy(s, b, w, i)
                          && forall x :: 0 <= x < |s.banks| && ServedBy(s, x, w, i) ==> x == b
    {
      OneBank(c, s, w, i);
    }
  }

  predicate ServedBy(s: Channel, b: nat, write: bool, slot: nat) {
    b < |s.banks| && s.banks[b].valid && s.banks[b].write == write && s.banks[b].slot == slot
  }

  lemma OneBank(c: Timing, s: Channel, w: bool, i: nat)
    requires Inv(c, s) && i < |Queue(s, w)| && Queue(s, w)[i].Some? && Queue(s, w)[i].value.scheduled
    ensures var b := BankOf(c.m, Queue(s, w)[i].value.address);
            ServedBy(s, b, w, i) && forall x :: 0 <= x < |s.banks| && ServedBy(s, x, w, i) ==> x == b
  {
    hide BankOf, BusOk;
    assert EntryOk(c, s, w, i);
    forall x | 0 <= x < |s.banks| && ServedBy(s, x, w, i) ensures x == BankOf(c.m, Queue(s, w)[i].value.address) {
      assert BankOk(c, s, x);
    }
  }

  lemma ApplySafe(c: Timing, s: Channel, e: Event, who: Waiter)
    requires Settled(c, s) && Enabled(s, e) && Safe(c.m, s, who)
    ensures Safe(c.m, Apply(c, s, e), who)
  {
    match e
    case AddRead(entry) => SameOwedSafe(c.m, s, Apply(c, s, e), who);
    case AddWrite(entry) => SameOwedSafe(c.m, s, Apply(c, s, e), who);
    case Cycle(now) => OperateSafe(c, s, now, who);
  }

  lemma RunLength(c: Timing, states: seq<Channel>, events: seq<Event>)
    requires IsRun(c, states, events)
    ensures |states| == |events| + 1
  {
  }

  lemma RunSteps(c: Timing, states: seq<Channel>, events: seq<Event>, i: nat)
    requires IsRun(c, states, events) && i < |events|
    ensures Steps(c, states[i], events[i], states[i + 1])
  {
    RunSettled(c, states, events, i);
    hide Settled, Steps;
  }

  lemma StepSafe(c: Timing, s: Channel, e: Event, t: Channel, who: Waiter)
    requires Fits(c.m) && Steps(c, s, e, t) && Safe(c.m, s, who)
    ensures Safe(c.m, t, who)
  {
    hide Settled, Enabled, Apply, Safe;
    ApplySafe(c, s, e, who);
  }

  lemma {:induction false} RunSafe(c: Timing, states: seq<Channel>, events: seq<Event>, i: nat, j: nat, who: Waiter)
    requires Fits(c.m) && IsRun(c, states, events) && i <= j < |states| && Safe(c.m, states[i], who)
    ensures Safe(c.m, states[j], who)
    decreases j - i
  {
    hide *;
    if i < j {
      RunSafe(c, states, events, i, j - 1, who);
      RunLength(c, states, events);
      RunSteps(c, states, events, j - 1);
      StepSafe(c, states[j - 1], events[j - 1], states[j], who);
    }
  }

  /** Whoever is owed a response at one point of a run, for a dependent, an address or both, is at any later point still
    * owed it, or has in the meantime been sent one that names what it waits for. */
  lemma RunLosesNoResponse(c: Timing, states: seq<Channel>, events: seq<Event>, i: nat, j: nat,
                           sink: nat, id: Option<nat>, address: Option<Address>)
    requires Usable(c.m) && IsRun(c, states, events) && i <= j < |states|
    requires Owed(c.m, states[i].rq, Waiter(sink, id, address, |states[i].responses|))
    ensures var since := |states[i].responses|; var who := Waiter(sink, id, address, since);
            Owed(c.m, states[j].rq, who) || Answered(c.m, states[j].responses, since, who)
  {
    hide Owed, Answered, IsRun;
    RunSafe(c, states, events, i, j, Waiter(sink, id, address, |states[i].responses|));
  }

  // The loops.

  ghost predicate AllServe(s: Channel) {
    && (s.active.Some? ==> s.active.value < |s.banks| && s.banks[s.active.value].valid)
    && forall b :: 0 <= b < |s.banks| && s.banks[b].valid ==> Serving(s, b)
  }

  lemma SettledServe(c: Timing, s: Channel)
    requires Inv(c, s)
    ensures AllServe(s)
  {
    hide BankOf;
    forall b | 0 <= b < |s.banks| && s.banks[b].valid ensures Serving(s, b) { assert BankOk(c, s, b); }
  }

  lemma CheckWritesTurn(m: Mapping, q: seq<Option<Entry>>, i: nat)
    requires Fits(m) && i < |q|
    ensures CheckWrites(m, q, i) == CheckWrites(m, CheckWrite(m, q, i), i + 1)
  {
  }

  lemma CheckReadsTurn(m: Mapping, s: Channel, i: nat)
    requires Fits(m) && i < |s.rq|
    ensures CheckReads(m, s, i) == CheckReads(m, CheckRead(m, s, i), i + 1)
  {
  }

  lemma ResponsesTurn(e: Entry, k: nat)
    requires k < |e.sinks|
    ensures ResponsesFor(e, k) == [Response(e.sinks[k], e.address, e.deps)] + ResponsesFor(e, k + 1)
  {
  }

  /** What the queue looks like when the first k banks have been released. */
  ghost predicate ReleasedBelow(s: Channel, write: bool, q: seq<Option<Entry>>, k: nat) {
    |q| == |Queue(s, write)| && forall i :: 0 <= i < |q| ==>
      q[i] == if Queue(s, write)[i].Some? && GivenBelow(s, write, i, k)
              then Some(Queue(s, write)[i].value.(scheduled := false, ready := s.now)) else Queue(s, write)[i]
  }

  ghost predicate GivenBelow(s: Channel, write: bool, slot: nat, k: nat) {
    exists b :: 0 <= b < k && b < |s.banks| && GivesUp(s, b) && s.banks[b].write == write && s.banks[b].slot == slot
  }

  lemma ReleaseOne(s: Channel, write: bool, q: seq<Option<Entry>>, k: nat)
    requires k < |s.banks| && ReleasedBelow(s, write, q, k)
    requires GivesUp(s, k) && s.banks[k].write == write ==> Serving(s, k)
    ensures ReleasedBelow(s, write,
              if GivesUp(s, k) && s.banks[k].write == write
              then q[s.banks[k].slot := Some(q[s.banks[k].slot].value.(scheduled := false, ready := s.now))]
                else q, k + 1)
  {
    forall i: nat | i < |q|
      ensures GivenBelow(s, write, i, k + 1) <==>
        GivenBelow(s, write, i, k) || (GivesUp(s, k) && s.banks[k].write == write && s.banks[k].slot == i)
    {
    }
  }

  lemma ReleaseDone(s: Channel, write: bool, q: seq<Option<Entry>>)
    requires ReleasedBelow(s, write, q, |s.banks|)
    ensures q == ReleasedQueue(s, write)
  {
    forall i: nat | i < |q| ensures GivenBelow(s, write, i, |s.banks|) <==> GivenUp(s, write, i) {}
  }

  class DramUnit {
    const c: Timing
    var now: int
    var wq: seq<Option<Entry>>
    var rq: seq<Option<Entry>>
    var banks: seq<Bank>
    var active: Option<nat>
    var groupReady: seq<int>
    var writeMode: bool
    var busFree: int
    var lastRefresh: int
    var responses: seq<Response>
    ghost var transfers: seq<Transfer>
    ghost var changes: seq<Change>

    ghost function View(): Channel
      reads this
    {
      Channel(now, wq, rq, banks, active, groupReady, writeMode, busFree, lastRefresh, responses, transfers, changes)
    }

    method Find(q: seq<Option<Entry>>, a: Address, begin: nat, end: nat) returns (r: nat)
      requires Fits(c.m) && begin <= end <= |q|
      ensures r == FirstHit(c.m, q, a, begin, end)
    {
      r := begin;
      while r < end && !Hits(c.m, q[r], a)
        invariant begin <= r <= end && FirstHit(c.m, q, a, begin, end) == FirstHit(c.m, q, a, r, end)
      {
        r := r + 1;
      }
    }

    method Respond(e: Entry)
      modifies `responses
      ensures responses == old(responses) + ResponsesFor(e, 0)
    {
      ghost var sent: seq<Response> := [];
      var k := 0;
      while k < |e.sinks|
        invariant k <= |e.sinks| && responses == old(responses) + sent
            && sent + ResponsesFor(e, k) == ResponsesFor(e, 0)
      {
        ResponsesTurn(e, k);
        var response := Response(e.sinks[k], e.address, e.deps);
        Regrouped(sent, [response], ResponsesFor(e, k + 1));
        responses := responses + [response];
        sent := sent + [response];
        k := k + 1;
      }
    }

    lemma Regrouped(x: seq<Response>, y: seq<Response>, z: seq<Response>)
      ensures x + (y + z) == (x + y) + z
    {
    }

    method CheckWriteCollision()
      requires Fits(c.m)
      modifies `wq
      ensures wq == CheckWrites(c.m, old(wq), 0)
    {
      hide CheckWrites, IsCollision;
      for i := 0 to |wq|
        invariant |wq| == |old(wq)| && CheckWrites(c.m, wq, i) == CheckWrites(c.m, old(wq), 0)
      {
        CheckWritesTurn(c.m, wq, i);
        if wq[i].Some? && !wq[i].value.checked {
          var a := wq[i].value.address;
          var found := Find(wq, a, 0, i);
          if found == i {
            found := Find(wq, a, i + 1, |wq|);
          }
          if found != |wq| {
            wq := wq[i := None];
          } else {
            wq := wq[i := Some(wq[i].value.(checked := true))];
          }
        }
      }
      CheckedAll(c.m, wq);
    }

    lemma CheckedAll(m: Mapping, q: seq<Option<Entry>>)
      requires Fits(m)
      ensures CheckWrites(m, q, |q|) == q
    {
    }

    method CheckReadCollision()
      requires Fits(c.m)
      modifies `rq, `responses
      ensures View() == CheckReads(c.m, old(View()), 0)
    {
      hide CheckReads, IsCollision, SetUnion, ResponsesFor, FirstHit;
      for i := 0 to |rq|
        invariant |rq| == |old(rq)| && CheckReads(c.m, View(), i) == CheckReads(c.m, old(View()), 0)
      {
        CheckReadsTurn(c.m, View(), i);
        if rq[i].Some? && !rq[i].value.checked { CheckOneRead(i); }
      }
      ReadAll(c.m, View());
    }

    lemma ReadAll(m: Mapping, s: Channel)
      requires Fits(m)
      ensures CheckReads(m, s, |s.rq|) == s
    {
    }

    method CheckOneRead(i: nat)
      requires Fits(c.m) && i < |rq| && Unchecked(rq[i])
      modifies `rq, `responses
      ensures View() == CheckRead(c.m, old(View()), i)
    {
      hide IsCollision, SetUnion, ResponsesFor, FirstHit;
      var e := rq[i].value;
      var forward := Find(wq, e.address, 0, |wq|);
      if forward != |wq| {
        Respond(e);
        rq := rq[i := None];
        return;
      }
      var found := Find(rq, e.address, 0, i);
      if found != i {
        rq := rq[found := Some(Merged(rq[found].value, e))];
        rq := rq[i := None];
        return;
      }
      found := Find(rq, e.address, i + 1, |rq|);
      if found != |rq| {
        rq := rq[found := Some(Merged(rq[found].value, e))];
        rq := rq[i := None];
      } else {
        rq := rq[i := Some(e.(checked := true))];
      }
    }

    method FinishDbusRequest()
      requires AllServe(View())
      modifies this
      ensures View() == FinishBus(old(View()))
    {
      if active.Some? && banks[active.value].ready <= now {
        var b := active.value;
        var bank := banks[b];
        Respond((if bank.write then wq else rq)[bank.slot].value);
        banks := banks[b := bank.(valid := false)];
        if bank.write { wq := wq[bank.slot := None]; } else { rq := rq[bank.slot := None]; }
        active := None;
      }
    }

    method Occupancy(q: seq<Option<Entry>>) returns (n: nat)
      ensures n == Occupied(q)
    {
      n := 0;
      for i := 0 to |q|
        invariant n == Occupied(q[..i])
      {
        assert q[..i + 1][..i] == q[..i];
        if q[i].Some? { n := n + 1; }
      }
      assert q[..|q|] == q;
    }

    method SwapWriteMode()
      requires AllServe(View())
      modifies this
      ensures View() == SwapMode(c, old(View()))
    {
      hide ReleasedQueue;
      ghost var change := Change(now, BusyUntil(View()), |transfers|);
      var high, low := |wq| * 7 / 8, |wq| * 6 / 8;
      var w := Occupancy(wq);
      var r := Occupancy(rq);
      if (!writeMode && (w >= high || (r == 0 && w > 0))) || (writeMode && (w == 0 || (r > 0 && w < low))) {
        ResetScheduled();
        if active.Some? {
          busFree := banks[active.value].ready + c.turnaround;
        } else {
          busFree := now + c.turnaround;
        }
        writeMode := !writeMode;
        changes := changes + [change];
      }
    }

    method ResetScheduled()
      requires AllServe(View())
      modifies `wq, `rq, `banks
      ensures wq == ReleasedQueue(old(View()), true) && rq == ReleasedQueue(old(View()), false)
      ensures banks == ReleasedBanks(c, old(View()))
    {
      ghost var s := View();
      hide ReleasedQueue, GivenBelow;
      ReleaseNone(s);
      for b: nat := 0 to |banks|
        invariant |banks| == |s.banks| && ReleasedBelow(s, true, wq, b) && ReleasedBelow(s, false, rq, b)
        invariant forall x :: 0 <= x < b ==> banks[x] == ReleasedBank(c, s, x)
        invariant forall x :: b <= x < |banks| ==> banks[x] == s.banks[x]
      {
        ReleaseOne(s, true, wq, b);
        ReleaseOne(s, false, rq, b);
        var bank := banks[b];
        if active != Some(b) && bank.valid {
          assert Serving(s, b);
          banks := banks[b := bank.(valid := false, open := if bank.ready < now + c.cas then None else bank.open,
                                    marks := bank.marks + [GivenBack(now)])];
          if bank.write {
            wq := wq[bank.slot := Some(wq[bank.slot].value.(scheduled := false, ready := now))];
          } else {
            rq := rq[bank.slot := Some(rq[bank.slot].value.(scheduled := false, ready := now))];
          }
        }
      }
      ReleaseDone(s, true, wq);
      ReleaseDone(s, false, rq);
    }

    lemma ReleaseNone(s: Channel)
      ensures ReleasedBelow(s, true, s.wq, 0) && ReleasedBelow(s, false, s.rq, 0)
    {
    }

    method RefreshBanks()
      modifies `banks, `lastRefresh
      ensures View() == ScheduleRefresh(c, old(View()))
    {
      ghost var s := View();
      var due := now >= lastRefresh + c.refresh;
      if due { lastRefresh := now; }
      for b := 0 to |banks|
        invariant |banks| == |s.banks| && lastRefresh == if due then now else s.lastRefresh
        invariant forall x :: 0 <= x < b ==> banks[x] == RefreshBank(c, s.banks[x], due, now)
        invariant forall x :: b <= x < |banks| ==> banks[x] == s.banks[x]
      {
        if due { banks := banks[b := banks[b].(needRefresh := true)]; }
        if banks[b].needRefresh && !banks[b].valid {
          banks := banks[b := banks[b].(ready := now + c.rfc, needRefresh := false, underRefresh := true,
                                        refreshed := now, marks := banks[b].marks + [Refreshed(now)])];
        } else if banks[b].underRefresh && banks[b].ready <= now {
          banks := banks[b := banks[b].(underRefresh := false, open := None,
                                        marks := banks[b].marks + [RefreshEnded])];
        }
      }
    }

    method NextToUseBus() returns (next: nat)
      requires banks != []
      ensures next < |banks| && next == NextOnBus(banks, |banks| - 1)
    {
      next := 0;
      for k := 1 to |banks|
        invariant next < k <= |banks| && next == NextOnBus(banks, k - 1)
      {
        if !banks[next].valid || (banks[k].valid && banks[k].ready < banks[next].ready) { next := k; }
      }
    }

    method PopulateDbus()
      requires Shape(c, View()) && banks != [] && AllServe(View())
      modifies `active, `banks, `groupReady, `transfers
      ensures View() == Populate(c, old(View()))
    {
      hide GroupOf, NextOnBus;
      var next := NextToUseBus();
      var bank := banks[next];
      if bank.valid && bank.ready <= now {
        if active.None? && busFree <= now {
          assert Serving(View(), next);
          var g := GroupOf(c.m, (if bank.write then wq else rq)[bank.slot].value.address);
          var end := (if groupReady[g] > now then groupReady[g] else now) + c.transfer;
          active := Some(next);
          banks := banks[next := bank.(ready := end)];
          groupReady := groupReady[g := now + c.transfer + c.stall];
          transfers := transfers + [Transfer(now, end, bank.write, next, g, |bank.marks| - 1)];
        }
      }
    }

    method SchedulePacket() returns (slot: nat)
      requires Shape(c, View())
      ensures var q := Queue(View(), writeMode);
              slot < |q| && slot == NextToSchedule(c, View(), q, |q| - 1)
    {
      hide Before;
      var q := if writeMode then wq else rq;
      slot := 0;
      for k := 1 to |q|
        invariant slot < k <= |q| && slot == NextToSchedule(c, View(), q, k - 1)
      {
        var earlier := ComesBefore(q[k], q[slot]);
        if earlier { slot := k; }
      }
    }

    method ComesBefore(x: Option<Entry>, y: Option<Entry>) returns (earlier: bool)
      requires Shape(c, View())
      ensures earlier == Before(c, View(), x, y)
    {
      hide BankOf;
      if !(y.Some? && !y.value.scheduled) { return true; }
      if !(x.Some? && !x.value.scheduled) { return false; }
      var yReady := !banks[BankOf(c.m, y.value.address)].valid;
      var xReady := !banks[BankOf(c.m, x.value.address)].valid;
      return if yReady == xReady then x.value.ready <= y.value.ready else xReady;
    }

    method ServicePacket(slot: nat)
      requires Shape(c, View()) && slot < |Queue(View(), writeMode)|
      modifies `banks, `wq, `rq
      ensures View() == Service(c, old(View()), slot)
    {
      hide BankOf, RowOf;
      var q := if writeMode then wq else rq;
      if q[slot].Some? && q[slot].value.ready <= now {
        var e := q[slot].value;
        var row, b := RowOf(c.m, e.address), BankOf(c.m, e.address);
        if !banks[b].valid && !banks[b].underRefresh {
          var hit := banks[b].open.Some? && banks[b].open.value == row;
          var charge := if banks[b].open.Some? then c.rp + c.rcd else c.rcd;
          var due := now + c.cas + if hit then 0 else charge;
          banks := banks[b := Bank(true, hit, false, false, Some(row), due, writeMode, slot, banks[b].refreshed,
                                   banks[b].marks + [Serviced(row, now, due)])];
          q := q[slot := Some(e.(scheduled := true, ready := NEVER))];
          if writeMode { wq := q; } else { rq := q; }
        }
      }
    }

    method CheckCollisions()
      requires Inv(c, View())
      modifies this
      ensures View() == Checked(c, old(View()))
    {
      hide CheckWrites, CheckReads;
      CheckWriteCollision();
      CheckReadCollision();
    }

    /** Up to the search for a request to schedule. */
    method Prepare()
      requires Inv(c, View())
      modifies this
      ensures View() == Prepared(c, old(View()))
    {
      ghost var s := Checked(c, View());
      FinishKeeps(c, s);
      SwapKeeps(c, FinishBus(s));
      RefreshKeeps(c, SwapMode(c, FinishBus(s)));
      hide Inv, Settled, Checked, FinishBus, SwapMode, ScheduleRefresh, Populate, AllChecked, AllServe;
      CheckCollisions();
      Serves(c, View());
      FinishDbusRequest();
      Serves(c, View());
      SwapWriteMode();
      RefreshBanks();
      Serves(c, View());
      PopulateDbus();
    }

    method OperateOnce(time: int)
      requires Settled(c, View()) && now <= time < NEVER
      modifies this
      ensures View() == Operate(c, old(View()), time)
    {
      hide Inv, Settled, Prepared, NextToSchedule, Service, AllChecked, AllServe;
      LaterInv(c, View(), time);
      now := time;
      Prepare();
      Serves(c, View());
      var slot := SchedulePacket();
      ServicePacket(slot);
    }

    lemma LaterInv(c: Timing, s: Channel, now: int)
      requires Settled(c, s) && s.now <= now < NEVER
      ensures Inv(c, s.(now := now))
    {
      LaterKeeps(c, s, now);
    }

    lemma Serves(c: Timing, s: Channel)
      requires Inv(c, s) || Settled(c, s)
      ensures AllServe(s) && Shape(c, s) && Fits(c.m)
      ensures Settled(c, s) ==> s.banks != []
    {
      SettledServe(c, s);
      if Settled(c, s) { BanksExist(c, s); }
    }
  }
}
