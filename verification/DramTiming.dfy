/** How long the DRAM channel takes: the delays of rows, refreshes and the data bus over whole runs. */
module DramTiming {
  import opened Options
  import opened Bits
  import opened DramMapping
  import opened DramChannel

  // What the marks of a bank say.

  /** The row that is open after the marks: that of the last service, unless the bank has been refreshed since, or had
    * its request taken away before the column access could have begun. */
  function RowAfter(c: Timing, marks: seq<Mark>): Option<seq<bool>> {
    if marks == [] then None
    else
      var n := |marks| - 1;
      match marks[n]
      case Serviced(row, _, _) => Some(row)
      case RefreshEnded => None
      case Refreshed(_) => RowAfter(c, marks[..n])
      case GivenBack(at) =>
        if n > 0 && marks[n - 1].Serviced? && marks[n - 1].due < at + c.cas then None else RowAfter(c, marks[..n])
  }

  /** What a service costs, by the row it finds. */
  function Delay(c: Timing, open: Option<seq<bool>>, row: seq<bool>): nat {
    match open
    case None => c.rcd
    case Some(r) => if r == row then 0 else c.rp + c.rcd
  }

  /** A service takes the column access time if its row is open, the row activation as well if none is, and the
    * precharge besides if another is. It comes after every refresh begun before has had its time and has ended. */
  ghost predicate ServiceTimed(c: Timing, marks: seq<Mark>, k: nat)
    requires k < |marks|
  {
    marks[k].Serviced? ==>
      && marks[k].due == marks[k].at + c.cas + Delay(c, RowAfter(c, marks[..k]), marks[k].row)
      && (forall j :: 0 <= j < k && marks[j].Refreshed? ==> marks[j].at + c.rfc <= marks[k].at)
      && (k > 0 ==> !marks[k - 1].Refreshed?)
  }

  ghost predicate BankTimed(c: Timing, s: Channel, b: nat)
    requires b < |s.banks|
  {
    var bank := s.banks[b];
    && bank.open == RowAfter(c, bank.marks)
    && (forall k :: 0 <= k < |bank.marks| ==> ServiceTimed(c, bank.marks, k))
    && (bank.valid ==> InService(c, s, b))
    && (bank.underRefresh ==> bank.marks != [] && bank.marks[|bank.marks| - 1].Refreshed?)
    && (!bank.underRefresh && bank.marks != [] ==> !bank.marks[|bank.marks| - 1].Refreshed?)
    && (forall j :: 0 <= j < |bank.marks| && bank.marks[j].Refreshed? ==>
          bank.marks[j].at <= s.now && bank.marks[j].at + c.rfc <= if bank.underRefresh then bank.ready else s.now)
  }

  /** The bank's last mark is the service of the request it has, for that request's row; off the bus the bank is ready
    * exactly when the service is due. */
  ghost predicate InService(c: Timing, s: Channel, b: nat)
    requires b < |s.banks|
  {
    var bank := s.banks[b];
    && Usable(c.m) && Serving(s, b) && bank.marks != [] && bank.marks[|bank.marks| - 1].Serviced?
    && bank.marks[|bank.marks| - 1].row == RowOf(c.m, Served(s, b).address)
    && (s.active != Some(b) ==> bank.ready == bank.marks[|bank.marks| - 1].due)
  }

  // The bus.

  /** When the bank group can use the bus again after its last transfer. */
  function GroupFree(c: Timing, t: seq<Transfer>, g: nat): Option<int> {
    if t == [] then None
    else
      var last := t[|t| - 1];
      if last.group == g then Some(last.start + c.transfer + c.stall) else GroupFree(c, t[..|t| - 1], g)
  }

  /** A transfer completes a service of its bank, not before it is due, and each service at most once; it takes the
    * transfer time from its start, or from when the bank group of its bank is free. */
  ghost predicate TransferTimed(c: Timing, s: Channel, k: nat)
    requires k < |s.transfers|
  {
    var t := s.transfers[k];
    && t.bank < |s.banks| && t.group == t.bank / Pow2(c.m.bank) && 0 <= t.service < |s.banks[t.bank].marks|
    && s.banks[t.bank].marks[t.service].Serviced? && s.banks[t.bank].marks[t.service].due <= t.start
    && (forall j :: 0 <= j < k && s.transfers[j].bank == t.bank ==> s.transfers[j].service < t.service)
    && t.end == c.transfer + (match GroupFree(c, s.transfers[..k], t.group)
                              case None => t.start
                              case Some(free) => if t.start < free then free else t.start)
  }

  ghost predicate BusTimed(c: Timing, s: Channel) {
    && (forall k :: 0 <= k < |s.transfers| ==> TransferTimed(c, s, k))
    && (forall g :: 0 <= g < |s.groupReady| ==>
          match GroupFree(c, s.transfers, g)
          case None => s.groupReady[g] <= s.now
          case Some(free) => s.groupReady[g] == free)
    && (forall k, b :: 0 <= k < |s.transfers| && 0 <= b < |s.banks| && s.transfers[k].bank == b && Pending(s, b) ==>
          s.transfers[k].service < |s.banks[b].marks| - 1)
  }

  /** The bank has a request that is not on the bus yet. */
  predicate Pending(s: Channel, b: nat)
    requires b < |s.banks|
  {
    s.banks[b].valid && s.active != Some(b)
  }

  ghost predicate Timed(c: Timing, s: Channel) {
    (forall b :: 0 <= b < |s.banks| ==> BankTimed(c, s, b)) && BusTimed(c, s)
  }

  // Every stage keeps the times.

  /** The marks only grow, and the transfers with them stay as they are. */
  lemma BusStays(c: Timing, s: Channel, t: Channel)
    requires BusTimed(c, s) && t.transfers == s.transfers && t.groupReady == s.groupReady && s.now <= t.now
    requires |t.banks| == |s.banks|
    requires forall b :: 0 <= b < |s.banks| ==>
      && s.banks[b].marks <= t.banks[b].marks
      && (Pending(t, b) ==> |s.banks[b].marks| < |t.banks[b].marks|
                            || (Pending(s, b) && t.banks[b].marks == s.banks[b].marks))
    ensures BusTimed(c, t)
  {
    forall k | 0 <= k < |t.transfers| ensures TransferTimed(c, t, k) {
      assert TransferTimed(c, s, k);
      var x := s.transfers[k];
      assert t.banks[x.bank].marks[x.service] == s.banks[x.bank].marks[x.service];
    }
    forall k, b | 0 <= k < |t.transfers| && 0 <= b < |t.banks| && t.transfers[k].bank == b && Pending(t, b)
      ensures t.transfers[k].service < |t.banks[b].marks| - 1
    {
      assert TransferTimed(c, s, k);
    }
  }

  /** Time goes on and the queues change, but not the requests that banks serve. */
  lemma QueuesTimed(c: Timing, s: Channel, t: Channel)
    requires Timed(c, s) && t.banks == s.banks && t.active == s.active && t.transfers == s.transfers
    requires t.groupReady == s.groupReady && s.now <= t.now
    requires forall b :: 0 <= b < |s.banks| && s.banks[b].valid && Serving(s, b) ==>
      Serving(t, b) && Served(t, b).address == Served(s, b).address
    ensures Timed(c, t)
  {
    BusStays(c, s, t);
    hide RowOf, RowAfter, ServiceTimed, BusTimed;
    forall b | 0 <= b < |t.banks| ensures BankTimed(c, t, b) { assert BankTimed(c, s, b); }
  }

  lemma CheckedTimed(c: Timing, s: Channel)
    requires Inv(c, s) && Timed(c, s)
    ensures Timed(c, Checked(c, s))
  {
    var w := s.(wq := CheckWrites(c.m, s.wq, 0));
    CheckWritesKeep(c.m, s.wq, 0);
    CheckReadsKeep(c.m, w, 0);
    hide Timed, CheckWrites, CheckReads, BankOf;
    var t := Checked(c, s);
    forall b | 0 <= b < |s.banks| && s.banks[b].valid && Serving(s, b)
      ensures Serving(t, b) && Served(t, b).address == Served(s, b).address
    {
      assert BankOk(c, s, b);
      var w, i := s.banks[b].write, s.banks[b].slot;
      assert EntryOk(c, s, w, i) && KeptEntry(Queue(s, w)[i], Queue(t, w)[i]);
    }
    QueuesTimed(c, s, t);
  }

  /** A bank that no stage touches, and that serves what it served. */
  lemma BankStays(c: Timing, s: Channel, t: Channel, b: nat)
    requires b < |s.banks| && b < |t.banks| && t.banks[b] == s.banks[b] && s.now <= t.now && BankTimed(c, s, b)
    requires s.banks[b].valid ==> Serving(t, b) && (Serving(s, b) ==> Served(t, b).address == Served(s, b).address)
    requires (t.active == Some(b)) == (s.active == Some(b))
    ensures BankTimed(c, t, b)
  {
    hide RowOf, RowAfter, ServiceTimed;
  }

  lemma FinishTimed(c: Timing, s: Channel)
    requires Inv(c, s) && Timed(c, s)
    ensures s.active.Some? ==> Serving(s, s.active.value)
    ensures Timed(c, FinishBus(s))
  {
    FinishKeeps(c, s);
    var t := FinishBus(s);
    if t != s {
      BusStays(c, s, t);
      hide BusTimed, BankTimed, Inv, FinishBus;
      forall b | 0 <= b < |t.banks| ensures BankTimed(c, t, b) {
        assert BankTimed(c, s, b);
        FinishBank(c, s, b);
      }
    }
  }

  lemma FinishBank(c: Timing, s: Channel, b: nat)
    requires Inv(c, s) && (s.active.Some? ==> Serving(s, s.active.value)) && FinishBus(s) != s && Inv(c, FinishBus(s))
    requires b < |s.banks| && BankTimed(c, s, b)
    ensures b < |FinishBus(s).banks| && BankTimed(c, FinishBus(s), b)
  {
    var t := FinishBus(s);
    assert b < |t.banks| && t.banks[b].valid ==> Serving(t, b) by { assert BankOk(c, t, b); }
    hide Inv;
    FinishedBank(c, s, b);
  }

  lemma FinishedBank(c: Timing, s: Channel, b: nat)
    requires (s.active.Some? ==> Serving(s, s.active.value)) && FinishBus(s) != s && b < |s.banks| && BankTimed(c, s, b)
    requires FinishBus(s).banks[b].valid ==> Serving(FinishBus(s), b)
    ensures BankTimed(c, FinishBus(s), b)
  {
    hide RowOf, RowAfter, ServiceTimed;
    if b != s.active.value { BankStays(c, s, FinishBus(s), b); }
  }

  lemma SwapTimed(c: Timing, s: Channel)
    requires Inv(c, s) && OffBus(s) && Timed(c, s)
    ensures Timed(c, SwapMode(c, s))
  {
    hide RowOf, ServiceTimed, BankOf, BusTimed, SwapNow, RowAfter;
    SwapKeeps(c, s);
    var t := SwapMode(c, s);
    if SwapNow(s) {
      BusStays(c, s, t);
      forall b | 0 <= b < |t.banks| ensures BankTimed(c, t, b) {
        assert BankTimed(c, s, b) && BankOk(c, t, b) && BankOk(c, s, b);
        if GivesUp(s, b) { GivenBackTimed(c, s, t, b); } else { BankStays(c, s, t, b); }
      }
    }
  }

  lemma MarkMore(c: Timing, marks: seq<Mark>, x: Mark)
    requires forall k :: 0 <= k < |marks| ==> ServiceTimed(c, marks, k)
    requires x.Serviced? ==>
      && x.due == x.at + c.cas + Delay(c, RowAfter(c, marks), x.row)
      && (forall j :: 0 <= j < |marks| && marks[j].Refreshed? ==> marks[j].at + c.rfc <= x.at)
      && (marks != [] ==> !marks[|marks| - 1].Refreshed?)
    ensures forall k :: 0 <= k < |marks| + 1 ==> ServiceTimed(c, marks + [x], k)
  {
    var more := marks + [x];
    forall k | 0 <= k < |more| ensures ServiceTimed(c, more, k) {
      assert more[..k] == marks[..k];
      if k < |marks| { assert ServiceTimed(c, marks, k); } else { assert marks[..k] == marks; }
    }
  }

  lemma GivenBackTimed(c: Timing, s: Channel, t: Channel, b: nat)
    requires b < |s.banks| && |t.banks| == |s.banks| && BankTimed(c, s, b) && GivesUp(s, b) && t.now == s.now
    requires !s.banks[b].underRefresh && t.banks[b] == ReleasedBank(c, s, b)
    ensures BankTimed(c, t, b)
  {
    var marks, more := s.banks[b].marks, t.banks[b].marks;
    MarkMore(c, marks, GivenBack(s.now));
    assert more[..|marks|] == marks;
    hide ServiceTimed, RowOf;
  }

  lemma RefreshTimed(c: Timing, s: Channel)
    requires Inv(c, s) && Timed(c, s)
    ensures Timed(c, ScheduleRefresh(c, s))
  {
    RefreshKeeps(c, s);
    var t := ScheduleRefresh(c, s);
    hide RowOf, ServiceTimed, BankOf, BusTimed, RowAfter;
    BusStays(c, s, t);
    forall b | 0 <= b < |t.banks| ensures BankTimed(c, t, b) {
      assert BankTimed(c, s, b) && BankOk(c, t, b) && BankOk(c, s, b);
      RefreshedTimed(c, s, t, b, RefreshDue(c, s));
    }
  }

  lemma RefreshedTimed(c: Timing, s: Channel, t: Channel, b: nat, due: bool)
    requires b < |s.banks| && |t.banks| == |s.banks| && BankTimed(c, s, b)
    requires t == s.(banks := t.banks, lastRefresh := t.lastRefresh)
    requires s.banks[b].valid ==> !s.banks[b].underRefresh
    requires t.banks[b] == RefreshBank(c, s.banks[b], due, s.now)
    ensures BankTimed(c, t, b)
  {
    hide ServiceTimed, RowOf, RowAfter;
    if |t.banks[b].marks| > |s.banks[b].marks| {
      hide InService;
      RefreshMarks(c, s, t, b, due);
    }
  }

  lemma RefreshMarks(c: Timing, s: Channel, t: Channel, b: nat, due: bool)
    requires b < |s.banks| && |t.banks| == |s.banks| && BankTimed(c, s, b) && t.now == s.now
    requires t.banks[b] == RefreshBank(c, s.banks[b], due, s.now) && |t.banks[b].marks| > |s.banks[b].marks|
    requires s.banks[b].valid ==> !s.banks[b].underRefresh
    ensures BankTimed(c, t, b)
  {
    hide ServiceTimed, RowOf, RowAfter, InService;
    var marks, more := s.banks[b].marks, t.banks[b].marks;
    MarkMore(c, marks, more[|marks|]);
    RefreshRow(c, marks, more[|marks|]);
    forall j | 0 <= j < |more| && more[j].Refreshed?
      ensures more[j].at <= s.now
        && more[j].at + c.rfc <= if t.banks[b].underRefresh then t.banks[b].ready else s.now
    {
      if j < |marks| { assert marks[j] == more[j]; }
    }
  }

  lemma RefreshRow(c: Timing, marks: seq<Mark>, x: Mark)
    requires x.Refreshed? || x.RefreshEnded?
    ensures RowAfter(c, marks + [x]) == if x.RefreshEnded? then None else RowAfter(c, marks)
  {
    assert (marks + [x])[..|marks|] == marks;
  }

  lemma PopulateTimed(c: Timing, s: Channel)
    requires Settled(c, s) && Timed(c, s)
    ensures s.banks != [] && forall b :: 0 <= b < |s.banks| && s.banks[b].valid ==> Serving(s, b)
    ensures Timed(c, Populate(c, s))
  {
    BanksExist(c, s);
    hide Settled, BankTimed, BusTimed, Populate;
    var t := Populate(c, s);
    if t != s {
      var b, g := PopulateIs(c, s);
      NotRefreshing(c, s, b);
      GroupIs(c, s, b);
      assert BankTimed(c, s, b);
      forall x | 0 <= x < |t.banks| ensures BankTimed(c, t, x) {
        assert BankTimed(c, s, x);
        PopulatedBank(c, s, t, b, x);
      }
      PopulatedBus(c, s, t, b, g);
    }
  }

  lemma NotRefreshing(c: Timing, s: Channel, b: nat)
    requires Settled(c, s) && b < |s.banks| && s.banks[b].valid
    ensures !s.banks[b].underRefresh
  {
    assert BankOk(c, s, b);
  }

  lemma GroupIs(c: Timing, s: Channel, b: nat)
    requires Settled(c, s) && b < |s.banks| && s.banks[b].valid
    ensures Serving(s, b) && GroupOf(c.m, Served(s, b).address) == b / Pow2(c.m.bank)
  {
    assert BankOk(c, s, b);
    BankIndexGroup(c.m, Locate(c.m, Served(s, b).address));
  }

  lemma PopulateIs(c: Timing, s: Channel) returns (b: nat, g: nat)
    requires Shape(c, s) && s.banks != [] && forall b :: 0 <= b < |s.banks| && s.banks[b].valid ==> Serving(s, b)
    requires Populate(c, s) != s
    ensures b < |s.banks| && Serving(s, b) && g == GroupOf(c.m, Served(s, b).address) && g < |s.groupReady|
    ensures s.banks[b].valid && s.banks[b].ready <= s.now && s.active.None?
    ensures var t, free := Populate(c, s), s.groupReady[g];
            && |t.banks| == |s.banks|
            && t == s.(active := Some(b), banks := s.banks[b := s.banks[b].(ready := t.banks[b].ready)],
                       groupReady := s.groupReady[g := s.now + c.transfer + c.stall],
                       transfers := s.transfers + [Transfer(s.now, (if free > s.now then free else s.now) + c.transfer,
                         s.banks[b].write, b, g, |s.banks[b].marks| - 1)])
  {
    hide GroupOf, NextOnBus, Usable;
    b := NextOnBus(s.banks, |s.banks| - 1);
    g := GroupOf(c.m, Served(s, b).address);
  }

  lemma PopulatedBank(c: Timing, s: Channel, t: Channel, b: nat, x: nat)
    requires b < |s.banks| == |t.banks| && x < |s.banks| && BankTimed(c, s, x) && s.active.None? && s.banks[b].valid
    requires forall y :: 0 <= y < |s.banks| && s.banks[y].valid ==> Serving(s, y)
    requires t == s.(active := Some(b), banks := s.banks[b := s.banks[b].(ready := t.banks[b].ready)],
                     groupReady := t.groupReady, transfers := t.transfers)
    requires !s.banks[b].underRefresh
    ensures BankTimed(c, t, x)
  {
    hide RowOf, ServiceTimed, RowAfter;
    if x != b { BankStays(c, s, t, x); }
  }

  lemma PopulatedBus(c: Timing, s: Channel, t: Channel, b: nat, g: nat)
    requires BusTimed(c, s) && b < |s.banks| && BankTimed(c, s, b) && s.banks[b].valid && s.active.None?
    requires s.banks[b].ready <= s.now && g < |s.groupReady| && |t.banks| == |s.banks| && g == b / Pow2(c.m.bank)
    requires var free := s.groupReady[g];
             t == s.(active := Some(b), banks := s.banks[b := s.banks[b].(ready := t.banks[b].ready)],
                     groupReady := s.groupReady[g := s.now + c.transfer + c.stall],
                     transfers := s.transfers + [Transfer(s.now, (if free > s.now then free else s.now) + c.transfer,
                       s.banks[b].write, b, g, |s.banks[b].marks| - 1)])
    ensures BusTimed(c, t)
  {
    var n := |s.transfers|;
    hide RowOf, ServiceTimed, RowAfter;
    assert t.transfers[..n] == s.transfers;
    forall k | 0 <= k < |t.transfers| ensures TransferTimed(c, t, k) {
      assert t.transfers[..k] == s.transfers[..k];
      if k < n {
        assert TransferTimed(c, s, k);
      } else {
        assert s.transfers[..k] == s.transfers;
        assert Pending(s, b);
      }
    }
    forall k, x | 0 <= k < |t.transfers| && 0 <= x < |t.banks| && t.transfers[k].bank == x && Pending(t, x)
      ensures t.transfers[k].service < |t.banks[x].marks| - 1
    {
      assert Pending(s, x);
    }
  }

  lemma ServeTimed(c: Timing, s: Channel, slot: nat)
    requires Settled(c, s) && Timed(c, s) && slot < |Queue(s, s.writeMode)| && AllChecked(Queue(s, s.writeMode))
    ensures Timed(c, Service(c, s, slot))
  {
    ServiceKeeps(c, s, slot);
    var t := Service(c, s, slot);
    if t != s {
      var b := BankOf(c.m, Queue(s, s.writeMode)[slot].value.address);
      ServeBus(c, s, t, slot, b);
      hide BankOf, BusTimed, Service, BankTimed;
      forall x | 0 <= x < |t.banks| ensures BankTimed(c, t, x) {
        assert BankTimed(c, s, x) && BankOk(c, t, x) && BankOk(c, s, x);
        if x == b { ServicedTimed(c, s, t, slot, b); } else { ServedStays(c, s, t, slot, b, x); }
      }
    }
  }

  lemma ServeBus(c: Timing, s: Channel, t: Channel, slot: nat, b: nat)
    requires Shape(c, s) && BusTimed(c, s) && slot < |Queue(s, s.writeMode)| && t == Service(c, s, slot) && t != s
    requires Queue(s, s.writeMode)[slot].Some? && b == BankOf(c.m, Queue(s, s.writeMode)[slot].value.address)
    ensures BusTimed(c, t) && |t.banks| == |s.banks| && !s.banks[b].valid && !s.banks[b].underRefresh
    ensures Queue(s, s.writeMode)[slot].value.ready <= s.now
  {
    hide RowOf, BankOf, BusTimed;
    BusStays(c, s, t);
  }

  lemma ServedStays(c: Timing, s: Channel, t: Channel, slot: nat, b: nat, x: nat)
    requires Shape(c, s) && slot < |Queue(s, s.writeMode)| && t == Service(c, s, slot) && t != s
    requires Queue(s, s.writeMode)[slot].Some? && b == BankOf(c.m, Queue(s, s.writeMode)[slot].value.address)
    requires x < |s.banks| && x != b && x < |t.banks| && BankTimed(c, s, x) && (s.banks[x].valid ==> Serving(s, x))
    ensures BankTimed(c, t, x)
  {
    hide RowOf, BankOf, RowAfter, ServiceTimed;
    BankStays(c, s, t, x);
  }

  lemma ServicedTimed(c: Timing, s: Channel, t: Channel, slot: nat, b: nat)
    requires Shape(c, s) && slot < |Queue(s, s.writeMode)| && b < |s.banks| && BankTimed(c, s, b)
    requires t == Service(c, s, slot) && Serving(t, b) && s.active != Some(b) && !s.banks[b].valid
    requires Queue(s, s.writeMode)[slot].Some? && b == BankOf(c.m, Queue(s, s.writeMode)[slot].value.address)
    requires Queue(s, s.writeMode)[slot].value.ready <= s.now && !s.banks[b].underRefresh
    ensures BankTimed(c, t, b)
  {
    var marks, more := s.banks[b].marks, t.banks[b].marks;
    MarkMore(c, marks, more[|marks|]);
    assert more[..|marks|] == marks;
    hide ServiceTimed, RowOf, BankOf;
  }

  // Whole runs.

  lemma OperateTimed(c: Timing, s: Channel, now: int)
    requires Settled(c, s) && s.now <= now < NEVER && Timed(c, s)
    ensures Timed(c, Operate(c, s, now))
  {
    LaterKeeps(c, s, now);
    var z := s.(now := now);
    QueuesTimed(c, s, z);
    PreparedTimed(c, z);
    hide Inv, Settled, Timed, Service, Prepared, NextToSchedule;
    var p := Prepared(c, z);
    ServeTimed(c, p, NextToSchedule(c, p, Queue(p, p.writeMode), |Queue(p, p.writeMode)| - 1));
  }

  lemma PreparedTimed(c: Timing, s: Channel)
    requires Inv(c, s) && Timed(c, s)
    ensures Timed(c, Prepared(c, s))
  {
    hide Timed, FinishBus, SwapMode, ScheduleRefresh, Populate, AllChecked, Settled, Inv, Checked;
    var checked := Checked(c, s);
    CheckedTimed(c, s);
    FinishKeeps(c, checked);
    FinishTimed(c, checked);
    var f := FinishBus(checked);
    SwapKeeps(c, f);
    SwapTimed(c, f);
    RefreshKeeps(c, SwapMode(c, f));
    RefreshTimed(c, SwapMode(c, f));
    PopulateTimed(c, ScheduleRefresh(c, SwapMode(c, f)));
  }

  lemma AddedTimed(c: Timing, s: Channel, t: Channel)
    requires Settled(c, s) && Timed(c, s) && t == s.(rq := t.rq, wq := t.wq)
    requires AddedTo(s.rq, t.rq) && AddedTo(s.wq, t.wq)
    ensures Timed(c, t)
  {
    hide Timed;
    QueuesTimed(c, s, t);
  }

  lemma ApplyTimed(c: Timing, s: Channel, e: Event)
    requires Settled(c, s) && Enabled(s, e) && Timed(c, s)
    ensures Timed(c, Apply(c, s, e))
  {
    hide Timed, Operate, Settled;
    match e
    case AddRead(entry) => AddedTimed(c, s, Apply(c, s, e));
    case AddWrite(entry) => AddedTimed(c, s, Apply(c, s, e));
    case Cycle(now) => OperateTimed(c, s, now);
  }

  /** No bank has a row open yet, and no bank group is in use. */
  ghost predicate Fresh(s: Channel) {
    && (forall b :: 0 <= b < |s.banks| ==> s.banks[b].marks == [] && s.banks[b].open.None?)
    && (forall g :: 0 <= g < |s.groupReady| ==> s.groupReady[g] <= s.now)
  }

  lemma {:induction false} RunTimed(c: Timing, states: seq<Channel>, events: seq<Event>, i: nat)
    requires IsRun(c, states, events) && Fresh(states[0]) && i < |states|
    ensures Timed(c, states[i])
  {
    if i > 0 {
      RunTimed(c, states, events, i - 1);
      RunSteps(c, states, events, i - 1);
      hide Timed, Settled, Apply, Enabled, IsRun, Fresh;
      assert Steps(c, states[i - 1], events[i - 1], states[i]);
      ApplyTimed(c, states[i - 1], events[i - 1]);
    }
  }

  /** In every run: the open row of a bank is that of its last service unless it has been closed since; every service
    * is due exactly the column access, with the row activation and the precharge only where the row makes them
    * necessary, after it is given, and never while a refresh lasts; a bank off the bus is ready exactly when its
    * service is due; and every transfer completes one service of its bank, not before it is due, and lasts the
    * transfer time from its start or from when its bank group is free. */
  lemma RunDelays(c: Timing, states: seq<Channel>, events: seq<Event>, n: nat)
    requires IsRun(c, states, events) && Fresh(states[0]) && n < |states|
    ensures var s := states[n];
            && Usable(c.m)
            && (forall b :: 0 <= b < |s.banks| ==>
                 && s.banks[b].open == RowAfter(c, s.banks[b].marks)
                 && (s.banks[b].valid ==> InService(c, s, b))
                 && forall k :: 0 <= k < |s.banks[b].marks| ==> ServiceTimed(c, s.banks[b].marks, k))
            && (forall k :: 0 <= k < |s.transfers| ==> TransferTimed(c, s, k))
  {
    RunTimed(c, states, events, n);
    RunSettled(c, states, events, n);
    hide RowAfter, ServiceTimed, InService, TransferTimed, IsRun;
    var s := states[n];
    forall b | 0 <= b < |s.banks|
      ensures s.banks[b].open == RowAfter(c, s.banks[b].marks) && (s.banks[b].valid ==> InService(c, s, b))
      ensures forall k :: 0 <= k < |s.banks[b].marks| ==> ServiceTimed(c, s.banks[b].marks, k)
    {
      assert BankTimed(c, s, b);
    }
  }

  /** Of three services given at the same time, one that finds its row open is due first, one that finds none open next,
    * and one that finds another open last. */
  lemma HitIsFastest(c: Timing, row: seq<bool>, other: seq<bool>)
    requires row != other
    ensures Delay(c, Some(row), row) <= Delay(c, None, row) <= Delay(c, Some(other), row)
  {
  }

  // When refreshes fall due, and which queue is served.

  /** A cycle calls for a refresh of all banks exactly when the refresh interval has passed since the last call, so that
    * between cycles less than the interval has passed since. */
  lemma CycleRefreshes(c: Timing, s: Channel, now: int)
    requires Settled(c, s) && s.now <= now < NEVER
    ensures var t := Operate(c, s, now);
            && t.now == now && t.lastRefresh == (if now - s.lastRefresh >= c.refresh then now else s.lastRefresh)
            && (c.refresh > 0 ==> now - t.lastRefresh < c.refresh)
  {
    LaterKeeps(c, s, now);
    var z := s.(now := now);
    PreparedRefreshes(c, z);
    hide Prepared, NextToSchedule, BankOf, RowOf, Inv, Settled;
  }

  lemma PreparedRefreshes(c: Timing, s: Channel)
    requires Inv(c, s)
    ensures var t := Prepared(c, s);
            t.now == s.now && t.lastRefresh == if s.now - s.lastRefresh >= c.refresh then s.now else s.lastRefresh
  {
    var checked := Checked(c, s);
    FinishKeeps(c, checked);
    SwapKeeps(c, FinishBus(checked));
    RefreshKeeps(c, SwapMode(c, FinishBus(checked)));
    PopulateKeeps(c, ScheduleRefresh(c, SwapMode(c, FinishBus(checked))));
    hide Inv, Settled, CheckWrites, CheckReads, SwapNow, NextOnBus, GroupOf;
  }

  /** With room for at least two writes, the channel serves writes after a change of mode has been considered exactly
    * when there are some and there are no reads, or seven eighths of the queue are full, or six eighths are and it
    * served writes already. */
  lemma ModeChosen(c: Timing, s: Channel)
    requires Shape(c, s) && |s.wq| >= 2
    ensures var w, r, n := Occupied(s.wq), Occupied(s.rq), |s.wq|;
            SwapMode(c, s).writeMode <==> w > 0 && (r == 0 || w >= 7 * n / 8 || (s.writeMode && w >= 6 * n / 8))
  {
    hide Occupied;
  }
}
