/** What the bandwidth window of src/lat_bw_queue.cc measures: the bytes of the last ticks since the last reset. */
module BandwidthWindow {
  import opened LatBwQueue

  /** What tick k, counted from zero, sent, as far as it was not before the reset at `since`. */
  function Past(spent: seq<Usage>, since: nat, k: int): real {
    if since <= k < |spent| then spent[k].bytes else 0.0
  }

  /** The bytes of ticks m to n. */
  function Moved(spent: seq<Usage>, since: nat, m: int, n: int): real
    decreases n - m
  {
    if n <= m then 0.0 else Moved(spent, since, m, n - 1) + Past(spent, since, n - 1)
  }

  /** The share of the bandwidth that the window before tick n has used. */
  function LoadAt<T>(c: Config<T>, spent: seq<Usage>, since: nat, n: int): real {
    if c.peak <= 0.0 then 0.0 else Moved(spent, since, n - WINDOW, n) / (WINDOW as real * c.peak)
  }

  function Loads<T>(c: Config<T>, spent: seq<Usage>, since: nat, n: int): real
    decreases n
  {
    if n <= since then 0.0 else Loads(c, spent, since, n - 1) + LoadAt(c, spent, since, n)
  }

  /** The ring holds the bytes of the last ticks, each at its own place, and the sums are theirs. */
  ghost predicate Remembers<T>(c: Config<T>, s: Queue<T>) {
    && |s.spent| == s.clock && s.since <= s.clock && |s.hist| == WINDOW && s.idx == s.clock % WINDOW
    && (forall k: int :: s.clock - WINDOW <= k < s.clock ==> s.hist[k % WINDOW] == Past(s.spent, s.since, k))
    && s.sum == Moved(s.spent, s.since, s.clock - WINDOW, s.clock)
    && s.samples == s.clock - s.since && s.utilSum == Loads(c, s.spent, s.since, s.clock)
  }

  /** The packet's latency was computed from the bytes of the window before the tick that took it off the front. */
  ghost predicate LoadedBy<T>(c: Config<T>, spent: seq<Usage>, t: Transit<T>) {
    && 0 < t.injection <= |spent|
    && t.load == LoadAt(c, spent[..t.injection - 1], spent[t.injection - 1].since, t.injection - 1)
  }

  ghost predicate Loaded<T>(c: Config<T>, s: Queue<T>) {
    && (forall t :: t in s.active ==> LoadedBy(c, s.spent, t))
    && (forall r :: r in s.returned ==> LoadedBy(c, s.spent, r.entry))
  }

  // Sums over ticks.

  lemma {:induction false} MovedFirst(spent: seq<Usage>, since: nat, m: int, n: int)
    requires m < n
    ensures Moved(spent, since, m, n) == Past(spent, since, m) + Moved(spent, since, m + 1, n)
    decreases n - m
  {
    if m + 1 < n { MovedFirst(spent, since, m, n - 1); }
  }

  lemma {:induction false} MovedGrows(spent: seq<Usage>, x: Usage, since: nat, m: int, n: int)
    requires n <= |spent|
    ensures Moved(spent + [x], since, m, n) == Moved(spent, since, m, n)
    decreases n - m
  {
    if m < n { MovedGrows(spent, x, since, m, n - 1); }
  }

  lemma {:induction false} MovedNothing(spent: seq<Usage>, since: nat, m: int, n: int)
    requires n <= since
    ensures Moved(spent, since, m, n) == 0.0
    decreases n - m
  {
    if m < n { MovedNothing(spent, since, m, n - 1); }
  }

  lemma LoadGrows<T>(c: Config<T>, spent: seq<Usage>, x: Usage, since: nat, n: int)
    requires n <= |spent|
    ensures LoadAt(c, spent + [x], since, n) == LoadAt(c, spent, since, n)
  {
    MovedGrows(spent, x, since, n - WINDOW, n);
  }

  lemma {:induction false} LoadsGrow<T>(c: Config<T>, spent: seq<Usage>, x: Usage, since: nat, n: int)
    requires n <= |spent|
    ensures Loads(c, spent + [x], since, n) == Loads(c, spent, since, n)
    decreases n
  {
    if n > since {
      LoadsGrow(c, spent, x, since, n - 1);
      LoadGrows(c, spent, x, since, n);
    }
  }

  // Every operation keeps both.

  lemma PlaceDiffers(n: nat, k: int)
    requires n - WINDOW < k < n
    ensures k % WINDOW != n % WINDOW && 0 <= k % WINDOW < WINDOW
  {
  }

  lemma NextPlace(n: nat)
    ensures (n % WINDOW + 1) % WINDOW == (n + 1) % WINDOW && (n - WINDOW) % WINDOW == n % WINDOW
  {
  }

  lemma RecordRing<T>(c: Config<T>, s: Queue<T>)
    requires |s.spent| == s.clock - 1 && s.since < s.clock && |s.hist| == WINDOW && s.idx == (s.clock - 1) % WINDOW
    requires forall k: int :: s.clock - 1 - WINDOW <= k < s.clock - 1 ==>
               s.hist[k % WINDOW] == Past(s.spent, s.since, k)
    ensures var t := Record(c, s);
            forall k: int :: t.clock - WINDOW <= k < t.clock ==> t.hist[k % WINDOW] == Past(t.spent, t.since, k)
  {
    var t := Record(c, s);
    forall k: int | t.clock - WINDOW <= k < t.clock ensures t.hist[k % WINDOW] == Past(t.spent, t.since, k) {
      if k < s.clock - 1 { PlaceDiffers(s.clock - 1, k); }
    }
  }

  /** The oldest tick leaves the sum and the new one enters it. */
  lemma RecordSum<T>(c: Config<T>, s: Queue<T>)
    requires |s.spent| == s.clock - 1 && s.since < s.clock && |s.hist| == WINDOW && s.idx == (s.clock - 1) % WINDOW
    requires s.hist[s.idx] == Past(s.spent, s.since, s.clock - 1 - WINDOW)
    requires s.sum == Moved(s.spent, s.since, s.clock - 1 - WINDOW, s.clock - 1)
    ensures var t := Record(c, s); t.sum == Moved(t.spent, t.since, t.clock - WINDOW, t.clock)
  {
    var n := s.clock - 1;
    MovedFirst(s.spent, s.since, n - WINDOW, n);
    MovedGrows(s.spent, Usage(s.used, s.since), s.since, n + 1 - WINDOW, n);
  }

  lemma RecordRemembers<T>(c: Config<T>, s: Queue<T>)
    requires s.clock > 0 && Remembers(c, s.(clock := s.clock - 1)) && Measured(c, s) && 0.0 <= s.used <= Rate(c)
    ensures Remembers(c, Record(c, s))
  {
    var n := s.clock - 1;
    NextPlace(n);
    RecordRing(c, s);
    RecordSum(c, s);
    RecordMeasured(c, s);
    RecordLoads(c, s);
  }

  lemma RecordLoads<T>(c: Config<T>, s: Queue<T>)
    requires |s.spent| == s.clock - 1 && s.since < s.clock && |s.hist| == WINDOW && s.idx < WINDOW
    requires Measured(c, Record(c, s)) && s.utilSum == Loads(c, s.spent, s.since, s.clock - 1)
    requires var t := Record(c, s); t.sum == Moved(t.spent, t.since, t.clock - WINDOW, t.clock)
    ensures var t := Record(c, s); t.utilSum == Loads(c, t.spent, t.since, t.clock)
  {
    var t := Record(c, s);
    UtilizationIs(c, t);
    LoadsGrow(c, s.spent, Usage(s.used, s.since), s.since, s.clock - 1);
    SameUtilization(c, t, t.(utilSum := s.utilSum, samples := s.samples));
  }

  lemma UtilizationIs<T>(c: Config<T>, s: Queue<T>)
    requires Measured(c, s) && s.sum == Moved(s.spent, s.since, s.clock - WINDOW, s.clock)
    ensures Utilization(c, s) == LoadAt(c, s.spent, s.since, s.clock)
  {
    if c.peak > 0.0 { UtilizationNeedsNoClamp(c, s); }
  }

  lemma {:induction false} ServiceLoads<T>(c: Config<T>, s: Queue<T>, avail: real, t: Transit<T>)
    requires t in Service(c, s, avail).active && t !in s.active
    ensures t.injection == s.clock && t.load == Utilization(c, s)
    decreases |s.blocked|
  {
    if avail > 0.0 && s.blocked != [] {
      var front := s.blocked[0];
      var send := Least(avail, front.remaining);
      if front.remaining - send <= 0.0 {
        var next := s.(blocked := s.blocked[1..], active := s.active + [Injected(c, s, front.stamp)],
                       used := s.used + send);
        SameUtilization(c, s, next);
        hide Utilization;
        if t !in next.active { ServiceLoads(c, next, avail - send, t); }
      }
    }
  }

  lemma LoadedGrows<T>(c: Config<T>, spent: seq<Usage>, x: Usage, t: Transit<T>)
    requires LoadedBy(c, spent, t)
    ensures LoadedBy(c, spent + [x], t)
  {
    assert (spent + [x])[..t.injection - 1] == spent[..t.injection - 1];
  }

  lemma LoadedNow<T>(c: Config<T>, spent: seq<Usage>, x: Usage, t: Transit<T>)
    requires t.injection == |spent| + 1 && t.load == LoadAt(c, spent, x.since, |spent|)
    ensures LoadedBy(c, spent + [x], t)
  {
    assert (spent + [x])[..|spent|] == spent;
  }

  lemma AddRemembers<T>(c: Config<T>, s: Queue<T>, p: T)
    requires Remembers(c, s) && Loaded(c, s)
    ensures Remembers(c, Add(c, s, p)) && Loaded(c, Add(c, s, p))
  {
  }

  lemma ResetRemembers<T>(c: Config<T>, s: Queue<T>)
    requires Remembers(c, s) && Loaded(c, s)
    ensures Remembers(c, Cleared(s)) && Loaded(c, Cleared(s))
  {
    MovedNothing(s.spent, s.clock, s.clock - WINDOW, s.clock);
  }

  lemma TickRemembers<T>(c: Config<T>, s: Queue<T>, order: seq<Transit<T>>)
    requires Inv(c, s) && PopOrder(s, order) && Remembers(c, s)
    ensures Remembers(c, Tick(c, s, order))
  {
    var r := Released(s, order);
    var t := Service(c, r, c.peak);
    ServedKeeps(c, s, order);
    ServiceFrame(c, r, c.peak);
    hide Service, PopOrder, Released, NotDue, Record;
    RecordRemembers(c, t);
  }

  lemma TickLoads<T>(c: Config<T>, s: Queue<T>, order: seq<Transit<T>>)
    requires Inv(c, s) && PopOrder(s, order) && Remembers(c, s) && Loaded(c, s)
    ensures Loaded(c, Tick(c, s, order))
  {
    var r := Released(s, order);
    var t, x := Service(c, r, c.peak), Tick(c, s, order);
    ServiceFrame(c, r, c.peak);
    UtilizationIs(c, s);
    SameUtilization(c, s, r);
    hide Service, Utilization, LoadedBy, Due, NotDue;
    forall a | a in x.active ensures LoadedBy(c, x.spent, a) {
      DueIn(s.active, s.clock + 1, a);
      if a in s.active {
        LoadedGrows(c, s.spent, Usage(t.used, s.since), a);
      } else {
        ServiceLoads(c, r, c.peak, a);
        LoadedNow(c, s.spent, Usage(t.used, s.since), a);
      }
    }
    forall a | a in x.returned ensures LoadedBy(c, x.spent, a.entry) {
      if a !in s.returned {
        assert a.entry in multiset(order);
        DueIn(s.active, s.clock + 1, a.entry);
      }
      LoadedGrows(c, s.spent, Usage(t.used, s.since), a.entry);
    }
  }

  lemma StepRemembers<T>(c: Config<T>, s: Queue<T>, e: Event<T>, t: Queue<T>)
    requires Inv(c, s) && Steps(c, s, e, t) && Remembers(c, s) && Loaded(c, s)
    ensures Remembers(c, t) && Loaded(c, t)
  {
    hide Remembers, Loaded, Inv, Tick, Add, Cleared;
    match e
    case AddPacket(p) => AddRemembers(c, s, p);
    case OnTick(order) =>
      TickRemembers(c, s, order);
      TickLoads(c, s, order);
    case Reset => ResetRemembers(c, s);
  }

  /** In every run the window measures the bytes sent by the last 256 ticks that are not before the last reset, the
    * running sum is their total, the average is over the ticks since that reset, and the latency of every packet comes
    * from what was sent in the window before the tick that took it off the front. */
  lemma {:induction false} RunRemembers<T>(c: Config<T>, states: seq<Queue<T>>, events: seq<Event<T>>, i: nat)
    requires IsRun(c, states, events) && i < |states|
    ensures Remembers(c, states[i]) && Loaded(c, states[i])
  {
    if i == 0 {
      MovedNothing([], 0, 0 - WINDOW, 0);
    } else {
      RunRemembers(c, states, events, i - 1);
      RunInv(c, states, events, i - 1);
      hide Remembers, Loaded, Inv, Steps;
      assert Steps(c, states[i - 1], events[i - 1], states[i]);
      StepRemembers(c, states[i - 1], events[i - 1], states[i]);
    }
  }
}
