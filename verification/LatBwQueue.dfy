/** The latency/bandwidth queue of src/lat_bw_queue.cc: a first-in first-out
  * transmitter feeding a priority queue of packets in flight. */
module LatBwQueue {
  import opened Options

  const WINDOW: nat := 256

  datatype Config<!T> = Config(peak: real, latency: real -> int, cost: Option<T -> real>, maxPending: int)

  /** A packet as accepted: its serial number, the tick count at that moment, and the bytes then waiting
    * up to and including its own. */
  datatype Stamp<T> = Stamp(payload: T, id: nat, arrived: nat, backlog: real)

  datatype Pending<T> = Pending(stamp: Stamp<T>, remaining: real)

  /** `load` is the utilization the latency was computed from. */
  datatype Transit<T> = Transit(stamp: Stamp<T>, injection: nat, completion: int, load: real)

  datatype Arrival<T> = Arrival(entry: Transit<T>, at: int)

  /** What one tick sent, and how many ticks there had been when the statistics were last reset. */
  datatype Usage = Usage(bytes: real, since: nat)

  /** `accepted` and `returned` are the histories of accepted and returned packets, `spent` that of the ticks; `since`
    * is the tick count at the last reset. */
  datatype Queue<T> = Queue(clock: nat, blocked: seq<Pending<T>>, active: seq<Transit<T>>,
                            hist: seq<real>, idx: nat, sum: real, used: real, utilSum: real, samples: nat,
                            accepted: seq<Stamp<T>>, returned: seq<Arrival<T>>, spent: seq<Usage>, since: nat)

  function Max(a: int, b: int): int { if a < b then b else a }

  function Least(a: real, b: real): real { if b < a then b else a }

  function Clamp(x: real): real { if x < 0.0 then 0.0 else if 1.0 < x then 1.0 else x }

  function Bytes<T>(c: Config<T>, p: T): (b: real)
    ensures b >= 1.0
  {
    var raw := match c.cost case Some(f) => f(p) case None => 64.0;
    if raw < 1.0 then 1.0 else raw
  }

  /** Bytes sent per tick; a queue without bandwidth sends none. */
  function Rate<T>(c: Config<T>): (r: real)
    ensures r >= 0.0
  {
    if c.peak <= 0.0 then 0.0 else c.peak
  }

  function Sent(rate: real, ticks: int): real { rate * (ticks as real) }

  function Total(h: seq<real>): real {
    if h == [] then 0.0 else Total(h[..|h| - 1]) + h[|h| - 1]
  }

  function Backlog<T>(b: seq<Pending<T>>): real {
    if b == [] then 0.0 else b[0].remaining + Backlog(b[1..])
  }

  function Utilization<T>(c: Config<T>, s: Queue<T>): (u: real)
    ensures 0.0 <= u <= 1.0
  {
    if c.peak <= 0.0 then 0.0 else Clamp(s.sum / (WINDOW as real * c.peak))
  }

  predicate Full<T>(c: Config<T>, s: Queue<T>) {
    c.maxPending > 0 && |s.blocked| + |s.active| >= c.maxPending
  }

  // The operations.

  function Fresh<T>(): Queue<T> {
    Queue(0, [], [], seq(WINDOW, _ => 0.0), 0, 0.0, 0.0, 0.0, 0, [], [], [], 0)
  }

  function Stamped<T>(c: Config<T>, s: Queue<T>, p: T): Stamp<T> {
    Stamp(p, |s.accepted|, s.clock, Backlog(s.blocked) + Bytes(c, p))
  }

  function Add<T>(c: Config<T>, s: Queue<T>, p: T): Queue<T> {
    if Full(c, s) then s
    else
      s.(blocked := s.blocked + [Pending(Stamped(c, s, p), Bytes(c, p))],
         accepted := s.accepted + [Stamped(c, s, p)])
  }

  function Due<T>(a: seq<Transit<T>>, now: int): seq<Transit<T>> {
    if a == [] then []
    else Due(a[..|a| - 1], now) + if a[|a| - 1].completion <= now then [a[|a| - 1]] else []
  }

  function NotDue<T>(a: seq<Transit<T>>, now: int): seq<Transit<T>> {
    if a == [] then []
    else NotDue(a[..|a| - 1], now) + if a[|a| - 1].completion <= now then [] else [a[|a| - 1]]
  }

  function Injected<T>(c: Config<T>, s: Queue<T>, p: Stamp<T>): Transit<T> {
    Transit(p, s.clock, s.clock + Max(c.latency(Utilization(c, s)), 1), Utilization(c, s))
  }

  function Service<T>(c: Config<T>, s: Queue<T>, avail: real): Queue<T>
    decreases |s.blocked|
  {
    if avail <= 0.0 || s.blocked == [] then s
    else
      var front := s.blocked[0];
      var send := Least(avail, front.remaining);
      if front.remaining - send <= 0.0 then
        Service(c, s.(blocked := s.blocked[1..], active := s.active + [Injected(c, s, front.stamp)],
                      used := s.used + send), avail - send)
      else s.(blocked := s.blocked[0 := front.(remaining := front.remaining - send)], used := s.used + send)
  }

  function Record<T>(c: Config<T>, s: Queue<T>): Queue<T>
    requires |s.hist| == WINDOW && s.idx < WINDOW
  {
    var t := s.(hist := s.hist[s.idx := s.used], sum := s.sum - s.hist[s.idx] + s.used,
                idx := (s.idx + 1) % WINDOW, spent := s.spent + [Usage(s.used, s.since)]);
    t.(utilSum := t.utilSum + Utilization(c, t), samples := t.samples + 1)
  }

  function Arrivals<T>(order: seq<Transit<T>>, at: nat): (r: seq<Arrival<T>>)
    ensures |r| == |order|
  {
    seq(|order|, k requires 0 <= k < |order| => Arrival(order[k], at))
  }

  /** Which packets may be popped in which order on the next tick. */
  ghost predicate PopOrder<T>(s: Queue<T>, order: seq<Transit<T>>) {
    && multiset(order) == multiset(Due(s.active, s.clock + 1))
    && forall i, j :: 0 <= i < j < |order| ==> NoLater(order[i], order[j])
  }

  /** The order of the priority queue: by completion, then by injection. */
  predicate NoLater<T>(a: Transit<T>, b: Transit<T>) {
    a.completion < b.completion || (a.completion == b.completion && a.injection <= b.injection)
  }

  function Released<T>(s: Queue<T>, order: seq<Transit<T>>): Queue<T> {
    s.(clock := s.clock + 1, active := NotDue(s.active, s.clock + 1),
       returned := s.returned + Arrivals(order, s.clock + 1), used := 0.0)
  }

  function Tick<T>(c: Config<T>, s: Queue<T>, order: seq<Transit<T>>): Queue<T>
    requires |s.hist| == WINDOW && s.idx < WINDOW
  {
    ServiceFrame(c, Released(s, order), c.peak);
    Record(c, Service(c, Released(s, order), c.peak))
  }

  function Cleared<T>(s: Queue<T>): Queue<T> {
    s.(utilSum := 0.0, samples := 0, hist := seq(WINDOW, _ => 0.0), sum := 0.0, used := 0.0,
       since := s.clock)
  }

  // The invariant.

  /** With `ahead` bytes before them, the waiting packets still owe exactly their backlog less what the
    * ticks since their arrival could send. */
  ghost predicate Owed<T>(b: seq<Pending<T>>, rate: real, clock: int, ahead: real) {
    b == [] || (
      && b[0].remaining > 0.0 && b[0].stamp.arrived <= clock
      && ahead + b[0].remaining == b[0].stamp.backlog - Sent(rate, clock - b[0].stamp.arrived)
      && Owed(b[1..], rate, clock, ahead + b[0].remaining))
  }

  /** Entered transit on the first tick by which the rate covers the backlog, and stays its latency. */
  ghost predicate Timely<T>(c: Config<T>, t: Transit<T>) {
    && t.stamp.arrived < t.injection
    && Sent(Rate(c), t.injection - 1 - t.stamp.arrived) < t.stamp.backlog
    && t.stamp.backlog <= Sent(Rate(c), t.injection - t.stamp.arrived)
    && 0.0 <= t.load <= 1.0 && t.completion == t.injection + Max(c.latency(t.load), 1)
  }

  /** How often packet k is in flight, and how often it has been returned. */
  function Times<T>(a: seq<Transit<T>>, k: int): nat {
    if a == [] then 0 else Times(a[..|a| - 1], k) + if a[|a| - 1].stamp.id == k then 1 else 0
  }

  function Landed<T>(r: seq<Arrival<T>>, k: int): nat {
    if r == [] then 0 else Landed(r[..|r| - 1], k) + if r[|r| - 1].entry.stamp.id == k then 1 else 0
  }

  ghost predicate EachOnce<T>(a: seq<Transit<T>>, r: seq<Arrival<T>>, n: int) {
    forall k: int :: Times(a, k) + Landed(r, k) == if 0 <= k < n then 1 else 0
  }

  /** The waiting packets are the last accepted ones, in order; the others are in flight or returned, once. */
  ghost predicate Numbered<T>(s: Queue<T>) {
    && |s.blocked| <= |s.accepted|
    && (forall i :: 0 <= i < |s.blocked| ==>
         s.blocked[i].stamp == s.accepted[|s.accepted| - |s.blocked| + i])
    && (forall i :: 0 <= i < |s.accepted| ==> s.accepted[i].id == i)
    && EachOnce(s.active, s.returned, |s.accepted| - |s.blocked|)
  }

  ghost predicate Known<T>(s: Queue<T>, p: Stamp<T>) {
    p.id < |s.accepted| && s.accepted[p.id] == p
  }

  ghost predicate Flying<T>(c: Config<T>, s: Queue<T>) {
    && (forall t :: t in s.active ==> Timely(c, t) && Known(s, t.stamp) && t.injection <= s.clock < t.completion)
    && (forall r :: r in s.returned ==>
         Timely(c, r.entry) && Known(s, r.entry.stamp) && r.at == r.entry.completion <= s.clock)
  }

  /** The running sum is the sum of the ring, whose entries never exceed the rate. */
  ghost predicate Measured<T>(c: Config<T>, s: Queue<T>) {
    && |s.hist| == WINDOW && s.idx < WINDOW && s.sum == Total(s.hist)
    && (forall k :: 0 <= k < WINDOW ==> 0.0 <= s.hist[k] <= Rate(c))
    && 0.0 <= s.utilSum <= s.samples as real
  }

  ghost predicate Inv<T>(c: Config<T>, s: Queue<T>) {
    && Owed(s.blocked, Rate(c), s.clock, 0.0)
    && Numbered(s)
    && Flying(c, s)
    && Measured(c, s)
    && (c.maxPending > 0 ==> |s.blocked| + |s.active| <= c.maxPending)
  }

  // What servicing leaves alone, and what it spends.

  lemma {:induction false} ServiceFrame<T>(c: Config<T>, s: Queue<T>, avail: real)
    ensures var t := Service(c, s, avail);
            && t == s.(blocked := t.blocked, active := t.active, used := t.used)
            && |t.blocked| + |t.active| == |s.blocked| + |s.active|
    decreases |s.blocked|
  {
    if avail > 0.0 && s.blocked != [] {
      var front := s.blocked[0];
      var send := Least(avail, front.remaining);
      if front.remaining - send <= 0.0 {
        ServiceFrame(c, s.(blocked := s.blocked[1..], active := s.active + [Injected(c, s, front.stamp)],
                           used := s.used + send), avail - send);
      }
    }
  }

  /** Work conserving: exactly the smaller of the rate and the backlog is sent, and the backlog shrinks by it. */
  lemma {:induction false} ServiceSpends<T>(c: Config<T>, s: Queue<T>, avail: real)
    requires avail >= 0.0 && forall i :: 0 <= i < |s.blocked| ==> s.blocked[i].remaining > 0.0
    ensures var t := Service(c, s, avail);
            && t.used - s.used == Least(avail, Backlog(s.blocked))
            && Backlog(t.blocked) == Backlog(s.blocked) - (t.used - s.used)
            && Backlog(s.blocked) >= 0.0
    decreases |s.blocked|
  {
    if s.blocked != [] {
      var front := s.blocked[0];
      var send := Least(avail, front.remaining);
      var next := s.(blocked := s.blocked[1..], active := s.active + [Injected(c, s, front.stamp)],
                     used := s.used + send);
      ServiceSpends(c, next, avail - send);
      if avail > 0.0 && front.remaining - send > 0.0 {
        var rest := s.blocked[0 := front.(remaining := front.remaining - send)];
        assert rest[1..] == s.blocked[1..];
      }
    }
  }

  // The invariant through one tick.

  lemma SentStep(rate: real, n: int)
    ensures Sent(rate, n + 1) == Sent(rate, n) + rate && Sent(rate, 0) == 0.0
  {
    assert (n + 1) as real == n as real + 1.0;
  }

  /** One more tick of time is one rate less owed. */
  lemma {:induction false} OwedLater<T>(b: seq<Pending<T>>, rate: real, clock: int, ahead: real)
    requires Owed(b, rate, clock, ahead)
    ensures Owed(b, rate, clock + 1, ahead - rate)
  {
    if b != [] {
      SentStep(rate, clock - b[0].stamp.arrived);
      OwedLater(b[1..], rate, clock, ahead + b[0].remaining);
      assert ahead - rate + b[0].remaining == ahead + b[0].remaining - rate;
    }
  }

  lemma {:induction false} OwedAppend<T>(b: seq<Pending<T>>, rate: real, clock: int, ahead: real, p: Pending<T>)
    requires Owed(b, rate, clock, ahead) && p.remaining > 0.0 && p.stamp.arrived == clock
    requires p.stamp.backlog == ahead + Backlog(b) + p.remaining
    ensures Owed(b + [p], rate, clock, ahead)
  {
    SentStep(rate, 0);
    if b == [] {
      assert (b + [p])[1..] == [];
    } else {
      OwedAppend(b[1..], rate, clock, ahead + b[0].remaining, p);
      assert (b + [p])[1..] == b[1..] + [p];
    }
  }

  lemma {:induction false} OwedPositive<T>(b: seq<Pending<T>>, rate: real, clock: int, ahead: real, i: nat)
    requires Owed(b, rate, clock, ahead) && i < |b| && ahead >= 0.0
    ensures b[i].remaining > 0.0 && b[i].stamp.arrived <= clock
    ensures Sent(rate, clock - b[i].stamp.arrived) < b[i].stamp.backlog
  {
    if i > 0 { OwedPositive(b[1..], rate, clock, ahead + b[0].remaining, i - 1); }
  }

  lemma {:induction false} OwedRemaining<T>(b: seq<Pending<T>>, rate: real, clock: int, ahead: real)
    requires Owed(b, rate, clock, ahead)
    ensures forall i :: 0 <= i < |b| ==> b[i].remaining > 0.0
  {
    if b != [] {
      OwedRemaining(b[1..], rate, clock, ahead + b[0].remaining);
      assert forall i :: 1 <= i < |b| ==> b[i] == b[1..][i - 1];
    }
  }

  /** The loop of service_bandwidth: whatever of the rate is still available is what the packets are ahead by. */
  lemma {:induction false} ServiceOwed<T>(c: Config<T>, s: Queue<T>, avail: real)
    requires 0.0 <= avail && Owed(s.blocked, Rate(c), s.clock, -avail)
    ensures var t := Service(c, s, avail); Owed(t.blocked, Rate(c), s.clock, 0.0)
    decreases |s.blocked|
  {
    if avail > 0.0 && s.blocked != [] {
      var front := s.blocked[0];
      var send := Least(avail, front.remaining);
      if front.remaining - send <= 0.0 {
        var next := s.(blocked := s.blocked[1..], active := s.active + [Injected(c, s, front.stamp)],
                       used := s.used + send);
        assert -avail + front.remaining == -(avail - send);
        ServiceOwed(c, next, avail - send);
      } else {
        var rest := s.blocked[0 := front.(remaining := front.remaining - send)];
        assert rest[1..] == s.blocked[1..];
        assert -avail + front.remaining == 0.0 + rest[0].remaining;
      }
    }
  }

  /** Whatever enters transit in this tick does so on time. */
  lemma {:induction false} ServiceTimely<T>(c: Config<T>, s: Queue<T>, avail: real, t: Transit<T>)
    requires 0.0 <= avail <= Rate(c) && Owed(s.blocked, Rate(c), s.clock, -avail)
    requires forall i :: 0 <= i < |s.blocked| ==> s.blocked[i].stamp.arrived < s.clock && Known(s, s.blocked[i].stamp)
    requires t in Service(c, s, avail).active && t !in s.active
    ensures Timely(c, t) && Known(s, t.stamp) && t.injection == s.clock < t.completion
    decreases |s.blocked|
  {
    if avail > 0.0 && s.blocked != [] {
      var front := s.blocked[0];
      var send := Least(avail, front.remaining);
      if front.remaining - send <= 0.0 {
        var next := s.(blocked := s.blocked[1..], active := s.active + [Injected(c, s, front.stamp)],
                       used := s.used + send);
        assert -avail + front.remaining == -(avail - send);
        if t in next.active {
          SentStep(Rate(c), s.clock - 1 - front.stamp.arrived);
        } else {
          assert forall i :: 0 <= i < |next.blocked| ==> next.blocked[i] == s.blocked[i + 1];
          ServiceTimely(c, next, avail - send, t);
        }
      }
    }
  }

  lemma OnceMore<T>(a: seq<Transit<T>>, r: seq<Arrival<T>>, n: nat, t: Transit<T>)
    requires EachOnce(a, r, n) && t.stamp.id == n
    ensures EachOnce(a + [t], r, n + 1)
  {
    forall k: int ensures Times(a + [t], k) + Landed(r, k) == if 0 <= k < n + 1 then 1 else 0 {
      TimesAppend(a, t, k);
    }
  }

  lemma {:induction false} ServiceNumbered<T>(c: Config<T>, s: Queue<T>, avail: real)
    requires Numbered(s)
    ensures Numbered(Service(c, s, avail))
    decreases |s.blocked|
  {
    if avail > 0.0 && s.blocked != [] {
      var front := s.blocked[0];
      var send := Least(avail, front.remaining);
      if front.remaining - send <= 0.0 {
        var next := s.(blocked := s.blocked[1..], active := s.active + [Injected(c, s, front.stamp)],
                       used := s.used + send);
        OnceMore(s.active, s.returned, |s.accepted| - |s.blocked|, Injected(c, s, front.stamp));
        hide EachOnce;
        ServiceNumbered(c, next, avail - send);
      }
    }
  }

  // Releasing what is due.

  lemma {:induction false} DueIn<T>(a: seq<Transit<T>>, now: int, t: Transit<T>)
    ensures t in Due(a, now) <==> t in a && t.completion <= now
    ensures t in NotDue(a, now) <==> t in a && t.completion > now
  {
    if a != [] {
      DueIn(a[..|a| - 1], now, t);
      assert a == a[..|a| - 1] + [a[|a| - 1]];
    }
  }

  lemma {:induction false} DueTimes<T>(a: seq<Transit<T>>, now: int, k: int)
    ensures Times(a, k) == Times(Due(a, now), k) + Times(NotDue(a, now), k)
  {
    if a != [] {
      var most, last := a[..|a| - 1], a[|a| - 1];
      DueTimes(most, now, k);
      TimesAppend(Due(most, now), last, k);
      TimesAppend(NotDue(most, now), last, k);
    }
  }

  lemma TimesAppend<T>(a: seq<Transit<T>>, t: Transit<T>, k: int)
    ensures Times(a + [t], k) == Times(a, k) + (if t.stamp.id == k then 1 else 0)
    ensures a + [] == a
  {
    assert (a + [t])[..|a|] == a;
  }

  lemma {:induction false} TimesConcat<T>(a: seq<Transit<T>>, b: seq<Transit<T>>, k: int)
    ensures Times(a + b, k) == Times(a, k) + Times(b, k)
  {
    if b == [] {
      assert a + b == a;
    } else {
      TimesConcat(a, b[..|b| - 1], k);
      assert (a + b)[..|a + b| - 1] == a + b[..|b| - 1];
    }
  }

  /** The count does not depend on the order of the packets. */
  lemma {:induction false} TimesPermute<T>(a: seq<Transit<T>>, b: seq<Transit<T>>, k: int)
    requires multiset(a) == multiset(b)
    ensures Times(a, k) == Times(b, k)
  {
    if a == [] {
      assert |multiset(b)| == |b|;
    } else {
      var last := a[|a| - 1];
      assert a == a[..|a| - 1] + [last];
      assert last in multiset(b);
      var i :| 0 <= i < |b| && b[i] == last;
      Without(a, b, i);
      TimesPermute(a[..|a| - 1], b[..i] + b[i + 1..], k);
      TimesConcat(b[..i] + [last], b[i + 1..], k);
      TimesConcat(b[..i], b[i + 1..], k);
      TimesAppend(b[..i], last, k);
      assert b == b[..i] + [last] + b[i + 1..];
    }
  }

  lemma Without<T>(a: seq<T>, b: seq<T>, i: nat)
    requires multiset(a) == multiset(b) && a != [] && i < |b| && b[i] == a[|a| - 1]
    ensures multiset(a[..|a| - 1]) == multiset(b[..i] + b[i + 1..])
  {
    assert a == a[..|a| - 1] + [b[i]];
    assert b == b[..i] + [b[i]] + b[i + 1..];
    assert multiset(a) == multiset(a[..|a| - 1]) + multiset{b[i]};
    assert multiset(b) == multiset(b[..i] + b[i + 1..]) + multiset{b[i]};
    assert multiset(a[..|a| - 1]) == multiset(a) - multiset{b[i]};
    assert multiset(b[..i] + b[i + 1..]) == multiset(b) - multiset{b[i]};
  }

  lemma {:induction false} LandedAppend<T>(r: seq<Arrival<T>>, order: seq<Transit<T>>, at: nat, k: int)
    ensures Landed(r + Arrivals(order, at), k) == Landed(r, k) + Times(order, k)
  {
    if order == [] {
      assert r + Arrivals(order, at) == r;
    } else {
      var most := order[..|order| - 1];
      LandedAppend(r, most, at, k);
      var x := Arrival(order[|order| - 1], at);
      assert r + Arrivals(order, at) == (r + Arrivals(most, at)) + [x];
      assert ((r + Arrivals(most, at)) + [x])[..|r| + |most|] == r + Arrivals(most, at);
    }
  }

  /** What is released lands, as often as it was flying. */
  lemma ReleasedCounts<T>(s: Queue<T>, order: seq<Transit<T>>, k: int)
    requires multiset(order) == multiset(Due(s.active, s.clock + 1))
    ensures var t := Released(s, order);
            Times(t.active, k) + Landed(t.returned, k) == Times(s.active, k) + Landed(s.returned, k)
  {
    hide Due, NotDue, Times, Landed, Arrivals;
    DueTimes(s.active, s.clock + 1, k);
    TimesPermute(order, Due(s.active, s.clock + 1), k);
    LandedAppend(s.returned, order, s.clock + 1, k);
  }

  lemma ReleasedNumbered<T>(s: Queue<T>, order: seq<Transit<T>>)
    requires Numbered(s) && PopOrder(s, order)
    ensures Numbered(Released(s, order))
  {
    var t := Released(s, order);
    forall k: int ensures Times(t.active, k) + Landed(t.returned, k) == Times(s.active, k) + Landed(s.returned, k) {
      ReleasedCounts(s, order, k);
    }
    hide Due, NotDue, Times, Landed, Arrivals, PopOrder, NoLater;
  }

  lemma ReleasedFlying<T>(c: Config<T>, s: Queue<T>, order: seq<Transit<T>>)
    requires Flying(c, s) && PopOrder(s, order)
    ensures Flying(c, Released(s, order))
  {
    var t := Released(s, order);
    forall x | x in t.active
      ensures Timely(c, x) && Known(t, x.stamp) && x.injection <= t.clock < x.completion
    {
      DueIn(s.active, s.clock + 1, x);
    }
    forall r | r in t.returned
      ensures Timely(c, r.entry) && Known(t, r.entry.stamp) && r.at == r.entry.completion <= t.clock
    {
      if r !in s.returned {
        assert r in Arrivals(order, s.clock + 1);
        assert r.entry in multiset(order);
        DueIn(s.active, s.clock + 1, r.entry);
      }
    }
  }

  // The bandwidth window.

  lemma {:induction false} TotalUpdate(h: seq<real>, i: nat, x: real)
    requires i < |h|
    ensures Total(h[i := x]) == Total(h) - h[i] + x
  {
    var last := |h| - 1;
    if i < last {
      TotalUpdate(h[..last], i, x);
      assert h[i := x][..last] == h[..last][i := x];
    } else {
      assert h[i := x][..last] == h[..last];
    }
  }

  lemma {:induction false} TotalBound(h: seq<real>, rate: real)
    requires forall k :: 0 <= k < |h| ==> 0.0 <= h[k] <= rate
    ensures 0.0 <= Total(h) <= Sent(rate, |h|)
  {
    if h == [] {
      SentStep(rate, 0);
    } else {
      TotalBound(h[..|h| - 1], rate);
      SentStep(rate, |h| - 1);
    }
  }

  /** The clamp in get_utilization never acts: the window holds at most 256 times the rate. */
  lemma UtilizationNeedsNoClamp<T>(c: Config<T>, s: Queue<T>)
    requires Measured(c, s) && c.peak > 0.0
    ensures 0.0 <= s.sum / (WINDOW as real * c.peak) <= 1.0
    ensures Utilization(c, s) * (WINDOW as real * c.peak) == Total(s.hist)
  {
    TotalBound(s.hist, c.peak);
    var d := WINDOW as real * c.peak;
    assert d > 0.0 && Sent(c.peak, WINDOW) == d;
    Quotient(s.sum, d);
  }

  lemma Quotient(x: real, d: real)
    requires d > 0.0 && 0.0 <= x <= d
    ensures 0.0 <= x / d <= 1.0 && (x / d) * d == x
  {
  }

  lemma {:induction false} TotalZeros(n: nat)
    ensures Total(seq(n, _ => 0.0)) == 0.0
  {
    if n > 0 {
      TotalZeros(n - 1);
      assert seq(n, _ => 0.0)[..n - 1] == seq(n - 1, _ => 0.0);
    }
  }

  lemma RecordMeasured<T>(c: Config<T>, s: Queue<T>)
    requires Measured(c, s) && 0.0 <= s.used <= Rate(c)
    ensures Measured(c, Record(c, s))
  {
    TotalUpdate(s.hist, s.idx, s.used);
  }

  lemma RecordFrame<T>(c: Config<T>, s: Queue<T>)
    requires |s.hist| == WINDOW && s.idx < WINDOW
    ensures var t := Record(c, s);
            && Numbered(s) == Numbered(t) && Flying(c, s) == Flying(c, t)
            && t.blocked == s.blocked && t.active == s.active && t.clock == s.clock
  {
  }

  // Every operation keeps the invariant.

  lemma FreshInv<T>(c: Config<T>)
    ensures Inv(c, Fresh<T>())
  {
    TotalZeros(WINDOW);
  }

  lemma AddKeeps<T>(c: Config<T>, s: Queue<T>, p: T)
    requires Inv(c, s)
    ensures Inv(c, Add(c, s, p))
  {
    if !Full(c, s) {
      OwedAppend(s.blocked, Rate(c), s.clock, 0.0, Pending(Stamped(c, s, p), Bytes(c, p)));
    }
  }

  lemma ResetKeeps<T>(c: Config<T>, s: Queue<T>)
    requires Inv(c, s)
    ensures Inv(c, Cleared(s))
  {
    TotalZeros(WINDOW);
  }

  lemma TickKeeps<T>(c: Config<T>, s: Queue<T>, order: seq<Transit<T>>)
    requires Inv(c, s) && PopOrder(s, order)
    ensures Inv(c, Tick(c, s, order))
  {
    var t := Service(c, Released(s, order), c.peak);
    ServedKeeps(c, s, order);
    hide Owed, Numbered, Flying, Service, Released;
    RecordMeasured(c, t);
    RecordFrame(c, t);
  }

  lemma ServedKeeps<T>(c: Config<T>, s: Queue<T>, order: seq<Transit<T>>)
    requires Inv(c, s) && PopOrder(s, order)
    ensures var t := Service(c, Released(s, order), c.peak); Inv(c, t) && 0.0 <= t.used <= Rate(c)
  {
    var r := Released(s, order);
    ReleasedNumbered(s, order);
    ReleasedFlying(c, s, order);
    NotDueShorter(s.active, s.clock + 1);
    hide Owed, Numbered, Flying, PopOrder, Service, NotDue;
    ServiceFrame(c, r, c.peak);
    ServiceKeepsInv(c, s, r);
  }

  lemma {:induction false} NotDueShorter<T>(a: seq<Transit<T>>, now: int)
    ensures |NotDue(a, now)| <= |a|
  {
    if a != [] { NotDueShorter(a[..|a| - 1], now); }
  }

  lemma ServiceKeepsInv<T>(c: Config<T>, s: Queue<T>, r: Queue<T>)
    requires Owed(s.blocked, Rate(c), s.clock, 0.0)
    requires r.blocked == s.blocked && r.clock == s.clock + 1 && r.used == 0.0 && Numbered(r) && Flying(c, r)
    ensures var t := Service(c, r, c.peak);
            && Owed(t.blocked, Rate(c), t.clock, 0.0) && Numbered(t) && Flying(c, t) && 0.0 <= t.used <= Rate(c)
  {
    var t := Service(c, r, c.peak);
    ServiceFrame(c, r, c.peak);
    OwedLater(s.blocked, Rate(c), s.clock, 0.0);
    ServiceNumbered(c, r, c.peak);
    if c.peak > 0.0 {
      OwedRemaining(s.blocked, Rate(c), s.clock, 0.0);
      ServiceSpends(c, r, c.peak);
      ServiceOwed(c, r, c.peak);
      forall i | 0 <= i < |r.blocked| ensures r.blocked[i].stamp.arrived < r.clock && Known(r, r.blocked[i].stamp) {
        OwedPositive(s.blocked, Rate(c), s.clock, 0.0, i);
      }
      forall x | x in t.active
        ensures Timely(c, x) && Known(t, x.stamp) && x.injection <= t.clock < x.completion
      {
        if x !in r.active { ServiceTimely(c, r, c.peak, x); }
      }
    }
  }

  // Whole runs.

  datatype Event<T> = AddPacket(packet: T) | OnTick(order: seq<Transit<T>>) | Reset

  ghost predicate Enabled<T>(s: Queue<T>, e: Event<T>) {
    e.OnTick? ==> PopOrder(s, e.order)
  }

  function Apply<T>(c: Config<T>, s: Queue<T>, e: Event<T>): Queue<T>
    requires |s.hist| == WINDOW && s.idx < WINDOW
  {
    match e
    case AddPacket(p) => Add(c, s, p)
    case OnTick(order) => Tick(c, s, order)
    case Reset => Cleared(s)
  }

  /** A run from the empty queue: the states after each event. */
  ghost predicate IsRun<T>(c: Config<T>, states: seq<Queue<T>>, events: seq<Event<T>>) {
    && |states| == |events| + 1 && states[0] == Fresh()
    && forall i :: 0 <= i < |events| ==> Steps(c, states[i], events[i], states[i + 1])
  }

  ghost predicate Steps<T>(c: Config<T>, s: Queue<T>, e: Event<T>, t: Queue<T>) {
    |s.hist| == WINDOW && s.idx < WINDOW && Enabled(s, e) && t == Apply(c, s, e)
  }

  lemma StepKeeps<T>(c: Config<T>, s: Queue<T>, e: Event<T>, t: Queue<T>)
    requires Inv(c, s) && Steps(c, s, e, t)
    ensures Inv(c, t)
  {
    match e
    case AddPacket(p) => AddKeeps(c, s, p);
    case OnTick(order) => TickKeeps(c, s, order);
    case Reset => ResetKeeps(c, s);
  }

  lemma {:induction false} RunInv<T>(c: Config<T>, states: seq<Queue<T>>, events: seq<Event<T>>, i: nat)
    requires IsRun(c, states, events) && i < |states|
    ensures Inv(c, states[i])
  {
    if i == 0 {
      FreshInv(c);
    } else {
      RunInv(c, states, events, i - 1);
      hide Inv, Apply, Enabled;
      StepKeeps(c, states[i - 1], events[i - 1], states[i]);
    }
  }

  /** Where an accepted packet is. */
  ghost predicate Waits<T>(s: Queue<T>, p: Stamp<T>) { exists i :: 0 <= i < |s.blocked| && s.blocked[i].stamp == p }

  ghost predicate Flies<T>(s: Queue<T>, t: Transit<T>) { t in s.active }

  ghost predicate CameBack<T>(s: Queue<T>, t: Transit<T>) { Arrival(t, t.completion) in s.returned }

  /** At any moment of any run an accepted packet waits exactly while the rate has not covered its backlog;
    * otherwise it entered transit on the tick that covered it, and it is in flight until exactly its latency
    * later, when it was returned; and it is only ever in one place, once. */
  lemma RunDelayLaw<T>(c: Config<T>, states: seq<Queue<T>>, events: seq<Event<T>>, n: nat, id: nat)
    returns (t: Transit<T>)
    requires IsRun(c, states, events) && n < |states| && id < |states[n].accepted|
    ensures var s := states[n]; var p := s.accepted[id];
            && p.id == id
            && (Waits(s, p) <==> Sent(Rate(c), s.clock - p.arrived) < p.backlog)
            && (!Waits(s, p) ==>
                 && t.stamp == p && Timely(c, t) && t.injection <= s.clock
                 && (Flies(s, t) <==> s.clock < t.completion)
                 && (CameBack(s, t) <==> t.completion <= s.clock))
            && Times(s.active, id) + Landed(s.returned, id) == (if Waits(s, p) then 0 else 1)
  {
    RunInv(c, states, events, n);
    t := DelayLaw(c, states[n], id);
  }

  lemma DelayLaw<T>(c: Config<T>, s: Queue<T>, id: nat) returns (t: Transit<T>)
    requires Inv(c, s) && id < |s.accepted|
    ensures var p := s.accepted[id];
            && p.id == id
            && (Waits(s, p) <==> Sent(Rate(c), s.clock - p.arrived) < p.backlog)
            && (!Waits(s, p) ==>
                 && t.stamp == p && Timely(c, t) && t.injection <= s.clock
                 && (Flies(s, t) <==> s.clock < t.completion)
                 && (CameBack(s, t) <==> t.completion <= s.clock))
            && Times(s.active, id) + Landed(s.returned, id) == (if Waits(s, p) then 0 else 1)
  {
    var p := s.accepted[id];
    var first := |s.accepted| - |s.blocked|;
    if id >= first {
      assert s.blocked[id - first].stamp == p;
      OwedPositive(s.blocked, Rate(c), s.clock, 0.0, id - first);
      t := Transit(p, s.clock, s.clock, 0.0);
    } else {
      NotWaiting(s, id);
      t := Locate(c, s, id);
      SentMonotone(Rate(c), t.injection - p.arrived, s.clock - p.arrived);
    }
  }

  lemma NotWaiting<T>(s: Queue<T>, id: nat)
    requires Numbered(s) && id < |s.accepted| - |s.blocked|
    ensures !Waits(s, s.accepted[id])
  {
  }

  lemma SentMonotone(rate: real, m: int, n: int)
    requires rate >= 0.0 && m <= n
    ensures Sent(rate, m) <= Sent(rate, n)
  {
    assert Sent(rate, n) - Sent(rate, m) == rate * (n as real - m as real);
  }

  lemma Locate<T>(c: Config<T>, s: Queue<T>, id: nat) returns (t: Transit<T>)
    requires Inv(c, s) && id < |s.accepted| - |s.blocked|
    ensures t.stamp == s.accepted[id] && Timely(c, t) && t.injection <= s.clock
    ensures (Flies(s, t) <==> s.clock < t.completion) && (CameBack(s, t) <==> t.completion <= s.clock)
  {
    assert Times(s.active, id) + Landed(s.returned, id) == 1;
    if Times(s.active, id) > 0 {
      t := FindFlying(s.active, id);
    } else {
      var r := FindLanded(s.returned, id);
      t := r.entry;
    }
  }

  lemma {:induction false} FindFlying<T>(a: seq<Transit<T>>, k: int) returns (t: Transit<T>)
    requires Times(a, k) > 0
    ensures t in a && t.stamp.id == k
  {
    t := a[|a| - 1];
    if t.stamp.id != k { t := FindFlying(a[..|a| - 1], k); }
  }

  lemma {:induction false} FindLanded<T>(r: seq<Arrival<T>>, k: int) returns (x: Arrival<T>)
    requires Landed(r, k) > 0
    ensures x in r && x.entry.stamp.id == k
  {
    x := r[|r| - 1];
    if x.entry.stamp.id != k { x := FindLanded(r[..|r| - 1], k); }
  }

  /** In every reachable state a tick sends the smaller of rate and backlog, and no more than the rate. */
  lemma TickSpends<T>(c: Config<T>, s: Queue<T>, order: seq<Transit<T>>)
    requires Inv(c, s) && PopOrder(s, order)
    ensures var t := Tick(c, s, order);
            && t.used == Least(Rate(c), Backlog(s.blocked)) && 0.0 <= t.used <= Rate(c)
            && Backlog(t.blocked) == Backlog(s.blocked) - t.used
            && t.spent == s.spent + [Usage(Least(Rate(c), Backlog(s.blocked)), s.since)]
  {
    var r := Released(s, order);
    OwedRemaining(s.blocked, Rate(c), s.clock, 0.0);
    ServiceFrame(c, r, c.peak);
    if c.peak > 0.0 {
      ServiceSpends(c, r, c.peak);
    } else {
      ServiceSpends(c, r, 0.0);
    }
  }

  // The packets in the queue, as a multiset.

  function Waiting<T>(b: seq<Pending<T>>): (r: seq<T>)
    ensures |r| == |b|
  {
    seq(|b|, k requires 0 <= k < |b| => b[k].stamp.payload)
  }

  function Payloads<T>(a: seq<Transit<T>>): (r: seq<T>)
    ensures |r| == |a|
  {
    seq(|a|, k requires 0 <= k < |a| => a[k].stamp.payload)
  }

  ghost function Carried<T>(s: Queue<T>): multiset<T> {
    multiset(Waiting(s.blocked)) + multiset(Payloads(s.active))
  }

  lemma PayloadsAppend<T>(a: seq<Transit<T>>, t: Transit<T>)
    ensures Payloads(a + [t]) == Payloads(a) + [t.stamp.payload]
  {
  }

  lemma WaitingHead<T>(b: seq<Pending<T>>)
    requires b != []
    ensures Waiting(b) == [b[0].stamp.payload] + Waiting(b[1..])
    ensures multiset(Waiting(b)) == multiset{b[0].stamp.payload} + multiset(Waiting(b[1..]))
  {
    assert Waiting(b) == [b[0].stamp.payload] + Waiting(b[1..]);
  }

  lemma {:induction false} ServiceCarries<T>(c: Config<T>, s: Queue<T>, avail: real)
    ensures Carried(Service(c, s, avail)) == Carried(s)
    decreases |s.blocked|
  {
    if avail > 0.0 && s.blocked != [] {
      ServiceTurn(c, s, avail);
      hide Service, Utilization, Waiting, Payloads;
      var front := s.blocked[0];
      var send := Least(avail, front.remaining);
      if front.remaining - send <= 0.0 {
        WaitingHead(s.blocked);
        PayloadsAppend(s.active, Injected(c, s, front.stamp));
        ServiceCarries(c, s.(blocked := s.blocked[1..], active := s.active + [Injected(c, s, front.stamp)],
                             used := s.used + send), avail - send);
      } else {
        WaitingAlike(s.blocked, front.remaining - send);
      }
    }
  }

  lemma WaitingAlike<T>(b: seq<Pending<T>>, rest: real)
    requires b != []
    ensures Waiting(b[0 := b[0].(remaining := rest)]) == Waiting(b)
  {
  }

  lemma {:induction false} DuePayloads<T>(a: seq<Transit<T>>, now: int)
    ensures multiset(Payloads(a)) == multiset(Payloads(Due(a, now))) + multiset(Payloads(NotDue(a, now)))
  {
    if a != [] {
      var most, last := a[..|a| - 1], a[|a| - 1];
      DuePayloads(most, now);
      assert a == most + [last];
      PayloadsAppend(most, last);
      PayloadsAppend(Due(most, now), last);
      PayloadsAppend(NotDue(most, now), last);
      TimesAppend(Due(most, now), last, 0);
      TimesAppend(NotDue(most, now), last, 0);
    }
  }

  lemma {:induction false} PayloadsPermute<T>(a: seq<Transit<T>>, b: seq<Transit<T>>)
    requires multiset(a) == multiset(b)
    ensures multiset(Payloads(a)) == multiset(Payloads(b))
  {
    if a == [] {
      assert |multiset(b)| == |b|;
    } else {
      var last := a[|a| - 1];
      assert a == a[..|a| - 1] + [last];
      assert last in multiset(b);
      var i :| 0 <= i < |b| && b[i] == last;
      Without(a, b, i);
      PayloadsPermute(a[..|a| - 1], b[..i] + b[i + 1..]);
      PayloadsAppend(a[..|a| - 1], last);
      assert Payloads(b) == Payloads(b[..i]) + [last.stamp.payload] + Payloads(b[i + 1..]);
      assert Payloads(b[..i] + b[i + 1..]) == Payloads(b[..i]) + Payloads(b[i + 1..]);
    }
  }

  /** A tick hands out exactly the packets it no longer carries. */
  lemma TickCarries<T>(c: Config<T>, s: Queue<T>, order: seq<Transit<T>>)
    requires |s.hist| == WINDOW && s.idx < WINDOW && PopOrder(s, order)
    ensures Carried(Tick(c, s, order)) + multiset(Payloads(order)) == Carried(s)
  {
    var r := Released(s, order);
    DuePayloads(s.active, s.clock + 1);
    PayloadsPermute(order, Due(s.active, s.clock + 1));
    assert Carried(r) + multiset(Payloads(order)) == Carried(s);
    hide Service, Due, NotDue, PopOrder, Payloads, Waiting, Released;
    ServiceFrame(c, r, c.peak);
    ServiceCarries(c, r, c.peak);
  }

  lemma AddCarries<T>(c: Config<T>, s: Queue<T>, p: T)
    requires !Full(c, s)
    ensures Carried(Add(c, s, p)) == Carried(s) + multiset{p}
  {
    assert Waiting(Add(c, s, p).blocked) == Waiting(s.blocked) + [p];
  }

  // The loops.

  lemma {:induction false} DueConcat<T>(a: seq<Transit<T>>, b: seq<Transit<T>>, now: int)
    ensures Due(a + b, now) == Due(a, now) + Due(b, now) && NotDue(a + b, now) == NotDue(a, now) + NotDue(b, now)
  {
    if b == [] {
      assert a + b == a;
    } else {
      DueConcat(a, b[..|b| - 1], now);
      assert (a + b)[..|a + b| - 1] == a + b[..|b| - 1];
    }
  }

  lemma DueOne<T>(t: Transit<T>, now: int)
    requires t.completion <= now
    ensures Due([t], now) == [t] && NotDue([t], now) == []
  {
    assert [t][..0] == [];
  }

  lemma RemoveDue<T>(a: seq<Transit<T>>, i: nat, now: int)
    requires i < |a| && a[i].completion <= now
    ensures NotDue(a[..i] + a[i + 1..], now) == NotDue(a, now)
    ensures multiset(Due(a, now)) == multiset(Due(a[..i] + a[i + 1..], now)) + multiset{a[i]}
  {
    hide Due, NotDue;
    DueConcat(a[..i], a[i + 1..], now);
    DueConcat(a[..i] + [a[i]], a[i + 1..], now);
    DueConcat(a[..i], [a[i]], now);
    DueOne(a[i], now);
    assert a == a[..i] + [a[i]] + a[i + 1..];
    assert NotDue(a[..i], now) + [] == NotDue(a[..i], now);
  }

  /** One packet moves from those due to those popped. */
  lemma PopStep<T>(a: seq<Transit<T>>, i: nat, now: int, order: seq<Transit<T>>, all: multiset<Transit<T>>)
    requires i < |a| && a[i].completion <= now && multiset(order) + multiset(Due(a, now)) == all
    ensures NotDue(a[..i] + a[i + 1..], now) == NotDue(a, now)
    ensures multiset(order + [a[i]]) + multiset(Due(a[..i] + a[i + 1..], now)) == all
    ensures Payloads(order + [a[i]]) == Payloads(order) + [a[i].stamp.payload]
  {
    hide Due, NotDue;
    RemoveDue(a, i, now);
  }

  lemma {:induction false} NoneDue<T>(a: seq<Transit<T>>, now: int)
    requires forall i :: 0 <= i < |a| ==> a[i].completion > now
    ensures Due(a, now) == [] && NotDue(a, now) == a
  {
    if a != [] { NoneDue(a[..|a| - 1], now); }
  }

  lemma PopNothing<T>(a: seq<Transit<T>>, order: seq<Transit<T>>, now: int)
    requires order == []
    ensures Payloads(order) == [] && multiset(order) + multiset(Due(a, now)) == multiset(Due(a, now))
  {
  }

  lemma SameUtilization<T>(c: Config<T>, s: Queue<T>, t: Queue<T>)
    requires s.sum == t.sum
    ensures Utilization(c, s) == Utilization(c, t)
  {
  }

  lemma ServiceStops<T>(c: Config<T>, s: Queue<T>, avail: real)
    requires avail <= 0.0 || s.blocked == []
    ensures Service(c, s, avail) == s
  {
  }

  /** One turn of the transmitting loop, which sends the front packet whole or in part. */
  lemma ServiceTurn<T>(c: Config<T>, s: Queue<T>, avail: real)
    requires avail > 0.0 && s.blocked != []
    ensures var front, send := s.blocked[0], Least(avail, s.blocked[0].remaining);
            Service(c, s, avail)
            == if front.remaining - send <= 0.0 then
                 Service(c, s.(blocked := s.blocked[1..], active := s.active + [Injected(c, s, front.stamp)],
                               used := s.used + send), avail - send)
               else
                 s.(blocked := s.blocked[0 := Pending(front.stamp, front.remaining - send)], used := s.used + send)
  {
  }

  class BandwidthQueue<T(==)> {
    const c: Config<T>
    var clock: nat
    var blocked: seq<Pending<T>>
    var active: seq<Transit<T>>
    const hist: array<real>
    var idx: nat
    var sum: real
    var used: real
    var utilSum: real
    var samples: nat
    var accepted: seq<Stamp<T>>
    ghost var returned: seq<Arrival<T>>
    ghost var spent: seq<Usage>
    ghost var since: nat

    ghost predicate Valid()
      reads this
    {
      hist.Length == WINDOW && idx < WINDOW
    }

    ghost function View(): Queue<T>
      reads this, hist
    {
      Queue(clock, blocked, active, hist[..], idx, sum, used, utilSum, samples, accepted, returned, spent, since)
    }

    constructor (c: Config<T>)
      ensures Valid() && this.c == c && View() == Fresh() && fresh(hist)
    {
      this.c := c;
      clock, blocked, active, idx, sum, used, utilSum, samples := 0, [], [], 0, 0.0, 0.0, 0.0, 0;
      accepted := [];
      returned, spent, since := [], [], 0;
      hist := new real[WINDOW](_ => 0.0);
      new;
      assert hist[..] == seq(WINDOW, _ => 0.0);
    }

    method AddPacket(packet: T) returns (ok: bool)
      requires Valid()
      modifies this
      ensures Valid()
      ensures ok == !Full(c, old(View())) && View() == Add(c, old(View()), packet)
    {
      if c.maxPending > 0 && |blocked| + |active| >= c.maxPending { return false; }
      var bytes := match c.cost case Some(f) => f(packet) case None => 64.0;
      if bytes < 1.0 { bytes := 1.0; }
      var stamp := Stamp(packet, |accepted|, clock, Backlog(blocked) + bytes);
      blocked := blocked + [Pending(stamp, bytes)];
      accepted := accepted + [stamp];
      return true;
    }

    method GetUtilization() returns (u: real)
      requires Valid()
      ensures u == Utilization(c, View())
    {
      if c.peak <= 0.0 { return 0.0; }
      var denom := WINDOW as real * c.peak;
      u := sum / denom;
      u := if u < 0.0 then 0.0 else if 1.0 < u then 1.0 else u;
    }

    /** The top of the priority queue. */
    method Top() returns (k: nat)
      requires active != []
      ensures k < |active| && forall j :: 0 <= j < |active| ==> NoLater(active[k], active[j])
    {
      k := 0;
      for i: nat := 1 to |active|
        invariant k < |active| && forall j :: 0 <= j < i ==> NoLater(active[k], active[j])
      {
        if !NoLater(active[k], active[i]) { k := i; }
      }
    }

    method PopCompleted() returns (completed: seq<T>, ghost order: seq<Transit<T>>)
      modifies `active
      ensures active == NotDue(old(active), clock) && completed == Payloads(order)
      ensures multiset(order) == multiset(Due(old(active), clock))
      ensures forall i, j :: 0 <= i < j < |order| ==> NoLater(order[i], order[j])
    {
      hide Due, NotDue, Payloads;
      completed, order := [], [];
      PopNothing(active, order, clock);
      var top: nat := 0;
      if active != [] { top := Top(); }
      while active != [] && active[top].completion <= clock
        invariant active != [] ==> top < |active| && forall j :: 0 <= j < |active| ==> NoLater(active[top], active[j])
        invariant NotDue(active, clock) == NotDue(old(active), clock) && completed == Payloads(order)
        invariant multiset(order) + multiset(Due(active, clock)) == multiset(Due(old(active), clock))
        invariant forall i, j :: 0 <= i < j < |order| ==> NoLater(order[i], order[j])
        invariant forall i, j :: 0 <= i < |order| && 0 <= j < |active| ==> NoLater(order[i], active[j])
        decreases |active|
      {
        PopStep(active, top, clock, order, multiset(Due(old(active), clock)));
        completed := completed + [active[top].stamp.payload];
        order := order + [active[top]];
        active := active[..top] + active[top + 1..];
        if active != [] { top := Top(); }
      }
      NoneDue(active, clock);
    }

    method InjectFront()
      requires Valid() && blocked != []
      modifies `blocked, `active
      ensures active == old(active) + [Injected(c, old(View()), old(blocked)[0].stamp)] && blocked == old(blocked)[1..]
    {
      var load := GetUtilization();
      var flight := c.latency(load);
      active := active + [Transit(blocked[0].stamp, clock, clock + (if flight < 1 then 1 else flight), load)];
      blocked := blocked[1..];
    }

    method ServiceBandwidth()
      requires Valid()
      modifies `blocked, `active, `used
      ensures View() == Service(c, old(View()).(used := 0.0), c.peak)
    {
      used := 0.0;
      var avail := c.peak;
      if avail <= 0.0 { return; }
      ghost var start, goal := View(), Service(c, View(), avail);
      hide Service, Utilization;
      while avail > 0.0 && blocked != []
        invariant Service(c, start.(blocked := blocked, active := active, used := used), avail) == goal
        decreases |blocked|
      {
        ghost var now := start.(blocked := blocked, active := active, used := used);
        ServiceTurn(c, now, avail);
        var front := blocked[0];
        var send := if front.remaining < avail then front.remaining else avail;
        var remaining := front.remaining - send;
        avail := avail - send;
        used := used + send;
        if remaining <= 0.0 {
          SameUtilization(c, now, View());
          InjectFront();
        } else {
          blocked := blocked[0 := Pending(front.stamp, remaining)];
          return;
        }
      }
      ServiceStops(c, View(), avail);
    }

    method OnTick() returns (completed: seq<T>, ghost order: seq<Transit<T>>)
      requires Valid()
      modifies this, hist
      ensures Valid() && completed == Payloads(order)
      ensures PopOrder(old(View()), order) && View() == Tick(c, old(View()), order)
    {
      hide Service, Due, NotDue, Utilization, NoLater;
      clock := clock + 1;
      completed, order := PopCompleted();
      returned := returned + Arrivals(order, clock);
      ServiceFrame(c, Released(old(View()), order), c.peak);
      ServiceBandwidth();
      RecordHistory();
    }

    method RecordHistory()
      requires Valid()
      modifies `sum, `idx, `utilSum, `samples, `spent, hist
      ensures Valid() && View() == Record(c, old(View()))
    {
      hide Utilization;
      sum := sum - hist[idx];
      hist[idx] := used;
      sum := sum + hist[idx];
      idx := (idx + 1) % WINDOW;
      spent := spent + [Usage(used, since)];
      var util := GetUtilization();
      utilSum := utilSum + util;
      samples := samples + 1;
    }

    method ResetUtilization()
      requires Valid()
      modifies this, hist
      ensures Valid() && View() == Cleared(old(View()))
    {
      utilSum, samples := 0.0, 0;
      forall k | 0 <= k < WINDOW { hist[k] := 0.0; }
      assert hist[..] == seq(WINDOW, _ => 0.0);
      sum, used := 0.0, 0.0;
      since := clock;
    }

    /** The average never leaves [0, 1]. */
    method AverageUtilization() returns (u: real)
      requires Measured(c, View())
      ensures 0.0 <= u <= 1.0 && u * samples as real == if samples == 0 then 0.0 else utilSum
    {
      if samples == 0 { return 0.0; }
      Quotient(utilSum, samples as real);
      u := utilSum / samples as real;
    }
  }
}
