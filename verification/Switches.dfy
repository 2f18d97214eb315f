/** The routing of switch.cc. */
module Switches {
  import opened FabricPorts
  import opened LatBwQueue
  import opened Counting

  const WRITE: nat := 3

  datatype SwitchConfig = SwitchConfig(link: PortConfig, nodes: nat, pools: nat, base: nat, replicate: bool,
    fixed0: bool)

  /** `picks` lists the pools the selection policy has chosen. */
  datatype Switch = Switch(nodes: seq<Port>, pools: seq<Port>, rr: nat, replicated: nat, picks: seq<nat>)

  /** An exception, an attempt to be repeated later, or the state after routing. */
  datatype Outcome = Failed | Refused | Routed(after: Switch)

  predicate Valid(c: SwitchConfig, s: Switch) {
    && c.nodes > 0 && c.pools > 0 && c.base >= c.nodes
    && |s.nodes| == c.nodes && |s.pools| == c.pools && s.rr < c.pools
  }

  function WriteCode(ev: Message): nat
    requires |ev.payload| > 10
  {
    ev.payload[10] % 0x1_0000_0000
  }

  predicate IsWrite(ev: Message) { |ev.payload| > 10 && WriteCode(ev) == WRITE }

  function Readdressed(ev: Message, dst: nat): Message {
    if |ev.payload| >= 2 then Message(ev.payload[1 := dst]) else ev
  }

  function ResetMessage(c: SwitchConfig, p: nat): Message { Message([BROADCAST, c.base + p, RESET_UTIL]) }

  function Quiet(p: Port): Port { p.(ingress := Cleared(p.ingress)) }

  predicate AllOpen(c: SwitchConfig, pools: seq<Port>) {
    forall p :: 0 <= p < |pools| ==> CanSend(c.link, pools[p])
  }

  function Place(rr: nat, k: nat, n: nat): (p: nat)
    requires n > 0
    ensures p < n
  {
    (rr + k) % n
  }

  /** The first pool at or after the pointer, going round, that can take a message; |pools| when none can. */
  function FirstOpen(c: SwitchConfig, pools: seq<Port>, rr: nat, offset: nat): (k: nat)
    requires pools != []
    ensures k <= |pools| && (k < |pools| ==> CanSend(c.link, pools[k]))
    decreases |pools| - offset
  {
    if offset >= |pools| then |pools|
    else if CanSend(c.link, pools[Place(rr, offset, |pools|)]) then Place(rr, offset, |pools|)
    else FirstOpen(c, pools, rr, offset + 1)
  }

  function Pick(c: SwitchConfig, s: Switch): nat
    requires Valid(c, s)
  {
    if c.fixed0 then 0 else FirstOpen(c, s.pools, s.rr, 0)
  }

  function ToPools(c: SwitchConfig, pools: seq<Port>, copy: nat -> Message): (r: seq<Port>)
    ensures |r| == |pools|
  {
    seq(|pools|, p requires 0 <= p < |pools| => Enqueued(c.link, pools[p], copy(p)))
  }

  function Quieted(ports: seq<Port>): (r: seq<Port>)
    ensures |r| == |ports|
  {
    seq(|ports|, p requires 0 <= p < |ports| => Quiet(ports[p]))
  }

  function TryRoute(c: SwitchConfig, s: Switch, ev: Message): Outcome
    requires Valid(c, s)
  {
    if |ev.payload| < 2 then Failed
    else if IsReset(ev) then
      if !AllOpen(c, s.pools) then Refused
      else Routed(s.(nodes := Quieted(s.nodes), pools := ToPools(c, Quieted(s.pools), (p: nat) => ResetMessage(c, p))))
    else
      var dst := ev.payload[1];
      if dst < c.nodes then
        if !CanSend(c.link, s.nodes[dst]) then Refused
        else Routed(s.(nodes := s.nodes[dst := Enqueued(c.link, s.nodes[dst], ev)]))
      else if dst < c.base || dst - c.base >= c.pools then Failed
      else if c.replicate && IsWrite(ev) then
        if !AllOpen(c, s.pools) then Refused
        else Routed(s.(pools := ToPools(c, s.pools, (p: nat) => Readdressed(ev, c.base + p)),
                       replicated := s.replicated + c.pools))
      else
        var pick := Pick(c, s);
        if pick >= c.pools || !CanSend(c.link, s.pools[pick]) then Refused
        else
          Routed(s.(pools := s.pools[pick := Enqueued(c.link, s.pools[pick], Readdressed(ev, c.base + pick))],
                    rr := if c.fixed0 then s.rr else (pick + 1) % c.pools, picks := s.picks + [pick]))
  }

  // Routing is all or nothing.

  ghost predicate ForNode(c: SwitchConfig, ev: Message) {
    |ev.payload| >= 2 && !IsReset(ev) && ev.payload[1] < c.nodes
  }

  ghost predicate ForPools(c: SwitchConfig, ev: Message) {
    |ev.payload| >= 2 && !IsReset(ev) && c.base <= ev.payload[1] < c.base + c.pools
  }

  /** Goes to every pool. */
  ghost predicate ForAllPools(c: SwitchConfig, ev: Message) {
    (|ev.payload| >= 2 && IsReset(ev)) || (ForPools(c, ev) && c.replicate && IsWrite(ev))
  }

  /** The copies a port is given by a routed message: one, or none. */
  ghost predicate Gains(before: Port, after: Port, copies: seq<Message>) {
    after.egress == before.egress + copies && after.offered == before.offered + copies && after.ready == before.ready
    && after.credits == before.credits
  }

  function Copy(c: SwitchConfig, ev: Message, p: nat): Message {
    if IsReset(ev) then ResetMessage(c, p) else Readdressed(ev, c.base + p)
  }

  lemma {:induction false} FirstOpenFinds(c: SwitchConfig, pools: seq<Port>, rr: nat, offset: nat)
    requires pools != [] && rr < |pools|
    requires forall k: nat :: k < offset ==> !CanSend(c.link, pools[Place(rr, k, |pools|)])
    ensures FirstOpen(c, pools, rr, offset) == |pools| <==> forall p :: 0 <= p < |pools| ==> !CanSend(c.link, pools[p])
    decreases |pools| - offset
  {
    if offset >= |pools| {
      forall p | 0 <= p < |pools| ensures !CanSend(c.link, pools[p]) {
        var k := if p >= rr then p - rr else p + |pools| - rr;
        Wraps(rr, k, |pools|, p);
        assert !CanSend(c.link, pools[Place(rr, k, |pools|)]);
      }
    } else if !CanSend(c.link, pools[Place(rr, offset, |pools|)]) {
      FirstOpenFinds(c, pools, rr, offset + 1);
    }
  }

  lemma Wraps(rr: nat, k: nat, n: nat, p: nat)
    requires rr < n && p < n && (rr + k == p || rr + k == p + n)
    ensures Place(rr, k, n) == p
  {
    if rr + k == p + n {
      var q := (p + n) / n;
      assert p + n == q * n + (p + n) % n;
      assert q <= 0 ==> q * n <= 0;
      assert q >= 2 ==> q * n >= 2 * n;
    }
  }

  /** How far a pool lies behind the pointer, going round. */
  function Distance(rr: nat, p: nat, n: nat): int { if rr <= p then p - rr else p + n - rr }

  lemma {:induction false} FirstOpenNearest(c: SwitchConfig, pools: seq<Port>, rr: nat, offset: nat)
    requires pools != [] && rr < |pools|
    requires forall q :: 0 <= q < |pools| && Distance(rr, q, |pools|) < offset ==> !CanSend(c.link, pools[q])
    ensures var p := FirstOpen(c, pools, rr, offset);
            p < |pools| ==> forall q :: 0 <= q < |pools| && Distance(rr, q, |pools|) < Distance(rr, p, |pools|) ==>
                              !CanSend(c.link, pools[q])
    decreases |pools| - offset
  {
    if offset < |pools| {
      var p := if rr + offset < |pools| then rr + offset else rr + offset - |pools|;
      Wraps(rr, offset, |pools|, p);
      if !CanSend(c.link, pools[p]) { FirstOpenNearest(c, pools, rr, offset + 1); }
    }
  }

  lemma PickIs(c: SwitchConfig, s: Switch, ev: Message)
    requires Valid(c, s) && TryRoute(c, s, ev).Routed? && ForPools(c, ev) && !ForAllPools(c, ev)
    ensures var t, p := TryRoute(c, s, ev).after, Pick(c, s);
            && p < c.pools && CanSend(c.link, s.pools[p])
            && t.picks == s.picks + [p] && t.rr == if c.fixed0 then s.rr else (p + 1) % c.pools
  {
    hide FirstOpen, Enqueued, Readdressed, CanSend;
  }

  /** A message that goes to one pool goes to pool 0 under the fixed policy, and otherwise to the open pool nearest
    * behind the pointer, which then stands just behind that one. */
  lemma PicksNearest(c: SwitchConfig, s: Switch, ev: Message)
    requires Valid(c, s) && TryRoute(c, s, ev).Routed? && ForPools(c, ev) && !ForAllPools(c, ev)
    ensures var t := TryRoute(c, s, ev).after;
            && |t.picks| == |s.picks| + 1
            && var p := t.picks[|s.picks|];
               && p < c.pools && CanSend(c.link, s.pools[p])
               && (c.fixed0 ==> p == 0 && t.rr == s.rr)
               && (!c.fixed0 ==>
                    && t.rr == (if p + 1 == c.pools then 0 else p + 1)
                    && forall q :: 0 <= q < c.pools && Distance(s.rr, q, c.pools) < Distance(s.rr, p, c.pools) ==>
                         !CanSend(c.link, s.pools[q]))
  {
    PickIs(c, s, ev);
    hide TryRoute, CanSend, FirstOpen, ForPools, ForAllPools;
    if !c.fixed0 {
      FirstOpenNearest(c, s.pools, s.rr, 0);
      Turns(Pick(c, s), c.pools);
    }
  }

  lemma Turns(p: nat, n: nat)
    requires p < n
    ensures (p + 1) % n == if p + 1 == n then 0 else p + 1
  {
  }

  /** A message is refused exactly when a port it needs is full: its node's, every pool's when it must go to all,
    * pool 0's under the fixed policy, and otherwise all pools'. */
  lemma RefusedExactly(c: SwitchConfig, s: Switch, ev: Message)
    requires Valid(c, s)
    ensures TryRoute(c, s, ev).Failed? <==> !ForNode(c, ev) && !ForPools(c, ev) && !ForAllPools(c, ev)
    ensures ForNode(c, ev) ==> (TryRoute(c, s, ev).Refused? <==> !CanSend(c.link, s.nodes[ev.payload[1]]))
    ensures ForAllPools(c, ev) ==>
      (TryRoute(c, s, ev).Refused? <==> exists p :: 0 <= p < c.pools && !CanSend(c.link, s.pools[p]))
    ensures ForPools(c, ev) && !ForAllPools(c, ev) ==>
      (TryRoute(c, s, ev).Refused? <==>
        if c.fixed0 then !CanSend(c.link, s.pools[0])
        else forall p :: 0 <= p < c.pools ==> !CanSend(c.link, s.pools[p]))
  {
    FirstOpenFinds(c, s.pools, s.rr, 0);
  }

  /** A routed message reaches its node once, or one pool once, or every pool once; no other port gains anything,
    * and a message for a pool carries that pool's address. */
  lemma RoutedDelivers(c: SwitchConfig, s: Switch, ev: Message)
    requires Valid(c, s) && TryRoute(c, s, ev).Routed?
    ensures var t := TryRoute(c, s, ev).after;
            && Valid(c, t)
            && (ForNode(c, ev) ==>
                 && t.pools == s.pools
                 && forall k :: 0 <= k < c.nodes ==>
                      Gains(s.nodes[k], t.nodes[k], if k == ev.payload[1] then [ev] else []))
            && (ForAllPools(c, ev) ==>
                 && (forall k :: 0 <= k < c.nodes ==> Gains(s.nodes[k], t.nodes[k], []))
                 && (forall p :: 0 <= p < c.pools ==> Gains(s.pools[p], t.pools[p], [Copy(c, ev, p)])))
            && (ForPools(c, ev) && !ForAllPools(c, ev) ==>
                 && t.nodes == s.nodes && |t.picks| == |s.picks| + 1 && t.picks[|s.picks|] < c.pools
                 && forall p :: 0 <= p < c.pools ==>
                      Gains(s.pools[p], t.pools[p], if p == t.picks[|s.picks|] then [Copy(c, ev, p)] else []))
  {
    if ForNode(c, ev) {
      forall k | 0 <= k < c.nodes ensures Gains(s.nodes[k], s.nodes[k], []) { GainsNothing(s.nodes[k]); }
    } else if ForAllPools(c, ev) {
      AllDelivered(c, s, ev);
    } else {
      OneDelivered(c, s, ev);
    }
  }

  lemma AllDelivered(c: SwitchConfig, s: Switch, ev: Message)
    requires Valid(c, s) && TryRoute(c, s, ev).Routed? && ForAllPools(c, ev)
    ensures var t := TryRoute(c, s, ev).after;
            && (forall k :: 0 <= k < c.nodes ==> Gains(s.nodes[k], t.nodes[k], []))
            && (forall p :: 0 <= p < c.pools ==> Gains(s.pools[p], t.pools[p], [Copy(c, ev, p)]))
  {
    var t := TryRoute(c, s, ev).after;
    forall k | 0 <= k < c.nodes ensures Gains(s.nodes[k], t.nodes[k], []) {
      if IsReset(ev) { assert t.nodes[k] == Quiet(s.nodes[k]); } else { assert t.nodes[k] == s.nodes[k]; }
      GainsNothing(s.nodes[k]);
    }
    forall p | 0 <= p < c.pools ensures Gains(s.pools[p], t.pools[p], [Copy(c, ev, p)]) {
      assert CanSend(c.link, s.pools[p]) && CanSend(c.link, Quiet(s.pools[p]));
      assert t.pools[p] == Enqueued(c.link, if IsReset(ev) then Quiet(s.pools[p]) else s.pools[p], Copy(c, ev, p));
    }
  }

  lemma OneDelivered(c: SwitchConfig, s: Switch, ev: Message)
    requires Valid(c, s) && TryRoute(c, s, ev).Routed? && ForPools(c, ev) && !ForAllPools(c, ev)
    ensures var t := TryRoute(c, s, ev).after;
            && t.nodes == s.nodes && |t.picks| == |s.picks| + 1 && t.picks[|s.picks|] < c.pools
            && forall p :: 0 <= p < c.pools ==>
                 Gains(s.pools[p], t.pools[p], if p == t.picks[|s.picks|] then [Copy(c, ev, p)] else [])
  {
    var t := TryRoute(c, s, ev).after;
    var pick := Pick(c, s);
    assert t.picks[|s.picks|] == pick;
    forall p | 0 <= p < c.pools
      ensures Gains(s.pools[p], t.pools[p], if p == pick then [Copy(c, ev, p)] else [])
    {
      GainsNothing(s.pools[p]);
    }
  }

  lemma GainsNothing(p: Port)
    ensures Gains(p, p, []) && Gains(p, Quiet(p), [])
  {
  }

  /** No egress queue ever grows past its bound. */
  ghost predicate Bounded(c: SwitchConfig, s: Switch) {
    c.link.queueSize > 0 ==>
      && (forall k :: 0 <= k < |s.nodes| ==> |s.nodes[k].egress| <= c.link.queueSize)
      && (forall p :: 0 <= p < |s.pools| ==> |s.pools[p].egress| <= c.link.queueSize)
  }

  // Replicated writes.

  function Writes(w: seq<Message>): seq<Message> {
    if w == [] then []
    else Writes(w[..|w| - 1]) + if IsWrite(w[|w| - 1]) then [Readdressed(w[|w| - 1], 0)] else []
  }

  lemma WritesAppend(w: seq<Message>, ev: Message)
    ensures Writes(w + [ev]) == Writes(w) + if IsWrite(ev) then [Readdressed(ev, 0)] else []
  {
    assert (w + [ev])[..|w|] == w;
  }

  /** Apart from the address, all pools have been given the same writes in the same order. */
  ghost predicate Alike(s: Switch) {
    forall p, q :: 0 <= p < |s.pools| && 0 <= q < |s.pools| ==>
      Writes(s.pools[p].offered) == Writes(s.pools[q].offered)
  }

  lemma RouteKeepsAlike(c: SwitchConfig, s: Switch, ev: Message)
    requires Valid(c, s) && c.replicate && Alike(s) && TryRoute(c, s, ev).Routed?
    ensures Alike(TryRoute(c, s, ev).after)
  {
    var t := TryRoute(c, s, ev).after;
    RoutedDelivers(c, s, ev);
    RefusedExactly(c, s, ev);
    var given := if ForAllPools(c, ev) && !IsReset(ev) then [Readdressed(ev, 0)] else [];
    forall p | 0 <= p < c.pools ensures Writes(t.pools[p].offered) == Writes(s.pools[p].offered) + given {
      PoolGains(c, s, t, ev, p, given);
    }
  }

  lemma PoolGains(c: SwitchConfig, s: Switch, t: Switch, ev: Message, p: nat, given: seq<Message>)
    requires Valid(c, s) && Valid(c, t) && c.replicate && p < c.pools
    requires given == if ForAllPools(c, ev) && !IsReset(ev) then [Readdressed(ev, 0)] else []
    requires t.pools == s.pools || Gains(s.pools[p], t.pools[p], [])
             || (Gains(s.pools[p], t.pools[p], [Copy(c, ev, p)]) && (ForAllPools(c, ev) || !IsWrite(ev)))
    requires ForAllPools(c, ev) ==> Gains(s.pools[p], t.pools[p], [Copy(c, ev, p)])
    ensures Writes(t.pools[p].offered) == Writes(s.pools[p].offered) + given
  {
    assert s.pools[p].offered + [] == s.pools[p].offered;
    assert Writes(s.pools[p].offered) + [] == Writes(s.pools[p].offered);
    WritesAppend(s.pools[p].offered, Copy(c, ev, p));
    CopyErased(c, ev, p);
  }

  /** A copy is a write just when the routed message is one, and differs from it in the address only. */
  lemma CopyErased(c: SwitchConfig, ev: Message, p: nat)
    ensures IsReset(ev) ==> !IsWrite(Copy(c, ev, p))
    ensures !IsReset(ev) ==>
      IsWrite(Copy(c, ev, p)) == IsWrite(ev) && Readdressed(Copy(c, ev, p), 0) == Readdressed(ev, 0)
  {
    if !IsReset(ev) && |ev.payload| >= 2 {
      assert ev.payload[1 := c.base + p][1 := 0] == ev.payload[1 := 0];
    }
  }

  // Round robin.

  /** How far p is ahead of r, going round n places. */
  function Ahead(p: nat, r: nat, n: nat): int
    requires p < n && r < n
  {
    if p >= r then p - r else p + n - r
  }

  /** The pointer after m turns from r, and the places it visited. */
  function Turn(r: nat, m: nat, n: nat): (k: nat)
    requires r < n
    ensures k < n
  {
    if m == 0 then r else (Turn(r, m - 1, n) + 1) % n
  }

  function Cycle(r: nat, m: nat, n: nat): (s: seq<nat>)
    requires r < n
    ensures |s| == m
  {
    if m == 0 then [] else Cycle(r, m - 1, n) + [Turn(r, m - 1, n)]
  }

  /** Every place is visited b or b + 1 times: once more the places the pointer has passed in this round. */
  lemma {:induction false} CycleIsFair(r: nat, m: nat, n: nat) returns (b: nat)
    requires r < n
    ensures forall p: nat :: p < n ==>
      Count(Cycle(r, m, n), p) == b + if Ahead(p, r, n) < Ahead(Turn(r, m, n), r, n) then 1 else 0
  {
    b := 0;
    if m > 0 {
      b := CycleIsFair(r, m - 1, n);
      var last := Turn(r, m - 1, n);
      var shorter := Cycle(r, m - 1, n);
      assert (shorter + [last])[..m - 1] == shorter;
      NextPlace(last, n);
      if Ahead(last, r, n) == n - 1 { b := b + 1; }
    }
  }

  lemma NextPlace(k: nat, n: nat)
    requires k < n
    ensures (k + 1) % n == if k + 1 == n then 0 else k + 1
  {
  }

  /** While every pool can accept, a pick takes the pool at the pointer and moves it on by one. */
  lemma PickTurns(c: SwitchConfig, s: Switch, ev: Message)
    requires Valid(c, s) && !c.fixed0 && CanSend(c.link, s.pools[s.rr])
    requires ForPools(c, ev) && !ForAllPools(c, ev)
    ensures TryRoute(c, s, ev).Routed?
    ensures var t := TryRoute(c, s, ev).after; t.picks == s.picks + [s.rr] && t.rr == (s.rr + 1) % c.pools
  {
    Wraps(s.rr, 0, c.pools, s.rr);
  }

  // Whole runs.

  /** A message is routed, or a port does anything else: its queue is drained, it is polled, credits arrive. */
  datatype Event = Route(ev: Message) | Other(nodes: seq<Port>, pools: seq<Port>)

  /** Nothing but routing adds to an egress queue. */
  ghost predicate Drains(before: seq<Port>, after: seq<Port>) {
    |before| == |after|
    && forall k :: 0 <= k < |before| ==>
         after[k].offered == before[k].offered && |after[k].egress| <= |before[k].egress|
  }

  ghost predicate Enabled(s: Switch, e: Event) {
    e.Other? ==> Drains(s.nodes, e.nodes) && Drains(s.pools, e.pools)
  }

  function Apply(c: SwitchConfig, s: Switch, e: Event): Switch
    requires Valid(c, s)
  {
    match e
    case Route(ev) => (match TryRoute(c, s, ev) case Routed(t) => t case _ => s)
    case Other(nodes, pools) => s.(nodes := nodes, pools := pools)
  }

  ghost predicate Steps(c: SwitchConfig, s: Switch, e: Event, t: Switch) {
    Valid(c, s) && Enabled(s, e) && t == Apply(c, s, e)
  }

  ghost predicate IsRun(c: SwitchConfig, states: seq<Switch>, events: seq<Event>) {
    && |states| == |events| + 1 && Valid(c, states[0])
    && forall i :: 0 <= i < |events| ==> Steps(c, states[i], events[i], states[i + 1])
  }

  ghost predicate Initial(s: Switch) {
    s.rr == 0 && s.picks == [] && s.replicated == 0
    && (forall k :: 0 <= k < |s.nodes| ==> s.nodes[k].offered == [] && s.nodes[k].egress == [])
    && (forall p :: 0 <= p < |s.pools| ==> s.pools[p].offered == [] && s.pools[p].egress == [])
  }

  ghost predicate Inv(c: SwitchConfig, s: Switch) {
    Valid(c, s) && Bounded(c, s) && (c.replicate ==> Alike(s))
  }

  lemma RouteKeeps(c: SwitchConfig, s: Switch, ev: Message)
    requires Inv(c, s) && TryRoute(c, s, ev).Routed?
    ensures Inv(c, TryRoute(c, s, ev).after)
  {
    RoutedDelivers(c, s, ev);
    RouteBounded(c, s, ev);
    if c.replicate { RouteKeepsAlike(c, s, ev); }
  }

  lemma RouteBounded(c: SwitchConfig, s: Switch, ev: Message)
    requires Valid(c, s) && Bounded(c, s) && TryRoute(c, s, ev).Routed?
    ensures Bounded(c, TryRoute(c, s, ev).after)
  {
    var t := TryRoute(c, s, ev).after;
    if c.link.queueSize > 0 {
      forall k | 0 <= k < c.nodes ensures |t.nodes[k].egress| <= c.link.queueSize {
        assert t.nodes[k] == s.nodes[k] || t.nodes[k] == Quiet(s.nodes[k])
               || t.nodes[k] == Enqueued(c.link, s.nodes[k], ev);
      }
      forall p | 0 <= p < c.pools ensures |t.pools[p].egress| <= c.link.queueSize {
        assert CanSend(c.link, Quiet(s.pools[p])) == CanSend(c.link, s.pools[p]);
        assert t.pools[p] == s.pools[p]
               || t.pools[p] == Enqueued(c.link, if IsReset(ev) then Quiet(s.pools[p]) else s.pools[p], Copy(c, ev, p));
      }
    }
  }

  lemma StepKeeps(c: SwitchConfig, s: Switch, e: Event, t: Switch)
    requires Inv(c, s) && Steps(c, s, e, t)
    ensures Inv(c, t)
  {
    match e
    case Route(ev) =>
      hide Bounded, Alike, TryRoute;
      if TryRoute(c, s, ev).Routed? { RouteKeeps(c, s, ev); }
    case Other(nodes, pools) =>
  }

  /** In every run from empty queues no egress queue exceeds its bound, and with replication every pool has been
    * given exactly the same writes in the same order. */
  lemma {:induction false} RunReplicatesAlike(c: SwitchConfig, states: seq<Switch>, events: seq<Event>, i: nat)
    requires IsRun(c, states, events) && Initial(states[0]) && i < |states|
    ensures Valid(c, states[i]) && Bounded(c, states[i]) && (c.replicate ==> Alike(states[i]))
  {
    if i > 0 {
      RunReplicatesAlike(c, states, events, i - 1);
      assert Steps(c, states[i - 1], events[i - 1], states[i]);
      hide Bounded, Alike, Apply, Enabled;
      StepKeeps(c, states[i - 1], events[i - 1], states[i]);
    }
  }

  /** The event has a pool chosen for a message. */
  ghost predicate Picks(c: SwitchConfig, e: Event) { e.Route? && ForPools(c, e.ev) && !ForAllPools(c, e.ev) }

  /** Whether the pool at the pointer can accept whenever a pool is to be chosen. */
  ghost predicate AlwaysOpen(c: SwitchConfig, states: seq<Switch>, events: seq<Event>) {
    |events| < |states| && forall i :: 0 <= i < |events| && Picks(c, events[i]) ==> PointerOpen(c, states[i])
  }

  ghost predicate PointerOpen(c: SwitchConfig, s: Switch) { Valid(c, s) && CanSend(c.link, s.pools[s.rr]) }

  lemma {:induction false} RunCycles(c: SwitchConfig, states: seq<Switch>, events: seq<Event>, i: nat) returns (m: nat)
    requires IsRun(c, states, events) && AlwaysOpen(c, states, events) && !c.fixed0 && i < |states|
    ensures Valid(c, states[i]) && states[i].picks == states[0].picks + Cycle(states[0].rr, m, c.pools)
    ensures states[i].rr == Turn(states[0].rr, m, c.pools)
  {
    m := 0;
    if i > 0 {
      m := RunCycles(c, states, events, i - 1);
      assert Steps(c, states[i - 1], events[i - 1], states[i]);
      m := StepCycles(c, states[0], states[i - 1], events[i - 1], m);
    }
  }

  lemma StepCycles(c: SwitchConfig, z: Switch, s: Switch, e: Event, m: nat) returns (n: nat)
    requires Valid(c, z) && Valid(c, s) && Enabled(s, e) && !c.fixed0 && (Picks(c, e) ==> PointerOpen(c, s))
    requires s.picks == z.picks + Cycle(z.rr, m, c.pools) && s.rr == Turn(z.rr, m, c.pools)
    ensures var t := Apply(c, s, e);
            && Valid(c, t) && t.picks == z.picks + Cycle(z.rr, n, c.pools) && t.rr == Turn(z.rr, n, c.pools)
  {
    n := m;
    if e.Route? {
      if ForPools(c, e.ev) && !ForAllPools(c, e.ev) {
        PickTurns(c, s, e.ev);
        n := m + 1;
        CycleMore(z.picks, z.rr, m, c.pools);
        hide TryRoute, ForPools, ForAllPools, Cycle, Turn;
      } else {
        OthersTurnNothing(c, s, e.ev);
        hide TryRoute;
      }
    }
  }

  lemma CycleMore(picks: seq<nat>, r: nat, m: nat, n: nat)
    requires r < n
    ensures picks + Cycle(r, m + 1, n) == (picks + Cycle(r, m, n)) + [Turn(r, m, n)]
    ensures Turn(r, m + 1, n) == (Turn(r, m, n) + 1) % n
  {
  }

  lemma OthersTurnNothing(c: SwitchConfig, s: Switch, ev: Message)
    requires Valid(c, s) && (!ForPools(c, ev) || ForAllPools(c, ev))
    ensures var t := Apply(c, s, Route(ev)); Valid(c, t) && t.picks == s.picks && t.rr == s.rr
  {
  }

  /** Over any stretch in which the pool at the pointer could accept each time one was to be chosen, the pools have been
    * picked equally often, up to one. */
  lemma RunIsFair(c: SwitchConfig, states: seq<Switch>, events: seq<Event>, p: nat, q: nat)
    requires IsRun(c, states, events) && AlwaysOpen(c, states, events) && !c.fixed0 && p < c.pools && q < c.pools
    ensures var before, after := states[0].picks, states[|events|].picks;
            (Count(after, p) - Count(before, p)) - (Count(after, q) - Count(before, q)) <= 1
  {
    var m := RunCycles(c, states, events, |events|);
    var b := CycleIsFair(states[0].rr, m, c.pools);
    CountConcat(states[0].picks, Cycle(states[0].rr, m, c.pools), p);
    CountConcat(states[0].picks, Cycle(states[0].rr, m, c.pools), q);
  }

  class CxlSwitch {
    const c: SwitchConfig
    var nodes: seq<Port>
    var pools: seq<Port>
    var rr: nat
    var replicated: nat
    var picks: seq<nat>
    /** Messages deleted because a port would not take them. */
    var dropped: nat

    ghost function View(): Switch
      reads this
    {
      Switch(nodes, pools, rr, replicated, picks)
    }

    /** Port p of a list takes a message, or the message is dropped. */
    method SendToPool(p: nat, ev: Message)
      requires p < |pools|
      modifies `pools, `dropped
      ensures pools == old(pools)[p := Enqueued(c.link, old(pools)[p], ev)]
      ensures dropped == old(dropped) + if CanSend(c.link, old(pools)[p]) then 0 else 1
    {
      if CanSend(c.link, pools[p]) {
        pools := pools[p := Enqueued(c.link, pools[p], ev)];
      } else {
        dropped := dropped + 1;
      }
    }

    method PoolsOpen() returns (open: bool)
      ensures open == AllOpen(c, pools)
    {
      for p := 0 to |pools|
        invariant forall q :: 0 <= q < p ==> CanSend(c.link, pools[q])
      {
        if !CanSend(c.link, pools[p]) { return false; }
      }
      return true;
    }

    method PickPoolIndex() returns (pick: nat)
      requires Valid(c, View())
      modifies `rr
      ensures pick == Pick(c, old(View()))
      ensures rr == if pick < |pools| && !c.fixed0 then (pick + 1) % |pools| else old(rr)
    {
      if c.fixed0 { return 0; }
      var total := |pools|;
      var offset := 0;
      while offset < total
        invariant offset <= total && FirstOpen(c, pools, rr, 0) == FirstOpen(c, pools, rr, offset)
      {
        var idx := (rr + offset) % total;
        if CanSend(c.link, pools[idx]) {
          rr := (idx + 1) % total;
          return idx;
        }
        offset := offset + 1;
      }
      return total;
    }

    method ResetStatsAndBroadcast()
      requires Valid(c, View()) && AllOpen(c, pools)
      modifies `nodes, `pools, `dropped
      ensures nodes == Quieted(old(nodes)) && dropped == old(dropped)
      ensures pools == ToPools(c, Quieted(old(pools)), (p: nat) => ResetMessage(c, p))
    {
      nodes := Quieted(nodes);
      pools := Quieted(pools);
      ghost var quiet := pools;
      for p: nat := 0 to c.pools
        invariant |pools| == c.pools && dropped == old(dropped) && nodes == Quieted(old(nodes))
        invariant forall q :: 0 <= q < p ==> pools[q] == Enqueued(c.link, quiet[q], ResetMessage(c, q))
        invariant forall q :: p <= q < c.pools ==> pools[q] == quiet[q] && CanSend(c.link, quiet[q])
      {
        SendToPool(p, ResetMessage(c, p));
      }
      assert pools == ToPools(c, quiet, (p: nat) => ResetMessage(c, p));
    }

    method Replicate(ev: Message)
      requires Valid(c, View()) && AllOpen(c, pools)
      modifies `pools, `dropped, `replicated
      ensures pools == ToPools(c, old(pools), (p: nat) => Readdressed(ev, c.base + p))
      ensures dropped == old(dropped) && replicated == old(replicated) + c.pools
    {
      ghost var before := pools;
      for p: nat := 0 to c.pools
        invariant |pools| == c.pools && dropped == old(dropped) && replicated == old(replicated) + p
        invariant forall q :: 0 <= q < p ==> pools[q] == Enqueued(c.link, before[q], Readdressed(ev, c.base + q))
        invariant forall q :: p <= q < c.pools ==> pools[q] == before[q] && CanSend(c.link, before[q])
      {
        replicated := replicated + 1;
        SendToPool(p, Readdressed(ev, c.base + p));
      }
    }

    /** Nothing is dropped: every send comes after the check that it will succeed. */
    method TryRouteEvent(ev: Message) returns (failed: bool, routed: bool)
      requires Valid(c, View())
      modifies this
      ensures dropped == old(dropped)
      ensures match TryRoute(c, old(View()), ev)
              case Failed => failed && View() == old(View())
              case Refused => !failed && !routed && View() == old(View())
              case Routed(t) => !failed && routed && View() == t
    {
      failed, routed := false, false;
      if |ev.payload| < 2 { return true, false; }
      if IsReset(ev) {
        var open := PoolsOpen();
        if !open { return; }
        ResetStatsAndBroadcast();
        return false, true;
      }
      var dst := ev.payload[1];
      if dst < c.nodes {
        if !CanSend(c.link, nodes[dst]) { return; }
        nodes := nodes[dst := Enqueued(c.link, nodes[dst], ev)];
        return false, true;
      }
      if dst < c.base || dst - c.base >= |pools| { return true, false; }
      if c.replicate && IsWrite(ev) {
        var open := PoolsOpen();
        if !open { return; }
        Replicate(ev);
        return false, true;
      }
      var pick := PickPoolIndex();
      if pick >= |pools| { return; }
      if !CanSend(c.link, pools[pick]) { return; }
      picks := picks + [pick];
      SendToPool(pick, Readdressed(ev, c.base + pick));
      return false, true;
    }
  }
}
