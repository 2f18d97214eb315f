/** The whole fabric: nodes (cscore.cc), the switch (switch.cc) and memory pools (cxl_mempool.cc) behind its ports. */
module Fabric {
  import opened Options
  import opened FabricPorts
  import Q = LatBwQueue
  import S = Switches
  import P = MemoryPool
  import L = PoolLink
  import C = Channels

  /** The switch and the pools, whose ids are those of the switch's ports. */
  datatype Setup = Setup(sw: S.SwitchConfig, pools: seq<P.PoolConfig>)

  ghost predicate WellSet(c: Setup) {
    && c.sw.nodes > 0 && c.sw.pools > 0 && c.sw.nodes <= c.sw.base && c.sw.base + c.sw.pools <= P.NO_NODE
    && |c.pools| == c.sw.pools
    && forall p :: 0 <= p < |c.pools| ==> PoolSet(c, c.pools[p], p)
  }

  ghost predicate PoolSet(c: Setup, pool: P.PoolConfig, p: nat) {
    pool.useSwitch && pool.memory.maxPending <= 0 && pool.id == c.sw.base + p && pool.link.id == c.sw.base + p
  }

  function NodePort(c: Setup, k: nat): PortConfig { c.sw.link.(id := k) }

  function PoolPort(c: Setup, p: nat): PortConfig { c.sw.link.(id := c.sw.base + p) }

  /** A node, the wires between it and the switch, and the switch's port for it. The node puts requests on the wire at
    * will, and takes what comes without returning credits. `sent` and `got` are the histories of both. */
  datatype NodeSide = NodeSide(up: seq<Message>, port: Port, down: seq<Message>, sent: seq<Message>,
                               got: seq<Message>)

  /** A message that the switch has passed on, the port it came from (nodes first, then pools), and the pool picked. */
  datatype Hop = Hop(from: nat, ev: Message, pick: nat)

  /** Port a of each pool's link is the switch's. `hops` is the history of the switch. */
  datatype Fabric = Fabric(nodes: seq<NodeSide>, pools: seq<L.System>, rr: nat, replicated: nat, picks: seq<nat>,
                           hops: seq<Hop>)

  function SwitchOf(s: Fabric): S.Switch {
    S.Switch(seq(|s.nodes|, k requires 0 <= k < |s.nodes| => s.nodes[k].port),
             seq(|s.pools|, p requires 0 <= p < |s.pools| => s.pools[p].link.a), s.rr, s.replicated, s.picks)
  }

  /** The fabric with the switch in a new state. */
  function Spread(s: Fabric, t: S.Switch): Fabric
    requires |t.nodes| == |s.nodes| && |t.pools| == |s.pools|
  {
    s.(nodes := seq(|s.nodes|, k requires 0 <= k < |s.nodes| => s.nodes[k].(port := t.nodes[k])),
       pools := seq(|s.pools|, p requires 0 <= p < |s.pools| => AtSwitch(s.pools[p], t.pools[p])),
       rr := t.rr, replicated := t.replicated, picks := t.picks)
  }

  function AtSwitch(x: L.System, a: Port): L.System { x.(link := x.link.(a := a)) }

  // Messages of nodes.

  predicate IsRequest(c: Setup, k: nat, ev: Message) {
    |ev.payload| == 17 && ev.payload[0] == k && c.sw.base <= ev.payload[1] < c.sw.base + c.sw.pools
  }

  predicate NodeMessage(c: Setup, k: nat, ev: Message) {
    IsRequest(c, k, ev) || (IsReset(ev) && ev.payload[0] == k)
  }

  /** The switch takes a packet for a write exactly when the request in it is one. */
  lemma WritesAreKnown(r: P.Request, kind: C.Access)
    requires P.RequestFits(r) && r.kind == P.Code(kind)
    ensures S.IsWrite(P.EncodeRequest(r)) <==> kind.Write?
    ensures P.DecodeRequest(P.EncodeRequest(r)).kind == P.Code(kind)
  {
    P.RequestRoundTrip(r);
  }

  // Steps.

  /** What happens at node k, at the side of pool p, or in the switch, which polls one of its ports. */
  datatype Event =
    | AtNode(k: nat, move: NodeEvent)
    | PoolSide(p: nat, step: L.Event)
    | PollNode(k: nat, cycle: nat)
    | PollPool(p: nat, cycle: nat)

  datatype NodeEvent =
    | Send(r: P.Request)
    | SendReset
    | UpArrives
    | DownArrives
    | TickNode(cycle: nat, order: seq<Q.Transit<Message>>)

  /** What only routing may do to the switch's port for a pool. */
  predicate Routing(e: L.Event) { e.Fabric? && e.act.left && (e.act.Offer? || e.act.ReceiveAt?) }

  ghost predicate NodeCan(c: Setup, n: NodeSide, k: nat, e: NodeEvent) {
    match e
    case Send(r) => P.RequestFits(r) && r.src == k && c.sw.base <= r.dst < c.sw.base + c.sw.pools
    case SendReset => true
    case UpArrives => n.up != []
    case DownArrives => n.down != []
    case TickNode(cycle, order) =>
      FabricPorts.Sound(n.port) && (n.port.lastTick != cycle ==> Q.PopOrder(n.port.ingress, order))
  }

  /** The switch ticks each port before it polls it, in every cycle. */
  ghost predicate CanHappen(c: Setup, s: Fabric, e: Event) {
    match e
    case AtNode(k, x) => k < |s.nodes| && NodeCan(c, s.nodes[k], k, x)
    case PoolSide(p, x) => p < |s.pools| && p < |c.pools| && L.CanHappen(c.pools[p], s.pools[p], x) && !Routing(x)
    case PollNode(k, cycle) => k < |s.nodes| && s.nodes[k].port.lastTick == cycle
    case PollPool(p, cycle) => p < |s.pools| && s.pools[p].link.a.lastTick == cycle
  }

  function SendOn(n: NodeSide, ev: Message): NodeSide { n.(up := n.up + [ev], sent := n.sent + [ev]) }

  function ArriveUp(c: PortConfig, n: NodeSide): NodeSide
    requires n.up != []
  {
    n.(port := Handled(c, n.port, n.up[0]), up := n.up[1..])
  }

  /** The node looks at no control message. */
  function ArriveDown(n: NodeSide): NodeSide
    requires n.down != []
  {
    n.(down := n.down[1..], got := n.got + if IsControl(n.down[0]) then [] else [n.down[0]])
  }

  function TickPort(c: PortConfig, n: NodeSide, cycle: nat, order: seq<Q.Transit<Message>>): NodeSide
    requires FabricPorts.Sound(n.port)
  {
    n.(port := Ticked(c, n.port, cycle, order), down := n.down + TickSends(n.port, cycle))
  }

  function TakeFrom(c: PortConfig, n: NodeSide, cycle: nat): NodeSide
    requires n.port.ready != []
  {
    n.(port := Popped(n.port, cycle), down := n.down + CreditFor(c, n.port.ready[0]))
  }

  function TakeFromPool(c: PortConfig, x: L.System, cycle: nat): L.System
    requires x.link.a.ready != []
  {
    x.(link := x.link.(a := Popped(x.link.a, cycle), ab := x.link.ab + CreditFor(c, x.link.a.ready[0])))
  }

  ghost function NodeAfter(c: Setup, n: NodeSide, k: nat, e: NodeEvent): NodeSide
    requires NodeCan(c, n, k, e)
  {
    match e
    case Send(r) => SendOn(n, P.EncodeRequest(r))
    case SendReset => SendOn(n, Message([k, BROADCAST, RESET_UTIL]))
    case UpArrives => ArriveUp(NodePort(c, k), n)
    case DownArrives => ArriveDown(n)
    case TickNode(cycle, order) => TickPort(NodePort(c, k), n, cycle, order)
  }

  /** What try_receive would hand to the routing. */
  predicate Offers(p: Port, cycle: nat) { p.lastDeliver != cycle && p.ready != [] }

  function PickOf(c: Setup, s: Fabric, t: S.Switch): nat {
    if |t.picks| > |s.picks| then t.picks[|s.picks|] else c.sw.pools
  }

  ghost predicate Sized(c: Setup, s: Fabric) {
    WellSet(c) && |s.nodes| == c.sw.nodes && |s.pools| == c.sw.pools && S.Valid(c.sw, SwitchOf(s))
  }

  ghost function Poll(c: Setup, s: Fabric, from: nat, cycle: nat): Fabric
    requires Sized(c, s) && from < c.sw.nodes + c.sw.pools
  {
    var port := if from < c.sw.nodes then s.nodes[from].port else s.pools[from - c.sw.nodes].link.a;
    if !Offers(port, cycle) then s
    else
      match S.TryRoute(c.sw, SwitchOf(s), port.ready[0])
      case Routed(t) => Passed(c, s, t, from, cycle)
      case _ => s
  }

  ghost function Passed(c: Setup, s: Fabric, t: S.Switch, from: nat, cycle: nat): Fabric
    requires Sized(c, s) && from < c.sw.nodes + c.sw.pools
  {
    if |t.nodes| != |s.nodes| || |t.pools| != |s.pools| then s
    else
      var u := Spread(s, t);
      if from < c.sw.nodes then
        var n := u.nodes[from];
        if n.port.ready == [] then s
        else
          u.(nodes := u.nodes[from := TakeFrom(NodePort(c, from), n, cycle)],
             hops := s.hops + [Hop(from, n.port.ready[0], PickOf(c, s, t))])
      else
        var p := from - c.sw.nodes;
        var x := u.pools[p];
        if x.link.a.ready == [] then s
        else
          u.(pools := u.pools[p := TakeFromPool(PoolPort(c, p), x, cycle)],
             hops := s.hops + [Hop(from, x.link.a.ready[0], PickOf(c, s, t))])
  }

  // The history of the switch.

  function From(hops: seq<Hop>, from: nat): seq<Message> {
    if hops == [] then []
    else
      var h := hops[|hops| - 1];
      From(hops[..|hops| - 1], from) + if h.from == from then [h.ev] else []
  }

  ghost function NodeCopies(c: Setup, h: Hop, k: nat): seq<Message> {
    if S.ForNode(c.sw, h.ev) && h.ev.payload[1] == k then [h.ev] else []
  }

  ghost function PoolCopies(c: Setup, h: Hop, p: nat): seq<Message> {
    if S.ForAllPools(c.sw, h.ev) || (S.ForPools(c.sw, h.ev) && h.pick == p) then [S.Copy(c.sw, h.ev, p)] else []
  }

  ghost function ToNode(c: Setup, hops: seq<Hop>, k: nat): seq<Message> {
    if hops == [] then [] else ToNode(c, hops[..|hops| - 1], k) + NodeCopies(c, hops[|hops| - 1], k)
  }

  ghost function ToPool(c: Setup, hops: seq<Hop>, p: nat): seq<Message> {
    if hops == [] then [] else ToPool(c, hops[..|hops| - 1], p) + PoolCopies(c, hops[|hops| - 1], p)
  }

  // The invariant.

  /** Every message the node has sent is on the wire, buffered, or handed over, as often as it was sent. */
  ghost predicate UpOk(n: NodeSide) {
    && (forall ev :: ev in n.sent ==> !IsCredit(ev))
    && multiset(n.sent) == multiset(n.up) + multiset(Queued(n.port)) + multiset(n.port.delivered)
  }

  /** Every message queued for the node is still queued, on the wire, or has been taken, as often as it was queued. */
  ghost predicate DownOk(n: NodeSide) {
    && (forall ev :: ev in n.port.offered ==> !IsControl(ev))
    && multiset(n.port.offered) == multiset(n.port.egress) + Messages(n.down) + multiset(n.got)
  }

  /** Credits spent on a node do not come back. */
  ghost predicate CreditOk(c: PortConfig, n: NodeSide) {
    Capacity(c) < INFINITE ==> 0 <= n.port.credits && n.port.credits + Data(n.down) + Data(n.got) == Capacity(c)
  }

  ghost predicate NodeInv(c: PortConfig, n: NodeSide) { PortInv(c, n.port) && UpOk(n) && DownOk(n) && CreditOk(c, n) }

  // What nodes keep.

  lemma SendKeeps(c: PortConfig, n: NodeSide, ev: Message)
    requires NodeInv(c, n) && !IsCredit(ev)
    ensures NodeInv(c, SendOn(n, ev))
  {
    hide PortInv, Queued, Data, Messages;
  }

  lemma ArriveUpKeeps(c: PortConfig, n: NodeSide)
    requires NodeInv(c, n) && n.up != []
    ensures NodeInv(c, ArriveUp(c, n))
  {
    hide PortInv, Queued, Data, Messages, Handled, IsCredit;
    HandledKeeps(c, n.port, n.up[0]);
    ArriveUpFlows(c, n);
  }

  lemma ArriveUpFlows(c: PortConfig, n: NodeSide)
    requires UpOk(n) && n.up != []
    ensures var t := ArriveUp(c, n);
            UpOk(t) && t == n.(port := n.port.(ingress := t.port.ingress), up := n.up[1..])
  {
    var ev := n.up[0];
    assert n.up == [ev] + n.up[1..];
    assert ev in multiset(n.up) && ev in multiset(n.sent);
    HandledBuffers(c, n.port, ev);
    hide Queued, Q.Add, Q.Cleared;
  }

  lemma ArriveDownKeeps(c: PortConfig, n: NodeSide)
    requires NodeInv(c, n) && n.down != []
    ensures NodeInv(c, ArriveDown(n))
  {
    DataHead(n.down);
    hide PortInv, Queued, Data, Messages, IsControl;
    ArriveDownFlows(n);
    ArriveDownCredit(c, n);
  }

  lemma ArriveDownFlows(n: NodeSide)
    requires DownOk(n) && n.down != []
    ensures DownOk(ArriveDown(n))
  {
    var ev := n.down[0];
    DataHead(n.down);
    hide Queued, Messages;
    if !IsCredit(ev) { assert ev in Messages(n.down) && ev in multiset(n.port.offered); }
  }

  lemma ArriveDownCredit(c: PortConfig, n: NodeSide)
    requires CreditOk(c, n) && n.down != []
    ensures CreditOk(c, ArriveDown(n))
  {
    var ev := n.down[0];
    DataHead(n.down);
    DataConcat(n.got, [ev]);
    DataOne(ev);
    assert n.got + [] == n.got;
    hide Data;
  }

  lemma TickPortKeeps(c: PortConfig, n: NodeSide, cycle: nat, order: seq<Q.Transit<Message>>)
    requires NodeInv(c, n) && FabricPorts.Sound(n.port)
    requires n.port.lastTick != cycle ==> Q.PopOrder(n.port.ingress, order)
    ensures NodeInv(c, TickPort(c, n, cycle, order))
  {
    var w := TickSends(n.port, cycle);
    TickedMoves(c, n.port, cycle, order);
    TickedBuffers(c, n.port, cycle, order);
    DataConcat(n.down, w);
    hide PortInv, Queued, Data, Messages, Ticked, TickSends;
    TickFlows(c, n, Ticked(c, n.port, cycle, order), w);
  }

  lemma TickFlows(c: PortConfig, n: NodeSide, t: Port, w: seq<Message>)
    requires UpOk(n) && DownOk(n) && CreditOk(c, n) && Moves(c, n.port, t, w) && t.delivered == n.port.delivered
    requires multiset(Queued(t)) == multiset(Queued(n.port))
    ensures var u := n.(port := t, down := n.down + w); UpOk(u) && DownOk(u) && CreditOk(c, u)
  {
    DataConcat(n.down, w);
    hide Queued, Data, Messages;
    DownAlgebra(multiset(t.egress), Messages(w), Messages(n.down), multiset(n.got));
  }

  lemma DownAlgebra(e: multiset<Message>, w: multiset<Message>, m: multiset<Message>, g: multiset<Message>)
    ensures (w + e) + m + g == e + (m + w) + g
  {
  }

  lemma TakeKeeps(c: PortConfig, n: NodeSide, cycle: nat)
    requires NodeInv(c, n) && n.port.ready != []
    ensures NodeInv(c, TakeFrom(c, n, cycle))
  {
    hide Queued, Data, Messages, CreditFor, Q.Inv;
    TakeUp(c, n, cycle);
    CreditForOne(c, n.down, n.port.ready[0]);
    hide UpOk;
  }

  lemma TakeUp(c: PortConfig, n: NodeSide, cycle: nat)
    requires UpOk(n) && n.port.ready != []
    ensures UpOk(TakeFrom(c, n, cycle))
  {
    var ev := n.port.ready[0];
    TakesHead(n.port, Popped(n.port, cycle), ev);
    hide Queued, CreditFor;
    TakeAlgebra(multiset(n.up), multiset(Queued(Popped(n.port, cycle))), multiset(n.port.delivered), ev);
  }

  lemma TakeAlgebra(u: multiset<Message>, q: multiset<Message>, d: multiset<Message>, ev: Message)
    ensures u + (q + multiset{ev}) + d == u + q + (d + multiset{ev})
  {
  }

  /** Routing gives a port a message it has room for, or nothing, after clearing its statistics if that is asked. */
  function Served(c: PortConfig, p: Port, quiet: bool, copies: seq<Message>): Port {
    var q := if quiet then S.Quiet(p) else p;
    if copies == [] then q else Enqueued(c, q, copies[0])
  }

  lemma QuietKeeps(c: PortConfig, p: Port)
    requires PortInv(c, p)
    ensures PortInv(c, S.Quiet(p)) && Queued(S.Quiet(p)) == Queued(p)
  {
    Q.ResetKeeps(IngressConfig(c), p.ingress);
  }

  lemma ServedKeeps(c: PortConfig, n: NodeSide, quiet: bool, copies: seq<Message>)
    requires NodeInv(c, n) && |copies| <= 1 && (copies != [] ==> CanSend(c, n.port) && !IsControl(copies[0]))
    ensures var t := n.(port := Served(c, n.port, quiet, copies));
            NodeInv(c, t) && t.port.offered == n.port.offered + copies && t.port.ready == n.port.ready
  {
    hide Queued, Q.Inv, Data, Messages, Q.Cleared, IsControl;
    QuietKeeps(c, n.port);
    var t := Served(c, n.port, quiet, copies);
    SameQueued(n.port, t);
    ServedFlows(n, t, copies);
    hide UpOk, DownOk;
  }

  lemma SameQueued(p: Port, t: Port)
    requires t.ready == p.ready && (t.ingress == p.ingress || t.ingress == Q.Cleared(p.ingress))
    ensures Queued(t) == Queued(p)
  {
  }

  lemma ServedFlows(n: NodeSide, t: Port, copies: seq<Message>)
    requires UpOk(n) && DownOk(n) && Queued(t) == Queued(n.port) && t.delivered == n.port.delivered
    requires t.offered == n.port.offered + copies && t.egress == n.port.egress + copies
    requires |copies| <= 1 && (copies != [] ==> !IsControl(copies[0]))
    ensures UpOk(n.(port := t)) && DownOk(n.(port := t))
  {
    hide Queued, Messages, IsControl, IsCredit;
  }

  // What pools keep.

  lemma PoolServedKeeps(ca: PortConfig, c: P.PoolConfig, x: L.System, quiet: bool, copies: seq<Message>)
    requires L.Inv(ca, c, x) && |copies| <= 1 && (copies != [] ==> CanSend(ca, x.link.a) && !IsCredit(copies[0]))
    ensures var t := AtSwitch(x, Served(ca, x.link.a, quiet, copies));
            && L.Inv(ca, c, t) && t.link.a.offered == x.link.a.offered + copies && t.link.a.ready == x.link.a.ready
            && t.link.a.delivered == x.link.a.delivered
  {
    hide P.Inv, LinkInv, Q.Cleared, IsCredit;
    var q := if quiet then S.Quiet(x.link.a) else x.link.a;
    QuietLink(ca, c.link, x.link);
    assert x.link.(a := x.link.a) == x.link;
    var l := x.link.(a := q);
    if copies != [] {
      OfferKeeps(ca, c.link, l, copies[0]);
      assert l.(a := Enqueued(ca, q, copies[0])) == x.link.(a := Enqueued(ca, q, copies[0]));
    }
  }

  lemma QuietLink(ca: PortConfig, cb: PortConfig, l: Link)
    requires LinkInv(ca, cb, l)
    ensures LinkInv(ca, cb, l.(a := S.Quiet(l.a)))
  {
    QuietKeeps(ca, l.a);
    hide PortInv, Queued, Data, Messages;
  }

  lemma PoolTakeKeeps(ca: PortConfig, c: P.PoolConfig, x: L.System, cycle: nat)
    requires L.Inv(ca, c, x) && x.link.a.ready != [] && x.link.a.lastTick == cycle && x.link.a.lastDeliver != cycle
    ensures L.Inv(ca, c, TakeFromPool(ca, x, cycle))
  {
    var act := ReceiveAt(true, cycle, [], _ => true);
    assert PortInv(ca, x.link.a);
    hide LinkInv, PortInv, P.Inv;
    assert TickSends(x.link.a, cycle) + CreditFor(ca, x.link.a.ready[0]) == CreditFor(ca, x.link.a.ready[0]);
    assert Apply(ca, c.link, x.link, act) == TakeFromPool(ca, x, cycle).link;
    ApplyKeeps(ca, c.link, x.link, act);
  }

  // The invariant of the whole.

  /** Answers are for nodes. */
  predicate IsAnswer(c: Setup, ev: Message) { |ev.payload| == 9 && ev.payload[1] < c.sw.nodes && ev.payload[8] == 64 }

  ghost predicate HopOk(c: Setup, h: Hop) {
    && (if h.from < c.sw.nodes then NodeMessage(c, h.from, h.ev)
        else h.from < c.sw.nodes + c.sw.pools && IsAnswer(c, h.ev))
    && (S.ForPools(c.sw, h.ev) && !S.ForAllPools(c.sw, h.ev) ==> h.pick < c.sw.pools)
  }

  /** The credits on the wire name the port they come from. */
  predicate Marked(id: nat, w: seq<Message>) {
    forall ev :: ev in w && IsCredit(ev) ==> ev.payload[0] == id
  }

  ghost predicate NodeOk(c: Setup, n: NodeSide, hops: seq<Hop>, k: nat) {
    && NodeInv(NodePort(c, k), n)
    && (forall ev :: ev in n.sent ==> NodeMessage(c, k, ev))
    && n.port.delivered == From(hops, k) && n.port.offered == ToNode(c, hops, k)
  }

  ghost predicate PoolOk(c: Setup, x: L.System, hops: seq<Hop>, p: nat)
    requires p < |c.pools|
  {
    && L.Inv(PoolPort(c, p), c.pools[p], x) && Marked(c.sw.base + p, x.link.ba)
    && x.link.a.delivered == From(hops, c.sw.nodes + p) && x.link.a.offered == ToPool(c, hops, p)
  }

  ghost predicate Inv(c: Setup, s: Fabric) {
    && Sized(c, s)
    && (forall k :: 0 <= k < |s.nodes| ==> NodeOk(c, s.nodes[k], s.hops, k))
    && (forall p :: 0 <= p < |s.pools| ==> PoolOk(c, s.pools[p], s.hops, p))
    && (forall i :: 0 <= i < |s.hops| ==> HopOk(c, s.hops[i]))
  }

  // Steps of one node or one pool.

  lemma NodeStep(c: Setup, s: Fabric, k: nat, n: NodeSide)
    requires Inv(c, s) && k < |s.nodes| && NodeInv(NodePort(c, k), n)
    requires forall ev :: ev in n.sent ==> NodeMessage(c, k, ev)
    requires n.port.delivered == s.nodes[k].port.delivered && n.port.offered == s.nodes[k].port.offered
    ensures Inv(c, s.(nodes := s.nodes[k := n]))
  {
    hide NodeInv, NodeMessage, PoolOk, HopOk, WellSet, From, ToNode;
    var t := s.(nodes := s.nodes[k := n]);
    assert NodeOk(c, s.nodes[k], s.hops, k);
    assert NodeOk(c, n, s.hops, k);
    hide NodeOk;
    forall j | 0 <= j < |t.nodes| ensures NodeOk(c, t.nodes[j], t.hops, j) {
      assert t.nodes[j] == if j == k then n else s.nodes[j];
    }
  }

  lemma PoolStep(c: Setup, s: Fabric, p: nat, x: L.System)
    requires Inv(c, s) && p < |s.pools| && L.Inv(PoolPort(c, p), c.pools[p], x) && Marked(c.sw.base + p, x.link.ba)
    requires x.link.a.delivered == s.pools[p].link.a.delivered && x.link.a.offered == s.pools[p].link.a.offered
    ensures Inv(c, s.(pools := s.pools[p := x]))
  {
    assert p < |c.pools| && PoolOk(c, s.pools[p], s.hops, p);
    PoolOkStays(c, s.pools[p], s.hops, p, x);
    hide PoolOk, NodeOk, HopOk, WellSet;
    var t := s.(pools := s.pools[p := x]);
    forall q | 0 <= q < |t.pools| ensures PoolOk(c, t.pools[q], t.hops, q) {
      assert t.pools[q] == if q == p then x else s.pools[q];
    }
  }

  lemma PoolOkStays(c: Setup, x: L.System, hops: seq<Hop>, p: nat, y: L.System)
    requires p < |c.pools| && PoolOk(c, x, hops, p)
    requires L.Inv(PoolPort(c, p), c.pools[p], y) && Marked(c.sw.base + p, y.link.ba)
    requires y.link.a.delivered == x.link.a.delivered && y.link.a.offered == x.link.a.offered
    ensures PoolOk(c, y, hops, p)
  {
    hide L.Inv, Marked, From, ToPool;
  }

  lemma MarkedMore(id: nat, v: seq<Message>, w: seq<Message>)
    requires Marked(id, v) && forall ev :: ev in w ==> !IsCredit(ev)
    ensures Marked(id, v + w)
  {
  }

  lemma MarkedCredit(c: PortConfig, v: seq<Message>, ev: Message)
    requires Marked(c.id, v)
    ensures Marked(c.id, v + CreditFor(c, ev))
  {
  }

  /** What happens at the pool's side leaves the switch's history alone, and marks the credits it returns. */
  lemma PoolSideHistory(ca: PortConfig, c: P.PoolConfig, x: L.System, e: L.Event, id: nat)
    requires L.Inv(ca, c, x) && L.CanHappen(c, x, e) && !Routing(e) && c.link.id == id && Marked(id, x.link.ba)
    ensures var t := L.After(ca, c, x, e);
            && t.link.a.offered == x.link.a.offered && t.link.a.delivered == x.link.a.delivered
            && Marked(id, t.link.ba)
  {
    hide P.Inv, Marked, Q.Tick, Q.PopOrder, Q.Add;
    match e
    case Fabric(act) => FabricHistory(ca, c.link, x.link, act, id);
    case Poll(cycle, order) => FabricHistory(ca, c.link, x.link, L.Receives(c, x, cycle, order), id);
    case Operates(jobs) =>
    case Respond =>
  }

  lemma FabricHistory(ca: PortConfig, cb: PortConfig, l: Link, act: Action, id: nat)
    requires LinkInv(ca, cb, l) && Enabled(l, act) && (act.left ==> !act.Offer? && !act.ReceiveAt?)
    requires cb.id == id && Marked(id, l.ba)
    ensures var m := Apply(ca, cb, l, act);
            m.a.offered == l.a.offered && m.a.delivered == l.a.delivered && Marked(id, m.ba)
  {
    assert PortInv(cb, l.b);
    hide LinkInv, PortInv, Q.Tick, Q.PopOrder, Q.Add;
    if !act.left {
      hide Ticked, TickSends, Marked;
      match act
      case Offer(_, ev) =>
      case TickAt(_, cycle, order) => TickMarks(cb, l.b, cycle, order, l.ba);
      case ReceiveAt(_, cycle, order, handle) => ReceiveMarks(cb, l.b, cycle, order, handle, l.ba);
      case ArriveAt(_) =>
    }
  }

  lemma TickMarks(c: PortConfig, p: Port, cycle: nat, order: seq<Q.Transit<Message>>, w: seq<Message>)
    requires PortInv(c, p) && FabricPorts.Sound(p) && (p.lastTick != cycle ==> Q.PopOrder(p.ingress, order))
    requires Marked(c.id, w)
    ensures Marked(c.id, w + TickSends(p, cycle))
  {
    TickedMoves(c, p, cycle, order);
    MarkedMore(c.id, w, TickSends(p, cycle));
  }

  lemma ReceiveMarks(c: PortConfig, p: Port, cycle: nat, order: seq<Q.Transit<Message>>, handle: Message -> bool,
                     w: seq<Message>)
    requires PortInv(c, p) && FabricPorts.Sound(p) && (p.lastTick != cycle ==> Q.PopOrder(p.ingress, order))
    requires Marked(c.id, w)
    ensures Marked(c.id, w + ReceiveSends(c, p, cycle, order, handle))
  {
    TickMarks(c, p, cycle, order, w);
    var t := Ticked(c, p, cycle, order);
    var sent := TickSends(p, cycle);
    hide Marked, Ticked, TickSends, CreditFor;
    if Takes(t, cycle, handle) {
      MarkedCredit(c, w + sent, t.ready[0]);
      assert w + (sent + CreditFor(c, t.ready[0])) == w + sent + CreditFor(c, t.ready[0]);
    } else {
      assert sent + [] == sent;
    }
  }

  // Routing.

  lemma {:induction false} HopMore(c: Setup, hops: seq<Hop>, h: Hop)
    ensures forall who :: From(hops + [h], who) == From(hops, who) + if h.from == who then [h.ev] else []
    ensures forall k :: ToNode(c, hops + [h], k) == ToNode(c, hops, k) + NodeCopies(c, h, k)
    ensures forall p :: ToPool(c, hops + [h], p) == ToPool(c, hops, p) + PoolCopies(c, h, p)
  {
    assert (hops + [h])[..|hops|] == hops;
  }

  /** Every port of the switch is served the copies meant for it. */
  lemma RouteServes(c: Setup, s: Fabric, from: nat, ev: Message)
    requires Sized(c, s) && S.TryRoute(c.sw, SwitchOf(s), ev).Routed?
    ensures var t := S.TryRoute(c.sw, SwitchOf(s), ev).after; var h := Hop(from, ev, PickOf(c, s, t));
            && |t.nodes| == |s.nodes| && |t.pools| == |s.pools| && t.rr < c.sw.pools
            && (S.ForPools(c.sw, ev) && !S.ForAllPools(c.sw, ev) ==> h.pick < c.sw.pools)
            && (forall k :: 0 <= k < |s.nodes| ==>
                 && t.nodes[k] == Served(c.sw.link, s.nodes[k].port, IsReset(ev), NodeCopies(c, h, k))
                 && (NodeCopies(c, h, k) != [] ==> CanSend(c.sw.link, s.nodes[k].port)))
            && (forall p :: 0 <= p < |s.pools| ==>
                 && t.pools[p] == Served(c.sw.link, s.pools[p].link.a, IsReset(ev), PoolCopies(c, h, p))
                 && (PoolCopies(c, h, p) != [] ==> CanSend(c.sw.link, s.pools[p].link.a)))
  {
    hide WellSet, MsgBytes, S.IsWrite;
  }

  lemma ToPoolHop(c: Setup, hops: seq<Hop>, p: nat, ev: Message) returns (h: Hop)
    requires ev in ToPool(c, hops, p)
    ensures h in hops && ev in PoolCopies(c, h, p)
  {
    var n := |hops| - 1;
    if ev in PoolCopies(c, hops[n], p) { h := hops[n]; } else { h := ToPoolHop(c, hops[..n], p, ev); }
  }

  /** What waits at the switch's port for a node is one of the node's messages. */
  lemma NodeReady(c: Setup, s: Fabric, k: nat)
    requires Inv(c, s) && k < |s.nodes| && s.nodes[k].port.ready != []
    ensures NodeMessage(c, k, s.nodes[k].port.ready[0])
  {
    var n := s.nodes[k];
    assert NodeOk(c, n, s.hops, k);
    var ev := n.port.ready[0];
    assert ev in Queued(n.port);
    hide Queued, NodeInv;
    UpSent(NodePort(c, k), n, ev);
  }

  /** A request for a pool, as it reaches it. */
  predicate PoolRequest(c: Setup, ev: Message) { |ev.payload| == 17 && ev.payload[0] < c.sw.nodes }

  /** What the switch gives a pool are requests of nodes, and resets. */
  lemma PoolGets(c: Setup, hops: seq<Hop>, p: nat, ev: Message)
    requires (forall i :: 0 <= i < |hops| ==> HopOk(c, hops[i])) && ev in ToPool(c, hops, p)
    requires c.sw.nodes <= c.sw.base
    ensures IsReset(ev) || PoolRequest(c, ev)
  {
    var h := ToPoolHop(c, hops, p, ev);
    assert HopOk(c, h);
  }

  lemma {:induction false} AskedFrom(w: seq<Message>, r: P.Request) returns (ev: Message)
    requires r in L.Asked(w)
    ensures ev in w && !IsReset(ev) && r == P.DecodeRequest(ev)
  {
    var n := |w| - 1;
    if !IsReset(w[n]) && r == P.DecodeRequest(w[n]) { ev := w[n]; } else { ev := AskedFrom(w[..n], r); }
  }

  /** Every request a pool has accepted came from a node. */
  lemma AcceptedFromNodes(c: Setup, s: Fabric, p: nat, r: P.Request)
    requires Inv(c, s) && p < |s.pools| && r in s.pools[p].pool.accepted
    ensures r.src < c.sw.nodes
  {
    hide LinkInv, P.Inv, NodeOk, HopOk, Marked, PoolSet, From, ToPool, Inv, L.Asked;
    Sizes(c, s);
    PoolIs(c, s, p);
    var x := s.pools[p];
    var ev := AskedFrom(x.link.b.delivered, r);
    DeliveredOffered(PoolPort(c, p), c.pools[p].link, x.link, ev);
    PoolGets(c, s.hops, p, ev);
  }

  lemma DeliveredOffered(ca: PortConfig, cb: PortConfig, l: Link, ev: Message)
    requires LinkInv(ca, cb, l)
    ensures ev in l.b.delivered ==> ev in l.a.offered
    ensures ev in Queued(l.a) ==> ev in l.b.offered
    ensures ev in l.ba && !IsCredit(ev) ==> ev in l.b.offered
  {
    L.LinkFlows(ca, cb, l);
    hide LinkInv, Queued;
    if ev in l.b.delivered { assert ev in multiset(l.b.delivered) && ev in multiset(l.a.offered); }
    if ev in Queued(l.a) { assert ev in multiset(Queued(l.a)) && ev in multiset(l.b.offered); }
    if ev in l.ba && !IsCredit(ev) {
      InMessages(l.ba, ev);
      assert ev in multiset(l.b.offered);
    }
  }

  lemma {:induction false} InMessages(w: seq<Message>, ev: Message)
    requires ev in w && !IsCredit(ev)
    ensures ev in Messages(w)
  {
    var n := |w| - 1;
    if w[n] != ev { InMessages(w[..n], ev); }
  }

  /** An answer of a pool. */
  ghost predicate AnswersNode(c: Setup, p: nat, ev: Message) {
    IsAnswer(c, ev) && ev.payload[0] == c.sw.base + p
  }

  /** Everything a pool has sent is an answer for a node. */
  lemma PoolSends(c: Setup, s: Fabric, p: nat, ev: Message)
    requires Inv(c, s) && p < |s.pools| && ev in s.pools[p].link.b.offered
    ensures AnswersNode(c, p, ev)
  {
    var x := s.pools[p];
    Sizes(c, s);
    PoolIs(c, s, p);
    hide P.Inv, LinkInv, Inv, From, ToPool, HopOk, Marked, L.Asked;
    var i :| 0 <= i < |x.pool.answered| && x.pool.answered[i].message == ev;
    var a := x.pool.answered[i];
    AnsweredKnown(c.pools[p], x.pool, a);
    AcceptedFromNodes(c, s, p, x.pool.accepted[a.tag - 1]);
    hide L.Inv;
    AnswerIs(c, c.pools[p], P.JobOf(x.pool, a.tag), p);
  }

  lemma AnsweredKnown(c: P.PoolConfig, s: P.Pool, a: P.Answer)
    requires P.Inv(c, s) && a in s.answered
    ensures P.KnownTag(s, a.tag) && a == P.AnswerOf(c, P.JobOf(s, a.tag)) && P.JobOf(s, a.tag).req.responseRequested
  {
  }

  lemma AnswerIs(c: Setup, pool: P.PoolConfig, j: P.Job, p: nat)
    requires PoolSet(c, pool, p) && p < c.sw.pools && j.req.src < c.sw.nodes
    requires c.sw.nodes <= c.sw.base && c.sw.base + c.sw.pools <= P.NO_NODE
    ensures AnswersNode(c, p, P.AnswerOf(pool, j).message)
  {
  }

  lemma PoolReady(c: Setup, s: Fabric, p: nat)
    requires Inv(c, s) && p < |s.pools| && s.pools[p].link.a.ready != []
    ensures AnswersNode(c, p, s.pools[p].link.a.ready[0])
  {
    var x := s.pools[p];
    assert PoolOk(c, x, s.hops, p);
    var ev := x.link.a.ready[0];
    assert ev in Queued(x.link.a);
    hide PortInv, Settled, Flows, P.Inv, Queued, AnswersNode;
    DeliveredOffered(PoolPort(c, p), c.pools[p].link, x.link, ev);
    PoolSends(c, s, p, ev);
  }

  // The switch throws nothing.

  /** Every message the switch polls can be routed, now or later. */
  lemma NeverFails(c: Setup, s: Fabric)
    requires Inv(c, s)
    ensures forall k :: 0 <= k < |s.nodes| && s.nodes[k].port.ready != [] ==>
      !S.TryRoute(c.sw, SwitchOf(s), s.nodes[k].port.ready[0]).Failed?
    ensures forall p :: 0 <= p < |s.pools| && s.pools[p].link.a.ready != [] ==>
      !S.TryRoute(c.sw, SwitchOf(s), s.pools[p].link.a.ready[0]).Failed?
  {
    hide NodeOk, PoolOk, HopOk, S.TryRoute;
    forall k | 0 <= k < |s.nodes| && s.nodes[k].port.ready != []
      ensures !S.TryRoute(c.sw, SwitchOf(s), s.nodes[k].port.ready[0]).Failed?
    {
      NodeReady(c, s, k);
      S.RefusedExactly(c.sw, SwitchOf(s), s.nodes[k].port.ready[0]);
    }
    forall p | 0 <= p < |s.pools| && s.pools[p].link.a.ready != []
      ensures !S.TryRoute(c.sw, SwitchOf(s), s.pools[p].link.a.ready[0]).Failed?
    {
      PoolReady(c, s, p);
      S.RefusedExactly(c.sw, SwitchOf(s), s.pools[p].link.a.ready[0]);
    }
  }

  /** The port that handle_event finds for an arriving message by its first word; None is an exception. */
  function ArrivalPort(c: Setup, ev: Message): Option<nat> {
    if |ev.payload| < 2 then None
    else if ev.payload[0] < c.sw.nodes then Some(ev.payload[0])
    else if c.sw.base <= ev.payload[0] < c.sw.base + c.sw.pools then Some(c.sw.nodes + ev.payload[0] - c.sw.base)
    else None
  }

  /** That is the port at the end of the wire on which the message comes. */
  lemma ArrivesAtItsPort(c: Setup, s: Fabric)
    requires Inv(c, s)
    ensures forall k, ev :: 0 <= k < |s.nodes| && ev in s.nodes[k].up ==> ArrivalPort(c, ev) == Some(k)
    ensures forall p, ev :: 0 <= p < |s.pools| && ev in s.pools[p].link.ba ==>
      ArrivalPort(c, ev) == Some(c.sw.nodes + p)
  {
    hide Inv, ArrivalPort;
    assert |s.nodes| == c.sw.nodes && |s.pools| == c.sw.pools by { Sizes(c, s); }
    forall k, ev | 0 <= k < |s.nodes| && ev in s.nodes[k].up ensures ArrivalPort(c, ev) == Some(k) {
      NodeArrives(c, s, k, ev);
    }
    forall p, ev | 0 <= p < |s.pools| && ev in s.pools[p].link.ba
      ensures ArrivalPort(c, ev) == Some(c.sw.nodes + p)
    {
      PoolArrives(c, s, p, ev);
    }
  }

  lemma Sizes(c: Setup, s: Fabric)
    requires Inv(c, s)
    ensures |s.nodes| == c.sw.nodes && |s.pools| == c.sw.pools == |c.pools| && c.sw.nodes <= c.sw.base
    ensures c.sw.base + c.sw.pools <= P.NO_NODE
  {
    hide NodeOk, PoolOk, HopOk;
  }

  lemma PoolIs(c: Setup, s: Fabric, p: nat)
    requires Inv(c, s) && p < |s.pools|
    ensures p < |c.pools| && PoolOk(c, s.pools[p], s.hops, p) && PoolSet(c, c.pools[p], p)
    ensures c.sw.nodes <= c.sw.base && forall i :: 0 <= i < |s.hops| ==> HopOk(c, s.hops[i])
  {
    hide PoolOk, HopOk, NodeOk;
  }

  lemma NodeArrives(c: Setup, s: Fabric, k: nat, ev: Message)
    requires Inv(c, s) && k < |s.nodes| && ev in s.nodes[k].up
    ensures ArrivalPort(c, ev) == Some(k)
  {
    Sizes(c, s);
    assert NodeOk(c, s.nodes[k], s.hops, k);
    hide Inv;
    UpSent(NodePort(c, k), s.nodes[k], ev);
    hide NodeInv;
  }

  lemma UpSent(c: PortConfig, n: NodeSide, ev: Message)
    requires NodeInv(c, n)
    ensures ev in n.up || ev in Queued(n.port) ==> ev in n.sent
  {
    hide PortInv, DownOk, Queued;
    if ev in n.up { assert ev in multiset(n.up) && ev in multiset(n.sent); }
    if ev in Queued(n.port) { assert ev in multiset(Queued(n.port)) && ev in multiset(n.sent); }
  }

  lemma PoolArrives(c: Setup, s: Fabric, p: nat, ev: Message)
    requires Inv(c, s) && p < |s.pools| && ev in s.pools[p].link.ba
    ensures ArrivalPort(c, ev) == Some(c.sw.nodes + p)
  {
    Sizes(c, s);
    PoolIs(c, s, p);
    hide P.Inv, LinkInv, Inv, L.Joined, From, ToPool, HopOk;
    if !IsCredit(ev) {
      DeliveredOffered(PoolPort(c, p), c.pools[p].link, s.pools[p].link, ev);
      PoolSends(c, s, p, ev);
    }
  }

  // Every event keeps the invariant.

  lemma ServedAlike(c: PortConfig, id: nat, p: Port, quiet: bool, copies: seq<Message>)
    ensures Served(c, p, quiet, copies) == Served(c.(id := id), p, quiet, copies)
    ensures CanSend(c, p) == CanSend(c.(id := id), p)
  {
  }

  function NodeServed(c: Setup, n: NodeSide, h: Hop, k: nat, copies: seq<Message>, cycle: nat): NodeSide {
    var v := n.(port := Served(c.sw.link, n.port, IsReset(h.ev), copies));
    if h.from == k && v.port.ready != [] then TakeFrom(NodePort(c, k), v, cycle) else v
  }

  lemma NodePassed(c: Setup, n: NodeSide, hops: seq<Hop>, k: nat, h: Hop, cycle: nat)
    requires NodeOk(c, n, hops, k) && HopOk(c, h) && k < c.sw.nodes <= c.sw.base
    requires h.from == k ==> n.port.ready != [] && n.port.ready[0] == h.ev
    requires NodeCopies(c, h, k) != [] ==> CanSend(c.sw.link, n.port)
    ensures NodeOk(c, NodeServed(c, n, h, k, NodeCopies(c, h, k), cycle), hops + [h], k)
  {
    var copies := NodeCopies(c, h, k);
    ServedAlike(c.sw.link, k, n.port, IsReset(h.ev), copies);
    hide NodeInv, Served, CanSend, NodeMessage;
    assert copies != [] ==> !IsControl(copies[0]) by { CopyIsAnswer(c, h, k); }
    ServedKeeps(NodePort(c, k), n, IsReset(h.ev), copies);
    ServedHistory(NodePort(c, k), n.port, IsReset(h.ev), copies);
    var v := n.(port := Served(c.sw.link, n.port, IsReset(h.ev), copies));
    if h.from == k { TakeKeeps(NodePort(c, k), v, cycle); }
    HopMore(c, hops, h);
    hide NodeCopies, HopOk, IsControl;
  }

  lemma CopyIsAnswer(c: Setup, h: Hop, k: nat)
    requires HopOk(c, h) && c.sw.nodes <= c.sw.base
    ensures NodeCopies(c, h, k) != [] ==> h.from >= c.sw.nodes && |h.ev.payload| == 9
  {
  }

  lemma ServedHistory(c: PortConfig, p: Port, quiet: bool, copies: seq<Message>)
    ensures Served(c, p, quiet, copies).delivered == p.delivered && Served(c, p, quiet, copies).ready == p.ready
    ensures Served(c, p, quiet, copies).lastTick == p.lastTick
    ensures Served(c, p, quiet, copies).lastDeliver == p.lastDeliver
  {
  }

  function PoolServed(c: Setup, x: L.System, h: Hop, p: nat, copies: seq<Message>, cycle: nat): L.System {
    var y := AtSwitch(x, Served(c.sw.link, x.link.a, IsReset(h.ev), copies));
    if h.from == c.sw.nodes + p && y.link.a.ready != [] then TakeFromPool(PoolPort(c, p), y, cycle) else y
  }

  lemma PoolCopyNoCredit(c: Setup, h: Hop, p: nat)
    requires HopOk(c, h) && c.sw.nodes <= c.sw.base
    ensures |PoolCopies(c, h, p)| <= 1 && (PoolCopies(c, h, p) != [] ==> !IsCredit(PoolCopies(c, h, p)[0]))
  {
  }

  /** The switch's port for the pool before it hands anything over. */
  lemma PoolServedOk(c: Setup, x: L.System, hops: seq<Hop>, p: nat, h: Hop)
    requires p < |c.pools| && PoolOk(c, x, hops, p) && HopOk(c, h) && c.sw.nodes <= c.sw.base
    requires PoolCopies(c, h, p) != [] ==> CanSend(c.sw.link, x.link.a)
    ensures var y := AtSwitch(x, Served(c.sw.link, x.link.a, IsReset(h.ev), PoolCopies(c, h, p)));
            && L.Inv(PoolPort(c, p), c.pools[p], y) && Marked(c.sw.base + p, y.link.ba)
            && y.link.a.delivered == From(hops, c.sw.nodes + p) && y.link.a.offered == ToPool(c, hops + [h], p)
  {
    hide L.Inv, Served, CanSend, HopOk, PoolCopies, IsCredit, From, ToPool, Marked, IsReset;
    var copies := PoolCopies(c, h, p);
    ServedAlike(c.sw.link, c.sw.base + p, x.link.a, IsReset(h.ev), copies);
    PoolCopyNoCredit(c, h, p);
    PoolServedKeeps(PoolPort(c, p), c.pools[p], x, IsReset(h.ev), copies);
    HopMore(c, hops, h);
  }

  lemma PoolPassed(c: Setup, x: L.System, hops: seq<Hop>, p: nat, h: Hop, cycle: nat)
    requires p < |c.pools| && PoolOk(c, x, hops, p) && HopOk(c, h) && c.sw.nodes <= c.sw.base
    requires h.from == c.sw.nodes + p ==>
      x.link.a.ready != [] && x.link.a.ready[0] == h.ev && x.link.a.lastTick == cycle && x.link.a.lastDeliver != cycle
    requires PoolCopies(c, h, p) != [] ==> CanSend(c.sw.link, x.link.a)
    ensures PoolOk(c, PoolServed(c, x, h, p, PoolCopies(c, h, p), cycle), hops + [h], p)
  {
    hide L.Inv, Served, CanSend, HopOk, PoolCopies, IsCredit, From, ToPool, Marked, CreditFor, IsReset;
    PoolServedOk(c, x, hops, p, h);
    var copies := PoolCopies(c, h, p);
    ServedHistory(c.sw.link, x.link.a, IsReset(h.ev), copies);
    HopMore(c, hops, h);
    var y := AtSwitch(x, Served(c.sw.link, x.link.a, IsReset(h.ev), copies));
    if h.from == c.sw.nodes + p {
      PoolTakeKeeps(PoolPort(c, p), c.pools[p], y, cycle);
      assert PoolOk(c, TakeFromPool(PoolPort(c, p), y, cycle), hops + [h], p);
    } else {
      assert PoolOk(c, y, hops + [h], p);
    }
  }

  function PortAt(c: Setup, s: Fabric, from: nat): Port
    requires |s.nodes| == c.sw.nodes && |s.pools| == c.sw.pools && from < c.sw.nodes + c.sw.pools
  {
    if from < c.sw.nodes then s.nodes[from].port else s.pools[from - c.sw.nodes].link.a
  }

  /** What Poll makes of the state, port by port. */
  lemma PassedIs(c: Setup, s: Fabric, from: nat, cycle: nat)
    requires Sized(c, s) && from < c.sw.nodes + c.sw.pools && PortAt(c, s, from).ready != []
    requires S.TryRoute(c.sw, SwitchOf(s), PortAt(c, s, from).ready[0]).Routed?
    ensures var ev := PortAt(c, s, from).ready[0];
            var t := S.TryRoute(c.sw, SwitchOf(s), ev).after;
            var h, u := Hop(from, ev, PickOf(c, s, t)), Passed(c, s, t, from, cycle);
            && |u.nodes| == |s.nodes| && |u.pools| == |s.pools| && u.hops == s.hops + [h] && u.rr < c.sw.pools
            && (forall k :: 0 <= k < |s.nodes| ==>
                  u.nodes[k] == NodeServed(c, s.nodes[k], h, k, NodeCopies(c, h, k), cycle))
            && (forall p :: 0 <= p < |s.pools| ==>
                  u.pools[p] == PoolServed(c, s.pools[p], h, p, PoolCopies(c, h, p), cycle))
  {
    hide S.TryRoute, NodeCopies, PoolCopies, PickOf, WellSet, CreditFor, IsReset, Served, CanSend, S.ForPools,
      S.ForAllPools;
    var ev := PortAt(c, s, from).ready[0];
    RouteServes(c, s, from, ev);
    if from < c.sw.nodes {
      var h := Hop(from, ev, PickOf(c, s, S.TryRoute(c.sw, SwitchOf(s), ev).after));
      ServedHistory(c.sw.link, s.nodes[from].port, IsReset(ev), NodeCopies(c, h, from));
    } else {
      var p := from - c.sw.nodes;
      var h := Hop(from, ev, PickOf(c, s, S.TryRoute(c.sw, SwitchOf(s), ev).after));
      ServedHistory(c.sw.link, s.pools[p].link.a, IsReset(ev), PoolCopies(c, h, p));
    }
  }

  lemma PollKeeps(c: Setup, s: Fabric, from: nat, cycle: nat)
    requires Inv(c, s) && from < c.sw.nodes + c.sw.pools && PortAt(c, s, from).lastTick == cycle
    ensures Inv(c, Poll(c, s, from, cycle))
  {
    hide NodeOk, PoolOk, HopOk, S.TryRoute, Passed, WellSet, NodeServed, PoolServed;
    var port := PortAt(c, s, from);
    if Offers(port, cycle) {
      var ev := port.ready[0];
      match S.TryRoute(c.sw, SwitchOf(s), ev)
      case Routed(t) =>
        PassedIs(c, s, from, cycle);
        PassedKeeps(c, s, from, cycle, t, Passed(c, s, t, from, cycle));
      case _ =>
    }
  }

  lemma PassedKeeps(c: Setup, s: Fabric, from: nat, cycle: nat, t: S.Switch, u: Fabric)
    requires Inv(c, s) && from < c.sw.nodes + c.sw.pools && PortAt(c, s, from).lastTick == cycle
    requires Offers(PortAt(c, s, from), cycle)
    requires S.TryRoute(c.sw, SwitchOf(s), PortAt(c, s, from).ready[0]) == S.Routed(t)
    requires var h := Hop(from, PortAt(c, s, from).ready[0], PickOf(c, s, t));
             && |u.nodes| == |s.nodes| && |u.pools| == |s.pools| && u.hops == s.hops + [h] && u.rr < c.sw.pools
             && (forall k :: 0 <= k < |s.nodes| ==>
                   u.nodes[k] == NodeServed(c, s.nodes[k], h, k, NodeCopies(c, h, k), cycle))
             && (forall p :: 0 <= p < |s.pools| ==>
                   u.pools[p] == PoolServed(c, s.pools[p], h, p, PoolCopies(c, h, p), cycle))
    ensures Inv(c, u)
  {
    hide NodeOk, PoolOk, HopOk, S.TryRoute, NodeServed, PoolServed, NodeCopies, PoolCopies, PickOf, Served, CanSend,
      WellSet, S.ForPools, S.ForAllPools;
    var ev := PortAt(c, s, from).ready[0];
    var h := Hop(from, ev, PickOf(c, s, t));
    Sizes(c, s);
    RouteServes(c, s, from, ev);
    HopIsOk(c, s, from, h);
    forall k | 0 <= k < |u.nodes| ensures NodeOk(c, u.nodes[k], u.hops, k) {
      assert NodeOk(c, s.nodes[k], s.hops, k);
      NodePassed(c, s.nodes[k], s.hops, k, h, cycle);
    }
    forall p | 0 <= p < |u.pools| ensures PoolOk(c, u.pools[p], u.hops, p) {
      assert PoolOk(c, s.pools[p], s.hops, p);
      PoolPassed(c, s.pools[p], s.hops, p, h, cycle);
    }
  }

  lemma HopIsOk(c: Setup, s: Fabric, from: nat, h: Hop)
    requires Inv(c, s) && from < c.sw.nodes + c.sw.pools && PortAt(c, s, from).ready != []
    requires h.from == from && h.ev == PortAt(c, s, from).ready[0]
    requires S.ForPools(c.sw, h.ev) && !S.ForAllPools(c.sw, h.ev) ==> h.pick < c.sw.pools
    ensures HopOk(c, h)
  {
    hide NodeOk, PoolOk;
    if from < c.sw.nodes { NodeReady(c, s, from); } else { PoolReady(c, s, from - c.sw.nodes); }
    hide Inv, NodeMessage, S.ForPools, S.ForAllPools;
  }

  ghost function AtPool(c: Setup, s: Fabric, p: nat, e: L.Event): Fabric
    requires Inv(c, s) && p < |s.pools| && p < |c.pools| && L.CanHappen(c.pools[p], s.pools[p], e)
  {
    PoolIs(c, s, p);
    s.(pools := s.pools[p := L.After(PoolPort(c, p), c.pools[p], s.pools[p], e)])
  }

  ghost function After(c: Setup, s: Fabric, e: Event): Fabric
    requires Inv(c, s) && CanHappen(c, s, e)
  {
    match e
    case AtNode(k, x) => s.(nodes := s.nodes[k := NodeAfter(c, s.nodes[k], k, x)])
    case PoolSide(p, x) => AtPool(c, s, p, x)
    case PollNode(k, cycle) => Poll(c, s, k, cycle)
    case PollPool(p, cycle) => Poll(c, s, c.sw.nodes + p, cycle)
  }

  /** Every step of a node, the switch, a wire or a pool keeps the invariant. */
  lemma AfterKeeps(c: Setup, s: Fabric, e: Event)
    requires Inv(c, s) && CanHappen(c, s, e)
    ensures Inv(c, After(c, s, e))
  {
    hide Inv, CanHappen, After;
    match e
    case AtNode(_, _) => NodesKeep(c, s, e);
    case PoolSide(_, _) => PoolSidesKeep(c, s, e);
    case PollNode(_, _) => PollsKeep(c, s, e);
    case PollPool(_, _) => PollsKeep(c, s, e);
  }

  lemma PollsKeep(c: Setup, s: Fabric, e: Event)
    requires Inv(c, s) && CanHappen(c, s, e) && (e.PollNode? || e.PollPool?)
    ensures Inv(c, After(c, s, e))
  {
    hide Inv, After, CanHappen, PortAt, Poll;
    Sizes(c, s);
    if e.PollNode? {
      AfterPollNode(c, s, e);
      PollKeeps(c, s, e.k, e.cycle);
    } else {
      AfterPollPool(c, s, e);
      PollKeeps(c, s, c.sw.nodes + e.p, e.cycle);
    }
  }

  lemma AfterPollNode(c: Setup, s: Fabric, e: Event)
    requires Inv(c, s) && CanHappen(c, s, e) && e.PollNode?
    ensures e.k < |s.nodes| == c.sw.nodes && |s.pools| == c.sw.pools && PortAt(c, s, e.k).lastTick == e.cycle
    ensures After(c, s, e) == Poll(c, s, e.k, e.cycle)
  {
    hide Inv, Poll, AtPool, NodeAfter, NodeCan, L.CanHappen, Routing;
    Sizes(c, s);
  }

  lemma AfterPollPool(c: Setup, s: Fabric, e: Event)
    requires Inv(c, s) && CanHappen(c, s, e) && e.PollPool?
    ensures |s.nodes| == c.sw.nodes && e.p < |s.pools| == c.sw.pools
    ensures PortAt(c, s, c.sw.nodes + e.p).lastTick == e.cycle
    ensures After(c, s, e) == Poll(c, s, c.sw.nodes + e.p, e.cycle)
  {
    hide Inv, Poll, AtPool, NodeAfter, NodeCan, L.CanHappen, Routing;
    Sizes(c, s);
  }

  lemma NodesKeep(c: Setup, s: Fabric, e: Event)
    requires Inv(c, s) && CanHappen(c, s, e) && e.AtNode?
    ensures Inv(c, After(c, s, e))
  {
    Sizes(c, s);
    assert NodeOk(c, s.nodes[e.k], s.hops, e.k);
    hide Inv, NodeAfter, NodeCan, NodeInv, NodeMessage;
    NodeAfterKeeps(c, s.nodes[e.k], e.k, e.move);
    NodeStep(c, s, e.k, NodeAfter(c, s.nodes[e.k], e.k, e.move));
  }

  lemma NodeAfterKeeps(c: Setup, n: NodeSide, k: nat, e: NodeEvent)
    requires NodeInv(NodePort(c, k), n) && NodeCan(c, n, k, e) && (forall ev :: ev in n.sent ==> NodeMessage(c, k, ev))
    requires k < c.sw.nodes <= c.sw.base && c.sw.base + c.sw.pools <= P.NO_NODE
    ensures var t := NodeAfter(c, n, k, e);
            && NodeInv(NodePort(c, k), t) && (forall ev :: ev in t.sent ==> NodeMessage(c, k, ev))
            && t.port.delivered == n.port.delivered && t.port.offered == n.port.offered
  {
    hide NodeInv, Q.Add, Q.Cleared, Q.Tick, Q.PopOrder;
    match e
    case Send(r) => SendKeeps(NodePort(c, k), n, P.EncodeRequest(r));
    case SendReset => SendKeeps(NodePort(c, k), n, Message([k, BROADCAST, RESET_UTIL]));
    case UpArrives => ArriveUpKeeps(NodePort(c, k), n);
    case DownArrives => ArriveDownKeeps(NodePort(c, k), n);
    case TickNode(cycle, order) => TickPortKeeps(NodePort(c, k), n, cycle, order);
  }

  lemma PoolSidesKeep(c: Setup, s: Fabric, e: Event)
    requires Inv(c, s) && CanHappen(c, s, e) && e.PoolSide?
    ensures Inv(c, After(c, s, e))
  {
    hide Inv, AtPool, L.CanHappen, Ticked, TickSends, Q.PopOrder;
    PoolSideKeeps(c, s, e.p, e.step);
  }

  lemma PoolSideKeeps(c: Setup, s: Fabric, p: nat, e: L.Event)
    requires Inv(c, s) && p < |s.pools| && p < |c.pools| && L.CanHappen(c.pools[p], s.pools[p], e) && !Routing(e)
    ensures Inv(c, AtPool(c, s, p, e))
  {
    var x := s.pools[p];
    PoolIs(c, s, p);
    hide L.Inv, L.After, L.CanHappen, Marked, NodeOk, HopOk, Inv, Routing;
    L.AfterKeeps(PoolPort(c, p), c.pools[p], x, e);
    PoolSideHistory(PoolPort(c, p), c.pools[p], x, e, c.sw.base + p);
    PoolStep(c, s, p, L.After(PoolPort(c, p), c.pools[p], x, e));
  }

  // Sums over messages.

  ghost function Sum<T(!new)>(f: T -> multiset<Message>, w: seq<T>): multiset<Message> {
    if w == [] then multiset{} else Sum(f, w[..|w| - 1]) + f(w[|w| - 1])
  }

  lemma {:induction false} SumConcat<T(!new)>(f: T -> multiset<Message>, v: seq<T>, w: seq<T>)
    ensures Sum(f, v + w) == Sum(f, v) + Sum(f, w)
  {
    if w == [] {
      assert v + w == v;
    } else {
      SumConcat(f, v, w[..|w| - 1]);
      assert (v + w)[..|v + w| - 1] == v + w[..|w| - 1];
    }
  }

  lemma SumOne<T(!new)>(f: T -> multiset<Message>, x: T)
    ensures Sum(f, [x]) == f(x)
  {
    assert [x][..0] == [];
  }

  lemma SumWithout<T(!new)>(f: T -> multiset<Message>, w: seq<T>, i: nat)
    requires i < |w|
    ensures Sum(f, w) == Sum(f, w[..i] + w[i + 1..]) + f(w[i])
  {
    hide Sum;
    assert w == (w[..i] + [w[i]]) + w[i + 1..];
    SumConcat(f, w[..i] + [w[i]], w[i + 1..]);
    SumConcat(f, w[..i], [w[i]]);
    SumConcat(f, w[..i], w[i + 1..]);
    SumOne(f, w[i]);
    Regroup(Sum(f, w[..i]), Sum(f, w[i + 1..]), f(w[i]));
  }

  lemma Regroup(a: multiset<Message>, b: multiset<Message>, x: multiset<Message>)
    ensures (a + x) + b == (a + b) + x
  {
  }

  lemma {:induction false} SumPermute<T(!new)>(f: T -> multiset<Message>, v: seq<T>, w: seq<T>)
    requires multiset(v) == multiset(w)
    ensures Sum(f, v) == Sum(f, w)
  {
    if v == [] {
      assert |multiset(w)| == |w|;
    } else {
      var last := v[|v| - 1];
      assert v == v[..|v| - 1] + [last];
      assert last in multiset(w);
      var i :| 0 <= i < |w| && w[i] == last;
      Q.Without(v, w, i);
      SumPermute(f, v[..|v| - 1], w[..i] + w[i + 1..]);
      SumWithout(f, w, i);
    }
  }

  ghost function Times(x: multiset<Message>, n: nat): multiset<Message> {
    if n == 0 then multiset{} else Times(x, n - 1) + x
  }

  ghost function Over(g: nat -> multiset<Message>, n: nat): multiset<Message> {
    if n == 0 then multiset{} else Over(g, n - 1) + g(n - 1)
  }

  lemma {:induction false} OverSame(g: nat -> multiset<Message>, h: nat -> multiset<Message>, n: nat)
    requires forall p: nat :: p < n ==> g(p) == h(p)
    ensures Over(g, n) == Over(h, n)
  {
    if n > 0 { OverSame(g, h, n - 1); }
  }

  lemma {:induction false} OverOne(g: nat -> multiset<Message>, h: nat -> multiset<Message>, n: nat, q: nat,
                                   x: multiset<Message>)
    requires q < n && forall p: nat :: p < n ==> h(p) == g(p) + if p == q then x else multiset{}
    ensures Over(h, n) == Over(g, n) + x
  {
    if q == n - 1 { OverSame(g, h, n - 1); } else { OverOne(g, h, n - 1, q, x); }
  }

  lemma {:induction false} OverAll(g: nat -> multiset<Message>, h: nat -> multiset<Message>, n: nat,
                                   x: multiset<Message>)
    requires forall p: nat :: p < n ==> h(p) == g(p) + x
    ensures Over(h, n) == Over(g, n) + Times(x, n)
  {
    if n > 0 { OverAll(g, h, n - 1, x); }
  }

  // Answers wanted and answers given, whichever pool they come from.

  function Erased(ev: Message): Message { if ev.payload == [] then ev else Message(ev.payload[0 := 0]) }

  /** The answer to a request, but for the pool's id. */
  function Expected(r: P.Request): Message {
    Message([0, r.src, r.address, r.vAddress, r.data, P.Word32(r.metadata), r.cpu, r.sstCpu, 64])
  }

  ghost function AnswersFor(k: nat): Message -> multiset<Message> {
    (ev: Message) => if |ev.payload| >= 2 && ev.payload[1] == k then multiset{Erased(ev)} else multiset{}
  }

  ghost function Wanted(k: nat): P.Request -> multiset<Message> {
    (r: P.Request) => if r.responseRequested && r.src == k then multiset{Expected(r)} else multiset{}
  }

  ghost function Wants(k: nat): Message -> multiset<Message> {
    (ev: Message) => if IsReset(ev) then multiset{} else Wanted(k)(P.DecodeRequest(ev))
  }

  /** How many pools a request goes to. */
  ghost function Copies(c: Setup, ev: Message): nat {
    if c.sw.replicate && S.IsWrite(ev) then c.sw.pools else 1
  }

  /** The answers due to node k for one of its messages: one for each pool it goes to, if it wants one. */
  ghost function Due(c: Setup, k: nat): Message -> multiset<Message> {
    (ev: Message) => Times(Wants(k)(ev), Copies(c, ev))
  }

  // In one pool.

  ghost function AnswersDue(c: P.PoolConfig, accepted: seq<P.Request>, n: nat): seq<P.Answer>
    requires n <= |accepted|
  {
    if n == 0 then []
    else
      AnswersDue(c, accepted, n - 1)
      + if accepted[n - 1].responseRequested then [P.AnswerOf(c, P.Job(n, accepted[n - 1]))] else []
  }

  lemma {:induction false} AnswersDueCount(c: P.PoolConfig, accepted: seq<P.Request>, n: nat, a: P.Answer)
    requires n <= |accepted|
    ensures multiset(AnswersDue(c, accepted, n))[a]
         == if 1 <= a.tag <= n && accepted[a.tag - 1].responseRequested
               && a == P.AnswerOf(c, P.Job(a.tag, accepted[a.tag - 1])) then 1 else 0
  {
    hide P.EncodeResponse, P.Drafted, P.EgressPort;
    if n > 0 { AnswersDueCount(c, accepted, n - 1, a); }
  }

  /** Nothing is inside the pool. */
  ghost predicate Emptied(s: P.Pool) { s.pq == [] && s.returned == [] && Q.Carried(s.queue) == multiset{} }

  lemma AnsweredAll(c: P.PoolConfig, s: P.Pool)
    requires P.Inv(c, s) && Emptied(s)
    ensures multiset(s.answered) == multiset(AnswersDue(c, s.accepted, |s.accepted|))
  {
    forall a: P.Answer ensures multiset(s.answered)[a] == multiset(AnswersDue(c, s.accepted, |s.accepted|))[a] {
      AnswersDueCount(c, s.accepted, |s.accepted|, a);
      AnsweredOnce(c, s, a);
    }
  }

  lemma AnsweredOnce(c: P.PoolConfig, s: P.Pool, a: P.Answer)
    requires P.Inv(c, s) && Emptied(s)
    ensures multiset(s.answered)[a]
         == if 1 <= a.tag <= |s.accepted| && s.accepted[a.tag - 1].responseRequested
               && a == P.AnswerOf(c, P.Job(a.tag, s.accepted[a.tag - 1])) then 1 else 0
  {
    hide P.EncodeResponse, P.Drafted, P.EgressPort, Q.Inv, Q.Carried;
    if a in s.answered {
      assert P.KnownAnswer(c, s, a);
    } else {
      assert a !in multiset(s.answered);
    }
    if P.KnownTag(s, a.tag) { assert P.Settled(c, s, a.tag); }
  }

  ghost function ByAnswer(k: nat): P.Answer -> multiset<Message> { (a: P.Answer) => AnswersFor(k)(a.message) }

  lemma {:induction false} SumSent(k: nat, answered: seq<P.Answer>)
    ensures Sum(AnswersFor(k), L.Sent(answered)) == Sum(ByAnswer(k), answered)
  {
    if answered != [] {
      var n := |answered| - 1;
      SumSent(k, answered[..n]);
      assert L.Sent(answered)[..n] == L.Sent(answered[..n]);
    }
  }

  lemma AnswerExpected(c: P.PoolConfig, j: P.Job, k: nat)
    requires j.req.src < P.NO_NODE
    ensures ByAnswer(k)(P.AnswerOf(c, j)) == if j.req.src == k then multiset{Expected(j.req)} else multiset{}
  {
    var ev := P.AnswerOf(c, j).message;
    assert ev.payload[1] == j.req.src;
    assert Erased(ev).payload == Expected(j.req).payload;
    assert Erased(ev) == Expected(j.req);
    assert ByAnswer(k)(P.AnswerOf(c, j)) == AnswersFor(k)(ev);
  }

  lemma {:induction false} SumDue(c: P.PoolConfig, k: nat, accepted: seq<P.Request>, n: nat)
    requires n <= |accepted| && forall i :: 0 <= i < |accepted| ==> accepted[i].src < P.NO_NODE
    ensures Sum(ByAnswer(k), AnswersDue(c, accepted, n)) == Sum(Wanted(k), accepted[..n])
  {
    if n > 0 {
      SumDue(c, k, accepted, n - 1);
      assert accepted[..n][..n - 1] == accepted[..n - 1];
      var r := accepted[n - 1];
      AnswerExpected(c, P.Job(n, r), k);
      hide P.AnswerOf, Expected;
      if r.responseRequested {
        SumConcat(ByAnswer(k), AnswersDue(c, accepted, n - 1), [P.AnswerOf(c, P.Job(n, r))]);
        SumOne(ByAnswer(k), P.AnswerOf(c, P.Job(n, r)));
      } else {
        assert AnswersDue(c, accepted, n) == AnswersDue(c, accepted, n - 1);
      }
    }
  }

  lemma {:induction false} SumAsked(k: nat, w: seq<Message>)
    ensures Sum(Wanted(k), L.Asked(w)) == Sum(Wants(k), w)
  {
    if w != [] {
      var ev := w[|w| - 1];
      SumAsked(k, w[..|w| - 1]);
      if IsReset(ev) {
        assert L.Asked(w) == L.Asked(w[..|w| - 1]);
      } else {
        SumConcat(Wanted(k), L.Asked(w[..|w| - 1]), [P.DecodeRequest(ev)]);
        SumOne(Wanted(k), P.DecodeRequest(ev));
      }
    }
  }

  /** A pool with nothing inside has given each node one answer to each request that wanted one, and nothing else. */
  lemma PoolAnswersAll(c: P.PoolConfig, s: P.Pool, delivered: seq<Message>, k: nat)
    requires P.Inv(c, s) && Emptied(s) && s.accepted == L.Asked(delivered)
    requires forall r :: r in s.accepted ==> r.src < P.NO_NODE
    ensures Sum(AnswersFor(k), L.Sent(s.answered)) == Sum(Wants(k), delivered)
  {
    var n := |s.accepted|;
    AnsweredAll(c, s);
    hide P.Inv;
    SumSent(k, s.answered);
    SumPermute(ByAnswer(k), s.answered, AnswersDue(c, s.accepted, n));
    SumDue(c, k, s.accepted, n);
    assert s.accepted[..n] == s.accepted;
    SumAsked(k, delivered);
  }

  // In the switch.

  ghost function AnswersFrom(c: Setup, hops: seq<Hop>, k: nat): nat -> multiset<Message> {
    (p: nat) => Sum(AnswersFor(k), From(hops, c.sw.nodes + p))
  }

  ghost function WantsFrom(c: Setup, hops: seq<Hop>, k: nat): nat -> multiset<Message> {
    (p: nat) => Sum(Wants(k), ToPool(c, hops, p))
  }

  ghost predicate HopsOk(c: Setup, hops: seq<Hop>) {
    c.sw.nodes <= c.sw.base <= c.sw.base + c.sw.pools <= P.NO_NODE
    && forall i :: 0 <= i < |hops| ==> HopOk(c, hops[i])
  }

  /** What the switch gives a node are the answers that pools have for it. */
  lemma {:induction false} AnswersPassOn(c: Setup, hops: seq<Hop>, k: nat)
    requires HopsOk(c, hops) && k < c.sw.nodes
    ensures Sum(AnswersFor(k), ToNode(c, hops, k)) == Over(AnswersFrom(c, hops, k), c.sw.pools)
  {
    if hops == [] {
      var g := AnswersFrom(c, hops, k);
      assert forall p: nat :: g(p) == Sum(AnswersFor(k), From(hops, c.sw.nodes + p));
      OverNothing(g, c.sw.pools);
    } else {
      var n := |hops| - 1;
      var h := hops[n];
      assert HopOk(c, h);
      AnswersPassOn(c, hops[..n], k);
      SumConcat(AnswersFor(k), ToNode(c, hops[..n], k), NodeCopies(c, h, k));
      AnswerHop(c, hops[..n], h, k);
      assert hops == hops[..n] + [h];
    }
  }

  lemma {:induction false} OverNothing(g: nat -> multiset<Message>, n: nat)
    requires forall p: nat :: p < n ==> g(p) == multiset{}
    ensures Over(g, n) == multiset{}
  {
    if n > 0 { OverNothing(g, n - 1); }
  }

  lemma AnswerHop(c: Setup, hops: seq<Hop>, h: Hop, k: nat)
    requires HopOk(c, h) && c.sw.nodes <= c.sw.base && k < c.sw.nodes
    ensures Over(AnswersFrom(c, hops + [h], k), c.sw.pools)
         == Over(AnswersFrom(c, hops, k), c.sw.pools) + Sum(AnswersFor(k), NodeCopies(c, h, k))
  {
    hide HopOk, NodeCopies, From, Sum, AnswersFrom, AnswersFor, Over;
    var g, t := AnswersFrom(c, hops, k), AnswersFrom(c, hops + [h], k);
    AnswerCopies(c, h, k);
    forall p: nat | p < c.sw.pools
      ensures t(p) == g(p) + if h.from == c.sw.nodes + p then AnswersFor(k)(h.ev) else multiset{}
    {
      AnswerHopAt(c, hops, h, k, p);
    }
    if h.from >= c.sw.nodes {
      OverOne(g, t, c.sw.pools, h.from - c.sw.nodes, AnswersFor(k)(h.ev));
    } else {
      OverSame(g, t, c.sw.pools);
    }
  }

  lemma AnswerHopAt(c: Setup, hops: seq<Hop>, h: Hop, k: nat, p: nat)
    ensures AnswersFrom(c, hops + [h], k)(p) == AnswersFrom(c, hops, k)(p)
      + if h.from == c.sw.nodes + p then AnswersFor(k)(h.ev) else multiset{}
  {
    FromHopSum(AnswersFor(k), hops, h, c.sw.nodes + p);
  }

  lemma AnswerCopies(c: Setup, h: Hop, k: nat)
    requires HopOk(c, h) && c.sw.nodes <= c.sw.base && k < c.sw.nodes
    ensures Sum(AnswersFor(k), NodeCopies(c, h, k)) == if h.from < c.sw.nodes then multiset{} else AnswersFor(k)(h.ev)
    ensures h.from >= c.sw.nodes ==> h.from - c.sw.nodes < c.sw.pools
  {
    SumOne(AnswersFor(k), h.ev);
  }

  /** What the switch gives the pools are the requests of the nodes, as often as they are to be copied. */
  lemma {:induction false} RequestsPassOn(c: Setup, hops: seq<Hop>, k: nat)
    requires HopsOk(c, hops) && k < c.sw.nodes
    ensures Over(WantsFrom(c, hops, k), c.sw.pools) == Sum(Due(c, k), From(hops, k))
  {
    hide HopOk, Due, WantsFrom, ToPool, From, Sum, Over;
    if hops == [] {
      NoRequests(c, k);
    } else {
      var n := |hops| - 1;
      var h := hops[n];
      assert HopOk(c, h);
      RequestsPassOn(c, hops[..n], k);
      RequestStep(c, hops[..n], h, k);
      assert hops == hops[..n] + [h];
    }
  }

  lemma NoRequests(c: Setup, k: nat)
    ensures Over(WantsFrom(c, [], k), c.sw.pools) == Sum(Due(c, k), From([], k))
  {
    var g := WantsFrom(c, [], k);
    assert forall p: nat :: g(p) == Sum(Wants(k), ToPool(c, [], p));
    OverNothing(g, c.sw.pools);
  }

  lemma RequestStep(c: Setup, hops: seq<Hop>, h: Hop, k: nat)
    requires HopsOk(c, [h]) && k < c.sw.nodes
    requires Over(WantsFrom(c, hops, k), c.sw.pools) == Sum(Due(c, k), From(hops, k))
    ensures Over(WantsFrom(c, hops + [h], k), c.sw.pools) == Sum(Due(c, k), From(hops + [h], k))
  {
    hide HopsOk, Due, WantsFrom, From, Sum, Over;
    RequestHop(c, hops, h, k);
    FromHopSum(Due(c, k), hops, h, k);
  }

  lemma FromHopSum(f: Message -> multiset<Message>, hops: seq<Hop>, h: Hop, k: nat)
    ensures Sum(f, From(hops + [h], k)) == Sum(f, From(hops, k)) + if h.from == k then f(h.ev) else multiset{}
  {
    assert (hops + [h])[..|hops|] == hops;
    SumOne(f, h.ev);
    SumConcat(f, From(hops, k), if h.from == k then [h.ev] else []);
  }

  lemma RequestHop(c: Setup, hops: seq<Hop>, h: Hop, k: nat)
    requires HopsOk(c, [h]) && k < c.sw.nodes
    ensures Over(WantsFrom(c, hops + [h], k), c.sw.pools)
         == Over(WantsFrom(c, hops, k), c.sw.pools) + if h.from == k then Due(c, k)(h.ev) else multiset{}
  {
    var g, t := WantsFrom(c, hops, k), WantsFrom(c, hops + [h], k);
    HopMore(c, hops, h);
    assert HopOk(c, [h][0]);
    var x := if h.from == k then Wants(k)(h.ev) else multiset{};
    forall p: nat | p < c.sw.pools ensures t(p) == g(p) + Sum(Wants(k), PoolCopies(c, h, p)) {
      SumConcat(Wants(k), ToPool(c, hops, p), PoolCopies(c, h, p));
    }
    hide WantsFrom, HopOk, Wants;
    RequestCopies(c, h, k);
    if S.ForAllPools(c.sw, h.ev) {
      OverAll(g, t, c.sw.pools, x);
    } else if S.ForPools(c.sw, h.ev) {
      OverOne(g, t, c.sw.pools, h.pick, x);
    } else {
      OverSame(g, t, c.sw.pools);
    }
  }

  lemma RequestCopies(c: Setup, h: Hop, k: nat)
    requires HopsOk(c, [h]) && k < c.sw.nodes
    ensures var x := if h.from == k then Wants(k)(h.ev) else multiset{};
            && (forall p: nat :: p < c.sw.pools ==> Sum(Wants(k), PoolCopies(c, h, p)) == GivenTo(c, h, p, x))
            && (if h.from == k then Due(c, k)(h.ev) else multiset{})
               == (if S.ForAllPools(c.sw, h.ev) then Times(x, c.sw.pools)
                   else if S.ForPools(c.sw, h.ev) then x else multiset{})
            && (S.ForPools(c.sw, h.ev) && !S.ForAllPools(c.sw, h.ev) ==> h.pick < c.sw.pools)
  {
    assert HopOk(c, [h][0]);
    var x := if h.from == k then Wants(k)(h.ev) else multiset{};
    forall p: nat | p < c.sw.pools ensures Sum(Wants(k), PoolCopies(c, h, p)) == GivenTo(c, h, p, x) {
      SumOne(Wants(k), S.Copy(c.sw, h.ev, p));
      if h.from < c.sw.nodes { CopyWants(c, h, k, p); }
    }
    DueCopies(c, h, k);
  }

  ghost function GivenTo(c: Setup, h: Hop, p: nat, x: multiset<Message>): multiset<Message> {
    if S.ForAllPools(c.sw, h.ev) || (S.ForPools(c.sw, h.ev) && h.pick == p) then x else multiset{}
  }

  lemma DueCopies(c: Setup, h: Hop, k: nat)
    requires HopsOk(c, [h]) && k < c.sw.nodes
    ensures var x := if h.from == k then Wants(k)(h.ev) else multiset{};
            (if h.from == k then Due(c, k)(h.ev) else multiset{})
              == (if S.ForAllPools(c.sw, h.ev) then Times(x, c.sw.pools)
                  else if S.ForPools(c.sw, h.ev) then x else multiset{})
  {
    assert HopOk(c, [h][0]);
    TimesNothing(c.sw.pools);
    TimesNothing(Copies(c, h.ev));
    assert forall x :: Times(x, 1) == Times(x, 0) + x == x;
  }

  lemma {:induction false} TimesNothing(n: nat)
    ensures Times(multiset{}, n) == multiset{}
  {
    if n > 0 { TimesNothing(n - 1); }
  }

  lemma CopyWants(c: Setup, h: Hop, k: nat, p: nat)
    requires HopsOk(c, [h]) && k < c.sw.nodes && h.from < c.sw.nodes
    ensures Wants(k)(S.Copy(c.sw, h.ev, p)) == if h.from == k then Wants(k)(h.ev) else multiset{}
  {
    assert HopOk(c, [h][0]);
    var copy := S.Copy(c.sw, h.ev, p);
    if !IsReset(h.ev) {
      assert P.DecodeRequest(copy) == P.DecodeRequest(h.ev).(dst := P.DecodeRequest(copy).dst);
      assert P.DecodeRequest(copy).src == h.from;
      assert !IsReset(copy) && Expected(P.DecodeRequest(copy)) == Expected(P.DecodeRequest(h.ev));
      assert Wants(k)(copy) == Wanted(k)(P.DecodeRequest(copy));
      assert Wants(k)(h.ev) == Wanted(k)(P.DecodeRequest(h.ev));
    } else {
      assert IsReset(copy);
      assert Wants(k)(copy) == multiset{} == Wants(k)(h.ev);
    }
  }

  // With everything at rest.

  ghost predicate NodeQuiet(n: NodeSide) {
    n.up == [] && Queued(n.port) == [] && n.port.egress == [] && Messages(n.down) == multiset{}
  }

  ghost predicate PoolQuiet(x: L.System) {
    && L.Quiet(x) && x.link.a.egress == [] && Messages(x.link.ab) == multiset{} && Queued(x.link.b) == []
  }

  /** Nothing is on its way anywhere. */
  ghost predicate Quiet(s: Fabric) {
    && (forall k :: 0 <= k < |s.nodes| ==> NodeQuiet(s.nodes[k]))
    && (forall p :: 0 <= p < |s.pools| ==> PoolQuiet(s.pools[p]))
  }

  lemma NodeRests(c: PortConfig, n: NodeSide)
    requires NodeInv(c, n) && NodeQuiet(n)
    ensures multiset(n.sent) == multiset(n.port.delivered) && multiset(n.port.offered) == multiset(n.got)
  {
    hide PortInv, Queued, Messages;
  }

  lemma LinkRests(ca: PortConfig, cb: PortConfig, l: Link)
    requires LinkInv(ca, cb, l) && l.a.egress == [] && Messages(l.ab) == multiset{} && Queued(l.b) == []
    requires l.b.egress == [] && Messages(l.ba) == multiset{} && Queued(l.a) == []
    ensures multiset(l.a.offered) == multiset(l.b.delivered) && multiset(l.b.offered) == multiset(l.a.delivered)
  {
    L.LinkFlows(ca, cb, l);
    hide LinkInv, Queued, Messages;
  }

  /** A pool at rest has had handed to the switch one answer for each node's request that wanted one. */
  lemma PoolRests(c: Setup, s: Fabric, p: nat, k: nat)
    requires Inv(c, s) && p < |s.pools| && PoolQuiet(s.pools[p])
    ensures Sum(AnswersFor(k), From(s.hops, c.sw.nodes + p)) == Sum(Wants(k), ToPool(c, s.hops, p))
  {
    hide Inv, LinkInv, P.Inv, HopOk, From, ToPool, Marked, PoolSet, L.Asked, Queued, Q.Carried, Sum, AnswersFor,
      Wants, Messages, L.Sent;
    Sizes(c, s);
    PoolIs(c, s, p);
    var x := s.pools[p];
    forall r | r in x.pool.accepted ensures r.src < P.NO_NODE { AcceptedFromNodes(c, s, p, r); }
    LinkRests(PoolPort(c, p), c.pools[p].link, x.link);
    PoolAnswersAll(c.pools[p], x.pool, x.link.b.delivered, k);
    SumPermute(AnswersFor(k), x.link.b.offered, x.link.a.delivered);
    SumPermute(Wants(k), x.link.a.offered, x.link.b.delivered);
  }

  /** The messages, but for the id of the pool they come from. */
  ghost function ErasedAll(w: seq<Message>): multiset<Message> {
    if w == [] then multiset{} else ErasedAll(w[..|w| - 1]) + multiset{Erased(w[|w| - 1])}
  }

  lemma {:induction false} ErasedSum(w: seq<Message>, k: nat)
    requires forall ev :: ev in w ==> |ev.payload| >= 2 && ev.payload[1] == k
    ensures Sum(AnswersFor(k), w) == ErasedAll(w)
  {
    if w != [] {
      ErasedSum(w[..|w| - 1], k);
      assert w[|w| - 1] in w;
    }
  }

  lemma {:induction false} ToNodeNames(c: Setup, hops: seq<Hop>, k: nat)
    ensures forall ev :: ev in ToNode(c, hops, k) ==> |ev.payload| >= 2 && ev.payload[1] == k
  {
    if hops != [] { ToNodeNames(c, hops[..|hops| - 1], k); }
  }

  lemma NodeGot(c: Setup, s: Fabric, k: nat)
    requires Inv(c, s) && k < |s.nodes| && NodeQuiet(s.nodes[k])
    ensures ErasedAll(s.nodes[k].got) == Sum(AnswersFor(k), ToNode(c, s.hops, k))
    ensures Sum(Due(c, k), s.nodes[k].sent) == Sum(Due(c, k), From(s.hops, k))
  {
    var n := s.nodes[k];
    assert NodeOk(c, n, s.hops, k);
    hide Inv, From, ToNode, NodeMessage;
    NodeRests(NodePort(c, k), n);
    hide NodeInv;
    SumPermute(Due(c, k), n.sent, n.port.delivered);
    SumPermute(AnswersFor(k), n.port.offered, n.got);
    ToNodeNames(c, s.hops, k);
    forall ev | ev in n.got ensures |ev.payload| >= 2 && ev.payload[1] == k {
      assert ev in multiset(n.got) && ev in multiset(n.port.offered);
    }
    ErasedSum(n.got, k);
  }

  /** At rest each node has been given exactly the answers due to it: one, with its address and data, from each pool
    * that each of its requests went to, if the request wanted an answer, and nothing else. */
  lemma QuietIsAnswered(c: Setup, s: Fabric, k: nat)
    requires Inv(c, s) && Quiet(s) && k < |s.nodes|
    ensures ErasedAll(s.nodes[k].got) == Sum(Due(c, k), s.nodes[k].sent)
  {
    hide HopOk, NodeOk, PoolOk, NodeQuiet, PoolQuiet, Due, AnswersFor, Wants, Sum, Over, ErasedAll;
    Sizes(c, s);
    assert HopsOk(c, s.hops);
    hide Inv, HopsOk;
    NodeGot(c, s, k);
    AnswersPassOn(c, s.hops, k);
    RequestsPassOn(c, s.hops, k);
    forall p: nat | p < c.sw.pools ensures AnswersFrom(c, s.hops, k)(p) == WantsFrom(c, s.hops, k)(p) {
      PoolRests(c, s, p, k);
    }
    OverSame(AnswersFrom(c, s.hops, k), WantsFrom(c, s.hops, k), c.sw.pools);
  }

  // Whole runs.

  function Idle(c: Setup): Fabric
    requires |c.pools| == c.sw.pools
  {
    Fabric(seq(c.sw.nodes, k requires 0 <= k < c.sw.nodes => NodeSide([], Configured(NodePort(c, k)), [], [], [])),
           seq(c.sw.pools, p requires 0 <= p < c.sw.pools => L.Idle(PoolPort(c, p), c.pools[p])), 0, 0, [], [])
  }

  lemma IdleNode(c: PortConfig)
    ensures NodeInv(c, NodeSide([], Configured(c), [], [], []))
  {
    Q.FreshInv(IngressConfig(c));
  }

  lemma IdleInv(c: Setup)
    requires WellSet(c)
    ensures Inv(c, Idle(c))
  {
    var s := Idle(c);
    forall k | 0 <= k < |s.nodes| ensures NodeOk(c, s.nodes[k], s.hops, k) { IdleNode(NodePort(c, k)); }
    forall p | 0 <= p < |s.pools| ensures PoolOk(c, s.pools[p], s.hops, p) {
      assert PoolSet(c, c.pools[p], p);
      L.IdleInv(PoolPort(c, p), c.pools[p]);
    }
    hide NodeOk, PoolOk;
  }

  ghost predicate Steps(c: Setup, s: Fabric, e: Event, t: Fabric) {
    Inv(c, s) && CanHappen(c, s, e) && t == After(c, s, e)
  }

  /** Each state follows from the one before; the invariant, proved below, only makes the step well defined. */
  ghost predicate IsRun(c: Setup, states: seq<Fabric>, events: seq<Event>) {
    && WellSet(c) && |states| == |events| + 1 && states[0] == Idle(c)
    && forall i :: 0 <= i < |events| && Inv(c, states[i]) ==> Steps(c, states[i], events[i], states[i + 1])
  }

  lemma {:induction false} RunInv(c: Setup, states: seq<Fabric>, events: seq<Event>, i: nat)
    requires IsRun(c, states, events) && i < |states|
    ensures Inv(c, states[i])
  {
    hide Inv, After, CanHappen, Idle;
    if i == 0 {
      IdleInv(c);
    } else {
      RunInv(c, states, events, i - 1);
      assert Steps(c, states[i - 1], events[i - 1], states[i]);
      AfterKeeps(c, states[i - 1], events[i - 1]);
    }
  }

  /** In every run of nodes, switch and pools, under either policy and with or without replication: every message
    * arrives at the port it comes in at and has a route, no pool throws, and whenever nothing is on its way any more,
    * each node has been given exactly one answer by each pool that each of its requests went to, if it wanted one. */
  lemma RunAnswersNodes(c: Setup, states: seq<Fabric>, events: seq<Event>, i: nat)
    requires IsRun(c, states, events) && i < |states|
    ensures Inv(c, states[i])
    ensures var s := states[i];
            && (forall k, ev :: 0 <= k < |s.nodes| && ev in s.nodes[k].up ==> ArrivalPort(c, ev) == Some(k))
            && (forall p, ev :: 0 <= p < |s.pools| && ev in s.pools[p].link.ba ==>
                  ArrivalPort(c, ev) == Some(c.sw.nodes + p))
            && (forall k :: 0 <= k < |s.nodes| && s.nodes[k].port.ready != [] ==>
                  !S.TryRoute(c.sw, SwitchOf(s), s.nodes[k].port.ready[0]).Failed?)
            && (forall p :: 0 <= p < |s.pools| && s.pools[p].link.a.ready != [] ==>
                  !S.TryRoute(c.sw, SwitchOf(s), s.pools[p].link.a.ready[0]).Failed?)
            && (Quiet(s) ==> forall k :: 0 <= k < |s.nodes| ==>
                  ErasedAll(s.nodes[k].got) == Sum(Due(c, k), s.nodes[k].sent))
  {
    RunInv(c, states, events, i);
    var s := states[i];
    NeverFails(c, s);
    ArrivesAtItsPort(c, s);
    hide NodeOk, PoolOk, HopOk, Quiet, S.TryRoute, ArrivalPort, Due, IsRun;
    if Quiet(s) {
      forall k | 0 <= k < |s.nodes| ensures ErasedAll(s.nodes[k].got) == Sum(Due(c, k), s.nodes[k].sent) {
        QuietIsAnswered(c, s, k);
      }
    }
  }

  // Once a cycle.

  /** The switch's ports, and those of the pools, each take a tick and hand over a message at most once in a cycle. */
  ghost predicate AllPaced(s: Fabric) {
    && (forall k :: 0 <= k < |s.nodes| ==> Paced(s.nodes[k].port))
    && (forall p :: 0 <= p < |s.pools| ==> L.LinkPaced(s.pools[p].link))
  }

  /** Cycles do not go back at the port looked at. */
  ghost predicate EventInTime(s: Fabric, e: Event) {
    match e
    case AtNode(k, TickNode(cycle, _)) => k < |s.nodes| ==> NotBefore(s.nodes[k].port, cycle)
    case PoolSide(p, x) => p < |s.pools| ==> L.EventInTime(s.pools[p], x)
    case _ => true
  }

  lemma ServedPaced(c: PortConfig, p: Port, quiet: bool, copies: seq<Message>)
    requires Paced(p)
    ensures Paced(Served(c, p, quiet, copies))
  {
    HandledPaced(c, p, if copies == [] then Message([]) else copies[0]);
    if copies != [] { HandledPaced(c, S.Quiet(p), copies[0]); }
    hide Paced, Handled, Enqueued, Q.Cleared;
  }

  lemma NodeServedPaced(c: Setup, n: NodeSide, h: Hop, k: nat, copies: seq<Message>, cycle: nat)
    requires Paced(n.port) && (h.from == k ==> n.port.lastTick == cycle && n.port.lastDeliver != cycle)
    ensures Paced(NodeServed(c, n, h, k, copies, cycle).port)
  {
    ServedPaced(c.sw.link, n.port, IsReset(h.ev), copies);
    ServedHistory(c.sw.link, n.port, IsReset(h.ev), copies);
    var v := Served(c.sw.link, n.port, IsReset(h.ev), copies);
    hide Paced, Served, Popped, CreditFor;
    if h.from == k && v.ready != [] { PopPaced(v, cycle); }
  }

  lemma PoolServedPaced(c: Setup, x: L.System, h: Hop, p: nat, copies: seq<Message>, cycle: nat)
    requires L.LinkPaced(x.link)
    requires h.from == c.sw.nodes + p ==> x.link.a.lastTick == cycle && x.link.a.lastDeliver != cycle
    ensures L.LinkPaced(PoolServed(c, x, h, p, copies, cycle).link)
  {
    ServedPaced(c.sw.link, x.link.a, IsReset(h.ev), copies);
    ServedHistory(c.sw.link, x.link.a, IsReset(h.ev), copies);
    var v := Served(c.sw.link, x.link.a, IsReset(h.ev), copies);
    hide Paced, Served, Popped, CreditFor;
    if h.from == c.sw.nodes + p && v.ready != [] { PopPaced(v, cycle); }
  }

  lemma PollPaced(c: Setup, s: Fabric, from: nat, cycle: nat)
    requires Inv(c, s) && from < c.sw.nodes + c.sw.pools && PortAt(c, s, from).lastTick == cycle && AllPaced(s)
    ensures AllPaced(Poll(c, s, from, cycle))
  {
    hide NodeOk, PoolOk, HopOk, S.TryRoute, Passed, WellSet, NodeServed, PoolServed, Paced, NodeCopies, PoolCopies,
      PickOf, L.LinkPaced;
    var port := PortAt(c, s, from);
    if Offers(port, cycle) {
      match S.TryRoute(c.sw, SwitchOf(s), port.ready[0])
      case Routed(t) =>
        PassedIs(c, s, from, cycle);
        var h := Hop(from, port.ready[0], PickOf(c, s, t));
        var u := Passed(c, s, t, from, cycle);
        forall k | 0 <= k < |u.nodes| ensures Paced(u.nodes[k].port) {
          NodeServedPaced(c, s.nodes[k], h, k, NodeCopies(c, h, k), cycle);
        }
        forall p | 0 <= p < |u.pools| ensures L.LinkPaced(u.pools[p].link) {
          PoolServedPaced(c, s.pools[p], h, p, PoolCopies(c, h, p), cycle);
        }
      case _ =>
    }
  }

  lemma NodeAfterPaced(c: Setup, n: NodeSide, k: nat, e: NodeEvent)
    requires NodeCan(c, n, k, e) && Paced(n.port) && (e.TickNode? ==> NotBefore(n.port, e.cycle))
    ensures Paced(NodeAfter(c, n, k, e).port)
  {
    hide Paced, Ticked, Handled, Q.PopOrder, TickSends;
    match e
    case UpArrives => HandledPaced(NodePort(c, k), n.port, n.up[0]);
    case TickNode(cycle, order) => TickPaced(NodePort(c, k), n.port, cycle, order);
    case _ =>
  }

  lemma NodesPaced(c: Setup, s: Fabric, e: Event)
    requires Inv(c, s) && CanHappen(c, s, e) && e.AtNode? && AllPaced(s) && EventInTime(s, e)
    ensures AllPaced(After(c, s, e))
  {
    hide Inv, Paced, NodeAfter, NodeCan, L.LinkPaced, NotBefore;
    NodeAfterPaced(c, s.nodes[e.k], e.k, e.move);
  }

  lemma PoolSidesPaced(c: Setup, s: Fabric, e: Event)
    requires Inv(c, s) && CanHappen(c, s, e) && e.PoolSide? && AllPaced(s) && EventInTime(s, e)
    ensures AllPaced(After(c, s, e))
  {
    PoolIs(c, s, e.p);
    hide Inv, Paced, L.CanHappen, L.After, L.Inv, L.LinkPaced, L.EventInTime, Routing;
    L.AfterPaced(PoolPort(c, e.p), c.pools[e.p], s.pools[e.p], e.step);
  }

  lemma AfterPaced(c: Setup, s: Fabric, e: Event)
    requires Inv(c, s) && CanHappen(c, s, e) && AllPaced(s) && EventInTime(s, e)
    ensures AllPaced(After(c, s, e))
  {
    hide Inv, CanHappen, After, AllPaced, EventInTime, Poll, PortAt;
    if e.PollNode? {
      AfterPollNode(c, s, e);
      PollPaced(c, s, e.k, e.cycle);
    } else if e.PollPool? {
      AfterPollPool(c, s, e);
      PollPaced(c, s, c.sw.nodes + e.p, e.cycle);
    } else if e.PoolSide? {
      PoolSidesPaced(c, s, e);
    } else {
      NodesPaced(c, s, e);
    }
  }

  /** In every run in which cycles do not go back at a port, no port of the switch or of a pool hands over more than one
    * message in a cycle, and none outside the cycles in which it was ticked. */
  lemma {:induction false} RunOnceACycle(c: Setup, states: seq<Fabric>, events: seq<Event>, i: nat)
    requires IsRun(c, states, events) && i < |states| && forall j :: 0 <= j < i ==> EventInTime(states[j], events[j])
    ensures AllPaced(states[i])
  {
    hide Inv, CanHappen, After, EventInTime;
    if i > 0 {
      hide AllPaced, Idle;
      RunOnceACycle(c, states, events, i - 1);
      RunInv(c, states, events, i - 1);
      assert Steps(c, states[i - 1], events[i - 1], states[i]);
      AfterPaced(c, states[i - 1], events[i - 1]);
    }
  }

  // A node returns no credits.

  /** The credits left do not cover the first message. */
  predicate Stuck(p: Port) { p.egress != [] && !CanConsume(p.credits, CreditBytes(p.egress[0])) }

  predicate StillStuck(p: Port, t: Port) {
    Stuck(p) && Stuck(t) && t.egress[0] == p.egress[0] && t.credits == p.credits
  }

  lemma TickStuck(c: PortConfig, n: NodeSide, cycle: nat, order: seq<Q.Transit<Message>>)
    requires FabricPorts.Sound(n.port) && Stuck(n.port)
    ensures var t := TickPort(c, n, cycle, order); StillStuck(n.port, t.port) && t.down == n.down
  {
    DrainNone(n.port.credits, n.port.egress);
    hide Q.Tick;
  }

  lemma ArriveStuck(c: PortConfig, n: NodeSide)
    requires NodeInv(c, n) && n.up != [] && Stuck(n.port)
    ensures StillStuck(n.port, ArriveUp(c, n).port)
  {
    UpSent(c, n, n.up[0]);
    hide PortInv, Queued, Q.Add, Q.Cleared;
  }

  lemma ServedStuck(c: Setup, n: NodeSide, h: Hop, k: nat, copies: seq<Message>, cycle: nat)
    requires Stuck(n.port)
    ensures StillStuck(n.port, NodeServed(c, n, h, k, copies, cycle).port)
  {
    hide CreditFor, IsReset, MsgBytes;
  }

  lemma PollStuck(c: Setup, s: Fabric, from: nat, cycle: nat, k: nat)
    requires Inv(c, s) && from < c.sw.nodes + c.sw.pools && k < |s.nodes| && Stuck(s.nodes[k].port)
    ensures var t := Poll(c, s, from, cycle); k < |t.nodes| && StillStuck(s.nodes[k].port, t.nodes[k].port)
  {
    hide NodeOk, PoolOk, HopOk, S.TryRoute, Passed, WellSet, NodeServed, PoolServed, Stuck, StillStuck, NodeCopies,
      PoolCopies, PickOf;
    var port := PortAt(c, s, from);
    assert StillStuck(s.nodes[k].port, s.nodes[k].port) by { StuckAsIs(s.nodes[k].port); }
    if Offers(port, cycle) {
      match S.TryRoute(c.sw, SwitchOf(s), port.ready[0])
      case Routed(t) =>
        PassedIs(c, s, from, cycle);
        var h := Hop(from, port.ready[0], PickOf(c, s, t));
        ServedStuck(c, s.nodes[k], h, k, NodeCopies(c, h, k), cycle);
      case _ =>
    }
  }

  lemma StuckAsIs(p: Port)
    requires Stuck(p)
    ensures StillStuck(p, p)
  {
  }

  lemma NodeAfterStuck(c: Setup, n: NodeSide, k: nat, e: NodeEvent)
    requires NodeInv(NodePort(c, k), n) && NodeCan(c, n, k, e) && Stuck(n.port)
    ensures StillStuck(n.port, NodeAfter(c, n, k, e).port)
  {
    StuckAsIs(n.port);
    hide NodeInv, Stuck, StillStuck, ArriveUp, TickPort, Q.PopOrder;
    match e
    case UpArrives => ArriveStuck(NodePort(c, k), n);
    case TickNode(cycle, order) => TickStuck(NodePort(c, k), n, cycle, order);
    case _ =>
  }

  lemma NodesStuck(c: Setup, s: Fabric, e: Event, k: nat)
    requires Inv(c, s) && CanHappen(c, s, e) && k < |s.nodes| && Stuck(s.nodes[k].port) && e.AtNode?
    ensures var t := After(c, s, e); k < |t.nodes| && StillStuck(s.nodes[k].port, t.nodes[k].port)
  {
    StuckAsIs(s.nodes[k].port);
    NodeIs(c, s, k);
    hide Inv, Stuck, StillStuck, NodeInv, NodeAfter, NodeCan;
    if e.k == k { NodeAfterStuck(c, s.nodes[k], k, e.move); }
  }

  lemma PoolSideStuck(c: Setup, s: Fabric, e: Event)
    requires Inv(c, s) && CanHappen(c, s, e) && e.PoolSide?
    ensures After(c, s, e).nodes == s.nodes
  {
    hide Inv, AtPool, L.CanHappen, Routing;
    AtPoolNodes(c, s, e.p, e.step);
  }

  lemma AtPoolNodes(c: Setup, s: Fabric, p: nat, e: L.Event)
    requires Inv(c, s) && p < |s.pools| && p < |c.pools| && L.CanHappen(c.pools[p], s.pools[p], e)
    ensures AtPool(c, s, p, e).nodes == s.nodes
  {
    hide Inv, L.CanHappen, L.After;
  }

  lemma NodeIs(c: Setup, s: Fabric, k: nat)
    requires Inv(c, s) && k < |s.nodes|
    ensures NodeInv(NodePort(c, k), s.nodes[k])
  {
    assert NodeOk(c, s.nodes[k], s.hops, k);
    hide Inv, NodeInv;
  }

  lemma AfterStuck(c: Setup, s: Fabric, e: Event, k: nat)
    requires Inv(c, s) && CanHappen(c, s, e) && k < |s.nodes| && Stuck(s.nodes[k].port)
    ensures var t := After(c, s, e); k < |t.nodes| && StillStuck(s.nodes[k].port, t.nodes[k].port)
  {
    hide Inv, CanHappen, After, Stuck, StillStuck, Poll, PortAt;
    if e.PollNode? {
      AfterPollNode(c, s, e);
      PollStuck(c, s, e.k, e.cycle, k);
    } else if e.PollPool? {
      AfterPollPool(c, s, e);
      PollStuck(c, s, c.sw.nodes + e.p, e.cycle, k);
    } else if e.PoolSide? {
      PoolSideStuck(c, s, e);
      StuckAsIs(s.nodes[k].port);
    } else {
      NodesStuck(c, s, e, k);
    }
  }

  /** Over a bounded link a node never gets more answers than the link's queue has places, however long the run. */
  lemma RunStarvesNodes(c: Setup, states: seq<Fabric>, events: seq<Event>, i: nat, k: nat)
    requires IsRun(c, states, events) && i < |states| && k < |states[i].nodes| && Capacity(c.sw.link) < INFINITE
    ensures var n := states[i].nodes[k];
            && Data(n.got) + Data(n.down) + n.port.credits == Capacity(c.sw.link) && n.port.credits >= 0
            && |n.got| <= c.sw.link.queueSize
  {
    RunInv(c, states, events, i);
    NodeIs(c, states[i], k);
    GotCosts(c, states[i], k);
    hide Inv, PortInv, UpOk, DownOk, IsRun;
  }

  /** An answer that the credits left do not cover is never sent, nor is any after it. */
  lemma {:induction false} RunStaysStuck(c: Setup, states: seq<Fabric>, events: seq<Event>, i: nat, j: nat, k: nat)
    requires IsRun(c, states, events) && i <= j < |states| && k < |states[i].nodes| && Stuck(states[i].nodes[k].port)
    ensures k < |states[j].nodes| && StillStuck(states[i].nodes[k].port, states[j].nodes[k].port)
    decreases j
  {
    hide Inv, CanHappen, After, Idle;
    if i < j {
      RunStaysStuck(c, states, events, i, j - 1, k);
      RunInv(c, states, events, j - 1);
      assert Steps(c, states[j - 1], events[j - 1], states[j]);
      AfterStuck(c, states[j - 1], events[j - 1], k);
    }
  }

  /** Answers have 64 bytes. */
  lemma GotCosts(c: Setup, s: Fabric, k: nat)
    requires Inv(c, s) && k < |s.nodes|
    ensures Data(s.nodes[k].got) == 64 * |s.nodes[k].got|
  {
    var n := s.nodes[k];
    Sizes(c, s);
    assert NodeOk(c, n, s.hops, k);
    hide Inv, PortInv, UpOk, From, ToNode, NodeMessage;
    forall ev | ev in n.got ensures CreditBytes(ev) == 64 {
      assert ev in multiset(n.got) && ev in multiset(n.port.offered);
      var h := ToNodeHop(c, s.hops, k, ev);
      GivenAnswer(c, s, k, h);
    }
    EachCosts(n.got);
  }

  lemma ToNodeHop(c: Setup, hops: seq<Hop>, k: nat, ev: Message) returns (h: Hop)
    requires ev in ToNode(c, hops, k)
    ensures h in hops && h.ev == ev && NodeCopies(c, h, k) == [ev]
  {
    var n := |hops| - 1;
    if ev in NodeCopies(c, hops[n], k) { h := hops[n]; } else { h := ToNodeHop(c, hops[..n], k, ev); }
  }

  lemma GivenAnswer(c: Setup, s: Fabric, k: nat, h: Hop)
    requires Inv(c, s) && h in s.hops && NodeCopies(c, h, k) != []
    ensures IsAnswer(c, h.ev) && CreditBytes(h.ev) == 64
  {
    hide NodeOk, PoolOk;
    assert HopOk(c, h);
  }

  lemma {:induction false} EachCosts(w: seq<Message>)
    requires forall ev :: ev in w ==> CreditBytes(ev) == 64
    ensures Data(w) == 64 * |w|
  {
    if w != [] {
      EachCosts(w[..|w| - 1]);
      assert w[|w| - 1] in w;
    }
  }
}
