/** The credit-controlled ports of src/fabric_port.cc, alone and joined by two wires. */
module FabricPorts {
  import opened Options
  import opened Q = LatBwQueue

  const INFINITE: int := 0x7FFF_FFFF_FFFF_FFFF / 4
  const NEVER: nat := 0xFFFF_FFFF_FFFF_FFFF
  const BROADCAST: nat := 0xFFFF_FFFF_FFFF_FFFF
  const DEFAULT_BYTES: nat := 64
  const RESET_UTIL: nat := 1
  const CREDIT: nat := 2

  datatype Message = Message(payload: seq<nat>)

  datatype PortConfig = PortConfig(id: nat, bw: nat, lat: nat, queueSize: nat)

  /** `offered` and `delivered` are the histories of what was queued for sending and handed to the owner, `ticked` and
    * `handed` those of the cycles in which the port was ticked and in which something was handed over. */
  datatype Port = Port(credits: int, egress: seq<Message>, ingress: Queue<Message>, ready: seq<Message>,
                       lastTick: nat, lastDeliver: nat, offered: seq<Message>, delivered: seq<Message>,
                       ticked: seq<nat>, handed: seq<nat>)

  // Messages.

  function AtLeastOne(n: nat): nat { if n < 1 then 1 else n }

  function MsgBytes(ev: Message): (b: nat)
    ensures b >= 1
  {
    if |ev.payload| > 16 then AtLeastOne(ev.payload[16])
    else if |ev.payload| > 8 then AtLeastOne(ev.payload[8])
    else DEFAULT_BYTES
  }

  predicate IsControl(ev: Message) { |ev.payload| == 3 || |ev.payload| == 4 }

  function CreditBytes(ev: Message): nat { if IsControl(ev) then 0 else MsgBytes(ev) }

  predicate IsCredit(ev: Message) { IsControl(ev) && ev.payload[2] == CREDIT }

  predicate IsReset(ev: Message) { IsControl(ev) && ev.payload[2] == RESET_UTIL }

  function CreditValue(ev: Message): nat
    requires IsCredit(ev)
  {
    if |ev.payload| > 3 then ev.payload[3] else 0
  }

  function CreditDst(ev: Message): nat { if ev.payload != [] then ev.payload[0] else BROADCAST }

  // One port.

  function Capacity(c: PortConfig): int { if c.queueSize > 0 then c.queueSize * DEFAULT_BYTES else INFINITE }

  function IngressConfig(c: PortConfig): Config<Message> {
    Config(64.0 / (AtLeastOne(c.bw) as real), (load: real) => AtLeastOne(c.lat),
           Some((ev: Message) => MsgBytes(ev) as real), 0)
  }

  function Configured(c: PortConfig): Port {
    Port(Capacity(c), [], Q.Fresh(), [], NEVER, NEVER, [], [], [], [])
  }

  function AddCredit(credits: int, cap: int, bytes: nat): int {
    if credits == INFINITE || bytes == 0 then credits
    else if cap < credits + bytes then cap else credits + bytes
  }

  predicate CanConsume(credits: int, bytes: nat) { bytes == 0 || credits == INFINITE || credits >= bytes }

  function Consume(credits: int, bytes: nat): int {
    if bytes == 0 || credits == INFINITE then credits else credits - bytes
  }

  predicate CanSend(c: PortConfig, p: Port) { c.queueSize == 0 || |p.egress| < c.queueSize }

  function Enqueued(c: PortConfig, p: Port, ev: Message): Port {
    if CanSend(c, p) then p.(egress := p.egress + [ev], offered := p.offered + [ev]) else p
  }

  /** How much of the egress queue the credits let out. */
  function Drained(credits: int, egress: seq<Message>): (n: nat)
    ensures n <= |egress|
    decreases |egress|
  {
    if egress == [] || !CanConsume(credits, CreditBytes(egress[0])) then 0
    else 1 + Drained(Consume(credits, CreditBytes(egress[0])), egress[1..])
  }

  function Spend(credits: int, sent: seq<Message>): int
    decreases |sent|
  {
    if sent == [] then credits else Spend(Consume(credits, CreditBytes(sent[0])), sent[1..])
  }

  predicate Sound(p: Port) { |p.ingress.hist| == WINDOW && p.ingress.idx < WINDOW }

  function TickIngress(c: PortConfig, p: Port, order: seq<Transit<Message>>): Port
    requires Sound(p)
  {
    p.(ingress := Q.Tick(IngressConfig(c), p.ingress, order), ready := p.ready + Payloads(order))
  }

  function DrainEgress(p: Port): Port {
    var n := Drained(p.credits, p.egress);
    p.(credits := Spend(p.credits, p.egress[..n]), egress := p.egress[n..])
  }

  function Outgoing(p: Port): seq<Message> { p.egress[..Drained(p.credits, p.egress)] }

  function Started(p: Port, cycle: nat): Port { p.(lastTick := cycle, ticked := p.ticked + [cycle]) }

  function Ticked(c: PortConfig, p: Port, cycle: nat, order: seq<Transit<Message>>): Port
    requires Sound(p)
  {
    if p.lastTick == cycle then p else DrainEgress(TickIngress(c, Started(p, cycle), order))
  }

  function TickSends(p: Port, cycle: nat): seq<Message> {
    if p.lastTick == cycle then [] else Outgoing(p)
  }

  /** Whether try_receive hands over the first ready message. */
  predicate Takes(p: Port, cycle: nat, handle: Message -> bool) {
    p.lastDeliver != cycle && p.ready != [] && handle(p.ready[0])
  }

  /** The first ready message has been handed over. */
  function Popped(p: Port, cycle: nat): Port
    requires p.ready != []
  {
    p.(ready := p.ready[1..], lastDeliver := cycle, delivered := p.delivered + [p.ready[0]],
       handed := p.handed + [cycle])
  }

  function Received(c: PortConfig, p: Port, cycle: nat, order: seq<Transit<Message>>, handle: Message -> bool): Port
    requires Sound(p)
  {
    var t := Ticked(c, p, cycle, order);
    if Takes(t, cycle, handle) then Popped(t, cycle) else t
  }

  function CreditFor(c: PortConfig, ev: Message): seq<Message> {
    if CreditBytes(ev) == 0 then [] else [Message([c.id, CreditDst(ev), CREDIT, CreditBytes(ev)])]
  }

  function ReceiveSends(c: PortConfig, p: Port, cycle: nat, order: seq<Transit<Message>>, handle: Message -> bool)
    : seq<Message>
    requires Sound(p)
  {
    var t := Ticked(c, p, cycle, order);
    TickSends(p, cycle) + if Takes(t, cycle, handle) then CreditFor(c, t.ready[0]) else []
  }

  function Handled(c: PortConfig, p: Port, ev: Message): Port {
    if IsCredit(ev) then p.(credits := AddCredit(p.credits, Capacity(c), CreditValue(ev)))
    else
      var q := if IsReset(ev) then Cleared(p.ingress) else p.ingress;
      p.(ingress := Add(IngressConfig(c), q, ev))
  }

  // Two ports joined by wires.

  datatype Link = Link(a: Port, b: Port, ab: seq<Message>, ba: seq<Message>)

  function Flip(l: Link): Link { Link(l.b, l.a, l.ba, l.ab) }

  datatype Action =
    | Offer(left: bool, ev: Message)
    | TickAt(left: bool, cycle: nat, order: seq<Transit<Message>>)
    | ReceiveAt(left: bool, cycle: nat, order: seq<Transit<Message>>, handle: Message -> bool)
    | ArriveAt(left: bool)

  /** What may happen at port a: the owner offers a message that is not itself a credit, the port is ticked or
    * asked for a message, or the first message on the wire towards it arrives. */
  ghost predicate LeftEnabled(l: Link, act: Action) {
    match act
    case Offer(_, ev) => !IsCredit(ev)
    case TickAt(_, cycle, order) => Sound(l.a) && (l.a.lastTick != cycle ==> PopOrder(l.a.ingress, order))
    case ReceiveAt(_, cycle, order, _) => Sound(l.a) && (l.a.lastTick != cycle ==> PopOrder(l.a.ingress, order))
    case ArriveAt(_) => l.ba != []
  }

  ghost function Left(c: PortConfig, l: Link, act: Action): Link
    requires LeftEnabled(l, act)
  {
    match act
    case Offer(_, ev) => l.(a := Enqueued(c, l.a, ev))
    case TickAt(_, cycle, order) => l.(a := Ticked(c, l.a, cycle, order), ab := l.ab + TickSends(l.a, cycle))
    case ReceiveAt(_, cycle, order, handle) =>
      l.(a := Received(c, l.a, cycle, order, handle), ab := l.ab + ReceiveSends(c, l.a, cycle, order, handle))
    case ArriveAt(_) => l.(a := Handled(c, l.a, l.ba[0]), ba := l.ba[1..])
  }

  ghost predicate Enabled(l: Link, act: Action) { LeftEnabled(if act.left then l else Flip(l), act) }

  ghost function Apply(ca: PortConfig, cb: PortConfig, l: Link, act: Action): Link
    requires Enabled(l, act)
  {
    if act.left then Left(ca, l, act) else Flip(Left(cb, Flip(l), act))
  }

  // Where the bytes are.

  function Data(w: seq<Message>): nat {
    if w == [] then 0 else Data(w[..|w| - 1]) + CreditBytes(w[|w| - 1])
  }

  function Returning(w: seq<Message>): nat {
    if w == [] then 0
    else Returning(w[..|w| - 1]) + if IsCredit(w[|w| - 1]) then CreditValue(w[|w| - 1]) else 0
  }

  ghost function Messages(w: seq<Message>): multiset<Message> {
    if w == [] then multiset{}
    else Messages(w[..|w| - 1]) + if IsCredit(w[|w| - 1]) then multiset{} else multiset{w[|w| - 1]}
  }

  function Queued(p: Port): seq<Message> {
    Waiting(p.ingress.blocked) + Payloads(p.ingress.active) + p.ready
  }

  function Held(p: Port): nat { Data(Queued(p)) }

  /** Credits, bytes on the wire, bytes buffered by the receiver and credit coming back make up the capacity. */
  ghost predicate Settled(c: PortConfig, a: Port, ab: seq<Message>, b: Port, ba: seq<Message>) {
    Capacity(c) < INFINITE ==>
      0 <= a.credits <= Capacity(c) && a.credits + Data(ab) + Held(b) + Returning(ba) == Capacity(c)
  }

  /** Every message offered is in exactly one place, as often as it was offered. */
  ghost predicate Flows(a: Port, ab: seq<Message>, b: Port) {
    multiset(a.offered) == multiset(a.egress) + Messages(ab) + multiset(Queued(b)) + multiset(b.delivered)
  }

  ghost predicate PortInv(c: PortConfig, p: Port) {
    && Q.Inv(IngressConfig(c), p.ingress)
    && (c.queueSize > 0 ==> |p.egress| <= c.queueSize)
    && (forall ev :: ev in p.egress ==> !IsCredit(ev))
  }

  ghost predicate LinkInv(ca: PortConfig, cb: PortConfig, l: Link) {
    && PortInv(ca, l.a) && PortInv(cb, l.b)
    && Settled(ca, l.a, l.ab, l.b, l.ba) && Settled(cb, l.b, l.ba, l.a, l.ab)
    && Flows(l.a, l.ab, l.b) && Flows(l.b, l.ba, l.a)
  }

  // Sums over messages.

  lemma {:induction false} DataConcat(v: seq<Message>, w: seq<Message>)
    ensures Data(v + w) == Data(v) + Data(w) && Returning(v + w) == Returning(v) + Returning(w)
    ensures Messages(v + w) == Messages(v) + Messages(w)
  {
    if w == [] {
      assert v + w == v;
    } else {
      DataConcat(v, w[..|w| - 1]);
      assert (v + w)[..|v + w| - 1] == v + w[..|w| - 1];
    }
  }

  lemma DataOne(ev: Message)
    ensures Data([ev]) == CreditBytes(ev)
    ensures Returning([ev]) == if IsCredit(ev) then CreditValue(ev) else 0
    ensures Messages([ev]) == if IsCredit(ev) then multiset{} else multiset{ev}
  {
    assert [ev][..0] == [];
  }

  lemma DataHead(w: seq<Message>)
    requires w != []
    ensures Data(w) == CreditBytes(w[0]) + Data(w[1..])
    ensures Returning(w) == (if IsCredit(w[0]) then CreditValue(w[0]) else 0) + Returning(w[1..])
    ensures Messages(w) == (if IsCredit(w[0]) then multiset{} else multiset{w[0]}) + Messages(w[1..])
  {
    assert w == [w[0]] + w[1..];
    DataConcat([w[0]], w[1..]);
    DataOne(w[0]);
  }

  /** The sum does not depend on the order of the messages. */
  lemma {:induction false} DataPermute(v: seq<Message>, w: seq<Message>)
    requires multiset(v) == multiset(w)
    ensures Data(v) == Data(w)
  {
    if v == [] {
      assert |multiset(w)| == |w|;
    } else {
      var last := v[|v| - 1];
      assert v == v[..|v| - 1] + [last];
      assert last in multiset(w);
      var i :| 0 <= i < |w| && w[i] == last;
      Without(v, w, i);
      DataPermute(v[..|v| - 1], w[..i] + w[i + 1..]);
      assert w == w[..i] + ([last] + w[i + 1..]);
      DataConcat(w[..i], [last] + w[i + 1..]);
      DataConcat([last], w[i + 1..]);
      DataConcat(w[..i], w[i + 1..]);
      DataOne(last);
    }
  }

  lemma {:induction false} OnlyMessages(w: seq<Message>)
    requires forall ev :: ev in w ==> !IsCredit(ev)
    ensures Returning(w) == 0 && Messages(w) == multiset(w)
  {
    if w != [] {
      OnlyMessages(w[..|w| - 1]);
      assert w == w[..|w| - 1] + [w[|w| - 1]];
    }
  }

  // What one port does.

  /** Draining the egress queue spends exactly the bytes it lets out and never overdraws. */
  lemma {:induction false} DrainSpends(credits: int, egress: seq<Message>)
    requires 0 <= credits < INFINITE
    ensures var n := Drained(credits, egress);
            && Spend(credits, egress[..n]) == credits - Data(egress[..n]) && Data(egress[..n]) <= credits
    decreases |egress|
  {
    var n := Drained(credits, egress);
    if n > 0 {
      DrainSpends(Consume(credits, CreditBytes(egress[0])), egress[1..]);
      assert egress[..n][1..] == egress[1..][..n - 1];
      DataHead(egress[..n]);
    }
  }

  /** It stops only at a message the remaining credits do not cover. */
  lemma {:induction false} DrainStops(credits: int, egress: seq<Message>)
    ensures var n := Drained(credits, egress);
            n < |egress| ==> !CanConsume(Spend(credits, egress[..n]), CreditBytes(egress[n]))
    decreases |egress|
  {
    var n := Drained(credits, egress);
    if n > 0 {
      DrainStops(Consume(credits, CreditBytes(egress[0])), egress[1..]);
      assert egress[..n][1..] == egress[1..][..n - 1];
    }
  }

  /** One port goes from p to t sending w: what its credits, its buffers and its messages keep. */
  ghost predicate Moves(c: PortConfig, p: Port, t: Port, w: seq<Message>) {
    && (Capacity(c) < INFINITE && 0 <= p.credits <= Capacity(c) ==>
         t.credits == p.credits - Data(w) && 0 <= t.credits)
    && Held(t) + Returning(w) == Held(p)
    && t.offered == p.offered && multiset(p.egress) == Messages(w) + multiset(t.egress)
    && multiset(Queued(t)) + multiset(t.delivered) == multiset(Queued(p)) + multiset(p.delivered)
  }

  lemma TickIngressKeeps(c: PortConfig, p: Port, order: seq<Transit<Message>>)
    requires Q.Inv(IngressConfig(c), p.ingress) && PopOrder(p.ingress, order)
    ensures var t := TickIngress(c, p, order);
            && Q.Inv(IngressConfig(c), t.ingress) && multiset(Queued(t)) == multiset(Queued(p))
  {
    TickKeeps(IngressConfig(c), p.ingress, order);
    TickCarries(IngressConfig(c), p.ingress, order);
    hide Q.Inv, Q.Tick, Payloads, Waiting, PopOrder;
  }

  lemma DrainMoves(c: PortConfig, p: Port)
    requires PortInv(c, p)
    ensures var t := DrainEgress(p);
            && PortInv(c, t) && Moves(c, p, t, Outgoing(p)) && Queued(t) == Queued(p)
            && forall ev :: ev in Outgoing(p) ==> !IsCredit(ev)
  {
    assert Queued(DrainEgress(p)) == Queued(p);
    hide Q.Inv, Queued;
    var w := Outgoing(p);
    OnlyMessages(w);
    assert p.egress == w + p.egress[|w|..];
    if 0 <= p.credits < INFINITE { DrainSpends(p.credits, p.egress); }
  }

  lemma StillMoves(c: PortConfig, p: Port, q: Port, t: Port, w: seq<Message>)
    requires Moves(c, q, t, w)
    requires q == p.(lastTick := q.lastTick, ticked := q.ticked, ingress := q.ingress, ready := q.ready)
    requires multiset(Queued(q)) == multiset(Queued(p))
    ensures Moves(c, p, t, w)
  {
    DataPermute(Queued(p), Queued(q));
  }

  lemma TickedMoves(c: PortConfig, p: Port, cycle: nat, order: seq<Transit<Message>>)
    requires PortInv(c, p) && Sound(p) && (p.lastTick != cycle ==> PopOrder(p.ingress, order))
    ensures var t := Ticked(c, p, cycle, order);
            && PortInv(c, t) && Moves(c, p, t, TickSends(p, cycle))
            && t.delivered == p.delivered && forall ev :: ev in TickSends(p, cycle) ==> !IsCredit(ev)
  {
    if p.lastTick != cycle {
      var q := TickIngress(c, Started(p, cycle), order);
      TickIngressKeeps(c, Started(p, cycle), order);
      assert multiset(Queued(q)) == multiset(Queued(p));
      hide Q.Inv, Q.Tick, Payloads, Waiting, PopOrder, Queued, Moves, Drained;
      DrainMoves(c, q);
      StillMoves(c, p, q, DrainEgress(q), Outgoing(q));
    }
  }

  lemma ReceivedMoves(c: PortConfig, p: Port, cycle: nat, order: seq<Transit<Message>>, handle: Message -> bool)
    requires PortInv(c, p) && Sound(p) && (p.lastTick != cycle ==> PopOrder(p.ingress, order))
    ensures var t := Received(c, p, cycle, order, handle);
            PortInv(c, t) && Moves(c, p, t, ReceiveSends(c, p, cycle, order, handle))
  {
    TickedMoves(c, p, cycle, order);
    var t := Ticked(c, p, cycle, order);
    var w := TickSends(p, cycle);
    hide Ticked, TickSends, Q.Inv, Waiting, Payloads;
    if Takes(t, cycle, handle) {
      TakesOne(c, p, t, w, cycle);
    } else {
      assert w + [] == w;
    }
  }

  lemma TakesOne(c: PortConfig, p: Port, t: Port, w: seq<Message>, cycle: nat)
    requires Moves(c, p, t, w) && t.ready != []
    ensures var u := Popped(t, cycle);
            Moves(c, p, u, w + CreditFor(c, t.ready[0]))
  {
    var ev := t.ready[0];
    var u := Popped(t, cycle);
    TakesHead(t, u, ev);
    hide Queued;
    CreditForOne(c, w, ev);
    hide Data, Returning, Messages, CreditFor, CreditBytes;
    Swap(multiset(Queued(u)), multiset(t.delivered), ev);
  }

  lemma CreditForOne(c: PortConfig, w: seq<Message>, ev: Message)
    ensures var v := w + CreditFor(c, ev);
            Data(v) == Data(w) && Returning(v) == Returning(w) + CreditBytes(ev) && Messages(v) == Messages(w)
  {
    DataConcat(w, CreditFor(c, ev));
    if CreditBytes(ev) > 0 { DataOne(CreditFor(c, ev)[0]); } else { assert CreditFor(c, ev) == []; }
  }

  lemma Swap(q: multiset<Message>, d: multiset<Message>, ev: Message)
    ensures q + (d + multiset{ev}) == (q + multiset{ev}) + d
  {
  }

  lemma TakesHead(t: Port, u: Port, ev: Message)
    requires t.ready != [] && ev == t.ready[0] && u.ready == t.ready[1..] && u.ingress == t.ingress
    ensures multiset(Queued(t)) == multiset(Queued(u)) + multiset{ev} && Held(t) == Held(u) + CreditBytes(ev)
  {
    hide Waiting, Payloads;
    assert t.ready == [ev] + u.ready;
    assert multiset(Queued(u) + [ev]) == multiset(Queued(t));
    DataPermute(Queued(u) + [ev], Queued(t));
    DataConcat(Queued(u), [ev]);
    DataOne(ev);
  }

  /** A port stays within its capacities whatever arrives; nothing arriving is refused. */
  lemma HandledKeeps(c: PortConfig, p: Port, ev: Message)
    requires PortInv(c, p)
    ensures PortInv(c, Handled(c, p, ev)) && !Full(IngressConfig(c), p.ingress)
  {
    ResetKeeps(IngressConfig(c), p.ingress);
    var q := if IsReset(ev) then Cleared(p.ingress) else p.ingress;
    AddKeeps(IngressConfig(c), q, ev);
  }

  lemma HandledBuffers(c: PortConfig, p: Port, ev: Message)
    requires !IsCredit(ev)
    ensures var t := Handled(c, p, ev);
            Held(t) == Held(p) + CreditBytes(ev) && multiset(Queued(t)) == multiset(Queued(p)) + multiset{ev}
  {
    var t := Handled(c, p, ev);
    var q := if IsReset(ev) then Cleared(p.ingress) else p.ingress;
    AddCarries(IngressConfig(c), q, ev);
    hide Waiting, Payloads, Add;
    assert multiset(Queued(t)) == Carried(t.ingress) + multiset(t.ready);
    assert multiset(Queued(p) + [ev]) == multiset(Queued(t));
    DataPermute(Queued(p) + [ev], Queued(t));
    DataConcat(Queued(p), [ev]);
    DataOne(ev);
  }

  // The invariant of two ports joined by wires.

  lemma ConfiguredInv(ca: PortConfig, cb: PortConfig)
    ensures LinkInv(ca, cb, Link(Configured(ca), Configured(cb), [], []))
  {
    FreshInv(IngressConfig(ca));
    FreshInv(IngressConfig(cb));
  }

  lemma FlipInv(ca: PortConfig, cb: PortConfig, l: Link)
    requires LinkInv(ca, cb, l)
    ensures LinkInv(cb, ca, Flip(l)) && Flip(Flip(l)) == l
  {
  }

  lemma MovesKeep(ca: PortConfig, cb: PortConfig, l: Link, t: Port, w: seq<Message>)
    requires LinkInv(ca, cb, l) && Moves(ca, l.a, t, w) && PortInv(ca, t)
    ensures LinkInv(ca, cb, l.(a := t, ab := l.ab + w))
  {
    hide Held, Queued, PortInv;
    DataConcat(l.ab, w);
    FlowsOn(l, t, w);
  }

  lemma FlowsOn(l: Link, t: Port, w: seq<Message>)
    requires Flows(l.a, l.ab, l.b) && Flows(l.b, l.ba, l.a)
    requires t.offered == l.a.offered && multiset(l.a.egress) == Messages(w) + multiset(t.egress)
    requires multiset(Queued(t)) + multiset(t.delivered) == multiset(Queued(l.a)) + multiset(l.a.delivered)
    ensures Flows(t, l.ab + w, l.b) && Flows(l.b, l.ba, t)
  {
    hide Queued, Messages;
    DataConcat(l.ab, w);
    FlowAlgebra(multiset(t.egress), Messages(w), Messages(l.ab), multiset(Queued(l.b)), multiset(l.b.delivered));
    FlowAlgebra(multiset(Queued(l.a)), multiset(l.a.delivered), multiset(l.b.egress), Messages(l.ba), multiset{});
    FlowAlgebra(multiset(Queued(t)), multiset(t.delivered), multiset(l.b.egress), Messages(l.ba), multiset{});
  }

  lemma FlowAlgebra(e: multiset<Message>, w: multiset<Message>, m: multiset<Message>, q: multiset<Message>,
                    d: multiset<Message>)
    ensures (w + e) + m + q + d == e + (m + w) + q + d
    ensures m + q + e + w == m + q + (e + w)
  {
  }

  lemma OfferKeeps(ca: PortConfig, cb: PortConfig, l: Link, ev: Message)
    requires LinkInv(ca, cb, l) && !IsCredit(ev)
    ensures LinkInv(ca, cb, l.(a := Enqueued(ca, l.a, ev)))
  {
  }

  lemma ArriveKeeps(ca: PortConfig, cb: PortConfig, l: Link)
    requires LinkInv(ca, cb, l) && l.ba != []
    ensures LinkInv(ca, cb, l.(a := Handled(ca, l.a, l.ba[0]), ba := l.ba[1..]))
  {
    HandledKeeps(ca, l.a, l.ba[0]);
    if IsCredit(l.ba[0]) {
      CreditKeeps(ca, cb, l, Handled(ca, l.a, l.ba[0]));
    } else {
      HandledBuffers(ca, l.a, l.ba[0]);
      BufferKeeps(ca, cb, l, Handled(ca, l.a, l.ba[0]));
    }
  }

  /** A credit arriving is never cut off by the capacity. */
  lemma CreditKeeps(ca: PortConfig, cb: PortConfig, l: Link, t: Port)
    requires LinkInv(ca, cb, l) && l.ba != [] && IsCredit(l.ba[0]) && PortInv(ca, t)
    requires t == l.a.(credits := AddCredit(l.a.credits, Capacity(ca), CreditValue(l.ba[0])))
    ensures LinkInv(ca, cb, l.(a := t, ba := l.ba[1..]))
    ensures Capacity(ca) < INFINITE ==> t.credits == l.a.credits + CreditValue(l.ba[0])
  {
    DataHead(l.ba);
    assert Queued(t) == Queued(l.a);
    hide PortInv, Queued, Messages;
  }

  lemma BufferKeeps(ca: PortConfig, cb: PortConfig, l: Link, t: Port)
    requires LinkInv(ca, cb, l) && l.ba != [] && !IsCredit(l.ba[0]) && PortInv(ca, t)
    requires t == l.a.(ingress := t.ingress) && Held(t) == Held(l.a) + CreditBytes(l.ba[0])
    requires multiset(Queued(t)) == multiset(Queued(l.a)) + multiset{l.ba[0]}
    ensures LinkInv(ca, cb, l.(a := t, ba := l.ba[1..]))
  {
    DataHead(l.ba);
    BufferedFlows(l, t, l.ba[0]);
    hide PortInv, Held, Flows, Messages;
  }

  lemma BufferedFlows(l: Link, t: Port, ev: Message)
    requires Flows(l.a, l.ab, l.b) && Flows(l.b, l.ba, l.a) && l.ba != [] && ev == l.ba[0] && !IsCredit(ev)
    requires t == l.a.(ingress := t.ingress) && multiset(Queued(t)) == multiset(Queued(l.a)) + multiset{ev}
    ensures Flows(t, l.ab, l.b) && Flows(l.b, l.ba[1..], t)
  {
    DataHead(l.ba);
    hide Queued, Messages;
  }

  lemma LeftKeeps(ca: PortConfig, cb: PortConfig, l: Link, act: Action)
    requires LinkInv(ca, cb, l) && LeftEnabled(l, act)
    ensures LinkInv(ca, cb, Left(ca, l, act))
  {
    match act
    case Offer(_, ev) => OfferKeeps(ca, cb, l, ev);
    case TickAt(_, cycle, order) =>
      TickedMoves(ca, l.a, cycle, order);
      MovesKeep(ca, cb, l, Ticked(ca, l.a, cycle, order), TickSends(l.a, cycle));
    case ReceiveAt(_, cycle, order, handle) =>
      ReceivedMoves(ca, l.a, cycle, order, handle);
      MovesKeep(ca, cb, l, Received(ca, l.a, cycle, order, handle), ReceiveSends(ca, l.a, cycle, order, handle));
    case ArriveAt(_) => ArriveKeeps(ca, cb, l);
  }

  lemma ApplyKeeps(ca: PortConfig, cb: PortConfig, l: Link, act: Action)
    requires LinkInv(ca, cb, l) && Enabled(l, act)
    ensures LinkInv(ca, cb, Apply(ca, cb, l, act))
  {
    FlipInv(ca, cb, l);
    hide LinkInv, LeftEnabled, Left;
    if act.left {
      LeftKeeps(ca, cb, l, act);
    } else {
      LeftKeeps(cb, ca, Flip(l), act);
      FlipInv(cb, ca, Left(cb, Flip(l), act));
    }
  }

  // Whole runs.

  ghost predicate IsRun(ca: PortConfig, cb: PortConfig, states: seq<Link>, acts: seq<Action>) {
    && |states| == |acts| + 1 && states[0] == Link(Configured(ca), Configured(cb), [], [])
    && forall i :: 0 <= i < |acts| ==> Steps(ca, cb, states[i], acts[i], states[i + 1])
  }

  ghost predicate Steps(ca: PortConfig, cb: PortConfig, l: Link, act: Action, m: Link) {
    Enabled(l, act) && m == Apply(ca, cb, l, act)
  }

  lemma {:induction false} RunInv(ca: PortConfig, cb: PortConfig, states: seq<Link>, acts: seq<Action>, i: nat)
    requires IsRun(ca, cb, states, acts) && i < |states|
    ensures LinkInv(ca, cb, states[i])
  {
    if i == 0 {
      ConfiguredInv(ca, cb);
    } else {
      RunInv(ca, cb, states, acts, i - 1);
      assert Steps(ca, cb, states[i - 1], acts[i - 1], states[i]);
      hide LinkInv, Apply, Enabled;
      ApplyKeeps(ca, cb, states[i - 1], acts[i - 1]);
    }
  }

  function DataMessages(w: seq<Message>): nat {
    if w == [] then 0 else DataMessages(w[..|w| - 1]) + if IsControl(w[|w| - 1]) then 0 else 1
  }

  lemma {:induction false} EachCostsAByte(w: seq<Message>)
    ensures DataMessages(w) <= Data(w)
  {
    if w != [] { EachCostsAByte(w[..|w| - 1]); }
  }

  /** In every reachable state credits, wire, receiver and returning credit add up to the capacity of a bounded
    * sender, so that what the receiver buffers is bounded by it; both queues keep to their sizes and every message
    * offered is queued, on the wire, buffered or delivered, as often as it was offered. */
  lemma RunSettles(ca: PortConfig, cb: PortConfig, states: seq<Link>, acts: seq<Action>, i: nat)
    requires IsRun(ca, cb, states, acts) && i < |states|
    ensures var l := states[i];
            && (Capacity(ca) < INFINITE ==>
                 && l.a.credits >= 0 && DataMessages(Queued(l.b)) <= Held(l.b)
                 && l.a.credits + Data(l.ab) + Held(l.b) + Returning(l.ba) == Capacity(ca))
            && (Capacity(cb) < INFINITE ==>
                 && l.b.credits >= 0 && DataMessages(Queued(l.a)) <= Held(l.a)
                 && l.b.credits + Data(l.ba) + Held(l.a) + Returning(l.ab) == Capacity(cb))
            && (ca.queueSize > 0 ==> |l.a.egress| <= ca.queueSize)
            && (cb.queueSize > 0 ==> |l.b.egress| <= cb.queueSize)
            && multiset(l.a.offered) == multiset(l.a.egress) + Messages(l.ab) + multiset(Queued(l.b))
                + multiset(l.b.delivered)
            && multiset(l.b.offered) == multiset(l.b.egress) + Messages(l.ba) + multiset(Queued(l.a))
                + multiset(l.a.delivered)
  {
    RunInv(ca, cb, states, acts, i);
    EachCostsAByte(Queued(states[i].a));
    EachCostsAByte(Queued(states[i].b));
  }

  /** In every reachable state an arriving credit is added in full: the clamp never acts. */
  lemma RunLosesNoCredit(ca: PortConfig, cb: PortConfig, states: seq<Link>, acts: seq<Action>, i: nat)
    requires IsRun(ca, cb, states, acts) && i < |states| && Capacity(ca) < INFINITE
    requires states[i].ba != [] && IsCredit(states[i].ba[0])
    ensures var l := states[i];
            Handled(ca, l.a, l.ba[0]).credits == l.a.credits + CreditValue(l.ba[0]) <= Capacity(ca)
  {
    RunInv(ca, cb, states, acts, i);
    DataHead(states[i].ba);
  }

  function Outstanding(l: Link): nat { Data(l.ab) + Held(l.b) + Returning(l.ba) }

  /** After a tick the first message left in the egress queue waits for bytes that are still on their way. */
  lemma BlockedHeadWaitsForCredit(ca: PortConfig, cb: PortConfig, l: Link, cycle: nat, order: seq<Transit<Message>>)
    requires LinkInv(ca, cb, l) && Capacity(ca) < INFINITE && l.a.lastTick != cycle
    requires LeftEnabled(l, TickAt(true, cycle, order))
    ensures var m := Left(ca, l, TickAt(true, cycle, order));
            m.a.egress != [] ==>
              && m.a.credits < CreditBytes(m.a.egress[0])
              && (CreditBytes(m.a.egress[0]) <= Capacity(ca) ==> Outstanding(m) > 0)
  {
    LeftKeeps(ca, cb, l, TickAt(true, cycle, order));
    DrainStops(l.a.credits, l.a.egress);
    hide Held, LinkInv, Q.Tick, PopOrder;
    var m := Left(ca, l, TickAt(true, cycle, order));
    if m.a.egress != [] {
      SettledAfter(ca, cb, m);
      assert m.a.egress[0] == l.a.egress[Drained(l.a.credits, l.a.egress)];
    }
  }

  lemma SettledAfter(ca: PortConfig, cb: PortConfig, l: Link)
    requires LinkInv(ca, cb, l) && Capacity(ca) < INFINITE
    ensures 0 <= l.a.credits <= Capacity(ca) && l.a.credits + Outstanding(l) == Capacity(ca)
  {
    hide Held, PortInv, Flows;
  }

  // Once in a cycle.

  predicate Rising(s: seq<nat>) { forall i, j :: 0 <= i < j < |s| ==> s[i] < s[j] }

  /** The port has been ticked at most once in each cycle, its queue exactly as often as the port, and it has handed
    * over at most one message in each cycle in which it was ticked. */
  ghost predicate Paced(p: Port) {
    && Rising(p.ticked) && Rising(p.handed) && |p.handed| == |p.delivered| && p.ingress.clock == |p.ticked|
    && p.lastTick == (if p.ticked == [] then NEVER else p.ticked[|p.ticked| - 1])
    && p.lastDeliver == (if p.handed == [] then NEVER else p.handed[|p.handed| - 1])
    && forall x :: x in p.handed ==> x in p.ticked
  }

  /** Cycles do not go back. */
  predicate NotBefore(p: Port, cycle: nat) { p.ticked == [] || p.lastTick <= cycle }

  lemma TickPaced(c: PortConfig, p: Port, cycle: nat, order: seq<Transit<Message>>)
    requires Sound(p) && Paced(p) && NotBefore(p, cycle)
    ensures var t := Ticked(c, p, cycle, order);
            && Paced(t) && t.lastTick == cycle && t.handed == p.handed && t.delivered == p.delivered
            && (t.ticked == [] ==> t.lastTick == NEVER)
  {
    if p.lastTick != cycle {
      ServiceFrame(IngressConfig(c), Released(p.ingress, order), IngressConfig(c).peak);
      hide Service, Released, Payloads, Drained, IngressConfig;
    }
  }

  lemma PopPaced(p: Port, cycle: nat)
    requires Paced(p) && p.lastTick == cycle && p.lastDeliver != cycle && p.ready != []
    ensures Paced(Popped(p, cycle))
  {
    if p.handed != [] { assert p.handed[0] in p.ticked; }
    assert p.ticked[|p.ticked| - 1] == cycle;
    forall i | 0 <= i < |p.handed| ensures p.handed[i] <= cycle {
      assert p.handed[i] in p.ticked;
      var k :| 0 <= k < |p.ticked| && p.ticked[k] == p.handed[i];
    }
    forall i | 0 <= i < |p.handed| ensures p.handed[i] < cycle {
      assert i < |p.handed| - 1 ==> p.handed[i] < p.handed[|p.handed| - 1];
    }
  }

  lemma ReceivePaced(c: PortConfig, p: Port, cycle: nat, order: seq<Transit<Message>>, handle: Message -> bool)
    requires Sound(p) && Paced(p) && NotBefore(p, cycle)
    ensures Paced(Received(c, p, cycle, order, handle))
  {
    TickPaced(c, p, cycle, order);
    var t := Ticked(c, p, cycle, order);
    hide Ticked, Paced;
    if Takes(t, cycle, handle) { PopPaced(t, cycle); }
  }

  lemma HandledPaced(c: PortConfig, p: Port, ev: Message)
    requires Paced(p)
    ensures Paced(Handled(c, p, ev)) && Paced(p.(ingress := Cleared(p.ingress))) && Paced(Enqueued(c, p, ev))
  {
  }

  /** The cycle at which the event looks at a port. */
  ghost predicate InTime(l: Link, act: Action) {
    match act
    case TickAt(left, cycle, _) => NotBefore(if left then l.a else l.b, cycle)
    case ReceiveAt(left, cycle, _, _) => NotBefore(if left then l.a else l.b, cycle)
    case _ => true
  }

  lemma ApplyPaced(ca: PortConfig, cb: PortConfig, l: Link, act: Action)
    requires Enabled(l, act) && InTime(l, act) && Paced(l.a) && Paced(l.b)
    ensures var m := Apply(ca, cb, l, act); Paced(m.a) && Paced(m.b)
  {
    var c, p := if act.left then ca else cb, if act.left then l.a else l.b;
    hide Paced, Ticked, Received, Handled, PopOrder;
    match act
    case Offer(_, ev) => HandledPaced(c, p, ev);
    case TickAt(_, cycle, order) => TickPaced(c, p, cycle, order);
    case ReceiveAt(_, cycle, order, handle) => ReceivePaced(c, p, cycle, order, handle);
    case ArriveAt(_) => HandledPaced(c, p, if act.left then l.ba[0] else l.ab[0]);
  }

  /** In every run in which cycles do not go back at a port, both ports are ticked, and hand over a message, at most
    * once in each cycle. */
  lemma {:induction false} RunOnceACycle(ca: PortConfig, cb: PortConfig, states: seq<Link>, acts: seq<Action>, i: nat)
    requires IsRun(ca, cb, states, acts) && i < |states| && forall k :: 0 <= k < i ==> InTime(states[k], acts[k])
    ensures Paced(states[i].a) && Paced(states[i].b)
  {
    if i > 0 {
      RunOnceACycle(ca, cb, states, acts, i - 1);
      assert Steps(ca, cb, states[i - 1], acts[i - 1], states[i]);
      hide Paced, Enabled, Apply, InTime;
      ApplyPaced(ca, cb, states[i - 1], acts[i - 1]);
    }
  }

  // How long a message is on its way through a port.

  /** So many cycles are not enough for so many bytes: 64 bytes take `bw` cycles, or one if that is zero. */
  predicate TooFew(c: PortConfig, cycles: int, bytes: real) {
    64.0 * cycles as real < bytes * (if c.bw == 0 then 1 else c.bw) as real
  }

  lemma SentIsScaled(c: PortConfig, cycles: int, bytes: real)
    ensures Sent(Rate(IngressConfig(c)), cycles) < bytes <==> TooFew(c, cycles, bytes)
  {
    var bw, x := AtLeastOne(c.bw) as real, cycles as real;
    assert Rate(IngressConfig(c)) == 64.0 / bw;
    hide Rate, IngressConfig;
    Scaled(bw, x, bytes);
  }

  lemma Scaled(bw: real, x: real, y: real)
    requires bw > 0.0
    ensures 64.0 / bw * x < y <==> 64.0 * x < y * bw
  {
    var r := 64.0 / bw;
    assert r * bw == 64.0;
    assert (r * x) * bw == 64.0 * x;
    if r * x < y { assert (r * x) * bw < y * bw; } else { assert (r * x) * bw >= y * bw; }
  }

  lemma LoneTakes(c: PortConfig, cycles: int)
    ensures TooFew(c, cycles, 64.0) <==> cycles < if c.bw == 0 then 1 else c.bw
  {
  }

  /** An arrived message waits while the cycles since have been too few for all bytes waiting up to its own, and is
    * ready `lat` cycles, or one if that is zero, after the first at which they are not. A lone message of 64 bytes
    * waits for `bw` cycles, or one if that is zero. */
  lemma IngressTimes(c: PortConfig, p: Port, id: nat) returns (t: Transit<Message>)
    requires Q.Inv(IngressConfig(c), p.ingress) && id < |p.ingress.accepted|
    ensures var q, s := p.ingress, p.ingress.accepted[id];
            && (Waits(q, s) <==> TooFew(c, q.clock - s.arrived, s.backlog))
            && (!Waits(q, s) ==>
                 && t.stamp == s && t.completion == t.injection + (if c.lat == 0 then 1 else c.lat)
                 && TooFew(c, t.injection - 1 - s.arrived, s.backlog) && !TooFew(c, t.injection - s.arrived, s.backlog)
                 && (s.backlog == 64.0 ==> t.injection == s.arrived + if c.bw == 0 then 1 else c.bw)
                 && (Flies(q, t) <==> q.clock < t.completion) && (CameBack(q, t) <==> t.completion <= q.clock))
  {
    t := DelayLaw(IngressConfig(c), p.ingress, id);
    var q, s := p.ingress, p.ingress.accepted[id];
    hide Waits, Flies, CameBack, TooFew, Sent, Rate, Q.Inv;
    SentIsScaled(c, q.clock - s.arrived, s.backlog);
    SentIsScaled(c, t.injection - 1 - s.arrived, s.backlog);
    SentIsScaled(c, t.injection - s.arrived, s.backlog);
    LoneTakes(c, t.injection - 1 - s.arrived);
    LoneTakes(c, t.injection - s.arrived);
  }

  // A waiting head leaves.

  /** The credits on a wire. */
  function Credits(w: seq<Message>): nat {
    if w == [] then 0 else Credits(w[..|w| - 1]) + if Restores(w[|w| - 1]) then 1 else 0
  }

  predicate Restores(ev: Message) { IsCredit(ev) && CreditValue(ev) > 0 }

  /** How many deliveries and receives there still are for what port a has sent: a message on the wire is delivered and
    * received, and then its credit is delivered. */
  function Remaining(l: Link): nat {
    3 * DataMessages(l.ab) + 2 * DataMessages(Queued(l.b)) + Credits(l.ba)
  }

  /** Port a lets the head of its egress queue go. */
  ghost predicate Sends(l: Link, act: Action) {
    match act
    case TickAt(left, cycle, _) => left && TickSends(l.a, cycle) != []
    case ReceiveAt(left, cycle, _, _) => left && TickSends(l.a, cycle) != []
    case _ => false
  }

  /** One of those deliveries and receives. */
  ghost predicate Advances(cb: PortConfig, l: Link, act: Action)
    requires Enabled(l, act)
  {
    match act
    case ArriveAt(left) => if left then Restores(l.ba[0]) else !IsControl(l.ab[0])
    case ReceiveAt(left, cycle, order, handle) =>
      && !left
      && var t := Ticked(cb, l.b, cycle, order);
         Takes(t, cycle, handle) && !IsControl(t.ready[0])
    case _ => false
  }

  lemma {:induction false} CountsConcat(v: seq<Message>, w: seq<Message>)
    ensures DataMessages(v + w) == DataMessages(v) + DataMessages(w) && Credits(v + w) == Credits(v) + Credits(w)
  {
    if w == [] {
      assert v + w == v;
    } else {
      CountsConcat(v, w[..|w| - 1]);
      assert (v + w)[..|v + w| - 1] == v + w[..|w| - 1];
    }
  }

  lemma CountsOne(ev: Message)
    ensures DataMessages([ev]) == (if IsControl(ev) then 0 else 1) && Credits([ev]) == if Restores(ev) then 1 else 0
  {
    assert [ev][..0] == [];
  }

  lemma CountsHead(w: seq<Message>)
    requires w != []
    ensures DataMessages(w) == (if IsControl(w[0]) then 0 else 1) + DataMessages(w[1..])
    ensures Credits(w) == (if Restores(w[0]) then 1 else 0) + Credits(w[1..])
  {
    assert w == [w[0]] + w[1..];
    CountsConcat([w[0]], w[1..]);
    CountsOne(w[0]);
  }

  lemma {:induction false} CountsPermute(v: seq<Message>, w: seq<Message>)
    requires multiset(v) == multiset(w)
    ensures DataMessages(v) == DataMessages(w)
  {
    if v == [] {
      assert |multiset(w)| == |w|;
    } else {
      var last := v[|v| - 1];
      assert v == v[..|v| - 1] + [last];
      assert last in multiset(w);
      var i :| 0 <= i < |w| && w[i] == last;
      Without(v, w, i);
      CountsPermute(v[..|v| - 1], w[..i] + w[i + 1..]);
      assert w == w[..i] + ([last] + w[i + 1..]);
      CountsConcat(w[..i], [last] + w[i + 1..]);
      CountsConcat([last], w[i + 1..]);
      CountsConcat(w[..i], w[i + 1..]);
      CountsOne(last);
    }
  }

  lemma {:induction false} NoCredits(w: seq<Message>)
    requires forall ev :: ev in w ==> !IsCredit(ev)
    ensures Credits(w) == 0
  {
    if w != [] {
      NoCredits(w[..|w| - 1]);
      assert w == w[..|w| - 1] + [w[|w| - 1]];
    }
  }

  /** A port that is ticked buffers what it buffered. */
  lemma TickedBuffers(c: PortConfig, p: Port, cycle: nat, order: seq<Transit<Message>>)
    requires PortInv(c, p) && Sound(p) && (p.lastTick != cycle ==> PopOrder(p.ingress, order))
    ensures multiset(Queued(Ticked(c, p, cycle, order))) == multiset(Queued(p))
    ensures Credits(TickSends(p, cycle)) == 0
  {
    TickedMoves(c, p, cycle, order);
    NoCredits(TickSends(p, cycle));
    if p.lastTick != cycle {
      var q := TickIngress(c, Started(p, cycle), order);
      TickIngressKeeps(c, Started(p, cycle), order);
      assert Queued(DrainEgress(q)) == Queued(q);
      assert Queued(Started(p, cycle)) == Queued(p);
      hide Q.Inv, Q.Tick, Payloads, Waiting, PopOrder, Queued, Moves, Drained;
    }
  }

  /** Port b is polled. */
  lemma ReceiveCounts(cb: PortConfig, p: Port, cycle: nat, order: seq<Transit<Message>>, handle: Message -> bool)
    requires PortInv(cb, p) && Sound(p) && (p.lastTick != cycle ==> PopOrder(p.ingress, order))
    ensures var t, u := Ticked(cb, p, cycle, order), Received(cb, p, cycle, order, handle);
            var n := if Takes(t, cycle, handle) && !IsControl(t.ready[0]) then 1 else 0;
            && DataMessages(Queued(u)) + n == DataMessages(Queued(p))
            && Credits(ReceiveSends(cb, p, cycle, order, handle)) == n
  {
    TickedBuffers(cb, p, cycle, order);
    var t, u := Ticked(cb, p, cycle, order), Received(cb, p, cycle, order, handle);
    CountsPermute(Queued(t), Queued(p));
    hide PortInv, Queued, Ticked, TickSends, CreditFor, Q.Inv, PopOrder;
    if Takes(t, cycle, handle) {
      TakenCounts(t, u, t.ready[0]);
      CreditCounts(cb, TickSends(p, cycle), t.ready[0]);
    } else {
      assert TickSends(p, cycle) + [] == TickSends(p, cycle);
    }
  }

  lemma TakenCounts(t: Port, u: Port, ev: Message)
    requires t.ready != [] && ev == t.ready[0] && u.ready == t.ready[1..] && u.ingress == t.ingress
    ensures DataMessages(Queued(t)) == DataMessages(Queued(u)) + if IsControl(ev) then 0 else 1
  {
    TakesHead(t, u, ev);
    hide Queued;
    CountsPermute(Queued(u) + [ev], Queued(t));
    CountsConcat(Queued(u), [ev]);
    CountsOne(ev);
  }

  lemma CreditCounts(c: PortConfig, w: seq<Message>, ev: Message)
    ensures Credits(w + CreditFor(c, ev)) == Credits(w) + if IsControl(ev) then 0 else 1
    ensures DataMessages(w + CreditFor(c, ev)) == DataMessages(w)
  {
    CountsConcat(w, CreditFor(c, ev));
    if CreditBytes(ev) > 0 { CountsOne(CreditFor(c, ev)[0]); } else { assert CreditFor(c, ev) == []; }
  }

  lemma ArriveCounts(cb: PortConfig, p: Port, ev: Message)
    ensures DataMessages(Queued(Handled(cb, p, ev))) == DataMessages(Queued(p)) + if IsControl(ev) then 0 else 1
  {
    if IsCredit(ev) {
      assert Queued(Handled(cb, p, ev)) == Queued(p);
    } else {
      HandledBuffers(cb, p, ev);
      hide Queued, Handled;
      CountsPermute(Queued(p) + [ev], Queued(Handled(cb, p, ev)));
      CountsConcat(Queued(p), [ev]);
      CountsOne(ev);
    }
  }

  /** While the head waits, every delivery or receive of what has been sent brings its credits closer by one, and
    * nothing else does. */
  lemma StepAdvances(ca: PortConfig, cb: PortConfig, l: Link, act: Action)
    requires LinkInv(ca, cb, l) && Enabled(l, act) && !Sends(l, act)
    ensures Remaining(l) == Remaining(Apply(ca, cb, l, act)) + if Advances(cb, l, act) then 1 else 0
  {
    if act.left { LeftAdvances(ca, cb, l, act); } else { RightAdvances(ca, cb, l, act); }
  }

  lemma LeftAdvances(ca: PortConfig, cb: PortConfig, l: Link, act: Action)
    requires LinkInv(ca, cb, l) && Enabled(l, act) && !Sends(l, act) && act.left
    ensures Remaining(l) == Remaining(Apply(ca, cb, l, act)) + if Advances(cb, l, act) then 1 else 0
  {
    hide LinkInv, Queued, Ticked, PopOrder, Handled;
    match act
    case Offer(_, ev) =>
    case TickAt(_, cycle, order) => assert l.ab + [] == l.ab;
    case ReceiveAt(_, cycle, order, handle) =>
      var w := ReceiveSends(ca, l.a, cycle, order, handle);
      CountsConcat(l.ab, w);
      if w != [] { CountsOne(w[0]); }
    case ArriveAt(_) => CountsHead(l.ba);
  }

  lemma RightAdvances(ca: PortConfig, cb: PortConfig, l: Link, act: Action)
    requires LinkInv(ca, cb, l) && Enabled(l, act) && !Sends(l, act) && !act.left
    ensures Remaining(l) == Remaining(Apply(ca, cb, l, act)) + if Advances(cb, l, act) then 1 else 0
  {
    assert PortInv(cb, l.b);
    hide LinkInv, PortInv, Ticked, TickSends, Received, ReceiveSends, PopOrder, Handled, Sound;
    match act
    case Offer(_, ev) => assert Queued(Enqueued(cb, l.b, ev)) == Queued(l.b);
    case TickAt(_, cycle, order) =>
      TickedBuffers(cb, l.b, cycle, order);
      CountsPermute(Queued(Ticked(cb, l.b, cycle, order)), Queued(l.b));
      CountsConcat(l.ba, TickSends(l.b, cycle));
    case ReceiveAt(_, cycle, order, handle) =>
      ReceiveCounts(cb, l.b, cycle, order, handle);
      CountsConcat(l.ba, ReceiveSends(cb, l.b, cycle, order, handle));
    case ArriveAt(_) =>
      CountsHead(l.ab);
      ArriveCounts(cb, l.b, l.ab[0]);
  }

  lemma {:induction false} CountsBound(w: seq<Message>)
    ensures DataMessages(w) <= Data(w) && Credits(w) <= Returning(w)
    ensures DataMessages(w) == 0 ==> Data(w) == 0
    ensures Credits(w) == 0 ==> Returning(w) == 0
  {
    if w != [] { CountsBound(w[..|w| - 1]); }
  }

  /** There are at most three for each byte of capacity; when there are none, the credits cover the capacity. */
  lemma RemainingBound(ca: PortConfig, cb: PortConfig, l: Link)
    requires LinkInv(ca, cb, l) && Capacity(ca) < INFINITE
    ensures Remaining(l) <= 3 * Capacity(ca)
    ensures Remaining(l) == 0 ==> l.a.credits == Capacity(ca)
  {
    SettledAfter(ca, cb, l);
    CountsBound(l.ab);
    CountsBound(Queued(l.b));
    CountsBound(l.ba);
  }

  /** How many of the steps from i to j advance. */
  ghost function Advanced(cb: PortConfig, states: seq<Link>, acts: seq<Action>, i: nat, j: nat): nat
    requires i <= j <= |acts| < |states| && forall k :: i <= k < j ==> Enabled(states[k], acts[k])
    decreases j
  {
    if i == j then 0
    else Advanced(cb, states, acts, i, j - 1) + if Advances(cb, states[j - 1], acts[j - 1]) then 1 else 0
  }

  lemma {:induction false} RunAdvances(ca: PortConfig, cb: PortConfig, states: seq<Link>, acts: seq<Action>, i: nat,
                                       j: nat)
    requires IsRun(ca, cb, states, acts) && i <= j < |states| && forall k :: i <= k < j ==> !Sends(states[k], acts[k])
    ensures forall k :: i <= k < j ==> Enabled(states[k], acts[k])
    ensures Remaining(states[i]) == Remaining(states[j]) + Advanced(cb, states, acts, i, j)
    decreases j
  {
    hide Remaining, LinkInv, Enabled, Apply, Sends, Advances;
    forall k | i <= k < j ensures Enabled(states[k], acts[k]) {
      assert Steps(ca, cb, states[k], acts[k], states[k + 1]);
    }
    if i < j {
      RunAdvances(ca, cb, states, acts, i, j - 1);
      RunInv(ca, cb, states, acts, j - 1);
      assert Steps(ca, cb, states[j - 1], acts[j - 1], states[j]);
      StepAdvances(ca, cb, states[j - 1], acts[j - 1]);
    }
  }

  /** A head no larger than the capacity leaves at the latest at the first tick after a bounded number of deliveries and
    * receives of what has been sent before, whatever else happens in between. */
  lemma HeadLeaves(ca: PortConfig, cb: PortConfig, states: seq<Link>, acts: seq<Action>, i: nat, j: nat)
    requires IsRun(ca, cb, states, acts) && Capacity(ca) < INFINITE && i <= j < |acts|
    requires states[i].a.egress != [] && CreditBytes(states[i].a.egress[0]) <= Capacity(ca)
    requires acts[j].left && acts[j].TickAt? && states[j].a.lastTick != acts[j].cycle
    ensures forall k :: i <= k < j ==> Enabled(states[k], acts[k])
    ensures Remaining(states[i]) <= 3 * Capacity(ca)
    ensures Advanced(cb, states, acts, i, j) >= Remaining(states[i]) ==>
      exists k :: i <= k <= j && Sends(states[k], acts[k])
  {
    hide Remaining, LinkInv, Enabled, Apply;
    forall k | i <= k < j ensures Enabled(states[k], acts[k]) {
      assert Steps(ca, cb, states[k], acts[k], states[k + 1]);
    }
    RunInv(ca, cb, states, acts, i);
    RemainingBound(ca, cb, states[i]);
    if Advanced(cb, states, acts, i, j) >= Remaining(states[i])
       && forall k :: i <= k < j ==> !Sends(states[k], acts[k]) {
      RunAdvances(ca, cb, states, acts, i, j);
      RunInv(ca, cb, states, acts, j);
      RemainingBound(ca, cb, states[j]);
      HeadStays(ca, cb, states, acts, i, j);
      assert Sends(states[j], acts[j]);
    }
  }

  /** What does not leave stays at the front. */
  lemma {:induction false} HeadStays(ca: PortConfig, cb: PortConfig, states: seq<Link>, acts: seq<Action>, i: nat,
                                     j: nat)
    requires IsRun(ca, cb, states, acts) && i <= j < |states| && forall k :: i <= k < j ==> !Sends(states[k], acts[k])
    requires states[i].a.egress != []
    ensures states[j].a.egress != [] && states[j].a.egress[0] == states[i].a.egress[0]
    decreases j
  {
    if i < j {
      HeadStays(ca, cb, states, acts, i, j - 1);
      assert Steps(ca, cb, states[j - 1], acts[j - 1], states[j]);
      hide IsRun, Q.Tick, PopOrder, Sound;
    }
  }

  lemma DrainStep(credits: int, egress: seq<Message>)
    requires egress != [] && CanConsume(credits, CreditBytes(egress[0]))
    ensures var n := Drained(Consume(credits, CreditBytes(egress[0])), egress[1..]);
            && Drained(credits, egress) == n + 1
            && Spend(credits, egress[..n + 1]) == Spend(Consume(credits, CreditBytes(egress[0])), egress[1..][..n])
            && egress[..n + 1] == [egress[0]] + egress[1..][..n] && egress[n + 1..] == egress[1..][n..]
  {
    var n := Drained(Consume(credits, CreditBytes(egress[0])), egress[1..]);
    assert egress[..n + 1][1..] == egress[1..][..n];
  }

  lemma DrainNone(credits: int, egress: seq<Message>)
    requires egress == [] || !CanConsume(credits, CreditBytes(egress[0]))
    ensures Drained(credits, egress) == 0 && Spend(credits, egress[..0]) == credits
  {
  }

  class FabricPort {
    const c: PortConfig
    const ingress: BandwidthQueue<Message>
    var credits: int
    var egress: seq<Message>
    var ready: seq<Message>
    var lastTick: nat
    var lastDeliver: nat
    /** What was handed to the link. */
    var wire: seq<Message>
    ghost var offered: seq<Message>
    ghost var delivered: seq<Message>
    ghost var ticked: seq<nat>
    ghost var handed: seq<nat>

    ghost predicate Valid()
      reads this, ingress
    {
      ingress.Valid() && ingress.c == IngressConfig(c)
    }

    ghost function View(): Port
      reads this, ingress, ingress.hist
    {
      Port(credits, egress, ingress.View(), ready, lastTick, lastDeliver, offered, delivered, ticked, handed)
    }

    constructor (c: PortConfig)
      ensures Valid() && this.c == c && View() == Configured(c) && wire == []
      ensures fresh(ingress) && fresh(ingress.hist)
    {
      this.c := c;
      ingress := new BandwidthQueue(IngressConfig(c));
      credits := Capacity(c);
      egress, ready, lastTick, lastDeliver, wire := [], [], NEVER, NEVER, [];
      offered, delivered, ticked, handed := [], [], [], [];
    }

    method CanSendNow() returns (ok: bool)
      requires Valid()
      ensures ok == CanSend(c, View())
    {
      ok := !(c.queueSize > 0 && |egress| >= c.queueSize);
    }

    method Send(item: Message) returns (ok: bool)
      requires Valid()
      modifies this
      ensures Valid() && wire == old(wire)
      ensures ok == CanSend(c, old(View())) && View() == Enqueued(c, old(View()), item)
    {
      ok := CanSendNow();
      if !ok { return; }
      egress := egress + [item];
      offered := offered + [item];
    }

    method TickIngressQueue() returns (ghost order: seq<Transit<Message>>)
      requires Valid()
      modifies this, ingress, ingress.hist
      ensures Valid() && wire == old(wire) && PopOrder(old(View()).ingress, order)
      ensures View() == TickIngress(c, old(View()), order)
    {
      hide Q.Tick, IngressConfig, NoLater, Due;
      var done;
      done, order := ingress.OnTick();
      ghost var before := ready;
      var k := 0;
      while k < |done|
        invariant 0 <= k <= |done| && ready == before + done[..k]
        invariant View() == old(View()).(ready := ready,
            ingress := Q.Tick(IngressConfig(c), old(View()).ingress, order))
        invariant Valid() && wire == old(wire)
      {
        ready := ready + [done[k]];
        k := k + 1;
      }
      assert done[..k] == done;
    }

    method Drain()
      modifies `credits, `egress, `wire
      ensures var n := Drained(old(credits), old(egress));
              && credits == Spend(old(credits), old(egress)[..n]) && egress == old(egress)[n..]
              && wire == old(wire) + old(egress)[..n]
    {
      ghost var all, sent: seq<Message>, n := egress, [], Drained(credits, egress);
      ghost var goal := Spend(credits, all[..n]);
      hide Drained, Spend;
      while egress != []
        invariant wire == old(wire) + sent && all == sent + egress
        invariant |sent| + Drained(credits, egress) == n
        invariant Spend(credits, egress[..Drained(credits, egress)]) == goal
        decreases |egress|
      {
        var ev := egress[0];
        if !CanConsume(credits, CreditBytes(ev)) { break; }
        DrainStep(credits, egress);
        credits := Consume(credits, CreditBytes(ev));
        wire := wire + [ev];
        sent := sent + [ev];
        egress := egress[1..];
      }
      DrainNone(credits, egress);
      assert all[..n] == sent && all[n..] == egress;
    }

    method Tick(cycle: nat) returns (ghost order: seq<Transit<Message>>)
      requires Valid()
      modifies this, ingress, ingress.hist
      ensures Valid() && (old(lastTick) != cycle ==> PopOrder(old(View()).ingress, order))
      ensures View() == Ticked(c, old(View()), cycle, order) && lastDeliver == old(lastDeliver)
      ensures wire == old(wire) + TickSends(old(View()), cycle)
    {
      order := [];
      if lastTick != cycle {
        lastTick := cycle;
        ticked := ticked + [cycle];
        order := TickIngressQueue();
        Drain();
      }
    }

    method TryReceive(cycle: nat, handle: Message -> bool) returns (taken: bool, ghost order: seq<Transit<Message>>)
      requires Valid()
      modifies this, ingress, ingress.hist
      ensures Valid() && (old(lastTick) != cycle ==> PopOrder(old(View()).ingress, order))
      ensures View() == Received(c, old(View()), cycle, order, handle)
      ensures wire == old(wire) + ReceiveSends(c, old(View()), cycle, order, handle)
      ensures taken == Takes(Ticked(c, old(View()), cycle, order), cycle, handle)
      ensures taken ==> old(lastDeliver) != cycle && lastDeliver == cycle
      ensures !taken ==> lastDeliver == old(lastDeliver)
    {
      hide Ticked, TickSends, Q.Tick, PopOrder, MsgBytes;
      order := Tick(cycle);
      if lastDeliver == cycle || ready == [] { return false, order; }
      var item := ready[0];
      var creditDst, creditLen := CreditDst(item), CreditBytes(item);
      if !handle(item) { return false, order; }
      ready := ready[1..];
      delivered := delivered + [item];
      lastDeliver := cycle;
      handed := handed + [cycle];
      if creditLen != 0 { wire := wire + [Message([c.id, creditDst, CREDIT, creditLen])]; }
      return true, order;
    }

    method HandleEvent(ev: Message)
      requires Valid()
      modifies this, ingress, ingress.hist
      ensures Valid() && wire == old(wire) && View() == Handled(c, old(View()), ev)
    {
      if |ev.payload| == 3 || |ev.payload| == 4 {
        var code := ev.payload[2];
        if code == CREDIT {
          var value := if |ev.payload| > 3 then ev.payload[3] else 0;
          credits := AddCredit(credits, Capacity(c), value);
          return;
        }
        if code == RESET_UTIL { ingress.ResetUtilization(); }
      }
      var ok := ingress.AddPacket(ev);
      assert ok;
    }
  }
}
