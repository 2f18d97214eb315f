/** A memory pool behind a switch: the pool (cxl_mempool.cc) takes requests from, and gives answers to, a port that is
  * joined to the switch's port for it (src/fabric_port.cc). */
module PoolLink {
  import opened Options
  import opened FabricPorts
  import opened MemoryPool
  import Q = LatBwQueue

  /** Port a of the link is the switch's, port b the pool's only one. */
  datatype System = System(link: Link, pool: Pool)

  datatype Event =
    | Fabric(act: Action)
    | Poll(cycle: nat, order: seq<Q.Transit<Message>>)
    | Operates(jobs: seq<Q.Transit<Job>>)
    | Respond

  /** Only the pool gives messages to, or takes messages from, its port. */
  ghost predicate FabricOnly(act: Action) { act.left || act.TickAt? || act.ArriveAt? }

  ghost function Receives(c: PoolConfig, s: System, cycle: nat, order: seq<Q.Transit<Message>>): Action {
    ReceiveAt(false, cycle, order, ev => Accepts(c, s.pool, ev))
  }

  ghost predicate CanHappen(c: PoolConfig, s: System, e: Event) {
    match e
    case Fabric(act) => FabricOnly(act) && FabricPorts.Enabled(s.link, act)
    case Poll(cycle, order) => FabricPorts.Enabled(s.link, Receives(c, s, cycle, order))
    case Operates(jobs) => Q.PopOrder(s.pool.queue, jobs)
    case Respond => true
  }

  /** The message the pool takes when it polls its port, if any. */
  ghost function Taken(c: PoolConfig, s: System, cycle: nat, order: seq<Q.Transit<Message>>): Option<Message>
    requires FabricPorts.Sound(s.link.b)
  {
    var t := Ticked(c.link, s.link.b, cycle, order);
    if Takes(t, cycle, ev => Accepts(c, s.pool, ev)) then Some(t.ready[0]) else None
  }

  function AtPort(s: Pool, p: Port): Pool { s.(ports := [p]) }

  // What has passed the pool's port.

  function Sent(a: seq<Answer>): (r: seq<Message>)
    ensures |r| == |a|
  {
    seq(|a|, k requires 0 <= k < |a| => a[k].message)
  }

  /** The requests among the messages delivered; the others reset the statistics. */
  function Asked(w: seq<Message>): seq<Request> {
    if w == [] then []
    else Asked(w[..|w| - 1]) + if IsReset(w[|w| - 1]) then [] else [DecodeRequest(w[|w| - 1])]
  }

  ghost predicate Joined(l: Link, s: Pool) {
    && s.ports == [l.b] && !s.thrown
    && l.b.offered == Sent(s.answered) && s.accepted == Asked(l.b.delivered)
  }

  ghost predicate Inv(ca: PortConfig, c: PoolConfig, s: System) {
    c.useSwitch && LinkInv(ca, c.link, s.link) && MemoryPool.Inv(c, s.pool) && Joined(s.link, s.pool)
  }

  lemma AskedMore(w: seq<Message>, ev: Message)
    ensures Asked(w + [ev]) == Asked(w) + if IsReset(ev) then [] else [DecodeRequest(ev)]
  {
    assert (w + [ev])[..|w|] == w;
  }

  // The pool's port.

  /** Giving the port a message of the pool's, or clearing its statistics, keeps the link in order. */
  lemma OfferRight(ca: PortConfig, cb: PortConfig, l: Link, ev: Message)
    requires LinkInv(ca, cb, l) && !IsCredit(ev)
    ensures LinkInv(ca, cb, l.(b := Enqueued(cb, l.b, ev)))
  {
    FlipInv(ca, cb, l);
    OfferKeeps(cb, ca, Flip(l), ev);
    FlipInv(cb, ca, Flip(l).(a := Enqueued(cb, l.b, ev)));
    assert Flip(Flip(l).(a := Enqueued(cb, l.b, ev))) == l.(b := Enqueued(cb, l.b, ev));
  }

  lemma ClearRight(ca: PortConfig, cb: PortConfig, l: Link)
    requires LinkInv(ca, cb, l)
    ensures LinkInv(ca, cb, l.(b := l.b.(ingress := Q.Cleared(l.b.ingress))))
  {
    Q.ResetKeeps(IngressConfig(cb), l.b.ingress);
    var p := l.b.(ingress := Q.Cleared(l.b.ingress));
    assert Queued(p) == Queued(l.b);
    hide Q.Inv, Q.Cleared, Queued;
  }

  lemma AnswerIsNoCredit(r: Response)
    ensures !IsCredit(EncodeResponse(r))
  {
  }

  /** One response goes into the pool's port, or nothing changes. */
  lemma SendJoined(ca: PortConfig, c: PoolConfig, l: Link, s: Pool, r: Reply)
    requires c.useSwitch && LinkInv(ca, c.link, l) && MemoryPool.Valid(c, s) && Joined(l, s)
    ensures !TrySend(c, s, r).Throws?
    ensures TrySend(c, s, r).Done? ==>
      var t := TrySend(c, s, r).after;
      t.ports == [t.ports[0]] && LinkInv(ca, c.link, l.(b := t.ports[0])) && Joined(l.(b := t.ports[0]), t)
  {
    hide LinkInv, EncodeResponse;
    if TrySend(c, s, r).Done? && r.tag in s.pending {
      var message := EncodeResponse(Drafted(c, r, s.pending[r.tag]));
      AnswerIsNoCredit(Drafted(c, r, s.pending[r.tag]));
      OfferRight(ca, c.link, l, message);
      var t := TrySend(c, s, r).after;
      assert t.ports == [Enqueued(c.link, l.b, message)];
      assert Sent(t.answered) == Sent(s.answered) + [message];
    } else {
      assert l.(b := s.ports[0]) == l;
    }
  }

  lemma {:induction false} DrainJoined(ca: PortConfig, c: PoolConfig, l: Link, s: Pool)
    requires c.useSwitch && LinkInv(ca, c.link, l) && MemoryPool.Inv(c, s) && Joined(l, s)
    ensures var t := DrainReturned(c, s);
            t.ports != [] && LinkInv(ca, c.link, l.(b := t.ports[0])) && Joined(l.(b := t.ports[0]), t)
    decreases |s.returned|
  {
    assert MemoryPool.Valid(c, s);
    hide LinkInv, MemoryPool.Inv;
    if s.returned != [] {
      SendJoined(ca, c, l, s, s.returned[0]);
      if TrySend(c, s, s.returned[0]).Done? {
        SendKeeps(c, s);
        var t := TrySend(c, s, s.returned[0]).after;
        hide TrySend;
        DrainJoined(ca, c, l.(b := t.ports[0]), t.(returned := s.returned[1..]));
        var u := DrainReturned(c, t.(returned := s.returned[1..]));
        assert l.(b := t.ports[0]).(b := u.ports[0]) == l.(b := u.ports[0]);
      } else {
        assert l.(b := s.ports[0]) == l;
      }
    } else {
      assert l.(b := s.ports[0]) == l;
    }
  }

  // Every event keeps the invariant.

  ghost function After(ca: PortConfig, c: PoolConfig, s: System, e: Event): System
    requires Inv(ca, c, s) && CanHappen(c, s, e)
  {
    match e
    case Fabric(act) =>
      var l := FabricPorts.Apply(ca, c.link, s.link, act);
      System(l, AtPort(s.pool, l.b))
    case Poll(cycle, order) =>
      var l := FabricPorts.Apply(ca, c.link, s.link, Receives(c, s, cycle, order));
      var taken := Taken(c, s, cycle, order);
      var pool := AtPort(s.pool, l.b);
      var t := if taken.Some? then HandleEvent(c, pool, taken.value) else pool;
      System(l.(b := t.ports[0]), t)
    case Operates(jobs) => s.(pool := Operate(c, s.pool, jobs))
    case Respond =>
      DrainJoined(ca, c, s.link, s.pool);
      var t := DrainReturned(c, s.pool);
      System(s.link.(b := t.ports[0]), t)
  }

  /** What the fabric does at the pool's side leaves what was offered and delivered there alone. */
  lemma FabricJoined(ca: PortConfig, c: PoolConfig, s: System, act: Action)
    requires Inv(ca, c, s) && CanHappen(c, s, Fabric(act))
    ensures Inv(ca, c, After(ca, c, s, Fabric(act)))
  {
    var l := FabricPorts.Apply(ca, c.link, s.link, act);
    FabricPorts.ApplyKeeps(ca, c.link, s.link, act);
    FabricHistory(ca, c.link, s.link, act);
    hide LinkInv, FabricPorts.Apply, FabricPorts.Enabled;
    PortsKeep(c, s.pool, [l.b]);
    hide MemoryPool.Inv;
  }

  lemma FabricHistory(ca: PortConfig, cb: PortConfig, l: Link, act: Action)
    requires FabricPorts.Enabled(l, act) && FabricOnly(act)
    ensures var m := FabricPorts.Apply(ca, cb, l, act); m.b.offered == l.b.offered && m.b.delivered == l.b.delivered
  {
    hide Q.Tick, Q.PopOrder, Q.Add;
  }

  /** Polling takes at most one message: a request becomes the pool's next, a reset clears its statistics. */
  lemma PollJoined(ca: PortConfig, c: PoolConfig, s: System, cycle: nat, order: seq<Q.Transit<Message>>)
    requires Inv(ca, c, s) && CanHappen(c, s, Poll(cycle, order))
    ensures Inv(ca, c, After(ca, c, s, Poll(cycle, order)))
  {
    var act := Receives(c, s, cycle, order);
    var l := FabricPorts.Apply(ca, c.link, s.link, act);
    FabricPorts.ApplyKeeps(ca, c.link, s.link, act);
    PollHistory(ca, c, s, cycle, order);
    hide LinkInv, FabricPorts.Apply, FabricPorts.Enabled, Ticked, Q.Tick, Q.PopOrder;
    PortsKeep(c, s.pool, [l.b]);
    hide MemoryPool.Inv;
    var pool := AtPort(s.pool, l.b);
    match Taken(c, s, cycle, order)
    case None => assert l.(b := pool.ports[0]) == l;
    case Some(ev) => HandleJoined(ca, c, l, s.pool, pool, s.link.b.delivered, ev);
  }

  lemma PollHistory(ca: PortConfig, c: PoolConfig, s: System, cycle: nat, order: seq<Q.Transit<Message>>)
    requires FabricPorts.Enabled(s.link, Receives(c, s, cycle, order))
    ensures FabricPorts.Sound(s.link.b)
    ensures var l, taken := FabricPorts.Apply(ca, c.link, s.link, Receives(c, s, cycle, order)),
        Taken(c, s, cycle, order);
            && l.b.offered == s.link.b.offered
            && l.b.delivered == s.link.b.delivered + (if taken.Some? then [taken.value] else [])
            && (taken.Some? ==> Accepts(c, s.pool, taken.value))
  {
    hide Q.Tick, Q.PopOrder;
  }

  lemma HandleJoined(ca: PortConfig, c: PoolConfig, l: Link, before: Pool, s: Pool, delivered: seq<Message>,
      ev: Message)
    requires c.useSwitch && LinkInv(ca, c.link, l) && MemoryPool.Inv(c, s) && s == AtPort(before, l.b)
    requires !s.thrown && l.b.offered == Sent(s.answered) && s.accepted == Asked(delivered)
    requires l.b.delivered == delivered + [ev] && Accepts(c, s, ev)
    ensures var t := HandleEvent(c, s, ev);
            t.ports != [] && MemoryPool.Inv(c, t) && LinkInv(ca, c.link, l.(b := t.ports[0]))
              && Joined(l.(b := t.ports[0]), t)
  {
    AskedMore(delivered, ev);
    if IsReset(ev) {
      ResetStatsKeeps(c, s);
      ClearRight(ca, c.link, l);
      assert ResetStats(s).ports == [l.b.(ingress := Q.Cleared(l.b.ingress))];
    } else {
      EnqueueKeeps(c, s, DecodeRequest(ev));
      assert l.(b := s.ports[0]) == l;
    }
    hide LinkInv, MemoryPool.Inv, DecodeRequest, Q.Cleared;
  }

  lemma AfterKeeps(ca: PortConfig, c: PoolConfig, s: System, e: Event)
    requires Inv(ca, c, s) && CanHappen(c, s, e)
    ensures Inv(ca, c, After(ca, c, s, e))
  {
    match e
    case Fabric(act) => FabricJoined(ca, c, s, act);
    case Poll(cycle, order) => PollJoined(ca, c, s, cycle, order);
    case Operates(jobs) =>
      OperateKeeps(c, s.pool, jobs);
      hide MemoryPool.Inv, LinkInv, Q.Tick, Q.PopOrder;
    case Respond =>
      DrainKeeps(c, s.pool);
      DrainJoined(ca, c, s.link, s.pool);
      hide MemoryPool.Inv, LinkInv, DrainReturned;
  }

  // Once a cycle.

  ghost predicate LinkPaced(l: Link) { Paced(l.a) && Paced(l.b) }

  /** Cycles do not go back at the port looked at. */
  ghost predicate EventInTime(s: System, e: Event) {
    match e
    case Fabric(act) => FabricPorts.InTime(s.link, act)
    case Poll(cycle, _) => NotBefore(s.link.b, cycle)
    case _ => true
  }

  ghost predicate PortsPaced(s: Pool) { |s.ports| == 1 && Paced(s.ports[0]) }

  lemma HandleEventPaced(c: PoolConfig, s: Pool, ev: Message)
    requires PortsPaced(s)
    ensures PortsPaced(HandleEvent(c, s, ev))
  {
    HandledPaced(c.link, s.ports[0], ev);
    hide Paced, DecodeRequest, Q.Cleared, Handled, Enqueued;
  }

  lemma {:induction false} DrainPaced(c: PoolConfig, s: Pool)
    requires MemoryPool.Inv(c, s) && PortsPaced(s)
    ensures PortsPaced(DrainReturned(c, s))
    decreases |s.returned|
  {
    assert MemoryPool.Valid(c, s);
    hide MemoryPool.Inv, EncodeResponse, Drafted, Paced;
    if s.returned != [] && TrySend(c, s, s.returned[0]).Done? {
      var r := s.returned[0];
      SendKeeps(c, s);
      if r.tag in s.pending { HandledPaced(c.link, s.ports[0], EncodeResponse(Drafted(c, r, s.pending[r.tag]))); }
      hide Handled, Enqueued;
      DrainPaced(c, TrySend(c, s, r).after.(returned := s.returned[1..]));
    }
  }

  lemma PollInTime(c: PoolConfig, s: System, cycle: nat, order: seq<Q.Transit<Message>>)
    requires NotBefore(s.link.b, cycle)
    ensures FabricPorts.InTime(s.link, Receives(c, s, cycle, order))
  {
  }

  lemma PollPaced(ca: PortConfig, c: PoolConfig, s: System, cycle: nat, order: seq<Q.Transit<Message>>)
    requires Inv(ca, c, s) && CanHappen(c, s, Poll(cycle, order)) && LinkPaced(s.link) && NotBefore(s.link.b, cycle)
    ensures LinkPaced(After(ca, c, s, Poll(cycle, order)).link)
  {
    var act := Receives(c, s, cycle, order);
    PollInTime(c, s, cycle, order);
    ApplyPaced(ca, c.link, s.link, act);
    PollHistory(ca, c, s, cycle, order);
    hide LinkInv, MemoryPool.Inv, FabricPorts.Enabled, FabricPorts.Apply, Paced, FabricPorts.InTime, HandleEvent;
    var l := FabricPorts.Apply(ca, c.link, s.link, act);
    var taken := Taken(c, s, cycle, order);
    if taken.Some? { HandleEventPaced(c, AtPort(s.pool, l.b), taken.value); }
  }

  lemma AfterPaced(ca: PortConfig, c: PoolConfig, s: System, e: Event)
    requires Inv(ca, c, s) && CanHappen(c, s, e) && LinkPaced(s.link) && EventInTime(s, e)
    ensures LinkPaced(After(ca, c, s, e).link)
  {
    hide LinkInv, MemoryPool.Inv, FabricPorts.Enabled, FabricPorts.Apply, Paced, FabricPorts.InTime, HandleEvent;
    match e
    case Fabric(act) => ApplyPaced(ca, c.link, s.link, act);
    case Poll(cycle, order) =>
      PollPaced(ca, c, s, cycle, order);
    case Operates(_) =>
    case Respond =>
      DrainJoined(ca, c, s.link, s.pool);
      DrainPaced(c, s.pool);
  }

  // Whole runs.

  function Idle(ca: PortConfig, c: PoolConfig): System {
    System(Link(Configured(ca), Configured(c.link), [], []), MemoryPool.Empty([Configured(c.link)]))
  }

  lemma IdleInv(ca: PortConfig, c: PoolConfig)
    requires c.useSwitch && c.memory.maxPending <= 0
    ensures Inv(ca, c, Idle(ca, c))
  {
    ConfiguredInv(ca, c.link);
    Q.FreshInv(c.memory);
    hide LinkInv, Q.Inv;
  }

  ghost predicate Steps(ca: PortConfig, c: PoolConfig, s: System, e: Event, t: System) {
    Inv(ca, c, s) && CanHappen(c, s, e) && t == After(ca, c, s, e)
  }

  /** Each state follows from the one before; the invariant, proved below, only makes the step well defined. */
  ghost predicate IsRun(ca: PortConfig, c: PoolConfig, states: seq<System>, events: seq<Event>) {
    && c.useSwitch && c.memory.maxPending <= 0 && |states| == |events| + 1 && states[0] == Idle(ca, c)
    && forall i :: 0 <= i < |events| && Inv(ca, c, states[i]) ==> Steps(ca, c, states[i], events[i], states[i + 1])
  }

  lemma {:induction false} RunInv(ca: PortConfig, c: PoolConfig, states: seq<System>, events: seq<Event>, i: nat)
    requires IsRun(ca, c, states, events) && i < |states|
    ensures Inv(ca, c, states[i])
  {
    hide Inv, After, CanHappen, Idle;
    if i == 0 {
      IdleInv(ca, c);
    } else {
      RunInv(ca, c, states, events, i - 1);
      assert Steps(ca, c, states[i - 1], events[i - 1], states[i]);
      AfterKeeps(ca, c, states[i - 1], events[i - 1]);
    }
  }

  /** In every reachable state of a switch's port, the link, and the pool behind it: each message the switch offered is
    * on its way or delivered, and the pool has accepted exactly the requests delivered, in order; each of them that
    * wants an answer is inside the pool once or has been answered once; and each answer is on its way back or delivered
    * to the switch, as often as it was sent. The pool never throws. */
  lemma RunAnswersOverLink(ca: PortConfig, c: PoolConfig, states: seq<System>, events: seq<Event>, i: nat)
    requires IsRun(ca, c, states, events) && i < |states|
    ensures var l, s := states[i].link, states[i].pool;
            && multiset(l.a.offered)
               == multiset(l.a.egress) + Messages(l.ab) + multiset(Queued(l.b)) + multiset(l.b.delivered)
            && s.accepted == Asked(l.b.delivered)
            && (forall tag :: KnownTag(s, tag) && JobOf(s, tag).req.responseRequested ==>
                 MemoryPool.Inside(s, JobOf(s, tag)) + multiset(s.answered)[AnswerOf(c, JobOf(s, tag))] == 1)
            && (forall a :: a in s.answered ==>
                 KnownTag(s, a.tag) && JobOf(s, a.tag).req.responseRequested && a == AnswerOf(c, JobOf(s, a.tag)))
            && multiset(Sent(s.answered))
               == multiset(l.b.egress) + Messages(l.ba) + multiset(Queued(l.a)) + multiset(l.a.delivered)
            && !s.thrown
  {
    RunInv(ca, c, states, events, i);
    var l, s := states[i].link, states[i].pool;
    LinkFlows(ca, c.link, l);
    hide LinkInv, Q.Inv, MemoryPool.Inside, AnswerOf;
    forall tag | KnownTag(s, tag) ensures MemoryPool.Settled(c, s, tag) {}
  }

  lemma LinkFlows(ca: PortConfig, cb: PortConfig, l: Link)
    requires LinkInv(ca, cb, l)
    ensures multiset(l.a.offered)
            == multiset(l.a.egress) + Messages(l.ab) + multiset(Queued(l.b)) + multiset(l.b.delivered)
    ensures multiset(l.b.offered)
            == multiset(l.b.egress) + Messages(l.ba) + multiset(Queued(l.a)) + multiset(l.a.delivered)
  {
    hide PortInv, FabricPorts.Settled;
  }

  /** Nothing is in the pool, and nothing on its way back to the switch. */
  ghost predicate Quiet(s: System) {
    && s.pool.pq == [] && s.pool.returned == [] && Q.Carried(s.pool.queue) == multiset{}
    && s.link.b.egress == [] && Messages(s.link.ba) == multiset{} && Queued(s.link.a) == []
  }

  /** Once all is quiet the switch has been delivered exactly one answer, the right one, to each request the pool
    * accepted that wants one, and nothing else. */
  lemma QuietIsAnswered(ca: PortConfig, c: PoolConfig, states: seq<System>, events: seq<Event>, i: nat)
    requires IsRun(ca, c, states, events) && i < |states| && Quiet(states[i])
    ensures var l, s := states[i].link, states[i].pool;
            && multiset(l.a.delivered) == multiset(Sent(s.answered))
            && (forall a :: a in s.answered ==>
                 KnownTag(s, a.tag) && JobOf(s, a.tag).req.responseRequested && a == AnswerOf(c, JobOf(s, a.tag)))
            && (forall tag :: KnownTag(s, tag) && JobOf(s, tag).req.responseRequested ==>
                 multiset(s.answered)[AnswerOf(c, JobOf(s, tag))] == 1)
  {
    RunAnswersOverLink(ca, c, states, events, i);
    hide Queued, Q.Carried, AnswerOf, IsRun;
    var s := states[i].pool;
    forall tag | KnownTag(s, tag) && JobOf(s, tag).req.responseRequested
      ensures multiset(s.answered)[AnswerOf(c, JobOf(s, tag))] == 1
    {
      assert MemoryPool.Inside(s, JobOf(s, tag)) == 0;
    }
  }
}
