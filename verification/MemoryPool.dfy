/** The memory pool of cxl_mempool.cc with its memory controller (src/my_memory_controller.cc) and the packet
  * conversions of convert_ev_packet.cc. */
module MemoryPool {
  import opened Options
  import opened FabricPorts
  import opened LatBwQueue
  import C = Channels

  const NO_NODE: nat := 0xFFFF_FFFF
  const MAX_PORTS: nat := 64

  datatype Request = Request(src: nat, dst: nat, address: nat, vAddress: nat, data: nat, instrId: nat, ip: nat,
                             metadata: nat, cpu: nat, sstCpu: nat, kind: nat, asid0: nat, asid1: nat,
                             forwardChecked: bool, isTranslated: bool, responseRequested: bool, bytes: nat)

  datatype Response = Response(src: nat, dst: nat, address: nat, vAddress: nat, data: nat, metadata: nat,
                               cpu: nat, sstCpu: nat, bytes: nat)

  /** How kinds of access are numbered. */
  function Code(kind: C.Access): nat {
    match kind
    case Load => 0
    case Rfo => 1
    case Prefetch => 2
    case Write => 3
    case Translation => 4
  }

  // Packets.

  function Word32(n: nat): nat { n % 0x1_0000_0000 }
  function Word16(n: nat): nat { n % 0x1_0000 }
  function Word8(n: nat): nat { n % 0x100 }
  function Flag(b: bool): nat { if b then 1 else 0 }

  function EncodeRequest(r: Request): Message {
    Message([if r.src == NO_NODE then r.cpu else r.src, if r.dst == NO_NODE then r.sstCpu else r.dst,
             r.address, r.vAddress, r.data, r.instrId, r.ip, r.metadata, r.cpu, r.sstCpu, r.kind, r.asid0, r.asid1,
             Flag(r.forwardChecked), Flag(r.isTranslated), Flag(r.responseRequested), r.bytes])
  }

  function DefaultRequest(): Request {
    Request(NO_NODE, NO_NODE, 0, 0, 0, 0, 0, 0, NO_NODE, 0, 0, 0xFF, 0xFF, false, true, true, 64)
  }

  function DecodeRequest(ev: Message): Request {
    var p := ev.payload;
    if |p| < 16 then DefaultRequest()
    else
      Request(Word32(p[0]), Word32(p[1]), p[2], p[3], p[4], p[5], p[6], Word32(p[7]), Word32(p[8]), Word32(p[9]),
              Word32(p[10]), Word8(p[11]), Word8(p[12]), p[13] != 0, p[14] != 0, p[15] != 0,
              if |p| > 16 then Word16(p[16]) else 64)
  }

  function EncodeResponse(r: Response): Message {
    Message([if r.src == NO_NODE then r.sstCpu else r.src, if r.dst == NO_NODE then r.cpu else r.dst,
             r.address, r.vAddress, r.data, r.metadata, r.cpu, r.sstCpu, r.bytes])
  }

  function DecodeResponse(ev: Message): Response {
    var p := ev.payload;
    if |p| < 8 then Response(NO_NODE, NO_NODE, 0, 0, 0, 0, 0, 0, 64)
    else
      Response(Word32(p[0]), Word32(p[1]), p[2], p[3], p[4], Word32(p[5]), Word32(p[6]), Word32(p[7]),
               if |p| > 8 then Word16(p[8]) else 64)
  }

  /** Every field fits the width it has in the packet structure. */
  predicate RequestFits(r: Request) {
    && r.src <= NO_NODE && r.dst <= NO_NODE && r.metadata <= NO_NODE && r.cpu <= NO_NODE && r.sstCpu <= NO_NODE
    && r.kind <= NO_NODE && r.asid0 < 0x100 && r.asid1 < 0x100 && r.bytes < 0x1_0000
  }

  predicate ResponseFits(r: Response) {
    && r.src <= NO_NODE && r.dst <= NO_NODE && r.metadata <= NO_NODE && r.cpu <= NO_NODE && r.sstCpu <= NO_NODE
    && r.bytes < 0x1_0000
  }

  /** A request survives the fabric unchanged, but for the node ids that default to the processor's. */
  lemma RequestRoundTrip(r: Request)
    requires RequestFits(r)
    ensures DecodeRequest(EncodeRequest(r))
            == r.(src := if r.src == NO_NODE then r.cpu else r.src, dst := if r.dst == NO_NODE then r.sstCpu else r.dst)
    ensures !IsControl(EncodeRequest(r)) && MsgBytes(EncodeRequest(r)) == AtLeastOne(r.bytes)
  {
    Fits(r.src); Fits(r.dst); Fits(r.metadata); Fits(r.cpu); Fits(r.sstCpu); Fits(r.kind);
  }

  lemma ResponseRoundTrip(r: Response)
    requires ResponseFits(r)
    ensures DecodeResponse(EncodeResponse(r))
            == r.(src := if r.src == NO_NODE then r.sstCpu else r.src, dst := if r.dst == NO_NODE then r.cpu else r.dst)
    ensures !IsControl(EncodeResponse(r)) && MsgBytes(EncodeResponse(r)) == AtLeastOne(r.bytes)
  {
    Fits(r.src); Fits(r.dst); Fits(r.metadata); Fits(r.cpu); Fits(r.sstCpu);
  }

  lemma Fits(n: nat)
    requires n <= NO_NODE
    ensures Word32(n) == n
  {
  }

  // The pool.

  datatype PoolConfig = PoolConfig(id: nat, useSwitch: bool, connected: set<nat>, link: PortConfig, pqSize: nat,
                                   memory: Config<Job>)

  /** A request in the memory channel; its tag is all it depends on. */
  datatype Job = Job(tag: nat, req: Request)

  datatype Reply = Reply(tag: nat, address: nat, vAddress: nat, data: nat, metadata: nat)

  datatype Route = Route(cpu: nat, sstCpu: nat, src: nat, dst: nat)

  datatype Answer = Answer(tag: nat, port: nat, message: Message)

  /** `accepted` lists the requests by tag, from 1; `answered` and `silent` list what has left the pool with and
    * without a response. A response for a port that is not connected makes the pool throw. */
  datatype Pool = Pool(nextTag: nat, pending: map<nat, Route>, pq: seq<Job>, queue: Queue<Job>, returned: seq<Reply>,
                       ports: seq<Port>, thrown: bool, accepted: seq<Request>, answered: seq<Answer>, silent: seq<Job>)

  function RouteOf(r: Request): Route { Route(r.cpu, r.sstCpu, r.src, r.dst) }

  function ReplyOf(j: Job): Reply { Reply(j.tag, j.req.address, j.req.vAddress, j.req.data, j.req.metadata) }

  function EgressPort(c: PoolConfig, sstCpu: nat): Option<nat> {
    if c.useSwitch then Some(0)
    else if sstCpu < MAX_PORTS && sstCpu in c.connected then Some(sstCpu) else None
  }

  function Drafted(c: PoolConfig, r: Reply, route: Route): Response {
    Response(c.id, if route.src == NO_NODE then route.sstCpu else route.src, r.address, r.vAddress, r.data,
             Word32(r.metadata), route.cpu, route.sstCpu, 64)
  }

  predicate Valid(c: PoolConfig, s: Pool) {
    && c.memory.maxPending <= 0 && |s.queue.hist| == WINDOW && s.queue.idx < WINDOW
    && |s.ports| == (if c.useSwitch then 1 else MAX_PORTS)
  }

  function EnqueueRequest(s: Pool, r: Request): Pool {
    s.(nextTag := s.nextTag + 1, accepted := s.accepted + [r], pq := s.pq + [Job(s.nextTag, r)],
       pending := if r.responseRequested then s.pending[s.nextTag := RouteOf(r)] else s.pending)
  }

  function ResetStats(s: Pool): Pool {
    s.(queue := Cleared(s.queue),
       ports := seq(|s.ports|, k requires 0 <= k < |s.ports| => s.ports[k].(ingress := Cleared(s.ports[k].ingress))))
  }

  predicate Accepts(c: PoolConfig, s: Pool, ev: Message) { IsReset(ev) || |s.pq| < c.pqSize }

  /** The handler given to a port: what becomes of the first message ready there. */
  function HandleEvent(c: PoolConfig, s: Pool, ev: Message): Pool {
    if IsReset(ev) then ResetStats(s)
    else if |s.pq| >= c.pqSize then s
    else EnqueueRequest(s, DecodeRequest(ev))
  }

  /** Completed requests are taken from the back; those that want a response give one. */
  function Replies(done: seq<Job>): seq<Reply> {
    if done == [] then []
    else
      var last := done[|done| - 1];
      (if last.req.responseRequested then [ReplyOf(last)] else []) + Replies(done[..|done| - 1])
  }

  function Silent(done: seq<Job>): seq<Job> {
    if done == [] then []
    else (if done[|done| - 1].req.responseRequested then [] else [done[|done| - 1]]) + Silent(done[..|done| - 1])
  }

  function AddAll(m: Config<Job>, q: Queue<Job>, jobs: seq<Job>): Queue<Job>
    decreases |jobs|
  {
    if jobs == [] then q else AddAll(m, Add(m, q, jobs[0]), jobs[1..])
  }

  function Operate(c: PoolConfig, s: Pool, order: seq<Transit<Job>>): Pool
    requires Valid(c, s)
  {
    var q := Tick(c.memory, s.queue, order);
    s.(queue := AddAll(c.memory, q, s.pq), pq := [], returned := s.returned + Replies(Payloads(order)),
       silent := s.silent + Silent(Payloads(order)))
  }

  /** Whether the first returned reply leaves the channel, and the state then. */
  datatype Attempt = Blocked | Throws | Done(after: Pool)

  function TrySend(c: PoolConfig, s: Pool, r: Reply): Attempt
    requires Valid(c, s)
  {
    if r.tag !in s.pending then Done(s)
    else
      var route := s.pending[r.tag];
      match EgressPort(c, route.sstCpu)
      case None => Throws
      case Some(k) =>
        if !CanSend(c.link, s.ports[k]) then Blocked
        else
          var message := EncodeResponse(Drafted(c, r, route));
          Done(s.(ports := s.ports[k := Enqueued(c.link, s.ports[k], message)], pending := s.pending - {r.tag},
                  answered := s.answered + [Answer(r.tag, k, message)]))
  }

  function DrainReturned(c: PoolConfig, s: Pool): Pool
    requires Valid(c, s)
    decreases |s.returned|
  {
    if s.returned == [] then s
    else
      match TrySend(c, s, s.returned[0])
      case Blocked => s
      case Throws => s.(thrown := true)
      case Done(t) => DrainReturned(c, t.(returned := s.returned[1..]))
  }

  // Every request is somewhere, once.

  /** What the pool sends back for a request: to the node it came from, or failing that its processor's. */
  function AnswerOf(c: PoolConfig, j: Job): Answer {
    var k := EgressPort(c, j.req.sstCpu);
    Answer(j.tag, if k.Some? then k.value else 0, EncodeResponse(Drafted(c, ReplyOf(j), RouteOf(j.req))))
  }

  predicate KnownTag(s: Pool, tag: nat) { 1 <= tag <= |s.accepted| }

  function JobOf(s: Pool, tag: nat): Job
    requires KnownTag(s, tag)
  {
    Job(tag, s.accepted[tag - 1])
  }

  ghost predicate KnownJob(s: Pool, j: Job) { KnownTag(s, j.tag) && j == JobOf(s, j.tag) }

  ghost predicate KnownReply(s: Pool, r: Reply) {
    KnownTag(s, r.tag) && r == ReplyOf(JobOf(s, r.tag)) && JobOf(s, r.tag).req.responseRequested
  }

  ghost predicate KnownAnswer(c: PoolConfig, s: Pool, a: Answer) {
    KnownTag(s, a.tag) && a == AnswerOf(c, JobOf(s, a.tag)) && JobOf(s, a.tag).req.responseRequested
  }

  /** How often a job is inside the pool, and how often it has left it. */
  ghost function Inside(s: Pool, j: Job): nat {
    multiset(s.pq)[j] + Carried(s.queue)[j] + if j.req.responseRequested then multiset(s.returned)[ReplyOf(j)] else 0
  }

  ghost function Left(c: PoolConfig, s: Pool, j: Job): nat {
    if j.req.responseRequested then multiset(s.answered)[AnswerOf(c, j)] else multiset(s.silent)[j]
  }

  ghost predicate Known(c: PoolConfig, s: Pool) {
    && (forall j :: j in s.pq ==> KnownJob(s, j))
    && (forall j :: j in Carried(s.queue) ==> KnownJob(s, j))
    && (forall j :: j in s.silent ==> KnownJob(s, j))
    && (forall r :: r in s.returned ==> KnownReply(s, r))
    && (forall a :: a in s.answered ==> KnownAnswer(c, s, a))
  }

  ghost predicate Settled(c: PoolConfig, s: Pool, tag: nat)
    requires KnownTag(s, tag)
  {
    var j := JobOf(s, tag);
    && Inside(s, j) + Left(c, s, j) == 1
    && (tag in s.pending <==> j.req.responseRequested && Inside(s, j) == 1)
    && (tag in s.pending ==> s.pending[tag] == RouteOf(j.req))
  }

  ghost predicate Inv(c: PoolConfig, s: Pool) {
    && Valid(c, s) && LatBwQueue.Inv(c.memory, s.queue)
    && s.nextTag == |s.accepted| + 1
    && Known(c, s)
    && (forall tag :: tag in s.pending ==> KnownTag(s, tag))
    && (forall tag :: KnownTag(s, tag) ==> Settled(c, s, tag))
  }

  lemma KnownCounts(c: PoolConfig, s: Pool, j: Job)
    requires Known(c, s) && !KnownTag(s, j.tag)
    ensures multiset(s.pq)[j] == 0 && Carried(s.queue)[j] == 0 && multiset(s.silent)[j] == 0
    ensures multiset(s.returned)[ReplyOf(j)] == 0 && multiset(s.answered)[AnswerOf(c, j)] == 0
  {
    hide LatBwQueue.Inv, Carried, EncodeResponse;
    var r, a := ReplyOf(j), AnswerOf(c, j);
    assert r.tag == j.tag && a.tag == j.tag;
    assert r !in s.returned;
    assert a !in s.answered;
    assert j !in s.pq && j !in s.silent;
    assert r !in multiset(s.returned) && a !in multiset(s.answered);
    assert j !in multiset(s.pq) && j !in multiset(s.silent) && j !in Carried(s.queue);
  }

  /** Only what a request's fate depends on matters. */
  lemma SameFate(c: PoolConfig, s: Pool, t: Pool)
    requires Inv(c, s) && Valid(c, t) && LatBwQueue.Inv(c.memory, t.queue) && Carried(t.queue) == Carried(s.queue)
    requires t == s.(queue := t.queue, ports := t.ports, thrown := t.thrown)
    ensures Inv(c, t)
  {
    hide LatBwQueue.Inv, Carried, EncodeResponse;
    forall tag | KnownTag(t, tag) ensures Settled(c, t, tag) { assert Settled(c, s, tag); }
  }

  // Accepting a request.

  lemma EnqueueKeeps(c: PoolConfig, s: Pool, r: Request)
    requires Inv(c, s)
    ensures Inv(c, EnqueueRequest(s, r))
  {
    var t := EnqueueRequest(s, r);
    forall tag | KnownTag(t, tag) ensures Settled(c, t, tag) { EnqueueSettles(c, s, r, tag); }
    EnqueueKnown(c, s, r);
    hide LatBwQueue.Inv, Known, Settled;
  }

  lemma EnqueueKnown(c: PoolConfig, s: Pool, r: Request)
    requires Known(c, s) && s.nextTag == |s.accepted| + 1
    ensures Known(c, EnqueueRequest(s, r))
  {
    hide Carried, EncodeResponse;
  }

  lemma EnqueueSettles(c: PoolConfig, s: Pool, r: Request, tag: nat)
    requires Inv(c, s) && KnownTag(EnqueueRequest(s, r), tag)
    ensures Settled(c, EnqueueRequest(s, r), tag)
  {
    hide LatBwQueue.Inv, Carried, EncodeResponse;
    var t := EnqueueRequest(s, r);
    var j := JobOf(t, tag);
    assert multiset(t.pq)[j] == multiset(s.pq)[j] + if tag == s.nextTag then 1 else 0;
    if KnownTag(s, tag) {
      assert Settled(c, s, tag) && j == JobOf(s, tag);
    } else {
      KnownCounts(c, s, j);
      hide Known, AnswerOf;
    }
  }

  // The controller.

  lemma {:induction false} AddAllKeeps(m: Config<Job>, q: Queue<Job>, jobs: seq<Job>)
    requires LatBwQueue.Inv(m, q) && m.maxPending <= 0
    ensures LatBwQueue.Inv(m, AddAll(m, q, jobs)) && Carried(AddAll(m, q, jobs)) == Carried(q) + multiset(jobs)
    decreases |jobs|
  {
    if jobs != [] {
      AddKeeps(m, q, jobs[0]);
      AddCarries(m, q, jobs[0]);
      hide LatBwQueue.Inv, Carried, Add;
      AddAllKeeps(m, Add(m, q, jobs[0]), jobs[1..]);
      assert jobs == [jobs[0]] + jobs[1..];
    }
  }

  lemma {:induction false} RepliesCount(s: Pool, done: seq<Job>, j: Job)
    requires KnownJob(s, j) && forall k :: k in done ==> KnownJob(s, k)
    ensures j.req.responseRequested ==> multiset(Replies(done))[ReplyOf(j)] == multiset(done)[j]
    ensures !j.req.responseRequested ==> multiset(Silent(done))[j] == multiset(done)[j]
  {
    if done != [] {
      var most, last := done[..|done| - 1], done[|done| - 1];
      assert done == most + [last];
      assert last in done;
      RepliesCount(s, most, j);
    }
  }

  lemma {:induction false} RepliesKnown(s: Pool, done: seq<Job>)
    requires forall k :: k in done ==> KnownJob(s, k)
    ensures forall r :: r in Replies(done) ==> KnownReply(s, r)
    ensures forall k :: k in Silent(done) ==> KnownJob(s, k)
  {
    if done != [] {
      assert done[|done| - 1] in done;
      RepliesKnown(s, done[..|done| - 1]);
    }
  }

  lemma OperateMoves(c: PoolConfig, s: Pool, order: seq<Transit<Job>>)
    requires Inv(c, s) && PopOrder(s.queue, order)
    ensures var t := Operate(c, s, order);
            && LatBwQueue.Inv(c.memory, t.queue)
            && Carried(t.queue) + multiset(Payloads(order)) == Carried(s.queue) + multiset(s.pq)
            && forall j :: j in Payloads(order) ==> j in Carried(s.queue)
  {
    var q := Tick(c.memory, s.queue, order);
    TickKeeps(c.memory, s.queue, order);
    TickCarries(c.memory, s.queue, order);
    hide LatBwQueue.Inv, Carried, Tick, Payloads, Known, Settled;
    AddAllKeeps(c.memory, q, s.pq);
    forall j | j in Payloads(order) ensures j in Carried(s.queue) {
      assert j in multiset(Payloads(order));
    }
  }

  lemma OperateSettles(c: PoolConfig, s: Pool, order: seq<Transit<Job>>, tag: nat)
    requires Inv(c, s) && PopOrder(s.queue, order) && KnownTag(s, tag)
    ensures Settled(c, Operate(c, s, order), tag)
  {
    var t := Operate(c, s, order);
    var j := JobOf(s, tag);
    OperateMoves(c, s, order);
    RepliesCount(s, Payloads(order), j);
    hide LatBwQueue.Inv, Carried, Tick, Payloads, PopOrder, AddAll;
    assert Settled(c, s, tag);
    hide Known, Settled, AnswerOf, Replies, Silent, KnownJob;
    var done := Payloads(order);
    OperateCounts(c, s, t, j, done);
    assert Inside(t, j) + Left(c, t, j) == Inside(s, j) + Left(c, s, j);
    SettledFrom(c, s, t, tag);
  }

  lemma OperateCounts(c: PoolConfig, s: Pool, t: Pool, j: Job, done: seq<Job>)
    requires t == s.(queue := t.queue, pq := [], returned := s.returned + Replies(done), silent := s.silent
        + Silent(done))
    requires Carried(t.queue) + multiset(done) == Carried(s.queue) + multiset(s.pq)
    requires j.req.responseRequested ==> multiset(Replies(done))[ReplyOf(j)] == multiset(done)[j]
    requires !j.req.responseRequested ==> multiset(Silent(done))[j] == multiset(done)[j]
    ensures Inside(t, j) + Left(c, t, j) == Inside(s, j) + Left(c, s, j)
    ensures j.req.responseRequested ==> Inside(t, j) == Inside(s, j)
  {
    hide Carried, Replies, Silent, AnswerOf;
    assert multiset(t.returned) == multiset(s.returned) + multiset(Replies(done));
    assert multiset(t.silent) == multiset(s.silent) + multiset(Silent(done));
    assert (Carried(t.queue) + multiset(done))[j] == (Carried(s.queue) + multiset(s.pq))[j];
  }

  lemma SettledFrom(c: PoolConfig, s: Pool, t: Pool, tag: nat)
    requires KnownTag(s, tag) && Settled(c, s, tag) && t.accepted == s.accepted && t.pending == s.pending
    requires var j := JobOf(s, tag);
             && Inside(t, j) + Left(c, t, j) == Inside(s, j) + Left(c, s, j)
             && (j.req.responseRequested ==> Inside(t, j) == Inside(s, j))
    ensures Settled(c, t, tag)
  {
    hide Inside, Left;
  }

  lemma OperateKeeps(c: PoolConfig, s: Pool, order: seq<Transit<Job>>)
    requires Inv(c, s) && PopOrder(s.queue, order)
    ensures Inv(c, Operate(c, s, order))
  {
    var t := Operate(c, s, order);
    OperateMoves(c, s, order);
    OperateKnown(c, s, order);
    forall tag | KnownTag(t, tag) ensures Settled(c, t, tag) { OperateSettles(c, s, order, tag); }
    hide Known, Settled, PopOrder, Carried, Tick, AddAll;
  }

  lemma OperateKnown(c: PoolConfig, s: Pool, order: seq<Transit<Job>>)
    requires Inv(c, s) && PopOrder(s.queue, order)
    ensures Known(c, Operate(c, s, order))
  {
    var t := Operate(c, s, order);
    OperateMoves(c, s, order);
    RepliesKnown(s, Payloads(order));
    hide LatBwQueue.Inv, Carried, Tick, Payloads, PopOrder, AddAll, Settled;
    var done := Payloads(order);
    hide Replies, Silent;
    OperateKnownFrom(c, s, t, done);
  }

  lemma OperateKnownFrom(c: PoolConfig, s: Pool, t: Pool, done: seq<Job>)
    requires Known(c, s)
    requires t == s.(queue := t.queue, pq := [], returned := s.returned + Replies(done), silent := s.silent
        + Silent(done))
    requires Carried(t.queue) + multiset(done) == Carried(s.queue) + multiset(s.pq)
    requires forall r :: r in Replies(done) ==> KnownReply(s, r)
    requires forall k :: k in Silent(done) ==> KnownJob(s, k)
    ensures Known(c, t)
  {
    hide Carried, Replies, Silent, AnswerOf;
    forall j | j in Carried(t.queue) ensures KnownJob(t, j) {
      assert j in Carried(s.queue) + multiset(s.pq);
      if j in s.pq { assert KnownJob(s, j); } else { assert j in Carried(s.queue); }
    }
  }

  // Responses.

  /** Every reply in the channel still has its route: none is ever dropped for want of one. */
  lemma ReplyHasRoute(c: PoolConfig, s: Pool, r: Reply)
    requires Inv(c, s) && r in s.returned
    ensures KnownReply(s, r) && r.tag in s.pending && s.pending[r.tag] == RouteOf(JobOf(s, r.tag).req)
  {
    hide LatBwQueue.Inv, Carried, EncodeResponse, AnswerOf;
    assert KnownReply(s, r) && Settled(c, s, r.tag);
    assert r in multiset(s.returned);
  }

  lemma SendKeeps(c: PoolConfig, s: Pool)
    requires Inv(c, s) && s.returned != [] && TrySend(c, s, s.returned[0]).Done?
    ensures Inv(c, TrySend(c, s, s.returned[0]).after.(returned := s.returned[1..]))
  {
    hide LatBwQueue.Inv, Known, Settled;
    var r := s.returned[0];
    var t := TrySend(c, s, r).after.(returned := s.returned[1..]);
    ReplyHasRoute(c, s, r);
    SendIs(c, s, r);
    hide Inv, AnswerOf, TrySend;
    SendKeepsFrom(c, s, t, r);
  }

  lemma SendKeepsFrom(c: PoolConfig, s: Pool, t: Pool, r: Reply)
    requires Inv(c, s) && r in s.returned && KnownReply(s, r) && |t.ports| == |s.ports|
    requires t == s.(returned := t.returned, ports := t.ports, pending := s.pending - {r.tag}, answered := t.answered)
    requires t.answered == s.answered + [AnswerOf(c, JobOf(s, r.tag))] && s.returned == [r] + t.returned
    ensures Inv(c, t)
  {
    hide LatBwQueue.Inv, Carried, Known, Settled, AnswerOf;
    forall tag | KnownTag(t, tag) ensures Settled(c, t, tag) { SendSettles(c, s, t, r, tag); }
    SendKnown(c, s, t, r);
  }

  lemma SendIs(c: PoolConfig, s: Pool, r: Reply)
    requires Valid(c, s) && s.returned != [] && r == s.returned[0] && TrySend(c, s, r).Done? && KnownReply(s, r)
    requires r.tag in s.pending && s.pending[r.tag] == RouteOf(JobOf(s, r.tag).req)
    ensures var t := TrySend(c, s, r).after.(returned := s.returned[1..]);
            && t == s.(returned := t.returned, ports := t.ports, pending := s.pending - {r.tag}, answered := t.answered)
            && t.answered == s.answered + [AnswerOf(c, JobOf(s, r.tag))] && s.returned == [r] + t.returned
            && |t.ports| == |s.ports|
  {
    hide EncodeResponse, Enqueued;
  }

  lemma SendKnown(c: PoolConfig, s: Pool, t: Pool, r: Reply)
    requires Known(c, s) && KnownReply(s, r)
    requires t == s.(returned := t.returned, ports := t.ports, pending := t.pending, answered := t.answered)
    requires s.returned == [r] + t.returned && t.answered == s.answered + [AnswerOf(c, JobOf(s, r.tag))]
    ensures Known(c, t)
  {
    hide Carried, EncodeResponse;
    forall x | x in t.returned ensures KnownReply(t, x) { assert x in s.returned; }
  }

  lemma SendSettles(c: PoolConfig, s: Pool, t: Pool, r: Reply, tag: nat)
    requires Inv(c, s) && r in s.returned && KnownTag(s, tag)
    requires t == s.(returned := t.returned, ports := t.ports, pending := s.pending - {r.tag}, answered := t.answered)
    requires s.returned == [r] + t.returned && t.answered == s.answered + [AnswerOf(c, JobOf(s, r.tag))]
    ensures Settled(c, t, tag)
  {
    hide LatBwQueue.Inv, Carried;
    assert Settled(c, s, tag) && Settled(c, s, r.tag);
    var j := JobOf(s, tag);
    assert multiset(s.returned)[ReplyOf(j)] == multiset(t.returned)[ReplyOf(j)] + if tag == r.tag then 1 else 0;
    assert multiset(t.answered)[AnswerOf(c, j)] == multiset(s.answered)[AnswerOf(c, j)] + if tag == r.tag then 1 else 0;
  }

  lemma {:induction false} DrainKeeps(c: PoolConfig, s: Pool)
    requires Inv(c, s)
    ensures Inv(c, DrainReturned(c, s))
    decreases |s.returned|
  {
    SameFate(c, s, s.(thrown := true));
    assert Valid(c, s);
    hide Inv, TrySend;
    if s.returned != [] && TrySend(c, s, s.returned[0]).Done? {
      SendKeeps(c, s);
      DrainKeeps(c, TrySend(c, s, s.returned[0]).after.(returned := s.returned[1..]));
    }
  }

  /** Draining stops only when nothing is left, the first reply's port is full, or its processor has no port. */
  lemma {:induction false} DrainStops(c: PoolConfig, s: Pool)
    requires Inv(c, s)
    ensures var t := DrainReturned(c, s);
            t.returned == [] || (
              && Valid(c, t) && t.returned[0].tag in t.pending
              && var k := EgressPort(c, t.pending[t.returned[0].tag].sstCpu);
                 if k.Some? then !CanSend(c.link, t.ports[k.value]) else t.thrown)
    decreases |s.returned|
  {
    if s.returned != [] {
      ReplyHasRoute(c, s, s.returned[0]);
      if TrySend(c, s, s.returned[0]).Done? {
        SendKeeps(c, s);
        hide Inv, TrySend;
        DrainStops(c, TrySend(c, s, s.returned[0]).after.(returned := s.returned[1..]));
      }
    }
  }

  /** Draining takes at least one reply exactly when the port of the first one has room. */
  lemma DrainMoves(c: PoolConfig, s: Pool)
    requires Inv(c, s) && s.returned != []
    ensures s.returned[0].tag in s.pending
    ensures |DrainReturned(c, s).returned| < |s.returned| <==>
              var k := EgressPort(c, s.pending[s.returned[0].tag].sstCpu); k.Some? && CanSend(c.link, s.ports[k.value])
  {
    ReplyHasRoute(c, s, s.returned[0]);
    if TrySend(c, s, s.returned[0]).Done? {
      SendKeeps(c, s);
      hide Inv, TrySend;
      DrainShortens(c, TrySend(c, s, s.returned[0]).after.(returned := s.returned[1..]));
    }
  }

  lemma {:induction false} DrainShortens(c: PoolConfig, s: Pool)
    requires Inv(c, s)
    ensures |DrainReturned(c, s).returned| <= |s.returned|
    decreases |s.returned|
  {
    assert Valid(c, s);
    hide Inv, TrySend;
    if s.returned != [] && TrySend(c, s, s.returned[0]).Done? {
      SendKeeps(c, s);
      DrainShortens(c, TrySend(c, s, s.returned[0]).after.(returned := s.returned[1..]));
    }
  }

  // Whole runs.

  datatype Event =
    | Handle(ev: Message)
    | Control(order: seq<Transit<Job>>)
    | Respond
    | PortsMove(ports: seq<Port>)

  ghost predicate Enabled(s: Pool, e: Event) {
    match e
    case Control(order) => PopOrder(s.queue, order)
    case PortsMove(ports) => |ports| == |s.ports|
    case _ => true
  }

  function Apply(c: PoolConfig, s: Pool, e: Event): Pool
    requires Valid(c, s)
  {
    match e
    case Handle(ev) => HandleEvent(c, s, ev)
    case Control(order) => Operate(c, s, order)
    case Respond => DrainReturned(c, s)
    case PortsMove(ports) => s.(ports := ports)
  }

  function Empty(ports: seq<Port>): Pool { Pool(1, map[], [], Fresh(), [], ports, false, [], [], []) }

  ghost predicate Steps(c: PoolConfig, s: Pool, e: Event, t: Pool) {
    Valid(c, s) && !s.thrown && Enabled(s, e) && t == Apply(c, s, e)
  }

  ghost predicate IsRun(c: PoolConfig, states: seq<Pool>, events: seq<Event>) {
    && |states| == |events| + 1 && Valid(c, states[0]) && states[0] == Empty(states[0].ports)
    && forall i :: 0 <= i < |events| ==> Steps(c, states[i], events[i], states[i + 1])
  }

  lemma ResetStatsKeeps(c: PoolConfig, s: Pool)
    requires Inv(c, s)
    ensures Inv(c, ResetStats(s))
  {
    var t := ResetStats(s);
    ResetKeeps(c.memory, s.queue);
    assert Carried(t.queue) == Carried(s.queue);
    hide Inv, Carried;
    SameFate(c, s, t);
  }

  lemma PortsKeep(c: PoolConfig, s: Pool, ports: seq<Port>)
    requires Inv(c, s) && |ports| == |s.ports|
    ensures Inv(c, s.(ports := ports))
  {
    SameFate(c, s, s.(ports := ports));
  }

  lemma StepKeeps(c: PoolConfig, s: Pool, e: Event, t: Pool)
    requires Inv(c, s) && Steps(c, s, e, t)
    ensures Inv(c, t)
  {
    match e
    case Handle(ev) =>
      ResetStatsKeeps(c, s);
      EnqueueKeeps(c, s, DecodeRequest(ev));
    case Control(order) => OperateKeeps(c, s, order);
    case Respond => DrainKeeps(c, s);
    case PortsMove(ports) => PortsKeep(c, s, ports);
  }

  lemma {:induction false} RunInv(c: PoolConfig, states: seq<Pool>, events: seq<Event>, i: nat)
    requires IsRun(c, states, events) && i < |states|
    ensures Inv(c, states[i])
  {
    if i == 0 {
      FreshInv(c.memory);
    } else {
      RunInv(c, states, events, i - 1);
      assert Steps(c, states[i - 1], events[i - 1], states[i]);
      hide Inv, Apply, Enabled;
      StepKeeps(c, states[i - 1], events[i - 1], states[i]);
    }
  }

  /** In every reachable state each accepted request that wants a response is inside the pool once with its route
    * remembered, or has been answered once, to its own node with its own address, and never both; no other
    * response has been sent and no other route is remembered. */
  lemma RunAnswersOnce(c: PoolConfig, states: seq<Pool>, events: seq<Event>, i: nat)
    requires IsRun(c, states, events) && i < |states|
    ensures var s := states[i];
            && (forall tag :: KnownTag(s, tag) ==>
                 var j := JobOf(s, tag);
                 if j.req.responseRequested then
                   && Inside(s, j) + multiset(s.answered)[AnswerOf(c, j)] == 1
                   && (tag in s.pending <==> Inside(s, j) == 1)
                   && (tag in s.pending ==> s.pending[tag] == RouteOf(j.req))
                 else
                   Inside(s, j) + multiset(s.silent)[j] == 1)
            && (forall a :: a in s.answered ==>
                 && KnownTag(s, a.tag) && JobOf(s, a.tag).req.responseRequested
                 && a == AnswerOf(c, JobOf(s, a.tag)))
            && (forall tag :: tag in s.pending ==> KnownTag(s, tag) && JobOf(s, tag).req.responseRequested)
            && (forall r :: r in s.returned ==> r.tag in s.pending)
  {
    RunInv(c, states, events, i);
    var s := states[i];
    forall tag | KnownTag(s, tag) ensures Settled(c, s, tag) {}
    forall tag | tag in s.pending ensures KnownTag(s, tag) && JobOf(s, tag).req.responseRequested {
      assert Settled(c, s, tag);
    }
    forall r | r in s.returned ensures r.tag in s.pending { ReplyHasRoute(c, s, r); }
    hide LatBwQueue.Inv, Carried;
  }

  /** The response to a request that named its node comes back to that node, with the request's address. */
  lemma AnswerGoesHome(c: PoolConfig, tag: nat, r: Request)
    requires RequestFits(r) && r.src != NO_NODE && c.id < NO_NODE
    ensures var j := Job(tag, DecodeRequest(EncodeRequest(r)));
            var back := DecodeResponse(AnswerOf(c, j).message);
            && back.dst == r.src && back.src == c.id && back.address == r.address && back.vAddress == r.vAddress
            && back.data == r.data && back.cpu == r.cpu && back.sstCpu == r.sstCpu && back.metadata == r.metadata
  {
    RequestRoundTrip(r);
    var j := Job(tag, DecodeRequest(EncodeRequest(r)));
    Fits(r.metadata);
    ResponseRoundTrip(Drafted(c, ReplyOf(j), RouteOf(j.req)));
    hide EncodeRequest, DecodeRequest, EncodeResponse, DecodeResponse, Word32;
  }

  // The loops.

  lemma AddAllStep(m: Config<Job>, q: Queue<Job>, jobs: seq<Job>)
    requires jobs != []
    ensures AddAll(m, q, jobs) == AddAll(m, Add(m, q, jobs[0]), jobs[1..])
  {
  }

  lemma AddAllStop(m: Config<Job>, q: Queue<Job>)
    ensures AddAll(m, q, []) == q
  {
  }

  lemma RepliesStep(done: seq<Job>)
    requires done != []
    ensures var last, most := done[|done| - 1], done[..|done| - 1];
            && Replies(done) == (if last.req.responseRequested then [ReplyOf(last)] else []) + Replies(most)
            && Silent(done) == (if last.req.responseRequested then [] else [last]) + Silent(most)
  {
  }

  lemma RepliesStop()
    ensures Replies([]) == [] && Silent([]) == []
  {
  }

  lemma Append<T>(a: seq<T>, b: seq<T>, d: seq<T>)
    ensures (a + b) + d == a + (b + d) && a + [] == a
  {
  }

  class CxlMemoryPool {
    const c: PoolConfig
    const queue: BandwidthQueue<Job>
    var nextTag: nat
    var pending: map<nat, Route>
    var pq: seq<Job>
    var returned: seq<Reply>
    var ports: seq<Port>
    var thrown: bool
    ghost var accepted: seq<Request>
    ghost var answered: seq<Answer>
    ghost var silent: seq<Job>

    ghost predicate Sound()
      reads this, queue, queue.hist
    {
      queue.Valid() && queue.c == c.memory && Valid(c, View())
    }

    ghost function View(): Pool
      reads this, queue, queue.hist
    {
      Pool(nextTag, pending, pq, queue.View(), returned, ports, thrown, accepted, answered, silent)
    }

    constructor (c: PoolConfig, ports: seq<Port>)
      requires c.memory.maxPending <= 0 && |ports| == (if c.useSwitch then 1 else MAX_PORTS)
      ensures Sound() && this.c == c && View() == Empty(ports) && fresh(queue) && fresh(queue.hist)
    {
      this.c, this.ports := c, ports;
      queue := new BandwidthQueue(c.memory);
      nextTag, pending, pq, returned, thrown := 1, map[], [], [], false;
      accepted, answered, silent := [], [], [];
    }

    method EnqueueMemRequest(request: Request)
      requires Sound()
      modifies this
      ensures Sound() && View() == EnqueueRequest(old(View()), request)
    {
      var tag := nextTag;
      nextTag := nextTag + 1;
      if request.responseRequested {
        pending := pending[tag := Route(request.cpu, request.sstCpu, request.src, request.dst)];
      }
      pq := pq + [Job(tag, request)];
      accepted := accepted + [request];
    }

    method Handle(ev: Message) returns (ok: bool)
      requires Sound()
      modifies this, queue, queue.hist
      ensures Sound() && ok == Accepts(c, old(View()), ev) && View() == HandleEvent(c, old(View()), ev)
    {
      if IsReset(ev) {
        queue.ResetUtilization();
        var before := ports;
        ports := seq(|before|, k requires 0 <= k < |before| => before[k].(ingress := Cleared(before[k].ingress)));
        return true;
      }
      if |pq| >= c.pqSize { return false; }
      EnqueueMemRequest(DecodeRequest(ev));
      return true;
    }

    /** The controller's turn: replies for what has completed, then everything waiting enters its queue. */
    method Control() returns (ghost order: seq<Transit<Job>>)
      requires Sound()
      modifies this, queue, queue.hist
      ensures Sound() && PopOrder(old(View()).queue, order) && View() == Operate(c, old(View()), order)
    {
      var done;
      done, order := queue.OnTick();
      ghost var ticked := queue.View();
      ReturnCompleted(done);
      DrainPrefetches();
    }

    method ReturnCompleted(done: seq<Job>)
      modifies `returned, `silent
      ensures returned == old(returned) + Replies(done) && silent == old(silent) + Silent(done)
    {
      hide Replies, Silent;
      RepliesStop();
      var rest := done;
      ghost var replies: seq<Reply>, quiet: seq<Job> := [], [];
      while rest != []
        invariant returned == old(returned) + replies && silent == old(silent) + quiet
        invariant replies + Replies(rest) == Replies(done) && quiet + Silent(rest) == Silent(done)
        decreases |rest|
      {
        RepliesStep(rest);
        var req := rest[|rest| - 1];
        if req.req.responseRequested {
          returned := returned + [ReplyOf(req)];
          Append(replies, [ReplyOf(req)], Replies(rest[..|rest| - 1]));
          replies := replies + [ReplyOf(req)];
        } else {
          silent := silent + [req];
          Append(quiet, [req], Silent(rest[..|rest| - 1]));
          quiet := quiet + [req];
        }
        rest := rest[..|rest| - 1];
      }
    }

    method DrainPrefetches()
      requires queue.Valid() && queue.c == c.memory
      modifies `pq, queue
      ensures pq == [] && queue.Valid() && queue.View() == AddAll(c.memory, old(queue.View()), old(pq))
    {
      hide AddAll, Add;
      ghost var goal := AddAll(c.memory, queue.View(), pq);
      while pq != []
        invariant queue.Valid() && AddAll(c.memory, queue.View(), pq) == goal
        decreases |pq|
      {
        AddAllStep(c.memory, queue.View(), pq);
        var ok := queue.AddPacket(pq[0]);
        pq := pq[1..];
      }
      AddAllStop(c.memory, queue.View());
    }

    method TrySendResponse(response: Reply) returns (gone: bool)
      requires Sound() && !thrown
      modifies this
      ensures match TrySend(c, old(View()), response)
              case Blocked => !gone && View() == old(View())
              case Throws => !gone && View() == old(View()).(thrown := true)
              case Done(t) => gone && View() == t && Sound()
      ensures returned == old(returned) && (gone ==> !thrown)
    {
      if response.tag !in pending { return true; }
      var route := pending[response.tag];
      var port := EgressPort(c, route.sstCpu);
      if port.None? {
        thrown := true;
        return false;
      }
      if !CanSend(c.link, ports[port.value]) { return false; }
      var message := EncodeResponse(Drafted(c, response, route));
      ports := ports[port.value := Enqueued(c.link, ports[port.value], message)];
      pending := pending - {response.tag};
      answered := answered + [Answer(response.tag, port.value, message)];
      return true;
    }

    method RespondAll()
      requires Sound() && !thrown
      modifies this
      ensures View() == DrainReturned(c, old(View()))
    {
      hide TrySend;
      while returned != []
        invariant Sound() && !thrown && DrainReturned(c, View()) == DrainReturned(c, old(View()))
        decreases |returned|
      {
        ghost var before := View();
        var gone := TrySendResponse(returned[0]);
        if !gone { break; }
        returned := returned[1..];
        assert View() == TrySend(c, before, before.returned[0]).after.(returned := before.returned[1..]);
      }
    }
  }
}
