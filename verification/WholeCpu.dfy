/** The front end feeding the core: what is dispatched is the input stream, one instruction at a time while there is
  * room in the reorder buffer and in the load and store queues (dispatch_instruction in src/ooo_cpu.cc). */
module WholeCpu {
  import opened Options
  import F = FrontEnd
  import W = WholeCore
  import O = OutOfOrderCore
  import R = RegisterRenaming
  import Q = LoadStoreQueue
  import M = MemoryOrder
  import U = LoadStoreUnit
  import L = QueueLaws
  import C = ClearPrograms
  import T = LoadTracking

  /** The sizes and latencies of both ends, and the size of the store queue. */
  datatype Setup = Setup(front: F.Config, core: O.Config, sqSize: nat)

  /** Both ends; the reorder buffer is the last buffer of the one and the first of the other. */
  datatype Cpu = Cpu(front: F.Pipe, back: W.Machine)

  /** The instructions of the trace, as the front end and as the core see them. */
  ghost predicate IsStream(ops: seq<W.Op>, input: seq<F.Instr>) {
    |input| == |ops| && forall k :: 0 <= k < |ops| ==> input[k].id == ops[k].instr.id
  }

  // One turn of the dispatch loop.

  /** The operation of an instruction. */
  function OpOf(ops: seq<W.Op>, id: nat): (op: Option<W.Op>)
    ensures op.Some? ==> op.value in ops && op.value.instr.id == id
  {
    var k := W.IndexOf(ops, id);
    if k < |ops| then Some(ops[k]) else None
  }

  /** The loop's conditions on the queues, but for the bandwidth. */
  predicate Fits(sqSize: nat, q: Q.Lsq, p: Q.MemInstr) {
    |p.loads| <= Q.FreeSlots(q.lq) && |p.stores| + |q.sq| <= sqSize
  }

  datatype Event =
    | Front(move: F.Event)
    | Back(step: W.Event)
    | Dispatch
    | Retire

  /** The front end goes on by itself except where instructions enter or leave the reorder buffer. */
  ghost predicate CanHappen(c: Setup, m: W.Meaning, ops: seq<W.Op>, s: Cpu, e: Event) {
    match e
    case Front(x) => !x.Dispatches? && !x.Retires?
    case Back(x) => !x.Dispatch? && !x.Retire? && W.Enabled(c.core, m, ops, s.back, x)
    case Dispatch =>
      && s.front.dispatch != [] && s.front.dispatch[0].ready <= s.back.core.now && |s.front.rob| < c.front.robSize
      && var op := OpOf(ops, s.front.dispatch[0].id); op.Some? && Fits(c.sqSize, s.back.lsq, op.value.mem)
    case Retire => s.front.rob != [] && W.Enabled(c.core, m, ops, s.back, W.Retire)
  }

  // The invariant.

  function Stream(ops: seq<W.Op>): (r: seq<nat>)
    ensures |r| == |ops|
  {
    seq(|ops|, k requires 0 <= k < |ops| => ops[k].instr.id)
  }

  /** Both ends have seen the same instructions enter and leave the reorder buffer. */
  predicate Joined(s: Cpu) {
    |s.front.retired| == s.back.core.retired && |s.front.rob| == |s.back.core.rob|
  }

  ghost predicate Inv(c: Setup, m: W.Meaning, ops: seq<W.Op>, s: Cpu) {
    && F.Valid(c.front, s.front, Stream(ops)) && W.Inv(c.core, m, ops, s.back) && Joined(s)
    && |s.back.lsq.sq| <= c.sqSize
  }

  lemma Counts(c: Setup, m: W.Meaning, ops: seq<W.Op>, s: Cpu)
    requires Inv(c, m, ops, s)
    ensures W.IsProgram(m, ops)
    ensures |s.back.core.program| == |s.front.retired| + |s.front.rob| <= |ops|
    ensures F.InOrder(s.front) == Stream(ops)
  {
    hide F.InOrder, F.Increasing, Stream;
    W.InvAtShaped(c.core, m, ops, s.back.core, W.Unscheduled(s.back.core.rob));
  }

  /** The waiting instructions are the next of the program. */
  lemma WaitingAre(c: Setup, m: W.Meaning, ops: seq<W.Op>, s: Cpu, i: nat)
    requires Inv(c, m, ops, s) && i < |s.front.dispatch|
    ensures var n := |s.back.core.program|;
            n + i < |ops| && s.front.dispatch[i].id == ops[n + i].instr.id
            && OpOf(ops, s.front.dispatch[i].id) == Some(ops[n + i])
  {
    hide *;
    Counts(c, m, ops, s);
    WaitingIn(m, ops, s.front, i);
  }

  lemma WaitingIn(m: W.Meaning, ops: seq<W.Op>, p: F.Pipe, i: nat)
    requires W.IsProgram(m, ops) && F.InOrder(p) == Stream(ops) && i < |p.dispatch|
    ensures var n := |p.retired| + |p.rob| + i;
            n < |ops| && p.dispatch[i].id == ops[n].instr.id && OpOf(ops, p.dispatch[i].id) == Some(ops[n])
  {
    hide F.InOrder, O.Legal;
    WaitingAt(p, i);
    W.IndexIs(m, ops, |p.retired| + |p.rob| + i);
  }

  lemma WaitingAt(p: F.Pipe, i: nat)
    requires i < |p.dispatch|
    ensures var n := |p.retired| + |p.rob| + i; n < |F.InOrder(p)| && F.InOrder(p)[n] == p.dispatch[i].id
  {
    hide F.Merge;
  }

  /** The next instruction the front end dispatches is the next of the program. */
  lemma NextIsNext(c: Setup, m: W.Meaning, ops: seq<W.Op>, s: Cpu)
    requires Inv(c, m, ops, s) && s.front.dispatch != []
    ensures var n := |s.back.core.program|;
            n < |ops| && ops[n].instr.id == s.front.dispatch[0].id
            && OpOf(ops, s.front.dispatch[0].id) == Some(ops[n])
  {
    hide *;
    WaitingAre(c, m, ops, s, 0);
  }

  lemma DispatchAllowed(c: Setup, m: W.Meaning, ops: seq<W.Op>, s: Cpu)
    requires Inv(c, m, ops, s) && CanHappen(c, m, ops, s, Dispatch)
    ensures W.Enabled(c.core, m, ops, s.back, W.Dispatch)
  {
    NextIsNext(c, m, ops, s);
    W.InvAtShaped(c.core, m, ops, s.back.core, W.Unscheduled(s.back.core.rob));
  }

  ghost function Apply(c: Setup, m: W.Meaning, ops: seq<W.Op>, s: Cpu, e: Event): Cpu
    requires Inv(c, m, ops, s) && CanHappen(c, m, ops, s, e)
  {
    match e
    case Front(x) => s.(front := F.Apply(c.front, s.front, Stream(ops), x))
    case Back(x) => s.(back := W.Apply(c.core, m, ops, s.back, x))
    case Dispatch =>
      DispatchAllowed(c, m, ops, s);
      Cpu(F.Dispatched(s.front, 1), W.Apply(c.core, m, ops, s.back, W.Dispatch))
    case Retire => Cpu(F.Retired(s.front, 1), W.Apply(c.core, m, ops, s.back, W.Retire))
  }

  // The store queue keeps to its size.

  lemma {:induction false} DispatchLoadsLength(s: Q.Lsq, p: Q.MemInstr, n: nat)
    requires n <= |p.loads| && n <= Q.FreeSlots(s.lq)
    ensures |Q.DispatchLoads(s, p, n).sq| == |s.sq|
  {
    hide Q.FreeSlots;
    if n > 0 { DispatchLoadsLength(s, p, n - 1); }
  }

  lemma StoresKeepToSize(s: Q.Lsq, e: U.Event)
    requires U.Good(s) && U.Enabled(s, e)
    ensures |U.Apply(s, e).sq| <= |s.sq| + if e.Dispatches? then |e.p.stores| else 0
  {
    hide U.Good, U.IssueLoads, U.AnswerBlocks, U.StoreStage, Q.FreeSlots, Q.DispatchLoads;
    match e
    case Responses(blocks) => L.AnswersExactly(s, blocks);
    case StoreTurn(width, room) => var k, n, m, f := L.StoreTurnExactly(s, width, room);
    case LoadTurn(width, room) => L.IssuesExactly(s, width, room);
    case Dispatches(p) => DispatchLoadsLength(Q.PushInstr(s, p), p, |p.loads|);
    case _ =>
  }

  // Every event keeps the invariant.

  /** What a step of the core does to the reorder buffer and the store queue. */
  lemma CoreGoes(c: Setup, m: W.Meaning, ops: seq<W.Op>, s: W.Machine, e: W.Event)
    requires W.Inv(c.core, m, ops, s) && W.Enabled(c.core, m, ops, s, e) && (e.Complete? ==> W.Tame(m, s.lsq))
    ensures var t := W.Apply(c.core, m, ops, s, e);
            && W.Inv(c.core, m, ops, t)
            && |t.core.rob| == |s.core.rob| + (if e.Dispatch? then 1 else if e.Retire? then -1 else 0)
            && t.core.retired == s.core.retired + (if e.Retire? then 1 else 0)
            && |t.lsq.sq| <= |s.lsq.sq| + if e.Dispatch? then |ops[|s.core.program|].mem.stores| else 0
  {
    hide W.Inv, W.Enabled, W.Apply, W.CoreAfter, W.Tame, U.Apply, U.Enabled;
    W.ApplyKeeps(c.core, m, ops, s, e);
    W.CoreShape(c.core, m, ops, s, e);
    W.AfterIs(c.core, m, ops, s, e);
    QueueGoes(c, m, ops, s, e);
    RetiredCount(c, m, ops, s);
    RetiredCount(c, m, ops, W.Apply(c.core, m, ops, s, e));
  }

  lemma RetiredCount(c: Setup, m: W.Meaning, ops: seq<W.Op>, s: W.Machine)
    requires W.Inv(c.core, m, ops, s)
    ensures s.core.retired + |s.core.rob| == |s.core.program| && U.Good(s.lsq)
  {
    W.InvAtShaped(c.core, m, ops, s.core, W.Unscheduled(s.core.rob));
  }

  lemma QueueGoes(c: Setup, m: W.Meaning, ops: seq<W.Op>, s: W.Machine, e: W.Event)
    requires W.Inv(c.core, m, ops, s) && W.Enabled(c.core, m, ops, s, e)
    ensures |s.core.program| < |ops| || !e.Dispatch?
    ensures |W.Apply(c.core, m, ops, s, e).lsq.sq|
         <= |s.lsq.sq| + if e.Dispatch? then |ops[|s.core.program|].mem.stores| else 0
  {
    RetiredCount(c, m, ops, s);
    W.QueueEnabled(c.core, m, ops, s, e);
    hide U.Good, U.Apply, U.Enabled, W.CoreAfter;
    StoresKeepToSize(s.lsq, W.QueueEvent(c.core, ops, s, e));
    hide W.Inv;
  }

  lemma ApplyKeeps(c: Setup, m: W.Meaning, ops: seq<W.Op>, s: Cpu, e: Event)
    requires Inv(c, m, ops, s) && CanHappen(c, m, ops, s, e)
    requires e.Back? && e.step.Complete? ==> W.Tame(m, s.back.lsq)
    ensures Inv(c, m, ops, Apply(c, m, ops, s, e))
  {
    hide W.Inv, W.Enabled, W.Apply, W.Tame, F.Valid;
    match e
    case Front(x) => FrontGoes(c.front, s.front, Stream(ops), x);
    case Back(x) => CoreGoes(c, m, ops, s.back, x);
    case Dispatch =>
      NextIsNext(c, m, ops, s);
      DispatchAllowed(c, m, ops, s);
      CoreGoes(c, m, ops, s.back, W.Dispatch);
      F.DispatchedKeeps(c.front, s.front, Stream(ops), 1);
    case Retire =>
      CoreGoes(c, m, ops, s.back, W.Retire);
      F.RetiredKeeps(c.front, s.front, Stream(ops), 1);
  }

  lemma FrontGoes(c: F.Config, p: F.Pipe, stream: seq<nat>, e: F.Event)
    requires F.Valid(c, p, stream) && !e.Dispatches? && !e.Retires?
    ensures var q := F.Apply(c, p, stream, e); F.Valid(c, q, stream) && q.rob == p.rob && q.retired == p.retired
  {
    hide F.Valid;
  }

  // Whole runs.

  function Start(c: Setup, m: W.Meaning, input: seq<F.Instr>, physical: nat, slots: nat): Cpu
    requires |m.initial| == R.ARCH_REGS
  {
    Cpu(F.Pipe(input, [], [], [], [], [], []), W.Start(c.core, m, physical, slots))
  }

  lemma StartIsGood(c: Setup, m: W.Meaning, ops: seq<W.Op>, input: seq<F.Instr>, physical: nat, slots: nat)
    requires W.IsProgram(m, ops) && IsStream(ops, input)
    ensures Inv(c, m, ops, Start(c, m, input, physical, slots))
  {
    hide W.Inv;
    W.StartIsGood(c.core, m, ops, physical, slots);
    assert F.Ids(input) == Stream(ops);
    assert F.Increasing(F.Ids(input));
    hide F.Valid;
    F.RunKeepsProgramOrder(c.front, input, []);
  }

  ghost predicate Steps(c: Setup, m: W.Meaning, ops: seq<W.Op>, s: Cpu, e: Event, t: Cpu) {
    Inv(c, m, ops, s) && CanHappen(c, m, ops, s, e) && t == Apply(c, m, ops, s, e)
  }

  /** Each state follows from the one before; the invariant, proved below, only makes the step well defined. */
  ghost predicate IsRun(c: Setup, m: W.Meaning, ops: seq<W.Op>, input: seq<F.Instr>, physical: nat, slots: nat,
                        states: seq<Cpu>, events: seq<Event>) {
    && W.IsProgram(m, ops) && IsStream(ops, input) && |states| == |events| + 1
    && states[0] == Start(c, m, input, physical, slots)
    && forall i :: 0 <= i < |events| && Inv(c, m, ops, states[i]) ==>
        Steps(c, m, ops, states[i], events[i], states[i + 1])
  }

  function Backs(states: seq<Cpu>): (r: seq<W.Machine>)
    ensures |r| == |states|
  {
    seq(|states|, i requires 0 <= i < |states| => states[i].back)
  }

  lemma {:induction false} RunInv(c: Setup, m: W.Meaning, ops: seq<W.Op>, input: seq<F.Instr>, physical: nat,
                                  slots: nat, states: seq<Cpu>, events: seq<Event>, n: nat, i: nat)
    requires IsRun(c, m, ops, input, physical, slots, states, events) && i <= n < |states|
    requires W.RunsTame(m, ops, Backs(states), n)
    ensures Inv(c, m, ops, states[i]) && W.Tame(m, states[i].back.lsq)
    decreases i
  {
    hide W.Inv, F.Valid, CanHappen, Apply, Start, C.Clear, C.Prompt, W.OperandsOnly, W.Tame;
    if i == 0 {
      StartIsGood(c, m, ops, input, physical, slots);
    } else {
      RunInv(c, m, ops, input, physical, slots, states, events, n, i - 1);
      assert Steps(c, m, ops, states[i - 1], events[i - 1], states[i]);
      ApplyKeeps(c, m, ops, states[i - 1], events[i - 1]);
    }
    assert Backs(states)[i] == states[i].back;
    W.InvTame(c.core, m, ops, states[i].back);
  }

  /** In every run of front end and core together, with one reorder buffer and with dispatch held back by what room
    * there is in the load and store queues: the instructions of the input stream are retired, in flight, or still in
    * the front end, in this order; the program the core has been given is the part of the stream that has left the
    * front end; and registers and memory are those of executing it one instruction at a time. */
  lemma {:induction false} RunComputesStream(c: Setup, m: W.Meaning, ops: seq<W.Op>, input: seq<F.Instr>,
                                             physical: nat, slots: nat, states: seq<Cpu>, events: seq<Event>, n: nat)
    requires IsRun(c, m, ops, input, physical, slots, states, events) && n < |states|
    requires W.RunsTame(m, ops, Backs(states), n)
    ensures var s := states[n];
            && F.InOrder(s.front) == F.Ids(input) && |s.front.rob| <= c.front.robSize && |s.back.lsq.sq| <= c.sqSize
            && s.back.core.retired == |s.front.retired| && |s.back.core.rob| == |s.front.rob|
            && |s.back.core.program| == |s.front.retired| + |s.front.rob| <= |ops|
            && (forall k :: 0 <= k < |s.back.core.program| ==> s.back.core.program[k] == ops[k].instr)
            && W.RegistersMatch(m, ops, s.back) && W.MemoryMatches(m, ops, s.back)
  {
    var s := states[n];
    RunInv(c, m, ops, input, physical, slots, states, events, n, n);
    Counts(c, m, ops, s);
    W.InvRegisters(c.core, m, ops, s.back);
    W.InvMemory(c.core, m, ops, s.back);
    assert F.Ids(input) == Stream(ops);
    ProgramIs(c, m, ops, s.back);
    hide W.Inv, W.RegistersMatch, W.MemoryMatches, W.RunsTame, W.Tame;
  }

  lemma ProgramIs(c: Setup, m: W.Meaning, ops: seq<W.Op>, s: W.Machine)
    requires W.Inv(c.core, m, ops, s)
    ensures |s.core.program| <= |ops| && forall k :: 0 <= k < |s.core.program| ==> s.core.program[k] == ops[k].instr
  {
  }

  // The dispatch loop.

  /** What the loop needs: the queues are in order, and the instructions waiting are new to them, in program order. */
  ghost predicate Feasible(ops: seq<W.Op>, p: F.Pipe, q: Q.Lsq) {
    && W.IsTrace(ops) && U.Good(q)
    && (forall i :: 0 <= i < |p.dispatch| ==> OpOf(ops, p.dispatch[i].id).Some?)
    && (forall i, j :: 0 <= i < j < |p.dispatch| ==> p.dispatch[i].id < p.dispatch[j].id)
    && (forall i :: 0 <= i < |p.dispatch| ==> !M.Dispatched(q.program, p.dispatch[i].id))
  }

  function NextMem(ops: seq<W.Op>, p: F.Pipe): Q.MemInstr
    requires p.dispatch != [] && OpOf(ops, p.dispatch[0].id).Some?
  {
    OpOf(ops, p.dispatch[0].id).value.mem
  }

  /** Taking the first waiting instruction keeps what the loop needs. */
  lemma TurnKeeps(ops: seq<W.Op>, p: F.Pipe, q: Q.Lsq)
    requires Feasible(ops, p, q) && p.dispatch != [] && |NextMem(ops, p).loads| <= Q.FreeSlots(q.lq)
    ensures var mem := NextMem(ops, p);
            && mem.id == p.dispatch[0].id && !M.Dispatched(q.program, mem.id)
            && Feasible(ops, F.Dispatched(p, 1), Q.Dispatch(q, mem))
  {
    hide U.Good, Q.FreeSlots, Q.Dispatch, OpOf;
    var mem := NextMem(ops, p);
    assert OpOf(ops, p.dispatch[0].id).value in ops;
    T.ApplyDispatch(q, mem);
    DispatchProgram(q, mem);
    assert F.Dispatched(p, 1).dispatch == p.dispatch[1..];
    hide F.Dispatched;
    forall i | 0 <= i < |F.Dispatched(p, 1).dispatch|
      ensures !M.Dispatched(q.program + [mem], F.Dispatched(p, 1).dispatch[i].id)
    {
      assert p.dispatch[0].id < p.dispatch[i + 1].id;
    }
  }

  lemma DispatchProgram(q: Q.Lsq, p: Q.MemInstr)
    requires |p.loads| <= Q.FreeSlots(q.lq)
    ensures Q.Dispatch(q, p).program == q.program + [p]
  {
    T.DispatchLoadsProgram(Q.PushInstr(q, p), p, |p.loads|);
  }

  /** The loop's condition, but for the bandwidth. */
  predicate Goes(c: Setup, ops: seq<W.Op>, p: F.Pipe, q: Q.Lsq, now: int) {
    && p.dispatch != [] && p.dispatch[0].ready <= now && |p.rob| < c.front.robSize
    && OpOf(ops, p.dispatch[0].id).Some? && Fits(c.sqSize, q, NextMem(ops, p))
  }

  ghost function DispatchAll(c: Setup, ops: seq<W.Op>, p: F.Pipe, q: Q.Lsq, bw: nat, now: int): (r: (F.Pipe, Q.Lsq))
    requires Feasible(ops, p, q)
    ensures Feasible(ops, r.0, r.1)
    decreases bw
  {
    if bw == 0 || !Goes(c, ops, p, q, now) then (p, q)
    else
      TurnKeeps(ops, p, q);
      DispatchAll(c, ops, F.Dispatched(p, 1), Q.Dispatch(q, NextMem(ops, p)), bw - 1, now)
  }

  /** How many of the waiting instructions the queues have room for, one after the other. */
  ghost function Fitting(sqSize: nat, ops: seq<W.Op>, p: F.Pipe, q: Q.Lsq): (n: nat)
    requires Feasible(ops, p, q)
    decreases |p.dispatch|
  {
    if p.dispatch == [] || !Fits(sqSize, q, NextMem(ops, p)) then 0
    else
      TurnKeeps(ops, p, q);
      1 + Fitting(sqSize, ops, F.Dispatched(p, 1), Q.Dispatch(q, NextMem(ops, p)))
  }

  /** The loop is the front end's dispatch stage with the room that the queues really have. */
  lemma {:induction false} DispatchesWhatFits(c: Setup, ops: seq<W.Op>, p: F.Pipe, q: Q.Lsq, bw: nat, now: int)
    requires Feasible(ops, p, q) && |p.rob| <= c.front.robSize
    ensures DispatchAll(c, ops, p, q, bw, now).0 == F.Dispatched(p, F.ReadySpan(p.dispatch,
              F.Min(bw, F.Min(Fitting(c.sqSize, ops, p, q), c.front.robSize - |p.rob|)), now))
    decreases bw
  {
    hide Feasible, Fits, F.ReadySpan, F.Dispatched, Q.Dispatch, Q.FreeSlots, OpOf;
    FittingIs(c, ops, p, q, now);
    var span := F.Min(bw, F.Min(Fitting(c.sqSize, ops, p, q), c.front.robSize - |p.rob|));
    if bw > 0 && Goes(c, ops, p, q, now) {
      DispatchStep(c, ops, p, q, bw, now);
      var next := F.Dispatched(p, 1);
      hide DispatchAll, Fitting;
      DispatchesWhatFits(c, ops, next, Q.Dispatch(q, NextMem(ops, p)), bw - 1, now);
      F.ReadySpanStep(p.dispatch, span, now);
      DispatchedTwice(p, F.ReadySpan(next.dispatch, span - 1, now));
    } else {
      DispatchStop(c, ops, p, q, bw, now);
      hide DispatchAll, Fitting;
      F.ReadySpanStop(p.dispatch, span, now);
      DispatchedNone(p);
    }
  }

  lemma FittingIs(c: Setup, ops: seq<W.Op>, p: F.Pipe, q: Q.Lsq, now: int)
    requires Feasible(ops, p, q) && |p.rob| <= c.front.robSize
    ensures var n := Fitting(c.sqSize, ops, p, q);
            if Goes(c, ops, p, q, now) then
              |NextMem(ops, p).loads| <= Q.FreeSlots(q.lq)
              && Feasible(ops, F.Dispatched(p, 1), Q.Dispatch(q, NextMem(ops, p)))
              && n == 1 + Fitting(c.sqSize, ops, F.Dispatched(p, 1), Q.Dispatch(q, NextMem(ops, p)))
            else n == 0 || p.dispatch == [] || p.dispatch[0].ready > now || |p.rob| == c.front.robSize
  {
    if Goes(c, ops, p, q, now) { TurnKeeps(ops, p, q); }
    hide U.Good, Q.FreeSlots, Q.Dispatch, M.Dispatched;
  }

  lemma DispatchedNone(p: F.Pipe)
    ensures F.Dispatched(p, 0) == p
  {
  }

  lemma DispatchedTwice(p: F.Pipe, k: nat)
    requires p.dispatch != [] && k <= |p.dispatch| - 1
    ensures F.Dispatched(p, 1).dispatch == p.dispatch[1..] && |F.Dispatched(p, 1).rob| == |p.rob| + 1
    ensures F.Dispatched(F.Dispatched(p, 1), k) == F.Dispatched(p, k + 1)
  {
    assert p.rob + p.dispatch[..1] + p.dispatch[1..][..k] == p.rob + p.dispatch[..k + 1];
  }

  class Dispatcher {
    const c: Setup
    const ops: seq<W.Op>
    const front: F.FrontEndPipe
    const queues: U.LoadStoreQueues

    constructor (c: Setup, ops: seq<W.Op>, front: F.FrontEndPipe, queues: U.LoadStoreQueues)
      ensures this.c == c && this.ops == ops && this.front == front && this.queues == queues
    {
      this.c, this.ops, this.front, this.queues := c, ops, front, queues;
    }

    /** std::count_if over the load queue. */
    method CountFree() returns (n: nat)
      ensures n == Q.FreeSlots(queues.lq)
    {
      n := 0;
      for w := 0 to |queues.lq|
        invariant n == Q.FreeSlots(queues.lq[..w])
      {
        assert queues.lq[..w + 1][..w] == queues.lq[..w];
        if queues.lq[w].None? { n := n + 1; }
      }
      assert queues.lq[..|queues.lq|] == queues.lq;
    }

    /** The loop's condition on the next instruction. */
    method HasRoom(now: int) returns (room: bool)
      requires forall i :: 0 <= i < |front.dispatch| ==> OpOf(ops, front.dispatch[i].id).Some?
      ensures room == Goes(c, ops, front.View(), queues.View(), now)
    {
      if front.dispatch == [] || front.dispatch[0].ready > now || |front.rob| >= c.front.robSize { return false; }
      var mem := OpOf(ops, front.dispatch[0].id).value.mem;
      var free := CountFree();
      return free >= |mem.loads| && |mem.stores| + |queues.sq| <= c.sqSize;
    }

    method DispatchInstruction(now: int)
      requires Feasible(ops, front.View(), queues.View())
      modifies front`rob, front`dispatch, queues
      ensures (front.View(), queues.View())
           == DispatchAll(c, ops, old(front.View()), old(queues.View()), c.front.dispatchWidth, now)
    {
      hide DispatchAll, U.Good, Q.Dispatch, Q.FreeSlots, M.Dispatched;
      var bw: nat := c.front.dispatchWidth;
      var room := HasRoom(now);
      while bw > 0 && room
        invariant Feasible(ops, front.View(), queues.View()) && room == Goes(c, ops, front.View(), queues.View(), now)
        invariant front.View() == old(front.View()).(rob := front.rob, dispatch := front.dispatch)
        invariant DispatchAll(c, ops, front.View(), queues.View(), bw, now)
               == DispatchAll(c, ops, old(front.View()), old(queues.View()), c.front.dispatchWidth, now)
        decreases bw
      {
        DispatchStep(c, ops, front.View(), queues.View(), bw, now);
        var mem := OpOf(ops, front.dispatch[0].id).value.mem;
        front.rob := front.rob + [front.dispatch[0]];
        front.dispatch := front.dispatch[1..];
        queues.DoMemoryScheduling(mem);
        bw := bw - 1;
        room := HasRoom(now);
      }
      DispatchStop(c, ops, front.View(), queues.View(), bw, now);
    }
  }

  lemma DispatchStep(c: Setup, ops: seq<W.Op>, p: F.Pipe, q: Q.Lsq, bw: nat, now: int)
    requires Feasible(ops, p, q) && Goes(c, ops, p, q, now) && bw > 0
    ensures var mem := NextMem(ops, p);
            && !M.Dispatched(q.program, mem.id) && |mem.loads| <= Q.FreeSlots(q.lq)
            && F.Dispatched(p, 1) == p.(rob := p.rob + [p.dispatch[0]], dispatch := p.dispatch[1..])
            && Feasible(ops, F.Dispatched(p, 1), Q.Dispatch(q, mem))
            && DispatchAll(c, ops, p, q, bw, now)
               == DispatchAll(c, ops, F.Dispatched(p, 1), Q.Dispatch(q, mem), bw - 1, now)
  {
    hide Feasible;
    TurnKeeps(ops, p, q);
  }

  lemma DispatchStop(c: Setup, ops: seq<W.Op>, p: F.Pipe, q: Q.Lsq, bw: nat, now: int)
    requires Feasible(ops, p, q) && (bw == 0 || !Goes(c, ops, p, q, now))
    ensures DispatchAll(c, ops, p, q, bw, now) == (p, q)
  {
  }

  /** The loop may be entered in every state of a run. */
  lemma InvFeasible(c: Setup, m: W.Meaning, ops: seq<W.Op>, s: Cpu)
    requires Inv(c, m, ops, s)
    ensures Feasible(ops, s.front, s.back.lsq)
  {
    Counts(c, m, ops, s);
    RetiredCount(c, m, ops, s.back);
    QueueProgram(c, m, ops, s.back);
    forall i | 0 <= i < |s.front.dispatch|
      ensures var n := |s.back.core.program|;
              n + i < |ops| && s.front.dispatch[i].id == ops[n + i].instr.id
              && OpOf(ops, s.front.dispatch[i].id) == Some(ops[n + i])
    {
      WaitingAre(c, m, ops, s, i);
    }
    hide Inv, U.Good, OpOf;
    assert W.IsTrace(ops);
  }

  /** A turn of the loop is the dispatch of the coupled machine, seen from the front end and the queues. */
  lemma TurnIsDispatch(c: Setup, m: W.Meaning, ops: seq<W.Op>, s: Cpu)
    requires Inv(c, m, ops, s)
    ensures CanHappen(c, m, ops, s, Dispatch) <==> Goes(c, ops, s.front, s.back.lsq, s.back.core.now)
    ensures CanHappen(c, m, ops, s, Dispatch) ==>
      var t := Apply(c, m, ops, s, Dispatch);
      t.front == F.Dispatched(s.front, 1) && t.back.lsq == Q.Dispatch(s.back.lsq, NextMem(ops, s.front))
  {
    if CanHappen(c, m, ops, s, Dispatch) {
      NextIsNext(c, m, ops, s);
      DispatchAllowed(c, m, ops, s);
      QueueProgram(c, m, ops, s.back);
      RetiredCount(c, m, ops, s.back);
      hide W.Inv, F.Valid, U.Good, W.CoreAfter, W.Enabled, Q.Dispatch, OpOf;
      W.QueueEnabled(c.core, m, ops, s.back, W.Dispatch);
      T.ApplyDispatch(s.back.lsq, NextMem(ops, s.front));
    }
  }

  lemma QueueProgram(c: Setup, m: W.Meaning, ops: seq<W.Op>, s: W.Machine)
    requires W.Inv(c.core, m, ops, s)
    ensures |s.lsq.program| == |s.core.program| <= |ops|
    ensures forall k :: 0 <= k < |s.lsq.program| ==> s.lsq.program[k] == ops[k].mem
  {
  }
}
