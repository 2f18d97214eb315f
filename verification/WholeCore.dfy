/** Registers and memory together: the renaming core and the load and store queues over one reorder buffer compute what
  * the program computes one instruction at a time. */
module WholeCore {
  import opened Options
  import opened RegisterRenaming
  import opened OutOfOrderCore
  import opened Dataflow
  import M = MemoryOrder
  import Q = LoadStoreQueue
  import T = LoadTracking
  import C = ClearPrograms
  import L = LoadTiming
  import U = LoadStoreUnit

  /** An instruction with its register and its memory operands. */
  datatype Op = Op(instr: Instr, mem: Q.MemInstr)

  /** What instructions mean: the value written to each destination and what is left at an address stored to, from
    * register operands and loaded values; and the state in which the trace starts. */
  datatype Meaning = Meaning(effect: (Instr, nat, seq<int>, seq<int>) -> int,
                             stored: (Instr, nat, seq<int>, seq<int>) -> int, initial: seq<int>, memory: nat -> int)

  ghost predicate IsTrace(ops: seq<Op>) {
    && (forall k :: 0 <= k < |ops| ==> ops[k].instr.id == ops[k].mem.id && Legal(ops[k].instr))
    && (forall j, k :: 0 <= j < k < |ops| ==> ops[j].instr.id < ops[k].instr.id)
  }

  ghost predicate IsProgram(m: Meaning, ops: seq<Op>) { |m.initial| == ARCH_REGS && IsTrace(ops) }

  // The reference: one instruction at a time.

  ghost function RegsBefore(m: Meaning, ops: seq<Op>, n: nat): (regs: seq<int>)
    requires IsProgram(m, ops) && n <= |ops|
    ensures |regs| == ARCH_REGS
    decreases n, 0
  {
    if n == 0 then m.initial
    else
      var i, operands, loaded := ops[n - 1].instr, OperandsAt(m, ops, n - 1), LoadedAt(m, ops, n - 1);
      Assign(RegsBefore(m, ops, n - 1), i.dsts, seq(|i.dsts|, (k: nat) => m.effect(i, k, operands, loaded)))
  }

  ghost function OperandsAt(m: Meaning, ops: seq<Op>, n: nat): seq<int>
    requires IsProgram(m, ops) && n < |ops|
    decreases n, 1
  {
    Lookup(RegsBefore(m, ops, n), ops[n].instr.srcs)
  }

  ghost function MemoryBefore(m: Meaning, ops: seq<Op>, n: nat, addr: nat): int
    requires IsProgram(m, ops) && n <= |ops|
    decreases n, 0
  {
    if n == 0 then m.memory(addr)
    else if addr in ops[n - 1].mem.stores
      then m.stored(ops[n - 1].instr, addr, OperandsAt(m, ops, n - 1), LoadedAt(m, ops, n - 1))
    else MemoryBefore(m, ops, n - 1, addr)
  }

  ghost function LoadedAt(m: Meaning, ops: seq<Op>, n: nat): (r: seq<int>)
    requires IsProgram(m, ops) && n < |ops|
    ensures |r| == |ops[n].mem.loads|
    decreases n, 1
  {
    var loads := ops[n].mem.loads;
    seq(|loads|, k requires 0 <= k < |loads| => MemoryBefore(m, ops, n, loads[k]))
  }

  // The machine. Neither half knows the reference: a completing instruction uses the operands it read and the values
  // its loads were given.

  /** `operands` records what each instruction read when it executed. */
  datatype Machine = Machine(core: Core, lsq: Q.Lsq, operands: map<nat, seq<int>>)

  function IndexOf(ops: seq<Op>, id: nat): (k: nat)
    ensures k <= |ops| && (k < |ops| ==> ops[k].instr.id == id)
    ensures forall j :: 0 <= j < k ==> ops[j].instr.id != id
  {
    if ops == [] || ops[0].instr.id == id then 0 else 1 + IndexOf(ops[1..], id)
  }

  /** The first answer to a load among the first n answers. */
  function Found(observed: seq<Q.Observation>, n: nat, id: nat, addr: nat): (r: Option<nat>)
    requires n <= |observed|
    ensures r.Some? ==> r.value < n && observed[r.value].id == id && observed[r.value].addr == addr
    ensures r.None? ==> forall k :: 0 <= k < n ==> observed[k].id != id || observed[k].addr != addr
  {
    if n == 0 then None
    else
      var before := Found(observed, n - 1, id, addr);
      if before.Some? then before
      else if observed[n - 1].id == id && observed[n - 1].addr == addr then Some(n - 1) else None
  }

  /** What the nth answer gave its load: memory as the trace found it, or what the storing instruction had made by then
    * of the operands it read and the values its own loads had been given. */
  function Given(m: Meaning, ops: seq<Op>, operands: map<nat, seq<int>>, observed: seq<Q.Observation>, n: nat): int
    requires n < |observed|
    decreases n, 2
  {
    match observed[n].source
    case None => m.memory(observed[n].addr)
    case Some(id) => StoredBy(m, ops, operands, observed, n, id, observed[n].addr)
  }

  function StoredBy(m: Meaning, ops: seq<Op>, operands: map<nat, seq<int>>, observed: seq<Q.Observation>, n: nat,
                    id: nat, addr: nat): int
    requires n <= |observed|
    decreases n, 1
  {
    var i := IndexOf(ops, id);
    if i < |ops| && id in operands
      then m.stored(ops[i].instr, addr, operands[id], Arrived(m, ops, operands, observed, n, ops[i].mem)) else 0
  }

  /** The loaded values of an instruction after n answers, 0 for loads not answered yet. */
  function Arrived(m: Meaning, ops: seq<Op>, operands: map<nat, seq<int>>, observed: seq<Q.Observation>, n: nat,
                   mem: Q.MemInstr): (r: seq<int>)
    requires n <= |observed|
    ensures |r| == |mem.loads|
    decreases n, 0
  {
    seq(|mem.loads|, k requires 0 <= k < |mem.loads| =>
      match Found(observed, n, mem.id, mem.loads[k])
      case Some(i) => Given(m, ops, operands, observed, i)
      case None => 0)
  }

  function Got(m: Meaning, ops: seq<Op>, s: Machine, mem: Q.MemInstr): (r: seq<int>)
    ensures |r| == |mem.loads|
  {
    Arrived(m, ops, s.operands, s.lsq.observed, |s.lsq.observed|, mem)
  }

  /** What the cache holds: what the last store handed to it has left. */
  function Cached(m: Meaning, ops: seq<Op>, s: Machine, addr: nat): int {
    match Q.LastWriter(s.lsq.written, addr)
    case None => m.memory(addr)
    case Some(id) => StoredBy(m, ops, s.operands, s.lsq.observed, |s.lsq.observed|, id, addr)
  }

  /** The configuration of the register half when the loads of the completing instruction have given these values. */
  function With(g: Config, m: Meaning, loaded: seq<int>): Config {
    g.(initial := m.initial, effect := (i: Instr, k: nat, operands: seq<int>) => m.effect(i, k, operands, loaded))
  }

  /** The first entry not yet scheduled. */
  function Unscheduled(rob: seq<Entry>): (n: nat)
    ensures n <= |rob| && (n < |rob| ==> !rob[n].scheduled) && forall k :: 0 <= k < n ==> rob[k].scheduled
  {
    if rob == [] || !rob[0].scheduled then 0
    else
      var n := Unscheduled(rob[1..]);
      assert forall k :: 0 < k < n + 1 ==> rob[k] == rob[1..][k - 1];
      n + 1
  }

  /** The turns of the loops of both halves, in any order. */
  datatype Event =
    | Clock(now: int) | Retire | Complete(i: nat) | Execute(i: nat) | Schedule | Dispatch | Memory(e: U.Event)

  ghost predicate Enabled(g: Config, m: Meaning, ops: seq<Op>, s: Machine, e: Event) {
    var c, h := s.core, With(g, m, []);
    && Shaped(h, c)
    && match e
       case Clock(now) => c.now <= now
       case Retire => c.rob != [] && c.rob[0].completed
       case Complete(i) =>
         && i < |c.rob| && i < |s.lsq.rob| && c.rob[i].executed && !c.rob[i].completed && c.rob[i].ready <= c.now
         && s.lsq.rob[i].done == s.lsq.rob[i].ops
       case Execute(i) => i < |c.rob| && CanExecute(h, c, i)
       case Schedule =>
         var n := Unscheduled(c.rob);
         n < |c.rob| && c.rob[n].ready <= c.now && Affordable(h, c, n)
       case Dispatch => |c.program| < |ops| && |ops[|c.program|].mem.loads| <= Q.FreeSlots(s.lsq.lq)
       case Memory(x) => x.Responses? || x.StoreTurn? || x.LoadTurn?
  }

  ghost function CoreAfter(g: Config, m: Meaning, ops: seq<Op>, s: Machine, e: Event): Core
    requires Inv(g, m, ops, s) && Enabled(g, m, ops, s, e)
  {
    var c, h := s.core, With(g, m, []);
    match e
    case Clock(now) => Tick(h, c, now)
    case Retire => RetireHead(h, c)
    case Complete(i) => CompleteEntry(With(g, m, Got(m, ops, s, ops[c.retired + i].mem)), c, i)
    case Execute(i) => ExecuteEntry(h, c, i)
    case Schedule => ScheduleTurn(h, c, Unscheduled(c.rob))
    case Dispatch => DispatchOne(h, c, ops[|c.program|].instr)
    case Memory(_) => c
  }

  /** What the event is to the load and store queues; scheduling does not concern them. */
  function QueueEvent(g: Config, ops: seq<Op>, s: Machine, e: Event): U.Event
    requires |s.core.program| < |ops| || !e.Dispatch?
  {
    match e
    case Clock(now) => U.Clock(now)
    case Retire => U.Retires
    case Complete(i) => U.Completes(i)
    case Execute(i) => U.Executes(i, g.execLatency)
    case Schedule => U.Clock(s.lsq.now)
    case Dispatch => U.Dispatches(ops[|s.core.program|].mem)
    case Memory(x) => x
  }

  ghost function Apply(g: Config, m: Meaning, ops: seq<Op>, s: Machine, e: Event): Machine
    requires Inv(g, m, ops, s) && Enabled(g, m, ops, s, e)
  {
    QueueEnabled(g, m, ops, s, e);
    var c := s.core;
    Machine(CoreAfter(g, m, ops, s, e), U.Apply(s.lsq, QueueEvent(g, ops, s, e)),
            if e.Execute? then s.operands[c.rob[e.i].id := Read(c.values, c.rob[e.i].srcs)] else s.operands)
  }

  // The invariant.

  /** The register half of the reference: memory is as program order has it. */
  ghost function Reference(g: Config, m: Meaning, ops: seq<Op>): Config
    requires IsProgram(m, ops)
  {
    g.(initial := m.initial, effect := (i: Instr, k: nat, operands: seq<int>) =>
      if IndexOf(ops, i.id) < |ops| then m.effect(i, k, operands, LoadedAt(m, ops, IndexOf(ops, i.id))) else 0)
  }

  /** Both halves have the same program and the same reorder buffer. */
  ghost predicate Coupled(ops: seq<Op>, s: Machine) {
    var c, q := s.core, s.lsq;
    && |c.program| == |q.program| <= |ops| && |c.rob| == |q.rob|
    && (forall k :: 0 <= k < |c.program| ==> c.program[k] == ops[k].instr && q.program[k] == ops[k].mem)
    && (forall i :: 0 <= i < |c.rob| ==>
          c.rob[i].executed == q.rob[i].executed && c.rob[i].completed == q.rob[i].completed)
  }

  /** The operands recorded are those of program order. */
  ghost predicate Reads(m: Meaning, ops: seq<Op>, operands: map<nat, seq<int>>)
    requires IsProgram(m, ops)
  {
    forall id :: id in operands ==> var k := IndexOf(ops, id); k < |ops| && operands[id] == OperandsAt(m, ops, k)
  }

  /** When each instruction in the reorder buffer is due, from when it executed; before that it has no time. */
  function Dues(rob: seq<Entry>): (due: seq<Q.Time>)
    ensures |due| == |rob|
  {
    seq(|rob|, i requires 0 <= i < |rob| => if rob[i].executed then Q.At(rob[i].ready) else Q.Never)
  }

  /** Both halves have the same time, and the memory operations of an instruction are due when the instruction is. */
  ghost predicate Timed(s: Machine) { s.lsq.now == s.core.now && L.TimedBy(s.lsq, Dues(s.core.rob)) }

  ghost predicate Inv(g: Config, m: Meaning, ops: seq<Op>, s: Machine) {
    && IsProgram(m, ops)
    && InvAt(Reference(g, m, ops), s.core, Unscheduled(s.core.rob))
    && U.Good(s.lsq) && Coupled(ops, s) && Reads(m, ops, s.operands)
    && T.Sourced(s.lsq, s.operands.Keys) && T.Tracked(s.lsq) && C.Genuine(s.lsq)
    && Timed(s)
  }

  lemma {:induction false} QueueEnabled(g: Config, m: Meaning, ops: seq<Op>, s: Machine, e: Event)
    requires Inv(g, m, ops, s) && Enabled(g, m, ops, s, e)
    ensures U.Enabled(s.lsq, QueueEvent(g, ops, s, e))
  {
  }

  // The reference agrees with the one of the register half.

  lemma {:induction false} IndexIs(m: Meaning, ops: seq<Op>, k: nat)
    requires IsProgram(m, ops) && k < |ops|
    ensures IndexOf(ops, ops[k].instr.id) == k
  {
    assert forall j :: 0 <= j < k ==> ops[j].instr.id < ops[k].instr.id;
  }

  lemma {:induction false} SameReference(g: Config, m: Meaning, ops: seq<Op>, program: seq<Instr>, n: nat)
    requires IsProgram(m, ops) && n <= |program| <= |ops|
    requires forall k :: 0 <= k < |program| ==> program[k] == ops[k].instr
    ensures forall k :: 0 <= k < |program| ==> Legal(program[k])
    ensures Sequential(Reference(g, m, ops), program, n) == RegsBefore(m, ops, n)
  {
    if n > 0 {
      SameReference(g, m, ops, program, n - 1);
      var i, operands := ops[n - 1].instr, OperandsAt(m, ops, n - 1);
      IndexIs(m, ops, n - 1);
      var loaded := LoadedAt(m, ops, n - 1);
      assert Results(Reference(g, m, ops), i, operands)
          == seq(|i.dsts|, (k: nat) => m.effect(i, k, operands, loaded));
    }
  }

  // A load's source is where program order finds its value.

  lemma {:induction false} LastWriterSplit(a: seq<Q.Store>, b: seq<Q.Store>, addr: nat, id: nat)
    requires forall k :: 0 <= k < |b| ==> b[k].id == id
    ensures Q.LastWriter(a + b, addr)
         == if exists k :: 0 <= k < |b| && b[k].addr == addr then Some(id) else Q.LastWriter(a, addr)
  {
    if b == [] {
      assert a + b == a;
    } else {
      LastWriterSplit(a, b[..|b| - 1], addr, id);
      assert (a + b)[..|a + b| - 1] == a + b[..|b| - 1];
    }
  }

  ghost function Mems(ops: seq<Op>, n: nat): (r: seq<Q.MemInstr>)
    requires n <= |ops|
    ensures |r| == n
  {
    seq(n, k requires 0 <= k < n => ops[k].mem)
  }

  /** Where memory before instruction n comes from. */
  ghost predicate SourceIs(m: Meaning, ops: seq<Op>, n: nat, addr: nat, source: Option<nat>)
    requires IsProgram(m, ops) && n <= |ops|
  {
    match source
    case None => MemoryBefore(m, ops, n, addr) == m.memory(addr)
    case Some(id) =>
      var j := IndexOf(ops, id);
      j < n && MemoryBefore(m, ops, n, addr) == m.stored(ops[j].instr, addr, OperandsAt(m, ops, j), LoadedAt(m, ops, j))
  }

  lemma {:induction false} StoresBelow(m: Meaning, ops: seq<Op>, n: nat)
    requires IsProgram(m, ops) && n <= |ops|
    ensures forall k :: 0 <= k < |Q.StoresOf(Mems(ops, n))| ==>
      n > 0 && Q.StoresOf(Mems(ops, n))[k].id <= ops[n - 1].mem.id
  {
    if n == 0 {
      assert Mems(ops, 0) == [];
    } else {
      StoresBelow(m, ops, n - 1);
      assert Mems(ops, n)[..n - 1] == Mems(ops, n - 1);
      var before, last := Q.StoresOf(Mems(ops, n - 1)), Q.StoresIn(ops[n - 1].mem);
      var all := before + last;
      assert Q.StoresOf(Mems(ops, n)) == all;
      forall k | 0 <= k < |all| ensures all[k].id <= ops[n - 1].mem.id {
        if k < |before| {
          assert before[k].id <= ops[n - 2].mem.id && ops[n - 2].instr.id < ops[n - 1].instr.id;
        } else {
          assert all[k] == last[k - |before|];
        }
      }
    }
  }

  lemma {:induction false} MemoryStep(m: Meaning, ops: seq<Op>, n: nat, addr: nat)
    requires IsProgram(m, ops) && 0 < n <= |ops|
    ensures MemoryBefore(m, ops, n, addr) == if addr in ops[n - 1].mem.stores
      then m.stored(ops[n - 1].instr, addr, OperandsAt(m, ops, n - 1), LoadedAt(m, ops, n - 1))
      else MemoryBefore(m, ops, n - 1, addr)
  {
    hide OperandsAt, LoadedAt;
  }

  lemma {:induction false} LastWriterIsSource(m: Meaning, ops: seq<Op>, n: nat, addr: nat)
    requires IsProgram(m, ops) && n <= |ops|
    ensures SourceIs(m, ops, n, addr, Q.LastWriter(Q.StoresOf(Mems(ops, n)), addr))
  {
    hide OperandsAt, LoadedAt, RegsBefore;
    if n > 0 {
      LastWriterIsSource(m, ops, n - 1, addr);
      assert Mems(ops, n)[..n - 1] == Mems(ops, n - 1);
      var p := ops[n - 1].mem;
      LastWriterSplit(Q.StoresOf(Mems(ops, n - 1)), Q.StoresIn(p), addr, p.id);
      IndexIs(m, ops, n - 1);
      hide Q.LastWriter, Legal, MemoryBefore, Mems;
      assert MemoryBefore(m, ops, n, addr) == if addr in p.stores
        then m.stored(ops[n - 1].instr, addr, OperandsAt(m, ops, n - 1), LoadedAt(m, ops, n - 1))
        else MemoryBefore(m, ops, n - 1, addr) by { MemoryStep(m, ops, n, addr); }
      if addr in p.stores {
        var k :| 0 <= k < |p.stores| && p.stores[k] == addr;
        assert Q.StoresIn(p)[k].addr == addr;
      }
    }
  }

  /** Stores dispatched later do not matter. */
  lemma {:induction false} LastBeforeIsSource(m: Meaning, ops: seq<Op>, d: nat, n: nat, addr: nat)
    requires IsProgram(m, ops) && n <= d <= |ops| && n < |ops|
    ensures SourceIs(m, ops, n, addr, Q.LastBefore(Q.StoresOf(Mems(ops, d)), addr, ops[n].mem.id))
    decreases d
  {
    hide SourceIs, OperandsAt, LoadedAt, RegsBefore;
    if d == n {
      LastWriterIsSource(m, ops, n, addr);
      StoresBelow(m, ops, n);
      Q.LastBeforeAll(Q.StoresOf(Mems(ops, n)), addr, ops[n].mem.id);
    } else {
      LastBeforeIsSource(m, ops, d - 1, n, addr);
      assert Mems(ops, d)[..d - 1] == Mems(ops, d - 1);
      Q.LastBeforeSkips(Q.StoresOf(Mems(ops, d - 1)), Q.StoresIn(ops[d - 1].mem), addr, ops[n].mem.id);
    }
  }

  // What loads are given.

  /** What is stored does not depend on the loads of the same instruction. */
  ghost predicate OperandsOnly(m: Meaning) {
    forall i, addr, operands, loaded :: m.stored(i, addr, operands, loaded) == m.stored(i, addr, operands, [])
  }

  /** No load has been given a value that could not be known yet. */
  ghost predicate Tame(m: Meaning, q: Q.Lsq) { OperandsOnly(m) || C.Prompt(q) }

  /** Queues that run the program, with the operands that its instructions read. */
  ghost predicate Runs(m: Meaning, ops: seq<Op>, operands: map<nat, seq<int>>, q: Q.Lsq) {
    && IsProgram(m, ops) && C.Sound(q) && q.program <= Mems(ops, |ops|)
    && Reads(m, ops, operands) && T.Sourced(q, operands.Keys)
  }

  lemma {:induction false} ObservedSource(q: Q.Lsq, n: nat, known: set<nat>)
    requires U.Good(q) && n < |q.observed| && T.Sourced(q, known)
    ensures var o := q.observed[n];
            && o.source == Q.LastBefore(Q.StoresOf(q.program), o.addr, o.id)
            && (o.source.Some? ==> o.source.value in known)
  {
  }

  /** Where the value of an answer comes from. */
  lemma {:induction false} AnswerSource(m: Meaning, ops: seq<Op>, operands: map<nat, seq<int>>, q: Q.Lsq, n: nat,
                                        k: nat)
    requires Runs(m, ops, operands, q) && n < |q.observed| && k < |q.program| && q.observed[n].id == ops[k].mem.id
    ensures SourceIs(m, ops, k, q.observed[n].addr, q.observed[n].source)
    ensures q.observed[n].source.Some? ==> q.observed[n].source.value in operands
  {
    assert Mems(ops, |q.program|) == q.program;
    LastBeforeIsSource(m, ops, |q.program|, k, q.observed[n].addr);
    ObservedSource(q, n, operands.Keys);
    hide SourceIs, C.Sound, T.Sourced, Reads, MemoryBefore;
  }

  /** What a load has been given is what memory holds before its instruction in program order. */
  lemma {:induction false} GivenIsMemory(m: Meaning, ops: seq<Op>, operands: map<nat, seq<int>>, q: Q.Lsq, n: nat,
                                         k: nat)
    requires Runs(m, ops, operands, q) && Tame(m, q)
    requires n < |q.observed| && k < |q.program| && q.observed[n].id == ops[k].mem.id
    ensures Given(m, ops, operands, q.observed, n) == MemoryBefore(m, ops, k, q.observed[n].addr)
    decreases n, 2
  {
    var o := q.observed[n];
    hide C.Sound, T.Sourced, MemoryBefore, OperandsAt, Arrived, OperandsOnly;
    AnswerSource(m, ops, operands, q, n, k);
    if o.source.Some? {
      var i := IndexOf(ops, o.source.value);
      StoredIsLeft(m, ops, operands, q, n, i, o.addr);
    }
  }

  /** What an instruction had made by then of what it stores. */
  lemma {:induction false} StoredIsLeft(m: Meaning, ops: seq<Op>, operands: map<nat, seq<int>>, q: Q.Lsq, n: nat,
                                        i: nat, addr: nat)
    requires Runs(m, ops, operands, q) && Tame(m, q) && n < |q.observed| && i < |q.program| && i < |ops|
    requires q.observed[n].source == Some(ops[i].instr.id) && ops[i].instr.id in operands
    ensures StoredBy(m, ops, operands, q.observed, n, ops[i].instr.id, addr)
         == m.stored(ops[i].instr, addr, OperandsAt(m, ops, i), LoadedAt(m, ops, i))
    decreases n, 1
  {
    hide C.Sound, T.Sourced, MemoryBefore, OperandsAt, Arrived;
    IndexIs(m, ops, i);
    if !OperandsOnly(m) {
      assert q.program[i] == Mems(ops, |ops|)[i];
      hide C.SeenBefore;
      ArrivedIsLoaded(m, ops, operands, q, n, i);
    }
  }

  lemma {:induction false} ArrivedIsLoaded(m: Meaning, ops: seq<Op>, operands: map<nat, seq<int>>, q: Q.Lsq, n: nat,
                                           i: nat)
    requires Runs(m, ops, operands, q) && Tame(m, q) && n <= |q.observed| && i < |q.program| <= |ops|
    requires forall j :: 0 <= j < |ops[i].mem.loads| ==>
      C.SeenBefore(q.observed, n, ops[i].mem.id, ops[i].mem.loads[j])
    ensures Arrived(m, ops, operands, q.observed, n, ops[i].mem) == LoadedAt(m, ops, i)
    decreases n, 0
  {
    var mem := ops[i].mem;
    hide C.Sound, T.Sourced, Reads, Tame, MemoryBefore, Given;
    forall j | 0 <= j < |mem.loads|
      ensures Arrived(m, ops, operands, q.observed, n, mem)[j] == LoadedAt(m, ops, i)[j]
    {
      assert C.SeenBefore(q.observed, n, mem.id, mem.loads[j]);
      var f := Found(q.observed, n, mem.id, mem.loads[j]);
      GivenIsMemory(m, ops, operands, q, f.value, i);
    }
  }

  lemma {:induction false} InvRuns(g: Config, m: Meaning, ops: seq<Op>, s: Machine)
    requires Inv(g, m, ops, s)
    ensures Runs(m, ops, s.operands, s.lsq)
  {
    hide InvAt, U.Good, Reads, T.Sourced, T.Tracked, C.Genuine, Timed;
  }

  /** An instruction whose operations have all finished has been given its program-order loads. */
  lemma {:induction false} GotIsLoaded(g: Config, m: Meaning, ops: seq<Op>, s: Machine, i: nat)
    requires Inv(g, m, ops, s) && Tame(m, s.lsq) && i < |s.core.rob| && s.lsq.rob[i].done == s.lsq.rob[i].ops
    requires s.core.retired + i < |ops|
    ensures Got(m, ops, s, ops[s.core.retired + i].mem) == LoadedAt(m, ops, s.core.retired + i)
  {
    var k := s.core.retired + i;
    CoupledAt(g, m, ops, s, i);
    InvRuns(g, m, ops, s);
    var mem := ops[k].mem;
    forall j | 0 <= j < |mem.loads|
      ensures C.SeenBefore(s.lsq.observed, |s.lsq.observed|, mem.id, mem.loads[j])
    {
      T.FinishedLoadsSeen(s.lsq, i, k, j);
    }
    hide InvAt, U.Good, T.Sourced, T.Tracked, C.Genuine, Timed, Reads, Tame, C.SeenBefore;
    ArrivedIsLoaded(m, ops, s.operands, s.lsq, |s.lsq.observed|, k);
  }

  lemma {:induction false} CoupledAt(g: Config, m: Meaning, ops: seq<Op>, s: Machine, i: nat)
    requires Inv(g, m, ops, s) && i < |s.core.rob|
    ensures var k := s.core.retired + i;
            k < |s.core.program| == |s.lsq.program| <= |ops| && i < |s.lsq.rob|
            && s.core.program[k] == ops[k].instr && s.lsq.program[k] == ops[k].mem
            && s.lsq.rob[i].id == s.core.rob[i].id == ops[k].mem.id == ops[k].instr.id
  {
    hide T.Sourced, T.Tracked, C.Genuine, Timed, Reads;
  }

  // Every event keeps the invariant.

  /** The configurations differ in the meaning of instructions only, which most stages do not use. */
  ghost predicate Alike(g: Config, h: Config) { h == g.(effect := h.effect) }

  lemma {:induction false} SameRenaming(g: Config, h: Config, c: Core, srcs: seq<nat>)
    requires Alike(g, h) && Shaped(g, c) && Shaped(h, c) && forall j :: 0 <= j < |srcs| ==> srcs[j] < ARCH_REGS
    requires Unmapped(c.regs, srcs) <= |c.regs.free|
    ensures RenameSources(g, c, srcs) == RenameSources(h, c, srcs)
  {
    if srcs != [] { SameRenaming(g, h, c, srcs[..|srcs| - 1]); }
  }

  lemma {:induction false} SameTurn(g: Config, h: Config, c: Core, i: nat)
    requires Alike(g, h) && Affordable(g, c, i) && Shaped(h, c)
    ensures Affordable(h, c, i) && ScheduleTurn(g, c, i) == ScheduleTurn(h, c, i)
  {
    hide Attach, RenameSources;
    var srcs := c.program[c.retired + i].srcs;
    SameRenaming(g, h, c, srcs);
    if c.rob[i].ready <= c.now {
      SourcesMapped(g, c, i);
      SameAttach(g, h, RenameSources(g, c, srcs), i);
    }
  }

  /** What ScheduleEntry relies on when it attaches the new names. */
  lemma {:induction false} SourcesMapped(g: Config, c: Core, i: nat)
    requires Affordable(g, c, i)
    ensures var p, b := c.program[c.retired + i], RenameSources(g, c, c.program[c.retired + i].srcs);
            && !b.rob[i].scheduled && |p.dsts| <= |b.regs.free|
            && forall j :: 0 <= j < |p.srcs| ==> b.regs.frontend[p.srcs[j]] >= 0
  {
    hide RenameSources, Attach;
    assert ScheduleEntry(g, c, i) == ScheduleEntry(g, c, i);
  }

  lemma {:induction false} SameAttach(g: Config, h: Config, b: Core, i: nat)
    requires Shaped(g, b) && Shaped(h, b) && i < |b.rob| && !b.rob[i].scheduled
    requires var p := b.program[b.retired + i];
             |p.dsts| <= |b.regs.free| && forall j :: 0 <= j < |p.srcs| ==> b.regs.frontend[p.srcs[j]] >= 0
    ensures Attach(g, b, i) == Attach(h, b, i)
  {
  }

  lemma {:induction false} SameCompletion(g: Config, m: Meaning, ops: seq<Op>, c: Core, i: nat)
    requires IsProgram(m, ops) && Shaped(Reference(g, m, ops), c) && i < |c.rob| && c.rob[i].executed
    requires c.retired + i < |ops| && c.program[c.retired + i] == ops[c.retired + i].instr
    ensures var h := With(g, m, LoadedAt(m, ops, c.retired + i));
            Shaped(h, c) && CompleteEntry(h, c, i) == CompleteEntry(Reference(g, m, ops), c, i)
  {
    var k := c.retired + i;
    var h := With(g, m, LoadedAt(m, ops, k));
    IndexIs(m, ops, k);
    assert Results(h, c.program[k], c.rob[i].operands)
      == Results(Reference(g, m, ops), c.program[k], c.rob[i].operands);
  }

  lemma {:induction false} UnscheduledIs(rob: seq<Entry>, n: nat)
    requires n <= |rob| && forall i :: 0 <= i < |rob| ==> (rob[i].scheduled <==> i < n)
    ensures Unscheduled(rob) == n
  {
    if n > 0 { UnscheduledIs(rob[1..], n - 1); }
  }

  lemma {:induction false} InvAtUnscheduled(g: Config, c: Core, n: nat)
    requires InvAt(g, c, n)
    ensures InvAt(g, c, Unscheduled(c.rob))
  {
    hide Shaped, Partitioned, TableBefore, CommittedOk, DestinationOk, SourcesOk;
    UnscheduledIs(c.rob, n);
  }

  /** The register half goes on as if memory were as program order has it. */
  lemma {:induction false} CoreKeeps(g: Config, m: Meaning, ops: seq<Op>, s: Machine, e: Event)
    requires Inv(g, m, ops, s) && Enabled(g, m, ops, s, e) && (e.Complete? ==> Tame(m, s.lsq))
    ensures var d := CoreAfter(g, m, ops, s, e); InvAt(Reference(g, m, ops), d, Unscheduled(d.rob))
  {
    var c, r := s.core, Reference(g, m, ops);
    var n := Unscheduled(c.rob);
    match e
    case Clock(now) => ClockKeeps(g, m, ops, c, n, now);
    case Retire =>
      hide Coupled, U.Good, Reads;
      CoreRetires(g, m, ops, c, n);
    case Complete(i) => CoreCompletes(g, m, ops, s, i);
    case Execute(i) =>
      hide Coupled, U.Good, Reads;
      CoreExecutes(g, m, ops, c, n, i);
    case Schedule =>
      hide Coupled, U.Good, Reads;
      CoreSchedules(g, m, ops, c, n);
    case Dispatch =>
      hide Coupled, U.Good, Reads;
      CoreDispatches(g, m, ops, c, n, ops[|c.program|].instr);
    case Memory(_) =>
  }

  lemma {:induction false} InvAtShaped(g: Config, m: Meaning, ops: seq<Op>, c: Core, n: nat)
    requires IsProgram(m, ops) && InvAt(Reference(g, m, ops), c, n)
    ensures Shaped(With(g, m, []), c) && Shaped(Reference(g, m, ops), c)
  {
    hide Partitioned, CommittedOk, DestinationOk, SourcesOk, LoadedAt;
  }

  lemma {:induction false} ClockKeeps(g: Config, m: Meaning, ops: seq<Op>, c: Core, n: nat, now: int)
    requires IsProgram(m, ops) && InvAt(Reference(g, m, ops), c, n) && c.now <= now
    ensures Shaped(With(g, m, []), c)
    ensures var d := Tick(With(g, m, []), c, now); InvAt(Reference(g, m, ops), d, Unscheduled(d.rob))
  {
    InvAtShaped(g, m, ops, c, n);
    hide InvAt, Shaped, Reference;
    TickKeeps(Reference(g, m, ops), c, n, now);
    InvAtUnscheduled(Reference(g, m, ops), Tick(Reference(g, m, ops), c, now), n);
  }

  lemma {:induction false} CoreRetires(g: Config, m: Meaning, ops: seq<Op>, c: Core, n: nat)
    requires IsProgram(m, ops) && InvAt(Reference(g, m, ops), c, n) && c.rob != [] && c.rob[0].completed
    ensures Shaped(With(g, m, []), c)
    ensures var d := RetireHead(With(g, m, []), c); InvAt(Reference(g, m, ops), d, Unscheduled(d.rob))
  {
    InvAtShaped(g, m, ops, c, n);
    hide InvAt, Shaped, Reference;
    RetireKeeps(Reference(g, m, ops), c, n);
    InvAtUnscheduled(Reference(g, m, ops), RetireHead(Reference(g, m, ops), c), n - 1);
  }

  lemma {:induction false} SameExecution(g: Config, h: Config, c: Core, i: nat)
    requires Alike(g, h) && Shaped(g, c) && Shaped(h, c) && i < |c.rob| && CanExecute(g, c, i)
    ensures CanExecute(h, c, i) && ExecuteEntry(g, c, i) == ExecuteEntry(h, c, i)
  {
  }

  lemma {:induction false} WithIsAlike(g: Config, m: Meaning, ops: seq<Op>)
    requires IsProgram(m, ops)
    ensures Alike(With(g, m, []), Reference(g, m, ops))
  {
    hide LoadedAt;
  }

  lemma {:induction false} CoreExecutes(g: Config, m: Meaning, ops: seq<Op>, c: Core, n: nat, i: nat)
    requires IsProgram(m, ops) && InvAt(Reference(g, m, ops), c, n) && i < |c.rob|
    requires Shaped(With(g, m, []), c) && CanExecute(With(g, m, []), c, i)
    ensures var d := ExecuteEntry(With(g, m, []), c, i); InvAt(Reference(g, m, ops), d, Unscheduled(d.rob))
  {
    InvAtShaped(g, m, ops, c, n);
    WithIsAlike(g, m, ops);
    hide InvAt, Shaped, Reference, CanExecute, ExecuteEntry;
    SameExecution(With(g, m, []), Reference(g, m, ops), c, i);
    ExecuteKeeps(Reference(g, m, ops), c, n, i);
    InvAtUnscheduled(Reference(g, m, ops), ExecuteEntry(Reference(g, m, ops), c, i), n);
  }

  lemma {:induction false} CoreSchedules(g: Config, m: Meaning, ops: seq<Op>, c: Core, n: nat)
    requires IsProgram(m, ops) && InvAt(Reference(g, m, ops), c, n) && n < |c.rob| && c.rob[n].ready <= c.now
    requires Affordable(With(g, m, []), c, n)
    ensures var d := ScheduleTurn(With(g, m, []), c, n); InvAt(Reference(g, m, ops), d, Unscheduled(d.rob))
  {
    InvAtShaped(g, m, ops, c, n);
    WithIsAlike(g, m, ops);
    hide InvAt, Shaped, Reference, Affordable, ScheduleTurn;
    SameTurn(With(g, m, []), Reference(g, m, ops), c, n);
    TurnKeeps(Reference(g, m, ops), c, n);
    InvAtUnscheduled(Reference(g, m, ops), ScheduleTurn(Reference(g, m, ops), c, n), n + 1);
  }

  lemma {:induction false} SameDispatch(g: Config, h: Config, c: Core, p: Instr)
    requires Alike(g, h) && Shaped(g, c) && Shaped(h, c) && Legal(p)
    ensures DispatchOne(g, c, p) == DispatchOne(h, c, p)
  {
  }

  lemma {:induction false} CoreDispatches(g: Config, m: Meaning, ops: seq<Op>, c: Core, n: nat, p: Instr)
    requires IsProgram(m, ops) && InvAt(Reference(g, m, ops), c, n) && Legal(p)
    ensures Shaped(With(g, m, []), c)
    ensures var d := DispatchOne(With(g, m, []), c, p); InvAt(Reference(g, m, ops), d, Unscheduled(d.rob))
  {
    InvAtShaped(g, m, ops, c, n);
    WithIsAlike(g, m, ops);
    hide InvAt, Shaped, Reference, DispatchOne;
    SameDispatch(With(g, m, []), Reference(g, m, ops), c, p);
    DispatchKeeps(Reference(g, m, ops), c, n, p);
    InvAtUnscheduled(Reference(g, m, ops), DispatchOne(Reference(g, m, ops), c, p), n);
  }

  lemma {:induction false} CoreCompletes(g: Config, m: Meaning, ops: seq<Op>, s: Machine, i: nat)
    requires Inv(g, m, ops, s) && Enabled(g, m, ops, s, Complete(i)) && Tame(m, s.lsq)
    ensures var d := CoreAfter(g, m, ops, s, Complete(i)); InvAt(Reference(g, m, ops), d, Unscheduled(d.rob))
  {
    hide InvAt, Shaped, Reference, CompleteEntry, Coupled, U.Good, Reads, T.Sourced, T.Tracked, C.Genuine, Timed, Got,
      LoadedAt;
    var c, r := s.core, Reference(g, m, ops);
    CoupledAt(g, m, ops, s, i);
    GotIsLoaded(g, m, ops, s, i);
    InvAtShaped(g, m, ops, c, Unscheduled(c.rob));
    SameCompletion(g, m, ops, c, i);
    CompleteKeeps(r, c, Unscheduled(c.rob), i);
    InvAtUnscheduled(r, CompleteEntry(r, c, i), Unscheduled(c.rob));
  }

  /** What an event does to the reorder buffer and the program of the register half. */
  lemma {:induction false} CoreShape(g: Config, m: Meaning, ops: seq<Op>, s: Machine, e: Event)
    requires Inv(g, m, ops, s) && Enabled(g, m, ops, s, e)
    ensures var c, d := s.core, CoreAfter(g, m, ops, s, e);
            && d.program == (if e.Dispatch? then c.program + [ops[|c.program|].instr] else c.program)
            && |d.rob| == |c.rob| + (if e.Dispatch? then 1 else if e.Retire? then -1 else 0)
            && forall i :: 0 <= i < |d.rob| ==>
                 var j := if e.Retire? then i + 1 else i;
                 && (d.rob[i].executed <==> j < |c.rob| && (c.rob[j].executed || e == Execute(j)))
                 && (d.rob[i].completed <==> j < |c.rob| && (c.rob[j].completed || e == Complete(j)))
  {
    hide InvAt, U.Good, Reads, T.Sourced, T.Tracked, C.Genuine, Timed, Got;
    if e.Schedule? { ScheduleShape(With(g, m, []), s.core, Unscheduled(s.core.rob)); }
  }

  lemma {:induction false} ScheduleShape(g: Config, c: Core, n: nat)
    requires Affordable(g, c, n)
    ensures var d := ScheduleTurn(g, c, n);
            && d.program == c.program && |d.rob| == |c.rob|
            && forall i :: 0 <= i < |c.rob| ==>
                  d.rob[i].executed == c.rob[i].executed && d.rob[i].completed == c.rob[i].completed
  {
    hide RenameSources;
  }

  /** The same for the load and store queues. */
  ghost predicate QueueGoes(ops: seq<Op>, q: Q.Lsq, t: Q.Lsq, e: Event) {
    && (e.Dispatch? ==> |q.program| < |ops|)
    && t.program == (if e.Dispatch? then q.program + [ops[|q.program|].mem] else q.program)
    && |t.rob| == |q.rob| + (if e.Dispatch? then 1 else if e.Retire? then -1 else 0)
    && forall i :: 0 <= i < |t.rob| ==>
         var j := if e.Retire? then i + 1 else i;
         && (t.rob[i].executed <==> j < |q.rob| && (q.rob[j].executed || e == Execute(j)))
         && (t.rob[i].completed <==> j < |q.rob| && (q.rob[j].completed || e == Complete(j)))
  }

  lemma {:induction false} QueueShape(g: Config, m: Meaning, ops: seq<Op>, s: Machine, e: Event)
    requires Inv(g, m, ops, s) && Enabled(g, m, ops, s, e)
    ensures QueueGoes(ops, s.lsq, Apply(g, m, ops, s, e).lsq, e)
  {
    hide InvAt, Reads, CoreAfter, U.Good, U.Enabled, U.Apply, T.Sourced, T.Tracked, C.Genuine, Timed, Shaped,
      CanExecute, Affordable;
    QueueEnabled(g, m, ops, s, e);
    T.ApplyShape(s.lsq, QueueEvent(g, ops, s, e));
  }

  lemma {:induction false} AfterIs(g: Config, m: Meaning, ops: seq<Op>, s: Machine, e: Event)
    requires Inv(g, m, ops, s) && Enabled(g, m, ops, s, e)
    ensures Apply(g, m, ops, s, e).core == CoreAfter(g, m, ops, s, e)
  {
    hide InvAt, U.Good, Reads, T.Sourced, T.Tracked, C.Genuine, Timed, CoreAfter, U.Apply, U.Enabled, Shaped;
  }

  lemma {:induction false} CoupledKeeps(g: Config, m: Meaning, ops: seq<Op>, s: Machine, e: Event)
    requires Inv(g, m, ops, s) && Enabled(g, m, ops, s, e)
    ensures Coupled(ops, Apply(g, m, ops, s, e))
  {
    hide InvAt, U.Good, Reads, T.Sourced, T.Tracked, C.Genuine, Timed, CoreAfter, U.Apply, U.Enabled, Shaped;
    CoreShape(g, m, ops, s, e);
    QueueShape(g, m, ops, s, e);
    AfterIs(g, m, ops, s, e);
  }

  /** An instruction that executes reads its program-order operands. */
  lemma {:induction false} ReadsKeeps(g: Config, m: Meaning, ops: seq<Op>, s: Machine, e: Event)
    requires Inv(g, m, ops, s) && Enabled(g, m, ops, s, e)
    ensures Reads(m, ops, Apply(g, m, ops, s, e).operands)
  {
    hide InvAt, U.Good, T.Sourced, T.Tracked, C.Genuine, Timed, CoreAfter, Apply, OperandsAt, Shaped, CanExecute,
      Affordable, Reads;
    OperandsAfter(g, m, ops, s, e);
    if e.Execute? {
      CoupledAt(g, m, ops, s, e.i);
      var k := s.core.retired + e.i;
      IndexIs(m, ops, k);
      ReadsAt(g, m, ops, s.core, Unscheduled(s.core.rob), e.i);
      ReadsOne(m, ops, s, Apply(g, m, ops, s, e), k);
    } else {
      ReadsSame(m, ops, s, Apply(g, m, ops, s, e));
    }
  }

  lemma {:induction false} OperandsAfter(g: Config, m: Meaning, ops: seq<Op>, s: Machine, e: Event)
    requires Inv(g, m, ops, s) && Enabled(g, m, ops, s, e)
    ensures e.Execute? ==> e.i < |s.core.rob| && InFile(s.core.rob[e.i].srcs, |s.core.values|)
    ensures Apply(g, m, ops, s, e).operands
         == if e.Execute? then s.operands[s.core.rob[e.i].id := Read(s.core.values, s.core.rob[e.i].srcs)]
           else s.operands
  {
    hide InvAt, U.Good, Reads, T.Sourced, T.Tracked, C.Genuine, Timed, CoreAfter, U.Apply, U.Enabled, Coupled;
  }

  lemma {:induction false} ReadsSame(m: Meaning, ops: seq<Op>, s: Machine, t: Machine)
    requires IsProgram(m, ops) && Reads(m, ops, s.operands) && t.operands == s.operands
    ensures Reads(m, ops, t.operands)
  {
  }

  lemma {:induction false} ReadsOne(m: Meaning, ops: seq<Op>, s: Machine, t: Machine, k: nat)
    requires IsProgram(m, ops) && Reads(m, ops, s.operands) && k < |ops| && IndexOf(ops, ops[k].instr.id) == k
    requires t.operands == s.operands[ops[k].instr.id := OperandsAt(m, ops, k)]
    ensures Reads(m, ops, t.operands)
  {
  }

  lemma {:induction false} ReadsAt(g: Config, m: Meaning, ops: seq<Op>, c: Core, n: nat, i: nat)
    requires IsProgram(m, ops) && InvAt(Reference(g, m, ops), c, n) && i < |c.rob|
    requires Shaped(With(g, m, []), c) && CanExecute(With(g, m, []), c, i)
    requires |c.program| <= |ops| && forall k :: 0 <= k < |c.program| ==> c.program[k] == ops[k].instr
    ensures InFile(c.rob[i].srcs, |c.values|) && Read(c.values, c.rob[i].srcs) == OperandsAt(m, ops, c.retired + i)
  {
    var r := Reference(g, m, ops);
    ExecuteKeeps(r, c, n, i);
    assert SourcesOk(r, ExecuteEntry(r, c, i), i);
    SameReference(g, m, ops, c.program, c.retired + i);
  }

  lemma {:induction false} ApplyKeeps(g: Config, m: Meaning, ops: seq<Op>, s: Machine, e: Event)
    requires Inv(g, m, ops, s) && Enabled(g, m, ops, s, e) && (e.Complete? ==> Tame(m, s.lsq))
    ensures Inv(g, m, ops, Apply(g, m, ops, s, e))
  {
    CoreKeeps(g, m, ops, s, e);
    CoupledKeeps(g, m, ops, s, e);
    ReadsKeeps(g, m, ops, s, e);
    QueueEnabled(g, m, ops, s, e);
    QueueKnows(g, m, ops, s, e);
    T.ApplyFollows(s.lsq, QueueEvent(g, ops, s, e), s.operands.Keys);
    C.ApplyLeaves(s.lsq, QueueEvent(g, ops, s, e));
    TimedKeeps(g, m, ops, s, e);
    hide InvAt, U.Good, Coupled, Reads, T.Sourced, T.Tracked, C.Genuine, Timed, CoreAfter, U.Apply;
  }

  /** What an event does to when the instructions of the register half are due. */
  lemma {:induction false} CoreTimes(g: Config, m: Meaning, ops: seq<Op>, s: Machine, e: Event)
    requires Inv(g, m, ops, s) && Enabled(g, m, ops, s, e)
    ensures CoreAfter(g, m, ops, s, e).now == if e.Clock? then e.now else s.core.now
    ensures Dues(CoreAfter(g, m, ops, s, e).rob) == DuesThen(g, s.core, e)
  {
    hide InvAt, U.Good, Reads, T.Sourced, T.Tracked, C.Genuine, Timed, Got, Coupled;
    if e.Schedule? { ScheduleTimes(With(g, m, []), s.core, Unscheduled(s.core.rob)); }
  }

  function DuesThen(g: Config, c: Core, e: Event): seq<Q.Time> {
    if e.Execute? && e.i < |c.rob| then Dues(c.rob)[e.i := Q.At(c.now + g.execLatency)]
    else if e.Retire? && c.rob != [] then Dues(c.rob)[1..]
    else if e.Dispatch? then Dues(c.rob) + [Q.Never]
    else Dues(c.rob)
  }

  lemma {:induction false} ScheduleTimes(g: Config, c: Core, n: nat)
    requires Affordable(g, c, n)
    ensures ScheduleTurn(g, c, n).now == c.now && Dues(ScheduleTurn(g, c, n).rob) == Dues(c.rob)
  {
    hide RenameSources;
  }

  lemma {:induction false} DuesAfter(g: Config, m: Meaning, ops: seq<Op>, s: Machine, e: Event)
    requires Inv(g, m, ops, s) && Enabled(g, m, ops, s, e)
    ensures var x := QueueEvent(g, ops, s, e);
            && (x.Executes? ==> x.i < |s.lsq.rob|) && (x.Retires? ==> s.lsq.rob != [])
            && |Dues(s.core.rob)| == |s.lsq.rob|
            && DuesThen(g, s.core, e) == L.DueAfter(s.lsq, Dues(s.core.rob), x)
  {
    hide InvAt, U.Good, Reads, T.Sourced, T.Tracked, C.Genuine, L.TimedBy, Shaped, CanExecute, Affordable;
  }

  lemma {:induction false} TimedKeeps(g: Config, m: Meaning, ops: seq<Op>, s: Machine, e: Event)
    requires Inv(g, m, ops, s) && Enabled(g, m, ops, s, e)
    ensures Timed(Apply(g, m, ops, s, e))
  {
    QueueEnabled(g, m, ops, s, e);
    DuesAfter(g, m, ops, s, e);
    CoreTimes(g, m, ops, s, e);
    AfterIs(g, m, ops, s, e);
    QueueClock(s.lsq, QueueEvent(g, ops, s, e));
    L.ApplyTimed(s.lsq, QueueEvent(g, ops, s, e), Dues(s.core.rob));
    hide InvAt, U.Good, Reads, T.Sourced, T.Tracked, C.Genuine, L.TimedBy, CoreAfter, U.Apply, U.Enabled, Coupled;
  }

  lemma {:induction false} QueueClock(q: Q.Lsq, e: U.Event)
    requires U.Good(q) && U.Enabled(q, e)
    ensures U.Apply(q, e).now == if e.Clock? then e.now else q.now
  {
    hide U.Good, U.StoreStage, U.IssueLoads, U.AnswerBlocks, Q.FreeSlots, Q.DispatchLoads;
    match e
    case StoreTurn(width, room) => StoreClock(q, width, room);
    case Dispatches(p) => DispatchClock(Q.PushInstr(q, p), p, |p.loads|);
    case _ =>
  }

  lemma {:induction false} StoreClock(q: Q.Lsq, width: nat, room: nat)
    requires U.Good(q)
    ensures U.StoreStage(q, width, room).now == q.now
  {
    hide U.Good, U.FinishStores, U.DrainStores;
  }

  lemma {:induction false} DispatchClock(q: Q.Lsq, p: Q.MemInstr, n: nat)
    requires n <= |p.loads| && n <= Q.FreeSlots(q.lq)
    ensures Q.DispatchLoads(q, p, n).now == q.now
  {
    hide Q.FreeSlots;
    if n > 0 { DispatchClock(q, p, n - 1); }
  }

  lemma {:induction false} QueueKnows(g: Config, m: Meaning, ops: seq<Op>, s: Machine, e: Event)
    requires Inv(g, m, ops, s) && Enabled(g, m, ops, s, e)
    ensures U.Enabled(s.lsq, QueueEvent(g, ops, s, e))
    ensures Apply(g, m, ops, s, e).operands.Keys == T.Knows(s.lsq, QueueEvent(g, ops, s, e), s.operands.Keys)
  {
    hide InvAt, Reads, T.Sourced, T.Tracked, C.Genuine, Timed, CoreAfter, U.Apply, U.Enabled, U.Good, Shaped,
      CanExecute;
    QueueEnabled(g, m, ops, s, e);
    if e.Execute? { CoupledAt(g, m, ops, s, e.i); }
  }

  // Whole runs.

  function Start(g: Config, m: Meaning, physical: nat, slots: nat): Machine
    requires |m.initial| == ARCH_REGS
  {
    Machine(OutOfOrderCore.Start(With(g, m, []), physical), U.Start(slots), map[])
  }

  lemma {:induction false} CoreStarts(g: Config, m: Meaning, ops: seq<Op>, physical: nat)
    requires IsProgram(m, ops)
    ensures var c := OutOfOrderCore.Start(With(g, m, []), physical); InvAt(Reference(g, m, ops), c, Unscheduled(c.rob))
  {
    var r := Reference(g, m, ops);
    hide LoadedAt;
    StartHolds(r, physical);
    hide InvAt;
    assert OutOfOrderCore.Start(With(g, m, []), physical) == OutOfOrderCore.Start(r, physical);
  }

  lemma {:induction false} StartIsGood(g: Config, m: Meaning, ops: seq<Op>, physical: nat, slots: nat)
    requires IsProgram(m, ops)
    ensures Inv(g, m, ops, Start(g, m, physical, slots))
  {
    hide InvAt, U.Good, T.Tracked, C.Genuine, Reference;
    CoreStarts(g, m, ops, physical);
    C.StartSound(slots);
  }

  ghost predicate Steps(g: Config, m: Meaning, ops: seq<Op>, s: Machine, e: Event, t: Machine) {
    Inv(g, m, ops, s) && Enabled(g, m, ops, s, e) && t == Apply(g, m, ops, s, e)
  }

  /** Each state follows from the one before; the invariant, proved below, only makes the step well defined. */
  ghost predicate IsRun(g: Config, m: Meaning, ops: seq<Op>, physical: nat, slots: nat, states: seq<Machine>,
                        events: seq<Event>) {
    && IsProgram(m, ops) && |states| == |events| + 1 && states[0] == Start(g, m, physical, slots)
    && forall i :: 0 <= i < |events| && Inv(g, m, ops, states[i]) ==>
        Steps(g, m, ops, states[i], events[i], states[i + 1])
  }

  /** No load is given a value before it can be known, in the first n steps: whatever the program, if what is stored
    * does not depend on loads of the same instruction; for every meaning, if the program is clear; or because the run
    * happens not to. */
  ghost predicate RunsTame(m: Meaning, ops: seq<Op>, states: seq<Machine>, n: nat)
    requires n < |states|
  {
    OperandsOnly(m) || C.Clear(Mems(ops, |ops|)) || forall i :: 0 <= i <= n ==> C.Prompt(states[i].lsq)
  }

  lemma {:induction false} InvTame(g: Config, m: Meaning, ops: seq<Op>, s: Machine)
    requires Inv(g, m, ops, s) && (OperandsOnly(m) || C.Clear(Mems(ops, |ops|)) || C.Prompt(s.lsq))
    ensures Tame(m, s.lsq)
  {
    InvRuns(g, m, ops, s);
    hide Inv, C.Clear, C.Prompt, OperandsOnly, C.Sound;
    if C.Clear(Mems(ops, |ops|)) { C.ClearIsPrompt(s.lsq, Mems(ops, |ops|)); }
  }

  lemma {:induction false} RunInv(g: Config, m: Meaning, ops: seq<Op>, physical: nat, slots: nat, states: seq<Machine>,
                                  events: seq<Event>, n: nat, i: nat)
    requires IsRun(g, m, ops, physical, slots, states, events) && i <= n < |states| && RunsTame(m, ops, states, n)
    ensures Inv(g, m, ops, states[i]) && Tame(m, states[i].lsq)
    decreases i
  {
    hide Inv, Enabled, Apply, Start, C.Clear, C.Prompt, OperandsOnly, Tame;
    if i == 0 {
      StartIsGood(g, m, ops, physical, slots);
    } else {
      RunInv(g, m, ops, physical, slots, states, events, n, i - 1);
      assert Steps(g, m, ops, states[i - 1], events[i - 1], states[i]);
      ApplyKeeps(g, m, ops, states[i - 1], events[i - 1]);
    }
    InvTame(g, m, ops, states[i]);
  }

  // The results.

  /** The registers are those of program order: executed instructions have read their program-order operands, completed
    * ones have been given their program-order loads and hold their program-order results, and the committed table is
    * the register state after the retired instructions. */
  ghost predicate RegistersMatch(m: Meaning, ops: seq<Op>, s: Machine)
    requires IsProgram(m, ops)
  {
    var c := s.core;
    && c.retired + |c.rob| == |c.program| <= |ops| && |c.regs.backend| == ARCH_REGS
    && (forall i :: 0 <= i < |c.rob| && c.rob[i].executed ==> c.rob[i].operands == OperandsAt(m, ops, c.retired + i))
    && (forall i :: 0 <= i < |c.rob| && c.rob[i].completed ==> HoldsResults(m, ops, s, i))
    && (forall r :: 0 <= r < ARCH_REGS ==> CommittedIs(m, ops, c, r))
  }

  ghost predicate HoldsResults(m: Meaning, ops: seq<Op>, s: Machine, i: nat)
    requires IsProgram(m, ops) && i < |s.core.rob| && s.core.retired + i < |ops|
  {
    var c, k := s.core, s.core.retired + i;
    && Got(m, ops, s, ops[k].mem) == LoadedAt(m, ops, k)
    && InFile(c.rob[i].dsts, |c.values|)
    && forall j :: 0 <= j < |c.rob[i].dsts| ==>
         c.values[c.rob[i].dsts[j]] == m.effect(ops[k].instr, j, OperandsAt(m, ops, k), LoadedAt(m, ops, k))
  }

  ghost predicate CommittedIs(m: Meaning, ops: seq<Op>, c: Core, r: nat)
    requires IsProgram(m, ops) && r < ARCH_REGS == |c.regs.backend| && c.retired <= |ops|
  {
    var p := c.regs.backend[r];
    p < |c.values| && RegsBefore(m, ops, c.retired)[r] == if p < 0 then m.initial[r] else c.values[p]
  }

  /** Memory is that of program order: each load answered so far has been given what memory holds before its
    * instruction; and once all stores have reached the cache, the cache holds what memory holds after the program so
    * far. */
  ghost predicate MemoryMatches(m: Meaning, ops: seq<Op>, s: Machine)
    requires IsProgram(m, ops)
  {
    && |s.lsq.program| <= |ops| && LoadsRight(m, ops, s.operands, s.lsq)
    && (s.lsq.sq == [] ==> forall addr: nat :: Cached(m, ops, s, addr) == MemoryBefore(m, ops, |s.lsq.program|, addr))
  }

  ghost predicate LoadsRight(m: Meaning, ops: seq<Op>, operands: map<nat, seq<int>>, q: Q.Lsq)
    requires IsProgram(m, ops)
  {
    forall n, k :: 0 <= n < |q.observed| && 0 <= k < |q.program| && k < |ops| && q.observed[n].id == ops[k].mem.id ==>
      Given(m, ops, operands, q.observed, n) == MemoryBefore(m, ops, k, q.observed[n].addr)
  }

  lemma {:induction false} InvRegisters(g: Config, m: Meaning, ops: seq<Op>, s: Machine)
    requires Inv(g, m, ops, s) && Tame(m, s.lsq)
    ensures RegistersMatch(m, ops, s)
  {
    hide InvAt, U.Good, Reads, T.Sourced, T.Tracked, C.Genuine, Timed, Sequential, Got, LoadedAt, RegsBefore, Reference,
      HoldsResults;
    var c, r := s.core, Reference(g, m, ops);
    InvAtShaped(g, m, ops, c, Unscheduled(c.rob));
    InvMatches(r, c, Unscheduled(c.rob));
    forall i | 0 <= i < |c.rob| && c.rob[i].executed ensures c.rob[i].operands == OperandsAt(m, ops, c.retired + i) {
      SameReference(g, m, ops, c.program, c.retired + i);
    }
    forall r | 0 <= r < ARCH_REGS ensures CommittedIs(m, ops, c, r) { InvCommitted(g, m, ops, s, r); }
    forall i | 0 <= i < |c.rob| && c.rob[i].completed
      ensures HoldsResults(m, ops, s, i)
    {
      InvResults(g, m, ops, s, i);
    }
  }

  lemma {:induction false} InvCommitted(g: Config, m: Meaning, ops: seq<Op>, s: Machine, r: nat)
    requires Inv(g, m, ops, s) && r < ARCH_REGS
    ensures s.core.retired <= |ops| && |s.core.regs.backend| == ARCH_REGS && CommittedIs(m, ops, s.core, r)
  {
    hide InvAt, U.Good, Reads, T.Sourced, T.Tracked, C.Genuine, Timed, Sequential, LoadedAt, RegsBefore;
    var c := s.core;
    InvAtShaped(g, m, ops, c, Unscheduled(c.rob));
    InvMatches(Reference(g, m, ops), c, Unscheduled(c.rob));
    SameReference(g, m, ops, c.program, c.retired);
  }

  lemma {:induction false} InvResults(g: Config, m: Meaning, ops: seq<Op>, s: Machine, i: nat)
    requires Inv(g, m, ops, s) && Tame(m, s.lsq) && i < |s.core.rob| && s.core.rob[i].completed
    ensures s.core.retired + i < |ops| && HoldsResults(m, ops, s, i)
  {
    hide InvAt, U.Good, Reads, T.Sourced, T.Tracked, C.Genuine, Timed, Sequential, Got, LoadedAt, RegsBefore;
    var c, r, k := s.core, Reference(g, m, ops), s.core.retired + i;
    CoupledAt(g, m, ops, s, i);
    AllDone(s.lsq, i);
    GotIsLoaded(g, m, ops, s, i);
    InvAtShaped(g, m, ops, c, Unscheduled(c.rob));
    CompletedFits(r, c, Unscheduled(c.rob), i);
    InvMatches(r, c, Unscheduled(c.rob));
    SameReference(g, m, ops, c.program, k);
    IndexIs(m, ops, k);
  }

  lemma {:induction false} CompletedFits(g: Config, c: Core, n: nat, i: nat)
    requires InvAt(g, c, n) && i < |c.rob| && c.rob[i].completed
    ensures InFile(c.rob[i].dsts, |c.values|)
  {
  }

  lemma {:induction false} AllDone(q: Q.Lsq, i: nat)
    requires U.Good(q) && i < |q.rob|
    ensures q.rob[i].completed ==> q.rob[i].done == q.rob[i].ops
  {
  }

  lemma {:induction false} RunsRight(m: Meaning, ops: seq<Op>, operands: map<nat, seq<int>>, q: Q.Lsq)
    requires Runs(m, ops, operands, q) && Tame(m, q)
    ensures LoadsRight(m, ops, operands, q)
  {
    hide C.Sound, Reads, T.Sourced, Tame, Given, MemoryBefore;
    forall n, k | 0 <= n < |q.observed| && 0 <= k < |q.program| && k < |ops| && q.observed[n].id == ops[k].mem.id
      ensures Given(m, ops, operands, q.observed, n) == MemoryBefore(m, ops, k, q.observed[n].addr)
    {
      GivenIsMemory(m, ops, operands, q, n, k);
    }
  }

  lemma {:induction false} InvMemory(g: Config, m: Meaning, ops: seq<Op>, s: Machine)
    requires Inv(g, m, ops, s) && Tame(m, s.lsq)
    ensures MemoryMatches(m, ops, s)
  {
    InvRuns(g, m, ops, s);
    RunsRight(m, ops, s.operands, s.lsq);
    hide InvAt, MemoryBefore, LoadsRight, Cached, Runs;
    if s.lsq.sq == [] {
      forall addr: nat ensures Cached(m, ops, s, addr) == MemoryBefore(m, ops, |s.lsq.program|, addr) {
        CacheIsMemory(m, ops, s, addr);
      }
    }
  }

  /** Instructions whose stores have reached the cache have been given their loads. */
  lemma {:induction false} WrittenLoaded(q: Q.Lsq, i: nat, k: nat, j: nat)
    requires C.Sound(q) && i < |q.program| && k < |q.written| && q.written[k].id == q.program[i].id
    requires j < |q.program[i].loads|
    ensures C.SeenBefore(q.observed, |q.observed|, q.program[i].id, q.program[i].loads[j])
  {
    var id, addr := q.program[i].id, q.program[i].loads[j];
    assert T.Has(q, id, addr);
    if T.Live(q, id, addr) {
      assert false;
    }
  }

  lemma {:induction false} LastWriterAt(stores: seq<Q.Store>, addr: nat) returns (k: nat)
    requires Q.LastWriter(stores, addr).Some?
    ensures k < |stores| && stores[k].id == Q.LastWriter(stores, addr).value
  {
    var n := |stores| - 1;
    if stores[n].addr == addr { k := n; } else { k := LastWriterAt(stores[..n], addr); }
  }

  lemma {:induction false} AllWritten(q: Q.Lsq)
    requires U.Good(q) && q.sq == []
    ensures q.written == Q.StoresOf(q.program)
  {
    assert q.written + M.Queued(q.sq) == q.written;
  }

  lemma {:induction false} CacheIsMemory(m: Meaning, ops: seq<Op>, s: Machine, addr: nat)
    requires Runs(m, ops, s.operands, s.lsq) && Tame(m, s.lsq) && s.lsq.sq == []
    ensures Cached(m, ops, s, addr) == MemoryBefore(m, ops, |s.lsq.program|, addr)
  {
    var q := s.lsq;
    assert Mems(ops, |q.program|) == q.program;
    AllWritten(q);
    LastWriterIsSource(m, ops, |q.program|, addr);
    T.LastWriterIn(q.written, addr, s.operands.Keys);
    hide U.Good, T.Sourced, T.Tracked, C.Genuine, Timed, Tame, MemoryBefore, OperandsAt;
    if Q.LastWriter(q.written, addr).Some? {
      var i := IndexOf(ops, Q.LastWriter(q.written, addr).value);
      var k := LastWriterAt(q.written, addr);
      assert q.program[i] == ops[i].mem;
      forall j | 0 <= j < |ops[i].mem.loads|
        ensures C.SeenBefore(q.observed, |q.observed|, ops[i].mem.id, ops[i].mem.loads[j])
      {
        WrittenLoaded(q, i, k, j);
      }
      ArrivedIsLoaded(m, ops, s.operands, q, |q.observed|, i);
    }
  }

  /** In every run of the two halves together, in any interleaving of their steps and with any latencies, widths and
    * answers of the cache, registers and memory are those of executing the program one instruction at a time, as long
    * as no load is given the store of an instruction that still waits for the loads that its store depends on. */
  lemma {:induction false} RunComputesProgram(g: Config, m: Meaning, ops: seq<Op>, physical: nat, slots: nat,
                                              states: seq<Machine>, events: seq<Event>, n: nat)
    requires IsRun(g, m, ops, physical, slots, states, events) && n < |states| && RunsTame(m, ops, states, n)
    ensures RegistersMatch(m, ops, states[n]) && MemoryMatches(m, ops, states[n])
  {
    hide Inv, RegistersMatch, MemoryMatches, Tame, RunsTame;
    RunInv(g, m, ops, physical, slots, states, events, n, n);
    InvRegisters(g, m, ops, states[n]);
    InvMemory(g, m, ops, states[n]);
  }

  /** A load goes to the cache, and a store finishes, only when its instruction has executed and its latency has
    * passed. */
  ghost predicate DueFirst(s: Machine) {
    && |s.lsq.rob| == |s.core.rob|
    && (forall w :: 0 <= w < |s.lsq.lq| && s.lsq.lq[w].Some? ==> LoadDueFirst(s, s.lsq.lq[w].value))
    && (forall k, i :: 0 <= k < |s.lsq.sq| && 0 <= i < |s.core.rob| && s.lsq.sq[k].id == s.core.rob[i].id ==>
          && (s.lsq.sq[k].issued ==> s.core.rob[i].executed)
          && (!s.lsq.sq[k].issued && s.core.rob[i].executed ==> s.lsq.sq[k].ready == Q.At(s.core.rob[i].ready)))
  }

  ghost predicate LoadDueFirst(s: Machine, e: Q.Load) {
    exists i :: 0 <= i < |s.core.rob| && s.core.rob[i].id == e.id
                && e.ready == (if s.core.rob[i].executed then Q.At(s.core.rob[i].ready) else Q.Never)
                && (e.issued ==> s.core.rob[i].executed && e.sent.At? && s.core.rob[i].ready < e.sent.t)
  }

  lemma {:induction false} TimedDueFirst(s: Machine)
    requires Timed(s) && M.Owned(s.lsq) && |s.lsq.rob| == |s.core.rob|
    requires forall i :: 0 <= i < |s.core.rob| ==>
      s.lsq.rob[i].id == s.core.rob[i].id && s.lsq.rob[i].executed == s.core.rob[i].executed
    ensures DueFirst(s)
  {
    forall w | 0 <= w < |s.lsq.lq| && s.lsq.lq[w].Some? ensures LoadDueFirst(s, s.lsq.lq[w].value) {
      var i :| 0 <= i < |s.lsq.rob| && s.lsq.rob[i].id == s.lsq.lq[w].value.id;
      assert s.core.rob[i].id == s.lsq.lq[w].value.id;
    }
  }

  lemma {:induction false} InvDueFirst(g: Config, m: Meaning, ops: seq<Op>, s: Machine)
    requires Inv(g, m, ops, s)
    ensures DueFirst(s)
  {
    hide InvAt, T.Sourced, T.Tracked, C.Genuine, Reads, Timed;
    forall i | 0 <= i < |s.core.rob|
      ensures i < |s.lsq.rob| && s.lsq.rob[i].id == s.core.rob[i].id
      ensures s.lsq.rob[i].executed == s.core.rob[i].executed
    {
      CoupledAt(g, m, ops, s, i);
    }
    OwnedIn(s.lsq);
    hide Inv;
    TimedDueFirst(s);
  }

  lemma {:induction false} OwnedIn(q: Q.Lsq)
    requires U.Good(q)
    ensures M.Owned(q)
  {
  }

  /** In every run, as above. */
  lemma {:induction false} RunSendsWhenDue(g: Config, m: Meaning, ops: seq<Op>, physical: nat, slots: nat,
                                           states: seq<Machine>, events: seq<Event>, n: nat)
    requires IsRun(g, m, ops, physical, slots, states, events) && n < |states| && RunsTame(m, ops, states, n)
    ensures DueFirst(states[n])
  {
    hide Inv, DueFirst, Tame, RunsTame;
    RunInv(g, m, ops, physical, slots, states, events, n, n);
    InvDueFirst(g, m, ops, states[n]);
  }

  // Clear programs are the only ones whose loads are given the right values in all runs.

  /** In every run over the program, whatever its instructions mean, loads are given what memory holds. */
  ghost predicate AnswersRight(ops: seq<Op>)
    requires IsTrace(ops)
  {
    forall m, operands, slots, q :: RunsFrom(m, ops, operands, slots, q) ==> LoadsRight(m, ops, operands, q)
  }

  ghost predicate RunsFrom(m: Meaning, ops: seq<Op>, operands: map<nat, seq<int>>, slots: nat, q: Q.Lsq) {
    C.CanReach(U.Start(slots), q) && Runs(m, ops, operands, q)
  }

  /** All memory holds 1, and an instruction stores 1 unless one of its loads is 0. */
  function Ones(): Meaning {
    Meaning((i: Instr, k: nat, operands: seq<int>, loaded: seq<int>) => 0,
            (i: Instr, addr: nat, operands: seq<int>, loaded: seq<int>) => if 0 in loaded then 0 else 1,
            seq(ARCH_REGS, _ => 0), (addr: nat) => 1)
  }

  lemma {:induction false} AlwaysOne(ops: seq<Op>, n: nat, addr: nat)
    requires IsTrace(ops) && n <= |ops|
    ensures MemoryBefore(Ones(), ops, n, addr) == 1
    decreases n
  {
    if n > 0 {
      MemoryStep(Ones(), ops, n, addr);
      var loads, loaded := ops[n - 1].mem.loads, LoadedAt(Ones(), ops, n - 1);
      forall k | 0 <= k < |loads| ensures loaded[k] == 1 { AlwaysOne(ops, n - 1, loads[k]); }
      AlwaysOne(ops, n - 1, addr);
    }
  }

  ghost function Ids(ops: seq<Op>): set<nat> { set k | 0 <= k < |ops| :: ops[k].instr.id }

  /** The operands that every instruction reads. */
  ghost function AllOperands(m: Meaning, ops: seq<Op>): map<nat, seq<int>>
    requires IsProgram(m, ops)
  {
    map id | id in Ids(ops) :: var k := IndexOf(ops, id); if k < |ops| then OperandsAt(m, ops, k) else []
  }

  lemma {:induction false} AllOperandsRead(m: Meaning, ops: seq<Op>)
    requires IsProgram(m, ops)
    ensures AllOperands(m, ops).Keys == Ids(ops) && Reads(m, ops, AllOperands(m, ops))
  {
    hide OperandsAt;
    var r := AllOperands(m, ops);
    forall id | id in r ensures IndexOf(ops, id) < |ops| && r[id] == OperandsAt(m, ops, IndexOf(ops, id)) {
      assert id in Ids(ops);
    }
  }

  lemma {:induction false} StoresBelong(program: seq<Q.MemInstr>, known: set<nat>)
    requires forall i :: 0 <= i < |program| ==> program[i].id in known
    ensures forall k :: 0 <= k < |Q.StoresOf(program)| ==> Q.StoresOf(program)[k].id in known
  {
    if program != [] { StoresBelong(program[..|program| - 1], known); }
  }

  lemma {:induction false} LastBeforeBelongs(stores: seq<Q.Store>, addr: nat, id: nat) returns (k: nat)
    requires Q.LastBefore(stores, addr, id).Some?
    ensures k < |stores| && stores[k].id == Q.LastBefore(stores, addr, id).value
  {
    var n := |stores| - 1;
    if stores[n].addr == addr && stores[n].id < id { k := n; } else { k := LastBeforeBelongs(stores[..n], addr, id); }
  }

  lemma {:induction false} SourcesBelong(q: Q.Lsq, known: set<nat>)
    requires U.Good(q) && forall i :: 0 <= i < |q.program| ==> q.program[i].id in known
    ensures T.Sourced(q, known)
  {
    StoresBelong(q.program, known);
    forall k | 0 <= k < |q.sq| ensures q.sq[k].id in known {
      assert M.Queued(q.sq)[k] == q.stores[|q.written| + k];
    }
    forall k | 0 <= k < |q.written| ensures q.written[k].id in known { assert q.written[k] == q.stores[k]; }
    forall n | 0 <= n < |q.observed| && q.observed[n].source.Some? ensures q.observed[n].source.value in known {
      var k := LastBeforeBelongs(q.stores, q.observed[n].addr, q.observed[n].id);
    }
  }

  lemma {:induction false} OnesRun(ops: seq<Op>, q: Q.Lsq)
    requires IsTrace(ops) && C.Sound(q) && q.program <= Mems(ops, |ops|)
    ensures Runs(Ones(), ops, AllOperands(Ones(), ops), q)
  {
    var operands := AllOperands(Ones(), ops);
    hide C.Genuine, T.Tracked, Reads, T.Sourced;
    AllOperandsRead(Ones(), ops);
    forall i | 0 <= i < |q.program| ensures q.program[i].id in operands {
      assert q.program[i] == Mems(ops, |ops|)[i];
    }
    SourcesBelong(q, operands.Keys);
  }

  lemma {:induction false} EarlyIsWrong(ops: seq<Op>, q: Q.Lsq)
    requires IsTrace(ops) && C.Sound(q) && q.program <= Mems(ops, |ops|) && !C.Prompt(q)
    ensures Runs(Ones(), ops, AllOperands(Ones(), ops), q) && !LoadsRight(Ones(), ops, AllOperands(Ones(), ops), q)
  {
    OnesRun(ops, q);
    var n, i, j :| 0 <= n < |q.observed| && 0 <= i < |q.program| && 0 <= j < |q.program[i].loads|
      && q.observed[n].source == Some(q.program[i].id)
      && !C.SeenBefore(q.observed, n, q.program[i].id, q.program[i].loads[j]);
    hide C.Sound, C.Prompt, C.SeenBefore, T.Sourced, Reads, MemoryBefore, Given, AllOperands, Runs;
    assert q.program[i] == Mems(ops, |ops|)[i];
    AllOperandsRead(Ones(), ops);
    assert ops[i].instr.id in Ids(ops);
    GivenZero(ops, AllOperands(Ones(), ops), q, n, i, j);
    GivenNotOne(ops, AllOperands(Ones(), ops), q, n);
  }

  lemma {:induction false} GivenNotOne(ops: seq<Op>, operands: map<nat, seq<int>>, q: Q.Lsq, n: nat)
    requires IsTrace(ops) && C.Sound(q) && q.program <= Mems(ops, |ops|)
    requires n < |q.observed| && Given(Ones(), ops, operands, q.observed, n) != 1
    ensures !LoadsRight(Ones(), ops, operands, q)
  {
    var k := Loader(q, n);
    hide C.Sound, MemoryBefore, Given;
    assert q.program[k] == Mems(ops, |ops|)[k];
    AlwaysOne(ops, k, q.observed[n].addr);
  }

  lemma {:induction false} Loader(q: Q.Lsq, n: nat) returns (k: nat)
    requires C.Sound(q) && n < |q.observed|
    ensures k < |q.program| && q.program[k].id == q.observed[n].id
  {
    assert C.IsLoad(q.program, q.observed[n].id, q.observed[n].addr);
    k :| 0 <= k < |q.program| && q.program[k].id == q.observed[n].id;
  }

  lemma {:induction false} GivenZero(ops: seq<Op>, operands: map<nat, seq<int>>, q: Q.Lsq, n: nat, i: nat, j: nat)
    requires IsTrace(ops) && n < |q.observed| && i < |ops| && j < |ops[i].mem.loads| && ops[i].instr.id in operands
    requires q.observed[n].source == Some(ops[i].instr.id)
    requires !C.SeenBefore(q.observed, n, ops[i].mem.id, ops[i].mem.loads[j])
    ensures Given(Ones(), ops, operands, q.observed, n) == 0
  {
    IndexIs(Ones(), ops, i);
    var loaded := Arrived(Ones(), ops, operands, q.observed, n, ops[i].mem);
    assert Found(q.observed, n, ops[i].mem.id, ops[i].mem.loads[j]).None?;
    assert loaded[j] == 0;
  }

  /** Loads are given the right values in all runs and for all meanings of the instructions, exactly when no
    * instruction loads what one that loads has stored. */
  lemma {:induction false} AnswersRightExactly(ops: seq<Op>)
    requires IsTrace(ops)
    ensures C.Clear(Mems(ops, |ops|)) <==> AnswersRight(ops)
  {
    var program := Mems(ops, |ops|);
    hide LoadsRight, C.CanReach, C.Sound, C.Prompt, C.Clear, T.Sourced, Reads, OperandsOnly;
    C.ClearExactly(program);
    if C.Clear(program) {
      forall m, operands, slots, q | RunsFrom(m, ops, operands, slots, q)
        ensures LoadsRight(m, ops, operands, q)
      {
        C.ClearIsPrompt(q, program);
        RunsRight(m, ops, operands, q);
      }
    } else {
      var slots, q :| C.CanReach(U.Start(slots), q) && q.program <= program && !C.Prompt(q);
      C.StartSound(slots);
      C.CanReachSound(U.Start(slots), q);
      EarlyIsWrong(ops, q);
      assert RunsFrom(Ones(), ops, AllOperands(Ones(), ops), slots, q);
    }
  }
}
