/** The part of src/ooo_cpu.cc that renames, executes, completes and retires instructions. */
module OutOfOrderCore {
  import opened RegisterRenaming

  /** An instruction with architectural register names. */
  datatype Instr = Instr(id: nat, srcs: seq<nat>, dsts: seq<nat>)

  /** A reorder-buffer entry. Scheduling overwrites the register names with physical ones.
      `operands` records what the instruction read when it executed. */
  datatype Entry = Entry(id: nat, srcs: seq<int>, dsts: seq<int>, ready: int,
                         scheduled: bool, executed: bool, completed: bool, operands: seq<int>)

  /** `effect` gives the value an instruction writes to each destination, from its operand values;
      `initial` is the register state in which the trace starts. */
  datatype Config = Config(retireWidth: nat, execWidth: nat, schedulerSize: nat,
                           schedulingLatency: nat, execLatency: nat,
                           effect: (Instr, nat, seq<int>) -> int, initial: seq<int>)

  /** `program` lists every instruction dispatched so far, `retired` counts those that left the
      reorder buffer, and `values` is the data held by each physical register. */
  datatype Core = Core(now: int, regs: Registers, rob: seq<Entry>,
                       values: seq<int>, program: seq<Instr>, retired: nat)

  // What the environment decides in one cycle: the time, which instructions have no outstanding
  // memory operation, what the alias table holds at a physical index, and the next instructions.
  datatype Input = Input(now: int, memoryDone: set<nat>, stale: int -> bool, arrivals: seq<Instr>)

  predicate Legal(i: Instr) {
    && (forall k :: 0 <= k < |i.srcs| ==> i.srcs[k] < ARCH_REGS)
    && (forall k :: 0 <= k < |i.dsts| ==> i.dsts[k] < ARCH_REGS)
  }

  predicate InFile(ps: seq<int>, n: nat) {
    forall j :: 0 <= j < |ps| ==> 0 <= ps[j] < n
  }

  predicate EntryFits(e: Entry, p: Instr, n: nat) {
    && e.id == p.id && |e.srcs| == |p.srcs| && |e.dsts| == |p.dsts|
    && (if e.scheduled then InFile(e.srcs, n) && InFile(e.dsts, n) else e.srcs == p.srcs && e.dsts == p.dsts)
    && (e.executed ==> e.scheduled && |e.operands| == |e.srcs|)
    && (e.completed ==> e.executed)
  }

  predicate Shaped(g: Config, c: Core) {
    && WellFormed(c.regs) && |g.initial| == ARCH_REGS && |c.values| == |c.regs.file|
    && c.retired + |c.rob| == |c.program|
    && (forall k :: 0 <= k < |c.program| ==> Legal(c.program[k]))
    && (forall i :: 0 <= i < |c.rob| ==> EntryFits(c.rob[i], c.program[c.retired + i], |c.regs.file|))
  }

  // The stages.

  function Start(g: Config, physical: nat): (c: Core)
    requires |g.initial| == ARCH_REGS
    ensures Shaped(g, c)
  {
    Core(0, Initial(physical), [], seq(physical, _ => 0), [], 0)
  }

  function RetireHead(g: Config, c: Core): (d: Core)
    requires Shaped(g, c) && c.rob != [] && c.rob[0].completed
    ensures Shaped(g, d) && |d.rob| == |c.rob| - 1
  {
    var d := c.(regs := RetireAll(c.regs, c.rob[0].dsts), rob := c.rob[1..], retired := c.retired + 1);
    d
  }

  /** How many entries at the front are completed, up to the retire width. */
  function CompletedSpan(rob: seq<Entry>, bw: nat): (k: nat)
    ensures k <= |rob| && k <= bw && forall j :: 0 <= j < k ==> rob[j].completed
    ensures k < |rob| && k < bw ==> !rob[k].completed
  {
    if rob == [] || bw == 0 || !rob[0].completed then 0
    else
      var k := CompletedSpan(rob[1..], bw - 1);
      assert forall j :: 0 < j < k + 1 ==> rob[j] == rob[1..][j - 1];
      k + 1
  }

  function RetireMany(g: Config, c: Core, k: nat): (d: Core)
    requires Shaped(g, c) && k <= |c.rob| && forall j :: 0 <= j < k ==> c.rob[j].completed
    ensures Shaped(g, d) && d.rob == c.rob[k..]
  {
    if k == 0 then c else RetireHead(g, RetireMany(g, c, k - 1))
  }

  function RetireStage(g: Config, c: Core): (d: Core)
    requires Shaped(g, c)
    ensures Shaped(g, d)
  {
    RetireMany(g, c, CompletedSpan(c.rob, g.retireWidth))
  }

  function Results(g: Config, i: Instr, operands: seq<int>): seq<int> {
    seq(|i.dsts|, (k: nat) => g.effect(i, k, operands))
  }

  function CompleteEntry(g: Config, c: Core, i: nat): (d: Core)
    requires Shaped(g, c) && i < |c.rob| && c.rob[i].executed
    ensures Shaped(g, d) && |d.rob| == |c.rob|
  {
    var e := c.rob[i];
    var d := c.(regs := CompleteAll(c.regs, e.dsts), rob := c.rob[i := e.(completed := true)],
       values := Assign(c.values, e.dsts, Results(g, c.program[c.retired + i], e.operands)));
    d
  }

  predicate CanComplete(c: Core, i: nat, done: set<nat>)
    requires i < |c.rob|
  {
    var e := c.rob[i];
    e.executed && !e.completed && e.ready <= c.now && e.id in done
  }

  function CompleteStage(g: Config, c: Core, i: nat, bw: nat, done: set<nat>): (d: Core)
    requires Shaped(g, c) && i <= |c.rob|
    ensures Shaped(g, d)
    decreases |c.rob| - i
  {
    if i == |c.rob| || bw == 0 then c
    else if CanComplete(c, i, done) then CompleteStage(g, CompleteEntry(g, c, i), i + 1, bw - 1, done)
    else CompleteStage(g, c, i + 1, bw, done)
  }

  function Read(values: seq<int>, srcs: seq<int>): seq<int>
    requires InFile(srcs, |values|)
  {
    seq(|srcs|, k requires 0 <= k < |srcs| => values[srcs[k]])
  }

  predicate OperandsValid(c: Core, i: nat)
    requires i < |c.rob| && InFile(c.rob[i].srcs, |c.regs.file|)
  {
    forall k :: 0 <= k < |c.rob[i].srcs| ==> c.regs.file[c.rob[i].srcs[k]].valid
  }

  predicate CanExecute(g: Config, c: Core, i: nat)
    requires Shaped(g, c) && i < |c.rob|
  {
    var e := c.rob[i];
    e.scheduled && !e.executed && e.ready <= c.now && OperandsValid(c, i)
  }

  function ExecuteEntry(g: Config, c: Core, i: nat): (d: Core)
    requires Shaped(g, c) && i < |c.rob| && c.rob[i].scheduled
    ensures Shaped(g, d) && |d.rob| == |c.rob|
  {
    var e := c.rob[i];
    var d := c.(rob := c.rob[i := e.(executed := true, ready := c.now + g.execLatency,
                                        operands := Read(c.values, e.srcs))]);
    d
  }

  function ExecuteStage(g: Config, c: Core, i: nat, bw: nat): (d: Core)
    requires Shaped(g, c) && i <= |c.rob|
    ensures Shaped(g, d)
    decreases |c.rob| - i
  {
    if i == |c.rob| || bw == 0 then c
    else if CanExecute(g, c, i) then ExecuteStage(g, ExecuteEntry(g, c, i), i + 1, bw - 1)
    else ExecuteStage(g, c, i + 1, bw)
  }

  /** A source read for the first time is taken to hold the value the trace started with. */
  function RenameSource(g: Config, c: Core, r: nat): (d: Core)
    requires Shaped(g, c) && r < ARCH_REGS && (c.regs.frontend[r] < 0 ==> c.regs.free != [])
    ensures Shaped(g, d) && d.rob == c.rob && d.program == c.program && d.retired == c.retired && d.now == c.now
    ensures d.regs == RenameSrc(c.regs, r)
  {
    var d := c.(regs := RenameSrc(c.regs, r),
       values := if c.regs.frontend[r] < 0 then c.values[c.regs.free[0] := g.initial[r]] else c.values);
    d
  }

  function RenameSources(g: Config, c: Core, srcs: seq<nat>): (d: Core)
    requires Shaped(g, c) && forall j :: 0 <= j < |srcs| ==> srcs[j] < ARCH_REGS
    requires Unmapped(c.regs, srcs) <= |c.regs.free|
    ensures Shaped(g, d) && d.rob == c.rob && d.program == c.program && d.retired == c.retired && d.now == c.now
    ensures d.regs == RenameSrcs(c.regs, srcs)
  {
    if srcs == [] then c
    else RenameSource(g, RenameSources(g, c, srcs[..|srcs| - 1]), srcs[|srcs| - 1])
  }

  function Lookup(m: seq<int>, names: seq<nat>): seq<int>
    requires forall j :: 0 <= j < |names| ==> names[j] < |m|
  {
    seq(|names|, k requires 0 <= k < |names| => m[names[k]])
  }

  /** Free registers that the schedule loop asks for before it looks at an entry. For an entry that
      is already scheduled the table is indexed with physical ids, so the answer is arbitrary. */
  function Needed(g: Config, c: Core, i: nat, stale: int -> bool): nat
    requires Shaped(g, c) && i < |c.rob|
  {
    var e := c.rob[i];
    (if e.scheduled then StaleUnmapped(e.srcs, stale) else Unmapped(c.regs, c.program[c.retired + i].srcs)) + |e.dsts|
  }

  function StaleUnmapped(srcs: seq<int>, stale: int -> bool): nat {
    if srcs == [] then 0
    else StaleUnmapped(srcs[..|srcs| - 1], stale) + if stale(srcs[|srcs| - 1]) then 0 else 1
  }

  /** Overwrites the names of an entry whose sources are all mapped, taking new destinations. */
  function Attach(g: Config, b: Core, i: nat): (d: Core)
    requires Shaped(g, b) && i < |b.rob| && !b.rob[i].scheduled
    requires var p := b.program[b.retired + i];
      |p.dsts| <= |b.regs.free| && forall j :: 0 <= j < |p.srcs| ==> b.regs.frontend[p.srcs[j]] >= 0
    ensures Shaped(g, d) && |d.rob| == |b.rob|
  {
    var p := b.program[b.retired + i];
    var e := b.rob[i].(srcs := Lookup(b.regs.frontend, p.srcs), dsts := b.regs.free[..|p.dsts|], scheduled := true);
    assert EntryFits(e, p, |b.regs.file|);
    b.(regs := RenameDests(b.regs, p.dsts, e.id), rob := b.rob[i := e])
  }

  /** Enough free registers for an unscheduled entry. */
  predicate Affordable(g: Config, c: Core, i: nat) {
    && Shaped(g, c) && i < |c.rob| && !c.rob[i].scheduled
    && Unmapped(c.regs, c.program[c.retired + i].srcs) + |c.rob[i].dsts| <= |c.regs.free|
  }

  function ScheduleEntry(g: Config, c: Core, i: nat): (d: Core)
    requires Affordable(g, c, i)
    ensures Shaped(g, d) && |d.rob| == |c.rob|
  {
    Attach(g, RenameSources(g, c, c.program[c.retired + i].srcs), i)
  }

  predicate StillScheduled(before: seq<Entry>, after: seq<Entry>) {
    |before| == |after| && forall k :: 0 <= k < |before| && before[k].scheduled ==> after[k].scheduled
  }

  /** One turn of the schedule loop, once the free registers have been found sufficient. */
  function ScheduleTurn(g: Config, c: Core, i: nat): (d: Core)
    requires Shaped(g, c) && i < |c.rob|
    requires !c.rob[i].scheduled ==> Affordable(g, c, i)
    ensures Shaped(g, d) && StillScheduled(c.rob, d.rob)
  {
    if !c.rob[i].scheduled && c.rob[i].ready <= c.now then ScheduleEntry(g, c, i) else c
  }

  function ScheduleStage(g: Config, c: Core, i: nat, bw: nat, stale: int -> bool): (d: Core)
    requires Shaped(g, c) && i <= |c.rob|
    ensures Shaped(g, d) && StillScheduled(c.rob, d.rob)
    decreases |c.rob| - i
  {
    if i == |c.rob| || bw == 0 || |c.regs.free| < Needed(g, c, i, stale) then c
    else
      var d := ScheduleTurn(g, c, i);
      ScheduleStage(g, d, i + 1, if d.rob[i].executed then bw else bw - 1, stale)
  }

  function DispatchOne(g: Config, c: Core, p: Instr): (d: Core)
    requires Shaped(g, c) && Legal(p)
    ensures Shaped(g, d)
  {
    var d := c.(rob := c.rob + [Entry(p.id, p.srcs, p.dsts, c.now + g.schedulingLatency, false, false, false, [])],
       program := c.program + [p]);
    d
  }

  function DispatchStage(g: Config, c: Core, ps: seq<Instr>): (d: Core)
    requires Shaped(g, c) && forall k :: 0 <= k < |ps| ==> Legal(ps[k])
    ensures Shaped(g, d)
    decreases |ps|
  {
    if ps == [] then c else DispatchStage(g, DispatchOne(g, c, ps[0]), ps[1..])
  }

  predicate Admissible(c: Core, x: Input) {
    c.now <= x.now && forall k :: 0 <= k < |x.arrivals| ==> Legal(x.arrivals[k])
  }

  function Tick(g: Config, c: Core, now: int): (d: Core)
    requires Shaped(g, c)
    ensures Shaped(g, d)
  {
    c.(now := now)
  }

  /** One call of operate(). */
  function Cycle(g: Config, c: Core, x: Input): (d: Core)
    requires Shaped(g, c) && Admissible(c, x)
    ensures Shaped(g, d)
  {
    var c0 := Tick(g, c, x.now);
    var c1 := RetireStage(g, c0);
    var c2 := CompleteStage(g, c1, 0, g.execWidth, x.memoryDone);
    var c3 := ExecuteStage(g, c2, 0, g.execWidth);
    var c4 := ScheduleStage(g, c3, 0, g.schedulerSize, x.stale);
    DispatchStage(g, c4, x.arrivals)
  }

  lemma {:induction false} UnmappedPrefix(a: Registers, srcs: seq<nat>, j: nat)
    requires WellFormed(a) && j <= |srcs| && forall k :: 0 <= k < |srcs| ==> srcs[k] < ARCH_REGS
    ensures Unmapped(a, srcs[..j]) <= Unmapped(a, srcs)
  {
    if j < |srcs| {
      assert srcs[..|srcs| - 1][..j] == srcs[..j];
      UnmappedPrefix(a, srcs[..|srcs| - 1], j);
    } else {
      assert srcs[..j] == srcs;
    }
  }

  /** The free queue does not run out between the sources of one instruction. */
  lemma NextSourceFits(g: Config, c: Core, srcs: seq<nat>, j: nat)
    requires Shaped(g, c) && j < |srcs| && forall k :: 0 <= k < |srcs| ==> srcs[k] < ARCH_REGS
    requires Unmapped(c.regs, srcs) <= |c.regs.free|
    ensures Unmapped(c.regs, srcs[..j]) <= |c.regs.free| && Unmapped(c.regs, srcs[..j + 1]) <= |c.regs.free|
    ensures var d := RenameSources(g, c, srcs[..j]);
      && (d.regs.frontend[srcs[j]] < 0 ==> d.regs.free != [])
      && RenameSources(g, c, srcs[..j + 1]) == RenameSource(g, d, srcs[j])
  {
    UnmappedPrefix(c.regs, srcs, j);
    UnmappedPrefix(c.regs, srcs, j + 1);
    assert srcs[..j + 1][..j] == srcs[..j];
  }

  lemma NoSources(g: Config, c: Core, srcs: seq<nat>)
    requires Shaped(g, c)
    ensures Unmapped(c.regs, srcs[..0]) == 0 && RenameSources(g, c, srcs[..0]) == c
  {
  }

  lemma NextDestination(a: Registers, names: seq<nat>, id: nat, j: nat)
    requires WellFormed(a) && j < |names| <= |a.free| && forall k :: 0 <= k < |names| ==> names[k] < ARCH_REGS
    ensures RenameDests(a, names[..j + 1], id) == RenameDest(RenameDests(a, names[..j], id), names[j], id)
  {
    assert names[..j + 1][..j] == names[..j];
  }

  lemma NoDestinations(a: Registers, names: seq<nat>, id: nat)
    requires WellFormed(a)
    ensures RenameDests(a, names[..0], id) == a
  {
  }

  /** The reorder buffer and its stages. The fields values, program and retired are the history that
      the model adds. */
  class OutOfOrderCpu {
    const retireWidth: nat
    const execWidth: nat
    const schedulerSize: nat
    const schedulingLatency: nat
    const execLatency: nat
    const regAllocator: RegisterAllocator
    const effect: (Instr, nat, seq<int>) -> int
    const initial: seq<int>

    var now: int
    var rob: seq<Entry>
    var values: seq<int>
    var program: seq<Instr>
    var retired: nat

    function Params(): Config {
      Config(retireWidth, execWidth, schedulerSize, schedulingLatency, execLatency, effect, initial)
    }

    ghost function View(): Core
      reads this, regAllocator
    {
      Core(now, regAllocator.View(), rob, values, program, retired)
    }

    ghost predicate Valid()
      reads this, regAllocator
    {
      Shaped(Params(), View())
    }

    constructor (g: Config, physical: nat)
      requires |g.initial| == ARCH_REGS
      ensures Params() == g && View() == Start(g, physical) && fresh(regAllocator)
    {
      retireWidth, execWidth, schedulerSize := g.retireWidth, g.execWidth, g.schedulerSize;
      schedulingLatency, execLatency := g.schedulingLatency, g.execLatency;
      effect, initial := g.effect, g.initial;
      regAllocator := new RegisterAllocator(physical);
      now, rob := 0, [];
      values, program, retired := seq(physical, _ => 0), [], 0;
    }

    method RetireRob()
      requires Valid()
      modifies this, regAllocator
      ensures View() == RetireStage(Params(), old(View()))
    {
      var count := CountCompleted();
      CommitHeads(count);
      rob := rob[count..];
    }

    method CountCompleted() returns (count: nat)
      ensures count == CompletedSpan(rob, retireWidth)
    {
      count := 0;
      assert rob[0..] == rob;
      while count < |rob| && count < retireWidth && rob[count].completed
        invariant count <= |rob| && count <= retireWidth
        invariant CompletedSpan(rob, retireWidth) == count + CompletedSpan(rob[count..], retireWidth - count)
      {
        assert rob[count..][1..] == rob[count + 1..];
        count := count + 1;
      }
    }

    method CommitHeads(count: nat)
      requires Valid() && count <= |rob| && forall k :: 0 <= k < count ==> rob[k].completed
      modifies this`retired, regAllocator
      ensures Tail(count) == RetireMany(Params(), old(View()), count)
    {
      var i := 0;
      assert Tail(0) == View();
      while i < count
        invariant 0 <= i <= count
        invariant Tail(i) == RetireMany(Params(), old(View()), i)
      {
        CommitHead(i);
        i := i + 1;
      }
    }

    /** The core without the first i entries, which are committed but not erased yet. */
    ghost function Tail(i: nat): Core
      requires i <= |rob|
      reads this, regAllocator
    {
      View().(rob := rob[i..])
    }

    method CommitHead(i: nat)
      requires i < |rob| && Shaped(Params(), Tail(i)) && rob[i].completed
      modifies this`retired, regAllocator
      ensures Tail(i + 1) == RetireHead(Params(), old(Tail(i)))
    {
      assert Tail(i).rob[0] == rob[i] && rob[i..][1..] == rob[i + 1..];
      RetireDestinations(rob[i].dsts);
      retired := retired + 1;
    }

    method RetireDestinations(dsts: seq<int>)
      requires WellFormed(regAllocator.View()) && InFile(dsts, |regAllocator.file|)
      modifies regAllocator
      ensures regAllocator.View() == RetireAll(old(regAllocator.View()), dsts)
    {
      var j := 0;
      while j < |dsts|
        invariant 0 <= j <= |dsts|
        invariant regAllocator.View() == RetireAll(old(regAllocator.View()), dsts[..j])
      {
        assert dsts[..j + 1][..j] == dsts[..j];
        regAllocator.RetireDestRegister(dsts[j]);
        j := j + 1;
      }
      assert dsts[..j] == dsts;
    }

    method CompleteInflightInstruction(memoryDone: set<nat>)
      requires Valid()
      modifies this, regAllocator
      ensures View() == CompleteStage(Params(), old(View()), 0, execWidth, memoryDone)
    {
      hide CompleteEntry;
      ghost var start := View();
      var i, bw := 0, execWidth;
      while i < |rob| && bw > 0
        invariant 0 <= i <= |rob| && Valid()
        invariant CompleteStage(Params(), View(), i, bw, memoryDone)
            == CompleteStage(Params(), start, 0, execWidth, memoryDone)
      {
        if rob[i].executed && !rob[i].completed && rob[i].ready <= now && rob[i].id in memoryDone {
          DoCompleteExecution(i);
          bw := bw - 1;
        }
        i := i + 1;
      }
    }

    method DoCompleteExecution(i: nat)
      requires Valid() && i < |rob| && rob[i].executed
      modifies this, regAllocator
      ensures View() == CompleteEntry(Params(), old(View()), i)
    {
      CompleteDestinations(rob[i].dsts);
      values := Assign(values, rob[i].dsts, Results(Params(), program[retired + i], rob[i].operands));
      rob := rob[i := rob[i].(completed := true)];
    }

    method CompleteDestinations(dsts: seq<int>)
      requires WellFormed(regAllocator.View()) && InFile(dsts, |regAllocator.file|)
      modifies regAllocator
      ensures regAllocator.View() == CompleteAll(old(regAllocator.View()), dsts)
    {
      var j := 0;
      while j < |dsts|
        invariant 0 <= j <= |dsts|
        invariant regAllocator.View() == CompleteAll(old(regAllocator.View()), dsts[..j])
      {
        assert dsts[..j + 1][..j] == dsts[..j];
        regAllocator.CompleteDestRegister(dsts[j]);
        j := j + 1;
      }
      assert dsts[..j] == dsts;
    }

    method ExecuteInstruction()
      requires Valid()
      modifies this
      ensures View() == ExecuteStage(Params(), old(View()), 0, execWidth)
    {
      hide ExecuteEntry;
      ghost var start := View();
      var i, bw := 0, execWidth;
      while i < |rob| && bw > 0
        invariant 0 <= i <= |rob| && Valid()
        invariant ExecuteStage(Params(), View(), i, bw) == ExecuteStage(Params(), start, 0, execWidth)
      {
        if rob[i].scheduled && !rob[i].executed && rob[i].ready <= now {
          var ready, k := true, 0;
          while k < |rob[i].srcs|
            invariant 0 <= k <= |rob[i].srcs| && InFile(rob[i].srcs, |regAllocator.file|)
            invariant ready <==> forall l :: 0 <= l < k ==> regAllocator.file[rob[i].srcs[l]].valid
          {
            ready := ready && regAllocator.file[rob[i].srcs[k]].valid;
            k := k + 1;
          }
          if ready {
            DoExecution(i);
            bw := bw - 1;
          }
        }
        i := i + 1;
      }
    }

    method DoExecution(i: nat)
      requires Valid() && i < |rob| && rob[i].scheduled
      modifies this
      ensures View() == ExecuteEntry(Params(), old(View()), i)
    {
      rob := rob[i := rob[i].(executed := true, ready := now + execLatency, operands := Read(values, rob[i].srcs))];
    }

    method ScheduleInstruction(stale: int -> bool)
      requires Valid()
      modifies this, regAllocator
      ensures View() == ScheduleStage(Params(), old(View()), 0, schedulerSize, stale)
    {
      hide ScheduleTurn, Needed, WellFormed;
      var i, bw, stop := 0, schedulerSize, false;
      while i < |rob| && bw > 0 && !stop
        invariant 0 <= i <= |rob| && Valid()
        invariant (if stop then View() else ScheduleStage(Params(), View(), i, bw, stale))
               == ScheduleStage(Params(), old(View()), 0, schedulerSize, stale)
        decreases !stop, |rob| - i
      {
        stop := ScheduleNext(i, stale);
        if !stop {
          bw := if rob[i].executed then bw else bw - 1;
          i := i + 1;
        }
      }
    }

    /** Looks at one entry, and stops when there are not enough free registers for it. */
    method ScheduleNext(i: nat, stale: int -> bool) returns (stop: bool)
      requires Valid() && i < |rob|
      modifies this, regAllocator
      ensures stop <==> |old(View()).regs.free| < Needed(Params(), old(View()), i, stale)
      ensures stop ==> View() == old(View())
      ensures !stop ==> View() == ScheduleTurn(Params(), old(View()), i)
    {
      var sourcesToAllocate := CountSources(i, stale);
      stop := |regAllocator.free| < sourcesToAllocate + |rob[i].dsts|;
      if !stop {
        ScheduleIfReady(i);
      }
    }

    method ScheduleIfReady(i: nat)
      requires Valid() && i < |rob|
      requires !rob[i].scheduled ==> Affordable(Params(), View(), i)
      modifies this, regAllocator
      ensures View() == ScheduleTurn(Params(), old(View()), i)
    {
      if !rob[i].scheduled && rob[i].ready <= now {
        DoScheduling(i);
      }
    }

    method CountSources(i: nat, stale: int -> bool) returns (k: nat)
      requires Valid() && i < |rob|
      ensures k + |rob[i].dsts| == Needed(Params(), View(), i, stale)
    {
      var srcs := rob[i].srcs;
      k := 0;
      var j := 0;
      while j < |srcs|
        invariant 0 <= j <= |srcs|
        invariant k == if rob[i].scheduled then StaleUnmapped(srcs[..j], stale)
                       else Unmapped(View().regs, program[retired + i].srcs[..j])
      {
        assert srcs[..j + 1][..j] == srcs[..j];
        assert program[retired + i].srcs[..j + 1][..j] == program[retired + i].srcs[..j];
        var mapped := if rob[i].scheduled then stale(srcs[j]) else regAllocator.frontend[srcs[j]] >= 0;
        if !mapped { k := k + 1; }
        j := j + 1;
      }
      assert srcs[..j] == srcs;
      assert program[retired + i].srcs[..j] == program[retired + i].srcs;
    }

    method DoScheduling(i: nat)
      requires Affordable(Params(), View(), i)
      modifies this, regAllocator
      ensures View() == ScheduleEntry(Params(), old(View()), i)
    {
      hide RenameSources, RenameDests, WellFormed, InFile;
      var srcs := RenameSourceList(program[retired + i].srcs);
      var dsts := RenameDestinationList(program[retired + i].dsts, rob[i].id);
      rob := rob[i := rob[i].(srcs := srcs, dsts := dsts, scheduled := true)];
    }

    method RenameSourceList(names: seq<nat>) returns (srcs: seq<int>)
      requires Valid() && forall k :: 0 <= k < |names| ==> names[k] < ARCH_REGS
      requires Unmapped(View().regs, names) <= |regAllocator.free|
      modifies this`values, regAllocator
      ensures View() == RenameSources(Params(), old(View()), names)
      ensures srcs == Lookup(regAllocator.frontend, names)
    {
      hide RenameSource, RenameSrc, RenameSrcs, RenameSources, Unmapped, EntryFits, Legal;
      srcs := [];
      var j := 0;
      NoSources(Params(), View(), names);
      while j < |names|
        invariant 0 <= j <= |names| && Unmapped(old(View()).regs, names[..j]) <= |old(View()).regs.free|
        invariant View() == RenameSources(Params(), old(View()), names[..j])
        invariant |srcs| == j && forall k :: 0 <= k < j ==> srcs[k] == regAllocator.frontend[names[k]] >= 0
      {
        NextSourceFits(Params(), old(View()), names, j);
        ghost var before := regAllocator.frontend;
        var phys := RenameOneSource(names[j]);
        forall k | 0 <= k < j ensures regAllocator.frontend[names[k]] == srcs[k] { assert before[names[k]] >= 0; }
        srcs := srcs + [phys];
        j := j + 1;
      }
      assert names[..j] == names;
    }

    method RenameOneSource(r: nat) returns (phys: int)
      requires Valid() && r < ARCH_REGS && (regAllocator.frontend[r] < 0 ==> regAllocator.free != [])
      modifies this`values, regAllocator
      ensures View() == RenameSource(Params(), old(View()), r) && phys == regAllocator.frontend[r] >= 0
      ensures forall q :: 0 <= q < ARCH_REGS && old(regAllocator.frontend)[q] >= 0 ==>
        regAllocator.frontend[q] == old(regAllocator.frontend)[q]
    {
      if regAllocator.frontend[r] < 0 {
        values := values[regAllocator.free[0] := initial[r]];
      }
      phys := regAllocator.RenameSrcRegister(r);
    }

    method RenameDestinationList(names: seq<nat>, id: nat) returns (dsts: seq<int>)
      requires WellFormed(regAllocator.View()) && forall k :: 0 <= k < |names| ==> names[k] < ARCH_REGS
      requires |names| <= |regAllocator.free|
      modifies regAllocator
      ensures regAllocator.View() == RenameDests(old(regAllocator.View()), names, id)
      ensures dsts == old(regAllocator.free)[..|names|]
    {
      hide RenameDests;
      dsts := names;
      var j := 0;
      NoDestinations(old(regAllocator.View()), names, id);
      while j < |names|
        invariant 0 <= j <= |names| == |dsts|
        invariant regAllocator.View() == RenameDests(old(regAllocator.View()), names[..j], id)
        invariant forall k :: 0 <= k < j ==> dsts[k] == old(regAllocator.free)[k]
        invariant forall k :: j <= k < |names| ==> dsts[k] == names[k]
      {
        NextDestination(old(regAllocator.View()), names, id, j);
        var phys := regAllocator.RenameDestRegister(dsts[j], id);
        dsts := dsts[j := phys];
        j := j + 1;
      }
      assert names[..j] == names;
    }

    method DispatchInstruction(arrivals: seq<Instr>)
      requires Valid() && forall k :: 0 <= k < |arrivals| ==> Legal(arrivals[k])
      modifies this
      ensures View() == DispatchStage(Params(), old(View()), arrivals)
    {
      ghost var start := View();
      var k := 0;
      while k < |arrivals|
        invariant 0 <= k <= |arrivals| && Valid()
        invariant DispatchStage(Params(), View(), arrivals[k..]) == DispatchStage(Params(), start, arrivals)
      {
        assert arrivals[k..][0] == arrivals[k] && arrivals[k..][1..] == arrivals[k + 1..];
        PushBack(arrivals[k]);
        k := k + 1;
      }
    }

    method PushBack(p: Instr)
      requires Valid() && Legal(p)
      modifies this
      ensures View() == DispatchOne(Params(), old(View()), p)
    {
      rob := rob + [Entry(p.id, p.srcs, p.dsts, now + schedulingLatency, false, false, false, [])];
      program := program + [p];
    }

    /** The register side of operate(), stage by stage in its order. */
    method Operate(x: Input)
      requires Valid() && Admissible(View(), x)
      modifies this, regAllocator
      ensures View() == Cycle(Params(), old(View()), x) && Valid()
    {
      now := x.now;
      assert View() == Tick(Params(), old(View()), x.now);
      RetireRob();
      CompleteInflightInstruction(x.memoryDone);
      ExecuteInstruction();
      ScheduleInstruction(x.stale);
      DispatchInstruction(x.arrivals);
    }
  }
}
