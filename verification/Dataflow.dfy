/** Out-of-order runs compute what the program computes in order. */
module Dataflow {
  import opened Counting
  import opened RegisterRenaming
  import opened OutOfOrderCore

  // The reference: execute the program one instruction at a time.

  /** The architectural registers after the first n instructions, in program order. */
  function Sequential(g: Config, program: seq<Instr>, n: nat): (regs: seq<int>)
    requires |g.initial| == ARCH_REGS && n <= |program|
    requires forall k :: 0 <= k < |program| ==> Legal(program[k])
    ensures |regs| == ARCH_REGS
  {
    if n == 0 then g.initial
    else
      var regs := Sequential(g, program, n - 1);
      Assign(regs, program[n - 1].dsts, Results(g, program[n - 1], Lookup(regs, program[n - 1].srcs)))
  }

  function SequentialOperands(g: Config, program: seq<Instr>, n: nat): seq<int>
    requires |g.initial| == ARCH_REGS && n < |program|
    requires forall k :: 0 <= k < |program| ==> Legal(program[k])
  {
    Lookup(Sequential(g, program, n), program[n].srcs)
  }

  lemma {:induction false} SequentialPrefix(g: Config, program: seq<Instr>, p: Instr, n: nat)
    requires |g.initial| == ARCH_REGS && n <= |program| && Legal(p)
    requires forall k :: 0 <= k < |program| ==> Legal(program[k])
    ensures Sequential(g, program + [p], n) == Sequential(g, program, n)
  {
    if n > 0 { SequentialPrefix(g, program, p, n - 1); }
  }

  // The invariant.

  /** The alias table as it stands before entry i of the reorder buffer: the committed mappings
      overwritten by the destinations of the older entries. */
  function TableBefore(g: Config, c: Core, i: nat): (m: seq<int>)
    requires Shaped(g, c) && i <= |c.rob| && forall k :: 0 <= k < i ==> c.rob[k].scheduled
    ensures |m| == ARCH_REGS && forall r :: 0 <= r < ARCH_REGS ==> UNMAPPED <= m[r] < |c.regs.file|
  {
    if i == 0 then c.regs.backend
    else
      var before, names, ps := TableBefore(g, c, i - 1), c.program[c.retired + i - 1].dsts, c.rob[i - 1].dsts;
      assert forall r :: 0 <= r < ARCH_REGS ==> UNMAPPED <= Assign(before, names, ps)[r] < |c.regs.file| by {
        forall r | 0 <= r < ARCH_REGS ensures UNMAPPED <= Assign(before, names, ps)[r] < |c.regs.file| {
          AssignFrom(before, names, ps, r);
        }
      }
      Assign(before, names, ps)
  }

  /** Destinations of the first n entries that are register q. */
  function InFlight(rob: seq<Entry>, n: nat, q: int): nat
    requires n <= |rob|
  {
    if n == 0 then 0 else InFlight(rob, n - 1, q) + Count(rob[n - 1].dsts, q)
  }

  /** Exactly the first n entries are scheduled, and the others become ready in order. */
  predicate ScheduledPrefix(g: Config, c: Core, n: nat) {
    && n <= |c.rob|
    && (forall i :: 0 <= i < |c.rob| ==> (c.rob[i].scheduled <==> i < n))
    && (forall i :: n <= i < |c.rob| ==> c.rob[i].ready <= c.now + g.schedulingLatency)
    && (forall i, j :: n <= i < j < |c.rob| ==> c.rob[i].ready <= c.rob[j].ready)
  }

  /** Every physical register is in exactly one place: the committed table, the destination of one
      entry, or the free queue. */
  ghost predicate Partitioned(c: Core, n: nat)
    requires n <= |c.rob|
  {
    forall q :: 0 <= q < |c.regs.file| ==>
      Count(c.regs.backend, q) + Count(c.regs.free, q) + InFlight(c.rob, n, q) == 1
  }

  predicate CommittedOk(g: Config, c: Core, r: nat)
    requires Shaped(g, c) && r < ARCH_REGS
  {
    var p := c.regs.backend[r];
    if p < 0 then Sequential(g, c.program, c.retired)[r] == g.initial[r]
    else c.regs.file[p].arch == r && c.regs.file[p].valid && c.values[p] == Sequential(g, c.program, c.retired)[r]
  }

  predicate DestinationOk(g: Config, c: Core, i: nat, j: nat)
    requires Shaped(g, c) && i < |c.rob| && c.rob[i].scheduled && j < |c.rob[i].dsts|
  {
    var p, k := c.rob[i].dsts[j], c.retired + i;
    && c.regs.file[p].arch == c.program[k].dsts[j]
    && (c.regs.file[p].valid <==> c.rob[i].completed)
    && (c.rob[i].completed ==> c.values[p] == g.effect(c.program[k], j, SequentialOperands(g, c.program, k)))
  }

  predicate SourcesOk(g: Config, c: Core, i: nat)
    requires Shaped(g, c) && i < |c.rob| && forall k :: 0 <= k <= i ==> c.rob[k].scheduled
  {
    && c.rob[i].srcs == Lookup(TableBefore(g, c, i), c.program[c.retired + i].srcs)
    && (c.rob[i].executed ==> c.rob[i].operands == SequentialOperands(g, c.program, c.retired + i))
  }

  ghost predicate InvAt(g: Config, c: Core, n: nat) {
    match c
    case Core(_, regs, rob, _, _, _) =>
      && Shaped(g, c) && ScheduledPrefix(g, c, n) && Partitioned(c, n)
      && regs.frontend == TableBefore(g, c, n)
      && (forall r :: 0 <= r < ARCH_REGS ==> CommittedOk(g, c, r))
      && (forall i, j :: 0 <= i < n && 0 <= j < |rob[i].dsts| ==> DestinationOk(g, c, i, j))
      && (forall i :: 0 <= i < n ==> SourcesOk(g, c, i))
  }

  // Facts about tables.

  lemma {:induction false} TableFrame(g: Config, c: Core, d: Core, i: nat)
    requires Shaped(g, c) && Shaped(g, d) && i <= |c.rob| <= |d.rob|
    requires forall k :: 0 <= k < i ==> c.rob[k].scheduled && d.rob[k].scheduled && c.rob[k].dsts == d.rob[k].dsts
    requires c.regs.backend == d.regs.backend && c.retired == d.retired && c.program <= d.program
    ensures TableBefore(g, d, i) == TableBefore(g, c, i)
  {
    if i > 0 { TableFrame(g, c, d, i - 1); }
  }

  lemma {:induction false} InFlightFrame(rob: seq<Entry>, rob2: seq<Entry>, n: nat, q: int)
    requires n <= |rob| && n <= |rob2| && forall k :: 0 <= k < n ==> rob[k].dsts == rob2[k].dsts
    ensures InFlight(rob, n, q) == InFlight(rob2, n, q)
  {
    if n > 0 { InFlightFrame(rob, rob2, n - 1, q); }
  }

  lemma {:induction false} InFlightAt(rob: seq<Entry>, n: nat, i: nat, q: int)
    requires i < n <= |rob|
    ensures InFlight(rob, n, q) >= InFlight(rob, i, q) + Count(rob[i].dsts, q)
    ensures InFlight(rob, n, q) >= Count(rob[i].dsts, q)
  {
    if i < n - 1 { InFlightAt(rob, n - 1, i, q); }
  }

  lemma {:induction false} InFlightTwo(rob: seq<Entry>, n: nat, i: nat, j: nat, q: int)
    requires i < j < n <= |rob|
    ensures InFlight(rob, n, q) >= Count(rob[i].dsts, q) + Count(rob[j].dsts, q)
  {
    InFlightAt(rob, n, j, q);
    InFlightAt(rob, j, i, q);
  }

  lemma {:induction false} InFlightTail(rob: seq<Entry>, n: nat, q: int)
    requires 0 < n <= |rob|
    ensures InFlight(rob, n, q) == Count(rob[0].dsts, q) + InFlight(rob[1..], n - 1, q)
  {
    if n > 1 { InFlightTail(rob, n - 1, q); }
  }

  /** A mapping in force before entry i is committed or the destination of an older entry. */
  lemma {:induction false} TableOwned(g: Config, c: Core, i: nat, r: nat)
    requires Shaped(g, c) && i <= |c.rob| && r < ARCH_REGS && forall k :: 0 <= k < i ==> c.rob[k].scheduled
    requires TableBefore(g, c, i)[r] >= 0
    ensures Count(c.regs.backend, TableBefore(g, c, i)[r]) + InFlight(c.rob, i, TableBefore(g, c, i)[r]) >= 1
  {
    var p := TableBefore(g, c, i)[r];
    if i == 0 {
      CountIn(c.regs.backend, p);
    } else {
      var names, ps, m := c.program[c.retired + i - 1].dsts, c.rob[i - 1].dsts, TableBefore(g, c, i - 1);
      if r in names {
        var j := LastIndex(names, r);
        AssignLast(m, names, ps, j);
        CountIn(ps, p);
      } else {
        AssignOther(m, names, ps, r, p);
        TableOwned(g, c, i - 1, r);
      }
    }
  }

  /** A valid mapping in force before entry i holds the program-order value. */
  lemma {:induction false} TableValue(g: Config, c: Core, n: nat, i: nat, r: nat)
    requires InvAt(g, c, n) && i <= n && r < ARCH_REGS
    requires TableBefore(g, c, i)[r] >= 0 && c.regs.file[TableBefore(g, c, i)[r]].valid
    ensures c.values[TableBefore(g, c, i)[r]] == Sequential(g, c.program, c.retired + i)[r]
  {
    if i == 0 {
      assert CommittedOk(g, c, r);
    } else {
      var k := c.retired + i - 1;
      var names, ps, m := c.program[k].dsts, c.rob[i - 1].dsts, TableBefore(g, c, i - 1);
      var before := Sequential(g, c.program, k);
      var results := Results(g, c.program[k], Lookup(before, c.program[k].srcs));
      if r in names {
        var j := LastIndex(names, r);
        assert DestinationOk(g, c, i - 1, j);
        hide InvAt, WellFormed;
        AssignLast(m, names, ps, j);
        AssignLast(before, names, results, j);
      } else {
        hide WellFormed;
        AssignOther(m, names, ps, r, 0);
        AssignOther(before, names, results, r, 0);
        TableValue(g, c, n, i - 1, r);
      }
    }
  }

  /** Mapping a name that nothing in flight writes changes every table in the same way. */
  lemma {:induction false} TableSeed(g: Config, c: Core, d: Core, i: nat, r: nat, p: nat)
    requires Shaped(g, c) && Shaped(g, d) && i <= |c.rob| && r < ARCH_REGS
    requires forall k :: 0 <= k < i ==> c.rob[k].scheduled
    requires d.rob == c.rob && d.program == c.program && d.retired == c.retired
    requires d.regs.backend == c.regs.backend[r := p] && |d.regs.file| == |c.regs.file|
    requires TableBefore(g, c, i)[r] < 0
    ensures TableBefore(g, d, i) == TableBefore(g, c, i)[r := p]
    ensures c.regs.backend[r] < 0
  {
    if i > 0 {
      var names, ps, m := c.program[c.retired + i - 1].dsts, c.rob[i - 1].dsts, TableBefore(g, c, i - 1);
      if r in names { AssignLast(m, names, ps, LastIndex(names, r)); }
      AssignOther(m, names, ps, r, p);
      TableSeed(g, c, d, i - 1, r, p);
    }
  }

  lemma {:induction false} TableUnmapped(g: Config, c: Core, n: nat, i: nat, r: nat)
    requires Shaped(g, c) && i <= n <= |c.rob| && r < ARCH_REGS
    requires forall k :: 0 <= k < n ==> c.rob[k].scheduled
    requires TableBefore(g, c, n)[r] < 0
    ensures TableBefore(g, c, i)[r] < 0
  {
    if i < n {
      var names, ps, m := c.program[c.retired + n - 1].dsts, c.rob[n - 1].dsts, TableBefore(g, c, n - 1);
      if r in names { AssignLast(m, names, ps, LastIndex(names, r)); }
      AssignOther(m, names, ps, r, 0);
      TableUnmapped(g, c, n - 1, i, r);
    }
  }

  // Facts about ownership.

  /** A free register is listed once and is nobody's mapping. */
  lemma FreeIsUnowned(g: Config, c: Core, n: nat, p: int)
    requires Shaped(g, c) && n <= |c.rob| && Partitioned(c, n) && p in c.regs.free
    ensures Count(c.regs.free, p) == 1 && p !in c.regs.backend
    ensures forall i :: 0 <= i < n ==> p !in c.rob[i].dsts
  {
    CountIn(c.regs.free, p);
    CountIn(c.regs.backend, p);
    forall i | 0 <= i < n ensures p !in c.rob[i].dsts {
      InFlightAt(c.rob, n, i, p);
      CountIn(c.rob[i].dsts, p);
    }
  }

  /** A destination in flight is held by one entry, in one position, and is not committed. */
  lemma DestinationIsUnique(g: Config, c: Core, n: nat, i: nat, j: nat)
    requires Shaped(g, c) && n <= |c.rob| && Partitioned(c, n) && i < n && j < |c.rob[i].dsts|
    requires c.rob[i].scheduled
    ensures var p := c.rob[i].dsts[j];
      && p !in c.regs.backend && p !in c.regs.free && InFlight(c.rob, n, p) == 1
      && (forall k :: 0 <= k < n && k != i ==> p !in c.rob[k].dsts)
      && (forall k :: 0 <= k < |c.rob[i].dsts| && k != j ==> c.rob[i].dsts[k] != p)
  {
    var p := c.rob[i].dsts[j];
    CountIn(c.rob[i].dsts, p);
    InFlightAt(c.rob, n, i, p);
    CountIn(c.regs.backend, p);
    CountIn(c.regs.free, p);
    forall k | 0 <= k < n && k != i ensures p !in c.rob[k].dsts {
      if k < i { InFlightTwo(c.rob, n, k, i, p); } else { InFlightTwo(c.rob, n, i, k, p); }
      CountIn(c.rob[k].dsts, p);
    }
    forall k | 0 <= k < |c.rob[i].dsts| && k != j ensures c.rob[i].dsts[k] != p {
      if c.rob[i].dsts[k] == p { CountTwice(c.rob[i].dsts, if k < j then k else j, if k < j then j else k); }
    }
  }

  // Every step keeps the invariant.

  lemma RenameSourceKeeps(g: Config, c: Core, n: nat, r: nat)
    requires InvAt(g, c, n) && r < ARCH_REGS && (c.regs.frontend[r] < 0 ==> c.regs.free != [])
    ensures InvAt(g, RenameSource(g, c, r), n)
  {
    var d := RenameSource(g, c, r);
    if c.regs.frontend[r] < 0 {
      TableSeed(g, c, d, n, r, c.regs.free[0]);
      FreeIsUnowned(g, c, n, c.regs.free[0]);
      SeedPartition(g, c, n, r);
      forall k | 0 <= k < ARCH_REGS ensures CommittedOk(g, d, k) {
        assert CommittedOk(g, c, k);
      }
      forall i, j | 0 <= i < n && 0 <= j < |d.rob[i].dsts| ensures DestinationOk(g, d, i, j) {
        assert DestinationOk(g, c, i, j);
      }
      forall i | 0 <= i < n ensures SourcesOk(g, d, i) { SeedSources(g, c, n, r, i); }
    }
  }

  lemma SeedPartition(g: Config, c: Core, n: nat, r: nat)
    requires Shaped(g, c) && n <= |c.rob| && Partitioned(c, n)
    requires r < ARCH_REGS && c.regs.frontend[r] < 0 && c.regs.backend[r] < 0 && c.regs.free != []
    ensures Partitioned(RenameSource(g, c, r), n)
  {
    var d, p := RenameSource(g, c, r), c.regs.free[0];
    forall q | 0 <= q < |c.regs.file|
      ensures Count(d.regs.backend, q) + Count(d.regs.free, q) + InFlight(d.rob, n, q) == 1
    {
      CountUpdate(c.regs.backend, r, p, q);
      assert c.regs.free == [p] + c.regs.free[1..];
      CountConcat([p], c.regs.free[1..], q);
    }
  }

  lemma SeedSources(g: Config, c: Core, n: nat, r: nat, i: nat)
    requires InvAt(g, c, n) && i < n && r < ARCH_REGS && c.regs.frontend[r] < 0 && c.regs.free != []
    ensures SourcesOk(g, RenameSource(g, c, r), i)
  {
    var d := RenameSource(g, c, r);
    assert SourcesOk(g, c, i);
    TableUnmapped(g, c, n, i, r);
    TableSeed(g, c, d, i, r, c.regs.free[0]);
    var names := c.program[c.retired + i].srcs;
    forall k | 0 <= k < |names| ensures TableBefore(g, c, i)[names[k]] == TableBefore(g, d, i)[names[k]] {
      assert c.rob[i].srcs[k] == TableBefore(g, c, i)[names[k]];
    }
  }

  lemma {:induction false} RenameSourcesKeeps(g: Config, c: Core, n: nat, srcs: seq<nat>)
    requires Shaped(g, c) && InvAt(g, c, n) && forall j :: 0 <= j < |srcs| ==> srcs[j] < ARCH_REGS
    requires Unmapped(c.regs, srcs) <= |c.regs.free|
    ensures InvAt(g, RenameSources(g, c, srcs), n)
  {
    hide InvAt, Shaped, RenameSource;
    if srcs != [] {
      RenameSourcesKeeps(g, c, n, srcs[..|srcs| - 1]);
      RenameSourceKeeps(g, RenameSources(g, c, srcs[..|srcs| - 1]), n, srcs[|srcs| - 1]);
    }
  }

  predicate Attachable(g: Config, b: Core, n: nat) {
    && Shaped(g, b) && n < |b.rob| && !b.rob[n].scheduled
    && var p := b.program[b.retired + n];
    && |p.dsts| <= |b.regs.free| && forall j :: 0 <= j < |p.srcs| ==> b.regs.frontend[p.srcs[j]] >= 0
  }

  /** What attaching does to the tables, and that the registers it takes were free. */
  lemma AttachShape(g: Config, b: Core, n: nat)
    requires Attachable(g, b, n) && Partitioned(b, n)
    ensures var d, p, m := Attach(g, b, n), b.program[b.retired + n], |b.program[b.retired + n].dsts|;
      var ps := b.regs.free[..m];
      && d.rob[n].dsts == ps && d.regs.frontend == Assign(b.regs.frontend, p.dsts, ps)
      && (forall j :: 0 <= j < m ==> d.regs.file[ps[j]] == PhysicalRegister(p.dsts[j], p.id, false, true))
      && (forall q :: 0 <= q < |b.regs.file| && q !in b.regs.free ==> d.regs.file[q] == b.regs.file[q])
  {
    var free := b.regs.free;
    var p := b.program[b.retired + n];
    forall i, j | 0 <= i < j < |free| ensures free[i] != free[j] {
      if free[i] == free[j] {
        CountTwice(free, i, j);
        FreeIsUnowned(g, b, n, free[i]);
      }
    }
    hide Partitioned, Attachable;
    RenameDestsClosed(b.regs, p.dsts, p.id);
  }

  lemma AttachPartition(g: Config, b: Core, n: nat)
    requires Attachable(g, b, n) && Partitioned(b, n)
    ensures Partitioned(Attach(g, b, n), n + 1)
  {
    var d, free, m := Attach(g, b, n), b.regs.free, |b.program[b.retired + n].dsts|;
    assert d.rob[n].dsts == free[..m] && d.regs.free == free[m..] && d.regs.backend == b.regs.backend;
    assert forall k :: 0 <= k < n ==> d.rob[k] == b.rob[k];
    hide Attach, Attachable;
    forall q | 0 <= q < |b.regs.file|
      ensures Count(d.regs.backend, q) + Count(d.regs.free, q) + InFlight(d.rob, n + 1, q) == 1
    {
      assert free == free[..m] + free[m..];
      CountConcat(free[..m], free[m..], q);
      InFlightFrame(b.rob, d.rob, n, q);
    }
  }

  lemma AttachDestination(g: Config, b: Core, n: nat, i: nat, j: nat)
    requires InvAt(g, b, n) && Attachable(g, b, n)
    requires i <= n && j < |Attach(g, b, n).rob[i].dsts|
    ensures Attach(g, b, n).rob[i].scheduled && DestinationOk(g, Attach(g, b, n), i, j)
  {
    AttachShape(g, b, n);
    if i < n {
      assert DestinationOk(g, b, i, j);
      DestinationIsUnique(g, b, n, i, j);
    }
  }

  lemma AttachSources(g: Config, b: Core, n: nat, i: nat)
    requires InvAt(g, b, n) && Attachable(g, b, n) && i <= n
    ensures SourcesOk(g, Attach(g, b, n), i)
  {
    AttachTablesBefore(g, b, n, i);
    if i < n { assert SourcesOk(g, b, i); }
  }

  lemma AttachTablesBefore(g: Config, b: Core, n: nat, i: nat)
    requires Attachable(g, b, n) && i <= n && forall k :: 0 <= k < n ==> b.rob[k].scheduled
    ensures TableBefore(g, Attach(g, b, n), i) == TableBefore(g, b, i)
  {
    TableFrame(g, b, Attach(g, b, n), i);
  }

  lemma AttachCommitted(g: Config, b: Core, n: nat, r: nat)
    requires InvAt(g, b, n) && Attachable(g, b, n) && r < ARCH_REGS
    ensures CommittedOk(g, Attach(g, b, n), r)
  {
    AttachShape(g, b, n);
    assert CommittedOk(g, b, r);
    var q := b.regs.backend[r];
    if q in b.regs.free { FreeIsUnowned(g, b, n, q); }
  }

  lemma AttachPrefix(g: Config, b: Core, n: nat)
    requires Attachable(g, b, n) && ScheduledPrefix(g, b, n)
    ensures ScheduledPrefix(g, Attach(g, b, n), n + 1)
  {
  }

  lemma AttachTable(g: Config, b: Core, n: nat)
    requires Attachable(g, b, n) && ScheduledPrefix(g, b, n) && Partitioned(b, n)
    requires b.regs.frontend == TableBefore(g, b, n)
    ensures ScheduledPrefix(g, Attach(g, b, n), n + 1)
    ensures Attach(g, b, n).regs.frontend == TableBefore(g, Attach(g, b, n), n + 1)
  {
    AttachPrefix(g, b, n);
    AttachShape(g, b, n);
    AttachTablesBefore(g, b, n, n);
  }

  lemma AttachKeeps(g: Config, b: Core, n: nat)
    requires InvAt(g, b, n) && Attachable(g, b, n)
    ensures InvAt(g, Attach(g, b, n), n + 1)
  {
    var d := Attach(g, b, n);
    AttachPartition(g, b, n);
    AttachTable(g, b, n);
    forall k | 0 <= k < ARCH_REGS ensures CommittedOk(g, d, k) { AttachCommitted(g, b, n, k); }
    forall i, j | 0 <= i < n + 1 && 0 <= j < |d.rob[i].dsts|
      ensures DestinationOk(g, d, i, j)
    {
      AttachDestination(g, b, n, i, j);
    }
    forall i | 0 <= i < n + 1 ensures SourcesOk(g, d, i) { AttachSources(g, b, n, i); }
  }

  lemma SourcesAttachable(g: Config, c: Core, n: nat)
    requires Affordable(g, c, n)
    ensures Attachable(g, RenameSources(g, c, c.program[c.retired + n].srcs), n)
  {
    hide WellFormed, RenameSources, RenameSrcs;
  }

  lemma ScheduleEntryKeeps(g: Config, c: Core, n: nat)
    requires InvAt(g, c, n) && Affordable(g, c, n)
    ensures InvAt(g, ScheduleEntry(g, c, n), n + 1)
  {
    SourcesAttachable(g, c, n);
    SourcesKept(g, c, n);
    var b := RenameSources(g, c, c.program[c.retired + n].srcs);
    hide InvAt, Shaped, WellFormed, RenameSources, RenameSrcs, Attach, Attachable, Unmapped;
    AttachKeeps(g, b, n);
  }

  lemma SourcesKept(g: Config, c: Core, n: nat)
    requires InvAt(g, c, n) && Affordable(g, c, n)
    ensures InvAt(g, RenameSources(g, c, c.program[c.retired + n].srcs), n)
  {
    hide InvAt, WellFormed, RenameSources, RenameSrcs, Unmapped;
    RenameSourcesKeeps(g, c, n, c.program[c.retired + n].srcs);
  }

  /** An instruction that may execute reads the program-order values of its sources. */
  lemma ExecuteReads(g: Config, c: Core, n: nat, i: nat)
    requires InvAt(g, c, n) && i < n && OperandsValid(c, i)
    ensures Read(c.values, c.rob[i].srcs) == SequentialOperands(g, c.program, c.retired + i)
  {
    var names := c.program[c.retired + i].srcs;
    assert SourcesOk(g, c, i);
    forall k | 0 <= k < |names|
      ensures c.values[c.rob[i].srcs[k]] == SequentialOperands(g, c.program, c.retired + i)[k]
    {
      assert c.rob[i].srcs[k] == TableBefore(g, c, i)[names[k]];
      TableValue(g, c, n, i, names[k]);
    }
  }

  lemma ExecuteSources(g: Config, c: Core, n: nat, i: nat, m: nat)
    requires InvAt(g, c, n) && i < n && CanExecute(g, c, i) && m < n
    ensures SourcesOk(g, ExecuteEntry(g, c, i), m)
  {
    assert SourcesOk(g, c, m);
    TableFrame(g, c, ExecuteEntry(g, c, i), m);
    ExecuteReads(g, c, n, i);
  }

  lemma ExecuteKeeps(g: Config, c: Core, n: nat, i: nat)
    requires InvAt(g, c, n) && i < |c.rob| && CanExecute(g, c, i)
    ensures InvAt(g, ExecuteEntry(g, c, i), n)
  {
    var d := ExecuteEntry(g, c, i);
    FlagsFrame(g, c, d, n);
    forall r | 0 <= r < ARCH_REGS ensures CommittedOk(g, d, r) { assert CommittedOk(g, c, r); }
    forall m, j | 0 <= m < n && 0 <= j < |d.rob[m].dsts| ensures DestinationOk(g, d, m, j) {
      assert DestinationOk(g, c, m, j);
    }
    forall m | 0 <= m < n ensures SourcesOk(g, d, m) { ExecuteSources(g, c, n, i, m); }
  }

  /** Changing flags, values or validity moves no register. */
  lemma FlagsFrame(g: Config, c: Core, d: Core, n: nat)
    requires InvAt(g, c, n) && Shaped(g, d) && |d.rob| == |c.rob| && |d.regs.file| == |c.regs.file|
    requires d.regs.backend == c.regs.backend && d.regs.frontend == c.regs.frontend && d.regs.free == c.regs.free
    requires d.retired == c.retired && d.program == c.program
    requires forall k :: 0 <= k < n ==> d.rob[k].dsts == c.rob[k].dsts && d.rob[k].scheduled
    ensures Partitioned(d, n) && d.regs.frontend == TableBefore(g, d, n)
  {
    TableFrame(g, c, d, n);
    forall q | 0 <= q < |d.regs.file|
      ensures Count(d.regs.backend, q) + Count(d.regs.free, q) + InFlight(d.rob, n, q) == 1
    {
      InFlightFrame(c.rob, d.rob, n, q);
    }
  }

  lemma CompleteCommitted(g: Config, c: Core, n: nat, i: nat, r: nat)
    requires InvAt(g, c, n) && i < n && c.rob[i].executed && r < ARCH_REGS
    ensures CommittedOk(g, CompleteEntry(g, c, i), r)
  {
    var ps := c.rob[i].dsts;
    assert CommittedOk(g, c, r);
    var q := c.regs.backend[r];
    if q >= 0 {
      forall j | 0 <= j < |ps| ensures ps[j] != q { DestinationIsUnique(g, c, n, i, j); }
      AssignOther(c.values, ps, Results(g, c.program[c.retired + i], c.rob[i].operands), q, 0);
    }
  }

  lemma CompleteDestination(g: Config, c: Core, n: nat, i: nat, m: nat, j: nat)
    requires InvAt(g, c, n) && i < n && c.rob[i].executed && !c.rob[i].completed
    requires m < n && j < |c.rob[m].dsts|
    ensures CompleteEntry(g, c, i).rob[m].scheduled && DestinationOk(g, CompleteEntry(g, c, i), m, j)
  {
    var ps := c.rob[i].dsts;
    var results := Results(g, c.program[c.retired + i], c.rob[i].operands);
    assert SourcesOk(g, c, i);
    assert DestinationOk(g, c, m, j);
    DestinationIsUnique(g, c, n, m, j);
    if m == i {
      AssignLast(c.values, ps, results, j);
    } else {
      AssignOther(c.values, ps, results, c.rob[m].dsts[j], 0);
    }
  }

  lemma CompleteSources(g: Config, c: Core, n: nat, i: nat, m: nat)
    requires InvAt(g, c, n) && i < n && c.rob[i].executed && m < n
    ensures SourcesOk(g, CompleteEntry(g, c, i), m)
  {
    assert SourcesOk(g, c, m);
    TableFrame(g, c, CompleteEntry(g, c, i), m);
  }

  lemma CompleteKeeps(g: Config, c: Core, n: nat, i: nat)
    requires InvAt(g, c, n) && i < |c.rob| && c.rob[i].executed && !c.rob[i].completed
    ensures InvAt(g, CompleteEntry(g, c, i), n)
  {
    var d := CompleteEntry(g, c, i);
    FlagsFrame(g, c, d, n);
    forall r | 0 <= r < ARCH_REGS ensures CommittedOk(g, d, r) { CompleteCommitted(g, c, n, i, r); }
    forall m, j | 0 <= m < n && 0 <= j < |d.rob[m].dsts|
      ensures DestinationOk(g, d, m, j)
    {
      CompleteDestination(g, c, n, i, m, j);
    }
    forall m | 0 <= m < n ensures SourcesOk(g, d, m) { CompleteSources(g, c, n, i, m); }
  }

  lemma {:induction false} TableAfterRetire(g: Config, c: Core, d: Core, i: nat)
    requires Shaped(g, c) && Shaped(g, d) && c.rob != [] && d.rob == c.rob[1..] && i <= |d.rob|
    requires forall k :: 0 <= k <= i ==> c.rob[k].scheduled
    requires d.program == c.program && d.retired == c.retired + 1
    requires d.regs.backend == Assign(c.regs.backend, c.program[c.retired].dsts, c.rob[0].dsts)
    ensures TableBefore(g, d, i) == TableBefore(g, c, i + 1)
  {
    if i > 0 { TableAfterRetire(g, c, d, i - 1); } else { assert TableBefore(g, c, 0) == c.regs.backend; }
  }

  /** What retiring the head does to the tables and the register file. */
  lemma RetireShape(g: Config, c: Core, n: nat)
    requires InvAt(g, c, n) && c.rob != [] && c.rob[0].completed
    ensures n > 0
    ensures var names, ps, d := c.program[c.retired].dsts, c.rob[0].dsts, RetireHead(g, c);
      && d.regs.frontend == c.regs.frontend && d.regs.backend == Assign(c.regs.backend, names, ps)
      && (forall q :: 0 <= q ==>
            Count(d.regs.backend, q) + Count(d.regs.free, q) == Count(c.regs.backend, q)
              + Count(c.regs.free, q) + Count(ps, q))
      && (forall q :: 0 <= q < |c.regs.file| && d.regs.file[q] != c.regs.file[q] ==>
            Count(c.regs.backend, q) + Count(ps, q) > 0 && Count(d.regs.backend, q) == 0)
  {
    var names, ps := c.program[c.retired].dsts, c.rob[0].dsts;
    forall j | 0 <= j < |ps| ensures c.regs.file[ps[j]].arch == names[j] { assert DestinationOk(g, c, 0, j); }
    forall q | 0 <= q ensures Count(c.regs.backend, q) + Count(ps, q) <= 1 {
      InFlightAt(c.rob, n, 0, q);
      if q >= |c.regs.file| { CountIn(c.regs.backend, q); CountIn(ps, q); }
    }
    RetireAllClosed(c.regs, names, ps);
  }

  lemma RetirePartition(g: Config, c: Core, n: nat)
    requires InvAt(g, c, n) && c.rob != [] && c.rob[0].completed
    ensures n > 0 && Partitioned(RetireHead(g, c), n - 1)
  {
    RetireShape(g, c, n);
    var d := RetireHead(g, c);
    forall q | 0 <= q < |d.regs.file|
      ensures Count(d.regs.backend, q) + Count(d.regs.free, q) + InFlight(d.rob, n - 1, q) == 1
    {
      InFlightTail(c.rob, n, q);
    }
  }

  lemma RetireDestination(g: Config, c: Core, n: nat, i: nat, j: nat)
    requires InvAt(g, c, n) && c.rob != [] && c.rob[0].completed && i + 1 < n && j < |c.rob[i + 1].dsts|
    ensures DestinationOk(g, RetireHead(g, c), i, j)
  {
    RetireShape(g, c, n);
    assert DestinationOk(g, c, i + 1, j);
    DestinationIsUnique(g, c, n, i + 1, j);
    CountIn(c.regs.backend, c.rob[i + 1].dsts[j]);
    CountIn(c.rob[0].dsts, c.rob[i + 1].dsts[j]);
  }

  /** A register the retiring head writes is committed to the head's last destination for it, whose value stays. */
  lemma RetireCommitsLast(g: Config, c: Core, n: nat, r: nat)
    requires InvAt(g, c, n) && c.rob != [] && c.rob[0].completed && r < ARCH_REGS && r in c.program[c.retired].dsts
    ensures var d, j := RetireHead(g, c), LastIndex(c.program[c.retired].dsts, r);
            && d.regs.backend[r] == c.rob[0].dsts[j] && d.regs.file[c.rob[0].dsts[j]] == c.regs.file[c.rob[0].dsts[j]]
            && DestinationOk(g, c, 0, j)
  {
    RetireShape(g, c, n);
    var d := RetireHead(g, c);
    var names, ps := c.program[c.retired].dsts, c.rob[0].dsts;
    var j := LastIndex(names, r);
    assert DestinationOk(g, c, 0, j);
    hide InvAt, RetireHead, RetireAll, WellFormed, Partitioned, TableBefore, Sequential, InFlight, DestinationOk;
    AssignLast(c.regs.backend, names, ps, j);
    CountIn(d.regs.backend, d.regs.backend[r]);
  }

  /** The committed mapping of a register that the retiring head writes. */
  lemma RetireCommitsWritten(g: Config, c: Core, n: nat, r: nat)
    requires InvAt(g, c, n) && c.rob != [] && c.rob[0].completed && r < ARCH_REGS && r in c.program[c.retired].dsts
    ensures CommittedOk(g, RetireHead(g, c), r)
  {
    RetireCommitsLast(g, c, n, r);
    var d := RetireHead(g, c);
    assert d.retired == c.retired + 1 && d.program == c.program && d.values == c.values;
    hide InvAt, RetireHead, WellFormed;
    var k := c.retired;
    var before := Sequential(g, c.program, k);
    AssignLast(before, c.program[k].dsts, Results(g, c.program[k], Lookup(before, c.program[k].srcs)),
               LastIndex(c.program[k].dsts, r));
  }

  /** The committed mapping of any other register. */
  lemma RetireKeepsCommitted(g: Config, c: Core, n: nat, r: nat)
    requires InvAt(g, c, n) && c.rob != [] && c.rob[0].completed && r < ARCH_REGS && r !in c.program[c.retired].dsts
    ensures CommittedOk(g, RetireHead(g, c), r)
  {
    RetireShape(g, c, n);
    var d := RetireHead(g, c);
    var names, ps, k := c.program[c.retired].dsts, c.rob[0].dsts, c.retired;
    assert CommittedOk(g, c, r);
    assert d.retired == k + 1 && d.program == c.program && d.values == c.values;
    hide InvAt, RetireHead, RetireAll;
    AssignOther(c.regs.backend, names, ps, r, 0);
    CountIn(d.regs.backend, d.regs.backend[r]);
    var before := Sequential(g, c.program, k);
    AssignOther(before, names, Results(g, c.program[k], Lookup(before, c.program[k].srcs)), r, 0);
  }

  lemma RetireCommitted(g: Config, c: Core, n: nat, r: nat)
    requires Shaped(g, c) && InvAt(g, c, n) && c.rob != [] && c.rob[0].completed && r < ARCH_REGS
    ensures CommittedOk(g, RetireHead(g, c), r)
  {
    hide InvAt, RetireHead, CommittedOk;
    if r in c.program[c.retired].dsts { RetireCommitsWritten(g, c, n, r); } else { RetireKeepsCommitted(g, c, n, r); }
  }

  lemma RetireSources(g: Config, c: Core, n: nat, i: nat)
    requires InvAt(g, c, n) && c.rob != [] && c.rob[0].completed && i + 1 < n
    ensures SourcesOk(g, RetireHead(g, c), i)
  {
    RetireShape(g, c, n);
    assert SourcesOk(g, c, i + 1);
    TableAfterRetire(g, c, RetireHead(g, c), i);
  }

  lemma RetireKeeps(g: Config, c: Core, n: nat)
    requires InvAt(g, c, n) && c.rob != [] && c.rob[0].completed
    ensures n > 0 && InvAt(g, RetireHead(g, c), n - 1)
  {
    var d := RetireHead(g, c);
    RetirePartition(g, c, n);
    RetireShape(g, c, n);
    TableAfterRetire(g, c, d, n - 1);
    forall r | 0 <= r < ARCH_REGS ensures CommittedOk(g, d, r) { RetireCommitted(g, c, n, r); }
    forall i, j | 0 <= i < n - 1 && 0 <= j < |d.rob[i].dsts|
      ensures DestinationOk(g, d, i, j)
    {
      RetireDestination(g, c, n, i, j);
    }
    forall i | 0 <= i < n - 1 ensures SourcesOk(g, d, i) { RetireSources(g, c, n, i); }
  }

  lemma DispatchStructure(g: Config, c: Core, n: nat, p: Instr)
    requires InvAt(g, c, n) && Legal(p)
    ensures ScheduledPrefix(g, DispatchOne(g, c, p), n) && Partitioned(DispatchOne(g, c, p), n)
    ensures DispatchOne(g, c, p).regs.frontend == TableBefore(g, DispatchOne(g, c, p), n)
  {
    var d := DispatchOne(g, c, p);
    TableFrame(g, c, d, n);
    forall q | 0 <= q < |d.regs.file|
      ensures Count(d.regs.backend, q) + Count(d.regs.free, q) + InFlight(d.rob, n, q) == 1
    {
      InFlightFrame(c.rob, d.rob, n, q);
    }
  }

  lemma DispatchDestination(g: Config, c: Core, n: nat, p: Instr, i: nat, j: nat)
    requires InvAt(g, c, n) && Legal(p) && i < n && j < |c.rob[i].dsts|
    ensures DispatchOne(g, c, p).rob[i].scheduled && DestinationOk(g, DispatchOne(g, c, p), i, j)
  {
    assert DestinationOk(g, c, i, j);
    SequentialPrefix(g, c.program, p, c.retired + i);
  }

  lemma DispatchSources(g: Config, c: Core, n: nat, p: Instr, i: nat)
    requires InvAt(g, c, n) && Legal(p) && i < n
    ensures SourcesOk(g, DispatchOne(g, c, p), i)
  {
    assert SourcesOk(g, c, i);
    TableFrame(g, c, DispatchOne(g, c, p), i);
    SequentialPrefix(g, c.program, p, c.retired + i);
  }

  lemma DispatchKeeps(g: Config, c: Core, n: nat, p: Instr)
    requires InvAt(g, c, n) && Legal(p)
    ensures InvAt(g, DispatchOne(g, c, p), n)
  {
    var d := DispatchOne(g, c, p);
    DispatchStructure(g, c, n, p);
    forall r | 0 <= r < ARCH_REGS ensures CommittedOk(g, d, r) {
      assert CommittedOk(g, c, r);
      SequentialPrefix(g, c.program, p, c.retired);
    }
    forall i, j | 0 <= i < n && 0 <= j < |d.rob[i].dsts|
      ensures DestinationOk(g, d, i, j)
    {
      DispatchDestination(g, c, n, p, i, j);
    }
    forall i | 0 <= i < n ensures SourcesOk(g, d, i) { DispatchSources(g, c, n, p, i); }
  }

  lemma TickKeeps(g: Config, c: Core, n: nat, now: int)
    requires InvAt(g, c, n) && c.now <= now
    ensures InvAt(g, Tick(g, c, now), n)
  {
    var d := Tick(g, c, now);
    FlagsFrame(g, c, d, n);
    forall r | 0 <= r < ARCH_REGS ensures CommittedOk(g, d, r) { assert CommittedOk(g, c, r); }
    forall i, j | 0 <= i < n && 0 <= j < |d.rob[i].dsts|
      ensures DestinationOk(g, d, i, j)
    {
      assert DestinationOk(g, c, i, j);
    }
    forall i | 0 <= i < n ensures SourcesOk(g, d, i) {
      assert SourcesOk(g, c, i);
      TableFrame(g, c, d, i);
    }
  }

  // Every stage keeps the invariant.

  lemma {:induction false} RetireManyKeeps(g: Config, c: Core, n: nat, k: nat)
    requires Shaped(g, c) && InvAt(g, c, n) && k <= |c.rob| && forall j :: 0 <= j < k ==> c.rob[j].completed
    ensures k <= n && InvAt(g, RetireMany(g, c, k), n - k)
  {
    hide InvAt, Shaped, RetireHead;
    if k > 0 {
      RetireManyKeeps(g, c, n, k - 1);
      RetireKeeps(g, RetireMany(g, c, k - 1), n - (k - 1));
    }
  }

  lemma RetireStageKeeps(g: Config, c: Core, n: nat) returns (m: nat)
    requires Shaped(g, c) && InvAt(g, c, n)
    ensures InvAt(g, RetireStage(g, c), m)
  {
    hide InvAt, Shaped, RetireMany, CompletedSpan;
    RetireManyKeeps(g, c, n, CompletedSpan(c.rob, g.retireWidth));
    m := n - CompletedSpan(c.rob, g.retireWidth);
  }

  lemma {:induction false} CompleteStageKeeps(g: Config, c: Core, n: nat, i: nat, bw: nat, done: set<nat>)
    requires Shaped(g, c) && InvAt(g, c, n) && i <= |c.rob|
    ensures InvAt(g, CompleteStage(g, c, i, bw, done), n)
    decreases |c.rob| - i
  {
    hide InvAt, Shaped, CompleteEntry;
    if i < |c.rob| && bw > 0 {
      if CanComplete(c, i, done) {
        CompleteKeeps(g, c, n, i);
        CompleteStageKeeps(g, CompleteEntry(g, c, i), n, i + 1, bw - 1, done);
      } else {
        CompleteStageKeeps(g, c, n, i + 1, bw, done);
      }
    }
  }

  lemma {:induction false} ExecuteStageKeeps(g: Config, c: Core, n: nat, i: nat, bw: nat)
    requires Shaped(g, c) && InvAt(g, c, n) && i <= |c.rob|
    ensures InvAt(g, ExecuteStage(g, c, i, bw), n)
    decreases |c.rob| - i
  {
    hide InvAt, Shaped, ExecuteEntry;
    if i < |c.rob| && bw > 0 {
      if CanExecute(g, c, i) {
        ExecuteKeeps(g, c, n, i);
        ExecuteStageKeeps(g, ExecuteEntry(g, c, i), n, i + 1, bw - 1);
      } else {
        ExecuteStageKeeps(g, c, n, i + 1, bw);
      }
    }
  }

  /** The schedule loop is still within the scheduled prefix, or has passed an entry that is not ready. */
  predicate Scanned(c: Core, n: nat, i: nat) {
    i <= n || (n < |c.rob| && c.rob[n].ready > c.now)
  }

  /** The loop only ever schedules the first unscheduled entry: an entry that is not ready yet is
      followed only by entries that are not ready either. */
  lemma ScheduleTurnKeeps(g: Config, c: Core, n: nat, i: nat) returns (m: nat)
    requires InvAt(g, c, n) && i < |c.rob| && Scanned(c, n, i)
    requires !c.rob[i].scheduled ==> Affordable(g, c, i)
    ensures InvAt(g, ScheduleTurn(g, c, i), m) && Scanned(ScheduleTurn(g, c, i), m, i + 1)
  {
    m := n;
    if !c.rob[i].scheduled && c.rob[i].ready <= c.now {
      m := n + 1;
      TurnKeeps(g, c, n);
    }
  }

  lemma TurnKeeps(g: Config, c: Core, n: nat)
    requires InvAt(g, c, n) && Affordable(g, c, n) && c.rob[n].ready <= c.now
    ensures InvAt(g, ScheduleTurn(g, c, n), n + 1)
  {
    hide InvAt, Shaped, ScheduleEntry, Unmapped;
    ScheduleEntryKeeps(g, c, n);
  }

  lemma {:induction false} ScheduleStageKeeps(g: Config, c: Core, n: nat, i: nat, bw: nat,
      stale: int -> bool) returns (m: nat)
    requires Shaped(g, c) && InvAt(g, c, n) && i <= |c.rob| && Scanned(c, n, i)
    ensures InvAt(g, ScheduleStage(g, c, i, bw, stale), m)
    decreases |c.rob| - i
  {
    hide InvAt, Shaped, ScheduleTurn, Scanned;
    m := n;
    if i < |c.rob| && bw > 0 && |c.regs.free| >= Needed(g, c, i, stale) {
      m := ScheduleTurnKeeps(g, c, n, i);
      var d := ScheduleTurn(g, c, i);
      m := ScheduleStageKeeps(g, d, m, i + 1, if d.rob[i].executed then bw else bw - 1, stale);
    }
  }

  lemma {:induction false} DispatchStageKeeps(g: Config, c: Core, n: nat, ps: seq<Instr>)
    requires Shaped(g, c) && InvAt(g, c, n) && forall k :: 0 <= k < |ps| ==> Legal(ps[k])
    ensures InvAt(g, DispatchStage(g, c, ps), n)
    decreases |ps|
  {
    hide InvAt, Shaped, DispatchOne;
    if ps != [] {
      DispatchKeeps(g, c, n, ps[0]);
      DispatchStageKeeps(g, DispatchOne(g, c, ps[0]), n, ps[1..]);
    }
  }

  lemma CycleKeeps(g: Config, c: Core, n: nat, x: Input) returns (m: nat)
    requires InvAt(g, c, n) && Admissible(c, x)
    ensures InvAt(g, Cycle(g, c, x), m)
  {
    TickKeeps(g, c, n, x.now);
    var c0 := Tick(g, c, x.now);
    m := RetireStageKeeps(g, c0, n);
    var c1 := RetireStage(g, c0);
    CompleteStageKeeps(g, c1, m, 0, g.execWidth, x.memoryDone);
    var c2 := CompleteStage(g, c1, 0, g.execWidth, x.memoryDone);
    ExecuteStageKeeps(g, c2, m, 0, g.execWidth);
    var c3 := ExecuteStage(g, c2, 0, g.execWidth);
    m := ScheduleStageKeeps(g, c3, m, 0, g.schedulerSize, x.stale);
    DispatchStageKeeps(g, ScheduleStage(g, c3, 0, g.schedulerSize, x.stale), m, x.arrivals);
  }

  lemma StartHolds(g: Config, physical: nat)
    requires |g.initial| == ARCH_REGS
    ensures InvAt(g, Start(g, physical), 0)
  {
    var c := Start(g, physical);
    forall q | 0 <= q < physical ensures Count(c.regs.backend, q) + Count(c.regs.free, q) == 1 {
      CountIn(c.regs.backend, q);
      CountUpTo(physical, q);
    }
  }

  lemma {:induction false} CountUpTo(n: nat, q: nat)
    ensures Count(seq(n, i => i), q) == if q < n then 1 else 0
  {
    if n > 0 {
      CountUpTo(n - 1, q);
      assert seq(n, i => i)[..n - 1] == seq(n - 1, i => i);
    }
  }

  // Whole runs.

  predicate AdmissibleRun(g: Config, c: Core, xs: seq<Input>)
    requires Shaped(g, c)
    decreases |xs|
  {
    xs == [] || (Admissible(c, xs[0]) && AdmissibleRun(g, Cycle(g, c, xs[0]), xs[1..]))
  }

  function Run(g: Config, c: Core, xs: seq<Input>): (d: Core)
    requires Shaped(g, c) && AdmissibleRun(g, c, xs)
    ensures Shaped(g, d)
    decreases |xs|
  {
    if xs == [] then c else Run(g, Cycle(g, c, xs[0]), xs[1..])
  }

  lemma {:induction false} RunKeeps(g: Config, c: Core, n: nat, xs: seq<Input>) returns (m: nat)
    requires InvAt(g, c, n) && AdmissibleRun(g, c, xs)
    ensures InvAt(g, Run(g, c, xs), m)
    decreases |xs|
  {
    m := n;
    if xs != [] {
      m := CycleKeeps(g, c, n, xs[0]);
      m := RunKeeps(g, Cycle(g, c, xs[0]), m, xs[1..]);
    }
  }

  // The results.

  /** What the machine holds is what the program computes in order: every executed instruction read
      its program-order operands, every completed destination holds its program-order result, and
      the committed table is the sequential register state. */
  predicate MatchesProgramOrder(g: Config, c: Core)
    requires Shaped(g, c)
  {
    && (forall i :: 0 <= i < |c.rob| && c.rob[i].executed ==>
          c.rob[i].operands == SequentialOperands(g, c.program, c.retired + i))
    && (forall i, j :: 0 <= i < |c.rob| && c.rob[i].completed && 0 <= j < |c.rob[i].dsts| ==>
          c.values[c.rob[i].dsts[j]] == g.effect(c.program[c.retired + i], j,
            SequentialOperands(g, c.program, c.retired + i)))
    && (forall r :: 0 <= r < ARCH_REGS ==>
          Sequential(g, c.program, c.retired)[r] == if c.regs.backend[r] < 0
            then g.initial[r] else c.values[c.regs.backend[r]])
  }

  lemma InvMatches(g: Config, c: Core, n: nat)
    requires InvAt(g, c, n)
    ensures MatchesProgramOrder(g, c)
  {
    forall i | 0 <= i < |c.rob| && c.rob[i].executed
      ensures c.rob[i].operands == SequentialOperands(g, c.program, c.retired + i)
    {
      assert SourcesOk(g, c, i);
    }
    forall i, j | 0 <= i < |c.rob| && c.rob[i].completed && 0 <= j < |c.rob[i].dsts|
      ensures c.values[c.rob[i].dsts[j]] == g.effect(c.program[c.retired + i], j,
          SequentialOperands(g, c.program, c.retired + i))
    {
      assert DestinationOk(g, c, i, j);
    }
    forall r | 0 <= r < ARCH_REGS
      ensures Sequential(g, c.program, c.retired)[r] == if c.regs.backend[r] < 0
          then g.initial[r] else c.values[c.regs.backend[r]]
    {
      assert CommittedOk(g, c, r);
    }
  }

  /** After any run, whatever the widths, latencies, memory delays and stale table reads were. */
  lemma RunMatchesProgramOrder(g: Config, physical: nat, xs: seq<Input>)
    requires |g.initial| == ARCH_REGS && AdmissibleRun(g, Start(g, physical), xs)
    ensures MatchesProgramOrder(g, Run(g, Start(g, physical), xs))
  {
    StartHolds(g, physical);
    var n := RunKeeps(g, Start(g, physical), 0, xs);
    InvMatches(g, Run(g, Start(g, physical), xs), n);
  }

  /** After any run the scheduled entries are a prefix of the reorder buffer, the committed mappings
      followed by the in-flight destinations give the frontend table, and these registers and the
      free queue partition the register file. */
  lemma RunPartitionsRegisters(g: Config, physical: nat, xs: seq<Input>) returns (n: nat)
    requires |g.initial| == ARCH_REGS && AdmissibleRun(g, Start(g, physical), xs)
    ensures var c := Run(g, Start(g, physical), xs);
      && ScheduledPrefix(g, c, n) && Partitioned(c, n) && c.regs.frontend == TableBefore(g, c, n)
  {
    StartHolds(g, physical);
    n := RunKeeps(g, Start(g, physical), 0, xs);
  }

  predicate WritesRegister(g: Config, c: Core, l: nat, r: nat)
    requires Shaped(g, c) && l < |c.rob|
  {
    r in c.program[c.retired + l].dsts
  }

  /** m is the youngest entry older than i that writes register r. */
  predicate YoungestWriter(g: Config, c: Core, i: nat, r: nat, m: nat)
    requires Shaped(g, c) && i <= |c.rob|
  {
    m < i && WritesRegister(g, c, m, r) && forall l :: m < l < i ==> !WritesRegister(g, c, l, r)
  }

  lemma {:induction false} TableFollowsWriter(g: Config, c: Core, i: nat, r: nat, m: nat)
    requires Shaped(g, c) && i <= |c.rob| && r < ARCH_REGS && forall k :: 0 <= k < i ==> c.rob[k].scheduled
    requires YoungestWriter(g, c, i, r, m)
    ensures TableBefore(g, c, i)[r] == c.rob[m].dsts[LastIndex(c.program[c.retired + m].dsts, r)]
  {
    var names, ps, t := c.program[c.retired + i - 1].dsts, c.rob[i - 1].dsts, TableBefore(g, c, i - 1);
    assert WritesRegister(g, c, i - 1, r) <==> r in names;
    if m == i - 1 {
      AssignLast(t, names, ps, LastIndex(names, r));
    } else {
      AssignOther(t, names, ps, r, 0);
      TableFollowsWriter(g, c, i - 1, r, m);
    }
  }

  lemma {:induction false} TableWithoutWriter(g: Config, c: Core, i: nat, r: nat)
    requires Shaped(g, c) && i <= |c.rob| && r < ARCH_REGS && forall k :: 0 <= k < i ==> c.rob[k].scheduled
    requires forall l :: 0 <= l < i ==> !WritesRegister(g, c, l, r)
    ensures TableBefore(g, c, i)[r] == c.regs.backend[r]
  {
    if i > 0 {
      assert !WritesRegister(g, c, i - 1, r);
      AssignOther(TableBefore(g, c, i - 1), c.program[c.retired + i - 1].dsts, c.rob[i - 1].dsts, r, 0);
      TableWithoutWriter(g, c, i - 1, r);
    }
  }

  /** A renamed source is the destination of the youngest older writer still in the buffer, which
      has completed if the operand is valid. */
  lemma SourceFollowsWriter(g: Config, c: Core, n: nat, i: nat, k: nat, m: nat)
    requires InvAt(g, c, n) && i < n && k < |c.rob[i].srcs|
    requires YoungestWriter(g, c, i, c.program[c.retired + i].srcs[k], m)
    ensures c.rob[i].srcs[k] == c.rob[m].dsts[LastIndex(c.program[c.retired + m].dsts,
        c.program[c.retired + i].srcs[k])]
    ensures c.regs.file[c.rob[i].srcs[k]].valid <==> c.rob[m].completed
  {
    assert SourcesOk(g, c, i);
    var r := c.program[c.retired + i].srcs[k];
    TableFollowsWriter(g, c, i, r, m);
    assert DestinationOk(g, c, m, LastIndex(c.program[c.retired + m].dsts, r));
  }

  /** Without such a writer it is the committed mapping, which is always valid. */
  lemma SourceWithoutWriter(g: Config, c: Core, n: nat, i: nat, k: nat, r: nat)
    requires InvAt(g, c, n) && i < n && k < |c.rob[i].srcs| && r == c.program[c.retired + i].srcs[k]
    requires forall l :: 0 <= l < i ==> !WritesRegister(g, c, l, r)
    ensures c.rob[i].srcs[k] == c.regs.backend[r] && c.regs.file[c.rob[i].srcs[k]].valid
  {
    assert SourcesOk(g, c, i);
    TableWithoutWriter(g, c, i, r);
    assert c.rob[i].srcs[k] == TableBefore(g, c, i)[r];
    assert CommittedOk(g, c, r);
  }

  /** A register that an unretired instruction reads is not free, and no younger entry writes it. */
  lemma SourceNotRecycled(g: Config, c: Core, n: nat, i: nat, k: nat)
    requires InvAt(g, c, n) && i < n && k < |c.rob[i].srcs|
    ensures c.rob[i].srcs[k] !in c.regs.free
    ensures forall l :: i <= l < n ==> c.rob[i].srcs[k] !in c.rob[l].dsts
  {
    assert SourcesOk(g, c, i);
    var r, p := c.program[c.retired + i].srcs[k], c.rob[i].srcs[k];
    assert p == TableBefore(g, c, i)[r];
    TableOwned(g, c, i, r);
    if i < n { InFlightAt(c.rob, n, i, p); }
    CountIn(c.regs.free, p);
    forall l | i <= l < n ensures p !in c.rob[l].dsts {
      InFlightAt(c.rob, n, l, p);
      InFlightGrows(c.rob, i, l, p);
      CountIn(c.rob[l].dsts, p);
    }
  }

  lemma {:induction false} InFlightGrows(rob: seq<Entry>, i: nat, n: nat, q: int)
    requires i <= n <= |rob|
    ensures InFlight(rob, i, q) <= InFlight(rob, n, q)
  {
    if i < n { InFlightGrows(rob, i, n - 1, q); }
  }

  // The oldest instruction never waits for registers or operands.

  function CountBelow(s: seq<int>, n: nat): nat {
    if n == 0 then 0 else CountBelow(s, n - 1) + Count(s, n - 1)
  }

  lemma {:induction false} CountBelowAppend(s: seq<int>, x: int, n: nat)
    ensures CountBelow(s + [x], n) <= CountBelow(s, n) + if 0 <= x < n then 1 else 0
  {
    if n > 0 {
      CountBelowAppend(s, x, n - 1);
      CountConcat(s, [x], n - 1);
      assert Count([x], n - 1) == if x == n - 1 then 1 else 0;
    }
  }

  lemma {:induction false} CountBelowSize(s: seq<int>, n: nat)
    ensures CountBelow(s, n) <= |s|
  {
    if s == [] {
      CountBelowEmpty(n);
    } else {
      CountBelowSize(s[..|s| - 1], n);
      assert s == s[..|s| - 1] + [s[|s| - 1]];
      CountBelowAppend(s[..|s| - 1], s[|s| - 1], n);
    }
  }

  lemma {:induction false} CountBelowEmpty(n: nat)
    ensures CountBelow([], n) == 0
  {
    if n > 0 { CountBelowEmpty(n - 1); }
  }

  lemma {:induction false} CountBelowSum(s: seq<int>, t: seq<int>, n: nat)
    requires forall q :: 0 <= q < n ==> Count(s, q) + Count(t, q) == 1
    ensures CountBelow(s, n) + CountBelow(t, n) == n
  {
    if n > 0 { CountBelowSum(s, t, n - 1); }
  }

  /** While nothing is in flight, at most one register per architectural name is taken. */
  lemma FreeWhenIdle(g: Config, c: Core)
    requires InvAt(g, c, 0)
    ensures |c.regs.free| + ARCH_REGS >= |c.regs.file|
  {
    var n := |c.regs.file|;
    forall q | 0 <= q < n ensures Count(c.regs.backend, q) + Count(c.regs.free, q) == 1 {
      assert InFlight(c.rob, 0, q) == 0;
    }
    CountBelowSum(c.regs.backend, c.regs.free, n);
    CountBelowSize(c.regs.backend, n);
    CountBelowSize(c.regs.free, n);
  }

  /** With a physical register per architectural name and one per operand of the oldest instruction,
      an unscheduled head that is ready is scheduled. */
  lemma HeadIsScheduled(g: Config, c: Core, bw: nat, stale: int -> bool)
    requires InvAt(g, c, 0) && c.rob != [] && bw > 0 && c.rob[0].ready <= c.now
    requires ARCH_REGS + |c.rob[0].srcs| + |c.rob[0].dsts| <= |c.regs.file|
    ensures ScheduleStage(g, c, 0, bw, stale).rob[0].scheduled
  {
    FreeWhenIdle(g, c);
    assert !c.rob[0].scheduled;
    var d := ScheduleTurn(g, c, 0);
    assert d.rob[0].scheduled;
    assert !d.rob[0].executed;
    assert StillScheduled(d.rob, ScheduleStage(g, d, 1, bw - 1, stale).rob);
  }

  /** A scheduled head has all its operands. */
  lemma HeadCanExecute(g: Config, c: Core, n: nat)
    requires InvAt(g, c, n) && n > 0 && !c.rob[0].executed && c.rob[0].ready <= c.now
    ensures CanExecute(g, c, 0)
  {
    forall k | 0 <= k < |c.rob[0].srcs| ensures c.regs.file[c.rob[0].srcs[k]].valid {
      SourceWithoutWriter(g, c, n, 0, k, c.program[c.retired].srcs[k]);
    }
  }
}
