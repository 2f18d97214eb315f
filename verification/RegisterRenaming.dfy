/** The register allocator of src/register_allocator.cc: two alias tables, a queue of free
    physical registers and the physical register file. */
module RegisterRenaming {
  import opened Counting

  const ARCH_REGS: nat := 256
  const UNMAPPED: int := -1
  // The architectural index that free_register leaves behind.
  const NO_ARCH: nat := 255

  datatype PhysicalRegister = PhysicalRegister(arch: nat, producer: nat, valid: bool, busy: bool)

  datatype Registers = Registers(frontend: seq<int>, backend: seq<int>, free: seq<int>, file: seq<PhysicalRegister>)

  /** Every index the allocator follows is inside the table it is used on. */
  predicate WellFormed(a: Registers) {
    && |a.frontend| == |a.backend| == ARCH_REGS
    && (forall r :: 0 <= r < ARCH_REGS ==> UNMAPPED <= a.frontend[r] < |a.file|)
    && (forall r :: 0 <= r < ARCH_REGS ==> UNMAPPED <= a.backend[r] < |a.file|)
    && (forall k :: 0 <= k < |a.free| ==> 0 <= a.free[k] < |a.file|)
    && (forall p :: 0 <= p < |a.file| ==> a.file[p].arch < ARCH_REGS)
  }

  function Initial(n: nat): (a: Registers)
    ensures WellFormed(a)
  {
    Registers(seq(ARCH_REGS, _ => UNMAPPED), seq(ARCH_REGS, _ => UNMAPPED), seq(n, i => i),
              seq(n, _ => PhysicalRegister(0, 0, false, false)))
  }

  function RenameDest(a: Registers, r: nat, id: nat): (b: Registers)
    requires WellFormed(a) && r < ARCH_REGS && a.free != []
    ensures WellFormed(b)
  {
    var p := a.free[0];
    Registers(a.frontend[r := p], a.backend, a.free[1..], a.file[p := PhysicalRegister(r, id, false, true)])
  }

  function RenameSrc(a: Registers, r: nat): (b: Registers)
    requires WellFormed(a) && r < ARCH_REGS && (a.frontend[r] < 0 ==> a.free != [])
    ensures WellFormed(b) && b.frontend[r] >= 0
    ensures forall q :: 0 <= q < ARCH_REGS && a.frontend[q] >= 0 ==> b.frontend[q] == a.frontend[q]
  {
    if a.frontend[r] >= 0 then a
    else
      var p := a.free[0];
      Registers(a.frontend[r := p], a.backend[r := p], a.free[1..], a.file[p := PhysicalRegister(r, 0, true, true)])
  }

  function Complete(a: Registers, p: nat): (b: Registers)
    requires WellFormed(a) && p < |a.file|
    ensures WellFormed(b)
  {
    a.(file := a.file[p := a.file[p].(valid := true)])
  }

  function Retire(a: Registers, p: nat): (b: Registers)
    requires WellFormed(a) && p < |a.file|
    ensures WellFormed(b)
  {
    var r := a.file[p].arch;
    var replaced := a.backend[r];
    var b := a.(backend := a.backend[r := p]);
    if replaced >= 0 then
      b.(free := b.free + [replaced], file := b.file[replaced := PhysicalRegister(NO_ARCH, 0, false, false)])
    else b
  }

  /** The registers an instruction still has to take from the free queue, counted with repetition. */
  function Unmapped(a: Registers, srcs: seq<nat>): (k: nat)
    requires WellFormed(a) && forall j :: 0 <= j < |srcs| ==> srcs[j] < ARCH_REGS
    ensures k <= |srcs|
  {
    if srcs == [] then 0
    else Unmapped(a, srcs[..|srcs| - 1]) + if a.frontend[srcs[|srcs| - 1]] < 0 then 1 else 0
  }

  /** Renames the sources of one instruction from left to right. */
  function RenameSrcs(a: Registers, srcs: seq<nat>): (b: Registers)
    requires WellFormed(a) && forall j :: 0 <= j < |srcs| ==> srcs[j] < ARCH_REGS
    requires Unmapped(a, srcs) <= |a.free|
    ensures WellFormed(b)
    ensures |a.free| <= |b.free| + Unmapped(a, srcs) && |b.file| == |a.file|
    ensures forall j :: 0 <= j < |srcs| ==> b.frontend[srcs[j]] >= 0
    ensures forall r :: 0 <= r < ARCH_REGS && a.frontend[r] >= 0 ==> b.frontend[r] == a.frontend[r]
  {
    if srcs == [] then a
    else
      var b := RenameSrcs(a, srcs[..|srcs| - 1]);
      RenameSrc(b, srcs[|srcs| - 1])
  }

  /** Renames the destinations of one instruction from left to right. */
  function RenameDests(a: Registers, dsts: seq<nat>, id: nat): (b: Registers)
    requires WellFormed(a) && forall j :: 0 <= j < |dsts| ==> dsts[j] < ARCH_REGS
    requires |dsts| <= |a.free|
    ensures WellFormed(b) && b.free == a.free[|dsts|..] && b.backend == a.backend && |b.file| == |a.file|
  {
    if dsts == [] then a
    else RenameDest(RenameDests(a, dsts[..|dsts| - 1], id), dsts[|dsts| - 1], id)
  }

  function CompleteAll(a: Registers, ps: seq<int>): (b: Registers)
    requires WellFormed(a) && forall j :: 0 <= j < |ps| ==> 0 <= ps[j] < |a.file|
    ensures WellFormed(b) && b == a.(file := b.file) && |b.file| == |a.file|
    ensures forall p :: 0 <= p < |a.file| ==> b.file[p] == if p in ps then a.file[p].(valid := true) else a.file[p]
  {
    if ps == [] then a
    else Complete(CompleteAll(a, ps[..|ps| - 1]), ps[|ps| - 1])
  }

  function RetireAll(a: Registers, ps: seq<int>): (b: Registers)
    requires WellFormed(a) && forall j :: 0 <= j < |ps| ==> 0 <= ps[j] < |a.file|
    ensures WellFormed(b) && |b.file| == |a.file|
  {
    if ps == [] then a
    else Retire(RetireAll(a, ps[..|ps| - 1]), ps[|ps| - 1])
  }

  class RegisterAllocator {
    var frontend: seq<int>
    var backend: seq<int>
    var free: seq<int>
    var file: seq<PhysicalRegister>

    ghost function View(): Registers
      reads this
    {
      Registers(frontend, backend, free, file)
    }

    constructor (numPhysicalRegisters: nat)
      ensures View() == Initial(numPhysicalRegisters)
    {
      frontend := seq(ARCH_REGS, _ => UNMAPPED);
      backend := seq(ARCH_REGS, _ => UNMAPPED);
      free := seq(numPhysicalRegisters, i => i);
      file := seq(numPhysicalRegisters, _ => PhysicalRegister(0, 0, false, false));
    }

    method RenameDestRegister(r: nat, id: nat) returns (phys: int)
      requires WellFormed(View()) && r < ARCH_REGS
      requires free != []
      modifies this
      ensures View() == RenameDest(old(View()), r, id) && phys == old(free)[0]
    {
      phys := free[0];
      free := free[1..];
      frontend := frontend[r := phys];
      file := file[phys := PhysicalRegister(r, id, false, true)];
    }

    method RenameSrcRegister(r: nat) returns (phys: int)
      requires WellFormed(View()) && r < ARCH_REGS
      requires frontend[r] < 0 ==> free != []
      modifies this
      ensures View() == RenameSrc(old(View()), r) && phys == frontend[r]
    {
      phys := frontend[r];
      if phys < 0 {
        phys := free[0];
        free := free[1..];
        frontend := frontend[r := phys];
        backend := backend[r := phys];
        file := file[phys := PhysicalRegister(r, 0, true, true)];
      }
    }

    method CompleteDestRegister(p: nat)
      requires WellFormed(View()) && p < |file|
      modifies this
      ensures View() == Complete(old(View()), p)
    {
      file := file[p := file[p].(valid := true)];
    }

    method RetireDestRegister(p: nat)
      requires WellFormed(View()) && p < |file|
      modifies this
      ensures View() == Retire(old(View()), p)
    {
      var r := file[p].arch;
      var oldPhys := backend[r];
      backend := backend[r := p];
      if oldPhys != UNMAPPED {
        FreeRegister(oldPhys);
      }
    }

    method FreeRegister(p: nat)
      requires p < |file|
      modifies this`free, this`file
      ensures file == old(file)[p := PhysicalRegister(NO_ARCH, 0, false, false)]
      ensures free == old(free) + [p]
    {
      file := file[p := PhysicalRegister(NO_ARCH, 0, false, false)];
      free := free + [p];
    }
  }

  // Assigning a list of names, later names winning.

  function Assign(m: seq<int>, names: seq<int>, xs: seq<int>): (r: seq<int>)
    requires |names| == |xs| && forall j :: 0 <= j < |names| ==> 0 <= names[j] < |m|
    ensures |r| == |m|
  {
    if names == [] then m
    else
      var k := |names| - 1;
      Assign(m, names[..k], xs[..k])[names[k] := xs[k]]
  }

  lemma {:induction false} AssignOther(m: seq<int>, names: seq<int>, xs: seq<int>, r: nat, x: int)
    requires |names| == |xs| && forall j :: 0 <= j < |names| ==> 0 <= names[j] < |m|
    requires r < |m| && r !in names
    ensures Assign(m, names, xs)[r] == m[r]
    ensures Assign(m[r := x], names, xs) == Assign(m, names, xs)[r := x]
  {
    if names != [] {
      var k := |names| - 1;
      AssignOther(m, names[..k], xs[..k], r, x);
      assert names == names[..k] + [names[k]];
    }
  }

  lemma {:induction false} AssignFrom(m: seq<int>, names: seq<int>, xs: seq<int>, r: nat)
    requires |names| == |xs| && forall j :: 0 <= j < |names| ==> 0 <= names[j] < |m|
    requires r < |m|
    ensures Assign(m, names, xs)[r] == m[r] || Assign(m, names, xs)[r] in xs
  {
    if names != [] { AssignFrom(m, names[..|names| - 1], xs[..|names| - 1], r); }
  }

  lemma {:induction false} AssignLast(m: seq<int>, names: seq<int>, xs: seq<int>, j: nat)
    requires |names| == |xs| && forall j :: 0 <= j < |names| ==> 0 <= names[j] < |m|
    requires j < |names| && forall l :: j < l < |names| ==> names[l] != names[j]
    ensures Assign(m, names, xs)[names[j]] == xs[j]
  {
    var k := |names| - 1;
    if j < k { AssignLast(m, names[..k], xs[..k], j); }
  }

  /** Where a listed name is assigned last. */
  function LastIndex(names: seq<int>, r: int): (j: nat)
    requires r in names
    ensures j < |names| && names[j] == r && forall l :: j < l < |names| ==> names[l] != r
  {
    var k := |names| - 1;
    if names[k] == r then k else assert names == names[..k] + [names[k]]; LastIndex(names[..k], r)
  }

  /** Destination renaming in closed form: the oldest free registers, in order. */
  lemma {:induction false} RenameDestsClosed(a: Registers, dsts: seq<nat>, id: nat)
    requires WellFormed(a) && forall j :: 0 <= j < |dsts| ==> dsts[j] < ARCH_REGS
    requires |dsts| <= |a.free|
    requires forall i, j :: 0 <= i < j < |a.free| ==> a.free[i] != a.free[j]
    ensures var b := RenameDests(a, dsts, id); var ps := a.free[..|dsts|];
      && b.frontend == Assign(a.frontend, dsts, ps)
      && (forall j :: 0 <= j < |ps| ==> b.file[ps[j]] == PhysicalRegister(dsts[j], id, false, true))
      && (forall p :: 0 <= p < |a.file| && p !in ps ==> b.file[p] == a.file[p])
  {
    if dsts != [] {
      var k := |dsts| - 1;
      var b, ps := RenameDests(a, dsts[..k], id), a.free[..|dsts|];
      var p := a.free[k];
      RenameDestsClosed(a, dsts[..k], id);
      assert ps[..k] == a.free[..k] && ps == ps[..k] + [p] && b.free[0] == p;
      var c := RenameDests(a, dsts, id);
      assert c == RenameDest(b, dsts[k], id);
      hide RenameDests, WellFormed;
      assert c.frontend == b.frontend[dsts[k] := p]
        && c.file == b.file[p := PhysicalRegister(dsts[k], id, false, true)];
      assert forall j :: 0 <= j < k ==> ps[j] != p;
    }
  }

  /** No register is owned twice by the backend table and the given destinations. */
  ghost predicate OwnedOnce(backend: seq<int>, ps: seq<int>) {
    forall q :: 0 <= q ==> Count(backend, q) + Count(ps, q) <= 1
  }

  /** Retirement in closed form: the backend table takes the new mappings, and what it drops
      is appended to the free queue and cleared. */
  lemma {:induction false} RetireAllClosed(a: Registers, names: seq<nat>, ps: seq<int>)
    requires WellFormed(a) && |names| == |ps|
    requires forall j :: 0 <= j < |ps| ==> 0 <= ps[j] < |a.file| && a.file[ps[j]].arch == names[j] < ARCH_REGS
    requires OwnedOnce(a.backend, ps)
    ensures var b := RetireAll(a, ps);
      && b.frontend == a.frontend
      && b.backend == Assign(a.backend, names, ps)
      && a.free <= b.free
      && (forall q :: 0 <= q ==>
            Count(b.backend, q) + Count(b.free, q) == Count(a.backend, q) + Count(a.free, q) + Count(ps, q))
      && (forall q :: 0 <= q < |a.file| && b.file[q] != a.file[q] ==>
          Count(a.backend, q) + Count(ps, q) > 0 && Count(b.backend, q) == 0)
  {
    if ps != [] {
      var k := |ps| - 1;
      var p := ps[k];
      assert OwnedOnce(a.backend, ps[..k]);
      RetireAllClosed(a, names[..k], ps[..k]);
      var b := RetireAll(a, ps[..k]);
      assert b.free == a.free + b.free[|a.free|..];
      forall q | 0 <= q ensures Count(b.backend, q) <= Count(a.backend, q) + Count(ps[..k], q) {
        CountConcat(a.free, b.free[|a.free|..], q);
      }
      assert Count(ps, p) >= 1;
      assert Count(b.backend, p) == 0;
      RetireTrades(b, p);
    }
  }

  /** Retiring one destination trades the old mapping of its architectural register for the new one. */
  lemma RetireTrades(a: Registers, p: nat)
    requires WellFormed(a) && p < |a.file|
    requires OwnedOnce(a.backend, []) && Count(a.backend, p) == 0
    ensures var b := Retire(a, p);
      && a.free <= b.free
      && (forall q :: 0 <= q ==>
            Count(b.backend, q) + Count(b.free, q) == Count(a.backend, q) + Count(a.free, q) + if p == q then 1 else 0)
      && (forall q :: 0 <= q < |a.file| && b.file[q] != a.file[q] ==>
          Count(a.backend, q) > 0 && Count(b.backend, q) == 0)
  {
    var r := a.file[p].arch;
    var dropped := a.backend[r];
    var b := Retire(a, p);
    CountIn(a.backend, dropped);
    forall q | 0 <= q
      ensures Count(b.backend, q) + Count(b.free, q) == Count(a.backend, q) + Count(a.free, q) + if p == q then 1 else 0
      ensures q == dropped ==> Count(a.backend, q) == 1 && Count(b.backend, q) == 0
    {
      assert Count(a.backend, q) + Count([], q) <= 1;
      CountUpdate(a.backend, r, p, q);
      if dropped >= 0 { assert b.free == a.free + [dropped]; CountConcat(a.free, [dropped], q); }
    }
  }
}
