/** Which programs let a load be given the store of an instruction that still waits for a load of its own. */
module ClearPrograms {
  import opened Counting
  import opened Options
  import opened LoadStoreQueue
  import opened MemoryOrder
  import opened LoadStoreUnit
  import opened LoadTracking
  import opened QueueLaws

  predicate Increasing(program: seq<MemInstr>) {
    forall i, j :: 0 <= i < j < |program| ==> program[i].id < program[j].id
  }

  /** Instruction j loads what instruction i has stored. */
  predicate Feeds(program: seq<MemInstr>, i: int, j: int, addr: nat) {
    && 0 <= i < j < |program| && addr in program[i].stores && addr in program[j].loads
    && forall k :: i < k < j ==> addr !in program[k].stores
  }

  /** What is stored by an instruction that loads is loaded by no later one. */
  ghost predicate Clear(program: seq<MemInstr>) {
    forall i: int, j: int, addr: nat :: Feeds(program, i, j, addr) ==> program[i].loads == []
  }

  /** A load has been given the store of an instruction that has a load in the queue. Loads enter the queue as their
    * instruction is dispatched, so that load was in the queue already (LiveBefore). */
  ghost predicate Early(s: Lsq) {
    exists n, w :: 0 <= n < |s.observed| && 0 <= w < |s.lq| && s.lq[w].Some?
                   && s.observed[n].source == Some(s.lq[w].value.id)
  }

  ghost predicate SeenBefore(observed: seq<Observation>, n: nat, id: nat, addr: nat) {
    exists k :: 0 <= k < n && k < |observed| && observed[k].id == id && observed[k].addr == addr
  }

  /** Every load has been given its value after all loads of the storing instruction had been given theirs. */
  ghost predicate Prompt(s: Lsq) {
    forall n, k, j :: 0 <= n < |s.observed| && 0 <= k < |s.program| && 0 <= j < |s.program[k].loads| ==>
      s.observed[n].source == Some(s.program[k].id) ==>
      SeenBefore(s.observed, n, s.program[k].id, s.program[k].loads[j])
  }

  /** Runs of any length. */
  ghost predicate CanReach(s: Lsq, t: Lsq) {
    exists es :: Reaches(s, es, t)
  }

  // Loads belong to their instructions.

  predicate IsLoad(program: seq<MemInstr>, id: nat, addr: nat) {
    exists k :: 0 <= k < |program| && program[k].id == id && addr in program[k].loads
  }

  predicate Genuine(s: Lsq) {
    && (forall w :: 0 <= w < |s.lq| && s.lq[w].Some? ==> IsLoad(s.program, s.lq[w].value.id, s.lq[w].value.addr))
    && (forall n :: 0 <= n < |s.observed| ==> IsLoad(s.program, s.observed[n].id, s.observed[n].addr))
  }

  /** From s to t loads only leave the queue. */
  ghost predicate Leaves(s: Lsq, t: Lsq) {
    && t.program == s.program
    && (forall id, addr :: Live(t, id, addr) ==> Live(s, id, addr))
    && (Genuine(s) ==> Genuine(t))
  }

  lemma LeavesThen(s: Lsq, t: Lsq, u: Lsq)
    requires Leaves(s, t) && Leaves(t, u)
    ensures Leaves(s, u)
  {
    hide Live, Genuine;
  }

  /** Steps that keep every load where it is, or take it out of its slot. */
  lemma SlotsLeave(s: Lsq, t: Lsq)
    requires t.program == s.program && |t.lq| <= |s.lq|
    requires forall w :: 0 <= w < |t.lq| && t.lq[w].Some? ==>
      s.lq[w].Some? && t.lq[w].value.id == s.lq[w].value.id && t.lq[w].value.addr == s.lq[w].value.addr
    requires Genuine(s) ==>
      forall n :: 0 <= n < |t.observed| ==> IsLoad(s.program, t.observed[n].id, t.observed[n].addr)
    ensures Leaves(s, t)
  {
    hide IsLoad;
    forall id, addr | Live(t, id, addr) ensures Live(s, id, addr) {
      var w :| 0 <= w < |t.lq| && t.lq[w].Some? && t.lq[w].value.id == id && t.lq[w].value.addr == addr;
      assert s.lq[w].value.id == id;
    }
  }

  lemma ResolveLeaves(s: Lsq, w: nat, source: Option<nat>)
    requires w < |s.lq| && s.lq[w].Some?
    ensures Leaves(s, Resolve(s, w, source))
  {
    SlotsLeave(s, Resolve(s, w, source));
  }

  lemma ReleaseLeaves(s: Lsq, k: nat)
    requires Forwarding(s, k) && Names(s.lq, s.sq[k], s.sq[k].waiters[0])
    ensures Leaves(s, Release(s, k))
  {
    SlotsLeave(s, Release(s, k));
  }

  lemma {:induction false} ReleaseAllLeaves(s: Lsq, k: nat)
    requires k < |s.sq| && !s.sq[k].issued && Inv(s, s.sq[k].id, -1)
    ensures Leaves(s, ReleaseAll(s, k))
    decreases |s.sq[k].waiters|
  {
    hide Inv, Leaves;
    if s.sq[k].waiters == [] {
      SlotsLeave(s, s);
    } else {
      ReleaseKeeps(s, k);
      ReleaseLeaves(s, k);
      ReleaseAllLeaves(Release(s, k), k);
      LeavesThen(s, Release(s, k), ReleaseAll(s, k));
    }
  }

  lemma FinishStoreLeaves(s: Lsq, k: nat)
    requires Good(s) && NextStore(s, k)
    ensures Leaves(s, FinishStore(s, k))
  {
    BumpStoreKeeps(s, 0, k);
    hide Inv, Leaves, Bump;
    var b := s.(rob := Bump(s.rob, s.sq[k].id));
    SlotsLeave(s, b);
    ReleaseAllLeaves(b, k);
    var r := ReleaseAll(b, k);
    LeavesThen(s, b, r);
    SlotsLeave(r, MarkIssued(r, k));
    LeavesThen(s, r, MarkIssued(r, k));
  }

  lemma {:induction false} FinishStoresLeaves(s: Lsq, k: nat, bw: nat)
    requires Good(s) && k <= |s.sq| && (k < |s.sq| ==> NextStore(s, k))
    ensures Leaves(s, FinishStores(s, k, bw))
    decreases |s.sq| - k
  {
    hide Good, FinishStore, Leaves, NextStore;
    if k == |s.sq| || bw == 0 || !Due(s.sq[k].ready, s.now) {
      SlotsLeave(s, s);
    } else {
      var t := FinishStore(s, k);
      FinishStoreLeaves(s, k);
      FinishStoresLeaves(t, k + 1, bw - 1);
      LeavesThen(s, t, FinishStores(s, k, bw));
    }
  }

  lemma {:induction false} DrainStoresLeaves(s: Lsq, bw: nat, room: nat)
    requires Good(s)
    ensures Leaves(s, DrainStores(s, bw, room))
    decreases bw
  {
    hide Good, Leaves, Finished, Drain;
    if s.sq == [] || bw == 0 || !Finished(s, s.sq[0]) || !Due(s.sq[0].ready, s.now) || room == 0 {
      SlotsLeave(s, s);
    } else {
      DrainStep(s);
      DrainLeaves(s);
      DrainStoresLeaves(Drain(s), bw - 1, room - 1);
      LeavesThen(s, Drain(s), DrainStores(s, bw, room));
    }
  }

  lemma DrainLeaves(s: Lsq)
    requires s.sq != []
    ensures Leaves(s, Drain(s))
  {
    SlotsLeave(s, Drain(s));
  }

  lemma StoreStageLeaves(s: Lsq, width: nat, room: nat)
    requires Good(s)
    ensures Leaves(s, StoreStage(s, width, room))
  {
    hide Good, FinishStores, DrainStores, Leaves;
    var k := IssuedPrefix(s.sq);
    FinishStoresLeaves(s, k, width);
    var f := FinishStores(s, k, width);
    DrainStoresLeaves(f, width - DueRun(s.sq, k, width, s.now), room);
    LeavesThen(s, f, StoreStage(s, width, room));
  }

  lemma {:induction false} IssueLoadsLeaves(s: Lsq, w: nat, bw: nat, room: nat)
    requires Good(s) && w <= |s.lq|
    ensures Leaves(s, IssueLoads(s, w, bw, room))
    decreases |s.lq| - w
  {
    hide Inv, Leaves;
    if w == |s.lq| {
      SlotsLeave(s, s);
    } else if bw > 0 && Issuable(s, w) && room > 0 {
      MarkLoadKeeps(s, 0, w);
      SlotsLeave(s, MarkLoad(s, w));
      IssueLoadsLeaves(MarkLoad(s, w), w + 1, bw - 1, room - 1);
      LeavesThen(s, MarkLoad(s, w), IssueLoads(s, w, bw, room));
    } else {
      IssueLoadsLeaves(s, w + 1, bw, room);
    }
  }

  lemma {:induction false} AnswerBlockLeaves(s: Lsq, w: nat, block: nat)
    requires Good(s) && w <= |s.lq|
    ensures Leaves(s, AnswerBlock(s, w, block))
    decreases |s.lq| - w
  {
    hide Good, Leaves;
    if w == |s.lq| {
      SlotsLeave(s, s);
    } else if Answered(s, w, block) {
      AnsweredKeeps(s, w, block);
      ResolveLeaves(s, w, LastWriter(s.written, s.lq[w].value.addr));
      AnswerBlockLeaves(Answer(s, w), w + 1, block);
      LeavesThen(s, Answer(s, w), AnswerBlock(s, w, block));
    } else {
      AnswerBlockLeaves(s, w + 1, block);
    }
  }

  lemma {:induction false} AnswerBlocksLeaves(s: Lsq, blocks: seq<nat>)
    requires Good(s)
    ensures Leaves(s, AnswerBlocks(s, blocks))
    decreases |blocks|
  {
    hide Good, Leaves, AnswerBlock;
    if blocks == [] {
      SlotsLeave(s, s);
    } else {
      AnswerBlockLeaves(s, 0, blocks[0]);
      AnswerBlocksLeaves(AnswerBlock(s, 0, blocks[0]), blocks[1..]);
      LeavesThen(s, AnswerBlock(s, 0, blocks[0]), AnswerBlocks(s, blocks));
    }
  }

  /** Dispatch adds loads of the new instruction only. */
  ghost predicate Adds(s: Lsq, t: Lsq, id: nat) {
    && t.program == s.program
    && (forall i, addr :: Live(t, i, addr) && i != id ==> Live(s, i, addr))
  }

  lemma DispatchLoadAdds(s: Lsq, addr: nat, id: nat)
    requires FreeSlots(s.lq) > 0
    ensures Adds(s, DispatchLoad(s, addr, id), id)
    ensures Genuine(s) && IsLoad(s.program, id, addr) ==> Genuine(DispatchLoad(s, addr, id))
  {
    hide IsLoad;
    var t := DispatchLoad(s, addr, id);
    forall i, a | Live(t, i, a) && i != id ensures Live(s, i, a) {
      var w :| 0 <= w < |t.lq| && t.lq[w].Some? && t.lq[w].value.id == i && t.lq[w].value.addr == a;
      assert s.lq[w] == t.lq[w];
    }
  }

  lemma {:induction false} DispatchLoadsAdds(s: Lsq, p: MemInstr, n: nat)
    requires n <= |p.loads| && n <= FreeSlots(s.lq)
    ensures Adds(s, DispatchLoads(s, p, n), p.id)
    ensures Genuine(s) && p in s.program ==> Genuine(DispatchLoads(s, p, n))
  {
    hide Genuine, DispatchLoad, FreeSlots, Live;
    if n > 0 {
      DispatchLoadsAdds(s, p, n - 1);
      var t := DispatchLoads(s, p, n - 1);
      LoadTakesSlot(t, p.loads[n - 1], p.id);
      DispatchLoadAdds(t, p.loads[n - 1], p.id);
    }
  }

  lemma DispatchAdds(s: Lsq, p: MemInstr)
    requires |p.loads| <= FreeSlots(s.lq)
    ensures forall id, addr :: Live(Dispatch(s, p), id, addr) && id != p.id ==> Live(s, id, addr)
    ensures Genuine(s) ==> Genuine(Dispatch(s, p))
  {
    var q := PushInstr(s, p);
    DispatchLoadsAdds(q, p, |p.loads|);
    hide DispatchLoads, FreeSlots;
    var l, t := DispatchLoads(q, p, |p.loads|), Dispatch(s, p);
    forall id, addr | Live(t, id, addr) && id != p.id ensures Live(s, id, addr) {
      SameQueue(t, l, id, addr);
      SameQueue(q, s, id, addr);
    }
    if Genuine(s) {
      LongerProgram(s, p);
      assert q.program[|s.program|] == p;
      GenuineFrame(l, t);
    }
  }

  lemma SameQueue(s: Lsq, t: Lsq, id: nat, addr: nat)
    requires s.lq == t.lq && Live(s, id, addr)
    ensures Live(t, id, addr)
  {
  }

  lemma GenuineFrame(s: Lsq, t: Lsq)
    requires Genuine(s) && t.lq == s.lq && t.observed == s.observed && t.program == s.program
    ensures Genuine(t)
  {
    hide IsLoad;
  }

  lemma LongerProgram(s: Lsq, p: MemInstr)
    requires Genuine(s)
    ensures Genuine(PushInstr(s, p))
  {
    forall id, addr | IsLoad(s.program, id, addr) ensures IsLoad(s.program + [p], id, addr) {
      var k :| 0 <= k < |s.program| && s.program[k].id == id && addr in s.program[k].loads;
      assert (s.program + [p])[k] == s.program[k];
    }
    hide IsLoad;
  }

  /** A load in the queue was there before the step, unless it is of the instruction being dispatched. */
  lemma LiveBefore(s: Lsq, e: Event, id: nat, addr: nat)
    requires Good(s) && Enabled(s, e) && Live(Apply(s, e), id, addr) && (e.Dispatches? ==> e.p.id != id)
    ensures Live(s, id, addr)
  {
    ApplyLeaves(s, e);
    hide Good, Enabled, Apply, Live;
  }

  lemma ApplyLeaves(s: Lsq, e: Event)
    requires Good(s) && Enabled(s, e)
    ensures forall id, addr :: Live(Apply(s, e), id, addr) && (e.Dispatches? ==> e.p.id != id) ==> Live(s, id, addr)
    ensures Genuine(s) ==> Genuine(Apply(s, e))
  {
    var t := Apply(s, e);
    hide Good, Live, Genuine, StoreStage, IssueLoads, AnswerBlocks, Dispatch, FreeSlots;
    match e
    case Clock(now) => SlotsLeave(s, t);
    case Executes(i, latency) => SlotsLeave(s, t);
    case Completes(i) => SlotsLeave(s, t);
    case Retires => SlotsLeave(s, t);
    case Responses(blocks) => AnswerBlocksLeaves(s, blocks);
    case StoreTurn(width, room) => StoreStageLeaves(s, width, room);
    case LoadTurn(width, room) => IssueLoadsLeaves(s, 0, width, room);
    case Dispatches(p) => DispatchAdds(s, p);
  }

  /** Between any two steps: loads belong to the program and none is lost. */
  ghost predicate Sound(s: Lsq) { Good(s) && Genuine(s) && Tracked(s) }

  lemma ApplySound(s: Lsq, e: Event)
    requires Sound(s) && Enabled(s, e)
    ensures Sound(Apply(s, e))
  {
    ApplyLeaves(s, e);
    ApplyFollows(s, e, Everyone(s));
    hide Good, Apply, Genuine, Tracked, Enabled;
  }

  lemma {:induction false} RunSound(s: Lsq, es: seq<Event>, t: Lsq)
    requires Sound(s) && Reaches(s, es, t)
    ensures Sound(t)
    decreases |es|
  {
    hide Good, Apply, Genuine, Tracked, Enabled;
    if es != [] {
      ApplySound(s, es[0]);
      RunSound(Apply(s, es[0]), es[1..], t);
    }
  }

  lemma StartSound(slots: nat)
    ensures Sound(Start(slots))
  {
    StartIsGood(slots);
  }

  // Who gives a load its value, on the text of the program.

  lemma {:induction false} LastBeforeSplit(a: seq<Store>, b: seq<Store>, addr: nat, id: nat, own: nat)
    requires own < id && forall k :: 0 <= k < |b| ==> b[k].id == own
    ensures LastBefore(a + b, addr, id)
         == if exists k :: 0 <= k < |b| && b[k].addr == addr then Some(own) else LastBefore(a, addr, id)
  {
    if b == [] {
      assert a + b == a;
    } else {
      LastBeforeSplit(a, b[..|b| - 1], addr, id, own);
      assert (a + b)[..|a + b| - 1] == a + b[..|b| - 1];
    }
  }

  /** Among the first n instructions, i is the last to store to the address. */
  predicate LastStore(program: seq<MemInstr>, n: nat, i: int, addr: nat) {
    0 <= i < n <= |program| && addr in program[i].stores && forall k :: i < k < n ==> addr !in program[k].stores
  }

  lemma {:induction false} LastBeforeText(program: seq<MemInstr>, n: nat, addr: nat, id: nat)
    requires n <= |program| && Increasing(program) && forall k :: 0 <= k < n ==> program[k].id < id
    ensures var r := LastBefore(StoresOf(program[..n]), addr, id);
            && (r.Some? ==> exists i :: LastStore(program, n, i, addr) && program[i].id == r.value)
            && (forall i :: LastStore(program, n, i, addr) ==> r == Some(program[i].id))
  {
    if n > 0 {
      LastBeforeText(program, n - 1, addr, id);
      assert program[..n][..n - 1] == program[..n - 1];
      var p := program[n - 1];
      var before := LastBefore(StoresOf(program[..n - 1]), addr, id);
      LastBeforeSplit(StoresOf(program[..n - 1]), StoresIn(p), addr, id, p.id);
      if addr in p.stores {
        var k :| 0 <= k < |p.stores| && p.stores[k] == addr;
        assert StoresIn(p)[k].addr == addr;
        assert LastStore(program, n, n - 1, addr);
      } else {
        assert forall i :: LastStore(program, n, i, addr) ==> LastStore(program, n - 1, i, addr);
        if before.Some? {
          var i :| LastStore(program, n - 1, i, addr) && program[i].id == before.value;
          assert LastStore(program, n, i, addr);
        }
      }
    }
  }

  /** Stores of the instruction itself and of later ones do not matter. */
  lemma {:induction false} LastBeforeUpTo(program: seq<MemInstr>, d: nat, n: nat, addr: nat)
    requires n <= d <= |program| && n < |program| && Increasing(program)
    ensures LastBefore(StoresOf(program[..d]), addr, program[n].id)
         == LastBefore(StoresOf(program[..n]), addr, program[n].id)
    decreases d
  {
    if d > n {
      LastBeforeUpTo(program, d - 1, n, addr);
      assert program[..d][..d - 1] == program[..d - 1];
      LastBeforeSkips(StoresOf(program[..d - 1]), StoresIn(program[d - 1]), addr, program[n].id);
    }
  }

  /** The store that program order gives a load. */
  lemma SourceFeeds(program: seq<MemInstr>, j: nat, addr: nat)
    requires Increasing(program) && j < |program| && addr in program[j].loads
    ensures var r := LastBefore(StoresOf(program), addr, program[j].id);
            && (r.Some? ==> exists i :: Feeds(program, i, j, addr) && program[i].id == r.value)
            && (forall i :: Feeds(program, i, j, addr) ==> r == Some(program[i].id))
  {
    assert program[..|program|] == program;
    LastBeforeUpTo(program, |program|, j, addr);
    LastBeforeText(program, j, addr, program[j].id);
    var r := LastBefore(StoresOf(program), addr, program[j].id);
    if r.Some? {
      var i :| LastStore(program, j, i, addr) && program[i].id == r.value;
      assert Feeds(program, i, j, addr);
    }
    forall i | Feeds(program, i, j, addr) ensures r == Some(program[i].id) { assert LastStore(program, j, i, addr); }
  }

  // In clear programs no load is given its value early.

  lemma SourceOf(s: Lsq, program: seq<MemInstr>, n: nat) returns (i: int, j: int)
    requires Sound(s) && Increasing(program) && s.program <= program
    requires n < |s.observed| && s.observed[n].source.Some?
    ensures Feeds(program, i, j, s.observed[n].addr) && program[i].id == s.observed[n].source.value && j < |s.program|
  {
    var o := s.observed[n];
    assert IsLoad(s.program, o.id, o.addr);
    j :| 0 <= j < |s.program| && s.program[j].id == o.id && o.addr in s.program[j].loads;
    SourceFeeds(s.program, j, o.addr);
    i :| Feeds(s.program, i, j, o.addr) && s.program[i].id == o.source.value;
    assert Feeds(program, i, j, o.addr);
  }

  lemma ClearIsPrompt(s: Lsq, program: seq<MemInstr>)
    requires Sound(s) && Increasing(program) && Clear(program) && s.program <= program
    ensures Prompt(s) && !Early(s)
  {
    forall n | 0 <= n < |s.observed| && s.observed[n].source.Some?
      ensures forall id: nat, addr: nat :: IsLoad(s.program, id, addr) ==> s.observed[n].source != Some(id)
    {
      var i, j := SourceOf(s, program, n);
      assert program[i].loads == [];
    }
    forall k, j | 0 <= k < |s.program| && 0 <= j < |s.program[k].loads|
      ensures IsLoad(s.program, s.program[k].id, s.program[k].loads[j])
    {
    }
  }

  // Building runs.

  lemma ReachesStep(s: Lsq, e: Event)
    requires Good(s) && Enabled(s, e)
    ensures CanReach(s, Apply(s, e))
  {
    hide Good, Enabled, Apply, Reaches;
    ReachesSelf(Apply(s, e));
    ReachesOn(s, e, [], Apply(s, e));
  }

  lemma {:induction false} ReachesAppend(s: Lsq, es: seq<Event>, t: Lsq, fs: seq<Event>, u: Lsq)
    requires Reaches(s, es, t) && Reaches(t, fs, u)
    ensures Reaches(s, es + fs, u)
    decreases |es|
  {
    hide Good, Enabled, Apply;
    if es == [] {
      assert es + fs == fs;
    } else {
      ReachesAppend(Apply(s, es[0]), es[1..], t, fs, u);
      assert (es + fs)[1..] == es[1..] + fs;
    }
  }

  lemma CanReachThen(s: Lsq, t: Lsq, u: Lsq)
    requires CanReach(s, t) && CanReach(t, u)
    ensures CanReach(s, u)
  {
    hide Reaches;
    var es :| Reaches(s, es, t);
    var fs :| Reaches(t, fs, u);
    ReachesAppend(s, es, t, fs, u);
  }

  lemma CanReachSound(s: Lsq, t: Lsq)
    requires Sound(s) && CanReach(s, t)
    ensures Sound(t)
  {
    hide Sound, Reaches;
    var es :| Reaches(s, es, t);
    RunSound(s, es, t);
  }

  /** One more step of a run. */
  lemma GoOn(s: Lsq, t: Lsq, e: Event)
    requires CanReach(s, t) && Good(t) && Enabled(t, e)
    ensures CanReach(s, Apply(t, e)) && Good(Apply(t, e))
  {
    hide Good, Enabled, Apply, CanReach;
    ReachesStep(t, e);
    CanReachThen(s, t, Apply(t, e));
  }

  // Steps that finish everything in reach.

  /** No load of the instruction waits for a store. */
  predicate Plain(s: Lsq, id: nat) {
    forall w :: 0 <= w < |s.lq| && s.lq[w].Some? && s.lq[w].value.id == id ==> s.lq[w].value.producer.None?
  }

  /** Loads of other instructions may leave. */
  predicate Calm(s: Lsq, t: Lsq, id: nat) {
    && t.now == s.now && |t.lq| == |s.lq| && s.observed <= t.observed
    && (forall w :: 0 <= w < |s.lq| && t.lq[w].Some? ==> t.lq[w] == s.lq[w])
    && (forall w :: 0 <= w < |s.lq| && s.lq[w].Some? && s.lq[w].value.id == id ==> t.lq[w] == s.lq[w])
    && (forall n :: |s.observed| <= n < |t.observed| ==> t.observed[n].id != id)
  }

  lemma CalmThen(s: Lsq, t: Lsq, u: Lsq, id: nat)
    requires Calm(s, t, id) && Calm(t, u, id)
    ensures Calm(s, u, id)
  {
  }

  lemma {:induction false} ReleaseAllCalm(s: Lsq, k: nat, id: nat)
    requires k < |s.sq| && !s.sq[k].issued && Inv(s, s.sq[k].id, -1) && Plain(s, id)
    ensures Calm(s, ReleaseAll(s, k), id)
    decreases |s.sq[k].waiters|
  {
    hide Inv;
    if s.sq[k].waiters != [] {
      ReleaseKeeps(s, k);
      var r := Release(s, k);
      assert Calm(s, r, id) && Plain(r, id);
      hide Calm, Release;
      ReleaseAllCalm(r, k, id);
      CalmThen(s, r, ReleaseAll(s, k), id);
    }
  }

  lemma FinishStoreIs(s: Lsq, k: nat, id: nat)
    requires Good(s) && NextStore(s, k) && Plain(s, id)
    ensures FinishStore(s, k).sq == s.sq[k := s.sq[k].(issued := true, ready := At(s.now), waiters := [])]
    ensures Calm(s, FinishStore(s, k), id)
  {
    hide Inv, Bump, ReleaseAll;
    BumpStoreKeeps(s, 0, k);
    var b := s.(rob := Bump(s.rob, s.sq[k].id));
    ReleaseAllCalm(b, k, id);
  }

  /** The stores from k to k + bw are due. */
  predicate DueTo(s: Lsq, k: nat, bw: nat) {
    && k + bw <= |s.sq| && forall j :: k <= j < k + bw ==> Due(s.sq[j].ready, s.now)
  }

  lemma {:induction false} FinishesDue(s: Lsq, k: nat, bw: nat, id: nat)
    requires Good(s) && DueTo(s, k, bw) && (k < |s.sq| ==> NextStore(s, k)) && Plain(s, id)
    ensures Calm(s, FinishStores(s, k, bw), id) && FinishedTo(s, FinishStores(s, k, bw), k, bw)
    decreases bw
  {
    hide Good, FinishStore, NextStore;
    if bw > 0 {
      var t := FinishStore(s, k);
      FinishStoreIs(s, k, id);
      assert Plain(t, id) && DueTo(t, k + 1, bw - 1);
      FinishesDue(t, k + 1, bw - 1, id);
      hide Calm;
      CalmThen(s, t, FinishStores(s, k, bw), id);
    }
  }

  lemma {:induction false} DrainsNone(s: Lsq, bw: nat)
    requires Good(s)
    ensures DrainStores(s, bw, 0) == s
  {
  }

  /** A store turn with room for the stores of the oldest instruction. */
  lemma StoreTurnFinishes(s: Lsq, bw: nat, id: nat)
    requires Good(s) && DueTo(s, 0, bw) && (forall k :: 0 <= k < |s.sq| ==> !s.sq[k].issued) && Plain(s, id)
    ensures var t := StoreStage(s, bw, 0); Calm(s, t, id) && FinishedTo(s, t, 0, bw)
  {
    hide Good, FinishStores, DrainStores, Calm, FinishedTo;
    assert IssuedPrefix(s.sq) == 0;
    FinishesDue(s, 0, bw, id);
    DrainsNone(FinishStores(s, 0, bw), bw - DueRun(s.sq, 0, bw, s.now));
  }

  // One instruction from dispatch to the cache, with nothing else in flight.

  predicate Idle(s: Lsq) {
    s.rob == [] && s.sq == [] && forall w :: 0 <= w < |s.lq| ==> s.lq[w].None?
  }

  lemma {:induction false} FreeIfNone(lq: seq<Option<Load>>)
    requires forall w :: 0 <= w < |lq| ==> lq[w].None?
    ensures FreeSlots(lq) == |lq|
  {
    if lq != [] { FreeIfNone(lq[..|lq| - 1]); }
  }

  /** The instruction is the oldest and none of its operations has begun. */
  predicate Oldest(s: Lsq, p: MemInstr) {
    && s.rob != [] && s.rob[0].id == p.id && Plain(s, p.id) && |p.stores| <= |s.sq|
    && (forall k :: 0 <= k < |p.stores| ==> s.sq[k].id == p.id && s.sq[k].addr == p.stores[k])
    && (forall k :: |p.stores| <= k < |s.sq| ==> s.sq[k].id != p.id)
    && (forall k :: 0 <= k < |s.sq| ==> !s.sq[k].issued)
    && (forall w :: 0 <= w < |s.lq| && s.lq[w].Some? ==> !s.lq[w].value.issued)
    && (forall n :: 0 <= n < |s.observed| ==> s.observed[n].id != p.id)
    && (p.loads != [] ==> exists w :: 0 <= w < |s.lq| && s.lq[w].Some? && s.lq[w].value.id == p.id)
  }

  /** It has not executed either. */
  predicate Held(s: Lsq, p: MemInstr) { Oldest(s, p) && !s.rob[0].executed }

  lemma {:induction false} LoadsAlone(s: Lsq, p: MemInstr, n: nat)
    requires n <= |p.loads| <= FreeSlots(s.lq) && s.sq == [] && forall w :: 0 <= w < |s.lq| ==> s.lq[w].None?
    ensures var t := DispatchLoads(s, p, n);
            && t == s.(lq := t.lq) && |t.lq| == |s.lq|
            && (forall w :: 0 <= w < |t.lq| && t.lq[w].Some? ==>
                  t.lq[w].value == Load(t.lq[w].value.addr, p.id, None, false, Never, Never))
            && (n > 0 ==> exists w :: 0 <= w < |t.lq| && t.lq[w].Some?)
  {
    hide FreeSlots;
    if n > 0 {
      LoadsAlone(s, p, n - 1);
      var t := DispatchLoads(s, p, n - 1);
      LoadTakesSlot(t, p.loads[n - 1], p.id);
      var w := FirstFree(t.lq);
      assert DispatchLoads(s, p, n).lq[w].Some?;
    }
  }

  /** Nothing else is in flight. */
  predicate Alone(s: Lsq, p: MemInstr) {
    && |s.rob| == 1 && |s.sq| == |p.stores|
    && forall w :: 0 <= w < |s.lq| && s.lq[w].Some? ==> s.lq[w].value.id == p.id && s.lq[w].value.producer.None?
  }

  lemma DispatchHeld(s: Lsq, p: MemInstr)
    requires Good(s) && Idle(s) && !Dispatched(s.program, p.id) && |p.loads| <= |s.lq|
    ensures |p.loads| <= FreeSlots(s.lq)
    ensures var t := Dispatch(s, p);
            && Held(t, p) && Alone(t, p) && |t.lq| == |s.lq| && t.program == s.program + [p]
            && FreeSlots(t.lq) + |p.loads| >= |s.lq|
  {
    hide Good, FreeSlots, DispatchLoads, Dispatched;
    FreeIfNone(s.lq);
    ObservedOlder(s, p.id);
    var q := PushInstr(s, p);
    LoadsAlone(q, p, |p.loads|);
    StoresAlone(q, DispatchLoads(q, p, |p.loads|), p);
  }

  lemma StoresAlone(q: Lsq, l: Lsq, p: MemInstr)
    requires l == q.(lq := l.lq) && |q.rob| == 1 && q.rob[0].id == p.id && !q.rob[0].executed && q.sq == []
    requires forall w :: 0 <= w < |l.lq| && l.lq[w].Some? ==>
      l.lq[w].value == Load(l.lq[w].value.addr, p.id, None, false, Never, Never)
    requires |p.loads| > 0 ==> exists w :: 0 <= w < |l.lq| && l.lq[w].Some?
    requires forall n :: 0 <= n < |q.observed| ==> q.observed[n].id != p.id
    ensures Held(PushStores(l, p), p) && Alone(PushStores(l, p), p)
  {
  }

  lemma ObservedOlder(s: Lsq, id: nat)
    requires Good(s) && !Dispatched(s.program, id)
    ensures forall n :: 0 <= n < |s.observed| ==> s.observed[n].id != id
  {
  }

  /** Executed, with everything due and no store finished yet. */
  predicate Executing(s: Lsq, p: MemInstr) {
    && Alone(s, p) && s.rob[0].id == p.id && s.rob[0].executed
    && (forall k :: 0 <= k < |s.sq| ==> !s.sq[k].issued && Due(s.sq[k].ready, s.now))
    && (forall w :: 0 <= w < |s.lq| && s.lq[w].Some? ==> Issuable(s, w))
  }

  lemma ExecuteAlone(s: Lsq, p: MemInstr)
    requires Held(s, p) && Alone(s, p)
    ensures var t := Execute(s, 0, 0).(now := s.now + 1); Executing(t, p)
  {
  }

  /** What the turns of the two queues leave of a state. */
  predicate Onwards(s: Lsq, t: Lsq) {
    && t.program == s.program && |t.rob| == |s.rob| && |t.lq| == |s.lq|
    && forall i :: 0 <= i < |s.rob| ==>
         && t.rob[i].id == s.rob[i].id && t.rob[i].executed == s.rob[i].executed
         && t.rob[i].completed == s.rob[i].completed
  }

  lemma StoresOnwards(s: Lsq, p: MemInstr)
    requires Good(s) && Executing(s, p)
    ensures var t := StoreStage(s, |s.sq|, 0);
            && Onwards(s, t) && Executing(s, p) && |t.sq| == |s.sq|
            && (forall k :: 0 <= k < |t.sq| ==> t.sq[k].issued && Due(t.sq[k].ready, t.now))
            && (forall w :: 0 <= w < |t.lq| && t.lq[w].Some? ==> Issuable(t, w))
  {
    hide Good, StoreStage;
    StoreTurnFinishes(s, |s.sq|, p.id);
    StoresSteady(s, |s.sq|, 0);
  }

  function BlocksOf(lq: seq<Option<Load>>): seq<nat> {
    seq(|lq|, w requires 0 <= w < |lq| => if lq[w].Some? then Block(lq[w].value.addr) else 0)
  }

  lemma LoadsOnwards(s: Lsq)
    requires Good(s) && forall w :: 0 <= w < |s.lq| && s.lq[w].Some? ==> Issuable(s, w)
    ensures var i := IssueLoads(s, 0, |s.lq|, |s.lq|); var t := AnswerBlocks(i, BlocksOf(i.lq));
            Onwards(s, t) && t.sq == s.sq && t.now == s.now && forall w :: 0 <= w < |t.lq| ==> t.lq[w].None?
  {
    hide Good, IssueLoads, AnswerBlocks;
    IssuesExactly(s, |s.lq|, |s.lq|);
    var i := IssueLoads(s, 0, |s.lq|, |s.lq|);
    forall w | 0 <= w < |i.lq| && i.lq[w].Some? ensures Asks(i.lq[w], BlocksOf(i.lq)) {
      assert Served(Sendable(s), w, |s.lq|);
      assert BlocksOf(i.lq)[w] == i.lq[w].value.addr / 64;
    }
    AnswersExactly(i, BlocksOf(i.lq));
    AnswersSteady(i, BlocksOf(i.lq));
  }

  lemma NothingLive(s: Lsq)
    requires Good(s) && s.rob != [] && (forall w :: 0 <= w < |s.lq| ==> s.lq[w].None?)
    requires forall k :: 0 <= k < |s.sq| ==> s.sq[k].issued
    ensures s.rob[0].done == s.rob[0].ops
  {
    CountIn(LqIds(s.lq), s.rob[0].id);
    CountIn(SqIds(s.sq), s.rob[0].id);
  }

  lemma {:induction false} AllIssued(sq: seq<StoreEntry>)
    requires forall k :: 0 <= k < |sq| ==> sq[k].issued
    ensures IssuedPrefix(sq) == |sq|
  {
  }

  lemma DrainTurn(s: Lsq)
    requires Good(s) && s.rob == [] && forall k :: 0 <= k < |s.sq| ==> s.sq[k].issued && Due(s.sq[k].ready, s.now)
    ensures var t := StoreStage(s, |s.sq|, |s.sq|); t.sq == [] && t.rob == [] && t.lq == s.lq
  {
    AllIssued(s.sq);
    var m := DrainsExactly(s, |s.sq|, |s.sq|);
    hide Good, DrainStores;
    assert FinishStores(s, |s.sq|, |s.sq|) == s;
  }

  /** The instruction executes, finishes its stores and is given its loads. */
  lemma Operate(s: Lsq, p: MemInstr) returns (t: Lsq)
    requires Good(s) && Held(s, p) && Alone(s, p)
    ensures CanReach(s, t) && Good(t) && t.program == s.program && |t.lq| == |s.lq| && |t.rob| == 1
    ensures t.rob[0].executed && t.rob[0].done == t.rob[0].ops
    ensures forall w :: 0 <= w < |t.lq| ==> t.lq[w].None?
    ensures forall k :: 0 <= k < |t.sq| ==> t.sq[k].issued && Due(t.sq[k].ready, t.now)
  {
    hide Good, CanReach, Alone, Held, Executing, StoreStage, IssueLoads, AnswerBlocks, Issuable;
    var e := ExecuteNow(s, p);
    StoresOnwards(e, p);
    GoOn(s, e, StoreTurn(|e.sq|, 0));
    var f := StoreStage(e, |e.sq|, 0);
    LoadsOnwards(f);
    GoOn(s, f, LoadTurn(|f.lq|, |f.lq|));
    var l := IssueLoads(f, 0, |f.lq|, |f.lq|);
    GoOn(s, l, Responses(BlocksOf(l.lq)));
    t := AnswerBlocks(l, BlocksOf(l.lq));
    assert |e.rob| == 1 && e.rob[0].executed by { ExecutingHead(e, p); }
    NothingLive(t);
  }

  lemma ExecutingHead(s: Lsq, p: MemInstr)
    requires Executing(s, p)
    ensures |s.rob| == 1 && s.rob[0].executed
  {
  }

  lemma ExecuteNow(s: Lsq, p: MemInstr) returns (t: Lsq)
    requires Good(s) && Held(s, p) && Alone(s, p)
    ensures CanReach(s, t) && Good(t) && Executing(t, p) && t.program == s.program && |t.lq| == |s.lq|
  {
    ExecuteAlone(s, p);
    hide Good, CanReach, Alone, Held, Executing;
    ReachesStep(s, Executes(0, 0));
    var e := Execute(s, 0, 0);
    t := e.(now := s.now + 1);
    GoOn(s, e, Clock(s.now + 1));
  }

  /** It completes, retires, and its stores are handed to the cache. */
  lemma Leave(s: Lsq) returns (t: Lsq)
    requires Good(s) && |s.rob| == 1 && s.rob[0].executed && s.rob[0].done == s.rob[0].ops
    requires forall w :: 0 <= w < |s.lq| ==> s.lq[w].None?
    requires forall k :: 0 <= k < |s.sq| ==> s.sq[k].issued && Due(s.sq[k].ready, s.now)
    ensures CanReach(s, t) && Good(t) && Idle(t) && t.program == s.program && |t.lq| == |s.lq|
  {
    hide Good, CanReach, StoreStage, Due;
    ReachesStep(s, Completes(0));
    var c := Complete(s, 0);
    GoOn(s, c, Retires);
    var r := RetireHead(c);
    DrainTurn(r);
    GoOn(s, r, StoreTurn(|r.sq|, |r.sq|));
    t := StoreStage(r, |r.sq|, |r.sq|);
    StoresSteady(r, |r.sq|, |r.sq|);
  }

  lemma RunOne(s: Lsq, p: MemInstr) returns (t: Lsq)
    requires Good(s) && Idle(s) && !Dispatched(s.program, p.id) && |p.loads| <= |s.lq|
    ensures CanReach(s, t) && Good(t) && Idle(t) && t.program == s.program + [p] && |t.lq| == |s.lq|
  {
    hide Good, CanReach, Idle, Alone, Held, Dispatch, FreeSlots, Dispatched;
    DispatchHeld(s, p);
    ReachesStep(s, Dispatches(p));
    var d := Dispatch(s, p);
    var o := Operate(d, p);
    CanReachThen(s, d, o);
    t := Leave(o);
    CanReachThen(s, o, t);
  }

  lemma {:induction false} RunBefore(program: seq<MemInstr>, n: nat, slots: nat) returns (t: Lsq)
    requires Increasing(program) && n <= |program| && forall k :: 0 <= k < n ==> |program[k].loads| <= slots
    ensures CanReach(Start(slots), t) && Good(t) && Idle(t) && t.program == program[..n] && |t.lq| == slots
  {
    if n == 0 {
      t := Start(slots);
      StartIsGood(slots);
      hide Good;
      ReachesSelf(t);
    } else {
      var s := RunBefore(program, n - 1, slots);
      hide Good, CanReach, Idle;
      t := RunOne(s, program[n - 1]);
      CanReachThen(Start(slots), s, t);
    }
  }

  // The instructions up to the reader enter, and only the storing one goes on.

  lemma HeldDispatchLoad(s: Lsq, p: MemInstr, addr: nat, id: nat)
    requires Held(s, p) && FreeSlots(s.lq) > 0 && id != p.id
    ensures Held(DispatchLoad(s, addr, id), p)
  {
    var t := DispatchLoad(s, addr, id);
    hide FreeSlots;
    if p.loads != [] {
      var w :| 0 <= w < |s.lq| && s.lq[w].Some? && s.lq[w].value.id == p.id;
      assert t.lq[w] == s.lq[w];
    }
  }

  lemma {:induction false} HeldDispatchLoads(s: Lsq, p: MemInstr, q: MemInstr, n: nat)
    requires Held(s, p) && n <= |q.loads| && n <= FreeSlots(s.lq) && q.id != p.id
    ensures Held(DispatchLoads(s, q, n), p)
  {
    hide Held, FreeSlots, DispatchLoad;
    if n > 0 {
      HeldDispatchLoads(s, p, q, n - 1);
      var t := DispatchLoads(s, q, n - 1);
      LoadTakesSlot(t, q.loads[n - 1], q.id);
      HeldDispatchLoad(t, p, q.loads[n - 1], q.id);
    }
  }

  lemma HeldDispatch(s: Lsq, p: MemInstr, q: MemInstr)
    requires Held(s, p) && |q.loads| <= FreeSlots(s.lq) && q.id != p.id
    ensures Held(Dispatch(s, q), p) && FreeSlots(Dispatch(s, q).lq) + |q.loads| >= FreeSlots(s.lq)
    ensures Dispatch(s, q).program == s.program + [q]
  {
    var r := PushInstr(s, q);
    assert Held(r, p);
    HeldDispatchLoads(r, p, q, |q.loads|);
    DispatchLoadsProgram(r, q, |q.loads|);
    hide DispatchLoads, FreeSlots;
  }

  /** The number of loads of instructions i to n. */
  function LoadCount(program: seq<MemInstr>, i: nat, n: nat): nat
    requires i <= n <= |program|
    decreases n
  {
    if i == n then 0 else LoadCount(program, i, n - 1) + |program[n - 1].loads|
  }

  lemma {:induction false} LoadCountBounds(program: seq<MemInstr>, i: nat, n: nat)
    requires i <= n <= |program|
    ensures LoadCount(program, 0, n) >= LoadCount(program, i, n)
    ensures forall k :: 0 <= k < n ==> |program[k].loads| <= LoadCount(program, 0, n)
    decreases n
  {
    if i < n { LoadCountBounds(program, i, n - 1); } else if n > 0 { LoadCountBounds(program, n - 1, n - 1); }
  }

  lemma {:induction false} DispatchUpTo(s: Lsq, program: seq<MemInstr>, i: nat, n: nat) returns (t: Lsq)
    requires Good(s) && Increasing(program) && i < n <= |program| && s.program == program[..i] && Idle(s)
    requires LoadCount(program, i, |program|) <= |s.lq|
    ensures CanReach(s, t) && Good(t) && Held(t, program[i]) && t.program == program[..n]
    ensures FreeSlots(t.lq) + LoadCount(program, i, n) >= |s.lq|
    decreases n
  {
    hide Good, CanReach, Idle, Held, Dispatch, FreeSlots, Alone;
    LoadCountGrows(program, i, n, |program|);
    if n == i + 1 {
      DispatchHeld(s, program[i]);
      assert LoadCount(program, i, n) == |program[i].loads|;
      ReachesStep(s, Dispatches(program[i]));
      t := Dispatch(s, program[i]);
    } else {
      var u := DispatchUpTo(s, program, i, n - 1);
      HeldDispatch(u, program[i], program[n - 1]);
      GoOn(s, u, Dispatches(program[n - 1]));
      t := Dispatch(u, program[n - 1]);
    }
  }

  lemma {:induction false} LoadCountGrows(program: seq<MemInstr>, i: nat, n: nat, m: nat)
    requires i <= n <= m <= |program|
    ensures LoadCount(program, i, n) <= LoadCount(program, i, m)
    decreases m
  {
    if n < m { LoadCountGrows(program, i, n, m - 1); }
  }

  lemma ExecuteHeld(s: Lsq, p: MemInstr)
    requires Held(s, p)
    ensures Oldest(Execute(s, 0, 0), p) && DueTo(Execute(s, 0, 0), 0, |p.stores|)
  {
    var t := Execute(s, 0, 0);
    if p.loads != [] {
      var w :| 0 <= w < |s.lq| && s.lq[w].Some? && s.lq[w].value.id == p.id;
      assert t.lq[w].Some? && t.lq[w].value.id == p.id;
    }
  }

  /** The stores of the oldest instruction have finished, its loads have not. */
  ghost predicate Ahead(s: Lsq, p: MemInstr) {
    && (forall k :: 0 <= k < |s.sq| && !s.sq[k].issued ==> s.sq[k].id != p.id)
    && (forall a :: a in p.stores ==> exists k :: 0 <= k < |s.sq| && s.sq[k].addr == a && s.sq[k].id == p.id)
    && (forall n :: 0 <= n < |s.observed| ==> s.observed[n].id != p.id)
    && (p.loads != [] ==> exists w :: 0 <= w < |s.lq| && s.lq[w].Some? && s.lq[w].value.id == p.id)
  }

  lemma StoresAhead(s: Lsq, p: MemInstr)
    requires Good(s) && Oldest(s, p) && DueTo(s, 0, |p.stores|)
    ensures Ahead(StoreStage(s, |p.stores|, 0), p)
  {
    hide Good, StoreStage;
    StoreTurnFinishes(s, |p.stores|, p.id);
    var t := StoreStage(s, |p.stores|, 0);
    forall a | a in p.stores ensures exists k :: 0 <= k < |t.sq| && t.sq[k].addr == a && t.sq[k].id == p.id {
      var k :| 0 <= k < |p.stores| && p.stores[k] == a;
      assert t.sq[k].addr == a;
    }
    if p.loads != [] {
      var w :| 0 <= w < |s.lq| && s.lq[w].Some? && s.lq[w].value.id == p.id;
      assert t.lq[w] == s.lq[w];
    }
  }

  lemma {:induction false} NamedSomewhere(sq: seq<StoreEntry>, w: int) returns (k: nat, j: nat)
    requires Waits(sq, w) > 0
    ensures k < |sq| && !sq[k].issued && j < |sq[k].waiters| && sq[k].waiters[j] == w
  {
    var n := |sq| - 1;
    if !sq[n].issued && Count(sq[n].waiters, w) > 0 {
      CountIn(sq[n].waiters, w);
      k := n;
      j :| 0 <= j < |sq[n].waiters| && sq[n].waiters[j] == w;
    } else {
      k, j := NamedSomewhere(sq[..n], w);
    }
  }

  /** A load that waits, waits for a store that has not finished. */
  lemma ProducerUnfinished(s: Lsq, w: nat)
    requires Good(s) && w < |s.lq| && s.lq[w].Some? && s.lq[w].value.producer.Some?
    ensures exists k :: 0 <= k < |s.sq| && !s.sq[k].issued && s.sq[k].id == s.lq[w].value.producer.value
  {
    var k, j := NamedSomewhere(s.sq, w);
    assert Names(s.lq, s.sq[k], s.sq[k].waiters[j]);
  }

  /** The reader has been given the store. */
  lemma ReaderServed(s: Lsq, i: nat, j: nat, addr: nat) returns (n: nat)
    requires Sound(s) && Feeds(s.program, i, j, addr) && Ahead(s, s.program[i])
    ensures n < |s.observed| && s.observed[n].id == s.program[j].id && s.observed[n].source == Some(s.program[i].id)
  {
    var p, q := s.program[i], s.program[j];
    assert Increasing(s.program);
    SourceFeeds(s.program, j, addr);
    assert LastBefore(s.stores, addr, q.id) == Some(p.id);
    var l :| 0 <= l < |q.loads| && q.loads[l] == addr;
    assert Has(s, q.id, q.loads[l]);
    if Live(s, q.id, addr) {
      var w :| 0 <= w < |s.lq| && s.lq[w].Some? && s.lq[w].value.id == q.id && s.lq[w].value.addr == addr;
      assert LoadOk(s.stores, s.sq, s.lq[w].value);
      if s.lq[w].value.producer.Some? { ProducerUnfinished(s, w); }
      assert false;
    }
    n :| 0 <= n < |s.observed| && s.observed[n].id == q.id && s.observed[n].addr == addr;
  }

  /** Everything older is run to its end first, so that the loads of the storing instruction wait for the cache. */
  lemma FeedIsEarly(program: seq<MemInstr>, i: nat, j: nat, addr: nat) returns (slots: nat, t: Lsq)
    requires Increasing(program) && Feeds(program, i, j, addr) && program[i].loads != []
    ensures CanReach(Start(slots), t) && t.program <= program && Early(t) && !Prompt(t)
  {
    slots := LoadCount(program, 0, |program|);
    LoadCountBounds(program, i, |program|);
    var p := program[i];
    hide Good, CanReach, Held, Idle, Ahead, Sound, FreeSlots, LoadCount, Early, Prompt;
    var s := RunBefore(program, i, slots);
    var d := DispatchUpTo(s, program, i, j + 1);
    CanReachThen(Start(slots), s, d);
    t := GetAhead(d, p);
    CanReachThen(Start(slots), d, t);
    StartSound(slots);
    CanReachSound(Start(slots), t);
    AheadIsEarly(t, program, i, j, addr);
  }

  lemma GetAhead(s: Lsq, p: MemInstr) returns (t: Lsq)
    requires Good(s) && Held(s, p)
    ensures CanReach(s, t) && Ahead(t, p) && t.program == s.program
  {
    hide Good, CanReach, Held, Oldest, DueTo, Ahead;
    ExecuteHeld(s, p);
    assert s.rob != [] && !s.rob[0].executed by { HeldHead(s, p); }
    ReachesStep(s, Executes(0, 0));
    t := FinishAhead(Execute(s, 0, 0), p);
    CanReachThen(s, Execute(s, 0, 0), t);
  }

  lemma FinishAhead(s: Lsq, p: MemInstr) returns (t: Lsq)
    requires Good(s) && Oldest(s, p) && DueTo(s, 0, |p.stores|)
    ensures CanReach(s, t) && Ahead(t, p) && t.program == s.program
  {
    hide Good, CanReach, Oldest, DueTo, StoreStage, Ahead;
    StoresAhead(s, p);
    ReachesStep(s, StoreTurn(|p.stores|, 0));
    t := StoreStage(s, |p.stores|, 0);
    StoresSteady(s, |p.stores|, 0);
  }

  lemma HeldHead(s: Lsq, p: MemInstr)
    requires Held(s, p)
    ensures s.rob != [] && !s.rob[0].executed
  {
  }

  lemma AheadIsEarly(t: Lsq, program: seq<MemInstr>, i: nat, j: nat, addr: nat)
    requires Sound(t) && Feeds(program, i, j, addr) && t.program == program[..j + 1]
    requires program[i].loads != [] && Ahead(t, program[i])
    ensures Early(t) && !Prompt(t)
  {
    hide Sound;
    assert Feeds(t.program, i, j, addr);
    var n := ReaderServed(t, i, j, addr);
    var p := t.program[i];
    var w :| 0 <= w < |t.lq| && t.lq[w].Some? && t.lq[w].value.id == p.id;
    assert t.observed[n].source == Some(t.lq[w].value.id);
    assert !SeenBefore(t.observed, n, p.id, p.loads[0]) && t.program[i].loads[0] == p.loads[0];
  }

  // The result.

  /** In no run over the program, for any size of the load queue, is a load given its value early. */
  ghost predicate NeverEarly(program: seq<MemInstr>) {
    forall slots, t :: CanReach(Start(slots), t) && t.program <= program ==> !Early(t)
  }

  ghost predicate AlwaysPrompt(program: seq<MemInstr>) {
    forall slots, t :: CanReach(Start(slots), t) && t.program <= program ==> Prompt(t)
  }

  /** No load is ever given the store of an instruction that still waits for a load, exactly when no instruction loads
    * what one that loads has stored. */
  lemma ClearExactly(program: seq<MemInstr>)
    requires Increasing(program)
    ensures Clear(program) <==> NeverEarly(program)
    ensures Clear(program) <==> AlwaysPrompt(program)
  {
    hide CanReach, Early, Prompt, Sound;
    if Clear(program) {
      forall slots, t | CanReach(Start(slots), t) && t.program <= program ensures Prompt(t) && !Early(t) {
        StartSound(slots);
        CanReachSound(Start(slots), t);
        ClearIsPrompt(t, program);
      }
    } else {
      var i, j, addr :| Feeds(program, i, j, addr) && program[i].loads != [];
      var slots, t := FeedIsEarly(program, i, j, addr);
    }
  }
}
