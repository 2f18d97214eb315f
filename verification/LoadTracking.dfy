/** Where each load of the program is, and which instructions the values in the queues come from. */
module LoadTracking {
  import opened Counting
  import opened Options
  import opened LoadStoreQueue
  import opened MemoryOrder
  import opened LoadStoreUnit

  /** A load of instruction `id` is in the queue, or has been answered. */
  ghost predicate Live(s: Lsq, id: nat, addr: nat) {
    exists w :: 0 <= w < |s.lq| && s.lq[w].Some? && s.lq[w].value.id == id && s.lq[w].value.addr == addr
  }

  ghost predicate Seen(s: Lsq, id: nat, addr: nat) {
    exists k :: 0 <= k < |s.observed| && s.observed[k].id == id && s.observed[k].addr == addr
  }

  ghost predicate Has(s: Lsq, id: nat, addr: nat) { Live(s, id, addr) || Seen(s, id, addr) }

  /** No load dispatched so far is lost. */
  ghost predicate Tracked(s: Lsq) {
    forall k, j :: 0 <= k < |s.program| && 0 <= j < |s.program[k].loads| ==>
      Has(s, s.program[k].id, s.program[k].loads[j])
  }

  /** Only stores of instructions in `known` have a time, have finished, are in the cache, or have been seen by a
    * load. */
  ghost predicate Sourced(s: Lsq, known: set<nat>) {
    && (forall k :: 0 <= k < |s.sq| && (s.sq[k].issued || s.sq[k].ready.At?) ==> s.sq[k].id in known)
    && (forall k :: 0 <= k < |s.written| ==> s.written[k].id in known)
    && (forall k :: 0 <= k < |s.observed| && s.observed[k].source.Some? ==> s.observed[k].source.value in known)
  }

  /** From s to t nothing is lost and no value comes from elsewhere. */
  ghost predicate Keeps(s: Lsq, t: Lsq, known: set<nat>) {
    && Sourced(t, known) && s.observed <= t.observed
    && forall id, addr :: Has(s, id, addr) ==> Has(t, id, addr)
  }

  /** Of the reorder buffer only the counts of finished operations change. */
  predicate Steady(s: Lsq, t: Lsq) {
    && t.program == s.program && |t.rob| == |s.rob|
    && forall i :: 0 <= i < |s.rob| ==> t.rob[i] == s.rob[i].(done := t.rob[i].done)
  }

  ghost predicate Follows(s: Lsq, t: Lsq, known: set<nat>) { Keeps(s, t, known) && Steady(s, t) }

  lemma FollowsOn(s: Lsq, t: Lsq, u: Lsq, known: set<nat>)
    requires Keeps(s, t, known) && Keeps(t, u, known)
    ensures Keeps(s, u, known) && (Steady(s, t) && Steady(t, u) ==> Follows(s, u, known))
  {
    hide Sourced, Has;
  }

  lemma FollowsThen(s: Lsq, t: Lsq, u: Lsq, known: set<nat>)
    requires Follows(s, t, known) && Follows(t, u, known)
    ensures Follows(s, u, known) && Sourced(t, known)
  {
    FollowsOn(s, t, u, known);
  }

  lemma FollowsSources(s: Lsq, t: Lsq, known: set<nat>)
    requires Keeps(s, t, known)
    ensures Sourced(t, known)
  {
  }

  lemma FollowsHas(s: Lsq, t: Lsq, known: set<nat>, id: nat, addr: nat)
    requires Keeps(s, t, known) && Has(s, id, addr)
    ensures Has(t, id, addr)
  {
  }

  lemma ResolveFollows(s: Lsq, w: nat, source: Option<nat>, known: set<nat>)
    requires w < |s.lq| && s.lq[w].Some? && Sourced(s, known) && (source.Some? ==> source.value in known)
    ensures Follows(s, Resolve(s, w, source), known)
  {
    var t := Resolve(s, w, source);
    var e := s.lq[w].value;
    assert t.observed[|s.observed|] == Observation(e.id, e.addr, source);
    forall id, addr | Has(s, id, addr) ensures Has(t, id, addr) {
      if Seen(s, id, addr) {
        var k :| 0 <= k < |s.observed| && s.observed[k].id == id && s.observed[k].addr == addr;
        assert t.observed[k] == s.observed[k];
      } else {
        var v :| 0 <= v < |s.lq| && s.lq[v].Some? && s.lq[v].value.id == id && s.lq[v].value.addr == addr;
        assert v != w ==> t.lq[v] == s.lq[v];
      }
    }
  }

  /** Steps that leave the loads alone. */
  lemma SameLoads(s: Lsq, t: Lsq, known: set<nat>)
    requires t.observed == s.observed && Sourced(t, known) && |t.lq| == |s.lq|
    requires forall w :: 0 <= w < |s.lq| && s.lq[w].Some? ==>
      t.lq[w].Some? && t.lq[w].value.id == s.lq[w].value.id && t.lq[w].value.addr == s.lq[w].value.addr
    ensures Keeps(s, t, known) && (Steady(s, t) ==> Follows(s, t, known))
  {
    forall id, addr | Live(s, id, addr) ensures Live(t, id, addr) {
      var w :| 0 <= w < |s.lq| && s.lq[w].Some? && s.lq[w].value.id == id && s.lq[w].value.addr == addr;
      assert t.lq[w].value.id == id;
    }
  }

  // Stores.

  lemma ReleaseAllFollows(s: Lsq, k: nat, known: set<nat>)
    requires k < |s.sq| && !s.sq[k].issued && Inv(s, s.sq[k].id, -1) && Sourced(s, known) && s.sq[k].id in known
    ensures Follows(s, ReleaseAll(s, k), known)
    decreases |s.sq[k].waiters|
  {
    if s.sq[k].waiters == [] {
      SameLoads(s, s, known);
    } else {
      ReleaseKeeps(s, k);
      ReleaseFollows(s, k, known);
      hide Inv, Sourced;
      ReleaseAllFollows(Release(s, k), k, known);
      FollowsOn(s, Release(s, k), ReleaseAll(s, k), known);
    }
  }

  lemma ReleaseFollows(s: Lsq, k: nat, known: set<nat>)
    requires Forwarding(s, k) && Names(s.lq, s.sq[k], s.sq[k].waiters[0]) && Sourced(s, known) && s.sq[k].id in known
    ensures Follows(s, Release(s, k), known)
  {
    var t := Resolve(s, s.sq[k].waiters[0], Some(s.sq[k].id));
    ResolveFollows(s, s.sq[k].waiters[0], Some(s.sq[k].id), known);
    SameLoads(t, Release(s, k), known);
    FollowsOn(s, t, Release(s, k), known);
  }

  lemma BumpFollows(s: Lsq, id: nat, known: set<nat>)
    requires Sourced(s, known)
    ensures Follows(s, s.(rob := Bump(s.rob, id)), known) && Sourced(s.(rob := Bump(s.rob, id)), known)
  {
    SameLoads(s, s.(rob := Bump(s.rob, id)), known);
  }

  lemma MarkIssuedFollows(s: Lsq, k: nat, known: set<nat>)
    requires k < |s.sq| && Sourced(s, known) && s.sq[k].id in known
    ensures Follows(s, MarkIssued(s, k), known)
  {
    SameLoads(s, MarkIssued(s, k), known);
  }

  lemma FinishStoreFollows(s: Lsq, k: nat, known: set<nat>)
    requires Good(s) && NextStore(s, k) && Sourced(s, known) && s.sq[k].id in known
    ensures Follows(s, FinishStore(s, k), known)
  {
    BumpStoreKeeps(s, 0, k);
    hide Inv, Good, Sourced, Follows, Bump;
    var b := s.(rob := Bump(s.rob, s.sq[k].id));
    BumpFollows(s, s.sq[k].id, known);
    ReleaseAllFollows(b, k, known);
    var r := ReleaseAll(b, k);
    FollowsKnown(b, r, known);
    MarkIssuedFollows(r, k, known);
    FollowsThen(s, b, r, known);
    FollowsThen(s, r, MarkIssued(r, k), known);
  }

  lemma FollowsKnown(s: Lsq, t: Lsq, known: set<nat>)
    requires Follows(s, t, known)
    ensures Sourced(t, known)
  {
  }

  lemma {:induction false} FinishStoresFollows(s: Lsq, k: nat, bw: nat, known: set<nat>)
    requires Good(s) && k <= |s.sq| && (k < |s.sq| ==> NextStore(s, k)) && Sourced(s, known)
    ensures Follows(s, FinishStores(s, k, bw), known)
    decreases |s.sq| - k
  {
    hide Good, FinishStore, Has;
    if k == |s.sq| || bw == 0 || !Due(s.sq[k].ready, s.now) {
      SameLoads(s, s, known);
    } else {
      assert s.sq[k].id in known;
      var t := FinishStore(s, k);
      assert FinishStores(s, k, bw) == FinishStores(t, k + 1, bw - 1);
      hide FinishStores, Sourced, NextStore, Follows;
      FinishStoreFollows(s, k, known);
      FollowsSources(s, t, known);
      FinishStoresFollows(t, k + 1, bw - 1, known);
      FollowsOn(s, t, FinishStores(s, k, bw), known);
    }
  }

  predicate CanDrain(s: Lsq) { s.sq != [] && Finished(s, s.sq[0]) && Due(s.sq[0].ready, s.now) }

  lemma DrainFollows(s: Lsq, known: set<nat>)
    requires Good(s) && CanDrain(s) && Sourced(s, known)
    ensures Good(Drain(s)) && Follows(s, Drain(s), known) && Sourced(Drain(s), known)
  {
    FinishedIsDrainable(s);
    DrainKeeps(s, 0);
    hide Inv, Finished;
    SameLoads(s, Drain(s), known);
  }

  lemma {:induction false} DrainStoresFollows(s: Lsq, bw: nat, room: nat, known: set<nat>)
    requires Good(s) && Sourced(s, known)
    ensures Follows(s, DrainStores(s, bw, room), known)
    decreases bw
  {
    hide Good, Sourced, Follows, Drain, Finished;
    if !CanDrain(s) || bw == 0 || room == 0 {
      StaysSame(s, known);
    } else {
      DrainFollows(s, known);
      DrainStoresFollows(Drain(s), bw - 1, room - 1, known);
      FollowsThen(s, Drain(s), DrainStores(s, bw, room), known);
    }
  }

  // Loads.

  lemma MarkLoadFollows(s: Lsq, w: nat, known: set<nat>)
    requires Good(s) && w < |s.lq| && Issuable(s, w) && Sourced(s, known)
    ensures Good(MarkLoad(s, w)) && Follows(s, MarkLoad(s, w), known) && Sourced(MarkLoad(s, w), known)
  {
    MarkLoadKeeps(s, 0, w);
    hide Inv;
    SameLoads(s, MarkLoad(s, w), known);
  }

  lemma {:induction false} IssueLoadsFollows(s: Lsq, w: nat, bw: nat, room: nat, known: set<nat>)
    requires Good(s) && w <= |s.lq| && Sourced(s, known)
    ensures Follows(s, IssueLoads(s, w, bw, room), known)
    decreases |s.lq| - w
  {
    hide Good, Follows, Sourced;
    if w == |s.lq| {
      StaysSame(s, known);
    } else if bw > 0 && Issuable(s, w) && room > 0 {
      MarkLoadFollows(s, w, known);
      IssueLoadsFollows(MarkLoad(s, w), w + 1, bw - 1, room - 1, known);
      FollowsThen(s, MarkLoad(s, w), IssueLoads(MarkLoad(s, w), w + 1, bw - 1, room - 1), known);
    } else {
      IssueLoadsFollows(s, w + 1, bw, room, known);
    }
  }

  lemma StaysSame(s: Lsq, known: set<nat>)
    requires Sourced(s, known)
    ensures Follows(s, s, known)
  {
    SameLoads(s, s, known);
  }

  lemma {:induction false} LastWriterIn(stores: seq<Store>, addr: nat, known: set<nat>)
    requires forall k :: 0 <= k < |stores| ==> stores[k].id in known
    ensures LastWriter(stores, addr).Some? ==> LastWriter(stores, addr).value in known
  {
    if stores != [] { LastWriterIn(stores[..|stores| - 1], addr, known); }
  }

  lemma AnswerFollows(s: Lsq, w: nat, block: nat, known: set<nat>)
    requires Good(s) && w < |s.lq| && Answered(s, w, block) && Sourced(s, known)
    ensures Good(Answer(s, w)) && Follows(s, Answer(s, w), known) && Sourced(Answer(s, w), known)
  {
    AnsweredKeeps(s, w, block);
    hide Good;
    LastWriterIn(s.written, s.lq[w].value.addr, known);
    ResolveFollows(s, w, LastWriter(s.written, s.lq[w].value.addr), known);
    FollowsKnown(s, Answer(s, w), known);
  }

  lemma {:induction false} AnswerBlockFollows(s: Lsq, w: nat, block: nat, known: set<nat>)
    requires Good(s) && w <= |s.lq| && Sourced(s, known)
    ensures Follows(s, AnswerBlock(s, w, block), known)
    decreases |s.lq| - w
  {
    hide Good, Follows, Sourced, Answer;
    if w == |s.lq| {
      StaysSame(s, known);
    } else if Answered(s, w, block) {
      AnswerFollows(s, w, block, known);
      AnswerSlots(s, w);
      AnswerBlockFollows(Answer(s, w), w + 1, block, known);
      FollowsThen(s, Answer(s, w), AnswerBlock(Answer(s, w), w + 1, block), known);
    } else {
      AnswerBlockFollows(s, w + 1, block, known);
    }
  }

  lemma AnswerSlots(s: Lsq, w: nat)
    requires w < |s.lq| && s.lq[w].Some?
    ensures |Answer(s, w).lq| == |s.lq|
  {
  }

  lemma {:induction false} AnswerBlocksFollows(s: Lsq, blocks: seq<nat>, known: set<nat>)
    requires Good(s) && Sourced(s, known)
    ensures Follows(s, AnswerBlocks(s, blocks), known)
    decreases |blocks|
  {
    hide Good;
    if blocks == [] {
      SameLoads(s, s, known);
    } else {
      var t := AnswerBlock(s, 0, blocks[0]);
      AnswerBlockFollows(s, 0, blocks[0], known);
      AnswerBlocksFollows(t, blocks[1..], known);
      FollowsOn(s, t, AnswerBlocks(s, blocks), known);
    }
  }

  // Dispatch.

  lemma DispatchLoadFollows(s: Lsq, addr: nat, id: nat, known: set<nat>)
    requires FreeSlots(s.lq) > 0 && Sourced(s, known)
    ensures Follows(s, DispatchLoad(s, addr, id), known) && Has(DispatchLoad(s, addr, id), id, addr)
  {
    var w, f := FirstFree(s.lq), Forwarder(s.sq, addr);
    var t := DispatchLoad(s, addr, id);
    if f.Some? && s.sq[f.value].issued {
      assert t.observed[|s.observed|] == Observation(id, addr, Some(s.sq[f.value].id));
      forall i, a | Has(s, i, a) ensures Has(t, i, a) {
        if Seen(s, i, a) {
          var k :| 0 <= k < |s.observed| && s.observed[k].id == i && s.observed[k].addr == a;
          assert t.observed[k] == s.observed[k];
        } else {
          assert t.lq == s.lq;
        }
      }
    } else {
      assert t.lq[w].Some? && t.lq[w].value.id == id && t.lq[w].value.addr == addr;
      SameLoads(s, t, known);
    }
  }

  lemma {:induction false} DispatchLoadsFollows(s: Lsq, p: MemInstr, n: nat, known: set<nat>)
    requires n <= |p.loads| && n <= FreeSlots(s.lq) && Sourced(s, known)
    ensures var t := DispatchLoads(s, p, n);
      Follows(s, t, known) && forall j :: 0 <= j < n ==> Has(t, p.id, p.loads[j])
  {
    hide Sourced, Has, DispatchLoad, FreeSlots;
    if n == 0 {
      SameLoads(s, s, known);
    } else {
      var t := DispatchLoads(s, p, n - 1);
      DispatchLoadsFollows(s, p, n - 1, known);
      LoadTakesSlot(t, p.loads[n - 1], p.id);
      var u := DispatchLoad(t, p.loads[n - 1], p.id);
      assert DispatchLoads(s, p, n) == u;
      FollowsSources(s, t, known);
      hide DispatchLoads, Follows;
      DispatchLoadFollows(t, p.loads[n - 1], p.id, known);
      FollowsOn(s, t, u, known);
      forall j | 0 <= j < n ensures Has(u, p.id, p.loads[j]) {
        if j < n - 1 { FollowsHas(t, u, known, p.id, p.loads[j]); }
      }
    }
  }

  lemma DispatchFollows(s: Lsq, p: MemInstr, known: set<nat>)
    requires |p.loads| <= FreeSlots(s.lq) && Sourced(s, known) && Tracked(s)
    ensures Keeps(s, Dispatch(s, p), known) && Tracked(Dispatch(s, p))
  {
    var q := PushInstr(s, p);
    SameLoads(s, q, known);
    hide FreeSlots, DispatchLoads;
    DispatchLoadsFollows(q, p, |p.loads|, known);
    var l := DispatchLoads(q, p, |p.loads|);
    DispatchLoadsProgram(q, p, |p.loads|);
    SameLoads(l, Dispatch(s, p), known);
    FollowsOn(s, q, l, known);
    FollowsOn(s, l, Dispatch(s, p), known);
    FollowsOn(q, l, Dispatch(s, p), known);
    hide Has, Sourced;
    var t := Dispatch(s, p);
    forall k, j | 0 <= k < |t.program| && 0 <= j < |t.program[k].loads|
      ensures Has(t, t.program[k].id, t.program[k].loads[j])
    {
      if k < |s.program| { assert Has(s, s.program[k].id, s.program[k].loads[j]); }
    }
  }

  lemma {:induction false} DispatchLoadsProgram(s: Lsq, p: MemInstr, n: nat)
    requires n <= |p.loads| && n <= FreeSlots(s.lq)
    ensures DispatchLoads(s, p, n).program == s.program
  {
    hide FreeSlots;
    if n > 0 { DispatchLoadsProgram(s, p, n - 1); }
  }

  // Any event.

  /** Executing gives the stores of one more instruction their time. */
  ghost function Knows(s: Lsq, e: Event, known: set<nat>): set<nat>
    requires Enabled(s, e)
  {
    if e.Executes? then known + {s.rob[e.i].id} else known
  }

  lemma SourcedMore(s: Lsq, known: set<nat>, id: nat)
    requires Sourced(s, known)
    ensures Sourced(s, known + {id})
  {
  }

  lemma ApplyFollows(s: Lsq, e: Event, known: set<nat>)
    requires Good(s) && Enabled(s, e) && Sourced(s, known) && Tracked(s)
    ensures Keeps(s, Apply(s, e), Knows(s, e, known)) && Tracked(Apply(s, e))
    ensures e.Clock? || e.Responses? || e.StoreTurn? || e.LoadTurn? ==> Steady(s, Apply(s, e))
  {
    hide *;
    match e
    case Dispatches(_) => DispatchesFollows(s, e, known);
    case Responses(_) => TurnFollows(s, e, known);
    case StoreTurn(_, _) => TurnFollows(s, e, known);
    case LoadTurn(_, _) => TurnFollows(s, e, known);
    case _ => MarkFollows(s, e, known);
  }

  lemma DispatchesFollows(s: Lsq, e: Event, known: set<nat>)
    requires Good(s) && Enabled(s, e) && Sourced(s, known) && Tracked(s) && e.Dispatches?
    ensures Keeps(s, Apply(s, e), Knows(s, e, known)) && Tracked(Apply(s, e))
  {
    hide Good, Sourced, Tracked, Keeps, Dispatch;
    DispatchFollows(s, e.p, known);
  }

  lemma TurnFollows(s: Lsq, e: Event, known: set<nat>)
    requires Good(s) && Enabled(s, e) && Sourced(s, known) && Tracked(s)
    requires e.Responses? || e.StoreTurn? || e.LoadTurn?
    ensures Keeps(s, Apply(s, e), Knows(s, e, known)) && Tracked(Apply(s, e)) && Steady(s, Apply(s, e))
  {
    hide Good, Has, Sourced, Tracked, Keeps, Steady, StoreStage, IssueLoads, AnswerBlocks, Follows;
    match e {
      case Responses(blocks) => AnswerBlocksFollows(s, blocks, known);
      case StoreTurn(width, room) => StoreStageFollows(s, width, room, known);
      case LoadTurn(width, room) => IssueLoadsFollows(s, 0, width, room, known);
    }
    FollowsTracked(s, Apply(s, e), known);
  }

  lemma MarkFollows(s: Lsq, e: Event, known: set<nat>)
    requires Good(s) && Enabled(s, e) && Sourced(s, known) && Tracked(s)
    requires e.Clock? || e.Executes? || e.Completes? || e.Retires?
    ensures Keeps(s, Apply(s, e), Knows(s, e, known)) && Tracked(Apply(s, e)) && (e.Clock? ==> Steady(s, Apply(s, e)))
  {
    hide Has, Keeps, Good;
    if e.Executes? { SourcedMore(s, known, s.rob[e.i].id); }
    SameLoads(s, Apply(s, e), Knows(s, e, known));
  }

  lemma FollowsTracked(s: Lsq, t: Lsq, known: set<nat>)
    requires Follows(s, t, known) && Tracked(s)
    ensures Tracked(t) && Keeps(s, t, known) && Steady(s, t)
  {
    hide Has, Sourced;
  }

  lemma NextIs(s: Lsq)
    ensures IssuedPrefix(s.sq) < |s.sq| ==> NextStore(s, IssuedPrefix(s.sq))
  {
  }

  lemma StoreStageFollows(s: Lsq, width: nat, room: nat, known: set<nat>)
    requires Good(s) && Sourced(s, known)
    ensures Follows(s, StoreStage(s, width, room), known) && StoreStage(s, width, room).program == s.program
  {
    hide Good, Sourced, FinishStores, DrainStores, NextStore;
    var k := IssuedPrefix(s.sq);
    assert k < |s.sq| ==> NextStore(s, k) by { NextIs(s); }
    FinishStoresFollows(s, k, width, known);
    var f := FinishStores(s, k, width);
    var t := DrainStores(f, width - DueRun(s.sq, k, width, s.now), room);
    assert t == StoreStage(s, width, room);
    hide Follows, StoreStage, IssuedPrefix, DueRun;
    FollowsSources(s, f, known);
    DrainStoresFollows(f, width - DueRun(s.sq, k, width, s.now), room, known);
    FollowsOn(s, f, t, known);
  }

  /** When all operations of an instruction have finished, all its loads have been answered. */
  lemma FinishedLoadsSeen(s: Lsq, i: nat, k: nat, j: nat)
    requires Good(s) && Tracked(s) && i < |s.rob| && s.rob[i].done == s.rob[i].ops
    requires k < |s.program| && s.program[k].id == s.rob[i].id && j < |s.program[k].loads|
    ensures Seen(s, s.program[k].id, s.program[k].loads[j])
  {
    var id, addr := s.program[k].id, s.program[k].loads[j];
    assert Has(s, id, addr);
    if Live(s, id, addr) {
      var w :| 0 <= w < |s.lq| && s.lq[w].Some? && s.lq[w].value.id == id && s.lq[w].value.addr == addr;
      assert LqIds(s.lq)[w] == id;
      CountIn(LqIds(s.lq), id);
      assert false;
    }
  }

  /** What an event does to the program and to the flags in the reorder buffer. */
  lemma ApplyShape(s: Lsq, e: Event)
    requires Good(s) && Enabled(s, e)
    ensures var t := Apply(s, e);
            && t.program == (if e.Dispatches? then s.program + [e.p] else s.program)
            && |t.rob| == |s.rob| + (if e.Dispatches? then 1 else if e.Retires? then -1 else 0)
            && forall i :: 0 <= i < |t.rob| ==>
                 var j := if e.Retires? then i + 1 else i;
                 && (t.rob[i].executed <==> j < |s.rob| && (s.rob[j].executed || (e.Executes? && e.i == j)))
                 && (t.rob[i].completed <==> j < |s.rob| && (s.rob[j].completed || (e.Completes? && e.i == j)))
  {
    hide Good;
    match e
    case Clock(_) =>
    case Executes(_, _) =>
    case Completes(_) =>
    case Retires =>
    case Responses(blocks) => AnswersSteady(s, blocks);
    case StoreTurn(width, room) => StoresSteady(s, width, room);
    case LoadTurn(width, room) => IssuesSteady(s, width, room);
    case Dispatches(p) => DispatchShape(s, p);
  }

  /** Everyone whose stores are about. */
  ghost function Everyone(s: Lsq): (known: set<nat>)
    ensures Sourced(s, known)
  {
    (set k | 0 <= k < |s.sq| :: s.sq[k].id) + (set k | 0 <= k < |s.written| :: s.written[k].id)
    + (set k | 0 <= k < |s.observed| && s.observed[k].source.Some? :: s.observed[k].source.value)
  }

  lemma AnswersSteady(s: Lsq, blocks: seq<nat>)
    requires Good(s)
    ensures Steady(s, AnswerBlocks(s, blocks))
  {
    hide Good, AnswerBlocks, Sourced;
    AnswerBlocksFollows(s, blocks, Everyone(s));
  }

  lemma StoresSteady(s: Lsq, width: nat, room: nat)
    requires Good(s)
    ensures Steady(s, StoreStage(s, width, room))
  {
    hide Good, StoreStage, Sourced;
    StoreStageFollows(s, width, room, Everyone(s));
  }

  lemma IssuesSteady(s: Lsq, width: nat, room: nat)
    requires Good(s)
    ensures Steady(s, IssueLoads(s, 0, width, room))
  {
    hide Good, IssueLoads, Sourced;
    IssueLoadsFollows(s, 0, width, room, Everyone(s));
  }

  lemma DispatchShape(s: Lsq, p: MemInstr)
    requires |p.loads| <= FreeSlots(s.lq)
    ensures var t := Dispatch(s, p);
            && t.program == s.program + [p] && |t.rob| == |s.rob| + 1
            && forall i :: 0 <= i < |t.rob| ==>
                 && t.rob[i].executed == (i < |s.rob| && s.rob[i].executed)
                 && t.rob[i].completed == (i < |s.rob| && s.rob[i].completed)
  {
    hide FreeSlots;
    LoadsSteady(PushInstr(s, p), p, |p.loads|);
  }

  lemma LoadSteady(s: Lsq, addr: nat, id: nat)
    requires FreeSlots(s.lq) > 0
    ensures Steady(s, DispatchLoad(s, addr, id))
  {
    hide FreeSlots, FirstFree, Forwarder;
  }

  lemma SteadyOn(s: Lsq, t: Lsq, u: Lsq)
    requires Steady(s, t) && Steady(t, u)
    ensures Steady(s, u)
  {
  }

  lemma {:induction false} LoadsSteady(s: Lsq, p: MemInstr, n: nat)
    requires n <= |p.loads| && n <= FreeSlots(s.lq)
    ensures Steady(s, DispatchLoads(s, p, n))
  {
    hide FreeSlots, FirstFree;
    if n > 0 {
      LoadsSteady(s, p, n - 1);
      hide Steady, DispatchLoad;
      var t := DispatchLoads(s, p, n - 1);
      LoadSteady(t, p.loads[n - 1], p.id);
      SteadyOn(s, t, DispatchLoads(s, p, n));
    }
  }

  // A store's data does not wait for the loads of its own instruction.

  function Exchange(): MemInstr { MemInstr(1, [0], [64]) }

  function Reader(): MemInstr { MemInstr(2, [64], []) }

  function ForwardEarly(): seq<Event> {
    [Dispatches(Exchange()), Dispatches(Reader()), Executes(0, 0), StoreTurn(1, 0)]
  }

  function Both(): Lsq {
    Lsq(0, [RobEntry(1, 2, 0, false, false), RobEntry(2, 1, 0, false, false)],
        [Some(Load(0, 1, None, false, Never, Never)), Some(Load(64, 2, Some(1), false, Never, Never))],
        [StoreEntry(64, 1, false, Never, [1])], [Exchange(), Reader()], [Store(64, 1)], [], [])
  }

  function Executed(): Lsq {
    Both().(rob := [RobEntry(1, 2, 0, true, false), RobEntry(2, 1, 0, false, false)],
            lq := [Some(Load(0, 1, None, false, At(0), Never)), Some(Load(64, 2, Some(1), false, Never, Never))],
            sq := [StoreEntry(64, 1, false, At(0), [1])])
  }

  function Forwarded(): Lsq {
    Executed().(rob := [RobEntry(1, 2, 1, true, false), RobEntry(2, 1, 1, false, false)],
                lq := [Some(Load(0, 1, None, false, At(0), Never)), None], sq := [StoreEntry(64, 1, true, At(0), [])],
                observed := [Observation(2, 64, Some(1))])
  }

  lemma DispatchFirst() returns (s: Lsq)
    ensures |Exchange().loads| <= FreeSlots(Start(2).lq) && s == Dispatch(Start(2), Exchange())
    ensures s == Start(2).(rob := [RobEntry(1, 2, 0, false, false)], program := [Exchange()], stores := [Store(64, 1)],
              lq := [Some(Load(0, 1, None, false, Never, Never)), None], sq := [StoreEntry(64, 1, false, Never, [])])
  {
    var z := Start(2);
    assert z.lq == [None, None];
    assert z.lq[..1] == [None] && z.lq[..1][..0] == [];
    assert FreeSlots(z.lq[..1]) == 1 && FreeSlots(z.lq) == 2 && FirstFree(z.lq) == 0;
    var q := PushInstr(z, Exchange());
    assert DispatchLoads(q, Exchange(), 1) == DispatchLoad(q, 0, 1);
    assert q.lq[0 := Some(Load(0, 1, None, false, Never, Never))]
           == [Some(Load(0, 1, None, false, Never, Never)), None];
    assert NewStores(Exchange(), 1) == [StoreEntry(64, 1, false, Never, [])];
    assert StoresIn(Exchange()) == [Store(64, 1)];
    s := Dispatch(z, Exchange());
  }

  lemma DispatchSecond(s: Lsq)
    requires s == Start(2).(rob := [RobEntry(1, 2, 0, false, false)], program := [Exchange()], stores := [Store(64, 1)],
               lq := [Some(Load(0, 1, None, false, Never, Never)), None], sq := [StoreEntry(64, 1, false, Never, [])])
    ensures |Reader().loads| <= FreeSlots(s.lq) && Dispatch(s, Reader()) == Both()
  {
    assert s.lq[..1] == [s.lq[0]] && s.lq[..1][..0] == [];
    assert FreeSlots(s.lq[..1]) == 0 && FreeSlots(s.lq) == 1 && FirstFree(s.lq) == 1;
    assert s.sq[..0] == [] && Forwarder(s.sq, 64) == Some(0);
    var q := PushInstr(s, Reader());
    assert q.rob == Both().rob && q.program == Both().program;
    var t := DispatchLoad(q, 64, 2);
    assert t.lq == Both().lq && t.sq == Both().sq by { assert s.sq[0].waiters + [1] == [1]; }
    assert DispatchLoads(q, Reader(), 1) == t;
    assert NewStores(Reader(), 0) == [] && StoresIn(Reader()) == [];
    assert t.sq + [] == t.sq && t.stores + [] == t.stores;
  }

  lemma ExecuteFirst()
    ensures Execute(Both(), 0, 0) == Executed()
  {
  }

  function Counted(): Lsq { Executed().(rob := [RobEntry(1, 2, 1, true, false), RobEntry(2, 1, 0, false, false)]) }

  lemma ReleaseFirst()
    ensures Executed().(rob := Bump(Executed().rob, 1)) == Counted()
    ensures Release(Counted(), 0) == Forwarded().(sq := [StoreEntry(64, 1, false, At(0), [])])
  {
    var b := Counted();
    assert Bump(Executed().rob, 1) == b.rob && Bump(b.rob, 2) == Forwarded().rob;
    assert b.lq[1 := None] == Forwarded().lq && [1][1..] == [];
    assert b.sq[0 := StoreEntry(64, 1, false, At(0), [])] == [StoreEntry(64, 1, false, At(0), [])];
    assert b.observed + [Observation(2, 64, Some(1))] == Forwarded().observed;
  }

  lemma GoodIs(s: Lsq)
    requires Good(s)
    ensures Inv(s, 0, 0)
  {
    hide Inv;
  }

  lemma FinishFirst()
    requires Good(Executed()) && NextStore(Executed(), 0)
    ensures FinishStore(Executed(), 0) == Forwarded()
  {
    GoodIs(Executed());
    hide Inv, Good;
    BumpStoreKeeps(Executed(), 0, 0);
    ReleaseFirst();
    hide Release, Bump;
    ReleaseKeeps(Counted(), 0);
    ReleaseTwice();
    assert MarkIssued(Release(Counted(), 0), 0) == Forwarded();
  }

  lemma ReleaseTwice()
    requires Inv(Counted(), 1, -1) && Inv(Release(Counted(), 0), 1, -1)
    ensures ReleaseAll(Counted(), 0) == Release(Counted(), 0)
  {
    hide Inv;
    ReleaseFirst();
    hide Release;
    ReleasesOne(Counted(), 0);
    ReleasesNone(Release(Counted(), 0), 0);
  }

  lemma ReleasesNone(s: Lsq, k: nat)
    requires k < |s.sq| && !s.sq[k].issued && Inv(s, s.sq[k].id, -1) && s.sq[k].waiters == []
    ensures ReleaseAll(s, k) == s
  {
    hide Inv;
  }

  lemma ReleasesOne(s: Lsq, k: nat)
    requires Forwarding(s, k) && Inv(s, s.sq[k].id, -1) && Names(s.lq, s.sq[k], s.sq[k].waiters[0])
    requires Inv(Release(s, k), s.sq[k].id, -1)
    ensures ReleaseAll(s, k) == ReleaseAll(Release(s, k), k)
  {
    hide Inv;
  }

  lemma ForwardFirst()
    requires Good(Executed())
    ensures StoreStage(Executed(), 1, 0) == Forwarded()
  {
    hide Good, FinishStore;
    var s := Executed();
    assert IssuedPrefix(s.sq) == 0 && NextStore(s, 0);
    FinishFirst();
    assert FinishStores(s, 0, 1) == FinishStores(Forwarded(), 1, 0) == Forwarded();
    assert DueRun(s.sq, 0, 1, 0) == 1;
  }

  ghost predicate Reaches(s: Lsq, es: seq<Event>, t: Lsq) { Good(s) && Possible(s, es) && Run(s, es) == t }

  lemma ReachesOn(s: Lsq, e: Event, es: seq<Event>, t: Lsq)
    requires Good(s) && Enabled(s, e) && Reaches(Apply(s, e), es, t)
    ensures Reaches(s, [e] + es, t)
  {
    hide Good, Enabled, Apply;
    assert ([e] + es)[1..] == es;
  }

  /** A load can have been given the store of an instruction that itself still waits for a load, so that what is stored
    * cannot be known yet if it depends on what is loaded. */
  lemma StoresDoNotWaitForLoads()
    ensures Reaches(Start(2), ForwardEarly(), Forwarded())
    ensures var s := Forwarded();
            Observation(2, 64, Some(1)) in s.observed && s.rob[0].id == 1 && s.rob[0].done < s.rob[0].ops
              && Live(s, 1, 0)
  {
    hide Reaches, Good;
    BothReach();
    ExecutedReaches();
    assert Forwarded().lq[0].Some?;
    assert [Dispatches(Exchange())] + ([Dispatches(Reader())] + ([Executes(0, 0)] + ([StoreTurn(1, 0)] + [])))
      == ForwardEarly();
  }

  lemma ExecutedReaches()
    requires Good(Both())
    ensures Reaches(Both(), [Executes(0, 0)] + ([StoreTurn(1, 0)] + []), Forwarded())
  {
    hide Good, Execute, StoreStage, Reaches, Apply;
    ApplyExecute(Both(), 0, 0);
    ExecuteFirst();
    ForwardFirst();
    ApplyStore(Executed(), 1, 0);
    ReachesSelf(Forwarded());
    ReachesOn(Executed(), StoreTurn(1, 0), [], Forwarded());
    ReachesOn(Both(), Executes(0, 0), [StoreTurn(1, 0)] + [], Forwarded());
  }

  lemma BothReach()
    ensures Good(Both())
    ensures forall es, t :: Reaches(Both(), es, t) ==>
      Reaches(Start(2), [Dispatches(Exchange())] + ([Dispatches(Reader())] + es), t)
  {
    hide Good, Dispatch, FreeSlots, Reaches, Apply;
    var s := DispatchFirst();
    DispatchSecond(s);
    StartIsGood(2);
    ApplyDispatch(Start(2), Exchange());
    ApplyDispatch(s, Reader());
    forall es, t | Reaches(Both(), es, t)
      ensures Reaches(Start(2), [Dispatches(Exchange())] + ([Dispatches(Reader())] + es), t)
    {
      ReachesOn(s, Dispatches(Reader()), es, t);
      ReachesOn(Start(2), Dispatches(Exchange()), [Dispatches(Reader())] + es, t);
    }
  }

  lemma ApplyDispatch(s: Lsq, p: MemInstr)
    requires Good(s) && Enabled(s, Dispatches(p))
    ensures Apply(s, Dispatches(p)) == Dispatch(s, p) && Good(Apply(s, Dispatches(p)))
  {
    hide Good, Dispatch;
  }

  lemma ApplyExecute(s: Lsq, i: nat, latency: nat)
    requires Good(s) && i < |s.rob| && !s.rob[i].executed
    ensures Apply(s, Executes(i, latency)) == Execute(s, i, latency) && Good(Apply(s, Executes(i, latency)))
  {
    hide Good, Execute;
  }

  lemma ApplyStore(s: Lsq, width: nat, room: nat)
    requires Good(s)
    ensures Apply(s, StoreTurn(width, room)) == StoreStage(s, width, room) && Good(Apply(s, StoreTurn(width, room)))
  {
    hide Good, StoreStage;
  }

  lemma ReachesSelf(s: Lsq)
    requires Good(s)
    ensures Reaches(s, [], s)
  {
    hide Good;
  }
}
