/** When loads may go to the cache and stores may finish: not before their instruction has executed and its latency has
  * passed. */
module LoadTiming {
  import opened Counting
  import opened Options
  import opened LoadStoreQueue
  import opened MemoryOrder
  import opened LoadStoreUnit
  import opened LoadTracking
  import opened QueueLaws

  /** The operations of each instruction in the reorder buffer are due when the instruction is; it is once it has
    * executed. A load that has been sent to the cache was due before. */
  ghost predicate TimedBy(s: Lsq, due: seq<Time>) {
    && |due| == |s.rob| && (forall i :: 0 <= i < |s.rob| ==> (due[i].At? <==> s.rob[i].executed))
    && (forall w, i :: 0 <= w < |s.lq| && 0 <= i < |s.rob| && s.lq[w].Some? && s.lq[w].value.id == s.rob[i].id ==>
          s.lq[w].value.ready == due[i])
    && (forall k, i :: 0 <= k < |s.sq| && 0 <= i < |s.rob| && s.sq[k].id == s.rob[i].id ==>
          if s.sq[k].issued then due[i].At? else s.sq[k].ready == due[i])
    && (forall w :: 0 <= w < |s.lq| && s.lq[w].Some? ==> SentLate(s.lq[w].value))
  }

  predicate SentLate(e: Load) { e.issued ==> e.ready.At? && e.sent.At? && e.ready.t < e.sent.t }

  /** When the instructions are due after an event. */
  function DueAfter(s: Lsq, due: seq<Time>, e: Event): seq<Time>
    requires |due| == |s.rob| && (e.Executes? ==> e.i < |s.rob|) && (e.Retires? ==> s.rob != [])
  {
    match e
    case Executes(i, latency) => due[i := At(s.now + latency)]
    case Retires => due[1..]
    case Dispatches(p) => due + [Never]
    case _ => due
  }

  /** Loads stay as they are, leave, or are sent when due; stores stay as they are, leave, or finish. */
  predicate OnlyGoes(s: Lsq, t: Lsq, d: nat) {
    && |t.rob| == |s.rob| && (forall i :: 0 <= i < |s.rob| ==>
         t.rob[i].id == s.rob[i].id && t.rob[i].executed == s.rob[i].executed)
    && |t.lq| == |s.lq| && d + |t.sq| == |s.sq|
    && (forall w :: 0 <= w < |s.lq| && t.lq[w].Some? ==> s.lq[w].Some? && GoesOut(s, s.lq[w].value, t.lq[w].value))
    && (forall k :: 0 <= k < |t.sq| ==> t.sq[k].id == s.sq[d + k].id && StoreGoes(s.sq[d + k], t.sq[k]))
  }

  predicate StoreGoes(e: StoreEntry, f: StoreEntry) {
    if f.issued then e.issued || e.ready.At? else !e.issued && f.ready == e.ready
  }

  predicate GoesOut(s: Lsq, e: Load, f: Load) {
    f == e || (e.ready.At? && e.ready.t < s.now && f == e.(issued := true, sent := At(s.now)))
  }

  lemma OnlyGoesTimed(s: Lsq, t: Lsq, d: nat, due: seq<Time>)
    requires TimedBy(s, due) && OnlyGoes(s, t, d)
    ensures TimedBy(t, due)
  {
  }

  lemma TurnsTimed(s: Lsq, e: Event, due: seq<Time>)
    requires Good(s) && Enabled(s, e) && TimedBy(s, due) && (e.Responses? || e.StoreTurn? || e.LoadTurn?)
    ensures TimedBy(Apply(s, e), due)
  {
    hide Good, TimedBy, AnswerBlocks, StoreStage, IssueLoads;
    match e
    case Responses(blocks) =>
      AnswersSteady(s, blocks);
      AnswersExactly(s, blocks);
      OnlyGoesTimed(s, Apply(s, e), 0, due);
    case StoreTurn(width, room) =>
      StoresSteady(s, width, room);
      var k, n, m, f := StoreTurnExactly(s, width, room);
      StoresGo(s, f, Apply(s, e), k, n, m);
      OnlyGoesTimed(s, Apply(s, e), m, due);
    case LoadTurn(width, room) =>
      IssuesExactly(s, width, room);
      OnlyGoesTimed(s, Apply(s, e), 0, due);
  }

  lemma StoresGo(s: Lsq, f: Lsq, t: Lsq, k: nat, n: nat, m: nat)
    requires k + n <= |s.sq| && FinishedTo(s, f, k, n) && Released(s, f, k, n) && m <= |f.sq|
    requires forall j :: k <= j < k + n ==> s.sq[j].ready.At?
    requires t.lq == f.lq && t.sq == f.sq[m..] && Steady(s, t)
    ensures OnlyGoes(s, t, m)
  {
    forall j | 0 <= j < |t.sq| ensures t.sq[j].id == s.sq[m + j].id && StoreGoes(s.sq[m + j], t.sq[j]) {
      assert t.sq[j] == f.sq[m + j];
    }
  }

  /** Every event keeps the operations due when their instructions are. */
  lemma ApplyTimed(s: Lsq, e: Event, due: seq<Time>)
    requires Good(s) && Enabled(s, e) && TimedBy(s, due)
    ensures |due| == |s.rob| && TimedBy(Apply(s, e), DueAfter(s, due, e))
  {
    TimedLength(s, due);
    hide Good, TimedBy, Apply, Enabled;
    match e
    case Executes(_, _) => ExecutesTimed(s, e, due);
    case Dispatches(_) => DispatchesTimed(s, e, due);
    case Clock(_) => HeadTimed(s, e, due);
    case Completes(_) => HeadTimed(s, e, due);
    case Retires => HeadTimed(s, e, due);
    case _ => TurnsTimed(s, e, due);
  }

  lemma ExecutesTimed(s: Lsq, e: Event, due: seq<Time>)
    requires Good(s) && Enabled(s, e) && TimedBy(s, due) && e.Executes? && |due| == |s.rob|
    ensures TimedBy(Apply(s, e), DueAfter(s, due, e))
  {
    hide Good, TimedBy, Execute;
    ExecuteTimed(s, e.i, e.latency, due);
    ApplyExecute(s, e.i, e.latency);
  }

  lemma DispatchesTimed(s: Lsq, e: Event, due: seq<Time>)
    requires Good(s) && Enabled(s, e) && TimedBy(s, due) && e.Dispatches? && |due| == |s.rob|
    ensures TimedBy(Apply(s, e), DueAfter(s, due, e))
  {
    hide Good, TimedBy, Dispatch, FreeSlots, Dispatched;
    DispatchTimed(s, e.p, due);
    ApplyDispatch(s, e.p);
  }

  lemma HeadTimed(s: Lsq, e: Event, due: seq<Time>)
    requires Good(s) && Enabled(s, e) && TimedBy(s, due) && (e.Clock? || e.Completes? || e.Retires?)
    ensures |due| == |s.rob| && TimedBy(Apply(s, e), DueAfter(s, due, e))
  {
    hide Good, Dispatch, Execute, StoreStage, IssueLoads, AnswerBlocks;
  }

  lemma ExecuteTimed(s: Lsq, i: nat, latency: nat, due: seq<Time>)
    requires Good(s) && i < |s.rob| && !s.rob[i].executed && TimedBy(s, due)
    ensures TimedBy(Execute(s, i, latency), due[i := At(s.now + latency)])
  {
    RobSorted(s);
    hide Good;
  }

  // Dispatch.

  lemma {:induction false} LoadsTimed(s: Lsq, p: MemInstr, n: nat, due: seq<Time>)
    requires n <= |p.loads| && n <= FreeSlots(s.lq) && TimedBy(s, due)
    requires forall i :: 0 <= i < |s.rob| && s.rob[i].id == p.id ==> !s.rob[i].executed
    ensures var t := DispatchLoads(s, p, n); TimedBy(t, due) && Steady(s, t)
  {
    hide FreeSlots, TimedBy, DispatchLoad;
    if n > 0 {
      LoadsTimed(s, p, n - 1, due);
      LoadsSteady(s, p, n);
      var t := DispatchLoads(s, p, n - 1);
      LoadTakesSlot(t, p.loads[n - 1], p.id);
      LoadTimed(t, p.loads[n - 1], p.id, due);
    }
  }

  lemma LoadTimed(s: Lsq, addr: nat, id: nat, due: seq<Time>)
    requires FreeSlots(s.lq) > 0 && TimedBy(s, due)
    requires forall i :: 0 <= i < |s.rob| && s.rob[i].id == id ==> !s.rob[i].executed
    ensures TimedBy(DispatchLoad(s, addr, id), due)
  {
    hide FreeSlots;
  }

  lemma DispatchTimed(s: Lsq, p: MemInstr, due: seq<Time>)
    requires Good(s) && !Dispatched(s.program, p.id) && |p.loads| <= FreeSlots(s.lq) && TimedBy(s, due)
    ensures TimedBy(Dispatch(s, p), due + [Never])
  {
    hide Good, FreeSlots, DispatchLoads, Dispatched;
    NewestIsNew(s, p);
    EnterTimed(s, p, due);
    var q := PushInstr(s, p);
    hide TimedBy;
    LoadsTimed(q, p, |p.loads|, due + [Never]);
    StoresTimed(DispatchLoads(q, p, |p.loads|), p, due + [Never]);
  }

  lemma EnterTimed(s: Lsq, p: MemInstr, due: seq<Time>)
    requires TimedBy(s, due) && forall w :: 0 <= w < |s.lq| && s.lq[w].Some? ==> s.lq[w].value.id != p.id
    requires forall k :: 0 <= k < |s.sq| ==> s.sq[k].id != p.id
    ensures TimedBy(PushInstr(s, p), due + [Never])
  {
  }

  lemma NewestIsNew(s: Lsq, p: MemInstr)
    requires Good(s) && !Dispatched(s.program, p.id)
    ensures forall i :: 0 <= i < |s.rob| ==> s.rob[i].id != p.id
    ensures forall w :: 0 <= w < |s.lq| && s.lq[w].Some? ==> s.lq[w].value.id != p.id
    ensures forall k :: 0 <= k < |s.sq| ==> s.sq[k].id != p.id
  {
    forall id: nat | InRob(s.rob, id) ensures id != p.id { LiveIsDispatched(s, id); }
    forall i | 0 <= i < |s.rob| ensures s.rob[i].id != p.id { assert InRob(s.rob, s.rob[i].id); }
    forall k | 0 <= k < |s.sq| ensures s.sq[k].id != p.id {
      assert s.stores[|s.written| + k] == Queued(s.sq)[k];
      assert Dispatched(s.program, s.stores[|s.written| + k].id);
    }
  }

  lemma StoresTimed(s: Lsq, p: MemInstr, due: seq<Time>)
    requires TimedBy(s, due) && forall i :: 0 <= i < |s.rob| && s.rob[i].id == p.id ==> !s.rob[i].executed
    ensures TimedBy(PushStores(s, p), due)
  {
  }

  // Whole runs.

  lemma {:induction false} RunTimed(s: Lsq, es: seq<Event>, due: seq<Time>) returns (after: seq<Time>)
    requires Good(s) && Possible(s, es) && TimedBy(s, due)
    ensures TimedBy(Run(s, es), after)
    decreases |es|
  {
    hide Good, Enabled, Apply, TimedBy;
    if es == [] {
      after := due;
    } else {
      assert |due| == |s.rob| by { TimedLength(s, due); }
      EventFits(s, es[0]);
      ApplyTimed(s, es[0], due);
      after := RunTimed(Apply(s, es[0]), es[1..], DueAfter(s, due, es[0]));
    }
  }

  lemma TimedLength(s: Lsq, due: seq<Time>)
    requires TimedBy(s, due)
    ensures |due| == |s.rob|
  {
  }

  lemma EventFits(s: Lsq, e: Event)
    requires Enabled(s, e)
    ensures (e.Executes? ==> e.i < |s.rob|) && (e.Retires? ==> s.rob != [])
  {
  }

  /** A load in the queue has a time only if its instruction is in the reorder buffer and has executed; a load that
    * has been sent to the cache has one, and was sent later; stores of instructions that have not executed have
    * neither finished nor a time. */
  ghost predicate SendsExecuted(s: Lsq) {
    && (forall w :: 0 <= w < |s.lq| && s.lq[w].Some? ==>
          && (s.lq[w].value.ready.At? ==> IsExecuted(s.rob, s.lq[w].value.id)) && SentLate(s.lq[w].value))
    && (forall k, i :: 0 <= k < |s.sq| && 0 <= i < |s.rob| && s.sq[k].id == s.rob[i].id && !s.rob[i].executed ==>
          !s.sq[k].issued && s.sq[k].ready.Never?)
  }

  predicate IsExecuted(rob: seq<RobEntry>, id: nat) {
    exists i :: 0 <= i < |rob| && rob[i].id == id && rob[i].executed
  }

  lemma TimedSends(s: Lsq, due: seq<Time>)
    requires Owned(s) && TimedBy(s, due)
    ensures SendsExecuted(s)
  {
    forall w | 0 <= w < |s.lq| && s.lq[w].Some? && s.lq[w].value.ready.At? ensures IsExecuted(s.rob, s.lq[w].value.id) {
      var i :| 0 <= i < |s.rob| && s.rob[i].id == s.lq[w].value.id;
    }
  }

  lemma StartsTimed(slots: nat)
    ensures TimedBy(Start(slots), [])
  {
  }

  lemma EndsOwned(s: Lsq, es: seq<Event>)
    requires Good(s) && Possible(s, es)
    ensures Owned(Run(s, es))
  {
    var t := Run(s, es);
    hide Run, Possible;
    assert Good(t);
  }

  /** In every reachable state, whatever the order of events. */
  lemma RunSendsExecuted(slots: nat, es: seq<Event>)
    requires Good(Start(slots)) && Possible(Start(slots), es)
    ensures SendsExecuted(Run(Start(slots), es))
  {
    StartsTimed(slots);
    hide *;
    var due := RunTimed(Start(slots), es, []);
    EndsOwned(Start(slots), es);
    TimedSends(Run(Start(slots), es), due);
  }
}
