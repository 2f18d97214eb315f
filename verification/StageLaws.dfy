/** What each stage of the core does to every entry of the reorder buffer, read off the state before the stage. */
module StageLaws {
  import opened Counting
  import opened RegisterRenaming
  import opened OutOfOrderCore

  // Execution.

  /** Scheduled, due, not executed yet, and with valid operands. */
  function Executable(c: Core): (q: seq<bool>)
    ensures |q| == |c.rob|
  {
    seq(|c.rob|, i requires 0 <= i < |c.rob| =>
      && c.rob[i].scheduled && !c.rob[i].executed && c.rob[i].ready <= c.now
      && forall s :: s in c.rob[i].srcs ==> 0 <= s < |c.regs.file| && c.regs.file[s].valid)
  }

  lemma ExecutableIs(g: Config, c: Core, i: nat)
    requires Shaped(g, c) && i < |c.rob|
    ensures CanExecute(g, c, i) <==> Executable(c)[i]
  {
    if c.rob[i].scheduled {
      assert EntryFits(c.rob[i], c.program[c.retired + i], |c.regs.file|);
      if OperandsValid(c, i) {
        forall s | s in c.rob[i].srcs ensures 0 <= s < |c.regs.file| && c.regs.file[s].valid {
          var k :| 0 <= k < |c.rob[i].srcs| && c.rob[i].srcs[k] == s;
        }
      }
    }
  }

  /** The entry has executed: it is due again after the latency and has read the values of its sources. */
  predicate Executed(g: Config, c: Core, e: Entry, f: Entry) {
    && f == e.(executed := true, ready := c.now + g.execLatency, operands := f.operands) && |f.operands| == |e.srcs|
    && forall k :: 0 <= k < |e.srcs| ==> 0 <= e.srcs[k] < |c.values| && f.operands[k] == c.values[e.srcs[k]]
  }

  /** Entries from i on are as the stage leaves them, with `width` served in all. */
  predicate ExecutedFrom(g: Config, c: Core, t: seq<Entry>, i: nat, width: nat)
    requires |t| == |c.rob|
  {
    forall j :: i <= j < |c.rob| ==>
      if Served(Executable(c), j, width) then Executed(g, c, c.rob[j], t[j]) else t[j] == c.rob[j]
  }

  /** The turns from entry i on; d is the state they meet, c the state before the stage. */
  lemma {:induction false} ExecutesFrom(g: Config, c: Core, d: Core, i: nat, bw: nat)
    requires Shaped(g, c) && Shaped(g, d) && i <= |c.rob| == |d.rob| && d == c.(rob := d.rob)
    requires d.rob[i..] == c.rob[i..]
    ensures var t := ExecuteStage(g, d, i, bw);
            && t == d.(rob := t.rob) && |t.rob| == |d.rob| && t.rob[..i] == d.rob[..i]
            && ExecutedFrom(g, c, t.rob, i, Before(Executable(c), i) + bw)
    decreases |c.rob| - i
  {
    hide *;
    var q := Executable(c);
    if i == |c.rob| || bw == 0 {
      ExecutesNone(g, c, d, i, bw);
    } else {
      var u := ExecutesHere(g, c, d, i, bw);
      ExecutesFrom(g, c, u, i + 1, if q[i] then bw - 1 else bw);
      AfterTurn(d.rob, u.rob, ExecuteStage(g, d, i, bw).rob, i);
      NextBefore(q, i);
      OneMoreExecuted(g, c, ExecuteStage(g, d, i, bw).rob, i, Before(q, i) + bw);
    }
  }

  lemma ExecutesNone(g: Config, c: Core, d: Core, i: nat, bw: nat)
    requires Shaped(g, d) && i <= |c.rob| == |d.rob| && d.rob[i..] == c.rob[i..] && (i == |c.rob| || bw == 0)
    ensures ExecuteStage(g, d, i, bw) == d && ExecutedFrom(g, c, d.rob, i, Before(Executable(c), i) + bw)
  {
    hide Shaped, Executable, Executed;
    ServesNone(Executable(c), i, Before(Executable(c), i) + bw);
    forall j | i <= j < |c.rob| ensures d.rob[j] == c.rob[j] { assert d.rob[i..][j - i] == c.rob[i..][j - i]; }
  }

  lemma ExecutesHere(g: Config, c: Core, d: Core, i: nat, bw: nat) returns (u: Core)
    requires Shaped(g, c) && Shaped(g, d) && i < |c.rob| == |d.rob| && d == c.(rob := d.rob) && bw > 0
    requires d.rob[i..] == c.rob[i..]
    ensures Shaped(g, u) && u == c.(rob := u.rob) && u == d.(rob := u.rob) && |u.rob| == |d.rob|
    ensures u.rob[..i] == d.rob[..i] && u.rob[i + 1..] == c.rob[i + 1..]
    ensures if Executable(c)[i] then Executed(g, c, c.rob[i], u.rob[i]) else u.rob[i] == c.rob[i]
    ensures ExecuteStage(g, d, i, bw) == ExecuteStage(g, u, i + 1, if Executable(c)[i] then bw - 1 else bw)
  {
    assert EntryFits(c.rob[i], c.program[c.retired + i], |c.regs.file|);
    assert d.rob[i] == d.rob[i..][0] == c.rob[i..][0] == c.rob[i];
    assert d.rob[i + 1..] == d.rob[i..][1..] == c.rob[i..][1..] == c.rob[i + 1..];
    ExecutableIs(g, c, i);
    hide Executable, EntryFits, WellFormed;
    u := if CanExecute(g, d, i) then ExecuteEntry(g, d, i) else d;
  }

  lemma OneMoreExecuted(g: Config, c: Core, t: seq<Entry>, i: nat, width: nat)
    requires i < |c.rob| == |t| && ExecutedFrom(g, c, t, i + 1, width) && Before(Executable(c), i) < width
    requires if Executable(c)[i] then Executed(g, c, c.rob[i], t[i]) else t[i] == c.rob[i]
    ensures ExecutedFrom(g, c, t, i, width)
  {
    hide Executed, Executable, Before;
  }

  /** The execution stage executes, of the entries that are scheduled, due, not executed and have valid operands, the
    * first execWidth ones, wherever they are in the reorder buffer, and changes nothing else. */
  lemma ExecutesExactly(g: Config, c: Core)
    requires Shaped(g, c)
    ensures var t, q := ExecuteStage(g, c, 0, g.execWidth), Executable(c);
            && t == c.(rob := t.rob) && |t.rob| == |c.rob|
            && forall i :: 0 <= i < |c.rob| ==>
                 && (t.rob[i].executed <==> c.rob[i].executed || Served(q, i, g.execWidth))
                 && (if Served(q, i, g.execWidth) then Executed(g, c, c.rob[i], t.rob[i]) else t.rob[i] == c.rob[i])
  {
    hide Shaped, ExecuteStage, Executable;
    ExecutesFrom(g, c, c, 0, g.execWidth);
  }

  // Completion.

  /** Executed, due, not completed yet, and with all memory operations done. */
  function Completable(c: Core, done: set<nat>): (q: seq<bool>)
    ensures |q| == |c.rob|
  {
    seq(|c.rob|, i requires 0 <= i < |c.rob| =>
      c.rob[i].executed && !c.rob[i].completed && c.rob[i].ready <= c.now && c.rob[i].id in done)
  }

  /** Entries from i on are as the stage leaves them, with `width` served in all. */
  predicate CompletedFrom(c: Core, done: set<nat>, t: seq<Entry>, i: nat, width: nat)
    requires |t| == |c.rob|
  {
    forall j :: i <= j < |c.rob| ==>
      t[j] == if Served(Completable(c, done), j, width) then c.rob[j].(completed := true) else c.rob[j]
  }

  /** The registers that become valid are the destinations of entries served from i on. */
  ghost predicate ValidFrom(c: Core, done: set<nat>, d: Registers, t: Registers, i: nat, width: nat) {
    && |t.file| == |d.file| && t == d.(file := t.file)
    && forall p :: 0 <= p < |d.file| ==>
         t.file[p] == if Finishes(c, done, i, width, p) then d.file[p].(valid := true) else d.file[p]
  }

  ghost predicate Finishes(c: Core, done: set<nat>, i: nat, width: nat, p: int) {
    exists j :: i <= j < |c.rob| && Served(Completable(c, done), j, width) && p in c.rob[j].dsts
  }

  lemma {:induction false} CompletesFrom(g: Config, c: Core, d: Core, i: nat, bw: nat, done: set<nat>)
    requires Shaped(g, c) && Shaped(g, d) && i <= |c.rob| == |d.rob| && d.now == c.now
    requires d.rob[i..] == c.rob[i..]
    ensures var t, width := CompleteStage(g, d, i, bw, done), Before(Completable(c, done), i) + bw;
            && t == d.(rob := t.rob, regs := t.regs, values := t.values)
            && |t.rob| == |d.rob| && t.rob[..i] == d.rob[..i]
            && CompletedFrom(c, done, t.rob, i, width) && ValidFrom(c, done, d.regs, t.regs, i, width)
    decreases |c.rob| - i
  {
    hide *;
    var q := Completable(c, done);
    var width := Before(q, i) + bw;
    if i == |c.rob| || bw == 0 {
      CompletesNone(g, c, d, i, bw, done);
    } else {
      var u := CompletesHere(g, c, d, i, bw, done);
      CompletesFrom(g, c, u, i + 1, if q[i] then bw - 1 else bw, done);
      var t := CompleteStage(g, d, i, bw, done);
      AfterTurn(d.rob, u.rob, t.rob, i);
      NextBefore(q, i);
      OneMoreCompleted(c, done, t.rob, i, width);
      OneMoreValid(c, done, d.regs, u.regs, t.regs, i, width);
    }
  }

  lemma CompletesNone(g: Config, c: Core, d: Core, i: nat, bw: nat, done: set<nat>)
    requires Shaped(g, d) && i <= |c.rob| == |d.rob| && d.rob[i..] == c.rob[i..] && (i == |c.rob| || bw == 0)
    ensures var width := Before(Completable(c, done), i) + bw;
            && CompleteStage(g, d, i, bw, done) == d && CompletedFrom(c, done, d.rob, i, width)
            && ValidFrom(c, done, d.regs, d.regs, i, width)
  {
    hide Shaped, Completable;
    ServesNone(Completable(c, done), i, Before(Completable(c, done), i) + bw);
    forall j | i <= j < |c.rob| ensures d.rob[j] == c.rob[j] { assert d.rob[i..][j - i] == c.rob[i..][j - i]; }
  }

  lemma CompletesHere(g: Config, c: Core, d: Core, i: nat, bw: nat, done: set<nat>) returns (u: Core)
    requires Shaped(g, c) && Shaped(g, d) && i < |c.rob| == |d.rob| && d.now == c.now && bw > 0
    requires d.rob[i..] == c.rob[i..]
    ensures Shaped(g, u) && u == d.(rob := u.rob, regs := u.regs, values := u.values) && |u.rob| == |d.rob|
    ensures u.rob[..i] == d.rob[..i] && u.rob[i + 1..] == c.rob[i + 1..]
    ensures u.rob[i] == if Completable(c, done)[i] then c.rob[i].(completed := true) else c.rob[i]
    ensures u.regs == d.regs.(file := u.regs.file) && |u.regs.file| == |d.regs.file|
    ensures forall p :: 0 <= p < |d.regs.file| ==>
      u.regs.file[p] == if Completable(c, done)[i] && p in c.rob[i].dsts
        then d.regs.file[p].(valid := true) else d.regs.file[p]
    ensures CompleteStage(g, d, i, bw, done)
         == CompleteStage(g, u, i + 1, if Completable(c, done)[i] then bw - 1 else bw, done)
  {
    assert d.rob[i] == d.rob[i..][0] == c.rob[i..][0] == c.rob[i];
    assert d.rob[i + 1..] == d.rob[i..][1..] == c.rob[i..][1..] == c.rob[i + 1..];
    assert EntryFits(c.rob[i], c.program[c.retired + i], |c.regs.file|);
    assert EntryFits(d.rob[i], d.program[d.retired + i], |d.regs.file|);
    hide EntryFits, CompleteAll;
    u := if CanComplete(d, i, done) then CompleteEntry(g, d, i) else d;
  }

  lemma OneMoreCompleted(c: Core, done: set<nat>, t: seq<Entry>, i: nat, width: nat)
    requires i < |c.rob| == |t| && CompletedFrom(c, done, t, i + 1, width) && Before(Completable(c, done), i) < width
    requires t[i] == if Completable(c, done)[i] then c.rob[i].(completed := true) else c.rob[i]
    ensures CompletedFrom(c, done, t, i, width)
  {
    hide Completable, Before;
  }

  lemma OneMoreValid(c: Core, done: set<nat>, d: Registers, u: Registers, t: Registers, i: nat, width: nat)
    requires i < |c.rob| && Before(Completable(c, done), i) < width && ValidFrom(c, done, u, t, i + 1, width)
    requires u == d.(file := u.file) && |u.file| == |d.file|
    requires forall p :: 0 <= p < |d.file| ==>
      u.file[p] == if Completable(c, done)[i] && p in c.rob[i].dsts then d.file[p].(valid := true) else d.file[p]
    ensures ValidFrom(c, done, d, t, i, width)
  {
    forall p ensures Finishes(c, done, i, width, p)
      <==> (Completable(c, done)[i] && p in c.rob[i].dsts) || Finishes(c, done, i + 1, width, p)
    {
      FinishesMore(c, done, i, width, p);
    }
    hide Completable, Before, Finishes;
  }

  lemma FinishesMore(c: Core, done: set<nat>, i: nat, width: nat, p: int)
    requires i < |c.rob| && Before(Completable(c, done), i) < width
    ensures Finishes(c, done, i, width, p)
       <==> (Completable(c, done)[i] && p in c.rob[i].dsts) || Finishes(c, done, i + 1, width, p)
  {
    hide Completable, Before;
    if Completable(c, done)[i] && p in c.rob[i].dsts { assert Served(Completable(c, done), i, width); }
  }

  /** The completion stage completes, of the entries that are executed, due, not completed and whose memory operations
    * are done, the first execWidth ones; exactly their destinations become valid. */
  lemma CompletesExactly(g: Config, c: Core, done: set<nat>)
    requires Shaped(g, c)
    ensures var t, q := CompleteStage(g, c, 0, g.execWidth, done), Completable(c, done);
            && t == c.(rob := t.rob, regs := t.regs, values := t.values) && |t.rob| == |c.rob|
            && t.regs == c.regs.(file := t.regs.file) && |t.regs.file| == |c.regs.file|
            && (forall i :: 0 <= i < |c.rob| ==>
                  t.rob[i] == if Served(q, i, g.execWidth) then c.rob[i].(completed := true) else c.rob[i])
            && (forall p :: 0 <= p < |c.regs.file| ==>
                  (t.regs.file[p].valid <==> c.regs.file[p].valid || Finishes(c, done, 0, g.execWidth, p)))
  {
    hide Shaped, CompleteStage, Completable, Finishes;
    CompletesFrom(g, c, c, 0, g.execWidth, done);
  }

  // Scheduling.

  /** How many of the entries from i to e have not executed; each takes a slot of the scheduler. */
  function Slots(rob: seq<Entry>, i: nat, e: nat): nat
    requires i <= e <= |rob|
    decreases e - i
  {
    if i == e then 0 else Slots(rob, i + 1, e) + if rob[i].executed then 0 else 1
  }

  /** Waiting to be scheduled, and due. */
  predicate Pending(c: Core, i: nat)
    requires i < |c.rob|
  {
    !c.rob[i].scheduled && c.rob[i].ready <= c.now
  }

  /** An entry after scheduling has its names overwritten and is otherwise as before. */
  predicate Renamed(e: Entry, f: Entry) {
    f == e.(srcs := f.srcs, dsts := f.dsts, scheduled := true)
  }

  /** The scheduling stage looks at the entries from i up to some entry e, and schedules exactly those of them that
    * wait and are due. It stops at e for one of three reasons only: no entry is left, the scheduler has no slot left,
    * or there are not enough free registers for e. */
  ghost predicate ScheduledTo(g: Config, c: Core, t: Core, i: nat, bw: nat, stale: int -> bool, e: nat)
    requires Shaped(g, t)
  {
    && i <= e <= |c.rob| == |t.rob| && t.now == c.now
    && t.rob[..i] == c.rob[..i] && t.rob[e..] == c.rob[e..]
    && (forall j :: i <= j < e ==>
          if Pending(c, j) then Renamed(c.rob[j], t.rob[j]) else t.rob[j] == c.rob[j])
    && Slots(c.rob, i, e) <= bw && (forall j :: i <= j < e ==> Slots(c.rob, i, j) < bw)
    && (e == |c.rob| || Slots(c.rob, i, e) == bw || |t.regs.free| < Needed(g, t, e, stale))
  }

  lemma {:induction false} SchedulesFrom(g: Config, c: Core, i: nat, bw: nat, stale: int -> bool) returns (e: nat)
    requires Shaped(g, c) && i <= |c.rob|
    ensures ScheduledTo(g, c, ScheduleStage(g, c, i, bw, stale), i, bw, stale, e)
    decreases |c.rob| - i
  {
    hide Shaped, ScheduleTurn, Needed;
    if i == |c.rob| || bw == 0 || |c.regs.free| < Needed(g, c, i, stale) {
      e := i;
    } else {
      var d := TurnSchedules(g, c, i, stale);
      var left := if c.rob[i].executed then bw else bw - 1;
      e := SchedulesFrom(g, d, i + 1, left, stale);
      assert ScheduleStage(g, c, i, bw, stale) == ScheduleStage(g, d, i + 1, left, stale);
      hide ScheduleStage;
      OneMoreScheduled(g, c, d, ScheduleStage(g, c, i, bw, stale), i, bw, stale, e);
    }
  }

  lemma TurnSchedules(g: Config, c: Core, i: nat, stale: int -> bool) returns (d: Core)
    requires Shaped(g, c) && i < |c.rob| && Needed(g, c, i, stale) <= |c.regs.free|
    ensures !c.rob[i].scheduled ==> Affordable(g, c, i)
    ensures Shaped(g, d) && d == ScheduleTurn(g, c, i) && d.now == c.now
    ensures |d.rob| == |c.rob| && d.rob[..i] == c.rob[..i] && d.rob[i + 1..] == c.rob[i + 1..]
    ensures if Pending(c, i) then Renamed(c.rob[i], d.rob[i]) else d.rob[i] == c.rob[i]
  {
    d := ScheduleTurn(g, c, i);
    if Pending(c, i) {
      hide RenameSources, RenameDests;
    }
  }

  lemma OneMoreScheduled(g: Config, c: Core, d: Core, t: Core, i: nat, bw: nat, stale: int -> bool, e: nat)
    requires Shaped(g, t) && i < |c.rob| == |d.rob| && bw > 0 && d.now == c.now
    requires d.rob[..i] == c.rob[..i] && d.rob[i + 1..] == c.rob[i + 1..]
    requires if Pending(c, i) then Renamed(c.rob[i], d.rob[i]) else d.rob[i] == c.rob[i]
    requires ScheduledTo(g, d, t, i + 1, if c.rob[i].executed then bw else bw - 1, stale, e)
    ensures ScheduledTo(g, c, t, i, bw, stale, e)
  {
    hide Shaped, Needed;
    AfterTurn(c.rob, d.rob, t.rob, i);
    forall j | i < j < |c.rob| ensures d.rob[j] == c.rob[j] {
      assert d.rob[i + 1..][j - i - 1] == c.rob[i + 1..][j - i - 1];
    }
    forall j | i < j <= e ensures Slots(c.rob, i, j) == Slots(d.rob, i + 1, j) + if c.rob[i].executed then 0 else 1 {
      SameSlots(c.rob, d.rob, i + 1, j);
    }
    assert t.rob[e..] == c.rob[e..] by {
      assert d.rob[e..] == d.rob[i + 1..][e - i - 1..] == c.rob[i + 1..][e - i - 1..] == c.rob[e..];
    }
  }

  lemma {:induction false} SameSlots(r: seq<Entry>, s: seq<Entry>, i: nat, e: nat)
    requires i <= e <= |r| == |s| && forall j :: i <= j < e ==> r[j] == s[j]
    ensures Slots(r, i, e) == Slots(s, i, e)
    decreases e - i
  {
    if i < e { SameSlots(r, s, i + 1, e); }
  }

  lemma SchedulesExactly(g: Config, c: Core, stale: int -> bool) returns (e: nat)
    requires Shaped(g, c)
    ensures ScheduledTo(g, c, ScheduleStage(g, c, 0, g.schedulerSize, stale), 0, g.schedulerSize, stale, e)
  {
    e := SchedulesFrom(g, c, 0, g.schedulerSize, stale);
  }

  // Retirement and dispatch.

  lemma {:induction false} RetiresMany(g: Config, c: Core, k: nat)
    requires Shaped(g, c) && k <= |c.rob| && forall j :: 0 <= j < k ==> c.rob[j].completed
    ensures var t := RetireMany(g, c, k); t.retired == c.retired + k && t.program == c.program && t.now == c.now
  {
    hide Shaped;
    if k > 0 { RetiresMany(g, c, k - 1); }
  }

  /** The completed instructions at the head leave, as many as the width allows, and no others. */
  lemma RetiresExactly(g: Config, c: Core) returns (k: nat)
    requires Shaped(g, c)
    ensures var t := RetireStage(g, c);
            && k <= |c.rob| && t.rob == c.rob[k..] && t.retired == c.retired + k && t.program == c.program
            && k <= g.retireWidth && (forall j :: 0 <= j < k ==> c.rob[j].completed)
            && (k == |c.rob| || k == g.retireWidth || !c.rob[k].completed)
  {
    k := CompletedSpan(c.rob, g.retireWidth);
    hide Shaped;
    RetiresMany(g, c, k);
  }

  /** Each dispatched instruction enters at the end under its architectural names and is due after the latency. */
  lemma {:induction false} DispatchesExactly(g: Config, c: Core, ps: seq<Instr>)
    requires Shaped(g, c) && forall k :: 0 <= k < |ps| ==> Legal(ps[k])
    ensures var t, n := DispatchStage(g, c, ps), |c.rob|;
            && t.program == c.program + ps && |t.rob| == n + |ps| && t.rob[..n] == c.rob && t.now == c.now
            && forall k :: 0 <= k < |ps| ==>
                 t.rob[n + k]
                 == Entry(ps[k].id, ps[k].srcs, ps[k].dsts, c.now + g.schedulingLatency, false, false, false, [])
    decreases |ps|
  {
    hide Shaped;
    if ps != [] {
      DispatchesExactly(g, DispatchOne(g, c, ps[0]), ps[1..]);
      var n, t := |c.rob|, DispatchStage(g, c, ps);
      assert t.rob[..n] == t.rob[..n + 1][..n];
      assert t.rob[n] == t.rob[..n + 1][n];
      forall k | 1 <= k < |ps| ensures t.rob[n + k] == t.rob[n + 1 + (k - 1)] && ps[1..][k - 1] == ps[k] {}
    }
  }
}
