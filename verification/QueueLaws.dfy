/** What one turn of the load and store queues does to every entry, read off the state before the turn. */
module QueueLaws {
  import opened Counting
  import opened Options
  import opened LoadStoreQueue
  import opened MemoryOrder
  import opened LoadStoreUnit
  import opened LoadTracking

  // Stores.

  /** Finishing a store takes the loads that wait for it out of the queue, and no others. */
  lemma {:induction false} ReleasesExactly(s: Lsq, k: nat)
    requires k < |s.sq| && !s.sq[k].issued && Inv(s, s.sq[k].id, -1)
    ensures var t := ReleaseAll(s, k);
            && |t.lq| == |s.lq| && t.written == s.written
            && forall w :: 0 <= w < |s.lq| ==> t.lq[w] == if w in s.sq[k].waiters then None else s.lq[w]
    decreases |s.sq[k].waiters|
  {
    hide Inv;
    var ws := s.sq[k].waiters;
    if ws != [] {
      ReleaseKeeps(s, k);
      ReleasesExactly(Release(s, k), k);
      assert ws == [ws[0]] + ws[1..];
    }
  }

  lemma FinishesExactly(s: Lsq, k: nat)
    requires Good(s) && NextStore(s, k)
    ensures var t := FinishStore(s, k);
            && t.sq == s.sq[k := s.sq[k].(issued := true, ready := At(s.now), waiters := [])] && t.written == s.written
            && |t.lq| == |s.lq|
            && forall w :: 0 <= w < |s.lq| ==> t.lq[w] == if w in s.sq[k].waiters then None else s.lq[w]
  {
    hide Inv, Bump, ReleaseAll;
    BumpStoreKeeps(s, 0, k);
    ReleasesExactly(s.(rob := Bump(s.rob, s.sq[k].id)), k);
  }

  /** Stores k to k + n are those that finish. */
  predicate Finishing(s: Lsq, k: nat, n: nat, bw: nat) {
    && k + n <= |s.sq| && n <= bw
    && (forall j :: k <= j < k + n ==> s.sq[j].ready.At? && s.sq[j].ready.t <= s.now)
    && (n == bw || k + n == |s.sq| || s.sq[k + n].ready.Never? || s.sq[k + n].ready.t > s.now)
  }

  predicate FinishedTo(s: Lsq, t: Lsq, k: nat, n: nat) {
    && |t.sq| == |s.sq|
    && forall j :: 0 <= j < |s.sq| ==>
         t.sq[j] == if k <= j < k + n then s.sq[j].(issued := true, ready := At(s.now), waiters := []) else s.sq[j]
  }

  /** The load in slot w waits for one of the stores. */
  predicate WaitsFor(s: Lsq, k: nat, n: nat, w: nat)
    requires k + n <= |s.sq|
  {
    exists j :: k <= j < k + n && w in s.sq[j].waiters
  }

  predicate Released(s: Lsq, t: Lsq, k: nat, n: nat)
    requires k + n <= |s.sq|
  {
    |t.lq| == |s.lq| && forall w :: 0 <= w < |s.lq| ==> t.lq[w] == if WaitsFor(s, k, n, w) then None else s.lq[w]
  }

  lemma {:induction false} FinishesFrom(s: Lsq, k: nat, bw: nat) returns (n: nat)
    requires Good(s) && k <= |s.sq| && (k < |s.sq| ==> NextStore(s, k))
    ensures Finishing(s, k, n, bw) && n == DueRun(s.sq, k, bw, s.now)
    ensures var t := FinishStores(s, k, bw); FinishedTo(s, t, k, n) && Released(s, t, k, n) && t.written == s.written
    decreases |s.sq| - k
  {
    hide Good, FinishStore, NextStore;
    if k == |s.sq| || bw == 0 || !Due(s.sq[k].ready, s.now) {
      n := 0;
    } else {
      var u := FinishStore(s, k);
      FinishesExactly(s, k);
      var m := FinishesFrom(u, k + 1, bw - 1);
      n := m + 1;
      SameDue(s.sq, u.sq, k + 1, bw - 1, s.now);
      hide FinishStores, DueRun;
      OneMoreFinished(s, u, FinishStores(s, k, bw), k, m);
    }
  }

  lemma {:induction false} SameDue(a: seq<StoreEntry>, b: seq<StoreEntry>, k: nat, bw: nat, now: int)
    requires k <= |a| == |b| && forall j :: k <= j < |a| ==> a[j].ready == b[j].ready
    ensures DueRun(a, k, bw, now) == DueRun(b, k, bw, now)
    decreases |a| - k
  {
    if k < |a| && bw > 0 { SameDue(a, b, k + 1, bw - 1, now); }
  }

  lemma OneMoreFinished(s: Lsq, u: Lsq, t: Lsq, k: nat, m: nat)
    requires k < |s.sq| && u.now == s.now
    requires u.sq == s.sq[k := s.sq[k].(issued := true, ready := At(s.now), waiters := [])]
    requires |u.lq| == |s.lq|
    requires forall w :: 0 <= w < |s.lq| ==> u.lq[w] == if w in s.sq[k].waiters then None else s.lq[w]
    requires k + 1 + m <= |s.sq| && FinishedTo(u, t, k + 1, m) && Released(u, t, k + 1, m)
    ensures FinishedTo(s, t, k, m + 1) && Released(s, t, k, m + 1)
  {
    forall w | 0 <= w < |s.lq| ensures WaitsFor(s, k, m + 1, w) <==> w in s.sq[k].waiters || WaitsFor(u, k + 1, m, w) {
      if WaitsFor(s, k, m + 1, w) && w !in s.sq[k].waiters {
        var j :| k <= j < k + m + 1 && w in s.sq[j].waiters;
        assert u.sq[j] == s.sq[j];
      }
      if WaitsFor(u, k + 1, m, w) {
        var j :| k + 1 <= j < k + 1 + m && w in u.sq[j].waiters;
        assert u.sq[j] == s.sq[j];
      }
    }
  }

  /** The first m stores are those that are handed to the cache. */
  predicate Leaving(s: Lsq, m: nat, bw: nat, room: nat) {
    && m <= |s.sq| && m <= bw && m <= room
    && (forall j :: 0 <= j < m ==>
          (s.rob == [] || s.sq[j].id < s.rob[0].id) && s.sq[j].ready.At? && s.sq[j].ready.t <= s.now)
    && (m == |s.sq| || m == bw || m == room || (s.rob != [] && s.sq[m].id >= s.rob[0].id)
        || s.sq[m].ready.Never? || s.sq[m].ready.t > s.now)
  }

  lemma {:induction false} DrainsExactly(s: Lsq, bw: nat, room: nat) returns (m: nat)
    requires Good(s)
    ensures Leaving(s, m, bw, room)
    ensures DrainStores(s, bw, room) == s.(sq := s.sq[m..], written := s.written + Queued(s.sq[..m]))
    decreases bw
  {
    hide Good;
    if s.sq == [] || bw == 0 || !Finished(s, s.sq[0]) || !Due(s.sq[0].ready, s.now) || room == 0 {
      m := 0;
      assert s.written + Queued(s.sq[..0]) == s.written;
    } else {
      DrainStep(s);
      var d := Drain(s);
      var l := DrainsExactly(d, bw - 1, room - 1);
      m := l + 1;
      assert Queued(s.sq[..m]) == [Store(s.sq[0].addr, s.sq[0].id)] + Queued(d.sq[..l]);
      assert s.sq[m..] == d.sq[l..];
    }
  }

  /** The store stage: of the stores not finished yet, those finish that are due, in order and within the width; the
    * loads that wait for them leave. Then of all stores those are handed to the cache that belong to retired
    * instructions and are due, in order, within what is left of the width and the room. */
  lemma StoreTurnExactly(s: Lsq, width: nat, room: nat) returns (k: nat, n: nat, m: nat, f: Lsq)
    requires Good(s)
    ensures k <= |s.sq| && (forall j :: 0 <= j < k ==> s.sq[j].issued) && (k < |s.sq| ==> !s.sq[k].issued)
    ensures Finishing(s, k, n, width) && FinishedTo(s, f, k, n) && Released(s, f, k, n) && f.now == s.now
    ensures |f.rob| == |s.rob| && forall i :: 0 <= i < |s.rob| ==> f.rob[i].id == s.rob[i].id
    ensures Leaving(f, m, width - n, room)
    ensures StoreStage(s, width, room) == f.(sq := f.sq[m..], written := s.written + Queued(f.sq[..m]))
  {
    hide Good, FinishStores, DrainStores, Released, Finishing, FinishedTo, Leaving, NextStore;
    k := IssuedPrefix(s.sq);
    assert k < |s.sq| ==> NextStore(s, k) by { NextIs(s); }
    n := FinishesFrom(s, k, width);
    f := FinishStores(s, k, width);
    FinishStoresFollows(s, k, width, Everyone(s));
    m := DrainsExactly(f, width - n, room);
    hide Sourced, Keeps;
  }

  // Loads.

  /** In the queue, with no store to wait for, not sent to the cache yet, and ready before now. */
  function Sendable(s: Lsq): (q: seq<bool>)
    ensures |q| == |s.lq|
  {
    seq(|s.lq|, w requires 0 <= w < |s.lq| =>
      && s.lq[w].Some? && s.lq[w].value.producer.None? && !s.lq[w].value.issued
      && s.lq[w].value.ready.At? && s.lq[w].value.ready.t < s.now)
  }

  predicate SentFrom(s: Lsq, t: seq<Option<Load>>, w: nat, width: nat)
    requires |t| == |s.lq|
  {
    forall v :: w <= v < |s.lq| ==>
      if Served(Sendable(s), v, width)
        then s.lq[v].Some? && t[v] == Some(s.lq[v].value.(issued := true, sent := At(s.now)))
        else t[v] == s.lq[v]
  }

  function Least(a: nat, b: nat): nat { if a < b then a else b }

  /** The turns from slot w on; d is the state they meet, s the state before the turn. */
  lemma {:induction false} IssuesFrom(s: Lsq, d: Lsq, w: nat, bw: nat, room: nat)
    requires Good(d) && w <= |s.lq| == |d.lq| && d == s.(lq := d.lq) && d.lq[w..] == s.lq[w..]
    ensures var t := IssueLoads(d, w, bw, room);
            && t == s.(lq := t.lq) && |t.lq| == |s.lq| && t.lq[..w] == d.lq[..w]
            && SentFrom(s, t.lq, w, Before(Sendable(s), w) + Least(bw, room))
    decreases |s.lq| - w
  {
    hide Good, SentFrom, Issuable, MarkLoad, Sendable, Served, Before;
    var q := Sendable(s);
    if w == |s.lq| || bw == 0 || room == 0 {
      IssuesNone(d, w, bw, room);
      SendsNone(s, d.lq, w, Before(q, w) + Least(bw, room));
    } else {
      var u := TurnSends(s, d, w, bw, room);
      IssuesFrom(s, u, w + 1, if q[w] then bw - 1 else bw, if q[w] then room - 1 else room);
      var t := IssueLoads(d, w, bw, room);
      hide IssueLoads;
      AfterTurn(d.lq, u.lq, t.lq, w);
      NextBefore(q, w);
      OneMoreSent(s, t.lq, w, Before(q, w) + Least(bw, room));
    }
  }

  lemma {:induction false} IssuesNone(d: Lsq, w: nat, bw: nat, room: nat)
    requires Good(d) && w <= |d.lq| && (w == |d.lq| || bw == 0 || room == 0)
    ensures IssueLoads(d, w, bw, room) == d
    decreases |d.lq| - w
  {
    hide Good;
    if w < |d.lq| { IssuesNone(d, w + 1, bw, room); }
  }

  lemma SendsNone(s: Lsq, t: seq<Option<Load>>, w: nat, width: nat)
    requires w <= |s.lq| == |t| && t[w..] == s.lq[w..] && (w == |s.lq| || width <= Before(Sendable(s), w))
    ensures SentFrom(s, t, w, width)
  {
    ServesNone(Sendable(s), w, width);
    forall v | w <= v < |s.lq| ensures t[v] == s.lq[v] { assert t[w..][v - w] == s.lq[w..][v - w]; }
    hide Sendable, Before;
  }

  lemma TurnSends(s: Lsq, d: Lsq, w: nat, bw: nat, room: nat) returns (u: Lsq)
    requires Good(d) && w < |s.lq| == |d.lq| && d == s.(lq := d.lq) && d.lq[w..] == s.lq[w..] && bw > 0 && room > 0
    ensures Good(u) && u == s.(lq := u.lq) && |u.lq| == |s.lq|
    ensures u.lq[..w] == d.lq[..w] && u.lq[w + 1..] == s.lq[w + 1..]
    ensures if Sendable(s)[w]
      then s.lq[w].Some? && u.lq[w] == Some(s.lq[w].value.(issued := true, sent := At(s.now))) else u.lq[w] == s.lq[w]
    ensures IssueLoads(d, w, bw, room) == IssueLoads(u, w + 1, if Sendable(s)[w] then bw - 1 else bw,
      if Sendable(s)[w] then room - 1 else room)
  {
    hide Good;
    assert d.lq[w] == d.lq[w..][0] == s.lq[w..][0] == s.lq[w];
    assert d.lq[w + 1..] == d.lq[w..][1..] == s.lq[w..][1..] == s.lq[w + 1..];
    if Issuable(d, w) { IssueStep(d, w); }
    u := if Issuable(d, w) then MarkLoad(d, w) else d;
  }

  lemma OneMoreSent(s: Lsq, t: seq<Option<Load>>, w: nat, width: nat)
    requires w < |s.lq| == |t| && SentFrom(s, t, w + 1, width) && Before(Sendable(s), w) < width
    requires if Sendable(s)[w]
      then s.lq[w].Some? && t[w] == Some(s.lq[w].value.(issued := true, sent := At(s.now))) else t[w] == s.lq[w]
    ensures SentFrom(s, t, w, width)
  {
    hide Sendable, Before;
  }

  /** The load stage sends, of the loads that wait for no store, have not been sent and are ready before now, the first
    * few within width and room, and changes nothing else. */
  lemma IssuesExactly(s: Lsq, width: nat, room: nat)
    requires Good(s)
    ensures var t, q := IssueLoads(s, 0, width, room), Sendable(s);
            && t == s.(lq := t.lq) && |t.lq| == |s.lq|
            && forall w :: 0 <= w < |s.lq| ==>
                 if Served(q, w, Least(width, room))
                   then s.lq[w].Some? && t.lq[w] == Some(s.lq[w].value.(issued := true, sent := At(s.now)))
                   else t.lq[w] == s.lq[w]
  {
    hide Good, IssueLoads, Sendable;
    IssuesFrom(s, s, 0, width, room);
  }

  // Responses.

  /** The load has been sent to the cache and is for the block. */
  predicate Asks(x: Option<Load>, blocks: seq<nat>) { x.Some? && x.value.issued && x.value.addr / 64 in blocks }

  lemma {:induction false} AnswersBlock(s: Lsq, w: nat, block: nat)
    requires Good(s) && w <= |s.lq|
    ensures var t := AnswerBlock(s, w, block);
            && t.sq == s.sq && t.now == s.now && t.written == s.written && |t.lq| == |s.lq|
            && forall v :: 0 <= v < |s.lq| ==> t.lq[v] == if v >= w && Asks(s.lq[v], [block]) then None else s.lq[v]
    decreases |s.lq| - w
  {
    hide Good;
    if w < |s.lq| {
      if Answered(s, w, block) {
        AnsweredKeeps(s, w, block);
        AnswersBlock(Answer(s, w), w + 1, block);
      } else {
        AnswersBlock(s, w + 1, block);
      }
    }
  }

  /** The responses of a cycle take out exactly the loads that have been sent for one of the blocks. */
  lemma {:induction false} AnswersExactly(s: Lsq, blocks: seq<nat>)
    requires Good(s)
    ensures var t := AnswerBlocks(s, blocks);
            && t.sq == s.sq && t.now == s.now && t.written == s.written && |t.lq| == |s.lq|
            && forall w :: 0 <= w < |s.lq| ==> t.lq[w] == if Asks(s.lq[w], blocks) then None else s.lq[w]
    decreases |blocks|
  {
    hide Good;
    if blocks != [] {
      AnswersBlock(s, 0, blocks[0]);
      AnswersExactly(AnswerBlock(s, 0, blocks[0]), blocks[1..]);
      assert blocks == [blocks[0]] + blocks[1..];
    }
  }
}
