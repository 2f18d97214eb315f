/** What the collision checks and the stages of DRAM_CHANNEL in src/dram_controller.cc do, read off the state before. */
module DramLaws {
  import opened Options
  import opened DramMapping
  import opened DramChannel
  import opened Wakeups

  type Slots = seq<Option<Entry>>

  predicate Alike(m: Mapping, a: Entry, b: Entry)
    requires Fits(m)
  {
    IsCollision(m, a.address, b.address)
  }

  lemma AlikeIs(m: Mapping, a: Entry, b: Entry, c: Entry)
    requires Fits(m)
    ensures Alike(m, a, a) && (Alike(m, a, b) <==> Alike(m, b, a))
    ensures Alike(m, a, b) && Alike(m, b, c) ==> Alike(m, a, c)
  {
  }

  // Writes.

  /** No two checked requests are for the same place. */
  ghost predicate Distinct(m: Mapping, q: Slots)
    requires Fits(m)
  {
    forall i, j :: 0 <= i < j < |q| && q[i].Some? && q[j].Some? && q[i].value.checked && q[j].value.checked ==>
      !Alike(m, q[i].value, q[j].value)
  }

  ghost predicate Met(m: Mapping, r: Slots, e: Entry)
    requires Fits(m)
  {
    exists j :: 0 <= j < |r| && r[j].Some? && Alike(m, r[j].value, e)
  }

  predicate OnlyMarked(q: Slots, r: Slots) {
    |r| == |q| && forall i :: 0 <= i < |q| && r[i].Some? ==>
      q[i].Some? && r[i].value == q[i].value.(checked := r[i].value.checked)
  }

  lemma MetIsAlike(m: Mapping, r: Slots, a: Entry, b: Entry)
    requires Fits(m) && Met(m, r, a) && Alike(m, a, b)
    ensures Met(m, r, b)
  {
    var j :| 0 <= j < |r| && r[j].Some? && Alike(m, r[j].value, a);
    AlikeIs(m, r[j].value, a, b);
  }

  lemma WriteTurn(m: Mapping, q: Slots, i: nat)
    requires Fits(m) && i < |q|
    ensures var p := CheckWrite(m, q, i);
            OnlyMarked(q, p) && (Distinct(m, q) ==> Distinct(m, p)) && AllMet(m, q, p)
  {
    var p := CheckWrite(m, q, i);
    hide IsCollision;
    if Unchecked(q[i]) {
      var before := FirstHit(m, q, q[i].value.address, 0, i);
      var after := FirstHit(m, q, q[i].value.address, i + 1, |q|);
      if before < i { assert Alike(m, p[before].value, q[i].value); }
      if after < |q| { assert Alike(m, p[after].value, q[i].value); }
      if !Duplicated(m, q, i) { Unmet(m, q, i); }
    }
    forall k | 0 <= k < |q| && q[k].Some? ensures Met(m, p, q[k].value) {
      AlikeIs(m, q[k].value, q[k].value, q[k].value);
      if p[k].Some? { assert Alike(m, p[k].value, q[k].value); }
    }
  }

  lemma Unmet(m: Mapping, q: Slots, i: nat)
    requires Fits(m) && i < |q| && q[i].Some? && !Duplicated(m, q, i)
    ensures forall k :: 0 <= k < |q| && k != i && q[k].Some? ==>
              !Alike(m, q[k].value, q[i].value) && !Alike(m, q[i].value, q[k].value)
  {
    forall k | 0 <= k < |q| && k != i && q[k].Some?
      ensures !Alike(m, q[k].value, q[i].value) && !Alike(m, q[i].value, q[k].value)
    {
      assert !Hits(m, q[k], q[i].value.address);
      AlikeIs(m, q[k].value, q[i].value, q[i].value);
    }
  }

  ghost predicate AllMet(m: Mapping, q: Slots, r: Slots)
    requires Fits(m)
  {
    forall k :: 0 <= k < |q| && q[k].Some? ==> Met(m, r, q[k].value)
  }

  lemma MetThrough(m: Mapping, q: Slots, p: Slots, r: Slots)
    requires Fits(m) && AllMet(m, q, p) && AllMet(m, p, r)
    ensures AllMet(m, q, r)
  {
    hide Alike;
    forall k | 0 <= k < |q| && q[k].Some? ensures Met(m, r, q[k].value) {
      assert Met(m, p, q[k].value);
      var j :| 0 <= j < |p| && p[j].Some? && Alike(m, p[j].value, q[k].value);
      MetIsAlike(m, r, p[j].value, q[k].value);
    }
  }

  lemma AllMetSelf(m: Mapping, q: Slots)
    requires Fits(m)
    ensures AllMet(m, q, q)
  {
    forall k | 0 <= k < |q| && q[k].Some? ensures Met(m, q, q[k].value) { assert Alike(m, q[k].value, q[k].value); }
  }

  /** A check drops duplicates and nothing else: what is left is as it was but for the mark, every place written to is
    * still written to, and if no two checked writes were for the same place, none are. */
  lemma {:induction false} WritesExactly(m: Mapping, q: Slots, i: nat)
    requires Fits(m) && i <= |q|
    ensures var r := CheckWrites(m, q, i);
            OnlyMarked(q, r) && (Distinct(m, q) ==> Distinct(m, r)) && AllMet(m, q, r)
    decreases |q| - i
  {
    hide Distinct, CheckWrite, AllMet, OnlyMarked;
    if i < |q| {
      WriteTurn(m, q, i);
      var p := CheckWrite(m, q, i);
      WritesExactly(m, p, i + 1);
      MetThrough(m, q, p, CheckWrites(m, q, i));
      MarkedThrough(q, p, CheckWrites(m, q, i));
    } else {
      AllMetSelf(m, q);
      MarkedSelf(q);
    }
  }

  lemma MarkedThrough(q: Slots, p: Slots, r: Slots)
    requires OnlyMarked(q, p) && OnlyMarked(p, r)
    ensures OnlyMarked(q, r)
  {
  }

  lemma MarkedSelf(q: Slots)
    ensures OnlyMarked(q, q)
  {
  }

  // Reads.

  /** A write is for the same place. */
  ghost predicate Written(m: Mapping, wq: Slots, e: Entry)
    requires Fits(m)
  {
    exists k :: 0 <= k < |wq| && wq[k].Some? && Alike(m, wq[k].value, e)
  }

  function RepliesTo(e: Entry): seq<Response> {
    seq(|e.sinks|, k requires 0 <= k < |e.sinks| => Response(e.sinks[k], e.address, e.deps))
  }

  /** The replies to the unchecked reads from the i-th on whose place is written to, in order. */
  ghost function Forwarded(m: Mapping, wq: Slots, q: Slots, i: nat): seq<Response>
    requires Fits(m) && i <= |q|
    decreases |q| - i
  {
    if i == |q| then []
    else
      (if Unchecked(q[i]) && Written(m, wq, q[i].value) then RepliesTo(q[i].value) else [])
      + Forwarded(m, wq, q, i + 1)
  }

  lemma {:induction false} RepliesAre(e: Entry, k: nat)
    requires k <= |e.sinks|
    ensures ResponsesFor(e, k) == RepliesTo(e)[k..]
    decreases |e.sinks| - k
  {
    if k < |e.sinks| { RepliesAre(e, k + 1); }
  }

  lemma WrittenIs(m: Mapping, wq: Slots, e: Entry)
    requires Fits(m)
    ensures FirstHit(m, wq, e.address, 0, |wq|) < |wq| <==> Written(m, wq, e)
  {
    hide IsCollision;
    var j := FirstHit(m, wq, e.address, 0, |wq|);
    if j < |wq| { assert Alike(m, wq[j].value, e); }
    if Written(m, wq, e) {
      var k :| 0 <= k < |wq| && wq[k].Some? && Alike(m, wq[k].value, e);
      assert Hits(m, wq[k], e.address);
    }
  }

  lemma WrittenAlike(m: Mapping, wq: Slots, a: Entry, b: Entry)
    requires Fits(m) && Alike(m, a, b)
    ensures Written(m, wq, a) <==> Written(m, wq, b)
  {
    hide Alike;
    if Written(m, wq, a) {
      var k :| 0 <= k < |wq| && wq[k].Some? && Alike(m, wq[k].value, a);
      AlikeIs(m, wq[k].value, a, b);
    }
    if Written(m, wq, b) {
      var k :| 0 <= k < |wq| && wq[k].Some? && Alike(m, wq[k].value, b);
      AlikeIs(m, a, b, b);
      AlikeIs(m, wq[k].value, b, a);
    }
  }

  /** The one asks for all that the other asks for, at the same place. */
  ghost predicate KeptBy(m: Mapping, e: Entry, x: Option<Entry>)
    requires Fits(m)
  {
    && x.Some? && Alike(m, x.value, e)
    && (forall d: nat :: d in e.deps ==> d in x.value.deps) && (forall d: nat :: d in e.sinks ==> d in x.value.sinks)
  }

  ghost predicate Kept(m: Mapping, e: Entry, r: Slots)
    requires Fits(m)
  {
    exists j :: 0 <= j < |r| && KeptBy(m, e, r[j])
  }

  ghost predicate Depends(m: Mapping, q: Slots, e: Entry, d: nat)
    requires Fits(m)
  {
    exists k :: 0 <= k < |q| && q[k].Some? && Alike(m, q[k].value, e) && d in q[k].value.deps
  }

  ghost predicate Returns(m: Mapping, q: Slots, e: Entry, d: nat)
    requires Fits(m)
  {
    exists k :: 0 <= k < |q| && q[k].Some? && Alike(m, q[k].value, e) && d in q[k].value.sinks
  }

  /** Only requests for the same place have been merged into it. */
  ghost predicate Drawn(m: Mapping, q: Slots, e: Entry)
    requires Fits(m)
  {
    (forall d: nat :: d in e.deps ==> Depends(m, q, e, d)) && (forall d: nat :: d in e.sinks ==> Returns(m, q, e, d))
  }

  predicate InPlace(q: Slots, r: Slots) {
    |r| == |q| && forall i :: 0 <= i < |q| && r[i].Some? ==>
      q[i].Some? && r[i].value.address == q[i].value.address && r[i].value.ready == q[i].value.ready
      && r[i].value.scheduled == q[i].value.scheduled && (q[i].value.checked ==> r[i].value.checked)
  }

  ghost predicate AllDrawn(m: Mapping, q: Slots, r: Slots)
    requires Fits(m)
  {
    forall j :: 0 <= j < |r| && r[j].Some? ==> Drawn(m, q, r[j].value)
  }

  ghost predicate Stays(m: Mapping, wq: Slots, x: Option<Entry>)
    requires Fits(m)
  {
    x.Some? && (x.value.checked || !Written(m, wq, x.value))
  }

  lemma DrawnThrough(m: Mapping, q: Slots, p: Slots, r: Slots)
    requires Fits(m) && AllDrawn(m, q, p) && AllDrawn(m, p, r)
    ensures AllDrawn(m, q, r)
  {
    hide Alike;
    forall j | 0 <= j < |r| && r[j].Some? ensures Drawn(m, q, r[j].value) {
      var e := r[j].value;
      forall d: nat | d in e.deps ensures Depends(m, q, e, d) {
        assert Depends(m, p, e, d);
        var k :| 0 <= k < |p| && p[k].Some? && Alike(m, p[k].value, e) && d in p[k].value.deps;
        assert Drawn(m, q, p[k].value) && Depends(m, q, p[k].value, d);
        var i :| 0 <= i < |q| && q[i].Some? && Alike(m, q[i].value, p[k].value) && d in q[i].value.deps;
        AlikeIs(m, q[i].value, p[k].value, e);
      }
      forall d: nat | d in e.sinks ensures Returns(m, q, e, d) {
        assert Returns(m, p, e, d);
        var k :| 0 <= k < |p| && p[k].Some? && Alike(m, p[k].value, e) && d in p[k].value.sinks;
        assert Drawn(m, q, p[k].value) && Returns(m, q, p[k].value, d);
        var i :| 0 <= i < |q| && q[i].Some? && Alike(m, q[i].value, p[k].value) && d in q[i].value.sinks;
        AlikeIs(m, q[i].value, p[k].value, e);
      }
    }
  }

  lemma KeptThrough(m: Mapping, e: Entry, x: Option<Entry>, r: Slots)
    requires Fits(m) && KeptBy(m, e, x) && Kept(m, x.value, r)
    ensures Kept(m, e, r)
  {
    hide Alike;
    var j :| 0 <= j < |r| && KeptBy(m, x.value, r[j]);
    AlikeIs(m, r[j].value, x.value, e);
    assert KeptBy(m, e, r[j]);
  }

  lemma SelfKept(m: Mapping, q: Slots, i: nat, checked: bool)
    requires Fits(m) && i < |q| && q[i].Some?
    ensures KeptBy(m, q[i].value, Some(q[i].value.(checked := checked))) && Drawn(m, q, q[i].value.(checked := checked))
  {
    assert Alike(m, q[i].value, q[i].value.(checked := checked));
    assert Alike(m, q[i].value.(checked := checked), q[i].value);
    hide Alike;
  }

  lemma MergedKeeps(m: Mapping, q: Slots, j: nat, i: nat)
    requires Fits(m) && i < |q| && j < |q| && q[i].Some? && q[j].Some? && Alike(m, q[j].value, q[i].value)
    ensures var x := Merged(q[j].value, q[i].value);
            KeptBy(m, q[i].value, Some(x)) && KeptBy(m, q[j].value, Some(x)) && Drawn(m, q, x)
  {
    var a, b := q[j].value, q[i].value;
    var x := Merged(a, b);
    assert Alike(m, x, a) && Alike(m, a, x) && Alike(m, x, b) && Alike(m, b, x);
    hide Alike;
    forall d: nat ensures d in x.deps <==> d in a.deps || d in b.deps { SetUnionMembers(a.deps, b.deps, d); }
    forall d: nat ensures d in x.sinks <==> d in a.sinks || d in b.sinks { SetUnionMembers(a.sinks, b.sinks, d); }
    hide SetUnion;
    forall d: nat | d in x.deps ensures Depends(m, q, x, d) {}
    forall d: nat | d in x.sinks ensures Returns(m, q, x, d) {}
  }

  /** What one turn of the check does with the i-th read: answers it from a write, merges it into the one at j, or marks
    * it. */
  datatype Turn = Nothing | Answered | MergedAt(j: nat) | Marked

  lemma ReadTurn(m: Mapping, s: Channel, i: nat) returns (x: Turn)
    requires Fits(m) && i < |s.rq|
    ensures Unchecked(s.rq[i]) <==> !x.Nothing?
    ensures Unchecked(s.rq[i]) ==> (Written(m, s.wq, s.rq[i].value) <==> x.Answered?)
    ensures var t := CheckRead(m, s, i);
            && (x.Nothing? ==> t == s)
            && (x.Answered? ==> t.rq == s.rq[i := None] && t.responses == s.responses + RepliesTo(s.rq[i].value))
            && (x.MergedAt? ==>
                 && x.j < |s.rq| && x.j != i && s.rq[x.j].Some? && Alike(m, s.rq[x.j].value, s.rq[i].value)
                 && t.rq == s.rq[x.j := Some(Merged(s.rq[x.j].value, s.rq[i].value))][i := None]
                 && t.responses == s.responses)
            && (x.Marked? ==>
                 && t.rq == s.rq[i := Some(s.rq[i].value.(checked := true))] && t.responses == s.responses
                 && forall k :: 0 <= k < |s.rq| && k != i && s.rq[k].Some? ==>
                      !Alike(m, s.rq[k].value, s.rq[i].value) && !Alike(m, s.rq[i].value, s.rq[k].value))
  {
    hide IsCollision;
    if !Unchecked(s.rq[i]) {
      x := Nothing;
    } else {
      var e := s.rq[i].value;
      WrittenIs(m, s.wq, e);
      RepliesAre(e, 0);
      var before := FirstHit(m, s.rq, e.address, 0, i);
      var after := FirstHit(m, s.rq, e.address, i + 1, |s.rq|);
      if Written(m, s.wq, e) {
        x := Answered;
      } else if before < i {
        x := MergedAt(before);
      } else if after < |s.rq| {
        x := MergedAt(after);
      } else {
        x := Marked;
        Unmet(m, s.rq, i);
      }
    }
  }

  lemma TurnDrawn(m: Mapping, s: Channel, i: nat)
    requires Fits(m) && i < |s.rq|
    ensures var p := CheckRead(m, s, i).rq; AllDrawn(m, s.rq, p) && InPlace(s.rq, p)
  {
    var x := ReadTurn(m, s, i);
    var p := CheckRead(m, s, i).rq;
    hide CheckRead, Drawn, KeptBy, Alike, Merged, Written;
    if x.MergedAt? {
      MergedKeeps(m, s.rq, x.j, i);
      MergedInPlace(s.rq[x.j].value, s.rq[i].value);
    }
    forall k | 0 <= k < |s.rq| && s.rq[k].Some?
      ensures Drawn(m, s.rq, s.rq[k].value) && Drawn(m, s.rq, s.rq[k].value.(checked := true))
    {
      SelfKept(m, s.rq, k, s.rq[k].value.checked);
      SelfKept(m, s.rq, k, true);
    }
  }

  lemma MergedInPlace(a: Entry, b: Entry)
    ensures Merged(a, b) == a.(deps := Merged(a, b).deps, sinks := Merged(a, b).sinks)
  {
  }

  lemma TurnKept(m: Mapping, s: Channel, i: nat, k: nat)
    requires Fits(m) && i < |s.rq| && k < |s.rq| && Stays(m, s.wq, s.rq[k])
    ensures var p := CheckRead(m, s, i).rq;
            exists j :: 0 <= j < |p| && KeptBy(m, s.rq[k].value, p[j]) && Stays(m, s.wq, p[j])
  {
    var x := ReadTurn(m, s, i);
    var p := CheckRead(m, s, i).rq;
    var j := if k == i && x.MergedAt? then x.j else k;
    if x.MergedAt? {
      MergedKeeps(m, s.rq, x.j, i);
      MergedInPlace(s.rq[x.j].value, s.rq[i].value);
    }
    hide CheckRead, Drawn, KeptBy, Merged;
    SelfKept(m, s.rq, k, s.rq[k].value.checked);
    SelfKept(m, s.rq, k, true);
    assert KeptBy(m, s.rq[k].value, p[j]);
    KeptIs(m, s.rq[k].value, p[j]);
    WrittenAlike(m, s.wq, p[j].value, s.rq[k].value);
    hide Written;
  }

  lemma KeptIs(m: Mapping, e: Entry, x: Option<Entry>)
    requires Fits(m) && KeptBy(m, e, x)
    ensures x.Some? && Alike(m, x.value, e)
  {
  }

  lemma TurnDistinct(m: Mapping, s: Channel, i: nat)
    requires Fits(m) && i < |s.rq| && Distinct(m, s.rq)
    ensures Distinct(m, CheckRead(m, s, i).rq)
  {
    var x := ReadTurn(m, s, i);
    if x.MergedAt? { MergedInPlace(s.rq[x.j].value, s.rq[i].value); }
    hide CheckRead, Merged, IsCollision, Written;
  }

  /** What a check makes of the reads from the i-th on. */
  ghost predicate ReadsLeft(m: Mapping, wq: Slots, q: Slots, r: Slots)
    requires Fits(m)
  {
    && InPlace(q, r) && AllDrawn(m, q, r) && (Distinct(m, q) ==> Distinct(m, r))
    && forall k :: 0 <= k < |q| && Stays(m, wq, q[k]) ==> Kept(m, q[k].value, r)
  }

  lemma LeftThrough(m: Mapping, s: Channel, i: nat, r: Slots)
    requires Fits(m) && i < |s.rq| && ReadsLeft(m, s.wq, CheckRead(m, s, i).rq, r)
    ensures ReadsLeft(m, s.wq, s.rq, r)
  {
    var p := CheckRead(m, s, i).rq;
    TurnDrawn(m, s, i);
    DrawnThrough(m, s.rq, p, r);
    if Distinct(m, s.rq) { TurnDistinct(m, s, i); }
    hide CheckRead, AllDrawn, Distinct, KeptBy, Written;
    forall k | 0 <= k < |s.rq| && Stays(m, s.wq, s.rq[k]) ensures Kept(m, s.rq[k].value, r) {
      TurnKept(m, s, i, k);
      var j :| 0 <= j < |p| && KeptBy(m, s.rq[k].value, p[j]) && Stays(m, s.wq, p[j]);
      KeptThrough(m, s.rq[k].value, p[j], r);
    }
  }

  lemma LeftSelf(m: Mapping, wq: Slots, q: Slots)
    requires Fits(m)
    ensures ReadsLeft(m, wq, q, q)
  {
    hide KeptBy, Drawn, Alike;
    forall k | 0 <= k < |q| && q[k].Some? ensures Kept(m, q[k].value, q) && Drawn(m, q, q[k].value) {
      SelfKept(m, q, k, q[k].value.checked);
      assert KeptBy(m, q[k].value, q[k]);
    }
  }

  /** Afterwards the reads stand where they stood, with nothing merged into them but reads for the same place; those
    * not to be answered from a write are all provided for; and if no two checked reads were for the same place, none
    * are. */
  lemma {:induction false} ReadsExactly(m: Mapping, s: Channel, i: nat)
    requires Fits(m) && i <= |s.rq|
    ensures ReadsLeft(m, s.wq, s.rq, CheckReads(m, s, i).rq)
    decreases |s.rq| - i
  {
    hide ReadsLeft, CheckRead;
    if i < |s.rq| {
      ReadsExactly(m, CheckRead(m, s, i), i + 1);
      LeftThrough(m, s, i, CheckReads(m, s, i).rq);
    } else {
      LeftSelf(m, s.wq, s.rq);
    }
  }

  lemma {:induction false} ForwardedSame(m: Mapping, wq: Slots, q: Slots, p: Slots, i: nat)
    requires Fits(m) && i <= |q| == |p|
    requires forall k :: i <= k < |q| ==>
               q[k] == p[k] || (q[k].Some? && p[k].Some? && !Written(m, wq, q[k].value) && !Written(m, wq, p[k].value))
    ensures Forwarded(m, wq, q, i) == Forwarded(m, wq, p, i)
    decreases |q| - i
  {
    if i < |q| {
      hide Written, RepliesTo;
      ForwardedSame(m, wq, q, p, i + 1);
    }
  }

  lemma TurnForwards(m: Mapping, s: Channel, i: nat)
    requires Fits(m) && i < |s.rq|
    ensures var t := CheckRead(m, s, i);
            t.responses + Forwarded(m, s.wq, t.rq, i + 1) == s.responses + Forwarded(m, s.wq, s.rq, i)
  {
    hide CheckRead, Written, Alike, Merged, RepliesTo;
    var x := ReadTurn(m, s, i);
    var t := CheckRead(m, s, i);
    if x.MergedAt? { MergedUnwritten(m, s.wq, s.rq[x.j].value, s.rq[i].value); }
    ForwardedSame(m, s.wq, s.rq, t.rq, i + 1);
  }

  lemma MergedUnwritten(m: Mapping, wq: Slots, a: Entry, b: Entry)
    requires Fits(m) && Alike(m, a, b) && !Written(m, wq, b)
    ensures !Written(m, wq, a) && !Written(m, wq, Merged(a, b))
  {
    MergedInPlace(a, b);
    assert Alike(m, Merged(a, b), a);
    hide Alike, Merged, Written;
    WrittenAlike(m, wq, Merged(a, b), a);
    WrittenAlike(m, wq, a, b);
  }

  /** Exactly the unchecked reads whose place is written to are answered, each once to every one that waits for it. */
  lemma {:induction false} ReadsReply(m: Mapping, s: Channel, i: nat)
    requires Fits(m) && i <= |s.rq|
    ensures CheckReads(m, s, i).responses == s.responses + Forwarded(m, s.wq, s.rq, i)
    decreases |s.rq| - i
  {
    hide CheckRead, Written, RepliesTo;
    if i < |s.rq| {
      TurnForwards(m, s, i);
      ReadsReply(m, CheckRead(m, s, i), i + 1);
    }
  }

  // Over runs.

  ghost predicate BothDistinct(c: Timing, s: Channel)
    requires Fits(c.m)
  {
    Distinct(c.m, s.wq) && Distinct(c.m, s.rq)
  }

  predicate NoneMarked(q: Slots, r: Slots) {
    |r| == |q| && forall i :: 0 <= i < |q| && r[i].Some? && r[i].value.checked ==>
      q[i].Some? && q[i].value.checked && r[i].value.address == q[i].value.address
  }

  lemma StageDistinct(c: Timing, s: Channel, t: Channel)
    requires Fits(c.m) && BothDistinct(c, s) && NoneMarked(s.wq, t.wq) && NoneMarked(s.rq, t.rq)
    ensures BothDistinct(c, t)
  {
    hide IsCollision;
  }

  lemma CheckedDistinct(c: Timing, s: Channel)
    requires Inv(c, s) && BothDistinct(c, s)
    ensures BothDistinct(c, Checked(c, s))
  {
    WritesExactly(c.m, s.wq, 0);
    ReadsExactly(c.m, s.(wq := CheckWrites(c.m, s.wq, 0)), 0);
    hide Distinct, CheckWrites, CheckReads, AllMet, AllDrawn, Inv, OnlyMarked, InPlace;
  }

  lemma FinishMarks(s: Channel)
    requires s.active.Some? ==> Serving(s, s.active.value)
    ensures var t := FinishBus(s); NoneMarked(s.wq, t.wq) && NoneMarked(s.rq, t.rq)
  {
  }

  lemma RestMarks(c: Timing, s: Channel)
    requires s.active.Some? ==> s.active.value < |s.banks|
    ensures var t := ScheduleRefresh(c, SwapMode(c, s)); NoneMarked(s.wq, t.wq) && NoneMarked(s.rq, t.rq)
  {
    hide SwapNow;
  }

  lemma PreparedDistinct(c: Timing, s: Channel)
    requires Inv(c, s) && BothDistinct(c, s)
    ensures BothDistinct(c, Prepared(c, s))
  {
    hide BothDistinct, FinishBus, SwapMode, ScheduleRefresh, Populate, AllChecked, Settled, Inv, Checked, NoneMarked;
    InRange(c, s);
    var checked := Checked(c, s);
    CheckedDistinct(c, s);
    FinishKeeps(c, checked);
    FinishMarks(checked);
    var f := FinishBus(checked);
    StageDistinct(c, checked, f);
    SwapKeeps(c, f);
    InRange(c, f);
    RestMarks(c, f);
    RefreshKeeps(c, SwapMode(c, f));
    var r := ScheduleRefresh(c, SwapMode(c, f));
    StageDistinct(c, f, r);
    PopulateKeeps(c, r);
    AllServing(c, r);
    PopulateMarks(c, r);
    StageDistinct(c, r, Populate(c, r));
  }

  lemma InRange(c: Timing, s: Channel)
    requires Inv(c, s)
    ensures Fits(c.m) && (s.active.Some? ==> s.active.value < |s.banks|)
  {
  }

  lemma PopulateMarks(c: Timing, s: Channel)
    requires Shape(c, s) && s.banks != [] && forall b :: 0 <= b < |s.banks| && s.banks[b].valid ==> Serving(s, b)
    ensures var t := Populate(c, s); NoneMarked(s.wq, t.wq) && NoneMarked(s.rq, t.rq)
  {
    hide GroupOf, NextOnBus;
  }

  lemma ServiceMarks(c: Timing, s: Channel, slot: nat)
    requires Shape(c, s) && slot < |Queue(s, s.writeMode)|
    ensures var t := Service(c, s, slot); NoneMarked(s.wq, t.wq) && NoneMarked(s.rq, t.rq)
  {
    hide BankOf, RowOf;
  }

  lemma OperateDistinct(c: Timing, s: Channel, now: int)
    requires Settled(c, s) && s.now <= now < NEVER && BothDistinct(c, s)
    ensures BothDistinct(c, Operate(c, s, now))
  {
    LaterKeeps(c, s, now);
    PreparedDistinct(c, s.(now := now));
    hide Inv, Settled, Service, Prepared, NextToSchedule, Distinct, NoneMarked;
    var p := Prepared(c, s.(now := now));
    var slot := NextToSchedule(c, p, Queue(p, p.writeMode), |Queue(p, p.writeMode)| - 1);
    ServiceMarks(c, p, slot);
    StageDistinct(c, p, Service(c, p, slot));
  }

  lemma AddMarks(q: Slots, e: Entry)
    ensures NoneMarked(q, Added(q, e)) && NoneMarked(q, q)
  {
  }

  lemma ApplyDistinct(c: Timing, s: Channel, e: Event)
    requires Settled(c, s) && Enabled(s, e) && BothDistinct(c, s)
    ensures BothDistinct(c, Apply(c, s, e))
  {
    AllServing(c, s);
    hide BothDistinct, Operate, Settled, Added, NoneMarked;
    match e
    case AddRead(entry) =>
      AddMarks(s.rq, entry);
      AddMarks(s.wq, entry);
      StageDistinct(c, s, Apply(c, s, e));
    case AddWrite(entry) =>
      AddMarks(s.rq, entry);
      AddMarks(s.wq, entry);
      StageDistinct(c, s, Apply(c, s, e));
    case Cycle(now) => OperateDistinct(c, s, now);
  }

  lemma StartsDistinct(c: Timing, s: Channel)
    requires Initial(c, s)
    ensures Usable(c.m) && BothDistinct(c, s)
  {
  }

  lemma RunFits(c: Timing, states: seq<Channel>, events: seq<Event>)
    requires IsRun(c, states, events)
    ensures Usable(c.m) && BothDistinct(c, states[0])
  {
    StartsDistinct(c, states[0]);
  }

  /** In every run no two checked writes, and no two checked reads, are for the same place. */
  lemma {:induction false} RunDistinct(c: Timing, states: seq<Channel>, events: seq<Event>, i: nat)
    requires IsRun(c, states, events) && i < |states|
    ensures Usable(c.m) && BothDistinct(c, states[i])
  {
    RunFits(c, states, events);
    if i > 0 {
      RunSteps(c, states, events, i - 1);
      hide BothDistinct, Settled, Apply, Enabled, Initial;
      RunDistinct(c, states, events, i - 1);
      assert Steps(c, states[i - 1], events[i - 1], states[i]);
      hide IsRun;
      ApplyDistinct(c, states[i - 1], events[i - 1]);
    }
  }

  // The stages.

  /** When the transfer on the bus has ended, its request leaves its queue, its bank is free, and everyone waiting for
    * it is answered once; until then nothing happens. */
  lemma FinishesExactly(c: Timing, s: Channel)
    requires Inv(c, s)
    ensures s.active.Some? ==> Serving(s, s.active.value)
    ensures var t := FinishBus(s);
            if s.active.Some? && s.banks[s.active.value].ready <= s.now then
              var b, e := s.active.value, Served(s, s.active.value);
              && t.active.None? && !t.banks[b].valid && t.banks[b].open == s.banks[b].open
              && t.responses == s.responses + RepliesTo(e)
              && Queue(t, s.banks[b].write) == Queue(s, s.banks[b].write)[s.banks[b].slot := None]
              && Queue(t, !s.banks[b].write) == Queue(s, !s.banks[b].write)
              && forall x :: 0 <= x < |s.banks| && x != b ==> t.banks[x] == s.banks[x]
            else t == s
  {
    FinishKeeps(c, s);
    if s.active.Some? { RepliesAre(Served(s, s.active.value), 0); }
    hide Inv, RepliesTo;
  }

  /** A bank whose request may have the bus now. */
  predicate CanTransfer(s: Channel, b: nat) { b < |s.banks| && s.banks[b].valid && s.banks[b].ready <= s.now }

  /** A transfer starts exactly when the bus is free and a bank is ready for it, and then for one that has been ready
    * longest. */
  lemma PopulatesExactly(c: Timing, s: Channel)
    requires Settled(c, s) && s.banks != []
    ensures forall b :: 0 <= b < |s.banks| && s.banks[b].valid ==> Serving(s, b)
    ensures var t := Populate(c, s);
            && (t == s <==> !(s.active.None? && s.busFree <= s.now && exists b: nat :: CanTransfer(s, b)))
            && (t != s ==>
                 && t.active.Some? && CanTransfer(s, t.active.value)
                 && forall b: nat :: CanTransfer(s, b) ==> s.banks[t.active.value].ready <= s.banks[b].ready)
  {
    AllServing(c, s);
    hide Settled, Shape, Populate, CanTransfer;
    NextCan(s);
    PopulateWhen(c, s);
  }

  lemma NextCan(s: Channel)
    requires s.banks != []
    ensures var r := NextOnBus(s.banks, |s.banks| - 1);
            && ((exists b: nat :: CanTransfer(s, b)) <==> CanTransfer(s, r))
            && forall b: nat :: CanTransfer(s, b) ==> s.banks[r].ready <= s.banks[b].ready
  {
    NextOnBusLeast(s.banks, |s.banks| - 1);
    hide NextOnBus;
  }

  lemma PopulateWhen(c: Timing, s: Channel)
    requires Shape(c, s) && s.banks != [] && forall b :: 0 <= b < |s.banks| && s.banks[b].valid ==> Serving(s, b)
    ensures var t, r := Populate(c, s), NextOnBus(s.banks, |s.banks| - 1);
            if s.active.None? && s.busFree <= s.now && CanTransfer(s, r) then t.active == Some(r) else t == s
  {
    hide GroupOf, Usable, NextOnBus;
  }

  lemma AllServing(c: Timing, s: Channel)
    requires Settled(c, s)
    ensures Shape(c, s) && forall b :: 0 <= b < |s.banks| && s.banks[b].valid ==> Serving(s, b)
  {
    forall b | 0 <= b < |s.banks| && s.banks[b].valid ensures Serving(s, b) { assert BankOk(c, s, b); }
  }

  /** The request considered gets its bank exactly when it is ready and the bank is neither busy nor refreshing. */
  lemma ServicesExactly(c: Timing, s: Channel, slot: nat)
    requires Shape(c, s) && slot < |Queue(s, s.writeMode)|
    ensures var q, t := Queue(s, s.writeMode), Service(c, s, slot);
            if q[slot].Some? && q[slot].value.ready <= s.now && !s.banks[BankOf(c.m, q[slot].value.address)].valid
               && !s.banks[BankOf(c.m, q[slot].value.address)].underRefresh
            then
              var b := BankOf(c.m, q[slot].value.address);
              && t.banks[b].valid && t.banks[b].write == s.writeMode && t.banks[b].slot == slot
              && t.banks[b].open == Some(RowOf(c.m, q[slot].value.address))
              && Queue(t, s.writeMode) == q[slot := Some(q[slot].value.(scheduled := true, ready := NEVER))]
              && Queue(t, !s.writeMode) == Queue(s, !s.writeMode)
              && forall x :: 0 <= x < |s.banks| && x != b ==> t.banks[x] == s.banks[x]
            else t == s
  {
    hide BankOf, RowOf;
  }
}
