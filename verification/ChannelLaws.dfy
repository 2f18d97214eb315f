/** What a collision check in src/channel.cc makes of the queues, read off the queues before it. */
module ChannelLaws {
  import opened Wakeups
  import opened Channels

  /** Requests for one unit, both or neither of them translated. */
  predicate Near(unit: Positive, x: Request, y: Request) {
    x.address / unit == y.address / unit && x.translated == y.translated
  }

  predicate SameTarget(x: Request, y: Request) {
    x.address == y.address && x.vAddress == y.vAddress && x.kind == y.kind && x.translated == y.translated
  }

  ghost predicate Asker(unit: Positive, q: seq<Request>, x: Request) {
    exists z :: z in q && Near(unit, z, x) && z.wanted
  }

  ghost predicate Depends(unit: Positive, q: seq<Request>, x: Request, d: nat) {
    exists z :: z in q && Near(unit, z, x) && d in z.deps
  }

  /** The request is one of those, with nothing added but what others for the same unit ask for. */
  ghost predicate Drawn(unit: Positive, q: seq<Request>, x: Request) {
    && (exists y :: y in q && SameTarget(y, x))
    && (x.wanted ==> Asker(unit, q, x))
    && forall d :: d in x.deps ==> Depends(unit, q, x, d)
  }

  /** The one asks for all that the other asks for. */
  ghost predicate KeptBy(unit: Positive, z: Request, x: Request) {
    Near(unit, z, x) && (z.wanted ==> x.wanted) && forall d :: d in z.deps ==> d in x.deps
  }

  ghost predicate Kept(unit: Positive, z: Request, r: seq<Request>) { exists x :: x in r && KeptBy(unit, z, x) }

  ghost predicate AllDrawn(unit: Positive, q: seq<Request>, r: seq<Request>) {
    forall x :: x in r ==> Drawn(unit, q, x)
  }

  ghost predicate AllKept(unit: Positive, q: seq<Request>, r: seq<Request>) {
    forall k :: 0 <= k < |q| ==> Kept(unit, q[k], r)
  }

  predicate Checked(q: seq<Request>) { forall k :: 0 <= k < |q| ==> q[k].checked }

  lemma SelfDrawn(unit: Positive, q: seq<Request>, x: Request, y: Request)
    requires y in q && x == y.(checked := x.checked)
    ensures Drawn(unit, q, x) && KeptBy(unit, y, x)
  {
    assert SameTarget(y, x) && Near(unit, y, x);
  }

  lemma DrawnThrough(unit: Positive, q: seq<Request>, m: seq<Request>, r: seq<Request>)
    requires AllDrawn(unit, q, m) && AllDrawn(unit, m, r)
    ensures AllDrawn(unit, q, r)
  {
    forall x | x in r ensures Drawn(unit, q, x) {
      assert Drawn(unit, m, x);
      var y :| y in m && SameTarget(y, x);
      assert Drawn(unit, q, y);
      var w :| w in q && SameTarget(w, y);
      assert SameTarget(w, x);
      if x.wanted {
        var z :| z in m && Near(unit, z, x) && z.wanted;
        assert Drawn(unit, q, z);
        var v :| v in q && Near(unit, v, z) && v.wanted;
        assert Near(unit, v, x);
      }
      forall d | d in x.deps ensures Depends(unit, q, x, d) {
        assert Depends(unit, m, x, d);
        var z :| z in m && Near(unit, z, x) && d in z.deps;
        assert Drawn(unit, q, z) && Depends(unit, q, z, d);
        var v :| v in q && Near(unit, v, z) && d in v.deps;
        assert Near(unit, v, x);
      }
    }
  }

  lemma KeptThrough(unit: Positive, z: Request, x: Request, r: seq<Request>)
    requires KeptBy(unit, z, x) && Kept(unit, x, r)
    ensures Kept(unit, z, r)
  {
    var y :| y in r && KeptBy(unit, x, y);
    assert KeptBy(unit, z, y);
  }

  // One turn.

  lemma PassTurn(unit: Positive, q: seq<Request>, i: nat)
    requires i < |q|
    ensures var m := q[i := q[i].(checked := true)];
            AllDrawn(unit, q, m) && forall k :: 0 <= k < |q| ==> KeptBy(unit, q[k], m[k])
  {
    var m := q[i := q[i].(checked := true)];
    hide Drawn, KeptBy;
    forall k | 0 <= k < |q| ensures Drawn(unit, q, m[k]) && KeptBy(unit, q[k], m[k]) {
      SelfDrawn(unit, q, m[k], q[k]);
    }
    forall x | x in m ensures Drawn(unit, q, x) {
      var k :| 0 <= k < |m| && m[k] == x;
    }
  }

  lemma MergedDrawn(unit: Positive, q: seq<Request>, x: Request, y: Request)
    requires x in q && y in q && Near(unit, x, y)
    ensures Drawn(unit, q, Merged(x, y))
    ensures KeptBy(unit, x, Merged(x, y)) && KeptBy(unit, y, Merged(x, y))
  {
    var m := Merged(x, y);
    forall d ensures d in m.deps <==> d in x.deps || d in y.deps { SetUnionMembers(x.deps, y.deps, d); }
    assert SameTarget(x, m) && Near(unit, x, m) && Near(unit, y, m);
    forall d | d in m.deps ensures Depends(unit, q, m, d) {
      if d in x.deps { assert x in q && Near(unit, x, m) && d in x.deps; }
    }
  }

  /** Where a request is after the i-th has been merged into the one at j. */
  function MovedTo(k: nat, i: nat, j: nat): nat { if k == i then j else if k < i then k else k - 1 }

  lemma ErasePlaces<T>(q: seq<T>, y: T, i: nat, j: nat)
    requires j < i < |q|
    ensures var m := Erase(q[j := y], i);
            && m[j] == y
            && (forall k :: 0 <= k < |q| && k != i && k != j ==> m[MovedTo(k, i, j)] == q[k])
            && forall k :: 0 <= k < |m| && k != j ==> m[k] == q[if k < i then k else k + 1]
  {
  }

  lemma BothKept(unit: Positive, q: seq<Request>, i: nat, j: nat, k: nat)
    requires j < i < |q| && Near(unit, q[j], q[i]) && k < |q|
    ensures KeptBy(unit, q[k], Erase(q[j := Merged(q[j], q[i])], i)[MovedTo(k, i, j)])
  {
    MergedDrawn(unit, q, q[j], q[i]);
    SelfDrawn(unit, q, q[k], q[k]);
    ErasePlaces(q, Merged(q[j], q[i]), i, j);
    hide Drawn, KeptBy, Merged, Near, Erase;
  }

  lemma BothDrawn(unit: Positive, q: seq<Request>, i: nat, j: nat)
    requires j < i < |q| && Near(unit, q[j], q[i])
    ensures AllDrawn(unit, q, Erase(q[j := Merged(q[j], q[i])], i))
  {
    hide Drawn, KeptBy, Merged, Near, Erase, MovedTo;
    MergedDrawn(unit, q, q[j], q[i]);
    ErasePlaces(q, Merged(q[j], q[i]), i, j);
    var m := Erase(q[j := Merged(q[j], q[i])], i);
    forall x | x in m ensures Drawn(unit, q, x) {
      var k :| 0 <= k < |m| && m[k] == x;
      if k != j { SelfDrawn(unit, q, x, x); }
    }
  }

  lemma MergeTurn(unit: Positive, q: seq<Request>, i: nat) returns (j: nat)
    requires i < |q| && Collides(q, unit, q[i], i)
    ensures j < i && AllDrawn(unit, q, MergeInto(q, unit, i))
    ensures forall k :: 0 <= k < |q| ==> KeptBy(unit, q[k], MergeInto(q, unit, i)[MovedTo(k, i, j)])
  {
    j := FirstSame(q, unit, q[i].address, 0, i);
    assert Near(unit, q[j], q[i]);
    hide AllDrawn, KeptBy, Merged, FirstSame;
    BothDrawn(unit, q, i, j);
    forall k | 0 <= k < |q| ensures KeptBy(unit, q[k], MergeInto(q, unit, i)[MovedTo(k, i, j)]) {
      BothKept(unit, q, i, j, k);
    }
  }

  // The write queue.

  /** Afterwards every write is checked; each is one of those before, asks for what some of them asked for, and between
    * them they ask for all of it. */
  lemma {:induction false} WritesExactly(q: seq<Request>, unit: Positive, i: nat)
    requires i <= |q| && Checked(q[..i])
    ensures var r := CheckWrites(q, unit, i);
            |r| <= |q| && Checked(r) && AllDrawn(unit, q, r) && AllKept(unit, q, r)
    decreases |q| - i
  {
    hide Collides, MergeInto, Drawn, KeptBy, AllDrawn;
    if i == |q| {
      Unchanged(unit, q);
      assert q[..i] == q;
    } else if Collides(q, unit, q[i], i) {
      var j := MergeTurn(unit, q, i);
      MergeChecked(unit, q, i);
      var m := MergeInto(q, unit, i);
      WritesExactly(m, unit, i);
      DrawnThrough(unit, q, m, CheckWrites(m, unit, i));
      hide Kept;
      forall k | 0 <= k < |q| ensures Kept(unit, q[k], CheckWrites(m, unit, i)) {
        KeptThrough(unit, q[k], m[MovedTo(k, i, j)], CheckWrites(m, unit, i));
      }
    } else {
      PassTurn(unit, q, i);
      var m := q[i := q[i].(checked := true)];
      assert m[..i + 1] == q[..i] + [m[i]];
      WritesExactly(m, unit, i + 1);
      DrawnThrough(unit, q, m, CheckWrites(m, unit, i + 1));
      hide Kept;
      forall k | 0 <= k < |q| ensures Kept(unit, q[k], CheckWrites(m, unit, i + 1)) {
        KeptThrough(unit, q[k], m[k], CheckWrites(m, unit, i + 1));
      }
    }
  }

  lemma Unchanged(unit: Positive, q: seq<Request>)
    ensures AllDrawn(unit, q, q) && AllKept(unit, q, q)
  {
    hide Drawn, KeptBy;
    forall x | x in q ensures Drawn(unit, q, x) && Kept(unit, x, q) { SelfDrawn(unit, q, x, x); }
  }

  lemma MergeChecked(unit: Positive, q: seq<Request>, i: nat)
    requires i < |q| && Collides(q, unit, q[i], i) && Checked(q[..i])
    ensures Checked(MergeInto(q, unit, i)[..i]) && MergeInto(q, unit, i)[i..] == q[i + 1..]
  {
    var j := FirstSame(q, unit, q[i].address, 0, i);
    var m := MergeInto(q, unit, i);
    assert q[..i][j].checked;
    forall k | 0 <= k < i ensures m[k].checked { assert k != j ==> m[k] == q[..i][k]; }
    hide SetUnion, FirstSame;
  }

  // The read and prefetch queues.

  /** The first write for the same unit has the answer. */
  ghost predicate HasAnswer(c: ChannelConfig, wq: seq<Request>, z: Request) {
    exists k :: 0 <= k < |wq| && Near(WriteUnit(c), wq[k], z)
                && forall j :: 0 <= j < k ==> wq[j].address / WriteUnit(c) != z.address / WriteUnit(c)
  }

  /** The replies to those among the requests that a write has the answer to, and that want one, in order. */
  ghost function Forwarded(c: ChannelConfig, wq: seq<Request>, q: seq<Request>): seq<Reply> {
    if q == [] then []
    else
      (if HasAnswer(c, wq, q[0]) && q[0].wanted then [Reply(q[0].address, q[0].vAddress, q[0].deps)] else [])
      + Forwarded(c, wq, q[1..])
  }

  lemma AnswerIs(c: ChannelConfig, wq: seq<Request>, z: Request)
    ensures Collides(wq, WriteUnit(c), z, |wq|) <==> HasAnswer(c, wq, z)
  {
    var j := FirstSame(wq, WriteUnit(c), z.address, 0, |wq|);
    if j < |wq| && wq[j].translated == z.translated { assert Near(WriteUnit(c), wq[j], z); }
    hide WriteUnit, FirstSame;
  }

  /** Those not answered from a write stay among the requests, or in one of them. */
  ghost predicate RestKept(c: ChannelConfig, wq: seq<Request>, q: seq<Request>, i: nat, r: seq<Request>)
    requires i <= |q|
  {
    && (forall k :: 0 <= k < i ==> Kept(c.blockSize, q[k], r))
    && forall k :: i <= k < |q| ==> HasAnswer(c, wq, q[k]) || Kept(c.blockSize, q[k], r)
  }

  lemma {:induction false} ReadsReply(c: ChannelConfig, wq: seq<Request>, q: seq<Request>, returned: seq<Reply>, i: nat)
    requires i <= |q|
    ensures CheckReads(c, wq, q, returned, i).1 == returned + Forwarded(c, wq, q[i..])
    decreases |q| - i
  {
    hide Collides, HasAnswer, MergeInto;
    if i < |q| {
      AnswerIs(c, wq, q[i]);
      assert q[i..][1..] == q[i + 1..];
      if HasAnswer(c, wq, q[i]) {
        assert Erase(q, i)[i..] == q[i + 1..];
        ReadsReply(c, wq, Erase(q, i), Forward(returned, q[i]), i);
      } else if Collides(q, c.blockSize, q[i], i) {
        MergeRest(c.blockSize, q, i);
        ReadsReply(c, wq, MergeInto(q, c.blockSize, i), returned, i);
      } else {
        assert q[i := q[i].(checked := true)][i + 1..] == q[i + 1..];
        ReadsReply(c, wq, q[i := q[i].(checked := true)], returned, i + 1);
      }
    }
  }

  lemma MergeRest(unit: Positive, q: seq<Request>, i: nat)
    requires i < |q| && Collides(q, unit, q[i], i)
    ensures MergeInto(q, unit, i)[i..] == q[i + 1..]
  {
    hide SetUnion, FirstSame;
  }

  lemma EraseDrawn(unit: Positive, q: seq<Request>, i: nat)
    requires i < |q|
    ensures AllDrawn(unit, q, Erase(q, i))
  {
    hide Drawn;
    var e := Erase(q, i);
    forall x | x in e ensures Drawn(unit, q, x) {
      var k :| 0 <= k < |e| && e[k] == x;
      assert q[if k < i then k else k + 1] == x;
      SelfDrawn(unit, q, x, x);
    }
  }

  /** Afterwards every request is checked; each is one of those before, asks for what some of them asked for, and
    * between them they ask for all that those asked for which no write has the answer to. */
  lemma {:induction false} ReadsExactly(c: ChannelConfig, wq: seq<Request>, q: seq<Request>, returned: seq<Reply>,
                                        i: nat)
    requires i <= |q| && Checked(q[..i])
    ensures var r := CheckReads(c, wq, q, returned, i).0;
            |r| <= |q| && Checked(r) && AllDrawn(c.blockSize, q, r) && RestKept(c, wq, q, i, r)
    decreases |q| - i
  {
    hide Collides, MergeInto, Drawn, Kept, AllDrawn, HasAnswer, KeptBy;
    var unit := c.blockSize;
    if i == |q| {
      Unchanged(unit, q);
      assert q[..i] == q;
    } else {
      AnswerIs(c, wq, q[i]);
      CheckReadsTurn(c, wq, q, returned, i);
      if HasAnswer(c, wq, q[i]) {
        ForwardTurn(c, wq, q, returned, i);
      } else if Collides(q, unit, q[i], i) {
        MergedTurn(c, wq, q, returned, i);
      } else {
        PassedTurn(c, wq, q, returned, i);
      }
    }
  }

  lemma ForwardTurn(c: ChannelConfig, wq: seq<Request>, q: seq<Request>, returned: seq<Reply>, i: nat)
    requires i < |q| && Checked(q[..i]) && HasAnswer(c, wq, q[i])
    ensures var r := CheckReads(c, wq, Erase(q, i), Forward(returned, q[i]), i).0;
            |r| <= |q| && Checked(r) && AllDrawn(c.blockSize, q, r) && RestKept(c, wq, q, i, r)
    decreases |q| - i, 0
  {
    hide Drawn, Kept, AllDrawn, HasAnswer, CheckReads;
    var e := Erase(q, i);
    assert e[..i] == q[..i];
    ReadsExactly(c, wq, e, Forward(returned, q[i]), i);
    var r := CheckReads(c, wq, e, Forward(returned, q[i]), i).0;
    EraseDrawn(c.blockSize, q, i);
    DrawnThrough(c.blockSize, q, e, r);
    forall k | 0 <= k < i ensures Kept(c.blockSize, q[k], r) { assert e[k] == q[k]; }
    forall k | i < k < |q| ensures HasAnswer(c, wq, q[k]) || Kept(c.blockSize, q[k], r) { assert e[k - 1] == q[k]; }
  }

  lemma MergedTurn(c: ChannelConfig, wq: seq<Request>, q: seq<Request>, returned: seq<Reply>, i: nat)
    requires i < |q| && Checked(q[..i]) && Collides(q, c.blockSize, q[i], i)
    ensures var r := CheckReads(c, wq, MergeInto(q, c.blockSize, i), returned, i).0;
            |r| <= |q| && Checked(r) && AllDrawn(c.blockSize, q, r) && RestKept(c, wq, q, i, r)
    decreases |q| - i, 0
  {
    hide Drawn, Kept, AllDrawn, HasAnswer, CheckReads, Collides, KeptBy, MergeInto;
    var j := MergeTurn(c.blockSize, q, i);
    MergeChecked(c.blockSize, q, i);
    var m := MergeInto(q, c.blockSize, i);
    ReadsExactly(c, wq, m, returned, i);
    var r := CheckReads(c, wq, m, returned, i).0;
    DrawnThrough(c.blockSize, q, m, r);
    forall k | 0 <= k <= i ensures Kept(c.blockSize, q[k], r) {
      KeptThrough(c.blockSize, q[k], m[MovedTo(k, i, j)], r);
    }
    forall k | i < k < |q| ensures HasAnswer(c, wq, q[k]) || Kept(c.blockSize, q[k], r) {
      assert m[k - 1] == m[i..][k - 1 - i] == q[k];
    }
  }

  lemma PassedTurn(c: ChannelConfig, wq: seq<Request>, q: seq<Request>, returned: seq<Reply>, i: nat)
    requires i < |q| && Checked(q[..i])
    ensures var m := q[i := q[i].(checked := true)];
            var r := CheckReads(c, wq, m, returned, i + 1).0;
            |r| <= |q| && Checked(r) && AllDrawn(c.blockSize, q, r) && RestKept(c, wq, q, i, r)
    decreases |q| - i, 0
  {
    hide Drawn, Kept, AllDrawn, HasAnswer, CheckReads, KeptBy;
    PassTurn(c.blockSize, q, i);
    var m := q[i := q[i].(checked := true)];
    assert m[..i + 1] == q[..i] + [m[i]];
    ReadsExactly(c, wq, m, returned, i + 1);
    var r := CheckReads(c, wq, m, returned, i + 1).0;
    DrawnThrough(c.blockSize, q, m, r);
    forall k | 0 <= k <= i ensures Kept(c.blockSize, q[k], r) { KeptThrough(c.blockSize, q[k], m[k], r); }
  }

  // Nothing is left to merge.

  /** The first request for the unit comes before the k-th, and both or neither of them are translated. */
  predicate Follows(unit: Positive, q: seq<Request>, k: nat)
    requires k < |q|
  {
    exists j :: 0 <= j < k && Near(unit, q[j], q[k])
                && forall l :: 0 <= l < j ==> q[l].address / unit != q[k].address / unit
  }

  predicate Apart(unit: Positive, r: seq<Request>, i: nat) { forall k :: i <= k < |r| ==> !Follows(unit, r, k) }

  predicate SameStart(q: seq<Request>, r: seq<Request>, i: nat) {
    i <= |q| && i <= |r| && forall k :: 0 <= k < i ==> SameTarget(q[k], r[k])
  }

  lemma FollowsIs(unit: Positive, q: seq<Request>, i: nat)
    requires i < |q|
    ensures Collides(q, unit, q[i], i) <==> Follows(unit, q, i)
  {
    var j := FirstSame(q, unit, q[i].address, 0, i);
    if j < i && q[j].translated == q[i].translated { assert Near(unit, q[j], q[i]); }
    hide FirstSame;
  }

  lemma FollowsAlike(unit: Positive, q: seq<Request>, r: seq<Request>, i: nat)
    requires SameStart(q, r, i + 1)
    ensures Follows(unit, q, i) <==> Follows(unit, r, i)
  {
    assert forall j :: 0 <= j <= i ==> SameTarget(q[j], r[j]);
    if Follows(unit, q, i) {
      var j :| 0 <= j < i && Near(unit, q[j], q[i])
            && forall l :: 0 <= l < j ==> q[l].address / unit != q[i].address / unit;
      assert Near(unit, r[j], r[i]);
    }
    if Follows(unit, r, i) {
      var j :| 0 <= j < i && Near(unit, r[j], r[i])
            && forall l :: 0 <= l < j ==> r[l].address / unit != r[i].address / unit;
      assert Near(unit, q[j], q[i]);
    }
  }

  lemma MergeStart(unit: Positive, q: seq<Request>, i: nat)
    requires i < |q| && Collides(q, unit, q[i], i)
    ensures SameStart(q, MergeInto(q, unit, i), i)
  {
    var j := FirstSame(q, unit, q[i].address, 0, i);
    ErasePlaces(q, Merged(q[j], q[i]), i, j);
    hide FirstSame, SetUnion, Erase;
    assert SameTarget(q[j], Merged(q[j], q[i]));
  }

  lemma StartThrough(q: seq<Request>, m: seq<Request>, r: seq<Request>, i: nat)
    requires SameStart(q, m, i) && SameStart(m, r, i)
    ensures SameStart(q, r, i)
  {
    assert forall k :: 0 <= k < i ==> SameTarget(q[k], m[k]) && SameTarget(m[k], r[k]);
  }

  lemma PassStart(unit: Positive, q: seq<Request>, i: nat, r: seq<Request>)
    requires i < |q| && !Follows(unit, q, i) && Apart(unit, r, i + 1)
    requires SameStart(q[i := q[i].(checked := true)], r, i + 1)
    ensures SameStart(q, r, i) && Apart(unit, r, i)
  {
    var m := q[i := q[i].(checked := true)];
    assert forall k :: 0 <= k <= i ==> SameTarget(m[k], r[k]);
    assert SameStart(q, r, i + 1);
    FollowsAlike(unit, q, r, i);
    hide Follows;
  }

  lemma {:induction false} WritesApart(q: seq<Request>, unit: Positive, i: nat)
    requires i <= |q|
    ensures var r := CheckWrites(q, unit, i); SameStart(q, r, i) && Apart(unit, r, i)
    decreases |q| - i
  {
    hide Collides, MergeInto, Follows, Apart;
    if i < |q| {
      FollowsIs(unit, q, i);
      if Collides(q, unit, q[i], i) {
        WritesApart(MergeInto(q, unit, i), unit, i);
        MergeStart(unit, q, i);
        StartThrough(q, MergeInto(q, unit, i), CheckWrites(q, unit, i), i);
      } else {
        WritesApart(q[i := q[i].(checked := true)], unit, i + 1);
        PassStart(unit, q, i, CheckWrites(q, unit, i));
      }
    } else {
      assert Apart(unit, q, i) by { ApartEnd(unit, q); }
    }
  }

  lemma ApartEnd(unit: Positive, q: seq<Request>)
    ensures Apart(unit, q, |q|)
  {
  }

  ghost predicate Unanswered(c: ChannelConfig, wq: seq<Request>, r: seq<Request>, i: nat) {
    forall k :: i <= k < |r| ==> !HasAnswer(c, wq, r[k])
  }

  lemma AnswerAlike(c: ChannelConfig, wq: seq<Request>, x: Request, y: Request)
    requires SameTarget(x, y)
    ensures HasAnswer(c, wq, x) <==> HasAnswer(c, wq, y)
  {
    hide WriteUnit;
    if HasAnswer(c, wq, x) {
      var k :| 0 <= k < |wq| && Near(WriteUnit(c), wq[k], x)
            && forall j :: 0 <= j < k ==> wq[j].address / WriteUnit(c) != x.address / WriteUnit(c);
      assert Near(WriteUnit(c), wq[k], y);
    }
    if HasAnswer(c, wq, y) {
      var k :| 0 <= k < |wq| && Near(WriteUnit(c), wq[k], y)
            && forall j :: 0 <= j < k ==> wq[j].address / WriteUnit(c) != y.address / WriteUnit(c);
      assert Near(WriteUnit(c), wq[k], x);
    }
  }

  lemma {:induction false} ReadsApart(c: ChannelConfig, wq: seq<Request>, q: seq<Request>, returned: seq<Reply>, i: nat)
    requires i <= |q|
    ensures var r := CheckReads(c, wq, q, returned, i).0;
            SameStart(q, r, i) && Apart(c.blockSize, r, i) && Unanswered(c, wq, r, i)
    decreases |q| - i
  {
    hide MergeInto, Follows, Apart, HasAnswer, Collides;
    if i < |q| {
      FollowsIs(c.blockSize, q, i);
      AnswerIs(c, wq, q[i]);
      var r := CheckReads(c, wq, q, returned, i).0;
      if Collides(wq, WriteUnit(c), q[i], |wq|) {
        ReadsApart(c, wq, Erase(q, i), Forward(returned, q[i]), i);
        StartThrough(q, Erase(q, i), r, i);
      } else if Collides(q, c.blockSize, q[i], i) {
        ReadsApart(c, wq, MergeInto(q, c.blockSize, i), returned, i);
        MergeStart(c.blockSize, q, i);
        StartThrough(q, MergeInto(q, c.blockSize, i), r, i);
      } else {
        var m := q[i := q[i].(checked := true)];
        ReadsApart(c, wq, m, returned, i + 1);
        PassStart(c.blockSize, q, i, r);
        assert SameTarget(m[i], r[i]);
        AnswerAlike(c, wq, q[i], r[i]);
      }
    } else {
      ApartEnd(c.blockSize, q);
    }
  }

  // The whole check.

  lemma {:induction false} FirstAre(q: seq<Request>)
    ensures Checked(q[..FirstUnchecked(q)])
    ensures FirstUnchecked(q) < |q| ==> !q[FirstUnchecked(q)].checked
  {
    if q != [] && q[0].checked {
      FirstAre(q[1..]);
      var k := FirstUnchecked(q);
      assert forall j :: 1 <= j < k ==> q[..k][j] == q[1..][..k - 1][j - 1];
    }
  }

  /** What a check makes of one queue: all is checked, nothing is asked for that was not asked for before, the requests
    * checked before, of which there are i, still stand first, and no later one could be merged. */
  ghost predicate Tidied(unit: Positive, q: seq<Request>, i: nat, r: seq<Request>) {
    && Checked(r) && |r| <= |q| && AllDrawn(unit, q, r) && SameStart(q, r, i) && Apart(unit, r, i)
  }

  predicate CheckedUpTo(q: seq<Request>, i: nat) { i <= |q| && Checked(q[..i]) && (i < |q| ==> !q[i].checked) }

  /** A check tidies all queues. All that the writes asked for is still asked for, and so is all that the reads and
    * prefetches asked for, but for those not checked before that a write has the answer to. None of these is left, and
    * exactly they have been answered, if they wanted it, the reads before the prefetches and otherwise in order. */
  lemma CollisionExactly(c: ChannelConfig, s: Channel) returns (w: nat, r: nat, p: nat)
    ensures CheckedUpTo(s.wq, w) && CheckedUpTo(s.rq, r) && CheckedUpTo(s.pq, p)
    ensures var t := CheckCollision(c, s);
            && Tidied(WriteUnit(c), s.wq, w, t.wq) && AllKept(WriteUnit(c), s.wq, t.wq)
            && Tidied(c.blockSize, s.rq, r, t.rq) && RestKept(c, t.wq, s.rq, r, t.rq) && Unanswered(c, t.wq, t.rq, r)
            && Tidied(c.blockSize, s.pq, p, t.pq) && RestKept(c, t.wq, s.pq, p, t.pq) && Unanswered(c, t.wq, t.pq, p)
            && t.returned == s.returned + Forwarded(c, t.wq, s.rq[r..]) + Forwarded(c, t.wq, s.pq[p..])
  {
    hide AllDrawn, AllKept, HasAnswer, CheckReads, CheckWrites, RestKept, Forwarded, FirstUnchecked, Unanswered, Apart,
      SameStart, Checked;
    FirstAre(s.wq);
    FirstAre(s.rq);
    FirstAre(s.pq);
    var t := CheckCollision(c, s);
    w, r, p := FirstUnchecked(s.wq), FirstUnchecked(s.rq), FirstUnchecked(s.pq);
    WritesExactly(s.wq, WriteUnit(c), w);
    WritesApart(s.wq, WriteUnit(c), w);
    ReadsExactly(c, t.wq, s.rq, s.returned, r);
    ReadsApart(c, t.wq, s.rq, s.returned, r);
    ReadsReply(c, t.wq, s.rq, s.returned, r);
    var forwarded := CheckReads(c, t.wq, s.rq, s.returned, r).1;
    ReadsExactly(c, t.wq, s.pq, forwarded, p);
    ReadsApart(c, t.wq, s.pq, forwarded, p);
    ReadsReply(c, t.wq, s.pq, forwarded, p);
  }
}
