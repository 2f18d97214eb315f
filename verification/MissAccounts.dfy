/** Accounts of the miss handling in src/cache.cc: where every request that a cache has begun is, what each register
  * stands for, and which replies have been given. */
module MissAccounts {
  import opened Options
  import opened Wakeups
  import opened MissHandling
  import C = Channels

  // Every request is in one place, once.

  /** How often a request is in a queue, among those that registers stand for, and among those that have left. */
  function In(q: seq<Tag>, id: nat): nat {
    if q == [] then 0 else In(q[..|q| - 1], id) + if q[|q| - 1].id == id then 1 else 0
  }

  function Held(m: seq<Miss>, id: nat): nat {
    if m == [] then 0 else Held(m[..|m| - 1], id) + In(m[|m| - 1].merged, id)
  }

  function Leaving(o: Outcome, id: nat): nat {
    match o
    case Found(t) => In([t], id)
    case Filled(m) => In(m.merged, id)
    case Passed(t) => In([t], id)
  }

  function Left(log: seq<Outcome>, id: nat): nat {
    if log == [] then 0 else Left(log[..|log| - 1], id) + Leaving(log[|log| - 1], id)
  }

  function Times(s: Cache, id: nat): nat {
    In(s.inflight, id) + In(s.stash, id) + In(s.own, id) + Held(s.mshr, id) + Held(s.writes, id) + Left(s.log, id)
  }

  ghost predicate EachOnce(s: Cache) { forall id: nat :: Times(s, id) == if id < s.taken then 1 else 0 }

  lemma {:induction false} InConcat(a: seq<Tag>, b: seq<Tag>, id: nat)
    ensures In(a + b, id) == In(a, id) + In(b, id)
  {
    if b == [] {
      assert a + b == a;
    } else {
      InConcat(a, b[..|b| - 1], id);
      assert (a + b)[..|a + b| - 1] == a + b[..|b| - 1];
    }
  }

  lemma InAt(q: seq<Tag>, n: nat, id: nat)
    requires n <= |q|
    ensures In(q, id) == In(q[..n], id) + In(q[n..], id)
  {
    InConcat(q[..n], q[n..], id);
    assert q == q[..n] + q[n..];
  }

  lemma InOne(t: Tag, id: nat)
    ensures In([t], id) == (if t.id == id then 1 else 0) && In([], id) == 0
  {
    assert [t][..0] == [];
  }

  lemma {:induction false} InAlike(a: seq<Tag>, b: seq<Tag>, id: nat)
    requires |a| == |b| && forall k :: 0 <= k < |a| ==> a[k].id == b[k].id
    ensures In(a, id) == In(b, id)
  {
    if a != [] { InAlike(a[..|a| - 1], b[..|b| - 1], id); }
  }

  lemma {:induction false} HeldConcat(a: seq<Miss>, b: seq<Miss>, id: nat)
    ensures Held(a + b, id) == Held(a, id) + Held(b, id)
  {
    if b == [] {
      assert a + b == a;
    } else {
      HeldConcat(a, b[..|b| - 1], id);
      assert (a + b)[..|a + b| - 1] == a + b[..|b| - 1];
    }
  }

  lemma HeldOne(m: Miss, id: nat)
    ensures Held([m], id) == In(m.merged, id)
  {
    assert [m][..0] == [];
  }

  lemma HeldAround(m: seq<Miss>, k: nat, id: nat)
    requires k < |m|
    ensures Held(m, id) == Held(m[..k], id) + In(m[k].merged, id) + Held(m[k + 1..], id)
  {
    hide Held, In;
    HeldConcat(m[..k], [m[k]], id);
    HeldConcat(m[..k] + [m[k]], m[k + 1..], id);
    HeldOne(m[k], id);
    assert m == m[..k] + [m[k]] + m[k + 1..];
  }

  lemma HeldUpdate(m: seq<Miss>, k: nat, x: Miss, id: nat)
    requires k < |m|
    ensures Held(m[k := x], id) == Held(m, id) - In(m[k].merged, id) + In(x.merged, id)
  {
    hide Held, In;
    HeldAround(m, k, id);
    HeldAround(m[k := x], k, id);
    assert m[k := x][..k] == m[..k] && m[k := x][k + 1..] == m[k + 1..];
  }

  lemma HeldSwapped(m: seq<Miss>, i: nat, j: nat, id: nat)
    requires i < |m| && j < |m|
    ensures Held(Swapped(m, i, j), id) == Held(m, id)
  {
    hide Held, In;
    HeldUpdate(m, i, m[j], id);
    HeldUpdate(m[i := m[j]], j, m[i], id);
  }

  lemma HeldRotated(m: seq<Miss>, k: nat, id: nat)
    requires k < |m|
    ensures Held([m[k]] + C.Erase(m, k), id) == Held(m, id)
  {
    hide Held, In;
    HeldAround(m, k, id);
    HeldConcat([m[k]], C.Erase(m, k), id);
    HeldConcat(m[..k], m[k + 1..], id);
    HeldOne(m[k], id);
  }

  lemma {:induction false} LeftConcat(a: seq<Outcome>, b: seq<Outcome>, id: nat)
    ensures Left(a + b, id) == Left(a, id) + Left(b, id)
  {
    if b == [] {
      assert a + b == a;
    } else {
      LeftConcat(a, b[..|b| - 1], id);
      assert (a + b)[..|a + b| - 1] == a + b[..|b| - 1];
      hide Leaving;
    }
  }

  lemma LeftOne(o: Outcome, id: nat)
    ensures Left([o], id) == Leaving(o, id)
  {
    assert [o][..0] == [];
    hide Leaving;
  }

  lemma {:induction false} FillLogLeft(m: seq<Miss>, id: nat)
    ensures Left(FillLog(m), id) == Held(m, id)
  {
    if m != [] {
      FillLogLeft(m[..|m| - 1], id);
      assert FillLog(m)[..|m| - 1] == FillLog(m[..|m| - 1]);
    }
  }

  // What a register stands for.

  /** The request a register acts for: the last that is no prefetch, or the first if all are. */
  predicate Leads(q: seq<Tag>, k: nat) {
    k < |q| && (k == 0 || !q[k].kind.Prefetch?) && forall j :: k < j < |q| ==> q[j].kind.Prefetch?
  }

  predicate SameTarget(m: Miss, t: Tag) {
    m.address == t.address && m.vAddress == t.vAddress && m.kind == t.kind && m.local == t.local
  }

  /** A register has the addresses and the kind of the request it acts for, and the dependents and channels of all the
    * requests merged into it, which are for one block. */
  ghost predicate Stands(c: Config, m: Miss) {
    && (exists k: nat :: Leads(m.merged, k) && SameTarget(m, m.merged[k]))
    && (forall k :: 0 <= k < |m.merged| ==> BlockOf(c, m.merged[k].address) == BlockOf(c, m.address))
    && (forall d: nat :: d in m.deps <==> exists k :: 0 <= k < |m.merged| && d in m.merged[k].deps)
    && (forall d: nat :: d in m.sinks <==> exists k :: 0 <= k < |m.merged| && d in m.merged[k].sinks)
  }

  ghost predicate AllStand(c: Config, m: seq<Miss>) { forall k :: 0 <= k < |m| ==> Stands(c, m[k]) }

  lemma NewStands(c: Config, t: Tag)
    ensures Stands(c, NewMiss(t))
  {
    assert Leads([t], 0);
    assert [t][0] == t;
  }

  lemma ReadyStands(c: Config, m: Miss, ready: Option<int>)
    requires Stands(c, m)
    ensures Stands(c, m.(ready := ready))
  {
    var k: nat :| Leads(m.merged, k) && SameTarget(m, m.merged[k]);
    assert SameTarget(m.(ready := ready), m.merged[k]);
  }

  lemma MergedLeads(c: Config, m: Miss, t: Tag)
    requires Stands(c, m)
    ensures var n := MergeMiss(m, NewMiss(t)); exists k: nat :: Leads(n.merged, k) && SameTarget(n, n.merged[k])
  {
    var k: nat :| Leads(m.merged, k) && SameTarget(m, m.merged[k]);
    var n := MergeMiss(m, NewMiss(t));
    var q := m.merged + [t];
    var i := if t.kind.Prefetch? then k else |m.merged|;
    assert Leads(q, i) && SameTarget(n, q[i]);
  }

  /** The elements of one more list. */
  lemma UnionMembers(f: Tag -> seq<nat>, q: seq<Tag>, t: Tag, a: seq<nat>)
    requires forall d: nat :: d in a <==> exists k :: 0 <= k < |q| && d in f(q[k])
    ensures forall d: nat :: d in SetUnion(a, f(t)) <==> exists k :: 0 <= k < |q + [t]| && d in f((q + [t])[k])
  {
    forall d: nat ensures d in SetUnion(a, f(t)) <==> exists k :: 0 <= k < |q + [t]| && d in f((q + [t])[k]) {
      SetUnionMembers(a, f(t), d);
      if d in f(t) { assert d in f((q + [t])[|q|]); }
      if d in a {
        var k :| 0 <= k < |q| && d in f(q[k]);
        assert d in f((q + [t])[k]);
      }
    }
  }

  lemma MergeStands(c: Config, m: Miss, t: Tag)
    requires Stands(c, m) && BlockOf(c, m.address) == BlockOf(c, t.address)
    ensures Stands(c, MergeMiss(m, NewMiss(t)))
  {
    MergedLeads(c, m, t);
    UnionMembers((x: Tag) => x.deps, m.merged, t, m.deps);
    UnionMembers((x: Tag) => x.sinks, m.merged, t, m.sinks);
    hide Leads, SetUnion, C.Block;
  }

  // The replies.

  function RepliesFor(sinks: seq<nat>, address: nat, vAddress: nat, deps: seq<nat>): seq<Response> {
    seq(|sinks|, k requires 0 <= k < |sinks| => Response(sinks[k], C.Reply(address, vAddress, deps)))
  }

  function Given(o: Outcome): seq<Response> {
    match o
    case Found(t) => RepliesFor(t.sinks, t.address, t.vAddress, t.deps)
    case Filled(m) => RepliesFor(m.sinks, m.address, m.vAddress, m.deps)
    case Passed(_) => []
  }

  function AllGiven(log: seq<Outcome>): seq<Response> {
    if log == [] then [] else AllGiven(log[..|log| - 1]) + Given(log[|log| - 1])
  }

  lemma {:induction false} RepliesAre(r: C.Reply, sinks: seq<nat>)
    ensures Replies(r, sinks) == RepliesFor(sinks, r.address, r.vAddress, r.deps)
  {
    if sinks != [] { RepliesAre(r, sinks[1..]); }
  }

  lemma GivenMore(a: seq<Outcome>, o: Outcome)
    ensures AllGiven(a + [o]) == AllGiven(a) + Given(o)
  {
    assert (a + [o])[..|a|] == a;
    hide Given;
  }

  lemma GivenNothing(a: seq<Outcome>)
    ensures AllGiven(a + []) == AllGiven(a) + AllGiven([])
  {
    assert a + [] == a;
  }

  lemma {:induction false} GivenConcat(a: seq<Outcome>, b: seq<Outcome>)
    ensures AllGiven(a + b) == AllGiven(a) + AllGiven(b)
  {
    hide AllGiven, Given;
    if b == [] {
      GivenNothing(a);
    } else {
      var most, last := b[..|b| - 1], b[|b| - 1];
      GivenConcat(a, most);
      GivenMore(a + most, last);
      GivenMore(most, last);
      Regroup(AllGiven(a), AllGiven(most), Given(last));
      assert a + b == (a + most) + [last] && b == most + [last];
    }
  }

  lemma GivenOne(o: Outcome)
    ensures AllGiven([o]) == Given(o)
  {
    assert [o][..0] == [];
  }

  lemma {:induction false} FillGiven(m: seq<Miss>)
    ensures FillReplies(m) == AllGiven(FillLog(m))
  {
    if m != [] {
      hide Given, Replies;
      FillGiven(m[1..]);
      RepliesAre(MissReply(m[0]), m[0].sinks);
      GivenOne(Filled(m[0]));
      GivenConcat([Filled(m[0])], FillLog(m[1..]));
      assert FillLog(m) == [Filled(m[0])] + FillLog(m[1..]);
    }
  }

  lemma {:induction false} HitGiven(span: seq<Tag>, hits: seq<bool>)
    requires |hits| == |span|
    ensures HitReplies(span, hits) == AllGiven(HitLog(span, hits))
  {
    if span != [] {
      HitGiven(span[1..], hits[1..]);
      RepliesAre(TagReply(span[0]), span[0].sinks);
      GivenOne(Found(span[0]));
      GivenConcat(if hits[0] then [Found(span[0])] else [], HitLog(span[1..], hits[1..]));
    }
  }

  // Every step keeps the accounts.

  ghost predicate LogStands(c: Config, log: seq<Outcome>) {
    forall k :: 0 <= k < |log| && log[k].Filled? ==> Stands(c, log[k].miss)
  }

  ghost predicate AllRight(c: Config, s: Cache) {
    && s.responses == AllGiven(s.log)
    && AllStand(c, s.mshr) && AllStand(c, s.writes) && LogStands(c, s.log)
  }

  /** Each request begun is once in one place, each register stands for those merged into it, and the replies given are
    * those due for the requests that have left. */
  ghost predicate Accounted(c: Config, s: Cache) { EachOnce(s) && AllRight(c, s) }

  /** What concerns registers and replies only. */
  lemma SameRight(c: Config, s: Cache, t: Cache)
    requires AllRight(c, s) && t.mshr == s.mshr && t.writes == s.writes && t.log == s.log && t.responses == s.responses
    ensures AllRight(c, t)
  {
  }

  lemma {:induction false} InSpan(n: nat, q: seq<Tag>, id: nat)
    requires forall k :: 0 <= k < |q| ==> q[k].id == n + k
    ensures In(q, id) == if n <= id < n + |q| then 1 else 0
  {
    if q != [] { InSpan(n, q[..|q| - 1], id); }
  }

  lemma PartitionLast(s: Cache, q: seq<Tag>)
    requires q != []
    ensures var most, last := q[..|q| - 1], q[|q| - 1];
            && (Unmapped(s, last) ==> Others(s, q) == Others(s, most) && Unready(s, q) == Unready(s, most) + [last])
            && (!Unmapped(s, last) ==> Others(s, q) == Others(s, most) + [last] && Unready(s, q) == Unready(s, most))
  {
    hide Unmapped;
  }

  lemma InLast(q: seq<Tag>, id: nat)
    requires q != []
    ensures In(q, id) == In(q[..|q| - 1], id) + if q[|q| - 1].id == id then 1 else 0
  {
  }

  lemma InMore(q: seq<Tag>, t: Tag, id: nat)
    ensures In(q + [t], id) == In(q, id) + if t.id == id then 1 else 0
  {
    assert (q + [t])[..|q|] == q;
  }

  lemma PartitionNothing(s: Cache)
    ensures Others(s, []) == [] && Unready(s, []) == []
  {
  }

  lemma {:induction false} PartitionIn(s: Cache, q: seq<Tag>, id: nat)
    ensures In(q, id) == In(Others(s, q), id) + In(Unready(s, q), id)
  {
    hide Unmapped, Others, Unready;
    if q == [] {
      PartitionNothing(s);
    } else {
      var most, last := q[..|q| - 1], q[|q| - 1];
      PartitionIn(s, most, id);
      PartitionLast(s, q);
      InLast(q, id);
      InMore(Others(s, most), last, id);
      InMore(Unready(s, most), last, id);
      hide In;
    }
  }

  lemma {:induction false} MatchingIn(c: Config, q: seq<Tag>, v: nat, id: nat)
    ensures In(q, id) == In(Matching(c, q, v), id) + In(NotMatching(c, q, v), id)
  {
    if q != [] {
      MatchingIn(c, q[1..], v, id);
      InAt(q, 1, id);
      InConcat([q[0]], Matching(c, q[1..], v), id);
      InConcat([q[0]], NotMatching(c, q[1..], v), id);
      assert q[..1] == [q[0]];
      hide In, SamePage;
      assert [] + Matching(c, q[1..], v) == Matching(c, q[1..], v);
      assert [] + NotMatching(c, q[1..], v) == NotMatching(c, q[1..], v);
    }
  }

  lemma TranslationOnce(c: Config, s: Cache, v: nat, frame: nat, id: nat)
    ensures Times(FinishTranslation(c, s, v, frame), id) == Times(s, id)
  {
    var k := TranslatedFirst(s.stash);
    var rest := s.stash[k..];
    var moved, others := TranslatedAll(c, Matching(c, rest, v), v, frame), NotMatching(c, rest, v);
    InAt(s.stash, k, id);
    MatchingIn(c, rest, v, id);
    InAlike(moved, Matching(c, rest, v), id);
    InAlike(TranslatedAll(c, s.inflight, v, frame), s.inflight, id);
    InConcat(s.stash[..k] + moved, others, id);
    InConcat(s.stash[..k], moved, id);
    hide In, Held, Left, TranslatedAll, Matching, NotMatching;
  }

  lemma StashOnce(s: Cache, id: nat)
    ensures Times(Stash(s), id) == Times(s, id)
  {
    PartitionIn(s, s.inflight, id);
    InConcat(s.stash, Unready(s, s.inflight), id);
    hide In, Held, Left, Others, Unready;
  }

  lemma TakeStashOnce(c: Config, s: Cache, n: nat, id: nat)
    requires n <= |s.stash|
    ensures Times(TakeStash(c, s, n), id) == Times(s, id)
  {
    InAt(s.stash, n, id);
    InAlike(Restarted(c, s, s.stash[..n]), s.stash[..n], id);
    InConcat(s.inflight, Restarted(c, s, s.stash[..n]), id);
    hide In, Held, Left, Restarted;
  }

  lemma TakeOwnOnce(c: Config, s: Cache, n: nat, id: nat)
    requires n <= |s.own|
    ensures Times(TakeOwn(c, s, n), id) == Times(s, id)
  {
    InAt(s.own, n, id);
    InAlike(Restarted(c, s, s.own[..n]), s.own[..n], id);
    InConcat(s.inflight, Restarted(c, s, s.own[..n]), id);
    hide In, Held, Left, Restarted;
  }

  lemma TakeUpperOnce(c: Config, s: Cache, ul: nat, which: Which, n: nat, id: nat)
    requires ul < |s.uppers| && n <= |QueueOf(s.uppers[ul], which)|
    ensures Times(TakeUpper(c, s, ul, which, n), id) == Times(s, id) + if s.taken <= id < s.taken + n then 1 else 0
  {
    var tags := TagsFor(c, s, ul, QueueOf(s.uppers[ul], which)[..n]);
    InSpan(s.taken, tags, id);
    InConcat(s.inflight, tags, id);
    hide In, Held, Left, TagsFor, QueueOf;
  }

  lemma PrefetchOnce(s: Cache, t: Tag, id: nat)
    ensures Times(s.(own := s.own + [t], taken := s.taken + 1), id) == Times(s, id) + if t.id == id then 1 else 0
  {
    InConcat(s.own, [t], id);
    InOne(t, id);
    hide In, Held, Left;
  }

  // Registers.

  lemma FinishOnce(c: Config, s: Cache, a: nat, id: nat)
    requires FindMiss(c, s.mshr, a) < |s.mshr| && FirstUnreturned(s.mshr) < |s.mshr|
    ensures Times(FinishedPacket(c, s, a), id) == Times(s, id)
  {
    hide In, Held, Left, FindMiss, FirstUnreturned;
    var k, f := FindMiss(c, s.mshr, a), FirstUnreturned(s.mshr);
    HeldUpdate(s.mshr, k, Returned(c, s, s.mshr[k]), id);
    HeldSwapped(s.mshr[k := Returned(c, s, s.mshr[k])], k, f, id);
  }

  lemma RemoteOnce(c: Config, s: Cache, a: nat, id: nat)
    requires FindMiss(c, s.mshr, a) < |s.mshr|
    ensures Times(RemoteResponse(c, s, a), id) == Times(s, id)
  {
    hide In, Held, Left, FindMiss;
    var k := FindMiss(c, s.mshr, a);
    var m := s.mshr[k := Returned(c, s, s.mshr[k])];
    HeldUpdate(s.mshr, k, Returned(c, s, s.mshr[k]), id);
    HeldRotated(m, k, id);
    assert [m[k]] + C.Erase(m, k) == RemoteResponse(c, s, a).mshr;
  }

  lemma ReturnedStand(c: Config, s: Cache, k: nat)
    requires k < |s.mshr| && AllStand(c, s.mshr)
    ensures AllStand(c, s.mshr[k := Returned(c, s, s.mshr[k])])
  {
    ReadyStands(c, s.mshr[k], Some(s.now + c.fillLatency));
    hide Stands;
  }

  lemma FinishRight(c: Config, s: Cache, a: nat)
    requires FindMiss(c, s.mshr, a) < |s.mshr| && FirstUnreturned(s.mshr) < |s.mshr| && AllRight(c, s)
    ensures AllRight(c, FinishedPacket(c, s, a))
  {
    ReturnedStand(c, s, FindMiss(c, s.mshr, a));
    hide Stands, LogStands, AllGiven, FindMiss, FirstUnreturned;
  }

  lemma RemoteRight(c: Config, s: Cache, a: nat)
    requires FindMiss(c, s.mshr, a) < |s.mshr| && AllRight(c, s)
    ensures AllRight(c, RemoteResponse(c, s, a))
  {
    var k := FindMiss(c, s.mshr, a);
    var m := s.mshr[k := Returned(c, s, s.mshr[k])];
    ReturnedStand(c, s, k);
    hide Stands, LogStands, AllGiven, FindMiss;
    assert [m[k]] + C.Erase(m, k) == RemoteResponse(c, s, a).mshr;
    assert forall j :: 1 <= j < |m| ==> ([m[k]] + C.Erase(m, k))[j] == m[if j - 1 < k then j - 1 else j];
  }

  lemma FilledOnce(log: seq<Outcome>, m: seq<Miss>, n: nat, id: nat)
    requires n <= |m|
    ensures Held(m[n..], id) + Left(log + FillLog(m[..n]), id) == Held(m, id) + Left(log, id)
  {
    LeftConcat(log, FillLog(m[..n]), id);
    FillLogLeft(m[..n], id);
    HeldConcat(m[..n], m[n..], id);
    assert m == m[..n] + m[n..];
    hide Left, Held, FillLog;
  }

  lemma FilledRight(c: Config, log: seq<Outcome>, m: seq<Miss>)
    requires LogStands(c, log) && AllStand(c, m)
    ensures LogStands(c, log + FillLog(m)) && AllGiven(log + FillLog(m)) == AllGiven(log) + FillReplies(m)
  {
    FillGiven(m);
    GivenConcat(log, FillLog(m));
    hide Stands, AllGiven;
  }

  lemma FillRight(c: Config, s: Cache, n: nat)
    requires AllRight(c, s)
    ensures n <= |s.mshr| ==> AllRight(c, FillMshr(s, n))
    ensures n <= |s.writes| ==> AllRight(c, FillWrites(s, n))
  {
    if n <= |s.mshr| { FilledRight(c, s.log, s.mshr[..n]); }
    if n <= |s.writes| { FilledRight(c, s.log, s.writes[..n]); }
    hide Stands, AllGiven, LogStands, FillReplies, FillLog;
  }

  // Tag checks.

  function MissesIn(span: seq<Tag>, hits: seq<bool>, id: nat): nat
    requires |hits| == |span|
  {
    if span == [] then 0 else (if hits[0] then 0 else In([span[0]], id)) + MissesIn(span[1..], hits[1..], id)
  }

  lemma {:induction false} HitsOnce(span: seq<Tag>, hits: seq<bool>, id: nat)
    requires |hits| == |span|
    ensures In(span, id) == Left(HitLog(span, hits), id) + MissesIn(span, hits, id)
  {
    if span != [] {
      HitsOnce(span[1..], hits[1..], id);
      InAt(span, 1, id);
      assert span[..1] == [span[0]];
      var first := if hits[0] then [Found(span[0])] else [];
      LeftConcat(first, HitLog(span[1..], hits[1..]), id);
      LeftOne(Found(span[0]), id);
      hide In;
    }
  }

  lemma Miss1Once(c: Config, s: Cache, t: Tag, accepted: bool, id: nat)
    requires Miss1(c, s, t, accepted).Some?
    ensures var u := Miss1(c, s, t, accepted).value; Times(u, id) == Times(s, id) + In([t], id)
  {
    hide In, Held, Left, FindMiss;
    var k := FindMiss(c, s.mshr, t.address);
    HeldConcat(s.writes, [NewMiss(t).(ready := Some(s.now + c.fillLatency))], id);
    HeldOne(NewMiss(t).(ready := Some(s.now + c.fillLatency)), id);
    HeldConcat(s.mshr, [NewMiss(t)], id);
    HeldOne(NewMiss(t), id);
    LeftConcat(s.log, [Passed(t)], id);
    LeftOne(Passed(t), id);
    if k < |s.mshr| {
      HeldUpdate(s.mshr, k, MergeMiss(s.mshr[k], NewMiss(t)), id);
      InConcat(s.mshr[k].merged, [t], id);
    }
  }

  lemma Miss1Right(c: Config, s: Cache, t: Tag, accepted: bool)
    requires Miss1(c, s, t, accepted).Some? && AllRight(c, s)
    ensures AllRight(c, Miss1(c, s, t, accepted).value)
  {
    hide AllGiven, Stands, MergeMiss, NewMiss;
    var k := FindMiss(c, s.mshr, t.address);
    NewStands(c, t);
    ReadyStands(c, NewMiss(t), Some(s.now + c.fillLatency));
    GivenConcat(s.log, [Passed(t)]);
    GivenOne(Passed(t));
    if k < |s.mshr| { MergeStands(c, s.mshr[k], t); }
  }

  lemma {:induction false} MissesOnce(c: Config, s: Cache, span: seq<Tag>, hits: seq<bool>, accepted: seq<bool>,
      id: nat)
    requires |hits| == |span| == |accepted|
    ensures var r := Misses(c, s, span, hits, accepted);
            Times(r.0, id) + In(r.1, id) == Times(s, id) + MissesIn(span, hits, id)
    decreases |span|
  {
    if span != [] {
      var next := s;
      if !hits[0] && Miss1(c, s, span[0], accepted[0]).Some? {
        Miss1Once(c, s, span[0], accepted[0], id);
        next := Miss1(c, s, span[0], accepted[0]).value;
      }
      hide Times, In, Miss1;
      MissesOnce(c, next, span[1..], hits[1..], accepted[1..], id);
      InConcat([span[0]], Misses(c, s, span[1..], hits[1..], accepted[1..]).1, id);
    } else {
      assert In([], id) == 0;
    }
  }

  lemma {:induction false} MissesRight(c: Config, s: Cache, span: seq<Tag>, hits: seq<bool>, accepted: seq<bool>)
    requires |hits| == |span| == |accepted| && AllRight(c, s)
    ensures AllRight(c, Misses(c, s, span, hits, accepted).0)
    decreases |span|
  {
    if span != [] {
      var next := s;
      if !hits[0] && Miss1(c, s, span[0], accepted[0]).Some? {
        Miss1Right(c, s, span[0], accepted[0]);
        next := Miss1(c, s, span[0], accepted[0]).value;
      }
      hide AllRight, Miss1;
      MissesRight(c, next, span[1..], hits[1..], accepted[1..]);
    }
  }

  lemma TagCheckOnce(c: Config, s: Cache, hits: seq<bool>, accepted: seq<bool>, id: nat)
    requires |hits| == |accepted| <= |s.inflight| && MshrOk(c, s.mshr, s.asked)
    ensures Times(TagCheck(c, s, hits, accepted), id) == Times(s, id)
  {
    var n := |hits|;
    var span, rest := s.inflight[..n], s.inflight[n..];
    var h := AfterHits(s, span, hits);
    var r := Misses(c, h, span, hits, accepted);
    MissesKeep(c, h, span, hits, accepted);
    hide MshrOk, Misses, In, Held, Left, MissesIn, HitLog, HitReplies;
    HitsOnce(span, hits, id);
    LeftConcat(s.log, HitLog(span, hits), id);
    MissesOnce(c, h, span, hits, accepted, id);
    InAt(s.inflight, n, id);
    InConcat(r.1, rest, id);
  }

  lemma TagCheckRight(c: Config, s: Cache, hits: seq<bool>, accepted: seq<bool>)
    requires |hits| == |accepted| <= |s.inflight| && AllRight(c, s)
    ensures AllRight(c, TagCheck(c, s, hits, accepted))
  {
    var span := s.inflight[..|hits|];
    var h := AfterHits(s, span, hits);
    HitGiven(span, hits);
    GivenConcat(s.log, HitLog(span, hits));
    HitLogFound(span, hits);
    hide Misses, AllGiven, HitLog, HitReplies, Stands;
    assert AllRight(c, h);
    MissesRight(c, h, span, hits, accepted);
    SameRight(c, Misses(c, h, span, hits, accepted).0, TagCheck(c, s, hits, accepted));
    hide AllRight;
  }

  lemma {:induction false} HitLogFound(span: seq<Tag>, hits: seq<bool>)
    requires |hits| == |span|
    ensures forall k :: 0 <= k < |HitLog(span, hits)| ==> HitLog(span, hits)[k].Found?
  {
    if span != [] { HitLogFound(span[1..], hits[1..]); }
  }

  // Whole runs.

  lemma ApplyRight(c: Config, s: Cache, e: Event)
    requires MissHandling.Inv(c, s) && Enabled(c, s, e) && AllRight(c, s)
    ensures AllRight(c, Apply(c, s, e))
  {
    hide AllRight;
    match e
    case Answer(a) =>
      FinishKeeps(c, s, a);
      FinishRight(c, s, a);
    case RemoteAnswer(a) =>
      RemoteKeeps(c, s, a);
      RemoteRight(c, s, a);
    case Fill(n) => FillRight(c, s, n);
    case FillWrite(n) => FillRight(c, s, n);
    case CheckTags(hits, accepted) => TagCheckRight(c, s, hits, accepted);
    case _ => SameRight(c, s, Apply(c, s, e));
  }

  lemma ApplyOnce(c: Config, s: Cache, e: Event, id: nat)
    requires MissHandling.Inv(c, s) && Enabled(c, s, e)
    ensures var t := Apply(c, s, e);
            s.taken <= t.taken && Times(t, id) == Times(s, id) + if s.taken <= id < t.taken then 1 else 0
  {
    hide In, Held, Left;
    match e
    case Answer(a) =>
      FinishKeeps(c, s, a);
      FinishOnce(c, s, a, id);
    case RemoteAnswer(a) =>
      RemoteKeeps(c, s, a);
      RemoteOnce(c, s, a, id);
    case Translate(v, frame) => TranslationOnce(c, s, v, frame, id);
    case Fill(n) => FilledOnce(s.log, s.mshr, n, id);
    case FillWrite(n) => FilledOnce(s.log, s.writes, n, id);
    case StartUpper(ul, w, n) => TakeUpperOnce(c, s, ul, w, n, id);
    case StartStash(n) => TakeStashOnce(c, s, n, id);
    case StartOwn(n) => TakeOwnOnce(c, s, n, id);
    case PrefetchLine(t) => PrefetchOnce(s, t, id);
    case SetAside => StashOnce(s, id);
    case CheckTags(hits, accepted) =>
      TagCheckOnce(c, s, hits, accepted, id);
      TagCheckTakes(c, s, hits, accepted);
    case _ =>
  }

  lemma TagCheckTakes(c: Config, s: Cache, hits: seq<bool>, accepted: seq<bool>)
    requires |hits| == |accepted| <= |s.inflight| && MshrOk(c, s.mshr, s.asked)
    ensures TagCheck(c, s, hits, accepted).taken == s.taken
  {
    var span := s.inflight[..|hits|];
    MissesKeep(c, AfterHits(s, span, hits), span, hits, accepted);
    hide Misses, MshrOk;
  }

  /** In every run every request that a cache has begun is in exactly one place, once: waiting for its tag check, set
    * aside for its translation, an own prefetch not yet started, in one register or write in flight, or gone, having
    * been found, filled, or passed on as a prefetch that wants no answer. Each register has the dependents and
    * channels of exactly the requests merged into it, and the addresses and kind of the one it acts for. The replies
    * given are exactly one to each channel of each request found and of each register filled, in that order. */
  lemma {:induction false} RunHandlesOnce(c: Config, states: seq<Cache>, events: seq<Event>, i: nat)
    requires IsRun(c, states, events) && i < |states|
    ensures Accounted(c, states[i])
  {
    if i > 0 {
      RunHandlesOnce(c, states, events, i - 1);
      RunSteps(c, states, events, i - 1);
      hide MissHandling.Inv, Enabled, Apply, AllRight, Times, IsRun;
      var s, e := states[i - 1], events[i - 1];
      ApplyRight(c, s, e);
      forall id: nat ensures Times(states[i], id) == if id < states[i].taken then 1 else 0 { ApplyOnce(c, s, e, id); }
    }
  }
}
