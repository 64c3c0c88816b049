/** The operations of the SU table on lists of SUNUMs, as its loops perform them: lists
    may repeat a SUNUM.  For lists without repetition they amount to `Join` and `Release`. */
module SuLists {
  import opened SuTables

  /** One more reference on every listed storage unit, all of which exist. */
  function Counts<O>(t: Table<O>, ss: seq<Sunum>): Table<O> {
    if ss == [] then t else
      var n := |ss| - 1;
      var u := Counts(t, ss[..n]);
      if ss[n] in u.refs then u.(refs := u.refs[ss[n] := u.refs[ss[n]] + 1]) else u
  }

  /** New objects are entered with one reference each. */
  function Enters<O>(t: Table<O>, ss: seq<Sunum>, os: seq<O>): Table<O>
    requires |os| == |ss|
  {
    if ss == [] then t else
      var n := |ss| - 1;
      var u := Enters(t, ss[..n], os[..n]);
      u.(dict := u.dict[ss[n] := os[n]], refs := u.refs[ss[n] := 1])
  }

  function DropRefs<O>(t: Table<O>, ss: seq<Sunum>): Table<O> {
    if ss == [] then t else DropRef(DropRefs(t, ss[..|ss| - 1]), ss[|ss| - 1])
  }

  function AddReqs<O>(t: Table<O>, r: ReqId, ss: seq<Sunum>): Table<O> {
    if ss == [] then t else AddReq(AddReqs(t, r, ss[..|ss| - 1]), r, ss[|ss| - 1])
  }

  function DropReqs<O>(t: Table<O>, r: ReqId, ss: seq<Sunum>): Table<O> {
    if ss == [] then t else DropReq(DropReqs(t, r, ss[..|ss| - 1]), r, ss[|ss| - 1])
  }

  /** The listed SUNUMs that are keys, and those that are not. */
  function Present(ss: seq<Sunum>, keys: set<Sunum>): (p: seq<Sunum>)
    ensures forall s :: s in p <==> s in ss && s in keys
  {
    if ss == [] then [] else
      var n := |ss| - 1;
      Present(ss[..n], keys) + if ss[n] in keys then [ss[n]] else []
  }

  function Absent(ss: seq<Sunum>, keys: set<Sunum>): (p: seq<Sunum>)
    ensures forall s :: s in p <==> s in ss && s !in keys
  {
    if ss == [] then [] else
      var n := |ss| - 1;
      Absent(ss[..n], keys) + if ss[n] in keys then [] else [ss[n]]
  }

  // ---------------------------------------------------------------- fields that a list leaves alone

  lemma {:induction false} CountsFrame<O>(t: Table<O>, ss: seq<Sunum>)
    ensures Counts(t, ss).dict == t.dict && Counts(t, ss).suMap == t.suMap
    ensures Counts(t, ss).refs.Keys == t.refs.Keys
  {
    if ss != [] {
      CountsFrame(t, ss[..|ss| - 1]);
    }
  }

  /** Every occurrence in the list counts. */
  lemma {:induction false} CountsAmount<O>(t: Table<O>, ss: seq<Sunum>)
    ensures forall s | s in t.refs :: s in Counts(t, ss).refs && Counts(t, ss).refs[s] == t.refs[s] + multiset(ss)[s]
  {
    if ss != [] {
      var n := |ss| - 1;
      CountsAmount(t, ss[..n]);
      CountsFrame(t, ss[..n]);
      assert ss == ss[..n] + [ss[n]];
    }
  }

  /** Dropping fewer references than there are takes no storage unit away. */
  lemma {:induction false} DropRefsAmount<O>(t: Table<O>, ss: seq<Sunum>)
    requires t.dict.Keys == t.refs.Keys && forall s | s in ss :: s in t.refs && t.refs[s] > multiset(ss)[s]
    ensures DropRefs(t, ss).dict == t.dict && DropRefs(t, ss).suMap == t.suMap
    ensures DropRefs(t, ss).refs.Keys == t.refs.Keys
    ensures forall s | s in t.refs :: DropRefs(t, ss).refs[s] == t.refs[s] - multiset(ss)[s]
  {
    if ss != [] {
      var n := |ss| - 1;
      assert ss == ss[..n] + [ss[n]];
      assert multiset(ss) == multiset(ss[..n]) + multiset{ss[n]};
      DropRefsAmount(t, ss[..n]);
    }
  }

  /** Dropping the references that were just counted. */
  lemma {:induction false} DropUndoesCounts<O>(t: Table<O>, ss: seq<Sunum>)
    requires t.dict.Keys == t.refs.Keys && forall s | s in ss :: s in t.refs && t.refs[s] >= 1
    ensures DropRefs(Counts(t, ss), ss) == t
  {
    CountsFrame(t, ss);
    CountsAmount(t, ss);
    DropRefsAmount(Counts(t, ss), ss);
    var c, d := Counts(t, ss), DropRefs(Counts(t, ss), ss);
    forall s | s in t.refs ensures s in d.refs && d.refs[s] == t.refs[s] {
      assert s in c.refs && c.refs[s] == t.refs[s] + multiset(ss)[s];
    }
    assert d.refs == t.refs;
  }

  lemma {:induction false} EntersFrame<O>(t: Table<O>, ss: seq<Sunum>, os: seq<O>)
    requires |os| == |ss|
    ensures Enters(t, ss, os).suMap == t.suMap
  {
    if ss != [] {
      EntersFrame(t, ss[..|ss| - 1], os[..|ss| - 1]);
    }
  }

  lemma {:induction false} AddReqsFrame<O>(t: Table<O>, r: ReqId, ss: seq<Sunum>)
    ensures AddReqs(t, r, ss).dict == t.dict && AddReqs(t, r, ss).refs == t.refs
    ensures forall s | s !in ss :: Listed(AddReqs(t, r, ss), s) == Listed(t, s)
    ensures forall s | s !in ss :: s in AddReqs(t, r, ss).suMap <==> s in t.suMap
    ensures forall s | s in ss :: r in Listed(AddReqs(t, r, ss), s)
  {
    if ss != [] {
      var n := |ss| - 1;
      AddReqsFrame(t, r, ss[..n]);
      assert ss == ss[..n] + [ss[n]];
    }
  }

  lemma {:induction false} DropReqsFrame<O>(t: Table<O>, r: ReqId, ss: seq<Sunum>)
    ensures DropReqs(t, r, ss).dict == t.dict && DropReqs(t, r, ss).refs == t.refs
    ensures forall s | s !in ss :: s in DropReqs(t, r, ss).suMap <==> s in t.suMap
    ensures forall s | s !in ss && s in t.suMap :: DropReqs(t, r, ss).suMap[s] == t.suMap[s]
  {
    if ss != [] {
      var n := |ss| - 1;
      DropReqsFrame(t, r, ss[..n]);
      assert ss == ss[..n] + [ss[n]];
    }
  }

  /** The lists do not depend on the dictionary. */
  lemma {:induction false} AddReqsOn<O>(t: Table<O>, u: Table<O>, r: ReqId, ss: seq<Sunum>)
    requires t.suMap == u.suMap
    ensures AddReqs(t, r, ss).suMap == AddReqs(u, r, ss).suMap
  {
    if ss != [] {
      AddReqsOn(t, u, r, ss[..|ss| - 1]);
    }
  }

  lemma {:induction false} DropReqsOn<O>(t: Table<O>, u: Table<O>, r: ReqId, ss: seq<Sunum>)
    requires t.suMap == u.suMap
    ensures DropReqs(t, r, ss).suMap == DropReqs(u, r, ss).suMap
  {
    if ss != [] {
      DropReqsOn(t, u, r, ss[..|ss| - 1]);
    }
  }

  lemma {:induction false} DropRefsOn<O>(t: Table<O>, u: Table<O>, ss: seq<Sunum>)
    requires t.dict == u.dict && t.refs == u.refs
    ensures DropRefs(t, ss).dict == DropRefs(u, ss).dict && DropRefs(t, ss).refs == DropRefs(u, ss).refs
    ensures DropRefs(t, ss).suMap == t.suMap
  {
    if ss != [] {
      DropRefsOn(t, u, ss[..|ss| - 1]);
    }
  }

  // ---------------------------------------------------------------- join and release

  /** Entering new storage units and listing the request is joining them. */
  lemma {:induction false} EnterIsJoin<O>(t: Table<O>, r: ReqId, ss: seq<Sunum>, os: seq<O>)
    requires |os| == |ss| && Distinct(ss) && t.dict.Keys == t.refs.Keys && forall s | s in ss :: s !in t.dict
    ensures AddReqs(Enters(t, ss, os), r, ss) == Join(t, r, ss, os)
  {
    if ss != [] {
      var n := |ss| - 1;
      var a, x := ss[..n], os[..n];
      assert ss == a + [ss[n]];
      DistinctLast(ss);
      EnterIsJoin(t, r, a, x);
      JoinIs(t, r, a, x);
      var e, f := Enters(t, a, x), Enters(t, ss, os);
      EntersFrame(t, a, x);
      EntersFrame(t, ss, os);
      AddReqsFrame(e, r, a);
      AddReqsFrame(f, r, a);
      AddReqsOn(e, f, r, a);
      assert SameAt(t, Join(t, r, a, x), ss[n]);
    }
  }

  /** One more storage unit: `e` counts those before it, `f` counts it too. */
  lemma {:induction false} CountOneMore<O>(e: Table<O>, f: Table<O>, r: ReqId, a: seq<Sunum>, s: Sunum, o: O)
    requires s in e.dict && s in e.refs && f == e.(refs := e.refs[s := e.refs[s] + 1])
    ensures AddReq(AddReqs(f, r, a), r, s) == JoinOne(AddReqs(e, r, a), r, s, o)
  {
    AddReqsFrame(e, r, a);
    AddReqsFrame(f, r, a);
    AddReqsOn(e, f, r, a);
  }

  /** Counting a reference on existing storage units and listing the request is joining them. */
  lemma {:induction false} CountIsJoin<O>(t: Table<O>, r: ReqId, ss: seq<Sunum>, os: seq<O>)
    requires |os| == |ss| && Distinct(ss) && t.dict.Keys == t.refs.Keys && forall s | s in ss :: s in t.dict
    ensures AddReqs(Counts(t, ss), r, ss) == Join(t, r, ss, os)
  {
    if ss != [] {
      var n := |ss| - 1;
      var a := ss[..n];
      assert ss == a + [ss[n]];
      DistinctLast(ss);
      CountIsJoin(t, r, a, os[..n]);
      CountsFrame(t, a);
      CountOneMore(Counts(t, a), Counts(t, ss), r, a, ss[n], os[n]);
    }
  }

  /** Unlisting the request and dropping the references is releasing them. */
  lemma {:induction false} DropIsRelease<O>(t: Table<O>, r: ReqId, ss: seq<Sunum>)
    requires Distinct(ss) && Agree(t) && forall s | s in ss :: s in t.dict
    ensures DropRefs(DropReqs(t, r, ss), ss) == Release(t, r, ss)
  {
    if ss != [] {
      var n := |ss| - 1;
      var a := ss[..n];
      assert ss == a + [ss[n]];
      DistinctLast(ss);
      DropIsRelease(t, r, a);
      ReleaseIs(t, r, a);
      assert SameAt(t, Release(t, r, a), ss[n]);
      var d, e := DropReqs(t, r, a), DropReqs(t, r, ss);
      DropReqsFrame(t, r, a);
      DropReqsFrame(t, r, ss);
      DropRefsOn(d, e, a);
      DropRefsOn(e, e, ss);
    }
  }

  lemma {:induction false} PresentAll(ss: seq<Sunum>, keys: set<Sunum>)
    requires forall i | 0 <= i < |ss| :: ss[i] in keys
    ensures Present(ss, keys) == ss && Absent(ss, keys) == []
  {
    if ss != [] {
      var n := |ss| - 1;
      var a := ss[..n];
      PresentAll(a, keys);
      assert Present(ss, keys) == a + [ss[n]] == ss;
    }
  }

  lemma {:induction false} PresentNone(ss: seq<Sunum>, keys: set<Sunum>)
    requires forall i | 0 <= i < |ss| :: ss[i] !in keys
    ensures Present(ss, keys) == [] && Absent(ss, keys) == ss
  {
    if ss != [] {
      var n := |ss| - 1;
      var a := ss[..n];
      PresentNone(a, keys);
      assert Absent(ss, keys) == a + [ss[n]] == ss;
    }
  }

  // ---------------------------------------------------------------- rollback

  lemma {:induction false} DropRefsInPortions<O>(t: Table<O>, a: seq<Sunum>, b: seq<Sunum>)
    ensures DropRefs(t, a + b) == DropRefs(DropRefs(t, a), b)
  {
    if b == [] {
      assert a + b == a;
    } else {
      assert (a + b)[..|a| + |b| - 1] == a + b[..|b| - 1];
      DropRefsInPortions(t, a, b[..|b| - 1]);
    }
  }

  lemma {:induction false} DropOneAfterCounts<O>(t: Table<O>, d: seq<Sunum>, s: Sunum)
    requires s !in d
    ensures DropRef(Counts(t, d), s) == Counts(DropRef(t, s), d)
  {
    if d != [] {
      var n := |d| - 1;
      assert d == d[..n] + [d[n]];
      DropOneAfterCounts(t, d[..n], s);
      CountsFrame(t, d[..n]);
      var u := Counts(t, d[..n]);
      if d[n] in u.refs && s in u.dict && s in u.refs && u.refs[s] == 1 {
        assert u.refs[d[n] := u.refs[d[n]] + 1] - {s} == (u.refs - {s})[d[n] := u.refs[d[n]] + 1];
      } else if d[n] in u.refs && s in u.dict && s in u.refs {
        assert u.refs[d[n] := u.refs[d[n]] + 1][s := u.refs[s] - 1]
            == u.refs[s := u.refs[s] - 1][d[n] := u.refs[d[n]] + 1];
      }
    }
  }

  /** References of different storage units do not interfere. */
  lemma {:induction false} DropAfterCounts<O>(t: Table<O>, d: seq<Sunum>, q: seq<Sunum>)
    requires forall s | s in q :: s !in d
    ensures DropRefs(Counts(t, d), q) == Counts(DropRefs(t, q), d)
  {
    if q != [] {
      var n := |q| - 1;
      assert q == q[..n] + [q[n]];
      DropAfterCounts(t, d, q[..n]);
      DropOneAfterCounts(DropRefs(t, q[..n]), d, q[n]);
    }
  }

  lemma {:induction false} DropOneAfterAdds<O>(t: Table<O>, r: ReqId, d: seq<Sunum>, s: Sunum)
    requires s !in d
    ensures DropReq(AddReqs(t, r, d), r, s) == AddReqs(DropReq(t, r, s), r, d)
  {
    if d != [] {
      var n := |d| - 1;
      assert d == d[..n] + [d[n]];
      DropOneAfterAdds(t, r, d[..n], s);
      AddReqsFrame(t, r, d[..n]);
      var u := AddReqs(t, r, d[..n]);
      var l := Listed(u, d[n]) + [r];
      if s in u.suMap && Remove(u.suMap[s], r) == [] {
        assert u.suMap[d[n] := l] - {s} == (u.suMap - {s})[d[n] := l];
      } else if s in u.suMap {
        var k := Remove(u.suMap[s], r);
        assert u.suMap[d[n] := l][s := k] == u.suMap[s := k][d[n] := l];
      }
    }
  }

  /** Lists of different storage units do not interfere. */
  lemma {:induction false} DropAfterAdds<O>(t: Table<O>, r: ReqId, d: seq<Sunum>, q: seq<Sunum>)
    requires forall s | s in q :: s !in d
    ensures DropReqs(AddReqs(t, r, d), r, q) == AddReqs(DropReqs(t, r, q), r, d)
  {
    if q != [] {
      var n := |q| - 1;
      assert q == q[..n] + [q[n]];
      DropAfterAdds(t, r, d, q[..n]);
      DropOneAfterAdds(DropReqs(t, r, q[..n]), r, d, q[n]);
    }
  }

  /** Unlisting and dropping what a request just joined restores the table. */
  lemma {:induction false} DropUndoesJoin<O>(t: Table<O>, r: ReqId, q: seq<Sunum>, os: seq<O>)
    requires |os| == |q| && Distinct(q) && Agree(t) && forall s | s in q :: r !in Listed(t, s)
    ensures DropRefs(DropReqs(Join(t, r, q, os), r, q), q) == t
  {
    JoinAgrees(t, r, q, os);
    JoinIs(t, r, q, os);
    forall s | s in q ensures s in Join(t, r, q, os).dict {
      var i :| 0 <= i < |q| && q[i] == s;
      assert JoinedAt(t, Join(t, r, q, os), r, q[i], os[i]);
    }
    DropIsRelease(Join(t, r, q, os), r, q);
    ReleaseUndoesJoin(t, r, q, os);
  }

  /** The rollback of a dispatch that joined `q`, counted references on `d` and listed the
      request for a part `c` of `d` only: the lists for `c` are left behind. */
  lemma {:induction false} PartialRollback<O>(t: Table<O>, r: ReqId, q: seq<Sunum>, os: seq<O>, d: seq<Sunum>,
                                              c: seq<Sunum>)
    requires |os| == |q| && Distinct(q) && Agree(t) && forall s | s in q :: r !in Listed(t, s)
    requires forall s | s in q :: s !in d && s !in c
    requires forall s | s in d :: s in t.dict
    ensures DropRefs(DropReqs(AddReqs(Counts(Join(t, r, q, os), d), r, c), r, q), q + d) == AddReqs(t, r, c)
  {
    var j := Join(t, r, q, os);
    var k := Counts(j, d);
    CountsFrame(j, d);
    var a := AddReqs(k, r, c);
    AddReqsFrame(k, r, c);
    var b := DropReqs(a, r, q);
    DropReqsFrame(a, r, q);
    var z := DropRefs(b, q + d);
    // references
    DropUndoesJoin(t, r, q, os);
    DropReqsFrame(j, r, q);
    DropRefsOn(DropReqs(j, r, q), j, q);
    var e := DropRefs(j, q);
    assert e.dict == t.dict && e.refs == t.refs;
    DropAfterCounts(j, d, q);
    DropUndoesCounts(e, d);
    DropRefsInPortions(k, q, d);
    DropRefsOn(b, k, q + d);
    assert z.dict == t.dict && z.refs == t.refs;
    // lists
    DropAfterAdds(k, r, c, q);
    DropReqsOn(k, j, r, q);
    DropRefsOn(DropReqs(j, r, q), DropReqs(j, r, q), q);
    assert DropReqs(j, r, q).suMap == t.suMap;
    AddReqsOn(DropReqs(k, r, q), t, r, c);
    AddReqsFrame(t, r, c);
    assert z.suMap == AddReqs(t, r, c).suMap;
  }

  /** Releasing skips what the table does not hold. */
  lemma {:induction false} ReleasePresent<O>(t: Table<O>, r: ReqId, ss: seq<Sunum>)
    requires Distinct(ss) && Agree(t)
    ensures Release(t, r, Present(ss, t.dict.Keys)) == Release(t, r, ss)
    ensures Distinct(Present(ss, t.dict.Keys))
  {
    if ss != [] {
      var n := |ss| - 1;
      var a := ss[..n];
      var p := Present(a, t.dict.Keys);
      assert ss == a + [ss[n]];
      DistinctLast(ss);
      ReleasePresent(t, r, a);
      ReleaseIs(t, r, a);
      assert SameAt(t, Release(t, r, a), ss[n]);
      if ss[n] in t.dict {
        assert (p + [ss[n]])[..|p|] == p;
        DistinctAppend(p, ss[n]);
      } else {
        assert p + [] == p;
      }
    }
  }

  /** A list that was extended without a reference shows. */
  lemma {:induction false} PartialDisagrees<O>(t: Table<O>, r: ReqId, d: seq<Sunum>, k: nat)
    requires Agree(t) && 0 < k <= |d| && d[0] in t.dict && r !in Listed(t, d[0])
    ensures !Agree(AddReqs(t, r, d[..k])) && AddReqs(t, r, d[..k]) != t
  {
    var u := AddReqs(t, r, d[..k]);
    AddReqsFrame(t, r, d[..k]);
    assert d[0] in d[..k] by {
      assert d[..k][0] == d[0];
    }
    AddReqsGrow(t, r, d[..k], d[0]);
  }

  lemma {:induction false} AddReqsGrow<O>(t: Table<O>, r: ReqId, c: seq<Sunum>, s: Sunum)
    ensures |Listed(AddReqs(t, r, c), s)| == |Listed(t, s)| + multiset(c)[s]
  {
    if c != [] {
      var n := |c| - 1;
      AddReqsGrow(t, r, c[..n], s);
      assert c == c[..n] + [c[n]];
    }
  }
}
