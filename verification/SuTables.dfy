/** The storage-unit table as a value: which requests share which storage units.

    `dict` finds the object of a SUNUM, `refs` is its reference count, and `suMap`
    lists the requests that wait for it. */
module SuTables {

  type Sunum = int
  type ReqId = int

  /** Status of a storage unit: pending, wanting an ScpWorker, downloading, fetched,
      complete, errored out. */
  datatype SuStatus = P | W | D | F | C | E

  /** Status of a request: N, P, C and E in the database. */
  datatype ReqStatus = New | Pending | Completed | Failed

  datatype Table<O> = Table(dict: map<Sunum, O>, refs: map<Sunum, int>, suMap: map<Sunum, seq<ReqId>>)

  // ---------------------------------------------------------------- lists of requests

  /** No element is repeated. */
  predicate Distinct<T(==)>(l: seq<T>) {
    forall x | x in l :: multiset(l)[x] == 1
  }

  lemma {:induction false} DistinctLast<T>(l: seq<T>)
    requires l != []
    ensures Distinct(l) <==> Distinct(l[..|l| - 1]) && l[|l| - 1] !in l[..|l| - 1]
  {
    var a, x := l[..|l| - 1], l[|l| - 1];
    assert l == a + [x];
    if Distinct(l) {
      forall y | y in a ensures multiset(a)[y] == 1 {
        assert y in l;
      }
      assert x in l;
      assert x in a ==> x in multiset(a);
    }
    assert x !in a ==> x !in multiset(a);
  }

  lemma {:induction false} DistinctAppend<T>(l: seq<T>, x: T)
    requires Distinct(l) && x !in l
    ensures Distinct(l + [x])
  {
    assert (l + [x])[..|l|] == l;
    DistinctLast(l + [x]);
  }

  /** `list.remove`: the first occurrence of `x` goes. */
  function Remove<T(==)>(l: seq<T>, x: T): seq<T> {
    if l == [] then [] else if l[0] == x then l[1..] else [l[0]] + Remove(l[1..], x)
  }

  lemma {:induction false} RemoveFromAppend<T>(l: seq<T>, y: T, x: T)
    ensures Remove(l + [y], x) == if x in l then Remove(l, x) + [y] else if x == y then l else l + [y]
  {
    if l != [] {
      assert (l + [y])[1..] == l[1..] + [y];
      if l[0] != x {
        RemoveFromAppend(l[1..], y, x);
        assert l == [l[0]] + l[1..];
      }
    }
  }

  lemma {:induction false} RemoveDistinct<T>(l: seq<T>, x: T)
    requires Distinct(l)
    ensures Distinct(Remove(l, x))
    ensures forall y :: y in Remove(l, x) <==> y in l && y != x
    ensures |Remove(l, x)| == if x in l then |l| - 1 else |l|
  {
    if l != [] {
      var n := |l| - 1;
      DistinctLast(l);
      RemoveDistinct(l[..n], x);
      RemoveFromAppend(l[..n], l[n], x);
      assert l == l[..n] + [l[n]];
      if x in l[..n] {
        DistinctAppend(Remove(l[..n], x), l[n]);
      }
    }
  }

  lemma {:induction false} RemoveLast<T>(l: seq<T>, x: T)
    requires x !in l
    ensures Remove(l + [x], x) == l
  {
    RemoveFromAppend(l, x, x);
  }

  // ---------------------------------------------------------------- tables

  function Empty<O>(): Table<O> {
    Table(map[], map[], map[])
  }

  /** The dictionary and the request lists agree: every storage unit is referenced by
      exactly the requests that are listed for it, and by at least one. */
  ghost predicate Agree<O>(t: Table<O>) {
    && t.dict.Keys == t.refs.Keys == t.suMap.Keys
    && forall s | s in t.suMap :: t.refs[s] == |t.suMap[s]| && t.suMap[s] != [] && Distinct(t.suMap[s])
  }

  /** The requests listed for `s`. */
  function Listed<O>(t: Table<O>, s: Sunum): seq<ReqId> {
    if s in t.suMap then t.suMap[s] else []
  }

  /** No list in the table mentions `r`. */
  ghost predicate Untracked<O>(t: Table<O>, r: ReqId) {
    forall s | s in t.suMap :: r !in t.suMap[s]
  }

  // ---------------------------------------------------------------- one storage unit

  /** `addSUs` on one SUNUM: count one more reference, or enter the new object `o`. */
  function AddRef<O>(t: Table<O>, s: Sunum, o: O): Table<O> {
    if s in t.dict && s in t.refs then t.(refs := t.refs[s := t.refs[s] + 1])
    else t.(dict := t.dict[s := o], refs := t.refs[s := 1])
  }

  /** `removeSUs` on one SUNUM: the last reference takes the object away. */
  function DropRef<O>(t: Table<O>, s: Sunum): Table<O> {
    if s !in t.dict || s !in t.refs then t
    else if t.refs[s] == 1 then t.(dict := t.dict - {s}, refs := t.refs - {s})
    else t.(refs := t.refs[s := t.refs[s] - 1])
  }

  /** `addRequestToSUMap` on one SUNUM. */
  function AddReq<O>(t: Table<O>, r: ReqId, s: Sunum): Table<O> {
    t.(suMap := t.suMap[s := Listed(t, s) + [r]])
  }

  /** `removeRequestFromSUMap` on one SUNUM: an empty list is deleted. */
  function DropReq<O>(t: Table<O>, r: ReqId, s: Sunum): Table<O> {
    if s !in t.suMap then t
    else
      var l := Remove(t.suMap[s], r);
      if l == [] then t.(suMap := t.suMap - {s}) else t.(suMap := t.suMap[s := l])
  }

  /** Request `r` joins storage unit `s`; `o` is its object if it is not in the table. */
  function JoinOne<O>(t: Table<O>, r: ReqId, s: Sunum, o: O): Table<O> {
    AddReq(AddRef(t, s, o), r, s)
  }

  /** Request `r` leaves storage unit `s`, if the table holds it. */
  function ReleaseOne<O>(t: Table<O>, r: ReqId, s: Sunum): Table<O> {
    if s in t.dict then DropRef(DropReq(t, r, s), s) else t
  }

  // ---------------------------------------------------------------- many

  /** Request `r` joins the storage units `ss`; `os[i]` is the object for `ss[i]` if that
      is not in the table. */
  function Join<O>(t: Table<O>, r: ReqId, ss: seq<Sunum>, os: seq<O>): Table<O>
    requires |os| == |ss|
  {
    if ss == [] then t
    else
      var n := |ss| - 1;
      JoinOne(Join(t, r, ss[..n], os[..n]), r, ss[n], os[n])
  }

  /** Request `r` leaves the storage units `ss`, those that the table holds. */
  function Release<O>(t: Table<O>, r: ReqId, ss: seq<Sunum>): Table<O> {
    if ss == [] then t else ReleaseOne(Release(t, r, ss[..|ss| - 1]), r, ss[|ss| - 1])
  }

  /** `t` and `t1` say the same about `s`. */
  ghost predicate SameAt<O>(t: Table<O>, t1: Table<O>, s: Sunum) {
    && (s in t1.dict <==> s in t.dict) && (s in t.dict ==> t1.dict[s] == t.dict[s])
    && (s in t1.refs <==> s in t.refs) && (s in t.refs ==> t1.refs[s] == t.refs[s])
    && (s in t1.suMap <==> s in t.suMap) && (s in t.suMap ==> t1.suMap[s] == t.suMap[s])
  }

  /** Request `r` joined `s`. */
  ghost predicate JoinedAt<O>(t: Table<O>, t1: Table<O>, r: ReqId, s: Sunum, o: O) {
    && s in t1.dict && t1.dict[s] == (if s in t.dict then t.dict[s] else o)
    && s in t1.refs && t1.refs[s] == (if s in t.refs then t.refs[s] else 0) + 1
    && s in t1.suMap && t1.suMap[s] == Listed(t, s) + [r]
  }

  /** Request `r` left `s`. */
  ghost predicate ReleasedAt<O>(t: Table<O>, t1: Table<O>, r: ReqId, s: Sunum) {
    && s in t.dict && s in t.refs && s in t.suMap
    && (s in t1.dict <==> t.refs[s] != 1) && (s in t1.dict ==> t1.dict[s] == t.dict[s])
    && (s in t1.refs <==> t.refs[s] != 1) && (s in t1.refs ==> t1.refs[s] == t.refs[s] - 1)
    && Listed(t1, s) == Remove(t.suMap[s], r) && (s in t1.suMap <==> Listed(t1, s) != [])
  }

  /** What joining means for each storage unit. */
  lemma {:induction false} JoinIs<O>(t: Table<O>, r: ReqId, ss: seq<Sunum>, os: seq<O>)
    requires |os| == |ss| && Distinct(ss) && t.dict.Keys == t.refs.Keys
    ensures Join(t, r, ss, os).dict.Keys == Join(t, r, ss, os).refs.Keys
    ensures forall s | s !in ss :: SameAt(t, Join(t, r, ss, os), s)
    ensures forall i | 0 <= i < |ss| :: JoinedAt(t, Join(t, r, ss, os), r, ss[i], os[i])
  {
    if ss != [] {
      var n := |ss| - 1;
      DistinctLast(ss);
      JoinIs(t, r, ss[..n], os[..n]);
      var m := Join(t, r, ss[..n], os[..n]);
      assert ss == ss[..n] + [ss[n]];
      forall i | 0 <= i < |ss| ensures JoinedAt(t, Join(t, r, ss, os), r, ss[i], os[i]) {
        if i < n {
          assert ss[..n][i] == ss[i] && os[..n][i] == os[i];
        } else {
          assert SameAt(t, m, ss[n]);
        }
      }
    }
  }

  /** What releasing means for each storage unit. */
  lemma {:induction false} ReleaseIs<O>(t: Table<O>, r: ReqId, ss: seq<Sunum>)
    requires Distinct(ss) && Agree(t)
    ensures Release(t, r, ss).dict.Keys == Release(t, r, ss).refs.Keys
    ensures forall s | s !in ss || s !in t.dict :: SameAt(t, Release(t, r, ss), s)
    ensures forall s | s in ss && s in t.dict :: ReleasedAt(t, Release(t, r, ss), r, s)
  {
    if ss != [] {
      var n := |ss| - 1;
      DistinctLast(ss);
      ReleaseIs(t, r, ss[..n]);
      assert ss == ss[..n] + [ss[n]];
      assert SameAt(t, Release(t, r, ss[..n]), ss[n]);
    }
  }

  lemma {:induction false} JoinAgrees<O>(t: Table<O>, r: ReqId, ss: seq<Sunum>, os: seq<O>)
    requires |os| == |ss| && Distinct(ss) && Agree(t)
    requires forall s | s in ss :: r !in Listed(t, s)
    ensures Agree(Join(t, r, ss, os))
    ensures forall q, s :: q in Listed(Join(t, r, ss, os), s) <==> q in Listed(t, s) || (q == r && s in ss)
  {
    var j := Join(t, r, ss, os);
    JoinIs(t, r, ss, os);
    forall s ensures s in j.suMap <==> s in j.dict {
      if s in ss {
        var i :| 0 <= i < |ss| && ss[i] == s;
        assert JoinedAt(t, j, r, ss[i], os[i]);
      } else {
        assert SameAt(t, j, s);
      }
    }
    forall s | s in j.suMap
      ensures j.refs[s] == |j.suMap[s]| && j.suMap[s] != [] && Distinct(j.suMap[s])
    {
      if s in ss {
        var i :| 0 <= i < |ss| && ss[i] == s;
        assert JoinedAt(t, j, r, ss[i], os[i]);
        DistinctAppend(Listed(t, s), r);
      } else {
        assert SameAt(t, j, s);
      }
    }
    forall q, s ensures q in Listed(j, s) <==> q in Listed(t, s) || (q == r && s in ss) {
      if s in ss {
        var i :| 0 <= i < |ss| && ss[i] == s;
        assert JoinedAt(t, j, r, ss[i], os[i]);
      } else {
        assert SameAt(t, j, s);
      }
    }
  }

  lemma {:induction false} ReleaseKeepsObjects<O>(t: Table<O>, r: ReqId, ss: seq<Sunum>)
    requires Distinct(ss) && Agree(t)
    ensures forall s | s in Release(t, r, ss).dict :: s in t.dict && Release(t, r, ss).dict[s] == t.dict[s]
    ensures forall s | s in ss && s in t.dict :: s in Release(t, r, ss).dict <==> |t.suMap[s]| != 1
  {
    var u := Release(t, r, ss);
    ReleaseIs(t, r, ss);
    forall s | s in u.dict ensures s in t.dict && u.dict[s] == t.dict[s] {
      assert s in ss && s in t.dict ==> ReleasedAt(t, u, r, s);
      assert !(s in ss && s in t.dict) ==> SameAt(t, u, s);
    }
    forall s | s in ss && s in t.dict ensures s in u.dict <==> |t.suMap[s]| != 1 {
      assert ReleasedAt(t, u, r, s);
    }
  }

  lemma {:induction false} ReleaseAgrees<O>(t: Table<O>, r: ReqId, ss: seq<Sunum>)
    requires Distinct(ss) && Agree(t)
    requires forall s | s in ss && s in t.dict :: r in Listed(t, s)
    ensures Agree(Release(t, r, ss))
    ensures forall q, s :: q in Listed(Release(t, r, ss), s) <==> q in Listed(t, s) && !(q == r && s in ss)
    ensures forall s | s in Release(t, r, ss).dict :: s in t.dict && Release(t, r, ss).dict[s] == t.dict[s]
    ensures forall s | s in t.dict && !(s in ss && |Listed(t, s)| == 1) :: s in Release(t, r, ss).dict
  {
    var u := Release(t, r, ss);
    ReleaseIs(t, r, ss);
    forall s | s in t.dict ensures Distinct(Remove(t.suMap[s], r)) {
      RemoveDistinct(t.suMap[s], r);
    }
    forall s
      ensures s in u.suMap <==> s in u.dict
      ensures s in u.suMap ==> u.refs[s] == |u.suMap[s]| && u.suMap[s] != [] && Distinct(u.suMap[s])
    {
      if s in ss && s in t.dict {
        RemoveDistinct(t.suMap[s], r);
        assert ReleasedAt(t, u, r, s);
      } else {
        assert SameAt(t, u, s);
      }
    }
    forall q, s ensures q in Listed(u, s) <==> q in Listed(t, s) && !(q == r && s in ss) {
      if s in ss && s in t.dict {
        RemoveDistinct(t.suMap[s], r);
        assert ReleasedAt(t, u, r, s);
      } else {
        assert SameAt(t, u, s);
      }
    }
    ReleaseKeepsObjects(t, r, ss);
  }

  /** Releasing right after joining restores the table. */
  lemma {:induction false} ReleaseUndoesJoin<O>(t: Table<O>, r: ReqId, ss: seq<Sunum>, os: seq<O>)
    requires |os| == |ss| && Distinct(ss) && Agree(t)
    requires forall s | s in ss :: r !in Listed(t, s)
    ensures Release(Join(t, r, ss, os), r, ss) == t
  {
    var j := Join(t, r, ss, os);
    var u := Release(j, r, ss);
    JoinIs(t, r, ss, os);
    JoinAgrees(t, r, ss, os);
    ReleaseIs(j, r, ss);
    forall s ensures SameAt(t, u, s) {
      if s in ss {
        var i :| 0 <= i < |ss| && ss[i] == s;
        assert JoinedAt(t, j, r, ss[i], os[i]);
        assert ReleasedAt(j, u, r, s);
        RemoveLast(Listed(t, s), r);
      } else {
        assert SameAt(t, j, s) && SameAt(j, u, s);
      }
    }
    SameTables(t, u);
  }

  lemma {:induction false} SameTables<O>(t: Table<O>, u: Table<O>)
    requires forall s :: SameAt(t, u, s)
    ensures u == t
  {
    forall s
      ensures (s in u.dict <==> s in t.dict) && (s in u.refs <==> s in t.refs) && (s in u.suMap <==> s in t.suMap)
    {
      assert SameAt(t, u, s);
    }
    forall s | s in t.dict ensures u.dict[s] == t.dict[s] {
      assert SameAt(t, u, s);
    }
    forall s | s in t.refs ensures u.refs[s] == t.refs[s] {
      assert SameAt(t, u, s);
    }
    forall s | s in t.suMap ensures u.suMap[s] == t.suMap[s] {
      assert SameAt(t, u, s);
    }
    assert u.dict == t.dict && u.refs == t.refs && u.suMap == t.suMap;
  }

  /** Joining in portions is joining at once. */
  lemma {:induction false} JoinInPortions<O>(t: Table<O>, r: ReqId, a: seq<Sunum>, x: seq<O>, b: seq<Sunum>, y: seq<O>)
    requires |a| == |x| && |b| == |y|
    ensures Join(Join(t, r, a, x), r, b, y) == Join(t, r, a + b, x + y)
  {
    if b == [] {
      assert a + b == a && x + y == x;
    } else {
      var n := |b| - 1;
      assert (a + b)[..|a| + n] == a + b[..n] && (x + y)[..|a| + n] == x + y[..n];
      JoinInPortions(t, r, a, x, b[..n], y[..n]);
    }
  }

  /** The elements of a set in some order. */
  ghost function Order<T(!new)>(s: set<T>): (l: seq<T>)
    ensures Distinct(l) && forall x :: x in l <==> x in s
  {
    if s == {} then [] else
      var x :| x in s;
      var l := Order(s - {x});
      DistinctAppend(l, x);
      l + [x]
  }
}
