/** The request table of the daemon, and what main does with it: refreshing it from the
    database, taking completed storage units off the queue, and completing requests. */
module RequestTable {
  import opened SuTables
  import opened SuLists
  import opened StorageUnits

  /** A row, with `done`, the list of completed storage units, which is not in the database. */
  datatype Row = Row(sunums: seq<Sunum>, status: ReqStatus, done: seq<Sunum>)

  // ---------------------------------------------------------------- releasing many requests

  /** The storage units of a request, each once. */
  ghost function Wanted(row: Row): (ss: seq<Sunum>)
    ensures Distinct(ss) && forall s :: s in ss <==> s in row.sunums
  {
    Order(set s | s in row.sunums)
  }

  ghost predicate Releasable<O>(t: Table<O>, r: ReqId, ss: seq<Sunum>) {
    forall s | s in ss && s in t.dict :: r in Listed(t, s)
  }

  /** The table after the requests `rs` were released, in this order. */
  ghost function ReleaseAll<O>(t: Table<O>, reqs: map<ReqId, Row>, rs: seq<ReqId>): Table<O> {
    if rs == [] then t else
      var n := |rs| - 1;
      var u := ReleaseAll(t, reqs, rs[..n]);
      if rs[n] in reqs then Release(u, rs[n], Wanted(reqs[rs[n]])) else u
  }

  /** Every request is listed, when its turn comes, for all its storage units in the table. */
  ghost predicate AllReleasable<O>(t: Table<O>, reqs: map<ReqId, Row>, rs: seq<ReqId>) {
    rs == []
    || var n := |rs| - 1;
       AllReleasable(t, reqs, rs[..n])
       && (rs[n] in reqs ==> Releasable(ReleaseAll(t, reqs, rs[..n]), rs[n], Wanted(reqs[rs[n]])))
  }

  lemma {:induction false} ReleaseAllAgrees<O>(t: Table<O>, reqs: map<ReqId, Row>, rs: seq<ReqId>)
    requires Agree(t) && AllReleasable(t, reqs, rs)
    ensures Agree(ReleaseAll(t, reqs, rs))
  {
    if rs != [] {
      var n := |rs| - 1;
      ReleaseAllAgrees(t, reqs, rs[..n]);
      if rs[n] in reqs {
        ReleaseAgrees(ReleaseAll(t, reqs, rs[..n]), rs[n], Wanted(reqs[rs[n]]));
      }
    }
  }

  /** `r` is listed for exactly its storage units. */
  ghost predicate Tracked<O>(t: Table<O>, reqs: map<ReqId, Row>, r: ReqId) {
    r in reqs && forall s :: r in Listed(t, s) <==> s in reqs[r].sunums
  }

  /** `u` is `t` without the requests `rs`, and consistent. */
  ghost predicate Without<O>(t: Table<O>, u: Table<O>, rs: seq<ReqId>) {
    && Agree(u)
    && (forall q, s :: q in Listed(u, s) <==> q in Listed(t, s) && q !in rs)
    && (forall s | s in u.dict :: s in t.dict && u.dict[s] == t.dict[s])
  }

  lemma {:induction false} ReleaseAllLast<O>(t: Table<O>, reqs: map<ReqId, Row>, a: seq<ReqId>, r: ReqId)
    requires r in reqs
    ensures ReleaseAll(t, reqs, a + [r]) == Release(ReleaseAll(t, reqs, a), r, Wanted(reqs[r]))
    ensures AllReleasable(t, reqs, a + [r])
            <==> AllReleasable(t, reqs, a) && Releasable(ReleaseAll(t, reqs, a), r, Wanted(reqs[r]))
  {
    assert (a + [r])[..|a|] == a;
  }

  lemma {:induction false} OneMoreVanished<O>(t: Table<O>, u: Table<O>, r: ReqId, ss: seq<Sunum>, a: seq<ReqId>)
    requires Without(t, u, a) && Distinct(ss) && r !in a && forall s :: r in Listed(t, s) <==> s in ss
    ensures Releasable(u, r, ss) && Without(t, Release(u, r, ss), a + [r])
  {
    ReleaseAgrees(u, r, ss);
    var v := Release(u, r, ss);
    forall q, s ensures q in Listed(v, s) <==> q in Listed(t, s) && q !in a + [r] {
      assert q in a + [r] <==> q in a || q == r;
    }
  }

  /** Refreshing loses no progress: tracked requests that vanish disappear from every list,
      and nothing else changes in the lists.  As dictionary and lists still agree, a storage
      unit that only they wanted leaves the table, and one that is shared loses exactly their
      references. */
  lemma {:induction false} VanishedLeaveNoTrace<O>(t: Table<O>, reqs: map<ReqId, Row>, rs: seq<ReqId>)
    requires Agree(t) && Distinct(rs) && forall r | r in rs :: Tracked(t, reqs, r)
    ensures AllReleasable(t, reqs, rs) && Without(t, ReleaseAll(t, reqs, rs), rs)
  {
    if rs != [] {
      var n := |rs| - 1;
      var a, r := rs[..n], rs[n];
      DistinctLast(rs);
      assert r in rs && Tracked(t, reqs, r);
      VanishedLeaveNoTrace(t, reqs, a);
      OneMoreVanished(t, ReleaseAll(t, reqs, a), r, Wanted(reqs[r]), a);
      ReleaseAllLast(t, reqs, a, r);
      assert rs == a + [r];
    }
  }

  lemma {:induction false} ReleaseAnyOrder<O>(t: Table<O>, r: ReqId, a: seq<Sunum>, b: seq<Sunum>)
    requires Agree(t) && Distinct(a) && Distinct(b) && forall s :: s in a <==> s in b
    ensures Release(t, r, a) == Release(t, r, b)
  {
    var x, y := Release(t, r, a), Release(t, r, b);
    ReleaseIs(t, r, a);
    ReleaseIs(t, r, b);
    forall s ensures SameAt(x, y, s) {
      if s in a && s in t.dict {
        assert ReleasedAt(t, x, r, s) && ReleasedAt(t, y, r, s);
      } else {
        assert SameAt(t, x, s) && SameAt(t, y, s);
      }
    }
    SameTables(x, y);
  }

  lemma {:induction false} StuckForGood<O>(t: Table<O>, reqs: map<ReqId, Row>, a: seq<ReqId>, b: seq<ReqId>)
    requires !AllReleasable(t, reqs, a)
    ensures !AllReleasable(t, reqs, a + b)
  {
    if b == [] {
      assert a + b == a;
    } else {
      assert (a + b)[..|a| + |b| - 1] == a + b[..|b| - 1];
      StuckForGood(t, reqs, a, b[..|b| - 1]);
    }
  }

  lemma {:induction false} AbsentLast(a: seq<ReqId>, x: ReqId, keys: set<ReqId>)
    ensures Absent(a + [x], keys) == Absent(a, keys) + if x in keys then [] else [x]
  {
    assert (a + [x])[..|a|] == a;
  }

  lemma {:induction false} Associative(x: seq<ReqId>, y: seq<ReqId>, z: seq<ReqId>)
    ensures x + y + z == x + (y + z)
  {
  }

  lemma {:induction false} AbsentInPortions(a: seq<ReqId>, b: seq<ReqId>, keys: set<ReqId>)
    ensures Absent(a + b, keys) == Absent(a, keys) + Absent(b, keys)
  {
    if b == [] {
      assert a + b == a;
    } else {
      var c, x := b[..|b| - 1], b[|b| - 1];
      assert b == c + [x];
      Associative(a, c, [x]);
      AbsentLast(a + c, x, keys);
      AbsentLast(c, x, keys);
      AbsentInPortions(a, c, keys);
      Associative(Absent(a, keys), Absent(c, keys), if x in keys then [] else [x]);
    }
  }

  lemma {:induction false} StopsAt<O>(t: Table<O>, reqs: map<ReqId, Row>, order: seq<ReqId>, i: nat, keys: set<ReqId>)
    requires i < |order| && order[i] !in keys
    requires !AllReleasable(t, reqs, Absent(order[..i], keys) + [order[i]])
    ensures !AllReleasable(t, reqs, Absent(order, keys))
  {
    AbsentLast(order[..i], order[i], keys);
    assert order[..i + 1] == order[..i] + [order[i]];
    assert order == order[..i + 1] + order[i + 1..];
    AbsentInPortions(order[..i + 1], order[i + 1..], keys);
    StuckForGood(t, reqs, Absent(order[..i + 1], keys), Absent(order[i + 1..], keys));
  }

  lemma {:induction false} ReleasableEither(t: Table<StorageUnit>, r: ReqId, ss: seq<Sunum>, os: seq<Sunum>)
    requires Agree(t) && forall s :: s in ss <==> s in os
    ensures Releasable(t, r, os) <==> forall s | s in ss && s in t.dict :: r in t.suMap[s]
  {
    if forall s | s in ss && s in t.dict :: r in t.suMap[s] {
      forall s | s in os && s in t.dict ensures r in Listed(t, s) {
        assert s in ss;
      }
    }
    if Releasable(t, r, os) {
      forall s | s in ss && s in t.dict ensures r in t.suMap[s] {
        assert s in os && r in Listed(t, s);
      }
    }
  }

  // ---------------------------------------------------------------- the class

  class ReqTable {
    const suTable: SuTable
    var reqDict: map<ReqId, Row>

    constructor (suTable: SuTable, rows: map<ReqId, Row>)
      ensures this.suTable == suTable && reqDict == rows
    {
      this.suTable := suTable;
      reqDict := rows;
    }

    /** `list(set(sunums))`. */
    static method Unique(sunums: seq<Sunum>) returns (ss: seq<Sunum>)
      ensures Distinct(ss) && forall s :: s in ss <==> s in sunums
    {
      ss := [];
      var i := 0;
      while i < |sunums|
        invariant 0 <= i <= |sunums| && Distinct(ss)
        invariant forall s :: s in ss <==> s in sunums[..i]
      {
        assert sunums[..i + 1] == sunums[..i] + [sunums[i]];
        if sunums[i] !in ss {
          DistinctAppend(ss, sunums[i]);
          ss := ss + [sunums[i]];
        }
        i := i + 1;
      }
      assert sunums[..i] == sunums;
    }

    /** A request is taken off its storage units, each of which is looked at once. */
    method ReleaseRow(r: ReqId, row: Row) returns (ok: bool)
      requires suTable.Valid() && Agree(suTable.View())
      modifies suTable`suDict, suTable`refs, suTable`suMap, suTable.pool`refcount
      ensures ok <==> Releasable(old(suTable.View()), r, Wanted(row))
      ensures ok ==> suTable.Valid() && suTable.View() == Release(old(suTable.View()), r, Wanted(row))
      ensures ok ==> Agree(suTable.View())
    {
      var ss := Unique(row.sunums);
      ReleaseAnyOrder(suTable.View(), r, ss, Wanted(row));
      ReleasableEither(suTable.View(), r, ss, Wanted(row));
      ok := suTable.ReleaseRequest(r, ss);
    }

    /** One round of the first loop of `refresh`, on a request that vanished after `a`. */
    method ReleaseVanished(r: ReqId, ghost t: Table<StorageUnit>, ghost a: seq<ReqId>) returns (ok: bool)
      requires suTable.Valid() && Agree(t) && r in reqDict && AllReleasable(t, reqDict, a)
      requires suTable.View() == ReleaseAll(t, reqDict, a)
      modifies suTable, suTable.pool
      ensures suTable.pool == old(suTable.pool)
      ensures ok <==> AllReleasable(t, reqDict, a + [r])
      ensures ok ==> suTable.Valid() && suTable.View() == ReleaseAll(t, reqDict, a + [r])
    {
      ReleaseAllAgrees(t, reqDict, a);
      ReleaseAllLast(t, reqDict, a, r);
      ok := ReleaseRow(r, reqDict[r]);
    }

    /** How far the first loop of `refresh` came. */
    ghost predicate Reached(t: Table<StorageUnit>, order: seq<ReqId>, i: nat, keys: set<ReqId>)
      requires i <= |order|
      reads this, suTable
    {
      && AllReleasable(t, reqDict, Absent(order[..i], keys))
      && suTable.View() == ReleaseAll(t, reqDict, Absent(order[..i], keys))
    }

    /** One round of the first loop of `refresh`. */
    method RefreshOne(order: seq<ReqId>, i: nat, keys: set<ReqId>, ghost t: Table<StorageUnit>) returns (ok: bool)
      requires suTable.Valid() && Agree(t) && i < |order| && order[i] in reqDict && Reached(t, order, i, keys)
      modifies suTable, suTable.pool
      ensures suTable.pool == old(suTable.pool)
      ensures ok ==> suTable.Valid() && Reached(t, order, i + 1, keys)
      ensures !ok ==> !AllReleasable(t, reqDict, Absent(order, keys))
    {
      var r := order[i];
      assert order[..i + 1] == order[..i] + [r];
      AbsentLast(order[..i], r, keys);
      ok := true;
      if r !in keys {
        ok := ReleaseVanished(r, t, Absent(order[..i], keys));
        if !ok {
          StopsAt(t, reqDict, order, i, keys);
        }
      } else {
        assert Absent(order[..i], keys) + [] == Absent(order[..i], keys);
      }
    }

    /** The second loop of `refresh`: `done` lists are carried over.  It fails on a row
        that is not new and was never seen. */
    method CarryOver(rows: map<ReqId, Row>, keys: seq<ReqId>) returns (ok: bool, merged: map<ReqId, Row>)
      requires forall r :: r in keys <==> r in rows
      ensures ok <==> forall r | r in rows && !rows[r].status.New? :: r in reqDict
      ensures ok ==> merged.Keys == rows.Keys
      ensures ok ==> forall r | r in rows ::
                merged[r] == if rows[r].status.New? then rows[r] else rows[r].(done := reqDict[r].done)
    {
      ok, merged := true, rows;
      var i := 0;
      while i < |keys|
        invariant 0 <= i <= |keys| && merged.Keys == rows.Keys
        invariant forall r | r in keys[..i] && !rows[r].status.New? :: r in reqDict
        invariant forall r | r in rows ::
                    merged[r] == if r !in keys[..i] || rows[r].status.New? then rows[r]
                                 else rows[r].(done := reqDict[r].done)
      {
        var r := keys[i];
        assert r in keys && keys[..i + 1] == keys[..i] + [r];
        if !rows[r].status.New? {
          if r !in reqDict {
            ok := false;
            return;
          }
          merged := merged[r := rows[r].(done := reqDict[r].done)];
        }
        i := i + 1;
      }
      assert keys[..i] == keys;
    }

    /** `refresh`.  `rows` is what the database holds now, with empty `done` lists; `order`
        and `keys` are the orders of the old and the new dictionary.  It fails, with an
        exception, when a request that vanished is not listed for a storage unit of its that
        the table holds, and when a row that is not new was never seen. */
    method Refresh(rows: map<ReqId, Row>, order: seq<ReqId>, keys: seq<ReqId>) returns (ok: bool)
      requires suTable.Valid() && Agree(suTable.View())
      requires Distinct(order) && forall r :: r in order <==> r in reqDict
      requires forall r :: r in keys <==> r in rows
      modifies `reqDict, suTable, suTable.pool
      ensures ok <==> AllReleasable(old(suTable.View()), old(reqDict), Absent(order, rows.Keys))
                      && forall r | r in rows && !rows[r].status.New? :: r in old(reqDict)
      ensures ok ==> suTable.Valid()
      ensures ok ==> suTable.View() == ReleaseAll(old(suTable.View()), old(reqDict), Absent(order, rows.Keys))
      ensures ok ==> reqDict.Keys == rows.Keys
      ensures ok ==> forall r | r in rows ::
                reqDict[r] == if rows[r].status.New? then rows[r] else rows[r].(done := old(reqDict)[r].done)
    {
      ghost var t := suTable.View();
      var i := 0;
      while i < |order|
        invariant 0 <= i <= |order| && suTable.Valid() && suTable.pool == old(suTable.pool)
        invariant reqDict == old(reqDict) && Reached(t, order, i, rows.Keys)
      {
        var r := order[i];
        assert r in order;
        ok := RefreshOne(order, i, rows.Keys, t);
        if !ok {
          return;
        }
        i := i + 1;
      }
      assert order[..i] == order;
      var merged;
      ok, merged := CarryOver(rows, keys);
      if ok {
        reqDict := merged;
      }
    }

    // -------------------------------------------------------------- completion

    /** Main takes an item off the completion queue.  A storage unit that is neither C nor
        E has errored out.  Main fails, with an exception, if no list is kept for it or a
        listed request is unknown; otherwise each listed request counts it, once. */
    method Consume(ghost su: StorageUnit) returns (ok: bool)
      requires suTable.queue != [] && suTable.queue[0] == su
      modifies `reqDict, suTable`queue, su`status
      ensures suTable.queue == old(suTable.queue)[1..]
      ensures su.status == if old(su.status).C? then C else E
      ensures ok <==> su.sunum in suTable.suMap && forall r | r in suTable.suMap[su.sunum] :: r in old(reqDict)
      ensures ok ==> reqDict.Keys == old(reqDict.Keys)
      ensures ok ==> forall r | r in suTable.suMap[su.sunum] ::
                r in reqDict && r in old(reqDict) && OneMoreDone(old(reqDict)[r], reqDict[r], su.sunum)
      ensures ok ==> forall r | r in reqDict && r !in suTable.suMap[su.sunum] :: reqDict[r] == old(reqDict)[r]
    {
      var item := suTable.queue[0];
      suTable.queue := suTable.queue[1..];
      if item.status != C && item.status != E {
        item.status := E;
      }
      var s := item.sunum;
      ok := s in suTable.suMap;
      if ok {
        ok := CountForAll(s, suTable.suMap[s]);
        forall r | ok && r in suTable.suMap[s] ensures r in reqDict && OneMoreDone(old(reqDict)[r], reqDict[r], s) {
          CountedIsMore(old(reqDict)[r], s);
        }
      }
    }

    method CountForAll(s: Sunum, l: seq<ReqId>) returns (ok: bool)
      modifies `reqDict
      ensures ok <==> forall r | r in l :: r in old(reqDict)
      ensures ok ==> reqDict.Keys == old(reqDict.Keys)
      ensures ok ==> forall r | r in reqDict :: reqDict[r] == Counted(old(reqDict)[r], s, r in l)
    {
      var i := 0;
      while i < |l|
        invariant 0 <= i <= |l| && reqDict.Keys == old(reqDict.Keys)
        invariant forall r | r in l[..i] :: r in reqDict
        invariant forall r | r in reqDict :: reqDict[r] == Counted(old(reqDict)[r], s, r in l[..i])
      {
        var r := l[i];
        assert r in l && l[..i + 1] == l[..i] + [r];
        if r !in reqDict {
          return false;
        }
        if s !in reqDict[r].done {
          reqDict := reqDict[r := reqDict[r].(done := reqDict[r].done + [s])];
        }
        i := i + 1;
      }
      assert l[..i] == l;
      ok := true;
    }

    /** Main looks at a pending request.  When all its storage units count as done, it is
        taken off them; it fails if one of those that the table holds has errored out, and
        completes otherwise. */
    method CompleteRequest(r: ReqId) returns (finished: bool, ok: bool)
      requires suTable.Valid() && Agree(suTable.View())
      requires r in reqDict && reqDict[r].status.Pending?
      modifies `reqDict, suTable`suDict, suTable`refs, suTable`suMap, suTable.pool`refcount
      ensures finished <==> forall s :: s in old(reqDict)[r].sunums <==> s in old(reqDict)[r].done
      ensures !finished ==> ok && reqDict == old(reqDict) && suTable.View() == old(suTable.View())
      ensures finished ==> (ok <==> Releasable(old(suTable.View()), r, Wanted(old(reqDict)[r])))
      ensures finished && ok ==>
                && suTable.View() == Release(old(suTable.View()), r, Wanted(old(reqDict)[r])) && Agree(suTable.View())
                && r in reqDict && reqDict == old(reqDict)[r := reqDict[r]]
                && reqDict[r] == old(reqDict)[r].(status := reqDict[r].status)
      ensures finished && ok ==>
                reqDict[r].status == if exists s :: s in old(reqDict)[r].sunums && s in old(suTable.suDict)
                                                    && old(suTable.suDict)[s].status == E
                                     then Failed else Completed
    {
      var row := reqDict[r];
      ok := true;
      finished := (set s | s in row.sunums) == (set s | s in row.done);
      SameElements(row.sunums, row.done);
      if finished {
        ok := Finish(r, row);
      }
    }

    /** All storage units of the request are done. */
    method Finish(r: ReqId, row: Row) returns (ok: bool)
      requires suTable.Valid() && Agree(suTable.View()) && r in reqDict && reqDict[r] == row
      modifies `reqDict, suTable`suDict, suTable`refs, suTable`suMap, suTable.pool`refcount
      ensures ok <==> Releasable(old(suTable.View()), r, Wanted(row))
      ensures ok ==> suTable.View() == Release(old(suTable.View()), r, Wanted(row)) && Agree(suTable.View())
      ensures ok ==> reqDict == old(reqDict)[r := row.(
                       status := if Errored(old(suTable.suDict), row.sunums) then Failed else Completed)]
    {
      var ss := Unique(row.sunums);
      var failed := AnyErrored(ss, row.sunums);
      ok := ReleaseRow(r, row);
      if ok {
        reqDict := reqDict[r := row.(status := if failed then Failed else Completed)];
      }
    }

    method AnyErrored(ss: seq<Sunum>, ghost wanted: seq<Sunum>) returns (failed: bool)
      requires suTable.Valid() && forall s :: s in ss <==> s in wanted
      ensures failed <==> Errored(suTable.suDict, wanted)
    {
      var i := 0;
      failed := false;
      while i < |ss| && !failed
        invariant 0 <= i <= |ss|
        invariant failed ==> Errored(suTable.suDict, wanted)
        invariant !failed ==> !Errored(suTable.suDict, ss[..i])
      {
        var s := ss[i];
        assert s in ss && ss[..i + 1] == ss[..i] + [s];
        failed := s in suTable.suDict && suTable.suDict[s].status == E;
        i := i + 1;
      }
      assert i == |ss| ==> ss[..i] == ss;
    }
  }

  /** `s` is on the list of completed storage units now, behind what was there; it is not
      repeated if it was there already; and nothing else of the row has changed. */
  predicate OneMoreDone(row: Row, row1: Row, s: Sunum) {
    && s in row1.done && row1.done == (if s in row.done then row.done else row.done + [s])
    && row1.sunums == row.sunums && row1.status == row.status
  }

  lemma {:induction false} CountedIsMore(row: Row, s: Sunum)
    ensures OneMoreDone(row, Counted(row, s, true), s)
  {
    assert (row.done + [s])[|row.done|] == s;
  }

  /** A row after `s` was consumed, for a request that is listed for it or not. */
  function Counted(row: Row, s: Sunum, listed: bool): Row {
    if listed && s !in row.done then row.(done := row.done + [s]) else row
  }

  ghost predicate Errored(dict: map<Sunum, StorageUnit>, ss: seq<Sunum>)
    reads set s | s in dict :: dict[s]
  {
    exists s :: s in ss && s in dict && dict[s].status == E
  }

  lemma {:induction false} SameElements(a: seq<Sunum>, b: seq<Sunum>)
    ensures (set s | s in a) == (set s | s in b) <==> forall s :: s in a <==> s in b
  {
    var x, y := set s | s in a, set s | s in b;
    if forall s :: s in a <==> s in b {
      assert x == y;
    }
    if x == y {
      forall s ensures s in a <==> s in b {
        assert s in x <==> s in y;
      }
    }
  }
}
