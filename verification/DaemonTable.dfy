/** What the SU table and the request table agree on in every reachable state. */
module DaemonTable {
  import opened SuTables
  import opened SuLists
  import opened Daemon

  /** A listed request is a pending one that wants the storage unit. */
  ghost predicate ListsArePending(st: State) {
    forall s, r | r in Listed(st.table, s) ::
      r in st.reqs && st.reqs[r].status.Pending? && s in st.reqs[r].sunums
  }

  /** A request is listed for all of its storage units or for none. */
  ghost predicate AllOrNothing(st: State) {
    forall r, s | r in st.reqs && !Untracked(st.table, r) && s in st.reqs[r].sunums :: r in Listed(st.table, s)
  }

  /** A request counts only storage units as done that it is listed for. */
  ghost predicate DoneAreListed(st: State) {
    forall r | r in st.reqs ::
      && st.reqs[r].done <= st.reqs[r].sunums
      && st.reqs[r].sunums != {} && (st.reqs[r].status.New? ==> st.reqs[r].done == {})
      && (st.reqs[r].status.Pending? ==> forall s | s in st.reqs[r].done :: r in Listed(st.table, s))
  }

  ghost predicate ObjectsExist(st: State) {
    forall s | s in st.table.dict :: st.table.dict[s] in st.sus && st.table.dict[s].sunum == s
  }

  ghost predicate TableInv(st: State) {
    Agree(st.table) && ListsArePending(st) && AllOrNothing(st) && DoneAreListed(st) && ObjectsExist(st)
  }

  lemma {:induction false} TableInvInit(st: State)
    requires Init(st)
    ensures TableInv(st)
  {
  }

  /** Steps that touch neither table. */
  lemma {:induction false} TablesUntouched(st: State, st1: State)
    requires TableInv(st) && st1.table == st.table && st1.reqs == st.reqs && st.sus.Keys <= st1.sus.Keys
    ensures TableInv(st1)
  {
  }

  lemma {:induction false} UntrackedElsewhere(st: State, id: ReqId)
    requires TableInv(st) && (id !in st.reqs || !st.reqs[id].status.Pending?)
    ensures Untracked(st.table, id)
    ensures forall s :: id !in Listed(st.table, s)
  {
    forall s | s in st.table.suMap ensures id !in st.table.suMap[s] {
      assert id in st.table.suMap[s] ==> id in Listed(st.table, s);
    }
  }

  lemma {:induction false} OneMoreRequest(st: State, id: ReqId, req: Request)
    requires TableInv(st) && id !in st.reqs && req.status.New? && req.sunums != {} && req.done == {}
    ensures TableInv(st.(reqs := st.reqs[id := req]))
  {
    UntrackedElsewhere(st, id);
  }

  lemma {:induction false} ArriveKeeps(st: State, id: ReqId, req: Request)
    requires TableInv(st) && id !in st.reqs && req.sunums != {} && req.done == {}
    ensures TableInv(Arrived(st, id, req))
  {
    if req.status.New? {
      OneMoreRequest(st, id, req);
    } else {
      TablesUntouched(st, Arrived(st, id, req));
    }
  }

  lemma {:induction false} ExpireKeeps(st: State, id: ReqId)
    requires TableInv(st) && Enabled(st, Expire(id))
    ensures TableInv(Apply(st, Expire(id)))
  {
    UntrackedElsewhere(st, id);
  }

  /** Releasing all storage units of a request leaves no trace of it. */
  lemma {:induction false} Released(st: State, id: ReqId, t1: Table<Oid>)
    requires TableInv(st) && id in st.reqs && ListedWhereFound(st.table, id, st.reqs[id].sunums)
    requires t1 == Release(st.table, id, Order(st.reqs[id].sunums))
    ensures Agree(t1) && Untracked(t1, id)
    ensures forall q, s :: q in Listed(t1, s) <==> q in Listed(st.table, s) && q != id
    ensures forall s | s in t1.dict :: s in st.table.dict && t1.dict[s] == st.table.dict[s]
    ensures forall s | s in st.table.dict && !(id in Listed(st.table, s) && |Listed(st.table, s)| == 1) :: s in t1.dict
  {
    ReleaseAgrees(st.table, id, Order(st.reqs[id].sunums));
    forall s | s in t1.suMap ensures id !in t1.suMap[s] {
      assert id !in Listed(t1, s);
    }
  }

  lemma {:induction false} OthersTracked(st: State, id: ReqId, t1: Table<Oid>, r: ReqId)
    requires forall q, s :: q in Listed(t1, s) <==> q in Listed(st.table, s) && q != id
    requires !Untracked(t1, r)
    ensures !Untracked(st.table, r) && r != id
  {
    var s :| s in t1.suMap && r in t1.suMap[s];
    assert r in Listed(t1, s);
    assert r in Listed(st.table, s);
    assert s in st.table.suMap && r in st.table.suMap[s];
  }

  /** The requests after `id` was released: it is gone, or it has ended. */
  ghost predicate RequestEnded(st: State, id: ReqId, st1: State) {
    && (forall r | r != id :: r in st1.reqs <==> r in st.reqs)
    && (forall r | r in st.reqs && r != id :: st1.reqs[r] == st.reqs[r])
    && (id in st1.reqs ==>
          && st1.reqs[id].done <= st1.reqs[id].sunums != {}
          && !st1.reqs[id].status.Pending? && !st1.reqs[id].status.New?)
  }

  lemma {:induction false} ListsAfterRelease(st: State, id: ReqId, st1: State)
    requires ListsArePending(st) && AllOrNothing(st) && RequestEnded(st, id, st1) && Untracked(st1.table, id)
    requires forall q, s :: q in Listed(st1.table, s) <==> q in Listed(st.table, s) && q != id
    ensures ListsArePending(st1) && AllOrNothing(st1)
  {
    forall r, s | r in st1.reqs && !Untracked(st1.table, r) && s in st1.reqs[r].sunums
      ensures r in Listed(st1.table, s)
    {
      OthersTracked(st, id, st1.table, r);
    }
  }

  lemma {:induction false} DoneListsAfterRelease(st: State, id: ReqId, st1: State)
    requires DoneAreListed(st) && RequestEnded(st, id, st1)
    requires forall q, s :: q in Listed(st1.table, s) <==> q in Listed(st.table, s) && q != id
    ensures DoneAreListed(st1)
  {
  }

  /** The shape of the states after a request was released. */
  lemma {:induction false} ReleaseKeeps(st: State, id: ReqId, st1: State)
    requires TableInv(st) && id in st.reqs && ListedWhereFound(st.table, id, st.reqs[id].sunums)
    requires st1.table == Release(st.table, id, Order(st.reqs[id].sunums)) && st1.sus == st.sus
    requires RequestEnded(st, id, st1)
    ensures TableInv(st1)
  {
    Released(st, id, st1.table);
    ListsAfterRelease(st, id, st1);
    DoneListsAfterRelease(st, id, st1);
  }

  lemma {:induction false} VanishKeeps(st: State, id: ReqId)
    requires TableInv(st) && Enabled(st, Vanish(id))
    ensures TableInv(Apply(st, Vanish(id)))
  {
    var st1 := Apply(st, Vanish(id));
    if ListedWhereFound(st.table, id, st.reqs[id].sunums) {
      ReleaseKeeps(st, id, st1);
    } else {
      TablesUntouched(st, st1);
    }
  }

  lemma {:induction false} FinishKeeps(st: State, id: ReqId)
    requires TableInv(st) && Enabled(st, Finish(id))
    ensures TableInv(Apply(st, Finish(id)))
    ensures !Apply(st, Finish(id)).down
  {
    ReleaseKeeps(st, id, Apply(st, Finish(id)));
  }

  /** A request is dispatched only while no list mentions it. */
  lemma {:induction false} PlannableIsUntracked(st: State, id: ReqId, plan: map<Sunum, Place>)
    requires TableInv(st) && Plannable(st, id, plan)
    ensures Untracked(st.table, id) && forall s :: id !in Listed(st.table, s)
    ensures plan.Keys == st.reqs[id].sunums - st.table.dict.Keys
  {
    if st.reqs[id].status.New? {
      UntrackedElsewhere(st, id);
    } else {
      forall s ensures id !in Listed(st.table, s) {
        assert s in st.table.suMap ==> id !in st.table.suMap[s];
      }
    }
  }

  /** What a dispatch does to the lists. */
  lemma {:induction false} DispatchLists(st: State, id: ReqId, plan: map<Sunum, Place>, stamp: nat, t1: Table<Oid>)
    requires TableInv(st) && Plannable(st, id, plan)
    requires st.reqs[id].sunums - st.table.dict.Keys <= plan.Keys
    requires t1 == Join(st.table, id, Order(st.reqs[id].sunums), Objects(Order(st.reqs[id].sunums), stamp))
    ensures Agree(t1)
    ensures forall q, s :: q in Listed(t1, s) <==> q in Listed(st.table, s) || (q == id && s in st.reqs[id].sunums)
    ensures forall r :: !Untracked(t1, r) ==> r == id || !Untracked(st.table, r)
  {
    var ss := Order(st.reqs[id].sunums);
    PlannableIsUntracked(st, id, plan);
    JoinAgrees(st.table, id, ss, Objects(ss, stamp));
    forall r | !Untracked(t1, r) ensures r == id || !Untracked(st.table, r) {
      var s :| s in t1.suMap && r in t1.suMap[s];
      assert r in Listed(t1, s);
    }
  }

  /** What a dispatch does to the dictionary. */
  lemma {:induction false} DispatchDict(st: State, id: ReqId, plan: map<Sunum, Place>, stamp: nat, t1: Table<Oid>)
    requires Agree(st.table) && id in st.reqs && plan.Keys == st.reqs[id].sunums - st.table.dict.Keys
    requires t1 == Join(st.table, id, Order(st.reqs[id].sunums), Objects(Order(st.reqs[id].sunums), stamp))
    ensures forall s :: s in t1.dict <==> s in st.table.dict || s in plan
    ensures forall s | s in st.table.dict :: t1.dict[s] == st.table.dict[s]
    ensures forall s | s in plan :: t1.dict[s] == Oid(s, stamp)
  {
    var ss := Order(st.reqs[id].sunums);
    JoinIs(st.table, id, ss, Objects(ss, stamp));
    DictFromJoin(st.table, t1, id, ss, Objects(ss, stamp), plan, stamp);
  }

  lemma {:induction false} DictFromJoin(t: Table<Oid>, t1: Table<Oid>, r: ReqId, ss: seq<Sunum>, os: seq<Oid>,
                                        plan: map<Sunum, Place>, stamp: nat)
    requires |os| == |ss| && forall i | 0 <= i < |ss| :: os[i] == Oid(ss[i], stamp)
    requires forall s | s !in ss :: SameAt(t, t1, s)
    requires forall i | 0 <= i < |ss| :: JoinedAt(t, t1, r, ss[i], os[i])
    requires forall s :: s in plan <==> s in ss && s !in t.dict
    ensures forall s :: s in t1.dict <==> s in t.dict || s in plan
    ensures forall s | s in t.dict :: t1.dict[s] == t.dict[s]
    ensures forall s | s in plan :: t1.dict[s] == Oid(s, stamp)
  {
    forall s
      ensures s in t1.dict <==> s in t.dict || s in plan
      ensures s in t.dict ==> t1.dict[s] == t.dict[s]
      ensures s in plan ==> t1.dict[s] == Oid(s, stamp)
    {
      if s in ss {
        var i :| 0 <= i < |ss| && ss[i] == s;
        assert JoinedAt(t, t1, r, ss[i], os[i]);
      } else {
        assert SameAt(t, t1, s);
      }
    }
  }

  lemma {:induction false} DispatchObjects(st: State, id: ReqId, plan: map<Sunum, Place>, stamp: nat)
    requires TableInv(st) && id in st.reqs && plan.Keys == st.reqs[id].sunums - st.table.dict.Keys
    ensures ObjectsExist(Dispatched(st, id, plan, stamp))
  {
    var st1 := Dispatched(st, id, plan, stamp);
    DispatchDict(st, id, plan, stamp, st1.table);
    forall s | s in st1.table.dict ensures st1.table.dict[s] in st1.sus && st1.table.dict[s].sunum == s {
      assert s !in st.table.dict ==> Oid(s, stamp) in Born(plan, stamp);
    }
  }

  lemma {:induction false} DispatchRequests(st: State, id: ReqId, st1: State)
    requires TableInv(st) && id in st.reqs && st1.reqs == st.reqs[id := st.reqs[id].(status := Pending)]
    requires forall q, s ::
               q in Listed(st1.table, s) <==> q in Listed(st.table, s) || (q == id && s in st.reqs[id].sunums)
    requires forall r :: !Untracked(st1.table, r) ==> r == id || !Untracked(st.table, r)
    ensures ListsArePending(st1) && AllOrNothing(st1) && DoneAreListed(st1)
  {
  }

  lemma {:induction false} DispatchKeeps(st: State, id: ReqId, plan: map<Sunum, Place>, stamp: nat)
    requires TableInv(st) && Enabled(st, Dispatch(id, plan, stamp))
    ensures TableInv(Dispatched(st, id, plan, stamp))
  {
    var st1 := Dispatched(st, id, plan, stamp);
    PlannableIsUntracked(st, id, plan);
    DispatchLists(st, id, plan, stamp, st1.table);
    DispatchObjects(st, id, plan, stamp);
    DispatchRequests(st, id, st1);
  }

  lemma {:induction false} ConsumeKeeps(st: State, o: Oid)
    requires TableInv(st) && Enabled(st, Consume(o))
    ensures TableInv(Apply(st, Consume(o)))
    ensures Apply(st, Consume(o)).down <==> o.sunum !in st.table.suMap
  {
    var st1 := Apply(st, Consume(o));
    if o.sunum in st.table.suMap {
      forall r | r in st.table.suMap[o.sunum] ensures r in st.reqs && o.sunum in st.reqs[r].sunums {
        assert r in Listed(st.table, o.sunum);
      }
      assert st1.reqs == MarkDone(st.reqs, st.table.suMap[o.sunum], o.sunum);
    } else {
      TablesUntouched(st, st1);
    }
  }

  lemma {:induction false} LocalKeeps(st: State, l: Label)
    requires TableInv(st) && Local(l) && Enabled(st, l)
    ensures TableInv(Apply(st, l)) && !Apply(st, l).down
  {
    TablesUntouched(st, ApplyLocal(st, l));
  }

  /** A request that repeats a listed SUNUM stays listed, without a reference. */
  lemma {:induction false} RepeatBreaksTables(st: State, l: Label)
    requires TableInv(st) && Enabled(st, l) && l.DispatchRepeat?
    ensures !Agree(Apply(st, l).table) && !Apply(st, l).down
  {
    PlannableIsUntracked(st, l.id, l.plan);
    var s :| s in l.listed && s in st.reqs[l.id].repeated;
    var first := l.listed[0];
    assert first in l.listed;
    assert l.listed[..|l.listed|] == l.listed;
    PartialDisagrees(st.table, l.id, l.listed, |l.listed|);
  }

  /** Steps that only move objects and queues. */
  predicate MovesOnly(l: Label) {
    l.DispatchFail? || l.Take? || l.Claim? || l.Drop?
  }

  lemma {:induction false} MovesKeep(st: State, l: Label, st1: State)
    requires TableInv(st) && MovesOnly(l) && Enabled(st, l) && st1 == Apply(st, l)
    ensures TableInv(st1)
  {
    TablesUntouched(st, st1);
  }

  /** Dispatch, rollback, completion, refresh and every step of the other threads keep the
      two tables in agreement, unless a request repeats a listed SUNUM. */
  lemma {:induction false} StepKeepsTables(st: State, l: Label)
    requires TableInv(st) && Enabled(st, l) && !l.DispatchRepeat?
    ensures TableInv(Apply(st, l))
  {
    if Local(l) {
      LocalKeeps(st, l);
    } else if MovesOnly(l) {
      MovesKeep(st, l, Apply(st, l));
    } else {
      match l
      case Arrive(id, req) => ArriveKeeps(st, id, req);
      case Vanish(id) => VanishKeeps(st, id);
      case Expire(id) => ExpireKeeps(st, id);
      case Dispatch(id, plan, stamp) => DispatchKeeps(st, id, plan, stamp);
      case Finish(id) => FinishKeeps(st, id);
      case Consume(o) => ConsumeKeeps(st, o);
    }
  }
}
