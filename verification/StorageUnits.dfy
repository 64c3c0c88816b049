/** The storage-unit table of the daemon: shared, reference-counted objects, the lists of
    the requests that wait for them, and the queue of completed storage units. */
module StorageUnits {
  import opened SuTables
  import opened SuLists

  /** A Downloader, as far as others ask it: where its storage unit is. */
  class Downloader {
    const user: string
    const host: string
    const port: int

    constructor (user: string, host: string, port: int)
      ensures this.user == user && this.host == host && this.port == port
    {
      this.user, this.host, this.port := user, host, port;
    }
  }

  class StorageUnit {
    const sunum: Sunum
    var refcount: int
    var status: SuStatus
    var size: nat
    var start: int // in seconds, as far as the order goes
    var worker: Downloader?

    constructor (sunum: Sunum, refcount: int, status: SuStatus)
      ensures this.sunum == sunum && this.refcount == refcount && this.status == status && worker == null
    {
      this.sunum, this.refcount, this.status := sunum, refcount, status;
      size, start, worker := 0, *, null;
    }
  }

  /** The objects of a list of SUNUMs. */
  function Lookup(dict: map<Sunum, StorageUnit>, ss: seq<Sunum>): (sus: seq<StorageUnit>)
    requires forall i | 0 <= i < |ss| :: ss[i] in dict
    ensures |sus| == |ss|
    ensures forall i | 0 <= i < |ss| :: ss[i] in dict && sus[i] == dict[ss[i]]
  {
    if ss == [] then [] else Lookup(dict, ss[..|ss| - 1]) + [dict[ss[|ss| - 1]]]
  }

  /** The lists do not mention `r` when its turn comes, one after the other. */
  ghost predicate Listable<O>(t: Table<O>, r: ReqId, ss: seq<Sunum>) {
    ss == [] || (Listable(t, r, ss[..|ss| - 1]) && r !in Listed(AddReqs(t, r, ss[..|ss| - 1]), ss[|ss| - 1]))
  }

  /** The lists do mention `r` when its turn comes, one after the other. */
  ghost predicate Removable<O>(t: Table<O>, r: ReqId, ss: seq<Sunum>) {
    ss == []
    || var n := |ss| - 1;
       var m := DropReqs(t, r, ss[..n]).suMap;
       Removable(t, r, ss[..n]) && (ss[n] in m ==> r in m[ss[n]])
  }

  lemma {:induction false} LookupStep(dict: map<Sunum, StorageUnit>, ss: seq<Sunum>, i: nat)
    requires i < |ss|
    ensures Absent(ss[..i + 1], dict.Keys) == Absent(ss[..i], dict.Keys) + if ss[i] in dict then [] else [ss[i]]
    ensures Lookup(dict, Present(ss[..i + 1], dict.Keys))
            == Lookup(dict, Present(ss[..i], dict.Keys)) + if ss[i] in dict then [dict[ss[i]]] else []
  {
    assert ss[..i + 1][..i] == ss[..i];
    var p := Present(ss[..i], dict.Keys);
    if ss[i] in dict {
      assert (p + [ss[i]])[..|p|] == p;
    } else {
      assert p + [] == p;
    }
  }

  /** Objects that were made for these SUNUMs while the pool grew from `p0` to `p1`. */
  ghost predicate Made(os: seq<StorageUnit>, ss: seq<Sunum>, status: SuStatus, p0: set<StorageUnit>,
                       p1: set<StorageUnit>)
    reads os`status
  {
    && |os| == |ss|
    && forall i | 0 <= i < |os| ::
         os[i] in p1 && os[i] !in p0 && os[i].sunum == ss[i] && os[i].status == status
  }

  lemma {:induction false} MadeBoth(a: seq<StorageUnit>, s: seq<Sunum>, b: seq<StorageUnit>, t: seq<Sunum>,
                                    status: SuStatus, p0: set<StorageUnit>, p1: set<StorageUnit>, p2: set<StorageUnit>)
    requires Made(a, s, status, p0, p1) && Made(b, t, status, p1, p2) && p0 <= p1 <= p2
    ensures Made(a + b, s + t, status, p0, p2)
  {
  }

  lemma {:induction false} MadeWithin(a: seq<StorageUnit>, s: seq<Sunum>, status: SuStatus, p0: set<StorageUnit>,
                                      p1: set<StorageUnit>, q0: set<StorageUnit>, q1: set<StorageUnit>)
    requires Made(a, s, status, p0, p1) && q0 <= p0 && p1 <= q1
    ensures Made(a, s, status, q0, q1)
  {
  }

  /** The objects that one dispatch made: for its chunks, for storage units that no site
      provides, and for those that are online. */
  datatype Joined = Joined(made: seq<StorageUnit>, failed: seq<StorageUnit>, there: seq<StorageUnit>)

  class SuTable {
    var suDict: map<Sunum, StorageUnit>
    var suMap: map<Sunum, seq<ReqId>>
    var queue: seq<StorageUnit>
    ghost var refs: map<Sunum, int>
    ghost var pool: set<StorageUnit>

    ghost predicate Valid()
      reads this, pool`refcount
    {
      && refs.Keys == suDict.Keys
      && forall s | s in suDict :: suDict[s] in pool && suDict[s].sunum == s && suDict[s].refcount == refs[s]
    }

    /** The table as a value. */
    ghost function View(): Table<StorageUnit>
      reads this
    {
      Table(suDict, refs, suMap)
    }

    constructor ()
      ensures Valid() && View() == Empty() && queue == [] && pool == {}
    {
      suDict, suMap, queue, refs, pool := map[], map[], [], map[], {};
    }

    method GetSUs(sunums: seq<Sunum>) returns (sus: seq<StorageUnit>, missing: seq<Sunum>)
      ensures missing == Absent(sunums, suDict.Keys)
      ensures sus == Lookup(suDict, Present(sunums, suDict.Keys))
    {
      sus, missing := [], [];
      var i := 0;
      while i < |sunums|
        invariant 0 <= i <= |sunums|
        invariant missing == Absent(sunums[..i], suDict.Keys)
        invariant sus == Lookup(suDict, Present(sunums[..i], suDict.Keys))
      {
        LookupStep(suDict, sunums, i);
        if sunums[i] in suDict {
          sus := sus + [suDict[sunums[i]]];
        } else {
          missing := missing + [sunums[i]];
        }
        i := i + 1;
      }
      assert sunums[..i] == sunums;
    }

    /** One round of `__incrementRefcount`. */
    method Increment(su: StorageUnit, ghost t: Table<StorageUnit>, ghost ss: seq<Sunum>, ghost i: nat)
      requires Valid() && i < |ss| && ss[i] in suDict && suDict[ss[i]] == su
      requires View() == Counts(t, ss[..i])
      modifies `refs, su`refcount
      ensures Valid() && View() == Counts(t, ss[..i + 1])
    {
      assert su.sunum == ss[i] && ss[..i + 1][..i] == ss[..i];
      su.refcount := su.refcount + 1;
      refs := refs[ss[i] := refs[ss[i]] + 1];
    }

    /** The loop of `__incrementRefcount`. */
    method IncrementAll(sus: seq<StorageUnit>, ghost ss: seq<Sunum>)
      requires Valid() && |sus| == |ss|
      requires forall i | 0 <= i < |sus| :: ss[i] in suDict && suDict[ss[i]] == sus[i] && sus[i] in pool
      modifies `refs, pool`refcount
      ensures Valid() && View() == Counts(old(View()), ss)
    {
      ghost var t := View();
      var i := 0;
      while i < |sus|
        invariant 0 <= i <= |sus| && Valid()
        invariant View() == Counts(t, ss[..i])
      {
        Increment(sus[i], t, ss, i);
        i := i + 1;
      }
      assert ss[..i] == ss;
    }

    /** `__incrementRefcount`: every occurrence of a known SUNUM counts. */
    method IncrementRefcount(sunums: seq<Sunum>)
      requires Valid()
      modifies `refs, pool`refcount
      ensures Valid() && View() == Counts(old(View()), Present(sunums, suDict.Keys))
    {
      ghost var known := Present(sunums, suDict.Keys);
      var sus, _ := GetSUs(sunums);
      forall i | 0 <= i < |sus| ensures known[i] in suDict && suDict[known[i]] == sus[i] && sus[i] in pool {
        var k := known[i];
        assert k in known && k in suDict;
        assert suDict[k] in pool;
      }
      IncrementAll(sus, known);
    }

    /** One round of the second loop of `addSUs`. */
    method Enter(sunum: Sunum, status: SuStatus, ghost t: Table<StorageUnit>, ghost ss: seq<Sunum>,
                 ghost os: seq<StorageUnit>)
      returns (su: StorageUnit)
      requires Valid() && |os| < |ss| && ss[|os|] == sunum
      requires View() == Enters(t, ss[..|os|], os)
      modifies `pool, `suDict, `refs
      ensures fresh(su) && pool == old(pool) + {su}
      ensures Valid() && su.sunum == sunum && su.status == status
      ensures View() == Enters(t, ss[..|os| + 1], os + [su])
    {
      su := new StorageUnit(sunum, 1, status);
      assert ss[..|os| + 1][..|os|] == ss[..|os|] && (os + [su])[..|os|] == os;
      pool := pool + {su};
      suDict := suDict[sunum := su];
      refs := refs[sunum := 1];
    }

    /** The second loop of `addSUs`. */
    method EnterAll(missing: seq<Sunum>, status: SuStatus) returns (created: seq<StorageUnit>)
      requires Valid()
      modifies `pool, `suDict, `refs
      ensures old(pool) <= pool && fresh(pool - old(pool))
      ensures Made(created, missing, status, old(pool), pool)
      ensures Valid() && View() == Enters(old(View()), missing, created)
    {
      ghost var t := View();
      created := [];
      var i := 0;
      while i < |missing|
        invariant 0 <= i <= |missing| && Valid() && old(pool) <= pool && fresh(pool - old(pool))
        invariant Made(created, missing[..i], status, old(pool), pool)
        invariant View() == Enters(t, missing[..i], created)
      {
        var su := Enter(missing[i], status, t, missing, created);
        created := created + [su];
        i := i + 1;
      }
      assert missing[..i] == missing;
    }

    /** `addSUs`: known storage units get one more reference, unknown ones a new object. */
    method AddSUs(sunums: seq<Sunum>, status: SuStatus) returns (existing: seq<StorageUnit>, created: seq<StorageUnit>)
      requires Valid()
      modifies `pool, `suDict, `refs, pool`refcount
      ensures old(pool) <= pool && fresh(pool - old(pool))
      ensures Valid()
      ensures existing == Lookup(old(suDict), Present(sunums, old(suDict.Keys)))
      ensures Made(created, Absent(sunums, old(suDict.Keys)), status, old(pool), pool)
      ensures View() == Enters(Counts(old(View()), Present(sunums, old(suDict.Keys))),
                               Absent(sunums, old(suDict.Keys)), created)
    {
      var missing;
      existing, missing := GetSUs(sunums);
      IncrementRefcount(sunums);
      created := EnterAll(missing, status);
    }

    /** What `__decrementRefcount` knows of the objects that it looked up before: each is
        still in the table, or its last reference is gone. */
    ghost predicate Found(sus: seq<StorageUnit>, ss: seq<Sunum>)
      requires |sus| == |ss|
      reads this, sus
    {
      forall j | 0 <= j < |sus| ::
        sus[j].sunum == ss[j] && if ss[j] in suDict then suDict[ss[j]] == sus[j] else sus[j].refcount <= 0
    }

    /** One round of `__decrementRefcount`. */
    method Decrement(su: StorageUnit, ghost sus: seq<StorageUnit>, ghost i: nat, ghost t: Table<StorageUnit>,
                     ghost ss: seq<Sunum>)
      requires Valid() && i < |sus| == |ss| && Found(sus, ss) && sus[i] == su
      requires forall s | s in refs :: refs[s] >= 1
      requires View() == DropRefs(t, ss[..i])
      modifies `suDict, `refs, su`refcount
      ensures Valid() && Found(sus, ss) && View() == DropRefs(t, ss[..i + 1])
      ensures forall s | s in refs :: refs[s] >= 1
    {
      assert ss[..i + 1][..i] == ss[..i];
      su.refcount := su.refcount - 1;
      if su.sunum in refs {
        refs := refs[su.sunum := su.refcount];
      }
      if su.refcount == 0 {
        suDict, refs := suDict - {su.sunum}, refs - {su.sunum};
      }
    }

    /** The loop of `__decrementRefcount`. */
    method DecrementAll(sus: seq<StorageUnit>, ghost ss: seq<Sunum>)
      requires Valid() && |sus| == |ss| && Found(sus, ss) && forall s | s in refs :: refs[s] >= 1
      requires forall i | 0 <= i < |sus| :: sus[i] in pool
      modifies `suDict, `refs, pool`refcount
      ensures Valid() && View() == DropRefs(old(View()), ss)
      ensures forall s | s in refs :: refs[s] >= 1
    {
      var i := 0;
      while i < |sus|
        invariant 0 <= i <= |sus| && Valid() && Found(sus, ss)
        invariant View() == DropRefs(old(View()), ss[..i])
        invariant forall s | s in refs :: refs[s] >= 1
      {
        Decrement(sus[i], sus, i, old(View()), ss);
        i := i + 1;
      }
      assert ss[..i] == ss;
    }

    /** `removeSUs`: the last reference takes a storage unit out of the table. */
    method RemoveSUs(sunums: seq<Sunum>)
      requires Valid() && forall s | s in refs :: refs[s] >= 1
      modifies `suDict, `refs, pool`refcount
      ensures Valid() && View() == DropRefs(old(View()), Present(sunums, old(suDict.Keys)))
      ensures forall s | s in refs :: refs[s] >= 1
    {
      ghost var known := Present(sunums, suDict.Keys);
      var sus, _ := GetSUs(sunums);
      forall i | 0 <= i < |sus| ensures known[i] in suDict && suDict[known[i]] == sus[i] && sus[i].sunum == known[i] {
        var k := known[i];
        assert k in known && k in suDict;
      }
      DecrementAll(sus, known);
    }

    /** `addRequestToSUMap`: it stops, with an exception, at a list that mentions the
        request already.  The result is how far it came. */
    method AddRequestToSUMap(sunums: seq<Sunum>, r: ReqId) returns (done: nat)
      modifies `suMap
      ensures done <= |sunums| && View() == AddReqs(old(View()), r, sunums[..done])
      ensures done < |sunums| ==> r in Listed(View(), sunums[done])
      ensures Listable(old(View()), r, sunums[..done])
    {
      done := 0;
      while done < |sunums|
        invariant 0 <= done <= |sunums|
        invariant View() == AddReqs(old(View()), r, sunums[..done])
        invariant Listable(old(View()), r, sunums[..done])
      {
        var s := sunums[done];
        if s in suMap && r in suMap[s] {
          return;
        }
        assert sunums[..done + 1][..done] == sunums[..done];
        suMap := suMap[s := (if s in suMap then suMap[s] else []) + [r]];
        done := done + 1;
      }
    }

    /** `removeRequestFromSUMap`: it stops, with an exception, at a list that does not
        mention the request.  The result is how far it came. */
    method RemoveRequestFromSUMap(sus: seq<StorageUnit>, r: ReqId, ghost ss: seq<Sunum>) returns (done: nat)
      requires |sus| == |ss| && forall i | 0 <= i < |sus| :: sus[i].sunum == ss[i]
      modifies `suMap
      ensures done <= |sus| && View() == DropReqs(old(View()), r, ss[..done])
      ensures done < |sus| ==> ss[done] in suMap && r !in suMap[ss[done]]
      ensures Removable(old(View()), r, ss[..done])
    {
      done := 0;
      while done < |sus|
        invariant 0 <= done <= |sus|
        invariant View() == DropReqs(old(View()), r, ss[..done])
        invariant Removable(old(View()), r, ss[..done])
      {
        var s := sus[done].sunum;
        assert ss[..done + 1][..done] == ss[..done];
        if s in suMap {
          if r !in suMap[s] {
            return;
          }
          suMap := suMap[s := Remove(suMap[s], r)];
          if suMap[s] == [] {
            suMap := suMap - {s};
          }
        }
        done := done + 1;
      }
    }

    // -------------------------------------------------------------- dispatching

    /** `get_dispatched_sunums`: repetitions stay. */
    method GetDispatchedSunums(sunums: seq<Sunum>) returns (known: seq<Sunum>)
      ensures known == Present(sunums, suMap.Keys)
    {
      known := [];
      var i := 0;
      while i < |sunums|
        invariant 0 <= i <= |sunums| && known == Present(sunums[..i], suMap.Keys)
      {
        assert sunums[..i + 1][..i] == sunums[..i];
        if sunums[i] in suMap {
          known := known + [sunums[i]];
        }
        i := i + 1;
      }
      assert sunums[..i] == sunums;
    }

    method AddNewSUs(ss: seq<Sunum>, status: SuStatus) returns (created: seq<StorageUnit>)
      requires Valid() && forall i | 0 <= i < |ss| :: ss[i] !in suDict
      modifies `pool, `suDict, `refs, pool`refcount
      ensures old(pool) <= pool && fresh(pool - old(pool))
      ensures Made(created, ss, status, old(pool), pool)
      ensures Valid() && View() == Enters(old(View()), ss, created)
    {
      PresentNone(ss, suDict.Keys);
      var existing;
      existing, created := AddSUs(ss, status);
    }

    method AddKnownSUs(ss: seq<Sunum>) returns (existing: seq<StorageUnit>)
      requires Valid() && forall i | 0 <= i < |ss| :: ss[i] in suDict
      modifies `pool, `suDict, `refs, pool`refcount
      ensures old(pool) <= pool && fresh(pool - old(pool))
      ensures Valid() && existing == Lookup(old(suDict), ss) && View() == Counts(old(View()), ss)
    {
      PresentAll(ss, suDict.Keys);
      var created;
      existing, created := AddSUs(ss, P);
    }

    /** `addSUs` and `addRequestToSUMap` on storage units that were never dispatched. */
    method JoinNew(ss: seq<Sunum>, status: SuStatus, r: ReqId) returns (created: seq<StorageUnit>)
      requires Valid() && Agree(View()) && Distinct(ss) && forall i | 0 <= i < |ss| :: ss[i] !in suDict
      modifies `pool, `suDict, `refs, `suMap, pool`refcount
      ensures old(pool) <= pool && fresh(pool - old(pool))
      ensures Made(created, ss, status, old(pool), pool)
      ensures Valid() && View() == Join(old(View()), r, ss, created)
    {
      created := AddNewSUs(ss, status);
      var done := AddRequestToSUMap(ss, r);
      NewIsJoin(old(View()), r, ss, created, done);
    }

    /** `addSUs` and `addRequestToSUMap` on storage units that were dispatched before.  The
        request is listed for all of them unless one is repeated. */
    method JoinDispatched(ss: seq<Sunum>, r: ReqId) returns (existing: seq<StorageUnit>, done: nat)
      requires Valid() && Agree(View()) && forall i | 0 <= i < |ss| :: ss[i] in suDict && r !in Listed(View(), ss[i])
      modifies `pool, `suDict, `refs, `suMap, pool`refcount
      ensures old(pool) <= pool && fresh(pool - old(pool))
      ensures Valid() && done <= |ss| && (done == |ss| <==> Distinct(ss)) && (done == 0 ==> ss == [])
      ensures existing == Lookup(old(suDict), ss) && suDict == old(suDict)
      ensures View() == AddReqs(Counts(old(View()), ss), r, ss[..done])
    {
      existing := AddKnownSUs(ss);
      done := AddRequestToSUMap(ss, r);
      CountsFrame(old(View()), ss);
      AddReqsFrame(Counts(old(View()), ss), r, ss[..done]);
      ListedUntilRepeated(Counts(old(View()), ss), r, ss, done);
    }

    /** The exception handler of `dispatchSUs`. */
    method Rollback(objects: seq<StorageUnit>, sunums: seq<Sunum>, r: ReqId, ghost q: seq<Sunum>)
      requires Valid() && forall s | s in refs :: refs[s] >= 1
      requires |objects| == |q| && Distinct(q) && forall i | 0 <= i < |q| :: objects[i].sunum == q[i]
      requires forall i | 0 <= i < |q| :: r in Listed(View(), q[i])
      requires forall i | 0 <= i < |sunums| :: sunums[i] in suDict
      modifies `suDict, `refs, `suMap, pool`refcount
      ensures Valid() && View() == DropRefs(DropReqs(old(View()), r, q), sunums)
    {
      ghost var t := View();
      var done := RemoveRequestFromSUMap(objects, r, q);
      DropReqsFrame(t, r, q[..done]);
      NotBefore(q, done);
      assert q[..done] == q;
      PresentAll(sunums, suDict.Keys);
      RemoveSUs(sunums);
    }

    /** The request, which has joined `q`, joins more storage units that are new. */
    method JoinMore(ss: seq<Sunum>, status: SuStatus, r: ReqId, ghost t: Table<StorageUnit>, ghost q: seq<Sunum>,
                    ghost os: seq<StorageUnit>)
      returns (created: seq<StorageUnit>)
      requires Valid() && Agree(t) && Distinct(q + ss) && |os| == |q| && View() == Join(t, r, q, os)
      requires forall i | 0 <= i < |q| :: r !in Listed(t, q[i])
      requires forall i | 0 <= i < |ss| :: ss[i] !in t.dict
      modifies `pool, `suDict, `refs, `suMap, pool`refcount
      ensures old(pool) <= pool && fresh(pool - old(pool))
      ensures Made(created, ss, status, old(pool), pool)
      ensures Valid() && View() == Join(t, r, q + ss, os + created)
    {
      DistinctParts(q, ss);
      NextPortion(t, r, q, os, ss);
      created := JoinNew(ss, status, r);
      JoinInPortions(t, r, q, os, ss, created);
    }

    /** `Dispatcher.addSUChunk`, after the request has joined `q`; `full` tells whether the
        dispatcher queue has no room. */
    method AddSUChunk(chunk: seq<Sunum>, r: ReqId, full: bool, ghost t: Table<StorageUnit>, ghost q: seq<Sunum>,
                      ghost os: seq<StorageUnit>)
      returns (queued: bool, created: seq<StorageUnit>)
      requires Valid() && Agree(t) && Distinct(q + chunk) && |os| == |q| && View() == Join(t, r, q, os)
      requires forall i | 0 <= i < |q + chunk| :: (q + chunk)[i] !in t.dict
      modifies `pool, `suDict, `refs, `suMap, pool`refcount
      ensures old(pool) <= pool && fresh(pool - old(pool))
      ensures Valid() && queued == !full
      ensures full ==> View() == old(View())
      ensures queued ==> Made(created, chunk, P, old(pool), pool)
      ensures queued ==> View() == Join(t, r, q + chunk, os + created)
    {
      queued, created := !full, [];
      if queued {
        assert forall i | 0 <= i < |q| :: (q + chunk)[i] == q[i];
        assert forall i | 0 <= i < |chunk| :: (q + chunk)[|q| + i] == chunk[i];
        created := JoinMore(chunk, P, r, t, q, os);
      }
    }

    /** The loop over the chunks; the queue is full when `room` chunks were queued. */
    method QueueChunks(chunks: seq<seq<Sunum>>, r: ReqId, room: nat)
      returns (n: nat, q: seq<Sunum>, made: seq<StorageUnit>)
      requires Valid() && Agree(View()) && Distinct(Flat(chunks))
      requires forall i | 0 <= i < |Flat(chunks)| :: Flat(chunks)[i] !in suDict
      modifies `pool, `suDict, `refs, `suMap, pool`refcount
      ensures old(pool) <= pool && fresh(pool - old(pool))
      ensures Valid() && n == (if room < |chunks| then room else |chunks|) && q == Flat(chunks[..n])
      ensures Made(made, q, P, old(pool), pool) && View() == Join(old(View()), r, q, made)
    {
      ghost var t := View();
      n, q, made := 0, [], [];
      while n < |chunks|
        invariant 0 <= n <= |chunks| && n <= room && Valid() && q == Flat(chunks[..n])
        invariant Made(made, q, P, old(pool), pool) && View() == Join(t, r, q, made)
        invariant old(pool) <= pool && fresh(pool - old(pool))
      {
        FlatPrefix(chunks, n);
        PrefixDistinct(Flat(chunks), q + chunks[n]);
        DistinctParts(q, chunks[n]);
        ghost var p := pool;
        var queued, created := AddSUChunk(chunks[n], r, n == room, t, q, made);
        if !queued {
          return;
        }
        MadeBoth(made, q, created, chunks[n], P, old(pool), p, pool);
        q, made, n := q + chunks[n], made + created, n + 1;
      }
    }

    method QueueAll(chunks: seq<seq<Sunum>>, r: ReqId, room: nat)
      returns (n: nat, q: seq<Sunum>, made: seq<StorageUnit>)
      requires Valid() && Agree(View()) && Distinct(Flat(chunks))
      requires forall i | 0 <= i < |Flat(chunks)| :: Flat(chunks)[i] !in suDict
      modifies `pool, `suDict, `refs, `suMap, pool`refcount
      ensures old(pool) <= pool && fresh(pool - old(pool))
      ensures Valid() && n == (if room < |chunks| then room else |chunks|) && (n == |chunks| ==> q == Flat(chunks))
      ensures Distinct(q) && forall i | 0 <= i < |q| :: q[i] !in old(suDict)
      ensures Made(made, q, P, old(pool), pool) && View() == Join(old(View()), r, q, made)
    {
      n, q, made := QueueChunks(chunks, r, room);
      FlatWhole(chunks, n);
      PrefixDistinct(Flat(chunks), q);
    }

    /** The storage units that no site provides and those that are online already: they
        are complete at once. */
    method JoinComplete(noSite: seq<Sunum>, online: seq<Sunum>, r: ReqId, ghost t: Table<StorageUnit>,
                        ghost q: seq<Sunum>, ghost os: seq<StorageUnit>)
      returns (failed: seq<StorageUnit>, there: seq<StorageUnit>)
      requires Valid() && Agree(t) && Distinct(q + noSite + online) && |os| == |q| && View() == Join(t, r, q, os)
      requires forall i | 0 <= i < |q| :: r !in Listed(t, q[i])
      requires forall i | 0 <= i < |noSite| :: noSite[i] !in t.dict
      requires forall i | 0 <= i < |online| :: online[i] !in t.dict
      modifies `pool, `suDict, `refs, `suMap, `queue, pool`refcount
      ensures old(pool) <= pool && fresh(pool - old(pool))
      ensures Made(failed, noSite, E, old(pool), pool) && Made(there, online, C, old(pool), pool)
      ensures Valid() && View() == Join(t, r, q + noSite + online, os + failed + there)
      ensures queue == old(queue) + failed + there
    {
      DistinctParts(q + noSite, online);
      failed := JoinMore(noSite, E, r, t, q, os);
      ghost var p := pool;
      assert forall i | 0 <= i < |q + noSite| :: r !in Listed(t, (q + noSite)[i]);
      there := JoinMore(online, C, r, t, q + noSite, os + failed);
      MadeWithin(failed, noSite, E, old(pool), p, old(pool), pool);
      MadeWithin(there, online, C, p, pool, old(pool), pool);
      queue := queue + failed + there;
    }

    /** The storage units that were dispatched before join after the chunks. */
    method JoinKnown(r: ReqId, d: seq<Sunum>, ghost q: seq<Sunum>, ghost made: seq<StorageUnit>,
                     ghost t: Table<StorageUnit>)
      returns (known: seq<StorageUnit>, done: nat)
      requires Valid() && Agree(t) && Distinct(q) && |made| == |q| && View() == Join(t, r, q, made)
      requires forall i | 0 <= i < |q| :: q[i] !in t.dict
      requires forall i | 0 <= i < |d| :: d[i] in t.dict && r !in Listed(t, d[i])
      modifies `pool, `suDict, `refs, `suMap, pool`refcount
      ensures old(pool) <= pool && fresh(pool - old(pool))
      ensures Valid() && done <= |d| && (done == |d| <==> Distinct(d)) && (done == 0 ==> d == [])
      ensures known == Lookup(t.dict, d) && forall i | 0 <= i < |d| :: d[i] !in q
      ensures View() == AddReqs(Counts(Join(t, r, q, made), d), r, d[..done])
    {
      DispatchedAreOld(t, r, q, made, d);
      known, done := JoinDispatched(d, r);
      SameLookup(old(suDict), t.dict, d);
    }

    /** The rollback when the dispatcher queue was full. */
    method UndoChunks(r: ReqId, q: seq<Sunum>, made: seq<StorageUnit>, ghost t: Table<StorageUnit>)
      requires Valid() && Agree(t) && Distinct(q) && |made| == |q| && View() == Join(t, r, q, made)
      requires forall i | 0 <= i < |q| :: q[i] !in t.dict && made[i].sunum == q[i]
      modifies `suDict, `refs, `suMap, pool`refcount
      ensures Valid() && View() == t
    {
      BeforeRollback(t, r, q, made);
      Rollback(made, q, r, q);
    }

    /** The rollback when a SUNUM that was dispatched before is repeated. */
    method UndoDispatched(r: ReqId, d: seq<Sunum>, ghost done: nat, q: seq<Sunum>, made: seq<StorageUnit>,
                          ghost t: Table<StorageUnit>)
      requires Valid() && Agree(t) && Distinct(q) && |made| == |q| && 0 < done <= |d|
      requires forall i | 0 <= i < |q| :: q[i] !in t.dict && made[i].sunum == q[i]
      requires forall i | 0 <= i < |d| :: d[i] in t.dict && d[i] !in q && r !in Listed(t, d[i])
      requires View() == AddReqs(Counts(Join(t, r, q, made), d), r, d[..done])
      modifies `suDict, `refs, `suMap, pool`refcount
      ensures Valid() && View() == AddReqs(t, r, d[..done]) != t && !Agree(View())
    {
      BeforePartialRollback(t, r, q, made, d, done);
      Rollback(made, q + d, r, q);
      PartialDisagrees(t, r, d, done);
    }

    /** The remaining storage units join after those that were dispatched before. */
    method JoinOthers(r: ReqId, d: seq<Sunum>, noSite: seq<Sunum>, online: seq<Sunum>, q: seq<Sunum>,
                      made: seq<StorageUnit>, known: seq<StorageUnit>, ghost t: Table<StorageUnit>)
      returns (failed: seq<StorageUnit>, there: seq<StorageUnit>)
      requires Valid() && Partition(t, r, q, d, noSite, online) && Distinct(d) && |made| == |q| && |known| == |d|
      requires View() == AddReqs(Counts(Join(t, r, q, made), d), r, d[..|d|])
      modifies `pool, `suDict, `refs, `suMap, `queue, pool`refcount
      ensures old(pool) <= pool && fresh(pool - old(pool))
      ensures Valid() && JoinedAll(t, View(), r, q, d, noSite, online, made, known, failed, there) && Agree(View())
      ensures Made(failed, noSite, E, old(pool), pool) && Made(there, online, C, old(pool), pool)
      ensures queue == old(queue) + failed + there
    {
      KnownAreJoined(t, r, q, made, d, known, noSite, online);
      failed, there := JoinComplete(noSite, online, r, t, q + d, made + known);
      AllAgree(t, r, q, d, noSite, online, made + known + failed + there);
    }

    /** The request joined each of its storage units: `q` in chunks, `d` that were
        dispatched before, `noSite` and `online`. */
    ghost predicate Succeeded(t: Table<StorageUnit>, r: ReqId, q: seq<Sunum>, d: seq<Sunum>, noSite: seq<Sunum>,
                              online: seq<Sunum>, j: Joined, p0: set<StorageUnit>)
      reads this, j.made`status, j.failed`status, j.there`status
    {
      && (forall i | 0 <= i < |d| :: d[i] in t.dict)
      && JoinedAll(t, View(), r, q, d, noSite, online, j.made, Lookup(t.dict, d), j.failed, j.there)
      && Made(j.made, q, P, p0, pool) && Made(j.failed, noSite, E, p0, pool) && Made(j.there, online, C, p0, pool)
    }

    /** A SUNUM that was dispatched before is repeated in `d`: the request stays listed
        where it was listed before the exception. */
    ghost predicate Spoiled(t: Table<StorageUnit>, r: ReqId, d: seq<Sunum>, listed: nat)
      reads this
    {
      0 < listed < |d| && View() == AddReqs(t, r, d[..listed]) != t && !Agree(View())
    }

    /** `dispatchSUs` after all chunks were queued: their storage units are `q`, and `d`
        are those that were dispatched before. */
    method DispatchRest(r: ReqId, d: seq<Sunum>, noSite: seq<Sunum>, online: seq<Sunum>, q: seq<Sunum>,
                        made: seq<StorageUnit>, ghost t: Table<StorageUnit>, ghost p0: set<StorageUnit>)
      returns (ok: bool, j: Joined, ghost listed: nat)
      requires Made(made, q, P, p0, pool) && p0 <= pool
      requires Valid() && Partition(t, r, q, d, noSite, online) && View() == Join(t, r, q, made)
      modifies `pool, `suDict, `refs, `suMap, `queue, pool`refcount
      ensures old(pool) <= pool && fresh(pool - old(pool)) && Valid() && (ok <==> Distinct(d))
      ensures ok ==> Succeeded(t, r, q, d, noSite, online, j, p0) && Agree(View())
      ensures queue == if ok then old(queue) + j.failed + j.there else old(queue)
      ensures !ok ==> Spoiled(t, r, d, listed)
    {
      var known, done := JoinKnown(r, d, q, made, t);
      j, listed := Joined(made, known, known), done;
      ok := done == |d|;
      if ok {
        ghost var p := pool;
        var failed, there := JoinOthers(r, d, noSite, online, q, made, known, t);
        j := Joined(made, failed, there);
        MadeWithin(made, q, P, p0, old(pool), p0, pool);
        MadeWithin(failed, noSite, E, p, pool, p0, pool);
        MadeWithin(there, online, C, p, pool, p0, pool);
      } else {
        UndoDispatched(r, d, done, q, made, t);
      }
    }

    /** `dispatchSUs`.  `raw` is the request's list of SUNUMs; those that no list mentions
        yet are split into `chunks` for the Dispatcher, `noSite` and `online`.  The
        dispatcher queue is full when `room` of the chunks were queued.

        It succeeds unless the queue is full or a SUNUM that was dispatched before is
        repeated.  A full queue leaves no trace in the table; a repetition spoils it. */
    method DispatchSUs(r: ReqId, raw: seq<Sunum>, chunks: seq<seq<Sunum>>, noSite: seq<Sunum>, online: seq<Sunum>,
                       room: nat)
      returns (ok: bool, known: seq<Sunum>, j: Joined, ghost listed: nat)
      requires Valid() && Agree(View()) && forall s | s in raw :: r !in Listed(View(), s)
      requires Distinct(Flat(chunks) + noSite + online)
      requires forall s :: s in Flat(chunks) + noSite + online <==> s in raw && s !in suMap
      modifies `pool, `suDict, `refs, `suMap, `queue, pool`refcount
      ensures fresh(pool - old(pool)) && Valid()
      ensures known == Present(raw, old(suMap.Keys))
      ensures ok <==> room >= |chunks| && Distinct(known)
      ensures ok ==> Succeeded(old(View()), r, Flat(chunks), known, noSite, online, j, old(pool))
      ensures queue == if ok then old(queue) + j.failed + j.there else old(queue)
      ensures room < |chunks| ==> View() == old(View())
      ensures !ok && room >= |chunks| ==> Spoiled(old(View()), r, known, listed)
      ensures Agree(View()) <==> room < |chunks| || Distinct(known)
    {
      ghost var t, p0 := View(), pool;
      known := GetDispatchedSunums(raw);
      MakePartition(t, r, raw, Flat(chunks), known, noSite, online);
      var n, q, made := QueueAll(chunks, r, room);
      if n < |chunks| {
        ok, j, listed := false, Joined(made, made, made), 0;
        UndoChunks(r, q, made, t);
      } else {
        ok, j, listed := DispatchRest(r, known, noSite, online, q, made, t, p0);
      }
    }

    /** The references of a request that was taken off all lists are dropped. */
    method DropListed(r: ReqId, sus: seq<StorageUnit>, ghost ss: seq<Sunum>, ghost t: Table<StorageUnit>)
      requires Valid() && Agree(t) && Distinct(ss) && |sus| == |ss| && View() == DropReqs(t, r, ss)
      requires forall i | 0 <= i < |sus| :: sus[i].sunum == ss[i] && ss[i] in t.dict && r in Listed(t, ss[i])
      modifies `suDict, `refs, pool`refcount
      ensures Valid() && View() == Release(t, r, ss) && Agree(View())
    {
      DropReqsFrame(t, r, ss);
      var names := Names(sus, ss);
      PresentAll(names, suDict.Keys);
      RemoveSUs(names);
      DropIsRelease(t, r, ss);
      ReleaseAgrees(t, r, ss);
    }

    /** The storage units of a request that the table holds. */
    method Held(sunums: seq<Sunum>) returns (sus: seq<StorageUnit>)
      requires Valid()
      ensures var known := Present(sunums, suDict.Keys);
              |sus| == |known| && forall i | 0 <= i < |sus| :: sus[i].sunum == known[i]
    {
      ghost var known := Present(sunums, suDict.Keys);
      var missing;
      sus, missing := GetSUs(sunums);
      forall i | 0 <= i < |sus| ensures sus[i].sunum == known[i] {
        var k := known[i];
        assert k in known && k in suDict;
      }
    }

    /** A request is taken off its storage units, when it has completed and when its row
        was deleted.  It fails, with an exception, at a list that does not mention it; what
        it did before that stays. */
    method ReleaseRequest(r: ReqId, sunums: seq<Sunum>) returns (ok: bool)
      requires Valid() && Agree(View()) && Distinct(sunums)
      modifies `suDict, `refs, `suMap, pool`refcount
      ensures ok <==> forall s | s in sunums && s in old(suDict) :: r in old(suMap)[s]
      ensures ok ==> Valid() && View() == Release(old(View()), r, sunums) && Agree(View())
      ensures !ok ==> suDict == old(suDict)
    {
      ghost var t := View();
      ghost var known := Present(sunums, suDict.Keys);
      ReleasePresent(t, r, sunums);
      var sus := Held(sunums);
      var done := RemoveRequestFromSUMap(sus, r, known);
      RemovedFromAll(t, r, sunums, known, done);
      ok := done == |sus|;
      if ok {
        assert known[..done] == known;
        DropListed(r, sus, known, t);
      }
    }

    method Names(sus: seq<StorageUnit>, ghost ss: seq<Sunum>) returns (names: seq<Sunum>)
      requires |sus| == |ss| && forall i | 0 <= i < |sus| :: sus[i].sunum == ss[i]
      ensures names == ss
    {
      names := seq(|sus|, i requires 0 <= i < |sus| => sus[i].sunum);
    }
  }

  lemma {:induction false} RemovableIsListed<O>(t: Table<O>, r: ReqId, ss: seq<Sunum>)
    requires Distinct(ss) && Removable(t, r, ss) && forall i | 0 <= i < |ss| :: ss[i] in t.suMap
    ensures forall s | s in ss :: r in t.suMap[s]
  {
    if ss != [] {
      var n := |ss| - 1;
      DistinctLast(ss);
      RemovableIsListed(t, r, ss[..n]);
      DropReqsFrame(t, r, ss[..n]);
      assert ss == ss[..n] + [ss[n]];
      NotBefore(ss, n);
    }
  }

  lemma {:induction false} RemovedUntilMissing<O>(t: Table<O>, r: ReqId, ss: seq<Sunum>, done: nat)
    requires Agree(t) && Distinct(ss) && done <= |ss| && forall i | 0 <= i < |ss| :: ss[i] in t.dict
    requires Removable(t, r, ss[..done])
    requires done < |ss| ==>
               var m := DropReqs(t, r, ss[..done]).suMap; ss[done] in m && r !in m[ss[done]]
    ensures done == |ss| ==> forall s | s in ss :: r in t.suMap[s]
    ensures done < |ss| ==> r !in t.suMap[ss[done]]
  {
    DropReqsFrame(t, r, ss[..done]);
    NotBefore(ss, done);
    if done == |ss| {
      assert ss[..done] == ss;
      RemovableIsListed(t, r, ss);
    } else {
      var s := ss[done];
      assert s !in ss[..done] && s in t.suMap;
      assert DropReqs(t, r, ss[..done]).suMap[s] == t.suMap[s];
    }
  }

  /** The same, for the storage units of the request that the table holds. */
  lemma {:induction false} RemovedFromAll<O>(t: Table<O>, r: ReqId, ss: seq<Sunum>, known: seq<Sunum>, done: nat)
    requires Agree(t) && Distinct(known) && known == Present(ss, t.dict.Keys) && done <= |known|
    requires Removable(t, r, known[..done])
    requires done < |known| ==>
               var m := DropReqs(t, r, known[..done]).suMap; known[done] in m && r !in m[known[done]]
    ensures done == |known| <==> forall s | s in ss && s in t.dict :: r in t.suMap[s]
    ensures done == |known| ==> forall i | 0 <= i < |known| :: known[i] in t.dict && r in Listed(t, known[i])
  {
    forall i | 0 <= i < |known| ensures known[i] in t.dict {
      assert known[i] in known;
    }
    RemovedUntilMissing(t, r, known, done);
    if done < |known| {
      var s := known[done];
      assert s in known && s in ss && s in t.dict && r !in t.suMap[s];
    } else {
      forall i | 0 <= i < |known| ensures r in Listed(t, known[i]) {
        assert known[i] in known;
      }
    }
  }

  /** The request joined each of its storage units; the lists of objects name those that
      the table has for them now. */
  ghost predicate JoinedAll<O>(t: Table<O>, t1: Table<O>, r: ReqId, q: seq<Sunum>, d: seq<Sunum>, noSite: seq<Sunum>,
                               online: seq<Sunum>, made: seq<O>, existing: seq<O>, failed: seq<O>, there: seq<O>)
  {
    && |made| == |q| && |existing| == |d| && |failed| == |noSite| && |there| == |online|
    && Distinct(q + d + noSite + online)
    && t1 == Join(t, r, q + d + noSite + online, made + existing + failed + there)
  }

  /** A request's storage units: `d` were dispatched before, the others are new. */
  ghost predicate Partition<O>(t: Table<O>, r: ReqId, q: seq<Sunum>, d: seq<Sunum>, noSite: seq<Sunum>,
                               online: seq<Sunum>)
  {
    && Agree(t) && Distinct(q) && Distinct(q + noSite + online)
    && (forall i | 0 <= i < |q| :: q[i] !in t.dict)
    && (forall i | 0 <= i < |noSite + online| :: (noSite + online)[i] !in t.dict)
    && (forall i | 0 <= i < |d| :: d[i] in t.dict && r !in Listed(t, d[i]))
  }

  lemma {:induction false} MakePartition<O>(t: Table<O>, r: ReqId, raw: seq<Sunum>, q: seq<Sunum>, d: seq<Sunum>,
                                            noSite: seq<Sunum>, online: seq<Sunum>)
    requires Agree(t) && (forall s | s in raw :: r !in Listed(t, s)) && d == Present(raw, t.suMap.Keys)
    requires Distinct(q + noSite + online)
    requires forall s :: s in q + noSite + online <==> s in raw && s !in t.suMap
    ensures Partition(t, r, q, d, noSite, online)
  {
    SplitNew(q, noSite, online, raw, t.suMap.Keys);
    forall i | 0 <= i < |d| ensures d[i] in t.dict && r !in Listed(t, d[i]) {
      assert d[i] in d;
    }
  }

  /** What `JoinComplete` needs. */
  lemma {:induction false} KnownAreJoined<O>(t: Table<O>, r: ReqId, q: seq<Sunum>, os: seq<O>, d: seq<Sunum>,
                                             ex: seq<O>,
                                             noSite: seq<Sunum>, online: seq<Sunum>)
    requires Partition(t, r, q, d, noSite, online) && |os| == |q| && |ex| == |d| && Distinct(d)
    ensures AddReqs(Counts(Join(t, r, q, os), d), r, d[..|d|]) == Join(t, r, q + d, os + ex)
    ensures Distinct(q + d + noSite + online) && forall i | 0 <= i < |q + d| :: r !in Listed(t, (q + d)[i])
    ensures forall i | 0 <= i < |noSite| :: noSite[i] !in t.dict
    ensures forall i | 0 <= i < |online| :: online[i] !in t.dict
  {
    BothPortions(t, r, q, os, d, ex, |d|);
    DistinctWithOld(t, q, d, noSite, online);
  }

  lemma {:induction false} AllAgree<O>(t: Table<O>, r: ReqId, q: seq<Sunum>, d: seq<Sunum>, noSite: seq<Sunum>,
                                       online: seq<Sunum>, os: seq<O>)
    requires Partition(t, r, q, d, noSite, online) && Distinct(q + d + noSite + online)
    requires |os| == |q + d + noSite + online|
    ensures Agree(Join(t, r, q + d + noSite + online, os))
  {
    forall i | 0 <= i < |q + d| ensures r !in Listed(t, (q + d)[i]) {
      if i >= |q| {
        assert (q + d)[i] == d[i - |q|];
      }
    }
    NothingListed(t, r, q + d, noSite + online);
    assert q + d + (noSite + online) == q + d + noSite + online;
    JoinAgrees(t, r, q + d + noSite + online, os);
  }

  lemma {:induction false} NothingListed<O>(t: Table<O>, r: ReqId, a: seq<Sunum>, b: seq<Sunum>)
    requires Agree(t) && forall i | 0 <= i < |a| :: r !in Listed(t, a[i])
    requires forall i | 0 <= i < |b| :: b[i] !in t.dict
    ensures forall s | s in a + b :: r !in Listed(t, s)
  {
  }

  lemma {:induction false} SplitNew(a: seq<Sunum>, b: seq<Sunum>, c: seq<Sunum>, raw: seq<Sunum>, keys: set<Sunum>)
    requires Distinct(a + b + c) && forall s :: s in a + b + c <==> s in raw && s !in keys
    ensures Distinct(a) && forall i | 0 <= i < |a| :: a[i] !in keys
    ensures forall i | 0 <= i < |b + c| :: (b + c)[i] !in keys
  {
    DistinctParts(a + b, c);
    DistinctParts(a, b);
    forall i | 0 <= i < |a| ensures a[i] !in keys {
      assert (a + b + c)[i] == a[i];
      assert a[i] in a + b + c;
    }
    forall i | 0 <= i < |b + c| ensures (b + c)[i] !in keys {
      assert (a + b + c)[|a| + i] == (b + c)[i];
      assert (b + c)[i] in a + b + c;
    }
  }

  lemma {:induction false} SameLookup(d: map<Sunum, StorageUnit>, e: map<Sunum, StorageUnit>, ss: seq<Sunum>)
    requires forall i | 0 <= i < |ss| :: ss[i] in d && ss[i] in e && d[ss[i]] == e[ss[i]]
    ensures Lookup(d, ss) == Lookup(e, ss)
  {
  }

  lemma {:induction false} DistinctWithOld<O>(t: Table<O>, q: seq<Sunum>, d: seq<Sunum>, b: seq<Sunum>, c: seq<Sunum>)
    requires Distinct(q + b + c) && Distinct(q + d) && forall i | 0 <= i < |d| :: d[i] in t.dict
    requires forall i | 0 <= i < |b + c| :: (b + c)[i] !in t.dict
    ensures Distinct(q + d + b + c)
    ensures forall i | 0 <= i < |b| :: b[i] !in t.dict
    ensures forall i | 0 <= i < |c| :: c[i] !in t.dict
  {
    forall i | 0 <= i < |b| ensures b[i] !in t.dict {
      assert (b + c)[i] == b[i];
    }
    forall i | 0 <= i < |c| ensures c[i] !in t.dict {
      assert (b + c)[|b| + i] == c[i];
    }
    DistinctParts(q + b, c);
    DistinctParts(q, b);
    DistinctTogether(q + d, b);
    DistinctTogether(q + d + b, c);
  }

  lemma {:induction false} DistinctTogether<T>(a: seq<T>, b: seq<T>)
    requires Distinct(a) && Distinct(b) && forall x | x in a :: x !in b
    ensures Distinct(a + b)
  {
    forall x | x in a + b ensures multiset(a + b)[x] == 1 {
      assert x in a ==> x !in multiset(b);
      assert x in b ==> x !in multiset(a);
    }
  }

  /** What `Rollback` needs, and what it achieves, after `q` was joined. */
  lemma {:induction false} BeforeRollback<O>(t: Table<O>, r: ReqId, q: seq<Sunum>, os: seq<O>)
    requires Agree(t) && Distinct(q) && |os| == |q| && forall i | 0 <= i < |q| :: r !in Listed(t, q[i])
    ensures forall s | s in Join(t, r, q, os).refs :: Join(t, r, q, os).refs[s] >= 1
    ensures forall i | 0 <= i < |q| :: q[i] in Join(t, r, q, os).dict && r in Listed(Join(t, r, q, os), q[i])
    ensures DropRefs(DropReqs(Join(t, r, q, os), r, q), q) == t
  {
    JoinAgrees(t, r, q, os);
    JoinIs(t, r, q, os);
    DropUndoesJoin(t, r, q, os);
    forall i | 0 <= i < |q|
      ensures q[i] in Join(t, r, q, os).dict && r in Listed(Join(t, r, q, os), q[i])
    {
      assert JoinedAt(t, Join(t, r, q, os), r, q[i], os[i]);
    }
  }

  /** The same after references on `d` were counted and a part of it was listed. */
  lemma {:induction false} BeforePartialRollback<O>(t: Table<O>, r: ReqId, q: seq<Sunum>, os: seq<O>, d: seq<Sunum>,
                                                    k: nat)
    requires Agree(t) && Distinct(q) && |os| == |q| && forall i | 0 <= i < |q| :: r !in Listed(t, q[i])
    requires k <= |d| && forall i | 0 <= i < |d| :: d[i] in t.dict && d[i] !in q
    ensures var x := AddReqs(Counts(Join(t, r, q, os), d), r, d[..k]);
            && (forall s | s in x.refs :: x.refs[s] >= 1)
            && (forall i | 0 <= i < |q| :: r in Listed(x, q[i]))
            && (forall i | 0 <= i < |q + d| :: (q + d)[i] in x.dict)
            && DropRefs(DropReqs(x, r, q), q + d) == AddReqs(t, r, d[..k])
  {
    var j := Join(t, r, q, os);
    BeforeRollback(t, r, q, os);
    CountsFrame(j, d);
    CountsAmount(j, d);
    AddReqsFrame(Counts(j, d), r, d[..k]);
    JoinIs(t, r, q, os);
    forall i | 0 <= i < |d| ensures d[i] in j.dict {
      assert SameAt(t, j, d[i]);
    }
    forall s | s in q ensures s !in d && s !in d[..k] {
      assert s in d[..k] ==> s in d;
    }
    PartialRollback(t, r, q, os, d, d[..k]);
  }

  /** Storage units that were dispatched before are not touched by the chunks. */
  lemma {:induction false} DispatchedAreOld<O>(t: Table<O>, r: ReqId, q: seq<Sunum>, os: seq<O>, d: seq<Sunum>)
    requires Agree(t) && Distinct(q) && |os| == |q| && forall i | 0 <= i < |q| :: q[i] !in t.dict
    requires forall i | 0 <= i < |d| :: d[i] in t.dict && r !in Listed(t, d[i])
    ensures Agree(Join(t, r, q, os)) && forall i | 0 <= i < |d| :: d[i] !in q
    ensures forall i | 0 <= i < |d| :: d[i] in Join(t, r, q, os).dict && r !in Listed(Join(t, r, q, os), d[i])
    ensures forall i | 0 <= i < |d| :: Join(t, r, q, os).dict[d[i]] == t.dict[d[i]]
  {
    NextPortion(t, r, q, os, d);
  }

  lemma {:induction false} BothPortions<O>(t: Table<O>, r: ReqId, q: seq<Sunum>, os: seq<O>, d: seq<Sunum>,
                                           ex: seq<O>, k: nat)
    requires Agree(t) && Distinct(q) && |os| == |q| && forall i | 0 <= i < |q| :: q[i] !in t.dict
    requires Distinct(d) && |ex| == |d| == k && forall i | 0 <= i < |d| :: d[i] in t.dict && r !in Listed(t, d[i])
    ensures AddReqs(Counts(Join(t, r, q, os), d), r, d[..k]) == Join(t, r, q + d, os + ex)
    ensures Distinct(q + d) && forall i | 0 <= i < |q + d| :: r !in Listed(t, (q + d)[i])
  {
    DispatchedAreOld(t, r, q, os, d);
    assert d[..k] == d;
    DistinctTogether(q, d);
    CountIsJoin(Join(t, r, q, os), r, d, ex);
    JoinInPortions(t, r, q, os, d, ex);
  }

  lemma {:induction false} FlatWhole(chunks: seq<seq<Sunum>>, n: nat)
    requires n <= |chunks|
    ensures n == |chunks| ==> Flat(chunks[..n]) == Flat(chunks)
    ensures Flat(chunks[..n]) <= Flat(chunks)
  {
    if n == |chunks| {
      assert chunks[..n] == chunks;
    } else {
      FlatPrefix(chunks, n);
    }
  }

  /** Chunks, one behind the other. */
  function Flat(chunks: seq<seq<Sunum>>): seq<Sunum> {
    if chunks == [] then [] else Flat(chunks[..|chunks| - 1]) + chunks[|chunks| - 1]
  }

  lemma {:induction false} FlatPrefix(chunks: seq<seq<Sunum>>, n: nat)
    requires n < |chunks|
    ensures Flat(chunks[..n + 1]) == Flat(chunks[..n]) + chunks[n]
    ensures Flat(chunks[..n + 1]) <= Flat(chunks)
    decreases |chunks| - n
  {
    assert chunks[..n + 1][..n] == chunks[..n];
    if n + 1 == |chunks| {
      assert chunks[..n + 1] == chunks;
    } else {
      FlatPrefix(chunks, n + 1);
    }
  }

  lemma {:induction false} DistinctParts<T>(a: seq<T>, b: seq<T>)
    requires Distinct(a + b)
    ensures Distinct(a) && Distinct(b) && forall x | x in a :: x !in b
  {
    var c := a + b;
    forall x | x in a ensures multiset(a)[x] == 1 && x !in b {
      assert x in c && x in multiset(a);
      assert x in b ==> x in multiset(b);
    }
    forall x | x in b ensures multiset(b)[x] == 1 {
      assert x in c && x in multiset(b);
    }
  }

  lemma {:induction false} PrefixDistinct<T>(l: seq<T>, p: seq<T>)
    requires Distinct(l) && p <= l
    ensures Distinct(p) && forall i | 0 <= i < |p| :: p[i] == l[i]
  {
    assert l == p + l[|p|..];
    DistinctParts(p, l[|p|..]);
  }

  /** After some storage units were joined, the others are as before. */
  lemma {:induction false} NextPortion<O>(t: Table<O>, r: ReqId, q: seq<Sunum>, os: seq<O>, more: seq<Sunum>)
    requires Agree(t) && |os| == |q| && Distinct(q) && forall i | 0 <= i < |q| :: r !in Listed(t, q[i])
    requires forall s | s in q :: s !in more
    ensures Agree(Join(t, r, q, os))
    ensures forall i | 0 <= i < |more| :: SameAt(t, Join(t, r, q, os), more[i])
  {
    JoinAgrees(t, r, q, os);
    JoinIs(t, r, q, os);
  }

  /** Nothing stops the listing of storage units that are new to the request. */
  lemma {:induction false} NeverListed<O>(u: Table<O>, r: ReqId, ss: seq<Sunum>, done: nat)
    requires Distinct(ss) && done <= |ss| && forall i | 0 <= i < |ss| :: r !in Listed(u, ss[i])
    requires done < |ss| ==> r in Listed(AddReqs(u, r, ss[..done]), ss[done])
    ensures done == |ss|
  {
    AddReqsFrame(u, r, ss[..done]);
    NotBefore(ss, done);
  }

  lemma {:induction false} NotBefore<T>(l: seq<T>, n: nat)
    requires Distinct(l)
    ensures n < |l| ==> l[n] !in l[..n]
    ensures n <= |l| ==> Distinct(l[..n])
  {
    if n < |l| {
      assert l == l[..n] + l[n..];
      DistinctParts(l[..n], l[n..]);
      assert l[n] == l[n..][0];
    } else if n == |l| {
      assert l[..n] == l;
    }
  }

  lemma {:induction false} NewIsJoin<O>(t: Table<O>, r: ReqId, ss: seq<Sunum>, os: seq<O>, done: nat)
    requires Agree(t) && Distinct(ss) && |os| == |ss| && forall i | 0 <= i < |ss| :: ss[i] !in t.dict
    requires done <= |ss|
    requires done < |ss| ==> r in Listed(AddReqs(Enters(t, ss, os), r, ss[..done]), ss[done])
    ensures AddReqs(Enters(t, ss, os), r, ss[..done]) == Join(t, r, ss, os)
  {
    EntersFrame(t, ss, os);
    NeverListed(Enters(t, ss, os), r, ss, done);
    assert ss[..done] == ss;
    EnterIsJoin(t, r, ss, os);
  }

  lemma {:induction false} ListableIsDistinct<O>(u: Table<O>, r: ReqId, ss: seq<Sunum>)
    requires Listable(u, r, ss)
    ensures Distinct(ss)
  {
    if ss != [] {
      var n := |ss| - 1;
      DistinctLast(ss);
      ListableIsDistinct(u, r, ss[..n]);
      AddReqsFrame(u, r, ss[..n]);
      DistinctAppend(ss[..n], ss[n]);
      assert ss == ss[..n] + [ss[n]];
    }
  }

  /** Listing stops at the first repetition. */
  lemma {:induction false} ListedUntilRepeated<O>(u: Table<O>, r: ReqId, ss: seq<Sunum>, done: nat)
    requires done <= |ss| && forall i | 0 <= i < |ss| :: r !in Listed(u, ss[i])
    requires done < |ss| ==> r in Listed(AddReqs(u, r, ss[..done]), ss[done])
    requires Listable(u, r, ss[..done])
    ensures done == |ss| <==> Distinct(ss)
    ensures done == 0 ==> ss == []
  {
    ListableIsDistinct(u, r, ss[..done]);
    AddReqsFrame(u, r, ss[..done]);
    if done == |ss| {
      assert ss[..done] == ss;
    } else {
      assert ss[done] in ss[..done];
      if Distinct(ss) {
        NotBefore(ss, done);
      }
    }
  }

  /** The table has an object of this status for a storage unit that is new to it, and the
      request alone waits for it. */
  ghost predicate NewlyListed(u: SuTable, r: ReqId, s: Sunum, status: SuStatus)
    reads u, u.suDict.Values
  {
    && s in u.suDict && u.suDict[s].status == status && u.suDict[s].sunum == s && u.suDict[s].refcount == 1
    && s in u.suMap && u.suMap[s] == [r]
  }

  lemma {:induction false} PortionJoined<O>(t: Table<O>, u: Table<O>, r: ReqId, a: seq<Sunum>, x: seq<O>, b: seq<Sunum>,
                                            y: seq<O>, c: seq<Sunum>, z: seq<O>)
    requires |a| == |x| && |b| == |y| && |c| == |z|
    requires forall k | 0 <= k < |a + b + c| :: JoinedAt(t, u, r, (a + b + c)[k], (x + y + z)[k])
    ensures forall k | 0 <= k < |a + b| :: JoinedAt(t, u, r, (a + b)[k], (x + y)[k])
    ensures forall i | 0 <= i < |c| :: JoinedAt(t, u, r, c[i], z[i])
  {
    forall k | 0 <= k < |a + b| ensures JoinedAt(t, u, r, (a + b)[k], (x + y)[k]) {
      assert (a + b + c)[k] == (a + b)[k] && (x + y + z)[k] == (x + y)[k];
    }
    forall i | 0 <= i < |c| ensures JoinedAt(t, u, r, c[i], z[i]) {
      assert (a + b + c)[|a + b| + i] == c[i] && (x + y + z)[|a + b| + i] == z[i];
    }
  }

  lemma {:induction false} FourPortions<O>(t: Table<O>, u: Table<O>, r: ReqId, a: seq<Sunum>, w: seq<O>, b: seq<Sunum>,
                                           x: seq<O>, c: seq<Sunum>, y: seq<O>, d: seq<Sunum>, z: seq<O>)
    requires |a| == |w| && |b| == |x| && |c| == |y| && |d| == |z|
    requires forall k | 0 <= k < |a + b + c + d| :: JoinedAt(t, u, r, (a + b + c + d)[k], (w + x + y + z)[k])
    ensures forall i | 0 <= i < |a| :: JoinedAt(t, u, r, a[i], w[i])
    ensures forall i | 0 <= i < |b| :: JoinedAt(t, u, r, b[i], x[i])
    ensures forall i | 0 <= i < |c| :: JoinedAt(t, u, r, c[i], y[i])
    ensures forall i | 0 <= i < |d| :: JoinedAt(t, u, r, d[i], z[i])
  {
    PortionJoined(t, u, r, a + b, w + x, c, y, d, z);
    PortionJoined(t, u, r, a, w, b, x, c, y);
    forall i | 0 <= i < |b| ensures JoinedAt(t, u, r, b[i], x[i]) {
      assert (a + b)[|a| + i] == b[i] && (w + x)[|a| + i] == x[i];
    }
    forall i | 0 <= i < |a| ensures JoinedAt(t, u, r, a[i], w[i]) {
      assert (a + b)[i] == a[i] && (w + x)[i] == w[i];
    }
  }

  lemma {:induction false} NewOnesListed(u: SuTable, t: Table<StorageUnit>, r: ReqId, ss: seq<Sunum>,
                                         os: seq<StorageUnit>,
                                         status: SuStatus, p0: set<StorageUnit>)
    requires u.Valid() && Agree(t) && Made(os, ss, status, p0, u.pool) && forall i | 0 <= i < |ss| :: ss[i] !in t.dict
    requires forall i | 0 <= i < |ss| :: JoinedAt(t, u.View(), r, ss[i], os[i])
    ensures forall i | 0 <= i < |ss| :: NewlyListed(u, r, ss[i], status)
  {
    forall i | 0 <= i < |ss| ensures NewlyListed(u, r, ss[i], status) {
      assert JoinedAt(t, u.View(), r, ss[i], os[i]) && Listed(t, ss[i]) == [];
      assert Listed(t, ss[i]) + [r] == [r];
    }
  }

  /** What a successful dispatch means for each storage unit of the request: one in a chunk
      is P, one without a site E, one that is online C, each with one reference, for the
      request alone; one that was dispatched before keeps its object and has one more
      reference, and the request is last on its list; all others are as before. */
  lemma {:induction false} SuccessMeans(u: SuTable, t: Table<StorageUnit>, r: ReqId, q: seq<Sunum>, d: seq<Sunum>,
                                        noSite: seq<Sunum>, online: seq<Sunum>, j: Joined, p0: set<StorageUnit>)
    requires u.Valid() && Agree(t) && Partition(t, r, q, d, noSite, online)
    requires u.Succeeded(t, r, q, d, noSite, online, j, p0)
    ensures forall i | 0 <= i < |q| :: NewlyListed(u, r, q[i], P)
    ensures forall i | 0 <= i < |noSite| :: NewlyListed(u, r, noSite[i], E)
    ensures forall i | 0 <= i < |online| :: NewlyListed(u, r, online[i], C)
    ensures forall i | 0 <= i < |d| ::
              && d[i] in t.dict && d[i] in u.suDict && u.suDict[d[i]] == t.dict[d[i]]
              && d[i] in t.refs && u.suDict[d[i]].refcount == t.refs[d[i]] + 1
              && d[i] in t.suMap && d[i] in u.suMap && u.suMap[d[i]] == t.suMap[d[i]] + [r]
    ensures forall s | s !in q + d + noSite + online :: SameAt(t, u.View(), s)
  {
    var e := Lookup(t.dict, d);
    JoinIs(t, r, q + d + noSite + online, j.made + e + j.failed + j.there);
    FourPortions(t, u.View(), r, q, j.made, d, e, noSite, j.failed, online, j.there);
    forall i | 0 <= i < |noSite| ensures noSite[i] !in t.dict {
      assert (noSite + online)[i] == noSite[i];
    }
    forall i | 0 <= i < |online| ensures online[i] !in t.dict {
      assert (noSite + online)[|noSite| + i] == online[i];
    }
    NewOnesListed(u, t, r, q, j.made, P, p0);
    NewOnesListed(u, t, r, noSite, j.failed, E, p0);
    NewOnesListed(u, t, r, online, j.there, C, p0);
  }

  /** Storage unit 7 was dispatched. */
  ghost predicate SevenListed<O>(t: Table<O>) {
    Agree(t) && 7 in t.suMap && t.suMap[7] == [1]
  }

  lemma {:induction false} SevenFlat()
    ensures Flat([[7]]) == [7] && Flat([]) == [] && Distinct<Sunum>([7]) && Distinct<Sunum>([])
  {
    var c: seq<seq<Sunum>> := [[7]];
    assert c[..0] == [] && Flat(c[..0]) == [];
    assert [] + [7] == [7];
  }

  lemma {:induction false} SevenJoins<O>(t: Table<O>, u: Table<O>, made: seq<O>)
    requires t == Empty() && |made| == 1 && u == Join(t, 1, [7], made) && Agree(u)
    ensures SevenListed(u)
  {
    var ss: seq<Sunum> := [7];
    SevenFlat();
    JoinIs(t, 1, ss, made);
    assert JoinedAt(t, u, 1, ss[0], made[0]);
    assert Listed(u, 7) == [1];
  }

  lemma {:induction false} SevenTwice(keys: set<Sunum>)
    requires 7 in keys
    ensures Present([7, 7], keys) == [7, 7] && !Distinct<Sunum>([7, 7])
  {
    var l: seq<Sunum> := [7, 7];
    assert l[..1] == [7] && l[..1][..0] == [];
    assert Present(l[..1], keys) == [7];
    assert multiset(l)[7] == 2 && 7 in l;
  }

  method DispatchSeven() returns (t: SuTable)
    ensures fresh(t) && fresh(t.pool) && t.Valid() && SevenListed(t.View())
  {
    t := new SuTable();
    SevenFlat();
    var ok, known, j, listed := t.DispatchSUs(1, [7], [[7]], [], [], 1);
    SevenJoins(Empty(), t.View(), j.made);
  }

  lemma {:induction false} NothingNew<O>(t: Table<O>)
    requires SevenListed(t)
    ensures Distinct<Sunum>(Flat([]) + [] + [])
    ensures forall s :: s in Flat([]) + [] + [] <==> s in [7, 7] && s !in t.suMap
    ensures forall s | s in [7, 7] :: 2 !in Listed(t, s)
  {
    SevenFlat();
    assert Flat([]) + [] + [] == [];
  }

  method RepeatSeven(t: SuTable) returns (ok: bool)
    requires t.Valid() && SevenListed(t.View())
    modifies t, t.pool
    ensures !ok && t.Valid() && !Agree(t.View())
  {
    NothingNew(t.View());
    SevenTwice(t.suMap.Keys);
    var known, j;
    ghost var listed;
    ok, known, j, listed := t.DispatchSUs(2, [7, 7], [], [], [], 0);
  }

  /** Request 1 wants storage unit 7, and request 2 lists it twice: the second dispatch fails
      and leaves a table that does not agree with the request lists. */
  method RepeatedSunum() returns (t: SuTable, ok: bool)
    ensures !ok && t.Valid() && !Agree(t.View())
  {
    t := DispatchSeven();
    ok := RepeatSeven(t);
  }
}
