/** Runs in which one rule is broken, and what goes wrong then. */
module DaemonFailures {
  import opened SuTables
  import opened Daemon
  import opened DaemonTable
  import opened DaemonFlight
  import opened DaemonRuns

  // ---------------------------------------------------------------- runs, step by step

  /** A run that grows; no request repeats a listed SUNUM. */
  datatype Trace = Trace(states: seq<State>, steps: seq<Label>)

  ghost predicate IsRun(t: Trace) {
    Run(t.states, t.steps) && NoRepeats(t.steps, |t.steps|)
  }

  ghost function Last(t: Trace): State
    requires IsRun(t)
  {
    t.states[|t.steps|]
  }

  /** How many steps of a run break a rule. */
  ghost function Faults(t: Trace): nat
    requires |t.states| == |t.steps| + 1
    decreases |t.steps|
  {
    if t.steps == [] then 0 else
      var n := |t.steps| - 1;
      Faults(Trace(t.states[..n + 1], t.steps[..n])) + if Obeys(t.states[n], t.steps[n]) then 0 else 1
  }

  ghost function Then(t: Trace, l: Label): Trace
    requires IsRun(t) && Enabled(Last(t), l)
  {
    Trace(t.states + [Apply(Last(t), l)], t.steps + [l])
  }

  lemma {:induction false} ExtendRun(t: Trace, l: Label)
    requires IsRun(t) && Enabled(Last(t), l)
    ensures Run(Then(t, l).states, Then(t, l).steps)
    ensures Faults(Then(t, l)) == Faults(t) + if Obeys(Last(t), l) then 0 else 1
  {
    var u := Then(t, l);
    forall i | 0 <= i < |u.steps| ensures StepAt(u.states, u.steps, i) {
      if i < |t.steps| {
        assert StepAt(t.states, t.steps, i);
      }
    }
    assert u.states[..|u.steps|] == t.states && u.steps[..|t.steps|] == t.steps;
  }

  lemma {:induction false} Extend(t: Trace, l: Label)
    requires IsRun(t) && Enabled(Last(t), l) && !l.DispatchRepeat?
    ensures IsRun(Then(t, l)) && Last(Then(t, l)) == Apply(Last(t), l)
    ensures Faults(Then(t, l)) == Faults(t) + if Obeys(Last(t), l) then 0 else 1
  {
    ExtendRun(t, l);
  }

  /** The next step is a dispatch. */
  lemma {:induction false} DispatchNext(t: Trace, id: ReqId, plan: map<Sunum, Place>) returns (u: Trace)
    requires IsRun(t) && !Last(t).down && Plannable(Last(t), id, plan) && Born(plan, 0) !! Last(t).sus.Keys
    requires Last(t).reqs[id].repeated == {}
    ensures IsRun(u) && Last(u) == Dispatched(Last(t), id, plan, 0) && Faults(u) == Faults(t)
  {
    var l := Dispatch(id, plan, 0);
    u := Then(t, l);
    Extend(t, l);
  }

  // ---------------------------------------------------------------- one storage unit

  const ONE: Oid := Oid(7, 0)

  /** What the runs below tell about storage unit 7: its object, the number of its
      completion items, and the requests that are listed for it. */
  ghost predicate Scene(st: State, su: Su, items: nat, listed: seq<ReqId>) {
    && !st.down && ONE in st.sus && st.sus[ONE] == su && st.items[ONE] == items
    && st.table.dict.Keys == st.table.refs.Keys
    && if listed == [] then 7 !in st.table.dict && 7 !in st.table.suMap
       else
         && 7 in st.table.dict && st.table.dict[7] == ONE && st.table.refs[7] == |listed|
         && 7 in st.table.suMap && st.table.suMap[7] == listed
  }

  ghost predicate HasChunk(st: State, c: ChunkId) {
    c in st.queue && st.queue[c].sunums == {7}
  }

  /** A thread moves on with storage unit 7. */
  lemma {:induction false} Move(t: Trace, l: Label, su: Su, items: nat, listed: seq<ReqId>) returns (u: Trace)
    requires IsRun(t) && Scene(Last(t), su, items, listed)
    requires Local(l) && !Reports(l) && l.o == ONE && EnabledLocal(Last(t), l)
    ensures IsRun(u) && Faults(u) == Faults(t) + if l.Lost? then 1 else 0
    ensures Scene(Last(u), Changed(su, l), items + (if Posts(l) then 1 else 0), listed)
    ensures Last(u).reqs == Last(t).reqs && Last(u).queue == Last(t).queue
  {
    u := Then(t, l);
    Extend(t, l);
  }

  lemma {:induction false} TakeIt(t: Trace, c: ChunkId, su: Su, items: nat, listed: seq<ReqId>) returns (u: Trace)
    requires IsRun(t) && Scene(Last(t), su, items, listed) && listed != [] && HasChunk(Last(t), c)
    requires (su.stage.Queued? || su.stage.Done?) && su.worker.NoWorker?
    ensures IsRun(u) && Faults(u) == Faults(t)
    ensures Scene(Last(u), su.(stage := Held), items, listed)
    ensures Last(u).reqs == Last(t).reqs && Last(u).queue == Last(t).queue - {c}
  {
    var st := Last(t);
    assert Found(st.table, {7}) == {ONE} by {
      assert st.table.dict[7] in Found(st.table, {7});
    }
    u := Then(t, Take(c));
    Extend(t, Take(c));
  }

  /** The Dispatcher finds the storage unit invalid and gives it back. */
  lemma {:induction false} SkipIt(t: Trace, su: Su, items: nat, listed: seq<ReqId>) returns (u: Trace)
    requires IsRun(t) && Scene(Last(t), su, items, listed) && su.stage.Held?
    ensures IsRun(u) && Faults(u) == Faults(t)
    ensures Scene(Last(u), su.(status := C, stage := Done), items + 1, listed)
    ensures Last(u).reqs == Last(t).reqs && Last(u).queue == Last(t).queue
  {
    u := Move(t, Skip(ONE, C), su, items, listed);
    u := Move(u, PostSkipped(ONE), su.(status := C, stage := Skipped), items, listed);
  }

  /** Main consumes an item of a storage unit that is not in the table. */
  lemma {:induction false} ConsumeMissing(t: Trace, su: Su, items: nat) returns (u: Trace)
    requires IsRun(t) && Scene(Last(t), su, items, []) && items > 0
    ensures IsRun(u) && Faults(u) == Faults(t) && Last(u).down
  {
    u := Then(t, Consume(ONE));
    Extend(t, Consume(ONE));
  }

  // ---------------------------------------------------------------- openings

  function AtStart(): State {
    State(map[], Empty(), map[], map[], multiset{}, {}, multiset{}, false)
  }

  lemma {:induction false} RunAgrees(t: Trace)
    requires IsRun(t)
    ensures Agree(Last(t).table)
  {
    TablesAlwaysAgree(t.states, t.steps, |t.steps|);
  }

  lemma {:induction false} NewRequest(t: Trace, id: ReqId, req: Request) returns (u: Trace)
    requires IsRun(t) && id !in Last(t).reqs && req.status.New? && req.sunums != {} && req.done == {} && !Last(t).down
    ensures IsRun(u) && Faults(u) == Faults(t) && Last(u) == Last(t).(reqs := Last(t).reqs[id := req])
  {
    u := Then(t, Arrive(id, req));
    Extend(t, Arrive(id, req));
  }

  /** Request `id` joins storage unit 7, among others. */
  lemma {:induction false} SevenJoined(st: State, t1: Table<Oid>, id: ReqId, ss: seq<Sunum>)
    requires Agree(st.table) && Distinct(ss) && 7 in ss && t1 == Join(st.table, id, ss, Objects(ss, 0))
    ensures t1.dict.Keys == t1.refs.Keys && 7 in t1.dict && 7 in t1.suMap
    ensures t1.dict[7] == if 7 in st.table.dict then st.table.dict[7] else ONE
    ensures t1.suMap[7] == Listed(st.table, 7) + [id] && t1.refs[7] == |t1.suMap[7]|
  {
    var os := Objects(ss, 0);
    JoinIs(st.table, id, ss, os);
    var i :| 0 <= i < |ss| && ss[i] == 7;
    assert JoinedAt(st.table, t1, id, ss[i], os[i]);
  }

  lemma {:induction false} SevenReleased(st: State, t1: Table<Oid>, id: ReqId, su: Su, items: nat, listed: seq<ReqId>)
    requires Agree(st.table) && Scene(st, su, items, listed) && |listed| > 0 && listed[0] == id
    requires t1 == Release(st.table, id, Order({7}))
    ensures ListedWhereFound(st.table, id, {7}) && Scene(st.(table := t1), su, items, listed[1..])
  {
    ReleaseIs(st.table, id, Order({7}));
    assert ReleasedAt(st.table, t1, id, 7);
    assert Remove(listed, id) == listed[1..];
  }

  /** Request 1 is dispatched, with storage unit 7 in one chunk. */
  lemma {:induction false} SevenQueued(st: State, cls: Class, st1: State)
    requires st == AtStart().(reqs := st.reqs) && 1 in st.reqs && st.reqs[1] == Request({7}, {}, cls, New, {})
    requires st1 == Dispatched(st, 1, map[7 := InChunk(0)], 0)
    ensures Plannable(st, 1, map[7 := InChunk(0)])
    ensures Scene(st1, Su(cls, P, NoWorker, Queued(0)), 0, [1]) && HasChunk(st1, 0)
    ensures st1.reqs == st.reqs[1 := Request({7}, {}, cls, Pending, {})]
  {
    var plan := map[7 := InChunk(0)];
    assert plan[7].chunk in Chunks(plan);
    assert Oid(7, 0) in Born(plan, 0);
    assert Members(plan, 0) == {7};
    SevenJoined(st, st1.table, 1, Order({7}));
  }

  lemma {:induction false} QueueSeven(t: Trace, cls: Class) returns (u: Trace)
    requires IsRun(t) && Last(t) == AtStart().(reqs := Last(t).reqs)
    requires 1 in Last(t).reqs && Last(t).reqs[1] == Request({7}, {}, cls, New, {})
    ensures IsRun(u) && Faults(u) == Faults(t)
    ensures Scene(Last(u), Su(cls, P, NoWorker, Queued(0)), 0, [1]) && HasChunk(Last(u), 0)
    ensures Last(u).reqs == Last(t).reqs[1 := Request({7}, {}, cls, Pending, {})]
  {
    SevenQueued(Last(t), cls, Dispatched(Last(t), 1, map[7 := InChunk(0)], 0));
    u := DispatchNext(t, 1, map[7 := InChunk(0)]);
  }

  // ---------------------------------------------------------------- the failures

  /** The row of a request is deleted while the Dispatcher holds its storage unit: the
      storage unit leaves the table, its item comes, and main ends with a KeyError. */
  lemma {:induction false} DeletedInFlight() returns (t: Trace)
    ensures IsRun(t) && Faults(t) == 1 && Last(t).down
  {
    t := Trace([AtStart()], []);
    t := NewRequest(t, 1, Request({7}, {}, LowPriority, New, {}));
    t := QueueSeven(t, LowPriority);
    t := TakeIt(t, 0, Su(LowPriority, P, NoWorker, Queued(0)), 0, [1]);
    var su := Su(LowPriority, P, NoWorker, Held);
    t := VanishSeven(t, su);
    t := SkipIt(t, su, 0, []);
    t := ConsumeMissing(t, su.(status := C, stage := Done), 1);
  }

  lemma {:induction false} VanishSeven(t: Trace, su: Su) returns (u: Trace)
    requires IsRun(t) && Scene(Last(t), su, 0, [1]) && su.stage.Held?
    requires 1 in Last(t).reqs && Last(t).reqs[1].sunums == {7}
    ensures IsRun(u) && Faults(u) == Faults(t) + 1 && Scene(Last(u), su, 0, [])
  {
    SevenGone(t, 1, su, 0, [1], []);
    u := Then(t, Vanish(1));
    Extend(t, Vanish(1));
  }

  /** The Dispatcher queue is full when the second chunk of a request comes.  The request
      is rolled back and dispatched again, but its first chunk is still queued: the storage
      unit is handled twice and yields two completion items. */
  lemma {:induction false} StaleChunk() returns (t: Trace)
    ensures IsRun(t) && Faults(t) == 1 && Last(t).items[ONE] == 2
  {
    t := Trace([AtStart()], []);
    t := NewRequest(t, 1, Request({6, 7}, {}, LowPriority, New, {}));
    t := RefuseSecondChunk(t);
    t := DispatchAgain(t);
    var su := Su(LowPriority, P, NoWorker, Queued(1));
    t := TakeIt(t, 0, su, 0, [1]);
    t := SkipIt(t, su.(stage := Held), 0, [1]);
    t := TakeIt(t, 1, su.(status := C, stage := Done), 1, [1]);
    t := SkipIt(t, su.(status := C, stage := Held), 1, [1]);
  }

  lemma {:induction false} RefuseSecondChunk(t: Trace) returns (u: Trace)
    requires IsRun(t) && Last(t) == AtStart().(reqs := map[1 := Request({6, 7}, {}, LowPriority, New, {})])
    ensures IsRun(u) && Faults(u) == Faults(t) + 1
    ensures Last(u) == Last(t).(queue := Last(u).queue) && Last(u).queue.Keys == {0} && HasChunk(Last(u), 0)
  {
    var plan := map[7 := InChunk(0), 6 := InChunk(1)];
    assert plan[7].chunk in Chunks(plan);
    assert Members(plan, 0) == {7};
    var l := DispatchFail(1, plan, {0});
    u := Then(t, l);
    Extend(t, l);
  }

  /** On the second attempt storage unit 6 is online. */
  const RETRY: map<Sunum, Place> := map[7 := InChunk(1), 6 := Online]

  lemma {:induction false} RetryPlan()
    ensures Chunks(RETRY) == {1} && Members(RETRY, 1) == {7}
    ensures Complete(RETRY, 0) == {Oid(6, 0)} && ONE in Born(RETRY, 0)
  {
    assert RETRY[7].chunk in Chunks(RETRY);
    assert Oid(7, 0) in Born(RETRY, 0);
    assert Oid(6, 0) in Complete(RETRY, 0);
  }

  lemma {:induction false} RetryQueue(st: State, st1: State)
    requires st.queue.Keys == {0} && HasChunk(st, 0) && st.table == Empty()
    requires 1 in st.reqs && st.reqs[1] == Request({6, 7}, {}, LowPriority, New, {})
    requires st1 == Dispatched(st, 1, RETRY, 0)
    ensures Plannable(st, 1, RETRY) && HasChunk(st1, 0) && HasChunk(st1, 1)
    ensures st1.down == st.down && st1.items == st.items + multiset(Complete(RETRY, 0))
    ensures st1.sus == st.sus + Births(LowPriority, RETRY, 0)
  {
    RetryPlan();
  }

  lemma {:induction false} RetryRecords(st: State, st1: State)
    requires st.queue.Keys == {0} && HasChunk(st, 0) && !st.down
    requires st.sus == map[] && st.items == multiset{} && st.table == Empty()
    requires 1 in st.reqs && st.reqs[1] == Request({6, 7}, {}, LowPriority, New, {})
    requires st1 == Dispatched(st, 1, RETRY, 0)
    ensures Plannable(st, 1, RETRY) && !st1.down && st1.items[ONE] == 0
    ensures ONE in st1.sus && st1.sus[ONE] == Su(LowPriority, P, NoWorker, Queued(1))
    ensures HasChunk(st1, 0) && HasChunk(st1, 1)
  {
    RetryPlan();
    RetryQueue(st, st1);
  }

  lemma {:induction false} SevenAgain(st: State, st1: State)
    requires st.queue.Keys == {0} && HasChunk(st, 0)
    requires st == AtStart().(reqs := map[1 := Request({6, 7}, {}, LowPriority, New, {})], queue := st.queue)
    requires st1 == Dispatched(st, 1, RETRY, 0)
    ensures Plannable(st, 1, RETRY)
    ensures Scene(st1, Su(LowPriority, P, NoWorker, Queued(1)), 0, [1]) && HasChunk(st1, 0) && HasChunk(st1, 1)
  {
    RetryRecords(st, st1);
    SevenJoined(st, st1.table, 1, Order({6, 7}));
  }

  lemma {:induction false} DispatchAgain(t: Trace) returns (u: Trace)
    requires IsRun(t) && Last(t).queue.Keys == {0} && HasChunk(Last(t), 0)
    requires Last(t) == AtStart().(reqs := map[1 := Request({6, 7}, {}, LowPriority, New, {})], queue := Last(t).queue)
    ensures IsRun(u) && Faults(u) == Faults(t)
    ensures Scene(Last(u), Su(LowPriority, P, NoWorker, Queued(1)), 0, [1])
    ensures HasChunk(Last(u), 0) && HasChunk(Last(u), 1)
  {
    SevenAgain(Last(t), Dispatched(Last(t), 1, RETRY, 0));
    u := DispatchNext(t, 1, RETRY);
  }

  /** Requests 1 and 2 want storage unit 7 and count these as done. */
  ghost predicate Both(st: State, done: set<Sunum>) {
    && 1 in st.reqs && st.reqs[1] == Request({7}, {}, HighPriority, Pending, done)
    && 2 in st.reqs && st.reqs[2] == Request({7}, {}, LowPriority, Pending, done)
  }

  /** The plan of a request whose storage units were all dispatched before. */
  const NO_PLAN: map<Sunum, Place> := map[]

  lemma {:induction false} NothingToPlan()
    ensures Chunks(NO_PLAN) == {} && Complete(NO_PLAN, 0) == {} && Born(NO_PLAN, 0) == {}
  {
  }

  lemma {:induction false} SharedPlan(st: State, su: Su)
    requires Scene(st, su, 0, [1])
    requires 1 in st.reqs && st.reqs[1] == Request({7}, {}, HighPriority, Pending, {})
    requires 2 in st.reqs && st.reqs[2] == Request({7}, {}, LowPriority, New, {})
    ensures Plannable(st, 2, NO_PLAN) && Born(NO_PLAN, 0) !! st.sus.Keys
  {
    NothingToPlan();
  }

  lemma {:induction false} RecordsKept(st: State, st1: State, su: Su)
    requires 2 in st.reqs && st1 == Dispatched(st, 2, NO_PLAN, 0) && st.reqs[2].sunums <= st.table.dict.Keys
    requires ONE in st.sus && st.sus[ONE] == su && 0 in st.queue
    ensures ONE in st1.sus && st1.sus[ONE] == su && st1.items == st.items && st1.down == st.down
    ensures 0 in st1.queue && st1.queue[0] == st.queue[0]
    ensures st1.reqs == st.reqs[2 := st.reqs[2].(status := Pending)]
  {
    NothingToPlan();
  }

  lemma {:induction false} TableOfDispatched(st: State, id: ReqId, plan: map<Sunum, Place>, st1: State)
    requires id in st.reqs && st.reqs[id].sunums - st.table.dict.Keys <= plan.Keys && st1 == Dispatched(st, id, plan, 0)
    ensures st1.table == Join(st.table, id, Order(st.reqs[id].sunums), Objects(Order(st.reqs[id].sunums), 0))
  {
  }

  /** Requests 1 and 2 as rows, before the second is dispatched. */
  ghost predicate OneAndTwo(reqs: map<ReqId, Request>) {
    && 1 in reqs && reqs[1] == Request({7}, {}, HighPriority, Pending, {})
    && 2 in reqs && reqs[2] == Request({7}, {}, LowPriority, New, {})
  }

  lemma {:induction false} SharedScene(st: State, su: Su, st1: State)
    requires Agree(st.table) && Scene(st, su, 0, [1]) && HasChunk(st, 0) && OneAndTwo(st.reqs)
    requires st1 == Dispatched(st, 2, NO_PLAN, 0)
    ensures Scene(st1, su, 0, [1, 2]) && Both(st1, {}) && HasChunk(st1, 0)
  {
    RecordsKept(st, st1, su);
    TableOfDispatched(st, 2, NO_PLAN, st1);
    SevenJoined(st, st1.table, 2, Order({7}));
  }

  lemma {:induction false} JoinSeven(t: Trace, su: Su) returns (u: Trace)
    requires IsRun(t) && Scene(Last(t), su, 0, [1]) && HasChunk(Last(t), 0)
    requires 1 in Last(t).reqs && Last(t).reqs[1] == Request({7}, {}, HighPriority, Pending, {})
    requires 2 in Last(t).reqs && Last(t).reqs[2] == Request({7}, {}, LowPriority, New, {})
    ensures IsRun(u) && Faults(u) == Faults(t)
    ensures Scene(Last(u), su, 0, [1, 2]) && Both(Last(u), {}) && HasChunk(Last(u), 0)
  {
    RunAgrees(t);
    SharedPlan(Last(t), su);
    SharedScene(Last(t), su, Dispatched(Last(t), 2, NO_PLAN, 0));
    u := DispatchNext(t, 2, NO_PLAN);
  }

  lemma {:induction false} ConsumeSeven(t: Trace, su: Su) returns (u: Trace)
    requires IsRun(t) && Scene(Last(t), su, 1, [1, 2]) && Both(Last(t), {}) && su.status.E?
    ensures IsRun(u) && Faults(u) == Faults(t) && Scene(Last(u), su, 0, [1, 2]) && Both(Last(u), {7})
  {
    u := Then(t, Consume(ONE));
    Extend(t, Consume(ONE));
    assert {} + {7} == {7};
  }

  /** The first of the listed requests is taken off storage unit 7. */
  lemma {:induction false} SevenGone(t: Trace, id: ReqId, su: Su, items: nat, listed: seq<ReqId>, rest: seq<ReqId>)
    requires IsRun(t) && Scene(Last(t), su, items, listed) && |listed| > 0 && listed[0] == id && listed[1..] == rest
    ensures ListedWhereFound(Last(t).table, id, {7})
    ensures Scene(Last(t).(table := Release(Last(t).table, id, Order({7}))), su, items, rest)
  {
    RunAgrees(t);
    SevenReleased(Last(t), Release(Last(t).table, id, Order({7})), id, su, items, listed);
  }

  lemma {:induction false} FinishFirst(t: Trace, su: Su) returns (u: Trace)
    requires IsRun(t) && Scene(Last(t), su, 0, [1, 2]) && Both(Last(t), {7})
    ensures IsRun(u) && Faults(u) == Faults(t) && Scene(Last(u), su, 0, [2])
    ensures 2 in Last(u).reqs && Last(u).reqs[2] == Request({7}, {}, LowPriority, Pending, {7})
  {
    SevenGone(t, 1, su, 0, [1, 2], [2]);
    u := Then(t, Finish(1));
    Extend(t, Finish(1));
  }

  lemma {:induction false} FinishSecond(t: Trace, su: Su) returns (u: Trace)
    requires IsRun(t) && Scene(Last(t), su, 0, [2])
    requires 2 in Last(t).reqs && Last(t).reqs[2] == Request({7}, {}, LowPriority, Pending, {7})
    ensures IsRun(u) && Faults(u) == Faults(t) && Scene(Last(u), su, 0, [])
  {
    SevenGone(t, 2, su, 0, [2], []);
    u := Then(t, Finish(2));
    Extend(t, Finish(2));
  }

  lemma {:induction false} MistakenForLost(t: Trace, su: Su) returns (u: Trace)
    requires IsRun(t) && Scene(Last(t), su, 0, [1, 2]) && Both(Last(t), {})
    requires su.worker.Unstarted? && su.cls.HighPriority?
    ensures IsRun(u) && Faults(u) == Faults(t) + 1
    ensures Scene(Last(u), su.(status := E), 1, [1, 2]) && Both(Last(u), {})
  {
    assert Last(t).table.dict[7] in Found(Last(t).table, {7});
    assert 7 !in Last(t).reqs[2].done;
    u := Move(t, Lost(2, ONE), su, 0, [1, 2]);
  }

  lemma {:induction false} SharedAndAssigned() returns (t: Trace)
    ensures IsRun(t) && Faults(t) == 0 && Both(Last(t), {})
    ensures Scene(Last(t), Su(HighPriority, P, Unstarted, Assigned), 0, [1, 2])
  {
    t := Trace([AtStart()], []);
    t := NewRequest(t, 1, Request({7}, {}, HighPriority, New, {}));
    t := NewRequest(t, 2, Request({7}, {}, LowPriority, New, {}));
    t := QueueSeven(t, HighPriority);
    var su := Su(HighPriority, P, NoWorker, Queued(0));
    t := JoinSeven(t, su);
    t := TakeIt(t, 0, su, 0, [1, 2]);
    t := Move(t, Assign(ONE), su.(stage := Held), 0, [1, 2]);
  }

  /** The Downloader runs after all, and posts an item of its own. */
  lemma {:induction false} SecondItem(t: Trace) returns (u: Trace)
    requires IsRun(t) && Scene(Last(t), Su(HighPriority, E, Unstarted, Assigned), 0, [])
    ensures IsRun(u) && Faults(u) == Faults(t) && Scene(Last(u), Su(HighPriority, E, Live, Done), 1, [])
  {
    u := Move(t, Start(ONE), Su(HighPriority, E, Unstarted, Assigned), 0, []);
    u := Move(u, Begin(ONE, false), Su(HighPriority, E, Live, Running), 0, []);
    u := Move(u, Post(ONE), Su(HighPriority, E, Live, Closing), 0, []);
  }

  /** Request 1 waits for storage unit 7 when request 2 comes, whose list has it twice: the
      SU table does not agree with the request lists any more. */
  lemma {:induction false} RepeatedListed() returns (t: Trace)
    ensures Run(t.states, t.steps) && Faults(t) == 1 && !Agree(t.states[|t.steps|].table)
  {
    t := Trace([AtStart()], []);
    t := NewRequest(t, 1, Request({7}, {}, LowPriority, New, {}));
    t := NewRequest(t, 2, Request({7}, {7}, LowPriority, New, {}));
    t := QueueSeven(t, LowPriority);
    t := RepeatSeven(t);
  }

  lemma {:induction false} RepeatSeven(t: Trace) returns (u: Trace)
    requires IsRun(t) && !Last(t).down && 7 in Last(t).table.suMap
    requires 2 in Last(t).reqs && Last(t).reqs[2] == Request({7}, {7}, LowPriority, New, {})
    ensures Run(u.states, u.steps) && Faults(u) == Faults(t) + 1 && !Agree(u.states[|u.steps|].table)
  {
    var st, l := Last(t), DispatchRepeat(2, NO_PLAN, [7]);
    NothingToPlan();
    assert 7 in [7] && 7 in st.reqs[2].repeated;
    TablesAlwaysAgree(t.states, t.steps, |t.steps|);
    u := Then(t, l);
    ExtendRun(t, l);
    RepeatBreaksTables(st, l);
  }

  /** Requests of different classes share a storage unit: main holds the wrong lock when
      it looks at the Downloader, takes it for dead, and main ends with a KeyError. */
  lemma {:induction false} MixedClasses() returns (t: Trace)
    ensures IsRun(t) && Faults(t) == 1 && Last(t).down
  {
    t := SharedAndAssigned();
    t := MistakenForLost(t, Su(HighPriority, P, Unstarted, Assigned));
    var su := Su(HighPriority, E, Unstarted, Assigned);
    t := ConsumeSeven(t, su);
    t := FinishFirst(t, su);
    t := FinishSecond(t, su);
    t := SecondItem(t);
    t := ConsumeMissing(t, Su(HighPriority, E, Live, Done), 1);
  }
}
