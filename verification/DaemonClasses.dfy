/** Requests of different classes that share a storage unit: when main takes a Downloader
    for dead that is about to run, and when it cannot. */
module DaemonClasses {
  import opened SuTables
  import opened Daemon
  import opened DaemonTable
  import opened DaemonFlight
  import opened FlightSteps
  import opened DaemonRuns

  /** Pending requests that share a storage unit with `id` use the same Downloaders. */
  ghost predicate SameClass(st: State, id: ReqId)
    requires id in st.reqs
  {
    forall q, s | q in st.reqs && st.reqs[q].status.Pending? && s in st.reqs[q].sunums && s in st.reqs[id].sunums ::
      st.reqs[q].cls == st.reqs[id].cls
  }

  /** Storage units are in the hands of the Downloaders that their pending requests use. */
  ghost predicate ClassOk(st: State) {
    forall r, s | r in st.reqs && st.reqs[r].status.Pending? && s in st.reqs[r].sunums && s in st.table.dict ::
      st.table.dict[s] in st.sus && st.sus[st.table.dict[s]].cls == st.reqs[r].cls
  }

  /** Every storage unit in the table is wanted by a pending request. */
  lemma {:induction false} SomeoneWants(st: State, s: Sunum) returns (q: ReqId)
    requires TableInv(st) && s in st.table.dict
    ensures q in st.reqs && st.reqs[q].status.Pending? && s in st.reqs[q].sunums
  {
    q := st.table.suMap[s][0];
    assert q in Listed(st.table, s);
  }


  // ---------------------------------------------------------------- when a Downloader seems lost

  /** A pending request of the other class waits for the storage unit. */
  ghost predicate Mixed(st: State, o: Oid, id: ReqId)
    requires o in st.sus
  {
    id in st.reqs && st.reqs[id].status.Pending? && o.sunum in st.reqs[id].sunums && st.reqs[id].cls != st.sus[o].cls
  }

  /** Main can mistake the Downloader of `o` for dead exactly between `setWorker` and
      `start`, when it looks on behalf of a pending request of the other class. */
  lemma {:induction false} LostIffMixed(st: State, id: ReqId, o: Oid)
    requires FlightInv(st)
    ensures Enabled(st, Lost(id, o)) <==> At(st, o, Assigned) && Mixed(st, o, id)
  {
    if o in st.sus {
      assert SuOk(st, o);
    }
    if At(st, o, Assigned) && Mixed(st, o, id) {
      assert InTable(st, o) && o in Found(st.table, st.reqs[id].sunums);
      assert o.sunum !in st.reqs[id].done;
    }
  }

  /** Whenever a mixed storage unit gets its Downloader, main can come too early, and then
      a storage unit has a completion item while its Downloader still runs. */
  lemma {:induction false} MixedCanBeLost(st: State, id: ReqId, o: Oid)
    requires FlightInv(st) && At(st, o, Held) && Mixed(st, o, id)
    ensures Enabled(st, Assign(o)) && FlightInv(Apply(st, Assign(o)))
    ensures Enabled(Apply(st, Assign(o)), Lost(id, o))
    ensures !FlightInv(Apply(Apply(st, Assign(o)), Lost(id, o)))
  {
    assert SuOk(st, o);
    var st1 := Apply(st, Assign(o));
    StepKeepsFlight(st, Assign(o));
    LostIffMixed(st1, id, o);
    RulesAreExact(st1, Lost(id, o));
  }

  // ---------------------------------------------------------------- one class for each storage unit

  lemma {:induction false} ClassesExcludeLost(st: State, id: ReqId, o: Oid)
    requires FlightInv(st) && ClassOk(st)
    ensures !Enabled(st, Lost(id, o))
  {
    LostIffMixed(st, id, o);
    if o in st.sus {
      assert SuOk(st, o);
    }
  }

  /** Storage units and pending requests keep their classes. */
  ghost predicate SameClasses(st: State, st1: State) {
    && (forall s | s in st1.table.dict :: s in st.table.dict && st1.table.dict[s] == st.table.dict[s])
    && (forall o | o in st.sus :: o in st1.sus && st1.sus[o].cls == st.sus[o].cls)
    && (forall r | r in st1.reqs && st1.reqs[r].status.Pending? ::
          && r in st.reqs && st.reqs[r].status.Pending?
          && st1.reqs[r].sunums == st.reqs[r].sunums && st1.reqs[r].cls == st.reqs[r].cls)
  }

  lemma {:induction false} ClassKept(st: State, st1: State)
    requires ClassOk(st) && SameClasses(st, st1)
    ensures ClassOk(st1)
  {
  }

  lemma {:induction false} ChangedKeepsClass(su: Su, l: Label)
    requires Local(l)
    ensures Changed(su, l).cls == su.cls
  {
  }

  lemma {:induction false} LocalKeepsClasses(st: State, l: Label, o: Oid, st1: State)
    requires Local(l) && (Reports(l) ==> l.s in st.table.dict) && o == Subject(st, l) && o in st.sus
    requires st1 == ApplyLocal(st, l)
    ensures SameClasses(st, st1)
  {
    ChangedKeepsClass(st.sus[o], l);
  }

  lemma {:induction false} ReleaseKeepsClasses(st: State, id: ReqId, st1: State)
    requires TableInv(st) && id in st.reqs && (st1 == Vanished(st, id) || st1 == Finished(st, id))
    ensures SameClasses(st, st1)
  {
    SuTables.ReleaseKeepsObjects(st.table, id, Order(st.reqs[id].sunums));
  }

  lemma {:induction false} QuietKeepsClasses(st: State, l: Label, st1: State)
    requires l.Arrive? || l.Expire? || l.DispatchFail? || l.Drop?
    requires Enabled(st, l) && Obeys(st, l) && st1 == Apply(st, l)
    ensures SameClasses(st, st1)
  {
  }

  lemma {:induction false} BatchKeepsClasses(st: State, os: set<Oid>, st1: State)
    requires st1.table == st.table && st1.reqs == st.reqs
    requires st1.sus == HoldAll(st.sus, os) || st1.sus == DownloadAll(st.sus, os)
    ensures SameClasses(st, st1)
  {
  }

  lemma {:induction false} ConsumeKeepsClasses(st: State, o: Oid, st1: State)
    requires o in st.sus && st1 == ItemTaken(st, o) && !st1.down
    ensures SameClasses(st, st1)
  {
  }

  lemma {:induction false} OthersKeepClasses(st: State, l: Label, st1: State)
    requires FlightInv(st) && !Local(l) && !l.Dispatch? && Enabled(st, l) && Obeys(st, l) && st1 == Apply(st, l)
    ensures SameClasses(st, st1)
  {
    match l
    case Vanish(id) => ReleaseKeepsClasses(st, id, st1);
    case Finish(id) => ReleaseKeepsClasses(st, id, st1);
    case Take(c) => BatchKeepsClasses(st, Found(st.table, st.queue[c].sunums), st1);
    case Claim(w, batch) => BatchKeepsClasses(st, batch, st1);
    case Consume(o) =>
      ConsumeFinds(st, o);
      ConsumeKeepsClasses(st, o, st1);
    case _ => QuietKeepsClasses(st, l, st1);
  }

  lemma {:induction false} ClassAfterDispatch(st: State, st1: State, id: ReqId, plan: map<Sunum, Place>, stamp: nat)
    requires TableInv(st) && ClassOk(st) && id in st.reqs && SameClass(st, id) && Grows(st, st1, id, plan, stamp)
    ensures ClassOk(st1)
  {
    forall r, s | r in st1.reqs && st1.reqs[r].status.Pending? && s in st1.reqs[r].sunums && s in st1.table.dict
      ensures st1.table.dict[s] in st1.sus && st1.sus[st1.table.dict[s]].cls == st1.reqs[r].cls
    {
      if s in plan {
        assert Oid(s, stamp) in st1.sus;
      } else if r == id {
        var q := SomeoneWants(st, s);
      }
    }
  }

  /** A step keeps the classes if a request that it dispatches shares with its own kind only. */
  lemma {:induction false} StepKeepsClasses(st: State, l: Label, st1: State)
    requires FlightInv(st) && ClassOk(st) && Enabled(st, l) && Obeys(st, l) && st1 == Apply(st, l)
    requires l.Dispatch? ==> SameClass(st, l.id)
    ensures ClassOk(st1)
  {
    if l.Dispatch? {
      DispatchGrows(st, l.id, l.plan, l.stamp, st1);
      ClassAfterDispatch(st, st1, l.id, l.plan, l.stamp);
    } else {
      if Local(l) {
        LocalGuardHolds(st, l, Subject(st, l));
        LocalKeepsClasses(st, l, Subject(st, l), st1);
      } else {
        OthersKeepClasses(st, l, st1);
      }
      ClassKept(st, st1);
    }
  }

  /** What a caller can see to: apart from the rules on rows and on the dispatcher queue,
      no request shares a storage unit with a pending request of the other class. */
  ghost predicate Careful(st: State, l: Label) {
    (l.Lost? || Obeys(st, l)) && (l.Dispatch? ==> l.id in st.reqs && SameClass(st, l.id))
  }

  lemma {:induction false} CarefulStep(st: State, l: Label, st1: State)
    requires FlightInv(st) && ClassOk(st) && Enabled(st, l) && Careful(st, l) && st1 == Apply(st, l)
    ensures Obeys(st, l) && FlightInv(st1) && ClassOk(st1)
  {
    if l.Lost? {
      ClassesExcludeLost(st, l.id, l.o);
    }
    assert Obeys(st, l);
    StepKeepsFlight(st, l);
    StepKeepsClasses(st, l, st1);
  }

  ghost predicate CarefulRun(states: seq<State>, steps: seq<Label>) {
    Run(states, steps) && forall i | 0 <= i < |steps| :: Careful(states[i], steps[i])
  }

  lemma {:induction false} CarefulAlwaysConsistent(states: seq<State>, steps: seq<Label>, n: nat)
    requires CarefulRun(states, steps) && n < |states|
    ensures FlightInv(states[n]) && ClassOk(states[n])
  {
    if n == 0 {
      FlightInvInit(states[0]);
    } else {
      CarefulAlwaysConsistent(states, steps, n - 1);
      assert StepAt(states, steps, n - 1);
      CarefulStep(states[n - 1], steps[n - 1], states[n]);
    }
  }

  /** In a run of that kind main never takes a Downloader for dead: it is a good run. */
  lemma {:induction false} CarefulRunIsGood(states: seq<State>, steps: seq<Label>)
    requires CarefulRun(states, steps)
    ensures GoodRun(states, steps) && forall i | 0 <= i < |steps| :: !steps[i].Lost?
  {
    forall i | 0 <= i < |steps| ensures Obeys(states[i], steps[i]) {
      CarefulAlwaysConsistent(states, steps, i);
      assert StepAt(states, steps, i);
      CarefulStep(states[i], steps[i], states[i + 1]);
    }
  }
}
