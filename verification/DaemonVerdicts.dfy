/** Verdicts of requests, time-outs and ScpWorker batches over whole runs. */
module DaemonVerdicts {
  import opened SuTables
  import opened SuLists
  import opened Daemon
  import opened DaemonTable
  import opened DaemonFlight
  import opened FlightSteps
  import opened DaemonRuns

  predicate IsPending(st: State, id: ReqId) {
    id in st.reqs && st.reqs[id].status.Pending?
  }

  predicate CountsAsDone(st: State, id: ReqId, s: Sunum) {
    IsPending(st, id) && s in st.reqs[id].done
  }

  // ---------------------------------------------------------------- steps

  /** A pending request stays pending unless main completes it or its row is deleted. */
  lemma {:induction false} StaysPending(st: State, l: Label, id: ReqId, st1: State)
    requires Enabled(st, l) && st1 == Apply(st, l)
    requires IsPending(st, id) && l != Finish(id) && l != Vanish(id)
    ensures IsPending(st1, id)
  {
    if Local(l) {
      LocalStep(st, l, st1);
    }
  }

  /** The object of a SUNUM stays the same while the SUNUM stays in the table. */
  lemma {:induction false} SameObject(st: State, l: Label, s: Sunum, st1: State)
    requires TableInv(st) && Enabled(st, l) && st1 == Apply(st, l)
    requires s in st.table.dict && s in st1.table.dict
    ensures st1.table.dict[s] == st.table.dict[s]
  {
    if Local(l) {
      LocalStep(st, l, st1);
    } else if l.Dispatch? {
      PlannableIsUntracked(st, l.id, l.plan);
      DispatchDict(st, l.id, l.plan, l.stamp, st1.table);
    } else if l.Finish? || l.Vanish? {
      SuTables.ReleaseKeepsObjects(st.table, l.id, Order(st.reqs[l.id].sunums));
    } else if l.DispatchRepeat? {
      AddReqsFrame(st.table, l.id, l.listed);
    }
  }

  /** Only the consumption of a completion item makes a storage unit count as done. */
  ghost predicate ConsumedFor(st: State, l: Label, id: ReqId, s: Sunum) {
    l.Consume? && l.o.sunum == s && InTable(st, l.o) && id in Listed(st.table, s) && IsPending(st, id)
  }

  lemma {:induction false} GrowthDone(st: State, st1: State, id0: ReqId, plan: map<Sunum, Place>, stamp: nat,
                                      id: ReqId, s: Sunum)
    requires id0 in st.reqs && st.reqs[id0].done == {} && Grows(st, st1, id0, plan, stamp)
    requires CountsAsDone(st1, id, s)
    ensures CountsAsDone(st, id, s)
  {
  }

  lemma {:induction false} DispatchDone(st: State, l: Label, id: ReqId, s: Sunum, st1: State)
    requires FlightInv(st) && l.Dispatch? && Enabled(st, l) && st1 == Apply(st, l)
    requires CountsAsDone(st1, id, s)
    ensures CountsAsDone(st, id, s)
  {
    DispatchGrows(st, l.id, l.plan, l.stamp, st1);
    NothingDoneYet(st, l.id, l.plan);
    GrowthDone(st, st1, l.id, l.plan, l.stamp, id, s);
  }

  lemma {:induction false} ConsumeDone(st: State, p: Oid, id: ReqId, s: Sunum)
    requires FlightInv(st) && Enabled(st, Consume(p)) && CountsAsDone(ItemTaken(st, p), id, s)
    ensures CountsAsDone(st, id, s) || ConsumedFor(st, Consume(p), id, s)
  {
    ConsumeFinds(st, p);
  }

  lemma {:induction false} OtherDone(st: State, l: Label, id: ReqId, s: Sunum, st1: State)
    requires !Local(l) && !l.Dispatch? && !l.Consume? && Enabled(st, l) && Obeys(st, l) && st1 == Apply(st, l)
    requires CountsAsDone(st1, id, s)
    ensures CountsAsDone(st, id, s)
  {
  }

  lemma {:induction false} DoneStep(st: State, l: Label, id: ReqId, s: Sunum, st1: State)
    requires FlightInv(st) && Enabled(st, l) && Obeys(st, l) && st1 == Apply(st, l)
    requires CountsAsDone(st1, id, s)
    ensures CountsAsDone(st, id, s) || ConsumedFor(st, l, id, s)
  {
    if Local(l) {
      LocalStep(st, l, st1);
    } else if l.Dispatch? {
      DispatchDone(st, l, id, s, st1);
    } else if l.Consume? {
      ConsumeDone(st, l.o, id, s);
    } else {
      OtherDone(st, l, id, s, st1);
    }
  }

  // ---------------------------------------------------------------- verdicts

  lemma {:induction false} DoneStepInRun(states: seq<State>, steps: seq<Label>, i: nat, id: ReqId, s: Sunum)
    requires GoodRun(states, steps) && i < |steps| && CountsAsDone(states[i + 1], id, s)
    ensures CountsAsDone(states[i], id, s) || ConsumedFor(states[i], steps[i], id, s)
    ensures s in states[i].table.dict && s in states[i + 1].table.dict
    ensures states[i + 1].table.dict[s] == states[i].table.dict[s]
  {
    StepOfGoodRun(states, steps, i);
    DoneStep(states[i], steps[i], id, s, states[i + 1]);
    SameObject(states[i], steps[i], s, states[i + 1]);
  }

  /** What a pending request counts as done: main consumed the item of that very object
      after the request had joined it, and the request was pending ever since. */
  lemma {:induction false} DoneWasConsumed(states: seq<State>, steps: seq<Label>, n: nat, id: ReqId, s: Sunum)
    returns (j: nat)
    requires GoodRun(states, steps) && n < |states| && CountsAsDone(states[n], id, s)
    ensures j < n && ConsumedFor(states[j], steps[j], id, s)
    ensures s in states[n].table.dict && steps[j].o == states[n].table.dict[s]
    ensures forall k | j <= k <= n :: IsPending(states[k], id)
  {
    assert n > 0;
    DoneStepInRun(states, steps, n - 1, id, s);
    if ConsumedFor(states[n - 1], steps[n - 1], id, s) {
      j := n - 1;
    } else {
      j := DoneWasConsumed(states, steps, n - 1, id, s);
    }
  }

  /** The storage unit that the table finds for `s` has this status, for good. */
  ghost predicate Ended(st: State, s: Sunum, status: SuStatus) {
    && s in st.table.dict && Consumed(st, st.table.dict[s])
    && st.sus[st.table.dict[s]].status == status
  }

  lemma {:induction false} AllEnded(st: State, id: ReqId)
    requires FlightInv(st) && Enabled(st, Finish(id))
    ensures forall s | s in st.reqs[id].sunums :: Ended(st, s, C) || Ended(st, s, E)
    ensures ListedWhereFound(st.table, id, st.reqs[id].sunums) && st.table.dict.Keys == st.table.refs.Keys
  {
    CompletedIsConsumed(st, id);
    forall s | s in st.reqs[id].sunums ensures Ended(st, s, C) || Ended(st, s, E) {
      ConsumedStatus(st, st.table.dict[s]);
    }
  }

  lemma {:induction false} ErrorsDecide(st: State, id: ReqId)
    requires id in st.reqs && forall s | s in st.reqs[id].sunums :: Ended(st, s, C) || Ended(st, s, E)
    ensures AnyError(st, id) <==> exists s :: s in st.reqs[id].sunums && Ended(st, s, E)
  {
    if AnyError(st, id) {
      var s :| s in st.reqs[id].sunums && s in st.table.dict && st.table.dict[s] in st.sus
               && st.sus[st.table.dict[s]].status.E?;
      assert Ended(st, s, E);
    }
  }

  lemma {:induction false} FinishedStatus(st: State, id: ReqId, st1: State)
    requires id in st.reqs && ListedWhereFound(st.table, id, st.reqs[id].sunums)
    requires st.table.dict.Keys == st.table.refs.Keys && st1 == Finished(st, id)
    ensures id in st1.reqs && st1.reqs[id].status == if AnyError(st, id) then Failed else Completed
  {
  }

  lemma {:induction false} VerdictStep(st: State, id: ReqId, st1: State)
    requires FlightInv(st) && Enabled(st, Finish(id)) && st1 == Finished(st, id)
    ensures forall s | s in st.reqs[id].sunums :: Ended(st, s, C) || Ended(st, s, E)
    ensures id in st1.reqs
    ensures st1.reqs[id].status == if exists s :: s in st.reqs[id].sunums && Ended(st, s, E) then Failed else Completed
  {
    AllEnded(st, id);
    ErrorsDecide(st, id);
    FinishedStatus(st, id, st1);
  }

  /** Main consumed the item of the storage unit `s` that request `id` waits for in
      state `n`, after the request had joined it. */
  ghost predicate WasTold(states: seq<State>, steps: seq<Label>, n: nat, id: ReqId, s: Sunum)
    requires |states| == |steps| + 1 && n < |states|
  {
    exists j: nat | j < n ::
      && ConsumedFor(states[j], steps[j], id, s)
      && s in states[n].table.dict && steps[j].o == states[n].table.dict[s]
      && forall k | j <= k <= n :: IsPending(states[k], id)
  }

  /** The verdict: a request that ends was told about each of its storage units after it
      had joined it; it fails if one of them errored out, and completes if all are C. */
  lemma {:induction false} Verdict(states: seq<State>, steps: seq<Label>, i: nat, id: ReqId)
    requires GoodRun(states, steps) && i < |steps| && steps[i] == Finish(id)
    ensures id in states[i].reqs && id in states[i + 1].reqs
    ensures forall s | s in states[i].reqs[id].sunums :: Ended(states[i], s, C) || Ended(states[i], s, E)
    ensures states[i + 1].reqs[id].status
            == if exists s :: s in states[i].reqs[id].sunums && Ended(states[i], s, E) then Failed else Completed
    ensures forall s | s in states[i].reqs[id].sunums :: WasTold(states, steps, i, id, s)
  {
    StepOfGoodRun(states, steps, i);
    VerdictStep(states[i], id, states[i + 1]);
    forall s | s in states[i].reqs[id].sunums ensures WasTold(states, steps, i, id, s) {
      var j := DoneWasConsumed(states, steps, i, id, s);
    }
  }

  /** A request leaves `Pending` only with a verdict or because its row was deleted. */
  lemma {:induction false} PendingEndsWithVerdict(states: seq<State>, steps: seq<Label>, i: nat, id: ReqId)
    requires GoodRun(states, steps) && i < |steps|
    requires IsPending(states[i], id) && !IsPending(states[i + 1], id)
    ensures steps[i] == Finish(id) || steps[i] == Vanish(id)
  {
    StepOfGoodRun(states, steps, i);
    if steps[i] != Finish(id) && steps[i] != Vanish(id) {
      StaysPending(states[i], steps[i], id, states[i + 1]);
    }
  }

  // ---------------------------------------------------------------- time-outs

  /** No ScpWorker will report on `o` any more, and it was not downloaded. */
  ghost predicate Abandoned(st: State, o: Oid) {
    o in st.sus && (st.sus[o].status.E? || (st.sus[o].status.D? && !(Downloading(st.sus[o]) && IsClaimed(st, o.sunum))))
  }

  lemma {:induction false} AbandonedChange(st: State, st1: State, l: Label, p: Oid, o: Oid)
    requires Local(l) && LocalChange(st, st1, l, p) && Abandoned(st, o)
    requires l.Resolve? && l.outcome.Ingested? ==> st.sus[p].status.F?
    requires Fits(st.sus[p], IsClaimed(st, p.sunum), st.notes[p])
    requires IsClaimed(st1, o.sunum) ==> IsClaimed(st, o.sunum)
    ensures Abandoned(st1, o)
  {
  }

  lemma {:induction false} AbandonedLocally(st: State, l: Label, o: Oid, st1: State)
    requires FlightInv(st) && Local(l) && !l.Lost? && Enabled(st, l) && st1 == Apply(st, l) && Abandoned(st, o)
    ensures Abandoned(st1, o)
  {
    var p := Subject(st, l);
    LocalIsChange(st, l, p, st1);
    IsClaimedAfterChange(st, st1, l, p);
    assert SuOk(st, p);
    AbandonedChange(st, st1, l, p, o);
  }

  lemma {:induction false} AbandonedByClaim(st: State, w: WorkerId, batch: set<Oid>, o: Oid, st1: State)
    requires FlightInv(st) && Enabled(st, Claim(w, batch)) && st1 == Apply(st, Claim(w, batch)) && Abandoned(st, o)
    ensures Abandoned(st1, o)
  {
    assert SuOk(st, o);
    ClaimedAfter(st, w, batch, st1, o.sunum);
    if p :| p in batch && p.sunum == o.sunum {
      ChosenIsFree(st, w, batch, p);
    }
  }

  lemma {:induction false} FewerClaims(st: State, st1: State, s: Sunum)
    requires st1.claims <= st.claims
    ensures IsClaimed(st1, s) ==> IsClaimed(st, s)
  {
  }

  lemma {:induction false} AbandonedByConsume(st: State, p: Oid, o: Oid)
    requires FlightInv(st) && Enabled(st, Consume(p)) && Abandoned(st, o)
    ensures Abandoned(ItemTaken(st, p), o)
  {
    ConsumeFinds(st, p);
    SameClaims(st, ItemTaken(st, p));
  }

  lemma {:induction false} AbandonedByGrowth(st: State, st1: State, id: ReqId, plan: map<Sunum, Place>, stamp: nat,
                                             o: Oid)
    requires id in st.reqs && Grows(st, st1, id, plan, stamp) && Abandoned(st, o)
    ensures Abandoned(st1, o)
  {
    SameClaims(st, st1);
  }

  lemma {:induction false} AbandonedByDispatch(st: State, l: Label, o: Oid, st1: State)
    requires FlightInv(st) && l.Dispatch? && Enabled(st, l) && st1 == Apply(st, l) && Abandoned(st, o)
    ensures Abandoned(st1, o)
  {
    DispatchGrows(st, l.id, l.plan, l.stamp, st1);
    AbandonedByGrowth(st, st1, l.id, l.plan, l.stamp, o);
  }

  lemma {:induction false} AbandonedQuietly(st: State, l: Label, o: Oid, st1: State)
    requires Quiet(l) && Enabled(st, l) && st1 == Apply(st, l) && Abandoned(st, o)
    ensures Abandoned(st1, o)
  {
    QuietSteps(st, l, st1);
    FewerClaims(st, st1, o.sunum);
  }

  lemma {:induction false} AbandonedByTake(st: State, c: ChunkId, o: Oid, st1: State)
    requires FlightInv(st) && Enabled(st, Take(c)) && st1 == Apply(st, Take(c)) && Abandoned(st, o)
    ensures Abandoned(st1, o)
  {
    TakeMoves(st, c, st1);
    SameClaims(st, st1);
  }

  lemma {:induction false} AbandonedByBatch(st: State, l: Label, o: Oid, st1: State)
    requires FlightInv(st) && (l.Claim? || l.Take?) && Enabled(st, l) && st1 == Apply(st, l) && Abandoned(st, o)
    ensures Abandoned(st1, o)
  {
    if l.Claim? {
      AbandonedByClaim(st, l.w, l.batch, o, st1);
    } else {
      AbandonedByTake(st, l.chunk, o, st1);
    }
  }

  lemma {:induction false} AbandonedStays(st: State, l: Label, o: Oid, st1: State)
    requires FlightInv(st) && Enabled(st, l) && Obeys(st, l) && st1 == Apply(st, l) && Abandoned(st, o)
    ensures Abandoned(st1, o)
  {
    if Local(l) {
      AbandonedLocally(st, l, o, st1);
    } else if Quiet(l) {
      AbandonedQuietly(st, l, o, st1);
    } else if l.Dispatch? {
      AbandonedByDispatch(st, l, o, st1);
    } else if l.Consume? {
      AbandonedByConsume(st, l.o, o);
    } else {
      AbandonedByBatch(st, l, o, st1);
    }
  }

  lemma {:induction false} TimedOutIsAbandoned(st: State, w: WorkerId, s: Sunum, st1: State)
    requires FlightInv(st) && Enabled(st, TimeOut(w, s)) && st1 == Apply(st, TimeOut(w, s))
    ensures s in st.table.dict && Abandoned(st1, st.table.dict[s])
  {
    var o := st.table.dict[s];
    LocalIsChange(st, TimeOut(w, s), o, st1);
    IsClaimedAfterChange(st, st1, TimeOut(w, s), o);
  }

  lemma {:induction false} AbandonedNext(states: seq<State>, steps: seq<Label>, i: nat, o: Oid)
    requires GoodRun(states, steps) && i < |steps| && Abandoned(states[i], o)
    ensures Abandoned(states[i + 1], o)
  {
    StepOfGoodRun(states, steps, i);
    AbandonedStays(states[i], steps[i], o, states[i + 1]);
  }

  lemma {:induction false} AbandonedInRun(states: seq<State>, steps: seq<Label>, i: nat, j: nat, o: Oid)
    requires GoodRun(states, steps) && i <= j < |states| && Abandoned(states[i], o)
    ensures Abandoned(states[j], o)
    decreases j
  {
    if i < j {
      AbandonedInRun(states, steps, i, j - 1, o);
      AbandonedNext(states, steps, j - 1, o);
    }
  }

  lemma {:induction false} TimedOutInRun(states: seq<State>, steps: seq<Label>, i: nat)
    requires GoodRun(states, steps) && i < |steps| && steps[i].TimeOut?
    ensures steps[i].s in states[i].table.dict
    ensures Abandoned(states[i + 1], states[i].table.dict[steps[i].s])
  {
    StepOfGoodRun(states, steps, i);
    TimedOutIsAbandoned(states[i], steps[i].w, steps[i].s, states[i + 1]);
  }

  /** A storage unit that an ScpWorker timed out is never marked F afterwards; it stays D
      until it becomes E. */
  lemma {:induction false} TimedOutNeverFetched(states: seq<State>, steps: seq<Label>, i: nat, j: nat)
    requires GoodRun(states, steps) && i < j < |states| && steps[i].TimeOut?
    ensures steps[i].s in states[i].table.dict
    ensures var o := states[i].table.dict[steps[i].s];
            o in states[j].sus && (states[j].sus[o].status.D? || states[j].sus[o].status.E?)
  {
    TimedOutInRun(states, steps, i);
    AbandonedInRun(states, steps, i + 1, j, states[i].table.dict[steps[i].s]);
  }

  // ---------------------------------------------------------------- batches

  function Rank(status: SuStatus): nat {
    match status
    case P => 0
    case W => 1
    case D => 2
    case F => 3
    case C => 4
    case E => 4
  }

  /** No status ever comes back. */
  lemma {:induction false} StatusesGoForward(states: seq<State>, steps: seq<Label>, i: nat, j: nat, o: Oid)
    requires GoodRun(states, steps) && i <= j < |states| && o in states[i].sus
    ensures o in states[j].sus && Rank(states[i].sus[o].status) <= Rank(states[j].sus[o].status)
  {
    if i < j {
      StatusesGoForward(states, steps, i, j - 1, o);
      StatusHistory(states, steps, j - 1, o);
    }
  }

  lemma {:induction false} ClaimMarks(states: seq<State>, steps: seq<Label>, i: nat, o: Oid)
    requires GoodRun(states, steps) && i < |steps| && steps[i].Claim? && o in steps[i].batch
    ensures o in states[i].sus && states[i].sus[o].status.W?
    ensures o in states[i + 1].sus && states[i + 1].sus[o].status.D?
  {
    StepOfGoodRun(states, steps, i);
  }

  /** No storage-unit object is chosen twice in a run, by whatever ScpWorkers. */
  lemma {:induction false} ClaimedOnce(states: seq<State>, steps: seq<Label>, i: nat, j: nat)
    requires GoodRun(states, steps) && i < j < |steps| && steps[i].Claim? && steps[j].Claim?
    ensures steps[i].batch !! steps[j].batch
  {
    forall o | o in steps[i].batch ensures o !in steps[j].batch {
      ClaimMarks(states, steps, i, o);
      StatusesGoForward(states, steps, i + 1, j, o);
      if o in steps[j].batch {
        ClaimMarks(states, steps, j, o);
      }
    }
  }

  /** In every state the batches of different ScpWorkers are disjoint, and what they hold
      is being downloaded. */
  lemma {:induction false} BatchesAreDisjoint(states: seq<State>, steps: seq<Label>, n: nat, v: WorkerId, w: WorkerId,
                                              s: Sunum)
    requires GoodRun(states, steps) && n < |states| && (v, s) in states[n].claims && (w, s) in states[n].claims
    ensures v == w && s in states[n].table.dict && states[n].table.dict[s] in states[n].sus
    ensures Downloading(states[n].sus[states[n].table.dict[s]])
  {
    FlightAlwaysConsistent(states, steps, n);
  }
}
