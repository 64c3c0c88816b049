/** What each step of a good run does to the storage units and to the requests, and which
    storage units are complete in the end. */
module DaemonOutcomes {
  import opened SuTables
  import opened Daemon
  import opened DaemonTable
  import opened DaemonFlight
  import opened FlightSteps
  import opened DaemonRuns
  import opened DaemonVerdicts

  // ---------------------------------------------------------------- Dispatchers, Downloaders, ScpWorkers

  lemma {:induction false} ChangeLeavesOthers(st: State, st1: State, l: Label, o: Oid)
    requires Local(l) && (l.Notify? ==> st.notes[o] > 0) && Moved(st, st1, l, o)
    ensures o in st1.sus && st1.sus.Keys == st.sus.Keys && forall p | p in st.sus && p != o :: st1.sus[p] == st.sus[p]
    ensures st1.items[o] == st.items[o] + if Posts(l) then 1 else 0
  {
  }

  lemma {:induction false} LocalOutcome(st: State, l: Label, o: Oid, st1: State)
    requires FlightInv(st) && Local(l) && !l.Lost? && Enabled(st, l) && st1 == Apply(st, l) && o == Subject(st, l)
    ensures o in st.sus && o in st1.sus
    ensures Told(l, st.sus[o].status, st1.sus[o].status) && Arrives(l, st.sus[o], st1.sus[o])
    ensures st1.sus.Keys == st.sus.Keys && forall p | p in st.sus && p != o :: st1.sus[p] == st.sus[p]
    ensures st1.items[o] == st.items[o] + if Posts(l) then 1 else 0
  {
    LocalIsChange(st, l, o, st1);
    ChangeIsLegal(st, st1, l, o);
    ChangeLeavesOthers(st, st1, l, o);
  }

  /** What a thread does to a storage unit: the status and the place in the thread's program
      that its step means, and nothing to any other storage unit. */
  lemma {:induction false} ThreadsDoAsTold(states: seq<State>, steps: seq<Label>, i: nat)
    requires GoodRun(states, steps) && i < |steps| && Local(steps[i])
    requires Reports(steps[i]) ==> steps[i].s in states[i].table.dict
    ensures var st, st1, l, o := states[i], states[i + 1], steps[i], Subject(states[i], steps[i]);
            && o in st.sus && o in st1.sus
            && Told(l, st.sus[o].status, st1.sus[o].status) && Arrives(l, st.sus[o], st1.sus[o])
            && st1.sus.Keys == st.sus.Keys && (forall p | p in st.sus && p != o :: st1.sus[p] == st.sus[p])
            && st1.items[o] == st.items[o] + if Posts(l) then 1 else 0
  {
    StepOfGoodRun(states, steps, i);
    LocalOutcome(states[i], steps[i], Subject(states[i], steps[i]), states[i + 1]);
  }

  /** What was fetched is F, and what was not is E, whoever reports it. */
  lemma {:induction false} ReportsAreTrue(states: seq<State>, steps: seq<Label>, i: nat)
    requires GoodRun(states, steps) && i < |steps| && Reports(steps[i])
    ensures steps[i].s in states[i].table.dict
    ensures var o := states[i].table.dict[steps[i].s];
            && o in states[i].sus && o in states[i + 1].sus && states[i].sus[o].status.D?
            && states[i + 1].sus[o].status == (if steps[i].Fetched? then F else if steps[i].ScpFail? then E else D)
  {
    StepOfGoodRun(states, steps, i);
    ReportedIsClaimed(states[i], steps[i], states[i].table.dict[steps[i].s]);
    ThreadsDoAsTold(states, steps, i);
  }

  /** Once C, always C. */
  lemma {:induction false} CompleteStays(states: seq<State>, steps: seq<Label>, i: nat, j: nat, o: Oid)
    requires GoodRun(states, steps) && i <= j < |states| && o in states[i].sus && states[i].sus[o].status.C?
    ensures o in states[j].sus && states[j].sus[o].status.C?
  {
    if i < j {
      CompleteStays(states, steps, i, j - 1, o);
      StatusHistory(states, steps, j - 1, o);
    }
  }

  /** A successful download is C in every later state. */
  lemma {:induction false} IngestedIsComplete(states: seq<State>, steps: seq<Label>, i: nat, j: nat, o: Oid)
    requires GoodRun(states, steps) && i < j < |states| && steps[i] == Resolve(o, Ingested)
    ensures o in states[j].sus && states[j].sus[o].status.C?
  {
    ThreadsDoAsTold(states, steps, i);
    CompleteStays(states, steps, i + 1, j, o);
  }

  /** An ScpWorker's choice: it has what it chose, which is D, and nothing else changes. */
  lemma {:induction false} ClaimTakes(states: seq<State>, steps: seq<Label>, i: nat)
    requires GoodRun(states, steps) && i < |steps| && steps[i].Claim?
    ensures forall o | o in steps[i].batch ::
              (steps[i].w, o.sunum) in states[i + 1].claims && o in states[i].sus && o in states[i + 1].sus
              && states[i].sus[o].status.W? && states[i + 1].sus[o] == states[i].sus[o].(status := D)
    ensures forall o | o in states[i].sus && o !in steps[i].batch ::
              o in states[i + 1].sus && states[i + 1].sus[o] == states[i].sus[o]
  {
    StepOfGoodRun(states, steps, i);
  }

  /** A Dispatcher takes a chunk: it holds exactly the storage units of that chunk. */
  lemma {:induction false} ChunkIsTaken(states: seq<State>, steps: seq<Label>, i: nat)
    requires GoodRun(states, steps) && i < |steps| && steps[i].Take?
    ensures states[i + 1].queue == states[i].queue - {steps[i].chunk}
    ensures forall o | o in states[i].sus ::
              o in states[i + 1].sus
              && states[i + 1].sus[o] == if states[i].sus[o].stage == Queued(steps[i].chunk)
                                         then states[i].sus[o].(stage := Held) else states[i].sus[o]
  {
    StepOfGoodRun(states, steps, i);
    TakeMoves(states[i], steps[i].chunk, states[i + 1]);
  }

  // ---------------------------------------------------------------- main

  /** A storage unit that is new to the daemon: online ones are complete, ones without a
      site have errored out, both with their completion item; the others wait in a chunk
      for the Dispatcher of the request's class. */
  ghost predicate Created(st: State, st1: State, id: ReqId, s: Sunum, place: Place, stamp: nat) {
    var o := Oid(s, stamp);
    && o !in st.sus && o in st1.sus && InTable(st1, o) && id in st.reqs && st1.sus[o].cls == st.reqs[id].cls
    && st1.sus[o].worker.NoWorker?
    && match place
       case Online => st1.sus[o].status.C? && st1.sus[o].stage.Done? && st1.items[o] == 1
       case NoSite => st1.sus[o].status.E? && st1.sus[o].stage.Done? && st1.items[o] == 1
       case InChunk(c) =>
         && st1.sus[o].status.P? && st1.sus[o].stage == Queued(c) && st1.items[o] == 0
         && c in st1.queue && s in st1.queue[c].sunums && st1.queue[c].cls == st.reqs[id].cls
  }

  lemma {:induction false} GrowthCreates(st: State, st1: State, id: ReqId, plan: map<Sunum, Place>, stamp: nat,
                                         s: Sunum)
    requires id in st.reqs && Grows(st, st1, id, plan, stamp) && s in plan
    ensures Created(st, st1, id, s, plan[s], stamp)
  {
    if plan[s].InChunk? {
      var c := plan[s].chunk;
      assert c in Chunks(plan);
      assert s in Members(plan, c);
    }
  }

  /** What a dispatch does: the request is pending and listed for all its storage units;
      those that were in the table stay as they are. */
  lemma {:induction false} DispatchCreates(states: seq<State>, steps: seq<Label>, i: nat)
    requires GoodRun(states, steps) && i < |steps| && steps[i].Dispatch?
    ensures var st, st1, id := states[i], states[i + 1], steps[i].id;
            && id in st.reqs && st1.reqs == st.reqs[id := st.reqs[id].(status := Pending)]
            && (forall q, s :: q in Listed(st1.table, s) <==>
                  q in Listed(st.table, s) || (q == id && s in st.reqs[id].sunums))
            && (forall s | s in st.reqs[id].sunums && s !in st.table.dict ::
                  s in steps[i].plan && Created(st, st1, id, s, steps[i].plan[s], steps[i].stamp))
            && (forall o | o in st.sus :: o in st1.sus && st1.sus[o] == st.sus[o] && st1.items[o] == st.items[o])
  {
    StepOfGoodRun(states, steps, i);
    var st, st1, id, plan, stamp := states[i], states[i + 1], steps[i].id, steps[i].plan, steps[i].stamp;
    DispatchGrows(st, id, plan, stamp, st1);
    PlannableIsUntracked(st, id, plan);
    DispatchLists(st, id, plan, stamp, st1.table);
    forall s | s in st.reqs[id].sunums && s !in st.table.dict
      ensures s in plan && Created(st, st1, id, s, plan[s], stamp)
    {
      GrowthCreates(st, st1, id, plan, stamp, s);
    }
  }

  /** A request and its list of completed storage units after `s` was added. */
  predicate CountsOneMore(req: Request, req1: Request, s: Sunum) {
    && s in req1.done && (forall q | q in req1.done :: q in req.done || q == s)
    && (forall q | q in req.done :: q in req1.done)
    && req1.sunums == req.sunums && req1.repeated == req.repeated && req1.cls == req.cls && req1.status == req.status
  }

  lemma {:induction false} ConsumeCounts(st: State, o: Oid, st1: State)
    requires FlightInv(st) && Enabled(st, Consume(o)) && st1 == ItemTaken(st, o)
    ensures st1.reqs.Keys == st.reqs.Keys && o in st1.sus && st1.items[o] == 0 && InTable(st, o)
    ensures st1.sus[o].status == if st.sus[o].status.C? then C else E
    ensures forall p | p in st.sus && p != o :: p in st1.sus && st1.sus[p] == st.sus[p]
    ensures forall r | r in Listed(st.table, o.sunum) ::
              r in st.reqs && st.reqs[r].status.Pending? && CountsOneMore(st.reqs[r], st1.reqs[r], o.sunum)
    ensures forall r | r in st.reqs && r !in Listed(st.table, o.sunum) :: st1.reqs[r] == st.reqs[r]
  {
    ConsumeFinds(st, o);
    assert SuOk(st, o);
    assert Listed(st.table, o.sunum) == st.table.suMap[o.sunum];
  }

  /** What main does with a completion item: every request that is listed for the storage
      unit counts it, no other request changes, and whatever is not C has errored out. */
  lemma {:induction false} ItemsAreCounted(states: seq<State>, steps: seq<Label>, i: nat, o: Oid)
    requires GoodRun(states, steps) && i < |steps| && steps[i] == Consume(o)
    ensures var st, st1 := states[i], states[i + 1];
            && o in st.sus && o in st1.sus && st1.reqs.Keys == st.reqs.Keys
            && st1.sus[o].status == (if st.sus[o].status.C? then C else E)
            && (forall p | p in st.sus && p != o :: p in st1.sus && st1.sus[p] == st.sus[p])
            && (forall r | r in Listed(st.table, o.sunum) ::
                  r in st.reqs && st.reqs[r].status.Pending? && CountsOneMore(st.reqs[r], st1.reqs[r], o.sunum))
            && (forall r | r in st.reqs && r !in Listed(st.table, o.sunum) :: st1.reqs[r] == st.reqs[r])
  {
    StepOfGoodRun(states, steps, i);
    ConsumeCounts(states[i], o, states[i + 1]);
  }

  /** The table after a request was taken off it. */
  ghost predicate Unlisted(t: Table<Oid>, t1: Table<Oid>, id: ReqId) {
    && (forall q, s :: q in Listed(t1, s) <==> q in Listed(t, s) && q != id)
    && (forall s | s in t1.dict :: s in t.dict && t1.dict[s] == t.dict[s])
  }

  /** What happens to the rows of requests: a new one is entered as it is, one that was
      deleted is gone, one that waited too long has failed, and one that ended is neither
      new nor pending; the others stay as they are. */
  lemma {:induction false} RowsChange(states: seq<State>, steps: seq<Label>, i: nat)
    requires GoodRun(states, steps) && i < |steps|
    requires steps[i].Arrive? || steps[i].Vanish? || steps[i].Expire? || steps[i].Finish?
    ensures var st, st1, id := states[i], states[i + 1], steps[i].id;
            && (forall r | r != id :: r in st1.reqs <==> r in st.reqs)
            && (forall r | r in st.reqs && r != id :: st1.reqs[r] == st.reqs[r])
            && st1.sus == st.sus && st1.items == st.items
            && match steps[i]
               case Arrive(_, req) => id in st1.reqs && st1.reqs[id] == req && st1.table == st.table
               case Vanish(_) => id !in st1.reqs && Unlisted(st.table, st1.table, id)
               case Expire(_) =>
                 id in st.reqs && st1.reqs == st.reqs[id := st.reqs[id].(status := Failed)] && st1.table == st.table
               case Finish(_) =>
                 id in st1.reqs && Unlisted(st.table, st1.table, id)
                 && (st1.reqs[id].status.Completed? || st1.reqs[id].status.Failed?)
  {
    StepOfGoodRun(states, steps, i);
    var st, st1, id := states[i], states[i + 1], steps[i].id;
    if steps[i].Vanish? || steps[i].Finish? {
      RowReleased(st, steps[i], st1);
    }
  }

  lemma {:induction false} RowDeleted(st: State, id: ReqId, st1: State)
    requires TableInv(st) && id in st.reqs && ListedWhereFound(st.table, id, st.reqs[id].sunums)
    requires st1 == Vanished(st, id)
    ensures (forall r | r != id :: r in st1.reqs <==> r in st.reqs)
    ensures (forall r | r in st.reqs && r != id :: st1.reqs[r] == st.reqs[r])
    ensures st1.sus == st.sus && st1.items == st.items && Unlisted(st.table, st1.table, id)
    ensures id !in st1.reqs
  {
    Released(st, id, st1.table);
  }

  lemma {:induction false} RowEnded(st: State, id: ReqId, st1: State)
    requires TableInv(st) && id in st.reqs && ListedWhereFound(st.table, id, st.reqs[id].sunums)
    requires st1 == Finished(st, id)
    ensures (forall r | r != id :: r in st1.reqs <==> r in st.reqs)
    ensures (forall r | r in st.reqs && r != id :: st1.reqs[r] == st.reqs[r])
    ensures st1.sus == st.sus && st1.items == st.items && Unlisted(st.table, st1.table, id)
    ensures id in st1.reqs && (st1.reqs[id].status.Completed? || st1.reqs[id].status.Failed?)
  {
    Released(st, id, st1.table);
  }

  lemma {:induction false} RowReleased(st: State, l: Label, st1: State)
    requires FlightInv(st) && (l.Vanish? || l.Finish?) && Enabled(st, l) && Obeys(st, l) && st1 == Apply(st, l)
    ensures (forall r | r != l.id :: r in st1.reqs <==> r in st.reqs)
    ensures (forall r | r in st.reqs && r != l.id :: st1.reqs[r] == st.reqs[r])
    ensures st1.sus == st.sus && st1.items == st.items && Unlisted(st.table, st1.table, l.id)
    ensures if l.Vanish? then l.id !in st1.reqs
            else l.id in st1.reqs && (st1.reqs[l.id].status.Completed? || st1.reqs[l.id].status.Failed?)
  {
    if l.Finish? {
      CompletedIsConsumed(st, l.id);
      RowEnded(st, l.id, st1);
    } else {
      RowDeleted(st, l.id, st1);
    }
  }

  // ---------------------------------------------------------------- what completes

  /** One of the first `n` steps completed `o`: its Downloader entered it, its Dispatcher
      skipped it as complete, or it was online when it was created. */
  ghost predicate WasCompleted(steps: seq<Label>, n: nat, o: Oid)
    requires n <= |steps|
  {
    exists i | 0 <= i < n :: Completes(steps[i], o)
  }

  predicate Completes(l: Label, o: Oid) {
    || l == Resolve(o, Ingested)
    || l == Skip(o, C)
    || (l.Dispatch? && l.stamp == o.stamp && o.sunum in l.plan && l.plan[o.sunum].Online?)
  }

  predicate IsC(st: State, o: Oid) {
    o in st.sus && st.sus[o].status.C?
  }

  lemma {:induction false} ToldComplete(l: Label, a: SuStatus, b: SuStatus)
    requires Local(l) && Told(l, a, b) && Move(a, b)
    ensures b.C? <==> a.C? || (l.Resolve? && l.outcome.Ingested?) || (l.Skip? && l.status.C?)
  {
  }

  lemma {:induction false} LocalCompletes(l: Label, p: Oid, o: Oid)
    requires Local(l) && (!Reports(l) ==> p == l.o)
    ensures Completes(l, o) <==> p == o && ((l.Resolve? && l.outcome.Ingested?) || (l.Skip? && l.status.C?))
  {
  }

  /** What `LocalOutcome` and `StatusStep` say of the subject `p`, and of any `o`. */
  lemma {:induction false} CompletedBySubject(st: State, l: Label, p: Oid, o: Oid, st1: State)
    requires Local(l) && p in st.sus && p in st1.sus && (!Reports(l) ==> p == l.o)
    requires Told(l, st.sus[p].status, st1.sus[p].status) && Move(st.sus[p].status, st1.sus[p].status)
    requires st1.sus.Keys == st.sus.Keys && forall q | q in st.sus && q != p :: st1.sus[q] == st.sus[q]
    ensures IsC(st1, o) <==> IsC(st, o) || Completes(l, o)
  {
    LocalCompletes(l, p, o);
    ToldComplete(l, st.sus[p].status, st1.sus[p].status);
  }

  lemma {:induction false} SubjectMoves(st: State, l: Label, p: Oid, st1: State)
    requires FlightInv(st) && Local(l) && !l.Lost? && Enabled(st, l) && st1 == Apply(st, l) && p == Subject(st, l)
    ensures p in st.sus && p in st1.sus && Move(st.sus[p].status, st1.sus[p].status)
  {
    LocalGuardHolds(st, l, p);
    LocalStatusStep(st, l, p, st1);
  }

  /** Who completes a storage unit: a thread's own step, as told. */
  lemma {:induction false} CompletedLocally(st: State, l: Label, o: Oid, st1: State)
    requires FlightInv(st) && Local(l) && !l.Lost? && Enabled(st, l) && st1 == Apply(st, l)
    ensures IsC(st1, o) <==> IsC(st, o) || Completes(l, o)
  {
    var p := Subject(st, l);
    LocalOutcome(st, l, p, st1);
    SubjectMoves(st, l, p, st1);
    CompletedBySubject(st, l, p, o, st1);
  }

  lemma {:induction false} CompletedByDispatch(st: State, l: Label, o: Oid, st1: State)
    requires FlightInv(st) && l.Dispatch? && Enabled(st, l) && st1 == Apply(st, l)
    ensures IsC(st1, o) <==> IsC(st, o) || Completes(l, o)
  {
    DispatchGrows(st, l.id, l.plan, l.stamp, st1);
    CompletedByGrowth(st, st1, l, o);
  }

  lemma {:induction false} NotCompletedQuietly(st: State, l: Label, o: Oid, st1: State)
    requires Quiet(l) && Enabled(st, l) && st1 == Apply(st, l)
    ensures IsC(st1, o) <==> IsC(st, o)
  {
    QuietSteps(st, l, st1);
  }

  lemma {:induction false} CompletedByGrowth(st: State, st1: State, l: Label, o: Oid)
    requires l.Dispatch? && l.id in st.reqs && Grows(st, st1, l.id, l.plan, l.stamp)
    ensures IsC(st1, o) <==> IsC(st, o) || Completes(l, o)
  {
    if o.sunum in l.plan {
      GrowthCreates(st, st1, l.id, l.plan, l.stamp, o.sunum);
    }
  }

  lemma {:induction false} NotCompletedByTake(st: State, os: set<Oid>, st1: State, o: Oid)
    requires st1.sus == HoldAll(st.sus, os)
    ensures IsC(st1, o) <==> IsC(st, o)
  {
  }

  lemma {:induction false} NotCompletedByClaim(st: State, l: Label, st1: State, o: Oid)
    requires l.Claim? && Enabled(st, l) && st1.sus == DownloadAll(st.sus, l.batch)
    ensures IsC(st1, o) <==> IsC(st, o)
  {
  }

  lemma {:induction false} NotCompletedByMain(st: State, l: Label, st1: State, o: Oid)
    requires FlightInv(st) && l.Consume? && Enabled(st, l) && st1 == ItemTaken(st, l.o)
    ensures IsC(st1, o) <==> IsC(st, o)
  {
    ConsumeFinds(st, l.o);
  }

  lemma {:induction false} NotCompletedByBatch(st: State, l: Label, o: Oid, st1: State)
    requires (l.Take? || l.Claim?) && Enabled(st, l) && st1 == Apply(st, l)
    ensures IsC(st1, o) <==> IsC(st, o)
  {
    if l.Take? {
      NotCompletedByTake(st, Found(st.table, st.queue[l.chunk].sunums), st1, o);
    } else {
      NotCompletedByClaim(st, l, st1, o);
    }
  }

  lemma {:induction false} OthersComplete(l: Label, o: Oid)
    requires !Local(l) && !l.Dispatch?
    ensures !Completes(l, o)
  {
  }

  lemma {:induction false} CompletionStep(st: State, l: Label, o: Oid, st1: State)
    requires FlightInv(st) && Enabled(st, l) && Obeys(st, l) && st1 == Apply(st, l)
    ensures IsC(st1, o) <==> IsC(st, o) || Completes(l, o)
  {
    if Local(l) {
      CompletedLocally(st, l, o, st1);
    } else if l.Dispatch? {
      CompletedByDispatch(st, l, o, st1);
    } else {
      OthersComplete(l, o);
      if Quiet(l) {
        NotCompletedQuietly(st, l, o, st1);
      } else if l.Consume? {
        NotCompletedByMain(st, l, st1, o);
      } else {
        NotCompletedByBatch(st, l, o, st1);
      }
    }
  }

  lemma {:induction false} CompletionInRun(states: seq<State>, steps: seq<Label>, i: nat, o: Oid)
    requires GoodRun(states, steps) && i < |steps|
    ensures IsC(states[i + 1], o) <==> IsC(states[i], o) || Completes(steps[i], o)
  {
    StepOfGoodRun(states, steps, i);
    CompletionStep(states[i], steps[i], o, states[i + 1]);
  }

  /** In every state of every good run: a storage unit is C if and only if it was ingested,
      skipped as complete, or online at its creation. */
  lemma {:induction false} CompleteIffSucceeded(states: seq<State>, steps: seq<Label>, n: nat, o: Oid)
    requires GoodRun(states, steps) && n < |states|
    ensures o in states[n].sus && states[n].sus[o].status.C? <==> WasCompleted(steps, n, o)
  {
    if n > 0 {
      CompletionInRun(states, steps, n - 1, o);
      CompleteIffSucceeded(states, steps, n - 1, o);
    }
  }

  /** What main consumed completed if and only if it had succeeded by then, and has errored
      out otherwise. */
  lemma {:induction false} ConsumedIsTrue(states: seq<State>, steps: seq<Label>, n: nat, o: Oid)
    requires GoodRun(states, steps) && n < |states| && Consumed(states[n], o)
    ensures states[n].sus[o].status == if WasCompleted(steps, n, o) then C else E
  {
    CompleteIffSucceeded(states, steps, n, o);
    ConsumedIsFinal(states, steps, n, n, o);
  }

  /** The verdict on a request, by what happened to its storage units: it completes if and
      only if each of them succeeded. */
  lemma {:induction false} VerdictIsTrue(states: seq<State>, steps: seq<Label>, i: nat, id: ReqId)
    requires GoodRun(states, steps) && i < |steps| && steps[i] == Finish(id)
    ensures id in states[i].reqs && id in states[i + 1].reqs
    ensures forall s | s in states[i].reqs[id].sunums :: s in states[i].table.dict
    ensures states[i + 1].reqs[id].status
            == if forall s | s in states[i].reqs[id].sunums :: WasCompleted(steps, i, states[i].table.dict[s])
               then Completed else Failed
  {
    Verdict(states, steps, i, id);
    forall s | s in states[i].reqs[id].sunums
      ensures s in states[i].table.dict
      ensures Ended(states[i], s, E) <==> !WasCompleted(steps, i, states[i].table.dict[s])
    {
      assert Ended(states[i], s, C) || Ended(states[i], s, E);
      ConsumedIsTrue(states, steps, i, states[i].table.dict[s]);
    }
  }
}
