/** What holds over whole runs of the daemon. */
module DaemonRuns {
  import opened SuTables
  import opened Daemon
  import opened DaemonTable
  import opened DaemonFlight
  import opened FlightSteps

  ghost predicate StepAt(states: seq<State>, steps: seq<Label>, i: nat)
    requires |states| == |steps| + 1 && i < |steps|
  {
    Enabled(states[i], steps[i]) && states[i + 1] == Apply(states[i], steps[i])
  }

  /** A run from start-up: any threads, in any order. */
  ghost predicate Run(states: seq<State>, steps: seq<Label>) {
    |states| == |steps| + 1 && Init(states[0]) && forall i | 0 <= i < |steps| :: StepAt(states, steps, i)
  }

  /** A run whose steps all obey the rules. */
  ghost predicate GoodRun(states: seq<State>, steps: seq<Label>) {
    Run(states, steps) && forall i | 0 <= i < |steps| :: Obeys(states[i], steps[i])
  }

  /** None of the first `n` steps dispatches a request that repeats a listed SUNUM. */
  ghost predicate NoRepeats(steps: seq<Label>, n: nat)
    requires n <= |steps|
  {
    forall i | 0 <= i < n :: !steps[i].DispatchRepeat?
  }

  /** Whatever else happens, the SU table and the request lists agree, and a listed request
      is a pending one that wants the storage unit. */
  lemma {:induction false} TablesAlwaysAgree(states: seq<State>, steps: seq<Label>, n: nat)
    requires Run(states, steps) && n < |states| && NoRepeats(steps, n)
    ensures TableInv(states[n])
  {
    if n == 0 {
      TableInvInit(states[0]);
    } else {
      TablesAlwaysAgree(states, steps, n - 1);
      assert StepAt(states, steps, n - 1);
      StepKeepsTables(states[n - 1], steps[n - 1]);
    }
  }

  /** The first `n` steps led through states in which the tables agree, as far as main was
      up: an exception in the middle of a release may leave anything behind. */
  ghost predicate AgreedSoFar(states: seq<State>, n: nat)
    requires n < |states|
  {
    forall i | 0 <= i <= n && !states[i].down :: TableInv(states[i])
  }

  /** The tables agree over a run exactly when no dispatched request repeats a SUNUM that
      is listed already. */
  lemma {:induction false} AgreeUnlessRepeated(states: seq<State>, steps: seq<Label>, n: nat)
    requires Run(states, steps) && n < |states|
    ensures AgreedSoFar(states, n) <==> NoRepeats(steps, n)
  {
    if NoRepeats(steps, n) {
      forall i | 0 <= i <= n && !states[i].down ensures TableInv(states[i]) {
        TablesAlwaysAgree(states, steps, i);
      }
    } else {
      var k: nat :| k < n && steps[k].DispatchRepeat?;
      assert StepAt(states, steps, k);
      if TableInv(states[k]) {
        RepeatBreaksTables(states[k], steps[k]);
        assert !TableInv(states[k + 1]) && !states[k + 1].down;
      }
    }
  }

  /** Lists without repetitions are enough. */
  lemma {:induction false} DistinctListsNeverRepeat(states: seq<State>, steps: seq<Label>, n: nat)
    requires Run(states, steps) && n < |states|
    requires NoneRepeated(states[0]) && forall i | 0 <= i < n && steps[i].Arrive? :: steps[i].req.repeated == {}
    ensures NoRepeats(steps, n) && NoneRepeated(states[n])
  {
    if n > 0 {
      DistinctListsNeverRepeat(states, steps, n - 1);
      assert StepAt(states, steps, n - 1);
      RepeatedKept(states[n - 1], steps[n - 1], states[n]);
      forall i | 0 <= i < n ensures !steps[i].DispatchRepeat? {
      }
    }
  }

  lemma {:induction false} LocalStep(st: State, l: Label, st1: State)
    requires Local(l) && Enabled(st, l) && st1 == Apply(st, l)
    ensures st1.reqs == st.reqs && st1.table == st.table
  {
  }

  ghost predicate NoneRepeated(st: State) {
    forall r | r in st.reqs :: st.reqs[r].repeated == {}
  }

  lemma {:induction false} RepeatedByRelease(st: State, id: ReqId, st1: State)
    requires id in st.reqs && (st1 == Vanished(st, id) || st1 == Finished(st, id)) && NoneRepeated(st)
    ensures NoneRepeated(st1)
  {
  }

  lemma {:induction false} RepeatedByMain(st: State, l: Label, st1: State)
    requires l.Arrive? || l.Dispatch? || l.Expire?
    requires Enabled(st, l) && st1 == Apply(st, l) && NoneRepeated(st) && (l.Arrive? ==> l.req.repeated == {})
    ensures NoneRepeated(st1)
  {
  }

  lemma {:induction false} RepeatedByConsume(st: State, o: Oid, st1: State)
    requires o in st.sus && st1 == ItemTaken(st, o) && NoneRepeated(st)
    ensures NoneRepeated(st1)
  {
  }

  lemma {:induction false} RepeatedKept(st: State, l: Label, st1: State)
    requires Enabled(st, l) && st1 == Apply(st, l) && NoneRepeated(st) && (l.Arrive? ==> l.req.repeated == {})
    ensures !l.DispatchRepeat? && NoneRepeated(st1)
  {
    if Local(l) {
      LocalStep(st, l, st1);
    } else if l.Consume? {
      RepeatedByConsume(st, l.o, st1);
    } else if l.Vanish? || l.Finish? {
      RepeatedByRelease(st, l.id, st1);
    } else if l.Arrive? || l.Dispatch? || l.Expire? {
      RepeatedByMain(st, l, st1);
    }
  }

  lemma {:induction false} FlightAlwaysConsistent(states: seq<State>, steps: seq<Label>, n: nat)
    requires GoodRun(states, steps) && n < |states|
    ensures FlightInv(states[n])
  {
    if n == 0 {
      FlightInvInit(states[0]);
    } else {
      FlightAlwaysConsistent(states, steps, n - 1);
      assert StepAt(states, steps, n - 1);
      StepKeepsFlight(states[n - 1], steps[n - 1]);
    }
  }

  lemma {:induction false} StepOfGoodRun(states: seq<State>, steps: seq<Label>, i: nat)
    requires GoodRun(states, steps) && i < |steps|
    ensures FlightInv(states[i]) && FlightInv(states[i + 1])
    ensures Enabled(states[i], steps[i]) && Obeys(states[i], steps[i]) && states[i + 1] == Apply(states[i], steps[i])
  {
    FlightAlwaysConsistent(states, steps, i);
    FlightAlwaysConsistent(states, steps, i + 1);
    assert StepAt(states, steps, i);
  }

  /** A storage unit whose item was not consumed stays in the table, with a reference. */
  lemma {:induction false} InFlightStays(states: seq<State>, steps: seq<Label>, n: nat, o: Oid)
    requires GoodRun(states, steps) && n < |states| && o in states[n].sus && !Consumed(states[n], o)
    ensures InTable(states[n], o) && o.sunum in states[n].table.suMap
    ensures o.sunum in states[n].table.refs && states[n].table.refs[o.sunum] >= 1
  {
    FlightAlwaysConsistent(states, steps, n);
    assert SuOk(states[n], o);
  }

  /** Main never meets a missing key, a missing list entry or an unknown request. */
  lemma {:induction false} MainStaysUp(states: seq<State>, steps: seq<Label>, n: nat)
    requires GoodRun(states, steps) && n < |states|
    ensures !states[n].down
    ensures n < |steps| && steps[n].Consume? ==> steps[n].o.sunum in states[n].table.suMap
  {
    FlightAlwaysConsistent(states, steps, n);
    if n < |steps| && steps[n].Consume? {
      StepOfGoodRun(states, steps, n);
      ConsumeFinds(states[n], steps[n].o);
    }
  }

  /** No notification is lost, and the Downloader that hears it sees D, F or E. */
  lemma {:induction false} NotificationsAreHeard(states: seq<State>, steps: seq<Label>, i: nat)
    requires GoodRun(states, steps) && i < |steps| && steps[i].Notify?
    ensures var o := steps[i].o;
            && At(states[i], o, Waiting) && At(states[i + 1], o, Awake)
            && Reported(states[i + 1].sus[o].status)
  {
    StepOfGoodRun(states, steps, i);
    NotifyIsHeard(states[i], steps[i].o, states[i + 1]);
  }

  // ---------------------------------------------------------------- statuses

  /** The status changes that are possible. */
  predicate Move(a: SuStatus, b: SuStatus) {
    match a
    case P => b.P? || b.W? || b.C? || b.E?
    case W => b.W? || b.D?
    case D => b.D? || b.F? || b.E?
    case F => b.F? || b.C? || b.E?
    case C => b.C?
    case E => b.E?
  }

  lemma {:induction false} LocalMove(su: Su, l: Label, claimed: bool, notes: nat)
    requires Local(l) && LocalGuard(su, l, claimed, notes) && Fits(su, claimed, notes)
    requires l.Resolve? && l.outcome.Ingested? ==> su.status.F?
    ensures Move(su.status, Changed(su, l).status)
    ensures Changed(su, l).status.C? ==>
              su.status.C? || (su.status.F? && l.Resolve? && l.outcome.Ingested?) || (su.status.P? && l.Skip?)
    ensures Changed(su, l).status.F? ==> su.status.F? || (su.status.D? && l.Fetched?)
  {
  }

  /** How the status of a storage unit changes in one step. */
  ghost predicate StatusStep(st: State, st1: State, l: Label, o: Oid)
    requires o in st.sus
  {
    && o in st1.sus && Move(st.sus[o].status, st1.sus[o].status)
    && (st1.sus[o].status.C? && !st.sus[o].status.C? ==>
          || (st.sus[o].status.F? && l == Resolve(o, Ingested)) // the download succeeded
          || (st.sus[o].status.P? && l == Skip(o, C)))          // invalid or offline at the provider
    && (st1.sus[o].status.F? && !st.sus[o].status.F? ==>
          st.sus[o].status.D? && l.Fetched? && l.s == o.sunum && (l.w, l.s) in st.claims)
  }

  lemma {:induction false} ChangeStatus(st: State, st1: State, l: Label, p: Oid, o: Oid)
    requires Local(l) && LocalChange(st, st1, l, p) && o in st.sus
    requires Fits(st.sus[p], IsClaimed(st, p.sunum), st.notes[p])
    requires l.Resolve? && l.outcome.Ingested? ==> st.sus[p].status.F?
    requires !Reports(l) ==> p == l.o
    requires Reports(l) ==> p.sunum == l.s
    ensures StatusStep(st, st1, l, o)
  {
    LocalMove(st.sus[p], l, IsClaimed(st, p.sunum), st.notes[p]);
  }

  lemma {:induction false} LocalStatusStep(st: State, l: Label, o: Oid, st1: State)
    requires FlightInv(st) && Local(l) && !l.Lost? && Enabled(st, l) && o in st.sus && st1 == Apply(st, l)
    ensures StatusStep(st, st1, l, o)
  {
    var p := Subject(st, l);
    LocalIsChange(st, l, p, st1);
    assert SuOk(st, p);
    ChangeStatus(st, st1, l, p, o);
  }

  lemma {:induction false} ClaimStatusStep(st: State, w: WorkerId, batch: set<Oid>, o: Oid, st1: State)
    requires FlightInv(st) && Enabled(st, Claim(w, batch)) && o in st.sus && st1.sus == DownloadAll(st.sus, batch)
    ensures StatusStep(st, st1, Claim(w, batch), o)
  {
    if o in batch {
      ChosenIsFree(st, w, batch, o);
    }
  }

  lemma {:induction false} ConsumeStatusStep(st: State, p: Oid, o: Oid)
    requires FlightInv(st) && Enabled(st, Consume(p)) && o in st.sus
    ensures StatusStep(st, ItemTaken(st, p), Consume(p), o)
  {
    ConsumeFinds(st, p);
    assert SuOk(st, o);
  }

  /** Steps that concern no storage-unit object. */
  predicate Quiet(l: Label) {
    l.Arrive? || l.Vanish? || l.Expire? || l.DispatchFail? || l.Finish? || l.Drop?
  }

  lemma {:induction false} QuietSteps(st: State, l: Label, st1: State)
    requires Quiet(l) && Enabled(st, l) && st1 == Apply(st, l)
    ensures st1.sus == st.sus && st1.items == st.items
  {
  }

  lemma {:induction false} StepStatus(st: State, l: Label, o: Oid, st1: State)
    requires FlightInv(st) && Enabled(st, l) && Obeys(st, l) && o in st.sus && st1 == Apply(st, l)
    ensures StatusStep(st, st1, l, o)
  {
    if Local(l) {
      LocalStatusStep(st, l, o, st1);
    } else if Quiet(l) {
      QuietSteps(st, l, st1);
    } else {
      match l
      case Dispatch(id, plan, stamp) => DispatchGrows(st, id, plan, stamp, st1);
      case Consume(p) => ConsumeStatusStep(st, p, o);
      case Claim(w, batch) => ClaimStatusStep(st, w, batch, o, st1);
      case Take(c) => TakeMoves(st, c, st1);
    }
  }

  /** Every status history is legal: C is reached only from F by the Downloader, from P
      by the Dispatcher, or at creation. */
  lemma {:induction false} StatusHistory(states: seq<State>, steps: seq<Label>, i: nat, o: Oid)
    requires GoodRun(states, steps) && i < |steps| && o in states[i].sus
    ensures StatusStep(states[i], states[i + 1], steps[i], o)
  {
    StepOfGoodRun(states, steps, i);
    StepStatus(states[i], steps[i], o, states[i + 1]);
  }

  // ---------------------------------------------------------------- completion items

  predicate IsDone(st: State, o: Oid) {
    o in st.sus && st.sus[o].stage.Done?
  }

  /** What one step does to the completion item of `o`. */
  ghost predicate ItemStep(st: State, st1: State, o: Oid) {
    && (st1.items[o] > st.items[o] <==> !IsDone(st, o) && IsDone(st1, o))
    && (st1.items[o] < st.items[o] <==> !Consumed(st, o) && Consumed(st1, o))
    && (IsDone(st, o) ==> IsDone(st1, o))
    && (Consumed(st, o) ==> Consumed(st1, o) && st1.sus[o].status == st.sus[o].status)
  }

  lemma {:induction false} ChangeItems(st: State, st1: State, l: Label, p: Oid, o: Oid)
    requires Local(l) && LocalChange(st, st1, l, p)
    requires Legal(st.sus[p], st1.sus[p], l, IsClaimed(st, p.sunum))
    ensures ItemStep(st, st1, o)
  {
    ChangeKeepsConsumed(st, st1, l, p);
  }

  lemma {:induction false} LocalItemStep(st: State, l: Label, o: Oid, st1: State)
    requires FlightInv(st) && Local(l) && !l.Lost? && Enabled(st, l) && st1 == Apply(st, l)
    ensures ItemStep(st, st1, o)
  {
    var p := Subject(st, l);
    LocalIsChange(st, l, p, st1);
    ChangeIsLegal(st, st1, l, p);
    ChangeItems(st, st1, l, p, o);
  }

  lemma {:induction false} GrowthItems(st: State, st1: State, id: ReqId, plan: map<Sunum, Place>, stamp: nat, o: Oid)
    requires SusOk(st) && id in st.reqs && Grows(st, st1, id, plan, stamp)
    ensures ItemStep(st, st1, o)
  {
    if o !in st.sus && o in st1.sus {
      assert o == Oid(o.sunum, stamp) && o !in st.items;
    }
  }

  lemma {:induction false} ConsumeItemStep(st: State, p: Oid, o: Oid, st1: State)
    requires FlightInv(st) && Enabled(st, Consume(p)) && st1 == ItemTaken(st, p)
    ensures ItemStep(st, st1, o)
  {
    ConsumeFinds(st, p);
    if o in st.sus {
      assert SuOk(st, o);
    }
  }

  lemma {:induction false} ClaimItemStep(st: State, w: WorkerId, batch: set<Oid>, o: Oid, st1: State)
    requires FlightInv(st) && Enabled(st, Claim(w, batch))
    requires st1.sus == DownloadAll(st.sus, batch) && st1.items == st.items
    ensures ItemStep(st, st1, o)
  {
    if o in batch {
      ChosenIsFree(st, w, batch, o);
    }
  }

  lemma {:induction false} StepItems(st: State, l: Label, o: Oid, st1: State)
    requires FlightInv(st) && Enabled(st, l) && Obeys(st, l) && st1 == Apply(st, l)
    ensures ItemStep(st, st1, o)
  {
    if Local(l) {
      LocalItemStep(st, l, o, st1);
    } else if Quiet(l) {
      QuietSteps(st, l, st1);
    } else {
      match l
      case Dispatch(id, plan, stamp) =>
        DispatchGrows(st, id, plan, stamp, st1);
        GrowthItems(st, st1, id, plan, stamp, o);
      case Consume(p) => ConsumeItemStep(st, p, o, st1);
      case Claim(w, batch) => ClaimItemStep(st, w, batch, o, st1);
      case Take(c) => TakeMoves(st, c, st1);
    }
  }

  lemma {:induction false} ItemsInRun(states: seq<State>, steps: seq<Label>, i: nat, o: Oid)
    requires GoodRun(states, steps) && i < |steps|
    ensures ItemStep(states[i], states[i + 1], o)
  {
    StepOfGoodRun(states, steps, i);
    StepItems(states[i], steps[i], o, states[i + 1]);
  }

  /** How many of the first `n` steps put an item for `o` into the completion queue. */
  ghost function Puts(states: seq<State>, o: Oid, n: nat): nat
    requires n < |states|
  {
    if n == 0 then 0
    else Puts(states, o, n - 1) + if states[n].items[o] > states[n - 1].items[o] then 1 else 0
  }

  /** How many of the first `n` steps took one off. */
  ghost function Gets(states: seq<State>, o: Oid, n: nat): nat
    requires n < |states|
  {
    if n == 0 then 0
    else Gets(states, o, n - 1) + if states[n].items[o] < states[n - 1].items[o] then 1 else 0
  }

  /** Each storage-unit object yields exactly one completion item, when its thread is done
      with it, and the item is consumed at most once. */
  lemma {:induction false} ExactlyOneItem(states: seq<State>, steps: seq<Label>, n: nat, o: Oid)
    requires GoodRun(states, steps) && n < |states|
    ensures Puts(states, o, n) == if IsDone(states[n], o) then 1 else 0
    ensures Gets(states, o, n) == if Consumed(states[n], o) then 1 else 0
  {
    if n > 0 {
      ExactlyOneItem(states, steps, n - 1, o);
      ItemsInRun(states, steps, n - 1, o);
    }
  }

  lemma {:induction false} ConsumedStays(states: seq<State>, steps: seq<Label>, i: nat, j: nat, o: Oid)
    requires GoodRun(states, steps) && i <= j < |states| && Consumed(states[i], o)
    ensures Consumed(states[j], o) && states[j].sus[o].status == states[i].sus[o].status
  {
    if i < j {
      ConsumedStays(states, steps, i, j - 1, o);
      ItemsInRun(states, steps, j - 1, o);
    }
  }

  lemma {:induction false} ConsumedStatus(st: State, o: Oid)
    requires FlightInv(st) && Consumed(st, o)
    ensures Final(st.sus[o].status)
  {
    assert SuOk(st, o);
  }

  /** What was consumed is C or E and never changes again. */
  lemma {:induction false} ConsumedIsFinal(states: seq<State>, steps: seq<Label>, i: nat, j: nat, o: Oid)
    requires GoodRun(states, steps) && i <= j < |states| && Consumed(states[i], o)
    ensures Consumed(states[j], o) && Final(states[i].sus[o].status)
    ensures states[j].sus[o].status == states[i].sus[o].status
  {
    ConsumedStays(states, steps, i, j, o);
    FlightAlwaysConsistent(states, steps, i);
    ConsumedStatus(states[i], o);
  }
}
