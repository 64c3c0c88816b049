/** Every step that obeys the rules keeps the storage units in flight consistent. */
module FlightSteps {
  import opened SuTables
  import opened Daemon
  import opened DaemonTable
  import opened DaemonFlight

  // ---------------------------------------------------------------- one thread, one storage unit

  predicate LocalGuard(su: Su, l: Label, claimed: bool, notes: nat)
    requires Local(l)
  {
    match l
    case Lost(_, _) => false
    case Skip(_, status) => su.stage.Held? && (status.P? || Final(status))
    case PostSkipped(_) => su.stage.Skipped?
    case Assign(_) => su.stage.Held?
    case Start(_) => su.stage.Assigned?
    case StartFail(_) => su.stage.Assigned?
    case Begin(_, _) => su.stage.Running?
    case Wait(_) => su.stage.Publishing?
    case Resolve(_, outcome) => su.stage.Awake?
    case Post(_) => su.stage.Closing?
    case Unset(_) => su.stage.Done?
    case Notify(_) => notes > 0 && !su.stage.Publishing?
    case _ => claimed && Downloading(su)
  }

  function NotesAfter(l: Label, notes: nat): nat
    requires Local(l) && (l.Notify? ==> notes > 0)
  {
    if Reports(l) then notes + 1 else if l.Notify? then notes - 1 else notes
  }

  /** What a local step does to the storage unit as the other invariants see it. */
  predicate Legal(su: Su, su1: Su, l: Label, claimed: bool)
    requires Local(l)
  {
    && !su.stage.Queued? && !su1.stage.Queued? && su1.cls == su.cls
    && (su.stage.Done? ==> su1.stage.Done? && su1.status == su.status && !Posts(l))
    && (!su.stage.Done? ==> (su1.stage.Done? <==> Posts(l)))
    && (claimed && Downloading(su) && !Reports(l) ==> Downloading(su1))
  }

  /** What becomes of the status when a thread does this. */
  predicate Told(l: Label, a: SuStatus, b: SuStatus)
    requires Local(l)
  {
    match l
    case Lost(_, _) => b.E?
    case Skip(_, status) => b == status
    case Begin(_, _) => b.W?
    case Resolve(_, outcome) => if outcome.Ingested? then b.C? else if outcome.Marked? then b.E? else b == a
    case Fetched(_, _) => b.F?
    case ScpFail(_, _) => b.E?
    case _ => b == a
  }

  /** Where the thread is then in its program, and what the `worker` field says. */
  predicate Arrives(l: Label, su: Su, su1: Su)
    requires Local(l)
  {
    match l
    case Skip(_, _) => su1.stage.Skipped? && su1.worker == su.worker
    case PostSkipped(_) => su1.stage.Done? && su1.worker == su.worker
    case Assign(_) => su1.stage.Assigned? && su1.worker.Unstarted?
    case Start(_) => su1.stage.Running? && su1.worker.Live?
    case StartFail(_) => su1.stage.Held? && su1.worker.NoWorker?
    case Begin(_, _) => su1.stage.Publishing? && su1.worker.Live?
    case Wait(_) => su1.stage.Waiting? && su1.worker.Live?
    case Resolve(_, outcome) =>
      su1.stage.Closing? && (if outcome.Ingested? then su1.worker.NoWorker? else su1.worker.Live?)
    case Post(_) => su1.stage.Done? && su1.worker == su.worker
    case Unset(_) => su1.stage.Done? && su1.worker.NoWorker?
    case Notify(_) => su1.stage.Awake? && su1.worker.Live?
    case _ => su1.stage == su.stage && su1.worker == su.worker
  }

  /** The table of legal moves: each keeps the storage unit's record consistent, and means
      what it says. */
  lemma {:induction false} LocalFits(su: Su, l: Label, claimed: bool, notes: nat)
    requires Local(l) && LocalGuard(su, l, claimed, notes) && Fits(su, claimed, notes)
    requires claimed && !su.stage.Done? ==> Downloading(su)
    ensures Fits(Changed(su, l), claimed && !Reports(l), NotesAfter(l, notes))
    ensures Legal(su, Changed(su, l), l, claimed)
    ensures Told(l, su.status, Changed(su, l).status) && Arrives(l, su, Changed(su, l))
  {
  }

  lemma {:induction false} ClaimedIsDownloading(st: State, o: Oid)
    requires FlightInv(st) && o in st.sus && IsClaimed(st, o.sunum) && !st.sus[o].stage.Done?
    ensures Downloading(st.sus[o])
  {
    assert SuOk(st, o);
    var w :| (w, o.sunum) in st.claims;
  }

  lemma {:induction false} ReportedIsClaimed(st: State, l: Label, o: Oid)
    requires FlightInv(st) && Reports(l) && EnabledLocal(st, l) && o == Subject(st, l)
    ensures o in st.sus && IsClaimed(st, o.sunum) && Downloading(st.sus[o])
  {
    assert (l.w, l.s) in st.claims;
  }

  lemma {:induction false} OwnGuardHolds(st: State, l: Label)
    requires Local(l) && !l.Lost? && !Reports(l) && EnabledLocal(st, l)
    ensures l.o in st.sus && LocalGuard(st.sus[l.o], l, IsClaimed(st, l.o.sunum), st.notes[l.o])
  {
  }

  lemma {:induction false} LocalGuardHolds(st: State, l: Label, o: Oid)
    requires FlightInv(st) && Local(l) && !l.Lost? && EnabledLocal(st, l) && o == Subject(st, l)
    ensures o in st.sus && LocalGuard(st.sus[o], l, IsClaimed(st, o.sunum), st.notes[o])
  {
    if Reports(l) {
      ReportedIsClaimed(st, l, o);
    } else {
      OwnGuardHolds(st, l);
    }
  }

  /** What a local step changes. */
  ghost predicate Moved(st: State, st1: State, l: Label, o: Oid)
    requires Local(l) && (l.Notify? ==> st.notes[o] > 0)
  {
    && o in st.sus && st1.sus == st.sus[o := Changed(st.sus[o], l)]
    && st1.table == st.table && st1.reqs == st.reqs && st1.queue == st.queue && st1.down == st.down
    && (forall p | p != o :: st1.items[p] == st.items[p] && st1.notes[p] == st.notes[p])
    && st1.items[o] == st.items[o] + (if Posts(l) then 1 else 0)
    && st1.notes[o] == NotesAfter(l, st.notes[o])
    && st1.claims == (if Reports(l) then st.claims - {(l.w, o.sunum)} else st.claims)
  }

  lemma {:induction false} OneMoreOf(m: multiset<Oid>, o: Oid)
    ensures (m + multiset{o})[o] == m[o] + 1
    ensures m[o] > 0 ==> (m - multiset{o})[o] == m[o] - 1
    ensures forall p | p != o :: (m + multiset{o})[p] == (m - multiset{o})[p] == m[p]
  {
  }

  lemma {:induction false} ApplyCounts(st: State, l: Label, o: Oid, st1: State)
    requires Local(l) && (Reports(l) ==> l.s in st.table.dict)
    requires o == Subject(st, l) && o in st.sus && (l.Notify? ==> st.notes[o] > 0) && st1 == ApplyLocal(st, l)
    ensures forall p | p != o :: st1.items[p] == st.items[p] && st1.notes[p] == st.notes[p]
    ensures st1.items[o] == st.items[o] + (if Posts(l) then 1 else 0)
    ensures st1.notes[o] == NotesAfter(l, st.notes[o])
  {
    OneMoreOf(st.items, o);
    OneMoreOf(st.notes, o);
  }

  lemma {:induction false} ApplyMoves(st: State, l: Label, o: Oid)
    requires Local(l) && (Reports(l) ==> l.s in st.table.dict && o.sunum == l.s)
    requires o == Subject(st, l) && o in st.sus && (l.Notify? ==> st.notes[o] > 0)
    ensures Moved(st, ApplyLocal(st, l), l, o)
  {
    ApplyCounts(st, l, o, ApplyLocal(st, l));
  }

  /** A local step, and that it is legal. */
  ghost predicate LocalChange(st: State, st1: State, l: Label, o: Oid)
    requires Local(l)
  {
    && o in st.sus && LocalGuard(st.sus[o], l, IsClaimed(st, o.sunum), st.notes[o])
    && Moved(st, st1, l, o)
    && (Reports(l) ==> (l.w, o.sunum) in st.claims && InTable(st, o))
  }

  lemma {:induction false} ReportedInTable(st: State, l: Label)
    requires FlightInv(st) && Reports(l) && EnabledLocal(st, l)
    ensures Subject(st, l).sunum == l.s && InTable(st, Subject(st, l)) && (l.w, l.s) in st.claims
  {
  }

  lemma {:induction false} LocalIsChange(st: State, l: Label, o: Oid, st1: State)
    requires FlightInv(st) && Local(l) && !l.Lost? && Enabled(st, l) && st1 == Apply(st, l) && o == Subject(st, l)
    ensures LocalChange(st, st1, l, o)
  {
    LocalGuardHolds(st, l, o);
    if Reports(l) {
      ReportedInTable(st, l);
    }
    ApplyMoves(st, l, o);
  }

  lemma {:induction false} ChangeIsLegal(st: State, st1: State, l: Label, o: Oid)
    requires FlightInv(st) && Local(l) && LocalChange(st, st1, l, o)
    ensures Fits(st1.sus[o], IsClaimed(st, o.sunum) && !Reports(l), st1.notes[o])
    ensures Legal(st.sus[o], st1.sus[o], l, IsClaimed(st, o.sunum))
    ensures Told(l, st.sus[o].status, st1.sus[o].status) && Arrives(l, st.sus[o], st1.sus[o])
  {
    assert SuOk(st, o);
    if IsClaimed(st, o.sunum) && !st.sus[o].stage.Done? {
      ClaimedIsDownloading(st, o);
    }
    LocalFits(st.sus[o], l, IsClaimed(st, o.sunum), st.notes[o]);
  }

  lemma {:induction false} ChangeKeepsConsumed(st: State, st1: State, l: Label, o: Oid)
    requires Local(l) && (l.Notify? ==> st.notes[o] > 0) && Moved(st, st1, l, o)
    requires Legal(st.sus[o], st1.sus[o], l, IsClaimed(st, o.sunum))
    ensures forall p :: Consumed(st1, p) <==> Consumed(st, p)
  {
  }

  lemma {:induction false} IsClaimedAfterChange(st: State, st1: State, l: Label, o: Oid)
    requires ClaimsOk(st) && Local(l) && LocalChange(st, st1, l, o)
    ensures forall s :: IsClaimed(st1, s) <==> IsClaimed(st, s) && !(Reports(l) && s == o.sunum)
  {
    forall s ensures IsClaimed(st1, s) <==> IsClaimed(st, s) && !(Reports(l) && s == o.sunum) {
      if IsClaimed(st, s) && !(Reports(l) && s == o.sunum) {
        var w :| (w, s) in st.claims;
        assert (w, s) in st1.claims;
      }
    }
  }

  lemma {:induction false} ClaimsAfterChange(st: State, st1: State, l: Label, o: Oid)
    requires ClaimsOk(st) && ObjectsExist(st) && Local(l) && LocalChange(st, st1, l, o)
    requires Legal(st.sus[o], st1.sus[o], l, IsClaimed(st, o.sunum))
    ensures ClaimsOk(st1)
  {
    IsClaimedAfterChange(st, st1, l, o);
    forall w, s | (w, s) in st1.claims
      ensures s in st1.table.dict && st1.table.dict[s] in st1.sus && Downloading(st1.sus[st1.table.dict[s]])
    {
      assert (w, s) in st.claims && IsClaimed(st1, s);
    }
  }

  /** What a step that leaves `p` alone keeps. */
  lemma {:induction false} SuKept(st: State, st1: State, p: Oid)
    requires p in st.sus && SuOk(st, p) && p in st1.sus && st1.sus[p] == st.sus[p]
    requires st1.items[p] == st.items[p] && st1.notes[p] == st.notes[p]
    requires IsClaimed(st1, p.sunum) <==> IsClaimed(st, p.sunum)
    requires !Consumed(st, p) && InTable(st, p) ==> InTable(st1, p)
    requires st.sus[p].stage.Queued? && st.sus[p].stage.chunk in st.queue ==>
               st.sus[p].stage.chunk in st1.queue
               && st1.queue[st.sus[p].stage.chunk] == st.queue[st.sus[p].stage.chunk]
    ensures SuOk(st1, p) && (Consumed(st1, p) <==> Consumed(st, p))
  {
  }

  lemma {:induction false} OtherAfterChange(st: State, st1: State, l: Label, o: Oid, p: Oid)
    requires Local(l) && LocalChange(st, st1, l, o) && p in st.sus && p != o && SuOk(st, p)
    requires IsClaimed(st1, p.sunum) <==> IsClaimed(st, p.sunum) && !(Reports(l) && p.sunum == o.sunum)
    ensures SuOk(st1, p)
  {
    if p.sunum == o.sunum && Reports(l) {
      assert !InTable(st, p);
    } else {
      SuKept(st, st1, p);
    }
  }

  lemma {:induction false} SusAfterChange(st: State, st1: State, l: Label, o: Oid)
    requires SusOk(st) && ClaimsOk(st) && Local(l) && LocalChange(st, st1, l, o)
    requires Fits(st1.sus[o], IsClaimed(st, o.sunum) && !Reports(l), st1.notes[o])
    requires Legal(st.sus[o], st1.sus[o], l, IsClaimed(st, o.sunum))
    ensures SusOk(st1)
  {
    ChangeKeepsConsumed(st, st1, l, o);
    IsClaimedAfterChange(st, st1, l, o);
    forall p | p in st1.sus ensures SuOk(st1, p) {
      assert SuOk(st, p);
      if p != o {
        OtherAfterChange(st, st1, l, o, p);
      }
    }
    forall p | p in st1.notes ensures p in st1.sus {
      assert p != o ==> p in st.notes;
    }
    forall p | p in st1.items ensures p in st1.sus {
      assert p != o ==> p in st.items;
    }
  }

  lemma {:induction false} RestAfterChange(st: State, st1: State, l: Label, o: Oid)
    requires QueueOk(st) && DoneOk(st)
    requires Local(l) && (l.Notify? ==> st.notes[o] > 0) && Moved(st, st1, l, o)
    requires Legal(st.sus[o], st1.sus[o], l, IsClaimed(st, o.sunum))
    ensures QueueOk(st1) && DoneOk(st1)
  {
    ChangeKeepsConsumed(st, st1, l, o);
    forall c, s | c in st1.queue && s in st1.queue[c].sunums
      ensures s in st1.table.dict && At(st1, st1.table.dict[s], Queued(c))
    {
      assert At(st, st.table.dict[s], Queued(c));
    }
  }

  lemma {:induction false} LegalChangeKeeps(st: State, st1: State, l: Label, o: Oid)
    requires SusOk(st) && ClaimsOk(st) && QueueOk(st) && DoneOk(st) && ObjectsExist(st)
    requires Local(l) && LocalChange(st, st1, l, o)
    requires Fits(st1.sus[o], IsClaimed(st, o.sunum) && !Reports(l), st1.notes[o])
    requires Legal(st.sus[o], st1.sus[o], l, IsClaimed(st, o.sunum))
    ensures SusOk(st1) && ClaimsOk(st1) && QueueOk(st1) && DoneOk(st1)
  {
    SusAfterChange(st, st1, l, o);
    ClaimsAfterChange(st, st1, l, o);
    RestAfterChange(st, st1, l, o);
  }

  lemma {:induction false} ChangeKeepsFlight(st: State, st1: State, l: Label, o: Oid)
    requires FlightInv(st) && Local(l) && LocalChange(st, st1, l, o) && TableInv(st1)
    ensures FlightInv(st1)
  {
    ChangeIsLegal(st, st1, l, o);
    LegalChangeKeeps(st, st1, l, o);
  }

  lemma {:induction false} LocalKeepsFlight(st: State, l: Label)
    requires FlightInv(st) && Local(l) && !l.Lost? && Enabled(st, l)
    ensures FlightInv(Apply(st, l))
  {
    LocalKeeps(st, l);
    LocalIsChange(st, l, Subject(st, l), Apply(st, l));
    ChangeKeepsFlight(st, Apply(st, l), l, Subject(st, l));
  }

  // ---------------------------------------------------------------- Dispatcher and ScpWorker batches

  lemma {:induction false} QueuedIsTaken(st: State, c: ChunkId, p: Oid)
    requires FlightInv(st) && Enabled(st, Take(c)) && p in st.sus
    ensures p in Found(st.table, st.queue[c].sunums) <==> st.sus[p].stage == Queued(c)
  {
    assert SuOk(st, p);
    if p in Found(st.table, st.queue[c].sunums) {
      var s :| s in st.queue[c].sunums && s in st.table.dict && p == st.table.dict[s];
      assert At(st, st.table.dict[s], Queued(c));
    }
  }

  lemma {:induction false} SameClaims(st: State, st1: State)
    requires st1.claims == st.claims
    ensures forall s :: IsClaimed(st1, s) <==> IsClaimed(st, s)
  {
  }

  lemma {:induction false} TakeMoves(st: State, c: ChunkId, st1: State)
    requires FlightInv(st) && Enabled(st, Take(c)) && st1 == Apply(st, Take(c))
    ensures st1 == st.(sus := st1.sus, queue := st.queue - {c}) && st1.sus.Keys == st.sus.Keys
    ensures forall p | p in st.sus ::
              st1.sus[p] == if st.sus[p].stage == Queued(c) then st.sus[p].(stage := Held) else st.sus[p]
  {
    forall p | p in st.sus
      ensures st1.sus[p] == if st.sus[p].stage == Queued(c) then st.sus[p].(stage := Held) else st.sus[p]
    {
      QueuedIsTaken(st, c, p);
    }
  }

  lemma {:induction false} TakeKeepsSus(st: State, c: ChunkId, st1: State)
    requires SusOk(st) && st1 == st.(sus := st1.sus, queue := st.queue - {c}) && st1.sus.Keys == st.sus.Keys
    requires forall p | p in st.sus ::
               st1.sus[p] == if st.sus[p].stage == Queued(c) then st.sus[p].(stage := Held) else st.sus[p]
    ensures SusOk(st1)
    ensures forall p | p in st.sus :: Consumed(st1, p) <==> Consumed(st, p)
  {
    SameClaims(st, st1);
    forall p | p in st1.sus ensures SuOk(st1, p) && (Consumed(st1, p) <==> Consumed(st, p)) {
      assert SuOk(st, p);
      if st.sus[p].stage != Queued(c) {
        SuKept(st, st1, p);
      }
    }
  }

  lemma {:induction false} TakeKeepsRest(st: State, c: ChunkId, st1: State)
    requires FlightInv(st) && st1 == st.(sus := st1.sus, queue := st.queue - {c}) && st1.sus.Keys == st.sus.Keys
    requires forall p | p in st.sus ::
               st1.sus[p] == if st.sus[p].stage == Queued(c) then st.sus[p].(stage := Held) else st.sus[p]
    ensures ClaimsOk(st1) && QueueOk(st1)
  {
    forall d, s | d in st1.queue && s in st1.queue[d].sunums
      ensures s in st1.table.dict && At(st1, st1.table.dict[s], Queued(d))
    {
      assert At(st, st.table.dict[s], Queued(d));
    }
  }

  lemma {:induction false} TakeKeepsFlight(st: State, c: ChunkId)
    requires FlightInv(st) && Enabled(st, Take(c))
    ensures FlightInv(Apply(st, Take(c)))
  {
    var st1 := Apply(st, Take(c));
    TakeMoves(st, c, st1);
    TablesUntouched(st, st1);
    TakeKeepsSus(st, c, st1);
    TakeKeepsRest(st, c, st1);
  }

  /** A storage unit that an ScpWorker may choose is waiting for one, and is free. */
  lemma {:induction false} ChosenIsFree(st: State, w: WorkerId, batch: set<Oid>, o: Oid)
    requires FlightInv(st) && Enabled(st, Claim(w, batch)) && o in batch
    ensures o in st.sus && InTable(st, o) && (st.sus[o].stage.Publishing? || st.sus[o].stage.Waiting?)
    ensures !IsClaimed(st, o.sunum) && st.notes[o] == 0
  {
    assert SuOk(st, o);
  }

  lemma {:induction false} ClaimedAfter(st: State, w: WorkerId, batch: set<Oid>, st1: State, s: Sunum)
    requires st1.claims == st.claims + set o | o in batch :: (w, o.sunum)
    ensures IsClaimed(st1, s) <==> IsClaimed(st, s) || exists o :: o in batch && o.sunum == s
  {
    if IsClaimed(st, s) {
      var v :| (v, s) in st.claims;
      assert (v, s) in st1.claims;
    }
    if o :| o in batch && o.sunum == s {
      assert (w, s) in st1.claims;
    }
  }

  /** Two ScpWorkers never choose the same storage unit. */
  lemma {:induction false} ClaimKeepsClaims(st: State, w: WorkerId, batch: set<Oid>, st1: State)
    requires ClaimsOk(st) && st1.table == st.table && st1.sus == DownloadAll(st.sus, batch)
    requires st1.claims == st.claims + set o | o in batch :: (w, o.sunum)
    requires forall o | o in batch ::
               && o in st.sus && InTable(st, o) && (st.sus[o].stage.Publishing? || st.sus[o].stage.Waiting?)
               && !IsClaimed(st, o.sunum)
    ensures ClaimsOk(st1)
  {
    forall v, s | (v, s) in st1.claims
      ensures s in st1.table.dict && st1.table.dict[s] in st1.sus && Downloading(st1.sus[st1.table.dict[s]])
      ensures (v, s) in st.claims || (v == w && !IsClaimed(st, s))
    {
      if (v, s) !in st.claims {
        var o :| o in batch && (v, s) == (w, o.sunum);
      }
    }
    forall u, v, s | (u, s) in st1.claims && (v, s) in st1.claims ensures u == v {
      assert (u, s) in st.claims || (v, s) in st.claims ==> IsClaimed(st, s);
    }
  }

  lemma {:induction false} ClaimKeepsSus(st: State, w: WorkerId, batch: set<Oid>, st1: State)
    requires SusOk(st) && st1 == st.(sus := st1.sus, claims := st1.claims)
    requires st1.sus == DownloadAll(st.sus, batch) && st1.claims == st.claims + set o | o in batch :: (w, o.sunum)
    requires forall o | o in batch ::
               && o in st.sus && InTable(st, o) && (st.sus[o].stage.Publishing? || st.sus[o].stage.Waiting?)
               && !IsClaimed(st, o.sunum) && st.notes[o] == 0
    ensures SusOk(st1)
    ensures forall p | p in st.sus :: Consumed(st1, p) <==> Consumed(st, p)
  {
    forall p | p in st1.sus ensures SuOk(st1, p) && (Consumed(st1, p) <==> Consumed(st, p)) {
      assert SuOk(st, p);
      ClaimedAfter(st, w, batch, st1, p.sunum);
      if p !in batch && !Consumed(st, p) {
        SuKept(st, st1, p);
      }
    }
  }

  lemma {:induction false} ClaimKeepsRest(st: State, w: WorkerId, batch: set<Oid>, st1: State)
    requires FlightInv(st) && st1 == st.(sus := DownloadAll(st.sus, batch), claims := st1.claims)
    requires forall p | p in st.sus :: Consumed(st1, p) <==> Consumed(st, p)
    ensures QueueOk(st1) && DoneOk(st1)
  {
    forall c, s | c in st1.queue && s in st1.queue[c].sunums
      ensures s in st1.table.dict && At(st1, st1.table.dict[s], Queued(c))
    {
      assert At(st, st.table.dict[s], Queued(c));
    }
  }

  lemma {:induction false} ClaimKeepsFlight(st: State, w: WorkerId, batch: set<Oid>)
    requires FlightInv(st) && Enabled(st, Claim(w, batch))
    ensures FlightInv(Apply(st, Claim(w, batch)))
  {
    var st1 := Apply(st, Claim(w, batch));
    TablesUntouched(st, st1);
    forall o | o in batch
      ensures o in st.sus && InTable(st, o) && (st.sus[o].stage.Publishing? || st.sus[o].stage.Waiting?)
      ensures !IsClaimed(st, o.sunum) && st.notes[o] == 0
    {
      ChosenIsFree(st, w, batch, o);
    }
    ClaimKeepsClaims(st, w, batch, st1);
    ClaimKeepsSus(st, w, batch, st1);
    ClaimKeepsRest(st, w, batch, st1);
  }

  // ---------------------------------------------------------------- main

  lemma {:induction false} RequestsOnly(st: State, st1: State, id: ReqId)
    requires FlightInv(st) && TableInv(st1)
    requires st1 == st.(reqs := st1.reqs)
    requires forall r | r != id :: r in st1.reqs <==> r in st.reqs
    requires forall r | r in st.reqs && r != id :: st1.reqs[r] == st.reqs[r]
    requires id in st1.reqs ==> !st1.reqs[id].status.Pending?
    ensures FlightInv(st1)
  {
    forall p | p in st1.sus ensures SuOk(st1, p) {
      assert SuOk(st, p);
      assert IsClaimed(st1, p.sunum) <==> IsClaimed(st, p.sunum);
    }
    forall p ensures Consumed(st1, p) <==> Consumed(st, p) {
    }
    forall c, s | c in st1.queue && s in st1.queue[c].sunums
      ensures s in st1.table.dict && At(st1, st1.table.dict[s], Queued(c))
    {
      assert At(st, st.table.dict[s], Queued(c));
    }
  }

  /** A change of the table that keeps every storage unit in flight. */
  ghost predicate KeepsObjects(st: State, st1: State) {
    && st1 == st.(table := st1.table, reqs := st1.reqs)
    && (forall s | s in st1.table.dict :: s in st.table.dict && st1.table.dict[s] == st.table.dict[s])
    && (forall s | s in st.table.dict && !Consumed(st, st.table.dict[s]) :: s in st1.table.dict)
  }

  lemma {:induction false} SusAfterRelease(st: State, st1: State)
    requires SusOk(st) && KeepsObjects(st, st1)
    ensures SusOk(st1)
  {
    SameClaims(st, st1);
    forall p | p in st1.sus ensures SuOk(st1, p) {
      SuKept(st, st1, p);
    }
  }

  lemma {:induction false} ClaimsAfterRelease(st: State, st1: State)
    requires SusOk(st) && ClaimsOk(st) && QueueOk(st) && KeepsObjects(st, st1)
    ensures ClaimsOk(st1) && QueueOk(st1)
  {
    forall w, s | (w, s) in st1.claims
      ensures s in st1.table.dict && st1.table.dict[s] in st1.sus && Downloading(st1.sus[st1.table.dict[s]])
    {
      assert (w, s) in st.claims;
      assert !Consumed(st, st.table.dict[s]);
    }
    forall c, s | c in st1.queue && s in st1.queue[c].sunums
      ensures s in st1.table.dict && At(st1, st1.table.dict[s], Queued(c))
    {
      assert At(st, st.table.dict[s], Queued(c));
      assert !Consumed(st, st.table.dict[s]);
    }
  }

  lemma {:induction false} ReleaseKeepsObjects(st: State, id: ReqId, st1: State)
    requires FlightInv(st) && id in st.reqs && ReleasesNoFlight(st, id)
    requires st1.table == Release(st.table, id, Order(st.reqs[id].sunums))
    requires st1 == st.(table := st1.table, reqs := st1.reqs)
    ensures KeepsObjects(st, st1)
  {
    Released(st, id, st1.table);
    forall s | s in st.table.dict && !Consumed(st, st.table.dict[s]) ensures s in st1.table.dict {
      assert st.table.refs[s] == |Listed(st.table, s)|;
    }
  }

  lemma {:induction false} DoneAfterRelease(st: State, id: ReqId, st1: State)
    requires FlightInv(st) && id in st.reqs && ReleasesNoFlight(st, id) && TableInv(st1) && KeepsObjects(st, st1)
    requires st1.table == Release(st.table, id, Order(st.reqs[id].sunums))
    requires forall r | r in st1.reqs && r != id :: r in st.reqs && st1.reqs[r] == st.reqs[r]
    requires id in st1.reqs ==> !st1.reqs[id].status.Pending?
    ensures DoneOk(st1)
  {
    Released(st, id, st1.table);
    forall r, s | r in st1.reqs && st1.reqs[r].status.Pending? && s in st1.reqs[r].done
      ensures s in st1.table.dict && Consumed(st1, st1.table.dict[s])
    {
      assert r in Listed(st.table, s);
      assert r in Listed(st1.table, s);
    }
  }

  /** A release that deletes no storage unit in flight. */
  lemma {:induction false} ReleaseKeepsFlight(st: State, id: ReqId, st1: State)
    requires FlightInv(st) && id in st.reqs && ReleasesNoFlight(st, id) && TableInv(st1)
    requires st1.table == Release(st.table, id, Order(st.reqs[id].sunums))
    requires st1 == st.(table := st1.table, reqs := st1.reqs)
    requires forall r | r in st1.reqs && r != id :: r in st.reqs && st1.reqs[r] == st.reqs[r]
    requires id in st1.reqs ==> !st1.reqs[id].status.Pending?
    ensures FlightInv(st1)
  {
    ReleaseKeepsObjects(st, id, st1);
    SusAfterRelease(st, st1);
    ClaimsAfterRelease(st, st1);
    DoneAfterRelease(st, id, st1);
  }

  lemma {:induction false} VanishKeepsFlight(st: State, id: ReqId)
    requires FlightInv(st) && Enabled(st, Vanish(id)) && Obeys(st, Vanish(id))
    ensures FlightInv(Apply(st, Vanish(id)))
  {
    VanishKeeps(st, id);
    ReleaseKeepsFlight(st, id, Vanished(st, id));
  }

  /** All storage units of a completed request are in the table and were consumed. */
  lemma {:induction false} CompletedIsConsumed(st: State, id: ReqId)
    requires FlightInv(st) && IsComplete(st, id)
    ensures forall s | s in st.reqs[id].sunums :: s in st.table.dict && Consumed(st, st.table.dict[s])
    ensures ListedWhereFound(st.table, id, st.reqs[id].sunums) && ReleasesNoFlight(st, id)
  {
  }

  lemma {:induction false} FinishChanges(st: State, id: ReqId, st1: State)
    requires id in st.reqs && ListedWhereFound(st.table, id, st.reqs[id].sunums)
    requires st.table.dict.Keys == st.table.refs.Keys && st1 == Finished(st, id)
    ensures st1.table == Release(st.table, id, Order(st.reqs[id].sunums))
    ensures st1 == st.(table := st1.table, reqs := st1.reqs)
    ensures forall r | r in st1.reqs && r != id :: r in st.reqs && st1.reqs[r] == st.reqs[r]
    ensures id in st1.reqs && !st1.reqs[id].status.Pending?
  {
  }

  lemma {:induction false} FinishKeepsFlight(st: State, id: ReqId, st1: State)
    requires FlightInv(st) && IsComplete(st, id) && st1 == Finished(st, id) && TableInv(st1)
    ensures FlightInv(st1)
  {
    CompletedIsConsumed(st, id);
    FinishChanges(st, id, st1);
    ReleaseKeepsFlight(st, id, st1);
  }

  /** Main never looks up a missing key, and never an unknown request. */
  lemma {:induction false} ConsumeFinds(st: State, o: Oid)
    requires FlightInv(st) && Enabled(st, Consume(o))
    ensures InTable(st, o) && o.sunum in st.table.suMap && st.items[o] == 1 && st.sus[o].stage.Done?
    ensures forall r | r in st.table.suMap[o.sunum] :: r in st.reqs
    ensures !ItemTaken(st, o).down
  {
    assert SuOk(st, o);
    forall r | r in st.table.suMap[o.sunum] ensures r in st.reqs {
      assert r in Listed(st.table, o.sunum);
    }
  }

  lemma {:induction false} SusAfterConsume(st: State, o: Oid, st1: State)
    requires SusOk(st) && o in st.sus && InTable(st, o) && st.items[o] == 1 && st.sus[o].stage.Done?
    requires st1 == st.(sus := st.sus[o := st.sus[o].(status := Normal(st.sus[o].status))],
                        items := st.items - multiset{o}, reqs := st1.reqs)
    ensures SusOk(st1)
    ensures forall p :: Consumed(st1, p) <==> Consumed(st, p) || p == o
  {
    SameClaims(st, st1);
    forall p | p in st1.sus ensures SuOk(st1, p) {
      assert SuOk(st, p);
      if p != o {
        SuKept(st, st1, p);
      }
    }
    forall p | p in st1.items ensures p in st1.sus {
      assert p in st.items;
    }
  }

  lemma {:induction false} DoneAfterConsume(st: State, o: Oid, st1: State)
    requires DoneOk(st) && o in st.sus && InTable(st, o) && o.sunum in st.table.suMap
    requires st1.table == st.table && st1.sus.Keys == st.sus.Keys
    requires forall p | p in st.sus && p != o :: st1.sus[p] == st.sus[p]
    requires st1.reqs == MarkDone(st.reqs, st.table.suMap[o.sunum], o.sunum)
    requires forall p :: Consumed(st1, p) <==> Consumed(st, p) || p == o
    ensures DoneOk(st1)
  {
  }

  lemma {:induction false} RestAfterConsume(st: State, o: Oid, st1: State)
    requires ClaimsOk(st) && QueueOk(st) && o in st.sus && st.sus[o].stage.Done?
    requires st1 == st.(sus := st.sus[o := st.sus[o].(status := Normal(st.sus[o].status))],
                        items := st1.items, reqs := st1.reqs)
    ensures ClaimsOk(st1) && QueueOk(st1)
  {
    forall c, s | c in st1.queue && s in st1.queue[c].sunums
      ensures s in st1.table.dict && At(st1, st1.table.dict[s], Queued(c))
    {
      assert At(st, st.table.dict[s], Queued(c));
    }
  }

  lemma {:induction false} ConsumptionKeepsFlight(st: State, o: Oid, st1: State)
    requires FlightInv(st) && TableInv(st1) && o in st.sus && InTable(st, o) && o.sunum in st.table.suMap
    requires st.items[o] == 1 && st.sus[o].stage.Done?
    requires st1 == st.(sus := st.sus[o := st.sus[o].(status := Normal(st.sus[o].status))],
                        items := st.items - multiset{o},
                        reqs := MarkDone(st.reqs, st.table.suMap[o.sunum], o.sunum))
    ensures FlightInv(st1)
  {
    SusAfterConsume(st, o, st1);
    RestAfterConsume(st, o, st1);
    DoneAfterConsume(st, o, st1);
  }

  lemma {:induction false} ConsumeKeepsFlight(st: State, o: Oid, st1: State)
    requires FlightInv(st) && Enabled(st, Consume(o)) && st1 == ItemTaken(st, o) && TableInv(st1)
    ensures FlightInv(st1)
  {
    ConsumeFinds(st, o);
    ConsumptionKeepsFlight(st, o, st1);
  }

  /** What a dispatch does to the table. */
  ghost predicate TableGrows(t: Table<Oid>, t1: Table<Oid>, want: set<Sunum>, plan: map<Sunum, Place>, stamp: nat) {
    && plan.Keys == want - t.dict.Keys
    && (forall s :: s in t1.dict <==> s in t.dict || s in plan)
    && (forall s | s in t.dict :: t1.dict[s] == t.dict[s])
    && (forall s | s in plan :: t1.dict[s] == Oid(s, stamp))
  }

  /** What a dispatch does to the objects and to the completion queue. */
  ghost predicate ObjectsGrow(st: State, st1: State, cls: Class, plan: map<Sunum, Place>, stamp: nat) {
    && (forall p :: p in st1.sus <==> p in st.sus || (p.sunum in plan && p.stamp == stamp))
    && (forall p | p in st.sus :: st1.sus[p] == st.sus[p] && st1.items[p] == st.items[p])
    && (forall s | s in plan ::
          && Oid(s, stamp) !in st.sus && st1.sus[Oid(s, stamp)] == Fresh(cls, plan[s])
          && st1.items[Oid(s, stamp)] == if plan[s].InChunk? then 0 else 1)
    && (forall p | p in st1.items :: p in st1.sus)
  }

  ghost predicate Grows(st: State, st1: State, id: ReqId, plan: map<Sunum, Place>, stamp: nat)
    requires id in st.reqs
  {
    && st1.claims == st.claims && st1.notes == st.notes && st1.down == st.down
    && st1.reqs == st.reqs[id := st.reqs[id].(status := Pending)]
    && Chunks(plan) !! st.queue.Keys
    && st1.queue == Enqueue(st.queue, st.reqs[id].cls, plan, Chunks(plan))
    && TableGrows(st.table, st1.table, st.reqs[id].sunums, plan, stamp)
    && ObjectsGrow(st, st1, st.reqs[id].cls, plan, stamp)
  }

  lemma {:induction false} DispatchedObjects(st: State, st1: State, cls: Class, plan: map<Sunum, Place>, stamp: nat)
    requires forall p | p in st.items :: p in st.sus
    requires Born(plan, stamp) !! st.sus.Keys
    requires st1.sus == st.sus + Births(cls, plan, stamp)
    requires st1.items == st.items + multiset(Complete(plan, stamp))
    ensures ObjectsGrow(st, st1, cls, plan, stamp)
  {
    forall s | s in plan
      ensures Oid(s, stamp) in Born(plan, stamp) && Oid(s, stamp) !in st.items
      ensures multiset(Complete(plan, stamp))[Oid(s, stamp)] == if plan[s].InChunk? then 0 else 1
    {
      assert Oid(s, stamp) in st.items ==> Oid(s, stamp) in st.sus;
    }
    forall p | p in st.sus ensures p !in Complete(plan, stamp) && p !in Born(plan, stamp) {
      assert p in Complete(plan, stamp) ==> p in Born(plan, stamp);
    }
    forall p | p in st1.items ensures p in st1.sus {
      assert p in st.items || p in Complete(plan, stamp);
    }
  }

  lemma {:induction false} DispatchGrows(st: State, id: ReqId, plan: map<Sunum, Place>, stamp: nat, st1: State)
    requires TableInv(st) && (forall p | p in st.items :: p in st.sus)
    requires Plannable(st, id, plan) && Born(plan, stamp) !! st.sus.Keys
    requires st1 == Dispatched(st, id, plan, stamp)
    ensures Grows(st, st1, id, plan, stamp)
  {
    PlannableIsUntracked(st, id, plan);
    DispatchDict(st, id, plan, stamp, st1.table);
    DispatchedObjects(st, st1, st.reqs[id].cls, plan, stamp);
  }

  lemma {:induction false} SusAfterDispatch(st: State, st1: State, id: ReqId, plan: map<Sunum, Place>, stamp: nat)
    requires SusOk(st) && id in st.reqs && Grows(st, st1, id, plan, stamp)
    ensures SusOk(st1)
    ensures forall p | p in st.sus :: Consumed(st1, p) <==> Consumed(st, p)
  {
    SameClaims(st, st1);
    forall p | p in st1.sus ensures SuOk(st1, p) {
      if p in st.sus {
        SuKept(st, st1, p);
      } else {
        assert p == Oid(p.sunum, stamp);
        assert p !in st.notes;
        if plan[p.sunum].InChunk? {
          assert plan[p.sunum].chunk in Chunks(plan);
        }
      }
    }
  }

  lemma {:induction false} QueueAfterDispatch(st: State, st1: State, id: ReqId, plan: map<Sunum, Place>, stamp: nat)
    requires ClaimsOk(st) && QueueOk(st) && id in st.reqs && Grows(st, st1, id, plan, stamp)
    ensures ClaimsOk(st1) && QueueOk(st1)
  {
    forall c, s | c in st1.queue && s in st1.queue[c].sunums
      ensures s in st1.table.dict && At(st1, st1.table.dict[s], Queued(c))
    {
      if c in Chunks(plan) {
        assert s in plan && plan[s] == InChunk(c);
        assert Oid(s, stamp) in st1.sus;
      } else {
        assert At(st, st.table.dict[s], Queued(c));
      }
    }
  }

  lemma {:induction false} NothingDoneYet(st: State, id: ReqId, plan: map<Sunum, Place>)
    requires TableInv(st) && Plannable(st, id, plan)
    ensures st.reqs[id].done == {}
  {
    PlannableIsUntracked(st, id, plan);
    var listed := set s | s in st.reqs[id].done && id in Listed(st.table, s);
    assert listed == {};
    assert st.reqs[id].done == listed;
  }

  lemma {:induction false} DoneAfterDispatch(st: State, st1: State, id: ReqId, plan: map<Sunum, Place>, stamp: nat)
    requires FlightInv(st) && Plannable(st, id, plan) && Grows(st, st1, id, plan, stamp)
    requires forall p | p in st.sus :: Consumed(st1, p) <==> Consumed(st, p)
    ensures DoneOk(st1)
  {
    NothingDoneYet(st, id, plan);
  }

  lemma {:induction false} GrowthKeepsFlight(st: State, st1: State, id: ReqId, plan: map<Sunum, Place>, stamp: nat)
    requires FlightInv(st) && Plannable(st, id, plan)
    requires TableInv(st1) && Grows(st, st1, id, plan, stamp)
    ensures FlightInv(st1)
  {
    SusAfterDispatch(st, st1, id, plan, stamp);
    QueueAfterDispatch(st, st1, id, plan, stamp);
    DoneAfterDispatch(st, st1, id, plan, stamp);
  }

  lemma {:induction false} DispatchKeepsFlight(st: State, id: ReqId, plan: map<Sunum, Place>, stamp: nat, st1: State)
    requires FlightInv(st) && Plannable(st, id, plan) && Born(plan, stamp) !! st.sus.Keys
    requires st1 == Dispatched(st, id, plan, stamp) && TableInv(st1)
    ensures FlightInv(st1)
  {
    DispatchGrows(st, id, plan, stamp, st1);
    GrowthKeepsFlight(st, st1, id, plan, stamp);
  }

  // ---------------------------------------------------------------- all steps

  lemma {:induction false} RefusedNothing(st: State, id: ReqId, plan: map<Sunum, Place>, st1: State)
    requires id in st.reqs && st1 == Refused(st, id, plan, {})
    ensures st1 == st
  {
  }

  lemma {:induction false} RowKeepsFlight(st: State, id: ReqId, req: Request, st1: State)
    requires FlightInv(st) && TableInv(st1) && st1 == st.(reqs := st.reqs[id := req]) && !req.status.Pending?
    ensures FlightInv(st1)
  {
    RequestsOnly(st, st1, id);
  }

  lemma {:induction false} RowsKeepFlight(st: State, l: Label, st1: State)
    requires l.Arrive? || l.Expire? || l.DispatchFail?
    requires FlightInv(st) && Enabled(st, l) && Obeys(st, l) && st1 == Apply(st, l) && TableInv(st1)
    ensures FlightInv(st1)
  {
    match l
    case Arrive(id, req) => RowKeepsFlight(st, id, req, st1);
    case Expire(id) => RowKeepsFlight(st, id, st.reqs[id].(status := Failed), st1);
    case DispatchFail(id, plan, queued) => RefusedNothing(st, id, plan, st1);
  }

  lemma {:induction false} ReleasesKeepFlight(st: State, l: Label, st1: State)
    requires l.Vanish? || l.Finish?
    requires FlightInv(st) && Enabled(st, l) && Obeys(st, l) && st1 == Apply(st, l) && TableInv(st1)
    ensures FlightInv(st1)
  {
    if l.Vanish? {
      VanishKeepsFlight(st, l.id);
    } else {
      FinishKeepsFlight(st, l.id, st1);
    }
  }

  lemma {:induction false} ItemsKeepFlight(st: State, l: Label, st1: State)
    requires l.Dispatch? || l.Consume?
    requires FlightInv(st) && Enabled(st, l) && st1 == Apply(st, l) && TableInv(st1)
    ensures FlightInv(st1)
  {
    if l.Dispatch? {
      DispatchKeepsFlight(st, l.id, l.plan, l.stamp, st1);
    } else {
      ConsumeKeepsFlight(st, l.o, st1);
    }
  }

  lemma {:induction false} BatchesKeepFlight(st: State, l: Label, st1: State)
    requires l.Take? || l.Claim? || l.Drop?
    requires FlightInv(st) && Enabled(st, l) && st1 == Apply(st, l)
    ensures FlightInv(st1)
  {
    match l
    case Take(c) => TakeKeepsFlight(st, c);
    case Claim(w, batch) => ClaimKeepsFlight(st, w, batch);
    case Drop(w, s) => NeverDropped(st, w, s);
  }

  lemma {:induction false} OthersKeepFlight(st: State, l: Label, st1: State)
    requires FlightInv(st) && !Local(l) && Enabled(st, l) && Obeys(st, l) && st1 == Apply(st, l) && TableInv(st1)
    ensures FlightInv(st1)
  {
    if l.Vanish? || l.Finish? {
      ReleasesKeepFlight(st, l, st1);
    } else if l.Dispatch? || l.Consume? {
      ItemsKeepFlight(st, l, st1);
    } else if l.Take? || l.Claim? || l.Drop? {
      BatchesKeepFlight(st, l, st1);
    } else {
      RowsKeepFlight(st, l, st1);
    }
  }

  /** The main invariant: every step that obeys the rules keeps it. */
  lemma {:induction false} StepKeepsFlight(st: State, l: Label)
    requires FlightInv(st) && Enabled(st, l) && Obeys(st, l)
    ensures FlightInv(Apply(st, l))
  {
    if Local(l) {
      LocalKeepsFlight(st, l);
    } else {
      StepKeepsTables(st, l);
      OthersKeepFlight(st, l, Apply(st, l));
    }
  }

  lemma {:induction false} VanishNeedsRule(st: State, id: ReqId, st1: State)
    requires FlightInv(st) && id in st.reqs && st1 == Vanished(st, id) && SusOk(st1) && !st1.down
    ensures ReleasesNoFlight(st, id)
  {
    forall s | s in st.reqs[id].sunums && s in st.table.dict
      ensures id in Listed(st.table, s) && (|Listed(st.table, s)| > 1 || Consumed(st, st.table.dict[s]))
    {
      if |Listed(st.table, s)| == 1 {
        SuTables.ReleaseKeepsObjects(st.table, id, Order(st.reqs[id].sunums));
        assert s !in st1.table.dict;
        assert SuOk(st1, st.table.dict[s]);
      }
    }
  }

  lemma {:induction false} RefusedNeedsRule(st: State, id: ReqId, plan: map<Sunum, Place>, queued: set<ChunkId>,
                                            st1: State)
    requires TableInv(st) && Plannable(st, id, plan) && {} < queued <= Chunks(plan)
    requires st1 == Refused(st, id, plan, queued)
    ensures !QueueOk(st1)
  {
    PlannableIsUntracked(st, id, plan);
    var c :| c in queued;
    var s :| s in plan && plan[s] == InChunk(c);
    assert s in st1.queue[c].sunums;
  }

  /** Main takes a Downloader for dead that is about to run: its storage unit gets a
      completion item too early. */
  lemma {:induction false} LostBreaks(st: State, id: ReqId, o: Oid, st1: State)
    requires FlightInv(st) && EnabledLocal(st, Lost(id, o)) && st1 == ApplyLocal(st, Lost(id, o))
    ensures !SusOk(st1)
  {
    assert SuOk(st, o);
    assert st1.items[o] == st.items[o] + 1;
    assert !SuOk(st1, o);
  }

  lemma {:induction false} VanishShows(st: State, id: ReqId, st1: State)
    requires FlightInv(st) && id in st.reqs && !ReleasesNoFlight(st, id) && st1 == Vanished(st, id)
    ensures !FlightInv(st1)
  {
    if SusOk(st1) && !st1.down {
      VanishNeedsRule(st, id, st1);
    }
  }

  lemma {:induction false} BrokenRuleShows(st: State, l: Label, st1: State)
    requires FlightInv(st) && Enabled(st, l) && !Obeys(st, l) && st1 == Apply(st, l)
    ensures !FlightInv(st1)
  {
    if l.Vanish? {
      VanishShows(st, l.id, st1);
    } else if l.DispatchFail? {
      RefusedNeedsRule(st, l.id, l.plan, l.queued, st1);
    } else if l.DispatchRepeat? {
      RepeatBreaksTables(st, l);
    } else if l.Lost? {
      LostBreaks(st, l.id, l.o, st1);
    }
  }

  /** The rules are exact: an enabled step keeps the invariant if and only if it obeys them. */
  lemma {:induction false} RulesAreExact(st: State, l: Label)
    requires FlightInv(st) && Enabled(st, l)
    ensures FlightInv(Apply(st, l)) <==> Obeys(st, l)
  {
    if Obeys(st, l) {
      StepKeepsFlight(st, l);
    } else {
      BrokenRuleShows(st, l, Apply(st, l));
    }
  }
}
