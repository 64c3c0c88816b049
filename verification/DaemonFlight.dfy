/** Storage units in flight: who is responsible for each of them, in every state of a
    run that keeps the daemon's rules. */
module DaemonFlight {
  import opened SuTables
  import opened Daemon
  import opened DaemonTable

  // ---------------------------------------------------------------- the rules

  /** Taking `id` off its storage units deletes none that is still in flight. */
  ghost predicate ReleasesNoFlight(st: State, id: ReqId)
    requires id in st.reqs
  {
    forall s | s in st.reqs[id].sunums && s in st.table.dict ::
      id in Listed(st.table, s) && (|Listed(st.table, s)| > 1 || Consumed(st, st.table.dict[s]))
  }

  /** The code needs these rules and does not enforce them. */
  ghost predicate Obeys(st: State, l: Label) {
    match l
    case Arrive(id, req) => req.status.New?
    case Vanish(id) => id in st.reqs && ReleasesNoFlight(st, id)
    case DispatchFail(id, plan, queued) => queued == {}
    case DispatchRepeat(_, _, _) => false
    case Lost(_, _) => false
    case _ => true
  }

  // ---------------------------------------------------------------- invariants

  ghost predicate IsClaimed(st: State, s: Sunum) {
    exists w :: (w, s) in st.claims
  }

  predicate InTable(st: State, o: Oid) {
    o.sunum in st.table.dict && st.table.dict[o.sunum] == o
  }

  predicate Final(status: SuStatus) {
    status.C? || status.E?
  }

  /** What the status, the worker, the claim and the waiting notifications of a storage
      unit are in each stage.  While its Downloader waits, exactly one thing holds: the
      download was not chosen yet, one ScpWorker has it, or one notification is due. */
  predicate Fits(su: Su, claimed: bool, notes: nat) {
    match su.stage
    case Queued(_) => su.status.P? && su.worker.NoWorker? && notes == 0
    case Held => su.status.P? && su.worker.NoWorker? && notes == 0
    case Skipped => (su.status.P? || Final(su.status)) && su.worker.NoWorker? && notes == 0
    case Assigned => su.status.P? && su.worker.Unstarted? && notes == 0
    case Running => su.status.P? && su.worker.Live? && notes == 0
    case Awake => Reported(su.status) && su.worker.Live? && notes == 0
    case Closing => (Reported(su.status) || su.status.C?) && !su.worker.Unstarted? && notes == 0
    case Done => !su.status.W? && !su.worker.Unstarted? && notes == 0
    case _ =>
      && su.worker.Live?
      && (|| (su.status.W? && !claimed && notes == 0)
          || (su.status.D? && claimed && notes == 0)
          || (Reported(su.status) && !claimed && notes == 1))
  }

  /** Statuses that a notified Downloader may see. */
  predicate Reported(status: SuStatus) {
    status.D? || status.F? || status.E?
  }

  ghost predicate SuOk(st: State, o: Oid)
    requires o in st.sus
  {
    var su := st.sus[o];
    && Fits(su, IsClaimed(st, o.sunum), st.notes[o])
    && st.items[o] <= (if su.stage.Done? then 1 else 0)
    && (if Consumed(st, o) then Final(su.status) else InTable(st, o))
    && (su.stage.Queued? ==> su.stage.chunk in st.queue && o.sunum in st.queue[su.stage.chunk].sunums)
  }

  predicate Downloading(su: Su) {
    su.status.D? && (su.stage.Publishing? || su.stage.Waiting?)
  }

  /** What an ScpWorker has claimed is being downloaded, and by no other ScpWorker. */
  ghost predicate ClaimsOk(st: State) {
    && (forall w, s | (w, s) in st.claims ::
          s in st.table.dict && st.table.dict[s] in st.sus && Downloading(st.sus[st.table.dict[s]]))
    && (forall w, v, s | (w, s) in st.claims && (v, s) in st.claims :: w == v)
  }

  ghost predicate QueueOk(st: State) {
    forall c, s | c in st.queue && s in st.queue[c].sunums ::
      s in st.table.dict && At(st, st.table.dict[s], Queued(c))
  }

  /** What a pending request counts as done was consumed. */
  ghost predicate DoneOk(st: State) {
    forall r, s | r in st.reqs && st.reqs[r].status.Pending? && s in st.reqs[r].done ::
      s in st.table.dict && Consumed(st, st.table.dict[s])
  }

  ghost predicate SusOk(st: State) {
    && (forall o | o in st.sus :: SuOk(st, o))
    && (forall o | o in st.notes :: o in st.sus)
    && (forall o | o in st.items :: o in st.sus)
  }

  ghost predicate FlightInv(st: State) {
    && !st.down && TableInv(st)
    && SusOk(st) && ClaimsOk(st) && QueueOk(st) && DoneOk(st)
  }

  lemma {:induction false} FlightInvInit(st: State)
    requires Init(st)
    ensures FlightInv(st)
  {
  }

  // ---------------------------------------------------------------- local steps

  /** An ScpWorker always finds what it claimed, with its Downloader. */
  lemma {:induction false} NeverDropped(st: State, w: WorkerId, s: Sunum)
    requires FlightInv(st)
    ensures !Enabled(st, Drop(w, s))
    ensures (w, s) in st.claims ==> Reachable(st, w, s)
  {
    if (w, s) in st.claims {
      assert SuOk(st, st.table.dict[s]);
    }
  }

  /** Every notification finds its Downloader inside `wait`. */
  lemma {:induction false} NotifyIsHeard(st: State, o: Oid, st1: State)
    requires FlightInv(st) && EnabledLocal(st, Notify(o)) && st1 == ApplyLocal(st, Notify(o))
    ensures At(st, o, Waiting) && At(st1, o, Awake) && Reported(st1.sus[o].status)
  {
    assert SuOk(st, o);
  }
}
