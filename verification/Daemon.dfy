/** The Remote-SUMS daemon as a labelled transition system.

    A step is what one thread does in one hold of a lock.  The threads are main, a
    Dispatcher for each class of Downloaders, a Downloader for each storage unit, and
    the ScpWorkers; which of them moves is free. */
module Daemon {
  import opened SuTables
  import opened SuLists

  type WorkerId = int
  type ChunkId = int

  /** Which Downloaders serve a request: USER requests have their own. */
  datatype Class = HighPriority | LowPriority

  /** A request's list of SUNUMs comes from the text of its database row and may be any:
      `sunums` are those on the list, `repeated` those that are on it more than once.
      `done` is the list of completed storage units. */
  datatype Request = Request(sunums: set<Sunum>, repeated: set<Sunum>, cls: Class, status: ReqStatus, done: set<Sunum>)

  /** The `worker` field: a Downloader object that is not running yet is not alive. */
  datatype Worker = NoWorker | Unstarted | Live

  /** Which thread holds the storage unit, and where it is in that thread's program. */
  datatype Stage =
    | Queued(chunk: ChunkId)  // in a chunk that waits for its Dispatcher
    | Held                    // among the Dispatcher's working storage units
    | Skipped                 // the Dispatcher starts no Downloader for it
    | Assigned                // `setWorker` is done, the thread is not started
    | Running                 // the Downloader runs
    | Publishing              // its status is W, its condition lock is held
    | Waiting                 // the Downloader is inside `wait`
    | Awake                   // notified
    | Closing                 // the download is over
    | Done                    // its completion item was put into the queue

  /** Identity of a storage-unit object: the SUNUM and which of its objects it is. */
  datatype Oid = Oid(sunum: Sunum, stamp: nat)

  datatype Su = Su(cls: Class, status: SuStatus, worker: Worker, stage: Stage)

  datatype Chunk = Chunk(cls: Class, sunums: set<Sunum>)

  /** `items` is the completion queue, `claims` holds what each ScpWorker downloads,
      `notes` the notifications that wait for a condition lock, `down` that an
      exception reached the top of main. */
  datatype State = State(reqs: map<ReqId, Request>, table: Table<Oid>, sus: map<Oid, Su>,
                         queue: map<ChunkId, Chunk>, items: multiset<Oid>,
                         claims: set<(WorkerId, Sunum)>, notes: multiset<Oid>, down: bool)

  /** What `getSUSites` and the chunking decide about a SUNUM that was not dispatched yet. */
  datatype Place = InChunk(chunk: ChunkId) | Online | NoSite

  datatype Outcome = Ingested | Marked | Unmarked

  datatype Label =
    // main
    | Arrive(id: ReqId, req: Request)
    | Vanish(id: ReqId)
    | Expire(id: ReqId)
    | Dispatch(id: ReqId, plan: map<Sunum, Place>, stamp: nat)
    | DispatchFail(id: ReqId, plan: map<Sunum, Place>, queued: set<ChunkId>)
    | DispatchRepeat(id: ReqId, plan: map<Sunum, Place>, listed: seq<Sunum>)
    | Consume(o: Oid)
    | Finish(id: ReqId)
    | Lost(id: ReqId, o: Oid)
    // Dispatchers
    | Take(chunk: ChunkId)
    | Skip(o: Oid, status: SuStatus)
    | PostSkipped(o: Oid)
    | Assign(o: Oid)
    | Start(o: Oid)
    | StartFail(o: Oid)
    // Downloaders
    | Begin(o: Oid, marked: bool)
    | Wait(o: Oid)
    | Resolve(o: Oid, outcome: Outcome)
    | Post(o: Oid)
    | Unset(o: Oid)
    // ScpWorkers
    | Claim(w: WorkerId, batch: set<Oid>)
    | Fetched(w: WorkerId, s: Sunum)
    | ScpFail(w: WorkerId, s: Sunum)
    | TimeOut(w: WorkerId, s: Sunum)
    | Drop(w: WorkerId, s: Sunum)
    | Notify(o: Oid)

  // ---------------------------------------------------------------- parts of steps

  function Fresh(cls: Class, place: Place): Su {
    match place
    case InChunk(c) => Su(cls, P, NoWorker, Queued(c))
    case Online => Su(cls, C, NoWorker, Done)
    case NoSite => Su(cls, E, NoWorker, Done)
  }

  /** The map from `ks` that `f` describes. */
  ghost function Tabulate<K(!new), V(!new)>(ks: set<K>, f: K --> V): (m: map<K, V>)
    requires forall k | k in ks :: f.requires(k)
    ensures m.Keys == ks && forall k | k in ks :: m[k] == f(k)
  {
    TableExists(ks, f);
    var m: map<K, V> :| m.Keys == ks && forall k | k in ks :: m[k] == f(k);
    m
  }

  lemma {:induction false} TableExists<K(!new), V(!new)>(ks: set<K>, f: K --> V)
    requires forall k | k in ks :: f.requires(k)
    ensures exists m: map<K, V> :: m.Keys == ks && forall k | k in ks :: m[k] == f(k)
  {
    if ks == {} {
      var m: map<K, V> := map[];
      assert m.Keys == ks;
    } else {
      var x :| x in ks;
      TableExists(ks - {x}, f);
      var m: map<K, V> :| m.Keys == ks - {x} && forall k | k in ks - {x} :: m[k] == f(k);
      assert m[x := f(x)].Keys == ks;
    }
  }

  /** The objects that a dispatch has for its storage units. */
  function Objects(ss: seq<Sunum>, stamp: nat): (os: seq<Oid>)
    ensures |os| == |ss|
  {
    seq(|ss|, i requires 0 <= i < |ss| => Oid(ss[i], stamp))
  }

  function Born(plan: map<Sunum, Place>, stamp: nat): set<Oid> {
    set s | s in plan :: Oid(s, stamp)
  }

  /** The new objects' records. */
  ghost function Births(cls: Class, plan: map<Sunum, Place>, stamp: nat): map<Oid, Su> {
    Tabulate(Born(plan, stamp), (o: Oid) requires o.sunum in plan => Fresh(cls, plan[o.sunum]))
  }

  /** The objects whose completion item the dispatch itself puts into the queue. */
  function Complete(plan: map<Sunum, Place>, stamp: nat): set<Oid> {
    set s | s in plan && !plan[s].InChunk? :: Oid(s, stamp)
  }

  function Chunks(plan: map<Sunum, Place>): set<ChunkId> {
    set s | s in plan && plan[s].InChunk? :: plan[s].chunk
  }

  /** The SUNUMs that the plan puts into chunk `c`. */
  function Members(plan: map<Sunum, Place>, c: ChunkId): set<Sunum> {
    set s | s in plan && plan[s] == InChunk(c)
  }

  /** The dispatcher queue with those chunks of the plan that `which` names. */
  ghost function Enqueue(queue: map<ChunkId, Chunk>, cls: Class, plan: map<Sunum, Place>, which: set<ChunkId>)
    : map<ChunkId, Chunk>
  {
    queue + Tabulate(which, (c: ChunkId) => Chunk(cls, Members(plan, c)))
  }

  /** The objects that the SU table finds for a set of SUNUMs. */
  function Found(table: Table<Oid>, sunums: set<Sunum>): set<Oid> {
    set s | s in sunums && s in table.dict :: table.dict[s]
  }

  /** The Dispatcher's working storage units. */
  ghost function HoldAll(sus: map<Oid, Su>, os: set<Oid>): map<Oid, Su> {
    Tabulate(sus.Keys, (o: Oid) requires o in sus => if o in os then sus[o].(stage := Held) else sus[o])
  }

  ghost function DownloadAll(sus: map<Oid, Su>, os: set<Oid>): map<Oid, Su> {
    Tabulate(sus.Keys, (o: Oid) requires o in sus => if o in os then sus[o].(status := D) else sus[o])
  }

  /** Main takes P, W, D and F for an error. */
  function Normal(status: SuStatus): SuStatus {
    if status.C? then C else E
  }

  /** Main adds a completed storage unit to the requests that its list mentions. */
  ghost function MarkDone(reqs: map<ReqId, Request>, l: seq<ReqId>, s: Sunum): map<ReqId, Request> {
    Tabulate(reqs.Keys,
             (r: ReqId) requires r in reqs => if r in l then reqs[r].(done := reqs[r].done + {s}) else reqs[r])
  }

  /** The verdict on a completed request: E if one of its storage units errored out. */
  ghost predicate AnyError(st: State, id: ReqId)
    requires id in st.reqs
  {
    exists s :: s in st.reqs[id].sunums && s in st.table.dict && st.table.dict[s] in st.sus
                && st.sus[st.table.dict[s]].status.E?
  }

  /** Main has consumed the completion item of `o`. */
  predicate Consumed(st: State, o: Oid) {
    o in st.sus && st.sus[o].stage.Done? && o !in st.items
  }

  /** `removeRequestFromSUMap` finds `id` in every list that it looks at. */
  ghost predicate ListedWhereFound(t: Table<Oid>, id: ReqId, sunums: set<Sunum>) {
    forall s | s in sunums && s in t.dict :: id in Listed(t, s)
  }

  // ---------------------------------------------------------------- steps

  /** At start-up the requests come from the database and nothing is in flight. */
  ghost predicate Init(st: State) {
    && st.table == Empty() && st.sus == map[] && st.queue == map[] && st.items == multiset{}
    && st.claims == {} && st.notes == multiset{} && !st.down
    && forall r | r in st.reqs :: st.reqs[r].done == {} && st.reqs[r].sunums != {}
  }

  /** The plan covers exactly the SUNUMs that no list mentions, in new chunks. */
  ghost predicate Plannable(st: State, id: ReqId, plan: map<Sunum, Place>) {
    && id in st.reqs && (st.reqs[id].status.New? || (st.reqs[id].status.Pending? && Untracked(st.table, id)))
    && plan.Keys == st.reqs[id].sunums - st.table.suMap.Keys
    && Chunks(plan) !! st.queue.Keys
  }

  ghost predicate IsComplete(st: State, id: ReqId) {
    id in st.reqs && st.reqs[id].status.Pending? && st.reqs[id].done == st.reqs[id].sunums
  }

  /** A storage unit that was dispatched before is on the request's list twice. */
  ghost predicate RepeatsListed(st: State, id: ReqId)
    requires id in st.reqs
  {
    exists s :: s in st.reqs[id].repeated && s in st.table.suMap
  }

  ghost predicate At(st: State, o: Oid, stage: Stage) {
    o in st.sus && st.sus[o].stage == stage
  }

  /** ScpWorker `w` finds the storage unit that it claimed, with a Downloader. */
  ghost predicate Reachable(st: State, w: WorkerId, s: Sunum) {
    && (w, s) in st.claims && s in st.table.dict && st.table.dict[s] in st.sus
    && !st.sus[st.table.dict[s]].worker.NoWorker?
  }

  /** Steps of one thread on one storage unit. */
  predicate Local(l: Label) {
    l.Lost? || l.Skip? || l.PostSkipped? || l.Assign? || l.Start? || l.StartFail? || l.Begin? || l.Wait?
    || l.Resolve? || l.Post? || l.Unset? || Reports(l) || l.Notify?
  }

  /** An ScpWorker reports on a storage unit that it claimed. */
  predicate Reports(l: Label) {
    l.Fetched? || l.ScpFail? || l.TimeOut?
  }

  /** A completion item is put into the queue. */
  predicate Posts(l: Label) {
    l.Lost? || l.PostSkipped? || l.Post?
  }

  /** The object that a local step is about. */
  function Subject(st: State, l: Label): Oid
    requires Local(l) && (Reports(l) ==> l.s in st.table.dict)
  {
    if Reports(l) then st.table.dict[l.s] else l.o
  }

  ghost predicate EnabledLocal(st: State, l: Label)
    requires Local(l)
  {
    match l
    case Lost(id, o) =>
      && id in st.reqs && st.reqs[id].status.Pending? && st.reqs[id].done != st.reqs[id].sunums
      && o in Found(st.table, st.reqs[id].sunums) && o in st.sus && st.sus[o].worker.Unstarted?
      && st.sus[o].cls != st.reqs[id].cls // otherwise the Dispatcher holds the lock that main needs
    case Skip(o, status) => At(st, o, Held) && (status.P? || status.C? || status.E?)
    case PostSkipped(o) => At(st, o, Skipped)
    case Assign(o) => At(st, o, Held) && st.sus[o].worker.NoWorker?
    case Start(o) => At(st, o, Assigned)
    case StartFail(o) => At(st, o, Assigned)
    case Begin(o, marked) => At(st, o, Running)
    case Wait(o) => At(st, o, Publishing)
    case Resolve(o, outcome) => At(st, o, Awake) && (outcome.Ingested? ==> st.sus[o].status.F?)
    case Post(o) => At(st, o, Closing)
    case Unset(o) => At(st, o, Done)
    case Notify(o) => o in st.notes && o in st.sus && !st.sus[o].stage.Publishing?
    case _ => Reachable(st, l.w, l.s)
  }

  /** What a local step makes of its object. */
  function Changed(su: Su, l: Label): Su
    requires Local(l)
  {
    match l
    case Lost(_, _) => su.(status := E)
    case Skip(_, status) => su.(status := status, stage := Skipped)
    case PostSkipped(_) => su.(stage := Done)
    case Assign(_) => su.(worker := Unstarted, stage := Assigned)
    case Start(_) => su.(worker := Live, stage := Running)
    case StartFail(_) => su.(worker := NoWorker, stage := Held)
    case Begin(_, marked) =>
      if su.status.P? then su.(status := W, stage := Publishing)
      else su.(status := if marked then E else su.status, stage := Closing)
    case Wait(_) => su.(stage := Waiting)
    case Resolve(_, outcome) =>
      if outcome.Ingested? then su.(status := C, worker := NoWorker, stage := Closing)
      else su.(status := if outcome.Marked? then E else su.status, stage := Closing)
    case Post(_) => su.(stage := Done)
    case Unset(_) => su.(worker := NoWorker)
    case Notify(_) => if su.stage.Waiting? then su.(stage := Awake) else su // nobody hears it outside `wait`
    case Fetched(_, _) => su.(status := if su.status.E? then E else F)
    case ScpFail(_, _) => su.(status := E)
    case TimeOut(_, _) => su
  }

  function ApplyLocal(st: State, l: Label): State
    requires Local(l) && (Reports(l) ==> l.s in st.table.dict) && Subject(st, l) in st.sus
  {
    var o := Subject(st, l);
    st.(sus := st.sus[o := Changed(st.sus[o], l)],
        items := if Posts(l) then st.items + multiset{o} else st.items,
        claims := if Reports(l) then st.claims - {(l.w, l.s)} else st.claims,
        notes := if Reports(l) then st.notes + multiset{o}
                 else if l.Notify? then st.notes - multiset{o} else st.notes)
  }

  ghost predicate Enabled(st: State, l: Label) {
    !st.down
    && if Local(l) then EnabledLocal(st, l) else
      match l
      case Arrive(id, req) => id !in st.reqs && req.sunums != {} && req.done == {}
      case Vanish(id) => id in st.reqs
      case Expire(id) => id in st.reqs && st.reqs[id].status.New?
      case Dispatch(id, plan, stamp) =>
        Plannable(st, id, plan) && Born(plan, stamp) !! st.sus.Keys && !RepeatsListed(st, id)
      case DispatchFail(id, plan, queued) => Plannable(st, id, plan) && queued <= Chunks(plan)
      case DispatchRepeat(id, plan, listed) =>
        && Plannable(st, id, plan) && Distinct(listed)
        && (forall s | s in listed :: s in st.reqs[id].sunums && s in st.table.suMap)
        && exists s :: s in listed && s in st.reqs[id].repeated
      case Consume(o) => o in st.items && o in st.sus
      case Finish(id) => IsComplete(st, id)
      // Only the stale chunk of a rolled-back request can meet a storage unit that is being
      // downloaded.  The Dispatcher takes such a chunk too: `setWorker` raises, and its handler
      // removes the live worker.  That step is not part of this model.
      case Take(c) =>
        && c in st.queue
        && forall o | o in Found(st.table, st.queue[c].sunums) ::
             o in st.sus && (st.sus[o].stage.Queued? || st.sus[o].stage.Done?) && st.sus[o].worker.NoWorker?
      case Claim(w, batch) =>
        && (forall s :: (w, s) !in st.claims)
        && forall o | o in batch ::
             && o in st.sus && o.sunum in st.table.dict && st.table.dict[o.sunum] == o
             && st.sus[o].status.W? && !st.sus[o].worker.NoWorker?
      case Drop(w, s) => (w, s) in st.claims && !Reachable(st, w, s)
      case _ => false
  }

  /** `refresh` finds a row of the database that it did not know. */
  function Arrived(st: State, id: ReqId, req: Request): State {
    // a request that is not new has no saved attributes: KeyError
    if req.status.New? then st.(reqs := st.reqs[id := req]) else st.(down := true)
  }

  /** `refresh` misses a row of the database. */
  ghost function Vanished(st: State, id: ReqId): State
    requires id in st.reqs
  {
    if ListedWhereFound(st.table, id, st.reqs[id].sunums) && st.table.dict.Keys == st.table.refs.Keys then
      st.(reqs := st.reqs - {id}, table := Release(st.table, id, Order(st.reqs[id].sunums)))
    else st.(down := true) // ValueError
  }

  ghost function Dispatched(st: State, id: ReqId, plan: map<Sunum, Place>, stamp: nat): State
    requires id in st.reqs
  {
    var cls, ss := st.reqs[id].cls, Order(st.reqs[id].sunums);
    if st.reqs[id].sunums - st.table.dict.Keys <= plan.Keys then
      st.(reqs := st.reqs[id := st.reqs[id].(status := Pending)],
          table := Join(st.table, id, ss, Objects(ss, stamp)),
          sus := st.sus + Births(cls, plan, stamp),
          queue := Enqueue(st.queue, cls, plan, Chunks(plan)),
          items := st.items + multiset(Complete(plan, stamp)))
    else st // rolled back: a listed storage unit is not in the table
  }

  /** The Dispatcher queue was full: the tables are rolled back, but the chunks that were
      queued before stay there. */
  ghost function Refused(st: State, id: ReqId, plan: map<Sunum, Place>, queued: set<ChunkId>): State
    requires id in st.reqs
  {
    st.(queue := Enqueue(st.queue, st.reqs[id].cls, plan, queued))
  }

  /** A SUNUM that was dispatched before is on the request's list twice: all chunks are
      queued, and the request is `listed` until the second occurrence raises an exception.
      The rollback takes it off no list that it entered for those storage units. */
  ghost function Spoiled(st: State, id: ReqId, plan: map<Sunum, Place>, listed: seq<Sunum>): State
    requires id in st.reqs
  {
    st.(table := AddReqs(st.table, id, listed),
        queue := Enqueue(st.queue, st.reqs[id].cls, plan, Chunks(plan)))
  }

  /** Main takes an item off the completion queue. */
  ghost function ItemTaken(st: State, o: Oid): State
    requires o in st.sus
  {
    var sus, items := st.sus[o := st.sus[o].(status := Normal(st.sus[o].status))], st.items - multiset{o};
    if o.sunum in st.table.suMap && (forall r | r in st.table.suMap[o.sunum] :: r in st.reqs) then
      st.(sus := sus, items := items, reqs := MarkDone(st.reqs, st.table.suMap[o.sunum], o.sunum))
    else st.(sus := sus, items := items, down := true) // KeyError, or an unknown request
  }

  /** Main completes a request. */
  ghost function Finished(st: State, id: ReqId): State
    requires id in st.reqs
  {
    if ListedWhereFound(st.table, id, st.reqs[id].sunums) && st.table.dict.Keys == st.table.refs.Keys then
      st.(reqs := st.reqs[id := st.reqs[id].(status := if AnyError(st, id) then Failed else Completed)],
          table := Release(st.table, id, Order(st.reqs[id].sunums)))
    else st.(down := true) // ValueError
  }

  ghost function Apply(st: State, l: Label): State
    requires Enabled(st, l)
  {
    if Local(l) then ApplyLocal(st, l) else
      match l
      case Arrive(id, req) => Arrived(st, id, req)
      case Vanish(id) => Vanished(st, id)
      case Expire(id) => st.(reqs := st.reqs[id := st.reqs[id].(status := Failed)])
      case Dispatch(id, plan, stamp) => Dispatched(st, id, plan, stamp)
      case DispatchFail(id, plan, queued) => Refused(st, id, plan, queued)
      case DispatchRepeat(id, plan, listed) => Spoiled(st, id, plan, listed)
      case Consume(o) => ItemTaken(st, o)
      case Finish(id) => Finished(st, id)
      case Take(c) =>
        st.(queue := st.queue - {c}, sus := HoldAll(st.sus, Found(st.table, st.queue[c].sunums)))
      case Claim(w, batch) =>
        st.(sus := DownloadAll(st.sus, batch), claims := st.claims + set o | o in batch :: (w, o.sunum))
      case Drop(w, s) => st.(claims := st.claims - {(w, s)})
      case _ => st
  }
}
