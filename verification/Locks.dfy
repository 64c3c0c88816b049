/** The locks of the daemon: which thread takes which, in what order, and why no thread
    ever waits in a circle. */
module Locks {
  import opened SuTables

  datatype Class = HighPriority | LowPriority

  datatype Lock =
    | ReqTable              // the request table
    | SuTable               // the SU table; not reentrant
    | Condition(s: Sunum)   // `scpComplete` of the Downloader of a storage unit
    | Downloaders(c: Class) // the list of running Downloaders of a class
    | ItemReady(c: Class)   // `_queue_item_ready` of a Dispatcher
    | SumsDb
    | RsDb
    | ScpWorkers            // the list of ScpWorkers
    | Dispatchers           // the list of Dispatchers

  /** The order of the locks.  No two of the highest rank are held together. */
  function Rank(l: Lock): nat {
    match l
    case ReqTable => 0
    case SuTable => 1
    case _ => 2
  }

  /** What the locks guard. */
  datatype Data =
    | Requests              // the rows of the request table
    | Units                 // `suDict`, `suMap`, statuses, and the completion queue
    | Wanted(s: Sunum)      // that a storage unit wants an ScpWorker, and what became of it
    | Running(c: Class)     // the Downloaders of a class, and the `worker` fields
    | Item(c: Class)        // whether an item of a Dispatcher was really queued
    | SumsConnection
    | RsConnection
    | WorkerList
    | DispatcherList

  function Guard(d: Data): Lock {
    match d
    case Requests => ReqTable
    case Units => SuTable
    case Wanted(s) => Condition(s)
    case Running(c) => Downloaders(c)
    case Item(c) => ItemReady(c)
    case SumsConnection => SumsDb
    case RsConnection => RsDb
    case WorkerList => ScpWorkers
    case DispatcherList => Dispatchers
  }

  datatype Op = Acquire(l: Lock) | Release(l: Lock) | Wait(l: Lock) | Notify(l: Lock) | Access(d: Data)

  // ---------------------------------------------------------------- programs

  datatype Kind =
    | MainThread
    | DispatcherThread(c: Class)
    | DownloaderThread(s: Sunum, c: Class)
    | ScpThread

  /** The pieces of the threads' programs that start and end without a lock. */
  datatype Block =
    // main
    | ReadDb                             // `tryRead`, and the commits of request statuses
    | TakeItem                           // an item is taken off the completion queue
    | MarkDone                           // ... and counted for the requests of its storage unit
    | Complete                           // a completed request is taken off its storage units
    | LookForLost(classes: seq<Class>)   // the Downloaders of a request's storage units
    | Refresh(vanished: nat)             // requests whose rows vanished are released
    | DispatchSUs(chunks: seq<Class>)    // with one item for a Dispatcher for each chunk
    | StartThreads
    // Dispatcher
    | CheckItem
    | FindSUs
    | NewThread
    | DispatcherEnds
    // Downloader
    | Download                           // publish W, and wait for an ScpWorker
    | CommitSums                         // one of the four commits
    | Finish
    // ScpWorker
    | Collect                            // choose storage units and mark them D
    | Report(sunums: seq<Sunum>)         // notify the Downloaders of these
    | ScpWorkerEnds

  function Locked(l: Lock, inside: seq<Op>): seq<Op> {
    [Acquire(l)] + inside + [Release(l)]
  }

  function EachDownloaders(cs: seq<Class>): seq<Op> {
    if cs == [] then [] else Locked(Downloaders(cs[0]), [Access(Running(cs[0]))]) + EachDownloaders(cs[1..])
  }

  function EachItem(cs: seq<Class>): seq<Op> {
    if cs == [] then []
    else Locked(ItemReady(cs[0]), [Access(Item(cs[0])), Notify(ItemReady(cs[0]))]) + EachItem(cs[1..])
  }

  function EachCondition(ss: seq<Sunum>): seq<Op> {
    if ss == [] then []
    else Locked(Condition(ss[0]), [Access(Wanted(ss[0])), Notify(Condition(ss[0]))]) + EachCondition(ss[1..])
  }

  function EachRelease(n: nat): seq<Op> {
    if n == 0 then [] else Locked(SuTable, [Access(Units)]) + EachRelease(n - 1)
  }

  function Script(k: Kind, b: Block): seq<Op> {
    match b
    case ReadDb => Locked(RsDb, [Access(RsConnection)])
    case TakeItem => Locked(SuTable, [Access(Units)])
    case MarkDone => Locked(ReqTable, Locked(SuTable, [Access(Units), Access(Requests)]))
    case Complete => Locked(SuTable, [Access(Units)])
    case LookForLost(classes) => Locked(SuTable, [Access(Units)] + EachDownloaders(classes))
    case Refresh(vanished) => Locked(ReqTable, [Access(Requests)] + EachRelease(vanished))
    case DispatchSUs(chunks) =>
      Locked(SuTable, [Access(Units)] + (Locked(SumsDb, [Access(SumsConnection)]) + EachItem(chunks)))
    case StartThreads => Locked(ScpWorkers, [Access(WorkerList)]) + Locked(Dispatchers, [Access(DispatcherList)])
    case CheckItem => if k.DispatcherThread? then Locked(ItemReady(k.c), [Access(Item(k.c))]) else []
    case FindSUs => Locked(SuTable, [Access(Units)])
    case NewThread => if k.DispatcherThread? then Locked(Downloaders(k.c), [Access(Running(k.c))]) else []
    case DispatcherEnds => Locked(Dispatchers, [Access(DispatcherList)])
    case Download =>
      if k.DownloaderThread? then Locked(Condition(k.s), [Access(Wanted(k.s)), Wait(Condition(k.s))]) else []
    case CommitSums => Locked(SumsDb, [Access(SumsConnection)])
    case Finish => if k.DownloaderThread? then Locked(Downloaders(k.c), [Access(Running(k.c))]) else []
    case Collect => Locked(ReqTable, Locked(SuTable, [Access(Requests), Access(Units)]))
    case Report(sunums) => Locked(SuTable, [Access(Units)] + EachCondition(sunums))
    case ScpWorkerEnds => Locked(ScpWorkers, [Access(WorkerList)])
  }

  /** Which thread runs which pieces. */
  predicate Runs(k: Kind, b: Block) {
    match k
    case MainThread =>
      b.ReadDb? || b.TakeItem? || b.MarkDone? || b.Complete? || b.LookForLost? || b.Refresh? || b.DispatchSUs?
      || b.StartThreads?
    case DispatcherThread(_) => b.CheckItem? || b.FindSUs? || b.NewThread? || b.DispatcherEnds?
    case DownloaderThread(_, _) => b.Download? || b.CommitSums? || b.Finish?
    case ScpThread => b.Collect? || b.Report? || b.ScpWorkerEnds?
  }

  // ---------------------------------------------------------------- threads

  /** What is left of the piece that the thread runs, and the locks that it holds.  `asleep`
      is the condition on which it sleeps. */
  datatype Thread = Thread(kind: Kind, todo: seq<Op>, held: set<Lock>, asleep: set<Lock>)

  type Tid = int

  datatype Step =
    | Begin(t: Tid, b: Block)
    | Act(t: Tid)
    | Wake(t: Tid, u: Tid) // `u` notifies the condition on which `t` sleeps
    | TimeOut(t: Tid)      // the wait of `t` times out

  predicate Free(ts: map<Tid, Thread>, l: Lock) {
    forall u | u in ts :: l !in ts[u].held
  }

  /** `notify`: one sleeping thread is woken, unless there is none. */
  predicate NobodySleeps(ts: map<Tid, Thread>, l: Lock) {
    forall u | u in ts :: l !in ts[u].asleep
  }

  predicate CanAct(ts: map<Tid, Thread>, t: Tid)
    requires t in ts
  {
    ts[t].asleep == {} && ts[t].todo != [] &&
    match ts[t].todo[0]
    case Acquire(l) => Free(ts, l)
    case Release(l) => l in ts[t].held
    case Wait(l) => l in ts[t].held
    case Notify(l) => l in ts[t].held && NobodySleeps(ts, l)
    case Access(_) => true
  }

  predicate Enabled(ts: map<Tid, Thread>, s: Step) {
    s.t in ts &&
    match s
    case Begin(t, b) => ts[t].asleep == {} && ts[t].todo == [] && Runs(ts[t].kind, b)
    case Act(t) => CanAct(ts, t)
    case Wake(t, u) =>
      && u in ts && ts[u].asleep == {} && ts[u].todo != [] && ts[u].todo[0].Notify?
      && ts[u].todo[0].l in ts[u].held && ts[u].todo[0].l in ts[t].asleep
    case TimeOut(t) => ts[t].asleep != {}
  }

  /** After `wait` the condition lock is acquired again. */
  function Acted(th: Thread): Thread
    requires th.todo != []
  {
    match th.todo[0]
    case Acquire(l) => th.(todo := th.todo[1..], held := th.held + {l})
    case Release(l) => th.(todo := th.todo[1..], held := th.held - {l})
    case Wait(l) => th.(todo := [Acquire(l)] + th.todo[1..], held := th.held - {l}, asleep := {l})
    case Notify(_) => th.(todo := th.todo[1..])
    case Access(_) => th.(todo := th.todo[1..])
  }

  function Apply(ts: map<Tid, Thread>, s: Step): map<Tid, Thread>
    requires Enabled(ts, s)
  {
    match s
    case Begin(t, b) => ts[t := ts[t].(todo := Script(ts[t].kind, b))]
    case Act(t) => ts[t := Acted(ts[t])]
    case Wake(t, u) => ts[t := ts[t].(asleep := {})][u := ts[u].(todo := ts[u].todo[1..])]
    case TimeOut(t) => ts[t := ts[t].(asleep := {})]
  }

  // ---------------------------------------------------------------- the discipline

  /** All locks in `held` come before `l`. */
  predicate Below(held: set<Lock>, l: Lock) {
    forall h | h in held :: Rank(h) < Rank(l)
  }

  /** With these locks held, the rest of a program takes locks in order only, releases
      what it holds, waits on a condition only while it holds nothing else, touches data
      only while it holds their lock, and ends without a lock. */
  predicate Follows(held: set<Lock>, todo: seq<Op>)
    decreases |todo|
  {
    if todo == [] then held == {} else
      match todo[0]
      case Acquire(l) => Below(held, l) && Follows(held + {l}, todo[1..])
      case Release(l) => l in held && Follows(held - {l}, todo[1..])
      case Wait(l) => held == {l} && Follows(held, todo[1..])
      case Notify(l) => l in held && Follows(held, todo[1..])
      case Access(d) => Guard(d) in held && Follows(held, todo[1..])
  }

  lemma {:induction false} FollowsLocked(held: set<Lock>, l: Lock, inside: seq<Op>, rest: seq<Op>)
    requires Below(held, l) && Follows(held + {l}, inside + ([Release(l)] + rest))
    ensures Follows(held, Locked(l, inside) + rest)
  {
    var p := Locked(l, inside) + rest;
    assert p[0] == Acquire(l) && p[1..] == inside + ([Release(l)] + rest);
  }

  lemma {:induction false} FollowsRelease(held: set<Lock>, l: Lock, rest: seq<Op>)
    requires l !in held && Follows(held, rest)
    ensures Follows(held + {l}, [Release(l)] + rest)
  {
    assert ([Release(l)] + rest)[1..] == rest;
    assert held + {l} - {l} == held;
  }

  /** Operations on what these locks guard. */
  predicate Plain(held: set<Lock>, ops: seq<Op>) {
    forall i | 0 <= i < |ops| ::
      (ops[i].Access? && Guard(ops[i].d) in held) || (ops[i].Notify? && ops[i].l in held)
  }

  lemma {:induction false} FollowsPlain(held: set<Lock>, ops: seq<Op>, rest: seq<Op>)
    requires Plain(held, ops) && Follows(held, rest)
    ensures Follows(held, ops + rest)
  {
    if ops == [] {
      assert ops + rest == rest;
    } else {
      FollowsPlain(held, ops[1..], rest);
      var p := ops + rest;
      assert p[0] == ops[0] && p[1..] == ops[1..] + rest;
    }
  }

  /** A lock is taken, what it guards is touched, and the lock is released. */
  lemma {:induction false} FollowsShort(held: set<Lock>, l: Lock, ops: seq<Op>, rest: seq<Op>)
    requires l !in held && Below(held, l) && Plain(held + {l}, ops) && Follows(held, rest)
    ensures Follows(held, Locked(l, ops) + rest)
  {
    FollowsRelease(held, l, rest);
    FollowsPlain(held + {l}, ops, [Release(l)] + rest);
    FollowsLocked(held, l, ops, rest);
  }

  lemma {:induction false} AllDownloaders(held: set<Lock>, cs: seq<Class>, rest: seq<Op>)
    requires (forall h | h in held :: Rank(h) < 2) && Follows(held, rest)
    ensures Follows(held, EachDownloaders(cs) + rest)
  {
    if cs == [] {
      assert EachDownloaders(cs) + rest == rest;
    } else {
      var l, ops := Downloaders(cs[0]), [Access(Running(cs[0]))];
      AllDownloaders(held, cs[1..], rest);
      FollowsShort(held, l, ops, EachDownloaders(cs[1..]) + rest);
      assert EachDownloaders(cs) + rest == Locked(l, ops) + (EachDownloaders(cs[1..]) + rest);
    }
  }

  lemma {:induction false} AllItems(held: set<Lock>, cs: seq<Class>, rest: seq<Op>)
    requires (forall h | h in held :: Rank(h) < 2) && Follows(held, rest)
    ensures Follows(held, EachItem(cs) + rest)
  {
    if cs == [] {
      assert EachItem(cs) + rest == rest;
    } else {
      var l := ItemReady(cs[0]);
      var ops := [Access(Item(cs[0])), Notify(l)];
      AllItems(held, cs[1..], rest);
      FollowsShort(held, l, ops, EachItem(cs[1..]) + rest);
      assert EachItem(cs) + rest == Locked(l, ops) + (EachItem(cs[1..]) + rest);
    }
  }

  lemma {:induction false} AllConditions(held: set<Lock>, ss: seq<Sunum>, rest: seq<Op>)
    requires (forall h | h in held :: Rank(h) < 2) && Follows(held, rest)
    ensures Follows(held, EachCondition(ss) + rest)
  {
    if ss == [] {
      assert EachCondition(ss) + rest == rest;
    } else {
      var l := Condition(ss[0]);
      var ops := [Access(Wanted(ss[0])), Notify(l)];
      AllConditions(held, ss[1..], rest);
      FollowsShort(held, l, ops, EachCondition(ss[1..]) + rest);
      assert EachCondition(ss) + rest == Locked(l, ops) + (EachCondition(ss[1..]) + rest);
    }
  }

  lemma {:induction false} AllReleases(n: nat, rest: seq<Op>)
    requires Follows({ReqTable}, rest)
    ensures Follows({ReqTable}, EachRelease(n) + rest)
  {
    if n == 0 {
      assert EachRelease(n) + rest == rest;
    } else {
      AllReleases(n - 1, rest);
      FollowsShort({ReqTable}, SuTable, [Access(Units)], EachRelease(n - 1) + rest);
      assert EachRelease(n) + rest == Locked(SuTable, [Access(Units)]) + (EachRelease(n - 1) + rest);
    }
  }

  /** A whole piece: its first lock is released at the end. */
  lemma {:induction false} Outer(l: Lock, inside: seq<Op>)
    requires Follows({l}, inside + [Release(l)])
    ensures Follows({}, Locked(l, inside))
  {
    assert {} + {l} == {l};
    assert [Release(l)] + [] == [Release(l)];
    FollowsLocked({}, l, inside, []);
    assert Locked(l, inside) + [] == Locked(l, inside);
  }

  lemma {:induction false} Ending(l: Lock)
    ensures Follows({l}, [Release(l)])
  {
    FollowsRelease({}, l, []);
    assert {} + {l} == {l} && [Release(l)] + [] == [Release(l)];
  }

  lemma {:induction false} Alone(l: Lock, ops: seq<Op>)
    requires Plain({l}, ops)
    ensures Follows({}, Locked(l, ops))
  {
    Ending(l);
    FollowsPlain({l}, ops, [Release(l)]);
    Outer(l, ops);
  }

  lemma {:induction false} Nested(ops: seq<Op>)
    requires Plain({ReqTable, SuTable}, ops)
    ensures Follows({}, Locked(ReqTable, Locked(SuTable, ops)))
  {
    Ending(ReqTable);
    assert {ReqTable} + {SuTable} == {ReqTable, SuTable};
    FollowsShort({ReqTable}, SuTable, ops, [Release(ReqTable)]);
    Outer(ReqTable, Locked(SuTable, ops));
  }

  /** First what the outer lock guards, then the rest. */
  lemma {:induction false} OuterTouches(l: Lock, d: Data, inside: seq<Op>)
    requires Guard(d) == l && Follows({l}, inside + [Release(l)])
    ensures Follows({}, Locked(l, [Access(d)] + inside))
  {
    FollowsPlain({l}, [Access(d)], inside + [Release(l)]);
    assert [Access(d)] + inside + [Release(l)] == [Access(d)] + (inside + [Release(l)]);
    Outer(l, [Access(d)] + inside);
  }

  lemma {:induction false} DispatchFollows(cs: seq<Class>)
    ensures Follows({}, Script(MainThread, DispatchSUs(cs)))
  {
    var db, rest := Locked(SumsDb, [Access(SumsConnection)]), [Release(SuTable)];
    Ending(SuTable);
    AllItems({SuTable}, cs, rest);
    FollowsShort({SuTable}, SumsDb, [Access(SumsConnection)], EachItem(cs) + rest);
    assert db + EachItem(cs) + rest == db + (EachItem(cs) + rest);
    OuterTouches(SuTable, Units, db + EachItem(cs));
  }

  lemma {:induction false} DownloadFollows(s: Sunum)
    ensures Follows({}, Locked(Condition(s), [Access(Wanted(s)), Wait(Condition(s))]))
  {
    var l := Condition(s);
    Ending(l);
    var p := [Wait(l)] + [Release(l)];
    assert p[0] == Wait(l) && p[1..] == [Release(l)];
    OuterTouches(l, Wanted(s), [Wait(l)]);
    assert [Access(Wanted(s))] + [Wait(l)] == [Access(Wanted(s)), Wait(l)];
  }

  lemma {:induction false} StartFollows()
    ensures Follows({}, Script(MainThread, StartThreads))
  {
    var rest := Locked(Dispatchers, [Access(DispatcherList)]);
    Alone(Dispatchers, [Access(DispatcherList)]);
    FollowsShort({}, ScpWorkers, [Access(WorkerList)], rest);
  }

  /** Every piece of every thread's program follows the discipline. */
  lemma {:induction false} ScriptFollows(k: Kind, b: Block)
    requires Runs(k, b)
    ensures Follows({}, Script(k, b))
  {
    match b
    case ReadDb => Alone(RsDb, [Access(RsConnection)]);
    case TakeItem => Alone(SuTable, [Access(Units)]);
    case MarkDone => Nested([Access(Units), Access(Requests)]);
    case Complete => Alone(SuTable, [Access(Units)]);
    case LookForLost(classes) =>
      Ending(SuTable);
      AllDownloaders({SuTable}, classes, [Release(SuTable)]);
      OuterTouches(SuTable, Units, EachDownloaders(classes));
    case Refresh(vanished) =>
      Ending(ReqTable);
      AllReleases(vanished, [Release(ReqTable)]);
      OuterTouches(ReqTable, Requests, EachRelease(vanished));
    case DispatchSUs(chunks) => DispatchFollows(chunks);
    case StartThreads => StartFollows();
    case CheckItem => Alone(ItemReady(k.c), [Access(Item(k.c))]);
    case FindSUs => Alone(SuTable, [Access(Units)]);
    case NewThread => Alone(Downloaders(k.c), [Access(Running(k.c))]);
    case DispatcherEnds => Alone(Dispatchers, [Access(DispatcherList)]);
    case Download => DownloadFollows(k.s);
    case CommitSums => Alone(SumsDb, [Access(SumsConnection)]);
    case Finish => Alone(Downloaders(k.c), [Access(Running(k.c))]);
    case Collect => Nested([Access(Requests), Access(Units)]);
    case Report(sunums) =>
      Ending(SuTable);
      AllConditions({SuTable}, sunums, [Release(SuTable)]);
      OuterTouches(SuTable, Units, EachCondition(sunums));
    case ScpWorkerEnds => Alone(ScpWorkers, [Access(WorkerList)]);
  }

  // ---------------------------------------------------------------- the invariant

  /** A thread that sleeps holds nothing, and wants the lock of its condition back. */
  predicate ThreadOk(th: Thread) {
    && Follows(th.held, th.todo)
    && (th.asleep != {} ==> th.held == {} && th.todo != [] && th.todo[0].Acquire? && th.asleep == {th.todo[0].l})
  }

  predicate Exclusive(ts: map<Tid, Thread>) {
    forall t, u, l | t in ts && u in ts && l in ts[t].held && l in ts[u].held :: t == u
  }

  predicate Inv(ts: map<Tid, Thread>) {
    (forall t | t in ts :: ThreadOk(ts[t])) && Exclusive(ts)
  }

  lemma {:induction false} ActedFollows(th: Thread)
    requires th.todo != [] && Follows(th.held, th.todo) && th.asleep == {}
    ensures ThreadOk(Acted(th))
    ensures forall l | l in Acted(th).held :: l in th.held || th.todo[0] == Acquire(l)
  {
    if th.todo[0].Wait? {
      var l := th.todo[0].l;
      var p := [Acquire(l)] + th.todo[1..];
      assert p[0] == Acquire(l) && p[1..] == th.todo[1..];
      assert {l} - {l} == {} && {} + {l} == {l};
    }
  }

  lemma {:induction false} ActKeepsExclusive(ts: map<Tid, Thread>, t: Tid)
    requires Exclusive(ts) && t in ts && CanAct(ts, t) && Follows(ts[t].held, ts[t].todo)
    ensures Exclusive(ts[t := Acted(ts[t])])
  {
    ActedFollows(ts[t]);
  }

  lemma {:induction false} StepKeepsInv(ts: map<Tid, Thread>, s: Step)
    requires Inv(ts) && Enabled(ts, s)
    ensures Inv(Apply(ts, s))
  {
    assert ThreadOk(ts[s.t]);
    match s
    case Begin(t, b) => ScriptFollows(ts[t].kind, b);
    case Act(t) =>
      ActedFollows(ts[t]);
      ActKeepsExclusive(ts, t);
    case Wake(t, u) =>
      assert ThreadOk(ts[u]);
    case TimeOut(t) =>
  }

  /** A notification wakes a thread that sleeps on that condition: it is awake, and takes
      the lock of its condition before anything else. */
  lemma {:induction false} NotifiedThreadWakes(ts: map<Tid, Thread>, t: Tid, u: Tid)
    requires Inv(ts) && Enabled(ts, Wake(t, u))
    ensures var ts1, l := Apply(ts, Wake(t, u)), ts[u].todo[0].l;
            && t in ts1 && Wants(ts1[t], l) && ts1[t].held == {} && ts1[t].todo == ts[t].todo
            && u in ts1 && l in ts1[u].held && ts1[u].todo == ts[u].todo[1..]
            && forall v | v in ts && v != t && v != u :: v in ts1 && ts1[v] == ts[v]
  {
    assert ThreadOk(ts[t]) && ThreadOk(ts[u]);
  }

  /** In `wait` a thread gives its condition lock up and sleeps, and it sleeps until it is
      notified or its wait times out. */
  lemma {:induction false} WaitingReleases(ts: map<Tid, Thread>, t: Tid)
    requires Inv(ts) && t in ts && CanAct(ts, t) && ts[t].todo[0].Wait?
    ensures var ts1, l := Apply(ts, Act(t)), ts[t].todo[0].l;
            && l in ts[t].held && ts1[t].held == {} && ts1[t].asleep == {l} && Free(ts1, l) && !CanAct(ts1, t)
  {
    assert ThreadOk(ts[t]);
    var l := ts[t].todo[0].l;
    forall u | u in ts && u != t ensures l !in ts[u].held {
    }
  }

  predicate Init(ts: map<Tid, Thread>) {
    forall t | t in ts :: ts[t].todo == [] && ts[t].held == {} && ts[t].asleep == {}
  }

  predicate Run(states: seq<map<Tid, Thread>>, steps: seq<Step>) {
    && |states| == |steps| + 1 && Init(states[0])
    && forall i | 0 <= i < |steps| :: Enabled(states[i], steps[i]) && states[i + 1] == Apply(states[i], steps[i])
  }

  lemma {:induction false} AlwaysDisciplined(states: seq<map<Tid, Thread>>, steps: seq<Step>, n: nat)
    requires Run(states, steps) && n < |states|
    ensures Inv(states[n])
  {
    if n > 0 {
      AlwaysDisciplined(states, steps, n - 1);
      StepKeepsInv(states[n - 1], steps[n - 1]);
    }
  }

  // ---------------------------------------------------------------- no deadlock

  /** The lock that a thread wants next. */
  predicate Wants(th: Thread, l: Lock) {
    th.asleep == {} && th.todo != [] && th.todo[0] == Acquire(l)
  }

  /** `t` cannot go on before `u` releases a lock. */
  predicate WaitsFor(ts: map<Tid, Thread>, t: Tid, u: Tid) {
    t in ts && u in ts && exists l :: Wants(ts[t], l) && l in ts[u].held
  }

  /** In every state of every run: who takes a lock holds only locks that come before it
      in the order; so nobody asks for a lock that it holds, the SU table's least of all;
      no two threads hold the same lock; and who sleeps on a condition holds no lock. */
  lemma {:induction false} LocksAreOrdered(states: seq<map<Tid, Thread>>, steps: seq<Step>, n: nat)
    requires Run(states, steps) && n < |states|
    ensures forall t, l | t in states[n] && Wants(states[n][t], l) ::
              Below(states[n][t].held, l) && l !in states[n][t].held
    ensures Exclusive(states[n])
    ensures forall t | t in states[n] && states[n][t].asleep != {} :: states[n][t].held == {}
  {
    AlwaysDisciplined(states, steps, n);
    forall t, l | t in states[n] && Wants(states[n][t], l)
      ensures Below(states[n][t].held, l) && l !in states[n][t].held
    {
      assert ThreadOk(states[n][t]);
    }
  }

  /** A thread is about to touch these data. */
  predicate Touches(th: Thread, d: Data) {
    th.todo != [] && th.todo[0] == Access(d)
  }

  /** Never do two threads touch the same data at a time: no race, in any state of any run. */
  lemma {:induction false} NoRace(states: seq<map<Tid, Thread>>, steps: seq<Step>, n: nat, t: Tid, u: Tid, d: Data)
    requires Run(states, steps) && n < |states| && t in states[n] && u in states[n]
    requires Touches(states[n][t], d) && Touches(states[n][u], d)
    ensures t == u
  {
    AlwaysDisciplined(states, steps, n);
    assert ThreadOk(states[n][t]) && ThreadOk(states[n][u]);
  }

  /** What a thread waits for comes before what the thread that it waits for waits for. */
  lemma {:induction false} RanksRise(ts: map<Tid, Thread>, t: Tid, u: Tid, l: Lock, m: Lock)
    requires Inv(ts) && t in ts && u in ts && Wants(ts[t], l) && l in ts[u].held && Wants(ts[u], m)
    ensures Rank(l) < Rank(m)
  {
    assert ThreadOk(ts[u]);
  }

  /** Threads, each of which waits for the next. */
  predicate Chain(ts: map<Tid, Thread>, c: seq<Tid>) {
    forall i | 0 <= i < |c| - 1 :: WaitsFor(ts, c[i], c[i + 1])
  }

  lemma {:induction false} ChainRises(ts: map<Tid, Thread>, c: seq<Tid>, k: nat, l: Lock, m: Lock)
    requires Inv(ts) && Chain(ts, c) && 0 < k < |c| && c[0] in ts && c[k] in ts
    requires Wants(ts[c[0]], l) && Wants(ts[c[k]], m)
    ensures Rank(l) + k <= Rank(m)
  {
    assert WaitsFor(ts, c[k - 1], c[k]);
    var h :| Wants(ts[c[k - 1]], h) && h in ts[c[k]].held;
    RanksRise(ts, c[k - 1], c[k], h, m);
    if k > 1 {
      ChainRises(ts, c, k - 1, l, h);
    }
  }

  /** No threads ever wait for each other in a circle. */
  lemma {:induction false} NoCircle(states: seq<map<Tid, Thread>>, steps: seq<Step>, n: nat, c: seq<Tid>)
    requires Run(states, steps) && n < |states| && |c| > 1 && Chain(states[n], c)
    ensures c[0] != c[|c| - 1]
  {
    var ts, k := states[n], |c| - 1;
    AlwaysDisciplined(states, steps, n);
    assert WaitsFor(ts, c[0], c[1]);
    var l :| Wants(ts[c[0]], l) && l in ts[c[1]].held;
    assert WaitsFor(ts, c[k - 1], c[k]);
    if Wants(ts[c[k]], l) {
      ChainRises(ts, c, k, l, l);
    }
  }

  /** Whoever waits for a lock, there is a thread that can go on. */
  lemma {:induction false} SomeoneMoves(ts: map<Tid, Thread>, t: Tid, l: Lock) returns (u: Tid)
    requires Inv(ts) && t in ts && Wants(ts[t], l)
    ensures u in ts && (CanAct(ts, u) || exists v :: Enabled(ts, Wake(v, u)))
    decreases 3 - Rank(l)
  {
    if Free(ts, l) {
      u := t;
    } else {
      u :| u in ts && l in ts[u].held;
      assert ThreadOk(ts[u]);
      if ts[u].todo[0].Acquire? {
        RanksRise(ts, t, u, l, ts[u].todo[0].l);
        u := SomeoneMoves(ts, u, ts[u].todo[0].l);
      } else if ts[u].todo[0].Notify? && !NobodySleeps(ts, ts[u].todo[0].l) {
        var v :| v in ts && ts[u].todo[0].l in ts[v].asleep;
        assert Enabled(ts, Wake(v, u));
      }
    }
  }

  /** The daemon never comes to a stop over its locks: while a thread is in the middle of a
      piece of its program and does not sleep, some thread can go on. */
  lemma {:induction false} NoDeadlock(states: seq<map<Tid, Thread>>, steps: seq<Step>, n: nat, t: Tid) returns (u: Tid)
    requires Run(states, steps) && n < |states| && t in states[n]
    requires states[n][t].asleep == {} && states[n][t].todo != []
    ensures u in states[n] && (CanAct(states[n], u) || exists v :: Enabled(states[n], Wake(v, u)))
  {
    var ts := states[n];
    AlwaysDisciplined(states, steps, n);
    assert ThreadOk(ts[t]);
    var op := ts[t].todo[0];
    u := t;
    if op.Acquire? {
      u := SomeoneMoves(ts, t, op.l);
    } else if op.Notify? && !NobodySleeps(ts, op.l) {
      var v :| v in ts && op.l in ts[v].asleep;
      assert Enabled(ts, Wake(v, t));
    }
  }
}
