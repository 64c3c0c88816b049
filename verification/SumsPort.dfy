/** The SUMS database port of the Downloaders: each enters its storage unit in four
    commits, and holds the database lock for each commit only. */
module SumsPort {
  import opened SuTables

  type RowId = int
  type Sumid = int

  /** The directory of a storage unit: a partition, and `D` with the SUNUM. */
  datatype Dir = Dir(partition: string, sunum: Sunum)

  /** A row of sum_main. */
  datatype Main = Main(loc: Dir, bytes: nat, dsIndex: Sunum, sumid: Sumid)

  /** A row of sum_partn_alloc. */
  datatype Alloc = Alloc(wd: Dir, sumid: Sumid, status: int, bytes: nat, substatus: int, dsIndex: Sunum)

  const DARW := 1
  const DADP := 2 // delete pending
  const DAAP := 4 // archive pending
  const DARO := 8
  const DAAEDDP := 32

  /** The tables, by row; a row of sum_open is its sumid.  `next` is the sequence that
      supplies sumids. */
  datatype Db = Db(open: map<RowId, Sumid>, main: map<RowId, Main>, alloc: map<RowId, Alloc>, next: Sumid)

  /** Where a Downloader is between its commits, and the rows that it has inserted. */
  datatype Stage =
    | Idle
    | Opened(sumid: Sumid, open: RowId)
    | Allocated(sumid: Sumid, open: RowId, wd: Dir, temp: RowId)
    | Stored(sumid: Sumid, open: RowId, wd: Dir, temp: RowId, main: RowId, alloc: RowId)
    | Closed(sumid: Sumid, wd: Dir, main: RowId, alloc: RowId)

  /** All Downloaders, by their SUNUMs; `tape` tells whether SUMS has a tape system. */
  datatype State = State(db: Db, dls: map<Sunum, Stage>, tape: bool)

  datatype Label =
    | Open(s: Sunum, row: RowId)
    | Allocate(s: Sunum, partition: string, row: RowId)
    | Put(s: Sunum, bytes: nat, row: RowId, other: RowId)
    | Close(s: Sunum)

  function PutStatus(tape: bool): int {
    if tape then DAAP else DADP
  }

  // ---------------------------------------------------------------- the four commits

  predicate Enabled(st: State, l: Label) {
    l.s in st.dls &&
    match l
    case Open(s, row) => st.dls[s].Idle? && row !in st.db.open
    case Allocate(s, partition, row) => st.dls[s].Opened? && row !in st.db.alloc
    case Put(s, bytes, row, other) => st.dls[s].Allocated? && row !in st.db.main && other !in st.db.alloc
    case Close(s) => st.dls[s].Stored?
  }

  function OpenSums(db: Db, row: RowId): Db {
    db.(open := db.open[row := db.next], next := db.next + 1)
  }

  function AllocateSums(db: Db, sumid: Sumid, wd: Dir, row: RowId): Db {
    db.(alloc := db.alloc[row := Alloc(wd, sumid, DARW, 1024, 0, 0)])
  }

  /** The rows of sum_partn_alloc that wait for the deletion of an older `s`. */
  function Pending(db: Db, s: Sunum): set<RowId> {
    set k | k in db.alloc && db.alloc[k].dsIndex == s && db.alloc[k].status == DADP
  }

  function PutSums(db: Db, s: Sunum, sumid: Sumid, wd: Dir, bytes: nat, tape: bool, row: RowId, other: RowId): Db {
    var kept := if tape then db.alloc else db.alloc - Pending(db, s);
    db.(main := db.main[row := Main(wd, bytes, s, sumid)],
        alloc := kept[other := Alloc(wd, sumid, PutStatus(tape), bytes, DAAEDDP, s)])
  }

  /** The rows of sum_open and of sum_partn_alloc that `SUM_close` deletes. */
  function OpenRows(db: Db, sumid: Sumid): set<RowId> {
    set k | k in db.open && db.open[k] == sumid
  }

  function Temporary(db: Db, sumid: Sumid): set<RowId> {
    set k | k in db.alloc && db.alloc[k].sumid == sumid && (db.alloc[k].status == DARO || db.alloc[k].status == DARW)
  }

  function CloseSums(db: Db, sumid: Sumid): Db {
    db.(alloc := db.alloc - Temporary(db, sumid), open := db.open - OpenRows(db, sumid))
  }

  function Apply(st: State, l: Label): State
    requires Enabled(st, l)
  {
    var d := st.dls[l.s];
    match l
    case Open(s, row) => st.(db := OpenSums(st.db, row), dls := st.dls[s := Opened(st.db.next, row)])
    case Allocate(s, partition, row) =>
      var wd := Dir(partition, s);
      st.(db := AllocateSums(st.db, d.sumid, wd, row), dls := st.dls[s := Allocated(d.sumid, d.open, wd, row)])
    case Put(s, bytes, row, other) =>
      st.(db := PutSums(st.db, s, d.sumid, d.wd, bytes, st.tape, row, other),
          dls := st.dls[s := Stored(d.sumid, d.open, d.wd, d.temp, row, other)])
    case Close(s) =>
      st.(db := CloseSums(st.db, d.sumid), dls := st.dls[s := Closed(d.sumid, d.wd, d.main, d.alloc)])
  }

  // ---------------------------------------------------------------- what each Downloader can rely on

  function AllocRows(db: Db, sumid: Sumid): set<RowId> {
    set k | k in db.alloc && db.alloc[k].sumid == sumid
  }

  function MainRows(db: Db, sumid: Sumid): set<RowId> {
    set k | k in db.main && db.main[k].sumid == sumid
  }

  predicate IsTemporary(db: Db, k: RowId, wd: Dir, sumid: Sumid) {
    k in db.alloc && db.alloc[k] == Alloc(wd, sumid, DARW, 1024, 0, 0)
  }

  /** The lasting rows of storage unit `s`: one in each table, and they tell the same. */
  predicate Lasting(db: Db, s: Sunum, sumid: Sumid, wd: Dir, main: RowId, alloc: RowId, tape: bool) {
    && main in db.main && alloc in db.alloc && wd.sunum == s
    && db.main[main] == Main(wd, db.main[main].bytes, s, sumid)
    && db.alloc[alloc] == Alloc(wd, sumid, PutStatus(tape), db.main[main].bytes, DAAEDDP, s)
  }

  /** In each stage a Downloader's sumid has exactly these rows. */
  predicate StageOk(db: Db, s: Sunum, d: Stage, tape: bool) {
    match d
    case Idle => true
    case Opened(n, o) => OpenRows(db, n) == {o} && AllocRows(db, n) == {} && MainRows(db, n) == {}
    case Allocated(n, o, wd, t) =>
      && wd.sunum == s && OpenRows(db, n) == {o} && AllocRows(db, n) == {t} && IsTemporary(db, t, wd, n)
      && MainRows(db, n) == {}
    case Stored(n, o, wd, t, m, a) =>
      && OpenRows(db, n) == {o} && AllocRows(db, n) == {t, a} && t != a && IsTemporary(db, t, wd, n)
      && MainRows(db, n) == {m} && Lasting(db, s, n, wd, m, a, tape) && (!tape ==> Pending(db, s) == {a})
    case Closed(n, wd, m, a) =>
      && OpenRows(db, n) == {} && AllocRows(db, n) == {a}
      && MainRows(db, n) == {m} && Lasting(db, s, n, wd, m, a, tape) && (!tape ==> Pending(db, s) == {a})
  }

  /** The sequence is ahead of every sumid in the tables. */
  predicate SumidsUsed(db: Db) {
    && (forall k | k in db.open :: db.open[k] < db.next)
    && (forall k | k in db.main :: db.main[k].sumid < db.next)
    && (forall k | k in db.alloc :: db.alloc[k].sumid < db.next)
  }

  predicate SumidsDiffer(st: State) {
    && (forall s | s in st.dls && !st.dls[s].Idle? :: st.dls[s].sumid < st.db.next)
    && (forall s, r | s in st.dls && r in st.dls && s != r && !st.dls[s].Idle? && !st.dls[r].Idle? ::
          st.dls[s].sumid != st.dls[r].sumid)
  }

  predicate Inv(st: State) {
    SumidsUsed(st.db) && SumidsDiffer(st) && forall s | s in st.dls :: StageOk(st.db, s, st.dls[s], st.tape)
  }

  /** `db` has, on the rows of sumid `n` and on the pending rows of `s`, what `db0` had. */
  predicate SameRows(db0: Db, db: Db, s: Sunum, n: Sumid) {
    && OpenRows(db, n) == OpenRows(db0, n)
    && AllocRows(db, n) == AllocRows(db0, n) && MainRows(db, n) == MainRows(db0, n)
    && (forall k | k in AllocRows(db, n) :: db.alloc[k] == db0.alloc[k])
    && (forall k | k in MainRows(db, n) :: db.main[k] == db0.main[k])
    && Pending(db, s) == Pending(db0, s)
  }

  lemma {:induction false} StageKept(db0: Db, db: Db, s: Sunum, d: Stage, tape: bool)
    requires StageOk(db0, s, d, tape) && (!d.Idle? ==> SameRows(db0, db, s, d.sumid))
    ensures StageOk(db, s, d, tape)
  {
    if d.Allocated? {
      assert d.temp in AllocRows(db, d.sumid);
    } else if d.Stored? {
      assert d.temp in AllocRows(db, d.sumid) && d.alloc in AllocRows(db, d.sumid) && d.main in MainRows(db, d.sumid);
    } else if d.Closed? {
      assert d.alloc in AllocRows(db, d.sumid) && d.main in MainRows(db, d.sumid);
    }
  }

  /** `SUM_close` deletes every read-write (1) and read-only (8) row of the sumid and its rows
      in sum_open, whoever made them, and nothing else. */
  lemma {:induction false} CloseDeletes(db: Db, n: Sumid, db1: Db)
    requires db1 == CloseSums(db, n)
    ensures forall k | k in db.alloc ::
              if db.alloc[k].sumid == n && (db.alloc[k].status == 1 || db.alloc[k].status == 8) then k !in db1.alloc
              else k in db1.alloc && db1.alloc[k] == db.alloc[k]
    ensures forall k | k in db.open ::
              if db.open[k] == n then k !in db1.open else k in db1.open && db1.open[k] == db.open[k]
    ensures db1.alloc.Keys <= db.alloc.Keys && db1.open.Keys <= db.open.Keys
    ensures db1.main == db.main && db1.next == db.next
  {
    forall k | k in db.alloc
      ensures if db.alloc[k].sumid == n && (db.alloc[k].status == 1 || db.alloc[k].status == 8) then k !in db1.alloc
              else k in db1.alloc && db1.alloc[k] == db.alloc[k]
    {
      assert k in Temporary(db, n) <==> db.alloc[k].sumid == n && (db.alloc[k].status == 8 || db.alloc[k].status == 1);
    }
  }

  // ---------------------------------------------------------------- commits and the rows of others

  lemma {:induction false} OpenLeaves(db: Db, row: RowId, s: Sunum, n: Sumid)
    requires row !in db.open && n != db.next
    ensures SameRows(db, OpenSums(db, row), s, n)
  {
  }

  lemma {:induction false} AllocateLeaves(db: Db, m: Sumid, wd: Dir, row: RowId, s: Sunum, n: Sumid)
    requires row !in db.alloc && n != m
    ensures SameRows(db, AllocateSums(db, m, wd, row), s, n)
  {
  }

  lemma {:induction false} PutLeaves(db: Db, q: Sunum, m: Sumid, wd: Dir, bytes: nat, tape: bool, row: RowId,
                                     other: RowId,
                                     s: Sunum, n: Sumid)
    requires row !in db.main && other !in db.alloc && n != m && s != q
    requires forall k | k in AllocRows(db, n) :: k !in Pending(db, q)
    ensures SameRows(db, PutSums(db, q, m, wd, bytes, tape, row, other), s, n)
  {
    var db1 := PutSums(db, q, m, wd, bytes, tape, row, other);
    forall k ensures k in Pending(db1, s) <==> k in Pending(db, s) {
    }
    forall k ensures k in AllocRows(db1, n) <==> k in AllocRows(db, n) {
    }
  }

  lemma {:induction false} CloseLeaves(db: Db, m: Sumid, s: Sunum, n: Sumid)
    requires n != m
    ensures SameRows(db, CloseSums(db, m), s, n)
  {
    var db1 := CloseSums(db, m);
    forall k ensures k in Pending(db1, s) <==> k in Pending(db, s) {
    }
  }

  /** The rows of another Downloader are not pending for `q`. */
  lemma {:induction false} OthersNotPending(db: Db, s: Sunum, d: Stage, tape: bool, q: Sunum)
    requires StageOk(db, s, d, tape) && !d.Idle? && s != q
    ensures forall k | k in AllocRows(db, d.sumid) :: k !in Pending(db, q)
  {
  }

  // ---------------------------------------------------------------- commits and a Downloader's own rows

  lemma {:induction false} OpenOwn(db: Db, row: RowId, s: Sunum, tape: bool)
    requires SumidsUsed(db) && row !in db.open
    ensures StageOk(OpenSums(db, row), s, Opened(db.next, row), tape)
  {
    var n, db1 := db.next, OpenSums(db, row);
    forall k ensures k in OpenRows(db1, n) <==> k == row {
      assert k in db.open ==> db.open[k] < n;
    }
    forall k ensures k !in AllocRows(db1, n) && k !in MainRows(db1, n) {
      assert k in db.alloc ==> db.alloc[k].sumid < n;
      assert k in db.main ==> db.main[k].sumid < n;
    }
  }

  lemma {:induction false} AllocateOwn(db: Db, s: Sunum, d: Stage, wd: Dir, row: RowId, tape: bool)
    requires d.Opened? && StageOk(db, s, d, tape) && row !in db.alloc && wd.sunum == s
    ensures StageOk(AllocateSums(db, d.sumid, wd, row), s, Allocated(d.sumid, d.open, wd, row), tape)
  {
    var n, db1 := d.sumid, AllocateSums(db, d.sumid, wd, row);
    assert OpenRows(db1, n) == OpenRows(db, n) && MainRows(db1, n) == MainRows(db, n);
    forall k ensures k in AllocRows(db1, n) <==> k == row {
      assert k !in AllocRows(db, n);
    }
  }

  lemma {:induction false} PutOwn(db: Db, s: Sunum, d: Stage, bytes: nat, tape: bool, row: RowId, other: RowId)
    requires d.Allocated? && StageOk(db, s, d, tape) && row !in db.main && other !in db.alloc
    ensures StageOk(PutSums(db, s, d.sumid, d.wd, bytes, tape, row, other), s,
                    Stored(d.sumid, d.open, d.wd, d.temp, row, other), tape)
  {
    var n, db1 := d.sumid, PutSums(db, s, d.sumid, d.wd, bytes, tape, row, other);
    assert OpenRows(db1, n) == OpenRows(db, n);
    assert d.temp in AllocRows(db, n) && d.temp !in Pending(db, s);
    forall k ensures k in AllocRows(db1, n) <==> k == d.temp || k == other {
      assert k in AllocRows(db1, n) && k != other ==> k in AllocRows(db, n);
    }
    forall k ensures k in MainRows(db1, n) <==> k == row {
      assert k in MainRows(db1, n) && k != row ==> k in MainRows(db, n);
    }
    if !tape {
      forall k ensures k in Pending(db1, s) <==> k == other {
        assert k in Pending(db1, s) && k != other ==> k in Pending(db, s);
      }
    }
  }

  lemma {:induction false} CloseOwn(db: Db, s: Sunum, d: Stage, tape: bool)
    requires d.Stored? && StageOk(db, s, d, tape)
    ensures StageOk(CloseSums(db, d.sumid), s, Closed(d.sumid, d.wd, d.main, d.alloc), tape)
  {
    var n, db1 := d.sumid, CloseSums(db, d.sumid);
    assert d.temp in Temporary(db, n) && d.alloc in AllocRows(db, n) && d.alloc !in Temporary(db, n);
    forall k ensures k in AllocRows(db1, n) <==> k == d.alloc {
      assert k in AllocRows(db1, n) ==> k in AllocRows(db, n) && k !in Temporary(db, n);
    }
    assert MainRows(db1, n) == MainRows(db, n);
    forall k ensures k in Pending(db1, s) <==> k in Pending(db, s) {
    }
  }

  // ---------------------------------------------------------------- steps

  /** The step of one Downloader, as its own rows see it. */
  lemma {:induction false} OwnStep(st: State, l: Label)
    requires Inv(st) && Enabled(st, l)
    ensures StageOk(Apply(st, l).db, l.s, Apply(st, l).dls[l.s], st.tape)
    ensures SumidsUsed(Apply(st, l).db) && st.db.next <= Apply(st, l).db.next
  {
    assert StageOk(st.db, l.s, st.dls[l.s], st.tape);
    match l
    case Open(s, row) => OpenOwn(st.db, row, s, st.tape);
    case Allocate(s, partition, row) => AllocateOwn(st.db, s, st.dls[s], Dir(partition, s), row, st.tape);
    case Put(s, bytes, row, other) => PutOwn(st.db, s, st.dls[s], bytes, st.tape, row, other);
    case Close(s) => CloseOwn(st.db, s, st.dls[s], st.tape);
  }

  /** The same step as any other Downloader sees it. */
  lemma {:induction false} OthersStep(st: State, l: Label, s: Sunum)
    requires Inv(st) && Enabled(st, l) && s in st.dls && s != l.s
    ensures StageOk(Apply(st, l).db, s, Apply(st, l).dls[s], st.tape)
  {
    var d, e := st.dls[s], st.dls[l.s];
    assert StageOk(st.db, s, d, st.tape);
    if !d.Idle? {
      match l
      case Open(_, row) => OpenLeaves(st.db, row, s, d.sumid);
      case Allocate(q, partition, row) => AllocateLeaves(st.db, e.sumid, Dir(partition, q), row, s, d.sumid);
      case Put(q, bytes, row, other) =>
        OthersNotPending(st.db, s, d, st.tape, q);
        PutLeaves(st.db, q, e.sumid, e.wd, bytes, st.tape, row, other, s, d.sumid);
      case Close(_) => CloseLeaves(st.db, e.sumid, s, d.sumid);
    }
    StageKept(st.db, Apply(st, l).db, s, d, st.tape);
  }

  lemma {:induction false} StepKeepsInv(st: State, l: Label)
    requires Inv(st) && Enabled(st, l)
    ensures Inv(Apply(st, l))
  {
    var st1 := Apply(st, l);
    OwnStep(st, l);
    forall s | s in st1.dls ensures StageOk(st1.db, s, st1.dls[s], st1.tape) {
      if s != l.s {
        OthersStep(st, l, s);
      }
    }
  }

  // ---------------------------------------------------------------- what was there before

  /** The storage units whose older pending rows were deleted. */
  function Superseded(st: State): set<Sunum> {
    set s | s in st.dls && !st.tape && (st.dls[s].Stored? || st.dls[s].Closed?)
  }

  /** Older rows are still there, except those that wait for a deletion that was superseded. */
  predicate KeepsOld(db0: Db, db: Db, gone: set<Sunum>) {
    && db0.next <= db.next
    && (forall k | k in db0.open :: k in db.open && db.open[k] == db0.open[k])
    && (forall k | k in db0.main :: k in db.main && db.main[k] == db0.main[k])
    && (forall k | k in db0.alloc && !(db0.alloc[k].status == DADP && db0.alloc[k].dsIndex in gone) ::
          k in db.alloc && db.alloc[k] == db0.alloc[k])
  }

  /** A Downloader has this sumid. */
  predicate Owned(dls: map<Sunum, Stage>, n: Sumid) {
    exists s :: s in dls && !dls[s].Idle? && dls[s].sumid == n
  }

  /** Every row is an older one or belongs to a Downloader. */
  predicate NothingElse(db0: Db, db: Db, dls: map<Sunum, Stage>) {
    && (forall k | k in db.open ::
          (k in db0.open && db.open[k] == db0.open[k]) || (db0.next <= db.open[k] && Owned(dls, db.open[k])))
    && (forall k | k in db.main ::
          || (k in db0.main && db.main[k] == db0.main[k])
          || (db0.next <= db.main[k].sumid && Owned(dls, db.main[k].sumid)))
    && (forall k | k in db.alloc ::
          || (k in db0.alloc && db.alloc[k] == db0.alloc[k])
          || (db0.next <= db.alloc[k].sumid && Owned(dls, db.alloc[k].sumid)))
  }

  predicate History(db0: Db, st: State) {
    && SumidsUsed(db0) && KeepsOld(db0, st.db, Superseded(st)) && NothingElse(db0, st.db, st.dls)
    && forall s | s in st.dls && !st.dls[s].Idle? :: db0.next <= st.dls[s].sumid
  }

  lemma {:induction false} OwnersStay(st: State, l: Label, n: Sumid)
    requires Enabled(st, l) && Owned(st.dls, n)
    ensures Owned(Apply(st, l).dls, n)
  {
    var s :| s in st.dls && !st.dls[s].Idle? && st.dls[s].sumid == n;
    assert s in Apply(st, l).dls && !Apply(st, l).dls[s].Idle? && Apply(st, l).dls[s].sumid == n;
  }

  lemma {:induction false} StepKeepsOld(db0: Db, st: State, l: Label)
    requires Inv(st) && History(db0, st) && Enabled(st, l)
    ensures KeepsOld(db0, Apply(st, l).db, Superseded(Apply(st, l)))
  {
    var st1 := Apply(st, l);
    assert st1.dls[l.s].Closed? <==> l.Close?;
    assert Superseded(st) <= Superseded(st1);
    if l.Put? && !st.tape {
      assert l.s in Superseded(st1);
    }
    if l.Close? {
      assert db0.next <= st.dls[l.s].sumid;
    }
  }

  lemma {:induction false} StepAddsOwn(db0: Db, st: State, l: Label)
    requires Inv(st) && History(db0, st) && Enabled(st, l)
    ensures NothingElse(db0, Apply(st, l).db, Apply(st, l).dls)
  {
    var st1 := Apply(st, l);
    assert Owned(st1.dls, st1.dls[l.s].sumid);
    forall n | Owned(st.dls, n) ensures Owned(st1.dls, n) {
      OwnersStay(st, l, n);
    }
  }

  lemma {:induction false} StepKeepsHistory(db0: Db, st: State, l: Label)
    requires Inv(st) && History(db0, st) && Enabled(st, l)
    ensures History(db0, Apply(st, l))
  {
    StepKeepsOld(db0, st, l);
    StepAddsOwn(db0, st, l);
  }

  // ---------------------------------------------------------------- runs

  /** No Downloader has started, and the sequence is ahead. */
  predicate Init(st: State) {
    SumidsUsed(st.db) && forall s | s in st.dls :: st.dls[s].Idle?
  }

  predicate StepAt(states: seq<State>, steps: seq<Label>, i: nat)
    requires |states| == |steps| + 1 && i < |steps|
  {
    Enabled(states[i], steps[i]) && states[i + 1] == Apply(states[i], steps[i])
  }

  /** Any interleaving of the Downloaders' commits. */
  predicate Run(states: seq<State>, steps: seq<Label>) {
    |states| == |steps| + 1 && Init(states[0]) && forall i | 0 <= i < |steps| :: StepAt(states, steps, i)
  }

  lemma {:induction false} InitHolds(st: State)
    requires Init(st)
    ensures Inv(st) && History(st.db, st)
  {
  }

  /** In every state of every interleaving each Downloader has exactly the rows of its
      stage, and all other rows are as they were. */
  lemma {:induction false} AlwaysInStage(states: seq<State>, steps: seq<Label>, n: nat)
    requires Run(states, steps) && n < |states|
    ensures Inv(states[n]) && History(states[0].db, states[n])
    ensures states[n].tape == states[0].tape && states[n].dls.Keys == states[0].dls.Keys
  {
    if n == 0 {
      InitHolds(states[0]);
    } else {
      AlwaysInStage(states, steps, n - 1);
      assert StepAt(states, steps, n - 1);
      StepKeepsInv(states[n - 1], steps[n - 1]);
      StepKeepsHistory(states[0].db, states[n - 1], steps[n - 1]);
    }
  }

  /** What a Downloader that closed leaves behind: one row in sum_main and one in
      sum_partn_alloc, with the same directory and size, archive pending (4) with a tape
      system and delete pending (2) without one; nothing else with its sumid; and, without
      a tape system, no other row that waits for the deletion of its storage unit. */
  predicate Entered(db: Db, s: Sunum, d: Stage, tape: bool)
    requires d.Closed?
  {
    && d.main in db.main && d.alloc in db.alloc && d.wd.sunum == s
    && db.main[d.main].loc == db.alloc[d.alloc].wd == d.wd && db.main[d.main].bytes == db.alloc[d.alloc].bytes
    && db.main[d.main].dsIndex == db.alloc[d.alloc].dsIndex == s
    && db.main[d.main].sumid == db.alloc[d.alloc].sumid == d.sumid
    && db.alloc[d.alloc].status == (if tape then 4 else 2) && db.alloc[d.alloc].substatus == 32
    && (forall k | k in db.main && db.main[k].sumid == d.sumid :: k == d.main)
    && (forall k | k in db.alloc && db.alloc[k].sumid == d.sumid :: k == d.alloc)
    && (forall k | k in db.open :: db.open[k] != d.sumid)
    && (!tape ==> forall k | k in db.alloc && db.alloc[k].dsIndex == s && db.alloc[k].status == 2 :: k == d.alloc)
  }

  lemma {:induction false} StageIsEntered(db: Db, s: Sunum, d: Stage, tape: bool)
    requires d.Closed? && StageOk(db, s, d, tape)
    ensures Entered(db, s, d, tape)
  {
    var n := d.sumid;
    forall k | k in db.main && db.main[k].sumid == n ensures k == d.main {
      assert k in MainRows(db, n);
    }
    forall k | k in db.alloc && db.alloc[k].sumid == n ensures k == d.alloc {
      assert k in AllocRows(db, n);
    }
    forall k | k in db.open ensures db.open[k] != n {
      assert k !in OpenRows(db, n);
    }
    forall k | !tape && k in db.alloc && db.alloc[k].dsIndex == s && db.alloc[k].status == 2 ensures k == d.alloc {
      assert k in Pending(db, s);
    }
  }

  lemma {:induction false} ClosedHasEntered(states: seq<State>, steps: seq<Label>, n: nat, s: Sunum)
    requires Run(states, steps) && n < |states| && s in states[n].dls && states[n].dls[s].Closed?
    ensures Entered(states[n].db, s, states[n].dls[s], states[0].tape)
  {
    AlwaysInStage(states, steps, n);
    assert StageOk(states[n].db, s, states[n].dls[s], states[n].tape);
    StageIsEntered(states[n].db, s, states[n].dls[s], states[n].tape);
  }

  /** With a tape system, the rows that wait for the deletion of a storage unit are those
      that did before. */
  lemma {:induction false} TapesDeleteNothing(states: seq<State>, steps: seq<Label>, n: nat)
    requires Run(states, steps) && n < |states| && states[0].tape
    ensures forall k :: k in states[n].db.alloc && states[n].db.alloc[k].status == 2
                    <==> k in states[0].db.alloc && states[0].db.alloc[k].status == 2
    ensures forall k | k in states[0].db.alloc ::
              k in states[n].db.alloc && states[n].db.alloc[k] == states[0].db.alloc[k]
  {
    AlwaysInStage(states, steps, n);
    var db0, st := states[0].db, states[n];
    assert Superseded(st) == {};
    forall k | k in st.db.alloc && k !in db0.alloc ensures st.db.alloc[k].status != 2 {
      OwnRowStatus(db0, st, k);
    }
  }

  lemma {:induction false} OwnRowStatus(db0: Db, st: State, k: RowId)
    requires Inv(st) && History(db0, st) && st.tape && k in st.db.alloc && k !in db0.alloc
    ensures st.db.alloc[k].status != 2
  {
    var s :| s in st.dls && !st.dls[s].Idle? && st.dls[s].sumid == st.db.alloc[k].sumid;
    assert k in AllocRows(st.db, st.dls[s].sumid);
    assert StageOk(st.db, s, st.dls[s], st.tape);
  }

  /** Row `k` was made by a Downloader, which closed. */
  predicate NewMain(st: State, k: RowId) {
    exists s :: s in st.dls && st.dls[s].Closed? && st.dls[s].main == k
  }

  predicate NewAlloc(st: State, k: RowId) {
    exists s :: s in st.dls && st.dls[s].Closed? && st.dls[s].alloc == k
  }

  predicate AllClosed(st: State) {
    forall s | s in st.dls :: st.dls[s].Closed?
  }

  /** The owner of a row that was not there before, and its rows. */
  lemma {:induction false} OwnerEntered(st: State, n: Sumid) returns (s: Sunum)
    requires Inv(st) && AllClosed(st) && Owned(st.dls, n)
    ensures s in st.dls && st.dls[s].Closed? && st.dls[s].sumid == n
    ensures OpenRows(st.db, n) == {}
    ensures MainRows(st.db, n) == {st.dls[s].main} && AllocRows(st.db, n) == {st.dls[s].alloc}
  {
    s :| s in st.dls && !st.dls[s].Idle? && st.dls[s].sumid == n;
    assert StageOk(st.db, s, st.dls[s], st.tape);
  }

  lemma {:induction false} SameMap<K, V>(a: map<K, V>, b: map<K, V>)
    requires forall k | k in a :: k in b && b[k] == a[k]
    requires forall k | k in b :: k in a
    ensures a == b
  {
    assert a.Keys == b.Keys;
  }

  lemma {:induction false} OpenAsBefore(db0: Db, st: State)
    requires Inv(st) && History(db0, st) && AllClosed(st)
    ensures st.db.open == db0.open
  {
    forall k | k in st.db.open ensures k in db0.open && st.db.open[k] == db0.open[k] {
      if Owned(st.dls, st.db.open[k]) {
        var s := OwnerEntered(st, st.db.open[k]);
        assert k !in OpenRows(st.db, st.db.open[k]);
      }
    }
    forall k | k in db0.open ensures k in st.db.open && st.db.open[k] == db0.open[k] {
    }
    SameMap(db0.open, st.db.open);
  }

  lemma {:induction false} MainGrew(db0: Db, st: State)
    requires Inv(st) && History(db0, st) && AllClosed(st)
    ensures forall k :: k in st.db.main <==> k in db0.main || NewMain(st, k)
  {
    forall k ensures k in st.db.main <==> k in db0.main || NewMain(st, k) {
      if k in st.db.main && Owned(st.dls, st.db.main[k].sumid) {
        var s := OwnerEntered(st, st.db.main[k].sumid);
        assert k in MainRows(st.db, st.db.main[k].sumid);
        assert NewMain(st, k);
      }
      if NewMain(st, k) {
        var s :| s in st.dls && st.dls[s].Closed? && st.dls[s].main == k;
        assert StageOk(st.db, s, st.dls[s], st.tape);
      }
    }
  }

  lemma {:induction false} AllocIsOldOrNew(db0: Db, st: State, k: RowId)
    requires Inv(st) && History(db0, st) && AllClosed(st) && k in st.db.alloc
    ensures (k in db0.alloc && st.db.alloc[k] == db0.alloc[k]) || NewAlloc(st, k)
  {
    if Owned(st.dls, st.db.alloc[k].sumid) {
      var s := OwnerEntered(st, st.db.alloc[k].sumid);
      assert k in AllocRows(st.db, st.db.alloc[k].sumid);
      assert NewAlloc(st, k);
    }
  }

  lemma {:induction false} PendingIsNew(st: State, s: Sunum, k: RowId)
    requires Inv(st) && AllClosed(st) && !st.tape && s in st.dls
    ensures k in Pending(st.db, s) ==> NewAlloc(st, k)
  {
    assert StageOk(st.db, s, st.dls[s], st.tape);
  }

  /** An older row of sum_partn_alloc, and whether a Downloader superseded it. */
  lemma {:induction false} AllocKeptOrGone(db0: Db, st: State, k: RowId)
    requires Inv(st) && History(db0, st) && AllClosed(st) && k in db0.alloc && !NewAlloc(st, k)
    ensures k in st.db.alloc <==> st.tape || db0.alloc[k].status != DADP || db0.alloc[k].dsIndex !in st.dls
  {
    var s := db0.alloc[k].dsIndex;
    if k in st.db.alloc {
      AllocIsOldOrNew(db0, st, k);
      if !st.tape && s in st.dls {
        PendingIsNew(st, s, k);
      }
    }
  }

  /** When all Downloaders have closed, sum_open is what it was; sum_main has one more row
      for each storage unit; and sum_partn_alloc has one more for each, and has lost
      exactly the older rows that waited for the deletion of one of them, if there is no
      tape system. */
  lemma {:induction false} AllEntered(states: seq<State>, steps: seq<Label>, n: nat)
    requires Run(states, steps) && n < |states| && AllClosed(states[n])
    ensures var db0, db := states[0].db, states[n].db;
            && db.open == db0.open
            && (forall k :: k in db.main <==> k in db0.main || NewMain(states[n], k))
            && (forall k | k in db0.main :: db.main[k] == db0.main[k])
            && (forall k | k in db.alloc :: (k in db0.alloc && db.alloc[k] == db0.alloc[k]) || NewAlloc(states[n], k))
            && (forall k | k in db0.alloc && !NewAlloc(states[n], k) ::
                  k in db.alloc <==>
                  states[0].tape || db0.alloc[k].status != 2 || db0.alloc[k].dsIndex !in states[n].dls)
    ensures states[0].tape ==>
              forall k :: k in states[n].db.alloc && states[n].db.alloc[k].status == 2
                      <==> k in states[0].db.alloc && states[0].db.alloc[k].status == 2
    ensures forall s | s in states[n].dls :: Entered(states[n].db, s, states[n].dls[s], states[0].tape)
  {
    AlwaysInStage(states, steps, n);
    var db0, st := states[0].db, states[n];
    OpenAsBefore(db0, st);
    MainGrew(db0, st);
    if states[0].tape {
      TapesDeleteNothing(states, steps, n);
    }
    forall k | k in st.db.alloc ensures (k in db0.alloc && st.db.alloc[k] == db0.alloc[k]) || NewAlloc(st, k) {
      AllocIsOldOrNew(db0, st, k);
    }
    forall k | k in db0.alloc && !NewAlloc(st, k)
      ensures k in st.db.alloc <==> states[0].tape || db0.alloc[k].status != DADP || db0.alloc[k].dsIndex !in st.dls
    {
      AllocKeptOrGone(db0, st, k);
    }
    forall s | s in st.dls ensures Entered(st.db, s, st.dls[s], states[0].tape) {
      ClosedHasEntered(states, steps, n, s);
    }
  }
}
