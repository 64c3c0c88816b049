/** How an ScpWorker chooses the storage units of its next download. */
module Selection {
  import opened SuTables
  import opened StorageUnits

  datatype ReqType = User | Mirror | Generic

  datatype Option<T> = None | Some(value: T)

  datatype Site = Site(user: string, host: string, port: int)

  /** The settings of one ScpWorker. */
  datatype Settings = Settings(maxsus: int, maxpayload: int, limit: int, timeout: nat)

  /** A storage unit as the worker found it: `best` is the best priority of its requests. */
  datatype Candidate = Candidate(sunum: Sunum, best: int, start: int, status: SuStatus, site: Option<Site>)

  // ---------------------------------------------------------------- order

  function Priority(t: ReqType): int {
    match t
    case User => 0
    case Mirror => 10
    case Generic => 100
  }

  /** The best priority among the requests for a storage unit. */
  function Best(types: seq<ReqType>): int
    requires types != []
  {
    var p := Priority(types[|types| - 1]);
    if |types| == 1 then p else
      var q := Best(types[..|types| - 1]);
      if p < q then p else q
  }

  lemma {:induction false} BestIsBest(types: seq<ReqType>)
    requires types != []
    ensures forall t | t in types :: Best(types) <= Priority(t)
    ensures exists t :: t in types && Best(types) == Priority(t)
    ensures Best(types) <= 0 <==> User in types
  {
    var n := |types| - 1;
    assert types == types[..n] + [types[n]];
    if n > 0 {
      BestIsBest(types[..n]);
    }
    if User in types {
      assert Priority(User) == 0;
    }
  }

  /** `a` is taken before `b`: by priority, then by start time. */
  predicate Before(a: Candidate, b: Candidate) {
    a.best < b.best || (a.best == b.best && a.start < b.start)
  }

  ghost predicate Ordered(l: seq<Candidate>) {
    forall i, j | 0 <= i < j < |l| :: !Before(l[j], l[i])
  }

  /** `sorted`: equal candidates keep their order. */
  function Insert(x: Candidate, l: seq<Candidate>): seq<Candidate> {
    if l == [] || Before(x, l[0]) then [x] + l else [l[0]] + Insert(x, l[1..])
  }

  function Sorted(l: seq<Candidate>): seq<Candidate> {
    if l == [] then [] else Insert(l[|l| - 1], Sorted(l[..|l| - 1]))
  }

  lemma {:induction false} InsertOrders(x: Candidate, l: seq<Candidate>)
    requires Ordered(l)
    ensures Ordered(Insert(x, l)) && multiset(Insert(x, l)) == multiset(l) + multiset{x}
  {
    if l == [] || Before(x, l[0]) {
      var m := [x] + l;
      forall i, j | 0 <= i < j < |m| ensures !Before(m[j], m[i]) {
        assert !Before(l[j - 1], l[0]);
      }
    } else {
      var rest := Insert(x, l[1..]);
      InsertOrders(x, l[1..]);
      assert l == [l[0]] + l[1..];
      var m := [l[0]] + rest;
      forall i, j | 0 <= i < j < |m| ensures !Before(m[j], m[i]) {
        if i == 0 {
          assert rest[j - 1] in multiset(rest);
          assert rest[j - 1] == x || rest[j - 1] in l[1..];
        }
      }
    }
  }

  lemma {:induction false} SortedIsOrdered(l: seq<Candidate>)
    ensures Ordered(Sorted(l)) && multiset(Sorted(l)) == multiset(l)
  {
    if l != [] {
      var n := |l| - 1;
      SortedIsOrdered(l[..n]);
      InsertOrders(l[n], Sorted(l[..n]));
      assert l == l[..n] + [l[n]];
    }
  }

  // ---------------------------------------------------------------- choice

  /** It waits for an ScpWorker, and its Downloader tells where it is. */
  predicate Ready(c: Candidate) {
    c.status.W? && c.site.Some?
  }

  /** The site of the first candidate that is ready. */
  function FirstSite(l: seq<Candidate>): Option<Site> {
    if l == [] then None else if Ready(l[0]) then l[0].site else FirstSite(l[1..])
  }

  /** All candidates that can be fetched together with the first one. */
  function Together(l: seq<Candidate>, site: Option<Site>): seq<Candidate> {
    if l == [] then [] else (if Ready(l[0]) && l[0].site == site then [l[0]] else []) + Together(l[1..], site)
  }

  /** The choice: the first `num` of those, in order. */
  function Choice(l: seq<Candidate>, num: int): seq<Candidate> {
    var all := Together(l, FirstSite(l));
    if num <= 0 then [] else if |all| <= num then all else all[..num]
  }

  predicate Fits(c: Candidate, site: Option<Site>) {
    Ready(c) && c.site == site
  }

  lemma {:induction false} TogetherAppend(l: seq<Candidate>, x: Candidate, site: Option<Site>)
    ensures Together(l + [x], site) == Together(l, site) + if Fits(x, site) then [x] else []
  {
    if l != [] {
      assert (l + [x])[1..] == l[1..] + [x];
      TogetherAppend(l[1..], x, site);
    }
  }

  lemma {:induction false} FirstSiteAppend(l: seq<Candidate>, x: Candidate)
    ensures FirstSite(l + [x]) == if FirstSite(l).Some? then FirstSite(l) else if Ready(x) then x.site else None
  {
    if l != [] {
      assert (l + [x])[1..] == l[1..] + [x];
      FirstSiteAppend(l[1..], x);
    }
  }

  /** More candidates behind the others change nothing that was chosen. */
  lemma {:induction false} ChoiceIsStable(l: seq<Candidate>, i: nat)
    requires i <= |l|
    ensures FirstSite(l[..i]).Some? ==> FirstSite(l) == FirstSite(l[..i])
    ensures forall site :: Together(l[..i], site) <= Together(l, site)
    decreases |l| - i
  {
    if i == |l| {
      assert l[..i] == l;
    } else {
      ChoiceIsStable(l, i + 1);
      assert l[..i + 1] == l[..i] + [l[i]];
      FirstSiteAppend(l[..i], l[i]);
      forall site ensures Together(l[..i], site) <= Together(l, site) {
        TogetherAppend(l[..i], l[i], site);
      }
    }
  }

  /** Exactly the candidates that fit, as often as they occur. */
  lemma {:induction false} TogetherIs(l: seq<Candidate>, site: Option<Site>)
    ensures forall x :: multiset(Together(l, site))[x] == if Fits(x, site) then multiset(l)[x] else 0
  {
    if l != [] {
      TogetherIs(l[1..], site);
      assert l == [l[0]] + l[1..];
    }
  }

  lemma {:induction false} OrderedInFront(x: Candidate, rest: seq<Candidate>)
    requires Ordered(rest) && forall c | c in rest :: !Before(c, x)
    ensures Ordered([x] + rest)
  {
    var m := [x] + rest;
    forall i, j | 0 <= i < j < |m| ensures !Before(m[j], m[i]) {
      if i == 0 {
        assert rest[j - 1] in rest;
      }
    }
  }

  lemma {:induction false} TogetherWithin(l: seq<Candidate>, site: Option<Site>)
    ensures forall c | c in Together(l, site) :: c in l
  {
    if l != [] {
      TogetherWithin(l[1..], site);
    }
  }

  /** In the same order. */
  lemma {:induction false} TogetherInOrder(l: seq<Candidate>, site: Option<Site>)
    requires Ordered(l)
    ensures Ordered(Together(l, site))
  {
    if l != [] {
      TogetherInOrder(l[1..], site);
      TogetherWithin(l[1..], site);
      forall c | c in l[1..] ensures !Before(c, l[0]) {
        var j :| 0 <= j < |l| - 1 && l[1..][j] == c;
        assert l[j + 1] == c;
      }
      OrderedInFront(l[0], Together(l[1..], site));
    }
  }

  /** The site is that of a ready candidate which no other ready candidate precedes. */
  lemma {:induction false} FirstSiteIs(l: seq<Candidate>)
    requires Ordered(l)
    ensures FirstSite(l).None? ==> forall c | c in l :: !Ready(c)
    ensures FirstSite(l).Some? ==>
              exists f :: f in l && Fits(f, FirstSite(l)) && forall c | c in l && Ready(c) :: !Before(c, f)
  {
    if l != [] {
      assert l == [l[0]] + l[1..];
      if Ready(l[0]) {
        forall c | c in l ensures !Before(c, l[0]) {
          var j :| 0 <= j < |l| && l[j] == c;
        }
        assert Fits(l[0], FirstSite(l));
      } else {
        assert Ordered(l[1..]);
        FirstSiteIs(l[1..]);
      }
    }
  }

  /** What an ScpWorker may take: within its priority limit. */
  function Within(l: seq<Candidate>, limit: int): (r: seq<Candidate>)
    ensures forall c :: c in r <==> c in l && c.best <= limit
  {
    if l == [] then [] else
      var n := |l| - 1;
      var r := Within(l[..n], limit);
      if l[n].best <= limit then r + [l[n]] else r
  }

  /** The result of `getNextNWorkingSUs`. */
  function Next(l: seq<Candidate>, limit: int, num: int): seq<Candidate> {
    Choice(Sorted(Within(l, limit)), num)
  }

  /** `r` is what an ScpWorker with this limit has to get out of the table `l`: ready storage
      units of one site, which is that of a ready one that no other precedes; as many as
      there are, but at most `num`; in order, and no other one of that site precedes them. */
  ghost predicate IsNext(l: seq<Candidate>, limit: int, num: int, r: seq<Candidate>, site: Option<Site>) {
    var fit := Together(Within(l, limit), site);
    && (forall c | c in r :: c in l && c.best <= limit && Fits(c, site))
    && (site.None? ==> forall c | c in l && c.best <= limit :: !Ready(c))
    && (site.Some? ==>
          exists f :: && f in l && f.best <= limit && Fits(f, site)
                      && forall c | c in l && c.best <= limit && Ready(c) :: !Before(c, f))
    && |r| == (if num <= 0 then 0 else if num < |fit| then num else |fit|)
    && Ordered(r) && multiset(r) <= multiset(fit)
    && forall c, x | c in multiset(fit) - multiset(r) && x in r :: !Before(c, x)
  }

  lemma {:induction false} PrefixIsNext(all: seq<Candidate>, k: nat)
    requires Ordered(all) && k <= |all|
    ensures Ordered(all[..k]) && multiset(all[..k]) <= multiset(all)
    ensures forall c, x | c in multiset(all) - multiset(all[..k]) && x in all[..k] :: !Before(c, x)
  {
    assert all == all[..k] + all[k..];
    assert multiset(all) - multiset(all[..k]) == multiset(all[k..]);
    forall c, x | c in multiset(all) - multiset(all[..k]) && x in all[..k] ensures !Before(c, x) {
      assert c in all[k..];
      var i :| 0 <= i < k && all[i] == x;
      var j :| k <= j < |all| && all[j] == c;
    }
  }

  lemma {:induction false} SortedKeeps(w: seq<Candidate>)
    ensures Ordered(Sorted(w)) && forall c :: c in Sorted(w) <==> c in w
  {
    SortedIsOrdered(w);
    forall c ensures c in Sorted(w) <==> c in w {
      assert c in Sorted(w) <==> c in multiset(Sorted(w));
      assert c in w <==> c in multiset(w);
    }
  }

  lemma {:induction false} SameElements(a: seq<Candidate>, b: seq<Candidate>)
    requires forall x :: multiset(a)[x] == multiset(b)[x]
    ensures multiset(a) == multiset(b) && |a| == |b|
  {
    assert multiset(a) == multiset(b);
    assert |a| == |multiset(a)| && |b| == |multiset(b)|;
  }

  /** Sorting changes neither how many fit nor which. */
  lemma {:induction false} SameFit(w: seq<Candidate>, site: Option<Site>)
    ensures multiset(Together(Sorted(w), site)) == multiset(Together(w, site))
    ensures |Together(Sorted(w), site)| == |Together(w, site)|
  {
    var all, fit := Together(Sorted(w), site), Together(w, site);
    SortedIsOrdered(w);
    TogetherIs(Sorted(w), site);
    TogetherIs(w, site);
    forall x ensures multiset(all)[x] == multiset(fit)[x] {
      assert multiset(Sorted(w))[x] == multiset(w)[x];
    }
    SameElements(all, fit);
  }

  /** Those that fit are in order. */
  lemma {:induction false} FitInOrder(w: seq<Candidate>, site: Option<Site>)
    ensures Ordered(Together(Sorted(w), site))
    ensures forall c | c in Together(Sorted(w), site) :: c in w && Fits(c, site)
  {
    var all := Together(Sorted(w), site);
    SortedIsOrdered(w);
    TogetherInOrder(Sorted(w), site);
    TogetherIs(Sorted(w), site);
    forall c | c in all ensures c in w && Fits(c, site) {
      assert c in multiset(all) && c in multiset(w);
    }
  }

  /** The site of the choice. */
  lemma {:induction false} SiteIsFirst(l: seq<Candidate>, limit: int, site: Option<Site>)
    requires site == FirstSite(Sorted(Within(l, limit)))
    ensures site.None? ==> forall c | c in l && c.best <= limit :: !Ready(c)
    ensures site.Some? ==>
              exists f :: && f in l && f.best <= limit && Fits(f, site)
                          && forall c | c in l && c.best <= limit && Ready(c) :: !Before(c, f)
  {
    var w := Within(l, limit);
    SortedKeeps(w);
    FirstSiteIs(Sorted(w));
    if site.Some? {
      var f :| f in Sorted(w) && Fits(f, site) && forall c | c in Sorted(w) && Ready(c) :: !Before(c, f);
      assert f in w;
    }
  }

  /** The choice meets its declarative specification. */
  lemma {:induction false} NextIsNext(l: seq<Candidate>, limit: int, num: int)
    ensures IsNext(l, limit, num, Next(l, limit, num), FirstSite(Sorted(Within(l, limit))))
  {
    var w := Within(l, limit);
    var site := FirstSite(Sorted(w));
    var all, r := Together(Sorted(w), site), Next(l, limit, num);
    SiteIsFirst(l, limit, site);
    SameFit(w, site);
    FitInOrder(w, site);
    PrefixIsNext(all, |r|);
    assert r == all[..|r|];
  }

  /** `c` comes before `y` or ties with it. */
  predicate NotAfter(c: Candidate, y: Candidate) {
    c.best < y.best || (c.best == y.best && c.start <= y.start)
  }

  lemma {:induction false} ChosenAreFirst(l: seq<Candidate>, limit: int, num: int, c: Candidate, y: Candidate)
    requires var r := Next(l, limit, num);
             c in r && y in l && y !in r && y.best <= limit && Fits(y, FirstSite(Sorted(Within(l, limit))))
    ensures NotAfter(c, y) && num > 0 && |Next(l, limit, num)| == num
  {
    var w, r := Within(l, limit), Next(l, limit, num);
    var site := FirstSite(Sorted(w));
    var fit := Together(w, site);
    NextIsNext(l, limit, num);
    TogetherIs(w, site);
    assert y in w && y in multiset(w) && y in multiset(fit);
    assert y !in multiset(r) && y in multiset(fit) - multiset(r);
    assert c in r && !Before(y, c);
    LeftOut(fit, r, y);
  }

  lemma {:induction false} LeftOut(fit: seq<Candidate>, r: seq<Candidate>, y: Candidate)
    requires multiset(r) <= multiset(fit) && y in multiset(fit) && y !in multiset(r)
    ensures |r| < |fit|
  {
    assert multiset(r) <= multiset(fit) - multiset{y};
    assert |multiset(fit) - multiset{y}| == |fit| - 1;
    var rest := multiset(fit) - multiset{y} - multiset(r);
    assert multiset(fit) - multiset{y} == multiset(r) + rest;
  }

  /** `f` fits and no ready candidate precedes it: then none precedes the first choice. */
  lemma {:induction false} FirstBeatsAll(fit: seq<Candidate>, r: seq<Candidate>, f: Candidate, y: Candidate)
    requires |r| > 0 && Ordered(r) && f in multiset(fit) && !Before(y, f)
    requires forall c, x | c in multiset(fit) - multiset(r) && x in r :: !Before(c, x)
    ensures NotAfter(r[0], y)
  {
    if f in r {
      var i :| 0 <= i < |r| && r[i] == f;
      assert i > 0 ==> !Before(r[i], r[0]);
    } else {
      assert f !in multiset(r) && f in multiset(fit) - multiset(r);
      assert r[0] in r;
    }
  }

  /** When anything is ready within the limit, something is chosen, and nothing that is
      ready anywhere precedes the first choice. */
  lemma {:induction false} FirstIsFirst(l: seq<Candidate>, limit: int, num: int, y: Candidate)
    requires num > 0 && y in l && y.best <= limit && Ready(y)
    ensures var r := Next(l, limit, num); |r| > 0 && NotAfter(r[0], y)
  {
    var w, r := Within(l, limit), Next(l, limit, num);
    var site := FirstSite(Sorted(w));
    var fit := Together(w, site);
    NextIsNext(l, limit, num);
    TogetherIs(w, site);
    assert site.Some?;
    var f :| && f in l && f.best <= limit && Fits(f, site)
             && forall c | c in l && c.best <= limit && Ready(c) :: !Before(c, f);
    assert f in w && f in multiset(w) && f in multiset(fit);
    assert f in fit && |fit| > 0;
    FirstBeatsAll(fit, r, f, y);
  }

  // ---------------------------------------------------------------- on the table

  predicate Known(rs: seq<ReqId>, types: map<ReqId, ReqType>) {
    forall i | 0 <= i < |rs| :: rs[i] in types
  }

  /** Every storage unit has requests, and their types are known. */
  predicate Readable(t: SuTable, types: map<ReqId, ReqType>)
    reads t
  {
    forall s | s in t.suDict :: s in t.suMap && t.suMap[s] != [] && Known(t.suMap[s], types)
  }

  /** When the daemon's tables agree, only an untracked request can make the table unreadable. */
  lemma {:induction false} AgreeingIsReadable(t: SuTable, types: map<ReqId, ReqType>)
    requires Agree(t.View())
    ensures Readable(t, types) <==> forall s | s in t.suMap :: Known(t.suMap[s], types)
  {
    assert t.suDict.Keys == t.suMap.Keys;
    forall s | s in t.suDict ensures s in t.suMap && t.suMap[s] != [] {
      assert s in t.View().suMap;
    }
  }

  function TypesOf(rs: seq<ReqId>, types: map<ReqId, ReqType>): (ts: seq<ReqType>)
    requires Known(rs, types)
    ensures |ts| == |rs| && forall i | 0 <= i < |rs| :: ts[i] == types[rs[i]]
  {
    if rs == [] then [] else TypesOf(rs[..|rs| - 1], types) + [types[rs[|rs| - 1]]]
  }

  function SiteOf(worker: Downloader?): Option<Site> {
    if worker == null then None else Some(Site(worker.user, worker.host, worker.port))
  }

  function CandidateOf(t: SuTable, types: map<ReqId, ReqType>, s: Sunum): (c: Candidate)
    requires Readable(t, types) && s in t.suDict
    reads t, t.suDict.Values
    ensures c.sunum == s
  {
    var su := t.suDict[s];
    Candidate(s, Best(TypesOf(t.suMap[s], types)), su.start, su.status, SiteOf(su.worker))
  }

  /** An ScpWorker of the highest priority takes exactly what some USER request wants. */
  lemma {:induction false} HighestTakesUserOnly(t: SuTable, types: map<ReqId, ReqType>, s: Sunum)
    requires Readable(t, types) && s in t.suDict
    ensures CandidateOf(t, types, s).best <= Priority(User)
            <==> exists i :: 0 <= i < |t.suMap[s]| && types[t.suMap[s][i]] == User
  {
    var ts := TypesOf(t.suMap[s], types);
    BestIsBest(ts);
    if User in ts {
      var i :| 0 <= i < |ts| && ts[i] == User;
      assert types[t.suMap[s][i]] == User;
    }
  }

  function Candidates(t: SuTable, types: map<ReqId, ReqType>, order: seq<Sunum>): (l: seq<Candidate>)
    requires Readable(t, types) && forall i | 0 <= i < |order| :: order[i] in t.suDict
    reads t, t.suDict.Values
    ensures |l| == |order|
  {
    if order == [] then [] else
      Candidates(t, types, order[..|order| - 1]) + [CandidateOf(t, types, order[|order| - 1])]
  }

  lemma {:induction false} CandidatesAre(t: SuTable, types: map<ReqId, ReqType>, order: seq<Sunum>)
    requires Readable(t, types) && forall i | 0 <= i < |order| :: order[i] in t.suDict
    ensures forall i | 0 <= i < |order| :: Candidates(t, types, order)[i] == CandidateOf(t, types, order[i])
  {
    if order != [] {
      CandidatesAre(t, types, order[..|order| - 1]);
    }
  }

  function Names(l: seq<Candidate>): (ss: seq<Sunum>)
    ensures |ss| == |l| && forall i | 0 <= i < |l| :: ss[i] == l[i].sunum
  {
    if l == [] then [] else Names(l[..|l| - 1]) + [l[|l| - 1].sunum]
  }

  /** The list tells of storage units of the table, of each at most once, as they are. */
  ghost predicate Describes(l: seq<Candidate>, t: SuTable)
    reads t, t.suDict.Values`status, t.suDict.Values`worker
  {
    && (forall i | 0 <= i < |l| ::
          && l[i].sunum in t.suDict && t.suDict[l[i].sunum].status == l[i].status
          && SiteOf(t.suDict[l[i].sunum].worker) == l[i].site)
    && forall i, j | 0 <= i < j < |l| :: l[i].sunum != l[j].sunum
  }

  /** The loop reaches candidate `j`: fewer than `num` were taken before. */
  predicate Reached(l: seq<Candidate>, num: int, j: nat)
    requires j < |l|
  {
    |Together(l[..j], FirstSite(l[..j]))| < num
  }

  lemma {:induction false} NoneReady(l: seq<Candidate>, site: Option<Site>)
    requires FirstSite(l).None?
    ensures Together(l, site) == []
  {
    if l != [] {
      NoneReady(l[1..], site);
    }
  }

  /** What one more candidate changes. */
  lemma {:induction false} OneMore(l: seq<Candidate>, i: nat)
    requires i < |l|
    ensures FirstSite(l[..i + 1]) == if FirstSite(l[..i]).Some? then FirstSite(l[..i])
                                     else if Ready(l[i]) then l[i].site else None
    ensures Together(l[..i + 1], FirstSite(l[..i + 1]))
            == Together(l[..i], FirstSite(l[..i])) + if Fits(l[i], FirstSite(l[..i + 1])) then [l[i]] else []
  {
    assert l[..i + 1] == l[..i] + [l[i]];
    FirstSiteAppend(l[..i], l[i]);
    TogetherAppend(l[..i], l[i], FirstSite(l[..i + 1]));
    if FirstSite(l[..i]).None? {
      NoneReady(l[..i], FirstSite(l[..i]));
      NoneReady(l[..i], FirstSite(l[..i + 1]));
    }
  }

  /** Once `num` were taken no candidate is reached any more, and the choice is made. */
  lemma {:induction false} Enough(l: seq<Candidate>, num: int, i: nat)
    requires i <= |l| && num > 0 && |Together(l[..i], FirstSite(l[..i]))| == num
    ensures Choice(l, num) == Together(l[..i], FirstSite(l[..i])) && FirstSite(l) == FirstSite(l[..i])
    ensures forall j | i <= j < |l| :: !Reached(l, num, j)
  {
    if FirstSite(l[..i]).None? {
      NoneReady(l[..i], FirstSite(l[..i]));
    }
    ChoiceIsStable(l, i);
    forall j | i <= j < |l| ensures !Reached(l, num, j) {
      assert l[..j][..i] == l[..i];
      ChoiceIsStable(l[..j], i);
    }
  }

  /** After `i` candidates these are chosen, and `n` more are wanted. */
  ghost predicate Halfway(l: seq<Candidate>, num: int, i: nat, names: seq<Sunum>, site: Option<Site>, n: int)
    requires i <= |l|
  {
    && 0 <= n == num - |names| && site == FirstSite(l[..i])
    && names == Names(Together(l[..i], FirstSite(l[..i])))
  }

  /** A storage unit that waits is taken when its site is the one of the others. */
  method Consider(l: seq<Candidate>, num: int, i: nat, names: seq<Sunum>, site: Option<Site>, n: int,
                  waits: bool, at: Option<Site>)
    returns (names1: seq<Sunum>, site1: Option<Site>, n1: int)
    requires i < |l| && n > 0 && Halfway(l, num, i, names, site, n)
    requires at == l[i].site && waits == l[i].status.W?
    ensures Reached(l, num, i) && Halfway(l, num, i + 1, names1, site1, n1)
    ensures names1 == names || names1 == names + [l[i].sunum]
  {
    OneMore(l, i);
    names1, site1, n1 := names, site, n;
    if waits && at.Some? {
      if site.None? {
        site1 := at;
      }
      if at == site1 {
        names1, n1 := names + [l[i].sunum], n - 1;
      }
    }
  }

  /** When the loop ends, the choice is made. */
  lemma {:induction false} PickedAll(l: seq<Candidate>, num: int, i: nat, names: seq<Sunum>, site: Option<Site>, n: int)
    requires num > 0 && i <= |l| && Halfway(l, num, i, names, site, n) && (n == 0 || i == |l|)
    ensures names == Names(Choice(l, num)) && site == FirstSite(l)
    ensures forall j | i <= j < |l| :: !Reached(l, num, j)
  {
    if n == 0 {
      Enough(l, num, i);
    } else {
      assert l[..i] == l;
    }
  }

  /** `touch`, for a storage unit that waits. */
  method Touch(t: SuTable, su: StorageUnit, now: int)
    requires t.Valid() && su.sunum in t.suDict && t.suDict[su.sunum] == su
    modifies su`start
    ensures t.Valid() && su.start == if su.status.W? then now else old(su.start)
    ensures forall q | q in t.suDict && q != su.sunum :: t.suDict[q].start == old(t.suDict[q].start)
  {
    if su.status.W? {
      su.start := now;
    }
  }

  /** One round: a storage unit is looked at. */
  method Look(t: SuTable, l: seq<Candidate>, num: int, i: nat, names: seq<Sunum>, site: Option<Site>, n: int, now: int)
    returns (names1: seq<Sunum>, site1: Option<Site>, n1: int)
    requires t.Valid() && Describes(l, t) && i < |l| && n > 0 && Halfway(l, num, i, names, site, n)
    requires forall k | 0 <= k < |names| :: names[k] in t.suDict
    modifies t.suDict.Values`start
    ensures t.Valid() && Reached(l, num, i) && Halfway(l, num, i + 1, names1, site1, n1)
    ensures forall k | 0 <= k < |names1| :: names1[k] in t.suDict
    ensures t.suDict[l[i].sunum].start == if l[i].status.W? then now else old(t.suDict[l[i].sunum].start)
    ensures forall s | s in t.suDict && s != l[i].sunum :: t.suDict[s].start == old(t.suDict[s].start)
  {
    var su := t.suDict[l[i].sunum];
    Touch(t, su, now);
    names1, site1, n1 := Consider(l, num, i, names, site, n, su.status.W?, SiteOf(su.worker));
  }

  /** What the loop has done when `k` candidates were looked at. */
  twostate predicate Touched(t: SuTable, l: seq<Candidate>, k: nat, now: int)
    requires k <= |l| && forall j | 0 <= j < |l| :: l[j].sunum in t.suDict && l[j].sunum in old(t.suDict)
    reads t, t.suDict.Values
  {
    && (forall j | 0 <= j < k ::
          t.suDict[l[j].sunum].start == if l[j].status.W? then now else old(t.suDict[l[j].sunum].start))
    && (forall j | k <= j < |l| :: t.suDict[l[j].sunum].start == old(t.suDict[l[j].sunum].start))
  }

  /** The loop over the sorted list. */
  method PickLoop(t: SuTable, l: seq<Candidate>, num: int, now: int)
    returns (names: seq<Sunum>, site: Option<Site>, n: int, k: nat)
    requires t.Valid() && Describes(l, t) && num > 0
    modifies t.suDict.Values`start
    ensures t.Valid() && forall i | 0 <= i < |names| :: names[i] in t.suDict
    ensures k <= |l| && Halfway(l, num, k, names, site, n) && (n == 0 || k == |l|)
    ensures forall j | 0 <= j < k :: Reached(l, num, j)
    ensures Touched(t, l, k, now)
    ensures forall s | s in t.suDict && s !in Names(l) :: t.suDict[s].start == old(t.suDict[s].start)
  {
    names, site := [], None;
    n, k := num, 0;
    while n > 0 && k < |l|
      invariant k <= |l| && t.Valid() && Halfway(l, num, k, names, site, n)
      invariant forall i | 0 <= i < |names| :: names[i] in t.suDict
      invariant forall j | 0 <= j < k :: Reached(l, num, j)
      invariant Touched(t, l, k, now)
      invariant forall s | s in t.suDict && s !in Names(l) :: t.suDict[s].start == old(t.suDict[s].start)
      decreases |l| - k
    {
      assert l[k].sunum == Names(l)[k];
      names, site, n := Look(t, l, num, k, names, site, n, now);
      k := k + 1;
    }
  }

  /** Take from the sorted list; `touch` every storage unit that waits and is looked at. */
  method Pick(t: SuTable, l: seq<Candidate>, num: int, now: int) returns (names: seq<Sunum>, site: Option<Site>)
    requires t.Valid() && Describes(l, t)
    modifies t.suDict.Values`start
    ensures t.Valid() && forall i | 0 <= i < |names| :: names[i] in t.suDict
    ensures names == Names(Choice(l, num)) && site == if num > 0 then FirstSite(l) else None
    ensures forall j | 0 <= j < |l| ::
              t.suDict[l[j].sunum].start
              == if l[j].status.W? && Reached(l, num, j) then now else old(t.suDict[l[j].sunum].start)
    ensures forall s | s in t.suDict && s !in Names(l) :: t.suDict[s].start == old(t.suDict[s].start)
  {
    names, site := [], None;
    if num > 0 {
      var n, k;
      names, site, n, k := PickLoop(t, l, num, now);
      PickedAll(l, num, k, names, site, n);
    }
  }

  /** What is chosen waits at the site, and is chosen once. */
  lemma {:induction false} ChosenFit(t: SuTable, l: seq<Candidate>, num: int)
    requires Describes(l, t)
    ensures var names := Names(Choice(l, num));
            forall i | 0 <= i < |names| :: Takeable(t, names[i], FirstSite(l)) && names[i] !in names[..i]
  {
    var c, site, all := Choice(l, num), FirstSite(l), Together(l, FirstSite(l));
    var names := Names(c);
    TogetherIs(l, site);
    assert Distinct(all) by {
      IndexedIsDistinct(l);
    }
    forall i | 0 <= i < |names| ensures Takeable(t, names[i], site) && names[i] !in names[..i] {
      assert all[i] in multiset(all) && all[i] in multiset(l);
      var k :| 0 <= k < |l| && l[k] == all[i];
      if names[i] in names[..i] {
        var j :| 0 <= j < i && names[j] == names[i];
        assert all[j] in multiset(all) && all[j] in multiset(l);
        var m :| 0 <= m < |l| && l[m] == all[j];
        assert m == k;
        assert all[j] in all[..i];
        NotBefore(all, i);
      }
    }
  }

  lemma {:induction false} IndexedIsDistinct(l: seq<Candidate>)
    requires forall i, j | 0 <= i < j < |l| :: l[i].sunum != l[j].sunum
    ensures Distinct(l)
  {
    if l != [] {
      var n := |l| - 1;
      IndexedIsDistinct(l[..n]);
      assert l[n] !in l[..n];
      DistinctAppend(l[..n], l[n]);
      assert l == l[..n] + [l[n]];
    }
  }

  /** It wants an ScpWorker, and its Downloader is at the site. */
  predicate Takeable(t: SuTable, s: Sunum, site: Option<Site>)
    reads t, t.suDict.Values`status, t.suDict.Values`worker
  {
    s in t.suDict && t.suDict[s].status.W? && SiteOf(t.suDict[s].worker) == site && site.Some?
  }

  lemma {:induction false} WithinIsDistinct(l: seq<Candidate>, limit: int)
    requires Distinct(l)
    ensures Distinct(Within(l, limit))
  {
    if l != [] {
      var n := |l| - 1;
      DistinctLast(l);
      WithinIsDistinct(l[..n], limit);
      if l[n].best <= limit {
        DistinctAppend(Within(l[..n], limit), l[n]);
      }
    }
  }

  lemma {:induction false} CandidatesAreDistinct(t: SuTable, types: map<ReqId, ReqType>, order: seq<Sunum>)
    requires Readable(t, types) && Distinct(order) && forall i | 0 <= i < |order| :: order[i] in t.suDict
    ensures Distinct(Candidates(t, types, order))
  {
    if order != [] {
      var n := |order| - 1;
      DistinctLast(order);
      var l := Candidates(t, types, order[..n]);
      CandidatesAre(t, types, order[..n]);
      CandidatesAreDistinct(t, types, order[..n]);
      assert CandidateOf(t, types, order[n]) !in l;
      DistinctAppend(l, CandidateOf(t, types, order[n]));
    }
  }

  /** What is filtered and sorted is still there, once. */
  lemma {:induction false} SortedOnce(all: seq<Candidate>, limit: int, l: seq<Candidate>)
    requires Distinct(all) && l == Sorted(Within(all, limit))
    ensures Distinct(l) && forall c | c in l :: c in all
  {
    var w := Within(all, limit);
    WithinIsDistinct(all, limit);
    SortedIsOrdered(w);
    forall x | x in l ensures multiset(l)[x] == 1 && x in all {
      assert x in multiset(w);
    }
  }

  lemma {:induction false} Described(t: SuTable, types: map<ReqId, ReqType>, order: seq<Sunum>, limit: int,
                                     l: seq<Candidate>)
    requires Readable(t, types) && Distinct(order) && forall i | 0 <= i < |order| :: order[i] in t.suDict
    requires l == Sorted(Within(Candidates(t, types, order), limit))
    ensures Describes(l, t)
  {
    var all := Candidates(t, types, order);
    CandidatesAre(t, types, order);
    CandidatesAreDistinct(t, types, order);
    SortedOnce(all, limit, l);
    forall c | c in l ensures c.sunum in t.suDict && c == CandidateOf(t, types, c.sunum) {
      assert c in all;
    }
    DescribedOnce(t, types, l);
  }

  lemma {:induction false} DescribedOnce(t: SuTable, types: map<ReqId, ReqType>, l: seq<Candidate>)
    requires Readable(t, types) && Distinct(l)
    requires forall c | c in l :: c.sunum in t.suDict && c == CandidateOf(t, types, c.sunum)
    ensures Describes(l, t)
  {
    forall i | 0 <= i < |l| ensures l[i].sunum in t.suDict && l[i] == CandidateOf(t, types, l[i].sunum) {
      assert l[i] in l;
    }
    forall i, j | 0 <= i < j < |l| ensures l[i].sunum != l[j].sunum {
      NotBefore(l, j);
      assert l[i] in l[..j];
    }
  }

  /** The order in which the dictionary lists its storage units. */
  ghost predicate Lists(order: seq<Sunum>, t: SuTable)
    reads t
  {
    Distinct(order) && (forall i | 0 <= i < |order| :: order[i] in t.suDict) && forall s | s in t.suDict :: s in order
  }

  /** The number that stands for a type of request in the order of storage units. */
  predicate Urgency(t: ReqType, n: int) {
    match t
    case User => n == 0
    case Mirror => n == 10
    case Generic => n == 100
  }

  /** The least number of the requests `rs` is `p`. */
  ghost predicate LeastIs(rs: seq<ReqId>, types: map<ReqId, ReqType>, p: int) {
    && Known(rs, types)
    && (exists i :: 0 <= i < |rs| && Urgency(types[rs[i]], p))
    && forall i, n | 0 <= i < |rs| && Urgency(types[rs[i]], n) :: p <= n
  }

  /** It wants an ScpWorker, it has a Downloader, and some request for it is within the limit. */
  ghost predicate Eligible(t: SuTable, types: map<ReqId, ReqType>, limit: int, s: Sunum)
    reads t, t.suDict.Values
  {
    && s in t.suDict && s in t.suMap && t.suDict[s].status.W? && t.suDict[s].worker != null
    && exists p :: LeastIs(t.suMap[s], types, p) && p <= limit
  }

  /** Their Downloaders fetch them from the same account, host and port. */
  ghost predicate SameSite(t: SuTable, s: Sunum, u: Sunum)
    reads t, t.suDict.Values
  {
    && s in t.suDict && u in t.suDict && t.suDict[s].worker != null && t.suDict[u].worker != null
    && t.suDict[s].worker.user == t.suDict[u].worker.user && t.suDict[s].worker.host == t.suDict[u].worker.host
    && t.suDict[s].worker.port == t.suDict[u].worker.port
  }

  /** `s` has a request that is more urgent than all those of `u`, or as urgent as the most
      urgent of them while `s` has waited at least as long. */
  ghost predicate GoesFirst(t: SuTable, types: map<ReqId, ReqType>, s: Sunum, u: Sunum)
    reads t, t.suDict.Values
  {
    && s in t.suDict && u in t.suDict && s in t.suMap && u in t.suMap
    && forall p, q | LeastIs(t.suMap[s], types, p) && LeastIs(t.suMap[u], types, q) ::
         p < q || (p == q && t.suDict[s].start <= t.suDict[u].start)
  }

  /** `names` is what an ScpWorker has to get: eligible storage units of one site, at most
      `maxsus`, in the order of their urgency; if there is any eligible one, something, and
      nothing eligible goes before the first of them; and when one of that site is left out,
      `maxsus` of them that go before it. */
  ghost predicate MostUrgentNow(t: SuTable, types: map<ReqId, ReqType>, w: Settings, names: seq<Sunum>)
    reads t, t.suDict.Values
  {
    && (w.maxsus <= 0 ==> names == []) && (w.maxsus > 0 ==> |names| <= w.maxsus)
    && (forall i | 0 <= i < |names| :: Eligible(t, types, w.limit, names[i]) && SameSite(t, names[0], names[i]))
    && (forall i, j | 0 <= i < j < |names| :: GoesFirst(t, types, names[i], names[j]))
    && (forall u | w.maxsus > 0 && Eligible(t, types, w.limit, u) :: |names| > 0 && GoesFirst(t, types, names[0], u))
    && (forall u, i | 0 <= i < |names| && u !in names && Eligible(t, types, w.limit, u) && SameSite(t, names[0], u) ::
          |names| == w.maxsus && GoesFirst(t, types, names[i], u))
  }

  /** The same for the table as it was before; nothing, if it could not be read. */
  twostate predicate MostUrgent(t: SuTable, types: map<ReqId, ReqType>, w: Settings, new names: seq<Sunum>) {
    && (!old(Readable(t, types)) ==> names == [])
    && (w.maxsus <= 0 ==> names == []) && (w.maxsus > 0 ==> |names| <= w.maxsus)
    && (forall i | 0 <= i < |names| ::
          old(Eligible(t, types, w.limit, names[i])) && old(SameSite(t, names[0], names[i])))
    && (forall i, j | 0 <= i < j < |names| :: old(GoesFirst(t, types, names[i], names[j])))
    && (forall u | old(Readable(t, types)) && w.maxsus > 0 && old(Eligible(t, types, w.limit, u)) ::
          |names| > 0 && old(GoesFirst(t, types, names[0], u)))
    && (forall u, i | && 0 <= i < |names| && u !in names && old(Eligible(t, types, w.limit, u))
                      && old(SameSite(t, names[0], u)) ::
          |names| == w.maxsus && old(GoesFirst(t, types, names[i], u)))
  }

  lemma {:induction false} PriorityIsUrgency(t: ReqType, n: int)
    ensures Urgency(t, n) <==> n == Priority(t)
  {
  }

  lemma {:induction false} BestIsLeast(rs: seq<ReqId>, types: map<ReqId, ReqType>)
    requires rs != [] && Known(rs, types)
    ensures forall p :: LeastIs(rs, types, p) <==> p == Best(TypesOf(rs, types))
  {
    var ts := TypesOf(rs, types);
    BestIsBest(ts);
    var best := Best(ts);
    forall i, n | 0 <= i < |rs| && Urgency(types[rs[i]], n) ensures best <= n {
      PriorityIsUrgency(types[rs[i]], n);
      assert ts[i] in ts;
    }
    var x :| x in ts && best == Priority(x);
    var j :| 0 <= j < |ts| && ts[j] == x;
    assert Urgency(types[rs[j]], best);
    assert LeastIs(rs, types, best);
    forall p | LeastIs(rs, types, p) ensures p == best {
      var i :| 0 <= i < |rs| && Urgency(types[rs[i]], p);
      assert p <= best && best <= p;
    }
  }

  /** What the worker sees of a storage unit is what the table says. */
  lemma {:induction false} CandidateIsTrue(t: SuTable, types: map<ReqId, ReqType>, limit: int, s: Sunum)
    requires Readable(t, types) && s in t.suDict
    ensures var c := CandidateOf(t, types, s);
            && (Eligible(t, types, limit, s) <==> Ready(c) && c.best <= limit)
            && LeastIs(t.suMap[s], types, c.best)
  {
    BestIsLeast(t.suMap[s], types);
    var c := CandidateOf(t, types, s);
    assert LeastIs(t.suMap[s], types, c.best);
    if Eligible(t, types, limit, s) {
      var p :| LeastIs(t.suMap[s], types, p) && p <= limit;
    }
  }

  lemma {:induction false} SiteIsTrue(t: SuTable, types: map<ReqId, ReqType>, s: Sunum, u: Sunum)
    requires Readable(t, types) && s in t.suDict && u in t.suDict
    ensures SameSite(t, s, u) <==>
            CandidateOf(t, types, s).site.Some? && CandidateOf(t, types, s).site == CandidateOf(t, types, u).site
  {
  }

  lemma {:induction false} FirstOnTable(t: SuTable, types: map<ReqId, ReqType>, s: Sunum, u: Sunum)
    requires Readable(t, types) && s in t.suDict && u in t.suDict
    requires NotAfter(CandidateOf(t, types, s), CandidateOf(t, types, u))
    ensures GoesFirst(t, types, s, u)
  {
    BestIsLeast(t.suMap[s], types);
    BestIsLeast(t.suMap[u], types);
  }

  /** The candidate of every storage unit is seen. */
  lemma {:induction false} AllAreSeen(t: SuTable, types: map<ReqId, ReqType>, order: seq<Sunum>, u: Sunum)
    requires Readable(t, types) && Lists(order, t) && u in t.suDict
    ensures CandidateOf(t, types, u) in Candidates(t, types, order)
  {
    CandidatesAre(t, types, order);
    var i :| 0 <= i < |order| && order[i] == u;
    assert Candidates(t, types, order)[i] == CandidateOf(t, types, u);
  }

  lemma {:induction false} SeenAreTrue(t: SuTable, types: map<ReqId, ReqType>, order: seq<Sunum>, c: Candidate)
    requires Readable(t, types) && Lists(order, t) && c in Candidates(t, types, order)
    ensures c.sunum in t.suDict && c == CandidateOf(t, types, c.sunum)
  {
    CandidatesAre(t, types, order);
    var i :| 0 <= i < |order| && Candidates(t, types, order)[i] == c;
  }

  lemma {:induction false} ChosenIsTrue(t: SuTable, types: map<ReqId, ReqType>, order: seq<Sunum>, w: Settings, i: nat)
    requires Readable(t, types) && Lists(order, t) && i < |Next(Candidates(t, types, order), w.limit, w.maxsus)|
    ensures var l := Candidates(t, types, order);
            var c := Next(l, w.limit, w.maxsus)[i];
            && c.sunum in t.suDict && c == CandidateOf(t, types, c.sunum) && c in l
            && c.best <= w.limit && Fits(c, FirstSite(Sorted(Within(l, w.limit))))
            && Eligible(t, types, w.limit, c.sunum)
  {
    var l := Candidates(t, types, order);
    var r := Next(l, w.limit, w.maxsus);
    NextIsNext(l, w.limit, w.maxsus);
    assert r[i] in r;
    SeenAreTrue(t, types, order, r[i]);
    CandidateIsTrue(t, types, w.limit, r[i].sunum);
  }

  lemma {:induction false} NamesOfAll(r: seq<Candidate>, y: Candidate)
    ensures y in r ==> y.sunum in Names(r)
  {
    if y in r {
      var j :| 0 <= j < |r| && r[j] == y;
      assert Names(r)[j] == y.sunum;
    }
  }

  lemma {:induction false} LeftOutGoLater(t: SuTable, types: map<ReqId, ReqType>, order: seq<Sunum>, w: Settings,
                                          i: nat,
                                          u: Sunum)
    requires Readable(t, types) && Lists(order, t)
    requires var r := Next(Candidates(t, types, order), w.limit, w.maxsus);
             && i < |r| && u !in Names(r) && Eligible(t, types, w.limit, u) && SameSite(t, r[0].sunum, u)
    ensures var r := Next(Candidates(t, types, order), w.limit, w.maxsus);
            |r| == w.maxsus && GoesFirst(t, types, r[i].sunum, u)
  {
    var l := Candidates(t, types, order);
    var r, y := Next(l, w.limit, w.maxsus), CandidateOf(t, types, u);
    ChosenIsTrue(t, types, order, w, i);
    ChosenIsTrue(t, types, order, w, 0);
    AllAreSeen(t, types, order, u);
    CandidateIsTrue(t, types, w.limit, u);
    SiteIsTrue(t, types, r[0].sunum, u);
    NamesOfAll(r, y);
    ChosenAreFirst(l, w.limit, w.maxsus, r[i], y);
    FirstOnTable(t, types, r[i].sunum, u);
  }

  lemma {:induction false} NobodyGoesBefore(t: SuTable, types: map<ReqId, ReqType>, order: seq<Sunum>, w: Settings,
                                            u: Sunum)
    requires Readable(t, types) && Lists(order, t) && w.maxsus > 0 && Eligible(t, types, w.limit, u)
    ensures var r := Next(Candidates(t, types, order), w.limit, w.maxsus);
            |r| > 0 && GoesFirst(t, types, r[0].sunum, u)
  {
    var l := Candidates(t, types, order);
    AllAreSeen(t, types, order, u);
    CandidateIsTrue(t, types, w.limit, u);
    FirstIsFirst(l, w.limit, w.maxsus, CandidateOf(t, types, u));
    ChosenIsTrue(t, types, order, w, 0);
    FirstOnTable(t, types, Next(l, w.limit, w.maxsus)[0].sunum, u);
  }

  lemma {:induction false} ChosenGoInOrder(t: SuTable, types: map<ReqId, ReqType>, order: seq<Sunum>, w: Settings,
                                           i: nat,
                                           j: nat)
    requires Readable(t, types) && Lists(order, t)
    requires i < j < |Next(Candidates(t, types, order), w.limit, w.maxsus)|
    ensures var r := Next(Candidates(t, types, order), w.limit, w.maxsus); GoesFirst(t, types, r[i].sunum, r[j].sunum)
  {
    var l := Candidates(t, types, order);
    var r := Next(l, w.limit, w.maxsus);
    NextIsNext(l, w.limit, w.maxsus);
    ChosenIsTrue(t, types, order, w, i);
    ChosenIsTrue(t, types, order, w, j);
    assert !Before(r[j], r[i]);
    FirstOnTable(t, types, r[i].sunum, r[j].sunum);
  }

  lemma {:induction false} ChosenTogether(t: SuTable, types: map<ReqId, ReqType>, order: seq<Sunum>, w: Settings,
                                          i: nat)
    requires Readable(t, types) && Lists(order, t) && i < |Next(Candidates(t, types, order), w.limit, w.maxsus)|
    ensures var r := Next(Candidates(t, types, order), w.limit, w.maxsus);
            Eligible(t, types, w.limit, r[i].sunum) && SameSite(t, r[0].sunum, r[i].sunum)
  {
    var r := Next(Candidates(t, types, order), w.limit, w.maxsus);
    ChosenIsTrue(t, types, order, w, 0);
    ChosenIsTrue(t, types, order, w, i);
    SiteIsTrue(t, types, r[0].sunum, r[i].sunum);
  }

  lemma {:induction false} ChosenInOrder(t: SuTable, types: map<ReqId, ReqType>, order: seq<Sunum>, w: Settings,
                                         names: seq<Sunum>)
    requires Readable(t, types) && Lists(order, t)
    requires names == Names(Next(Candidates(t, types, order), w.limit, w.maxsus))
    ensures forall i | 0 <= i < |names| :: Eligible(t, types, w.limit, names[i]) && SameSite(t, names[0], names[i])
    ensures forall i, j | 0 <= i < j < |names| :: GoesFirst(t, types, names[i], names[j])
  {
    forall i | 0 <= i < |names| ensures Eligible(t, types, w.limit, names[i]) && SameSite(t, names[0], names[i]) {
      ChosenTogether(t, types, order, w, i);
    }
    forall i, j | 0 <= i < j < |names| ensures GoesFirst(t, types, names[i], names[j]) {
      ChosenGoInOrder(t, types, order, w, i, j);
    }
  }

  lemma {:induction false} OthersGoLater(t: SuTable, types: map<ReqId, ReqType>, order: seq<Sunum>, w: Settings,
                                         names: seq<Sunum>)
    requires Readable(t, types) && Lists(order, t)
    requires names == Names(Next(Candidates(t, types, order), w.limit, w.maxsus))
    ensures forall u | w.maxsus > 0 && Eligible(t, types, w.limit, u) :: |names| > 0 && GoesFirst(t, types, names[0], u)
    ensures forall u, i | && 0 <= i < |names| && u !in names && Eligible(t, types, w.limit, u)
                          && SameSite(t, names[0], u) ::
              |names| == w.maxsus && GoesFirst(t, types, names[i], u)
  {
    forall u | w.maxsus > 0 && Eligible(t, types, w.limit, u) ensures |names| > 0 && GoesFirst(t, types, names[0], u) {
      NobodyGoesBefore(t, types, order, w, u);
    }
    forall u, i | 0 <= i < |names| && u !in names && Eligible(t, types, w.limit, u) && SameSite(t, names[0], u)
      ensures |names| == w.maxsus && GoesFirst(t, types, names[i], u)
    {
      LeftOutGoLater(t, types, order, w, i, u);
    }
  }

  /** The choice among the candidates is the most urgent one on the table. */
  lemma {:induction false} NextIsMostUrgent(t: SuTable, types: map<ReqId, ReqType>, order: seq<Sunum>, w: Settings,
                                            names: seq<Sunum>)
    requires Readable(t, types) && Lists(order, t)
    requires names == Names(Next(Candidates(t, types, order), w.limit, w.maxsus))
    ensures MostUrgentNow(t, types, w, names)
  {
    NextIsNext(Candidates(t, types, order), w.limit, w.maxsus);
    ChosenInOrder(t, types, order, w, names);
    OthersGoLater(t, types, order, w, names);
  }

  /** The objects of these SUNUMs. */
  ghost predicate Found(t: SuTable, names: seq<Sunum>, sus: seq<StorageUnit>)
    reads t
  {
    |sus| == |names| && forall i | 0 <= i < |names| :: names[i] in t.suDict && sus[i] == t.suDict[names[i]]
  }

  /** Storage units of the table, none twice. */
  ghost predicate Members(t: SuTable, sus: seq<StorageUnit>)
    reads t
  {
    && (forall i | 0 <= i < |sus| :: sus[i] in t.suDict.Values)
    && forall i, j | 0 <= i < j < |sus| :: sus[i] != sus[j]
  }

  lemma {:induction false} LookupMembers(t: SuTable, names: seq<Sunum>, site: Option<Site>)
    requires t.Valid() && forall i | 0 <= i < |names| :: Takeable(t, names[i], site) && names[i] !in names[..i]
    ensures forall i | 0 <= i < |names| :: names[i] in t.suDict
    ensures Members(t, Lookup(t.suDict, names))
    ensures forall su | su in Lookup(t.suDict, names) :: su.status.W? && SiteOf(su.worker) == site
  {
    forall i | 0 <= i < |names| ensures names[i] in t.suDict {
      assert Takeable(t, names[i], site);
    }
    var sus := Lookup(t.suDict, names);
    forall i | 0 <= i < |sus| ensures sus[i] in t.suDict.Values && sus[i].sunum == names[i] {
      assert Takeable(t, names[i], site);
      assert names[i] in t.suDict.Keys;
    }
    forall i, j | 0 <= i < j < |sus| ensures sus[i] != sus[j] {
      assert names[i] in names[..j];
    }
    forall su | su in sus ensures su.status.W? && SiteOf(su.worker) == site {
      var i :| 0 <= i < |sus| && sus[i] == su;
      assert Takeable(t, names[i], site);
    }
  }

  lemma {:induction false} CollectedFit(t: SuTable, l: seq<Candidate>, num: int, names: seq<Sunum>, site: Option<Site>)
    requires t.Valid() && Describes(l, t) && names == Names(Choice(l, num))
    requires site == if num > 0 then FirstSite(l) else None
    ensures forall i | 0 <= i < |names| :: names[i] in t.suDict
    ensures Found(t, names, Lookup(t.suDict, names)) && Members(t, Lookup(t.suDict, names))
    ensures forall su | su in Lookup(t.suDict, names) :: su.status.W? && SiteOf(su.worker) == site
  {
    if num > 0 {
      ChosenFit(t, l, num);
      LookupMembers(t, names, site);
    }
  }

  /** The sorted list of candidates; whatever goes wrong while the tables are read leaves
      none.  Taking from it gives the most urgent storage units. */
  method Prepare(t: SuTable, types: map<ReqId, ReqType>, order: seq<Sunum>, w: Settings)
    returns (l: seq<Candidate>, ghost best: seq<Sunum>)
    requires Lists(order, t)
    ensures Describes(l, t) && best == Names(Choice(l, w.maxsus)) && MostUrgent(t, types, w, best)
  {
    l := [];
    if Readable(t, types) {
      l := Sorted(Within(Candidates(t, types, order), w.limit));
      Described(t, types, order, w.limit, l);
      NextIsMostUrgent(t, types, order, w, Names(Choice(l, w.maxsus)));
    }
    best := Names(Choice(l, w.maxsus));
  }

  /** Taking from the list. */
  method Collect(t: SuTable, l: seq<Candidate>, num: int, now: int, ghost best: seq<Sunum>)
    returns (sus: seq<StorageUnit>, site: Option<Site>, names: seq<Sunum>)
    requires t.Valid() && Describes(l, t) && best == Names(Choice(l, num))
    modifies t.suDict.Values`start
    ensures t.Valid() && names == best && Found(t, names, sus) && Members(t, sus)
    ensures forall su | su in sus :: su.status.W? && SiteOf(su.worker) == site
  {
    names, site := Pick(t, l, num, now);
    CollectedFit(t, l, num, names, site);
    sus := Lookup(t.suDict, names);
  }

  /** `getNextNWorkingSUs`: `maxsus` of the most urgent, within the priority limit. */
  method GetNextNWorkingSUs(t: SuTable, types: map<ReqId, ReqType>, order: seq<Sunum>, w: Settings, now: int)
    returns (sus: seq<StorageUnit>, site: Option<Site>, names: seq<Sunum>)
    requires t.Valid() && Lists(order, t)
    modifies t.suDict.Values`start
    ensures t.Valid() && Found(t, names, sus) && Members(t, sus) && MostUrgent(t, types, w, names)
    ensures forall su | su in sus :: su.status.W? && old(su.status).W? && SiteOf(su.worker) == site
  {
    var l, best := Prepare(t, types, order, w);
    sus, site, names := Collect(t, l, w.maxsus, now, best);
  }

  // ---------------------------------------------------------------- the batch

  function Sum(sizes: seq<nat>): nat {
    if sizes == [] then 0 else Sum(sizes[..|sizes| - 1]) + sizes[|sizes| - 1]
  }

  function Sizes(sus: seq<StorageUnit>): (sizes: seq<nat>)
    reads sus`size
    ensures |sizes| == |sus| && forall i | 0 <= i < |sus| :: sizes[i] == sus[i].size
  {
    if sus == [] then [] else Sizes(sus[..|sus| - 1]) + [sus[|sus| - 1].size]
  }

  /** A batch may be this long: one storage unit may have any size. */
  predicate Allowed(sizes: seq<nat>, maxsus: int, maxpayload: int, k: nat)
    requires k <= |sizes|
  {
    k == 0 || (k <= maxsus && (k == 1 || Sum(sizes[..k]) <= maxpayload))
  }

  lemma {:induction false} SumGrows(sizes: seq<nat>, i: nat, j: nat)
    requires i <= j <= |sizes|
    ensures Sum(sizes[..i]) <= Sum(sizes[..j])
    decreases j
  {
    if i < j {
      assert sizes[..j][..j - 1] == sizes[..j - 1];
      SumGrows(sizes, i, j - 1);
    }
  }

  /** What is too long stays too long with more in it. */
  lemma {:induction false} AllowedIsDownward(sizes: seq<nat>, maxsus: int, maxpayload: int, i: nat, j: nat)
    requires i <= j <= |sizes| && Allowed(sizes, maxsus, maxpayload, j)
    ensures Allowed(sizes, maxsus, maxpayload, i)
  {
    SumGrows(sizes, i, j);
  }

  /** At most `maxsus` sizes, which are at most `maxpayload` together unless there is only
      one; and the next one would be too many or too much. */
  ghost predicate LongestCut(sizes: seq<nat>, maxsus: int, maxpayload: int, n: nat) {
    && n <= |sizes| && (maxsus > 0 ==> n <= maxsus) && (maxsus <= 0 ==> n == 0)
    && (maxsus > 0 && sizes != [] ==> n > 0)
    && (n > 1 ==> Sum(sizes[..n]) <= maxpayload)
    && (0 < n < |sizes| && n < maxsus ==> Sum(sizes[..n + 1]) > maxpayload)
  }

  ghost predicate LongestPrefix(working: seq<StorageUnit>, maxsus: int, maxpayload: int, batch: seq<StorageUnit>)
    reads working`size
  {
    batch <= working && LongestCut(Sizes(working), maxsus, maxpayload, |batch|)
  }

  /** No longer prefix is allowed. */
  lemma {:induction false} NothingLonger(working: seq<StorageUnit>, maxsus: int, maxpayload: int,
                                         batch: seq<StorageUnit>)
    requires LongestPrefix(working, maxsus, maxpayload, batch)
    ensures forall k | 0 <= k <= |working| :: Allowed(Sizes(working), maxsus, maxpayload, k) <==> k <= |batch|
  {
    var sizes := Sizes(working);
    forall k | 0 <= k <= |working| ensures Allowed(sizes, maxsus, maxpayload, k) <==> k <= |batch| {
      if k <= |batch| {
        AllowedIsDownward(sizes, maxsus, maxpayload, k, |batch|);
      } else if Allowed(sizes, maxsus, maxpayload, k) {
        AllowedIsDownward(sizes, maxsus, maxpayload, |batch| + 1, k);
      }
    }
  }

  /** The batch is the longest allowed prefix of what was collected. */
  method TakeBatch(working: seq<StorageUnit>, maxsus: int, maxpayload: int)
    returns (batch: seq<StorageUnit>, payload: nat)
    ensures LongestPrefix(working, maxsus, maxpayload, batch) && payload == Sum(Sizes(working)[..|batch|])
  {
    var i := 0;
    batch, payload := [], 0;
    ghost var sizes := Sizes(working);
    while i < |working|
      invariant 0 <= i <= |working| && batch == working[..i] && (i == 0 || i <= maxsus)
      invariant payload == Sum(sizes[..i]) && (i > 1 ==> payload <= maxpayload)
    {
      var su := working[i];
      assert sizes[..i + 1][..i] == sizes[..i];
      if (payload + su.size > maxpayload && i > 0) || i + 1 > maxsus {
        break;
      }
      batch, payload, i := batch + [su], payload + su.size, i + 1;
    }
  }

  /** `setStatus('D')` for every member of the batch. */
  method Mark(batch: seq<StorageUnit>)
    modifies batch`status
    ensures forall su | su in batch :: su.status.D?
  {
    var i := 0;
    while i < |batch|
      invariant 0 <= i <= |batch|
      invariant forall j | 0 <= j < i :: batch[j].status.D?
    {
      batch[i].status := D;
      i := i + 1;
    }
  }

  method Payload(sus: seq<StorageUnit>) returns (total: nat)
    ensures total == Sum(Sizes(sus))
  {
    total := 0;
    var i := 0;
    while i < |sus|
      invariant 0 <= i <= |sus| && total == Sum(Sizes(sus[..i]))
    {
      total := total + sus[i].size;
      assert sus[..i + 1][..i] == sus[..i];
      i := i + 1;
    }
    assert sus[..i] == sus;
  }

  /** Whether it is time for a download of `n` storage units of this total size, and what is
      remembered as the time of the last one. */
  method Decide(total: nat, n: nat, w: Settings, last: Option<int>, now: int) returns (due: bool, last1: Option<int>)
    ensures due <==> n > 0 && (|| total > w.maxpayload || n == w.maxsus || w.limit == 0
                               || (last.Some? && now - last.value > w.timeout))
    ensures last1 == if n > 0 && (last.None? || total > w.maxpayload || n == w.maxsus) then Some(now) else last
  {
    due, last1 := false, last;
    if n > 0 {
      due := total > w.maxpayload || n == w.maxsus;
      if due {
        last1 := Some(now);
      } else {
        if last1.None? {
          last1 := Some(now);
        }
        due := now - last1.value > w.timeout || w.limit == 0;
      }
    }
  }

  /** The longest allowed prefix of what was collected, if there is anything and it is too
      much for one download, or as many storage units as the ScpWorker may take, or it is of
      the highest priority, or it has not downloaded for too long; otherwise nothing. */
  ghost predicate BatchIs(working: seq<StorageUnit>, w: Settings, last: Option<int>, now: int, batch: seq<StorageUnit>)
    reads working`size
  {
    batch <= working && CutIs(Sizes(working), w, last, now, |batch|)
  }

  ghost predicate CutIs(sizes: seq<nat>, w: Settings, last: Option<int>, now: int, n: nat) {
    if sizes != [] && (|| Sum(sizes) > w.maxpayload || |sizes| == w.maxsus || w.limit == 0
                       || (last.Some? && now - last.value > w.timeout))
    then LongestCut(sizes, w.maxsus, w.maxpayload, n) else n == 0
  }

  /** Cut what was collected to a batch, and decide whether it is time. */
  method Cut(working: seq<StorageUnit>, w: Settings, last: Option<int>, now: int)
    returns (batch: seq<StorageUnit>, last1: Option<int>)
    ensures BatchIs(working, w, last, now, batch)
    ensures last1 == if working != [] && (last.None? || Sum(Sizes(working)) > w.maxpayload || |working| == w.maxsus)
                     then Some(now) else last
  {
    ghost var sizes := Sizes(working);
    var total := Payload(working);
    var cut, payload := TakeBatch(working, w.maxsus, w.maxpayload);
    assert LongestCut(sizes, w.maxsus, w.maxpayload, |cut|) && total == Sum(sizes);
    var due;
    due, last1 := Decide(total, |working|, w, last, now);
    if due {
      batch := cut;
    } else {
      batch := cut[..0];
    }
  }

  /** A download starts: its batch is marked. */
  method Start(t: SuTable, working: seq<StorageUnit>, w: Settings, last: Option<int>, now: int)
    returns (batch: seq<StorageUnit>, last1: Option<int>)
    requires t.Valid() && Members(t, working)
    modifies t.suDict.Values`status
    ensures t.Valid()
    ensures BatchIs(working, w, last, now, batch)
    ensures forall su | su in batch :: su in working && su.status.D?
    ensures forall su | su in t.suDict.Values && su !in batch :: su.status == old(su.status)
    ensures last1 == if working != [] && (last.None? || Sum(Sizes(working)) > w.maxpayload || |working| == w.maxsus)
                     then Some(now) else last
  {
    batch, last1 := Cut(working, w, last, now);
    MembersOfPrefix(t, batch, working);
    Mark(batch);
  }

  lemma {:induction false} MembersOfPrefix(t: SuTable, p: seq<StorageUnit>, l: seq<StorageUnit>)
    requires Members(t, l) && p <= l
    ensures forall su | su in p :: su in l && su in t.suDict.Values
  {
    forall su | su in p ensures su in l && su in t.suDict.Values {
      var i :| 0 <= i < |p| && p[i] == su;
      assert l[i] == su;
    }
  }

  /** What was collected waits at one site. */
  method StartWaiting(t: SuTable, working: seq<StorageUnit>, site: Option<Site>, w: Settings, last: Option<int>,
                      now: int)
    returns (batch: seq<StorageUnit>, last1: Option<int>)
    requires t.Valid() && Members(t, working)
    requires forall su | su in working :: su.status.W? && SiteOf(su.worker) == site
    modifies t.suDict.Values`status
    ensures t.Valid() && BatchIs(working, w, last, now, batch)
    ensures forall su | su in batch :: su in working && su.status.D? && SiteOf(su.worker) == site
    ensures forall su | su in t.suDict.Values && su !in batch :: su.status == old(su.status)
  {
    batch, last1 := Start(t, working, w, last, now);
  }

  /** What an ScpWorker does in one hold of the table lock: collect, cut, decide, mark.  Of
      the most urgent storage units it marks the longest allowed prefix, if there is anything
      and they are too much for one download, or as many as it may take, or it is of the
      highest priority, or it has not downloaded for too long. */
  method Claim(t: SuTable, types: map<ReqId, ReqType>, order: seq<Sunum>, w: Settings, last: Option<int>, now: int)
    returns (batch: seq<StorageUnit>, site: Option<Site>, last1: Option<int>, working: seq<StorageUnit>,
             names: seq<Sunum>)
    requires t.Valid() && Lists(order, t)
    modifies t.suDict.Values`start, t.suDict.Values`status
    ensures t.Valid() && Found(t, names, working) && Members(t, working)
    ensures BatchIs(working, w, last, now, batch)
    ensures forall su | su in batch :: old(su.status).W? && su.status.D? && SiteOf(su.worker) == site
    ensures forall su | su in t.suDict.Values && su !in batch :: su.status == old(su.status)
    ensures MostUrgent(t, types, w, names)
  {
    working, site, names := GetNextNWorkingSUs(t, types, order, w, now);
    batch, last1 := StartWaiting(t, working, site, w, last, now);
  }

  /** `Sum` adds sizes up. */
  lemma {:induction false} SumOfParts(a: seq<nat>, b: seq<nat>)
    ensures Sum(a + b) == Sum(a) + Sum(b) && forall x: nat :: Sum([x]) == x
  {
    forall x: nat ensures Sum([x]) == x {
      assert [x][..0] == [];
    }
    if b == [] {
      assert a + b == a;
    } else {
      var n := |b| - 1;
      SumOfParts(a, b[..n]);
      assert (a + b)[..|a| + n] == a + b[..n];
    }
  }
}
