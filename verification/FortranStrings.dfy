/** Conversion of string vectors between C and Fortran.

    A C vector has N elements of L bytes, each holding a string and its NUL.  A
    Fortran vector has N elements of D == L - 1 bytes, padded with blanks.  The
    conversions walk two cursors of different stride, usually over one buffer. */
module FortranStrings {

  newtype Byte = x: int | 0 <= x < 256

  const NUL: Byte := 0
  const BLANK: Byte := 32

  type Bytes = seq<Byte>

  // ---------------------------------------------------------------- strings

  /** Where the first NUL of `s` at or after `i` is. */
  function StrEnd(s: Bytes, i: nat): nat
    decreases |s| - i
  {
    if i >= |s| || s[i] == NUL then i else StrEnd(s, i + 1)
  }

  lemma {:induction false} StrEndShape(s: Bytes, i: nat)
    requires i <= |s|
    ensures i <= StrEnd(s, i) <= |s|
    ensures forall k | i <= k < StrEnd(s, i) :: s[k] != NUL
    ensures StrEnd(s, i) < |s| ==> s[StrEnd(s, i)] == NUL
    decreases |s| - i
  {
    if i < |s| && s[i] != NUL {
      StrEndShape(s, i + 1);
    }
  }

  /** Where the trailing `t`s of `s[..n]` begin. */
  function StripEnd(s: Bytes, t: Byte, n: nat): nat
    requires n <= |s|
  {
    if n == 0 || s[n - 1] != t then n else StripEnd(s, t, n - 1)
  }

  lemma {:induction false} StripEndShape(s: Bytes, t: Byte, n: nat)
    requires n <= |s|
    ensures StripEnd(s, t, n) <= n
    ensures StripEnd(s, t, n) == 0 || s[StripEnd(s, t, n) - 1] != t
    ensures forall k | StripEnd(s, t, n) <= k < n :: s[k] == t
  {
    if n > 0 && s[n - 1] == t {
      StripEndShape(s, t, n - 1);
    }
  }

  /** The string C reads from a buffer: the bytes before the first NUL. */
  function CString(s: Bytes): Bytes {
    StrEndShape(s, 0);
    s[..StrEnd(s, 0)]
  }

  /** `s` without its trailing `t`s. */
  function Strip(s: Bytes, t: Byte): Bytes {
    StripEndShape(s, t, |s|);
    s[..StripEnd(s, t, |s|)]
  }

  lemma {:induction false} StrEndIs(s: Bytes, n: nat)
    requires n <= |s| && forall k | 0 <= k < n :: s[k] != NUL
    requires n < |s| ==> s[n] == NUL
    ensures StrEnd(s, 0) == n
  {
    StrEndShape(s, 0);
  }

  lemma {:induction false} StripEndIs(s: Bytes, t: Byte, n: nat, k: nat)
    requires k <= n <= |s| && (k == 0 || s[k - 1] != t)
    requires forall i | k <= i < n :: s[i] == t
    ensures StripEnd(s, t, n) == k
  {
    StripEndShape(s, t, n);
  }

  // ---------------------------------------------------------------- elements

  /** A C element as Fortran sees it: its string, cut to D bytes and padded with blanks. */
  function ToFortran(e: Bytes): (r: Bytes)
    ensures |r| == if e == [] then 0 else |e| - 1
  {
    if e == [] then [] else
      var n := StrEnd(e[..|e| - 1], 0);
      seq(|e| - 1, i requires 0 <= i < |e| => if i < n then e[i] else BLANK)
  }

  /** A Fortran element as C sees it before trailing blanks are removed. */
  function ToC(e: Bytes): (r: Bytes)
    ensures |r| == |e| + 1
  {
    seq(|e| + 1, i requires 0 <= i => if i < |e| then e[i] else NUL)
  }

  /** What `kill_trailingn` makes of an element that is scanned from its last byte. */
  function Killed(e: Bytes, t: Byte): (r: Bytes)
    ensures |r| == |e|
  {
    if e == [] then [] else
      StripEndShape(e, t, |e| - 1);
      e[StripEnd(e, t, |e| - 1) := NUL]
  }

  /** C to Fortran and back leaves the string of every element, cut to D bytes,
      without its trailing blanks. */
  lemma {:induction false} ElementRoundTrip(e: Bytes)
    requires e != []
    ensures CString(Killed(ToC(ToFortran(e)), BLANK)) == Strip(CString(e[..|e| - 1]), BLANK)
  {
    var d := e[..|e| - 1];
    StrEndShape(d, 0);
    var s := CString(d);
    StripEndShape(s, BLANK, |s|);
    var k := StripEnd(s, BLANK, |s|);
    var c := ToC(ToFortran(e));
    forall i | k <= i < |d| ensures c[i] == BLANK {
      assert i < |s| ==> s[i] == BLANK;
    }
    assert k > 0 ==> c[k - 1] == s[k - 1];
    StripEndIs(c, BLANK, |d|, k);
    StrEndIs(c[k := NUL], k);
  }

  /** Fortran to C and back restores an element exactly when it holds no NUL. */
  lemma {:induction false} FortranElementRoundTrip(x: Bytes)
    ensures ToFortran(Killed(ToC(x), BLANK)) == x <==> NUL !in x
  {
    var c := ToC(x);
    StripEndShape(c, BLANK, |x|);
    var k := StripEnd(c, BLANK, |x|);
    var e := Killed(c, BLANK);
    StrEndShape(e[..|x|], 0);
    if NUL !in x {
      forall i | 0 <= i < k ensures e[..|x|][i] != NUL {
        assert e[..|x|][i] == x[i];
      }
      StrEndIs(e[..|x|], k);
      forall i | 0 <= i < |x| ensures ToFortran(e)[i] == x[i] {
        assert c[i] == x[i];
      }
    } else {
      var i :| 0 <= i < |x| && x[i] == NUL;
      assert e[..|x|][i] == NUL;
      assert ToFortran(e)[i] == BLANK;
    }
  }

  /** An element that starts like `e` up to its NUL and is blank after it. */
  lemma {:induction false} ToFortranIs(e: Bytes, r: Bytes, m: nat)
    requires |e| == |r| + 1 && m <= |r|
    requires forall k | 0 <= k < m :: r[k] == e[k] != NUL
    requires m < |r| ==> e[m] == NUL
    requires forall k | m <= k < |r| :: r[k] == BLANK
    ensures r == ToFortran(e)
  {
    var d := e[..|r|];
    forall k | 0 <= k < m ensures d[k] != NUL {
      assert d[k] == e[k];
    }
    StrEndIs(d, m);
  }

  // ---------------------------------------------------------------- vectors

  /** The bytes that `n` elements of `w` bytes occupy. */
  function Span(n: nat, w: nat): nat {
    if n == 0 then 0 else Span(n - 1, w) + w
  }

  lemma {:induction false} SpanIsProduct(n: nat, w: nat)
    ensures Span(n, w) == n * w
  {
    if n > 0 {
      SpanIsProduct(n - 1, w);
    }
  }

  lemma {:induction false} SpanMono(i: nat, n: nat, w: nat)
    requires i <= n
    ensures Span(i, w) <= Span(n, w)
    decreases n
  {
    if i < n {
      SpanMono(i, n - 1, w);
    }
  }

  lemma {:induction false} SpanLess(n: nat, w: nat)
    requires w > 0
    ensures Span(n, w - 1) == Span(n, w) - n
  {
    if n > 0 {
      SpanLess(n - 1, w);
    }
  }

  /** The elements that fit in `size` bytes leave `size % w` bytes over. */
  lemma {:induction false} SpanQuotient(size: nat, w: nat)
    requires w > 0
    ensures Span(size / w, w) + size % w == size
    ensures Span(size / w, w - 1) + size / w + size % w == size
  {
    SpanIsProduct(size / w, w);
    SpanLess(size / w, w);
  }

  /** The `w` bytes from position `p`. */
  function Cut(v: Bytes, p: nat, w: nat): (e: Bytes)
    requires p + w <= |v|
  {
    seq(w, k requires 0 <= k < w => v[p + k])
  }

  /** Element `i` of the vector of stride `w` that starts at `at`. */
  function Elem(v: Bytes, at: nat, w: nat, i: nat): Bytes {
    if at + Span(i, w) + w <= |v| then Cut(v, at + Span(i, w), w) else []
  }

  lemma {:induction false} SameElems(u: Bytes, v: Bytes, at: nat, w: nat, lo: nat, hi: nat)
    requires lo <= hi && |u| == |v|
    requires forall k | at + Span(lo, w) <= k < at + Span(hi, w) && k < |u| :: u[k] == v[k]
    ensures forall m: nat | lo <= m < hi :: Elem(u, at, w, m) == Elem(v, at, w, m)
  {
    forall m: nat | lo <= m < hi ensures Elem(u, at, w, m) == Elem(v, at, w, m) {
      SpanMono(lo, m, w);
      SpanMono(m + 1, hi, w);
    }
  }

  /** The bytes of `e` lie at position `p`. */
  ghost predicate Holds(v: Bytes, p: nat, e: Bytes) {
    p + |e| <= |v| && forall k | p <= k < p + |e| :: v[k] == e[k - p]
  }

  /** Elements `lo..hi` of the vector at `at` are those listed in `out`. */
  ghost predicate Lists(v: Bytes, at: nat, w: nat, lo: nat, hi: nat, out: seq<Bytes>)
    requires hi <= |out|
  {
    forall m: nat | lo <= m < hi :: |out[m]| == w && Holds(v, at + Span(m, w), out[m])
  }

  function Elems(v: Bytes, at: nat, w: nat, n: nat): (r: seq<Bytes>)
    ensures |r| == n
  {
    seq(n, m requires 0 <= m < n => Elem(v, at, w, m))
  }

  lemma {:induction false} ElemsListed(v: Bytes, at: nat, w: nat, n: nat)
    requires at + Span(n, w) <= |v|
    ensures Lists(v, at, w, 0, n, Elems(v, at, w, n))
  {
    var out := Elems(v, at, w, n);
    forall m: nat | m < n ensures |out[m]| == w && Holds(v, at + Span(m, w), out[m]) {
      SpanMono(m + 1, n, w);
    }
  }

  /** The images of a list of elements. */
  function Images(src: seq<Bytes>, f: Bytes -> Bytes): (r: seq<Bytes>)
    ensures |r| == |src| && forall m | 0 <= m < |src| :: r[m] == f(src[m])
  {
    seq(|src|, m requires 0 <= m < |src| => f(src[m]))
  }

  /** A vector that lists the images of another one's elements. */
  lemma {:induction false} ListsImages(v: Bytes, at: nat, w: nat, u: Bytes, from: nat, w0: nat, n: nat,
                                       f: Bytes -> Bytes)
    requires Lists(v, at, w, 0, n, Images(Elems(u, from, w0, n), f))
    ensures forall m: nat | m < n :: Elem(v, at, w, m) == f(Elem(u, from, w0, m))
  {
    var src := Elems(u, from, w0, n);
    forall m: nat | m < n ensures Elem(v, at, w, m) == f(Elem(u, from, w0, m)) {
      assert Images(src, f)[m] == f(src[m]);
    }
  }

  /** An element that no round has overwritten yet. */
  lemma {:induction false} StillHeld(u: Bytes, v: Bytes, p: nat, e: Bytes)
    requires |u| == |v| && Holds(v, p, e)
    requires forall k | p <= k < p + |e| :: u[k] == v[k]
    ensures Holds(u, p, e)
  {
  }

  /** Changing only element `i` of a vector keeps the elements before it. */
  lemma {:induction false} ListsAfter(u: Bytes, v: Bytes, at: nat, w: nat, i: nat, out: seq<Bytes>)
    requires |u| == |v| && i < |out| && Lists(u, at, w, 0, i, out)
    requires forall k | at <= k < at + Span(i, w) && k < |u| :: u[k] == v[k]
    requires Holds(v, at + Span(i, w), out[i]) && |out[i]| == w
    ensures Lists(v, at, w, 0, i + 1, out)
  {
    forall m: nat | m < i ensures Holds(v, at + Span(m, w), out[m]) {
      SpanMono(m + 1, i, w);
      StillHeld(v, u, at + Span(m, w), out[m]);
    }
  }

  /** Changing only element `i` of a vector keeps the elements after it. */
  lemma {:induction false} ListsBefore(u: Bytes, v: Bytes, at: nat, w: nat, i: nat, out: seq<Bytes>)
    requires |u| == |v| && i < |out| && Lists(u, at, w, i + 1, |out|, out)
    requires forall k | at + Span(i + 1, w) <= k < |u| :: u[k] == v[k]
    requires Holds(v, at + Span(i, w), out[i]) && |out[i]| == w
    ensures Lists(v, at, w, i, |out|, out)
  {
    forall m: nat | i < m < |out| ensures Holds(v, at + Span(m, w), out[m]) {
      SpanMono(i + 1, m, w);
      StillHeld(v, u, at + Span(m, w), out[m]);
    }
  }

  lemma {:induction false} ElemOf(p: nat, d: nat, n: nat) returns (i: nat)
    requires p < Span(n, d)
    ensures i < n && Span(i, d) <= p < Span(i, d) + d <= Span(n, d)
  {
    if p >= Span(n - 1, d) {
      i := n - 1;
    } else {
      i := ElemOf(p, d, n - 1);
    }
  }

  /** Elements tile a vector. */
  lemma {:induction false} EqualElems(u: Bytes, v: Bytes, at: nat, d: nat, n: nat)
    requires at + Span(n, d) <= |u| == |v|
    requires forall m: nat | m < n :: Elem(u, at, d, m) == Elem(v, at, d, m)
    ensures forall k | at <= k < at + Span(n, d) :: u[k] == v[k]
  {
    forall k | at <= k < at + Span(n, d) ensures u[k] == v[k] {
      var i := ElemOf(k - at, d, n);
      var p := at + Span(i, d);
      assert Elem(u, at, d, i)[k - p] == Elem(v, at, d, i)[k - p];
    }
  }

  /** `TTTTSTRV` followed by `RRRRPSTRV`, on one element. */
  function FortranJourney(x: Bytes): Bytes {
    ToFortran(Killed(ToC(x), BLANK))
  }

  lemma {:induction false} FortranJourneys(v: Bytes, u: Bytes, at: nat, d: nat, n: nat)
    requires at + Span(n, d) <= |v| == |u|
    requires forall m: nat | m < n :: Elem(u, at, d, m) == FortranJourney(Elem(v, at, d, m))
    ensures forall m: nat | m < n :: Elem(u, at, d, m) == Elem(v, at, d, m) <==> NUL !in Elem(v, at, d, m)
  {
    forall m: nat | m < n
      ensures Elem(u, at, d, m) == Elem(v, at, d, m) <==> NUL !in Elem(v, at, d, m)
    {
      FortranElementRoundTrip(Elem(v, at, d, m));
    }
  }

  ghost predicate SameBytes(u: Bytes, v: Bytes, lo: nat, hi: nat)
    requires hi <= |u| == |v|
  {
    forall k | lo <= k < hi :: u[k] == v[k]
  }

  ghost predicate NulFree(v: Bytes, lo: nat, hi: nat)
    requires hi <= |v|
  {
    forall k | lo <= k < hi :: v[k] != NUL
  }

  lemma {:induction false} NulFreeElem(v: Bytes, at: nat, d: nat, n: nat, m: nat)
    requires at + Span(n, d) <= |v| && m < n && NulFree(v, at, at + Span(n, d))
    ensures NUL !in Elem(v, at, d, m)
  {
    SpanMono(m + 1, n, d);
    var e, p := Elem(v, at, d, m), at + Span(m, d);
    forall k | 0 <= k < |e| ensures e[k] != NUL {
      assert e[k] == v[p + k];
    }
  }

  lemma {:induction false} NulInElem(v: Bytes, at: nat, d: nat, n: nat) returns (i: nat)
    requires at + Span(n, d) <= |v| && !NulFree(v, at, at + Span(n, d))
    ensures i < n && NUL in Elem(v, at, d, i)
  {
    var k :| at <= k < at + Span(n, d) && v[k] == NUL;
    i := ElemOf(k - at, d, n);
    assert Elem(v, at, d, i)[k - at - Span(i, d)] == NUL;
  }

  /** A Fortran vector survives the journey through C exactly when none of its bytes
      is NUL. */
  lemma {:induction false} FortranVectorRoundTrip(v: Bytes, u: Bytes, at: nat, d: nat, n: nat)
    requires at + Span(n, d) <= |v| == |u|
    requires forall m: nat | m < n :: Elem(u, at, d, m) == FortranJourney(Elem(v, at, d, m))
    ensures SameBytes(u, v, at, at + Span(n, d)) <==> NulFree(v, at, at + Span(n, d))
  {
    FortranJourneys(v, u, at, d, n);
    if NulFree(v, at, at + Span(n, d)) {
      forall m: nat | m < n ensures Elem(u, at, d, m) == Elem(v, at, d, m) {
        NulFreeElem(v, at, d, n, m);
      }
      EqualElems(u, v, at, d, n);
    } else {
      var i := NulInElem(v, at, d, n);
      if SameBytes(u, v, at, at + Span(n, d)) {
        SameElems(u, v, at, d, 0, n);
      }
    }
  }

  // ---------------------------------------------------------------- in place

  /** First inner loop of `c2fstrv`: copy up to the NUL, at most D bytes, of element `e`. */
  method CopyString(a: array<Byte>, cstr: nat, b: array<Byte>, fstr: nat, elemLen: nat, ghost e: Bytes)
    returns (c: nat, f: nat, j: nat)
    requires elemLen == |e| > 0 && Holds(a[..], cstr, e) && fstr + elemLen - 1 <= b.Length
    requires a == b ==> fstr <= cstr
    modifies b
    ensures 1 <= j <= elemLen && c == cstr + j - 1 && f == fstr + j - 1
    ensures forall k | fstr <= k < f :: b[k] == e[k - fstr] != NUL
    ensures j < elemLen ==> e[j - 1] == NUL
    ensures forall k | 0 <= k < b.Length && !(fstr <= k < f) :: b[k] == old(b[k])
  {
    j, c, f := 1, cstr, fstr;
    assert forall k | c <= k < cstr + elemLen :: a[k] == a[..][k];
    while j < elemLen && a[c] != NUL
      invariant 1 <= j <= elemLen && c == cstr + j - 1 && f == fstr + j - 1
      invariant forall k | c <= k < cstr + elemLen :: a[k] == e[k - cstr]
      invariant forall k | fstr <= k < f :: b[k] == e[k - fstr] != NUL
      invariant forall k | 0 <= k < b.Length && !(fstr <= k < f) :: b[k] == old(b[k])
    {
      assert a[c] == e[j - 1] && f - fstr == j - 1;
      b[f] := a[c];
      c, f, j := c + 1, f + 1, j + 1;
    }
  }

  /** Second inner loop of `c2fstrv`: pad with blanks. */
  method Pad(b: array<Byte>, fstr: nat, j0: nat, elemLen: nat) returns (f: nat)
    requires j0 <= elemLen && fstr + elemLen - j0 <= b.Length
    modifies b
    ensures f == fstr + elemLen - j0
    ensures forall k | fstr <= k < f :: b[k] == BLANK
    ensures forall k | 0 <= k < b.Length && !(fstr <= k < f) :: b[k] == old(b[k])
  {
    var j := j0;
    f := fstr;
    while j < elemLen
      invariant j0 <= j <= elemLen && f == fstr + j - j0
      invariant forall k | fstr <= k < f :: b[k] == BLANK
      invariant forall k | 0 <= k < b.Length && !(fstr <= k < f) :: b[k] == old(b[k])
    {
      b[f] := BLANK;
      f, j := f + 1, j + 1;
    }
  }

  /** One round of the outer loop of `c2fstrv`, on element `e`. */
  method C2fElem(a: array<Byte>, cstr: nat, b: array<Byte>, fstr: nat, elemLen: nat, ghost e: Bytes)
    returns (c: nat, f: nat)
    requires elemLen == |e| > 0 && Holds(a[..], cstr, e) && fstr + elemLen - 1 <= b.Length
    requires a == b ==> fstr <= cstr
    modifies b
    ensures c == cstr + elemLen && f == fstr + elemLen - 1
    ensures Holds(b[..], fstr, ToFortran(e))
    ensures forall k | 0 <= k < b.Length && !(fstr <= k < f) :: b[k] == old(b[k])
  {
    var j;
    c, f, j := CopyString(a, cstr, b, fstr, elemLen, e);
    c := c + 1 + elemLen - j;
    f := Pad(b, f, j, elemLen);
    ghost var r := Cut(b[..], fstr, elemLen - 1);
    forall k | 0 <= k < |r|
      ensures if k < j - 1 then r[k] == e[k] != NUL else r[k] == BLANK
    {
      assert r[k] == b[fstr + k];
    }
    ToFortranIs(e, r, j - 1);
  }

  /** What holds after `i` rounds of `c2fstrv`, of the source buffer `a` and the target
      buffer `b`, which were `a0` and `b0`. */
  ghost predicate C2fDone(a: Bytes, a0: Bytes, cstr: nat, b: Bytes, b0: Bytes, fstr: nat, w: nat, i: nat,
                          out: seq<Bytes>)
    requires w > 0 && i <= |out|
  {
    |a| == |a0| && |b| == |b0|
    && Lists(b, fstr, w - 1, 0, i, out)
    && (forall k | cstr + Span(i, w) <= k < |a| :: a[k] == a0[k])
    && (forall k | 0 <= k < |b| && !(fstr <= k < fstr + Span(i, w - 1)) :: b[k] == b0[k])
  }

  lemma {:induction false} C2fNext(a: Bytes, a1: Bytes, a0: Bytes, cstr: nat, b: Bytes, b1: Bytes, b0: Bytes,
                                   fstr: nat, w: nat, i: nat, out: seq<Bytes>)
    requires w > 0 && i < |out| && C2fDone(a, a0, cstr, b, b0, fstr, w, i, out)
    requires |a1| == |a| && |b1| == |b| && |out[i]| == w - 1
    requires Holds(b1, fstr + Span(i, w - 1), out[i])
    requires forall k | 0 <= k < |b| && !(fstr + Span(i, w - 1) <= k < fstr + Span(i + 1, w - 1)) :: b1[k] == b[k]
    requires forall k | cstr + Span(i + 1, w) <= k < |a| :: a1[k] == a[k]
    ensures C2fDone(a1, a0, cstr, b1, b0, fstr, w, i + 1, out)
  {
    ListsAfter(b, b1, fstr, w - 1, i, out);
  }

  /** A round of `c2fstrv` seen from the whole vector. */
  method C2fRound(a: array<Byte>, cstr: nat, b: array<Byte>, fstr: nat, elemLen: nat, c0: nat, f0: nat,
                  ghost i: nat, ghost a0: Bytes, ghost b0: Bytes, ghost src: seq<Bytes>, ghost out: seq<Bytes>)
    returns (c: nat, f: nat)
    requires elemLen > 0 && i < |src| == |out| && out[i] == ToFortran(src[i])
    requires cstr + Span(|src|, elemLen) <= a.Length && fstr + Span(|src|, elemLen - 1) <= b.Length
    requires a == b ==> fstr <= cstr
    requires Lists(a0, cstr, elemLen, 0, |src|, src)
    requires C2fDone(a[..], a0, cstr, b[..], b0, fstr, elemLen, i, out)
    requires c0 == cstr + Span(i, elemLen) && f0 == fstr + Span(i, elemLen - 1)
    modifies b
    ensures c == cstr + Span(i + 1, elemLen) && f == fstr + Span(i + 1, elemLen - 1)
    ensures C2fDone(a[..], a0, cstr, b[..], b0, fstr, elemLen, i + 1, out)
  {
    SpanMono(i + 1, |src|, elemLen);
    SpanMono(i + 1, |src|, elemLen - 1);
    SpanLess(i, elemLen);
    ghost var a1, b1 := a[..], b[..];
    StillHeld(a1, a0, c0, src[i]);
    c, f := C2fElem(a, c0, b, f0, elemLen, src[i]);
    C2fNext(a1, a[..], a0, cstr, b1, b[..], b0, fstr, elemLen, i, out);
  }

  /** The outer loop of `c2fstrv`: element `src[m]` has to become `out[m]`. */
  method C2fElems(a: array<Byte>, cstr: nat, b: array<Byte>, fstr: nat, elemLen: nat, n: nat,
                  ghost src: seq<Bytes>, ghost out: seq<Bytes>)
    returns (f: nat)
    requires elemLen > 0 && cstr + Span(n, elemLen) <= a.Length && fstr + Span(n, elemLen - 1) <= b.Length
    requires a == b ==> fstr <= cstr
    requires |src| == |out| == n && Lists(a[..], cstr, elemLen, 0, n, src)
    requires out == Images(src, ToFortran)
    modifies b
    ensures f == fstr + Span(n, elemLen - 1)
    ensures C2fDone(a[..], old(a[..]), cstr, b[..], old(b[..]), fstr, elemLen, n, out)
  {
    ghost var a0, b0 := a[..], b[..];
    var i, c := 0, cstr;
    f := fstr;
    while i < n
      invariant 0 <= i <= n && c == cstr + Span(i, elemLen) && f == fstr + Span(i, elemLen - 1)
      invariant C2fDone(a[..], a0, cstr, b[..], b0, fstr, elemLen, i, out)
    {
      c, f := C2fRound(a, cstr, b, fstr, elemLen, c, f, i, a0, b0, src, out);
      i := i + 1;
    }
  }

  /** `c2fstrv`, forward and compacting; `a == b` is the in-place use.  The result
      is the start of the Fortran vector when `size` is a whole number of elements. */
  method C2fstrv(a: array<Byte>, cstr: nat, b: array<Byte>, fstr: nat, elemLen: nat, size: nat)
    returns (r: int)
    requires elemLen > 0 && cstr + size <= a.Length
    requires fstr + Span(size / elemLen, elemLen - 1) <= b.Length
    requires a == b ==> fstr <= cstr
    modifies b
    ensures r == fstr - size % elemLen
    ensures forall m: nat | m < size / elemLen ::
              Elem(b[..], fstr, elemLen - 1, m) == ToFortran(old(Elem(a[..], cstr, elemLen, m)))
    ensures forall k | 0 <= k < b.Length && !(fstr <= k < fstr + Span(size / elemLen, elemLen - 1)) ::
              b[k] == old(b[k])
  {
    var n := size / elemLen;
    SpanQuotient(size, elemLen);
    ghost var a0 := a[..];
    ElemsListed(a0, cstr, elemLen, n);
    ghost var src := Elems(a0, cstr, elemLen, n);
    var f := C2fElems(a, cstr, b, fstr, elemLen, n, src, Images(src, ToFortran));
    ListsImages(b[..], fstr, elemLen - 1, a0, cstr, elemLen, n, ToFortran);
    r := f - size + size / elemLen;
  }

  /** One round of `f2cstrv`: both cursors move down. */
  method F2cElem(b: array<Byte>, fstr: nat, a: array<Byte>, cstr: nat, elemLen: nat, ghost e: Bytes)
    returns (f: nat, c: nat)
    requires 0 < elemLen == |e| + 1 <= cstr <= a.Length && |e| <= fstr <= b.Length
    requires Holds(b[..], fstr - |e|, e)
    requires a == b ==> fstr < cstr
    modifies a
    ensures f == fstr - elemLen + 1 && c == cstr - elemLen
    ensures Holds(a[..], c, ToC(e))
    ensures forall k | 0 <= k < a.Length && !(c <= k < cstr) :: a[k] == old(a[k])
  {
    ghost var f0, c0 := fstr - |e|, cstr - elemLen;
    assert forall k | f0 <= k < fstr :: b[k] == b[..][k];
    f, c := fstr, cstr - 1;
    a[c] := NUL;
    var j := 1;
    while j < elemLen
      invariant 1 <= j <= elemLen && f == fstr - j + 1 && c == cstr - j
      invariant forall k | f0 <= k < f :: b[k] == e[k - f0]
      invariant a[cstr - 1] == NUL
      invariant forall k | c <= k < cstr - 1 :: a[k] == e[k - c0]
      invariant forall k | 0 <= k < a.Length && !(c <= k < cstr) :: a[k] == old(a[k])
    {
      c, f := c - 1, f - 1;
      a[c] := b[f];
      j := j + 1;
    }
  }

  /** What holds after `n - i` rounds of `f2cstrv`, of the source buffer `b` and the
      target buffer `a`, which were `b0` and `a0`. */
  ghost predicate F2cDone(b: Bytes, b0: Bytes, from: nat, a: Bytes, a0: Bytes, to: nat, w: nat, i: nat,
                          out: seq<Bytes>)
    requires w > 0 && i <= |out|
  {
    |a| == |a0| && |b| == |b0| && from + Span(i, w - 1) <= |b|
    && Lists(a, to, w, i, |out|, out)
    && (forall k | 0 <= k < from + Span(i, w - 1) :: b[k] == b0[k])
    && (forall k | 0 <= k < |a| && !(to + Span(i, w) <= k < to + Span(|out|, w)) :: a[k] == a0[k])
  }

  lemma {:induction false} F2cNext(b: Bytes, b1: Bytes, b0: Bytes, from: nat, a: Bytes, a1: Bytes, a0: Bytes,
                                   to: nat, w: nat, i: nat, out: seq<Bytes>)
    requires w > 0 && i < |out| && F2cDone(b, b0, from, a, a0, to, w, i + 1, out)
    requires |a1| == |a| && |b1| == |b| && |out[i]| == w
    requires Holds(a1, to + Span(i, w), out[i])
    requires forall k | 0 <= k < |a| && !(to + Span(i, w) <= k < to + Span(i + 1, w)) :: a1[k] == a[k]
    requires forall k | 0 <= k < from + Span(i, w - 1) :: b1[k] == b[k]
    ensures F2cDone(b1, b0, from, a1, a0, to, w, i, out)
  {
    SpanMono(i + 1, |out|, w);
    ListsBefore(a, a1, to, w, i, out);
  }

  /** A round of `f2cstrv` seen from the whole vector. */
  method F2cRound(b: array<Byte>, f0: nat, a: array<Byte>, c0: nat, elemLen: nat, ghost i: nat,
                  ghost from: nat, ghost to: nat, ghost a0: Bytes, ghost b0: Bytes,
                  ghost src: seq<Bytes>, ghost out: seq<Bytes>)
    returns (f: nat, c: nat)
    requires elemLen > 0 && i < |src| == |out| && out[i] == ToC(src[i])
    requires to + Span(|src|, elemLen) <= a.Length && from + Span(|src|, elemLen - 1) <= b.Length
    requires a == b ==> from <= to
    requires Lists(b0, from, elemLen - 1, 0, |src|, src)
    requires F2cDone(b[..], b0, from, a[..], a0, to, elemLen, i + 1, out)
    requires c0 == to + Span(i + 1, elemLen) && f0 == from + Span(i + 1, elemLen - 1)
    modifies a
    ensures c == to + Span(i, elemLen) && f == from + Span(i, elemLen - 1)
    ensures F2cDone(b[..], b0, from, a[..], a0, to, elemLen, i, out)
  {
    SpanMono(i + 1, |src|, elemLen);
    SpanMono(i + 1, |src|, elemLen - 1);
    SpanLess(i + 1, elemLen);
    ghost var a1, b1 := a[..], b[..];
    StillHeld(b1, b0, from + Span(i, elemLen - 1), src[i]);
    f, c := F2cElem(b, f0, a, c0, elemLen, src[i]);
    F2cNext(b1, b[..], b0, from, a1, a[..], a0, to, elemLen, i, out);
  }

  /** The outer loop of `f2cstrv`, for the `n` elements that end at `fstr0`. */
  method F2cElems(b: array<Byte>, fstr0: nat, a: array<Byte>, cstr0: nat, elemLen: nat, n: nat,
                  ghost from: nat, ghost to: nat, ghost src: seq<Bytes>, ghost out: seq<Bytes>)
    returns (c: nat)
    requires elemLen > 0 && from + Span(n, elemLen - 1) == fstr0 <= b.Length
    requires to + Span(n, elemLen) == cstr0 <= a.Length
    requires a == b ==> from <= to
    requires |src| == |out| == n && Lists(b[..], from, elemLen - 1, 0, n, src)
    requires out == Images(src, ToC)
    modifies a
    ensures c == to
    ensures F2cDone(b[..], old(b[..]), from, a[..], old(a[..]), to, elemLen, 0, out)
  {
    ghost var a0, b0 := a[..], b[..];
    var i, f := 0, fstr0;
    c := cstr0;
    while i < n
      invariant 0 <= i <= n && c == to + Span(n - i, elemLen) && f == from + Span(n - i, elemLen - 1)
      invariant F2cDone(b[..], b0, from, a[..], a0, to, elemLen, n - i, out)
    {
      ghost var m := n - i - 1;
      assert out[m] == ToC(src[m]);
      f, c := F2cRound(b, f, a, c, elemLen, m, from, to, a0, b0, src, out);
      i := i + 1;
      assert m == n - i;
    }
  }

  /** `f2cstrv`, backward and expanding; `a == b` is the in-place use.  The result is
      the start of the C vector when `size` is a whole number of elements. */
  method F2cstrv(b: array<Byte>, fstr: nat, a: array<Byte>, cstr: nat, elemLen: nat, size: nat)
    returns (r: nat)
    requires elemLen > 0 && cstr + size <= a.Length
    requires fstr + size - size / elemLen <= b.Length
    requires a == b ==> fstr <= cstr
    modifies a
    ensures r == cstr + size % elemLen
    ensures forall m: nat | m < size / elemLen ::
              Elem(a[..], r, elemLen, m) == ToC(old(Elem(b[..], fstr + size % elemLen, elemLen - 1, m)))
    ensures forall k | 0 <= k < a.Length && !(r <= k < cstr + size) :: a[k] == old(a[k])
  {
    var n := size / elemLen;
    SpanQuotient(size, elemLen);
    ghost var b0, from := b[..], fstr + size % elemLen;
    ElemsListed(b0, from, elemLen - 1, n);
    ghost var src := Elems(b0, from, elemLen - 1, n);
    r := F2cElems(b, fstr + size - n, a, cstr + size, elemLen, n, from, cstr + size % elemLen,
                  src, Images(src, ToC));
    ListsImages(a[..], r, elemLen, b0, from, elemLen - 1, n, ToC);
  }

  /** `kill_trailingn`: `e0` is where the NUL goes when no `t` ends the string. */
  method KillTrailingN(a: array<Byte>, s: nat, t: Byte, e0: int) returns (r: nat)
    requires e0 < a.Length
    modifies a
    ensures r == s
    ensures e0 < s ==> a[..] == old(a[..])
    ensures s <= e0 ==>
              var k := StripEnd(Cut(old(a[..]), s, e0 - s), t, e0 - s);
              k <= e0 - s && a[s + k] == NUL && forall i | 0 <= i < a.Length && i != s + k :: a[i] == old(a[i])
  {
    r := s;
    if e0 == s {
      a[e0] := NUL;
    } else if e0 > s {
      ghost var x := Cut(a[..], s, e0 - s);
      var e, more := e0, true;
      while more
        invariant s <= e <= e0 && (more ==> e > s) && (e == e0 ==> more)
        invariant forall k | e < k < e0 :: a[k] == t
        invariant more && e < e0 ==> a[e] == t
        invariant !more ==> e == s || a[e] != t
        decreases more, e
      {
        e := e - 1;
        more := a[e] == t && e > s;
      }
      var z := if a[e] == t then e else e + 1;
      StripEndIs(x, t, e0 - s, z - s);
      a[z] := NUL;
    }
  }

  /** First and last position of an element, as `vkill_trailing` computes them. */
  method ElemBounds(cstr: nat, elemLen: nat, i: nat) returns (s: nat, e: nat)
    requires elemLen > 0
    ensures s == cstr + Span(i, elemLen) && e == s + elemLen - 1
  {
    s, e := cstr + elemLen * i, cstr + elemLen * (i + 1) - 1;
    SpanIsProduct(i, elemLen);
  }

  lemma {:induction false} StripHeld(v: Bytes, p: nat, e: Bytes, t: Byte)
    requires e != [] && Holds(v, p, e)
    ensures StripEnd(e, t, |e| - 1) == StripEnd(Cut(v, p, |e| - 1), t, |e| - 1)
  {
    var d := Cut(v, p, |e| - 1);
    StripEndShape(d, t, |d|);
    var k := StripEnd(d, t, |d|);
    assert k > 0 ==> e[k - 1] == d[k - 1];
    forall i | k <= i < |d| ensures e[i] == t {
      assert e[i] == d[i];
    }
    StripEndIs(e, t, |d|, k);
  }

  /** One round of `vkill_trailing`, on element `e`. */
  method KillElem(a: array<Byte>, cstr: nat, elemLen: nat, i: nat, t: Byte, ghost e: Bytes)
    requires elemLen == |e| > 0 && Holds(a[..], cstr + Span(i, elemLen), e)
    modifies a
    ensures Holds(a[..], cstr + Span(i, elemLen), Killed(e, t))
    ensures forall k | 0 <= k < a.Length && !(cstr + Span(i, elemLen) <= k < cstr + Span(i, elemLen) + elemLen) ::
              a[k] == old(a[k])
  {
    var s, z := ElemBounds(cstr, elemLen, i);
    StripHeld(a[..], s, e, t);
    StripEndShape(e, t, elemLen - 1);
    ghost var a0 := a[..];
    var _ := KillTrailingN(a, s, t, z);
    assert forall k | s <= k < s + elemLen :: a[k] == if k == s + StripEnd(e, t, elemLen - 1) then NUL else a0[k];
  }

  /** What holds after `i` rounds of `vkill_trailing`, of a buffer that was `a0`. */
  ghost predicate KillDone(a: Bytes, a0: Bytes, cstr: nat, w: nat, i: nat, out: seq<Bytes>)
    requires i <= |out|
  {
    |a| == |a0|
    && Lists(a, cstr, w, 0, i, out)
    && forall k | 0 <= k < |a| && !(cstr <= k < cstr + Span(i, w)) :: a[k] == a0[k]
  }

  /** A round of `vkill_trailing` seen from the whole vector. */
  method KillRound(a: array<Byte>, cstr: nat, elemLen: nat, i: nat, t: Byte, ghost a0: Bytes,
                   ghost src: seq<Bytes>, ghost out: seq<Bytes>)
    requires elemLen > 0 && i < |src| == |out| && out[i] == Killed(src[i], t)
    requires cstr + Span(|src|, elemLen) <= a.Length && Lists(a0, cstr, elemLen, 0, |src|, src)
    requires KillDone(a[..], a0, cstr, elemLen, i, out)
    modifies a
    ensures KillDone(a[..], a0, cstr, elemLen, i + 1, out)
  {
    SpanMono(i + 1, |src|, elemLen);
    ghost var a1 := a[..];
    StillHeld(a1, a0, cstr + Span(i, elemLen), src[i]);
    KillElem(a, cstr, elemLen, i, t, src[i]);
    ListsAfter(a1, a[..], cstr, elemLen, i, out);
  }

  /** The loop of `vkill_trailing`: element `src[m]` has to become `out[m]`. */
  method KillElems(a: array<Byte>, cstr: nat, elemLen: nat, n: nat, t: Byte,
                   ghost src: seq<Bytes>, ghost out: seq<Bytes>)
    requires elemLen > 0 && cstr + Span(n, elemLen) <= a.Length
    requires |src| == |out| == n && Lists(a[..], cstr, elemLen, 0, n, src)
    requires out == Images(src, e => Killed(e, t))
    modifies a
    ensures KillDone(a[..], old(a[..]), cstr, elemLen, n, out)
  {
    ghost var a0 := a[..];
    var i := 0;
    while i < n
      invariant 0 <= i <= n
      invariant KillDone(a[..], a0, cstr, elemLen, i, out)
    {
      KillRound(a, cstr, elemLen, i, t, a0, src, out);
      i := i + 1;
    }
  }

  /** `vkill_trailing`. */
  method VKillTrailing(a: array<Byte>, cstr: nat, elemLen: nat, size: nat, t: Byte) returns (r: nat)
    requires elemLen > 0 && cstr + size <= a.Length
    modifies a
    ensures r == cstr
    ensures forall m: nat | m < size / elemLen ::
              Elem(a[..], cstr, elemLen, m) == Killed(old(Elem(a[..], cstr, elemLen, m)), t)
    ensures forall k | 0 <= k < a.Length && !(cstr <= k < cstr + size) :: a[k] == old(a[k])
  {
    var n := size / elemLen;
    SpanQuotient(size, elemLen);
    ghost var a0 := a[..];
    ElemsListed(a0, cstr, elemLen, n);
    ghost var src, kill := Elems(a0, cstr, elemLen, n), (e: Bytes) => Killed(e, t);
    KillElems(a, cstr, elemLen, n, t, src, Images(src, kill));
    ListsImages(a[..], cstr, elemLen, a0, cstr, elemLen, n, kill);
    r := cstr;
  }

  lemma {:induction false} JourneyElem(a0: Bytes, a1: Bytes, a2: Bytes, a3: Bytes, w: nat, n: nat, m: nat)
    requires w > 0 && m < n && Span(n, w) <= |a0|
    requires Elem(a1, 0, w - 1, m) == ToFortran(Elem(a0, 0, w, m))
    requires Elem(a2, 0, w, m) == ToC(Elem(a1, 0, w - 1, m))
    requires Elem(a3, 0, w, m) == Killed(Elem(a2, 0, w, m), BLANK)
    ensures |Elem(a0, 0, w, m)| == w
    ensures CString(Elem(a3, 0, w, m)) == Strip(CString(Elem(a0, 0, w, m)[..w - 1]), BLANK)
  {
    SpanMono(m + 1, n, w);
    ElementRoundTrip(Elem(a0, 0, w, m));
  }

  /** A vector of C strings is converted in place for a Fortran routine and back:
      `APATRINGV_cfA`, then `PSTRINGV_cfW`.  Each call returns the buffer start, and
      every element, read as a C string, only loses its trailing blanks. */
  method PassVector(a: array<Byte>, elemLen: nat, size: nat)
    requires elemLen > 0 && size <= a.Length && size % elemLen == 0
    modifies a
    ensures forall m: nat | m < size / elemLen ::
              |old(Elem(a[..], 0, elemLen, m))| == elemLen
              && CString(Elem(a[..], 0, elemLen, m))
                 == Strip(CString(old(Elem(a[..], 0, elemLen, m))[..elemLen - 1]), BLANK)
    ensures forall k | size <= k < a.Length :: a[k] == old(a[k])
  {
    ghost var n, a0 := size / elemLen, a[..];
    SpanQuotient(size, elemLen);
    var fs := C2fstrv(a, 0, a, 0, elemLen, size);
    ghost var a1 := a[..];
    var cs := F2cstrv(a, fs, a, 0, elemLen, size);
    ghost var a2 := a[..];
    var r := VKillTrailing(a, cs, elemLen, size, BLANK);
    assert fs == 0 && cs == 0 && r == 0;
    ghost var a3 := a[..];
    forall m: nat | m < n
      ensures |Elem(a0, 0, elemLen, m)| == elemLen
      ensures CString(Elem(a3, 0, elemLen, m)) == Strip(CString(Elem(a0, 0, elemLen, m)[..elemLen - 1]), BLANK)
    {
      JourneyElem(a0, a1, a2, a3, elemLen, n, m);
    }
  }

  lemma {:induction false} WholeElements(n: nat, w: nat)
    requires w > 0
    ensures n * w / w == n && n * w % w == 0 && n * w == Span(n, w)
  {
    SpanIsProduct(n, w);
    if n * w / w < n {
      SpanMono(n * w / w + 1, n, w);
      SpanQuotient(n * w, w);
    } else if n < n * w / w {
      SpanMono(n + 1, n * w / w, w);
      SpanQuotient(n * w, w);
    }
  }

  /** A Fortran vector of `n` elements is converted into fresh memory for a C function
      and back: `TTTTSTRV`, then `RRRRPSTRV`.  It survives when it holds no NUL, and
      only then. */
  method PassFortranVector(a: array<Byte>, at: nat, d: nat, n: nat)
    requires at + Span(n, d) <= a.Length
    modifies a
    ensures SameBytes(a[..], old(a[..]), at, at + Span(n, d)) <==> NulFree(old(a[..]), at, at + Span(n, d))
    ensures forall k | 0 <= k < a.Length && !(at <= k < at + Span(n, d)) :: a[k] == old(a[k])
  {
    ghost var a0 := a[..];
    WholeElements(n, d + 1);
    SpanLess(n, d + 1);
    var b := new Byte[n * (d + 1)];
    var r := F2cstrv(a, at, b, 0, d + 1, n * (d + 1));
    ghost var b1 := b[..];
    r := VKillTrailing(b, r, d + 1, n * (d + 1), BLANK);
    ghost var b2 := b[..];
    var _ := C2fstrv(b, 0, a, at, d + 1, n * (d + 1));
    ghost var a1 := a[..];
    assert forall m: nat | m < n :: Elem(a1, at, d, m) == FortranJourney(Elem(a0, at, d, m)) by {
      forall m: nat | m < n ensures Elem(a1, at, d, m) == FortranJourney(Elem(a0, at, d, m)) {
        assert Elem(b1, 0, d + 1, m) == ToC(Elem(a0, at, d, m));
        assert Elem(b2, 0, d + 1, m) == Killed(Elem(b1, 0, d + 1, m), BLANK);
      }
    }
    FortranVectorRoundTrip(a0, a1, at, d, n);
  }

  // ---------------------------------------------------------------- one string

  method StrLen(a: array<Byte>, s: nat, ghost z: nat) returns (n: nat)
    requires s <= z < a.Length && a[z] == NUL
    ensures n <= z - s && a[s + n] == NUL && forall i | s <= i < s + n :: a[i] != NUL
  {
    n := 0;
    while a[s + n] != NUL
      invariant s + n <= z
      invariant forall i | s <= i < s + n :: a[i] != NUL
      decreases z - n
    {
      n := n + 1;
    }
  }

  /** `kill_trailing` on the string at `s`, whose NUL is at `z` at the latest. */
  method KillTrailing(a: array<Byte>, s: nat, t: Byte, ghost z: nat) returns (r: nat)
    requires s <= z < a.Length && a[z] == NUL
    modifies a
    ensures r == s
    ensures CString(Cut(a[..], s, z + 1 - s)) == Strip(CString(Cut(old(a[..]), s, z + 1 - s)), t)
    ensures NUL in Cut(a[..], s, z + 1 - s)
    ensures forall i | 0 <= i < a.Length && !(s <= i <= z) :: a[i] == old(a[i])
  {
    ghost var x := Cut(a[..], s, z + 1 - s);
    var n := StrLen(a, s, z);
    StrEndIs(x, n);
    ghost var c, y := CString(x), Cut(a[..], s, n);
    assert c == y;
    StripEndShape(y, t, n);
    ghost var k := StripEnd(y, t, n);
    r := s;
    if n > 0 {
      var _ := KillTrailingN(a, s, t, s + n);
    }
    ghost var x1 := Cut(a[..], s, z + 1 - s);
    forall i | 0 <= i < k ensures x1[i] == y[i] != NUL {
      assert x1[i] == x[i] == c[i];
    }
    assert x1[k] == NUL;
    StrEndIs(x1, k);
    assert CString(x1) == y[..k];
  }

  /** `TTSTR`: a fresh C string with the contents of a Fortran one. */
  method TtStr(a: array<Byte>, at: nat, d: nat) returns (b: array<Byte>)
    requires at + d <= a.Length
    ensures fresh(b) && NUL in b[..]
    ensures CString(b[..]) == Strip(CString(Cut(a[..], at, d)), BLANK)
  {
    b := new Byte[d + 1];
    b[d] := NUL;
    var k := 0;
    while k < d
      invariant 0 <= k <= d && b[d] == NUL
      invariant forall i | 0 <= i < k :: b[i] == a[at + i]
    {
      b[k] := a[at + k];
      k := k + 1;
    }
    ghost var x, b0 := Cut(a[..], at, d), b[..];
    assert Cut(b0, 0, d + 1) == b0;
    StrEndShape(x, 0);
    assert forall i | 0 <= i < d :: b0[i] == x[i];
    StrEndIs(b0, StrEnd(x, 0));
    assert CString(b0) == CString(x);
    var _ := KillTrailing(b, 0, BLANK, d);
    assert Cut(b[..], 0, d + 1) == b[..];
  }

  /** `s` cut or padded with blanks to `d` bytes. */
  function Fitted(s: Bytes, d: nat): Bytes {
    seq(d, i requires 0 <= i < d => if i < |s| then s[i] else BLANK)
  }

  /** `RRRRPSTR`: a C string is copied back over a Fortran one. */
  method RrrrPStr(a: array<Byte>, at: nat, b: array<Byte>, d: nat)
    requires a != b && at + d <= a.Length && NUL in b[..]
    modifies a
    ensures Cut(a[..], at, d) == Fitted(CString(b[..]), d)
    ensures forall i | 0 <= i < d :: a[at + i] == if i < |CString(b[..])| then CString(b[..])[i] else ' ' as Byte
    ensures forall k | 0 <= k < a.Length && !(at <= k < at + d) :: a[k] == old(a[k])
  {
    ghost var b0 := b[..];
    ghost var z :| 0 <= z < |b0| && b0[z] == NUL;
    var n := StrLen(b, 0, z);
    StrEndIs(b0, n);
    var k := 0;
    while k < d
      invariant 0 <= k <= d && b[..] == b0
      invariant forall i | at <= i < at + k :: a[i] == if i - at < n then b0[i - at] else BLANK
      invariant forall i | 0 <= i < a.Length && !(at <= i < at + k) :: a[i] == old(a[i])
    {
      a[at + k] := if k < n then b[k] else BLANK;
      k := k + 1;
    }
  }

  lemma {:induction false} StringRoundTrip(x: Bytes)
    ensures Fitted(Strip(CString(x), BLANK), |x|) == x <==> NUL !in x
  {
    StrEndShape(x, 0);
    var s := CString(x);
    StripEndShape(s, BLANK, |s|);
    var r := Fitted(Strip(s, BLANK), |x|);
    if NUL !in x {
      assert s == x;
      forall i | 0 <= i < |x| ensures r[i] == x[i] {
        assert i >= StripEnd(s, BLANK, |s|) ==> s[i] == BLANK;
      }
    } else {
      var i :| 0 <= i < |x| && x[i] == NUL;
      assert r[|s|] == BLANK && x[|s|] == NUL;
    }
  }

  /** A Fortran string passed to a C function: `TTSTR`, then `RRRRPSTR`. */
  method PassFortranString(a: array<Byte>, at: nat, d: nat)
    requires at + d <= a.Length
    modifies a
    ensures Cut(a[..], at, d) == Cut(old(a[..]), at, d) <==> NUL !in Cut(old(a[..]), at, d)
    ensures forall k | 0 <= k < a.Length && !(at <= k < at + d) :: a[k] == old(a[k])
  {
    ghost var x := Cut(a[..], at, d);
    var b := TtStr(a, at, d);
    RrrrPStr(a, at, b, d);
    StringRoundTrip(x);
  }

  // ---------------------------------------------------------------- number of elements

  const NUM_ELEMS := -1
  const NUM_ELEM_ARG := -2

  /** Element `m` begins with `k` terminators. */
  ghost predicate Terminates(v: Bytes, at: nat, w: nat, m: nat, term: int, k: nat) {
    at + Span(m, w) + k <= |v|
    && forall i | at + Span(m, w) <= i < at + Span(m, w) + k :: v[i] as int == term
  }

  /** `num_elem`: `term` is the count itself in two of its modes; otherwise the
      elements before the first one that begins with `numTerm` terminators. */
  method NumElem(a: array<Byte>, at: nat, w: nat, term: int, numTerm: int, ghost last: nat) returns (num: int)
    requires numTerm != NUM_ELEMS && numTerm != NUM_ELEM_ARG ==>
               0 < w && numTerm <= w && Terminates(a[..], at, w, last, term, if numTerm <= 0 then w else numTerm)
    ensures numTerm == NUM_ELEMS || numTerm == NUM_ELEM_ARG ==> num == term
    ensures numTerm != NUM_ELEMS && numTerm != NUM_ELEM_ARG ==>
              var k := if numTerm <= 0 then w else numTerm;
              0 <= num <= last && Terminates(a[..], at, w, num, term, k)
              && forall m: nat | m < num :: !Terminates(a[..], at, w, m, term, k)
  {
    if numTerm == NUM_ELEMS || numTerm == NUM_ELEM_ARG {
      return term;
    }
    var k := if numTerm <= 0 then w else numTerm;
    num := 0;
    var p, found := at, false;
    while !found
      invariant 0 <= num <= last && p == at + Span(num, w)
      invariant forall m: nat | m < num :: !Terminates(a[..], at, w, m, term, k)
      invariant found ==> Terminates(a[..], at, w, num, term, k)
      decreases !found, last - num
    {
      SpanMono(num, last, w);
      if num < last {
        SpanMono(num + 1, last, w);
      }
      var i, q := 0, p;
      while i < k && a[q] as int == term
        invariant 0 <= i <= k && q == p + i
        invariant forall j | p <= j < q :: a[j] as int == term
      {
        i, q := i + 1, q + 1;
      }
      if i == k {
        found := true;
      } else {
        assert a[..][q] as int != term;
        p := q + (w - i);
        num := num + 1;
      }
    }
  }
}
