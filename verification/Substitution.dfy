/** Repeated substitution in a buffer, as the index definitions of a copied table
    are rewritten.  The buffer holds a C string; `replacestr` rewrites one occurrence
    from a cursor and the caller moves the cursor behind the inserted text. */
module Substitution {

  const NUL := '\0'

  datatype Option<T> = None | Some(value: T)

  // ---------------------------------------------------------------- specification

  /** `pat` occurs in `s` at position `k`. */
  predicate At(s: string, pat: string, k: nat) {
    k + |pat| <= |s| && forall j | 0 <= j < |pat| :: s[k + j] == pat[j]
  }

  /** Where `pat` first occurs in `s` at or behind `k`. */
  function Find(s: string, pat: string, k: nat): (r: Option<nat>)
    requires k <= |s|
    ensures r.Some? ==> k <= r.value && r.value + |pat| <= |s|
    decreases |s| - k
  {
    if At(s, pat, k) then Some(k) else if k == |s| then None else Find(s, pat, k + 1)
  }

  /** `Find` reports the leftmost occurrence and misses none. */
  lemma {:induction false} FindIsLeftmost(s: string, pat: string, k: nat)
    requires k <= |s|
    ensures var r := Find(s, pat, k);
            match r
            case None => forall j: nat | k <= j :: !At(s, pat, j)
            case Some(i) => At(s, pat, i) && forall j: nat | k <= j < i :: !At(s, pat, j)
    decreases |s| - k
  {
    if !At(s, pat, k) && k < |s| {
      FindIsLeftmost(s, pat, k + 1);
    }
  }

  lemma {:induction false} FindIs(s: string, pat: string, k: nat, r: Option<nat>)
    requires k <= |s|
    requires match r
             case None => forall j: nat | k <= j :: !At(s, pat, j)
             case Some(i) => k <= i && At(s, pat, i) && forall j: nat | k <= j < i :: !At(s, pat, j)
    ensures Find(s, pat, k) == r
  {
    FindIsLeftmost(s, pat, k);
  }

  /** What the substitution loop makes of the text `s[k..]` behind its cursor: it ends
      when nothing is found, and also when the cursor does not move. */
  function Loop(s: string, pat: string, rep: string, k: nat): string
    requires pat != "" && k <= |s|
    decreases |s| - k
  {
    match Find(s, pat, k)
    case None => s[k..]
    case Some(i) =>
      if i == k && rep == "" then s[i + |pat|..]
      else s[k..i] + rep + Loop(s, pat, rep, i + |pat|)
  }

  /** Leftmost, non-overlapping replacement in one pass over the original text. */
  function Scan(s: string, pat: string, rep: string, k: nat): string
    requires pat != "" && k <= |s|
    decreases |s| - k
  {
    if At(s, pat, k) then rep + Scan(s, pat, rep, k + |pat|)
    else if k == |s| then ""
    else [s[k]] + Scan(s, pat, rep, k + 1)
  }

  lemma {:induction false} Regroup(w: string, x: string, y: string, z: string)
    ensures w + (x + y + z) == w + x + y + z
  {
  }

  lemma {:induction false} FirstOf(s: string, k: nat, i: nat)
    requires k < i <= |s|
    ensures s[k..i] == [s[k]] + s[k + 1..i]
  {
  }

  lemma {:induction false} ScanNothing(s: string, pat: string, rep: string, k: nat)
    requires pat != "" && k <= |s| && Find(s, pat, k).None?
    ensures Scan(s, pat, rep, k) == s[k..|s|]
    decreases |s| - k
  {
    if k < |s| {
      ScanNothing(s, pat, rep, k + 1);
      FirstOf(s, k, |s|);
    }
  }

  lemma {:induction false} ScanFound(s: string, pat: string, rep: string, k: nat, i: nat, tail: string)
    requires pat != "" && k <= |s| && Find(s, pat, k) == Some(i) && tail == Scan(s, pat, rep, i + |pat|)
    ensures Scan(s, pat, rep, k) == s[k..i] + rep + tail
    decreases |s| - k
  {
    if At(s, pat, k) {
      assert s[k..i] + rep == rep;
    } else {
      ScanFound(s, pat, rep, k + 1, i, tail);
      FirstOf(s, k, i);
      Regroup([s[k]], s[k + 1..i], rep, tail);
    }
  }

  /** Scanning skips straight to the first occurrence. */
  lemma {:induction false} ScanFromMatch(s: string, pat: string, rep: string, k: nat)
    requires pat != "" && k <= |s|
    ensures match Find(s, pat, k)
            case None => Scan(s, pat, rep, k) == s[k..]
            case Some(i) => Scan(s, pat, rep, k) == s[k..i] + rep + Scan(s, pat, rep, i + |pat|)
  {
    match Find(s, pat, k) {
      case None => ScanNothing(s, pat, rep, k);
      case Some(i) => ScanFound(s, pat, rep, k, i, Scan(s, pat, rep, i + |pat|));
    }
  }

  /** The text between the occurrences behind `k`. */
  function Pieces(s: string, pat: string, k: nat): (r: seq<string>)
    requires pat != "" && k <= |s|
    ensures r != []
    decreases |s| - k
  {
    match Find(s, pat, k)
    case None => [s[k..]]
    case Some(i) => [s[k..i]] + Pieces(s, pat, i + |pat|)
  }

  function Join(pieces: seq<string>, sep: string): string
    requires pieces != []
  {
    if |pieces| == 1 then pieces[0] else pieces[0] + sep + Join(pieces[1..], sep)
  }

  lemma {:induction false} JoinFirst(x: string, rest: seq<string>, sep: string)
    requires rest != []
    ensures Join([x] + rest, sep) == x + sep + Join(rest, sep)
  {
    assert ([x] + rest)[1..] == rest;
  }

  /** A stretch of `s` in which `pat` begins nowhere does not contain it. */
  lemma {:induction false} NoneInside(s: string, pat: string, k: nat, i: nat)
    requires pat != "" && k <= i <= |s| && forall j: nat | k <= j < i :: !At(s, pat, j)
    ensures Find(s[k..i], pat, 0).None?
  {
    var t := s[k..i];
    forall j: nat ensures !At(t, pat, j) {
      if At(t, pat, j) {
        forall l | 0 <= l < |pat| ensures s[k + j + l] == pat[l] {
          assert t[j + l] == pat[l];
        }
        assert At(s, pat, k + j);
      }
    }
    FindIs(t, pat, 0, None);
  }

  lemma {:induction false} ScanIsJoin(s: string, pat: string, rep: string, k: nat)
    requires pat != "" && k <= |s|
    ensures Join(Pieces(s, pat, k), rep) == Scan(s, pat, rep, k)
    decreases |s| - k
  {
    ScanFromMatch(s, pat, rep, k);
    match Find(s, pat, k) {
      case None =>
      case Some(i) =>
        ScanIsJoin(s, pat, rep, i + |pat|);
        JoinFirst(s[k..i], Pieces(s, pat, i + |pat|), rep);
    }
  }

  lemma {:induction false} PiecesAreClean(s: string, pat: string, k: nat)
    requires pat != "" && k <= |s|
    ensures forall p | p in Pieces(s, pat, k) :: Find(p, pat, 0).None?
    decreases |s| - k
  {
    FindIsLeftmost(s, pat, k);
    match Find(s, pat, k) {
      case None =>
        NoneInside(s, pat, k, |s|);
        assert s[k..] == s[k..|s|];
      case Some(i) =>
        NoneInside(s, pat, k, i);
        PiecesAreClean(s, pat, i + |pat|);
    }
  }

  lemma {:induction false} FrontOf(s: string, k: nat, i: nat, x: string)
    requires k <= i <= |s| && x == s[k..i]
    ensures x + s[i..] == s[k..]
  {
  }

  lemma {:induction false} SameHere(s: string, pat: string, k: nat)
    requires pat != "" && k <= |s| && At(s, pat, k) && Scan(s, pat, pat, k + |pat|) == s[k + |pat|..]
    ensures Scan(s, pat, pat, k) == s[k..]
  {
    FrontOf(s, k, k + |pat|, pat);
  }

  lemma {:induction false} SameNext(s: string, pat: string, k: nat)
    requires pat != "" && k < |s| && !At(s, pat, k) && Scan(s, pat, pat, k + 1) == s[k + 1..]
    ensures Scan(s, pat, pat, k) == s[k..]
  {
    FrontOf(s, k, k + 1, [s[k]]);
  }

  /** Replacing a text by itself changes nothing. */
  lemma {:induction false} ScanSame(s: string, pat: string, k: nat)
    requires pat != "" && k <= |s|
    ensures Scan(s, pat, pat, k) == s[k..]
    decreases |s| - k
  {
    if At(s, pat, k) {
      ScanSame(s, pat, k + |pat|);
      SameHere(s, pat, k);
    } else if k < |s| {
      ScanSame(s, pat, k + 1);
      SameNext(s, pat, k);
    }
  }

  /** `Scan` replaces every separator of the text, and touches nothing between them. */
  lemma {:induction false} ScanJoinsPieces(s: string, pat: string, rep: string, k: nat)
    requires pat != "" && k <= |s|
    ensures Join(Pieces(s, pat, k), pat) == s[k..]
    ensures Join(Pieces(s, pat, k), rep) == Scan(s, pat, rep, k)
    ensures forall p | p in Pieces(s, pat, k) :: Find(p, pat, 0).None?
  {
    ScanSame(s, pat, k);
    ScanIsJoin(s, pat, pat, k);
    ScanIsJoin(s, pat, rep, k);
    PiecesAreClean(s, pat, k);
  }

  /** The text with every occurrence of `pat` replaced. */
  function Replaced(s: string, pat: string, rep: string): string
    requires pat != ""
  {
    Scan(s, pat, rep, 0)
  }

  /** Some cursor position from `k` on stands on an occurrence that another follows. */
  predicate StopsEarly(s: string, pat: string, k: nat)
    requires pat != "" && k <= |s|
    decreases |s| - k
  {
    match Find(s, pat, k)
    case None => false
    case Some(i) =>
      if i == k then Find(s, pat, i + |pat|).Some? else StopsEarly(s, pat, i + |pat|)
  }

  lemma {:induction false} ErasingShortens(s: string, pat: string, k: nat)
    requires pat != "" && k <= |s|
    ensures |Scan(s, pat, "", k)| <= |s| - k
    ensures Find(s, pat, k).Some? ==> |Scan(s, pat, "", k)| < |s| - k
    decreases |s| - k
  {
    ScanFromMatch(s, pat, "", k);
    match Find(s, pat, k) {
      case None =>
      case Some(i) => ErasingShortens(s, pat, i + |pat|);
    }
  }

  lemma {:induction false} SameTails(a: string, b: string, head: string, x: string, y: string)
    requires a == head + x && b == head + y
    ensures a == b <==> x == y
  {
    assert a[|head|..] == x && b[|head|..] == y;
  }

  lemma {:induction false} LoopFrom(s: string, pat: string, rep: string, k: nat, i: nat)
    requires pat != "" && k <= |s| && Find(s, pat, k) == Some(i) && !(i == k && rep == "")
    ensures Loop(s, pat, rep, k) == s[k..i] + rep + Loop(s, pat, rep, i + |pat|)
  {
  }

  /** An occurrence on the cursor is erased, and nothing behind it. */
  lemma {:induction false} ErasedOnCursor(s: string, pat: string, k: nat)
    requires pat != "" && k <= |s| && Find(s, pat, k) == Some(k)
    ensures Loop(s, pat, "", k) == Scan(s, pat, "", k) <==> !StopsEarly(s, pat, k)
  {
    ScanFromMatch(s, pat, "", k);
    assert s[k..k] + "" == "";
    ErasingShortens(s, pat, k + |pat|);
    ScanFromMatch(s, pat, "", k + |pat|);
  }

  lemma {:induction false} LoopGoesOn(s: string, pat: string, rep: string, k: nat, i: nat)
    requires pat != "" && k <= |s| && Find(s, pat, k) == Some(i) && !(i == k && rep == "")
    ensures Loop(s, pat, rep, k) == Scan(s, pat, rep, k)
            <==> Loop(s, pat, rep, i + |pat|) == Scan(s, pat, rep, i + |pat|)
  {
    ScanFromMatch(s, pat, rep, k);
    LoopFrom(s, pat, rep, k, i);
    SameTails(Loop(s, pat, rep, k), Scan(s, pat, rep, k), s[k..i] + rep, Loop(s, pat, rep, i + |pat|),
              Scan(s, pat, rep, i + |pat|));
  }

  /** The loop performs leftmost non-overlapping replacement, except when it erases
      (`rep` is empty) and its cursor meets an occurrence that another one follows. */
  lemma {:induction false} LoopIsScan(s: string, pat: string, rep: string, k: nat)
    requires pat != "" && k <= |s|
    ensures Loop(s, pat, rep, k) == Scan(s, pat, rep, k) <==> rep != "" || !StopsEarly(s, pat, k)
    decreases |s| - k
  {
    match Find(s, pat, k) {
      case None => ScanFromMatch(s, pat, rep, k);
      case Some(i) =>
        if i == k && rep == "" {
          ErasedOnCursor(s, pat, k);
        } else {
          LoopGoesOn(s, pat, rep, k, i);
          LoopIsScan(s, pat, rep, i + |pat|);
        }
    }
  }

  /** A text on which erasing stops early. */
  lemma {:induction false} ErasingCanStop()
    ensures Loop("aab", "a", "", 0) == "ab" && Replaced("aab", "a", "") == "b"
  {
    var s := "aab";
    assert At(s, "a", 0) && At(s, "a", 1) && s[2] != "a"[0];
    assert Find(s, "a", 2).None?;
    ScanFromMatch(s, "a", "", 2);
    assert s[2..] == "b" && s[1..] == "ab";
  }

  /** No intermediate text is longer than both the first and the last. */
  lemma {:induction false} LoopLength(s: string, pat: string, rep: string, k: nat)
    requires pat != "" && |rep| >= |pat| && k <= |s|
    ensures |Loop(s, pat, rep, k)| >= |s| - k
    ensures Find(s, pat, k).Some? ==> |Loop(s, pat, rep, k)| >= |s| - k - |pat| + |rep|
    decreases |s| - k
  {
    match Find(s, pat, k) {
      case None =>
      case Some(i) => LoopLength(s, pat, rep, i + |pat|);
    }
  }

  /** Searching behind the cursor is searching the rest of the text. */
  lemma {:induction false} FindBehind(s: string, pat: string, k: nat)
    requires k <= |s|
    ensures match Find(s, pat, k)
            case None => Find(s[k..], pat, 0) == None
            case Some(i) => Find(s[k..], pat, 0) == Some(i - k)
  {
    var t := s[k..];
    forall j: nat ensures At(t, pat, j) <==> At(s, pat, k + j) {
      if At(t, pat, j) {
        forall l | 0 <= l < |pat| ensures s[k + j + l] == pat[l] {
          assert t[j + l] == pat[l];
        }
      }
      if At(s, pat, k + j) {
        forall l | 0 <= l < |pat| ensures t[j + l] == pat[l] {
          assert s[k + j + l] == pat[l];
        }
      }
    }
    FindIsLeftmost(s, pat, k);
    match Find(s, pat, k) {
      case None => FindIs(t, pat, 0, None);
      case Some(i) =>
        assert At(t, pat, i - k);
        FindIs(t, pat, 0, Some(i - k));
    }
  }

  // ---------------------------------------------------------------- buffers

  /** `v` holds the C string `s` at `p`. */
  ghost predicate StringAt(v: string, p: nat, s: string) {
    p + |s| < |v| && (forall j | 0 <= j < |s| :: v[p + j] == s[j] != NUL) && v[p + |s|] == NUL
  }

  /** The bytes of `s` lie in `v` at `p`. */
  ghost predicate Holds(v: string, p: nat, s: string) {
    p + |s| <= |v| && forall j | 0 <= j < |s| :: v[p + j] == s[j] != NUL
  }

  lemma {:induction false} StringSplit(v: string, p: nat, pre: string, s: string)
    requires StringAt(v, p, pre + s)
    ensures Holds(v, p, pre) && StringAt(v, p + |pre|, s)
  {
    forall j | 0 <= j < |pre| ensures v[p + j] == pre[j] != NUL {
      assert (pre + s)[j] == pre[j];
    }
    forall j | 0 <= j < |s| ensures v[p + |pre| + j] == s[j] != NUL {
      assert (pre + s)[|pre| + j] == s[j];
    }
  }

  lemma {:induction false} StringInFront(v: string, p: nat, pre: string, s: string)
    requires Holds(v, p, pre) && StringAt(v, p + |pre|, s)
    ensures StringAt(v, p, pre + s)
  {
    var t := pre + s;
    forall j | 0 <= j < |t| ensures v[p + j] == t[j] != NUL {
      if j < |pre| {
        assert v[p + j] == pre[j];
      } else {
        assert v[p + |pre| + (j - |pre|)] == s[j - |pre|];
      }
    }
  }

  /** `text` as far as it fits in `size` bytes with its NUL. */
  function Fitting(text: string, size: nat): string
    requires size > 0
  {
    if |text| < size then text else text[..size - 1]
  }

  /** `strlen` and the bytes it passes. */
  method Read(a: array<char>, p: nat, ghost s: string) returns (r: string)
    requires StringAt(a[..], p, s)
    ensures r == s
  {
    var n := p;
    assert forall k | p <= k < p + |s| :: a[k] == s[k - p] != NUL by {
      forall k | p <= k < p + |s| ensures a[k] == s[k - p] != NUL {
        assert a[..][p + (k - p)] == s[k - p];
      }
    }
    while a[n] != NUL
      invariant p <= n <= p + |s|
      decreases p + |s| - n
    {
      n := n + 1;
    }
    r := a[p..n];
  }

  /** `snprintf(&b[p], size, "%s", text)`. */
  method Snprintf(b: array<char>, p: nat, size: nat, text: string)
    requires NUL !in text
    requires size > 0 ==> p + |Fitting(text, size)| < b.Length
    modifies b
    ensures size > 0 ==> StringAt(b[..], p, Fitting(text, size))
    ensures forall k | 0 <= k < b.Length && !(size > 0 && p <= k <= p + |Fitting(text, size)|) :: b[k] == old(b[k])
  {
    if size > 0 {
      var t := Fitting(text, size);
      var i := 0;
      while i < |t|
        invariant 0 <= i <= |t|
        invariant forall k | 0 <= k < i :: b[p + k] == t[k]
        invariant forall k | 0 <= k < b.Length && !(p <= k < p + i) :: b[k] == old(b[k])
      {
        b[p + i] := t[i];
        i := i + 1;
      }
      b[p + i] := NUL;
    }
  }

  /** The string that one substitution leaves. */
  function Substituted(s: string, i: nat, pat: string, rep: string): string
    requires i + |pat| <= |s|
  {
    s[..i] + rep + s[i + |pat|..]
  }

  lemma {:induction false} Fitted(head: string, tail: string, size: nat)
    requires |head| < size
    ensures head + Fitting(tail, size - |head|) == Fitting(head + tail, size)
    ensures Fitting(Fitting(head + tail, size), size) == Fitting(head + tail, size)
    ensures Fitting(head + tail, |head| + 1) == head
  {
  }

  /** The buffer that `replacestr` fills: `text` with the occurrence at `i` replaced. */
  method Assemble(text: string, size: nat, i: nat, orig: string, rep: string) returns (buffer: array<char>)
    requires NUL !in text && NUL !in rep && i + |orig| <= |text| && i < size
    ensures fresh(buffer) && StringAt(buffer[..], 0, Fitting(Substituted(text, i, orig, rep), size))
  {
    buffer := new char[size];
    ghost var head := text[..i];
    var tail := rep + text[i + |orig|..];
    Fitted(head, tail, size);
    Fitted(head, text[i..], i + 1);
    assert text == head + text[i..];
    Snprintf(buffer, 0, i + 1, text);
    buffer[i] := NUL;
    ghost var b0 := buffer[..];
    assert Holds(b0, 0, head);
    Snprintf(buffer, i, size - i, tail);
    assert Holds(buffer[..], 0, head) by {
      forall j | 0 <= j < i ensures buffer[..][0 + j] == head[j] != NUL {
        assert b0[0 + j] == head[j];
      }
    }
    StringInFront(buffer[..], 0, head, Fitting(tail, size - i));
    Associative(head, rep, text[i + |orig|..]);
  }

  lemma {:induction false} Associative(x: string, y: string, z: string)
    ensures x + (y + z) == x + y + z
  {
  }

  /** What `replacestr` makes of the buffer `v0` when it has memory: the first occurrence
      in the string `s` at `str` is replaced, and `r` is behind the new text. */
  ghost predicate Rewritten(v0: string, v: string, str: nat, size: nat, orig: string, rep: string, s: string, r: nat) {
    |v| == |v0| && str <= |v|
    && (forall k | 0 <= k < str :: v[k] == v0[k])
    && match Find(s, orig, 0)
       case None => r == str && v == v0
       case Some(i) =>
         i < size && r == str + i + |rep| && StringAt(v, str, Fitting(Substituted(s, i, orig, rep), size))
  }

  /** `replacestr` on the string `s` at `str`; `gotBuffer` tells whether `malloc`
      gave it a buffer.  The caller answers for the room behind `str`. */
  method ReplaceStr(a: array<char>, str: nat, size: nat, orig: string, rep: string, gotBuffer: bool,
                    ghost s: string)
    returns (r: nat)
    requires StringAt(a[..], str, s) && NUL !in rep
    requires Find(s, orig, 0).Some? ==>
               Find(s, orig, 0).value < size
               && str + |Fitting(Substituted(s, Find(s, orig, 0).value, orig, rep), size)| < a.Length
    modifies a
    ensures gotBuffer ==> Rewritten(old(a[..]), a[..], str, size, orig, rep, s, r)
    ensures gotBuffer && Find(s, orig, 0).Some? ==>
              var i := Find(s, orig, 0).value;
              var whole := s[..i] + rep + s[i + |orig|..];
              StringAt(a[..], str, if |whole| < size then whole else whole[..size - 1])
    ensures !gotBuffer ==> r == str && a[..] == old(a[..])
  {
    r := str;
    if gotBuffer {
      var text := Read(a, str, s);
      match Find(text, orig, 0) {
        case None =>
        case Some(i) =>
          var buffer := Assemble(text, size, i, orig, rep);
          ghost var fitted := Fitting(Substituted(s, i, orig, rep), size);
          assert Fitting(fitted, size) == fitted;
          var whole := Read(buffer, 0, fitted);
          Snprintf(a, str, size, whole);
          r := str + i + |rep|;
      }
    }
  }

  lemma {:induction false} SubstitutedSize(s: string, i: nat, pat: string, rep: string)
    requires i + |pat| <= |s|
    ensures |Substituted(s, i, pat, rep)| == |s| - |pat| + |rep|
  {
  }

  /** What a round finds: the text `cur` behind the cursor and room for its result. */
  lemma {:induction false} RoundReady(v: string, pre: string, s: string, k: nat, cur: string, orig: string, rep: string)
    requires orig != "" && k <= |s| && cur == s[k..] && StringAt(v, 0, pre + cur)
    requires |pre| + |Loop(s, orig, rep, k)| < |v|
    ensures Holds(v, 0, pre) && StringAt(v, |pre|, cur)
    ensures match Find(s, orig, k)
            case None => Find(cur, orig, 0) == None
            case Some(i) =>
              Find(cur, orig, 0) == Some(i - k) && |pre| + |Substituted(cur, i - k, orig, rep)| < |v|
  {
    StringSplit(v, 0, pre, cur);
    FindBehind(s, orig, k);
    match Find(s, orig, k) {
      case None =>
      case Some(i) =>
        SubstitutedSize(cur, i - k, orig, rep);
        if |rep| >= |orig| {
          LoopLength(s, orig, rep, k);
        }
    }
  }

  lemma {:induction false} SubstitutedBehind(s: string, k: nat, i: nat, pat: string, rep: string)
    requires k <= i && i + |pat| <= |s|
    ensures Substituted(s[k..], i - k, pat, rep) == s[k..i] + rep + s[i + |pat|..]
  {
    assert s[k..][..i - k] == s[k..i] && s[k..][i - k + |pat|..] == s[i + |pat|..];
  }

  lemma {:induction false} LoopFromMatch(s: string, pat: string, rep: string, k: nat, i: nat, pre: string, pre1: string)
    requires pat != "" && k <= |s| && Find(s, pat, k) == Some(i) && pre1 == pre + s[k..i] + rep
    ensures pre + Loop(s, pat, rep, k)
            == pre1 + if |pre1| == |pre| then s[i + |pat|..] else Loop(s, pat, rep, i + |pat|)
  {
    if i == k && rep == "" {
      assert pre1 == pre;
    } else {
      Regroup(pre, s[k..i], rep, Loop(s, pat, rep, i + |pat|));
    }
  }

  lemma {:induction false} TextMoved(v0: string, v: string, pre: string, mid: string, rep: string, rest: string)
    requires Holds(v0, 0, pre) && |v| == |v0| && forall j | 0 <= j < |pre| :: v[j] == v0[j]
    requires StringAt(v, |pre|, mid + rep + rest)
    ensures StringAt(v, 0, pre + mid + rep + rest)
  {
    assert Holds(v, 0, pre) by {
      forall j | 0 <= j < |pre| ensures v[0 + j] == pre[j] != NUL {
        assert v0[0 + j] == pre[j];
      }
    }
    StringInFront(v, 0, pre, mid + rep + rest);
    Regroup(pre, mid, rep, rest);
  }

  lemma {:induction false} MatchWritten(v0: string, v: string, str: nat, size: nat, orig: string, rep: string,
                                        s: string, r: nat, i: nat)
    requires Rewritten(v0, v, str, size, orig, rep, s, r) && Find(s, orig, 0) == Some(i)
    requires str + |Substituted(s, i, orig, rep)| < |v0| && size == |v0| + str
    ensures |v| == |v0| && r == str + i + |rep| && forall j | 0 <= j < str :: v[j] == v0[j]
    ensures StringAt(v, str, Substituted(s, i, orig, rep))
  {
    assert Fitting(Substituted(s, i, orig, rep), size) == Substituted(s, i, orig, rep);
  }

  lemma {:induction false} RoundMatched(v0: string, v: string, pre: string, s: string, k: nat, i: nat, orig: string,
                                        rep: string, pre1: string)
    requires orig != "" && k <= |s| && Find(s, orig, k) == Some(i) && pre1 == pre + s[k..i] + rep
    requires Holds(v0, 0, pre) && |v| == |v0| && forall j | 0 <= j < |pre| :: v[j] == v0[j]
    requires StringAt(v, |pre|, Substituted(s[k..], i - k, orig, rep))
    ensures |pre1| == |pre| + i - k + |rep| && StringAt(v, 0, pre1 + s[i + |orig|..])
    ensures pre + Loop(s, orig, rep, k)
            == pre1 + if |pre1| == |pre| then s[i + |orig|..] else Loop(s, orig, rep, i + |orig|)
  {
    SubstitutedBehind(s, k, i, orig, rep);
    TextMoved(v0, v, pre, s[k..i], rep, s[i + |orig|..]);
    LoopFromMatch(s, orig, rep, k, i, pre, pre1);
  }

  /** What a round leaves when its cursor was behind `pre` and ends at `next`: `pre1` is
      final, and `s` is left from `k1` on. */
  ghost predicate Left(v: string, pre: string, s: string, k: nat, orig: string, rep: string, next: nat, pre1: string,
                       k1: nat)
    requires orig != "" && k <= |s|
  {
    && k <= k1 <= |s| && |pre1| == next >= |pre| && StringAt(v, 0, pre1 + s[k1..])
    && pre + Loop(s, orig, rep, k) == pre1 + (if next == |pre| then s[k1..] else Loop(s, orig, rep, k1))
    && (next != |pre| ==> k + |orig| <= k1)
  }

  lemma {:induction false} RoundEmpty(v0: string, v: string, pre: string, s: string, k: nat, cur: string,
                                      orig: string, rep: string, next: nat)
    requires orig != "" && k <= |s| && cur == s[k..] && Find(s, orig, k) == None && Find(cur, orig, 0) == None
    requires Rewritten(v0, v, |pre|, |v0| + |pre|, orig, rep, cur, next) && StringAt(v0, 0, pre + cur)
    ensures Left(v, pre, s, k, orig, rep, next, pre, k)
  {
  }

  lemma {:induction false} RoundFull(v0: string, v: string, pre: string, s: string, k: nat, cur: string, i: nat,
                                     orig: string, rep: string, next: nat, pre1: string)
    requires orig != "" && k <= |s| && Find(s, orig, k) == Some(i) && cur == s[k..] && Find(cur, orig, 0) == Some(i - k)
    requires Holds(v0, 0, pre) && |pre| + |Substituted(cur, i - k, orig, rep)| < |v0|
    requires Rewritten(v0, v, |pre|, |v0| + |pre|, orig, rep, cur, next) && pre1 == pre + s[k..i] + rep
    ensures Left(v, pre, s, k, orig, rep, next, pre1, i + |orig|)
  {
    MatchWritten(v0, v, |pre|, |v0| + |pre|, orig, rep, cur, next, i - k);
    RoundMatched(v0, v, pre, s, k, i, orig, rep, pre1);
  }

  lemma {:induction false} RoundDone(v0: string, v: string, pre: string, s: string, k: nat, cur: string,
                                     orig: string, rep: string, next: nat)
    returns (pre1: string, k1: nat)
    requires orig != "" && k <= |s| && cur == s[k..] && StringAt(v0, 0, pre + cur)
    requires |pre| + |Loop(s, orig, rep, k)| < |v0|
    requires Rewritten(v0, v, |pre|, |v0| + |pre|, orig, rep, cur, next)
    ensures Left(v, pre, s, k, orig, rep, next, pre1, k1)
  {
    RoundReady(v0, pre, s, k, cur, orig, rep);
    match Find(s, orig, k) {
      case None =>
        pre1, k1 := pre, k;
        RoundEmpty(v0, v, pre, s, k, cur, orig, rep, next);
      case Some(i) =>
        pre1, k1 := pre + s[k..i] + rep, i + |orig|;
        RoundFull(v0, v, pre, s, k, cur, i, orig, rep, next, pre1);
    }
  }

  /** One round of the loop: the text `pre` in front of the cursor is final, the text
      behind it is still the original one from `k` on. */
  method Advance(a: array<char>, pc: nat, orig: string, rep: string, ghost pre: string, ghost s: string, ghost k: nat)
    returns (next: nat, ghost pre1: string, ghost k1: nat)
    requires orig != "" && NUL !in rep && k <= |s| && |pre| == pc && StringAt(a[..], 0, pre + s[k..])
    requires |pre| + |Loop(s, orig, rep, k)| < a.Length
    modifies a
    ensures Left(a[..], pre, s, k, orig, rep, next, pre1, k1)
  {
    ghost var v, cur := a[..], s[k..];
    RoundReady(v, pre, s, k, cur, orig, rep);
    next := ReplaceStr(a, pc, a.Length + pc, orig, rep, true, cur);
    pre1, k1 := RoundDone(v, a[..], pre, s, k, cur, orig, rep, next);
  }

  /** The substitution loop of `CreateSQLIndices`.  It ends because every round takes at
      least one pattern off the text that was not searched yet. */
  method ReplaceAll(a: array<char>, orig: string, rep: string, ghost s: string)
    requires orig != "" && NUL !in rep && StringAt(a[..], 0, s)
    requires |Loop(s, orig, rep, 0)| < a.Length
    modifies a
    ensures StringAt(a[..], 0, Loop(s, orig, rep, 0))
  {
    var pc := 0;
    assert "" + s[0..] == s;
    var next, pre, k := Advance(a, pc, orig, rep, "", s, 0);
    while next != pc
      invariant k <= |s| && |pre| == next >= pc && StringAt(a[..], 0, pre + s[k..])
      invariant Loop(s, orig, rep, 0) == pre + if next == pc then s[k..] else Loop(s, orig, rep, k)
      decreases |s| - k, next != pc
    {
      pc := next;
      next, pre, k := Advance(a, pc, orig, rep, pre, s, k);
    }
  }

  /** One row of `CreateSQLIndices`: the index that a primary key creates by itself is
      left out; in any other definition the new names join what the old ones separate,
      first the series names and then the table names. */
  method RewriteIndex(a: array<char>, seriesIn: string, seriesOut: string, tableIn: string, tableOut: string,
                      ghost s: string)
    returns (written: Option<string>)
    requires StringAt(a[..], 0, s)
    requires seriesIn != "" && seriesOut != "" && tableIn != "" && tableOut != ""
    requires NUL !in seriesOut && NUL !in tableOut
    requires |Join(Pieces(s, seriesIn, 0), seriesOut)| < a.Length
    requires |Join(Pieces(Join(Pieces(s, seriesIn, 0), seriesOut), tableIn, 0), tableOut)| < a.Length
    modifies a
    ensures written.None? <==> exists k | 0 <= k <= |s| :: "(recnum)" <= s[k..]
    ensures written.Some? ==>
              var t := Join(Pieces(s, seriesIn, 0), seriesOut);
              && Join(Pieces(s, seriesIn, 0), seriesIn) == s
              && Join(Pieces(t, tableIn, 0), tableIn) == t
              && written.value == Join(Pieces(t, tableIn, 0), tableOut)
  {
    var text := Read(a, 0, s);
    FindIsContained(s, "(recnum)");
    if Find(text, "(recnum)", 0).Some? {
      return None;
    }
    ghost var t := Join(Pieces(s, seriesIn, 0), seriesOut);
    ReplaceName(a, seriesIn, seriesOut, s);
    ReplaceName(a, tableIn, tableOut, t);
    text := Read(a, 0, Join(Pieces(t, tableIn, 0), tableOut));
    written := Some(text);
  }

  /** A name is replaced everywhere, unless the new one is the same. */
  method ReplaceName(a: array<char>, oldName: string, newName: string, ghost s: string)
    requires StringAt(a[..], 0, s) && oldName != "" && newName != "" && NUL !in newName
    requires |Join(Pieces(s, oldName, 0), newName)| < a.Length
    modifies a
    ensures StringAt(a[..], 0, Join(Pieces(s, oldName, 0), newName)) && Join(Pieces(s, oldName, 0), oldName) == s
  {
    LoopIsScan(s, oldName, newName, 0);
    ScanJoinsPieces(s, oldName, newName, 0);
    assert s[0..] == s;
    if oldName != newName {
      ReplaceAll(a, oldName, newName, s);
    }
  }

  /** The search finds something exactly when the text contains it. */
  lemma {:induction false} FindIsContained(s: string, pat: string)
    ensures Find(s, pat, 0).Some? <==> exists k | 0 <= k <= |s| :: pat <= s[k..]
  {
    FindIsLeftmost(s, pat, 0);
    if Find(s, pat, 0).Some? {
      var k := Find(s, pat, 0).value;
      assert pat <= s[k..];
    }
    forall k: nat | k <= |s| && pat <= s[k..] ensures At(s, pat, k) {
      forall l | 0 <= l < |pat| ensures s[k + l] == pat[l] {
        assert s[k..][l] == s[k + l];
      }
    }
  }
}
