/** The Python `str` built-ins the extractor relies on (`strip`, `lower`, `split`, `join`,
    `replace`, `title`, `startswith`, `in`), restricted to ASCII character classes. */
module Text {

  datatype Option<+T> = None | Some(value: T) {
    predicate IsFailure() { None? }

    function PropagateFailure<U>(): Option<U>
      requires None?
    {
      None
    }

    function Extract(): T
      requires Some?
    {
      value
    }
  }

  /** The outcome of a computation that may raise: `Err` stands for the exception. */
  datatype Result<+T, +E> = Ok(value: T) | Err(error: E) {
    predicate IsFailure() { Err? }

    function PropagateFailure<U>(): Result<U, E>
      requires Err?
    {
      Err(error)
    }

    function Extract(): T
      requires Ok?
    {
      value
    }
  }

  /** Characters for which Python's `str.isspace` holds (and which the regex class `\s`
      matches), restricted to the ASCII range. */
  predicate IsSpace(c: char) {
    c == ' ' || c == '\t' || c == '\n' || c == '\r' || c == '\U{B}' || c == '\U{C}'
    || c == '\U{1C}' || c == '\U{1D}' || c == '\U{1E}' || c == '\U{1F}'
  }

  predicate IsDigit(c: char) { '0' <= c <= '9' }

  predicate IsLetter(c: char) { 'a' <= c <= 'z' || 'A' <= c <= 'Z' }

  /** The regex class `\w`. */
  predicate IsWordChar(c: char) { IsLetter(c) || IsDigit(c) || c == '_' }

  predicate NoNewline(s: string) { forall k :: 0 <= k < |s| ==> s[k] != '\n' }

  function Lower(c: char): (r: char)
    ensures !('A' <= r <= 'Z')
  {
    if 'A' <= c <= 'Z' then (c as int + 32) as char else c
  }

  function Upper(c: char): (r: char)
    ensures !('a' <= r <= 'z')
  {
    if 'a' <= c <= 'z' then (c as int - 32) as char else c
  }

  /** `s.lower()` */
  function LowerStr(s: string): (r: string)
    ensures |r| == |s|
    ensures forall k :: 0 <= k < |s| ==> r[k] == Lower(s[k])
  {
    if s == [] then [] else [Lower(s[0])] + LowerStr(s[1..])
  }

  lemma LowerIdempotent(c: char)
    ensures Lower(Lower(c)) == Lower(c)
  {
  }

  lemma {:induction false} LowerStrIdempotent(s: string)
    ensures LowerStr(LowerStr(s)) == LowerStr(s)
  {
    var l := LowerStr(s);
    var ll := LowerStr(l);
    assert |ll| == |l|;
    forall k | 0 <= k < |l| ensures ll[k] == l[k] {
      LowerIdempotent(s[k]);
    }
  }

  /** `(a + b).lower() == a.lower() + b.lower()` */
  lemma LowerStrConcat(a: string, b: string)
    ensures LowerStr(a + b) == LowerStr(a) + LowerStr(b)
  {
    var l := LowerStr(a + b);
    var r := LowerStr(a) + LowerStr(b);
    assert |l| == |r|;
    forall k | 0 <= k < |l| ensures l[k] == r[k] {
      if k < |a| {
        assert (a + b)[k] == a[k];
      } else {
        assert (a + b)[k] == b[k - |a|];
      }
    }
  }

  /** Exact (case-sensitive) occurrence of `lit` at position `i` of `s`. */
  function At(s: string, i: nat, lit: string): bool
    decreases |lit|
  {
    if lit == [] then i <= |s| else i < |s| && s[i] == lit[0] && At(s, i + 1, lit[1..])
  }

  /** Case-insensitive occurrence of the lower-case literal `lit` at position `i` of `s`. */
  function CiAt(s: string, i: nat, lit: string): bool
    decreases |lit|
  {
    if lit == [] then i <= |s| else i < |s| && Lower(s[i]) == lit[0] && CiAt(s, i + 1, lit[1..])
  }

  lemma {:induction false} AtBounds(s: string, i: nat, lit: string)
    requires At(s, i, lit)
    ensures i + |lit| <= |s| && s[i..i + |lit|] == lit
    decreases |lit|
  {
    if lit != [] {
      AtBounds(s, i + 1, lit[1..]);
      assert s[i..i + |lit|] == [s[i]] + s[i + 1..i + 1 + |lit[1..]|];
    }
  }

  lemma {:induction false} CiAtBounds(s: string, i: nat, lit: string)
    requires CiAt(s, i, lit)
    ensures i + |lit| <= |s|
    decreases |lit|
  {
    if lit != [] {
      CiAtBounds(s, i + 1, lit[1..]);
      assert |lit[1..]| == |lit| - 1;
    }
  }

  /** A case-insensitive occurrence is an exact occurrence in the lower-cased text:
      `CiAt(s, i, lit)` is `s.lower()[i:].startswith(lit)`. */
  lemma {:induction false} CiAtLower(s: string, i: nat, lit: string)
    ensures CiAt(s, i, lit) == At(LowerStr(s), i, lit)
    decreases |lit|
  {
    if lit != [] {
      CiAtLower(s, i + 1, lit[1..]);
    }
  }

  /** `s.startswith(p)` */
  predicate StartsWith(s: string, p: string) {
    At(s, 0, p)
  }

  /** `sub in s` */
  predicate Contains(s: string, sub: string) {
    ContainsFrom(s, sub, 0)
  }

  predicate ContainsFrom(s: string, sub: string, i: nat)
    decreases |s| - i
  {
    if i + |sub| > |s| then false else At(s, i, sub) || ContainsFrom(s, sub, i + 1)
  }

  /** `s[i..]` contains `sub` exactly when `sub` occurs at some position from `i` on. */
  lemma {:induction false} ContainsFromIff(s: string, sub: string, i: nat)
    ensures ContainsFrom(s, sub, i) <==> exists k :: i <= k && At(s, k, sub)
    decreases |s| - i
  {
    if i + |sub| <= |s| {
      ContainsFromIff(s, sub, i + 1);
      if ContainsFrom(s, sub, i) {
        if At(s, i, sub) {
          assert exists k :: i <= k && At(s, k, sub);
        } else {
          var k :| i + 1 <= k && At(s, k, sub);
          assert i <= k;
        }
      }
      if exists k :: i <= k && At(s, k, sub) {
        var k :| i <= k && At(s, k, sub);
        if k != i {
          assert exists k' :: i + 1 <= k' && At(s, k', sub);
        }
      }
    } else {
      forall k | i <= k ensures !At(s, k, sub) {
        if At(s, k, sub) {
          AtBounds(s, k, sub);
        }
      }
    }
  }

  /** A whole-string case-insensitive match: `s.lower() == lit`. */
  lemma CiEquals(s: string, lit: string)
    ensures (|s| == |lit| && CiAt(s, 0, lit)) <==> LowerStr(s) == lit
  {
    var l := LowerStr(s);
    CiAtLower(s, 0, lit);
    if l == lit {
      assert l[0..|lit|] == lit;
      SliceAt(l, 0, lit);
    }
    if |s| == |lit| && At(l, 0, lit) {
      AtBounds(l, 0, lit);
      assert l == l[0..|lit|];
    }
  }

  lemma {:induction false} SliceAt(s: string, i: nat, lit: string)
    requires i + |lit| <= |s| && s[i..i + |lit|] == lit
    ensures At(s, i, lit)
    decreases |lit|
  {
    if lit != [] {
      assert s[i + 1..i + 1 + |lit[1..]|] == lit[1..];
      SliceAt(s, i + 1, lit[1..]);
    }
  }

  /** Whatever surrounds an occurrence, the occurrence is still contained. */
  lemma ContainsMiddle(a: string, b: string, c: string)
    ensures Contains(a + b + c, b)
  {
    var s := a + b + c;
    assert s[|a|..|a| + |b|] == b;
    SliceAt(s, |a|, b);
    ContainsFromIff(s, b, 0);
    assert exists k :: 0 <= k && At(s, k, b);
  }

  /** Text placed around a string keeps every occurrence the string contains. */
  lemma ContainsExtend(a: string, s: string, c: string, sub: string)
    requires Contains(s, sub)
    ensures Contains(a + s + c, sub)
  {
    ContainsFromIff(s, sub, 0);
    var k :| 0 <= k && At(s, k, sub);
    AtBounds(s, k, sub);
    var t := a + s + c;
    assert t[|a| + k..|a| + k + |sub|] == s[k..k + |sub|];
    SliceAt(t, |a| + k, sub);
    ContainsFromIff(t, sub, 0);
    var j: nat := |a| + k;
    assert At(t, j, sub);
    assert exists i :: 0 <= i && At(t, i, sub);
    assert ContainsFrom(t, sub, 0);
  }

  lemma ContainsAfter(a: string, s: string, sub: string)
    requires Contains(s, sub)
    ensures Contains(a + s, sub)
  {
    ContainsExtend(a, s, [], sub);
    assert a + s + [] == a + s;
  }

  lemma ContainsBefore(s: string, c: string, sub: string)
    requires Contains(s, sub)
    ensures Contains(s + c, sub)
  {
    ContainsExtend([], s, c, sub);
    assert [] + s + c == s + c;
  }

  lemma ContainsSelf(s: string)
    ensures Contains(s, s)
  {
    ContainsMiddle([], s, []);
    assert [] + s + [] == s;
  }

  /** Appending text keeps every occurrence: a string contains what its prefixes contain. */
  lemma ContainsPrefix(t: string, u: string, sub: string)
    requires t <= u && Contains(t, sub)
    ensures Contains(u, sub)
  {
    ContainsBefore(t, u[|t|..], sub);
    assert t + u[|t|..] == u;
  }

  lemma PrefixConcat(a: string, b: string)
    ensures a <= a + b
  {
    assert (a + b)[..|a|] == a;
  }

  lemma PrefixTrans(a: string, b: string, c: string)
    requires a <= b && b <= c
    ensures a <= c
  {
    assert c[..|a|] == b[..|a|];
  }

  lemma PrefixStartsWith(p: string, t: string)
    requires p <= t
    ensures StartsWith(t, p)
  {
    assert t[0..|p|] == p;
    SliceAt(t, 0, p);
  }

  /** Every field of a joined list occurs in the joined text. */
  lemma {:induction false} JoinContains(ls: seq<string>, sep: char, k: nat)
    requires k < |ls|
    ensures Contains(Join(ls, sep), ls[k])
    decreases |ls|
  {
    if |ls| == 1 {
      assert Join(ls, sep) == [] + ls[0] + [];
      ContainsMiddle([], ls[0], []);
    } else if k == 0 {
      assert Join(ls, sep) == [] + ls[0] + ([sep] + Join(ls[1..], sep));
      ContainsMiddle([], ls[0], [sep] + Join(ls[1..], sep));
    } else {
      JoinContains(ls[1..], sep, k - 1);
      assert Join(ls, sep) == (ls[0] + [sep]) + Join(ls[1..], sep) + [];
      ContainsExtend(ls[0] + [sep], Join(ls[1..], sep), [], ls[k]);
    }
  }

  /** `any(p in s for p in phrases)` */
  predicate ContainsAny(s: string, phrases: seq<string>) {
    exists k :: 0 <= k < |phrases| && Contains(s, phrases[k])
  }

  /** A phrase of either list occurs exactly when a phrase of their concatenation does. */
  lemma ContainsAnyConcat(s: string, ps: seq<string>, qs: seq<string>)
    ensures ContainsAny(s, ps + qs) <==> ContainsAny(s, ps) || ContainsAny(s, qs)
  {
    if ContainsAny(s, ps + qs) {
      var k :| 0 <= k < |ps + qs| && Contains(s, (ps + qs)[k]);
      if k < |ps| {
        assert (ps + qs)[k] == ps[k];
      } else {
        assert (ps + qs)[k] == qs[k - |ps|];
      }
    }
    if ContainsAny(s, ps) {
      var k :| 0 <= k < |ps| && Contains(s, ps[k]);
      assert (ps + qs)[k] == ps[k];
    }
    if ContainsAny(s, qs) {
      var k :| 0 <= k < |qs| && Contains(s, qs[k]);
      assert (ps + qs)[|ps| + k] == qs[k];
    }
  }

  /** Text added around a string keeps every phrase that occurs in it. */
  lemma ContainsAnyExtend(a: string, s: string, c: string, ps: seq<string>)
    requires ContainsAny(s, ps)
    ensures ContainsAny(a + s + c, ps)
  {
    var k :| 0 <= k < |ps| && Contains(s, ps[k]);
    ContainsExtend(a, s, c, ps[k]);
  }

  /** `s.startswith(tuple)` */
  predicate StartsWithAny(s: string, prefixes: seq<string>) {
    exists k :: 0 <= k < |prefixes| && StartsWith(s, prefixes[k])
  }

  // ---------------------------------------------------------------- strip

  /** First index at or after `i` that does not hold whitespace. */
  function SkipSpaces(s: string, i: nat): (j: nat)
    requires i <= |s|
    ensures i <= j <= |s|
    ensures forall k :: i <= k < j ==> IsSpace(s[k])
    ensures j < |s| ==> !IsSpace(s[j])
    decreases |s| - i
  {
    if i < |s| && IsSpace(s[i]) then SkipSpaces(s, i + 1) else i
  }

  /** The end of `s[lo..hi]` once trailing whitespace is removed. */
  function TrimEnd(s: string, lo: nat, hi: nat): (j: nat)
    requires lo <= hi <= |s|
    ensures lo <= j <= hi
    ensures forall k :: j <= k < hi ==> IsSpace(s[k])
    ensures j > lo ==> !IsSpace(s[j - 1])
    decreases hi
  {
    if hi > lo && IsSpace(s[hi - 1]) then TrimEnd(s, lo, hi - 1) else hi
  }

  /** `s.strip()`: the slice of `s` left once leading and trailing whitespace is removed. */
  function Strip(s: string): (r: string)
    ensures r == [] || (!IsSpace(r[0]) && !IsSpace(r[|r| - 1]))
    ensures exists a, b :: (0 <= a <= b <= |s| && r == s[a..b]
      && (forall k :: 0 <= k < a ==> IsSpace(s[k]))
      && (forall k :: b <= k < |s| ==> IsSpace(s[k])))
  {
    var a := SkipSpaces(s, 0);
    var b := TrimEnd(s, a, |s|);
    assert b > a ==> !IsSpace(s[a..b][0]) && !IsSpace(s[a..b][b - a - 1]);
    s[a..b]
  }

  /** Stripping a string that already has no outer whitespace changes nothing. */
  lemma StripNoOuterSpace(s: string)
    requires s == [] || (!IsSpace(s[0]) && !IsSpace(s[|s| - 1]))
    ensures Strip(s) == s
  {
    var a := SkipSpaces(s, 0);
    assert a == 0;
    var b := TrimEnd(s, a, |s|);
    assert b == |s|;
  }

  lemma StripIdempotent(s: string)
    ensures Strip(Strip(s)) == Strip(s)
  {
    StripNoOuterSpace(Strip(s));
  }

  /** Stripping never introduces a line break. */
  lemma StripNoNewline(s: string)
    requires NoNewline(s)
    ensures NoNewline(Strip(s))
  {
    var a, b :| 0 <= a <= b <= |s| && Strip(s) == s[a..b];
    assert forall k :: 0 <= k < b - a ==> Strip(s)[k] == s[a + k];
  }

  /** A string holding a non-space character does not strip to the empty string. */
  lemma StripNonEmpty(s: string, k: nat)
    requires k < |s| && !IsSpace(s[k])
    ensures Strip(s) != []
  {
  }

  // ---------------------------------------------------------------- split / join

  function IndexOf(s: string, c: char, i: nat): (r: Option<nat>)
    requires i <= |s|
    ensures r.Some? ==> (i <= r.value < |s| && s[r.value] == c
      && forall k :: i <= k < r.value ==> s[k] != c)
    ensures r.None? ==> forall k :: i <= k < |s| ==> s[k] != c
    decreases |s| - i
  {
    if i == |s| then None else if s[i] == c then Some(i) else IndexOf(s, c, i + 1)
  }

  /** `s.split(sep)` for a one-character separator: always at least one field. */
  function Split(s: string, sep: char): (r: seq<string>)
    ensures |r| >= 1
    ensures forall k, j :: 0 <= k < |r| && 0 <= j < |r[k]| ==> r[k][j] != sep
    decreases |s|
  {
    match IndexOf(s, sep, 0)
    case None => [s]
    case Some(k) => [s[..k]] + Split(s[k + 1..], sep)
  }

  /** `[x.strip() for x in ls]` */
  function StripAll(ls: seq<string>): (r: seq<string>)
    ensures |r| == |ls|
    ensures forall k :: 0 <= k < |ls| ==> r[k] == Strip(ls[k])
  {
    seq(|ls|, k requires 0 <= k < |ls| => Strip(ls[k]))
  }

  lemma StripAllSnoc(ls: seq<string>, i: nat, j: nat)
    requires i <= j < |ls|
    ensures StripAll(ls[i..j + 1]) == StripAll(ls[i..j]) + [Strip(ls[j])]
  {
    assert ls[i..j + 1] == ls[i..j] + [ls[j]];
  }

  /** The first index at or after `i` whose element satisfies `p`. */
  function FirstIndex<T>(xs: seq<T>, i: nat, p: T -> bool): (r: Option<nat>)
    requires i <= |xs|
    ensures r.Some? ==> i <= r.value < |xs|
    decreases |xs| - i
  {
    if i == |xs| then None else if p(xs[i]) then Some(i) else FirstIndex(xs, i + 1, p)
  }

  lemma {:induction false} FirstIndexFirst<T>(xs: seq<T>, i: nat, p: T -> bool)
    requires i <= |xs|
    ensures FirstIndex(xs, i, p).Some? ==> (p(xs[FirstIndex(xs, i, p).value])
      && forall k :: i <= k < FirstIndex(xs, i, p).value ==> !p(xs[k]))
    ensures FirstIndex(xs, i, p).None? ==> forall k :: i <= k < |xs| ==> !p(xs[k])
    decreases |xs| - i
  {
    if i < |xs| && !p(xs[i]) {
      FirstIndexFirst(xs, i + 1, p);
    }
  }

  /** The first result `f` gives for an element of `xs[i..]`, in order. */
  function FirstSome<T, U>(xs: seq<T>, i: nat, f: T -> Option<U>): Option<U>
    requires i <= |xs|
    decreases |xs| - i
  {
    if i == |xs| then None
    else
      match f(xs[i])
      case Some(u) => Some(u)
      case None => FirstSome(xs, i + 1, f)
  }

  lemma {:induction false} FirstSomeAt<T, U>(xs: seq<T>, i: nat, f: T -> Option<U>, k: nat)
    requires i <= k < |xs| && f(xs[k]).Some?
    requires forall j :: i <= j < k ==> f(xs[j]).None?
    ensures FirstSome(xs, i, f) == f(xs[k])
    decreases k - i
  {
    if i < k {
      FirstSomeAt(xs, i + 1, f, k);
    }
  }

  lemma {:induction false} FirstSomeNone<T, U>(xs: seq<T>, i: nat, f: T -> Option<U>)
    requires i <= |xs|
    requires forall j :: i <= j < |xs| ==> f(xs[j]).None?
    ensures FirstSome(xs, i, f).None?
    decreases |xs| - i
  {
    if i < |xs| {
      FirstSomeNone(xs, i + 1, f);
    }
  }

  /** The end of the longest run of elements from index `j` on that satisfy `keep`. */
  function TakeWhileEnd<T>(xs: seq<T>, j: nat, keep: T -> bool): (n: nat)
    requires j <= |xs|
    ensures j <= n <= |xs|
    decreases |xs| - j
  {
    if j < |xs| && keep(xs[j]) then TakeWhileEnd(xs, j + 1, keep) else j
  }

  /** One more kept element moves the start without moving the end. */
  lemma TakeWhileEndStep<T>(xs: seq<T>, j: nat, keep: T -> bool)
    requires j < |xs| && keep(xs[j])
    ensures TakeWhileEnd(xs, j + 1, keep) == TakeWhileEnd(xs, j, keep)
  {
  }

  /** The run ends where the next element is missing or not kept. */
  lemma TakeWhileEndHere<T>(xs: seq<T>, j: nat, keep: T -> bool)
    requires j == |xs| || (j < |xs| && !keep(xs[j]))
    ensures TakeWhileEnd(xs, j, keep) == j
  {
  }

  lemma {:induction false} TakeWhileEndStops<T>(xs: seq<T>, j: nat, keep: T -> bool)
    requires j <= |xs|
    ensures forall k :: j <= k < TakeWhileEnd(xs, j, keep) ==> keep(xs[k])
    ensures TakeWhileEnd(xs, j, keep) < |xs| ==> !keep(xs[TakeWhileEnd(xs, j, keep)])
    decreases |xs| - j
  {
    if j < |xs| && keep(xs[j]) {
      TakeWhileEndStops(xs, j + 1, keep);
    }
  }

  /** `sep.join(ls)` */
  function Join(ls: seq<string>, sep: char): (r: string)
  {
    if ls == [] then [] else if |ls| == 1 then ls[0] else ls[0] + [sep] + Join(ls[1..], sep)
  }

  /** Joining fields that contain no separator and splitting again gives back the fields. */
  lemma {:induction false} SplitJoin(ls: seq<string>, sep: char)
    requires |ls| >= 1
    requires forall k, j :: 0 <= k < |ls| && 0 <= j < |ls[k]| ==> ls[k][j] != sep
    ensures Split(Join(ls, sep), sep) == ls
  {
    if |ls| == 1 {
      assert IndexOf(ls[0], sep, 0).None?;
    } else {
      var rest := Join(ls[1..], sep);
      var s := ls[0] + [sep] + rest;
      assert Join(ls, sep) == s;
      var idx := IndexOf(s, sep, 0);
      assert s[|ls[0]|] == sep;
      assert forall k :: 0 <= k < |ls[0]| ==> s[k] == ls[0][k];
      assert idx == Some(|ls[0]|);
      assert s[..|ls[0]|] == ls[0];
      assert s[|ls[0]| + 1..] == rest;
      SplitJoin(ls[1..], sep);
      assert ls == [ls[0]] + ls[1..];
    }
  }

  // ---------------------------------------------------------------- replace / title / words

  /** `s.replace(old, new)`: non-overlapping occurrences, left to right. */
  function ReplaceAll(s: string, pat: string, rep: string): string
    requires pat != []
    decreases |s|
  {
    if |s| == 0 then []
    else if At(s, 0, pat) then (AtBounds(s, 0, pat); rep + ReplaceAll(s[|pat|..], pat, rep))
    else [s[0]] + ReplaceAll(s[1..], pat, rep)
  }

  /** `s.replace(a, b)` for single characters. */
  function ReplaceChar(s: string, a: char, b: char): (r: string)
    ensures |r| == |s|
    ensures forall k :: 0 <= k < |s| ==> r[k] == (if s[k] == a then b else s[k])
  {
    if s == [] then [] else [if s[0] == a then b else s[0]] + ReplaceChar(s[1..], a, b)
  }

  /** `s.title()`: a letter is upper-cased when the character before it is not a letter,
      and lower-cased otherwise. */
  function Title(s: string): (r: string)
    ensures |r| == |s|
    ensures forall k :: 0 <= k < |s| ==>
      r[k] == if k > 0 && IsLetter(s[k - 1]) then Lower(s[k]) else Upper(s[k])
  {
    TitleFrom(s, false)
  }

  /** `Title` of a suffix, `afterLetter` telling whether the character before it is a letter. */
  function TitleFrom(s: string, afterLetter: bool): (r: string)
    ensures |r| == |s|
    ensures forall k :: 0 <= k < |s| ==> IsLetter(r[k]) == IsLetter(s[k])
    ensures forall k :: 0 <= k < |s| && !IsLetter(s[k]) ==> r[k] == s[k]
    ensures forall k :: 0 <= k < |s| ==>
      r[k] == if (k == 0 && afterLetter) || (k > 0 && IsLetter(s[k - 1])) then Lower(s[k]) else Upper(s[k])
  {
    if s == [] then []
    else [if afterLetter then Lower(s[0]) else Upper(s[0])] + TitleFrom(s[1..], IsLetter(s[0]))
  }

  /** First index at or after `i` holding whitespace. */
  function SkipNonSpaces(s: string, i: nat): (j: nat)
    requires i <= |s|
    ensures i <= j <= |s|
    ensures forall k :: i <= k < j ==> !IsSpace(s[k])
    ensures j < |s| ==> IsSpace(s[j])
    decreases |s| - i
  {
    if i < |s| && !IsSpace(s[i]) then SkipNonSpaces(s, i + 1) else i
  }

  /** `s.split()`: the maximal runs of non-whitespace characters, in order. */
  function Words(s: string): (r: seq<string>)
    ensures forall k :: 0 <= k < |r| ==> r[k] != [] && forall j :: 0 <= j < |r[k]| ==> !IsSpace(r[k][j])
    decreases |s|
  {
    var a := SkipSpaces(s, 0);
    if a == |s| then []
    else
      var b := SkipNonSpaces(s, a);
      [s[a..b]] + Words(s[b..])
  }

  /** The characters of `s` that are word characters or whitespace (`re.sub(r'[^\w\s]', '', s)`). */
  function KeepWordsAndSpaces(s: string): (r: string)
    ensures forall k :: 0 <= k < |r| ==> IsWordChar(r[k]) || IsSpace(r[k])
    ensures |r| <= |s|
  {
    if s == [] then []
    else (if IsWordChar(s[0]) || IsSpace(s[0]) then [s[0]] else []) + KeepWordsAndSpaces(s[1..])
  }

  /** `re.sub` works character by character: the result for a concatenation is the
      concatenation of the results. */
  lemma {:induction false} KeepWordsAndSpacesAppend(a: string, b: string)
    ensures KeepWordsAndSpaces(a + b) == KeepWordsAndSpaces(a) + KeepWordsAndSpaces(b)
    decreases |a|
  {
    if a != [] {
      var head := if IsWordChar(a[0]) || IsSpace(a[0]) then [a[0]] else [];
      assert (a + b)[0] == a[0] && (a + b)[1..] == a[1..] + b;
      calc {
        KeepWordsAndSpaces(a + b);
        head + KeepWordsAndSpaces(a[1..] + b);
        { KeepWordsAndSpacesAppend(a[1..], b); }
        head + (KeepWordsAndSpaces(a[1..]) + KeepWordsAndSpaces(b));
        KeepWordsAndSpaces(a) + KeepWordsAndSpaces(b);
      }
    } else {
      assert a + b == b;
    }
  }

  /** A single character is kept exactly when it is a word character or whitespace. */
  lemma KeepWordsAndSpacesOne(c: char)
    ensures KeepWordsAndSpaces([c]) == if IsWordChar(c) || IsSpace(c) then [c] else []
  {
    assert [c][1..] == [];
  }

  /** `s.replace(',', '')` */
  function RemoveCommas(s: string): (r: string)
    ensures forall k :: 0 <= k < |r| ==> r[k] != ','
    ensures |r| <= |s|
  {
    if s == [] then [] else (if s[0] == ',' then [] else [s[0]]) + RemoveCommas(s[1..])
  }

  /** `int(s)` for a string of ASCII digits. */
  function DigitsValue(s: string): nat
    requires forall k :: 0 <= k < |s| ==> IsDigit(s[k])
  {
    if s == [] then 0
    else
      assert IsDigit(s[|s| - 1]);
      DigitsValue(s[..|s| - 1]) * 10 + (s[|s| - 1] as int - '0' as int)
  }
}
