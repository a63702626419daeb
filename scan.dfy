/** Building blocks for the hand-written recognisers that stand for the extractor's regular
    expressions (Python `re`, with `re.IGNORECASE`).

    Most of the patterns are a chain of greedy runs each followed by a character outside the
    run's class (`\s*at`, `[\d,.]+\s*per`, ...). For such a chain the greedy choice is the only
    one the backtracking engine can keep, so a run is modelled by the position where it stops.
    The places where backtracking does change the result (`\s*([^\n]+)`, lazy `(.*?)`) have
    their own scanners below. */
module Scan {
  import opened Text

  /** Half-open span `s[start..end]` of a captured group. */
  datatype Span = Span(start: nat, end: nat)

  /** End of the greedy run of characters in `inClass` starting at `i`. */
  function RunEnd(s: string, i: nat, inClass: char -> bool): (j: nat)
    requires i <= |s|
    ensures i <= j <= |s|
    ensures forall k :: i <= k < j ==> inClass(s[k])
    ensures j < |s| ==> !inClass(s[j])
    decreases |s| - i
  {
    if i < |s| && inClass(s[i]) then RunEnd(s, i + 1, inClass) else i
  }

  /** `[class]+`: the end of a run of at least one character. */
  function Run1(s: string, i: nat, inClass: char -> bool): (r: Option<nat>)
    requires i <= |s|
    ensures r.Some? ==> i < r.value <= |s| && r.value == RunEnd(s, i, inClass)
    ensures r.None? ==> RunEnd(s, i, inClass) == i
  {
    var j := RunEnd(s, i, inClass);
    if j > i then Some(j) else None
  }

  /** `\s*` */
  function Ws(s: string, i: nat): (j: nat)
    requires i <= |s|
    ensures i <= j <= |s|
  {
    SkipSpaces(s, i)
  }

  /** A literal, matched case-insensitively (`lit` is given in lower case). */
  function Lit(s: string, i: nat, lit: string): (r: Option<nat>)
    ensures r.Some? ==> r.value == i + |lit| && r.value <= |s| && CiAt(s, i, lit)
    ensures r.None? ==> !CiAt(s, i, lit)
  {
    if CiAt(s, i, lit) then (CiAtBounds(s, i, lit); Some(i + |lit|)) else None
  }

  /** `\s*` followed by a literal. */
  function WsLit(s: string, i: nat, lit: string): (r: Option<nat>)
    requires i <= |s|
    ensures r.Some? ==> i + |lit| <= r.value <= |s|
  {
    Lit(s, Ws(s, i), lit)
  }

  /** An optional literal, taken greedily: `lit?`. */
  function OptLit(s: string, i: nat, lit: string): (j: nat)
    requires i <= |s|
    ensures j == i || (j == i + |lit| && CiAt(s, i, lit))
    ensures j <= |s|
  {
    match Lit(s, i, lit)
    case Some(j) => j
    case None => i
  }

  predicate IsAmountChar(c: char) { IsDigit(c) || c == ',' || c == '.' }

  /** End of the line holding position `i`: the first line feed at or after `i`, or `|s|`. */
  function LineEnd(s: string, i: nat): (j: nat)
    requires i <= |s|
    ensures i <= j <= |s|
    ensures NoNewline(s[i..j])
    ensures j < |s| ==> s[j] == '\n'
    decreases |s| - i
  {
    if i < |s| && s[i] != '\n' then
      var j := LineEnd(s, i + 1);
      assert forall k :: 0 <= k < j - i ==> s[i..j][k] == s[i + k];
      j
    else i
  }

  /** The largest position in `[lo, hi)` that does not hold a line feed. */
  function LastNonNewline(s: string, lo: nat, hi: nat): (r: Option<nat>)
    requires lo <= hi <= |s|
    ensures r.Some? ==> (lo <= r.value < hi && s[r.value] != '\n'
      && forall k :: r.value < k < hi ==> s[k] == '\n')
    ensures r.None? ==> forall k :: lo <= k < hi ==> s[k] == '\n'
    decreases hi - lo
  {
    if hi == lo then None
    else if s[hi - 1] != '\n' then Some(hi - 1)
    else LastNonNewline(s, lo, hi - 1)
  }

  /** `\s*([^\n]+)` tried at `q`: the captured group. The greedy `\s*` may cross line feeds;
      when only whitespace is left, the engine backs off and the group is the trailing
      whitespace that ends the text. */
  function SpacesThenLine(s: string, q: nat): (r: Option<Span>)
    requires q <= |s|
    ensures r.Some? ==> (q <= r.value.start < r.value.end <= |s|
      && NoNewline(s[r.value.start..r.value.end])
      && (r.value.end == |s| || s[r.value.end] == '\n')
      && forall k :: q <= k < r.value.start ==> IsSpace(s[k]))
    ensures r.None? ==> forall k :: q <= k < |s| ==> s[k] == '\n'
  {
    var w := Ws(s, q);
    if w < |s| then
      Some(Span(w, LineEnd(s, w)))
    else
      match LastNonNewline(s, q, |s|)
      case None => None
      case Some(j) => Some(Span(j, LineEnd(s, j)))
  }

  /** Lazy `(.*?)` followed by `rest`, tried from position `k`: the shortest extension, not
      crossing a line feed, after which `rest` matches. */
  function LazyFrom<T>(s: string, k: nat, rest: (string, nat) -> Option<T>): (r: Option<(nat, T)>)
    requires k <= |s|
    ensures r.Some? ==> (k <= r.value.0 <= |s| && rest(s, r.value.0) == Some(r.value.1)
      && NoNewline(s[k..r.value.0])
      && forall j :: k <= j < r.value.0 ==> rest(s, j).None?)
    ensures r.None? ==> forall j :: k <= j <= LineEnd(s, k) ==> rest(s, j).None?
    decreases |s| - k
  {
    match rest(s, k)
    case Some(t) => Some((k, t))
    case None =>
      if k < |s| && s[k] != '\n' then
        var r := LazyFrom(s, k + 1, rest);
        if r.Some? then
          assert forall i :: 0 <= i < r.value.0 - k ==> s[k..r.value.0][i] == s[k + i];
          r
        else r
      else None
  }
}
