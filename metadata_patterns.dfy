/** The metadata patterns of `extract_event_details` (pdf_processor.py:201-240), each searched
    over the whole text with `re.finditer` and `re.IGNORECASE | re.MULTILINE` (none of them uses
    `^` or `$`, so MULTILINE changes nothing). Under IGNORECASE the classes `[A-Z]`, `[a-z]` and
    `[a-zA-Z]` all stand for "any letter".

    `Matcher(pat, s)(p)` is what the engine finds when it tries `pat` at position `p`: the end
    of the match and the span of its capture group (for the price patterns, which have no
    group, the whole match). Every pattern consumes at least one character, which is what lets
    `FindAll` resume at the end of each match. */
module MetadataPatterns {
  import opened Text
  import opened Scan

  datatype Hit = Hit(end: nat, group: Span)

  /** A match found at `p` ends after `p`, inside the text, and its group lies inside it. */
  predicate HitWithin(s: string, p: nat, h: Hit) {
    p < h.end <= |s| && p <= h.group.start <= h.group.end <= h.end
  }

  datatype Pattern =
    | PriceDollar             // \$[\d,]+(?:\.\d{2})?(?:\s*(?:per person|pp|p/p))?
    | PriceLabelled           // (?:price|cost|total):\s*\$[\d,]+(?:\.\d{2})?
    | PricePerPersonLabelled  // (?:per person|pp|p/p):\s*\$[\d,]+(?:\.\d{2})?
    | DateLabelled            // (?:date:|on:?)\s*([\w\s,.&]+\d{2,4})
    | DateNumeric             // (\d{1,2}[./]\d{1,2}[./]\d{2,4})
    | DateWritten             // ([A-Z][a-z]+ \d{1,2}(?:st|nd|rd|th)?,? \d{4})
    | TimeLabelled            // (?:time[s]?:|at:?)\s*([^\n]+)
    | TimeClock               // (\d{1,2}:\d{2}\s*(?:AM|PM|am|pm)(?:\s*-\s*<same>)?)
    | GuestsLabelled          // (?:guests?|people|attendees|count):\s*(\d+)
    | GuestsServing           // (?:for|serving)\s+(\d+)\s+(?:people|guests|attendees)
    | GuestsText              // guests?:\s*([^\n]+)
    | LocationLabelled        // (?:location|venue|place):\s*([^\n]+)
    | SetupLabelled           // (?:setup|set up|setup notes):\s*([^\n]+(?:\n(?!\w+:)[^\n]+)*)
    | InvoiceLabelled         // (?:invoice\s*(?:no|number|#)?:?\s*)([A-Z0-9]+)
    | ContactLabelled         // (?:contact|contact person):\s*([^\n]+)
    | EmailLabelled           // (?:email|e-mail):\s*(<address>)
    | EmailBare               // (<address>)
    | PhoneLabelled           // (?:phone|cell|tel):\s*([0-9.()-]+)
    | PhoneDescribed          // (?:phone|cell|tel)[^:]*:\s*([^\n]+)

  predicate NonEmptyAll(alts: seq<string>) { forall k :: 0 <= k < |alts| ==> alts[k] != [] }

  /** An alternation of literals `(?:a|b|c)` tried in order at `i`: the end of the first that
      matches. Every alternation this is used for is followed by something that either cannot
      fail or makes the alternatives mutually exclusive, so the first is the one the engine keeps. */
  function FirstLit(s: string, i: nat, alts: seq<string>): (r: Option<nat>)
    requires NonEmptyAll(alts)
    ensures r.Some? ==> i < r.value <= |s|
    decreases |alts|
  {
    if alts == [] then None
    else
      match Lit(s, i, alts[0])
      case Some(j) => Some(j)
      case None => FirstLit(s, i, alts[1..])
  }

  /** How many digits, up to `max`, start at `i`. */
  function DigitCount(s: string, i: nat, max: nat): (n: nat)
    requires i <= |s|
    ensures n <= max && i + n <= |s|
    ensures forall k :: i <= k < i + n ==> IsDigit(s[k])
    decreases max
  {
    if max == 0 || i == |s| || !IsDigit(s[i]) then 0 else 1 + DigitCount(s, i + 1, max - 1)
  }

  /** `\d{lo,hi}`, greedy: its end. */
  function Digits(s: string, i: nat, lo: nat, hi: nat): (r: Option<nat>)
    requires i <= |s|
    ensures r.Some? ==> i + lo <= r.value <= |s|
  {
    var n := DigitCount(s, i, hi);
    if n >= lo then Some(i + n) else None
  }

  predicate IsDigitOrComma(c: char) { IsDigit(c) || c == ',' }

  /** `(?:\.\d{2})?` */
  function Cents(s: string, i: nat): (j: nat)
    requires i <= |s|
    ensures i <= j <= |s|
  {
    if i + 3 <= |s| && s[i] == '.' && IsDigit(s[i + 1]) && IsDigit(s[i + 2]) then i + 3 else i
  }

  /** `\$[\d,]+(?:\.\d{2})?`: the end of the amount. */
  function DollarAmount(s: string, i: nat): (r: Option<nat>)
    requires i <= |s|
    ensures r.Some? ==> i < r.value <= |s|
  {
    var a :- Lit(s, i, "$");
    var b :- Run1(s, a, IsDigitOrComma);
    Some(Cents(s, b))
  }

  function WholeMatch(p: nat, end: nat): Hit {
    Hit(end, Span(p, end))
  }

  function MatchPriceDollar(s: string, p: nat): (r: Option<Hit>)
    requires p <= |s|
    ensures r.Some? ==> HitWithin(s, p, r.value)
  {
    var e :- DollarAmount(s, p);
    match FirstLit(s, Ws(s, e), ["per person", "pp", "p/p"])
    case Some(f) => Some(WholeMatch(p, f))
    case None => Some(WholeMatch(p, e))
  }

  /** The two labelled price patterns: a label, `\s*`, then the dollar amount. */
  function MatchLabelledPrice(s: string, p: nat, labels: seq<string>): (r: Option<Hit>)
    requires p <= |s|
    requires NonEmptyAll(labels)
    ensures r.Some? ==> HitWithin(s, p, r.value)
  {
    var q :- FirstLit(s, p, labels);
    var e :- DollarAmount(s, Ws(s, q));
    Some(WholeMatch(p, e))
  }

  predicate IsDateChar(c: char) { IsWordChar(c) || IsSpace(c) || c == ',' || c == '.' || c == '&' }

  /** The largest `d` in `[lo, hi - 1)` where two digits start. */
  function LastDigitPair(s: string, lo: nat, hi: nat): (r: Option<nat>)
    requires hi <= |s|
    ensures r.Some? ==> (lo <= r.value && r.value + 2 <= hi
      && IsDigit(s[r.value]) && IsDigit(s[r.value + 1]))
    decreases hi
  {
    if hi < lo + 2 then None
    else if IsDigit(s[hi - 2]) && IsDigit(s[hi - 1]) then Some(hi - 2)
    else LastDigitPair(s, lo, hi - 1)
  }

  /** No digit pair of `[lo, hi)` lies after the one `LastDigitPair` picks. */
  lemma {:induction false} LastDigitPairLast(s: string, lo: nat, hi: nat)
    requires hi <= |s|
    ensures forall d :: (lo <= d && d + 2 <= hi && IsDigit(s[d]) && IsDigit(s[d + 1])) ==>
      LastDigitPair(s, lo, hi).Some? && d <= LastDigitPair(s, lo, hi).value
    decreases hi
  {
    if hi >= lo + 2 && !(IsDigit(s[hi - 2]) && IsDigit(s[hi - 1])) {
      LastDigitPairLast(s, lo, hi - 1);
    }
  }

  /** `\s*([\w\s,.&]+\d{2,4})` tried at `q`. The greedy class run (which contains digits and
      whitespace, line feeds included) stops at `e`; the engine then gives characters back until
      two digits follow a non-empty prefix, so the group ends at the LAST digit pair of the run
      that is not at its first position (a third digit would make a later pair). Failing that,
      `\s*` gives back one whitespace character, which can only help when the run itself starts
      with a digit pair. */
  function DateGroup(s: string, q: nat): (r: Option<Span>)
    requires q <= |s|
    ensures r.Some? ==> q <= r.value.start < r.value.end <= |s|
  {
    var w := Ws(s, q);
    var e := RunEnd(s, w, IsDateChar);
    match LastDigitPair(s, w + 1, e)
    case Some(d) => Some(Span(w, d + 2))
    case None =>
      if w > q && w + 2 <= |s| && IsDigit(s[w]) && IsDigit(s[w + 1]) then Some(Span(w - 1, w + 2))
      else None
  }

  function GroupHit(g: Span): Hit {
    Hit(g.end, g)
  }

  /** `(?:date:|on:?)` then the date group. When `on:` is followed by no date, retrying without
      the colon cannot help: the group would have to start at the colon, outside its class. */
  function MatchDateLabelled(s: string, p: nat): (r: Option<Hit>)
    requires p <= |s|
    ensures r.Some? ==> HitWithin(s, p, r.value)
  {
    match Lit(s, p, "date:")
    case Some(q) =>
      var g :- DateGroup(s, q);
      Some(GroupHit(g))
    case None =>
      var q :- Lit(s, p, "on");
      var g :- DateGroup(s, OptLit(s, q, ":"));
      Some(GroupHit(g))
  }

  predicate IsDateSeparator(c: char) { c == '.' || c == '/' }

  /** One `[./]`. */
  function Separator(s: string, i: nat): (r: Option<nat>)
    requires i <= |s|
    ensures r.Some? ==> r.value == i + 1 <= |s|
  {
    if i < |s| && IsDateSeparator(s[i]) then Some(i + 1) else None
  }

  /** `\d{1,2}[./]\d{1,2}[./]\d{2,4}`. Giving back the second of two digits leaves a digit where
      a separator is needed, so the greedy counts are the only candidates. */
  function MatchDateNumeric(s: string, p: nat): (r: Option<Hit>)
    requires p <= |s|
    ensures r.Some? ==> HitWithin(s, p, r.value)
  {
    var a :- Digits(s, p, 1, 2);
    var b :- Separator(s, a);
    var c :- Digits(s, b, 1, 2);
    var d :- Separator(s, c);
    var e :- Digits(s, d, 2, 4);
    Some(WholeMatch(p, e))
  }

  /** `[A-Z][a-z]+ \d{1,2}(?:st|nd|rd|th)?,? \d{4}` (both classes mean any letter). */
  function MatchDateWritten(s: string, p: nat): (r: Option<Hit>)
    requires p <= |s|
    ensures r.Some? ==> HitWithin(s, p, r.value)
  {
    if p < |s| && IsLetter(s[p]) then
      var a :- Run1(s, p + 1, IsLetter);
      var b :- Lit(s, a, " ");
      var c :- Digits(s, b, 1, 2);
      var d := match FirstLit(s, c, ["st", "nd", "rd", "th"]) case Some(x) => x case None => c;
      var e :- Lit(s, OptLit(s, d, ","), " ");
      var f :- Digits(s, e, 4, 4);
      Some(WholeMatch(p, f))
    else None
  }

  /** `\s*([^\n]+)` at `q` as a hit: the group ends the match. */
  function LineHit(s: string, q: nat): (r: Option<Hit>)
    requires q <= |s|
    ensures r.Some? ==> q <= r.value.group.start < r.value.group.end == r.value.end <= |s|
  {
    var g :- SpacesThenLine(s, q);
    Some(GroupHit(g))
  }

  /** `(?:time[s]?:|at:?)\s*([^\n]+)`. After `at:` with nothing but line feeds left, the engine
      drops the optional colon and the group is the colon itself. */
  function MatchTimeLabelled(s: string, p: nat): (r: Option<Hit>)
    requires p <= |s|
    ensures r.Some? ==> HitWithin(s, p, r.value)
    ensures r.Some? ==> r.value.group.start < r.value.group.end == r.value.end
  {
    match FirstLit(s, p, ["times:", "time:"])
    case Some(q) => LineHit(s, q)
    case None =>
      var q :- Lit(s, p, "at");
      if q < |s| && s[q] == ':' && SpacesThenLine(s, q + 1).Some? then LineHit(s, q + 1)
      else LineHit(s, q)
  }

  /** `at:?` has no word boundary: on the line `Date: May 5` the time pattern finds the "at"
      of "Date" (and nothing at the line's start), and captures `e: May 5`. */
  lemma TimeInsideDate()
    ensures MatchTimeLabelled("Date: May 5", 0).None?
    ensures MatchTimeLabelled("Date: May 5", 1) == Some(Hit(11, Span(3, 11)))
  {
    var s := "Date: May 5";
    assert FirstLit(s, 0, ["times:", "time:"]).None? && Lit(s, 0, "at").None?;
    assert FirstLit(s, 1, ["times:", "time:"]).None? && Lit(s, 1, "at") == Some(3);
    assert s[3] == 'e' && Ws(s, 3) == 3;
    assert LineEnd(s, 3) == 11 by {
      assert forall k :: 3 <= k < |s| ==> s[k] != '\n';
    }
  }

  /** `\d{1,2}:\d{2}\s*(?:AM|PM|am|pm)`: its end. */
  function Clock(s: string, i: nat): (r: Option<nat>)
    requires i <= |s|
    ensures r.Some? ==> i < r.value <= |s|
  {
    var a :- Digits(s, i, 1, 2);
    var b :- Lit(s, a, ":");
    var c :- Digits(s, b, 2, 2);
    FirstLit(s, Ws(s, c), ["am", "pm"])
  }

  /** A clock time, optionally followed by `\s*-\s*` and a second clock time (taken when present). */
  function MatchTimeClock(s: string, p: nat): (r: Option<Hit>)
    requires p <= |s|
    ensures r.Some? ==> HitWithin(s, p, r.value)
  {
    var e :- Clock(s, p);
    var dash := Lit(s, Ws(s, e), "-");
    var range := if dash.Some? then Clock(s, Ws(s, dash.value)) else None;
    match range
    case Some(f) => Some(WholeMatch(p, f))
    case None => Some(WholeMatch(p, e))
  }

  /** A label alternation followed by `\s*(\d+)`. */
  function MatchLabelledDigits(s: string, p: nat, labels: seq<string>): (r: Option<Hit>)
    requires p <= |s|
    requires NonEmptyAll(labels)
    ensures r.Some? ==> HitWithin(s, p, r.value)
    ensures r.Some? ==> r.value.group.start < r.value.group.end
    ensures r.Some? ==> forall k :: r.value.group.start <= k < r.value.group.end ==> IsDigit(s[k])
  {
    var q :- FirstLit(s, p, labels);
    var w := Ws(s, q);
    var e :- Run1(s, w, IsDigit);
    Some(GroupHit(Span(w, e)))
  }

  /** `(?:for|serving)\s+(\d+)\s+(?:people|guests|attendees)` */
  function MatchGuestsServing(s: string, p: nat): (r: Option<Hit>)
    requires p <= |s|
    ensures r.Some? ==> HitWithin(s, p, r.value)
  {
    var q :- FirstLit(s, p, ["for", "serving"]);
    var w := Ws(s, q);
    if w == q then None
    else
      var e :- Run1(s, w, IsDigit);
      var w2 := Ws(s, e);
      if w2 == e then None
      else
        var f :- FirstLit(s, w2, ["people", "guests", "attendees"]);
        Some(Hit(f, Span(w, e)))
  }

  /** A label alternation followed by `\s*([^\n]+)`. */
  function MatchLabelledLine(s: string, p: nat, labels: seq<string>): (r: Option<Hit>)
    requires p <= |s|
    requires NonEmptyAll(labels)
    ensures r.Some? ==> HitWithin(s, p, r.value)
  {
    var q :- FirstLit(s, p, labels);
    LineHit(s, q)
  }

  /** The look-ahead `(?!\w+:)` fails at `i`: a label such as `Contact:` starts the line. */
  predicate LabelAt(s: string, i: nat)
    requires i <= |s|
  {
    var e := RunEnd(s, i, IsWordChar);
    e > i && e < |s| && s[e] == ':'
  }

  /** `(?:\n(?!\w+:)[^\n]+)*` from `i`: the end of the continuation lines, taken greedily. */
  function ContinuationEnd(s: string, i: nat): (j: nat)
    requires i <= |s|
    ensures i <= j <= |s|
    decreases |s| - i
  {
    if i + 1 < |s| && s[i] == '\n' && s[i + 1] != '\n' && !LabelAt(s, i + 1) then
      ContinuationEnd(s, LineEnd(s, i + 1))
    else i
  }

  /** `(?:setup|set up|setup notes):\s*([^\n]+(?:\n(?!\w+:)[^\n]+)*)` */
  function MatchSetup(s: string, p: nat): (r: Option<Hit>)
    requires p <= |s|
    ensures r.Some? ==> HitWithin(s, p, r.value)
  {
    var q :- FirstLit(s, p, ["setup:", "set up:", "setup notes:"]);
    var g :- SpacesThenLine(s, q);
    var e := ContinuationEnd(s, g.end);
    Some(GroupHit(Span(g.start, e)))
  }

  predicate IsAlnum(c: char) { IsLetter(c) || IsDigit(c) }

  /** `:?\s*([A-Z0-9]+)` at `i`. */
  function InvoiceGroup(s: string, i: nat): (r: Option<Span>)
    requires i <= |s|
    ensures r.Some? ==> i <= r.value.start < r.value.end <= |s|
  {
    var w := Ws(s, OptLit(s, i, ":"));
    var e :- Run1(s, w, IsAlnum);
    Some(Span(w, e))
  }

  /** `invoice\s*(?:no|number|#)?:?\s*([A-Z0-9]+)`: the optional word is tried as `no`, `number`,
      `#` and then left out, the first choice after which the rest matches being kept. */
  function MatchInvoice(s: string, p: nat): (r: Option<Hit>)
    requires p <= |s|
    ensures r.Some? ==> HitWithin(s, p, r.value)
  {
    var k :- Lit(s, p, "invoice");
    var q := Ws(s, k);
    var afterNo := if Lit(s, q, "no").Some? then InvoiceGroup(s, q + 2) else None;
    var afterNumber := if Lit(s, q, "number").Some? then InvoiceGroup(s, q + 6) else None;
    var afterHash := if Lit(s, q, "#").Some? then InvoiceGroup(s, q + 1) else None;
    var g :- if afterNo.Some? then afterNo
             else if afterNumber.Some? then afterNumber
             else if afterHash.Some? then afterHash
             else InvoiceGroup(s, q);
    Some(GroupHit(g))
  }

  predicate IsLocalChar(c: char) { IsAlnum(c) || c == '.' || c == '_' || c == '%' || c == '+' || c == '-' }

  predicate IsDomainChar(c: char) { IsAlnum(c) || c == '.' || c == '-' }

  /** A dot at `d` followed by two letters: where `\.[a-zA-Z]{2,}` can start. */
  predicate DotLetters(s: string, d: nat) {
    d + 3 <= |s| && s[d] == '.' && IsLetter(s[d + 1]) && IsLetter(s[d + 2])
  }

  /** The largest `d` in `[lo, hi)` holding a dot followed by two letters. */
  function LastDot(s: string, lo: nat, hi: nat): (r: Option<nat>)
    ensures r.Some? ==> lo <= r.value < hi && DotLetters(s, r.value)
    decreases hi
  {
    if hi <= lo then None
    else if DotLetters(s, hi - 1) then Some(hi - 1)
    else LastDot(s, lo, hi - 1)
  }

  /** No dot of `[lo, hi)` followed by two letters lies after the one `LastDot` picks. */
  lemma {:induction false} LastDotLast(s: string, lo: nat, hi: nat)
    ensures forall d :: lo <= d < hi && DotLetters(s, d) ==>
      LastDot(s, lo, hi).Some? && d <= LastDot(s, lo, hi).value
    decreases hi
  {
    if hi > lo && !DotLetters(s, hi - 1) {
      LastDotLast(s, lo, hi - 1);
    }
  }

  /** `[a-zA-Z0-9._%+-]+@[a-zA-Z0-9.-]+\.[a-zA-Z]{2,}` at `i`. The local part has to run up to
      the `@`; the domain run is given back until a dot followed by two letters, so the
      top-level domain starts after the LAST such dot. */
  function Address(s: string, i: nat): (r: Option<Span>)
    requires i <= |s|
    ensures r.Some? ==> i < r.value.end <= |s| && r.value.start == i
  {
    var at := RunEnd(s, i, IsLocalChar);
    if at == i || at == |s| || s[at] != '@' then None
    else
      var e := RunEnd(s, at + 1, IsDomainChar);
      var d :- LastDot(s, at + 2, e);
      Some(Span(i, RunEnd(s, d + 1, IsLetter)))
  }

  function MatchEmailLabelled(s: string, p: nat): (r: Option<Hit>)
    requires p <= |s|
    ensures r.Some? ==> HitWithin(s, p, r.value)
  {
    var q :- FirstLit(s, p, ["email:", "e-mail:"]);
    var g :- Address(s, Ws(s, q));
    Some(GroupHit(g))
  }

  function MatchEmailBare(s: string, p: nat): (r: Option<Hit>)
    requires p <= |s|
    ensures r.Some? ==> HitWithin(s, p, r.value)
  {
    var g :- Address(s, p);
    Some(GroupHit(g))
  }

  predicate IsPhoneChar(c: char) { IsDigit(c) || c == '.' || c == '(' || c == ')' || c == '-' }

  function MatchPhoneLabelled(s: string, p: nat): (r: Option<Hit>)
    requires p <= |s|
    ensures r.Some? ==> HitWithin(s, p, r.value)
  {
    var q :- FirstLit(s, p, ["phone:", "cell:", "tel:"]);
    var w := Ws(s, q);
    var e :- Run1(s, w, IsPhoneChar);
    Some(GroupHit(Span(w, e)))
  }

  predicate NotColon(c: char) { c != ':' }

  /** `(?:phone|cell|tel)[^:]*:\s*([^\n]+)`: `[^:]*` runs to the first colon, across lines. */
  function MatchPhoneDescribed(s: string, p: nat): (r: Option<Hit>)
    requires p <= |s|
    ensures r.Some? ==> HitWithin(s, p, r.value)
  {
    var k :- FirstLit(s, p, ["phone", "cell", "tel"]);
    var c := RunEnd(s, k, NotColon);
    if c == |s| then None else LineHit(s, c + 1)
  }

  /** The engine's attempts of `pat` over the text `s`, as a function of the position `p`: the
      end of the match found at `p` and the span of its capture group, or `None`. */
  function Matcher(pat: Pattern, s: string): nat -> Option<Hit> {
    match pat
    case PriceDollar => (p: nat) => if p <= |s| then MatchPriceDollar(s, p) else None
    case PriceLabelled =>
      (p: nat) => if p <= |s| then MatchLabelledPrice(s, p, ["price:", "cost:", "total:"]) else None
    case PricePerPersonLabelled =>
      (p: nat) => if p <= |s| then MatchLabelledPrice(s, p, ["per person:", "pp:", "p/p:"]) else None
    case DateLabelled => (p: nat) => if p <= |s| then MatchDateLabelled(s, p) else None
    case DateNumeric => (p: nat) => if p <= |s| then MatchDateNumeric(s, p) else None
    case DateWritten => (p: nat) => if p <= |s| then MatchDateWritten(s, p) else None
    case TimeLabelled => (p: nat) => if p <= |s| then MatchTimeLabelled(s, p) else None
    case TimeClock => (p: nat) => if p <= |s| then MatchTimeClock(s, p) else None
    case GuestsLabelled =>
      (p: nat) => if p <= |s|
        then MatchLabelledDigits(s, p, ["guests:", "guest:", "people:", "attendees:", "count:"])
        else None
    case GuestsServing => (p: nat) => if p <= |s| then MatchGuestsServing(s, p) else None
    case GuestsText => (p: nat) => if p <= |s| then MatchLabelledLine(s, p, ["guests:", "guest:"]) else None
    case LocationLabelled =>
      (p: nat) => if p <= |s| then MatchLabelledLine(s, p, ["location:", "venue:", "place:"]) else None
    case SetupLabelled => (p: nat) => if p <= |s| then MatchSetup(s, p) else None
    case InvoiceLabelled => (p: nat) => if p <= |s| then MatchInvoice(s, p) else None
    case ContactLabelled =>
      (p: nat) => if p <= |s| then MatchLabelledLine(s, p, ["contact:", "contact person:"]) else None
    case EmailLabelled => (p: nat) => if p <= |s| then MatchEmailLabelled(s, p) else None
    case EmailBare => (p: nat) => if p <= |s| then MatchEmailBare(s, p) else None
    case PhoneLabelled => (p: nat) => if p <= |s| then MatchPhoneLabelled(s, p) else None
    case PhoneDescribed => (p: nat) => if p <= |s| then MatchPhoneDescribed(s, p) else None
  }

  /** Every attempt that succeeds consumes at least one character of a text of length `n`. */
  predicate Advances(m: nat -> Option<Hit>, n: nat) {
    forall q: nat :: q <= n && m(q).Some? ==> (q < m(q).value.end <= n
      && q <= m(q).value.group.start <= m(q).value.group.end <= m(q).value.end)
  }

  lemma MatcherAdvances(pat: Pattern, s: string)
    ensures Advances(Matcher(pat, s), |s|)
  {
    forall q: nat | q <= |s| && Matcher(pat, s)(q).Some?
      ensures HitWithin(s, q, Matcher(pat, s)(q).value)
    {
    }
  }

  /** One match reported by `re.finditer`. */
  datatype Occurrence = Occurrence(start: nat, end: nat, group: Span)

  predicate OccurrenceWithin(s: string, o: Occurrence) {
    o.start < o.end <= |s| && o.start <= o.group.start <= o.group.end <= o.end
  }

  /** The `finditer` loop over a text of length `n` from position `p`: try every position from
      the left; after a match, resume at its end. */
  function Occurrences(m: nat -> Option<Hit>, n: nat, p: nat): (r: seq<Occurrence>)
    requires Advances(m, n) && p <= n
    ensures forall k :: 0 <= k < |r| ==> (p <= r[k].start < r[k].end <= n
      && r[k].start <= r[k].group.start <= r[k].group.end <= r[k].end)
    decreases n - p
  {
    if p == n then []
    else
      match m(p)
      case Some(h) => [Occurrence(p, h.end, h.group)] + Occurrences(m, n, h.end)
      case None => Occurrences(m, n, p + 1)
  }

  /** `re.finditer(pat, s)`. */
  function FindAll(pat: Pattern, s: string): (r: seq<Occurrence>)
    ensures forall k :: 0 <= k < |r| ==> OccurrenceWithin(s, r[k])
  {
    MatcherAdvances(pat, s);
    Occurrences(Matcher(pat, s), |s|, 0)
  }

  /** Where the `k`-th gap between reported matches starts. */
  function GapStart(r: seq<Occurrence>, k: nat, p: nat): nat
    requires k <= |r|
  {
    if k == 0 then p else r[k - 1].end
  }

  /** Where the `k`-th gap between reported matches ends. */
  function GapEnd(r: seq<Occurrence>, k: nat, limit: nat): nat {
    if k < |r| then r[k].start else limit
  }

  /** The `finditer` contract, first part: every reported match is what the engine finds at
      its start, and the matches come left to right without overlapping. */
  lemma {:induction false} OccurrencesMatch(m: nat -> Option<Hit>, n: nat, p: nat)
    requires Advances(m, n) && p <= n
    ensures forall k :: 0 <= k < |Occurrences(m, n, p)| ==>
      m(Occurrences(m, n, p)[k].start)
        == Some(Hit(Occurrences(m, n, p)[k].end, Occurrences(m, n, p)[k].group))
    ensures forall k :: 0 <= k < |Occurrences(m, n, p)| - 1 ==>
      Occurrences(m, n, p)[k].end <= Occurrences(m, n, p)[k + 1].start
    decreases n - p
  {
    if p < n {
      match m(p)
      case Some(h) =>
        OccurrencesMatch(m, n, h.end);
        assert Occurrences(m, n, p) == [Occurrence(p, h.end, h.group)] + Occurrences(m, n, h.end);
      case None =>
        OccurrencesMatch(m, n, p + 1);
    }
  }

  /** The `finditer` contract, second part: no match starts before the first reported one, in
      a gap between two of them, or after the last. */
  lemma {:induction false} OccurrencesLeftmost(m: nat -> Option<Hit>, n: nat, p: nat)
    requires Advances(m, n) && p <= n
    ensures forall k, j: nat :: (0 <= k <= |Occurrences(m, n, p)|
      && GapStart(Occurrences(m, n, p), k, p) <= j < GapEnd(Occurrences(m, n, p), k, n)) ==>
      m(j).None?
    decreases n - p
  {
    var r := Occurrences(m, n, p);
    if p < n {
      match m(p)
      case Some(h) =>
        var rest := Occurrences(m, n, h.end);
        OccurrencesLeftmost(m, n, h.end);
        assert r == [Occurrence(p, h.end, h.group)] + rest;
        forall k, j: nat | 0 <= k <= |r| && GapStart(r, k, p) <= j < GapEnd(r, k, n)
          ensures m(j).None?
        {
          assert k > 0;
          assert GapStart(rest, k - 1, h.end) == GapStart(r, k, p);
          assert GapEnd(rest, k - 1, n) == GapEnd(r, k, n);
        }
      case None =>
        var rest := Occurrences(m, n, p + 1);
        OccurrencesLeftmost(m, n, p + 1);
        assert r == rest;
        forall k, j: nat | 0 <= k <= |r| && GapStart(r, k, p) <= j < GapEnd(r, k, n)
          ensures m(j).None?
        {
          if j > p {
            assert GapStart(rest, k, p + 1) <= j;
          }
        }
    }
  }

  /** The text a capture group holds. */
  function GroupText(s: string, o: Occurrence): string
    requires OccurrenceWithin(s, o)
  {
    s[o.group.start..o.group.end]
  }

  /** The text of the whole match (`match.group()`). */
  function MatchText(s: string, o: Occurrence): string
    requires OccurrenceWithin(s, o)
  {
    s[o.start..o.end]
  }
}
