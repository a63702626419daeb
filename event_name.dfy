/** Event-name resolution of `extract_event_details` (pdf_processor.py:267-305): an explicit
    label in the first 15 lines, else a header-like line among the first 10, else the file
    name; then the four searchable variations of the name. */
module EventName {
  import opened Text
  import opened Scan
  import opened MetadataPatterns

  /** `\s*(.+)$` tried at `q` on a line of the text (lines hold no line feed, so `.` is any
      character). When `\s*` swallows the rest of the line, it gives back one character. */
  function RestOfLine(s: string, q: nat): (r: Option<Span>)
    requires q <= |s|
    ensures r.Some? ==> q <= r.value.start < r.value.end == |s|
  {
    var w := Ws(s, q);
    if w < |s| then Some(Span(w, |s|))
    else if w > q then Some(Span(w - 1, |s|))
    else None
  }

  /** The three event-name patterns (pdf_processor.py:244-248), tried with `re.match`. */
  datatype EventLabel =
    | NameLabel       // ^(?:event|function|occasion):\s*(.+)$
    | NameFieldLabel  // ^(?:event|function|occasion)\s+name:\s*(.+)$
    | CateringLabel   // (?:catering|menu)\s+for:\s*(.+)$

  const EventLabels: seq<EventLabel> := [NameLabel, NameFieldLabel, CateringLabel]

  /** A label word, `\s+`, a literal, then the rest of the line. */
  function WordsThenRest(line: string, words: seq<string>, lit: string): (r: Option<Span>)
    requires NonEmptyAll(words)
    ensures r.Some? ==> r.value.start < r.value.end == |line|
  {
    var q :- FirstLit(line, 0, words);
    var w := Ws(line, q);
    if w == q then None
    else
      var k :- Lit(line, w, lit);
      RestOfLine(line, k)
  }

  /** The group of `lab` matched at the start of `line`. */
  function LabelGroup(lab: EventLabel, line: string): (r: Option<Span>)
    ensures r.Some? ==> r.value.start < r.value.end == |line|
  {
    match lab
    case NameLabel =>
      var q :- FirstLit(line, 0, ["event:", "function:", "occasion:"]);
      RestOfLine(line, q)
    case NameFieldLabel => WordsThenRest(line, ["event", "function", "occasion"], "name:")
    case CateringLabel => WordsThenRest(line, ["catering", "menu"], "for:")
  }

  /** `match.group(1).strip()` when `lab` matches `line`. */
  function LabelMatch(lab: EventLabel, line: string): Option<string> {
    var g :- LabelGroup(lab, line);
    Some(Strip(line[g.start..g.end]))
  }

  /** The first of the labels `EventLabels[k..]` that matches `line`. */
  function LabelFrom(line: string, k: nat): Option<string>
    requires k <= |EventLabels|
    decreases |EventLabels| - k
  {
    if k == |EventLabels| then None
    else
      match LabelMatch(EventLabels[k], line)
      case Some(n) => Some(n)
      case None => LabelFrom(line, k + 1)
  }

  /** The inner pattern loop (pdf_processor.py:274-279). */
  method MatchLabels(line: string) returns (r: Option<string>)
    ensures r == LabelFrom(line, 0)
  {
    r := None;
    for k := 0 to |EventLabels|
      invariant LabelFrom(line, 0) == LabelFrom(line, k)
    {
      var m := LabelMatch(EventLabels[k], line);
      if m.Some? {
        r := m;
        return;
      }
    }
  }

  /** A line stripped of outer whitespace that carries a label yields a non-empty name. */
  lemma {:induction false} LabelNonEmpty(line: string, k: nat)
    requires k <= |EventLabels|
    requires line == [] || (!IsSpace(line[0]) && !IsSpace(line[|line| - 1]))
    ensures LabelFrom(line, k).Some? ==> LabelFrom(line, k).value != []
    decreases |EventLabels| - k
  {
    if k < |EventLabels| {
      LabelMatchNonEmpty(EventLabels[k], line);
      LabelNonEmpty(line, k + 1);
    }
  }

  lemma LabelMatchNonEmpty(lab: EventLabel, line: string)
    requires line == [] || !IsSpace(line[|line| - 1])
    ensures LabelMatch(lab, line).Some? ==> LabelMatch(lab, line).value != []
  {
    TailGroupNonEmpty(line, LabelGroup(lab, line));
  }

  /** A group that ends the line, stripped, keeps the line's last character. */
  lemma TailGroupNonEmpty(line: string, g: Option<Span>)
    requires line == [] || !IsSpace(line[|line| - 1])
    requires g.Some? ==> g.value.start < g.value.end == |line|
    ensures g.Some? ==> Strip(line[g.value.start..g.value.end]) != []
  {
    if g.Some? {
      var grp := line[g.value.start..g.value.end];
      assert grp[|grp| - 1] == line[|line| - 1];
      StripNonEmpty(grp, |grp| - 1);
    }
  }

  /** `lines[:n]` */
  function Take(lines: seq<string>, n: nat): (r: seq<string>)
    ensures |r| <= n && |r| <= |lines| && r == lines[..|r|]
    ensures |r| == n || r == lines
  {
    if |lines| <= n then lines else lines[..n]
  }

  /** The label name a raw line carries, once stripped. */
  function LineLabel(raw: string): Option<string> {
    LabelFrom(Strip(raw), 0)
  }

  /** The label tokens a header line must not contain (pdf_processor.py:289). */
  const LabelTokens: seq<string> := ["date:", "time:", "price:", "location:", "menu:", "contact:"]

  /** A label found on a line always names something. */
  lemma LineLabelNonEmpty(raw: string)
    ensures LineLabel(raw).Some? ==> LineLabel(raw).value != []
  {
    LabelNonEmpty(Strip(raw), 0);
  }

  /** The header heuristic (pdf_processor.py:288-291), on a stripped line. */
  predicate LooksLikeTitle(line: string) {
    |line| > 10
    && !ContainsAny(LowerStr(line), LabelTokens)
    && !StartsWith(line, "$")
    && !IsDigit(line[0])
  }

  /** A raw line, stripped, when it looks like a title. */
  function LineTitle(raw: string): (r: Option<string>)
    ensures r.Some? ==> LooksLikeTitle(r.value)
  {
    if LooksLikeTitle(Strip(raw)) then Some(Strip(raw)) else None
  }

  /** `filename.replace('.pdf', '').replace('_', ' ').title()` */
  function FileTitle(filename: string): string {
    Title(ReplaceChar(ReplaceAll(filename, ".pdf", ""), '_', ' '))
  }

  /** The resolved event name: the first labelled line of the first 15, else the first
      title-like line of the first 10, else (also when the label was empty) the file title. */
  function ResolvedName(lines: seq<string>, filename: string): string {
    ResolveWith(lines, filename, LineLabel, LineTitle)
  }

  /** The precedence of `ResolvedName`, for any reading of labels and titles off a line. */
  function ResolveWith(lines: seq<string>, filename: string,
                       labelOf: string -> Option<string>, titleOf: string -> Option<string>): string {
    var chosen :=
      match FirstSome(Take(lines, 15), 0, labelOf)
      case Some(n) => n
      case None =>
        match FirstSome(Take(lines, 10), 0, titleOf)
        case Some(n) => n
        case None => [];
    if chosen == [] then FileTitle(filename) else chosen
  }

  /** The name loops of `extract_event_details` (pdf_processor.py:268-297). */
  method ResolveEventName(lines: seq<string>, filename: string) returns (name: string)
    ensures name == ResolvedName(lines, filename)
  {
    name := "";
    var found := false;
    var head := Take(lines, 15);
    for i := 0 to |head|
      invariant !found ==> name == []
      invariant FirstSome(head, 0, LineLabel) == if found then Some(name) else FirstSome(head, i, LineLabel)
    {
      var m := MatchLabels(Strip(head[i]));
      if m.Some? {
        name := m.value;
        found := true;
        break;
      }
    }
    if !found {
      var top := Take(lines, 10);
      for i := 0 to |top|
        invariant FirstSome(top, 0, LineTitle) == if name == [] then FirstSome(top, i, LineTitle) else Some(name)
      {
        var line := Strip(top[i]);
        if LooksLikeTitle(line) {
          name := line;
          break;
        }
      }
    }
    if name == [] {
      name := FileTitle(filename);
    }
  }

  /** Precedence, first case: the first labelled line among the first 15 names the event. */
  lemma LabelledLineWins(lines: seq<string>, filename: string, k: nat)
    requires k < |Take(lines, 15)|
    requires LineLabel(lines[k]).Some?
    requires forall j :: 0 <= j < k ==> LineLabel(lines[j]).None?
    ensures ResolvedName(lines, filename) == LineLabel(lines[k]).value
  {
    LineLabelNonEmpty(lines[k]);
    LabelWinsWith(lines, filename, LineLabel, LineTitle, k);
  }

  lemma LabelWinsWith(lines: seq<string>, filename: string,
                      labelOf: string -> Option<string>, titleOf: string -> Option<string>, k: nat)
    requires k < |Take(lines, 15)|
    requires labelOf(lines[k]).Some? && labelOf(lines[k]).value != []
    requires forall j :: 0 <= j < k ==> labelOf(lines[j]).None?
    ensures ResolveWith(lines, filename, labelOf, titleOf) == labelOf(lines[k]).value
  {
    FirstSomeAt(Take(lines, 15), 0, labelOf, k);
  }

  /** Precedence, second case: with no labelled line among the first 15, the first title-like
      line among the first 10 names the event. */
  lemma TitleLineWins(lines: seq<string>, filename: string, k: nat)
    requires forall j :: 0 <= j < |Take(lines, 15)| ==> LineLabel(lines[j]).None?
    requires k < |Take(lines, 10)| && LooksLikeTitle(Strip(lines[k]))
    requires forall j :: 0 <= j < k ==> !LooksLikeTitle(Strip(lines[j]))
    ensures ResolvedName(lines, filename) == Strip(lines[k])
  {
    TitleWinsWith(lines, filename, LineLabel, LineTitle, k);
  }

  lemma TitleWinsWith(lines: seq<string>, filename: string,
                      labelOf: string -> Option<string>, titleOf: string -> Option<string>, k: nat)
    requires forall j :: 0 <= j < |Take(lines, 15)| ==> labelOf(lines[j]).None?
    requires k < |Take(lines, 10)| && titleOf(lines[k]).Some? && titleOf(lines[k]).value != []
    requires forall j :: 0 <= j < k ==> titleOf(lines[j]).None?
    ensures ResolveWith(lines, filename, labelOf, titleOf) == titleOf(lines[k]).value
  {
    FirstSomeNone(Take(lines, 15), 0, labelOf);
    FirstSomeAt(Take(lines, 10), 0, titleOf, k);
  }

  /** Precedence, last case: with neither, the name comes from the file name. */
  lemma FileNameFallback(lines: seq<string>, filename: string)
    requires forall j :: 0 <= j < |Take(lines, 15)| ==> LineLabel(lines[j]).None?
    requires forall j :: 0 <= j < |Take(lines, 10)| ==> !LooksLikeTitle(Strip(lines[j]))
    ensures ResolvedName(lines, filename) == FileTitle(filename)
  {
    FirstSomeNone(Take(lines, 15), 0, LineLabel);
    FirstSomeNone(Take(lines, 10), 0, LineTitle);
  }

  /** `word for word in name.split() if len(word) > 2` */
  function LongWords(ws: seq<string>): seq<string>
  {
    if ws == [] then []
    else (if |ws[0]| > 2 then [ws[0]] else []) + LongWords(ws[1..])
  }

  /** The filter keeps exactly the words longer than two characters. */
  lemma {:induction false} LongWordsMembers(ws: seq<string>)
    ensures forall k :: 0 <= k < |LongWords(ws)| ==> |LongWords(ws)[k]| > 2 && LongWords(ws)[k] in ws
    ensures forall w :: w in ws && |w| > 2 ==> w in LongWords(ws)
    decreases |ws|
  {
    if ws != [] {
      LongWordsMembers(ws[1..]);
      var head := if |ws[0]| > 2 then [ws[0]] else [];
      var rest := LongWords(ws[1..]);
      var r := LongWords(ws);
      assert r == head + rest;
      forall k | 0 <= k < |r| ensures |r[k]| > 2 && r[k] in ws {
        if k >= |head| {
          assert r[k] == rest[k - |head|];
        }
      }
      forall w | w in ws && |w| > 2 ensures w in r {
        if w != ws[0] {
          assert w in ws[1..];
        }
      }
    }
  }

  /** The filter keeps order and duplicates: the result for a concatenation is the
      concatenation of the results. */
  lemma {:induction false} LongWordsAppend(a: seq<string>, b: seq<string>)
    ensures LongWords(a + b) == LongWords(a) + LongWords(b)
    decreases |a|
  {
    if a != [] {
      var head := if |a[0]| > 2 then [a[0]] else [];
      assert (a + b)[0] == a[0] && (a + b)[1..] == a[1..] + b;
      calc {
        LongWords(a + b);
        head + LongWords(a[1..] + b);
        { LongWordsAppend(a[1..], b); }
        head + (LongWords(a[1..]) + LongWords(b));
        LongWords(a) + LongWords(b);
      }
    } else {
      assert a + b == b;
    }
  }

  /** A single word is kept exactly when it is longer than two characters. */
  lemma LongWordsOne(w: string)
    ensures LongWords([w]) == if |w| > 2 then [w] else []
  {
    assert [w][1..] == [];
  }

  /** The four `event_name_variations` (pdf_processor.py:300-305), in order: the name, the name
      lower-cased, the name without punctuation and lower-cased, and its words longer than two
      characters joined by spaces. */
  function Variations(name: string): (r: seq<string>)
    ensures |r| == 4 && r[0] == name
    ensures |r[1]| == |name| && forall k :: 0 <= k < |name| ==> r[1][k] == Lower(name[k])
    ensures r[2] == LowerStr(KeepWordsAndSpaces(name))
    ensures forall k :: 0 <= k < |r[2]| ==>
      (IsWordChar(r[2][k]) || IsSpace(r[2][k])) && !('A' <= r[2][k] <= 'Z')
    ensures r[3] == Join(LongWords(Words(name)), ' ')
  {
    var plain := KeepWordsAndSpaces(name);
    assert forall k :: 0 <= k < |plain| ==> IsWordChar(Lower(plain[k])) || IsSpace(Lower(plain[k]));
    [name, LowerStr(name), LowerStr(plain), Join(LongWords(Words(name)), ' ')]
  }
}
