/** The menu-section scan of `extract_event_details` (pdf_processor.py:322-342): a state
    machine over the stripped lines that collects the lines after each menu header into an
    insertion-ordered dictionary keyed by the header line. */
module Menu {
  import opened Text

  /** One entry of `menu_sections`: a header line and the lines collected under it. */
  datatype Section = Section(header: string, items: seq<string>)

  /** The words of the header regex `menu|breakfast|...|beverages`, searched case-insensitively. */
  const MenuKeywords: seq<string> :=
    ["menu", "breakfast", "lunch", "dinner", "appetizers", "entrees", "desserts", "beverages"]

  /** The prefixes that keep a line out of a section (case-sensitive `startswith`). */
  const NonItemPrefixes: seq<string> := ["$", "Price", "Total", "Contact", "Phone", "Email"]

  predicate IsMenuHeader(line: string) { ContainsAny(LowerStr(line), MenuKeywords) }

  predicate IsNonItem(line: string) { StartsWithAny(line, NonItemPrefixes) }

  /** What a section may hold: non-blank stripped lines that are neither headers nor excluded. */
  predicate IsItemLine(line: string) {
    line != [] && line == Strip(line) && !IsMenuHeader(line) && !IsNonItem(line)
  }

  /** The position of `key` among the section headers, if present. */
  function KeyIndex(sections: seq<Section>, key: string, i: nat): (r: Option<nat>)
    requires i <= |sections|
    ensures r.Some? ==> i <= r.value < |sections| && sections[r.value].header == key
    ensures r.None? ==> forall j :: i <= j < |sections| ==> sections[j].header != key
    decreases |sections| - i
  {
    if i == |sections| then None
    else if sections[i].header == key then Some(i)
    else KeyIndex(sections, key, i + 1)
  }

  function Keys(sections: seq<Section>): (r: seq<string>)
    ensures |r| == |sections| && forall k :: 0 <= k < |sections| ==> r[k] == sections[k].header
  {
    seq(|sections|, k requires 0 <= k < |sections| => sections[k].header)
  }

  predicate UniqueKeys(sections: seq<Section>) {
    forall i, j :: 0 <= i < j < |sections| ==> sections[i].header != sections[j].header
  }

  /** `menu_sections[key] = []`: a new key goes last; an existing key keeps its place and
      loses its lines. */
  function ResetSection(sections: seq<Section>, key: string): (r: seq<Section>)
    ensures key in Keys(sections) ==> Keys(r) == Keys(sections)
    ensures key !in Keys(sections) ==> Keys(r) == Keys(sections) + [key]
    ensures UniqueKeys(sections) ==> UniqueKeys(r) && forall k :: 0 <= k < |r| ==>
      r[k] == if r[k].header == key then Section(key, []) else sections[k]
  {
    match KeyIndex(sections, key, 0)
    case Some(i) =>
      assert key in Keys(sections) by { assert Keys(sections)[i] == key; }
      assert Keys(sections[i := Section(key, [])]) == Keys(sections);
      sections[i := Section(key, [])]
    case None =>
      assert Keys(sections + [Section(key, [])]) == Keys(sections) + [key];
      sections + [Section(key, [])]
  }

  /** `menu_sections[key].append(item)`. */
  function AppendItem(sections: seq<Section>, key: string, item: string): (r: seq<Section>)
    requires key in Keys(sections)
    ensures Keys(r) == Keys(sections)
    ensures UniqueKeys(sections) ==> forall k :: 0 <= k < |r| ==>
      r[k] == if r[k].header == key then Section(key, sections[k].items + [item]) else sections[k]
  {
    var i := KeyIndex(sections, key, 0).value;
    assert Keys(sections[i := Section(key, sections[i].items + [item])]) == Keys(sections);
    sections[i := Section(key, sections[i].items + [item])]
  }

  /** The loop state: `menu_section`, `current_section` and `menu_sections`. */
  datatype MenuState = MenuState(inMenu: bool, current: string, sections: seq<Section>)

  const Start := MenuState(false, "", [])

  /** One iteration of the loop (pdf_processor.py:328-339). */
  function MenuStep(st: MenuState, raw: string): MenuState {
    var line := Strip(raw);
    if line == [] then st
    else if IsMenuHeader(line) then MenuState(true, line, ResetSection(st.sections, line))
    else if st.inMenu && !IsNonItem(line) && st.current in Keys(st.sections) then
      st.(sections := AppendItem(st.sections, st.current, line))
    else st
  }

  function MenuScan(lines: seq<string>): MenuState
    decreases |lines|
  {
    if lines == [] then Start else MenuStep(MenuScan(lines[..|lines| - 1]), lines[|lines| - 1])
  }

  /** The menu loop of `extract_event_details`. */
  method ExtractMenuSections(lines: seq<string>) returns (menuSections: seq<Section>)
    ensures menuSections == MenuScan(lines).sections
  {
    var menuSection := false;
    var currentSection := "";
    menuSections := [];
    for i := 0 to |lines|
      invariant MenuState(menuSection, currentSection, menuSections) == MenuScan(lines[..i])
    {
      assert lines[..i + 1][..i] == lines[..i];
      var line := Strip(lines[i]);
      if line == [] {
        continue;
      }
      if IsMenuHeader(line) {
        menuSection := true;
        currentSection := line;
        menuSections := ResetSection(menuSections, line);
      } else if menuSection && !IsNonItem(line) {
        if currentSection in Keys(menuSections) {
          menuSections := AppendItem(menuSections, currentSection, line);
        }
      }
    }
    assert lines[..|lines|] == lines;
  }

  /** Distinct, non-blank menu-header lines as keys, and only item lines under them. */
  predicate SectionsWellFormed(sections: seq<Section>) {
    UniqueKeys(sections)
    && (forall k :: 0 <= k < |sections| ==>
          sections[k].header != [] && IsMenuHeader(sections[k].header))
    && (forall k, j :: 0 <= k < |sections| && 0 <= j < |sections[k].items| ==>
          IsItemLine(sections[k].items[j]))
  }

  /** What the scan keeps true: headers are distinct menu-header lines, every collected line is
      an item line, and once a header has been seen the current section exists (so the
      membership test before appending always holds); before that nothing is collected. */
  predicate MenuWellFormed(st: MenuState) {
    SectionsWellFormed(st.sections)
    && (st.inMenu ==> st.current in Keys(st.sections))
    && (!st.inMenu ==> st.sections == [])
  }

  lemma HeaderStepWellFormed(st: MenuState, line: string)
    requires MenuWellFormed(st)
    requires line != [] && IsMenuHeader(line)
    ensures MenuWellFormed(MenuState(true, line, ResetSection(st.sections, line)))
  {
    var r := ResetSection(st.sections, line);
    assert line in Keys(r) by {
      if line !in Keys(st.sections) { assert Keys(r)[|r| - 1] == line; }
    }
    forall i, j | 0 <= i < j < |r| ensures r[i].header != r[j].header {
      assert Keys(r)[i] == r[i].header && Keys(r)[j] == r[j].header;
      if j < |st.sections| {
        assert Keys(st.sections)[i] == st.sections[i].header;
        assert Keys(st.sections)[j] == st.sections[j].header;
      } else {
        assert line !in Keys(st.sections);
        assert Keys(st.sections)[i] == st.sections[i].header;
      }
    }
    forall k | 0 <= k < |r| ensures r[k].header != [] && IsMenuHeader(r[k].header) {
      if k < |st.sections| {
        assert Keys(r)[k] == Keys(st.sections)[k];
      } else {
        assert Keys(r)[k] == line;
      }
    }
  }

  lemma ItemStepWellFormed(st: MenuState, line: string)
    requires MenuWellFormed(st)
    requires IsItemLine(line) && st.inMenu && st.current in Keys(st.sections)
    ensures MenuWellFormed(st.(sections := AppendItem(st.sections, st.current, line)))
  {
    var r := AppendItem(st.sections, st.current, line);
    forall k | 0 <= k < |r| ensures r[k].header == st.sections[k].header {
      assert Keys(r)[k] == Keys(st.sections)[k];
    }
  }

  lemma MenuStepPreserves(st: MenuState, raw: string)
    requires MenuWellFormed(st)
    ensures MenuWellFormed(MenuStep(st, raw))
  {
    var line := Strip(raw);
    StripIdempotent(raw);
    if line != [] {
      if IsMenuHeader(line) {
        HeaderStepWellFormed(st, line);
      } else if st.inMenu && !IsNonItem(line) && st.current in Keys(st.sections) {
        ItemStepWellFormed(st, line);
      }
    }
  }

  lemma {:induction false} MenuScanWellFormed(lines: seq<string>)
    ensures MenuWellFormed(MenuScan(lines))
    decreases |lines|
  {
    if lines != [] {
      MenuScanWellFormed(lines[..|lines| - 1]);
      MenuStepPreserves(MenuScan(lines[..|lines| - 1]), lines[|lines| - 1]);
    }
  }

  /** No line is collected before the first header: a text without a header line has no
      sections at all. */
  lemma {:induction false} NoHeaderNoSections(lines: seq<string>)
    requires forall k :: 0 <= k < |lines| ==> !IsMenuHeader(Strip(lines[k]))
    ensures MenuScan(lines) == Start
    decreases |lines|
  {
    if lines != [] {
      NoHeaderNoSections(lines[..|lines| - 1]);
    }
  }

  /** A header line always becomes the current section, with its lines reset, and an item
      line met while a section is current is appended to that section and nowhere else. */
  lemma StepEffect(st: MenuState, raw: string)
    requires MenuWellFormed(st)
    ensures Strip(raw) != [] && IsMenuHeader(Strip(raw)) ==>
      MenuStep(st, raw).current == Strip(raw)
      && forall k :: 0 <= k < |MenuStep(st, raw).sections| && MenuStep(st, raw).sections[k].header == Strip(raw) ==>
           MenuStep(st, raw).sections[k].items == []
    ensures IsItemLine(Strip(raw)) && st.inMenu ==>
      Keys(MenuStep(st, raw).sections) == Keys(st.sections)
      && forall k :: 0 <= k < |st.sections| ==>
           MenuStep(st, raw).sections[k].items ==
             if st.sections[k].header == st.current then st.sections[k].items + [Strip(raw)]
             else st.sections[k].items
  {
    StripIdempotent(raw);
    var line := Strip(raw);
    if IsItemLine(line) && st.inMenu {
      var r := AppendItem(st.sections, st.current, line);
      forall k | 0 <= k < |st.sections| ensures r[k].header == st.sections[k].header {
        assert Keys(r)[k] == Keys(st.sections)[k];
      }
    }
  }
}
