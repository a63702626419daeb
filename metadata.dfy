/** Metadata-field extraction of `extract_event_details` (pdf_processor.py:307-320): every
    pattern of every field is searched over the whole text, in the order of the `patterns`
    table, and each match updates the `details` record. */
module Metadata {
  import opened Text
  import opened Scan
  import opened MetadataPatterns

  datatype Field = Price | Date | Time | GuestCount | Location | SetupNotes | InvoiceNo | Contact | Email | Phone

  /** The keys of the `patterns` table, in insertion order. */
  const FieldOrder: seq<Field> :=
    [Price, Date, Time, GuestCount, Location, SetupNotes, InvoiceNo, Contact, Email, Phone]

  /** The pattern list of each field (pdf_processor.py:201-240). */
  function PatternsOf(f: Field): seq<Pattern> {
    match f
    case Price => [PriceDollar, PriceLabelled, PricePerPersonLabelled]
    case Date => [DateLabelled, DateNumeric, DateWritten]
    case Time => [TimeLabelled, TimeClock]
    case GuestCount => [GuestsLabelled, GuestsServing, GuestsText]
    case Location => [LocationLabelled]
    case SetupNotes => [SetupLabelled]
    case InvoiceNo => [InvoiceLabelled]
    case Contact => [ContactLabelled]
    case Email => [EmailLabelled, EmailBare]
    case Phone => [PhoneLabelled, PhoneDescribed]
  }

  /** The metadata entries of `details`; `None` is Python's `None`. */
  datatype EventFields = EventFields(
    date: Option<string>, time: Option<string>, guestCount: Option<string>,
    location: Option<string>, setupNotes: Option<string>, invoiceNo: Option<string>,
    contact: Option<string>, email: Option<string>, phone: Option<string>,
    prices: seq<string>)

  /** The initial entries (pdf_processor.py:251-265). */
  const NoFields := EventFields(None, None, None, None, None, None, None, None, None, [])

  /** `not details[field]`: `None` and the empty string are both falsy. */
  predicate Unset(v: Option<string>) { v.None? || v.value == [] }

  function Get(d: EventFields, f: Field): Option<string>
    requires f != Price
  {
    match f
    case Date => d.date
    case Time => d.time
    case GuestCount => d.guestCount
    case Location => d.location
    case SetupNotes => d.setupNotes
    case InvoiceNo => d.invoiceNo
    case Contact => d.contact
    case Email => d.email
    case Phone => d.phone
    case Price => None
  }

  function Set(d: EventFields, f: Field, v: Option<string>): (r: EventFields)
    requires f != Price
    ensures Get(r, f) == v && r.prices == d.prices
    ensures forall g :: g != Price && g != f ==> Get(r, g) == Get(d, g)
  {
    match f
    case Date => d.(date := v)
    case Time => d.(time := v)
    case GuestCount => d.(guestCount := v)
    case Location => d.(location := v)
    case SetupNotes => d.(setupNotes := v)
    case InvoiceNo => d.(invoiceNo := v)
    case Contact => d.(contact := v)
    case Email => d.(email := v)
    case Phone => d.(phone := v)
    case Price => d
  }

  /** The entry of `f` still holds its initial value. */
  predicate Initial(d: EventFields, f: Field) {
    if f == Price then d.prices == [] else Get(d, f).None?
  }

  predicate AllWithin(text: string, occs: seq<Occurrence>) {
    forall k :: 0 <= k < |occs| ==> OccurrenceWithin(text, occs[k])
  }

  /** All matches of the patterns `pats`, pattern by pattern, each in `finditer` order. */
  function Occs(text: string, pats: seq<Pattern>): (r: seq<Occurrence>)
    ensures AllWithin(text, r)
  {
    if pats == [] then [] else Occs(text, pats[..|pats| - 1]) + FindAll(pats[|pats| - 1], text)
  }

  /** `match.group(1)` of each match. */
  function Groups(text: string, occs: seq<Occurrence>): (r: seq<string>)
    requires AllWithin(text, occs)
    ensures |r| == |occs|
  {
    seq(|occs|, k requires 0 <= k < |occs| && AllWithin(text, occs) => GroupText(text, occs[k]))
  }

  /** `match.group()` of each match. */
  function Wholes(text: string, occs: seq<Occurrence>): (r: seq<string>)
    requires AllWithin(text, occs)
    ensures |r| == |occs|
  {
    seq(|occs|, k requires 0 <= k < |occs| && AllWithin(text, occs) => MatchText(text, occs[k]))
  }

  lemma GroupsSnoc(text: string, occs: seq<Occurrence>, o: Occurrence)
    requires AllWithin(text, occs) && OccurrenceWithin(text, o)
    ensures AllWithin(text, occs + [o])
    ensures Groups(text, occs + [o]) == Groups(text, occs) + [GroupText(text, o)]
    ensures Wholes(text, occs + [o]) == Wholes(text, occs) + [MatchText(text, o)]
  {
    assert AllWithin(text, occs + [o]);
  }

  /** The value a first-match field ends with after the captures `gs`, one at a time: a capture
      is taken (stripped) while the entry is unset. */
  function KeepFirst(gs: seq<string>): Option<string>
    decreases |gs|
  {
    if gs == [] then None
    else
      var cur := KeepFirst(gs[..|gs| - 1]);
      if Unset(cur) then Some(Strip(gs[|gs| - 1])) else cur
  }

  /** The value of the last-match field (`setup_notes`): each capture overwrites it. */
  function LastCapture(gs: seq<string>): Option<string> {
    if gs == [] then None else Some(Strip(gs[|gs| - 1]))
  }

  predicate NonBlank(g: string) { Strip(g) != [] }

  /** Reference definition of a first-match field: `None` when nothing matched, otherwise the
      first capture that is not blank once stripped, or the empty string when all are blank. */
  function FirstNonBlank(gs: seq<string>): Option<string> {
    if gs == [] then None
    else
      match FirstIndex(gs, 0, NonBlank)
      case Some(k) => Some(Strip(gs[k]))
      case None => Some([])
  }

  lemma {:induction false} KeepFirstAllBlank(gs: seq<string>)
    requires forall j :: 0 <= j < |gs| ==> !NonBlank(gs[j])
    ensures Unset(KeepFirst(gs))
    ensures gs != [] ==> KeepFirst(gs) == Some([])
    decreases |gs|
  {
    if gs != [] {
      KeepFirstAllBlank(gs[..|gs| - 1]);
    }
  }

  lemma {:induction false} KeepFirstTakesFirst(gs: seq<string>, k: nat)
    requires k < |gs| && NonBlank(gs[k])
    requires forall j :: 0 <= j < k ==> !NonBlank(gs[j])
    ensures KeepFirst(gs) == Some(Strip(gs[k]))
    decreases |gs|
  {
    var init := gs[..|gs| - 1];
    if k == |gs| - 1 {
      KeepFirstAllBlank(init);
    } else {
      KeepFirstTakesFirst(init, k);
    }
  }

  /** Folding the captures one at a time gives the reference value. */
  lemma KeepFirstIsFirstNonBlank(gs: seq<string>)
    ensures KeepFirst(gs) == FirstNonBlank(gs)
  {
    FirstIndexFirst(gs, 0, NonBlank);
    match FirstIndex(gs, 0, NonBlank)
    case Some(k) => KeepFirstTakesFirst(gs, k);
    case None => KeepFirstAllBlank(gs);
  }

  /** The entry of `f` after all matches `occs` of its patterns, from an initial entry. */
  function Settle(d: EventFields, f: Field, text: string, occs: seq<Occurrence>): EventFields
    requires AllWithin(text, occs)
  {
    if f == Price then d.(prices := d.prices + Wholes(text, occs))
    else if f == SetupNotes then d.(setupNotes := LastCapture(Groups(text, occs)))
    else Set(d, f, KeepFirst(Groups(text, occs)))
  }

  /** The entry of `f` once all its patterns have been searched. */
  function Store(d: EventFields, f: Field, text: string): EventFields {
    Settle(d, f, text, Occs(text, PatternsOf(f)))
  }

  lemma KeepFirstSnoc(gs: seq<string>, g: string)
    ensures KeepFirst(gs + [g]) == if Unset(KeepFirst(gs)) then Some(Strip(g)) else KeepFirst(gs)
  {
    assert (gs + [g])[..|gs|] == gs;
  }

  /** One more match of a pattern of `f`, as the loop body applies it. */
  lemma SettleSnoc(d0: EventFields, f: Field, text: string, occs: seq<Occurrence>, o: Occurrence)
    requires AllWithin(text, occs) && OccurrenceWithin(text, o)
    ensures AllWithin(text, occs + [o])
    ensures f == Price ==> (Settle(d0, f, text, occs + [o])
      == Settle(d0, f, text, occs).(prices := Settle(d0, f, text, occs).prices + [MatchText(text, o)]))
    ensures f == SetupNotes ==> (Settle(d0, f, text, occs + [o])
      == Settle(d0, f, text, occs).(setupNotes := Some(Strip(GroupText(text, o)))))
    ensures f != Price && f != SetupNotes ==> (Settle(d0, f, text, occs + [o])
      == if Unset(Get(Settle(d0, f, text, occs), f))
         then Set(Settle(d0, f, text, occs), f, Some(Strip(GroupText(text, o))))
         else Settle(d0, f, text, occs))
  {
    GroupsSnoc(text, occs, o);
    KeepFirstSnoc(Groups(text, occs), GroupText(text, o));
    if f != Price && f != SetupNotes {
      var cur := Settle(d0, f, text, occs);
      var v := KeepFirst(Groups(text, occs + [o]));
      assert Set(d0, f, v) == Set(cur, f, v);
    }
  }

  lemma OccsSnoc(text: string, pats: seq<Pattern>, i: nat)
    requires i < |pats|
    ensures Occs(text, pats[..i + 1]) == Occs(text, pats[..i]) + FindAll(pats[i], text)
  {
    assert pats[..i + 1][..i] == pats[..i];
  }

  /** The innermost loop (pdf_processor.py:311-320): the matches of one pattern. */
  method ScanMatches(d0: EventFields, field: Field, text: string, before: seq<Occurrence>,
                     matches: seq<Occurrence>, dIn: EventFields) returns (d: EventFields)
    requires AllWithin(text, before) && AllWithin(text, matches)
    requires dIn == Settle(d0, field, text, before)
    ensures AllWithin(text, before + matches)
    ensures d == Settle(d0, field, text, before + matches)
  {
    d := dIn;
    assert before + matches[..0] == before;
    for j := 0 to |matches|
      invariant AllWithin(text, before + matches[..j])
      invariant d == Settle(d0, field, text, before + matches[..j])
    {
      var m := matches[j];
      SettleSnoc(d0, field, text, before + matches[..j], m);
      assert before + matches[..j + 1] == (before + matches[..j]) + [m];
      if field == Price {
        d := d.(prices := d.prices + [MatchText(text, m)]);
      } else if field == SetupNotes {
        d := d.(setupNotes := Some(Strip(GroupText(text, m))));
      } else if Unset(Get(d, field)) {
        d := Set(d, field, Some(Strip(GroupText(text, m))));
      }
    }
    assert matches[..|matches|] == matches;
  }

  /** The inner two loops (pdf_processor.py:309-320) for one field. */
  method ScanField(d0: EventFields, field: Field, text: string) returns (d: EventFields)
    requires Initial(d0, field)
    ensures d == Store(d0, field, text)
  {
    var pats := PatternsOf(field);
    assert Settle(d0, field, text, []) == d0 by {
      assert d0.prices + [] == d0.prices;
      if field != Price { assert Set(d0, field, None) == d0; }
    }
    d := d0;
    for i := 0 to |pats|
      invariant d == Settle(d0, field, text, Occs(text, pats[..i]))
    {
      OccsSnoc(text, pats, i);
      d := ScanMatches(d0, field, text, Occs(text, pats[..i]), FindAll(pats[i], text), d);
    }
    assert pats[..|pats|] == pats;
  }

  /** The value the search of `f` leaves in its entry: the last capture for `setup_notes`, the
      first non-blank one for every other field. */
  function Searched(text: string, f: Field): Option<string>
    requires f != Price
  {
    var gs := Groups(text, Occs(text, PatternsOf(f)));
    if f == SetupNotes then LastCapture(gs) else KeepFirst(gs)
  }

  /** The value of every entry once all fields have been searched (`None` stands in for `price`,
      which is a list). */
  function Values(text: string): Field -> Option<string> {
    f => if f == Price then None else Searched(text, f)
  }

  /** The entries once the fields `FieldOrder[..i]` hold the values `v` and the prices `ps`,
      every later field keeping its initial value. */
  function Filled(v: Field -> Option<string>, ps: seq<string>, i: nat): EventFields {
    EventFields(
      date := if i > 1 then v(Date) else None,
      time := if i > 2 then v(Time) else None,
      guestCount := if i > 3 then v(GuestCount) else None,
      location := if i > 4 then v(Location) else None,
      setupNotes := if i > 5 then v(SetupNotes) else None,
      invoiceNo := if i > 6 then v(InvoiceNo) else None,
      contact := if i > 7 then v(Contact) else None,
      email := if i > 8 then v(Email) else None,
      phone := if i > 9 then v(Phone) else None,
      prices := if i > 0 then ps else [])
  }

  /** Filling the next field in dictionary order sets exactly that entry, which was still
      initial. */
  lemma FilledStep(v: Field -> Option<string>, ps: seq<string>, i: nat)
    requires 0 < i < |FieldOrder|
    ensures FieldOrder[i] != Price && Get(Filled(v, ps, i), FieldOrder[i]).None?
    ensures Set(Filled(v, ps, i), FieldOrder[i], v(FieldOrder[i])) == Filled(v, ps, i + 1)
  {
  }

  /** Once every field is filled, each entry holds its value. */
  lemma FilledAll(v: Field -> Option<string>, ps: seq<string>, f: Field)
    requires f != Price
    ensures Get(Filled(v, ps, |FieldOrder|), f) == v(f)
    ensures Filled(v, ps, |FieldOrder|).prices == ps
  {
  }

  /** Searching a field other than `price` stores its searched value. */
  lemma StoreSearched(d: EventFields, f: Field, text: string)
    requires f != Price
    ensures Store(d, f, text) == Set(d, f, Searched(text, f))
  {
  }

  /** `details` after the fields `FieldOrder[..i]` have been searched. */
  function FieldsUpTo(text: string, i: nat): EventFields {
    Filled(Values(text), Wholes(text, Occs(text, PatternsOf(Price))), i)
  }

  /** The metadata entries of `details` once every field has been searched:
      prices are every full match, pattern by pattern; setup notes the last capture; every
      other field the first capture that is not blank (see `FirstMatchFields`). */
  function FieldsOf(text: string): EventFields {
    FieldsUpTo(text, |FieldOrder|)
  }

  lemma FieldsUpToStep(text: string, i: nat)
    requires i < |FieldOrder|
    ensures Initial(FieldsUpTo(text, i), FieldOrder[i])
    ensures Store(FieldsUpTo(text, i), FieldOrder[i], text) == FieldsUpTo(text, i + 1)
  {
    var ps := Wholes(text, Occs(text, PatternsOf(Price)));
    if i == 0 {
      assert [] + ps == ps;
    } else {
      FilledStep(Values(text), ps, i);
      StoreSearched(FieldsUpTo(text, i), FieldOrder[i], text);
    }
  }

  /** The field loop of `extract_event_details` (pdf_processor.py:307-320). */
  method ExtractFields(text: string) returns (details: EventFields)
    ensures details == FieldsOf(text)
  {
    details := NoFields;
    for i := 0 to |FieldOrder|
      invariant details == FieldsUpTo(text, i)
    {
      FieldsUpToStep(text, i);
      details := ScanField(details, FieldOrder[i], text);
    }
  }

  /** Every field but `price` and `setup_notes` holds the first non-blank capture of its
      patterns, tried in list order (the empty string when every capture is blank, `None` when
      nothing matched); `setup_notes` holds the last capture; `prices` every full match. */
  lemma FirstMatchFields(text: string, f: Field)
    requires f != Price && f != SetupNotes
    ensures Get(FieldsOf(text), f) == FirstNonBlank(Groups(text, Occs(text, PatternsOf(f))))
    ensures FieldsOf(text).setupNotes == LastCapture(Groups(text, Occs(text, PatternsOf(SetupNotes))))
    ensures FieldsOf(text).prices == Wholes(text, Occs(text, PatternsOf(Price)))
  {
    FilledAll(Values(text), Wholes(text, Occs(text, PatternsOf(Price))), f);
    FilledAll(Values(text), Wholes(text, Occs(text, PatternsOf(Price))), SetupNotes);
    KeepFirstIsFirstNonBlank(Groups(text, Occs(text, PatternsOf(f))));
  }
}
