/** The pricing-breakdown extractor `PDFProcessor.extract_pricing_details`
    (pdf_processor.py:63-196): locate the first "Pricing" header line, collect the section below
    it, and classify each section line into exactly one charge category or summary field. */
module Pricing {
  import opened Text
  import opened Scan
  import opened PricingPatterns

  // ---------------------------------------------------------------- amounts

  function DotCount(s: string): nat
  {
    if s == [] then 0 else (if s[0] == '.' then 1 else 0) + DotCount(s[1..])
  }

  /** A string that Python's `float()` accepts and that uses only ASCII digits and dots: at most one
      dot and at least one digit. Amount groups hold only digits, commas and dots, so once the commas
      are removed this is exactly the condition under which `float()` does not raise. */
  predicate IsDecimal(s: string)
  {
    (forall k :: 0 <= k < |s| ==> IsDigitOrDot(s[k]))
    && DotCount(s) <= 1
    && exists k :: 0 <= k < |s| && IsDigit(s[k])
  }

  /** A decimal amount, kept as the text Python converts with `float()`. */
  type Decimal = s: string | IsDecimal(s) witness "0"

  /** The `ValueError` that `float()` raises on a captured group such as "." or "1.2.3". */
  datatype ParseError = InvalidNumber(text: string)

  /** `float(s)` for a captured rate (the tax-rate group is converted without removing commas). */
  function ParseFloat(s: string): (r: Result<Decimal, ParseError>)
    ensures r.Ok? <==> IsDecimal(s)
    ensures r.Ok? ==> r.value == s
  {
    if IsDecimal(s) then Ok(s) else Err(InvalidNumber(s))
  }

  /** `float(s.replace(',', ''))` */
  function ParseAmount(s: string): (r: Result<Decimal, ParseError>)
    ensures r.Ok? ==> r.value == RemoveCommas(s)
    ensures r.Err? <==> !IsDecimal(RemoveCommas(s))
  {
    ParseFloat(RemoveCommas(s))
  }

  // ---------------------------------------------------------------- data model

  datatype PerPersonCharge = PerPersonCharge(item: string, pricePerPerson: Decimal, guestCount: nat,
                                             total: Decimal, lineItem: string)

  datatype StaffCharge = StaffCharge(role: string, rate: Decimal, count: nat, total: Decimal, lineItem: string)

  datatype FlatCharge = FlatCharge(item: string, amount: Decimal, lineItem: string)

  /** An additional charge whose amount is the sentinel text "TBD", never a number. */
  datatype TbdCharge = TbdCharge(item: string, amount: string, lineItem: string)

  datatype Summary = Summary(subtotal: Option<Decimal>, serviceFee: Option<Decimal>,
                             deliverySetup: Option<Decimal>, tax: Option<Decimal>,
                             taxRate: Option<Decimal>, grandTotal: Option<Decimal>)

  datatype PricingBreakdown = PricingBreakdown(perPersonCharges: seq<PerPersonCharge>,
                                               flatCharges: seq<FlatCharge>,
                                               staffCharges: seq<StaffCharge>,
                                               additionalCharges: seq<TbdCharge>,
                                               summary: Summary)

  const NoSummary := Summary(None, None, None, None, None, None)

  const EmptyBreakdown := PricingBreakdown([], [], [], [], NoSummary)

  const TbdSentinel := "TBD"

  // ---------------------------------------------------------------- the pricing section

  /** `re.match(r'^\s*pricing\s*$', line, re.I)` on a line without line breaks. */
  predicate IsPricingHeader(line: string)
  {
    var s := Strip(line); |s| == 7 && CiAt(s, 0, "pricing")
  }

  /** The header test as the source's pattern states it: the stripped line, lower-cased, is
      exactly "pricing". */
  lemma PricingHeaderLower(line: string)
    ensures IsPricingHeader(line) <==> LowerStr(Strip(line)) == "pricing"
  {
    CiEquals(Strip(line), "pricing");
  }

  /** The condition of the section loop: a non-blank line not starting with "menu" or "contact". */
  predicate ContinuesSection(line: string)
  {
    Strip(line) != [] && !CiAt(Strip(line), 0, "menu") && !CiAt(Strip(line), 0, "contact")
  }

  /** The loop condition as the source writes it:
      `line.strip() and not line.strip().lower().startswith(('menu', 'contact'))`. */
  lemma ContinuesSectionLower(line: string)
    ensures ContinuesSection(line) <==>
      Strip(line) != [] && !StartsWithAny(LowerStr(Strip(line)), ["menu", "contact"])
  {
    var s := Strip(line);
    var stops := ["menu", "contact"];
    CiAtLower(s, 0, "menu");
    CiAtLower(s, 0, "contact");
    assert stops[0] == "menu" && stops[1] == "contact";
  }

  /** The first pricing header at or after line `i`. */
  function HeaderIndex(lines: seq<string>, i: nat): Option<nat>
    requires i <= |lines|
  {
    FirstIndex(lines, i, IsPricingHeader)
  }

  /** `HeaderIndex` finds the first header line, and `None` means there is none. */
  lemma HeaderIndexFirst(lines: seq<string>, i: nat)
    requires i <= |lines|
    ensures HeaderIndex(lines, i).Some? ==> (i <= HeaderIndex(lines, i).value < |lines|
      && IsPricingHeader(lines[HeaderIndex(lines, i).value])
      && forall k :: i <= k < HeaderIndex(lines, i).value ==> !IsPricingHeader(lines[k]))
    ensures HeaderIndex(lines, i).None? ==> forall k :: i <= k < |lines| ==> !IsPricingHeader(lines[k])
  {
    FirstIndexFirst(lines, i, IsPricingHeader);
  }

  /** A line that is not a header passes the search on to the next line. */
  lemma HeaderStep(lines: seq<string>, i: nat)
    requires i < |lines| && !IsPricingHeader(lines[i])
    ensures HeaderIndex(lines, i + 1) == HeaderIndex(lines, i)
  {
  }

  /** The index of the first line at or after `j` that ends the section (or the line count). */
  function SectionEnd(lines: seq<string>, j: nat): (n: nat)
    requires j <= |lines|
    ensures j <= n <= |lines|
  {
    TakeWhileEnd(lines, j, ContinuesSection)
  }

  /** Every line of the section continues it, and the line after it (when there is one) is blank
      or opens the menu or contact section. */
  lemma SectionEndStops(lines: seq<string>, j: nat)
    requires j <= |lines|
    ensures forall k :: j <= k < SectionEnd(lines, j) ==> ContinuesSection(lines[k])
    ensures SectionEnd(lines, j) < |lines| ==> !ContinuesSection(lines[SectionEnd(lines, j)])
  {
    TakeWhileEndStops(lines, j, ContinuesSection);
  }

  /** The stripped lines of the pricing section, or `None` when no line is a pricing header. */
  function SectionOf(lines: seq<string>): Option<seq<string>>
  {
    match HeaderIndex(lines, 0)
    case None => None
    case Some(i) => Some(StripAll(lines[i + 1..SectionEnd(lines, i + 1)]))
  }

  /** The search stops at a header line when no earlier line is one. */
  lemma HeaderFound(lines: seq<string>, i: nat)
    requires i < |lines| && IsPricingHeader(lines[i])
    requires HeaderIndex(lines, 0) == HeaderIndex(lines, i)
    ensures SectionOf(lines) == Some(StripAll(lines[i + 1..SectionEnd(lines, i + 1)]))
  {
    assert HeaderIndex(lines, i) == Some(i);
  }

  /** A search that passed every line found no header. */
  lemma NoHeader(lines: seq<string>)
    requires HeaderIndex(lines, 0) == HeaderIndex(lines, |lines|)
    ensures SectionOf(lines).None?
  {
  }

  function PricingSection(text: string): Option<seq<string>>
  {
    SectionOf(Split(text, '\n'))
  }

  // ---------------------------------------------------------------- classification

  /** Which branch of the classification cascade a stripped, non-blank line takes. */
  datatype LineKind =
    | PerPersonLine(perPerson: PerPersonMatch)
    | StaffLine(staff: StaffMatch)
    | TaxLine(tax: TaxMatch)
    | ServiceFeeLine(serviceFee: string)
    | DeliveryLine(delivery: string)
    | GrandTotalLine(grandTotal: string)
    | TbdLine(tbdItem: string)
    | FlatLine(flat: ItemAmountMatch)
    | Unrecognised

  const FlatExclusions := ["total", "sub-total", "service fee", "tax"]

  /** Flat-rate items whose lower-cased text names an aggregate are never recorded as charges. */
  predicate ExcludedFlatItem(item: string)
  {
    ContainsAny(LowerStr(Strip(item)), FlatExclusions)
  }

  /** The first pattern, in precedence order, that accepts the line. */
  function Classify(line: string): (k: LineKind)
    ensures k.PerPersonLine? ==> AllDigits(k.perPerson.guests)
    ensures k.StaffLine? ==> !Contains(LowerStr(line), "guest")
    ensures k.StaffLine? && k.staff.count.Some? ==> AllDigits(k.staff.count.value)
    ensures k.FlatLine? ==> !ExcludedFlatItem(k.flat.item)
  {
    var perPerson := MatchPerPerson(line);
    var staff := MatchStaff(line);
    if perPerson.Some? then PerPersonLine(perPerson.value)
    else if staff.Some? && !Contains(LowerStr(line), "guest") then StaffLine(staff.value)
    else ClassifySummary(line)
  }

  /** The summary patterns, tried once neither charge pattern applies. */
  function ClassifySummary(line: string): (k: LineKind)
    ensures !k.PerPersonLine? && !k.StaffLine?
    ensures k.FlatLine? ==> !ExcludedFlatItem(k.flat.item)
  {
    var tax := MatchTax(line);
    var service := MatchServiceFee(line);
    var delivery := MatchDelivery(line);
    var total := MatchGrandTotal(line);
    if tax.Some? then TaxLine(tax.value)
    else if service.Some? then ServiceFeeLine(service.value)
    else if delivery.Some? then DeliveryLine(delivery.value)
    else if total.Some? then GrandTotalLine(total.value)
    else ClassifyFallback(line)
  }

  /** The TBD pattern, then the flat-rate fallback with its excluded aggregate items. */
  function ClassifyFallback(line: string): (k: LineKind)
    ensures !k.PerPersonLine? && !k.StaffLine?
    ensures k.FlatLine? ==> !ExcludedFlatItem(k.flat.item)
  {
    var tbd := MatchTbd(line);
    var flat := MatchFlatRate(line);
    if tbd.Some? then TbdLine(tbd.value)
    else if flat.Some? && !ExcludedFlatItem(flat.value.item) then FlatLine(flat.value)
    else Unrecognised
  }

  /** Neither charge pattern records the line. */
  predicate NoChargeMatch(line: string)
  {
    MatchPerPerson(line).None? && (MatchStaff(line).None? || Contains(LowerStr(line), "guest"))
  }

  /** None of the four summary patterns matches the line. */
  predicate NoSummaryMatch(line: string)
  {
    MatchTax(line).None? && MatchServiceFee(line).None? && MatchDelivery(line).None?
    && MatchGrandTotal(line).None?
  }

  /** The two charge patterns come first; a line neither records goes on to the summary patterns. */
  lemma ChargePrecedence(line: string)
    ensures Classify(line).PerPersonLine? <==> MatchPerPerson(line).Some?
    ensures Classify(line).StaffLine? <==>
      (MatchPerPerson(line).None? && MatchStaff(line).Some? && !Contains(LowerStr(line), "guest"))
    ensures NoChargeMatch(line) ==> Classify(line) == ClassifySummary(line)
  {
  }

  /** Tax, service fee, delivery and grand total are tried in that order; a line none of them
      matches goes on to the fallbacks. */
  lemma SummaryPrecedence(line: string)
    ensures ClassifySummary(line).TaxLine? <==> MatchTax(line).Some?
    ensures ClassifySummary(line).ServiceFeeLine? <==> (MatchTax(line).None? && MatchServiceFee(line).Some?)
    ensures ClassifySummary(line).DeliveryLine? <==>
      (MatchTax(line).None? && MatchServiceFee(line).None? && MatchDelivery(line).Some?)
    ensures ClassifySummary(line).GrandTotalLine? <==>
      (MatchTax(line).None? && MatchServiceFee(line).None? && MatchDelivery(line).None?
       && MatchGrandTotal(line).Some?)
    ensures NoSummaryMatch(line) ==> ClassifySummary(line) == ClassifyFallback(line)
  {
  }

  /** TBD before flat rate, and a flat-rate line naming an aggregate is recorded nowhere. */
  lemma FallbackPrecedence(line: string)
    ensures ClassifyFallback(line).TbdLine? <==> MatchTbd(line).Some?
    ensures ClassifyFallback(line).FlatLine? <==> (MatchTbd(line).None? && MatchFlatRate(line).Some?
      && !ExcludedFlatItem(MatchFlatRate(line).value.item))
    ensures ClassifyFallback(line).Unrecognised? <==> (MatchTbd(line).None?
      && (MatchFlatRate(line).None? || ExcludedFlatItem(MatchFlatRate(line).value.item)))
  {
  }

  /** First match wins: a line takes the category of the earliest pattern in the order per-person,
      staff (only on lines without "guest"), tax, service fee, delivery, grand total, TBD, flat rate
      (only for items that name no aggregate), and is recorded nowhere when none applies. */
  lemma ClassifyPrecedence(line: string)
    ensures Classify(line).PerPersonLine? <==> MatchPerPerson(line).Some?
    ensures Classify(line).StaffLine? <==>
      (MatchPerPerson(line).None? && MatchStaff(line).Some? && !Contains(LowerStr(line), "guest"))
    ensures Classify(line).TaxLine? <==> (NoChargeMatch(line) && MatchTax(line).Some?)
    ensures Classify(line).ServiceFeeLine? <==>
      (NoChargeMatch(line) && MatchTax(line).None? && MatchServiceFee(line).Some?)
    ensures Classify(line).DeliveryLine? <==> (NoChargeMatch(line) && MatchTax(line).None?
      && MatchServiceFee(line).None? && MatchDelivery(line).Some?)
    ensures Classify(line).GrandTotalLine? <==> (NoChargeMatch(line) && MatchTax(line).None?
      && MatchServiceFee(line).None? && MatchDelivery(line).None? && MatchGrandTotal(line).Some?)
    ensures Classify(line).TbdLine? <==> (NoChargeMatch(line) && NoSummaryMatch(line) && MatchTbd(line).Some?)
    ensures Classify(line).FlatLine? <==> (NoChargeMatch(line) && NoSummaryMatch(line)
      && MatchTbd(line).None? && MatchFlatRate(line).Some? && !ExcludedFlatItem(MatchFlatRate(line).value.item))
    ensures Classify(line).Unrecognised? <==> (NoChargeMatch(line) && NoSummaryMatch(line)
      && MatchTbd(line).None? && (MatchFlatRate(line).None? || ExcludedFlatItem(MatchFlatRate(line).value.item)))
  {
    ChargePrecedence(line);
    SummaryPrecedence(line);
    FallbackPrecedence(line);
  }

  predicate NoEquals(s: string) { forall k :: 0 <= k < |s| ==> s[k] != '=' }

  /** `\s*=` cannot match in a line without an equals sign. */
  lemma EqualsNeeded(s: string, i: nat)
    requires i <= |s| && NoEquals(s)
    ensures WsLit(s, i, "=").None? && EqualsAmount(s, i).None?
  {
    if CiAt(s, Ws(s, i), "=") {
      assert false;
    }
  }

  lemma ChargesNeedEquals(line: string)
    requires NoEquals(line)
    ensures MatchPerPerson(line).None? && MatchStaff(line).None?
  {
    forall j: nat | j <= |line| ensures EqualsAmount(line, j).None? {
      EqualsNeeded(line, j);
    }
    assert forall j: nat :: PerPersonTail(line, j).None?;
    assert forall j: nat :: StaffTail(line, j).None?;
  }

  lemma TaxNeedsEquals(line: string)
    requires NoEquals(line)
    ensures MatchTax(line).None?
  {
    var a := Run1(line, 0, IsDigitOrDot);
    if a.Some? {
      var b := WsLit(line, a.value, "%");
      if b.Some? {
        var c := WsLit(line, b.value, "tax");
        if c.Some? {
          EqualsNeeded(line, c.value);
        }
      }
    }
  }

  lemma ServiceFeeNeedsEquals(line: string)
    requires NoEquals(line)
    ensures MatchServiceFee(line).None?
  {
    var a := Lit(line, 0, "service");
    if a.Some? {
      var b := WsLit(line, a.value, "fee");
      if b.Some? {
        EqualsNeeded(line, b.value);
      }
    }
  }

  lemma DeliveryNeedsEquals(line: string)
    requires NoEquals(line)
    ensures MatchDelivery(line).None?
  {
    var a := Lit(line, 0, "delivery");
    if a.Some? {
      var a1 := Ws(line, a.value);
      var b := if CiAt(line, a1, "&") then Lit(line, a1, "&") else Lit(line, a1, "and");
      if b.Some? {
        var c := WsLit(line, b.value, "set");
        if c.Some? {
          var d := Lit(line, OptLit(line, c.value, "-"), "up");
          if d.Some? {
            var e := WsLit(line, d.value, "fee");
            if e.Some? {
              EqualsNeeded(line, e.value);
            }
          }
        }
      }
    }
  }

  lemma GrandTotalNeedsEquals(line: string)
    requires NoEquals(line)
    ensures MatchGrandTotal(line).None?
  {
    var a := Lit(line, 0, "grand");
    if a.Some? {
      var b := WsLit(line, a.value, "total");
      if b.Some? {
        EqualsNeeded(line, b.value);
      }
    }
  }

  lemma FallbacksNeedEquals(line: string)
    requires NoEquals(line)
    ensures MatchTbd(line).None? && MatchFlatRate(line).None?
  {
    forall j: nat | j <= |line| ensures WsLit(line, j, "=").None? && EqualsAmount(line, j).None? {
      EqualsNeeded(line, j);
    }
    assert forall j: nat :: TbdTail(line, j).None?;
    assert forall j: nat :: FlatTail(line, j).None?;
  }

  /** Every pattern of the cascade contains `=`: a line without one is recorded nowhere. */
  lemma NoEqualsUnrecognised(line: string)
    requires NoEquals(line)
    ensures Classify(line) == Unrecognised
  {
    ChargesNeedEquals(line);
    TaxNeedsEquals(line);
    ServiceFeeNeedsEquals(line);
    DeliveryNeedsEquals(line);
    GrandTotalNeedsEquals(line);
    FallbacksNeedEquals(line);
  }

  /** The effect of one stripped, non-blank section line on the breakdown. */
  function Apply(b: PricingBreakdown, line: string): Result<PricingBreakdown, ParseError>
  {
    Record(b, line, Classify(line))
  }

  /** What the branch `kind` of the cascade records for `line`. */
  function Record(b: PricingBreakdown, line: string, kind: LineKind): Result<PricingBreakdown, ParseError>
    requires kind.PerPersonLine? ==> AllDigits(kind.perPerson.guests)
    requires kind.StaffLine? && kind.staff.count.Some? ==> AllDigits(kind.staff.count.value)
  {
    match kind
    case PerPersonLine(m) =>
      var price :- ParseAmount(m.price);
      var total :- ParseAmount(m.total);
      var c := PerPersonCharge(Strip(m.item), price, DigitsValue(m.guests), total, Strip(line));
      Ok(b.(perPersonCharges := b.perPersonCharges + [c]))
    case StaffLine(m) =>
      var rate :- ParseAmount(m.rate);
      var total :- ParseAmount(m.total);
      var count := if m.count.Some? then DigitsValue(m.count.value) else 1;
      var c := StaffCharge(Strip(m.role), rate, count, total, Strip(line));
      Ok(b.(staffCharges := b.staffCharges + [c]))
    case _ => RecordSummary(b, line, kind)
  }

  /** What the summary branches record: each sets its field of the summary. */
  function RecordSummary(b: PricingBreakdown, line: string, kind: LineKind): Result<PricingBreakdown, ParseError>
    requires !kind.PerPersonLine? && !kind.StaffLine?
  {
    match kind
    case TaxLine(m) =>
      var rate :- ParseFloat(m.rate);
      var amount :- ParseAmount(m.amount);
      Ok(b.(summary := b.summary.(taxRate := Some(rate), tax := Some(amount))))
    case ServiceFeeLine(a) =>
      var amount :- ParseAmount(a);
      Ok(b.(summary := b.summary.(serviceFee := Some(amount))))
    case DeliveryLine(a) =>
      var amount :- ParseAmount(a);
      Ok(b.(summary := b.summary.(deliverySetup := Some(amount))))
    case GrandTotalLine(a) =>
      var amount :- ParseAmount(a);
      Ok(b.(summary := b.summary.(grandTotal := Some(amount))))
    case _ => RecordFallback(b, line, kind)
  }

  /** What the TBD and flat-rate branches record, and an unrecognised line leaving `b` unchanged. */
  function RecordFallback(b: PricingBreakdown, line: string, kind: LineKind): Result<PricingBreakdown, ParseError>
  {
    match kind
    case TbdLine(item) =>
      Ok(b.(additionalCharges := b.additionalCharges + [TbdCharge(Strip(item), TbdSentinel, Strip(line))]))
    case FlatLine(m) =>
      var amount :- ParseAmount(m.amount);
      Ok(b.(flatCharges := b.flatCharges + [FlatCharge(Strip(m.item), amount, Strip(line))]))
    case _ => Ok(b)
  }

  /** One iteration of the classification loop: blank lines are skipped. */
  function Step(b: PricingBreakdown, raw: string): Result<PricingBreakdown, ParseError>
  {
    if Strip(raw) == [] then Ok(b) else Apply(b, Strip(raw))
  }

  /** The classification loop over the section lines; the first `float()` failure aborts it. */
  function ParseLines(lines: seq<string>): Result<PricingBreakdown, ParseError>
  {
    if lines == [] then Ok(EmptyBreakdown)
    else
      var b :- ParseLines(lines[..|lines| - 1]);
      Step(b, lines[|lines| - 1])
  }

  /** What `extract_pricing_details` returns for a document text, or the error it raises. */
  function PricingDetails(text: string): Result<PricingBreakdown, ParseError>
  {
    match PricingSection(text)
    case None => Ok(EmptyBreakdown)
    case Some(section) => ParseLines(section)
  }

  // ---------------------------------------------------------------- properties of the breakdown

  /** The number of charges recorded in the four lists. */
  function RecordCount(b: PricingBreakdown): nat
  {
    |b.perPersonCharges| + |b.flatCharges| + |b.staffCharges| + |b.additionalCharges|
  }

  predicate StaffGuestFree(cs: seq<StaffCharge>)
  {
    forall c :: c in cs ==> !Contains(LowerStr(c.lineItem), "guest")
  }

  predicate FlatNotAggregate(cs: seq<FlatCharge>)
  {
    forall c :: c in cs ==> !ContainsAny(LowerStr(c.item), FlatExclusions)
  }

  predicate AllTbd(cs: seq<TbdCharge>)
  {
    forall c :: c in cs ==> c.amount == TbdSentinel
  }

  /** What every breakdown the extractor builds satisfies: the subtotal is never filled in, no
      staff line mentions guests, no flat charge is an aggregate line, and every additional charge
      carries the "TBD" sentinel rather than a number. */
  predicate WellFormed(b: PricingBreakdown)
  {
    b.summary.subtotal.None? && StaffGuestFree(b.staffCharges) && FlatNotAggregate(b.flatCharges)
    && AllTbd(b.additionalCharges)
  }

  /** `later` keeps every charge of `earlier`, in order, and may append more. */
  predicate Extends(earlier: PricingBreakdown, later: PricingBreakdown)
  {
    earlier.perPersonCharges <= later.perPersonCharges
    && earlier.flatCharges <= later.flatCharges
    && earlier.staffCharges <= later.staffCharges
    && earlier.additionalCharges <= later.additionalCharges
  }

  /** What one branch of the cascade records: at most one charge, appended to the earlier ones. */
  lemma RecordExtends(b: PricingBreakdown, line: string, kind: LineKind)
    requires kind.PerPersonLine? ==> AllDigits(kind.perPerson.guests)
    requires kind.StaffLine? && kind.staff.count.Some? ==> AllDigits(kind.staff.count.value)
    requires Record(b, line, kind).Ok?
    ensures Extends(b, Record(b, line, kind).value)
    ensures RecordCount(Record(b, line, kind).value) <= RecordCount(b) + 1
  {
  }

  /** Each branch of the cascade keeps the breakdown well formed. */
  lemma RecordWellFormed(b: PricingBreakdown, line: string, kind: LineKind)
    requires kind.PerPersonLine? ==> AllDigits(kind.perPerson.guests)
    requires kind.StaffLine? && kind.staff.count.Some? ==> AllDigits(kind.staff.count.value)
    requires kind.StaffLine? ==> !Contains(LowerStr(line), "guest")
    requires kind.FlatLine? ==> !ExcludedFlatItem(kind.flat.item)
    requires Strip(line) == line
    requires WellFormed(b) && Record(b, line, kind).Ok?
    ensures WellFormed(Record(b, line, kind).value)
  {
    match kind
    case StaffLine(m) => StaffRecordWellFormed(b, line, m);
    case FlatLine(m) => FlatRecordWellFormed(b, line, m);
    case TbdLine(item) => TbdRecordWellFormed(b, line, item);
    case _ => OtherRecordWellFormed(b, line, kind);
  }

  lemma StaffRecordWellFormed(b: PricingBreakdown, line: string, m: StaffMatch)
    requires m.count.Some? ==> AllDigits(m.count.value)
    requires !Contains(LowerStr(line), "guest") && Strip(line) == line
    requires WellFormed(b) && Record(b, line, StaffLine(m)).Ok?
    ensures WellFormed(Record(b, line, StaffLine(m)).value)
  {
    var b2 := Record(b, line, StaffLine(m)).value;
    var c := b2.staffCharges[|b.staffCharges|];
    assert b2.staffCharges == b.staffCharges + [c];
    assert b2.flatCharges == b.flatCharges && b2.additionalCharges == b.additionalCharges;
  }

  lemma FlatRecordWellFormed(b: PricingBreakdown, line: string, m: ItemAmountMatch)
    requires !ExcludedFlatItem(m.item)
    requires WellFormed(b) && Record(b, line, FlatLine(m)).Ok?
    ensures WellFormed(Record(b, line, FlatLine(m)).value)
  {
    var b2 := Record(b, line, FlatLine(m)).value;
    var c := b2.flatCharges[|b.flatCharges|];
    assert b2.flatCharges == b.flatCharges + [c];
    StripIdempotent(m.item);
    assert b2.staffCharges == b.staffCharges && b2.additionalCharges == b.additionalCharges;
  }

  lemma TbdRecordWellFormed(b: PricingBreakdown, line: string, item: string)
    requires WellFormed(b)
    ensures WellFormed(Record(b, line, TbdLine(item)).value)
  {
    var b2 := Record(b, line, TbdLine(item)).value;
    assert b2.additionalCharges == b.additionalCharges + [b2.additionalCharges[|b.additionalCharges|]];
    assert b2.staffCharges == b.staffCharges && b2.flatCharges == b.flatCharges;
  }

  lemma OtherRecordWellFormed(b: PricingBreakdown, line: string, kind: LineKind)
    requires !kind.StaffLine? && !kind.FlatLine? && !kind.TbdLine?
    requires kind.PerPersonLine? ==> AllDigits(kind.perPerson.guests)
    requires WellFormed(b) && Record(b, line, kind).Ok?
    ensures WellFormed(Record(b, line, kind).value)
  {
    var b2 := Record(b, line, kind).value;
    assert b2.staffCharges == b.staffCharges && b2.flatCharges == b.flatCharges;
    assert b2.additionalCharges == b.additionalCharges && b2.summary.subtotal == b.summary.subtotal;
  }

  /** One line adds at most one charge, keeps the earlier ones and keeps the breakdown well formed. */
  lemma StepPreserves(b: PricingBreakdown, raw: string)
    requires WellFormed(b) && Step(b, raw).Ok?
    ensures WellFormed(Step(b, raw).value)
    ensures Extends(b, Step(b, raw).value)
    ensures RecordCount(Step(b, raw).value) <= RecordCount(b) + 1
  {
    var line := Strip(raw);
    if line != [] {
      StripIdempotent(raw);
      RecordExtends(b, line, Classify(line));
      RecordWellFormed(b, line, Classify(line));
    }
  }

  /** The classification loop keeps the breakdown well formed and records at most one charge per
      line: no line is counted in two categories. */
  lemma {:induction false} ParseLinesWellFormed(lines: seq<string>)
    requires ParseLines(lines).Ok?
    ensures WellFormed(ParseLines(lines).value)
    ensures RecordCount(ParseLines(lines).value) <= |lines|
  {
    if lines != [] {
      var init := lines[..|lines| - 1];
      ParseLinesWellFormed(init);
      StepPreserves(ParseLines(init).value, lines[|lines| - 1]);
    }
  }

  /** Charges are only ever appended, in line order: the breakdown of any prefix of the section
      is extended by the breakdown of the whole section. */
  lemma {:induction false} ParseLinesPrefix(lines: seq<string>, n: nat)
    requires n <= |lines| && ParseLines(lines).Ok?
    ensures ParseLines(lines[..n]).Ok?
    ensures Extends(ParseLines(lines[..n]).value, ParseLines(lines).value)
    decreases |lines| - n
  {
    if n == |lines| {
      assert lines[..n] == lines;
    } else {
      var init := lines[..|lines| - 1];
      ParseLinesWellFormed(init);
      StepPreserves(ParseLines(init).value, lines[|lines| - 1]);
      if n < |lines| - 1 {
        ParseLinesPrefix(init, n);
        assert init[..n] == lines[..n];
      } else {
        assert init == lines[..n];
      }
    }
  }

  /** A text without a pricing header line has the empty breakdown. */
  lemma NoHeaderNoCharges(text: string)
    requires forall k :: 0 <= k < |Split(text, '\n')| ==> !IsPricingHeader(Split(text, '\n')[k])
    ensures PricingDetails(text) == Ok(EmptyBreakdown)
  {
    var lines := Split(text, '\n');
    HeaderIndexFirst(lines, 0);
  }

  /** Every breakdown `extract_pricing_details` returns is well formed, and it records no more
      charges than the pricing section has lines. */
  lemma PricingDetailsWellFormed(text: string)
    requires PricingDetails(text).Ok?
    ensures WellFormed(PricingDetails(text).value)
    ensures PricingSection(text).Some? ==> RecordCount(PricingDetails(text).value) <= |PricingSection(text).value|
    ensures PricingSection(text).None? ==> PricingDetails(text).value == EmptyBreakdown
  {
    if PricingSection(text).Some? {
      ParseLinesWellFormed(PricingSection(text).value);
    }
  }

  // ---------------------------------------------------------------- the extractor

  /** Once a prefix of the lines fails to convert an amount, the whole loop fails the same way. */
  lemma {:induction false} ErrorAborts(lines: seq<string>, n: nat)
    requires n <= |lines| && ParseLines(lines[..n]).Err?
    ensures ParseLines(lines) == ParseLines(lines[..n])
    decreases |lines| - n
  {
    if n < |lines| {
      assert lines[..n + 1][..n] == lines[..n];
      ErrorAborts(lines, n + 1);
    } else {
      assert lines[..n] == lines;
    }
  }

  /** One more continuing line extends the collected section by its stripped form. */
  lemma SectionStep(lines: seq<string>, start: nat, j: nat, collected: seq<string>)
    requires start <= j < |lines| && ContinuesSection(lines[j])
    requires collected == StripAll(lines[start..j])
    ensures SectionEnd(lines, j + 1) == SectionEnd(lines, j)
    ensures collected + [Strip(lines[j])] == StripAll(lines[start..j + 1])
  {
    StripAllSnoc(lines, start, j);
    TakeWhileEndStep(lines, j, ContinuesSection);
  }

  /** The section loop of `extract_pricing_details` (pdf_processor.py:86-90): the stripped lines
      from `start` on, up to the first blank line or line opening the menu or contact section. */
  method CollectSection(lines: seq<string>, start: nat) returns (pricingLines: seq<string>)
    requires start <= |lines|
    ensures pricingLines == StripAll(lines[start..SectionEnd(lines, start)])
  {
    pricingLines := [];
    var j := start;
    while j < |lines| && ContinuesSection(lines[j])
      invariant start <= j <= |lines|
      invariant SectionEnd(lines, j) == SectionEnd(lines, start)
      invariant pricingLines == StripAll(lines[start..j])
    {
      SectionStep(lines, start, j, pricingLines);
      pricingLines := pricingLines + [Strip(lines[j])];
      j := j + 1;
    }
    TakeWhileEndHere(lines, j, ContinuesSection);
  }

  /** The header search of `extract_pricing_details` (pdf_processor.py:81-92): the joined section
      below the first pricing header, or `None` when no line is one. */
  method FindPricingSection(lines: seq<string>) returns (pricingSection: Option<string>)
    ensures pricingSection.None? <==> SectionOf(lines).None?
    ensures pricingSection.Some? ==> pricingSection.value == Join(SectionOf(lines).value, '\n')
  {
    var i := 0;
    while i < |lines|
      invariant i <= |lines|
      invariant HeaderIndex(lines, 0) == HeaderIndex(lines, i)
    {
      if IsPricingHeader(lines[i]) {
        HeaderFound(lines, i);
        var pricingLines := CollectSection(lines, i + 1);
        return Some(Join(pricingLines, '\n'));
      }
      HeaderStep(lines, i);
      i := i + 1;
    }
    NoHeader(lines);
    return None;
  }

  /** Section lines never hold a line break when the text lines do not. */
  lemma SectionNoNewline(lines: seq<string>)
    requires forall k, c :: 0 <= k < |lines| && 0 <= c < |lines[k]| ==> lines[k][c] != '\n'
    ensures SectionOf(lines).Some? ==>
      forall k, c :: 0 <= k < |SectionOf(lines).value| && 0 <= c < |SectionOf(lines).value[k]| ==>
        SectionOf(lines).value[k][c] != '\n'
  {
    if SectionOf(lines).Some? {
      var i := HeaderIndex(lines, 0).value;
      var section := SectionOf(lines).value;
      forall k, c | 0 <= k < |section| && 0 <= c < |section[k]| ensures section[k][c] != '\n' {
        assert section[k] == Strip(lines[i + 1 + k]);
        StripNoNewline(lines[i + 1 + k]);
      }
    }
  }

  /** The classification cascade for one stripped, non-blank line (pdf_processor.py:115-194):
      the first pattern that accepts the line decides what is recorded. */
  method ClassifyLine(b: PricingBreakdown, line: string) returns (r: Result<PricingBreakdown, ParseError>)
    ensures r == Apply(b, line)
  {
    var perPersonMatch := MatchPerPerson(line);
    if perPersonMatch.Some? {
      var m := perPersonMatch.value;
      var price :- ParseAmount(m.price);
      var total :- ParseAmount(m.total);
      var charge := PerPersonCharge(Strip(m.item), price, DigitsValue(m.guests), total, Strip(line));
      return Ok(b.(perPersonCharges := b.perPersonCharges + [charge]));
    }

    var staffMatch := MatchStaff(line);
    if staffMatch.Some? && !Contains(LowerStr(line), "guest") {
      var m := staffMatch.value;
      var rate :- ParseAmount(m.rate);
      var count := if m.count.Some? then DigitsValue(m.count.value) else 1;
      var total :- ParseAmount(m.total);
      var charge := StaffCharge(Strip(m.role), rate, count, total, Strip(line));
      return Ok(b.(staffCharges := b.staffCharges + [charge]));
    }

    r := ClassifySummaryLine(b, line);
  }

  /** The tax, service-fee, delivery and grand-total branches of the cascade
      (pdf_processor.py:147-178): each sets its summary field, the last such line winning. */
  method ClassifySummaryLine(b: PricingBreakdown, line: string) returns (r: Result<PricingBreakdown, ParseError>)
    ensures r == RecordSummary(b, line, ClassifySummary(line))
  {
    var taxMatch := MatchTax(line);
    if taxMatch.Some? {
      assert ClassifySummary(line) == TaxLine(taxMatch.value);
      var rate :- ParseFloat(taxMatch.value.rate);
      var amount :- ParseAmount(taxMatch.value.amount);
      return Ok(b.(summary := b.summary.(taxRate := Some(rate), tax := Some(amount))));
    }

    var serviceMatch := MatchServiceFee(line);
    if serviceMatch.Some? {
      assert ClassifySummary(line) == ServiceFeeLine(serviceMatch.value);
      var amount :- ParseAmount(serviceMatch.value);
      return Ok(b.(summary := b.summary.(serviceFee := Some(amount))));
    }

    var deliveryMatch := MatchDelivery(line);
    if deliveryMatch.Some? {
      assert ClassifySummary(line) == DeliveryLine(deliveryMatch.value);
      var amount :- ParseAmount(deliveryMatch.value);
      return Ok(b.(summary := b.summary.(deliverySetup := Some(amount))));
    }

    var totalMatch := MatchGrandTotal(line);
    if totalMatch.Some? {
      assert ClassifySummary(line) == GrandTotalLine(totalMatch.value);
      var amount :- ParseAmount(totalMatch.value);
      return Ok(b.(summary := b.summary.(grandTotal := Some(amount))));
    }

    SummaryPrecedence(line);
    r := ClassifyFallbackLine(b, line);
  }

  /** The TBD branch and the flat-rate fallback of the cascade (pdf_processor.py:180-194). */
  method ClassifyFallbackLine(b: PricingBreakdown, line: string) returns (r: Result<PricingBreakdown, ParseError>)
    ensures r == RecordFallback(b, line, ClassifyFallback(line))
  {
    var tbdMatch := MatchTbd(line);
    if tbdMatch.Some? {
      assert ClassifyFallback(line) == TbdLine(tbdMatch.value);
      var charge := TbdCharge(Strip(tbdMatch.value), TbdSentinel, Strip(line));
      return Ok(b.(additionalCharges := b.additionalCharges + [charge]));
    }

    var flatMatch := MatchFlatRate(line);
    if flatMatch.Some? {
      var item := LowerStr(Strip(flatMatch.value.item));
      if !ContainsAny(item, FlatExclusions) {
        assert !ExcludedFlatItem(flatMatch.value.item);
        assert ClassifyFallback(line) == FlatLine(flatMatch.value);
        var amount :- ParseAmount(flatMatch.value.amount);
        var charge := FlatCharge(Strip(flatMatch.value.item), amount, Strip(line));
        return Ok(b.(flatCharges := b.flatCharges + [charge]));
      }
    }
    assert ClassifyFallback(line) == Unrecognised;
    return Ok(b);
  }

  /** The classification loop of `extract_pricing_details` (pdf_processor.py:109-194): every
      non-blank stripped line goes through the cascade; a failing `float()` aborts the loop. */
  method ClassifyLines(parts: seq<string>) returns (r: Result<PricingBreakdown, ParseError>)
    ensures r == ParseLines(parts)
  {
    var details := EmptyBreakdown;
    var n := 0;
    while n < |parts|
      invariant n <= |parts|
      invariant ParseLines(parts[..n]) == Ok(details)
    {
      assert parts[..n + 1][..n] == parts[..n];
      var line := Strip(parts[n]);
      n := n + 1;
      if line == [] {
        continue;
      }
      var next := ClassifyLine(details, line);
      if next.Err? {
        ErrorAborts(parts, n);
        return next;
      }
      details := next.value;
    }
    assert parts[..n] == parts;
    return Ok(details);
  }

  /** `extract_pricing_details` (pdf_processor.py:63-196): find the section, split it again and
      classify its lines; a text without a pricing section gives the empty breakdown. */
  method ExtractPricingDetails(text: string) returns (r: Result<PricingBreakdown, ParseError>)
    ensures r == PricingDetails(text)
  {
    var lines := Split(text, '\n');
    var pricingSection := FindPricingSection(lines);
    if pricingSection.None? || pricingSection.value == [] {
      assert PricingSection(text).Some? ==> PricingSection(text).value == [];
      return Ok(EmptyBreakdown);
    }
    ghost var section := SectionOf(lines).value;
    SectionNoNewline(lines);
    SplitJoin(section, '\n');
    r := ClassifyLines(Split(pricingSection.value, '\n'));
  }
}
