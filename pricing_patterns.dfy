/** The eight pricing-line patterns of `extract_pricing_details` (pdf_processor.py:98-107).
    Each is applied with `re.match` and `re.IGNORECASE`: anchored at the start of the line but
    not at its end, so text after the last group is ignored. A lazy `(?P<item>.*?)` is the
    shortest prefix after which the rest of the pattern matches (`LazyFrom`). */
module PricingPatterns {
  import opened Text
  import opened Scan

  datatype PerPersonMatch = PerPersonMatch(item: string, price: string, guests: string, total: string)
  datatype StaffMatch = StaffMatch(role: string, rate: string, count: Option<string>, total: string)
  datatype TaxMatch = TaxMatch(rate: string, amount: string)
  datatype ItemAmountMatch = ItemAmountMatch(item: string, amount: string)

  predicate IsDigitOrDot(c: char) { IsDigit(c) || c == '.' }

  predicate AllAmountChars(s: string) { s != [] && forall k :: 0 <= k < |s| ==> IsAmountChar(s[k]) }

  predicate AllDigits(s: string) { s != [] && forall k :: 0 <= k < |s| ==> IsDigit(s[k]) }

  /** `\s*=\s*\$(?P<amount>[\d,.]+)` from position `i`. */
  function EqualsAmount(s: string, i: nat): (r: Option<string>)
    requires i <= |s|
    ensures r.Some? ==> AllAmountChars(r.value)
  {
    var a :- WsLit(s, i, "=");
    var b :- WsLit(s, a, "$");
    var c :- Run1(s, b, IsAmountChar);
    Some(s[b..c])
  }

  /** `\s*at\s*\$([\d,.]+)` from position `i`: the end of the match and the amount. */
  function AtAmount(s: string, i: nat): (r: Option<(nat, string)>)
    requires i <= |s|
    ensures r.Some? ==> r.value.0 <= |s| && AllAmountChars(r.value.1)
  {
    var a :- WsLit(s, i, "at");
    var b :- WsLit(s, a, "$");
    var c :- Run1(s, b, IsAmountChar);
    Some((c, s[b..c]))
  }

  /** `\s*(\d+)` from position `i`: the end of the match and the digits. */
  function WsDigits(s: string, i: nat): (r: Option<(nat, string)>)
    requires i <= |s|
    ensures r.Some? ==> r.value.0 <= |s| && AllDigits(r.value.1)
  {
    var g0 := Ws(s, i);
    var g :- Run1(s, g0, IsDigit);
    Some((g, s[g0..g]))
  }

  /** `\s*(\d+)?` from position `i`: the end of the match and the digits, if any. */
  function WsOptDigits(s: string, i: nat): (r: (nat, Option<string>))
    requires i <= |s|
    ensures r.0 <= |s| && (r.1.Some? ==> AllDigits(r.1.value))
  {
    var g0 := Ws(s, i);
    var g := RunEnd(s, g0, IsDigit);
    (g, if g > g0 then Some(s[g0..g]) else None)
  }

  /** `\s*per\s*guest\s*x\s*(\d+)\s*guests?` from position `i`: the end and the guest count. */
  function PerGuestTimes(s: string, i: nat): (r: Option<(nat, string)>)
    requires i <= |s|
    ensures r.Some? ==> r.value.0 <= |s| && AllDigits(r.value.1)
  {
    var d :- WsLit(s, i, "per");
    var e :- WsLit(s, d, "guest");
    var f :- WsLit(s, e, "x");
    var (g, guests) :- WsDigits(s, f);
    var h :- WsLit(s, g, "guest");
    Some((OptLit(s, h, "s"), guests))
  }

  /** What follows the item in the per-person pattern:
      `\s*at\s*\$(?P<price>[\d,.]+)\s*per\s*guest\s*x\s*(?P<guests>\d+)\s*guests?\s*=\s*\$(?P<total>[\d,.]+)` */
  function PerPersonTail(s: string, k: nat): (r: Option<(string, string, string)>)
    ensures r.Some? ==> AllAmountChars(r.value.0) && AllDigits(r.value.1) && AllAmountChars(r.value.2)
  {
    if k > |s| then None
    else
      var (c, price) :- AtAmount(s, k);
      var (h, guests) :- PerGuestTimes(s, c);
      var total :- EqualsAmount(s, h);
      Some((price, guests, total))
  }

  /** `(?P<item>.*?)` followed by `PerPersonTail` (pdf_processor.py:99). */
  function MatchPerPerson(line: string): (r: Option<PerPersonMatch>)
    ensures r.Some? ==> AllDigits(r.value.guests)
  {
    match LazyFrom(line, 0, PerPersonTail)
    case None => None
    case Some((k, (price, guests, total))) => Some(PerPersonMatch(line[..k], price, guests, total))
  }

  /** What follows the role in the staff pattern; the count group is optional:
      `\s*at\s*\$(?P<rate>[\d,.]+)\s*x\s*(?P<count>\d+)?\s*=\s*\$(?P<total>[\d,.]+)` */
  function StaffTail(s: string, k: nat): (r: Option<(string, Option<string>, string)>)
    ensures r.Some? ==> (AllAmountChars(r.value.0) && AllAmountChars(r.value.2)
      && (r.value.1.Some? ==> AllDigits(r.value.1.value)))
  {
    if k > |s| then None
    else
      var (c, rate) :- AtAmount(s, k);
      var d :- WsLit(s, c, "x");
      var (g, count) := WsOptDigits(s, d);
      var total :- EqualsAmount(s, g);
      Some((rate, count, total))
  }

  /** `(?P<role>.*?)` followed by `StaffTail` (pdf_processor.py:100). */
  function MatchStaff(line: string): (r: Option<StaffMatch>)
    ensures r.Some? && r.value.count.Some? ==> AllDigits(r.value.count.value)
  {
    match LazyFrom(line, 0, StaffTail)
    case None => None
    case Some((k, (rate, count, total))) => Some(StaffMatch(line[..k], rate, count, total))
  }

  /** `(?P<rate>[\d.]+)\s*%\s*tax\s*=\s*\$(?P<amount>[\d,.]+)` (pdf_processor.py:101). */
  function MatchTax(line: string): Option<TaxMatch>
  {
    var a :- Run1(line, 0, IsDigitOrDot);
    var b :- WsLit(line, a, "%");
    var c :- WsLit(line, b, "tax");
    var d :- WsLit(line, c, "=");
    var e :- WsLit(line, d, "$");
    var f :- Run1(line, e, IsAmountChar);
    Some(TaxMatch(line[..a], line[e..f]))
  }

  /** `service\s*fee\s*=\s*\$(?P<amount>[\d,.]+)` (pdf_processor.py:102). */
  function MatchServiceFee(line: string): Option<string>
  {
    var a :- Lit(line, 0, "service");
    var b :- WsLit(line, a, "fee");
    EqualsAmount(line, b)
  }

  /** `delivery\s*(?:&|and)\s*set-?up\s*fee\s*=\s*\$(?P<amount>[\d,.]+)` (pdf_processor.py:103). */
  function MatchDelivery(line: string): Option<string>
  {
    var a :- Lit(line, 0, "delivery");
    var a1 := Ws(line, a);
    var b :- if CiAt(line, a1, "&") then Lit(line, a1, "&") else Lit(line, a1, "and");
    var c :- WsLit(line, b, "set");
    var d :- Lit(line, OptLit(line, c, "-"), "up");
    var e :- WsLit(line, d, "fee");
    EqualsAmount(line, e)
  }

  /** `grand\s*total\s*=\s*\$(?P<amount>[\d,.]+)` (pdf_processor.py:104). */
  function MatchGrandTotal(line: string): Option<string>
  {
    var a :- Lit(line, 0, "grand");
    var b :- WsLit(line, a, "total");
    EqualsAmount(line, b)
  }

  /** What follows the item in the TBD pattern: `\s*=\s*(?:t\.b\.d\.|TBD)`. */
  function TbdTail(s: string, k: nat): Option<()>
  {
    if k > |s| then None
    else
      var a :- WsLit(s, k, "=");
      var b := Ws(s, a);
      if CiAt(s, b, "t.b.d.") || CiAt(s, b, "tbd") then Some(()) else None
  }

  /** `(?P<item>.*?)\s*=\s*(?:t\.b\.d\.|TBD)` (pdf_processor.py:106): the item. */
  function MatchTbd(line: string): Option<string>
  {
    match LazyFrom(line, 0, TbdTail)
    case None => None
    case Some((k, _)) => Some(line[..k])
  }

  /** What follows the item in the flat-rate pattern: `\s*=\s*\$(?P<amount>[\d,.]+)`. */
  function FlatTail(s: string, k: nat): (r: Option<string>)
    ensures r.Some? ==> AllAmountChars(r.value)
  {
    if k > |s| then None else EqualsAmount(s, k)
  }

  /** `(?P<item>.*?)\s*=\s*\$(?P<amount>[\d,.]+)` (pdf_processor.py:105). */
  function MatchFlatRate(line: string): Option<ItemAmountMatch>
  {
    match LazyFrom(line, 0, FlatTail)
    case None => None
    case Some((k, amount)) => Some(ItemAmountMatch(line[..k], amount))
  }

  // ---------------------------------------------------------------- what the matches mean

  /** The per-person item is the shortest prefix of the line after which the rest of the pattern
      matches; the price and total are runs of digits, commas and dots. */
  lemma MatchPerPersonShortest(line: string)
    requires MatchPerPerson(line).Some?
    ensures var m := MatchPerPerson(line).value;
      |m.item| <= |line| && m.item == line[..|m.item|]
      && PerPersonTail(line, |m.item|) == Some((m.price, m.guests, m.total))
      && (forall j :: 0 <= j < |m.item| ==> PerPersonTail(line, j).None?)
      && AllAmountChars(m.price) && AllAmountChars(m.total)
  {
  }

  /** The staff role is the shortest prefix after which the rest of the staff pattern matches. */
  lemma MatchStaffShortest(line: string)
    requires MatchStaff(line).Some?
    ensures var m := MatchStaff(line).value;
      |m.role| <= |line| && m.role == line[..|m.role|]
      && StaffTail(line, |m.role|) == Some((m.rate, m.count, m.total))
      && (forall j :: 0 <= j < |m.role| ==> StaffTail(line, j).None?)
      && AllAmountChars(m.rate) && AllAmountChars(m.total)
  {
  }

  /** The TBD item is the shortest prefix followed by `= TBD` (or `= t.b.d.`). */
  lemma MatchTbdShortest(line: string)
    requires MatchTbd(line).Some?
    ensures var item := MatchTbd(line).value;
      |item| <= |line| && item == line[..|item|] && TbdTail(line, |item|).Some?
      && forall j :: 0 <= j < |item| ==> TbdTail(line, j).None?
  {
  }

  /** The flat-rate item is the shortest prefix followed by `= $<amount>`. */
  lemma MatchFlatRateShortest(line: string)
    requires MatchFlatRate(line).Some?
    ensures var m := MatchFlatRate(line).value;
      |m.item| <= |line| && m.item == line[..|m.item|] && FlatTail(line, |m.item|) == Some(m.amount)
      && (forall j :: 0 <= j < |m.item| ==> FlatTail(line, j).None?)
      && AllAmountChars(m.amount)
  {
  }

  /** The tax pattern is anchored: the rate is a leading run of digits and dots. */
  lemma MatchTaxAnchored(line: string)
    requires MatchTax(line).Some?
    ensures var m := MatchTax(line).value;
      m.rate != [] && StartsWith(line, m.rate) && AllAmountChars(m.amount)
      && forall k :: 0 <= k < |m.rate| ==> IsDigitOrDot(m.rate[k])
  {
    var a := Run1(line, 0, IsDigitOrDot).value;
    SliceAt(line, 0, line[..a]);
  }

  /** Every match of a summary pattern begins with its keyword, and its amount is a run of digits,
      commas and dots. */
  lemma SummaryMatchesAnchored(line: string)
    ensures MatchServiceFee(line).Some? ==> CiAt(line, 0, "service") && AllAmountChars(MatchServiceFee(line).value)
    ensures MatchDelivery(line).Some? ==> CiAt(line, 0, "delivery") && AllAmountChars(MatchDelivery(line).value)
    ensures MatchGrandTotal(line).Some? ==> CiAt(line, 0, "grand") && AllAmountChars(MatchGrandTotal(line).value)
  {
    ServiceFeeAnchored(line);
    DeliveryAnchored(line);
    GrandTotalAnchored(line);
  }

  lemma ServiceFeeAnchored(line: string)
    ensures MatchServiceFee(line).Some? ==> CiAt(line, 0, "service") && AllAmountChars(MatchServiceFee(line).value)
  {
  }

  lemma DeliveryAnchored(line: string)
    ensures MatchDelivery(line).Some? ==> CiAt(line, 0, "delivery") && AllAmountChars(MatchDelivery(line).value)
  {
  }

  lemma GrandTotalAnchored(line: string)
    ensures MatchGrandTotal(line).Some? ==> CiAt(line, 0, "grand") && AllAmountChars(MatchGrandTotal(line).value)
  {
  }
}
