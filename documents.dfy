/** `create_documents` (pdf_processor.py:350-449): the two documents indexed for one event, the
    raw text with its metadata and a rendered summary of the extracted details. */
module Documents {
  import opened Text
  import opened Metadata
  import opened Menu
  import opened Pricing
  import opened EventDetails

  /** The metadata dictionary of a document, one variant per `document_type`. The details
      document carries every key of the details except the full text. */
  datatype DocMeta =
    | EventMenuMeta(eventName: string, fields: EventFields, menuItems: seq<Section>)
    | EventDetailsMeta(eventName: string, variations: seq<string>, fields: EventFields,
                       menuItems: seq<Section>, pricing: PricingBreakdown)
    | BasePricingMeta

  function DocumentType(m: DocMeta): string {
    match m
    case EventMenuMeta(_, _, _) => "event_menu"
    case EventDetailsMeta(_, _, _, _, _) => "event_details"
    case BasePricingMeta => "base_pricing"
  }

  /** A LangChain `Document`: page content and metadata. */
  datatype Document = Document(pageContent: string, metadata: DocMeta)

  // ---------------------------------------------------------------- the rendered details text

  const NotSpecified := "Not specified"
  const NoSetupNotes := "No setup notes provided"

  /** `value or default`: both `None` and the empty string fall back to the default. */
  function OrDefault(v: Option<string>, default: string): string {
    if Unset(v) then default else v.value
  }

  /** The fields listed at the head of the details text, in their order there. */
  const DisplayOrder: seq<Field> := [Date, Time, GuestCount, Location, InvoiceNo, Contact, Email, Phone]

  function FieldLabel(f: Field): string {
    match f
    case Price => "Prices"
    case Date => "Date"
    case Time => "Time"
    case GuestCount => "Guest Count"
    case Location => "Location"
    case SetupNotes => "Setup Notes"
    case InvoiceNo => "Invoice"
    case Contact => "Contact"
    case Email => "Email"
    case Phone => "Phone"
  }

  /** `Label: {value or 'Not specified'}` and its line break. */
  function FieldLine(fields: EventFields, f: Field): string
    requires f != Price
  {
    FieldLabel(f) + ": " + OrDefault(Get(fields, f), NotSpecified) + "\n"
  }

  function FieldLines(fields: EventFields, fs: seq<Field>): string
    requires forall k :: 0 <= k < |fs| ==> fs[k] != Price
    decreases |fs|
  {
    if fs == [] then [] else FieldLines(fields, fs[..|fs| - 1]) + FieldLine(fields, fs[|fs| - 1])
  }

  /** `f"- {price}" for price in prices` */
  function PriceItems(prices: seq<string>): (r: seq<string>)
    ensures |r| == |prices| && forall k :: 0 <= k < |prices| ==> r[k] == "- " + prices[k]
  {
    seq(|prices|, k requires 0 <= k < |prices| => "- " + prices[k])
  }

  /** `"\n".join(f"- {price}" for price in prices)` */
  function PriceLines(prices: seq<string>): string {
    Join(PriceItems(prices), '\n')
  }

  /** The setup-notes paragraph, with its placeholder. */
  function SetupBlock(notes: Option<string>): string {
    "\nSetup Notes:\n" + OrDefault(notes, NoSetupNotes) + "\n"
  }

  /** The pricing-information paragraph. */
  function PricesBlock(prices: seq<string>): string {
    "\nPricing Information:\n" + PriceLines(prices) + "\n"
  }

  /** The f-string that opens the details text (pdf_processor.py:376-395). */
  function HeaderText(d: EventDetails): string {
    "\nEvent: " + d.eventName + "\n"
    + FieldLines(d.fields, DisplayOrder)
    + SetupBlock(d.fields.setupNotes)
    + PricesBlock(d.fields.prices)
    + "\nMenu Items:\n"
  }

  /** `- {item}` and its line break. */
  function Bullet(item: string): string {
    "- " + item + "\n"
  }

  /** `t` followed by one dash line per item. */
  function AddBullets(t: string, items: seq<string>): string
    decreases |items|
  {
    if items == [] then t else AddBullets(t, items[..|items| - 1]) + Bullet(items[|items| - 1])
  }

  /** `\n{section}:` and its line break. */
  function SectionHeader(header: string): string {
    "\n" + header + ":\n"
  }

  /** `t` followed by a section header line and its items. */
  function AddSection(t: string, s: Section): string
  {
    AddBullets(t + SectionHeader(s.header), s.items)
  }

  /** `t` followed by the menu sections in dictionary order. */
  function AddMenu(t: string, sections: seq<Section>): string
    decreases |sections|
  {
    if sections == [] then t
    else AddSection(AddMenu(t, sections[..|sections| - 1]), sections[|sections| - 1])
  }

  /** `t` followed by a titled list of line items, when the list is non-empty. */
  function AddBlock(t: string, title: string, items: seq<string>): string
  {
    if items == [] then t else AddBullets(t + title, items)
  }

  function PerPersonItems(cs: seq<PerPersonCharge>): seq<string> {
    seq(|cs|, k requires 0 <= k < |cs| => cs[k].lineItem)
  }

  function StaffItems(cs: seq<StaffCharge>): seq<string> {
    seq(|cs|, k requires 0 <= k < |cs| => cs[k].lineItem)
  }

  function FlatItems(cs: seq<FlatCharge>): seq<string> {
    seq(|cs|, k requires 0 <= k < |cs| => cs[k].lineItem)
  }

  function TbdItems(cs: seq<TbdCharge>): seq<string> {
    seq(|cs|, k requires 0 <= k < |cs| => cs[k].lineItem)
  }

  /** Python truthiness of an optional float: present and not zero. */
  predicate Truthy(x: Option<Decimal>) {
    x.Some? && exists k :: 0 <= k < |x.value| && '1' <= x.value[k] <= '9'
  }

  /** `any(summary.values())` */
  predicate AnyTruthy(s: Summary) {
    Truthy(s.subtotal) || Truthy(s.serviceFee) || Truthy(s.deliverySetup) || Truthy(s.tax)
    || Truthy(s.taxRate) || Truthy(s.grandTotal)
  }

  /** `Label: ${amount}` when the amount is truthy. */
  function AmountLine(name: string, x: Option<Decimal>): string {
    if Truthy(x) then name + ": $" + x.value + "\n" else []
  }

  /** `str(tax_rate)`, which is "None" when no rate was captured. */
  function RateText(x: Option<Decimal>): string {
    match x
    case Some(r) => r
    case None => "None"
  }

  /** `t` followed by the summary block, when some summary value is truthy. */
  function AddSummary(t: string, s: Summary): string
  {
    if !AnyTruthy(s) then t
    else
      t + "\nSummary:\n"
      + AmountLine("Subtotal", s.subtotal)
      + AmountLine("Service Fee", s.serviceFee)
      + AmountLine("Delivery & Setup", s.deliverySetup)
      + AmountLine("Tax (" + RateText(s.taxRate) + "%)", s.tax)
      + AmountLine("Grand Total", s.grandTotal)
  }

  /** `t` followed by the breakdown heading and the four charge blocks (pdf_processor.py:403-426). */
  function AddBlocks(t: string, b: PricingBreakdown): string
  {
    AddBlock(
      AddBlock(
        AddBlock(
          AddBlock(t + "\nDetailed Pricing Breakdown:\n",
                   "\nPer Person Charges:\n", PerPersonItems(b.perPersonCharges)),
          "\nStaff Charges:\n", StaffItems(b.staffCharges)),
        "\nAdditional Charges:\n", FlatItems(b.flatCharges)),
      "\nTBD Charges:\n", TbdItems(b.additionalCharges))
  }

  /** The header and the menu sections: the part of the details text before the breakdown. */
  function HeaderAndMenu(d: EventDetails): string
  {
    AddMenu(HeaderText(d), d.menuItems)
  }

  /** The page content of the details document. */
  function DetailsText(d: EventDetails): string
  {
    AddSummary(AddBlocks(HeaderAndMenu(d), d.pricing), d.pricing.summary)
  }

  /** The two documents of one event: the raw text, then the rendered details. */
  function DocumentsOf(d: EventDetails): seq<Document> {
    [Document(d.fullText, EventMenuMeta(d.eventName, d.fields, d.menuItems)),
     Document(DetailsText(d), EventDetailsMeta(d.eventName, d.variations, d.fields, d.menuItems, d.pricing))]
  }

  // ---------------------------------------------------------------- building the text

  /** The `for item in items: details_text += f"- {item}\n"` loops. */
  method AppendBullets(text: string, items: seq<string>) returns (r: string)
    ensures r == AddBullets(text, items)
  {
    r := text;
    for j := 0 to |items|
      invariant r == AddBullets(text, items[..j])
    {
      assert items[..j + 1][..j] == items[..j];
      r := r + "- " + items[j] + "\n";
    }
    assert items[..|items|] == items;
  }

  /** The loop over the menu sections. */
  method AppendMenu(text: string, sections: seq<Section>) returns (r: string)
    ensures r == AddMenu(text, sections)
  {
    r := text;
    for i := 0 to |sections|
      invariant r == AddMenu(text, sections[..i])
    {
      assert sections[..i + 1][..i] == sections[..i];
      r := r + SectionHeader(sections[i].header);
      r := AppendBullets(r, sections[i].items);
    }
    assert sections[..|sections|] == sections;
  }

  /** One `if summary[key]: details_text += f"{name}: ${amount}\n"` statement. */
  method AppendAmount(text: string, name: string, x: Option<Decimal>) returns (r: string)
    ensures r == text + AmountLine(name, x)
  {
    r := text;
    if Truthy(x) {
      r := r + name + ": $" + x.value + "\n";
    }
  }

  /** The summary block. */
  method AppendSummary(text: string, s: Summary) returns (r: string)
    ensures r == AddSummary(text, s)
  {
    r := text;
    if AnyTruthy(s) {
      r := r + "\nSummary:\n";
      r := AppendAmount(r, "Subtotal", s.subtotal);
      r := AppendAmount(r, "Service Fee", s.serviceFee);
      r := AppendAmount(r, "Delivery & Setup", s.deliverySetup);
      r := AppendAmount(r, "Tax (" + RateText(s.taxRate) + "%)", s.tax);
      r := AppendAmount(r, "Grand Total", s.grandTotal);
    }
  }

  /** One `if charges: details_text += title` block with its loop. */
  method AppendBlock(text: string, title: string, items: seq<string>) returns (r: string)
    ensures r == AddBlock(text, title, items)
  {
    r := text;
    if |items| > 0 {
      r := r + title;
      r := AppendBullets(r, items);
    }
  }

  /** `details_text` as `create_documents` builds it with `+=`. */
  method BuildDetailsText(d: EventDetails) returns (text: string)
    ensures text == DetailsText(d)
  {
    var b := d.pricing;
    text := HeaderText(d);
    text := AppendMenu(text, d.menuItems);
    assert text == HeaderAndMenu(d);
    text := text + "\nDetailed Pricing Breakdown:\n";
    text := AppendBlock(text, "\nPer Person Charges:\n", PerPersonItems(b.perPersonCharges));
    text := AppendBlock(text, "\nStaff Charges:\n", StaffItems(b.staffCharges));
    text := AppendBlock(text, "\nAdditional Charges:\n", FlatItems(b.flatCharges));
    text := AppendBlock(text, "\nTBD Charges:\n", TbdItems(b.additionalCharges));
    text := AppendSummary(text, b.summary);
  }

  /** `create_documents` */
  method CreateDocuments(d: EventDetails) returns (documents: seq<Document>)
    ensures documents == DocumentsOf(d)
  {
    documents := [];
    var mainDoc := Document(d.fullText, EventMenuMeta(d.eventName, d.fields, d.menuItems));
    documents := documents + [mainDoc];
    var detailsText := BuildDetailsText(d);
    var detailsDoc := Document(detailsText, EventDetailsMeta(d.eventName, d.variations, d.fields, d.menuItems, d.pricing));
    documents := documents + [detailsDoc];
  }

  // ---------------------------------------------------------------- appending only extends

  lemma {:induction false} AddBulletsExtends(t: string, items: seq<string>)
    ensures t <= AddBullets(t, items)
    decreases |items|
  {
    if items != [] {
      var pre := AddBullets(t, items[..|items| - 1]);
      AddBulletsExtends(t, items[..|items| - 1]);
      PrefixConcat(pre, Bullet(items[|items| - 1]));
      PrefixTrans(t, pre, AddBullets(t, items));
    }
  }

  lemma AddSectionExtends(t: string, s: Section)
    ensures t <= AddSection(t, s)
  {
    PrefixConcat(t, SectionHeader(s.header));
    AddBulletsExtends(t + SectionHeader(s.header), s.items);
    PrefixTrans(t, t + SectionHeader(s.header), AddSection(t, s));
  }

  lemma {:induction false} AddMenuExtends(t: string, sections: seq<Section>)
    ensures t <= AddMenu(t, sections)
    decreases |sections|
  {
    if sections != [] {
      var pre := AddMenu(t, sections[..|sections| - 1]);
      AddMenuExtends(t, sections[..|sections| - 1]);
      AddSectionExtends(pre, sections[|sections| - 1]);
      PrefixTrans(t, pre, AddMenu(t, sections));
    }
  }

  lemma AddBlockExtends(t: string, title: string, items: seq<string>)
    ensures t <= AddBlock(t, title, items)
  {
    if items != [] {
      PrefixConcat(t, title);
      AddBulletsExtends(t + title, items);
      PrefixTrans(t, t + title, AddBlock(t, title, items));
    }
  }

  lemma AddSummaryExtends(t: string, s: Summary)
    ensures t <= AddSummary(t, s)
  {
    if AnyTruthy(s) {
      var h := "\nSummary:\n";
      var l1 := AmountLine("Subtotal", s.subtotal);
      var l2 := AmountLine("Service Fee", s.serviceFee);
      var l3 := AmountLine("Delivery & Setup", s.deliverySetup);
      var l4 := AmountLine("Tax (" + RateText(s.taxRate) + "%)", s.tax);
      var l5 := AmountLine("Grand Total", s.grandTotal);
      PrefixConcat(t, h);
      PrefixConcat(t + h, l1);
      PrefixTrans(t, t + h, t + h + l1);
      PrefixConcat(t + h + l1, l2);
      PrefixTrans(t, t + h + l1, t + h + l1 + l2);
      PrefixConcat(t + h + l1 + l2, l3);
      PrefixTrans(t, t + h + l1 + l2, t + h + l1 + l2 + l3);
      PrefixConcat(t + h + l1 + l2 + l3, l4);
      PrefixTrans(t, t + h + l1 + l2 + l3, t + h + l1 + l2 + l3 + l4);
      PrefixConcat(t + h + l1 + l2 + l3 + l4, l5);
      PrefixTrans(t, t + h + l1 + l2 + l3 + l4, AddSummary(t, s));
    }
  }

  lemma AddBlocksExtends(t: string, b: PricingBreakdown)
    ensures t <= AddBlocks(t, b)
  {
    var t1 := t + "\nDetailed Pricing Breakdown:\n";
    var t2 := AddBlock(t1, "\nPer Person Charges:\n", PerPersonItems(b.perPersonCharges));
    var t3 := AddBlock(t2, "\nStaff Charges:\n", StaffItems(b.staffCharges));
    var t4 := AddBlock(t3, "\nAdditional Charges:\n", FlatItems(b.flatCharges));
    PrefixConcat(t, "\nDetailed Pricing Breakdown:\n");
    AddBlockExtends(t1, "\nPer Person Charges:\n", PerPersonItems(b.perPersonCharges));
    AddBlockExtends(t2, "\nStaff Charges:\n", StaffItems(b.staffCharges));
    AddBlockExtends(t3, "\nAdditional Charges:\n", FlatItems(b.flatCharges));
    AddBlockExtends(t4, "\nTBD Charges:\n", TbdItems(b.additionalCharges));
    PrefixTrans(t, t1, t2);
    PrefixTrans(t, t2, t3);
    PrefixTrans(t, t3, t4);
    PrefixTrans(t, t4, AddBlocks(t, b));
  }

  /** The details text grows part by part: header, menu, charge blocks, summary. */
  lemma DetailsExtends(d: EventDetails)
    ensures HeaderText(d) <= HeaderAndMenu(d)
    ensures HeaderAndMenu(d) <= AddBlocks(HeaderAndMenu(d), d.pricing)
    ensures AddBlocks(HeaderAndMenu(d), d.pricing) <= DetailsText(d)
  {
    AddMenuExtends(HeaderText(d), d.menuItems);
    AddBlocksExtends(HeaderAndMenu(d), d.pricing);
    AddSummaryExtends(AddBlocks(HeaderAndMenu(d), d.pricing), d.pricing.summary);
  }

  // ---------------------------------------------------------------- what the documents show

  /** Exactly two documents, the event-menu one holding the raw text and the event-details one
      the rendered text opening with the event name, both tagged with that name. */
  lemma DocumentsShape(d: EventDetails)
    ensures |DocumentsOf(d)| == 2
    ensures DocumentType(DocumentsOf(d)[0].metadata) == "event_menu"
    ensures DocumentType(DocumentsOf(d)[1].metadata) == "event_details"
    ensures DocumentsOf(d)[0].pageContent == d.fullText
    ensures DocumentsOf(d)[0].metadata.eventName == DocumentsOf(d)[1].metadata.eventName == d.eventName
    ensures StartsWith(DocumentsOf(d)[1].pageContent, "\nEvent: " + d.eventName + "\n")
  {
    var p := "\nEvent: " + d.eventName + "\n";
    var x := p + FieldLines(d.fields, DisplayOrder);
    var y := x + SetupBlock(d.fields.setupNotes);
    var z := y + PricesBlock(d.fields.prices);
    PrefixConcat(p, FieldLines(d.fields, DisplayOrder));
    PrefixConcat(x, SetupBlock(d.fields.setupNotes));
    PrefixConcat(y, PricesBlock(d.fields.prices));
    PrefixConcat(z, "\nMenu Items:\n");
    DetailsExtends(d);
    PrefixTrans(p, x, y);
    PrefixTrans(p, y, z);
    PrefixTrans(p, z, HeaderText(d));
    PrefixTrans(p, HeaderText(d), HeaderAndMenu(d));
    PrefixTrans(p, HeaderAndMenu(d), AddBlocks(HeaderAndMenu(d), d.pricing));
    PrefixTrans(p, AddBlocks(HeaderAndMenu(d), d.pricing), DetailsText(d));
    PrefixStartsWith(p, DetailsText(d));
  }

  /** What the header part shows, the details text shows. */
  lemma HeaderInDetails(d: EventDetails, sub: string)
    requires Contains(HeaderText(d), sub)
    ensures Contains(DetailsText(d), sub)
  {
    DetailsExtends(d);
    ContainsPrefix(HeaderText(d), HeaderAndMenu(d), sub);
    ContainsPrefix(HeaderAndMenu(d), AddBlocks(HeaderAndMenu(d), d.pricing), sub);
    ContainsPrefix(AddBlocks(HeaderAndMenu(d), d.pricing), DetailsText(d), sub);
  }

  /** What the menu part shows, the details text shows. */
  lemma MenuInDetails(d: EventDetails, sub: string)
    requires Contains(HeaderAndMenu(d), sub)
    ensures Contains(DetailsText(d), sub)
  {
    DetailsExtends(d);
    ContainsPrefix(HeaderAndMenu(d), AddBlocks(HeaderAndMenu(d), d.pricing), sub);
    ContainsPrefix(AddBlocks(HeaderAndMenu(d), d.pricing), DetailsText(d), sub);
  }

  lemma {:induction false} FieldLinesContain(fields: EventFields, fs: seq<Field>, k: nat)
    requires forall j :: 0 <= j < |fs| ==> fs[j] != Price
    requires k < |fs|
    ensures Contains(FieldLines(fields, fs), FieldLine(fields, fs[k]))
    decreases |fs|
  {
    var last := |fs| - 1;
    if k == last {
      ContainsSelf(FieldLine(fields, fs[k]));
      ContainsAfter(FieldLines(fields, fs[..last]), FieldLine(fields, fs[k]), FieldLine(fields, fs[k]));
    } else {
      FieldLinesContain(fields, fs[..last], k);
      assert fs[..last][k] == fs[k];
      ContainsBefore(FieldLines(fields, fs[..last]), FieldLine(fields, fs[last]), FieldLine(fields, fs[k]));
    }
  }

  /** Each listed field shows its value, or "Not specified" when it is unset (None or empty). */
  lemma FieldShown(d: EventDetails, k: nat)
    requires k < |DisplayOrder|
    ensures Contains(DetailsText(d), FieldLabel(DisplayOrder[k]) + ": "
      + (if Unset(Get(d.fields, DisplayOrder[k])) then NotSpecified else Get(d.fields, DisplayOrder[k]).value)
      + "\n")
  {
    var line := FieldLine(d.fields, DisplayOrder[k]);
    var p := "\nEvent: " + d.eventName + "\n";
    var x := p + FieldLines(d.fields, DisplayOrder);
    FieldLinesContain(d.fields, DisplayOrder, k);
    ContainsAfter(p, FieldLines(d.fields, DisplayOrder), line);
    ContainsBefore(x, SetupBlock(d.fields.setupNotes), line);
    ContainsBefore(x + SetupBlock(d.fields.setupNotes), PricesBlock(d.fields.prices), line);
    ContainsBefore(x + SetupBlock(d.fields.setupNotes) + PricesBlock(d.fields.prices), "\nMenu Items:\n", line);
    HeaderInDetails(d, line);
  }

  /** The setup notes are shown under their heading, or the placeholder when unset. */
  lemma SetupShown(d: EventDetails)
    ensures Contains(DetailsText(d), "\nSetup Notes:\n"
      + (if Unset(d.fields.setupNotes) then NoSetupNotes else d.fields.setupNotes.value) + "\n")
  {
    var b := SetupBlock(d.fields.setupNotes);
    var x := "\nEvent: " + d.eventName + "\n" + FieldLines(d.fields, DisplayOrder);
    ContainsSelf(b);
    ContainsAfter(x, b, b);
    ContainsBefore(x + b, PricesBlock(d.fields.prices), b);
    ContainsBefore(x + b + PricesBlock(d.fields.prices), "\nMenu Items:\n", b);
    HeaderInDetails(d, b);
  }

  /** Every extracted price is listed as a dash item. */
  lemma PriceShown(d: EventDetails, k: nat)
    requires k < |d.fields.prices|
    ensures Contains(DetailsText(d), "- " + d.fields.prices[k])
  {
    var ps := d.fields.prices;
    var item := PriceItems(ps)[k];
    var x := "\nEvent: " + d.eventName + "\n" + FieldLines(d.fields, DisplayOrder) + SetupBlock(d.fields.setupNotes);
    JoinContains(PriceItems(ps), '\n', k);
    ContainsAfter("\nPricing Information:\n", PriceLines(ps), item);
    ContainsBefore("\nPricing Information:\n" + PriceLines(ps), "\n", item);
    ContainsAfter(x, PricesBlock(ps), item);
    ContainsBefore(x + PricesBlock(ps), "\nMenu Items:\n", item);
    HeaderInDetails(d, item);
  }

  lemma {:induction false} AddBulletsContain(t: string, items: seq<string>, k: nat)
    requires k < |items|
    ensures Contains(AddBullets(t, items), Bullet(items[k]))
    decreases |items|
  {
    var last := |items| - 1;
    if k == last {
      ContainsSelf(Bullet(items[k]));
      ContainsAfter(AddBullets(t, items[..last]), Bullet(items[k]), Bullet(items[k]));
    } else {
      AddBulletsContain(t, items[..last], k);
      assert items[..last][k] == items[k];
      ContainsBefore(AddBullets(t, items[..last]), Bullet(items[last]), Bullet(items[k]));
    }
  }

  /** What a section adds: its header line and each of its items. */
  lemma SectionContains(u: string, s: Section)
    ensures Contains(AddSection(u, s), SectionHeader(s.header))
    ensures forall j :: 0 <= j < |s.items| ==> Contains(AddSection(u, s), Bullet(s.items[j]))
  {
    var h := SectionHeader(s.header);
    ContainsSelf(h);
    ContainsAfter(u, h, h);
    AddBulletsExtends(u + h, s.items);
    ContainsPrefix(u + h, AddSection(u, s), h);
    forall j | 0 <= j < |s.items| ensures Contains(AddSection(u, s), Bullet(s.items[j])) {
      AddBulletsContain(u + h, s.items, j);
    }
  }

  lemma {:induction false} AddMenuContains(t: string, sections: seq<Section>, k: nat, sub: string)
    requires k < |sections|
    requires Contains(AddSection(AddMenu(t, sections[..k]), sections[k]), sub)
    ensures Contains(AddMenu(t, sections), sub)
    decreases |sections|
  {
    var last := |sections| - 1;
    if k < last {
      var pre := sections[..last];
      assert pre[..k] == sections[..k] && pre[k] == sections[k];
      AddMenuContains(t, pre, k, sub);
      AddSectionExtends(AddMenu(t, pre), sections[last]);
      ContainsPrefix(AddMenu(t, pre), AddMenu(t, sections), sub);
    }
  }

  /** Every menu section is listed under its header, with each of its items as a dash item. */
  lemma MenuShown(d: EventDetails, k: nat)
    requires k < |d.menuItems|
    ensures Contains(DetailsText(d), "\n" + d.menuItems[k].header + ":\n")
    ensures forall j :: 0 <= j < |d.menuItems[k].items| ==>
      Contains(DetailsText(d), "- " + d.menuItems[k].items[j] + "\n")
  {
    var h := HeaderText(d);
    var s := d.menuItems[k];
    var u := AddSection(AddMenu(h, d.menuItems[..k]), s);
    SectionContains(AddMenu(h, d.menuItems[..k]), s);
    AddMenuContains(h, d.menuItems, k, SectionHeader(s.header));
    MenuInDetails(d, SectionHeader(s.header));
    forall j | 0 <= j < |s.items| ensures Contains(DetailsText(d), "- " + s.items[j] + "\n") {
      AddMenuContains(h, d.menuItems, k, Bullet(s.items[j]));
      MenuInDetails(d, Bullet(s.items[j]));
    }
  }

  /** A non-empty block shows its title and every one of its line items. */
  lemma BlockContains(t: string, title: string, items: seq<string>, k: nat)
    requires k < |items|
    ensures Contains(AddBlock(t, title, items), title)
    ensures Contains(AddBlock(t, title, items), Bullet(items[k]))
  {
    ContainsSelf(title);
    ContainsAfter(t, title, title);
    AddBulletsExtends(t + title, items);
    ContainsPrefix(t + title, AddBlock(t, title, items), title);
    AddBulletsContain(t + title, items, k);
  }

  /** What the charge blocks show, the details text shows. */
  lemma BlocksInDetails(d: EventDetails, sub: string)
    requires Contains(AddBlocks(HeaderAndMenu(d), d.pricing), sub)
    ensures Contains(DetailsText(d), sub)
  {
    DetailsExtends(d);
    ContainsPrefix(AddBlocks(HeaderAndMenu(d), d.pricing), DetailsText(d), sub);
  }

  /** Every per-person charge is listed, by its line item, under its block's title. */
  lemma PerPersonChargeShown(d: EventDetails, k: nat)
    requires k < |d.pricing.perPersonCharges|
    ensures Contains(DetailsText(d), "\nPer Person Charges:\n")
    ensures Contains(DetailsText(d), Bullet(d.pricing.perPersonCharges[k].lineItem))
  {
    var b := d.pricing;
    var t1 := HeaderAndMenu(d) + "\nDetailed Pricing Breakdown:\n";
    var t2 := AddBlock(t1, "\nPer Person Charges:\n", PerPersonItems(b.perPersonCharges));
    var t3 := AddBlock(t2, "\nStaff Charges:\n", StaffItems(b.staffCharges));
    var t4 := AddBlock(t3, "\nAdditional Charges:\n", FlatItems(b.flatCharges));
    var t5 := AddBlock(t4, "\nTBD Charges:\n", TbdItems(b.additionalCharges));
    assert t5 == AddBlocks(HeaderAndMenu(d), b);
    BlockContains(t1, "\nPer Person Charges:\n", PerPersonItems(b.perPersonCharges), k);
    AddBlockExtends(t2, "\nStaff Charges:\n", StaffItems(b.staffCharges));
    AddBlockExtends(t3, "\nAdditional Charges:\n", FlatItems(b.flatCharges));
    AddBlockExtends(t4, "\nTBD Charges:\n", TbdItems(b.additionalCharges));
    var title := "\nPer Person Charges:\n";
    var item := Bullet(b.perPersonCharges[k].lineItem);
    ContainsPrefix(t2, t3, title);
    ContainsPrefix(t3, t4, title);
    ContainsPrefix(t4, t5, title);
    BlocksInDetails(d, title);
    ContainsPrefix(t2, t3, item);
    ContainsPrefix(t3, t4, item);
    ContainsPrefix(t4, t5, item);
    BlocksInDetails(d, item);
  }

  /** Every staff charge is listed, by its line item, under its block's title. */
  lemma StaffChargeShown(d: EventDetails, k: nat)
    requires k < |d.pricing.staffCharges|
    ensures Contains(DetailsText(d), "\nStaff Charges:\n")
    ensures Contains(DetailsText(d), Bullet(d.pricing.staffCharges[k].lineItem))
  {
    var b := d.pricing;
    var t1 := HeaderAndMenu(d) + "\nDetailed Pricing Breakdown:\n";
    var t2 := AddBlock(t1, "\nPer Person Charges:\n", PerPersonItems(b.perPersonCharges));
    var t3 := AddBlock(t2, "\nStaff Charges:\n", StaffItems(b.staffCharges));
    var t4 := AddBlock(t3, "\nAdditional Charges:\n", FlatItems(b.flatCharges));
    var t5 := AddBlock(t4, "\nTBD Charges:\n", TbdItems(b.additionalCharges));
    assert t5 == AddBlocks(HeaderAndMenu(d), b);
    BlockContains(t2, "\nStaff Charges:\n", StaffItems(b.staffCharges), k);
    AddBlockExtends(t3, "\nAdditional Charges:\n", FlatItems(b.flatCharges));
    AddBlockExtends(t4, "\nTBD Charges:\n", TbdItems(b.additionalCharges));
    var title := "\nStaff Charges:\n";
    var item := Bullet(b.staffCharges[k].lineItem);
    ContainsPrefix(t3, t4, title);
    ContainsPrefix(t4, t5, title);
    BlocksInDetails(d, title);
    ContainsPrefix(t3, t4, item);
    ContainsPrefix(t4, t5, item);
    BlocksInDetails(d, item);
  }

  /** Every flat charge is listed, by its line item, under the "Additional Charges" title. */
  lemma FlatChargeShown(d: EventDetails, k: nat)
    requires k < |d.pricing.flatCharges|
    ensures Contains(DetailsText(d), "\nAdditional Charges:\n")
    ensures Contains(DetailsText(d), Bullet(d.pricing.flatCharges[k].lineItem))
  {
    var b := d.pricing;
    var t1 := HeaderAndMenu(d) + "\nDetailed Pricing Breakdown:\n";
    var t2 := AddBlock(t1, "\nPer Person Charges:\n", PerPersonItems(b.perPersonCharges));
    var t3 := AddBlock(t2, "\nStaff Charges:\n", StaffItems(b.staffCharges));
    var t4 := AddBlock(t3, "\nAdditional Charges:\n", FlatItems(b.flatCharges));
    var t5 := AddBlock(t4, "\nTBD Charges:\n", TbdItems(b.additionalCharges));
    assert t5 == AddBlocks(HeaderAndMenu(d), b);
    BlockContains(t3, "\nAdditional Charges:\n", FlatItems(b.flatCharges), k);
    AddBlockExtends(t4, "\nTBD Charges:\n", TbdItems(b.additionalCharges));
    ContainsPrefix(t4, t5, "\nAdditional Charges:\n");
    BlocksInDetails(d, "\nAdditional Charges:\n");
    ContainsPrefix(t4, t5, Bullet(b.flatCharges[k].lineItem));
    BlocksInDetails(d, Bullet(b.flatCharges[k].lineItem));
  }

  /** Every "TBD" charge is listed, by its line item, under the "TBD Charges" title. */
  lemma TbdChargeShown(d: EventDetails, k: nat)
    requires k < |d.pricing.additionalCharges|
    ensures Contains(DetailsText(d), "\nTBD Charges:\n")
    ensures Contains(DetailsText(d), Bullet(d.pricing.additionalCharges[k].lineItem))
  {
    var b := d.pricing;
    var t4 := AddBlock(AddBlock(AddBlock(HeaderAndMenu(d) + "\nDetailed Pricing Breakdown:\n",
      "\nPer Person Charges:\n", PerPersonItems(b.perPersonCharges)),
      "\nStaff Charges:\n", StaffItems(b.staffCharges)),
      "\nAdditional Charges:\n", FlatItems(b.flatCharges));
    assert AddBlock(t4, "\nTBD Charges:\n", TbdItems(b.additionalCharges)) == AddBlocks(HeaderAndMenu(d), b);
    BlockContains(t4, "\nTBD Charges:\n", TbdItems(b.additionalCharges), k);
    BlocksInDetails(d, "\nTBD Charges:\n");
    BlocksInDetails(d, Bullet(b.additionalCharges[k].lineItem));
  }

  /** What the summary block shows: its heading once some value is truthy, and each truthy
      amount on its own labelled line, the tax line with its rate. */
  lemma SummaryContains(t: string, s: Summary)
    ensures AnyTruthy(s) ==> Contains(AddSummary(t, s), "\nSummary:\n")
    ensures Truthy(s.subtotal) ==>
      Contains(AddSummary(t, s), "Subtotal" + ": $" + s.subtotal.value + "\n")
    ensures Truthy(s.serviceFee) ==>
      Contains(AddSummary(t, s), "Service Fee" + ": $" + s.serviceFee.value + "\n")
    ensures Truthy(s.deliverySetup) ==>
      Contains(AddSummary(t, s), "Delivery & Setup" + ": $" + s.deliverySetup.value + "\n")
    ensures Truthy(s.tax) ==>
      Contains(AddSummary(t, s), "Tax (" + RateText(s.taxRate) + "%)" + ": $" + s.tax.value + "\n")
    ensures Truthy(s.grandTotal) ==>
      Contains(AddSummary(t, s), "Grand Total" + ": $" + s.grandTotal.value + "\n")
  {
    if AnyTruthy(s) {
      var h := "\nSummary:\n";
      var l1 := AmountLine("Subtotal", s.subtotal);
      var l2 := AmountLine("Service Fee", s.serviceFee);
      var l3 := AmountLine("Delivery & Setup", s.deliverySetup);
      var l4 := AmountLine("Tax (" + RateText(s.taxRate) + "%)", s.tax);
      var l5 := AmountLine("Grand Total", s.grandTotal);
      assert AddSummary(t, s) == t + h + l1 + l2 + l3 + l4 + l5;
      BlockParts(t, h, l1, l2, l3, l4, l5);
      if Truthy(s.subtotal) {
        assert l1 == "Subtotal" + ": $" + s.subtotal.value + "\n";
      }
      if Truthy(s.serviceFee) {
        assert l2 == "Service Fee" + ": $" + s.serviceFee.value + "\n";
      }
      if Truthy(s.deliverySetup) {
        assert l3 == "Delivery & Setup" + ": $" + s.deliverySetup.value + "\n";
      }
      if Truthy(s.tax) {
        assert l4 == "Tax (" + RateText(s.taxRate) + "%)" + ": $" + s.tax.value + "\n";
      }
      if Truthy(s.grandTotal) {
        assert l5 == "Grand Total" + ": $" + s.grandTotal.value + "\n";
      }
    }
  }

  /** Every piece of a summary block occurs in it. */
  lemma BlockParts(t: string, h: string, l1: string, l2: string, l3: string, l4: string, l5: string)
    ensures var all := t + h + l1 + l2 + l3 + l4 + l5;
      Contains(all, h) && Contains(all, l1) && Contains(all, l2) && Contains(all, l3)
      && Contains(all, l4) && Contains(all, l5)
  {
    var all := t + h + l1 + l2 + l3 + l4 + l5;
    ContainsMiddle(t, h, l1 + l2 + l3 + l4 + l5);
    assert t + h + (l1 + l2 + l3 + l4 + l5) == all;
    ContainsMiddle(t + h, l1, l2 + l3 + l4 + l5);
    assert t + h + l1 + (l2 + l3 + l4 + l5) == all;
    ContainsMiddle(t + h + l1, l2, l3 + l4 + l5);
    assert t + h + l1 + l2 + (l3 + l4 + l5) == all;
    ContainsMiddle(t + h + l1 + l2, l3, l4 + l5);
    assert t + h + l1 + l2 + l3 + (l4 + l5) == all;
    ContainsMiddle(t + h + l1 + l2 + l3, l4, l5);
    ContainsMiddle(t + h + l1 + l2 + l3 + l4, l5, []);
    assert t + h + l1 + l2 + l3 + l4 + l5 + [] == all;
  }

  /** The summary as it appears in the details text. */
  lemma SummaryShown(d: EventDetails)
    ensures AnyTruthy(d.pricing.summary) ==> Contains(DetailsText(d), "\nSummary:\n")
    ensures Truthy(d.pricing.summary.subtotal) ==>
      Contains(DetailsText(d), "Subtotal" + ": $" + d.pricing.summary.subtotal.value + "\n")
    ensures Truthy(d.pricing.summary.serviceFee) ==>
      Contains(DetailsText(d), "Service Fee" + ": $" + d.pricing.summary.serviceFee.value + "\n")
    ensures Truthy(d.pricing.summary.deliverySetup) ==>
      Contains(DetailsText(d), "Delivery & Setup" + ": $" + d.pricing.summary.deliverySetup.value + "\n")
    ensures Truthy(d.pricing.summary.tax) ==>
      Contains(DetailsText(d), "Tax (" + RateText(d.pricing.summary.taxRate) + "%)" + ": $"
        + d.pricing.summary.tax.value + "\n")
    ensures Truthy(d.pricing.summary.grandTotal) ==>
      Contains(DetailsText(d), "Grand Total" + ": $" + d.pricing.summary.grandTotal.value + "\n")
  {
    SummaryContains(AddBlocks(HeaderAndMenu(d), d.pricing), d.pricing.summary);
  }

  /** A rendered amount line `Label: $amount` holds no `=`, which every pricing pattern needs:
      parsed back as a pricing-section line it is recorded nowhere, so the summary block does
      not survive rendering followed by re-extraction. */
  lemma AmountLineNotReparsed(name: string, v: Decimal)
    requires NoEquals(name)
    ensures Classify(name + ": $" + v) == Unrecognised
  {
    var line := name + ": $" + v;
    forall k | 0 <= k < |line| ensures line[k] != '=' {
      if k < |name| {
        assert line[k] == name[k];
      } else if k >= |name| + 3 {
        assert line[k] == v[k - |name| - 3];
      }
    }
    NoEqualsUnrecognised(line);
  }
}
