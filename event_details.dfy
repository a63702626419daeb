/** `extract_event_details` (pdf_processor.py:198-348) as a whole: the event name and its
    variations, the pattern fields, the menu sections and the pricing breakdown of one text. */
module EventDetails {
  import opened Text
  import opened Metadata
  import opened Menu
  import opened EventName
  import opened Pricing

  /** The `details` dictionary the extractor returns. */
  datatype EventDetails = EventDetails(
    eventName: string,
    variations: seq<string>,
    fields: EventFields,
    menuItems: seq<Section>,
    pricing: PricingBreakdown,
    fullText: string)

  /** What `extract_event_details(text, filename)` returns, or the `ValueError` that the
      pricing extraction raises out of it. */
  function EventDetailsOf(text: string, filename: string): Result<EventDetails, ParseError> {
    var lines := Split(text, '\n');
    var name := ResolvedName(lines, filename);
    var pricing :- PricingDetails(text);
    Ok(EventDetails(name, Variations(name), FieldsOf(text), MenuScan(lines).sections, pricing, text))
  }

  /** The extractor, step by step in the source's order. */
  method ExtractEventDetails(text: string, filename: string) returns (r: Result<EventDetails, ParseError>)
    ensures r == EventDetailsOf(text, filename)
  {
    var lines := Split(text, '\n');
    var eventName := ResolveEventName(lines, filename);
    var variations := Variations(eventName);
    var fields := ExtractFields(text);
    var menuItems := ExtractMenuSections(lines);
    var pricing := ExtractPricingDetails(text);
    if pricing.Err? {
      return Err(pricing.error);
    }
    r := Ok(EventDetails(eventName, variations, fields, menuItems, pricing.value, text));
  }

  /** The only way the extractor fails is an amount of the pricing section that `float()`
      rejects; otherwise the details keep the full text, the name heads its variations, the
      menu sections are well formed and the pricing breakdown is well formed. */
  lemma EventDetailsProperties(text: string, filename: string)
    ensures EventDetailsOf(text, filename).Err? <==> PricingDetails(text).Err?
    ensures EventDetailsOf(text, filename).Ok? ==>
      var d := EventDetailsOf(text, filename).value;
      d.fullText == text && d.variations[0] == d.eventName
      && d.fields == FieldsOf(text)
      && SectionsWellFormed(d.menuItems)
    ensures EventDetailsOf(text, filename).Ok? ==> WellFormed(EventDetailsOf(text, filename).value.pricing)
  {
    MenuScanWellFormed(Split(text, '\n'));
    if PricingDetails(text).Ok? {
      PricingDetailsWellFormed(text);
    }
  }
}
