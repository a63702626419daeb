# Menu Creator: a verified model of the PDF extraction core

The Menu Creator indexes a folder of catering PDFs for a retrieval-augmented chat application.
For each PDF it extracts an event record from the text:

- the event name and its search variations;
- date, time, guest count, location, setup notes, invoice number, contact, e-mail and phone;
- every price mention;
- the menu sections and their items;
- a pricing breakdown taken from the "Pricing" section of the text.

From each record it builds two documents for the vector store: an "event_menu" document with the
full text, and an "event_details" document holding a rendered summary. One "base_pricing"
document closes the list. The chat page routes each question to one of three handlers by phrase
lists, and keeps a short chat history.

This project models that core in Dafny and proves properties of the model.

**Python idioms**

- Python regular expressions become hand-written recognisers with the same capture behaviour.
  The lazy `(.*?)` is the shortest prefix after which the rest matches (`Scan.LazyFrom`), and
  `re.finditer` is a generic left-to-right scan (`MetadataPatterns.Occurrences`).
- `float()` on a captured amount becomes `Pricing.ParseAmount`. It yields either the
  comma-free decimal text or the `ValueError` that aborts the document.
- Python's `str` methods (`strip`, `split`, `lower`, `title`, `in`, `startswith`) are modelled in
  module `Text`.

**Modules**

- `Pricing` with `PricingPatterns` and `Scan`: `extract_pricing_details`, that is, the section
  search, the eight-pattern cascade and the recorded charges.
- `MetadataPatterns` and `Metadata`: the metadata loop of `extract_event_details`.
- `EventName`: the event-name search and its variations.
- `Menu`: the menu-section state machine.
- `EventDetails`: `extract_event_details` as a whole.
- `Documents`: `create_documents` and the rendered details text.
- `Batch`: the document loop of `process_all_pdfs`.
- `Routing`: `_determine_query_type`.
- `History`: the session's chat history, as a class whose method updates the stored list.

Each imperative loop is a method proved equal to a pure reference function. The lemmas state what
those functions promise.

## Model

| member | source | states |
|---|---|---|
| Pricing.ParseFloat | pdf_processor.py:147 | `float(rate)` succeeds exactly on a decimal text (digits, at most one dot, at least one digit) and keeps it; otherwise it is an `InvalidNumber` error |
| Pricing.ParseAmount | pdf_processor.py:123 | an amount converts after its commas are removed; it fails exactly when the comma-free text is not a decimal |
| Pricing.PricingHeaderLower | pdf_processor.py:84 | a line is a pricing header exactly when, stripped and lower-cased, it is `pricing` |
| Pricing.ContinuesSectionLower | pdf_processor.py:88 | the section continues exactly on a line whose stripped text is non-empty and, lower-cased, starts with neither "menu" nor "contact" |
| Pricing.HeaderIndexFirst | pdf_processor.py:83-84 | the header search finds the first line matching `^\s*pricing\s*$` case-insensitively; `None` means no line is a header |
| Pricing.SectionEndStops | pdf_processor.py:86-90 | every collected line is non-blank and starts with neither "menu" nor "contact" (lower-cased), and the line that ends the section fails that test |
| Pricing.HeaderFound | pdf_processor.py:83-92 | when the search reaches a header line with no header before it, the section is the stripped lines after that header, up to the section end |
| Pricing.NoHeader | pdf_processor.py:83-95 | a search that passes every line without finding a header yields no section |
| Pricing.CollectSection | pdf_processor.py:86-91 | the inner `while` loop collects exactly the stripped lines from the line after the header up to the section end |
| Pricing.FindPricingSection | pdf_processor.py:80-92 | the search loop yields no section exactly when no header line exists, else the `'\n'`-joined stripped section lines after the first header |
| Pricing.SectionNoNewline | pdf_processor.py:82-91 | section lines hold no line feed, so splitting the joined section again gives back the same lines |
| Pricing.Classify | pdf_processor.py:118-142 | a per-person match carries an all-digit guest count, a staff match never comes from a line mentioning "guest" and carries an all-digit count when present, a flat match never names an aggregate |
| Pricing.ClassifySummary | pdf_processor.py:144-171 | once both charge patterns fail, the line is never a per-person or staff charge, and a flat match never names an aggregate |
| Pricing.ClassifyFallback | pdf_processor.py:173-194 | the TBD and flat-rate fallbacks never produce a charge of the first two kinds, and flat items are never aggregates |
| Pricing.ChargePrecedence | pdf_processor.py:118-142 | a line is a per-person charge exactly when that pattern matches, a staff charge exactly when only the staff pattern matches and the line has no "guest", and goes on to the summary patterns when neither is recorded |
| Pricing.SummaryPrecedence | pdf_processor.py:144-171 | tax, service fee, delivery and grand total each take a line exactly when they match and no earlier one does; a line none matches goes on to the fallbacks |
| Pricing.FallbackPrecedence | pdf_processor.py:173-194 | TBD takes a line exactly when it matches; flat rate exactly when TBD fails, flat rate matches and the item names no aggregate; otherwise the line is recorded nowhere |
| Pricing.ClassifyPrecedence | pdf_processor.py:116-194 | first match wins, in the order per-person, staff (only without "guest"), tax, service fee, delivery, grand total, TBD, flat rate (only for non-aggregate items); a flat line is one that matches no earlier pattern |
| Pricing.EqualsNeeded | pdf_processor.py:101-106 | the `\s*=` step of the patterns cannot match on a line without `=` |
| Pricing.ChargesNeedEquals | pdf_processor.py:99-100 | the per-person and staff patterns need a `=` |
| Pricing.TaxNeedsEquals | pdf_processor.py:101 | the tax pattern needs a `=` |
| Pricing.ServiceFeeNeedsEquals | pdf_processor.py:102 | the service-fee pattern needs a `=` |
| Pricing.DeliveryNeedsEquals | pdf_processor.py:103 | the delivery pattern needs a `=` |
| Pricing.GrandTotalNeedsEquals | pdf_processor.py:104 | the grand-total pattern needs a `=` |
| Pricing.FallbacksNeedEquals | pdf_processor.py:105-106 | the TBD and flat-rate patterns need a `=` |
| Pricing.NoEqualsUnrecognised | pdf_processor.py:116-194 | a section line without `=` is recorded in no list and no summary field |
| Pricing.RecordExtends | pdf_processor.py:121-194 | one line appends at most one charge, and earlier charges are kept in order |
| Pricing.RecordWellFormed | pdf_processor.py:121-194 | recording a classified line preserves the breakdown invariant: no subtotal, no staff line mentioning guests, no aggregate flat item, and every additional charge is "TBD" |
| Pricing.StaffRecordWellFormed | pdf_processor.py:132-142 | a staff charge keeps the invariant |
| Pricing.FlatRecordWellFormed | pdf_processor.py:185-194 | a flat charge keeps the invariant |
| Pricing.TbdRecordWellFormed | pdf_processor.py:174-182 | a TBD charge keeps the invariant; its amount is the "TBD" sentinel |
| Pricing.OtherRecordWellFormed | pdf_processor.py:119-171 | per-person and summary lines keep the invariant, and the subtotal is never set |
| Pricing.StepPreserves | pdf_processor.py:110-194 | one loop iteration (blank lines skipped) keeps the invariant, only appends, and adds at most one charge |
| Pricing.ParseLinesWellFormed | pdf_processor.py:110-194 | the loop result is well formed and holds no more charges than section lines |
| Pricing.ParseLinesPrefix | pdf_processor.py:110-194 | the breakdown of any prefix of the section is kept, in order, by the breakdown of the whole section |
| Pricing.ErrorAborts | pdf_processor.py:123 | once a conversion raises, later lines change nothing: the first error is the result |
| Pricing.NoHeaderNoCharges | pdf_processor.py:94-95 | a text without a pricing header yields empty lists and an all-`None` summary |
| Pricing.PricingDetailsWellFormed | pdf_processor.py:63-196 | every successful result is well formed, has no more charges than section lines, and is empty when there is no section |
| Pricing.ClassifyLine | pdf_processor.py:116-194 | the cascade of `if match: ... continue` blocks records what `Classify` selects |
| Pricing.ClassifySummaryLine | pdf_processor.py:144-171 | the summary blocks of the cascade record what `ClassifySummary` selects |
| Pricing.ClassifyFallbackLine | pdf_processor.py:173-194 | the TBD and flat-rate blocks record what `ClassifyFallback` selects |
| Pricing.ClassifyLines | pdf_processor.py:110-194 | the line loop computes the left fold of the per-line step, stopping at the first conversion error |
| Pricing.ExtractPricingDetails | pdf_processor.py:63-196 | the extractor returns the specified breakdown or the first conversion error |
| PricingPatterns.EqualsAmount | pdf_processor.py:105 | `\s*=\s*\$([\d,.]+)` captures only digits, commas and dots, and never captures an empty amount |
| PricingPatterns.AtAmount | pdf_processor.py:99-100 | `\s*at\s*\$([\d,.]+)` captures a non-empty amount and ends within the line |
| PricingPatterns.WsDigits | pdf_processor.py:99 | `\s*(\d+)` captures a non-empty run of digits and ends within the line |
| PricingPatterns.WsOptDigits | pdf_processor.py:100 | `\s*(?P<count>\d+)?` ends within the line, and what it captures is a non-empty run of digits |
| PricingPatterns.PerGuestTimes | pdf_processor.py:99 | `per guest x N guests?` captures a non-empty digit count |
| PricingPatterns.PerPersonTail | pdf_processor.py:99 | the part after the item captures two amounts and a digit count |
| PricingPatterns.MatchPerPerson | pdf_processor.py:99 | a per-person match has an all-digit guest count, so `int()` cannot fail |
| PricingPatterns.StaffTail | pdf_processor.py:100 | the part after the role captures two amounts and an optional digit count |
| PricingPatterns.MatchStaff | pdf_processor.py:100 | a captured staff count is all digits |
| PricingPatterns.FlatTail | pdf_processor.py:105 | the flat-rate tail captures a non-empty amount |
| PricingPatterns.MatchPerPersonShortest | pdf_processor.py:99 | the lazy item is the shortest line prefix after which the rest of the pattern matches |
| PricingPatterns.MatchStaffShortest | pdf_processor.py:100 | the lazy role is the shortest line prefix after which the rest of the pattern matches |
| PricingPatterns.MatchTbdShortest | pdf_processor.py:106 | the lazy TBD item is the shortest prefix followed by `= t.b.d.` or `= TBD` |
| PricingPatterns.MatchFlatRateShortest | pdf_processor.py:105 | the lazy flat item is the shortest prefix followed by `= $amount` |
| PricingPatterns.MatchTaxAnchored | pdf_processor.py:101 | a tax match starts the line with a non-empty rate of digits and dots |
| PricingPatterns.SummaryMatchesAnchored | pdf_processor.py:102-104 | service-fee, delivery and grand-total matches start at the line's first character and capture amount characters only |
| PricingPatterns.ServiceFeeAnchored | pdf_processor.py:102 | a service-fee match starts the line with "service" and captures amount characters only |
| PricingPatterns.DeliveryAnchored | pdf_processor.py:103 | a delivery match starts the line with "delivery" and captures amount characters only |
| PricingPatterns.GrandTotalAnchored | pdf_processor.py:104 | a grand-total match starts the line with "grand" and captures amount characters only |
| Scan.LazyFrom | pdf_processor.py:99-106 | the lazy `(.*?)`: the shortest extension, not crossing a line feed, after which the rest matches; none when no position up to the line end works |
| MetadataPatterns.MatcherAdvances | pdf_processor.py:201-240 | every metadata pattern, tried at any position of the text, matches a non-empty stretch inside the text with its group inside the match, so the `finditer` scan makes progress |
| MetadataPatterns.Occurrences | pdf_processor.py:310-311 | the `finditer` scan reports matches inside the text, from the scan position on |
| MetadataPatterns.FindAll | pdf_processor.py:310 | all matches of one pattern lie within the text |
| MetadataPatterns.OccurrencesMatch | pdf_processor.py:310-311 | each reported match is what the pattern matches at its start, and matches come left to right without overlap |
| MetadataPatterns.OccurrencesLeftmost | pdf_processor.py:310-311 | no match starts in a gap between reported matches: each is the leftmost one after the previous |
| MetadataPatterns.MatchPriceDollar | pdf_processor.py:203 | the dollar-amount price pattern, with its optional per-person suffix, matches within the text |
| MetadataPatterns.MatchLabelledPrice | pdf_processor.py:204-205 | the labelled price patterns match within the text |
| MetadataPatterns.MatchDateLabelled | pdf_processor.py:208 | the labelled date pattern matches within the text, its group within the match |
| MetadataPatterns.MatchDateNumeric | pdf_processor.py:209 | the numeric date pattern matches within the text |
| MetadataPatterns.MatchDateWritten | pdf_processor.py:210 | the written date pattern matches within the text |
| MetadataPatterns.LastDigitPairLast | pdf_processor.py:208 | the greedy date group ends at the last two-digit run it can reach |
| MetadataPatterns.MatchTimeLabelled | pdf_processor.py:213 | the labelled time pattern's match lies within the text and captures a non-empty group that runs to the end of the match |
| MetadataPatterns.TimeInsideDate | pdf_processor.py:213 | `at:?` has no word boundary: on `Date: May 5` nothing matches at the line's start, and the pattern matches at the "at" of "Date" and captures `e: May 5` |
| MetadataPatterns.MatchTimeClock | pdf_processor.py:214 | the clock-time pattern matches within the text |
| MetadataPatterns.MatchLabelledDigits | pdf_processor.py:217 | the labelled guest count's match lies within the text and captures a non-empty group made only of digits |
| MetadataPatterns.MatchGuestsServing | pdf_processor.py:218 | the "for/serving N people" pattern matches within the text |
| MetadataPatterns.MatchLabelledLine | pdf_processor.py:219-231 | the label-then-rest-of-line patterns match within the text |
| MetadataPatterns.ContinuationEnd | pdf_processor.py:225 | the setup-notes continuation lines end within the text |
| MetadataPatterns.MatchSetup | pdf_processor.py:225 | the setup-notes pattern matches within the text |
| MetadataPatterns.MatchInvoice | pdf_processor.py:228 | the invoice pattern matches within the text |
| MetadataPatterns.LastDotLast | pdf_processor.py:234-235 | the greedy domain of an address ends at the last dot followed by two letters |
| MetadataPatterns.MatchEmailLabelled | pdf_processor.py:234 | the labelled e-mail pattern matches within the text |
| MetadataPatterns.MatchEmailBare | pdf_processor.py:235 | the bare e-mail pattern matches within the text |
| MetadataPatterns.MatchPhoneLabelled | pdf_processor.py:238 | the labelled phone pattern matches within the text |
| MetadataPatterns.MatchPhoneDescribed | pdf_processor.py:239 | the described phone pattern matches within the text |
| Metadata.Set | pdf_processor.py:317-320 | storing one field changes that field and no other |
| Metadata.Occs | pdf_processor.py:309-311 | the matches of a field's patterns, pattern by pattern, all lie within the text |
| Metadata.GroupsSnoc | pdf_processor.py:311-320 | one more match adds its group and its whole match after the earlier ones |
| Metadata.KeepFirstAllBlank | pdf_processor.py:319-320 | when every capture is blank the field stays unset, and is the empty string when something matched |
| Metadata.KeepFirstTakesFirst | pdf_processor.py:319-320 | the field holds the first capture that is not blank once stripped |
| Metadata.KeepFirstIsFirstNonBlank | pdf_processor.py:319-320 | the `if not details[field]` fold equals the reference "first non-blank capture" definition |
| Metadata.KeepFirstSnoc | pdf_processor.py:319-320 | one more capture is stored only while the field is unset |
| Metadata.SettleSnoc | pdf_processor.py:311-320 | one more match appends a price, overwrites the setup notes, or fills another field only while it is unset |
| Metadata.OccsSnoc | pdf_processor.py:309-310 | the patterns of a field are scanned in list order |
| Metadata.ScanMatches | pdf_processor.py:311-320 | the loop over one pattern's matches stores what the per-match rules give |
| Metadata.ScanField | pdf_processor.py:309-320 | the loops over one field's patterns store the field's specified value |
| Metadata.FieldsUpToStep | pdf_processor.py:308-320 | fields are searched in dictionary order, each starting unset |
| Metadata.ExtractFields | pdf_processor.py:308-320 | the metadata loop yields the specified fields of the text |
| Metadata.FirstMatchFields | pdf_processor.py:308-320 | prices are every whole match, the setup notes are the last capture, and every other field is the first non-blank capture |
| EventName.RestOfLine | pdf_processor.py:245-247 | `\s*(.+)$` captures a non-empty rest of the line |
| EventName.WordsThenRest | pdf_processor.py:246-247 | the `word\s+name:` and `word\s+for:` patterns capture a group that ends the line |
| EventName.LabelGroup | pdf_processor.py:245-247 | each event-name pattern captures a group that ends the line |
| EventName.MatchLabels | pdf_processor.py:274-279 | the pattern loop returns the first pattern's stripped capture |
| EventName.LabelMatchNonEmpty | pdf_processor.py:276-277 | on a line that does not end in whitespace, one pattern's stripped capture is never empty |
| EventName.LabelNonEmpty | pdf_processor.py:273-277 | on a stripped line, a matched label is never empty |
| EventName.LineLabelNonEmpty | pdf_processor.py:272-277 | the label found on any line, once stripped, is never empty |
| EventName.Take | pdf_processor.py:272 | `lines[:n]` is the first `min(n, len)` lines |
| EventName.LineTitle | pdf_processor.py:288-291 | a title candidate is a stripped line longer than 10 characters, holding no label token and starting with neither `$` nor a digit |
| EventName.ResolveEventName | pdf_processor.py:267-297 | the three name loops compute the specified name |
| EventName.LabelledLineWins | pdf_processor.py:271-281 | the first labelled line among the first 15 gives the name |
| EventName.TitleLineWins | pdf_processor.py:284-293 | without a labelled line, the first title-like line among the first 10 gives the name |
| EventName.FileNameFallback | pdf_processor.py:296-297 | otherwise the name is the file title, with ".pdf" removed, `_` replaced by a space, and title case applied |
| EventName.LongWordsMembers | pdf_processor.py:304 | every kept word is longer than two characters and comes from the input, and every input word longer than two characters is kept |
| EventName.LongWordsAppend | pdf_processor.py:304 | the filter works word by word: the result for a concatenation is the concatenation of the results, so order and repetitions are kept |
| EventName.LongWordsOne | pdf_processor.py:304 | a single word is kept exactly when it is longer than two characters |
| EventName.Variations | pdf_processor.py:300-305 | four variations, in order: the name; its lower case, character by character; the lower case of its word-and-space characters, which holds no punctuation and no upper-case letter; its words longer than two characters joined by single spaces |
| Text.Title | pdf_processor.py:297 | `str.title()` keeps the length, upper-cases every character not preceded by a letter and lower-cases every character preceded by one |
| Text.TitleFrom | pdf_processor.py:297 | title case of a suffix: a letter is upper-cased when it opens the suffix with no letter before it or follows a non-letter, and lower-cased otherwise; other characters are kept |
| Text.KeepWordsAndSpacesAppend | pdf_processor.py:303 | `re.sub(r'[^\w\s]', '', ...)` works character by character: the result for a concatenation is the concatenation of the results |
| Text.KeepWordsAndSpacesOne | pdf_processor.py:303 | a single character is kept exactly when it is a word character or whitespace |
| Menu.ResetSection | pdf_processor.py:336 | `menu_sections[key] = []` puts a new key last and keeps an existing key in its place with no items |
| Menu.AppendItem | pdf_processor.py:338-339 | an item is appended to its section only, and the keys are unchanged |
| Menu.ExtractMenuSections | pdf_processor.py:322-342 | the menu loop computes the specified state machine |
| Menu.HeaderStepWellFormed | pdf_processor.py:333-336 | a header line keeps the keys distinct menu headers and makes the current section exist |
| Menu.ItemStepWellFormed | pdf_processor.py:337-339 | an item line keeps every collected line an item line |
| Menu.MenuStepPreserves | pdf_processor.py:327-339 | one iteration keeps the sections well formed |
| Menu.MenuScanWellFormed | pdf_processor.py:322-342 | the sections are keyed by distinct non-blank header lines and hold only non-blank, non-header, non-excluded lines; once a header is seen the membership test always holds |
| Menu.NoHeaderNoSections | pdf_processor.py:333-339 | a text without a menu header yields no sections |
| Menu.StepEffect | pdf_processor.py:333-339 | a header becomes current with no items; an item line is appended to the current section and nowhere else |
| EventDetails.ExtractEventDetails | pdf_processor.py:198-348 | the extractor computes the name, variations, fields, menu sections and pricing of the specified record, or the pricing error |
| EventDetails.EventDetailsProperties | pdf_processor.py:264-346 | the only failure is the pricing conversion; a record keeps the full text, puts the name first in its variations, has well-formed menu sections and a well-formed breakdown |
| Documents.PriceItems | pdf_processor.py:391 | one `- price` entry per price, in order |
| Documents.AppendBullets | pdf_processor.py:399-400 | the item loop appends one `- item` line per item |
| Documents.AppendMenu | pdf_processor.py:397-400 | the section loop appends each header line followed by its items |
| Documents.AppendAmount | pdf_processor.py:428-437 | an amount line is appended only when the amount is truthy |
| Documents.AppendSummary | pdf_processor.py:425-437 | the summary block is appended only when some summary value is truthy |
| Documents.AppendBlock | pdf_processor.py:405-423 | a charge block appears only for a non-empty list |
| Documents.BuildDetailsText | pdf_processor.py:376-437 | the appends build the specified details text |
| Documents.CreateDocuments | pdf_processor.py:350-449 | `create_documents` returns the specified pair of documents |
| Documents.AddBulletsExtends | pdf_processor.py:399-400 | appending bullets keeps the text before them |
| Documents.AddSectionExtends | pdf_processor.py:398-400 | appending a section keeps the text before it |
| Documents.AddMenuExtends | pdf_processor.py:397-400 | appending the menu keeps the text before it |
| Documents.AddBlockExtends | pdf_processor.py:405-423 | appending a charge block keeps the text before it |
| Documents.AddSummaryExtends | pdf_processor.py:425-437 | appending the summary keeps the text before it |
| Documents.AddBlocksExtends | pdf_processor.py:403-423 | appending the breakdown keeps the text before it |
| Documents.DetailsExtends | pdf_processor.py:376-437 | the details text only grows: header, then menu, then breakdown, then summary |
| Documents.DocumentsShape | pdf_processor.py:352-449 | two documents: "event_menu" with the full text, then "event_details"; both carry the event name, and the details text opens with the event line |
| Documents.HeaderInDetails | pdf_processor.py:376-394 | whatever the header contains, the details text contains |
| Documents.MenuInDetails | pdf_processor.py:396-400 | whatever the header and menu contain, the details text contains |
| Documents.FieldLinesContain | pdf_processor.py:378-385 | each listed field's line is in the field block |
| Documents.FieldShown | pdf_processor.py:378-385 | every listed field appears as `Label: value`, or as `Label: Not specified` when unset or empty |
| Documents.SetupShown | pdf_processor.py:387-388 | the setup notes appear, or "No setup notes provided" |
| Documents.PriceShown | pdf_processor.py:390-391 | every price appears as a `- price` entry |
| Documents.AddBulletsContain | pdf_processor.py:399-400 | every item's bullet line is appended |
| Documents.SectionContains | pdf_processor.py:398-400 | a section contributes its header line and every item line |
| Documents.AddMenuContains | pdf_processor.py:397-400 | what one section contributes stays in the whole menu text |
| Documents.MenuShown | pdf_processor.py:397-400 | every menu section header and every item appears in the details text |
| Documents.BlockContains | pdf_processor.py:405-423 | a non-empty block contributes its title and every line item |
| Documents.BlocksInDetails | pdf_processor.py:403-423 | what the breakdown contains, the details text contains |
| Documents.PerPersonChargeShown | pdf_processor.py:405-408 | every per-person charge appears under "Per Person Charges" |
| Documents.StaffChargeShown | pdf_processor.py:410-413 | every staff charge appears under "Staff Charges" |
| Documents.FlatChargeShown | pdf_processor.py:415-418 | every flat charge appears under "Additional Charges" |
| Documents.TbdChargeShown | pdf_processor.py:420-423 | every TBD charge appears under "TBD Charges" |
| Documents.SummaryContains | pdf_processor.py:425-437 | a truthy summary adds its heading, and each of the subtotal, service-fee, delivery-and-setup, tax (with the rate) and grand-total lines whose amount is truthy, each amount as its stored decimal text |
| Documents.SummaryShown | pdf_processor.py:425-437 | the details text shows the summary heading and each of the subtotal, service-fee, delivery-and-setup, tax and grand-total lines whenever its amount is truthy |
| Documents.AmountLineNotReparsed | pdf_processor.py:428-437 | a rendered `Label: $amount` line is recognised by no pricing pattern, so the summary does not survive re-extraction |
| Batch.SummariesFor | pdf_processor.py:504-511 | one summary per contributing event, in order, with its name, date, prices, guest count and menu |
| Batch.ProcessFile | pdf_processor.py:496-516 | a file contributes its record unless its text is blank or extraction raises |
| Batch.ProcessAllPdfs | pdf_processor.py:482-530 | the loop computes the specified documents and summaries, or the exception raised |
| Batch.DetailsStep | pdf_processor.py:494-499 | one more file adds its record, if it has one, after the earlier ones |
| Batch.DocumentsStep | pdf_processor.py:500-501 | `all_documents.extend(documents)` adds one event's documents last |
| Batch.SummariesStep | pdf_processor.py:511 | one more event adds its summary last |
| Batch.DocumentsOfRendersPair | pdf_processor.py:352-449 | every record renders to an event-menu document then an event-details document, both named after it |
| Batch.DocumentsPaired | pdf_processor.py:494-511 | the documents of the i-th event sit at 2i and 2i+1 and carry the i-th summary's name |
| Batch.FinishShape | pdf_processor.py:518-530 | no documents raise; otherwise the pairs are kept and the base-pricing document goes last |
| Batch.BatchShape | pdf_processor.py:488-530 | an empty folder raises "no PDF files", no contributing file raises "no documents", and a success has two documents per summary, paired in order, with the base-pricing document last |
| Batch.DetailsAppend | pdf_processor.py:494-516 | files are processed independently: the records of two concatenated file lists concatenate |
| Batch.SkippedFile | pdf_processor.py:496-516 | a blank or failing file contributes nothing wherever it stands |
| Batch.FileContributes | pdf_processor.py:496-499 | a file contributes exactly when its text is not blank and its pricing converts; its record keeps the text and its fields |
| Routing.ClassifierCases | app.py:76-87 | a menu-creation phrase wins over any event-lookup phrase; an event-lookup phrase decides when no menu-creation phrase occurs; "general" exactly when no phrase of either list occurs |
| Routing.QueryTypeNames | app.py:72-87 | the result is always one of "menu_creation", "event_lookup" or "general" |
| Text.LowerStrConcat | app.py:74 | lower-casing distributes over concatenation |
| Routing.CaseInsensitive | app.py:74 | a query and its lower-case form get the same kind |
| Routing.ExtendedQuery | app.py:74-85 | text added around a menu-creation query keeps it one; an event-lookup query never becomes general |
| History.KeepLast | app.py:192 | `xs[-n:] if len(xs) > n else xs` keeps the newest `min(n, len)` elements in their order |
| History.KeepLastAppend | app.py:215-219 | cutting back after every append equals cutting back once |
| History.RecordAllKeepsLast | app.py:215-219 | after any run of exchanges the history is the last ten of everything recorded |
| History.RecordedExchange | app.py:215-219 | after an append the newest exchange is last and at most ten remain; only a full history loses its oldest exchange |
| History.ChatSession.constructor | app.py:170-171 | the session starts with an empty history |
| History.ChatSession.DisplayHistory | app.py:192 | the page shows the last `min(5, n)` exchanges, in their order |
| History.ChatSession.Submit | app.py:210-219 | an empty question records nothing; otherwise the exchange is appended and the history cut back to its last ten, which keeps at most ten |

## Left out

- Google Drive authentication and listing (pdf_processor.py:16-60, 537-551): network and OAuth.
  `Batch.ProcessAllPdfs` takes the folder's files as a parameter.
- `extract_text_from_pdf` (pdf_processor.py:451-480): PyPDF2 and a temporary file. Each file
  carries its extracted text, which is empty when extraction failed, as that function returns then.
- FAISS, embeddings, `save_local`, the `event_summaries.json` write and every `print`:
  foreign calls and I/O. `json.dumps(BASE_PRICING)` is a string parameter of
  `Batch.ProcessAllPdfs`.
- menu_base_pricing.py is constant data and is not part of this model. process_pdfs.py is an
  entry-point script.
- The LLM handlers and the Streamlit page (app.py:19-166, 175-229 apart from the history
  lines): external services and UI. `get_response` (app.py:61-70) only dispatches on the kind.
  The answer recorded by `History.ChatSession.Submit` is a parameter.
- Unicode: `lower()`, `title()`, `re.I`, `\w`, `\s` and `\d` are modelled for ASCII only.
- Pricing.ParseAmount: does not compute the float value. An amount is kept as its comma-free
  decimal text, and a summary value is truthy when that text holds a non-zero digit.
- Documents.AppendSummary: the summary lines show the stored decimal text, not the `:.2f`
  rendering, and the tax rate as its text instead of `str(float)`.
- MetadataPatterns.MatcherAdvances: the contracts of the individual metadata recognisers (`MatchPriceDollar`
  through `MatchPhoneDescribed`) state only that a match and its group lie within the text, and
  for `MatchTimeLabelled` and `MatchLabelledDigits` that the group is non-empty (all digits for the
  second). What each one matches is its definition, and the properties proved are about the scan
  built on them.
- The pricing-section search splits the text on line feeds only, as `text.split('\n')` does;
  `\r` is an ordinary character.

## Notes

- A rendered summary line such as `Grand Total: $5` is not parsed back into the summary, because
  every pricing pattern needs `=` (`Documents.AmountLineNotReparsed`, `Pricing.NoEqualsUnrecognised`).
  Rendering a breakdown and extracting it again does not reproduce it.
- The time pattern `(?:time[s]?:|at:?)` has no word boundary, so it also fires inside words such as
  "Date", "Saturday" or "Location". In a text whose `Date:` line comes before its `Time:` line,
  the first time capture is the rest of the date line, and the first non-blank capture is what
  the `time` field keeps (`MetadataPatterns.TimeInsideDate`, `Metadata.KeepFirstIsFirstNonBlank`).
- A file whose extraction raises is skipped without a trace: no error is recorded for it
  (`Batch.SkippedFile`).
