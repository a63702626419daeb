/** The document loop of `process_all_pdfs` (pdf_processor.py:482-530): each PDF's text becomes
    two documents and one event summary, a file that yields no text or whose extraction raises
    is skipped, and the base-pricing document closes the list. */
module Batch {
  import opened Text
  import opened Pricing
  import opened EventDetails
  import opened Documents
  import opened Metadata
  import opened Menu

  /** A PDF of the Drive folder: its title and the text extracted from it ("" when the
      download or the PDF reader failed, as `extract_text_from_pdf` returns then). */
  datatype PdfFile = PdfFile(title: string, text: string)

  /** One entry of `event_summaries.json`. */
  datatype EventSummary = EventSummary(eventName: string, date: Option<string>, prices: seq<string>,
                                       guestCount: Option<string>, menuItems: seq<Section>)

  /** The two exceptions `process_all_pdfs` raises. */
  datatype BatchError = NoPdfFiles | NoDocuments

  /** The documents handed to the vector store and the summaries written beside them. */
  datatype BatchOutput = BatchOutput(documents: seq<Document>, summaries: seq<EventSummary>)

  function SummaryOf(d: EventDetails): EventSummary {
    EventSummary(d.eventName, d.fields.date, d.fields.prices, d.fields.guestCount, d.menuItems)
  }

  /** The base-pricing document, from the JSON dump of the base price table. */
  function BasePricingDoc(pricingJson: string): Document {
    Document("Base Menu Pricing:\n" + pricingJson, BasePricingMeta)
  }

  /** The details of a file that contributes: its text is not blank and its extraction does
      not raise. */
  function FileDetails(f: PdfFile): Option<EventDetails> {
    if Strip(f.text) == [] then None
    else
      match EventDetailsOf(f.text, f.title)
      case Ok(d) => Some(d)
      case Err(_) => None
  }

  /** The details of the contributing files, in file order, for a given way of extracting
      the details of one file. */
  function DetailsWith(files: seq<PdfFile>, details: PdfFile -> Option<EventDetails>): seq<EventDetails>
    decreases |files|
  {
    if files == [] then []
    else
      var ds := DetailsWith(files[..|files| - 1], details);
      match details(files[|files| - 1])
      case None => ds
      case Some(d) => ds + [d]
  }

  /** `all_documents.extend(documents)` over the contributing events, for a given way of
      turning one event into its documents. */
  function DocumentsFor(ds: seq<EventDetails>, render: EventDetails -> seq<Document>): seq<Document>
    decreases |ds|
  {
    if ds == [] then [] else DocumentsFor(ds[..|ds| - 1], render) + render(ds[|ds| - 1])
  }

  function SummariesFor(ds: seq<EventDetails>): (r: seq<EventSummary>)
    ensures |r| == |ds| && forall i :: 0 <= i < |ds| ==> r[i] == SummaryOf(ds[i])
  {
    seq(|ds|, i requires 0 <= i < |ds| => SummaryOf(ds[i]))
  }

  /** The documents and summaries the loop collects. */
  function Collect(files: seq<PdfFile>): BatchOutput {
    var ds := DetailsWith(files, FileDetails);
    BatchOutput(DocumentsFor(ds, DocumentsOf), SummariesFor(ds))
  }

  /** What `process_all_pdfs` produces, or the exception it raises. */
  function BatchOf(files: seq<PdfFile>, pricingJson: string): Result<BatchOutput, BatchError> {
    if files == [] then Err(NoPdfFiles) else Finish(Collect(files), pricingJson)
  }

  /** After the loop: no documents raise, otherwise the base-pricing document goes last. */
  function Finish(b: BatchOutput, pricingJson: string): Result<BatchOutput, BatchError> {
    if b.documents == [] then Err(NoDocuments)
    else Ok(BatchOutput(b.documents + [BasePricingDoc(pricingJson)], b.summaries))
  }

  /** One file of the loop: the `try` block, with the raised error caught. */
  method ProcessFile(f: PdfFile) returns (r: Option<EventDetails>)
    ensures r == FileDetails(f)
  {
    r := None;
    if Strip(f.text) != [] {
      var details := ExtractEventDetails(f.text, f.title);
      if details.Ok? {
        r := Some(details.value);
      }
    }
  }

  /** `process_all_pdfs`, without the Drive download, the JSON file and the vector store. */
  method ProcessAllPdfs(files: seq<PdfFile>, pricingJson: string) returns (r: Result<BatchOutput, BatchError>)
    ensures r == BatchOf(files, pricingJson)
  {
    if |files| == 0 {
      return Err(NoPdfFiles);
    }
    var allDocuments: seq<Document> := [];
    var eventSummaries: seq<EventSummary> := [];
    ghost var ds: seq<EventDetails> := [];
    for i := 0 to |files|
      invariant ds == DetailsWith(files[..i], FileDetails)
      invariant allDocuments == DocumentsFor(ds, DocumentsOf)
      invariant eventSummaries == SummariesFor(ds)
    {
      DetailsStep(files, i, FileDetails);
      var details := ProcessFile(files[i]);
      if details.Some? {
        var documents := CreateDocuments(details.value);
        DocumentsStep(ds, details.value, DocumentsOf);
        SummariesStep(ds, details.value);
        allDocuments := allDocuments + documents;
        eventSummaries := eventSummaries + [SummaryOf(details.value)];
        ds := ds + [details.value];
      }
    }
    assert files[..|files|] == files;
    if allDocuments == [] {
      return Err(NoDocuments);
    }
    allDocuments := allDocuments + [BasePricingDoc(pricingJson)];
    r := Ok(BatchOutput(allDocuments, eventSummaries));
  }

  // ---------------------------------------------------------------- properties

  /** One more file adds its event, if it has one, after those of the files before it. */
  lemma DetailsStep(files: seq<PdfFile>, i: nat, details: PdfFile -> Option<EventDetails>)
    requires i < |files|
    ensures DetailsWith(files[..i + 1], details) ==
      if details(files[i]).Some? then DetailsWith(files[..i], details) + [details(files[i]).value]
      else DetailsWith(files[..i], details)
  {
    assert files[..i + 1][..i] == files[..i];
  }

  /** One more event adds its documents after those of the events before it. */
  lemma DocumentsStep(ds: seq<EventDetails>, d: EventDetails, render: EventDetails -> seq<Document>)
    ensures DocumentsFor(ds + [d], render) == DocumentsFor(ds, render) + render(d)
  {
    assert (ds + [d])[..|ds|] == ds;
  }

  lemma SummariesStep(ds: seq<EventDetails>, d: EventDetails)
    ensures SummariesFor(ds + [d]) == SummariesFor(ds) + [SummaryOf(d)]
  {
  }

  /** The layout of the collected documents: for the i-th contributing event, an event-menu
      document at 2i and an event-details document at 2i+1, both named as its summary. */
  predicate Paired(b: BatchOutput) {
    |b.documents| == 2 * |b.summaries|
    && forall i :: 0 <= i < |b.summaries| ==>
         b.documents[2 * i].metadata.EventMenuMeta?
         && b.documents[2 * i + 1].metadata.EventDetailsMeta?
         && b.documents[2 * i].metadata.eventName == b.summaries[i].eventName
         && b.documents[2 * i + 1].metadata.eventName == b.summaries[i].eventName
  }

  /** The shape `create_documents` gives each event: an event-menu document, then an
      event-details document, both carrying the event's name. */
  ghost predicate RendersPair(render: EventDetails -> seq<Document>) {
    forall d :: |render(d)| == 2
      && render(d)[0].metadata.EventMenuMeta? && render(d)[1].metadata.EventDetailsMeta?
      && render(d)[0].metadata.eventName == d.eventName
      && render(d)[1].metadata.eventName == d.eventName
  }

  lemma DocumentsOfRendersPair()
    ensures RendersPair(DocumentsOf)
  {
    forall d {
      DocumentsShape(d);
    }
  }

  lemma {:induction false} DocumentsPaired(ds: seq<EventDetails>, render: EventDetails -> seq<Document>)
    requires RendersPair(render)
    ensures Paired(BatchOutput(DocumentsFor(ds, render), SummariesFor(ds)))
    decreases |ds|
  {
    if ds != [] {
      var pre := ds[..|ds| - 1];
      var d := ds[|ds| - 1];
      DocumentsPaired(pre, render);
      var docs := DocumentsFor(ds, render);
      var sums := SummariesFor(ds);
      var two := render(d);
      assert docs == DocumentsFor(pre, render) + two;
      forall i | 0 <= i < |sums|
        ensures docs[2 * i].metadata.EventMenuMeta?
        ensures docs[2 * i + 1].metadata.EventDetailsMeta?
        ensures docs[2 * i].metadata.eventName == sums[i].eventName
        ensures docs[2 * i + 1].metadata.eventName == sums[i].eventName
      {
        if i < |pre| {
          assert docs[2 * i] == DocumentsFor(pre, render)[2 * i];
          assert docs[2 * i + 1] == DocumentsFor(pre, render)[2 * i + 1];
          assert sums[i] == SummariesFor(pre)[i];
        } else {
          assert docs[2 * i] == two[0];
          assert docs[2 * i + 1] == two[1];
        }
      }
    }
  }

  /** Closing a paired collection: it fails exactly when no event was collected, and otherwise
      keeps the pairs and appends the base-pricing document. */
  lemma FinishShape(c: BatchOutput, pricingJson: string)
    requires Paired(c)
    ensures Finish(c, pricingJson) == Err(NoDocuments) <==> c.summaries == []
    ensures Finish(c, pricingJson).Ok? ==>
      var b := Finish(c, pricingJson).value;
      |b.documents| == 2 * |b.summaries| + 1 && |b.summaries| >= 1
      && b.documents[|b.documents| - 1] == BasePricingDoc(pricingJson)
      && DocumentType(b.documents[|b.documents| - 1].metadata) == "base_pricing"
      && Paired(BatchOutput(b.documents[..|b.documents| - 1], b.summaries))
  {
    if c.documents != [] {
      var b := Finish(c, pricingJson).value;
      assert b.documents[..|b.documents| - 1] == c.documents;
    }
  }

  /** A successful run returns two documents per summarised event, paired in file order, and
      the base-pricing document last; it fails with `NoPdfFiles` exactly when the folder is
      empty and with `NoDocuments` exactly when no file contributes. */
  lemma BatchShape(files: seq<PdfFile>, pricingJson: string)
    ensures BatchOf(files, pricingJson) == Err(NoPdfFiles) <==> files == []
    ensures BatchOf(files, pricingJson) == Err(NoDocuments) <==>
      files != [] && Collect(files).summaries == []
    ensures BatchOf(files, pricingJson).Ok? ==>
      var b := BatchOf(files, pricingJson).value;
      |b.documents| == 2 * |b.summaries| + 1 && |b.summaries| >= 1
      && b.documents[|b.documents| - 1] == BasePricingDoc(pricingJson)
      && DocumentType(b.documents[|b.documents| - 1].metadata) == "base_pricing"
      && Paired(BatchOutput(b.documents[..|b.documents| - 1], b.summaries))
  {
    DocumentsOfRendersPair();
    DocumentsPaired(DetailsWith(files, FileDetails), DocumentsOf);
    FinishShape(Collect(files), pricingJson);
  }

  /** The loop treats files one at a time: the events of a concatenation of file lists are
      the events of the first list followed by those of the second. */
  lemma {:induction false} DetailsAppend(a: seq<PdfFile>, b: seq<PdfFile>, details: PdfFile -> Option<EventDetails>)
    ensures DetailsWith(a + b, details) == DetailsWith(a, details) + DetailsWith(b, details)
    decreases |b|
  {
    if b == [] {
      assert a + b == a;
    } else {
      var pre := b[..|b| - 1];
      DetailsAppend(a, pre, details);
      assert (a + b)[..|a + b| - 1] == a + pre;
      assert (a + b)[|a + b| - 1] == b[|b| - 1];
    }
  }

  /** A file whose text is blank or whose extraction raises adds nothing, wherever it stands. */
  lemma SkippedFile(a: seq<PdfFile>, f: PdfFile, b: seq<PdfFile>)
    requires FileDetails(f).None?
    ensures Collect(a + [f] + b) == Collect(a + b)
  {
    DetailsAppend(a + [f], b, FileDetails);
    DetailsAppend(a, [f], FileDetails);
    DetailsAppend(a, b, FileDetails);
    assert [f][..0] == [];
  }

  /** A file contributes exactly when its text is not blank and the pricing of its text
      converts. */
  lemma FileContributes(f: PdfFile)
    ensures FileDetails(f).Some? <==> Strip(f.text) != [] && PricingDetails(f.text).Ok?
    ensures FileDetails(f).Some? ==>
      FileDetails(f).value.fullText == f.text && FileDetails(f).value.fields == FieldsOf(f.text)
  {
    EventDetailsProperties(f.text, f.title);
  }
}
