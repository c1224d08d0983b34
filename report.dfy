/**
 * The PDF consultation report of src/App.jsx (`handleDownloadPDF`): a header,
 * then for every message its sender label, its image and its cleaned text,
 * each preceded by a page-break check, and finally a footer on every page.
 *
 * Only the bookkeeping is modelled: what is drawn, on which page and at which
 * vertical position. The drawing itself, the decoding of an image and the
 * wrapping of text into lines belong to the PDF library and enter as the
 * parameters `imageHeight` (the scaled height of an image, or None when the
 * library cannot read it) and `lineCount` (the number of wrapped lines).
 */
module Report {
  import opened Wrappers
  import opened Strings
  import opened Types
  import opened Sanitize

  const TopMargin: int := 20
  const PageBottom: int := 280
  const ReportTitle: string := "AI Doctor - Medical Report"
  const ImageFailed: string := "[Image could not be loaded]"
  const Disclaimer: string :=
    "Disclaimer: AI-generated advice. " +
    "Consult a doctor for serious " +
    "concerns."

  /** What is drawn. */
  datatype Item =
    | Heading(text: string)
    | Rule
    | Sender(text: string)
    | Picture(source: string, height: nat)
    | ImageError
    | TextBlock(text: string, lines: nat)

  /** An item drawn on a page at a vertical position. */
  datatype Placed = Placed(page: nat, y: int, item: Item)

  /** The height the page-break check before an item asks room for. */
  function Reserved(item: Item): int
  {
    match item
    case Sender(_) => 10
    case Picture(_, _) => 80
    case ImageError => 80
    case TextBlock(_, lines) => lines * 5
    case _ => 0
  }

  /** The writer's state: the vertical position, the number of pages and what was drawn. */
  datatype Layout = Layout(y: int, pages: nat, placed: seq<Placed>)

  /** The title at 20, the generation time at 30, a rule at 35; messages start at 45. */
  function Header(generatedOn: string): Layout
  {
    Layout(45, 1, [Placed(1, 20, Heading(ReportTitle)),
                   Placed(1, 30, Heading("Generated on: " + generatedOn)),
                   Placed(1, 35, Rule)])
  }

  /**
   * `checkPageBreak(h)`: either the block fits below the current position and
   * nothing changes, or a page is added and the position returns to the top.
   */
  function Break(s: Layout, h: int): (r: Layout)
    ensures r.placed == s.placed
    ensures (s.y + h <= PageBottom && r.y == s.y && r.pages == s.pages) ||
            (s.y + h > PageBottom && r.y == TopMargin && r.pages == s.pages + 1)
  {
    if s.y + h > PageBottom then s.(y := TopMargin, pages := s.pages + 1) else s
  }

  /** Draws `item` at the current position of the current page and moves down by `advance`. */
  function Draw(s: Layout, item: Item, advance: int): Layout
  {
    s.(placed := s.placed + [Placed(s.pages, s.y, item)], y := s.y + advance)
  }

  function SenderLabel(role: Role): string
  {
    if role == User then "Patient:" else "Dr. AI:"
  }

  /** The image part of a message: a picture 100 units wide, or the error line when it cannot be read. */
  function ImageStep(s: Layout, image: string, imageHeight: string -> Option<nat>): Layout
  {
    if image == "" then s
    else match imageHeight(image)
      case Some(h) => Draw(Break(s, 80), Picture(image, h), h + 5)
      case None => Draw(Break(s, 80), ImageError, 7)
  }

  /** The text part of a message: the cleaned text, 5 units per wrapped line. */
  function TextStep(s: Layout, text: string, lineCount: string -> nat): Layout
  {
    if text == "" then s
    else
      var clean := PdfText(text);
      var lines := lineCount(clean);
      Draw(Break(s, lines * 5), TextBlock(clean, lines), lines * 5 + 5)
  }

  /** One iteration of the message loop. */
  function Step(s: Layout, m: Message, imageHeight: string -> Option<nat>, lineCount: string -> nat): Layout
  {
    var labelled := Draw(Break(s, 10), Sender(SenderLabel(m.role)), 7);
    var done := TextStep(ImageStep(labelled, m.image, imageHeight), m.text, lineCount);
    done.(y := done.y + 5)
  }

  /** The layout after the header and the given messages, in order. */
  function Render(messages: seq<Message>, generatedOn: string,
                  imageHeight: string -> Option<nat>, lineCount: string -> nat): Layout
  {
    if messages == [] then Header(generatedOn)
    else Step(Render(messages[..|messages| - 1], generatedOn, imageHeight, lineCount),
              messages[|messages| - 1], imageHeight, lineCount)
  }

  /**
   * Every placed item got the room its page-break check asked for, unless it
   * already starts at the top of a page and is taller than a page.
   */
  predicate Fits(p: Placed)
  {
    p.y + Reserved(p.item) <= PageBottom ||
    (p.y == TopMargin && Reserved(p.item) > PageBottom - TopMargin)
  }

  /**
   * The layout invariant: at least one page, every item on an existing page
   * and fitting, and items drawn in page order.
   */
  predicate Valid(s: Layout)
  {
    s.pages >= 1 &&
    (forall i :: 0 <= i < |s.placed| ==> 1 <= s.placed[i].page <= s.pages && Fits(s.placed[i])) &&
    (forall i, j :: 0 <= i < j < |s.placed| ==> s.placed[i].page <= s.placed[j].page)
  }

  /** Drawing an item after checking for its room keeps the invariant and never loses a page. */
  lemma DrawAfterBreak(s: Layout, item: Item, advance: int)
    requires Valid(s)
    ensures var r := Draw(Break(s, Reserved(item)), item, advance);
      Valid(r) && r.pages >= s.pages && s.placed <= r.placed
  {
    var b := Break(s, Reserved(item));
    var r := Draw(b, item, advance);
    assert r.placed[|s.placed|] == Placed(b.pages, b.y, item);
    assert forall i :: 0 <= i < |s.placed| ==> r.placed[i] == s.placed[i];
  }

  lemma ImageStepValid(s: Layout, image: string, imageHeight: string -> Option<nat>)
    requires Valid(s)
    ensures var r := ImageStep(s, image, imageHeight);
      Valid(r) && r.pages >= s.pages && s.placed <= r.placed
  {
    if image != "" {
      match imageHeight(image)
      case Some(h) => DrawAfterBreak(s, Picture(image, h), h + 5);
      case None => DrawAfterBreak(s, ImageError, 7);
    }
  }

  lemma TextStepValid(s: Layout, text: string, lineCount: string -> nat)
    requires Valid(s)
    ensures var r := TextStep(s, text, lineCount);
      Valid(r) && r.pages >= s.pages && s.placed <= r.placed
  {
    if text != "" {
      var clean := PdfText(text);
      DrawAfterBreak(s, TextBlock(clean, lineCount(clean)), lineCount(clean) * 5 + 5);
    }
  }

  /** One message keeps the invariant, adds pages only, and only adds items. */
  lemma StepValid(s: Layout, m: Message, imageHeight: string -> Option<nat>, lineCount: string -> nat)
    requires Valid(s)
    ensures var r := Step(s, m, imageHeight, lineCount);
      Valid(r) && r.pages >= s.pages && s.placed <= r.placed
  {
    var labelled := Draw(Break(s, 10), Sender(SenderLabel(m.role)), 7);
    DrawAfterBreak(s, Sender(SenderLabel(m.role)), 7);
    var pictured := ImageStep(labelled, m.image, imageHeight);
    ImageStepValid(labelled, m.image, imageHeight);
    TextStepValid(pictured, m.text, lineCount);
  }

  /**
   * The whole report keeps the invariant, and the page count of the report
   * of a prefix of the messages never exceeds that of the full report.
   */
  lemma {:induction false} RenderValid(messages: seq<Message>, generatedOn: string,
                                       imageHeight: string -> Option<nat>, lineCount: string -> nat)
    ensures Valid(Render(messages, generatedOn, imageHeight, lineCount))
    ensures forall k :: 0 <= k <= |messages| ==>
      Render(messages[..k], generatedOn, imageHeight, lineCount).pages <= Render(messages, generatedOn, imageHeight, lineCount).pages
    decreases |messages|
  {
    if messages == [] {
      assert forall k :: 0 <= k <= 0 ==> messages[..k] == messages;
    } else {
      var prefix := messages[..|messages| - 1];
      RenderValid(prefix, generatedOn, imageHeight, lineCount);
      StepValid(Render(prefix, generatedOn, imageHeight, lineCount), messages[|messages| - 1], imageHeight, lineCount);
      assert forall k :: 0 <= k < |messages| ==> messages[..k] == prefix[..k];
      assert messages[..|messages|] == messages;
    }
  }

  /** The footer of one page. */
  datatype Footer = Footer(page: nat, disclaimer: string, stamp: string)

  /** `Page ${i} of ${pageCount}`. */
  function PageStamp(page: nat, pageCount: nat): string
  {
    "Page " + NatToString(page) + " of " + NatToString(pageCount)
  }

  /** Different pages of one report carry different stamps. */
  lemma PageStampInjective(i: nat, j: nat, pageCount: nat)
    requires PageStamp(i, pageCount) == PageStamp(j, pageCount)
    ensures i == j
  {
    var a, b := NatToString(i), NatToString(j);
    var tail := " of " + NatToString(pageCount);
    var s := PageStamp(i, pageCount);
    assert s == "Page " + a + tail;
    assert s == "Page " + b + tail;
    assert s[5 + |a|] == ' ' && s[5 + |b|] == ' ';
    assert forall k :: 0 <= k < |a| ==> s[5 + k] == a[k];
    assert forall k :: 0 <= k < |b| ==> s[5 + k] == b[k];
    assert |a| == |b|;
    assert a == s[5..5 + |a|] == b;
    NatToStringRoundTrip(i);
    NatToStringRoundTrip(j);
  }

  /** The footer pass: every page 1..pageCount gets the disclaimer and its page stamp. */
  method StampFooters(pageCount: nat) returns (footers: seq<Footer>)
    ensures |footers| == pageCount
    ensures forall i :: 0 <= i < pageCount ==> footers[i] == Footer(i + 1, Disclaimer, PageStamp(i + 1, pageCount))
  {
    footers := [];
    var i := 1;
    while i <= pageCount
      invariant 1 <= i <= pageCount + 1
      invariant |footers| == i - 1
      invariant forall k :: 0 <= k < i - 1 ==> footers[k] == Footer(k + 1, Disclaimer, PageStamp(k + 1, pageCount))
    {
      footers := footers + [Footer(i, Disclaimer, PageStamp(i, pageCount))];
      i := i + 1;
    }
  }

  /** `DrAI_Complete_Report_${Date.now()}.pdf`. */
  function ReportFileName(now: nat): string
  {
    "DrAI_Complete_Report_" + NatToString(now) + ".pdf"
  }

  /** The export time can be read back from the file name. */
  lemma ReportFileNameRoundTrip(now: nat)
    ensures var name := ReportFileName(now);
      |name| > 25 && EndsWith(name, ".pdf") && DecimalValue(name[21..|name| - 4]) == now
  {
    var name := ReportFileName(now);
    assert name[21..|name| - 4] == NatToString(now);
    NatToStringRoundTrip(now);
  }

  /** The exported document. */
  datatype Document = Document(fileName: string, pageCount: nat, placed: seq<Placed>, footers: seq<Footer>)

  /** The PDF writer of one export: the current position, the page count and what was drawn. */
  class ReportWriter {
    var y: int
    var pages: nat
    var placed: seq<Placed>

    function State(): Layout
      reads this
    {
      Layout(y, pages, placed)
    }

    /** A new document with the header drawn on its first page. */
    constructor (generatedOn: string)
      ensures State() == Header(generatedOn)
    {
      y := 20;
      pages := 1;
      placed := [Placed(1, 20, Heading(ReportTitle))];
      new;
      y := y + 10;
      placed := placed + [Placed(1, y, Heading("Generated on: " + generatedOn))];
      y := y + 5;
      placed := placed + [Placed(1, y, Rule)];
      y := y + 10;
    }

    /** `checkPageBreak(height)`: reports whether a page was added. */
    method CheckPageBreak(height: int) returns (added: bool)
      modifies this
      ensures State() == Break(old(State()), height)
      ensures added <==> old(y) + height > PageBottom
    {
      if y + height > PageBottom {
        pages := pages + 1;
        y := TopMargin;
        return true;
      }
      return false;
    }

    method Put(item: Item, advance: int)
      modifies this
      ensures State() == Draw(old(State()), item, advance)
    {
      placed := placed + [Placed(pages, y, item)];
      y := y + advance;
    }

    /** The body of the message loop for one message. */
    method RenderMessage(m: Message, imageHeight: string -> Option<nat>, lineCount: string -> nat)
      modifies this
      ensures State() == Step(old(State()), m, imageHeight, lineCount)
    {
      var _ := CheckPageBreak(10);
      Put(Sender(SenderLabel(m.role)), 7);
      if m.image != "" {
        var _ := CheckPageBreak(80);
        match imageHeight(m.image) {
          case Some(h) => Put(Picture(m.image, h), h + 5);
          case None => Put(ImageError, 7);
        }
      }
      if m.text != "" {
        var clean := PdfText(m.text);
        var lines := lineCount(clean);
        var _ := CheckPageBreak(lines * 5);
        Put(TextBlock(clean, lines), lines * 5 + 5);
      }
      y := y + 5;
    }
  }

  /**
   * `handleDownloadPDF`: the header, every message in order, the footer pass
   * over every page, and the file name from the export time.
   */
  method ExportReport(messages: seq<Message>, generatedOn: string, now: nat,
                      imageHeight: string -> Option<nat>, lineCount: string -> nat)
    returns (doc: Document)
    ensures var layout := Render(messages, generatedOn, imageHeight, lineCount);
      doc.pageCount == layout.pages && doc.placed == layout.placed
    ensures doc.pageCount >= 1
    ensures forall i :: 0 <= i < |doc.placed| ==> 1 <= doc.placed[i].page <= doc.pageCount
    ensures |doc.footers| == doc.pageCount
    ensures forall i :: 0 <= i < doc.pageCount ==>
      doc.footers[i] == Footer(i + 1, Disclaimer, PageStamp(i + 1, doc.pageCount))
    ensures doc.fileName == ReportFileName(now)
  {
    var writer := new ReportWriter(generatedOn);
    var i := 0;
    while i < |messages|
      invariant 0 <= i <= |messages|
      invariant writer.State() == Render(messages[..i], generatedOn, imageHeight, lineCount)
    {
      assert messages[..i + 1][..i] == messages[..i];
      writer.RenderMessage(messages[i], imageHeight, lineCount);
      i := i + 1;
    }
    assert messages[..i] == messages;
    RenderValid(messages, generatedOn, imageHeight, lineCount);
    var footers := StampFooters(writer.pages);
    doc := Document(ReportFileName(now), writer.pages, writer.placed, footers);
  }
}
