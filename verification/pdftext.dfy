/** Text extraction (services/pdfProcessor.ts). Reading the file and parsing
    the PDF are external; what they deliver is given as a `PdfRead` value:
    for each page, in page order, the strings of its text items. The model
    covers the page loop that assembles the text and the three rejections. */
module PdfText {
  import opened Results
  import opened Strings

  /** What the parser delivers for a read document. */
  datatype PdfParse =
    | ParseFailed                          // opening the document or reading a page threw
    | Document(pages: seq<seq<string>>)    // page i + 1 has text items pages[i]

  /** How the file read ends. */
  datatype PdfRead =
    | ReadError                            // `onerror`
    | ReadNoResult                         // `onload` with no result
    | ReadBytes(parse: PdfParse)           // `onload` with the bytes, then parsing

  const NoResultMessage: string := "Không thể đọc tệp."
  const ParseFailedMessage: string := "Không thể xử lý tệp PDF. Tệp có thể bị hỏng hoặc không được hỗ trợ."
  const ReadErrorMessage: string := "Đã xảy ra lỗi khi đọc tệp."

  /** `textContent.items.map(item => item.str).join(' ')` */
  function PageText(items: seq<string>): string {
    Join(items, " ")
  }

  /** The text of all pages: each page's text followed by a blank line. */
  function AssembleText(pages: seq<seq<string>>): string {
    if pages == [] then ""
    else AssembleText(pages[..|pages| - 1]) + (PageText(pages[|pages| - 1]) + "\n\n")
  }

  /** Sum of the lengths of the page texts. */
  function PageTextLengths(pages: seq<seq<string>>): nat {
    if pages == [] then 0
    else PageTextLengths(pages[..|pages| - 1]) + |PageText(pages[|pages| - 1])|
  }

  /** The page loop: for i from 1 to numPages, `fullText += pageText + '\n\n'`. */
  method AssemblePages(pages: seq<seq<string>>) returns (fullText: string)
    ensures fullText == AssembleText(pages)
  {
    fullText := "";
    var i := 1;
    while i <= |pages|
      invariant 1 <= i <= |pages| + 1
      invariant fullText == AssembleText(pages[..i - 1])
    {
      var pageText := PageText(pages[i - 1]);
      assert pages[..i][..i - 1] == pages[..i - 1];
      fullText := fullText + (pageText + "\n\n");
      i := i + 1;
    }
    assert pages[..|pages|] == pages;
  }

  /** The outcome of `extractTextFromPdf`: the assembled text, or the
      rejection message of the step that failed. */
  function ExtractionOutcome(read: PdfRead): Result<string, string> {
    match read
    case ReadError => Failure(ReadErrorMessage)
    case ReadNoResult => Failure(NoResultMessage)
    case ReadBytes(ParseFailed) => Failure(ParseFailedMessage)
    case ReadBytes(Document(pages)) => Success(AssembleText(pages))
  }

  method ExtractTextFromPdf(read: PdfRead) returns (r: Result<string, string>)
    ensures r == ExtractionOutcome(read)
  {
    match read {
      case ReadError =>
        r := Failure(ReadErrorMessage);
      case ReadNoResult =>
        r := Failure(NoResultMessage);
      case ReadBytes(parse) =>
        match parse {
          case ParseFailed =>
            r := Failure(ParseFailedMessage);
          case Document(pages) =>
            var fullText := AssemblePages(pages);
            r := Success(fullText);
        }
    }
  }

  /** The three ways to fail reject with three different messages, and a
      parsed document always resolves. */
  lemma RejectionsDistinct(read: PdfRead)
    ensures ExtractionOutcome(read).Failure? <==> !(read.ReadBytes? && read.parse.Document?)
    ensures ExtractionOutcome(read).Failure? ==>
      ExtractionOutcome(read).error in {ReadErrorMessage, NoResultMessage, ParseFailedMessage}
    ensures ReadErrorMessage != NoResultMessage && NoResultMessage != ParseFailedMessage
         && ReadErrorMessage != ParseFailedMessage
  {
    assert |NoResultMessage| < |ReadErrorMessage| < |ParseFailedMessage|;
  }

  /** Assembling splits over consecutive runs of pages. */
  lemma {:induction false} AssembleAppend(a: seq<seq<string>>, b: seq<seq<string>>)
    ensures AssembleText(a + b) == AssembleText(a) + AssembleText(b)
    decreases |b|
  {
    if b == [] {
      assert a + b == a;
    } else {
      var c := a + b;
      var front, last := b[..|b| - 1], b[|b| - 1];
      assert c[..|c| - 1] == a + front;
      assert c[|c| - 1] == last;
      var tail := PageText(last) + "\n\n";
      assert AssembleText(c) == AssembleText(a + front) + tail;
      assert AssembleText(b) == AssembleText(front) + tail;
      AssembleAppend(a, front);
      ConcatAssoc(AssembleText(a), AssembleText(front), tail);
    }
  }

  /** Page order: the whole text is the text of the pages before page k,
      then page k's own text and its blank line, then the text of the pages
      after it. */
  lemma PageOrder(pages: seq<seq<string>>, k: nat)
    requires k < |pages|
    ensures AssembleText(pages) ==
      AssembleText(pages[..k]) + (PageText(pages[k]) + "\n\n") + AssembleText(pages[k + 1..])
  {
    AssembleSplit(pages, k + 1);
    AssemblePrefixStep(pages, k);
  }

  /** The text of the first k + 1 pages extends that of the first k. */
  lemma AssemblePrefixStep(pages: seq<seq<string>>, k: nat)
    requires k < |pages|
    ensures AssembleText(pages[..k + 1]) == AssembleText(pages[..k]) + (PageText(pages[k]) + "\n\n")
  {
    assert pages[..k + 1][..k] == pages[..k];
  }

  /** Cutting the pages at k and joining the halves gives the pages back. */
  lemma PagesSplit(pages: seq<seq<string>>, k: nat)
    requires k <= |pages|
    ensures pages[..k] + pages[k..] == pages
  {
  }

  /** Splitting the pages at k splits the text there. */
  lemma AssembleSplit(pages: seq<seq<string>>, k: nat)
    requires k <= |pages|
    ensures AssembleText(pages) == AssembleText(pages[..k]) + AssembleText(pages[k..])
  {
    var front, back := pages[..k], pages[k..];
    PagesSplit(pages, k);
    AssembleAppend(front, back);
  }

  /** The length of the text: every page text plus two newlines per page; a
      page contributes its items' lengths plus one space between neighbours. */
  lemma {:induction false} AssembleLength(pages: seq<seq<string>>)
    ensures |AssembleText(pages)| == PageTextLengths(pages) + 2 * |pages|
    ensures forall i :: 0 <= i < |pages| ==>
      |PageText(pages[i])| == if pages[i] == [] then 0 else SumLengths(pages[i]) + |pages[i]| - 1
  {
    if pages != [] {
      AssembleLength(pages[..|pages| - 1]);
    }
  }

  /** Pages without text items give a text of blank lines only: nothing
      that `trim` keeps. */
  lemma {:induction false} TextlessPagesBlank(pages: seq<seq<string>>)
    requires forall i :: 0 <= i < |pages| ==> pages[i] == []
    ensures IsBlank(AssembleText(pages))
  {
    if pages != [] {
      var front := pages[..|pages| - 1];
      assert forall i :: 0 <= i < |front| ==> front[i] == pages[i];
      TextlessPagesBlank(front);
      var t := AssembleText(front);
      assert PageText(pages[|pages| - 1]) == "";
      assert AssembleText(pages) == t + "\n\n";
      forall i | 0 <= i < |t + "\n\n"| ensures IsWhitespace((t + "\n\n")[i]) {
        if i < |t| {
          assert (t + "\n\n")[i] == t[i];
        }
      }
    }
  }

  /** A document without pages gives the empty text. */
  lemma NoPagesNoText()
    ensures ExtractionOutcome(ReadBytes(Document([]))) == Success("")
  {
  }
}
