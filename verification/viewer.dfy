/** The study viewer (components/FlashcardViewer.tsx): cyclic navigation over
    the saved cards, the flip flag and its reset on a change of card, the
    export guards, and the paragraph list of the word-processor export. */
module Viewer {
  import opened Flashcards
  import opened Strings

  /** `(prevIndex + 1) % cards.length` */
  function Next(index: nat, count: nat): (r: nat)
    requires count > 0
    ensures r < count
  {
    (index + 1) % count
  }

  /** `(prevIndex - 1 + cards.length) % cards.length`; with `index` a valid
      position the dividend is non-negative, so JavaScript's `%` and Dafny's
      agree. */
  function Prev(index: nat, count: nat): (r: nat)
    requires count > 0
    ensures r < count
  {
    (index - 1 + count) % count
  }

  /** Next moves one card forward and wraps from the last card to the first. */
  lemma NextStep(index: nat, count: nat)
    requires index < count
    ensures Next(index, count) == if index == count - 1 then 0 else index + 1
  {
    if index == count - 1 {
      assert index + 1 == count;
    } else {
      assert 0 <= index + 1 < count;
    }
  }

  /** Prev moves one card back and wraps from the first card to the last. */
  lemma PrevStep(index: nat, count: nat)
    requires index < count
    ensures Prev(index, count) == if index == 0 then count - 1 else index - 1
  {
    if index == 0 {
      assert 0 <= count - 1 < count;
    } else {
      assert index - 1 + count == (index - 1) + count;
      assert ((index - 1) + count) % count == index - 1;
    }
  }

  /** Prev undoes Next. */
  lemma PrevAfterNext(index: nat, count: nat)
    requires index < count
    ensures Prev(Next(index, count), count) == index
  {
    NextStep(index, count);
    PrevStep(Next(index, count), count);
  }

  /** Next undoes Prev. */
  lemma NextAfterPrev(index: nat, count: nat)
    requires index < count
    ensures Next(Prev(index, count), count) == index
  {
    PrevStep(index, count);
    NextStep(Prev(index, count), count);
  }

  /** A run of a docx paragraph. */
  datatype TextRun = TextRun(text: string, bold: bool)

  /** A docx paragraph: its runs and its spacing after, in twentieths of a point. */
  datatype Paragraph = Paragraph(runs: seq<TextRun>, spacingAfter: nat)

  /** "Câu hỏi {n}: " — the bold label before the n-th question. */
  function QuestionLabel(n: nat): string {
    "Câu hỏi " + NatToDecimal(n) + ": "
  }

  const AnswerLabel: string := "Trả lời: "

  /** The two paragraphs of the card at zero-based position `index`. */
  function CardParagraphs(card: Card, index: nat): seq<Paragraph> {
    [ Paragraph([TextRun(QuestionLabel(index + 1), true), TextRun(card.question, false)], 100),
      Paragraph([TextRun(AnswerLabel, true), TextRun(card.answer, false)], 300) ]
  }

  /** `docChildren`: the `flatMap` of the cards, in card order, into their
      question paragraph and answer paragraph. */
  function DocChildren(cards: seq<Card>): (r: seq<Paragraph>)
    ensures |r| == 2 * |cards|
    ensures forall k :: 0 <= k < |cards| ==>
      r[2 * k] == Paragraph([TextRun(QuestionLabel(k + 1), true), TextRun(cards[k].question, false)], 100)
    ensures forall k :: 0 <= k < |cards| ==>
      r[2 * k + 1] == Paragraph([TextRun(AnswerLabel, true), TextRun(cards[k].answer, false)], 300)
  {
    if cards == [] then []
    else DocChildren(cards[..|cards| - 1]) + CardParagraphs(cards[|cards| - 1], |cards| - 1)
  }

  /** The question labels of two different cards differ, so each card's
      number identifies it in the exported document. */
  lemma QuestionLabelsDistinct(m: nat, n: nat)
    requires m != n
    ensures QuestionLabel(m) != QuestionLabel(n)
  {
    var prefix := "Câu hỏi ";
    var lm, ln := QuestionLabel(m), QuestionLabel(n);
    assert lm[|prefix|..|lm| - 2] == NatToDecimal(m);
    assert ln[|prefix|..|ln| - 2] == NatToDecimal(n);
    DecimalInjective(m, n);
  }

  /** What a click on "export PDF" does. */
  datatype PdfExport =
    | PdfNotReady(alert: string)      // the rendering libraries are still loading
    | PdfNothingToExport              // the list is empty: return without a file
    | PdfReport(cards: seq<Card>)     // render the report of these cards

  /** What a click on "export DOCX" does. */
  datatype DocxExport =
    | DocxNotReady(alert: string)
    | DocxNothingToExport
    | DocxDocument(body: seq<Paragraph>)

  const PdfNotReadyAlert: string := "Thư viện xuất PDF chưa sẵn sàng. Vui lòng đợi một lát rồi thử lại."
  const DocxNotReadyAlert: string := "Thư viện xuất DOCX chưa sẵn sàng. Vui lòng đợi một lát rồi thử lại."

  /** What the viewer shows. */
  datatype Screen =
    | NoCardsNotice                                               // "Không có thẻ nào để hiển thị."
    | CardScreen(question: string, answer: string, flipped: bool,
                 position: nat, total: nat)                       // "Thẻ {position} / {total}"

  /** The viewer component's state. The cards are a prop: fixed while the
      component is mounted. */
  class CardViewer {
    const cards: seq<Card>
    var currentIndex: nat
    var isFlipped: bool
    var docxLoaded: bool
    var pdfLoaded: bool

    /** The index points at a card whenever there is one. */
    ghost predicate Valid()
      reads this
    {
      if |cards| == 0 then currentIndex == 0 else currentIndex < |cards|
    }

    constructor (cards: seq<Card>)
      ensures this.cards == cards && Valid()
      ensures currentIndex == 0 && !isFlipped && !docxLoaded && !pdfLoaded
    {
      this.cards := cards;
      currentIndex := 0;
      isFlipped := false;
      docxLoaded := false;
      pdfLoaded := false;
    }

    /** `setCurrentIndex(i)` followed by the effect keyed on `currentIndex`:
        the flip flag is cleared only when the index actually changed. */
    method SetCurrentIndex(i: nat)
      modifies this
      ensures currentIndex == i
      ensures isFlipped == (if i != old(currentIndex) then false else old(isFlipped))
      ensures docxLoaded == old(docxLoaded) && pdfLoaded == old(pdfLoaded)
    {
      if i != currentIndex {
        isFlipped := false;
      }
      currentIndex := i;
    }

    /** The arrow buttons exist only while there is a card to show. */
    method HandleNext()
      requires Valid() && |cards| > 0
      modifies this
      ensures Valid()
      ensures currentIndex == Next(old(currentIndex), |cards|)
      ensures isFlipped == (if currentIndex != old(currentIndex) then false else old(isFlipped))
      ensures docxLoaded == old(docxLoaded) && pdfLoaded == old(pdfLoaded)
    {
      SetCurrentIndex(Next(currentIndex, |cards|));
    }

    method HandlePrev()
      requires Valid() && |cards| > 0
      modifies this
      ensures Valid()
      ensures currentIndex == Prev(old(currentIndex), |cards|)
      ensures isFlipped == (if currentIndex != old(currentIndex) then false else old(isFlipped))
      ensures docxLoaded == old(docxLoaded) && pdfLoaded == old(pdfLoaded)
    {
      SetCurrentIndex(Prev(currentIndex, |cards|));
    }

    method HandleFlip()
      modifies this
      ensures isFlipped == !old(isFlipped)
      ensures currentIndex == old(currentIndex)
      ensures docxLoaded == old(docxLoaded) && pdfLoaded == old(pdfLoaded)
    {
      isFlipped := !isFlipped;
    }

    /** One tick of the availability polling: a flag is set once its library
        is found and is never cleared. */
    method LibrariesPolled(docxPresent: bool, pdfPresent: bool)
      modifies this
      ensures docxLoaded == (old(docxLoaded) || docxPresent)
      ensures pdfLoaded == (old(pdfLoaded) || pdfPresent)
      ensures currentIndex == old(currentIndex) && isFlipped == old(isFlipped)
    {
      if docxPresent { docxLoaded := true; }
      if pdfPresent { pdfLoaded := true; }
    }

    /** The guards of `handleExportPdf`; the rendering that follows them is
        not part of this model. */
    method HandleExportPdf() returns (r: PdfExport)
      ensures !pdfLoaded ==> r == PdfNotReady(PdfNotReadyAlert)
      ensures pdfLoaded && |cards| == 0 ==> r == PdfNothingToExport
      ensures pdfLoaded && |cards| > 0 ==> r == PdfReport(cards)
    {
      if !pdfLoaded {
        return PdfNotReady(PdfNotReadyAlert);
      }
      if |cards| == 0 {
        return PdfNothingToExport;
      }
      r := PdfReport(cards);
    }

    /** `handleExportDocx` up to the document body it hands to the packer. */
    method HandleExportDocx() returns (r: DocxExport)
      ensures !docxLoaded ==> r == DocxNotReady(DocxNotReadyAlert)
      ensures docxLoaded && |cards| == 0 ==> r == DocxNothingToExport
      ensures docxLoaded && |cards| > 0 ==> r.DocxDocument? && |r.body| == 2 * |cards|
      ensures docxLoaded && |cards| > 0 ==> r == DocxDocument(DocChildren(cards))
    {
      if !docxLoaded {
        return DocxNotReady(DocxNotReadyAlert);
      }
      if |cards| == 0 {
        return DocxNothingToExport;
      }
      r := DocxDocument(DocChildren(cards));
    }

    /** The rendered screen: the empty list shows the notice and never
        indexes into `cards`. */
    method Render() returns (s: Screen)
      requires Valid()
      ensures |cards| == 0 <==> s == NoCardsNotice
      ensures |cards| > 0 ==> s == CardScreen(cards[currentIndex].question, cards[currentIndex].answer,
                                              isFlipped, currentIndex + 1, |cards|)
    {
      if |cards| == 0 {
        return NoCardsNotice;
      }
      var card := cards[currentIndex];
      s := CardScreen(card.question, card.answer, isFlipped, currentIndex + 1, |cards|);
    }
  }

  /** Flipping twice shows the face that was showing before. */
  method FlipTwice(v: CardViewer)
    modifies v
    ensures v.isFlipped == old(v.isFlipped) && v.currentIndex == old(v.currentIndex)
  {
    v.HandleFlip();
    v.HandleFlip();
  }

  /** Next then prev comes back to the same card, face down. */
  method NextThenPrev(v: CardViewer)
    requires v.Valid() && |v.cards| > 0
    modifies v
    ensures v.Valid() && v.currentIndex == old(v.currentIndex)
    ensures |v.cards| > 1 ==> !v.isFlipped
  {
    ghost var start := v.currentIndex;
    v.HandleNext();
    v.HandlePrev();
    PrevAfterNext(start, |v.cards|);
    NextStep(start, |v.cards|);
  }
}
