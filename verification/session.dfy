/** The app shell (App.tsx): the screen mode, the card list, the error banner
    and the loading message, and the three handlers that drive them.
    Extraction, fetching and generation are the modelled services or
    oracles carried by an `Env`; each handler runs as one atomic step. */
module Session {
  import opened Results
  import opened Strings
  import opened Flashcards
  import opened Selector
  import opened PdfText
  import opened Generator

  datatype AppState = Input | Loading | Editing | Viewing

  /** `{ type: string; data: File | string }` as `handleGenerate` receives it. */
  datatype Source = Source(kind: string, data: Payload)

  /** A thrown value: an `Error` with its message, or anything else. */
  datatype Thrown = ErrorObject(message: string) | NonErrorValue

  /** A call out of the app. */
  datatype ExternalCall = ReadPdf(file: File) | FetchUrl(url: string) | Complete(prompt: string)

  /** One observable step of a handler: a state setter or an external call. */
  datatype Event =
    | SetError(error: Option<string>)
    | SetAppState(state: AppState)
    | SetLoadingMessage(message: string)
    | SetFlashcards(cards: seq<Card>)
    | Call(call: ExternalCall)

  /** The outside world of one generation: the file reader and PDF parser,
      the URL fetcher, the configured API key, the AI service and the id
      supply. */
  datatype Env = Env(
    readPdf: File -> PdfRead,
    fetchUrl: string -> Result<string, Thrown>,
    apiKey: Option<string>,
    service: string -> Reply,
    uuid: nat -> string)

  /** What one `handleGenerate` call does: the cards it stores or the value it
      catches, and every step it takes, in order. */
  datatype Run = Run(outcome: Result<seq<Card>, Thrown>, events: seq<Event>)

  const MaxFileSizeMB: nat := 10
  const MaxFileSize: nat := MaxFileSizeMB * 1024 * 1024

  const PdfLoadingMessage: string := "Đang trích xuất văn bản từ PDF..."
  const TextLoadingMessage: string := "Đang chuẩn bị văn bản..."
  const UrlLoadingMessage: string := "Đang lấy nội dung từ URL..."
  const GeneratingMessage: string := "Đang tạo thẻ ôn tập, vui lòng đợi trong giây lát."

  const YoutubeMessage: string := "Tính năng tạo thẻ ôn tập từ YouTube chưa được hỗ trợ."
  const UnknownSourceMessage: string := "Loại nguồn không xác định."
  const NoContentMessage: string := "Không tìm thấy nội dung để tạo thẻ ôn tập."
  const NoCardsMessage: string := "Không thể tạo thẻ ôn tập từ tài liệu này."
  const UnknownErrorMessage: string := "Đã xảy ra lỗi không xác định."

  /** `Kích thước file quá lớn. Kích thước tối đa là ${MAX_FILE_SIZE_MB}MB.` */
  function FileTooLargeMessage(): string {
    "Kích thước file quá lớn. Kích thước tối đa là " + NatToDecimal(MaxFileSizeMB) + "MB."
  }

  /** The casts `source.data as File` / `as string` hold: a pdf source
      carries a file, a text or url source a string. */
  predicate WellTyped(source: Source) {
    && (source.kind == "pdf" ==> source.data.FileData?)
    && (source.kind == "text" ==> source.data.TextData?)
    && (source.kind == "url" ==> source.data.TextData?)
  }

  /** The source the selector's `onGenerate` hands over. */
  function SourceOf(sel: Selection): Source {
    Source(TabId(sel.kind), sel.data)
  }

  /** `err instanceof Error ? err.message : 'Đã xảy ra lỗi không xác định.'` */
  function ErrorMessage(t: Thrown): string {
    match t
    case ErrorObject(m) => m
    case NonErrorValue => UnknownErrorMessage
  }

  /** The service call of a generation, as events. */
  function CallsOf(request: Option<string>): seq<Event> {
    match request
    case None => []
    case Some(prompt) => [Call(Complete(prompt))]
  }

  /** The `switch` on the source type: the text it yields or the value it
      throws, and the steps it takes. */
  function AcquireText(source: Source, env: Env): (Result<string, Thrown>, seq<Event>)
    requires WellTyped(source)
  {
    if source.kind == "pdf" then
      var file := source.data.file;
      if file.size > MaxFileSize then
        (Failure(ErrorObject(FileTooLargeMessage())), [SetLoadingMessage(PdfLoadingMessage)])
      else
        var extracted := match ExtractionOutcome(env.readPdf(file))
          case Success(t) => Success(t)
          case Failure(m) => Failure(ErrorObject(m));
        (extracted, [SetLoadingMessage(PdfLoadingMessage), Call(ReadPdf(file))])
    else if source.kind == "text" then
      (Success(source.data.text), [SetLoadingMessage(TextLoadingMessage)])
    else if source.kind == "url" then
      (env.fetchUrl(source.data.text),
       [SetLoadingMessage(UrlLoadingMessage), Call(FetchUrl(source.data.text))])
    else if source.kind == "youtube" then
      (Failure(ErrorObject(YoutubeMessage)), [])
    else
      (Failure(ErrorObject(UnknownSourceMessage)), [])
  }

  /** From the generating message on: the call the generation made, then
      the empty-result guard, and on success storing the cards and entering
      EDITING. */
  function Settle(g: Generation): (Result<seq<Card>, Thrown>, seq<Event>) {
    var steps := [SetLoadingMessage(GeneratingMessage)] + CallsOf(g.request);
    match g.result
    case Failure(m) => (Failure(ErrorObject(m)), steps)
    case Success(cards) =>
      if |cards| == 0 then (Failure(ErrorObject(NoCardsMessage)), steps)
      else (Success(cards), steps + [SetFlashcards(cards), SetAppState(Editing)])
  }

  /** The `try` block after the switch: the empty-text guard, then the
      generation. */
  function GenerateFromText(text: string, env: Env): (Result<seq<Card>, Thrown>, seq<Event>) {
    if Trim(text) == "" then (Failure(ErrorObject(NoContentMessage)), [])
    else Settle(Generate(text, env.apiKey, env.service, env.uuid))
  }

  /** The whole `try` block: the switch, then (when it yields text) the
      generation steps. */
  function TryBlock(source: Source, env: Env): (Result<seq<Card>, Thrown>, seq<Event>)
    requires WellTyped(source)
  {
    var acquired := AcquireText(source, env);
    match acquired.0
    case Failure(t) => (Failure(t), acquired.1)
    case Success(text) =>
      var rest := GenerateFromText(text, env);
      (rest.0, acquired.1 + rest.1)
  }

  /** The `catch` block: show the message and go back to INPUT. */
  function CatchBlock(outcome: Result<seq<Card>, Thrown>): seq<Event> {
    match outcome
    case Success(_) => []
    case Failure(t) => [SetError(Some(ErrorMessage(t))), SetAppState(Input)]
  }

  /** The whole of `handleGenerate`: clear the error, enter LOADING, run the
      try block, catch, and finally clear the loading message. */
  function RunGenerate(source: Source, env: Env): Run
    requires WellTyped(source)
  {
    var body := TryBlock(source, env);
    Run(body.0, [SetError(None), SetAppState(Loading)] + body.1 + CatchBlock(body.0) + [SetLoadingMessage("")])
  }

  /** No event of `events` is a call out of the app. */
  predicate NoCalls(events: seq<Event>) {
    forall i :: 0 <= i < |events| ==> !events[i].Call?
  }

  /** No event of `events` is a call to the AI service. */
  predicate NoServiceCall(events: seq<Event>) {
    forall i :: 0 <= i < |events| ==> !(events[i].Call? && events[i].call.Complete?)
  }

  /** No event of `events` stores cards. */
  predicate NoCardsStored(events: seq<Event>) {
    forall i :: 0 <= i < |events| ==> !events[i].SetFlashcards?
  }

  lemma EventsAssoc(a: seq<Event>, b: seq<Event>, c: seq<Event>)
    ensures a + b + c == a + (b + c)
  {
  }

  lemma FiveAssoc(a: seq<Event>, b: seq<Event>, c: seq<Event>, d: seq<Event>, e: seq<Event>)
    ensures a + b + c + d + e == a + (b + c + d + e)
  {
  }

  lemma NoServiceCallAppend(a: seq<Event>, b: seq<Event>)
    requires NoServiceCall(a) && NoServiceCall(b)
    ensures NoServiceCall(a + b)
  {
  }

  lemma NoCardsStoredAppend(a: seq<Event>, b: seq<Event>)
    requires NoCardsStored(a) && NoCardsStored(b)
    ensures NoCardsStored(a + b)
  {
  }

  lemma NoCallsAppend(a: seq<Event>, b: seq<Event>)
    requires NoCalls(a) && NoCalls(b)
    ensures NoCalls(a + b)
  {
  }

  /** The steps around the try block make no calls: whatever calls a
      generation makes, the try block makes. */
  lemma FrameMakesNoCalls(source: Source, env: Env)
    requires WellTyped(source)
    ensures NoCalls(TryBlock(source, env).1) ==> NoCalls(RunGenerate(source, env).events)
    ensures NoServiceCall(TryBlock(source, env).1) ==> NoServiceCall(RunGenerate(source, env).events)
  {
    var body := TryBlock(source, env);
    var start := [SetError(None), SetAppState(Loading)];
    var caught := CatchBlock(body.0);
    var last := [SetLoadingMessage("")];
    assert RunGenerate(source, env).events == start + body.1 + caught + last;
    assert NoCalls(start) && NoCalls(caught) && NoCalls(last);
    if NoCalls(body.1) {
      NoCallsAppend(start, body.1);
      NoCallsAppend(start + body.1, caught);
      NoCallsAppend(start + body.1 + caught, last);
    }
    if NoServiceCall(body.1) {
      NoServiceCallAppend(start, body.1);
      NoServiceCallAppend(start + body.1, caught);
      NoServiceCallAppend(start + body.1 + caught, last);
    }
  }

  /** A generation starts by clearing the error and entering LOADING, before
      any call out of the app, and every outcome ends by clearing the loading
      message. */
  lemma GenerateBeginsAndEnds(source: Source, env: Env)
    requires WellTyped(source)
    ensures var ev := RunGenerate(source, env).events;
      |ev| >= 3 && ev[0] == SetError(None) && ev[1] == SetAppState(Loading)
      && ev[|ev| - 1] == SetLoadingMessage("")
  {
  }

  /** An oversized PDF is refused with the size message before the file is
      read. */
  lemma OversizedPdfRefused(file: File, env: Env)
    requires file.size > MaxFileSize
    ensures RunGenerate(Source("pdf", FileData(file)), env).outcome
         == Failure(ErrorObject(FileTooLargeMessage()))
    ensures NoCalls(RunGenerate(Source("pdf", FileData(file)), env).events)
  {
    var source := Source("pdf", FileData(file));
    assert TryBlock(source, env).1 == [SetLoadingMessage(PdfLoadingMessage)];
    FrameMakesNoCalls(source, env);
  }

  /** A youtube source is refused whatever it carries, and an unknown source
      type is refused with its own message; neither calls out. */
  lemma UnsupportedSourcesRefused(kind: string, data: Payload, env: Env)
    requires kind != "pdf" && kind != "text" && kind != "url"
    ensures RunGenerate(Source(kind, data), env).outcome ==
      Failure(ErrorObject(if kind == "youtube" then YoutubeMessage else UnknownSourceMessage))
    ensures NoCalls(RunGenerate(Source(kind, data), env).events)
  {
    assert TryBlock(Source(kind, data), env).1 == [];
    FrameMakesNoCalls(Source(kind, data), env);
  }

  /** Text that is all whitespace is refused with the no-content message and
      the AI service is never called. */
  lemma BlankTextNeverGenerates(text: string, env: Env)
    requires IsBlank(text)
    ensures RunGenerate(Source("text", TextData(text)), env).outcome
         == Failure(ErrorObject(NoContentMessage))
    ensures NoServiceCall(RunGenerate(Source("text", TextData(text)), env).events)
  {
    TrimEmptyIffBlank(text);
    var source := Source("text", TextData(text));
    assert GenerateFromText(text, env).1 == [];
    assert TryBlock(source, env).1 == [SetLoadingMessage(TextLoadingMessage)];
    FrameMakesNoCalls(source, env);
  }

  /** Whatever the source, the generation steps begin only for text that is
      not all whitespace. */
  lemma ServiceSeesOnlyNonBlankText(text: string, env: Env)
    ensures IsBlank(text) ==> GenerateFromText(text, env) == (Failure(ErrorObject(NoContentMessage)), [])
    ensures !IsBlank(text) ==> GenerateFromText(text, env).1[0] == SetLoadingMessage(GeneratingMessage)
  {
    TrimEmptyIffBlank(text);
  }

  /** The switch on the source type never calls the AI service. */
  lemma AcquireMakesNoServiceCall(source: Source, env: Env)
    requires WellTyped(source)
    ensures NoServiceCall(AcquireText(source, env).1)
  {
  }

  /** Whatever the source, a text that is all whitespace is refused with the
      no-content message, and the AI service is never called. */
  lemma BlankTextRefused(source: Source, env: Env)
    requires WellTyped(source)
    requires AcquireText(source, env).0.Success? && IsBlank(AcquireText(source, env).0.value)
    ensures RunGenerate(source, env).outcome == Failure(ErrorObject(NoContentMessage))
    ensures NoServiceCall(RunGenerate(source, env).events)
  {
    var acquired := AcquireText(source, env);
    ServiceSeesOnlyNonBlankText(acquired.0.value, env);
    assert acquired.1 + [] == acquired.1;
    assert TryBlock(source, env) == (Failure(ErrorObject(NoContentMessage)), acquired.1);
    AcquireMakesNoServiceCall(source, env);
    FrameMakesNoCalls(source, env);
  }

  /** A PDF whose pages carry no text items is read, then refused with the
      no-content message before the AI service is called. */
  lemma TextlessPdfRefused(file: File, pages: seq<seq<string>>, env: Env)
    requires file.size <= MaxFileSize
    requires env.readPdf(file) == ReadBytes(Document(pages))
    requires forall i :: 0 <= i < |pages| ==> pages[i] == []
    ensures RunGenerate(Source("pdf", FileData(file)), env).outcome
         == Failure(ErrorObject(NoContentMessage))
    ensures NoServiceCall(RunGenerate(Source("pdf", FileData(file)), env).events)
  {
    TextlessPagesBlank(pages);
    assert AcquireText(Source("pdf", FileData(file)), env).0 == Success(AssembleText(pages));
    BlankTextRefused(Source("pdf", FileData(file)), env);
  }

  /** A fetched page that is all whitespace is refused the same way. */
  lemma BlankPageRefused(url: string, page: string, env: Env)
    requires env.fetchUrl(url) == Success(page) && IsBlank(page)
    ensures RunGenerate(Source("url", TextData(url)), env).outcome
         == Failure(ErrorObject(NoContentMessage))
    ensures NoServiceCall(RunGenerate(Source("url", TextData(url)), env).events)
  {
    BlankTextRefused(Source("url", TextData(url)), env);
  }

  /** A successful generation stores exactly the generated cards, which are
      never empty, then enters EDITING and finally clears the loading
      message; nothing is caught. */
  lemma SuccessEntersEditing(source: Source, env: Env)
    requires WellTyped(source)
    requires RunGenerate(source, env).outcome.Success?
    ensures var run := RunGenerate(source, env);
      var ev := run.events;
      |run.outcome.value| > 0 && |ev| >= 5
      && ev[|ev| - 3] == SetFlashcards(run.outcome.value)
      && ev[|ev| - 2] == SetAppState(Editing)
      && ev[|ev| - 1] == SetLoadingMessage("")
  {
    var body := TryBlock(source, env);
    TrySuccessEnds(source, env);
    assert CatchBlock(body.0) == [];
  }

  /** A try block that completes ends by storing its cards, which are never
      empty, and entering EDITING. */
  lemma TrySuccessEnds(source: Source, env: Env)
    requires WellTyped(source)
    requires TryBlock(source, env).0.Success?
    ensures var body := TryBlock(source, env);
      |body.0.value| > 0 && |body.1| >= 2
      && body.1[|body.1| - 2] == SetFlashcards(body.0.value)
      && body.1[|body.1| - 1] == SetAppState(Editing)
  {
    var acquired := AcquireText(source, env);
    var rest := GenerateFromText(acquired.0.value, env);
    GenerateSuccessEnds(acquired.0.value, env);
    assert TryBlock(source, env) == (rest.0, acquired.1 + rest.1);
  }

  lemma GenerateSuccessEnds(text: string, env: Env)
    requires GenerateFromText(text, env).0.Success?
    ensures var rest := GenerateFromText(text, env);
      |rest.0.value| > 0 && |rest.1| >= 2
      && rest.1[|rest.1| - 2] == SetFlashcards(rest.0.value)
      && rest.1[|rest.1| - 1] == SetAppState(Editing)
  {
    SettleSuccessEnds(Generate(text, env.apiKey, env.service, env.uuid));
  }

  lemma SettleSuccessEnds(g: Generation)
    requires Settle(g).0.Success?
    ensures var r := Settle(g);
      |r.0.value| > 0 && |r.1| >= 2
      && r.1[|r.1| - 2] == SetFlashcards(r.0.value)
      && r.1[|r.1| - 1] == SetAppState(Editing)
  {
  }

  /** Every failure returns to INPUT with the caught message in the banner
      (the fallback sentence for a thrown non-Error) and stores no cards. */
  lemma FailureReturnsToInput(source: Source, env: Env)
    requires WellTyped(source)
    requires RunGenerate(source, env).outcome.Failure?
    ensures var run := RunGenerate(source, env);
      var ev := run.events;
      |ev| >= 5
      && ev[|ev| - 3] == SetError(Some(ErrorMessage(run.outcome.error)))
      && ev[|ev| - 2] == SetAppState(Input)
      && ev[|ev| - 1] == SetLoadingMessage("")
      && NoCardsStored(ev)
  {
    var body := TryBlock(source, env);
    TryFailureStoresNoCards(source, env);
    var start := [SetError(None), SetAppState(Loading)];
    var caught := CatchBlock(body.0);
    var last := [SetLoadingMessage("")];
    assert caught == [SetError(Some(ErrorMessage(body.0.error))), SetAppState(Input)];
    assert NoCardsStored(start) && NoCardsStored(caught) && NoCardsStored(last);
    NoCardsStoredAppend(start, body.1);
    NoCardsStoredAppend(start + body.1, caught);
    NoCardsStoredAppend(start + body.1 + caught, last);
  }

  /** A try block that throws has stored no cards. */
  lemma TryFailureStoresNoCards(source: Source, env: Env)
    requires WellTyped(source)
    requires TryBlock(source, env).0.Failure?
    ensures NoCardsStored(TryBlock(source, env).1)
  {
    var acquired := AcquireText(source, env);
    assert NoCardsStored(acquired.1);
    if acquired.0.Success? {
      var rest := GenerateFromText(acquired.0.value, env);
      GenerateFailureStoresNoCards(acquired.0.value, env);
      NoCardsStoredAppend(acquired.1, rest.1);
    }
  }

  /** A generation step that throws has stored no cards. */
  lemma GenerateFailureStoresNoCards(text: string, env: Env)
    requires GenerateFromText(text, env).0.Failure?
    ensures NoCardsStored(GenerateFromText(text, env).1)
  {
    if Trim(text) != "" {
      SettleFailureStoresNoCards(Generate(text, env.apiKey, env.service, env.uuid));
    }
  }

  lemma SettleFailureStoresNoCards(g: Generation)
    requires Settle(g).0.Failure?
    ensures NoCardsStored(Settle(g).1)
  {
    assert NoCardsStored(CallsOf(g.request));
    NoCardsStoredAppend([SetLoadingMessage(GeneratingMessage)], CallsOf(g.request));
  }

  /** Without an API key the service is never called and the banner shows
      the configuration message. */
  lemma MissingKeyNeverCallsService(text: string, env: Env)
    requires !IsBlank(text) && ApiKeyMissing(env.apiKey)
    ensures RunGenerate(Source("text", TextData(text)), env).outcome
         == Failure(ErrorObject(ApiKeyMissingMessage))
    ensures NoServiceCall(RunGenerate(Source("text", TextData(text)), env).events)
  {
    var source := Source("text", TextData(text));
    TextTryBlock(text, env);
    MissingKeyStopsAtService(text, env);
    NoServiceCallAppend([SetLoadingMessage(TextLoadingMessage)], [SetLoadingMessage(GeneratingMessage)]);
    FrameMakesNoCalls(source, env);
  }

  /** Pasted text goes straight to the generation steps. */
  lemma TextTryBlock(text: string, env: Env)
    ensures TryBlock(Source("text", TextData(text)), env)
         == (GenerateFromText(text, env).0,
             [SetLoadingMessage(TextLoadingMessage)] + GenerateFromText(text, env).1)
  {
    var acquired := AcquireText(Source("text", TextData(text)), env);
    assert acquired == (Success(text), [SetLoadingMessage(TextLoadingMessage)]);
  }

  lemma MissingKeyStopsAtService(text: string, env: Env)
    requires !IsBlank(text) && ApiKeyMissing(env.apiKey)
    ensures GenerateFromText(text, env)
         == (Failure(ErrorObject(ApiKeyMissingMessage)), [SetLoadingMessage(GeneratingMessage)])
  {
    TrimEmptyIffBlank(text);
    var g := Generate(text, env.apiKey, env.service, env.uuid);
    assert g == Generation(Failure(ApiKeyMissingMessage), None);
    assert Trim(text) != "";
    assert CallsOf(g.request) == [];
    assert [SetLoadingMessage(GeneratingMessage)] + CallsOf(g.request) == [SetLoadingMessage(GeneratingMessage)];
  }

  /** Every click the selector turns into a source is well-typed and of a
      known type, so the "unknown source" branch is never reached from the
      UI. */
  lemma ClickedSourcesWellTyped(s: SelectorState, disabled: bool)
    requires HandleGenerateClick(s, disabled).Some?
    ensures WellTyped(SourceOf(HandleGenerateClick(s, disabled).value))
    ensures SourceOf(HandleGenerateClick(s, disabled).value).kind in {"pdf", "text", "url", "youtube"}
  {
  }

  /** The round trip of the pasted-text path: a reply with one entry gives
      one card with that question and answer and the first id drawn, stored
      in EDITING. */
  lemma OneCardScenario(env: Env)
    requires !ApiKeyMissing(env.apiKey)
    requires env.service(BuildPrompt("Paris is the capital of France."))
          == Parsed(JsonArray([RawCard("What is the capital of France?", "Paris")]))
    ensures RunGenerate(Source("text", TextData("Paris is the capital of France.")), env).outcome
         == Success([Card(env.uuid(0), "What is the capital of France?", "Paris")])
  {
    var text := "Paris is the capital of France.";
    TextTryBlock(text, env);
    OneCardGenerated(env);
  }

  lemma OneCardGenerated(env: Env)
    requires !ApiKeyMissing(env.apiKey)
    requires env.service(BuildPrompt("Paris is the capital of France."))
          == Parsed(JsonArray([RawCard("What is the capital of France?", "Paris")]))
    ensures GenerateFromText("Paris is the capital of France.", env).0
         == Success([Card(env.uuid(0), "What is the capital of France?", "Paris")])
  {
    var text := "Paris is the capital of France.";
    var items := [RawCard("What is the capital of France?", "Paris")];
    assert !IsWhitespace(text[0]);
    TrimEmptyIffBlank(text);
    var g := Generate(text, env.apiKey, env.service, env.uuid);
    assert g.result == Success(AssignIds(items, env.uuid));
    assert AssignIds(items, env.uuid) == [Card(env.uuid(0), items[0].question, items[0].answer)];
  }

  /** The app component's state. `trace` records every setter call and
      every call out of the app, in order. */
  class App {
    var appState: AppState
    var flashcards: seq<Card>
    var error: Option<string>
    var loadingMessage: string
    ghost var trace: seq<Event>

    /** Between handlers the app is never in LOADING and shows no loading
        message. */
    ghost predicate Idle()
      reads this
    {
      appState != Loading && loadingMessage == ""
    }

    constructor ()
      ensures appState == Input && flashcards == [] && error == None && loadingMessage == ""
      ensures trace == [] && Idle()
    {
      appState := Input;
      flashcards := [];
      error := None;
      loadingMessage := "";
      trace := [];
    }

    method SetErrorTo(e: Option<string>)
      modifies this
      ensures error == e && trace == old(trace) + [SetError(e)]
      ensures appState == old(appState) && flashcards == old(flashcards)
      ensures loadingMessage == old(loadingMessage)
    {
      error := e;
      trace := trace + [SetError(e)];
    }

    method SetAppStateTo(s: AppState)
      modifies this
      ensures appState == s && trace == old(trace) + [SetAppState(s)]
      ensures error == old(error) && flashcards == old(flashcards)
      ensures loadingMessage == old(loadingMessage)
    {
      appState := s;
      trace := trace + [SetAppState(s)];
    }

    method SetLoadingMessageTo(m: string)
      modifies this
      ensures loadingMessage == m && trace == old(trace) + [SetLoadingMessage(m)]
      ensures appState == old(appState) && error == old(error) && flashcards == old(flashcards)
    {
      loadingMessage := m;
      trace := trace + [SetLoadingMessage(m)];
    }

    method SetFlashcardsTo(cards: seq<Card>)
      modifies this
      ensures flashcards == cards && trace == old(trace) + [SetFlashcards(cards)]
      ensures appState == old(appState) && error == old(error)
      ensures loadingMessage == old(loadingMessage)
    {
      flashcards := cards;
      trace := trace + [SetFlashcards(cards)];
    }

    /** Records calls out of the app; no state changes. */
    method Record(events: seq<Event>)
      modifies this
      ensures trace == old(trace) + events
      ensures appState == old(appState) && error == old(error) && flashcards == old(flashcards)
      ensures loadingMessage == old(loadingMessage)
    {
      trace := trace + events;
    }

    /** The `switch` on `source.type`: sets the loading message, reads or
        fetches, and yields the text or the value thrown. */
    method SwitchOnSource(source: Source, env: Env) returns (acquired: Result<string, Thrown>)
      requires WellTyped(source)
      modifies this
      ensures acquired == AcquireText(source, env).0
      ensures trace == old(trace) + AcquireText(source, env).1
      ensures appState == old(appState) && error == old(error) && flashcards == old(flashcards)
    {
      if source.kind == "pdf" {
        SetLoadingMessageTo(PdfLoadingMessage);
        var file := source.data.file;
        if file.size > MaxFileSize {
          acquired := Failure(ErrorObject(FileTooLargeMessage()));
        } else {
          Record([Call(ReadPdf(file))]);
          var extracted := ExtractTextFromPdf(env.readPdf(file));
          match extracted {
            case Success(t) => acquired := Success(t);
            case Failure(m) => acquired := Failure(ErrorObject(m));
          }
        }
      } else if source.kind == "text" {
        SetLoadingMessageTo(TextLoadingMessage);
        acquired := Success(source.data.text);
      } else if source.kind == "url" {
        SetLoadingMessageTo(UrlLoadingMessage);
        Record([Call(FetchUrl(source.data.text))]);
        acquired := env.fetchUrl(source.data.text);
      } else if source.kind == "youtube" {
        acquired := Failure(ErrorObject(YoutubeMessage));
      } else {
        acquired := Failure(ErrorObject(UnknownSourceMessage));
      }
    }

    /** The rest of the `try` block: the empty-text guard, the generation,
        the empty-result guard, and on success storing the cards and
        entering EDITING. */
    method GenerateCards(text: string, env: Env) returns (outcome: Result<seq<Card>, Thrown>)
      modifies this
      ensures outcome == GenerateFromText(text, env).0
      ensures trace == old(trace) + GenerateFromText(text, env).1
      ensures outcome.Success? ==> flashcards == outcome.value && appState == Editing
      ensures outcome.Failure? ==> flashcards == old(flashcards) && appState == old(appState)
      ensures error == old(error)
    {
      if Trim(text) == "" {
        outcome := Failure(ErrorObject(NoContentMessage));
      } else {
        var g := Generate(text, env.apiKey, env.service, env.uuid);
        outcome := AwaitGeneration(g);
      }
    }

    /** Shows the generating message, makes the call of `g`, and settles
        its result. */
    method AwaitGeneration(g: Generation) returns (outcome: Result<seq<Card>, Thrown>)
      modifies this
      ensures outcome == Settle(g).0
      ensures trace == old(trace) + Settle(g).1
      ensures outcome.Success? ==> flashcards == outcome.value && appState == Editing
      ensures outcome.Failure? ==> flashcards == old(flashcards) && appState == old(appState)
      ensures error == old(error)
    {
      SetLoadingMessageTo(GeneratingMessage);
      Record(CallsOf(g.request));
      ghost var steps := [SetLoadingMessage(GeneratingMessage)] + CallsOf(g.request);
      EventsAssoc(old(trace), [SetLoadingMessage(GeneratingMessage)], CallsOf(g.request));
      match g.result {
        case Failure(m) =>
          outcome := Failure(ErrorObject(m));
        case Success(cards) =>
          if |cards| == 0 {
            outcome := Failure(ErrorObject(NoCardsMessage));
          } else {
            SetFlashcardsTo(cards);
            SetAppStateTo(Editing);
            outcome := Success(cards);
            ghost var stored := [SetFlashcards(cards), SetAppState(Editing)];
            EventsAssoc(old(trace), steps, stored);
          }
      }
    }

    /** The whole `try` block: the outcome is the cards stored or the value
        thrown. */
    method TryGenerate(source: Source, env: Env) returns (outcome: Result<seq<Card>, Thrown>)
      requires WellTyped(source)
      modifies this
      ensures outcome == TryBlock(source, env).0
      ensures trace == old(trace) + TryBlock(source, env).1
      ensures outcome.Success? ==> flashcards == outcome.value && appState == Editing
      ensures outcome.Failure? ==> flashcards == old(flashcards) && appState == old(appState)
      ensures error == old(error)
    {
      var acquired := SwitchOnSource(source, env);
      match acquired {
        case Failure(t) =>
          outcome := Failure(t);
        case Success(text) =>
          outcome := GenerateCards(text, env);
          EventsAssoc(old(trace), AcquireText(source, env).1, GenerateFromText(text, env).1);
      }
    }

    /** `handleGenerate(source)` */
    method HandleGenerate(source: Source, env: Env)
      requires WellTyped(source)
      modifies this
      ensures var run := RunGenerate(source, env);
        && trace == old(trace) + run.events
        && appState == (if run.outcome.Success? then Editing else Input)
        && error == (if run.outcome.Success? then None else Some(ErrorMessage(run.outcome.error)))
        && flashcards == (if run.outcome.Success? then run.outcome.value else old(flashcards))
        && loadingMessage == ""
      ensures Idle()
    {
      SetErrorTo(None);
      SetAppStateTo(Loading);
      ghost var start := [SetError(None), SetAppState(Loading)];
      EventsAssoc(old(trace), [SetError(None)], [SetAppState(Loading)]);
      ghost var started := trace;
      assert started == old(trace) + start;

      ghost var body := TryBlock(source, env);
      var outcome := TryGenerate(source, env);

      // The catch block.
      ghost var caught := CatchBlock(outcome);
      if outcome.Failure? {
        SetErrorTo(Some(ErrorMessage(outcome.error)));
        SetAppStateTo(Input);
        EventsAssoc(started + body.1, [SetError(Some(ErrorMessage(outcome.error)))], [SetAppState(Input)]);
      }
      assert trace == started + body.1 + caught;
      // The finally block.
      SetLoadingMessageTo("");
      FiveAssoc(old(trace), start, body.1, caught, [SetLoadingMessage("")]);
    }

    /** `handleSaveCards(cards)` */
    method HandleSaveCards(cards: seq<Card>)
      modifies this
      ensures flashcards == cards && appState == Viewing
      ensures error == old(error) && loadingMessage == old(loadingMessage)
      ensures trace == old(trace) + [SetFlashcards(cards), SetAppState(Viewing)]
      ensures old(Idle()) ==> Idle()
    {
      SetFlashcardsTo(cards);
      SetAppStateTo(Viewing);
    }

    /** `handleStartOver()` */
    method HandleStartOver()
      modifies this
      ensures appState == Input && flashcards == [] && error == None
      ensures loadingMessage == old(loadingMessage)
      ensures trace == old(trace) + [SetAppState(Input), SetFlashcards([]), SetError(None)]
      ensures old(Idle()) ==> Idle()
    {
      SetAppStateTo(Input);
      SetFlashcardsTo([]);
      SetErrorTo(None);
    }
  }
}
