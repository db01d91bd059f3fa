# LearnCard flashcard app — a verified model of its core logic

LearnCard turns a PDF, pasted text, a web page or (eventually) a YouTube
link into study flashcards: it extracts the text, asks an AI service for
question/answer pairs, lets the user edit the list, and then shows the cards
one at a time with export to PDF and DOCX. This project models the logic
behind that UI in Dafny and proves what it promises:

- `Session` (App.tsx): the four screen modes `INPUT`, `LOADING`, `EDITING`,
  `VIEWING`, the error banner, the loading message and the card list, driven
  by `handleGenerate`, `handleSaveCards` and `handleStartOver`. `App` is a
  class whose fields are the component's state. Its ghost `trace` records
  every state-setter call and every call out of the app, in order.
  `RunGenerate` defines what one `handleGenerate` call does: its
  outcome and its event list. `App.HandleGenerate` is proved to produce
  exactly that.
- `Editor` (components/FlashcardEditor.tsx): the list transforms behind
  change, delete and add, and the editor class holding `cards`.
- `Viewer` (components/FlashcardViewer.tsx): cyclic next/prev, the flip flag
  and its reset when the card changes, the export guards, the DOCX paragraph
  list, and the empty-list screen.
- `Selector` (components/InputSourceSelector.tsx): the generate button's
  disabled state and what a click hands to `onGenerate`.
- `PdfText` (services/pdfProcessor.ts): the page loop that builds the
  extracted text, and the three rejection paths.
- `Generator` (services/geminiService.ts): the API-key check, the prompt,
  validation of the parsed reply, id assignment, and error collapsing.
- Support modules: `Results` (Option/Result), `Strings` (JavaScript `trim`,
  `join` and decimal rendering), and `Flashcards` (the card record and
  distinct ids).

The outside world is a set of parameters. `Env` holds them:
- `readPdf`: the file reader and PDF parser, as a `PdfRead` value.
- `fetchUrl`: the URL fetcher, returning a text or a thrown value.
- `apiKey`: the configured API key.
- `service`: the AI call plus `JSON.parse`, mapping the prompt to a parsed
  reply or a throw.
- `uuid`: `crypto.randomUUID`, as the i-th id drawn.

Each handler runs as one atomic step.

The editor's save button is disabled while the list is empty
(components/FlashcardEditor.tsx:96), so `onSave` never receives an empty
list.

Functions that only compute (`RunGenerate`, `AcquireText`, `AssembleText`,
`BuildPrompt` and the like) carry no contract of their own. Their rows below
name the lemmas and methods that state what they guarantee.

## Model

| member | source | states |
|---|---|---|
| Session.App.HandleGenerate | App.tsx:21-70 | the trace grows by exactly `RunGenerate`'s events. On success the state is EDITING and `flashcards` holds the generated cards, with no error. On any failure the state is INPUT, the banner shows the caught message and `flashcards` is unchanged. `loadingMessage` ends empty either way, and the app ends idle |
| Session.App.TryGenerate | App.tsx:25-61 | the `try` block yields `TryBlock`'s outcome and events. It stores cards and enters EDITING only on success, and never touches the error |
| Session.App.SwitchOnSource | App.tsx:26-47 | the switch on the source type yields `AcquireText`'s text or thrown value and appends its events (loading message, read or fetch call). It leaves mode, error and cards alone |
| Session.App.GenerateCards | App.tsx:49-61 | the empty-text guard and generation yield `GenerateFromText`'s outcome and events |
| Session.App.AwaitGeneration | App.tsx:53-61 | shows the generating message and records the service call. A failure or an empty list yields the thrown message. Otherwise it stores the list and enters EDITING |
| Session.App.HandleSaveCards | App.tsx:72-75 | `flashcards` becomes the given list and the state VIEWING. Error and loading message are unchanged, and an idle app stays idle |
| Session.App.HandleStartOver | App.tsx:77-81 | state INPUT, empty list, null error, with the three setter calls in source order |
| Session.App.constructor | App.tsx:14-17 | initial state: INPUT, no cards, no error, empty loading message |
| Session.GenerateBeginsAndEnds | App.tsx:22-23 | every generation first clears the error and enters LOADING, before any read, fetch or service call, and its last step clears the loading message |
| Session.OversizedPdfRefused | App.tsx:28-33 | a PDF over 10·1024·1024 bytes fails with the size message, which names the 10 MB limit. The file is never read and nothing is called |
| Session.UnsupportedSourcesRefused | App.tsx:43-46 | a `youtube` source fails with the not-supported message whatever its data. Any other unknown type fails with the unknown-source message. Neither calls out |
| Session.BlankTextNeverGenerates | App.tsx:35-51 | pasted text that is all whitespace fails with the no-content message, and the AI service is never called |
| Session.ServiceSeesOnlyNonBlankText | App.tsx:49-53 | text that is all whitespace fails with the no-content message and takes no step. Other text starts with the generating message |
| Session.AcquireMakesNoServiceCall | App.tsx:26-47 | the switch on the source type never calls the AI service |
| Session.BlankTextRefused | App.tsx:25-51 | for any source, an acquired text that is all whitespace makes the run fail with the no-content message, and the AI service is never called |
| Session.TextlessPdfRefused | App.tsx:28-51 | a PDF within the size limit whose pages have no text items is read, then refused with the no-content message. Its text is only blank lines. The AI service is never called |
| Session.BlankPageRefused | App.tsx:39-51 | a fetched page that is all whitespace is refused with the no-content message, and the AI service is never called |
| Session.SuccessEntersEditing | App.tsx:56-69 | a successful run stores a non-empty card list, then enters EDITING, then clears the loading message |
| Session.TrySuccessEnds | App.tsx:56-61 | a try block that completes ends with storing its non-empty cards, then entering EDITING |
| Session.GenerateSuccessEnds | App.tsx:49-61 | a generation from text that succeeds ends with storing its non-empty cards, then entering EDITING |
| Session.SettleSuccessEnds | App.tsx:53-61 | the steps after the service call end with storing the non-empty cards, then entering EDITING, whenever they succeed |
| Session.FailureReturnsToInput | App.tsx:63-69 | every failing run ends with the banner showing the thrown message (or the fallback for a non-Error value), then INPUT, then an empty loading message. It never stores cards |
| Session.TryFailureStoresNoCards | App.tsx:25-61 | a try block that throws has stored no cards |
| Session.GenerateFailureStoresNoCards | App.tsx:49-61 | a generation from text that throws has stored no cards |
| Session.SettleFailureStoresNoCards | App.tsx:53-61 | the steps after the service call store no cards when they throw |
| Session.MissingKeyNeverCallsService | App.tsx:35-54 | pasted text with no API key fails with the configuration message, and no service call is made |
| Session.MissingKeyStopsAtService | App.tsx:49-54 | with no API key, generation fails with the configuration message after only the generating message |
| Session.TextTryBlock | App.tsx:35-38 | pasted text goes to the generation steps unchanged, after the text loading message |
| Session.ClickedSourcesWellTyped | components/InputSourceSelector.tsx:28-45 | every source a click produces satisfies the casts in `handleGenerate`, and its type is one of `pdf`, `text`, `url` and `youtube`, so the unknown-source branch (App.tsx:45-46) is never reached from the UI |
| Session.OneCardScenario | App.tsx:35-61 | a reply with one entry gives one card: that question and answer, with the first id drawn |
| Session.OneCardGenerated | App.tsx:49-61 | the generation step of the same scenario yields that single card |
| Session.FrameMakesNoCalls | App.tsx:21-70 | the steps around the try block make no external call |
| Session.RunGenerate | App.tsx:21-70 | the outcome and ordered events of one `handleGenerate` call. `App.HandleGenerate` is proved to follow it, and `GenerateBeginsAndEnds`, `SuccessEntersEditing`, `FailureReturnsToInput`, `FrameMakesNoCalls` and the refusal lemmas state what it guarantees |
| Session.AcquireText | App.tsx:26-47 | the switch on the source type: the text or thrown value and the steps taken. `App.SwitchOnSource` follows it, and `AcquireMakesNoServiceCall`, `OversizedPdfRefused`, `UnsupportedSourcesRefused` and `TextTryBlock` characterise it |
| Session.TryBlock | App.tsx:25-61 | the switch followed, when it yields text, by the generation steps. `App.TryGenerate` follows it, and `TrySuccessEnds` and `TryFailureStoresNoCards` characterise it |
| Session.GenerateFromText | App.tsx:49-61 | the empty-text guard, then the generation. `App.GenerateCards` follows it, and `ServiceSeesOnlyNonBlankText`, `GenerateSuccessEnds`, `GenerateFailureStoresNoCards` and `MissingKeyStopsAtService` characterise it |
| Session.Settle | App.tsx:53-61 | the generating message, the service call, the empty-result guard, then storing the cards and entering EDITING. `App.AwaitGeneration` follows it, and `SettleSuccessEnds` and `SettleFailureStoresNoCards` characterise it |
| Session.CatchBlock | App.tsx:63-66 | a failure shows the caught message and returns to INPUT, and a success takes no step. `FailureReturnsToInput` and `SuccessEntersEditing` state this at the level of a whole run |
| Session.ErrorMessage | App.tsx:64 | an `Error`'s own message, or the fixed fallback for any other thrown value. `FailureReturnsToInput` shows it is what the banner displays |
| Session.FileTooLargeMessage | App.tsx:31 | the size message built from the 10 MB constant. `OversizedPdfRefused` shows it is the outcome for an oversized PDF |
| Session.WellTyped | App.tsx:30-41 | the casts `source.data as File` and `as string` hold. `ClickedSourcesWellTyped` shows the selector only emits such sources |
| Session.App.SetErrorTo | App.tsx:16 | `setError`: the banner changes and one event is recorded. Every other field is kept |
| Session.App.SetAppStateTo | App.tsx:14 | `setAppState`: the mode changes and one event is recorded. Every other field is kept |
| Session.App.SetLoadingMessageTo | App.tsx:17 | `setLoadingMessage`: the message changes and one event is recorded. Every other field is kept |
| Session.App.SetFlashcardsTo | App.tsx:15 | `setFlashcards`: the list changes and one event is recorded. Every other field is kept |
| Session.App.Record | App.tsx:29-54 | records the external calls (read, fetch, service call) in the trace and changes no state field |
| Editor.ChangeField | components/FlashcardEditor.tsx:14-20 | keeps length, order and every id. Cards with another id are unchanged. A card with the id gets exactly that field set, and its other field is kept |
| Editor.WithField | components/FlashcardEditor.tsx:17 | sets the chosen field, keeps the id and the other field |
| Editor.ChangeAbsentIsIdentity | components/FlashcardEditor.tsx:16-18 | changing a field for an id not in the list leaves the list unchanged |
| Editor.ChangeLastWins | components/FlashcardEditor.tsx:14-20 | two edits of the same field of the same id equal the second edit alone |
| Editor.ChangeKeepsDistinct | components/FlashcardEditor.tsx:14-20 | distinct ids stay distinct after a change |
| Editor.DeleteCard | components/FlashcardEditor.tsx:22-24 | a card survives exactly when it was in the list with another id, and the length never grows |
| Editor.DeleteAppend | components/FlashcardEditor.tsx:23 | delete distributes over concatenation, so the survivors keep their relative order |
| Editor.DeleteAbsentIsIdentity | components/FlashcardEditor.tsx:23 | deleting an id not in the list changes nothing |
| Editor.DeleteIdempotent | components/FlashcardEditor.tsx:23 | deleting the same id twice equals deleting it once |
| Editor.DeleteKeepsDistinct | components/FlashcardEditor.tsx:22-24 | distinct ids stay distinct after a delete |
| Editor.DeleteEveryIdEmpties | components/FlashcardEditor.tsx:22-24 | deleting, in turn, every id present empties the list |
| Editor.AddCard | components/FlashcardEditor.tsx:26-33 | appends exactly one card with empty question and answer and the new id. The earlier cards are kept as they were, and the length grows by one |
| Editor.AddKeepsDistinct | components/FlashcardEditor.tsx:26-33 | with a fresh id, distinct ids stay distinct after add |
| Editor.AddThenDeleteRestores | components/FlashcardEditor.tsx:22-33 | deleting the card just added with a fresh id restores the list |
| Editor.CardEditor.constructor | components/FlashcardEditor.tsx:12 | the list starts equal to `initialCards` |
| Editor.CardEditor.HandleCardChange | components/FlashcardEditor.tsx:14-20 | the new list is `ChangeField` of the old one |
| Editor.CardEditor.HandleDeleteCard | components/FlashcardEditor.tsx:22-24 | the new list is `DeleteCard` of the old one |
| Editor.CardEditor.HandleAddCard | components/FlashcardEditor.tsx:26-33 | the new list is `AddCard` of the old one, and distinct ids stay distinct when the new id is fresh |
| Editor.CardEditor.HandleSaveClick | components/FlashcardEditor.tsx:94-97 | `onSave` receives the list exactly when it is non-empty |
| Viewer.Next | components/FlashcardViewer.tsx:65-67 | the result is a valid index |
| Viewer.Prev | components/FlashcardViewer.tsx:69-71 | the result is a valid index |
| Viewer.NextStep | components/FlashcardViewer.tsx:66 | next moves one card forward and wraps from the last card to 0 |
| Viewer.PrevStep | components/FlashcardViewer.tsx:70 | prev moves one card back and wraps from 0 to the last card |
| Viewer.PrevAfterNext | components/FlashcardViewer.tsx:65-71 | `prev(next(i)) == i` for every valid index |
| Viewer.NextAfterPrev | components/FlashcardViewer.tsx:65-71 | `next(prev(i)) == i` for every valid index |
| Viewer.DocChildren | components/FlashcardViewer.tsx:147-162 | exactly `2n` paragraphs. Paragraph `2k` is the bold label "Câu hỏi {k+1}: " plus card k's question, with spacing 100. Paragraph `2k+1` is the bold "Trả lời: " plus its answer, with spacing 300 |
| Viewer.QuestionLabel | components/FlashcardViewer.tsx:150 | "Câu hỏi {n}: ". `QuestionLabelsDistinct` shows different numbers give different labels |
| Viewer.CardParagraphs | components/FlashcardViewer.tsx:148-161 | the question and answer paragraphs of one card. `DocChildren` states their exact runs and spacing for every card |
| Viewer.QuestionLabelsDistinct | components/FlashcardViewer.tsx:150 | different card numbers give different question labels |
| Viewer.CardViewer.constructor | components/FlashcardViewer.tsx:20-23 | starts at card 0, face down, with both export libraries not yet loaded |
| Viewer.CardViewer.SetCurrentIndex | components/FlashcardViewer.tsx:25-28 | sets the index. The flip flag is cleared exactly when the index changed, because the reset effect is keyed on `currentIndex` |
| Viewer.CardViewer.HandleNext | components/FlashcardViewer.tsx:65-67 | index becomes `Next` of the old one and stays valid. The flip resets when the card changes, and the library flags are kept |
| Viewer.CardViewer.HandlePrev | components/FlashcardViewer.tsx:69-71 | index becomes `Prev` of the old one and stays valid. The flip resets when the card changes, and the library flags are kept |
| Viewer.CardViewer.HandleFlip | components/FlashcardViewer.tsx:73-75 | toggles the flip flag, and nothing else changes |
| Viewer.CardViewer.LibrariesPolled | components/FlashcardViewer.tsx:30-63 | a library flag is set once its library is present and is never cleared |
| Viewer.CardViewer.HandleExportPdf | components/FlashcardViewer.tsx:77-82 | library not loaded: the "not ready" alert and no file. Empty list: nothing. Otherwise: the report of the cards |
| Viewer.CardViewer.HandleExportDocx | components/FlashcardViewer.tsx:137-168 | library not loaded: the "not ready" alert and no file. Empty list: nothing. Otherwise a document whose body is `DocChildren(cards)`, with `2n` paragraphs |
| Viewer.CardViewer.Render | components/FlashcardViewer.tsx:181-195 | the empty list shows the no-cards notice and never indexes into the cards. Otherwise the screen shows the current card, the flip state and "k / n" |
| Viewer.FlipTwice | components/FlashcardViewer.tsx:73-75 | flipping twice restores the flip flag and the index |
| Viewer.NextThenPrev | components/FlashcardViewer.tsx:25-71 | next then prev returns to the same card, face down when there is more than one card |
| Selector.IsGenerateButtonDisabled | components/InputSourceSelector.tsx:47-61 | the button is disabled exactly when the whole selector is, or the active tab has no chosen file or only whitespace |
| Selector.HandleGenerateClick | components/InputSourceSelector.tsx:28-45 | `onGenerate` is called exactly when the selector is enabled and the active tab has a file or a text that is not all whitespace. The call carries the active tab's type and its untrimmed payload |
| Selector.HasContentByTab | components/InputSourceSelector.tsx:47-57 | on each tab, having content is exactly the component's own test: a chosen file, or a payload whose `trim()` is not empty |
| Selector.InitialSelector | components/InputSourceSelector.tsx:21-26 | the initial tab is `pdf`, with no file and empty text, url and youtube fields |
| Selector.ClickFiresIffEnabled | components/InputSourceSelector.tsx:28-61 | a click fires exactly when the button is enabled |
| Selector.DisabledNeverFires | components/InputSourceSelector.tsx:28-48 | with `disabled` set, a click never fires and the button is disabled |
| Selector.ClickByTab | components/InputSourceSelector.tsx:31-43 | pdf tab: fires iff a file is chosen. Other tabs: fires iff the payload is not all whitespace. The emitted type is the active tab and the emitted data is the untrimmed payload |
| Selector.InitialCannotGenerate | components/InputSourceSelector.tsx:21-51 | a freshly mounted selector cannot generate |
| Strings.Trim | components/InputSourceSelector.tsx:36 | JavaScript's `trim`: `TrimStart` then `TrimEnd`. `TrimEmptyIffBlank` states when the result is empty |
| Strings.TrimEmptyIffBlank | components/InputSourceSelector.tsx:36 | `s.trim()` is empty exactly when every character of `s` is whitespace |
| Strings.TrimStart | components/InputSourceSelector.tsx:36 | removes only whitespace, and only from the front; what is left is empty or starts with a non-whitespace character |
| Strings.TrimEnd | components/InputSourceSelector.tsx:36 | removes only whitespace, and only from the back; what is left is empty or ends with a non-whitespace character |
| Strings.Join | services/pdfProcessor.ts:23 | joining n > 0 items has the summed item lengths plus n−1 separators; no items give "" |
| Strings.NatToDecimal | components/FlashcardViewer.tsx:150 | a non-empty string of decimal digits with no leading zero |
| Strings.DecimalRoundTrip | components/FlashcardViewer.tsx:150 | reading the rendered digits back gives the number |
| Strings.DecimalInjective | components/FlashcardViewer.tsx:150 | different numbers render differently |
| PdfText.PageText | services/pdfProcessor.ts:23 | the page's text items joined with single spaces. `Strings.Join` and `AssembleLength` give its length |
| PdfText.AssembleText | services/pdfProcessor.ts:18-25 | each page's text followed by "\n\n", in page order. `AssemblePages` computes it, and `AssembleAppend`, `PageOrder`, `AssembleLength`, `TextlessPagesBlank` and `NoPagesNoText` characterise it |
| PdfText.ExtractionOutcome | services/pdfProcessor.ts:9-36 | the assembled text, or the rejection message of the step that failed. `ExtractTextFromPdf` computes it, and `RejectionsDistinct` characterises it |
| PdfText.TextlessPagesBlank | services/pdfProcessor.ts:20-24 | pages without text items give a text of blank lines only, which `trim` empties |
| PdfText.AssemblePages | services/pdfProcessor.ts:18-27 | the loop over pages 1..numPages computes `AssembleText(pages)` |
| PdfText.ExtractTextFromPdf | services/pdfProcessor.ts:5-40 | resolves or rejects as `ExtractionOutcome` says for the read result |
| PdfText.RejectionsDistinct | services/pdfProcessor.ts:10-36 | extraction fails exactly when the file was not read or not parsed. Each failure carries one of three messages, and the three differ |
| PdfText.AssembleAppend | services/pdfProcessor.ts:20-24 | the text of consecutive runs of pages is the concatenation of their texts |
| PdfText.AssembleSplit | services/pdfProcessor.ts:20-24 | splitting the pages at k splits the text there |
| PdfText.AssemblePrefixStep | services/pdfProcessor.ts:24 | each page adds its text followed by "\n\n" |
| PdfText.PageOrder | services/pdfProcessor.ts:20-24 | the whole text is the pages before k, then page k's text and "\n\n", then the pages after k, so page k comes before page k+1 |
| PdfText.AssembleLength | services/pdfProcessor.ts:23-24 | length = sum of the page-text lengths + 2·numPages. A page of n items contributes its item lengths plus n−1 spaces, or nothing when empty |
| PdfText.NoPagesNoText | services/pdfProcessor.ts:18-27 | a document without pages resolves to "" |
| Generator.Generate | services/geminiService.ts:7-65 | a missing or empty API key fails with the configuration message and sends no prompt. Otherwise exactly the built prompt is sent, and every failure is the one generic message. Success happens iff the reply parses to a non-empty array. The cards then carry exactly the parsed entries, in order, and are non-empty |
| Generator.ApiKeyMissing | services/geminiService.ts:8 | `!process.env.API_KEY`: unset or empty. `Generate` shows this blocks every request |
| Generator.BuildPrompt | services/geminiService.ts:13-19 | the prompt template with the text substituted. `PromptRoundTrip` shows the text can be read back verbatim, and `Generate` shows it is exactly what is sent |
| Generator.ValidateReply | services/geminiService.ts:47-58 | validation succeeds exactly for a parsed non-empty array. Its cards then carry exactly the parsed entries, in order. Any parsed value it rejects gives the empty-result message |
| Generator.PromptRoundTrip | services/geminiService.ts:13-19 | the text sits verbatim between the "---\n" and "\n---\n" delimiter lines and can be read back from there |
| Generator.AssignIds | services/geminiService.ts:55-58 | one card per parsed entry |
| Generator.AssignIdsKeepsEntries | services/geminiService.ts:55-58 | adding ids keeps every entry's question and answer, and their order |
| Generator.AssignIdsUsesSupply | services/geminiService.ts:57 | entry i gets the i-th id drawn |
| Generator.AssignIdsDistinct | services/geminiService.ts:55-58 | with a supply of fresh ids, the cards' ids are distinct |
| Generator.EmptyResultMessageNeverEscapes | services/geminiService.ts:50-65 | the empty-result error thrown inside the call block never reaches the caller; the generic message replaces it |
| Generator.GeneratedIdsDistinct | services/geminiService.ts:55-60 | a successful generation with fresh ids has distinct ids |

## Left out

- The AI SDK call and `JSON.parse` (services/geminiService.ts:22-48) are the `service` oracle. Its request options (model name, response schema) are not modelled. Parsed entries are question/answer pairs. Extra fields that the spread would copy are not represented.
- `crypto.randomUUID` is the `uuid` parameter. Uniqueness is the stated assumption `FreshSupply`, not a proved fact.
- `FileReader` and pdf.js (services/pdfProcessor.ts:6-38) are the `PdfRead` value. It says whether the read failed, returned nothing, failed to parse, or gave the text items of each page.
- services/contentFetcher.ts is not part of this model: `fetchUrl` stands for `fetchContentFromUrl`, returning its text or the value it throws.
- The PDF report rendering (components/FlashcardViewer.tsx:84-134) is DOM, `html2canvas`, `jsPDF` and floating-point page slicing. The model stops at the guard and the list to render.
- The DOCX packing and download (components/FlashcardViewer.tsx:164-178): the model stops at the paragraph list.
- The library polling timers (components/FlashcardViewer.tsx:30-63): only one poll's effect on the two flags is modelled, not the timers or their cleanup.
- JSX, CSS and the rendering components (Flashcard, Loader, FileUpload, Icons), plus `renderContent` in App.tsx:83-96. The viewer's `Render` models only which screen is shown.
- Async interleaving and React re-render timing: each handler is one atomic step, and setter calls take effect at once.
- Strings are sequences of Unicode code points, while JavaScript counts UTF-16 code units. This affects only the lengths in `Strings.Join` and `PdfText.AssembleLength`.
- Session.App.HandleGenerate: requires that a `pdf` source carries a file and that `text` and `url` sources carry a string. These are the unchecked casts at App.tsx:30-41, and the selector is the only caller (`Session.ClickedSourcesWellTyped`).
- Session.App.HandleGenerate: the `generatedCards.length === 0` guard (App.tsx:56-58) is modelled, but it cannot fire. `Generator.Generate` never succeeds with an empty list.
- `console.error` logging (services/pdfProcessor.ts:29, services/geminiService.ts:63, components/FlashcardViewer.tsx:139) has no observable effect in the model.
