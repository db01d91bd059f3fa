/** Card generation (services/geminiService.ts). The AI service call and
    `JSON.parse` are external: `service` maps the prompt it is sent to the
    parsed reply, and `uuid(i)` is the value `crypto.randomUUID()` returns
    for the i-th parsed entry. */
module Generator {
  import opened Results
  import opened Flashcards

  /** A parsed entry before it gets its id. */
  datatype RawCard = RawCard(question: string, answer: string)

  /** What `JSON.parse(response.text)` yields. */
  datatype Json = JsonArray(items: seq<RawCard>) | JsonNotArray

  /** The service call and the parse: a parsed value, or a throw anywhere in
      between (transport error, missing text, malformed JSON). */
  datatype Reply = Parsed(json: Json) | CallThrew

  /** The outcome of one `generateFlashcardsFromText` call, with the prompt
      sent to the service during it, if one was sent. */
  datatype Generation = Generation(result: Result<seq<Card>, string>, request: Option<string>)

  const ApiKeyMissingMessage: string := "API key is missing. Please set the API_KEY environment variable."
  const EmptyResultMessage: string := " không thể tạo flashcards từ văn bản được cung cấp."
  const CommunicationMessage: string := "Đã xảy ra lỗi khi giao tiếp. Vui lòng thử lại sau."

  const PromptIntro: string :=
    "Tạo một bộ flashcards học tập chất lượng "
    + "cao từ tài liệu được cung cấp, trong đó "
    + "mỗi flashcard bao gồm một câu hỏi sâu "
    + "sắc (Mặt 1) và một câu trả lời ngắn gọn, "
    + "chính xác (Mặt 2), tập trung vào các "
    + "khái niệm, định nghĩa và thông tin quan "
    + "trọng nhất.."

  /** Everything of the prompt before the text: the instruction, a line of
      four spaces, the heading and the opening delimiter line. */
  const PromptHead: string := PromptIntro + "\n    \nVĂN BẢN:\n---\n"

  /** The closing delimiter line. */
  const PromptTail: string := "\n---\n"

  /** `!process.env.API_KEY`: unset or empty. */
  predicate ApiKeyMissing(apiKey: Option<string>) {
    apiKey == None || apiKey == Some("")
  }

  /** The prompt template with `text` substituted. */
  function BuildPrompt(text: string): string {
    PromptHead + text + PromptTail
  }

  /** The text a prompt built by BuildPrompt carries between its delimiters. */
  function EmbeddedText(prompt: string): Option<string> {
    if |prompt| >= |PromptHead| + |PromptTail|
       && prompt[..|PromptHead|] == PromptHead
       && prompt[|prompt| - |PromptTail|..] == PromptTail
    then Some(prompt[|PromptHead|..|prompt| - |PromptTail|])
    else None
  }

  /** The text goes into the prompt verbatim: it can be read back from
      between the "---" lines. */
  lemma PromptRoundTrip(text: string)
    ensures EmbeddedText(BuildPrompt(text)) == Some(text)
    ensures BuildPrompt(text)[|PromptHead| - 4..|PromptHead|] == "---\n"
  {
    var p := BuildPrompt(text);
    assert p[..|PromptHead|] == PromptHead;
    assert p[|p| - |PromptTail|..] == PromptTail;
    assert p[|PromptHead|..|p| - |PromptTail|] == text;
  }

  /** `parsedFlashcards.map(card => ({ ...card, id: crypto.randomUUID() }))` */
  function AssignIds(raw: seq<RawCard>, uuid: nat -> string): (r: seq<Card>)
    ensures |r| == |raw|
  {
    seq(|raw|, i requires 0 <= i < |raw| => Card(uuid(i), raw[i].question, raw[i].answer))
  }

  /** The entry a card came from. */
  function StripId(card: Card): RawCard {
    RawCard(card.question, card.answer)
  }

  function StripIds(cards: seq<Card>): (r: seq<RawCard>)
    ensures |r| == |cards|
  {
    seq(|cards|, i requires 0 <= i < |cards| => StripId(cards[i]))
  }

  /** Adding ids keeps the entries, their order and their text. */
  lemma AssignIdsKeepsEntries(raw: seq<RawCard>, uuid: nat -> string)
    ensures StripIds(AssignIds(raw, uuid)) == raw
  {
    var r := StripIds(AssignIds(raw, uuid));
    forall i | 0 <= i < |raw| ensures r[i] == raw[i] {
      assert AssignIds(raw, uuid)[i] == Card(uuid(i), raw[i].question, raw[i].answer);
    }
  }

  /** The i-th card gets the i-th draw of the id supply. */
  lemma AssignIdsUsesSupply(raw: seq<RawCard>, uuid: nat -> string, i: nat)
    requires i < |raw|
    ensures AssignIds(raw, uuid)[i].id == uuid(i)
  {
  }

  /** The id supply yields distinct values on its first n draws (the model's
      stand-in for `randomUUID` never repeating). */
  ghost predicate FreshSupply(uuid: nat -> string, n: nat) {
    forall i, j :: 0 <= i < j < n ==> uuid(i) != uuid(j)
  }

  lemma AssignIdsDistinct(raw: seq<RawCard>, uuid: nat -> string)
    requires FreshSupply(uuid, |raw|)
    ensures DistinctIds(AssignIds(raw, uuid))
  {
    var r := AssignIds(raw, uuid);
    forall i, j | 0 <= i < j < |r| ensures r[i].id != r[j].id {
      assert r[i].id == uuid(i) && r[j].id == uuid(j);
    }
  }

  /** The body of the `try` block: validate the parsed value and add ids.
      A failure here is the message of the error it throws. */
  function ValidateReply(reply: Reply, uuid: nat -> string): (r: Result<seq<Card>, string>)
    ensures r.Success? <==> reply.Parsed? && reply.json.JsonArray? && |reply.json.items| > 0
    ensures r.Success? ==> StripIds(r.value) == reply.json.items && |r.value| > 0
    ensures reply.Parsed? && r.Failure? ==> r.error == EmptyResultMessage
  {
    match reply
    case CallThrew => Failure(CommunicationMessage)
    case Parsed(JsonNotArray) => Failure(EmptyResultMessage)
    case Parsed(JsonArray(items)) =>
      if |items| == 0 then Failure(EmptyResultMessage)
      else
        AssignIdsKeepsEntries(items, uuid);
        Success(AssignIds(items, uuid))
  }

  /** `generateFlashcardsFromText(text)`: the key check, one service call
      with the prompt, and every failure inside the call block rethrown as
      one generic message. */
  function Generate(text: string, apiKey: Option<string>, service: string -> Reply,
                    uuid: nat -> string): (g: Generation)
    ensures ApiKeyMissing(apiKey) ==> g == Generation(Failure(ApiKeyMissingMessage), None)
    ensures !ApiKeyMissing(apiKey) ==> g.request == Some(BuildPrompt(text))
    ensures !ApiKeyMissing(apiKey) && g.result.Failure? ==> g.result.error == CommunicationMessage
    ensures g.result.Success? <==>
      !ApiKeyMissing(apiKey) && service(BuildPrompt(text)).Parsed?
      && service(BuildPrompt(text)).json.JsonArray? && |service(BuildPrompt(text)).json.items| > 0
    ensures g.result.Success? ==>
      StripIds(g.result.value) == service(BuildPrompt(text)).json.items && |g.result.value| > 0
  {
    if ApiKeyMissing(apiKey) then Generation(Failure(ApiKeyMissingMessage), None)
    else
      var prompt := BuildPrompt(text);
      var inner := ValidateReply(service(prompt), uuid);
      var result := match inner
        case Success(cards) => Success(cards)
        case Failure(_) => Failure(CommunicationMessage);
      Generation(result, Some(prompt))
  }

  /** The error thrown for an empty or non-array reply never reaches the
      caller: it is replaced by the generic message. */
  lemma EmptyResultMessageNeverEscapes(text: string, apiKey: Option<string>,
                                       service: string -> Reply, uuid: nat -> string)
    ensures Generate(text, apiKey, service, uuid).result != Failure(EmptyResultMessage)
  {
    assert |EmptyResultMessage| != |CommunicationMessage|;
    assert |EmptyResultMessage| != |ApiKeyMissingMessage|;
  }

  /** With a supply of fresh ids, a successful generation has distinct ids. */
  lemma GeneratedIdsDistinct(text: string, apiKey: Option<string>,
                             service: string -> Reply, uuid: nat -> string)
    requires Generate(text, apiKey, service, uuid).result.Success?
    requires FreshSupply(uuid, |Generate(text, apiKey, service, uuid).result.value|)
    ensures DistinctIds(Generate(text, apiKey, service, uuid).result.value)
  {
    AssignIdsDistinct(service(BuildPrompt(text)).json.items, uuid);
  }
}
