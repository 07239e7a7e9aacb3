/**
 * `GenerationService`: the client configuration it creates, the prompt it
 * sends, and `generateFlashcards` as a pipeline of `sendMessage`,
 * `parseAiResponse` and the insert of a generation row, shaping the result
 * returned to the caller.
 *
 * The database insert, the clock and `JSON.parse` are parameters.
 */
module Generation {
  import opened Wrappers
  import opened Json
  import opened JsString
  import opened OpenRouterConfig
  import opened OpenRouter
  import Retry
  import AiParser

  const GenerationSystemMessage: string :=
    "Jeste\U{015B} ekspertem w tworzeniu fiszek edukacyjnych. Twoim zadaniem jest wygenerowanie zestawu 3 fiszek na podstawie podanego tekstu. Ka\U{017C}da fiszka powinna zawiera\U{0107} pytanie (front) i odpowied\U{017A} (back). Fiszki powinny by\U{0107} zwi\U{0119}z\U{0142}e, konkretne i skupia\U{0107} si\U{0119} na najwa\U{017C}niejszych informacjach z tekstu."

  const GenerationModel: string := "deepseek/deepseek-v3-base:free"

  const PromptHead: string :=
    "Na podstawie poni\U{017C}szego tekstu wygeneruj 3 fiszki w formacie JSON. Ka\U{017C}da fiszka powinna mie\U{0107} pola \"front\" (pytanie) i \"back\" (odpowied\U{017A}). Odpowiedz tylko w formacie JSON, bez dodatkowego tekstu.\n\nTekst \U{017A}r\U{00F3}d\U{0142}owy:\n"

  const PromptTail: string :=
    "\n\nOczekiwany format:\n[\n  {\n    \"front\": \"pytanie 1\",\n    \"back\": \"odpowied\U{017A} 1\"\n  },\n  // itd...\n]"

  const SaveErrorPrefix: string := "B\U{0142}\U{0105}d podczas zapisywania generacji: "

  /** The configuration the service hands to the OpenRouter client. */
  function GenerationConfig(apiToken: Option<string>): ConfigPatch {
    ConfigPatch(apiToken, Some(GenerationSystemMessage), Some(GenerationModel),
      Some(ParamsPatch(Some(0.7), Some(1000.0), Some(0.0), Some(0.0))))
  }

  /**
   * `new GenerationService(supabase, apiToken)`: a client with the flashcard
   * system message and a 1000-token limit, or the constructor's error when
   * the token is missing or empty.
   */
  function NewGenerationService(apiToken: Option<string>): (r: Result<Service, string>)
    ensures r.Success? <==> apiToken.Some? && apiToken.value != ""
    ensures r.Failure? ==> r.error == MissingTokenMessage
    ensures r.Success? ==>
      r.value.configuration == Configuration(apiToken.value, GenerationSystemMessage, GenerationModel, ModelParams(0.7, 1000.0, 0.0, 0.0))
  {
    NewService(GenerationConfig(apiToken))
  }

  /** The prompt: fixed instructions around the user's text. */
  function BuildPrompt(text: string): (p: string)
    ensures |p| == |PromptHead| + |text| + |PromptTail|
    ensures p[..|PromptHead|] == PromptHead
    ensures p[|PromptHead|..|PromptHead| + |text|] == text
    ensures p[|PromptHead| + |text|..] == PromptTail
  {
    PromptHead + text + PromptTail
  }

  /** What the insert into `generations` returns. */
  datatype InsertOutcome = Inserted(id: int) | InsertFailed(message: string)

  /** The row inserted into `generations` (the hash and the timestamps are not modelled). */
  datatype GenerationRow = GenerationRow(model: string, sourceTextLength: nat, generatedCount: nat, generationDuration: real)

  /** `GenerationCreateResponseDto`. */
  datatype GenerationCreated = GenerationCreated(generationId: int, proposals: seq<Json>, generatedCount: nat)

  /** Why `generateFlashcards` rejects. */
  datatype GenerationError =
    | SendFailed(error: SendError)
    | ParseFailed(message: string)
    | SaveFailed(message: string)

  /** The client afterwards, the row handed to the insert (if reached), and the result. */
  datatype GenerationOutcome = GenerationOutcome(service: Service, row: Option<GenerationRow>, result: Result<GenerationCreated, GenerationError>)

  /** The clock readings of one call: start, receipt of the completion, end. */
  datatype Clock = Clock(start: real, received: real, end: real)

  /**
   * `generateFlashcards(text)`: send the prompt, parse the answer into
   * proposals, insert one generation row counting them, and return the new
   * generation's id with the proposals and their count.
   */
  function GenerateFlashcards(s: Service, text: string, outcomes: seq<Retry.Outcome>, clock: Clock,
                              parse: AiParser.JsonParser, insert: InsertOutcome): (r: GenerationOutcome)
    requires Retry.ServiceRetry.maxRetries < |outcomes|
    ensures r.service.configuration == s.configuration
    ensures r.result.Success? ==>
      && r.result.value.generatedCount == |r.result.value.proposals|
      && r.row.Some? && r.row.value.generatedCount == r.result.value.generatedCount
      && insert == Inserted(r.result.value.generationId)
    ensures r.row.Some? ==>
      && r.row.value.sourceTextLength == Utf16Length(text)
      && r.row.value.model == s.configuration.modelName
      && r.row.value.generationDuration == clock.end - clock.start
    ensures r.row.Some? <==> r.result.Success? || r.result.error.SaveFailed?
    ensures r.result.Failure? && r.result.error.SaveFailed? ==>
      insert.InsertFailed? && r.result.error.message == SaveErrorPrefix + insert.message
    ensures var sent := SendMessage(s, BuildPrompt(text), outcomes, clock.received);
      sent.result.Failure? ==> r.result == Failure(SendFailed(sent.result.error)) && r.row.None?
    ensures var sent := SendMessage(s, BuildPrompt(text), outcomes, clock.received);
      r.result.Success? <==>
        && sent.result.Success?
        && AiParser.ParseAiResponse(sent.result.value.text, parse).Success?
        && insert.Inserted?
    ensures var sent := SendMessage(s, BuildPrompt(text), outcomes, clock.received);
      sent.result.Success? && AiParser.ParseAiResponse(sent.result.value.text, parse).Success? && insert.Inserted? ==>
        var p := AiParser.ParseAiResponse(sent.result.value.text, parse).value;
        r.result == Success(GenerationCreated(insert.id, p, |p|))
  {
    var sent := SendMessage(s, BuildPrompt(text), outcomes, clock.received);
    match sent.result
    case Failure(e) => GenerationOutcome(sent.service, None, Failure(SendFailed(e)))
    case Success(response) =>
      match AiParser.ParseAiResponse(response.text, parse)
      case Failure(m) => GenerationOutcome(sent.service, None, Failure(ParseFailed(m)))
      case Success(proposals) =>
        var row := GenerationRow(sent.service.configuration.modelName, Utf16Length(text), |proposals|, clock.end - clock.start);
        match insert
        case InsertFailed(m) => GenerationOutcome(sent.service, Some(row), Failure(SaveFailed(SaveErrorPrefix + m)))
        case Inserted(id) => GenerationOutcome(sent.service, Some(row), Success(GenerationCreated(id, proposals, |proposals|)))
  }

  /**
   * On success the caller receives exactly the parsed proposals of the
   * completion's text, and their number is what the row records.
   */
  lemma GeneratedCountIsProposalCount(s: Service, text: string, outcomes: seq<Retry.Outcome>, clock: Clock,
                                      parse: AiParser.JsonParser, insert: InsertOutcome)
    requires Retry.ServiceRetry.maxRetries < |outcomes|
    ensures var sent := SendMessage(s, BuildPrompt(text), outcomes, clock.received);
      var r := GenerateFlashcards(s, text, outcomes, clock, parse, insert);
      r.result.Success? ==>
      && sent.result.Success?
      && AiParser.ParseAiResponse(sent.result.value.text, parse) == Success(r.result.value.proposals)
      && r.row.value.generatedCount == |r.result.value.proposals|
  {
  }

  /** An answer the parser refuses stops the pipeline before the insert, rethrowing the parser's error unchanged. */
  lemma ParseFailureSkipsInsert(s: Service, text: string, outcomes: seq<Retry.Outcome>, clock: Clock,
                                parse: AiParser.JsonParser, insert: InsertOutcome)
    requires Retry.ServiceRetry.maxRetries < |outcomes|
    ensures var sent := SendMessage(s, BuildPrompt(text), outcomes, clock.received);
      var r := GenerateFlashcards(s, text, outcomes, clock, parse, insert);
      sent.result.Success? && AiParser.ParseAiResponse(sent.result.value.text, parse).Failure? ==>
      && r.row.None?
      && r.result == Failure(ParseFailed(AiParser.ParseAiResponse(sent.result.value.text, parse).error))
      && r.result.error.message[..|AiParser.ErrorPrefix|] == AiParser.ErrorPrefix
  {
  }

  /**
   * End to end: when the first `k` attempts fail, the next one delivers a
   * completion whose text the parser turns into `p`, and the insert returns
   * `id`, the caller receives `id`, `p` and its length, and the row counts `p`.
   */
  lemma CompletionBecomesGeneration(s: Service, text: string, outcomes: seq<Retry.Outcome>, clock: Clock,
                                    parse: AiParser.JsonParser, k: nat, answer: string, p: seq<Json>, id: int)
    requires Retry.ServiceRetry.maxRetries < |outcomes|
    requires k <= Retry.ServiceRetry.maxRetries
    requires forall i :: 0 <= i < k ==> Retry.Failed(outcomes[i]).Some?
    requires outcomes[k].Responded? && Retry.IsOk(outcomes[k].status) && outcomes[k].body == Envelope(JString(answer))
    requires answer != ""
    requires AiParser.ParseAiResponse(answer, parse) == Success(p)
    ensures var r := GenerateFlashcards(s, text, outcomes, clock, parse, Inserted(id));
      && r.result == Success(GenerationCreated(id, p, |p|))
      && r.row.Some? && r.row.value.generatedCount == |p|
  {
    SendMessageDeliversFirstSuccess(s, BuildPrompt(text), outcomes, clock.received, k, answer);
  }
}
