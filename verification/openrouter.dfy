/**
 * The OpenRouter client: construction, configuration update, the request it
 * builds, the extraction of `choices[0].message.content` from the response
 * envelope, and `sendMessage` as a whole, including the result cache.
 */
module OpenRouter {
  import opened Wrappers
  import opened Json
  import opened Schemas
  import opened OpenRouterConfig
  import opened Retry

  /** The state of a client: its configuration and the last validated result. */
  datatype Service = Service(configuration: Configuration, results: Option<ParsedResponse>)

  /** `new OpenRouterService(config)`: a client with an empty result cache, or the constructor's error. */
  function NewService(input: ConfigPatch): (r: Result<Service, string>)
    ensures r.Success? <==> input.apiToken.Some? && input.apiToken.value != ""
    ensures r.Success? ==> r.value.results.None? && r.value.configuration.apiToken == input.apiToken.value
    ensures r.Success? ==> r.value.configuration == Construct(input).value
    ensures r.Failure? ==> r.error == MissingTokenMessage
  {
    var c :- Construct(input);
    Success(Service(c, None))
  }

  /**
   * A client built from a token alone gets the constructor's defaults:
   * temperature 0.7, 150 tokens, no penalties, the default model and system
   * message.
   */
  lemma NewServiceDefaults(token: string)
    requires token != ""
    ensures NewService(ConfigPatch(Some(token), None, None, None))
         == Success(Service(Configuration(token, DefaultSystemMessage, DefaultModelName, ModelParams(0.7, 150.0, 0.0, 0.0)), None))
  {
    ConstructDefaults(token);
  }

  /** `updateConfiguration` on a client: the result cache is untouched; the error, if any, is thrown after assignment. */
  function UpdateConfiguration(s: Service, patch: ConfigPatch): (r: (Service, Option<string>))
    ensures r.0.results == s.results
    ensures r.0.configuration == Update(s.configuration, patch).configuration
    ensures r.1.Some? <==> r.0.configuration.apiToken == ""
    ensures r.1 == Update(s.configuration, patch).error
  {
    var u := Update(s.configuration, patch);
    (s.(configuration := u.configuration), u.error)
  }

  datatype Role = System | User

  datatype ChatMessage = ChatMessage(role: Role, content: string)

  /** The chat-completions request: messages, model, and the model parameters spread in. */
  datatype ChatRequest = ChatRequest(messages: seq<ChatMessage>, model: string, params: ModelParams)

  /** The request `sendMessage` builds from the current configuration and the caller's message. */
  function BuildRequest(c: Configuration, message: string): (r: ChatRequest)
    ensures |r.messages| == 2
    ensures r.messages[0] == ChatMessage(System, c.systemMessage)
    ensures r.messages[1] == ChatMessage(User, message)
    ensures r.model == c.modelName && r.params == c.modelParams
  {
    ChatRequest([ChatMessage(System, c.systemMessage), ChatMessage(User, message)], c.modelName, c.modelParams)
  }

  function RoleName(role: Role): string {
    match role
    case System => "system"
    case User => "user"
  }

  function MessageJson(m: ChatMessage): Json {
    JObject(map["role" := JString(RoleName(m.role)), "content" := JString(m.content)])
  }

  /** `JSON.stringify(request)` before serialisation: the body of the POST. */
  function RequestJson(r: ChatRequest): Json {
    JObject(map[
      "messages" := JArray(seq(|r.messages|, i requires 0 <= i < |r.messages| => MessageJson(r.messages[i]))),
      "model" := JString(r.model),
      "temperature" := JNumber(r.params.temperature),
      "max_tokens" := JNumber(r.params.maxTokens),
      "frequency_penalty" := JNumber(r.params.frequencyPenalty),
      "presence_penalty" := JNumber(r.params.presencePenalty)])
  }

  function DecodeRole(v: Json): Option<Role> {
    if v == JString("system") then Some(System)
    else if v == JString("user") then Some(User)
    else None
  }

  function DecodeMessage(v: Json): (r: Option<ChatMessage>)
    ensures forall m :: v == MessageJson(m) ==> r == Some(m)
  {
    if v.JObject? && "role" in v.fields && "content" in v.fields && v.fields["content"].JString? then
      match DecodeRole(v.fields["role"])
      case Some(role) => Some(ChatMessage(role, v.fields["content"].s))
      case None => None
    else None
  }

  function DecodeMessages(items: seq<Json>): (r: Option<seq<ChatMessage>>)
    ensures r.Some? ==> |r.value| == |items|
    ensures r.Some? ==> forall i :: 0 <= i < |items| ==> DecodeMessage(items[i]) == Some(r.value[i])
    ensures (forall i :: 0 <= i < |items| ==> DecodeMessage(items[i]).Some?) ==> r.Some?
  {
    if items == [] then Some([])
    else
      match (DecodeMessages(items[..|items| - 1]), DecodeMessage(items[|items| - 1]))
      case (Some(init), Some(last)) => Some(init + [last])
      case _ => None
  }

  function NumberField(fields: map<string, Json>, key: string): Option<real> {
    if key in fields && fields[key].JNumber? then Some(fields[key].n) else None
  }

  /** How the upstream API reads a request body: the wire format's decoder. */
  function DecodeRequest(v: Json): Option<ChatRequest> {
    if !v.JObject? then None
    else
      var f := v.fields;
      if "messages" in f && f["messages"].JArray? && "model" in f && f["model"].JString?
         && NumberField(f, "temperature").Some? && NumberField(f, "max_tokens").Some?
         && NumberField(f, "frequency_penalty").Some? && NumberField(f, "presence_penalty").Some?
      then
        match DecodeMessages(f["messages"].items)
        case Some(ms) =>
          Some(ChatRequest(ms, f["model"].s,
            ModelParams(NumberField(f, "temperature").value, NumberField(f, "max_tokens").value,
                        NumberField(f, "frequency_penalty").value, NumberField(f, "presence_penalty").value)))
        case None => None
      else None
  }

  /** The wire body loses nothing: decoding it gives the request back. */
  lemma RequestRoundTrip(r: ChatRequest)
    ensures DecodeRequest(RequestJson(r)) == Some(r)
  {
    var items := RequestJson(r).fields["messages"].items;
    var ms := DecodeMessages(items);
    assert ms.Some?;
    assert ms.value == r.messages;
  }

  /**
   * What the upstream API receives from `sendMessage(message)`: the configured
   * system message, then the caller's message, the configured model and the
   * configured parameters verbatim.
   */
  lemma WireRequest(c: Configuration, message: string)
    ensures DecodeRequest(RequestJson(BuildRequest(c, message)))
         == Some(ChatRequest([ChatMessage(System, c.systemMessage), ChatMessage(User, message)], c.modelName, c.modelParams))
  {
    RequestRoundTrip(BuildRequest(c, message));
  }

  const ApiBaseUrl: string := "https://openrouter.ai/api/v1"

  /** The HTTP call made on every attempt. */
  datatype HttpCall = HttpCall(url: string, httpMethod: string, headers: seq<(string, string)>, body: Json)

  function Call(c: Configuration, r: ChatRequest): (h: HttpCall)
    ensures h.url == ApiBaseUrl + "/chat/completions" && h.httpMethod == "POST"
    ensures ("Authorization", "Bearer " + c.apiToken) in h.headers
    ensures DecodeRequest(h.body) == Some(r)
  {
    RequestRoundTrip(r);
    HttpCall(ApiBaseUrl + "/chat/completions", "POST",
      [("Content-Type", "application/json"),
       ("Authorization", "Bearer " + c.apiToken),
       ("HTTP-Referer", "https://10x-cards.vercel.app"),
       ("X-Title", "10x Cards")],
      RequestJson(r))
  }

  /** What `response.choices[0]?.message?.content` and the emptiness check yield. */
  datatype Extraction = Content(value: Json) | EmptyContent | EnvelopeTypeError

  /** `x?.key`: an undefined or null base short-circuits to undefined. */
  function OptionalMember(a: Access, key: string): (r: Access)
    requires !a.TypeError?
    ensures !r.TypeError?
  {
    if a.Undefined? || a.v.JNull? then Undefined else Member(a.v, key)
  }

  /**
   * The content of the first choice of a `choices` array when it sits where a
   * well-formed completion puts it: an object holding a `message` object
   * holding `content`.
   */
  function FirstChoiceContent(choices: seq<Json>): Option<Json> {
    if |choices| > 0 && choices[0].JObject? && "message" in choices[0].fields
       && choices[0].fields["message"].JObject? && "content" in choices[0].fields["message"].fields
    then Some(choices[0].fields["message"].fields["content"])
    else None
  }

  /**
   * `response.choices[0]?.message?.content` followed by `if (!content)`.
   * Reading `choices` of a `null` body, or indexing a missing or `null`
   * `choices`, throws a TypeError; every later step is optional chaining.
   */
  function ExtractContent(envelope: Json): (x: Extraction)
    ensures x.EnvelopeTypeError? <==>
      envelope.JNull? || !(envelope.JObject? && "choices" in envelope.fields) || envelope.fields["choices"].JNull?
    ensures x.Content? ==> Truthy(x.value)
    ensures envelope.JObject? && "choices" in envelope.fields && envelope.fields["choices"] == JArray([]) ==> x.EmptyContent?
    ensures envelope.JObject? && "choices" in envelope.fields && envelope.fields["choices"].JArray? ==>
      var c := FirstChoiceContent(envelope.fields["choices"].items);
      x == if c.Some? && Truthy(c.value) then Content(c.value) else EmptyContent
  {
    var choices := Member(envelope, "choices");
    if choices.TypeError? || choices.Undefined? || choices.v.JNull? then EnvelopeTypeError
    else
      var content := OptionalMember(OptionalMember(First(choices.v), "message"), "content");
      if TruthyAccess(content) then Content(content.v) else EmptyContent
  }

  /** The envelope of a well-formed completion carrying `content`. */
  function Envelope(content: Json): Json {
    JObject(map["choices" := JArray([JObject(map["message" := JObject(map["content" := content])])])])
  }

  /** A well-formed envelope gives back its content, unless that content is falsy. */
  lemma ExtractFromEnvelope(content: Json)
    ensures ExtractContent(Envelope(content)) == if Truthy(content) then Content(content) else EmptyContent
  {
  }

  /** Why `sendMessage` rejects. */
  datatype SendError =
    | Transport(error: TransportError)     // the retry budget was spent; the last failure
    | NullError                            // `throw lastError` with no attempt made
    | TypeErrorInEnvelope                  // the body has no `choices` to index
    | EmptyResponse                        // "Otrzymano pustą odpowiedź od API"
    | Validation(issues: seq<Issue>)       // `responseSchema` refused `{text, timestamp}`

  /**
   * The client after a call, the HTTP calls made (one per attempt), the
   * transport run, and what the call returned or threw.
   */
  datatype SendOutcome = SendOutcome(service: Service, calls: seq<HttpCall>, trace: Trace, result: Result<ParsedResponse, SendError>)

  /** `n` copies of `x`. */
  function Repeat<T>(x: T, n: nat): (r: seq<T>)
    ensures |r| == n
    ensures forall i :: 0 <= i < n ==> r[i] == x
  {
    if n == 0 then [] else [x] + Repeat(x, n - 1)
  }

  /**
   * `sendMessage(message)` with the transport scripted by `outcomes` and
   * `Date.now()` given as `now`. The request is built from the configuration
   * at the time of the call and sent, unchanged, on every attempt of the retry
   * loop; the first choice's content is checked for emptiness (no further
   * attempt is made) and then validated together with the timestamp; only a
   * validated result is cached.
   */
  function SendMessage(s: Service, message: string, outcomes: seq<Outcome>, now: real): (r: SendOutcome)
    requires ServiceRetry.maxRetries < |outcomes|
    ensures r.trace == MakeRequest(ServiceRetry, outcomes)
    ensures r.calls == Repeat(Call(s.configuration, BuildRequest(s.configuration, message)), r.trace.attempts)
    ensures r.service.configuration == s.configuration
    ensures 1 <= r.trace.attempts <= ServiceRetry.maxRetries + 1
    ensures r.result.Success? ==> r.service.results == Some(r.result.value)
    ensures r.result.Success? ==> r.result.value.timestamp == now && r.result.value.text != ""
    ensures r.result.Failure? ==> r.service.results == s.results
    ensures r.result.Failure? ==> !r.result.error.NullError?
    ensures r.trace.result.Rethrown? ==> r.result == Failure(Transport(r.trace.result.error))
    ensures r.result.Failure? && r.result.error.Transport? ==>
      r.trace.attempts == ServiceRetry.maxRetries + 1
      && forall i :: 0 <= i < r.trace.attempts ==> Failed(outcomes[i]).Some?
    ensures r.result.Success? || r.result.error.EmptyResponse? || r.result.error.Validation? || r.result.error.TypeErrorInEnvelope?
      ==> r.trace.result.Delivered? && Failed(outcomes[r.trace.attempts - 1]).None?
    ensures r.trace.result.Delivered? ==> r.result == Answer(r.trace.result.body, now)
  {
    var t := MakeRequest(ServiceRetry, outcomes);
    ServiceRun(outcomes);
    var result := Settle(t.result, now);
    SendOutcome(
      if result.Success? then s.(results := Some(result.value)) else s,
      Repeat(Call(s.configuration, BuildRequest(s.configuration, message)), t.attempts),
      t,
      result)
  }

  /**
   * The client's retry loop makes one to four attempts and never throws
   * `null`; a rethrown error follows four failures, and a delivered body
   * comes from the last attempt, which succeeded.
   */
  lemma ServiceRun(outcomes: seq<Outcome>)
    requires ServiceRetry.maxRetries < |outcomes|
    ensures var t := MakeRequest(ServiceRetry, outcomes);
      && 1 <= t.attempts <= ServiceRetry.maxRetries + 1
      && !t.result.NullThrown?
      && (t.result.Rethrown? ==>
            t.attempts == ServiceRetry.maxRetries + 1
            && forall i :: 0 <= i < t.attempts ==> Failed(outcomes[i]).Some?)
      && (t.result.Delivered? ==> Failed(outcomes[t.attempts - 1]).None?)
  {
  }

  /** How `sendMessage` settles once the retry loop has returned or thrown. */
  function Settle(l: LoopResult, now: real): (a: Result<ParsedResponse, SendError>)
    ensures l.NullThrown? ==> a == Failure(NullError)
    ensures l.Rethrown? ==> a == Failure(Transport(l.error))
    ensures l.Delivered? ==> a == Answer(l.body, now)
  {
    match l
    case NullThrown => Failure(NullError)
    case Rethrown(e) => Failure(Transport(e))
    case Delivered(body) => Answer(body, now)
  }

  /**
   * What `sendMessage` makes of a delivered body: the content check and the
   * validation of `{text: content, timestamp: now}`. A string content is
   * returned verbatim; any other truthy content fails validation.
   */
  function Answer(body: Json, now: real): (a: Result<ParsedResponse, SendError>)
    ensures a.Failure? ==> a.error.TypeErrorInEnvelope? || a.error.EmptyResponse? || a.error.Validation?
    ensures var x := ExtractContent(body);
      && (x.EnvelopeTypeError? ==> a == Failure(TypeErrorInEnvelope))
      && (x.EmptyContent? ==> a == Failure(EmptyResponse))
      && (x.Content? && x.value.JString? ==> a == Success(ParsedResponse(x.value.s, now)))
      && (x.Content? && !x.value.JString? ==>
            a == Failure(Validation([Issue([Key("text")], "Expected string, received " + TypeName(x.value))])))
  {
    match ExtractContent(body)
    case EnvelopeTypeError => Failure(TypeErrorInEnvelope)
    case EmptyContent => Failure(EmptyResponse)
    case Content(v) =>
      NonStringTextRefused(v, now);
      match ParseResponse(JObject(map["text" := v, "timestamp" := JNumber(now)]))
      case Success(p) => Success(p)
      case Failure(issues) => Failure(Validation(issues))
  }

  /** `responseSchema` refuses a non-string `text` next to a numeric timestamp with one issue at `text`. */
  lemma NonStringTextRefused(v: Json, now: real)
    ensures !v.JString? ==>
      (ParseResponse(JObject(map["text" := v, "timestamp" := JNumber(now)]))
       == Failure([Issue([Key("text")], "Expected string, received " + TypeName(v))]))
  {
    var fields := map["text" := v, "timestamp" := JNumber(now)];
    if !v.JString? {
      assert Member(JObject(fields), "text") == Value(v);
      assert "Expected " + "string" + ", received " + TypeName(v) == "Expected string, received " + TypeName(v);
      assert StringIssue(fields, "text") == Some(Issue([Key("text")], "Expected string, received " + TypeName(v)));
      assert NumberIssue(fields, "timestamp") == None;
      assert Issues(StringIssue(fields, "text"), NumberIssue(fields, "timestamp"))
          == [Issue([Key("text")], "Expected string, received " + TypeName(v))];
    }
  }

  /**
   * For every script whose first `k` attempts fail and whose next attempt
   * answers with a well-formed completion carrying non-empty `text`: `k + 1`
   * identical calls are made, `text` stamped with `now` is returned, and it
   * is cached.
   */
  lemma SendMessageDeliversFirstSuccess(s: Service, message: string, outcomes: seq<Outcome>, now: real, k: nat, text: string)
    requires ServiceRetry.maxRetries < |outcomes|
    requires k <= ServiceRetry.maxRetries
    requires forall i :: 0 <= i < k ==> Failed(outcomes[i]).Some?
    requires outcomes[k].Responded? && IsOk(outcomes[k].status) && outcomes[k].body == Envelope(JString(text))
    requires text != ""
    ensures var r := SendMessage(s, message, outcomes, now);
      && |r.calls| == k + 1
      && r.result == Success(ParsedResponse(text, now))
      && r.service == s.(results := Some(ParsedResponse(text, now)))
  {
    SuccessAfterFailures(ServiceRetry, outcomes, k);
    ExtractFromEnvelope(JString(text));
  }

  /**
   * The worked example: a timeout, a network error and a 500 followed by a
   * completion give four calls, delays of 1000, 2000 and 4000 ms, and the
   * completion's text stamped with `now`, which is cached.
   */
  lemma ThreeFailuresThenSuccess(s: Service, message: string, text: string, now: real)
    requires text != ""
    ensures var outcomes := [TimedOut, NetworkError("fetch failed"), Responded(500, "Internal Server Error", JNull),
                             Responded(200, "OK", Envelope(JString(text)))];
      var r := SendMessage(s, message, outcomes, now);
      && r.trace == Trace(4, [1000, 2000, 4000], Delivered(Envelope(JString(text))))
      && r.result == Success(ParsedResponse(text, now))
      && r.service.results == Some(ParsedResponse(text, now))
  {
    var outcomes := [TimedOut, NetworkError("fetch failed"), Responded(500, "Internal Server Error", JNull),
                     Responded(200, "OK", Envelope(JString(text)))];
    SendMessageDeliversFirstSuccess(s, message, outcomes, now, 3, text);
    SuccessAfterFailures(ServiceRetry, outcomes, 3);
    ServiceDelays();
  }

  /** A transport that never succeeds: four calls, then the fourth failure is rethrown and the cache is kept. */
  lemma TransportNeverSucceeds(s: Service, message: string, outcomes: seq<Outcome>, now: real)
    requires |outcomes| == 4
    requires forall i :: 0 <= i < 4 ==> outcomes[i] == TimedOut
    ensures var r := SendMessage(s, message, outcomes, now);
      && r.trace == Trace(4, [1000, 2000, 4000], Rethrown(Aborted))
      && r.result == Failure(Transport(Aborted))
      && r.service == s
  {
    AllAttemptsFail(ServiceRetry, outcomes);
    ServiceDelays();
  }

  /** An empty `choices` array is an empty response, reported without a further attempt. */
  lemma EmptyChoicesNotRetried(s: Service, message: string, rest: seq<Outcome>, now: real)
    requires |rest| == 3
    ensures var r := SendMessage(s, message, [Responded(200, "OK", JObject(map["choices" := JArray([])]))] + rest, now);
      && r.trace.attempts == 1
      && r.result == Failure(EmptyResponse)
      && r.service == s
  {
    var outcomes := [Responded(200, "OK", JObject(map["choices" := JArray([])]))] + rest;
    SuccessAfterFailures(ServiceRetry, outcomes, 0);
  }

  /** Truthy content that is not a string passes extraction and is refused by the schema. */
  lemma NonStringContentFailsValidation(s: Service, message: string, rest: seq<Outcome>, now: real)
    requires |rest| == 3
    ensures var r := SendMessage(s, message, [Responded(200, "OK", Envelope(JNumber(5.0)))] + rest, now);
      && r.result.Failure? && r.result.error.Validation?
      && r.result.error.issues == [Issue([Key("text")], "Expected string, received number")]
      && r.service == s
  {
    var outcomes := [Responded(200, "OK", Envelope(JNumber(5.0)))] + rest;
    SuccessAfterFailures(ServiceRetry, outcomes, 0);
    var fields := map["text" := JNumber(5.0), "timestamp" := JNumber(now)];
    assert "Expected " + "string" + ", received " + "number" == "Expected string, received number";
    assert StringIssue(fields, "text") == Some(Issue([Key("text")], "Expected string, received number"));
    assert NumberIssue(fields, "timestamp") == None;
    ExtractFromEnvelope(JNumber(5.0));
    assert Issues(StringIssue(fields, "text"), NumberIssue(fields, "timestamp"))
        == [Issue([Key("text")], "Expected string, received number")];
    assert ParseResponse(JObject(fields)) == Failure([Issue([Key("text")], "Expected string, received number")]);
    assert Answer(Envelope(JNumber(5.0)), now) == Failure(Validation([Issue([Key("text")], "Expected string, received number")]));
  }
}
