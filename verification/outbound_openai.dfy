/**
 * The chat-completion provider of the `outbound` package
 * (internal/outbound/openai.go). The HTTP round trip is a function-typed
 * input; payload building and response normalisation are modelled in full.
 */
module OutboundOpenAI {

  import opened Results
  import opened Numbers
  import opened Strings
  import opened Models

  const DefaultModel: string := "gpt-3.5-turbo"
  const MaxTokensCeiling: int := 4096
  const MaxTemperature: real := 2.0
  const Endpoint: string := "https://api.openai.com/v1/chat/completions"
  const IdPrefix: string := "openai-"

  datatype Provider = Provider(apiKey: string)

  function GetName(): string {
    "OpenAI"
  }

  /** Availability is the presence of a key; the client does not check the key further. */
  predicate IsAvailable(p: Provider) {
    p.apiKey != ""
  }

  /** The advertised catalogue, which includes the default model; requests are not checked against it. */
  function GetSupportedModels(): (models: seq<string>)
    ensures DefaultModel in models
  {
    ["gpt-4", "gpt-4-turbo", "gpt-3.5-turbo", "gpt-3.5-turbo-16k"]
  }

  /** Prompt first, then the 4096-token ceiling, then the temperature range [0, 2]. */
  function ValidateRequest(req: GenerationRequest): (r: Option<ValidationError>)
    ensures req.prompt == "" ==> r == Some(PromptRequired)
    ensures req.prompt != "" && req.maxTokens > 4096 ==> r == Some(MaxTokensExceeded(4096))
    ensures (req.prompt != "" && req.maxTokens <= 4096 && (req.temperature < 0.0 || req.temperature > 2.0))
      ==> r == Some(TemperatureOutOfRange(0.0, 2.0))
    ensures r.None? <==> req.prompt != "" && req.maxTokens <= 4096 && 0.0 <= req.temperature <= 2.0
  {
    CheckRequest(req, MaxTokensCeiling, MaxTemperature)
  }

  /** The JSON body sent upstream; an absent optional field is left out of the JSON. */
  datatype Payload = Payload(
    model: string,
    messages: seq<ChatMessage>,
    maxTokens: Option<int>,
    temperature: Option<real>)

  /** The POST request: endpoint, bearer authorization header and JSON payload. */
  datatype HttpRequest = HttpRequest(url: string, authorization: string, payload: Payload)

  /** The decoded body of a chat-completion answer: each choice's message content, and `usage.total_tokens`. */
  datatype CompletionBody = CompletionBody(choices: seq<string>, totalTokens: int)

  /** What the HTTP round trip produced; `decoded` is `None` when the body is not the expected JSON. */
  datatype HttpReply =
    | TransportFailed(detail: string)
    | BodyUnreadable(detail: string)
    | Replied(status: int, body: string, decoded: Option<CompletionBody>)

  /** The payload for a request: default model when none is given, optional fields only when positive. */
  function BuildPayload(req: GenerationRequest): (p: Payload)
    ensures p.model == ResolveModel(req.model, DefaultModel)
    ensures p.messages == ChatMessages(req)
    ensures p.maxTokens.Some? <==> req.maxTokens > 0
    ensures p.maxTokens.Some? ==> p.maxTokens.value == req.maxTokens
    ensures p.temperature.Some? <==> req.temperature > 0.0
    ensures p.temperature.Some? ==> p.temperature.value == req.temperature
  {
    Payload(
      ResolveModel(req.model, DefaultModel),
      ChatMessages(req),
      if req.maxTokens > 0 then Some(req.maxTokens) else None,
      if req.temperature > 0.0 then Some(req.temperature) else None)
  }

  /** The request `Generate` sends for `req` with this provider's key. */
  function BuildHttpRequest(p: Provider, req: GenerationRequest): (h: HttpRequest)
    ensures h.url == Endpoint
    ensures h.authorization == "Bearer " + p.apiKey
    ensures h.payload == BuildPayload(req)
  {
    HttpRequest(Endpoint, "Bearer " + p.apiKey, BuildPayload(req))
  }

  /**
   * `Generate`: one upstream call with the built request, then normalisation.
   * Only status 200 is a success; the response ID is `openai-` followed by the
   * clock reading `now` in nanoseconds.
   */
  function Generate(p: Provider, req: GenerationRequest, http: HttpRequest -> HttpReply, now: Timestamp)
    : (r: Result<GenerationResponse, UpstreamError>)
    ensures var reply := http(BuildHttpRequest(p, req));
      && (r.Ok? <==> reply.Replied? && reply.status == 200 && reply.decoded.Some? && |reply.decoded.value.choices| > 0)
      && (reply.TransportFailed? ==> r == Err(RequestFailed(reply.detail)))
      && (reply.BodyUnreadable? ==> r == Err(ReadFailed(reply.detail)))
      && (reply.Replied? && reply.status != 200 ==> r == Err(ApiError(reply.status, reply.body)))
      && (reply.Replied? && reply.status == 200 && reply.decoded.None? ==> r.Err? && r.error.ParseFailed?)
      && ((reply.Replied? && reply.status == 200 && reply.decoded.Some? && |reply.decoded.value.choices| == 0)
          ==> r == Err(NoResponse))
      && (r.Ok? ==>
            && r.value.provider == OpenAI
            && r.value.model == ResolveModel(req.model, DefaultModel)
            && r.value.content == reply.decoded.value.choices[0]
            && r.value.tokensUsed == reply.decoded.value.totalTokens
            && r.value.generatedAt == now
            && IsPrefix(IdPrefix, r.value.id))
  {
    match http(BuildHttpRequest(p, req))
    case TransportFailed(d) => Err(RequestFailed(d))
    case BodyUnreadable(d) => Err(ReadFailed(d))
    case Replied(status, body, decoded) =>
      if status != 200 then Err(ApiError(status, body))
      else if decoded.None? then Err(ParseFailed(body))
      else if |decoded.value.choices| == 0 then Err(NoResponse)
      else
        Ok(GenerationResponse(
          IdPrefix + FormatInt(now),
          OpenAI,
          ResolveModel(req.model, DefaultModel),
          decoded.value.choices[0],
          decoded.value.totalTokens,
          now))
  }

  /** The response ID carries the clock reading it was made from, readable back with `strconv.ParseInt`. */
  lemma ResponseIdCarriesClock(p: Provider, req: GenerationRequest, http: HttpRequest -> HttpReply, now: Timestamp)
    requires IsInt64(now)
    requires Generate(p, req, http, now).Ok?
    ensures var id := Generate(p, req, http, now).value.id;
      IsPrefix(IdPrefix, id) && ParseInt64(id[|IdPrefix|..]) == Parsed(now)
  {
    var id := Generate(p, req, http, now).value.id;
    assert id[|IdPrefix|..] == FormatInt(now);
    ParseFormatInt(now);
  }
}
