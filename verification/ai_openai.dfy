/**
 * The OpenAI provider of internal/ai/openai.go, which talks to the API through
 * the go-openai client. The client call is an input (`ChatRequest -> ClientReply`).
 */
module AiOpenAI {

  import opened Results
  import opened Models

  /** The value of go-openai's `GPT3Dot5Turbo`. */
  const DefaultModel: string := "gpt-3.5-turbo"
  const MaxTokensCeiling: int := 4096
  const MaxTemperature: real := 2.0

  /** A go-openai client, bound to the key it was made with. */
  datatype SdkClient = SdkClient(apiKey: string)

  datatype Provider = Provider(client: Option<SdkClient>, apiKey: string)

  /** `NewOpenAIProvider`: a client is made only for a non-empty key. */
  function NewProvider(apiKey: string): (p: Provider)
    ensures p.apiKey == apiKey
    ensures p.client.Some? <==> apiKey != ""
  {
    Provider(if apiKey != "" then Some(SdkClient(apiKey)) else None, apiKey)
  }

  function GetName(): string {
    "OpenAI"
  }

  /** Available when there is both a client and a key. */
  predicate IsAvailable(p: Provider) {
    p.client.Some? && p.apiKey != ""
  }

  /** Because the constructor couples the two, a constructed provider is available exactly when its key is non-empty. */
  lemma AvailableIffKey(apiKey: string)
    ensures IsAvailable(NewProvider(apiKey)) <==> apiKey != ""
  {
  }

  /** The advertised catalogue (go-openai's constant values), which includes the default model. */
  function GetSupportedModels(): (models: seq<string>)
    ensures DefaultModel in models
  {
    ["gpt-3.5-turbo", "gpt-3.5-turbo-16k", "gpt-4", "gpt-4-turbo-preview", "gpt-4o", "gpt-4o-mini"]
  }

  /** Prompt first, then the 4096-token ceiling, then the temperature range [0, 2]. */
  function ValidateRequest(req: GenerationRequest): (r: Option<ValidationError>)
    ensures req.prompt == "" ==> r == Some(PromptRequired)
    ensures req.prompt != "" && req.maxTokens > 4096 ==> r == Some(MaxTokensExceeded(4096))
    ensures (req.prompt != "" && req.maxTokens <= 4096 && (req.temperature < 0.0 || req.temperature > 2.0))
      ==> r == Some(TemperatureOutOfRange(0.0, 2.0))
    ensures r.None? <==> req.prompt != "" && req.maxTokens <= 4096 && 0.0 <= req.temperature <= 2.0
  {
    CheckRequest(req, MaxTokensCeiling, MaxTemperature)
  }

  /** go-openai's `ChatCompletionRequest`; a field left unset holds Go's zero value and is omitted on the wire. */
  datatype ChatRequest = ChatRequest(model: string, messages: seq<ChatMessage>, maxTokens: int, temperature: real)

  /** What `CreateChatCompletion` returned. */
  datatype ClientReply =
    | CallFailed(detail: string)
    | Completion(id: string, choices: seq<string>, totalTokens: int)

  /**
   * The request `Generate` sends: the resolved model, the chat messages, and
   * the token limit and temperature only when they are positive (zero, the
   * omitted value, otherwise).
   */
  function BuildChatRequest(req: GenerationRequest): (c: ChatRequest)
    ensures c.model == ResolveModel(req.model, DefaultModel)
    ensures c.messages == ChatMessages(req)
    ensures c.maxTokens > 0 <==> req.maxTokens > 0
    ensures c.maxTokens > 0 ==> c.maxTokens == req.maxTokens
    ensures c.maxTokens >= 0
    ensures c.temperature > 0.0 <==> req.temperature > 0.0
    ensures c.temperature > 0.0 ==> c.temperature == req.temperature
    ensures c.temperature >= 0.0
  {
    ChatRequest(
      ResolveModel(req.model, DefaultModel),
      ChatMessages(req),
      if req.maxTokens > 0 then req.maxTokens else 0,
      if req.temperature > 0.0 then req.temperature else 0.0)
  }

  /**
   * `Generate`: refuses when the provider is not available, before any call;
   * otherwise a client error or an empty choice list is an error, and a reply
   * gives the first choice's content under the reply's own ID.
   */
  function Generate(p: Provider, req: GenerationRequest, client: ChatRequest -> ClientReply, now: Timestamp)
    : (r: Result<GenerationResponse, UpstreamError>)
    ensures !IsAvailable(p) ==> r == Err(NotConfigured)
    ensures IsAvailable(p) ==>
      var reply := client(BuildChatRequest(req));
      && (reply.CallFailed? ==> r == Err(SdkError(reply.detail)))
      && (reply.Completion? && |reply.choices| == 0 ==> r == Err(NoResponse))
      && (r.Ok? <==> reply.Completion? && |reply.choices| > 0)
      && (r.Ok? ==>
            && r.value.id == reply.id
            && r.value.provider == OpenAI
            && r.value.model == ResolveModel(req.model, DefaultModel)
            && r.value.content == reply.choices[0]
            && r.value.tokensUsed == reply.totalTokens
            && r.value.generatedAt == now)
  {
    if !IsAvailable(p) then Err(NotConfigured)
    else
      match client(BuildChatRequest(req))
      case CallFailed(d) => Err(SdkError(d))
      case Completion(id, choices, total) =>
        if |choices| == 0 then Err(NoResponse)
        else Ok(GenerationResponse(id, OpenAI, ResolveModel(req.model, DefaultModel), choices[0], total, now))
  }

  /** An unavailable provider's answer does not depend on the client at all: no call is made. */
  lemma UnavailableMakesNoCall(
    p: Provider, req: GenerationRequest, c1: ChatRequest -> ClientReply, c2: ChatRequest -> ClientReply, t: Timestamp)
    requires !IsAvailable(p)
    ensures Generate(p, req, c1, t) == Generate(p, req, c2, t) == Err(NotConfigured)
  {
  }
}
