/**
 * The request and response records shared by the providers, the managers and
 * the controller (internal/model/models.go), and the error kinds of the
 * provider contract.
 */
module Models {

  import opened Results

  /** Go's `AIProvider` is a named string type: any string can arrive in a request, three are known. */
  type AIProvider = string

  const OpenAI: AIProvider := "openai"
  const Gemini: AIProvider := "gemini"
  const Anthropic: AIProvider := "anthropic"

  /** A Go `time.Time`, as nanoseconds since the Unix epoch; the zero value stands for Go's zero time. */
  type Timestamp = int

  const ZeroTime: Timestamp := 0

  /** `MaxTokens` and `Temperature` are optional in the JSON; their zero values mean "not given". */
  datatype GenerationRequest = GenerationRequest(
    provider: AIProvider,
    model: string,
    prompt: string,
    maxTokens: int,
    temperature: real,
    systemMsg: string)

  datatype GenerationResponse = GenerationResponse(
    id: string,
    provider: AIProvider,
    model: string,
    content: string,
    tokensUsed: int,
    generatedAt: Timestamp)

  datatype ComparisonRequest = ComparisonRequest(
    prompt: string,
    providers: seq<AIProvider>,
    maxTokens: int,
    temperature: real)

  datatype ComparisonResponse = ComparisonResponse(
    prompt: string,
    results: seq<GenerationResponse>,
    createdAt: Timestamp)

  /** The row the controller stores after a successful generation (duration in milliseconds). */
  datatype GenerationHistory = GenerationHistory(
    provider: string,
    model: string,
    prompt: string,
    response: string,
    tokensUsed: int,
    duration: int,
    status: string,
    errorMessage: string)

  /** Display data about one provider; only `available` depends on the registry. */
  datatype AIProviderComparison = AIProviderComparison(
    provider: AIProvider,
    name: string,
    strengths: seq<string>,
    weaknesses: seq<string>,
    bestFor: seq<string>,
    pricing: string,
    maxTokens: int,
    available: bool)

  /** Per-provider usage figures as the repository reports them. */
  datatype ProviderStats = ProviderStats(
    provider: string,
    totalGenerations: int,
    totalTokens: int,
    avgDuration: real,
    errorCount: int)

  /** Why a provider's `ValidateRequest` refused a request. */
  datatype ValidationError =
    | PromptRequired
    | MaxTokensExceeded(ceiling: int)
    | TemperatureOutOfRange(low: real, high: real)

  /** Why a provider's `Generate` failed after validation. */
  datatype UpstreamError =
    | NotConfigured                      // no API key bound to the client
    | ClientFailed(detail: string)       // the SDK client could not be built
    | RequestFailed(detail: string)      // the HTTP round trip failed
    | ReadFailed(detail: string)         // the response body could not be read
    | ApiError(status: int, detail: string)  // the API answered with a non-success status
    | SdkError(detail: string)           // the SDK call returned an error
    | ParseFailed(detail: string)        // the response body was not the expected JSON
    | NoResponse                         // the API answered with no choice / candidate

  /**
   * The check every provider's `ValidateRequest` performs, in this order: the
   * prompt is non-empty, `maxTokens` is at most `ceiling`, and the temperature
   * lies in `[0, maxTemperature]`.
   */
  function CheckRequest(req: GenerationRequest, ceiling: int, maxTemperature: real): (r: Option<ValidationError>)
    ensures r.None? <==> req.prompt != "" && req.maxTokens <= ceiling && 0.0 <= req.temperature <= maxTemperature
    ensures req.prompt == "" ==> r == Some(PromptRequired)
    ensures req.prompt != "" && req.maxTokens > ceiling ==> r == Some(MaxTokensExceeded(ceiling))
    ensures req.prompt != "" && req.maxTokens <= ceiling && r.Some? ==> r == Some(TemperatureOutOfRange(0.0, maxTemperature))
  {
    if req.prompt == "" then Some(PromptRequired)
    else if req.maxTokens > ceiling then Some(MaxTokensExceeded(ceiling))
    else if req.temperature < 0.0 || req.temperature > maxTemperature then Some(TemperatureOutOfRange(0.0, maxTemperature))
    else None
  }

  /** The model to request: the caller's, or the provider's default when the caller gave none. */
  function ResolveModel(requested: string, default: string): (m: string)
    ensures requested != "" ==> m == requested
    ensures requested == "" ==> m == default
  {
    if requested == "" then default else requested
  }

  datatype Role = System | User

  /** One message of a chat-completion request. */
  datatype ChatMessage = ChatMessage(role: Role, content: string)

  /**
   * The chat-completion message list both OpenAI clients send: the user prompt,
   * preceded by the system message when one is given.
   */
  function ChatMessages(req: GenerationRequest): (msgs: seq<ChatMessage>)
    ensures |msgs| == if req.systemMsg == "" then 1 else 2
    ensures msgs[|msgs| - 1] == ChatMessage(User, req.prompt)
    ensures req.systemMsg != "" ==> msgs[0] == ChatMessage(System, req.systemMsg)
    ensures forall i :: 0 <= i < |msgs| - 1 ==> msgs[i].role == System
  {
    var user := [ChatMessage(User, req.prompt)];
    if req.systemMsg != "" then [ChatMessage(System, req.systemMsg)] + user else user
  }
}
