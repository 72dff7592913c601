/**
 * The generative-model provider of the `outbound` package
 * (internal/outbound/gemini.go). The SDK client construction and the SDK call
 * are inputs; the lazily built client is part of the provider's state.
 */
module OutboundGemini {

  import opened Results
  import opened Numbers
  import opened Strings
  import opened Models

  const DefaultModel: string := "gemini-1.5-flash"
  const MaxTokensCeiling: int := 8192
  const MaxTemperature: real := 1.0
  const IdPrefix: string := "gemini-"

  /** An SDK client handle; only its presence matters. */
  datatype Client = Client(handle: nat)

  /** The provider holds its key and, once built, the SDK client it reuses. */
  datatype Provider = Provider(apiKey: string, client: Option<Client>)

  function NewProvider(apiKey: string): (p: Provider)
    ensures p.apiKey == apiKey && p.client.None?
  {
    Provider(apiKey, None)
  }

  function GetName(): string {
    "Google Gemini"
  }

  /** Availability is the presence of a key, whether or not the client has been built yet. */
  predicate IsAvailable(p: Provider) {
    p.apiKey != ""
  }

  /** The advertised catalogue, which includes the default model. */
  function GetSupportedModels(): (models: seq<string>)
    ensures DefaultModel in models
  {
    ["gemini-1.5-flash", "gemini-1.5-pro", "gemini-1.0-pro", "gemini-pro-vision"]
  }

  /** Prompt first, then the 8192-token ceiling, then the temperature range [0, 1]. */
  function ValidateRequest(req: GenerationRequest): (r: Option<ValidationError>)
    ensures req.prompt == "" ==> r == Some(PromptRequired)
    ensures req.prompt != "" && req.maxTokens > 8192 ==> r == Some(MaxTokensExceeded(8192))
    ensures (req.prompt != "" && req.maxTokens <= 8192 && (req.temperature < 0.0 || req.temperature > 1.0))
      ==> r == Some(TemperatureOutOfRange(0.0, 1.0))
    ensures r.None? <==> req.prompt != "" && req.maxTokens <= 8192 && 0.0 <= req.temperature <= 1.0
  {
    CheckRequest(req, MaxTokensCeiling, MaxTemperature)
  }

  /** What `genai.NewClient` produced. */
  datatype Connect = Connected(client: Client) | ConnectFailed(detail: string)

  /** The provider after `initClient`, and the error it returned (if any). */
  datatype Init = Init(provider: Provider, error: Option<UpstreamError>)

  /**
   * `initClient`: a no-op once a client exists; otherwise an empty key fails
   * without trying to connect, and a connection is kept only when it succeeded.
   */
  function InitClient(p: Provider, connect: Connect): (r: Init)
    ensures r.provider.apiKey == p.apiKey
    ensures p.client.Some? ==> r == Init(p, None)
    ensures p.client.None? && p.apiKey == "" ==> r == Init(p, Some(NotConfigured))
    ensures r.error.None? <==> r.provider.client.Some?
    ensures p.client.None? && r.provider.client.Some? ==> connect == Connected(r.provider.client.value)
  {
    if p.client.Some? then Init(p, None)
    else if p.apiKey == "" then Init(p, Some(NotConfigured))
    else
      match connect
      case Connected(c) => Init(p.(client := Some(c)), None)
      case ConnectFailed(d) => Init(p, Some(ClientFailed(d)))
  }

  /** Once a client has been built, `initClient` never fails nor changes it, whatever the connection would do. */
  lemma InitClientCached(p: Provider, first: Connect, later: Connect)
    requires InitClient(p, first).error.None?
    ensures InitClient(InitClient(p, first).provider, later) == Init(InitClient(p, first).provider, None)
    ensures InitClient(p, first).provider.client.Some?
  {
  }

  /** A part of a candidate's content: text, or anything else (images, function calls). */
  datatype Part = Text(text: string) | NonText

  /** A candidate's content, which the SDK holds by pointer: `None` stands for a nil `Content`. */
  datatype Candidate = Candidate(content: Option<Content>)

  datatype Content = Content(parts: seq<Part>)

  /** What the SDK's `GenerateContent` returned. */
  datatype SdkReply = SdkFailed(detail: string) | Candidates(candidates: seq<Candidate>)

  /** The SDK call: model name, generation settings (unset when `None`) and the single text prompt. */
  datatype SdkCall = SdkCall(model: string, maxOutputTokens: Option<int>, temperature: Option<real>, prompt: string)

  /** The single text prompt: the user prompt, framed with the system message when one is given. */
  function PromptText(req: GenerationRequest): (s: string)
    ensures req.systemMsg == "" ==> s == req.prompt
    ensures req.systemMsg != "" ==> s == "System: " + req.systemMsg + "\n\nUser: " + req.prompt
  {
    if req.systemMsg != "" then "System: " + req.systemMsg + "\n\nUser: " + req.prompt else req.prompt
  }

  /**
   * The SDK call for a request. `SetMaxOutputTokens` takes an `int32`, so the
   * token limit is the request's value converted with wrap-around.
   */
  function BuildCall(req: GenerationRequest): (c: SdkCall)
    ensures c.model == ResolveModel(req.model, DefaultModel)
    ensures c.prompt == PromptText(req)
    ensures c.maxOutputTokens.Some? <==> req.maxTokens > 0
    ensures c.maxOutputTokens.Some? ==> IsInt32(c.maxOutputTokens.value)
    ensures req.maxTokens > 0 && IsInt32(req.maxTokens) ==> c.maxOutputTokens == Some(req.maxTokens)
    ensures c.temperature.Some? <==> req.temperature > 0.0
    ensures c.temperature.Some? ==> c.temperature.value == req.temperature
  {
    SdkCall(
      ResolveModel(req.model, DefaultModel),
      if req.maxTokens > 0 then Some(Wrap32(req.maxTokens)) else None,
      if req.temperature > 0.0 then Some(req.temperature) else None,
      PromptText(req))
  }

  /** The text of the parts, in order; non-text parts contribute nothing (the `content +=` loop). */
  function TextContent(parts: seq<Part>): string
    decreases |parts|
  {
    if |parts| == 0 then ""
    else
      var last := parts[|parts| - 1];
      TextContent(parts[..|parts| - 1]) + (if last.Text? then last.text else "")
  }

  /** The text parts alone, in order. */
  function Texts(parts: seq<Part>): (ts: seq<string>)
    ensures |ts| <= |parts|
    decreases |parts|
  {
    if |parts| == 0 then []
    else if parts[0].Text? then [parts[0].text] + Texts(parts[1..])
    else Texts(parts[1..])
  }

  /** Plain concatenation of strings. */
  function Concat(ss: seq<string>): string
    decreases |ss|
  {
    if |ss| == 0 then "" else ss[0] + Concat(ss[1..])
  }

  /** The content built from the parts of two runs of parts is the content of the first followed by that of the second. */
  lemma {:induction false} TextContentAppend(a: seq<Part>, b: seq<Part>)
    ensures TextContent(a + b) == TextContent(a) + TextContent(b)
    decreases |b|
  {
    if |b| == 0 {
      assert a + b == a;
    } else {
      var b' := b[..|b| - 1];
      TextContentAppend(a, b');
      assert (a + b)[..|a + b| - 1] == a + b';
      assert (a + b)[|a + b| - 1] == b[|b| - 1];
    }
  }

  /** The content is exactly the concatenation of the text parts, in order, non-text parts skipped. */
  lemma {:induction false} TextContentIsConcatOfTexts(parts: seq<Part>)
    ensures TextContent(parts) == Concat(Texts(parts))
    decreases |parts|
  {
    if |parts| > 0 {
      TextContentIsConcatOfTexts(parts[1..]);
      TextContentAppend([parts[0]], parts[1..]);
      assert [parts[0]] + parts[1..] == parts;
      assert [parts[0]][..0] == [];
    }
  }

  /** The Go loop that builds the content, appending each text part in turn. */
  method CollectText(parts: seq<Part>) returns (content: string)
    ensures content == Concat(Texts(parts))
  {
    content := "";
    var i := 0;
    while i < |parts|
      invariant 0 <= i <= |parts|
      invariant content == TextContent(parts[..i])
    {
      assert parts[..i + 1][..i] == parts[..i];
      if parts[i].Text? {
        content := content + parts[i].text;
      }
      i := i + 1;
    }
    assert parts[..|parts|] == parts;
    TextContentIsConcatOfTexts(parts);
  }

  /** The token estimate: one token per four bytes of content (Go's `len`), rounded down. */
  function EstimateTokens(content: string): (t: nat)
    ensures 4 * t <= Utf8Len(content) < 4 * t + 4
    ensures t <= |content|
  {
    Utf8Len(content) / 4
  }

  /** The provider after a call, and the call's outcome. */
  datatype Step = Step(provider: Provider, result: Result<GenerationResponse, UpstreamError>)

  /** The first candidate has a nil `Content`, which `resp.Candidates[0].Content.Parts` dereferences. */
  predicate MissingContent(reply: SdkReply) {
    reply.Candidates? && |reply.candidates| > 0 && reply.candidates[0].content.None?
  }

  /** There is a first candidate, it has content, and that content has parts. */
  predicate Answered(reply: SdkReply) {
    && reply.Candidates? && |reply.candidates| > 0
    && reply.candidates[0].content.Some? && |reply.candidates[0].content.value.parts| > 0
  }

  /** The response built from an answered call. */
  function Answer(req: GenerationRequest, parts: seq<Part>, now: Timestamp): GenerationResponse {
    var content := TextContent(parts);
    GenerationResponse(
      IdPrefix + FormatInt(now),
      Gemini,
      ResolveModel(req.model, DefaultModel),
      content,
      EstimateTokens(content),
      now)
  }

  /**
   * `Generate` as written: a first candidate whose `Content` is nil makes the
   * emptiness test dereference a nil pointer.
   */
  function GenerateAsWritten(p: Provider, req: GenerationRequest, connect: Connect, sdk: SdkCall -> SdkReply, now: Timestamp)
    : (r: Run<Step>)
    ensures r.Panicked? <==> InitClient(p, connect).error.None? && MissingContent(sdk(BuildCall(req)))
  {
    var init := InitClient(p, connect);
    if init.error.Some? then Completed(Step(init.provider, Err(init.error.value)))
    else
      match sdk(BuildCall(req))
      case SdkFailed(d) => Completed(Step(init.provider, Err(SdkError(d))))
      case Candidates(cands) =>
        if |cands| == 0 then Completed(Step(init.provider, Err(NoResponse)))
        else match cands[0].content
          case None => Panicked("invalid memory address or nil pointer dereference")
          case Some(c) =>
            if |c.parts| == 0 then Completed(Step(init.provider, Err(NoResponse)))
            else Completed(Step(init.provider, Ok(Answer(req, c.parts, now))))
  }

  /**
   * `Generate`: build the client if needed, make the SDK call, and keep the text
   * of the first candidate; no candidate, a first candidate without content, or
   * one whose content has no parts is an error. Token usage is estimated from
   * the content's length in bytes.
   */
  function Generate(p: Provider, req: GenerationRequest, connect: Connect, sdk: SdkCall -> SdkReply, now: Timestamp)
    : (s: Step)
    ensures s.provider == InitClient(p, connect).provider
    ensures InitClient(p, connect).error.Some? ==> s.result == Err(InitClient(p, connect).error.value)
    ensures InitClient(p, connect).error.None? ==>
      var reply := sdk(BuildCall(req));
      && (reply.SdkFailed? ==> s.result == Err(SdkError(reply.detail)))
      && (reply.Candidates? && !Answered(reply) ==> s.result == Err(NoResponse))
      && (s.result.Ok? <==> Answered(reply))
      && (s.result.Ok? ==>
            && s.result.value.provider == Gemini
            && s.result.value.model == ResolveModel(req.model, DefaultModel)
            && s.result.value.content == Concat(Texts(reply.candidates[0].content.value.parts))
            && s.result.value.tokensUsed == Utf8Len(s.result.value.content) / 4
            && s.result.value.generatedAt == now
            && IsPrefix(IdPrefix, s.result.value.id))
  {
    var init := InitClient(p, connect);
    if init.error.Some? then Step(init.provider, Err(init.error.value))
    else
      var reply := sdk(BuildCall(req));
      match reply
      case SdkFailed(d) => Step(init.provider, Err(SdkError(d)))
      case Candidates(cands) =>
        if !Answered(reply) then Step(init.provider, Err(NoResponse))
        else
          TextContentIsConcatOfTexts(cands[0].content.value.parts);
          Step(init.provider, Ok(Answer(req, cands[0].content.value.parts, now)))
  }

  /** Wherever the code as written does not panic, it agrees with the corrected `Generate`. */
  lemma GenerateAgreesWhenContentPresent(
    p: Provider, req: GenerationRequest, connect: Connect, sdk: SdkCall -> SdkReply, now: Timestamp)
    requires !MissingContent(sdk(BuildCall(req)))
    ensures GenerateAsWritten(p, req, connect, sdk, now) == Completed(Generate(p, req, connect, sdk, now))
  {
  }

  /** A configured provider whose SDK answers with one empty candidate panics as written. */
  lemma PanicsOnMissingContent(p: Provider, req: GenerationRequest, connect: Connect, now: Timestamp)
    requires InitClient(p, connect).error.None?
    ensures GenerateAsWritten(p, req, connect, _ => Candidates([Candidate(None)]), now).Panicked?
    ensures Generate(p, req, connect, _ => Candidates([Candidate(None)]), now).result == Err(NoResponse)
  {
  }

  /** The token estimate depends on the content alone: equal content gives equal estimates. */
  lemma TokensDeterministic(
    p1: Provider, p2: Provider, req1: GenerationRequest, req2: GenerationRequest,
    c1: Connect, c2: Connect, sdk1: SdkCall -> SdkReply, sdk2: SdkCall -> SdkReply, t1: Timestamp, t2: Timestamp)
    requires Generate(p1, req1, c1, sdk1, t1).result.Ok? && Generate(p2, req2, c2, sdk2, t2).result.Ok?
    requires Generate(p1, req1, c1, sdk1, t1).result.value.content == Generate(p2, req2, c2, sdk2, t2).result.value.content
    ensures Generate(p1, req1, c1, sdk1, t1).result.value.tokensUsed == Generate(p2, req2, c2, sdk2, t2).result.value.tokensUsed
    ensures Generate(p1, req1, c1, sdk1, t1).result.value.tokensUsed <= |Generate(p1, req1, c1, sdk1, t1).result.value.content|
    ensures Generate(p1, req1, c1, sdk1, t1).result.value.tokensUsed * 4 <= Utf8Len(Generate(p1, req1, c1, sdk1, t1).result.value.content)
  {
  }
}
