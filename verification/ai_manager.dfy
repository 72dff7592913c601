/**
 * The alternative provider manager of internal/ai/manager.go. It differs from
 * the outbound one in three ways: any non-empty key registers a provider, an
 * unknown provider is reported as not found even when nothing is registered,
 * and the default provider comes from the configuration.
 *
 * The package's Gemini provider (`NewGeminiProvider`) is not part of this
 * model; its availability, validation and generation are inputs (`GeminiPort`).
 * The settings are the four fields of internal/config/config.go the manager reads.
 */
module AiManager {

  import opened Results
  import opened Models
  import opened Comparison
  import Catalogue
  import AO = AiOpenAI

  /** The configuration fields the manager reads. */
  datatype Settings = Settings(
    openAIApiKey: string, geminiApiKey: string, anthropicApiKey: string, defaultAIProvider: string)

  /** A registered provider: the OpenAI one, or the Gemini one bound to its key. */
  datatype Client = OpenAIClient(openAI: AO.Provider) | GeminiClient(apiKey: string)

  type Registry = map<AIProvider, Client>

  /** `initProviders`: OpenAI and Gemini are registered exactly when their key is non-empty; Anthropic never is. */
  function InitProviders(s: Settings): (reg: Registry)
    ensures OpenAI in reg <==> s.openAIApiKey != ""
    ensures Gemini in reg <==> s.geminiApiKey != ""
    ensures Anthropic !in reg
    ensures OpenAI in reg ==> reg[OpenAI] == OpenAIClient(AO.NewProvider(s.openAIApiKey))
    ensures Gemini in reg ==> reg[Gemini] == GeminiClient(s.geminiApiKey)
  {
    var withOpenAI: Registry := if s.openAIApiKey != "" then map[OpenAI := OpenAIClient(AO.NewProvider(s.openAIApiKey))] else map[];
    if s.geminiApiKey != "" then withOpenAI[Gemini := GeminiClient(s.geminiApiKey)] else withOpenAI
  }

  /** What the package's Gemini provider does, which is outside this model. */
  datatype GeminiPort = GeminiPort(
    isAvailable: string -> bool,
    validate: GenerationRequest -> Option<ValidationError>,
    generate: GenerationRequest -> Result<GenerationResponse, UpstreamError>)

  /** The services a call may reach, and the clock reading it stamps its response with. */
  datatype Upstream = Upstream(openAI: AO.ChatRequest -> AO.ClientReply, gemini: GeminiPort, now: Timestamp)

  predicate IsAvailable(c: Client, up: Upstream) {
    match c
    case OpenAIClient(p) => AO.IsAvailable(p)
    case GeminiClient(key) => up.gemini.isAvailable(key)
  }

  function ValidateRequest(c: Client, req: GenerationRequest, up: Upstream): Option<ValidationError> {
    match c
    case OpenAIClient(_) => AO.ValidateRequest(req)
    case GeminiClient(_) => up.gemini.validate(req)
  }

  function CallProvider(c: Client, req: GenerationRequest, up: Upstream): Result<GenerationResponse, UpstreamError> {
    match c
    case OpenAIClient(p) => AO.Generate(p, req, up.openAI, up.now)
    case GeminiClient(_) => up.gemini.generate(req)
  }

  /** Why `Manager.Generate` failed. */
  datatype DispatchError =
    | ProviderNotFound(provider: AIProvider)
    | ProviderNotAvailable(provider: AIProvider)
    | InvalidRequest(invalid: ValidationError)
    | UpstreamFailed(upstream: UpstreamError)

  /**
   * `Manager.Generate`: lookup, availability, validation, and only then the
   * provider's own call. The only lookup error is "not found", whatever the
   * registry holds.
   */
  function Generate(reg: Registry, req: GenerationRequest, up: Upstream): (r: Result<GenerationResponse, DispatchError>)
    ensures req.provider !in reg ==> r == Err(ProviderNotFound(req.provider))
    ensures req.provider in reg && !IsAvailable(reg[req.provider], up) ==> r == Err(ProviderNotAvailable(req.provider))
    ensures req.provider in reg && IsAvailable(reg[req.provider], up) && ValidateRequest(reg[req.provider], req, up).Some?
      ==> r == Err(InvalidRequest(ValidateRequest(reg[req.provider], req, up).value))
    ensures r.Ok? || r.error.UpstreamFailed? <==>
      req.provider in reg && IsAvailable(reg[req.provider], up) && ValidateRequest(reg[req.provider], req, up).None?
    ensures r.Ok? || r.error.UpstreamFailed? ==>
      var k := CallProvider(reg[req.provider], req, up);
      r == if k.Ok? then Ok(k.value) else Err(UpstreamFailed(k.error))
  {
    if req.provider !in reg then Err(ProviderNotFound(req.provider))
    else
      var c := reg[req.provider];
      if !IsAvailable(c, up) then Err(ProviderNotAvailable(req.provider))
      else match ValidateRequest(c, req, up)
        case Some(e) => Err(InvalidRequest(e))
        case None =>
          match CallProvider(c, req, up)
          case Ok(resp) => Ok(resp)
          case Err(e) => Err(UpstreamFailed(e))
  }

  /** Unlike the outbound manager, an empty registry reports the requested provider as not found. */
  lemma EmptyRegistryIsNotFound(req: GenerationRequest, up: Upstream)
    ensures Generate(map[], req, up) == Err(ProviderNotFound(req.provider))
  {
  }

  /** A registered OpenAI provider is always available, since registration required a non-empty key. */
  lemma {:induction false} RegisteredOpenAIAvailable(s: Settings, req: GenerationRequest, up: Upstream)
    requires req.provider == OpenAI
    ensures Generate(InitProviders(s), req, up) != Err(ProviderNotAvailable(OpenAI))
  {
    var reg := InitProviders(s);
    if OpenAI in reg {
      AO.AvailableIffKey(s.openAIApiKey);
    }
  }

  /** A failed comparison branch: the provider and why it failed. */
  datatype BranchError = ProviderFailed(provider: AIProvider, cause: DispatchError)

  /** The outcome of the comparison branch for `provider`. */
  function Branch(reg: Registry, req: ComparisonRequest, provider: AIProvider, up: Upstream)
    : (o: Result<GenerationResponse, BranchError>)
    ensures o.Err? ==> o.error.provider == provider
    ensures provider !in reg ==> o == Err(ProviderFailed(provider, ProviderNotFound(provider)))
  {
    var g := GenerationRequest(provider, "", req.prompt, req.maxTokens, req.temperature, "");
    match Generate(reg, g, up)
    case Ok(resp) => Ok(resp)
    case Err(e) => Err(ProviderFailed(provider, e))
  }

  /** Every branch's outcome, in branch order; branch `k` sees upstream `ups(k)`. */
  function Branches(reg: Registry, req: ComparisonRequest, ups: nat -> Upstream)
    : (os: seq<Result<GenerationResponse, BranchError>>)
    ensures |os| == |req.providers|
    ensures forall k :: 0 <= k < |os| ==> os[k] == Branch(reg, req, req.providers[k], ups(k))
  {
    seq(|req.providers|, k requires 0 <= k < |req.providers| => Branch(reg, req, req.providers[k], ups(k)))
  }

  /** `Manager.Compare` as written: it panics reading `results[0]` when no provider was requested. */
  function CompareAsWritten(reg: Registry, req: ComparisonRequest, ups: nat -> Upstream)
    : (r: Run<Result<ComparisonResponse, seq<BranchError>>>)
    ensures r.Panicked? <==> |req.providers| == 0
  {
    AggregateAsWritten(req.prompt, Branches(reg, req, ups))
  }

  /**
   * `Manager.Compare` with the empty provider list guarded: it fails exactly
   * when at least one provider was requested and every branch failed;
   * otherwise its results are exactly the successful branches' responses.
   */
  function Compare(reg: Registry, req: ComparisonRequest, ups: nat -> Upstream)
    : (r: Result<ComparisonResponse, seq<BranchError>>)
    ensures var os := Branches(reg, req, ups);
      && (r.Err? <==> |req.providers| > 0 && forall k :: 0 <= k < |os| ==> os[k].Err?)
      && (r.Err? ==> r.error == Failures(os) && |r.error| == |req.providers|)
      && (r.Ok? ==> r.value.prompt == req.prompt && r.value.results == Successes(os))
    ensures |req.providers| == 0 ==> r == Ok(ComparisonResponse(req.prompt, [], ZeroTime))
  {
    Aggregate(req.prompt, Branches(reg, req, ups))
  }

  /** Wherever the source's `Compare` does not panic, it agrees with the guarded one. */
  lemma CompareAgreesWhenProvidersGiven(reg: Registry, req: ComparisonRequest, ups: nat -> Upstream)
    requires |req.providers| > 0
    ensures CompareAsWritten(reg, req, ups) == Completed(Compare(reg, req, ups))
  {
    AsWrittenAgreesWhenProvidersGiven(req.prompt, Branches(reg, req, ups));
  }

  /**
   * Listing the providers in another order changes at most the order of the
   * results and of the errors, when each provider's upstream is the same in
   * every branch.
   */
  lemma CompareOrderIndependent(reg: Registry, req1: ComparisonRequest, req2: ComparisonRequest, up: Upstream)
    requires req2 == req1.(providers := req2.providers)
    requires multiset(req1.providers) == multiset(req2.providers)
    ensures Compare(reg, req1, _ => up).Err? <==> Compare(reg, req2, _ => up).Err?
    ensures Compare(reg, req1, _ => up).Ok? ==>
      multiset(Compare(reg, req1, _ => up).value.results) == multiset(Compare(reg, req2, _ => up).value.results)
  {
    var os1, os2 := Branches(reg, req1, _ => up), Branches(reg, req2, _ => up);
    var f := p => Branch(reg, req1, p, up);
    assert forall k :: 0 <= k < |os2| ==> os2[k] == f(req2.providers[k]);
    MapPreservesPermutation(req1.providers, req2.providers, f, os1, os2);
    AggregateOrderIndependent(req1.prompt, os1, os2);
  }

  /** Applying one function to each element of two permuted lists gives permuted lists. */
  lemma {:induction false} MapPreservesPermutation<T(!new), U(!new)>(
    xs: seq<T>, ys: seq<T>, f: T -> U, fxs: seq<U>, fys: seq<U>)
    requires multiset(xs) == multiset(ys)
    requires |fxs| == |xs| && forall k :: 0 <= k < |xs| ==> fxs[k] == f(xs[k])
    requires |fys| == |ys| && forall k :: 0 <= k < |ys| ==> fys[k] == f(ys[k])
    ensures multiset(fxs) == multiset(fys)
    decreases |xs|
  {
    if |xs| == 0 {
      assert |ys| == |multiset(ys)| == 0;
    } else {
      assert xs[0] in multiset(ys);
      var j :| 0 <= j < |ys| && ys[j] == xs[0];
      DropFirstAndAt(xs, ys, j);
      MappedDropAt(ys, f, fys, j);
      MapPreservesPermutation(xs[1..], ys[..j] + ys[j + 1..], f, fxs[1..], fys[..j] + fys[j + 1..]);
      DropFirstAndAt(fxs, fys, j);
    }
  }

  /** Removing the first element of one list and an equal element of another keeps their multisets' relation. */
  lemma DropFirstAndAt<T(!new)>(xs: seq<T>, ys: seq<T>, j: nat)
    requires 0 < |xs| && j < |ys| && ys[j] == xs[0]
    ensures multiset(xs) == multiset(ys) <==> multiset(xs[1..]) == multiset(ys[..j] + ys[j + 1..])
  {
    assert xs == [xs[0]] + xs[1..];
    assert ys == ys[..j] + [ys[j]] + ys[j + 1..];
    var a, b := multiset(xs[1..]), multiset(ys[..j] + ys[j + 1..]);
    assert multiset(xs) == a + multiset{xs[0]};
    assert multiset(ys) == b + multiset{xs[0]};
    if a + multiset{xs[0]} == b + multiset{xs[0]} {
      forall e ensures a[e] == b[e] {
        assert (a + multiset{xs[0]})[e] == (b + multiset{xs[0]})[e];
      }
    }
  }

  /** Dropping the same position from a list and its image keeps them related. */
  lemma MappedDropAt<T, U>(ys: seq<T>, f: T -> U, fys: seq<U>, j: nat)
    requires |fys| == |ys| && forall k :: 0 <= k < |ys| ==> fys[k] == f(ys[k])
    requires j < |ys|
    ensures var ys', fys' := ys[..j] + ys[j + 1..], fys[..j] + fys[j + 1..];
      |fys'| == |ys'| && forall k :: 0 <= k < |ys'| ==> fys'[k] == f(ys'[k])
  {
    var ys', fys' := ys[..j] + ys[j + 1..], fys[..j] + fys[j + 1..];
    forall k | 0 <= k < |ys'| ensures fys'[k] == f(ys'[k]) {
      if k < j { assert ys'[k] == ys[k] && fys'[k] == fys[k]; }
      else { assert ys'[k] == ys[k + 1] && fys'[k] == fys[k + 1]; }
    }
  }

  /** `GetAvailableProviders`: the fixed catalogue, with availability read from the registry. */
  function GetAvailableProviders(reg: Registry, up: Upstream): (cat: map<string, AIProviderComparison>)
    ensures cat.Keys == {"openai", "gemini", "anthropic"}
    ensures cat["openai"].available <==> OpenAI in reg && IsAvailable(reg[OpenAI], up)
    ensures cat["gemini"].available <==> Gemini in reg && IsAvailable(reg[Gemini], up)
    ensures !cat["anthropic"].available
  {
    Catalogue.Entries(OpenAI in reg && IsAvailable(reg[OpenAI], up), Gemini in reg && IsAvailable(reg[Gemini], up))
  }

  /** `GetProvider`: the registered implementation, or an error naming the provider. */
  function GetProvider(reg: Registry, provider: AIProvider): (r: Result<Client, DispatchError>)
    ensures r.Ok? <==> provider in reg
    ensures r.Ok? ==> r.value == reg[provider]
    ensures r.Err? ==> r.error == ProviderNotFound(provider)
  {
    if provider in reg then Ok(reg[provider]) else Err(ProviderNotFound(provider))
  }

  /** `GetDefaultProvider`: the configured name when it is one of the three providers, OpenAI otherwise. */
  function GetDefaultProvider(s: Settings): (p: AIProvider)
    ensures p in {OpenAI, Gemini, Anthropic}
    ensures s.defaultAIProvider in {OpenAI, Gemini, Anthropic} <==> p == s.defaultAIProvider
  {
    match s.defaultAIProvider
    case "openai" => OpenAI
    case "gemini" => Gemini
    case "anthropic" => Anthropic
    case _ => OpenAI
  }
}
