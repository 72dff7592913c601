/**
 * The provider manager of internal/outbound/manager.go: the registry built from
 * the configuration's live API keys, the fixed-precedence dispatch of a single
 * generation, the fan-out comparison over several providers, and the static
 * provider catalogue.
 *
 * The registry is a value; the Gemini provider caches its SDK client on first
 * use, so every call that may build that client returns the updated registry.
 * The upstream services and the clock are inputs (`Upstream`).
 */
module OutboundManager {

  import opened Results
  import opened Strings
  import opened Models
  import opened Comparison
  import Catalogue
  import AppConfig
  import OA = OutboundOpenAI
  import OG = OutboundGemini

  /** The exact values the source treats as placeholders. */
  const Sentinels: seq<string> := [
    "your_openai_api_key_here",
    "your_gemini_api_key_here",
    "your_anthropic_api_key_here",
    "your-api-key-here",
    "your_api_key_here",
    "placeholder",
    ""
  ]

  /**
   * `isPlaceholderAPIKey`: a sentinel, a key under ten bytes (Go's `len`
   * counts the bytes of the UTF-8 encoding), or one mentioning `your_` or
   * `placeholder`.
   */
  predicate IsPlaceholderApiKey(key: string) {
    key in Sentinels || Utf8Len(key) < 10 || HasSubstring(key, "your_") || HasSubstring(key, "placeholder")
  }

  /**
   * Every sentinel but one is already caught by the length and substring tests;
   * only `your-api-key-here` (a hyphen, not an underscore) needs the list.
   */
  lemma {:induction false} PlaceholderCharacterised(key: string)
    ensures IsPlaceholderApiKey(key) <==>
      key == "your-api-key-here" || Utf8Len(key) < 10 || HasSubstring(key, "your_") || HasSubstring(key, "placeholder")
  {
    if key in Sentinels && key != "your-api-key-here" {
      if key == "" {
        assert Utf8Len(key) == 0;
      } else if key == "placeholder" {
        assert IsPrefix("placeholder", key);
      } else {
        assert IsPrefix("your_", key);
      }
    }
  }

  /** A key worth registering a provider for: non-empty and not a placeholder. */
  predicate IsLiveKey(key: string) {
    key != "" && !IsPlaceholderApiKey(key)
  }

  /**
   * A live key is at least ten bytes long, hence at least three characters,
   * and mentions neither placeholder pattern anywhere.
   */
  lemma LiveKeyShape(key: string)
    requires IsLiveKey(key)
    ensures Utf8Len(key) >= 10 && |key| >= 3
    ensures forall i :: !OccursAt(key, "your_", i) && !OccursAt(key, "placeholder", i)
  {
    HasSubstringIff(key, "your_");
    HasSubstringIff(key, "placeholder");
  }

  /** Four Cyrillic letters take two bytes each. */
  lemma CyrillicKeyBytes(key: string)
    requires key == "ключ12345"
    ensures |key| == 9 && Utf8Len(key) == 13
  {
    assert Utf8Len("12345") == 5;
    assert Utf8Len("ч12345") == 7;
    assert Utf8Len("юч12345") == 9;
    assert Utf8Len("люч12345") == 11;
  }

  /** A key that starts with neither `y` nor `p` is no sentinel and mentions neither pattern. */
  lemma NoPatternChars(key: string)
    requires |key| > 0 && 'y' !in key && 'p' !in key
    ensures key !in Sentinels
    ensures !HasSubstring(key, "your_") && !HasSubstring(key, "placeholder")
  {
    AbsentFirstChar(key, "your_");
    AbsentFirstChar(key, "placeholder");
  }

  /**
   * The length test counts bytes: a nine-character key of four Cyrillic
   * letters and five digits is thirteen bytes long and is live, while nine
   * ASCII characters are a placeholder.
   */
  lemma LengthCountsBytes(cyrillic: string, ascii: string)
    requires cyrillic == "ключ12345" && ascii == "abcd12345"
    ensures |cyrillic| == |ascii| == 9
    ensures IsLiveKey(cyrillic) && !IsLiveKey(ascii)
  {
    CyrillicKeyBytes(cyrillic);
    NoPatternChars(cyrillic);
    assert Utf8Len(ascii) == 9;
  }

  /** A registered provider implementation. */
  datatype Client = OpenAIClient(openAI: OA.Provider) | GeminiClient(gemini: OG.Provider)

  type Registry = map<AIProvider, Client>

  /** Each registered name holds the implementation of that provider. */
  predicate WellFormed(reg: Registry) {
    && (OpenAI in reg ==> reg[OpenAI].OpenAIClient?)
    && (Gemini in reg ==> reg[Gemini].GeminiClient?)
    && (forall p :: p in reg ==> p == OpenAI || p == Gemini)
  }

  /**
   * `initProviders`: OpenAI and Gemini are registered exactly when their key is
   * live, Anthropic never is, and a Gemini provider starts without a client.
   */
  function InitProviders(cfg: AppConfig.Config): (reg: Registry)
    ensures WellFormed(reg)
    ensures OpenAI in reg <==> IsLiveKey(cfg.aiProviders.openAI.apiKey)
    ensures Gemini in reg <==> IsLiveKey(cfg.aiProviders.gemini.apiKey)
    ensures Anthropic !in reg
    ensures OpenAI in reg ==> reg[OpenAI] == OpenAIClient(OA.Provider(cfg.aiProviders.openAI.apiKey))
    ensures Gemini in reg ==> reg[Gemini] == GeminiClient(OG.NewProvider(cfg.aiProviders.gemini.apiKey))
  {
    var openAIKey := cfg.aiProviders.openAI.apiKey;
    var geminiKey := cfg.aiProviders.gemini.apiKey;
    var withOpenAI: Registry := if openAIKey != "" && !IsPlaceholderApiKey(openAIKey)
      then map[OpenAI := OpenAIClient(OA.Provider(openAIKey))] else map[];
    if geminiKey != "" && !IsPlaceholderApiKey(geminiKey)
    then withOpenAI[Gemini := GeminiClient(OG.NewProvider(geminiKey))] else withOpenAI
  }

  /** The services a call may reach, and the clock reading it stamps its response with. */
  datatype Upstream = Upstream(
    openAI: OA.HttpRequest -> OA.HttpReply,
    geminiConnect: OG.Connect,
    gemini: OG.SdkCall -> OG.SdkReply,
    now: Timestamp)

  predicate IsAvailable(c: Client) {
    match c
    case OpenAIClient(p) => OA.IsAvailable(p)
    case GeminiClient(p) => OG.IsAvailable(p)
  }

  function ValidateRequest(c: Client, req: GenerationRequest): Option<ValidationError> {
    match c
    case OpenAIClient(_) => OA.ValidateRequest(req)
    case GeminiClient(_) => OG.ValidateRequest(req)
  }

  /** The implementation after a call (a Gemini client may have been built), and the call's outcome. */
  datatype Call = Call(client: Client, result: Result<GenerationResponse, UpstreamError>)

  /** The provider's own `Generate`. */
  function CallProvider(c: Client, req: GenerationRequest, up: Upstream): (k: Call)
    ensures k.client.OpenAIClient? == c.OpenAIClient?
    ensures IsAvailable(k.client) == IsAvailable(c)
    ensures k.result.Ok? ==> k.result.value.provider == (if c.OpenAIClient? then OpenAI else Gemini)
  {
    match c
    case OpenAIClient(p) => Call(c, OA.Generate(p, req, up.openAI, up.now))
    case GeminiClient(p) =>
      var s := OG.Generate(p, req, up.geminiConnect, up.gemini, up.now);
      Call(GeminiClient(s.provider), s.result)
  }

  /** Why `Manager.Generate` failed. */
  datatype DispatchError =
    | NoProvidersConfigured
    | ProviderNotFound(provider: AIProvider, available: set<AIProvider>)
    | ProviderNotAvailable(provider: AIProvider)
    | InvalidRequest(invalid: ValidationError)
    | UpstreamFailed(upstream: UpstreamError)

  /** The registry after a dispatch, and the dispatch's outcome. */
  datatype Dispatch = Dispatch(registry: Registry, result: Result<GenerationResponse, DispatchError>)

  /**
   * `Manager.Generate`: look the provider up (an empty registry is reported as
   * such, an unknown name with the registered ones), check availability, then
   * the provider's validation, and only then call it.
   */
  function Generate(reg: Registry, req: GenerationRequest, up: Upstream): (d: Dispatch)
    ensures d.registry.Keys == reg.Keys
    ensures WellFormed(reg) ==> WellFormed(d.registry)
    ensures |reg| == 0 ==> d.result == Err(NoProvidersConfigured)
    ensures |reg| > 0 && req.provider !in reg ==> d.result == Err(ProviderNotFound(req.provider, reg.Keys))
    ensures req.provider in reg && !IsAvailable(reg[req.provider]) ==> d.result == Err(ProviderNotAvailable(req.provider))
    ensures req.provider in reg && IsAvailable(reg[req.provider]) && ValidateRequest(reg[req.provider], req).Some?
      ==> d.result == Err(InvalidRequest(ValidateRequest(reg[req.provider], req).value))
    ensures d.registry != reg || d.result.Ok? || d.result.error.UpstreamFailed? ==>
      && req.provider in reg
      && IsAvailable(reg[req.provider])
      && ValidateRequest(reg[req.provider], req).None?
      && var k := CallProvider(reg[req.provider], req, up);
        d.registry == reg[req.provider := k.client]
        && d.result == (if k.result.Ok? then Ok(k.result.value) else Err(UpstreamFailed(k.result.error)))
    ensures WellFormed(reg) && d.result.Ok? ==> d.result.value.provider == req.provider
  {
    if req.provider !in reg then
      if |reg| == 0 then Dispatch(reg, Err(NoProvidersConfigured))
      else Dispatch(reg, Err(ProviderNotFound(req.provider, reg.Keys)))
    else
      var c := reg[req.provider];
      if !IsAvailable(c) then Dispatch(reg, Err(ProviderNotAvailable(req.provider)))
      else match ValidateRequest(c, req)
        case Some(e) => Dispatch(reg, Err(InvalidRequest(e)))
        case None =>
          var k := CallProvider(c, req, up);
          var reg' := reg[req.provider := k.client];
          match k.result
          case Ok(resp) => Dispatch(reg', Ok(resp))
          case Err(e) => Dispatch(reg', Err(UpstreamFailed(e)))
  }

  /** A registry built by `initProviders` never reports a registered provider as unavailable. */
  lemma {:induction false} InitializedProvidersAvailable(cfg: AppConfig.Config, req: GenerationRequest, up: Upstream)
    ensures Generate(InitProviders(cfg), req, up).result != Err(ProviderNotAvailable(req.provider))
  {
    var reg := InitProviders(cfg);
    if req.provider in reg {
      assert reg[req.provider] == OpenAIClient(OA.Provider(cfg.aiProviders.openAI.apiKey))
          || reg[req.provider] == GeminiClient(OG.NewProvider(cfg.aiProviders.gemini.apiKey));
    }
  }

  /** The request one comparison branch sends: the branch's provider and the shared settings, with no model and no system message. */
  function BranchRequest(req: ComparisonRequest, provider: AIProvider): (g: GenerationRequest)
    ensures g.provider == provider && g.model == "" && g.systemMsg == ""
    ensures g.prompt == req.prompt && g.maxTokens == req.maxTokens && g.temperature == req.temperature
  {
    GenerationRequest(provider, "", req.prompt, req.maxTokens, req.temperature, "")
  }

  /** A failed comparison branch: the provider and why it failed. */
  datatype BranchError = ProviderFailed(provider: AIProvider, cause: DispatchError)

  /** The registry after a fan-out and each branch's outcome, in branch order. */
  datatype Fanout = Fanout(registry: Registry, outcomes: seq<Result<GenerationResponse, BranchError>>)

  /**
   * The first `n` branches of a comparison, run one after another; branch `k`
   * sees upstream `ups(k)` and the registry the earlier branches left.
   */
  function Branches(reg: Registry, req: ComparisonRequest, n: nat, ups: nat -> Upstream): (f: Fanout)
    requires n <= |req.providers|
    ensures |f.outcomes| == n
    ensures f.registry.Keys == reg.Keys
    ensures WellFormed(reg) ==> WellFormed(f.registry)
    ensures forall k :: 0 <= k < n && f.outcomes[k].Err? ==> f.outcomes[k].error.provider == req.providers[k]
    ensures forall k :: 0 <= k < n && req.providers[k] !in reg ==> f.outcomes[k].Err?
    ensures WellFormed(reg) ==>
      forall k :: 0 <= k < n && f.outcomes[k].Ok? ==> f.outcomes[k].value.provider == req.providers[k]
    decreases n
  {
    if n == 0 then Fanout(reg, [])
    else
      var f := Branches(reg, req, n - 1, ups);
      var pt := req.providers[n - 1];
      var d := Generate(f.registry, BranchRequest(req, pt), ups(n - 1));
      var o := if d.result.Ok? then Ok(d.result.value) else Err(ProviderFailed(pt, d.result.error));
      Fanout(d.registry, f.outcomes + [o])
  }

  /** The registry after a comparison, and the comparison's outcome. */
  datatype Compared = Compared(registry: Registry, result: Result<ComparisonResponse, seq<BranchError>>)

  /**
   * `Manager.Compare` as written: one branch per requested provider, all-failed
   * is an error, and `CreatedAt` is read from the first result, which panics
   * when no provider was requested.
   */
  function CompareAsWritten(reg: Registry, req: ComparisonRequest, ups: nat -> Upstream): (r: Run<Compared>)
    ensures r.Panicked? <==> |req.providers| == 0
  {
    var f := Branches(reg, req, |req.providers|, ups);
    match AggregateAsWritten(req.prompt, f.outcomes)
    case Panicked(why) => Panicked(why)
    case Completed(result) => Completed(Compared(f.registry, result))
  }

  /**
   * `Manager.Compare` with the empty provider list guarded: it fails exactly
   * when at least one provider was requested and every branch failed, and then
   * reports one error per branch; otherwise its results are exactly the
   * successful branches' responses, each from the provider it was asked of.
   */
  function Compare(reg: Registry, req: ComparisonRequest, ups: nat -> Upstream): (c: Compared)
    ensures var f := Branches(reg, req, |req.providers|, ups);
      && c.registry == f.registry
      && (c.result.Err? <==> |req.providers| > 0 && forall k :: 0 <= k < |f.outcomes| ==> f.outcomes[k].Err?)
      && (c.result.Err? ==> c.result.error == Failures(f.outcomes) && |c.result.error| == |req.providers|)
      && (c.result.Ok? ==> c.result.value.prompt == req.prompt && c.result.value.results == Successes(f.outcomes))
    ensures c.registry.Keys == reg.Keys
    ensures |req.providers| == 0 ==> c.result == Ok(ComparisonResponse(req.prompt, [], ZeroTime))
  {
    var f := Branches(reg, req, |req.providers|, ups);
    Compared(f.registry, Aggregate(req.prompt, f.outcomes))
  }

  /** Wherever the source's `Compare` does not panic, it agrees with the guarded one. */
  lemma CompareAgreesWhenProvidersGiven(reg: Registry, req: ComparisonRequest, ups: nat -> Upstream)
    requires |req.providers| > 0
    ensures CompareAsWritten(reg, req, ups) == Completed(Compare(reg, req, ups))
  {
    var f := Branches(reg, req, |req.providers|, ups);
    AsWrittenAgreesWhenProvidersGiven(req.prompt, f.outcomes);
  }

  /** Each requested provider is counted once, as a result or as an error. */
  lemma CompareAccountsForEveryProvider(reg: Registry, req: ComparisonRequest, ups: nat -> Upstream)
    ensures var f := Branches(reg, req, |req.providers|, ups);
      |Successes(f.outcomes)| + |Failures(f.outcomes)| == |req.providers|
  {
    SuccessesPlusFailures(Branches(reg, req, |req.providers|, ups).outcomes);
  }

  /** Asking only for providers that are not registered always fails. */
  lemma CompareUnregisteredFails(reg: Registry, req: ComparisonRequest, ups: nat -> Upstream)
    requires |req.providers| > 0
    requires forall k :: 0 <= k < |req.providers| ==> req.providers[k] !in reg
    ensures Compare(reg, req, ups).result.Err?
  {
  }

  /** In a well-formed registry every comparison result comes from a requested provider. */
  lemma {:induction false} CompareResultsFromRequested(reg: Registry, req: ComparisonRequest, ups: nat -> Upstream)
    requires WellFormed(reg)
    ensures var c := Compare(reg, req, ups);
      c.result.Ok? ==> forall i :: 0 <= i < |c.result.value.results| ==> c.result.value.results[i].provider in req.providers
  {
    var f := Branches(reg, req, |req.providers|, ups);
    SuccessesFromBranches(f.outcomes);
    forall i | 0 <= i < |Successes(f.outcomes)|
      ensures Successes(f.outcomes)[i].provider in req.providers
    {
      assert Ok(Successes(f.outcomes)[i]) in f.outcomes;
      var k :| 0 <= k < |f.outcomes| && f.outcomes[k] == Ok(Successes(f.outcomes)[i]);
      assert f.outcomes[k].value.provider == req.providers[k];
    }
  }

  /** Every success is some branch's outcome. */
  lemma {:induction false} SuccessesFromBranches<E>(os: seq<Result<GenerationResponse, E>>)
    ensures forall r :: r in Successes(os) ==> Ok(r) in os
    decreases |os|
  {
    if |os| > 0 {
      SuccessesFromBranches(os[1..]);
      assert os == [os[0]] + os[1..];
    }
  }

  /**
   * `GetAvailableProviders`: the fixed catalogue, where OpenAI and Gemini are
   * available exactly when registered and available, and Anthropic never is.
   */
  function GetAvailableProviders(reg: Registry): (cat: map<string, AIProviderComparison>)
    ensures cat.Keys == {"openai", "gemini", "anthropic"}
    ensures cat["openai"].available <==> OpenAI in reg && IsAvailable(reg[OpenAI])
    ensures cat["gemini"].available <==> Gemini in reg && IsAvailable(reg[Gemini])
    ensures !cat["anthropic"].available
    ensures cat["openai"].maxTokens == OA.MaxTokensCeiling && cat["gemini"].maxTokens == OG.MaxTokensCeiling
  {
    Catalogue.Entries(OpenAI in reg && IsAvailable(reg[OpenAI]), Gemini in reg && IsAvailable(reg[Gemini]))
  }

  /** Why `GetProvider` failed. */
  datatype LookupError = NotRegistered(provider: AIProvider)

  /** `GetProvider`: the registered implementation, or an error naming the provider. */
  function GetProvider(reg: Registry, provider: AIProvider): (r: Result<Client, LookupError>)
    ensures r.Ok? <==> provider in reg
    ensures r.Ok? ==> r.value == reg[provider]
    ensures r.Err? ==> r.error == NotRegistered(provider)
  {
    if provider in reg then Ok(reg[provider]) else Err(NotRegistered(provider))
  }

  /** `GetDefaultProvider`: OpenAI, whatever is registered. */
  const DefaultProvider: AIProvider := OpenAI
}
