/**
 * The decisions of internal/controller/ai_controller.go: how `GenerateContent`
 * turns a request body into a manager call and a history record, and how
 * `GetStats` totals the per-provider figures. The manager is the outbound one
 * (`OutboundManager`); the elapsed time and the repository's answers are
 * inputs.
 */
module AiController {

  import opened Results
  import opened Models
  import OM = OutboundManager
  import AppConfig

  /** The `provider` string of a request, mapped onto the known providers. */
  function ProviderFromString(s: string): (p: Option<AIProvider>)
    ensures p.Some? <==> s == OpenAI || s == Gemini || s == Anthropic
    ensures p.Some? ==> p.value == s
  {
    match s
    case "openai" => Some(OpenAI)
    case "gemini" => Some(Gemini)
    case "anthropic" => Some(Anthropic)
    case _ => None
  }

  /** The JSON body `GenerateContent` binds; `provider`, `model` and `prompt` are required. */
  datatype RequestBody = RequestBody(
    provider: string,
    model: string,
    prompt: string,
    systemMsg: string,
    temperature: real,
    maxTokens: int)

  /** `binding:"required"` on a string refuses its zero value. */
  predicate Bindable(body: RequestBody) {
    body.provider != "" && body.model != "" && body.prompt != ""
  }

  /** What the handler answers. */
  datatype Reply =
    | InvalidRequestData
    | UnsupportedProvider(provider: string)
    | GenerationFailed(cause: OM.DispatchError)
    | Generated(content: string, provider: AIProvider, model: string, tokensUsed: int)

  function StatusOf(r: Reply): int {
    match r
    case InvalidRequestData => 400
    case UnsupportedProvider(_) => 400
    case GenerationFailed(_) => 500
    case Generated(_, _, _, _) => 200
  }

  /**
   * One request's effect: the manager's registry afterwards, the reply, the
   * history record handed to the repository (if any) and whether it was stored.
   */
  datatype Handled = Handled(registry: OM.Registry, reply: Reply, record: Option<GenerationHistory>, stored: bool)

  /** The request the handler passes to the manager. */
  function ManagerRequest(body: RequestBody, provider: AIProvider): (g: GenerationRequest)
    ensures g.provider == provider && g.model == body.model && g.prompt == body.prompt
    ensures g.systemMsg == body.systemMsg && g.maxTokens == body.maxTokens && g.temperature == body.temperature
  {
    GenerationRequest(provider, body.model, body.prompt, body.maxTokens, body.temperature, body.systemMsg)
  }

  /**
   * `GenerateContent`. `body` is `None` when the JSON does not decode,
   * `elapsed` the generation time in milliseconds and `saveOk` whether the
   * repository accepted the record. A malformed body, or a provider outside
   * the three, is refused with 400 before the manager is called; a failed
   * generation is a 500 with no record; a success builds a `success` record
   * and answers 200 whether or not the record was saved.
   */
  function GenerateContent(reg: OM.Registry, body: Option<RequestBody>, up: OM.Upstream, elapsed: int, saveOk: bool): (h: Handled)
    ensures body.None? || !Bindable(body.value) ==> h == Handled(reg, InvalidRequestData, None, false)
    ensures body.Some? && Bindable(body.value) && ProviderFromString(body.value.provider).None? ==>
      h == Handled(reg, UnsupportedProvider(body.value.provider), None, false)
    ensures StatusOf(h.reply) == 200 <==> h.record.Some?
    ensures h.stored <==> h.record.Some? && saveOk
    ensures h.reply.GenerationFailed? || h.reply.Generated? ==>
      body.Some? && Bindable(body.value) && ProviderFromString(body.value.provider).Some?
      && var d := OM.Generate(reg, ManagerRequest(body.value, body.value.provider), up);
        h.registry == d.registry
        && (d.result.Err? ==> h.reply == GenerationFailed(d.result.error))
        && (d.result.Ok? ==>
              var resp := d.result.value;
              h.reply == Generated(resp.content, resp.provider, resp.model, resp.tokensUsed)
              && h.record == Some(GenerationHistory(
                   resp.provider, resp.model, body.value.prompt, resp.content, resp.tokensUsed, elapsed, "success", "")))
  {
    if body.None? || !Bindable(body.value) then Handled(reg, InvalidRequestData, None, false)
    else
      var b := body.value;
      match ProviderFromString(b.provider)
      case None => Handled(reg, UnsupportedProvider(b.provider), None, false)
      case Some(p) =>
        var d := OM.Generate(reg, ManagerRequest(b, p), up);
        match d.result
        case Err(e) => Handled(d.registry, GenerationFailed(e), None, false)
        case Ok(resp) =>
          var record := GenerationHistory(resp.provider, resp.model, b.prompt, resp.content, resp.tokensUsed, elapsed, "success", "");
          Handled(d.registry, Generated(resp.content, resp.provider, resp.model, resp.tokensUsed), Some(record), saveOk)
  }

  /** Whether the record was saved changes neither the reply nor the manager's state. */
  lemma SaveFailureInvisible(reg: OM.Registry, body: Option<RequestBody>, up: OM.Upstream, elapsed: int)
    ensures GenerateContent(reg, body, up, elapsed, true).reply == GenerateContent(reg, body, up, elapsed, false).reply
    ensures GenerateContent(reg, body, up, elapsed, true).registry == GenerateContent(reg, body, up, elapsed, false).registry
    ensures GenerateContent(reg, body, up, elapsed, true).record == GenerateContent(reg, body, up, elapsed, false).record
  {
  }

  /**
   * Anthropic passes the controller's provider check but is never registered,
   * so with a registry built from configuration every such request ends in a
   * 500 with no record.
   */
  lemma AnthropicRequestsFail(cfg: AppConfig.Config, body: RequestBody, up: OM.Upstream, elapsed: int, saveOk: bool)
    requires Bindable(body) && body.provider == Anthropic
    ensures var h := GenerateContent(OM.InitProviders(cfg), Some(body), up, elapsed, saveOk);
      StatusOf(h.reply) == 500 && h.record.None?
  {
  }

  /** The per-provider figures `GetStats` reports. */
  datatype StatEntry = StatEntry(
    provider: string,
    totalGenerations: int,
    totalTokens: int,
    avgDuration: real,
    errorCount: int,
    successRate: real)

  /** The overall figures `GetStats` reports. */
  datatype Summary = Summary(
    totalGenerations: int,
    totalTokens: int,
    avgDuration: real,
    totalErrors: int,
    successRate: real)

  /** The success rate in percent, 100 when there were no generations. */
  function SuccessRate(total: int, errors: int): (rate: real)
    ensures total <= 0 ==> rate == 100.0
    ensures total > 0 && errors == 0 ==> rate == 100.0
    ensures total > 0 && 0 <= errors <= total ==> 0.0 <= rate <= 100.0
    ensures total > 0 && errors == total ==> rate == 0.0
  {
    if total > 0 then (total - errors) as real / total as real * 100.0 else 100.0
  }

  /** Go's float-to-integer conversion, truncating toward zero. */
  function Truncate(x: real): (n: int)
    ensures x >= 0.0 ==> n as real <= x < n as real + 1.0
    ensures x < 0.0 ==> n as real - 1.0 < x <= n as real
  {
    if x >= 0.0 then x.Floor else -((-x).Floor)
  }

  /** The integer figures that `GetStats` adds up. */
  datatype Figure = Generations | Tokens | Errors | Duration

  function FigureOf(s: ProviderStats, figure: Figure): int {
    match figure
    case Generations => s.totalGenerations
    case Tokens => s.totalTokens
    case Errors => s.errorCount
    case Duration => DurationOf(s)
  }

  /** The total of one figure over the stats, added up front to back. */
  function Total(stats: seq<ProviderStats>, figure: Figure): int
    decreases |stats|
  {
    if |stats| == 0 then 0 else Total(stats[..|stats| - 1], figure) + FigureOf(stats[|stats| - 1], figure)
  }

  /** The duration a provider's figures account for: its mean times its count, truncated. */
  function DurationOf(s: ProviderStats): int {
    Truncate(s.avgDuration * s.totalGenerations as real)
  }

  function EntryOf(s: ProviderStats): (e: StatEntry)
    ensures e.provider == s.provider && e.totalGenerations == s.totalGenerations && e.totalTokens == s.totalTokens
    ensures e.avgDuration == s.avgDuration && e.errorCount == s.errorCount
    ensures e.successRate == SuccessRate(s.totalGenerations, s.errorCount)
  {
    StatEntry(s.provider, s.totalGenerations, s.totalTokens, s.avgDuration, s.errorCount,
              SuccessRate(s.totalGenerations, s.errorCount))
  }

  /** The per-provider entries of the rows: one per provider name, the latest row for a name winning. */
  function Entries(stats: seq<ProviderStats>): map<string, StatEntry>
    decreases |stats|
  {
    if |stats| == 0 then map[]
    else
      var last := stats[|stats| - 1];
      Entries(stats[..|stats| - 1])[last.provider := EntryOf(last)]
  }

  /** `Entries` has a key for exactly the provider names of the rows. */
  lemma {:induction false} EntriesKeys(stats: seq<ProviderStats>)
    ensures forall p :: p in Entries(stats) <==> exists i :: 0 <= i < |stats| && stats[i].provider == p
    decreases |stats|
  {
    if |stats| > 0 {
      var init := stats[..|stats| - 1];
      EntriesKeys(init);
      forall p | exists i :: 0 <= i < |stats| && stats[i].provider == p
        ensures p in Entries(stats)
      {
        var i :| 0 <= i < |stats| && stats[i].provider == p;
        if i < |stats| - 1 {
          assert init[i].provider == p;
        }
      }
    }
  }

  /** A row whose provider name does not occur again is reported as it is. */
  lemma {:induction false} EntriesLatestRow(stats: seq<ProviderStats>, i: int)
    requires 0 <= i < |stats|
    requires forall j :: i < j < |stats| ==> stats[j].provider != stats[i].provider
    ensures stats[i].provider in Entries(stats) && Entries(stats)[stats[i].provider] == EntryOf(stats[i])
    decreases |stats|
  {
    if i < |stats| - 1 {
      var init := stats[..|stats| - 1];
      assert init[i] == stats[i];
      EntriesLatestRow(init, i);
    }
  }

  /** The overall figures from the four totals. */
  function SummaryOf(generations: int, tokens: int, errors: int, duration: int): (s: Summary)
    ensures s.totalGenerations == generations && s.totalTokens == tokens && s.totalErrors == errors
    ensures generations <= 0 ==> s.avgDuration == 0.0
    ensures generations > 0 ==> s.avgDuration == duration as real / generations as real
    ensures s.successRate == SuccessRate(generations, errors)
  {
    var avg := if generations > 0 then duration as real / generations as real else 0.0;
    Summary(generations, tokens, avg, errors, SuccessRate(generations, errors))
  }

  /**
   * `GetStats` over the repository's answer: the sums of the counts, the
   * overall mean duration (0 with no generations), the success rate, and one
   * entry per provider name, a later row for the same name replacing an
   * earlier one. Float arithmetic is exact here.
   */
  method GetStats(stats: seq<ProviderStats>) returns (entries: map<string, StatEntry>, summary: Summary)
    ensures summary == SummaryOf(Total(stats, Generations), Total(stats, Tokens), Total(stats, Errors), Total(stats, Duration))
    ensures forall p :: p in entries <==> exists i :: 0 <= i < |stats| && stats[i].provider == p
    ensures forall i :: 0 <= i < |stats| ==>
      ((forall j :: i < j < |stats| ==> stats[j].provider != stats[i].provider)
       ==> stats[i].provider in entries && entries[stats[i].provider] == EntryOf(stats[i]))
  {
    entries := map[];
    var generations, tokens, errors, duration := 0, 0, 0, 0;
    var i := 0;
    while i < |stats|
      invariant 0 <= i <= |stats|
      invariant generations == Total(stats[..i], Generations)
      invariant tokens == Total(stats[..i], Tokens)
      invariant errors == Total(stats[..i], Errors)
      invariant duration == Total(stats[..i], Duration)
      invariant entries == Entries(stats[..i])
    {
      var s := stats[i];
      assert stats[..i + 1][..i] == stats[..i];
      generations := generations + s.totalGenerations;
      tokens := tokens + s.totalTokens;
      errors := errors + s.errorCount;
      duration := duration + DurationOf(s);
      entries := entries[s.provider := EntryOf(s)];
      i := i + 1;
    }
    assert stats[..i] == stats;
    summary := SummaryOf(generations, tokens, errors, duration);
    EntriesKeys(stats);
    forall i | 0 <= i < |stats| && forall j :: i < j < |stats| ==> stats[j].provider != stats[i].provider
      ensures stats[i].provider in entries && entries[stats[i].provider] == EntryOf(stats[i])
    {
      EntriesLatestRow(stats, i);
    }
  }

  /** Totals add up over a concatenation. */
  lemma {:induction false} TotalAppend(a: seq<ProviderStats>, b: seq<ProviderStats>, figure: Figure)
    ensures Total(a + b, figure) == Total(a, figure) + Total(b, figure)
    decreases |b|
  {
    if |b| > 0 {
      TotalAppend(a, b[..|b| - 1], figure);
      assert (a + b)[..|a + b| - 1] == a + b[..|b| - 1];
    } else {
      assert a + b == a;
    }
  }

  /** Rows whose errors never exceed their generations give an overall error total within the generation total. */
  lemma {:induction false} ErrorsWithinGenerations(stats: seq<ProviderStats>)
    requires forall i :: 0 <= i < |stats| ==> 0 <= stats[i].errorCount <= stats[i].totalGenerations
    ensures 0 <= Total(stats, Errors) <= Total(stats, Generations)
    decreases |stats|
  {
    if |stats| > 0 {
      ErrorsWithinGenerations(stats[..|stats| - 1]);
    }
  }

  /** With consistent rows the overall success rate is a percentage. */
  lemma SummaryRateIsPercentage(stats: seq<ProviderStats>, errors: int, generations: int)
    requires forall i :: 0 <= i < |stats| ==> 0 <= stats[i].errorCount <= stats[i].totalGenerations
    requires errors == Total(stats, Errors) && generations == Total(stats, Generations)
    ensures 0.0 <= SuccessRate(generations, errors) <= 100.0
  {
    ErrorsWithinGenerations(stats);
  }
}
