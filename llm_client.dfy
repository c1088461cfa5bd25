/**
 * The LLM client's bookkeeping (`LLMClient`): provider and key resolution at construction, the
 * price of a call per thousand tokens, and the running usage totals. The calls themselves go
 * over the network and are represented only by the token counts they report.
 */
module LlmClient {
  import opened Wrappers
  import opened Strings
  import Rounding

  /** Prices in dollars per thousand tokens. */
  datatype Pricing = Pricing(input: real, output: real)

  const MODEL_PRICING: map<string, Pricing> := map[
    "claude-3-5-sonnet" := Pricing(0.003, 0.015),
    "claude-3-opus" := Pricing(0.015, 0.075),
    "claude-3-haiku" := Pricing(0.00025, 0.00125),
    "gpt-4o" := Pricing(0.005, 0.015),
    "gpt-4o-mini" := Pricing(0.00015, 0.0006),
    "gpt-4-turbo" := Pricing(0.01, 0.03)
  ]

  /** The price of a model missing from the table. */
  const FALLBACK_PRICING := Pricing(0.01, 0.03)

  predicate KnownProvider(p: string) { p == "anthropic" || p == "openai" }

  /** The environment variable an unspecified key is read from. */
  function KeyVariable(provider: string): string
    requires KnownProvider(provider)
  {
    if provider == "anthropic" then "ANTHROPIC_API_KEY" else "OPENAI_API_KEY"
  }

  /** A non-empty key was given, or the provider's variable holds one. */
  predicate KeyAvailable(provider: string, apiKey: string, env: map<string, string>)
    requires KnownProvider(provider)
  {
    apiKey != "" || (KeyVariable(provider) in env && env[KeyVariable(provider)] != "")
  }

  /**
   * The key the constructor settles on: the given one when non-empty, else the provider's
   * environment variable; a missing key is refused before an unknown provider is.
   */
  function ResolveKey(provider: string, apiKey: string, env: map<string, string>): (r: Result<string>)
    ensures r.Success? <==> KnownProvider(Lower(provider)) && KeyAvailable(Lower(provider), apiKey, env)
    ensures r.Success? ==> r.value != ""
    ensures r.Success? && apiKey != "" ==> r.value == apiKey
  {
    var p := Lower(provider);
    var key := if apiKey != "" then apiKey
               else if KnownProvider(p) && KeyVariable(p) in env then env[KeyVariable(p)]
               else "";
    if key == "" then Failure("No API key provided for " + provider)
    else if !KnownProvider(p) then Failure("Unknown provider: " + provider)
    else Success(key)
  }

  /** A missing key is reported even for an unknown provider. */
  lemma MissingKeyFirst(provider: string, env: map<string, string>)
    requires !KnownProvider(Lower(provider))
    ensures ResolveKey(provider, "", env) == Failure("No API key provided for " + provider)
  {
  }

  function PricingOf(model: string): (p: Pricing)
    ensures model !in MODEL_PRICING ==> p == FALLBACK_PRICING
  {
    if model in MODEL_PRICING then MODEL_PRICING[model] else FALLBACK_PRICING
  }

  /** `_calculate_cost(input_tokens, output_tokens)` */
  function CalculateCost(model: string, inTokens: int, outTokens: int): real {
    (inTokens as real / 1000.0) * PricingOf(model).input
      + (outTokens as real / 1000.0) * PricingOf(model).output
  }

  /** A call's cost adds up over its parts: two calls cost what their summed tokens cost. */
  lemma CostAdditive(model: string, i1: int, o1: int, i2: int, o2: int)
    ensures CalculateCost(model, i1, o1) + CalculateCost(model, i2, o2)
            == CalculateCost(model, i1 + i2, o1 + o2)
  {
  }

  /** Prices are non-negative, so a call never has negative cost. */
  lemma CostNonNegative(model: string, inTokens: nat, outTokens: nat)
    ensures CalculateCost(model, inTokens, outTokens) >= 0.0
  {
    var p := PricingOf(model);
    assert p.input >= 0.0 && p.output >= 0.0;
    assert (inTokens as real / 1000.0) * p.input >= 0.0;
    assert (outTokens as real / 1000.0) * p.output >= 0.0;
  }

  /** The summary `get_usage` reports. */
  datatype Usage = Usage(totalInputTokens: int, totalOutputTokens: int, totalCost: real,
                         model: string, provider: string)

  class Client {
    var provider: string
    var model: string
    var apiKey: string
    var totalInputTokens: int
    var totalOutputTokens: int
    var totalCost: real

    /** `LLMClient.__init__`, for arguments `ResolveKey` accepts. */
    constructor (provider: string, model: string, apiKey: string, env: map<string, string>)
      requires ResolveKey(provider, apiKey, env).Success?
      ensures this.provider == Lower(provider) && KnownProvider(this.provider)
      ensures this.model == model
      ensures this.apiKey == ResolveKey(provider, apiKey, env).value
      ensures totalInputTokens == 0 && totalOutputTokens == 0 && totalCost == 0.0
    {
      this.provider := Lower(provider);
      this.model := model;
      this.apiKey := ResolveKey(provider, apiKey, env).value;
      totalInputTokens := 0;
      totalOutputTokens := 0;
      totalCost := 0.0;
    }

    /** The accounting step of `generate`, given the usage the provider reported. */
    method RecordCall(inTokens: int, outTokens: int) returns (cost: real)
      modifies this
      ensures cost == CalculateCost(model, inTokens, outTokens)
      ensures totalInputTokens == old(totalInputTokens) + inTokens
      ensures totalOutputTokens == old(totalOutputTokens) + outTokens
      ensures totalCost == old(totalCost) + cost
      ensures provider == old(provider) && model == old(model) && apiKey == old(apiKey)
    {
      cost := CalculateCost(model, inTokens, outTokens);
      totalInputTokens := totalInputTokens + inTokens;
      totalOutputTokens := totalOutputTokens + outTokens;
      totalCost := totalCost + cost;
    }

    /** `get_usage()`: the totals, the cost rounded to a hundredth of a cent. */
    function GetUsage(): (u: Usage)
      reads this
      ensures u.totalInputTokens == totalInputTokens && u.totalOutputTokens == totalOutputTokens
      ensures u.model == model && u.provider == provider
      ensures u.totalCost == Rounding.Round(totalCost, 4)
      ensures Rounding.Abs(Rounding.Scaled(u.totalCost, 4) - Rounding.Scaled(totalCost, 4)) <= 0.5
    {
      Rounding.RoundMeaning(totalCost, 4, 0);
      Usage(totalInputTokens, totalOutputTokens, Rounding.Round(totalCost, 4), model, provider)
    }
  }

  /**
   * The totals after a sequence of calls on a fresh client: the summed tokens, priced as one
   * call; `RecordCall` adds one call's tokens and cost to these totals.
   */
  function Totals(model: string, calls: seq<(int, int)>): (u: (int, int, real))
    ensures u.2 == CalculateCost(model, u.0, u.1)
  {
    if |calls| == 0 then (0, 0, 0.0)
    else
      var t := Totals(model, calls[..|calls| - 1]);
      var c := calls[|calls| - 1];
      CostAdditive(model, t.0, t.1, c.0, c.1);
      (t.0 + c.0, t.1 + c.1, t.2 + CalculateCost(model, c.0, c.1))
  }
}
