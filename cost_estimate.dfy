/**
 * The `moltbook cost estimate` arithmetic: token use per day from the posting and reply rates,
 * priced per million tokens, and the month as thirty days.
 */
module CostEstimate {
  /** Prices in dollars per million tokens. */
  datatype Price = Price(input: real, output: real)

  const DEFAULT_MODEL := "claude-3-5-sonnet"

  const MODEL_COSTS: map<string, Price> := map[
    "claude-3-5-sonnet" := Price(3.00, 15.00),
    "claude-3-opus" := Price(15.00, 75.00),
    "claude-3-haiku" := Price(0.25, 1.25),
    "gpt-4o" := Price(2.50, 10.00),
    "gpt-4o-mini" := Price(0.15, 0.60),
    "gpt-4-turbo" := Price(10.00, 30.00)
  ]

  /** Average tokens per interaction. */
  const POST_READ := 500
  const POST_WRITE := 300
  const COMMENT_READ := 200
  const COMMENT_WRITE := 150
  const SYSTEM_PROMPT := 1000

  /** One column of the estimate (a day or a month). */
  datatype Figures = Figures(inputTokens: int, outputTokens: int,
                             inputCost: real, outputCost: real, total: real)

  datatype Estimate = Estimate(model: string, daily: Figures, monthly: Figures)

  /** The model actually priced: unknown models fall back to the default. */
  function PricedModel(model: string): (m: string)
    ensures m in MODEL_COSTS
    ensures model in MODEL_COSTS ==> m == model
  {
    if model in MODEL_COSTS then model else DEFAULT_MODEL
  }

  function Thirty(f: Figures): Figures {
    Figures(f.inputTokens * 30, f.outputTokens * 30, f.inputCost * 30.0, f.outputCost * 30.0,
            f.total * 30.0)
  }

  /** `estimate_costs(posts_per_day, replies_per_day, model)` */
  function EstimateCosts(posts: int, replies: int, model: string): (e: Estimate)
    ensures e.model == PricedModel(model)
    ensures e.daily.inputTokens == 1500 * posts + 1200 * replies
    ensures e.daily.outputTokens == 300 * posts + 150 * replies
    ensures e.daily.total == e.daily.inputCost + e.daily.outputCost
    ensures e.monthly.inputTokens == 30 * e.daily.inputTokens
    ensures e.monthly.outputTokens == 30 * e.daily.outputTokens
    ensures e.monthly.inputCost == 30.0 * e.daily.inputCost
    ensures e.monthly.outputCost == 30.0 * e.daily.outputCost
    ensures e.monthly.total == 30.0 * e.daily.total
  {
    var m := PricedModel(model);
    var price := MODEL_COSTS[m];
    var inTokens := posts * (POST_READ + SYSTEM_PROMPT) + replies * (COMMENT_READ + SYSTEM_PROMPT);
    var outTokens := posts * POST_WRITE + replies * COMMENT_WRITE;
    var inCost := (inTokens as real / 1000000.0) * price.input;
    var outCost := (outTokens as real / 1000000.0) * price.output;
    var daily := Figures(inTokens, outTokens, inCost, outCost, inCost + outCost);
    Estimate(m, daily, Thirty(daily))
  }

  /** No activity costs nothing, whatever the model. */
  lemma NoActivityIsFree(model: string)
    ensures EstimateCosts(0, 0, model).monthly.total == 0.0
  {
  }

  /** The daily total is the priced token counts of the model actually used. */
  lemma DailyTotalPriced(posts: int, replies: int, model: string)
    ensures var e := EstimateCosts(posts, replies, model);
            var p := MODEL_COSTS[e.model];
            e.daily.total == e.daily.inputTokens as real * p.input / 1000000.0
                             + e.daily.outputTokens as real * p.output / 1000000.0
  {
  }

  /** More posts or replies never cost less, on any model. */
  lemma EstimateMonotone(p1: nat, r1: nat, p2: nat, r2: nat, model: string)
    requires p1 <= p2 && r1 <= r2
    ensures EstimateCosts(p1, r1, model).monthly.total <= EstimateCosts(p2, r2, model).monthly.total
  {
    var price := MODEL_COSTS[PricedModel(model)];
    assert price.input >= 0.0 && price.output >= 0.0;
    var i1, i2 := (1500 * p1 + 1200 * r1) as real, (1500 * p2 + 1200 * r2) as real;
    var o1, o2 := (300 * p1 + 150 * r1) as real, (300 * p2 + 150 * r2) as real;
    assert i1 / 1000000.0 * price.input <= i2 / 1000000.0 * price.input;
    assert o1 / 1000000.0 * price.output <= o2 / 1000000.0 * price.output;
  }

  /** For the same activity haiku is cheaper than sonnet, and sonnet than opus. */
  lemma ClaudeModelsOrdered(posts: nat, replies: nat)
    requires posts + replies > 0
    ensures EstimateCosts(posts, replies, "claude-3-haiku").daily.total
            < EstimateCosts(posts, replies, "claude-3-5-sonnet").daily.total
            < EstimateCosts(posts, replies, "claude-3-opus").daily.total
  {
    var i := (1500 * posts + 1200 * replies) as real / 1000000.0;
    var o := (300 * posts + 150 * replies) as real / 1000000.0;
    assert i > 0.0 && o > 0.0;
    assert i * 0.25 + o * 1.25 < i * 3.00 + o * 15.00 < i * 15.00 + o * 75.00;
  }
}
