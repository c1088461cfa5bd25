/**
 * The cost calculator (`CostCalculator`): estimates of daily and monthly spend from activity
 * rates, and running usage totals checked against optional daily and monthly limits.
 */
module CostCalculator {
  import opened Wrappers
  import Sorting

  /** Prices in dollars per thousand tokens. */
  datatype Price = Price(input: real, output: real)

  const MODEL_COSTS: map<string, Price> := map[
    "claude-3-5-sonnet" := Price(0.003, 0.015),
    "claude-3-opus" := Price(0.015, 0.075),
    "claude-3-haiku" := Price(0.00025, 0.00125),
    "gpt-4o" := Price(0.005, 0.015),
    "gpt-4o-mini" := Price(0.00015, 0.0006),
    "gpt-4-turbo" := Price(0.01, 0.03)
  ]

  /** The models in the table's own order, the order `compare_models` visits them in. */
  const MODELS: seq<string> :=
    ["claude-3-5-sonnet", "claude-3-opus", "claude-3-haiku", "gpt-4o", "gpt-4o-mini", "gpt-4-turbo"]

  lemma ModelsAreTheTable()
    ensures forall m :: m in MODELS <==> m in MODEL_COSTS
  {
  }

  /** Estimated tokens per activity. */
  datatype Tokens = Tokens(input: int, output: int)
  const POST := Tokens(2000, 500)
  const COMMENT := Tokens(1500, 300)
  const READ := Tokens(500, 50)

  /** What `estimate` returns, without rounding. */
  datatype Estimate = Estimate(model: string, dailyCost: real, monthlyCost: real,
                               postsPerDay: int, commentsPerDay: int, tokensPerDay: int,
                               postsCost: real, commentsCost: real, readsCost: real)

  /** The cost of `n` activities of one kind on the price `p`. */
  function ActivityCost(n: int, t: Tokens, p: Price): real {
    n as real * (t.input as real * p.input + t.output as real * p.output) / 1000.0
  }

  /** `CostCalculator(model).estimate(posts, comments, reads)` */
  function EstimateFor(model: string, posts: int, comments: int, readsPerDay: int): (e: Estimate)
    requires model in MODEL_COSTS
    ensures e.monthlyCost == 30.0 * e.dailyCost
    ensures e.dailyCost == e.postsCost + e.commentsCost + e.readsCost
    ensures e.tokensPerDay == 2500 * posts + 1800 * comments + 550 * readsPerDay
  {
    var p := MODEL_COSTS[model];
    var inTokens := posts * POST.input + comments * COMMENT.input + readsPerDay * READ.input;
    var outTokens := posts * POST.output + comments * COMMENT.output + readsPerDay * READ.output;
    var daily := (inTokens as real / 1000.0) * p.input + (outTokens as real / 1000.0) * p.output;
    var total := posts * (POST.input + POST.output) + comments * (COMMENT.input + COMMENT.output)
                 + readsPerDay * (READ.input + READ.output);
    Estimate(model, daily, daily * 30.0, posts, comments, total,
             ActivityCost(posts, POST, p), ActivityCost(comments, COMMENT, p),
             ActivityCost(readsPerDay, READ, p))
  }

  /** No activity costs nothing. */
  lemma NoActivityIsFree(model: string)
    requires model in MODEL_COSTS
    ensures EstimateFor(model, 0, 0, 0).monthlyCost == 0.0
  {
  }

  /** For the same non-zero activity, haiku is cheaper than sonnet and sonnet than opus. */
  lemma ClaudeModelsOrdered(posts: nat, comments: nat, readsPerDay: nat)
    requires posts + comments + readsPerDay > 0
    ensures EstimateFor("claude-3-haiku", posts, comments, readsPerDay).monthlyCost
            < EstimateFor("claude-3-5-sonnet", posts, comments, readsPerDay).monthlyCost
            < EstimateFor("claude-3-opus", posts, comments, readsPerDay).monthlyCost
  {
    var i := (posts * 2000 + comments * 1500 + readsPerDay * 500) as real / 1000.0;
    var o := (posts * 500 + comments * 300 + readsPerDay * 50) as real / 1000.0;
    assert i > 0.0 && o > 0.0;
    assert i * 0.00025 + o * 0.00125 < i * 0.003 + o * 0.015 < i * 0.015 + o * 0.075;
  }

  /** A limit counts only when it is set and non-zero, as Python's truth test reads it. */
  predicate IsSet(limit: Option<real>) {
    limit.Some? && limit.value != 0.0
  }

  /** The budget is broken when a set limit has been reached. */
  predicate BudgetOk(today: real, month: real, daily: Option<real>, monthly: Option<real>) {
    && !(IsSet(daily) && today >= daily.value)
    && !(IsSet(monthly) && month >= monthly.value)
  }

  /** The warnings of `track_usage`, in the order it adds them. */
  function Warnings(today: real, month: real, daily: Option<real>, monthly: Option<real>)
    : (w: seq<string>)
    ensures |w| <= 3
    ensures "Daily budget exceeded" in w <==> IsSet(daily) && today >= daily.value
    ensures "Monthly budget exceeded" in w <==> IsSet(monthly) && month >= monthly.value
    ensures BudgetOk(today, month, daily, monthly) ==> |w| <= 1
  {
    (if IsSet(daily) && today > daily.value * 0.8 then ["Approaching daily limit"] else [])
    + (if IsSet(daily) && today >= daily.value then ["Daily budget exceeded"] else [])
    + (if IsSet(monthly) && month >= monthly.value then ["Monthly budget exceeded"] else [])
  }

  /** The result of `track_usage`, without rounding. */
  datatype UsageReport = UsageReport(cost: real, todayTotal: real, monthTotal: real,
                                     budgetOk: bool, warnings: seq<string>)

  /** The result of `check_budget`; a remaining amount is reported only for a set limit. */
  datatype BudgetStatus = BudgetStatus(today: real, month: real,
                                       dailyLimit: Option<real>, monthlyLimit: Option<real>,
                                       dailyRemaining: Option<real>, monthlyRemaining: Option<real>)

  function Remaining(limit: Option<real>, used: real): (r: Option<real>)
    ensures r.Some? <==> IsSet(limit)
    ensures r.Some? ==> r.value + used == limit.value
  {
    if IsSet(limit) then Some(limit.value - used) else None
  }

  /** A reached daily limit shows as no daily allowance left, and breaks the budget. */
  lemma ReachedDailyLimit(today: real, month: real, daily: Option<real>, monthly: Option<real>)
    requires IsSet(daily) && today >= daily.value
    ensures Remaining(daily, today).value <= 0.0
    ensures !BudgetOk(today, month, daily, monthly)
  {
  }

  /** The budget holds while every set limit has a positive amount remaining. */
  lemma BudgetOkIffRemaining(today: real, month: real, daily: Option<real>, monthly: Option<real>)
    ensures BudgetOk(today, month, daily, monthly) <==>
      (Remaining(daily, today).None? || Remaining(daily, today).value > 0.0) &&
      (Remaining(monthly, month).None? || Remaining(monthly, month).value > 0.0)
  {
  }

  /** `CostCalculator(model)` refuses a model outside the table. */
  function CheckModel(model: string): (r: Result<Price>)
    ensures r.Success? <==> model in MODEL_COSTS
    ensures r.Success? ==> r.value == MODEL_COSTS[model]
  {
    if model in MODEL_COSTS then Success(MODEL_COSTS[model])
    else Failure("Unknown model: " + model)
  }

  class Calculator {
    var model: string
    var monthlyLimit: Option<real>
    var dailyLimit: Option<real>
    var usageToday: real
    var usageMonth: real

    predicate Valid()
      reads this
    {
      model in MODEL_COSTS
    }

    constructor (model: string)
      requires CheckModel(model).Success?
      ensures Valid() && this.model == model
      ensures monthlyLimit == None && dailyLimit == None
      ensures usageToday == 0.0 && usageMonth == 0.0
    {
      this.model := model;
      monthlyLimit := None;
      dailyLimit := None;
      usageToday := 0.0;
      usageMonth := 0.0;
    }

    /** `set_budget(monthly_limit, daily_limit)`: both limits are overwritten. */
    method SetBudget(monthly: Option<real>, daily: Option<real>)
      modifies this
      ensures monthlyLimit == monthly && dailyLimit == daily
      ensures model == old(model) && usageToday == old(usageToday) && usageMonth == old(usageMonth)
    {
      monthlyLimit := monthly;
      dailyLimit := daily;
    }

    /** `track_usage(input_tokens, output_tokens)`; the day's total is never reset here. */
    method TrackUsage(inTokens: int, outTokens: int) returns (r: UsageReport)
      requires Valid()
      modifies this
      ensures Valid() && model == old(model)
      ensures monthlyLimit == old(monthlyLimit) && dailyLimit == old(dailyLimit)
      ensures r.cost == (inTokens as real / 1000.0) * MODEL_COSTS[model].input
                        + (outTokens as real / 1000.0) * MODEL_COSTS[model].output
      ensures usageToday == old(usageToday) + r.cost && usageMonth == old(usageMonth) + r.cost
      ensures r.todayTotal == usageToday && r.monthTotal == usageMonth
      ensures r.budgetOk == BudgetOk(usageToday, usageMonth, dailyLimit, monthlyLimit)
      ensures r.warnings == Warnings(usageToday, usageMonth, dailyLimit, monthlyLimit)
    {
      var p := MODEL_COSTS[model];
      var cost := (inTokens as real / 1000.0) * p.input + (outTokens as real / 1000.0) * p.output;
      usageToday := usageToday + cost;
      usageMonth := usageMonth + cost;
      var ok := true;
      var warnings: seq<string> := [];
      if IsSet(dailyLimit) && usageToday > dailyLimit.value * 0.8 {
        warnings := warnings + ["Approaching daily limit"];
      }
      if IsSet(dailyLimit) && usageToday >= dailyLimit.value {
        ok := false;
        warnings := warnings + ["Daily budget exceeded"];
      }
      if IsSet(monthlyLimit) && usageMonth >= monthlyLimit.value {
        ok := false;
        warnings := warnings + ["Monthly budget exceeded"];
      }
      r := UsageReport(cost, usageToday, usageMonth, ok, warnings);
    }

    /** `check_budget()` */
    function CheckBudget(): (b: BudgetStatus)
      reads this
      ensures b.dailyRemaining == Remaining(dailyLimit, usageToday)
      ensures b.monthlyRemaining == Remaining(monthlyLimit, usageMonth)
      ensures b.today == usageToday && b.month == usageMonth
      ensures b.dailyLimit == dailyLimit && b.monthlyLimit == monthlyLimit
    {
      BudgetStatus(usageToday, usageMonth, dailyLimit, monthlyLimit,
                   Remaining(dailyLimit, usageToday), Remaining(monthlyLimit, usageMonth))
    }
  }

  /**
   * As written, a limit of 0 counts as no limit at all (the truth test reads 0.0 as false), so a
   * calculator told to spend nothing never reports the budget broken.
   */
  lemma ZeroLimitUnsetAsWritten(today: real, month: real)
    requires today > 0.0 && month > 0.0
    ensures BudgetOk(today, month, Some(0.0), Some(0.0))
    ensures Warnings(today, month, Some(0.0), Some(0.0)) == []
  {
  }

  /** A limit given as `Optional[float]` evidently counts whenever it is given, 0 included. */
  predicate BudgetOkIntended(today: real, month: real, daily: Option<real>, monthly: Option<real>) {
    && !(daily.Some? && today >= daily.value)
    && !(monthly.Some? && month >= monthly.value)
  }

  /** With the intended reading, a limit of 0 is broken by any spending. */
  lemma ZeroLimitBlocksIntended(today: real, month: real, monthly: Option<real>)
    requires today >= 0.0
    ensures !BudgetOkIntended(today, month, Some(0.0), monthly)
  {
  }

  /** The two readings differ only on a limit of 0, where the intended one is stricter. */
  lemma BudgetOkReadings(today: real, month: real, daily: Option<real>, monthly: Option<real>)
    ensures BudgetOkIntended(today, month, daily, monthly) ==> BudgetOk(today, month, daily, monthly)
    ensures daily != Some(0.0) && monthly != Some(0.0) ==>
      (BudgetOkIntended(today, month, daily, monthly) <==> BudgetOk(today, month, daily, monthly))
  {
  }

  /** Tracked calls, each with the day it was made on (whole days since the epoch) and its cost. */
  type Call = (int, real)

  predicate DaysInOrder(calls: seq<Call>) {
    forall i, j :: 0 <= i < j < |calls| ==> calls[i].0 <= calls[j].0
  }

  /** The cost of the calls made on `day`. */
  function SpentOn(calls: seq<Call>, day: int): real {
    if |calls| == 0 then 0.0
    else SpentOn(calls[..|calls| - 1], day) + (if calls[|calls| - 1].0 == day then calls[|calls| - 1].1 else 0.0)
  }

  /**
   * As written, the day's total after a run of `track_usage` calls on a fresh calculator: each
   * call adds its cost, and nothing ever takes yesterday's away.
   */
  function TodayAsWritten(calls: seq<Call>): (t: real)
    ensures (forall i :: 0 <= i < |calls| ==> calls[i].0 == 0) ==> t == SpentOn(calls, 0)
  {
    if |calls| == 0 then 0.0
    else
      var init := calls[..|calls| - 1];
      assert forall i :: 0 <= i < |init| ==> init[i] == calls[i];
      TodayAsWritten(init) + calls[|calls| - 1].1
  }

  /** Spending a whole daily limit on day 0 leaves the budget broken on day 1, before anything is spent. */
  lemma YesterdayCountsAsWritten()
    ensures TodayAsWritten([(0, 1.0), (1, 0.0)]) == 1.0
    ensures !BudgetOk(TodayAsWritten([(0, 1.0), (1, 0.0)]), 1.0, Some(1.0), None)
  {
    var calls: seq<Call> := [(0, 1.0), (1, 0.0)];
    assert calls[..1] == [(0, 1.0)] && calls[..1][..0] == [];
  }

  /** The day's total the name promises: reset to the call's own cost when a new day begins. */
  function Today(calls: seq<Call>): real {
    if |calls| == 0 then 0.0
    else if |calls| > 1 && calls[|calls| - 2].0 == calls[|calls| - 1].0 then
      Today(calls[..|calls| - 1]) + calls[|calls| - 1].1
    else calls[|calls| - 1].1
  }

  /** With calls in day order, the day's total is what was spent on the last call's day. */
  lemma {:induction false} TodayIsLastDaySpend(calls: seq<Call>)
    requires |calls| > 0 && DaysInOrder(calls)
    ensures Today(calls) == SpentOn(calls, calls[|calls| - 1].0)
  {
    var n := |calls|;
    var d := calls[n - 1].0;
    var init := calls[..n - 1];
    if n == 1 {
      assert SpentOn(init, d) == 0.0;
    } else if calls[n - 2].0 == d {
      assert init[|init| - 1] == calls[n - 2];
      TodayIsLastDaySpend(init);
    } else {
      assert forall i :: 0 <= i < |init| ==> init[i].0 <= calls[n - 2].0 < d;
      SpentOnNone(init, d);
    }
  }

  /** Nothing is spent on a day no call was made on. */
  lemma {:induction false} SpentOnNone(calls: seq<Call>, day: int)
    requires forall i :: 0 <= i < |calls| ==> calls[i].0 != day
    ensures SpentOn(calls, day) == 0.0
  {
    if |calls| > 0 {
      var init := calls[..|calls| - 1];
      assert forall i :: 0 <= i < |init| ==> init[i] == calls[i];
      SpentOnNone(init, day);
    }
  }

  /** The day after spending the whole limit, the intended total starts again from nothing. */
  lemma NewDayResetsIntended()
    ensures Today([(0, 1.0), (1, 0.0)]) == 0.0
    ensures BudgetOk(Today([(0, 1.0), (1, 0.0)]), 1.0, Some(1.0), None)
  {
  }

  /** `compare_models(posts, comments)`: every model with its monthly estimate, cheapest first. */
  function CompareModels(posts: int, comments: int): (r: seq<(string, real)>)
    ensures multiset(r) == multiset(seq(|MODELS|, i requires 0 <= i < |MODELS| =>
              (MODELS[i], EstimateFor(MODELS[i], posts, comments, 50).monthlyCost)))
    ensures forall i, j :: 0 <= i < j < |r| ==> r[i].1 <= r[j].1
  {
    var rows := seq(|MODELS|, i requires 0 <= i < |MODELS| =>
                  (MODELS[i], EstimateFor(MODELS[i], posts, comments, 50).monthlyCost));
    CostOrder();
    Sorting.Sort(rows, ByCost)
  }

  predicate ByCost(a: (string, real), b: (string, real)) { a.1 <= b.1 }

  lemma CostOrder()
    ensures Sorting.TotalPreorder(ByCost)
  {
  }

  /** `compare_models` lists each model exactly once. */
  lemma CompareModelsListsAll(posts: int, comments: int, m: string)
    requires m in MODEL_COSTS
    ensures exists i :: 0 <= i < |CompareModels(posts, comments)| && CompareModels(posts, comments)[i].0 == m
  {
    var rows := seq(|MODELS|, i requires 0 <= i < |MODELS| =>
                  (MODELS[i], EstimateFor(MODELS[i], posts, comments, 50).monthlyCost));
    var r := CompareModels(posts, comments);
    ModelsAreTheTable();
    var k :| 0 <= k < |MODELS| && MODELS[k] == m;
    assert rows[k] in multiset(rows);
    assert rows[k] in multiset(r);
    var i :| 0 <= i < |r| && r[i] == rows[k];
  }
}
