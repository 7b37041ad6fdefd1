/** Trade-plan arithmetic shared by both plan calculators (app/planner/page.tsx
    and app/page.tsx carry identical copies of it): risk multiplier, target
    and stop percentages, entry/exit/stop prices, fees, funding cost, profit
    and the duration bucket. */
module PlanMath {
  import opened TradingTypes

  /** 0.5 for "low", 1 for "medium", 1.5 for any other value. */
  function RiskMultiplier(riskTolerance: string): (m: real)
    ensures m == 0.5 <==> riskTolerance == "low"
    ensures m == 1.0 <==> riskTolerance == "medium"
    ensures m == 1.5 <==> riskTolerance != "low" && riskTolerance != "medium"
  {
    if riskTolerance == "low" then 0.5 else if riskTolerance == "medium" then 1.0 else 1.5
  }

  /** The user's expected profit when the field is filled in (even with 0),
      otherwise 0.3% + 0.2% per unit of risk multiplier. */
  function TargetProfitPercent(expected: Option<real>, riskMultiplier: real): (t: real)
    ensures expected.Some? ==> t == expected.value
  {
    if expected.Some? then expected.value else 0.3 + riskMultiplier * 0.2
  }

  /** Without an expected profit the target is 0.4%, 0.5% or 0.6% by risk level. */
  lemma DefaultTargets(riskTolerance: string)
    ensures riskTolerance == "low" ==> TargetProfitPercent(None, RiskMultiplier(riskTolerance)) == 0.4
    ensures riskTolerance == "medium" ==> TargetProfitPercent(None, RiskMultiplier(riskTolerance)) == 0.5
    ensures riskTolerance != "low" && riskTolerance != "medium" ==>
      TargetProfitPercent(None, RiskMultiplier(riskTolerance)) == 0.6
  {
  }

  function StopLossPercent(target: real): real {
    target * 0.6
  }

  /** target / stop. JavaScript yields NaN for a zero target; that is `None`. */
  function RiskReward(target: real): (r: Option<real>)
    ensures r.None? <==> target == 0.0
    ensures r.Some? ==> r.value == 5.0 / 3.0
  {
    if target == 0.0 then None
    else
      var stop := StopLossPercent(target);
      assert stop != 0.0 && (5.0 / 3.0) * stop == target;
      QuotientOf(target, stop, 5.0 / 3.0);
      Some(target / stop)
  }

  /** x / y is the z with z * y == x. */
  lemma QuotientOf(x: real, y: real, z: real)
    requires y != 0.0 && z * y == x
    ensures x / y == z
  {
  }

  function ExitPrice(direction: Direction, entry: real, target: real): real {
    if direction == Long then entry * (1.0 + target / 100.0) else entry * (1.0 - target / 100.0)
  }

  function StopLossPrice(direction: Direction, entry: real, stopPercent: real): real {
    if direction == Long then entry * (1.0 - stopPercent / 100.0) else entry * (1.0 + stopPercent / 100.0)
  }

  /** Exit and stop lie on opposite sides of the entry: LONG stop < entry <
      exit, SHORT exit < entry < stop, for a positive entry and a target
      between 0 and 500/3 % (so that the stop percentage stays below 100). */
  lemma PricesBracketEntry(direction: Direction, entry: real, target: real)
    requires entry > 0.0 && 0.0 < target < 500.0 / 3.0
    ensures direction == Long ==>
      StopLossPrice(direction, entry, StopLossPercent(target)) < entry < ExitPrice(direction, entry, target)
    ensures direction == Short ==>
      ExitPrice(direction, entry, target) < entry < StopLossPrice(direction, entry, StopLossPercent(target))
  {
    var up := entry * (target / 100.0);
    var down := entry * (StopLossPercent(target) / 100.0);
    assert 0.0 < StopLossPercent(target) / 100.0 < 1.0;
    assert up > 0.0 && down > 0.0;
    assert entry * (1.0 + target / 100.0) == entry + up;
    assert entry * (1.0 - target / 100.0) == entry - up;
    assert entry * (1.0 - StopLossPercent(target) / 100.0) == entry - down;
    assert entry * (1.0 + StopLossPercent(target) / 100.0) == entry + down;
  }

  /** Round-trip taker fee, 0.04% per side of the leveraged notional. */
  function TotalFees(investment: real, leverage: real): real {
    investment * leverage * 0.0004 * 2.0
  }

  /** About one 8-hour funding interval on the leveraged notional. */
  function FundingCost(fundingRate: real, investment: real, leverage: real): real {
    Abs(fundingRate) * investment * leverage * 0.33
  }

  function GrossProfit(investment: real, leverage: real, target: real): real {
    (investment * leverage * target) / 100.0
  }

  function NetProfit(investment: real, leverage: real, target: real, fundingRate: real): real {
    GrossProfit(investment, leverage, target) - TotalFees(investment, leverage) - FundingCost(fundingRate, investment, leverage)
  }

  /** For non-negative stakes, fees and funding are costs: both non-negative,
      so the net never exceeds the gross. */
  lemma CostsReduceProfit(investment: real, leverage: real, target: real, fundingRate: real)
    requires investment >= 0.0 && leverage >= 0.0
    ensures TotalFees(investment, leverage) == investment * leverage * 0.0008
    ensures TotalFees(investment, leverage) >= 0.0
    ensures FundingCost(fundingRate, investment, leverage) >= 0.0
    ensures NetProfit(investment, leverage, target, fundingRate) <= GrossProfit(investment, leverage, target)
  {
    var notional := investment * leverage;
    assert notional >= 0.0;
    assert Abs(fundingRate) * investment * leverage == Abs(fundingRate) * notional;
    assert Abs(fundingRate) * notional >= 0.0;
  }

  datatype DurationBucket = ThreeToEight | EightToFifteen | FifteenToThirty

  /** "3-8 min" on volatility above 3% or a rising volume trend, "8-15 min"
      above 1.5%, otherwise "15-30 min". */
  function EstimatedDuration(volatility: real, volumeTrend: Option<string>): (b: DurationBucket)
    ensures b == ThreeToEight <==> volatility > 3.0 || volumeTrend == Some("INCREASING")
    ensures b == EightToFifteen <==> !(volatility > 3.0 || volumeTrend == Some("INCREASING")) && volatility > 1.5
  {
    if volatility > 3.0 || volumeTrend == Some("INCREASING") then ThreeToEight
    else if volatility > 1.5 then EightToFifteen
    else FifteenToThirty
  }

  function BucketRank(b: DurationBucket): nat {
    match b
    case ThreeToEight => 0
    case EightToFifteen => 1
    case FifteenToThirty => 2
  }

  /** More volatility never predicts a slower trade. */
  lemma DurationMonotone(v1: real, v2: real, volumeTrend: Option<string>)
    requires v1 <= v2
    ensures BucketRank(EstimatedDuration(v2, volumeTrend)) <= BucketRank(EstimatedDuration(v1, volumeTrend))
  {
  }

  function Clamp(x: real, lo: real, hi: real): (r: real)
    requires lo <= hi
    ensures lo <= r <= hi
    ensures lo <= x <= hi ==> r == x
  {
    if x > hi then hi else if x < lo then lo else x
  }

  datatype ScalpingPlan = ScalpingPlan(
    symbol: string,
    direction: Direction,
    entryPrice: real,
    exitPrice: real,
    stopLoss: real,
    leverage: real,
    investment: real,
    expectedProfit: real,
    riskReward: Option<real>,
    duration: DurationBucket,
    successRate: real,
    fees: real,
    netProfit: real,
    fundingCost: real)

  /** The plan record built by `calculateScalpingPlan` once the direction and
      the success rate are known. A missing funding rate reads as "0". */
  function AssemblePlan(q: Quote, direction: Direction, riskTolerance: string, expected: Option<real>,
                        investment: real, leverage: real, volumeTrend: Option<string>, successRate: real): (p: ScalpingPlan)
    ensures p.symbol == q.symbol && p.direction == direction && p.entryPrice == q.price
    ensures p.leverage == leverage && p.investment == investment && p.successRate == successRate
    ensures var t := TargetProfitPercent(expected, RiskMultiplier(riskTolerance));
      && (t != 0.0 ==> p.riskReward == Some(5.0 / 3.0))
      && (q.price > 0.0 && 0.0 < t < 500.0 / 3.0 ==>
            (direction == Long ==> p.stopLoss < p.entryPrice < p.exitPrice)
            && (direction == Short ==> p.exitPrice < p.entryPrice < p.stopLoss))
    ensures investment >= 0.0 && leverage >= 0.0 ==>
      p.fees >= 0.0 && p.fundingCost >= 0.0 && p.netProfit == p.expectedProfit - p.fees - p.fundingCost
      && p.netProfit <= p.expectedProfit
    ensures p.duration == EstimatedDuration(Abs(q.priceChangePercent), volumeTrend)
    ensures var t := TargetProfitPercent(expected, RiskMultiplier(riskTolerance));
      && p.exitPrice == ExitPrice(direction, q.price, t)
      && p.stopLoss == StopLossPrice(direction, q.price, StopLossPercent(t))
      && p.expectedProfit == GrossProfit(investment, leverage, t)
      && p.netProfit == NetProfit(investment, leverage, t, q.fundingRate.GetOr(0.0))
    ensures p.fees == TotalFees(investment, leverage)
    ensures p.fundingCost == FundingCost(q.fundingRate.GetOr(0.0), investment, leverage)
  {
    var fundingRate := q.fundingRate.GetOr(0.0);
    var riskMultiplier := RiskMultiplier(riskTolerance);
    var target := TargetProfitPercent(expected, riskMultiplier);
    var stopPercent := StopLossPercent(target);
    assert q.price > 0.0 && 0.0 < target < 500.0 / 3.0 ==>
      (direction == Long ==> StopLossPrice(direction, q.price, stopPercent) < q.price < ExitPrice(direction, q.price, target))
      && (direction == Short ==> ExitPrice(direction, q.price, target) < q.price < StopLossPrice(direction, q.price, stopPercent))
    by {
      if q.price > 0.0 && 0.0 < target < 500.0 / 3.0 { PricesBracketEntry(direction, q.price, target); }
    }
    assert investment >= 0.0 && leverage >= 0.0 ==>
      TotalFees(investment, leverage) >= 0.0 && FundingCost(fundingRate, investment, leverage) >= 0.0
    by {
      if investment >= 0.0 && leverage >= 0.0 { CostsReduceProfit(investment, leverage, target, fundingRate); }
    }
    ScalpingPlan(
      q.symbol, direction, q.price,
      ExitPrice(direction, q.price, target),
      StopLossPrice(direction, q.price, stopPercent),
      leverage, investment,
      GrossProfit(investment, leverage, target),
      RiskReward(target),
      EstimatedDuration(Abs(q.priceChangePercent), volumeTrend),
      successRate,
      TotalFees(investment, leverage),
      NetProfit(investment, leverage, target, fundingRate),
      FundingCost(fundingRate, investment, leverage))
  }
}
