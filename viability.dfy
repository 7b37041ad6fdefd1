/** The analysis route of the dashboard (app/api/ai-analysis/route.ts): the
    viability gate for one asset, the opportunity scorer and the best-asset
    selection, the market-wide blocking reason, the deterministic fallback and
    the request routing. Free text (explanations, prompts) is represented by
    the structured facts it is built from. */
module AiAnalysis {
  import opened TradingTypes

  /** The user's constraints. `None` stands for null, an empty field or "auto".
      Following JavaScript truthiness, a timeframe or expected profit of 0 is
      treated as absent by every rule below. */
  datatype Constraints = Constraints(
    timeframe: Option<int>,
    direction: Option<Direction>,
    expectedProfitPercent: Option<real>)

  /** What the gate reads about one asset. */
  datatype ViabilityRequest = ViabilityRequest(
    priceChange: real,
    rsi: Option<real>,
    macdTrend: Option<string>,
    fundingRate: Option<real>,
    params: Constraints)

  datatype BlockingFactor =
    | ExtremeOverbought                      // forced LONG, RSI > 75 and MACD bearish
    | ExtremeOversold                        // forced SHORT, RSI < 25 and MACD bullish
    | TimeframeVolatility(volatility: real, timeframe: int)
    | ProfitVolatility(expected: real)
    | HighFundingLongHold
    | AgainstTrendLowVolatility
    | LowVolume

  datatype Viability = Viable | NotViable(reason: BlockingFactor, factors: seq<BlockingFactor>)

  predicate TimeframeGiven(c: Constraints) {
    c.timeframe.Some? && c.timeframe.value != 0
  }

  predicate ExpectedGiven(c: Constraints) {
    c.expectedProfitPercent.Some? && c.expectedProfitPercent.value != 0.0
  }

  /** Minimum |24h change| (in %) demanded for a given holding time in minutes. */
  function RequiredVolatility(timeframe: int): (r: real)
    ensures r == 3.0 || r == 2.0 || r == 1.0
    ensures r == 3.0 <==> timeframe <= 15
    ensures r == 1.0 <==> timeframe > 30
  {
    if timeframe <= 15 then 3.0 else if timeframe <= 30 then 2.0 else 1.0
  }

  /** A longer holding time never demands more volatility. */
  lemma RequiredVolatilityAntitone(t1: int, t2: int)
    requires t1 <= t2
    ensures RequiredVolatility(t2) <= RequiredVolatility(t1)
  {
  }

  /** `technicalData?.rsi?.value || 50`: a missing or zero RSI reads as 50. */
  function EffectiveRsi(rsi: Option<real>): (r: real)
    ensures (rsi.None? || rsi.value == 0.0) ==> r == 50.0
    ensures rsi.Some? && rsi.value != 0.0 ==> r == rsi.value
  {
    if rsi.Some? && rsi.value != 0.0 then rsi.value else 50.0
  }

  // ---- the four rules of checkViability -----------------------------------

  predicate DirectionBlocks(req: ViabilityRequest) {
    match req.params.direction
    case None => false
    case Some(Long) => EffectiveRsi(req.rsi) > 75.0 && req.macdTrend == Some("BEARISH")
    case Some(Short) => EffectiveRsi(req.rsi) < 25.0 && req.macdTrend == Some("BULLISH")
  }

  predicate TimeframeBlocks(req: ViabilityRequest) {
    TimeframeGiven(req.params) && Abs(req.priceChange) < RequiredVolatility(req.params.timeframe.value)
  }

  predicate ProfitBlocks(req: ViabilityRequest) {
    ExpectedGiven(req.params) && Abs(req.priceChange) < req.params.expectedProfitPercent.value * 0.3
  }

  predicate FundingBlocks(req: ViabilityRequest) {
    req.fundingRate.Some? && Abs(req.fundingRate.value) > 0.01
    && TimeframeGiven(req.params) && req.params.timeframe.value > 30
  }

  function DirectionFactor(req: ViabilityRequest): BlockingFactor {
    if req.params.direction == Some(Long) then ExtremeOverbought else ExtremeOversold
  }

  /** The factors collected by the gate, in rule order. */
  function ViabilityFactors(req: ViabilityRequest): (fs: seq<BlockingFactor>)
    ensures |fs| <= 4
    ensures fs == [] <==> !DirectionBlocks(req) && !TimeframeBlocks(req) && !ProfitBlocks(req) && !FundingBlocks(req)
  {
    (if DirectionBlocks(req) then [DirectionFactor(req)] else [])
    + (if TimeframeBlocks(req) then [TimeframeVolatility(Abs(req.priceChange), req.params.timeframe.value)] else [])
    + (if ProfitBlocks(req) then [ProfitVolatility(req.params.expectedProfitPercent.value)] else [])
    + (if FundingBlocks(req) then [HighFundingLongHold] else [])
  }

  /** `checkViability`: collects every failing rule; the reason shown is the first. */
  method CheckViability(req: ViabilityRequest) returns (result: Viability)
    ensures result.Viable? <==> ViabilityFactors(req) == []
    ensures result.NotViable? ==> result.factors == ViabilityFactors(req) && result.reason == result.factors[0]
  {
    var volatility := Abs(req.priceChange);
    var blockingFactors: seq<BlockingFactor> := [];
    var viable := true;

    if req.params.direction.Some? {
      var rsi := EffectiveRsi(req.rsi);
      if req.params.direction.value == Long {
        if rsi > 75.0 && req.macdTrend == Some("BEARISH") {
          blockingFactors := blockingFactors + [ExtremeOverbought];
          viable := false;
        }
      } else {
        if rsi < 25.0 && req.macdTrend == Some("BULLISH") {
          blockingFactors := blockingFactors + [ExtremeOversold];
          viable := false;
        }
      }
    }
    ghost var afterDirection := if DirectionBlocks(req) then [DirectionFactor(req)] else [];
    assert blockingFactors == afterDirection && viable == (blockingFactors == []);

    if TimeframeGiven(req.params) {
      var requiredVolatility := RequiredVolatility(req.params.timeframe.value);
      if volatility < requiredVolatility {
        blockingFactors := blockingFactors + [TimeframeVolatility(volatility, req.params.timeframe.value)];
        viable := false;
      }
    }
    ghost var afterTimeframe := afterDirection
      + (if TimeframeBlocks(req) then [TimeframeVolatility(Abs(req.priceChange), req.params.timeframe.value)] else []);
    assert blockingFactors == afterTimeframe && viable == (blockingFactors == []);

    if ExpectedGiven(req.params) {
      var requiredVolatility := req.params.expectedProfitPercent.value * 0.3;
      if volatility < requiredVolatility {
        blockingFactors := blockingFactors + [ProfitVolatility(req.params.expectedProfitPercent.value)];
        viable := false;
      }
    }
    ghost var afterProfit := afterTimeframe
      + (if ProfitBlocks(req) then [ProfitVolatility(req.params.expectedProfitPercent.value)] else []);
    assert blockingFactors == afterProfit && viable == (blockingFactors == []);

    if req.fundingRate.Some? && Abs(req.fundingRate.value) > 0.01 {
      if TimeframeGiven(req.params) && req.params.timeframe.value > 30 {
        blockingFactors := blockingFactors + [HighFundingLongHold];
        viable := false;
      }
    }

    if !viable {
      return NotViable(blockingFactors[0], blockingFactors);
    }
    return Viable;
  }

  /** The reason reported is the first rule that fires, in the order
      direction, timeframe, profit, funding. */
  lemma ViabilityReasonOrder(req: ViabilityRequest)
    requires ViabilityFactors(req) != []
    ensures DirectionBlocks(req) ==> ViabilityFactors(req)[0] == DirectionFactor(req)
    ensures !DirectionBlocks(req) && TimeframeBlocks(req) ==>
      ViabilityFactors(req)[0] == TimeframeVolatility(Abs(req.priceChange), req.params.timeframe.value)
    ensures !DirectionBlocks(req) && !TimeframeBlocks(req) && ProfitBlocks(req) ==>
      ViabilityFactors(req)[0] == ProfitVolatility(req.params.expectedProfitPercent.value)
    ensures !DirectionBlocks(req) && !TimeframeBlocks(req) && !ProfitBlocks(req) ==>
      ViabilityFactors(req)[0] == HighFundingLongHold
  {
  }

  /** The momentum rule blocks a forced LONG only on RSI > 75 with a bearish
      MACD, and a forced SHORT only on RSI < 25 with a bullish MACD; a missing
      or zero RSI never blocks. */
  lemma DirectionRule(req: ViabilityRequest)
    ensures ExtremeOverbought in ViabilityFactors(req) <==>
      req.params.direction == Some(Long) && EffectiveRsi(req.rsi) > 75.0 && req.macdTrend == Some("BEARISH")
    ensures ExtremeOversold in ViabilityFactors(req) <==>
      req.params.direction == Some(Short) && EffectiveRsi(req.rsi) < 25.0 && req.macdTrend == Some("BULLISH")
    ensures req.rsi.None? || req.rsi.value == 0.0 ==>
      ExtremeOverbought !in ViabilityFactors(req) && ExtremeOversold !in ViabilityFactors(req)
  {
    var fs := ViabilityFactors(req);
    var d := if DirectionBlocks(req) then [DirectionFactor(req)] else [];
    assert fs == d + fs[|d|..];
    forall f | f in fs[|d|..] ensures f != ExtremeOverbought && f != ExtremeOversold {
    }
  }

  /** The funding rule blocks exactly when |fundingRate| > 0.01 and the
      requested hold is longer than 30 minutes. */
  lemma FundingRule(req: ViabilityRequest)
    ensures HighFundingLongHold in ViabilityFactors(req) <==>
      req.fundingRate.Some? && Abs(req.fundingRate.value) > 0.01
      && req.params.timeframe.Some? && req.params.timeframe.value > 30
  {
    var fs := ViabilityFactors(req);
    if !FundingBlocks(req) {
      forall f | f in fs ensures f != HighFundingLongHold {
      }
    }
  }

  // ---- calculateOpportunityScore ------------------------------------------

  datatype ScoreResult = ScoreResult(viable: bool, value: real, factors: seq<BlockingFactor>)

  const LiquidityFloor: real := 100000000.0

  function Min(a: real, b: real): real {
    if a <= b then a else b
  }

  /** The natural bias of an asset: a positive change favours LONG, zero or a
      negative change favours SHORT. */
  function NaturalDirection(priceChange: real): (d: Direction)
    ensures d == Long <==> priceChange > 0.0
  {
    if priceChange > 0.0 then Long else Short
  }

  predicate AgainstTrendBlocks(q: Quote, c: Constraints) {
    c.direction.Some? && c.direction.value != NaturalDirection(q.priceChangePercent)
    && Abs(q.priceChangePercent) < 2.0
  }

  predicate TimeframeShort(q: Quote, c: Constraints) {
    TimeframeGiven(c) && Abs(q.priceChangePercent) < RequiredVolatility(c.timeframe.value)
  }

  predicate ProfitShort(q: Quote, c: Constraints) {
    ExpectedGiven(c) && Abs(q.priceChangePercent) < c.expectedProfitPercent.value * 0.3
  }

  function DirectionBonus(q: Quote, c: Constraints): real {
    if c.direction.None? || AgainstTrendBlocks(q, c) then 0.0
    else if c.direction.value == NaturalDirection(q.priceChangePercent) then 20.0
    else -10.0
  }

  function TimeframeBonus(q: Quote, c: Constraints): real {
    if !TimeframeGiven(c) || TimeframeShort(q, c) then 0.0
    else Min(20.0, Abs(q.priceChangePercent) * 5.0)
  }

  function ProfitBonus(q: Quote, c: Constraints): real {
    if !ExpectedGiven(c) || ProfitShort(q, c) then 0.0
    else Min(15.0, c.expectedProfitPercent.value)
  }

  /** A candidate is viable when no rule of the scorer blocks it. */
  predicate IsViable(q: Quote, c: Constraints) {
    !AgainstTrendBlocks(q, c) && !TimeframeShort(q, c) && !ProfitShort(q, c) && q.volume >= LiquidityFloor
  }

  /** The factors the scorer collects, in rule order. */
  function ScoreFactors(q: Quote, c: Constraints): (fs: seq<BlockingFactor>)
    ensures fs == [] <==> IsViable(q, c)
    ensures q.volume < LiquidityFloor ==> fs[|fs| - 1] == LowVolume
  {
    (if AgainstTrendBlocks(q, c) then [AgainstTrendLowVolatility] else [])
    + (if TimeframeShort(q, c) then [TimeframeVolatility(Abs(q.priceChangePercent), c.timeframe.value)] else [])
    + (if ProfitShort(q, c) then [ProfitVolatility(c.expectedProfitPercent.value)] else [])
    + (if q.volume < LiquidityFloor then [LowVolume] else [])
  }

  /** Base 50 plus the direction, timeframe and profit adjustments. */
  function ScoreValue(q: Quote, c: Constraints): real {
    50.0 + DirectionBonus(q, c) + TimeframeBonus(q, c) + ProfitBonus(q, c)
  }

  /** Specification of the scorer's result. */
  function ScoreOf(q: Quote, c: Constraints): ScoreResult {
    ScoreResult(IsViable(q, c), ScoreValue(q, c), ScoreFactors(q, c))
  }

  /** `calculateOpportunityScore`, step by step as in the route. */
  method CalculateOpportunityScore(q: Quote, c: Constraints) returns (s: ScoreResult)
    ensures s == ScoreOf(q, c)
    ensures s.viable <==> s.factors == []
    ensures q.volume < LiquidityFloor ==> !s.viable
  {
    var priceChange := q.priceChangePercent;
    var volatility := Abs(priceChange);
    var score := 50.0;
    var viable := true;
    var blockingFactors: seq<BlockingFactor> := [];

    if c.direction.Some? {
      var naturalDirection := if priceChange > 0.0 then Long else Short;
      if c.direction.value != naturalDirection && volatility < 2.0 {
        blockingFactors := blockingFactors + [AgainstTrendLowVolatility];
        viable := false;
      } else if c.direction.value == naturalDirection {
        score := score + 20.0;
      } else {
        score := score - 10.0;
      }
    }
    ghost var factors1 := if AgainstTrendBlocks(q, c) then [AgainstTrendLowVolatility] else [];
    assert score == 50.0 + DirectionBonus(q, c);
    assert blockingFactors == factors1 && viable == !AgainstTrendBlocks(q, c);

    if TimeframeGiven(c) {
      var requiredVolatility := RequiredVolatility(c.timeframe.value);
      if volatility < requiredVolatility {
        blockingFactors := blockingFactors + [TimeframeVolatility(volatility, c.timeframe.value)];
        viable := false;
      } else {
        score := score + Min(20.0, volatility * 5.0);
      }
    }
    ghost var factors2 := factors1
      + (if TimeframeShort(q, c) then [TimeframeVolatility(Abs(q.priceChangePercent), c.timeframe.value)] else []);
    assert score == 50.0 + DirectionBonus(q, c) + TimeframeBonus(q, c);
    assert blockingFactors == factors2 && viable == (!AgainstTrendBlocks(q, c) && !TimeframeShort(q, c));

    if ExpectedGiven(c) {
      var requiredVolatility := c.expectedProfitPercent.value * 0.3;
      if volatility < requiredVolatility {
        blockingFactors := blockingFactors + [ProfitVolatility(c.expectedProfitPercent.value)];
        viable := false;
      } else {
        score := score + Min(15.0, c.expectedProfitPercent.value);
      }
    }
    ghost var factors3 := factors2
      + (if ProfitShort(q, c) then [ProfitVolatility(c.expectedProfitPercent.value)] else []);
    assert score == ScoreValue(q, c);
    assert blockingFactors == factors3
      && viable == (!AgainstTrendBlocks(q, c) && !TimeframeShort(q, c) && !ProfitShort(q, c));

    if q.volume < LiquidityFloor {
      blockingFactors := blockingFactors + [LowVolume];
      viable := false;
    }

    s := ScoreResult(viable, score, blockingFactors);
  }

  /** With no constraints the score is exactly 50 and only liquidity decides. */
  lemma UnconstrainedScore(q: Quote, c: Constraints)
    requires c.direction.None? && !TimeframeGiven(c) && !ExpectedGiven(c)
    ensures ScoreValue(q, c) == 50.0
    ensures IsViable(q, c) <==> q.volume >= LiquidityFloor
  {
  }

  /** Unless a negative expected profit is requested, every score lies in [40, 105]. */
  lemma ScoreBounds(q: Quote, c: Constraints)
    requires c.expectedProfitPercent.None? || c.expectedProfitPercent.value > 0.0
    ensures 40.0 <= ScoreValue(q, c) <= 105.0
  {
    assert -10.0 <= DirectionBonus(q, c) <= 20.0;
    assert 0.0 <= TimeframeBonus(q, c) <= 20.0;
    assert 0.0 <= ProfitBonus(q, c) <= 15.0;
  }

  /** A forced direction against the asset's bias costs 10 points when the
      asset moves at least 2%, and blocks it below 2%. */
  lemma AgainstTrendRule(q: Quote, c: Constraints)
    requires c.direction.Some? && c.direction.value != NaturalDirection(q.priceChangePercent)
    ensures Abs(q.priceChangePercent) >= 2.0 ==> DirectionBonus(q, c) == -10.0
    ensures Abs(q.priceChangePercent) < 2.0 ==> !IsViable(q, c) && DirectionBonus(q, c) == 0.0
  {
  }

  // ---- findBestOpportunity --------------------------------------------------

  /** How many candidates of the list the scorer accepts. */
  function CountViable(cands: seq<Quote>, c: Constraints): (n: nat)
    ensures n <= |cands|
  {
    if |cands| == 0 then 0
    else CountViable(cands[..|cands| - 1], c) + (if IsViable(cands[|cands| - 1], c) then 1 else 0)
  }

  datatype MarketBlock = ProfitTooHigh | TimeframeTooShort | DirectionAgainstMarket | LowMarketVolatility

  datatype MarketCondition = Sideways | ModerateVolatility | HighVolatility

  datatype Opportunity =
    | Found(crypto: Quote, score: real, alternatives: nat)
    | NoOpportunity(reason: MarketBlock, avgVolatility: Option<real>, condition: MarketCondition)

  /** `determineBlockingFactor`: the market-wide reason, by fixed priority. */
  function DetermineBlockingFactor(c: Constraints): (r: MarketBlock)
    ensures r == ProfitTooHigh <==> c.expectedProfitPercent.Some? && c.expectedProfitPercent.value > 5.0
    ensures r == TimeframeTooShort <==> r != ProfitTooHigh && TimeframeGiven(c) && c.timeframe.value <= 15
    ensures r == DirectionAgainstMarket <==>
      r != ProfitTooHigh && r != TimeframeTooShort && c.direction.Some?
    ensures r == LowMarketVolatility <==>
      !(c.expectedProfitPercent.Some? && c.expectedProfitPercent.value > 5.0)
      && !(TimeframeGiven(c) && c.timeframe.value <= 15) && c.direction.None?
  {
    if c.expectedProfitPercent.Some? && c.expectedProfitPercent.value > 5.0 then ProfitTooHigh
    else if TimeframeGiven(c) && c.timeframe.value <= 15 then TimeframeTooShort
    else if c.direction.Some? then DirectionAgainstMarket
    else LowMarketVolatility
  }

  function SumVolatility(cands: seq<Quote>): (r: real)
    ensures r >= 0.0
  {
    if |cands| == 0 then 0.0 else Abs(cands[0].priceChangePercent) + SumVolatility(cands[1..])
  }

  function MaxVolatility(cands: seq<Quote>): (r: real)
    requires |cands| > 0
    ensures r >= 0.0
    ensures forall i :: 0 <= i < |cands| ==> Abs(cands[i].priceChangePercent) <= r
  {
    if |cands| == 1 then Abs(cands[0].priceChangePercent)
    else
      var rest := MaxVolatility(cands[1..]);
      assert forall i :: 1 <= i < |cands| ==> cands[i] == cands[1..][i - 1];
      if Abs(cands[0].priceChangePercent) >= rest then Abs(cands[0].priceChangePercent) else rest
  }

  lemma {:induction false} SumVolatilityBound(cands: seq<Quote>)
    requires |cands| > 0
    ensures SumVolatility(cands) <= (|cands| as real) * MaxVolatility(cands)
  {
    if |cands| > 1 {
      var rest := cands[1..];
      SumVolatilityBound(rest);
      assert MaxVolatility(rest) <= MaxVolatility(cands);
      assert SumVolatility(cands) == Abs(cands[0].priceChangePercent) + SumVolatility(rest);
      BoundStep(Abs(cands[0].priceChangePercent), SumVolatility(rest), MaxVolatility(rest),
                MaxVolatility(cands), |rest| as real, |cands| as real);
    }
  }

  /** One more summand bounded by the maximum keeps the sum below count times
      the maximum. */
  lemma BoundStep(head: real, restSum: real, restMax: real, max: real, k: real, n: real)
    requires k >= 0.0 && n == k + 1.0 && head <= max && restMax <= max && restSum <= k * restMax
    ensures head + restSum <= n * max
  {
    ScaleMonotone(k, restMax, max);
    assert n * max == k * max + max;
  }

  lemma ScaleMonotone(k: real, a: real, b: real)
    requires k >= 0.0 && a <= b
    ensures k * a <= k * b
  {
    assert k * b - k * a == k * (b - a);
  }

  /** Average |24h change| over all candidates; `None` for an empty list, where
      the source divides 0 by 0. */
  function AverageVolatility(cands: seq<Quote>): (r: Option<real>)
    ensures r.None? <==> |cands| == 0
    ensures r.Some? ==> 0.0 <= r.value <= MaxVolatility(cands)
  {
    if |cands| == 0 then None
    else
      var n := |cands| as real;
      SumVolatilityBound(cands);
      assert SumVolatility(cands) / n <= MaxVolatility(cands) by {
        assert (SumVolatility(cands) / n) * n == SumVolatility(cands);
      }
      Some(SumVolatility(cands) / n)
  }

  /** Market condition label of the no-opportunity explanation; NaN (an empty
      list) fails both comparisons and reads as high volatility. */
  function ConditionOf(avg: Option<real>): (m: MarketCondition)
    ensures m == Sideways <==> avg.Some? && avg.value < 1.0
    ensures m == ModerateVolatility <==> avg.Some? && 1.0 <= avg.value < 3.0
  {
    if avg.Some? && avg.value < 1.0 then Sideways
    else if avg.Some? && avg.value < 3.0 then ModerateVolatility
    else HighVolatility
  }

  /** No viable candidate among the first n scores above 0. */
  predicate NoneScoresAbove0(cands: seq<Quote>, c: Constraints, n: int)
    requires n <= |cands|
  {
    forall j :: 0 <= j < n && IsViable(cands[j], c) ==> ScoreValue(cands[j], c) <= 0.0
  }

  /** Among the first n candidates, b is viable, positively scored, at least
      as good as every viable one and strictly better than every viable one
      before it. */
  predicate LeadsFirst(cands: seq<Quote>, c: Constraints, n: int, b: int)
    requires n <= |cands|
  {
    && 0 <= b < n && IsViable(cands[b], c) && ScoreValue(cands[b], c) > 0.0
    && (forall j :: 0 <= j < n && IsViable(cands[j], c) ==> ScoreValue(cands[j], c) <= ScoreValue(cands[b], c))
    && (forall j :: 0 <= j < b && IsViable(cands[j], c) ==> ScoreValue(cands[j], c) < ScoreValue(cands[b], c))
  }

  /** Candidate j is the one auto mode picks: it leads the whole list. */
  predicate BestAt(cands: seq<Quote>, c: Constraints, j: int) {
    LeadsFirst(cands, c, |cands|, j)
  }

  /** The ranking loop of `findBestOpportunity`: a running best that starts
      at 0 and is replaced only on a strictly greater viable score, and the
      number of viable candidates. */
  method RankCandidates(cands: seq<Quote>, c: Constraints) returns (best: Option<nat>, bestScore: real, viableOptions: nat)
    ensures viableOptions == CountViable(cands, c)
    ensures best.None? <==>
      forall j :: 0 <= j < |cands| && IsViable(cands[j], c) ==> ScoreValue(cands[j], c) <= 0.0
    ensures best.Some? ==>
      && best.value < |cands| && IsViable(cands[best.value], c)
      && bestScore == ScoreValue(cands[best.value], c) && bestScore > 0.0
      && (forall j :: 0 <= j < |cands| && IsViable(cands[j], c) ==> ScoreValue(cands[j], c) <= bestScore)
      && (forall j :: 0 <= j < best.value && IsViable(cands[j], c) ==> ScoreValue(cands[j], c) < bestScore)
  {
    bestScore := 0.0;
    best := None;
    viableOptions := 0;
    for i := 0 to |cands|
      invariant viableOptions == CountViable(cands[..i], c)
      invariant best.None? ==> bestScore == 0.0 && NoneScoresAbove0(cands, c, i)
      invariant best.Some? ==> LeadsFirst(cands, c, i, best.value) && bestScore == ScoreValue(cands[best.value], c)
    {
      assert cands[..i + 1][..i] == cands[..i];
      var score := CalculateOpportunityScore(cands[i], c);
      if score.viable {
        viableOptions := viableOptions + 1;
        if score.value > bestScore {
          bestScore := score.value;
          best := Some(i);
        }
      }
    }
    assert cands[..|cands|] == cands;
  }

  /** `findBestOpportunity`: the best viable candidate with the count of viable
      alternatives, or the market-wide explanation when none was selected.
      `chosen` is the index of the selected candidate. */
  method FindBestOpportunity(cands: seq<Quote>, c: Constraints) returns (r: Opportunity, chosen: Option<nat>)
    ensures r.NoOpportunity? <==>
      forall j :: 0 <= j < |cands| && IsViable(cands[j], c) ==> ScoreValue(cands[j], c) <= 0.0
    ensures r.Found? ==>
      && chosen.Some? && chosen.value < |cands|
      && r.crypto == cands[chosen.value] && IsViable(r.crypto, c)
      && r.score == ScoreValue(r.crypto, c) && r.score > 0.0
      && (forall j :: 0 <= j < |cands| && IsViable(cands[j], c) ==> ScoreValue(cands[j], c) <= r.score)
      && (forall j :: 0 <= j < chosen.value && IsViable(cands[j], c) ==> ScoreValue(cands[j], c) < r.score)
      && r.alternatives == CountViable(cands, c)
    ensures r.NoOpportunity? ==>
      && chosen.None?
      && r.reason == DetermineBlockingFactor(c)
      && r.avgVolatility == AverageVolatility(cands)
      && r.condition == ConditionOf(r.avgVolatility)
  {
    var best, bestScore, viableOptions := RankCandidates(cands, c);
    if best.None? {
      var avg := AverageVolatility(cands);
      r := NoOpportunity(DetermineBlockingFactor(c), avg, ConditionOf(avg));
      chosen := None;
    } else {
      r := Found(cands[best.value], bestScore, viableOptions);
      chosen := best;
    }
  }

  /** With positive (or no) expected profit every viable score is at least 40,
      so a candidate is selected exactly when some candidate is viable. */
  lemma SelectionFindsAnyViable(cands: seq<Quote>, c: Constraints)
    requires c.expectedProfitPercent.None? || c.expectedProfitPercent.value > 0.0
    ensures (forall j :: 0 <= j < |cands| && IsViable(cands[j], c) ==> ScoreValue(cands[j], c) <= 0.0)
            <==> CountViable(cands, c) == 0
  {
    forall j | 0 <= j < |cands| ensures ScoreValue(cands[j], c) >= 40.0 {
      ScoreBounds(cands[j], c);
    }
    CountViableZero(cands, c);
  }

  lemma {:induction false} CountViableZero(cands: seq<Quote>, c: Constraints)
    ensures CountViable(cands, c) == 0 <==> forall j :: 0 <= j < |cands| ==> !IsViable(cands[j], c)
  {
    if |cands| > 0 {
      var init := cands[..|cands| - 1];
      CountViableZero(init, c);
      assert forall j :: 0 <= j < |init| ==> init[j] == cands[j];
    }
  }

  // ---- fallback and routing -------------------------------------------------

  datatype FallbackResult =
    | FallbackRejected(reason: BlockingFactor, factors: seq<BlockingFactor>)
    | FallbackPlan(direction: Direction, takeProfitPercent: real, stopLossPercent: real)

  /** `generateAdvancedFallbackAnalysis`: reuses the same gate; when it passes,
      the take-profit is the expected profit (or 0.5%) and the stop is 0.6 of it. */
  method GenerateFallbackAnalysis(req: ViabilityRequest) returns (r: FallbackResult)
    ensures r.FallbackPlan? <==> ViabilityFactors(req) == []
    ensures r.FallbackRejected? ==> r.factors == ViabilityFactors(req) && r.reason == r.factors[0]
    ensures r.FallbackPlan? ==>
      && r.direction == req.params.direction.GetOr(Long)
      && r.takeProfitPercent == (if ExpectedGiven(req.params) then req.params.expectedProfitPercent.value else 0.5)
      && r.takeProfitPercent != 0.0
      && r.stopLossPercent == r.takeProfitPercent * 0.6
      && r.takeProfitPercent / r.stopLossPercent == 5.0 / 3.0
  {
    var check := CheckViability(req);
    if check.NotViable? {
      return FallbackRejected(check.reason, check.factors);
    }
    var tp := if ExpectedGiven(req.params) then req.params.expectedProfitPercent.value else 0.5;
    var sl := tp * 0.6;
    assert tp / sl == 5.0 / 3.0 by {
      assert sl * (5.0 / 3.0) == tp;
    }
    r := FallbackPlan(req.params.direction.GetOr(Long), tp, sl);
  }

  /** The body of a POST to the analysis route. `symbol` is `None` when absent
      or empty; `allCryptoData` is the market list sent in auto mode. */
  datatype AnalysisRequest = AnalysisRequest(
    symbol: Option<string>,
    asset: ViabilityRequest,
    allCryptoData: Option<seq<Quote>>)

  datatype AnalysisResponse =
    | NoOpportunityFound(marketReason: MarketBlock, avgVolatility: Option<real>, condition: MarketCondition)
    | Rejected(reason: BlockingFactor, factors: seq<BlockingFactor>)
    | AutoSelected(selectedSymbol: string)
    | Narrated(symbol: Option<string>)
    | FallbackNarrated(direction: Direction, takeProfitPercent: real, stopLossPercent: real)
  {
    predicate IsViable() { AutoSelected? || Narrated? || FallbackNarrated? }
  }

  /** `POST`: auto mode ranks the whole list; otherwise the asset passes the
      gate before narration, and a failed narration (`narrationFails`, the
      external language-model call) falls back to the deterministic analysis,
      which runs the same gate. */
  method Post(req: AnalysisRequest, narrationFails: bool) returns (resp: AnalysisResponse)
    ensures req.symbol.None? && req.allCryptoData.Some? ==>
      var cands := req.allCryptoData.value;
      var c := req.asset.params;
      && (resp.AutoSelected? || resp.NoOpportunityFound?)
      && (resp.NoOpportunityFound? <==>
            forall j :: 0 <= j < |cands| && IsViable(cands[j], c) ==> ScoreValue(cands[j], c) <= 0.0)
      && (resp.NoOpportunityFound? ==>
            && resp.marketReason == DetermineBlockingFactor(c)
            && resp.avgVolatility == AverageVolatility(cands)
            && resp.condition == ConditionOf(resp.avgVolatility))
      && (resp.AutoSelected? ==>
            exists j :: BestAt(cands, c, j) && cands[j].symbol == resp.selectedSymbol)
    ensures !(req.symbol.None? && req.allCryptoData.Some?) ==>
      && (resp.IsViable() <==> ViabilityFactors(req.asset) == [])
      && (resp.Rejected? ==> resp.factors == ViabilityFactors(req.asset) && resp.reason == resp.factors[0])
      && (resp.Narrated? ==> resp.symbol == req.symbol)
      && (resp.FallbackNarrated? ==>
            && resp.direction == req.asset.params.direction.GetOr(Long)
            && resp.takeProfitPercent
                 == (if ExpectedGiven(req.asset.params) then req.asset.params.expectedProfitPercent.value else 0.5)
            && resp.stopLossPercent == resp.takeProfitPercent * 0.6)
      && (resp.IsViable() ==> if narrationFails then resp.FallbackNarrated? else resp.Narrated?)
  {
    if req.symbol.None? && req.allCryptoData.Some? {
      var best, chosen := FindBestOpportunity(req.allCryptoData.value, req.asset.params);
      if best.NoOpportunity? {
        return NoOpportunityFound(best.reason, best.avgVolatility, best.condition);
      }
      assert BestAt(req.allCryptoData.value, req.asset.params, chosen.value);
      return AutoSelected(best.crypto.symbol);
    }
    var check := CheckViability(req.asset);
    if check.NotViable? {
      return Rejected(check.reason, check.factors);
    }
    if !narrationFails {
      return Narrated(req.symbol);
    }
    var fallback := GenerateFallbackAnalysis(req.asset);
    if fallback.FallbackRejected? {
      // the fallback re-runs the gate on the same data, which just passed
      assert false;
    }
    resp := FallbackNarrated(fallback.direction, fallback.takeProfitPercent, fallback.stopLossPercent);
  }
}
