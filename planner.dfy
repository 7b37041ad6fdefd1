/** The plan calculator of the planner page (app/planner/page.tsx): direction
    from TradingView-weighted signals, success rate clamped to [45, 90], and
    the page state the calculation writes. */
module Planner {
  import opened TradingTypes
  import opened PlanMath

  /** The `technicals` record of a TradingView quote, as the page reads it. */
  datatype PlannerTech = PlannerTech(
    rsiSignal: Option<string>,
    macdTrend: Option<string>,
    emaTrend: Option<string>,
    volumeTrend: Option<string>)

  /** The `tradingview` summary of a quote. */
  datatype TradingView = TradingView(
    recommendation: Option<string>,
    oscillators: Option<real>,
    movingAverages: Option<real>)

  datatype PlannerQuote = PlannerQuote(
    quote: Quote,
    technicals: Option<PlannerTech>,
    tradingview: Option<TradingView>)

  // Optional chaining: every field of an absent record is absent.

  function RsiSignal(t: Option<PlannerTech>): Option<string> {
    if t.Some? then t.value.rsiSignal else None
  }

  function MacdTrend(t: Option<PlannerTech>): Option<string> {
    if t.Some? then t.value.macdTrend else None
  }

  function EmaTrend(t: Option<PlannerTech>): Option<string> {
    if t.Some? then t.value.emaTrend else None
  }

  function VolumeTrend(t: Option<PlannerTech>): Option<string> {
    if t.Some? then t.value.volumeTrend else None
  }

  function Recommendation(tv: Option<TradingView>): Option<string> {
    if tv.Some? then tv.value.recommendation else None
  }

  /** `x > 60 || x < 40` on an optional number; `undefined` compares false. */
  predicate OutsideNeutralBand(x: Option<real>) {
    x.Some? && (x.value > 60.0 || x.value < 40.0)
  }

  function Oscillators(tv: Option<TradingView>): Option<real> {
    if tv.Some? then tv.value.oscillators else None
  }

  function MovingAverages(tv: Option<TradingView>): Option<real> {
    if tv.Some? then tv.value.movingAverages else None
  }

  // ---- direction ------------------------------------------------------------

  /** Bullish tally: BUY counts 2, OVERSOLD RSI, bullish MACD, EMA uptrend and
      a change above +1% count 1 each. */
  function BullishSignals(tech: Option<PlannerTech>, priceChange: real, tv: Option<TradingView>): nat {
    (if Recommendation(tv) == Some("BUY") then 2 else 0)
    + (if RsiSignal(tech) == Some("OVERSOLD") then 1 else 0)
    + (if MacdTrend(tech) == Some("BULLISH") then 1 else 0)
    + (if EmaTrend(tech) == Some("UPTREND") then 1 else 0)
    + (if priceChange > 1.0 then 1 else 0)
  }

  /** Bearish tally, the mirror image of the bullish one. */
  function BearishSignals(tech: Option<PlannerTech>, priceChange: real, tv: Option<TradingView>): nat {
    (if Recommendation(tv) == Some("SELL") then 2 else 0)
    + (if RsiSignal(tech) == Some("OVERBOUGHT") then 1 else 0)
    + (if MacdTrend(tech) == Some("BEARISH") then 1 else 0)
    + (if EmaTrend(tech) == Some("DOWNTREND") then 1 else 0)
    + (if priceChange < -1.0 then 1 else 0)
  }

  /** `determineDirection`: LONG only on a strictly larger bullish tally, so
      ties (including no signal at all) give SHORT. */
  method DetermineDirection(tech: Option<PlannerTech>, priceChange: real, tv: Option<TradingView>)
    returns (d: Direction)
    ensures d == Long <==> BullishSignals(tech, priceChange, tv) > BearishSignals(tech, priceChange, tv)
  {
    var bullishSignals := 0;
    var bearishSignals := 0;

    if Recommendation(tv) == Some("BUY") { bullishSignals := bullishSignals + 2; }
    if Recommendation(tv) == Some("SELL") { bearishSignals := bearishSignals + 2; }

    if RsiSignal(tech) == Some("OVERSOLD") { bullishSignals := bullishSignals + 1; }
    if RsiSignal(tech) == Some("OVERBOUGHT") { bearishSignals := bearishSignals + 1; }

    if MacdTrend(tech) == Some("BULLISH") { bullishSignals := bullishSignals + 1; }
    if MacdTrend(tech) == Some("BEARISH") { bearishSignals := bearishSignals + 1; }

    if EmaTrend(tech) == Some("UPTREND") { bullishSignals := bullishSignals + 1; }
    if EmaTrend(tech) == Some("DOWNTREND") { bearishSignals := bearishSignals + 1; }

    if priceChange > 1.0 { bullishSignals := bullishSignals + 1; }
    if priceChange < -1.0 { bearishSignals := bearishSignals + 1; }

    d := if bullishSignals > bearishSignals then Long else Short;
  }

  /** A BUY recommendation outweighs any single opposing indicator: with BUY
      and at most one bearish indicator the direction is LONG. */
  lemma BuyOutweighsOneSignal(tech: Option<PlannerTech>, priceChange: real, tv: Option<TradingView>)
    requires Recommendation(tv) == Some("BUY")
    requires BearishSignals(tech, priceChange, tv) <= 1
    ensures BullishSignals(tech, priceChange, tv) > BearishSignals(tech, priceChange, tv)
  {
  }

  // ---- success rate ---------------------------------------------------------

  /** The unclamped score: 55, +15 unless the recommendation is exactly
      "NEUTRAL" (an absent one counts), +5 per TradingView gauge outside
      [40, 60], +10 when the MACD and EMA trends compare equal (both absent
      counts), +8 on rising volume, +5 above 2% volatility, +5 per unit of risk. */
  function RawSuccessRate(tech: Option<PlannerTech>, volatility: real, riskMultiplier: real, tv: Option<TradingView>): real {
    55.0
    + (if Recommendation(tv) != Some("NEUTRAL") then 15.0 else 0.0)
    + (if OutsideNeutralBand(Oscillators(tv)) then 5.0 else 0.0)
    + (if OutsideNeutralBand(MovingAverages(tv)) then 5.0 else 0.0)
    + (if MacdTrend(tech) == EmaTrend(tech) then 10.0 else 0.0)
    + (if VolumeTrend(tech) == Some("INCREASING") then 8.0 else 0.0)
    + (if volatility > 2.0 then 5.0 else 0.0)
    + riskMultiplier * 5.0
  }

  /** `calculateSuccessRate`: accumulates the bonuses, then clamps to [45, 90]. */
  method CalculateSuccessRate(tech: Option<PlannerTech>, volatility: real, riskMultiplier: real, tv: Option<TradingView>)
    returns (rate: real)
    ensures 45.0 <= rate <= 90.0
    ensures rate == Clamp(RawSuccessRate(tech, volatility, riskMultiplier, tv), 45.0, 90.0)
  {
    var baseRate := 55.0;

    if Recommendation(tv) != Some("NEUTRAL") { baseRate := baseRate + 15.0; }
    if OutsideNeutralBand(Oscillators(tv)) { baseRate := baseRate + 5.0; }
    if OutsideNeutralBand(MovingAverages(tv)) { baseRate := baseRate + 5.0; }

    if MacdTrend(tech) == EmaTrend(tech) { baseRate := baseRate + 10.0; }
    if VolumeTrend(tech) == Some("INCREASING") { baseRate := baseRate + 8.0; }
    if volatility > 2.0 { baseRate := baseRate + 5.0; }

    baseRate := baseRate + riskMultiplier * 5.0;

    rate := if 90.0 < baseRate then 90.0 else if baseRate < 45.0 then 45.0 else baseRate;
  }

  /** With a multiplier the risk selector can produce, the raw rate lies in
      [57.5, 110.5], so the lower clamp at 45 never binds. */
  lemma RawRateRange(tech: Option<PlannerTech>, volatility: real, riskTolerance: string, tv: Option<TradingView>)
    ensures 57.5 <= RawSuccessRate(tech, volatility, RiskMultiplier(riskTolerance), tv) <= 110.5
    ensures Clamp(RawSuccessRate(tech, volatility, RiskMultiplier(riskTolerance), tv), 45.0, 90.0) >= 57.5
  {
    var m := RiskMultiplier(riskTolerance);
    assert 0.5 <= m <= 1.5;
  }

  /** Quirk: a quote without a TradingView summary earns the same +15 as a
      non-neutral recommendation. */
  lemma MissingTradingViewCountsAsSignal(tech: Option<PlannerTech>, volatility: real, riskMultiplier: real)
    ensures RawSuccessRate(tech, volatility, riskMultiplier, None)
         == RawSuccessRate(tech, volatility, riskMultiplier, Some(TradingView(Some("NEUTRAL"), None, None))) + 15.0
  {
  }

  /** Quirk: the +10 confluence bonus fires when technicals are absent (both
      trends undefined) but never on a real snapshot, whose MACD trend is
      BULLISH/BEARISH and whose EMA trend is UPTREND/DOWNTREND. */
  lemma ConfluenceQuirk(tech: PlannerTech)
    requires tech.macdTrend == Some("BULLISH") || tech.macdTrend == Some("BEARISH")
    requires tech.emaTrend == Some("UPTREND") || tech.emaTrend == Some("DOWNTREND")
    ensures MacdTrend(None) == EmaTrend(None)
    ensures MacdTrend(Some(tech)) != EmaTrend(Some(tech))
  {
    assert "BULLISH"[0] != "UPTREND"[0] && "BULLISH"[0] != "DOWNTREND"[0];
    assert "BEARISH"[0] != "UPTREND"[0] && "BEARISH"[0] != "DOWNTREND"[0];
  }

  // ---- the plan ---------------------------------------------------------------

  /** Plan arithmetic of `calculateScalpingPlan`: the direction comes from the
      indicators only (a forced direction is not an input), `techData` is the
      technicals captured before the analysis call and `crypto` the quote the
      plan is for. */
  method BuildPlan(crypto: PlannerQuote, techData: Option<PlannerTech>, riskTolerance: string,
                   expected: Option<real>, investment: real, leverage: real)
    returns (plan: ScalpingPlan)
    ensures plan.symbol == crypto.quote.symbol && plan.entryPrice == crypto.quote.price
    ensures plan.direction == Long <==>
      BullishSignals(techData, crypto.quote.priceChangePercent, crypto.tradingview)
      > BearishSignals(techData, crypto.quote.priceChangePercent, crypto.tradingview)
    ensures 45.0 <= plan.successRate <= 90.0
    ensures plan.successRate == Clamp(RawSuccessRate(techData, Abs(crypto.quote.priceChangePercent),
                                                     RiskMultiplier(riskTolerance), crypto.tradingview), 45.0, 90.0)
    ensures plan == AssemblePlan(crypto.quote, plan.direction, riskTolerance, expected, investment, leverage,
                                 VolumeTrend(techData), plan.successRate)
  {
    var direction := DetermineDirection(techData, crypto.quote.priceChangePercent, crypto.tradingview);
    var riskMultiplier := RiskMultiplier(riskTolerance);
    var volatility := Abs(crypto.quote.priceChangePercent);
    var successRate := CalculateSuccessRate(techData, volatility, riskMultiplier, crypto.tradingview);
    plan := AssemblePlan(crypto.quote, direction, riskTolerance, expected, investment, leverage,
                         VolumeTrend(techData), successRate);
  }

  /** `cryptoData.find((c) => c.symbol === symbol)` on the planner's list. */
  function FindPlannerQuote(cryptoData: seq<PlannerQuote>, symbol: string): (r: Option<PlannerQuote>)
    ensures r.None? <==> forall i :: 0 <= i < |cryptoData| ==> cryptoData[i].quote.symbol != symbol
    ensures r.Some? ==> exists i :: 0 <= i < |cryptoData| && cryptoData[i] == r.value && r.value.quote.symbol == symbol
                          && forall j :: 0 <= j < i ==> cryptoData[j].quote.symbol != symbol
  {
    FindFirst(cryptoData, (c: PlannerQuote) => c.quote.symbol == symbol)
  }

  /** `aiData.autoSelected && aiData.selectedSymbol`. */
  predicate AutoPick(aiSelected: Option<string>) {
    aiSelected.Some? && aiSelected.value != ""
  }

  /** The planner page's state written by `calculateScalpingPlan`. */
  class PlannerPage {
    var selectedCrypto: string
    var technicalData: Option<PlannerTech>
    var scalpingPlan: Option<ScalpingPlan>

    constructor ()
      ensures selectedCrypto == "" && technicalData.None? && scalpingPlan.None?
    {
      selectedCrypto := "";
      technicalData := None;
      scalpingPlan := None;
    }

    /** One run of `calculateScalpingPlan`. The analysis route's answer is
        passed in: `aiViable`, and `aiSelected` holds `selectedSymbol` when
        the answer is marked auto-selected (an empty symbol is ignored, as
        the truthiness test ignores it). */
    method CalculateScalpingPlan(cryptoData: seq<PlannerQuote>, aiViable: bool, aiSelected: Option<string>,
                                 riskTolerance: string, expected: Option<real>, investment: real, leverage: real)
      modifies this
      ensures var specific := old(selectedCrypto) != "" && old(selectedCrypto) != "auto";
        if specific && FindPlannerQuote(cryptoData, old(selectedCrypto)).None? then
          // the selected asset is not in the list: nothing changes
          selectedCrypto == old(selectedCrypto) && technicalData == old(technicalData) && scalpingPlan == old(scalpingPlan)
        else
          var crypto := if specific then FindPlannerQuote(cryptoData, old(selectedCrypto)) else None;
          var techData := if crypto.Some? then crypto.value.technicals else None;
          && technicalData == techData
          && (!aiViable ==> scalpingPlan.None? && selectedCrypto == old(selectedCrypto))
          && (aiViable && AutoPick(aiSelected) ==> selectedCrypto == aiSelected.value)
          && (aiViable && !AutoPick(aiSelected) ==> selectedCrypto == old(selectedCrypto))
          && (aiViable ==>
                var target := if AutoPick(aiSelected) then FindPlannerQuote(cryptoData, aiSelected.value) else crypto;
                (target.None? ==> scalpingPlan == old(scalpingPlan))
                && (target.Some? ==>
                      (&& scalpingPlan.Some?
                       && scalpingPlan.value.symbol == target.value.quote.symbol
                       && (scalpingPlan.value.direction == Long <==>
                             BullishSignals(techData, target.value.quote.priceChangePercent, target.value.tradingview)
                             > BearishSignals(techData, target.value.quote.priceChangePercent, target.value.tradingview))
                       && scalpingPlan.value.successRate
                          == Clamp(RawSuccessRate(techData, Abs(target.value.quote.priceChangePercent),
                                                  RiskMultiplier(riskTolerance), target.value.tradingview), 45.0, 90.0)
                       && scalpingPlan.value == AssemblePlan(target.value.quote, scalpingPlan.value.direction,
                            riskTolerance, expected, investment, leverage, VolumeTrend(techData),
                            scalpingPlan.value.successRate))))
    {
      var crypto: Option<PlannerQuote> := None;
      if selectedCrypto != "" && selectedCrypto != "auto" {
        crypto := FindPlannerQuote(cryptoData, selectedCrypto);
        if crypto.None? {
          return;
        }
      }

      var techData := if crypto.Some? then crypto.value.technicals else None;
      technicalData := techData;

      if !aiViable {
        scalpingPlan := None;
        return;
      }

      if AutoPick(aiSelected) {
        selectedCrypto := aiSelected.value;
        crypto := FindPlannerQuote(cryptoData, aiSelected.value);
      }

      if crypto.Some? {
        var plan := BuildPlan(crypto.value, techData, riskTolerance, expected, investment, leverage);
        scalpingPlan := Some(plan);
      }
    }
  }
}
