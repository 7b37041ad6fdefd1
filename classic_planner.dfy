/** The original plan calculator (app/page.tsx): direction from the
    simulated technical-analysis snapshot, success rate clamped to [45, 85],
    no TradingView terms. The plan arithmetic is shared with the planner page
    through `PlanMath`. */
module ClassicPlanner {
  import opened TradingTypes
  import opened PlanMath

  /** The fields of a technical-analysis snapshot the calculator reads. */
  datatype ClassicTech = ClassicTech(
    rsiValue: Option<real>,
    macdTrend: Option<string>,
    emaTrend: Option<string>,
    volumeTrend: Option<string>)

  function RsiValue(t: Option<ClassicTech>): Option<real> {
    if t.Some? then t.value.rsiValue else None
  }

  function MacdTrend(t: Option<ClassicTech>): Option<string> {
    if t.Some? then t.value.macdTrend else None
  }

  function EmaTrend(t: Option<ClassicTech>): Option<string> {
    if t.Some? then t.value.emaTrend else None
  }

  function VolumeTrend(t: Option<ClassicTech>): Option<string> {
    if t.Some? then t.value.volumeTrend else None
  }

  /** An RSI below 30, bullish MACD, EMA "UP" and a change above +1% each
      count one bullish signal. An absent RSI compares false. */
  function BullishSignals(tech: Option<ClassicTech>, priceChange: real): nat {
    (if RsiValue(tech).Some? && RsiValue(tech).value < 30.0 then 1 else 0)
    + (if MacdTrend(tech) == Some("BULLISH") then 1 else 0)
    + (if EmaTrend(tech) == Some("UP") then 1 else 0)
    + (if priceChange > 1.0 then 1 else 0)
  }

  function BearishSignals(tech: Option<ClassicTech>, priceChange: real): nat {
    (if RsiValue(tech).Some? && RsiValue(tech).value > 70.0 then 1 else 0)
    + (if MacdTrend(tech) == Some("BEARISH") then 1 else 0)
    + (if EmaTrend(tech) == Some("DOWN") then 1 else 0)
    + (if priceChange < -1.0 then 1 else 0)
  }

  /** `determineDirection`: LONG only on a strict bullish majority. */
  method DetermineDirection(tech: Option<ClassicTech>, priceChange: real) returns (d: Direction)
    ensures d == Long <==> BullishSignals(tech, priceChange) > BearishSignals(tech, priceChange)
  {
    var bullishSignals := 0;
    var bearishSignals := 0;

    if RsiValue(tech).Some? && RsiValue(tech).value < 30.0 { bullishSignals := bullishSignals + 1; }
    if RsiValue(tech).Some? && RsiValue(tech).value > 70.0 { bearishSignals := bearishSignals + 1; }

    if MacdTrend(tech) == Some("BULLISH") { bullishSignals := bullishSignals + 1; }
    if MacdTrend(tech) == Some("BEARISH") { bearishSignals := bearishSignals + 1; }

    if EmaTrend(tech) == Some("UP") { bullishSignals := bullishSignals + 1; }
    if EmaTrend(tech) == Some("DOWN") { bearishSignals := bearishSignals + 1; }

    if priceChange > 1.0 { bullishSignals := bullishSignals + 1; }
    if priceChange < -1.0 { bearishSignals := bearishSignals + 1; }

    d := if bullishSignals > bearishSignals then Long else Short;
  }

  /** Without a snapshot (auto-selected asset) only the price change votes:
      LONG exactly when it exceeds +1%. */
  lemma NoSnapshotFollowsMomentum(priceChange: real)
    ensures BullishSignals(None, priceChange) > BearishSignals(None, priceChange) <==> priceChange > 1.0
  {
  }

  /** 55, +10 when MACD and EMA trends compare equal, +8 on rising volume,
      +5 above 2% volatility, +5 per unit of risk. */
  function RawSuccessRate(tech: Option<ClassicTech>, volatility: real, riskMultiplier: real): real {
    55.0
    + (if MacdTrend(tech) == EmaTrend(tech) then 10.0 else 0.0)
    + (if VolumeTrend(tech) == Some("INCREASING") then 8.0 else 0.0)
    + (if volatility > 2.0 then 5.0 else 0.0)
    + riskMultiplier * 5.0
  }

  /** `calculateSuccessRate`: the bonuses clamped to [45, 85]. */
  method CalculateSuccessRate(tech: Option<ClassicTech>, volatility: real, riskMultiplier: real)
    returns (rate: real)
    ensures 45.0 <= rate <= 85.0
    ensures rate == Clamp(RawSuccessRate(tech, volatility, riskMultiplier), 45.0, 85.0)
  {
    var baseRate := 55.0;

    if MacdTrend(tech) == EmaTrend(tech) { baseRate := baseRate + 10.0; }
    if VolumeTrend(tech) == Some("INCREASING") { baseRate := baseRate + 8.0; }
    if volatility > 2.0 { baseRate := baseRate + 5.0; }

    baseRate := baseRate + riskMultiplier * 5.0;

    rate := if 85.0 < baseRate then 85.0 else if baseRate < 45.0 then 45.0 else baseRate;
  }

  /** With a multiplier the risk selector can produce, the raw rate lies in
      [57.5, 85.5] over arbitrary snapshot values, so the lower clamp never
      binds. On the snapshots the analysis route actually produces the upper
      one never binds either (`ReachableRateBelowCap`). */
  lemma RawRateRange(tech: Option<ClassicTech>, volatility: real, riskTolerance: string)
    ensures 57.5 <= RawSuccessRate(tech, volatility, RiskMultiplier(riskTolerance)) <= 85.5
    ensures Clamp(RawSuccessRate(tech, volatility, RiskMultiplier(riskTolerance)), 45.0, 85.0) >= 57.5
  {
    var m := RiskMultiplier(riskTolerance);
    assert 0.5 <= m <= 1.5;
  }

  /** A snapshot as the technical-analysis route builds it: MACD trend
      BULLISH or BEARISH, EMA trend UP or DOWN. */
  predicate RouteSnapshot(t: ClassicTech) {
    && (t.macdTrend == Some("BULLISH") || t.macdTrend == Some("BEARISH"))
    && (t.emaTrend == Some("UP") || t.emaTrend == Some("DOWN"))
  }

  /** Quirk: the +10 confluence bonus compares the MACD vocabulary with the
      EMA one, so it fires without a snapshot (both undefined) and never on a
      snapshot from the route. */
  lemma ClassicConfluenceQuirk(tech: ClassicTech)
    requires RouteSnapshot(tech)
    ensures MacdTrend(None) == EmaTrend(None)
    ensures MacdTrend(Some(tech)) != EmaTrend(Some(tech))
  {
    assert |"BULLISH"| != |"UP"| && |"BULLISH"| != |"DOWN"|;
    assert |"BEARISH"| != |"UP"| && |"BEARISH"| != |"DOWN"|;
  }

  /** Without a snapshot there is no rising volume, and with a snapshot from
      the route there is no confluence, so the raw rate stays at or below
      77.5 and the cap of 85 never binds. */
  lemma ReachableRateBelowCap(tech: Option<ClassicTech>, volatility: real, riskTolerance: string)
    requires tech.None? || RouteSnapshot(tech.value)
    ensures RawSuccessRate(tech, volatility, RiskMultiplier(riskTolerance)) <= 77.5
    ensures Clamp(RawSuccessRate(tech, volatility, RiskMultiplier(riskTolerance)), 45.0, 85.0)
            == RawSuccessRate(tech, volatility, RiskMultiplier(riskTolerance))
  {
    RawRateRange(tech, volatility, riskTolerance);
    if tech.Some? {
      ClassicConfluenceQuirk(tech.value);
    }
  }

  /** Plan arithmetic of `calculateScalpingPlan` for the quote `crypto` and
      the snapshot `techData` (absent for an auto-selected asset). */
  method BuildPlan(crypto: Quote, techData: Option<ClassicTech>, riskTolerance: string,
                   expected: Option<real>, investment: real, leverage: real)
    returns (plan: ScalpingPlan)
    ensures plan.symbol == crypto.symbol && plan.entryPrice == crypto.price
    ensures plan.direction == Long <==>
      BullishSignals(techData, crypto.priceChangePercent) > BearishSignals(techData, crypto.priceChangePercent)
    ensures 45.0 <= plan.successRate <= 85.0
    ensures plan.successRate == Clamp(RawSuccessRate(techData, Abs(crypto.priceChangePercent),
                                                     RiskMultiplier(riskTolerance)), 45.0, 85.0)
    ensures plan == AssemblePlan(crypto, plan.direction, riskTolerance, expected, investment, leverage,
                                 VolumeTrend(techData), plan.successRate)
  {
    var direction := DetermineDirection(techData, crypto.priceChangePercent);
    var riskMultiplier := RiskMultiplier(riskTolerance);
    var volatility := Abs(crypto.priceChangePercent);
    var successRate := CalculateSuccessRate(techData, volatility, riskMultiplier);
    plan := AssemblePlan(crypto, direction, riskTolerance, expected, investment, leverage,
                         VolumeTrend(techData), successRate);
  }

  /** `aiData.autoSelected && aiData.selectedSymbol`. */
  predicate AutoPick(aiSelected: Option<string>) {
    aiSelected.Some? && aiSelected.value != ""
  }

  /** The state of the original page written by `calculateScalpingPlan`. */
  class ClassicPage {
    var selectedCrypto: string
    var technicalData: Option<ClassicTech>
    var scalpingPlan: Option<ScalpingPlan>

    constructor ()
      ensures selectedCrypto == "" && technicalData.None? && scalpingPlan.None?
    {
      selectedCrypto := "";
      technicalData := None;
      scalpingPlan := None;
    }

    /** One run of `calculateScalpingPlan`. `fetchedTech` is what the
        technical-analysis route answers for the selected symbol; it is only
        requested, and stored, when a specific asset is selected and found. */
    method CalculateScalpingPlan(cryptoData: seq<Quote>, fetchedTech: ClassicTech,
                                 aiViable: bool, aiSelected: Option<string>,
                                 riskTolerance: string, expected: Option<real>, investment: real, leverage: real)
      modifies this
      ensures var specific := old(selectedCrypto) != "" && old(selectedCrypto) != "auto";
        if specific && FindQuote(cryptoData, old(selectedCrypto)).None? then
          selectedCrypto == old(selectedCrypto) && technicalData == old(technicalData) && scalpingPlan == old(scalpingPlan)
        else
          var crypto := if specific then FindQuote(cryptoData, old(selectedCrypto)) else None;
          var techData := if crypto.Some? then Some(fetchedTech) else None;
          && technicalData == (if crypto.Some? then techData else old(technicalData))
          && (!aiViable ==> scalpingPlan.None? && selectedCrypto == old(selectedCrypto))
          && (aiViable && AutoPick(aiSelected) ==> selectedCrypto == aiSelected.value)
          && (aiViable && !AutoPick(aiSelected) ==> selectedCrypto == old(selectedCrypto))
          && (aiViable ==>
                var target := if AutoPick(aiSelected) then FindQuote(cryptoData, aiSelected.value) else crypto;
                (target.None? ==> scalpingPlan == old(scalpingPlan))
                && (target.Some? ==>
                      (&& scalpingPlan.Some?
                       && scalpingPlan.value.symbol == target.value.symbol
                       && (scalpingPlan.value.direction == Long <==>
                             BullishSignals(techData, target.value.priceChangePercent)
                             > BearishSignals(techData, target.value.priceChangePercent))
                       && scalpingPlan.value.successRate
                          == Clamp(RawSuccessRate(techData, Abs(target.value.priceChangePercent),
                                                  RiskMultiplier(riskTolerance)), 45.0, 85.0)
                       && scalpingPlan.value == AssemblePlan(target.value, scalpingPlan.value.direction,
                            riskTolerance, expected, investment, leverage, VolumeTrend(techData),
                            scalpingPlan.value.successRate))))
    {
      var crypto: Option<Quote> := None;
      if selectedCrypto != "" && selectedCrypto != "auto" {
        crypto := FindQuote(cryptoData, selectedCrypto);
        if crypto.None? {
          return;
        }
      }

      var techData: Option<ClassicTech> := None;
      if crypto.Some? {
        techData := Some(fetchedTech);
        technicalData := techData;
      }

      if !aiViable {
        scalpingPlan := None;
        return;
      }

      if AutoPick(aiSelected) {
        selectedCrypto := aiSelected.value;
        crypto := FindQuote(cryptoData, aiSelected.value);
      }

      if crypto.Some? {
        var plan := BuildPlan(crypto.value, techData, riskTolerance, expected, investment, leverage);
        scalpingPlan := Some(plan);
      }
    }
  }
}
