/** The operation store of `useTradingData` (hooks/useTradingData.ts): the
    operation list with its lifecycle updates, the user settings, and the
    statistics recomputed from both. Ids and clock readings are parameters. */
module TradingData {
  import opened TradingTypes

  /** What a caller hands to `addOperation`: every field except the id, the
      start time and the status, which the store fills in. */
  datatype OperationDraft = OperationDraft(
    symbol: string,
    direction: Direction,
    entryPrice: real,
    exitPrice: real,
    stopLoss: real,
    leverage: real,
    investment: real,
    endTime: Option<int>,
    plannedProfit: real,
    actualProfit: Option<real>,
    fees: real,
    fundingCost: real,
    duration: string,
    successRate: real,
    aiRecommendation: string)

  function NewOperation(d: OperationDraft, id: string, now: int): (op: TradingOperation)
    ensures op.id == id && op.startTime == now && op.status == Planned
    ensures op.symbol == d.symbol && op.direction == d.direction && op.investment == d.investment
    ensures op.entryPrice == d.entryPrice && op.exitPrice == d.exitPrice && op.stopLoss == d.stopLoss
    ensures op.leverage == d.leverage && op.endTime == d.endTime
    ensures op.plannedProfit == d.plannedProfit && op.actualProfit == d.actualProfit
    ensures op.fees == d.fees && op.fundingCost == d.fundingCost && op.duration == d.duration
    ensures op.successRate == d.successRate && op.aiRecommendation == d.aiRecommendation
  {
    TradingOperation(id, d.symbol, d.direction, d.entryPrice, d.exitPrice, d.stopLoss, d.leverage,
                     d.investment, Planned, now, d.endTime, d.plannedProfit, d.actualProfit, d.fees,
                     d.fundingCost, d.duration, d.successRate, d.aiRecommendation)
  }

  /** The three lifecycle updates, applied to every operation with the id. */
  datatype Update =
    | Start(now: int)
    | Complete(now: int, actualProfit: real, actualExitPrice: real)
    | Stop(now: int, actualLoss: real, actualExitPrice: real)

  /** One operation after an update. No update looks at the prior status. */
  function Apply(op: TradingOperation, u: Update): (r: TradingOperation)
    ensures r.id == op.id && r.symbol == op.symbol && r.direction == op.direction
    ensures r.entryPrice == op.entryPrice && r.investment == op.investment && r.leverage == op.leverage
    ensures u.Start? ==> r == op.(status := Active, startTime := u.now)
    ensures u.Complete? ==> r == op.(status := Completed, endTime := Some(u.now),
                                     actualProfit := Some(u.actualProfit), exitPrice := u.actualExitPrice)
    ensures u.Stop? ==> r == op.(status := Stopped, endTime := Some(u.now),
                                 actualProfit := Some(-u.actualLoss), exitPrice := u.actualExitPrice)
    ensures !u.Start? ==> IsFinished(r) && r.startTime == op.startTime
  {
    match u
    case Start(now) => op.(status := Active, startTime := now)
    case Complete(now, profit, exit) =>
      op.(status := Completed, endTime := Some(now), actualProfit := Some(profit), exitPrice := exit)
    case Stop(now, loss, exit) =>
      op.(status := Stopped, endTime := Some(now), actualProfit := Some(-loss), exitPrice := exit)
  }

  /** `prev.map((op) => op.id === id ? update(op) : op)`. */
  function ApplyToId(ops: seq<TradingOperation>, id: string, u: Update): (r: seq<TradingOperation>)
    ensures |r| == |ops|
    ensures forall i :: 0 <= i < |ops| && ops[i].id == id ==> r[i] == Apply(ops[i], u)
    ensures forall i :: 0 <= i < |ops| && ops[i].id != id ==> r[i] == ops[i]
  {
    if |ops| == 0 then []
    else [if ops[0].id == id then Apply(ops[0], u) else ops[0]] + ApplyToId(ops[1..], id, u)
  }

  /** An update keeps the id sequence: nothing is added, removed or reordered. */
  lemma UpdateKeepsIds(ops: seq<TradingOperation>, id: string, u: Update)
    ensures forall i :: 0 <= i < |ops| ==> ApplyToId(ops, id, u)[i].id == ops[i].id
  {
  }

  /** The lifecycle is not guarded: starting a finished operation makes it
      ACTIVE again, with a fresh start time. */
  lemma StartReopensFinished(ops: seq<TradingOperation>, i: nat, now: int)
    requires i < |ops| && IsFinished(ops[i])
    ensures ApplyToId(ops, ops[i].id, Start(now))[i].status == Active
    ensures !IsFinished(ApplyToId(ops, ops[i].id, Start(now))[i])
  {
  }

  /** Completing or stopping never turns a finished operation back into an
      open one, so the finished list can only grow. */
  lemma {:induction false} ClosingKeepsFinished(ops: seq<TradingOperation>, id: string, u: Update)
    requires !u.Start?
    ensures |Filter(ops, IsFinished)| <= |Filter(ApplyToId(ops, id, u), IsFinished)|
  {
    if |ops| > 0 {
      var r := ApplyToId(ops, id, u);
      assert r == [r[0]] + ApplyToId(ops[1..], id, u);
      assert IsFinished(ops[0]) ==> IsFinished(r[0]);
      ClosingKeepsFinished(ops[1..], id, u);
    }
  }

  function KeepOther(id: string): TradingOperation -> bool {
    (op: TradingOperation) => op.id != id
  }

  /** `prev.filter((op) => op.id !== id)`. */
  function RemoveId(ops: seq<TradingOperation>, id: string): (r: seq<TradingOperation>)
    ensures forall i :: 0 <= i < |r| ==> r[i].id != id
    ensures forall i :: 0 <= i < |ops| && ops[i].id != id ==> ops[i] in r
    ensures multiset(r) <= multiset(ops)
  {
    Filter(ops, KeepOther(id))
  }

  /** Deleting drops exactly the operations carrying the id (all of them,
      since ids are not guaranteed unique) and keeps the others in order:
      deletion distributes over concatenation. */
  lemma DeleteRemovesExactly(ops: seq<TradingOperation>, rest: seq<TradingOperation>, id: string)
    ensures |RemoveId(ops, id)| + |Filter(ops, (op: TradingOperation) => op.id == id)| == |ops|
    ensures RemoveId(ops + rest, id) == RemoveId(ops, id) + RemoveId(rest, id)
  {
    FilterComplement(ops, KeepOther(id), (op: TradingOperation) => op.id == id);
    FilterAppend(ops, rest, KeepOther(id));
  }

  // ---- statistics -------------------------------------------------------------

  datatype TradingStats = TradingStats(
    totalCapital: real,
    totalOperations: nat,
    successfulOperations: nat,
    totalProfit: real,
    todayOperations: nat,
    todayProfit: real,
    successRate: real,
    averageDuration: real,
    longOperations: nat,
    shortOperations: nat)

  /** The store's initial statistics and settings. */
  const InitialStats := TradingStats(1000.0, 0, 0, 0.0, 0, 0.0, 0.0, 0.0, 0, 0)
  const DefaultSettings := UserSettings(None, true, 2.0, 3, true)

  predicate EndedSince(todayStart: int, op: TradingOperation) {
    op.endTime.Some? && op.endTime.value >= todayStart
  }

  /** `op.actualProfit && op.actualProfit > 0`: strictly positive profit. */
  predicate Successful(op: TradingOperation) {
    op.actualProfit.Some? && op.actualProfit.value > 0.0
  }

  predicate IsLong(op: TradingOperation) { op.direction == Long }
  predicate IsShort(op: TradingOperation) { op.direction == Short }

  predicate HasEnd(op: TradingOperation) {
    op.endTime.Some?
  }

  /** Minutes between start and end, zero without an end time. */
  function DurationMinutes(op: TradingOperation): real {
    if op.endTime.Some? then (op.endTime.value - op.startTime) as real / 60000.0 else 0.0
  }

  /** `settings.initialCapital || 1000`: absent or zero reads as 1000. */
  function InitialCapital(settings: UserSettings): (c: real)
    ensures settings.initialCapital.None? ==> c == 1000.0
    ensures settings.initialCapital == Some(0.0) ==> c == 1000.0
    ensures settings.initialCapital.Some? && settings.initialCapital.value != 0.0 ==> c == settings.initialCapital.value
  {
    if settings.initialCapital.Some? && settings.initialCapital.value != 0.0
    then settings.initialCapital.value else 1000.0
  }

  /** `calculateStats`: a fold over the finished (COMPLETED or STOPPED)
      operations and the settings; `todayStart` is local midnight. */
  function StatsOf(ops: seq<TradingOperation>, settings: UserSettings, todayStart: int): (st: TradingStats)
    ensures st.totalOperations == |Filter(ops, IsFinished)|
    ensures st.successfulOperations == |Filter(Filter(ops, IsFinished), Successful)|
    ensures st.totalProfit == SumOf(Filter(ops, IsFinished), ProfitOrZero)
    ensures st.successRate == Percent(st.successfulOperations, st.totalOperations)
    ensures st.longOperations == |Filter(Filter(ops, IsFinished), IsLong)|
    ensures st.shortOperations == |Filter(Filter(ops, IsFinished), IsShort)|
    ensures st.totalCapital == InitialCapital(settings) + (if settings.autoCalculateCapital then st.totalProfit else 0.0)
  {
    FinishedStats(Filter(ops, IsFinished), settings, todayStart)
  }

  /** The statistics of an already filtered list of finished operations. */
  function FinishedStats(completed: seq<TradingOperation>, settings: UserSettings, todayStart: int): (st: TradingStats)
    ensures st.totalOperations == |completed|
    ensures st.successfulOperations == |Filter(completed, Successful)|
    ensures st.totalProfit == SumOf(completed, ProfitOrZero)
    ensures st.successRate == Percent(st.successfulOperations, st.totalOperations)
    ensures st.todayOperations == |Filter(completed, (op: TradingOperation) => EndedSince(todayStart, op))|
    ensures st.todayProfit == SumOf(Filter(completed, (op: TradingOperation) => EndedSince(todayStart, op)), ProfitOrZero)
    ensures st.longOperations == |Filter(completed, IsLong)|
    ensures st.shortOperations == |Filter(completed, IsShort)|
    ensures st.averageDuration == Mean(SumOf(Filter(completed, HasEnd), DurationMinutes), |Filter(completed, HasEnd)|)
    ensures st.totalCapital == InitialCapital(settings) + (if settings.autoCalculateCapital then st.totalProfit else 0.0)
  {
    var todayOps := Filter(completed, (op: TradingOperation) => EndedSince(todayStart, op));
    var successfulOps := Filter(completed, Successful);
    var totalProfit := SumOf(completed, ProfitOrZero);
    var ended := Filter(completed, HasEnd);
    var averageDuration := Mean(SumOf(ended, DurationMinutes), |ended|);
    var capital := if settings.autoCalculateCapital then InitialCapital(settings) + totalProfit
                   else InitialCapital(settings);
    TradingStats(
      capital,
      |completed|,
      |successfulOps|,
      totalProfit,
      |todayOps|,
      SumOf(todayOps, ProfitOrZero),
      Percent(|successfulOps|, |completed|),
      averageDuration,
      |Filter(completed, IsLong)|,
      |Filter(completed, IsShort)|)
  }

  /** `(part / whole) * 100`, and 0 when `whole` is 0. */
  function Percent(part: nat, whole: nat): (p: real)
    ensures whole == 0 ==> p == 0.0
    ensures part <= whole ==> 0.0 <= p <= 100.0
    ensures whole > 0 ==> p * whole as real == part as real * 100.0
  {
    if whole > 0 then
      var w := whole as real;
      var q := part as real / w;
      assert q * w == part as real;
      assert part <= whole ==> (1.0 - q) * w == w - part as real >= 0.0;
      (part as real / whole as real) * 100.0
    else 0.0
  }

  /** `total / count`, and 0 for an empty count. */
  function Mean(total: real, count: nat): (m: real)
    ensures count == 0 ==> m == 0.0
    ensures count > 0 ==> m * count as real == total
  {
    if count > 0 then total / count as real else 0.0
  }

  /** The counters are consistent with each other: every finished operation
      is LONG or SHORT, success and today's count are sub-counts, and the
      success rate is a percentage (0 with nothing finished). */
  lemma StatsConsistent(ops: seq<TradingOperation>, settings: UserSettings, todayStart: int)
    ensures var st := StatsOf(ops, settings, todayStart);
      && st.longOperations + st.shortOperations == st.totalOperations
      && st.successfulOperations <= st.totalOperations
      && st.todayOperations <= st.totalOperations
      && 0.0 <= st.successRate <= 100.0
      && (st.totalOperations == 0 ==> st.successRate == 0.0 && st.averageDuration == 0.0 && st.totalProfit == 0.0)
  {
    var completed := Filter(ops, IsFinished);
    FilterComplement(completed, IsLong, IsShort);
  }

  /** Adding a PLANNED operation leaves the statistics as they were. */
  lemma {:induction false} AddKeepsStats(ops: seq<TradingOperation>, op: TradingOperation, settings: UserSettings, todayStart: int)
    requires op.status == Planned
    ensures StatsOf(ops + [op], settings, todayStart) == StatsOf(ops, settings, todayStart)
  {
    FilterAppend(ops, [op], IsFinished);
    assert Filter([op], IsFinished) == [];
    assert Filter(ops + [op], IsFinished) == Filter(ops, IsFinished);
  }

  /** The hook's initial statistics are what the statistics of an empty list
      under the default settings compute to. */
  lemma InitialStatsConsistent(todayStart: int)
    ensures StatsOf([], DefaultSettings, todayStart) == InitialStats
  {
  }

  /** With automatic capital off, the capital ignores every trade. */
  lemma FixedCapital(ops: seq<TradingOperation>, settings: UserSettings, todayStart: int)
    requires !settings.autoCalculateCapital
    ensures StatsOf(ops, settings, todayStart).totalCapital == InitialCapital(settings)
  {
  }

  /** `Partial<UserSettings>`: a present key overwrites, even with
      `undefined` (only the capital is optional, hence its double option). */
  datatype SettingsPatch = SettingsPatch(
    initialCapital: Option<Option<real>>,
    autoCalculateCapital: Option<bool>,
    riskPercentage: Option<real>,
    maxSimultaneousOperations: Option<int>,
    enableRealTimeAlerts: Option<bool>)

  function Merge(prev: UserSettings, patch: SettingsPatch): (s: UserSettings)
    ensures patch.initialCapital.Some? ==> s.initialCapital == patch.initialCapital.value
    ensures patch.initialCapital.None? ==> s.initialCapital == prev.initialCapital
    ensures patch.autoCalculateCapital.Some? ==> s.autoCalculateCapital == patch.autoCalculateCapital.value
    ensures patch.autoCalculateCapital.None? ==> s.autoCalculateCapital == prev.autoCalculateCapital
    ensures patch.riskPercentage.Some? ==> s.riskPercentage == patch.riskPercentage.value
    ensures patch.riskPercentage.None? ==> s.riskPercentage == prev.riskPercentage
    ensures patch.maxSimultaneousOperations.Some? ==> s.maxSimultaneousOperations == patch.maxSimultaneousOperations.value
    ensures patch.maxSimultaneousOperations.None? ==> s.maxSimultaneousOperations == prev.maxSimultaneousOperations
    ensures patch.enableRealTimeAlerts.Some? ==> s.enableRealTimeAlerts == patch.enableRealTimeAlerts.value
    ensures patch.enableRealTimeAlerts.None? ==> s.enableRealTimeAlerts == prev.enableRealTimeAlerts
  {
    UserSettings(
      if patch.initialCapital.Some? then patch.initialCapital.value else prev.initialCapital,
      patch.autoCalculateCapital.GetOr(prev.autoCalculateCapital),
      patch.riskPercentage.GetOr(prev.riskPercentage),
      patch.maxSimultaneousOperations.GetOr(prev.maxSimultaneousOperations),
      patch.enableRealTimeAlerts.GetOr(prev.enableRealTimeAlerts))
  }

  /** An empty patch changes nothing, and applying a patch twice is the same
      as applying it once. */
  lemma MergeIdempotent(prev: UserSettings, patch: SettingsPatch)
    ensures Merge(prev, SettingsPatch(None, None, None, None, None)) == prev
    ensures Merge(Merge(prev, patch), patch) == Merge(prev, patch)
  {
  }

  predicate IsActive(op: TradingOperation) { op.status == Active }
  predicate IsPlanned(op: TradingOperation) { op.status == Planned }

  /** The state held by the hook. */
  class TradingStore {
    var operations: seq<TradingOperation>
    var stats: TradingStats
    var settings: UserSettings

    constructor ()
      ensures operations == [] && stats == InitialStats && settings == DefaultSettings
    {
      operations := [];
      stats := InitialStats;
      settings := DefaultSettings;
    }

    /** `addOperation`: appends one PLANNED operation stamped with `now`. */
    method AddOperation(draft: OperationDraft, id: string, now: int) returns (newId: string)
      modifies this
      ensures newId == id
      ensures operations == old(operations) + [NewOperation(draft, id, now)]
      ensures operations[|operations| - 1].status == Planned
      ensures settings == old(settings) && stats == old(stats)
    {
      operations := operations + [NewOperation(draft, id, now)];
      newId := id;
    }

    method StartOperation(id: string, now: int)
      modifies this
      ensures operations == ApplyToId(old(operations), id, Start(now))
      ensures settings == old(settings) && stats == old(stats)
    {
      operations := ApplyToId(operations, id, Start(now));
    }

    method CompleteOperation(id: string, actualProfit: real, actualExitPrice: real, now: int)
      modifies this
      ensures operations == ApplyToId(old(operations), id, Complete(now, actualProfit, actualExitPrice))
      ensures settings == old(settings) && stats == old(stats)
    {
      operations := ApplyToId(operations, id, Complete(now, actualProfit, actualExitPrice));
    }

    method StopOperation(id: string, actualLoss: real, actualExitPrice: real, now: int)
      modifies this
      ensures operations == ApplyToId(old(operations), id, Stop(now, actualLoss, actualExitPrice))
      ensures settings == old(settings) && stats == old(stats)
    {
      operations := ApplyToId(operations, id, Stop(now, actualLoss, actualExitPrice));
    }

    method DeleteOperation(id: string)
      modifies this
      ensures operations == RemoveId(old(operations), id)
      ensures settings == old(settings) && stats == old(stats)
    {
      operations := RemoveId(operations, id);
    }

    method DeleteAllOperations()
      modifies this
      ensures operations == []
      ensures settings == old(settings) && stats == old(stats)
    {
      operations := [];
    }

    method UpdateSettings(patch: SettingsPatch)
      modifies this
      ensures settings == Merge(old(settings), patch)
      ensures operations == old(operations) && stats == old(stats)
    {
      settings := Merge(settings, patch);
    }

    /** The effect that recomputes the statistics whenever the operations or
        the settings change. */
    method CalculateStats(todayStart: int)
      modifies this
      ensures stats == StatsOf(operations, settings, todayStart)
      ensures operations == old(operations) && settings == old(settings)
    {
      stats := StatsOf(operations, settings, todayStart);
    }

    function GetActiveOperations(): (r: seq<TradingOperation>)
      reads this
      ensures forall i :: 0 <= i < |r| ==> r[i].status == Active
      ensures forall i :: 0 <= i < |operations| && operations[i].status == Active ==> operations[i] in r
      ensures multiset(r) <= multiset(operations)
    {
      Filter(operations, IsActive)
    }

    function GetPlannedOperations(): (r: seq<TradingOperation>)
      reads this
      ensures forall i :: 0 <= i < |r| ==> r[i].status == Planned
      ensures forall i :: 0 <= i < |operations| && operations[i].status == Planned ==> operations[i] in r
      ensures multiset(r) <= multiset(operations)
    {
      Filter(operations, IsPlanned)
    }
  }
}
