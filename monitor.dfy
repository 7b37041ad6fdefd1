/** Position monitoring and closing, as done by the operations page
    (app/operations/page.tsx) and the real-time monitor component
    (components/real-time-monitor.tsx), which carry the same logic: the
    reached-level predicates, the alert map written on each tick, the net
    P&L and the two ways of closing a position. */
module PositionMonitor {
  import opened TradingTypes
  import opened TradingData

  datatype AlertKind = TargetReached | StopLossReached

  /** Take profit: LONG at or above the exit price, SHORT at or below it. */
  predicate TargetHit(op: TradingOperation, price: real) {
    if op.direction == Long then price >= op.exitPrice else price <= op.exitPrice
  }

  /** Stop loss: LONG at or below the stop, SHORT at or above it. */
  predicate StopHit(op: TradingOperation, price: real) {
    if op.direction == Long then price <= op.stopLoss else price >= op.stopLoss
  }

  /** Levels on the correct sides: stop below exit for LONG, above for SHORT. */
  predicate WellOrdered(op: TradingOperation) {
    if op.direction == Long then op.stopLoss < op.exitPrice else op.exitPrice < op.stopLoss
  }

  /** For a well-ordered operation the two alerts exclude each other, and a
      price strictly between the levels raises neither. */
  lemma LevelsExclusive(op: TradingOperation, price: real)
    requires WellOrdered(op)
    ensures !(TargetHit(op, price) && StopHit(op, price))
    ensures (op.direction == Long ==> (op.stopLoss < price < op.exitPrice <==> !TargetHit(op, price) && !StopHit(op, price)))
    ensures (op.direction == Short ==> (op.exitPrice < price < op.stopLoss <==> !TargetHit(op, price) && !StopHit(op, price)))
  {
  }

  /** Net P&L at `price`: the signed relative move times the leveraged stake,
      minus fees and funding. The entry price must be non-zero (the source
      would divide by zero). */
  function PnL(op: TradingOperation, price: real): (pnl: real)
    requires op.entryPrice != 0.0
    ensures price == op.entryPrice ==> pnl == -(op.fees + op.fundingCost)
  {
    var gross :=
      if op.direction == Long then ((price - op.entryPrice) / op.entryPrice) * op.investment * op.leverage
      else ((op.entryPrice - price) / op.entryPrice) * op.investment * op.leverage;
    gross - (op.fees + op.fundingCost)
  }

  /** With a positive entry and a non-negative stake, P&L rises with the
      price for LONG and falls with it for SHORT. */
  lemma PnLMonotone(op: TradingOperation, p1: real, p2: real)
    requires op.entryPrice > 0.0 && op.investment >= 0.0 && op.leverage >= 0.0
    requires p1 <= p2
    ensures op.direction == Long ==> PnL(op, p1) <= PnL(op, p2)
    ensures op.direction == Short ==> PnL(op, p1) >= PnL(op, p2)
  {
    var stake := op.investment * op.leverage;
    assert stake >= 0.0;
    var d1 := (p1 - op.entryPrice) / op.entryPrice;
    var d2 := (p2 - op.entryPrice) / op.entryPrice;
    assert d2 - d1 == (p2 - p1) / op.entryPrice;
    assert d1 <= d2;
    assert d1 * stake <= d2 * stake;
    assert d1 * op.investment * op.leverage == d1 * stake;
    assert d2 * op.investment * op.leverage == d2 * stake;
    var e1 := (op.entryPrice - p1) / op.entryPrice;
    var e2 := (op.entryPrice - p2) / op.entryPrice;
    assert e1 == -d1 && e2 == -d2;
    assert e1 * op.investment * op.leverage == -(d1 * stake);
    assert e2 * op.investment * op.leverage == -(d2 * stake);
  }

  /** What a close hands to the store. */
  datatype CloseAction =
    | CompleteWith(profit: real, exitPrice: real)
    | StopWith(loss: real, exitPrice: real)

  /** The profit the store records for an action (`stopOperation` negates). */
  function StoredProfit(a: CloseAction): real {
    match a
    case CompleteWith(p, _) => p
    case StopWith(l, _) => -l
  }

  function ToUpdate(a: CloseAction, now: int): (u: Update)
    ensures a.CompleteWith? ==> u == Complete(now, a.profit, a.exitPrice)
    ensures a.StopWith? ==> u == Stop(now, a.loss, a.exitPrice)
  {
    match a
    case CompleteWith(p, x) => Complete(now, p, x)
    case StopWith(l, x) => Stop(now, l, x)
  }

  /** `handleManualClose`: complete on a non-negative P&L, otherwise stop with
      the absolute loss. */
  function ManualCloseAction(op: TradingOperation, price: real): (a: CloseAction)
    requires op.entryPrice != 0.0
    ensures a.CompleteWith? <==> PnL(op, price) >= 0.0
    ensures a.exitPrice == price
    ensures a.StopWith? ==> a.loss > 0.0
  {
    var pnl := PnL(op, price);
    if pnl >= 0.0 then CompleteWith(pnl, price) else StopWith(Abs(pnl), price)
  }

  /** `handleConfirmClose`: the user's flag decides, not the P&L sign. */
  function ConfirmCloseAction(op: TradingOperation, price: real, isProfit: bool): (a: CloseAction)
    requires op.entryPrice != 0.0
    ensures a.CompleteWith? <==> isProfit
    ensures a.CompleteWith? ==> a.profit == PnL(op, price)
    ensures a.exitPrice == price
    ensures a.StopWith? ==> a.loss >= 0.0 && (a.loss == PnL(op, price) || a.loss == -PnL(op, price))
  {
    var pnl := PnL(op, price);
    if isProfit then CompleteWith(pnl, price) else StopWith(Abs(pnl), price)
  }

  /** A manual close records exactly the computed P&L, in either branch, and
      marks the operation COMPLETED exactly when it is not a loss. */
  lemma ManualCloseRecordsPnL(op: TradingOperation, price: real, now: int)
    requires op.entryPrice != 0.0
    ensures var closed := Apply(op, ToUpdate(ManualCloseAction(op, price), now));
      && closed.actualProfit == Some(PnL(op, price))
      && (closed.status == Completed <==> PnL(op, price) >= 0.0)
      && closed.status != Active && closed.exitPrice == price && closed.endTime == Some(now)
  {
    var a := ManualCloseAction(op, price);
    assert StoredProfit(a) == PnL(op, price);
  }

  /** Confirming a stop on a winning position records a loss of the same
      size, and confirming a profit on a losing one records a COMPLETED
      operation with negative profit. */
  lemma ConfirmCloseFollowsFlag(op: TradingOperation, price: real, now: int)
    requires op.entryPrice != 0.0
    ensures PnL(op, price) > 0.0 ==>
      Apply(op, ToUpdate(ConfirmCloseAction(op, price, false), now)).actualProfit == Some(-PnL(op, price))
    ensures PnL(op, price) < 0.0 ==>
      var closed := Apply(op, ToUpdate(ConfirmCloseAction(op, price, true), now));
      closed.status == Completed && closed.actualProfit == Some(PnL(op, price)) && PnL(op, price) < 0.0
  {
  }

  /** The P&L shown next to an active operation: zero without a quote. */
  function CurrentPnL(op: TradingOperation, quotes: seq<Quote>): (r: real)
    requires op.entryPrice != 0.0
    ensures FindQuote(quotes, op.symbol).None? ==> r == 0.0
    ensures FindQuote(quotes, op.symbol).Some? ==> r == PnL(op, FindQuote(quotes, op.symbol).value.price)
  {
    var q := FindQuote(quotes, op.symbol);
    if q.Some? then PnL(op, q.value.price) else 0.0
  }

  // ---- alerts -----------------------------------------------------------------

  /** One loop iteration of `checkOperations`. `snapshot` is the alert map
      the tick reads (the state at render time); `acc` is the map the queued
      functional updates have produced so far. The stop write comes after the
      target write, so it wins if both levels are hit. */
  function Step(snapshot: map<string, AlertKind>, acc: map<string, AlertKind>, op: TradingOperation, quotes: seq<Quote>)
    : map<string, AlertKind>
  {
    var q := FindQuote(quotes, op.symbol);
    if q.None? then acc
    else
      var afterTarget := if TargetHit(op, q.value.price) && op.id !in snapshot then acc[op.id := TargetReached] else acc;
      if StopHit(op, q.value.price) && op.id !in snapshot then afterTarget[op.id := StopLossReached] else afterTarget
  }

  /** The alert map after one tick over `ops`, left to right. */
  function TickAlerts(snapshot: map<string, AlertKind>, ops: seq<TradingOperation>, quotes: seq<Quote>)
    : map<string, AlertKind>
  {
    if |ops| == 0 then snapshot
    else Step(snapshot, TickAlerts(snapshot, ops[..|ops| - 1], quotes), ops[|ops| - 1], quotes)
  }

  predicate Alerting(op: TradingOperation, quotes: seq<Quote>) {
    FindQuote(quotes, op.symbol).Some?
    && (TargetHit(op, FindQuote(quotes, op.symbol).value.price) || StopHit(op, FindQuote(quotes, op.symbol).value.price))
  }

  /** A tick never overwrites an alert that was already raised. */
  lemma {:induction false} TickKeepsExisting(snapshot: map<string, AlertKind>, ops: seq<TradingOperation>, quotes: seq<Quote>)
    ensures forall k :: k in snapshot ==> k in TickAlerts(snapshot, ops, quotes) && TickAlerts(snapshot, ops, quotes)[k] == snapshot[k]
  {
    if |ops| > 0 {
      TickKeepsExisting(snapshot, ops[..|ops| - 1], quotes);
    }
  }

  /** The alert an operation raises at its quote: the stop-loss alert when
      the stop is hit (it is written last, so it wins), the target alert when
      only the target is. */
  predicate RaisesAlert(op: TradingOperation, quotes: seq<Quote>, kind: AlertKind) {
    FindQuote(quotes, op.symbol).Some?
    && var price := FindQuote(quotes, op.symbol).value.price;
       if StopHit(op, price) then kind == StopLossReached
       else TargetHit(op, price) && kind == TargetReached
  }

  /** One step either leaves key k as it was or writes the alert its
      operation raises. */
  lemma StepWrites(snapshot: map<string, AlertKind>, acc: map<string, AlertKind>, op: TradingOperation, quotes: seq<Quote>, k: string)
    requires k in Step(snapshot, acc, op, quotes) && k !in snapshot
    ensures || (op.id == k && Alerting(op, quotes) && RaisesAlert(op, quotes, Step(snapshot, acc, op, quotes)[k]))
            || (k in acc && Step(snapshot, acc, op, quotes)[k] == acc[k])
  {
  }

  /** The operation behind one new alert: the last one in the tick with the
      key, a quote and a level hit. */
  lemma {:induction false} NewAlertOrigin(snapshot: map<string, AlertKind>, ops: seq<TradingOperation>, quotes: seq<Quote>, k: string)
    requires k in TickAlerts(snapshot, ops, quotes) && k !in snapshot
    ensures exists i :: (0 <= i < |ops| && ops[i].id == k && Alerting(ops[i], quotes)
      && RaisesAlert(ops[i], quotes, TickAlerts(snapshot, ops, quotes)[k]))
  {
    var prefix := ops[..|ops| - 1];
    var last := ops[|ops| - 1];
    var before := TickAlerts(snapshot, prefix, quotes);
    var after := TickAlerts(snapshot, ops, quotes);
    assert after == Step(snapshot, before, last, quotes);
    StepWrites(snapshot, before, last, quotes, k);
    if last.id == k && Alerting(last, quotes) && RaisesAlert(last, quotes, after[k]) {
      assert ops[|ops| - 1] == last;
    } else {
      assert k in before && after[k] == before[k];
      NewAlertOrigin(snapshot, prefix, quotes, k);
      var i :| 0 <= i < |prefix| && prefix[i].id == k && Alerting(prefix[i], quotes)
        && RaisesAlert(prefix[i], quotes, before[k]);
      assert ops[i] == prefix[i];
    }
  }

  /** Every new alert belongs to an operation of the tick that has a quote
      and has hit one of its levels, and its kind is the one that operation
      raises; operations without a quote are skipped. */
  lemma TickAddsOnlyHits(snapshot: map<string, AlertKind>, ops: seq<TradingOperation>, quotes: seq<Quote>)
    ensures forall k :: k in TickAlerts(snapshot, ops, quotes) && k !in snapshot ==>
      exists i :: 0 <= i < |ops| && ops[i].id == k && Alerting(ops[i], quotes)
        && RaisesAlert(ops[i], quotes, TickAlerts(snapshot, ops, quotes)[k])
  {
    forall k | k in TickAlerts(snapshot, ops, quotes) && k !in snapshot
      ensures exists i :: (0 <= i < |ops| && ops[i].id == k && Alerting(ops[i], quotes)
        && RaisesAlert(ops[i], quotes, TickAlerts(snapshot, ops, quotes)[k]))
    {
      NewAlertOrigin(snapshot, ops, quotes, k);
    }
  }

  /** One step keeps every key and adds its operation's key when it alerts. */
  lemma StepCovers(snapshot: map<string, AlertKind>, acc: map<string, AlertKind>, op: TradingOperation, quotes: seq<Quote>)
    ensures acc.Keys <= Step(snapshot, acc, op, quotes).Keys
    ensures Alerting(op, quotes) && op.id !in snapshot ==> op.id in Step(snapshot, acc, op, quotes)
  {
  }

  /** One alerting operation of the tick ends up with an alert. */
  lemma {:induction false} HitIsAlerted(snapshot: map<string, AlertKind>, ops: seq<TradingOperation>, quotes: seq<Quote>, i: int)
    requires 0 <= i < |ops| && Alerting(ops[i], quotes)
    ensures ops[i].id in TickAlerts(snapshot, ops, quotes)
  {
    var prefix := ops[..|ops| - 1];
    var before := TickAlerts(snapshot, prefix, quotes);
    assert TickAlerts(snapshot, ops, quotes) == Step(snapshot, before, ops[|ops| - 1], quotes);
    StepCovers(snapshot, before, ops[|ops| - 1], quotes);
    if i < |ops| - 1 {
      assert ops[i] == prefix[i];
      HitIsAlerted(snapshot, prefix, quotes, i);
    } else if ops[i].id in snapshot {
      TickKeepsExisting(snapshot, prefix, quotes);
    }
  }

  /** Conversely, every operation with a quote that has hit a level and had
      no alert yet is alerted after the tick. */
  lemma TickAlertsEveryHit(snapshot: map<string, AlertKind>, ops: seq<TradingOperation>, quotes: seq<Quote>)
    ensures forall i :: 0 <= i < |ops| && Alerting(ops[i], quotes) ==> ops[i].id in TickAlerts(snapshot, ops, quotes)
  {
    forall i | 0 <= i < |ops| && Alerting(ops[i], quotes)
      ensures ops[i].id in TickAlerts(snapshot, ops, quotes)
    {
      HitIsAlerted(snapshot, ops, quotes, i);
    }
  }

  /** The alert state of the real-time monitor component; the close
      callbacks it receives as props are modelled by returning the action. */
  class AlertMonitor {
    var alerts: map<string, AlertKind>

    constructor ()
      ensures alerts == map[]
    {
      alerts := map[];
    }

    /** One `checkOperations` tick over the active operations. */
    method CheckOperations(activeOperations: seq<TradingOperation>, quotes: seq<Quote>)
      modifies this
      ensures alerts == TickAlerts(old(alerts), activeOperations, quotes)
    {
      var snapshot := alerts;
      for i := 0 to |activeOperations|
        invariant alerts == TickAlerts(snapshot, activeOperations[..i], quotes)
      {
        var operation := activeOperations[i];
        assert activeOperations[..i + 1][..i] == activeOperations[..i];
        var crypto := FindQuote(quotes, operation.symbol);
        if crypto.None? {
          continue;
        }
        var currentPrice := crypto.value.price;
        var targetReached := TargetHit(operation, currentPrice);
        var stopLossReached := StopHit(operation, currentPrice);
        if targetReached && operation.id !in snapshot {
          alerts := alerts[operation.id := TargetReached];
        }
        if stopLossReached && operation.id !in snapshot {
          alerts := alerts[operation.id := StopLossReached];
        }
      }
      assert activeOperations[..|activeOperations|] == activeOperations;
    }

    /** `handleManualClose`: nothing without a quote; otherwise the action
        for the callback, and the operation's alert is dropped. */
    method HandleManualClose(operation: TradingOperation, quotes: seq<Quote>) returns (action: Option<CloseAction>)
      requires operation.entryPrice != 0.0
      modifies this
      ensures FindQuote(quotes, operation.symbol).None? ==> action.None? && alerts == old(alerts)
      ensures FindQuote(quotes, operation.symbol).Some? ==>
        action == Some(ManualCloseAction(operation, FindQuote(quotes, operation.symbol).value.price))
        && alerts == old(alerts) - {operation.id}
    {
      var crypto := FindQuote(quotes, operation.symbol);
      if crypto.None? {
        return None;
      }
      action := Some(ManualCloseAction(operation, crypto.value.price));
      alerts := alerts - {operation.id};
    }

    /** `handleConfirmClose`: as the manual close, with the user's flag. */
    method HandleConfirmClose(operation: TradingOperation, isProfit: bool, quotes: seq<Quote>)
      returns (action: Option<CloseAction>)
      requires operation.entryPrice != 0.0
      modifies this
      ensures FindQuote(quotes, operation.symbol).None? ==> action.None? && alerts == old(alerts)
      ensures FindQuote(quotes, operation.symbol).Some? ==>
        action == Some(ConfirmCloseAction(operation, FindQuote(quotes, operation.symbol).value.price, isProfit))
        && alerts == old(alerts) - {operation.id}
    {
      var crypto := FindQuote(quotes, operation.symbol);
      if crypto.None? {
        return None;
      }
      action := Some(ConfirmCloseAction(operation, crypto.value.price, isProfit));
      alerts := alerts - {operation.id};
    }
  }

  /** The operations page: its own alert map plus the operation store it
      closes positions in. */
  class OperationsPage {
    var alerts: map<string, AlertKind>
    const store: TradingStore

    constructor (store: TradingStore)
      ensures this.store == store && alerts == map[]
    {
      this.store := store;
      alerts := map[];
    }

    /** One tick over the store's ACTIVE operations. */
    method CheckOperations(quotes: seq<Quote>)
      modifies this
      ensures alerts == TickAlerts(old(alerts), store.GetActiveOperations(), quotes)
    {
      var activeOperations := store.GetActiveOperations();
      var snapshot := alerts;
      for i := 0 to |activeOperations|
        invariant alerts == TickAlerts(snapshot, activeOperations[..i], quotes)
      {
        var operation := activeOperations[i];
        assert activeOperations[..i + 1][..i] == activeOperations[..i];
        var crypto := FindQuote(quotes, operation.symbol);
        if crypto.None? {
          continue;
        }
        var currentPrice := crypto.value.price;
        if TargetHit(operation, currentPrice) && operation.id !in snapshot {
          alerts := alerts[operation.id := TargetReached];
        }
        if StopHit(operation, currentPrice) && operation.id !in snapshot {
          alerts := alerts[operation.id := StopLossReached];
        }
      }
      assert activeOperations[..|activeOperations|] == activeOperations;
    }

    /** `handleManualClose`, applied to the store at time `now`. */
    method HandleManualClose(operation: TradingOperation, quotes: seq<Quote>, now: int)
      requires operation.entryPrice != 0.0
      modifies this, store
      ensures FindQuote(quotes, operation.symbol).None? ==>
        alerts == old(alerts) && store.operations == old(store.operations)
      ensures FindQuote(quotes, operation.symbol).Some? ==>
        var a := ManualCloseAction(operation, FindQuote(quotes, operation.symbol).value.price);
        && store.operations == ApplyToId(old(store.operations), operation.id, ToUpdate(a, now))
        && alerts == old(alerts) - {operation.id}
      ensures store.settings == old(store.settings) && store.stats == old(store.stats)
    {
      var crypto := FindQuote(quotes, operation.symbol);
      if crypto.None? {
        return;
      }
      var action := ManualCloseAction(operation, crypto.value.price);
      if action.CompleteWith? {
        store.CompleteOperation(operation.id, action.profit, action.exitPrice, now);
      } else {
        store.StopOperation(operation.id, action.loss, action.exitPrice, now);
      }
      alerts := alerts - {operation.id};
    }

    /** `handleConfirmClose`, applied to the store at time `now`. */
    method HandleConfirmClose(operation: TradingOperation, isProfit: bool, quotes: seq<Quote>, now: int)
      requires operation.entryPrice != 0.0
      modifies this, store
      ensures FindQuote(quotes, operation.symbol).None? ==>
        alerts == old(alerts) && store.operations == old(store.operations)
      ensures FindQuote(quotes, operation.symbol).Some? ==>
        var a := ConfirmCloseAction(operation, FindQuote(quotes, operation.symbol).value.price, isProfit);
        && store.operations == ApplyToId(old(store.operations), operation.id, ToUpdate(a, now))
        && alerts == old(alerts) - {operation.id}
      ensures store.settings == old(store.settings) && store.stats == old(store.stats)
    {
      var crypto := FindQuote(quotes, operation.symbol);
      if crypto.None? {
        return;
      }
      var action := ConfirmCloseAction(operation, crypto.value.price, isProfit);
      if action.CompleteWith? {
        store.CompleteOperation(operation.id, action.profit, action.exitPrice, now);
      } else {
        store.StopOperation(operation.id, action.loss, action.exitPrice, now);
      }
      alerts := alerts - {operation.id};
    }
  }
}
