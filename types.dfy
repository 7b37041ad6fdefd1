/** Shared vocabulary of the scalping dashboard: the operation record, the
    user settings, a market quote, and small sequence helpers used by every
    other module. Absent JavaScript fields (`undefined`) are `None`. */
module TradingTypes {

  datatype Option<+T> = None | Some(value: T) {
    function GetOr(default: T): T {
      match this
      case Some(v) => v
      case None => default
    }
  }

  datatype Direction = Long | Short

  datatype Status = Planned | Active | Completed | Stopped

  /** The persisted trade record. Times are milliseconds since the epoch. */
  datatype TradingOperation = TradingOperation(
    id: string,
    symbol: string,
    direction: Direction,
    entryPrice: real,
    exitPrice: real,
    stopLoss: real,
    leverage: real,
    investment: real,
    status: Status,
    startTime: int,
    endTime: Option<int>,
    plannedProfit: real,
    actualProfit: Option<real>,
    fees: real,
    fundingCost: real,
    duration: string,
    successRate: real,
    aiRecommendation: string)

  datatype UserSettings = UserSettings(
    initialCapital: Option<real>,
    autoCalculateCapital: bool,
    riskPercentage: real,
    maxSimultaneousOperations: int,
    enableRealTimeAlerts: bool)

  /** One asset record of a market-data poll, already parsed to numbers. */
  datatype Quote = Quote(
    symbol: string,
    price: real,
    priceChangePercent: real,
    volume: real,
    fundingRate: Option<real>)

  function Abs(x: real): (r: real)
    ensures r >= 0.0 && (r == x || r == -x)
  {
    if x < 0.0 then -x else x
  }

  /** `op.actualProfit || 0`: a missing profit counts as zero. */
  function ProfitOrZero(op: TradingOperation): (r: real)
    ensures op.actualProfit.None? ==> r == 0.0
    ensures op.actualProfit.Some? ==> r == op.actualProfit.value
  {
    op.actualProfit.GetOr(0.0)
  }

  predicate IsFinished(op: TradingOperation) {
    op.status == Completed || op.status == Stopped
  }

  /** `s.find(p)`: the first element satisfying p, `None` when there is none. */
  function FindFirst<T>(s: seq<T>, p: T -> bool): (r: Option<T>)
    ensures r.None? <==> forall i :: 0 <= i < |s| ==> !p(s[i])
    ensures r.Some? ==> exists i :: 0 <= i < |s| && s[i] == r.value && p(r.value)
                          && forall j :: 0 <= j < i ==> !p(s[j])
  {
    if |s| == 0 then None
    else if p(s[0]) then Some(s[0])
    else
      var r := FindFirst(s[1..], p);
      assert forall i :: 1 <= i < |s| ==> s[i] == s[1..][i - 1];
      assert r.Some? ==> exists i :: 1 <= i < |s| && s[i] == r.value && p(r.value)
                          && forall j :: 0 <= j < i ==> !p(s[j]) by {
        if r.Some? {
          var i :| 0 <= i < |s| - 1 && s[1..][i] == r.value && p(r.value)
                     && forall j :: 0 <= j < i ==> !p(s[1..][j]);
          assert s[i + 1] == r.value;
          forall j | 0 <= j < i + 1 ensures !p(s[j]) {
            if j > 0 { assert s[j] == s[1..][j - 1]; }
          }
        }
      }
      r
  }

  /** `cryptoData.find((c) => c.symbol === symbol)`: the first quote for the symbol. */
  function FindQuote(quotes: seq<Quote>, symbol: string): (r: Option<Quote>)
    ensures r.None? <==> forall i :: 0 <= i < |quotes| ==> quotes[i].symbol != symbol
    ensures r.Some? ==> exists i :: 0 <= i < |quotes| && quotes[i] == r.value && r.value.symbol == symbol
                          && forall j :: 0 <= j < i ==> quotes[j].symbol != symbol
  {
    FindFirst(quotes, (q: Quote) => q.symbol == symbol)
  }

  /** `s.filter(p)`: the elements satisfying p, in their original order. */
  function Filter<T>(s: seq<T>, p: T -> bool): (r: seq<T>)
    ensures |r| <= |s|
    ensures forall i :: 0 <= i < |r| ==> p(r[i])
    ensures forall i :: 0 <= i < |r| ==> r[i] in s
    ensures forall i :: 0 <= i < |s| && p(s[i]) ==> s[i] in r
    ensures multiset(r) <= multiset(s)
  {
    if |s| == 0 then []
    else
      var rest := Filter(s[1..], p);
      FilterStep(s, p, rest);
      if p(s[0]) then [s[0]] + rest else rest
  }

  /** The step of `Filter`: what the filter of the tail promises carries over
      to the whole sequence. */
  lemma FilterStep<T>(s: seq<T>, p: T -> bool, rest: seq<T>)
    requires |s| > 0
    requires forall i :: 0 <= i < |rest| ==> p(rest[i])
    requires forall i :: 1 <= i < |s| && p(s[i]) ==> s[i] in rest
    requires multiset(rest) <= multiset(s[1..])
    requires |rest| <= |s| - 1
    ensures var r := if p(s[0]) then [s[0]] + rest else rest;
      && (forall i :: 0 <= i < |r| ==> p(r[i]))
      && (forall i :: 0 <= i < |s| && p(s[i]) ==> s[i] in r)
      && multiset(r) <= multiset(s)
      && (forall i :: 0 <= i < |r| ==> r[i] in s)
      && |r| <= |s|
  {
    assert s == [s[0]] + s[1..];
    assert multiset(s) == multiset{s[0]} + multiset(s[1..]);
    var r := if p(s[0]) then [s[0]] + rest else rest;
    if p(s[0]) {
      assert multiset(r) == multiset{s[0]} + multiset(rest);
    }
    forall i | 0 <= i < |r| ensures r[i] in s {
      assert r[i] in multiset(r);
    }
  }

  /** Filtering distributes over concatenation, which is what "keeps the
      relative order of the kept elements" means for a filter. */
  lemma {:induction false} FilterAppend<T>(a: seq<T>, b: seq<T>, p: T -> bool)
    ensures Filter(a + b, p) == Filter(a, p) + Filter(b, p)
  {
    if |a| == 0 {
      assert a + b == b;
    } else {
      assert (a + b)[0] == a[0];
      assert (a + b)[1..] == a[1..] + b;
      FilterAppend(a[1..], b, p);
    }
  }

  /** Two complementary filters split a sequence exactly. */
  lemma {:induction false} FilterComplement<T>(s: seq<T>, p: T -> bool, q: T -> bool)
    requires forall x :: x in s ==> (p(x) <==> !q(x))
    ensures |Filter(s, p)| + |Filter(s, q)| == |s|
  {
    if |s| > 0 {
      assert forall x :: x in s[1..] ==> x in s;
      FilterComplement(s[1..], p, q);
    }
  }

  /** Sum of f over the sequence (a `reduce` with initial value 0). */
  function SumOf<T>(s: seq<T>, f: T -> real): real {
    if |s| == 0 then 0.0 else f(s[0]) + SumOf(s[1..], f)
  }
}
