/** The history view (app/history/page.tsx): the status filter, the
    case-insensitive search, the four sort orders, the summary cards and the
    per-operation duration and profit percentage. Everything is computed
    from the operation list on each render; nothing is updated in place. */
module History {
  import opened TradingTypes
  import opened TradingData

  // ---- status filter ----------------------------------------------------------

  /** The status selector: "completed", "stopped", "active" and "planned"
      keep that status; any other value ("all" included) keeps the finished
      operations. */
  predicate StatusMatches(filter: string, op: TradingOperation) {
    if filter == "completed" then op.status == Completed
    else if filter == "stopped" then op.status == Stopped
    else if filter == "active" then op.status == Active
    else if filter == "planned" then op.status == Planned
    else IsFinished(op)
  }

  /** "all" and unknown values never show PLANNED or ACTIVE operations. */
  lemma DefaultFilterHidesOpen(filter: string, op: TradingOperation)
    requires filter != "completed" && filter != "stopped" && filter != "active" && filter != "planned"
    ensures StatusMatches(filter, op) <==> op.status == Completed || op.status == Stopped
  {
  }

  // ---- search -----------------------------------------------------------------

  /** ASCII lower-casing of one character. */
  function LowerChar(c: char): (r: char)
    ensures 'A' <= c <= 'Z' ==> r as int == c as int + 32
    ensures !('A' <= c <= 'Z') ==> r == c
    ensures !('A' <= r <= 'Z')
  {
    if 'A' <= c <= 'Z' then (c as int + 32) as char else c
  }

  function ToLower(s: string): (r: string)
    ensures |r| == |s|
    ensures forall i :: 0 <= i < |s| ==> r[i] == LowerChar(s[i])
  {
    if |s| == 0 then "" else [LowerChar(s[0])] + ToLower(s[1..])
  }

  /** Lower-casing twice changes nothing more. */
  lemma ToLowerIdempotent(s: string)
    ensures ToLower(ToLower(s)) == ToLower(s)
  {
    assert forall i :: 0 <= i < |s| ==> ToLower(ToLower(s))[i] == ToLower(s)[i];
  }

  /** `haystack.includes(needle)`. */
  predicate Contains(haystack: string, needle: string)
    decreases |haystack|
  {
    needle <= haystack || (|haystack| > 0 && Contains(haystack[1..], needle))
  }

  /** The needle occurs in the haystack at offset k. */
  predicate OccursAt(haystack: string, needle: string, k: int) {
    0 <= k && k + |needle| <= |haystack| && haystack[k..k + |needle|] == needle
  }

  /** `includes` in terms of a position: the needle occurs at some offset. */
  lemma {:induction false} ContainsAt(haystack: string, needle: string)
    ensures Contains(haystack, needle) <==> exists k :: OccursAt(haystack, needle, k)
    decreases |haystack|
  {
    if needle <= haystack {
      assert OccursAt(haystack, needle, 0);
    }
    if |haystack| > 0 {
      ContainsAt(haystack[1..], needle);
      if Contains(haystack[1..], needle) {
        var k :| OccursAt(haystack[1..], needle, k);
        assert haystack[1..][k..k + |needle|] == haystack[k + 1..k + 1 + |needle|];
        assert OccursAt(haystack, needle, k + 1);
      }
      if exists k :: OccursAt(haystack, needle, k) {
        var k :| OccursAt(haystack, needle, k);
        if k > 0 {
          assert haystack[1..][k - 1..k - 1 + |needle|] == haystack[k..k + |needle|];
          assert OccursAt(haystack[1..], needle, k - 1);
        } else {
          assert needle <= haystack;
        }
      }
    } else {
      if exists k :: OccursAt(haystack, needle, k) {
        var k :| OccursAt(haystack, needle, k);
        assert needle == [];
        assert needle <= haystack;
      }
    }
  }

  function DirectionText(d: Direction): string {
    if d == Long then "LONG" else "SHORT"
  }

  /** The search box: the lower-cased symbol or direction contains the
      lower-cased term. */
  predicate SearchMatches(term: string, op: TradingOperation) {
    Contains(ToLower(op.symbol), ToLower(term)) || Contains(ToLower(DirectionText(op.direction)), ToLower(term))
  }

  /** An empty search keeps every operation, an operation is found by its
      own symbol, and the case of the term does not matter. */
  lemma SearchProperties(op: TradingOperation, term: string)
    ensures SearchMatches("", op)
    ensures SearchMatches(op.symbol, op)
    ensures SearchMatches(ToLower(term), op) <==> SearchMatches(term, op)
  {
    assert ToLower("") == "";
    assert "" <= ToLower(op.symbol);
    ToLowerIdempotent(term);
  }

  // ---- sort -------------------------------------------------------------------

  datatype SortKey = ByProfit | ByDuration | BySymbol | ByDate

  /** The sort selector; any unknown value sorts by date. */
  function ParseSortKey(sortBy: string): (k: SortKey)
    ensures k == ByProfit <==> sortBy == "profit"
    ensures k == ByDuration <==> sortBy == "duration"
    ensures k == BySymbol <==> sortBy == "symbol"
  {
    if sortBy == "profit" then ByProfit
    else if sortBy == "duration" then ByDuration
    else if sortBy == "symbol" then BySymbol
    else ByDate
  }

  /** Milliseconds between start and end, zero without an end time. */
  function DurationMillis(op: TradingOperation): int {
    if op.endTime.Some? then op.endTime.value - op.startTime else 0
  }

  /** Character-code lexicographic order, standing in for `localeCompare`. */
  predicate LexLe(a: string, b: string) {
    if |a| == 0 then true
    else if |b| == 0 then false
    else if a[0] < b[0] then true
    else if a[0] > b[0] then false
    else LexLe(a[1..], b[1..])
  }

  lemma {:induction false} LexLeTotal(a: string, b: string)
    ensures LexLe(a, b) || LexLe(b, a)
  {
    if |a| > 0 && |b| > 0 && a[0] == b[0] {
      LexLeTotal(a[1..], b[1..]);
    }
  }

  lemma {:induction false} LexLeTrans(a: string, b: string, c: string)
    requires LexLe(a, b) && LexLe(b, c)
    ensures LexLe(a, c)
  {
    if |a| > 0 && |b| > 0 && |c| > 0 && a[0] == b[0] && b[0] == c[0] {
      LexLeTrans(a[1..], b[1..], c[1..]);
    }
  }

  /** `a` may be placed before `b`: the comparator does not put `b` first.
      Profit, duration and date sort descending, the symbol ascending. */
  predicate Le(key: SortKey, a: TradingOperation, b: TradingOperation) {
    match key
    case ByProfit => ProfitOrZero(a) >= ProfitOrZero(b)
    case ByDuration => DurationMillis(a) >= DurationMillis(b)
    case BySymbol => LexLe(a.symbol, b.symbol)
    case ByDate => a.startTime >= b.startTime
  }

  lemma LeTotal(key: SortKey, a: TradingOperation, b: TradingOperation)
    ensures Le(key, a, b) || Le(key, b, a)
  {
    if key == BySymbol {
      LexLeTotal(a.symbol, b.symbol);
    }
  }

  lemma LeTrans(key: SortKey, a: TradingOperation, b: TradingOperation, c: TradingOperation)
    requires Le(key, a, b) && Le(key, b, c)
    ensures Le(key, a, c)
  {
    if key == BySymbol {
      LexLeTrans(a.symbol, b.symbol, c.symbol);
    }
  }

  predicate Sorted(key: SortKey, s: seq<TradingOperation>) {
    forall i, j :: 0 <= i < j < |s| ==> Le(key, s[i], s[j])
  }

  lemma ConsSorted(key: SortKey, x: TradingOperation, s: seq<TradingOperation>)
    requires Sorted(key, s)
    requires forall j :: 0 <= j < |s| ==> Le(key, x, s[j])
    ensures Sorted(key, [x] + s)
  {
    forall i, j | 0 <= i < j < |s| + 1 ensures Le(key, ([x] + s)[i], ([x] + s)[j]) {
      assert ([x] + s)[j] == s[j - 1];
      if i > 0 {
        assert ([x] + s)[i] == s[i - 1];
      }
    }
  }

  /** An element below `x` and below every element of `t` is below every
      element of any rearrangement of `t` plus `x`. */
  lemma BelowAll(key: SortKey, h: TradingOperation, x: TradingOperation, t: seq<TradingOperation>, rest: seq<TradingOperation>)
    requires Le(key, h, x)
    requires forall j :: 0 <= j < |t| ==> Le(key, h, t[j])
    requires multiset(rest) == multiset(t) + multiset{x}
    ensures forall j :: 0 <= j < |rest| ==> Le(key, h, rest[j])
  {
    forall j | 0 <= j < |rest| ensures Le(key, h, rest[j]) {
      assert rest[j] in multiset(rest);
      if rest[j] != x {
        assert rest[j] in multiset(t);
        var k :| 0 <= k < |t| && t[k] == rest[j];
      }
    }
  }

  /** Places `x` before the first element it may precede. */
  function Insert(key: SortKey, x: TradingOperation, s: seq<TradingOperation>): (r: seq<TradingOperation>)
    requires Sorted(key, s)
    ensures Sorted(key, r)
    ensures multiset(r) == multiset(s) + multiset{x}
  {
    if |s| == 0 then [x]
    else if Le(key, x, s[0]) then
      assert forall j :: 0 <= j < |s| ==> Le(key, x, s[j]) by {
        forall j | 0 < j < |s| ensures Le(key, x, s[j]) {
          LeTrans(key, x, s[0], s[j]);
        }
      }
      ConsSorted(key, x, s);
      [x] + s
    else
      LeTotal(key, x, s[0]);
      var rest := Insert(key, x, s[1..]);
      assert s == [s[0]] + s[1..];
      BelowAll(key, s[0], x, s[1..], rest);
      ConsSorted(key, s[0], rest);
      [s[0]] + rest
  }

  /** `.sort(comparator)` by insertion: sorted, and a permutation. */
  function SortOps(key: SortKey, s: seq<TradingOperation>): (r: seq<TradingOperation>)
    ensures Sorted(key, r)
    ensures multiset(r) == multiset(s)
  {
    if |s| == 0 then []
    else
      assert s == [s[0]] + s[1..];
      Insert(key, s[0], SortOps(key, s[1..]))
  }

  /** Every element a filter keeps satisfies its predicate and comes from
      the input. */
  lemma FilterMembers(s: seq<TradingOperation>, p: TradingOperation -> bool)
    ensures forall x :: x in Filter(s, p) ==> p(x) && x in s
  {
    var r := Filter(s, p);
    forall x | x in r ensures p(x) && x in s {
      var k :| 0 <= k < |r| && r[k] == x;
    }
  }

  function StatusFilter(filter: string): TradingOperation -> bool {
    (op: TradingOperation) => StatusMatches(filter, op)
  }

  function SearchFilter(term: string): TradingOperation -> bool {
    (op: TradingOperation) => SearchMatches(term, op)
  }

  /** The operations listed: status filter, then search, then sort. */
  function FilteredOperations(ops: seq<TradingOperation>, filter: string, term: string, sortBy: string)
    : (r: seq<TradingOperation>)
    ensures Sorted(ParseSortKey(sortBy), r)
    ensures multiset(r) <= multiset(ops)
    ensures forall x :: x in r ==> x in ops && StatusMatches(filter, x) && SearchMatches(term, x)
  {
    var byStatus := Filter(ops, StatusFilter(filter));
    var bySearch := Filter(byStatus, SearchFilter(term));
    FilterMembers(ops, StatusFilter(filter));
    FilterMembers(byStatus, SearchFilter(term));
    var r := SortOps(ParseSortKey(sortBy), bySearch);
    assert forall x :: x in r ==> x in multiset(bySearch);
    r
  }

  /** Nothing that passes both filters is lost: the listing holds every
      matching operation. */
  lemma FilteredOperationsComplete(ops: seq<TradingOperation>, filter: string, term: string, sortBy: string)
    ensures forall i :: 0 <= i < |ops| && StatusMatches(filter, ops[i]) && SearchMatches(term, ops[i]) ==>
      ops[i] in FilteredOperations(ops, filter, term, sortBy)
  {
    var byStatus := Filter(ops, StatusFilter(filter));
    var bySearch := Filter(byStatus, SearchFilter(term));
    var r := FilteredOperations(ops, filter, term, sortBy);
    assert r == SortOps(ParseSortKey(sortBy), bySearch);
    forall i | 0 <= i < |ops| && StatusMatches(filter, ops[i]) && SearchMatches(term, ops[i])
      ensures ops[i] in r
    {
      assert StatusFilter(filter)(ops[i]);
      assert ops[i] in byStatus;
      var k :| 0 <= k < |byStatus| && byStatus[k] == ops[i];
      assert SearchFilter(term)(byStatus[k]);
      assert ops[i] in bySearch;
      assert ops[i] in multiset(r);
    }
  }

  // ---- summary ----------------------------------------------------------------

  datatype Summary = Summary(
    finished: nat,
    successful: nat,
    totalProfit: real,
    successPercent: real,
    avgDuration: real)

  /** The summary cards. Success is `(actualProfit || 0) > 0`, which is the
      same test as the store's; the average duration sums the operations
      with an end time but divides by all finished ones. */
  function SummaryOf(ops: seq<TradingOperation>): (s: Summary)
    ensures s.finished == |Filter(ops, IsFinished)|
    ensures s.successful == |Filter(Filter(ops, IsFinished), Successful)|
    ensures s.totalProfit == SumOf(Filter(ops, IsFinished), ProfitOrZero)
    ensures s.successPercent == Percent(s.successful, s.finished)
    ensures s.avgDuration == Mean(SumOf(Filter(ops, IsFinished), DurationMinutes), s.finished)
    ensures s.successful <= s.finished
    ensures s.finished == 0 ==> s.successPercent == 0.0 && s.avgDuration == 0.0 && s.totalProfit == 0.0
    ensures 0.0 <= s.successPercent <= 100.0
  {
    var completed := Filter(ops, IsFinished);
    var successfulOps := Filter(completed, Successful);
    Summary(
      |completed|,
      |successfulOps|,
      SumOf(completed, ProfitOrZero),
      Percent(|successfulOps|, |completed|),
      Mean(SumOf(completed, DurationMinutes), |completed|))
  }

  /** Summing over the elements a filter keeps loses nothing when f is zero
      on every element the filter drops. */
  lemma {:induction false} SumOfFilterZero(s: seq<TradingOperation>, p: TradingOperation -> bool, f: TradingOperation -> real)
    requires forall x :: x in s && !p(x) ==> f(x) == 0.0
    ensures SumOf(Filter(s, p), f) == SumOf(s, f)
  {
    if |s| > 0 {
      assert forall x :: x in s[1..] ==> x in s;
      SumOfFilterZero(s[1..], p, f);
    }
  }

  /** The history page and the store's statistics agree on the count of
      finished and successful operations, the total profit and the success
      rate. */
  lemma SummaryMatchesStats(ops: seq<TradingOperation>, settings: UserSettings, todayStart: int)
    ensures var sm := SummaryOf(ops);
      var st := StatsOf(ops, settings, todayStart);
      && sm.finished == st.totalOperations
      && sm.successful == st.successfulOperations
      && sm.totalProfit == st.totalProfit
      && sm.successPercent == st.successRate
  {
    var completed := Filter(ops, IsFinished);
    assert StatsOf(ops, settings, todayStart) == FinishedStats(completed, settings, todayStart);
  }

  /** The two average durations average the same total of minutes: the
      history divides it by all finished operations, the store only by those
      with an end time, so they agree exactly when every finished operation
      has one. */
  lemma AverageDurationsRelated(ops: seq<TradingOperation>, settings: UserSettings, todayStart: int)
    ensures var completed := Filter(ops, IsFinished);
      var total := SumOf(completed, DurationMinutes);
      && SummaryOf(ops).avgDuration == Mean(total, |completed|)
      && StatsOf(ops, settings, todayStart).averageDuration == Mean(total, |Filter(completed, HasEnd)|)
  {
    var completed := Filter(ops, IsFinished);
    assert StatsOf(ops, settings, todayStart) == FinishedStats(completed, settings, todayStart);
    SumOfFilterZero(completed, HasEnd, DurationMinutes);
  }

  // ---- per operation ----------------------------------------------------------

  /** Whole minutes, rounded down; zero without an end time. */
  function DisplayDuration(op: TradingOperation): (m: int)
    ensures op.endTime.None? ==> m == 0
    ensures op.endTime.Some? ==> m * 60000 <= DurationMillis(op) < (m + 1) * 60000
  {
    DurationMillis(op) / 60000
  }

  /** Realised profit as a percentage of the investment; zero when the
      investment is not positive. */
  function ProfitPercent(op: TradingOperation): (p: real)
    ensures op.investment <= 0.0 ==> p == 0.0
    ensures op.investment > 0.0 ==> p * op.investment == ProfitOrZero(op) * 100.0
  {
    if op.investment > 0.0 then (ProfitOrZero(op) / op.investment) * 100.0 else 0.0
  }
}
