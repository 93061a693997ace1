/** The fraud-transactions modal: a conjunctive client-side filter over the fetched transactions,
    a single-key sort chosen by the sort headers, summary statistics over what is shown, the
    per-type grouping behind the doughnut chart, and the module state that ties them together. */
module FraudTransactions {
  import opened Wrappers
  import opened Text
  import Seqs
  import Sorting

  /** One row of `/api/fraud-transactions/<type>`. Scores and type may be absent in JSON. */
  datatype Transaction = Transaction(
    source: string,
    target: string,
    sourceScore: Option<real>,
    targetScore: Option<real>,
    amount: real,
    timestamp: int,            // the instant `new Date(tx.timestamp)` denotes, in milliseconds
    txType: Option<string>,
    isFraud: bool,
    sourceCommunity: Option<int>,  // `sender.community`, null when the account has none
    targetCommunity: Option<int>)

  /** The filter descriptor. A bound that is absent, or zero, is falsy and imposes nothing;
      `txType` and `search` are the empty string when unset. */
  datatype Filters = Filters(
    txType: string,
    minAmount: Option<real>,
    maxAmount: Option<real>,
    minScore: Option<real>,
    search: string,
    sort: Option<string>)

  /** `renderTransactionsTable(transactions)` with the default `filters = {}`. */
  const NoFilters := Filters("", None, None, None, "", None)

  /** The CSS tier of a risk score. */
  datatype ScoreClass = High | Medium | Low

  // ---------------------------------------------------------------------------------------------
  // Scores and tiers

  /** `tx.amount || 0`: the amount a transaction contributes to a total. */
  function Amount(tx: Transaction): real {
    tx.amount
  }

  /** `((tx.source_score || 0) + (tx.target_score || 0)) / 2`. */
  function AvgScore(tx: Transaction): (r: real)
    ensures tx.sourceScore.None? && tx.targetScore.None? ==> r == 0.0
  {
    (tx.sourceScore.GetOr(0.0) + tx.targetScore.GetOr(0.0)) / 2.0
  }

  /** `getScoreClass(score)`; an absent score compares false with everything and falls to `Low`. */
  function ScoreClassOf(score: Option<real>): (c: ScoreClass)
    ensures c == High <==> score.Some? && score.value > 0.7
    ensures c == Medium <==> score.Some? && 0.5 < score.value <= 0.7
    ensures c == Low <==> score.None? || score.value <= 0.5
  {
    if score.Some? && score.value > 0.7 then High
    else if score.Some? && score.value > 0.5 then Medium
    else Low
  }

  /** The tier of a row's average score (the inline ladder of the row template). */
  function RowClass(tx: Transaction): ScoreClass {
    ScoreClassOf(Some(AvgScore(tx)))
  }

  /** Tiers are monotone in the score. */
  lemma ScoreClassMonotone(a: real, b: real)
    requires a <= b
    ensures ScoreClassOf(Some(a)) == High ==> ScoreClassOf(Some(b)) == High
    ensures ScoreClassOf(Some(b)) == Low ==> ScoreClassOf(Some(a)) == Low
  {
  }

  // ---------------------------------------------------------------------------------------------
  // The filter

  /** A numeric bound is truthy: present and not zero. */
  predicate Active(bound: Option<real>) {
    bound.Some? && bound.value != 0.0
  }

  predicate TypeActive(f: Filters) {
    f.txType != "" && f.txType != "all"
  }

  /** The lowercased query occurs in the lowercased source, target or type. */
  predicate MatchesSearch(tx: Transaction, query: string) {
    Contains(Lower(tx.source), query) || Contains(Lower(tx.target), query)
    || (tx.txType.Some? && Contains(Lower(tx.txType.value), query))
  }

  /** The filter callback. `None` when it throws: with a search that neither endpoint matches,
      `tx.type.toLowerCase()` is evaluated, and an absent type raises a TypeError. It keeps a
      transaction exactly when it satisfies every active predicate, and throws exactly in the
      `Throws` case. */
  function Keep(tx: Transaction, f: Filters): (r: Option<bool>)
    ensures r.None? <==> Throws(tx, f)
    ensures r == Some(true) <==> SatisfiesAll(tx, f)
  {
    if Active(f.minAmount) && tx.amount < f.minAmount.value then Some(false)
    else if Active(f.maxAmount) && tx.amount > f.maxAmount.value then Some(false)
    else if Active(f.minScore) && AvgScore(tx) < f.minScore.value then Some(false)
    else if TypeActive(f) && tx.txType != Some(f.txType) then Some(false)
    else if f.search != "" then
      var query := Lower(f.search);
      if Contains(Lower(tx.source), query) || Contains(Lower(tx.target), query) then Some(true)
      else if tx.txType.None? then None
      else Some(Contains(Lower(tx.txType.value), query))
    else Some(true)
  }

  /** Every active predicate of `f`, stated on its own: inclusive amount bounds, a minimum
      average score, an exact type and a case-insensitive substring search. */
  predicate SatisfiesAll(tx: Transaction, f: Filters) {
    && (Active(f.minAmount) ==> f.minAmount.value <= tx.amount)
    && (Active(f.maxAmount) ==> tx.amount <= f.maxAmount.value)
    && (Active(f.minScore) ==> f.minScore.value <= AvgScore(tx))
    && (TypeActive(f) ==> tx.txType == Some(f.txType))
    && (f.search != "" ==> MatchesSearch(tx, Lower(f.search)))
  }

  /** When the callback throws: a search is set, everything else passed, neither endpoint
      matches and the type is absent. */
  predicate Throws(tx: Transaction, f: Filters) {
    && (Active(f.minAmount) ==> f.minAmount.value <= tx.amount)
    && (Active(f.maxAmount) ==> tx.amount <= f.maxAmount.value)
    && (Active(f.minScore) ==> f.minScore.value <= AvgScore(tx))
    && !TypeActive(f)
    && f.search != ""
    && tx.txType.None?
    && !MatchesSearch(tx, Lower(f.search))
  }

  /** `transactions.filter(...)`: `None` when some callback throws; otherwise the transactions
      that satisfy every active predicate, in their original order. */
  function FilterTransactions(txs: seq<Transaction>, f: Filters): (r: Option<seq<Transaction>>)
    ensures r.None? <==> exists i :: 0 <= i < |txs| && Throws(txs[i], f)
    ensures r.Some? ==> Seqs.IsSubsequence(r.value, txs)
    ensures r.Some? ==> forall i :: 0 <= i < |r.value| ==> SatisfiesAll(r.value[i], f)
    ensures r.Some? ==> forall i :: 0 <= i < |txs| && SatisfiesAll(txs[i], f) ==> txs[i] in r.value
    decreases |txs|
  {
    if txs == [] then Some([])
    else
      var rest := FilterTransactions(txs[1..], f);
      if Keep(txs[0], f).None? || rest.None? then
        assert rest.None? ==> exists i :: 0 <= i < |txs[1..]| && Throws(txs[1..][i], f);
        None
      else if Keep(txs[0], f) == Some(true) then
        assert forall i :: 1 <= i < |txs| ==> txs[i] == txs[1..][i - 1];
        Some([txs[0]] + rest.value)
      else
        assert forall i :: 1 <= i < |txs| ==> txs[i] == txs[1..][i - 1];
        Some(rest.value)
  }

  /** With no filters every transaction is kept, in order. */
  lemma {:induction false} NoFiltersKeepsAll(txs: seq<Transaction>)
    ensures FilterTransactions(txs, NoFilters) == Some(txs)
    decreases |txs|
  {
    if txs != [] {
      NoFiltersKeepsAll(txs[1..]);
      assert Keep(txs[0], NoFilters) == Some(true);
      assert txs == [txs[0]] + txs[1..];
    }
  }

  /** A bound of zero is falsy: it keeps exactly what no bound keeps. */
  lemma ZeroBoundImposesNothing(tx: Transaction, f: Filters)
    ensures Keep(tx, f.(minAmount := Some(0.0))) == Keep(tx, f.(minAmount := None))
    ensures Keep(tx, f.(maxAmount := Some(0.0))) == Keep(tx, f.(maxAmount := None))
    ensures Keep(tx, f.(minScore := Some(0.0))) == Keep(tx, f.(minScore := None))
  {
  }

  /** The search ignores ASCII case in the query. */
  lemma {:induction false} SearchIgnoresQueryCase(tx: Transaction, f: Filters, g: Filters)
    requires f == g.(search := f.search)
    requires |f.search| == |g.search| && forall i :: 0 <= i < |f.search| ==> LowerChar(f.search[i]) == LowerChar(g.search[i])
    ensures Keep(tx, f) == Keep(tx, g)
  {
    assert Lower(f.search) == Lower(g.search);
    assert f.search == "" <==> g.search == "";
  }

  // ---------------------------------------------------------------------------------------------
  // The sort

  /** A comparison operand: a number, a string, or `undefined` (which compares false with all). */
  datatype Key = Num(n: real) | Str(s: string) | Undefined

  /** JavaScript's `a > b` on operands of the kinds a field yields: numbers by value, strings
      by character code, and false for equal operands, mixed kinds and `undefined`. */
  predicate Greater(a: Key, b: Key): (r: bool)
    ensures r ==> a != b
    ensures r ==> (a.Num? && b.Num?) || (a.Str? && b.Str?)
    ensures a.Num? && b.Num? ==> (r <==> a.n > b.n)
  {
    match (a, b)
    case (Num(x), Num(y)) => x > y
    case (Str(x), Str(y)) => StrLessIrreflexive(x); StrLess(y, x)
    case _ => false
  }

  /** The sort operand for `field` (the `switch` of the comparator); any other field reads the
      raw property, and one the record lacks is `undefined`. A null score or community is
      compared as `0`, as JavaScript's relational operators convert `null`. */
  function SortKey(tx: Transaction, field: string): (k: Key)
    ensures NumericField(field) ==> k.Num?
    ensures field == "source" || field == "target" ==> k.Str?
    ensures k.Undefined? <==>
      !NumericField(field) && field != "source" && field != "target" && (field != "type" || tx.txType.None?)
    ensures field == "source_score" && tx.sourceScore.None? ==> k == Num(0.0)
    ensures field == "target_score" && tx.targetScore.None? ==> k == Num(0.0)
  {
    if field == "amount" then Num(tx.amount)
    else if field == "score" then Num(AvgScore(tx))
    else if field == "timestamp" then Num(tx.timestamp as real)
    else if field == "source" then Str(tx.source)
    else if field == "target" then Str(tx.target)
    else if field == "type" then (if tx.txType.Some? then Str(tx.txType.value) else Undefined)
    else if field == "source_score" then Num(tx.sourceScore.GetOr(0.0))
    else if field == "target_score" then Num(tx.targetScore.GetOr(0.0))
    else if field == "is_fraud" then Num(if tx.isFraud then 1.0 else 0.0)
    else if field == "source_community" then Num(tx.sourceCommunity.GetOr(0) as real)
    else if field == "target_community" then Num(tx.targetCommunity.GetOr(0) as real)
    else Undefined
  }

  /** The fields every transaction the server sends gives a number for. */
  predicate NumericField(field: string) {
    || field == "amount" || field == "score" || field == "timestamp"
    || field == "source_score" || field == "target_score" || field == "is_fraud"
    || field == "source_community" || field == "target_community"
  }

  /** `const [field, direction] = sort.split(':')`. */
  function SortField(sort: string): string {
    Split(sort, ':')[0]
  }

  function SortDirection(sort: string): Option<string> {
    var parts := Split(sort, ':');
    if |parts| > 1 then Some(parts[1]) else None
  }

  /** `direction === 'asc'`; every other direction, and none, sorts descending. */
  predicate Ascending(sort: string) {
    SortDirection(sort) == Some("asc")
  }

  /** The comparator is positive, so `x` goes after `y`: never for equal or undefined keys;
      on numeric fields, the larger key goes later ascending and earlier otherwise. */
  predicate After(field: string, ascending: bool, x: Transaction, y: Transaction): (r: bool)
    ensures r ==> SortKey(x, field) != SortKey(y, field)
    ensures r ==> !SortKey(x, field).Undefined? && !SortKey(y, field).Undefined?
    ensures NumericField(field) ==>
      (r <==> if ascending then SortKey(x, field).n > SortKey(y, field).n else SortKey(x, field).n < SortKey(y, field).n)
  {
    if ascending then Greater(SortKey(x, field), SortKey(y, field))
    else Greater(SortKey(y, field), SortKey(x, field))
  }

  /** The keys of the transactions under `field` are all numbers, all strings or all undefined. */
  predicate SameKind(txs: seq<Transaction>, field: string) {
    || (forall i :: 0 <= i < |txs| ==> SortKey(txs[i], field).Num?)
    || (forall i :: 0 <= i < |txs| ==> SortKey(txs[i], field).Str?)
    || (forall i :: 0 <= i < |txs| ==> SortKey(txs[i], field).Undefined?)
  }

  /** Numeric, string and absent keys each make the comparator consistent. */
  lemma SameKindIsConsistent(txs: seq<Transaction>, field: string, ascending: bool)
    requires SameKind(txs, field)
    ensures Sorting.StrictWeakOrderOn((x, y) => After(field, ascending, x, y), txs)
  {
    var after := (x, y) => After(field, ascending, x, y);
    forall x, y | x in txs && y in txs && after(x, y) ensures !after(y, x) {
      var kx, ky := SortKey(x, field), SortKey(y, field);
      if kx.Str? && ky.Str? {
        if StrLess(kx.s, ky.s) && StrLess(ky.s, kx.s) {
          StrLessTransitive(kx.s, ky.s, kx.s);
          StrLessIrreflexive(kx.s);
        }
      }
    }
    forall x, y, z | x in txs && y in txs && z in txs && !after(x, y) && !after(y, z)
      ensures !after(x, z)
    {
      var kx, ky, kz := SortKey(x, field), SortKey(y, field), SortKey(z, field);
      var ix :| 0 <= ix < |txs| && txs[ix] == x;
      var iy :| 0 <= iy < |txs| && txs[iy] == y;
      var iz :| 0 <= iz < |txs| && txs[iz] == z;
      if kx.Str? && ky.Str? && kz.Str? {
        if ascending {
          StrNotGreaterTransitive(kx.s, ky.s, kz.s);
        } else {
          StrNotGreaterTransitive(kz.s, ky.s, kx.s);
        }
      }
    }
  }

  /** `!(b < a) && !(c < b) ==> !(c < a)` on strings. */
  lemma StrNotGreaterTransitive(a: string, b: string, c: string)
    requires !StrLess(b, a) && !StrLess(c, b)
    ensures !StrLess(c, a)
  {
    if a != b {
      StrLessTotal(a, b);
    }
    if b != c {
      StrLessTotal(b, c);
    }
    if a != b && b != c {
      StrLessTransitive(a, b, c);
      if StrLess(c, a) {
        StrLessTransitive(a, c, a);
        StrLessIrreflexive(a);
      }
    }
  }

  /** Amount, score, timestamp, the two scores, `is_fraud` and the two communities always give
      numbers, so sorting by them is always ordered. */
  lemma NumericFieldsSameKind(txs: seq<Transaction>, field: string)
    requires NumericField(field)
    ensures SameKind(txs, field)
  {
    assert forall i :: 0 <= i < |txs| ==> SortKey(txs[i], field).Num?;
  }

  /** Sorted by a numeric field: non-decreasing when ascending, non-increasing otherwise. */
  lemma NumericOrder(txs: seq<Transaction>, field: string, ascending: bool, i: int, j: int)
    requires NumericField(field)
    requires Sorting.SortedBy((x, y) => After(field, ascending, x, y), txs)
    requires 0 <= i < j < |txs|
    ensures ascending ==> SortKey(txs[i], field).n <= SortKey(txs[j], field).n
    ensures !ascending ==> SortKey(txs[i], field).n >= SortKey(txs[j], field).n
  {
    assert !After(field, ascending, txs[i], txs[j]);
  }

  /** `filteredTransactions.sort(...)` when `filters.sort` is truthy. */
  method SortTransactions(a: array<Transaction>, sort: string)
    modifies a
    ensures multiset(a[..]) == multiset(old(a[..]))
    ensures SameKind(old(a[..]), SortField(sort)) ==>
      Sorting.SortedBy((x, y) => After(SortField(sort), Ascending(sort), x, y), a[..])
  {
    var field := SortField(sort);
    var ascending := Ascending(sort);
    if SameKind(a[..], field) {
      SameKindIsConsistent(a[..], field, ascending);
    }
    Sorting.SortInPlace(a, (x, y) => After(field, ascending, x, y));
  }

  // ---------------------------------------------------------------------------------------------
  // Statistics

  datatype Stats = Stats(total: nat, totalAmount: real, avgScore: real, confirmedFraud: nat, highRisk: nat)

  /** `updateStats(transactions)`: the count, the amount sum, the mean of the row scores (0 for
      no rows), and the numbers of confirmed and of high-scoring transactions. */
  function ComputeStats(txs: seq<Transaction>): (st: Stats)
    ensures st.total == |txs|
    ensures st.totalAmount == Seqs.Sum(txs, Amount)
    ensures st.total == 0 ==> st.avgScore == 0.0
    ensures st.total > 0 ==> st.avgScore * st.total as real == Seqs.Sum(txs, AvgScore)
    ensures st.confirmedFraud <= st.total && st.highRisk <= st.total
  {
    var total := |txs|;
    Stats(
      total,
      Seqs.Sum(txs, Amount),
      MeanOf(Seqs.Sum(txs, AvgScore), total),
      Seqs.Count(txs, (tx: Transaction) => tx.isFraud),
      Seqs.Count(txs, (tx: Transaction) => AvgScore(tx) > 0.7))
  }

  /** The two counts are the lengths of `transactions.filter(tx => tx.is_fraud)` and of the
      filter on an average score above 0.7. */
  lemma StatsCountsAreFilters(txs: seq<Transaction>)
    ensures ComputeStats(txs).confirmedFraud == |Seqs.Filter(txs, (tx: Transaction) => tx.isFraud)|
    ensures ComputeStats(txs).highRisk == |Seqs.Filter(txs, (tx: Transaction) => AvgScore(tx) > 0.7)|
  {
    Seqs.CountIsFilterLength(txs, (tx: Transaction) => tx.isFraud);
    Seqs.CountIsFilterLength(txs, (tx: Transaction) => AvgScore(tx) > 0.7);
  }

  /** `sum / (n || 1)`: the mean of `n` values adding up to `sum`, and `sum` itself when there
      are none. */
  function MeanOf(sum: real, n: nat): (m: real)
    ensures n == 0 ==> m == sum
    ensures n > 0 ==> m * n as real == sum
  {
    if n == 0 then sum
    else
      var m := sum / n as real;
      assert m * n as real == sum;
      m
  }

  /** The statistics depend only on which transactions are shown, not on their order. */
  lemma StatsIgnoreOrder(s: seq<Transaction>, t: seq<Transaction>)
    requires multiset(s) == multiset(t)
    ensures ComputeStats(s) == ComputeStats(t)
  {
    assert |s| == |multiset(s)| == |multiset(t)| == |t|;
    Seqs.SumPermutation(s, t, AvgScore);
    Seqs.SumPermutation(s, t, Amount);
    Seqs.CountPermutation(s, t, (tx: Transaction) => tx.isFraud);
    Seqs.CountPermutation(s, t, tx => AvgScore(tx) > 0.7);
  }

  /** The high-risk count is the number of rows whose score badge is `High`. */
  lemma {:induction false} HighRiskCountsHighRows(txs: seq<Transaction>)
    ensures ComputeStats(txs).highRisk == Seqs.Count(txs, tx => RowClass(tx) == High)
    decreases |txs|
  {
    if txs != [] {
      HighRiskCountsHighRows(txs[1..]);
    }
  }

  /** With endpoint scores in [0, 1] the mean score is in [0, 1]. */
  lemma MeanScoreInUnitInterval(txs: seq<Transaction>)
    requires forall i :: 0 <= i < |txs| ==> 0.0 <= AvgScore(txs[i]) <= 1.0
    ensures 0.0 <= ComputeStats(txs).avgScore <= 1.0
  {
    var sum := Seqs.Sum(txs, AvgScore);
    Seqs.SumBounds(txs, AvgScore, 0.0, 1.0);
    if txs != [] {
      assert ComputeStats(txs).avgScore == sum / |txs| as real;
      MeanOfBounded(sum, |txs| as real);
    }
  }

  lemma MeanOfBounded(sum: real, n: real)
    requires n > 0.0 && 0.0 <= sum <= n
    ensures 0.0 <= sum / n <= 1.0
  {
    assert sum / n * n == sum;
  }

  /** The extra block appended to `.stats` when something is confirmed or high-risk. */
  datatype StatsBlock = StatsBlock(confirmedFraud: nat, highRisk: nat)

  /** `statsContainer.innerHTML += ...`: as written, every render appends another block. */
  function AppendStatsBlock(blocks: seq<StatsBlock>, st: Stats): (r: seq<StatsBlock>)
    ensures st.confirmedFraud > 0 || st.highRisk > 0 ==> r == blocks + [StatsBlock(st.confirmedFraud, st.highRisk)]
    ensures st.confirmedFraud == 0 && st.highRisk == 0 ==> r == blocks
  {
    if st.confirmedFraud > 0 || st.highRisk > 0 then blocks + [StatsBlock(st.confirmedFraud, st.highRisk)] else blocks
  }

  /** Rendering the same non-trivial list twice leaves two copies of the block. */
  lemma StatsBlocksAccumulate(st: Stats)
    requires st.confirmedFraud > 0 || st.highRisk > 0
    ensures |AppendStatsBlock(AppendStatsBlock([], st), st)| == 2
  {
  }

  /** The evidently intended update: the block shows the current counts only. */
  function ReplaceStatsBlock(blocks: seq<StatsBlock>, st: Stats): (r: seq<StatsBlock>)
    ensures |r| <= 1
    ensures r != [] <==> st.confirmedFraud > 0 || st.highRisk > 0
    ensures r != [] ==> r[0] == StatsBlock(st.confirmedFraud, st.highRisk)
  {
    if st.confirmedFraud > 0 || st.highRisk > 0 then [StatsBlock(st.confirmedFraud, st.highRisk)] else []
  }

  /** Re-rendering with the intended update is idempotent. */
  lemma ReplaceStatsBlockIdempotent(blocks: seq<StatsBlock>, st: Stats)
    ensures ReplaceStatsBlock(ReplaceStatsBlock(blocks, st), st) == ReplaceStatsBlock(blocks, st)
  {
  }

  // ---------------------------------------------------------------------------------------------
  // Grouping by type for the chart

  /** `tx.type || 'Khác'`: an absent or empty type is grouped as "other". */
  function TypeLabel(tx: Transaction): (name: string)
    ensures name != ""
    ensures tx.txType.Some? && tx.txType.value != "" ==> name == tx.txType.value
  {
    if tx.txType.Some? && tx.txType.value != "" then tx.txType.value else "Khác"
  }

  /** One accumulator entry of the reduce. */
  datatype Tally = Tally(count: nat, amount: real)

  /** One slice of the doughnut chart. */
  datatype TypeGroup = TypeGroup(txType: string, count: nat, amount: real)

  function ChartCount(chart: seq<TypeGroup>): nat
    decreases |chart|
  {
    if chart == [] then 0 else chart[0].count + ChartCount(chart[1..])
  }

  function ChartAmount(chart: seq<TypeGroup>): real
    decreases |chart|
  {
    if chart == [] then 0.0 else chart[0].amount + ChartAmount(chart[1..])
  }

  /** The chart of `txs`: the reduce into `acc`, then `Object.entries(acc).map(...)`. Each type
      appears once, in order of first occurrence, with its number of transactions and total
      amount; the counts add up to the number of transactions and the amounts to their total. */
  method GroupByType(txs: seq<Transaction>) returns (chart: seq<TypeGroup>)
    ensures ChartOf(txs, chart)
    ensures ChartCount(chart) == |txs|
    ensures ChartAmount(chart) == ComputeStats(txs).totalAmount
  {
    var acc, order := TallyByType(txs);
    chart := Entries(acc, order);
    Seqs.FirstSeenFacts(txs, TypeLabel);
    Seqs.GroupsPartition(txs, TypeLabel, Amount);
    ChartTotals(chart, order, txs);
    ChartCoversTypes(chart, order, txs);
  }

  /** `chart` has one slice per type of `txs`, each type once, in order of first occurrence,
      with that type's number of transactions and total amount. */
  ghost predicate ChartOf(txs: seq<Transaction>, chart: seq<TypeGroup>) {
    && |chart| == |Seqs.FirstSeen(txs, TypeLabel)|
    && (forall m :: 0 <= m < |chart| ==>
         var t := Seqs.FirstSeen(txs, TypeLabel)[m];
         chart[m] == TypeGroup(t, Seqs.KeyCount(txs, TypeLabel, t), Seqs.KeySum(txs, TypeLabel, t, Amount)))
    && (forall m, n :: 0 <= m < n < |chart| ==> chart[m].txType != chart[n].txType)
    && (forall i :: 0 <= i < |txs| ==> exists m :: 0 <= m < |chart| && chart[m].txType == TypeLabel(txs[i]))
  }

  /** `Object.entries(acc).map(([type, stats]) => ({type, count, amount}))`. */
  function Entries(acc: map<string, Tally>, order: seq<string>): (chart: seq<TypeGroup>)
    requires forall m :: 0 <= m < |order| ==> order[m] in acc
    ensures |chart| == |order|
    ensures forall m :: 0 <= m < |order| ==>
      chart[m] == TypeGroup(order[m], acc[order[m]].count, acc[order[m]].amount)
  {
    seq(|order|, m requires 0 <= m < |order| => TypeGroup(order[m], acc[order[m]].count, acc[order[m]].amount))
  }

  lemma ChartCoversTypes(chart: seq<TypeGroup>, order: seq<string>, txs: seq<Transaction>)
    requires order == Seqs.FirstSeen(txs, TypeLabel)
    requires |chart| == |order| && forall m :: 0 <= m < |chart| ==> chart[m].txType == order[m]
    ensures forall i :: 0 <= i < |txs| ==> exists m :: 0 <= m < |chart| && chart[m].txType == TypeLabel(txs[i])
  {
    Seqs.FirstSeenFacts(txs, TypeLabel);
    forall i | 0 <= i < |txs|
      ensures exists m :: 0 <= m < |chart| && chart[m].txType == TypeLabel(txs[i])
    {
      var m :| 0 <= m < |order| && order[m] == TypeLabel(txs[i]);
      assert chart[m].txType == TypeLabel(txs[i]);
    }
  }

  /** The reduce: `acc[type]` holds the count and amount of each type seen, and `order` the
      types in the order the object's keys were created. */
  method TallyByType(txs: seq<Transaction>) returns (acc: map<string, Tally>, order: seq<string>)
    ensures order == Seqs.FirstSeen(txs, TypeLabel)
    ensures forall t :: t in acc <==> t in order
    ensures forall t :: t in acc ==>
      acc[t] == Tally(Seqs.KeyCount(txs, TypeLabel, t), Seqs.KeySum(txs, TypeLabel, t, Amount))
  {
    acc, order := map[], [];
    var i := 0;
    while i < |txs|
      invariant 0 <= i <= |txs|
      invariant TalliesOf(txs[..i], acc, order)
    {
      var t := TypeLabel(txs[i]);
      ghost var acc0, order0 := acc, order;
      if t !in acc {
        acc := acc[t := Tally(0, 0.0)];
        order := order + [t];
      }
      ghost var acc1 := acc;
      acc := acc[t := Tally(acc[t].count + 1, acc[t].amount + txs[i].amount)];
      TallyStep(txs, i, acc0, order0, acc1, order, acc);
      i := i + 1;
    }
    assert txs[..i] == txs;
  }

  /** `acc` and `order` are the tallies of `txs`. */
  ghost predicate TalliesOf(txs: seq<Transaction>, acc: map<string, Tally>, order: seq<string>) {
    && order == Seqs.FirstSeen(txs, TypeLabel)
    && (forall t :: t in acc <==> t in order)
    && (forall t :: t in acc ==>
         acc[t] == Tally(Seqs.KeyCount(txs, TypeLabel, t), Seqs.KeySum(txs, TypeLabel, t, Amount)))
  }

  /** One step of the reduce keeps the tallies exact. */
  lemma TallyStep(txs: seq<Transaction>, i: nat, acc: map<string, Tally>, order: seq<string>,
                  acc1: map<string, Tally>, order1: seq<string>, acc2: map<string, Tally>)
    requires i < |txs| && TalliesOf(txs[..i], acc, order)
    requires var t := TypeLabel(txs[i]);
      && acc1 == (if t in acc then acc else acc[t := Tally(0, 0.0)])
      && order1 == (if t in acc then order else order + [t])
      && acc2 == acc1[t := Tally(acc1[t].count + 1, acc1[t].amount + txs[i].amount)]
    ensures TalliesOf(txs[..i + 1], acc2, order1)
  {
    var t := TypeLabel(txs[i]);
    TallyOrderStep(txs, i, acc, order, order1);
    if t !in acc {
      FreshTally(txs, i, t);
    }
    TallyKeysStep(acc, order, t, acc1, order1, acc2);
    TallyValuesStep(txs, i, acc, acc2);
  }

  /** The reduce creates a key exactly when it appends the type to the key order. */
  lemma TallyKeysStep(acc: map<string, Tally>, order: seq<string>, t: string,
                      acc1: map<string, Tally>, order1: seq<string>, acc2: map<string, Tally>)
    requires forall u :: u in acc <==> u in order
    requires acc1 == (if t in acc then acc else acc[t := Tally(0, 0.0)])
    requires order1 == (if t in acc then order else order + [t])
    requires forall u :: u in acc2 <==> u in acc1
    ensures forall u :: u in acc2 <==> u in order1
  {
  }

  /** One step of the reduce keeps every type's tally exact. */
  lemma TallyValuesStep(txs: seq<Transaction>, i: nat, acc: map<string, Tally>, acc2: map<string, Tally>)
    requires i < |txs|
    requires forall u :: u in acc ==>
      acc[u] == Tally(Seqs.KeyCount(txs[..i], TypeLabel, u), Seqs.KeySum(txs[..i], TypeLabel, u, Amount))
    requires var t := TypeLabel(txs[i]);
      t !in acc ==> Seqs.KeyCount(txs[..i], TypeLabel, t) == 0 && Seqs.KeySum(txs[..i], TypeLabel, t, Amount) == 0.0
    requires var t := TypeLabel(txs[i]);
      var base := if t in acc then acc[t] else Tally(0, 0.0);
      t in acc2 && acc2[t] == Tally(base.count + 1, base.amount + txs[i].amount)
    requires forall u :: u in acc2 && u != TypeLabel(txs[i]) ==> u in acc && acc2[u] == acc[u]
    ensures forall u :: u in acc2 ==>
      acc2[u] == Tally(Seqs.KeyCount(txs[..i + 1], TypeLabel, u), Seqs.KeySum(txs[..i + 1], TypeLabel, u, Amount))
  {
    var t := TypeLabel(txs[i]);
    var base := if t in acc then acc[t] else Tally(0, 0.0);
    forall u | u in acc2
      ensures acc2[u] == Tally(Seqs.KeyCount(txs[..i + 1], TypeLabel, u), Seqs.KeySum(txs[..i + 1], TypeLabel, u, Amount))
    {
      if u == t {
        TallyValueStep(txs, i, t, base, acc2[t]);
      } else {
        TallyValueStep(txs, i, u, acc[u], acc2[u]);
      }
    }
  }

  /** The reduce's key order follows the first occurrences. */
  lemma TallyOrderStep(txs: seq<Transaction>, i: nat, acc: map<string, Tally>, order: seq<string>, order1: seq<string>)
    requires i < |txs| && order == Seqs.FirstSeen(txs[..i], TypeLabel)
    requires forall u :: u in acc <==> u in order
    requires order1 == (if TypeLabel(txs[i]) in acc then order else order + [TypeLabel(txs[i])])
    ensures order1 == Seqs.FirstSeen(txs[..i + 1], TypeLabel)
  {
    Seqs.FirstSeenStep(txs, i, TypeLabel);
  }

  /** A type not seen so far has an empty tally. */
  lemma FreshTally(txs: seq<Transaction>, i: nat, t: string)
    requires i < |txs| && t !in Seqs.FirstSeen(txs[..i], TypeLabel)
    ensures Seqs.KeyCount(txs[..i], TypeLabel, t) == 0 && Seqs.KeySum(txs[..i], TypeLabel, t, Amount) == 0.0
  {
    var prefix := txs[..i];
    Seqs.FirstSeenFacts(prefix, TypeLabel);
    Seqs.AbsentKey(prefix, TypeLabel, t, Amount);
  }

  /** One reduce step on one type's tally. */
  lemma TallyValueStep(txs: seq<Transaction>, i: nat, u: string, before: Tally, after: Tally)
    requires i < |txs|
    requires before == Tally(Seqs.KeyCount(txs[..i], TypeLabel, u), Seqs.KeySum(txs[..i], TypeLabel, u, Amount))
    requires after == if TypeLabel(txs[i]) == u then Tally(before.count + 1, before.amount + txs[i].amount) else before
    ensures after == Tally(Seqs.KeyCount(txs[..i + 1], TypeLabel, u), Seqs.KeySum(txs[..i + 1], TypeLabel, u, Amount))
  {
    Seqs.GroupStep(txs, i, TypeLabel, u, Amount);
  }

  /** A chart built from `keys` carries the per-key totals of `keys`. */
  lemma {:induction false} ChartTotals(chart: seq<TypeGroup>, keys: seq<string>, txs: seq<Transaction>)
    requires |chart| == |keys|
    requires forall m :: 0 <= m < |chart| ==>
      chart[m] == TypeGroup(keys[m], Seqs.KeyCount(txs, TypeLabel, keys[m]), Seqs.KeySum(txs, TypeLabel, keys[m], Amount))
    ensures ChartCount(chart) == Seqs.CountTotal(keys, txs, TypeLabel)
    ensures ChartAmount(chart) == Seqs.SumTotal(keys, txs, TypeLabel, Amount)
    decreases |chart|
  {
    if chart != [] {
      ChartTotals(chart[1..], keys[1..], txs);
    }
  }

  // ---------------------------------------------------------------------------------------------
  // Sort headers

  /** The sort class a `[data-sort]` header carries. */
  datatype Mark = Unmarked | MarkedAsc | MarkedDesc

  datatype SortHeader = SortHeader(key: string, mark: Mark)

  /** `document.querySelector('[data-sort].sort-asc, [data-sort].sort-desc')?.dataset.sort`, as
      written: the bare key of the first marked header, without its direction. */
  function CurrentSortAsWritten(headers: seq<SortHeader>): (r: Option<string>)
    ensures r.None? <==> forall i :: 0 <= i < |headers| ==> headers[i].mark == Unmarked
    ensures r.Some? ==> exists i :: 0 <= i < |headers| && headers[i].mark != Unmarked && r.value == headers[i].key
    decreases |headers|
  {
    if headers == [] then None
    else if headers[0].mark != Unmarked then Some(headers[0].key)
    else
      var r := CurrentSortAsWritten(headers[1..]);
      assert forall i :: 1 <= i < |headers| ==> headers[i] == headers[1..][i - 1];
      r
  }

  /** The header's new sort: a header that the current sort starts with moves from `:asc` to
      `:desc` and from anything else to none; any other header starts ascending. */
  function NextSort(key: string, current: Option<string>): (r: Option<string>)
    ensures current.Some? && current.value != "" && StartsWith(current.value, key) && EndsWith(current.value, ":asc")
      ==> r == Some(key + ":desc")
    ensures current.Some? && current.value != "" && StartsWith(current.value, key) && !EndsWith(current.value, ":asc")
      ==> r.None?
    ensures !(current.Some? && current.value != "" && StartsWith(current.value, key)) ==> r == Some(key + ":asc")
  {
    if current.Some? && current.value != "" && StartsWith(current.value, key) then
      if EndsWith(current.value, ":asc") then Some(key + ":desc") else None
    else Some(key + ":asc")
  }

  /** The marks after a click that chose `newSort`: every header is cleared and the clicked one,
      if a sort was chosen, shows its direction. */
  function Remark(headers: seq<SortHeader>, idx: nat, newSort: Option<string>): (r: seq<SortHeader>)
    requires idx < |headers|
    ensures |r| == |headers|
    ensures forall i :: 0 <= i < |r| ==> r[i].key == headers[i].key
    ensures forall i :: 0 <= i < |r| && i != idx ==> r[i].mark == Unmarked
    ensures newSort.None? ==> r[idx].mark == Unmarked
    ensures newSort.Some? ==> r[idx].mark == (if EndsWith(newSort.value, ":asc") then MarkedAsc else MarkedDesc)
  {
    seq(|headers|, i requires 0 <= i < |headers| =>
      SortHeader(headers[i].key,
        if i == idx && newSort.Some? then (if EndsWith(newSort.value, ":asc") then MarkedAsc else MarkedDesc)
        else Unmarked))
  }

  /** A key written without a direction suffix: `"amount"`, `"score"`, `"timestamp"`. */
  predicate PlainKey(key: string) {
    ':' !in key
  }

  lemma PlainKeyNotAsc(key: string)
    requires PlainKey(key)
    ensures !EndsWith(key, ":asc")
  {
    if |key| >= 4 {
      var c := key[|key| - 4];
      assert c in key;
      assert key[|key| - 4..][0] == c;
    }
  }

  /** As written, clicking the header that is marked first clears the sort, whatever its mark. */
  lemma ClickActiveClearsAsWritten(headers: seq<SortHeader>, idx: nat)
    requires idx < |headers| && headers[idx].key != "" && PlainKey(headers[idx].key)
    requires headers[idx].mark != Unmarked
    requires forall i :: 0 <= i < idx ==> headers[i].mark == Unmarked
    ensures NextSort(headers[idx].key, CurrentSortAsWritten(headers)) == None
  {
    FirstMarked(headers, idx);
    PlainKeyNotAsc(headers[idx].key);
    assert StartsWith(headers[idx].key, headers[idx].key);
  }

  lemma {:induction false} FirstMarked(headers: seq<SortHeader>, idx: nat)
    requires idx < |headers| && headers[idx].mark != Unmarked
    requires forall i :: 0 <= i < idx ==> headers[i].mark == Unmarked
    ensures CurrentSortAsWritten(headers) == Some(headers[idx].key)
    ensures CurrentSortIntended(headers) ==
      Some(headers[idx].key + (if headers[idx].mark == MarkedAsc then ":asc" else ":desc"))
    decreases idx
  {
    if idx > 0 {
      FirstMarked(headers[1..], idx - 1);
    }
  }

  /** As written, with plain header keys, no click ever marks a header descending. */
  lemma NeverDescendingAsWritten(headers: seq<SortHeader>, idx: nat)
    requires idx < |headers|
    requires forall i :: 0 <= i < |headers| ==> PlainKey(headers[i].key)
    ensures forall i :: 0 <= i < |headers| ==>
      Remark(headers, idx, NextSort(headers[idx].key, CurrentSortAsWritten(headers)))[i].mark != MarkedDesc
  {
    var current := CurrentSortAsWritten(headers);
    if current.Some? {
      var j :| 0 <= j < |headers| && headers[j].mark != Unmarked && current.value == headers[j].key;
      PlainKeyNotAsc(headers[j].key);
    }
    var key := headers[idx].key;
    var asc := key + ":asc";
    assert asc[|asc| - 4..] == ":asc";
  }

  /** As written, a re-render after an ascending click reads the bare key back and sorts descending. */
  lemma RerenderSortsDescendingAsWritten(headers: seq<SortHeader>, idx: nat)
    requires idx < |headers| && PlainKey(headers[idx].key)
    requires headers[idx].mark == MarkedAsc
    requires forall i :: 0 <= i < idx ==> headers[i].mark == Unmarked
    ensures CurrentSortAsWritten(headers) == Some(headers[idx].key)
    ensures !Ascending(headers[idx].key)
  {
    FirstMarked(headers, idx);
    SplitWithoutSeparator(headers[idx].key, ':');
  }

  /** The evidently intended reading of the marks: the first marked header's key with the
      direction its mark shows. */
  function CurrentSortIntended(headers: seq<SortHeader>): (r: Option<string>)
    ensures r.None? <==> forall i :: 0 <= i < |headers| ==> headers[i].mark == Unmarked
    decreases |headers|
  {
    if headers == [] then None
    else if headers[0].mark != Unmarked then
      Some(headers[0].key + (if headers[0].mark == MarkedAsc then ":asc" else ":desc"))
    else
      var r := CurrentSortIntended(headers[1..]);
      assert forall i :: 1 <= i < |headers| ==> headers[i] == headers[1..][i - 1];
      r
  }

  /** One click, as the evidently intended code reads the current sort. */
  function ClickIntended(headers: seq<SortHeader>, idx: nat): (r: seq<SortHeader>)
    requires idx < |headers|
    ensures |r| == |headers|
  {
    Remark(headers, idx, NextSort(headers[idx].key, CurrentSortIntended(headers)))
  }

  /** Reading the key and direction back from the marks gives the sort the marks show. */
  lemma IntendedSortMatchesMark(headers: seq<SortHeader>, idx: nat)
    requires idx < |headers| && PlainKey(headers[idx].key)
    requires headers[idx].mark != Unmarked
    requires forall i :: 0 <= i < idx ==> headers[i].mark == Unmarked
    ensures CurrentSortIntended(headers).Some?
    ensures SortField(CurrentSortIntended(headers).value) == headers[idx].key
    ensures Ascending(CurrentSortIntended(headers).value) <==> headers[idx].mark == MarkedAsc
  {
    FirstMarked(headers, idx);
    var key := headers[idx].key;
    if headers[idx].mark == MarkedAsc {
      SplitSuffix(key, ":asc");
      assert ":asc"[1..] == "asc";
    } else {
      SplitSuffix(key, ":desc");
    }
  }

  /** `(key + suffix).split(':')` with a plain key and a suffix `:dir` gives the two parts. */
  lemma {:induction false} SplitSuffix(key: string, suffix: string)
    requires PlainKey(key) && suffix != [] && suffix[0] == ':' && ':' !in suffix[1..]
    ensures Split(key + suffix, ':') == [key, suffix[1..]]
    decreases |key|
  {
    if key == [] {
      SplitWithoutSeparator(suffix[1..], ':');
      assert ([] + suffix)[1..] == suffix[1..];
    } else {
      SplitSuffix(key[1..], suffix);
      assert (key + suffix)[1..] == key[1..] + suffix;
      assert key == [key[0]] + key[1..];
    }
  }

  /** With the intended reading, clicking one plain header from an unsorted table cycles
      ascending, descending, unsorted. */
  lemma ClickCycleIntended(headers: seq<SortHeader>, idx: nat)
    requires idx < |headers| && headers[idx].key != "" && PlainKey(headers[idx].key)
    requires forall i :: 0 <= i < |headers| ==> headers[i].mark == Unmarked
    ensures ClickIntended(headers, idx)[idx].mark == MarkedAsc
    ensures ClickIntended(ClickIntended(headers, idx), idx)[idx].mark == MarkedDesc
    ensures ClickIntended(ClickIntended(ClickIntended(headers, idx), idx), idx)
      == Remark(headers, idx, None)
  {
    var key := headers[idx].key;
    var asc, desc := key + ":asc", key + ":desc";
    assert asc[|asc| - 4..] == ":asc";
    var h1 := ClickIntended(headers, idx);
    assert h1[idx].mark == MarkedAsc;
    FirstMarked(h1, idx);
    assert StartsWith(asc, key) by { assert asc[..|key|] == key; }
    var h2 := ClickIntended(h1, idx);
    assert !EndsWith(desc, ":asc") by { assert desc[|desc| - 4] == 'd'; }
    assert h2[idx].mark == MarkedDesc;
    FirstMarked(h2, idx);
    assert StartsWith(desc, key) by { assert desc[..|key|] == key; }
    assert EndsWith(asc, ":asc");
    var h3 := ClickIntended(h2, idx);
    assert h3 == Remark(headers, idx, None);
  }

  // ---------------------------------------------------------------------------------------------
  // The modal's state

  /** The filtered list as the table shows it: sorted in place when a sort is named. */
  method ArrangeRows(shown: seq<Transaction>, f: Filters) returns (rows: seq<Transaction>)
    ensures multiset(rows) == multiset(shown)
    ensures !SortActive(f) ==> rows == shown
    ensures SortActive(f) && SameKind(shown, SortField(f.sort.value)) ==>
      Sorting.SortedBy((x, y) => After(SortField(f.sort.value), Ascending(f.sort.value), x, y), rows)
  {
    var a := new Transaction[|shown|](i requires 0 <= i < |shown| => shown[i]);
    assert a[..] == shown;
    if SortActive(f) {
      SortTransactions(a, f.sort.value);
    }
    rows := a[..];
  }

  /** The filter inputs, with each number field already parsed (`None` when `parseFloat` gives NaN). */
  datatype Controls = Controls(
    txType: string,
    minAmount: Option<real>,
    maxAmount: Option<real>,
    minScore: Option<real>,
    search: string)

  const EmptyControls := Controls("", None, None, None, "")

  /** `parseFloat(...) || null`: zero and NaN both become `null`. */
  function OrNull(x: Option<real>): (r: Option<real>)
    ensures r.Some? ==> r.value != 0.0 && r == x
    ensures Active(r) <==> Active(x)
  {
    if x.Some? && x.value != 0.0 then x else None
  }

  /** `getCurrentFilters()`, as written: the sort is the bare key of the first marked header. */
  function CurrentFiltersAsWritten(c: Controls, headers: seq<SortHeader>): (f: Filters)
    ensures f.sort == CurrentSortAsWritten(headers)
    ensures f.txType == c.txType && f.search == c.search
    ensures Active(f.minAmount) <==> Active(c.minAmount)
    ensures Active(f.maxAmount) <==> Active(c.maxAmount)
    ensures Active(f.minScore) <==> Active(c.minScore)
  {
    Filters(c.txType, OrNull(c.minAmount), OrNull(c.maxAmount), OrNull(c.minScore), c.search,
      CurrentSortAsWritten(headers))
  }

  /** `if (filters.sort)`: a sort is applied only when one is named. */
  predicate SortActive(f: Filters) {
    f.sort.Some? && f.sort.value != ""
  }

  /** The total shown above the table: the plain count, or the count with "filtered from". */
  datatype TotalView = Plain(total: nat) | FilteredFrom(shown: nat, total: nat)

  /** Why the content area shows an error alert instead of the table. */
  datatype LoadFailure = HttpStatus(status: int) | ServerError(message: string) | RenderError

  /** What `fetch('/api/fraud-transactions/<type>')` delivered. */
  datatype Response = HttpError(status: int) | ErrorBody(message: string) | Body(transactions: seq<Transaction>)

  /** The work of `renderTransactionsTable` on values: filter, sort, compute the statistics, append
      their block and choose the total's text. `ok` is false when the filter throws. */
  method BuildTable(txs: seq<Transaction>, f: Filters, blocksBefore: seq<StatsBlock>)
    returns (ok: bool, rows: seq<Transaction>, stats: Stats, statsBlocks: seq<StatsBlock>, totalView: TotalView)
    ensures ok <==> FilterTransactions(txs, f).Some?
    ensures ok ==> RenderedView(txs, f, blocksBefore, rows, stats, statsBlocks, totalView)
  {
    var filtered := FilterTransactions(txs, f);
    if filtered.None? {
      return false, [], ComputeStats([]), blocksBefore, Plain(|txs|);
    }
    var shown := filtered.value;
    rows := ArrangeRows(shown, f);
    stats := ComputeStats(rows);
    StatsIgnoreOrder(rows, shown);
    statsBlocks := AppendStatsBlock(blocksBefore, stats);
    totalView := if |shown| != |txs| then FilteredFrom(|shown|, |txs|) else Plain(|txs|);
    ok := true;
  }

  /** A rendered table: `rows` are the filtered transactions, in input order unless a sort is
      active and then sorted by it; the statistics, their appended block and the total match. */
  ghost predicate RenderedView(txs: seq<Transaction>, f: Filters, blocksBefore: seq<StatsBlock>,
                               rows: seq<Transaction>, stats: Stats, statsBlocks: seq<StatsBlock>,
                               totalView: TotalView)
  {
    var shown := FilterTransactions(txs, f);
    && shown.Some?
    && multiset(rows) == multiset(shown.value)
    && (!SortActive(f) ==> rows == shown.value)
    && (SortActive(f) && SameKind(shown.value, SortField(f.sort.value)) ==>
          Sorting.SortedBy((x, y) => After(SortField(f.sort.value), Ascending(f.sort.value), x, y), rows))
    && stats == ComputeStats(shown.value)
    && statsBlocks == AppendStatsBlock(blocksBefore, stats)
    && totalView == (if |shown.value| != |txs| then FilteredFrom(|shown.value|, |txs|) else Plain(|txs|))
  }

  class TransactionsPanel {
    var current: seq<Transaction>          // `currentTransactions`
    var headers: seq<SortHeader>           // the `[data-sort]` headers and their marks
    var controls: Controls
    var rows: seq<Transaction>             // the table body, one row per transaction
    var totalView: TotalView
    var stats: Stats
    var statsBlocks: seq<StatsBlock>       // the blocks appended to `.stats`
    var chart: seq<TypeGroup>
    var failure: Option<LoadFailure>

    /** The modal before its first load, with sort headers for `keys`, none marked. */
    constructor (keys: seq<string>)
      ensures current == [] && rows == [] && chart == [] && statsBlocks == []
      ensures |headers| == |keys| && forall i :: 0 <= i < |keys| ==> headers[i] == SortHeader(keys[i], Unmarked)
      ensures controls == EmptyControls && failure == None
    {
      current := [];
      headers := seq(|keys|, i requires 0 <= i < |keys| => SortHeader(keys[i], Unmarked));
      controls := EmptyControls;
      rows := [];
      totalView := Plain(0);
      stats := ComputeStats([]);
      statsBlocks := [];
      chart := [];
      failure := None;
    }

    /** The table, total and statistics show the result of filtering and sorting `txs` by `f`. */
    ghost predicate RenderedFrom(txs: seq<Transaction>, f: Filters, blocksBefore: seq<StatsBlock>)
      reads this
    {
      RenderedView(txs, f, blocksBefore, rows, stats, statsBlocks, totalView)
    }

    /** `renderTransactionsTable(txs, f)`. The body is cleared first; if the filter throws,
        nothing else is written. */
    method Render(txs: seq<Transaction>, f: Filters) returns (ok: bool)
      modifies this
      ensures ok <==> FilterTransactions(txs, f).Some?
      ensures ok ==> RenderedFrom(txs, f, old(statsBlocks))
      ensures !ok ==> rows == [] && stats == old(stats) && statsBlocks == old(statsBlocks) && totalView == old(totalView)
      ensures current == old(current) && headers == old(headers) && controls == old(controls)
      ensures chart == old(chart) && failure == old(failure)
    {
      rows := [];
      var built, sorted, newStats, blocks, total := BuildTable(txs, f, statsBlocks);
      if !built {
        return false;
      }
      rows, stats, statsBlocks, totalView := sorted, newStats, blocks, total;
      ok := true;
    }

    /** `loadTransactions(type, f)` once the response is in: an HTTP or server error shows the
        alert; a body replaces `currentTransactions`, renders the table and, unless rendering
        threw, draws the chart of the whole response. */
    method Load(response: Response, f: Filters)
      modifies this
      ensures response.HttpError? ==> failure == Some(HttpStatus(response.status)) && current == old(current)
      ensures response.ErrorBody? ==> failure == Some(ServerError(response.message)) && current == old(current)
      ensures response.Body? ==> current == response.transactions
      ensures response.Body? && FilterTransactions(response.transactions, f).Some? ==>
        && RenderedFrom(response.transactions, f, old(statsBlocks))
        && ChartOf(response.transactions, chart)
        && ChartCount(chart) == |response.transactions|
        && failure == old(failure)
      ensures response.Body? && FilterTransactions(response.transactions, f).None? ==>
        && failure == Some(RenderError) && rows == [] && chart == old(chart)
        && stats == old(stats) && statsBlocks == old(statsBlocks) && totalView == old(totalView)
      ensures !response.Body? ==>
        && rows == old(rows) && stats == old(stats) && statsBlocks == old(statsBlocks)
        && totalView == old(totalView) && chart == old(chart)
      ensures headers == old(headers) && controls == old(controls)
    {
      match response {
        case HttpError(status) =>
          failure := Some(HttpStatus(status));
        case ErrorBody(message) =>
          failure := Some(ServerError(message));
        case Body(txs) =>
          Show(txs, f);
      }
    }

    /** The success path of `loadTransactions`: store, render, then chart the whole list. */
    method Show(txs: seq<Transaction>, f: Filters)
      modifies this
      ensures current == txs && headers == old(headers) && controls == old(controls)
      ensures FilterTransactions(txs, f).Some? ==>
        && RenderedFrom(txs, f, old(statsBlocks))
        && ChartOf(txs, chart)
        && ChartCount(chart) == |txs|
        && failure == old(failure)
      ensures FilterTransactions(txs, f).None? ==>
        && failure == Some(RenderError) && rows == [] && chart == old(chart)
        && stats == old(stats) && statsBlocks == old(statsBlocks) && totalView == old(totalView)
    {
      current := txs;
      var ok := Render(current, f);
      if ok {
        chart := GroupByType(current);
      } else {
        failure := Some(RenderError);
      }
    }

    /** `showFraudTransactions()`: opens the modal and loads every type with no filters. */
    method Open(response: Response)
      modifies this
      ensures response.Body? ==> current == response.transactions && RenderedFrom(current, NoFilters, old(statsBlocks))
      ensures response.Body? ==> rows == response.transactions
      ensures headers == old(headers) && controls == old(controls)
    {
      if response.Body? {
        NoFiltersKeepsAll(response.transactions);
      }
      Load(response, NoFilters);
    }

    /** The type select changed: reload that type with the current filters. */
    method ChangeType(txType: string, response: Response)
      modifies this
      ensures controls == old(controls).(txType := txType) && headers == old(headers)
      ensures response.Body? && FilterTransactions(response.transactions, CurrentFiltersAsWritten(controls, headers)).Some? ==>
        RenderedFrom(response.transactions, CurrentFiltersAsWritten(controls, headers), old(statsBlocks))
    {
      controls := controls.(txType := txType);
      Load(response, CurrentFiltersAsWritten(controls, headers));
    }

    /** An input changed and the debounce timer fired: re-render with the current filters. */
    method Rerender(c: Controls) returns (ok: bool)
      modifies this
      ensures controls == c && headers == old(headers) && current == old(current)
      ensures ok <==> FilterTransactions(current, CurrentFiltersAsWritten(c, headers)).Some?
      ensures ok ==> RenderedFrom(current, CurrentFiltersAsWritten(c, headers), old(statsBlocks))
    {
      controls := c;
      ok := Render(current, CurrentFiltersAsWritten(controls, headers));
    }

    /** A click on header `idx`: the new sort comes from the current marks, the marks are
        redrawn, and the table is rendered with the new sort. */
    method ClickHeader(idx: nat) returns (ok: bool)
      requires idx < |headers|
      modifies this
      ensures var newSort := NextSort(old(headers)[idx].key, CurrentSortAsWritten(old(headers)));
        && headers == Remark(old(headers), idx, newSort)
        && (ok <==> FilterTransactions(current, CurrentFiltersAsWritten(controls, headers).(sort := newSort)).Some?)
        && (ok ==> RenderedFrom(current, CurrentFiltersAsWritten(controls, headers).(sort := newSort), old(statsBlocks)))
      ensures current == old(current) && controls == old(controls)
    {
      var newSort := NextSort(headers[idx].key, CurrentSortAsWritten(headers));
      headers := Remark(headers, idx, newSort);
      ok := Render(current, CurrentFiltersAsWritten(controls, headers).(sort := newSort));
    }
  }
}
