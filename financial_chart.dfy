/**
 * The trend chart of the dashboard (src/components/dashboard/FinancialChart.tsx):
 * turning a trends object (series key -> list of period/value points) into chart rows,
 * one per period, with display-friendly field names; choosing the lines to draw; and
 * the metric display-name table.
 */
module FinancialChart {
  import opened Wrappers
  import opened Text
  import opened Ordering
  import opened Dicts
  import opened Sequences
  import opened ChartKeys

  datatype Point = Point(period: string, value: real)

  /** A trends object, in `Object.entries` order. */
  type Trends = Dict<string, seq<Point>>

  /** A chart-row field: `period` holds a string, the metric fields hold numbers. */
  datatype Cell = Str(s: string) | Num(n: real)

  /** One chart row: a JavaScript object whose keys keep their insertion order. */
  type Row = Dict<string, Cell>

  function SampleRow(period: string, current: real, quick: real, industry: real): Row {
    [("period", Str(period)), ("currentRatio", Num(current)), ("quickRatio", Num(quick)), ("industryAvg", Num(industry))]
  }

  /** The built-in six-quarter sample shown when there is nothing to plot. */
  const MockData: seq<Row> := [
    SampleRow("Q1 2023", 1.8, 1.2, 1.5),
    SampleRow("Q2 2023", 1.9, 1.3, 1.5),
    SampleRow("Q3 2023", 2.1, 1.4, 1.6),
    SampleRow("Q4 2023", 2.0, 1.3, 1.6),
    SampleRow("Q1 2024", 2.2, 1.5, 1.7),
    SampleRow("Q2 2024", 2.3, 1.6, 1.7)
  ]

  /** `categoryFilter ? ... : ...`: an absent or empty category does not filter. */
  predicate FilterActive(category: Option<string>) {
    category.Some? && category.value != ""
  }

  /** `Object.entries(trends).filter(([key]) => key.startsWith(prefix))`. */
  function SelectByPrefix(trends: Trends, prefix: string): (r: Trends)
    ensures IsSubsequence(r, trends)
    ensures forall e :: e in r <==> e in trends && StartsWith(e.0, prefix)
  {
    if |trends| == 0 then []
    else
      var rest := SelectByPrefix(trends[1..], prefix);
      assert trends == [trends[0]] + trends[1..];
      if StartsWith(trends[0].0, prefix) then
        SubsequenceCons(rest, trends[1..], trends[0]);
        [trends[0]] + rest
      else
        SubsequenceOfTail(rest, trends[1..], trends[0]);
        rest
  }

  /** The series the chart is built from. */
  function Relevant(trends: Trends, category: Option<string>): (r: Trends)
    ensures IsSubsequence(r, trends)
    ensures forall e :: e in r <==> e in trends && (FilterActive(category) ==> StartsWith(e.0, category.value))
  {
    if FilterActive(category) then SelectByPrefix(trends, category.value)
    else
      assert IsSubsequence(trends, trends) by { SubsequenceRefl(trends); }
      trends
  }

  predicate HasPeriod(points: seq<Point>, period: string) {
    exists j :: 0 <= j < |points| && points[j].period == period
  }

  /** `period` is a period of some series of `rel`. */
  predicate InUnion(rel: Trends, period: string) {
    exists t :: 0 <= t < |rel| && HasPeriod(rel[t].1, period)
  }

  /** `points.find(point => point.period === period)`, as its value. */
  function FirstValue(points: seq<Point>, period: string): (r: Option<real>)
    ensures r.None? <==> !HasPeriod(points, period)
    ensures r.Some? ==> exists j :: 0 <= j < |points| && points[j] == Point(period, r.value)
                                    && forall i :: 0 <= i < j ==> points[i].period != period
  {
    if |points| == 0 then None
    else if points[0].period == period then Some(points[0].value)
    else
      var r := FirstValue(points[1..], period);
      assert forall j :: 0 < j < |points| ==> points[j] == points[1..][j - 1];
      r
  }

  /** Adding the periods of `points`, in order, to the insertion-ordered set `acc`. */
  function AddPeriods(acc: seq<string>, points: seq<Point>): seq<string>
    decreases |points|
  {
    if |points| == 0 then acc
    else
      var a := AddPeriods(acc, points[..|points| - 1]);
      var p := points[|points| - 1].period;
      if p in a then a else a + [p]
  }

  /** The `allPeriods` set, in insertion order. */
  function CollectPeriods(rel: Trends): seq<string> {
    if |rel| == 0 then [] else AddPeriods(CollectPeriods(rel[..|rel| - 1]), rel[|rel| - 1].1)
  }

  lemma {:induction false} AddPeriodsSpec(acc: seq<string>, points: seq<Point>)
    requires Distinct(acc)
    ensures Distinct(AddPeriods(acc, points))
    ensures forall p :: p in AddPeriods(acc, points) <==> p in acc || HasPeriod(points, p)
    decreases |points|
  {
    if |points| > 0 {
      var init := points[..|points| - 1];
      AddPeriodsSpec(acc, init);
      forall p ensures HasPeriod(points, p) <==> HasPeriod(init, p) || points[|points| - 1].period == p {
        if HasPeriod(points, p) {
          var j :| 0 <= j < |points| && points[j].period == p;
          if j < |points| - 1 { assert init[j].period == p; }
        }
        if HasPeriod(init, p) {
          var j :| 0 <= j < |init| && init[j].period == p;
          assert points[j].period == p;
        }
      }
    }
  }

  lemma {:induction false} CollectPeriodsSpec(rel: Trends)
    ensures Distinct(CollectPeriods(rel))
    ensures forall p :: p in CollectPeriods(rel) <==> InUnion(rel, p)
  {
    if |rel| > 0 {
      var init := rel[..|rel| - 1];
      CollectPeriodsSpec(init);
      AddPeriodsSpec(CollectPeriods(init), rel[|rel| - 1].1);
      forall p ensures InUnion(rel, p) <==> InUnion(init, p) || HasPeriod(rel[|rel| - 1].1, p) {
        if InUnion(rel, p) {
          var t :| 0 <= t < |rel| && HasPeriod(rel[t].1, p);
          if t < |rel| - 1 { assert init[t] == rel[t]; }
        }
        if InUnion(init, p) {
          var t :| 0 <= t < |init| && HasPeriod(init[t].1, p);
          assert rel[t] == init[t];
        }
      }
    }
  }

  /** `Array.from(allPeriods).sort()`. */
  function SortedPeriods(rel: Trends): (r: seq<string>)
    ensures StrictlyAscending(r)
    ensures forall p :: p in r <==> InUnion(rel, p)
  {
    CollectPeriodsSpec(rel);
    var r := Sort(CollectPeriods(rel));
    assert forall p :: p in r <==> p in Elements(r);
    r
  }

  /** The retained series under their display field names, in order. */
  function Labelled(rel: Trends, category: Option<string>): (r: Trends)
    ensures |r| == |rel|
    ensures forall t :: 0 <= t < |rel| ==> r[t] == (CleanKey(rel[t].0, category), rel[t].1)
  {
    seq(|rel|, t requires 0 <= t < |rel| => (CleanKey(rel[t].0, category), rel[t].1))
  }

  /** The row of `period`: `period` first, then each series' first value at that period under its field name. */
  function FillRow(series: Trends, period: string): (r: Row)
    ensures |r| > 0 && r[0].0 == "period"
    ensures DistinctKeys(r)
  {
    if |series| == 0 then [("period", Str(period))]
    else
      var row := FillRow(series[..|series| - 1], period);
      var (name, points) := series[|series| - 1];
      match FirstValue(points, period)
      case None => row
      case Some(v) =>
        PutKeepsDistinct(row, name, Num(v));
        assert Keys(Put(row, name, Num(v)))[0] == Keys(row)[0];
        Put(row, name, Num(v))
  }

  /** The chart row of one period (FinancialChart.tsx:54-69): keyed by `period` first, with no field twice. */
  function BuildRow(rel: Trends, period: string, category: Option<string>): (r: Row)
    ensures |r| > 0 && r[0].0 == "period"
    ensures DistinctKeys(r)
  {
    FillRow(Labelled(rel, category), period)
  }

  /** One row per period of `periods`, in that order. */
  function RowsOf(rel: Trends, periods: seq<string>, category: Option<string>): (r: seq<Row>)
    ensures |r| == |periods|
    ensures forall i :: 0 <= i < |periods| ==> r[i] == BuildRow(rel, periods[i], category)
  {
    seq(|periods|, i requires 0 <= i < |periods| => BuildRow(rel, periods[i], category))
  }

  /** One row per period, in ascending period order. */
  function AllRows(rel: Trends, category: Option<string>): seq<Row> {
    RowsOf(rel, SortedPeriods(rel), category)
  }

  /** There is nothing of `trends` to plot: the sample is shown instead. */
  predicate ShowsSample(trends: Trends, category: Option<string>) {
    |trends| == 0 || |Relevant(trends, category)| == 0
  }

  /** What `transformTrendData(trends, category)` returns: the sample, or at most six rows of real periods. */
  function ChartRows(trends: Trends, category: Option<string>): (r: seq<Row>)
    ensures ShowsSample(trends, category) ==> r == MockData
    ensures !ShowsSample(trends, category) ==> |r| == Min(6, |SortedPeriods(Relevant(trends, category))|)
    ensures !ShowsSample(trends, category) ==> forall i :: 0 <= i < |r| ==> |r[i]| > 0 && r[i][0].0 == "period" && DistinctKeys(r[i])
  {
    if ShowsSample(trends, category) then MockData
    else LastN(AllRows(Relevant(trends, category), category), 6)
  }

  /** The nested `forEach` that fills the `allPeriods` set (FinancialChart.tsx:45-48). */
  method CollectAllPeriods(relevantTrends: Trends) returns (allPeriods: seq<string>)
    ensures allPeriods == CollectPeriods(relevantTrends)
  {
    allPeriods := [];
    for t := 0 to |relevantTrends|
      invariant allPeriods == CollectPeriods(relevantTrends[..t])
    {
      var trendData := relevantTrends[t].1;
      for j := 0 to |trendData|
        invariant allPeriods == AddPeriods(CollectPeriods(relevantTrends[..t]), trendData[..j])
      {
        var period := trendData[j].period;
        assert trendData[..j + 1][..j] == trendData[..j];
        if period !in allPeriods {
          allPeriods := allPeriods + [period];
        }
      }
      assert trendData[..|trendData|] == trendData;
      assert relevantTrends[..t + 1][..t] == relevantTrends[..t];
    }
    assert relevantTrends[..|relevantTrends|] == relevantTrends;
  }

  /** The `forEach` that fills one `dataPoint` row (FinancialChart.tsx:54-69). */
  method BuildDataPoint(relevantTrends: Trends, period: string, categoryFilter: Option<string>) returns (dataPoint: Row)
    ensures dataPoint == BuildRow(relevantTrends, period, categoryFilter)
  {
    dataPoint := [("period", Str(period))];
    for t := 0 to |relevantTrends|
      invariant dataPoint == FillRow(Labelled(relevantTrends, categoryFilter)[..t], period)
    {
      var (trendKey, trendData) := relevantTrends[t];
      ghost var labelled := Labelled(relevantTrends, categoryFilter);
      assert labelled[..t + 1][..t] == labelled[..t];
      var dataForPeriod := FirstValue(trendData, period);
      if dataForPeriod.Some? {
        var cleanKey := CleanKey(trendKey, categoryFilter);
        dataPoint := Put(dataPoint, cleanKey, Num(dataForPeriod.value));
      }
    }
    assert Labelled(relevantTrends, categoryFilter)[..|relevantTrends|] == Labelled(relevantTrends, categoryFilter);
  }

  /** `transformTrendData` (FinancialChart.tsx:30-73). */
  method TransformTrendData(trendsData: Trends, categoryFilter: Option<string>) returns (chart: seq<Row>)
    ensures chart == ChartRows(trendsData, categoryFilter)
  {
    if |trendsData| == 0 {
      return MockData;
    }
    var relevantTrends := if FilterActive(categoryFilter) then SelectByPrefix(trendsData, categoryFilter.value) else trendsData;
    if |relevantTrends| == 0 {
      return MockData;
    }
    var allPeriods := CollectAllPeriods(relevantTrends);
    CollectPeriodsSpec(relevantTrends);
    var sortedPeriods := Sort(allPeriods);
    assert sortedPeriods == SortedPeriods(relevantTrends);

    var rows := BuildDataPoints(relevantTrends, sortedPeriods, categoryFilter);
    chart := LastN(rows, 6);
  }

  /** The `map` from sorted periods to rows (FinancialChart.tsx:51-70). */
  method BuildDataPoints(relevantTrends: Trends, sortedPeriods: seq<string>, categoryFilter: Option<string>) returns (rows: seq<Row>)
    ensures rows == RowsOf(relevantTrends, sortedPeriods, categoryFilter)
  {
    rows := [];
    for n := 0 to |sortedPeriods|
      invariant |rows| == n
      invariant forall m :: 0 <= m < n ==> rows[m] == BuildRow(relevantTrends, sortedPeriods[m], categoryFilter)
    {
      var dataPoint := BuildDataPoint(relevantTrends, sortedPeriods[n], categoryFilter);
      rows := rows + [dataPoint];
    }
    assert rows == RowsOf(relevantTrends, sortedPeriods, categoryFilter);
  }

  /** The component's call `transformTrendData(data || {}, category)` (FinancialChart.tsx:75). */
  function ChartFor(data: Option<Trends>, category: Option<string>): seq<Row> {
    ChartRows(data.GetOr([]), category)
  }

  // ---------------------------------------------------------------------------
  // What the transformation promises

  lemma SampleWhenNothingToPlot(trends: Trends, category: Option<string>)
    requires |trends| == 0 || (FilterActive(category) && forall i :: 0 <= i < |trends| ==> !StartsWith(trends[i].0, category.value))
    ensures ChartRows(trends, category) == MockData
    ensures ChartFor(None, category) == MockData
  {
  }

  /** The periods the chart shows. */
  function DisplayedPeriods(trends: Trends, category: Option<string>): seq<string> {
    LastN(SortedPeriods(Relevant(trends, category)), 6)
  }

  /** The chart shows the (at most) six latest periods of the retained series, in ascending order. */
  lemma ChartPeriods(trends: Trends, category: Option<string>)
    ensures var rel := Relevant(trends, category);
            var shown := DisplayedPeriods(trends, category);
            && StrictlyAscending(shown)
            && (forall p :: p in shown ==> InUnion(rel, p))
            && |shown| == Min(6, |SortedPeriods(rel)|)
            && (forall p, q :: InUnion(rel, p) && p !in shown && q in shown ==> Less(p, q))
  {
    var rel := Relevant(trends, category);
    var ps := SortedPeriods(rel);
    var shown := DisplayedPeriods(trends, category);
    var k := |ps| - |shown|;
    assert shown == ps[k..];
    forall i, j | 0 <= i < j < |shown| ensures Less(shown[i], shown[j]) {
      assert shown[i] == ps[k + i] && shown[j] == ps[k + j];
    }
    forall p, q | InUnion(rel, p) && p !in shown && q in shown ensures Less(p, q) {
      var j :| 0 <= j < |ps| && ps[j] == p;
      var i :| 0 <= i < |shown| && shown[i] == q;
      assert j < k;
      assert ps[k + i] == q;
    }
  }

  /** When real data is plotted, the chart has one row per displayed period, in order. */
  lemma ChartRowsShown(trends: Trends, category: Option<string>)
    requires !ShowsSample(trends, category)
    ensures ChartRows(trends, category) == RowsOf(Relevant(trends, category), DisplayedPeriods(trends, category), category)
  {
    var rel := Relevant(trends, category);
    LastRows(rel, SortedPeriods(rel), category);
  }

  lemma LastRows(rel: Trends, periods: seq<string>, category: Option<string>)
    ensures LastN(RowsOf(rel, periods, category), 6) == RowsOf(rel, LastN(periods, 6), category)
  {
    var rows := LastN(RowsOf(rel, periods, category), 6);
    var shown := LastN(periods, 6);
    assert |rows| == |shown|;
    forall i | 0 <= i < |rows| ensures rows[i] == BuildRow(rel, shown[i], category) {
      assert rows[i] == RowsOf(rel, periods, category)[|periods| - |rows| + i];
    }
  }

  /** Series `t` writes field `key` into the row of `period`. */
  predicate Contributes(series: Trends, t: int, period: string, key: string) {
    0 <= t < |series| && series[t].0 == key && HasPeriod(series[t].1, period)
  }

  lemma {:induction false} RowKeys(series: Trends, period: string)
    ensures var row := FillRow(series, period);
            && DistinctKeys(row) && |row| > 0 && row[0].0 == "period"
            && forall key :: key != "period" ==> (key in Keys(row) <==> exists t :: Contributes(series, t, period, key))
  {
    if |series| > 0 {
      var init := series[..|series| - 1];
      RowKeys(init, period);
      var row0 := FillRow(init, period);
      var (name, points) := series[|series| - 1];
      assert forall t, k :: 0 <= t < |init| ==> (Contributes(init, t, period, k) <==> Contributes(series, t, period, k));
      match FirstValue(points, period)
      case None =>
      case Some(v) =>
        assert Contributes(series, |series| - 1, period, name);
    }
  }

  /** A field holds the first value, at that period, of the last series writing it. */
  lemma {:induction false} RowMetricValue(series: Trends, period: string, key: string, t: int)
    requires Contributes(series, t, period, key)
    requires forall u :: t < u < |series| ==> !Contributes(series, u, period, key)
    ensures Get(FillRow(series, period), key) == Some(Num(FirstValue(series[t].1, period).value))
  {
    var n := |series| - 1;
    var init := series[..n];
    var row0 := FillRow(init, period);
    var (name, points) := series[n];
    if t == n {
      GetPutSame(row0, name, Num(FirstValue(points, period).value));
    } else {
      assert !Contributes(series, n, period, key);
      forall u | 0 <= u < n ensures Contributes(init, u, period, key) == Contributes(series, u, period, key) {
        assert init[u] == series[u];
      }
      RowMetricValue(init, period, key, t);
      if FirstValue(points, period).Some? {
        GetPutOther(row0, name, Num(FirstValue(points, period).value), key);
      }
    }
  }

  /** `period` keeps the row's period unless some series' field name is "period" too. */
  lemma {:induction false} RowPeriodValue(series: Trends, period: string)
    requires forall t :: !Contributes(series, t, period, "period")
    ensures Get(FillRow(series, period), "period") == Some(Str(period))
  {
    if |series| > 0 {
      var n := |series| - 1;
      var init := series[..n];
      forall u | 0 <= u < n ensures Contributes(init, u, period, "period") == Contributes(series, u, period, "period") {
        assert init[u] == series[u];
      }
      RowPeriodValue(init, period);
      var row0 := FillRow(init, period);
      var (name, points) := series[n];
      match FirstValue(points, period)
      case None =>
        assert FillRow(series, period) == row0;
      case Some(v) =>
        assert name != "period" by {
          assert Contributes(series, n, period, name);
        }
        assert FillRow(series, period) == Put(row0, name, Num(v));
        GetPutOther(row0, name, Num(v), "period");
    }
  }

  /** `list.filter(key => key !== x)`. */
  function WithoutKey(keys: seq<string>, x: string): (r: seq<string>)
    ensures IsSubsequence(r, keys)
    ensures forall k :: k in r <==> k in keys && k != x
  {
    if |keys| == 0 then []
    else
      var rest := WithoutKey(keys[1..], x);
      assert keys == [keys[0]] + keys[1..];
      if keys[0] != x then
        SubsequenceCons(rest, keys[1..], keys[0]);
        [keys[0]] + rest
      else
        SubsequenceOfTail(rest, keys[1..], keys[0]);
        rest
  }

  /** `Object.keys(chartData[0] || {}).filter(key => key !== 'period')` (FinancialChart.tsx:78). */
  function DataKeys(rows: seq<Row>): (r: seq<string>)
    ensures |rows| > 0 ==> IsSubsequence(r, Keys(rows[0]))
    ensures forall k :: k in r <==> |rows| > 0 && k in Keys(rows[0]) && k != "period"
  {
    if |rows| == 0 then [] else WithoutKey(Keys(rows[0]), "period")
  }

  /** `dataKeys.slice(0, 4)`: the keys drawn as solid lines (FinancialChart.tsx:155). */
  function PlottedKeys(rows: seq<Row>): (r: seq<string>)
    ensures |r| == Min(4, |DataKeys(rows)|)
    ensures r == DataKeys(rows)[..|r|]
  {
    var keys := DataKeys(rows);
    if |keys| <= 4 then keys else keys[..4]
  }

  lemma SampleKeys()
    ensures DataKeys(MockData) == ["currentRatio", "quickRatio", "industryAvg"]
    ensures PlottedKeys(MockData) == DataKeys(MockData)
  {
    var keys := Keys(MockData[0]);
    assert keys == ["period", "currentRatio", "quickRatio", "industryAvg"];
    assert keys[1..][1..][1..][1..] == [];
    assert WithoutKey(keys[1..][1..][1..], "period") == ["industryAvg"];
    assert WithoutKey(keys[1..][1..], "period") == ["quickRatio", "industryAvg"];
    assert WithoutKey(keys[1..], "period") == ["currentRatio", "quickRatio", "industryAvg"];
  }

  /** A line is drawn for a retained series exactly when it has a point at the first period shown. */
  lemma PlottedKeysOfData(trends: Trends, category: Option<string>)
    requires !ShowsSample(trends, category)
    requires |ChartRows(trends, category)| > 0
    ensures var rel := Relevant(trends, category);
            var first := DisplayedPeriods(trends, category)[0];
            forall key :: key != "period" ==> (key in DataKeys(ChartRows(trends, category)) <==> exists t :: Contributes(Labelled(rel, category), t, first, key))
  {
    ChartRowsShown(trends, category);
    RowKeys(Labelled(Relevant(trends, category), category), DisplayedPeriods(trends, category)[0]);
  }

  /** The display names of `getCleanMetricName` (FinancialChart.tsx:92-106). */
  const NameMap: Dict<string, string> := [
    ("currentRatio", "Current Ratio"),
    ("quickRatio", "Quick Ratio"),
    ("cashRatio", "Cash Ratio"),
    ("roe", "ROE (%)"),
    ("roa", "ROA (%)"),
    ("npm", "Net Profit Margin (%)"),
    ("nim", "Net Interest Margin (%)"),
    ("gpm", "Gross Profit Margin (%)"),
    ("der", "Debt to Equity"),
    ("dar", "Debt to Assets"),
    ("assetTurnover", "Asset Turnover"),
    ("loanToDepositRatio", "Loan to Deposit Ratio"),
    ("equityMultiplier", "Equity Multiplier")
  ]

  /** `table[key] || key`: the entry's name, unless it is missing or empty. */
  function NameOr(table: Dict<string, string>, key: string): (r: string)
    ensures key !in Keys(table) ==> r == key
  {
    match Get(table, key)
    case Some(name) => if name != "" then name else key
    case None => key
  }

  /** With distinct keys, an entry's key gets that entry's name. */
  lemma NameOrEntry(table: Dict<string, string>, i: nat)
    requires DistinctKeys(table) && i < |table|
    ensures NameOr(table, table[i].0) == if table[i].1 != "" then table[i].1 else table[i].0
  {
    GetAt(table, i);
  }

  lemma NameMapShape()
    ensures |NameMap| == 13 && DistinctKeys(NameMap)
    ensures forall i :: 0 <= i < |NameMap| ==> NameMap[i].1 != "" && NameMap[i].1 != NameMap[i].0
  {
  }

  /** `getCleanMetricName`: a listed key gets its entry's display name, any other key is shown as it is. */
  function CleanMetricName(key: string): (r: string)
    ensures key !in Keys(NameMap) ==> r == key
    ensures key in Keys(NameMap) ==> r != key && exists i :: 0 <= i < |NameMap| && NameMap[i] == (key, r)
  {
    NameMapShape();
    NameOr(NameMap, key)
  }

  /** Every key of the table gets its display name; any other key is shown as it is. */
  lemma CleanMetricNames(key: string)
    ensures key !in Keys(NameMap) ==> CleanMetricName(key) == key
    ensures forall i :: 0 <= i < |NameMap| && NameMap[i].0 == key ==> CleanMetricName(key) == NameMap[i].1 != key
  {
    NameMapShape();
    forall i | 0 <= i < |NameMap| && NameMap[i].0 == key ensures CleanMetricName(key) == NameMap[i].1 {
      NameOrEntry(NameMap, i);
    }
  }

  // ---------------------------------------------------------------------------
  // What the card shows around the chart

  /** The line colours, cycled by plotted position (FinancialChart.tsx:81-88). */
  const Colors: seq<string> := [
    "hsl(var(--primary))",
    "hsl(var(--secondary))",
    "hsl(var(--accent))",
    "hsl(220, 70%, 50%)",
    "hsl(280, 70%, 50%)",
    "hsl(340, 70%, 50%)"
  ]

  datatype Line = Line(key: string, color: string)

  datatype ChartView = ChartView(caption: string, rows: seq<Row>, lines: seq<Line>, industryLine: bool, footer: Option<string>)

  const SampleCaption := "Trend analysis over the last " + "6 quarters (sample data)"

  /** The caption under the title, for a chart of `count` metrics: the sample caption exactly when the data is not real. */
  function Caption(isReal: bool, count: nat): (r: string)
    ensures r == SampleCaption <==> !isReal
  {
    if isReal then
      var text := "Historical trend analysis - " + NatToString(count) + " metrics tracked";
      assert text[0] == 'H';
      text
    else SampleCaption
  }

  const FooterText := " metrics from real financial data."

  /** The note under the chart: shown only for real data, with the top-4 remark exactly when more than four metrics exist. */
  function Footer(isReal: bool, count: nat): (r: Option<string>)
    ensures r.None? <==> !isReal
    ensures r.Some? ==> (count > 4 <==> |r.value| > |"Showing " + NatToString(count) + FooterText|)
  {
    if isReal then Some("Showing " + NatToString(count) + FooterText
                      + (if count > 4 then " (Displaying top 4 for clarity)" else ""))
    else None
  }

  /** `data && Object.keys(data).length > 0`. */
  predicate HasData(data: Option<Trends>) {
    data.Some? && |data.value| > 0
  }

  /** One solid line per plotted key, coloured by position (FinancialChart.tsx:155-169). */
  function Lines(keys: seq<string>): (r: seq<Line>)
    ensures |r| == |keys|
    ensures forall i :: 0 <= i < |keys| ==> r[i] == Line(keys[i], Colors[i % |Colors|])
  {
    seq(|keys|, i requires 0 <= i < |keys| => Line(keys[i], Colors[i % |Colors|]))
  }

  /** The card as the component renders it: caption and footer are chosen by `HasData`, whatever is plotted. */
  function ChartViewAsWritten(data: Option<Trends>, category: Option<string>): (r: ChartView)
    ensures r.rows == ChartFor(data, category)
    ensures r.caption == SampleCaption <==> !HasData(data)
    ensures r.footer.None? <==> !HasData(data)
    ensures r.industryLine <==> |DataKeys(r.rows)| > 0
  {
    var rows := ChartFor(data, category);
    var keys := DataKeys(rows);
    ChartView(Caption(HasData(data), |keys|), rows, Lines(PlottedKeys(rows)), |keys| > 0, Footer(HasData(data), |keys|))
  }

  /** The card with caption and footer chosen by whether real data is plotted. */
  function ChartCard(data: Option<Trends>, category: Option<string>): (r: ChartView)
    ensures r.rows == ChartFor(data, category)
    ensures r.caption == SampleCaption <==> ShowsSample(data.GetOr([]), category)
    ensures r.footer.None? <==> r.caption == SampleCaption
    ensures r.industryLine <==> |DataKeys(r.rows)| > 0
  {
    var rows := ChartFor(data, category);
    var keys := DataKeys(rows);
    var isReal := !ShowsSample(data.GetOr([]), category);
    ChartView(Caption(isReal, |keys|), rows, Lines(PlottedKeys(rows)), |keys| > 0, Footer(isReal, |keys|))
  }

  /** Real data, but none of it in the profitability category. */
  const LiquidityOnly: Trends := [("liquidity_currentRatio", [Point("2023", 1.5)])]

  /** With data whose keys all miss the category, the sample is plotted but captioned as real data. */
  lemma CaptionMislabelsSample()
    ensures ChartViewAsWritten(Some(LiquidityOnly), Some("profitability")).rows == MockData
    ensures ChartViewAsWritten(Some(LiquidityOnly), Some("profitability")).caption == "Historical trend analysis - " + "3" + " metrics tracked"
    ensures ChartViewAsWritten(Some(LiquidityOnly), Some("profitability")).footer == Some("Showing " + "3" + " metrics from real financial data.")
  {
    assert !StartsWith(LiquidityOnly[0].0, "profitability") by {
      assert LiquidityOnly[0].0[0] == 'l';
    }
    assert Relevant(LiquidityOnly, Some("profitability")) == [];
    SampleKeys();
    assert NatToString(3) == "3";
    var note := "Showing " + "3" + " metrics from real financial data.";
    assert note + "" == note;
  }

  /** The caption says "sample data", and the footer is absent, exactly when the sample is plotted. */
  lemma ChartCardHonest(data: Option<Trends>, category: Option<string>)
    ensures var view := ChartCard(data, category);
            var sample := ShowsSample(data.GetOr([]), category);
            && (view.caption == SampleCaption <==> sample)
            && (view.footer.None? <==> sample)
            && (sample ==> view.rows == MockData)
            && (!sample ==> view.rows == LastN(AllRows(Relevant(data.GetOr([]), category), category), 6))
  {
  }

  /** Every plotted line has its own colour, and the dashed industry line is drawn whenever a key is. */
  lemma ChartCardLines(data: Option<Trends>, category: Option<string>)
    ensures var view := ChartCard(data, category);
            && |view.lines| <= 4
            && (forall i :: 0 <= i < |view.lines| ==> view.lines[i].key == DataKeys(view.rows)[i])
            && (forall i, j :: 0 <= i < j < |view.lines| ==> view.lines[i].color != view.lines[j].color)
            && (view.industryLine <==> |view.lines| > 0)
  {
    var view := ChartCard(data, category);
    PlottedLines(view.rows, view.lines);
  }

  lemma PlottedLines(rows: seq<Row>, lines: seq<Line>)
    requires lines == Lines(PlottedKeys(rows))
    ensures |lines| <= 4 && (|lines| > 0 <==> |DataKeys(rows)| > 0)
    ensures forall i :: 0 <= i < |lines| ==> lines[i].key == DataKeys(rows)[i]
    ensures forall i, j :: 0 <= i < j < |lines| ==> lines[i].color != lines[j].color
  {
    LinesDistinct(PlottedKeys(rows));
  }

  /** Up to four lines get pairwise different colours. */
  lemma LinesDistinct(keys: seq<string>)
    requires |keys| <= 4
    ensures forall i, j :: 0 <= i < j < |keys| ==> Lines(keys)[i].color != Lines(keys)[j].color
  {
    ColorsDistinct();
    var lines := Lines(keys);
    forall i, j | 0 <= i < j < |keys| ensures lines[i].color != lines[j].color {
      assert i % |Colors| == i && j % |Colors| == j;
    }
  }

  /** The first four palette colours differ pairwise. */
  lemma ColorsDistinct()
    ensures forall i, j :: 0 <= i < j < 4 ==> Colors[i] != Colors[j]
  {
    assert Colors[0][4] == 'v' && Colors[1][4] == 'v' && Colors[2][4] == 'v' && Colors[3][4] == '2';
    assert Colors[0][10] == 'p' && Colors[1][10] == 's' && Colors[2][10] == 'a';
  }
}
