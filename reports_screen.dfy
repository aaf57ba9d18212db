/** The yearly report screen: the month buckets built from the daily
    summaries of a year, the table rows and the total row derived from
    them, and the year selector. */
module ReportsScreen {
  import opened Optional
  import opened Calendar
  import opened TransactionsService
  import opened PeriodSummaries
  import opened ReportTable

  /** The bucket key of a day: its month. */
  function MonthKey(s: DailySummary): int {
    s.date.month
  }

  /** One month's bucket of the reduce. */
  datatype Bucket = Bucket(month: int, card: real, cash: real, app: real, total: real, summary: real) {
    function Get(c: Column): real {
      match c
      case CardColumn => card
      case CashColumn => cash
      case AppColumn => app
      case TotalColumn => total
      case SummaryColumn => summary
    }

    /** The five `+=` of one day. */
    function Plus(s: DailySummary): (r: Bucket)
      ensures r.month == month
      ensures forall c: Column :: r.Get(c) == Get(c) + DayValue(s, c)
    {
      Bucket(month, card + s.incomeByMethod.card, cash + s.incomeByMethod.cash, app + s.incomeByMethod.app,
             total + s.totalIncome, summary + s.totalExpenses)
    }
  }

  /** A bucket as it is created the first time its month is seen. */
  function EmptyBucket(k: int): (b: Bucket)
    ensures b.month == k && forall c: Column :: b.Get(c) == 0.0
  {
    Bucket(k, 0.0, 0.0, 0.0, 0.0, 0.0)
  }

  /** The buckets after the reduce over `ds`. */
  function BucketsOf(ds: seq<DailySummary>): map<int, Bucket>
    decreases |ds|
  {
    if ds == [] then map[]
    else
      var acc := BucketsOf(ds[..|ds| - 1]);
      var s := ds[|ds| - 1];
      var k := MonthKey(s);
      var b := if k in acc then acc[k] else EmptyBucket(k);
      acc[k := b.Plus(s)]
  }

  /** The order in which the buckets were created (the order `Object.values`
      lists them in, since month keys are not integer-like). */
  function OrderOf(ds: seq<DailySummary>): seq<int>
    decreases |ds|
  {
    if ds == [] then []
    else
      var order := OrderOf(ds[..|ds| - 1]);
      var k := MonthKey(ds[|ds| - 1]);
      if k in order then order else order + [k]
  }

  /** `monthlyData`: each day's figures are added to its month's bucket,
      created at zero the first time that month is seen. */
  method MonthlyBuckets(ds: seq<DailySummary>) returns (buckets: map<int, Bucket>, order: seq<int>)
    ensures buckets == BucketsOf(ds) && order == OrderOf(ds)
  {
    buckets, order := map[], [];
    var i := 0;
    while i < |ds|
      invariant 0 <= i <= |ds|
      invariant buckets == BucketsOf(ds[..i]) && order == OrderOf(ds[..i])
    {
      var s := ds[i];
      var k := MonthKey(s);
      OrderMatchesBuckets(ds[..i]);
      if k !in buckets {
        buckets := buckets[k := EmptyBucket(k)];
        order := order + [k];
      }
      buckets := buckets[k := buckets[k].Plus(s)];
      assert ds[..i + 1][..i] == ds[..i];
      i := i + 1;
    }
    assert ds[..|ds|] == ds;
  }

  /** The months that occur among the days. */
  predicate HasMonth(ds: seq<DailySummary>, k: int) {
    exists i :: 0 <= i < |ds| && MonthKey(ds[i]) == k
  }

  predicate DistinctInts(s: seq<int>) {
    forall i, j :: 0 <= i < j < |s| ==> s[i] != s[j]
  }

  /** The creation order lists every month that occurs, once each, and
      nothing else; the buckets are keyed by exactly those months. */
  lemma {:induction false} OrderMatchesBuckets(ds: seq<DailySummary>)
    ensures DistinctInts(OrderOf(ds))
    ensures forall k :: k in OrderOf(ds) <==> HasMonth(ds, k)
    ensures forall k :: k in BucketsOf(ds) <==> k in OrderOf(ds)
    decreases |ds|
  {
    if ds != [] {
      var init := ds[..|ds| - 1];
      OrderMatchesBuckets(init);
      forall k ensures HasMonth(ds, k) <==> HasMonth(init, k) || k == MonthKey(ds[|ds| - 1]) {
        if HasMonth(init, k) {
          var i :| 0 <= i < |init| && MonthKey(init[i]) == k;
          assert ds[i] == init[i];
        }
        if HasMonth(ds, k) {
          var i :| 0 <= i < |ds| && MonthKey(ds[i]) == k;
          if i < |init| {
            assert init[i] == ds[i];
          }
        }
      }
    }
  }

  /** The sum of a column over the days of month `k`. */
  function MonthSum(ds: seq<DailySummary>, k: int, c: Column): real
    decreases |ds|
  {
    if ds == [] then 0.0
    else MonthSum(ds[..|ds| - 1], k, c) + (if MonthKey(ds[|ds| - 1]) == k then DayValue(ds[|ds| - 1], c) else 0.0)
  }

  /** Every bucket starts at zero for its own month and holds, in each column,
      the sum of that column over its month's days. */
  lemma {:induction false} BucketsSpec(ds: seq<DailySummary>)
    ensures forall k :: k in BucketsOf(ds) ==> BucketsOf(ds)[k].month == k
    ensures forall k, c: Column :: k in BucketsOf(ds) ==> BucketsOf(ds)[k].Get(c) == MonthSum(ds, k, c)
    decreases |ds|
  {
    if ds != [] {
      var init := ds[..|ds| - 1];
      BucketsSpec(init);
      var k := MonthKey(ds[|ds| - 1]);
      if k !in BucketsOf(init) {
        OrderMatchesBuckets(init);
        MonthSumAbsent(init, k);
      }
    }
  }

  /** A month without days has nothing in any column. */
  lemma {:induction false} MonthSumAbsent(ds: seq<DailySummary>, k: int)
    requires !HasMonth(ds, k)
    ensures forall c: Column :: MonthSum(ds, k, c) == 0.0
    decreases |ds|
  {
    if ds != [] {
      var init := ds[..|ds| - 1];
      forall i | 0 <= i < |init| ensures MonthKey(init[i]) != k {
        assert init[i] == ds[i];
      }
      MonthSumAbsent(init, k);
      assert MonthKey(ds[|ds| - 1]) != k;
    }
  }

  /** The sum over the given months of their month sums. */
  function OrderSum(keys: seq<int>, ds: seq<DailySummary>, c: Column): real
    decreases |keys|
  {
    if keys == [] then 0.0 else OrderSum(keys[..|keys| - 1], ds, c) + MonthSum(ds, keys[|keys| - 1], c)
  }

  /** Adding a day to the days adds its value once if its month is listed. */
  lemma {:induction false} OrderSumAddDay(keys: seq<int>, ds: seq<DailySummary>, c: Column)
    requires ds != [] && DistinctInts(keys)
    ensures OrderSum(keys, ds, c) ==
              OrderSum(keys, ds[..|ds| - 1], c) + (if MonthKey(ds[|ds| - 1]) in keys then DayValue(ds[|ds| - 1], c) else 0.0)
    decreases |keys|
  {
    if keys != [] {
      var init := keys[..|keys| - 1];
      assert DistinctInts(init);
      OrderSumAddDay(init, ds, c);
      assert keys == init + [keys[|keys| - 1]];
      assert MonthKey(ds[|ds| - 1]) in keys <==> MonthKey(ds[|ds| - 1]) in init || MonthKey(ds[|ds| - 1]) == keys[|keys| - 1];
      if MonthKey(ds[|ds| - 1]) == keys[|keys| - 1] {
        assert MonthKey(ds[|ds| - 1]) !in init;
      }
    }
  }

  /** Summed over all buckets, each column gives the whole period's figure:
      every day lands in exactly one bucket. */
  lemma {:induction false} BucketsPartition(ds: seq<DailySummary>, c: Column)
    ensures OrderSum(OrderOf(ds), ds, c) == DaySum(ds, MeasureOf(c))
    decreases |ds|
  {
    if ds != [] {
      var init := ds[..|ds| - 1];
      BucketsPartition(init, c);
      OrderMatchesBuckets(init);
      var order := OrderOf(init);
      var k := MonthKey(ds[|ds| - 1]);
      OrderSumAddDay(order, ds, c);
      if k !in order {
        NewMonthSum(ds, c);
      }
    }
  }

  /** A day of a month not seen before opens a bucket holding just that day. */
  lemma NewMonthSum(ds: seq<DailySummary>, c: Column)
    requires ds != [] && MonthKey(ds[|ds| - 1]) !in OrderOf(ds[..|ds| - 1])
    requires !HasMonth(ds[..|ds| - 1], MonthKey(ds[|ds| - 1]))
    ensures OrderSum(OrderOf(ds), ds, c) == OrderSum(OrderOf(ds[..|ds| - 1]), ds, c) + DayValue(ds[|ds| - 1], c)
  {
    var init, k := ds[..|ds| - 1], MonthKey(ds[|ds| - 1]);
    var order := OrderOf(init);
    var keys := order + [k];
    assert OrderOf(ds) == keys;
    assert keys[..|keys| - 1] == order;
    assert OrderSum(keys, ds, c) == OrderSum(order, ds, c) + MonthSum(ds, k, c);
    MonthSumAbsent(init, k);
    assert MonthSum(ds, k, c) == MonthSum(init, k, c) + DayValue(ds[|ds| - 1], c);
  }

  function RowOf(b: Bucket): TableRow {
    TableRow(MonthLabel(b.month), Figure(b.card), Figure(b.cash), Figure(b.app), Figure(b.total), Figure(b.summary))
  }

  /** One row per listed bucket, in that order. */
  function Rows(keys: seq<int>, buckets: map<int, Bucket>): (rows: seq<TableRow>)
    requires forall i :: 0 <= i < |keys| ==> keys[i] in buckets
    ensures |rows| == |keys|
    ensures forall i :: 0 <= i < |keys| ==> rows[i] == RowOf(buckets[keys[i]])
    decreases |keys|
  {
    if keys == [] then []
    else Rows(keys[..|keys| - 1], buckets) + [RowOf(buckets[keys[|keys| - 1]])]
  }

  /** `tableData`: no rows without a summary; otherwise one row per month
      bucket, in creation order, showing the month's sums. */
  function TableData(summary: Option<YearlySummary>): (rows: seq<TableRow>)
    ensures summary.None? ==> rows == []
    ensures summary.Some? ==>
              var ds := summary.value.dailySummaries;
              |rows| == |OrderOf(ds)|
              && forall i :: 0 <= i < |rows| ==>
                   rows[i].rowLabel == MonthLabel(OrderOf(ds)[i])
                   && forall c: Column :: rows[i].Get(c) == Figure(MonthSum(ds, OrderOf(ds)[i], c))
  {
    if summary.None? then []
    else
      var ds := summary.value.dailySummaries;
      RowsOfBuckets(ds);
      Rows(OrderOf(ds), BucketsOf(ds))
  }

  /** Every listed month has a bucket, and its row shows that month's sums. */
  lemma RowsOfBuckets(ds: seq<DailySummary>)
    ensures forall i :: 0 <= i < |OrderOf(ds)| ==> OrderOf(ds)[i] in BucketsOf(ds)
    ensures forall i :: 0 <= i < |OrderOf(ds)| ==>
              Rows(OrderOf(ds), BucketsOf(ds))[i].rowLabel == MonthLabel(OrderOf(ds)[i])
              && forall c: Column :: Rows(OrderOf(ds), BucketsOf(ds))[i].Get(c) == Figure(MonthSum(ds, OrderOf(ds)[i], c))
  {
    OrderMatchesBuckets(ds);
    BucketsSpec(ds);
    var order := OrderOf(ds);
    assert forall i :: 0 <= i < |order| ==> order[i] in order;
    forall i | 0 <= i < |order|
      ensures Rows(order, BucketsOf(ds))[i].rowLabel == MonthLabel(order[i])
      ensures forall c: Column :: Rows(order, BucketsOf(ds))[i].Get(c) == Figure(MonthSum(ds, order[i], c))
    {
      RowOfBucket(BucketsOf(ds)[order[i]]);
    }
  }

  /** The row of a bucket shows its month and its five sums. */
  lemma RowOfBucket(b: Bucket)
    ensures RowOf(b).rowLabel == MonthLabel(b.month)
    ensures forall c: Column :: RowOf(b).Get(c) == Figure(b.Get(c))
  {
  }

  lemma {:induction false} ColumnSumOfRows(rows: seq<TableRow>, keys: seq<int>, ds: seq<DailySummary>, c: Column)
    requires |rows| == |keys|
    requires forall i :: 0 <= i < |rows| ==> rows[i].Get(c) == Figure(MonthSum(ds, keys[i], c))
    ensures ColumnSum(rows, c) == OrderSum(keys, ds, c)
    decreases |rows|
  {
    if rows != [] {
      ColumnSumOfRows(rows[..|rows| - 1], keys[..|keys| - 1], ds, c);
    }
  }

  /** For a summary whose figures are the roll-up of its days (as
      `getYearlySummary` builds it), every cell of the total row is the sum
      of its column over the month rows. */
  lemma TotalRowIsColumnSum(s: YearlySummary)
    requires s.Figures() == RollUpOf(s.dailySummaries)
    ensures forall c: Column :: TotalRow(Some(s.Figures())).Get(c) == Figure(ColumnSum(TableData(Some(s)), c))
  {
    var ds := s.dailySummaries;
    forall c: Column ensures TotalRow(Some(s.Figures())).Get(c) == Figure(ColumnSum(TableData(Some(s)), c)) {
      ColumnSumOfRows(TableData(Some(s)), OrderOf(ds), ds, c);
      BucketsPartition(ds, c);
    }
  }

  /** For the ascending days of one year, the buckets come out in calendar
      month order. */
  lemma {:induction false} OrderAscending(ds: seq<DailySummary>, year: int)
    requires forall i :: 0 <= i < |ds| ==> ds[i].date.year == year
    requires forall i, j :: 0 <= i < j < |ds| ==> Before(ds[i].date, ds[j].date)
    ensures forall i, j :: 0 <= i < j < |OrderOf(ds)| ==> OrderOf(ds)[i] < OrderOf(ds)[j]
    decreases |ds|
  {
    if ds != [] {
      var init := ds[..|ds| - 1];
      assert forall i :: 0 <= i < |init| ==> init[i] == ds[i];
      OrderAscending(init, year);
      OrderMatchesBuckets(init);
      var order := OrderOf(init);
      var k := MonthKey(ds[|ds| - 1]);
      forall i | 0 <= i < |order| ensures order[i] <= k {
        assert HasMonth(init, order[i]);
        var j :| 0 <= j < |init| && MonthKey(init[j]) == order[i];
        assert Before(ds[j].date, ds[|ds| - 1].date);
      }
    }
  }

  /** The year selector and the loaded summary. */
  class ReportsScreenState {
    var selectedYear: int
    var yearlySummary: Option<YearlySummary>
    var toast: Option<string>

    constructor (currentYear: int)
      ensures selectedYear == currentYear && yearlySummary == None && toast == None
    {
      selectedYear := currentYear;
      yearlySummary := None;
      toast := None;
    }

    /** `changeYear`: the selected year moves by exactly `delta`. */
    method ChangeYear(delta: int)
      modifies this
      ensures selectedYear == old(selectedYear) + delta
      ensures yearlySummary == old(yearlySummary) && toast == old(toast)
    {
      selectedYear := selectedYear + delta;
    }

    /** `loadYearlySummary` given the outcome of the service call (`None`
        when it failed): the summary is kept, or cleared with an error toast. */
    method LoadYearlySummary(fetched: Option<YearlySummary>)
      modifies this
      ensures yearlySummary == fetched
      ensures toast == if fetched.None? then Some("No pudimos cargar el resumen anual.") else old(toast)
      ensures selectedYear == old(selectedYear)
    {
      yearlySummary := fetched;
      if fetched.None? {
        toast := Some("No pudimos cargar el resumen anual.");
      }
    }
  }
}
