/** The period views of the transactions service: reading a user's rows,
    grouping them under their day keys, one zero-filled summary per calendar
    day of a month or a year, and the roll-up of those days into the
    period's totals. */
module PeriodSummaries {
  import opened Optional
  import opened Calendar
  import opened TransactionsService

  /** A day range, both ends included. */
  predicate InRange(d: Day, range: Option<(Day, Day)>) {
    range.None? || (NotAfter(range.value.0, d) && NotAfter(d, range.value.1))
  }

  /** `fetchTransactions`: the user's rows, within the range when one is
      given, mapped to transactions. */
  function FetchTransactions(table: seq<RawEntry>, userId: string, range: Option<(Day, Day)>): (r: seq<Transaction>)
    ensures |r| <= |table|
    ensures forall k :: 0 <= k < |r| ==> WellFormed(r[k]) && InRange(r[k].date, range)
    decreases |table|
  {
    if table == [] then []
    else
      var e := table[|table| - 1];
      FetchTransactions(table[..|table| - 1], userId, range)
      + (if e.userId == userId && InRange(e.entryDate, range) then [MapEntryToTransaction(e)] else [])
  }

  /** The fetch returns exactly the user's rows in the range: every result
      is such a row mapped, and every such row is fetched. */
  lemma {:induction false} FetchedRows(table: seq<RawEntry>, userId: string, range: Option<(Day, Day)>)
    ensures var r := FetchTransactions(table, userId, range);
            forall t :: t in r ==>
              exists e :: e in table && e.userId == userId && InRange(e.entryDate, range) && t == MapEntryToTransaction(e)
    ensures var r := FetchTransactions(table, userId, range);
            forall e :: e in table && e.userId == userId && InRange(e.entryDate, range) ==> MapEntryToTransaction(e) in r
    decreases |table|
  {
    if table != [] {
      var init, last := table[..|table| - 1], table[|table| - 1];
      FetchedRows(init, userId, range);
      assert table == init + [last];
      var before := FetchTransactions(init, userId, range);
      var tail := if last.userId == userId && InRange(last.entryDate, range) then [MapEntryToTransaction(last)] else [];
      var r := FetchTransactions(table, userId, range);
      assert r == before + tail;
      forall t | t in r
        ensures exists e :: e in table && e.userId == userId && InRange(e.entryDate, range) && t == MapEntryToTransaction(e)
      {
        if t in before {
          var e :| e in init && e.userId == userId && InRange(e.entryDate, range) && t == MapEntryToTransaction(e);
          assert e in table;
        } else {
          assert t in tail;
          assert last in table;
        }
      }
      forall e | e in table && e.userId == userId && InRange(e.entryDate, range)
        ensures MapEntryToTransaction(e) in r
      {
        if e in init {
          assert MapEntryToTransaction(e) in before;
        } else {
          assert e == last;
          assert MapEntryToTransaction(e) in tail;
        }
      }
    }
  }

  /** `deleteTransaction`: removes the user's row with that id and keeps every other row. */
  function DeleteTransaction(table: seq<RawEntry>, userId: string, id: string): (r: seq<RawEntry>)
    ensures forall e :: e in r <==> e in table && !(e.userId == userId && e.id == id)
    decreases |table|
  {
    if table == [] then []
    else
      var e := table[|table| - 1];
      DeleteTransaction(table[..|table| - 1], userId, id)
      + (if e.userId == userId && e.id == id then [] else [e])
  }

  /** The transactions of one day, in list order. */
  function OnDay(ts: seq<Transaction>, d: Day): (r: seq<Transaction>)
    ensures forall k :: 0 <= k < |r| ==> r[k].date == d
    decreases |ts|
  {
    if ts == [] then []
    else OnDay(ts[..|ts| - 1], d) + (if ts[|ts| - 1].date == d then [ts[|ts| - 1]] else [])
  }

  /** The transactions whose day is in `days`, in list order. */
  function Within(ts: seq<Transaction>, days: set<Day>): seq<Transaction>
    decreases |ts|
  {
    if ts == [] then []
    else Within(ts[..|ts| - 1], days) + (if ts[|ts| - 1].date in days then [ts[|ts| - 1]] else [])
  }

  function DatesOf(ts: seq<Transaction>): set<Day> {
    set k | 0 <= k < |ts| :: ts[k].date
  }

  /** The grouping loop: one key per day present, and under it that day's
      transactions in list order. */
  method GroupByDay(ts: seq<Transaction>) returns (grouped: map<Day, seq<Transaction>>)
    ensures grouped.Keys == DatesOf(ts)
    ensures forall d :: d in grouped ==> grouped[d] == OnDay(ts, d)
  {
    grouped := map[];
    var i := 0;
    while i < |ts|
      invariant 0 <= i <= |ts|
      invariant grouped.Keys == DatesOf(ts[..i])
      invariant forall d :: d in grouped ==> grouped[d] == OnDay(ts[..i], d)
    {
      var t := ts[i];
      if t.date !in grouped {
        OnDayAbsent(ts[..i], t.date);
        grouped := grouped[t.date := []];
      }
      grouped := grouped[t.date := grouped[t.date] + [t]];
      assert ts[..i + 1][..i] == ts[..i];
      assert DatesOf(ts[..i + 1]) == DatesOf(ts[..i]) + {t.date};
      i := i + 1;
    }
    assert ts[..|ts|] == ts;
  }

  /** A day with no transaction has an empty group. */
  lemma {:induction false} OnDayAbsent(ts: seq<Transaction>, d: Day)
    requires d !in DatesOf(ts)
    ensures OnDay(ts, d) == []
    decreases |ts|
  {
    if ts != [] {
      var init := ts[..|ts| - 1];
      assert DatesOf(init) <= DatesOf(ts);
      OnDayAbsent(init, d);
    }
  }

  /** Each transaction is in the group of its own day. */
  lemma {:induction false} OnOwnDay(ts: seq<Transaction>, k: int)
    requires 0 <= k < |ts|
    ensures ts[k] in OnDay(ts, ts[k].date)
    decreases |ts|
  {
    if k < |ts| - 1 {
      OnOwnDay(ts[..|ts| - 1], k);
    }
  }

  /** The group lookup `grouped.get(key) ?? []` yields the day's transactions
      for every day, present or not. */
  lemma GroupLookup(ts: seq<Transaction>, grouped: map<Day, seq<Transaction>>, d: Day)
    requires grouped.Keys == DatesOf(ts)
    requires forall e :: e in grouped ==> grouped[e] == OnDay(ts, e)
    ensures (if d in grouped then grouped[d] else []) == OnDay(ts, d)
  {
    if d !in grouped {
      OnDayAbsent(ts, d);
    }
  }

  /** `s` is the summary that `buildDailySummary(d, …)` gives for the
      transactions of day `d`. */
  predicate SummarizesDay(s: DailySummary, d: Day, ts: seq<Transaction>) {
    s.date == d && s.dayOfWeek == WeekdayName(d)
    && s.Figures() == TotalsOf(OnDay(ts, d))
    && s.netTotal == s.totalIncome - s.totalExpenses
    && multiset(s.transactions) == multiset(OnDay(ts, d))
    && DateDescending(s.transactions)
  }

  /** The `eachDayOfInterval(…).map(…)` step: one summary per day, in the
      order of the days, each built from that day's group (empty if none). */
  method SummarizeDays(days: seq<Day>, ts: seq<Transaction>, grouped: map<Day, seq<Transaction>>)
    returns (ds: seq<DailySummary>)
    requires grouped.Keys == DatesOf(ts)
    requires forall e :: e in grouped ==> grouped[e] == OnDay(ts, e)
    ensures |ds| == |days|
    ensures forall i :: 0 <= i < |days| ==> SummarizesDay(ds[i], days[i], ts)
  {
    ds := [];
    var i := 0;
    while i < |days|
      invariant 0 <= i <= |days|
      invariant |ds| == i
      invariant forall k :: 0 <= k < i ==> SummarizesDay(ds[k], days[k], ts)
    {
      var s := SummarizeDay(days[i], ts, grouped);
      SummarizedStep(ds, days, s, ts);
      ds := ds + [s];
      i := i + 1;
    }
  }

  lemma SummarizedStep(ds: seq<DailySummary>, days: seq<Day>, s: DailySummary, ts: seq<Transaction>)
    requires |ds| < |days|
    requires forall k :: 0 <= k < |ds| ==> SummarizesDay(ds[k], days[k], ts)
    requires SummarizesDay(s, days[|ds|], ts)
    ensures forall k :: 0 <= k < |ds| + 1 ==> SummarizesDay((ds + [s])[k], days[k], ts)
  {
    forall k | 0 <= k < |ds| + 1 ensures SummarizesDay((ds + [s])[k], days[k], ts) {
      if k < |ds| {
        assert (ds + [s])[k] == ds[k];
      } else {
        assert (ds + [s])[k] == s;
      }
    }
  }

  /** One step of the `map`: the summary of day `d`, built from its group. */
  method SummarizeDay(d: Day, ts: seq<Transaction>, grouped: map<Day, seq<Transaction>>)
    returns (s: DailySummary)
    requires grouped.Keys == DatesOf(ts)
    requires forall e :: e in grouped ==> grouped[e] == OnDay(ts, e)
    ensures SummarizesDay(s, d, ts)
  {
    var dayTransactions := if d in grouped then grouped[d] else [];
    GroupLookup(ts, grouped, d);
    s := BuildDailySummary(d, dayTransactions);
  }

  /** The sum of a figure over a list of day summaries, from the front. */
  function DaySum(ds: seq<DailySummary>, f: Measure): real
    decreases |ds|
  {
    if ds == [] then 0.0 else DaySum(ds[..|ds| - 1], f) + ds[|ds| - 1].Figures().Get(f)
  }

  /** Reference roll-up: every figure is the sum of the days' figures. */
  function RollUpOf(ds: seq<DailySummary>): (r: Totals)
    ensures forall f: Measure :: r.Get(f) == DaySum(ds, f)
  {
    Totals(DaySum(ds, TotalIncome), DaySum(ds, TotalExpenses),
           MethodTotals(DaySum(ds, IncomeBy(Card)), DaySum(ds, IncomeBy(Cash)), DaySum(ds, IncomeBy(App))),
           MethodTotals(DaySum(ds, ExpensesBy(Card)), DaySum(ds, ExpensesBy(Cash)), DaySum(ds, ExpensesBy(App))))
  }

  /** The reduce over the day summaries. */
  method RollUp(ds: seq<DailySummary>) returns (acc: Totals)
    ensures acc == RollUpOf(ds)
  {
    acc := ZeroTotals;
    var i := 0;
    while i < |ds|
      invariant 0 <= i <= |ds|
      invariant acc == RollUpOf(ds[..i])
    {
      var before := acc;
      acc := AddDay(acc, ds[i]);
      assert ds[..i + 1][..i] == ds[..i];
      RollUpStep(ds[..i + 1], before, acc);
      i := i + 1;
    }
    assert ds[..|ds|] == ds;
  }

  /** One step of the reduce: the two totals, then a pass over the three
      channels adding the day's per-channel figures. */
  method AddDay(acc: Totals, s: DailySummary) returns (r: Totals)
    ensures forall f: Measure :: r.Get(f) == acc.Get(f) + s.Figures().Get(f)
  {
    r := acc.(totalIncome := acc.totalIncome + s.totalIncome, totalExpenses := acc.totalExpenses + s.totalExpenses);
    var j := 0;
    while j < |IncomeMethods|
      invariant 0 <= j <= |IncomeMethods|
      invariant r.totalIncome == acc.totalIncome + s.totalIncome
      invariant r.totalExpenses == acc.totalExpenses + s.totalExpenses
      invariant forall n: IncomeMethod :: r.incomeByMethod.Get(n) ==
                  acc.incomeByMethod.Get(n) + (if n in IncomeMethods[..j] then s.incomeByMethod.Get(n) else 0.0)
      invariant forall n: IncomeMethod :: r.expensesByMethod.Get(n) ==
                  acc.expensesByMethod.Get(n) + (if n in IncomeMethods[..j] then s.expensesByMethod.Get(n) else 0.0)
    {
      var m := IncomeMethods[j];
      r := r.(incomeByMethod := r.incomeByMethod.Add(m, s.incomeByMethod.Get(m)),
              expensesByMethod := r.expensesByMethod.Add(m, s.expensesByMethod.Get(m)));
      assert IncomeMethods[..j + 1] == IncomeMethods[..j] + [m];
      j := j + 1;
    }
    assert IncomeMethods[..j] == IncomeMethods;
  }

  /** Adding the last day's figures to the roll-up of the others gives the
      roll-up of all. */
  lemma RollUpStep(ds: seq<DailySummary>, before: Totals, after: Totals)
    requires ds != [] && before == RollUpOf(ds[..|ds| - 1])
    requires forall f: Measure :: after.Get(f) == before.Get(f) + ds[|ds| - 1].Figures().Get(f)
    ensures after == RollUpOf(ds)
  {
    assert after.incomeByMethod.Get(Card) == after.incomeByMethod.card;
    assert after.incomeByMethod.Get(Cash) == after.incomeByMethod.cash;
    assert after.incomeByMethod.Get(App) == after.incomeByMethod.app;
    assert after.expensesByMethod.Get(Card) == after.expensesByMethod.card;
    assert after.expensesByMethod.Get(Cash) == after.expensesByMethod.cash;
    assert after.expensesByMethod.Get(App) == after.expensesByMethod.app;
    assert after.Get(TotalIncome) == after.totalIncome;
    assert after.Get(TotalExpenses) == after.totalExpenses;
    assert after.Get(IncomeBy(Card)) == after.incomeByMethod.card;
    assert after.Get(IncomeBy(Cash)) == after.incomeByMethod.cash;
    assert after.Get(IncomeBy(App)) == after.incomeByMethod.app;
    assert after.Get(ExpensesBy(Card)) == after.expensesByMethod.card;
    assert after.Get(ExpensesBy(Cash)) == after.expensesByMethod.cash;
    assert after.Get(ExpensesBy(App)) == after.expensesByMethod.app;
  }

  /** Adding a new day to a set of days adds exactly that day's transactions. */
  lemma {:induction false} WithinAddDay(ts: seq<Transaction>, days: set<Day>, d: Day, f: Measure)
    requires d !in days
    ensures SumOf(Within(ts, days + {d}), f) == SumOf(Within(ts, days), f) + SumOf(OnDay(ts, d), f)
    decreases |ts|
  {
    if ts != [] {
      var init, t := ts[..|ts| - 1], ts[|ts| - 1];
      WithinAddDay(init, days, d, f);
      var a, b, c := Within(init, days + {d}), Within(init, days), OnDay(init, d);
      var ta := if t.date in days + {d} then [t] else [];
      var tb := if t.date in days then [t] else [];
      var tc := if t.date == d then [t] else [];
      SumOfAppend(a, ta, f);
      SumOfAppend(b, tb, f);
      SumOfAppend(c, tc, f);
      SingletonSum(ta, f);
      SingletonSum(tb, f);
      SingletonSum(tc, f);
    }
  }

  lemma SingletonSum(s: seq<Transaction>, f: Measure)
    requires |s| <= 1
    ensures SumOf(s, f) == if s == [] then 0.0 else Weight(s[0], f)
  {
    if s != [] {
      assert s[..0] == [];
    }
  }

  predicate Distinct(days: seq<Day>) {
    forall i, j :: 0 <= i < j < |days| ==> days[i] != days[j]
  }

  function SetOf(days: seq<Day>): set<Day> {
    set k | 0 <= k < |days| :: days[k]
  }

  /** Summing the figures of one summary per distinct day gives the figures
      of every transaction on those days: no transaction is lost or
      counted twice. */
  lemma DaySumPartition(ds: seq<DailySummary>, days: seq<Day>, ts: seq<Transaction>, f: Measure)
    requires |ds| == |days| && Distinct(days)
    requires forall i :: 0 <= i < |days| ==> SummarizesDay(ds[i], days[i], ts)
    ensures DaySum(ds, f) == SumOf(Within(ts, SetOf(days)), f)
  {
    FigureSumPartition(ds, days, ts, f);
  }

  /** The same, from the one figure of each summary. */
  lemma {:induction false} FigureSumPartition(ds: seq<DailySummary>, days: seq<Day>, ts: seq<Transaction>, f: Measure)
    requires |ds| == |days| && Distinct(days)
    requires forall i :: 0 <= i < |days| ==> ds[i].Figures().Get(f) == SumOf(OnDay(ts, days[i]), f)
    ensures DaySum(ds, f) == SumOf(Within(ts, SetOf(days)), f)
    decreases |ds|
  {
    if ds == [] {
      assert SetOf(days) == {};
      WithinNone(ts);
    } else {
      var n := |ds| - 1;
      var ds', days' := ds[..n], days[..n];
      assert forall i :: 0 <= i < n ==> ds'[i] == ds[i] && days'[i] == days[i];
      FigureSumPartition(ds', days', ts, f);
      SetOfSnoc(days);
      WithinAddDay(ts, SetOf(days'), days[n], f);
    }
  }

  /** The days of a list are those of its prefix and its last day, which is
      new when the list has no repeats. */
  lemma SetOfSnoc(days: seq<Day>)
    requires days != [] && Distinct(days)
    ensures SetOf(days) == SetOf(days[..|days| - 1]) + {days[|days| - 1]}
    ensures days[|days| - 1] !in SetOf(days[..|days| - 1])
  {
    var n := |days| - 1;
    forall d | d in SetOf(days) ensures d in SetOf(days[..n]) + {days[n]} {
      var k :| 0 <= k < |days| && days[k] == d;
      if k < n {
        assert days[..n][k] == d;
      }
    }
  }

  lemma {:induction false} WithinNone(ts: seq<Transaction>)
    ensures Within(ts, {}) == []
    decreases |ts|
  {
    if ts != [] {
      WithinNone(ts[..|ts| - 1]);
    }
  }

  /** Selecting every day that occurs selects the whole list. */
  lemma {:induction false} WithinAll(ts: seq<Transaction>, days: set<Day>)
    requires forall k :: 0 <= k < |ts| ==> ts[k].date in days
    ensures Within(ts, days) == ts
    decreases |ts|
  {
    if ts != [] {
      WithinAll(ts[..|ts| - 1], days);
    }
  }

  /** The roll-up of the period's day summaries equals the totals of the
      period's transactions taken directly. */
  lemma RollUpMatchesTotals(ds: seq<DailySummary>, days: seq<Day>, ts: seq<Transaction>)
    requires |ds| == |days| && Distinct(days)
    requires forall i :: 0 <= i < |days| ==> SummarizesDay(ds[i], days[i], ts)
    ensures RollUpOf(ds) == TotalsOf(Within(ts, SetOf(days)))
  {
    forall f: Measure ensures DaySum(ds, f) == SumOf(Within(ts, SetOf(days)), f) {
      DaySumPartition(ds, days, ts, f);
    }
  }

  /** A strictly ascending list of days has no repeats. */
  lemma AscendingDistinct(days: seq<Day>)
    requires StrictlyAscending(days)
    ensures Distinct(days)
  {
  }

  datatype MonthlySummary = MonthlySummary(month: int, year: int, totalIncome: real, totalExpenses: real,
                                           netTotal: real, incomeByMethod: MethodTotals,
                                           expensesByMethod: MethodTotals, dailySummaries: seq<DailySummary>) {
    function Figures(): Totals {
      Totals(totalIncome, totalExpenses, incomeByMethod, expensesByMethod)
    }
  }

  datatype YearlySummary = YearlySummary(year: int, totalIncome: real, totalExpenses: real, netTotal: real,
                                         incomeByMethod: MethodTotals, expensesByMethod: MethodTotals,
                                         dailySummaries: seq<DailySummary>) {
    function Figures(): Totals {
      Totals(totalIncome, totalExpenses, incomeByMethod, expensesByMethod)
    }
  }

  /** The first and last day of the month that `new Date(year, month - 1, 1)` falls in. */
  function MonthRange(year: int, month: int): (Day, Day) {
    var ym := MonthOf(year, month);
    (Day(ym.0, ym.1, 1), Day(ym.0, ym.1, DaysInMonth(ym.0, ym.1)))
  }

  /** A valid day lies in a month's range exactly when it is a day of that month. */
  lemma MonthRangeDays(year: int, month: int, d: Day)
    requires d.Valid()
    ensures InRange(d, Some(MonthRange(year, month))) <==> d in DaysOfMonth(MonthOf(year, month).0, MonthOf(year, month).1)
  {
    MonthDays(MonthOf(year, month).0, MonthOf(year, month).1);
  }

  /** The first and last day of the year `new Date(year, 0, 1)` falls in. */
  function YearRange(year: int): (Day, Day) {
    (Day(JsFullYear(year), 1, 1), Day(JsFullYear(year), 12, 31))
  }

  lemma YearRangeDays(year: int, d: Day)
    requires d.Valid()
    ensures InRange(d, Some(YearRange(year))) <==> d in DaysOfYear(JsFullYear(year))
  {
    YearDays(JsFullYear(year));
  }

  /** The stored days are real calendar days (the column has a date type). */
  predicate ValidDates(table: seq<RawEntry>) {
    forall k :: 0 <= k < |table| ==> table[k].entryDate.Valid()
  }

  lemma {:induction false} FetchedDaysValid(table: seq<RawEntry>, userId: string, range: Option<(Day, Day)>)
    requires ValidDates(table)
    ensures forall k :: 0 <= k < |FetchTransactions(table, userId, range)| ==>
              FetchTransactions(table, userId, range)[k].date.Valid()
    decreases |table|
  {
    if table != [] {
      FetchedDaysValid(table[..|table| - 1], userId, range);
    }
  }

  /** Grouping, zero-filled day summaries and roll-up over a list of days. */
  method SummarizePeriod(days: seq<Day>, ts: seq<Transaction>) returns (ds: seq<DailySummary>, totals: Totals)
    requires StrictlyAscending(days)
    ensures |ds| == |days|
    ensures forall i :: 0 <= i < |days| ==> SummarizesDay(ds[i], days[i], ts)
    ensures totals == RollUpOf(ds)
    ensures totals == TotalsOf(Within(ts, SetOf(days)))
  {
    var grouped := GroupByDay(ts);
    ds := SummarizeDays(days, ts, grouped);
    totals := RollUp(ds);
    AscendingDistinct(days);
    RollUpMatchesTotals(ds, days, ts);
  }

  /** `getMonthlySummary`: the raw month and year echoed back, one summary per
      day of the month in ascending order, and totals that are both the sum of
      the days and the totals of all the month's transactions. */
  method GetMonthlySummary(table: seq<RawEntry>, userId: string, year: int, month: int)
    returns (s: MonthlySummary)
    ensures s.month == month && s.year == year
    ensures var ym := MonthOf(year, month);
            var ts := FetchTransactions(table, userId, Some(MonthRange(year, month)));
            |s.dailySummaries| == DaysInMonth(ym.0, ym.1)
            && (forall i :: 0 <= i < |s.dailySummaries| ==>
                  SummarizesDay(s.dailySummaries[i], DaysOfMonth(ym.0, ym.1)[i], ts))
            && s.Figures() == RollUpOf(s.dailySummaries)
            && (ValidDates(table) ==> s.Figures() == TotalsOf(ts))
    ensures s.netTotal == s.totalIncome - s.totalExpenses
  {
    var ym := MonthOf(year, month);
    var days := DaysOfMonth(ym.0, ym.1);
    MonthDays(ym.0, ym.1);
    var ts := FetchTransactions(table, userId, Some(MonthRange(year, month)));
    var ds, totals := SummarizePeriod(days, ts);
    if ValidDates(table) {
      FetchedDaysValid(table, userId, Some(MonthRange(year, month)));
      forall k | 0 <= k < |ts| ensures ts[k].date in SetOf(days) {
        MonthRangeDays(year, month, ts[k].date);
      }
      WithinAll(ts, SetOf(days));
    }
    s := MonthlySummary(month, year, totals.totalIncome, totals.totalExpenses,
                        totals.totalIncome - totals.totalExpenses, totals.incomeByMethod,
                        totals.expensesByMethod, ds);
  }

  /** `getYearlySummary`: one summary per day of the year in ascending order
      (365 or 366 of them), and totals that are both the sum of the days and
      the totals of all the year's transactions. */
  method GetYearlySummary(table: seq<RawEntry>, userId: string, year: int) returns (s: YearlySummary)
    ensures s.year == year
    ensures var ts := FetchTransactions(table, userId, Some(YearRange(year)));
            |s.dailySummaries| == |DaysOfYear(JsFullYear(year))|
            && (forall i :: 0 <= i < |s.dailySummaries| ==>
                  SummarizesDay(s.dailySummaries[i], DaysOfYear(JsFullYear(year))[i], ts))
            && s.Figures() == RollUpOf(s.dailySummaries)
            && (ValidDates(table) ==> s.Figures() == TotalsOf(ts))
    ensures s.netTotal == s.totalIncome - s.totalExpenses
  {
    var days := DaysOfYear(JsFullYear(year));
    YearDays(JsFullYear(year));
    var ts := FetchTransactions(table, userId, Some(YearRange(year)));
    var ds, totals := SummarizePeriod(days, ts);
    if ValidDates(table) {
      FetchedDaysValid(table, userId, Some(YearRange(year)));
      forall k | 0 <= k < |ts| ensures ts[k].date in SetOf(days) {
        YearRangeDays(year, ts[k].date);
      }
      WithinAll(ts, SetOf(days));
    }
    s := YearlySummary(year, totals.totalIncome, totals.totalExpenses,
                       totals.totalIncome - totals.totalExpenses, totals.incomeByMethod,
                       totals.expensesByMethod, ds);
  }

  /** `getDailySummary`: the summary of the user's rows of that one day. */
  method GetDailySummary(table: seq<RawEntry>, userId: string, date: Day) returns (s: DailySummary)
    ensures var ts := FetchTransactions(table, userId, Some((date, date)));
            s.date == date && s.Figures() == TotalsOf(ts) && multiset(s.transactions) == multiset(ts)
            && DateDescending(s.transactions)
    ensures s.netTotal == s.totalIncome - s.totalExpenses
  {
    s := BuildDailySummary(date, FetchTransactions(table, userId, Some((date, date))));
  }
}
