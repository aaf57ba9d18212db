/** The monthly summary screen: the month selector with its roll-over, the
    days with activity, and the table rows derived from a monthly summary. */
module MonthlySummaryScreen {
  import opened Optional
  import opened Calendar
  import opened TransactionsService
  import opened PeriodSummaries
  import opened ReportTable

  /** The (year, month) that `changeMonth(delta)` selects: past December it
      goes to January of the next year, before January to December of the
      previous year. For a step of one month it is the neighbouring calendar
      month, the one `new Date(year, month - 1 + delta, 1)` denotes. */
  function MonthStep(year: int, month: int, delta: int): (r: (int, int))
    ensures 1 <= month + delta <= 12 ==> r == (year, month + delta)
    ensures month + delta > 12 ==> r == (year + 1, 1)
    ensures month + delta < 1 ==> r == (year - 1, 12)
    ensures 1 <= month <= 12 && (delta == 1 || delta == -1) ==>
              1 <= r.1 <= 12 && r.0 * 12 + r.1 == year * 12 + month + delta
  {
    if month + delta > 12 then (year + 1, 1)
    else if month + delta < 1 then (year - 1, 12)
    else (year, month + delta)
  }

  /** A one-month step selects the month `getMonthlySummary` would denote for
      the unnormalised month number (years from 100 on, or negative). */
  lemma MonthStepIsMonthOf(year: int, month: int, delta: int)
    requires year < 0 || year >= 100
    requires 1 <= month <= 12 && (delta == 1 || delta == -1)
    ensures MonthStep(year, month, delta) == MonthOf(year, month + delta)
  {
    var r := MonthStep(year, month, delta);
    var q := MonthOf(year, month + delta);
    assert r.0 * 12 + r.1 == q.0 * 12 + q.1;
  }

  /** A day counts as active when it has income or expenses. */
  predicate Active(s: DailySummary) {
    s.totalIncome > 0.0 || s.totalExpenses > 0.0
  }

  /** The active days, in their original order. */
  function ActiveDays(ds: seq<DailySummary>): (r: seq<DailySummary>)
    ensures |r| <= |ds|
    ensures forall i :: 0 <= i < |r| ==> Active(r[i])
    ensures forall s :: s in r <==> s in ds && Active(s)
    decreases |ds|
  {
    if ds == [] then []
    else ActiveDays(ds[..|ds| - 1]) + (if Active(ds[|ds| - 1]) then [ds[|ds| - 1]] else [])
  }

  /** Filtering keeps the order: the active days of a concatenation are the
      active days of the first part followed by those of the second. */
  lemma {:induction false} ActiveDaysAppend(a: seq<DailySummary>, b: seq<DailySummary>)
    ensures ActiveDays(a + b) == ActiveDays(a) + ActiveDays(b)
    decreases |b|
  {
    if b != [] {
      var b' := b[..|b| - 1];
      assert (a + b)[..|a + b| - 1] == a + b';
      ActiveDaysAppend(a, b');
    } else {
      assert a + b == a;
    }
  }

  /** `daysWithActivity`: no days without a summary. */
  function DaysWithActivity(summary: Option<MonthlySummary>): (r: seq<DailySummary>)
    ensures summary.None? ==> r == []
    ensures summary.Some? ==> r == ActiveDays(summary.value.dailySummaries)
  {
    if summary.None? then [] else ActiveDays(summary.value.dailySummaries)
  }

  /** A per-channel or expense figure is shown only when positive, "0"
      otherwise; the income total is always shown. */
  function ShownIfPositive(x: real): (cell: Cell)
    ensures x > 0.0 ==> cell == Figure(x)
    ensures x <= 0.0 ==> cell == Literal("0")
  {
    if x > 0.0 then Figure(x) else Literal("0")
  }

  /** One table row of a day. */
  function DayRow(s: DailySummary): (row: TableRow)
    ensures row.rowLabel == DayLabel(s.date, s.dayOfWeek)
    ensures forall c: Column :: c != TotalColumn ==> row.Get(c) == ShownIfPositive(DayValue(s, c))
    ensures row.Get(TotalColumn) == Figure(s.totalIncome)
  {
    TableRow(DayLabel(s.date, s.dayOfWeek), ShownIfPositive(s.incomeByMethod.card), ShownIfPositive(s.incomeByMethod.cash),
             ShownIfPositive(s.incomeByMethod.app), Figure(s.totalIncome), ShownIfPositive(s.totalExpenses))
  }

  function DayRows(ds: seq<DailySummary>): (rows: seq<TableRow>)
    ensures |rows| == |ds|
    ensures forall i :: 0 <= i < |ds| ==> rows[i] == DayRow(ds[i])
    decreases |ds|
  {
    if ds == [] then [] else DayRows(ds[..|ds| - 1]) + [DayRow(ds[|ds| - 1])]
  }

  /** `tableData`: one row per day with activity, in day order. */
  function TableData(summary: Option<MonthlySummary>): (rows: seq<TableRow>)
    ensures |rows| == |DaysWithActivity(summary)|
    ensures forall i :: 0 <= i < |rows| ==> rows[i] == DayRow(DaysWithActivity(summary)[i])
  {
    DayRows(DaysWithActivity(summary))
  }

  /** `totalRow` of the screen. */
  function MonthTotalRow(summary: Option<MonthlySummary>): (r: TableRow)
    ensures summary.None? ==> forall c: Column :: r.Get(c) == Literal("0")
    ensures summary.Some? ==> forall c: Column :: r.Get(c) == Figure(summary.value.Figures().Get(MeasureOf(c)))
  {
    TotalRow(if summary.None? then None else Some(summary.value.Figures()))
  }

  /** A day's figures as the service builds them from well-formed
      transactions: nothing negative, no channel above the income total, no
      expense by channel. */
  predicate SoundDay(s: DailySummary) {
    s.totalIncome >= 0.0 && s.totalExpenses >= 0.0
    && (forall m: IncomeMethod :: 0.0 <= s.incomeByMethod.Get(m) <= s.totalIncome)
    && (forall m: IncomeMethod :: s.expensesByMethod.Get(m) == 0.0)
  }

  /** Every day summary built from well-formed transactions is sound. */
  lemma SummarizedDaySound(s: DailySummary, d: Day, ts: seq<Transaction>)
    requires forall k :: 0 <= k < |ts| ==> WellFormed(ts[k])
    requires SummarizesDay(s, d, ts)
    ensures SoundDay(s)
  {
    var day := OnDay(ts, d);
    OnDayWellFormed(ts, d);
    MethodTotalsWithinIncome(day);
    forall m: IncomeMethod ensures 0.0 <= s.incomeByMethod.Get(m) && s.expensesByMethod.Get(m) == 0.0 {
      SumOfNonNegative(day, IncomeBy(m));
      NoExpensesByMethod(day, m);
    }
    SumOfNonNegative(day, TotalIncome);
    SumOfNonNegative(day, TotalExpenses);
    SumOfNonNegative(day, IncomeBy(Card));
    SumOfNonNegative(day, IncomeBy(Cash));
    SumOfNonNegative(day, IncomeBy(App));
  }

  lemma {:induction false} OnDayWellFormed(ts: seq<Transaction>, d: Day)
    requires forall k :: 0 <= k < |ts| ==> WellFormed(ts[k])
    ensures forall k :: 0 <= k < |OnDay(ts, d)| ==> WellFormed(OnDay(ts, d)[k]) && OnDay(ts, d)[k].amount >= 0.0
    decreases |ts|
  {
    if ts != [] {
      OnDayWellFormed(ts[..|ts| - 1], d);
    }
  }

  /** On a sound day the cell shows the day's value in every column, and an
      inactive day has nothing in any column. */
  lemma SoundDayRow(s: DailySummary, c: Column)
    requires SoundDay(s)
    ensures CellValue(DayRow(s).Get(c)) == DayValue(s, c)
    ensures !Active(s) ==> DayValue(s, c) == 0.0
  {
    assert s.incomeByMethod.Get(Card) == s.incomeByMethod.card;
    assert s.incomeByMethod.Get(Cash) == s.incomeByMethod.cash;
    assert s.incomeByMethod.Get(App) == s.incomeByMethod.app;
  }

  /** Dropping the inactive days loses nothing from any column. */
  lemma {:induction false} ActiveRowsSum(ds: seq<DailySummary>, c: Column)
    requires forall i :: 0 <= i < |ds| ==> SoundDay(ds[i])
    ensures ColumnSum(DayRows(ActiveDays(ds)), c) == DaySum(ds, MeasureOf(c))
    decreases |ds|
  {
    if ds != [] {
      var init, s := ds[..|ds| - 1], ds[|ds| - 1];
      forall i | 0 <= i < |init| ensures SoundDay(init[i]) {
        assert init[i] == ds[i];
      }
      ActiveRowsSum(init, c);
      SoundDayRow(s, c);
      var kept := ActiveDays(init);
      assert DaySum(ds, MeasureOf(c)) == DaySum(init, MeasureOf(c)) + DayValue(s, c);
      if Active(s) {
        assert ActiveDays(ds) == kept + [s];
        DayRowsSnoc(kept, s);
        ColumnSumSnoc(DayRows(kept), DayRow(s), c);
      } else {
        assert ActiveDays(ds) == kept + [];
        assert kept + [] == kept;
      }
    }
  }

  lemma DayRowsSnoc(ds: seq<DailySummary>, s: DailySummary)
    ensures DayRows(ds + [s]) == DayRows(ds) + [DayRow(s)]
  {
    assert (ds + [s])[..|ds|] == ds;
  }

  lemma ColumnSumSnoc(rows: seq<TableRow>, row: TableRow, c: Column)
    ensures ColumnSum(rows + [row], c) == ColumnSum(rows, c) + CellValue(row.Get(c))
  {
    assert (rows + [row])[..|rows|] == rows;
  }

  /** With sound days whose roll-up is the month's figures (as
      `getMonthlySummary` builds it), the total row is the column sum of the
      rows of the active days: hiding the empty days hides no money. */
  lemma TotalRowIsColumnSum(s: MonthlySummary)
    requires s.Figures() == RollUpOf(s.dailySummaries)
    requires forall i :: 0 <= i < |s.dailySummaries| ==> SoundDay(s.dailySummaries[i])
    ensures forall c: Column :: MonthTotalRow(Some(s)).Get(c) == Figure(ColumnSum(TableData(Some(s)), c))
  {
    forall c: Column ensures MonthTotalRow(Some(s)).Get(c) == Figure(ColumnSum(TableData(Some(s)), c)) {
      ActiveRowsSum(s.dailySummaries, c);
    }
  }

  /** The selected month and the loaded summary. */
  class MonthlySummaryState {
    var selectedYear: int
    var selectedMonth: int
    var showMonthPicker: bool
    var summary: Option<MonthlySummary>
    var toast: Option<string>

    constructor (currentYear: int, currentMonth: int)
      ensures selectedYear == currentYear && selectedMonth == currentMonth
      ensures !showMonthPicker && summary == None && toast == None
    {
      selectedYear, selectedMonth := currentYear, currentMonth;
      showMonthPicker := false;
      summary, toast := None, None;
    }

    /** `changeMonth`: the month moves by `delta`, rolling over the year at
        either end. */
    method ChangeMonth(delta: int)
      modifies this
      ensures (selectedYear, selectedMonth) == MonthStep(old(selectedYear), old(selectedMonth), delta)
      ensures showMonthPicker == old(showMonthPicker) && summary == old(summary) && toast == old(toast)
    {
      var month := selectedMonth + delta;
      var year := selectedYear;
      if month > 12 {
        month := 1;
        year := year + 1;
      } else if month < 1 {
        month := 12;
        year := year - 1;
      }
      selectedMonth := month;
      selectedYear := year;
    }

    /** `selectMonthAndYear`: a pick from the month grid, which then closes. */
    method SelectMonthAndYear(month: int, year: int)
      modifies this
      ensures selectedMonth == month && selectedYear == year && !showMonthPicker
      ensures summary == old(summary) && toast == old(toast)
    {
      selectedMonth := month;
      selectedYear := year;
      showMonthPicker := false;
    }

    /** `loadSummary` given the outcome of the service call (`None` when it
        failed): the summary is kept, or cleared with an error toast. */
    method LoadSummary(fetched: Option<MonthlySummary>)
      modifies this
      ensures summary == fetched
      ensures toast == if fetched.None? then Some("No pudimos cargar el resumen mensual.") else old(toast)
      ensures selectedYear == old(selectedYear) && selectedMonth == old(selectedMonth)
      ensures showMonthPicker == old(showMonthPicker)
    {
      summary := fetched;
      if fetched.None? {
        toast := Some("No pudimos cargar el resumen mensual.");
      }
    }
  }
}
