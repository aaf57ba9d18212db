/** The rows the monthly and yearly report screens hand to their table: five
    numeric columns, cells that are either a literal text or a formatted
    figure, and the closing total row. */
module ReportTable {
  import opened Optional
  import opened Calendar
  import opened TransactionsService

  /** The five numeric columns (`card`, `cash`, `app`, `total`, `summary`). */
  datatype Column = CardColumn | CashColumn | AppColumn | TotalColumn | SummaryColumn

  /** The summary figure a column shows. */
  function MeasureOf(c: Column): Measure {
    match c
    case CardColumn => IncomeBy(Card)
    case CashColumn => IncomeBy(Cash)
    case AppColumn => IncomeBy(App)
    case TotalColumn => TotalIncome
    case SummaryColumn => TotalExpenses
  }

  /** What one day contributes to a column. */
  function DayValue(s: DailySummary, c: Column): real {
    s.Figures().Get(MeasureOf(c))
  }

  /** A table cell: a literal text, or a figure shown through `formatNumber`. */
  datatype Cell = Literal(text: string) | Figure(value: real)

  /** The number a cell shows: its figure, or 0 for the literal "0". */
  function CellValue(cell: Cell): real {
    match cell
    case Figure(x) => x
    case Literal(_) => 0.0
  }

  /** The first column: a month (shown by its locale name), a day (its date
      and day name), or the word "Total". */
  datatype RowLabel = MonthLabel(month: int) | DayLabel(date: Day, dayOfWeek: string) | TotalLabel

  datatype TableRow = TableRow(rowLabel: RowLabel, card: Cell, cash: Cell, app: Cell, total: Cell, summary: Cell) {
    function Get(c: Column): Cell {
      match c
      case CardColumn => card
      case CashColumn => cash
      case AppColumn => app
      case TotalColumn => total
      case SummaryColumn => summary
    }
  }

  /** `totalRow`: the period's own figures, or the text "0" in every cell
      while there is no summary. */
  function TotalRow(figures: Option<Totals>): (r: TableRow)
    ensures r.rowLabel == TotalLabel
    ensures figures.None? ==> forall c: Column :: r.Get(c) == Literal("0")
    ensures figures.Some? ==> forall c: Column :: r.Get(c) == Figure(figures.value.Get(MeasureOf(c)))
  {
    if figures.None? then TableRow(TotalLabel, Literal("0"), Literal("0"), Literal("0"), Literal("0"), Literal("0"))
    else
      var t := figures.value;
      TableRow(TotalLabel, Figure(t.incomeByMethod.card), Figure(t.incomeByMethod.cash), Figure(t.incomeByMethod.app),
               Figure(t.totalIncome), Figure(t.totalExpenses))
  }

  /** The sum of the numbers shown in a column. */
  function ColumnSum(rows: seq<TableRow>, c: Column): real
    decreases |rows|
  {
    if rows == [] then 0.0 else ColumnSum(rows[..|rows| - 1], c) + CellValue(rows[|rows| - 1].Get(c))
  }
}
