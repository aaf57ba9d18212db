/** The transactions service: how stored ledger rows become typed
    transactions, how a list of transactions is totalled, how one day's
    summary is built, and which rows the save form produces. */
module TransactionsService {
  import opened Optional
  import opened Calendar

  /** The income channels, in the order the service lists them (`card`, `cash`, `app`). */
  datatype IncomeMethod = Card | Cash | App

  const IncomeMethods: seq<IncomeMethod> := [Card, Cash, App]

  /** The category text under which a channel is stored. */
  function MethodName(m: IncomeMethod): string {
    match m
    case Card => "card"
    case Cash => "cash"
    case App => "app"
  }

  /** Membership of a category text in the channel set, and the channel it names. */
  function MethodNamed(name: string): (r: Option<IncomeMethod>)
    ensures r.Some? ==> MethodName(r.value) == name
    ensures forall m: IncomeMethod :: MethodName(m) == name ==> r == Some(m)
  {
    if name == "card" then Some(Card)
    else if name == "cash" then Some(Cash)
    else if name == "app" then Some(App)
    else None
  }

  datatype TransactionType = Income | Expense

  /** A stored ledger row. `amount` is `None` when the stored value does not
      convert to a number (JavaScript's `Number` gives `NaN`). */
  datatype RawEntry = RawEntry(id: string, userId: string, entryDate: Day, amount: Option<real>,
                               category: Option<string>, note: Option<string>)

  /** The typed view of a row that the screens and summaries work with. */
  datatype Transaction = Transaction(id: string, txType: TransactionType, amount: real,
                                     incomeMethod: Option<IncomeMethod>, category: Option<string>,
                                     date: Day, note: Option<string>)

  /** A transaction as the service produces it: a non-negative magnitude, and
      a channel only on income. */
  predicate WellFormed(t: Transaction) {
    t.amount >= 0.0 && (t.incomeMethod.Some? ==> t.txType == Income)
  }

  /** The signed amount a transaction stands for: income positive, expense negative. */
  function SignedAmount(t: Transaction): real {
    if t.txType == Income then t.amount else -t.amount
  }

  /** `ensurePositive`: a present, strictly positive amount is kept; anything
      else (missing, zero, negative, not a number) becomes 0. */
  function EnsurePositive(value: Option<real>): (r: real)
    ensures r >= 0.0
    ensures r > 0.0 <==> value.Some? && value.value > 0.0
    ensures r > 0.0 ==> r == value.value
  {
    if value.Some? && value.value > 0.0 then value.value else 0.0
  }

  /** `inferMethod`: only income has a channel, and only when its category is
      one of the channel names; an empty category counts as absent. */
  function InferMethod(category: Option<string>, t: TransactionType): (r: Option<IncomeMethod>)
    ensures r.Some? <==> t == Income && category.Some? && MethodNamed(category.value).Some?
    ensures r.Some? ==> MethodName(r.value) == category.value
  {
    if t != Income || category.None? || category.value == "" then None
    else MethodNamed(category.value)
  }

  /** `Number(entry.amount) || 0`: a value that is not a number reads as 0. */
  function AmountNumber(e: RawEntry): real {
    e.amount.GetOr(0.0)
  }

  /** `mapEntryToTransaction`: the sign of the stored amount decides the type
      (zero is income), the magnitude becomes the amount, income gets a
      channel from its category, and expense keeps its category (or
      `general`). */
  function MapEntryToTransaction(e: RawEntry): (t: Transaction)
    ensures WellFormed(t)
    ensures t.id == e.id && t.date == e.entryDate && t.note == e.note
    ensures t.txType == Income <==> AmountNumber(e) >= 0.0
    ensures SignedAmount(t) == AmountNumber(e)
    ensures t.incomeMethod.Some? ==> e.category == Some(MethodName(t.incomeMethod.value))
    ensures t.txType == Income && e.category.Some? && MethodNamed(e.category.value).Some? ==> t.incomeMethod.Some?
    ensures t.category.Some? <==> t.txType == Expense
    ensures t.txType == Expense ==> t.category == Some(e.category.GetOr("general"))
  {
    var n := AmountNumber(e);
    var ty := if n >= 0.0 then Income else Expense;
    Transaction(e.id, ty, if n >= 0.0 then n else -n, InferMethod(e.category, ty),
                if ty == Expense then Some(e.category.GetOr("general")) else None,
                e.entryDate, e.note)
  }

  /** Per-channel amounts (`Record<IncomeMethod, number>`). */
  datatype MethodTotals = MethodTotals(card: real, cash: real, app: real) {
    function Get(m: IncomeMethod): real {
      match m
      case Card => card
      case Cash => cash
      case App => app
    }

    function Add(m: IncomeMethod, x: real): (r: MethodTotals)
      ensures r.Get(m) == Get(m) + x
      ensures forall n: IncomeMethod :: n != m ==> r.Get(n) == Get(n)
    {
      match m
      case Card => this.(card := card + x)
      case Cash => this.(cash := cash + x)
      case App => this.(app := app + x)
    }
  }

  const NoMethodTotals: MethodTotals := MethodTotals(0.0, 0.0, 0.0)

  /** The eight figures a summary reports. */
  datatype Measure = TotalIncome | TotalExpenses | IncomeBy(m: IncomeMethod) | ExpensesBy(m: IncomeMethod)

  datatype Totals = Totals(totalIncome: real, totalExpenses: real,
                           incomeByMethod: MethodTotals, expensesByMethod: MethodTotals) {
    function Get(f: Measure): real {
      match f
      case TotalIncome => totalIncome
      case TotalExpenses => totalExpenses
      case IncomeBy(m) => incomeByMethod.Get(m)
      case ExpensesBy(m) => expensesByMethod.Get(m)
    }
  }

  const ZeroTotals: Totals := Totals(0.0, 0.0, NoMethodTotals, NoMethodTotals)

  /** What one transaction contributes to a figure. */
  function Weight(t: Transaction, f: Measure): real {
    match f
    case TotalIncome => if t.txType == Income then t.amount else 0.0
    case TotalExpenses => if t.txType == Expense then t.amount else 0.0
    case IncomeBy(m) => if t.txType == Income && t.incomeMethod == Some(m) then t.amount else 0.0
    case ExpensesBy(m) => if t.txType == Expense && t.incomeMethod == Some(m) then t.amount else 0.0
  }

  /** The sum of a figure over a list, accumulated from the front. */
  function SumOf(ts: seq<Transaction>, f: Measure): real
    decreases |ts|
  {
    if ts == [] then 0.0 else SumOf(ts[..|ts| - 1], f) + Weight(ts[|ts| - 1], f)
  }

  /** Reference totals: every figure is the sum of its contributions. */
  function TotalsOf(ts: seq<Transaction>): (r: Totals)
    ensures forall f: Measure :: r.Get(f) == SumOf(ts, f)
  {
    Totals(SumOf(ts, TotalIncome), SumOf(ts, TotalExpenses),
           MethodTotals(SumOf(ts, IncomeBy(Card)), SumOf(ts, IncomeBy(Cash)), SumOf(ts, IncomeBy(App))),
           MethodTotals(SumOf(ts, ExpensesBy(Card)), SumOf(ts, ExpensesBy(Cash)), SumOf(ts, ExpensesBy(App))))
  }

  /** `toTotals`: one pass that adds each amount to its type's total and,
      when it has a channel, to that channel's total. */
  method ToTotals(ts: seq<Transaction>) returns (acc: Totals)
    ensures acc == TotalsOf(ts)
  {
    acc := ZeroTotals;
    var i := 0;
    while i < |ts|
      invariant 0 <= i <= |ts|
      invariant acc == TotalsOf(ts[..i])
    {
      var t := ts[i];
      if t.txType == Income {
        acc := acc.(totalIncome := acc.totalIncome + t.amount);
        if t.incomeMethod.Some? {
          acc := acc.(incomeByMethod := acc.incomeByMethod.Add(t.incomeMethod.value, t.amount));
        }
      } else {
        acc := acc.(totalExpenses := acc.totalExpenses + t.amount);
        if t.incomeMethod.Some? {
          acc := acc.(expensesByMethod := acc.expensesByMethod.Add(t.incomeMethod.value, t.amount));
        }
      }
      assert ts[..i + 1][..i] == ts[..i];
      i := i + 1;
    }
    assert ts[..|ts|] == ts;
  }

  /** Sums split over concatenation. */
  lemma {:induction false} SumOfAppend(a: seq<Transaction>, b: seq<Transaction>, f: Measure)
    ensures SumOf(a + b, f) == SumOf(a, f) + SumOf(b, f)
    decreases |b|
  {
    if b == [] {
      assert a + b == a;
    } else {
      SumOfAppend(a, b[..|b| - 1], f);
      assert (a + b)[..|a + b| - 1] == a + b[..|b| - 1];
    }
  }

  /** A sum does not depend on the order of the list. */
  lemma {:induction false} SumOfPermutation(a: seq<Transaction>, b: seq<Transaction>, f: Measure)
    requires multiset(a) == multiset(b)
    ensures SumOf(a, f) == SumOf(b, f)
    decreases |a|
  {
    if a == [] {
      assert |b| == |multiset(b)| == 0;
    } else {
      var x := a[|a| - 1];
      var init := a[..|a| - 1];
      assert a == init + [x];
      assert x in multiset(b);
      var i :| 0 <= i < |b| && b[i] == x;
      var rest := b[..i] + b[i + 1..];
      RemoveAt(b, i);
      SumOfPermutation(init, rest, f);
      SumOfRemove(b, i, f);
      assert SumOf(a, f) == SumOf(init, f) + Weight(x, f);
    }
  }

  /** Removing one element removes it from the multiset. */
  lemma RemoveAt(b: seq<Transaction>, i: int)
    requires 0 <= i < |b|
    ensures multiset(b[..i] + b[i + 1..]) == multiset(b) - multiset{b[i]}
  {
    assert b == b[..i] + [b[i]] + b[i + 1..];
  }

  /** Removing one element removes its contribution. */
  lemma SumOfRemove(b: seq<Transaction>, i: int, f: Measure)
    requires 0 <= i < |b|
    ensures SumOf(b, f) == SumOf(b[..i] + b[i + 1..], f) + Weight(b[i], f)
  {
    assert b == b[..i] + [b[i]] + b[i + 1..];
    SumOfAppend(b[..i] + [b[i]], b[i + 1..], f);
    SumOfAppend(b[..i], [b[i]], f);
    SumOfAppend(b[..i], b[i + 1..], f);
    assert [b[i]][..0] == [];
  }

  /** With non-negative amounts, every figure is non-negative. */
  lemma {:induction false} SumOfNonNegative(ts: seq<Transaction>, f: Measure)
    requires forall k :: 0 <= k < |ts| ==> ts[k].amount >= 0.0
    ensures SumOf(ts, f) >= 0.0
    decreases |ts|
  {
    if ts != [] {
      SumOfNonNegative(ts[..|ts| - 1], f);
    }
  }

  /** With non-negative amounts the three channel totals never exceed the
      income total. */
  lemma {:induction false} MethodTotalsWithinIncome(ts: seq<Transaction>)
    requires forall k :: 0 <= k < |ts| ==> ts[k].amount >= 0.0
    ensures SumOf(ts, IncomeBy(Card)) + SumOf(ts, IncomeBy(Cash)) + SumOf(ts, IncomeBy(App)) <= SumOf(ts, TotalIncome)
    decreases |ts|
  {
    if ts != [] {
      MethodTotalsWithinIncome(ts[..|ts| - 1]);
    }
  }

  /** When every income has a channel, the channel totals add up to the
      income total. */
  lemma {:induction false} MethodTotalsCoverIncome(ts: seq<Transaction>)
    requires forall k :: 0 <= k < |ts| && ts[k].txType == Income ==> ts[k].incomeMethod.Some?
    ensures SumOf(ts, IncomeBy(Card)) + SumOf(ts, IncomeBy(Cash)) + SumOf(ts, IncomeBy(App)) == SumOf(ts, TotalIncome)
    decreases |ts|
  {
    if ts != [] {
      var init := ts[..|ts| - 1];
      assert forall k :: 0 <= k < |init| ==> init[k] == ts[k];
      MethodTotalsCoverIncome(init);
      var t := ts[|ts| - 1];
      assert init == ts[..|ts| - 1];
      if t.txType == Income {
        assert t.incomeMethod.Some?;
        var m := t.incomeMethod.value;
        assert m == Card || m == Cash || m == App;
      }
    }
  }

  /** Expenses never carry a channel, so the per-channel expense totals stay 0. */
  lemma {:induction false} NoExpensesByMethod(ts: seq<Transaction>, m: IncomeMethod)
    requires forall k :: 0 <= k < |ts| ==> WellFormed(ts[k])
    ensures SumOf(ts, ExpensesBy(m)) == 0.0
    decreases |ts|
  {
    if ts != [] {
      NoExpensesByMethod(ts[..|ts| - 1], m);
    }
  }

  /** The summary of one day: its totals, its net total and its transactions,
      latest first. */
  datatype DailySummary = DailySummary(date: Day, dayOfWeek: string, totalIncome: real,
                                       incomeByMethod: MethodTotals, totalExpenses: real,
                                       expensesByMethod: MethodTotals, netTotal: real,
                                       transactions: seq<Transaction>) {
    function Figures(): Totals {
      Totals(totalIncome, totalExpenses, incomeByMethod, expensesByMethod)
    }
  }

  /** Latest first, by their day keys (`a.date > b.date ? -1 : 1`). */
  predicate DateDescending(s: seq<Transaction>) {
    forall i, j :: 0 <= i < j < |s| ==> NotAfter(s[j].date, s[i].date)
  }

  /** The sort that `buildDailySummary` applies, done in place: an insertion
      sort that moves each element forward past every earlier-dated one. */
  method SortByDateDescending(a: array<Transaction>)
    modifies a
    ensures DateDescending(a[..])
    ensures multiset(a[..]) == multiset(old(a[..]))
  {
    if a.Length == 0 {
      return;
    }
    var i := 1;
    while i < a.Length
      invariant 1 <= i <= a.Length
      invariant DateDescending(a[..i])
      invariant multiset(a[..]) == multiset(old(a[..]))
    {
      InsertForward(a, i);
      i := i + 1;
    }
    assert a[..] == a[..a.Length];
  }

  /** Moves `a[i]` forward into the already sorted prefix `a[..i]`. */
  method InsertForward(a: array<Transaction>, i: int)
    requires 1 <= i < a.Length
    requires DateDescending(a[..i])
    modifies a
    ensures DateDescending(a[..i + 1])
    ensures multiset(a[..]) == multiset(old(a[..]))
  {
    var j := i;
    while j > 0 && Before(a[j - 1].date, a[j].date)
      invariant 0 <= j <= i
      invariant multiset(a[..]) == multiset(old(a[..]))
      invariant forall k, l :: 0 <= k < l <= i && k != j && l != j ==> NotAfter(a[l].date, a[k].date)
      invariant forall l :: j < l <= i ==> NotAfter(a[l].date, a[j].date)
    {
      Swap(a, j - 1, j);
      j := j - 1;
    }
  }

  /** Exchanges two elements. */
  method Swap(a: array<Transaction>, i: int, j: int)
    requires 0 <= i < a.Length && 0 <= j < a.Length
    modifies a
    ensures a[..] == old(a[..])[i := old(a[j])][j := old(a[i])]
    ensures multiset(a[..]) == multiset(old(a[..]))
  {
    a[i], a[j] := a[j], a[i];
  }

  /** `buildDailySummary`: the day, its Spanish day name, the totals of the
      day's transactions, income minus expenses, and the transactions latest
      first. The reported totals agree with the list the summary carries. */
  method BuildDailySummary(date: Day, ts: seq<Transaction>) returns (s: DailySummary)
    ensures s.date == date && s.dayOfWeek == WeekdayName(date)
    ensures s.Figures() == TotalsOf(ts)
    ensures s.netTotal == s.totalIncome - s.totalExpenses
    ensures multiset(s.transactions) == multiset(ts)
    ensures DateDescending(s.transactions)
    ensures s.Figures() == TotalsOf(s.transactions)
  {
    var totals := ToTotals(ts);
    var a := new Transaction[|ts|](k requires 0 <= k < |ts| => ts[k]);
    assert a[..] == ts;
    SortByDateDescending(a);
    s := DailySummary(date, WeekdayName(date), totals.totalIncome, totals.incomeByMethod,
                      totals.totalExpenses, totals.expensesByMethod,
                      totals.totalIncome - totals.totalExpenses, a[..]);
    forall f: Measure ensures SumOf(ts, f) == SumOf(s.transactions, f) {
      SumOfPermutation(ts, s.transactions, f);
    }
  }

  /** The amounts the save form sends (`CreateTransactionsPayload`). */
  datatype CreatePayload = CreatePayload(date: Day, card: Option<real>, cash: Option<real>,
                                         app: Option<real>, expense: Option<real>, note: Option<string>) {
    function Amount(m: IncomeMethod): Option<real> {
      match m
      case Card => card
      case Cash => cash
      case App => app
    }
  }

  /** A row to insert: a stored entry without its id. */
  datatype NewRow = NewRow(userId: string, entryDate: Day, amount: real, category: Option<string>,
                           note: Option<string>)

  /** The row for a positive amount, or none. */
  function RowIf(present: bool, row: NewRow): seq<NewRow> {
    if present then [row] else []
  }

  /** Reference row list for a payload: one income row per channel with a
      positive amount, in the order card, cash, app, then one expense row
      holding the negated expense. */
  function PayloadRows(userId: string, p: CreatePayload): seq<NewRow> {
    RowIf(EnsurePositive(p.card) > 0.0, IncomeRow(userId, p, Card))
    + RowIf(EnsurePositive(p.cash) > 0.0, IncomeRow(userId, p, Cash))
    + RowIf(EnsurePositive(p.app) > 0.0, IncomeRow(userId, p, App))
    + RowIf(EnsurePositive(p.expense) > 0.0, ExpenseRow(userId, p))
  }

  function IncomeRow(userId: string, p: CreatePayload, m: IncomeMethod): NewRow {
    NewRow(userId, p.date, EnsurePositive(p.Amount(m)), Some(MethodName(m)), p.note)
  }

  /** The category of the expense row. */
  const ExpenseCategory := "expense"

  function ExpenseRow(userId: string, p: CreatePayload): NewRow {
    NewRow(userId, p.date, -EnsurePositive(p.expense), Some(ExpenseCategory), p.note)
  }

  predicate HasCategory(rows: seq<NewRow>, c: string) {
    exists k :: 0 <= k < |rows| && rows[k].category == Some(c)
  }

  /** The stored form of an inserted row, with the id the database gave it. */
  function Stored(row: NewRow, id: string): RawEntry {
    RawEntry(id, row.userId, row.entryDate, Some(row.amount), row.category, row.note)
  }

  /** What the insert returns, mapped to transactions; `newId(k)` is the id
      the database assigns to the `k`-th inserted row. */
  function ReadBack(rows: seq<NewRow>, newId: nat -> string): (r: seq<Transaction>)
    ensures |r| == |rows|
    ensures forall k :: 0 <= k < |rows| ==> r[k] == MapEntryToTransaction(Stored(rows[k], newId(k)))
    ensures forall k :: 0 <= k < |rows| ==>
              r[k].id == newId(k) && r[k].date == rows[k].entryDate && r[k].note == rows[k].note
              && SignedAmount(r[k]) == rows[k].amount && (r[k].txType == Income <==> rows[k].amount >= 0.0)
  {
    seq(|rows|, k requires 0 <= k < |rows| => MapEntryToTransaction(Stored(rows[k], newId(k))))
  }

  /** `createTransactions`: builds one row per positive amount and inserts
      them only when there is at least one. */
  method CreateTransactions(userId: string, p: CreatePayload, newId: nat -> string)
    returns (rows: seq<NewRow>, inserted: bool, created: seq<Transaction>)
    ensures rows == PayloadRows(userId, p)
    ensures inserted <==> rows != []
    ensures created == ReadBack(rows, newId)
  {
    var card := EnsurePositive(p.card);
    var cash := EnsurePositive(p.cash);
    var app := EnsurePositive(p.app);
    var expense := EnsurePositive(p.expense);
    rows := [];
    if card > 0.0 {
      rows := rows + [NewRow(userId, p.date, card, Some("card"), p.note)];
    }
    ghost var upToCard := RowIf(card > 0.0, IncomeRow(userId, p, Card));
    assert rows == upToCard;
    if cash > 0.0 {
      rows := rows + [NewRow(userId, p.date, cash, Some("cash"), p.note)];
    }
    ghost var upToCash := upToCard + RowIf(cash > 0.0, IncomeRow(userId, p, Cash));
    assert rows == upToCash;
    if app > 0.0 {
      rows := rows + [NewRow(userId, p.date, app, Some("app"), p.note)];
    }
    ghost var upToApp := upToCash + RowIf(app > 0.0, IncomeRow(userId, p, App));
    assert rows == upToApp;
    if expense > 0.0 {
      rows := rows + [NewRow(userId, p.date, -expense, Some(ExpenseCategory), p.note)];
    }
    assert rows == upToApp + RowIf(expense > 0.0, ExpenseRow(userId, p));
    if rows == [] {
      return rows, false, [];
    }
    inserted := true;
    created := ReadBack(rows, newId);
  }

  /** Every row carries the caller's id, the payload's day and note; there is
      a row for a channel exactly when its amount is positive, an expense row
      exactly when the expense is positive, and no category appears twice. */
  lemma PayloadRowsShape(userId: string, p: CreatePayload)
    ensures forall k :: 0 <= k < |PayloadRows(userId, p)| ==>
              var row := PayloadRows(userId, p)[k];
              row.userId == userId && row.entryDate == p.date && row.note == p.note
    ensures forall m: IncomeMethod :: HasCategory(PayloadRows(userId, p), MethodName(m)) <==> EnsurePositive(p.Amount(m)) > 0.0
    ensures HasCategory(PayloadRows(userId, p), ExpenseCategory) <==> EnsurePositive(p.expense) > 0.0
    ensures forall i, j :: 0 <= i < j < |PayloadRows(userId, p)| ==>
              PayloadRows(userId, p)[i].category != PayloadRows(userId, p)[j].category
  {
    PayloadRowsCommon(userId, p);
    forall m: IncomeMethod
      ensures HasCategory(PayloadRows(userId, p), MethodName(m)) <==> EnsurePositive(p.Amount(m)) > 0.0
    {
      PayloadHasMethod(userId, p, m);
    }
    PayloadHasExpense(userId, p);
    PayloadCategoriesDistinct(userId, p);
  }

  lemma PayloadHasMethod(userId: string, p: CreatePayload, m: IncomeMethod)
    ensures HasCategory(PayloadRows(userId, p), MethodName(m)) <==> EnsurePositive(p.Amount(m)) > 0.0
  {
    PayloadCategories(userId, p);
    CategoryIn(PayloadRows(userId, p), MethodName(m));
    CategoryNamesDistinct();
  }

  lemma PayloadHasExpense(userId: string, p: CreatePayload)
    ensures HasCategory(PayloadRows(userId, p), ExpenseCategory) <==> EnsurePositive(p.expense) > 0.0
  {
    PayloadCategories(userId, p);
    CategoryIn(PayloadRows(userId, p), ExpenseCategory);
    CategoryNamesDistinct();
  }

  lemma PayloadCategoriesDistinct(userId: string, p: CreatePayload)
    ensures forall i, j :: 0 <= i < j < |PayloadRows(userId, p)| ==>
              PayloadRows(userId, p)[i].category != PayloadRows(userId, p)[j].category
  {
    var rows := PayloadRows(userId, p);
    var cats := Categories(rows);
    PayloadCategories(userId, p);
    CategoryNamesDistinct();
    KeptDistinct(EnsurePositive(p.card) > 0.0, EnsurePositive(p.cash) > 0.0,
                 EnsurePositive(p.app) > 0.0, EnsurePositive(p.expense) > 0.0,
                 Some(MethodName(Card)), Some(MethodName(Cash)), Some(MethodName(App)), Some(ExpenseCategory));
    forall i, j | 0 <= i < j < |rows| ensures rows[i].category != rows[j].category {
      assert cats[i] == rows[i].category && cats[j] == rows[j].category;
    }
  }

  /** Keeping some of four pairwise different values, in order, keeps them
      pairwise different. */
  lemma KeptDistinct<T>(k1: bool, k2: bool, k3: bool, k4: bool, x1: T, x2: T, x3: T, x4: T)
    requires x1 != x2 && x1 != x3 && x1 != x4 && x2 != x3 && x2 != x4 && x3 != x4
    ensures var s := (if k1 then [x1] else []) + (if k2 then [x2] else []) + (if k3 then [x3] else []) + (if k4 then [x4] else []);
            forall i, j :: 0 <= i < j < |s| ==> s[i] != s[j]
  {
    var a := if k1 then [x1] else [];
    var b := a + (if k2 then [x2] else []);
    var c := b + (if k3 then [x3] else []);
    DistinctSnoc(a, k2, x2);
    assert forall y :: y in b ==> y == x1 || y == x2;
    DistinctSnoc(b, k3, x3);
    assert forall y :: y in c ==> y == x1 || y == x2 || y == x3;
    DistinctSnoc(c, k4, x4);
  }

  /** Appending, or not, a value missing from a list of pairwise different
      values keeps them pairwise different. */
  lemma DistinctSnoc<T>(a: seq<T>, k: bool, x: T)
    requires forall i, j :: 0 <= i < j < |a| ==> a[i] != a[j]
    requires x !in a
    ensures var s := a + (if k then [x] else []);
            forall i, j :: 0 <= i < j < |s| ==> s[i] != s[j]
  {
    var s := a + (if k then [x] else []);
    forall i, j | 0 <= i < j < |s| ensures s[i] != s[j] {
      assert s[i] == a[i];
      if j < |a| { assert s[j] == a[j]; } else { assert s[j] == x; }
    }
  }

  /** The categories of a row list, in order. */
  function Categories(rows: seq<NewRow>): (r: seq<Option<string>>)
    ensures |r| == |rows| && forall k :: 0 <= k < |rows| ==> r[k] == rows[k].category
  {
    seq(|rows|, k requires 0 <= k < |rows| => rows[k].category)
  }

  /** A category is present exactly when it is among the rows' categories. */
  lemma CategoryIn(rows: seq<NewRow>, c: string)
    ensures HasCategory(rows, c) <==> Some(c) in Categories(rows)
  {
    var cats := Categories(rows);
    if Some(c) in cats {
      var k :| 0 <= k < |cats| && cats[k] == Some(c);
      assert rows[k].category == Some(c);
    }
  }

  /** The built rows' categories: the filter of card, cash, app, expense by
      a positive amount. */
  lemma PayloadCategories(userId: string, p: CreatePayload)
    ensures Categories(PayloadRows(userId, p))
            == (if EnsurePositive(p.card) > 0.0 then [Some(MethodName(Card))] else [])
               + (if EnsurePositive(p.cash) > 0.0 then [Some(MethodName(Cash))] else [])
               + (if EnsurePositive(p.app) > 0.0 then [Some(MethodName(App))] else [])
               + (if EnsurePositive(p.expense) > 0.0 then [Some(ExpenseCategory)] else [])
  {
    var a := RowIf(EnsurePositive(p.card) > 0.0, IncomeRow(userId, p, Card));
    var b := RowIf(EnsurePositive(p.cash) > 0.0, IncomeRow(userId, p, Cash));
    var c := RowIf(EnsurePositive(p.app) > 0.0, IncomeRow(userId, p, App));
    var e := RowIf(EnsurePositive(p.expense) > 0.0, ExpenseRow(userId, p));
    CategoriesAppend(a, b);
    CategoriesAppend(a + b, c);
    CategoriesAppend(a + b + c, e);
    KeptCategory(EnsurePositive(p.card) > 0.0, IncomeRow(userId, p, Card));
    KeptCategory(EnsurePositive(p.cash) > 0.0, IncomeRow(userId, p, Cash));
    KeptCategory(EnsurePositive(p.app) > 0.0, IncomeRow(userId, p, App));
    KeptCategory(EnsurePositive(p.expense) > 0.0, ExpenseRow(userId, p));
  }

  lemma KeptCategory(present: bool, row: NewRow)
    ensures Categories(RowIf(present, row)) == if present then [row.category] else []
  {
  }

  /** Every built row carries the payload's user, day and note. */
  lemma PayloadRowsCommon(userId: string, p: CreatePayload)
    ensures forall k :: 0 <= k < |PayloadRows(userId, p)| ==>
              var row := PayloadRows(userId, p)[k];
              row.userId == userId && row.entryDate == p.date && row.note == p.note
  {
  }

  /** The four category texts are pairwise different. */
  lemma CategoryNamesDistinct()
    ensures MethodName(Card) != MethodName(Cash) && MethodName(Card) != MethodName(App)
    ensures MethodName(Cash) != MethodName(App)
    ensures forall m: IncomeMethod :: MethodName(m) != ExpenseCategory
  {
    assert MethodName(Card)[2] != MethodName(Cash)[2];
    assert |MethodName(App)| != |MethodName(Card)| && |MethodName(App)| != |MethodName(Cash)|;
    assert |ExpenseCategory| == 7;
  }

  lemma CategoriesAppend(a: seq<NewRow>, b: seq<NewRow>)
    ensures Categories(a + b) == Categories(a) + Categories(b)
  {
  }

  /** A row's contribution to each figure once it is read back. */
  function RowWeight(row: NewRow, f: Measure): real {
    Weight(MapEntryToTransaction(Stored(row, "")), f)
  }

  function RowSum(rows: seq<NewRow>, f: Measure): real
    decreases |rows|
  {
    if rows == [] then 0.0 else RowSum(rows[..|rows| - 1], f) + RowWeight(rows[|rows| - 1], f)
  }

  lemma {:induction false} RowSumAppend(a: seq<NewRow>, b: seq<NewRow>, f: Measure)
    ensures RowSum(a + b, f) == RowSum(a, f) + RowSum(b, f)
    decreases |b|
  {
    if b == [] {
      assert a + b == a;
    } else {
      RowSumAppend(a, b[..|b| - 1], f);
      assert (a + b)[..|a + b| - 1] == a + b[..|b| - 1];
    }
  }

  lemma ReadBackSum(rows: seq<NewRow>, newId: nat -> string, f: Measure)
    ensures SumOf(ReadBack(rows, newId), f) == RowSum(rows, f)
  {
    var ts := ReadBack(rows, newId);
    forall k | 0 <= k < |rows| ensures Weight(ts[k], f) == RowWeight(rows[k], f) {
      StoredWeight(rows[k], newId(k), f);
    }
    SumOfMatching(ts, rows, f);
  }

  /** Transactions that weigh what the rows weigh, one for one, sum to what
      the rows sum to. */
  lemma {:induction false} SumOfMatching(ts: seq<Transaction>, rows: seq<NewRow>, f: Measure)
    requires |ts| == |rows|
    requires forall k :: 0 <= k < |rows| ==> Weight(ts[k], f) == RowWeight(rows[k], f)
    ensures SumOf(ts, f) == RowSum(rows, f)
    decreases |rows|
  {
    if rows != [] {
      var n := |rows| - 1;
      SumOfMatching(ts[..n], rows[..n], f);
    }
  }

  /** The id a row is stored under does not change what it weighs. */
  lemma StoredWeight(row: NewRow, id: string, f: Measure)
    ensures Weight(MapEntryToTransaction(Stored(row, id)), f) == RowWeight(row, f)
  {
    assert Stored(row, id) == Stored(row, "").(id := id);
  }

  /** The totals of the page as entered, `ensurePositive` applied to each amount. */
  function PayloadTotals(p: CreatePayload): Totals {
    var card, cash, app := EnsurePositive(p.card), EnsurePositive(p.cash), EnsurePositive(p.app);
    Totals(card + cash + app, EnsurePositive(p.expense), MethodTotals(card, cash, app), NoMethodTotals)
  }

  /** Saving and reading back: the created transactions total exactly the
      positive amounts of the payload, each income under its own channel and
      the expense as an expense. */
  lemma CreatedTotals(userId: string, p: CreatePayload, newId: nat -> string)
    ensures TotalsOf(ReadBack(PayloadRows(userId, p), newId)) == PayloadTotals(p)
  {
    forall f: Measure ensures SumOf(ReadBack(PayloadRows(userId, p), newId), f) == PayloadTotals(p).Get(f) {
      ReadBackSum(PayloadRows(userId, p), newId, f);
      PayloadRowSum(userId, p, f);
    }
  }

  /** Each figure of the rows is the sum of the four possible rows' shares. */
  lemma PayloadRowSum(userId: string, p: CreatePayload, f: Measure)
    ensures RowSum(PayloadRows(userId, p), f) == PayloadTotals(p).Get(f)
  {
    var r1 := RowIf(EnsurePositive(p.card) > 0.0, IncomeRow(userId, p, Card));
    var r2 := RowIf(EnsurePositive(p.cash) > 0.0, IncomeRow(userId, p, Cash));
    var r3 := RowIf(EnsurePositive(p.app) > 0.0, IncomeRow(userId, p, App));
    var r4 := RowIf(EnsurePositive(p.expense) > 0.0, ExpenseRow(userId, p));
    RowSumOfFour(r1, r2, r3, r4, f);
    IncomeRowShare(userId, p, Card, f);
    IncomeRowShare(userId, p, Cash, f);
    IncomeRowShare(userId, p, App, f);
    ExpenseRowShare(userId, p, f);
    PayloadTotalsShares(p, f);
  }

  lemma RowSumOfFour(r1: seq<NewRow>, r2: seq<NewRow>, r3: seq<NewRow>, r4: seq<NewRow>, f: Measure)
    ensures RowSum(r1 + r2 + r3 + r4, f) == RowSum(r1, f) + RowSum(r2, f) + RowSum(r3, f) + RowSum(r4, f)
  {
    RowSumAppend(r1 + r2 + r3, r4, f);
    RowSumAppend(r1 + r2, r3, f);
    RowSumAppend(r1, r2, f);
  }

  /** What the amount of channel `m` contributes to figure `f`. */
  function IncomeShare(p: CreatePayload, m: IncomeMethod, f: Measure): real {
    var x := EnsurePositive(p.Amount(m));
    if x > 0.0 && (f == TotalIncome || f == IncomeBy(m)) then x else 0.0
  }

  /** What the expense amount contributes to figure `f`. */
  function ExpenseShare(p: CreatePayload, f: Measure): real {
    var x := EnsurePositive(p.expense);
    if x > 0.0 && f == TotalExpenses then x else 0.0
  }

  lemma PayloadTotalsShares(p: CreatePayload, f: Measure)
    ensures PayloadTotals(p).Get(f) ==
              IncomeShare(p, Card, f) + IncomeShare(p, Cash, f) + IncomeShare(p, App, f) + ExpenseShare(p, f)
  {
  }

  /** A positive income row read back counts towards the income total and its
      own channel, and nothing else. */
  lemma IncomeRowShare(userId: string, p: CreatePayload, m: IncomeMethod, f: Measure)
    ensures RowSum(RowIf(EnsurePositive(p.Amount(m)) > 0.0, IncomeRow(userId, p, m)), f) == IncomeShare(p, m, f)
  {
    var row := IncomeRow(userId, p, m);
    if EnsurePositive(p.Amount(m)) > 0.0 {
      assert RowIf(true, row)[..0] == [];
      var t := MapEntryToTransaction(Stored(row, ""));
      assert t.incomeMethod == MethodNamed(MethodName(m));
    }
  }

  /** A positive expense read back counts towards the expense total only. */
  lemma ExpenseRowShare(userId: string, p: CreatePayload, f: Measure)
    ensures RowSum(RowIf(EnsurePositive(p.expense) > 0.0, ExpenseRow(userId, p)), f) == ExpenseShare(p, f)
  {
    if EnsurePositive(p.expense) > 0.0 {
      assert RowIf(true, ExpenseRow(userId, p))[..0] == [];
    }
  }
}
