/** The add-transactions screen: the amount-text parser, the guard that
    refuses an all-zero page, the payload it sends to `createTransactions`,
    and the form state around a save. */
module AddTransactionScreen {
  import opened Optional
  import opened Text
  import opened Numbers
  import opened Calendar
  import opened TransactionsService
  import opened PeriodSummaries

  /** The characters the amount cleaner keeps (`[0-9,]`). */
  predicate IsKept(c: char) {
    IsDigit(c) || c == ','
  }

  /** `replace(/[^0-9,]/g, '')`: the digits and commas of `s`, in order. */
  function KeepDigitsAndCommas(s: string): (r: string)
    ensures |r| <= |s|
    ensures forall k :: 0 <= k < |r| ==> IsKept(r[k]) && r[k] in s
    decreases |s|
  {
    if s == [] then []
    else KeepDigitsAndCommas(s[..|s| - 1]) + (if IsKept(s[|s| - 1]) then [s[|s| - 1]] else [])
  }

  /** Every digit and comma of `s` is kept, as often as it occurs, and
      nothing else is. */
  lemma {:induction false} KeepCounts(s: string)
    ensures forall c :: multiset(KeepDigitsAndCommas(s))[c] == if IsKept(c) then multiset(s)[c] else 0
    decreases |s|
  {
    if s != [] {
      var init, last := s[..|s| - 1], s[|s| - 1];
      KeepCounts(init);
      assert s == init + [last];
      assert multiset(s) == multiset(init) + multiset{last};
    }
  }

  /** The cleaner works character by character: cleaning a concatenation is
      concatenating the cleaned parts, so the kept characters stay in order. */
  lemma {:induction false} KeepAppend(a: string, b: string)
    ensures KeepDigitsAndCommas(a + b) == KeepDigitsAndCommas(a) + KeepDigitsAndCommas(b)
    decreases |b|
  {
    if b != [] {
      var init, last := b[..|b| - 1], b[|b| - 1];
      KeepAppend(a, init);
      assert a + b == (a + init) + [last];
      assert (a + b)[..|a + b| - 1] == a + init;
    } else {
      assert a + b == a;
    }
  }

  /** Text made only of digits and commas is left as it is. */
  lemma {:induction false} KeepAll(s: string)
    requires forall k :: 0 <= k < |s| ==> IsKept(s[k])
    ensures KeepDigitsAndCommas(s) == s
    decreases |s|
  {
    if s != [] {
      var init, last := s[..|s| - 1], s[|s| - 1];
      assert forall k :: 0 <= k < |init| ==> init[k] == s[k];
      KeepAll(init);
      assert IsKept(last);
      assert init + [last] == s;
    }
  }

  /** The cleaned text: kept characters, the first comma turned into '.'. */
  function CleanAmount(text: string): (c: string)
    ensures |c| == |KeepDigitsAndCommas(text)|
    ensures forall k :: 0 <= k < |c| ==>
              c[k] == KeepDigitsAndCommas(text)[k] || (c[k] == '.' && KeepDigitsAndCommas(text)[k] == ',')
    ensures forall i, j :: 0 <= i < j < |c| && c[j] == '.' ==> c[i] != ',' && c[i] != '.'
    ensures ',' in KeepDigitsAndCommas(text) ==> '.' in c
    ensures c != [] ==> IsDigit(c[0]) || c[0] == '.'
  {
    var kept := KeepDigitsAndCommas(text);
    var i := FirstIndex(kept, ',');
    var c := ReplaceFirst(kept, ',', '.');
    assert ',' in kept ==> i < |kept| && c[i] == '.';
    c
  }

  /** `parseFloat` of cleaned text: no sign and no `Infinity` can be left, so
      it reads a non-negative decimal or nothing at all. */
  lemma CleanParse(text: string)
    ensures var n := ParseFloat(CleanAmount(text));
            n == NaN || (n.Finite? && n.value >= 0.0)
  {
    var c := CleanAmount(text);
    if c == [] {
      assert TrimStart(c) == [];
      assert ScanMantissa(c, 0) == Mantissa(0, 0, 0);
    } else {
      assert DigitVal(c[0]) < 10 <==> IsDigit(c[0]);
      ParseFloatUnsigned(c);
      var m := ScanMantissa(c, 0);
      ScaleNonNegative(MantissaValue(c, 0, m), ScanExponent(c, m.fracEnd).0);
    }
  }

  /** `parseAmount`: the cleaned text through `parseFloat`, `NaN` read as 0.
      (`parseFloat` cannot give an infinity here: see `ParseAmountNonNegative`.) */
  function ParseAmount(text: string): (r: real)
    ensures r >= 0.0
    ensures ParseFloat(CleanAmount(text)) == NaN ==> r == 0.0
    ensures ParseFloat(CleanAmount(text)) == Finite(r) || r == 0.0
  {
    CleanParse(text);
    match ParseFloat(CleanAmount(text))
    case Finite(x) => x
    case NaN => 0.0
    case Infinite(_) => 0.0
  }

  /** A parsed amount is never negative, because no '-' survives the cleaning,
      and it is never an infinity read as 0. */
  lemma ParseAmountNonNegative(text: string)
    ensures ParseAmount(text) >= 0.0
    ensures ParseFloat(CleanAmount(text)).Finite? || ParseAmount(text) == 0.0
    ensures !ParseFloat(CleanAmount(text)).Infinite?
  {
    CleanParse(text);
  }

  /** Text without a digit (the empty text among it) parses to 0. */
  lemma ParseAmountNoDigits(text: string)
    requires forall k :: 0 <= k < |text| ==> !IsDigit(text[k])
    ensures ParseAmount(text) == 0.0
  {
    var kept := KeepDigitsAndCommas(text);
    var c := CleanAmount(text);
    assert forall k :: 0 <= k < |kept| ==> kept[k] == ',';
    if c != [] {
      assert c[0] == '.';
      assert forall k :: 1 <= k < |c| ==> c[k] == ',';
      ParseFloatUnsigned(c);
      assert DigitRun(c, 0, 10) == 0;
      assert ScanMantissa(c, 0).fracStart == 1;
      assert DigitRun(c, 1, 10) == 1;
    } else {
      assert ScanMantissa(c, 0) == Mantissa(0, 0, 0);
    }
  }

  /** A decimal written with a comma, `ip,fp`, parses to the decimal it spells. */
  lemma ParseAmountDecimal(ip: string, fp: string)
    requires AllDigitsIn(ip, 10) && AllDigitsIn(fp, 10) && (ip != [] || fp != [])
    ensures ParseAmount(ip + "," + fp) == DecimalValue(ip, fp)
  {
    var s := ip + "," + fp;
    assert forall k :: 0 <= k < |s| ==> IsKept(s[k]) by {
      forall k | 0 <= k < |s| ensures IsKept(s[k]) {
        if k < |ip| {
          assert s[k] == ip[k];
        } else if k > |ip| {
          assert s[k] == fp[k - |ip| - 1];
        }
      }
    }
    KeepAll(s);
    CommaDecimal(ip, fp);
    assert ip + "." + fp + [] == ip + "." + fp;
    ParseFloatDecimal(ip, fp, []);
  }

  /** A plain digit string parses to the integer it spells. */
  lemma ParseAmountInteger(ip: string)
    requires AllDigitsIn(ip, 10) && ip != []
    ensures ParseAmount(ip) == DigitsValue(ip, 10) as real
  {
    assert forall k :: 0 <= k < |ip| ==> IsKept(ip[k]) && ip[k] != ',';
    KeepAll(ip);
    assert FirstIndex(ip, ',') == |ip|;
    assert ip + [] == ip;
    ParseFloatInteger(ip, []);
  }

  /** Characters other than digits and commas make no difference. */
  lemma ParseAmountIgnoresOthers(text: string)
    ensures ParseAmount(text) == ParseAmount(KeepDigitsAndCommas(text))
  {
    KeepAll(KeepDigitsAndCommas(text));
  }

  /** The payload field of an amount: the amount when positive, absent otherwise. */
  function PositiveOrAbsent(x: real): (r: Option<real>)
    ensures r.Some? <==> x > 0.0
    ensures r.Some? ==> r.value == x
  {
    if x > 0.0 then Some(x) else None
  }

  /** The guard of `handleSaveTransactions`: at least one amount is not 0. */
  predicate AnyAmount(card: real, cash: real, app: real, expense: real) {
    !(card == 0.0 && cash == 0.0 && app == 0.0 && expense == 0.0)
  }

  /** The payload the screen sends; it carries no note. */
  function SavePayload(date: Day, card: real, cash: real, app: real, expense: real): (p: CreatePayload)
    ensures p.date == date && p.note == None
    ensures p.card == PositiveOrAbsent(card) && p.cash == PositiveOrAbsent(cash)
    ensures p.app == PositiveOrAbsent(app) && p.expense == PositiveOrAbsent(expense)
  {
    CreatePayload(date, PositiveOrAbsent(card), PositiveOrAbsent(cash), PositiveOrAbsent(app),
                  PositiveOrAbsent(expense), None)
  }

  /** For parsed (non-negative) amounts, the service stores exactly what was
      typed: `ensurePositive` gives every amount back, and a page the guard
      lets through always produces at least one row to insert. */
  lemma SavePayloadRoundTrip(owner: string, date: Day, card: real, cash: real, app: real, expense: real)
    requires card >= 0.0 && cash >= 0.0 && app >= 0.0 && expense >= 0.0
    ensures var p := SavePayload(date, card, cash, app, expense);
            EnsurePositive(p.card) == card && EnsurePositive(p.cash) == cash
            && EnsurePositive(p.app) == app && EnsurePositive(p.expense) == expense
            && PayloadTotals(p) == Totals(card + cash + app, expense, MethodTotals(card, cash, app), NoMethodTotals)
    ensures AnyAmount(card, cash, app, expense) <==> PayloadRows(owner, SavePayload(date, card, cash, app, expense)) != []
  {
    var p := SavePayload(date, card, cash, app, expense);
    if AnyAmount(card, cash, app, expense) {
      PayloadRowsShape(owner, p);
      if card > 0.0 {
        assert HasCategory(PayloadRows(owner, p), MethodName(Card));
      } else if cash > 0.0 {
        assert HasCategory(PayloadRows(owner, p), MethodName(Cash));
      } else if app > 0.0 {
        assert HasCategory(PayloadRows(owner, p), MethodName(App));
      } else {
        assert HasCategory(PayloadRows(owner, p), ExpenseCategory);
      }
    }
  }

  /** The signed-in session: the user's id and the access token. */
  datatype Session = Session(userId: string, accessToken: string)

  /** The rows an insert writes, with the ids the database gives them. */
  function StoredRows(rows: seq<NewRow>, newId: nat -> string): (table: seq<RawEntry>)
    ensures |table| == |rows|
    ensures forall k :: 0 <= k < |rows| ==> table[k] == Stored(rows[k], newId(k))
  {
    seq(|rows|, k requires 0 <= k < |rows| => Stored(rows[k], newId(k)))
  }

  /** The owner id the screen passes to `createTransactions`, as written: the
      session's access token. */
  function OwnerAsWritten(session: Session): string {
    session.accessToken
  }

  /** The owner id the rest of the application reads and deletes by: the
      user's id. */
  function Owner(session: Session): string {
    session.userId
  }

  /** With the access token as owner, a saved card income is invisible to the
      day view that reads the user's rows by user id. */
  lemma OwnerAsWrittenHidesRows(newId: nat -> string)
    ensures var session := Session("user-1", "token-1");
            var p := SavePayload(Day(2024, 3, 15), 10.0, 0.0, 0.0, 0.0);
            var table := StoredRows(PayloadRows(OwnerAsWritten(session), p), newId);
            |table| == 1 && FetchTransactions(table, session.userId, Some((p.date, p.date))) == []
  {
    var session := Session("user-1", "token-1");
    var p := SavePayload(Day(2024, 3, 15), 10.0, 0.0, 0.0, 0.0);
    var rows := PayloadRows(OwnerAsWritten(session), p);
    assert rows == [IncomeRow("token-1", p, Card)];
    var table := StoredRows(rows, newId);
    assert table[..0] == [];
  }

  /** With the user's id as owner, the day view reads back exactly the
      created transactions, so their totals are the amounts typed in. */
  lemma OwnerShowsRows(session: Session, p: CreatePayload, newId: nat -> string)
    ensures var rows := PayloadRows(Owner(session), p);
            FetchTransactions(StoredRows(rows, newId), session.userId, Some((p.date, p.date))) == ReadBack(rows, newId)
    ensures TotalsOf(FetchTransactions(StoredRows(PayloadRows(Owner(session), p), newId), session.userId,
                                       Some((p.date, p.date)))) == PayloadTotals(p)
  {
    var rows := PayloadRows(Owner(session), p);
    PayloadRowsShape(Owner(session), p);
    FetchOwnRows(rows, newId, session.userId, p.date, |rows|);
    assert StoredRows(rows, newId)[..|rows|] == StoredRows(rows, newId);
    assert ReadBack(rows, newId)[..|rows|] == ReadBack(rows, newId);
    CreatedTotals(Owner(session), p, newId);
  }

  /** Rows that all belong to `userId` on day `d` are all fetched, in order. */
  lemma {:induction false} FetchOwnRows(rows: seq<NewRow>, newId: nat -> string, userId: string, d: Day, n: nat)
    requires n <= |rows|
    requires forall k :: 0 <= k < |rows| ==> rows[k].userId == userId && rows[k].entryDate == d
    ensures FetchTransactions(StoredRows(rows, newId)[..n], userId, Some((d, d))) == ReadBack(rows, newId)[..n]
    decreases n
  {
    if n > 0 {
      FetchOwnRows(rows, newId, userId, d, n - 1);
      var table := StoredRows(rows, newId)[..n];
      assert table[..n - 1] == StoredRows(rows, newId)[..n - 1];
      assert ReadBack(rows, newId)[..n] == ReadBack(rows, newId)[..n - 1] + [ReadBack(rows, newId)[n - 1]];
    }
  }

  datatype ToastKind = SuccessToast | ErrorToast | InfoToast

  datatype Toast = Toast(message: string, kind: ToastKind)

  /** The four amount fields, the day and the feedback of the screen. */
  class AddTransactionForm {
    var selectedDate: Day
    var cardAmount: string
    var cashAmount: string
    var appAmount: string
    var expenseAmount: string
    var isSaving: bool
    var toast: Option<Toast>

    constructor (today: Day)
      ensures selectedDate == today
      ensures cardAmount == "" && cashAmount == "" && appAmount == "" && expenseAmount == ""
      ensures !isSaving && toast == None
    {
      selectedDate := today;
      cardAmount, cashAmount, appAmount, expenseAmount := "", "", "", "";
      isSaving := false;
      toast := None;
    }

    /** The four fields as parsed, in the order card, cash, app, expense. */
    function Parsed(): (real, real, real, real)
      reads this
    {
      (ParseAmount(cardAmount), ParseAmount(cashAmount), ParseAmount(appAmount), ParseAmount(expenseAmount))
    }

    /** `handleSaveTransactions` as written: the four fields are parsed and
        the page is saved with those amounts, under the session's access
        token as owner. */
    method HandleSaveTransactions(session: Session, insertFails: bool, newId: nat -> string)
      returns (sent: Option<(string, CreatePayload)>, created: seq<Transaction>)
      modifies this
      ensures var a := old(Parsed());
              SaveEffect(OwnerAsWritten(session), a.0, a.1, a.2, a.3, insertFails, newId, sent, created)
    {
      var a := Parsed();
      sent, created := SaveAmounts(OwnerAsWritten(session), a.0, a.1, a.2, a.3, insertFails, newId);
    }

    /** `handleSaveTransactions` as intended: the same save under the user's
        id, the owner the day view reads by (see `OwnerShowsRows`). */
    method HandleSaveTransactionsIntended(session: Session, insertFails: bool, newId: nat -> string)
      returns (sent: Option<(string, CreatePayload)>, created: seq<Transaction>)
      modifies this
      ensures var a := old(Parsed());
              SaveEffect(Owner(session), a.0, a.1, a.2, a.3, insertFails, newId, sent, created)
    {
      var a := Parsed();
      sent, created := SaveAmounts(Owner(session), a.0, a.1, a.2, a.3, insertFails, newId);
    }

    /** The outcome of a save of the given parsed amounts, in `sent`,
        `created`, `isSaving` and `toast`. */
    ghost predicate SavedAs(owner: string, card: real, cash: real, app: real, expense: real,
                            insertFails: bool, newId: nat -> string, date: Day,
                            sent: Option<(string, CreatePayload)>, created: seq<Transaction>)
      reads this
    {
      if !AnyAmount(card, cash, app, expense) then
        sent == None && created == [] && toast == Some(Toast("Ingresa al menos un monto", ErrorToast))
      else
        var p := SavePayload(date, card, cash, app, expense);
        sent == Some((owner, p)) && !isSaving
        && (insertFails ==> created == [] && toast == Some(Toast("Error al guardar", ErrorToast)))
        && (!insertFails ==>
              created == ReadBack(PayloadRows(owner, p), newId)
              && toast == Some(Toast("Transacciones guardadas exitosamente", SuccessToast)))
    }

    /** The whole effect of a save of the given parsed amounts: its outcome
        (`SavedAs`); `isSaving` untouched when nothing was sent; the four
        fields cleared exactly when the insert succeeded, kept otherwise;
        the selected day kept. */
    twostate predicate SaveEffect(owner: string, card: real, cash: real, app: real, expense: real,
                                  insertFails: bool, newId: nat -> string,
                                  new sent: Option<(string, CreatePayload)>, new created: seq<Transaction>)
      reads this
    {
      var cleared := AnyAmount(card, cash, app, expense) && !insertFails;
      SavedAs(owner, card, cash, app, expense, insertFails, newId, old(selectedDate), sent, created)
      && (!AnyAmount(card, cash, app, expense) ==> isSaving == old(isSaving))
      && (cleared ==> cardAmount == [] && cashAmount == [] && appAmount == [] && expenseAmount == [])
      && (!cleared ==> cardAmount == old(cardAmount) && cashAmount == old(cashAmount)
                       && appAmount == old(appAmount) && expenseAmount == old(expenseAmount))
      && selectedDate == old(selectedDate)
    }

    /** The save itself: an all-zero page shows an error and sends nothing;
        otherwise the payload goes to the service under `owner`, and
        on success the four fields are cleared. `insertFails` stands for the
        outcome of the remote insert; `newId` for the ids it assigns. */
    method SaveAmounts(owner: string, card: real, cash: real, app: real, expense: real,
                       insertFails: bool, newId: nat -> string)
      returns (sent: Option<(string, CreatePayload)>, created: seq<Transaction>)
      modifies this
      ensures SaveEffect(owner, card, cash, app, expense, insertFails, newId, sent, created)
    {
      if card == 0.0 && cash == 0.0 && app == 0.0 && expense == 0.0 {
        toast := Some(Toast("Ingresa al menos un monto", ErrorToast));
        return None, [];
      }
      isSaving := true;
      var payload := SavePayload(selectedDate, card, cash, app, expense);
      sent := Some((owner, payload));
      var rows, inserted, result := CreateTransactions(owner, payload, newId);
      if insertFails {
        created := [];
        toast := Some(Toast("Error al guardar", ErrorToast));
      } else {
        created := result;
        cardAmount, cashAmount, appAmount, expenseAmount := "", "", "", "";
        toast := Some(Toast("Transacciones guardadas exitosamente", SuccessToast));
      }
      isSaving := false;
    }

    /** `onDateChange`: a picked day replaces the selected one; a dismissed
        picker keeps it. */
    method OnDateChange(picked: Option<Day>)
      modifies this
      ensures selectedDate == if picked.Some? then picked.value else old(selectedDate)
      ensures cardAmount == old(cardAmount) && cashAmount == old(cashAmount)
      ensures appAmount == old(appAmount) && expenseAmount == old(expenseAmount)
      ensures isSaving == old(isSaving) && toast == old(toast)
    {
      if picked.Some? {
        selectedDate := picked.value;
      }
    }
  }
}
