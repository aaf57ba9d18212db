/** The derived views of the entries hooks: per-day calendar markers, the
    per-source report aggregate, and the date range a report covers. */
module EntriesHooks {
  import opened Optional
  import opened Calendar
  import opened Ledger

  /** A day's marker: the plain sum of its amounts and whether any entry is an expense. */
  datatype Marker = Marker(total: real, hasExpense: bool)

  /** The `reduce` that builds the markers, applied to the entries in order. */
  function Markers(es: seq<LedgerEntry>): map<Day, Marker>
    decreases |es|
  {
    if es == [] then map[]
    else
      var acc := Markers(es[..|es| - 1]);
      var e := es[|es| - 1];
      var base := if e.entryDate in acc then acc[e.entryDate] else Marker(0.0, false);
      acc[e.entryDate := Marker(base.total + e.amount, base.hasExpense || e.entryType == ExpenseEntry)]
  }

  /** No data yet gives no markers. */
  function MarkersOf(data: Option<seq<LedgerEntry>>): (r: map<Day, Marker>)
    ensures data.None? ==> r == map[]
    ensures data.Some? ==> r.Keys == EntryDates(data.value)
  {
    if data.None? then map[]
    else
      MarkersSpec(data.value);
      Markers(data.value)
  }

  function EntryDates(es: seq<LedgerEntry>): set<Day> {
    set k | 0 <= k < |es| :: es[k].entryDate
  }

  /** The sum of the amounts on day `d`, income and expense alike. */
  function AmountOn(es: seq<LedgerEntry>, d: Day): real
    decreases |es|
  {
    if es == [] then 0.0
    else AmountOn(es[..|es| - 1], d) + (if es[|es| - 1].entryDate == d then es[|es| - 1].amount else 0.0)
  }

  predicate ExpenseOn(es: seq<LedgerEntry>, d: Day) {
    exists k :: 0 <= k < |es| && es[k].entryDate == d && es[k].entryType == ExpenseEntry
  }

  /** There is a marker for exactly the days with entries; its total is the
      sum of that day's amounts, and it flags an expense exactly when one of
      that day's entries is an expense. */
  lemma {:induction false} MarkersSpec(es: seq<LedgerEntry>)
    ensures Markers(es).Keys == EntryDates(es)
    ensures forall d :: d in Markers(es) ==> Markers(es)[d].total == AmountOn(es, d)
    ensures forall d :: d in Markers(es) ==> (Markers(es)[d].hasExpense <==> ExpenseOn(es, d))
    decreases |es|
  {
    if es != [] {
      var n := |es| - 1;
      var init, e := es[..n], es[n];
      MarkersSpec(init);
      assert forall k :: 0 <= k < n ==> init[k] == es[k];
      assert EntryDates(es) == EntryDates(init) + {e.entryDate};
      forall d | d in Markers(es) && d != e.entryDate
        ensures Markers(es)[d].total == AmountOn(es, d)
        ensures Markers(es)[d].hasExpense <==> ExpenseOn(es, d)
      {
        ExpenseOnSnoc(es, d);
      }
      if e.entryDate !in Markers(init) {
        AmountOnAbsent(init, e.entryDate);
        ExpenseOnAbsent(init, e.entryDate);
      }
      ExpenseOnSnoc(es, e.entryDate);
    }
  }

  lemma ExpenseOnSnoc(es: seq<LedgerEntry>, d: Day)
    requires es != []
    ensures ExpenseOn(es, d) <==>
              ExpenseOn(es[..|es| - 1], d) || (es[|es| - 1].entryDate == d && es[|es| - 1].entryType == ExpenseEntry)
  {
    var init := es[..|es| - 1];
    if ExpenseOn(es, d) {
      var k :| 0 <= k < |es| && es[k].entryDate == d && es[k].entryType == ExpenseEntry;
      if k < |es| - 1 {
        assert init[k] == es[k];
      }
    }
    if ExpenseOn(init, d) {
      var k :| 0 <= k < |init| && init[k].entryDate == d && init[k].entryType == ExpenseEntry;
      assert es[k] == init[k];
    }
  }

  lemma {:induction false} AmountOnAbsent(es: seq<LedgerEntry>, d: Day)
    requires d !in EntryDates(es)
    ensures AmountOn(es, d) == 0.0
    decreases |es|
  {
    if es != [] {
      var init := es[..|es| - 1];
      assert EntryDates(init) <= EntryDates(es);
      AmountOnAbsent(init, d);
    }
  }

  lemma ExpenseOnAbsent(es: seq<LedgerEntry>, d: Day)
    requires d !in EntryDates(es)
    ensures !ExpenseOn(es, d)
  {
  }

  /** A source's running income and expense. */
  datatype SourceRecord = SourceRecord(income: real, expense: real)

  /** One line of a report list. */
  datatype SourceAggregate = SourceAggregate(source: LedgerSource, labelText: string, total: real)

  datatype ReportSummary = ReportSummary(totalIncome: real, totalExpense: real,
                                         incomeBySource: seq<SourceAggregate>,
                                         expenseBySource: seq<SourceAggregate>)

  /** The sum of the amounts of type `ty` booked to source `s`. */
  function SourceTotal(es: seq<LedgerEntry>, s: LedgerSource, ty: LedgerEntryType): real
    decreases |es|
  {
    if es == [] then 0.0
    else
      var e := es[|es| - 1];
      SourceTotal(es[..|es| - 1], s, ty) + (if e.source == s && e.entryType == ty then e.amount else 0.0)
  }

  /** The per-source records after the loop over the entries. */
  function Aggregates(es: seq<LedgerEntry>): (r: map<LedgerSource, SourceRecord>)
    ensures forall s: LedgerSource :: s in r
    ensures forall k :: 0 <= k < |SourceKeys| ==> SourceKeys[k] in r
  {
    SourceTable();
    map s: LedgerSource | s in SourceKeys :: RecordOf(es, s)
  }

  /** The record of one source after the loop. */
  function RecordOf(es: seq<LedgerEntry>, s: LedgerSource): SourceRecord {
    SourceRecord(SourceTotal(es, s, IncomeEntry), SourceTotal(es, s, ExpenseEntry))
  }

  lemma RecordsAreAggregates(records: map<LedgerSource, SourceRecord>, es: seq<LedgerEntry>)
    requires forall s: LedgerSource :: s in records && records[s] == RecordOf(es, s)
    ensures records == Aggregates(es)
  {
    SourceTable();
    assert records.Keys == Aggregates(es).Keys;
  }

  function RecordValue(r: SourceRecord, ty: LedgerEntryType): real {
    if ty == IncomeEntry then r.income else r.expense
  }

  /** `Object.entries(aggregates).filter(… > 0).map(…)` over the given keys, in their order. */
  function Listing(keys: seq<LedgerSource>, records: map<LedgerSource, SourceRecord>, ty: LedgerEntryType): seq<SourceAggregate>
    requires forall k :: 0 <= k < |keys| ==> keys[k] in records
  {
    if keys == [] then []
    else
      var v := RecordValue(records[keys[0]], ty);
      (if v > 0.0 then [SourceAggregate(keys[0], Label(keys[0]), v)] else []) + Listing(keys[1..], records, ty)
  }

  /** `reduce((sum, item) => sum + item.total, 0)`. */
  function ListTotal(items: seq<SourceAggregate>): real {
    if items == [] then 0.0 else items[0].total + ListTotal(items[1..])
  }

  /** Reference report for a list of entries. */
  function ReportOf(es: seq<LedgerEntry>): ReportSummary {
    var records := Aggregates(es);
    var income := Listing(SourceKeys, records, IncomeEntry);
    var expense := Listing(SourceKeys, records, ExpenseEntry);
    ReportSummary(ListTotal(income), ListTotal(expense), income, expense)
  }

  /** Each record holds its source's two totals. */
  lemma AggregateValues(es: seq<LedgerEntry>)
    ensures forall s: LedgerSource, ty :: RecordValue(Aggregates(es)[s], ty) == SourceTotal(es, s, ty)
  {
  }

  /** `aggregateBySource`: the four records start at zero, each entry is
      added to its own source's income or expense, then the lists and their
      totals are derived. */
  method AggregateBySource(es: seq<LedgerEntry>) returns (r: ReportSummary)
    ensures r == ReportOf(es)
  {
    var records: map<LedgerSource, SourceRecord> := map[
      CashSource := SourceRecord(0.0, 0.0), CardSource := SourceRecord(0.0, 0.0),
      AppT3Source := SourceRecord(0.0, 0.0), ExpenseSource := SourceRecord(0.0, 0.0)];
    forall s: LedgerSource ensures s in records && records[s] == RecordOf([], s) {
      match s
      case CashSource =>
      case CardSource =>
      case AppT3Source =>
      case ExpenseSource =>
    }
    assert es[..0] == [];
    var i := 0;
    while i < |es|
      invariant 0 <= i <= |es|
      invariant forall s: LedgerSource :: s in records && records[s] == RecordOf(es[..i], s)
    {
      var e := es[i];
      var record := records[e.source];
      if e.entryType == IncomeEntry {
        records := records[e.source := record.(income := record.income + e.amount)];
      } else {
        records := records[e.source := record.(expense := record.expense + e.amount)];
      }
      assert es[..i + 1][..i] == es[..i];
      i := i + 1;
    }
    assert es[..|es|] == es;
    RecordsAreAggregates(records, es);
    var income := Listing(SourceKeys, records, IncomeEntry);
    var expense := Listing(SourceKeys, records, ExpenseEntry);
    r := ReportSummary(ListTotal(income), ListTotal(expense), income, expense);
  }

  /** A report line for a key of `records` with its label and its positive value. */
  predicate GoodLine(item: SourceAggregate, records: map<LedgerSource, SourceRecord>, ty: LedgerEntryType) {
    item.source in records && item.labelText == Label(item.source)
    && item.total == RecordValue(records[item.source], ty) && item.total > 0.0
  }

  /** Every line of a listing is a labelled key with its positive value. */
  lemma {:induction false} ListingSound(keys: seq<LedgerSource>, records: map<LedgerSource, SourceRecord>, ty: LedgerEntryType)
    requires forall k :: 0 <= k < |keys| ==> keys[k] in records
    ensures forall i :: 0 <= i < |Listing(keys, records, ty)| ==>
              GoodLine(Listing(keys, records, ty)[i], records, ty) && Listing(keys, records, ty)[i].source in keys
  {
    if keys != [] {
      ListingSound(keys[1..], records, ty);
      var rest := Listing(keys[1..], records, ty);
      var items := Listing(keys, records, ty);
      var h := |items| - |rest|;
      forall i | 0 <= i < |items| ensures GoodLine(items[i], records, ty) && items[i].source in keys {
        if i >= h {
          assert items[i] == rest[i - h];
          assert rest[i - h].source in keys[1..];
        }
      }
    }
  }

  /** Every key with a positive value has a line. */
  lemma {:induction false} ListingComplete(keys: seq<LedgerSource>, records: map<LedgerSource, SourceRecord>, ty: LedgerEntryType, k: int)
    requires forall j :: 0 <= j < |keys| ==> keys[j] in records
    requires 0 <= k < |keys| && RecordValue(records[keys[k]], ty) > 0.0
    ensures exists i :: 0 <= i < |Listing(keys, records, ty)| && Listing(keys, records, ty)[i].source == keys[k]
  {
    var v := RecordValue(records[keys[0]], ty);
    var head: seq<SourceAggregate> := if v > 0.0 then [SourceAggregate(keys[0], Label(keys[0]), v)] else [];
    var items := Listing(keys, records, ty);
    if k == 0 {
      assert items[0].source == keys[0];
    } else {
      ListingComplete(keys[1..], records, ty, k - 1);
      var i :| 0 <= i < |Listing(keys[1..], records, ty)| && Listing(keys[1..], records, ty)[i].source == keys[k];
      assert items[|head| + i] == Listing(keys[1..], records, ty)[i];
    }
  }

  /** A listing of keys in key order is itself in key order. */
  lemma {:induction false} ListingOrdered(keys: seq<LedgerSource>, records: map<LedgerSource, SourceRecord>, ty: LedgerEntryType)
    requires forall j :: 0 <= j < |keys| ==> keys[j] in records
    requires StrictlyIncreasing(keys)
    ensures LinesInKeyOrder(Listing(keys, records, ty))
  {
    if keys != [] {
      var rest := Listing(keys[1..], records, ty);
      ListingOrdered(keys[1..], records, ty);
      var v := RecordValue(records[keys[0]], ty);
      if v > 0.0 {
        var line := SourceAggregate(keys[0], Label(keys[0]), v);
        assert Listing(keys, records, ty) == [line] + rest;
        ListingSound(keys[1..], records, ty);
        forall j | 0 <= j < |rest| ensures KeyIndex(line.source) < KeyIndex(rest[j].source) {
          KeyAfterHead(keys, rest[j].source);
        }
        PrependLine(line, rest);
      } else {
        assert Listing(keys, records, ty) == rest;
      }
    }
  }

  lemma PrependLine(line: SourceAggregate, rest: seq<SourceAggregate>)
    requires LinesInKeyOrder(rest)
    requires forall j :: 0 <= j < |rest| ==> KeyIndex(line.source) < KeyIndex(rest[j].source)
    ensures LinesInKeyOrder([line] + rest)
  {
    var items := [line] + rest;
    forall i, j | 0 <= i < j < |items| ensures KeyIndex(items[i].source) < KeyIndex(items[j].source) {
      assert items[j] == rest[j - 1];
      if i > 0 {
        assert items[i] == rest[i - 1];
      }
    }
  }

  lemma KeyAfterHead(keys: seq<LedgerSource>, x: LedgerSource)
    requires keys != [] && StrictlyIncreasing(keys) && x in keys[1..]
    ensures KeyIndex(keys[0]) < KeyIndex(x)
  {
    var j :| 0 <= j < |keys[1..]| && keys[1..][j] == x;
    assert keys[j + 1] == x;
  }

  /** Keys in strictly increasing key order, so each at most once. */
  predicate StrictlyIncreasing(keys: seq<LedgerSource>) {
    forall i, j :: 0 <= i < j < |keys| ==> KeyIndex(keys[i]) < KeyIndex(keys[j])
  }

  /** Report lines in strictly increasing key order, so each source at most once. */
  predicate LinesInKeyOrder(items: seq<SourceAggregate>) {
    forall i, j :: 0 <= i < j < |items| ==> KeyIndex(items[i].source) < KeyIndex(items[j].source)
  }

  /** One list of the report: exactly the sources with a positive total of
      that type, in key order, labelled, with that total. */
  lemma ReportListSpec(es: seq<LedgerEntry>, ty: LedgerEntryType)
    ensures var items := Listing(SourceKeys, Aggregates(es), ty);
            (forall s: LedgerSource :: (exists i :: 0 <= i < |items| && items[i].source == s)
                                       <==> SourceTotal(es, s, ty) > 0.0)
            && (forall i :: 0 <= i < |items| ==>
                  items[i].total == SourceTotal(es, items[i].source, ty) && items[i].labelText == Label(items[i].source))
            && LinesInKeyOrder(items)
  {
    var records := Aggregates(es);
    var items := Listing(SourceKeys, records, ty);
    ReportListMembers(es, ty);
    ReportListLines(es, ty);
    SourceKeysIncreasing();
    ListingOrdered(SourceKeys, records, ty);
  }

  /** The key order lists each source at its own index. */
  lemma SourceKeysIncreasing()
    ensures StrictlyIncreasing(SourceKeys)
  {
    assert forall i :: 0 <= i < |SourceKeys| ==> KeyIndex(SourceKeys[i]) == i by {
      assert SourceKeys == [CashSource, CardSource, AppT3Source, ExpenseSource];
    }
  }

  /** A source is listed exactly when its total of that type is positive. */
  lemma ReportListMembers(es: seq<LedgerEntry>, ty: LedgerEntryType)
    ensures var items := Listing(SourceKeys, Aggregates(es), ty);
            forall s: LedgerSource :: (exists i :: 0 <= i < |items| && items[i].source == s)
                                      <==> SourceTotal(es, s, ty) > 0.0
  {
    AggregateValues(es);
    var records := Aggregates(es);
    var items := Listing(SourceKeys, records, ty);
    ListingSound(SourceKeys, records, ty);
    forall s: LedgerSource | SourceTotal(es, s, ty) > 0.0
      ensures exists i :: 0 <= i < |items| && items[i].source == s
    {
      ListingComplete(SourceKeys, records, ty, KeyIndex(s));
    }
  }

  /** Each listed line carries its source's label and total. */
  lemma ReportListLines(es: seq<LedgerEntry>, ty: LedgerEntryType)
    ensures var items := Listing(SourceKeys, Aggregates(es), ty);
            forall i :: 0 <= i < |items| ==>
              items[i].total == SourceTotal(es, items[i].source, ty) && items[i].labelText == Label(items[i].source)
  {
    AggregateValues(es);
    ListingSound(SourceKeys, Aggregates(es), ty);
  }

  /** The report lists exactly the sources with a positive income (resp.
      expense) total, each once, in key order, labelled, with that total;
      and each list total is the sum of its lines. */
  lemma ReportSpec(es: seq<LedgerEntry>)
    ensures var r := ReportOf(es);
            (forall s: LedgerSource :: (exists i :: 0 <= i < |r.incomeBySource| && r.incomeBySource[i].source == s)
                                       <==> SourceTotal(es, s, IncomeEntry) > 0.0)
            && (forall i :: 0 <= i < |r.incomeBySource| ==>
                  r.incomeBySource[i].total == SourceTotal(es, r.incomeBySource[i].source, IncomeEntry)
                  && r.incomeBySource[i].labelText == Label(r.incomeBySource[i].source))
            && LinesInKeyOrder(r.incomeBySource)
            && r.totalIncome == ListTotal(r.incomeBySource)
    ensures var r := ReportOf(es);
            (forall s: LedgerSource :: (exists i :: 0 <= i < |r.expenseBySource| && r.expenseBySource[i].source == s)
                                       <==> SourceTotal(es, s, ExpenseEntry) > 0.0)
            && (forall i :: 0 <= i < |r.expenseBySource| ==>
                  r.expenseBySource[i].total == SourceTotal(es, r.expenseBySource[i].source, ExpenseEntry)
                  && r.expenseBySource[i].labelText == Label(r.expenseBySource[i].source))
            && LinesInKeyOrder(r.expenseBySource)
            && r.totalExpense == ListTotal(r.expenseBySource)
  {
    ReportListSpec(es, IncomeEntry);
    ReportListSpec(es, ExpenseEntry);
    assert ReportOf(es).incomeBySource == Listing(SourceKeys, Aggregates(es), IncomeEntry);
    assert ReportOf(es).expenseBySource == Listing(SourceKeys, Aggregates(es), ExpenseEntry);
  }

  /** The sum of every amount of type `ty`, whatever its source. */
  function TypeTotal(es: seq<LedgerEntry>, ty: LedgerEntryType): real
    decreases |es|
  {
    if es == [] then 0.0
    else TypeTotal(es[..|es| - 1], ty) + (if es[|es| - 1].entryType == ty then es[|es| - 1].amount else 0.0)
  }

  /** The four source totals of a type add up to that type's total. */
  lemma {:induction false} SourcesCoverType(es: seq<LedgerEntry>, ty: LedgerEntryType)
    ensures SourceTotal(es, CashSource, ty) + SourceTotal(es, CardSource, ty)
            + SourceTotal(es, AppT3Source, ty) + SourceTotal(es, ExpenseSource, ty) == TypeTotal(es, ty)
    decreases |es|
  {
    if es != [] {
      SourcesCoverType(es[..|es| - 1], ty);
    }
  }

  /** The sum of the values of the given keys. */
  function KeySum(keys: seq<LedgerSource>, records: map<LedgerSource, SourceRecord>, ty: LedgerEntryType): real
    requires forall k :: 0 <= k < |keys| ==> keys[k] in records
  {
    if keys == [] then 0.0 else RecordValue(records[keys[0]], ty) + KeySum(keys[1..], records, ty)
  }

  /** Dropping the keys whose value is not positive loses nothing when no value is negative. */
  lemma {:induction false} ListingKeySum(keys: seq<LedgerSource>, records: map<LedgerSource, SourceRecord>, ty: LedgerEntryType)
    requires forall k :: 0 <= k < |keys| ==> keys[k] in records && RecordValue(records[keys[k]], ty) >= 0.0
    ensures ListTotal(Listing(keys, records, ty)) == KeySum(keys, records, ty)
  {
    if keys != [] {
      ListingKeySum(keys[1..], records, ty);
      var v := RecordValue(records[keys[0]], ty);
      var items := Listing(keys, records, ty);
      if v > 0.0 {
        assert items[0].total == v;
        assert items[1..] == Listing(keys[1..], records, ty);
      } else {
        assert v == 0.0;
        assert items == Listing(keys[1..], records, ty);
      }
    }
  }

  /** The report's total income (resp. expense). */
  function ReportTotal(r: ReportSummary, ty: LedgerEntryType): real {
    if ty == IncomeEntry then r.totalIncome else r.totalExpense
  }

  /** With non-negative amounts, a source dropped from a list has total 0,
      so each list total is the whole total of its type. */
  lemma ReportTotalIsTypeTotal(es: seq<LedgerEntry>, ty: LedgerEntryType)
    requires forall k :: 0 <= k < |es| ==> es[k].amount >= 0.0
    ensures ReportTotal(ReportOf(es), ty) == TypeTotal(es, ty)
  {
    AggregateValues(es);
    var records := Aggregates(es);
    NonNegativeSource(es, CashSource, ty);
    NonNegativeSource(es, CardSource, ty);
    NonNegativeSource(es, AppT3Source, ty);
    NonNegativeSource(es, ExpenseSource, ty);
    ListingKeySum(SourceKeys, records, ty);
    KeySumSources(records, ty);
    SourcesCoverType(es, ty);
  }

  /** The sum over the four keys, written out. */
  lemma KeySumSources(records: map<LedgerSource, SourceRecord>, ty: LedgerEntryType)
    requires forall s: LedgerSource :: s in records
    ensures KeySum(SourceKeys, records, ty) ==
              RecordValue(records[CashSource], ty) + RecordValue(records[CardSource], ty)
              + RecordValue(records[AppT3Source], ty) + RecordValue(records[ExpenseSource], ty)
  {
    var k1 := SourceKeys[1..];
    assert k1 == [CardSource, AppT3Source, ExpenseSource];
    assert k1[1..] == [AppT3Source, ExpenseSource];
    assert k1[1..][1..] == [ExpenseSource];
    assert k1[1..][1..][1..] == [];
    assert KeySum(k1[1..][1..], records, ty) == RecordValue(records[ExpenseSource], ty);
    assert KeySum(k1[1..], records, ty) == RecordValue(records[AppT3Source], ty) + RecordValue(records[ExpenseSource], ty);
  }

  lemma {:induction false} NonNegativeSource(es: seq<LedgerEntry>, s: LedgerSource, ty: LedgerEntryType)
    requires forall k :: 0 <= k < |es| ==> es[k].amount >= 0.0
    ensures SourceTotal(es, s, ty) >= 0.0
    decreases |es|
  {
    if es != [] {
      NonNegativeSource(es[..|es| - 1], s, ty);
    }
  }

  datatype ReportMode = MonthMode | YearMode

  /** `useReportSummary`'s range: the month containing the reference day in
      month mode, its year in year mode. Exactly the valid days of that
      period lie in the range. */
  function ReportRange(reference: Day, mode: ReportMode): (r: (Day, Day))
    requires reference.Valid()
    ensures forall d: Day :: d.Valid() ==>
              ((NotAfter(r.0, d) && NotAfter(d, r.1)) <==>
               (d.year == reference.year && (mode == MonthMode ==> d.month == reference.month)))
  {
    if mode == MonthMode then MonthBounds(reference) else YearBounds(reference)
  }

  /** Summary data is only derived once the query has data. */
  function ReportSummaryOf(data: Option<seq<LedgerEntry>>): (r: Option<ReportSummary>)
    ensures r.Some? <==> data.Some?
    ensures data.Some? ==> r.value == ReportOf(data.value)
  {
    if data.Some? then Some(ReportOf(data.value)) else None
  }
}
