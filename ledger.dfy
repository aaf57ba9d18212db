/** The second ledger model: entries that carry an explicit type and source
    instead of a signed amount, and the fixed list of sources with their
    display labels. */
module Ledger {
  import opened Optional
  import opened Calendar

  /** Where an entry's money came from or went to (`cash`, `card`, `app_t3`, `expense`). */
  datatype LedgerSource = CashSource | CardSource | AppT3Source | ExpenseSource

  datatype LedgerEntryType = IncomeEntry | ExpenseEntry

  /** A ledger entry; the timestamps are not modelled. */
  datatype LedgerEntry = LedgerEntry(id: string, amount: real, entryDate: Day, entryType: LedgerEntryType,
                                     source: LedgerSource, note: Option<string>)

  /** The fields sent to create or update an entry. */
  datatype UpsertLedgerEntry = UpsertLedgerEntry(amount: real, entryDate: Day, entryType: LedgerEntryType,
                                                 source: LedgerSource, note: Option<string>)

  /** The sources in the key order of the descriptor table. */
  const SourceKeys: seq<LedgerSource> := [CashSource, CardSource, AppT3Source, ExpenseSource]

  /** The position of a source in `SourceKeys`. */
  function KeyIndex(s: LedgerSource): (i: nat)
    ensures i < |SourceKeys| && SourceKeys[i] == s
  {
    match s
    case CashSource => 0
    case CardSource => 1
    case AppT3Source => 2
    case ExpenseSource => 3
  }

  /** The display label of a source. */
  function Label(s: LedgerSource): string {
    match s
    case CashSource => "Efectivo"
    case CardSource => "Tarjeta"
    case AppT3Source => "App T3"
    case ExpenseSource => "Gastos"
  }

  /** Every source appears in the key order exactly once, and no two
      sources share a label. */
  lemma SourceTable()
    ensures forall s: LedgerSource :: s in SourceKeys
    ensures forall i, j :: 0 <= i < j < |SourceKeys| ==> SourceKeys[i] != SourceKeys[j]
    ensures forall s, t: LedgerSource :: s != t ==> Label(s) != Label(t)
  {
    forall s: LedgerSource ensures s in SourceKeys {
      assert SourceKeys[KeyIndex(s)] == s;
    }
  }

  /** The sources offered for income, and for expense. */
  const IncomeSources: seq<LedgerSource> := [CashSource, CardSource, AppT3Source]
  const ExpenseSources: seq<LedgerSource> := [ExpenseSource]
}
