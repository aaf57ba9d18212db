/** The daily screen: the day's income and expense totals, the calendar
    marks built from the month's markers, and the create-or-update dispatch
    of a submitted entry form. */
module DailyScreen {
  import opened Optional
  import opened Calendar
  import opened Ledger
  import opened EntriesHooks
  import opened EntryFormModal

  // ---------------------------------------------------------------------------
  // Day totals
  // ---------------------------------------------------------------------------

  /** `dailyTotals`: the `reduce` over the day's entries (none while the
      query has no data), with income going to `income` and every other
      entry to `expense`. */
  method DailyTotals(data: Option<seq<LedgerEntry>>) returns (income: real, expense: real)
    ensures var es := data.GetOr([]);
            income == TypeTotal(es, IncomeEntry) && expense == TypeTotal(es, ExpenseEntry)
  {
    var entries := data.GetOr([]);
    income, expense := 0.0, 0.0;
    var i := 0;
    while i < |entries|
      invariant 0 <= i <= |entries|
      invariant income == TypeTotal(entries[..i], IncomeEntry)
      invariant expense == TypeTotal(entries[..i], ExpenseEntry)
    {
      assert entries[..i + 1][..i] == entries[..i];
      var entry := entries[i];
      if entry.entryType == IncomeEntry {
        income := income + entry.amount;
      } else {
        expense := expense + entry.amount;
      }
      i := i + 1;
    }
    assert entries[..i] == entries;
  }

  /** Income and expense together are every amount of the entries: on the
      entries of one day, the day's total that its marker shows. */
  lemma {:induction false} DayTotalsSplit(es: seq<LedgerEntry>, d: Day)
    requires forall k :: 0 <= k < |es| ==> es[k].entryDate == d
    ensures TypeTotal(es, IncomeEntry) + TypeTotal(es, ExpenseEntry) == AmountOn(es, d)
    decreases |es|
  {
    if es != [] {
      DayTotalsSplit(es[..|es| - 1], d);
    }
  }

  /** For a day with entries, the two totals add up to that day's marker. */
  lemma DayTotalsMatchMarker(es: seq<LedgerEntry>, d: Day)
    requires es != [] && forall k :: 0 <= k < |es| ==> es[k].entryDate == d
    ensures d in Markers(es)
    ensures TypeTotal(es, IncomeEntry) + TypeTotal(es, ExpenseEntry) == Markers(es)[d].total
  {
    MarkersSpec(es);
    assert es[0].entryDate in EntryDates(es);
    DayTotalsSplit(es, d);
  }

  // ---------------------------------------------------------------------------
  // Calendar marks
  // ---------------------------------------------------------------------------

  /** The background colours of a mark. */
  datatype MarkColor = PrimaryColor | DangerColor | PrimaryAltColor

  /** A mark's custom style: its background and its font weight; the
      radius 12 and the white text are the same for every mark. */
  datatype MarkStyle = MarkStyle(background: MarkColor, fontWeight: string)

  const SelectedWeight := "700"
  const OtherWeight := "600"

  /** The style a marked day gets: the selected day is primary and bold;
      another day is danger when it has an expense, primaryAlt otherwise. */
  function StyleFor(markers: map<Day, Marker>, selected: Day, d: Day): (s: MarkStyle)
    requires d in markers || d == selected
    ensures d == selected ==> s == MarkStyle(PrimaryColor, SelectedWeight)
    ensures d != selected ==> s.fontWeight == OtherWeight
                              && (s.background == DangerColor <==> markers[d].hasExpense)
                              && s.background != PrimaryColor
  {
    if d == selected then MarkStyle(PrimaryColor, SelectedWeight)
    else MarkStyle(if markers[d].hasExpense then DangerColor else PrimaryAltColor, OtherWeight)
  }

  /** `markedDates`: one mark per marker day, styled as `StyleFor` says,
      then the selected day when it had none. */
  method MarkedDates(markers: map<Day, Marker>, selected: Day) returns (config: map<Day, MarkStyle>)
    ensures config.Keys == markers.Keys + {selected}
    ensures forall d :: d in config ==> config[d] == StyleFor(markers, selected, d)
  {
    config := map[];
    var remaining := markers.Keys;
    while remaining != {}
      invariant remaining <= markers.Keys
      invariant config.Keys == markers.Keys - remaining
      invariant forall d :: d in config ==> config[d] == StyleFor(markers, selected, d)
      decreases |remaining|
    {
      var date :| date in remaining;
      var isSelected := date == selected;
      var baseColor := if markers[date].hasExpense then DangerColor else PrimaryAltColor;
      config := config[date := MarkStyle(if isSelected then PrimaryColor else baseColor,
                                         if isSelected then SelectedWeight else OtherWeight)];
      remaining := remaining - {date};
    }
    if selected !in config {
      config := config[selected := MarkStyle(PrimaryColor, SelectedWeight)];
    }
  }

  /** With the month's markers, a day other than the selected one is marked
      in danger exactly when one of its entries is an expense, and every
      marked day other than the selected one has an entry. */
  lemma MarksFollowEntries(es: seq<LedgerEntry>, selected: Day, d: Day)
    requires d in Markers(es) && d != selected
    ensures StyleFor(Markers(es), selected, d).background == DangerColor <==> ExpenseOn(es, d)
    ensures d in EntryDates(es)
  {
    MarkersSpec(es);
  }

  // ---------------------------------------------------------------------------
  // Submit dispatch
  // ---------------------------------------------------------------------------

  /** The mutation a submit runs. */
  datatype Mutation = Create(payload: UpsertLedgerEntry) | Update(id: string, payload: UpsertLedgerEntry)

  /** `handleSubmit`: an update when an id is given (a non-empty string, since
      `if (id)` treats '' as absent), a create otherwise. */
  function Dispatch(payload: UpsertLedgerEntry, id: Option<string>): (m: Mutation)
    ensures m.payload == payload
    ensures m.Update? <==> id.Some? && id.value != ""
    ensures m.Update? ==> m.id == id.value
  {
    if id.Some? && id.value != "" then Update(id.value, payload) else Create(payload)
  }

  /** A form opened on a stored entry (with an id) updates that entry, and
      a form opened empty creates one. */
  lemma FormDispatch(entry: Option<LedgerEntry>, amountText: string, today: Day)
    requires Submission(InitialForm(entry, amountText, today), if entry.Some? then Some(entry.value.id) else None).Submitted?
    ensures var r := Submission(InitialForm(entry, amountText, today), if entry.Some? then Some(entry.value.id) else None);
            var m := Dispatch(r.payload, r.id);
            (entry.None? ==> m.Create?) && (entry.Some? && entry.value.id != "" ==> m == Update(entry.value.id, r.payload))
  {
  }

  /** An alert: a title and a message. */
  datatype Alert = Alert(title: string, message: string)

  const ErrorTitle := "Error"
  const CreateErrorMessage := "No se pudo guardar el movimiento. Intenta de nuevo."
  const UpdateErrorMessage := "No se pudo actualizar el movimiento."

  /** The part of the screen's state a submit changes. */
  class DailyScreenState {
    var modalVisible: bool
    var entryToEdit: Option<LedgerEntry>

    constructor ()
      ensures !modalVisible && entryToEdit == None
    {
      modalVisible, entryToEdit := false, None;
    }

    /** `openCreate`. */
    method OpenCreate()
      modifies this
      ensures modalVisible && entryToEdit == None
    {
      entryToEdit := None;
      modalVisible := true;
    }

    /** `openEdit`. */
    method OpenEdit(entry: LedgerEntry)
      modifies this
      ensures modalVisible && entryToEdit == Some(entry)
    {
      entryToEdit := Some(entry);
      modalVisible := true;
    }

    /** `handleSubmit` with `handleCreate` and `handleUpdate`: the mutation
        is run; on success the modal closes (and an update forgets the edited
        entry), on failure the matching alert is raised and nothing changes. */
    method HandleSubmit(payload: UpsertLedgerEntry, id: Option<string>, fails: bool)
      returns (ran: Mutation, alert: Option<Alert>)
      modifies this
      ensures ran == Dispatch(payload, id)
      ensures fails ==> modalVisible == old(modalVisible) && entryToEdit == old(entryToEdit)
                        && alert == Some(Alert(ErrorTitle, if ran.Update? then UpdateErrorMessage else CreateErrorMessage))
      ensures !fails ==> !modalVisible && alert == None
                         && entryToEdit == (if ran.Update? then None else old(entryToEdit))
    {
      ran := Dispatch(payload, id);
      alert := None;
      match ran {
        case Create(_) =>
          if fails {
            alert := Some(Alert(ErrorTitle, CreateErrorMessage));
          } else {
            modalVisible := false;
          }
        case Update(_, _) =>
          if fails {
            alert := Some(Alert(ErrorTitle, UpdateErrorMessage));
          } else {
            modalVisible := false;
            entryToEdit := None;
          }
      }
    }
  }
}
