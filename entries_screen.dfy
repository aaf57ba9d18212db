/** The entries screen of the first, category-based ledger: the draft the
    new-entry modal edits, the amount-text conversion, the checks before a
    save, the record it sends, and the list's colour and label rules. */
module EntriesScreen {
  import opened Optional
  import opened Text
  import opened Numbers
  import opened Calendar

  /** A stored entry of the first ledger; the creation time is not modelled. */
  datatype Entry = Entry(id: string, userId: string, entryDate: Day, category: Option<string>,
                         amount: real, note: Option<string>)

  /** The draft the modal edits. `amount` is a JavaScript number, so it may
      be an infinity; `note` may be missing. */
  datatype EntryDraft = EntryDraft(entryDate: Day, category: string, amount: Num, note: Option<string>)

  /** The record handed to `createEntry`, with `null` for a missing note. */
  datatype EntryPayload = EntryPayload(entryDate: Day, category: string, amount: Num, note: Option<string>)

  /** An alert: a title and an optional message. */
  datatype Alert = Alert(title: string, message: Option<string>)

  const CategoryRequiredTitle := "Categor\U{00ED}a requerida"
  const InvalidAmountTitle := "Monto inv\U{00E1}lido"
  const ErrorTitle := "Error"
  const SaveErrorMessage := "No pudimos guardar el movimiento."
  const LoadErrorMessage := "No pudimos cargar tus movimientos."
  const NoCategoryLabel := "Sin categor\U{00ED}a"

  /** The draft `handleOpenModal` starts from: today's date, no category,
      amount 0 and an empty note. */
  function FreshDraft(today: Day): (d: EntryDraft)
    ensures d.entryDate == today && d.category == [] && d.amount == Finite(0.0) && d.note == Some([])
  {
    EntryDraft(today, "", Finite(0.0), Some(""))
  }

  /** `Number(value.replace(',', '.')) || 0`: the typed text with its first
      ',' read as the decimal point, `NaN` (the only falsy value besides 0)
      read as 0. */
  function AmountFromText(value: string): (r: Num)
    ensures r != NaN
    ensures r == Finite(0.0) || r == StringToNumber(ReplaceFirst(value, ',', '.'))
    ensures StringToNumber(ReplaceFirst(value, ',', '.')) != NaN ==> r == StringToNumber(ReplaceFirst(value, ',', '.'))
  {
    var n := StringToNumber(ReplaceFirst(value, ',', '.'));
    if n == NaN || n == Finite(0.0) then Finite(0.0) else n
  }

  /** A decimal typed with a comma or a point becomes the number it spells. */
  lemma AmountFromTextDecimal(ip: string, fp: string)
    requires AllDigitsIn(ip, 10) && AllDigitsIn(fp, 10) && (ip != [] || fp != [])
    ensures AmountFromText(ip + "," + fp) == Finite(DecimalValue(ip, fp))
    ensures AmountFromText(ip + "." + fp) == Finite(DecimalValue(ip, fp))
  {
    CommaDecimal(ip, fp);
    StringToNumberDecimal(ip, fp);
    var s := ip + "." + fp;
    assert FirstIndex(s, ',') == |s| by {
      forall k | 0 <= k < |s| ensures s[k] != ',' {
        if k < |ip| { assert s[k] == ip[k]; } else if k > |ip| { assert s[k] == fp[k - |ip| - 1]; }
      }
    }
  }

  /** Blank text is the number 0. */
  lemma AmountFromBlank(value: string)
    requires AllSpace(value)
    ensures AmountFromText(value) == Finite(0.0)
  {
    assert FirstIndex(value, ',') == |value|;
    TrimEmptyIffAllSpace(value);
  }

  /** The first failing check of `handleSubmitEntry`: a blank category, then
      an amount that is `NaN` or exactly 0. */
  function DraftFailure(d: EntryDraft): (r: Option<string>)
    ensures r.None? <==> !AllSpace(d.category) && d.amount != NaN && d.amount != Finite(0.0)
    ensures AllSpace(d.category) ==> r == Some(CategoryRequiredTitle)
    ensures !AllSpace(d.category) && (d.amount == NaN || d.amount == Finite(0.0)) ==> r == Some(InvalidAmountTitle)
  {
    TrimEmptyIffAllSpace(d.category);
    if Trim(d.category) == [] then Some(CategoryRequiredTitle)
    else if d.amount == NaN || d.amount == Finite(0.0) then Some(InvalidAmountTitle)
    else None
  }

  /** Only zero is refused: a negative amount, and an infinity, pass, and so
      does a category with white space around it. */
  lemma NegativeAmountAccepted(d: EntryDraft)
    requires !AllSpace(d.category)
    requires d.amount.Infinite? || (d.amount.Finite? && d.amount.value < 0.0)
    ensures DraftFailure(d) == None
  {
  }

  /** A fresh draft is never saved as it is: it has no category. */
  lemma FreshDraftRefused(today: Day)
    ensures DraftFailure(FreshDraft(today)) == Some(CategoryRequiredTitle)
  {
  }

  /** `{ ...draft, amount: Number(draft.amount), note: draft.note?.trim() ?? null }`. */
  function DraftPayload(d: EntryDraft): (p: EntryPayload)
    ensures p.entryDate == d.entryDate && p.category == d.category && p.amount == d.amount
    ensures p.note.None? <==> d.note.None?
    ensures p.note.Some? ==> p.note.value == Trim(d.note.value)
  {
    EntryPayload(d.entryDate, d.category, d.amount, if d.note.Some? then Some(Trim(d.note.value)) else None)
  }

  /** The note is trimmed but never dropped: an empty or blank note is sent
      as the empty text, and a second trim changes nothing. */
  lemma PayloadNoteKept(d: EntryDraft)
    requires d.note.Some?
    ensures DraftPayload(d).note.Some?
    ensures AllSpace(d.note.value) ==> DraftPayload(d).note == Some([])
    ensures Trim(DraftPayload(d).note.value) == DraftPayload(d).note.value
  {
    TrimEmptyIffAllSpace(d.note.value);
    TrimIdempotent(d.note.value);
  }

  /** The colour an amount is shown in. */
  datatype Tone = PositiveTone | NegativeTone

  /** `item.amount >= 0 ? palette.positive : palette.negative`. */
  function AmountTone(amount: real): (t: Tone)
    ensures t == PositiveTone <==> amount >= 0.0
  {
    if amount >= 0.0 then PositiveTone else NegativeTone
  }

  /** `item.category ?? 'Sin categoría'`. */
  function CategoryLabel(e: Entry): (r: string)
    ensures e.category.Some? ==> r == e.category.value
    ensures e.category.None? ==> r == NoCategoryLabel
  {
    e.category.GetOr(NoCategoryLabel)
  }

  /** The screen's state. */
  class EntriesScreenState {
    var entries: seq<Entry>
    var loading: bool
    var modalVisible: bool
    var draft: EntryDraft

    constructor (today: Day)
      ensures entries == [] && !loading && !modalVisible && draft == FreshDraft(today)
    {
      entries, loading, modalVisible := [], false, false;
      draft := FreshDraft(today);
    }

    /** `handleOpenModal`. */
    method HandleOpenModal(today: Day)
      modifies this
      ensures draft == FreshDraft(today) && modalVisible
      ensures entries == old(entries) && loading == old(loading)
    {
      draft := FreshDraft(today);
      modalVisible := true;
    }

    /** The amount field's `onChangeText`, given the typed `value`. */
    method OnAmountText(value: string)
      modifies this
      ensures draft == old(draft).(amount := AmountFromText(value))
      ensures entries == old(entries) && loading == old(loading) && modalVisible == old(modalVisible)
    {
      var amount := AmountFromText(value);
      SetAmount(amount);
    }

    /** Stores a converted amount in the draft. */
    method SetAmount(amount: Num)
      modifies this
      ensures draft == old(draft).(amount := amount)
      ensures entries == old(entries) && loading == old(loading) && modalVisible == old(modalVisible)
    {
      draft := draft.(amount := amount);
    }

    /** The category field's `onChangeText`. */
    method OnCategoryText(value: string)
      modifies this
      ensures draft == old(draft).(category := value)
      ensures entries == old(entries) && loading == old(loading) && modalVisible == old(modalVisible)
    {
      draft := draft.(category := value);
    }

    /** The note field's `onChangeText`. */
    method OnNoteText(value: string)
      modifies this
      ensures draft == old(draft).(note := Some(value))
      ensures entries == old(entries) && loading == old(loading) && modalVisible == old(modalVisible)
    {
      draft := draft.(note := Some(value));
    }

    /** `loadEntries(showSpinner)`, where `fetched` is what `fetchEntries`
        returned (nothing when it threw): the list is replaced, or an alert
        is raised and the list kept; the spinner is off at the end when it
        was used. */
    method LoadEntries(fetched: Option<seq<Entry>>, showSpinner: bool) returns (alerts: seq<Alert>)
      modifies this
      ensures fetched.Some? ==> entries == fetched.value && alerts == []
      ensures fetched.None? ==> entries == old(entries) && alerts == [Alert(ErrorTitle, Some(LoadErrorMessage))]
      ensures loading == (if showSpinner then false else old(loading))
      ensures draft == old(draft) && modalVisible == old(modalVisible)
    {
      if showSpinner {
        loading := true;
      }
      alerts := [];
      match fetched {
        case Some(data) => entries := data;
        case None => alerts := [Alert(ErrorTitle, Some(LoadErrorMessage))];
      }
      if showSpinner {
        loading := false;
      }
    }

    /** `handleSubmitEntry`. A failing check raises its alert and changes
        nothing. Otherwise the payload is sent (`sent`); when `createEntry`
        fails the error alert is raised and the modal stays open, else the
        modal closes and the list is reloaded with `fetched`. */
    method HandleSubmitEntry(createFails: bool, fetched: Option<seq<Entry>>)
      returns (sent: Option<EntryPayload>, alerts: seq<Alert>)
      modifies this
      ensures var failure := DraftFailure(old(draft));
              failure.Some? ==>
                sent == None && alerts == [Alert(failure.value, None)]
                && entries == old(entries) && loading == old(loading) && modalVisible == old(modalVisible)
      ensures DraftFailure(old(draft)).None? ==> sent == Some(DraftPayload(old(draft)))
      ensures DraftFailure(old(draft)).None? && createFails ==>
                alerts == [Alert(ErrorTitle, Some(SaveErrorMessage))]
                && entries == old(entries) && loading == old(loading) && modalVisible == old(modalVisible)
      ensures DraftFailure(old(draft)).None? && !createFails ==>
                !modalVisible && !loading
                && (fetched.Some? ==> entries == fetched.value && alerts == [])
                && (fetched.None? ==> entries == old(entries) && alerts == [Alert(ErrorTitle, Some(LoadErrorMessage))])
      ensures draft == old(draft)
    {
      var failure := DraftFailure(draft);
      var payload := DraftPayload(draft);
      sent, alerts := Submit(failure, payload, createFails, fetched);
    }

    /** The steps of `handleSubmitEntry` once the draft has been checked
        (`failure`) and turned into its record (`payload`). */
    method Submit(failure: Option<string>, payload: EntryPayload, createFails: bool, fetched: Option<seq<Entry>>)
      returns (sent: Option<EntryPayload>, alerts: seq<Alert>)
      modifies this
      ensures failure.Some? ==>
                sent == None && alerts == [Alert(failure.value, None)]
                && entries == old(entries) && loading == old(loading) && modalVisible == old(modalVisible)
      ensures failure.None? ==> sent == Some(payload)
      ensures failure.None? && createFails ==>
                alerts == [Alert(ErrorTitle, Some(SaveErrorMessage))]
                && entries == old(entries) && loading == old(loading) && modalVisible == old(modalVisible)
      ensures failure.None? && !createFails ==>
                !modalVisible && !loading
                && (fetched.Some? ==> entries == fetched.value && alerts == [])
                && (fetched.None? ==> entries == old(entries) && alerts == [Alert(ErrorTitle, Some(LoadErrorMessage))])
      ensures draft == old(draft)
    {
      if failure.Some? {
        return None, [Alert(failure.value, None)];
      }
      sent := Some(payload);
      if createFails {
        return sent, [Alert(ErrorTitle, Some(SaveErrorMessage))];
      }
      modalVisible := false;
      alerts := LoadEntries(fetched, true);
    }
  }
}
