/** The entry form of the daily screen: the sources it offers for each
    type, the type switch, the reset when it opens, and what a submit hands
    to its caller. */
module EntryFormModal {
  import opened Optional
  import opened Text
  import opened Numbers
  import opened Calendar
  import opened Ledger

  /** The form's fields; `amount` and `note` are the texts as typed. */
  datatype FormState = FormState(amount: string, note: string, entryType: LedgerEntryType,
                                 source: LedgerSource, entryDate: Day)

  /** A source fits a type when it is `expense` exactly for expenses. */
  predicate SourceFits(t: LedgerEntryType, s: LedgerSource) {
    (s == ExpenseSource) == (t == ExpenseEntry)
  }

  /** `sourceOptions`: the income sources for income, `['expense']` for
      expense; exactly the sources that fit the type. */
  function SourceOptions(t: LedgerEntryType): (r: seq<LedgerSource>)
    ensures r != []
    ensures forall s :: s in r <==> SourceFits(t, s)
  {
    if t == IncomeEntry then IncomeSources else ExpenseSources
  }

  /** A form whose source is one of the options its type offers. */
  predicate Consistent(f: FormState) {
    f.source in SourceOptions(f.entryType)
  }

  /** The source a type switch selects: `cash` for income, `expense` for expense. */
  function DefaultSource(t: LedgerEntryType): (s: LedgerSource)
    ensures SourceFits(t, s)
  {
    if t == IncomeEntry then CashSource else ExpenseSource
  }

  /** `handleTypeChange`: the new type with its default source; the other
      fields are kept. */
  function TypeChanged(f: FormState, next: LedgerEntryType): (r: FormState)
    ensures r.entryType == next && Consistent(r)
    ensures r.amount == f.amount && r.note == f.note && r.entryDate == f.entryDate
  {
    f.(entryType := next, source := DefaultSource(next))
  }

  /** Switching twice is switching once, and switching to the type the
      form already has changes nothing exactly when its source is that
      type's default. */
  lemma TypeChangeIdempotent(f: FormState, next: LedgerEntryType)
    ensures TypeChanged(TypeChanged(f, next), next) == TypeChanged(f, next)
    ensures TypeChanged(f, f.entryType) == f <==> f.source == DefaultSource(f.entryType)
  {
  }

  /** `handleSourceChange` keeps the form consistent exactly when the new
      source is one of the offered options. */
  lemma SourceChangeConsistent(f: FormState, s: LedgerSource)
    ensures Consistent(f.(source := s)) <==> s in SourceOptions(f.entryType)
    ensures f.(source := s).entryType == f.entryType
  {
  }

  /** The form the reset effect builds: an entry's fields (`amountText`
      is `entry.amount.toString()`, a missing note read as ''), or an empty
      income in cash dated `today`. */
  function InitialForm(entry: Option<LedgerEntry>, amountText: string, today: Day): (r: FormState)
    ensures entry.None? ==> r == FormState("", "", IncomeEntry, CashSource, today)
    ensures entry.Some? ==> r.amount == amountText && r.note == entry.value.note.GetOr("")
                            && r.entryType == entry.value.entryType && r.source == entry.value.source
                            && r.entryDate == entry.value.entryDate
  {
    match entry
    case None => FormState("", "", IncomeEntry, CashSource, today)
    case Some(e) => FormState(amountText, e.note.GetOr(""), e.entryType, e.source, e.entryDate)
  }

  /** A fresh form is consistent, and an edit form is consistent exactly
      when the stored entry's source fits its type. */
  lemma InitialFormConsistent(entry: Option<LedgerEntry>, amountText: string, today: Day)
    ensures entry.None? ==> Consistent(InitialForm(entry, amountText, today))
    ensures entry.Some? ==>
              (Consistent(InitialForm(entry, amountText, today)) <==> SourceFits(entry.value.entryType, entry.value.source))
  {
  }

  /** `parseFloat(amount.replace(',', '.'))` when it is finite and above
      zero; nothing otherwise. */
  function SubmitAmount(text: string): (r: Option<real>)
    ensures r.Some? ==> r.value > 0.0 && ParseFloat(ReplaceFirst(text, ',', '.')) == Finite(r.value)
    ensures r.None? ==> match ParseFloat(ReplaceFirst(text, ',', '.'))
                        case Finite(x) => x <= 0.0
                        case _ => true
  {
    match ParseFloat(ReplaceFirst(text, ',', '.'))
    case Finite(x) => if x > 0.0 then Some(x) else None
    case _ => None
  }

  /** A decimal typed with a comma or with a point is accepted as the value
      it spells, when that value is above zero. */
  lemma SubmitAmountDecimal(ip: string, fp: string)
    requires AllDigitsIn(ip, 10) && AllDigitsIn(fp, 10) && (ip != [] || fp != [])
    ensures DecimalValue(ip, fp) > 0.0 ==> SubmitAmount(ip + "," + fp) == Some(DecimalValue(ip, fp))
    ensures DecimalValue(ip, fp) > 0.0 ==> SubmitAmount(ip + "." + fp) == Some(DecimalValue(ip, fp))
    ensures DecimalValue(ip, fp) == 0.0 ==> SubmitAmount(ip + "," + fp) == None
  {
    DecimalParses(ip, fp);
    CommaDecimal(ip, fp);
    PointDecimalKept(ip, fp);
  }

  /** The decimal text `ip.fp` parses as the decimal it spells. */
  lemma DecimalParses(ip: string, fp: string)
    requires AllDigitsIn(ip, 10) && AllDigitsIn(fp, 10) && (ip != [] || fp != [])
    ensures ParseFloat(ip + "." + fp) == Finite(DecimalValue(ip, fp))
  {
    ParseFloatDecimal(ip, fp, []);
    assert ip + "." + fp + [] == ip + "." + fp;
  }

  /** The decimal text `ip.fp` has no comma, so the replacement keeps it. */
  lemma PointDecimalKept(ip: string, fp: string)
    requires AllDigitsIn(ip, 10) && AllDigitsIn(fp, 10)
    ensures ReplaceFirst(ip + "." + fp, ',', '.') == ip + "." + fp
  {
    var s := ip + "." + fp;
    forall k | 0 <= k < |s| ensures s[k] != ',' {
      if k < |ip| { assert s[k] == ip[k]; } else if k > |ip| { assert s[k] == fp[k - |ip| - 1]; }
    }
    NoneFound(s, ',');
  }

  /** An empty amount and a zero amount are both refused. */
  lemma SubmitAmountRefusesBlankAndZero()
    ensures SubmitAmount("") == None
    ensures SubmitAmount("0") == None
  {
    BlankAmountIsNaN();
    ZeroDigits("0");
  }

  lemma BlankAmountIsNaN()
    ensures ParseFloat(ReplaceFirst("", ',', '.')) == NaN
  {
    assert ReplaceFirst("", ',', '.') == "";
    assert TrimStart("") == [];
    assert ScanMantissa("", 0) == Mantissa(0, 0, 0);
  }

  /** A lone '0' typed as the amount parses as zero. */
  lemma ZeroDigits(z: string)
    requires z == ['0']
    ensures ParseFloat(ReplaceFirst(z, ',', '.')) == Finite(0.0)
  {
    assert FirstIndex(z, ',') == 1;
    assert ReplaceFirst(z, ',', '.') == z;
    assert AllDigitsIn(z, 10);
    ParseFloatInteger(z, []);
    assert z + [] == z;
    assert DigitsValue(z, 10) == DigitsValue([], 10) * 10 + DigitVal('0') == 0;
  }

  const InvalidAmountTitle := "Monto inv\U{00E1}lido"
  const InvalidAmountMessage := "Ingresa un n\U{00FA}mero mayor a cero."

  /** What `handleSubmit` does: an alert, or a call of `onSubmit` with the
      payload and the edited entry's id. */
  datatype SubmitOutcome =
    | Alerted(title: string, message: string)
    | Submitted(payload: UpsertLedgerEntry, id: Option<string>)

  /** `handleSubmit` on the form `f`, when `id` is `entry?.id`. */
  function Submission(f: FormState, id: Option<string>): (r: SubmitOutcome)
    ensures r.Alerted? <==> SubmitAmount(f.amount).None?
    ensures r.Alerted? ==> r == Alerted(InvalidAmountTitle, InvalidAmountMessage)
    ensures r.Submitted? ==>
              r.id == id && r.payload.amount > 0.0 && Some(r.payload.amount) == SubmitAmount(f.amount)
              && r.payload.entryType == f.entryType && r.payload.source == f.source
              && r.payload.entryDate == f.entryDate && r.payload.note == NonBlankTrim(f.note)
  {
    match SubmitAmount(f.amount)
    case None => Alerted(InvalidAmountTitle, InvalidAmountMessage)
    case Some(x) => Submitted(UpsertLedgerEntry(x, f.entryDate, f.entryType, f.source, NonBlankTrim(f.note)), id)
  }

  /** A submitted payload from a consistent form is consistent too; its note
      is either absent or trimmed and non-empty. */
  lemma SubmissionConsistent(f: FormState, id: Option<string>)
    requires Consistent(f) && Submission(f, id).Submitted?
    ensures var p := Submission(f, id).payload;
            SourceFits(p.entryType, p.source)
            && (p.note.None? || (p.note.value != [] && Trim(p.note.value) == p.note.value))
  {
    var p := Submission(f, id).payload;
    if p.note.Some? {
      NonBlankTrimIdempotent(f.note);
    }
  }

  /** Resubmitting an entry opened for editing, without touching the form,
      sends its own fields back under its own id (its note trimmed, and
      dropped when blank), when its amount text reads back as its amount. */
  lemma EditRoundTrip(e: LedgerEntry, amountText: string, today: Day)
    requires e.amount > 0.0 && SubmitAmount(amountText) == Some(e.amount)
    ensures Submission(InitialForm(Some(e), amountText, today), Some(e.id))
            == Submitted(UpsertLedgerEntry(e.amount, e.entryDate, e.entryType, e.source, NonBlankTrim(e.note.GetOr(""))), Some(e.id))
  {
  }

  /** The form's state, replaced as a whole by each update. */
  class EntryForm {
    var form: FormState

    /** `useState(initialState)`. */
    constructor (entry: Option<LedgerEntry>, amountText: string, today: Day)
      ensures form == InitialForm(entry, amountText, today)
    {
      form := InitialForm(entry, amountText, today);
    }

    /** The reset effect: when the modal becomes visible the form is
        rebuilt from the entry (or emptied); otherwise it is left alone. */
    method OnShow(visible: bool, entry: Option<LedgerEntry>, amountText: string, today: Day)
      modifies this
      ensures visible ==> form == InitialForm(entry, amountText, today)
      ensures !visible ==> form == old(form)
    {
      if visible {
        form := InitialForm(entry, amountText, today);
      }
    }

    /** `handleTypeChange`. */
    method HandleTypeChange(next: LedgerEntryType)
      modifies this
      ensures form == TypeChanged(old(form), next)
    {
      form := form.(entryType := next, source := DefaultSource(next));
    }

    /** `handleSourceChange`. */
    method HandleSourceChange(next: LedgerSource)
      modifies this
      ensures form == old(form).(source := next)
    {
      form := form.(source := next);
    }

    /** `handleDateChange`: a picked date replaces the form's date. */
    method HandleDateChange(picked: Option<Day>)
      modifies this
      ensures picked.Some? ==> form == old(form).(entryDate := picked.value)
      ensures picked.None? ==> form == old(form)
    {
      if picked.Some? {
        form := form.(entryDate := picked.value);
      }
    }

    /** `handleSubmit`: the alert it raises or the `onSubmit` call it makes;
        the form is not changed. */
    method HandleSubmit(entryId: Option<string>) returns (r: SubmitOutcome)
      ensures r == Submission(form, entryId)
      ensures r.Submitted? ==> r.payload.amount > 0.0 && r.id == entryId
    {
      var amount := SubmitAmount(form.amount);
      if amount.None? {
        return Alerted(InvalidAmountTitle, InvalidAmountMessage);
      }
      r := Submitted(UpsertLedgerEntry(amount.value, form.entryDate, form.entryType, form.source, NonBlankTrim(form.note)), entryId);
    }
  }
}
