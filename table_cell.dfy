/**
 * One cell of the debts table: double-click shows an input for the editable columns,
 * blur validates the typed text and, when it is valid, hides the input and issues an
 * update whose `onMutate` writes the change into the cached list optimistically.
 */
module TableCell {
  import opened Wrappers
  import opened Debts
  import opened QueryCache
  import opened TableStore

  /** The column ids whose cells can be edited inline (`fieldsToCanEdit`). */
  const FieldsToCanEdit: seq<string> := ["amount", "description"]

  datatype EditableField = AmountField | DescriptionField

  /** Which editable field a column id names, if any. */
  function EditableColumn(columnId: string): (r: Option<EditableField>)
    ensures r.Some? <==> columnId in FieldsToCanEdit
    ensures r == Some(AmountField) <==> columnId == "amount"
    ensures r == Some(DescriptionField) <==> columnId == "description"
  {
    if columnId == "amount" then Some(AmountField)
    else if columnId == "description" then Some(DescriptionField)
    else None
  }

  /** The cell renders the input, rather than the formatted value, exactly in this case. */
  function ShowsInput(state: CellState, columnId: string): (r: bool)
    ensures r <==> state.showInput && EditableColumn(columnId).Some?
  {
    state.showInput && columnId in FieldsToCanEdit
  }

  // ---- `z.coerce.number()` on the typed text, restricted to integer notation ----

  /** The result of coercing text to a number: a number, or NaN, which the schema refuses. */
  datatype Coerced = NotANumber | Number(n: int)

  predicate IsDigit(c: char) {
    '0' <= c <= '9'
  }

  predicate AllDigits(s: string) {
    forall i :: 0 <= i < |s| ==> IsDigit(s[i])
  }

  /** The value of a string of decimal digits, most significant first. */
  function DigitsValue(s: string): nat
    requires AllDigits(s)
  {
    if s == [] then 0 else DigitsValue(s[..|s| - 1]) * 10 + (s[|s| - 1] as int - '0' as int)
  }

  /**
   * `Number(text)` for integer notation: the empty text is 0, an optional sign may
   * precede one or more digits, anything else is NaN.
   */
  function CoerceNumber(text: string): Coerced {
    if text == [] then Number(0)
    else if |text| > 1 && text[0] == '-' && AllDigits(text[1..]) then Number(-(DigitsValue(text[1..]) as int))
    else if |text| > 1 && text[0] == '+' && AllDigits(text[1..]) then Number(DigitsValue(text[1..]))
    else if AllDigits(text) then Number(DigitsValue(text))
    else NotANumber
  }

  function DigitChar(d: nat): char
    requires d < 10
  {
    ('0' as int + d) as char
  }

  /** The decimal digits of `n`, most significant first, without leading zeros. */
  function ShowNat(n: nat): string {
    if n < 10 then [DigitChar(n)] else ShowNat(n / 10) + [DigitChar(n % 10)]
  }

  /** `String(n)` for an integer `n`. */
  function NumberToString(n: int): string {
    if n < 0 then "-" + ShowNat(-n) else ShowNat(n)
  }

  lemma {:induction false} ShowNatDigits(n: nat)
    ensures |ShowNat(n)| > 0 && AllDigits(ShowNat(n)) && DigitsValue(ShowNat(n)) == n
  {
    if n >= 10 {
      ShowNatDigits(n / 10);
      var s := ShowNat(n);
      assert s[..|s| - 1] == ShowNat(n / 10);
    }
  }

  /** Coercing the text `String(n)` gives back `n`: the two are inverse on integers. */
  lemma CoerceNumberToString(n: int)
    ensures CoerceNumber(NumberToString(n)) == Number(n)
  {
    var digits := ShowNat(if n < 0 then -n else n);
    ShowNatDigits(if n < 0 then -n else n);
    if n < 0 {
      assert NumberToString(n)[1..] == digits;
    } else {
      assert NumberToString(n)[0] != '-' && NumberToString(n)[0] != '+';
    }
  }

  // ---- `updateDebitSchema` ----

  /**
   * A string's JavaScript `.length`: the number of UTF-16 code units, where a character
   * outside the Basic Multilingual Plane takes two (a surrogate pair).
   */
  function Utf16Length(s: string): (r: nat)
    ensures |s| <= r <= 2 * |s|
  {
    if s == [] then 0
    else Utf16Length(s[..|s| - 1]) + (if s[|s| - 1] as int >= 0x1_0000 then 2 else 1)
  }

  /** A text with only Basic Multilingual Plane characters has as many code units as characters. */
  lemma {:induction false} Utf16LengthBmp(s: string)
    requires forall i :: 0 <= i < |s| ==> s[i] as int < 0x1_0000
    ensures Utf16Length(s) == |s|
  {
    if s != [] {
      Utf16LengthBmp(s[..|s| - 1]);
    }
  }

  /** The parsed update: the debt id and the one edited field. */
  datatype UpdateDebit = UpdateDebit(id: string, amount: Option<int>, description: Option<string>)

  /** Why the schema refused the typed text. */
  datatype InvalidValue = AmountNotANumber | AmountNegative | DescriptionTooShort

  /** The amount transform: a truthy value is scaled from units to cents, 0 passes as it is. */
  function ScaleAmount(value: int): int {
    if value != 0 then value * 100 else value
  }

  /**
   * `updateDebitSchema.safeParse({ id, [field]: inputState })`: an amount must coerce to
   * a number that is not negative and is stored in cents; a description needs at least
   * three UTF-16 code units.
   */
  function ParseUpdate(debitId: string, field: EditableField, inputState: string): (r: Result<UpdateDebit, InvalidValue>)
    ensures r.Ok? ==> r.value.id == debitId
    ensures field == DescriptionField ==>
      && (r.Ok? <==> Utf16Length(inputState) >= 3)
      && (r.Ok? ==> r.value.amount.None? && r.value.description == Some(inputState))
    ensures field == AmountField ==>
      && (r.Ok? <==> CoerceNumber(inputState).Number? && CoerceNumber(inputState).n >= 0)
      && (r.Ok? ==> r.value.description.None? && r.value.amount == Some(CoerceNumber(inputState).n * 100))
    ensures field == AmountField && CoerceNumber(inputState).Number? && CoerceNumber(inputState).n < 0 ==>
      r == Err(AmountNegative)
  {
    match field
    case AmountField =>
      (match CoerceNumber(inputState)
       case NotANumber => Err(AmountNotANumber)
       case Number(n) =>
         if n < 0 then Err(AmountNegative) else Ok(UpdateDebit(debitId, Some(ScaleAmount(n)), None)))
    case DescriptionField =>
      if Utf16Length(inputState) < 3 then Err(DescriptionTooShort) else Ok(UpdateDebit(debitId, None, Some(inputState)))
  }

  /** Two characters, one of them outside the Basic Multilingual Plane, make a valid description. */
  lemma SurrogatePairCountsTwice(debitId: string)
    ensures ParseUpdate(debitId, DescriptionField, "a\U{1F600}") == Ok(UpdateDebit(debitId, None, Some("a\U{1F600}")))
  {
  }

  /**
   * Editing an amount shown in whole units and leaving it as it is stores the same
   * number of cents again.
   */
  lemma EditedAmountRoundTrip(debitId: string, cents: int)
    requires cents >= 0 && cents % 100 == 0
    ensures ParseUpdate(debitId, AmountField, NumberToString(cents / 100)) == Ok(UpdateDebit(debitId, Some(cents), None))
  {
    CoerceNumberToString(cents / 100);
  }

  // ---- `onMutate`: the optimistic write ----

  /** The fields of an update as a patch of the cached record. */
  function ToPatch(data: UpdateDebit): DebitPatch {
    DebitPatch(None, None, None, data.description, None, data.amount, None)
  }

  /** `{ ...debit, ...data }`, which also copies `data.id` over the record's id. */
  function Spread(debit: Debit, data: UpdateDebit): Debit {
    debit.(id := data.id, amount := data.amount.GetOr(debit.amount),
           description := data.description.GetOr(debit.description))
  }

  /** On the entry the update is matched to, the spread is the merge of its patch. */
  lemma SpreadIsMerge(debit: Debit, data: UpdateDebit)
    requires debit.id == data.id
    ensures Spread(debit, data) == Merge(debit, ToPatch(data))
  {
  }

  /**
   * `onMutate`: without a cached list nothing happens; otherwise the entry whose id is
   * the update's gets the edited field and the other entries stay as they were.
   */
  method OnMutate(client: DebtsQueryCache, period: string, data: UpdateDebit)
    modifies client
    ensures old(client.GetQueryData(period)).None? ==>
      client.entries == old(client.entries) && client.stale == old(client.stale)
    ensures old(client.GetQueryData(period)).Some? ==>
      && client.entries == old(client.entries)[period := UpdateById(old(client.entries[period]), data.id, ToPatch(data))]
      && client.stale == old(client.stale) - {period}
  {
    var cache := client.GetQueryData(period);
    if cache.None? {
      return;
    }
    client.SetQueryData(period, Some(UpdateById(cache.value, data.id, ToPatch(data))));
  }

  // ---- the cell's event handlers ----

  /** The outcome of a blur: an "Invalid value" error, or the update that was issued. */
  datatype BlurOutcome = Rejected(reason: InvalidValue) | Submitted(update: UpdateDebit)

  /** `onDoubleClick`: shows the input; nothing else changes. */
  method DoubleClick(store: Store, cellId: string)
    modifies store
    ensures store.Cell(cellId) == old(store.Cell(cellId)).(showInput := true)
    ensures forall other :: other != cellId ==> store.Cell(other) == old(store.Cell(other))
    ensures store.periodId == old(store.periodId)
  {
    store.WriteCell(cellId, CellPatch(None, Some(true), None));
  }

  /** `onChange`: keeps the typed text in the cell's state. */
  method ChangeInput(store: Store, cellId: string, text: string)
    modifies store
    ensures store.Cell(cellId) == old(store.Cell(cellId)).(inputState := text)
    ensures forall other :: other != cellId ==> store.Cell(other) == old(store.Cell(other))
    ensures store.periodId == old(store.periodId)
  {
    store.WriteCell(cellId, CellPatch(None, None, Some(text)));
  }

  /**
   * `handleBlur` on the input of an editable cell of the debt `debitId`. Invalid text is
   * reported and changes nothing, not even `showInput`. Valid text hides the input and
   * issues exactly one update, whose `onMutate` writes it into the current period's list.
   */
  method HandleBlur(store: Store, client: DebtsQueryCache, cellId: string, debitId: string, field: EditableField)
    returns (outcome: BlurOutcome)
    modifies store, client
    ensures var parsed := ParseUpdate(debitId, field, old(store.Cell(cellId)).inputState);
      && (parsed.Err? ==>
            && outcome == Rejected(parsed.error)
            && store.cells == old(store.cells)
            && client.entries == old(client.entries) && client.stale == old(client.stale))
      && (parsed.Ok? ==>
            && outcome == Submitted(parsed.value)
            && store.Cell(cellId) == old(store.Cell(cellId)).(showInput := false)
            && (forall other :: other != cellId ==> store.Cell(other) == old(store.Cell(other)))
            && (old(client.GetQueryData(store.periodId)).Some? ==>
                  && client.entries == old(client.entries)[store.periodId :=
                       UpdateById(old(client.entries[store.periodId]), debitId, ToPatch(parsed.value))]
                  && client.stale == old(client.stale) - {store.periodId})
            && (old(client.GetQueryData(store.periodId)).None? ==>
                  client.entries == old(client.entries) && client.stale == old(client.stale)))
    ensures store.periodId == old(store.periodId)
  {
    var parsed := ParseUpdate(debitId, field, store.Cell(cellId).inputState);
    if parsed.Err? {
      outcome := Rejected(parsed.error);
      return;
    }
    store.WriteCell(cellId, CellPatch(None, Some(false), None));
    outcome := Submitted(parsed.value);
    OnMutate(client, store.periodId, parsed.value);
  }
}
