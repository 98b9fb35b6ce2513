/**
 * The reservation form's rules: per-field validators and their messages,
 * the error map kept beside the values, submit normalisation, the
 * `aria-describedby` ids, the notes counter, the submit-disabled rule and
 * the open/closed state of the three custom selects.
 */
module Reservation {
  import opened Common
  import opened ReservationPatterns

  const NOTES_MAX_LENGTH: int := 280

  datatype Field = Name | Email | Phone | Region | Color | Storage | Notes | Updates

  /** The fields `validate` checks, in order. */
  const REQUIRED_FIELDS: seq<Field> := [Name, Email, Phone, Region, Color, Storage]

  predicate IsRequired(f: Field) {
    f != Notes && f != Updates
  }

  lemma RequiredFieldsListed(f: Field)
    ensures f in REQUIRED_FIELDS <==> IsRequired(f)
  {
  }

  datatype FormValues = FormValues(
    name: string, email: string, phone: string,
    region: string, color: string, storage: string,
    notes: string, updates: bool)

  /** Field name to message; a field without an error has no key. */
  type FormErrors = map<Field, string>

  const NAME_EMPTY: string := "Ingresa tu nombre completo."
  const NAME_INVALID: string := "Escribe nombre y apellido usando solo letras."
  const EMAIL_EMPTY: string := "Necesitamos tu correo electrónico."
  const EMAIL_INVALID: string := "Añade un correo válido."
  const PHONE_EMPTY: string := "Comparte un número de contacto."
  const PHONE_INVALID: string := "Añade un número válido con lada internacional."
  const REGION_EMPTY: string := "Selecciona tu región."
  const COLOR_EMPTY: string := "Elige un acabado preferido."
  const STORAGE_EMPTY: string := "Selecciona la memoria que necesitas."

  function CreateDefaultValues(): (v: FormValues)
    ensures forall f :: IsRequired(f) ==> FieldErrorMessage(f, v).Some?
    ensures v.notes == [] && !v.updates
  {
    FormValues("", "", "", "", "", "", "", false)
  }

  // ----- validators -----

  function NameError(value: string): (r: Option<string>) {
    var trimmed := Trim(value);
    if trimmed == [] then Some(NAME_EMPTY)
    else if !NameMatches(trimmed) then Some(NAME_INVALID)
    else None
  }

  function EmailError(value: string): (r: Option<string>) {
    var trimmed := Trim(value);
    if trimmed == [] then Some(EMAIL_EMPTY)
    else if !EmailMatches(trimmed) then Some(EMAIL_INVALID)
    else None
  }

  function PhoneError(value: string): (r: Option<string>) {
    var trimmed := Trim(value);
    if trimmed == [] then Some(PHONE_EMPTY)
    else if !PhoneMatches(trimmed) then Some(PHONE_INVALID)
    else None
  }

  /** The name validator: the empty message exactly for a blank value, a pass exactly on two or more words. */
  lemma NameErrorMeaning(value: string)
    ensures NameError(value).None? <==> NameShape(Trim(value))
    ensures NameError(value) == Some(NAME_EMPTY) <==> Trim(value) == []
  {
    NameMatchesIff(Trim(value));
  }

  /** The email validator: the empty message exactly for a blank value, a pass exactly on the pattern. */
  lemma EmailErrorMeaning(value: string)
    ensures EmailError(value).None? <==> EmailMatches(Trim(value))
    ensures EmailError(value) == Some(EMAIL_EMPTY) <==> Trim(value) == []
  {
  }

  /** The phone validator: the empty message exactly for a blank value, a pass exactly on the pattern. */
  lemma PhoneErrorMeaning(value: string)
    ensures PhoneError(value).None? <==> PhoneMatches(Trim(value))
    ensures PhoneError(value) == Some(PHONE_EMPTY) <==> Trim(value) == []
  {
  }

  /** The three selects fail only when nothing is selected. */
  function RequiredSelectError(value: string, message: string): (r: Option<string>)
    ensures r.None? <==> value != ""
    ensures r.Some? ==> r.value == message
  {
    if value == "" then Some(message) else None
  }

  /** `getFieldErrorMessage`: notes and updates have no validator. */
  function FieldErrorMessage(field: Field, values: FormValues): (r: Option<string>)
    ensures !IsRequired(field) ==> r.None?
    ensures r.Some? ==> r.value != ""
    ensures field == Region ==> (r.None? <==> values.region != "")
    ensures field == Color ==> (r.None? <==> values.color != "")
    ensures field == Storage ==> (r.None? <==> values.storage != "")
  {
    match field
    case Name => NameError(values.name)
    case Email => EmailError(values.email)
    case Phone => PhoneError(values.phone)
    case Region => RequiredSelectError(values.region, REGION_EMPTY)
    case Color => RequiredSelectError(values.color, COLOR_EMPTY)
    case Storage => RequiredSelectError(values.storage, STORAGE_EMPTY)
    case Notes => None
    case Updates => None
  }

  /** A field passes iff its trimmed value is non-empty and matches its pattern. */
  lemma FieldValidIff(values: FormValues)
    ensures FieldErrorMessage(Name, values).None? <==> Trim(values.name) != [] && NameMatches(Trim(values.name))
    ensures FieldErrorMessage(Email, values).None? <==> Trim(values.email) != [] && EmailMatches(Trim(values.email))
    ensures FieldErrorMessage(Phone, values).None? <==> Trim(values.phone) != [] && PhoneMatches(Trim(values.phone))
  {
    assert !EmailMatches([]);
    assert !PhoneMatches([]);
  }

  // ----- values and the error map -----

  /** The components of two value records agree on one field. */
  predicate SameField(a: FormValues, b: FormValues, f: Field) {
    match f
    case Name => a.name == b.name
    case Email => a.email == b.email
    case Phone => a.phone == b.phone
    case Region => a.region == b.region
    case Color => a.color == b.color
    case Storage => a.storage == b.storage
    case Notes => a.notes == b.notes
    case Updates => a.updates == b.updates
  }

  /**
   * The value `handleChange` stores: the checkbox's `checked` for `updates`,
   * the element's text for every other field.
   */
  function WithField(values: FormValues, field: Field, text: string, checked: bool): (r: FormValues)
    ensures forall f :: f != field ==> SameField(r, values, f)
    ensures field == Updates ==> r.updates == checked
    ensures field == Name ==> r.name == text
    ensures field == Email ==> r.email == text
    ensures field == Phone ==> r.phone == text
    ensures field == Region ==> r.region == text
    ensures field == Color ==> r.color == text
    ensures field == Storage ==> r.storage == text
    ensures field == Notes ==> r.notes == text
  {
    match field
    case Name => values.(name := text)
    case Email => values.(email := text)
    case Phone => values.(phone := text)
    case Region => values.(region := text)
    case Color => values.(color := text)
    case Storage => values.(storage := text)
    case Notes => values.(notes := text)
    case Updates => values.(updates := checked)
  }

  /** Validators never produce empty messages, so every key of the map is a truthy message. */
  predicate NoEmptyMessages(errors: FormErrors) {
    forall f :: f in errors ==> errors[f] != ""
  }

  /** The error map after `handleChange(field)` with the new values. */
  function UpdatedErrors(prev: FormErrors, field: Field, values: FormValues): (r: FormErrors)
    ensures FieldErrorMessage(field, values).Some? ==>
      field in r && r[field] == FieldErrorMessage(field, values).value
    ensures FieldErrorMessage(field, values).None? && NoEmptyMessages(prev) ==> field !in r
    ensures forall f :: f != field ==> (f in r <==> f in prev)
    ensures forall f :: f != field && f in r ==> r[f] == prev[f]
    ensures NoEmptyMessages(prev) ==> NoEmptyMessages(r)
  {
    var message := FieldErrorMessage(field, values);
    if message.Some? then
      if field in prev && prev[field] == message.value then prev
      else prev[field := message.value]
    else if field in prev && prev[field] != "" then prev - {field}
    else prev
  }

  /** What `validate` produces: one entry per failing required field. */
  function RequiredErrors(values: FormValues): (r: FormErrors)
    ensures forall f :: f in r <==> IsRequired(f) && FieldErrorMessage(f, values).Some?
    ensures Notes !in r && Updates !in r
    ensures NoEmptyMessages(r)
  {
    map f | f in REQUIRED_FIELDS && FieldErrorMessage(f, values).Some? :: FieldErrorMessage(f, values).value
  }

  /** The `forEach` over the required fields that fills `nextErrors`. */
  method CollectErrors(values: FormValues) returns (nextErrors: FormErrors)
    ensures forall f :: f in nextErrors <==> IsRequired(f) && FieldErrorMessage(f, values).Some?
    ensures forall f :: f in nextErrors ==> nextErrors[f] == FieldErrorMessage(f, values).value
  {
    nextErrors := map[];
    for i := 0 to |REQUIRED_FIELDS|
      invariant forall f :: f in nextErrors <==> f in REQUIRED_FIELDS[..i] && FieldErrorMessage(f, values).Some?
      invariant forall f :: f in nextErrors ==> nextErrors[f] == FieldErrorMessage(f, values).value
    {
      var field := REQUIRED_FIELDS[i];
      var message := FieldErrorMessage(field, values);
      assert REQUIRED_FIELDS[..i + 1] == REQUIRED_FIELDS[..i] + [field];
      if message.Some? {
        nextErrors := nextErrors[field := message.value];
      }
    }
    assert REQUIRED_FIELDS[..|REQUIRED_FIELDS|] == REQUIRED_FIELDS;
    forall f | true
      ensures f in REQUIRED_FIELDS <==> IsRequired(f)
    {
      RequiredFieldsListed(f);
    }
  }

  /** The values `handleSubmit` records: the four free-text fields trimmed. */
  function Normalize(values: FormValues): (r: FormValues)
    ensures r.region == values.region && r.color == values.color
    ensures r.storage == values.storage && r.updates == values.updates
    ensures r.name == Trim(values.name) && r.email == Trim(values.email)
    ensures r.phone == Trim(values.phone) && r.notes == Trim(values.notes)
  {
    values.(name := Trim(values.name), email := Trim(values.email),
            phone := Trim(values.phone), notes := Trim(values.notes))
  }

  /** The text validators judge the trimmed value, so trimming first changes nothing. */
  lemma TextErrorsIgnoreTrim(v: string)
    ensures NameError(Trim(v)) == NameError(v)
    ensures EmailError(Trim(v)) == EmailError(v)
    ensures PhoneError(Trim(v)) == PhoneError(v)
  {
    TrimIdempotent(v);
  }

  /** Normalising changes no field's verdict. */
  lemma NormalizeKeepsMessages(values: FormValues, f: Field)
    ensures FieldErrorMessage(f, Normalize(values)) == FieldErrorMessage(f, values)
  {
    var n := Normalize(values);
    match f
    case Name => TextErrorsIgnoreTrim(values.name);
    case Email => TextErrorsIgnoreTrim(values.email);
    case Phone => TextErrorsIgnoreTrim(values.phone);
    case _ =>
  }

  /** Valid values stay valid once normalised. */
  lemma NormalizeKeepsValid(values: FormValues)
    requires RequiredErrors(values) == map[]
    ensures RequiredErrors(Normalize(values)) == map[]
  {
    forall f | IsRequired(f)
      ensures FieldErrorMessage(f, Normalize(values)).None?
    {
      assert f !in RequiredErrors(values);
      NormalizeKeepsMessages(values, f);
    }
  }

  /** `Math.max(0, 280 - notes.length)`. */
  function RemainingCharacters(notes: string): (r: int)
    ensures 0 <= r <= NOTES_MAX_LENGTH
    ensures |notes| <= NOTES_MAX_LENGTH ==> r + |notes| == NOTES_MAX_LENGTH
    ensures |notes| >= NOTES_MAX_LENGTH ==> r == 0
  {
    Max(0, NOTES_MAX_LENGTH - |notes|)
  }

  datatype Status = Idle | Loading | Success

  /** The submit button is disabled while loading or while some required field fails. */
  predicate IsSubmitDisabled(status: Status, values: FormValues) {
    status == Loading || exists i :: 0 <= i < |REQUIRED_FIELDS| && FieldErrorMessage(REQUIRED_FIELDS[i], values).Some?
  }

  /** Outside loading, submit is enabled exactly when `validate` would pass. */
  lemma SubmitEnabledIffValid(status: Status, values: FormValues)
    ensures IsSubmitDisabled(status, values) <==> status == Loading || RequiredErrors(values) != map[]
  {
    if RequiredErrors(values) != map[] {
      var f :| f in RequiredErrors(values);
      var i :| 0 <= i < |REQUIRED_FIELDS| && REQUIRED_FIELDS[i] == f;
      assert FieldErrorMessage(REQUIRED_FIELDS[i], values).Some?;
    }
    if exists i :: 0 <= i < |REQUIRED_FIELDS| && FieldErrorMessage(REQUIRED_FIELDS[i], values).Some? {
      var i :| 0 <= i < |REQUIRED_FIELDS| && FieldErrorMessage(REQUIRED_FIELDS[i], values).Some?;
      assert REQUIRED_FIELDS[i] in RequiredErrors(values);
    }
  }

  // ----- aria-describedby -----

  function FieldId(field: Field): string {
    match field
    case Name => "reservation-name"
    case Email => "reservation-email"
    case Phone => "reservation-phone"
    case Region => "reservation-region"
    case Color => "reservation-color"
    case Storage => "reservation-storage"
    case Notes => "reservation-notes"
    case Updates => "reservation-updates"
  }

  const PHONE_HELPER_ID: string := "reservation-phone-helper"
  const NOTES_HELPER_ID: string := "reservation-notes-helper"

  /** `ids.join(' ')`. */
  function JoinIds(ids: seq<string>): string {
    if |ids| == 0 then ""
    else if |ids| == 1 then ids[0]
    else ids[0] + " " + JoinIds(ids[1..])
  }

  /** Splits at every space, as a reader of an id list does. */
  function SplitOnSpaces(s: string): (r: seq<string>)
    ensures |r| >= 1
    decreases |s|
  {
    if |s| == 0 then [""]
    else if s[0] == ' ' then [""] + SplitOnSpaces(s[1..])
    else
      var rest := SplitOnSpaces(s[1..]);
      [[s[0]] + rest[0]] + rest[1..]
  }

  /** A word without spaces in front of `s` joins the first piece of `s`. */
  lemma {:induction false} SplitAfterWord(w: string, s: string)
    requires ' ' !in w
    ensures SplitOnSpaces(w + s) == [w + SplitOnSpaces(s)[0]] + SplitOnSpaces(s)[1..]
    decreases |w|
  {
    var r := SplitOnSpaces(s);
    if w == [] {
      assert w + s == s && w + r[0] == r[0];
      assert [r[0]] + r[1..] == r;
    } else {
      assert (w + s)[0] == w[0] && w[0] != ' ';
      assert (w + s)[1..] == w[1..] + s;
      SplitAfterWord(w[1..], s);
      assert [w[0]] + (w[1..] + r[0]) == w + r[0];
    }
  }

  /** A non-empty list of ids without spaces reads back from its joined form. */
  lemma {:induction false} SplitJoinIds(ids: seq<string>)
    requires |ids| >= 1
    requires forall i :: 0 <= i < |ids| ==> ' ' !in ids[i]
    ensures SplitOnSpaces(JoinIds(ids)) == ids
    decreases |ids|
  {
    if |ids| == 1 {
      SplitAfterWord(ids[0], "");
      assert ids[0] + "" == ids[0];
    } else {
      var rest := JoinIds(ids[1..]);
      assert ids[0] + " " + rest == ids[0] + (" " + rest);
      assert JoinIds(ids) == ids[0] + (" " + rest);
      SplitAfterWord(ids[0], " " + rest);
      assert (" " + rest)[0] == ' ' && (" " + rest)[1..] == rest;
      assert SplitOnSpaces(" " + rest) == [""] + SplitOnSpaces(rest);
      SplitJoinIds(ids[1..]);
      assert ids[0] + "" == ids[0];
      assert ids == [ids[0]] + ids[1..];
    }
  }

  /** `errors[field]` is a truthy message. */
  predicate HasError(errors: FormErrors, field: Field) {
    field in errors && errors[field] != ""
  }

  /**
   * `getDescribedBy`: the field's error id when it shows an error, then the
   * helper id of the phone and notes fields, separated by a space; absent
   * when there is neither.
   */
  function DescribedBy(field: Field, errors: FormErrors): (r: Option<string>)
    ensures r.None? <==> !HasError(errors, field) && field != Phone && field != Notes
    ensures r.Some? && HasError(errors, field) ==>
      |FieldId(field) + "-error"| <= |r.value| && r.value[..|FieldId(field) + "-error"|] == FieldId(field) + "-error"
    ensures r.Some? && field == Phone ==>
      |PHONE_HELPER_ID| <= |r.value| && r.value[|r.value| - |PHONE_HELPER_ID|..] == PHONE_HELPER_ID
    ensures r.Some? && field == Notes ==>
      |NOTES_HELPER_ID| <= |r.value| && r.value[|r.value| - |NOTES_HELPER_ID|..] == NOTES_HELPER_ID
    ensures HasError(errors, field) && field != Phone && field != Notes ==>
      r == Some(FieldId(field) + "-error")
    ensures HasError(errors, field) && field == Phone ==>
      r == Some(FieldId(Phone) + "-error" + " " + PHONE_HELPER_ID)
    ensures HasError(errors, field) && field == Notes ==>
      r == Some(FieldId(Notes) + "-error" + " " + NOTES_HELPER_ID)
    ensures r.Some? && !HasError(errors, field) ==>
      r.value == (if field == Phone then PHONE_HELPER_ID else NOTES_HELPER_ID)
  {
    var errorIds := if HasError(errors, field) then [FieldId(field) + "-error"] else [];
    var helperIds := if field == Phone then [PHONE_HELPER_ID] else if field == Notes then [NOTES_HELPER_ID] else [];
    var ids := errorIds + helperIds;
    assert |ids| == 2 ==> JoinIds(ids) == ids[0] + " " + ids[1];
    if |ids| > 0 then Some(JoinIds(ids)) else None
  }

  // ----- the custom selects' open marker -----

  datatype SelectField = RegionSelect | ColorSelect | StorageSelect

  function SelectFieldOf(s: SelectField): (f: Field)
    ensures IsRequired(f) && f != Name && f != Email && f != Phone
  {
    match s
    case RegionSelect => Region
    case ColorSelect => Color
    case StorageSelect => Storage
  }

  datatype SelectEvent =
    | SelectChange(field: SelectField)
    | SelectBlur(field: SelectField)
    | SelectPointerDown(field: SelectField)
    | SelectKeyDown(field: SelectField, key: string)

  /** Keys that open a select. */
  predicate IsOpenKey(key: string) {
    key == " " || key == "Space" || key == "Spacebar" || key == "Enter" || key == "ArrowDown" || key == "ArrowUp"
  }

  /** The `activeSelect` after one select event. */
  function NextActiveSelect(current: Option<SelectField>, event: SelectEvent): (r: Option<SelectField>)
    ensures r.Some? ==> r == current || r == Some(event.field)
    ensures r == Some(event.field) <==>
      event.SelectPointerDown? || (event.SelectKeyDown? && event.key != "Escape" && IsOpenKey(event.key))
      || (current == Some(event.field) && (event.SelectKeyDown? && event.key != "Escape" && !IsOpenKey(event.key)))
    ensures event.SelectBlur? && current != Some(event.field) ==> r == current
    ensures event.SelectKeyDown? && event.key != "Escape" && !IsOpenKey(event.key) ==> r == current
  {
    match event
    case SelectChange(_) => None
    case SelectBlur(f) => if current == Some(f) then None else current
    case SelectPointerDown(f) => Some(f)
    case SelectKeyDown(f, key) =>
      if key == "Escape" then None
      else if IsOpenKey(key) then Some(f)
      else current
  }

  /**
   * Escape and a change always close; blurring another select, or pressing a
   * key that neither opens nor closes on it, leaves the open one open.
   */
  lemma SelectCloseRules(current: Option<SelectField>, f: SelectField, g: SelectField)
    requires f != g
    ensures NextActiveSelect(current, SelectKeyDown(f, "Escape")).None?
    ensures NextActiveSelect(current, SelectChange(f)).None?
    ensures NextActiveSelect(Some(g), SelectBlur(f)) == Some(g)
    ensures NextActiveSelect(Some(f), SelectBlur(f)).None?
    ensures NextActiveSelect(Some(g), SelectKeyDown(f, "Tab")) == Some(g)
  {
  }
}
