/**
 * The reservation form's state and its handlers. The one-second timer that
 * confirms a submission is an explicit event (`TimerFires`).
 */
module ReservationForm {
  import opened Common
  import opened Reservation

  class Form {
    var values: FormValues
    var errors: FormErrors
    var status: Status
    var submittedData: Option<FormValues>
    var activeSelect: Option<SelectField>
    // a confirmation timeout is scheduled and has not fired or been cleared
    var timerPending: bool

    ghost predicate Valid()
      reads this
    {
      && NoEmptyMessages(errors)
      && (timerPending <==> status == Loading)
      && (submittedData.Some? <==> status != Idle)
      && (submittedData.Some? ==> RequiredErrors(submittedData.value) == map[])
    }

    constructor ()
      ensures Valid()
      ensures values == CreateDefaultValues() && errors == map[] && status == Idle
      ensures submittedData.None? && activeSelect.None? && !timerPending
    {
      values := CreateDefaultValues();
      errors := map[];
      status := Idle;
      submittedData := None;
      activeSelect := None;
      timerPending := false;
    }

    /** `handleChange(field)`: store the new value, then revalidate that field only. */
    method HandleChange(field: Field, text: string, checked: bool)
      requires Valid()
      modifies this`values, this`errors
      ensures Valid()
      ensures values == WithField(old(values), field, text, checked)
      ensures errors == UpdatedErrors(old(errors), field, values)
    {
      values := WithField(values, field, text, checked);
      errors := UpdatedErrors(errors, field, values);
    }

    /** `validate`: replace the error map by the required fields' errors. */
    method Validate() returns (ok: bool)
      requires Valid()
      modifies this`errors
      ensures Valid()
      ensures errors == RequiredErrors(values)
      ensures ok <==> errors == map[]
    {
      var nextErrors := CollectErrors(values);
      errors := nextErrors;
      ok := |errors| == 0;
    }

    method HandleSubmit()
      requires Valid()
      modifies this
      ensures Valid()
      ensures values == old(values)
      ensures errors == RequiredErrors(values)
      ensures errors != map[] ==>
        status == old(status) && submittedData == old(submittedData)
        && activeSelect == old(activeSelect) && timerPending == old(timerPending)
      ensures errors == map[] ==>
        status == Loading && activeSelect.None? && timerPending
        && submittedData == Some(Normalize(values))
    {
      var ok := Validate();
      if ok {
        StartSubmission();
      }
    }

    /** The valid branch of `handleSubmit`: record the normalised values and schedule the timeout. */
    method StartSubmission()
      requires Valid() && errors == map[] && RequiredErrors(values) == map[]
      modifies this`errors, this`activeSelect, this`status, this`submittedData, this`timerPending
      ensures Valid()
      ensures errors == map[] && activeSelect.None? && status == Loading && timerPending
      ensures submittedData == Some(Normalize(values))
    {
      var normalized := Normalize(values);
      NormalizeKeepsValid(values);
      errors := map[];
      activeSelect := None;
      status := Loading;
      submittedData := Some(normalized);
      // clear any earlier timeout and schedule a fresh one
      timerPending := true;
    }

    /** The confirmation timeout fires. */
    method TimerFires()
      requires Valid()
      modifies this
      ensures Valid()
      ensures old(timerPending) ==> status == Success && !timerPending
      ensures !old(timerPending) ==> status == old(status) && !timerPending
      ensures values == old(values) && errors == old(errors)
      ensures submittedData == old(submittedData) && activeSelect == old(activeSelect)
    {
      if timerPending {
        status := Success;
        timerPending := false;
      }
    }

    /** `handleReset`: cancel the timeout and return to a blank, idle form. */
    method HandleReset()
      requires Valid()
      modifies this
      ensures Valid()
      ensures values == CreateDefaultValues() && submittedData.None?
      ensures errors == map[] && activeSelect.None? && status == Idle && !timerPending
    {
      timerPending := false;
      values := CreateDefaultValues();
      submittedData := None;
      errors := map[];
      activeSelect := None;
      status := Idle;
    }

    /** Focus, pointer and key events on one of the three selects. */
    method HandleSelectEvent(event: SelectEvent)
      requires Valid()
      requires !event.SelectChange?
      modifies this`activeSelect
      ensures Valid()
      ensures activeSelect == NextActiveSelect(old(activeSelect), event)
    {
      activeSelect := NextActiveSelect(activeSelect, event);
    }

    /** A select's `onChange`: the field's `handleChange`, then close the marker. */
    method HandleSelectChange(select: SelectField, value: string)
      requires Valid()
      modifies this`values, this`errors, this`activeSelect
      ensures Valid()
      ensures values == WithField(old(values), SelectFieldOf(select), value, false)
      ensures errors == UpdatedErrors(old(errors), SelectFieldOf(select), values)
      ensures activeSelect.None?
    {
      HandleChange(SelectFieldOf(select), value, false);
      activeSelect := NextActiveSelect(activeSelect, SelectChange(select));
    }

    /** The notes counter shown under the text area. */
    method RemainingCharactersShown() returns (n: int)
      requires Valid()
      ensures n == RemainingCharacters(values.notes)
      ensures 0 <= n <= NOTES_MAX_LENGTH
    {
      n := RemainingCharacters(values.notes);
    }

    /** Whether the submit button is disabled. */
    method SubmitDisabled() returns (disabled: bool)
      requires Valid()
      ensures disabled <==> status == Loading || RequiredErrors(values) != map[]
    {
      SubmitEnabledIffValid(status, values);
      disabled := IsSubmitDisabled(status, values);
    }
  }

  /** Types the three contact fields of `v` into the form. */
  method FillContact(form: Form, v: FormValues)
    requires form.Valid()
    modifies form
    ensures form.Valid()
    ensures form.values == old(form.values).(name := v.name, email := v.email, phone := v.phone)
    ensures unchanged(form`status, form`submittedData, form`timerPending)
  {
    form.HandleChange(Name, v.name, false);
    form.HandleChange(Email, v.email, false);
    form.HandleChange(Phone, v.phone, false);
  }

  /** Picks the three select values of `v`; each change closes the open select. */
  method FillSelections(form: Form, v: FormValues)
    requires form.Valid()
    modifies form
    ensures form.Valid()
    ensures form.values == old(form.values).(region := v.region, color := v.color, storage := v.storage)
    ensures form.activeSelect.None?
    ensures unchanged(form`status, form`submittedData, form`timerPending)
  {
    form.HandleSelectChange(RegionSelect, v.region);
    form.HandleSelectChange(ColorSelect, v.color);
    form.HandleSelectChange(StorageSelect, v.storage);
  }

  /** Fills every field of a fresh form from `v`, one change event per field. */
  method FillForm(v: FormValues) returns (form: Form)
    ensures form.Valid() && fresh(form)
    ensures form.values == v && form.status == Idle && !form.timerPending
  {
    form := new Form();
    FillContact(form, v);
    FillSelections(form, v);
    form.HandleChange(Notes, v.notes, false);
    form.HandleChange(Updates, "", v.updates);
  }

  /** The status cycle of a valid submission: idle, loading, success, idle. */
  method StatusCycle(v: FormValues) returns (afterSubmit: Status, afterTimer: Status, afterReset: Status)
    requires RequiredErrors(v) == map[]
    ensures afterSubmit == Loading && afterTimer == Success && afterReset == Idle
  {
    var form := FillForm(v);
    form.HandleSubmit();
    afterSubmit := form.status;
    form.TimerFires();
    afterTimer := form.status;
    form.HandleReset();
    afterReset := form.status;
  }

  /** A reset while loading clears the timeout: its firing no longer confirms. */
  method ResetCancelsConfirmation(v: FormValues) returns (afterTimer: Status, submitted: Option<FormValues>)
    requires RequiredErrors(v) == map[]
    ensures afterTimer == Idle && submitted.None?
  {
    var form := FillForm(v);
    form.HandleSubmit();
    form.HandleReset();
    form.TimerFires();
    afterTimer := form.status;
    submitted := form.submittedData;
  }

  /** An invalid submission changes the error map only. */
  method InvalidSubmitKeepsStatus(v: FormValues) returns (status: Status, shown: FormErrors)
    requires RequiredErrors(v) != map[]
    ensures status == Idle && shown == RequiredErrors(v) && shown != map[]
  {
    var form := FillForm(v);
    form.HandleSubmit();
    status := form.status;
    shown := form.errors;
  }
}
