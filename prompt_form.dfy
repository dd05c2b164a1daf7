/** The modal prompt form: the older editor, with tighter typing limits than its
    own validator, an error list checked by `validatePromptForm`, and a
    submit-error line. It shares the three-field form shape and the initial
    form with the sheet. */
module PromptForm {
  import opened Wrappers
  import opened Text
  import opened Http
  import opened PromptTypes
  import opened FormValidation
  import opened EngineeringSheet

  /** `limits` in `handleInputChange`. */
  function TypingLimit(field: Field): nat {
    match field
    case Name => 100
    case OpeningLine => 500
    case CustomPrompt => 2000
  }

  /** The `field` value of an error record about that field. */
  function FieldName(field: Field): string {
    match field
    case Name => "name"
    case OpeningLine => "openingLine"
    case CustomPrompt => "customPrompt"
  }

  /** Every field within its typing limit. */
  predicate WithinTypingLimits(data: FormData) {
    forall field: Field :: |data.Get(field)| <= TypingLimit(field)
  }

  /** The form's data as the validator receives it: every field present. */
  function AsFields(data: FormData): PromptFields {
    PromptFields(Some(data.name), Some(data.openingLine), Some(data.customPrompt))
  }

  /** `errors.filter(error => error.field !== field)`: the other fields' errors,
      in their order. */
  function WithoutField(errors: seq<ValidationError>, fieldName: string): (r: seq<ValidationError>)
    ensures |r| <= |errors|
    ensures forall e :: e in r <==> e in errors && e.field != fieldName
  {
    if errors == [] then []
    else if errors[0].field == fieldName then WithoutField(errors[1..], fieldName)
    else [errors[0]] + WithoutField(errors[1..], fieldName)
  }

  function Rank(e: ValidationError): nat {
    FieldRank(e.field)
  }

  /** Errors in the validator's field order, each field at most once. */
  predicate Ranked(errors: seq<ValidationError>) {
    RankedBy(errors, Rank)
  }

  /** Filtering keeps the relative order of the errors it keeps. */
  lemma WithoutFieldKeepsOrder(errors: seq<ValidationError>, fieldName: string)
    requires Ranked(errors)
    ensures Ranked(WithoutField(errors, fieldName))
  {
    WithoutFieldKeepsRanks(errors, fieldName, Rank);
  }

  /** Errors strictly increasing under `rank`. */
  predicate RankedBy(errors: seq<ValidationError>, rank: ValidationError -> nat) {
    forall i, j :: 0 <= i < j < |errors| ==> rank(errors[i]) < rank(errors[j])
  }

  /** The same, for any ranking of errors. */
  lemma {:induction false} WithoutFieldKeepsRanks(errors: seq<ValidationError>, fieldName: string,
                                                   rank: ValidationError -> nat)
    requires RankedBy(errors, rank)
    ensures RankedBy(WithoutField(errors, fieldName), rank)
  {
    if errors != [] {
      var rest := errors[1..];
      forall i, j | 0 <= i < j < |rest| ensures rank(rest[i]) < rank(rest[j]) {
        assert rest[i] == errors[i + 1] && rest[j] == errors[j + 1];
      }
      var tail := WithoutField(rest, fieldName);
      WithoutFieldKeepsRanks(rest, fieldName, rank);
      if errors[0].field != fieldName {
        forall k | 0 <= k < |tail| ensures rank(errors[0]) < rank(tail[k]) {
          assert tail[k] in rest;
          var m :| 0 <= m < |rest| && rest[m] == tail[k];
          assert errors[m + 1] == tail[k];
        }
        HeadBelowRanked(errors[0], tail, rank);
      }
    }
  }

  /** An error ranked below a ranked list can go in front of it. */
  lemma HeadBelowRanked(e: ValidationError, tail: seq<ValidationError>, rank: ValidationError -> nat)
    requires RankedBy(tail, rank)
    requires forall k :: 0 <= k < |tail| ==> rank(e) < rank(tail[k])
    ensures RankedBy([e] + tail, rank)
  {
    var r := [e] + tail;
    forall i, j | 0 <= i < j < |r| ensures rank(r[i]) < rank(r[j]) {
      assert r[j] == tail[j - 1];
      if i > 0 {
        assert r[i] == tail[i - 1];
      }
    }
  }

  /** The colour of a character counter. */
  datatype CounterColour = Yellow | Red | Grey

  /** The note after a character counter. */
  datatype CounterNote = Approaching | Reached | NoNote

  /** The counter's class: the `> warnAbove` test comes first. */
  function CounterColourOf(length: nat, warnAbove: nat, limit: nat): (r: CounterColour)
    ensures r == Yellow <==> length > warnAbove
    ensures r == Red <==> length <= warnAbove && length == limit
    ensures r == Grey <==> length <= warnAbove && length != limit
  {
    if length > warnAbove then Yellow else if length == limit then Red else Grey
  }

  /** The counter's note. */
  function CounterNoteOf(length: nat, warnAbove: nat, limit: nat): (r: CounterNote)
    ensures r == Approaching <==> warnAbove < length < limit
    ensures r == Reached <==> length == limit
  {
    if length == limit then Reached
    else if warnAbove < length < limit then Approaching
    else NoNote
  }

  /** The thresholds of the three counters: warn above 90%, at 100/500/2000. */
  function WarnAbove(field: Field): nat {
    match field
    case Name => 90
    case OpeningLine => 450
    case CustomPrompt => 1800
  }

  /** The red class is never used: at the limit the yellow test already holds,
      for every counter. */
  lemma RedIsUnreachable(field: Field, length: nat)
    ensures CounterColourOf(length, WarnAbove(field), TypingLimit(field)) != Red
    ensures length == TypingLimit(field) ==>
      CounterColourOf(length, WarnAbove(field), TypingLimit(field)) == Yellow
      && CounterNoteOf(length, WarnAbove(field), TypingLimit(field)) == Reached
  {
  }

  /** The typing limits of the optional fields are below the validator's, so
      stored values never break a length rule: the only error the form can
      report is a missing name. */
  lemma TypedFormOnlyFailsOnName(data: FormData)
    requires WithinTypingLimits(data)
    ensures forall e :: e in ValidatePromptForm(AsFields(data)) ==> e == ValidationError("name", NameRequiredMessage)
  {
    assert |data.Get(Name)| <= TypingLimit(Name);
    assert |data.Get(OpeningLine)| <= TypingLimit(OpeningLine);
    assert |data.Get(CustomPrompt)| <= TypingLimit(CustomPrompt);
  }

  /** A snapshot of the form's state. */
  datatype FormState = FormState(formData: FormData, errors: seq<ValidationError>, submitError: string)

  class Form {
    var formData: FormData
    var errors: seq<ValidationError>
    var submitError: string

    function State(): FormState
      reads this
    {
      FormState(formData, errors, submitError)
    }

    constructor()
      ensures State() == FormState(EmptyForm, [], "")
    {
      formData := EmptyForm;
      errors := [];
      submitError := "";
    }

    /** The effect that runs when the modal opens. */
    method Open(mode: Mode, initialData: Option<Prompt>)
      modifies this
      ensures State() == FormState(InitialForm(mode, initialData), [], "")
    {
      formData := InitialForm(mode, initialData);
      errors := [];
      submitError := "";
    }

    /** `handleInputChange(field, value)`: the field keeps a prefix of the value,
        at most its typing limit long; the field's errors go when the first of
        them has a message; the submit error is cleared. */
    method HandleInputChange(field: Field, value: string)
      modifies this
      ensures formData == old(formData).Set(field, Truncate(value, TypingLimit(field)))
      ensures formData.Get(field) <= value
      ensures Truthy(GetFieldError(old(errors), FieldName(field))) ==>
        errors == WithoutField(old(errors), FieldName(field))
      ensures !Truthy(GetFieldError(old(errors), FieldName(field))) ==> errors == old(errors)
      ensures Truthy(GetFieldError(old(errors), FieldName(field))) ==>
        forall e :: e in errors ==> e.field != FieldName(field)
      ensures submitError == ""
      ensures WithinTypingLimits(old(formData)) ==> WithinTypingLimits(formData)
    {
      formData := formData.Set(field, Truncate(value, TypingLimit(field)));
      if Truthy(GetFieldError(errors, FieldName(field))) {
        errors := WithoutField(errors, FieldName(field));
      }
      submitError := "";
    }

    /** `handleSubmit`: the error list is replaced by the validator's verdict,
        and the form goes to `onSubmit` only when that list is empty. A
        rejection shows its message; a success leaves closing to the parent. */
    method HandleSubmit(outcome: SubmitOutcome) returns (submitted: Option<FormData>)
      modifies this
      ensures errors == ValidatePromptForm(AsFields(old(formData)))
      ensures submitted.Some? <==> errors == []
      ensures formData == old(formData)
      ensures submitted.None? || outcome.Resolved? ==> submitError == old(submitError)
      ensures submitted.Some? ==> submitted.value == old(formData)
      ensures submitted.Some? && outcome.RejectedWith? ==> submitError == SubmitErrorText(outcome.failure)
    {
      var accepted := Validate();
      if accepted {
        submitted := Some(formData);
        if outcome.RejectedWith? {
          submitError := SubmitErrorText(outcome.failure);
        }
      } else {
        submitted := None;
      }
    }

    /** The first step of `handleSubmit`: the error list becomes the
        validator's verdict on the current data. */
    method Validate() returns (accepted: bool)
      modifies this
      ensures errors == ValidatePromptForm(AsFields(old(formData)))
      ensures accepted <==> errors == []
      ensures formData == old(formData) && submitError == old(submitError)
    {
      var data := formData;
      errors := ValidatePromptForm(AsFields(data));
      accepted := |errors| == 0;
    }

    /** `handleClose`: the modal closes only when nothing is being submitted. */
    method HandleClose(isSubmitting: bool) returns (closes: bool)
      ensures closes <==> !isSubmitting
    {
      closes := !isSubmitting;
    }
  }
}
