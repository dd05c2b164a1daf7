/** The side sheet in which a prompt is written: three text fields cut to the
    server's limits as they are typed, a sheet-level validation with a minimum
    name length, and the submit and reset handlers. The sheet's `isOpen`,
    `mode` and `initialData` props are arguments of the handlers that read
    them. The debounced live preview is not modelled. */
module EngineeringSheet {
  import opened Wrappers
  import opened Text
  import opened Http
  import opened PromptTypes
  import PromptUtils

  /** A key of `PromptFormData`. */
  datatype Field = Name | OpeningLine | CustomPrompt

  /** `mode` */
  datatype Mode = CreateMode | EditMode

  /** `LIMITS`: the same limits the server enforces. */
  function Limit(field: Field): (r: nat)
    ensures r == match field
      case Name => PromptUtils.NameLimit
      case OpeningLine => PromptUtils.OpeningLineLimit
      case CustomPrompt => PromptUtils.CustomPromptLimit
  {
    match field
    case Name => 100
    case OpeningLine => 1500
    case CustomPrompt => 15000
  }

  /** `PromptFormData`: every field is a string, possibly empty. */
  datatype FormData = FormData(name: string, openingLine: string, customPrompt: string)
  {
    function Get(field: Field): string {
      match field
      case Name => name
      case OpeningLine => openingLine
      case CustomPrompt => customPrompt
    }

    /** `{ ...prev, [field]: value }` */
    function Set(field: Field, value: string): (r: FormData)
      ensures r.Get(field) == value
      ensures forall other :: other != field ==> r.Get(other) == Get(other)
    {
      match field
      case Name => this.(name := value)
      case OpeningLine => this.(openingLine := value)
      case CustomPrompt => this.(customPrompt := value)
    }

    /** Every field within its limit: what typing into the sheet maintains. */
    predicate WithinLimits() {
      forall field: Field :: |Get(field)| <= Limit(field)
    }
  }

  const EmptyForm := FormData("", "", "")

  const NameRequired := "Prompt name is required"
  const NameTooShort := "Prompt name must be at least 3 characters"
  const CustomPromptTooShort := "Custom instructions must be at least 10 characters if provided"
  const UnexpectedError := "An unexpected error occurred. Please try again."

  /** The error record `validateForm` builds: at most one name error, "required"
      for a blank name and the minimum-length error for a short one, and a
      custom-instructions error exactly for a non-empty text under 10
      characters. The opening line is never checked here. */
  function FormErrors(data: FormData): (r: map<Field, string>)
    ensures Name in r <==> IsBlank(data.name) || |data.name| < 3
    ensures Name in r && IsBlank(data.name) ==> r[Name] == NameRequired
    ensures Name in r && !IsBlank(data.name) ==> r[Name] == NameTooShort
    ensures CustomPrompt in r <==> 0 < |data.customPrompt| < 10
    ensures CustomPrompt in r ==> r[CustomPrompt] == CustomPromptTooShort
    ensures OpeningLine !in r
    ensures forall field :: field in r ==> r[field] != ""
  {
    var names := NameErrors(data.name);
    assert NameRequired != "" && NameTooShort != "" && CustomPromptTooShort != "";
    if 0 < |data.customPrompt| < 10 then names[CustomPrompt := CustomPromptTooShort]
    else names
  }

  /** The name's part of the error record: one entry at most, under `name`. */
  function NameErrors(name: string): (r: map<Field, string>)
    ensures r.Keys <= {Name}
    ensures Name in r <==> IsBlank(name) || |name| < 3
    ensures Name in r ==> r[Name] == if IsBlank(name) then NameRequired else NameTooShort
  {
    if IsBlank(name) then map[Name := NameRequired]
    else if |name| < 3 then map[Name := NameTooShort]
    else map[]
  }

  /** `setErrors(prev => ({ ...prev, [field]: '' }))` when `errors[field]` is
      truthy: the message is emptied but its key stays. */
  function ClearFieldError(errors: map<Field, string>, field: Field): (r: map<Field, string>)
    ensures r.Keys == errors.Keys
    ensures field in r ==> r[field] == ""
    ensures forall other :: other in errors && other != field ==> r[other] == errors[other]
  {
    if field in errors && errors[field] != "" then errors[field := ""] else errors
  }

  /** The form the sheet shows when it opens or is reset: the prompt's fields in
      edit mode with a prompt, absent optional fields read as empty; an empty
      form otherwise. */
  function InitialForm(mode: Mode, initialData: Option<Prompt>): (r: FormData)
    ensures mode == EditMode && initialData.Some? ==>
      && r.name == initialData.value.name
      && r.openingLine == initialData.value.openingLine.GetOr("")
      && r.customPrompt == initialData.value.customPrompt.GetOr("")
    ensures !(mode == EditMode && initialData.Some?) ==> r == EmptyForm
  {
    if mode == EditMode && initialData.Some? then
      var p := initialData.value;
      FormData(p.name, p.openingLine.GetOr(""), p.customPrompt.GetOr(""))
    else
      EmptyForm
  }

  /** The character counter's colour. */
  datatype CharacterStatus = Normal | Warning | Danger
  {
    function Rank(): nat {
      match this
      case Normal => 0
      case Warning => 1
      case Danger => 2
    }
  }

  /** `getCharacterStatus`: the percentage `length / limit * 100` compared with
      90 and 75, by cross-multiplication; the three colours partition the
      lengths at 75% and 90% of the limit. */
  function CharacterStatusOf(length: nat, limit: nat): (r: CharacterStatus)
    requires limit > 0
    ensures r == Danger <==> 100 * length >= 90 * limit
    ensures r == Warning <==> 75 * limit <= 100 * length < 90 * limit
    ensures r == Normal <==> 100 * length < 75 * limit
  {
    if 100 * length >= 90 * limit then Danger
    else if 100 * length >= 75 * limit then Warning
    else Normal
  }

  /** A longer text never has a calmer counter. */
  lemma CharacterStatusMonotone(shorter: nat, longer: nat, limit: nat)
    requires limit > 0 && shorter <= longer
    ensures CharacterStatusOf(shorter, limit).Rank() <= CharacterStatusOf(longer, limit).Rank()
  {
    assert 100 * shorter <= 100 * longer;
  }

  /** What the parent's `onSubmit` promise does. */
  datatype SubmitOutcome = Resolved | RejectedWith(failure: Thrown)

  /** The text shown for a rejected submission. */
  function SubmitErrorText(e: Thrown): (r: string)
    ensures e.ThrownError? ==> r == e.message
    ensures !e.ThrownError? ==> r == UnexpectedError
  {
    if e.ThrownError? then e.message else UnexpectedError
  }

  /** A snapshot of the sheet's state. */
  datatype SheetState = SheetState(
    formData: FormData,
    errors: map<Field, string>,
    submitError: string,
    hasUnsavedChanges: bool)

  class Sheet {
    var formData: FormData
    var errors: map<Field, string>
    var submitError: string
    var hasUnsavedChanges: bool

    function State(): SheetState
      reads this
    {
      SheetState(formData, errors, submitError, hasUnsavedChanges)
    }

    constructor()
      ensures State() == SheetState(EmptyForm, map[], "", false)
    {
      formData := EmptyForm;
      errors := map[];
      submitError := "";
      hasUnsavedChanges := false;
    }

    /** The submit button's `disabled` test: any error key counts, even one
        whose message has been emptied. */
    predicate SubmitDisabled(isSubmitting: bool): (r: bool)
      reads this
      ensures isSubmitting ==> r
      ensures !isSubmitting ==> (r <==> exists f :: f in errors)
    {
      isSubmitting || |errors| > 0
    }

    /** The effect that runs when the sheet opens: everything is reset. */
    method Open(mode: Mode, initialData: Option<Prompt>)
      modifies this
      ensures State() == SheetState(InitialForm(mode, initialData), map[], "", false)
    {
      formData := InitialForm(mode, initialData);
      errors := map[];
      submitError := "";
      hasUnsavedChanges := false;
    }

    /** `handleInputChange(field, value)`: the field keeps the first `Limit(field)`
        characters of the value, its error message is emptied, any submit error
        is cleared and the form is marked changed. */
    method HandleInputChange(field: Field, value: string)
      modifies this
      ensures State() == SheetState(
        old(formData).Set(field, Truncate(value, Limit(field))),
        ClearFieldError(old(errors), field), "", true)
      ensures old(formData).WithinLimits() ==> formData.WithinLimits()
      ensures SubmitDisabled(false) == old(SubmitDisabled(false))
    {
      formData := formData.Set(field, Truncate(value, Limit(field)));
      errors := ClearFieldError(errors, field);
      submitError := "";
      hasUnsavedChanges := true;
    }

    /** `validateForm()`: the error record is replaced, and the form is valid
        exactly when the record is empty. */
    method ValidateForm() returns (valid: bool)
      modifies this
      ensures State() == old(State()).(errors := FormErrors(old(formData)))
      ensures valid <==> errors == map[]
    {
      errors := FormErrors(formData);
      valid := |errors| == 0;
    }

    /** `handleSubmit`: the form goes to `onSubmit` only when it validates. A
        resolved call clears the changed mark; a rejected one shows its message
        and keeps the mark. */
    method HandleSubmit(outcome: SubmitOutcome) returns (submitted: Option<FormData>)
      modifies this
      ensures FormErrors(old(formData)) != map[] ==>
        submitted == None && State() == old(State()).(errors := FormErrors(old(formData)))
      ensures FormErrors(old(formData)) == map[] ==>
        && submitted == Some(old(formData))
        && (outcome.Resolved? ==>
              State() == old(State()).(errors := map[], hasUnsavedChanges := false))
        && (outcome.RejectedWith? ==>
              State() == old(State()).(errors := map[], submitError := SubmitErrorText(outcome.failure)))
    {
      var valid := ValidateForm();
      if !valid {
        submitted := None;
        return;
      }
      submitted := Some(formData);
      match outcome
      case Resolved =>
        hasUnsavedChanges := false;
      case RejectedWith(e) =>
        submitError := SubmitErrorText(e);
    }

    /** `resetForm`: like opening, except that the submit error is kept. */
    method ResetForm(mode: Mode, initialData: Option<Prompt>)
      modifies this
      ensures State() == old(State()).(formData := InitialForm(mode, initialData),
                                       errors := map[], hasUnsavedChanges := false)
    {
      formData := InitialForm(mode, initialData);
      hasUnsavedChanges := false;
      errors := map[];
    }
  }

  /** A form the sheet submits, if it is within the limits, passes the server's
      validation once its name is trimmed, as the manager sends it; the
      optional fields pass even untrimmed. */
  lemma SubmittedFormPassesServer(data: FormData)
    requires data.WithinLimits() && FormErrors(data) == map[]
    ensures PromptUtils.ServerAccepts(PromptFields(Some(Trim(data.name)),
      Some(Trim(data.openingLine)), Some(Trim(data.customPrompt))))
    ensures PromptUtils.ServerAccepts(PromptFields(Some(data.name),
      Some(data.openingLine), Some(data.customPrompt)))
  {
    assert Name !in FormErrors(data);
    assert |data.Get(Name)| <= Limit(Name);
    assert |data.Get(OpeningLine)| <= Limit(OpeningLine);
    assert |data.Get(CustomPrompt)| <= Limit(CustomPrompt);
    TrimKeepsBlankness(data.name);
  }

  /** Trimming shortens a string and keeps it non-blank. */
  lemma TrimKeepsBlankness(s: string)
    ensures |Trim(s)| <= |s|
    ensures IsBlank(Trim(s)) <==> IsBlank(s)
  {
    TrimIdempotent(s);
  }
}
