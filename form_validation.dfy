/** The client-side form validation: one error record per offending field, with
    the same length limits as the server and a stricter name rule. */
module FormValidation {
  import opened Wrappers
  import opened Text
  import opened PromptTypes
  import PromptUtils

  const NameLimit := 100
  const OpeningLineLimit := 1500
  const CustomPromptLimit := 15000

  const NameRequiredMessage := "Prompt name is required"
  const NameTooLongMessage := "Prompt name must be 100 characters or less"
  const OpeningLineTooLongMessage := "Opening line must be 1,500 characters or less"
  const CustomPromptTooLongMessage := "Custom instructions must be 15,000 characters or less"

  /** `{ field, message }` */
  datatype ValidationError = ValidationError(field: string, message: string)

  /** The order in which the form reports its fields. */
  function FieldRank(field: string): nat {
    if field == "name" then 0 else if field == "openingLine" then 1 else 2
  }

  /** The name's errors: "required" for a missing or blank name, otherwise
      "too long" over the limit. */
  function NameErrors(data: PromptFields): (r: seq<ValidationError>)
    ensures |r| <= 1 && forall e :: e in r ==> e.field == "name"
    ensures ValidationError("name", NameRequiredMessage) in r <==> data.name.None? || IsBlank(data.name.value)
    ensures ValidationError("name", NameTooLongMessage) in r
      <==> data.name.Some? && !IsBlank(data.name.value) && |data.name.value| > NameLimit
    ensures r == [] <==> Truthy(data.name) && !IsBlank(data.name.value) && |data.name.value| <= NameLimit
  {
    if !Truthy(data.name) || IsBlank(data.name.value) then
      [ValidationError("name", NameRequiredMessage)]
    else if |data.name.value| > NameLimit then
      [ValidationError("name", NameTooLongMessage)]
    else
      []
  }

  /** The opening line's error: present and over its limit. */
  function OpeningLineErrors(data: PromptFields): (r: seq<ValidationError>)
    ensures r == [] || r == [ValidationError("openingLine", OpeningLineTooLongMessage)]
    ensures r == [] <==> data.openingLine.None? || |data.openingLine.value| <= OpeningLineLimit
  {
    if Truthy(data.openingLine) && |data.openingLine.value| > OpeningLineLimit then
      [ValidationError("openingLine", OpeningLineTooLongMessage)]
    else
      []
  }

  /** The custom instructions' error: present and over their limit. */
  function CustomPromptErrors(data: PromptFields): (r: seq<ValidationError>)
    ensures r == [] || r == [ValidationError("customPrompt", CustomPromptTooLongMessage)]
    ensures r == [] <==> data.customPrompt.None? || |data.customPrompt.value| <= CustomPromptLimit
  {
    if Truthy(data.customPrompt) && |data.customPrompt.value| > CustomPromptLimit then
      [ValidationError("customPrompt", CustomPromptTooLongMessage)]
    else
      []
  }

  /** What the form accepts, field by field. */
  predicate FormAccepts(data: PromptFields) {
    && Truthy(data.name) && !IsBlank(data.name.value) && |data.name.value| <= NameLimit
    && (data.openingLine.None? || |data.openingLine.value| <= OpeningLineLimit)
    && (data.customPrompt.None? || |data.customPrompt.value| <= CustomPromptLimit)
  }

  /** `validatePromptForm`. The form data is taken with an optional name because
      the `!data.name` test also admits `undefined`. At most one name error
      ("required" wins over "too long"); a length error for an optional field
      exactly when it is present and over its limit; fields reported in the
      order name, openingLine, customPrompt, each at most once; and no error at
      all exactly when the form accepts the data. */
  function ValidatePromptForm(data: PromptFields): (r: seq<ValidationError>)
    ensures |r| <= 3
    ensures forall i, j :: 0 <= i < j < |r| ==> FieldRank(r[i].field) < FieldRank(r[j].field)
    ensures ValidationError("name", NameRequiredMessage) in r
      <==> data.name.None? || IsBlank(data.name.value)
    ensures ValidationError("name", NameTooLongMessage) in r
      <==> data.name.Some? && !IsBlank(data.name.value) && |data.name.value| > NameLimit
    ensures ValidationError("openingLine", OpeningLineTooLongMessage) in r
      <==> data.openingLine.Some? && |data.openingLine.value| > OpeningLineLimit
    ensures ValidationError("customPrompt", CustomPromptTooLongMessage) in r
      <==> data.customPrompt.Some? && |data.customPrompt.value| > CustomPromptLimit
    ensures r == [] <==> FormAccepts(data)
  {
    NameErrors(data) + OpeningLineErrors(data) + CustomPromptErrors(data)
  }

  /** Whatever the form accepts, the server accepts too. */
  lemma FormAcceptanceImpliesServerAcceptance(data: PromptFields)
    requires ValidatePromptForm(data) == []
    ensures PromptUtils.ValidatePromptData(data) == []
  {
    PromptUtils.ValidatePromptDataEmptyIff(data);
  }

  /** The converse fails: with no name at all the server reports nothing while the
      form reports the name as required. */
  lemma ServerAcceptsWhatFormRejects()
    ensures PromptUtils.ValidatePromptData(PromptFields(None, None, None)) == []
    ensures ValidatePromptForm(PromptFields(None, None, None))
      == [ValidationError("name", NameRequiredMessage)]
  {
    PromptUtils.ValidatePromptDataEmptyIff(PromptFields(None, None, None));
  }

  /** `getFieldError`: the message of the first error on that field, if any. */
  function GetFieldError(errors: seq<ValidationError>, fieldName: string): (r: Option<string>)
    ensures r.None? <==> forall e :: e in errors ==> e.field != fieldName
    ensures r.Some? ==> exists i ::
      && 0 <= i < |errors| && errors[i] == ValidationError(fieldName, r.value)
      && forall k :: 0 <= k < i ==> errors[k].field != fieldName
  {
    if errors == [] then None
    else if errors[0].field == fieldName then Some(errors[0].message)
    else
      var r := GetFieldError(errors[1..], fieldName);
      assert r.Some? ==> exists i ::
        && 0 < i < |errors| && errors[i] == ValidationError(fieldName, r.value)
        && forall k :: 0 <= k < i ==> errors[k].field != fieldName
      by {
        if r.Some? {
          var i :| && 0 <= i < |errors[1..]| && errors[1..][i] == ValidationError(fieldName, r.value)
                   && forall k :: 0 <= k < i ==> errors[1..][k].field != fieldName;
          assert errors[i + 1] == ValidationError(fieldName, r.value);
          forall k | 0 <= k < i + 1 ensures errors[k].field != fieldName {
            if k > 0 { assert errors[k] == errors[1..][k - 1]; }
          }
        }
      }
      r
  }

  /** `hasValidationErrors` */
  predicate HasValidationErrors(errors: seq<ValidationError>) {
    |errors| > 0
  }

  /** The form shows errors exactly when it rejects the data. */
  lemma HasValidationErrorsIffRejected(data: PromptFields)
    ensures HasValidationErrors(ValidatePromptForm(data)) <==> !FormAccepts(data)
  {
  }
}
