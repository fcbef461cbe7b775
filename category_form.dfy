/** The category form controller (src/components/Categories/CategoryForm.js): field state,
    per-field errors, the prefill effect, validation and the submit gate. */
module CategoryForm {
  import opened Wrappers
  import opened Text
  import opened Catalog
  import opened Api
  import opened FormErrors
  import CategoryService

  /** The form's inputs, by their `name` attribute. */
  datatype Field = Name | Description

  /** The validation messages. */
  datatype Message = NameRequired | NameTooShort | DescriptionTooLong

  function MessageText(m: Message): (r: string)
    ensures r != ""
  {
    match m
    case NameRequired => "Category name is required"
    case NameTooShort => "Category name must be at least 2 characters"
    case DescriptionTooLong => "Description cannot exceed 500 characters"
  }

  type Errors = FormErrors.Errors<Field, Message>

  const MinNameLength: nat := 2
  const MaxDescriptionLength: nat := 500

  const UpdatedMessage: string := "Category updated successfully"
  const CreatedMessage: string := "Category created successfully"
  const FailedMessage: string := "Operation failed"

  const EmptyFields: CategoryFields := CategoryFields("", "")

  /** The form accepts a name of at least two characters once trimmed and a description of at
      most 500 characters. */
  predicate IsValid(f: CategoryFields) {
    Utf16Length(Trim(f.name)) >= MinNameLength && Utf16Length(f.description) <= MaxDescriptionLength
  }

  /** The errors validation leaves for `f`: one entry per failed rule and nothing else. */
  function ErrorsFor(f: CategoryFields): (e: Errors)
    ensures Name in e <==> Utf16Length(Trim(f.name)) < MinNameLength
    ensures Description in e <==> Utf16Length(f.description) > MaxDescriptionLength
    ensures Name in e ==> e[Name] == Shown(NameTooShort)
    ensures Description in e ==> e[Description] == Shown(DescriptionTooLong)
  {
    (if Utf16Length(Trim(f.name)) < MinNameLength then map[Name := Shown(NameTooShort)] else map[]) +
    (if Utf16Length(f.description) > MaxDescriptionLength then map[Description := Shown(DescriptionTooLong)] else map[])
  }

  /** The name input: `error={!!errors.name}` and `helperText={errors.name}`. It is flagged,
      and captioned with the message, exactly while an error is shown. */
  function NameHint(e: Errors): (h: FieldHint)
    ensures h.flagged <==> HasError(e, Name)
    ensures HasError(e, Name) ==> h.caption == MessageText(e[Name].message)
    ensures !HasError(e, Name) ==> h.caption == ""
  {
    var s := ErrorString(e, Name, MessageText);
    FieldHint(s != "", s)
  }

  /** The description input: flagged and captioned with the message while an error is shown,
      otherwise captioned with the counter `${formData.description.length}/500`. */
  function DescriptionHint(e: Errors, description: string): (h: FieldHint)
    ensures h.flagged <==> HasError(e, Description)
    ensures HasError(e, Description) ==> h.caption == MessageText(e[Description].message)
    ensures !HasError(e, Description) ==> h.caption == NatToString(Utf16Length(description)) + "/500"
  {
    var s := ErrorString(e, Description, MessageText);
    FieldHint(s != "", if s != "" then s else NatToString(Utf16Length(description)) + "/500")
  }

  /** After validation an input is flagged exactly when its rule failed, and a valid form
      flags nothing and shows the description counter. */
  lemma HintsAfterValidation(f: CategoryFields)
    ensures NameHint(ErrorsFor(f)).flagged <==> Utf16Length(Trim(f.name)) < MinNameLength
    ensures DescriptionHint(ErrorsFor(f), f.description).flagged <==> Utf16Length(f.description) > MaxDescriptionLength
    ensures IsValid(f) <==> !NameHint(ErrorsFor(f)).flagged && !DescriptionHint(ErrorsFor(f), f.description).flagged
    ensures DescriptionHint(ErrorsFor(f), f.description).flagged ==>
      DescriptionHint(ErrorsFor(f), f.description).caption == "Description cannot exceed 500 characters"
  {
  }

  lemma ValidIffNoErrors(f: CategoryFields)
    ensures ErrorsFor(f) == map[] <==> IsValid(f)
  {
    if !IsValid(f) {
      assert Name in ErrorsFor(f) || Description in ErrorsFor(f);
    }
  }

  /** A blank or all-white-space name ends with the length message: the "required" message is
      always overwritten. */
  lemma BlankNameGetsLengthMessage(f: CategoryFields)
    requires AllWhitespace(f.name)
    ensures Name in ErrorsFor(f) && ErrorsFor(f)[Name] == Shown(NameTooShort)
    ensures !IsValid(f)
  {
    TrimEmptyIff(f.name);
  }

  /** The length rules count UTF-16 code units, as JavaScript's `length` does: one character
      outside the Basic Multilingual Plane, such as an emoji, is already a name of length 2. */
  lemma AstralNameAccepted(c: char, description: string)
    requires c as int > 0xFFFF && !IsWhitespace(c)
    requires Utf16Length(description) <= MaxDescriptionLength
    ensures Trim([c]) == [c] && Utf16Length([c]) == MinNameLength
    ensures IsValid(CategoryFields([c], description))
  {
    assert TrimStart([c]) == [c];
    assert TrimEnd([c]) == [c];
  }

  /** A description of more than 250 emoji exceeds 500 code units and is rejected. */
  lemma AstralDescriptionTooLong(f: CategoryFields)
    requires forall i :: 0 <= i < |f.description| ==> f.description[i] as int > 0xFFFF
    requires 2 * |f.description| > MaxDescriptionLength
    ensures Description in ErrorsFor(f) && ErrorsFor(f)[Description] == Shown(DescriptionTooLong)
    ensures !IsValid(f)
  {
    Utf16LengthAllAstral(f.description);
  }

  /** `{ ...formData, [name]: value }`. */
  function WithField(f: CategoryFields, k: Field, value: string): (r: CategoryFields)
    ensures k == Name ==> r.name == value && r.description == f.description
    ensures k == Description ==> r.description == value && r.name == f.name
  {
    match k
    case Name => f.(name := value)
    case Description => f.(description := value)
  }

  /** The fields the prefill effect sets: the category's, with missing ones as `''`, or empty
      fields when there is no category. */
  function PrefillFields(category: Option<Category>): (r: CategoryFields)
    ensures category.None? ==> r == EmptyFields
    ensures category.Some? ==> r.name == OrEmpty(category.value.name) && r.description == OrEmpty(category.value.description)
  {
    match category
    case None => EmptyFields
    case Some(c) => CategoryFields(OrEmpty(c.name), OrEmpty(c.description))
  }

  /** Editing a category that the server holds with a valid name and description prefills a
      form that passes validation unchanged. */
  lemma PrefilledValidCategoryAccepted(c: Category)
    requires c.name.Some? && Utf16Length(Trim(c.name.value)) >= MinNameLength
    requires c.description.None? || Utf16Length(c.description.value) <= MaxDescriptionLength
    ensures IsValid(PrefillFields(Some(c)))
  {
  }

  /** The request a valid submit issues. */
  function SubmitRequest(category: Option<Category>, f: CategoryFields): (r: Request)
    ensures r.body == CategoryBody(f)
    ensures category.Some? ==> PathId(CategoryService.ItemPrefix, r.path) == Some(category.value.id)
    ensures category.None? ==> r == CategoryService.CreateRequest(f)
  {
    if category.Some? then CategoryService.UpdateRequest(category.value.id, f)
    else CategoryService.CreateRequest(f)
  }

  class Form {
    var formData: CategoryFields
    var errors: Errors
    var submitting: bool

    constructor ()
      ensures formData == EmptyFields && errors == map[] && !submitting
    {
      formData := EmptyFields;
      errors := map[];
      submitting := false;
    }

    /** The effect that runs when `category` or `open` changes. */
    method Prefill(category: Option<Category>)
      modifies this`formData, this`errors
      ensures formData == PrefillFields(category)
      ensures errors == map[]
    {
      if category.Some? {
        formData := CategoryFields(OrEmpty(category.value.name), OrEmpty(category.value.description));
        errors := map[];
      } else {
        formData := CategoryFields("", "");
        errors := map[];
      }
    }

    /** `validateForm`: builds the error map rule by rule, replaces `errors` with it, and
        reports whether it is empty. */
    method ValidateForm() returns (ok: bool)
      modifies this`errors
      ensures errors == ErrorsFor(formData)
      ensures ok <==> IsValid(formData)
    {
      var f := formData;
      var trimmed := Trim(f.name);
      var newErrors: Errors := map[];
      if trimmed == [] {
        newErrors := newErrors[Name := Shown(NameRequired)];
      }
      if Utf16Length(trimmed) < MinNameLength {
        newErrors := newErrors[Name := Shown(NameTooShort)];
      }
      assert newErrors == if Utf16Length(trimmed) < MinNameLength then map[Name := Shown(NameTooShort)] else map[];
      if Utf16Length(f.description) > MaxDescriptionLength {
        newErrors := newErrors[Description := Shown(DescriptionTooLong)];
      }
      assert newErrors == ErrorsFor(f);
      errors := newErrors;
      ok := newErrors == map[];
      ValidIffNoErrors(formData);
    }

    /** `handleChange`: writes one field and clears only that field's error, if shown. */
    method HandleChange(field: Field, value: string)
      modifies this`formData, this`errors
      ensures formData == WithField(old(formData), field, value)
      ensures errors == ClearError(old(errors), field)
    {
      formData := WithField(formData, field, value);
      if HasError(errors, field) {
        errors := errors[field := Blank];
      }
    }

    /** `handleSubmit`: invalid input issues no request; valid input issues an update of the
        edited category or a create, with `submitting` raised while it is in flight and
        lowered afterwards. `done` tells that `onSuccess` and then `onClose` were called. */
    method HandleSubmit(category: Option<Category>, outcome: Result<(), Thrown>)
      returns (requests: seq<Request>, notices: seq<Notice>, done: bool, ghost submittingWhenIssued: bool)
      modifies this`errors, this`submitting
      ensures errors == ErrorsFor(formData)
      ensures !IsValid(formData) ==> requests == [] && notices == [] && submitting == old(submitting)
      ensures IsValid(formData) ==> requests == [SubmitRequest(category, formData)] && submittingWhenIssued && !submitting
      ensures done <==> IsValid(formData) && outcome.Success?
      ensures IsValid(formData) && outcome.Success? ==>
        notices == [SuccessNotice(if category.Some? then UpdatedMessage else CreatedMessage)]
      ensures IsValid(formData) && outcome.Failure? ==> notices == ErrorNotices(outcome.error, FailedMessage)
    {
      var ok := ValidateForm();
      if !ok {
        return [], [], false, false;
      }
      submitting := true;
      if category.Some? {
        requests := [CategoryService.UpdateRequest(category.value.id, formData)];
      } else {
        requests := [CategoryService.CreateRequest(formData)];
      }
      submittingWhenIssued := submitting;
      match outcome {
        case Success(_) =>
          notices := [SuccessNotice(if category.Some? then UpdatedMessage else CreatedMessage)];
          done := true;
        case Failure(e) =>
          notices := ErrorNotices(e, FailedMessage);
          done := false;
      }
      submitting := false;
    }
  }
}
