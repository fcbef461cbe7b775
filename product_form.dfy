/** The product form controller (src/components/Products/ProductForm.js): field state,
    per-field errors, the prefill and category-refresh effects, validation, the payload and
    the submit gate. */
module ProductForm {
  import opened Wrappers
  import opened Text
  import opened Catalog
  import opened Api
  import opened FormErrors
  import ProductService
  import AppContext
  import CategoryService

  /** The form's inputs, by their `name` attribute. */
  datatype Field = Name | Price | CategoryId | InStock

  /** The validation messages. */
  datatype Message = NameRequired | NameTooShort | PriceInvalid | CategoryRequired

  function MessageText(m: Message): (r: string)
    ensures r != ""
  {
    match m
    case NameRequired => "Product name is required"
    case NameTooShort => "Product name must be at least 2 characters"
    case PriceInvalid => "Valid price is required (must be greater than 0)"
    case CategoryRequired => "Category is required"
  }

  type Errors = FormErrors.Errors<Field, Message>

  const MinNameLength: nat := 2

  const UpdatedMessage: string := "Product updated successfully"
  const CreatedMessage: string := "Product created successfully"
  const FailedMessage: string := "Operation failed"

  /** `{ name: '', price: '', categoryId: '', inStock: true }`. */
  const EmptyFields: ProductFields := ProductFields("", None, None, true)

  /** `formData.price` is truthy and greater than zero. */
  predicate HasPositivePrice(f: ProductFields) {
    f.price.Some? && f.price.value > 0.0
  }

  /** `formData.categoryId` is truthy: present and not the id 0. */
  predicate HasCategory(f: ProductFields) {
    f.categoryId.Some? && f.categoryId.value != 0
  }

  /** The form accepts a name of at least two characters once trimmed, a positive price and a
      chosen category. */
  predicate IsValid(f: ProductFields) {
    Utf16Length(Trim(f.name)) >= MinNameLength && HasPositivePrice(f) && HasCategory(f)
  }

  /** The errors validation leaves for `f`: one entry per failed rule and nothing else. */
  function ErrorsFor(f: ProductFields): (e: Errors)
    ensures Name in e <==> Utf16Length(Trim(f.name)) < MinNameLength
    ensures Price in e <==> !HasPositivePrice(f)
    ensures CategoryId in e <==> !HasCategory(f)
    ensures InStock !in e
    ensures Name in e ==> e[Name] == Shown(NameTooShort)
    ensures Price in e ==> e[Price] == Shown(PriceInvalid)
    ensures CategoryId in e ==> e[CategoryId] == Shown(CategoryRequired)
  {
    var byName: Errors := if Utf16Length(Trim(f.name)) < MinNameLength then map[Name := Shown(NameTooShort)] else map[];
    var byPrice := if HasPositivePrice(f) then byName else byName[Price := Shown(PriceInvalid)];
    if HasCategory(f) then byPrice else byPrice[CategoryId := Shown(CategoryRequired)]
  }

  /** What an input with an error shows: the name and price inputs' `error` flag and
      `helperText`, and the category select's `error` flag and the caption rendered under it
      while `errors.categoryId` is truthy. Each is flagged, and captioned with the message,
      exactly while an error is shown; the switch has no error display. */
  function Hint(e: Errors, k: Field): (h: FieldHint)
    requires k != InStock
    ensures h.flagged <==> HasError(e, k)
    ensures HasError(e, k) ==> h.caption == MessageText(e[k].message)
    ensures !HasError(e, k) ==> h.caption == ""
  {
    var s := ErrorString(e, k, MessageText);
    FieldHint(s != "", s)
  }

  /** After validation an input is flagged exactly when its rule failed, and a valid form
      flags nothing. */
  lemma HintsAfterValidation(f: ProductFields)
    ensures Hint(ErrorsFor(f), Name).flagged <==> Utf16Length(Trim(f.name)) < MinNameLength
    ensures Hint(ErrorsFor(f), Price).flagged <==> !HasPositivePrice(f)
    ensures Hint(ErrorsFor(f), CategoryId).flagged <==> !HasCategory(f)
    ensures IsValid(f) <==>
      !Hint(ErrorsFor(f), Name).flagged && !Hint(ErrorsFor(f), Price).flagged && !Hint(ErrorsFor(f), CategoryId).flagged
  {
  }

  lemma ValidIffNoErrors(f: ProductFields)
    ensures ErrorsFor(f) == map[] <==> IsValid(f)
  {
    if !IsValid(f) {
      assert Name in ErrorsFor(f) || Price in ErrorsFor(f) || CategoryId in ErrorsFor(f);
    }
  }

  /** A blank or all-white-space name ends with the length message. */
  lemma BlankNameGetsLengthMessage(f: ProductFields)
    requires AllWhitespace(f.name)
    ensures Name in ErrorsFor(f) && ErrorsFor(f)[Name] == Shown(NameTooShort)
    ensures !IsValid(f)
  {
    TrimEmptyIff(f.name);
  }

  /** A change event of one of the form's inputs. The switch is a checkbox, so its event
      carries `checked`; the others carry their `value`. */
  datatype Change =
    | NameInput(text: string)
    | PriceInput(price: Option<real>)      // the number field; `None` is ''
    | CategorySelect(choice: Option<Id>)   // the select; `None` is the '' placeholder item
    | StockToggle(checked: bool)

  function ChangedField(c: Change): Field {
    match c
    case NameInput(_) => Name
    case PriceInput(_) => Price
    case CategorySelect(_) => CategoryId
    case StockToggle(_) => InStock
  }

  /** `{ ...formData, [name]: newValue }`: only the changed input's field is written. */
  function WithChange(f: ProductFields, c: Change): (r: ProductFields)
    ensures c.NameInput? ==> r == f.(name := c.text)
    ensures c.PriceInput? ==> r == f.(price := c.price)
    ensures c.CategorySelect? ==> r == f.(categoryId := c.choice)
    ensures c.StockToggle? ==> r == f.(inStock := c.checked)
  {
    match c
    case NameInput(t) => f.(name := t)
    case PriceInput(p) => f.(price := p)
    case CategorySelect(id) => f.(categoryId := id)
    case StockToggle(b) => f.(inStock := b)
  }

  /** The fields the prefill effect sets for a product being edited: missing or falsy name,
      price and category become `''`; `inStock` defaults to true only when it is missing. */
  function ProductToFields(p: Product): (r: ProductFields)
    ensures r.name == OrEmpty(p.name)
    ensures r.price.Some? <==> p.price.Some? && p.price.value != 0.0
    ensures r.price.Some? ==> r.price == p.price
    ensures r.categoryId.Some? <==> p.categoryId.Some? && p.categoryId.value != 0
    ensures r.categoryId.Some? ==> r.categoryId == p.categoryId
    ensures r.inStock <==> p.inStock != Some(false)
  {
    ProductFields(
      OrEmpty(p.name),
      if p.price == Some(0.0) then None else p.price,
      if p.categoryId == Some(0) then None else p.categoryId,
      if p.inStock.Some? then p.inStock.value else true)
  }

  /** Editing a product the server holds with a valid name, a positive price and a category
      prefills a form that passes validation unchanged. */
  lemma PrefilledValidProductAccepted(p: Product)
    requires p.name.Some? && Utf16Length(Trim(p.name.value)) >= MinNameLength
    requires p.price.Some? && p.price.value > 0.0
    requires p.categoryId.Some? && p.categoryId.value != 0
    ensures IsValid(ProductToFields(p))
  {
  }

  /** `parseFloat(formData.price)`: a number exactly when a price was entered, and then that
      price; `''` gives `NaN`. */
  function ParsePrice(p: Option<real>): (r: Parsed<real>)
    ensures r.Number? <==> p.Some?
    ensures p.Some? ==> r.value == p.value
  {
    if p.Some? then Number(p.value) else NaN
  }

  /** `parseInt(formData.categoryId)`: a number exactly when a category was chosen, and then
      its id; `''` gives `NaN`. */
  function ParseCategoryId(c: Option<Id>): (r: Parsed<Id>)
    ensures r.Number? <==> c.Some?
    ensures c.Some? ==> r.value == c.value
  {
    if c.Some? then Number(c.value) else NaN
  }

  /** The submitted payload: `name` and `inStock` copied, price and category converted to
      numbers. A validated form yields a positive price and a non-zero category id. */
  function Payload(f: ProductFields): (p: ProductPayload)
    ensures p.name == f.name && p.inStock == f.inStock
    ensures p.price.Number? <==> f.price.Some?
    ensures p.categoryId.Number? <==> f.categoryId.Some?
    ensures IsValid(f) ==> p.price == Number(f.price.value) && p.price.value > 0.0
    ensures IsValid(f) ==> p.categoryId == Number(f.categoryId.value) && p.categoryId.value != 0
  {
    ProductPayload(f.name, ParsePrice(f.price), ParseCategoryId(f.categoryId), f.inStock)
  }

  /** The request a valid submit issues. */
  function SubmitRequest(product: Option<Product>, f: ProductFields): (r: Request)
    ensures r.body == ProductBody(Payload(f))
    ensures product.Some? ==> PathId(ProductService.ItemPrefix, r.path) == Some(product.value.id)
    ensures product.None? ==> r == ProductService.CreateRequest(Payload(f))
  {
    if product.Some? then ProductService.UpdateRequest(product.value.id, Payload(f))
    else ProductService.CreateRequest(Payload(f))
  }

  /** The submit button's `disabled` rule. */
  predicate SubmitDisabled(submitting: bool, categories: seq<Category>) {
    submitting || |categories| == 0
  }

  class Form {
    var formData: ProductFields
    var errors: Errors
    var submitting: bool

    constructor ()
      ensures formData == EmptyFields && errors == map[] && !submitting
    {
      formData := EmptyFields;
      errors := map[];
      submitting := false;
    }

    /** The effect on `[open]`: opening the form refreshes the shared category list. */
    method RefreshCategoriesOnOpen(open: bool, store: AppContext.Store, outcome: AppContext.ListOutcome<Category>)
      returns (requests: seq<Request>, notices: seq<Notice>)
      modifies store
      ensures open ==> requests == [CategoryService.GetAllRequest]
      ensures open ==> store.categories == AppContext.ListAfterFetch(old(store.categories), outcome) && !store.loading
      ensures open ==> notices == AppContext.FetchNotices(outcome, AppContext.CategoriesFailedMessage)
      ensures !open ==> requests == [] && notices == []
      ensures !open ==> store.categories == old(store.categories) && store.loading == old(store.loading)
      ensures store.products == old(store.products)
    {
      if open {
        var request, ns, _ := store.FetchCategories(outcome);
        requests, notices := [request], ns;
      } else {
        requests, notices := [], [];
      }
    }

    /** The effect on `[product, open]`: when open, the fields are those of the edited product,
        or empty ones, and the errors are cleared; when closed, nothing changes. */
    method Prefill(open: bool, product: Option<Product>)
      modifies this`formData, this`errors
      ensures open && product.Some? ==> formData == ProductToFields(product.value) && errors == map[]
      ensures open && product.None? ==> formData == EmptyFields && errors == map[]
      ensures !open ==> formData == old(formData) && errors == old(errors)
    {
      if product.Some? && open {
        formData := ProductToFields(product.value);
        errors := map[];
      } else if open && product.None? {
        formData := ProductFields("", None, None, true);
        errors := map[];
      }
    }

    /** `validateForm`: builds the error map rule by rule, replaces `errors` with it, and
        reports whether it is empty. */
    method ValidateForm() returns (ok: bool)
      modifies this`errors
      ensures errors == ErrorsFor(formData)
      ensures ok <==> IsValid(formData)
    {
      var f := formData;
      var trimmed := Trim(f.name);
      var newErrors: Errors := map[];
      if trimmed == [] {
        newErrors := newErrors[Name := Shown(NameRequired)];
      }
      if Utf16Length(trimmed) < MinNameLength {
        newErrors := newErrors[Name := Shown(NameTooShort)];
      }
      assert newErrors == if Utf16Length(trimmed) < MinNameLength then map[Name := Shown(NameTooShort)] else map[];
      ghost var byName := newErrors;
      if !HasPositivePrice(f) {
        newErrors := newErrors[Price := Shown(PriceInvalid)];
      }
      assert newErrors == if HasPositivePrice(f) then byName else byName[Price := Shown(PriceInvalid)];
      if !HasCategory(f) {
        newErrors := newErrors[CategoryId := Shown(CategoryRequired)];
      }
      assert newErrors == ErrorsFor(f);
      errors := newErrors;
      ok := newErrors == map[];
      ValidIffNoErrors(f);
    }

    /** `handleChange`: writes one field and clears only that field's error, if shown. */
    method HandleChange(change: Change)
      modifies this`formData, this`errors
      ensures formData == WithChange(old(formData), change)
      ensures errors == ClearError(old(errors), ChangedField(change))
    {
      formData := WithChange(formData, change);
      var field := ChangedField(change);
      if HasError(errors, field) {
        errors := errors[field := Blank];
      }
    }

    /** `handleSubmit`: invalid input issues no request; valid input issues an update of the
        edited product or a create with the converted payload, with `submitting` raised while
        it is in flight and lowered afterwards. `done` tells that `onSuccess` and then
        `onClose` were called. */
    method HandleSubmit(product: Option<Product>, outcome: Result<(), Thrown>)
      returns (requests: seq<Request>, notices: seq<Notice>, done: bool, ghost submittingWhenIssued: bool)
      modifies this`errors, this`submitting
      ensures errors == ErrorsFor(formData)
      ensures !IsValid(formData) ==> requests == [] && notices == [] && submitting == old(submitting)
      ensures IsValid(formData) ==> requests == [SubmitRequest(product, formData)] && submittingWhenIssued && !submitting
      ensures done <==> IsValid(formData) && outcome.Success?
      ensures IsValid(formData) && outcome.Success? ==>
        notices == [SuccessNotice(if product.Some? then UpdatedMessage else CreatedMessage)]
      ensures IsValid(formData) && outcome.Failure? ==> notices == ErrorNotices(outcome.error, FailedMessage)
    {
      var ok := ValidateForm();
      if !ok {
        return [], [], false, false;
      }
      submitting := true;
      var payload := ProductPayload(formData.name, ParsePrice(formData.price), ParseCategoryId(formData.categoryId), formData.inStock);
      if product.Some? {
        requests := [ProductService.UpdateRequest(product.value.id, payload)];
      } else {
        requests := [ProductService.CreateRequest(payload)];
      }
      submittingWhenIssued := submitting;
      match outcome {
        case Success(_) =>
          notices := [SuccessNotice(if product.Some? then UpdatedMessage else CreatedMessage)];
          done := true;
        case Failure(e) =>
          notices := ErrorNotices(e, FailedMessage);
          done := false;
      }
      submitting := false;
    }

    /** Submitting the form through its submit button, the only route to `handleSubmit`: a
        button disabled while a submit is in flight or while no category is loaded does nothing
        (and, being the form's default button, blocks implicit submission too); an enabled one
        runs `handleSubmit`. The categories are the shared store's. */
    method Submit(store: AppContext.Store, product: Option<Product>, outcome: Result<(), Thrown>)
      returns (requests: seq<Request>, notices: seq<Notice>, done: bool)
      modifies this`errors, this`submitting
      ensures store.categories == [] ==> requests == [] && notices == [] && !done
      ensures old(submitting) ==> requests == [] && notices == [] && !done
      ensures SubmitDisabled(old(submitting), store.categories) ==>
        errors == old(errors) && submitting == old(submitting)
      ensures !SubmitDisabled(old(submitting), store.categories) ==>
        errors == ErrorsFor(formData) && !submitting &&
        (requests != [] <==> IsValid(formData)) &&
        (IsValid(formData) ==> requests == [SubmitRequest(product, formData)]) &&
        (done <==> IsValid(formData) && outcome.Success?)
      ensures !SubmitDisabled(old(submitting), store.categories) && !IsValid(formData) ==> notices == []
      ensures !SubmitDisabled(old(submitting), store.categories) && IsValid(formData) && outcome.Success? ==>
        notices == [SuccessNotice(if product.Some? then UpdatedMessage else CreatedMessage)]
      ensures !SubmitDisabled(old(submitting), store.categories) && IsValid(formData) && outcome.Failure? ==>
        notices == ErrorNotices(outcome.error, FailedMessage)
    {
      if SubmitDisabled(submitting, store.categories) {
        return [], [], false;
      }
      ghost var inFlight;
      requests, notices, done, inFlight := HandleSubmit(product, outcome);
    }
  }
}
