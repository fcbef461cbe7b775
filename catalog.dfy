/** The records the front end exchanges with the server and keeps in its forms.
    JavaScript's `x || default` on a missing or empty field is modelled with `Option`. */
module Catalog {
  import opened Wrappers

  /** Server-assigned identifier of a category or a product. */
  type Id = int

  /** A category as the server returns it; `name` and `description` may be missing. */
  datatype Category = Category(id: Id, name: Option<string>, description: Option<string>)

  /** The category snapshot a product may embed for display. */
  datatype CategorySummary = CategorySummary(name: Option<string>)

  /** A product as the server returns it. */
  datatype Product = Product(
    id: Id,
    name: Option<string>,
    price: Option<real>,
    categoryId: Option<Id>,
    inStock: Option<bool>,
    category: Option<CategorySummary>)

  /** `name`/`description` state of the category form; also the body of a category write. */
  datatype CategoryFields = CategoryFields(name: string, description: string)

  /** State of the product form. `None` stands for the empty string `''` the inputs hold when
      nothing is entered; the price is kept as the number it denotes. */
  datatype ProductFields = ProductFields(
    name: string,
    price: Option<real>,
    categoryId: Option<Id>,
    inStock: bool)

  /** A JavaScript number produced by `parseFloat`/`parseInt`: a value, or `NaN` when there
      was nothing to parse. */
  datatype Parsed<T> = Number(value: T) | NaN

  /** The body of a product write: the form data with price and category converted to numbers. */
  datatype ProductPayload = ProductPayload(
    name: string,
    price: Parsed<real>,
    categoryId: Parsed<Id>,
    inStock: bool)

  /** A toast notification raised by the front end. */
  datatype Notice = SuccessNotice(text: string) | ErrorNotice(text: string)

  /** `s || ''` for an optional string. */
  function OrEmpty(s: Option<string>): string {
    if s.Some? then s.value else ""
  }

  /** `s || fallback` for an optional string: a missing or empty string gives the fallback. */
  function OrElse(s: Option<string>, fallback: string): (r: string)
    ensures s.Some? && s.value != "" ==> r == s.value
    ensures (s.None? || s.value == "") ==> r == fallback
  {
    if s.Some? && s.value != "" then s.value else fallback
  }
}
