/** The shared catalog store (src/context/AppContext.js): the category list, the product list
    and one `loading` flag, refreshed by two fetch operations. Each fetch is one sequential
    step: the awaited service call settles to the `outcome` parameter. */
module AppContext {
  import opened Wrappers
  import opened Catalog
  import opened Api
  import CategoryService
  import ProductService

  const CategoriesFailedMessage: string := "Failed to fetch categories"
  const ProductsFailedMessage: string := "Failed to fetch products"

  /** What a list call settles to: the response body's `data`, which may be missing, or the
      value the call threw. */
  type ListOutcome<T> = Result<Option<seq<T>>, Thrown>

  /** The list a fetch leaves behind: `data || []` on success; on failure the list is not
      assigned, so the previous one stays. */
  function ListAfterFetch<T>(previous: seq<T>, outcome: ListOutcome<T>): (r: seq<T>)
    ensures outcome.Failure? ==> r == previous
    ensures outcome.Success? && outcome.value.Some? ==> r == outcome.value.value
    ensures outcome == Success(None) ==> r == []
  {
    match outcome
    case Success(data) => if data.Some? then data.value else []
    case Failure(_) => previous
  }

  /** The toast a fetch raises: none on success; on failure, `error.message || fallback`, or
      none when that message cannot be read. */
  function FetchNotices<T>(outcome: ListOutcome<T>, fallback: string): (r: seq<Notice>)
    ensures r == [] <==> outcome.Success? || MessageReadThrows(outcome.error)
    ensures outcome.Failure? && !MessageReadThrows(outcome.error) ==>
      r == [ErrorNotice(ErrorText(outcome.error, fallback))]
  {
    match outcome
    case Success(_) => []
    case Failure(e) => ErrorNotices(e, fallback)
  }

  class Store {
    var categories: seq<Category>
    var products: seq<Product>
    var loading: bool

    /** The provider's initial state. */
    constructor ()
      ensures categories == [] && products == [] && !loading
    {
      categories := [];
      products := [];
      loading := false;
    }

    /** `fetchCategories`: raises `loading`, issues the one request whatever `loading` was
        (there is no guard), assigns the list only on success, and lowers `loading` in every
        case. `loadingWhenIssued` is the flag's value at the moment the request goes out. */
    method FetchCategories(outcome: ListOutcome<Category>)
      returns (request: Request, notices: seq<Notice>, ghost loadingWhenIssued: bool)
      modifies this
      ensures request == CategoryService.GetAllRequest
      ensures loadingWhenIssued
      ensures categories == ListAfterFetch(old(categories), outcome)
      ensures products == old(products)
      ensures !loading
      ensures notices == FetchNotices(outcome, CategoriesFailedMessage)
    {
      loading := true;
      request := CategoryService.GetAllRequest;
      loadingWhenIssued := loading;
      match outcome {
        case Success(data) =>
          categories := if data.Some? then data.value else [];
          notices := [];
        case Failure(e) =>
          notices := ErrorNotices(e, CategoriesFailedMessage);
      }
      loading := false;
    }

    /** `fetchProducts(filters)`: as `FetchCategories`, on the product list; the filters go
        to `getAll` unchanged (callers that pass none pass `ProductService.NoFilters`). */
    method FetchProducts(filters: ProductService.Filters, outcome: ListOutcome<Product>)
      returns (request: Request, notices: seq<Notice>, ghost loadingWhenIssued: bool)
      modifies this
      ensures request == ProductService.GetAllRequest(filters)
      ensures loadingWhenIssued
      ensures products == ListAfterFetch(old(products), outcome)
      ensures categories == old(categories)
      ensures !loading
      ensures notices == FetchNotices(outcome, ProductsFailedMessage)
    {
      loading := true;
      var path := ProductService.GetAllPath(filters);
      request := Request("get", path, NoBody);
      loadingWhenIssued := loading;
      match outcome {
        case Success(data) =>
          products := if data.Some? then data.value else [];
          notices := [];
        case Failure(e) =>
          notices := ErrorNotices(e, ProductsFailedMessage);
      }
      loading := false;
    }
  }
}
