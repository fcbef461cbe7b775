/** The product list view controller (src/components/Products/ProductList.js): whether the
    form is open and for which product, the delete-confirmation dialog, and what the view
    shows. */
module ProductList {
  import opened Wrappers
  import opened Catalog
  import opened Api
  import ProductService
  import CategoryService
  import AppContext
  import ProductForm

  const CreateCategoryFirstMessage: string := " Please create a category first before adding products!"
  const DeletedMessage: string := "Product deleted successfully"
  const DeleteFailedMessage: string := "Failed to delete product"
  /** What reading `.id` of a `null` product throws in the V8 engine. */
  const NullProductMessage: string := "Cannot read properties of null (reading 'id')"

  const NoCategoryLabel: string := "No Category"
  const InStockLabel: string := "In Stock"
  const OutOfStockLabel: string := "Out of Stock"
  const NoCategoriesHint: string := "Please create a category first"
  const FirstProductHint: string := "Create your first product to get started"

  /** The `deleteDialog` state. */
  datatype DeleteDialog = DeleteDialog(open: bool, product: Option<Product>)

  const ClosedDialog: DeleteDialog := DeleteDialog(false, None)

  /** The label of a product's category chip: `product.category?.name || 'No Category'`. */
  function CategoryLabel(p: Product): (r: string)
    ensures r == NoCategoryLabel <==>
      (p.category.None? || p.category.value.name.None? || p.category.value.name.value in {"", NoCategoryLabel})
    ensures r != NoCategoryLabel ==> r == p.category.value.name.value
  {
    if p.category.Some? then OrElse(p.category.value.name, NoCategoryLabel) else NoCategoryLabel
  }

  /** The label of the stock chip. */
  function StockLabel(p: Product): (r: string)
    ensures r == InStockLabel <==> p.inStock == Some(true)
    ensures r == OutOfStockLabel <==> p.inStock != Some(true)
  {
    if p.inStock == Some(true) then InStockLabel else OutOfStockLabel
  }

  /** The hint of the empty state. */
  function EmptyHint(categories: seq<Category>): (r: string)
    ensures r == NoCategoriesHint <==> categories == []
  {
    if |categories| == 0 then NoCategoriesHint else FirstProductHint
  }

  /** What one product card shows, apart from the price. */
  datatype Card = Card(name: Option<string>, categoryLabel: string, stockLabel: string)

  /** What the view renders. */
  datatype Screen = Spinner | EmptyState(hint: string) | Cards(cards: seq<Card>)

  function CardFor(p: Product): Card {
    Card(p.name, CategoryLabel(p), StockLabel(p))
  }

  /** The view: the spinner while loading, else the empty state or one card per product, in
      the store's order. */
  function Render(loading: bool, products: seq<Product>, categories: seq<Category>): (s: Screen)
    ensures s.Spinner? <==> loading
    ensures !loading && products == [] ==> s == EmptyState(EmptyHint(categories))
    ensures !loading && products != [] ==> s.Cards? && |s.cards| == |products|
    ensures s.Cards? ==> forall i :: 0 <= i < |s.cards| ==> s.cards[i] == CardFor(products[i])
  {
    if loading then Spinner
    else if |products| == 0 then EmptyState(EmptyHint(categories))
    else Cards(seq(|products|, i requires 0 <= i < |products| => CardFor(products[i])))
  }

  /** A product saved without `inStock` is listed as out of stock, yet the edit form opens
      with the switch on. */
  lemma MissingStockListedOutButPrefilledIn(p: Product)
    requires p.inStock.None?
    ensures StockLabel(p) == OutOfStockLabel
    ensures ProductForm.ProductToFields(p).inStock
  {
  }

  class View {
    var formOpen: bool
    var selectedProduct: Option<Product>
    var deleteDialog: DeleteDialog

    constructor ()
      ensures !formOpen && selectedProduct.None? && deleteDialog == ClosedDialog
    {
      formOpen := false;
      selectedProduct := None;
      deleteDialog := ClosedDialog;
    }

    /** The mount effect: fetches products, then categories. */
    method Mount(store: AppContext.Store, products: AppContext.ListOutcome<Product>, categories: AppContext.ListOutcome<Category>)
      returns (requests: seq<Request>, notices: seq<Notice>)
      modifies store
      ensures requests == [ProductService.GetAllRequest(ProductService.NoFilters), CategoryService.GetAllRequest]
      ensures store.products == AppContext.ListAfterFetch(old(store.products), products)
      ensures store.categories == AppContext.ListAfterFetch(old(store.categories), categories)
      ensures !store.loading
      ensures notices == AppContext.FetchNotices(products, AppContext.ProductsFailedMessage) +
        AppContext.FetchNotices(categories, AppContext.CategoriesFailedMessage)
    {
      var r1, n1, _ := store.FetchProducts(ProductService.NoFilters, products);
      var r2, n2, _ := store.FetchCategories(categories);
      requests, notices := [r1, r2], n1 + n2;
    }

    /** `handleAddProduct`: with no categories loaded the form stays as it is and an error
        toast asks for a category first; otherwise the form opens. */
    method HandleAddProduct(store: AppContext.Store) returns (notices: seq<Notice>)
      modifies this`formOpen
      ensures store.categories == [] ==> formOpen == old(formOpen) && notices == [ErrorNotice(CreateCategoryFirstMessage)]
      ensures store.categories != [] ==> formOpen && notices == []
    {
      if |store.categories| == 0 {
        notices := [ErrorNotice(CreateCategoryFirstMessage)];
        return;
      }
      formOpen := true;
      notices := [];
    }

    /** `handleEdit(product)`. */
    method HandleEdit(product: Product)
      modifies this`selectedProduct, this`formOpen
      ensures selectedProduct == Some(product) && formOpen
    {
      selectedProduct := Some(product);
      formOpen := true;
    }

    /** `handleDelete(product)`: asks for confirmation. */
    method HandleDelete(product: Product)
      modifies this`deleteDialog
      ensures deleteDialog == DeleteDialog(true, Some(product))
    {
      deleteDialog := DeleteDialog(true, Some(product));
    }

    /** The dialog's cancel action. */
    method CancelDelete()
      modifies this`deleteDialog
      ensures deleteDialog == ClosedDialog
    {
      deleteDialog := DeleteDialog(false, None);
    }

    /** `confirmDelete`: deletes the dialog's product and, only when that succeeds, refetches
        the products; the dialog is closed afterwards in every case. With no product in the
        dialog, reading its id throws before any request. */
    method ConfirmDelete(store: AppContext.Store, deleted: Result<(), Thrown>, refetched: AppContext.ListOutcome<Product>)
      returns (requests: seq<Request>, notices: seq<Notice>)
      modifies this`deleteDialog, store
      ensures deleteDialog == ClosedDialog
      ensures store.categories == old(store.categories)
      ensures old(deleteDialog.product).None? ==>
        requests == [] && notices == [ErrorNotice(NullProductMessage)] &&
        store.products == old(store.products) && store.loading == old(store.loading)
      ensures old(deleteDialog.product).Some? && deleted.Success? ==>
        requests == [ProductService.DeleteRequest(old(deleteDialog.product).value.id),
                     ProductService.GetAllRequest(ProductService.NoFilters)] &&
        store.products == AppContext.ListAfterFetch(old(store.products), refetched) && !store.loading &&
        notices == [SuccessNotice(DeletedMessage)] + AppContext.FetchNotices(refetched, AppContext.ProductsFailedMessage)
      ensures old(deleteDialog.product).Some? && deleted.Failure? ==>
        requests == [ProductService.DeleteRequest(old(deleteDialog.product).value.id)] &&
        store.products == old(store.products) && store.loading == old(store.loading) &&
        notices == ErrorNotices(deleted.error, DeleteFailedMessage)
    {
      if deleteDialog.product.None? {
        requests, notices := [], [ErrorNotice(NullProductMessage)];
      } else {
        requests := [ProductService.DeleteRequest(deleteDialog.product.value.id)];
        match deleted {
          case Success(_) =>
            notices := [SuccessNotice(DeletedMessage)];
            var r, ns, _ := store.FetchProducts(ProductService.NoFilters, refetched);
            requests, notices := requests + [r], notices + ns;
          case Failure(e) =>
            notices := ErrorNotices(e, DeleteFailedMessage);
        }
      }
      deleteDialog := DeleteDialog(false, None);
    }

    /** `handleFormClose`. */
    method HandleFormClose()
      modifies this`formOpen, this`selectedProduct
      ensures !formOpen && selectedProduct.None?
    {
      formOpen := false;
      selectedProduct := None;
    }

    /** `handleFormSuccess`: refetches the products. */
    method HandleFormSuccess(store: AppContext.Store, refetched: AppContext.ListOutcome<Product>)
      returns (requests: seq<Request>, notices: seq<Notice>)
      modifies store
      ensures requests == [ProductService.GetAllRequest(ProductService.NoFilters)]
      ensures store.products == AppContext.ListAfterFetch(old(store.products), refetched) && !store.loading
      ensures store.categories == old(store.categories)
      ensures notices == AppContext.FetchNotices(refetched, AppContext.ProductsFailedMessage)
    {
      var r, ns, _ := store.FetchProducts(ProductService.NoFilters, refetched);
      requests, notices := [r], ns;
    }
  }
}
