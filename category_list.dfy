/** The category list view controller (src/components/Categories/CategoryList.js): whether
    the form is open and for which category, the delete-confirmation dialog, and what the
    view shows. */
module CategoryList {
  import opened Wrappers
  import opened Text
  import opened Catalog
  import opened Api
  import CategoryService
  import AppContext

  const DeletedMessage: string := "Category deleted successfully"
  const DeleteFailedMessage: string := "Failed to delete category"
  /** What reading `.id` of a `null` category throws in the V8 engine. */
  const NullCategoryMessage: string := "Cannot read properties of null (reading 'id')"

  const NoDescriptionLabel: string := "\U{1F4DD} No description provided"
  const IdLabelPrefix: string := "ID: "

  /** The `deleteDialog` state. */
  datatype DeleteDialog = DeleteDialog(open: bool, category: Option<Category>)

  const ClosedDialog: DeleteDialog := DeleteDialog(false, None)

  /** The card's description line: `category.description || '📝 No description provided'`. */
  function DescriptionLabel(c: Category): (r: string)
    ensures r != ""
    ensures c.description.Some? && c.description.value != "" ==> r == c.description.value
    ensures c.description.None? || c.description.value == "" ==> r == NoDescriptionLabel
  {
    OrElse(c.description, NoDescriptionLabel)
  }

  /** The card's id chip, `ID: ${category.id}`; the id reads back from it. */
  function IdLabel(c: Category): (r: string)
    ensures IdLabelPrefix <= r
    ensures PathId(IdLabelPrefix, r) == Some(c.id)
  {
    PathIdRoundTrip(IdLabelPrefix, c.id);
    IdLabelPrefix + IntToString(c.id)
  }

  /** What one category card shows. */
  datatype Card = Card(name: Option<string>, descriptionLabel: string, idLabel: string)

  /** What the view renders. */
  datatype Screen = Spinner | EmptyState | Cards(cards: seq<Card>)

  function CardFor(c: Category): Card {
    Card(c.name, DescriptionLabel(c), IdLabel(c))
  }

  /** The view: the spinner while loading, else the empty state or one card per category, in
      the store's order. */
  function Render(loading: bool, categories: seq<Category>): (s: Screen)
    ensures s.Spinner? <==> loading
    ensures s.EmptyState? <==> !loading && categories == []
    ensures s.Cards? ==> |s.cards| == |categories|
    ensures s.Cards? ==> forall i :: 0 <= i < |s.cards| ==> s.cards[i] == CardFor(categories[i])
  {
    if loading then Spinner
    else if |categories| == 0 then EmptyState
    else Cards(seq(|categories|, i requires 0 <= i < |categories| => CardFor(categories[i])))
  }

  /** Distinct categories get distinct id chips. */
  lemma IdLabelsDistinguish(a: Category, b: Category)
    requires a.id != b.id
    ensures IdLabel(a) != IdLabel(b)
  {
    assert PathId(IdLabelPrefix, IdLabel(a)) != PathId(IdLabelPrefix, IdLabel(b));
  }

  class View {
    var formOpen: bool
    var selectedCategory: Option<Category>
    var deleteDialog: DeleteDialog

    constructor ()
      ensures !formOpen && selectedCategory.None? && deleteDialog == ClosedDialog
    {
      formOpen := false;
      selectedCategory := None;
      deleteDialog := ClosedDialog;
    }

    /** The mount effect: fetches the categories. */
    method Mount(store: AppContext.Store, outcome: AppContext.ListOutcome<Category>)
      returns (requests: seq<Request>, notices: seq<Notice>)
      modifies store
      ensures requests == [CategoryService.GetAllRequest]
      ensures store.categories == AppContext.ListAfterFetch(old(store.categories), outcome)
      ensures store.products == old(store.products) && !store.loading
      ensures notices == AppContext.FetchNotices(outcome, AppContext.CategoriesFailedMessage)
    {
      var r, ns, _ := store.FetchCategories(outcome);
      requests, notices := [r], ns;
    }

    /** The "Add Category" and "Create Category" buttons: open the form, with no guard. */
    method OpenForm()
      modifies this`formOpen
      ensures formOpen
    {
      formOpen := true;
    }

    /** `handleEdit(category)`. */
    method HandleEdit(category: Category)
      modifies this`selectedCategory, this`formOpen
      ensures selectedCategory == Some(category) && formOpen
    {
      selectedCategory := Some(category);
      formOpen := true;
    }

    /** `handleDelete(category)`: asks for confirmation. */
    method HandleDelete(category: Category)
      modifies this`deleteDialog
      ensures deleteDialog == DeleteDialog(true, Some(category))
    {
      deleteDialog := DeleteDialog(true, Some(category));
    }

    /** The dialog's cancel action. */
    method CancelDelete()
      modifies this`deleteDialog
      ensures deleteDialog == ClosedDialog
    {
      deleteDialog := DeleteDialog(false, None);
    }

    /** `confirmDelete`: deletes the dialog's category and, only when that succeeds,
        refetches the categories; the dialog is closed afterwards in every case. With no
        category in the dialog, reading its id throws before any request. */
    method ConfirmDelete(store: AppContext.Store, deleted: Result<(), Thrown>, refetched: AppContext.ListOutcome<Category>)
      returns (requests: seq<Request>, notices: seq<Notice>)
      modifies this`deleteDialog, store
      ensures deleteDialog == ClosedDialog
      ensures store.products == old(store.products)
      ensures old(deleteDialog.category).None? ==>
        requests == [] && notices == [ErrorNotice(NullCategoryMessage)] &&
        store.categories == old(store.categories) && store.loading == old(store.loading)
      ensures old(deleteDialog.category).Some? && deleted.Success? ==>
        requests == [CategoryService.DeleteRequest(old(deleteDialog.category).value.id), CategoryService.GetAllRequest] &&
        store.categories == AppContext.ListAfterFetch(old(store.categories), refetched) && !store.loading &&
        notices == [SuccessNotice(DeletedMessage)] + AppContext.FetchNotices(refetched, AppContext.CategoriesFailedMessage)
      ensures old(deleteDialog.category).Some? && deleted.Failure? ==>
        requests == [CategoryService.DeleteRequest(old(deleteDialog.category).value.id)] &&
        store.categories == old(store.categories) && store.loading == old(store.loading) &&
        notices == ErrorNotices(deleted.error, DeleteFailedMessage)
    {
      if deleteDialog.category.None? {
        requests, notices := [], [ErrorNotice(NullCategoryMessage)];
      } else {
        requests := [CategoryService.DeleteRequest(deleteDialog.category.value.id)];
        match deleted {
          case Success(_) =>
            notices := [SuccessNotice(DeletedMessage)];
            var r, ns, _ := store.FetchCategories(refetched);
            requests, notices := requests + [r], notices + ns;
          case Failure(e) =>
            notices := ErrorNotices(e, DeleteFailedMessage);
        }
      }
      deleteDialog := DeleteDialog(false, None);
    }

    /** `handleFormClose`. */
    method HandleFormClose()
      modifies this`formOpen, this`selectedCategory
      ensures !formOpen && selectedCategory.None?
    {
      formOpen := false;
      selectedCategory := None;
    }

    /** `handleFormSuccess`: refetches the categories. */
    method HandleFormSuccess(store: AppContext.Store, refetched: AppContext.ListOutcome<Category>)
      returns (requests: seq<Request>, notices: seq<Notice>)
      modifies store
      ensures requests == [CategoryService.GetAllRequest]
      ensures store.categories == AppContext.ListAfterFetch(old(store.categories), refetched) && !store.loading
      ensures store.products == old(store.products)
      ensures notices == AppContext.FetchNotices(refetched, AppContext.CategoriesFailedMessage)
    {
      var r, ns, _ := store.FetchCategories(refetched);
      requests, notices := [r], ns;
    }
  }
}
