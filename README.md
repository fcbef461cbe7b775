# Catalog front end — a Dafny model

This project models the logic of a small React front end for a product catalog. The app keeps
a shared store of categories and products and talks to a REST back end through one HTTP
client. It offers a create/edit form and a list view for each of the two resources.

The model covers:

- **Store** (`AppContext`): the `Store` class holds the three state fields `categories`,
  `products` and `loading`. Its two fetch methods raise `loading`, issue exactly one request,
  assign the list only on success, and lower `loading` in every case.
- **HTTP client** (`Api`):
  - the base-URL and API-key defaults;
  - the request interceptor, which sets `x-api-key` in place on `post`, `put` and `delete`
    requests, whatever their case;
  - the response interceptor, which passes successes through and normalises each failure into
    one of three thrown shapes.
- **Product client** (`ProductService`):
  - the `getAll` path, built by conditional appends;
  - a proof that the server reads back exactly the parameters that were appended;
  - the item paths, from which the id can be read back.
- **Category client** (`CategoryService`): its fixed table of methods and paths.
- **Forms** (`CategoryForm`, `ProductForm`, with the shared error map in `FormErrors`): each
  has a `Form` class with the fields `formData`, `errors` and `submitting`. Both define:
  - validation as an imperative build of the error map, proved equal to a specification
    function with an if-and-only-if against the acceptance rule;
  - `handleChange`, which writes one field and clears only that field's error;
  - the prefill effect;
  - the submit gate: invalid input issues no request, and valid input issues an update or a
    create.
  The product form adds the payload conversion, the category refresh when the form opens, and
  the submit button, which does nothing while a submit is in flight or no category is loaded.
  The length rules count UTF-16 code units, as JavaScript's `length` does.
- **List views** (`ProductList`, `CategoryList`): each has a `View` class with the fields
  `formOpen`, the selected item and `deleteDialog`. They model:
  - the add/open guard;
  - edit, delete and cancel;
  - confirm-delete, which refetches only when the delete succeeds and always closes the dialog;
  - the mount effect;
  - the labels and screen a view renders: the spinner, the empty state or cards.
- **JavaScript built-ins** (`Text`): `trim`, `toLowerCase`, the UTF-16 `length` of a string
  and integer printing. `ToUpper`, `ParseInt` with `DigitsValue`, `Split` and `SplitFirst`
  are not used by the app: they are readers that the round-trip and case-folding lemmas are stated with. The
  join that `URLSearchParams` does is `ProductService.SerializeQuery`. The app's own `parseInt` is
  `ProductForm.ParseCategoryId`.

How effects become values:

- A service call is a parameter: the `Result` that the awaited call settles to.
- Each request a handler issues is returned as a `Request` value: the method, the path and
  the body.
- Each toast is returned as a `Notice`.
- The `onSuccess` and `onClose` callbacks of a form are reported as the returned flag `done`.
- `loadingWhenIssued` and `submittingWhenIssued` are ghost out-parameters. Each records the
  flag's value at the moment the request goes out.

The model follows the code:

- A fetch has no re-entrancy guard.
- The store keeps no error field.
- A failed fetch keeps the previous list rather than clearing it.

## Model

| member | source | states |
|---|---|---|
| AppContext.Store.constructor | src/context/AppContext.js:17-19 | the store starts with no categories, no products and `loading` false |
| AppContext.ListAfterFetch | src/context/AppContext.js:25-28 | a failed fetch leaves the previous list; a success gives the response's `data`, or the empty list when `data` is missing |
| AppContext.FetchNotices | src/context/AppContext.js:26-27 | no toast exactly when the fetch succeeds or its thrown value's message cannot be read; otherwise one toast with the thrown message or the fallback text |
| AppContext.Store.FetchCategories | src/context/AppContext.js:21-31 | issues exactly the one category list request while `loading` is raised, with no guard; sets `categories` as `ListAfterFetch`; `products` is unchanged; `loading` is false afterwards |
| AppContext.Store.FetchProducts | src/context/AppContext.js:33-43 | issues `getAll` with the filters unchanged while `loading` is raised; sets `products` as `ListAfterFetch`; `categories` is unchanged; `loading` is false afterwards |
| Api.ConfiguredOr | src/services/api.js:3-4 | a configured non-empty value wins; a missing or empty one gives the fallback; a non-empty fallback gives a non-empty result |
| Api.ApiBaseUrl | src/services/api.js:3 | the base URL is never empty and is either the configured value or `http://localhost:5000/api` |
| Api.ApiKey | src/services/api.js:4 | the API key is never empty and is either the configured value or `tasknapi` |
| Api.WriteMethodIgnoresCase | src/services/api.js:15 | whether a request counts as a write does not depend on the case of its method name |
| Api.WriteMethodExamples | src/services/api.js:15 | `POST`, `Put` and `delete` are writes |
| Api.ReadMethodExamples | src/services/api.js:15 | `get`, `GET` and `patch` are not writes |
| Api.InterceptedHeaders | src/services/api.js:15-17 | a write gets `x-api-key` set to the key; any other method keeps its headers exactly; no other header is lost or changed; at most the one key is added |
| Api.RequestConfig.constructor | src/services/api.js:14 | a configuration holds the given method, URL and headers |
| Api.InterceptRequest | src/services/api.js:14-19 | mutates the given configuration in place and returns that same object; method and URL are unchanged; headers become `InterceptedHeaders` of the old ones; this contract stands alone, as the stores and forms take the awaited outcome as a parameter rather than an intercepted configuration |
| Api.NormaliseError | src/services/api.js:24-32 | with a response, the server's payload is thrown verbatim; with a request but no response, the fixed network message; otherwise the error's own message |
| Api.ErrorTextOfNormalised | src/services/api.js:25-31 | the toast of a failed call is the server's message or the fallback (for a non-null payload), the network message, or the client error's message, by the error's shape |
| Api.NullPayloadRaisesNoToast | src/services/api.js:25-26 | a server error whose payload is `null` raises no toast: reading `message` of the thrown `null` throws |
| Api.MessageReadThrows | src/context/AppContext.js:27 | no ensures; reading `error.message` throws exactly for a thrown `null` payload; stated by `Api.ErrorNotices` |
| Api.MessageOf | src/context/AppContext.js:27 | no ensures; `error.message` is the server payload's message or the client error's text; stated by `Api.ErrorText` |
| Api.ErrorText | src/context/AppContext.js:27 | `error.message`, or the fallback when that is falsy: the text of every handler's error toast (also CategoryForm.js:77, ProductForm.js:110, ProductList.js:57, CategoryList.js:45): a non-empty message wins, a missing or empty one gives the fallback |
| Api.ErrorNotices | src/components/Categories/CategoryForm.js:76-80 | a `catch` block raises no toast exactly when reading the message throws, and otherwise exactly one error toast with `ErrorText` |
| Api.IsWriteMethod | src/services/api.js:15 | no ensures; a method is a write exactly when its lower-cased name is `post`, `put` or `delete`; stated by `Api.WriteMethodIgnoresCase`, `Api.WriteMethodExamples`, `Api.ReadMethodExamples` |
| Api.Settle | src/services/api.js:22-23 | a successful call settles to its response's `data` unchanged; a failed one to the normalised error; success is kept exactly; this contract stands alone, as the stores and forms take the settled `Result` itself as a parameter |
| ProductService.QueryParams | src/services/productService.js:5-7 | at most two parameters, `categoryId` before `inStock`; `categoryId` is present exactly when the filter is truthy and `inStock` exactly when it is not `undefined`, each with its string value |
| ProductService.Truthy | src/services/productService.js:6 | no ensures; JavaScript truthiness of a filter value: `undefined`, `null`, `false`, `0` and `''` are falsy; stated by `ProductService.QueryParams` and `ProductService.FalsyCategoryOmitted` |
| ProductService.Stringify | src/services/productService.js:6-7 | no ensures; `String(v)` as `append` stores a value (`true`/`false`, `null`, decimal numbers, strings as given); stated by `ProductService.QueryParams` and `ProductService.FalseInStockEmitted` |
| ProductService.SplitSerialized | src/services/productService.js:9 | splitting the joined query on `&` gives back the `key=value` pieces, for parameters that carry no separator |
| ProductService.QueryRoundTrip | src/services/productService.js:9 | the query string built from the parameters parses back to those same parameters, in order |
| ProductService.GetAllPath | src/services/productService.js:4-11 | the path is `/products?` followed by the query; for encoded filter values the server reads back exactly the parameters the filters call for |
| ProductService.EmptyFiltersPath | src/services/productService.js:9 | with no filters the path is `/products?`, trailing `?` included |
| ProductService.FalsyCategoryOmitted | src/services/productService.js:6 | a `categoryId` of 0 or `''` emits nothing |
| ProductService.FalseInStockEmitted | src/services/productService.js:7 | `inStock: false` is still emitted, as `inStock=false` |
| ProductService.SerializeQuery | src/services/productService.js:9 | no ensures; `params.toString()`, the pairs joined as `key=value` with `&`; stated by `ProductService.QueryRoundTrip` and `ProductService.SplitSerialized` |
| ProductService.ProductsListPath | src/services/productService.js:9 | no ensures; `/products?` followed by the query of the filters; stated by `ProductService.GetAllPath`, `ProductService.EmptyFiltersPath`, `ProductService.BothFiltersOrder` |
| ProductService.GetAllRequest | src/services/productService.js:4-11 | a `get` with no body whose path is `ProductsListPath` of the filters |
| ProductService.GetByIdRequest | src/services/productService.js:13-16 | a `get` with no body whose path names the product's id |
| ProductService.CreateRequest | src/services/productService.js:18-21 | a `post` of `/products` with the payload as its body |
| ProductService.UpdateRequest | src/services/productService.js:23-26 | a `put` with the payload as its body, whose path names the product's id |
| ProductService.DeleteRequest | src/services/productService.js:28-31 | a `delete` with no body whose path names the product's id |
| CategoryService.GetByIdRequest | src/services/categoryService.js:9-12 | a `get` with no body whose path names the category's id |
| CategoryService.CreateRequest | src/services/categoryService.js:14-17 | a `post` of `/categories` with the fields as its body |
| CategoryService.UpdateRequest | src/services/categoryService.js:19-22 | a `put` with the fields as its body, whose path names the category's id |
| CategoryService.DeleteRequest | src/services/categoryService.js:24-27 | a `delete` with no body whose path names the category's id |
| ProductService.BothFiltersOrder | src/services/productService.js:5-9 | with both filters set, `categoryId` precedes `inStock` in the path |
| Api.ItemPath | src/services/productService.js:14 | an item path starts with the resource prefix (`/products/`, `/categories/`), and the id reads back from it |
| ProductService.ApiKeyOnWritesOnly | src/services/productService.js:9-29 | create, update and delete are writes and get the API key; list and get-by-id are reads and do not |
| CategoryService.ApiKeyOnWritesOnly | src/services/categoryService.js:5-25 | create, update and delete are writes and get the API key; list (the constant `GetAllRequest`, a get of `/categories`) and get-by-id do not |
| Text.Trim | src/components/Categories/CategoryForm.js:37 | no ensures; `String.prototype.trim`; stated by `Text.TrimSpec`, `Text.TrimEmptyIff`, `Text.TrimIdempotent` |
| Text.Utf16Length | src/components/Categories/CategoryForm.js:43 | JavaScript's `length`, in UTF-16 code units: at least the number of characters and at most twice it, and zero exactly for the empty string |
| Text.Utf16LengthAllAstral | src/components/Categories/CategoryForm.js:43 | a string of characters outside the Basic Multilingual Plane has twice as many UTF-16 units as characters |
| Text.TrimStartSpec | src/components/Categories/CategoryForm.js:37 | dropping leading white space leaves a suffix that does not start with white space, and only white space is dropped |
| Text.TrimEndSpec | src/components/Categories/CategoryForm.js:37 | dropping trailing white space leaves a prefix that does not end with white space, and only white space is dropped |
| Text.TrimSpec | src/components/Categories/CategoryForm.js:37 | a string is leading white space, then its trimmed form, then trailing white space; a non-empty trimmed form starts and ends with a non-white-space character |
| Text.TrimEmptyIff | src/components/Categories/CategoryForm.js:37 | the trimmed name is empty exactly when the name is all white space |
| Text.TrimIdempotent | src/components/Products/ProductForm.js:57-60 | trimming twice is trimming once |
| Text.ToLowerForgetsCase | src/services/api.js:15 | lower-casing forgets any earlier upper- or lower-casing |
| Text.ToLower | src/services/api.js:15 | `toLowerCase` keeps the length, maps each upper-case ASCII letter to its lower-case letter and keeps every other character |
| Text.NatToStringRoundTrip | src/services/productService.js:14 | a printed natural number parses back to itself |
| Text.IntToStringRoundTrip | src/services/productService.js:14 | a printed integer, negative ones included, parses back to itself |
| Text.IntToString | src/services/productService.js:14 | `${id}`: at least one character, all digits or a minus sign; it reads back as the integer by `Text.IntToStringRoundTrip`; also the id chip of CategoryList.js:171 |
| Text.PathIdRoundTrip | src/services/productService.js:24 | the id in `prefix + id` reads back as that id |
| Text.SplitAtFirst | src/services/productService.js:9 | splitting at a first separator gives the part before it, then the split of the rest |
| CategoryForm.IsValid | src/components/Categories/CategoryForm.js:35-47 | no ensures; a trimmed name of at least 2 and a description of at most 500 UTF-16 units; stated by `CategoryForm.ValidIffNoErrors` |
| CategoryForm.ErrorsFor | src/components/Categories/CategoryForm.js:35-46 | the error map holds `name` exactly when the trimmed name is shorter than 2 UTF-16 units, and `description` exactly when the description exceeds 500 UTF-16 units; each holds its message and nothing else is in the map |
| CategoryForm.MessageText | src/components/Categories/CategoryForm.js:38-44 | each validation message is a non-empty string, so a shown error is truthy; the texts are those the rules set |
| CategoryForm.AstralNameAccepted | src/components/Categories/CategoryForm.js:40 | a name of one emoji (any non-white-space character outside the Basic Multilingual Plane) is long enough |
| CategoryForm.AstralDescriptionTooLong | src/components/Categories/CategoryForm.js:43 | a description of more than 250 emoji is too long, though it has at most 500 characters |
| CategoryForm.NameHint | src/components/Categories/CategoryForm.js:100-101 | the name input is flagged, and captioned with the message, exactly while its error is shown; otherwise its caption is empty |
| CategoryForm.DescriptionHint | src/components/Categories/CategoryForm.js:113-114 | the description input is flagged and captioned with the message exactly while its error is shown; otherwise its caption is the UTF-16 length counter out of 500 |
| CategoryForm.HintsAfterValidation | src/components/Categories/CategoryForm.js:35-47 | after validation an input is flagged exactly when its rule failed; the form is valid exactly when neither input is flagged |
| CategoryForm.ValidIffNoErrors | src/components/Categories/CategoryForm.js:47 | the error map is empty exactly when the fields are acceptable |
| CategoryForm.BlankNameGetsLengthMessage | src/components/Categories/CategoryForm.js:37-42 | a blank or all-white-space name ends with the "at least 2 characters" message, never "required" |
| FormErrors.ClearError | src/components/Categories/CategoryForm.js:53-55 | the field's error is no longer shown; the keys and all other entries are unchanged; nothing changes when no error was shown; both forms share it |
| FormErrors.HasError | src/components/Categories/CategoryForm.js:53 | no ensures; `errors[name]` is truthy, as tested before clearing (also ProductForm.js:80); stated by `FormErrors.ClearError` and the hint functions |
| Catalog.OrEmpty | src/components/Categories/CategoryForm.js:25-26 | no ensures; the defaulting of an optional name or description to `''` (also ProductForm.js:43): a missing value gives `''`; stated by `CategoryForm.PrefillFields` and `ProductForm.ProductToFields` |
| Catalog.OrElse | src/services/api.js:3-4 | `x` when it is present and non-empty, the fallback otherwise: the defaulting of the settings, the toast texts and the labels |
| CategoryForm.WithField | src/components/Categories/CategoryForm.js:52 | only the named field takes the new value |
| CategoryForm.PrefillFields | src/components/Categories/CategoryForm.js:22-33 | editing copies name and description, with missing ones as `''`; creating gives two empty fields |
| CategoryForm.SubmitRequest | src/components/Categories/CategoryForm.js:67-71 | the fields are the body; when editing, the path names the edited category's id; otherwise the request is the create |
| CategoryForm.PrefilledValidCategoryAccepted | src/components/Categories/CategoryForm.js:22-47 | a category with a valid name and description prefills a form that validates |
| CategoryForm.Form.constructor | src/components/Categories/CategoryForm.js:15-20 | the form starts empty, with no errors and not submitting |
| CategoryForm.Form.Prefill | src/components/Categories/CategoryForm.js:22-33 | the fields become `PrefillFields` and the errors are cleared |
| CategoryForm.Form.ValidateForm | src/components/Categories/CategoryForm.js:35-48 | replaces `errors` wholesale with `ErrorsFor` of the fields (lengths in UTF-16 units) and returns true exactly when they are acceptable |
| CategoryForm.Form.HandleChange | src/components/Categories/CategoryForm.js:50-56 | writes the one field and clears only its error, if one was shown |
| CategoryForm.Form.HandleSubmit | src/components/Categories/CategoryForm.js:58-81 | invalid input issues no request and leaves `submitting` alone; valid input issues update-by-id when editing, else create, with `submitting` raised while in flight and false afterwards; callbacks run exactly on success; the toast is the matching success text, or `ErrorNotices` of the thrown value |
| ProductForm.IsValid | src/components/Products/ProductForm.js:55-70 | no ensures; a trimmed name of at least 2 UTF-16 units, a positive price and a chosen category; stated by `ProductForm.ValidIffNoErrors` |
| ProductForm.ErrorsFor | src/components/Products/ProductForm.js:55-69 | the error map holds `name` exactly when the trimmed name is shorter than 2 UTF-16 units, and `price` and `categoryId` exactly when their rule fails, each with its message, and never `inStock` |
| ProductForm.MessageText | src/components/Products/ProductForm.js:58-67 | each validation message is a non-empty string, so a shown error is truthy; the texts are those the rules set |
| ProductForm.HasPositivePrice | src/components/Products/ProductForm.js:63 | no ensures; `formData.price` is present and greater than zero; stated by `ProductForm.ErrorsFor` and `ProductForm.Payload` |
| ProductForm.HasCategory | src/components/Products/ProductForm.js:66 | no ensures; `formData.categoryId` is present and not 0; stated by `ProductForm.ErrorsFor` and `ProductForm.Payload` |
| ProductForm.Hint | src/components/Products/ProductForm.js:139-188 | the name and price inputs and the category select are flagged, and captioned with the message, exactly while their error is shown |
| ProductForm.HintsAfterValidation | src/components/Products/ProductForm.js:55-70 | after validation an input is flagged exactly when its rule failed; the form is valid exactly when none is flagged |
| ProductForm.ValidIffNoErrors | src/components/Products/ProductForm.js:70 | the error map is empty exactly when the fields are acceptable |
| ProductForm.BlankNameGetsLengthMessage | src/components/Products/ProductForm.js:57-62 | a blank or all-white-space name ends with the "at least 2 characters" message |
| ProductForm.WithChange | src/components/Products/ProductForm.js:74-79 | the switch writes its `checked` state, the other inputs their value, each into its own field only |
| ProductForm.ProductToFields | src/components/Products/ProductForm.js:42-47 | missing or falsy name, price and category become `''`; other values are copied; `inStock` is true unless it was explicitly false |
| ProductForm.PrefilledValidProductAccepted | src/components/Products/ProductForm.js:40-71 | a product with a valid name, a positive price and a category prefills a form that validates |
| ProductForm.Payload | src/components/Products/ProductForm.js:94-98 | name and stock flag are copied; price and category are converted to numbers exactly when present; a validated form yields a positive price and a non-zero category id |
| ProductForm.ParsePrice | src/components/Products/ProductForm.js:96 | `parseFloat(formData.price)` is a number exactly when a price was entered, and then that price; `''` gives `NaN` |
| ProductForm.ParseCategoryId | src/components/Products/ProductForm.js:97 | `parseInt(formData.categoryId)` is a number exactly when a category was chosen, and then its id; `''` gives `NaN` |
| ProductForm.SubmitRequest | src/components/Products/ProductForm.js:100-106 | the converted payload is the body; when editing, the path names the edited product's id; otherwise the request is the create |
| ProductForm.SubmitDisabled | src/components/Products/ProductForm.js:231 | no ensures; the button's `disabled` rule; stated by `ProductForm.Form.Submit` |
| ProductForm.Form.constructor | src/components/Products/ProductForm.js:25-32 | the form starts with `{'', '', '', true}`, no errors and not submitting |
| ProductForm.Form.RefreshCategoriesOnOpen | src/components/Products/ProductForm.js:34-38 | opening refreshes the shared category list with one request; otherwise nothing happens; products are untouched |
| ProductForm.Form.Prefill | src/components/Products/ProductForm.js:40-53 | when open, the fields are `ProductToFields` of the edited product or the empty fields, and the errors are cleared; when closed, nothing changes |
| ProductForm.Form.ValidateForm | src/components/Products/ProductForm.js:55-71 | replaces `errors` with `ErrorsFor` of the fields (name length in UTF-16 units) and returns true exactly when they are acceptable |
| ProductForm.Form.HandleChange | src/components/Products/ProductForm.js:73-83 | writes the changed input's field and clears only its error, if one was shown |
| ProductForm.Form.HandleSubmit | src/components/Products/ProductForm.js:85-114 | invalid input issues no request; valid input issues update-by-id when editing, else create, with the converted payload; `submitting` is raised in flight and false afterwards; callbacks run exactly on success; the toast is the matching success text, or `ErrorNotices` of the thrown value |
| ProductForm.Form.Submit | src/components/Products/ProductForm.js:229-231 | the submit button is the only route to `handleSubmit`: while a submit is in flight or with no category in the shared store it issues nothing, raises no toast, and leaves `errors` and `submitting` alone; otherwise it behaves as `HandleSubmit` |
| ProductList.CategoryLabel | src/components/Products/ProductList.js:185 | the category chip shows the category's name, or `No Category` when it is missing or empty |
| ProductList.StockLabel | src/components/Products/ProductList.js:192 | the chip says `In Stock` exactly when `inStock` is true, and `Out of Stock` otherwise |
| ProductList.EmptyHint | src/components/Products/ProductList.js:101-103 | the empty-state hint asks for a category first exactly when there are no categories |
| ProductList.Render | src/components/Products/ProductList.js:72-117 | the spinner shows exactly while loading; otherwise the empty state with its hint, or one card per product in order |
| ProductList.MissingStockListedOutButPrefilledIn | src/components/Products/ProductList.js:192 | a product without `inStock` is listed as out of stock, yet its edit form opens with the switch on |
| ProductList.View.constructor | src/components/Products/ProductList.js:23-25 | the form is closed, nothing is selected and the dialog is closed |
| ProductList.View.Mount | src/components/Products/ProductList.js:27-30 | fetches the products with no filters, then the categories |
| ProductList.View.HandleAddProduct | src/components/Products/ProductList.js:32-40 | with no categories, `formOpen` is unchanged and one error toast is raised; otherwise the form opens with no toast |
| ProductList.View.HandleEdit | src/components/Products/ProductList.js:42-45 | selects the product and opens the form |
| ProductList.View.HandleDelete | src/components/Products/ProductList.js:47-49 | opens the dialog on the product |
| ProductList.View.CancelDelete | src/components/Products/ProductList.js:217 | closes the dialog and clears its product |
| ProductList.View.ConfirmDelete | src/components/Products/ProductList.js:51-61 | deletes the dialog's product by id; refetches products only when that succeeds, with the success toast; on failure, `ErrorNotices` of the thrown value (none for a `null` payload) and no refetch; the dialog is closed in every case |
| ProductList.View.HandleFormClose | src/components/Products/ProductList.js:63-66 | closes the form and clears the selection |
| ProductList.View.HandleFormSuccess | src/components/Products/ProductList.js:68-70 | refetches the products with no filters |
| CategoryList.DescriptionLabel | src/components/Categories/CategoryList.js:166 | the card shows the description, or the "No description provided" text when it is missing or empty; never empty |
| CategoryList.IdLabel | src/components/Categories/CategoryList.js:171 | the chip reads `ID: ` followed by the id, which reads back from it |
| CategoryList.IdLabelsDistinguish | src/components/Categories/CategoryList.js:171 | categories with different ids get different chips |
| CategoryList.Render | src/components/Categories/CategoryList.js:60-103 | the spinner shows exactly while loading; the empty state exactly when nothing is loading and there are no categories; otherwise one card per category in order |
| CategoryList.View.constructor | src/components/Categories/CategoryList.js:22-24 | the form is closed, nothing is selected and the dialog is closed |
| CategoryList.View.Mount | src/components/Categories/CategoryList.js:26-28 | fetches the categories |
| CategoryList.View.OpenForm | src/components/Categories/CategoryList.js:71 | the add buttons open the form with no guard |
| CategoryList.View.HandleEdit | src/components/Categories/CategoryList.js:30-33 | selects the category and opens the form |
| CategoryList.View.HandleDelete | src/components/Categories/CategoryList.js:35-37 | opens the dialog on the category |
| CategoryList.View.CancelDelete | src/components/Categories/CategoryList.js:196 | closes the dialog and clears its category |
| CategoryList.View.ConfirmDelete | src/components/Categories/CategoryList.js:39-49 | deletes the dialog's category by id; refetches categories only when that succeeds; on failure, `ErrorNotices` of the thrown value (none for a `null` payload) and no refetch; the dialog is closed in every case |
| CategoryList.View.HandleFormClose | src/components/Categories/CategoryList.js:51-54 | closes the form and clears the selection |
| CategoryList.View.HandleFormSuccess | src/components/Categories/CategoryList.js:56-58 | refetches the categories |

## Left out

- Rendering:
  - JSX markup, MUI styling and the dialog and spinner components are not modelled.
  - A card is reduced to the labels it computes. The product price display (`parseFloat(...).toFixed(2)`) is not modelled, because it is floating-point formatting.
- Transport and libraries:
  - axios transport is replaced by outcome parameters.
  - Toasts are returned as `Notice` values; their durations are not modelled.
  - Environment lookup becomes an `Option<string>` parameter.
  - `URLSearchParams` percent-encoding is not modelled. Filter values are taken as already encoded, and the query round trip assumes values free of `&`.
- React machinery:
  - Hook lifecycles, effect dependency re-runs and context lookup are not modelled. Effects are explicit methods (`Prefill`, `Mount`, `RefreshCategoriesOnOpen`).
  - Concurrency is not modelled, so interleaved fetches that share `loading` are not either. Each awaited call is one atomic step.
  - A fetch that a handler fires without awaiting it is sequenced right after the handler's own toast.
- The category client is a fixed table of paths and methods, so each of its calls is a constant request.
- Text.ToLower: ASCII case folding only; no other letters are folded.
- Text.Trim: uses a simplified white-space set (ASCII white space, no-break space and byte-order mark), not the full Unicode set.
- Number printing:
  - Filter numbers are integers only.
  - Ids are printed as unbounded integers, with no safe-integer limit or float formatting.
- ProductForm.Payload: `parseFloat` and `parseInt` are modelled by presence only: a present value converts to itself and `''` converts to `NaN`. String inputs such as `"12abc"` and the string-against-number comparison `price <= 0` are not modelled.
- Form fields:
  - A price is an optional real number and a category id an optional integer. `None` stands for `''`.
  - A `null` `inStock` on a product is not representable; only missing or boolean values are.
- ProductList.View.ConfirmDelete: when the dialog holds no product, the thrown TypeError's text is engine-specific (V8's wording).
- CategoryList.View.ConfirmDelete: same as `ProductList.View.ConfirmDelete`.
- Form callbacks are reported as the `done` flag, not called.
