# Storefront admin dashboard and featured products, modelled in Dafny

This project models the two parts of a React storefront (backed by the public
FakeStore catalog API) whose behaviour can be stated precisely:

- the **admin dashboard** (`Admin.jsx`): a page state of ten fields (the
  product list, the fetch flags `loading` and `error`, the create form
  `newProduct`, the edit modal's `editingProduct`, `editFormData` and
  `showEditModal`, and the write flags `submitting`, `submitSuccess` and
  `submitError`), the handlers that change it, and the three list transforms
  those handlers apply after a successful write: append on create, merge by id
  on update, filter by id on delete;
- the **featured section of the home page** (`Home.jsx`): the fetch lifecycle
  and the selection of up to four products from a shuffled copy of the catalog.

Both pages show their body by the same priority: a spinner while loading,
otherwise the error message, otherwise the content.

## Layout

| file | module | contents |
|---|---|---|
| catalog.dfy | `Catalog` | `Option`, prices, the five-field product form, field changes, products, overlay of form fields |
| remote.dfy | `Remote` | `Outcome` of a request (`Ok(payload)` / `NotOk`) and the requests a page sends |
| collection.dfy | `Collection` | append, merge-by-id and remove-by-id on the product list, and their lemmas |
| display.dfy | `Display` | the loading > error > content priority |
| admin.dfy | `Admin` | class `AdminPage` with the dashboard's fields and handlers; `Mount` |
| home.dfy | `Home` | the featured selection and its lemmas; class `HomePage`; `Mount` |

## How the outside world is modelled

- Every network call is an input: the handler receives the reply as an
  `Outcome` parameter. A rejected fetch and a non-ok status end in the
  handler's `catch` and are `NotOk`. For the list fetches, create and update
  (Admin.jsx lines 71, 130 and 193, Home.jsx line 22) an unparsable body
  throws into the same `catch` and is `NotOk` too; delete never reads the
  body, so any ok DELETE reply is `Ok`. The payload of a write reply is at
  most logged by the source, so write replies carry `()`.
- The handlers that may send nothing (a create form missing a field, an edit
  save with no product being edited, a declined delete) return the `Request`
  they send as an `Option`, so that "no request is sent" is part of their
  contract. The reply parameter is then unused.
- The `Date.now()` id of a created product is the parameter `id` of
  `SubmitNewProduct`.
- `window.confirm` is the boolean parameter `confirmed` of `DeleteClick`.
- `parseFloat(value)` is the parameter `parsed` of the field-change handlers,
  with `None` standing for NaN; the `|| ""` that follows it is modelled
  (`CoercePrice`): NaN and 0 both become the blank price.
- A price is `Blank` (the empty string) or `Amount(v)` for a number `v`; its
  truthiness (`!newProduct.price`) is `PriceFilled`, false for blank and for 0.
- The shuffle `[...data].sort(() => 0.5 - Math.random())` uses an
  inconsistent comparator, so section 23.1.3.30 of ECMA-262 (2023 edition)
  leaves the resulting order implementation-defined; the sort still only
  rearranges the copy. The model takes the shuffled copy as the parameter
  `shuffled`, constrained only by `multiset(shuffled) == multiset(data)`.
  `Featured` returns its first `min(4, |data|)` elements, and
  `EverySampleIsFeatured` shows that this abstraction loses nothing: each
  selection of that size drawn from the catalog is reachable. The fetched
  list is a value that `Featured` only reads, so the source's shuffling of a
  copy rather than of `data` itself needs no separate model.
- Each handler is one method that leaves the state the source leaves once the
  reply has been handled.

Some behaviour of the source that a reader might not expect, which the model
follows:

- The edit form is sent without any required-field check, and without the
  category being checked against the list of four categories.
- A failed list fetch leaves the list as it was; it does not clear it.
- A successful fetch does not clear an earlier `error`. A successful delete
  does not clear an earlier `submitError`, because delete never resets it
  before its request. Only `submitSuccess` is cleared by a timer; a write
  error message stays.
- When the fetched catalog has distinct ids, so do the featured products
  (`FeaturedKeepsDistinctIds`). The source does not de-duplicate, so a catalog
  with a repeated id can feature that id twice (`RepeatedIdCanBeFeaturedTwice`).

## Model

| member | source | states |
|---|---|---|
| Catalog.CoercePrice | final-project/src/pages/Admin.jsx:82-88 | `parseFloat(value) \|\| ""` gives the blank price exactly when the parse is NaN or 0, and otherwise the parsed amount; a coerced price is filled exactly when it is an amount |
| Catalog.SetField | final-project/src/pages/Admin.jsx:82-97 | a change handler sets the named field (the coerced price for the price field, the raw text otherwise) and leaves the other four fields unchanged |
| Catalog.Overlay | final-project/src/pages/Admin.jsx:197-199 | `{...p, ...form}` has exactly the form's five fields and keeps the product's id and rating |
| Catalog.Created | final-project/src/pages/Admin.jsx:136 | `{...newProduct, id}` has exactly the form's five fields, the given id and no rating |
| Catalog.PriceFilled | final-project/src/pages/Admin.jsx:106 | a stored price is truthy exactly when it is neither the empty string nor 0 |
| Catalog.MissingRequired | final-project/src/pages/Admin.jsx:104-109 | the create form fails validation exactly when some field other than the image is falsy (an empty text, or a blank or zero price) |
| Collection.AppendCreated | final-project/src/pages/Admin.jsx:136 | create appends exactly one product at the end: length n+1, the first n products unchanged and in order, the last one built from the form with the given id |
| Collection.MergeById | final-project/src/pages/Admin.jsx:196-200 | update keeps the length and order; every product with the edited id gets the form's fields overlaid, every other product is unchanged |
| Collection.RemoveById | final-project/src/pages/Admin.jsx:230-231 | delete leaves no product with the id, never grows the list, only drops products, and leaves a list without that id unchanged (deleting an absent id is a no-op) |
| Collection.RemoveByIdKeepsOthers | final-project/src/pages/Admin.jsx:231 | every product with a different id is kept exactly as often as it occurred |
| Collection.RemoveByIdConcat | final-project/src/pages/Admin.jsx:231 | the filter distributes over concatenation, that is, it keeps the order of what it keeps |
| Collection.RemoveByIdIdempotent | final-project/src/pages/Admin.jsx:231 | deleting the same id a second time changes nothing |
| Collection.RemoveListedProduct | final-project/src/pages/Admin.jsx:231 | with distinct ids, deleting a listed product's id removes that one product only: the list becomes the products before it followed by those after it, length n-1 |
| Collection.RemoveAfterAppend | final-project/src/pages/Admin.jsx:136 | creating a product with a fresh id and then deleting that id restores the list |
| Collection.MergeListedProduct | final-project/src/pages/Admin.jsx:197-199 | with distinct ids, updating a listed product's id replaces just that position with the product overlaid by the form |
| Collection.MergeOwnFormIsIdentity | final-project/src/pages/Admin.jsx:158-199 | with distinct ids, saving the edit form as the edit button filled it in leaves the list unchanged |
| Collection.MergeByIdIdempotent | final-project/src/pages/Admin.jsx:197-199 | saving the same edit twice is the same as saving it once |
| Collection.SubMultisetKeepsDistinctIds | final-project/src/pages/Admin.jsx:288 | any list drawn from a list with distinct ids (no product taken more often than it occurs) has distinct ids, as the rows' `key` needs |
| Collection.AppendKeepsDistinctIds | final-project/src/pages/Admin.jsx:136 | appending a product whose id is fresh keeps ids distinct |
| Collection.MergeKeepsDistinctIds | final-project/src/pages/Admin.jsx:197-199 | an update never changes an id, so ids stay distinct |
| Collection.RemoveKeepsDistinctIds | final-project/src/pages/Admin.jsx:231 | a delete keeps ids distinct |
| Display.Show | final-project/src/pages/Home.jsx:50-60 | the priority both pages share: the spinner shows exactly while loading; otherwise the error message exactly when there is one; otherwise the content |
| Admin.AdminPage.View | final-project/src/pages/Admin.jsx:265-273 | the product tab shows the spinner exactly while loading; otherwise the load error exactly when there is one; otherwise the table of the current list |
| Admin.AdminPage.constructor | final-project/src/pages/Admin.jsx:19-46 | the initial state: empty list, loading, no error, both forms empty, modal closed with no product being edited, not submitting, no success, no write error |
| Admin.AdminPage.FetchProducts | final-project/src/pages/Admin.jsx:62-79 | loading ends false; an ok reply sets the list to the payload in received order; a failed one sets the load message and keeps the list |
| Admin.AdminPage.ChangeNewProduct | final-project/src/pages/Admin.jsx:82-88 | a change in the create form is `SetField` on it; nothing else changes |
| Admin.AdminPage.ChangeEditForm | final-project/src/pages/Admin.jsx:91-97 | a change in the edit form is `SetField` on it; nothing else changes |
| Admin.AdminPage.SubmitNewProduct | final-project/src/pages/Admin.jsx:100-155 | a form missing title, price (blank or 0), description or category: validation message, no request, nothing else changes; otherwise the form is posted and submitting ends false; on success the created product is appended, the form reset, success raised and the error cleared; on failure the add message is set and list, form and success flag are kept |
| Admin.AdminPage.EditClick | final-project/src/pages/Admin.jsx:158-168 | records the product, copies exactly its five form fields into the edit form, opens the modal; nothing else changes |
| Admin.AdminPage.CloseEditModal | final-project/src/pages/Admin.jsx:447-451 | hides the modal and changes nothing else |
| Admin.AdminPage.SubmitEdit | final-project/src/pages/Admin.jsx:171-211 | with no product being edited: no request, no change; otherwise the edit form is sent to the edited id with no field check and submitting ends false; on success the list is merged by id, the modal closes, success is raised and the error cleared; on failure the update message is set and the list, modal and success flag are kept |
| Admin.AdminPage.DeleteClick | final-project/src/pages/Admin.jsx:214-239 | declined: no request, no change; otherwise the delete is sent; on success every product with the id is removed and success raised, the error message kept; on failure the delete message is set and the list kept; submitting is never touched |
| Admin.Mount | final-project/src/pages/Admin.jsx:57-79 | after mounting, the product tab shows the table of the payload in received order, or the load message with an empty list; both forms are empty, the modal is closed with no product being edited, and the write flags are in their initial state |
| Home.Featured | final-project/src/pages/Home.jsx:24-26 | the selection from a permutation of the catalog has length min(4, n), every selected product is in the catalog, and none is selected more often than it occurs |
| Home.FeaturedKeepsDistinctIds | final-project/src/pages/Home.jsx:25-26 | when the catalog's ids are distinct, the featured products' ids are distinct |
| Home.RepeatedIdCanBeFeaturedTwice | final-project/src/pages/Home.jsx:25-26 | nothing de-duplicates: a catalog listing one product twice, left in that order by the sort, features it twice |
| Home.EverySampleIsFeatured | final-project/src/pages/Home.jsx:25-26 | conversely, every selection of min(4, n) products drawn from the catalog is featured by some permutation |
| Home.HomePage.View | final-project/src/pages/Home.jsx:50-60 | the featured section shows the spinner exactly while loading; otherwise the error exactly when there is one; otherwise the grid of the featured products |
| Home.HomePage.constructor | final-project/src/pages/Home.jsx:7-9 | the initial state: no featured products, loading, no error |
| Home.HomePage.FetchFeaturedProducts | final-project/src/pages/Home.jsx:12-35 | loading ends false; an ok reply sets the featured products to the selection from the shuffled copy; a failed one sets the featured-load message and keeps the featured products |
| Home.Mount | final-project/src/pages/Home.jsx:11-60 | after mounting, the section shows the grid of min(4, n) catalog products (distinct when the catalog's ids are), or the featured-load message with no products |

## Left out

- Network I/O and JSON parsing: the `fetch` calls and `response.json()` are replaced by the reply parameter.
- The intermediate states during a request (`loading` or `submitting` true while the reply is awaited) are not modelled; each handler is one step from before the request to after its reply, so two overlapping requests are not modelled either.
- The `setTimeout` that clears `submitSuccess` after 3 seconds: only the flag being raised is modelled.
- The clock: `Date.now()` is the `id` parameter; possible collisions of that id with existing ids are not reasoned about (`AppendKeepsDistinctIds` assumes a fresh id).
- Floating-point work: `parseFloat` is a parameter and `toFixed(2)` price rendering is not modelled; prices are exact reals. Clearing the edit form's price stores `""` (Admin.jsx line 95, `Blank` here); after a successful save that product's row renders `product.price.toFixed(2)` (Admin.jsx line 307) on a string, which throws a TypeError during render, and App.jsx has no error boundary to catch it. The model stores the blank price and stops there.
- The browser's own form validation: the create form's controls are marked `required` (Admin.jsx lines 350, 364, 378, 390) inside a form without `noValidate`, so the browser blocks most empty submissions before `handleNewProductSubmit` runs. `SubmitNewProduct` models the handler as if it were called directly.
- `Math.random` and the sort algorithm: covered by the permutation parameter.
- The success and error banners and the table, form and grid markup: rendering beyond the loading > error > content choice.
- React internals: render scheduling, stale closures, effects after unmount.
- `console.log` and `console.error`: no modelled effect.
- Products.jsx and ProductInfo.jsx repeat the fetch lifecycle of `FetchProducts` and add only rendering; Navbar.jsx (a resize listener), App.jsx (routing), Footer.jsx and Hero.jsx (static markup) are not part of this model.
