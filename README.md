# FreshEats storefront core in Dafny

FreshEats is a small meal-delivery storefront built on a hosted document
store. This project models its client-side logic and proves properties of
that model:

- **Menu** (`menu.dfy`) covers the foods page's `filterFoods`. It applies an
  optional case-insensitive search on name or description, then an optional
  category filter with an "All Categories" sentinel. It then sorts, in place,
  by price, by calories, or by name for any other sort key.
- **StableSort** (`stable_sort.dfy`) is `Array.prototype.sort` with the
  source's comparators. It is an in-place stable insertion sort on an
  `array`, proved against a functional `Sort`. Separate lemmas show that
  `Sort` permutes its input, orders it and keeps ties in input order.
- **Checkout** (`checkout.dfy`) is the order page:
  - the delivery-details form (`handleInputChange`);
  - the subtotal, the 8% tax and the total;
  - the rule that disables the Place Order button;
  - `handlePlaceOrder`, which validates, writes one order document and clears
    the cart only after the write succeeded.
- **Contact** (`contact.dfy`) is the contact form: `handleInputChange`, and
  `handleSubmit`, which writes one inquiry and resets the form on success.
- **Home** (`home.dfy`) is the home page:
  - `loadRecentOrders`: filter by user, normalise the documents, sort newest
    first and keep five;
  - the three featured items;
  - the short order reference `id.slice(-8).toUpperCase()`.
- **Catalog** and **Seeding** (`catalog.dfy`, `seeding.dfy`) hold the seed
  lists and `initializeDatabase`. That function has two independent
  "seed if empty" steps, one over categories and one over food items. A
  failing call is logged and re-thrown, and appends already made stay.
- **Common** (`common.dfy`) holds shared helpers:
  - an order-preserving `Filter`, plus its array form;
  - `slice` from the front and from the back;
  - substring search;
  - ASCII case mapping.

Each entity whose fields are updated in place is a `class`:

- `Checkout.OrderPage` and `Contact.ContactPage` hold a page's state and the
  store collection that page writes.
- `Seeding.CatalogStore` holds the two store collections that
  `initializeDatabase` seeds.
- Each of them has a value-level specification function: `PlaceOrder`,
  `Submit` and `Initialize`.
- Each method's `ensures` ties the new state and the result to that
  function. The properties are then proved about the function.

The store is not modelled as running code. Collections are sequences. Whether
a read or write succeeds, the id the store gives a new document, the clock
and the signed-in user's id are all parameters.

The foods page sets its category to `categoryParam || 'All Categories'`. Its
filter (app/foods/page.tsx:72) also treats an empty selected category as
"no filter"; the model follows the code.

## Model

| member | source | states |
|---|---|---|
| Menu.InitialCategory | app/foods/page.tsx:25 | The starting category is the `category` query parameter when it is present and non-empty; otherwise it is the "All Categories" sentinel. |
| Menu.SentinelIsNoSeedCategory | lib/seed-data.ts:23-48 | The sentinel is not the name of any seed category. |
| Menu.FilteredFoods | app/foods/page.tsx:60-86 | The list `filterFoods` computes never has more items than were loaded. With neither filter active, it has exactly as many. |
| Menu.InitialOrderIsByName | app/foods/page.tsx:26 | The page starts with sort key "name", so before any sort choice the list is in name order, whatever the search and category. |
| Menu.FilteredIsSortOfPassing | app/foods/page.tsx:60-86 | Two filters applied one after the other equal a single filter by "passes both", followed by the sort. |
| Menu.FilteredCount | app/foods/page.tsx:61-74 | The shown list is a permutation of the loaded items that pass both filters. Each such item appears as often as it was loaded; every other item is absent. |
| Menu.FilteredSound | app/foods/page.tsx:64-74 | Every shown item was loaded. With a non-empty term, its lower-cased name or description contains the lower-cased term. With a category filter, it has that category. |
| Menu.FilteredComplete | app/foods/page.tsx:64-74 | Every loaded item that passes both filters is shown. |
| Menu.NoFilterShowsAll | app/foods/page.tsx:61-74 | An empty term and no category filter show every loaded item, each as often as loaded. |
| Menu.FilteredOrdered | app/foods/page.tsx:77-86 | The list is non-decreasing by price for "price" and by calories for "calories". For any other key it is non-decreasing by name. |
| Menu.FilteredStable | app/foods/page.tsx:77-86 | Items with equal sort keys keep their relative input order. |
| Menu.FilterFoods | app/foods/page.tsx:60-89 | The in-place method yields the specified list. With no filter, the result is the `foods` array itself, reordered. Otherwise it is a fresh array and `foods` is untouched. In both cases `foods` keeps the same elements. |
| StableSort.TextCompareZero | app/foods/page.tsx:84 | The name comparison is zero exactly for equal names. |
| StableSort.TextCompareAntisymmetric | app/foods/page.tsx:84 | Swapping the operands negates the name comparison. |
| StableSort.TextCompareTransitive | app/foods/page.tsx:84 | The name comparison's "not after" relation is transitive. |
| StableSort.SortPermutes | app/foods/page.tsx:77-86 | Sorting returns a permutation of its input: same multiset, same length. |
| StableSort.SortSorted | app/foods/page.tsx:77-86 | The comparator is at most zero for every pair of positions in the sorted result. |
| StableSort.SortStable | app/foods/page.tsx:77-86 | For every key, the elements with that key appear in the same order before and after sorting. |
| StableSort.Comparator | app/foods/page.tsx:77-86 | Numeric keys ascend: the sign of the result says whether `a` is below, equal to or above `b`, as `a.price - b.price` does. Name keys give a three-way result. The home page's comparator (app/page.tsx:79) is this one on negated timestamps. |
| StableSort.Insert | app/foods/page.tsx:77-86 | Inserting one element into the sorted prefix adds exactly one position. |
| StableSort.Sort | app/foods/page.tsx:77-86 | The stable sort keeps the length of its input. It is also the sort of app/page.tsx:79. |
| StableSort.InsertInPlace | app/foods/page.tsx:77-86 | One in-place insertion pass moves `a[i]` into the sorted prefix. The rest of the array keeps its values. The home page's sort (app/page.tsx:78-79) uses the same pass. |
| StableSort.SortInPlace | app/foods/page.tsx:77-86 | The in-place sort leaves the array equal to the specified stable sort of its old contents. This is the sort of both the foods page and the home page (app/page.tsx:78-79). |
| Common.FilterCount | app/foods/page.tsx:65-73 | `filter` keeps every element that satisfies the predicate, each as often as it occurs, and drops the rest. |
| Common.FilterArray | app/foods/page.tsx:65-73 | `array.filter` returns a fresh array holding the kept elements in input order. |
| Catalog.SeedSizes | lib/seed-data.ts:23-232 | The reference data has four categories and twenty food items. |
| Catalog.SeedItemCategoriesKnown | lib/seed-data.ts:50-232 | Every seed food item names one of the seed categories. |
| Seeding.SeedStep | lib/seed-data.ts:239-266 | A failed read changes nothing. A non-empty collection is left as it is. An empty collection receives the seed list in order: all of it exactly when the step succeeds, otherwise a proper prefix. A write failing after n appends leaves exactly the first n seed documents; nothing is rolled back. |
| Seeding.Initialize | lib/seed-data.ts:234-286 | A failed first read rejects with the store untouched. After a call that resolves, neither collection is empty. |
| Seeding.InitializeFaultFree | lib/seed-data.ts:238-266 | When every call succeeds, each empty collection ends up holding exactly its seed list, each non-empty one is unchanged, and the call resolves. |
| Seeding.FoodStepIndependent | lib/seed-data.ts:253-266 | Once the categories step has succeeded, the food-items result does not depend on the categories collection. |
| Seeding.FailureKeepsPartialSeed | lib/seed-data.ts:267-284 | After any combination of failures, each collection holds either its old contents or, if it was empty, a prefix of its seed list. A categories seed interrupted after n appends keeps exactly n categories, rejects and leaves the food items alone. A food seed interrupted after m appends, once categories succeeded, keeps exactly m items and rejects. |
| Seeding.InitializeIdempotent | lib/seed-data.ts:242-257 | Running the initialisation twice on a store whose calls succeed gives the same store as running it once. |
| Seeding.PartialSeedIsPermanent | lib/seed-data.ts:242-247 | A categories seed interrupted after n appends (0 < n < 4) rejects. A later fault-free run leaves the n categories as they are and never completes the list. |
| Seeding.CatalogStore.InitializeDatabase | lib/seed-data.ts:234-286 | The method leaves the store and the outcome that `Initialize` specifies. The food step runs only if the categories step did not throw. |
| Seeding.CatalogStore.SeedCategoriesStep | lib/seed-data.ts:239-251 | The loop's appends produce what `SeedStep` specifies for the categories collection. |
| Seeding.CatalogStore.SeedFoodItemsStep | lib/seed-data.ts:254-266 | The loop's appends produce what `SeedStep` specifies for the food-items collection. |
| Checkout.SetField | app/order/page.tsx:35-40 | The named field takes the new value and the other four fields keep theirs. |
| Checkout.OrderPage.HandleInputChange | app/order/page.tsx:35-40 | The form becomes `SetField` of the old form. |
| Checkout.OrderPage.constructor | app/order/page.tsx:20-27 | The page starts with all five fields empty and not placing an order. |
| Checkout.Tax | app/order/page.tsx:43 | For a non-negative subtotal, the tax is neither negative nor more than the subtotal. |
| Checkout.Total | app/order/page.tsx:44 | For a non-negative subtotal, the total is at least the subtotal. |
| Checkout.TotalIsSubtotalPlusEightPercent | app/order/page.tsx:42-44 | The tax is 8% of the subtotal and the total is 108% of it. For a non-negative subtotal, the tax lies between zero and the total. |
| Checkout.OrderItems | app/order/page.tsx:62-67 | One order entry per cart line, in cart order, copying id, name, price and quantity. |
| Checkout.BuildOrder | app/order/page.tsx:60-74 | The order document holds the form, the items, the user id and the time, with status "pending". Its total is subtotal plus tax, which is 1.08 × subtotal. |
| Checkout.Validate | app/order/page.tsx:47-55 | Rejection for missing fields happens exactly when a required field is empty. Rejection for an empty cart happens exactly when the fields are filled and the cart is empty. Acceptance happens exactly when the fields are filled and the cart is non-empty. |
| Checkout.SpecialInstructionsOptional | app/order/page.tsx:47 | Changing the special instructions never changes the validation verdict. |
| Checkout.PlaceOrderDisabled | app/order/page.tsx:254 | The button is disabled while an order is being placed and whenever the cart is empty. |
| Checkout.EnabledButtonHasItems | app/order/page.tsx:254 | A click on the enabled button is never rejected for an empty cart. |
| Checkout.AlertText | app/order/page.tsx:48-82 | Every outcome except a placed order shows an alert. |
| Checkout.PlaceOrder | app/order/page.tsx:46-86 | The form never changes. A rejected request changes nothing. An attempted write always ends with the button released. One order is appended, the cart cleared and the new id returned exactly when validation passes and the write succeeds. Otherwise cart and orders are unchanged. A valid request whose write fails ends as a write failure, with its own alert, not as a rejection. |
| Checkout.FieldCheckFirst | app/order/page.tsx:47-55 | An empty required field causes a missing-fields rejection even when the cart is also empty. |
| Checkout.RetryAfterFailure | app/order/page.tsx:76-85 | After a failed write, the same request retried successfully appends exactly the intended order. |
| Checkout.OrderPage.HandlePlaceOrder | app/order/page.tsx:46-86 | The method leaves the page, cart and orders, and returns the result, that `PlaceOrder` specifies. |
| Contact.SetField | app/contact/page.tsx:32-37 | The named field takes the new value and the other two fields keep theirs. |
| Contact.ContactPage.HandleInputChange | app/contact/page.tsx:32-37 | The form becomes `SetField` of the old form. |
| Contact.ContactPage.constructor | app/contact/page.tsx:18-24 | The page starts with an empty form, not submitting and not submitted. |
| Contact.Complete | app/contact/page.tsx:42 | The form is complete exactly when each of its three fields is non-empty. |
| Contact.ToInquiry | app/contact/page.tsx:50-55 | The inquiry carries the form's three fields, the user id, the time and status "new". |
| Contact.AlertText | app/contact/page.tsx:42-61 | Every outcome except a sent message shows an alert. |
| Contact.Submit | app/contact/page.tsx:39-65 | An incomplete form changes nothing. An attempted write always ends with `isSubmitting` false. One inquiry is written, `submitted` set and the form reset exactly when the form is complete and the write succeeds. A complete form whose write fails ends as a send failure, keeping the form, `submitted` and the store. |
| Contact.NoDoubleSubmit | app/contact/page.tsx:42-58 | A second submit right after a successful one is rejected and writes nothing. |
| Contact.ContactPage.HandleSubmit | app/contact/page.tsx:39-65 | The method leaves the page and inquiries, and returns the result, that `Submit` specifies. |
| Home.NormaliseTotal | app/page.tsx:72 | A numeric stored total is kept. A missing or non-numeric one becomes 0. |
| Home.NormaliseStatus | app/page.tsx:73 | A non-empty stored status is kept. A missing or empty one becomes "pending". The result is never empty. |
| Home.Normalise | app/page.tsx:70-75 | Each pushed entry keeps the document's id and time and carries the normalised total and status. |
| Home.NormaliseAll | app/page.tsx:67-76 | One entry per snapshot document, in snapshot order, each normalised. |
| Home.RecentOrders | app/page.tsx:78-80 | The list passed to `setRecentOrders` has at most five entries and no more than the store holds. |
| Home.RecentOrdersNewestFirst | app/page.tsx:77-80 | The list holds min(5, n) entries for a user with n orders, in non-increasing creation time. |
| Home.RecentOrdersOwned | app/page.tsx:59-76 | Every listed entry is the normalised form of a stored order whose owner is the signed-in user. |
| Home.RecentOrdersAreTheNewest | app/page.tsx:77-80 | No order of the user left off the list is newer than one on it. |
| Home.LoadRecentOrders | app/page.tsx:57-85 | Nothing is set when there is no user id or the read throws. Otherwise the list that is set is the specified newest-first five. |
| Home.FeaturedItems | app/page.tsx:51 | The featured items are the first min(3, n) fetched items, in fetched order. |
| Home.OrderLabel | app/page.tsx:184 | The label has min(8, length of the id) characters: the id's last characters, upper-cased. |
| Home.OrderLabelIsSliceThenUpper | app/page.tsx:184 | The label equals upper-casing applied to the last eight characters of the id. |
| Home.OrderLabelIgnoresPrefix | app/page.tsx:184 | For ids of eight or more characters, the label depends only on the last eight. |

## Left out

- Numbers are exact: prices, totals and timestamps are `real` or `int`. IEEE-754 rounding of `subtotal * 0.08` and of price differences is not modelled, nor is `toFixed(2)` display formatting.
- StableSort.TextCompare: `localeCompare` is modelled as code-point lexicographic order. Locale collation is outside the language, so the name ordering proved is that order and not the locale's.
- Common.ToLower: `toLowerCase` and `toUpperCase` are modelled for ASCII letters only. Full Unicode case mapping is not available.
- `handleInputChange` on both forms takes one of the form's own field names. JavaScript would also accept an unknown name and add a new key; the pages never pass one.
- The cart manager is not part of this model. Its `items` and `getCartTotal()` are inputs, and `clearCart()` empties `items`.
- Authentication and the redirects to `/login` are not modelled, and neither is navigation (`router.push` to the confirmation page). The placed order's id is returned instead.
- Store document ids, the clock (`new Date()`) and the store's result order are parameters. Conversion of stored timestamps to `Date` and invalid dates (NaN times) are not modelled.
- Home.NormaliseTotal: the stored total is abstracted to "number", "missing" or "non-numeric". `Number()` parsing of numeric strings is not modelled.
- Home.NormaliseStatus: `String(...)` of a non-string stored status is not modelled. The stored status is a string or missing.
- Checkout.OrderPage.HandlePlaceOrder: `isPlacingOrder` stays true only while the write is pending. With no concurrency in the model, that intermediate state is not observable; the model shows the state after `finally`.
- Contact.ContactPage.HandleSubmit: the same holds for `isSubmitting`.
- Concurrent runs of `initializeDatabase` are not modelled: two pages loading at once could both see an empty collection. Console logging and the error-detail branches (lib/seed-data.ts:268-283) only log.
- `loadFoods` and `loadFeaturedItems` copy the snapshot into a list. Here the list is the input of `FilterFoods` and `FeaturedItems`.
- Rendering (the FoodCard component, layouts, the other pages' markup) is not modelled.
