# Grocery storefront core, modelled in Dafny

This project models the logic at the core of a Next.js grocery storefront:

- the **product store**. It holds the catalog, the active filters and the sort key. It derives the list of visible products by applying each active criterion in turn and then ordering the result. It also answers lookups by id and "related products" queries.
- the **shop filter panel**. It builds new filter records for the store.
- the **address book**, the **cart summary** (shipping, tax, total, coupons), the **account settings** (profile form, password change, notification switches) and the **order history** (status filter, expandable orders, actions per status).
- the **authentication store**.
- two one-line derivations: the category **slug** on the home page and the product **SKU**.

The code follows the shape of the source:

- Stores and components whose handlers update state are classes. Their fields are that state. Their methods state the whole new state, usually through a pure function.
- The pure functions carry the contracts and the lemmas.
- `filterProducts` is a method. It narrows a local list one criterion at a time. Ghost bookkeeping proves that the result is the declarative selection `Select`, ordered by `Arrange`.

Modules, one file each:

- `Wrappers`: `Option`.
- `Seqs`: order-preserving `filter` and `slice(0, n)`.
- `Text`: ASCII case folding, whitespace, `includes`, `trim`.
- `Catalog`, `CatalogOrder`, `ProductStore`, `FilterPanel`, `AddressBook`, `CartSummary`, `AccountSettings`, `OrderHistory`, `AuthStore`, `CategorySlug`, `ProductSku`.

Three points about the source stand out in the proofs:

- **The panel's brand and colour lists do nothing to the listing.** They travel to the store inside the filter record, but `filterProducts` only reads the single `brand` key. `FilterPanel.BrandChanged` and `FilterPanel.ColorChanged` therefore leave the store's part of the record (`base`) unchanged.
- **The panel's "Clear" differs from the store's `clearFilters`.** The panel still emits a 0–1000 price window (`FilterPanel.ClearedKeepsPriceWindow`).
- **`setProducts` publishes its list without filtering or sorting it** (`ProductStore.SetProductsSkipsSorting`).

## Model

| member | source | states |
|---|---|---|
| Seqs.Filter | src/store/productStore.ts:263-293 | `Array.prototype.filter`: the result holds exactly the elements of the input that pass the test, and is no longer than the input |
| Seqs.FilterAppend | src/store/productStore.ts:263-293 | filtering distributes over concatenation, so kept elements keep their relative order |
| Seqs.FilterTwice | src/store/productStore.ts:258-293 | filtering by one test and then another equals one pass with their conjunction; successive `filtered = filtered.filter(...)` passes are a single selection |
| Seqs.SliceEnd | src/store/productStore.ts:248 | `slice(0, limit)` end index: a non-negative limit is clamped to the length; a negative one counts back from the end, floored at 0 |
| Text.Lower | src/store/productStore.ts:262-267 | `toLowerCase` on ASCII: same length, each character folded, no capital left |
| Text.LowerIdempotent | src/components/cart/CartSummary.tsx:20-24 | lower-casing twice is lower-casing once |
| Text.TrimEmptyIffBlank | src/components/cart/CartSummary.tsx:113 | `s.trim()` is empty exactly when `s` is all whitespace |
| Catalog.Matches | src/store/productStore.ts:261-293 | the per-product test of all seven criteria: the empty record passes every product, an inverted price window passes none, and a passing product lies inside a full price window |
| Catalog.Select | src/store/productStore.ts:256-293 | a product is selected iff it is in the collection and meets every active criterion. Search, category and brand count only when truthy. Price bounds, minimum rating and stock flag count whenever present. Search is a lower-case substring test on name, description, brand or any tag |
| Catalog.SelectUnfiltered | src/store/productStore.ts:232-235 | with `{}` every product is selected, in collection order |
| Catalog.InvertedPriceWindowIsEmpty | src/store/productStore.ts:279-285 | `minPrice > maxPrice` selects nothing |
| Catalog.EmptyTextIsNoConstraint | src/store/productStore.ts:261-277 | an empty search, category or brand string selects exactly what an absent one does |
| Catalog.ZeroAndFalseAreLive | src/store/productStore.ts:283-293 | `inStock: false` keeps exactly the out-of-stock products; `maxPrice: 0` keeps exactly those priced at most 0 |
| Catalog.IndexOfId | src/store/productStore.ts:238 | position of the first product with the id, or the length when there is none |
| Catalog.FindById | src/store/productStore.ts:237-239 | `find`: `None` iff no product has the id; otherwise a product of the collection with that id |
| Catalog.FindByIdIsFirst | src/store/productStore.ts:238 | `find` returns the first product with the id |
| Catalog.Related | src/store/productStore.ts:241-249 | unknown id gives `[]`. Otherwise the result is a prefix, of length `min(limit, n)`, of the other products sharing the first match's category, in collection order. It never contains the id and holds at most `limit` products |
| Catalog.RelatedShareCategory | src/store/productStore.ts:246-248 | every related product has the category of the product asked about |
| CatalogOrder.NameLeTotal | src/store/productStore.ts:312 | the name comparison (code-point order) orders any two names |
| CatalogOrder.NameLeTransitive | src/store/productStore.ts:312 | the name comparison is transitive |
| CatalogOrder.NameLeAntisymmetric | src/store/productStore.ts:312 | names compare equal only when identical |
| CatalogOrder.NameLeReflexive | src/store/productStore.ts:312 | every name compares equal to itself |
| CatalogOrder.Precedes | src/store/productStore.ts:298-312 | the four comparators as "may stand before": price descending is price ascending with the arguments swapped, and every comparator lets a product stand next to itself (totality and transitivity in the next rows) |
| CatalogOrder.PrecedesTotal | src/store/productStore.ts:296-313 | each of the four comparators orders any two products |
| CatalogOrder.PrecedesTransitive | src/store/productStore.ts:296-313 | each comparator is transitive |
| CatalogOrder.InsertPermutes | src/store/productStore.ts:298-312 | insertion adds exactly the element: the multiset grows by it |
| CatalogOrder.InsertOrdered | src/store/productStore.ts:298-312 | insertion into an ordered sequence keeps it ordered |
| CatalogOrder.StableSort | src/store/productStore.ts:298-312 | the sort returns a permutation of its input, ordered by the comparator |
| CatalogOrder.InsertTies | src/store/productStore.ts:298-312 | insertion puts the new element before every element that compares equal to it; since the element inserted is the earlier one, this is what keeps the sort stable |
| CatalogOrder.SortIsStable | src/store/productStore.ts:298-312 | elements that compare equal keep their input order |
| CatalogOrder.Reverse | src/store/productStore.ts:306-308 | `reverse()`: element `i` of the result is element `n-1-i` of the input |
| CatalogOrder.Arrange | src/store/productStore.ts:295-314 | the sort phase permutes its input, keeps membership, and orders the result by the chosen key (all keys except "newest") |
| CatalogOrder.ArrangeOrders | src/store/productStore.ts:296-314 | name gives non-decreasing names; price-low non-decreasing price; price-high and rating non-increasing price and rating; newest the exact reverse |
| CatalogOrder.ArrangeIsStable | src/store/productStore.ts:296-314 | under every comparator key, ties keep filter order |
| ProductStore.View | src/store/productStore.ts:256-317 | the published list holds exactly the products that pass the filters, as a permutation of their selection |
| ProductStore.Narrow | src/store/productStore.ts:261-293 | one more filtering pass narrows a selection to the selection of the stricter record |
| ProductStore.ClearedView | src/store/productStore.ts:232-235 | after clearing, the view is the whole collection in the current order |
| ProductStore.SetProductsSkipsSorting | src/store/productStore.ts:218-220 | two products out of name order, published by `setProducts`, differ from the view the default key describes |
| ProductStore.FilterPhase | src/store/productStore.ts:258-293 | the successive passes over the copy produce exactly `Select` |
| ProductStore.TextPasses | src/store/productStore.ts:261-277 | the search, category and brand passes produce the selection of those three criteria |
| ProductStore.PricePasses | src/store/productStore.ts:279-285 | the price passes extend that to the selection with both bounds |
| ProductStore.QualityPasses | src/store/productStore.ts:287-293 | the rating and stock passes complete the selection of the whole record |
| ProductStore.Store.constructor | src/store/productStore.ts:211-216 | initial state: the catalog unsorted as the visible list, `{}`, sort by name, not loading |
| ProductStore.Store.FilterProducts | src/store/productStore.ts:256-317 | only the visible list changes. It becomes the view of products, filters and sort key, so a second run changes nothing |
| ProductStore.Store.SetProducts | src/store/productStore.ts:218-220 | collection and visible list both become the new list; filters and sort key are kept |
| ProductStore.Store.SetFilters | src/store/productStore.ts:222-225 | the filter record is replaced wholesale and the view recomputed |
| ProductStore.Store.SetSortBy | src/store/productStore.ts:227-230 | the sort key is replaced and the view recomputed |
| ProductStore.Store.ClearFilters | src/store/productStore.ts:232-235 | filters become `{}`; the visible list is the whole collection in the current order |
| ProductStore.Store.SearchProducts | src/store/productStore.ts:251-254 | only the search text changes, then the view is recomputed |
| ProductStore.Store.GetProductById | src/store/productStore.ts:237-239 | looks in the whole collection, not the view; `None` iff no product has the id |
| ProductStore.Store.GetRelatedProducts | src/store/productStore.ts:241-249 | related products come from the collection and never include the id |
| FilterPanel.Toggled | src/components/shop/ProductFilters.tsx:56-59 | a listed id has every occurrence removed and the rest keep their order; an unlisted id is appended at the end |
| FilterPanel.ToggleTwice | src/components/shop/ProductFilters.tsx:57-59 | toggling an unlisted id twice gives back the list (`[]` for an absent list) |
| FilterPanel.CategoryChanged | src/components/shop/ProductFilters.tsx:49-54 | `'all'` clears the category, any other id sets it, every other key is copied |
| FilterPanel.BrandChanged | src/components/shop/ProductFilters.tsx:56-65 | only `brands` changes; the store's criteria and `colors` are untouched |
| FilterPanel.ColorChanged | src/components/shop/ProductFilters.tsx:67-76 | only `colors` changes; the store's criteria and `brands` are untouched |
| FilterPanel.PriceApplied | src/components/shop/ProductFilters.tsx:78-84 | both bounds come from the edited range; every other key is copied |
| FilterPanel.PriceAppliedBounds | src/components/shop/ProductFilters.tsx:78-84 | after applying a range every selected product is priced inside it |
| FilterPanel.RatingSelected | src/components/shop/ProductFilters.tsx:247 | sets `rating`, copies every other key |
| FilterPanel.Cleared | src/components/shop/ProductFilters.tsx:87-94 | the record `clearFilters` emits: empty brand and colour lists, no category, rating or search, and a criterion a product meets iff its price lies in [0, 1000] |
| FilterPanel.ClearedKeepsPriceWindow | src/components/shop/ProductFilters.tsx:86-94 | the cleared record still selects exactly the products priced within [0, 1000] |
| FilterPanel.InitialRange | src/components/shop/ProductFilters.tsx:42 | the `or` defaults: an absent minimum gives 0; an absent or zero maximum gives 1000 |
| FilterPanel.Panel.constructor | src/components/shop/ProductFilters.tsx:41-42 | empty query, range from the incoming filters |
| FilterPanel.Panel.EditQuery | src/components/shop/ProductFilters.tsx:109 | typing changes only the query |
| FilterPanel.Panel.EditLow | src/components/shop/ProductFilters.tsx:159 | editing the lower bound keeps the upper one |
| FilterPanel.Panel.EditHigh | src/components/shop/ProductFilters.tsx:167 | editing the upper bound keeps the lower one |
| FilterPanel.Panel.SubmitSearch | src/components/shop/ProductFilters.tsx:44-47 | the query is sent as typed |
| FilterPanel.Panel.ApplyPrice | src/components/shop/ProductFilters.tsx:78-84 | emits the current range as both bounds |
| FilterPanel.Panel.ClearAll | src/components/shop/ProductFilters.tsx:86-97 | emits the cleared record, resets the range to [0, 1000] and the query to empty |
| AddressBook.WithDefault | src/components/profile/AddressBook.tsx:105-110 | same length, every field but the flag kept, flag true exactly where the id matches |
| AddressBook.OneDefaultAfterSetDefault | src/components/profile/AddressBook.tsx:105-110 | when the id names exactly one entry, that entry is the only default |
| AddressBook.NoDefaultForUnknownId | src/components/profile/AddressBook.tsx:105-110 | an unknown id leaves no default |
| AddressBook.Without | src/components/profile/AddressBook.tsx:101 | the entries without that id remain, in order |
| AddressBook.DeleteAbsentIsNoOp | src/components/profile/AddressBook.tsx:101 | deleting an id no entry has changes nothing |
| AddressBook.DeleteTwice | src/components/profile/AddressBook.tsx:101 | deleting is idempotent |
| AddressBook.Replaced | src/components/profile/AddressBook.tsx:83-85 | same length; entries with the edited id become the draft, the others stay |
| AddressBook.DefaultCount | src/components/profile/AddressBook.tsx:75-86 | the count of defaults is 0 iff no entry is default |
| AddressBook.AppendCountsDefault | src/components/profile/AddressBook.tsx:76-81 | adding an address never demotes existing defaults; a new default adds one |
| AddressBook.Book.constructor | src/components/profile/AddressBook.tsx:48-51 | initial list, no mode, empty form |
| AddressBook.Book.AddNew | src/components/profile/AddressBook.tsx:53-67 | opens the blank draft in add mode and clears `editingId` |
| AddressBook.Book.Edit | src/components/profile/AddressBook.tsx:69-73 | opens the address in edit mode and clears add mode |
| AddressBook.Book.Fill | src/components/profile/AddressBook.tsx:143-210 | typing changes the draft's fields but not its id, nor the mode |
| AddressBook.Book.Save | src/components/profile/AddressBook.tsx:75-91 | add mode appends the draft under the fresh id. Edit mode with a truthy id replaces the matching entries. The form then closes |
| AddressBook.Book.Cancel | src/components/profile/AddressBook.tsx:93-97 | closes the form, keeps the list |
| AddressBook.Book.Delete | src/components/profile/AddressBook.tsx:99-103 | once confirmed removes the entries with the id; unconfirmed changes nothing |
| AddressBook.Book.SetDefault | src/components/profile/AddressBook.tsx:105-110 | the list becomes `WithDefault`; the form is untouched |
| CartSummary.Shipping | src/components/cart/CartSummary.tsx:15 | free iff the subtotal is strictly over 100, otherwise 10 |
| CartSummary.Tax | src/components/cart/CartSummary.tsx:16 | eight percent of the subtotal |
| CartSummary.Total | src/components/cart/CartSummary.tsx:17 | total plus discount equals subtotal plus shipping plus tax, unclamped |
| CartSummary.Save10OnFifty | src/components/cart/CartSummary.tsx:15-21 | subtotal 50 with SAVE10 gives a discount of 5 and a total of 59 |
| CartSummary.TotalCanBeNegative | src/components/cart/CartSummary.tsx:17 | WELCOME20 on a subtotal of 5 drives the total below zero |
| CartSummary.TotalDropsPastThreshold | src/components/cart/CartSummary.tsx:15-17 | a cart of 101 costs less than a cart of 100 |
| CartSummary.CouponDiscount | src/components/cart/CartSummary.tsx:20-27 | `save10` (any case) earns a tenth of the subtotal; `welcome20` earns 20; any other code earns nothing |
| CartSummary.CouponIgnoresCase | src/components/cart/CartSummary.tsx:20-24 | a code and its lower-cased form earn the same |
| CartSummary.PaddedCodeIsRejected | src/components/cart/CartSummary.tsx:20 | the code is not trimmed: `" save10"` earns nothing |
| CartSummary.CanApply | src/components/cart/CartSummary.tsx:113 | Apply is enabled iff the code has a non-whitespace character |
| CartSummary.Hint | src/components/cart/CartSummary.tsx:135-139 | the hint appears iff shipping is charged, and quotes `100 - subtotal` |
| CartSummary.HintFallsShort | src/components/cart/CartSummary.tsx:135-139 | adding exactly the quoted amount still pays for shipping |
| CartSummary.HintCents | src/components/cart/CartSummary.tsx:135-139 | corrected hint: the smallest amount in cents that makes shipping free |
| CartSummary.StaleDiscount | src/components/cart/CartSummary.tsx:12-21 | the stored SAVE10 discount no longer equals a tenth of a changed subtotal |
| CartSummary.CouponBox.constructor | src/components/cart/CartSummary.tsx:10-12 | empty code, no coupon, no discount |
| CartSummary.CouponBox.EditCode | src/components/cart/CartSummary.tsx:107 | typing changes only the code |
| CartSummary.CouponBox.ApplyCoupon | src/components/cart/CartSummary.tsx:19-31 | a known code fixes the discount against the current subtotal, records the code as typed and clears the input. An unknown one is reported and changes nothing |
| CartSummary.CouponBox.RemoveCoupon | src/components/cart/CartSummary.tsx:33-36 | discount 0 and no coupon; the input is kept |
| AccountSettings.FormFromUser | src/components/profile/AccountSettings.tsx:11-16 | the form takes each field from the user, or `''` when missing |
| AccountSettings.PatchFrom | src/components/profile/AccountSettings.tsx:31 | `updateProfile(formData)`: the patched user takes the form's name and email and keeps its id, role and avatar; with `SaveThenReload`, reloading gives the form back |
| AccountSettings.SaveThenReload | src/components/profile/AccountSettings.tsx:30-33 | saving the form and reloading it from the store gives back the form |
| AccountSettings.PasswordVerdict | src/components/profile/AccountSettings.tsx:35-46 | rejects a mismatch first, then a password under 6 characters. Accepts iff the two match and are at least 6 long. The current password plays no part |
| AccountSettings.MismatchComesFirst | src/components/profile/AccountSettings.tsx:36-43 | a short mismatching pair is reported as a mismatch |
| AccountSettings.Toggle | src/components/profile/AccountSettings.tsx:55-60 | flips the named switch and no other |
| AccountSettings.ToggleTwice | src/components/profile/AccountSettings.tsx:55-60 | flipping twice restores the switches |
| AccountSettings.TogglesCommute | src/components/profile/AccountSettings.tsx:55-60 | flips commute |
| AccountSettings.Settings.constructor | src/components/profile/AccountSettings.tsx:9-28 | form from the user, blank passwords, marketing/orders/security on, newsletter off |
| AccountSettings.Settings.StartEditing | src/components/profile/AccountSettings.tsx:71 | enters edit mode |
| AccountSettings.Settings.EditProfile | src/components/profile/AccountSettings.tsx:101-124 | typing changes only the form |
| AccountSettings.Settings.SaveProfile | src/components/profile/AccountSettings.tsx:30-33 | the store's user is patched with the four fields; edit mode ends |
| AccountSettings.Settings.CancelProfile | src/components/profile/AccountSettings.tsx:81-88 | edit mode ends and the form is reloaded from the user |
| AccountSettings.Settings.StartPasswordChange | src/components/profile/AccountSettings.tsx:137 | opens the password form |
| AccountSettings.Settings.EditPasswords | src/components/profile/AccountSettings.tsx:168-183 | typing changes only the password fields |
| AccountSettings.Settings.ChangePassword | src/components/profile/AccountSettings.tsx:35-53 | a rejected change leaves all state unchanged. An accepted one clears the three fields and closes the form |
| AccountSettings.Settings.CancelPasswordChange | src/components/profile/AccountSettings.tsx:147-153 | closes and clears the password form |
| AccountSettings.Settings.ToggleNotification | src/components/profile/AccountSettings.tsx:55-60 | switches become `Toggle` of the old ones, nothing else changes |
| OrderHistory.FilteredOrders | src/components/profile/OrderHistory.tsx:59-61 | `'all'` gives the list unchanged; any other value gives exactly the orders with that status |
| OrderHistory.UnknownStatusShowsNothing | src/components/profile/OrderHistory.tsx:59-61 | a status no order has gives the empty list |
| OrderHistory.FilterKeepsListOrder | src/components/profile/OrderHistory.tsx:61 | filtering distributes over concatenation: original order is kept |
| OrderHistory.Toggled | src/components/profile/OrderHistory.tsx:63-65 | the selected order closes; any other opens |
| OrderHistory.ToggleTwiceCloses | src/components/profile/OrderHistory.tsx:63-65 | from no selection, toggling one order twice returns to none |
| OrderHistory.AtMostOneExpanded | src/components/profile/OrderHistory.tsx:144 | with distinct ids at most one order is expanded |
| OrderHistory.Actions | src/components/profile/OrderHistory.tsx:168-195 | Contact Support always, last. Cancel iff processing, Track iff shipped, Reorder, Review and Invoice iff delivered |
| OrderHistory.History.constructor | src/components/profile/OrderHistory.tsx:56-57 | no selection, filter `'all'` |
| OrderHistory.History.SetFilter | src/components/profile/OrderHistory.tsx:76-78 | only the filter changes |
| OrderHistory.History.ToggleOrderDetails | src/components/profile/OrderHistory.tsx:63-65 | selection becomes `Toggled` of the old one |
| AuthStore.BeforeAt | src/store/authStore.ts:39 | `split('@')[0]`: the longest prefix without `@`; the whole string when there is no `@` |
| AuthStore.SignedInUser | src/store/authStore.ts:36-41 | id `'1'`, email as given, name the part before `@`, ordinary role |
| AuthStore.Patched | src/store/authStore.ts:94 | keys present in the patch override; absent ones keep the user's value |
| AuthStore.PatchIdempotent | src/store/authStore.ts:94 | applying a patch twice is applying it once |
| AuthStore.EmptyPatchKeepsUser | src/store/authStore.ts:94 | the empty patch changes nothing |
| AuthStore.Auth.constructor | src/store/authStore.ts:25-27 | no user, not authenticated, not loading |
| AuthStore.Auth.SignIn | src/store/authStore.ts:29-52 | stores the mock user for the email (the password is unused) and authenticates |
| AuthStore.Auth.SignUp | src/store/authStore.ts:54-76 | stores the given email and name under the fresh id (the password is unused) and authenticates |
| AuthStore.Auth.SignOut | src/store/authStore.ts:78-83 | no user, not authenticated |
| AuthStore.Auth.UpdateProfile | src/store/authStore.ts:85-103 | a no-op without a user. Otherwise the user is patched and authentication is untouched. `isAuthenticated` iff a user is present is preserved |
| CategorySlug.Slug | src/components/home/CategorySection.tsx:95 | the slug has no whitespace and no capital and is never longer than the name; the following rows state what it keeps |
| CategorySlug.Dash | src/components/home/CategorySection.tsx:95 | `replace(/\s+/g, '-')` yields no whitespace and is never longer than its input |
| CategorySlug.DashKeepsLowerCase | src/components/home/CategorySection.tsx:95 | the replacement introduces no capital |
| CategorySlug.SlugHasNoSpace | src/components/home/CategorySection.tsx:95 | a slug contains no whitespace |
| CategorySlug.DashFixed | src/components/home/CategorySection.tsx:95 | text without whitespace is left unchanged |
| CategorySlug.SlugIdempotent | src/components/home/CategorySection.tsx:95 | slugging a slug returns it |
| CategorySlug.DashRun | src/components/home/CategorySection.tsx:95 | a maximal whitespace run becomes exactly one `-` |
| CategorySlug.TrimSpaces | src/components/home/CategorySection.tsx:95 | a whitespace run before a non-space character is consumed whole |
| CategorySlug.DashWord | src/components/home/CategorySection.tsx:95 | a non-space character is kept in place |
| CategorySlug.DashAppendWord | src/components/home/CategorySection.tsx:95 | a word without whitespace is kept and the rest is replaced on its own |
| CategorySlug.SkipRun | src/components/home/CategorySection.tsx:95 | a leading whitespace run holds no non-space character and its single dash adds none |
| CategorySlug.DashKeepsLetters | src/components/home/CategorySection.tsx:95 | apart from dashes, the output has exactly the input's non-space characters, in order |
| CategorySlug.RunIsSpace | src/components/home/CategorySection.tsx:95 | what the run matcher consumes is whitespace |
| CategorySlug.SlugKeepsLetters | src/components/home/CategorySection.tsx:95 | the slug's letters are the name's letters, lower-cased, in order |
| CategorySlug.DashWords | src/components/home/CategorySection.tsx:95 | three words separated by single spaces become three words separated by dashes |
| CategorySlug.CoffeeAndTea | src/components/home/CategorySection.tsx:95 | lower-cased "Coffee & Tea" becomes `coffee-&-tea` |
| ProductSku.Repeat | src/components/product/ProductInfo.tsx:18 | `n` copies of the pad character |
| ProductSku.PadStart | src/components/product/ProductInfo.tsx:18 | `padStart`: long strings are kept; short ones get the fill in front up to the width, ending with the string |
| ProductSku.Sku | src/components/product/ProductInfo.tsx:18 | starts with `FWM` and has length 3 + max(4, length of the id). A long id follows unchanged; a short one follows zeros only |
| ProductSku.SkuInjective | src/components/product/ProductInfo.tsx:18 | ids of equal length get distinct SKUs |
| ProductSku.PaddingCollides | src/components/product/ProductInfo.tsx:18 | ids of different lengths can collide: `7` and `0007` share a SKU |

## Left out

- **Zustand wiring.** `create`, `get`/`set`, the `persist` middleware and localStorage (`authStore.ts:22-24, 105-111`) are not modelled. Every store action is one atomic step.
- **Simulated latency.** The `await` in the auth actions is not modelled, and `try`/`catch` never fires. `isLoading` is therefore false between actions.
- **Nondeterminism and dialogs.** `Date.now()` ids are parameters (`freshId`). The `confirm` answer is a parameter (`confirmed`). `alert` messages are result values (`rejected`, `Verdict`).
- **Sorting in place.** `Array.prototype.sort` and `reverse` work in place on the local copy. The model builds a new sequence, a stable insertion sort, so in-place update and aliasing are not captured. The copy is never shared, so no caller can observe the difference.
- **Locale order.** `localeCompare` is modelled as code-point lexicographic order. Locale collation rules are not modelled.
- **Unicode detail.** `toLowerCase`, `\s` and `trim` are modelled on ASCII. Non-ASCII case folding and non-ASCII whitespace are not. String lengths count characters, not UTF-16 code units, in the password check and in `padStart`.
- **Numbers.** Prices, ratings, tax and discounts are exact reals. IEEE rounding and `toFixed` formatting are not modelled. For example, `subtotal * 0.08` is exactly 8 % here.
- **JavaScript spread details.**
  - A `Partial<User>` key present with the value `undefined` would erase a field. The model treats every present key as defined, as the profile form always sends strings.
  - The filter panel's `brands`/`colors` lists ride along in the store's record without being read. They are kept in `FilterPanel.PanelFilters`, beside the store's part.
- **Presentation.** Markup, icons, star rendering, images, variants, nutrition facts, stock counts and the delete-account dialog are not modelled.
- **Other files.** The cart store (the source of the subtotal), `CartItem.tsx` and `RelatedProducts.tsx` (whose own selection compares a string id with a number) are not part of this model.
- CategorySlug.CoffeeAndTea: states the example for the already lower-cased name. The lower-casing of the literal is covered only by the general `Text.Lower` contract.
- FilterPanel.ToggleTwice: an absent list comes back as `[]`, not as an absent key, as `filters.brands || []` implies.

## Findings

| source | as written | input that shows it | evidently intended | confidence | as-written member | corrected member |
|---|---|---|---|---|---|---|
| src/components/cart/CartSummary.tsx:138 | the hint asks for `100 - subtotal` more, but line 15 makes shipping free only strictly over 100 | subtotal 60: the hint says "Add $40.00 more"; at 100 shipping is still 10 | quote the smallest amount that makes shipping free (one cent more) | medium, not executed | CartSummary.HintFallsShort | CartSummary.HintCents |
