# MiniMarket local data layer and screen rules, in Dafny

This project models the core of MiniMarketApp2.0, a React Native marketplace client whose only persistence is on-device key-value storage. It covers:

- **Cart provider** (`Cart`). A class holding the `cartItems` sequence and its stored copy. The pure updaters behind `addToCart`, `removeFromCart` and `updateQuantity` are functions, and the two `reduce` totals are sums. The cart invariant is one entry per product id with every quantity at least 1, and all four mutators preserve it.
- **Catalog** (`Catalog`, `ProductContext`, `ProductsHook`).
  - `Catalog` holds the pure collection transforms.
  - `ProductContext` is the provider, which rethrows failures.
  - `ProductsHook` is the duplicate `useProducts` hook. It swallows failures and does not stamp `sellerPhone`.
  - Each store keeps the published `products` snapshot next to the stored collection, so a failed write can be seen not to publish.
- **Purchase ledger** (`Purchases`). Appends pending purchases and provides the seller-scoped view.
- **Identity registry** (`Auth`). The session user plus the four storage keys `userToken`, `user`, `users` and `allUsers`. It covers register with its duplicate check, the development-mode login, the profile merge, logout and bootstrap.
- **Screen rules**, one module per screen:
  - checkout formatters, validator and payment handler;
  - catalog search and state filter;
  - the seller dashboard;
  - cart quantity buttons and confirmation dialogs;
  - the create and edit product forms (sharing `ProductForm`);
  - the sign-in form;
  - the profile editor;
  - the product page.

Conventions:

- **Prices** are integers in cents, so totals are exact.
- **Opaque values.** Ids and timestamps are opaque strings passed in by the caller, standing for `uuid.v4()` and `new Date()`.
- **The session** is passed explicitly as `Option<User>`.
- **Storage faults.** Every store operation takes `failAt`: the number of storage calls that complete before one throws. A value at least the number of calls means nothing fails. This exposes the partial writes the source allows, for example a `register` that has written `allUsers` but not `users`.
- **Parsers.** `parseFloat` and `Number.prototype.toString` are parameters: `parse` maps text to cents with `None` for `NaN`, and `show` maps cents to text.

Where the written description of the system and the code disagree, the model follows the code:

- `login` itself accepts any pair, even empty strings. Only the sign-in screen insists on non-empty fields.

## Model

| member | source | states |
|---|---|---|
| Cart.AddExistingBumpsOne | src/context/CartContext.tsx:68-76 | on a well-formed cart holding the id, `addToCart` raises that one entry's quantity by exactly 1; length, order, `addedAt` and all other entries are unchanged |
| Cart.AddAbsentAppends | src/context/CartContext.tsx:77-84 | for a new id, exactly `NewItem(product, now)` is appended (the argument's id, name, price, image and seller fields, quantity 1, the call's time stamp) and the earlier entries are kept as they were |
| Cart.AddRepeatedlyCounts | src/context/CartContext.tsx:66-86 | n consecutive additions of a product the cart lacks leave exactly one entry for it, at the end, with quantity n |
| Cart.AddRaisesTotalItems | src/context/CartContext.tsx:66-115 | every `addToCart` on a well-formed cart raises `getTotalItems` by exactly 1 |
| Cart.AddRaisesTotalPrice | src/context/CartContext.tsx:66-111 | `addToCart` raises `getTotalPrice` by one unit price: the stored entry's price when merging (the argument's price is ignored), the argument's price when appending |
| Cart.AddKeepsWellFormed | src/context/CartContext.tsx:66-86 | `addToCart` keeps ids unique and quantities at least 1 |
| Cart.RemoveDropsExactly | src/context/CartContext.tsx:88-90 | after removal no entry has the id, every other entry remains as an order-preserving subsequence, and an absent id leaves the cart unchanged |
| Cart.RemoveKeepsWellFormed | src/context/CartContext.tsx:88-90 | removal keeps the cart invariant |
| Cart.UpdateSetsExactly | src/context/CartContext.tsx:98-102 | a positive quantity is stored exactly on the entry with the id and nothing else changes |
| Cart.UpdateAbsentIsNoOp | src/context/CartContext.tsx:92-103 | updating an absent id leaves the cart unchanged, whatever the quantity |
| Cart.UpdateChangesTotalItems | src/context/CartContext.tsx:92-115 | setting a quantity changes the item count by the difference between the new and the old quantity |
| Cart.UpdateKeepsWellFormed | src/context/CartContext.tsx:92-103 | `updateQuantity` keeps the cart invariant, removing the entry for quantities of 0 or less |
| Cart.TotalItemsAtLeastEntries | src/context/CartContext.tsx:113-115 | with every quantity at least 1, the item count is at least the number of entries and at least the first entry's quantity |
| Cart.EmptyCartTotals | src/context/CartContext.tsx:105-115 | the empty cart is well-formed and both its totals are 0 |
| Cart.SumAppend | src/context/CartContext.tsx:109-115 | a `reduce` sum over a concatenation is the sum of the two parts |
| Cart.SumReplace | src/context/CartContext.tsx:109-115 | replacing one entry changes a `reduce` sum by the difference of the two entries |
| Cart.CartStore.constructor | src/context/CartContext.tsx:31 | the provider starts with an empty cart over whatever is stored |
| Cart.CartStore.LoadCart | src/context/CartContext.tsx:34-52 | the mount effect adopts the stored cart when one is stored and the read succeeds; otherwise the cart is kept |
| Cart.CartStore.SaveCart | src/context/CartContext.tsx:55-64 | the save effect stores the current cart unless the write fails |
| Cart.CartStore.AddToCart | src/context/CartContext.tsx:66-86 | the new cart is the merge-or-append of the product; the invariant is kept and the item count rises by 1 |
| Cart.CartStore.RemoveFromCart | src/context/CartContext.tsx:88-90 | the new cart is the filter without the id; no entry with the id remains; the invariant is kept |
| Cart.CartStore.UpdateQuantity | src/context/CartContext.tsx:92-103 | a quantity of 0 or less is exactly `removeFromCart`; otherwise the quantity is set; the invariant is kept |
| Cart.CartStore.ClearCart | src/context/CartContext.tsx:105-107 | the cart becomes empty, with both totals 0 |
| Cart.CartStore.GetTotalPrice | src/context/CartContext.tsx:109-111 | returns the sum of price times quantity and changes nothing |
| Cart.CartStore.GetTotalItems | src/context/CartContext.tsx:113-115 | returns the sum of quantities, at least the number of entries on a well-formed cart |
| Catalog.FindById | src/screens/ProductDetailScreen.tsx:33 | the `find` by id returns nothing exactly when no product has the id, and otherwise the first product that has it |
| Catalog.AppendFreshKeepsUnique | src/context/ProductContext.tsx:46-62 | appending a listing under a fresh id keeps ids unique and leaves earlier entries in place |
| Catalog.UpdateRewritesContentOnly | src/context/ProductContext.tsx:85-89 | the update `map` replaces name, price, description and image on matching entries only; id, seller fields, creation time, length and order are kept; an absent id changes nothing |
| Catalog.UpdateKeepsUnique | src/context/ProductContext.tsx:85-89 | the update keeps ids unique |
| Catalog.DeleteDropsExactly | src/context/ProductContext.tsx:111 | after the delete `filter` no entry has the id, the rest keep their relative order, and an absent id changes nothing |
| Catalog.DeleteKeepsUnique | src/context/ProductContext.tsx:111 | the delete keeps ids unique |
| ProductContext.ProductStore.constructor | src/context/ProductContext.tsx:22-24 | empty snapshot, not loading, no error |
| ProductContext.ProductStore.LoadProducts | src/context/ProductContext.tsx:26-38 | a successful read publishes the stored collection (empty when absent) and clears the error; a failed one sets the load error and keeps the snapshot |
| ProductContext.ProductStore.AddProduct | src/context/ProductContext.tsx:40-76 | without a session nothing changes and the call resolves; otherwise one listing stamped with the user's id, username, phone, country and state is appended to the stored collection and published; on a failure the error is set, storage and snapshot are kept, and the call rejects |
| ProductContext.ProductStore.UpdateProduct | src/context/ProductContext.tsx:78-103 | on success the stored and published collection is the update `map` of the stored one and the error is cleared; on failure the error is set, nothing else changes, and the call rejects |
| ProductContext.ProductStore.DeleteProduct | src/context/ProductContext.tsx:105-123 | on success the stored and published collection is the delete `filter` and holds no entry with the id; on failure the error is set, nothing else changes, and the call rejects |
| ProductsHook.ProductsState.constructor | src/hooks/useProducts.ts:10-12 | empty snapshot, not loading, no error |
| ProductsHook.ProductsState.LoadProducts | src/hooks/useProducts.ts:14-26 | a successful load publishes the stored collection, or the empty sequence when nothing is stored; a failure sets the error |
| ProductsHook.ProductsState.AddProduct | src/hooks/useProducts.ts:28-62 | no-op without a session; otherwise appends one listing stamped with seller id, username, country and state but no phone; a failure sets the error, is swallowed, and keeps the snapshot |
| ProductsHook.ProductsState.UpdateProduct | src/hooks/useProducts.ts:64-88 | on success the collection is the update `map`; a failure sets the error and is swallowed |
| ProductsHook.ProductsState.DeleteProduct | src/hooks/useProducts.ts:90-107 | on success the collection is the delete `filter` with no entry for the id; a failure sets the error and is swallowed |
| Purchases.SellerPurchasesExact | src/hooks/usePurchases.ts:62-64 | the seller view holds exactly the purchases whose seller is the session user, as an order-preserving subsequence |
| Purchases.SellerPurchasesAppend | src/hooks/usePurchases.ts:45-64 | appending a purchase extends the seller view by it when it belongs to the seller and leaves the view unchanged otherwise |
| Purchases.PurchaseLedger.constructor | src/hooks/usePurchases.ts:10-12 | empty ledger, not loading, no error |
| Purchases.PurchaseLedger.LoadPurchases | src/hooks/usePurchases.ts:14-26 | a successful read publishes the stored purchases; a failure sets the error and keeps the ledger |
| Purchases.PurchaseLedger.AddPurchase | src/hooks/usePurchases.ts:28-60 | no-op without a session; otherwise appends one `pending` purchase bought by the session user with the given product, name, price and seller; a failure sets the error, is swallowed, and keeps the ledger |
| Purchases.PurchaseLedger.GetSellerPurchases | src/hooks/usePurchases.ts:62-64 | returns the seller view, a subsequence of the ledger of purchases sold by the session user, and modifies nothing |
| Auth.RegistrationKeepsIdentitiesUnique | src/context/AuthContext.tsx:44-81 | a credential that passed the duplicate check keeps usernames and emails unique among the stored credentials |
| Auth.MergeOverlays | src/context/AuthContext.tsx:123 | `{...user, ...updates}`: for each of the nine fields, the update's value wins when it carries one and the user's value is kept otherwise |
| Auth.MergeLaws | src/context/AuthContext.tsx:123 | the empty update changes nothing, and merging the same update twice equals merging it once |
| Auth.AuthRegistry.constructor | src/context/AuthContext.tsx:9-10 | no session and loading, over whatever is stored |
| Auth.AuthRegistry.Bootstrap | src/context/AuthContext.tsx:16-29 | the session is restored from the `user` key only when both reads succeed, a non-empty token is stored and a snapshot is stored; loading ends in every case |
| Auth.AuthRegistry.Register | src/context/AuthContext.tsx:31-92 | a username or email already in `users` rejects with the duplicate-identity error and writes nothing; otherwise the new user is appended to `allUsers`, its credential `{userId, username, email, password}` to `users`, then the token and snapshot are written and the session set; a failure after any write keeps the writes made before it |
| Auth.AuthRegistry.Login | src/context/AuthContext.tsx:94-119 | reads no credential: any pair yields a session user with the fresh id, email `username@minimarket.com` and the fixed placeholder fields, written to `userToken` and `user` |
| Auth.AuthRegistry.UpdateProfile | src/context/AuthContext.tsx:121-127 | no-op without a session; otherwise the session becomes the merge immediately, only the `user` key is written, and `allUsers` and `users` are untouched |
| Auth.AuthRegistry.Logout | src/context/AuthContext.tsx:129-140 | removes `userToken` and `user` and clears the session; credentials and profiles are kept |
| PaymentScreen.LeadingCardDigits | src/screens/PaymentScreen.tsx:39-41 | the digits a formatted card number keeps are at most sixteen |
| PaymentScreen.Group4Length | src/screens/PaymentScreen.tsx:40 | grouping n > 0 digits by four inserts (n - 1) / 4 spaces |
| PaymentScreen.Group4At | src/screens/PaymentScreen.tsx:40 | in the grouped text, position i is a space when i mod 5 is 4 and otherwise digit i - i / 5 |
| PaymentScreen.DigitsOfGroup4 | src/screens/PaymentScreen.tsx:39-40 | removing the non-digits from the grouped text gives the digits back |
| PaymentScreen.FormatCardNumberIsGrouped | src/screens/PaymentScreen.tsx:38-41 | cutting the grouped text to 19 characters equals grouping the first sixteen digits |
| PaymentScreen.FormatCardNumberShape | src/screens/PaymentScreen.tsx:38-41 | the formatted card number has only digits and spaces, is at most 19 long, and without its spaces is the first min(16, n) digits of the input |
| PaymentScreen.FormatCardNumberSpaces | src/screens/PaymentScreen.tsx:40-41 | spaces occur exactly at positions 4, 9 and 14 that exist, and the result never ends with a space |
| PaymentScreen.FormatCardNumberIdempotent | src/screens/PaymentScreen.tsx:38-42 | formatting a formatted card number returns it unchanged |
| PaymentScreen.CardLengthIffSixteenDigits | src/screens/PaymentScreen.tsx:38-54 | the card check's length of 19 is reached exactly when sixteen or more digits were typed |
| PaymentScreen.FormatExpiryDateShape | src/screens/PaymentScreen.tsx:44-51 | fewer than two digits are returned as they are; otherwise the first two digits, '/', and then exactly the third and fourth digits typed (all digits); never longer than 5; its digits are the first four of the input |
| PaymentScreen.FormatExpiryDateIdempotent | src/screens/PaymentScreen.tsx:44-51 | formatting a formatted expiry date returns it unchanged |
| PaymentScreen.ExpiryLengthIffFourDigits | src/screens/PaymentScreen.tsx:44-62 | the expiry check's length of 5 is reached exactly when four digits were typed |
| PaymentScreen.ValidateForm | src/screens/PaymentScreen.tsx:53-71 | passes iff card length is at least 19, the trimmed holder name is non-empty, expiry length is at least 5 and CVV length is at least 3; otherwise reports only the first failing check in that order; no date range or checksum is checked |
| PaymentScreen.FormattedFormPasses | src/screens/PaymentScreen.tsx:38-71 | through the formatters the form passes iff sixteen card digits, a holder, four expiry digits and a three-character CVV were entered |
| PaymentScreen.PaymentForm.constructor | src/screens/PaymentScreen.tsx:22-26 | empty fields, not loading |
| PaymentScreen.PaymentForm.EnterCardNumber | src/screens/PaymentScreen.tsx:38-42 | the field holds the formatted card number, at most 19 long with the first sixteen digits |
| PaymentScreen.PaymentForm.EnterExpiryDate | src/screens/PaymentScreen.tsx:44-51 | the field holds the formatted expiry date, at most 5 long |
| PaymentScreen.PaymentForm.HandlePayment | src/screens/PaymentScreen.tsx:73-103 | an invalid form returns the first error and changes nothing; a valid one charges the cart total and empties the cart only when the success alert is accepted |
| ProductListScreen.FilteredProducts | src/screens/ProductListScreen.tsx:32-36 | a product is listed iff its lower-cased name contains the lower-cased query and the selected state is empty or equals its seller state |
| ProductListScreen.NoFilterListsAll | src/screens/ProductListScreen.tsx:170-173 | with query and state both empty, as "Limpiar filtros" leaves them, every product is listed in storage order |
| ProductListScreen.FilteredIsSubsequence | src/screens/ProductListScreen.tsx:32 | the list is an order-preserving subsequence of the catalog |
| ProductListScreen.SearchIgnoresCase | src/screens/ProductListScreen.tsx:33-34 | lower-casing the query or the name does not change the verdict, while a selected state is matched exactly |
| ProductListScreen.CombinedFilterWithinEach | src/screens/ProductListScreen.tsx:35 | the list with both filters is an order-preserving subsequence of the list with either filter alone |
| ProductListScreen.HandleAddToCart | src/screens/ProductListScreen.tsx:38-49 | the cart receives exactly id, name, price, image, seller username, country and state of the product, through the merge-or-append rule |
| MyProductsScreen.MyProductsExact | src/screens/MyProductsScreen.tsx:31 | exactly the session user's listings, in storage order |
| MyProductsScreen.OnePublishButton | src/screens/MyProductsScreen.tsx:70-94 | exactly one of the header and empty-state publish buttons appears, the empty state exactly when the catalog holds nothing of this seller |
| MyProductsScreen.DecimalDigits | src/screens/MyProductsScreen.tsx:63 | a count renders as one or more digits whose decimal value (`DigitValue`, read left to right) is the count, with no leading zero except for 0 itself; at most two digits below 100 |
| MyProductsScreen.BadgeLabel | src/screens/MyProductsScreen.tsx:60-66 | the badge appears iff the count is positive; its label is "99+" iff the count exceeds 99, and otherwise one or two digits whose decimal value is the count |
| MyProductsScreen.BadgeCountsSellerPurchases | src/screens/MyProductsScreen.tsx:32 | the badge appears iff some purchase in the ledger was sold by the session user |
| MyProductsScreen.HandleDeleteProduct | src/screens/MyProductsScreen.tsx:34-49 | only the confirm action calls `deleteProduct`, with the card's id; declining changes nothing |
| CartScreen.QuantityChange | src/screens/CartScreen.tsx:41-47 | a new quantity below 1 opens the removal dialog and never reaches `updateQuantity`; otherwise it is passed on exactly |
| CartScreen.QuantityButtons | src/screens/CartScreen.tsx:92-109 | minus on quantity 1 asks for removal instead of storing 0; minus otherwise lowers the count by 1; plus raises it by exactly 1; the cart stays well-formed |
| CartScreen.HandleQuantityChange | src/screens/CartScreen.tsx:41-47 | below 1 the entry is removed only if the dialog is confirmed; otherwise the quantity is set |
| CartScreen.HandleRemoveFromCart | src/screens/CartScreen.tsx:26-39 | removal happens only from the confirmed dialog |
| CartScreen.HandleClearCart | src/screens/CartScreen.tsx:49-62 | the cart is emptied only from the confirmed dialog |
| CartScreen.HeaderSingularIffOneUnit | src/screens/CartScreen.tsx:123-136 | on a well-formed cart the header says "producto" iff it holds one unit of one product, and the empty view shows iff the item count is 0 |
| ProductForm.CheckProductForm | src/screens/CreateProductScreen.tsx:55-65 | any field blank after trimming is refused before the price is parsed; then a price that is `NaN` or not positive is refused; otherwise the trimmed fields and the parsed price pass |
| ProductForm.AcceptedFieldsAreTrimmed | src/screens/CreateProductScreen.tsx:56-68 | the accepted fields are already trimmed: checking them again yields the same values |
| CreateProductScreen.HandleCreate | src/screens/CreateProductScreen.tsx:55-77 | a refused form never reaches the store; an accepted one is published with the trimmed fields; the success alert follows a resolved call, including the no-session no-op, and a rejection yields the error alert |
| EditProductScreen.EditForm.constructor | src/screens/EditProductScreen.tsx:21-24 | all four fields start empty |
| EditProductScreen.EditForm.Prefill | src/screens/EditProductScreen.tsx:26-34 | the fields are copied from the first product with the route's id, the price through `toString`; without a match they keep their values |
| EditProductScreen.EditForm.HandleUpdate | src/screens/EditProductScreen.tsx:60-80 | the same guards as publishing, then `updateProduct` on the route's id with the trimmed fields; ownership is not checked |
| EditProductScreen.ResubmittingPrefillIsNoOp | src/screens/EditProductScreen.tsx:26-73 | for a listing whose text fields are trimmed and non-empty, whose price is positive and whose price text parses back to it: the validator accepts the prefilled fields as exactly the listing's own values, and the update `handleUpdate` then sends (trimmed fields, parsed price) leaves a catalog with unique ids as it was. Composed with `Prefill` and `HandleUpdate`'s ensures, this covers resubmitting from a prefill snapshot that equals the stored collection |
| AuthScreen.AuthForm.constructor | src/screens/AuthScreen.tsx:20-28 | login mode, all eight fields empty |
| AuthScreen.AuthForm.SelectCountry | src/screens/AuthScreen.tsx:113-117 | choosing a country sets state and city to empty, which locks the city again |
| AuthScreen.AuthForm.SelectState | src/screens/AuthScreen.tsx:133-136 | choosing a state sets city to empty; the city is editable iff the state chosen is non-empty |
| AuthScreen.AuthForm.ToggleMode | src/screens/AuthScreen.tsx:172 | flips login and register and keeps every field |
| AuthScreen.AuthForm.HandleAuth | src/screens/AuthScreen.tsx:30-48 | an empty required field raises the alert and calls nothing, where login needs username and password and register needs all eight; otherwise `login` or `register` runs and a rejection is surfaced with its error |
| ProfileScreen.InitialDraft | src/screens/ProfileScreen.tsx:18-26 | without a session every draft field is empty; with one, merging the untouched draft back into the session user gives that user unchanged, which pins each of the seven fields to the user's value |
| ProfileScreen.SaveAppliesDraft | src/screens/ProfileScreen.tsx:28-31 | saving takes every draft field into the session user and keeps id and creation time |
| ProfileScreen.ProfileEditor.constructor | src/screens/ProfileScreen.tsx:17-26 | not editing, draft from the session |
| ProfileScreen.ProfileEditor.StartEditing | src/screens/ProfileScreen.tsx:166 | enters edit mode |
| ProfileScreen.ProfileEditor.SelectCountry | src/screens/ProfileScreen.tsx:102-104 | a new country clears state and city |
| ProfileScreen.ProfileEditor.SelectState | src/screens/ProfileScreen.tsx:123-125 | a new state clears the city; the city is editable iff the state is non-empty |
| ProfileScreen.ProfileEditor.Cancel | src/screens/ProfileScreen.tsx:38-49 | the draft is rebuilt from the current session user and edit mode ends |
| ProfileScreen.ProfileEditor.Save | src/screens/ProfileScreen.tsx:28-36 | the whole draft, username and email included, goes to `updateProfile`; edit mode ends only if that call resolves |
| ProductDetailScreen.DetailView.constructor | src/screens/ProductDetailScreen.tsx:26 | no product yet |
| ProductDetailScreen.DetailView.Refresh | src/screens/ProductDetailScreen.tsx:32-35 | the shown product is the first with the route's id; none, and hence the loading view, exactly when no product has it |
| ProductDetailScreen.DetailView.HandleBuy | src/screens/ProductDetailScreen.tsx:37-68 | no session gives the sign-in alert with the cart unchanged; no product does nothing; only the confirm action adds the product to the cart by merge-or-append; its frame is the cart's items alone, so no purchase is recorded |

## Left out

- Storage is a set of fields holding the decoded values. AsyncStorage calls and JSON serialization are assumed to round-trip; a stored value that fails to parse behaves like a failed read.
- `uuid.v4()` and `new Date()` are parameters (`newId`, `now`). Freshness of ids is assumed where a lemma needs it, for example `Catalog.AppendFreshKeepsUnique`.
- Floating point is not modelled. Prices are integer cents. `parseFloat`, `toString` and `toFixed` display are outside the model; the first two are parameters.
- `toLowerCase`, `trim` and the `\d` class are ASCII-only. Unicode case mapping and white space are not modelled. Strings are sequences of characters: JavaScript's `.length` counts UTF-16 code units, so a length check such as the CVV's `cvv.length < 3` in `validateForm` can differ on characters outside the Basic Multilingual Plane.
- Async interleavings are not modelled. Each operation runs to completion: overlapping read-modify-write mutations, the cart's save effect firing with `[]` on mount before `loadCart` finishes, and the 2-second payment delay are outside the model.
- Cart.CartStore.LoadCart: the revival of `addedAt` as a `Date` is not modelled; time stamps stay opaque.
- ProductDetailScreen.DetailView.HandleBuy: the cart receives the seven cart fields of the product. The extra product fields the source spreads into the cart entry are not kept.
- Rendering, styles, alert texts other than the error constants, the image picker, navigation and date formatting are not modelled. The loading flags are kept only where the source toggles them around a store call.
- The profile screen's `handleLogout` and the payment screen's shipping-address editor are not modelled. They only forward to `logout` or edit display text.
- Auth.AuthRegistry.Register: the message of a storage error is not modelled, only that one occurred. The duplicate-identity message is the constant `Auth.DuplicateIdentityMessage`.
- The payment screen's `maxLength` limits on the text inputs are not modelled. The formatters are stated for arbitrary input.
