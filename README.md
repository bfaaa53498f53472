# IR7 Football Shop — a verified model of the storefront's core

The IR7 Football Shop is a small e-commerce site. An Express server holds a constant table of
fourteen football products. The browser pages keep the shopping state in `localStorage`.

This project models the logic underneath the pages, and proves what that logic promises. It covers:

- the cart, keyed by (product id, selected size): the stock-capped add of the main page, the
  uncapped add of the products page, and the quantity change and row removal of the cart page;
- the order summary (subtotal, the free-shipping threshold, total) and the order payload that
  checkout submits;
- the four-step checkout dialog: shipping, payment, review and confirmation;
- the catalogue's filter pipeline and its sort orders, brand detection, image paths, the header's
  cart badge and the wishlist toggle;
- `AuthSystem`: sign-up, sign-in, sign-out, the session queries and the profile update;
- the server's product listing, its lookup by id and its order endpoint.

Modules follow the program's files:

- `Base` holds JavaScript's string and number behaviour as the code relies on it: `trim`, `\s`,
  ASCII `toLowerCase`, `includes`, `startsWith` and `parseInt`.
- `Server` is `server.js`.
- `Model` holds the client's records and the cart-row functions that several pages share.
- `Storage` is `localStorage`. It is a class with one field per key (`cart`, `wishlist`, `users`,
  `currentUser`). The page operations that read and write a key are methods that modify only that
  field.
- `App` is `public/app.js`. Its page globals (`allProducts`, `currentProducts`, `currentFilters`)
  form the class `App.Catalog`.
- `ProductList` is `public/components/product_list.js`.
- `CartPage` is the cart part of `public/components/cart.js`.
- `Checkout` is the checkout part of `public/components/cart.js`. Its module-level state
  (`shippingData`, `paymentMethod`, `finalTotalAmount`, the current step and the place-order
  button) forms the class `Checkout.CheckoutFlow`.
- `Auth` is `public/components/auth.js`.

Clock readings (`Date.now()`) and ISO timestamps are parameters. So is the outcome of the order
request: accepted with the server's reply, or failed.

Three decisions follow the code rather than its description:

- `updateQuantity` applies the stock bound after the lower bound of one. So a row whose stock is
  below one gets its stock, possibly 0, not 1 (`CartPage.ClampQuantity`).
- The stock cap of the main page's `addToCart` counts only the row of the same (id, size). It does
  not count the product's other sizes.
- After sorting, the products on show are a permutation of a subsequence of the catalogue. They
  are not themselves a subsequence of it.

## Model

| member | source | states |
|---|---|---|
| Server.Table | server.js:7-169 | The fourteen product records of the server, in file order; `Server.TableIds`, `Server.TableIdsDistinct` and `Server.TableSizesListed` state its shape. |
| Server.TableIds | server.js:7-169 | The table holds 14 products, and the product at position i has id i + 1. |
| Server.TableIdsDistinct | server.js:7-169 | No two products of the table share an id. |
| Server.TableSizesListed | server.js:7-169 | Every product lists at least one size, including those whose `hasSizes` is false. |
| Server.InCategory | server.js:182 | A product is in the result iff it is in the input with exactly that category; every result has that category. |
| Server.InCategoryIsSubsequence | server.js:182 | The category filter keeps the table's order. |
| Server.ListProducts | server.js:177-189 | A missing or empty `category`, or `all`, gives the whole table; any other value gives exactly that category's products, in table order. |
| Server.FindById | server.js:194 | A found product is in the list with the requested id and no earlier product has it; nothing is found iff no product has that id, and a NaN id finds nothing. |
| Server.FindByIdDistinct | server.js:194 | With distinct ids, looking up any product's id finds that product. |
| Server.GetProduct | server.js:192-205 | A product is returned iff some table product's id equals `parseInt` of the parameter, and it is that product; otherwise the reply is 404 with `Product not found`. |
| Server.GetProductById | server.js:192-200 | Every table product is served at the decimal numeral of its id. |
| Server.GetProductNonNumeric | server.js:193-204 | A parameter that `parseInt` turns into NaN gets the 404 reply. |
| Server.GetProductTrailingText | server.js:193-200 | Text after the digits is ignored: product i's numeral followed by a suffix that starts with neither a digit nor `x` still serves product i. |
| Server.PostOrder | server.js:208-221 | For any body the reply reports success with `Order placed successfully!`, and its id is `IR7` followed by the digits of the clock. |
| Server.OrderIdsDistinct | server.js:214 | Orders placed at different milliseconds get different ids. |
| Base.ParseInt | server.js:193 | `parseInt(s)` without a radix: leading white space, an optional sign, a `0x` prefix selecting base 16, then the longest run of digits; NaN (`None`) without a digit. Its lemmas below state what it gives on numerals. |
| Base.Utf16Length | public/components/auth.js:25 | JavaScript's `length`: at least the number of characters and at most twice it, and equal to it iff no character lies outside the Basic Multilingual Plane. |
| Base.Utf16LengthSurrogates | public/components/auth.js:25 | Three emoji are three characters but six code units, so `length` counts them as 6. |
| Base.ParseDecimalPrefix | server.js:193 | `parseInt` of a decimal numeral is its value, also when text follows that starts with neither a digit nor `x`. |
| Base.Lower | public/components/auth.js:13 | `toLowerCase()` on ASCII letters: the same length, and each character mapped by itself (`A`-`Z` to `a`-`z`, every other character kept). |
| Base.Trim | public/components/auth.js:36-40 | `trim()`: white space stripped from both ends, the ECMAScript white-space set included; `TrimStart` and `TrimEnd` state what each end keeps. |
| Base.LowerIdempotent | public/components/auth.js:13 | Lower-casing twice is lower-casing once. |
| Storage.LocalStorage.constructor | public/app.js:16 | An untouched store reads as an empty cart, wishlist and user list, with no session. |
| Model.FindRow | public/app.js:384-386 | The index found is the first row whose key is (id, size); none is found iff no row has that key. |
| Model.FindRowUnique | public/app.js:384-386 | With unique keys, the lookup of row i's own key finds row i. |
| Model.ResolveSize | public/app.js:380 | The row's size is the given size when truthy, else the first listed size for a product with sizes, else `Standard`. |
| Model.ResolveSizeListed | public/components/product_list.js:20 | A size taken from the product's own list resolves to one of its sizes, or to `Standard` for a product without sizes when no size is given. |
| Model.NewRow | public/app.js:377-381 | A new row carries the whole product, the resolved size and quantity 1. |
| Model.Bump | public/app.js:395 | Only row i changes, and it gains one unit. |
| Model.AppendKeepsUnique | public/app.js:398 | Appending a row whose key is absent keeps every key on one row. |
| Model.BumpKeepsUnique | public/app.js:395 | Raising a quantity keeps every key on one row. |
| Model.BumpQuantities | public/app.js:395 | A bump adds one unit to the total and to row i's key, and leaves other keys alone. |
| Model.AppendQuantities | public/app.js:398 | Appending a new row adds one unit to the total and to the new key. |
| App.BadgeCount | public/app.js:17 | `cart.reduce((t, item) => t + (item.quantity \|\| 1), 0)`; the two lemmas below relate it to the units and rows of the cart. |
| App.BadgeCountIsQuantityTotal | public/app.js:17 | When every row holds at least one unit, the badge equals the number of units in the cart. |
| App.BadgeCountCoversRows | public/app.js:17 | Without negative quantities the badge is at least the number of rows, because a zero quantity counts as one. |
| App.ImageUrl | public/app.js:346-364 | The result is always usable: `/images/` and web addresses are kept, a relative `images/` path gets a leading `/`, and anything else becomes the placeholder. |
| App.ImageUrlIdempotent | public/app.js:346-364 | Resolving an already resolved image changes nothing. |
| App.FirstMentioned | public/app.js:332-336 | The position found is the first brand the name mentions, ignoring case; none is found iff the name mentions no brand. |
| App.BrandOf | public/app.js:330-338 | The brand is `Other` iff the name mentions none of the five brands; otherwise it is the first listed brand it mentions. |
| App.GetProductBrand | public/app.js:330-338 | The scan with early return yields exactly `BrandOf(name)`, which is `Other` or a listed brand. |
| App.Keeps | public/app.js:261-300 | The predicate of each `filter` call: exact category, price within the range inclusive, some wanted size offered, the detected brand among those chosen, the lower-cased query in name, description or category, and stock above 0. |
| App.FilterStage | public/app.js:261-300 | One `filter` call: a product is kept iff it is in the input and the stage accepts it. |
| App.FilterStageIsSubsequence | public/app.js:261-300 | One `filter` call keeps the input order. |
| App.StageIf | public/app.js:260-301 | A filter that is not set lets every product through; a set one keeps exactly those it accepts. |
| App.Selected | public/app.js:256-301 | The six filter stages applied in the code's order: category, price range, sizes, brand, search text and stock; `App.SelectedExactly` states what it keeps. |
| App.Passes | public/app.js:260-301 | The conjunction of every active filter's predicate: a filter that is switched off (category `all`, an empty size or brand list, an empty query, no in-stock box) accepts everything; the price range always applies. |
| App.SelectedExactly | public/app.js:256-301 | The filtered list holds exactly the catalogue products that pass every active filter, in catalogue order. |
| App.ParseSortKey | public/app.js:314-326 | Any key other than the four named ones sorts as `newest`. |
| App.LexLeq | public/app.js:320 | The order of the `name` sort: lexicographic on Unicode scalar values, standing in for `localeCompare`, whose locale rules are not modelled; `App.LexTotal` and `App.LexTransitive` state its laws. |
| App.LexTotal | public/app.js:320 | The name order compares any two names. |
| App.LexTransitive | public/app.js:320 | The name order is transitive. |
| App.Before | public/app.js:315-325 | The comparator each key selects: price ascending, price descending, name, rating descending, and id descending for `newest` and unknown keys. |
| App.BeforeTotal | public/app.js:315-325 | Every comparator orders any two products one way or the other. |
| App.BeforeTransitive | public/app.js:315-325 | Every comparator is transitive. |
| App.ConsSorted | public/app.js:311-327 | A product that may precede every element of a sorted list can be put in front of it. |
| App.InsertAtHead | public/app.js:311-327 | A product that may precede a sorted list's head may precede the whole list. |
| App.InsertBehindHead | public/app.js:311-327 | When a product goes behind the head, the head still precedes the sorted tail. |
| App.Insert | public/app.js:311-327 | Inserting into a sorted list gives a sorted list with the same elements plus the new one. |
| App.SortProducts | public/app.js:311-327 | The result is sorted under the selected comparator and is a permutation of the input. |
| App.SortOrders | public/app.js:315-325 | Neighbours are ordered as each key promises: price ascending or descending, rating descending, and id descending for `newest` and unknown keys. |
| App.FilterAndSort | public/app.js:256-306 | The filtered list, then sorted by the selected key; `App.FilterAndSortSpec` states its contents and order. |
| App.FilterAndSortSpec | public/app.js:256-306 | The products on show are exactly the passing catalogue products, each as often as the filtered list holds it, sorted by the chosen key. |
| App.CappedAdd | public/app.js:369-372 | A product out of stock leaves the cart as it was. |
| App.CappedAddRows | public/app.js:367-399 | Out of stock, or with the matching row already at the stock, the cart is unchanged; below it only that row gains one unit; without a matching row a new row of the whole product, the resolved size and quantity 1 is appended at the end. |
| App.CappedAddKeepsUnique | public/app.js:384-399 | The capped add keeps every (id, size) key on one row. |
| App.CappedAddKeepsWithinStock | public/app.js:388-395 | If no row of the product held more than its stock before, none does after. |
| App.CappedAddQuantities | public/app.js:367-399 | A key gains one unit exactly when the product is in stock and the key holds fewer units than the stock; the total follows, other keys keep their units, and without a gain the cart is unchanged. |
| App.AddToCart | public/app.js:367-405 | The stored cart becomes the capped add of the old one; the outcome is out-of-stock iff stock ≤ 0, and added iff the cart changed. |
| App.FindProduct | public/app.js:574 | A found product is the first in the list with the requested id, as `find` returns; none is found iff no product has it, and a NaN id finds nothing. |
| App.WishlistIndex | public/app.js:578 | The index found is the first entry holding the id, as `findIndex` returns; none is found iff no entry has it. |
| App.Toggled | public/app.js:576 | An id that is not on the current page leaves the wishlist as it was. |
| App.SpliceMembers | public/app.js:582 | Splicing out entry i keeps exactly the other entries' ids. |
| App.ToggleKeepsOthers | public/app.js:578-588 | A toggle leaves the membership of every other id as it was. |
| App.ToggleFlips | public/app.js:578-588 | For a product on the current page, a toggle flips whether the wishlist holds it. |
| App.ToggleKeepsUnique | public/app.js:578-588 | A toggle never puts an id in the wishlist twice. |
| App.ToggleTwice | public/app.js:572-592 | Two toggles restore which ids are listed; after an addition they restore the list itself. |
| App.Catalog.constructor | public/app.js:1-12 | The page starts with no products and the initial filters (all categories, price 0 to 10000, newest first). |
| App.Catalog.Load | public/app.js:192-204 | The loaded list becomes the catalogue, and the products on show are its filtered, sorted form. |
| App.Catalog.ApplyFilters | public/app.js:256-308 | The products on show become the filtered, sorted catalogue: exactly its products that pass the filters. |
| App.Catalog.ToggleWishlist | public/app.js:572-592 | The stored wishlist becomes the toggled one and nothing else changes. |
| ProductList.UncappedAdd | public/components/product_list.js:13-34 | The add without a stock check: bump the row of the same key, or append a new row; the three lemmas below state its effect. |
| ProductList.UncappedAddRows | public/components/product_list.js:13-34 | With a row of the same key only that row gains a unit; otherwise one row of quantity 1 with all product fields is appended at the end. |
| ProductList.UncappedAddQuantities | public/components/product_list.js:24-34 | Every call adds exactly one unit to the total and to the resolved key, leaves other keys alone, and grows the cart by at most one row. |
| ProductList.UncappedAddKeepsUnique | public/components/product_list.js:24-34 | Every call keeps each key on one row. |
| ProductList.AddToCart | public/components/product_list.js:13-40 | The stored cart becomes the uncapped add of the old one. |
| ProductList.ClickedSize | public/components/product_list.js:160-164 | A product with sizes passes the selector's value, or its first size without a selector; any other product passes no size. |
| ProductList.ClickedSizeLands | public/components/product_list.js:160-166 | When the selector offers only the product's sizes, a click adds a listed size, or `Standard` for a product without sizes. |
| CartPage.CartImageUrl | public/components/cart.js:35-42 | Any non-empty image is kept; the empty one becomes the red placeholder. The result is never empty. |
| CartPage.ClampQuantity | public/components/cart.js:195-203 | With stock ≥ 1 the quantity lies in [1, stock]: NaN or below 1 gives 1, in range is kept, above stock gives stock. With stock below 1 the result is the stock. |
| CartPage.SetQuantity | public/components/cart.js:206-211 | Length, order, products and sizes are kept; exactly the rows of the key get the new quantity. |
| CartPage.SetQuantityKeepsUnique | public/components/cart.js:206-211 | Setting a quantity keeps each key on one row. |
| CartPage.SetQuantityQuantities | public/components/cart.js:206-211 | Other keys keep their units, and the total moves only by the change at the key. |
| CartPage.SetQuantityAtKey | public/components/cart.js:206-211 | With unique keys, a present key ends up holding exactly the new quantity. |
| CartPage.UpdateQuantity | public/components/cart.js:183-216 | A row is found iff the key is present; without one the cart is unchanged; otherwise every row of the key gets the quantity clamped by the first matching row's stock. |
| CartPage.Remove | public/components/cart.js:227 | A row is kept iff it was in the cart and does not have the key. |
| CartPage.RemoveIsSubsequence | public/components/cart.js:227 | The rows that stay keep their order. |
| CartPage.RemoveAbsent | public/components/cart.js:227 | Removing an absent key leaves the cart as it was. |
| CartPage.RemoveIdempotent | public/components/cart.js:227 | Removing twice is removing once. |
| CartPage.RemoveKeepsUnique | public/components/cart.js:227 | Removal keeps each key on one row. |
| CartPage.RemoveQuantities | public/components/cart.js:227 | The key is gone, other keys keep their units, and the total drops by the key's units. |
| CartPage.RemoveItem | public/components/cart.js:223-233 | The stored cart loses exactly the rows of the key. |
| CartPage.Subtotal | public/components/cart.js:254 | Σ price × quantity over the cart's rows; `CartPage.SubtotalAppend` and `CartPage.SubtotalNonNegative` state its laws. |
| CartPage.SubtotalAppend | public/components/cart.js:254 | Adding a row adds its price times quantity to the subtotal. |
| CartPage.SubtotalNonNegative | public/components/cart.js:254 | Without negative prices or quantities the subtotal is not negative. |
| CartPage.TotalsOf | public/components/cart.js:254-258 | The fee is 0 iff the subtotal is at least 3000, and 110 otherwise; the total is the subtotal plus the fee. |
| CartPage.ShippingFeeNeverRises | public/components/cart.js:255-257 | Adding a row of non-negative value never raises the fee. |
| CartPage.TotalsExamples | public/components/cart.js:254-258 | One jersey at 1299 costs 1299 + 110 = 1409; three cost 3897 and ship free. |
| Checkout.CaptureShipping | public/components/cart.js:492-502 | The record keeps the trimmed names, phone and address, and its city, postcode and country are Dhaka, 1000 and Bangladesh. |
| Checkout.Items | public/components/cart.js:636-643 | The items match the cart row by row, in order: id, name, size, quantity, price and category of each row. |
| Checkout.ItemsSubtotalIsSubtotal | public/components/cart.js:636-645 | The items add up to the cart's subtotal. |
| Checkout.CustomerFor | public/components/cart.js:623-633 | A signed-in user's identity is copied; a guest gets the shipping names, an id that starts with `guest-` and parses to the clock, and a `guest-<clock>@ir7.com` address. |
| Checkout.BuildOrder | public/components/cart.js:609-649 | The payload balances (subtotal + fee = total), carries the cart's subtotal, the carried total, the items, the customer, the shipping fields, the payment method and status `pending`. |
| Checkout.OrderMatchesSummary | public/components/cart.js:609-610 | For the cart whose summary opened the dialog, the order's fee is the summary's threshold fee and its items add up to its subtotal. |
| Checkout.PhoneOk | public/components/cart.js:477-478 | `/^\d{10,15}$/`: ten to fifteen ASCII digits and nothing else. |
| Checkout.CheckoutFlow.constructor | public/components/cart.js:428-430 | No shipping record, cash on delivery, a total of 0, step 1, and the button enabled. |
| Checkout.CheckoutFlow.Open | public/components/cart.js:437-531 | Opening the dialog records the total and shows step 1. |
| Checkout.CheckoutFlow.ContinueToPayment | public/components/cart.js:472-504 | Step 1 advances iff the trimmed phone is 10 to 15 digits and the rest of the form is valid, and only then keeps the shipping record. |
| Checkout.CheckoutFlow.BackToShipping | public/components/cart.js:507 | Step 2's back button shows step 1. |
| Checkout.CheckoutFlow.ContinueToReview | public/components/cart.js:509-520 | Step 2 advances iff a payment option is checked, and only then records it. |
| Checkout.CheckoutFlow.BackToPayment | public/components/cart.js:523 | Step 3's back button shows step 2. |
| Checkout.CheckoutFlow.PlaceOrder | public/components/cart.js:600-682 | The submitted order is the payload of the stored cart. Acceptance removes the cart, shows confirmation and keeps the button disabled. Failure leaves the cart and the step as they were and enables the button again. |
| Auth.Message | public/components/auth.js:9-128 | The text of each thrown `Error`, one per failure: missing fields, a taken address, an invalid address, a short password, bad credentials, no session and an unknown user. |
| Auth.ValidEmail | public/components/auth.js:19-20 | `/^[^\s@]+@[^\s@]+\.[^\s@]+$/`: no white space, exactly one `@` with something before it, and a `.` after the `@` with something on both sides of it. |
| Auth.EmailInUse | public/components/auth.js:13 | Some stored user's address equals the given one after lower-casing both. |
| Auth.LowerKeepsValidEmail | public/components/auth.js:19-20 | Lower-casing keeps a valid address valid. |
| Auth.AdminEmailIsOne | public/components/auth.js:30-31 | The administrator list has one address, so membership is equality with `admin@ir7.com`. |
| Auth.AllFieldsGiven | public/components/auth.js:8-10 | Every one of first name, last name, address, password and phone is non-empty (truthy). |
| Auth.SignUpResult | public/components/auth.js:8-43 | Missing fields fail first and a taken address second. Sign-up succeeds iff all fields are given, the address is free ignoring case, the address is valid and the password is at least 6 UTF-16 code units long. Every failure is one of the four sign-up errors. |
| Auth.NewUser | public/components/auth.js:34-43 | The record sign-up stores; `Auth.SignUpStoresNormalized` and `Auth.SignUpAdminFlag` state its fields. |
| Auth.NewUserNormalized | public/components/auth.js:38 | For a valid address, the stored address is its lower-case form and is itself valid. |
| Auth.SignUpStoresNormalized | public/components/auth.js:34-43 | The new user has the lower-cased address, which is valid, the password as typed, the clock's digits as id, the creation time and no login time. |
| Auth.SignUpAdminFlag | public/components/auth.js:30-41 | A new user is an administrator iff the lower-cased address typed is `admin@ir7.com`. |
| Auth.EmailInUseIgnoresCase | public/components/auth.js:13 | The duplicate check cannot tell apart two addresses with the same lower-case form. |
| Auth.AppendFreshKeepsDistinct | public/components/auth.js:13-45 | Appending a user whose address is free keeps all addresses distinct, ignoring case. |
| Auth.AppendedInUse | public/components/auth.js:13 | After a user is appended, that user's address is taken. |
| Auth.StoredEmailSameCase | public/components/auth.js:13-38 | The stored address has the same lower-case form as the one typed, and that address was free. |
| Auth.SignUpKeepsEmailsDistinct | public/components/auth.js:13-45 | Sign-up never admits a second account for an address, ignoring case. |
| Auth.SignUpTwiceRefused | public/components/auth.js:13-16 | Signing up again with the same address, in any letter case, fails as taken. |
| Auth.SignUp | public/components/auth.js:3-55 | The result is the sign-up outcome. On success exactly one user is appended and becomes the session; on failure neither key changes. |
| Auth.Matches | public/components/auth.js:60-63 | The `find` test of sign-in: the addresses are equal after lower-casing both, and the passwords are equal exactly. |
| Auth.FindUser | public/components/auth.js:60-63 | The user found is the first whose address matches ignoring case and whose password matches exactly; none is found iff there is no such user. |
| Auth.SignInResult | public/components/auth.js:57-82 | Sign-in succeeds iff some user matches. It returns the first matching user, as `find` does, with the admin flag recomputed and the login time; otherwise it fails with bad credentials. |
| Auth.SignInAppended | public/components/auth.js:60-78 | When no earlier user has the address, an appended user with matching credentials is the one signed in. |
| Auth.SessionOf | public/components/auth.js:70-78 | The stored user with `isAdmin` recomputed from the address and the login time set; `Auth.SessionOfNewUser` states what it gives for a new user. |
| Auth.SessionOfNewUser | public/components/auth.js:70-78 | The session made from a new user differs from it only in its login time. |
| Auth.SignUpThenSignIn | public/components/auth.js:34-80 | Whoever has just signed up can sign in with the address and password typed, and gets their own record back with the login time. |
| Auth.SignIn | public/components/auth.js:57-87 | Only the session is written: on success it becomes the signed-in user, and on failure it is left as it was. |
| Auth.IsAuthenticated | public/components/auth.js:106-108 | True iff a session is stored. |
| Auth.IsAdmin | public/components/auth.js:111-114 | True iff a session is stored and its `isAdmin` flag is set. |
| Auth.SignOut | public/components/auth.js:89-95 | The session is cleared, so the store is neither authenticated nor admin. |
| Auth.Merge | public/components/auth.js:132 | A patch of profile fields never changes the id, the admin flag, the creation time or the login time. |
| Auth.MergeLaws | public/components/auth.js:132 | An empty patch changes nothing, and applying a patch twice equals applying it once. |
| Auth.UserIndex | public/components/auth.js:125 | The index found is the first user with the id; none is found iff no user has it. |
| Auth.UpdateProfile | public/components/auth.js:117-141 | Without a session the update fails with `No user logged in`, and for an unknown id with `User not found`; both leave the store as it was. With a session whose id is stored the update always succeeds: only the matching record is replaced, by its merge with the patch, and it becomes the session. |

## Left out

- Rendering, toasts, modals, the PDF receipt, `fetch` and `setTimeout` are left out: they are DOM, library or network code. The server's reply and the client's request outcome are parameters.
- `setupCheckoutSteps` installs button handlers. The model has one method per button. Each method requires the step on which its button is visible, so a button that is not shown cannot be pressed. `renderConfirmation` is modelled as the step becoming Confirmation.
- Server table records drop the free-text `description`, `details` and `image` fields. No operation of the server reads them.
- Client products carry `stock` and `rating` as integers (`rating` in tenths). The server's records have neither field, and when the API answers the pages load exactly those records, so on that path both are `undefined`. The model does not follow that path: there `App.AddToCart` is never capped (`undefined <= 0` and `q >= undefined` are false), `App.Passes` with the in-stock filter keeps nothing (`undefined > 0` is false), `CartPage.ClampQuantity` never applies the stock bound, and `App.SortProducts` by rating compares NaN and keeps the input order. The model states these operations for products that carry both fields, as the fallback sample products do.
- Prices are integers. Floating-point sums and `formatPrice`'s locale formatting are left out.
- `toLowerCase` is modelled on ASCII letters only. There is no Unicode case mapping. Dafny strings are sequences of Unicode characters, not UTF-16 code units; the one length the code tests (the password's) is counted in code units by `Base.Utf16Length`.
- App.LexLeq: the `name` sort compares character by character on Unicode scalar values instead of `localeCompare`, which depends on the locale.
- App.SortProducts: stability of the sort (equal keys keep their input order) is not stated as a lemma. The model's insertion sort is stable by construction.
- Model.ResolveSize: requires the product to list a size whenever `sizes[0]` is read. The code would read `undefined` there.
- ProductList.ClickedSize: requires the same case away: a product with sizes, no size listed and no selector on the card, where the code passes `sizes[0]`, that is `undefined`.
- App.AddToCart: requires a resolvable size whenever the product is in stock. This is the same requirement as `Model.ResolveSize`.
- Product ids that do not parse (`parseInt` giving NaN) are modelled as `None` in the wishlist and server lookups. The cart operations take an integer id.
- CartPage.UpdateQuantity: takes the quantity after `parseInt`. `None` stands for NaN. The string input is not modelled.
- Checkout.CheckoutFlow.PlaceOrder: runs as one step, although `placeOrder` awaits `fetch` before acting on the reply. Step changes made by the dialog's other buttons while the request is pending are not modelled.
- Auth.UpdateProfile: the patch covers the five profile fields. A patch carrying other keys (id, isAdmin) is not modelled.
- Auth.SignUpStoresNormalized: does not state the admin flag. `Auth.SignUpAdminFlag` states it in its own lemma.
- `getCurrentUser` is the `currentUser` field itself. A malformed stored JSON value is not modelled.
- `public/components/admin.js` and `public/components/product_detail.js` are not part of this model.
- Password hashing: the code compares plain text, and so does the model.
