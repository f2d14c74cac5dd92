# MBC-App storefront state, modelled in Dafny

MBC-App is a React Native storefront for a flour mill. It has a catalogue, a
cart with coupons, checkout through an address book and a payment step, an
order history, reviews, a wishlist, and OTP-based sign-up and log-in. Most of
the app is screens, navigation and network calls. This project models the
small layer of client-side state logic underneath them:

- what each handler does to a screen's state;
- which request it sends, if any;
- the prices and totals the screens compute.

Each React screen whose handlers update state becomes a Dafny `class`. Its
`useState` fields become fields, and its handlers become methods that name
the fields they change. The pure expressions become functions, and the
properties the screens rely on are proved as lemmas.

- A network call is not made. The handler takes the server's reply as a
  `Common.Reply` argument: success with a payload, a failure flag with an
  optional message, or an exception. It returns the request body it would
  have sent, or `None` when a guard stops it.
- Money is whole rupees (`int`).
- `Math.round(x * 0.1)` and `Math.round(x * 0.05)` are half-up rounding of
  the exact fraction (`Money.Round`).
- Timestamps are integers.
- A `setTimeout` callback runs at once, right after the handler.

Modules, one per screen plus shared vocabulary:

| module | source file |
|---|---|
| `Common`, `Text`, `Money`, `Store` | shared: optional values, replies, JavaScript string primitives, rounding, the backend records |
| `Cart` | src/components/navbar/Cart.jsx |
| `ProductDetails` | src/components/product/productDetails.jsx |
| `ProductList` | src/components/product/product.jsx |
| `Payment` | src/components/profileDetails/Payment.jsx |
| `Address` | src/components/profileDetails/Address.jsx |
| `OrderDetails` | src/components/profileDetails/OrderDetails.jsx |
| `Orders` | src/components/profileDetails/Orders.jsx |
| `Wishlist` | src/components/profileDetails/Wishlist.jsx |
| `Review` | src/components/product/review.jsx |
| `Signup` | src/components/Login/signup.jsx |
| `Login` | src/components/Login/login.jsx |
| `Contact` | src/components/profileDetails/Contectus.jsx |
| `Support` | src/components/profileDetails/Support.jsx |

Notable behaviour the model keeps as written:

- **Address book, edit mode.** Saving an edited address does not change the
  list. The edit branch compares each address id with `selected.id`, but
  `selected` holds the bare numeric id (it is set from `addr.id`), and a
  number has no `id` property. `Address.EditedAddresses` is the `map` as
  written. `Address.EditAgainstUndefinedIsNoOp` proves that comparing
  against `undefined` returns the list unchanged, and
  `Address.AddressBook.HandleSave` states the result.
- **Orders screen without a token.** No fetch runs and `loading` is never
  cleared.
- **Two different `truncate`s.** The cart keeps `maxLength` characters and
  the order detail screen keeps `n - 1`.
- **The 10% coupon.** Its discount is computed from the subtotal when the
  button is pressed. Later quantity changes do not update it.

## Model

| member | source | states |
|---|---|---|
| Common.OrInt | src/components/profileDetails/Orders.jsx:36 | `a \|\| b` on a number: `a` when it is present and non-zero, else `b` |
| Common.RemoveWhere | src/components/profileDetails/Wishlist.jsx:34 | the `filter(x => key(x) !== k)` result: no survivor has key `k`; every element with another key survives; nothing is added; nothing matching means no change |
| Common.RemoveWhereAppend | src/components/profileDetails/Wishlist.jsx:34 | filtering distributes over concatenation, so survivors keep their relative order |
| Common.RemoveWhereCommutes | src/components/navbar/Cart.jsx:67 | removing two ids gives the same list in either order |
| Text.TrimStart | src/components/navbar/Cart.jsx:74 | the result is a suffix of the input; only white space was removed; it does not start with white space |
| Text.TrimEnd | src/components/navbar/Cart.jsx:74 | the mirror image of `TrimStart` |
| Text.Trim | src/components/navbar/Cart.jsx:74 | `trim()` is the slice of the input left after an all-white-space start and end are cut off, and it has no white space at either end |
| Text.TrimEmptyIffBlank | src/components/Login/signup.jsx:38 | `!s.trim()` holds exactly when `s` is all white space, which is the test the sign-up guards use |
| Text.ToUpper | src/components/navbar/Cart.jsx:74 | `toUpperCase()` maps every ASCII lower-case letter to upper case and keeps every other character, position by position |
| Text.LastChar | src/components/Login/signup.jsx:78 | `slice(-1)` is the last character, or "" for "" |
| Text.LastN | src/components/profileDetails/OrderDetails.jsx:143 | `slice(-n)` is the last `n` characters, or the whole text when it is shorter or when `n` is 0 (`-0` is `0`) |
| Text.IntToString | src/components/navbar/Cart.jsx:77 | the decimal rendering inside a template literal is digits whose value is the number, with a leading minus for a negative number |
| Money.Round | src/components/navbar/Cart.jsx:77 | `Math.round(n/d)` is the integer nearest n/d, with halves rounded up |
| Money.TenPercent | src/components/navbar/Cart.jsx:77 | `Math.round(x * 0.1)` is nearest to x/10 and lies in 0..x for x ≥ 0 |
| Money.FivePercent | src/components/profileDetails/Payment.jsx:39 | `Math.round(x * 0.05)` is nearest to x/20 and lies in 0..x for x ≥ 0 |
| Cart.Ids | src/components/navbar/Cart.jsx:55 | the ids selected on load: one per line, in order |
| Cart.Toggled | src/components/navbar/Cart.jsx:64 | an id present in the selection is removed and nothing else is; an absent id is appended at the end |
| Cart.ToggleTwice | src/components/navbar/Cart.jsx:64 | toggling the same id twice restores its membership; from absent it restores the list exactly |
| Cart.SelectedItems | src/components/navbar/Cart.jsx:68 | the filter keeps exactly the lines whose id is selected, and nothing with no selection |
| Cart.SelectedItemsAppend | src/components/navbar/Cart.jsx:68 | the filter distributes over joined carts, so the selected lines keep cart order |
| Cart.SelectAllKeepsCart | src/components/navbar/Cart.jsx:53-56 | with every id selected, as after loading, the filter keeps the whole cart in order |
| Cart.LoadedSelectionWithin | src/components/navbar/Cart.jsx:53-56 | the selection made on load names only lines of the loaded cart |
| Cart.ToggleKeepsSelectionWithin | src/components/navbar/Cart.jsx:111-113 | toggling the id of a rendered line keeps every selected id naming a cart line |
| Cart.SteppersKeepSelectionWithin | src/components/navbar/Cart.jsx:65-66 | the quantity steppers keep every selected id naming a cart line |
| Cart.RemoveKeepsSelectionWithin | src/components/navbar/Cart.jsx:67 | removing a line from both lists keeps every selected id naming a cart line |
| Cart.Incremented | src/components/navbar/Cart.jsx:65 | every line with the id gains exactly 1; ids, products, the order and the length are unchanged |
| Cart.Decremented | src/components/navbar/Cart.jsx:66 | a matching line above 1 loses 1; everything else is unchanged; quantities stay at least 1 |
| Cart.DecreaseUndoesIncrease | src/components/navbar/Cart.jsx:65-66 | minus right after plus restores the cart |
| Cart.DecreaseAtOneIsNoOp | src/components/navbar/Cart.jsx:66 | at quantity 1 the minus button changes nothing |
| Cart.LineTotal | src/components/navbar/Cart.jsx:68 | the left-fold `reduce` of price × quantity is non-negative when prices and quantities are |
| Cart.LineTotalAppend | src/components/navbar/Cart.jsx:68 | the sum over a concatenation is the sum of the sums |
| Cart.SubtotalOfEmptySelection | src/components/navbar/Cart.jsx:68 | the subtotal with nothing selected is 0 |
| Cart.SubtotalCons | src/components/navbar/Cart.jsx:68 | the first line counts towards the subtotal exactly when it is selected |
| Cart.IncreaseQtySubtotal | src/components/navbar/Cart.jsx:65-68 | one more unit of a selected line raises the subtotal by its price; an unselected line leaves it alone |
| Cart.RemoveItemSubtotal | src/components/navbar/Cart.jsx:67-68 | removing a line from both lists takes exactly its line total off the subtotal when it was selected |
| Cart.RemoveSelectionKeepsOthers | src/components/navbar/Cart.jsx:67-68 | dropping an id from the selection does not change the price of the other lines |
| Cart.GrandTotal | src/components/navbar/Cart.jsx:69-70 | the total is subtotal + 0 − discount floored at 0: never negative, and either 0 or the raw value |
| Cart.NormalizeCode | src/components/navbar/Cart.jsx:74 | the trimmed, upper-cased code is never longer than what was typed |
| Cart.ResolveCoupon | src/components/navbar/Cart.jsx:72-79 | empty code gives 0 and "Please enter"; SAVE50 gives 50; DISCOUNT10 gives min(round(subtotal/10), 100) and its message; anything else gives 0 and the ❌ message |
| Cart.CouponDiscountBounds | src/components/navbar/Cart.jsx:76-78 | every discount is within 0..100, and the 10% one never exceeds a non-negative subtotal |
| Cart.CouponErrorIffUnknown | src/components/navbar/Cart.jsx:146 | the message is drawn red (starts with ❌) exactly for a non-empty unknown code |
| Cart.NormalizeKeepsCanonicalCode | src/components/navbar/Cart.jsx:74 | a code with no outer white space and no lower-case letters is used as typed |
| Cart.KnownCodesAreCanonical | src/components/navbar/Cart.jsx:74-77 | "DISCOUNT10" and "SAVE50" typed as printed are used unchanged |
| Cart.Discount10Example | src/components/navbar/Cart.jsx:77 | any entry that normalises to DISCOUNT10 takes 62 off a 620 subtotal, leaving 558 |
| Cart.Save50Example | src/components/navbar/Cart.jsx:69-76 | SAVE50 on a 30 subtotal floors the total at 0 |
| Cart.Truncate | src/components/navbar/Cart.jsx:30 | text over the limit becomes its first `maxLength` characters plus "..."; other text is kept |
| Cart.TruncateShape | src/components/navbar/Cart.jsx:122 | a truncated name is at most 3 characters over the limit and begins with the name |
| Cart.CartScreen.constructor | src/components/navbar/Cart.jsx:34-41 | empty lists, empty coupon state, spinner on |
| Cart.CartScreen.Total | src/components/navbar/Cart.jsx:70 | the displayed total is never negative |
| Cart.CartScreen.FetchCart | src/components/navbar/Cart.jsx:44-62 | no token: no change; success: the cart is replaced and every line is selected; otherwise the lists are kept; the spinner is off in every case; the selection names only cart lines afterwards whenever it did before, and always after a successful load |
| Cart.CartScreen.ToggleSelect | src/components/navbar/Cart.jsx:64 | the selection becomes `Toggled`; toggling the id of a line keeps the selection within the cart |
| Cart.CartScreen.IncreaseQty | src/components/navbar/Cart.jsx:65 | the cart becomes `Incremented`; the stored discount is untouched; the selection stays within the cart |
| Cart.CartScreen.DecreaseQty | src/components/navbar/Cart.jsx:66 | the cart becomes `Decremented`; positive quantities stay positive; the selection stays within the cart |
| Cart.CartScreen.RemoveItem | src/components/navbar/Cart.jsx:67 | the id leaves both the cart and the selection, and the rest keep their order; the selection stays within the cart |
| Cart.CartScreen.SetCouponCode | src/components/navbar/Cart.jsx:141 | the coupon box holds the typed text |
| Cart.CartScreen.ApplyCoupon | src/components/navbar/Cart.jsx:72-79 | discount and message are set together from `ResolveCoupon` at the current subtotal |
| Cart.CartScreen.Checkout | src/components/navbar/Cart.jsx:163 | disabled with nothing selected; otherwise it passes exactly the selected lines in cart order and the current non-negative total; with the selection within the cart, checking out implies a non-empty cart, the only case in which the button is rendered (line 107) |
| ProductDetails.SellingPrice | src/components/product/productDetails.jsx:38 | `sellingPrice ?? 0`: only a missing price falls back to 0 |
| ProductDetails.OriginalPrice | src/components/product/productDetails.jsx:39 | `originalPrice`, else `mrp`, else 0; only missing fields fall through |
| ProductDetails.DiscountPercent | src/components/product/productDetails.jsx:40-43 | 0 when the original is 0 or not above the selling price; otherwise the integer nearest 100·(original−selling)/original |
| ProductDetails.DiscountPercentRange | src/components/product/productDetails.jsx:42 | for 0 ≤ selling < original the badge lies in 0..100 |
| ProductDetails.DiscountPercentEnds | src/components/product/productDetails.jsx:40-42 | no markdown shows 0; selling for nothing shows 100 |
| ProductDetails.Increased | src/components/product/productDetails.jsx:35 | `increase` raises the counter by exactly one |
| ProductDetails.Decreased | src/components/product/productDetails.jsx:36 | `decrease` never goes below 1: one less above 1, else 1 |
| ProductDetails.DecreaseUndoesIncrease | src/components/product/productDetails.jsx:35-36 | `decrease` after `increase` restores any counter value ≥ 1 |
| ProductDetails.BuyNow | src/components/product/productDetails.jsx:76-78 | a single line (product, quantity); the total is selling price × quantity, non-negative for non-negative inputs |
| ProductDetails.ProductDetailsScreen.constructor | src/components/product/productDetails.jsx:30-32 | quantity 1, not wishlisted, not adding |
| ProductDetails.ProductDetailsScreen.Increase | src/components/product/productDetails.jsx:35 | the counter becomes `Increased` |
| ProductDetails.ProductDetailsScreen.Decrease | src/components/product/productDetails.jsx:36 | the counter becomes `Decreased`, at least 1 |
| ProductDetails.ProductDetailsScreen.ToggleWishlist | src/components/product/productDetails.jsx:45 | the heart flips, so two taps restore it |
| ProductDetails.ProductDetailsScreen.AddToCart | src/components/product/productDetails.jsx:47-74 | no token: no request and no change; otherwise product id and quantity are sent and `adding` ends false |
| ProductDetails.ProductDetailsScreen.HandleBuyNow | src/components/product/productDetails.jsx:76-78 | passes `BuyNow` of the product at the current quantity |
| ProductList.QuantityOf | src/components/product/product.jsx:87 | `quantities[id] \|\| 1`: the entry, or 1 when it is missing or 0 |
| ProductList.Increased | src/components/product/product.jsx:59-64 | the entry becomes its effective quantity plus 1; every other entry is unchanged (the stepper buttons are commented out at lines 121-129, so only the displayed default 1 is reachable in the app) |
| ProductList.Decreased | src/components/product/product.jsx:66-71 | one less above 1, else 1; never below 1; every other entry is unchanged (buttons commented out at lines 121-129) |
| ProductList.IncreaseFromNothing | src/components/product/product.jsx:59-63 | a card with no entry steps up to 2 |
| ProductList.SteppersKeepPositive | src/components/product/product.jsx:59-71 | both steppers keep every entry at least 1 |
| ProductList.DecreaseUndoesIncrease | src/components/product/product.jsx:59-71 | minus after plus restores the card's effective quantity |
| ProductList.ProductListScreen.constructor | src/components/product/product.jsx:28 | the quantity map starts empty |
| ProductList.ProductListScreen.IncreaseQuantity | src/components/product/product.jsx:59-64 | the map becomes `Increased`; the handler is defined but its button is commented out at lines 121-129 |
| ProductList.ProductListScreen.DecreaseQuantity | src/components/product/product.jsx:66-71 | the map becomes `Decreased`; the handler is defined but its button is commented out at lines 121-129 |
| ProductList.ProductListScreen.AddToCart | src/components/product/product.jsx:73-87 | no token: no request; otherwise the request carries the effective quantity, 1 for an untouched card |
| Payment.Tax | src/components/profileDetails/Payment.jsx:39 | the integer nearest 5% of the amount, within 0..amount for a non-negative amount |
| Payment.GrandTotal | src/components/profileDetails/Payment.jsx:126 | the shown total is the amount plus its tax |
| Payment.ItemsParam | src/components/profileDetails/Payment.jsx:23 | a missing parameter object or item list gives [] |
| Payment.AmountParam | src/components/profileDetails/Payment.jsx:23 | a missing parameter object or amount gives 0 |
| Payment.FirstImage | src/components/profileDetails/Payment.jsx:48 | `images?.[0]`: the first image, missing for no images |
| Payment.OrderLines | src/components/profileDetails/Payment.jsx:43-49 | one order line per selected line, same length and order, copying id, name, quantity, price and first image |
| Payment.OrderLinesAppend | src/components/profileDetails/Payment.jsx:43-49 | mapping a split selection gives the split order lines |
| Payment.FieldOr | src/components/profileDetails/Payment.jsx:51-54 | an address field, or its placeholder when missing or empty |
| Payment.ShippingFor | src/components/profileDetails/Payment.jsx:50-57 | each missing field takes its fixed default; country is India and isDefault is true |
| Payment.PaymentInfoFor | src/components/profileDetails/Payment.jsx:59-62 | COD is COD-PAYMENT / Pending, and every other method is ONLINE-PAYMENT / Paid |
| Payment.PlaceOrder | src/components/profileDetails/Payment.jsx:27-67 | the login check first, then the empty check; otherwise the full payload with totalPrice = itemsPrice + taxPrice and shipping 0 |
| Payment.ChargedIsShown | src/components/profileDetails/Payment.jsx:63-66 | the payload's totalPrice equals the grand total shown on the screen, and its lines match the selection one to one |
| Payment.RequestIffSignedInWithItems | src/components/profileDetails/Payment.jsx:29-37 | an order request is made exactly when a session exists and items were passed |
| Payment.PaymentScreen.constructor | src/components/profileDetails/Payment.jsx:23-25 | the parameters with their defaults; the method starts as COD |
| Payment.PaymentScreen.SelectPayment | src/components/profileDetails/Payment.jsx:102 | the tapped method becomes the selection |
| Payment.PaymentScreen.HandlePlaceOrder | src/components/profileDetails/Payment.jsx:27-67 | `PlaceOrder` on the screen's items, amount and method |
| Address.AddressForm.Set | src/components/profileDetails/Address.jsx:51 | exactly one form key takes the new value, and all others are unchanged |
| Address.FinalLabel | src/components/profileDetails/Address.jsx:54-57 | the custom label when "Other" is chosen and custom text exists; otherwise the chosen label |
| Address.Resolved | src/components/profileDetails/Address.jsx:59 | the saved form is the typed one with only the label resolved |
| Address.EditedAddresses | src/components/profileDetails/Address.jsx:66-69 | the edit `map`: matching entries take the form and keep their id; the length and other entries are unchanged |
| Address.EditAgainstUndefinedIsNoOp | src/components/profileDetails/Address.jsx:64-70 | comparing ids against `undefined` (what `selected.id` is) leaves the list unchanged |
| Address.FindSelected | src/components/profileDetails/Address.jsx:92 | an address exactly when some address carries the selected id; it is the first such address in the list, as `find` returns |
| Address.DeleteSelectedBlocksProceed | src/components/profileDetails/Address.jsx:86-92 | after deleting the selected address, proceeding is refused |
| Address.DeleteOtherKeepsSelection | src/components/profileDetails/Address.jsx:86-92 | deleting another address keeps the selected one reachable |
| Address.AddressBook.constructor | src/components/profileDetails/Address.jsx:18-49 | list mode; the seed address, selected; an empty form |
| Address.AddressBook.HandleChange | src/components/profileDetails/Address.jsx:51 | the form becomes `Set(key, value)` |
| Address.AddressBook.Select | src/components/profileDetails/Address.jsx:104 | the tapped address becomes the selection |
| Address.AddressBook.StartAdd | src/components/profileDetails/Address.jsx:147 | the form opens in add mode |
| Address.AddressBook.Back | src/components/profileDetails/Address.jsx:178 | the form's back arrow returns to the list view |
| Address.AddressBook.HandleSave | src/components/profileDetails/Address.jsx:53-78 | add mode appends exactly one address (resolved form, clock id) after the unchanged list; edit mode keeps the list; back to list mode with the banner hidden |
| Address.AddressBook.HandleEdit | src/components/profileDetails/Address.jsx:80-84 | the form copies the address with customLabel "", the address is selected, edit mode |
| Address.AddressBook.HandleDelete | src/components/profileDetails/Address.jsx:86-88 | every address with the id goes; the others keep their order; the selection is untouched |
| Address.AddressBook.ProceedToPayment | src/components/profileDetails/Address.jsx:157-162 | refused unless the selection names an address in the list, which is passed on |
| OrderDetails.ViewOf | src/components/profileDetails/OrderDetails.jsx:85-92 | a missing order or field gives "" and no items |
| OrderDetails.ItemAmount | src/components/profileDetails/OrderDetails.jsx:97 | (sellingPrice \|\| price \|\| 0) × (quantity \|\| 1) |
| OrderDetails.Total | src/components/profileDetails/OrderDetails.jsx:95-99 | the `reduce` is 0 for no items and non-negative for non-negative items |
| OrderDetails.TotalAppend | src/components/profileDetails/OrderDetails.jsx:95-99 | every item contributes its own amount once: the total of a concatenation is the sum |
| OrderDetails.ItemAmountFallbacks | src/components/profileDetails/OrderDetails.jsx:97 | an item with no prices counts 0, and one with no quantity counts once |
| OrderDetails.IndexOf | src/components/profileDetails/OrderDetails.jsx:102 | `indexOf`: the first position of the value, or −1 exactly when it is absent |
| OrderDetails.ActiveStep | src/components/profileDetails/OrderDetails.jsx:101-102 | the step naming the status, or −1 for any other status |
| OrderDetails.ProgressAtStep | src/components/profileDetails/OrderDetails.jsx:165-197 | at step k: steps 0..k are highlighted, and the checkmarks and active connectors are exactly those before k |
| OrderDetails.NoProgressForOtherStatus | src/components/profileDetails/OrderDetails.jsx:165-197 | any other status highlights nothing |
| OrderDetails.DoneImpliesReached | src/components/profileDetails/OrderDetails.jsx:171-192 | a checked step is highlighted; only the first two steps have connectors |
| OrderDetails.StatusColor | src/components/profileDetails/OrderDetails.jsx:104-111 | three statuses have fixed colours, and everything else is grey |
| OrderDetails.StatusColorsDistinct | src/components/profileDetails/OrderDetails.jsx:104-111 | the three tracked statuses have distinct colours, none of them grey |
| OrderDetails.Truncate | src/components/profileDetails/OrderDetails.jsx:113-114 | over `n` characters: the first n−1 plus "..."; otherwise unchanged; a missing name stays missing |
| OrderDetails.TruncateLength | src/components/profileDetails/OrderDetails.jsx:113-114 | a truncated name is n+2 characters long and begins with the name |
| OrderDetails.DisplayId | src/components/profileDetails/OrderDetails.jsx:143 | the last 8 characters of the id, or the whole id when it is shorter |
| Orders.SortKey | src/components/profileDetails/Orders.jsx:35-36 | `createdAt \|\| orderDate \|\| 0` |
| Orders.SortNewestFirst | src/components/profileDetails/Orders.jsx:34-38 | in place: afterwards the array is a permutation of the fetched orders and non-increasing by the key |
| Orders.SinkInto | src/components/profileDetails/Orders.jsx:34-38 | one insertion step extends the sorted prefix by one and keeps the contents |
| Orders.SortedAroundDone | src/components/profileDetails/Orders.jsx:34-38 | an insertion step that stops in order leaves the prefix sorted |
| Orders.ItemsTotal | src/components/profileDetails/Orders.jsx:81-84 | the `reduce` of (price \|\| 0) × (quantity \|\| 1) is 0 for no items |
| Orders.ItemsTotalAppend | src/components/profileDetails/Orders.jsx:81-84 | the total of a concatenation is the sum of the totals |
| Orders.CardTotal | src/components/profileDetails/Orders.jsx:79-84 | a truthy `totalAmount` is used; otherwise the item sum; with no item list the `reduce` throws (`None`) |
| Orders.ZeroTotalFallsBack | src/components/profileDetails/Orders.jsx:79-84 | a stored total of 0 is recomputed from the items |
| Orders.StatusStyle | src/components/profileDetails/Orders.jsx:55-66 | Delivered, Processing and Cancelled have fixed colours, and everything else gets the default |
| Orders.StatusStylesDistinct | src/components/profileDetails/Orders.jsx:55-66 | the three colours differ from each other, and exactly the other statuses get the default |
| Orders.Route | src/components/profileDetails/Orders.jsx:69-75 | Delivered goes to OrderDone, and everything else to OrderDetails |
| Orders.OrdersScreen.constructor | src/components/profileDetails/Orders.jsx:20-22 | no orders, spinner on, no error |
| Orders.OrdersScreen.FetchOrders | src/components/profileDetails/Orders.jsx:24-52 | no token: nothing changes; success stores a newest-first permutation of the reply; failures set their message; the spinner is off after any reply |
| Wishlist.RemoveTwiceOrAbsent | src/components/profileDetails/Wishlist.jsx:33-35 | removal is idempotent, and removing an absent id changes nothing |
| Wishlist.RemoveBothSeeds | src/components/profileDetails/Wishlist.jsx:16-35 | removing both seed products, in either order, empties the list |
| Wishlist.WishlistScreen.constructor | src/components/profileDetails/Wishlist.jsx:16-31 | the two seed products |
| Wishlist.WishlistScreen.HandleRemove | src/components/profileDetails/Wishlist.jsx:33-35 | every item with the id goes, and every other item stays |
| Wishlist.WishlistScreen.ShowsEmptyState | src/components/profileDetails/Wishlist.jsx:73 | the empty state is shown exactly when the list is empty |
| Review.SubmitCheck | src/components/product/review.jsx:44-52 | a missing comment or rating is refused first, then a missing session |
| Review.FilledCount | src/components/product/review.jsx:100 | at most k of the first k stars are filled |
| Review.FilledCountIsRating | src/components/product/review.jsx:100 | a rating r in 0..5 fills exactly r stars (clamped in general) |
| Review.FilledStarsArePrefix | src/components/product/review.jsx:145 | star k is filled iff rating ≥ k, so the filled stars form a prefix |
| Review.ReviewSection.constructor | src/components/product/review.jsx:12-16 | no reviews, spinner on, empty comment, rating 0, not submitting |
| Review.ReviewSection.FetchReviews | src/components/product/review.jsx:19-39 | success replaces the list (with [] for no data); otherwise it is kept; the spinner ends off |
| Review.ReviewSection.SetComment | src/components/product/review.jsx:138 | the comment box holds the typed text |
| Review.ReviewSection.SetRating | src/components/product/review.jsx:143 | a tapped star 1..5 becomes the rating |
| Review.ReviewSection.HandleAddReview | src/components/product/review.jsx:43-87 | refused: nothing sent or changed. Success appends the returned review at the end and resets the comment and rating. Failure keeps everything. `submitting` ends false |
| Signup.Join | src/components/Login/signup.jsx:100 | joining no boxes gives "" |
| Signup.Chars | src/components/Login/signup.jsx:55 | `split('')`: one single-character string per character |
| Signup.JoinChars | src/components/Login/signup.jsx:54-55 | split then join gives back the code |
| Signup.FilledSlots | src/components/Login/signup.jsx:100 | the count of filled boxes is at most the number of boxes |
| Signup.JoinLength | src/components/Login/signup.jsx:100-101 | with one character per box at most, the code's length is the number of filled boxes |
| Signup.FullCodeIffAllFilled | src/components/Login/signup.jsx:100-101 | the code has full length exactly when every box is filled |
| Signup.FocusAfter | src/components/Login/signup.jsx:80-84 | an entry moves focus forward except at the last box; a clear moves it back except at the first |
| Signup.OtpChanged | src/components/Login/signup.jsx:75-79 | text with a non-digit is ignored; otherwise only box `index` changes, to the last character typed; boxes keep at most one character |
| Signup.TypingEachDigitSpellsCode | src/components/Login/signup.jsx:75-79 | typing the four digits into the four boxes spells the code |
| Signup.VerifyCheck | src/components/Login/signup.jsx:100-104 | the code length (4) is checked first, then that no profile field is blank |
| Signup.OtpToVerify | src/components/Login/signup.jsx:100 | the autofilled code when one is given, else the joined boxes |
| Signup.AutofillCode | src/components/Login/signup.jsx:54 | at most the first four characters the server sent |
| Signup.VerifyRequestFor | src/components/Login/signup.jsx:106-126 | a request exactly when the checks pass, carrying the form's fields, a manual address in India marked as default, and a four-character code |
| Signup.SignupScreen.constructor | src/components/Login/signup.jsx:22-31 | empty fields, flags off, four empty boxes |
| Signup.SignupScreen.HandleOtpChange | src/components/Login/signup.jsx:75-86 | the boxes become `OtpChanged`; focus moves by `FocusAfter` for digit text only |
| Signup.SignupScreen.HandleVerifyOtp | src/components/Login/signup.jsx:99-142 | refused: nothing sent or changed; otherwise success stores the session and sets `isVerified`; the spinner ends off |
| Signup.SignupScreen.HandleAutoVerify | src/components/Login/signup.jsx:91-94 | only a code of exactly four characters goes on to verification |
| Signup.SignupScreen.HandleSendOtp | src/components/Login/signup.jsx:37-70 | blank number: nothing happens. Success opens the boxes; an echoed code fills them and auto-verifies when it has four characters. The spinner ends off |
| Login.StageAfterSend | src/components/Login/login.jsx:24-55 | only a success for a non-empty number moves to the OTP stage |
| Login.StagesAfter | src/components/Login/login.jsx:21 | no attempts leave the stage where it was |
| Login.OtpStageIsFinal | src/components/Login/login.jsx:44-53 | the OTP stage is never left, and one successful send reaches it |
| Login.LoginScreen.constructor | src/components/Login/login.jsx:19-22 | phone stage, empty fields, not loading |
| Login.LoginScreen.HandleSendOtp | src/components/Login/login.jsx:24-55 | empty number: no request and no change; otherwise the spinner is off after every outcome and the stage follows `StageAfterSend` |
| Login.LoginScreen.HandleVerifyOtp | src/components/Login/login.jsx:57-93 | empty code: no request; otherwise the spinner is off after every outcome and success stores the reply's session |
| Contact.SendCheck | src/components/profileDetails/Contectus.jsx:49-57 | an empty field is refused first, then a phone that is not exactly ten digits |
| Contact.AcceptedPhones | src/components/profileDetails/Contectus.jsx:54 | an accepted phone is ten ASCII digits; one with "+" or a space is refused |
| Contact.ContactScreen.constructor | src/components/profileDetails/Contectus.jsx:23-26 | empty fields, not loading |
| Contact.ContactScreen.HandleSend | src/components/profileDetails/Contectus.jsx:48-80 | refused: nothing sent or changed; the payload maps phone to `mobile`; success clears all three fields, failure keeps them; `loading` ends false |
| Support.Toggled | src/components/profileDetails/Support.jsx:43-45 | tapping the open question closes it, and any other question opens instead |
| Support.AtMostOneAnswer | src/components/profileDetails/Support.jsx:97 | at most one answer is visible |
| Support.ToggleTwice | src/components/profileDetails/Support.jsx:43-45 | two taps from closed return to closed; after a tap no other answer is visible |
| Support.FaqList.constructor | src/components/profileDetails/Support.jsx:41 | nothing is expanded |
| Support.FaqList.ToggleExpand | src/components/profileDetails/Support.jsx:83 | the expanded index becomes `Toggled`, and only the tapped question can be open |

## Left out

- Network calls, AsyncStorage, `Alert`, `Linking`, `Share` and navigation are not performed. A reply is an input, a request is an output, and an alert's text is not modelled.
- The session written to device storage by log-in and sign-up is the session stored in the screen; the storage write itself is not modelled.
- Animations, images, styling and the price-details collapse in the cart are not modelled; they are pure UI.
- Floating point is not modelled. Amounts are whole rupees, and `*0.1`, `*0.05` and the discount division are exact fractions rounded half up. NaN and non-numeric prices are not represented.
- `toFixed(2)` and date formatting (`toLocaleDateString`) are not modelled. Dates are integer timestamps, so `new Date(...)` parsing in the order sort is not modelled.
- Cart.Truncate: lengths and cuts count code points, while JavaScript's `length` and `slice` count UTF-16 code units. A character outside the Basic Multilingual Plane (an emoji, say) counts once here and twice there, so such names are cut later here, and a cut never splits a surrogate pair as it can in JavaScript.
- OrderDetails.Truncate: the same code-point counting as `Cart.Truncate`, for `length` and `substr`.
- Text.LastN: the same code-point counting, for `slice(-n)`. Its only use, the order number, is an ASCII hex id, where the two agree.
- `Text.ToUpper` upper-cases ASCII letters only. The coupon codes are ASCII, but `toUpperCase` on other letters is not modelled.
- `Orders.SortNewestFirst` proves the result is sorted and a permutation, but not that equal keys keep their order (stability).
- The typing handlers of the login, sign-up and contact forms (`onChangeText={setX}`) are plain writes to the fields and have no methods.
- `ProductList`: the product fetch, and `handleBuyNow`, which only logs, are not modelled.
- `OrderDetails`: the fetch of an order by id when none was passed, and the shipping-address text, are not modelled.
- Sign-up moving the focus to the first box after a send with no echoed code, and the focus calls themselves, are UI. `FocusAfter` gives the box index the handler would focus.
