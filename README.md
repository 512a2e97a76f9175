# Storefront cart and checkout, modelled in Dafny

This project models the shopping cart and the checkout of a single-page
perfume storefront (`assets/js/app.js`). The cart is an ordered list of
lines `{id, name, price, image, quantity}`. Three operations change it:

- `addToCart` bumps the quantity of the product's line, or appends a new
  line copied from the catalog.
- `removeFromCart` filters out the product's lines.
- `updateQuantity` adds a signed change to a line and removes the line when
  its quantity drops to zero or below.

The page shows two totals, the item count and the price total.
Checkout checks the cart and the customer form in a fixed order. It then
builds the order message that is handed to WhatsApp.

Modules, one per component of the page script:

- `Wrappers`: `Option` and `Result`.
- `Seqs`: the array built-ins the script uses (`find`, `filter`, `reduce`,
  and `forEach` with its index) as functions over sequences, with their
  laws, and the joining of message pieces.
- `Text`: JavaScript's `trim` (with its whitespace set) and the decimal text
  of an integer.
- `Catalog`: the read-only product list, the product lookup and the category
  filter of `renderProducts`.
- `CartModel`: cart lines, the invariant, the three operations as functions
  of the old cart, the totals, and the lemmas about them.
- `CartStore`: class `Cart` with a `lines: seq<CartLine>` field. Its three
  methods update that field in place and are proved equal to the
  `CartModel` functions.
- `Checkout`: the form checks (`Validate`), the order message as a function
  (`OrderMessage`), and the methods `PlaceOrder`, `ComposeMessage` and
  `AppendItemBlocks`. They run the checks and build the message by repeated
  appends, those for the cart lines inside a loop.

The cart invariant `WellFormed` says product ids are pairwise distinct and
every quantity is at least 1. The three operations keep it. The operations
themselves are defined for every cart, because the script does not check it.
On a cart with duplicate ids, `find` picks the first matching line and
`filter` drops all of them; the model does the same.

The message literals in the source write `\\n`, which is a backslash followed
by `n`, not a line break. The model's strings contain those same two
characters. `formatPrice` wraps `Intl.NumberFormat`, so it is a parameter
`formatPrice: int -> string` of every member that prints a price.

Checkout does not clear the cart: the clearing code at
`assets/js/app.js:483-487` is commented out. `PlaceOrder` only reads the
cart. It has no `modifies` clause, so the cart is unchanged by construction.

## Model

| member | source | states |
|---|---|---|
| `Seqs.FindIndex` | assets/js/app.js:102 | the index found satisfies the predicate and every earlier element fails it; none is found exactly when no element satisfies it |
| `Seqs.Filter` | assets/js/app.js:125 | every element kept is from the input and satisfies the predicate, and every input element that satisfies it is kept; `FilterAppend` adds that input order is kept |
| `Seqs.Reduce` | assets/js/app.js:161 | definition, no ensures: the left fold of `reduce` with an initial value, used for the badge and for both total computations (app.js:211, 453); `ReduceIsSum` states its value |
| `Seqs.Numbered` | assets/js/app.js:446 | `forEach` with the index: one result per element, the running number starting at the given value |
| `Seqs.NumberedAt` | assets/js/app.js:446-447 | the k-th result is the function applied to the k-th element and the number start + k |
| `Seqs.ReduceIsSum` | assets/js/app.js:161 | a `reduce` that adds from an initial value equals that value plus the plain sum |
| `Text.Trim` | assets/js/app.js:406-408 | trimming leaves a slice of the input with only whitespace cut from both ends; it is empty exactly when the input is blank, and otherwise starts and ends with a non-whitespace character |
| `Text.DecimalString` | assets/js/app.js:447 | the text of a number is one or more decimal digits with no leading zero |
| `Text.NumberString` | assets/js/app.js:448 | definition, no ensures: `${item.quantity}`, the decimal text of an integer with a leading minus sign when it is negative; it is `DecimalString` for values of 0 and more |
| `Text.DecimalRoundTrip` | assets/js/app.js:447-448 | reading the digits of a number's text gives the number back |
| `Text.DecimalStringInjective` | assets/js/app.js:447 | different item numbers have different texts |
| `Catalog.FirstProductUnique` | assets/js/app.js:102 | the product `find` stops at is unique: two first entries with the same id are the same entry |
| `Catalog.FindProduct` | assets/js/app.js:102-103 | finds nothing exactly when no product has the id; otherwise returns the first product with that id |
| `Catalog.VisibleProducts` | assets/js/app.js:38-41 | under `"all"` the whole catalog; under any other filter exactly the catalog products of that category |
| `Catalog.VisibleProductsInCatalogOrder` | assets/js/app.js:41 | the category filter keeps catalog order: it works piecewise on a concatenation and keeps a single product exactly when its category matches |
| `CartModel.NewLine` | assets/js/app.js:110-116 | definition, no ensures: the line appended for a new product copies its id, name, price and image, with quantity 1; `AddItem` and `AddRepeatedlyFromEmpty` state where it is used |
| `CartModel.WellFormed` | assets/js/app.js:105-137 | definition, no ensures: the cart invariant, product ids pairwise distinct and every quantity at least 1; the `...KeepsWellFormed` lemmas prove that the three operations keep it |
| `CartModel.LineIndex` | assets/js/app.js:105 | the line found is the first one with the id; none exactly when the cart has no line with the id |
| `CartModel.WithQuantity` | assets/js/app.js:108 | definition, no ensures: the cart with only line i's quantity replaced by q, everything else of that line and every other line unchanged, as `existingItem.quantity += 1` and `item.quantity += change` (app.js:134) update the found line in place; `WithQuantityTotals` states its effect on the totals |
| `CartModel.AddItem` | assets/js/app.js:101-117 | unknown id: cart unchanged; id already in the cart: only the first such line's quantity goes up by 1; new catalog id: one line appended with the product's id, name, price, image and quantity 1 |
| `CartModel.RemoveLines` | assets/js/app.js:124-125 | the result holds exactly the lines with another id, and is the cart itself when the id is absent |
| `CartModel.ChangeQuantity` | assets/js/app.js:130-141 | absent id: no-op; old quantity plus change at most 0: same as removing the id; otherwise only that line's quantity becomes old plus change |
| `CartModel.ItemCount` | assets/js/app.js:161 | the badge is the sum of the quantities; 0 on an empty cart; at least the number of lines when every quantity is positive |
| `CartModel.CartTotal` | assets/js/app.js:211 | the total is the sum of price times quantity; 0 on an empty cart; never negative when every quantity is positive |
| `CartModel.FirstLineUnique` | assets/js/app.js:105 | the line `find` stops at is unique: two first lines of the same id are the same line |
| `CartModel.AddItemKeepsWellFormed` | assets/js/app.js:105-117 | adding keeps ids distinct and quantities at least 1 |
| `CartModel.RemoveLinesKeepsWellFormed` | assets/js/app.js:125 | removing keeps ids distinct and quantities at least 1 |
| `CartModel.ChangeQuantityKeepsWellFormed` | assets/js/app.js:131-141 | changing a quantity keeps ids distinct and quantities at least 1, because a line that would drop below 1 is removed |
| `CartModel.RemoveLinesAppend` | assets/js/app.js:125 | removal keeps the other lines in their original order: it works piecewise on a concatenation |
| `CartModel.RemoveLinesIdempotent` | assets/js/app.js:125 | removing an id twice is removing it once |
| `CartModel.RemoveLinesSplit` | assets/js/app.js:125 | in a well-formed cart, removing an id takes out exactly its one line and leaves the lines before and after it in place |
| `CartModel.RemoveIgnoresQuantity` | assets/js/app.js:134-137 | changing the quantity of a line before removing its id makes no difference to the result |
| `CartModel.ChangeByMinusQuantityRemoves` | assets/js/app.js:134-137 | changing a line by minus its quantity is removing it, and no line of the id is left |
| `CartModel.WithQuantityTotals` | assets/js/app.js:161 | for both reduces (also app.js:211): setting one line's quantity to q moves the item count by q minus the old quantity and the total by the price times that difference |
| `CartModel.AppendTotals` | assets/js/app.js:161 | for both reduces (also app.js:211): appending a line adds its quantity to the item count and its price times its quantity to the total |
| `CartModel.AddItemTotals` | assets/js/app.js:105-117 | adding a catalog id raises the item count by 1 and the total by the line's price (the copied price for an existing line, the catalog price for a new one); an unknown id changes neither |
| `CartModel.RemoveLinesTotals` | assets/js/app.js:125 | in a well-formed cart, removing a line lowers the item count by its quantity and the total by its subtotal |
| `CartModel.ChangeQuantityTotals` | assets/js/app.js:134-141 | a change that leaves the quantity positive moves the item count by the change and the total by price times change |
| `CartModel.AddItemToEmpty` | assets/js/app.js:102-117 | adding a catalog product to the empty cart gives the single fresh line for the first product with that id |
| `CartModel.AddItemToOneLine` | assets/js/app.js:105-108 | adding a catalog product to the cart holding only its line raises that line's quantity by 1 |
| `CartModel.AddRepeatedlyFromEmpty` | assets/js/app.js:105-117 | from an empty cart, n additions of a catalog product give exactly one line, the product's, with quantity n |
| `CartModel.AddRepeatedlyUnknown` | assets/js/app.js:102-103 | any number of additions of an id missing from the catalog leave the cart unchanged |
| `CartModel.TwoProductsScenario` | assets/js/app.js:101-141 | adding product 1 (50000) twice and product 2 (30000) once gives two lines, 3 items and total 130000; changing product 1 by -2 leaves only product 2's line |
| `CartStore.Cart.constructor` | assets/js/app.js:7 | the cart starts empty |
| `CartStore.Cart.AddToCart` | assets/js/app.js:101-122 | the new cart is `AddItem` of the old one; the invariant is kept; the item count rises by 1 exactly when the id is in the catalog |
| `CartStore.Cart.RemoveFromCart` | assets/js/app.js:124-128 | the new cart is `RemoveLines` of the old one; no line of the id remains; the invariant is kept |
| `CartStore.Cart.UpdateQuantity` | assets/js/app.js:130-142 | mutating the line and then removing it when its quantity is at most 0 gives `ChangeQuantity` of the old cart; the invariant is kept |
| `Checkout.Validate` | assets/js/app.js:399-429 | checks run in order: an empty cart is refused first, then a blank name, then a blank address, then a blank phone; success exactly when none applies, carrying the trimmed texts and the raw coordinates |
| `Checkout.LocationLine` | assets/js/app.js:439-442 | the map line is empty exactly when either coordinate field is empty |
| `Checkout.ItemBlock` | assets/js/app.js:447-450 | definition, no ensures: the four pieces written for one cart line (number and name, quantity, unit price, subtotal); `ItemBlockOpensWithNumberAndName` states how it opens |
| `Checkout.ItemBlocksFrom` | assets/js/app.js:446-451 | the blocks as the loop walks the cart, built by `Seqs.Numbered` with a running number that goes up by one per line: one block per cart line |
| `Checkout.ItemBlocksFromAt` | assets/js/app.js:446-450 | the k-th block is the block of `lines[k]` under the number n + k, so from 1 the k-th line gets k + 1 |
| `Checkout.AppendItemBlocks` | assets/js/app.js:446-451 | the `forEach` loop that appends four pieces per cart line leaves the message it started from followed by exactly the blocks of `ItemBlocksFrom` from 1 |
| `Checkout.TotalLine` | assets/js/app.js:454 | definition, no ensures: `*Total: `, the formatted total, `*` and two `\\n` separators; `MessageEndsWithTotal` states that the message ends with it for `CartTotal` followed by the closing sentence |
| `Checkout.OrderHeader` | assets/js/app.js:432-437 | definition, no ensures: the title and the customer block with the trimmed name, phone and address, in that order; used by `LocationLineInsertedAfterCustomer` |
| `Checkout.OrderMessage` | assets/js/app.js:432-455 | definition, no ensures: header, customer block, optional map line, the item blocks, total and closing sentence. Its promises are carried by `ComposeMessage`, `PlaceOrder`, `LocationLineInsertedAfterCustomer`, `ItemBlockInPlace` and `MessageEndsWithTotal` |
| `Checkout.LocationLineInsertedAfterCustomer` | assets/js/app.js:439-442 | the message with coordinates is the message without them plus the map line inserted right after the customer block; it is that message when either field is empty |
| `Checkout.ItemBlockInPlace` | assets/js/app.js:446-451 | the k-th cart line's block, numbered k + 1, sits in the message right after the blocks of the lines before it |
| `Checkout.ItemBlockOpensWithNumberAndName` | assets/js/app.js:447 | a line's block opens with its number, `. ` and the product name |
| `Checkout.MessageEndsWithTotal` | assets/js/app.js:453-455 | the message ends with the cart total (the same `CartTotal` the cart panel shows) and the closing sentence |
| `Checkout.ComposeMessage` | assets/js/app.js:431-455 | the message built piece by piece in the loop over the cart equals `OrderMessage` |
| `Checkout.PlaceOrder` | assets/js/app.js:399-455 | refuses with the first failing check and builds no message; otherwise returns `OrderMessage` of the cart and the trimmed customer; the cart is not modified |

## Left out

- Rendering: the product grid, cart panel markup, filter-button classes, modals, smooth scrolling and scroll-spy (`assets/js/app.js:36-98`, `155-213`, `491-564`). This is presentation only. `renderProducts` and `filterProducts` appear only through the selection rule `VisibleProducts`, which takes the current filter as a parameter.
- The cart panel's literal `"Rp 0"` label for an empty cart (`assets/js/app.js:172`) is presentation; `CartTotal` of an empty cart is 0.
- `saveCart` and `loadCart` (`assets/js/app.js:144-153`): browser storage and JSON serialisation are foreign code. `loadCart` calls `JSON.parse` unguarded, so a corrupt slot throws. A design that promises an empty cart on corrupt storage is not what the code does. The cart restored by `loadCart` need not satisfy `WellFormed`, which is why the operations are modelled on every cart.
- Loading the catalog with `fetch` (`assets/js/app.js:20-33`): asynchronous I/O. The catalog is a read-only `seq<Product>` parameter.
- The Leaflet map, marker handling, geolocation and its error messages, and `confirmSelectedLocation` (`assets/js/app.js:216-396`): a third-party widget and floating-point coordinates. Checkout sees the coordinates only as the two hidden-field strings.
- `formatPrice` (`assets/js/app.js:567-573`): it wraps `Intl.NumberFormat`, so it is a parameter of type `int -> string`. It is applied to subtotals and totals, which are integers.
- After the message is built: `encodeURIComponent`, the wa.me link, `window.open`, clearing the form, resetting the selected location and the map marker (`assets/js/app.js:457-481`). These are boundary I/O and DOM updates.
- `showNotification` (`assets/js/app.js:575-618`) and moving focus to the offending field (`assets/js/app.js:415`, `421`, `427`): UI feedback; the refusal reason is the `CheckoutError` value.
- JavaScript numbers: ids, quantities and totals are unbounded integers. Prices (`Product.price`, `CartLine.price`) are `nat`. A negative price in the catalog file or in a restored cart is outside the model. `CartTotal`'s guarantee that the total is never negative relies on this. The model does not capture floating-point rounding above 2^53, non-integer quantity changes, or exponent notation for numbers of 10^21 and more.
- Product ids are compared as integers. A catalog whose ids are strings would never match the numeric argument of `addToCart` under `===`; such catalogs are not modelled.
- Strings: a Dafny `string` holds Unicode scalar values, while a JavaScript string holds UTF-16 code units. Text with unpaired surrogates cannot be represented. For well-formed text, `Trim` and the message are unaffected: every character `trim` strips is in the Basic Multilingual Plane.
