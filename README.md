# Storefront cart, modelled in Dafny

The storefront page keeps a shopping cart: an ordered list of line items
`{id, name, price, image, quantity}` held by the page script, changed in place by the
"add to cart" buttons and the plus/minus/remove controls of each row, replaced by a new
empty list by the checkout button, and summarised as a total amount ("Rp 100.000") and an item count.

This project models that cart state logic of `MPF/Cart.js`:

- `rupiah.dfy`, module `Rupiah`: `formatRupiah`. The regular-expression replacement that
  inserts the thousands separators is modelled position by position (`Separate`), proved
  equal to grouping by threes from the right (`Group`), and from that the shape of every
  formatted amount is proved: the `"Rp "` prefix, well-formed groups, and the decimal
  numeral of the amount once the dots are deleted.
- `cart.dfy`, module `Cart`: the `LineItem` datatype, pure functions for each cart change
  (`AddItem` for find-or-append, `ChangeQuantity`, `Splice`), the two reductions (`Total`,
  `Count`), the totals part of the display (`CartSummary`), and the class `CartStore` whose
  field `items` is the page's `cart` variable. Its methods do what the handlers do, step by
  step, and their postconditions tie the new `items` to those functions. The invariant
  `WellFormed` (one line per id, every quantity at least 1) is proved to be kept by every
  operation. Sum lemmas say how each operation moves the total and the count.

Prices and quantities are mathematical integers (prices naturals). The stored cart that the
page starts from is not checked by the script, so the store's methods do not assume
`WellFormed`; they keep it when it held before.

Three edge cases of the script, and how the model treats them:

- A stored value that is not valid JSON makes `JSON.parse` throw (`MPF/Cart.js:3`) and the
  page's setup stops. A missing key gives `null`, and the `|| []` fallback an empty cart.
  The constructor takes the already parsed value (`None` for a missing key).
- An unparsable price becomes `NaN` (`MPF/Cart.js:30`). The model takes the price as an
  already parsed natural (see "Left out").
- With an index past the end, `updateQuantity` throws a `TypeError` (`MPF/Cart.js:119`) and
  `removeItem`'s `splice` removes nothing (`MPF/Cart.js:135`). The handlers only ever pass
  the index of a row they rendered, so the model requires `index < |items|`.

## Model

| member | source | states |
|---|---|---|
| Rupiah.Digits | MPF/Cart.js:22 | `price.toString()` of a non-negative integer: at least one character, all decimal digits, and the first digit is '0' exactly when the number is 0, whose numeral is exactly "0" |
| Rupiah.DigitsValue | MPF/Cart.js:22 | reading the numeral back gives the number: `ValueOf(Digits(n)) == n` |
| Rupiah.NumberText | MPF/Cart.js:151 | `toString` of any integer, as the count text uses it: a non-negative number gives at least one digit, read back as the number, with a leading '0' only for 0, whose text is exactly "0"; a negative one gives '-' followed by digits without a leading zero that read back as its magnitude |
| Rupiah.Separate | MPF/Cart.js:22 | the separator regex on a run of digits: no separator before the first digit of a run that starts the numeral (a word boundary); `SeparateIsGroup` fixes the rest of its meaning |
| Rupiah.SeparateText | MPF/Cart.js:22 | the separator regex on a whole `toString` text: the first character is kept, so a leading '-' stays in front and no separator follows it (it is not a word character); `FormatRupiahShape` fixes the rest of its meaning |
| Rupiah.FormatRupiah | MPF/Cart.js:21-23 | the separator regex applied to `toString` of the amount, behind `"Rp "`: every formatted amount starts with `"Rp "` |
| Rupiah.SeparateSplit | MPF/Cart.js:22 | the separator regex decides each position by the digits to its right only: a digit run splits before any block whose length is a multiple of three |
| Rupiah.SeparateIsGroup | MPF/Cart.js:22 | the regex replacement on a digit run equals grouping by threes from the right |
| Rupiah.GroupWellGrouped | MPF/Cart.js:22 | grouping a non-empty digit run gives groups of exactly three digits after a first group of one to three |
| Rupiah.GroupStripDots | MPF/Cart.js:22 | grouping only inserts separators: deleting the dots gives the digit run back |
| Rupiah.FormatRupiahShape | MPF/Cart.js:21-23 | for every amount: after `"Rp "` (and a '-' for a negative amount) come well-formed digit groups which, with the dots deleted, are the decimal numeral of the amount, whose value is the amount |
| Rupiah.FormatRupiahSmall | MPF/Cart.js:21-23 | amounts below 1000 get no separator: `"Rp "` followed by the digits |
| Rupiah.FormatRupiahHundredThousand | MPF/Cart.js:21-23 | 100000 is written "Rp 100.000" |
| Cart.FindIndex | MPF/Cart.js:37 | `findIndex` by id: -1 exactly when no line has the id, otherwise a position holding the id with no earlier position holding it |
| Cart.AddItem | MPF/Cart.js:37-50 | an id already present: same length, the first line with that id has its quantity raised by one, every other line unchanged; a new id: the old lines unchanged, followed by `{id, name, price, image, quantity: 1}` |
| Cart.AddExisting | MPF/Cart.js:37-41 | in a cart with unique ids, adding the id of line k raises only line k's quantity, by one; length, order and all other lines unchanged |
| Cart.AddPreservesWellFormed | MPF/Cart.js:37-50 | adding keeps ids unique and quantities at least 1 |
| Cart.SumsAfterAdd | MPF/Cart.js:37-50 | adding raises the count by 1 and the total by the unit price of the line it lands on (the stored line's price for a known id, the given price for a new one) |
| Cart.Splice | MPF/Cart.js:134-135 | `splice(index, 1)`: one line shorter, the lines before `index` unchanged, the lines after it shifted down by one in the same order, and the multiset of lines loses exactly the removed one |
| Cart.SplicePreservesWellFormed | MPF/Cart.js:134-135 | removing a line keeps ids unique and quantities at least 1 |
| Cart.SumsAfterSplice | MPF/Cart.js:134-135 | removing a line takes its price times quantity off the total and its quantity off the count |
| Cart.ChangeQuantity | MPF/Cart.js:118-124 | if old quantity plus change is 0 or less, exactly that line is spliced out; otherwise same length, that line's quantity is old plus change, and no other line changes |
| Cart.ChangePreservesWellFormed | MPF/Cart.js:118-124 | changing a quantity never leaves a line with quantity 0 or less and keeps ids unique |
| Cart.SumsAfterChange | MPF/Cart.js:118-124 | the count moves by `change` and the total by price times `change`, unless the line is removed, in which case its whole quantity and amount leave the sums |
| Cart.Total | MPF/Cart.js:146 | the reduction of price times quantity from 0; never negative when every quantity is positive |
| Cart.Count | MPF/Cart.js:150 | the reduction of quantities from 0; at least the number of lines when every quantity is positive |
| Cart.SumsConcat | MPF/Cart.js:146-150 | both reductions distribute over concatenation, so they are the plain sums over the lines whatever way they are split |
| Cart.CartSummary | MPF/Cart.js:80-84 | the "Your cart is empty" placeholder shows exactly when the cart is empty; the total text always starts with `"Rp "`; with positive quantities the count text is a canonical numeral (at least one digit, '0' first exactly when the cart is empty) whose value is the count, and the empty cart's count text is exactly "0" |
| Cart.SummaryOfAnyCart | MPF/Cart.js:145-151 | the empty-cart placeholder shows exactly when the cart is empty, and its fixed texts "Rp 0" and "0" are the formatted total and count of the empty cart |
| Cart.AddTwiceScenario | MPF/Cart.js:37-50 | adding "p1" at 50000 twice gives one line of quantity 2, total 100000 shown "Rp 100.000", count 2 |
| Cart.RemoveFirstScenario | MPF/Cart.js:134-135 | adding "p1" at 25000 and "p2" at 75000 and removing index 0 leaves only "p2", total 75000 |
| Cart.CartStore.constructor | MPF/Cart.js:3 | the cart starts as the stored list, or empty when nothing is stored |
| Cart.CartStore.AddToCart | MPF/Cart.js:26-61 | the new cart is `AddItem` of the old one, the count rises by one, and a well-formed cart stays well-formed |
| Cart.CartStore.UpdateQuantity | MPF/Cart.js:118-131 | the quantity moves first and a line at 0 or below is then spliced out: the new cart is `ChangeQuantity` of the old one, and a well-formed cart stays well-formed |
| Cart.CartStore.RemoveItem | MPF/Cart.js:134-142 | the new cart is `Splice` of the old one, total and count drop by the removed line's share, and a well-formed cart stays well-formed |
| Cart.CartStore.Checkout | MPF/Cart.js:161-167 | whatever it held, the cart is empty afterwards, with total 0 and count 0, shown as the placeholder, "Rp 0" and "0" |

## Left out

- Rendering of the item rows in `updateCartDisplay` (template cloning, image, name, row price, quantity field, and the per-row plus/minus/remove listeners): DOM work; only the placeholder/rows distinction and the totals texts are modelled (`CartSummary`).
- `saveCart` and `localStorage`: browser storage and JSON serialisation, so the persist-and-reload round trip is not modelled; the constructor receives the parsed stored value as a parameter.
- `Number.parseInt` of the price attribute and the `NaN` it can give: the price is an already parsed natural.
- The image lookup through `closest` and `querySelector`: the image is a plain string parameter.
- `showAddedToCartFeedback` with its `setTimeout`, and the checkout `alert`: timed UI feedback and an external notification that do not touch the cart.
- JavaScript number precision: prices, quantities and sums are unbounded integers, so rounding of large products and the exponent notation `toString` uses from 1e21 on are not modelled.
- Rupiah.FormatRupiah: the separator regex is modelled on the texts `toString` gives for integers (an optional '-' and a run of digits), not as a general regular-expression engine.
- Cart.CartStore.AddToCart: line items are values, so `cart[i].quantity += 1` is modelled as replacing line `i`; sharing of item objects between the cart and other code is not modelled (the script shares none).
- Cart.CartStore.UpdateQuantity and Cart.CartStore.RemoveItem require an index inside the cart; the out-of-range behaviour of the script (a `TypeError`, or a `splice` that does nothing) is not modelled.
