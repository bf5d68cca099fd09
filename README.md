# Storefront cart and review carousel, in Dafny

This project models the state logic of a client-side storefront page (`code.js`). There are
two independent parts:

- **The cart engine.** It owns the module-level variables `cart`, `userBalance`,
  `couponApplied` and `couponCodeApplied`. Adding a product merges on `id` and clears the
  coupon. The totals have an item count, a subtotal, a 100 BDT delivery charge when the
  subtotal is positive, a 10% discount for the code `lucky10` (matched case-insensitively) and a grand total.
  Checkout deducts the grand total from the wallet. A short balance needs a confirmation.
  "Add money" tops the wallet up by 1000 BDT.
- **The review carousel.** It keeps a 1-based index `reviewNumber` over `totalSlides` slides,
  moves forward and back with wraparound, and sets a translation of the slider in percent.

Files and modules:

- `js_text.dfy`, module `JsText`: the `trim` and `toLowerCase` string built-ins the coupon
  handler uses.
- `cart_totals.dfy`, module `CartTotals`: cart lines, the merge-on-add rule and the totals, as
  pure functions with lemmas.
- `cart_engine.dfy`, module `CartEngine`: class `Shop`, whose fields are the four globals and
  whose methods are the handlers.
- `carousel.dfy`, module `ReviewCarousel`: the cyclic index functions and class `ReviewSlider`,
  whose methods are `nextReview` and `prevReview`.

Money is an integer count of poisha (hundredths of a taka). In `code.js` prices are
JavaScript numbers (IEEE doubles such as 109.95), and the code rounds the grand total and the
new balance with `toFixed(2)` (code.js:109, 138, 145) because those double sums are not exact.
On integer poisha every sum and difference is exact, so `toFixed(2)` is the identity in the
model. Its effect on doubles is left out. The discount `+(subtotal * 0.10).toFixed(2)` is
modelled as ten percent rounded half up to the poisha (`TenPercent`).

`confirm(...)` is the `confirmed` parameter of `Shop.OrderProducts`. The alerts of the coupon
handler and of `orderProducts` are returned outcomes (`CouponOutcome`, `OrderOutcome`). The
alert after adding money carries no information and is not modelled; `Shop.AddMoney` returns
nothing.

Three points about the code that the model keeps:

- The balance can go negative. After a confirmation, `orderProducts` deducts the grand total
  even when the balance is short (code.js:140-145). `Shop.OrderProducts` allows this, and
  promises a non-negative balance only when the balance covered the grand total.
- The discount is decided on two conditions: the coupon flag is set and the stored code
  lowercases to `lucky10` (code.js:103, 136). `Discount` models both. `Shop.CurrentTotals`
  proves that the second condition never changes the result, because `Shop.Valid` ties the
  flag to the stored code.
- Delivery is charged when the subtotal is positive, not when the cart is non-empty
  (code.js:100, 137). A cart of free lines pays no delivery, in the code and in the model.

## Model

| member | source | states |
|---|---|---|
| JsText.SkipLeading | code.js:161 | the leading whitespace `trim` skips is all whitespace, and it stops at the first character that is not |
| JsText.SkipTrailing | code.js:161 | the trailing whitespace `trim` skips is all whitespace, and it stops after the last character that is not, never going before the leading cut |
| JsText.Trim | code.js:161 | `trim` leaves a result that neither starts nor ends with whitespace; the result is empty exactly when the input is all whitespace |
| JsText.TrimIsInfix | code.js:161 | `trim` removes only whitespace: the result is an infix of the input, with whitespace before and after it |
| JsText.ToLower | code.js:104 | `toLowerCase` keeps the length and lowercases each character |
| JsText.ToLowerMatches | code.js:167 | comparing `toLowerCase()` with a lower-case word accepts exactly the spellings with each letter in either case |
| CartEngine.KeywordPositions | code.js:167 | a seven-character code spells `lucky10` ignoring case exactly when each of its characters is the one of `lucky10` or of `LUCKY10` at that position |
| CartEngine.CouponSpellings | code.js:167 | under ASCII lowercasing, the accepted coupon codes are exactly `lucky10` with each letter in either case |
| CartEngine.TypedKeywordAccepted | code.js:161-167 | the code typed as `LUCKY10` is not blank, is left as it is by `trim`, and lowercases to the keyword |
| CartTotals.TenPercent | code.js:105 | the discount amount is at most the subtotal and within half a poisha of a tenth of it |
| CartTotals.Discount | code.js:103-106 | the discount is about 10% of the subtotal when the coupon is applied with a matching code, and 0 otherwise |
| CartTotals.ItemCountBounds | code.js:96 | the `reduce` over quantities is 0 exactly when every quantity is 0, is at least each line's quantity, and is at least the number of lines when quantities are positive |
| CartTotals.SubtotalBounds | code.js:97 | the `reduce` over `price * qty` is 0 exactly when every line is free or empty, and is at least each line's `price * qty` |
| CartTotals.ComputeTotals | code.js:94-109 | item count and subtotal are the folds; delivery is 100 BDT exactly when the subtotal is positive; the discount is `Discount` of the coupon state, so 10% exactly when the flag is set and the code matches, and 0 otherwise; discounted subtotal plus discount is the subtotal; grand total is the discounted subtotal plus delivery |
| CartTotals.EmptyCartTotals | code.js:96-109 | an empty cart gives zero for every figure |
| CartTotals.GrandTotalBounds | code.js:100-109 | delivery is due iff the subtotal is positive; the grand total is 0 iff the subtotal is 0; it lies between 90% of the subtotal plus delivery and the full subtotal plus delivery |
| CartTotals.ClearedCouponNoDiscount | code.js:89-90 | with the coupon state cleared, the discount is 0 and the grand total is the subtotal plus delivery |
| CartTotals.AmountIsProduct | code.js:97 | a line contributes its unit price times its quantity to the subtotal |
| CartTotals.IndexOf | code.js:83 | `cart.find` by id: the position of the first line with that id, or none exactly when the id is not in the cart |
| CartTotals.AddLine | code.js:81-88 | the merge-on-add: a product whose id is not in the cart is appended as a line with quantity 1; otherwise the first line with that id gets one more unit and nothing else changes; the cart grows by one line exactly when the id was new |
| CartTotals.AddAll | code.js:81-88 | a run of "Add to Cart" clicks never removes a line and adds at most one line per click |
| CartTotals.IndexOfUnique | code.js:83 | with distinct ids, `find` by a line's id returns that line's own position |
| CartTotals.SumsUpdate | code.js:85 | changing one line changes the item count and the subtotal by that line's difference |
| CartTotals.AddExisting | code.js:83-85 | adding an id already in the cart raises that line's quantity by 1; the other lines and the length stay the same; the count grows by 1 and the subtotal by that line's price |
| CartTotals.AddFresh | code.js:86-87 | adding a new id appends one line with quantity 1; the count grows by 1 and the subtotal by the product's price |
| CartTotals.IdsUpdate | code.js:85 | raising a line's quantity in place keeps the set of ids in the cart |
| CartTotals.AddLineKeepsInvariant | code.js:81-88 | adding keeps ids unique and quantities positive, adds exactly 1 to the item count and adds the product id to the id set |
| CartTotals.AddAllCounts | code.js:81-88 | after any run of adds, ids stay unique, quantities stay positive and the item count grows by the number of adds |
| CartTotals.AddAllIds | code.js:81-88 | after any run of adds, the cart holds exactly the ids it held before and the ids added |
| CartTotals.AddAllFromEmpty | code.js:81-88 | from an empty cart, the item count equals the number of adds and the number of lines equals the number of distinct product ids |
| CartEngine.Shop.CurrentTotals | code.js:94-109 | under the shop invariant, the discount is 10% exactly when a coupon is applied |
| CartEngine.Shop.constructor | code.js:17-20 | the page starts with an empty cart, no coupon and a balance of 1000 BDT |
| CartEngine.Shop.AddToCart | code.js:81-92 | the cart becomes the merge-on-add of the product; the coupon is cleared; the balance is unchanged; the count grows by 1; the discount is 0 afterwards |
| CartEngine.Shop.ApplyCoupon | code.js:160-176 | a blank code is refused with no change; a code whose lowercase is `lucky10` is stored trimmed and turns the coupon on; any other code is refused with no change |
| CartEngine.Shop.OrderProducts | code.js:129-152 | an empty cart changes nothing; a short balance without confirmation changes nothing; otherwise the grand total is deducted, the cart is emptied and the coupon cleared |
| CartEngine.Shop.AddMoney | code.js:180-185 | the balance grows by exactly 1000 BDT and nothing else changes |
| ReviewCarousel.NextIndex | code.js:194-201 | the next index stays in 1..total and is the cyclic successor `i mod total + 1` |
| ReviewCarousel.PrevIndex | code.js:204-211 | the previous index stays in 1..total and is the cyclic predecessor `(i - 2) mod total + 1` |
| ReviewCarousel.Advance | code.js:221 | repeated timer steps keep the index in 1..total |
| ReviewCarousel.NextPrevInverse | code.js:194-211 | moving forward then back, or back then forward, returns to the same slide |
| ReviewCarousel.AdvanceClosedForm | code.js:194-201 | k forward steps from slide i land on `(i - 1 + k) mod total + 1` |
| ReviewCarousel.FullCycle | code.js:194-201 | `total` forward steps return to the starting slide |
| ReviewCarousel.ReviewSlider.constructor | code.js:190-191 | the slider starts on slide 1 with no translation |
| ReviewCarousel.ReviewSlider.NextReview | code.js:194-202 | the index stays in range and becomes the cyclic successor; the translation set in either branch equals `-(reviewNumber - 1) * 100` |
| ReviewCarousel.ReviewSlider.PrevReview | code.js:204-212 | the index stays in range and becomes the cyclic predecessor; the translation set in either branch equals `-(reviewNumber - 1) * 100` |

## Left out

- Fetching the catalog and the reviews and decoding their JSON (code.js:7-11, 224-252) are network I/O. The review count is the `slides` argument of the `ReviewSlider` constructor.
- DOM rendering is presentation with no logic: cards, star strings, `textContent`/`innerHTML` writes and the balance display (code.js:24-76, 111-125, 230-247).
- `alert` and `confirm` are UI. Alerts are returned outcomes, and the confirmation is a parameter.
- Event-listener wiring and the 4-second `setInterval` timer (code.js:160, 180, 215-221) are plumbing and timing. `Advance` stands for a run of timer ticks.
- JavaScript floating point is not modelled: `price * qty`, `* 0.10` and `toFixed(2)` work on IEEE doubles. Money here is exact integer poisha, and prices are non-negative whole poisha.
- CartTotals.TenPercent: ties are rounded half up. `toFixed(2)` on a double can round an apparent tie down, because the stored binary value is slightly below it.
- `Number(product.price)` coercion is not modelled: prices come in as whole poisha.
- CartEngine.CouponSpellings: holds only for the model's ASCII lowercasing. JavaScript also accepts `LUC\u212AY10`, because the Kelvin sign U+212A lowercases to `k`.
- JsText.ToLower: only ASCII letters are lowercased. Full Unicode case mapping is not modelled, for example the Kelvin sign lowercasing to `k`.
- A cart line is an object that `addToCart` mutates in place (`existing.qty += 1`). Here the cart is a sequence of line values that is replaced. No other reference to a line exists in the code, so no aliasing is lost.
- The carousel with `totalSlides = 0` is not modelled. Before the reviews arrive, `prevReview` would set the index to 0. Every slider operation here needs at least one slide.
- The carousel's `transform` is the integer percent of `translate(...)`. The CSS strings `translate(0)` and `translate(-0%)` both have offset 0.
