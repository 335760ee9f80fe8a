# Shopping cart store — a verified model

This project models the cart store of a small shop front-end: the
`ShoppingCart` class of `Script.js`. The store keeps an ordered list of line
items (id, name, unit price, image, colour, quantity, customised flag) and
saves it to the browser's local storage under the key `cartItems` after every
change. From that list it derives the subtotal, shipping, tax and total shown
on the cart page, and the unit count on the cart badge. It is meant to accept
three promo codes; as written, two inherited object-member names pass its
lookup as well (see Findings). Before a payment request goes out, it checks the checkout form. It
empties itself only when the payment provider's verification reply confirms
the payment.

Modules:

- `Outcomes` (`outcomes.dfy`): `Option` and `Result`.
- `LineItems` (`line_items.dfy`): the item record and the list operations the
  handlers perform: the first-match `find`, merge-or-append on add, the
  clamped quantity step, and the `filter` on removal. It also holds their
  lemmas.
- `Pricing` (`pricing.dfy`): subtotal, shipping, tax, total and badge count,
  with their identities and how each cart operation moves them.
- `Promo` (`promo.dfy`): trimming and lower-casing of the typed code, the code
  table, the discount, and the table lookup as the source writes it.
- `Checkout` (`checkout.dfy`): the required-field gate, the payment request
  body and the shape of a verification reply.
- `CartStore` (`cart_store.dfy`): the `ShoppingCart` class. Its `items` field is
  updated in place by its methods. A `LocalStorage` object is saved after every
  change and restored from at construction.

Money is exact (`real`), so the identities hold exactly; two-decimal display
rounding is not modelled. The totals are functions of the items alone, so
computing them twice on unchanged items gives the same figures.

Three behaviours of the code differ from what a reader of the page might expect; the model follows the code:

- The total shown is subtotal + shipping + tax. An applied promo discount only
  rewrites the displayed subtotal for a moment and is then overwritten by the
  summary recomputation. No discount enters the total.
- The amount sent at checkout is the bare subtotal. It includes neither
  shipping nor tax (`Checkout.ChargedAmountBelowShownTotal`).
- Restoring reads the saved list, or an empty one when the key is absent.
  Unreadable saved text makes the source's `JSON.parse` throw rather than give
  an empty cart. Serialisation is outside the model (see below).

## Model

| member | source | states |
|---|---|---|
| LineItems.FindIndex | Script.js:91-93 | `find` returns the first item matching the key, and -1 exactly when no item matches |
| LineItems.ChosenColor | Script.js:86 | the colour of a plain add is never empty: it is the selected colour whenever a non-empty one is set, and otherwise the default `#8B4513` |
| LineItems.AddedItems | Script.js:90-99 | the list after a plain add grows by at most one line, and every existing line keeps all its fields except possibly its quantity; AddMergesIntoFirstMatch, AddAppendsWhenNoMatch and AddKeepsQuantitiesPositive give the exact result |
| LineItems.AddMergesIntoFirstMatch | Script.js:90-96 | when an item has the same name and colour, the first such item gains one unit; the length and every other item are unchanged |
| LineItems.AddAppendsWhenNoMatch | Script.js:86-98 | with no same name and colour item, the product is appended with quantity 1, the new id, and the selected colour (or the default `#8B4513` when none or empty is selected) |
| LineItems.AddKeepsQuantitiesPositive | Script.js:95-98 | adding keeps every quantity at least 1 |
| LineItems.RepeatedAddMakesOneLine | Script.js:79-99 | n ≥ 1 adds of one product and colour to a cart without it give exactly one new line, at the end, with quantity n and the first add's id |
| LineItems.Stepped | Script.js:122-126 | "+" raises the quantity by 1; "-" lowers it by 1 only when it is above 1; no other field changes; a quantity ≥ 1 stays ≥ 1 |
| LineItems.QuantityUpdated | Script.js:118-126 | a quantity press keeps the length, changes no field but the quantity, and leaves every line with another id as it was; QuantityStepsFirstMatch gives the exact effect when the id is found, QuantityUnknownIdUnchanged when it is not, and QuantityUpdatedSums the change to both sums |
| LineItems.QuantityStepsFirstMatch | Script.js:118-126 | the first line with the id becomes its one-step update ("+" adds a unit, "-" removes one only above 1); the length and every other line, including later lines with the same id, are unchanged |
| LineItems.QuantityStaysPositive | Script.js:118-126 | in a cart whose quantities are ≥ 1, no quantity press takes one below 1 |
| LineItems.QuantityUnknownIdUnchanged | Script.js:118-120 | a press for an id no item has leaves the list unchanged |
| LineItems.MinusAtOneUnchanged | Script.js:124-125 | "-" on the first line with the id, when it holds one unit, leaves the list unchanged |
| LineItems.FindIndexSameId | Script.js:118 | replacing an item by one with the same id does not move the first id match |
| LineItems.PlusThenMinusRestores | Script.js:122-126 | "+" then "-" on the same id restores a cart whose quantities are ≥ 1 |
| LineItems.Without | Script.js:107-108 | removal keeps only items of the list and no item with the removed id |
| LineItems.WithoutKeepsOthers | Script.js:108 | every item with a different id survives removal |
| LineItems.WithoutAppend | Script.js:108 | removal distributes over concatenation, so the survivors keep their relative order |
| LineItems.WithoutAbsentUnchanged | Script.js:108 | removing an id no item has changes nothing |
| LineItems.RemoveTwiceSameAsOnce | Script.js:107-108 | a second removal of the same id is a no-op |
| LineItems.WithoutKeepsQuantitiesPositive | Script.js:108 | removal keeps every quantity at least 1 |
| Pricing.CartSummary | Script.js:256-259 | subtotal = Σ price×quantity, shipping = 9.99 exactly when the subtotal is positive (else 0), tax = 0.08×subtotal, total = subtotal + shipping + tax = 1.08×subtotal + shipping |
| Pricing.SingleLineScenario | Script.js:256-259 | one line at 50 with quantity 2 gives 100 / 9.99 / 8 / 117.99 |
| Pricing.EmptyCartSummary | Script.js:256-259 | an empty cart shows all four figures as 0 |
| Pricing.SubtotalAppend | Script.js:256 | the subtotal of two lists joined is the sum of their subtotals |
| Pricing.CartCountAppend | Script.js:271 | the unit count of two lists joined is the sum of their counts |
| Pricing.SumsAfterReplace | Script.js:256-271 | replacing one line changes the subtotal and the count by exactly that line's difference |
| Pricing.Subtotal | Script.js:256 | the `reduce` sum of price × quantity; with non-negative prices and quantities ≥ 1 it is ≥ 0; SubtotalAppend and SumsAfterReplace give how it moves |
| Pricing.CartCount | Script.js:271 | the `reduce` sum of quantities; with quantities ≥ 1 it is at least the number of lines; CartCountAppend and CartCountZeroIffEmpty characterise it further |
| Pricing.CartCountZeroIffEmpty | Script.js:271-278 | with quantities ≥ 1 the badge count is 0 exactly when the cart is empty (the badge is hidden exactly then) |
| Pricing.AddedItemsSums | Script.js:90-99 | an add raises the badge count by 1 and the subtotal by the unit price of the line that received the unit |
| Pricing.StepSums | Script.js:122-126 | one press on a line moves the count by ±1 and the subtotal by ± that line's price, except "-" at quantity 1, which changes nothing |
| Pricing.QuantityUpdatedSums | Script.js:118-126 | "+" raises the count by 1 and the subtotal by the line's price; "-" above 1 lowers both by as much; otherwise nothing changes |
| Promo.TrimStart | Script.js:284 | drops exactly the leading JavaScript white space: the result is a suffix, all dropped characters are white space, and it does not start with white space |
| Promo.TrimEnd | Script.js:284 | drops exactly the trailing white space: the result is a prefix, all dropped characters are white space, and it does not end with white space |
| Promo.ToLower | Script.js:284 | lower-casing keeps the length |
| Promo.ToLowerAt | Script.js:284 | lower-casing works character by character: each output character is the lower case of the input character at the same place |
| Promo.TrimStartAppend | Script.js:284 | trimming the head of a joined string trims the first part, or passes to the second when the first is all white space |
| Promo.Normalize | Script.js:284 | the code the lookup sees is never longer than the typed one, and blank input leaves the empty string; NormalizeIgnoresPadding, ToLowerAt and NormalizeWord give its content |
| Promo.NormalizeWord | Script.js:284 | a code with no white space at either end normalises to its character-by-character lower case |
| Promo.NormalizeIgnoresPadding | Script.js:284 | white space around a code never changes its normalised form |
| Promo.Save20Normalizes | Script.js:284 | "SAVE20" with any white-space padding normalises to the key "save20" |
| Promo.CodeFraction | Script.js:286-292 | the table's own entry: a key has one exactly when it is one of welcome10, save20, birks15, and every entry is a positive fraction of at most 0.20; both ApplyPromoCode and LookupAsWritten look codes up through it |
| Promo.ApplyPromoCode | Script.js:284-306 | corrected lookup (the source's own test is AcceptedAsWritten): a code is applied exactly when its trimmed, lower-cased form is in the table; the discount is subtotal × fraction; any other code is rejected, and the items are not touched either way |
| Promo.Save20Scenario | Script.js:286-306 | save20 on a subtotal of 100 gives the fraction 0.20 and a discount of 20 |
| Promo.DiscountBounded | Script.js:286-306 | on a non-negative subtotal the discount is between 0 and a fifth of the subtotal |
| Promo.LookupAsWritten | Script.js:286-292 | the object-literal lookup returns the table's own entry for a table code, the inherited member for `constructor` and `__proto__`, and nothing for any other name |
| Promo.AcceptedAsWritten | Script.js:292 | the source's truthiness test accepts a code exactly when its normalised form is a table code or one of the inherited names `constructor` and `__proto__` |
| Promo.ConstructorNormalizes | Script.js:284 | "Constructor" normalises to "constructor" |
| Promo.PrototypeNameAcceptedAsWritten | Script.js:286-292 | a code normalising to an inherited member name passes the source's test, while the corrected lookup rejects it |
| Checkout.DecimalDigits | Script.js:374 | the number is written as a non-empty string of decimal digits that spells exactly that number (its `DigitsValue` is the number), with no leading zero |
| Checkout.OrderId | Script.js:374 | the order id is "BIRK" followed by the digits of the clock reading: the digits after the prefix spell `now`, and the first of them is not 0 unless `now` is a single digit |
| Checkout.CheckoutRequest | Script.js:362-399 | checkout stops with a validation error exactly when email, phone, address, city or postal code is empty; otherwise the request carries the email, the amount Σ price×quantity, the items, the phone, the address "address, city, postal" and the order id "BIRK" + the clock reading |
| Checkout.EmptyPhoneRejected | Script.js:369-372 | an empty phone number produces no payment request |
| Checkout.ChargedAmountBelowShownTotal | Script.js:367-397 | the amount sent equals the shown total minus shipping and tax, so on a positive subtotal it is below the shown total |
| CartStore.Restore | Script.js:4 | a new store reads the list saved under `cartItems`, or the empty list when that key is absent; Saved and Reload are its round-trip partners |
| CartStore.Saved | Script.js:434-436 | saving writes the items under `cartItems` only; restoring right after gives back the same items; every other key is unchanged |
| CartStore.ShoppingCart.constructor | Script.js:3-4 | a new store holds the saved items, or none when nothing is saved, and is in step with storage |
| CartStore.ShoppingCart.SaveCart | Script.js:434-436 | storage afterwards holds exactly the current items under the cart key |
| CartStore.ShoppingCart.AddToCart | Script.js:79-101 | the items become the merge-or-append result and are saved; quantities ≥ 1 stay ≥ 1 |
| CartStore.ShoppingCart.ApplyCustomization | Script.js:169-194 | without a selected colour nothing changes, not even storage; otherwise a customised line with quantity 1 is appended (never merged) and saved |
| CartStore.ShoppingCart.RemoveItem | Script.js:107-109 | the items become the filtered list and are saved |
| CartStore.ShoppingCart.UpdateQuantity | Script.js:116-128 | the first line with the id takes the clamped step and the cart is saved; an unknown id changes neither items nor storage |
| CartStore.ShoppingCart.HandlePaymentSuccess | Script.js:336-356 | the cart is emptied and saved exactly when the reply has `status` and `data.status` equal to "success"; otherwise items and storage are unchanged |
| CartStore.Reload | Script.js:4 | a store created over the storage of an in-step store starts with equal items: same ids, same order, same fields |

## Left out

- Rendering and UI: the cart list markup, the summary and badge display, notifications, modals, themes, the mobile menu, animations, the scroll observer and button loading states. These are presentation and are not modelled.
- The badge display is refreshed after add, customised add, removal, restore and a confirmed payment, but not after a quantity press (Script.js:116-131). After a press the page's badge still shows the count from before it. `Pricing.CartCount` is the count the badge would show if it were refreshed.
- Network and navigation: the `fetch` calls to the payment back end, the redirect to the provider and the home page, and the `payment:success` listener. The verification reply is a parameter of `HandlePaymentSuccess`; `None` stands for a failed request or unreadable reply, which the source catches and treats like a non-success reply.
- backend/server.js is not part of this model. It forwards requests to the payment provider (the amount ×100 conversion) and sends the confirmation email.
- Floating point: prices and totals are exact reals, and `toFixed(2)` display rounding is not modelled. Product fields read back from page text are not modelled either: a product is given as structured name, price and image, so a `NaN` price cannot arise.
- `applyDiscount`'s display round trip is not modelled: it reads the subtotal back from page text, shows it discounted, and is immediately overwritten. Only the lookup and the discount amount are modelled.
- Id and order-id generation from the clock and the random generator: ids and the clock reading are parameters. Ids have one type, so the loose `==`/`!=` comparison between the page's string ids and the stored numeric ids is modelled as plain equality.
- JSON serialisation: storage holds item lists directly, so saving and restoring is a copy. The source throws on unreadable saved text; that case is not modelled.
- In-place mutation of a shared item object (`quantity += 1` on the object `find` returned) is modelled as replacing that item's value in the sequence. Sharing of item objects with the checkout metadata is not modelled.
- The quantity buttons the page renders are labelled only "+" and "-". The source's case where a button has neither label cannot arise, so `QtyButton` has only those two values.
- The empty-cart warning in `openCheckoutModal` is a UI gate in front of the checkout form and is not modelled; `CheckoutRequest` itself, like the source, does not check for an empty cart.
- Promo.ToLower: lower-cases only the ASCII capitals and the Kelvin sign (whose lower case is `k`). Every other character is kept as is. This changes no lookup result, since no other character's lower case is an ASCII letter or digit, but the normalised string is not JavaScript's `toLowerCase` in general.

## Findings

| source | as written | input that shows it | evidently intended | confidence | as-written member | corrected member |
|---|---|---|---|---|---|---|
| Script.js:286-292 | the code table is a plain object literal, and `validCodes[promoCode]` also finds members inherited from `Object.prototype`; the lower-case names `constructor` and `__proto__` are truthy, so they are accepted and a discount of `NaN`% is announced | the code "Constructor" (normalised "constructor"; `Promo.ConstructorNormalizes`, `Promo.PrototypeNameAcceptedAsWritten`) | only welcome10, save20 and birks15 are accepted | high; not executed | Promo.AcceptedAsWritten | Promo.ApplyPromoCode |
