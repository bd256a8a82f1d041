# Medflex POS — cart and checkout, in Dafny

A model of the point-of-sale logic of the Medflex pharmacy terminal
(`js/script.js`). The model covers:

- the session state (`currentUser`, `cart`, `currentPrescription`);
- the cart handlers `addToCart`, `increaseQuantity`, `decreaseQuantity` and
  `removeItem`;
- the prescription form check `createPrescription`;
- the checkout gate `processOrder` and the structure of the receipt that
  `generateReceipt` prints;
- the price label `formatPrice`;
- the catalogue filters `filterByCategory` and `filterMedications`;
- the login lookup and `hasPermission`.

Layout, one module per file:

| file | module | what it holds |
|---|---|---|
| `pos_types.dfy` | `PosTypes` | medications, prescriptions, users, cart lines, error kinds |
| `price_format.dfy` | `PriceFormat` | `formatPrice` as written, a reference digit grouping, and the proofs that they agree and round-trip |
| `cart_lines.dfy` | `CartLines` | the cart operations as functions on `seq<Line>`, the cart invariant and the total |
| `prescription.dfy` | `PrescriptionForm` | the prescription form and its check |
| `orders.dfy` | `Orders` | the checkout gate, the receipt, and the till over any sequence of user actions |
| `auth.dfy` | `Auth` | user lookup and permission check |
| `catalog.dfy` | `Catalog` | the twelve catalogue entries and the two filters |
| `pos_session.dfy` | `Terminal` | class `Session`: the three globals and the handlers that update them in place |

The handlers mutate global state, so they are methods of `Terminal.Session`.
Each method is proved to leave exactly the state that the matching
`CartLines`, `Orders` or `PrescriptionForm` function describes.

The cart invariant is `CartLines.Consistent`:

- at most one line per id;
- every quantity at least 1;
- every prescription-only line carries a prescription.

`Orders.Healthy` adds that every stored prescription passed the form check.
Every handler keeps `Session.Valid()`, which is `Healthy` over the session's
cart and active prescription. `Orders.CheckoutOfBuiltCart` then shows that,
on any cart the terminal itself built, the checkout's prescription check
never fires.

Two facts about the code's data shape the model:

- Prices are whole kwacha. `formatPrice` calls `toFixed(2)` on them, so
  every label ends in ".00".
- `refills` is the text of its input box, stored as the code reads it.

## Model

| member | source | states |
|---|---|---|
| `PriceFormat.ValueOfDigits` | js/script.js:57 | the digit string `toFixed(2)` writes before ".00" denotes the price |
| `PriceFormat.ToFixed2` | js/script.js:57 | `toFixed(2)` of a whole price is a digit string followed by ".00", and the digits read back as the price |
| `PriceFormat.InsertCommas` | js/script.js:57 | the global replace adds at most one comma per character and removes nothing |
| `PriceFormat.InsertCommasOnlyAddsCommas` | js/script.js:57 | deleting the commas from the replace's output gives what deleting them from its input gives: the replace only inserts commas |
| `PriceFormat.FormatPrice` | js/script.js:56-58 | every label starts with "MK" and ends with ".00"; its full layout is `FormatPriceIsGrouped` and its round trip `FormatPriceRoundTrip` |
| `PriceFormat.LookaheadIsDigitRun` | js/script.js:57 | the lookahead `(?=(\d{3})+(?!\d))` holds at a position exactly when the run of digits starting there has a positive length divisible by three |
| `PriceFormat.FormatPriceIsGrouped` | js/script.js:56-58 | the label is "MK", then the digits of the price with a comma in front of each group of three counted from the right, then ".00" |
| `PriceFormat.GroupShape` | js/script.js:57 | the grouped digits gain one comma per full group after the leading one; commas stand exactly every fourth character from the end, never first, and everything else is a digit |
| `PriceFormat.FormatPriceRoundTrip` | js/script.js:56-58 | stripping "MK", the commas and ".00" from a label and reading the digits gives back the price |
| `PriceFormat.FormatPriceInjective` | js/script.js:56-58 | two prices with the same label are equal |
| `PriceFormat.FormatPrice1800` | js/script.js:15 | the catalogue price 1800 is labelled "MK1,800.00" |
| `PriceFormat.FormatPrice125000` | js/script.js:56-58 | 125000 is labelled "MK125,000.00" |
| `PriceFormat.FormatPriceZero` | js/script.js:272 | the fixed empty-cart label "MK0.00" is the label of 0 |
| `CartLines.Find` | js/script.js:246 | `cart.find` by id: the index of the first line holding the id, or none when no line does |
| `CartLines.LineTotal` | js/script.js:281 | a line's amount is zero exactly when its price or quantity is, and at least the unit price once the line holds a unit |
| `CartLines.Total` | js/script.js:278-282 | the running sum is at least every line's amount, and zero exactly when every line's amount is zero; `TotalAppend` and `TotalPermutation` give its algebra |
| `CartLines.Bump` | js/script.js:249 | the increment keeps the cart's length and every line's item and stored prescription, and never lowers a quantity; `BumpAt` says which line gains the unit |
| `CartLines.Remove` | js/script.js:344 | the filtered cart holds no line with the id and is no longer than the cart |
| `CartLines.NewLine` | js/script.js:251-258 | the appended line holds the item and a positive quantity, and carries a prescription when it needs one exactly when the item needs none or a prescription is active |
| `CartLines.RemoveKeeps` | js/script.js:344 | the filter keeps exactly the lines whose id differs |
| `CartLines.RemoveFirst` | js/script.js:327 | filtering an id keeps the lines before its first line, drops that line, and filters the rest |
| `CartLines.Add` | js/script.js:240-264 | the add is refused, with `PrescriptionRequired`, exactly when the item needs a prescription and none is active |
| `CartLines.Increase` | js/script.js:334-339 | the increment fails exactly when no line holds the id |
| `CartLines.Decrease` | js/script.js:320-331 | the decrement fails exactly when no line holds the id |
| `CartLines.AddEffect` | js/script.js:241-261 | a refused add changes nothing; otherwise the line holding the id gains one unit and no line is added, or one line with quantity 1 is appended at the end, storing the active prescription when the item needs one |
| `CartLines.AddPreservesConsistent` | js/script.js:240-264 | an accepted add keeps one line per id, quantities at least 1, and a prescription on every prescription-only line |
| `CartLines.AddKeepsStoredPrescriptions` | js/script.js:246-258 | an add never shortens the cart and leaves the item and stored prescription of every existing line alone |
| `CartLines.AddTotal` | js/script.js:240-264 | an accepted add raises the total by one unit price: that of the existing line, or of the new item |
| `CartLines.AddTwice` | js/script.js:246-261 | adding a new item twice gives one line with quantity 2, not two lines |
| `CartLines.IncreaseEffect` | js/script.js:334-339 | a missing id is reported; otherwise only the line holding the id changes, gaining one unit |
| `CartLines.IncreasePreservesConsistent` | js/script.js:334-339 | the increment keeps the cart invariant |
| `CartLines.IncreaseTotal` | js/script.js:334-339 | the increment raises the total by that line's unit price |
| `CartLines.DecreaseEffect` | js/script.js:320-331 | with one line per id: a line holding more than one loses exactly one unit and stays; a line holding one is deleted; the other lines keep their order; a missing id is reported |
| `CartLines.DeletePreservesConsistent` | js/script.js:327 | deleting one line keeps the cart invariant |
| `CartLines.DecreasePreservesConsistent` | js/script.js:320-331 | the decrement keeps the cart invariant, so every quantity stays at least 1 |
| `CartLines.DecreaseTotal` | js/script.js:320-331 | in a consistent cart every decrement lowers the total by one unit price, whether the line stays or goes |
| `CartLines.RemoveEffect` | js/script.js:342-346 | with one line per id, removing a present id deletes its line and keeps the others in order; removing an absent id changes nothing |
| `CartLines.RemovePreservesConsistent` | js/script.js:342-346 | removal keeps the cart invariant |
| `CartLines.RemoveTotal` | js/script.js:342-346 | removal lowers the total by the removed line's amount, or leaves it when the id is absent |
| `CartLines.TotalAppend` | js/script.js:278-282 | the running sum over two carts joined is the sum of their sums |
| `CartLines.TotalPermutation` | js/script.js:385 | the total depends only on which lines the cart holds, not on their order |
| `PrescriptionForm.CreatePrescription` | js/script.js:349-366 | the form is refused, with `IncompletePrescription`, exactly when the patient name or the Rx number is empty; an accepted record is complete and copies the insurer and Rx number |
| `Orders.GenerateReceipt` | js/script.js:418-425 | one receipt row per cart line, in cart order, built from that line |
| `Orders.Patient` | js/script.js:410-415 | the patient block is printed exactly when a prescription is active, with the patient's name; the date of birth, insurer and member id each print as entered, or "N/A" when left blank, so no field prints blank |
| `Orders.Row` | js/script.js:420-423 | on a line that carries its prescription or needs none, the row shows an Rx number exactly for a prescription-only item, and that number is the stored prescription's |
| `Orders.InsuranceApplies` | js/script.js:432 | the insurance lines appear only with an active prescription, beside a patient block naming that same insurer |
| `Orders.ProcessOrder` | js/script.js:369-383 | checkout succeeds exactly on a non-empty cart whose prescription-only lines all carry a prescription; an empty cart gives `EmptyCart` and an uncovered line gives `MissingPrescription` |
| `Orders.RowsTotalIsTotal` | js/script.js:418-427 | the row amounts add up to the cart total |
| `Orders.ReceiptContents` | js/script.js:403-441 | an accepted checkout's receipt holds the cart total as subtotal, one row per line with name and quantity, an Rx number exactly on prescription-only rows, taken from the line's stored prescription, the patient block exactly when a prescription is active, and the insurance lines exactly when that prescription names an insurer |
| `Orders.AddKeepsHealthy` | js/script.js:240-264 | an accepted add keeps the till healthy |
| `Orders.IncreaseKeepsHealthy` | js/script.js:334-339 | an accepted increment keeps the till healthy |
| `Orders.DeleteKeepsComplete` | js/script.js:327 | deleting a line keeps every stored prescription complete |
| `Orders.DecreaseKeepsHealthy` | js/script.js:320-331 | an accepted decrement keeps the till healthy |
| `Orders.RemoveKeepsHealthy` | js/script.js:342-346 | removal keeps the till healthy |
| `Orders.StepKeepsHealthy` | js/script.js:240-397 | every user action (add, increment, decrement, remove, prescription, checkout, logout) keeps the till healthy |
| `Orders.Step` | js/script.js:240-397 | cart actions never change the active prescription; the prescription form never changes the cart; checkout and logout either leave the till as it was or empty it; removal leaves no line with the removed id |
| `Orders.RunKeepsHealthy` | js/script.js:240-397 | every sequence of actions from a healthy till keeps it healthy |
| `Orders.CheckoutOfBuiltCart` | js/script.js:376-383 | on a cart built from a fresh session by any actions, checkout never reports a missing prescription, succeeds exactly when the cart is not empty, and prints a non-empty Rx number on every prescription-only row |
| `Orders.PlaceOrderEffect` | js/script.js:369-397 | a refused checkout leaves the till as it was; an accepted one empties the cart and drops the active prescription |
| `Orders.TotalIgnoresOrder` | js/script.js:385 | two action sequences that leave the same lines, in any order, leave the same total |
| `Auth.FindUser` | js/script.js:84 | the index of the first user whose username and password both match, or none when no user matches |
| `Auth.Authenticate` | js/script.js:77-95 | the signed-in user is the first entry of the table that matches both fields, as `users.find` returns; the attempt fails, with `InvalidCredentials`, exactly when no user matches |
| `Auth.ListIncludes` | js/script.js:62 | `includes` is list membership |
| `Auth.HasPermission` | js/script.js:61-63 | a permission is held exactly when someone is signed in and the permission is in their list |
| `Catalog.CatalogIdsUnique` | js/script.js:9-22 | catalogue entry k has id k + 1, so catalogue ids are unique |
| `Catalog.Lowercase` | js/script.js:220 | lower-casing keeps the length and folds each character |
| `Catalog.LowercaseIdempotent` | js/script.js:220 | lower-casing twice is lower-casing once |
| `Catalog.Includes` | js/script.js:232-233 | `includes` holds only when the term fits in the string, and always for the empty term; `IncludesIsSubstring` states it is the substring relation |
| `Catalog.IncludesHasOccurrence` | js/script.js:232-233 | a string that `includes` another holds it at some position |
| `Catalog.OccurrenceIncludes` | js/script.js:232-233 | a string holding another at some position `includes` it |
| `Catalog.IncludesIsSubstring` | js/script.js:232-233 | `includes` is the substring relation |
| `Catalog.WithCategory` | js/script.js:213 | the category filter keeps exactly the items of that category |
| `Catalog.WithSearch` | js/script.js:231-234 | the search filter keeps exactly the items whose lower-cased name or category contains the term |
| `Catalog.MatchesSearch` | js/script.js:231-234 | an item matches exactly when the term is a substring of its lower-cased name or of its lower-cased category |
| `Catalog.FilterByCategory` | js/script.js:202-216 | the category "all" shows every catalogue entry; any other category shows exactly the catalogue entries filed under it |
| `Catalog.FilterMedications` | js/script.js:219-237 | the grid shows exactly the catalogue entries of the active category (or all of them) whose lower-cased name or category contains the lower-cased search text |
| `Catalog.FiltersCommute` | js/script.js:224-234 | category-then-search and search-then-category give the same grid, order included |
| `Catalog.EmptySearchIsCategoryFilter` | js/script.js:202-237 | with an empty search box the search shows what the category buttons show |
| `Catalog.SearchIgnoresCase` | js/script.js:220 | a search text and its lower-cased form select the same items |
| `Terminal.Session.constructor` | js/script.js:25-27 | a fresh session has nobody signed in, an empty cart and no prescription, and is valid |
| `Terminal.Session.Login` | js/script.js:77-95 | a matching user becomes the current user; a failed attempt changes nothing |
| `Terminal.Session.Logout` | js/script.js:134-139 | signs out and clears the cart and the prescription |
| `Terminal.Session.CreatePrescription` | js/script.js:349-366 | an accepted form replaces the active prescription; a refused one changes nothing; validity is kept |
| `Terminal.Session.AddToCart` | js/script.js:240-264 | the cart becomes the value `CartLines.Add` gives; a refusal changes nothing; validity is kept |
| `Terminal.Session.IncreaseQuantity` | js/script.js:334-339 | the cart becomes the value `CartLines.Increase` gives; a missing id changes nothing; validity is kept |
| `Terminal.Session.DecreaseQuantity` | js/script.js:320-331 | the cart becomes the value `CartLines.Decrease` gives; a missing id changes nothing; validity is kept |
| `Terminal.Session.RemoveItem` | js/script.js:342-346 | the cart becomes the filtered cart; validity is kept |
| `Terminal.Session.CartTotal` | js/script.js:278-282 | the accumulating loop returns the cart total |
| `Terminal.Session.CartTotalLabel` | js/script.js:270-316 | the displayed total, "MK0.00" for an empty cart and the formatted loop total otherwise, is the label of the cart total |
| `Terminal.Session.ProcessOrder` | js/script.js:369-400 | returns what `Orders.ProcessOrder` gives for the cart and prescription before the call; an accepted order clears both, a refused one changes nothing; on a valid non-empty cart checkout always succeeds |

## Left out

- DOM access, rendering, event-listener wiring, `alert`, `console.log` and the form resets are left out. They are user-interface glue.
- The insurance amount `total * 0.7` and its formatting are left out because they are floating-point. The code's comment says the insurer covers 30% while the code takes 70%. The model keeps only whether the INSURANCE and PATIENT PAYS lines appear.
- The receipt's timestamp and wording are not modelled, because they depend on locale and time. The receipt is modelled as a value: cashier, patient block, rows, subtotal and the insurance flag.
- The stock display and the out-of-stock click guard are rendering only, and stock never changes, so they are left out.
- `Catalog.Lowercase`: folds ASCII letters only. The Unicode case mapping of `toLowerCase` is not modelled.
- `PriceFormat.FormatPrice`: models whole, non-negative prices below 10^21 only. `toFixed` on fractions, negatives or exponent notation is not modelled.
- `CartLines.Total`: JavaScript computes `price * quantity` and both sums (the `forEach` loop and the two `reduce` calls) in IEEE-754 doubles, which are exact only while every product and partial sum stays below 2^53 (9007199254740992). The model uses unbounded integers, so it does not capture the rounding above that bound. The same holds for `CartLines.LineTotal`, `Terminal.Session.CartTotal` and `Terminal.Session.CartTotalLabel`. The largest catalogue price is 32500, so a cart would need about 2.7 * 10^11 units to reach the bound.
- `parseInt` of a button's `data-id` is not modelled; the handlers take the id as an integer.
- `Terminal.Session.IncreaseQuantity`: an id with no line makes the code throw before it changes anything. The model reports `NotFound` and leaves the cart unchanged. The same holds for `Terminal.Session.DecreaseQuantity`.
- `Terminal.Session.ProcessOrder`: requires a signed-in user. Receipt generation reads the user's name, and the checkout button is reachable only after login.
- The checkout permission is enforced only by disabling a button (`applyPermissions`), so it is not part of the checkout gate. `hasPermission` is modelled on its own.
- The credential table is passed as a parameter, not fixed in the model. `RegulatedSaleExample` uses the pharmacist entry.
- The alert that shows the total after an order is left out. Its figure is `Total`, the same value as the receipt subtotal.
