# Shopping cart of the motor-oil storefront, in Dafny

This project models the shopping cart of a small in-browser storefront
(`script.js`). The cart keeps an ordered list of line items `{id, name,
price, quantity}`. Adding a product that is already in the cart raises its
quantity. Adding a new product appends it. Removing a product filters it
out. The page shows the cart total (the sum of price times quantity) and an
item count (the sum of quantities). Each product has a stepper whose minus
button stops at zero. The checkout button refuses an empty cart. Otherwise
it builds an order message, hands it to a messaging channel and empties the
cart.

Modules, one per concern of the source:

- `Items` (`items.dfy`): the `Item` record, `Total` and `Count` as
  left-to-right sums (as the source's `reduce` calls compute them), the
  lookup `FindIndex` (the source's `findIndex`), and the value-level
  specifications `Add` and `Without` of the two cart updates, with the
  lemmas about them. The cart invariant `WellFormed` says that ids are
  unique and that every quantity is at least 1.
- `CartStore` (`cart.dfy`): class `Cart` with the `items` field that the
  source mutates. `AddItem` and `RemoveItem` update it in place, and each
  keeps `Valid()`. `CalculateTotal()` and `ItemCount()` read the totals
  shown on the page (lines 39-43 and 79).
- `Stepper` (`stepper.dfy`): the quantity stepper's plus and minus buttons.
- `Format` (`format.dfy`): decimal text for quantities, and amounts in
  cents printed as `d.dd` (the source's `toFixed(2)`). Each printer has a
  parser and a round-trip lemma.
- `OrderMessage` (`message.dfy`): `Message` is the order text as a
  function of the items and the three prompt answers. `Compose` builds the
  same text by appending, as the handler does: `AppendSegments` is the
  `forEach` loop, which builds each cart line in four appends, and
  `AppendCustomer` adds each supplied answer after its caption. The fixed
  texts of the message are gathered in a `Wording` record. The store's own
  texts are the constant `Spanish`. The lemmas hold for every wording.
- `Checkout` (`checkout.dfy`): the checkout handler, working on a `Cart`
  passed in. `Session` is a client that follows a shopping session through
  the contracts alone: two adds, one removal, then checkout. `SessionCart`
  and `SessionMessage` give the concrete cart contents and message text
  along that session.

Prices are natural numbers of cents, and quantities are natural numbers.
`AddItem` takes its quantity as an `int` because the stepper text is parsed
into an integer that may be zero or negative. The prompts for name, phone
and address become three `Option<string>` inputs. `None` is a cancelled
prompt. Following JavaScript truthiness, a field is printed only for
`Some(v)` with `v` non-empty.

Where the prose description of the system and the code differ, the model
follows the code:

- `addItem` returns nothing and only shows a notice. The model returns
  `added`, which says which notice is shown.
- The phone and address lines of the message have no leading newline;
  only the name line does (script.js:158, 161, 164).
- There is no snapshot object: checkout reads `cart.items` directly and
  empties it by assigning `[]`.

## Model

| member | source | states |
|---|---|---|
| `Items.FindIndex` | script.js:14 | the result is -1 exactly when no item has the id; otherwise it is the position of the first item with that id |
| `Items.Without` | script.js:34 | filtering never makes the sequence longer |
| `Items.AddRejectsNonPositive` | script.js:8-11 | adding a quantity of zero or less leaves the items exactly as they were |
| `Items.AddExisting` | script.js:14-18 | adding to a present id raises only that item's quantity, by the quantity added; its id, name and price, the length and every other item stay the same |
| `Items.AddNew` | script.js:19-26 | adding a new id appends exactly the item `{id, name, price, quantity}`; the earlier items keep their values and order |
| `Items.AddPreservesWellFormed` | script.js:6-27 | adding keeps ids unique and every quantity at least 1 |
| `Items.AddTwice` | script.js:14-26 | two adds of the same new id give one item with the summed quantity and the first add's name and price |
| `Items.AddCount` | script.js:79 | after an add the item count rises by exactly the quantity added when that is positive, and is unchanged otherwise |
| `Items.AddTotal` | script.js:39-43 | after an add the total rises by the quantity added times the unit price the cart keeps for that id (the existing item's price, or the new price) |
| `Items.UpdateSums` | script.js:18 | changing one item in place changes the count and the total by exactly the difference between its new and old share |
| `Items.AppendSums` | script.js:40-42 | the total and the count of a concatenation are the sums of the parts' totals and counts |
| `Items.WithoutAbsent` | script.js:34 | removing an id that is not in the cart leaves the sequence unchanged |
| `Items.WithoutMembers` | script.js:34 | after removal an item is present exactly when it was present before and has a different id |
| `Items.WithoutAppend` | script.js:34 | removal distributes over concatenation, so the kept items stay in their original relative order |
| `Items.WithoutPresent` | script.js:34 | with unique ids, removing a present id cuts out exactly the one item at its position |
| `Items.WithoutPreservesWellFormed` | script.js:34 | removal keeps ids unique and every quantity at least 1 |
| `Items.RemoveSums` | script.js:33-35 | removing an id lowers the count by that item's quantity and the total by its line total (both by zero when the id is absent) |
| `Stepper.Step` | script.js:92-96 | minus never yields a negative quantity and strictly lowers a positive one; from a non-negative quantity the stepper never goes negative |
| `Stepper.StepInverse` | script.js:92-96 | minus undoes plus on every quantity from 0 up, plus undoes minus above 0, and minus from 0 stays at 0 |
| `Stepper.MinusStopsAtZero` | script.js:93 | n presses of minus from q give q - n while n <= q, and 0 after that |
| `Format.NatText` | script.js:148 | a quantity is printed as a non-empty string of decimal digits without leading zeros |
| `Format.NatTextRoundTrip` | script.js:148 | parsing the printed quantity gives back the quantity |
| `Format.CentsText` | script.js:149 | an amount is printed as digits, a point and exactly two decimals |
| `Format.CentsTextRoundTrip` | script.js:149-150 | parsing the printed amount gives back the amount in cents |
| `OrderMessage.Compose` | script.js:143-164 | for any wording, the text built by appending the title, the products heading, the item segments, the total line and the customer block equals `Message` |
| `OrderMessage.AppendSegments` | script.js:146-151 | appending each line's name, quantity, price and subtotal pieces, line by line, adds exactly the segments of all lines in cart order |
| `OrderMessage.AppendCustomer` | script.js:154-164 | appending the customer heading and then each supplied answer after its caption adds exactly the customer block; a cancelled or empty answer adds nothing |
| `OrderMessage.SegmentsAppend` | script.js:146-151 | the item segments of a concatenation are the segments of the first part followed by those of the second |
| `OrderMessage.SegmentsInOrder` | script.js:146-151 | line k's segment comes right after the segments of lines 0 to k-1 and before those of the later lines |
| `OrderMessage.MessageLayout` | script.js:143-151 | the message starts with the header, followed by the segments of lines 0 to k in cart order |
| `OrderMessage.TotalReadsBack` | script.js:153 | the amount printed after the total label reads back as the cart total |
| `OrderMessage.CustomerBlockBare` | script.js:154-164 | the customer block is just its heading exactly when none of the three answers was supplied |
| `OrderMessage.OnlyNameSupplied` | script.js:157-164 | with only a non-empty name given, the message ends with the name line and holds no phone or address field |
| `CartStore.Cart.constructor` | script.js:3-4 | the cart starts empty and valid |
| `CartStore.Cart.AddItem` | script.js:6-31 | `added` holds exactly when the quantity is positive; the items become `Add(old items, ...)`; the invariant holds; the count and the total rise as in `AddCount` and `AddTotal` |
| `CartStore.Cart.RemoveItem` | script.js:33-37 | the items become `Without(old items, id)`; no item with the id remains; an absent id changes nothing; the invariant holds; the count and the total fall by the removed item's share |
| `Checkout.Checkout` | script.js:137-175 | an empty cart is refused with `EmptyCart` and left untouched; otherwise the message for the old items and the answers is sent and the cart is emptied; afterwards the count and the total are 0 |
| `Checkout.SessionCart` | script.js:6-43 | adding 2 of "oil-5w30" at 25.00 and then 1 of "filter-x" at 8.50 to an empty cart gives those two lines in that order, count 3 and total 58.50; removing "oil-5w30" leaves only the filter line, total 8.50 |
| `Checkout.SessionMessage` | script.js:153-158 | for a cart holding one "Filtro X" at 8.50, with only the name "Juan" given, the message shows the total "8.50" and only the name field |

## Left out

- The page rendering in `updateCart` (script.js:46-78, 80-81) is left out: `innerHTML`, element visibility and badge text. Only the total and the count it displays are modelled.
- `showNotification` and its timers (script.js:183-193) are left out. `AddItem`'s `added` result stands in for which notice is shown.
- The three `prompt` calls (script.js:157, 160, 163) are left out; their answers are the `Option<string>` inputs of `Checkout`.
- The WhatsApp hand-off (script.js:169-172) is left out. `window.open`, `encodeURIComponent` and the fixed phone number are an external sink; `Checkout` returns the message it would hand over.
- Floating-point prices are left out. `parseFloat` (script.js:24) and `toFixed(2)` are modelled as exact integer cents, so float rounding of totals is not captured.
- Malformed price text, which `parseFloat` turns into `NaN`, is not modelled: prices are natural numbers.
- A quantity that `parseInt` turns into `NaN` (script.js:90, 108) is not modelled. `NaN <= 0` is false, so the source would let it through; here the quantity is an `int`.
- The stepper reset after adding (script.js:113), the sidebar transforms (script.js:127-133, 177) and the event-listener wiring (script.js:86-124) are UI plumbing and are left out.
- Aliasing is not modelled. Items are values in a `seq`, so the in-place `quantity +=` on a shared item object (script.js:18) is a sequence update.
- OrderMessage.AppendSegments: the four pieces of a line are first joined into a local `line`, which is then appended to the message; the source appends each piece to the message directly (script.js:147-150). The text is the same.
- Items.Without: its own contract only bounds the length; what filtering keeps and the order it keeps them in are stated by `WithoutMembers`, `WithoutAppend` and `WithoutPresent`.
