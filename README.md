# Sales recorder: new-sale form and sales ledger

A model of the behavioural core of a small React Native app that records retail
sales. The new-sale screen (`NewSaleScreen` in `crud/App.js`) holds a form with
a product name, a unit price and a quantity counter. A product comes from a fixed
four-item catalogue. `saveSale` checks the form, asks for location permission,
builds a sale record with `totalPrice = price * quantity`, and prepends it to
the list stored under the `"sales"` key of the device's key-value store. Then it
resets the form. The history screen (`SalesScreen`) reads the same list. When
nothing is stored, it reads the empty list.

Modules, one concern each:

- `Wrappers` (`wrappers.dfy`): `Option`, for JavaScript's `null`.
- `Sales` (`sales.dfy`): the sale record, the catalogue, record construction, and `WellFormed`, which states what a ledger record should satisfy.
- `Ledger` (`ledger.dfy`): reading the stored item, the prepend step, and the newest-first order of a sequence of saves.
- `SaleForm` (`form.dfy`): the form as a value. Each handler is a transition on it. The save guard follows JavaScript falsiness. `SaveSale` is the guarded save over the form and the stored list together.
- `Reachable` (`reachable.dfy`): sequences of handler invocations, and what holds in every state they reach from first use.
- `Screens` (`screens.dfy`): the screens and the store as classes. Their fields are updated in place. Each method is proved to produce exactly the state that the matching `SaleForm` or `Ledger` function specifies, and to keep the form invariant.

Three points where the code's behaviour is easy to misread; the model follows the code:

- The save guard rejects a price only when it is absent or 0, which is what `!price` tests. A negative price would pass. The model has this exact guard. A negative price never arises: `HandlersKeepFormInv`, `StepKeepsInv` and `RunKeepsInv` show that every price the form can hold is a catalogue price, and `CatalogueEntriesAreSellable` shows that those are positive.
- Stored content that fails to parse does not read as an empty list. `JSON.parse` would throw. Only the absent item reads as empty.
- Record ids come from the clock and are not guaranteed unique. The model takes the id as an input and claims nothing about uniqueness.

## Model

| member | source | states |
|---|---|---|
| `Sales.CatalogueEntriesAreSellable` | crud/App.js:24-29 | every catalogue entry has a non-empty name and a positive price |
| `Sales.DefaultProducts` | crud/App.js:24-29 | the catalogue is Laptop 1000, Phone 500, Tablet 300 and Headphones 150, in menu order |
| `Sales.MakeSale` | crud/App.js:48-59 | the record carries the form's product, price and quantity and the given id, position and time, and its total is price × quantity for every input; when the product is named, the price is positive and the quantity is at least 1, the record is well formed (total = price × quantity) and its total is at least the unit price |
| `Ledger.LedgerOf` | crud/App.js:110 | an absent `"sales"` item reads as the empty list; a stored list reads back as written |
| `Ledger.Prepend` | crud/App.js:61-62 | the new list is one longer, starts with the new record, and each older record sits one place later, in its old order |
| `Ledger.SaveAll` | crud/App.js:61-62 | saving sales one after another, first to last, lengthens the list by exactly the number of sales saved |
| `Ledger.SaveAllNewestFirst` | crud/App.js:61-62 | after saving sales one by one, the list holds them newest first, followed by the earlier records unchanged |
| `Ledger.SaveAllConcat` | crud/App.js:61-62 | saving one batch and then another gives the same list as saving their concatenation |
| `Ledger.ThreeSalesNewestFirst` | crud/App.js:61-62 | saving A, B, C into an empty store gives [C, B, A] |
| `SaleForm.InitialForm` | crud/App.js:21-30 | the form starts with product `""`, no price, quantity 1 and the menu closed |
| `SaleForm.Filled` | crud/App.js:38 | the guard passes exactly when the product is non-empty, a price is present and not 0, and the quantity is at least 1; this is JavaScript falsiness, so a negative price passes |
| `SaleForm.IncrementQuantity` | crud/App.js:32 | quantity goes up by exactly 1; product, price and menu flag are unchanged |
| `SaleForm.DecrementQuantity` | crud/App.js:33-35 | above 1, quantity goes down by exactly 1; at 1 or below, the form is unchanged; other fields are never changed |
| `SaleForm.OpenMenu` | crud/App.js:83 | the menu is open and nothing else changes |
| `SaleForm.DismissMenu` | crud/App.js:82 | the menu is closed and nothing else changes |
| `SaleForm.SelectProduct` | crud/App.js:71-75 | product and price become the chosen catalogue entry's name and price, the menu closes, and the quantity is kept |
| `SaleForm.ResetForm` | crud/App.js:65-67 | product, price and quantity return to their initial values; the menu flag is kept |
| `SaleForm.SaveSale` | crud/App.js:37-69 | an unfilled form is rejected and nothing changes; a denied permission changes nothing; otherwise a record with the form's fields and total = price × quantity is put at the head of the read-back list, the list is stored, and the form is reset |
| `SaleForm.FilledIffChosen` | crud/App.js:21-38 | under the form invariant, the save guard passes exactly when a product has been chosen |
| `SaleForm.HandlersKeepFormInv` | crud/App.js:21-75 | the initial form meets the invariant, and every handler keeps it: quantity ≥ 1, a price is present exactly when a product is named, and the pair is a catalogue entry |
| `SaleForm.DecrementUndoesIncrement` | crud/App.js:32-35 | on a quantity of at least 1, "−" after "+" restores the form |
| `SaleForm.CounterKeepsFloor` | crud/App.js:32-35 | from quantity ≥ 1, both counter buttons leave quantity ≥ 1 |
| `SaleForm.SelectProductFillsForm` | crud/App.js:71-75 | with quantity ≥ 1, choosing any catalogue entry makes the form pass the save guard; choosing the same entry again changes nothing |
| `SaleForm.SaveChangesStateIff` | crud/App.js:38-62 | the state changes, and a sale is reported, exactly when the guard and the permission both pass; then the read-back list grows by one |
| `Reachable.StepKeepsInv` | crud/App.js:21-75 | one handler invocation keeps the form invariant and the well-formedness of every stored record; the stored list changes only by the record the step reports |
| `Reachable.RunKeepsInv` | crud/App.js:21-75 | every sequence of handler invocations keeps the invariant; the stored list is the earlier one with the recorded sales prepended in order |
| `Reachable.FromFirstUse` | crud/App.js:21-75 | from first use, every reachable state has quantity ≥ 1, passes the guard exactly when a product is chosen, stores only well-formed records, and lists the recorded sales newest first |
| `Screens.SalesStorage.constructor` | crud/App.js:110 | the `"sales"` item starts absent |
| `Screens.SalesStorage.GetSales` | crud/App.js:110 | an absent item reads as the empty list; a stored list reads as written |
| `Screens.SalesStorage.SetSales` | crud/App.js:62 | the item now holds exactly the written list |
| `Screens.NewSaleScreen.constructor` | crud/App.js:20-30 | the form starts with product `""`, no price, quantity 1 and the menu closed, and it meets the invariant |
| `Screens.NewSaleScreen.IncrementQuantity` | crud/App.js:32 | the new state is `SaleForm.IncrementQuantity` of the old one, and the invariant holds |
| `Screens.NewSaleScreen.DecrementQuantity` | crud/App.js:33-35 | the new state is `SaleForm.DecrementQuantity` of the old one, and the invariant holds |
| `Screens.NewSaleScreen.OpenMenu` | crud/App.js:83 | the new state is `SaleForm.OpenMenu` of the old one |
| `Screens.NewSaleScreen.DismissMenu` | crud/App.js:82 | the new state is `SaleForm.DismissMenu` of the old one |
| `Screens.NewSaleScreen.HandleProductSelect` | crud/App.js:71-75 | the new state is `SaleForm.SelectProduct` of the old one, and the invariant holds |
| `Screens.NewSaleScreen.SaveSale` | crud/App.js:37-69 | the new form, the new stored item and the reported outcome are exactly those of `SaleForm.SaveSale` on the old form and the old item, and the invariant holds |
| `Screens.SalesScreen.constructor` | crud/App.js:106 | the history starts empty |
| `Screens.SalesScreen.FetchSales` | crud/App.js:108-114 | the history shows the stored list, or the empty list when nothing is stored |
| `Screens.FirstLaptopSale` | crud/App.js:48-62 | on first use, choosing the laptop, pressing "+" and saving with permission leads the history to show exactly one record: two laptops at 1000 each, total 2000 |

## Left out

- Rendering, styles, the navigation stack (including `navigation.goBack()` after a save) and the widgets are left out. They are presentation only.
- The alert dialogs are not modelled as dialogs. Their three cases (fill-in error, permission denied, success) become the `Outcome` value.
- The location API is a foreign asynchronous device call. The permission answer and the coordinates are method parameters. Coordinates are opaque `real` pairs.
- The key-value store and its JSON encoding are left out. The stored item is an `Option<seq<Sale>>` with no string encoding. Content that does not parse is not modelled, because the code would throw on it.
- `SaleForm.SaveSale` does not model a storage read or write that fails. In the code, such an exception would leave the form unreset. No such failure path exists in the model.
- `SaleForm.SaveSale` does not model a location call that rejects. The permission request or the position lookup at crud/App.js:40 and 46 could throw. `saveSale` would then stop with nothing stored and the form not reset. In the model, a granted permission always yields a position and a stored record.
- `Screens.NewSaleScreen.SaveSale` inherits both omissions from `SaleForm.SaveSale`: no failing storage call and no failing location call.
- `Date.now()` ids and ISO timestamps depend on the clock. They are opaque inputs, and their uniqueness is not claimed.
- `toFixed(4)` and `toLocaleString` are float and locale formatting for display. They are left out.
- JavaScript numbers are doubles. Prices, quantities and totals are unbounded integers here. They agree with the code while `price * quantity` stays below 2^53.
- Asynchronous interleavings and React's batching are not modelled. One example is `decrementQuantity` reading `quantity` from its closure. Each handler is one atomic step.
