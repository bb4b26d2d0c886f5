/** The new-sale form: its state, its handlers as transitions on that state,
    and the guarded save that records a sale in the ledger. */
module SaleForm {
  import opened Wrappers
  import opened Sales
  import opened Ledger

  /** The form's component state: the chosen product name, its unit price
      (`null` until a product is chosen), the quantity counter and whether the
      product menu is open. */
  datatype Form = Form(product: string, price: Option<int>, quantity: int, showMenu: bool)

  /** The form as the screen first shows it. */
  const InitialForm: Form := Form("", None, 1, false)

  /** The save guard: the form is rejected when the product is the empty string,
      the price is `null` or 0 (both falsy), or the quantity is below 1. A
      negative price is truthy and passes. */
  function Filled(f: Form): (ok: bool)
    ensures ok <==> f.product != "" && f.price.Some? && f.price.value != 0 && f.quantity >= 1
  {
    !(f.product == "" || f.price == None || f.price == Some(0) || f.quantity < 1)
  }

  /** The "+" button. */
  function IncrementQuantity(f: Form): (r: Form)
    ensures r.quantity == f.quantity + 1
    ensures r.product == f.product && r.price == f.price && r.showMenu == f.showMenu
  {
    f.(quantity := f.quantity + 1)
  }

  /** The "-" button: it lowers the quantity only while it is above 1. */
  function DecrementQuantity(f: Form): (r: Form)
    ensures f.quantity > 1 ==> r.quantity == f.quantity - 1
    ensures f.quantity <= 1 ==> r == f
    ensures r.product == f.product && r.price == f.price && r.showMenu == f.showMenu
  {
    if f.quantity > 1 then f.(quantity := f.quantity - 1) else f
  }

  /** Opening the product menu from its anchor button. */
  function OpenMenu(f: Form): (r: Form)
    ensures r.showMenu && r.(showMenu := f.showMenu) == f
  {
    f.(showMenu := true)
  }

  /** Dismissing the product menu without choosing. */
  function DismissMenu(f: Form): (r: Form)
    ensures !r.showMenu && r.(showMenu := f.showMenu) == f
  {
    f.(showMenu := false)
  }

  /** Choosing menu entry `i`: copies that entry's name and price into the form
      and closes the menu; the quantity is kept. */
  function SelectProduct(f: Form, i: nat): (r: Form)
    requires i < |DefaultProducts|
    ensures r.product == DefaultProducts[i].name && r.price == Some(DefaultProducts[i].price)
    ensures !r.showMenu && r.quantity == f.quantity
  {
    Form(DefaultProducts[i].name, Some(DefaultProducts[i].price), f.quantity, false)
  }

  /** The form after a recorded sale: product, price and quantity are reset,
      the menu flag is left as it was. */
  function ResetForm(f: Form): (r: Form)
    ensures r.(showMenu := false) == InitialForm && r.showMenu == f.showMenu
  {
    f.(product := "", price := None, quantity := 1)
  }

  /** What the user is told: the fill-in error, the permission error, or success
      together with the record that was stored. */
  datatype Outcome = Rejected | PermissionDenied | Saved(sale: Sale)

  /** The form together with the stored "sales" item. */
  datatype App = App(form: Form, stored: Option<seq<Sale>>)

  /** `saveSale`: check the form, then the location permission; on success build
      the record, prepend it to the stored list, write the list back and reset
      the form. Id, position and time are opaque inputs. */
  function SaveSale(a: App, granted: bool, id: string, timestamp: string, location: Coords): (r: (App, Outcome))
    ensures !Filled(a.form) ==> r == (a, Rejected)
    ensures Filled(a.form) && !granted ==> r == (a, PermissionDenied)
    ensures Filled(a.form) && granted ==>
      && r.1.Saved?
      && r.1.sale.product == a.form.product
      && Some(r.1.sale.price) == a.form.price
      && r.1.sale.quantity == a.form.quantity
      && r.1.sale.totalPrice == r.1.sale.price * r.1.sale.quantity
      && r.1.sale.id == id && r.1.sale.timestamp == timestamp && r.1.sale.location == location
      && r.0.stored == Some(Prepend(r.1.sale, LedgerOf(a.stored)))
      && r.0.form == ResetForm(a.form)
  {
    if !Filled(a.form) then
      (a, Rejected)
    else if !granted then
      (a, PermissionDenied)
    else
      var sale := MakeSale(id, a.form.product, a.form.price.value, a.form.quantity, location, timestamp);
      (App(ResetForm(a.form), Some(Prepend(sale, LedgerOf(a.stored)))), Saved(sale))
  }

  /** What every form the screen can reach satisfies: the quantity is at least 1,
      a price is present exactly when a product is named, and a named product
      comes with its catalogue price. */
  ghost predicate FormInv(f: Form) {
    && f.quantity >= 1
    && (f.price.None? <==> f.product == "")
    && (f.price.Some? ==> Product(f.product, f.price.value) in DefaultProducts)
  }

  /** On such a form the save guard reduces to "a product has been chosen":
      its quantity and price checks can never fail. */
  lemma FilledIffChosen(f: Form)
    requires FormInv(f)
    ensures Filled(f) <==> f.product != ""
  {
    if f.price.Some? {
      CatalogueEntriesAreSellable(Product(f.product, f.price.value));
    }
  }

  /** Every handler keeps the form invariant, starting from the initial form. */
  lemma HandlersKeepFormInv(f: Form, i: nat)
    requires FormInv(f) && i < |DefaultProducts|
    ensures FormInv(InitialForm)
    ensures FormInv(IncrementQuantity(f)) && FormInv(DecrementQuantity(f))
    ensures FormInv(OpenMenu(f)) && FormInv(DismissMenu(f))
    ensures FormInv(SelectProduct(f, i)) && FormInv(ResetForm(f))
  {
    CatalogueEntriesAreSellable(DefaultProducts[i]);
  }

  /** Decrement undoes increment on every form whose quantity is at least 1. */
  lemma DecrementUndoesIncrement(f: Form)
    requires f.quantity >= 1
    ensures DecrementQuantity(IncrementQuantity(f)) == f
  {
  }

  /** Both counter buttons keep the quantity at 1 or above. */
  lemma CounterKeepsFloor(f: Form)
    requires f.quantity >= 1
    ensures IncrementQuantity(f).quantity >= 1 && DecrementQuantity(f).quantity >= 1
  {
  }

  /** Choosing any catalogue entry makes a form with a valid quantity pass the
      save guard, and choosing the same entry twice changes nothing more. */
  lemma SelectProductFillsForm(f: Form, i: nat)
    requires i < |DefaultProducts| && f.quantity >= 1
    ensures Filled(SelectProduct(f, i))
    ensures SelectProduct(SelectProduct(f, i), i) == SelectProduct(f, i)
  {
    CatalogueEntriesAreSellable(DefaultProducts[i]);
  }

  /** The stored state changes exactly when the guard and the permission both
      pass; in that case the read-back ledger grows by one record at its head. */
  lemma SaveChangesStateIff(a: App, granted: bool, id: string, timestamp: string, location: Coords)
    ensures SaveSale(a, granted, id, timestamp, location).0 != a <==> Filled(a.form) && granted
    ensures SaveSale(a, granted, id, timestamp, location).1.Saved? <==> Filled(a.form) && granted
    ensures Filled(a.form) && granted ==>
      |LedgerOf(SaveSale(a, granted, id, timestamp, location).0.stored)| == |LedgerOf(a.stored)| + 1
  {
  }
}
