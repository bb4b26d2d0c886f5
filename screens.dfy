/** The two screens as objects whose component state their handlers update in
    place, and the "sales" key of the device store they share. */
module Screens {
  import opened Wrappers
  import opened Sales
  import opened Ledger
  import opened SaleForm

  /** The "sales" item of the key-value store: absent until the first save. */
  class SalesStorage {
    var item: Option<seq<Sale>>

    constructor ()
      ensures item == None
    {
      item := None;
    }

    /** Reading the item, with an absent item read as the empty list. */
    method GetSales() returns (sales: seq<Sale>)
      ensures item.None? ==> sales == []
      ensures item.Some? ==> sales == item.value
    {
      sales := LedgerOf(item);
    }

    /** Writing the whole list back. */
    method SetSales(sales: seq<Sale>)
      modifies this
      ensures item == Some(sales)
    {
      item := Some(sales);
    }
  }

  /** The new-sale screen. */
  class NewSaleScreen {
    var product: string
    var price: Option<int>
    var quantity: int
    var showMenu: bool
    const storage: SalesStorage

    /** The screen's component state as a value. */
    function State(): Form
      reads this
    {
      Form(product, price, quantity, showMenu)
    }

    /** The state invariant: quantity at least 1, price present exactly with a
        chosen catalogue product. */
    ghost predicate Valid()
      reads this
    {
      FormInv(State())
    }

    constructor (store: SalesStorage)
      ensures Valid() && State() == InitialForm && storage == store
    {
      product, price, quantity, showMenu := "", None, 1, false;
      storage := store;
    }

    method IncrementQuantity()
      requires Valid()
      modifies this
      ensures Valid() && State() == SaleForm.IncrementQuantity(old(State()))
    {
      HandlersKeepFormInv(State(), 0);
      quantity := quantity + 1;
    }

    method DecrementQuantity()
      requires Valid()
      modifies this
      ensures Valid() && State() == SaleForm.DecrementQuantity(old(State()))
    {
      HandlersKeepFormInv(State(), 0);
      if quantity > 1 {
        quantity := quantity - 1;
      }
    }

    method OpenMenu()
      requires Valid()
      modifies this
      ensures Valid() && State() == SaleForm.OpenMenu(old(State()))
    {
      showMenu := true;
    }

    method DismissMenu()
      requires Valid()
      modifies this
      ensures Valid() && State() == SaleForm.DismissMenu(old(State()))
    {
      showMenu := false;
    }

    method HandleProductSelect(i: nat)
      requires Valid() && i < |DefaultProducts|
      modifies this
      ensures Valid() && State() == SelectProduct(old(State()), i)
    {
      HandlersKeepFormInv(State(), i);
      product := DefaultProducts[i].name;
      price := Some(DefaultProducts[i].price);
      showMenu := false;
    }

    /** `saveSale`, with the permission answer, the clock values and the
        position passed in. */
    method SaveSale(granted: bool, id: string, timestamp: string, location: Coords)
      returns (outcome: Outcome)
      requires Valid()
      modifies this, storage
      ensures Valid()
      ensures (App(State(), storage.item), outcome)
           == SaleForm.SaveSale(App(old(State()), old(storage.item)), granted, id, timestamp, location)
    {
      HandlersKeepFormInv(State(), 0);
      if product == "" || price == None || price == Some(0) || quantity < 1 {
        return Rejected;
      }
      if !granted {
        return PermissionDenied;
      }
      var sale := MakeSale(id, product, price.value, quantity, location, timestamp);
      var existing := storage.GetSales();
      storage.SetSales([sale] + existing);
      product, price, quantity := "", None, 1;
      outcome := Saved(sale);
    }
  }

  /** The sales-history screen. */
  class SalesScreen {
    var sales: seq<Sale>

    constructor ()
      ensures sales == []
    {
      sales := [];
    }

    /** `fetchSales`: show the stored list, or nothing when none is stored. */
    method FetchSales(store: SalesStorage)
      modifies this
      ensures sales == LedgerOf(store.item)
    {
      sales := store.GetSales();
    }
  }

  /** A first use of the app: choose the laptop, press "+" once, save with
      permission granted, then open the history. The history shows exactly
      one record, for two laptops at a total of 2000. */
  method FirstLaptopSale(id: string, timestamp: string, location: Coords)
    returns (shown: seq<Sale>)
    ensures shown == [Sale(id, "Laptop", 1000, 2, 2000, location, timestamp)]
  {
    var store := new SalesStorage();
    var form := new NewSaleScreen(store);
    form.OpenMenu();
    form.HandleProductSelect(0);
    form.IncrementQuantity();
    var outcome := form.SaveSale(true, id, timestamp, location);
    var history := new SalesScreen();
    history.FetchSales(store);
    shown := history.sales;
  }
}
