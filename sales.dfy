/** Sale records and the fixed product catalogue of the new-sale screen. */
module Sales {

  /** Latitude and longitude reported by the device's location service (opaque here). */
  datatype Coords = Coords(latitude: real, longitude: real)

  /** One recorded sale, as stored in the "sales" list. */
  datatype Sale = Sale(
    id: string,
    product: string,
    price: int,
    quantity: int,
    totalPrice: int,
    location: Coords,
    timestamp: string)

  /** A catalogue entry offered by the product menu. */
  datatype Product = Product(name: string, price: int)

  /** The four products the menu offers, in menu order. */
  const DefaultProducts: seq<Product> := [
    Product("Laptop", 1000),
    Product("Phone", 500),
    Product("Tablet", 300),
    Product("Headphones", 150)
  ]

  /** What a well-formed ledger record satisfies: a named product, a positive
      unit price, at least one item, and a total equal to price times quantity. */
  ghost predicate WellFormed(s: Sale) {
    s.product != "" && s.price > 0 && s.quantity >= 1 && s.totalPrice == s.price * s.quantity
  }

  /** Every catalogue entry has a non-empty name and a positive price. */
  lemma CatalogueEntriesAreSellable(p: Product)
    requires p in DefaultProducts
    ensures p.name != "" && p.price > 0
  {
  }

  /** The record `saveSale` builds from the form and the opaque id, position and time. */
  function MakeSale(id: string, product: string, price: int, quantity: int,
                    location: Coords, timestamp: string): (s: Sale)
    ensures s.product == product && s.price == price && s.quantity == quantity
    ensures s.id == id && s.location == location && s.timestamp == timestamp
    ensures s.totalPrice == price * quantity
    ensures product != "" && price > 0 && quantity >= 1 ==> WellFormed(s) && s.totalPrice >= price
  {
    Sale(id, product, price, quantity, price * quantity, location, timestamp)
  }
}
