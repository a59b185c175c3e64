/**
  Order placement against an inventory: a map from product name to stock,
  checked for an unknown product first and for insufficient stock second,
  and on success updated in place. Stock and quantity are Java ints, so the
  new stock is computed with 32-bit wrap-around.
*/
module ECommerce {

  /** A Java int. */
  newtype int32 = x: int | -0x8000_0000 <= x < 0x8000_0000

  /** Java int subtraction: the exact difference reduced into the 32-bit range. */
  function Sub32(a: int32, b: int32): (r: int32)
    ensures -0x8000_0000 <= a as int - b as int < 0x8000_0000 ==> r as int == a as int - b as int
    ensures (r as int - (a as int - b as int)) % 0x1_0000_0000 == 0
  {
    var d := a as int - b as int;
    if d < -0x8000_0000 then (d + 0x1_0000_0000) as int32
    else if d >= 0x8000_0000 then (d - 0x1_0000_0000) as int32
    else d as int32
  }

  /** What placeOrder reports: success, or one of its two exceptions. */
  datatype OrderOutcome =
    | OrderPlaced
    | ProductNotFound
    | OutOfStock(stock: int32)

  type Inventory = map<string, int32>

  /** One placeOrder call on an inventory: the inventory afterwards and the outcome. */
  function ApplyOrder(products: Inventory, product: string, quantity: int32): (Inventory, OrderOutcome)
  {
    if product !in products then (products, ProductNotFound)
    else
      var stock := products[product];
      if quantity > stock then (products, OutOfStock(stock))
      else (products[product := Sub32(stock, quantity)], OrderPlaced)
  }

  /** The two failures change nothing, and an unknown product is reported whatever the quantity. */
  lemma PlaceOrderFailures(products: Inventory, product: string, quantity: int32)
    ensures product !in products ==> ApplyOrder(products, product, quantity) == (products, ProductNotFound)
    ensures product in products && quantity > products[product] ==>
      ApplyOrder(products, product, quantity) == (products, OutOfStock(products[product]))
    ensures ApplyOrder(products, product, quantity).1 != OrderPlaced ==>
      ApplyOrder(products, product, quantity).0 == products
  {
  }

  /**
    An order succeeds exactly when the product is known and the quantity does
    not exceed its stock; then only that product's stock changes, by exactly
    the quantity when the quantity is not negative, and it stays at zero or more.
  */
  lemma PlaceOrderSuccess(products: Inventory, product: string, quantity: int32)
    ensures var (after, outcome) := ApplyOrder(products, product, quantity);
      && (outcome == OrderPlaced <==> product in products && quantity <= products[product])
      && after.Keys == products.Keys
      && (forall p :: p in products && p != product ==> after[p] == products[p])
      && (outcome == OrderPlaced && quantity >= 0 ==>
            after[product] as int == products[product] as int - quantity as int && after[product] >= 0)
  {
  }

  /**
    A negative quantity is not rejected: against a stock of zero or more it
    passes the stock check and, as long as the sum fits in an int, raises the
    stock.
  */
  lemma NegativeQuantityRaisesStock(products: Inventory, product: string, quantity: int32)
    requires product in products && products[product] >= 0 && quantity < 0
    requires products[product] as int - quantity as int < 0x8000_0000
    ensures var (after, outcome) := ApplyOrder(products, product, quantity);
      outcome == OrderPlaced && after[product] as int == products[product] as int - quantity as int > products[product] as int
  {
  }

  /** A large negative quantity overflows: the stock of 5 wraps around to a negative number. */
  lemma NegativeQuantityOverflows()
    ensures ApplyOrder(map["Laptop" := 5], "Laptop", -0x7FFF_FFFF) == (map["Laptop" := -0x7FFF_FFFC], OrderPlaced)
  {
    var products: Inventory := map["Laptop" := 5];
    assert Sub32(5, -0x7FFF_FFFF) == -0x7FFF_FFFC;
    assert products["Laptop" := -0x7FFF_FFFC] == map["Laptop" := -0x7FFF_FFFC];
  }

  /** The shop's inventory, updated in place by orders. */
  class ECommerceSystem {
    var products: Inventory

    /** The sample inventory. */
    constructor ()
      ensures products == map["Laptop" := 5, "Phone" := 3, "Headphones" := 10]
    {
      products := map["Laptop" := 5, "Phone" := 3, "Headphones" := 10];
    }

    /**
      placeOrder: fails with ProductNotFound for an unknown product, then with
      OutOfStock when the quantity exceeds the stock, and otherwise overwrites
      the product's stock with stock minus quantity.
    */
    method PlaceOrder(product: string, quantity: int32) returns (outcome: OrderOutcome)
      modifies this
      ensures (products, outcome) == ApplyOrder(old(products), product, quantity)
    {
      if product !in products {
        return ProductNotFound;
      }
      var stock := products[product];
      if quantity > stock {
        return OutOfStock(stock);
      }
      products := products[product := Sub32(stock, quantity)];
      outcome := OrderPlaced;
    }
  }
}
