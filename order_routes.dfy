/**
 * POST /api/orders: place an order from the user's cart. The handler checks the
 * request, checks every cart line against its product, prices the cart (shipping,
 * 8% tax, discount), creates the order, takes each line's quantity off its product's
 * stock and empties the cart. The steps run one after the other; every failure
 * before the order is created leaves all collections untouched.
 */
module OrderRoutes {
  import opened Common
  import opened Money
  import opened ProductModel
  import opened CartModel
  import opened OrderModel
  import opened Store

  const TaxPercent: nat := 8
  const FreeShippingThreshold: int := 7500  // cents
  const ShippingCost: int := 999            // cents

  /** Shipping is free from a subtotal of $75 on, and $9.99 below it. */
  function Shipping(subtotal: int): (s: int)
    ensures s == 0 <==> subtotal >= FreeShippingThreshold
    ensures s != 0 ==> s == ShippingCost
  {
    if subtotal >= FreeShippingThreshold then 0 else ShippingCost
  }

  /** Tax: 8% of subtotal plus shipping, rounded to cents. */
  function Tax(base: int): int
  {
    Round(base * TaxPercent, 100)
  }

  /**
   * An amount of whole cents never puts 8% of it exactly half-way between two cents,
   * so the tax is strictly the nearest cent whatever the rounding rule for ties.
   */
  lemma TaxIsNearestCent(base: nat)
    ensures -50 < 100 * Tax(base) - 8 * base < 50
  {
    var n := base * TaxPercent;
    var q, r := n / 100, n % 100;
    assert n == 100 * q + r;
    assert r == 4 * (2 * base - 25 * q);
    var t := Tax(base);
    RoundHalfUpNearest(n, 100);
    NoTie(100 * t - n, r, t - q, 2 * base - 25 * q);
  }

  /** A whole multiple of 100 cannot be reached from a remainder other than 50 by moving it exactly 50. */
  lemma NoTie(d: int, r: int, k: int, m: int)
    requires -50 < d <= 50 && 0 <= r < 100 && d + r == 100 * k
    requires r == 4 * m
    ensures d < 50
  {
  }

  /** The amounts stored on an order. */
  datatype Pricing = Pricing(subtotal: int, shippingCost: int, taxAmount: int, totalAmount: int)

  /** Lines 54-57 of the handler: shipping from the subtotal, tax on subtotal plus shipping, minus the cart discount. */
  function PriceCart(cart: Cart): (p: Pricing)
    ensures p.subtotal == Subtotal(cart.items)
    ensures p.shippingCost == Shipping(p.subtotal)
    ensures p.taxAmount == Tax(p.subtotal + p.shippingCost)
    ensures p.totalAmount == p.subtotal + p.shippingCost + p.taxAmount - cart.discount
  {
    var subtotal := Subtotal(cart.items);
    var shipping := Shipping(subtotal);
    var tax := Tax(subtotal + shipping);
    Pricing(subtotal, shipping, tax, subtotal + shipping + tax - cart.discount)
  }

  /** With a non-negative subtotal and no discount, the total is at least the subtotal and all parts are non-negative. */
  lemma TotalCoversSubtotal(cart: Cart)
    requires Subtotal(cart.items) >= 0 && cart.discount == 0
    ensures var p := PriceCart(cart);
      p.shippingCost >= 0 && p.taxAmount >= 0 && p.totalAmount >= p.subtotal
  {
  }

  /** The check of one cart line against its (populated) product; None when the line passes. */
  function LineError(line: CartItem, products: map<ProductId, Product>): (e: Option<string>)
    ensures e.None? <==> line.product in products && products[line.product].isActive
                         && products[line.product].stock >= line.quantity
  {
    if line.product !in products then Some("Cannot read properties of null (reading 'isActive')")
    else
      var p := products[line.product];
      if !p.isActive then Some(p.name + " is no longer available")
      else if p.stock < line.quantity then Some("Insufficient stock for " + p.name)
      else None
  }

  /** The validation loop: the error of the first failing line, or None when every line passes. */
  function FirstLineError(items: seq<CartItem>, products: map<ProductId, Product>): (e: Option<string>)
    ensures e.None? <==> forall i :: 0 <= i < |items| ==> LineError(items[i], products).None?
  {
    if items == [] then None
    else if LineError(items[0], products).Some? then LineError(items[0], products)
    else FirstLineError(items[1..], products)
  }

  /** `i.product.images?.[0]?.url`. */
  function FirstImageUrl(p: Product): Option<string>
  {
    if p.images == [] then None else Some(p.images[0].url)
  }

  /** Lines 61-67 of the handler: one order item per cart line, in order. */
  function OrderItems(items: seq<CartItem>, products: map<ProductId, Product>): (r: seq<OrderItem>)
    requires forall i :: 0 <= i < |items| ==> items[i].product in products
    ensures |r| == |items|
    ensures forall i :: 0 <= i < |items| ==>
      && r[i].product == items[i].product
      && r[i].name == products[items[i].product].name
      && r[i].image == FirstImageUrl(products[items[i].product])
      && r[i].price == items[i].price
      && r[i].quantity == items[i].quantity
  {
    if items == [] then []
    else
      var line := items[0];
      var p := products[line.product];
      [OrderItem(line.product, p.name, FirstImageUrl(p), line.price, line.quantity)]
        + OrderItems(items[1..], products)
  }

  /** The order `Order.create` is given, before its pre-save hook runs. */
  function BuildOrder(cart: Cart, products: map<ProductId, Product>, address: Address, paymentMethod: string): (o: Order)
    requires forall i :: 0 <= i < |cart.items| ==> cart.items[i].product in products
    ensures o.user == cart.user && o.orderNumber == ""
    ensures o.items == OrderItems(cart.items, products)
    ensures PriceCart(cart) == Pricing(o.subtotal, o.shippingCost, o.taxAmount, o.totalAmount)
    ensures o.status == DefaultStatus && !o.isPaid && !o.isDelivered
  {
    var pr := PriceCart(cart);
    Order(cart.user, "", OrderItems(cart.items, products), address, paymentMethod,
          pr.subtotal, pr.shippingCost, pr.taxAmount, pr.totalAmount,
          DefaultStatus, false, None, false, None, None)
  }

  /** Lines whose quantities are all at least 1 give order items that pass the quantity validator. */
  lemma OrderItemsValid(cart: Cart, products: map<ProductId, Product>, address: Address, paymentMethod: string)
    requires forall i :: 0 <= i < |cart.items| ==> cart.items[i].product in products
    requires ValidItems(cart.items)
    requires AddressComplete(address) && paymentMethod in PaymentMethods
    ensures PassesValidation(BuildOrder(cart, products, address, paymentMethod))
  {
    DefaultStatusAllowed();
  }

  /** The unique index on `orderNumber`: is the number already used by a stored order? */
  function NumberTaken(orders: seq<Order>, number: string): (b: bool)
    ensures b <==> exists i :: 0 <= i < |orders| && orders[i].orderNumber == number
  {
    if orders == [] then false
    else orders[|orders| - 1].orderNumber == number || NumberTaken(orders[..|orders| - 1], number)
  }

  /** The total quantity the lines take of one product. */
  function OrderedQuantity(items: seq<CartItem>, id: ProductId): int
  {
    if items == [] then 0
    else OrderedQuantity(items[..|items| - 1], id)
         + (if items[|items| - 1].product == id then items[|items| - 1].quantity else 0)
  }

  /** With one line per product, a product loses exactly its own line's quantity (or nothing). */
  lemma {:induction false} OrderedQuantityOfLine(items: seq<CartItem>, id: ProductId)
    requires OneLinePerProduct(items)
    ensures var k := SingleLine(items, id);
      OrderedQuantity(items, id) == if k == -1 then 0 else items[k].quantity
  {
    if items != [] {
      var init := items[..|items| - 1];
      assert OneLinePerProduct(init);
      OrderedQuantityOfLine(init, id);
      if items[|items| - 1].product == id {
        assert SingleLine(init, id) == -1;
      }
    }
  }

  /** The line for a product, found from the end (with one line per product, the only one). */
  function SingleLine(items: seq<CartItem>, id: ProductId): (k: int)
    ensures -1 <= k < |items|
    ensures k == -1 <==> forall i :: 0 <= i < |items| ==> items[i].product != id
    ensures k >= 0 ==> items[k].product == id
  {
    if items == [] then -1
    else if items[|items| - 1].product == id then |items| - 1
    else SingleLine(items[..|items| - 1], id)
  }

  /** The `$inc: { stock: -quantity }` of every line, applied to the product collection. */
  function AfterDecrement(products: map<ProductId, Product>, items: seq<CartItem>): (r: map<ProductId, Product>)
    ensures r.Keys == products.Keys
  {
    map id | id in products :: products[id].(stock := products[id].stock - OrderedQuantity(items, id))
  }

  /** Decrementing one more line changes only that line's product. */
  lemma AfterDecrementStep(products: map<ProductId, Product>, items: seq<CartItem>, i: nat)
    requires i < |items| && items[i].product in products
    ensures var id := items[i].product;
      var before := AfterDecrement(products, items[..i]);
      AfterDecrement(products, items[..i + 1]) == before[id := before[id].(stock := before[id].stock - items[i].quantity)]
  {
    assert items[..i + 1][..i] == items[..i];
  }

  /**
   * When every line passed the check and no product has two lines, no stock goes
   * negative, and every product keeps its other fields and its validity.
   */
  lemma DecrementKeepsProductsValid(products: map<ProductId, Product>, items: seq<CartItem>)
    requires ProductsValid(products)
    requires OneLinePerProduct(items)
    requires forall i :: 0 <= i < |items| ==> LineError(items[i], products).None?
    ensures ProductsValid(AfterDecrement(products, items))
  {
    var r := AfterDecrement(products, items);
    forall id | id in r ensures ValidProduct(r[id]) {
      OrderedQuantityOfLine(items, id);
      var k := SingleLine(items, id);
      if k >= 0 {
        assert LineError(items[k], products).None?;
      }
    }
  }

  /** The validation loop over the populated lines: stops at the first line that fails. */
  method CheckLines(items: seq<CartItem>, products: map<ProductId, Product>) returns (err: Option<string>)
    ensures err == FirstLineError(items, products)
  {
    var i := 0;
    while i < |items|
      invariant 0 <= i <= |items|
      invariant FirstLineError(items, products) == FirstLineError(items[i..], products)
    {
      var e := LineError(items[i], products);
      if e.Some? {
        return e;
      }
      assert items[i..][1..] == items[i + 1..];
      i := i + 1;
    }
    assert items[i..] == [];
    return None;
  }

  /** One `$inc: { stock: -quantity }` per line; every line's product is present. */
  method DecrementStock(db: Database, items: seq<CartItem>)
    requires forall i :: 0 <= i < |items| ==> items[i].product in db.products
    modifies db`products
    ensures db.products == AfterDecrement(old(db.products), items)
  {
    var i := 0;
    while i < |items|
      invariant 0 <= i <= |items|
      invariant db.products == AfterDecrement(old(db.products), items[..i])
    {
      var id := items[i].product;
      AfterDecrementStep(old(db.products), items, i);
      db.products := db.products[id := db.products[id].(stock := db.products[id].stock - items[i].quantity)];
      i := i + 1;
    }
    assert items[..i] == items;
  }

  /**
   * The writes of a successful order: the order is stored, each line's stock is
   * decremented, and the cart is emptied and its discount reset.
   */
  method CommitOrder(db: Database, user: UserId, order: Order)
    requires db.Valid() && user in db.carts
    requires FirstLineError(db.carts[user].items, db.products).None?
    modifies db
    ensures db.Valid()
    ensures db.orders == old(db.orders) + [order]
    ensures db.products == AfterDecrement(old(db.products), old(db.carts)[user].items)
    ensures db.carts == old(db.carts)[user := old(db.carts)[user].(items := [], discount := 0)]
  {
    var cart := db.carts[user];
    db.orders := db.orders + [order];
    DecrementKeepsProductsValid(db.products, cart.items);
    DecrementStock(db, cart.items);
    StoreCartKeepsWellFormed(db.carts, cart.(items := [], discount := 0));
    db.carts := db.carts[user := cart.(items := [], discount := 0)];
  }

  const MissingDetails: string := "Shipping address and payment method are required"
  const OrderValidationFailed: string := "Order validation failed"
  const DuplicateOrderNumber: string := "E11000 duplicate key error: orderNumber"

  /**
   * POST /api/orders. The clock (year, month index) and the random draw of the order
   * number are parameters. Every error answers 400 (the handler's catch-all).
   */
  method PlaceOrder(db: Database, user: UserId, shippingAddress: Option<Address>, paymentMethod: string,
                    year: nat, monthIndex: nat, random: real)
    returns (reply: Reply)
    requires db.Valid()
    requires monthIndex < 12 && 0.0 <= random < 1.0
    modifies db
    ensures db.Valid()
    ensures reply.Failure? ==>
      (reply.code == 400 && db.products == old(db.products) && db.carts == old(db.carts) && db.orders == old(db.orders))
    ensures shippingAddress.None? || paymentMethod == "" ==> reply == Failure(400, MissingDetails)
    ensures shippingAddress.Some? && paymentMethod != ""
            && (user !in old(db.carts) || old(db.carts)[user].items == [])
      ==> reply == Failure(400, "Cart is empty")
    ensures shippingAddress.Some? && paymentMethod != ""
            && user in old(db.carts) && old(db.carts)[user].items != []
      ==>
      var cart := old(db.carts)[user];
      var err := FirstLineError(cart.items, old(db.products));
      && (err.Some? ==> reply == Failure(400, err.value))
      && (err.None? ==>
            var o := PreSave(BuildOrder(cart, old(db.products), shippingAddress.value, paymentMethod), year, monthIndex, random);
            && (!PassesValidation(o) ==> reply == Failure(400, OrderValidationFailed))
            && (PassesValidation(o) && NumberTaken(old(db.orders), o.orderNumber) ==>
                  reply == Failure(400, DuplicateOrderNumber))
            && (PassesValidation(o) && !NumberTaken(old(db.orders), o.orderNumber) ==>
                  && reply == Success(201)
                  && db.orders == old(db.orders) + [o]
                  && db.products == AfterDecrement(old(db.products), cart.items)
                  && db.carts == old(db.carts)[user := cart.(items := [], discount := 0)]))
  {
    if shippingAddress.None? || paymentMethod == "" {
      return Failure(400, MissingDetails);
    }
    if user !in db.carts || db.carts[user].items == [] {
      return Failure(400, "Cart is empty");
    }
    var cart := db.carts[user];
    var items := cart.items;

    // Validate stock
    var err := CheckLines(items, db.products);
    if err.Some? {
      return Failure(400, err.value);
    }

    var order := BuildOrder(cart, db.products, shippingAddress.value, paymentMethod);
    order := PreSave(order, year, monthIndex, random);
    if !PassesValidation(order) {
      return Failure(400, OrderValidationFailed);
    }
    if NumberTaken(db.orders, order.orderNumber) {
      return Failure(400, DuplicateOrderNumber);
    }
    CommitOrder(db, user, order);
    reply := Success(201);
  }
}
