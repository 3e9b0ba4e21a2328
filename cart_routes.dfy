/**
 * The cart routes: read the cart, add a product (merging into an existing line),
 * set or remove a line's quantity, remove a product, and clear the cart. Each handler
 * works on the user's cart document and saves it; a failed check answers with an
 * error status and leaves every collection as it was.
 */
module CartRoutes {
  import opened Common
  import opened ProductModel
  import opened CartModel
  import opened Store

  /** The JSON body of GET /api/cart. */
  datatype CartView = CartView(items: seq<CartItem>, subtotal: int, total: int, itemCount: int)

  /** GET /api/cart: the stored cart with its virtuals, or the empty default when the user has none. */
  function GetCart(carts: map<UserId, Cart>, user: UserId): (v: CartView)
    ensures user !in carts ==> v == CartView([], 0, 0, 0)
    ensures user in carts ==> v.items == carts[user].items
    ensures user in carts ==> v.subtotal == Subtotal(v.items) && v.itemCount == ItemCount(v.items)
    ensures user in carts ==> v.total == v.subtotal - carts[user].discount
  {
    if user !in carts then CartView([], 0, 0, 0)
    else
      var c := carts[user];
      CartView(c.items, Subtotal(c.items), Total(c), ItemCount(c.items))
  }

  /** A user without a cart sees exactly what a user with a new, empty cart sees. */
  lemma MissingCartLooksEmpty(carts: map<UserId, Cart>, user: UserId)
    requires user !in carts
    ensures GetCart(carts, user) == GetCart(carts[user := NewCart(user)], user)
  {
  }

  /** The cart the handlers load: the stored one, or a new empty one. */
  function CartOf(carts: map<UserId, Cart>, user: UserId): Cart
  {
    if user in carts then carts[user] else NewCart(user)
  }

  /** `items.find` / `items.findIndex` by product: the first line for the product, or -1. */
  function LineIndex(items: seq<CartItem>, product: ProductId): (k: int)
    ensures -1 <= k < |items|
    ensures k == -1 <==> forall i :: 0 <= i < |items| ==> items[i].product != product
    ensures k >= 0 ==> items[k].product == product
    ensures k >= 0 ==> forall i :: 0 <= i < k ==> items[i].product != product
  {
    if items == [] then -1
    else if items[0].product == product then 0
    else
      var k := LineIndex(items[1..], product);
      if k == -1 then -1 else k + 1
  }

  /** `items.filter(i => i.product !== product)`. */
  function WithoutProduct(items: seq<CartItem>, product: ProductId): (r: seq<CartItem>)
    ensures |r| <= |items|
    ensures forall i :: 0 <= i < |r| ==> r[i].product != product
  {
    if items == [] then []
    else if items[0].product == product then WithoutProduct(items[1..], product)
    else [items[0]] + WithoutProduct(items[1..], product)
  }

  /**
   * With one line per product, the filter keeps exactly the other lines in their order:
   * it is the cart unchanged when the product has no line, and otherwise the cart with
   * that single line spliced out.
   */
  lemma {:induction false} WithoutProductSplices(items: seq<CartItem>, product: ProductId)
    requires OneLinePerProduct(items)
    ensures var k := LineIndex(items, product);
      WithoutProduct(items, product) == if k == -1 then items else items[..k] + items[k + 1..]
  {
    if items != [] {
      var rest := items[1..];
      TailKeepsOneLine(items);
      WithoutProductSplices(rest, product);
      if items[0].product == product {
        FirstLineIsOnlyLine(items);
      } else if LineIndex(rest, product) == -1 {
        assert [items[0]] + rest == items;
      } else {
        SpliceOfTail(items, LineIndex(rest, product));
      }
    }
  }

  lemma TailKeepsOneLine(items: seq<CartItem>)
    requires items != [] && OneLinePerProduct(items)
    ensures OneLinePerProduct(items[1..])
  {
    var rest := items[1..];
    forall i, j | 0 <= i < j < |rest| ensures rest[i].product != rest[j].product {
      assert rest[i] == items[i + 1] && rest[j] == items[j + 1];
    }
  }

  lemma FirstLineIsOnlyLine(items: seq<CartItem>)
    requires items != [] && OneLinePerProduct(items)
    ensures LineIndex(items[1..], items[0].product) == -1
  {
    var rest := items[1..];
    forall i | 0 <= i < |rest| ensures rest[i].product != items[0].product {
      assert rest[i] == items[i + 1];
    }
  }

  lemma SpliceOfTail(items: seq<CartItem>, k: nat)
    requires k + 1 < |items|
    ensures [items[0]] + (items[1..][..k] + items[1..][k + 1..]) == items[..k + 1] + items[k + 2..]
  {
  }

  /** The line invariants survive removing a line. */
  lemma SpliceKeepsInvariants(items: seq<CartItem>, k: nat)
    requires k < |items|
    requires ValidItems(items) && OneLinePerProduct(items)
    ensures ValidItems(items[..k] + items[k + 1..]) && OneLinePerProduct(items[..k] + items[k + 1..])
  {
    var r := items[..k] + items[k + 1..];
    forall i, j | 0 <= i < j < |r|
      ensures r[i].product != r[j].product
    {
      var i' := if i < k then i else i + 1;
      var j' := if j < k then j else j + 1;
      assert r[i] == items[i'] && r[j] == items[j'];
    }
    forall i | 0 <= i < |r|
      ensures r[i].quantity >= 1
    {
      assert r[i] == items[if i < k then i else i + 1];
    }
  }

  /** The line invariants survive changing a line's quantity to a positive one. */
  lemma SetQuantityKeepsInvariants(items: seq<CartItem>, k: nat, q: int)
    requires k < |items| && q >= 1
    requires ValidItems(items) && OneLinePerProduct(items)
    ensures ValidItems(items[k := items[k].(quantity := q)])
    ensures OneLinePerProduct(items[k := items[k].(quantity := q)])
  {
  }

  /** The line invariants survive appending a line for a product not yet in the cart. */
  lemma AppendKeepsInvariants(items: seq<CartItem>, line: CartItem)
    requires ValidItems(items) && OneLinePerProduct(items) && line.quantity >= 1
    requires LineIndex(items, line.product) == -1
    ensures ValidItems(items + [line]) && OneLinePerProduct(items + [line])
  {
  }

  /** `salePrice || price`: the price a new line records; a sale price of 0 falls back to the price. */
  function LinePrice(p: Product): (r: int)
    ensures SalePrice(p) != 0 ==> r == SalePrice(p)
    ensures SalePrice(p) == 0 ==> r == p.price
    ensures ValidProduct(p) ==> 0 <= r <= p.price
  {
    if SalePrice(p) != 0 then SalePrice(p) else p.price
  }

  /** A fully discounted product is put in the cart at its full price. */
  lemma FullDiscountStoresFullPrice(p: Product)
    requires p.price >= 0 && p.discount == 100
    ensures LinePrice(p) == p.price
  {
    FullDiscountIsFree(p);
  }

  const CartValidationFailed: string := "Cart validation failed"

  /**
   * POST /api/cart/items. `quantity` defaults to 1. A product already in the cart has its
   * line's quantity raised by the requested amount; a new product is appended as one line.
   * Saving enforces a quantity of at least 1 on every line (an error 500 otherwise).
   */
  method AddItem(db: Database, user: UserId, productId: Option<ProductId>, quantity: Option<int>)
    returns (reply: Reply)
    requires db.Valid()
    modifies db`carts
    ensures db.Valid()
    ensures reply.Failure? ==> db.carts == old(db.carts)
    ensures productId.None? ==> reply == Failure(400, "Product ID required")
    ensures productId.Some? && (productId.value !in db.products || !db.products[productId.value].isActive)
      ==> reply == Failure(404, "Product not found")
    ensures var q := if quantity.Some? then quantity.value else 1;
      productId.Some? && productId.value in db.products && db.products[productId.value].isActive
      && db.products[productId.value].stock < q
      ==> reply == Failure(400, "Insufficient stock")
    ensures var q := if quantity.Some? then quantity.value else 1;
      productId.Some? && productId.value in db.products && db.products[productId.value].isActive
      && db.products[productId.value].stock >= q
      ==>
      var p := db.products[productId.value];
      var cart := CartOf(old(db.carts), user);
      var k := LineIndex(cart.items, productId.value);
      && (k >= 0 && cart.items[k].quantity + q > p.stock ==> reply == Failure(400, "Not enough stock"))
      && (k >= 0 && cart.items[k].quantity + q <= p.stock ==>
            && (cart.items[k].quantity + q < 1 ==> reply == Failure(500, CartValidationFailed))
            && (cart.items[k].quantity + q >= 1 ==>
                  reply == Success(200)
                  && db.carts == old(db.carts)[user := cart.(items := cart.items[k := cart.items[k].(quantity := cart.items[k].quantity + q)])]))
      && (k == -1 ==>
            && (q < 1 ==> reply == Failure(500, CartValidationFailed))
            && (q >= 1 ==>
                  reply == Success(200)
                  && db.carts == old(db.carts)[user := cart.(items := cart.items + [CartItem(productId.value, q, LinePrice(p))])]))
  {
    if productId.None? {
      return Failure(400, "Product ID required");
    }
    var q := if quantity.Some? then quantity.value else 1;
    var pid := productId.value;
    if pid !in db.products || !db.products[pid].isActive {
      return Failure(404, "Product not found");
    }
    var product := db.products[pid];
    if product.stock < q {
      return Failure(400, "Insufficient stock");
    }
    var cart := CartOf(db.carts, user);
    var items := cart.items;
    var k := LineIndex(items, pid);
    if k >= 0 {
      var newQty := items[k].quantity + q;
      if newQty > product.stock {
        return Failure(400, "Not enough stock");
      }
      items := items[k := items[k].(quantity := newQty)];
    } else {
      items := items + [CartItem(pid, q, LinePrice(product))];
    }
    if !ValidItems(items) {
      return Failure(500, CartValidationFailed);
    }
    if k >= 0 {
      SetQuantityKeepsInvariants(cart.items, k, items[k].quantity);
    } else {
      AppendKeepsInvariants(cart.items, items[|items| - 1]);
    }
    db.carts := db.carts[user := cart.(items := items)];
    reply := Success(200);
  }

  /**
   * PUT /api/cart/items/:productId. A negative quantity is refused; 0 removes the line;
   * a positive quantity replaces the line's quantity if the stock allows it.
   */
  method UpdateItem(db: Database, user: UserId, productId: ProductId, quantity: int)
    returns (reply: Reply)
    requires db.Valid()
    modifies db`carts
    ensures db.Valid()
    ensures reply.Failure? ==> db.carts == old(db.carts)
    ensures quantity < 0 ==> reply == Failure(400, "Invalid quantity")
    ensures quantity >= 0 && user !in old(db.carts) ==> reply == Failure(404, "Cart not found")
    ensures quantity >= 0 && user in old(db.carts) ==>
      var cart := old(db.carts)[user];
      var k := LineIndex(cart.items, productId);
      && (k == -1 ==> reply == Failure(404, "Item not in cart"))
      && (k >= 0 && quantity == 0 ==>
            reply == Success(200)
            && db.carts == old(db.carts)[user := cart.(items := cart.items[..k] + cart.items[k + 1..])])
      && (k >= 0 && quantity > 0 && productId !in db.products ==>
            reply == Failure(500, "Cannot read properties of null (reading 'stock')"))
      && (k >= 0 && quantity > 0 && productId in db.products && quantity > db.products[productId].stock ==>
            reply == Failure(400, "Not enough stock"))
      && (k >= 0 && quantity > 0 && productId in db.products && quantity <= db.products[productId].stock ==>
            reply == Success(200)
            && db.carts == old(db.carts)[user := cart.(items := cart.items[k := cart.items[k].(quantity := quantity)])])
  {
    if quantity < 0 {
      return Failure(400, "Invalid quantity");
    }
    if user !in db.carts {
      return Failure(404, "Cart not found");
    }
    var cart := db.carts[user];
    var k := LineIndex(cart.items, productId);
    if k == -1 {
      return Failure(404, "Item not in cart");
    }
    var items := cart.items;
    if quantity == 0 {
      items := items[..k] + items[k + 1..];
      SpliceKeepsInvariants(cart.items, k);
    } else {
      if productId !in db.products {
        return Failure(500, "Cannot read properties of null (reading 'stock')");
      }
      if quantity > db.products[productId].stock {
        return Failure(400, "Not enough stock");
      }
      items := items[k := items[k].(quantity := quantity)];
      SetQuantityKeepsInvariants(cart.items, k, quantity);
    }
    db.carts := db.carts[user := cart.(items := items)];
    reply := Success(200);
  }

  /** Filtering out one product keeps the line schema and one line per product. */
  lemma WithoutProductKeepsInvariants(items: seq<CartItem>, product: ProductId)
    requires ValidItems(items) && OneLinePerProduct(items)
    ensures ValidItems(WithoutProduct(items, product)) && OneLinePerProduct(WithoutProduct(items, product))
  {
    WithoutProductSplices(items, product);
    var k := LineIndex(items, product);
    if k >= 0 {
      SpliceKeepsInvariants(items, k);
    }
  }

  /** DELETE /api/cart/items/:productId: keeps the lines of every other product. */
  method RemoveItem(db: Database, user: UserId, productId: ProductId) returns (reply: Reply)
    requires db.Valid()
    modifies db`carts
    ensures db.Valid()
    ensures user !in old(db.carts) ==> reply == Failure(404, "Cart not found") && db.carts == old(db.carts)
    ensures user in old(db.carts) ==>
      reply == Success(200)
      && db.carts == old(db.carts)[user := old(db.carts)[user].(items := WithoutProduct(old(db.carts)[user].items, productId))]
  {
    if user !in db.carts {
      return Failure(404, "Cart not found");
    }
    var cart := db.carts[user];
    var items := WithoutProduct(cart.items, productId);
    WithoutProductKeepsInvariants(cart.items, productId);
    StoreCartKeepsWellFormed(db.carts, cart.(items := items));
    db.carts := db.carts[user := cart.(items := items)];
    reply := Success(200);
  }

  /**
   * DELETE /api/cart: the user's cart, if there is one, is left with no lines and
   * discount 0 (its coupon code is not touched); without a cart nothing is written.
   */
  method ClearCart(db: Database, user: UserId) returns (reply: Reply)
    requires db.Valid()
    modifies db`carts
    ensures db.Valid()
    ensures reply == Success(200)
    ensures user in old(db.carts) ==>
      db.carts == old(db.carts)[user := old(db.carts)[user].(items := [], discount := 0)]
    ensures user !in old(db.carts) ==> db.carts == old(db.carts)
  {
    if user in db.carts {
      db.carts := db.carts[user := db.carts[user].(items := [], discount := 0)];
    }
    reply := Success(200);
  }

  /** After clearing, the cart reads as empty: no lines and every virtual 0. */
  lemma ClearedCartView(carts: map<UserId, Cart>, user: UserId)
    requires user in carts
    ensures GetCart(carts[user := carts[user].(items := [], discount := 0)], user) == CartView([], 0, 0, 0)
  {
  }
}
