/**
 * The three collections the routes read and write, held in memory: products by id,
 * carts by user (the unique index on a cart's `user` makes this a map), and orders
 * in insertion order (an order's id is its position).
 */
module Store {
  import opened Common
  import opened ProductModel
  import opened CartModel
  import opened OrderModel

  /** Every stored cart belongs to the user it is stored under and keeps the line invariants. */
  predicate CartsWellFormed(carts: map<UserId, Cart>)
  {
    forall u :: u in carts ==>
      carts[u].user == u && ValidItems(carts[u].items) && OneLinePerProduct(carts[u].items)
  }

  /** Storing a well-formed cart under its own user keeps the collection well formed. */
  lemma StoreCartKeepsWellFormed(carts: map<UserId, Cart>, cart: Cart)
    requires CartsWellFormed(carts)
    requires ValidItems(cart.items) && OneLinePerProduct(cart.items)
    ensures CartsWellFormed(carts[cart.user := cart])
  {
  }

  /** Every stored product satisfies the schema's numeric constraints. */
  predicate ProductsValid(products: map<ProductId, Product>)
  {
    forall id :: id in products ==> ValidProduct(products[id])
  }

  class Database {
    var products: map<ProductId, Product>
    var carts: map<UserId, Cart>
    var orders: seq<Order>

    ghost predicate Valid()
      reads this
    {
      ProductsValid(products) && CartsWellFormed(carts)
    }

    constructor (products: map<ProductId, Product>)
      requires ProductsValid(products)
      ensures Valid()
      ensures this.products == products && carts == map[] && orders == []
    {
      this.products := products;
      carts := map[];
      orders := [];
    }
  }
}
