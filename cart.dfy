/**
 * The cart document: one per user, a list of lines {product, quantity, price}, an
 * optional coupon code and a discount; and its three virtuals `subtotal`, `total`
 * and `itemCount`. Money is in cents, so `toFixed(2)` of a sum of cents is exact.
 */
module CartModel {
  import opened Common

  datatype CartItem = CartItem(product: ProductId, quantity: int, price: int)

  datatype Cart = Cart(user: UserId, items: seq<CartItem>, couponCode: Option<string>, discount: int)

  /** A new cart: no lines, no coupon, discount 0 (the schema default). */
  function NewCart(user: UserId): (c: Cart)
    ensures c.user == user && c.items == [] && c.discount == 0 && c.couponCode.None?
  {
    Cart(user, [], None, 0)
  }

  /** The line schema: a quantity of at least 1. */
  predicate ValidItems(items: seq<CartItem>)
  {
    forall i :: 0 <= i < |items| ==> items[i].quantity >= 1
  }

  /** The invariant the cart routes keep: no product appears on two lines. */
  predicate OneLinePerProduct(items: seq<CartItem>)
  {
    forall i, j :: 0 <= i < j < |items| ==> items[i].product != items[j].product
  }

  /** `subtotal`: the sum of price x quantity over the lines, in cents. */
  function Subtotal(items: seq<CartItem>): int
  {
    if items == [] then 0
    else Subtotal(items[..|items| - 1]) + items[|items| - 1].price * items[|items| - 1].quantity
  }

  /** `itemCount`: the sum of the line quantities. */
  function ItemCount(items: seq<CartItem>): int
  {
    if items == [] then 0 else ItemCount(items[..|items| - 1]) + items[|items| - 1].quantity
  }

  /** `total`: the subtotal less the cart discount. */
  function Total(c: Cart): int
  {
    Subtotal(c.items) - c.discount
  }

  /** Subtotal and item count are additive over a split of the lines. */
  lemma {:induction false} SumsAppend(a: seq<CartItem>, b: seq<CartItem>)
    ensures Subtotal(a + b) == Subtotal(a) + Subtotal(b)
    ensures ItemCount(a + b) == ItemCount(a) + ItemCount(b)
    decreases |b|
  {
    if b == [] {
      assert a + b == a;
    } else {
      assert (a + b)[..|a + b| - 1] == a + b[..|b| - 1];
      SumsAppend(a, b[..|b| - 1]);
    }
  }

  /** Every line counts at least once, so `itemCount` is at least the number of lines. */
  lemma {:induction false} ItemCountAtLeastLines(items: seq<CartItem>)
    requires ValidItems(items)
    ensures ItemCount(items) >= |items|
  {
    if items != [] {
      ItemCountAtLeastLines(items[..|items| - 1]);
    }
  }

  /** Lines with non-negative prices give a non-negative subtotal. */
  lemma {:induction false} SubtotalNonNegative(items: seq<CartItem>)
    requires ValidItems(items)
    requires forall i :: 0 <= i < |items| ==> items[i].price >= 0
    ensures Subtotal(items) >= 0
  {
    if items != [] {
      SubtotalNonNegative(items[..|items| - 1]);
    }
  }

  /** The sums of a single line. */
  lemma SingleLine(x: CartItem)
    ensures Subtotal([x]) == x.price * x.quantity && ItemCount([x]) == x.quantity
  {
    assert [x][..0] == [];
  }

  lemma Distribute(a: int, b: int, c: int)
    ensures a * b == a * c + a * (b - c)
  {
  }

  /** Both sums split around line k. */
  lemma SplitAt(items: seq<CartItem>, k: nat)
    requires k < |items|
    ensures Subtotal(items) == Subtotal(items[..k]) + items[k].price * items[k].quantity + Subtotal(items[k + 1..])
    ensures ItemCount(items) == ItemCount(items[..k]) + items[k].quantity + ItemCount(items[k + 1..])
  {
    var pre, x, post := items[..k], items[k], items[k + 1..];
    assert items == (pre + [x]) + post;
    SumsAppend(pre + [x], post);
    SumsAppend(pre, [x]);
    SingleLine(x);
  }

  /** Changing one line's quantity moves the two sums by exactly that line's difference. */
  lemma SetQuantityEffect(items: seq<CartItem>, k: nat, q: int)
    requires k < |items|
    ensures Subtotal(items[k := items[k].(quantity := q)])
         == Subtotal(items) + items[k].price * (q - items[k].quantity)
    ensures ItemCount(items[k := items[k].(quantity := q)]) == ItemCount(items) + q - items[k].quantity
  {
    var x := items[k];
    var changed := items[k := x.(quantity := q)];
    assert changed[..k] == items[..k] && changed[k + 1..] == items[k + 1..];
    SplitAt(items, k);
    SplitAt(changed, k);
    Distribute(x.price, q, x.quantity);
  }

  /** Removing one line removes exactly its contribution to both sums. */
  lemma RemoveLineEffect(items: seq<CartItem>, k: nat)
    requires k < |items|
    ensures Subtotal(items[..k] + items[k + 1..]) == Subtotal(items) - items[k].price * items[k].quantity
    ensures ItemCount(items[..k] + items[k + 1..]) == ItemCount(items) - items[k].quantity
  {
    SplitAt(items, k);
    SumsAppend(items[..k], items[k + 1..]);
  }
}
