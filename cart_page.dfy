/**
 * The cart page of the web client: the empty-cart state, the order summary it prices
 * with its own copy of the shipping and tax constants, the free-shipping hint, and
 * when the quantity buttons are disabled. Amounts are in cents.
 */
module CartPage {
  import opened Common
  import opened Money
  import opened CartModel
  import opened CartRoutes
  import opened OrderRoutes

  const ClientTaxPercent: nat := 8
  const ClientFreeShipping: int := 7500
  const ClientShipping: int := 999

  datatype Summary = Summary(subtotal: int, shipping: int, tax: int, total: int)

  /** Lines 27-30: shipping, tax on subtotal plus shipping, and the total; the cart discount is not used. */
  function ClientSummary(subtotal: int): (s: Summary)
    ensures s.subtotal == subtotal
    ensures s.shipping == 0 <==> subtotal >= ClientFreeShipping
    ensures s.shipping != 0 ==> s.shipping == ClientShipping
    ensures s.tax == Round((subtotal + s.shipping) * ClientTaxPercent, 100)
    ensures s.total == subtotal + s.shipping + s.tax
  {
    var shipping := if subtotal >= ClientFreeShipping then 0 else ClientShipping;
    var tax := Round((subtotal + shipping) * ClientTaxPercent, 100);
    Summary(subtotal, shipping, tax, subtotal + shipping + tax)
  }

  /** What the page renders: the empty-cart state, or the lines with the summary. */
  datatype PageView = EmptyCart | CartSummary(items: seq<CartItem>, summary: Summary, itemCount: int)

  function RenderCart(v: CartView): (r: PageView)
    ensures r.EmptyCart? <==> v.items == []
    ensures r.CartSummary? ==> r.summary == ClientSummary(v.subtotal) && r.items == v.items
  {
    if v.items == [] then EmptyCart else CartSummary(v.items, ClientSummary(v.subtotal), v.itemCount)
  }

  /**
   * For a cart without a discount, the summary the page shows for it is the pricing the
   * server stores on the order placed from it: same shipping, tax and total.
   */
  lemma SummaryMatchesOrder(carts: map<UserId, Cart>, user: UserId)
    requires user in carts && carts[user].discount == 0 && carts[user].items != []
    ensures var page := RenderCart(GetCart(carts, user));
      var order := PriceCart(carts[user]);
      && page.CartSummary?
      && page.summary.subtotal == order.subtotal
      && page.summary.shipping == order.shippingCost
      && page.summary.tax == order.taxAmount
      && page.summary.total == order.totalAmount
  {
  }

  /** With a discount, the page's total is the order total plus the discount: the page leaves it out. */
  lemma SummaryOmitsDiscount(carts: map<UserId, Cart>, user: UserId)
    requires user in carts && carts[user].items != []
    ensures RenderCart(GetCart(carts, user)).summary.total == PriceCart(carts[user]).totalAmount + carts[user].discount
  {
  }

  /** "Add $X more for free shipping": shown only while shipping is charged. */
  function FreeShippingHint(subtotal: int): (r: Option<int>)
    ensures r.Some? <==> ClientSummary(subtotal).shipping > 0
    ensures r.Some? ==> r.value == ClientFreeShipping - subtotal && r.value > 0
  {
    if ClientSummary(subtotal).shipping > 0 then Some(ClientFreeShipping - subtotal) else None
  }

  /** Adding the hinted amount is exactly enough for free shipping. */
  lemma HintReachesFreeShipping(subtotal: int)
    requires FreeShippingHint(subtotal).Some?
    ensures ClientSummary(subtotal + FreeShippingHint(subtotal).value).shipping == 0
    ensures ClientSummary(subtotal + FreeShippingHint(subtotal).value - 1).shipping != 0
  {
  }

  /** `item.product?.stock || 99`: a missing product or a stock of 0 falls back to 99. */
  function StockCap(stock: Option<int>): int
  {
    if stock.None? || stock.value == 0 then 99 else stock.value
  }

  predicate MinusDisabled(loading: bool, quantity: int) { loading || quantity <= 1 }

  predicate PlusDisabled(loading: bool, quantity: int, stock: Option<int>)
  {
    loading || quantity >= StockCap(stock)
  }

  /**
   * An enabled minus button asks for a quantity of at least 1, so it never removes the
   * line; an enabled plus button on a product in stock asks for no more than the stock,
   * which the update route accepts.
   */
  lemma ButtonsRequestValidQuantities(quantity: int, stock: int)
    ensures !MinusDisabled(false, quantity) ==> quantity - 1 >= 1
    ensures stock > 0 && !PlusDisabled(false, quantity, Some(stock)) ==> quantity + 1 <= stock
    ensures stock > 0 ==> (PlusDisabled(false, quantity, Some(stock)) <==> quantity >= stock)
  {
  }

  /** Out of stock, the plus button stays enabled below 99: the cap falls back to 99. */
  lemma OutOfStockFallsBackTo99(quantity: int)
    ensures !PlusDisabled(false, quantity, Some(0)) <==> quantity < 99
  {
  }

  /** While a request is in flight, both buttons are disabled. */
  lemma LoadingDisablesButtons(quantity: int, stock: Option<int>)
    ensures MinusDisabled(true, quantity) && PlusDisabled(true, quantity, stock)
  {
  }
}
