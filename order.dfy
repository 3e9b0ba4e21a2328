/**
 * The order document: its line items, the status and payment-method enumerations,
 * the required shipping address, and the pre-save hook that assigns an order number
 * `ORD-<YY><MM>-<5 digits>` when the order has none.
 */
module OrderModel {
  import opened Common
  import opened Strings

  /** The seven statuses the schema's enum allows, in declaration order. */
  const Statuses: seq<string> := ["pending", "confirmed", "processing", "shipped", "delivered", "cancelled", "refunded"]

  /** The schema default for `status`. */
  const DefaultStatus: string := "pending"

  /** The three payment methods the schema's enum allows. */
  const PaymentMethods: seq<string> := ["stripe", "paypal", "cod"]

  datatype Address = Address(street: string, city: string, state: string, zipCode: string, country: string)

  /** Every address field is required, and a required string must not be empty. */
  predicate AddressComplete(a: Address)
  {
    a.street != "" && a.city != "" && a.state != "" && a.zipCode != "" && a.country != ""
  }

  datatype OrderItem = OrderItem(product: ProductId, name: string, image: Option<string>, price: int, quantity: int)

  datatype Order = Order(
    user: UserId,
    orderNumber: string,        // "" until the pre-save hook has run
    items: seq<OrderItem>,
    shippingAddress: Address,
    paymentMethod: string,
    subtotal: int,              // cents
    shippingCost: int,          // cents
    taxAmount: int,             // cents
    totalAmount: int,           // cents
    status: string,
    isPaid: bool,
    paidAt: Option<int>,
    isDelivered: bool,
    deliveredAt: Option<int>,
    trackingNumber: Option<string>)

  /** The validators `Order.create` runs: enums, required address fields, item quantity >= 1. */
  predicate PassesValidation(o: Order)
  {
    && o.paymentMethod in PaymentMethods
    && o.status in Statuses
    && AddressComplete(o.shippingAddress)
    && forall i :: 0 <= i < |o.items| ==> o.items[i].quantity >= 1
  }

  /** A fresh status is `pending`, one of the seven allowed. */
  lemma DefaultStatusAllowed()
    ensures DefaultStatus in Statuses && DefaultStatus == Statuses[0]
  {
  }

  /** `Math.floor(random * 100000)` for a draw `random` in [0, 1). */
  function RandomSuffix(random: real): (k: nat)
    requires 0.0 <= random < 1.0
    ensures k < 100000
  {
    assert 0.0 <= random * 100000.0 < 100000.0;
    (random * 100000.0).Floor
  }

  /**
   * The generated number from the clock and one random draw: the last two digits of
   * the year, the month (getMonth() + 1) padded to two digits, and the random suffix
   * padded to five digits.
   */
  function OrderNumber(year: nat, monthIndex: nat, random: real): string
    requires monthIndex < 12
    requires 0.0 <= random < 1.0
  {
    "ORD-" + Last(NatToString(year), 2) + PadStart(NatToString(monthIndex + 1), 2, '0')
      + "-" + PadStart(NatToString(RandomSuffix(random)), 5, '0')
  }

  /** The pre-save hook: a number is generated only when the order has none. */
  function PreSave(o: Order, year: nat, monthIndex: nat, random: real): (r: Order)
    requires monthIndex < 12
    requires 0.0 <= random < 1.0
    ensures o.orderNumber != "" ==> r == o
    ensures o.orderNumber == "" ==> r == o.(orderNumber := OrderNumber(year, monthIndex, random)) && r.orderNumber != ""
  {
    if o.orderNumber == "" then
      OrderNumberFixedParts(year, monthIndex, random);
      o.(orderNumber := OrderNumber(year, monthIndex, random))
    else o
  }

  /** Saving twice keeps the number assigned by the first save. */
  lemma PreSaveIdempotent(o: Order, y1: nat, m1: nat, r1: real, y2: nat, m2: nat, r2: real)
    requires m1 < 12 && m2 < 12 && 0.0 <= r1 < 1.0 && 0.0 <= r2 < 1.0
    ensures PreSave(PreSave(o, y1, m1, r1), y2, m2, r2) == PreSave(o, y1, m1, r1)
  {
  }

  lemma OrderNumberFixedParts(year: nat, monthIndex: nat, random: real)
    requires monthIndex < 12
    requires 0.0 <= random < 1.0
    ensures |OrderNumber(year, monthIndex, random)| >= 9
  {
    assert |PadStart(NatToString(RandomSuffix(random)), 5, '0')| >= 5;
  }

  /** The last character of a numeral is its units digit. */
  lemma UnitsDigit(n: nat)
    ensures NatToString(n)[|NatToString(n)| - 1] == DigitChar(n % 10)
  {
  }

  lemma TwoDigitsValue(a: nat, b: nat)
    requires a < 10 && b < 10
    ensures DigitsValue([DigitChar(a), DigitChar(b)]) == 10 * a + b
  {
    var s := [DigitChar(a), DigitChar(b)];
    assert s[..1] == [DigitChar(a)];
    assert [DigitChar(a)][..0] == [];
    DigitRoundTrip(a);
    DigitRoundTrip(b);
    assert DigitsValue([DigitChar(a)]) == a;
    assert DigitsValue(s) == 10 * DigitsValue(s[..1]) + DigitValue(s[1]);
  }

  /** n modulo 100 is ten times its tens digit plus its units digit. */
  lemma TensAndUnits(n: nat)
    ensures n % 100 == 10 * ((n / 10) % 10) + n % 10
  {
    var q := n / 10;
    assert n == 10 * q + n % 10;
    assert q == 10 * (q / 10) + q % 10;
    assert n == 100 * (q / 10) + (10 * (q % 10) + n % 10);
    ModUnique(n, q / 10, 10 * (q % 10) + n % 10);
  }

  /** The last two digits of a numeral of at least two digits are its value modulo 100. */
  lemma LastTwoDigits(n: nat)
    requires n >= 10
    ensures |Last(NatToString(n), 2)| == 2 && AllDigits(Last(NatToString(n), 2))
    ensures DigitsValue(Last(NatToString(n), 2)) == n % 100
  {
    var s := NatToString(n);
    var t := NatToString(n / 10);
    assert s == t + [DigitChar(n % 10)];
    UnitsDigit(n / 10);
    var l := Last(s, 2);
    assert l == [DigitChar((n / 10) % 10), DigitChar(n % 10)];
    TwoDigitsValue((n / 10) % 10, n % 10);
    TensAndUnits(n);
  }

  lemma ModUnique(n: nat, a: nat, b: nat)
    requires n == 100 * a + b && b < 100
    ensures n % 100 == b
  {
  }

  /** A number below 10^w, printed and zero-padded to w, has exactly w digits and reads back. */
  lemma PaddedNumeral(n: nat, w: nat)
    requires w >= 1 && n < Pow10(w)
    ensures |PadStart(NatToString(n), w, '0')| == w
    ensures AllDigits(PadStart(NatToString(n), w, '0'))
    ensures DigitsValue(PadStart(NatToString(n), w, '0')) == n
  {
    NatToStringLength(n, w);
    PaddedValue(n, w);
  }

  /** Where the parts of "ORD-" + yy + mm + "-" + rr sit. */
  lemma NumberLayout(yy: string, mm: string, rr: string)
    requires |yy| == 2 && |mm| == 2 && |rr| == 5
    requires AllDigits(yy) && AllDigits(mm) && AllDigits(rr)
    ensures var n := "ORD-" + yy + mm + "-" + rr;
      && |n| == 14 && n[..4] == "ORD-" && n[8] == '-'
      && AllDigits(n[4..8]) && AllDigits(n[9..])
      && DigitsValue(n[4..6]) == DigitsValue(yy)
      && DigitsValue(n[6..8]) == DigitsValue(mm)
      && DigitsValue(n[9..]) == DigitsValue(rr)
  {
    var n := "ORD-" + yy + mm + "-" + rr;
    assert n[4..6] == yy && n[6..8] == mm && n[4..8] == yy + mm && n[9..] == rr;
  }

  lemma Pow10Values()
    ensures Pow10(2) == 100 && Pow10(5) == 100000
  {
    assert Pow10(3) == 1000;
  }

  /**
   * For any year from 10 on, the number has 14 characters: "ORD-", two year digits,
   * two month digits, "-" and five digits; and the digit groups read back as the year
   * modulo 100, the month number 1..12 and the random suffix 0..99999.
   */
  lemma OrderNumberFormat(year: nat, monthIndex: nat, random: real)
    requires year >= 10 && monthIndex < 12
    requires 0.0 <= random < 1.0
    ensures var n := OrderNumber(year, monthIndex, random);
      && |n| == 14
      && n[..4] == "ORD-" && n[8] == '-'
      && AllDigits(n[4..8]) && AllDigits(n[9..])
      && DigitsValue(n[4..6]) == year % 100
      && DigitsValue(n[6..8]) == monthIndex + 1
      && DigitsValue(n[9..]) == RandomSuffix(random)
  {
    var yy := Last(NatToString(year), 2);
    var mm := PadStart(NatToString(monthIndex + 1), 2, '0');
    var rr := PadStart(NatToString(RandomSuffix(random)), 5, '0');
    LastTwoDigits(year);
    Pow10Values();
    PaddedNumeral(monthIndex + 1, 2);
    PaddedNumeral(RandomSuffix(random), 5);
    NumberLayout(yy, mm, rr);
    assert OrderNumber(year, monthIndex, random) == "ORD-" + yy + mm + "-" + rr;
  }

  /** Two generated numbers are equal only if year (mod 100), month and draw are equal. */
  lemma OrderNumberInjective(y1: nat, m1: nat, r1: real, y2: nat, m2: nat, r2: real)
    requires y1 >= 10 && y2 >= 10 && m1 < 12 && m2 < 12
    requires 0.0 <= r1 < 1.0 && 0.0 <= r2 < 1.0
    requires OrderNumber(y1, m1, r1) == OrderNumber(y2, m2, r2)
    ensures y1 % 100 == y2 % 100 && m1 == m2
    ensures RandomSuffix(r1) == RandomSuffix(r2)
  {
    OrderNumberFormat(y1, m1, r1);
    OrderNumberFormat(y2, m2, r2);
  }
}
