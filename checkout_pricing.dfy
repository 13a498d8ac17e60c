/**
 * The checkout price of `RazorpayPayment` (client/src/components/checkout/RazorpayPayment.tsx):
 * shipping for small carts, a one or five percent discount rounded half up, the total, and the
 * amounts and order lines handed to the order request and to the payment gateway.
 *
 * The cart total arrives as a whole number; the source's comment reads it as paisa.
 */
module CheckoutPricing {
  import opened Wrappers
  import opened JsBuiltins

  /** The product fields the checkout reads; `discountedPrice` may be absent. */
  datatype Product = Product(name: string, price: int, discountedPrice: Option<int>)

  datatype CartItem = CartItem(id: int, productId: int, product: Product, quantity: int)

  /** One entry of the order request's `items`. */
  datatype OrderLine = OrderLine(id: int, productId: int, name: string, price: int, quantity: int)

  /** The constants of lines 26-34. */
  datatype Pricing = Pricing(subtotal: int, shipping: int, discountPercentage: int,
                             discountAmount: int, total: int)

  /** What the checkout sends: the order request's amounts, method and lines, and the gateway amount. */
  datatype PaymentRequest = PaymentRequest(amount: int, totalAmount: int, paymentMethod: string,
                                           items: seq<OrderLine>, gatewayAmount: int)

  /** `subtotal > 0 && subtotal < 499 ? 99 : 0`. */
  function ShippingFor(subtotal: int): (shipping: int)
    ensures shipping == 99 <==> 0 < subtotal < 499
    ensures shipping == 0 <==> !(0 < subtotal < 499)
  {
    if subtotal > 0 && subtotal < 499 then 99 else 0
  }

  /** `subtotal >= 100000 ? 5 : 1`. */
  function DiscountPercentageFor(subtotal: int): (pct: int)
    ensures pct == 5 <==> subtotal >= 100000
    ensures pct == 1 <==> subtotal < 100000
  {
    if subtotal >= 100000 then 5 else 1
  }

  /** `Math.round((subtotal * discountPercentage) / 100)`. */
  function DiscountAmountFor(subtotal: int): (d: int)
    ensures 100 * d - 50 <= subtotal * DiscountPercentageFor(subtotal) < 100 * d + 50
  {
    var x := (subtotal * DiscountPercentageFor(subtotal)) as real / 100.0;
    var r := Round(x);
    assert r as real - 0.5 <= x < r as real + 0.5;
    r
  }

  /** The pricing of a cart whose total price is `subtotal`. */
  function PriceCart(subtotal: int): (p: Pricing)
    ensures p.subtotal == subtotal && p.shipping == ShippingFor(subtotal)
    ensures p.discountPercentage == DiscountPercentageFor(subtotal)
    ensures p.discountAmount == DiscountAmountFor(subtotal)
    ensures p.total == p.subtotal + p.shipping - p.discountAmount
  {
    var shipping := ShippingFor(subtotal);
    var discountPercentage := DiscountPercentageFor(subtotal);
    var discountAmount := DiscountAmountFor(subtotal);
    Pricing(subtotal, shipping, discountPercentage, discountAmount, subtotal + shipping - discountAmount)
  }

  /** The rounded discount never exceeds the cart and is never negative. */
  lemma DiscountWithinSubtotal(subtotal: int)
    requires subtotal >= 0
    ensures 0 <= DiscountAmountFor(subtotal) <= subtotal
  {
    var d, pct := DiscountAmountFor(subtotal), DiscountPercentageFor(subtotal);
    assert 0 <= subtotal * pct <= 5 * subtotal;
  }

  /**
   * The total of a cart is not negative, is at most the cart plus shipping, and an empty cart
   * costs nothing.
   */
  lemma TotalBounds(subtotal: int)
    requires subtotal >= 0
    ensures 0 <= PriceCart(subtotal).total <= subtotal + ShippingFor(subtotal)
    ensures subtotal == 0 ==> PriceCart(subtotal).total == 0
  {
    DiscountWithinSubtotal(subtotal);
  }

  /**
   * Crossing the five-percent threshold lowers the total: a cart of exactly 100000 pays 95000,
   * and every cart above 95960 but short of 100000 pays more than that.
   */
  lemma TotalDropsAtThreshold(subtotal: int)
    requires 95960 < subtotal < 100000
    ensures PriceCart(100000).total == 95000
    ensures PriceCart(subtotal).total > PriceCart(100000).total
  {
    var d, top := DiscountAmountFor(subtotal), DiscountAmountFor(100000);
    assert 100 * top - 50 <= 500000 < 100 * top + 50;
    assert 100 * d - 50 <= subtotal < 100 * d + 50;
    assert 100 * (subtotal - d) >= 99 * subtotal - 50;
  }

  /**
   * `item.product.discountedPrice || item.product.price`: an absent or zero discounted price
   * falls back to the price.
   */
  function ChargedPrice(p: Product): (price: int)
    ensures p.discountedPrice.Some? && p.discountedPrice.value != 0 ==> price == p.discountedPrice.value
    ensures p.discountedPrice.None? || p.discountedPrice.value == 0 ==> price == p.price
  {
    match p.discountedPrice
    case Some(d) => if d != 0 then d else p.price
    case None => p.price
  }

  /** `cartItems.map(...)`: one order line per cart item, in cart order. */
  function OrderLines(cartItems: seq<CartItem>): (lines: seq<OrderLine>)
    ensures |lines| == |cartItems|
    ensures forall i :: 0 <= i < |cartItems| ==>
      var c := cartItems[i];
      lines[i] == OrderLine(c.id, c.productId, c.product.name, ChargedPrice(c.product), c.quantity)
  {
    if cartItems == [] then []
    else
      var c := cartItems[0];
      [OrderLine(c.id, c.productId, c.product.name, ChargedPrice(c.product), c.quantity)]
      + OrderLines(cartItems[1..])
  }

  /**
   * The amounts the checkout hands on (lines 53, 61, 63, 65-71 and 77): the same total as the
   * order's `amount` and `totalAmount`, the method "razorpay", and a hundred times the total
   * for the gateway.
   */
  function PaymentRequestFor(cartItems: seq<CartItem>, totalPrice: int): (r: PaymentRequest)
    ensures r.amount == PriceCart(totalPrice).total && r.totalAmount == r.amount
    ensures r.paymentMethod == "razorpay" && r.items == OrderLines(cartItems)
    ensures r.gatewayAmount == 100 * r.amount
  {
    var total := PriceCart(totalPrice).total;
    PaymentRequest(total, total, "razorpay", OrderLines(cartItems), total * 100)
  }
}
