/**
 * The client-side price arithmetic shared by the cart, checkout and payment
 * pages: the subtotal, the flat premium discount, the shipping fee, the
 * totals, the percentage coupon reduction with `Math.round`, and the cash on
 * delivery surcharge. Amounts are whole rupees.
 */
module Pricing {
  import opened Wrappers
  import opened Sequences
  import opened Catalog

  const PremiumDiscount := 250
  const ShippingFee := 100
  const CodFee := 50

  /** The cart page's reduce step: a line without a product or without a numeric price adds nothing. */
  function LineAmount(item: CartItem): int {
    if item.product.None? || item.product.value.price.None? then 0
    else item.product.value.price.value * item.quantity
  }

  /** A line the checkout and payment pages can price: it has a product with a numeric price. */
  predicate PricedLine(item: CartItem) {
    item.product.Some? && item.product.value.price.Some?
  }

  /** Every line can be priced; the checkout and payment pages dereference `item.product.price` unguarded. */
  predicate Priced(cart: seq<CartItem>) {
    forall i :: 0 <= i < |cart| ==> PricedLine(cart[i])
  }

  /** `Σ price × quantity` over the lines that carry a price. */
  function Subtotal(cart: seq<CartItem>): int {
    Sum(cart, LineAmount)
  }

  /** Adding a line adds exactly its amount. */
  lemma SubtotalAppend(cart: seq<CartItem>, item: CartItem)
    ensures Subtotal(cart + [item]) == Subtotal(cart) + LineAmount(item)
    ensures !PricedLine(item) ==> Subtotal(cart + [item]) == Subtotal(cart)
    ensures PricedLine(item) ==> Subtotal(cart + [item]) == Subtotal(cart) + item.product.value.price.value * item.quantity
  {
    SumAppend(cart, [item], LineAmount);
    assert Sum([item], LineAmount) == LineAmount(item) + Sum([], LineAmount);
  }

  /** With non-negative prices and quantities the subtotal is non-negative. */
  lemma SubtotalNonNegative(cart: seq<CartItem>)
    requires forall i :: 0 <= i < |cart| ==> LineAmount(cart[i]) >= 0
    ensures Subtotal(cart) >= 0
  {
    SumNonNegative(cart, LineAmount);
  }

  /** The premium flag is set and its expiry lies after `now`; a missing expiry never does. */
  predicate PremiumActive(isPremium: bool, premiumExpiry: Option<int>, now: int) {
    isPremium && premiumExpiry.Some? && premiumExpiry.value > now
  }

  function Discount(isPremium: bool, premiumExpiry: Option<int>, now: int): (r: int)
    ensures r == PremiumDiscount <==> PremiumActive(isPremium, premiumExpiry, now)
    ensures r == 0 <==> !PremiumActive(isPremium, premiumExpiry, now)
  {
    if PremiumActive(isPremium, premiumExpiry, now) then PremiumDiscount else 0
  }

  function Shipping(subtotal: int): (r: int)
    ensures r == ShippingFee <==> subtotal > 0
    ensures r == 0 <==> subtotal <= 0
  {
    if subtotal > 0 then ShippingFee else 0
  }

  /** The cart and checkout total; nothing clamps it at zero. */
  function CartTotal(subtotal: int, discount: int): (r: int)
    ensures r + discount == subtotal + Shipping(subtotal)
  {
    subtotal - discount + Shipping(subtotal)
  }

  /** A small premium cart gets a negative total. */
  lemma TotalNotClamped()
    ensures CartTotal(100, Discount(true, Some(10), 0)) == -50
  {
  }

  /** The payment page's total, with the coupon reduction. */
  function PaymentTotal(subtotal: int, discount: int, couponDiscount: int): (r: int)
    ensures r == CartTotal(subtotal, discount) - couponDiscount
  {
    subtotal - discount - couponDiscount + Shipping(subtotal)
  }

  /** `Math.round(subtotal * pct / 100)`. */
  function CouponReduction(subtotal: int, pct: int): int {
    (subtotal * pct + 50) / 100
  }

  /** The reduction is the integer nearest to `subtotal * pct / 100`, halves rounded up. */
  lemma CouponReductionRounds(subtotal: int, pct: int)
    ensures 100 * CouponReduction(subtotal, pct) - 50 <= subtotal * pct < 100 * CouponReduction(subtotal, pct) + 50
  {
  }

  /** The rounding is determined: only one integer lies that close. */
  lemma CouponReductionUnique(subtotal: int, pct: int, r: int)
    requires 100 * r - 50 <= subtotal * pct < 100 * r + 50
    ensures r == CouponReduction(subtotal, pct)
  {
    CouponReductionRounds(subtotal, pct);
  }

  /** A percentage between 0 and 100 never reduces by more than the subtotal. */
  lemma CouponReductionBounds(subtotal: int, pct: int)
    requires subtotal >= 0 && 0 <= pct <= 100
    ensures 0 <= CouponReduction(subtotal, pct) <= subtotal
  {
    assert 0 <= subtotal * pct <= subtotal * 100;
    CouponReductionRounds(subtotal, pct);
  }

  /** `paymentMethod === "cod" ? total + 50 : total`. */
  function FinalTotal(total: int, paymentMethod: string): (r: int)
    ensures paymentMethod == "cod" ==> r == total + CodFee
    ensures paymentMethod != "cod" ==> r == total
  {
    if paymentMethod == "cod" then total + CodFee else total
  }

  /** The payment status the client reports: pending for cash on delivery, paid otherwise. */
  function PaymentStatus(paymentType: string): (r: string)
    ensures r == "Pending" <==> paymentType == "cod"
    ensures r == "Paid" <==> paymentType != "cod"
  {
    if paymentType == "cod" then "Pending" else "Paid"
  }
}
