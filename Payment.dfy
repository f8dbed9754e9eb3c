/**
 * The payment page: its totals, the coupon field's state machine, the list
 * of offered coupons, and the order it posts. The coupon service's answer
 * is an input; its own validation is not part of this model.
 */
module Payment {
  import opened Wrappers
  import opened Strings
  import opened Sequences
  import opened Models
  import opened Catalog
  import opened Pricing
  import Coupon
  import OrderController

  datatype PaymentTotals = PaymentTotals(subtotal: int, discount: int, couponDiscount: int, shipping: int, total: int)

  function Totals(cart: seq<CartItem>, isPremium: bool, premiumExpiry: Option<int>, now: int, couponDiscount: int): (t: PaymentTotals)
    requires Priced(cart)
    ensures t.subtotal == Subtotal(cart) && t.discount == Discount(isPremium, premiumExpiry, now)
    ensures t.couponDiscount == couponDiscount && t.shipping == Shipping(t.subtotal)
    ensures t.total == t.subtotal - t.discount - couponDiscount + t.shipping
  {
    var s := Subtotal(cart);
    var d := Discount(isPremium, premiumExpiry, now);
    PaymentTotals(s, d, couponDiscount, Shipping(s), PaymentTotal(s, d, couponDiscount))
  }

  /** The coupon offers shown: only those of type public. */
  function PublicCoupons(coupons: seq<Coupon.Coupon>): (r: seq<Coupon.Coupon>)
    ensures IsSubsequence(r, coupons)
    ensures forall c :: c in r <==> c in coupons && c.couponType == Coupon.Public
  {
    Filter(coupons, (c: Coupon.Coupon) => c.couponType == Coupon.Public)
  }

  datatype AppliedCoupon = AppliedCoupon(code: string, discountAmount: int)

  /** The coupon service's answer: the percentage it grants, or a rejection with its message ("" when none). */
  datatype CouponReply = Granted(discountPct: int) | Rejected(message: string)

  const EnterCode := "Please enter a coupon code"
  const InvalidCode := "Invalid coupon code"

  /** The coupon field and what is applied; the fields `handleApplyCoupon` and `handleRemoveCoupon` set. */
  class CouponState {
    var coupon: string
    var couponApplied: bool
    var couponError: string
    var couponDiscount: int
    var appliedCoupon: Option<AppliedCoupon>
    var validatingCoupon: bool

    /** A coupon is applied exactly when one is recorded, and the discount is the recorded one (else 0). */
    ghost predicate Valid()
      reads this
    {
      (couponApplied <==> appliedCoupon.Some?)
      && (appliedCoupon.Some? ==> couponDiscount == appliedCoupon.value.discountAmount)
      && (appliedCoupon.None? ==> couponDiscount == 0)
      && !validatingCoupon
    }

    constructor ()
      ensures Valid()
      ensures coupon == "" && !couponApplied && couponError == "" && couponDiscount == 0 && appliedCoupon.None?
    {
      coupon := "";
      couponApplied := false;
      couponError := "";
      couponDiscount := 0;
      appliedCoupon := None;
      validatingCoupon := false;
    }

    /**
     * `handleApplyCoupon`. `request` is the code sent to the service (`None`
     * when nothing is sent) and `reply` its answer. With a coupon applied
     * nothing happens; a blank code only sets its message.
     */
    method Apply(subtotal: int, reply: CouponReply) returns (request: Option<string>)
      requires Valid()
      modifies this
      ensures Valid()
      ensures coupon == old(coupon)
      ensures old(couponApplied) ==>
        request.None? && couponApplied && couponError == old(couponError)
        && couponDiscount == old(couponDiscount) && appliedCoupon == old(appliedCoupon)
      ensures !old(couponApplied) && Trim(old(coupon)) == "" ==>
        request.None? && couponError == EnterCode
        && !couponApplied && couponDiscount == 0 && appliedCoupon.None?
      ensures !old(couponApplied) && Trim(old(coupon)) != "" ==> request == Some(Trim(old(coupon)))
      ensures !old(couponApplied) && Trim(old(coupon)) != "" && reply.Granted? ==>
        couponApplied && couponError == ""
        && appliedCoupon == Some(AppliedCoupon(Trim(old(coupon)), CouponReduction(subtotal, reply.discountPct)))
      ensures !old(couponApplied) && Trim(old(coupon)) != "" && reply.Rejected? ==>
        !couponApplied && couponDiscount == 0 && appliedCoupon.None?
        && couponError == (if reply.message != "" then reply.message else InvalidCode)
    {
      if couponApplied {
        return None;
      }
      var code := Trim(coupon);
      if code == "" {
        couponError := EnterCode;
        return None;
      }
      validatingCoupon := true;
      couponError := "";
      request := Some(code);
      match reply {
        case Granted(pct) =>
          var amount := CouponReduction(subtotal, pct);
          couponDiscount := amount;
          couponApplied := true;
          appliedCoupon := Some(AppliedCoupon(code, amount));
          couponError := "";
        case Rejected(message) =>
          couponError := if message != "" then message else InvalidCode;
          couponDiscount := 0;
          couponApplied := false;
          appliedCoupon := None;
      }
      validatingCoupon := false;
    }

    /** `handleRemoveCoupon`: every coupon field back to its initial value. */
    method Remove()
      modifies this
      ensures Valid()
      ensures coupon == "" && !couponApplied && couponError == "" && couponDiscount == 0 && appliedCoupon.None?
      ensures validatingCoupon == false
    {
      coupon := "";
      couponApplied := false;
      couponDiscount := 0;
      couponError := "";
      appliedCoupon := None;
      validatingCoupon := false;
    }
  }

  /** An order line as posted: the product's id, name, price and image with the line's quantity, size and colour. */
  function OrderLine(item: CartItem): (l: OrderItem)
    requires PricedLine(item)
    ensures l.product == item.product.value.id && l.name == item.product.value.name
    ensures l.quantity == item.quantity && l.size == item.size && l.color == item.color
    ensures l.price == item.product.value.price.value && l.image == item.product.value.image
  {
    var p := item.product.value;
    OrderItem(p.id, p.name, item.quantity, item.size, item.color, p.price.value, p.image)
  }

  function OrderLines(cart: seq<CartItem>): (r: seq<OrderItem>)
    requires Priced(cart)
    ensures |r| == |cart| && forall i :: 0 <= i < |cart| ==> r[i] == OrderLine(cart[i])
  {
    seq(|cart|, i requires 0 <= i < |cart| => OrderLine(cart[i]))
  }

  /** The posted lines price the cart exactly as the subtotal does. */
  lemma {:induction false} OrderLinesPriceSubtotal(cart: seq<CartItem>)
    requires Priced(cart)
    ensures Sum(OrderLines(cart), (l: OrderItem) => l.price * l.quantity) == Subtotal(cart)
    decreases |cart|
  {
    if |cart| > 0 {
      var init := cart[..|cart| - 1];
      var last := cart[|cart| - 1];
      assert cart == init + [last];
      assert Priced(init);
      OrderLinesPriceSubtotal(init);
      assert OrderLines(cart) == OrderLines(init) + [OrderLine(last)];
      SumAppend(OrderLines(init), [OrderLine(last)], (l: OrderItem) => l.price * l.quantity);
      SubtotalAppend(init, last);
    }
  }

  /**
   * `createOrder`'s body. The total uses the page's payment method while the
   * status uses the type passed in; `handlePlaceOrder` passes the same
   * method. The posted payment info carries no original price (0).
   */
  function OrderPayload(cart: seq<CartItem>, selectedAddress: string, paymentMethod: string, paymentType: string,
                        total: int): (r: OrderController.CreateOrderRequest)
    requires Priced(cart)
    ensures r.orderItems == OrderLines(cart) && r.shippingAddress == selectedAddress
    ensures r.paymentInfo == PaymentInfo(paymentType, PaymentStatus(paymentType), 0)
    ensures r.totalPrice == FinalTotal(total, paymentMethod)
  {
    OrderController.CreateOrderRequest(OrderLines(cart), selectedAddress,
      PaymentInfo(paymentType, PaymentStatus(paymentType), 0), FinalTotal(total, paymentMethod))
  }

  /** Cash on delivery posts the total plus 50 with a pending payment; any other method posts the total as paid. */
  lemma CodPayload(cart: seq<CartItem>, address: string, total: int)
    requires Priced(cart)
    ensures OrderPayload(cart, address, "cod", "cod", total).totalPrice == total + 50
    ensures OrderPayload(cart, address, "cod", "cod", total).paymentInfo.status == "Pending"
    ensures OrderPayload(cart, address, "razorpay", "razorpay", total).totalPrice == total
    ensures OrderPayload(cart, address, "razorpay", "razorpay", total).paymentInfo.status == "Paid"
  {
  }
}
