/**
 * Whole-checkout walks from the cart to the stored order, built from the
 * page and handler models: cash on delivery on a plain cart, and a member
 * who is both premium and subscribed.
 */
module Scenarios {
  import opened Wrappers
  import opened Catalog
  import opened Models
  import opened Pricing
  import Payment
  import OrderController

  const Tee := Product("p1", "Tee", Some(1000), "tee.png", [], "", "T-shirts", "", "", "men", "", None, None, 0, 0, 10)
  const OneTee := [CartItem(Some(Tee), 1, "M", "black")]

  /** A 1000 cart without premium or coupon: 100 shipping, then 50 for cash on delivery, 1150 in all, still to be paid. */
  lemma CashOnDeliveryCart(now: int)
    ensures Payment.Totals(OneTee, false, None, now, 0).total == 1100
    ensures Payment.OrderPayload(OneTee, "addr1", "cod", "cod", 1100).totalPrice == 1150
    ensures Payment.OrderPayload(OneTee, "addr1", "cod", "cod", 1100).paymentInfo.status == "Pending"
  {
    SubtotalAppend([], OneTee[0]);
    assert [] + [OneTee[0]] == OneTee;
  }

  /** A member who is premium and subscribed, with a 250 subscription cost and an expiry after `now`. */
  function Member(now: int): User {
    User("u1", "Asha", "asha@example.com", "9876543210", "", "", [], Some(Subscription(true, Some(now + 1), 250)), [])
  }

  /**
   * The 250 comes off twice: the payment page deducts the flat premium
   * discount from the 1000 cart (850 with shipping), and the order handler
   * deducts the subscription cost again, storing 600.
   */
  lemma DiscountAppliedTwice(now: int)
    ensures Payment.Totals(OneTee, true, Some(now + 1), now, 0).total == 850
    ensures OrderController.FinalPrice([Member(now)], "u1", 850, now) == 600
  {
    CashOnDeliveryCart(now);
    assert OrderController.SubscriptionActive([Member(now)], "u1", now);
  }

  /**
   * The payment page posts no original price, and the handler stores none,
   * so the order history reports that stored order with no subscription
   * discount, although 250 was taken off on the server.
   */
  lemma HistoryShowsNoDiscount(o: Order, now: int)
    requires o.paymentInfo == Payment.OrderPayload(OneTee, "addr1", "razorpay", "razorpay", 850).paymentInfo
    requires o.docOriginalPrice == 0
    ensures OrderController.Summarize(o).subscriptionDiscount == 0
    ensures OrderController.Summarize(o).originalPrice == o.totalPrice
  {
  }
}
