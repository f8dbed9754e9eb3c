/**
 * The order handlers of the backend: placing an order (with the
 * subscription price reduction), a customer's order list with its derived
 * discount fields, a customer's single order, and the admin status update.
 *
 * Status codes are the conventional HTTP values (400, 404); the constants
 * file that names them is not part of this model.
 */
module OrderController {
  import opened Wrappers
  import opened Models
  import opened EmailService
  import opened Sequences

  /** The body of `POST /api/orders`; missing items are the empty list, a missing address is "". */
  datatype CreateOrderRequest = CreateOrderRequest(
    orderItems: seq<OrderItem>,
    shippingAddress: string,
    paymentInfo: PaymentInfo,
    totalPrice: int)

  /** The request checks of `createOrder`, items first. */
  function ValidateCreateOrder(req: CreateOrderRequest): (r: Option<ApiError>)
    ensures r == Some(ApiError(400, "No order items")) <==> |req.orderItems| == 0
    ensures r == Some(ApiError(400, "Shipping address required")) <==> |req.orderItems| > 0 && req.shippingAddress == ""
    ensures r.None? <==> |req.orderItems| > 0 && req.shippingAddress != ""
  {
    if |req.orderItems| == 0 then Some(ApiError(400, "No order items"))
    else if req.shippingAddress == "" then Some(ApiError(400, "Shipping address required"))
    else None
  }

  /** The caller exists, has a subscription, is subscribed, and the expiry lies after `now`. */
  predicate SubscriptionActive(users: seq<User>, userId: string, now: int) {
    var k := FindUser(users, userId);
    k >= 0 && users[k].subscription.Some? && users[k].subscription.value.isSubscribed
    && users[k].subscription.value.subscriptionExpiry.Some?
    && users[k].subscription.value.subscriptionExpiry.value > now
  }

  function SubscriptionCost(users: seq<User>, userId: string): int
    requires FindUser(users, userId) >= 0
    requires users[FindUser(users, userId)].subscription.Some?
  {
    users[FindUser(users, userId)].subscription.value.subscriptionCost
  }

  /** The stored total: the client's total, reduced by the subscription cost for an active subscriber but not below zero. */
  function FinalPrice(users: seq<User>, userId: string, totalPrice: int, now: int): (r: int)
    ensures !SubscriptionActive(users, userId, now) ==> r == totalPrice
    ensures SubscriptionActive(users, userId, now) ==>
      r >= 0 && r >= totalPrice - SubscriptionCost(users, userId)
      && (r == 0 || r == totalPrice - SubscriptionCost(users, userId))
  {
    if SubscriptionActive(users, userId, now) then
      var reduced := totalPrice - SubscriptionCost(users, userId);
      if reduced < 0 then 0 else reduced
    else totalPrice
  }

  /** With a non-negative cost the reduction never raises the price, and it never makes it negative. */
  lemma FinalPriceBounds(users: seq<User>, userId: string, totalPrice: int, now: int)
    requires totalPrice >= 0
    requires SubscriptionActive(users, userId, now) ==> SubscriptionCost(users, userId) >= 0
    ensures 0 <= FinalPrice(users, userId, totalPrice, now) <= totalPrice
  {
  }

  /** The confirmation mail goes out only when the owning user has an email address. */
  function ConfirmationMail(users: seq<User>, userId: string, orderId: string): (m: Option<Mail>)
    ensures m.Some? <==> FindUser(users, userId) >= 0 && users[FindUser(users, userId)].email != ""
    ensures m.Some? ==> m.value == OrderConfirmedMail(users[FindUser(users, userId)].email, orderId, users[FindUser(users, userId)].name)
  {
    var k := FindUser(users, userId);
    if k >= 0 && users[k].email != "" then Some(OrderConfirmedMail(users[k].email, orderId, users[k].name)) else None
  }

  /**
   * `createOrder`. The new order has id `newId` and time `now`; `users` is the
   * user collection the handler reads the subscription from. The mail the
   * handler awaits is returned in `mail`; its helper never throws, so the
   * response does not depend on delivery.
   */
  method CreateOrder(store: OrderStore, users: seq<User>, callerId: string, req: CreateOrderRequest,
                     newId: string, now: int) returns (res: Result<Order>, mail: Option<Mail>)
    modifies store
    ensures ValidateCreateOrder(req).Some? ==>
      res == Err(ValidateCreateOrder(req).value) && mail.None? && store.orders == old(store.orders)
    ensures ValidateCreateOrder(req).None? ==>
      res.Ok? && store.orders == old(store.orders) + [res.value] && mail == ConfirmationMail(users, callerId, newId)
    ensures res.Ok? ==>
      res.value.id == newId && res.value.user == callerId && res.value.orderItems == req.orderItems
      && res.value.shippingAddress == req.shippingAddress && res.value.paymentInfo == req.paymentInfo
      && res.value.totalPrice == FinalPrice(users, callerId, req.totalPrice, now)
      && res.value.createdAt == now && res.value.status == "" && res.value.docOriginalPrice == 0
  {
    var invalid := ValidateCreateOrder(req);
    if invalid.Some? {
      return Err(invalid.value), None;
    }
    var finalPrice := FinalPrice(users, callerId, req.totalPrice, now);
    var order := Order(newId, callerId, req.orderItems, req.shippingAddress, req.paymentInfo,
                       finalPrice, "", 0, now);
    store.orders := store.orders + [order];
    mail := ConfirmationMail(users, callerId, newId);
    res := Ok(order);
  }

  /** An order as `getMyOrders` reports it, with its derived price fields. */
  datatype OrderSummary = OrderSummary(order: Order, originalPrice: int, subscriptionDiscount: int)

  /** The discount derivation of `getMyOrders`: a stored original price wins, else no discount. */
  function Summarize(o: Order): (r: OrderSummary)
    ensures r.order == o
    ensures r.originalPrice - r.subscriptionDiscount == o.totalPrice
    ensures o.paymentInfo.originalPrice != 0 ==> r.originalPrice == o.paymentInfo.originalPrice
    ensures o.paymentInfo.originalPrice == 0 && o.docOriginalPrice != 0 ==> r.originalPrice == o.docOriginalPrice
    ensures o.paymentInfo.originalPrice == 0 && o.docOriginalPrice == 0 ==>
      r.originalPrice == o.totalPrice && r.subscriptionDiscount == 0
  {
    if o.paymentInfo.originalPrice != 0 then
      OrderSummary(o, o.paymentInfo.originalPrice, o.paymentInfo.originalPrice - o.totalPrice)
    else if o.docOriginalPrice != 0 then
      OrderSummary(o, o.docOriginalPrice, o.docOriginalPrice - o.totalPrice)
    else OrderSummary(o, o.totalPrice, 0)
  }

  predicate OwnedBy(o: Order, userId: string) { o.user == userId }

  /** The orders a list of summaries is about, in list order. */
  function SummarizedOrders(r: seq<OrderSummary>): seq<Order>
  {
    seq(|r|, i requires 0 <= i < |r| => r[i].order)
  }

  /** `getMyOrders`: the caller's orders, in store order, each summarized. */
  function GetMyOrders(orders: seq<Order>, callerId: string): (r: seq<OrderSummary>)
    ensures |r| <= |orders|
    ensures IsSubsequence(SummarizedOrders(r), orders)
    ensures forall i :: 0 <= i < |r| ==> r[i].order.user == callerId && r[i].order in orders
    ensures forall o :: o in orders && o.user == callerId ==> exists i :: 0 <= i < |r| && r[i].order == o
    ensures forall i :: 0 <= i < |r| ==> r[i] == Summarize(r[i].order)
  {
    var mine := Filter(orders, (o: Order) => OwnedBy(o, callerId));
    var r := seq(|mine|, i requires 0 <= i < |mine| => Summarize(mine[i]));
    assert forall i :: 0 <= i < |mine| ==> mine[i] in mine;
    assert forall o :: o in orders && o.user == callerId ==> r[IndexOf(mine, o)].order == o;
    assert SummarizedOrders(r) == mine;
    r
  }

  function IndexOf<T(==)>(s: seq<T>, x: T): (i: int)
    requires x in s
    ensures 0 <= i < |s| && s[i] == x
  {
    if s[0] == x then 0 else 1 + IndexOf(s[1..], x)
  }

  /** `getMyOrderById`: the order with that id, if the caller owns it; anyone else's order is "not found". */
  function GetMyOrderById(orders: seq<Order>, id: string, callerId: string): (r: Result<Order>)
    ensures r.Ok? ==> r.value in orders && r.value.id == id && r.value.user == callerId
    ensures r.Err? <==> forall o :: o in orders ==> !(o.id == id && o.user == callerId)
    ensures r.Err? ==> r.error == ApiError(404, "Order not found")
    decreases |orders|
  {
    if |orders| == 0 then Err(ApiError(404, "Order not found"))
    else if orders[0].id == id && orders[0].user == callerId then Ok(orders[0])
    else
      var rest := GetMyOrderById(orders[1..], id, callerId);
      assert forall o :: o in orders <==> o == orders[0] || o in orders[1..] by {
        assert orders == [orders[0]] + orders[1..];
      }
      rest
  }

  /** The store after `order.status = status`: only the status of the found order changes. */
  function ApplyStatus(orders: seq<Order>, id: string, status: string): (r: seq<Order>)
    ensures |r| == |orders|
    ensures FindOrder(orders, id) == -1 ==> r == orders
    ensures FindOrder(orders, id) >= 0 ==> r[FindOrder(orders, id)].status == status
    ensures forall i :: 0 <= i < |orders| && i != FindOrder(orders, id) ==> r[i] == orders[i]
    ensures forall i :: 0 <= i < |orders| ==> r[i] == orders[i].(status := r[i].status)
  {
    var k := FindOrder(orders, id);
    if k == -1 then orders else orders[k := orders[k].(status := status)]
  }

  /** No transition is checked: any status replaces any other, and the last write wins. */
  lemma ApplyStatusLastWins(orders: seq<Order>, id: string, s1: string, s2: string)
    ensures ApplyStatus(ApplyStatus(orders, id, s1), id, s2) == ApplyStatus(orders, id, s2)
  {
    var k := FindOrder(orders, id);
    var once := ApplyStatus(orders, id, s1);
    if k >= 0 {
      assert forall i :: 0 <= i < |once| ==> once[i].id == orders[i].id;
      assert FindOrder(once, id) == k;
    }
  }

  /** A status update never touches prices, items or ownership. */
  lemma ApplyStatusKeepsPrices(orders: seq<Order>, id: string, status: string)
    ensures forall i :: 0 <= i < |orders| ==>
      ApplyStatus(orders, id, status)[i].totalPrice == orders[i].totalPrice
      && ApplyStatus(orders, id, status)[i].orderItems == orders[i].orderItems
      && ApplyStatus(orders, id, status)[i].user == orders[i].user
  {
  }

  /** The status mail goes to the order's owner when that user has an email address. */
  function StatusMail(users: seq<User>, order: Order, status: string): (m: Option<Mail>)
    ensures m.Some? <==> FindUser(users, order.user) >= 0 && users[FindUser(users, order.user)].email != ""
    ensures m.Some? ==> m.value == OrderStatusMail(users[FindUser(users, order.user)].email, status, order.id,
                                                  users[FindUser(users, order.user)].name)
  {
    var k := FindUser(users, order.user);
    if k >= 0 && users[k].email != "" then Some(OrderStatusMail(users[k].email, status, order.id, users[k].name)) else None
  }

  /** `updateOrderStatus`: 404 for an unknown id; otherwise the status is overwritten as given. */
  method UpdateOrderStatus(store: OrderStore, users: seq<User>, id: string, status: string)
    returns (res: Result<Order>, mail: Option<Mail>)
    modifies store
    ensures store.orders == ApplyStatus(old(store.orders), id, status)
    ensures FindOrder(old(store.orders), id) == -1 ==>
      res == Err(ApiError(404, "Order not found")) && mail.None? && store.orders == old(store.orders)
    ensures FindOrder(old(store.orders), id) >= 0 ==>
      res == Ok(store.orders[FindOrder(old(store.orders), id)]) && res.value.status == status
      && mail == StatusMail(users, res.value, status)
  {
    var k := FindOrder(store.orders, id);
    if k == -1 {
      return Err(ApiError(404, "Order not found")), None;
    }
    var updated := store.orders[k].(status := status);
    store.orders := store.orders[k := updated];
    res := Ok(updated);
    mail := StatusMail(users, updated, status);
  }
}
