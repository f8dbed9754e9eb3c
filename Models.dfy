/**
 * The backend documents the handlers read and write: users with their
 * embedded address book, subscription and return requests; orders with
 * their items and payment information; admins. Persistence is an in-memory
 * table per collection (a class holding a `seq` the handlers reassign).
 *
 * JavaScript's "missing" values follow the handlers' truthiness tests: a
 * missing string is `""`, a missing number is `0`, a missing sub-document
 * is `None`.
 */
module Models {
  import opened Wrappers

  datatype Subscription = Subscription(
    isSubscribed: bool,
    subscriptionExpiry: Option<int>,
    subscriptionCost: int)

  datatype Address = Address(
    id: string,
    addressLabel: string,
    address: string,
    city: string,
    state: string,
    country: string,
    postalCode: string,
    phone: string,
    isDefault: bool)

  /** A return request embedded in its user's document. */
  datatype ReturnRequest = ReturnRequest(
    id: string,
    orderId: string,
    productId: string,
    reason: string,
    status: string,
    received: bool)

  datatype User = User(
    id: string,
    name: string,
    email: string,
    phone: string,
    gender: string,
    dob: string,
    addressBook: seq<Address>,
    subscription: Option<Subscription>,
    returnRequests: seq<ReturnRequest>)

  datatype OrderItem = OrderItem(
    product: string,
    name: string,
    quantity: int,
    size: string,
    color: string,
    price: int,
    image: string)

  /** `originalPrice` is 0 when the client did not store one (it is read with a truthiness test). */
  datatype PaymentInfo = PaymentInfo(paymentMethod: string, status: string, originalPrice: int)

  datatype Order = Order(
    id: string,
    user: string,
    orderItems: seq<OrderItem>,
    shippingAddress: string,
    paymentInfo: PaymentInfo,
    totalPrice: int,
    status: string,
    docOriginalPrice: int,
    createdAt: int)

  datatype Admin = Admin(
    id: string,
    name: string,
    email: string,
    password: string,
    isActive: bool,
    lastLogin: Option<int>)

  class UserStore {
    var users: seq<User>

    constructor(initial: seq<User>)
      ensures users == initial
    {
      users := initial;
    }
  }

  class OrderStore {
    var orders: seq<Order>

    constructor(initial: seq<Order>)
      ensures orders == initial
    {
      orders := initial;
    }
  }

  class AdminStore {
    var admins: seq<Admin>

    constructor(initial: seq<Admin>)
      ensures admins == initial
    {
      admins := initial;
    }
  }

  /** `User.findById(id)`: the position of the user with that id, or -1. */
  function FindUser(users: seq<User>, id: string): (r: int)
    ensures -1 <= r < |users|
    ensures r >= 0 ==> users[r].id == id
    ensures r == -1 <==> forall i :: 0 <= i < |users| ==> users[i].id != id
    decreases |users|
  {
    if |users| == 0 then -1
    else if users[0].id == id then 0
    else
      var k := FindUser(users[1..], id);
      if k == -1 then -1 else k + 1
  }

  /** `Order.findById(id)`: the position of the order with that id, or -1. */
  function FindOrder(orders: seq<Order>, id: string): (r: int)
    ensures -1 <= r < |orders|
    ensures r >= 0 ==> orders[r].id == id && forall i :: 0 <= i < r ==> orders[i].id != id
    ensures r == -1 <==> forall i :: 0 <= i < |orders| ==> orders[i].id != id
    decreases |orders|
  {
    if |orders| == 0 then -1
    else if orders[0].id == id then 0
    else
      var k := FindOrder(orders[1..], id);
      if k == -1 then -1 else k + 1
  }

  /** `Admin.findOne({ email })`: the position of the admin with that email, or -1. */
  function FindAdminByEmail(admins: seq<Admin>, email: string): (r: int)
    ensures -1 <= r < |admins|
    ensures r >= 0 ==> admins[r].email == email
    ensures r == -1 <==> forall i :: 0 <= i < |admins| ==> admins[i].email != email
    decreases |admins|
  {
    if |admins| == 0 then -1
    else if admins[0].email == email then 0
    else
      var k := FindAdminByEmail(admins[1..], email);
      if k == -1 then -1 else k + 1
  }

  function FindAdminById(admins: seq<Admin>, id: string): (r: int)
    ensures -1 <= r < |admins|
    ensures r >= 0 ==> admins[r].id == id
    ensures r == -1 <==> forall i :: 0 <= i < |admins| ==> admins[i].id != id
    decreases |admins|
  {
    if |admins| == 0 then -1
    else if admins[0].id == id then 0
    else
      var k := FindAdminById(admins[1..], id);
      if k == -1 then -1 else k + 1
  }
}
