/**
 * The admin account handlers (register, login, profile update, password
 * change) and the dashboard figures computed from the order collection.
 * Password hashing and comparison are the model's `matches` parameter:
 * `matches(stored, candidate)` is the outcome of `admin.matchPassword`.
 */
module AdminController {
  import opened Wrappers
  import opened Strings
  import opened Sequences
  import opened Sorting
  import opened Models

  /** No two admins share an email address. */
  predicate UniqueEmails(admins: seq<Admin>) {
    forall i, j :: 0 <= i < j < |admins| ==> admins[i].email != admins[j].email
  }

  /** Registering an address nobody holds keeps the addresses unique. */
  lemma RegisterKeepsUnique(admins: seq<Admin>, a: Admin)
    requires UniqueEmails(admins)
    requires FindAdminByEmail(admins, a.email) == -1
    ensures UniqueEmails(admins + [a])
  {
    var t := admins + [a];
    forall i, j | 0 <= i < j < |t| ensures t[i].email != t[j].email {
      if j == |admins| {
        assert t[i] == admins[i];
      }
    }
  }

  /** `register`: 409 for a taken email, else a new active admin is stored. */
  method Register(store: AdminStore, name: string, email: string, password: string, newId: string)
    returns (res: Result<Admin>)
    modifies store
    ensures FindAdminByEmail(old(store.admins), email) >= 0 ==>
      res == Err(ApiError(409, "Admin with this email already exists")) && store.admins == old(store.admins)
    ensures FindAdminByEmail(old(store.admins), email) == -1 ==>
      res == Ok(Admin(newId, name, email, password, true, None)) && store.admins == old(store.admins) + [res.value]
    ensures UniqueEmails(old(store.admins)) ==> UniqueEmails(store.admins)
  {
    if FindAdminByEmail(store.admins, email) >= 0 {
      return Err(ApiError(409, "Admin with this email already exists"));
    }
    var a := Admin(newId, name, email, password, true, None);
    if UniqueEmails(store.admins) {
      RegisterKeepsUnique(store.admins, a);
    }
    store.admins := store.admins + [a];
    res := Ok(a);
  }

  const InvalidCredentials := ApiError(401, "Invalid credentials")
  const Deactivated := ApiError(401, "Admin account is deactivated")

  /** The checks of `login` in their order: known email, then active, then password. Ok holds the admin's position. */
  function LoginCheck(admins: seq<Admin>, email: string, password: string,
                      matches: (string, string) -> bool): (r: Result<int>)
    ensures FindAdminByEmail(admins, email) == -1 ==> r == Err(InvalidCredentials)
    ensures FindAdminByEmail(admins, email) >= 0 ==>
      var a := admins[FindAdminByEmail(admins, email)];
      (!a.isActive ==> r == Err(Deactivated))
      && (a.isActive && !matches(a.password, password) ==> r == Err(InvalidCredentials))
      && (a.isActive && matches(a.password, password) ==> r == Ok(FindAdminByEmail(admins, email)))
    ensures r.Ok? ==> 0 <= r.value < |admins| && admins[r.value].email == email
  {
    var k := FindAdminByEmail(admins, email);
    if k == -1 then Err(InvalidCredentials)
    else if !admins[k].isActive then Err(Deactivated)
    else if !matches(admins[k].password, password) then Err(InvalidCredentials)
    else Ok(k)
  }

  /** An unknown email and a wrong password are answered identically. */
  lemma UnknownEmailLooksLikeWrongPassword(admins: seq<Admin>, unknown: string, known: string, password: string,
                                           matches: (string, string) -> bool)
    requires FindAdminByEmail(admins, unknown) == -1
    requires FindAdminByEmail(admins, known) >= 0
    requires admins[FindAdminByEmail(admins, known)].isActive
    requires !matches(admins[FindAdminByEmail(admins, known)].password, password)
    ensures LoginCheck(admins, unknown, password, matches) == LoginCheck(admins, known, password, matches)
  {
  }

  /** A deactivated admin is told so even with the right password, and even with a wrong one. */
  lemma DeactivationCheckedBeforePassword(admins: seq<Admin>, email: string, p1: string, p2: string,
                                          matches: (string, string) -> bool)
    requires FindAdminByEmail(admins, email) >= 0
    requires !admins[FindAdminByEmail(admins, email)].isActive
    ensures LoginCheck(admins, email, p1, matches) == LoginCheck(admins, email, p2, matches) == Err(Deactivated)
  {
  }

  /** `login`: on success the admin's last-login time becomes `now`; a failure changes nothing. */
  method Login(store: AdminStore, email: string, password: string, matches: (string, string) -> bool, now: int)
    returns (res: Result<Admin>)
    modifies store
    ensures LoginCheck(old(store.admins), email, password, matches).Err? ==>
      res == Err(LoginCheck(old(store.admins), email, password, matches).error) && store.admins == old(store.admins)
    ensures LoginCheck(old(store.admins), email, password, matches).Ok? ==>
      var k := LoginCheck(old(store.admins), email, password, matches).value;
      store.admins == old(store.admins)[k := old(store.admins)[k].(lastLogin := Some(now))]
      && res == Ok(store.admins[k])
  {
    var check := LoginCheck(store.admins, email, password, matches);
    if check.Err? {
      return Err(check.error);
    }
    var k := check.value;
    var a := store.admins[k].(lastLogin := Some(now));
    store.admins := store.admins[k := a];
    res := Ok(a);
  }

  /** `updateProfile`'s conflict test: only a supplied email that differs from the current one is looked up. */
  predicate EmailConflict(admins: seq<Admin>, current: Admin, email: string) {
    email != "" && email != current.email && FindAdminByEmail(admins, email) >= 0
  }

  /** The admin record after `updateProfile`: a missing name or email keeps the current one. */
  function ProfileUpdated(current: Admin, name: string, email: string): (r: Admin)
    ensures r == current.(name := r.name, email := r.email)
    ensures r.name == (if name != "" then name else current.name)
    ensures r.email == (if email != "" then email else current.email)
  {
    current.(name := if name != "" then name else current.name, email := if email != "" then email else current.email)
  }

  /** A profile update that passed the conflict test keeps the addresses unique. */
  lemma ProfileUpdateKeepsUnique(admins: seq<Admin>, k: int, name: string, email: string)
    requires 0 <= k < |admins|
    requires UniqueEmails(admins)
    requires !EmailConflict(admins, admins[k], email)
    ensures UniqueEmails(admins[k := ProfileUpdated(admins[k], name, email)])
  {
    var t := admins[k := ProfileUpdated(admins[k], name, email)];
    forall i, j | 0 <= i < j < |t| ensures t[i].email != t[j].email {
      if (i == k || j == k) && email != "" && email != admins[k].email {
        var other := if i == k then j else i;
        assert admins[other].email != email;
      }
    }
  }

  /**
   * `updateProfile` for the signed-in admin `adminId` (the authentication
   * step has already loaded that admin, hence the requirement).
   */
  method UpdateProfile(store: AdminStore, adminId: string, name: string, email: string)
    returns (res: Result<Admin>)
    requires FindAdminById(store.admins, adminId) >= 0
    modifies store
    ensures var k := FindAdminById(old(store.admins), adminId);
      if EmailConflict(old(store.admins), old(store.admins)[k], email) then
        res == Err(ApiError(409, "Email already exists")) && store.admins == old(store.admins)
      else
        store.admins == old(store.admins)[k := ProfileUpdated(old(store.admins)[k], name, email)]
        && res == Ok(store.admins[k])
    ensures UniqueEmails(old(store.admins)) ==> UniqueEmails(store.admins)
  {
    var k := FindAdminById(store.admins, adminId);
    var current := store.admins[k];
    if EmailConflict(store.admins, current, email) {
      return Err(ApiError(409, "Email already exists"));
    }
    if UniqueEmails(store.admins) {
      ProfileUpdateKeepsUnique(store.admins, k, name, email);
    }
    var a := ProfileUpdated(current, name, email);
    store.admins := store.admins[k := a];
    res := Ok(a);
  }

  /** `changePassword`: 404 for an unknown admin, 401 for a wrong current password, else the password is replaced. */
  method ChangePassword(store: AdminStore, adminId: string, currentPassword: string, newPassword: string,
                        matches: (string, string) -> bool) returns (res: Result<string>)
    modifies store
    ensures FindAdminById(old(store.admins), adminId) == -1 ==>
      res == Err(ApiError(404, "Admin not found")) && store.admins == old(store.admins)
    ensures FindAdminById(old(store.admins), adminId) >= 0 ==>
      var k := FindAdminById(old(store.admins), adminId);
      if !matches(old(store.admins)[k].password, currentPassword) then
        res == Err(ApiError(401, "Current password is incorrect")) && store.admins == old(store.admins)
      else
        res == Ok("Password changed successfully")
        && store.admins == old(store.admins)[k := old(store.admins)[k].(password := newPassword)]
  {
    var k := FindAdminById(store.admins, adminId);
    if k == -1 {
      return Err(ApiError(404, "Admin not found"));
    }
    if !matches(store.admins[k].password, currentPassword) {
      return Err(ApiError(401, "Current password is incorrect"));
    }
    store.admins := store.admins[k := store.admins[k].(password := newPassword)];
    res := Ok("Password changed successfully");
  }

  /** An order counts towards revenue when its status, lower-cased, is "delivered" (a missing status is ""). */
  predicate IsDelivered(o: Order) {
    ToLower(o.status) == "delivered"
  }

  function OrderAmount(o: Order): int { o.totalPrice }

  /** `totalRevenue`: the sum of the totals of delivered orders. */
  function TotalRevenue(orders: seq<Order>): int {
    Sum(Filter(orders, IsDelivered), OrderAmount)
  }

  /** Adding an order raises the revenue by its total if it is delivered, and by nothing otherwise. */
  lemma RevenueAppend(orders: seq<Order>, o: Order)
    ensures TotalRevenue(orders + [o]) == TotalRevenue(orders) + (if IsDelivered(o) then o.totalPrice else 0)
  {
    FilterAppendOne(orders, o, IsDelivered);
    var tail := if IsDelivered(o) then [o] else [];
    SumAppend(Filter(orders, IsDelivered), tail, OrderAmount);
    assert Sum(tail, OrderAmount) == (if IsDelivered(o) then o.totalPrice else 0);
  }

  /** The revenue is never negative when no order total is. */
  lemma RevenueNonNegative(orders: seq<Order>)
    requires forall i :: 0 <= i < |orders| ==> orders[i].totalPrice >= 0
    ensures TotalRevenue(orders) >= 0
  {
    var d := Filter(orders, IsDelivered);
    forall i | 0 <= i < |d| ensures OrderAmount(d[i]) >= 0 {
      assert d[i] in d;
      assert d[i] in orders;
    }
    SumNonNegative(d, OrderAmount);
  }

  /** The status test ignores case: "Delivered" counts, "shipped" does not. */
  lemma DeliveredIgnoresCase(o: Order)
    ensures o.status == "Delivered" ==> IsDelivered(o)
    ensures o.status == "shipped" ==> !IsDelivered(o)
  {
    if o.status == "Delivered" {
      assert ToLower(o.status) == "delivered";
    }
    if o.status == "shipped" {
      assert ToLower(o.status)[0] == 's';
    }
  }

  datatype Activity = Activity(id: string, kind: string, message: string, time: int, amount: int)

  /** The populated `user.name`, or "Unknown" when the owner is missing or nameless. */
  function OwnerName(users: seq<User>, o: Order): (r: string)
    ensures r != ""
    ensures FindUser(users, o.user) >= 0 && users[FindUser(users, o.user)].name != "" ==> r == users[FindUser(users, o.user)].name
  {
    var k := FindUser(users, o.user);
    if k >= 0 && users[k].name != "" then users[k].name else "Unknown"
  }

  function ActivityOf(users: seq<User>, o: Order): (a: Activity)
    ensures a.id == o.id && a.kind == "order" && a.time == o.createdAt && a.amount == o.totalPrice
    ensures a.message == "Order #" + LastN(o.id, 6) + " placed by " + OwnerName(users, o)
  {
    Activity(o.id, "order", "Order #" + LastN(o.id, 6) + " placed by " + OwnerName(users, o), o.createdAt, o.totalPrice)
  }

  function CreatedAt(o: Order): int { o.createdAt }

  /** `Order.find().sort({ createdAt: -1 }).limit(10)`. */
  function NewestOrders(orders: seq<Order>): (r: seq<Order>)
    ensures |r| == if |orders| <= 10 then |orders| else 10
    ensures forall i, j :: 0 <= i < j < |r| ==> r[i].createdAt >= r[j].createdAt
    ensures forall o :: o in r ==> o in orders
  {
    var r := TopByKey(orders, CreatedAt, 10);
    forall o | o in r ensures o in orders {
      assert o in multiset(r);
    }
    r
  }

  /** No order left out of the ten is newer than one that is listed. */
  lemma NewestOrdersAreNewest(orders: seq<Order>)
    ensures forall o :: o in multiset(orders) - multiset(NewestOrders(orders)) ==>
      forall i :: 0 <= i < |NewestOrders(orders)| ==> o.createdAt <= NewestOrders(orders)[i].createdAt
  {
    assert NewestOrders(orders) == TopByKey(orders, CreatedAt, 10);
    TopByKeyLeftovers(orders, CreatedAt, 10);
  }

  /** Recent activities: the ten newest orders, newest first, each described. */
  function RecentActivities(users: seq<User>, orders: seq<Order>): (r: seq<Activity>)
    ensures |r| == |NewestOrders(orders)| == if |orders| <= 10 then |orders| else 10
    ensures forall i :: 0 <= i < |r| ==> r[i] == ActivityOf(users, NewestOrders(orders)[i])
    ensures forall i, j :: 0 <= i < j < |r| ==> r[i].time >= r[j].time
  {
    var newest := NewestOrders(orders);
    seq(|newest|, i requires 0 <= i < |newest| => ActivityOf(users, newest[i]))
  }

  /** The dashboard payload: the counts, the delivered revenue and the recent activities; the category aggregate is not part of this model. */
  datatype Dashboard = Dashboard(totalUsers: int, totalOrders: int, totalProducts: int, totalRevenue: int,
                                 recent: seq<Activity>)

  function DashboardAnalytics(users: seq<User>, orders: seq<Order>, totalProducts: nat): (d: Dashboard)
    ensures d.totalUsers == |users| && d.totalOrders == |orders| && d.totalProducts == totalProducts
    ensures d.totalRevenue == TotalRevenue(orders)
    ensures d.recent == RecentActivities(users, orders)
  {
    Dashboard(|users|, |orders|, totalProducts, TotalRevenue(orders), RecentActivities(users, orders))
  }
}
