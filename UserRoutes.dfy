/**
 * The customer routes under `/api/user`: the profile view and its partial
 * update, submitting a return request (with the duplicate check), and the
 * list of the caller's return requests.
 */
module UserRoutes {
  import opened Wrappers
  import opened Strings
  import opened Models
  import opened EmailService

  /** An address book entry as the profile view shows it. */
  datatype AddressView = AddressView(id: string, addressLabel: string, address: string, phone: string, isDefault: bool)

  datatype ProfileView = ProfileView(
    id: string,
    name: string,
    gender: string,
    dob: string,
    phone: string,
    email: string,
    addresses: seq<AddressView>,
    subscription: Option<Subscription>)

  /** The one-line address: street, city, state, country and postal code separated by ", ". */
  function AddressLine(a: Address): (r: string)
    ensures r == Join([a.address, a.city, a.state, a.country, a.postalCode], ", ")
  {
    var parts := [a.address, a.city, a.state, a.country, a.postalCode];
    assert Join(parts[4..], ", ") == a.postalCode;
    assert Join(parts[3..], ", ") == a.country + ", " + a.postalCode by {
      assert parts[3..][1..] == parts[4..];
    }
    assert Join(parts[2..], ", ") == a.state + ", " + Join(parts[3..], ", ") by {
      assert parts[2..][1..] == parts[3..];
    }
    assert Join(parts[1..], ", ") == a.city + ", " + Join(parts[2..], ", ") by {
      assert parts[1..][1..] == parts[2..];
    }
    a.address + ", " + a.city + ", " + a.state + ", " + a.country + ", " + a.postalCode
  }

  function ViewAddress(a: Address): (v: AddressView)
    ensures v.id == a.id && v.phone == a.phone && v.isDefault == a.isDefault
    ensures v.addressLabel == (if a.addressLabel == "" then "Home" else a.addressLabel)
    ensures v.address == AddressLine(a)
  {
    AddressView(a.id, if a.addressLabel == "" then "Home" else a.addressLabel, AddressLine(a), a.phone, a.isDefault)
  }

  /** `GET /profile`: 404 for an unknown user, else the mapped view. */
  function GetProfile(users: seq<User>, userId: string): (r: Result<ProfileView>)
    ensures r.Err? <==> FindUser(users, userId) == -1
    ensures r.Err? ==> r.error == ApiError(404, "User not found")
    ensures r.Ok? ==>
      var u := users[FindUser(users, userId)];
      r.value.id == userId && r.value.email == u.email && r.value.name == u.name
      && r.value.gender == u.gender && r.value.dob == u.dob && r.value.phone == u.phone
      && r.value.subscription == u.subscription
      && |r.value.addresses| == |u.addressBook|
      && forall i :: 0 <= i < |u.addressBook| ==> r.value.addresses[i] == ViewAddress(u.addressBook[i])
  {
    var k := FindUser(users, userId);
    if k == -1 then Err(ApiError(404, "User not found"))
    else
      var u := users[k];
      Ok(ProfileView(u.id, u.name, u.gender, u.dob, u.phone, u.email,
                     seq(|u.addressBook|, i requires 0 <= i < |u.addressBook| => ViewAddress(u.addressBook[i])),
                     u.subscription))
  }

  /** Every address in the profile view carries a non-empty label. */
  lemma ProfileLabelsNonEmpty(users: seq<User>, userId: string)
    requires GetProfile(users, userId).Ok?
    ensures forall v :: v in GetProfile(users, userId).value.addresses ==> v.addressLabel != ""
  {
  }

  /** The body of `PATCH /profile`; an absent field is "". */
  datatype ProfilePatch = ProfilePatch(name: string, gender: string, dob: string, phone: string)

  /** Each field present (truthy) in the body overwrites the stored one; nothing else changes. */
  function ApplyPatch(u: User, p: ProfilePatch): (r: User)
    ensures r == u.(name := r.name, gender := r.gender, dob := r.dob, phone := r.phone)
    ensures r.name == (if p.name != "" then p.name else u.name)
    ensures r.gender == (if p.gender != "" then p.gender else u.gender)
    ensures r.dob == (if p.dob != "" then p.dob else u.dob)
    ensures r.phone == (if p.phone != "" then p.phone else u.phone)
  {
    u.(name := if p.name != "" then p.name else u.name,
       gender := if p.gender != "" then p.gender else u.gender,
       dob := if p.dob != "" then p.dob else u.dob,
       phone := if p.phone != "" then p.phone else u.phone)
  }

  lemma ApplyPatchIdempotent(u: User, p: ProfilePatch)
    ensures ApplyPatch(ApplyPatch(u, p), p) == ApplyPatch(u, p)
  {
  }

  /** An empty body changes nothing. */
  lemma EmptyPatchKeepsUser(u: User)
    ensures ApplyPatch(u, ProfilePatch("", "", "", "")) == u
  {
  }

  /** `PATCH /profile`. */
  method PatchProfile(store: UserStore, userId: string, p: ProfilePatch) returns (res: Result<User>)
    modifies store
    ensures FindUser(old(store.users), userId) == -1 ==>
      res == Err(ApiError(404, "User not found")) && store.users == old(store.users)
    ensures FindUser(old(store.users), userId) >= 0 ==>
      var k := FindUser(old(store.users), userId);
      store.users == old(store.users)[k := ApplyPatch(old(store.users)[k], p)] && res == Ok(store.users[k])
  {
    var k := FindUser(store.users, userId);
    if k == -1 {
      return Err(ApiError(404, "User not found"));
    }
    var u := ApplyPatch(store.users[k], p);
    store.users := store.users[k := u];
    res := Ok(u);
  }

  /** The body of `POST /return`; an absent field is "". */
  datatype ReturnBody = ReturnBody(orderId: string, productId: string, reason: string)

  function ValidateReturnBody(b: ReturnBody): (r: Option<ApiError>)
    ensures r.None? <==> b.orderId != "" && b.productId != "" && b.reason != ""
    ensures r.Some? ==> r.value == ApiError(400, "orderId, productId, and reason are required")
  {
    if b.orderId == "" || b.productId == "" || b.reason == ""
    then Some(ApiError(400, "orderId, productId, and reason are required"))
    else None
  }

  /** `user.returns.some(...)`: a request for this order and product already exists. */
  predicate AlreadyReturned(rs: seq<ReturnRequest>, orderId: string, productId: string) {
    exists i :: 0 <= i < |rs| && rs[i].orderId == orderId && rs[i].productId == productId
  }

  /** At most one request per (order, product) pair. */
  predicate UniquePairs(rs: seq<ReturnRequest>) {
    forall i, j :: 0 <= i < j < |rs| ==> !(rs[i].orderId == rs[j].orderId && rs[i].productId == rs[j].productId)
  }

  /** Appending a request whose pair is not yet present keeps the pairs unique. */
  lemma AppendKeepsUnique(rs: seq<ReturnRequest>, r: ReturnRequest)
    requires UniquePairs(rs)
    requires !AlreadyReturned(rs, r.orderId, r.productId)
    ensures UniquePairs(rs + [r])
  {
    var t := rs + [r];
    forall i, j | 0 <= i < j < |t| ensures !(t[i].orderId == t[j].orderId && t[i].productId == t[j].productId) {
      if j == |rs| {
        assert t[i] == rs[i];
      }
    }
  }

  /** After a request is stored, the same pair counts as already returned. */
  lemma AppendMarksReturned(rs: seq<ReturnRequest>, r: ReturnRequest)
    ensures AlreadyReturned(rs + [r], r.orderId, r.productId)
  {
    assert (rs + [r])[|rs|] == r;
  }

  const DuplicateReturn := ApiError(400, "You have already requested a return for this product.")

  /** A new request as the user schema stores it: pending and not received. */
  function NewReturn(id: string, b: ReturnBody): ReturnRequest {
    ReturnRequest(id, b.orderId, b.productId, b.reason, "pending", false)
  }

  /**
   * `POST /return`. `newId` is the id the new sub-document receives. The
   * placed-mail is fire-and-forget: it is returned in `mail` and the response
   * does not depend on it.
   */
  method RequestReturn(store: UserStore, userId: string, b: ReturnBody, newId: string)
    returns (res: Result<string>, mail: Option<Mail>)
    modifies store
    ensures ValidateReturnBody(b).Some? ==>
      res == Err(ValidateReturnBody(b).value) && store.users == old(store.users) && mail.None?
    ensures ValidateReturnBody(b).None? && FindUser(old(store.users), userId) == -1 ==>
      res == Err(ApiError(404, "User not found")) && store.users == old(store.users) && mail.None?
    ensures ValidateReturnBody(b).None? && FindUser(old(store.users), userId) >= 0 ==>
      var k := FindUser(old(store.users), userId);
      var u := old(store.users)[k];
      if AlreadyReturned(u.returnRequests, b.orderId, b.productId) then
        res == Err(DuplicateReturn) && store.users == old(store.users) && mail.None?
      else
        res == Ok("Return request submitted")
        && store.users == old(store.users)[k := u.(returnRequests := u.returnRequests + [NewReturn(newId, b)])]
        && mail == Some(ReturnPlacedMail(u.email, u.name, b.orderId))
  {
    var invalid := ValidateReturnBody(b);
    if invalid.Some? {
      return Err(invalid.value), None;
    }
    var k := FindUser(store.users, userId);
    if k == -1 {
      return Err(ApiError(404, "User not found")), None;
    }
    var u := store.users[k];
    var seen := false;
    var i := 0;
    while i < |u.returnRequests|
      invariant 0 <= i <= |u.returnRequests|
      invariant seen <==> AlreadyReturned(u.returnRequests[..i], b.orderId, b.productId)
    {
      var r := u.returnRequests[i];
      if r.orderId == b.orderId && r.productId == b.productId {
        seen := true;
      }
      assert u.returnRequests[..i + 1] == u.returnRequests[..i] + [r];
      i := i + 1;
    }
    assert u.returnRequests[..i] == u.returnRequests;
    if seen {
      return Err(DuplicateReturn), None;
    }
    store.users := store.users[k := u.(returnRequests := u.returnRequests + [NewReturn(newId, b)])];
    res := Ok("Return request submitted");
    mail := Some(ReturnPlacedMail(u.email, u.name, b.orderId));
  }

  /** `GET /returns`: the caller's requests as stored. */
  function GetReturns(users: seq<User>, userId: string): (r: Result<seq<ReturnRequest>>)
    ensures r.Err? <==> FindUser(users, userId) == -1
    ensures r.Err? ==> r.error == ApiError(404, "User not found")
    ensures r.Ok? ==> r.value == users[FindUser(users, userId)].returnRequests
  {
    var k := FindUser(users, userId);
    if k == -1 then Err(ApiError(404, "User not found")) else Ok(users[k].returnRequests)
  }
}
