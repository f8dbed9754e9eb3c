/**
 * The admin routes over return requests: the list of every user's requests
 * annotated with the owner's contact details, the decision on one request,
 * and marking a request as received. Requests live inside their user's
 * document and are found by their own id.
 */
module AdminRoutes {
  import opened Wrappers
  import opened Models
  import opened EmailService

  datatype Contact = Contact(email: string, phone: string)

  /** A request as the admin list shows it: the request, its owner's id and contact. */
  datatype AnnotatedReturn = AnnotatedReturn(ret: ReturnRequest, userId: string, user: Contact)

  function Annotate(u: User): (r: seq<AnnotatedReturn>)
    ensures |r| == |u.returnRequests|
    ensures forall j :: 0 <= j < |r| ==> r[j] == AnnotatedReturn(u.returnRequests[j], u.id, Contact(u.email, u.phone))
  {
    seq(|u.returnRequests|, j requires 0 <= j < |u.returnRequests| =>
      AnnotatedReturn(u.returnRequests[j], u.id, Contact(u.email, u.phone)))
  }

  /** The requests of all users, in user order and within a user in stored order. */
  function AllReturns(users: seq<User>): seq<AnnotatedReturn>
    decreases |users|
  {
    if |users| == 0 then [] else AllReturns(users[..|users| - 1]) + Annotate(users[|users| - 1])
  }

  function ReturnCount(users: seq<User>): nat
    decreases |users|
  {
    if |users| == 0 then 0 else ReturnCount(users[..|users| - 1]) + |users[|users| - 1].returnRequests|
  }

  /** The list has one entry per stored request. */
  lemma {:induction false} AllReturnsLength(users: seq<User>)
    ensures |AllReturns(users)| == ReturnCount(users)
    decreases |users|
  {
    if |users| > 0 {
      AllReturnsLength(users[..|users| - 1]);
    }
  }

  /** Every listed entry is a stored request annotated with its own owner. */
  lemma {:induction false} AllReturnsSound(users: seq<User>, e: AnnotatedReturn)
    requires e in AllReturns(users)
    ensures exists i :: (0 <= i < |users| && e.ret in users[i].returnRequests
      && e.userId == users[i].id && e.user == Contact(users[i].email, users[i].phone))
    decreases |users|
  {
    var init := users[..|users| - 1];
    var last := users[|users| - 1];
    if e in AllReturns(init) {
      AllReturnsSound(init, e);
      var i :| 0 <= i < |init| && e.ret in init[i].returnRequests
        && e.userId == init[i].id && e.user == Contact(init[i].email, init[i].phone);
      assert users[i] == init[i];
    } else {
      assert e in Annotate(last);
      var j :| 0 <= j < |Annotate(last)| && Annotate(last)[j] == e;
      assert e.ret == last.returnRequests[j];
    }
  }

  /** Every stored request appears in the list, annotated with its owner. */
  lemma {:induction false} AllReturnsComplete(users: seq<User>, i: int, j: int)
    requires 0 <= i < |users| && 0 <= j < |users[i].returnRequests|
    ensures AnnotatedReturn(users[i].returnRequests[j], users[i].id, Contact(users[i].email, users[i].phone)) in AllReturns(users)
    decreases |users|
  {
    var init := users[..|users| - 1];
    if i < |users| - 1 {
      assert init[i] == users[i];
      AllReturnsComplete(init, i, j);
    } else {
      assert Annotate(users[i])[j] in Annotate(users[i]);
    }
  }

  /** `GET /returns`: the nested `forEach` that pushes each annotated request. */
  method ListAllReturns(users: seq<User>) returns (all: seq<AnnotatedReturn>)
    ensures all == AllReturns(users)
  {
    all := [];
    var i := 0;
    while i < |users|
      invariant 0 <= i <= |users|
      invariant all == AllReturns(users[..i])
    {
      var u := users[i];
      var j := 0;
      while j < |u.returnRequests|
        invariant 0 <= j <= |u.returnRequests|
        invariant all == AllReturns(users[..i]) + Annotate(u)[..j]
      {
        all := all + [AnnotatedReturn(u.returnRequests[j], u.id, Contact(u.email, u.phone))];
        assert Annotate(u)[..j + 1] == Annotate(u)[..j] + [Annotate(u)[j]];
        j := j + 1;
      }
      assert Annotate(u)[..j] == Annotate(u);
      assert users[..i + 1][..i] == users[..i];
      i := i + 1;
    }
    assert users[..i] == users;
  }

  /** `User.findOne({ "returns._id": id })`: the first user holding a request with that id, or -1. */
  function FindReturnOwner(users: seq<User>, rid: string): (r: int)
    ensures -1 <= r < |users|
    ensures r >= 0 ==> FindReturn(users[r].returnRequests, rid) >= 0
    ensures r >= 0 ==> forall i :: 0 <= i < r ==> FindReturn(users[i].returnRequests, rid) == -1
    ensures r == -1 <==> forall i :: 0 <= i < |users| ==> FindReturn(users[i].returnRequests, rid) == -1
    decreases |users|
  {
    if |users| == 0 then -1
    else if FindReturn(users[0].returnRequests, rid) >= 0 then 0
    else
      var k := FindReturnOwner(users[1..], rid);
      if k == -1 then -1 else k + 1
  }

  /** `user.returns.id(id)`: the position of the request with that id, or -1. */
  function FindReturn(rs: seq<ReturnRequest>, rid: string): (r: int)
    ensures -1 <= r < |rs|
    ensures r >= 0 ==> rs[r].id == rid
    ensures r == -1 <==> forall j :: 0 <= j < |rs| ==> rs[j].id != rid
    decreases |rs|
  {
    if |rs| == 0 then -1
    else if rs[0].id == rid then 0
    else
      var k := FindReturn(rs[1..], rid);
      if k == -1 then -1 else k + 1
  }

  /** The users after setting the found request's status, or its `received` flag; nothing else changes. */
  function UpdateReturn(users: seq<User>, rid: string, status: string, markReceived: bool): (r: seq<User>)
    ensures |r| == |users|
    ensures FindReturnOwner(users, rid) == -1 ==> r == users
    ensures forall i :: 0 <= i < |users| && i != FindReturnOwner(users, rid) ==> r[i] == users[i]
    ensures FindReturnOwner(users, rid) >= 0 ==>
      var i := FindReturnOwner(users, rid);
      var j := FindReturn(users[i].returnRequests, rid);
      var old_ := users[i].returnRequests[j];
      r[i] == users[i].(returnRequests := users[i].returnRequests[j :=
        if markReceived then old_.(received := true) else old_.(status := status)])
  {
    var i := FindReturnOwner(users, rid);
    if i == -1 then users
    else
      var u := users[i];
      var j := FindReturn(u.returnRequests, rid);
      var ret := u.returnRequests[j];
      var ret' := if markReceived then ret.(received := true) else ret.(status := status);
      users[i := u.(returnRequests := u.returnRequests[j := ret'])]
  }

  /** An update keeps every id, so the same request is found again afterwards. */
  lemma UpdateKeepsLookup(users: seq<User>, rid: string, status: string, markReceived: bool)
    ensures FindReturnOwner(UpdateReturn(users, rid, status, markReceived), rid) == FindReturnOwner(users, rid)
    ensures FindReturnOwner(users, rid) >= 0 ==>
      var i := FindReturnOwner(users, rid);
      FindReturn(UpdateReturn(users, rid, status, markReceived)[i].returnRequests, rid) == FindReturn(users[i].returnRequests, rid)
  {
    var i := FindReturnOwner(users, rid);
    if i >= 0 {
      var after := UpdateReturn(users, rid, status, markReceived);
      var j := FindReturn(users[i].returnRequests, rid);
      assert forall l :: 0 <= l < |after[i].returnRequests| ==> after[i].returnRequests[l].id == users[i].returnRequests[l].id;
      FindReturnSameIds(users[i].returnRequests, after[i].returnRequests, rid);
      forall l | 0 <= l < |users| ensures FindReturn(after[l].returnRequests, rid) == FindReturn(users[l].returnRequests, rid) {
        if l != i {
          assert after[l] == users[l];
        }
      }
      FindOwnerSameLookups(users, after, rid);
    }
  }

  lemma {:induction false} FindReturnSameIds(a: seq<ReturnRequest>, b: seq<ReturnRequest>, rid: string)
    requires |a| == |b|
    requires forall l :: 0 <= l < |a| ==> a[l].id == b[l].id
    ensures FindReturn(a, rid) == FindReturn(b, rid)
    decreases |a|
  {
    if |a| > 0 {
      FindReturnSameIds(a[1..], b[1..], rid);
    }
  }

  lemma {:induction false} FindOwnerSameLookups(a: seq<User>, b: seq<User>, rid: string)
    requires |a| == |b|
    requires forall l :: 0 <= l < |a| ==> FindReturn(a[l].returnRequests, rid) == FindReturn(b[l].returnRequests, rid)
    ensures FindReturnOwner(a, rid) == FindReturnOwner(b, rid)
    decreases |a|
  {
    if |a| > 0 {
      FindOwnerSameLookups(a[1..], b[1..], rid);
    }
  }

  /** Marking a request received twice is marking it once. */
  lemma MarkReceivedIdempotent(users: seq<User>, rid: string)
    ensures UpdateReturn(UpdateReturn(users, rid, "", true), rid, "", true) == UpdateReturn(users, rid, "", true)
  {
    var a := UpdateReturn(users, rid, "", true);
    UpdateKeepsLookup(users, rid, "", true);
    var i := FindReturnOwner(users, rid);
    if i >= 0 {
      var j := FindReturn(users[i].returnRequests, rid);
      UpdateReturnAt(users, rid, "", true);
      UpdateReturnAt(a, rid, "", true);
      assert a[i].returnRequests[j].received;
      assert a[i].returnRequests[j := a[i].returnRequests[j].(received := true)] == a[i].returnRequests;
      assert a[i := a[i]] == a;
    }
  }

  /** A later decision replaces an earlier one, whatever it was. */
  lemma DecisionLastWins(users: seq<User>, rid: string, s1: string, s2: string)
    ensures UpdateReturn(UpdateReturn(users, rid, s1, false), rid, s2, false) == UpdateReturn(users, rid, s2, false)
  {
    var a := UpdateReturn(users, rid, s1, false);
    UpdateKeepsLookup(users, rid, s1, false);
    var i := FindReturnOwner(users, rid);
    if i >= 0 {
      var j := FindReturn(users[i].returnRequests, rid);
      var u := users[i];
      var before := u.returnRequests[j];
      UpdateReturnAt(users, rid, s1, false);
      UpdateReturnAt(a, rid, s2, false);
      UpdateReturnAt(users, rid, s2, false);
      var second := u.(returnRequests := u.returnRequests[j := before.(status := s2)]);
      assert a[i].returnRequests[j := a[i].returnRequests[j].(status := s2)] == second.returnRequests;
      assert users[i := u.(returnRequests := u.returnRequests[j := before.(status := s1)])][i := second] == users[i := second];
    }
  }

  /** With the request found, an update rewrites exactly that request of exactly that user. */
  lemma UpdateReturnAt(users: seq<User>, rid: string, status: string, markReceived: bool)
    requires FindReturnOwner(users, rid) >= 0
    ensures
      var i := FindReturnOwner(users, rid);
      var j := FindReturn(users[i].returnRequests, rid);
      var before := users[i].returnRequests[j];
      UpdateReturn(users, rid, status, markReceived) == users[i := users[i].(returnRequests := users[i].returnRequests[j :=
        if markReceived then before.(received := true) else before.(status := status)])]
  {
  }

  predicate ValidReturnStatus(status: string) {
    status in {"pending", "approved", "rejected"}
  }

  /**
   * `PATCH /returns/:id/status`: an invalid status is refused before any
   * lookup; an unknown id is 404; otherwise only that request's status is
   * set, from whatever it was. The decision mail is fire-and-forget.
   */
  method UpdateReturnStatus(store: UserStore, rid: string, status: string)
    returns (res: Result<string>, mail: Option<Mail>)
    modifies store
    ensures !ValidReturnStatus(status) ==>
      res == Err(ApiError(400, "Invalid status")) && store.users == old(store.users) && mail.None?
    ensures ValidReturnStatus(status) && FindReturnOwner(old(store.users), rid) == -1 ==>
      res == Err(ApiError(404, "Return not found")) && store.users == old(store.users) && mail.None?
    ensures ValidReturnStatus(status) && FindReturnOwner(old(store.users), rid) >= 0 ==>
      var u := old(store.users)[FindReturnOwner(old(store.users), rid)];
      var ret := u.returnRequests[FindReturn(u.returnRequests, rid)];
      res == Ok("Status updated")
      && store.users == UpdateReturn(old(store.users), rid, status, false)
      && mail == Some(ReturnStatusMail(u.email, u.name, ret.orderId, status))
  {
    if !ValidReturnStatus(status) {
      return Err(ApiError(400, "Invalid status")), None;
    }
    var i := FindReturnOwner(store.users, rid);
    if i == -1 {
      return Err(ApiError(404, "Return not found")), None;
    }
    var u := store.users[i];
    var j := FindReturn(u.returnRequests, rid);
    var ret := u.returnRequests[j];
    store.users := store.users[i := u.(returnRequests := u.returnRequests[j := ret.(status := status)])];
    res := Ok("Status updated");
    mail := Some(ReturnStatusMail(u.email, u.name, ret.orderId, status));
  }

  /** `PATCH /returns/:id/received`: sets `received` whatever the status; sends no mail. */
  method MarkReceived(store: UserStore, rid: string) returns (res: Result<string>)
    modifies store
    ensures FindReturnOwner(old(store.users), rid) == -1 ==>
      res == Err(ApiError(404, "Return not found")) && store.users == old(store.users)
    ensures FindReturnOwner(old(store.users), rid) >= 0 ==>
      res == Ok("Return marked as received") && store.users == UpdateReturn(old(store.users), rid, "", true)
  {
    var i := FindReturnOwner(store.users, rid);
    if i == -1 {
      return Err(ApiError(404, "Return not found"));
    }
    var u := store.users[i];
    var j := FindReturn(u.returnRequests, rid);
    var ret := u.returnRequests[j];
    store.users := store.users[i := u.(returnRequests := u.returnRequests[j := ret.(received := true)])];
    res := Ok("Return marked as received");
  }
}
