/**
 * The customer's order history page: status colours, icons and labels,
 * the expanded-card list, the collapsed item preview, the tracking stepper,
 * and the return request it posts.
 */
module MyOrders {
  import opened Strings
  import opened Sequences
  import EmailService
  import UserRoutes

  /** `getStatusColor`. */
  function StatusColor(status: string): (r: string)
    ensures r == "success" <==> status == "delivered"
    ensures r == "info" <==> status == "shipped"
    ensures r == "warning" <==> status == "processing"
    ensures r == "error" <==> status == "cancelled"
    ensures r == "default" <==> status !in {"delivered", "shipped", "processing", "cancelled"}
  {
    match status
    case "delivered" => "success"
    case "shipped" => "info"
    case "processing" => "warning"
    case "cancelled" => "error"
    case _ => "default"
  }

  datatype StatusIcon = ShippingIcon | DeliveredIcon | CancelledIcon | NoIcon

  /** `getStatusIcon`: only shipped, delivered and cancelled orders carry an icon. */
  function IconFor(status: string): (r: StatusIcon)
    ensures r.NoIcon? <==> status !in {"shipped", "delivered", "cancelled"}
    ensures r.DeliveredIcon? <==> status == "delivered"
  {
    match status
    case "shipped" => ShippingIcon
    case "delivered" => DeliveredIcon
    case "cancelled" => CancelledIcon
    case _ => NoIcon
  }

  /** `getDisplayStatus`: the status with its first letter upper-cased; a missing or empty status shows "Pending". */
  function DisplayStatus(status: string): (r: string)
    ensures status == "" ==> r == "Pending"
    ensures status != "" ==> |r| == |status| && r[0] == UpperChar(status[0]) && r[1..] == status[1..]
  {
    if |status| > 0 then Capitalize(status) else "Pending"
  }

  /** The page labels a status exactly as the status mail's subject names it. */
  lemma DisplayMatchesMailSubject(orderId: string, status: string)
    requires status != ""
    ensures EmailService.OrderStatusSubject(orderId, status) == "Order #" + orderId + " Status Update: " + DisplayStatus(status)
  {
    var head := "Order #" + orderId + " Status Update: ";
    var r := EmailService.OrderStatusSubject(orderId, status);
    var d := DisplayStatus(status);
    assert r[..|head|] == head;
    assert r == r[..|head|] + r[|head|..];
    assert r[|head|..] == [r[|head|]] + r[|head| + 1..];
    assert d == [d[0]] + d[1..];
  }

  /** `handleExpandToggle`: an expanded id is removed (every copy), any other is appended. */
  function ToggleExpanded(expanded: seq<string>, id: string): (r: seq<string>)
    ensures id in expanded ==> id !in r && forall x :: x != id ==> (x in r <==> x in expanded)
    ensures id !in expanded ==> r == expanded + [id]
  {
    if id in expanded then Filter(expanded, (x: string) => x != id) else expanded + [id]
  }

  /** Expanding and collapsing a card restores the list. */
  lemma ToggleTwiceRestores(expanded: seq<string>, id: string)
    requires id !in expanded
    ensures ToggleExpanded(ToggleExpanded(expanded, id), id) == expanded
  {
    FilterTail(expanded, id);
  }

  /** Removing an id from a list that holds it only as its last element gives back the rest. */
  lemma {:induction false} FilterTail(s: seq<string>, id: string)
    requires id !in s
    ensures Filter(s + [id], (x: string) => x != id) == s
    decreases |s|
  {
    if |s| == 0 {
      assert [id][1..] == [];
    } else {
      assert (s + [id])[1..] == s[1..] + [id];
      FilterTail(s[1..], id);
      assert s == [s[0]] + s[1..];
    }
  }

  /** Collapsing and re-expanding a card leaves the same ids expanded. */
  lemma ToggleTwiceSameMembers(expanded: seq<string>, id: string)
    requires id in expanded
    ensures forall x :: x in ToggleExpanded(ToggleExpanded(expanded, id), id) <==> x in expanded
  {
  }

  /** The items a card shows: all when expanded, else the first two. */
  function VisibleItems<T>(items: seq<T>, expanded: bool): (r: seq<T>)
    ensures expanded ==> r == items
    ensures !expanded ==> |r| == (if |items| <= 2 then |items| else 2) && r == items[..|r|]
  {
    if expanded then items else Take(items, 2)
  }

  const TrackingSteps := ["Order Placed", "Processing", "Shipped", "Out for Delivery", "Delivered"]

  /** The tracking stepper's active step. */
  function ActiveStep(status: string): (r: nat)
    ensures r < |TrackingSteps|
    ensures r == 4 <==> status == "delivered"
    ensures r == 2 <==> status == "shipped"
    ensures r == 1 <==> status == "processing"
    ensures r == 0 <==> status !in {"delivered", "shipped", "processing"}
  {
    if status == "delivered" then 4 else if status == "shipped" then 2 else if status == "processing" then 1 else 0
  }

  /** A step is ticked for a delivered, shipped or processing order up to its active step. */
  predicate StepCompleted(status: string, idx: int) {
    (status == "delivered" && idx <= 4) || (status == "shipped" && idx <= 2) || (status == "processing" && idx <= 1)
  }

  /** The ticks agree with the active step: exactly the steps up to it, and none before processing starts. */
  lemma StepsAgreeWithActive(status: string, idx: int)
    ensures StepCompleted(status, idx) <==> status in {"delivered", "shipped", "processing"} && idx <= ActiveStep(status)
    ensures ActiveStep(status) == 0 && status != "processing" ==> !StepCompleted(status, idx)
  {
  }

  /** Only a delivered order is shown in the success colour, and only it ticks the last step. */
  lemma SuccessMeansLastStep(status: string)
    ensures StatusColor(status) == "success" <==> StepCompleted(status, |TrackingSteps| - 1)
  {
  }

  /** The order line as the page knows it: its product reference ("" when absent) and its own id. */
  datatype ItemRef = ItemRef(product: string, id: string)

  /** `handleSubmitReturn`'s body: the product reference, else the line's own id. */
  function ReturnPayload(orderId: string, item: ItemRef, reason: string): (b: UserRoutes.ReturnBody)
    ensures b.orderId == orderId && b.reason == reason
    ensures item.product != "" ==> b.productId == item.product
    ensures item.product == "" ==> b.productId == item.id
  {
    UserRoutes.ReturnBody(orderId, if item.product != "" then item.product else item.id, reason)
  }

  /** The server accepts the body exactly when a reason was chosen and the order and some product reference are known. */
  lemma PayloadAccepted(orderId: string, item: ItemRef, reason: string)
    ensures UserRoutes.ValidateReturnBody(ReturnPayload(orderId, item, reason)).None? <==>
      orderId != "" && reason != "" && (item.product != "" || item.id != "")
  {
  }

  /** The snackbar text after a failed request: the server's message, else the default. */
  function ReturnErrorMessage(serverMessage: string): (r: string)
    ensures serverMessage != "" ==> r == serverMessage
    ensures serverMessage == "" ==> r == "Failed to submit return request."
  {
    if serverMessage != "" then serverMessage else "Failed to submit return request."
  }
}
