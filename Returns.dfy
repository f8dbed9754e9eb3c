/**
 * The customer's returns page: the list newest first, each card's stepper
 * position, background, chip colour and label, and the status colour and
 * icon helpers.
 */
module Returns {
  import opened Wrappers
  import opened Sorting

  /** A return request as the page receives it; `date` is absent on some records. */
  datatype ReturnView = ReturnView(id: string, status: string, received: bool, date: Option<int>, createdAt: int)

  /** `a.date || a.createdAt`. */
  function WhenOf(r: ReturnView): int {
    if r.date.Some? && r.date.value != 0 then r.date.value else r.createdAt
  }

  /** `sortedReturns`: the same requests, latest first. */
  function SortedReturns(requests: seq<ReturnView>): (r: seq<ReturnView>)
    ensures multiset(r) == multiset(requests)
    ensures forall i, j :: 0 <= i < j < |r| ==> WhenOf(r[j]) <= WhenOf(r[i])
  {
    KeyDescPreorder(WhenOf);
    var r := SortSeq(requests, KeyDesc(WhenOf));
    assert forall i, j :: 0 <= i < j < |r| ==> KeyDesc(WhenOf)(r[i], r[j]);
    r
  }

  /** The newest request heads the list: nothing in it is later than the first card. */
  lemma NewestFirst(requests: seq<ReturnView>, x: ReturnView)
    requires x in requests
    ensures |SortedReturns(requests)| > 0
    ensures WhenOf(x) <= WhenOf(SortedReturns(requests)[0])
  {
    var r := SortedReturns(requests);
    assert x in multiset(r);
    var k :| 0 <= k < |r| && r[k] == x;
    assert k == 0 || WhenOf(r[k]) <= WhenOf(r[0]);
  }

  const Steps := ["Requested", "Approved", "Completed"]

  datatype CardStyle = CardStyle(stepIndex: nat, background: string, chipColor: string, chipLabel: string)

  const PendingStyle := CardStyle(0, "#fffbe6", "warning", "Requested")
  const ApprovedStyle := CardStyle(1, "#e3f2fd", "info", "Approved")
  const CompletedStyle := CardStyle(2, "#e8f5e9", "success", "Completed")

  /** A card's look: pending by default, approved for an approved request, completed once the item is received, whatever the status. */
  function CardFor(r: ReturnView): (c: CardStyle)
    ensures r.received ==> c == CompletedStyle
    ensures !r.received && r.status == "approved" ==> c == ApprovedStyle
    ensures !r.received && r.status != "approved" ==> c == PendingStyle
  {
    var c := PendingStyle;
    var c := if r.status == "approved" then ApprovedStyle else c;
    if r.received then CompletedStyle else c
  }

  /** The chip names the stepper's step, and the stepper stays within its three steps. */
  lemma LabelNamesStep(r: ReturnView)
    ensures CardFor(r).stepIndex < |Steps|
    ensures CardFor(r).chipLabel == Steps[CardFor(r).stepIndex]
  {
  }

  /** A rejected request that was never received still shows as requested; a received one is completed even if rejected. */
  lemma RejectedShowsRequested(r: ReturnView)
    requires r.status == "rejected"
    ensures !r.received ==> CardFor(r).chipLabel == "Requested"
    ensures r.received ==> CardFor(r).chipLabel == "Completed"
  {
  }

  /** `getStatusColor`. */
  function StatusColor(status: string): (r: string)
    ensures r == "success" <==> status == "approved"
    ensures r == "warning" <==> status == "pending"
    ensures r == "error" <==> status == "rejected"
    ensures r == "default" <==> status !in {"approved", "pending", "rejected"}
  {
    match status
    case "approved" => "success"
    case "pending" => "warning"
    case "rejected" => "error"
    case _ => "default"
  }

  datatype ReturnIcon = ApprovedIcon | PendingIcon | RejectedIcon

  /** `getStatusIcon`: an unknown status shows the pending icon. */
  function IconFor(status: string): (r: ReturnIcon)
    ensures r == ApprovedIcon <==> status == "approved"
    ensures r == RejectedIcon <==> status == "rejected"
    ensures r == PendingIcon <==> status !in {"approved", "rejected"}
  {
    match status
    case "approved" => ApprovedIcon
    case "rejected" => RejectedIcon
    case _ => PendingIcon
  }

  /** The icon falls back where the colour does not: an unknown status gets the pending icon but the default colour. */
  lemma UnknownStatusFallbacks(status: string)
    requires status !in {"approved", "pending", "rejected"}
    ensures IconFor(status) == IconFor("pending") && StatusColor(status) != StatusColor("pending")
  {
  }
}
