/**
 * Template selection of the backend's mail helpers: which subject and which
 * sentence each notification carries, and what each helper reports when the
 * mail transport fails. The transport itself is a boolean input.
 */
module EmailService {
  import opened Wrappers
  import opened Strings

  /** The parts of a message the templates vary: recipient, subject, greeting name, sentence. */
  datatype Mail = Mail(to: string, subject: string, greeting: string, sentence: string)

  /** What a helper does with a transport failure: return a boolean, or throw. */
  datatype SendOutcome = Returned(sent: bool) | Threw(message: string)

  /** The `statusMessages` dictionary of `sendOrderStatusEmail`. */
  function StatusMessage(status: string): (r: Option<string>)
    ensures r.Some? <==> status in {"pending", "processing", "shipped", "out-for-delivery", "delivered", "cancelled"}
  {
    match status
    case "pending" => Some("Your order is pending.")
    case "processing" => Some("Your order is being processed.")
    case "shipped" => Some("Your order has been shipped!")
    case "out-for-delivery" => Some("Your order is out for delivery!")
    case "delivered" => Some("Your order has been delivered!")
    case "cancelled" => Some("Your order has been cancelled.")
    case _ => None
  }

  const StatusFallback := "Order status updated."

  /**
   * The names a plain object literal inherits from `Object.prototype`. Looking
   * one of them up in `statusMessages` finds the inherited member, which is
   * truthy, so the fallback is not used.
   */
  const InheritedNames: set<string> := {
    "constructor", "__defineGetter__", "__defineSetter__", "hasOwnProperty",
    "__lookupGetter__", "__lookupSetter__", "isPrototypeOf", "propertyIsEnumerable",
    "toString", "valueOf", "__proto__", "toLocaleString"}

  /**
   * The text an inherited member prints as inside the template literal: the
   * prototype object itself for `__proto__`, the `Object` function for
   * `constructor`, and a native function of that name for the methods.
   */
  function InheritedText(name: string): (r: string)
    ensures |r| > 0 && (r[0] == 'f' || r[0] == '[')
    ensures name == "constructor" ==> r == "function Object() { [native code] }"
    ensures name == "__proto__" ==> r == "[object Object]"
  {
    if name == "__proto__" then "[object Object]"
    else if name == "constructor" then "function Object() { [native code] }"
    else "function " + name + "() { [native code] }"
  }

  /**
   * The sentence of the status mail, `statusMessages[status] || fallback`: the
   * table's own entry, else an inherited member's text, else the fallback.
   */
  function OrderStatusSentence(status: string): (r: string)
    ensures StatusMessage(status).Some? ==> r == StatusMessage(status).value
    ensures status in InheritedNames ==> r == InheritedText(status)
    ensures r == StatusFallback <==> StatusMessage(status).None? && status !in InheritedNames
  {
    match StatusMessage(status)
    case Some(m) => m
    case None => if status in InheritedNames then InheritedText(status) else StatusFallback
  }

  /** The status mail subject: the order id, then the status with its first letter upper-cased. */
  function OrderStatusSubject(orderId: string, status: string): (r: string)
    ensures StartsWith(r, "Order #" + orderId + " Status Update: ")
    ensures |r| == |"Order #" + orderId + " Status Update: "| + |status|
    ensures |status| > 0 ==> r[|r| - |status|] == UpperChar(status[0]) && r[|r| - |status| + 1..] == status[1..]
  {
    var head := "Order #" + orderId + " Status Update: ";
    var r := head + Capitalize(status);
    assert r[..|head|] == head;
    assert r[|head|..] == Capitalize(status);
    r
  }

  function OrderStatusMail(email: string, status: string, orderId: string, userName: string): (m: Mail)
    ensures m.to == email && m.greeting == userName
    ensures m.subject == OrderStatusSubject(orderId, status)
    ensures m.sentence == OrderStatusSentence(status)
  {
    Mail(email, OrderStatusSubject(orderId, status), userName, OrderStatusSentence(status))
  }

  /** Statuses that differ only in the case of their first letter share a subject but not a sentence. */
  lemma SubjectIgnoresInitialCase(orderId: string)
    ensures OrderStatusSubject(orderId, "pending") == OrderStatusSubject(orderId, "Pending")
    ensures OrderStatusSentence("pending") != OrderStatusSentence("Pending")
  {
    assert Capitalize("pending") == "Pending";
    assert Capitalize("Pending") == "Pending";
  }

  function OrderConfirmedMail(email: string, orderId: string, userName: string): (m: Mail)
    ensures m.to == email && m.greeting == userName
    ensures StartsWith(m.subject, "Order #" + orderId)
    ensures m.subject == "Order #" + orderId + " Confirmed! \U{1F389}"
  {
    Mail(email, "Order #" + orderId + " Confirmed! \U{1F389}", userName,
         "Your order has been confirmed and is being prepared for shipment.")
  }

  function ReturnPlacedMail(email: string, userName: string, orderId: string): (m: Mail)
    ensures m.to == email && m.greeting == userName
    ensures m.subject == "Return Request Placed for Order #" + orderId
  {
    Mail(email, "Return Request Placed for Order #" + orderId, userName,
         "We have received your return request.")
  }

  /** The decision word of the return status mail: only "approved" reads as an approval. */
  function ReturnStatusText(status: string): (r: string)
    ensures r == "Approved" <==> status == "approved"
    ensures r == "Rejected" <==> status != "approved"
  {
    if status == "approved" then "Approved" else "Rejected"
  }

  const ApprovedReturnSentence := "Your return request has been approved. Please follow the instructions for returning your product."
  const RejectedReturnSentence := "Your return request has been rejected. If you have questions, please contact support."

  /** The body sentence of the return status mail: the approval text for "approved", the rejection text for anything else. */
  function ReturnStatusSentence(status: string): (r: string)
    ensures r == ApprovedReturnSentence <==> status == "approved"
    ensures r == RejectedReturnSentence <==> status != "approved"
  {
    assert |ApprovedReturnSentence| != |RejectedReturnSentence|;
    if status == "approved" then ApprovedReturnSentence else RejectedReturnSentence
  }

  function ReturnStatusMail(email: string, userName: string, orderId: string, status: string): (m: Mail)
    ensures m.to == email && m.greeting == userName
    ensures m.subject == "Return Request " + ReturnStatusText(status) + " for Order #" + orderId
    ensures m.sentence == ReturnStatusSentence(status)
  {
    Mail(email, "Return Request " + ReturnStatusText(status) + " for Order #" + orderId, userName,
         ReturnStatusSentence(status))
  }

  /** Setting a return back to "pending" mails the customer a rejection. */
  lemma PendingMailsRejection(email: string, userName: string, orderId: string)
    ensures ReturnStatusMail(email, userName, orderId, "pending") == ReturnStatusMail(email, userName, orderId, "rejected")
  {
  }

  /** The OTP subject: the login subject for any user type, else a reset subject by user type. */
  function OtpSubject(userType: string, purpose: string): (r: string)
    ensures purpose == "login" <==> r == "Your BEATEN Login OTP"
    ensures purpose != "login" && userType == "admin" <==> r == "Admin Password Reset OTP - BEATEN"
    ensures purpose != "login" && userType != "admin" <==> r == "Password Reset OTP - BEATEN"
  {
    if purpose == "login" then "Your BEATEN Login OTP"
    else if userType == "admin" then "Admin Password Reset OTP - BEATEN"
    else "Password Reset OTP - BEATEN"
  }

  function ResetSuccessSubject(userType: string): (r: string)
    ensures userType == "admin" <==> r == "Admin Password Reset Successful - BEATEN"
    ensures userType != "admin" <==> r == "Password Reset Successful - BEATEN"
  {
    if userType == "admin" then "Admin Password Reset Successful - BEATEN" else "Password Reset Successful - BEATEN"
  }

  /**
   * `sendOTPEmail`: true on delivery; a transport failure becomes a thrown
   * error. This and the next function only record the helpers' own catch
   * behaviour; the handlers modelled here return the mail they send, so
   * their responses cannot depend on delivery.
   */
  function SendOtpOutcome(transportOk: bool): (r: SendOutcome)
    ensures transportOk <==> r == Returned(true)
    ensures !transportOk <==> r == Threw("Failed to send email")
  {
    if transportOk then Returned(true) else Threw("Failed to send email")
  }

  /**
   * The status, confirmed, return-placed, return-status and reset-success
   * helpers: they never throw, and report delivery as their boolean result.
   */
  function SendNotificationOutcome(transportOk: bool): (r: SendOutcome)
    ensures r.Returned?
    ensures r.sent == transportOk
  {
    Returned(transportOk)
  }
}
