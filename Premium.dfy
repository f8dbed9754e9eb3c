/**
 * The premium membership page: who counts as premium, the button it shows,
 * the fixed checkout amount, and what a successful payment writes to the
 * profile and posts to the backend. Dates are local calendar moments;
 * `setFullYear(year + 1)` is modelled with the roll-over JavaScript applies
 * to 29 February.
 */
module Premium {
  import opened Wrappers
  import opened Pricing
  import Models
  import Home

  /** The checkout's `amount`: 249 rupees, in paise. */
  const CheckoutAmount := 24900
  const Currency := "INR"

  lemma CheckoutIsRupees249()
    ensures CheckoutAmount == 249 * 100
  {
  }

  /** The profile fields the page reads; a missing expiry is `None` (an invalid date, never later than now). */
  datatype PremiumView = PremiumView(isPremium: bool, premiumExpiry: Option<int>, subscription: Option<Models.Subscription>)

  /** `isPremium`: the premium flag with a future expiry, or a current subscription. */
  predicate IsPremium(u: PremiumView, now: int) {
    PremiumActive(u.isPremium, u.premiumExpiry, now) || Home.CurrentlySubscribed(u.subscription, now)
  }

  datatype PlanButton = SubscribedButton | SubscribeButton

  /** A premium member sees the disabled "Subscribed" button instead of "Subscribe". */
  function ButtonFor(u: PremiumView, now: int): (b: PlanButton)
    ensures b == SubscribedButton <==> IsPremium(u, now)
  {
    if IsPremium(u, now) then SubscribedButton else SubscribeButton
  }

  /** The payment page takes 250 off only through the premium flag: a member by subscription alone is shown as subscribed here but gets no flat discount. */
  lemma SubscriptionAloneGetsNoFlatDiscount(u: PremiumView, now: int)
    requires !u.isPremium && Home.CurrentlySubscribed(u.subscription, now)
    ensures ButtonFor(u, now) == SubscribedButton
    ensures Discount(u.isPremium, u.premiumExpiry, now) == 0
  {
  }

  /** A local date and time: year, month 1..12, day of month, milliseconds into the day. */
  datatype Moment = Moment(year: int, month: int, day: int, millis: int)

  predicate IsLeap(y: int) { y % 4 == 0 && (y % 100 != 0 || y % 400 == 0) }

  function DaysInMonth(y: int, m: int): int
    requires 1 <= m <= 12
  {
    if m == 2 then (if IsLeap(y) then 29 else 28)
    else if m == 4 || m == 6 || m == 9 || m == 11 then 30
    else 31
  }

  predicate Valid(t: Moment) {
    1 <= t.month <= 12 && 1 <= t.day <= DaysInMonth(t.year, t.month) && 0 <= t.millis < 86400000
  }

  /** `expiry.setFullYear(expiry.getFullYear() + 1)`: the same date a year on, except that 29 February becomes 1 March when the next year has none. */
  function OneYearLater(t: Moment): (r: Moment)
    requires Valid(t)
    ensures Valid(r)
    ensures r.year == t.year + 1 && r.millis == t.millis
    ensures !(t.month == 2 && t.day == 29) ==> r.month == t.month && r.day == t.day
    ensures t.month == 2 && t.day == 29 ==> (r.month, r.day) == (3, 1)
  {
    if t.month == 2 && t.day == 29 then Moment(t.year + 1, 3, 1, t.millis)
    else Moment(t.year + 1, t.month, t.day, t.millis)
  }

  function LeapDay(y: int): int { if IsLeap(y) then 1 else 0 }

  /** Days from 1 January of year 0 to 1 January of year `y` (negative before year 0). */
  function DaysBeforeYear(y: int): int {
    365 * y + (y + 3) / 4 - (y + 99) / 100 + (y + 399) / 400
  }

  function DaysBeforeMonth(y: int, m: int): int
    requires 1 <= m <= 12
  {
    var cumulative := [0, 31, 59, 90, 120, 151, 181, 212, 243, 273, 304, 334];
    cumulative[m - 1] + (if m > 2 then LeapDay(y) else 0)
  }

  /** The day's serial number, counting from 1 January of year 0. */
  function DayNumber(t: Moment): int
    requires Valid(t)
  {
    DaysBeforeYear(t.year) + DaysBeforeMonth(t.year, t.month) + t.day - 1
  }

  /** Milliseconds since the start of the calendar, the form the page compares with `new Date()`. */
  function Timestamp(t: Moment): int
    requires Valid(t)
  {
    DayNumber(t) * 86400000 + t.millis
  }

  /** A year is as long as its leap day makes it. */
  lemma YearLength(y: int)
    ensures DaysBeforeYear(y + 1) - DaysBeforeYear(y) == 365 + LeapDay(y)
  {
    StepBy(y, 4);
    StepBy(y, 100);
    StepBy(y, 400);
    LeapDayCount(y);
  }

  /** The leap day counted as multiples of 4, less multiples of 100, plus multiples of 400. */
  lemma LeapDayCount(y: int)
    ensures LeapDay(y) == (if y % 4 == 0 then 1 else 0) - (if y % 100 == 0 then 1 else 0) + (if y % 400 == 0 then 1 else 0)
  {
    if y % 400 == 0 {
      assert y == (y / 400) * 400;
      assert y == ((y / 400) * 4) * 100;
      assert y == ((y / 400) * 100) * 4;
    } else if y % 100 == 0 {
      assert y == ((y / 100) * 25) * 4;
    }
  }

  /** Moving one year on passes one multiple of `k` exactly when `y` is one. */
  lemma StepBy(y: int, k: int)
    requires k in {4, 100, 400}
    ensures (y + k) / k - (y + k - 1) / k == if y % k == 0 then 1 else 0
  {
    var q := y / k;
    var r := y % k;
    assert y == q * k + r && 0 <= r < k;
    if r == 0 {
      assert (y + k) / k == q + 1;
      assert (y + k - 1) / k == q;
    } else {
      assert (y + k) / k == q + 1;
      assert (y + k - 1) / k == q + 1;
    }
  }

  /** Two consecutive years are never both leap years. */
  lemma NoConsecutiveLeap(y: int)
    ensures !(IsLeap(y) && IsLeap(y + 1))
  {
  }

  /** The expiry is 365 or 366 days on: the length of the year that follows the subscription day. */
  lemma ExpiryDays(t: Moment)
    requires Valid(t)
    ensures DayNumber(OneYearLater(t)) - DayNumber(t)
      == 365 + (if t.month <= 2 then LeapDay(t.year) else LeapDay(t.year + 1))
    ensures 365 <= DayNumber(OneYearLater(t)) - DayNumber(t) <= 366
  {
    YearLength(t.year);
    if t.month == 2 && t.day == 29 {
      NoConsecutiveLeap(t.year);
    }
  }

  /** Straight after paying, the expiry lies ahead, so the new member counts as premium. */
  lemma JustSubscribedIsPremium(t: Moment, subscription: Option<Models.Subscription>)
    requires Valid(t)
    ensures Timestamp(OneYearLater(t)) - Timestamp(t) >= 365 * 86400000
    ensures IsPremium(PremiumView(true, Some(Timestamp(OneYearLater(t))), subscription), Timestamp(t))
  {
    ExpiryDays(t);
  }

  /** What the payment handler writes to the profile. */
  datatype ProfileUpdate = ProfileUpdate(isPremium: bool, premiumSubscribedAt: Moment, premiumExpiry: Moment)

  /** What it posts to `/user/manual-subscribe`. */
  datatype SubscribePayload = SubscribePayload(plan: string, paymentId: string, subscribedAt: Moment, expiry: Moment)

  /** The handler's outcome for a payment completed at `now` with the gateway's payment id. */
  function OnPaid(now: Moment, paymentId: string): (r: (ProfileUpdate, SubscribePayload))
    requires Valid(now)
    ensures r.0.isPremium && r.0.premiumSubscribedAt == now && r.0.premiumExpiry == OneYearLater(now)
    ensures r.1.plan == "year" && r.1.paymentId == paymentId
    ensures r.1.subscribedAt == r.0.premiumSubscribedAt && r.1.expiry == r.0.premiumExpiry
  {
    var expiry := OneYearLater(now);
    (ProfileUpdate(true, now, expiry), SubscribePayload("year", paymentId, now, expiry))
  }
}
