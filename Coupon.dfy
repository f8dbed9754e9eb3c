/**
 * The coupon document as its schema declares it: which fields are required,
 * which are restricted to a fixed set of values, the defaults of the others,
 * the trimming of `code` and the uniqueness of `code` in the collection.
 * Dates are integer timestamps.
 */
module Coupon {
  import opened Wrappers
  import opened Strings

  datatype CouponType = Public | Personal
  datatype CouponStatus = Active | Expired | Used

  datatype Coupon = Coupon(
    code: string,
    couponType: CouponType,
    category: string,
    discount: int,
    minPurchase: int,
    validFrom: int,
    validUntil: int,
    usageLimit: int,
    usedCount: int,
    status: CouponStatus,
    description: string,
    createdBy: string)

  /** The values a create call supplies; `None` (or "" for the strings) where a field is left out. */
  datatype CouponDraft = CouponDraft(
    code: string,
    couponType: Option<string>,
    category: Option<string>,
    discount: Option<int>,
    minPurchase: Option<int>,
    validFrom: Option<int>,
    validUntil: Option<int>,
    usageLimit: Option<int>,
    usedCount: Option<int>,
    status: Option<string>,
    description: Option<string>,
    createdBy: string)

  datatype SchemaError = Missing(field: string) | NotAllowed(field: string) | DuplicateCode

  datatype Saved = Stored(coupon: Coupon) | Rejected(error: SchemaError)

  function ParseType(s: string): (r: Option<CouponType>)
    ensures r == Some(Public) <==> s == "public"
    ensures r == Some(Personal) <==> s == "personal"
    ensures r.None? <==> s !in {"public", "personal"}
  {
    if s == "public" then Some(Public) else if s == "personal" then Some(Personal) else None
  }

  function ParseStatus(s: string): (r: Option<CouponStatus>)
    ensures r == Some(Active) <==> s == "active"
    ensures r == Some(Expired) <==> s == "expired"
    ensures r == Some(Used) <==> s == "used"
    ensures r.None? <==> s !in {"active", "expired", "used"}
  {
    if s == "active" then Some(Active) else if s == "expired" then Some(Expired)
    else if s == "used" then Some(Used) else None
  }

  /** No two stored coupons share a code. */
  predicate UniqueCodes(coupons: seq<Coupon>) {
    forall i, j :: 0 <= i < j < |coupons| ==> coupons[i].code != coupons[j].code
  }

  predicate CodeTaken(coupons: seq<Coupon>, code: string) {
    exists i :: 0 <= i < |coupons| && coupons[i].code == code
  }

  /** The first schema rule a draft breaks, if any: required fields, then the enumerations, then uniqueness. */
  function Violation(d: CouponDraft, existing: seq<Coupon>): (r: Option<SchemaError>)
    ensures r.None? <==>
      Trim(d.code) != "" && d.discount.Some? && d.validFrom.Some? && d.validUntil.Some? && d.createdBy != ""
      && (d.couponType.Some? ==> ParseType(d.couponType.value).Some?)
      && (d.status.Some? ==> ParseStatus(d.status.value).Some?)
      && !CodeTaken(existing, Trim(d.code))
    ensures r == Some(DuplicateCode) ==> CodeTaken(existing, Trim(d.code))
  {
    if Trim(d.code) == "" then Some(Missing("code"))
    else if d.discount.None? then Some(Missing("discount"))
    else if d.validFrom.None? then Some(Missing("validFrom"))
    else if d.validUntil.None? then Some(Missing("validUntil"))
    else if d.createdBy == "" then Some(Missing("createdBy"))
    else if d.couponType.Some? && ParseType(d.couponType.value).None? then Some(NotAllowed("type"))
    else if d.status.Some? && ParseStatus(d.status.value).None? then Some(NotAllowed("status"))
    else if CodeTaken(existing, Trim(d.code)) then Some(DuplicateCode)
    else None
  }

  /** Saving a draft: the trimmed code, the given values, and the schema defaults for the rest. */
  function Create(d: CouponDraft, existing: seq<Coupon>): (r: Saved)
    ensures r.Rejected? <==> Violation(d, existing).Some?
    ensures r.Stored? ==>
      var c := r.coupon;
      c.code == Trim(d.code) && c.discount == d.discount.value
      && c.validFrom == d.validFrom.value && c.validUntil == d.validUntil.value && c.createdBy == d.createdBy
      && c.couponType == (if d.couponType.None? then Public else ParseType(d.couponType.value).value)
      && c.status == (if d.status.None? then Active else ParseStatus(d.status.value).value)
      && c.category == d.category.GetOr("") && c.description == d.description.GetOr("")
      && c.minPurchase == d.minPurchase.GetOr(0)
      && c.usageLimit == d.usageLimit.GetOr(1) && c.usedCount == d.usedCount.GetOr(0)
  {
    var v := Violation(d, existing);
    if v.Some? then Rejected(v.value)
    else
      Stored(Coupon(
        Trim(d.code),
        if d.couponType.None? then Public else ParseType(d.couponType.value).value,
        d.category.GetOr(""),
        d.discount.value,
        d.minPurchase.GetOr(0),
        d.validFrom.value,
        d.validUntil.value,
        d.usageLimit.GetOr(1),
        d.usedCount.GetOr(0),
        if d.status.None? then Active else ParseStatus(d.status.value).value,
        d.description.GetOr(""),
        d.createdBy))
  }

  /** A draft naming only the required fields gets every default. */
  lemma DefaultsApplied(code: string, discount: int, from: int, until: int, admin: string, existing: seq<Coupon>)
    requires Trim(code) != "" && admin != "" && !CodeTaken(existing, Trim(code))
    ensures Create(CouponDraft(code, None, None, Some(discount), None, Some(from), Some(until), None, None, None, None, admin), existing)
      == Stored(Coupon(Trim(code), Public, "", discount, 0, from, until, 1, 0, Active, "", admin))
  {
  }

  /** A stored code carries no white space at either end. */
  lemma StoredCodeTrimmed(d: CouponDraft, existing: seq<Coupon>)
    requires Create(d, existing).Stored?
    ensures Trim(Create(d, existing).coupon.code) == Create(d, existing).coupon.code
  {
    TrimIdempotent(d.code);
  }

  /** Adding what `Create` accepts keeps the codes unique. */
  lemma CreateKeepsUnique(d: CouponDraft, existing: seq<Coupon>)
    requires UniqueCodes(existing)
    requires Create(d, existing).Stored?
    ensures UniqueCodes(existing + [Create(d, existing).coupon])
  {
    var t := existing + [Create(d, existing).coupon];
    forall i, j | 0 <= i < j < |t| ensures t[i].code != t[j].code {
      if j == |existing| {
        assert t[i] == existing[i];
      }
    }
  }
}
