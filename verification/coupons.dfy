/**
  Coupon lookup: `getDiscountPercentage` and the `if (couponCode)` guard in
  `create`. The coupon collection is a sequence of stored coupons and
  `findOne({ code, tenantId })` returns the first one matching both fields.
  Dates are instants as integers (milliseconds since the epoch); the current
  instant is a parameter.
 */
module Coupons {
  import opened Wrappers

  datatype Coupon = Coupon(code: string, discount: int, validUpto: int, tenantId: string)

  predicate Matches(c: Coupon, code: string, tenantId: string) {
    c.code == code && c.tenantId == tenantId
  }

  /** Coupon `i` is the first one stored with this code for this tenant. */
  predicate FirstMatch(coupons: seq<Coupon>, code: string, tenantId: string, i: int) {
    && 0 <= i < |coupons|
    && Matches(coupons[i], code, tenantId)
    && forall j :: 0 <= j < i ==> !Matches(coupons[j], code, tenantId)
  }

  /** `findOne({ code, tenantId })`: the first stored coupon with this code for this tenant. */
  function FindCoupon(coupons: seq<Coupon>, code: string, tenantId: string): (r: Option<Coupon>)
    ensures r.None? <==> forall i :: 0 <= i < |coupons| ==> !Matches(coupons[i], code, tenantId)
    ensures r.Some? ==>
      (exists i :: 0 <= i < |coupons| && coupons[i] == r.value && Matches(coupons[i], code, tenantId) &&
         forall j :: 0 <= j < i ==> !Matches(coupons[j], code, tenantId))
  {
    if coupons == [] then None
    else if Matches(coupons[0], code, tenantId) then Some(coupons[0])
    else
      var r := FindCoupon(coupons[1..], code, tenantId);
      assert forall i :: 0 <= i < |coupons| - 1 ==> coupons[1..][i] == coupons[i + 1];
      r
  }

  /** At most one stored coupon is the first match. */
  lemma FirstMatchUnique(coupons: seq<Coupon>, code: string, tenantId: string)
    ensures forall i, k :: FirstMatch(coupons, code, tenantId, i) && FirstMatch(coupons, code, tenantId, k) ==> i == k
  {
  }

  /**
    `getDiscountPercentage`: the coupon's discount when the coupon exists for
    this tenant and has not expired (the expiry instant itself still counts),
    0 otherwise.
   */
  function DiscountPercentage(coupons: seq<Coupon>, code: string, tenantId: string, now: int): (r: int)
    ensures (forall i :: 0 <= i < |coupons| ==> !Matches(coupons[i], code, tenantId)) ==> r == 0
    ensures forall i :: FirstMatch(coupons, code, tenantId, i) ==>
      r == (if now <= coupons[i].validUpto then coupons[i].discount else 0)
    ensures r != 0 ==>
      (exists i :: 0 <= i < |coupons| && Matches(coupons[i], code, tenantId) && now <= coupons[i].validUpto && r == coupons[i].discount)
  {
    FirstMatchUnique(coupons, code, tenantId);
    match FindCoupon(coupons, code, tenantId)
    case None => 0
    case Some(c) => if now <= c.validUpto then c.discount else 0
  }

  /**
    The percentage `create` applies: `getDiscountPercentage` is consulted only
    when a non-empty coupon code was sent (an absent or empty code is falsy).
   */
  function CouponPercentage(couponCode: Option<string>, coupons: seq<Coupon>, tenantId: string, now: int): (r: int)
    ensures couponCode.None? || couponCode.value == "" ==> r == 0
    ensures couponCode.Some? && couponCode.value != "" ==> r == DiscountPercentage(coupons, couponCode.value, tenantId, now)
    ensures r != 0 ==>
      (exists i :: 0 <= i < |coupons| && Matches(coupons[i], couponCode.value, tenantId) && now <= coupons[i].validUpto && r == coupons[i].discount)
  {
    match couponCode
    case None => 0
    case Some(code) => if code == "" then 0 else DiscountPercentage(coupons, code, tenantId, now)
  }

  /**
    With the (code, tenant) pair stored once, the percentage is that coupon's
    discount up to and including its expiry instant and 0 after it.
   */
  lemma UniqueCouponDiscount(coupons: seq<Coupon>, c: Coupon, now: int)
    requires c in coupons
    requires forall i :: 0 <= i < |coupons| && Matches(coupons[i], c.code, c.tenantId) ==> coupons[i] == c
    ensures now <= c.validUpto ==> DiscountPercentage(coupons, c.code, c.tenantId, now) == c.discount
    ensures now > c.validUpto ==> DiscountPercentage(coupons, c.code, c.tenantId, now) == 0
  {
    var k :| 0 <= k < |coupons| && coupons[k] == c;
    assert Matches(coupons[k], c.code, c.tenantId);
    var found := FindCoupon(coupons, c.code, c.tenantId);
    assert found == Some(c) by {
      assert found.Some?;
      var i :| 0 <= i < |coupons| && coupons[i] == found.value && Matches(coupons[i], c.code, c.tenantId);
    }
  }

  /** A coupon that no longer applies never applies again later. */
  lemma ExpiredStaysExpired(coupons: seq<Coupon>, code: string, tenantId: string, earlier: int, later: int)
    requires earlier <= later
    ensures DiscountPercentage(coupons, code, tenantId, later) == 0 ||
            DiscountPercentage(coupons, code, tenantId, later) == DiscountPercentage(coupons, code, tenantId, earlier)
  {
  }
}
