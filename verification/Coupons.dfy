/** Coupon evaluation, shared by the settle paths of the device and of the cloud. */
module Coupons {
  import opened Numbers
  import opened Options
  import opened Rounding

  datatype CouponKind = Percent | Flat

  datatype Coupon = Coupon(
    kind: CouponKind,
    value: real,
    minOrder: real,
    maxDiscount: Option<real>,
    validFrom: Option<int>,
    validTo: Option<int>,
    usageLimit: Option<int>,
    usedCount: int,
    isActive: bool)

  datatype Evaluation = Valid(discountPaise: int) | Invalid(message: string)

  function DiscountRupees(c: Coupon, subtotal: real): real {
    var d := if c.kind == Percent then subtotal * c.value / 100.0 else c.value;
    var capped := if c.maxDiscount.Some? then MinReal(d, c.maxDiscount.value) else d;
    MinReal(capped, subtotal)
  }

  /** `subtotal` is in rupees and `now` an instant; the discount comes back in paise. */
  function Evaluate(coupon: Option<Coupon>, subtotal: real, now: int): Evaluation {
    if coupon.None? then Invalid("Coupon not found")
    else
      var c := coupon.value;
      if !c.isActive then Invalid("Coupon is inactive")
      else if c.validFrom.Some? && now < c.validFrom.value then Invalid("Coupon is not valid yet")
      else if c.validTo.Some? && now > c.validTo.value then Invalid("Coupon has expired")
      else if c.usageLimit.Some? && c.usedCount >= c.usageLimit.value then Invalid("Coupon usage limit reached")
      else if subtotal < c.minOrder then Invalid("Below the minimum order")
      else Valid(Round(DiscountRupees(c, subtotal) * 100.0))
  }

  /** An accepted coupon was within every one of its limits, and a coupon within all of them is accepted. */
  predicate WithinLimits(c: Coupon, subtotalPaise: int, now: int) {
    && c.isActive && 100.0 * c.minOrder <= subtotalPaise as real
    && (c.validFrom.Some? ==> c.validFrom.value <= now) && (c.validTo.Some? ==> now <= c.validTo.value)
    && (c.usageLimit.Some? ==> c.usedCount < c.usageLimit.value)
  }

  lemma AcceptedIffWithinLimits(c: Coupon, subtotalPaise: int, now: int)
    ensures Evaluate(Some(c), FromPaise(subtotalPaise), now).Valid? <==> WithinLimits(c, subtotalPaise, now)
  {
    hide DiscountRupees, Round;
    assert 100.0 * FromPaise(subtotalPaise) == subtotalPaise as real;
  }

  /** A refusal gives a reason that is true. */
  lemma RefusalIsTrue(c: Option<Coupon>, subtotalPaise: int, now: int)
    ensures var e := Evaluate(c, FromPaise(subtotalPaise), now);
            && (c.None? ==> e == Invalid("Coupon not found"))
            && (e.Invalid? && c.Some? ==>
                  || (e.message == "Coupon is inactive" && !c.value.isActive)
                  || (e.message == "Coupon is not valid yet" && c.value.validFrom.Some?
                      && now < c.value.validFrom.value)
                  || (e.message == "Coupon has expired" && c.value.validTo.Some? && c.value.validTo.value < now)
                  || (e.message == "Coupon usage limit reached" && c.value.usageLimit.Some?
                      && c.value.usedCount >= c.value.usageLimit.value)
                  || (e.message == "Below the minimum order" && 100.0 * c.value.minOrder > subtotalPaise as real))
  {
    hide DiscountRupees, Round;
    assert 100.0 * FromPaise(subtotalPaise) == subtotalPaise as real;
  }

  /** What the coupon is worth before its own cap and the bill cap it, in paise. */
  function Worth(c: Coupon, subtotalPaise: int): real {
    match c.kind
    case Percent => subtotalPaise as real * c.value / 100.0
    case Flat => 100.0 * c.value
  }

  /** The bill and the cap of the coupon, whichever is less, in paise. */
  function Bound(c: Coupon, subtotalPaise: int): real {
    var bill := subtotalPaise as real;
    if c.maxDiscount.Some? && 100.0 * c.maxDiscount.value < bill then 100.0 * c.maxDiscount.value else bill
  }

  /**
   What an accepted coupon takes off: a percentage within cap and bill is the percentage of the bill to
   the nearest paisa, a flat coupon its value, and where cap or bill binds the discount is exactly that.
   */
  lemma DiscountIsWorth(c: Coupon, subtotalPaise: int, now: int)
    requires Evaluate(Some(c), FromPaise(subtotalPaise), now).Valid?
    ensures var d := Evaluate(Some(c), FromPaise(subtotalPaise), now).discountPaise;
            var free := Worth(c, subtotalPaise) <= Bound(c, subtotalPaise);
            && (free && c.kind == Percent ==> Nearest(d, c.value * subtotalPaise as real, 100.0))
            && (free && c.kind == Flat ==> d == ToPaise(c.value))
            && (!free ==> d == if Bound(c, subtotalPaise) < subtotalPaise as real then ToPaise(c.maxDiscount.value)
                               else subtotalPaise)
            && d <= subtotalPaise && (c.maxDiscount.Some? ==> d <= ToPaise(c.maxDiscount.value))
  {
    var rupees := FromPaise(subtotalPaise);
    var x := DiscountRupees(c, rupees) * 100.0;
    PaiseRoundTrip(subtotalPaise);
    RoundMonotone(x, rupees * 100.0);
    if c.maxDiscount.Some? {
      RoundMonotone(x, c.maxDiscount.value * 100.0);
    }
    assert rupees * c.value / 100.0 * 100.0 == subtotalPaise as real * c.value / 100.0;
    hide Nearest, Round;
    if c.kind == Percent {
      RoundIsNearest(Worth(c, subtotalPaise), c.value * subtotalPaise as real, 100.0);
    }
  }

  /** A coupon that is not negative never costs the customer anything. */
  lemma DiscountIsNotNegative(c: Coupon, subtotalPaise: int, now: int)
    requires Evaluate(Some(c), FromPaise(subtotalPaise), now).Valid? && c.value >= 0.0 && subtotalPaise >= 0
    requires c.maxDiscount.Some? ==> c.maxDiscount.value >= 0.0
    ensures Evaluate(Some(c), FromPaise(subtotalPaise), now).discountPaise >= 0
  {
    var rupees := FromPaise(subtotalPaise);
    ProductOfNonNegatives(rupees, c.value);
    RoundMonotone(0.0, DiscountRupees(c, rupees) * 100.0);
  }
}
