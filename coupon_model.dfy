/** The coupon schema: code setters, bounds, enum and defaults. */
module CouponModel {
  import opened Text

  /** `Number.MAX_SAFE_INTEGER`, the default upper purchase bound. */
  const MaxSafeInteger: real := 9007199254740991.0

  const CouponStatuses: set<string> := {"active", "inactive"}

  datatype Coupon = Coupon(
    code: string,
    discountPercentage: real,
    minPurchase: real,
    maxPurchase: real,
    status: string,
    usageLimit: int,
    usedCount: int)

  /** The `uppercase` and `trim` setters of `code`.  Mongoose runs them on every
      write and also on the value of a `code` filter. */
  function NormaliseCode(code: string): string {
    Trim(Upper(code))
  }

  /** The normal form is upper-cased and trimmed, and the setters leave exactly
      such strings unchanged; so a stored code is its own normal form and two
      spellings that normalise alike find the same coupon. */
  lemma NormaliseCodeShape(code: string)
    ensures UpperCased(NormaliseCode(code)) && Trimmed(NormaliseCode(code))
    ensures UpperCased(code) && Trimmed(code) ==> NormaliseCode(code) == code
  {
    NormalFormUpperCased(code);
    if UpperCased(code) && Trimmed(code) {
      UpperOfUpperCased(code);
      TrimFixedIffTrimmed(code);
    }
  }

  lemma NormalFormUpperCased(code: string)
    ensures UpperCased(Trim(Upper(code))) && Trimmed(Trim(Upper(code)))
  {
    var u := Upper(code);
    var t := Trim(u);
    var i := StartOfText(u, 0);
    forall k | 0 <= k < |t|
      ensures UpperAt(t, k)
    {
      assert t[k] == u[i + k];
      UpperCharIdempotent(code[i + k]);
    }
  }

  lemma UpperOfUpperCased(s: string)
    requires UpperCased(s)
    ensures Upper(s) == s
  {
    forall k | 0 <= k < |s| ensures Upper(s)[k] == s[k] {
      assert UpperAt(s, k);
    }
  }

  lemma NormaliseCodeIdempotent(code: string)
    ensures NormaliseCode(NormaliseCode(code)) == NormaliseCode(code)
  {
    NormaliseCodeShape(code);
    NormaliseCodeShape(NormaliseCode(code));
  }

  /** The setters leave an empty code exactly of a blank one: upper-casing
      turns no character into whitespace or out of it. */
  lemma NormalisedEmptyIffBlank(code: string)
    ensures NormaliseCode(code) == "" <==> Blank(code)
  {
    var u := Upper(code);
    TrimEmptyIffBlank(u);
    assert Blank(u) <==> Blank(code) by {
      forall i | 0 <= i < |code| ensures IsSpace(u[i]) <==> IsSpace(code[i]) {
        assert u[i] == UpperChar(code[i]);
      }
    }
  }

  /** The schema's validators: a non-empty code in normal form, a percentage in
      [0, 100], a status from the enum, `usageLimit >= 1` and `usedCount >= 0`. */
  predicate ValidCoupon(c: Coupon) {
    && c.code != "" && UpperCased(c.code) && Trimmed(c.code)
    && 0.0 <= c.discountPercentage <= 100.0
    && c.status in CouponStatuses
    && c.usageLimit >= 1
    && c.usedCount >= 0
  }

  /** Taking one use off a valid coupon keeps it valid only while at least two
      uses remain: `min: 1` refuses the save that would leave zero. */
  lemma ReservationNeedsTwoUses(c: Coupon)
    requires ValidCoupon(c)
    ensures ValidCoupon(c.(usageLimit := c.usageLimit - 1)) <==> c.usageLimit >= 2
  {
  }
}
