/** The cart's order summary: shipping, tax and total derived from the cart
    subtotal, and the coupon box that fixes a discount when a code is applied.
    The subtotal comes from the cart store, which is not part of this model. */
module CartSummary {
  import opened Wrappers
  import opened Text

  /** Free shipping strictly over 100; a flat 10 otherwise, 100 included. */
  function Shipping(subtotal: real): (s: real)
    ensures s == 0.0 <==> subtotal > 100.0
    ensures s != 0.0 ==> s == 10.0
  {
    if subtotal > 100.0 then 0.0 else 10.0
  }

  /** Eight percent of the subtotal. */
  function Tax(subtotal: real): (t: real)
    ensures 25.0 * t == 2.0 * subtotal
  {
    subtotal * 0.08
  }

  /** `subtotal + shipping + tax - discount`, with no clamp at zero. */
  function Total(subtotal: real, discount: real): (t: real)
    ensures t + discount == subtotal + Shipping(subtotal) + Tax(subtotal)
  {
    subtotal + Shipping(subtotal) + Tax(subtotal) - discount
  }

  /** A subtotal of 50 with SAVE10 applied: 50 + 10 + 4 - 5. */
  lemma Save10OnFifty()
    ensures CouponDiscount("SAVE10", 50.0) == Some(5.0)
    ensures Total(50.0, 5.0) == 59.0
  {
    assert Lower("SAVE10") == "save10";
  }

  /** A fixed discount larger than the charges drives the total below zero. */
  lemma TotalCanBeNegative()
    ensures CouponDiscount("welcome20", 5.0) == Some(20.0)
    ensures Total(5.0, 20.0) < 0.0
  {
    assert Lower("welcome20") == "welcome20";
  }

  /** Crossing the free-shipping threshold makes a larger cart cheaper. */
  lemma TotalDropsPastThreshold()
    ensures Total(100.0, 0.0) > Total(101.0, 0.0)
  {
  }

  /** The discount a code earns against `subtotal`, compared case-insensitively
      and without trimming; `None` for an unknown code. */
  function CouponDiscount(code: string, subtotal: real): (d: Option<real>)
    ensures d.Some? <==> Lower(code) == "save10" || Lower(code) == "welcome20"
    ensures Lower(code) == "save10" ==> d == Some(subtotal / 10.0)
    ensures Lower(code) == "welcome20" ==> d == Some(20.0)
  {
    var lowered := Lower(code);
    if lowered == "save10" then Some(subtotal * 0.1)
    else if lowered == "welcome20" then Some(20.0)
    else None
  }

  /** Only the letters' case is ignored: a code and its lower-cased form earn
      the same discount. */
  lemma CouponIgnoresCase(code: string, subtotal: real)
    ensures CouponDiscount(Lower(code), subtotal) == CouponDiscount(code, subtotal)
  {
    LowerIdempotent(code);
  }

  /** Surrounding spaces are not trimmed before the comparison. */
  lemma PaddedCodeIsRejected(subtotal: real)
    ensures CouponDiscount(" save10", subtotal) == None
  {
    assert Lower(" save10")[0] == ' ';
  }

  /** The Apply button is enabled when the trimmed code is non-empty, that
      is, when the code has a character other than whitespace. */
  function CanApply(code: string): (b: bool)
    ensures b <==> exists i :: 0 <= i < |code| && !IsSpace(code[i])
  {
    TrimEmptyIffBlank(code);
    Trim(code) != []
  }

  /** The amount the free-shipping hint quotes, shown only while shipping is
      charged. */
  function Hint(subtotal: real): (h: Option<real>)
    ensures h.Some? <==> Shipping(subtotal) != 0.0
    ensures h.Some? ==> h.value >= 0.0 && subtotal + h.value == 100.0
  {
    if Shipping(subtotal) == 0.0 then None else Some(100.0 - subtotal)
  }

  /** Adding exactly the quoted amount reaches 100, which still pays for
      shipping. */
  lemma HintFallsShort(subtotal: real)
    requires Hint(subtotal).Some?
    ensures Shipping(subtotal + Hint(subtotal).value) == 10.0
  {
  }

  /** The hint in whole cents: the smallest amount whose addition makes
      shipping free. */
  function HintCents(subtotalCents: int): (h: Option<int>)
    ensures h.Some? <==> Shipping(subtotalCents as real / 100.0) != 0.0
    ensures h.Some? ==> h.value > 0
    ensures h.Some? ==> Shipping((subtotalCents + h.value) as real / 100.0) == 0.0
    ensures h.Some? ==> Shipping((subtotalCents + h.value - 1) as real / 100.0) == 10.0
  {
    if subtotalCents > 10000 then None else Some(10001 - subtotalCents)
  }

  /** The SAVE10 discount is fixed when the code is applied: once the
      subtotal moves, the total no longer reflects ten percent of it. */
  lemma StaleDiscount(appliedAt: real, subtotal: real)
    requires appliedAt != subtotal
    ensures Total(subtotal, CouponDiscount("save10", appliedAt).value)
         != Total(subtotal, CouponDiscount("save10", subtotal).value)
  {
    assert Lower("save10") == "save10";
  }

  /** The coupon box's state. */
  class CouponBox {
    var couponCode: string
    var appliedCoupon: Option<string>
    var discount: real

    constructor ()
      ensures couponCode == "" && appliedCoupon == None && discount == 0.0
    {
      couponCode := "";
      appliedCoupon := None;
      discount := 0.0;
    }

    /** Typing a code. */
    method EditCode(text: string)
      modifies this
      ensures couponCode == text
      ensures appliedCoupon == old(appliedCoupon) && discount == old(discount)
    {
      couponCode := text;
    }

    /** `handleApplyCoupon` against the subtotal of the moment: a known code
        fixes the discount, records the code as typed and clears the input;
        an unknown one changes nothing and is reported (the alert). */
    method ApplyCoupon(subtotal: real) returns (rejected: bool)
      modifies this
      ensures rejected <==> CouponDiscount(old(couponCode), subtotal).None?
      ensures rejected ==>
        couponCode == old(couponCode) && appliedCoupon == old(appliedCoupon) && discount == old(discount)
      ensures !rejected ==>
        && discount == CouponDiscount(old(couponCode), subtotal).value
        && appliedCoupon == Some(old(couponCode))
        && couponCode == ""
    {
      var earned := CouponDiscount(couponCode, subtotal);
      rejected := earned.None?;
      if !rejected {
        discount := earned.value;
        appliedCoupon := Some(couponCode);
        couponCode := "";
      }
    }

    /** `handleRemoveCoupon`: the input keeps whatever it holds. */
    method RemoveCoupon()
      modifies this
      ensures discount == 0.0 && appliedCoupon == None && couponCode == old(couponCode)
    {
      discount := 0.0;
      appliedCoupon := None;
    }
  }
}
