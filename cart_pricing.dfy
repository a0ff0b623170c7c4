/** Order-summary arithmetic of the cart page (src/pages/Cart.tsx).
    Amounts are whole Kenyan shillings (KES). */
module CartPricing {
  import opened Wrappers

  /** Subtotals strictly above this amount ship for free. */
  const FreeShippingThreshold: int := 5000
  /** Flat shipping fee charged at or below the threshold. */
  const ShippingFee: int := 300
  /** VAT rate, in percent. */
  const VatPercent: int := 16

  /** Shipping charged for a cart whose subtotal is `subtotal`. */
  function Shipping(subtotal: int): (fee: int)
    ensures fee == 0 <==> subtotal > FreeShippingThreshold
    ensures fee == 0 || fee == ShippingFee
  {
    if subtotal > FreeShippingThreshold then 0 else ShippingFee
  }

  /** VAT: 16% of the subtotal rounded half up to a whole shilling, which is
      what `Math.round(subtotal * 0.16)` yields. */
  function Tax(subtotal: int): (tax: int)
    ensures 100 * tax - 50 <= VatPercent * subtotal < 100 * tax + 50
  {
    (VatPercent * subtotal + 50) / 100
  }

  /** The four figures of the order summary. */
  datatype Summary = Summary(subtotal: int, shipping: int, tax: int, total: int)

  function OrderSummary(subtotal: int): (s: Summary)
    ensures s.subtotal == subtotal && s.shipping == Shipping(subtotal) && s.tax == Tax(subtotal)
    ensures s.total - s.subtotal == s.shipping + s.tax
  {
    var shipping := Shipping(subtotal);
    var tax := Tax(subtotal);
    Summary(subtotal, shipping, tax, subtotal + shipping + tax)
  }

  /** Whether the "You qualified for free shipping!" line is shown. */
  predicate QualifiesForFreeShipping(subtotal: int)
    ensures QualifiesForFreeShipping(subtotal) <==> subtotal > FreeShippingThreshold
  {
    Shipping(subtotal) == 0
  }

  /** The "Add KES x more for free shipping" hint, exactly as the page
      computes it: shown below 5000 with the distance to 5000. */
  function FreeShippingHint(subtotal: int): (hint: Option<int>)
    ensures hint.Some? <==> subtotal < FreeShippingThreshold
    ensures hint.Some? ==> hint.value > 0 && subtotal + hint.value == FreeShippingThreshold
  {
    if subtotal < FreeShippingThreshold then Some(FreeShippingThreshold - subtotal) else None
  }

  /** The hint as evidently intended: shown exactly when shipping is charged,
      naming the smallest whole-shilling top-up that makes shipping free. */
  function CorrectedFreeShippingHint(subtotal: int): (hint: Option<int>)
    ensures hint.Some? <==> Shipping(subtotal) == ShippingFee
    ensures hint.Some? ==> hint.value > 0
  {
    if subtotal <= FreeShippingThreshold then Some(FreeShippingThreshold + 1 - subtotal) else None
  }

  // ---------------------------------------------------------------------
  // Properties
  // ---------------------------------------------------------------------

  /** A subtotal that is a whole number of shillings never puts 16% of it on
      a half shilling, so the rounding direction for ties never matters. */
  lemma NoRoundingTie(subtotal: int)
    ensures 100 * Tax(subtotal) - 50 < VatPercent * subtotal
  {
    var t := Tax(subtotal);
    if 100 * t - 50 == VatPercent * subtotal {
      // 8 * subtotal would equal 50 * t - 25: even on the left, odd on the right.
      assert false;
    }
  }

  /** The tax is the whole number nearest to 16% of the subtotal: no other
      whole amount is as close. */
  lemma TaxIsNearest(subtotal: int, other: int)
    requires other != Tax(subtotal)
    ensures Abs(VatPercent * subtotal - 100 * Tax(subtotal)) < Abs(VatPercent * subtotal - 100 * other)
  {
    NoRoundingTie(subtotal);
  }

  function Abs(x: int): int { if x < 0 then -x else x }

  /** Tax never decreases as the subtotal grows. */
  lemma TaxMonotone(a: int, b: int)
    requires a <= b
    ensures Tax(a) <= Tax(b)
  {
  }

  /** For a non-negative subtotal the grand total covers it, and the
      surcharge is the VAT plus at most the flat fee. */
  lemma TotalCoversSubtotal(subtotal: int)
    requires subtotal >= 0
    ensures OrderSummary(subtotal).total >= subtotal
    ensures Tax(subtotal) <= OrderSummary(subtotal).total - subtotal <= Tax(subtotal) + ShippingFee
  {
  }

  /** The worked examples of the order summary. */
  lemma SummaryExamples()
    ensures OrderSummary(4000) == Summary(4000, 300, 640, 4940)
    ensures OrderSummary(6000) == Summary(6000, 0, 960, 6960)
  {
  }

  /** Crossing the threshold waives the fee, so a larger cart can cost less
      in total: 5001 KES of goods is cheaper to buy than 5000 KES. */
  lemma TotalDropsAcrossThreshold()
    ensures OrderSummary(FreeShippingThreshold + 1).total < OrderSummary(FreeShippingThreshold).total
  {
  }

  /** The free-shipping line and the hint are never shown together, and the
      hint implies that shipping is being charged. */
  lemma HintOnlyWhileShippingCharged(subtotal: int)
    ensures FreeShippingHint(subtotal).Some? ==> Shipping(subtotal) == ShippingFee
    ensures !(FreeShippingHint(subtotal).Some? && QualifiesForFreeShipping(subtotal))
  {
  }

  /** As written, the hint falls one shilling short: topping the cart up by
      the advertised amount lands on exactly 5000, which is still charged
      shipping; and at 5000 itself neither the hint nor the free-shipping
      line is shown although shipping is charged. */
  lemma HintFallsShort(subtotal: int)
    requires FreeShippingHint(subtotal).Some?
    ensures Shipping(subtotal + FreeShippingHint(subtotal).value) == ShippingFee
    ensures FreeShippingHint(FreeShippingThreshold).None?
    ensures !QualifiesForFreeShipping(FreeShippingThreshold)
  {
  }

  /** The corrected hint: exactly one of the hint and the free-shipping line
      is shown, the advertised top-up earns free shipping, and no smaller
      whole top-up does. */
  lemma CorrectedHintEarnsFreeShipping(subtotal: int, topUp: int)
    ensures CorrectedFreeShippingHint(subtotal).Some? <==> !QualifiesForFreeShipping(subtotal)
    ensures CorrectedFreeShippingHint(subtotal).Some? ==>
              QualifiesForFreeShipping(subtotal + CorrectedFreeShippingHint(subtotal).value)
    ensures CorrectedFreeShippingHint(subtotal).Some? && topUp < CorrectedFreeShippingHint(subtotal).value ==>
              !QualifiesForFreeShipping(subtotal + topUp)
  {
  }
}
