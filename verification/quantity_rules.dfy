/**
 * The two quantity adjustments the screens make before writing a product's
 * quantity back: one more (the increase button), one less with a floor at 0
 * (the decrease button and the list's sell button).
 */
module QuantityRules {
  import opened Wrappers
  import opened JavaLang
  import opened ProductContract
  import opened ProductProvider

  /** `productQuantity++` on a Java `int`: no ceiling is checked, so the largest int wraps. */
  function Increased(q: int32): (r: int32)
    ensures q < MaxInt32 ==> r == q + 1
    ensures q == MaxInt32 ==> r == MinInt32
  {
    Wrap32(q + 1)
  }

  /** `if (q > 0) q--; else bail out`: the new quantity, or None when it is already 0 or less. */
  function Decreased(q: int32): (r: Option<int32>)
    ensures r.Some? <==> q > 0
    ensures r.Some? ==> r.value == q - 1 && r.value >= 0
  {
    if q > 0 then Some(q - 1) else None
  }

  /** A decrease undoes an increase, and an increase undoes a decrease. */
  lemma IncreaseDecreaseInverse(q: int32)
    ensures 0 <= q < MaxInt32 ==> Decreased(Increased(q)) == Some(q)
    ensures q > 0 ==> Increased(Decreased(q).value) == q
  {
  }

  /** The provider accepts every quantity the decrease writes. */
  lemma DecreasedIsValid(q: int32)
    requires Decreased(q).Some?
    ensures CheckUpdate(QuantityOnly(Decreased(q).value)).None?
  {
    var v := QuantityOnly(Decreased(q).value);
    forall rule ensures UpdateRuleHolds(rule, v) {
    }
  }

  /**
   * The provider accepts the quantity the increase writes for every stored
   * quantity except the largest int, whose wrapped successor it refuses.
   */
  lemma IncreasedIsValid(q: int32)
    requires q >= 0
    ensures q < MaxInt32 ==> CheckUpdate(QuantityOnly(Increased(q))).None?
    ensures q == MaxInt32 ==> CheckUpdate(QuantityOnly(Increased(q))) == Some(QuantityPositive)
  {
    var v := QuantityOnly(Increased(q));
    if q < MaxInt32 {
      forall rule ensures UpdateRuleHolds(rule, v) {
      }
    }
  }
}
