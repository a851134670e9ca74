/**
 * The float property (`uaiFloatProp`): a value kept between a minimum and a
 * maximum (0 and 1 by default), normalised without clamping.
 */
module FloatProp {
  import opened Mathf
  import Random
  import UaiProperty
  import PropBase

  /**
   * normalizedValue's arithmetic once the bounds are ordered: the position of
   * `value` on the line through lo and hi, with lo at 0 and hi at 1. It is not
   * clamped, so it lies in [0,1] exactly when the value lies within the bounds.
   */
  function Normalized(value: real, lo: real, hi: real): (r: real)
    requires lo < hi
    ensures r * (hi - lo) == value - lo
    ensures lo <= value <= hi <==> 0.0 <= r <= 1.0
    ensures value < lo ==> r < 0.0
    ensures value > hi ==> r > 1.0
  {
    QuotientFacts(value - lo, hi - lo);
    (value - lo) / (hi - lo)
  }

  /** Within the bounds this agrees with the combined property's clamped normalisation. */
  lemma NormalizedAgreesWithProperty(value: real, lo: real, hi: real)
    requires lo <= value <= hi && lo < hi
    ensures Normalized(value, lo, hi) == UaiProperty.FloatNormalized(value, lo, hi)
  {
    QuotientFacts(value - lo, hi - lo);
  }

  /** Clamping into the bounds and then normalising is normalising and then clamping to [0,1]. */
  lemma NormalizedOfClamp(val: real, lo: real, hi: real)
    requires lo < hi
    ensures Normalized(Clamp(val, lo, hi), lo, hi) == Clamp01(Normalized(val, lo, hi))
  {
    if val < lo {
      assert Normalized(lo, lo, hi) == 0.0;
    } else if val > hi {
      assert Normalized(hi, lo, hi) * (hi - lo) == hi - lo;
    }
  }

  class FloatProp {
    const base: PropBase.BaseProp
    var value: real
    var minValue: real
    var maxValue: real

    /** The value lies between the two bounds, whichever order they are in. */
    predicate Valid()
      reads this
    {
      Min(minValue, maxValue) <= value <= Max(minValue, maxValue)
    }

    /**
     * The field initialisers (value 0, bounds [0, 1]) and then the base
     * constructor's call to Start, which finds the random start off and so
     * changes nothing; the Random.Range it would have consulted is never read.
     */
    constructor ()
      ensures fresh(base) && !base.startRandom && base.name == ""
      ensures value == 0.0 && minValue == 0.0 && maxValue == 1.0
      ensures Valid()
    {
      base := new PropBase.BaseProp();
      value, minValue, maxValue := 0.0, 0.0, 1.0;
      new;
      Start((a, b) => Min(a, b));
    }

    /** Start: with a random start, draws the value from Random.Range(min, max), here `range`. */
    method Start(range: (real, real) -> real)
      requires Random.IsFloatRange(range)
      modifies this`value
      ensures value == if base.startRandom then range(minValue, maxValue) else old(value)
      ensures base.startRandom || old(Valid()) ==> Valid()
    {
      if base.startRandom {
        value := range(minValue, maxValue);
      }
    }

    /** Swaps the bounds when they are out of order; the value is untouched. */
    method VerifyMinMaxOrder()
      modifies this`minValue, this`maxValue
      ensures (minValue, maxValue) == UaiProperty.OrderedReal(old(minValue), old(maxValue))
      ensures old(Valid()) ==> Valid()
    {
      if minValue > maxValue {
        var temp := minValue;
        minValue := maxValue;
        maxValue := temp;
      }
    }

    /** The normalizedValue getter: orders the bounds, then normalises without clamping. */
    method NormalizedValue() returns (r: real)
      requires minValue != maxValue
      modifies this`minValue, this`maxValue
      ensures (minValue, maxValue) == UaiProperty.OrderedReal(old(minValue), old(maxValue))
      ensures r == Normalized(value, minValue, maxValue)
      ensures old(Valid()) ==> 0.0 <= r <= 1.0
    {
      VerifyMinMaxOrder();
      var difference := maxValue - minValue;
      r := (value - minValue) / difference;
    }

    /** SetValue: orders the bounds and stores `val` clamped into them. */
    method SetValue(val: real)
      modifies this`value, this`minValue, this`maxValue
      ensures (minValue, maxValue) == UaiProperty.OrderedReal(old(minValue), old(maxValue))
      ensures value == Clamp(val, minValue, maxValue)
      ensures Valid()
    {
      VerifyMinMaxOrder();
      var newValue := Clamp(val, minValue, maxValue);
      value := newValue;
    }
  }
}
