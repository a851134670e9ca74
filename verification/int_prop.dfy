/**
 * The integer property (`uaiIntProp`): an int kept between a minimum and a
 * maximum (0 and 1 by default). Its normalised value divides as floats, so
 * unlike the combined property's integer kind it keeps the fraction.
 */
module IntProp {
  import opened Mathf
  import Random
  import UaiProperty
  import PropBase
  import FloatProp

  /** normalizedValue's arithmetic: the difference is a float, so this is the float normalisation of the ints. */
  function Normalized(value: int, lo: int, hi: int): (r: real)
    requires lo < hi
    ensures r * (hi - lo) as real == (value - lo) as real
    ensures lo <= value <= hi <==> 0.0 <= r <= 1.0
  {
    FloatProp.Normalized(value as real, lo as real, hi as real)
  }

  /** Within the bounds it is the intended (real-quotient) integer normalisation of the combined property. */
  lemma NormalizedIsIntended(value: int, lo: int, hi: int)
    requires lo <= value <= hi && lo < hi
    ensures Normalized(value, lo, hi) == UaiProperty.IntNormalizedIntended(value, lo, hi)
  {
    FloatProp.NormalizedAgreesWithProperty(value as real, lo as real, hi as real);
  }

  /**
   * SetValue clamps the float and then truncates it; the combined property
   * truncates first and then clamps the int. With ordered integral bounds the
   * two orders give the same int.
   */
  lemma TruncateClampCommute(val: real, lo: int, hi: int)
    requires lo <= hi
    ensures Truncate(Clamp(val, lo as real, hi as real)) == ClampInt(Truncate(val), lo, hi)
  {
    if val < lo as real {
      TruncateOfInt(lo);
      assert Truncate(val) <= lo;
    } else if val > hi as real {
      TruncateOfInt(hi);
      assert Truncate(val) >= hi;
    } else {
      TruncateWithinIntBounds(val, lo, hi);
    }
  }

  class IntProp {
    const base: PropBase.BaseProp
    var value: int
    var minValue: int
    var maxValue: int

    /** The value lies between the two bounds, whichever order they are in. */
    predicate Valid()
      reads this
    {
      if minValue <= maxValue then minValue <= value <= maxValue else maxValue <= value <= minValue
    }

    /**
     * The field initialisers (value 0, bounds [0, 1]) and then the base
     * constructor's call to Start, which finds the random start off and so
     * changes nothing; the Random.Range it would have consulted is never read.
     */
    constructor ()
      ensures fresh(base) && !base.startRandom && base.name == ""
      ensures value == 0 && minValue == 0 && maxValue == 1
      ensures Valid()
    {
      base := new PropBase.BaseProp();
      value, minValue, maxValue := 0, 0, 1;
      new;
      Start((a, b) => if a < b then a else b);
    }

    /** Start: with a random start, draws the value from Random.Range(min, max), here `range`. */
    method Start(range: (int, int) -> int)
      requires Random.IsIntRange(range)
      modifies this`value
      ensures value == if base.startRandom then range(minValue, maxValue) else old(value)
      ensures base.startRandom || old(Valid()) ==> Valid()
    {
      if base.startRandom {
        value := range(minValue, maxValue);
      }
    }

    /** Swaps the bounds when they are out of order; the value is untouched. */
    method VerifyMinMaxOrder()
      modifies this`minValue, this`maxValue
      ensures (minValue, maxValue) == UaiProperty.OrderedInt(old(minValue), old(maxValue))
      ensures old(Valid()) ==> Valid()
    {
      if minValue > maxValue {
        var temp := minValue;
        minValue := maxValue;
        maxValue := temp;
      }
    }

    /** The normalizedValue getter: orders the bounds, then divides as floats without clamping. */
    method NormalizedValue() returns (r: real)
      requires minValue != maxValue
      modifies this`minValue, this`maxValue
      ensures (minValue, maxValue) == UaiProperty.OrderedInt(old(minValue), old(maxValue))
      ensures r == Normalized(value, minValue, maxValue)
      ensures old(Valid()) ==> 0.0 <= r <= 1.0
    {
      VerifyMinMaxOrder();
      var difference := (maxValue - minValue) as real;
      r := (value - minValue) as real / difference;
    }

    /** SetValue: orders the bounds, clamps `val` into them as a float and truncates it toward zero. */
    method SetValue(val: real)
      modifies this`value, this`minValue, this`maxValue
      ensures (minValue, maxValue) == UaiProperty.OrderedInt(old(minValue), old(maxValue))
      ensures value == Truncate(Clamp(val, minValue as real, maxValue as real))
      ensures value == ClampInt(Truncate(val), minValue, maxValue)
      ensures Valid()
    {
      VerifyMinMaxOrder();
      var clamped := Clamp(val, minValue as real, maxValue as real);
      TruncateWithinIntBounds(clamped, minValue, maxValue);
      TruncateClampCommute(val, minValue, maxValue);
      value := Truncate(clamped);
    }
  }
}
