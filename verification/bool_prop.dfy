/**
 * The boolean property (`uaiBoolProp`): true normalises to 1, false to 0, and
 * SetValue treats 0.5 and above as true.
 */
module BoolProp {
  import Random
  import PropBase
  import UaiProperty

  /** uaiBoolProp's threshold: 0.5 itself is true. */
  predicate Threshold(val: real) {
    val >= 0.5
  }

  /**
   * The combined property sets a Bool with `val > 0.5` where this class uses
   * `val >= 0.5`: the two agree on every input except 0.5 itself.
   */
  lemma ThresholdAgreesWithPropertyExceptHalf(s: UaiProperty.PropState, val: real)
    requires s.propertyType == UaiProperty.BoolType
    ensures UaiProperty.SetValueSpec(s, val).boolValue == Threshold(val) <==> val != 0.5
  {
  }

  class BoolProp {
    const base: PropBase.BaseProp
    var value: bool

    /** The field initialiser (false) and the base constructor's Start, a no-op while the random start is off. */
    constructor ()
      ensures fresh(base) && !base.startRandom && base.name == ""
      ensures !value
    {
      base := new PropBase.BaseProp();
      value := false;
      new;
      Start(0.0);
    }

    /** The normalizedValue getter: 1 for true and 0 for false. */
    function NormalizedValue(): (r: real)
      reads this
      ensures r == 0.0 || r == 1.0
      ensures r == 1.0 <==> value
    {
      if value then 1.0 else 0.0
    }

    /** Start: with a random start, the value is Random.value (here `unit`) at or above 0.5. */
    method Start(unit: real)
      requires Random.IsUnitValue(unit)
      modifies this`value
      ensures value == if base.startRandom then Threshold(unit) else old(value)
    {
      if base.startRandom {
        value := unit >= 0.5;
      }
    }

    /** SetValue: true exactly when `val` is at least 0.5. */
    method SetValue(val: real)
      modifies this`value
      ensures value == Threshold(val)
      ensures NormalizedValue() == 1.0 <==> val >= 0.5
    {
      value := val >= 0.5;
    }
  }
}
