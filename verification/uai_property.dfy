/**
 * The combined, tagged utility-AI property (`uaiProperty`): one object that is
 * a Bool, Int or Float property according to its type tag, with separate
 * storage and bounds per kind. The object is a class whose methods update its
 * fields; `State()` gives its abstract value, and every method is specified by
 * a function on that value, about which the lemmas below are proved.
 */
module UaiProperty {
  import opened Mathf

  /** float.MaxValue, written out exactly. */
  const FloatMaxValue: real := 340282346638528859811704183484516925440.0
  const FloatMinValue: real := -FloatMaxValue
  const IntMaxValue: int := 0x7FFF_FFFF
  const IntMinValue: int := -0x8000_0000

  datatype PropType = BoolType | IntType | FloatType

  /** Every field of the object; the start-range fields configure a random start. */
  datatype PropState = PropState(
    propertyType: PropType,
    boolValue: bool, floatValue: real, intValue: int,
    fminValue: real, fmaxValue: real, iminValue: int, imaxValue: int,
    startRandom: bool,
    fminStartValue: real, fmaxStartValue: real, iminStartValue: int, imaxStartValue: int)

  /** The two bounds, swapped if they are out of order. */
  function OrderedReal(lo: real, hi: real): (r: (real, real))
    ensures r.0 <= r.1
    ensures r == (lo, hi) || r == (hi, lo)
    ensures lo <= hi ==> r == (lo, hi)
  {
    if lo > hi then (hi, lo) else (lo, hi)
  }

  function OrderedInt(lo: int, hi: int): (r: (int, int))
    ensures r.0 <= r.1
    ensures r == (lo, hi) || r == (hi, lo)
    ensures lo <= hi ==> r == (lo, hi)
  {
    if lo > hi then (hi, lo) else (lo, hi)
  }

  /**
   * The state after fVerifyBoundingOrder: the float bounds are ordered, the pair
   * {min, max} is the same multiset, nothing else changes, and an ordered state
   * is left alone (so a second call is a no-op).
   */
  function FloatOrdered(s: PropState): (r: PropState)
    ensures r.fminValue <= r.fmaxValue
    ensures multiset{r.fminValue, r.fmaxValue} == multiset{s.fminValue, s.fmaxValue}
    ensures r.(fminValue := s.fminValue, fmaxValue := s.fmaxValue) == s
    ensures s.fminValue <= s.fmaxValue ==> r == s
  {
    var (lo, hi) := OrderedReal(s.fminValue, s.fmaxValue);
    s.(fminValue := lo, fmaxValue := hi)
  }

  /** The state after iVerifyBoundingOrder, with the same guarantees for the int bounds. */
  function IntOrdered(s: PropState): (r: PropState)
    ensures r.iminValue <= r.imaxValue
    ensures multiset{r.iminValue, r.imaxValue} == multiset{s.iminValue, s.imaxValue}
    ensures r.(iminValue := s.iminValue, imaxValue := s.imaxValue) == s
    ensures s.iminValue <= s.imaxValue ==> r == s
  {
    var (lo, hi) := OrderedInt(s.iminValue, s.imaxValue);
    s.(iminValue := lo, imaxValue := hi)
  }

  /** The bounds of the property's own kind put in order (the normalizedValue getter does this). */
  function OrderedForKind(s: PropState): PropState {
    match s.propertyType
    case BoolType => s
    case FloatType => FloatOrdered(s)
    case IntType => IntOrdered(s)
  }

  /** fGetNormalizedValue's arithmetic on ordered bounds: the position of `value` in [lo, hi], clamped to [0,1]. */
  function FloatNormalized(value: real, lo: real, hi: real): (r: real)
    requires lo < hi
    ensures 0.0 <= r <= 1.0
    ensures value <= lo ==> r == 0.0
    ensures value >= hi ==> r == 1.0
    ensures lo <= value <= hi ==> r * (hi - lo) == value - lo
  {
    QuotientFacts(value - lo, hi - lo);
    Clamp01((value - lo) / (hi - lo))
  }

  /** fGetUnnormalizedValue's arithmetic: the point at fraction `n` (clamped) of the way from lo to hi. */
  function FloatUnnormalized(n: real, lo: real, hi: real): (r: real)
    requires lo <= hi
    ensures lo <= r <= hi
    ensures n <= 0.0 ==> r == lo
    ensures n >= 1.0 ==> r == hi
  {
    var c := Clamp01(n);
    var w := hi - lo;
    ScaleWithin(c, w);
    assert lo + c * w <= lo + w == hi;
    lo + c * w
  }

  /**
   * iGetNormalizedValue's arithmetic: `(value - lo) / (hi - lo)` is an int
   * division, so the normalised int is a step: 1 from hi upwards, 0 below it.
   */
  function IntNormalized(value: int, lo: int, hi: int): (r: real)
    requires lo < hi
    ensures r == 0.0 || r == 1.0
    ensures r == 1.0 <==> value >= hi
  {
    var q := TruncDiv(value - lo, hi - lo);
    assert value >= hi ==> q >= 1 by {
      if value >= hi { DivAtLeastOne(value - lo, hi - lo); }
    }
    assert value < hi ==> q <= 0 by {
      if lo <= value < hi { DivBelowOne(value - lo, hi - lo); }
    }
    Clamp01(q as real)
  }

  /**
   * What iGetNormalizedValue evidently means: the real quotient, clamped, as
   * uaiIntProp computes it. Within the bounds it is the fraction of the way
   * from lo to hi.
   */
  function IntNormalizedIntended(value: int, lo: int, hi: int): (r: real)
    requires lo < hi
    ensures 0.0 <= r <= 1.0
    ensures lo <= value <= hi ==> r * (hi - lo) as real == (value - lo) as real
    ensures lo < value < hi ==> 0.0 < r < 1.0
  {
    QuotientFacts((value - lo) as real, (hi - lo) as real);
    FloatNormalized(value as real, lo as real, hi as real)
  }

  /**
   * The integer division loses every value strictly between the bounds: the
   * as-written normalisation gives 0 there, where the intended one gives a
   * fraction strictly between 0 and 1.
   */
  lemma IntNormalizedLosesFraction(value: int, lo: int, hi: int)
    requires lo < value < hi
    ensures IntNormalized(value, lo, hi) == 0.0
    ensures 0.0 < IntNormalizedIntended(value, lo, hi) < 1.0
  {
  }

  /** A concrete instance: 5 in [0, 10] normalises to 0 as written, 0.5 as intended. */
  lemma IntNormalizedHalfway()
    ensures IntNormalized(5, 0, 10) == 0.0
    ensures IntNormalizedIntended(5, 0, 10) == 0.5
  {
  }

  lemma DivAtLeastOne(n: int, d: int)
    requires 0 < d <= n
    ensures TruncDiv(n, d) >= 1
  {
  }

  lemma DivBelowOne(n: int, d: int)
    requires 0 <= n < d
    ensures TruncDiv(n, d) == 0
  {
  }

  /** iGetUnnormalizedValue's arithmetic: the float point between the bounds, cast back to int. */
  function IntUnnormalized(n: real, lo: int, hi: int): (r: int)
    requires lo <= hi
    ensures lo <= r <= hi
    ensures n <= 0.0 ==> r == lo
    ensures n >= 1.0 ==> r == hi
  {
    var f := lo as real + Clamp01(n) * (hi - lo) as real;
    TruncateWithinIntBounds(f, lo, hi);
    TruncateOfInt(lo);
    TruncateOfInt(hi);
    Truncate(f)
  }

  /** Normalising the unnormalised fraction gives the fraction back (clamped). */
  lemma FloatNormalizeUnnormalize(n: real, lo: real, hi: real)
    requires lo < hi
    ensures FloatNormalized(FloatUnnormalized(n, lo, hi), lo, hi) == Clamp01(n)
  {
    var c := Clamp01(n);
    var u := FloatUnnormalized(n, lo, hi);
    assert u - lo == c * (hi - lo);
    assert (u - lo) / (hi - lo) == c;
  }

  /** Unnormalising the normalised value gives the value clamped into the bounds. */
  lemma FloatUnnormalizeNormalize(v: real, lo: real, hi: real)
    requires lo < hi
    ensures FloatUnnormalized(FloatNormalized(v, lo, hi), lo, hi) == Clamp(v, lo, hi)
  {
  }

  /** Whether normalizedValue can be computed without dividing by zero. */
  predicate BoundsDistinct(s: PropState) {
    && (s.propertyType == FloatType ==> s.fminValue != s.fmaxValue)
    && (s.propertyType == IntType ==> s.iminValue != s.imaxValue)
  }

  /** The value the normalizedValue getter returns. */
  function NormalizedSpec(s: PropState): (r: real)
    requires BoundsDistinct(s)
    ensures 0.0 <= r <= 1.0
    ensures s.propertyType == BoolType ==> (r == 1.0 <==> s.boolValue) && (r == 0.0 <==> !s.boolValue)
    ensures s.propertyType == IntType ==> r == 0.0 || r == 1.0
  {
    match s.propertyType
    case BoolType => if s.boolValue then 1.0 else 0.0
    case FloatType =>
      var o := FloatOrdered(s);
      FloatNormalized(o.floatValue, o.fminValue, o.fmaxValue)
    case IntType =>
      var o := IntOrdered(s);
      IntNormalized(o.intValue, o.iminValue, o.imaxValue)
  }

  /**
   * The state after SetValue(val): a Bool stores val > 0.5; a Float orders its
   * bounds and stores val clamped into them; an Int orders its bounds and stores
   * val truncated toward zero, then clamped. Only the fields of the property's own
   * kind change, and the stored Float or Int lies within its (ordered) bounds.
   */
  function SetValueSpec(s: PropState, val: real): (r: PropState)
    ensures r.propertyType == s.propertyType
    ensures s.propertyType == BoolType ==> r == s.(boolValue := val > 0.5)
    ensures s.propertyType == FloatType ==>
      && r.fminValue <= r.floatValue <= r.fmaxValue
      && r.(floatValue := s.floatValue) == FloatOrdered(s)
      && r.floatValue == Clamp(val, r.fminValue, r.fmaxValue)
      && (r.fminValue <= val <= r.fmaxValue ==> r.floatValue == val)
    ensures s.propertyType == IntType ==>
      && r.iminValue <= r.intValue <= r.imaxValue
      && r.(intValue := s.intValue) == IntOrdered(s)
      && r.intValue == ClampInt(Truncate(val), r.iminValue, r.imaxValue)
      && (r.iminValue <= Truncate(val) <= r.imaxValue ==> r.intValue == Truncate(val))
  {
    match s.propertyType
    case BoolType => s.(boolValue := val > 0.5)
    case FloatType =>
      var o := FloatOrdered(s);
      o.(floatValue := Clamp(val, o.fminValue, o.fmaxValue))
    case IntType =>
      var o := IntOrdered(s);
      o.(intValue := ClampInt(Truncate(val), o.iminValue, o.imaxValue))
  }

  /** SetValue is idempotent: a second call with the same input changes nothing. */
  lemma SetValueIdempotent(s: PropState, val: real)
    ensures SetValueSpec(SetValueSpec(s, val), val) == SetValueSpec(s, val)
  {
  }

  /**
   * The state after Start, given what Random.Range (float and int) and
   * Random.value would return. A random start draws from the start range and
   * clamps into the bounds as they are; then the bounds are ordered and the value
   * is clamped again, so a Float or Int value ends within its ordered bounds
   * whether or not the start was random.
   */
  function StartSpec(s: PropState, rangeF: (real, real) -> real, rangeI: (int, int) -> int, unit: real): (r: PropState)
    ensures r.propertyType == s.propertyType
    ensures s.propertyType == BoolType ==>
      r == if s.startRandom then s.(boolValue := unit >= 0.5) else s
    ensures s.propertyType == FloatType ==>
      && r.fminValue <= r.floatValue <= r.fmaxValue
      && r.(floatValue := s.floatValue) == FloatOrdered(s)
      && (!s.startRandom ==> r.floatValue == Clamp(s.floatValue, r.fminValue, r.fmaxValue))
    ensures s.propertyType == IntType ==>
      && r.iminValue <= r.intValue <= r.imaxValue
      && r.(intValue := s.intValue) == IntOrdered(s)
      && (!s.startRandom ==> r.intValue == ClampInt(s.intValue, r.iminValue, r.imaxValue))
  {
    match s.propertyType
    case BoolType =>
      if s.startRandom then s.(boolValue := unit >= 0.5) else s
    case FloatType =>
      var drawn := if s.startRandom
        then s.(floatValue := Clamp(rangeF(s.fminStartValue, s.fmaxStartValue), s.fminValue, s.fmaxValue))
        else s;
      var o := FloatOrdered(drawn);
      o.(floatValue := Clamp(o.floatValue, o.fminValue, o.fmaxValue))
    case IntType =>
      var drawn := if s.startRandom
        then s.(intValue := ClampInt(rangeI(s.iminStartValue, s.imaxStartValue), s.iminValue, s.imaxValue))
        else s;
      var o := IntOrdered(drawn);
      o.(intValue := ClampInt(o.intValue, o.iminValue, o.imaxValue))
  }

  /** ToString's text for each kind. */
  function Description(t: PropType): string {
    match t
    case BoolType => "Boolean Utility-AI Property"
    case FloatType => "Float Utility-AI Property"
    case IntType => "Integer Utility-AI Property"
  }

  /** ToString tells the three kinds apart. */
  lemma DescriptionsDistinct(a: PropType, b: PropType)
    requires a != b
    ensures Description(a) != Description(b)
  {
  }

  class Property {
    var propertyType: PropType
    var boolValue: bool
    var floatValue: real
    var intValue: int
    var fminValue: real
    var fmaxValue: real
    var iminValue: int
    var imaxValue: int
    var startRandom: bool
    var fminStartValue: real
    var fmaxStartValue: real
    var iminStartValue: int
    var imaxStartValue: int

    function State(): PropState
      reads this
    {
      PropState(propertyType, boolValue, floatValue, intValue,
                fminValue, fmaxValue, iminValue, imaxValue,
                startRandom, fminStartValue, fmaxStartValue, iminStartValue, imaxStartValue)
    }

    /** The float constructor: stores the value, bounds and start range as given, unchecked. */
    constructor FromFloat(value: real, minValue: real := FloatMinValue, maxValue: real := FloatMaxValue,
                          startRandom: bool := false, minRandom: real := 0.0, maxRandom: real := 100.0)
      ensures State() == PropState(FloatType, false, value, 0, minValue, maxValue, IntMinValue, IntMaxValue,
                                   startRandom, minRandom, maxRandom, 0, 100)
    {
      propertyType := FloatType;
      boolValue, intValue := false, 0;
      iminValue, imaxValue := IntMinValue, IntMaxValue;
      iminStartValue, imaxStartValue := 0, 100;
      fminValue := minValue;
      fmaxValue := maxValue;
      floatValue := value;
      this.startRandom := startRandom;
      fminStartValue := minRandom;
      fmaxStartValue := maxRandom;
    }

    /** The bool constructor: records the start flag but never stores `value`, so the property starts false. */
    constructor FromBool(value: bool, startRandom: bool := false)
      ensures State() == PropState(BoolType, false, 0.0, 0, FloatMinValue, FloatMaxValue, IntMinValue, IntMaxValue,
                                   startRandom, 0.0, 100.0, 0, 100)
    {
      boolValue, floatValue, intValue := false, 0.0, 0;
      fminValue, fmaxValue := FloatMinValue, FloatMaxValue;
      iminValue, imaxValue := IntMinValue, IntMaxValue;
      fminStartValue, fmaxStartValue := 0.0, 100.0;
      iminStartValue, imaxStartValue := 0, 100;
      propertyType := BoolType;
      this.startRandom := startRandom;
    }

    /** The int constructor: stores the value, bounds and start range as given, unchecked. */
    constructor FromInt(value: int, minValue: int := IntMinValue, maxValue: int := IntMaxValue,
                        startRandom: bool := false, minRandom: int := 0, maxRandom: int := 100)
      ensures State() == PropState(IntType, false, 0.0, value, FloatMinValue, FloatMaxValue, minValue, maxValue,
                                   startRandom, 0.0, 100.0, minRandom, maxRandom)
    {
      propertyType := IntType;
      boolValue, floatValue := false, 0.0;
      fminValue, fmaxValue := FloatMinValue, FloatMaxValue;
      fminStartValue, fmaxStartValue := 0.0, 100.0;
      iminValue := minValue;
      imaxValue := maxValue;
      intValue := value;
      this.startRandom := startRandom;
      iminStartValue := minRandom;
      imaxStartValue := maxRandom;
    }

    method FVerifyBoundingOrder()
      modifies this`fminValue, this`fmaxValue
      ensures State() == FloatOrdered(old(State()))
    {
      if fminValue > fmaxValue {
        var temp := fminValue;
        fminValue := fmaxValue;
        fmaxValue := temp;
      }
    }

    method IVerifyBoundingOrder()
      modifies this`iminValue, this`imaxValue
      ensures State() == IntOrdered(old(State()))
    {
      if iminValue > imaxValue {
        var temp := iminValue;
        iminValue := imaxValue;
        imaxValue := temp;
      }
    }

    method FGetUnnormalizedValue(normalizedVal: real) returns (r: real)
      modifies this`fminValue, this`fmaxValue
      ensures State() == FloatOrdered(old(State()))
      ensures r == FloatUnnormalized(normalizedVal, fminValue, fmaxValue)
    {
      var normVal := Clamp01(normalizedVal);
      FVerifyBoundingOrder();
      var difference := fmaxValue - fminValue;
      r := fminValue + normVal * difference;
    }

    method FGetNormalizedValue(value: real) returns (r: real)
      requires fminValue != fmaxValue
      modifies this`fminValue, this`fmaxValue
      ensures State() == FloatOrdered(old(State()))
      ensures r == FloatNormalized(value, fminValue, fmaxValue)
    {
      FVerifyBoundingOrder();
      var difference := fmaxValue - fminValue;
      r := Clamp01((value - fminValue) / difference);
    }

    method IGetUnnormalizedValue(normalizedVal: real) returns (r: int)
      modifies this`iminValue, this`imaxValue
      ensures State() == IntOrdered(old(State()))
      ensures r == IntUnnormalized(normalizedVal, iminValue, imaxValue)
    {
      var normVal := Clamp01(normalizedVal);
      IVerifyBoundingOrder();
      var difference := imaxValue - iminValue;
      r := Truncate(iminValue as real + normVal * difference as real);
    }

    method IGetNormalizedValue(value: int) returns (r: real)
      requires iminValue != imaxValue
      modifies this`iminValue, this`imaxValue
      ensures State() == IntOrdered(old(State()))
      ensures r == IntNormalized(value, iminValue, imaxValue)
    {
      IVerifyBoundingOrder();
      var difference := imaxValue - iminValue;
      r := Clamp01(TruncDiv(value - iminValue, difference) as real);
    }

    /** The normalizedValue getter: it puts the bounds of its kind in order as a side effect. */
    method NormalizedValue() returns (r: real)
      requires BoundsDistinct(State())
      modifies this`fminValue, this`fmaxValue, this`iminValue, this`imaxValue
      ensures State() == OrderedForKind(old(State()))
      ensures r == NormalizedSpec(old(State()))
      ensures 0.0 <= r <= 1.0
    {
      match propertyType
      case BoolType =>
        r := if boolValue then 1.0 else 0.0;
      case FloatType =>
        r := FGetNormalizedValue(floatValue);
      case IntType =>
        r := IGetNormalizedValue(intValue);
    }

    function ToString(): string
      reads this
    {
      Description(propertyType)
    }

    /** Initialises the property; `rangeF`, `rangeI` and `unit` stand for Random.Range and Random.value. */
    method Start(rangeF: (real, real) -> real, rangeI: (int, int) -> int, unit: real)
      modifies this
      ensures State() == StartSpec(old(State()), rangeF, rangeI, unit)
    {
      match propertyType
      case BoolType =>
        if startRandom {
          boolValue := unit >= 0.5;
        }
      case FloatType =>
        StartFloat(rangeF);
      case IntType =>
        StartInt(rangeI);
    }

    /** Start's Float branch. */
    method StartFloat(rangeF: (real, real) -> real)
      requires propertyType == FloatType
      modifies this`floatValue, this`fminValue, this`fmaxValue
      ensures State() == StartSpec(old(State()), rangeF, (a, b) => a, 0.0)
    {
      if startRandom {
        floatValue := Clamp(rangeF(fminStartValue, fmaxStartValue), fminValue, fmaxValue);
      }
      FVerifyBoundingOrder();
      floatValue := Clamp(floatValue, fminValue, fmaxValue);
    }

    /** Start's Int branch. */
    method StartInt(rangeI: (int, int) -> int)
      requires propertyType == IntType
      modifies this`intValue, this`iminValue, this`imaxValue
      ensures State() == StartSpec(old(State()), (a, b) => a, rangeI, 0.0)
    {
      if startRandom {
        intValue := ClampInt(rangeI(iminStartValue, imaxStartValue), iminValue, imaxValue);
      }
      IVerifyBoundingOrder();
      intValue := ClampInt(intValue, iminValue, imaxValue);
    }

    method SetValue(val: real)
      modifies this
      ensures State() == SetValueSpec(old(State()), val)
    {
      match propertyType
      case BoolType =>
        boolValue := val > 0.5;
      case FloatType =>
        FVerifyBoundingOrder();
        floatValue := Clamp(val, fminValue, fmaxValue);
      case IntType =>
        IVerifyBoundingOrder();
        intValue := ClampInt(Truncate(val), iminValue, imaxValue);
    }
  }
}
