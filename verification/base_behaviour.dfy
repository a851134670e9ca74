/**
 * The consideration of `uaiBaseBehaviour.cs` (a property name, an enabled flag
 * and a priority curve evaluated at a time) and the abstract base behaviour whose
 * score is still a stub. A curve is a function from time to priority.
 */
module BaseBehaviour {
  import opened Wrappers
  import Mathf

  type Curve = real -> real

  /**
   * The curve through the keys (0, 1) and (1, 0) with flat tangents, as an
   * AnimationCurve evaluates it: the cubic Hermite segment 2t^3 - 3t^2 + 1 between
   * the keys, held at the end values outside them.
   */
  function DefaultPriority(t: real): real {
    if t <= 0.0 then 1.0 else if t >= 1.0 then 0.0 else 2.0 * t * t * t - 3.0 * t * t + 1.0
  }

  /** The default curve starts at priority 1 and ends at priority 0. */
  lemma DefaultPriorityEndpoints()
    ensures DefaultPriority(0.0) == 1.0
    ensures DefaultPriority(1.0) == 0.0
  {
  }

  /** The default curve stays within [0,1]. */
  lemma DefaultPriorityBounded(t: real)
    ensures 0.0 <= DefaultPriority(t) <= 1.0
  {
    if 0.0 < t < 1.0 {
      // 2t^3 - 3t^2 + 1 = (1 - t)^2 (1 + 2t) and 1 - that = t^2 (3 - 2t)
      assert 2.0 * t * t * t - 3.0 * t * t + 1.0 == (1.0 - t) * (1.0 - t) * (1.0 + 2.0 * t);
      assert 3.0 * t * t - 2.0 * t * t * t == t * t * (3.0 - 2.0 * t);
      NonNegProduct3(1.0 - t, 1.0 - t, 1.0 + 2.0 * t);
      NonNegProduct3(t, t, 3.0 - 2.0 * t);
    }
  }

  lemma NonNegProduct3(a: real, b: real, c: real)
    requires 0.0 <= a && 0.0 <= b && 0.0 <= c
    ensures 0.0 <= a * b * c
  {
    assert 0.0 <= a * b;
  }

  /** The default curve never increases: a later time never has a higher priority. */
  lemma DefaultPriorityNonIncreasing(s: real, t: real)
    requires s <= t
    ensures DefaultPriority(t) <= DefaultPriority(s)
  {
    var a := if s < 0.0 then 0.0 else if s > 1.0 then 1.0 else s;
    var b := if t < 0.0 then 0.0 else if t > 1.0 then 1.0 else t;
    assert DefaultPriority(s) == Cubic(a) && DefaultPriority(t) == Cubic(b);
    CubicNonIncreasing(a, b);
  }

  function Cubic(t: real): real {
    2.0 * t * t * t - 3.0 * t * t + 1.0
  }

  /** On [0,1], Cubic(a) - Cubic(b) = (a - b)(2(a^2 + ab + b^2) - 3(a + b)), and both factors have known signs. */
  lemma CubicNonIncreasing(a: real, b: real)
    requires 0.0 <= a <= b <= 1.0
    ensures Cubic(b) <= Cubic(a)
  {
    Mathf.ScaleWithin(a, a);
    Mathf.ScaleWithin(b, b);
    Mathf.ScaleWithin(a, b);
    Mathf.ScaleWithin(b, a);
    var k := 2.0 * (a * a + a * b + b * b) - 3.0 * (a + b);
    FactorBound(a, b, a * a, a * b, b * b);
    CubicDifference(a, b);
    NonNegProduct3(b - a, -k, 1.0);
  }

  lemma CubicDifference(a: real, b: real)
    ensures Cubic(a) - Cubic(b) == (a - b) * (2.0 * (a * a + a * b + b * b) - 3.0 * (a + b))
  {
  }

  lemma FactorBound(a: real, b: real, aa: real, ab: real, bb: real)
    requires aa <= a && bb <= b && ab <= a && ab <= b
    ensures 2.0 * (aa + ab + bb) - 3.0 * (a + b) <= 0.0
  {
  }

  /** uaiConsideration (base variant): a property name, an enabled flag and a priority curve. */
  datatype Consideration = Consideration(propertyName: string, enabled: bool, priority: Curve)
  {
    /** Evaluate(time): 0 when disabled, the curve at `time` otherwise. */
    function Evaluate(time: real): (r: real)
      ensures !enabled ==> r == 0.0
      ensures enabled ==> r == priority(time)
    {
      if enabled then priority(time) else 0.0
    }

    /** SetPriorityCurve: a null curve leaves this consideration as it is; otherwise its keys replace the curve. */
    function SetPriorityCurve(curve: Option<Curve>): (r: Consideration)
      ensures curve.None? ==> r == this
      ensures curve.Some? ==> r.priority == curve.value
      ensures r.propertyName == propertyName && r.enabled == enabled
    {
      match curve
      case None => this
      case Some(c) => this.(priority := c)
    }
  }

  /** The constructor: the name as given, enabled, with the default curve. */
  function NewConsideration(propertyName: string): (c: Consideration)
    ensures c.propertyName == propertyName && c.enabled
    ensures c.Evaluate(0.0) == 1.0 && c.Evaluate(1.0) == 0.0
    ensures forall t :: 0.0 <= c.Evaluate(t) <= 1.0
  {
    DefaultPriorityEndpoints();
    forall t ensures 0.0 <= DefaultPriority(t) <= 1.0 {
      DefaultPriorityBounded(t);
    }
    Consideration(propertyName, true, DefaultPriority)
  }

  /** uaiBaseBehaviour: holds considerations, but its score is a stub. */
  class BaseBehaviour {
    var considerations: seq<Consideration>

    constructor (considerations: seq<Consideration>)
      ensures this.considerations == considerations
    {
      this.considerations := considerations;
    }

    /** Evaluate: the unfinished score, 0 for every behaviour whatever its considerations. */
    function Evaluate(): (r: real)
      ensures r == 0.0
    {
      0.0
    }
  }
}
