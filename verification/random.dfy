/**
 * UnityEngine.Random is not modelled; where the core draws a random number the
 * draw becomes a parameter, and these predicates state what Unity promises of it.
 */
module Random {
  import Mathf

  /** Random.Range(float a, float b): a value between a and b, both inclusive. */
  ghost predicate IsFloatRange(range: (real, real) -> real) {
    forall a, b :: Mathf.Min(a, b) <= range(a, b) <= Mathf.Max(a, b)
  }

  /** Random.Range(int a, int b): a value in [a, b) when a < b, and between the two in any case. */
  ghost predicate IsIntRange(range: (int, int) -> int) {
    forall a, b :: (if a <= b then a <= range(a, b) <= b else b <= range(a, b) <= a)
                   && (a < b ==> range(a, b) < b)
  }

  /** Random.value: a value in [0,1]. */
  predicate IsUnitValue(u: real) {
    0.0 <= u <= 1.0
  }
}
