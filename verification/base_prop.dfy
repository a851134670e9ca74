/**
 * The state shared by the per-type properties (`uaiBaseProp`): a name, the
 * random-start flag and the start range. The abstract members of the C# base
 * (normalizedValue, Start, SetValue) live in each concrete class, which holds a
 * BaseProp for this shared state.
 */
module PropBase {

  class BaseProp {
    var name: string
    /** Set from the inspector; the constructor leaves it false. */
    var startRandom: bool
    var minStartValue: real
    var maxStartValue: real

    /** The field initialisers: empty name, no random start, start range [0, 1]. */
    constructor ()
      ensures name == "" && !startRandom
      ensures minStartValue == 0.0 && maxStartValue == 1.0
    {
      name := "";
      startRandom := false;
      minStartValue := 0.0;
      maxStartValue := 1.0;
    }

    /** The name setter: stores the value and touches nothing else. */
    method SetName(value: string)
      modifies this`name
      ensures name == value
    {
      name := value;
    }

    /** The minStartValue setter: stores the value as given, unchecked. */
    method SetMinStartValue(value: real)
      modifies this`minStartValue
      ensures minStartValue == value
    {
      minStartValue := value;
    }

    /** The maxStartValue setter: stores the value as given, unchecked. */
    method SetMaxStartValue(value: real)
      modifies this`maxStartValue
      ensures maxStartValue == value
    {
      maxStartValue := value;
    }
  }
}
