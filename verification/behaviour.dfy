/**
 * The behaviour script (`uaiBehaviour`) and its consideration, which is linked
 * to one of the agent's properties and evaluates its curve at that property's
 * normalised value. A behaviour's score is the mean over its enabled
 * considerations.
 *
 * A linked property is identified by its registry id; `normalized` gives each
 * property's normalisedValue at the moment of evaluation.
 */
module Behaviour {
  import opened Wrappers
  import opened Mathf
  import opened BaseBehaviour
  import opened Agent

  /** uaiConsideration (linked variant): name, enabled flag, priority curve and the linked property, if any. */
  datatype Consideration = Consideration(propertyName: string, enabled: bool, priority: Curve,
                                         property: Option<PropertyId>)
  {
    /** Evaluate: 0 when disabled, 0 when no property is linked, else the curve at the property's normalised value. */
    function Evaluate(normalized: PropertyId -> real): (r: real)
      ensures !enabled ==> r == 0.0
      ensures property.None? ==> r == 0.0
      ensures enabled && property.Some? ==> r == priority(normalized(property.value))
    {
      if !enabled then 0.0
      else if property.None? then 0.0
      else priority(normalized(property.value))
    }

    /** SetPriorityCurve: a null curve leaves this consideration as it is; otherwise its keys replace the curve. */
    function SetPriorityCurve(curve: Option<Curve>): (r: Consideration)
      ensures curve.None? ==> r == this
      ensures curve.Some? ==> r == this.(priority := curve.value)
    {
      match curve
      case None => this
      case Some(c) => this.(priority := c)
    }
  }

  /** The sum of the enabled considerations' evaluations, in list order. */
  function EnabledSum(cs: seq<Consideration>, normalized: PropertyId -> real): real {
    if |cs| == 0 then 0.0
    else
      var last := cs[|cs| - 1];
      EnabledSum(cs[..|cs| - 1], normalized) + (if last.enabled then last.Evaluate(normalized) else 0.0)
  }

  /** How many considerations are enabled. */
  function EnabledCount(cs: seq<Consideration>): nat {
    if |cs| == 0 then 0
    else EnabledCount(cs[..|cs| - 1]) + (if cs[|cs| - 1].enabled then 1 else 0)
  }

  /** The behaviour's score: the mean over the enabled considerations, 0 when none is enabled. */
  function Mean(cs: seq<Consideration>, normalized: PropertyId -> real): real {
    var n := EnabledCount(cs);
    if n == 0 then 0.0 else EnabledSum(cs, normalized) / n as real
  }

  /**
   * Disabled considerations count toward neither the sum nor the count: removing
   * one, wherever it sits, leaves the sum, the count and the score unchanged.
   */
  lemma {:induction false} DisabledIgnored(a: seq<Consideration>, c: Consideration, b: seq<Consideration>,
                                            normalized: PropertyId -> real)
    requires !c.enabled
    ensures EnabledSum(a + [c] + b, normalized) == EnabledSum(a + b, normalized)
    ensures EnabledCount(a + [c] + b) == EnabledCount(a + b)
    ensures Mean(a + [c] + b, normalized) == Mean(a + b, normalized)
  {
    if |b| == 0 {
      assert a + [c] + b == a + [c];
      assert (a + [c])[..|a|] == a;
      assert a + b == a;
    } else {
      var init := b[..|b| - 1];
      DisabledIgnored(a, c, init, normalized);
      assert (a + [c] + b)[..|a + [c] + b| - 1] == a + [c] + init;
      assert (a + b)[..|a + b| - 1] == a + init;
    }
  }

  /** With no consideration enabled the score is exactly 0. */
  lemma NoneEnabledScoresZero(cs: seq<Consideration>, normalized: PropertyId -> real)
    requires forall i :: 0 <= i < |cs| ==> !cs[i].enabled
    ensures Mean(cs, normalized) == 0.0
  {
    CountZero(cs);
  }

  lemma {:induction false} CountZero(cs: seq<Consideration>)
    requires forall i :: 0 <= i < |cs| ==> !cs[i].enabled
    ensures EnabledCount(cs) == 0
  {
    if |cs| > 0 {
      CountZero(cs[..|cs| - 1]);
    }
  }

  /** n copies of x added up: n * x without a product of two unknowns. */
  function Repeat(n: nat, x: real): real {
    if n == 0 then 0.0 else Repeat(n - 1, x) + x
  }

  lemma {:induction false} RepeatIsProduct(n: nat, x: real)
    ensures Repeat(n, x) == n as real * x
  {
    if n > 0 {
      RepeatIsProduct(n - 1, x);
      assert (n - 1) as real * x + x == n as real * x;
    }
  }

  /** When every enabled consideration evaluates within [lo, hi], the sum lies between count copies of lo and of hi. */
  lemma {:induction false} SumBounds(cs: seq<Consideration>, normalized: PropertyId -> real, lo: real, hi: real)
    requires forall i :: 0 <= i < |cs| && cs[i].enabled ==> lo <= cs[i].Evaluate(normalized) <= hi
    ensures Repeat(EnabledCount(cs), lo) <= EnabledSum(cs, normalized) <= Repeat(EnabledCount(cs), hi)
  {
    if |cs| > 0 {
      var init := cs[..|cs| - 1];
      forall k | 0 <= k < |init| && init[k].enabled
        ensures lo <= init[k].Evaluate(normalized) <= hi
      {
        assert init[k] == cs[k];
      }
      SumBounds(init, normalized, lo, hi);
      assert 0 <= |cs| - 1 < |cs|;
    }
  }

  /** When every enabled consideration evaluates within [0,1], so does the score. */
  lemma MeanWithinUnit(cs: seq<Consideration>, normalized: PropertyId -> real)
    requires forall i :: 0 <= i < |cs| && cs[i].enabled ==> 0.0 <= cs[i].Evaluate(normalized) <= 1.0
    ensures 0.0 <= Mean(cs, normalized) <= 1.0
  {
    SumBounds(cs, normalized, 0.0, 1.0);
    var n := EnabledCount(cs);
    RepeatIsProduct(n, 0.0);
    RepeatIsProduct(n, 1.0);
    if n > 0 {
      QuotientFacts(EnabledSum(cs, normalized), n as real);
    }
  }

  /** When every enabled consideration evaluates to v, and one is enabled, the score is v. */
  lemma MeanOfConstant(cs: seq<Consideration>, normalized: PropertyId -> real, v: real)
    requires forall i :: 0 <= i < |cs| && cs[i].enabled ==> cs[i].Evaluate(normalized) == v
    requires exists i :: 0 <= i < |cs| && cs[i].enabled
    ensures Mean(cs, normalized) == v
  {
    SumBounds(cs, normalized, v, v);
    var i :| 0 <= i < |cs| && cs[i].enabled;
    CountPositive(cs, i);
    var n := EnabledCount(cs);
    RepeatIsProduct(n, v);
    Cancel(n as real, v);
  }

  /** (n * v) / n is v for positive n. */
  lemma Cancel(n: real, v: real)
    requires 0.0 < n
    ensures (n * v) / n == v
  {
    QuotientFacts(n * v, n);
  }

  lemma {:induction false} CountPositive(cs: seq<Consideration>, i: nat)
    requires i < |cs| && cs[i].enabled
    ensures EnabledCount(cs) > 0
  {
    if i < |cs| - 1 {
      CountPositive(cs[..|cs| - 1], i);
    }
  }

  /** When no consideration is linked to a property, every term is 0 and so is the score. */
  lemma UnlinkedScoresZero(cs: seq<Consideration>, normalized: PropertyId -> real)
    requires forall i :: 0 <= i < |cs| ==> cs[i].property.None?
    ensures Mean(cs, normalized) == 0.0
  {
    SumBounds(cs, normalized, 0.0, 0.0);
    RepeatIsProduct(EnabledCount(cs), 0.0);
  }

  /**
   * What LinkConsiderations evidently means to leave in the list: a consideration
   * whose name is in the registry is linked to the first such property; one
   * whose name is not has its name cleared.
   */
  function Linked(cs: seq<Consideration>, registry: seq<PropEntry>): (r: seq<Consideration>)
    ensures |r| == |cs|
    ensures forall i :: 0 <= i < |cs| ==>
      match FindProperty(registry, cs[i].propertyName)
      case Some(id) => r[i] == cs[i].(property := Some(id))
      case None => r[i] == cs[i].(propertyName := "")
  {
    seq(|cs|, i requires 0 <= i < |cs| =>
      match FindProperty(registry, cs[i].propertyName)
      case Some(id) => cs[i].(property := Some(id))
      case None => cs[i].(propertyName := ""))
  }

  /**
   * After linking, every consideration is either linked to a property registered
   * under its name or has an empty name; enabled flags and curves are kept.
   */
  lemma LinkedSound(cs: seq<Consideration>, registry: seq<PropEntry>, i: nat)
    requires i < |cs|
    ensures var c := Linked(cs, registry)[i];
      && c.enabled == cs[i].enabled && c.priority == cs[i].priority
      && (c.propertyName == "" || (c.property.Some? && PropEntry(c.propertyName, c.property.value) in registry))
  {
    var c := Linked(cs, registry)[i];
    match FindProperty(registry, cs[i].propertyName)
    case Some(id) =>
      var k :| 0 <= k < |registry| && registry[k] == PropEntry(cs[i].propertyName, id) &&
               forall j :: 0 <= j < k ==> registry[j].name != cs[i].propertyName;
      assert registry[k] in registry;
    case None =>
  }

  /** A consideration named after a registered property, not yet linked, is changed by the intended linking. */
  lemma LinkingChangesUnlinked(c: Consideration, registry: seq<PropEntry>)
    requires c.property.None?
    requires exists i :: 0 <= i < |registry| && registry[i].name == c.propertyName
    ensures Linked([c], registry) != [c]
    ensures Linked([c], registry)[0].property.Some?
  {
    assert Linked([c], registry)[0] == c.(property := Some(FindProperty(registry, c.propertyName).value));
  }

  class Behaviour {
    var agent: Agent?
    var considerations: seq<Consideration>

    /** The serialised state: no agent until Start finds one, and the considerations as given. */
    constructor (considerations: seq<Consideration>)
      ensures agent == null && this.considerations == considerations
    {
      agent := null;
      this.considerations := considerations;
    }

    /**
     * Evaluate: one pass summing the enabled considerations' evaluations and
     * counting them; 0 when none is enabled, their mean otherwise.
     */
    method Evaluate(normalized: PropertyId -> real) returns (r: real)
      ensures r == Mean(considerations, normalized)
    {
      var totalPriority := 0.0;
      var i := 0;
      var count := 0;
      while i < |considerations|
        invariant 0 <= i <= |considerations|
        invariant totalPriority == EnabledSum(considerations[..i], normalized)
        invariant count == EnabledCount(considerations[..i])
      {
        assert considerations[..i + 1][..i] == considerations[..i];
        var c := considerations[i];
        if c.enabled {
          totalPriority := totalPriority + c.Evaluate(normalized);
          count := count + 1;
        }
        i := i + 1;
      }
      assert considerations[..i] == considerations;
      if count == 0 {
        return 0.0;
      }
      r := totalPriority / count as real;
    }

    /**
     * LinkConsiderations as written: each consideration is copied into a local,
     * the copy is linked (or its name cleared), and the copy is then dropped, so
     * the list is left exactly as it was. `Linked` is what it evidently means to do.
     */
    method LinkConsiderations()
      ensures considerations == old(considerations)
    {
      if agent != null {
        for i := 0 to |considerations| {
          var c := considerations[i];
          var property := FindProperty(agent.properties, c.propertyName);
          if property.Some? {
            c := c.(property := property);
          } else {
            c := c.(propertyName := "");
          }
        }
      }
    }

    /** LinkConsiderations with the edits written back into the list, as Linked describes. */
    method LinkConsiderationsIntended()
      modifies this`considerations
      ensures agent != null ==> considerations == Linked(old(considerations), agent.properties)
      ensures agent == null ==> considerations == old(considerations)
    {
      if agent != null {
        var i := 0;
        while i < |considerations|
          invariant 0 <= i <= |considerations| == |old(considerations)|
          invariant considerations[..i] == Linked(old(considerations), agent.properties)[..i]
          invariant considerations[i..] == old(considerations)[i..]
        {
          var c := considerations[i];
          var property := FindProperty(agent.properties, c.propertyName);
          if property.Some? {
            c := c.(property := property);
          } else {
            c := c.(propertyName := "");
          }
          considerations := considerations[i := c];
          i := i + 1;
        }
      }
    }
  }
}
