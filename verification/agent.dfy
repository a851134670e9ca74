/**
 * The agent (`uaiAgent`): a list of behaviours, possibly with empty slots, and
 * the behaviour currently chosen. Each frame it picks the behaviour with the
 * highest score, the current one getting a flat commitment bonus; a candidate
 * must beat the running best strictly, and the running best starts at 0.
 *
 * A behaviour's own score is a parameter `evaluate`: the base behaviour's score is
 * still a stub returning 0, so the lemmas also state what the agent does with it.
 *
 * The agent also owns the property registry that behaviours search by name.
 */
module Agent {
  import opened Wrappers
  import opened BaseBehaviour

  /** Identifies one of the agent's properties. */
  type PropertyId = nat

  datatype PropEntry = PropEntry(name: string, id: PropertyId)

  /**
   * FindProperty: a linear search of the registry for the first property with
   * this name; none when no property has it.
   */
  function FindProperty(registry: seq<PropEntry>, name: string): (r: Option<PropertyId>)
    ensures r.None? <==> forall i :: 0 <= i < |registry| ==> registry[i].name != name
    ensures r.Some? ==> exists k :: 0 <= k < |registry| && registry[k] == PropEntry(name, r.value)
                                    && forall j :: 0 <= j < k ==> registry[j].name != name
  {
    if |registry| == 0 then None
    else if registry[0].name == name then Some(registry[0].id)
    else
      var r := FindProperty(registry[1..], name);
      assert forall j :: 1 <= j < |registry| ==> registry[j] == registry[1..][j - 1];
      r
  }

  /** The default commitment bonus and the range the inspector allows for it. */
  const DefaultCommitment: real := 0.1
  const MinCommitment: real := 0.01
  const MaxCommitment: real := 0.15

  /** A behaviour's score: its own evaluation, plus the commitment bonus when it is the current one. */
  function Score(b: BaseBehaviour, current: BaseBehaviour?, commitment: real, evaluate: BaseBehaviour -> real): real {
    (if b == current then commitment else 0.0) + evaluate(b)
  }

  /**
   * The running best (score, behaviour) after scanning `bs` in order, starting
   * from (0, null); an empty slot is skipped and a candidate replaces the best
   * only with a strictly higher score.
   */
  function Scan(bs: seq<BaseBehaviour?>, current: BaseBehaviour?, commitment: real,
                evaluate: BaseBehaviour -> real): (real, BaseBehaviour?)
  {
    if |bs| == 0 then (0.0, null)
    else
      var (top, best) := Scan(bs[..|bs| - 1], current, commitment, evaluate);
      var b := bs[|bs| - 1];
      if b == null then (top, best)
      else
        var score := Score(b, current, commitment, evaluate);
        if score > top then (score, b) else (top, best)
  }

  /**
   * What the scan finds: a best score of at least 0 that no behaviour exceeds;
   * no behaviour when that best is 0; otherwise a behaviour at some position k
   * that reaches the best score, strictly above every behaviour before k.
   */
  lemma {:induction false} ScanFacts(bs: seq<BaseBehaviour?>, current: BaseBehaviour?, commitment: real,
                                      evaluate: BaseBehaviour -> real)
    ensures var (top, best) := Scan(bs, current, commitment, evaluate);
      && 0.0 <= top
      && (forall i :: 0 <= i < |bs| && bs[i] != null ==> Score(bs[i], current, commitment, evaluate) <= top)
      && (best == null ==> top == 0.0)
      && (best != null ==>
            && 0.0 < top
            && exists k ::
                 && 0 <= k < |bs| && bs[k] == best
                 && Score(best, current, commitment, evaluate) == top
                 && forall j :: 0 <= j < k && bs[j] != null ==> Score(bs[j], current, commitment, evaluate) < top)
  {
    if |bs| > 0 {
      var prefix := bs[..|bs| - 1];
      ScanFacts(prefix, current, commitment, evaluate);
      assert forall i :: 0 <= i < |prefix| ==> bs[i] == prefix[i];
    }
  }

  /**
   * The top-priority behaviour: none exactly when no behaviour scores above 0;
   * otherwise one whose score is at least every behaviour's score and strictly
   * above the score of every behaviour listed before it (so ties go to the first).
   */
  function TopPriority(bs: seq<BaseBehaviour?>, current: BaseBehaviour?, commitment: real,
                       evaluate: BaseBehaviour -> real): (r: BaseBehaviour?)
    ensures r == null <==> forall i :: 0 <= i < |bs| && bs[i] != null ==> Score(bs[i], current, commitment, evaluate) <= 0.0
    ensures r != null ==>
      && (forall i :: 0 <= i < |bs| && bs[i] != null ==>
            Score(bs[i], current, commitment, evaluate) <= Score(r, current, commitment, evaluate))
      && 0.0 < Score(r, current, commitment, evaluate)
      && exists k ::
           && 0 <= k < |bs| && bs[k] == r
           && forall j :: 0 <= j < k && bs[j] != null ==>
                Score(bs[j], current, commitment, evaluate) < Score(r, current, commitment, evaluate)
  {
    ScanFacts(bs, current, commitment, evaluate);
    Scan(bs, current, commitment, evaluate).1
  }

  /**
   * Hysteresis: when the current behaviour, with its bonus, scores above 0 and
   * strictly above every other behaviour, it is chosen again.
   */
  lemma Hysteresis(bs: seq<BaseBehaviour?>, current: BaseBehaviour, commitment: real, evaluate: BaseBehaviour -> real)
    requires current in bs
    requires 0.0 < Score(current, current, commitment, evaluate)
    requires forall i :: 0 <= i < |bs| && bs[i] != null && bs[i] != current ==>
               Score(bs[i], current, commitment, evaluate) < Score(current, current, commitment, evaluate)
    ensures TopPriority(bs, current, commitment, evaluate) == current
  {
    var i :| 0 <= i < |bs| && bs[i] == current;
    var r := TopPriority(bs, current, commitment, evaluate);
    assert r != null;
    assert Score(current, current, commitment, evaluate) <= Score(r, current, commitment, evaluate);
  }

  /** With the base behaviour's stub score, an agent with no current behaviour never selects one. */
  lemma StubSelectsNothing(bs: seq<BaseBehaviour?>, commitment: real)
    ensures TopPriority(bs, null, commitment, (b: BaseBehaviour) => b.Evaluate()) == null
  {
  }

  /**
   * The commitment bonus breaks ties in favour of the current behaviour: with a
   * bonus in the inspector's range, a current behaviour whose own evaluation is
   * at least every other behaviour's, and not negative, is chosen again.
   */
  lemma CommitmentKeepsTiedCurrent(bs: seq<BaseBehaviour?>, current: BaseBehaviour, commitment: real,
                                   evaluate: BaseBehaviour -> real)
    requires current in bs
    requires MinCommitment <= commitment <= MaxCommitment
    requires 0.0 <= evaluate(current)
    requires forall i :: 0 <= i < |bs| && bs[i] != null ==> evaluate(bs[i]) <= evaluate(current)
    ensures TopPriority(bs, current, commitment, evaluate) == current
  {
    forall i | 0 <= i < |bs| && bs[i] != null && bs[i] != current
      ensures Score(bs[i], current, commitment, evaluate) < Score(current, current, commitment, evaluate)
    {
    }
    Hysteresis(bs, current, commitment, evaluate);
  }

  class Agent {
    var behaviours: seq<BaseBehaviour?>
    var current: BaseBehaviour?
    var commitmentValue: real
    var properties: seq<PropEntry>

    /** The inspector keeps the commitment bonus within [MinCommitment, MaxCommitment]. */
    predicate CommitmentInRange()
      reads this
    {
      MinCommitment <= commitmentValue <= MaxCommitment
    }

    /** A fresh agent: the given behaviours and properties, nothing current, the default commitment. */
    constructor (behaviours: seq<BaseBehaviour?>, properties: seq<PropEntry>)
      ensures this.behaviours == behaviours && this.properties == properties
      ensures current == null && commitmentValue == DefaultCommitment
      ensures CommitmentInRange()
    {
      this.behaviours := behaviours;
      this.properties := properties;
      current := null;
      commitmentValue := DefaultCommitment;
    }

    /**
     * GetTopPriorityBehaviour: one pass over the behaviours keeping the running
     * best, as TopPriority describes. Nothing is modified.
     */
    method GetTopPriorityBehaviour(evaluate: BaseBehaviour -> real) returns (topPriority: BaseBehaviour?)
      ensures topPriority == TopPriority(behaviours, current, commitmentValue, evaluate)
    {
      topPriority := null;
      var topScore := 0.0;
      for i := 0 to |behaviours|
        invariant (topScore, topPriority) == Scan(behaviours[..i], current, commitmentValue, evaluate)
      {
        assert behaviours[..i + 1][..i] == behaviours[..i];
        var b := behaviours[i];
        if b == null {
          continue;
        }
        var commitment := if b == current then commitmentValue else 0.0;
        var score := commitment + evaluate(b);
        if score > topScore {
          topScore := score;
          topPriority := b;
        }
      }
      assert behaviours[..|behaviours|] == behaviours;
    }

    /** Update: the top-priority behaviour becomes current when there is one; otherwise the current one stays. */
    method Update(evaluate: BaseBehaviour -> real)
      modifies this`current
      ensures var top := TopPriority(behaviours, old(current), commitmentValue, evaluate);
        current == if top != null then top else old(current)
    {
      var topPriority := GetTopPriorityBehaviour(evaluate);
      if topPriority != null {
        current := topPriority;
      }
    }
  }
}
