# Utility-AI decision engine: a Dafny model

This project models the utility-AI core of the StarForce Recon prototype, a
Unity game. It has five parts:

- **Typed properties.** Each is a Bool, Int or Float value with bounds and a
  normalised reading in [0,1]. There is the combined tagged `uaiProperty`, and
  the class family `uaiBaseProp` / `uaiFloatProp` / `uaiIntProp` / `uaiBoolProp`.
- **Considerations.** Each is an enabled flag plus a response curve, read at a
  property's normalised value.
- **Behaviours.** A behaviour scores the mean of its enabled considerations.
- **The agent.** It keeps the highest-scoring behaviour current, with a
  commitment bonus for the behaviour already current.
- **Generic helpers.** These are `UtilityFunctionsJP.cs` and the array helpers
  of `SightLineOptimizer.cs`.

Modules, one per file:

| file | module | models |
|---|---|---|
| `mathf.dfy` | `Mathf` | `Mathf.Clamp`, `Clamp01`, `Min` and `Max`; the C# `(int)` cast (truncation toward zero) and `int / int` (truncating division) |
| `random.dfy` | `Random` | what `Random.Range` and `Random.value` promise, as predicates on the values that stand for them |
| `wrappers.dfy` | `Wrappers` | `Option` |
| `uai_property.dfy` | `UaiProperty` | `uaiProperty`: a class over its thirteen fields, `State()` as a value, and one specification function per operation |
| `base_prop.dfy` | `PropBase` | `uaiBaseProp`'s shared state and accessors |
| `float_prop.dfy`, `int_prop.dfy`, `bool_prop.dfy` | `FloatProp`, `IntProp`, `BoolProp` | the three concrete properties; each holds its `uaiBaseProp` part as a `BaseProp` object |
| `base_behaviour.dfy` | `BaseBehaviour` | the consideration of `uaiBaseBehaviour.cs` (curve at a time) and the stub base behaviour |
| `agent.dfy` | `Agent` | `uaiAgent` selection and update; the property registry searched by name |
| `behaviour.dfy` | `Behaviour` | the consideration of `uaiBehaviour.cs` (curve at a linked property) and `uaiBehaviour` scoring and linking |
| `utils.dfy` | `Utils` | `IsBetween`, `InRange`, componentwise min/max, `ApplyTagMask`, `GetChildrenOf`, `GetTopLevelParent` |
| `sight_line.dfy` | `SightLine` | the `allocatedRaycastHits` buffer, `SortNonAllocArrayByDistance` and `FirstValidHit` |

Floats are `real` and C# ints are unbounded `int`. The code mutates fields in
place, so its classes are Dafny classes. Each method is specified by the new
state it produces, and the lemmas are proved about the functions that give
that state.

Random draws are parameters:

- `rangeF` / `range` stands for `Random.Range` on floats.
- `rangeI` / `range` stands for `Random.Range` on ints.
- `unit` stands for `Random.value`.

Their contracts are the predicates of `random.dfy`.

An `AnimationCurve` is a function `real -> real`. The default curve of
`uaiBaseBehaviour.cs` has two keys, (0,1) and (1,0), with flat tangents. It is
written out as the Hermite cubic 2t³ − 3t² + 1, held constant outside [0,1].

Where the code and its own comments disagree, the model follows the code:

- `uaiBaseProp.SetValue` is documented to set a boolean to true above 0.5, but
  `uaiBoolProp` uses `>= 0.5`. The combined `uaiProperty` uses `> 0.5`.
  `BoolProp.ThresholdAgreesWithPropertyExceptHalf` relates the two rules.
- `uaiBaseProp.SetValue` is documented to clamp to [0,1]. The subclasses clamp
  to their own bounds, and their `normalizedValue` is not clamped.
- The bool constructor of `uaiProperty` takes a `value` but never stores it.
- The `uaiBaseProp` constructor calls `Start`. C# runs field initialisers
  before the base constructor, so that `Start` always sees `_startRandom`
  false and does nothing. Each concrete constructor makes that call, and its
  contract shows the defaults survive it.

Two definitions of `uaiConsideration` exist in one namespace: one in
`uaiBaseBehaviour.cs`, one in `uaiBehaviour.cs`. They are modelled separately,
as `BaseBehaviour.Consideration` and `Behaviour.Consideration`.

`uaiBehaviour` calls `AddBehaviour` and `FindProperty` on the agent, but
`uaiAgent` defines neither. `FindProperty` is modelled as a first-match search
of a registry of (name, id) entries kept by the agent. A linked property is
known by its id. Its `normalizedValue` at evaluation time is given by a
function `normalized`.

The agent's list holds `uaiBaseBehaviour`s, whose `Evaluate` is a stub
returning 0. So the agent's use of a behaviour's score is a parameter
`evaluate`. `Agent.StubSelectsNothing` states what the stub itself leads to.

## Model

| member | source | states |
|---|---|---|
| Mathf.Clamp | Assets/Scripts/UtilityAI/Properties/uaiFloatProp.cs:52 | Mathf.Clamp: within [min,max] when min ≤ max; the identity inside; always one of value, min, max; below min it is min, above max (and not below min) it is max |
| Mathf.ClampInt | Assets/Scripts/UtilityAI/uaiProperty.cs:256 | Mathf.Clamp on ints, with the same guarantees, the nearest bound for an out-of-range value included |
| Mathf.Clamp01 | Assets/Scripts/UtilityAI/uaiProperty.cs:131 | result in [0,1]; identity on [0,1]; 0 at or below 0 and 1 at or above 1 |
| Mathf.Min | Assets/Scripts/Misc/UtilityFunctionsJP.cs:252 | no larger than either argument and equal to one of them |
| Mathf.Max | Assets/Scripts/Misc/UtilityFunctionsJP.cs:276 | no smaller than either argument and equal to one of them |
| Mathf.Truncate | Assets/Scripts/UtilityAI/uaiProperty.cs:291 | the `(int)` cast: for v ≥ 0, r ≤ v < r+1; for v < 0, r−1 < v ≤ r (toward zero) |
| Mathf.TruncDiv | Assets/Scripts/UtilityAI/uaiProperty.cs:169 | C# int division: magnitude \|a\| div \|b\|, sign the product of the operands' signs |
| Mathf.TruncateWithinIntBounds | Assets/Scripts/UtilityAI/Properties/uaiIntProp.cs:51 | truncating a value clamped between two ints stays between them |
| Mathf.TruncateOfInt | Assets/Scripts/UtilityAI/uaiProperty.cs:159 | the cast leaves integral values alone |
| UaiProperty.OrderedReal | Assets/Scripts/UtilityAI/uaiProperty.cs:137-146 | the bounds swapped when out of order: ordered, the same pair, no change when already ordered |
| UaiProperty.OrderedInt | Assets/Scripts/UtilityAI/uaiProperty.cs:175-184 | the same for the int bounds |
| UaiProperty.FloatOrdered | Assets/Scripts/UtilityAI/uaiProperty.cs:137-146 | after fVerifyBoundingOrder: fmin ≤ fmax, {fmin, fmax} the same multiset, every other field unchanged, an ordered state left alone (so a second call is a no-op) |
| UaiProperty.IntOrdered | Assets/Scripts/UtilityAI/uaiProperty.cs:175-184 | the same for iVerifyBoundingOrder |
| UaiProperty.FloatNormalized | Assets/Scripts/UtilityAI/uaiProperty.cs:127-132 | clamp01((v−lo)/(hi−lo)): in [0,1]; 0 at or below lo, 1 at or above hi; inside the bounds, the fraction with r·(hi−lo) = v−lo |
| UaiProperty.FloatUnnormalized | Assets/Scripts/UtilityAI/uaiProperty.cs:114-122 | lo + clamp01(n)·(hi−lo): within [lo,hi]; lo for n ≤ 0, hi for n ≥ 1 |
| UaiProperty.IntNormalized | Assets/Scripts/UtilityAI/uaiProperty.cs:165-170 | with integer division the result is 0 or 1, and 1 exactly when v ≥ hi |
| UaiProperty.IntNormalizedIntended | Assets/Scripts/UtilityAI/uaiProperty.cs:165-170 | the real quotient clamped: in [0,1], the fraction r·(hi−lo) = v−lo inside the bounds, strictly between 0 and 1 strictly inside |
| UaiProperty.IntNormalizedLosesFraction | Assets/Scripts/UtilityAI/uaiProperty.cs:168-169 | for every v strictly inside the bounds, the as-written result is 0 while the intended one is strictly between 0 and 1 |
| UaiProperty.IntNormalizedHalfway | Assets/Scripts/UtilityAI/uaiProperty.cs:168-169 | 5 in [0,10] normalises to 0 as written and to 0.5 as intended |
| UaiProperty.IntUnnormalized | Assets/Scripts/UtilityAI/uaiProperty.cs:152-160 | (int)(lo + clamp01(n)·(hi−lo)): within [lo,hi]; lo for n ≤ 0, hi for n ≥ 1 |
| UaiProperty.FloatNormalizeUnnormalize | Assets/Scripts/UtilityAI/uaiProperty.cs:114-132 | normalising the unnormalised value gives clamp01 of the fraction back |
| UaiProperty.FloatUnnormalizeNormalize | Assets/Scripts/UtilityAI/uaiProperty.cs:114-132 | unnormalising the normalised value gives the value clamped into the bounds |
| UaiProperty.NormalizedSpec | Assets/Scripts/UtilityAI/uaiProperty.cs:189-206 | the normalizedValue read: in [0,1] for every kind; a Bool gives exactly 1 when true and 0 when false; an Int gives 0 or 1 |
| UaiProperty.SetValueSpec | Assets/Scripts/UtilityAI/uaiProperty.cs:271-295 | Bool stores val > 0.5 (strict) and nothing else changes; Float orders its bounds and stores val clamped to the nearest of them, so val itself when val is inside; Int orders its bounds and stores (int)val clamped to the nearest of them, so (int)val when that is inside; the type never changes |
| UaiProperty.SetValueIdempotent | Assets/Scripts/UtilityAI/uaiProperty.cs:271-295 | a second SetValue with the same input changes nothing |
| UaiProperty.StartSpec | Assets/Scripts/UtilityAI/uaiProperty.cs:227-261 | a Bool with a random start becomes Random.value ≥ 0.5, otherwise stays; a Float or Int ends within its re-ordered bounds whether or not the start is random, and a non-random start only clamps the stored value |
| UaiProperty.Description | Assets/Scripts/UtilityAI/uaiProperty.cs:208-222 | the ToString text for each kind |
| UaiProperty.DescriptionsDistinct | Assets/Scripts/UtilityAI/uaiProperty.cs:208-222 | ToString tells the three kinds apart |
| UaiProperty.Property.FromFloat | Assets/Scripts/UtilityAI/uaiProperty.cs:59-72 | Float type; value, bounds and start range stored unchecked; the other fields at their initialisers |
| UaiProperty.Property.FromBool | Assets/Scripts/UtilityAI/uaiProperty.cs:79-84 | Bool type and the start flag; the value argument is not stored, so the property starts false |
| UaiProperty.Property.FromInt | Assets/Scripts/UtilityAI/uaiProperty.cs:95-108 | Int type; value, bounds and start range stored unchecked |
| UaiProperty.Property.FVerifyBoundingOrder | Assets/Scripts/UtilityAI/uaiProperty.cs:137-146 | the new state is FloatOrdered of the old |
| UaiProperty.Property.IVerifyBoundingOrder | Assets/Scripts/UtilityAI/uaiProperty.cs:175-184 | the new state is IntOrdered of the old |
| UaiProperty.Property.FGetUnnormalizedValue | Assets/Scripts/UtilityAI/uaiProperty.cs:114-122 | orders the float bounds, returns FloatUnnormalized on them |
| UaiProperty.Property.FGetNormalizedValue | Assets/Scripts/UtilityAI/uaiProperty.cs:127-132 | orders the float bounds, returns FloatNormalized on them (distinct bounds required: equal ones divide by zero) |
| UaiProperty.Property.IGetUnnormalizedValue | Assets/Scripts/UtilityAI/uaiProperty.cs:152-160 | orders the int bounds, returns IntUnnormalized on them |
| UaiProperty.Property.IGetNormalizedValue | Assets/Scripts/UtilityAI/uaiProperty.cs:165-170 | orders the int bounds, returns IntNormalized on them |
| UaiProperty.Property.NormalizedValue | Assets/Scripts/UtilityAI/uaiProperty.cs:189-206 | orders the bounds of its own kind as a side effect and returns NormalizedSpec, a value in [0,1] |
| UaiProperty.Property.Start | Assets/Scripts/UtilityAI/uaiProperty.cs:227-261 | the new state is StartSpec of the old |
| UaiProperty.Property.StartFloat | Assets/Scripts/UtilityAI/uaiProperty.cs:239-248 | the Float branch of Start, as StartSpec describes it |
| UaiProperty.Property.StartInt | Assets/Scripts/UtilityAI/uaiProperty.cs:250-259 | the Int branch of Start, as StartSpec describes it |
| UaiProperty.Property.SetValue | Assets/Scripts/UtilityAI/uaiProperty.cs:271-295 | the new state is SetValueSpec of the old |
| PropBase.BaseProp.constructor | Assets/Scripts/UtilityAI/Properties/Base/uaiBaseProp.cs:11-26 | the initialisers: empty name, random start off, start range [0,1] |
| PropBase.BaseProp.SetName | Assets/Scripts/UtilityAI/Properties/Base/uaiBaseProp.cs:12-16 | the name read back is the name set |
| PropBase.BaseProp.SetMinStartValue | Assets/Scripts/UtilityAI/Properties/Base/uaiBaseProp.cs:28-32 | the minStartValue read back is the value set |
| PropBase.BaseProp.SetMaxStartValue | Assets/Scripts/UtilityAI/Properties/Base/uaiBaseProp.cs:33-37 | the maxStartValue read back is the value set |
| FloatProp.Normalized | Assets/Scripts/UtilityAI/Properties/uaiFloatProp.cs:14-22 | (v−lo)/(hi−lo) with no clamp: r·(hi−lo) = v−lo; in [0,1] exactly when v is within the bounds; below 0 under lo, above 1 over hi |
| FloatProp.NormalizedAgreesWithProperty | Assets/Scripts/UtilityAI/Properties/uaiFloatProp.cs:14-22 | within the bounds it equals the combined property's clamped normalisation |
| FloatProp.NormalizedOfClamp | Assets/Scripts/UtilityAI/Properties/uaiFloatProp.cs:49-54 | normalising the value SetValue stores is clamping the normalised input to [0,1] |
| FloatProp.FloatProp.constructor | Assets/Scripts/UtilityAI/Properties/uaiFloatProp.cs:10-12 | value 0 and bounds [0,1] after the base constructor's Start, which changes nothing; the invariant holds |
| FloatProp.FloatProp.Start | Assets/Scripts/UtilityAI/Properties/uaiFloatProp.cs:24-28 | a random start stores Random.Range(min, max), which lies between the bounds; otherwise the value is unchanged |
| FloatProp.FloatProp.VerifyMinMaxOrder | Assets/Scripts/UtilityAI/Properties/uaiFloatProp.cs:34-43 | the bounds become OrderedReal of the old bounds (ordered, same pair, no-op when ordered); the invariant is kept |
| FloatProp.FloatProp.NormalizedValue | Assets/Scripts/UtilityAI/Properties/uaiFloatProp.cs:14-22 | orders the bounds and returns Normalized, which is in [0,1] whenever the invariant holds |
| FloatProp.FloatProp.SetValue | Assets/Scripts/UtilityAI/Properties/uaiFloatProp.cs:49-54 | orders the bounds and stores clamp(val, min, max), so the value lies within them |
| IntProp.Normalized | Assets/Scripts/UtilityAI/Properties/uaiIntProp.cs:13-21 | the float quotient (v−lo)/(hi−lo): r·(hi−lo) = v−lo; in [0,1] exactly when v is within the bounds |
| IntProp.NormalizedIsIntended | Assets/Scripts/UtilityAI/Properties/uaiIntProp.cs:13-21 | within the bounds it equals the intended integer normalisation of the combined property |
| IntProp.TruncateClampCommute | Assets/Scripts/UtilityAI/Properties/uaiIntProp.cs:48-53 | clamping as a float and then truncating (this class) equals truncating and then clamping the int (the combined property) |
| IntProp.IntProp.constructor | Assets/Scripts/UtilityAI/Properties/uaiIntProp.cs:9-11 | value 0 and bounds [0,1] after the base constructor's Start; the invariant holds |
| IntProp.IntProp.Start | Assets/Scripts/UtilityAI/Properties/uaiIntProp.cs:23-27 | a random start stores Random.Range(min, max), which lies between the bounds; otherwise the value is unchanged |
| IntProp.IntProp.VerifyMinMaxOrder | Assets/Scripts/UtilityAI/Properties/uaiIntProp.cs:33-42 | the bounds become OrderedInt of the old bounds; the invariant is kept |
| IntProp.IntProp.NormalizedValue | Assets/Scripts/UtilityAI/Properties/uaiIntProp.cs:13-21 | orders the bounds and returns Normalized, in [0,1] whenever the invariant holds |
| IntProp.IntProp.SetValue | Assets/Scripts/UtilityAI/Properties/uaiIntProp.cs:48-53 | orders the bounds and stores (int)clamp(val, min, max), an int within the bounds; also equal to clamping (int)val |
| BoolProp.Threshold | Assets/Scripts/UtilityAI/Properties/uaiBoolProp.cs:26-29 | the rule of this class: val ≥ 0.5, 0.5 included |
| BoolProp.ThresholdAgreesWithPropertyExceptHalf | Assets/Scripts/UtilityAI/Properties/uaiBoolProp.cs:26-29 | this rule and the combined property's `> 0.5` agree on every input except 0.5 |
| BoolProp.BoolProp.constructor | Assets/Scripts/UtilityAI/Properties/uaiBoolProp.cs:9 | the value starts false and the base constructor's Start keeps it so |
| BoolProp.BoolProp.NormalizedValue | Assets/Scripts/UtilityAI/Properties/uaiBoolProp.cs:11-14 | 0 or 1, and 1 exactly when the value is true |
| BoolProp.BoolProp.Start | Assets/Scripts/UtilityAI/Properties/uaiBoolProp.cs:16-20 | a random start stores Random.value ≥ 0.5; otherwise the value is unchanged |
| BoolProp.BoolProp.SetValue | Assets/Scripts/UtilityAI/Properties/uaiBoolProp.cs:26-29 | stores val ≥ 0.5, whatever was there before (the last write wins); the normalised value is then 1 exactly when val ≥ 0.5 |
| BaseBehaviour.DefaultPriorityEndpoints | Assets/Scripts/UtilityAI/Behaviours/Base/uaiBaseBehaviour.cs:20 | the default curve is 1 at t = 0 and 0 at t = 1 |
| BaseBehaviour.DefaultPriorityBounded | Assets/Scripts/UtilityAI/Behaviours/Base/uaiBaseBehaviour.cs:20 | the default curve stays in [0,1] |
| BaseBehaviour.DefaultPriorityNonIncreasing | Assets/Scripts/UtilityAI/Behaviours/Base/uaiBaseBehaviour.cs:20 | the default curve never increases |
| BaseBehaviour.Consideration.Evaluate | Assets/Scripts/UtilityAI/Behaviours/Base/uaiBaseBehaviour.cs:36-39 | 0 when disabled, the curve at `time` when enabled |
| BaseBehaviour.Consideration.SetPriorityCurve | Assets/Scripts/UtilityAI/Behaviours/Base/uaiBaseBehaviour.cs:27-31 | a null curve changes nothing; otherwise the curve is replaced and name and flag kept |
| BaseBehaviour.NewConsideration | Assets/Scripts/UtilityAI/Behaviours/Base/uaiBaseBehaviour.cs:16-21 | the name as given, enabled, with a curve that evaluates to 1 at 0, to 0 at 1, and within [0,1] everywhere |
| BaseBehaviour.BaseBehaviour.constructor | Assets/Scripts/UtilityAI/Behaviours/Base/uaiBaseBehaviour.cs:47 | holds the considerations given |
| BaseBehaviour.BaseBehaviour.Evaluate | Assets/Scripts/UtilityAI/Behaviours/Base/uaiBaseBehaviour.cs:49-53 | the stub score: 0 for every behaviour |
| Agent.FindProperty | Assets/Scripts/UtilityAI/uaiBehaviour.cs:92 | none exactly when no registered property has the name; otherwise the id of the first one that has it |
| Agent.ScanFacts | Assets/Scripts/UtilityAI/uaiAgent.cs:40-61 | the running best is at least 0 and no behaviour exceeds it; no behaviour when it is 0; otherwise a behaviour that reaches it, strictly above every earlier one |
| Agent.TopPriority | Assets/Scripts/UtilityAI/uaiAgent.cs:40-61 | null exactly when no non-null behaviour scores above 0; otherwise one scoring above 0, at least every behaviour's score and strictly above every earlier one's (first maximum wins); empty slots skipped; the bonus only for the current one |
| Agent.Hysteresis | Assets/Scripts/UtilityAI/uaiAgent.cs:50-53 | a current behaviour whose score plus bonus is above 0 and strictly above every other is chosen again |
| Agent.StubSelectsNothing | Assets/Scripts/UtilityAI/uaiAgent.cs:51 | with the stub Evaluate and nothing current, no behaviour is ever selected |
| Agent.CommitmentKeepsTiedCurrent | Assets/Scripts/UtilityAI/uaiAgent.cs:17-18 | with a bonus in the inspector's range [0.01, 0.15], a current behaviour evaluating non-negative and at least as high as every other is chosen again: the bonus breaks ties for it |
| Agent.Agent.constructor | Assets/Scripts/UtilityAI/uaiAgent.cs:9-18 | nothing current and the default commitment 0.1, which lies in the inspector's range |
| Agent.Agent.GetTopPriorityBehaviour | Assets/Scripts/UtilityAI/uaiAgent.cs:40-61 | the foreach returns TopPriority of the list; it modifies nothing, the list included |
| Agent.Agent.Update | Assets/Scripts/UtilityAI/uaiAgent.cs:27-32 | the top-priority behaviour becomes current when there is one, and otherwise the current one persists |
| Behaviour.Consideration.Evaluate | Assets/Scripts/UtilityAI/uaiBehaviour.cs:38-44 | 0 when disabled, 0 when no property is linked, otherwise the curve at the property's normalised value |
| Behaviour.Consideration.SetPriorityCurve | Assets/Scripts/UtilityAI/uaiBehaviour.cs:29-33 | a null curve changes nothing; otherwise only the curve is replaced |
| Behaviour.DisabledIgnored | Assets/Scripts/UtilityAI/uaiBehaviour.cs:130-134 | removing a disabled consideration from anywhere leaves the sum, the count and the score unchanged |
| Behaviour.NoneEnabledScoresZero | Assets/Scripts/UtilityAI/uaiBehaviour.cs:139 | with no consideration enabled the score is exactly 0 |
| Behaviour.MeanWithinUnit | Assets/Scripts/UtilityAI/uaiBehaviour.cs:119-141 | if every enabled consideration evaluates within [0,1], so does the score |
| Behaviour.MeanOfConstant | Assets/Scripts/UtilityAI/uaiBehaviour.cs:119-141 | if every enabled consideration evaluates to v, and one is enabled, the score is v |
| Behaviour.UnlinkedScoresZero | Assets/Scripts/UtilityAI/uaiBehaviour.cs:41 | with no property linked anywhere the score is 0 |
| Behaviour.Linked | Assets/Scripts/UtilityAI/uaiBehaviour.cs:87-103 | the intended outcome of linking: a consideration whose name is registered gets the first such property; any other gets an empty name |
| Behaviour.LinkedSound | Assets/Scripts/UtilityAI/uaiBehaviour.cs:87-103 | after linking, each consideration keeps its flag and curve and either has an empty name or is linked to a property registered under its name |
| Behaviour.LinkingChangesUnlinked | Assets/Scripts/UtilityAI/uaiBehaviour.cs:89-96 | an unlinked consideration whose name is registered is changed by linking: it becomes linked |
| Behaviour.Behaviour.constructor | Assets/Scripts/UtilityAI/uaiBehaviour.cs:53-54 | no agent yet; the considerations as given |
| Behaviour.Behaviour.Evaluate | Assets/Scripts/UtilityAI/uaiBehaviour.cs:119-142 | the while loop returns the mean of the enabled considerations' evaluations, 0 when none is enabled |
| Behaviour.Behaviour.LinkConsiderations | Assets/Scripts/UtilityAI/uaiBehaviour.cs:82-106 | as written: each edit lands on a local copy, so the list is left exactly as it was |
| Behaviour.Behaviour.LinkConsiderationsIntended | Assets/Scripts/UtilityAI/uaiBehaviour.cs:82-106 | with the edits written back: the list becomes Linked of the old list when there is an agent, and is unchanged otherwise |
| Utils.IsBetween | Assets/Scripts/Misc/UtilityFunctionsJP.cs:13-19 | true exactly when min < val < max, each end included when its flag is set |
| Utils.IsBetweenIffClampFixes | Assets/Scripts/Misc/UtilityFunctionsJP.cs:13-19 | with both ends included, between exactly when Mathf.Clamp leaves the value unchanged |
| Utils.Vector2.InRange | Assets/Scripts/Misc/UtilityFunctionsJP.cs:215-220 | every component within the bounds, both ends governed by includeMinValues; includeMaxValues has no effect |
| Utils.Vector3.InRange | Assets/Scripts/Misc/UtilityFunctionsJP.cs:226-232 | the same for three components |
| Utils.Vector4.InRange | Assets/Scripts/Misc/UtilityFunctionsJP.cs:238-245 | the same for four components |
| Utils.Vector2.GetMinComponents | Assets/Scripts/Misc/UtilityFunctionsJP.cs:250-253 | each component at most both inputs' components and equal to one of them |
| Utils.Vector3.GetMinComponents | Assets/Scripts/Misc/UtilityFunctionsJP.cs:258-261 | the same for three components |
| Utils.Vector4.GetMinComponents | Assets/Scripts/Misc/UtilityFunctionsJP.cs:266-269 | the same for four components |
| Utils.Vector2.GetMaxComponents | Assets/Scripts/Misc/UtilityFunctionsJP.cs:274-277 | each component at least both inputs' components and equal to one of them |
| Utils.Vector3.GetMaxComponents | Assets/Scripts/Misc/UtilityFunctionsJP.cs:282-285 | the same for three components |
| Utils.Vector4.GetMaxComponents | Assets/Scripts/Misc/UtilityFunctionsJP.cs:290-293 | the same for four components |
| Utils.BoxContainsBoth | Assets/Scripts/Misc/UtilityFunctionsJP.cs:258-285 | both vectors are InRange of the box spanned by their componentwise min and max |
| Utils.Filter | Assets/Scripts/Misc/UtilityFunctionsJP.cs:26-55 | the kept elements in order: no longer than the input, every element accepted |
| Utils.FilterMembership | Assets/Scripts/Misc/UtilityFunctionsJP.cs:26-55 | an element is in the result exactly when it is in the input and accepted |
| Utils.FilterAppend | Assets/Scripts/Misc/UtilityFunctionsJP.cs:26-55 | filtering distributes over concatenation, so relative order is kept |
| Utils.FilterAll | Assets/Scripts/Misc/UtilityFunctionsJP.cs:26-55 | an input accepted throughout passes unchanged |
| Utils.ApplyTagMask | Assets/Scripts/Misc/UtilityFunctionsJP.cs:26-55 | returns exactly the elements whose tag is in the mask, in order, from a clone; the input array is not modified |
| Utils.EmptyMaskKeepsNothing | Assets/Scripts/Misc/UtilityFunctionsJP.cs:38-45 | with an empty mask the result is empty |
| Utils.ParentAncestorsAreAncestors | Assets/Scripts/Misc/UtilityFunctionsJP.cs:143 | IsChildOf holds of a transform and itself, and of its parent's ancestors |
| Utils.GetChildrenOf | Assets/Scripts/Misc/UtilityFunctionsJP.cs:133-153 | returns exactly the elements whose transform IsChildOf the parent, in order, from a clone |
| Utils.GetTopLevelParent | Assets/Scripts/Misc/UtilityFunctionsJP.cs:298-307 | returns an ancestor-or-self of t that has no parent |
| SightLine.Swap | Assets/Scripts/Misc/SightLineOptimizer.cs:352-353 | exchanges two adjacent entries, nothing else; the same multiset |
| SightLine.InversionsSwap | Assets/Scripts/Misc/SightLineOptimizer.cs:350-356 | swapping an out-of-order adjacent pair removes exactly one inversion, which is why the rewinding loop ends |
| SightLine.RunAsWritten | Assets/Scripts/Misc/SightLineOptimizer.cs:341-358 | the loop as written from index i ends, and leaves a permutation of its input |
| SightLine.SortAsWritten | Assets/Scripts/Misc/SightLineOptimizer.cs:337-359 | a permutation of the input; an array shorter than 2 is returned untouched without error |
| SightLine.WholeBufferThrows | Assets/Scripts/Misc/SightLineOptimizer.cs:343-347 | with hits equal to the length (at least 2), the run always ends reading past the array |
| SightLine.SortedInputUntouched | Assets/Scripts/Misc/SightLineOptimizer.cs:350 | only strictly greater distances swap, so entries already in ascending order are never moved |
| SightLine.RewindLeavesPrefixUnsorted | Assets/Scripts/Misc/SightLineOptimizer.cs:356 | distances 2, 3, 1, 9 with hits = 3 end as 2, 1, 3, 9: the prefix is not sorted |
| SightLine.StaleEntryPulledIn | Assets/Scripts/Misc/SightLineOptimizer.cs:343-347 | distances 1, 5, 0 with hits = 2 end as 1, 0, 5: an entry beyond the prefix is swapped into it |
| SightLine.HitBuffer.constructor | Assets/Scripts/Misc/SightLineOptimizer.cs:19 | a fresh buffer of 16 hits |
| SightLine.HitBuffer.AllocatedRaycastHits | Assets/Scripts/Misc/SightLineOptimizer.cs:44 | the getter: the buffer's length |
| SightLine.HitBuffer.SetAllocatedRaycastHits | Assets/Scripts/Misc/SightLineOptimizer.cs:45-57 | a fresh buffer of exactly `value` default hits when value differs from the length and exceeds 1; otherwise the same buffer |
| SightLine.SwapKeepsTies | Assets/Scripts/Misc/SightLineOptimizer.cs:350-353 | exchanging an adjacent pair at different distances keeps, for every distance, the entries at that distance in the same order |
| SightLine.RunKeepsTies | Assets/Scripts/Misc/SightLineOptimizer.cs:341-358 | the loop as written is stable: for every distance, the entries at that distance end in the order they started in |
| SightLine.SortKeepsTies | Assets/Scripts/Misc/SightLineOptimizer.cs:337-359 | the whole sort as written is stable in the same sense |
| SightLine.SortNonAllocArrayByDistance | Assets/Scripts/Misc/SightLineOptimizer.cs:337-359 | the array and the exception flag end as SortAsWritten describes, so a permutation that is stable (SortKeepsTies) |
| SightLine.SortByDistanceIntended | Assets/Scripts/Misc/SightLineOptimizer.cs:332-359 | the first `hits` entries end in ascending distance, as a permutation of themselves, with the rest unchanged |
| SightLine.FirstValidHit | Assets/Scripts/Misc/SightLineOptimizer.cs:375-388 | true exactly when one of the first `hits` entries has a tag not ignored, returning the first such; otherwise false and the default hit |

## Left out

- Unity physics and geometry are left out. The raycasts that fill the hit
  buffer, `FindOptimalViewablePoint`, `ClosestPointOnRay`, `SmartAimIteration`,
  `EncapsulatedChildren`, `GetGroupedBounds` and `BoundingBoxRaycaster` are
  foreign engine calls or Bounds arithmetic.
- `SortByDistance` is left out. It only hands the array to `System.Array.Sort`.
- `AnimationCurve` evaluation is left out. A curve is an arbitrary function of
  time; only the default two-key curve is written out.
- `Random.Range` and `Random.value` are inputs to the model, constrained by the
  predicates of `random.dfy`.
- IEEE float behaviour is left out: NaN, infinities, rounding, and the overflow
  of `float.MaxValue − float.MinValue` with the default bounds. Floats are
  reals.
- 32-bit int overflow is left out, for example `_imaxValue − _iminValue` with
  the default bounds `int.MinValue` and `int.MaxValue`. Ints are unbounded.
- The MonoBehaviour lifecycle is left out:
  - `uaiBehaviour.Start`, with `GetComponentInParent`, `DestroyImmediate` and
    the dereference after it;
  - the call to `AddBehaviour`, which `uaiAgent` does not define;
  - `uaiAgent.Start`;
  - the TODO branch of `uaiAgent.Update`.
- `ExecuteAction` and `SetAction` are left out. They invoke or store an opaque
  `UnityEvent`.
- `Debug.Log`, `Debug.LogWarning` and the memory-warning flag of the sight-line
  optimizer are left out.
- The `name` getter of `uaiProperty` is left out; its field is never assigned.
  The `isBool`, `isInt` and `isFloat` getters are left out too; each is a bare
  comparison of the type tag.
- `SightLine.SortNonAllocArrayByDistance` compares squared distances rather
  than `Vector3.Distance`. The two orders agree because the square root is
  increasing.
- `FloatProp.FloatProp.NormalizedValue` and `IntProp.IntProp.NormalizedValue`
  promise [0,1] only while the value lies within the bounds. The base class's
  comment promises it always. The inspector can store any value, and the code
  does not clamp.
- `UaiProperty.Property.FGetNormalizedValue` requires distinct float bounds.
  With equal bounds the source's float division yields NaN or an infinity,
  which reals do not have.
- `UaiProperty.Property.IGetNormalizedValue` requires distinct int bounds. With
  equal bounds the source's `int / int` throws DivideByZeroException; the
  exception is not modelled.
- `UaiProperty.Property.NormalizedValue` and `UaiProperty.NormalizedSpec`
  require distinct bounds of the property's own kind, for the two reasons
  above.
- `FloatProp.FloatProp.NormalizedValue` and `IntProp.IntProp.NormalizedValue`
  also require distinct bounds, for the float reason above.
- `BaseBehaviour.Consideration.SetPriorityCurve` and
  `Behaviour.Consideration.SetPriorityCurve` treat the curve as a value. The
  source assigns `_priority.keys`, which changes the one AnimationCurve object
  that every copy of the struct shares. So in the source a call on a copy also
  changes the curve of the list's element. The model does not capture that
  aliasing: it returns a new consideration and leaves every other copy alone.
- `Behaviour.Consideration.Evaluate` reads the linked property's normalised
  value through a pure function `normalized`. The source's `normalizedValue`
  getter also puts that property's bounds in order as a side effect. That
  effect is idempotent, and it does not change the value returned
  (`UaiProperty.Property.NormalizedValue`, `FloatProp.FloatProp.VerifyMinMaxOrder`).
  The model leaves it out of the evaluation.

## Findings

| source | as written | input that shows it | evidently intended | confidence | as-written member | corrected member |
|---|---|---|---|---|---|---|
| Assets/Scripts/UtilityAI/uaiProperty.cs:168-169 | `(value - _iminValue) / difference` divides two ints, so every value strictly between the bounds normalises to 0 | value 5, bounds [0, 10]: 0 rather than 0.5 | the real quotient, as `uaiIntProp.normalizedValue` computes it | high (not executed) | UaiProperty.IntNormalizedLosesFraction | UaiProperty.IntNormalizedIntended |
| Assets/Scripts/Misc/SightLineOptimizer.cs:356 | after a swap at i = 1 the index is rewound to 0 and then incremented, so entries 0 and 1 are not compared again | distances 2, 3, 1, 9 with hits = 3 end as 2, 1, 3, 9 | step back one place after every swap, so the first `hits` entries end sorted | high (not executed) | SightLine.RewindLeavesPrefixUnsorted | SightLine.SortByDistanceIntended |
| Assets/Scripts/Misc/SightLineOptimizer.cs:341-347 | the loop runs i up to hits − 1 and reads entry i + 1, and the guard tests i == Length instead of i + 1 == Length; so the entry just past the prefix is compared and can be swapped in, and hits == Length reads past the array | distances 1, 5, 0 with hits = 2 end as 1, 0, 5; any hits == Length ≥ 2 throws | compare only pairs inside the prefix (i + 1 < hits) | high (not executed) | SightLine.StaleEntryPulledIn | SightLine.SortByDistanceIntended |
| Assets/Scripts/UtilityAI/uaiBehaviour.cs:89 | each consideration is copied into a local struct, and the link or the cleared name is written to that copy only | a consideration named after a registered property stays unlinked | write the edited consideration back into the list | high (not executed) | Behaviour.Behaviour.LinkConsiderations | Behaviour.Behaviour.LinkConsiderationsIntended |
