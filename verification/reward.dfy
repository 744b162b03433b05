/** The bandit's reward for a finished module: the weighted mean mastery
    gain over its skills, clipped, and halved when the learner engaged
    with less than half of the module's tasks. */
module Reward {
  import opened Wrappers
  import opened Numerics
  import opened Modules
  import opened Features

  const TargetWeight: real := 1.0
  const SecondaryWeight: real := 0.5
  const RewardLow: real := -0.2
  const RewardHigh: real := 0.5
  /** Completion below this halves the reward. */
  const EngagementThreshold: real := 0.5

  /** `mastery_after[idx] - mastery_before[idx]` for one skill; the lookup in
      the later snapshot comes first. */
  function SkillGain(before: seq<real>, after: seq<real>, skill: string): (r: Result<real, FeatureError>)
    ensures r.Ok? <==> SkillMastery(after, skill).Ok? && SkillMastery(before, skill).Ok?
    ensures r.Ok? ==> r.value == SkillMastery(after, skill).value - SkillMastery(before, skill).value
    ensures SkillMastery(after, skill).Err? ==> r == Err(SkillMastery(after, skill).error)
  {
    var a :- SkillMastery(after, skill);
    var b :- SkillMastery(before, skill);
    Ok(a - b)
  }

  /** The gain of each listed skill, in order; the first failing lookup is the error. */
  function Improvements(skills: seq<string>, before: seq<real>, after: seq<real>): (r: Result<seq<real>, FeatureError>)
    ensures r.Ok? <==> forall i :: 0 <= i < |skills| ==> SkillGain(before, after, skills[i]).Ok?
    ensures r.Ok? ==> |r.value| == |skills|
    ensures r.Ok? ==> forall i :: 0 <= i < |skills| ==>
      r.value[i] == SkillMastery(after, skills[i]).value - SkillMastery(before, skills[i]).value
  {
    MapResult(skills, s => SkillGain(before, after, s))
  }

  /** Total weight: 1 per target skill and 0.5 per secondary skill. */
  function WeightSum(targetCount: nat, secondaryCount: nat): (w: real)
    ensures w >= 0.0 && (w > 0.0 <==> targetCount + secondaryCount > 0)
  {
    targetCount as real * TargetWeight + secondaryCount as real * SecondaryWeight
  }

  /** The weighted mean improvement, 0 when the module names no skills. */
  function WeightedMean(targetDeltas: seq<real>, secondaryDeltas: seq<real>): real {
    var w := WeightSum(|targetDeltas|, |secondaryDeltas|);
    if w > 0.0 then (Sum(targetDeltas) * TargetWeight + Sum(secondaryDeltas) * SecondaryWeight) / w
    else 0.0
  }

  predicate AllWithin(xs: seq<real>, lo: real, hi: real) {
    forall i :: 0 <= i < |xs| ==> lo <= xs[i] <= hi
  }

  /** The arithmetic behind a weighted mean's bounds, on the two sums alone. */
  lemma WeightedSumsWithin(s1: real, s2: real, n: real, m: real, lo: real, hi: real)
    requires n >= 0.0 && m >= 0.0 && n + m > 0.0
    requires n * lo <= s1 <= n * hi && m * lo <= s2 <= m * hi
    ensures var w := n * TargetWeight + m * SecondaryWeight;
      lo <= (s1 * TargetWeight + s2 * SecondaryWeight) / w <= hi
  {
    var w := n * TargetWeight + m * SecondaryWeight;
    var total := s1 * TargetWeight + s2 * SecondaryWeight;
    MulMonotone(0.5, m * lo, s2);
    MulMonotone(0.5, s2, m * hi);
    assert w * lo <= total by {
      assert w * lo == n * lo + 0.5 * (m * lo);
    }
    assert total <= w * hi by {
      assert w * hi == n * hi + 0.5 * (m * hi);
    }
    DivMonotone(w * lo, total, w);
    DivMonotone(total, w * hi, w);
  }

  /** A weighted mean lies between the least and the largest improvement. */
  lemma WeightedMeanWithin(td: seq<real>, sd: seq<real>, lo: real, hi: real)
    requires |td| + |sd| > 0
    requires AllWithin(td, lo, hi) && AllWithin(sd, lo, hi)
    ensures lo <= WeightedMean(td, sd) <= hi
  {
    var s1, s2 := Sum(td), Sum(sd);
    var n, m := |td| as real, |sd| as real;
    SumBounds(td, lo, hi);
    SumBounds(sd, lo, hi);
    WeightedSumsWithin(s1, s2, n, m, lo, hi);
    assert WeightedMean(td, sd) == (s1 * TargetWeight + s2 * SecondaryWeight) / (n * TargetWeight + m * SecondaryWeight);
  }

  /** The reward clipped and, for low engagement, halved. */
  function ShapeReward(avg: real, completionRate: real): (r: real)
    ensures RewardLow <= r <= RewardHigh
    ensures completionRate < EngagementThreshold ==> RewardLow / 2.0 <= r <= RewardHigh / 2.0
    ensures completionRate >= EngagementThreshold && RewardLow <= avg <= RewardHigh ==> r == avg
  {
    var clipped := Clamp(avg, RewardLow, RewardHigh);
    if completionRate < EngagementThreshold then clipped * 0.5 else clipped
  }

  /** `compute_module_reward` once the library lookup, both mastery
      snapshots and the completion rate are in hand. A module missing from
      the library earns 0; a bad skill id or index is an error. */
  function ComputeModuleReward(library: seq<Module>, moduleId: string, before: seq<real>, after: seq<real>,
                               completionRate: real): (r: Result<real, FeatureError>)
    ensures GetModuleById(library, moduleId).None? ==> r == Ok(0.0)
    ensures r.Ok? ==> RewardLow <= r.value <= RewardHigh
    ensures r.Ok? && completionRate < EngagementThreshold ==> RewardLow / 2.0 <= r.value <= RewardHigh / 2.0
  {
    match GetModuleById(library, moduleId)
    case None => Ok(0.0)
    case Some(m) =>
      var td :- Improvements(m.targetSkills, before, after);
      var sd :- Improvements(m.secondarySkills, before, after);
      Ok(ShapeReward(WeightedMean(td, sd), completionRate))
  }

  /** A module with no skills at all earns 0, whatever the snapshots. */
  lemma NoSkillsNoReward(library: seq<Module>, moduleId: string, before: seq<real>, after: seq<real>, completionRate: real)
    requires GetModuleById(library, moduleId).Some?
    requires |GetModuleById(library, moduleId).value.targetSkills| == 0
    requires |GetModuleById(library, moduleId).value.secondarySkills| == 0
    ensures ComputeModuleReward(library, moduleId, before, after, completionRate) == Ok(0.0)
  {
  }

  /** When every skill of the module improved by the same amount d inside the
      clip range and engagement was adequate, the reward is exactly d. */
  lemma UniformGainIsReward(library: seq<Module>, moduleId: string, before: seq<real>, after: seq<real>,
                            completionRate: real, d: real)
    requires GetModuleById(library, moduleId).Some?
    requires var m := GetModuleById(library, moduleId).value;
      |m.targetSkills| + |m.secondarySkills| > 0 &&
      Improvements(m.targetSkills, before, after).Ok? && Improvements(m.secondarySkills, before, after).Ok? &&
      AllWithin(Improvements(m.targetSkills, before, after).value, d, d) &&
      AllWithin(Improvements(m.secondarySkills, before, after).value, d, d)
    requires RewardLow <= d <= RewardHigh && completionRate >= EngagementThreshold
    ensures ComputeModuleReward(library, moduleId, before, after, completionRate) == Ok(d)
  {
    var m := GetModuleById(library, moduleId).value;
    WeightedMeanWithin(Improvements(m.targetSkills, before, after).value,
                       Improvements(m.secondarySkills, before, after).value, d, d);
  }

  /** Low engagement halves whatever the full reward would have been. */
  lemma LowEngagementHalves(avg: real, low: real, high: real)
    requires low < EngagementThreshold <= high
    ensures ShapeReward(avg, low) == ShapeReward(avg, high) / 2.0
  {
  }
}
