/** The bandit's context vector: a fixed 100-slot layout built from a module,
    the learner's mastery vector, the current phase and the week number. */
module Features {
  import opened Wrappers
  import opened Numerics
  import opened SkillCodec
  import opened Modules

  const Dimension: nat := 100
  /** Target skills that get a mastery-gap slot. */
  const GapSlots: nat := 5
  /** Target skills whose pairwise products are recorded. */
  const InteractingTargets: nat := 3
  const InteractionSlots: nat := 5

  datatype FeatureError =
    | BadSkillId(cause: CodecError)
    | MasteryIndexOutOfRange(index: int, length: nat)

  /** numpy's `v[i]`: negative indices count from the end, anything else
      outside the vector raises. */
  function PyIndex(xs: seq<real>, i: int): (r: Result<real, FeatureError>)
    ensures r.Ok? <==> -|xs| <= i < |xs|
    ensures 0 <= i < |xs| ==> r == Ok(xs[i])
    ensures -|xs| <= i < 0 ==> r == Ok(xs[|xs| + i])
  {
    if 0 <= i < |xs| then Ok(xs[i])
    else if -|xs| <= i < 0 then Ok(xs[|xs| + i])
    else Err(MasteryIndexOutOfRange(i, |xs|))
  }

  /** `mastery_vector[skill_id_to_index(skill_id)]`. */
  function SkillMastery(mastery: seq<real>, skillId: string): Result<real, FeatureError> {
    match SkillIdToIndex(skillId)
    case Err(e) => Err(BadSkillId(e))
    case Ok(i) => PyIndex(mastery, i)
  }

  /** A canonical skill id reads its own entry of a 35-entry mastery vector. */
  lemma SkillMasteryOfCanonical(mastery: seq<real>, index: int)
    requires |mastery| == 35 && 0 <= index <= 34
    ensures SkillMastery(mastery, IndexToSkillId(index).value) == Ok(mastery[index])
  {
    IndexRoundTrip(index);
  }

  /** The mastery of each listed skill, in order; the first failing lookup is the error. */
  function TargetMasteries(mastery: seq<real>, targets: seq<string>): (r: Result<seq<real>, FeatureError>)
    ensures r.Ok? <==> forall i :: 0 <= i < |targets| ==> SkillMastery(mastery, targets[i]).Ok?
    ensures r.Ok? ==> |r.value| == |targets|
    ensures r.Ok? ==> forall i :: 0 <= i < |targets| ==> SkillMastery(mastery, targets[i]) == Ok(r.value[i])
  {
    MapResult(targets, s => SkillMastery(mastery, s))
  }

  /** The gap slots: `1 - mastery` for each of the first five targets, then zeros. */
  function Gaps(ms: seq<real>): (g: seq<real>)
    requires |ms| <= GapSlots
    ensures |g| == GapSlots
    ensures forall i :: 0 <= i < GapSlots ==> g[i] == if i < |ms| then 1.0 - ms[i] else 0.0
  {
    seq(GapSlots, i requires 0 <= i < GapSlots => if i < |ms| then 1.0 - ms[i] else 0.0)
  }

  /** `difficulty_map.get(level, 0)`: foundation 0, intermediate 1, advanced 2. */
  function DifficultyIndex(level: string): (k: nat)
    ensures k < 3
    ensures k == 1 <==> level == "intermediate"
    ensures k == 2 <==> level == "advanced"
  {
    if level == "intermediate" then 1
    else if level == "advanced" then 2
    else 0
  }

  function OneHot(k: nat): (h: seq<real>)
    requires k < 3
    ensures |h| == 3 && forall i :: 0 <= i < 3 ==> h[i] == if i == k then 1.0 else 0.0
  {
    seq(3, i => if i == k then 1.0 else 0.0)
  }

  /** The number of pairs i < j among n items: 0, 0, 1, 3, 6, ... */
  function PairCount(n: nat): nat {
    if n == 0 then 0 else n - 1 + PairCount(n - 1)
  }

  lemma {:induction false} PairCountClosedForm(n: nat)
    ensures 2 * PairCount(n) == n * (n - 1)
  {
    if n > 0 {
      PairCountClosedForm(n - 1);
      assert n * (n - 1) == (n - 1) * (n - 2) + 2 * (n - 1);
    }
  }

  /** `ms[i] * ms[j]` for every i < j, ordered by i and then by j. */
  function PairProducts(ms: seq<real>): (p: seq<real>)
    ensures |p| == PairCount(|ms|)
  {
    if |ms| == 0 then []
    else seq(|ms| - 1, j requires 0 <= j < |ms| - 1 => ms[0] * ms[j + 1]) + PairProducts(ms[1..])
  }

  /** The interaction slots: products of the first three targets, zero-padded to five. */
  function Interactions(ms: seq<real>): (p: seq<real>)
    ensures |p| == InteractionSlots
  {
    var k := if |ms| < InteractingTargets then |ms| else InteractingTargets;
    var products := PairProducts(ms[..k]);
    products + Zeros(InteractionSlots - |products|)
  }

  /** Zero-pad to at least `n` entries. */
  function PadTo(xs: seq<real>, n: nat): (r: seq<real>)
    ensures |r| == if |xs| < n then n else |xs|
    ensures r[..|xs|] == xs && forall i :: |xs| <= i < |r| ==> r[i] == 0.0
  {
    if |xs| < n then xs + Zeros(n - |xs|) else xs
  }

  /** The fifteen slots that follow the mastery vector. */
  function ContextSlots(m: Module, ms: seq<real>, phase: string, week: int): (c: seq<real>)
    requires |ms| <= GapSlots
    ensures |c| == 15
  {
    Gaps(ms) + OneHot(DifficultyIndex(m.difficultyLevel))
      + [if phase in m.phaseSuitability then 1.0 else 0.0] + [week as real / 10.0]
      + Interactions(ms)
  }

  /** `construct_features`: the mastery vector, the context slots, zero padding,
      cut to exactly 100 entries. Only the first five targets are read. */
  function ConstructFeatures(m: Module, mastery: seq<real>, phase: string, week: int): (r: Result<seq<real>, FeatureError>)
    ensures r.Ok? <==> forall i :: 0 <= i < |m.targetSkills| && i < GapSlots ==> SkillMastery(mastery, m.targetSkills[i]).Ok?
    ensures r.Ok? ==> |r.value| == Dimension
  {
    var k := if |m.targetSkills| < GapSlots then |m.targetSkills| else GapSlots;
    var firstTargets := m.targetSkills[..k];
    assert forall i :: 0 <= i < k ==> firstTargets[i] == m.targetSkills[i];
    match TargetMasteries(mastery, firstTargets)
    case Err(e) => Err(e)
    case Ok(ms) => Ok(PadTo(mastery + ContextSlots(m, ms, phase, week), Dimension)[..Dimension])
  }

  /** The masteries of a module's first five targets, when they all resolve. */
  function ReadTargets(m: Module, mastery: seq<real>): (ms: seq<real>)
    requires forall i :: 0 <= i < |m.targetSkills| && i < GapSlots ==> SkillMastery(mastery, m.targetSkills[i]).Ok?
    ensures |ms| <= GapSlots && |ms| <= |m.targetSkills| && (|ms| == GapSlots || |ms| == |m.targetSkills|)
    ensures forall i :: 0 <= i < |ms| ==> ms[i] == SkillMastery(mastery, m.targetSkills[i]).value
  {
    var k := if |m.targetSkills| < GapSlots then |m.targetSkills| else GapSlots;
    TargetMasteries(mastery, m.targetSkills[..k]).value
  }

  /** Whatever the mastery vector's length, the features start with it (as far
      as 100 slots allow) and everything past the 15 context slots is zero. */
  lemma FeaturesStartWithMastery(m: Module, mastery: seq<real>, phase: string, week: int)
    requires ConstructFeatures(m, mastery, phase, week).Ok?
    ensures var f := ConstructFeatures(m, mastery, phase, week).value;
      var n := if |mastery| < Dimension then |mastery| else Dimension;
      f[..n] == mastery[..n] && forall i :: |mastery| + 15 <= i < Dimension ==> f[i] == 0.0
  {
    var k := if |m.targetSkills| < GapSlots then |m.targetSkills| else GapSlots;
    var ms := TargetMasteries(mastery, m.targetSkills[..k]).value;
    var prefix := mastery + ContextSlots(m, ms, phase, week);
    var padded := PadTo(prefix, Dimension);
    assert padded[..|prefix|] == prefix;
    var n := if |mastery| < Dimension then |mastery| else Dimension;
    assert forall i :: 0 <= i < n ==> padded[i] == prefix[i] == mastery[i];
  }

  /** The documented layout for a 35-entry mastery vector. */
  lemma FeatureLayout(m: Module, mastery: seq<real>, phase: string, week: int)
    requires |mastery| == 35
    requires ConstructFeatures(m, mastery, phase, week).Ok?
    ensures var f := ConstructFeatures(m, mastery, phase, week).value;
      var ms := ReadTargets(m, mastery);
      && f[..35] == mastery
      && f[35..40] == Gaps(ms)
      && f[40..43] == OneHot(DifficultyIndex(m.difficultyLevel))
      && f[43] == (if phase in m.phaseSuitability then 1.0 else 0.0)
      && f[44] == week as real / 10.0
      && f[45..50] == Interactions(ms)
      && (forall i :: 50 <= i < Dimension ==> f[i] == 0.0)
  {
    var ms := ReadTargets(m, mastery);
    var c := ContextSlots(m, ms, phase, week);
    ContextSlotsLayout(m, ms, phase, week);
    var prefix := mastery + c;
    assert |prefix| == 50;
    var f := ConstructFeatures(m, mastery, phase, week).value;
    assert f == PadTo(prefix, Dimension)[..Dimension];
    assert f[..50] == prefix;
    assert forall i :: 0 <= i < 15 ==> f[35 + i] == c[i];
    assert f[..35] == mastery;
    assert f[35..40] == c[..5];
    assert f[40..43] == c[5..8];
    assert f[45..50] == c[10..15];
  }

  /** Where each part of the context lands among the fifteen slots. */
  lemma ContextSlotsLayout(m: Module, ms: seq<real>, phase: string, week: int)
    requires |ms| <= GapSlots
    ensures var c := ContextSlots(m, ms, phase, week);
      && c[..5] == Gaps(ms)
      && c[5..8] == OneHot(DifficultyIndex(m.difficultyLevel))
      && c[8] == (if phase in m.phaseSuitability then 1.0 else 0.0)
      && c[9] == week as real / 10.0
      && c[10..15] == Interactions(ms)
  {
    var g, h := Gaps(ms), OneHot(DifficultyIndex(m.difficultyLevel));
    var c := ContextSlots(m, ms, phase, week);
    assert c == g + h + [if phase in m.phaseSuitability then 1.0 else 0.0] + [week as real / 10.0] + Interactions(ms);
  }

  lemma PairProductsOfTwo(a: real, b: real)
    ensures PairProducts([a, b]) == [a * b]
  {
    var t := [a, b];
    assert t[1..] == [b];
    assert PairProducts([b]) == [] by { assert [b][1..] == []; }
    var first := seq(|t| - 1, j requires 0 <= j < |t| - 1 => t[0] * t[j + 1]);
    assert |first| == 1 && first[0] == t[0] * t[1];
    assert t[0] == a && t[1] == b;
    assert first[0] == a * b;
    assert first == [a * b];
  }

  lemma PairProductsOfThree(a: real, b: real, c: real)
    ensures PairProducts([a, b, c]) == [a * b, a * c, b * c]
  {
    var t := [a, b, c];
    assert t[1..] == [b, c];
    PairProductsOfTwo(b, c);
    var first := seq(|t| - 1, j requires 0 <= j < |t| - 1 => t[0] * t[j + 1]);
    assert |first| == 2 && first[0] == t[0] * t[1] && first[1] == t[0] * t[2];
    assert t[0] == a && t[1] == b && t[2] == c;
    assert first[0] == a * b && first[1] == a * c;
    assert first == [a * b, a * c];
  }

  /** With three or more targets the interaction slots hold the products
      (0,1), (0,2), (1,2), then two zeros. */
  lemma InteractionsOfThree(ms: seq<real>)
    requires |ms| >= 3
    ensures var p := Interactions(ms);
      p[0] == ms[0] * ms[1] && p[1] == ms[0] * ms[2] && p[2] == ms[1] * ms[2] && p[3] == 0.0 && p[4] == 0.0
  {
    var a, b, c := ms[0], ms[1], ms[2];
    assert ms[..3] == [a, b, c];
    PairProductsOfThree(a, b, c);
    assert Interactions(ms) == [a * b, a * c, b * c] + Zeros(2);
  }

  /** With two targets only the product (0,1) is recorded. */
  lemma InteractionsOfTwo(ms: seq<real>)
    requires |ms| == 2
    ensures var p := Interactions(ms);
      p[0] == ms[0] * ms[1] && p[1] == 0.0 && p[2] == 0.0 && p[3] == 0.0 && p[4] == 0.0
  {
    var a, b := ms[0], ms[1];
    assert ms[..2] == [a, b];
    PairProductsOfTwo(a, b);
    assert Interactions(ms) == [a * b] + Zeros(4);
  }

  /** With fewer than two targets every interaction slot is zero. */
  lemma InteractionsOfFewer(ms: seq<real>)
    requires |ms| < 2
    ensures Interactions(ms) == Zeros(InteractionSlots)
  {
    assert PairProducts(ms[..|ms|]) == [];
  }
}
