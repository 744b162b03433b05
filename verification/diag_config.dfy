/** The adaptive LR diagnostic's configuration: the fixed 30-question type
    sequence, the skills each question type draws on, the per-type counts
    and the three difficulty tiers. */
module DiagConfig {
  import opened Taxonomy
  import Tallies

  /** `DEFAULT_ELO`. */
  const DefaultElo: real := 1500.0

  /** LR question types by their names in the question bank; `OtherType`
      stands for any name outside this list (the bank's type names are free
      text). */
  datatype QType =
    | MainPoint              // 'Main Point'
    | RoleOfStatement        // 'Role of a Statement'
    | MustBeTrue             // 'Must Be True'
    | MostStronglySupported  // 'Most Strongly Supported'
    | Strengthen             // 'Strengthen'
    | Weaken                 // 'Weaken'
    | SufficientAssumption   // 'Sufficient Assumption'
    | NecessaryAssumption    // 'Necessary Assumption'
    | FlawInReasoning        // 'Flaw in Reasoning'
    | ResolveParadox         // 'Resolve the Paradox'
    | MethodOfReasoning      // 'Method of Reasoning'
    | PrincipleApplication   // 'Principle (Application)'
    | ParallelReasoning      // 'Parallel Reasoning'
    | ParallelFlaw           // 'Parallel Flaw'
    | OtherType(name: string)

  /** The bank's name of a question type. */
  function TypeName(t: QType): string {
    match t
    case MainPoint => "Main Point"
    case RoleOfStatement => "Role of a Statement"
    case MustBeTrue => "Must Be True"
    case MostStronglySupported => "Most Strongly Supported"
    case Strengthen => "Strengthen"
    case Weaken => "Weaken"
    case SufficientAssumption => "Sufficient Assumption"
    case NecessaryAssumption => "Necessary Assumption"
    case FlawInReasoning => "Flaw in Reasoning"
    case ResolveParadox => "Resolve the Paradox"
    case MethodOfReasoning => "Method of Reasoning"
    case PrincipleApplication => "Principle (Application)"
    case ParallelReasoning => "Parallel Reasoning"
    case ParallelFlaw => "Parallel Flaw"
    case OtherType(name) => name
  }

  /** Reads a bank type name: a listed name is its own constructor, any
      other name is `OtherType`. */
  function QTypeOfName(name: string): (t: QType)
    ensures TypeName(t) == name
  {
    if name == "Main Point" then MainPoint
    else if name == "Role of a Statement" then RoleOfStatement
    else if name == "Must Be True" then MustBeTrue
    else if name == "Most Strongly Supported" then MostStronglySupported
    else if name == "Strengthen" then Strengthen
    else if name == "Weaken" then Weaken
    else if name == "Sufficient Assumption" then SufficientAssumption
    else if name == "Necessary Assumption" then NecessaryAssumption
    else if name == "Flaw in Reasoning" then FlawInReasoning
    else if name == "Resolve the Paradox" then ResolveParadox
    else if name == "Method of Reasoning" then MethodOfReasoning
    else if name == "Principle (Application)" then PrincipleApplication
    else if name == "Parallel Reasoning" then ParallelReasoning
    else if name == "Parallel Flaw" then ParallelFlaw
    else OtherType(name)
  }

  /** A type value the bank can produce: `OtherType` never spells a listed
      name, so each name has exactly one type. */
  predicate Canonical(t: QType) {
    t.OtherType? ==> QTypeOfName(t.name).OtherType?
  }

  /** Reading a name always gives a canonical type. */
  lemma QTypeOfNameCanonical(name: string)
    ensures Canonical(QTypeOfName(name))
  {
  }

  /** A canonical type survives the trip through its name, so the bank's
      string comparisons and the model's constructor comparisons agree. */
  lemma NameRoundTrip(t: QType)
    requires Canonical(t)
    ensures QTypeOfName(TypeName(t)) == t
  {
  }

  /** Two canonical types are equal exactly when their names are. */
  lemma NamesDistinguishTypes(t1: QType, t2: QType)
    requires Canonical(t1) && Canonical(t2)
    ensures t1 == t2 <==> TypeName(t1) == TypeName(t2)
  {
    NameRoundTrip(t1);
    NameRoundTrip(t2);
  }

  /** `DIAGNOSTIC_SEQUENCE`: nine easier, seventeen medium and four harder
      questions. */
  const DiagnosticSequence: seq<QType> := [
    RoleOfStatement, MustBeTrue, RoleOfStatement, MainPoint, MustBeTrue,
    RoleOfStatement, MainPoint, MustBeTrue, RoleOfStatement,
    Weaken, SufficientAssumption, FlawInReasoning, NecessaryAssumption, MostStronglySupported,
    Weaken, SufficientAssumption, FlawInReasoning, NecessaryAssumption, Strengthen,
    Weaken, SufficientAssumption, FlawInReasoning, NecessaryAssumption, MostStronglySupported,
    Strengthen, ResolveParadox,
    ParallelReasoning, MethodOfReasoning, ParallelReasoning, PrincipleApplication]

  /** The keys of `QUESTION_TYPE_SKILLS`, in their order. */
  const MappedTypes: seq<QType> := [
    MainPoint, RoleOfStatement, MustBeTrue, MostStronglySupported, Strengthen, Weaken,
    SufficientAssumption, NecessaryAssumption, FlawInReasoning, ResolveParadox,
    MethodOfReasoning, PrincipleApplication, ParallelReasoning]

  /** `QUESTION_TYPE_SKILLS.get(t, [])`. */
  function SkillsOf(t: QType): seq<Skill> {
    match t
    case MainPoint => [Skill(Structural, 1)]
    case RoleOfStatement => [Skill(Structural, 2), Skill(Structural, 4)]
    case MustBeTrue => [Skill(FormalLogic, 3), Skill(FormalLogic, 5), Skill(FormalLogic, 6)]
    case MostStronglySupported => [Skill(Rhetorical, 7), Skill(FormalLogic, 6)]
    case Strengthen => [Skill(Rhetorical, 3), Skill(Rhetorical, 7)]
    case Weaken => [Skill(Rhetorical, 4), Skill(Rhetorical, 2)]
    case SufficientAssumption => [Skill(Rhetorical, 3), Skill(FormalLogic, 3)]
    case NecessaryAssumption => [Skill(Rhetorical, 4)]
    case FlawInReasoning => [Skill(Rhetorical, 1), Skill(FormalLogic, 7)]
    case ResolveParadox => [Skill(Rhetorical, 2), Skill(Rhetorical, 7)]
    case MethodOfReasoning => [Skill(Structural, 1), Skill(Abstraction, 1)]
    case PrincipleApplication => [Skill(FormalLogic, 1), Skill(Abstraction, 3)]
    case ParallelReasoning =>
      [Skill(Abstraction, 1), Skill(FormalLogic, 1), Skill(FormalLogic, 2), Skill(FormalLogic, 3)]
    case ParallelFlaw => []
    case OtherType(_) => []
  }

  /** `QUESTION_TYPE_COUNTS.get(t, 0)`. */
  function TypeCount(t: QType): nat {
    match t
    case RoleOfStatement => 4
    case MustBeTrue => 3
    case MainPoint => 2
    case Weaken => 3
    case SufficientAssumption => 3
    case FlawInReasoning => 3
    case NecessaryAssumption => 3
    case MostStronglySupported => 2
    case Strengthen => 2
    case ResolveParadox => 1
    case ParallelReasoning => 2
    case MethodOfReasoning => 1
    case PrincipleApplication => 1
    case ParallelFlaw => 0
    case OtherType(_) => 0
  }

  /** Tier boundaries: positions before 9 are easier, before 26 medium, and
      the sequence ends at 30. */
  const TierEasierEnd: int := 9
  const TierMediumEnd: int := 26
  const TierHarderEnd: int := 30

  datatype Tier = Easier | Medium | Harder

  /** `get_tier_for_position` (0-indexed). */
  function TierFor(position: int): (t: Tier)
    ensures t == Easier <==> position < TierEasierEnd
    ensures t == Harder <==> position >= TierMediumEnd
  {
    if position < TierEasierEnd then Easier
    else if position < TierMediumEnd then Medium
    else Harder
  }

  function TierRank(t: Tier): nat {
    match t
    case Easier => 0
    case Medium => 1
    case Harder => 2
  }

  /** Tiers never get easier further along the sequence. */
  lemma TierMonotone(p: int, q: int)
    requires p <= q
    ensures TierRank(TierFor(p)) <= TierRank(TierFor(q))
  {
  }

  /** How many of the positions 0..n-1 fall in tier t. */
  function TierSize(n: nat, t: Tier): nat {
    if n == 0 then 0 else TierSize(n - 1, t) + (if TierFor(n - 1) == t then 1 else 0)
  }

  /** The tier sizes in closed form. */
  lemma {:induction false} TierSizeClosed(n: nat)
    ensures TierSize(n, Easier) == if n < 9 then n else 9
    ensures TierSize(n, Medium) == if n < 9 then 0 else if n < 26 then n - 9 else 17
    ensures TierSize(n, Harder) == if n < 26 then 0 else n - 26
  {
    if n > 0 {
      TierSizeClosed(n - 1);
    }
  }

  /** The sequence has as many entries as the tiers cover, and its 30
      positions split 9 / 17 / 4 across the tiers. */
  lemma SequenceFillsTiers()
    ensures |DiagnosticSequence| == TierHarderEnd
    ensures TierSize(30, Easier) == 9 && TierSize(30, Medium) == 17 && TierSize(30, Harder) == 4
  {
    TierSizeClosed(30);
  }

  /** The positions at which each type is asked. */
  function Positions(t: QType): seq<nat> {
    match t
    case RoleOfStatement => [0, 2, 5, 8]
    case MustBeTrue => [1, 4, 7]
    case MainPoint => [3, 6]
    case Weaken => [9, 14, 19]
    case SufficientAssumption => [10, 15, 20]
    case FlawInReasoning => [11, 16, 21]
    case NecessaryAssumption => [12, 17, 22]
    case MostStronglySupported => [13, 23]
    case Strengthen => [18, 24]
    case ResolveParadox => [25]
    case ParallelReasoning => [26, 28]
    case MethodOfReasoning => [27]
    case PrincipleApplication => [29]
    case ParallelFlaw => []
    case OtherType(_) => []
  }

  /** Every position of the sequence is listed under its own type. */
  lemma EveryPositionListed()
    ensures forall k :: 0 <= k < |DiagnosticSequence| ==> k in Positions(DiagnosticSequence[k])
  {
  }

  /** Every listed position holds the type it is listed under. */
  lemma ListedPositionsHoldType(t: QType)
    ensures forall j :: 0 <= j < |Positions(t)| ==>
      Positions(t)[j] < |DiagnosticSequence| && DiagnosticSequence[Positions(t)[j]] == t
  {
  }

  /** The positions of a type are listed in increasing order. */
  lemma PositionsIncrease(t: QType)
    ensures forall j :: 0 < j < |Positions(t)| ==> Positions(t)[j - 1] < Positions(t)[j]
  {
  }

  /** Each type occurs in the sequence exactly `QUESTION_TYPE_COUNTS` times. */
  lemma SequenceMatchesCounts(t: QType)
    ensures Tallies.Occurrences(DiagnosticSequence, t) == TypeCount(t)
  {
    EveryPositionListed();
    ListedPositionsHoldType(t);
    PositionsIncrease(t);
    Tallies.OccurrencesAtPositions(DiagnosticSequence, t, Positions(t));
  }

  /** The counts of the types at positions i.. of a list. */
  function SumCountsFrom(types: seq<QType>, i: nat): nat
    decreases |types| - i
  {
    if i >= |types| then 0 else TypeCount(types[i]) + SumCountsFrom(types, i + 1)
  }

  /** The counts of the mapped types add up to the length of the sequence. */
  lemma CountsAddUp()
    ensures SumCountsFrom(MappedTypes, 0) == |DiagnosticSequence|
  {
  }

  /** Every type in the sequence has a non-empty list of known skills. */
  lemma SequencedTypesHaveSkills()
    ensures forall i :: 0 <= i < |DiagnosticSequence| ==>
      DiagnosticSequence[i] in MappedTypes && |SkillsOf(DiagnosticSequence[i])| > 0
    ensures forall t, k :: 0 <= k < |SkillsOf(t)| ==> Known(SkillsOf(t)[k])
    ensures forall t :: |SkillsOf(t)| > 0 <==> t in MappedTypes
  {
  }
}
