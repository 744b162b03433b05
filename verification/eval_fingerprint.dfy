/** The cognitive fingerprint: the defined patterns among the matches, the
    reasoning tendencies the wrong answers' traps reveal, and the summary
    line that ties them together. */
module EvalFingerprint {
  import opened Wrappers
  import opened Taxonomy
  import opened DiagConfig
  import Tallies
  import Numerics
  import opened EvalMetrics
  import opened EvalPatterns

  /** The `pattern_id`s of `PATTERN_DEFINITIONS`. */
  datatype PatternName =
    | ConclusionConfusionPattern  // 'CONCLUSION_CONFUSION'
    | ConditionalSensitivity      // 'CONDITIONAL_SENSITIVITY'
    | NecSuffConfusion            // 'NEC_SUFF_CONFUSION'
    | CausalSensitivity           // 'CAUSAL_SENSITIVITY'
    | GapBlindness                // 'GAP_BLINDNESS'
    | AbstractionGap              // 'ABSTRACTION_GAP'
    | ProveVsSupport              // 'PROVE_VS_SUPPORT'
    | StructureVsContent          // 'STRUCTURE_VS_CONTENT'

  /** `CognitivePattern`: the pattern, the rule whose match is its evidence,
      and the skills and question types it affects. The description is fixed
      by the name. */
  datatype CognitivePattern = CognitivePattern(
    name: PatternName, evidence: PatternId, affectedSkills: seq<Skill>, affectedTypes: seq<QType>)

  /** `PATTERN_DEFINITIONS[id]`, for the eight rules that have one. */
  function Definition(id: PatternId): (p: Option<CognitivePattern>)
    ensures p.Some? ==> p.value.evidence == id
    ensures p.None? <==> id in {S02, FL02, RH03, RH04, ABS02, Cross01}
  {
    match id
    case S01 => Some(CognitivePattern(ConclusionConfusionPattern, S01,
      [Skill(Structural, 1), Skill(Structural, 4)], [MainPoint, RoleOfStatement]))
    case FL01 => Some(CognitivePattern(ConditionalSensitivity, FL01,
      [Skill(FormalLogic, 1), Skill(FormalLogic, 2), Skill(FormalLogic, 3)],
      [MustBeTrue, SufficientAssumption, ParallelReasoning]))
    case FL05 => Some(CognitivePattern(NecSuffConfusion, FL05,
      [Skill(FormalLogic, 7), Skill(Rhetorical, 3), Skill(Rhetorical, 4)],
      [NecessaryAssumption, SufficientAssumption]))
    case RH01 => Some(CognitivePattern(CausalSensitivity, RH01,
      [Skill(Rhetorical, 1), Skill(Rhetorical, 2)], [FlawInReasoning, Weaken, Strengthen]))
    case RH02 => Some(CognitivePattern(GapBlindness, RH02,
      [Skill(Rhetorical, 3), Skill(Rhetorical, 4)], [Strengthen, SufficientAssumption, NecessaryAssumption]))
    case ABS01 => Some(CognitivePattern(AbstractionGap, ABS01,
      [Skill(Abstraction, 1), Skill(Abstraction, 2)], [ParallelReasoning, ParallelFlaw]))
    case Cross02 => Some(CognitivePattern(ProveVsSupport, Cross02,
      [Skill(Rhetorical, 7), Skill(FormalLogic, 6)], [Strengthen, MostStronglySupported]))
    case Cross03 => Some(CognitivePattern(StructureVsContent, Cross03,
      [Skill(Structural, 2), Skill(Abstraction, 1)], [MethodOfReasoning, RoleOfStatement, ParallelReasoning]))
    case _ => None
  }

  /** The definitions agree with the rules and the taxonomy: two rules never
      share a pattern, every affected skill is a named one, and the skills
      a firing rule blames are among its pattern's affected skills. */
  lemma DefinitionsConsistent(id: PatternId, other: PatternId, s: Signals)
    ensures Definition(id).Some? && Definition(other).Some? && id != other ==>
      Definition(id).value.name != Definition(other).value.name
    ensures Definition(id).Some? ==>
      forall k :: 0 <= k < |Definition(id).value.affectedSkills| ==> Known(Definition(id).value.affectedSkills[k])
    ensures Definition(id).Some? ==>
      forall k :: 0 <= k < |RuleMatch(id, s).rootCauses| ==>
        RuleMatch(id, s).rootCauses[k] in Definition(id).value.affectedSkills
  {
  }

  /** The patterns defined for the matches, in match order. */
  function Defined(matches: seq<Match>): (ps: seq<CognitivePattern>)
    ensures |ps| <= |matches|
  {
    if |matches| == 0 then []
    else
      match Definition(matches[0].id)
      case None => Defined(matches[1..])
      case Some(p) => [p] + Defined(matches[1..])
  }

  /** Every defined pattern is the definition of a match's rule ... */
  lemma {:induction false} DefinedSound(matches: seq<Match>)
    ensures forall i :: 0 <= i < |Defined(matches)| ==>
      && Definition(Defined(matches)[i].evidence) == Some(Defined(matches)[i])
      && exists k :: 0 <= k < |matches| && matches[k].id == Defined(matches)[i].evidence
  {
    if |matches| > 0 {
      DefinedSound(matches[1..]);
      var rest := Defined(matches[1..]);
      forall i | 0 <= i < |rest| ensures exists k :: 0 <= k < |matches| && matches[k].id == rest[i].evidence {
        var k :| 0 <= k < |matches[1..]| && matches[1..][k].id == rest[i].evidence;
        assert matches[k + 1].id == rest[i].evidence;
      }
    }
  }

  /** ... and every match whose rule has a definition contributes it. */
  lemma {:induction false} DefinedComplete(matches: seq<Match>)
    ensures forall k :: 0 <= k < |matches| && Definition(matches[k].id).Some? ==>
      Definition(matches[k].id).value in Defined(matches)
  {
    if |matches| > 0 {
      DefinedComplete(matches[1..]);
      assert forall k :: 1 <= k < |matches| ==> matches[k] == matches[1..][k - 1];
    }
  }

  function MatchRank(m: Match): nat { Rank(m.id) }
  function EvidenceRank(p: CognitivePattern): nat { Rank(p.evidence) }

  /** Patterns defined after a rank bound stay after it. */
  lemma {:induction false} DefinedAbove(matches: seq<Match>, low: int)
    requires forall i :: 0 <= i < |matches| ==> low < MatchRank(matches[i])
    ensures forall i :: 0 <= i < |Defined(matches)| ==> low < EvidenceRank(Defined(matches)[i])
  {
    if |matches| > 0 {
      DefinedAbove(matches[1..], low);
    }
  }

  /** Matches in rule order give patterns in rule order, so no pattern
      appears twice. */
  lemma {:induction false} DefinedOrdered(matches: seq<Match>)
    requires InOrder(matches, MatchRank)
    ensures InOrder(Defined(matches), EvidenceRank)
  {
    if |matches| > 0 {
      TailInOrder(matches, MatchRank);
      DefinedOrdered(matches[1..]);
      var d := Definition(matches[0].id);
      if d.Some? {
        DefinedAbove(matches[1..], MatchRank(matches[0]));
        ConsInOrder(d.value, Defined(matches[1..]), EvidenceRank);
      }
    }
  }

  /** The first four defined patterns: `primary_patterns[:4]`. */
  function Primary(matches: seq<Match>): (ps: seq<CognitivePattern>)
    ensures |ps| <= 4 && |ps| <= |Defined(matches)|
    ensures ps == Defined(matches)[..|ps|]
    ensures |ps| < 4 ==> ps == Defined(matches)
  {
    var all := Defined(matches);
    if |all| <= 4 then all else all[..4]
  }

  /** The five `TENDENCY_MAPPINGS`. */
  datatype Tendency =
    | SelectsTooStrong       // 'Selects answers that are too strong'
    | SelectsTooWeak         // 'Selects answers that are too weak'
    | MatchesContent         // 'Matches on content rather than logical structure'
    | OverreachesEvidence    // 'Draws conclusions beyond what the evidence supports'
    | ConfusesConclusions    // 'Confuses intermediate conclusions with main points'

  /** The tendency a trap reveals, for the five traps that have one. */
  function TendencyOf(trap: Trap): (t: Option<Tendency>)
    ensures t.Some? <==> trap in {TooStrongAnswer, TooWeakAnswer, SurfaceMatching, InferenceOverreach, ConclusionConfusion}
  {
    match trap
    case TooStrongAnswer => Some(SelectsTooStrong)
    case TooWeakAnswer => Some(SelectsTooWeak)
    case SurfaceMatching => Some(MatchesContent)
    case InferenceOverreach => Some(OverreachesEvidence)
    case ConclusionConfusion => Some(ConfusesConclusions)
    case _ => None
  }

  /** Different traps reveal different tendencies. */
  lemma TendencyOfInjective(a: Trap, b: Trap)
    ensures TendencyOf(a).Some? && TendencyOf(a) == TendencyOf(b) ==> a == b
  {
  }

  /** `ReasoningTendency`: the tendency and the trap that revealed it (the
      context text is fixed by the tendency). */
  datatype ReasoningTendency = ReasoningTendency(tendency: Tendency, trapPattern: Trap)

  predicate Listed(acc: seq<ReasoningTendency>, t: Tendency) {
    exists i :: 0 <= i < |acc| && acc[i].tendency == t
  }

  /** One entry of a trap's counts: note its tendency unless the count is
      zero, the trap has none, or the tendency is already listed. */
  function NoteTrap(acc: seq<ReasoningTendency>, tally: Tallies.Tally<Trap>): (r: seq<ReasoningTendency>)
    ensures r == acc || (tally.total > 0 && TendencyOf(tally.key).Some? && r == acc + [ReasoningTendency(TendencyOf(tally.key).value, tally.key)])
  {
    match TendencyOf(tally.key)
    case None => acc
    case Some(t) =>
      if tally.total > 0 && !Listed(acc, t) then acc + [ReasoningTendency(t, tally.key)] else acc
  }

  function NoteTraps(acc: seq<ReasoningTendency>, counts: Tallies.Table<Trap>): seq<ReasoningTendency>
    decreases |counts|
  {
    if |counts| == 0 then acc else NoteTraps(NoteTrap(acc, counts[0]), counts[1..])
  }

  /** The loop over `trap_analysis` and each entry's `trap_counts`. */
  function CollectTendencies(acc: seq<ReasoningTendency>, analysis: seq<TrapAnalysis>): seq<ReasoningTendency>
    decreases |analysis|
  {
    if |analysis| == 0 then acc
    else CollectTendencies(NoteTraps(acc, analysis[0].trapCounts), analysis[1..])
  }

  /** Every listed tendency is its trap's tendency, and no tendency is
      listed twice. */
  ghost predicate WellListed(acc: seq<ReasoningTendency>) {
    && (forall i :: 0 <= i < |acc| ==> TendencyOf(acc[i].trapPattern) == Some(acc[i].tendency))
    && (forall i, j :: 0 <= i < j < |acc| ==> acc[i].tendency != acc[j].tendency)
  }

  /** A trap counted at least once in some entry of the analysis. */
  ghost predicate Counted(analysis: seq<TrapAnalysis>, trap: Trap) {
    exists a, k :: 0 <= a < |analysis| && 0 <= k < |analysis[a].trapCounts|
      && analysis[a].trapCounts[k].key == trap && analysis[a].trapCounts[k].total > 0
  }

  lemma NoteTrapKeeps(acc: seq<ReasoningTendency>, tally: Tallies.Tally<Trap>)
    requires WellListed(acc)
    ensures WellListed(NoteTrap(acc, tally))
    ensures forall i :: 0 <= i < |acc| ==> NoteTrap(acc, tally)[i] == acc[i]
    ensures tally.total > 0 && TendencyOf(tally.key).Some? ==> Listed(NoteTrap(acc, tally), TendencyOf(tally.key).value)
  {
    var r := NoteTrap(acc, tally);
    if |r| > |acc| {
      assert r[|acc|].tendency == TendencyOf(tally.key).value;
    }
  }

  /** Noting a table keeps the list well formed, keeps what was listed, and
      lists the tendency of every trap the table counts. */
  lemma {:induction false} NoteTrapsKeeps(acc: seq<ReasoningTendency>, counts: Tallies.Table<Trap>)
    requires WellListed(acc)
    ensures WellListed(NoteTraps(acc, counts))
    ensures |acc| <= |NoteTraps(acc, counts)|
    ensures forall i :: 0 <= i < |acc| ==> NoteTraps(acc, counts)[i] == acc[i]
    ensures forall k :: 0 <= k < |counts| && counts[k].total > 0 && TendencyOf(counts[k].key).Some? ==>
      Listed(NoteTraps(acc, counts), TendencyOf(counts[k].key).value)
    decreases |counts|
  {
    if |counts| > 0 {
      var next := NoteTrap(acc, counts[0]);
      NoteTrapKeeps(acc, counts[0]);
      NoteTrapsKeeps(next, counts[1..]);
      var r := NoteTraps(acc, counts);
      forall k | 0 <= k < |counts| && counts[k].total > 0 && TendencyOf(counts[k].key).Some?
        ensures Listed(r, TendencyOf(counts[k].key).value)
      {
        if k == 0 {
          var i :| 0 <= i < |next| && next[i].tendency == TendencyOf(counts[0].key).value;
          assert r[i] == next[i];
        } else {
          assert counts[k] == counts[1..][k - 1];
        }
      }
    }
  }

  /** The traps a table counts at least once. */
  ghost function CountedKeys(counts: Tallies.Table<Trap>): set<Trap> {
    set k | 0 <= k < |counts| && counts[k].total > 0 :: counts[k].key
  }

  /** Noting a table adds only tendencies of traps it counts. */
  lemma {:induction false} NoteTrapsSound(acc: seq<ReasoningTendency>, counts: Tallies.Table<Trap>)
    ensures forall i :: |acc| <= i < |NoteTraps(acc, counts)| ==> NoteTraps(acc, counts)[i].trapPattern in CountedKeys(counts)
    decreases |counts|
  {
    if |counts| > 0 {
      var next := NoteTrap(acc, counts[0]);
      NoteTrapsSound(next, counts[1..]);
      NoteTrapsPrefix(next, counts[1..]);
      var r := NoteTraps(acc, counts);
      assert CountedKeys(counts[1..]) <= CountedKeys(counts) by {
        forall k | 0 <= k < |counts[1..]| && counts[1..][k].total > 0 ensures counts[1..][k].key in CountedKeys(counts) {
          assert counts[1..][k] == counts[k + 1];
        }
      }
      forall i | |acc| <= i < |r| ensures r[i].trapPattern in CountedKeys(counts) {
        if i < |next| {
          assert r[i] == next[i];
          assert counts[0].key == r[i].trapPattern && counts[0].total > 0;
        }
      }
    }
  }

  lemma {:induction false} NoteTrapsPrefix(acc: seq<ReasoningTendency>, counts: Tallies.Table<Trap>)
    ensures |acc| <= |NoteTraps(acc, counts)|
    ensures forall i :: 0 <= i < |acc| ==> NoteTraps(acc, counts)[i] == acc[i]
    decreases |counts|
  {
    if |counts| > 0 {
      NoteTrapsPrefix(NoteTrap(acc, counts[0]), counts[1..]);
    }
  }

  /** The collected tendencies are well formed, each comes from a trap
      counted in the analysis, and every counted trap that has a tendency
      has it listed. */
  lemma {:induction false} CollectTendenciesFacts(acc: seq<ReasoningTendency>, analysis: seq<TrapAnalysis>)
    requires WellListed(acc)
    ensures WellListed(CollectTendencies(acc, analysis))
    ensures |acc| <= |CollectTendencies(acc, analysis)|
    ensures forall i :: 0 <= i < |acc| ==> CollectTendencies(acc, analysis)[i] == acc[i]
    ensures forall i :: |acc| <= i < |CollectTendencies(acc, analysis)| ==>
      Counted(analysis, CollectTendencies(acc, analysis)[i].trapPattern)
    ensures forall trap :: Counted(analysis, trap) && TendencyOf(trap).Some? ==>
      Listed(CollectTendencies(acc, analysis), TendencyOf(trap).value)
    decreases |analysis|
  {
    if |analysis| > 0 {
      var next := NoteTraps(acc, analysis[0].trapCounts);
      NoteTrapsKeeps(acc, analysis[0].trapCounts);
      NoteTrapsSound(acc, analysis[0].trapCounts);
      CollectTendenciesFacts(next, analysis[1..]);
      var r := CollectTendencies(acc, analysis);
      forall i | |acc| <= i < |r| ensures Counted(analysis, r[i].trapPattern) {
        if i < |next| {
          assert next[i].trapPattern in CountedKeys(analysis[0].trapCounts);
          var k :| 0 <= k < |analysis[0].trapCounts| && analysis[0].trapCounts[k].key == next[i].trapPattern
            && analysis[0].trapCounts[k].total > 0;
          assert r[i] == next[i];
          assert analysis[0].trapCounts[k].key == r[i].trapPattern;
        } else {
          var a, k :| 0 <= a < |analysis[1..]| && 0 <= k < |analysis[1..][a].trapCounts|
            && analysis[1..][a].trapCounts[k].key == r[i].trapPattern && analysis[1..][a].trapCounts[k].total > 0;
          assert analysis[a + 1] == analysis[1..][a];
        }
      }
      forall trap | Counted(analysis, trap) && TendencyOf(trap).Some? ensures Listed(r, TendencyOf(trap).value) {
        var a, k :| 0 <= a < |analysis| && 0 <= k < |analysis[a].trapCounts|
          && analysis[a].trapCounts[k].key == trap && analysis[a].trapCounts[k].total > 0;
        if a == 0 {
          var i :| 0 <= i < |next| && next[i].tendency == TendencyOf(trap).value;
          assert r[i] == next[i];
        } else {
          assert analysis[1..][a - 1] == analysis[a];
        }
      }
    }
  }

  /** `reasoning_tendencies[:4]`. */
  function Tendencies(analysis: seq<TrapAnalysis>): (ts: seq<ReasoningTendency>)
    ensures |ts| <= 4
  {
    var all := CollectTendencies([], analysis);
    if |all| <= 4 then all else all[..4]
  }

  /** The interaction summary: the first two pattern names when there are
      more than two, the first alone when there are one or two, and
      otherwise strong or below the threshold by overall accuracy. */
  datatype Summary =
    | TwoPatterns(first: PatternName, second: PatternName)
    | OnePattern(first: PatternName)
    | StrongOverall
    | BelowThreshold

  function SummaryOf(primary: seq<CognitivePattern>, overall: real): (r: Summary)
    ensures |primary| > 0 ==> (r.TwoPatterns? || r.OnePattern?) && r.first == primary[0].name
    ensures r.TwoPatterns? ==> |primary| > 2 && r.second == primary[1].name
    ensures r == StrongOverall <==> |primary| == 0 && overall >= 0.70
    ensures r == BelowThreshold <==> |primary| == 0 && overall < 0.70
  {
    if |primary| > 2 then TwoPatterns(primary[0].name, primary[1].name)
    else if |primary| > 0 then OnePattern(primary[0].name)
    else if overall >= 0.70 then StrongOverall
    else BelowThreshold
  }

  /** `CognitiveFingerprint`. */
  datatype Fingerprint = Fingerprint(
    primary: seq<CognitivePattern>, summary: Summary, tendencies: seq<ReasoningTendency>)

  /** `_build_cognitive_fingerprint`. */
  function BuildFingerprint(metrics: Metrics, matches: seq<Match>, analysis: seq<TrapAnalysis>): (f: Fingerprint)
    ensures |f.primary| <= 4 && |f.tendencies| <= 4
  {
    var primary := Primary(matches);
    Fingerprint(primary, SummaryOf(primary, metrics.overall), Tendencies(analysis))
  }

  /** Every primary pattern is the definition of one of the matches' rules,
      and the first four defined ones are all there. */
  lemma FingerprintPatterns(metrics: Metrics, matches: seq<Match>, analysis: seq<TrapAnalysis>)
    ensures var f := BuildFingerprint(metrics, matches, analysis);
      && (forall i :: 0 <= i < |f.primary| ==>
            Definition(f.primary[i].evidence) == Some(f.primary[i])
            && exists k :: 0 <= k < |matches| && matches[k].id == f.primary[i].evidence)
      && (|f.primary| < 4 ==> forall k :: 0 <= k < |matches| && Definition(matches[k].id).Some? ==>
            Definition(matches[k].id).value in f.primary)
  {
    DefinedSound(matches);
    DefinedComplete(matches);
  }

  /** On the rules' own report the primary patterns follow the rule order,
      so none repeats. */
  lemma FingerprintOrdered(metrics: Metrics, s: Signals, analysis: seq<TrapAnalysis>)
    ensures var p := BuildFingerprint(metrics, Matches(s), analysis).primary;
      forall i, j :: 0 <= i < j < |p| ==> Rank(p[i].evidence) < Rank(p[j].evidence)
  {
    var ms := Matches(s);
    MatchesFired(s);
    assert InOrder(ms, MatchRank) by {
      forall i, j | 0 <= i < j < |ms| ensures MatchRank(ms[i]) < MatchRank(ms[j]) {
      }
    }
    DefinedOrdered(ms);
    var all := Defined(ms);
    var p := Primary(ms);
    forall i, j | 0 <= i < j < |p| ensures Rank(p[i].evidence) < Rank(p[j].evidence) {
      assert p[i] == all[i] && p[j] == all[j];
      assert EvidenceRank(all[i]) < EvidenceRank(all[j]);
    }
  }

  /** The tendencies are pairwise distinct, each revealed by a trap the
      analysis counts; when fewer than four are reported, every counted
      trap's tendency is among them. */
  lemma FingerprintTendencies(metrics: Metrics, matches: seq<Match>, analysis: seq<TrapAnalysis>)
    ensures var ts := BuildFingerprint(metrics, matches, analysis).tendencies;
      && (forall i, j :: 0 <= i < j < |ts| ==> ts[i].tendency != ts[j].tendency)
      && (forall i :: 0 <= i < |ts| ==>
            TendencyOf(ts[i].trapPattern) == Some(ts[i].tendency) && Counted(analysis, ts[i].trapPattern))
      && (|ts| < 4 ==> forall trap :: Counted(analysis, trap) && TendencyOf(trap).Some? ==>
            Listed(ts, TendencyOf(trap).value))
  {
    CollectTendenciesFacts([], analysis);
    var all := CollectTendencies([], analysis);
    var ts := Tendencies(analysis);
    assert forall i :: 0 <= i < |ts| ==> ts[i] == all[i];
  }

  /** Without matches or wrong answers the fingerprint is empty, and its
      summary is decided by the overall accuracy alone. */
  lemma NothingToReport(metrics: Metrics)
    ensures BuildFingerprint(metrics, [], []) ==
      Fingerprint([], if metrics.overall >= 0.70 then StrongOverall else BelowThreshold, [])
  {
  }

  /** All answers correct: no pattern, no tendency, and strong overall. */
  lemma {:induction false} AllCorrectFingerprint(answers: seq<EvalAnswer>)
    requires |answers| > 0
    requires forall i :: 0 <= i < |answers| ==> answers[i].isCorrect
    ensures var metrics := ComputeMetrics(answers);
      var analysis := AnalyzeTraps(answers);
      BuildFingerprint(metrics, ApplyPatterns(metrics, analysis), analysis) == Fingerprint([], StrongOverall, [])
  {
    var metrics := ComputeMetrics(answers);
    var analysis := AnalyzeTraps(answers);
    assert ApplyPatterns(metrics, analysis) == [] by {
      AllCorrectNoPatterns(answers);
    }
    assert analysis == [] by {
      TrapsIgnoreCorrect(answers);
      CorrectPlusWrong(answers);
      AllCorrectCount(answers);
      assert Wrong(answers) == [];
    }
    assert metrics.overall == 1.0 by {
      AllCorrectCount(answers);
      Numerics.MulDivCancel(|answers| as real, 1.0);
    }
    NothingToReport(metrics);
  }

  /** No answers at all: no pattern, no tendency, and below the threshold. */
  lemma EmptyFingerprint()
    ensures var metrics := ComputeMetrics([]);
      BuildFingerprint(metrics, ApplyPatterns(metrics, AnalyzeTraps([])), AnalyzeTraps([]))
        == Fingerprint([], BelowThreshold, [])
  {
    var metrics := ComputeMetrics([]);
    assert ApplyPatterns(metrics, AnalyzeTraps([])) == [] by {
      AllCorrectNoPatterns([]);
    }
    NothingToReport(metrics);
  }
}
