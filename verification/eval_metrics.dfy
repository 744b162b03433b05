/** The first two steps of the diagnostic evaluation: correct/total tallies
    per question type and per skill over the answers, and the inferred trap
    of every wrong answer, tallied per question type. */
module EvalMetrics {
  import opened Wrappers
  import opened Taxonomy
  import opened DiagConfig
  import Tallies

  /** One enriched answer: `is_correct` and the bank's `question_type`
      (an unknown or missing type is an `OtherType`). */
  datatype EvalAnswer = EvalAnswer(isCorrect: bool, qtype: QType)

  /** `PerformanceMetrics`. */
  datatype Metrics = Metrics(
    byType: Tallies.Table<QType>, bySkill: Tallies.Table<Skill>,
    overall: real, total: nat, correct: nat)

  function CorrectAnswers(answers: seq<EvalAnswer>): (n: nat)
    ensures n <= |answers|
  {
    if |answers| == 0 then 0
    else CorrectAnswers(answers[..|answers| - 1]) + (if answers[|answers| - 1].isCorrect then 1 else 0)
  }

  /** `by_question_type`: one tally per question type, in order of first
      appearance. */
  function ByType(answers: seq<EvalAnswer>): Tallies.Table<QType> {
    if |answers| == 0 then []
    else
      var last := answers[|answers| - 1];
      Tallies.Record(ByType(answers[..|answers| - 1]), last.qtype, last.isCorrect)
  }

  /** `by_skill`: every answer counts once for each skill its question type
      maps to. */
  function BySkill(answers: seq<EvalAnswer>): Tallies.Table<Skill> {
    if |answers| == 0 then []
    else
      var last := answers[|answers| - 1];
      Tallies.RecordAll(BySkill(answers[..|answers| - 1]), SkillsOf(last.qtype), last.isCorrect)
  }

  /** `_compute_performance_metrics`. */
  function ComputeMetrics(answers: seq<EvalAnswer>): (m: Metrics)
    ensures m.total == |answers| && m.correct <= m.total
    ensures 0.0 <= m.overall <= 1.0
    ensures m.total == 0 ==> m.overall == 0.0
    ensures m.total > 0 ==> m.overall == m.correct as real / m.total as real
  {
    var correct := CorrectAnswers(answers);
    var total: nat := |answers|;
    var overall := Tallies.Ratio(correct, total);
    Metrics(ByType(answers), BySkill(answers), overall, total, correct)
  }

  /** Answers of a type, and the correct ones among them. */
  function TypeTotal(answers: seq<EvalAnswer>, t: QType): nat {
    if |answers| == 0 then 0
    else TypeTotal(answers[..|answers| - 1], t) + (if answers[|answers| - 1].qtype == t then 1 else 0)
  }

  function TypeCorrect(answers: seq<EvalAnswer>, t: QType): nat {
    if |answers| == 0 then 0
    else
      var last := answers[|answers| - 1];
      TypeCorrect(answers[..|answers| - 1], t) + (if last.qtype == t && last.isCorrect then 1 else 0)
  }

  /** Only answered types have a tally. */
  lemma {:induction false} ByTypePresence(answers: seq<EvalAnswer>, t: QType)
    ensures Tallies.Lookup(ByType(answers), t).Some? <==> TypeTotal(answers, t) > 0
  {
    if |answers| > 0 {
      var n := |answers| - 1;
      ByTypePresence(answers[..n], t);
      Tallies.RecordLookup(ByType(answers[..n]), answers[n].qtype, answers[n].isCorrect, t);
    }
  }

  /** Each type's tally counts exactly the answers of that type. */
  lemma {:induction false} ByTypeTotal(answers: seq<EvalAnswer>, t: QType)
    ensures Tallies.TotalOf(ByType(answers), t) == TypeTotal(answers, t)
  {
    if |answers| > 0 {
      var n := |answers| - 1;
      ByTypeTotal(answers[..n], t);
      Tallies.RecordCounts(ByType(answers[..n]), answers[n].qtype, answers[n].isCorrect, t);
    }
  }

  /** ... and the correct ones among them. */
  lemma {:induction false} ByTypeCorrect(answers: seq<EvalAnswer>, t: QType)
    ensures Tallies.CorrectOf(ByType(answers), t) == TypeCorrect(answers, t)
  {
    if |answers| > 0 {
      var n := |answers| - 1;
      ByTypeCorrect(answers[..n], t);
      Tallies.RecordCounts(ByType(answers[..n]), answers[n].qtype, answers[n].isCorrect, t);
    }
  }

  /** The type totals add up to the number of answers; every tally is
      sound and no type has two. */
  lemma {:induction false} ByTypeShape(answers: seq<EvalAnswer>)
    ensures Tallies.SumTotals(ByType(answers)) == |answers|
    ensures Tallies.Sound(ByType(answers))
    ensures Tallies.DistinctKeys(ByType(answers))
  {
    if |answers| > 0 {
      var n := |answers| - 1;
      var before := ByType(answers[..n]);
      ByTypeShape(answers[..n]);
      Tallies.RecordSum(before, answers[n].qtype, answers[n].isCorrect);
      Tallies.RecordSound(before, answers[n].qtype, answers[n].isCorrect);
      Tallies.RecordDistinct(before, answers[n].qtype, answers[n].isCorrect);
    }
  }

  /** How often a skill is drawn on over all answers, and over the correct
      ones. */
  function SkillHits(answers: seq<EvalAnswer>, s: Skill): nat {
    if |answers| == 0 then 0
    else SkillHits(answers[..|answers| - 1], s) + Tallies.Occurrences(SkillsOf(answers[|answers| - 1].qtype), s)
  }

  function SkillCorrectHits(answers: seq<EvalAnswer>, s: Skill): nat {
    if |answers| == 0 then 0
    else
      var last := answers[|answers| - 1];
      SkillCorrectHits(answers[..|answers| - 1], s) + (if last.isCorrect then Tallies.Occurrences(SkillsOf(last.qtype), s) else 0)
  }

  /** Only skills some answer's type draws on have a tally. */
  lemma {:induction false} BySkillPresence(answers: seq<EvalAnswer>, s: Skill)
    ensures Tallies.Lookup(BySkill(answers), s).Some? <==> SkillHits(answers, s) > 0
  {
    if |answers| > 0 {
      var n := |answers| - 1;
      BySkillPresence(answers[..n], s);
      Tallies.RecordAllPresence(BySkill(answers[..n]), SkillsOf(answers[n].qtype), answers[n].isCorrect, s);
    }
  }

  /** Each skill's tally counts its occurrences over the answers' type
      skill lists ... */
  lemma {:induction false} BySkillTotal(answers: seq<EvalAnswer>, s: Skill)
    ensures Tallies.TotalOf(BySkill(answers), s) == SkillHits(answers, s)
  {
    if |answers| > 0 {
      var n := |answers| - 1;
      BySkillTotal(answers[..n], s);
      Tallies.RecordAllTotal(BySkill(answers[..n]), SkillsOf(answers[n].qtype), answers[n].isCorrect, s);
    }
  }

  /** ... and over the correct answers' lists. */
  lemma {:induction false} BySkillCorrect(answers: seq<EvalAnswer>, s: Skill)
    ensures Tallies.CorrectOf(BySkill(answers), s) == SkillCorrectHits(answers, s)
  {
    if |answers| > 0 {
      var n := |answers| - 1;
      BySkillCorrect(answers[..n], s);
      Tallies.RecordAllCorrect(BySkill(answers[..n]), SkillsOf(answers[n].qtype), answers[n].isCorrect, s);
    }
  }

  /** A skill is drawn on only when some answer's type lists it. */
  lemma {:induction false} SkillHitsListed(answers: seq<EvalAnswer>, s: Skill)
    ensures SkillHits(answers, s) > 0 ==> exists i :: 0 <= i < |answers| && s in SkillsOf(answers[i].qtype)
  {
    if |answers| > 0 {
      var n := |answers| - 1;
      SkillHitsListed(answers[..n], s);
      Tallies.OccurrencesPositive(SkillsOf(answers[n].qtype), s);
      if SkillHits(answers[..n], s) > 0 {
        var i :| 0 <= i < n && s in SkillsOf(answers[..n][i].qtype);
        assert answers[..n][i] == answers[i];
      }
    }
  }

  /** Every skill tally is sound, no skill has two, and every skill with a
      tally is a named skill. */
  lemma {:induction false} BySkillShape(answers: seq<EvalAnswer>)
    ensures Tallies.Sound(BySkill(answers))
    ensures Tallies.DistinctKeys(BySkill(answers))
    ensures forall i :: 0 <= i < |BySkill(answers)| ==> Known(BySkill(answers)[i].key)
  {
    var table := BySkill(answers);
    if |answers| > 0 {
      var n := |answers| - 1;
      var before := BySkill(answers[..n]);
      BySkillShape(answers[..n]);
      Tallies.RecordAllSound(before, SkillsOf(answers[n].qtype), answers[n].isCorrect);
      Tallies.RecordAllDistinct(before, SkillsOf(answers[n].qtype), answers[n].isCorrect);
    }
    forall i | 0 <= i < |table| ensures Known(table[i].key) {
      var s := table[i].key;
      BySkillPresence(answers, s);
      SkillHitsListed(answers, s);
      var j :| 0 <= j < |answers| && s in SkillsOf(answers[j].qtype);
      SequencedTypesHaveSkills();
    }
  }

  /** The trap `_infer_trap_type` reads into a wrong answer. */
  datatype Trap =
    | TooStrongAnswer          // 'too_strong_answer'
    | TooWeakAnswer            // 'too_weak_answer'
    | StrengtheningGapMiss     // 'strengthening_gap_miss'
    | WeakeningGapMiss         // 'weakening_gap_miss'
    | ConclusionConfusion      // 'conclusion_confusion'
    | InferenceOverreach       // 'inference_overreach'
    | SupportMiscalibration    // 'support_miscalibration'
    | FlawMisidentification    // 'flaw_misidentification'
    | SurfaceMatching          // 'surface_matching'
    | FlawTypeMismatch         // 'flaw_type_mismatch'
    | RoleConfusion            // 'role_confusion'
    | MethodConfusion          // 'method_confusion'
    | IncompleteResolution     // 'incomplete_resolution'
    | PrincipleMisapplication  // 'principle_misapplication'
    | UnspecifiedError         // 'unspecified_error'

  /** `_infer_trap_type`: one trap per listed question type, the
      unspecified error for any other; never none. */
  function InferTrap(t: QType): (trap: Trap)
    ensures trap == UnspecifiedError <==> t.OtherType?
  {
    match t
    case NecessaryAssumption => TooStrongAnswer
    case SufficientAssumption => TooWeakAnswer
    case Strengthen => StrengtheningGapMiss
    case Weaken => WeakeningGapMiss
    case MainPoint => ConclusionConfusion
    case MustBeTrue => InferenceOverreach
    case MostStronglySupported => SupportMiscalibration
    case FlawInReasoning => FlawMisidentification
    case ParallelReasoning => SurfaceMatching
    case ParallelFlaw => FlawTypeMismatch
    case RoleOfStatement => RoleConfusion
    case MethodOfReasoning => MethodConfusion
    case ResolveParadox => IncompleteResolution
    case PrincipleApplication => PrincipleMisapplication
    case OtherType(_) => UnspecifiedError
  }

  /** The question type a specific trap is read into. */
  function TrapSource(trap: Trap): Option<QType> {
    match trap
    case TooStrongAnswer => Some(NecessaryAssumption)
    case TooWeakAnswer => Some(SufficientAssumption)
    case StrengtheningGapMiss => Some(Strengthen)
    case WeakeningGapMiss => Some(Weaken)
    case ConclusionConfusion => Some(MainPoint)
    case InferenceOverreach => Some(MustBeTrue)
    case SupportMiscalibration => Some(MostStronglySupported)
    case FlawMisidentification => Some(FlawInReasoning)
    case SurfaceMatching => Some(ParallelReasoning)
    case FlawTypeMismatch => Some(ParallelFlaw)
    case RoleConfusion => Some(RoleOfStatement)
    case MethodConfusion => Some(MethodOfReasoning)
    case IncompleteResolution => Some(ResolveParadox)
    case PrincipleMisapplication => Some(PrincipleApplication)
    case UnspecifiedError => None
  }

  /** Each listed type has a trap of its own: the trap tells the type back. */
  lemma InferTrapInverse(t: QType, trap: Trap)
    ensures TrapSource(InferTrap(t)) == if t.OtherType? then None else Some(t)
    ensures TrapSource(trap).Some? ==> InferTrap(TrapSource(trap).value) == trap
  {
  }

  /** The wrong answers under one key and their traps, each trap's count
      kept as a tally's total. */
  datatype Wrongs<K, T> = Wrongs(key: K, trapCounts: Tallies.Table<T>, totalWrong: nat)

  /** `TrapAnalysis`: the entry of one question type. */
  type TrapAnalysis = Wrongs<QType, Trap>

  /** One more wrong answer of type t, read as the given trap: bump the
      type's entry in place, or add one at the end. */
  function AddWrong<K(==), T(==)>(analysis: seq<Wrongs<K, T>>, t: K, trap: T): (r: seq<Wrongs<K, T>>)
    ensures |r| == |analysis| || |r| == |analysis| + 1
    ensures forall i :: 0 <= i < |analysis| ==> r[i].key == analysis[i].key
  {
    if |analysis| == 0 then [Wrongs(t, Tallies.Record([], trap, false), 1)]
    else if analysis[0].key == t then
      var a := analysis[0];
      [Wrongs(t, Tallies.Record(a.trapCounts, trap, false), a.totalWrong + 1)] + analysis[1..]
    else [analysis[0]] + AddWrong(analysis[1..], t, trap)
  }

  /** `_analyze_trap_patterns`: the wrong answers' traps, per question type,
      in order of first wrong answer. */
  function AnalyzeTraps(answers: seq<EvalAnswer>): seq<TrapAnalysis> {
    if |answers| == 0 then []
    else
      var last := answers[|answers| - 1];
      var before := AnalyzeTraps(answers[..|answers| - 1]);
      if last.isCorrect then before else AddWrong(before, last.qtype, InferTrap(last.qtype))
  }

  /** The wrong answers, in order. */
  function Wrong(answers: seq<EvalAnswer>): (w: seq<EvalAnswer>)
    ensures |w| <= |answers|
    ensures forall i :: 0 <= i < |w| ==> !w[i].isCorrect
  {
    if |answers| == 0 then []
    else
      var last := answers[|answers| - 1];
      Wrong(answers[..|answers| - 1]) + (if last.isCorrect then [] else [last])
  }

  /** Every answer is either counted correct or kept as a wrong one. */
  lemma {:induction false} CorrectPlusWrong(answers: seq<EvalAnswer>)
    ensures CorrectAnswers(answers) + |Wrong(answers)| == |answers|
  {
    if |answers| > 0 {
      CorrectPlusWrong(answers[..|answers| - 1]);
    }
  }

  /** Correct answers play no part: the analysis of all answers is the
      analysis of the wrong ones. */
  lemma {:induction false} TrapsIgnoreCorrect(answers: seq<EvalAnswer>)
    ensures AnalyzeTraps(answers) == AnalyzeTraps(Wrong(answers))
  {
    if |answers| > 0 {
      var n := |answers| - 1;
      TrapsIgnoreCorrect(answers[..n]);
      var w := Wrong(answers[..n]);
      if !answers[n].isCorrect {
        assert Wrong(answers) == w + [answers[n]];
        assert (w + [answers[n]])[..|w|] == w;
      } else {
        assert Wrong(answers) == w + [] == w;
      }
    }
  }

  /** Every entry's wrong count is the sum of its trap counts. */
  predicate Balanced<K, T>(analysis: seq<Wrongs<K, T>>) {
    forall i :: 0 <= i < |analysis| ==> analysis[i].totalWrong == Tallies.SumTotals(analysis[i].trapCounts)
  }

  /** All wrong answers over all entries. */
  function WrongTotal<K, T>(analysis: seq<Wrongs<K, T>>): nat {
    if |analysis| == 0 then 0 else analysis[0].totalWrong + WrongTotal(analysis[1..])
  }

  lemma {:induction false} AddWrongBalanced<K, T>(analysis: seq<Wrongs<K, T>>, t: K, trap: T)
    requires Balanced(analysis)
    ensures Balanced(AddWrong(analysis, t, trap))
    ensures WrongTotal(AddWrong(analysis, t, trap)) == WrongTotal(analysis) + 1
  {
    var r := AddWrong(analysis, t, trap);
    if |analysis| == 0 {
      Tallies.RecordSum([], trap, false);
      assert r[1..] == [];
    } else if analysis[0].key == t {
      Tallies.RecordSum(analysis[0].trapCounts, trap, false);
      assert r[1..] == analysis[1..];
      assert forall i :: 1 <= i < |r| ==> r[i] == analysis[i];
    } else {
      assert Balanced(analysis[1..]) by {
        assert forall i :: 0 <= i < |analysis[1..]| ==> analysis[1..][i] == analysis[i + 1];
      }
      AddWrongBalanced(analysis[1..], t, trap);
      assert r[1..] == AddWrong(analysis[1..], t, trap);
    }
  }

  /** Per type, the wrong count is the sum of the trap counts, and over all
      types the wrong counts add up to the wrong answers. */
  lemma {:induction false} AnalyzeTrapsBalanced(answers: seq<EvalAnswer>)
    ensures Balanced(AnalyzeTraps(answers))
    ensures WrongTotal(AnalyzeTraps(answers)) == |Wrong(answers)|
  {
    if |answers| > 0 {
      var n := |answers| - 1;
      AnalyzeTrapsBalanced(answers[..n]);
      if !answers[n].isCorrect {
        AddWrongBalanced(AnalyzeTraps(answers[..n]), answers[n].qtype, InferTrap(answers[n].qtype));
      }
    }
  }

  /** The entry for a question type, if there is one. */
  function FindTraps<K(==), T>(analysis: seq<Wrongs<K, T>>, t: K): (r: Option<Wrongs<K, T>>)
    ensures r.Some? ==> r.value.key == t && r.value in analysis
    ensures r.None? <==> forall i :: 0 <= i < |analysis| ==> analysis[i].key != t
  {
    if |analysis| == 0 then None
    else if analysis[0].key == t then Some(analysis[0])
    else FindTraps(analysis[1..], t)
  }

  /** `trap_analysis[t].total_wrong`, 0 when t has no entry. */
  function WrongCount<K(==), T>(analysis: seq<Wrongs<K, T>>, t: K): nat {
    match FindTraps(analysis, t)
    case None => 0
    case Some(a) => a.totalWrong
  }

  /** `trap_analysis[t].trap_counts`, empty when t has no entry. */
  function CountsOf<K(==), T>(analysis: seq<Wrongs<K, T>>, t: K): Tallies.Table<T> {
    match FindTraps(analysis, t)
    case None => []
    case Some(a) => a.trapCounts
  }

  /** `trap_analysis[t].trap_counts.get(trap, 0)`, 0 when t has no entry. */
  function TrapCount<K(==), T(==)>(analysis: seq<Wrongs<K, T>>, t: K, trap: T): nat {
    Tallies.TotalOf(CountsOf(analysis, t), trap)
  }

  /** A wrong answer of one type leaves every other type's entry alone. */
  lemma {:induction false} AddWrongOther<K, T>(analysis: seq<Wrongs<K, T>>, t: K, trap: T, u: K)
    requires u != t
    ensures FindTraps(AddWrong(analysis, t, trap), u) == FindTraps(analysis, u)
  {
    if |analysis| > 0 && analysis[0].key != t {
      AddWrongOther(analysis[1..], t, trap, u);
      assert AddWrong(analysis, t, trap)[1..] == AddWrong(analysis[1..], t, trap);
    }
  }

  /** ... and gives its own type an entry with one more wrong answer and the
      trap recorded once more. */
  lemma {:induction false} AddWrongSame<K, T>(analysis: seq<Wrongs<K, T>>, t: K, trap: T)
    ensures FindTraps(AddWrong(analysis, t, trap), t).Some?
    ensures WrongCount(AddWrong(analysis, t, trap), t) == WrongCount(analysis, t) + 1
    ensures CountsOf(AddWrong(analysis, t, trap), t) == Tallies.Record(CountsOf(analysis, t), trap, false)
  {
    if |analysis| > 0 && analysis[0].key != t {
      AddWrongSame(analysis[1..], t, trap);
      assert AddWrong(analysis, t, trap)[1..] == AddWrong(analysis[1..], t, trap);
    }
  }

  /** Wrong answers of a type. */
  function WrongOfType(answers: seq<EvalAnswer>, t: QType): nat {
    if |answers| == 0 then 0
    else
      var last := answers[|answers| - 1];
      WrongOfType(answers[..|answers| - 1], t) + (if last.qtype == t && !last.isCorrect then 1 else 0)
  }

  /** A type has an entry exactly when it has a wrong answer. */
  lemma {:induction false} TrapsPresence(answers: seq<EvalAnswer>, t: QType)
    ensures FindTraps(AnalyzeTraps(answers), t).Some? <==> WrongOfType(answers, t) > 0
  {
    if |answers| > 0 {
      var n := |answers| - 1;
      TrapsPresence(answers[..n], t);
      if !answers[n].isCorrect {
        if answers[n].qtype == t {
          AddWrongSame(AnalyzeTraps(answers[..n]), t, InferTrap(t));
        } else {
          AddWrongOther(AnalyzeTraps(answers[..n]), answers[n].qtype, InferTrap(answers[n].qtype), t);
        }
      }
    }
  }

  /** A type's entry counts its wrong answers. */
  lemma {:induction false} TrapsWrongCount(answers: seq<EvalAnswer>, t: QType)
    ensures WrongCount(AnalyzeTraps(answers), t) == WrongOfType(answers, t)
  {
    if |answers| > 0 {
      var n := |answers| - 1;
      TrapsWrongCount(answers[..n], t);
      if !answers[n].isCorrect {
        if answers[n].qtype == t {
          AddWrongSame(AnalyzeTraps(answers[..n]), t, InferTrap(t));
        } else {
          AddWrongOther(AnalyzeTraps(answers[..n]), answers[n].qtype, InferTrap(answers[n].qtype), t);
        }
      }
    }
  }

  /** A type's wrong answers all fall under the type's own trap ... */
  lemma {:induction false} TrapsOwnTrap(answers: seq<EvalAnswer>, t: QType)
    ensures TrapCount(AnalyzeTraps(answers), t, InferTrap(t)) == WrongOfType(answers, t)
  {
    if |answers| > 0 {
      var n := |answers| - 1;
      var before := AnalyzeTraps(answers[..n]);
      var last := answers[n];
      TrapsOwnTrap(answers[..n], t);
      if !last.isCorrect {
        if last.qtype == t {
          AddWrongSame(before, t, InferTrap(t));
          Tallies.RecordCounts(CountsOf(before, t), InferTrap(t), false, InferTrap(t));
        } else {
          AddWrongOther(before, last.qtype, InferTrap(last.qtype), t);
        }
      }
    }
  }

  /** ... and no other trap is counted for it. */
  lemma {:induction false} TrapsNoOtherTrap(answers: seq<EvalAnswer>, t: QType, trap: Trap)
    requires trap != InferTrap(t)
    ensures TrapCount(AnalyzeTraps(answers), t, trap) == 0
  {
    if |answers| > 0 {
      var n := |answers| - 1;
      var before := AnalyzeTraps(answers[..n]);
      var last := answers[n];
      TrapsNoOtherTrap(answers[..n], t, trap);
      if !last.isCorrect {
        if last.qtype == t {
          AddWrongSame(before, t, InferTrap(t));
          Tallies.RecordCounts(CountsOf(before, t), InferTrap(t), false, trap);
        } else {
          AddWrongOther(before, last.qtype, InferTrap(last.qtype), t);
        }
      }
    }
  }
}
