/** The diagnostic patterns: fourteen rules over the per-type accuracies and
    the trap counts, each naming the skills it suspects as root causes. */
module EvalPatterns {
  import opened Wrappers
  import opened Taxonomy
  import opened DiagConfig
  import Tallies
  import Numerics
  import opened EvalMetrics

  /** The rules in the order they are applied. */
  datatype PatternId =
    | S01      // 'DIAG-S01'
    | S02      // 'DIAG-S02'
    | FL01     // 'DIAG-FL01'
    | FL02     // 'DIAG-FL02'
    | FL05     // 'DIAG-FL05'
    | RH01     // 'DIAG-RH01'
    | RH02     // 'DIAG-RH02'
    | RH03     // 'DIAG-RH03'
    | RH04     // 'DIAG-RH04'
    | ABS01    // 'DIAG-ABS01'
    | ABS02    // 'DIAG-ABS02'
    | Cross01  // 'CROSS01-EVERYTHING_WEAK'
    | Cross02  // 'CROSS02-PROVE_VS_SUPPORT'
    | Cross03  // 'CROSS03-STRUCTURE_VS_CONTENT'

  /** A rule's place in the order of application. */
  function Rank(id: PatternId): nat {
    match id
    case S01 => 0
    case S02 => 1
    case FL01 => 2
    case FL02 => 3
    case FL05 => 4
    case RH01 => 5
    case RH02 => 6
    case RH03 => 7
    case RH04 => 8
    case ABS01 => 9
    case ABS02 => 10
    case Cross01 => 11
    case Cross02 => 12
    case Cross03 => 13
  }

  /** The rule of each rank. */
  function RuleOfRank(k: nat): (id: PatternId)
    requires k < 14
    ensures Rank(id) == k
  {
    if k == 0 then S01 else if k == 1 then S02 else if k == 2 then FL01
    else if k == 3 then FL02 else if k == 4 then FL05 else if k == 5 then RH01
    else if k == 6 then RH02 else if k == 7 then RH03 else if k == 8 then RH04
    else if k == 9 then ABS01 else if k == 10 then ABS02 else if k == 11 then Cross01
    else if k == 12 then Cross02 else Cross03
  }

  /** The rules in order of application. */
  function AllPatterns(): seq<PatternId> {
    seq(14, k requires 0 <= k < 14 => RuleOfRank(k))
  }

  /** The list holds every rule, at the position of its rank. */
  lemma AllPatternsRanked()
    ensures forall i :: 0 <= i < |AllPatterns()| ==> Rank(AllPatterns()[i]) == i
    ensures forall id :: id in AllPatterns()
  {
    forall id ensures id in AllPatterns() {
      assert AllPatterns()[Rank(id)] == id;
    }
  }

  datatype Confidence = HighConfidence | MediumConfidence

  /** `DiagnosticMatch`; the root cause as the skills its text names (the
      'multiple' of the cross-type rule names none). */
  datatype Match = Match(id: PatternId, rootCauses: seq<Skill>, confidence: Confidence)

  /** `get_qt_accuracy`: the type's accuracy, 1.0 when it was not asked. */
  function QtAccuracy(byType: Tallies.Table<QType>, t: QType): (a: real)
    ensures Tallies.Lookup(byType, t).None? ==> a == 1.0
  {
    match Tallies.Lookup(byType, t)
    case None => 1.0
    case Some(tally) => Tallies.Accuracy(tally)
  }

  /** The number of types whose accuracy is below one half. */
  function WeakTypeCount(byType: Tallies.Table<QType>): (n: nat)
    ensures n <= |byType|
  {
    if |byType| == 0 then 0
    else WeakTypeCount(byType[1..]) + (if Tallies.Accuracy(byType[0]) < 0.5 then 1 else 0)
  }

  /** What the rules read: twelve type accuracies, the number of weak
      types and three trap counts. */
  datatype Signals = Signals(
    mainPoint: real, role: real, mustBeTrue: real, sufficient: real, necessary: real,
    flaw: real, weaken: real, strengthen: real, mostStrongly: real, parallel: real,
    parallelFlaw: real, reasoningMethod: real,
    weakTypes: nat, conclusionConfusion: nat, tooStrongOnNecessary: nat, tooWeakOnSufficient: nat)

  /** The signals of the per-type tallies and the trap analysis. */
  function SignalsOf(byType: Tallies.Table<QType>, traps: seq<TrapAnalysis>): (s: Signals)
    ensures s.weakTypes == WeakTypeCount(byType)
    ensures s.conclusionConfusion == TrapCount(traps, MainPoint, ConclusionConfusion)
  {
    Signals(
      QtAccuracy(byType, MainPoint), QtAccuracy(byType, RoleOfStatement), QtAccuracy(byType, MustBeTrue),
      QtAccuracy(byType, SufficientAssumption), QtAccuracy(byType, NecessaryAssumption),
      QtAccuracy(byType, FlawInReasoning), QtAccuracy(byType, Weaken), QtAccuracy(byType, Strengthen),
      QtAccuracy(byType, MostStronglySupported), QtAccuracy(byType, ParallelReasoning),
      QtAccuracy(byType, ParallelFlaw), QtAccuracy(byType, MethodOfReasoning),
      WeakTypeCount(byType), TrapCount(traps, MainPoint, ConclusionConfusion),
      TrapCount(traps, NecessaryAssumption, TooStrongAnswer), TrapCount(traps, SufficientAssumption, TooWeakAnswer))
  }

  /** Whether a rule fires. */
  predicate Fires(id: PatternId, s: Signals) {
    match id
    case S01 => s.mainPoint < 0.5
    case S02 => s.conclusionConfusion > 0
    case FL01 => s.mustBeTrue < 0.5 && s.sufficient < 0.5
    case FL02 => s.mustBeTrue < 0.6 && s.sufficient >= 0.6
    case FL05 =>
      s.necessary < 0.5 && s.sufficient < 0.5 && (s.tooStrongOnNecessary > 0 || s.tooWeakOnSufficient > 0)
    case RH01 => s.flaw < 0.5 && s.weaken < 0.5
    case RH02 => s.strengthen < 0.5 && s.sufficient < 0.5
    case RH03 => s.necessary < 0.5 && s.weaken < 0.5
    case RH04 => s.sufficient >= 0.7 && s.necessary >= 0.7 && s.strengthen < 0.5 && s.mostStrongly < 0.5
    case ABS01 => s.parallel < 0.5 && s.mustBeTrue >= 0.6
    case ABS02 => s.parallelFlaw < 0.5 && s.flaw >= 0.6
    case Cross01 => s.weakTypes >= 5
    case Cross02 => s.mustBeTrue >= 0.7 && s.sufficient >= 0.7 && s.strengthen < 0.6 && s.mostStrongly < 0.6
    case Cross03 =>
      var content := (s.mustBeTrue + s.strengthen + s.weaken + s.sufficient + s.necessary) / 5.0;
      var structure := (s.reasoningMethod + s.role + s.parallel) / 3.0;
      content >= 0.6 && structure < 0.5
  }

  /** The match a rule reports when it fires. */
  function RuleMatch(id: PatternId, s: Signals): (m: Match)
    ensures m.id == id
  {
    match id
    case S01 => Match(S01, [Skill(Structural, 1)], if s.role < 0.5 then HighConfidence else MediumConfidence)
    case S02 => Match(S02, [Skill(Structural, 4)], MediumConfidence)
    case FL01 => Match(FL01, [Skill(FormalLogic, 1), Skill(FormalLogic, 2)], HighConfidence)
    case FL02 => Match(FL02, [Skill(FormalLogic, 3)], MediumConfidence)
    case FL05 => Match(FL05, [Skill(FormalLogic, 7)], HighConfidence)
    case RH01 => Match(RH01, [Skill(Rhetorical, 1), Skill(Rhetorical, 2)], MediumConfidence)
    case RH02 => Match(RH02, [Skill(Rhetorical, 3)], HighConfidence)
    case RH03 => Match(RH03, [Skill(Rhetorical, 4)], HighConfidence)
    case RH04 => Match(RH04, [Skill(Rhetorical, 7)], HighConfidence)
    case ABS01 => Match(ABS01, [Skill(Abstraction, 1)], MediumConfidence)
    case ABS02 => Match(ABS02, [Skill(Abstraction, 2)], MediumConfidence)
    case Cross01 =>
      if s.mainPoint < 0.5 then Match(Cross01, [Skill(Structural, 1)], HighConfidence)
      else Match(Cross01, [], MediumConfidence)
    case Cross02 => Match(Cross02, [Skill(Rhetorical, 7), Skill(FormalLogic, 6)], HighConfidence)
    case Cross03 => Match(Cross03, [Skill(Abstraction, 1), Skill(Structural, 2)], HighConfidence)
  }

  /** Every root cause a rule names is a named skill. */
  lemma RootCausesKnown(id: PatternId, s: Signals)
    ensures forall k :: 0 <= k < |RuleMatch(id, s).rootCauses| ==> Known(RuleMatch(id, s).rootCauses[k])
  {
  }

  /** The rules that fire. */
  function Fired(s: Signals): (fired: set<PatternId>)
    ensures forall id :: id in fired <==> Fires(id, s)
  {
    AllPatternsRanked();
    set id | id in AllPatterns() && Fires(id, s)
  }

  /** The elements of a list that are in a set, in list order. */
  function Filter<T>(xs: seq<T>, keep: set<T>): (r: seq<T>)
    ensures |r| <= |xs|
    ensures forall i :: 0 <= i < |r| ==> r[i] in xs && r[i] in keep
    ensures forall x :: x in xs && x in keep ==> x in r
  {
    if |xs| == 0 then []
    else
      var rest := Filter(xs[1..], keep);
      assert forall i :: 0 <= i < |rest| ==> rest[i] in xs[1..];
      if xs[0] in keep then [xs[0]] + rest else rest
  }

  /** A list in strictly increasing rank. */
  ghost predicate InOrder<T>(xs: seq<T>, rank: T -> nat) {
    forall i, j :: 0 <= i < j < |xs| ==> rank(xs[i]) < rank(xs[j])
  }

  /** Filtering keeps a lower bound that every element's rank exceeds. */
  lemma {:induction false} FilterAbove<T>(xs: seq<T>, keep: set<T>, rank: T -> nat, low: int)
    requires forall i :: 0 <= i < |xs| ==> low < rank(xs[i])
    ensures forall i :: 0 <= i < |Filter(xs, keep)| ==> low < rank(Filter(xs, keep)[i])
  {
    if |xs| > 0 {
      FilterAbove(xs[1..], keep, rank, low);
    }
  }

  /** Dropping the head of an ordered list keeps it ordered. */
  lemma TailInOrder<T>(xs: seq<T>, rank: T -> nat)
    requires |xs| > 0 && InOrder(xs, rank)
    ensures InOrder(xs[1..], rank)
  {
    var tail := xs[1..];
    forall i, j | 0 <= i < j < |tail| ensures rank(tail[i]) < rank(tail[j]) {
      assert tail[i] == xs[i + 1] && tail[j] == xs[j + 1];
    }
  }

  /** An element ranked below everything in an ordered list heads an ordered list. */
  lemma ConsInOrder<T>(x: T, xs: seq<T>, rank: T -> nat)
    requires InOrder(xs, rank)
    requires forall i :: 0 <= i < |xs| ==> rank(x) < rank(xs[i])
    ensures InOrder([x] + xs, rank)
  {
    var r := [x] + xs;
    forall i, j | 0 <= i < j < |r| ensures rank(r[i]) < rank(r[j]) {
      if i == 0 {
        assert r[j] == xs[j - 1];
      } else {
        assert r[i] == xs[i - 1] && r[j] == xs[j - 1];
      }
    }
  }

  /** Filtering a list in increasing rank keeps that order. */
  lemma {:induction false} FilterOrdered<T>(xs: seq<T>, keep: set<T>, rank: T -> nat)
    requires InOrder(xs, rank)
    ensures InOrder(Filter(xs, keep), rank)
  {
    if |xs| > 0 {
      TailInOrder(xs, rank);
      FilterOrdered(xs[1..], keep, rank);
      if xs[0] in keep {
        FilterAbove(xs[1..], keep, rank, rank(xs[0]));
        ConsInOrder(xs[0], Filter(xs[1..], keep), rank);
      }
    }
  }

  /** The rules are listed in rank order. */
  lemma AllPatternsInOrder()
    ensures InOrder(AllPatterns(), Rank)
  {
    var all := AllPatterns();
    forall i, j | 0 <= i < j < |all| ensures Rank(all[i]) < Rank(all[j]) {
      assert all[i] == RuleOfRank(i) && all[j] == RuleOfRank(j);
    }
  }

  /** The matches of a list of rules. */
  function Reported(ids: seq<PatternId>, s: Signals): (r: seq<Match>)
    ensures |r| == |ids|
    ensures forall i :: 0 <= i < |r| ==> r[i] == RuleMatch(ids[i], s)
  {
    if |ids| == 0 then [] else [RuleMatch(ids[0], s)] + Reported(ids[1..], s)
  }

  /** The match of every rule in a set, in rule order. */
  function Report(fired: set<PatternId>, s: Signals): (r: seq<Match>)
    ensures |r| <= |AllPatterns()|
  {
    Reported(Filter(AllPatterns(), fired), s)
  }

  /** Every match reported is the match of a rule in the set ... */
  lemma ReportSound(fired: set<PatternId>, s: Signals)
    ensures var r := Report(fired, s);
      forall i :: 0 <= i < |r| ==> r[i].id in fired && r[i] == RuleMatch(r[i].id, s)
  {
    var ids := Filter(AllPatterns(), fired);
    assert forall i :: 0 <= i < |ids| ==> Report(fired, s)[i].id == ids[i];
  }

  /** ... every rule in the set is reported ... */
  lemma ReportComplete(fired: set<PatternId>, s: Signals)
    ensures var r := Report(fired, s);
      forall id :: id in fired ==> exists i :: 0 <= i < |r| && r[i].id == id
  {
    AllPatternsRanked();
    var ids := Filter(AllPatterns(), fired);
    var r := Report(fired, s);
    forall id | id in fired ensures exists i :: 0 <= i < |r| && r[i].id == id {
      var k := IndexIn(ids, id);
      assert r[k].id == id;
    }
  }

  /** ... in rule order, so each at most once ... */
  lemma ReportOrdered(fired: set<PatternId>, s: Signals)
    ensures var r := Report(fired, s);
      forall i, j :: 0 <= i < j < |r| ==> Rank(r[i].id) < Rank(r[j].id)
  {
    AllPatternsRanked();
    var ids := Filter(AllPatterns(), fired);
    AllPatternsInOrder();
    FilterOrdered(AllPatterns(), fired, Rank);
    var r := Report(fired, s);
    assert r == Reported(ids, s);
    forall i, j | 0 <= i < j < |r| ensures Rank(r[i].id) < Rank(r[j].id) {
      assert r[i].id == ids[i] && r[j].id == ids[j];
    }
  }

  /** ... and nothing is reported exactly when the set is empty. */
  lemma ReportEmpty(fired: set<PatternId>, s: Signals)
    ensures |Report(fired, s)| == 0 <==> fired == {}
  {
    ReportSound(fired, s);
    ReportComplete(fired, s);
    var r := Report(fired, s);
    assert |r| > 0 ==> r[0].id in fired;
  }

  /** The match of every rule that fires. */
  function Matches(s: Signals): seq<Match> {
    Report(Fired(s), s)
  }

  /** Every match reported is that of a rule that fires; every rule that
      fires is reported, once, in rule order; and nothing is reported
      exactly when no rule fires. */
  lemma MatchesFired(s: Signals)
    ensures var r := Matches(s);
      && (forall i :: 0 <= i < |r| ==> Fires(r[i].id, s) && r[i] == RuleMatch(r[i].id, s))
      && (forall id :: Fires(id, s) ==> exists i :: 0 <= i < |r| && r[i].id == id)
      && (forall i, j :: 0 <= i < j < |r| ==> Rank(r[i].id) < Rank(r[j].id))
      && (|r| == 0 <==> forall id :: !Fires(id, s))
  {
    ReportSound(Fired(s), s);
    ReportComplete(Fired(s), s);
    ReportOrdered(Fired(s), s);
    ReportEmpty(Fired(s), s);
  }

  /** `_apply_diagnostic_patterns`. */
  function ApplyPatterns(metrics: Metrics, traps: seq<TrapAnalysis>): seq<Match> {
    Matches(SignalsOf(metrics.byType, traps))
  }

  /** The position of an element of a list. */
  function IndexIn(ids: seq<PatternId>, id: PatternId): (i: nat)
    requires id in ids
    ensures i < |ids| && ids[i] == id
  {
    if ids[0] == id then 0 else 1 + IndexIn(ids[1..], id)
  }

  /** The rules that read one question type's weakness as two different
      failures never fire together. */
  lemma ExclusiveRules(s: Signals)
    ensures !(Fires(FL01, s) && Fires(FL02, s))
    ensures !(Fires(RH02, s) && Fires(RH04, s))
    ensures !(Fires(RH03, s) && Fires(RH04, s))
    ensures !(Fires(Cross02, s) && (Fires(FL01, s) || Fires(FL02, s)))
    ensures !(Fires(ABS01, s) && Fires(FL01, s))
  {
  }

  /** A type's accuracy is its share of correct answers, and 1.0 for a type
      not asked. */
  lemma {:induction false} QtAccuracyOfAnswers(answers: seq<EvalAnswer>, t: QType)
    ensures QtAccuracy(ByType(answers), t) ==
      if TypeTotal(answers, t) == 0 then 1.0 else TypeCorrect(answers, t) as real / TypeTotal(answers, t) as real
  {
    ByTypePresence(answers, t);
    ByTypeTotal(answers, t);
    ByTypeCorrect(answers, t);
  }

  /** With every answer correct, each type's count of correct answers is its
      count of answers. */
  lemma {:induction false} AllCorrectTypeCounts(answers: seq<EvalAnswer>, t: QType)
    requires forall i :: 0 <= i < |answers| ==> answers[i].isCorrect
    ensures TypeCorrect(answers, t) == TypeTotal(answers, t)
  {
    if |answers| > 0 {
      AllCorrectTypeCounts(answers[..|answers| - 1], t);
    }
  }

  /** With every answer correct, every type's accuracy is 1.0 ... */
  lemma {:induction false} AllCorrectAccuracy(answers: seq<EvalAnswer>, t: QType)
    requires forall i :: 0 <= i < |answers| ==> answers[i].isCorrect
    ensures QtAccuracy(ByType(answers), t) == 1.0
  {
    var found := Tallies.Lookup(ByType(answers), t);
    if found.Some? {
      AllCorrectTally(answers, t);
      FullAccuracy(found.value);
    }
  }

  /** With every answer correct, a type's tally, if any, has all its
      answers correct. */
  lemma {:induction false} AllCorrectTally(answers: seq<EvalAnswer>, t: QType)
    requires forall i :: 0 <= i < |answers| ==> answers[i].isCorrect
    ensures var found := Tallies.Lookup(ByType(answers), t);
      found.Some? ==> 0 < found.value.total == found.value.correct
  {
    ByTypePresence(answers, t);
    ByTypeTotal(answers, t);
    ByTypeCorrect(answers, t);
    AllCorrectTypeCounts(answers, t);
  }

  /** A tally with every answer correct has accuracy 1.0. */
  lemma FullAccuracy<K>(tally: Tallies.Tally<K>)
    requires 0 < tally.total == tally.correct
    ensures Tallies.Accuracy(tally) == 1.0
  {
    Numerics.MulDivCancel(tally.total as real, 1.0);
  }

  /** ... and no type is weak. */
  lemma {:induction false} AllCorrectNoWeakType(answers: seq<EvalAnswer>)
    requires forall i :: 0 <= i < |answers| ==> answers[i].isCorrect
    ensures WeakTypeCount(ByType(answers)) == 0
  {
    var table := ByType(answers);
    forall i | 0 <= i < |table| ensures Tallies.Accuracy(table[i]) == 1.0 {
      ByTypeShape(answers);
      Tallies.LookupEntry(table, i);
      AllCorrectAccuracy(answers, table[i].key);
    }
    NoWeakTypes(table);
  }

  lemma {:induction false} NoWeakTypes(table: Tallies.Table<QType>)
    requires forall i :: 0 <= i < |table| ==> Tallies.Accuracy(table[i]) == 1.0
    ensures WeakTypeCount(table) == 0
  {
    if |table| > 0 {
      NoWeakTypes(table[1..]);
    }
  }

  /** Signals with every accuracy perfect and no weak type or trap. */
  predicate Perfect(s: Signals) {
    && s.mainPoint == s.role == s.mustBeTrue == s.sufficient == s.necessary == 1.0
    && s.flaw == s.weaken == s.strengthen == s.mostStrongly == s.parallel == 1.0
    && s.parallelFlaw == s.reasoningMethod == 1.0
    && s.weakTypes == s.conclusionConfusion == s.tooStrongOnNecessary == s.tooWeakOnSufficient == 0
  }

  /** No rule fires on perfect signals. */
  lemma PerfectNoMatches(s: Signals)
    requires Perfect(s)
    ensures |Matches(s)| == 0
  {
    MatchesFired(s);
    forall id ensures !Fires(id, s) {
      match id
      case S01 => case S02 => case FL01 => case FL02 => case FL05 =>
      case RH01 => case RH02 => case RH03 => case RH04 =>
      case ABS01 => case ABS02 => case Cross01 => case Cross02 => case Cross03 =>
    }
  }

  /** Every rule needs a wrong answer: when all answers are correct, no
      rule fires, whatever was asked. */
  lemma {:induction false} AllCorrectNoPatterns(answers: seq<EvalAnswer>)
    requires forall i :: 0 <= i < |answers| ==> answers[i].isCorrect
    ensures |ApplyPatterns(ComputeMetrics(answers), AnalyzeTraps(answers))| == 0
  {
    forall t ensures QtAccuracy(ByType(answers), t) == 1.0 {
      AllCorrectAccuracy(answers, t);
    }
    AllCorrectNoWeakType(answers);
    TrapsIgnoreCorrect(answers);
    assert Wrong(answers) == [] by {
      CorrectPlusWrong(answers);
      AllCorrectCount(answers);
    }
    PerfectNoMatches(SignalsOf(ByType(answers), []));
  }

  lemma {:induction false} AllCorrectCount(answers: seq<EvalAnswer>)
    requires forall i :: 0 <= i < |answers| ==> answers[i].isCorrect
    ensures CorrectAnswers(answers) == |answers|
  {
    if |answers| > 0 {
      AllCorrectCount(answers[..|answers| - 1]);
    }
  }

  /** A single wrong Main Point answer: Main Point at accuracy 0, every
      other type unasked (so at 1.0), one weak type and one conclusion
      confusion. */
  lemma OneWrongMainPointSignals()
    ensures var answers := [EvalAnswer(false, MainPoint)];
      SignalsOf(ComputeMetrics(answers).byType, AnalyzeTraps(answers))
        == Signals(0.0, 1.0, 1.0, 1.0, 1.0, 1.0, 1.0, 1.0, 1.0, 1.0, 1.0, 1.0, 1, 1, 0, 0)
  {
    var answers := [EvalAnswer(false, MainPoint)];
    assert answers[..0] == [];
    assert ByType(answers) == [Tallies.Tally(MainPoint, 0, 1)];
    assert AnalyzeTraps(answers) == [Wrongs(MainPoint, [Tallies.Tally(ConclusionConfusion, 0, 1)], 1)];
  }

  /** On those signals exactly the conclusion rule and the trap rule fire,
      the first with medium confidence (the role type was not asked, so it
      counts as strong). */
  lemma OneWrongMainPoint()
    ensures var s := Signals(0.0, 1.0, 1.0, 1.0, 1.0, 1.0, 1.0, 1.0, 1.0, 1.0, 1.0, 1.0, 1, 1, 0, 0);
      && (forall id :: Fires(id, s) <==> id == S01 || id == S02)
      && RuleMatch(S01, s).confidence == MediumConfidence
  {
    var s := Signals(0.0, 1.0, 1.0, 1.0, 1.0, 1.0, 1.0, 1.0, 1.0, 1.0, 1.0, 1.0, 1, 1, 0, 0);
    forall id ensures Fires(id, s) <==> id == S01 || id == S02 {
    }
  }
}
