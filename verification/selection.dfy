/** `select_modules_for_week`: the eligible modules, scored against a sampled
    parameter vector, ranked, picked greedily under a time budget, a
    diversity rule and a cap, topped up to two, plus a diagnostic module
    every third week. The Thompson draw is an input. */
module Selection {
  import opened Wrappers
  import opened LinAlg
  import opened Modules
  import opened Features
  import opened Ranking

  const FoundationPhase: string := "foundation"
  const PracticePhase: string := "practice"
  const MasteryPhase: string := "mastery"

  const DefaultTimeBudget: int := 300
  /** The greedy scan stops once this many modules are chosen. */
  const MaxPicks: nat := 5
  /** Below this many, the diversity rule is not enforced and the top-up applies. */
  const MinPicks: nat := 2
  /** The share of a module's target skills that may already be covered. */
  const OverlapLimit: real := 0.7
  const DiagnosticPeriod: int := 3

  /** A module is a candidate for the phase: it lists the phase, is not yet
      completed, and all its prerequisites are completed. */
  predicate Eligible(m: Module, phase: string, completed: set<string>) {
    phase in m.phaseSuitability && m.id !in completed && CheckPrerequisites(m, completed)
  }

  /** The eligible modules, in library order. */
  function Candidates(library: seq<Module>, phase: string, completed: set<string>): (c: seq<Module>)
    ensures |c| <= |library|
    ensures forall m :: m in c <==> m in library && Eligible(m, phase, completed)
  {
    if |library| == 0 then []
    else
      var rest := Candidates(library[1..], phase, completed);
      assert forall m :: m in library <==> m == library[0] || m in library[1..];
      if Eligible(library[0], phase, completed) then [library[0]] + rest else rest
  }

  datatype PlanError =
    | FeatureFailure(cause: FeatureError)         // `construct_features` raised
    | SampleDimension(expected: nat, actual: nat)  // `np.dot` of vectors of different lengths

  /** `np.dot(theta_sample, construct_features(...))`. */
  function ScoreOne(m: Module, theta: seq<real>, mastery: seq<real>, phase: string, week: int): (r: Result<real, PlanError>)
    ensures r.Ok? <==> ConstructFeatures(m, mastery, phase, week).Ok? && |theta| == Dimension
    ensures r.Ok? ==> r.value == Dot(theta, ConstructFeatures(m, mastery, phase, week).value)
  {
    match ConstructFeatures(m, mastery, phase, week)
    case Err(e) => Err(FeatureFailure(e))
    case Ok(f) => if |theta| != |f| then Err(SampleDimension(|f|, |theta|)) else Ok(Dot(theta, f))
  }

  /** The expected reward of each candidate, in order; the first failure is the error. */
  function Scores(cands: seq<Module>, theta: seq<real>, mastery: seq<real>, phase: string, week: int)
    : (r: Result<seq<real>, PlanError>)
    ensures r.Ok? <==> forall i :: 0 <= i < |cands| ==> ScoreOne(cands[i], theta, mastery, phase, week).Ok?
    ensures r.Ok? ==> |r.value| == |cands|
    ensures r.Ok? ==> forall i :: 0 <= i < |cands| ==> ScoreOne(cands[i], theta, mastery, phase, week) == Ok(r.value[i])
  {
    MapResult(cands, m => ScoreOne(m, theta, mastery, phase, week))
  }

  /** The candidates in stable descending score order. */
  function RankedCandidates(cands: seq<Module>, scores: seq<real>): (ranked: seq<Module>)
    requires |scores| == |cands|
    ensures |ranked| == |cands|
    ensures forall p :: 0 <= p < |ranked| ==> ranked[p] == cands[Rank(scores)[p]]
    ensures forall m :: m in ranked <==> m in cands
  {
    var order := Rank(scores);
    var ranked := seq(|order|, p requires 0 <= p < |order| => cands[order[p]]);
    forall m | m in cands ensures m in ranked {
      var i :| 0 <= i < |cands| && cands[i] == m;
      assert i in order;
      var p :| 0 <= p < |order| && order[p] == i;
      assert ranked[p] == m;
    }
    ranked
  }

  /** The scores in the same order: non-increasing. */
  function RankedScores(scores: seq<real>): (s: seq<real>)
    ensures |s| == |scores|
    ensures forall p :: 0 <= p < |s| ==> s[p] == scores[Rank(scores)[p]]
    ensures forall p, q :: 0 <= p < q < |s| ==> s[p] >= s[q]
  {
    var order := Rank(scores);
    seq(|order|, p requires 0 <= p < |order| => scores[order[p]])
  }

  /** The positions of the `true` entries of a decision sequence, ascending. */
  function PicksOf(taken: seq<bool>): (p: seq<nat>)
    ensures |p| <= |taken|
    ensures forall k :: 0 <= k < |p| ==> p[k] < |taken| && taken[p[k]]
    ensures forall k, l :: 0 <= k < l < |p| ==> p[k] < p[l]
  {
    if |taken| == 0 then []
    else
      var n := |taken| - 1;
      var prev := PicksOf(taken[..n]);
      if taken[n] then prev + [n] else prev
  }

  /** The modules a decision sequence over the ranked candidates chooses, in scan order. */
  function Chosen(ranked: seq<Module>, taken: seq<bool>): seq<Module>
    requires |taken| <= |ranked|
  {
    if |taken| == 0 then []
    else
      var n := |taken| - 1;
      Chosen(ranked, taken[..n]) + (if taken[n] then [ranked[n]] else [])
  }

  lemma ChosenSnoc(ranked: seq<Module>, taken: seq<bool>, b: bool)
    requires |taken| < |ranked|
    ensures Chosen(ranked, taken + [b]) == Chosen(ranked, taken) + (if b then [ranked[|taken|]] else [])
  {
    assert (taken + [b])[..|taken|] == taken;
  }

  /** The chosen modules are the ranked candidates at the taken positions. */
  lemma {:induction false} ChosenAtPicks(ranked: seq<Module>, taken: seq<bool>)
    requires |taken| <= |ranked|
    ensures |Chosen(ranked, taken)| == |PicksOf(taken)|
    ensures forall k :: 0 <= k < |PicksOf(taken)| ==> Chosen(ranked, taken)[k] == ranked[PicksOf(taken)[k]]
  {
    if |taken| > 0 {
      ChosenAtPicks(ranked, taken[..|taken| - 1]);
    }
  }

  function TotalMinutes(ms: seq<Module>): int {
    if |ms| == 0 then 0 else TotalMinutes(ms[..|ms| - 1]) + ms[|ms| - 1].estimatedMinutes
  }

  function SkillSet(skills: seq<string>): (s: set<string>)
    ensures forall x :: x in s <==> x in skills
  {
    set x | x in skills
  }

  /** The target skills of the chosen modules. */
  function CoveredSkills(ms: seq<Module>): (s: set<string>)
    ensures forall k, x :: 0 <= k < |ms| && x in ms[k].targetSkills ==> x in s
  {
    if |ms| == 0 then {} else CoveredSkills(ms[..|ms| - 1]) + SkillSet(ms[|ms| - 1].targetSkills)
  }

  /** More than 70% of the module's (distinct) target skills are already covered. */
  predicate TooMuchOverlap(m: Module, covered: set<string>) {
    var skills := SkillSet(m.targetSkills);
    (|skills * covered| as real) > OverlapLimit * (|skills| as real)
  }

  /** The scan takes m after `picked` when it fits the remaining budget and,
      once two modules are chosen, does not overlap them too much. */
  predicate Admits(picked: seq<Module>, m: Module, budget: int) {
    && TotalMinutes(picked) + m.estimatedMinutes <= budget
    && (|picked| < MinPicks || !TooMuchOverlap(m, CoveredSkills(picked)))
  }

  /** The greedy rule, stated on the decisions taken so far: every position
      was reached with fewer than five chosen, and was taken exactly when the
      rule admits it after the modules chosen before it. */
  predicate Follows(ranked: seq<Module>, budget: int, taken: seq<bool>) {
    |taken| <= |ranked| &&
    forall j :: 0 <= j < |taken| ==>
      && |Chosen(ranked, taken[..j])| < MaxPicks
      && (taken[j] <==> Admits(Chosen(ranked, taken[..j]), ranked[j], budget))
  }

  lemma FollowsPrefix(ranked: seq<Module>, budget: int, taken: seq<bool>, n: nat)
    requires Follows(ranked, budget, taken) && n <= |taken|
    ensures Follows(ranked, budget, taken[..n])
  {
    assert forall j :: 0 <= j < n ==> taken[..n][..j] == taken[..j] && taken[..n][j] == taken[j];
  }

  /** The scan loop: consider each ranked candidate in turn, stopping after the fifth pick. */
  function Scan(ranked: seq<Module>, budget: int, taken: seq<bool>): (t: seq<bool>)
    requires Follows(ranked, budget, taken)
    ensures Follows(ranked, budget, t) && taken <= t
    ensures |t| == |ranked| || |Chosen(ranked, t)| >= MaxPicks
    decreases |ranked| - |taken|
  {
    if |taken| == |ranked| || |Chosen(ranked, taken)| >= MaxPicks then taken
    else
      var next := taken + [Admits(Chosen(ranked, taken), ranked[|taken|], budget)];
      FollowsExtend(ranked, budget, taken);
      Scan(ranked, budget, next)
  }

  /** One more step of the scan keeps to the rule. */
  lemma FollowsExtend(ranked: seq<Module>, budget: int, taken: seq<bool>)
    requires Follows(ranked, budget, taken)
    requires |taken| < |ranked| && |Chosen(ranked, taken)| < MaxPicks
    ensures Follows(ranked, budget, taken + [Admits(Chosen(ranked, taken), ranked[|taken|], budget)])
  {
    var next := taken + [Admits(Chosen(ranked, taken), ranked[|taken|], budget)];
    assert forall j :: 0 <= j <= |taken| ==> next[..j] == taken[..j];
  }

  /** Whatever follows the rule never chooses more than five modules. */
  lemma PicksCapped(ranked: seq<Module>, budget: int, taken: seq<bool>)
    requires Follows(ranked, budget, taken)
    ensures |Chosen(ranked, taken)| <= MaxPicks
  {
    if |taken| > 0 {
      var n := |taken| - 1;
      var prefix := taken[..n];
      assert |Chosen(ranked, prefix)| < MaxPicks;
      assert taken == prefix + [taken[n]];
      ChosenSnoc(ranked, prefix, taken[n]);
    }
  }

  /** Whatever follows the rule stays within the time budget. */
  lemma {:induction false} PicksWithinBudget(ranked: seq<Module>, budget: int, taken: seq<bool>)
    requires Follows(ranked, budget, taken)
    ensures |Chosen(ranked, taken)| > 0 ==> TotalMinutes(Chosen(ranked, taken)) <= budget
    decreases |taken|
  {
    if |taken| > 0 {
      var n := |taken| - 1;
      var prefix := taken[..n];
      FollowsPrefix(ranked, budget, taken, n);
      PicksWithinBudget(ranked, budget, prefix);
      assert taken == prefix + [taken[n]];
      ChosenSnoc(ranked, prefix, taken[n]);
      var before := Chosen(ranked, prefix);
      if taken[n] {
        var after := before + [ranked[n]];
        assert Chosen(ranked, taken) == after;
        assert after[..|before|] == before;
        assert TotalMinutes(after) == TotalMinutes(before) + ranked[n].estimatedMinutes;
        assert Admits(Chosen(ranked, taken[..n]), ranked[n], budget);
      } else {
        assert before + [] == before;
      }
    }
  }

  /** The rule determines the decisions: two sequences of the same length
      that both follow it are equal. */
  lemma {:induction false} FollowsUnique(ranked: seq<Module>, budget: int, t1: seq<bool>, t2: seq<bool>)
    requires Follows(ranked, budget, t1) && Follows(ranked, budget, t2) && |t1| == |t2|
    ensures t1 == t2
    decreases |t1|
  {
    if |t1| > 0 {
      var n := |t1| - 1;
      FollowsPrefix(ranked, budget, t1, n);
      FollowsPrefix(ranked, budget, t2, n);
      FollowsUnique(ranked, budget, t1[..n], t2[..n]);
      assert t1[n] == t2[n];
      assert t1 == t1[..n] + [t1[n]] && t2 == t2[..n] + [t2[n]];
    }
  }

  /** The greedy pick over ranked candidates, before the top-up. */
  function Greedy(ranked: seq<Module>, budget: int): (g: seq<Module>)
    ensures |g| <= MaxPicks
    ensures |g| > 0 ==> TotalMinutes(g) <= budget
    ensures forall m :: m in g ==> m in ranked
  {
    var t := Scan(ranked, budget, []);
    PicksCapped(ranked, budget, t);
    PicksWithinBudget(ranked, budget, t);
    ChosenAtPicks(ranked, t);
    Chosen(ranked, t)
  }

  /** The greedy pick keeps the ranking's order: its scores are non-increasing. */
  lemma GreedyInScoreOrder(cands: seq<Module>, scores: seq<real>, budget: int)
    requires |scores| == |cands|
    ensures var ranked := RankedCandidates(cands, scores);
      var p := PicksOf(Scan(ranked, budget, []));
      && Greedy(ranked, budget) == seq(|p|, k requires 0 <= k < |p| => ranked[p[k]])
      && forall k, l :: 0 <= k < l < |p| ==> RankedScores(scores)[p[k]] >= RankedScores(scores)[p[l]]
  {
    var ranked := RankedCandidates(cands, scores);
    ChosenAtPicks(ranked, Scan(ranked, budget, []));
  }

  /** The top-up: fewer than two picks but at least two candidates means the
      two best-ranked candidates, whatever the budget and overlap. */
  function Choose(ranked: seq<Module>, budget: int): (chosen: seq<Module>)
    ensures |ranked| >= MinPicks ==> MinPicks <= |chosen|
    ensures |chosen| <= MaxPicks
    ensures forall m :: m in chosen ==> m in ranked
    ensures |Greedy(ranked, budget)| < MinPicks && |ranked| >= MinPicks ==> chosen == ranked[..MinPicks]
    ensures |Greedy(ranked, budget)| >= MinPicks || |ranked| < MinPicks ==> chosen == Greedy(ranked, budget)
  {
    var g := Greedy(ranked, budget);
    if |g| < MinPicks && |ranked| >= MinPicks then ranked[..MinPicks] else g
  }

  /** The two top-ranked candidates beat every other one: a higher score, or
      the same score and an earlier library position. */
  lemma TopTwoAreBest(cands: seq<Module>, scores: seq<real>, i: nat)
    requires |scores| == |cands| && i < |cands| && |cands| >= MinPicks
    requires i != Rank(scores)[0] && i != Rank(scores)[1]
    ensures Precedes(Plain(scores), Rank(scores)[0], Rank(scores)[1]) && Precedes(Plain(scores), Rank(scores)[1], i)
  {
    var order := Rank(scores);
    assert i in order;
    var p :| 0 <= p < |order| && order[p] == i;
  }

  /** `get_diagnostic_module`'s phase table. */
  function DiagnosticId(phase: string): (id: Option<string>)
    ensures phase == FoundationPhase ==> id == Some("DIAGNOSTIC-WEEK-3")
    ensures phase == PracticePhase ==> id == Some("DIAGNOSTIC-WEEK-6")
    ensures phase == MasteryPhase ==> id == Some("DIAGNOSTIC-WEEK-9")
    ensures id.Some? <==> phase == FoundationPhase || phase == PracticePhase || phase == MasteryPhase
  {
    if phase == FoundationPhase then Some("DIAGNOSTIC-WEEK-3")
    else if phase == PracticePhase then Some("DIAGNOSTIC-WEEK-6")
    else if phase == MasteryPhase then Some("DIAGNOSTIC-WEEK-9")
    else None
  }

  /** The phase's diagnostic module from the library, when both exist. */
  function DiagnosticModule(library: seq<Module>, phase: string): (r: Option<Module>)
    ensures r.Some? ==> DiagnosticId(phase).Some? && r.value.id == DiagnosticId(phase).value && r.value in library
    ensures DiagnosticId(phase).Some? ==>
      (r.None? <==> forall k :: 0 <= k < |library| ==> library[k].id != DiagnosticId(phase).value)
  {
    match DiagnosticId(phase)
    case None => None
    case Some(id) =>
      var r := GetModuleById(library, id);
      assert r.Some? ==> library[FirstIndexWithId(library, id)] in library;
      r
  }

  /** One week's selection: the modules chosen from the candidates, then the
      diagnostic module when one is added. */
  datatype WeekPlan = WeekPlan(chosen: seq<Module>, diagnostic: Option<Module>) {
    function All(): seq<Module> {
      chosen + (if diagnostic.Some? then [diagnostic.value] else [])
    }
  }

  function SelectModulesForWeek(week: int, phase: string, mastery: seq<real>, theta: seq<real>,
                                library: seq<Module>, completed: set<string>, budget: int)
    : (r: Result<WeekPlan, PlanError>)
    ensures |Candidates(library, phase, completed)| == 0 ==> r == Ok(WeekPlan([], None))
    ensures r.Err? ==> Scores(Candidates(library, phase, completed), theta, mastery, phase, week).Err?
    ensures r.Ok? ==> forall m :: m in r.value.chosen ==> m in library && Eligible(m, phase, completed)
    ensures r.Ok? ==> |r.value.chosen| <= MaxPicks && |r.value.All()| <= MaxPicks + 1
    ensures r.Ok? && |Candidates(library, phase, completed)| >= MinPicks ==> |r.value.chosen| >= MinPicks
    ensures r.Ok? && r.value.diagnostic.Some? ==> week % DiagnosticPeriod == 0
    ensures r.Ok? && |Candidates(library, phase, completed)| > 0 ==>
      r.value.diagnostic == (if week % DiagnosticPeriod == 0 then DiagnosticModule(library, phase) else None)
  {
    var cands := Candidates(library, phase, completed);
    if |cands| == 0 then Ok(WeekPlan([], None))
    else
      var scores :- Scores(cands, theta, mastery, phase, week);
      var chosen := Choose(RankedCandidates(cands, scores), budget);
      var diagnostic := if week % DiagnosticPeriod == 0 then DiagnosticModule(library, phase) else None;
      Ok(WeekPlan(chosen, diagnostic))
  }
}
