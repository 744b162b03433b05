/** Plan control around the weekly selection: which phase a week is in, when
    the stored phase moves on, planning and replanning a range of weeks, the
    week-complete test, the weekly adaptation step and loading the bandit. */
module Planner {
  import opened Wrappers
  import opened Numerics
  import opened LinAlg
  import opened Modules
  import opened Features
  import opened Phases
  import opened Reward
  import opened Bandit
  import opened Selection

  /** The phase of a week (weeks count from 1): Foundation up to N1, Practice
      up to N1 + N2, Mastery after. */
  function PhaseOfWeek(week: int, a: Allocation): (phase: string)
    ensures phase == FoundationPhase <==> week <= a.foundation
    ensures phase == PracticePhase <==> a.foundation < week <= a.foundation + a.practice
    ensures phase == MasteryPhase <==> a.foundation < week && a.foundation + a.practice < week
  {
    if week <= a.foundation then FoundationPhase
    else if week <= a.foundation + a.practice then PracticePhase
    else MasteryPhase
  }

  /** How many of the weeks 1..n fall in the phase. */
  function WeeksIn(a: Allocation, phase: string, n: nat): nat {
    if n == 0 then 0 else WeeksIn(a, phase, n - 1) + (if PhaseOfWeek(n, a) == phase then 1 else 0)
  }

  lemma {:induction false} WeeksInPrefix(a: Allocation, n: nat)
    requires a.foundation >= 0 && a.practice >= 0
    ensures WeeksIn(a, FoundationPhase, n) == MinInt(n, a.foundation)
    ensures WeeksIn(a, PracticePhase, n) == MaxInt(0, MinInt(n, a.foundation + a.practice) - a.foundation)
    ensures WeeksIn(a, MasteryPhase, n) == MaxInt(0, n - a.foundation - a.practice)
  {
    if n > 0 {
      WeeksInPrefix(a, n - 1);
    }
  }

  /** Over a plan as long as the allocation, each phase gets exactly its weeks. */
  lemma PlanGivesEachPhaseItsWeeks(a: Allocation, totalWeeks: nat)
    requires a.foundation >= 0 && a.practice >= 0 && a.mastery >= 0 && a.Total() == totalWeeks
    ensures WeeksIn(a, FoundationPhase, totalWeeks) == a.foundation
    ensures WeeksIn(a, PracticePhase, totalWeeks) == a.practice
    ensures WeeksIn(a, MasteryPhase, totalWeeks) == a.mastery
  {
    WeeksInPrefix(a, totalWeeks);
  }

  /** The phase change after a completed week: Practice after week N1, else
      Mastery after week N1 + N2. */
  function Transition(completedWeek: int, a: Allocation): (next: Option<string>)
    ensures next.Some? <==> completedWeek == a.foundation || completedWeek == a.foundation + a.practice
    ensures completedWeek == a.foundation ==> next == Some(PracticePhase)
  {
    if completedWeek == a.foundation then Some(PracticePhase)
    else if completedWeek == a.foundation + a.practice then Some(MasteryPhase)
    else None
  }

  /** With a non-empty Practice phase, a transition fires exactly when the
      next week's phase differs, and it names that phase. */
  lemma TransitionMatchesPhases(w: int, a: Allocation)
    requires a.practice > 0
    ensures Transition(w, a).Some? <==> PhaseOfWeek(w + 1, a) != PhaseOfWeek(w, a)
    ensures Transition(w, a).Some? ==> Transition(w, a).value == PhaseOfWeek(w + 1, a)
  {
  }

  /** The stored phase after weeks 1..w have been completed, starting from
      Foundation. */
  function StoredPhase(a: Allocation, w: nat): string {
    if w == 0 then FoundationPhase else Transition(w, a).GetOr(StoredPhase(a, w - 1))
  }

  /** With non-empty Foundation and Practice phases, the stored phase is
      always the phase of the week being studied. */
  lemma {:induction false} StoredPhaseTracksWeeks(a: Allocation, w: nat)
    requires a.foundation > 0 && a.practice > 0
    ensures StoredPhase(a, w) == PhaseOfWeek(w + 1, a)
  {
    if w > 0 {
      StoredPhaseTracksWeeks(a, w - 1);
      TransitionMatchesPhases(w, a);
    }
  }

  function Ids(ms: seq<Module>): (ids: set<string>)
    ensures forall m :: m in ms ==> m.id in ids
  {
    set m | m in ms :: m.id
  }

  /** The completed set after planning some weeks: every selected module,
      diagnostic included, counts as completed. */
  function CompletedAfter(completed: set<string>, plans: seq<WeekPlan>): (c: set<string>)
    ensures completed <= c
    ensures forall i, m :: 0 <= i < |plans| && m in plans[i].All() ==> m.id in c
    decreases |plans|
  {
    if |plans| == 0 then completed
    else
      var c := CompletedAfter(completed + Ids(plans[0].All()), plans[1..]);
      assert forall i :: 1 <= i < |plans| ==> plans[i] == plans[1..][i - 1];
      c
  }

  /** Planning one more week first shifts the completed sets of the rest. */
  lemma CompletedAfterShift(completed: set<string>, plan: WeekPlan, rest: seq<WeekPlan>)
    ensures CompletedAfter(completed, ([plan] + rest)[..0]) == completed
    ensures forall i :: 1 <= i <= |rest| ==>
      && CompletedAfter(completed, ([plan] + rest)[..i]) == CompletedAfter(completed + Ids(plan.All()), rest[..i - 1])
      && ([plan] + rest)[i] == rest[i - 1]
  {
    var plans := [plan] + rest;
    forall i | 1 <= i <= |rest|
      ensures CompletedAfter(completed, plans[..i]) == CompletedAfter(completed + Ids(plan.All()), rest[..i - 1])
    {
      assert plans[..i][0] == plan && plans[..i][1..] == rest[..i - 1];
    }
  }

  /** One week's selection as a function of the week and the completed set. */
  type WeekSelector = (int, set<string>) -> Result<WeekPlan, PlanError>

  /** `select_modules_for_week` for the week's phase, its own Thompson draw
      `samples(w)`, the library and a budget. */
  function WeeklySelector(a: Allocation, mastery: seq<real>, samples: int -> seq<real>, library: seq<Module>,
                          budget: int): WeekSelector
  {
    (w: int, c: set<string>) => SelectModulesForWeek(w, PhaseOfWeek(w, a), mastery, samples(w), library, c, budget)
  }

  /** Plan the weeks first..last in order, each from the completed set the
      earlier weeks left behind. */
  function PlanWeeks(first: int, last: int, select: WeekSelector, completed: set<string>)
    : (r: Result<seq<WeekPlan>, PlanError>)
    ensures r.Ok? ==> |r.value| == (if first <= last then last - first + 1 else 0)
    decreases if first <= last then last - first + 1 else 0
  {
    if first > last then Ok([])
    else
      var plan :- select(first, completed);
      var rest :- PlanWeeks(first + 1, last, select, completed + Ids(plan.All()));
      Ok([plan] + rest)
  }

  /** Week first + i is the selection made from the completed set the
      earlier planned weeks left behind. */
  ghost predicate PlannedAs(first: int, select: WeekSelector, completed: set<string>, plans: seq<WeekPlan>) {
    forall i :: 0 <= i < |plans| ==> select(first + i, CompletedAfter(completed, plans[..i])) == Ok(plans[i])
  }

  lemma {:induction false} PlanWeeksSelects(first: int, last: int, select: WeekSelector, completed: set<string>)
    requires PlanWeeks(first, last, select, completed).Ok?
    ensures PlannedAs(first, select, completed, PlanWeeks(first, last, select, completed).value)
    decreases if first <= last then last - first + 1 else 0
  {
    if first <= last {
      var plan := select(first, completed).value;
      var completed' := completed + Ids(plan.All());
      PlanWeeksSelects(first + 1, last, select, completed');
      var rest := PlanWeeks(first + 1, last, select, completed').value;
      var plans := [plan] + rest;
      assert PlanWeeks(first, last, select, completed).value == plans;
      CompletedAfterShift(completed, plan, rest);
      forall i | 0 <= i < |plans|
        ensures select(first + i, CompletedAfter(completed, plans[..i])) == Ok(plans[i])
      {
        if i > 0 {
          assert first + i == (first + 1) + (i - 1);
        }
      }
    }
  }

  /** The selector never chooses a module that is already completed. */
  ghost predicate ChoosesFresh(select: WeekSelector) {
    forall w, c, m :: select(w, c).Ok? && m in select(w, c).value.chosen ==> m.id !in c
  }

  lemma WeeklySelectorChoosesFresh(a: Allocation, mastery: seq<real>, samples: int -> seq<real>,
                                   library: seq<Module>, budget: int)
    ensures ChoosesFresh(WeeklySelector(a, mastery, samples, library, budget))
  {
    var select := WeeklySelector(a, mastery, samples, library, budget);
    forall w, c, m | select(w, c).Ok? && m in select(w, c).value.chosen ensures m.id !in c {
      var r := SelectModulesForWeek(w, PhaseOfWeek(w, a), mastery, samples(w), library, c, budget);
      assert select(w, c) == r;
      assert Eligible(m, PhaseOfWeek(w, a), c);
    }
  }

  /** Once a module is planned it is never chosen again for a later week, and
      nothing already completed is chosen. */
  lemma PlannedModulesNeverRepeat(first: int, last: int, select: WeekSelector, completed: set<string>)
    requires ChoosesFresh(select) && PlanWeeks(first, last, select, completed).Ok?
    ensures var plans := PlanWeeks(first, last, select, completed).value;
      && (forall i, m :: 0 <= i < |plans| && m in plans[i].chosen ==> m.id !in completed)
      && (forall i, j, m1, m2 :: 0 <= i < j < |plans| && m1 in plans[i].chosen && m2 in plans[j].chosen ==> m1.id != m2.id)
  {
    var plans := PlanWeeks(first, last, select, completed).value;
    PlanWeeksSelects(first, last, select, completed);
    forall i, m | 0 <= i < |plans| && m in plans[i].chosen ensures m.id !in CompletedAfter(completed, plans[..i]) {
      assert select(first + i, CompletedAfter(completed, plans[..i])) == Ok(plans[i]);
    }
    forall i, j, m1, m2 | 0 <= i < j < |plans| && m1 in plans[i].chosen && m2 in plans[j].chosen
      ensures m1.id != m2.id
    {
      assert plans[..j][i] == plans[i];
      assert m1 in plans[..j][i].All();
    }
  }

  /** `generate_adaptive_study_plan`'s weekly loop: weeks 1..total, nothing
      completed at the start, five hours a week. */
  function GeneratePlan(totalWeeks: int, a: Allocation, mastery: seq<real>, samples: int -> seq<real>,
                        library: seq<Module>): (r: Result<seq<WeekPlan>, PlanError>)
    ensures r.Ok? ==> |r.value| == MaxInt(0, totalWeeks)
    ensures r.Ok? ==> PlannedAs(1, WeeklySelector(a, mastery, samples, library, DefaultTimeBudget), {}, r.value)
  {
    var r := PlanWeeks(1, totalWeeks, WeeklySelector(a, mastery, samples, library, DefaultTimeBudget), {});
    if r.Ok? then
      PlanWeeksSelects(1, totalWeeks, WeeklySelector(a, mastery, samples, library, DefaultTimeBudget), {});
      r
    else r
  }

  /** `replan_future_weeks`: every week after the completed one, through the
      last, from the modules completed so far. */
  function ReplanFutureWeeks(currentWeek: int, totalWeeks: int, a: Allocation, mastery: seq<real>,
                             samples: int -> seq<real>, library: seq<Module>, completed: set<string>)
    : (r: Result<seq<WeekPlan>, PlanError>)
    ensures r.Ok? ==> |r.value| == MaxInt(0, totalWeeks - currentWeek)
    ensures r.Ok? ==> PlannedAs(currentWeek + 1, WeeklySelector(a, mastery, samples, library, DefaultTimeBudget), completed, r.value)
  {
    var select := WeeklySelector(a, mastery, samples, library, DefaultTimeBudget);
    var r := PlanWeeks(currentWeek + 1, totalWeeks, select, completed);
    if r.Ok? then
      PlanWeeksSelects(currentWeek + 1, totalWeeks, select, completed);
      r
    else r
  }

  const CompletedStatus: string := "completed"

  /** `SUM(CASE WHEN status = 'completed' THEN 1 ELSE 0 END)`. */
  function CompletedCount(statuses: seq<string>): (n: nat)
    ensures n <= |statuses|
    ensures n == |statuses| <==> forall i :: 0 <= i < |statuses| ==> statuses[i] == CompletedStatus
  {
    if |statuses| == 0 then 0
    else
      var rest := CompletedCount(statuses[1..]);
      assert forall i :: 1 <= i < |statuses| ==> statuses[i] == statuses[1..][i - 1];
      (if statuses[0] == CompletedStatus then 1 else 0) + rest
  }

  /** `is_week_complete` over the statuses of the week's tasks. */
  function IsWeekComplete(statuses: seq<string>): (done: bool)
    ensures done <==> |statuses| > 0 && forall i :: 0 <= i < |statuses| ==> statuses[i] == CompletedStatus
  {
    |statuses| > 0 && CompletedCount(statuses) == |statuses|
  }

  /** `get_modules_for_week` after the query: the library entries of the
      week's module ids, skipping ids the library lacks. */
  function ResolveModules(library: seq<Module>, ids: seq<string>): (ms: seq<Module>)
    ensures |ms| <= |ids|
    ensures forall m :: m in ms ==> m in library && m.id in ids
    ensures |ms| == 0 <==> forall i :: 0 <= i < |ids| ==> GetModuleById(library, ids[i]).None?
  {
    if |ids| == 0 then []
    else
      var rest := ResolveModules(library, ids[1..]);
      assert forall i :: 1 <= i < |ids| ==> ids[i] == ids[1..][i - 1];
      match GetModuleById(library, ids[0])
      case None => rest
      case Some(m) =>
        assert library[FirstIndexWithId(library, ids[0])] in library;
        [m] + rest
  }

  datatype AdaptationError =
    | WeekIncomplete(week: int)
    | NoModulesFound
    | ObservationFailure(cause: FeatureError)

  /** One module's reward and its context features at the start of the week. */
  function ObserveModule(m: Module, library: seq<Module>, before: seq<real>, after: seq<real>,
                         completionRate: real, phase: string, week: int)
    : (r: Result<(real, seq<real>), AdaptationError>)
    ensures r.Ok? <==> ComputeModuleReward(library, m.id, before, after, completionRate).Ok?
                       && ConstructFeatures(m, before, phase, week).Ok?
    ensures r.Ok? ==> Ok(r.value.0) == ComputeModuleReward(library, m.id, before, after, completionRate)
                      && Ok(r.value.1) == ConstructFeatures(m, before, phase, week)
  {
    match ComputeModuleReward(library, m.id, before, after, completionRate)
    case Err(e) => Err(ObservationFailure(e))
    case Ok(reward) =>
      match ConstructFeatures(m, before, phase, week)
      case Err(e) => Err(ObservationFailure(e))
      case Ok(f) => Ok((reward, f))
  }

  /** What a finished week reports: each module's reward and features (the
      batch the bandit is updated with), their average, and the phase the
      plan is in afterwards. */
  datatype Adaptation = Adaptation(rewards: seq<real>, features: seq<seq<real>>, averageReward: real,
                                   numModules: nat, nextPhase: string)

  /** `trigger_weekly_adaptation` up to the bandit update: refuse an
      unfinished week or one without modules, observe every module, and apply
      the phase transition. `rate(id)` is the module's completion rate. */
  function TriggerWeeklyAdaptation(week: int, statuses: seq<string>, moduleIds: seq<string>, library: seq<Module>,
                                   before: seq<real>, after: seq<real>, rate: string -> real,
                                   currentPhase: string, a: Allocation)
    : (r: Result<Adaptation, AdaptationError>)
    ensures !IsWeekComplete(statuses) ==> r == Err(WeekIncomplete(week))
    ensures IsWeekComplete(statuses) && |ResolveModules(library, moduleIds)| == 0 ==> r == Err(NoModulesFound)
    ensures r.Ok? ==> IsWeekComplete(statuses) && r.value.numModules == |ResolveModules(library, moduleIds)| > 0
    ensures r.Ok? ==> |r.value.rewards| == r.value.numModules && |r.value.features| == r.value.numModules
    ensures r.Ok? ==> forall i :: 0 <= i < |r.value.rewards| ==>
      RewardLow <= r.value.rewards[i] <= RewardHigh && |r.value.features[i]| == Dimension
    ensures r.Ok? ==> r.value.averageReward == Mean(r.value.rewards)
    ensures r.Ok? ==> RewardLow <= r.value.averageReward <= RewardHigh
    ensures r.Ok? ==> r.value.nextPhase == Transition(week, a).GetOr(currentPhase)
  {
    if !IsWeekComplete(statuses) then Err(WeekIncomplete(week))
    else
      var ms := ResolveModules(library, moduleIds);
      if |ms| == 0 then Err(NoModulesFound)
      else
        var obs :- MapResult(ms, (m: Module) => ObserveModule(m, library, before, after, rate(m.id), currentPhase, week));
        var rewards := seq(|obs|, i requires 0 <= i < |obs| => obs[i].0);
        var features := seq(|obs|, i requires 0 <= i < |obs| => obs[i].1);
        MeanWithin(rewards, RewardLow, RewardHigh);
        Ok(Adaptation(rewards, features, Mean(rewards), |ms|, Transition(week, a).GetOr(currentPhase)))
  }

  const PlannerDimension: nat := 100

  /** `load_bandit_model`: the stored model when there is one, otherwise a
      fresh 100-dimensional model with the standard prior. */
  function LoadBanditModel(stored: Option<BanditRecord>, inv: Inverse): (r: Result<LinearBandit, BanditError>)
    requires stored.Some? ==> RecordShaped(stored.value)
    ensures stored.Some? ==> r == FromDict(stored.value, inv)
    ensures stored.None? ==> (r.Ok? <==> inv(Identity(PlannerDimension)).Some?)
    ensures stored.None? && r.Ok? ==>
      && r.value.d == Dimension && r.value.numUpdates == 0 && r.value.sigmaSq == DefaultNoiseVariance
      && r.value.mu == Zeros(Dimension) && r.value.sigma == Identity(Dimension)
  {
    match stored
    case Some(rec) => FromDict(rec, inv)
    case None =>
      MatScaleOne(Identity(PlannerDimension));
      NewBandit(PlannerDimension, Some(Zeros(PlannerDimension)), Some(MatScale(1.0, Identity(PlannerDimension))),
                DefaultNoiseVariance, inv)
  }

  /** A model saved and loaded again comes back whole, provided its
      precision is the inverse of its covariance. */
  lemma LoadRestoresSaved(b: LinearBandit, inv: Inverse)
    requires WellShaped(b) && inv(b.sigma) == Some(b.sigmaInv)
    ensures LoadBanditModel(Some(ToDict(b)), inv) == Ok(b)
  {
    DictRoundTrip(b, inv);
  }
}
