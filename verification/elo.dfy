/** The multi-skill Elo ledger: a user holds one rating per skill, a question
    carries weighted skills and a base difficulty plus a clamped learned
    offset, and one response moves every rating the question touches. */
module Elo {
  import opened Numerics
  import opened Wrappers

  const DefaultRating: real := 1500.0
  const BaseKUser: real := 40.0
  const BaseKQuestion: real := 20.0
  const EloScale: real := 400.0
  const DeltaBound: real := 100.0

  type SkillId = string

  datatype SkillRating = SkillRating(rating: real, numUpdates: nat)
  datatype QuestionSkill = QuestionSkill(skillId: SkillId, weight: real)
  datatype Question = Question(id: int, baseDifficulty: real, skills: seq<QuestionSkill>)
  datatype QuestionRating = QuestionRating(questionId: int, delta: real, numUpdates: nat)

  /** A user's ratings, keyed by skill. */
  type Ratings = map<SkillId, SkillRating>

  /** One line of the debugging report: a skill's rating before and after. */
  datatype SkillUpdate = SkillUpdate(skillId: SkillId, before: real, after: real, weight: real, kFactor: real, amount: real)

  datatype QuestionUpdate = QuestionUpdate(kFactor: real, newDelta: real)

  /** What `update_elo` reports. The optional parts are absent when the
      question has no skills and the update returns early. */
  datatype Report = Report(
    actual: int,
    skillUpdates: seq<SkillUpdate>,
    effectiveRating: Option<real>,
    difficulty: Option<real>,
    expected: Option<real>,
    delta: Option<real>,
    questionUpdate: Option<QuestionUpdate>)

  /** The ledger after one response: new ratings, the question's rating record and the report. */
  datatype Outcome = Outcome(ratings: Ratings, questionRating: Option<QuestionRating>, report: Report)

  /** The one failure: a skill of the question has no rating (a KeyError in the source). */
  datatype EloError = MissingRating(skillId: SkillId)

  /** Probability of a correct response: 1 / (1 + 10^((D - R) / 400)). */
  function ExpectedScore(pow10: real -> real, userRating: real, difficulty: real): (p: real)
    requires Pow10Laws(pow10)
    ensures 0.0 < p < 1.0
    ensures userRating > difficulty ==> p > 0.5
    ensures userRating < difficulty ==> p < 0.5
  {
    var e := pow10((difficulty - userRating) / EloScale);
    assert userRating > difficulty ==> e < 1.0 by {
      assert pow10(0.0) == 1.0;
      if userRating > difficulty {
        assert (difficulty - userRating) / EloScale < 0.0;
      }
    }
    assert userRating < difficulty ==> e > 1.0 by {
      assert pow10(0.0) == 1.0;
      if userRating < difficulty {
        assert (difficulty - userRating) / EloScale > 0.0;
      }
    }
    1.0 / (1.0 + e)
  }

  /** Equal rating and difficulty give even odds. */
  lemma ExpectedScoreEven(pow10: real -> real, x: real)
    requires Pow10Laws(pow10)
    ensures ExpectedScore(pow10, x, x) == 0.5
  {
    assert (x - x) / EloScale == 0.0;
  }

  /** The user's and the question's expectations against each other sum to one. */
  lemma ExpectedScoreSymmetric(pow10: real -> real, a: real, b: real)
    requires Pow10Laws(pow10)
    ensures ExpectedScore(pow10, a, b) + ExpectedScore(pow10, b, a) == 1.0
  {
    var x := pow10((b - a) / EloScale);
    var y := pow10((a - b) / EloScale);
    assert (b - a) / EloScale + (a - b) / EloScale == 0.0;
    assert x * y == 1.0;
    assert x > 0.0 && y > 0.0;
    calc {
      1.0 / (1.0 + x) + 1.0 / (1.0 + y);
      ((1.0 + y) + (1.0 + x)) / ((1.0 + x) * (1.0 + y));
      { assert (1.0 + x) * (1.0 + y) == 2.0 + x + y; }
      (2.0 + x + y) / (2.0 + x + y);
      1.0;
    }
  }

  /** K-factor that decays with experience: base / sqrt(n + 1). */
  function AdaptiveK(sqrt: real -> real, baseK: real, numUpdates: nat): (k: real)
    requires SqrtLaws(sqrt)
    ensures baseK > 0.0 ==> 0.0 < k <= baseK
    ensures baseK == 0.0 ==> k == 0.0
  {
    var s := sqrt(numUpdates as real + 1.0);
    SqrtAtLeastOne(sqrt, numUpdates as real + 1.0);
    baseK / s
  }

  lemma SqrtAtLeastOne(sqrt: real -> real, x: real)
    requires SqrtLaws(sqrt)
    requires x >= 1.0
    ensures sqrt(x) >= 1.0
  {
    if x > 1.0 {
      assert sqrt(1.0) < sqrt(x);
    }
  }

  /** A fresh skill learns at the full base rate. */
  lemma AdaptiveKFirstUpdate(sqrt: real -> real, baseK: real)
    requires SqrtLaws(sqrt)
    ensures AdaptiveK(sqrt, baseK, 0) == baseK
  {
    assert 0 as real + 1.0 == 1.0;
  }

  /** With a positive base, more updates give a strictly smaller K-factor. */
  lemma AdaptiveKDecreasing(sqrt: real -> real, baseK: real, m: nat, n: nat)
    requires SqrtLaws(sqrt)
    requires baseK > 0.0 && m < n
    ensures AdaptiveK(sqrt, baseK, n) < AdaptiveK(sqrt, baseK, m)
  {
    var sm := sqrt(m as real + 1.0);
    var sn := sqrt(n as real + 1.0);
    SqrtAtLeastOne(sqrt, m as real + 1.0);
    assert sm < sn;
    assert AdaptiveK(sqrt, baseK, n) == baseK / sn;
    assert AdaptiveK(sqrt, baseK, m) == baseK / sm;
    DivStrictlyAntitone(baseK, sm, sn);
  }

  /** The difficulty a response is scored against: base plus the learned offset, or the base alone. */
  function EffectiveDifficulty(q: Question, qr: Option<QuestionRating>): (d: real)
    ensures qr.None? ==> d == q.baseDifficulty
    ensures qr.Some? ==> d - qr.value.delta == q.baseDifficulty
  {
    q.baseDifficulty + (if qr.Some? then qr.value.delta else 0.0)
  }

  function SkillIds(skills: seq<QuestionSkill>): (ids: seq<SkillId>)
    ensures |ids| == |skills|
    ensures forall k :: 0 <= k < |skills| ==> ids[k] == skills[k].skillId
  {
    seq(|skills|, k requires 0 <= k < |skills| => skills[k].skillId)
  }

  predicate AllRated(ratings: Ratings, skills: seq<QuestionSkill>) {
    forall k :: 0 <= k < |skills| ==> skills[k].skillId in ratings
  }

  predicate PositiveWeights(skills: seq<QuestionSkill>) {
    forall k :: 0 <= k < |skills| ==> skills[k].weight > 0.0
  }

  /** How many of the question's skill entries name `id`. */
  function Occurrences(skills: seq<QuestionSkill>, id: SkillId): (n: nat)
    ensures n <= |skills|
    ensures n == 0 <==> id !in SkillIds(skills)
  {
    if |skills| == 0 then 0
    else (if skills[0].skillId == id then 1 else 0) + Occurrences(skills[1..], id)
  }

  /** R_eff = sum of weight * rating over the question's skills. */
  function EffectiveRating(ratings: Ratings, skills: seq<QuestionSkill>): real
    requires AllRated(ratings, skills)
  {
    if |skills| == 0 then 0.0
    else skills[0].weight * ratings[skills[0].skillId].rating + EffectiveRating(ratings, skills[1..])
  }

  lemma SkillIdsTail(skills: seq<QuestionSkill>)
    requires |skills| > 0
    ensures SkillIds(skills) == [skills[0].skillId] + SkillIds(skills[1..])
  {
  }

  /** One skill entry's effect: `rating += K * weight * delta` with K = 40 / sqrt(n + 1), and `num_updates += 1`. */
  function StepRating(sqrt: real -> real, usr: SkillRating, weight: real, delta: real): (r: SkillRating)
    requires SqrtLaws(sqrt)
    ensures r.numUpdates == usr.numUpdates + 1
    ensures delta > 0.0 && weight > 0.0 ==> r.rating > usr.rating
    ensures delta < 0.0 && weight > 0.0 ==> r.rating < usr.rating
    ensures delta == 0.0 || weight == 0.0 ==> r.rating == usr.rating
  {
    var k := AdaptiveK(sqrt, BaseKUser, usr.numUpdates);
    assert delta > 0.0 && weight > 0.0 ==> k * weight * delta > 0.0;
    assert delta < 0.0 && weight > 0.0 ==> k * weight * delta < 0.0;
    SkillRating(usr.rating + k * weight * delta, usr.numUpdates + 1)
  }

  /** The ledger after applying `StepRating` to each skill entry in order
      (a repeated skill is updated once per entry, reading its updated record). */
  function ApplySkillUpdates(sqrt: real -> real, ratings: Ratings, skills: seq<QuestionSkill>, delta: real): (res: (Ratings, seq<SkillUpdate>))
    requires SqrtLaws(sqrt)
    requires AllRated(ratings, skills)
    ensures res.0.Keys == ratings.Keys
    ensures |res.1| == |skills|
    ensures forall k :: 0 <= k < |skills| ==> res.1[k].skillId == skills[k].skillId && res.1[k].weight == skills[k].weight
    ensures forall k :: 0 <= k < |skills| ==> res.1[k].after == res.1[k].before + res.1[k].amount
  {
    if |skills| == 0 then (ratings, [])
    else
      var qs := skills[0];
      var usr := ratings[qs.skillId];
      var next := StepRating(sqrt, usr, qs.weight, delta);
      var rest := ApplySkillUpdates(sqrt, ratings[qs.skillId := next], skills[1..], delta);
      var line := SkillUpdate(qs.skillId, usr.rating, next.rating, qs.weight,
                              AdaptiveK(sqrt, BaseKUser, usr.numUpdates), next.rating - usr.rating);
      (rest.0, [line] + rest.1)
  }

  /** A skill the question does not name keeps its record. */
  lemma {:induction false} ApplyKeepsUntouched(sqrt: real -> real, ratings: Ratings, skills: seq<QuestionSkill>, delta: real, id: SkillId)
    requires SqrtLaws(sqrt) && AllRated(ratings, skills)
    requires id in ratings && id !in SkillIds(skills)
    ensures ApplySkillUpdates(sqrt, ratings, skills, delta).0[id] == ratings[id]
  {
    if |skills| > 0 {
      SkillIdsTail(skills);
      var qs := skills[0];
      var ratings1 := ratings[qs.skillId := StepRating(sqrt, ratings[qs.skillId], qs.weight, delta)];
      ApplyKeepsUntouched(sqrt, ratings1, skills[1..], delta, id);
    }
  }

  /** Every skill's update count grows by the number of entries naming it. */
  lemma {:induction false} ApplyCountsUpdates(sqrt: real -> real, ratings: Ratings, skills: seq<QuestionSkill>, delta: real, id: SkillId)
    requires SqrtLaws(sqrt) && AllRated(ratings, skills)
    requires id in ratings
    ensures ApplySkillUpdates(sqrt, ratings, skills, delta).0[id].numUpdates == ratings[id].numUpdates + Occurrences(skills, id)
  {
    if |skills| > 0 {
      var qs := skills[0];
      var ratings1 := ratings[qs.skillId := StepRating(sqrt, ratings[qs.skillId], qs.weight, delta)];
      ApplyCountsUpdates(sqrt, ratings1, skills[1..], delta, id);
    }
  }

  /** With positive weights, a positive surprise never lowers a rating and
      strictly raises every named one; a negative surprise is the mirror image. */
  lemma {:induction false} ApplyDirection(sqrt: real -> real, ratings: Ratings, skills: seq<QuestionSkill>, delta: real, id: SkillId)
    requires SqrtLaws(sqrt) && AllRated(ratings, skills) && PositiveWeights(skills)
    requires id in ratings
    ensures var r := ApplySkillUpdates(sqrt, ratings, skills, delta).0[id].rating;
      && (delta > 0.0 ==> r >= ratings[id].rating && (id in SkillIds(skills) ==> r > ratings[id].rating))
      && (delta < 0.0 ==> r <= ratings[id].rating && (id in SkillIds(skills) ==> r < ratings[id].rating))
  {
    if |skills| > 0 {
      SkillIdsTail(skills);
      var qs := skills[0];
      var ratings1 := ratings[qs.skillId := StepRating(sqrt, ratings[qs.skillId], qs.weight, delta)];
      ApplyDirection(sqrt, ratings1, skills[1..], delta, id);
    }
  }

  /** A skill named by exactly one entry moves by exactly K * weight * delta
      computed from its own record. */
  lemma {:induction false} ApplySingleEntry(sqrt: real -> real, ratings: Ratings, skills: seq<QuestionSkill>, delta: real, k: nat)
    requires SqrtLaws(sqrt) && AllRated(ratings, skills)
    requires k < |skills| && Occurrences(skills, skills[k].skillId) == 1
    ensures var id := skills[k].skillId;
      ApplySkillUpdates(sqrt, ratings, skills, delta).0[id] == StepRating(sqrt, ratings[id], skills[k].weight, delta)
  {
    var id := skills[k].skillId;
    var qs := skills[0];
    var ratings1 := ratings[qs.skillId := StepRating(sqrt, ratings[qs.skillId], qs.weight, delta)];
    SkillIdsTail(skills);
    if k == 0 {
      assert Occurrences(skills[1..], id) == 0;
      ApplyKeepsUntouched(sqrt, ratings1, skills[1..], delta, id);
    } else {
      assert skills[1..][k - 1].skillId == id;
      assert SkillIds(skills[1..])[k - 1] == id;
      assert Occurrences(skills[1..], id) >= 1;
      assert qs.skillId != id;
      ApplySingleEntry(sqrt, ratings1, skills[1..], delta, k - 1);
    }
  }

  /** The question's rating after one response: a record is created at delta 0
      when none exists, and the new delta `old - K_q * (S - P)` is clamped to
      [-100, 100]. */
  function UpdateQuestionRating(sqrt: real -> real, q: Question, qr: Option<QuestionRating>, delta: real): (res: (QuestionRating, QuestionUpdate))
    requires SqrtLaws(sqrt)
    ensures -DeltaBound <= res.0.delta <= DeltaBound
    ensures res.0.delta == res.1.newDelta
    ensures qr.Some? ==> res.0.questionId == qr.value.questionId && res.0.numUpdates == qr.value.numUpdates + 1
    ensures qr.None? ==> res.0.questionId == q.id && res.0.numUpdates == 1
    ensures qr.Some? && -DeltaBound <= qr.value.delta <= DeltaBound ==>
      (delta > 0.0 ==> res.0.delta <= qr.value.delta) && (delta < 0.0 ==> res.0.delta >= qr.value.delta)
  {
    var cur := qr.GetOr(QuestionRating(q.id, 0.0, 0));
    var kq := AdaptiveK(sqrt, BaseKQuestion, cur.numUpdates);
    var newDelta := Clamp(cur.delta - kq * delta, -DeltaBound, DeltaBound);
    (QuestionRating(cur.questionId, newDelta, cur.numUpdates + 1), QuestionUpdate(kq, newDelta))
  }

  /** Index of the first skill entry without a rating: where the source's lookup raises. */
  function FirstUnrated(ratings: Ratings, skills: seq<QuestionSkill>): (k: nat)
    requires !AllRated(ratings, skills)
    ensures k < |skills| && skills[k].skillId !in ratings
    ensures forall j :: 0 <= j < k ==> skills[j].skillId in ratings
  {
    if skills[0].skillId !in ratings then 0
    else 1 + FirstUnrated(ratings, skills[1..])
  }

  /** `update_elo`: score the response against the question's effective
      difficulty and move every touched rating (and, when asked, the
      question's offset). */
  function UpdateElo(pow10: real -> real, sqrt: real -> real, ratings: Ratings, q: Question,
                     qr: Option<QuestionRating>, isCorrect: bool, updateQuestion: bool): (r: Result<Outcome, EloError>)
    requires Pow10Laws(pow10) && SqrtLaws(sqrt)
    ensures |q.skills| == 0 ==>
      r == Ok(Outcome(ratings, qr, Report(if isCorrect then 1 else 0, [], None, None, None, None, None)))
    ensures r.Err? <==> !AllRated(ratings, q.skills)
    ensures r.Err? ==> r.error.skillId in SkillIds(q.skills) && r.error.skillId !in ratings
    ensures r.Ok? ==> r.value.ratings.Keys == ratings.Keys && |r.value.report.skillUpdates| == |q.skills|
    ensures r.Ok? && (!updateQuestion || |q.skills| == 0) ==> r.value.questionRating == qr && r.value.report.questionUpdate.None?
    ensures r.Ok? && updateQuestion && |q.skills| > 0 ==>
      r.value.questionRating.Some? && -DeltaBound <= r.value.questionRating.value.delta <= DeltaBound
    ensures r.Ok? && |q.skills| > 0 ==>
      && r.value.report.effectiveRating == Some(EffectiveRating(ratings, q.skills))
      && r.value.report.difficulty == Some(EffectiveDifficulty(q, qr))
      && r.value.report.expected.Some? && 0.0 < r.value.report.expected.value < 1.0
      && r.value.report.delta == Some((if isCorrect then 1.0 else 0.0) - r.value.report.expected.value)
  {
    var score := if isCorrect then 1.0 else 0.0;
    var actual := if isCorrect then 1 else 0;
    if |q.skills| == 0 then
      Ok(Outcome(ratings, qr, Report(actual, [], None, None, None, None, None)))
    else if !AllRated(ratings, q.skills) then
      Err(MissingRating(q.skills[FirstUnrated(ratings, q.skills)].skillId))
    else
      var rEff := EffectiveRating(ratings, q.skills);
      var d := EffectiveDifficulty(q, qr);
      var p := ExpectedScore(pow10, rEff, d);
      var delta := score - p;
      var applied := ApplySkillUpdates(sqrt, ratings, q.skills, delta);
      if updateQuestion then
        var qu := UpdateQuestionRating(sqrt, q, qr, delta);
        Ok(Outcome(applied.0, Some(qu.0), Report(actual, applied.1, Some(rEff), Some(d), Some(p), Some(delta), Some(qu.1))))
      else
        Ok(Outcome(applied.0, qr, Report(actual, applied.1, Some(rEff), Some(d), Some(p), Some(delta), None)))
  }

  /** The surprise S - P of a response, as `update_elo` computes it. */
  function Surprise(pow10: real -> real, ratings: Ratings, q: Question, qr: Option<QuestionRating>, isCorrect: bool): (delta: real)
    requires Pow10Laws(pow10) && AllRated(ratings, q.skills)
    ensures isCorrect ==> 0.0 < delta < 1.0
    ensures !isCorrect ==> -1.0 < delta < 0.0
  {
    (if isCorrect then 1.0 else 0.0) - ExpectedScore(pow10, EffectiveRating(ratings, q.skills), EffectiveDifficulty(q, qr))
  }

  /** On a rated question with skills, the new ledger is the sequential update
      driven by the response's surprise. */
  lemma UpdateEloRatings(pow10: real -> real, sqrt: real -> real, ratings: Ratings, q: Question,
                         qr: Option<QuestionRating>, isCorrect: bool, updateQuestion: bool)
    requires Pow10Laws(pow10) && SqrtLaws(sqrt)
    requires AllRated(ratings, q.skills) && |q.skills| > 0
    ensures var r := UpdateElo(pow10, sqrt, ratings, q, qr, isCorrect, updateQuestion);
      r.Ok? && r.value.ratings == ApplySkillUpdates(sqrt, ratings, q.skills, Surprise(pow10, ratings, q, qr, isCorrect)).0
  {
  }

  /** Skills the question does not name keep their ratings and counts, and every
      named skill's count grows by the number of entries naming it. */
  lemma UpdateBookkeeping(pow10: real -> real, sqrt: real -> real, ratings: Ratings, q: Question,
                          qr: Option<QuestionRating>, isCorrect: bool, updateQuestion: bool, id: SkillId)
    requires Pow10Laws(pow10) && SqrtLaws(sqrt)
    requires AllRated(ratings, q.skills) && id in ratings
    ensures var r := UpdateElo(pow10, sqrt, ratings, q, qr, isCorrect, updateQuestion);
      && r.Ok?
      && r.value.ratings[id].numUpdates == ratings[id].numUpdates + Occurrences(q.skills, id)
      && (id !in SkillIds(q.skills) ==> r.value.ratings[id] == ratings[id])
  {
    if |q.skills| > 0 {
      var delta := Surprise(pow10, ratings, q, qr, isCorrect);
      UpdateEloRatings(pow10, sqrt, ratings, q, qr, isCorrect, updateQuestion);
      ApplyCountsUpdates(sqrt, ratings, q.skills, delta, id);
      if id !in SkillIds(q.skills) {
        ApplyKeepsUntouched(sqrt, ratings, q.skills, delta, id);
      }
    }
  }

  /** A skill named once moves by exactly K * w * (S - P), K = 40 / sqrt(n_old + 1). */
  lemma UpdateSingleSkill(pow10: real -> real, sqrt: real -> real, ratings: Ratings, q: Question,
                          qr: Option<QuestionRating>, isCorrect: bool, updateQuestion: bool, k: nat)
    requires Pow10Laws(pow10) && SqrtLaws(sqrt)
    requires AllRated(ratings, q.skills)
    requires k < |q.skills| && Occurrences(q.skills, q.skills[k].skillId) == 1
    ensures var id := q.skills[k].skillId;
      var r := UpdateElo(pow10, sqrt, ratings, q, qr, isCorrect, updateQuestion);
      && r.Ok?
      && r.value.ratings[id] == StepRating(sqrt, ratings[id], q.skills[k].weight, Surprise(pow10, ratings, q, qr, isCorrect))
  {
    UpdateEloRatings(pow10, sqrt, ratings, q, qr, isCorrect, updateQuestion);
    ApplySingleEntry(sqrt, ratings, q.skills, Surprise(pow10, ratings, q, qr, isCorrect), k);
  }

  /** A correct answer never lowers a rating and strictly raises every named
      one when all weights are positive; an incorrect answer is the mirror image. */
  lemma ResponseDirection(pow10: real -> real, sqrt: real -> real, ratings: Ratings, q: Question,
                          qr: Option<QuestionRating>, isCorrect: bool, updateQuestion: bool, id: SkillId)
    requires Pow10Laws(pow10) && SqrtLaws(sqrt)
    requires AllRated(ratings, q.skills) && PositiveWeights(q.skills) && id in ratings
    ensures var r := UpdateElo(pow10, sqrt, ratings, q, qr, isCorrect, updateQuestion);
      && r.Ok?
      && (isCorrect ==> r.value.ratings[id].rating >= ratings[id].rating)
      && (!isCorrect ==> r.value.ratings[id].rating <= ratings[id].rating)
      && (id in SkillIds(q.skills) && isCorrect ==> r.value.ratings[id].rating > ratings[id].rating)
      && (id in SkillIds(q.skills) && !isCorrect ==> r.value.ratings[id].rating < ratings[id].rating)
  {
    if |q.skills| > 0 {
      UpdateEloRatings(pow10, sqrt, ratings, q, qr, isCorrect, updateQuestion);
      ApplyDirection(sqrt, ratings, q.skills, Surprise(pow10, ratings, q, qr, isCorrect), id);
    }
  }

  /** On one record, a heavier weight gives a strictly larger move for any non-zero surprise. */
  lemma StepHeavierMovesMore(sqrt: real -> real, usr: SkillRating, wa: real, wb: real, delta: real)
    requires SqrtLaws(sqrt)
    requires wa > wb > 0.0 && delta != 0.0
    ensures Abs(StepRating(sqrt, usr, wa, delta).rating - usr.rating) > Abs(StepRating(sqrt, usr, wb, delta).rating - usr.rating)
  {
    var k := AdaptiveK(sqrt, BaseKUser, usr.numUpdates);
    var ka, kb := wa * k, wb * k;
    MulStrictRight(wb, wa, k);
    MulStrictRight(0.0, wb, k);
    var ma := StepRating(sqrt, usr, wa, delta).rating - usr.rating;
    var mb := StepRating(sqrt, usr, wb, delta).rating - usr.rating;
    assert ma == ka * delta && mb == kb * delta;
    MulStrictRight(kb, ka, delta);
    MulStrictRight(0.0, kb, delta);
  }

  /** With equal starting records, the skill weighted more heavily moves
      strictly further on any response. */
  lemma HeavierWeightMovesMore(pow10: real -> real, sqrt: real -> real, ratings: Ratings, q: Question,
                               qr: Option<QuestionRating>, isCorrect: bool, i: nat, j: nat)
    requires Pow10Laws(pow10) && SqrtLaws(sqrt)
    requires AllRated(ratings, q.skills)
    requires i < |q.skills| && j < |q.skills|
    requires Occurrences(q.skills, q.skills[i].skillId) == 1 && Occurrences(q.skills, q.skills[j].skillId) == 1
    requires ratings[q.skills[i].skillId] == ratings[q.skills[j].skillId]
    requires q.skills[i].weight > q.skills[j].weight > 0.0
    ensures var r := UpdateElo(pow10, sqrt, ratings, q, qr, isCorrect, false);
      var a := q.skills[i].skillId;
      var b := q.skills[j].skillId;
      r.Ok? && Abs(r.value.ratings[a].rating - ratings[a].rating) > Abs(r.value.ratings[b].rating - ratings[b].rating)
  {
    var delta := Surprise(pow10, ratings, q, qr, isCorrect);
    UpdateSingleSkill(pow10, sqrt, ratings, q, qr, isCorrect, false, i);
    UpdateSingleSkill(pow10, sqrt, ratings, q, qr, isCorrect, false, j);
    StepHeavierMovesMore(sqrt, ratings[q.skills[i].skillId], q.skills[i].weight, q.skills[j].weight, delta);
  }

  /** The question's offset changes only when asked, and then lands in [-100, 100];
      an unexpected success makes a question easier, never harder. */
  lemma QuestionDeltaOnlyWhenAsked(pow10: real -> real, sqrt: real -> real, ratings: Ratings, q: Question,
                                   qr: Option<QuestionRating>, isCorrect: bool, updateQuestion: bool)
    requires Pow10Laws(pow10) && SqrtLaws(sqrt)
    requires AllRated(ratings, q.skills) && |q.skills| > 0
    requires qr.Some? ==> -DeltaBound <= qr.value.delta <= DeltaBound
    ensures var r := UpdateElo(pow10, sqrt, ratings, q, qr, isCorrect, updateQuestion);
      && r.Ok?
      && (!updateQuestion ==> r.value.questionRating == qr)
      && (updateQuestion ==> r.value.questionRating.Some? && -DeltaBound <= r.value.questionRating.value.delta <= DeltaBound)
      && (updateQuestion && isCorrect && qr.Some? ==> r.value.questionRating.value.delta <= qr.value.delta)
      && (updateQuestion && !isCorrect && qr.Some? ==> r.value.questionRating.value.delta >= qr.value.delta)
  {
    var delta := Surprise(pow10, ratings, q, qr, isCorrect);
  }

  /** The worked example: weights 0.6 and 0.4 on ratings 1500 and 1450 give R_eff = 1480. */
  lemma WorkedExampleEffectiveRating()
    ensures var ratings := map["LR-06" := SkillRating(1500.0, 10), "LR-03" := SkillRating(1450.0, 5)];
      EffectiveRating(ratings, [QuestionSkill("LR-06", 0.6), QuestionSkill("LR-03", 0.4)]) == 1480.0
  {
  }
}
