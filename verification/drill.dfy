/** Drill practice: the time limit of a new drill, and the counts and
    per-skill tallies of a submitted drill. */
module Drill {
  import opened Wrappers
  import opened Numerics
  import opened Tallies

  const SecondsPerQuestion: int := 90

  /** The drill's `time_percentage`: "untimed", an integer percentage, or any
      other value (which the multiplier table does not know). */
  datatype TimeSetting = Untimed | Percent(p: int) | OtherSetting

  /** `TIMING_MULTIPLIERS.get(time_percentage, 1.0)`. */
  function Multiplier(t: TimeSetting): (m: real)
    ensures m > 0.0
    ensures t.Percent? && t.p == 70 ==> m == 0.7
    ensures t.Percent? && t.p == 130 ==> m == 1.3
    ensures !(t.Percent? && (t.p == 70 || t.p == 130)) ==> m == 1.0
  {
    match t
    case Percent(p) => if p == 70 then 0.7 else if p == 100 then 1.0 else if p == 130 then 1.3 else 1.0
    case _ => 1.0
  }

  /** The largest power of two that is at most x. */
  function FloorPowerOfTwo(x: nat): (r: nat)
    requires x >= 1
    ensures 1 <= r <= x < 2 * r
  {
    if x == 1 then 1 else 2 * FloorPowerOfTwo(x / 2)
  }

  /** Whether `int(k * 90 * 0.7)` in double arithmetic comes out one second
      below 63k. The double nearest 0.7 lies 0.4 * 2^-53 below it, so the
      exact product of 90k with it lies 36k * 2^-53 below 63k. Rounding it
      to a double gives 63k back unless that gap exceeds half the spacing of
      doubles next to 63k, which is 2^(E - 53) for the 2^E <= 63k < 2^(E + 1);
      otherwise the product is the double just below 63k and truncation drops
      to 63k - 1. So the shortfall happens exactly when 36k > 2^E. */
  predicate SeventyShortfall(k: nat) {
    k > 0 && 36 * k > FloorPowerOfTwo(63 * k)
  }

  /** `int(n * 90 * 0.7)` in double arithmetic, truncated toward zero. */
  function SeventyLimit(n: int): (limit: int)
    ensures n >= 0 ==> (limit == 63 * n - 1 <==> SeventyShortfall(n)) && (limit == 63 * n || limit == 63 * n - 1)
    ensures n < 0 ==> (limit == 63 * n + 1 <==> SeventyShortfall(-n)) && (limit == 63 * n || limit == 63 * n + 1)
  {
    var k := if n >= 0 then n else -n;
    var magnitude := 63 * k - (if SeventyShortfall(k) then 1 else 0);
    if n >= 0 then magnitude else -magnitude
  }

  /** `_compute_time_limit`: no limit for an untimed drill, otherwise
      `int(n * 90 * multiplier)`, truncated toward zero. The 100% and 130%
      products are exact enough that truncating the real product gives the
      source's value; the 70% product follows the double arithmetic, which
      can land one second short. */
  function TimeLimit(n: int, t: TimeSetting): (limit: Option<int>)
    ensures limit.None? <==> t == Untimed
    ensures limit.Some? && n >= 0 ==>
      0 <= limit.value && limit.value as real <= (n * SecondsPerQuestion) as real * Multiplier(t) < limit.value as real + 2.0
    ensures limit.Some? && t != Percent(70) && n >= 0 ==>
      limit.value as real <= (n * SecondsPerQuestion) as real * Multiplier(t) < limit.value as real + 1.0
    ensures t == Percent(70) && n >= 0 ==>
      (limit == Some(63 * n) || limit == Some(63 * n - 1)) && (limit == Some(63 * n - 1) <==> SeventyShortfall(n))
    ensures limit.Some? && Multiplier(t) == 1.0 ==> limit.value == n * SecondsPerQuestion
  {
    if t == Untimed then None
    else if t == Percent(70) then Some(SeventyLimit(n))
    else Some(TruncToInt((n * SecondsPerQuestion) as real * Multiplier(t)))
  }

  /** Five questions at the standard pace have seven and a half minutes. */
  lemma FiveQuestionsStandardPace()
    ensures TimeLimit(5, Percent(100)) == Some(450)
  {
  }

  /** At 70% one question gets 62 seconds and two get 125, a second short of
      63 and 126, while three and five get the full 189 and 315. */
  lemma SeventyPercentExamples()
    ensures TimeLimit(1, Percent(70)) == Some(62) && TimeLimit(2, Percent(70)) == Some(125)
    ensures TimeLimit(3, Percent(70)) == Some(189) && TimeLimit(5, Percent(70)) == Some(315)
  {
    assert FloorPowerOfTwo(63) == 32;
    assert FloorPowerOfTwo(126) == 64;
    assert FloorPowerOfTwo(189) == 128;
    assert FloorPowerOfTwo(315) == 256;
  }

  /** Doubling the question count doubles 63k and the power of two below
      it alike, so the shortfall at 70% repeats at 1, 2, 4, 8, ... */
  lemma ShortfallScaleFree(k: nat)
    requires k > 0
    ensures SeventyShortfall(2 * k) <==> SeventyShortfall(k)
  {
    assert FloorPowerOfTwo(63 * (2 * k)) == 2 * FloorPowerOfTwo(63 * k);
  }

  /** More questions never shorten the limit. */
  lemma TimeLimitMonotone(n1: int, n2: int, t: TimeSetting)
    requires 0 <= n1 <= n2 && t != Untimed
    ensures TimeLimit(n1, t).value <= TimeLimit(n2, t).value
  {
    if t != Percent(70) {
      var m := Multiplier(t);
      var x1 := (n1 * SecondsPerQuestion) as real * m;
      var x2 := (n2 * SecondsPerQuestion) as real * m;
      assert x1 <= x2 by {
        MulMonotone(m, (n1 * SecondsPerQuestion) as real, (n2 * SecondsPerQuestion) as real);
      }
    }
  }

  /** One submitted answer: `is_correct` (False when absent), `user_answer`
      (None when absent) and the question's skills. */
  datatype Answer = Answer(isCorrect: bool, userAnswer: Option<string>, skills: seq<string>)

  /** `answer.get('user_answer')` is truthy: present and non-empty. */
  predicate Answered(a: Answer) {
    a.userAnswer.Some? && a.userAnswer.value != ""
  }

  predicate IsIncorrect(a: Answer) { !a.isCorrect && Answered(a) }
  predicate IsSkipped(a: Answer) { !Answered(a) }

  function CorrectCount(answers: seq<Answer>): (n: nat)
    ensures n <= |answers|
    ensures n == 0 <==> forall i :: 0 <= i < |answers| ==> !(answers[i].isCorrect)
    ensures n == |answers| <==> forall i :: 0 <= i < |answers| ==> answers[i].isCorrect
  {
    if |answers| == 0 then 0 else CorrectCount(answers[1..]) + (if answers[0].isCorrect then 1 else 0)
  }

  function IncorrectCount(answers: seq<Answer>): (n: nat)
    ensures n <= |answers|
    ensures n == 0 <==> forall i :: 0 <= i < |answers| ==> !(IsIncorrect(answers[i]))
    ensures n == |answers| <==> forall i :: 0 <= i < |answers| ==> IsIncorrect(answers[i])
  {
    if |answers| == 0 then 0 else IncorrectCount(answers[1..]) + (if IsIncorrect(answers[0]) then 1 else 0)
  }

  function SkippedCount(answers: seq<Answer>): (n: nat)
    ensures n <= |answers|
    ensures n == 0 <==> forall i :: 0 <= i < |answers| ==> !(IsSkipped(answers[i]))
    ensures n == |answers| <==> forall i :: 0 <= i < |answers| ==> IsSkipped(answers[i])
  {
    if |answers| == 0 then 0 else SkippedCount(answers[1..]) + (if IsSkipped(answers[0]) then 1 else 0)
  }

  /** Answers flagged correct that carry no user answer. */
  function CorrectButBlank(answers: seq<Answer>): (n: nat)
    ensures n <= |answers|
    ensures n == 0 <==> forall i :: 0 <= i < |answers| ==> !(answers[i].isCorrect && !Answered(answers[i]))
    ensures n == |answers| <==> forall i :: 0 <= i < |answers| ==> answers[i].isCorrect && !Answered(answers[i])
  {
    if |answers| == 0 then 0 else CorrectButBlank(answers[1..]) + (if answers[0].isCorrect && !Answered(answers[0]) then 1 else 0)
  }

  /** Incorrect excludes skipped and correct, but correct and skipped can
      overlap: every answer is counted once, except a correct answer without
      a user answer, which is counted as both correct and skipped. */
  lemma {:induction false} CountsPartition(answers: seq<Answer>)
    ensures CorrectCount(answers) + IncorrectCount(answers) + SkippedCount(answers)
      == |answers| + CorrectButBlank(answers)
    ensures CorrectCount(answers) + IncorrectCount(answers) <= |answers|
    ensures IncorrectCount(answers) + SkippedCount(answers) <= |answers|
  {
    if |answers| > 0 {
      CountsPartition(answers[1..]);
    }
  }

  /** The double count happens: one correct answer with no user answer. */
  lemma CorrectBlankCountedTwice()
    ensures var a := [Answer(true, None, [])];
      CorrectCount(a) == 1 && SkippedCount(a) == 1 && IncorrectCount(a) == 0
  {
    var a := [Answer(true, None, [])];
    assert a[1..] == [];
  }

  /** `skill_performance` as an insertion-ordered list of per-skill tallies. */
  type Performance = Table<string>

  /** The `skill_performance` loop over all answers. */
  function SkillPerformance(answers: seq<Answer>): Performance {
    if |answers| == 0 then []
    else
      var last := answers[|answers| - 1];
      RecordAll(SkillPerformance(answers[..|answers| - 1]), last.skills, last.isCorrect)
  }

  /** How often the skill appears over all answers, and over the correct ones. */
  function SkillTotal(answers: seq<Answer>, skill: string): nat {
    if |answers| == 0 then 0
    else SkillTotal(answers[..|answers| - 1], skill) + Occurrences(answers[|answers| - 1].skills, skill)
  }

  function SkillCorrect(answers: seq<Answer>, skill: string): nat {
    if |answers| == 0 then 0
    else
      var last := answers[|answers| - 1];
      SkillCorrect(answers[..|answers| - 1], skill) + (if last.isCorrect then Occurrences(last.skills, skill) else 0)
  }

  /** `skill_performance` holds, for every skill that occurs on some answer
      and only for those, its number of occurrences and how many of them were
      on correct answers; so each skill's correct count is at most its total,
      and no skill has two tallies. */
  lemma {:induction false} SkillPerformanceCounts(answers: seq<Answer>, skill: string)
    ensures var perf := SkillPerformance(answers);
      && (Lookup(perf, skill).Some? <==> SkillTotal(answers, skill) > 0)
      && CorrectOf(perf, skill) == SkillCorrect(answers, skill)
      && TotalOf(perf, skill) == SkillTotal(answers, skill)
      && SkillCorrect(answers, skill) <= SkillTotal(answers, skill)
      && DistinctKeys(perf)
  {
    if |answers| > 0 {
      var n := |answers| - 1;
      var before := SkillPerformance(answers[..n]);
      assert SkillPerformance(answers) == RecordAll(before, answers[n].skills, answers[n].isCorrect);
      assert SkillTotal(answers, skill) == SkillTotal(answers[..n], skill) + Occurrences(answers[n].skills, skill);
      assert SkillCorrect(answers, skill) == SkillCorrect(answers[..n], skill)
        + (if answers[n].isCorrect then Occurrences(answers[n].skills, skill) else 0);
      SkillPerformanceCounts(answers[..n], skill);
      RecordAllPresence(before, answers[n].skills, answers[n].isCorrect, skill);
      RecordAllCorrect(before, answers[n].skills, answers[n].isCorrect, skill);
      RecordAllTotal(before, answers[n].skills, answers[n].isCorrect, skill);
      RecordAllDistinct(before, answers[n].skills, answers[n].isCorrect);
    }
  }

  /** The numbers `submit_drill_answers` reports. */
  datatype DrillResult = DrillResult(
    total: nat, correct: nat, incorrect: nat, skipped: nat,
    score: real, skillPerformance: Performance, feedback: Feedback)

  /** The two feedback messages: "Great job!" and "Keep practicing!". */
  datatype Feedback = GreatJob | KeepPracticing

  /** The percentage of correct answers, 0 for an empty drill. */
  function ScorePercentage(correct: nat, total: nat): (score: real)
    requires correct <= total
    ensures 0.0 <= score <= 100.0
    ensures total == 0 ==> score == 0.0
    ensures total > 0 ==> (score == 100.0 <==> correct == total)
    ensures total > 0 ==> score * total as real == 100.0 * correct as real
  {
    if total > 0 then (correct as real / total as real) * 100.0 else 0.0
  }

  /** `submit_drill_answers` without the database. */
  function SubmitDrillAnswers(answers: seq<Answer>): (r: DrillResult)
    ensures r.total == |answers| && r.correct <= r.total
    ensures r.correct + r.incorrect <= r.total && r.incorrect + r.skipped <= r.total
    ensures 0.0 <= r.score <= 100.0 && (r.total == 0 ==> r.score == 0.0)
    ensures r.feedback == GreatJob <==> r.score >= 80.0
  {
    CountsPartition(answers);
    var correct := CorrectCount(answers);
    var score := ScorePercentage(correct, |answers|);
    DrillResult(|answers|, correct, IncorrectCount(answers), SkippedCount(answers), score,
                SkillPerformance(answers), if score >= 80.0 then GreatJob else KeepPracticing)
  }
}
