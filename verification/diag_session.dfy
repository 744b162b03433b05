/** The adaptive diagnostic session as a state machine. Creating a session
    picks the first question; `process_answer` scores the current question,
    records the answer and advances; `complete_diagnostic` closes the session
    and summarises it. The session row is an in-memory record; the Elo update,
    the question bank and the generated ids are inputs. */
module DiagSession {
  import opened Wrappers
  import opened Numerics
  import opened Taxonomy
  import opened DiagConfig
  import Tallies
  import Text
  import Drill

  /** A skill resolves when the skill-id cache holds a non-empty database id
      for it (an empty id is falsy and skipped). */
  predicate Resolves(s: Skill, dbIds: map<Skill, string>) {
    s in dbIds && dbIds[s] != ""
  }

  /** The database ids of the skills that resolve, in order. */
  function ResolvedIds(skills: seq<Skill>, dbIds: map<Skill, string>): (ids: seq<string>)
    ensures |ids| <= |skills|
    ensures forall k :: 0 <= k < |ids| ==> ids[k] != ""
    ensures |ids| == 0 <==> forall j :: 0 <= j < |skills| ==> !Resolves(skills[j], dbIds)
  {
    if |skills| == 0 then []
    else
      var rest := ResolvedIds(skills[1..], dbIds);
      if Resolves(skills[0], dbIds) then [dbIds[skills[0]]] + rest else rest
  }

  /** A user's rating for a skill, `DEFAULT_ELO` when there is none. */
  function RatingOr(ratings: map<string, real>, id: string): real {
    if id in ratings then ratings[id] else DefaultElo
  }

  function RatingsOf(ids: seq<string>, ratings: map<string, real>): (xs: seq<real>)
    ensures |xs| == |ids|
    ensures forall k :: 0 <= k < |ids| ==> xs[k] == RatingOr(ratings, ids[k])
  {
    seq(|ids|, k requires 0 <= k < |ids| => RatingOr(ratings, ids[k]))
  }

  /** The average rating over the skills that resolve to a database id,
      `DEFAULT_ELO` when none does. */
  function MeanRating(skills: seq<Skill>, dbIds: map<Skill, string>, ratings: map<string, real>): (elo: real)
    ensures |ResolvedIds(skills, dbIds)| == 0 ==> elo == DefaultElo
    ensures var ids := ResolvedIds(skills, dbIds);
      |ids| > 0 ==> elo == Mean(RatingsOf(ids, ratings))
  {
    var ids := ResolvedIds(skills, dbIds);
    if |ids| == 0 then DefaultElo else Mean(RatingsOf(ids, ratings))
  }

  /** `get_user_effective_elo`: the mean rating over the question type's
      skills, `DEFAULT_ELO` for a type without skills. */
  function EffectiveElo(t: QType, dbIds: map<Skill, string>, ratings: map<string, real>): (elo: real)
    ensures |SkillsOf(t)| == 0 ==> elo == DefaultElo
  {
    MeanRating(SkillsOf(t), dbIds, ratings)
  }

  /** Ratings and the default inside [lo, hi] keep the effective rating
      there. */
  lemma EffectiveEloWithin(t: QType, dbIds: map<Skill, string>, ratings: map<string, real>, lo: real, hi: real)
    requires lo <= DefaultElo <= hi
    requires forall id :: id in ratings ==> lo <= ratings[id] <= hi
    ensures lo <= EffectiveElo(t, dbIds, ratings) <= hi
  {
    var ids := ResolvedIds(SkillsOf(t), dbIds);
    if |ids| > 0 {
      MeanWithin(RatingsOf(ids, ratings), lo, hi);
    }
  }

  /** A user with no rating on any resolved skill gets `DEFAULT_ELO`. */
  lemma EffectiveEloUnrated(t: QType, dbIds: map<Skill, string>, ratings: map<string, real>)
    requires forall id :: id in ratings ==> id !in ResolvedIds(SkillsOf(t), dbIds)
    ensures EffectiveElo(t, dbIds, ratings) == DefaultElo
  {
    var ids := ResolvedIds(SkillsOf(t), dbIds);
    if |ids| > 0 {
      var xs := RatingsOf(ids, ratings);
      assert forall k :: 0 <= k < |xs| ==> xs[k] == DefaultElo by {
        forall k | 0 <= k < |xs| ensures xs[k] == DefaultElo {
          assert ids[k] in ids;
        }
      }
      ConstantVectorStatistics(xs, DefaultElo);
    }
  }

  datatype Status = InProgress | AnsweringComplete | Completed | OtherStatus(name: string)

  /** One skill's rating around an answer, keyed in `elo_changes`. */
  datatype EloChange = EloChange(before: real, after: real, change: real)

  /** What `user_answers` stores for one answered position. */
  datatype AnswerRecord = AnswerRecord(
    questionId: string, answer: string, correctAnswer: string, isCorrect: bool,
    eloChanges: map<string, EloChange>)

  /** `user_answers[str(position)]`. */
  datatype Entry = Entry(position: nat, record: AnswerRecord)

  /** The `adaptive_diagnostic_sessions` row. */
  datatype Session = Session(
    status: Status, position: nat, selected: seq<string>, answers: seq<Entry>,
    drillId: Option<string>)

  predicate HasKey(answers: seq<Entry>, position: nat) {
    exists i :: 0 <= i < |answers| && answers[i].position == position
  }

  /** The record stored under a position, if any. */
  function Get(answers: seq<Entry>, position: nat): (r: Option<AnswerRecord>)
    ensures r.None? <==> !HasKey(answers, position)
  {
    if |answers| == 0 then None
    else if answers[0].position == position then Some(answers[0].record)
    else
      assert forall i :: 1 <= i < |answers| ==> answers[i] == answers[1..][i - 1];
      Get(answers[1..], position)
  }

  predicate DistinctPositions(answers: seq<Entry>) {
    forall i, j :: 0 <= i < j < |answers| ==> answers[i].position != answers[j].position
  }

  /** `user_answers[key] = record`: overwrite the entry under the key in
      place, or add one at the end. */
  function Put(answers: seq<Entry>, position: nat, rec: AnswerRecord): (r: seq<Entry>)
    ensures |r| == |answers| + (if HasKey(answers, position) then 0 else 1)
    ensures forall i :: 0 <= i < |answers| ==> r[i].position == answers[i].position
    ensures !HasKey(answers, position) ==> r[|answers|] == Entry(position, rec)
  {
    if |answers| == 0 then [Entry(position, rec)]
    else if answers[0].position == position then [Entry(position, rec)] + answers[1..]
    else
      assert HasKey(answers, position) <==> HasKey(answers[1..], position) by {
        if HasKey(answers[1..], position) {
          var i :| 0 <= i < |answers[1..]| && answers[1..][i].position == position;
          assert answers[i + 1].position == position;
        }
        if HasKey(answers, position) {
          var i :| 0 <= i < |answers| && answers[i].position == position;
          assert answers[1..][i - 1].position == position;
        }
      }
      [answers[0]] + Put(answers[1..], position, rec)
  }

  /** After a put, the key holds the new record and every other key its old
      one. */
  lemma {:induction false} PutGet(answers: seq<Entry>, position: nat, rec: AnswerRecord, other: nat)
    ensures Get(Put(answers, position, rec), other)
      == if other == position then Some(rec) else Get(answers, other)
  {
    if |answers| > 0 && answers[0].position != position {
      PutGet(answers[1..], position, rec, other);
      assert Put(answers, position, rec)[1..] == Put(answers[1..], position, rec);
    }
  }

  /** A put never gives a position two entries. */
  lemma PutDistinct(answers: seq<Entry>, position: nat, rec: AnswerRecord)
    requires DistinctPositions(answers)
    ensures DistinctPositions(Put(answers, position, rec))
  {
    var r := Put(answers, position, rec);
    if !HasKey(answers, position) {
      assert forall i :: 0 <= i < |answers| ==> r[i].position != r[|answers|].position;
    }
  }

  /** `answer.upper() == correct_answer.upper()`. */
  predicate AnswersMatch(answer: string, correct: string) {
    Text.Upper(answer) == Text.Upper(correct)
  }

  /** A letter matches itself in the other case. */
  lemma LowerLetterMatches()
    ensures AnswersMatch("c", "C") && !AnswersMatch("C", "D")
  {
    assert Text.Upper("c")[0] == 'C';
    assert Text.Upper("C")[0] == 'C';
    assert Text.Upper("D")[0] == 'D';
  }

  /** `elo_changes`: every skill rated before or after the update whose
      rating (`DEFAULT_ELO` when missing) moved, keyed by its id. */
  function EloChanges(before: map<string, real>, after: map<string, real>): (changes: map<string, EloChange>)
    ensures forall id :: id in changes ==> id in before || id in after
    ensures forall id :: id in changes ==> changes[id].before != changes[id].after
    ensures forall id :: id in changes ==> changes[id].change == changes[id].after - changes[id].before
  {
    map id | id in before.Keys + after.Keys && RatingOr(before, id) != RatingOr(after, id) ::
      EloChange(RatingOr(before, id), RatingOr(after, id), RatingOr(after, id) - RatingOr(before, id))
  }

  /** Every skill whose rating moved is listed, with its two ratings; an
      update that moves nothing lists nothing. */
  lemma EloChangesComplete(before: map<string, real>, after: map<string, real>, id: string)
    requires id in before || id in after
    ensures id in EloChanges(before, after) <==> RatingOr(before, id) != RatingOr(after, id)
    ensures id in EloChanges(before, after) ==>
      EloChanges(before, after)[id].before == RatingOr(before, id) &&
      EloChanges(before, after)[id].after == RatingOr(after, id)
    ensures EloChanges(before, before) == map[]
  {
  }

  datatype TierLabel = AtTier(tier: Tier) | CompleteTier

  /** The `progress` reported with each answer. */
  datatype Progress = Progress(current: nat, total: nat, tier: TierLabel)

  /** `select_question_for_slot`: the question bank's pick of an id for a
      type, a target rating and a set of excluded ids. */
  type Selector = (QType, real, set<string>) -> Option<string>

  datatype ProcessError =
    | SessionNotFound
    | NotInProgress
    | AlreadyComplete
    | NoQuestionAtPosition     // the IndexError of `selected_question_ids[current_position]`
    | QuestionNotFound(id: string)

  /** The result of `process_answer` with the session row it writes back. */
  datatype Outcome = Outcome(
    isCorrect: bool, correctAnswer: string, eloChanges: map<string, EloChange>,
    progress: Progress, isComplete: bool,
    nextQuestion: Option<string>, targetElo: Option<real>, exhaustedType: Option<QType>,
    session: Session)

  /** The next question: first without the ids already selected, then with
      no exclusions. */
  function PickNext(t: QType, target: real, selected: seq<string>, select: Selector): (q: Option<string>)
    ensures q.None? <==> select(t, target, set id | id in selected).None? && select(t, target, {}).None?
  {
    var first := select(t, target, set id | id in selected);
    if first.Some? then first else select(t, target, {})
  }

  /** `process_answer`. `correctAnswers` is the question bank's
      `correct_answer` column, `before` and `after` the user's ratings around
      the Elo update, `dbIds` the skill-id cache. */
  function ProcessAnswer(
    stored: Option<Session>, answer: string, correctAnswers: map<string, string>,
    before: map<string, real>, after: map<string, real>,
    dbIds: map<Skill, string>, select: Selector): (r: Result<Outcome, ProcessError>)
    ensures r.Ok? ==> stored.Some? && stored.value.position < |stored.value.selected|
    ensures r.Ok? ==> r.value.session.position == stored.value.position + 1
    ensures r.Ok? ==> r.value.session.answers == Put(stored.value.answers, stored.value.position,
      AnswerRecord(stored.value.selected[stored.value.position], Text.Upper(answer), r.value.correctAnswer,
                   r.value.isCorrect, r.value.eloChanges))
  {
    if stored.None? then Err(SessionNotFound)
    else
      var s := stored.value;
      if s.status != InProgress then Err(NotInProgress)
      else if s.position >= |DiagnosticSequence| then Err(AlreadyComplete)
      else if s.position >= |s.selected| then Err(NoQuestionAtPosition)
      else
        var qid := s.selected[s.position];
        if qid !in correctAnswers then Err(QuestionNotFound(qid))
        else
          var correct := correctAnswers[qid];
          var isCorrect := AnswersMatch(answer, correct);
          var changes := EloChanges(before, after);
          var answers := Put(s.answers, s.position, AnswerRecord(qid, Text.Upper(answer), correct, isCorrect, changes));
          var next := s.position + 1;
          var finished := next >= |DiagnosticSequence|;
          var progress := Progress(next + (if finished then 0 else 1), |DiagnosticSequence|,
                                   if finished then CompleteTier else AtTier(TierFor(next)));
          if finished then
            Ok(Outcome(isCorrect, correct, changes, progress, true, None, None, None,
                       Session(AnsweringComplete, next, s.selected, answers, s.drillId)))
          else
            var t := DiagnosticSequence[next];
            var target := EffectiveElo(t, dbIds, after);
            var q := PickNext(t, target, s.selected, select);
            if q.Some? then
              Ok(Outcome(isCorrect, correct, changes, progress, false, q, Some(target), None,
                         Session(s.status, next, s.selected + [q.value], answers, s.drillId)))
            else
              Ok(Outcome(isCorrect, correct, changes, progress, true, None, None, Some(t),
                         Session(AnsweringComplete, next, s.selected, answers, s.drillId)))
  }

  /** The error cases, checked in the source's order. */
  lemma ProcessAnswerErrors(
    stored: Option<Session>, answer: string, correctAnswers: map<string, string>,
    before: map<string, real>, after: map<string, real>, dbIds: map<Skill, string>, select: Selector)
    ensures var r := ProcessAnswer(stored, answer, correctAnswers, before, after, dbIds, select);
      && (r == Err(SessionNotFound) <==> stored.None?)
      && (r == Err(NotInProgress) <==> stored.Some? && stored.value.status != InProgress)
      && (r == Err(AlreadyComplete) <==>
            stored.Some? && stored.value.status == InProgress && stored.value.position >= |DiagnosticSequence|)
      && (r.Ok? <==>
            stored.Some? && stored.value.status == InProgress
            && stored.value.position < |DiagnosticSequence| && stored.value.position < |stored.value.selected|
            && stored.value.selected[stored.value.position] in correctAnswers)
  {
  }

  /** A successful answer: correctness is case-insensitive equality with the
      question's answer, the session moves on one position, it is complete
      exactly when the sequence is used up or the bank has no question for the
      next slot even without exclusions, completion alone changes the status,
      and a found question is appended to the selected ids. */
  lemma ProcessAnswerStep(
    s: Session, answer: string, correctAnswers: map<string, string>,
    before: map<string, real>, after: map<string, real>, dbIds: map<Skill, string>, select: Selector)
    requires ProcessAnswer(Some(s), answer, correctAnswers, before, after, dbIds, select).Ok?
    ensures var o := ProcessAnswer(Some(s), answer, correctAnswers, before, after, dbIds, select).value;
      var next := s.position + 1;
      && o.correctAnswer == correctAnswers[s.selected[s.position]]
      && (o.isCorrect <==> Text.Upper(answer) == Text.Upper(o.correctAnswer))
      && (o.isComplete <==>
            next >= |DiagnosticSequence| ||
            var t := DiagnosticSequence[next];
            var target := EffectiveElo(t, dbIds, after);
            select(t, target, set id | id in s.selected).None? && select(t, target, {}).None?)
      && o.session.status == (if o.isComplete then AnsweringComplete else s.status)
      && o.session.selected == s.selected + (if o.nextQuestion.Some? then [o.nextQuestion.value] else [])
      && (o.nextQuestion.Some? <==> !o.isComplete)
      && o.session.drillId == s.drillId
  {
  }

  /** `progress`: the next position counted from one, or the position itself
      once the sequence is used up, and the tier of the next position. When
      the bank runs out of questions the session completes but the progress
      computed beforehand is reported unchanged. */
  lemma ProcessAnswerProgress(
    s: Session, answer: string, correctAnswers: map<string, string>,
    before: map<string, real>, after: map<string, real>, dbIds: map<Skill, string>, select: Selector)
    requires ProcessAnswer(Some(s), answer, correctAnswers, before, after, dbIds, select).Ok?
    ensures var o := ProcessAnswer(Some(s), answer, correctAnswers, before, after, dbIds, select).value;
      var next := s.position + 1;
      && o.progress.total == |DiagnosticSequence|
      && (next >= |DiagnosticSequence| ==> o.progress.current == next && o.progress.tier == CompleteTier)
      && (next < |DiagnosticSequence| ==> o.progress.current == next + 1 && o.progress.tier == AtTier(TierFor(next)))
      && (o.exhaustedType.Some? <==> o.isComplete && next < |DiagnosticSequence|)
  {
  }

  /** The stored answer is upper-cased and kept under the answered position;
      every other position keeps its record. */
  lemma ProcessAnswerRecords(
    s: Session, answer: string, correctAnswers: map<string, string>,
    before: map<string, real>, after: map<string, real>, dbIds: map<Skill, string>, select: Selector, other: nat)
    requires ProcessAnswer(Some(s), answer, correctAnswers, before, after, dbIds, select).Ok?
    ensures var o := ProcessAnswer(Some(s), answer, correctAnswers, before, after, dbIds, select).value;
      var got := Get(o.session.answers, s.position);
      && got.Some?
      && got.value.answer == Text.Upper(answer)
      && (forall i :: 0 <= i < |got.value.answer| ==> !Text.IsLowerAscii(got.value.answer[i]))
      && got.value.questionId == s.selected[s.position]
      && got.value.isCorrect == o.isCorrect
      && (other != s.position ==> Get(o.session.answers, other) == Get(s.answers, other))
  {
    var o := ProcessAnswer(Some(s), answer, correctAnswers, before, after, dbIds, select).value;
    var rec := AnswerRecord(s.selected[s.position], Text.Upper(answer), o.correctAnswer, o.isCorrect, o.eloChanges);
    PutGet(s.answers, s.position, rec, s.position);
    PutGet(s.answers, s.position, rec, other);
  }

  /** An exhausted bank: the first answer of a session whose next slot has no
      question completes it, yet reports progress 2 of 30 in the easier
      tier. */
  lemma ExhaustedProgressExample()
    ensures var s := Session(InProgress, 0, ["q1"], [], None);
      var r := ProcessAnswer(Some(s), "a", map["q1" := "A"], map[], map[], map[], (t, e, x) => None);
      && r.Ok? && r.value.isComplete && r.value.isCorrect
      && r.value.progress == Progress(2, 30, AtTier(Easier))
      && r.value.session.status == AnsweringComplete
  {
    var s := Session(InProgress, 0, ["q1"], [], None);
    assert Text.Upper("a")[0] == 'A';
    assert Text.Upper("A")[0] == 'A';
    assert AnswersMatch("a", "A");
    var r := ProcessAnswer(Some(s), "a", map["q1" := "A"], map[], map[], map[], (t, e, x) => None);
    assert r.Ok?;
  }

  /** A session in progress has one selected question more than it has
      answered, and a current position inside the sequence. */
  predicate Aligned(s: Session) {
    s.status == InProgress ==> s.position < |DiagnosticSequence| && |s.selected| == s.position + 1
  }

  /** `create_adaptive_diagnostic_session`: the first question of the
      sequence at the user's effective rating, or an error when the bank has
      none. */
  function CreateSession(dbIds: map<Skill, string>, ratings: map<string, real>, select: Selector): (r: Option<Session>)
    ensures r.Some? ==> r.value.status == InProgress && r.value.position == 0 && |r.value.selected| == 1
    ensures r.Some? ==> Aligned(r.value) && r.value.answers == [] && r.value.drillId == None
  {
    var t := DiagnosticSequence[0];
    match select(t, EffectiveElo(t, dbIds, ratings), {})
    case None => None
    case Some(q) => Some(Session(InProgress, 0, [q], [], None))
  }

  /** Answering keeps a session aligned; an aligned session in progress only
      fails on a question the bank does not know. */
  lemma ProcessAnswerKeepsAligned(
    s: Session, answer: string, correctAnswers: map<string, string>,
    before: map<string, real>, after: map<string, real>, dbIds: map<Skill, string>, select: Selector)
    requires Aligned(s)
    ensures var r := ProcessAnswer(Some(s), answer, correctAnswers, before, after, dbIds, select);
      && (r.Ok? ==> Aligned(r.value.session))
      && (s.status == InProgress ==> r.Ok? || r == Err(QuestionNotFound(s.selected[s.position])))
  {
  }

  /** `a.get('is_correct')` over `user_answers.values()`. */
  function CorrectEntries(answers: seq<Entry>): (n: nat)
    ensures n <= |answers|
  {
    if |answers| == 0 then 0
    else CorrectEntries(answers[..|answers| - 1]) + (if answers[|answers| - 1].record.isCorrect then 1 else 0)
  }

  /** `skill_performance` of `complete_diagnostic`: per question type (the
      bank's `question_type` of each answered question), answers whose
      question is missing from the bank skipped. */
  function TypePerformance(answers: seq<Entry>, questionTypes: map<string, string>): Tallies.Table<string> {
    if |answers| == 0 then []
    else
      var last := answers[|answers| - 1].record;
      var before := TypePerformance(answers[..|answers| - 1], questionTypes);
      if last.questionId in questionTypes then Tallies.Record(before, questionTypes[last.questionId], last.isCorrect)
      else before
  }

  /** How many answered questions the bank still knows. */
  function KnownEntries(answers: seq<Entry>, questionTypes: map<string, string>): (n: nat)
    ensures n <= |answers|
  {
    if |answers| == 0 then 0
    else
      var last := answers[|answers| - 1].record;
      KnownEntries(answers[..|answers| - 1], questionTypes) + (if last.questionId in questionTypes then 1 else 0)
  }

  /** The per-type tallies count every known answer once, are sound, and
      never give a type two tallies. */
  lemma {:induction false} TypePerformanceSums(answers: seq<Entry>, questionTypes: map<string, string>)
    ensures Tallies.SumTotals(TypePerformance(answers, questionTypes)) == KnownEntries(answers, questionTypes)
    ensures Tallies.Sound(TypePerformance(answers, questionTypes))
    ensures Tallies.DistinctKeys(TypePerformance(answers, questionTypes))
  {
    if |answers| > 0 {
      var n := |answers| - 1;
      var last := answers[n].record;
      var before := TypePerformance(answers[..n], questionTypes);
      TypePerformanceSums(answers[..n], questionTypes);
      if last.questionId in questionTypes {
        Tallies.RecordSum(before, questionTypes[last.questionId], last.isCorrect);
        Tallies.RecordSound(before, questionTypes[last.questionId], last.isCorrect);
        Tallies.RecordDistinct(before, questionTypes[last.questionId], last.isCorrect);
      }
    }
  }

  /** The numbers written to `drill_results`. */
  datatype Summary = Summary(
    total: nat, correct: nat, incorrect: nat, skipped: nat, score: real,
    typePerformance: Tallies.Table<string>)

  datatype Completion =
    | AlreadyCompleted(storedDrillId: Option<string>)
    | Finished(drillId: string, summary: Summary, session: Session)

  datatype CompleteError = CompleteNotFound | CannotComplete(status: Status)

  /** `complete_diagnostic`; `newDrillId` is the generated drill id and
      `questionTypes` the bank's `question_type` column. */
  function CompleteDiagnostic(stored: Option<Session>, questionTypes: map<string, string>, newDrillId: string)
    : (r: Result<Completion, CompleteError>)
    ensures r.Ok? && r.value.Finished? ==>
      r.value.session.status == Completed && r.value.session.drillId == Some(newDrillId)
  {
    if stored.None? then Err(CompleteNotFound)
    else
      var s := stored.value;
      if s.status != AnsweringComplete && s.status != InProgress then
        if s.status == Completed then Ok(AlreadyCompleted(s.drillId)) else Err(CannotComplete(s.status))
      else
        var total := |s.answers|;
        var correct := CorrectEntries(s.answers);
        var summary := Summary(total, correct, total - correct, 0, Drill.ScorePercentage(correct, total),
                               TypePerformance(s.answers, questionTypes));
        Ok(Finished(newDrillId, summary, s.(status := Completed, drillId := Some(newDrillId))))
  }

  /** Completing is idempotent: a second call reports the first call's drill
      id, whatever id it would have generated. */
  lemma CompleteIdempotent(s: Session, questionTypes: map<string, string>, id1: string, id2: string)
    requires CompleteDiagnostic(Some(s), questionTypes, id1).Ok?
    ensures var c := CompleteDiagnostic(Some(s), questionTypes, id1).value;
      c.Finished? ==> CompleteDiagnostic(Some(c.session), questionTypes, id2) == Ok(AlreadyCompleted(Some(id1)))
    ensures s.status == Completed ==>
      CompleteDiagnostic(Some(s), questionTypes, id1) == Ok(AlreadyCompleted(s.drillId))
  {
  }

  /** Which statuses can be completed, and what the completed session keeps:
      its answers, selected ids and position. */
  lemma CompleteStatuses(s: Session, questionTypes: map<string, string>, id: string)
    ensures var r := CompleteDiagnostic(Some(s), questionTypes, id);
      && (r.Err? <==> s.status.OtherStatus?)
      && (r.Ok? && r.value.Finished? <==> s.status == InProgress || s.status == AnsweringComplete)
      && (r.Ok? && r.value.Finished? ==>
            r.value.session.answers == s.answers && r.value.session.selected == s.selected
            && r.value.session.position == s.position)
    ensures CompleteDiagnostic(None, questionTypes, id) == Err(CompleteNotFound)
  {
  }

  /** The summary: one question per answer, correct at most total,
      incorrect the rest and none skipped; the score is the percentage
      correct, 0 without answers. */
  lemma CompleteSummary(s: Session, questionTypes: map<string, string>, id: string)
    requires s.status == InProgress || s.status == AnsweringComplete
    ensures var c := CompleteDiagnostic(Some(s), questionTypes, id).value;
      && c.Finished?
      && c.summary.total == |s.answers|
      && c.summary.correct <= c.summary.total
      && c.summary.correct + c.summary.incorrect == c.summary.total && c.summary.skipped == 0
      && 0.0 <= c.summary.score <= 100.0
      && (c.summary.total == 0 ==> c.summary.score == 0.0)
      && (c.summary.total > 0 ==> c.summary.score * c.summary.total as real == 100.0 * c.summary.correct as real)
  {
  }

  /** The per-type totals add up to the answers whose question the bank
      knows, and each tally is sound. */
  lemma CompleteTypePerformance(s: Session, questionTypes: map<string, string>, id: string)
    requires s.status == InProgress || s.status == AnsweringComplete
    ensures var perf := CompleteDiagnostic(Some(s), questionTypes, id).value.summary.typePerformance;
      && Tallies.SumTotals(perf) == KnownEntries(s.answers, questionTypes)
      && Tallies.Sound(perf) && Tallies.DistinctKeys(perf)
  {
    TypePerformanceSums(s.answers, questionTypes);
  }
}
