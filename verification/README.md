# Deductly's adaptive core, modelled in Dafny

This project models the estimation, evaluation and planning logic of Deductly, an LSAT study platform. It then proves properties of that model. The model covers the following.

- **Ratings.** The multi-skill Elo ledger (`elo.dfy`), the display scaling and rating tiers (`scaling.dfy`), the algebraic skeleton of the Rasch (IRT) MAP fit and its online update (`irt.dfy`), and the seeding of item difficulties (`item_difficulty.dfy`).
- **Planner helpers.** The skill-id codec (`skill_codec.dfy`), the 100-slot context vector (`features.dfy`), phase allocation with its repair loop (`phases.dfy`), the module filters (`modules.dfy`) and the clipped module reward (`reward.dfy`).
- **Planning.** Weekly module selection (`selection.dfy`), plan control over weeks, phases, replanning and weekly adaptation (`planner.dfy`), the Bayesian linear bandit (`bandit.dfy`, over `linalg.dfy`), the epsilon-greedy baseline (`epsilon_greedy.dfy`) and the bandit factory (`bandit_factory.dfy`).
- **Diagnostic evaluation.** Metrics and trap analysis (`eval_metrics.dfy`), the fourteen diagnostic rules (`eval_patterns.dfy`), the cognitive fingerprint (`eval_fingerprint.dfy`), strengths (`eval_strengths.dfy`) and weaknesses (`eval_weaknesses.dfy`), over the S/FL/RH/ABS skill taxonomy (`taxonomy.dfy`).
- **Adaptive diagnostic.** Its configuration (`diag_config.dfy`) and the session state machine (`diag_session.dfy`).
- **Drills.** The time limit, scoring counts (`drill.dfy`) and question query (`drill_query.dfy`).
- **Shared vocabulary.** `wrappers.dfy` (Option/Result), `numerics.dfy`, `text.dfy`, `tallies.dfy` (the correct/total dictionaries built answer by answer) and `ranking.dfy` (Python's stable sort).

Modelling conventions:

- **Numbers.** IEEE doubles are `real`. The one place where double rounding changes an integer result, the 70% drill time limit, is modelled in closed form (`Drill.SeventyLimit`).
- **Primitives.** The transcendental and numerical primitives are function parameters. These are 10^x, the square root, the logistic sigmoid, the logarithm, the matrix inverse and the normal quantile. Each operation's precondition states the few laws its proofs rely on, such as 10^0 = 1 or a sigmoid strictly inside (0, 1). Nothing is claimed about the accuracy of the numerics or about Newton convergence.
- **Randomness.** It is an input: the Thompson draw, the epsilon-greedy coin and choice, and the generated ids.
- **Storage.** Database rows become in-memory records. A query's answer is a parameter (the question bank's columns, the user's ratings before and after an update, the skill-id cache).
- **Dictionaries.** Python dicts whose insertion order matters are association lists kept in first-seen order.
- **Strings.** Stripping uses Python's full `str.isspace` set, the information separators U+001C to U+001F included. Case mapping covers ASCII letters only.
- **Text.** Display text (skill names, descriptions, evidence and context strings) is replaced by the enumerations or structured values it is built from.
- **The two taxonomies.** The planner's LR-/RC- skill ids and the evaluator's S_/FL_/RH_/ABS_ ids are kept as separate types. They are not reconciled.

Behaviour is modelled as the code does it where the code and its comments disagree:

- **Bandit mean update.** See Findings below.
- **Weaknesses.** `_identify_weaknesses` promises at least three weaknesses in its docstring but can return none (`EvalWeaknesses.AllCorrectNoWeaknesses`).
- **Fingerprint summary.** The summary names a second pattern only when there are more than two primary patterns, so with exactly two only the first is described (`EvalFingerprint.SummaryOf`).
- **Progress report.** When the question bank runs out during the diagnostic, the session completes but reports the progress computed before it knew (`DiagSession.ExhaustedProgressExample`).

## Model

| member | source | states |
|---|---|---|
| Elo.ExpectedScore | backend/insights/elo_system.py:48-50 | the expected score lies strictly between 0 and 1, and is above one half exactly when the user outrates the question (below when outrated) |
| Elo.ExpectedScoreEven | backend/insights/elo_system.py:48-50 | equal rating and difficulty give probability one half |
| Elo.ExpectedScoreSymmetric | backend/insights/elo_system.py:48-50 | the two players' expectations against each other sum to one |
| Elo.AdaptiveK | backend/insights/elo_system.py:52-54 | the K-factor is positive and at most the base K when the base is positive, zero for a zero base |
| Elo.AdaptiveKFirstUpdate | backend/insights/elo_system.py:52-54 | a rating with no updates yet learns at the full base K |
| Elo.AdaptiveKDecreasing | backend/insights/elo_system.py:52-54 | more past updates give a strictly smaller K-factor |
| Elo.EffectiveDifficulty | backend/insights/elo_system.py:59-63 | the difficulty is the base difficulty plus the question's learned offset, or the base alone when the question has no rating |
| Elo.StepRating | backend/insights/elo_system.py:114-125 | one skill entry adds one update and moves the rating in the direction of the surprise, not at all when surprise or weight is zero |
| Elo.ApplySkillUpdates | backend/insights/elo_system.py:113-135 | the sequential loop keeps the ledger's skills and reports one before/amount/after entry per skill entry, after = before + amount |
| Elo.ApplyKeepsUntouched | backend/insights/elo_system.py:113-135 | a skill the question does not name keeps its record |
| Elo.ApplyCountsUpdates | backend/insights/elo_system.py:113-135 | each skill's update count grows by the number of entries naming it |
| Elo.ApplyDirection | backend/insights/elo_system.py:113-135 | with positive weights a positive surprise never lowers a rating and strictly raises each named one; a negative surprise is the mirror image |
| Elo.ApplySingleEntry | backend/insights/elo_system.py:114-125 | a skill named once moves by K * weight * surprise computed from its own record |
| Elo.UpdateQuestionRating | backend/insights/elo_system.py:137-156 | the question's offset is created at zero when missing, counts one more update, lands in [-100, 100], and moves against the surprise |
| Elo.FirstUnrated | backend/insights/elo_system.py:94-99 | names the first skill entry whose rating is missing, the lookup where the source raises |
| Elo.UpdateElo | backend/insights/elo_system.py:65-158 | no skills gives only the actual score; an error exactly when a named skill has no rating; otherwise the ledger keeps its skills, reports one update per entry, and the question offset changes only when asked and stays in [-100, 100] |
| Elo.Surprise | backend/insights/elo_system.py:85-110 | the surprise S - P is in (0, 1) after a correct answer and in (-1, 0) after a wrong one |
| Elo.UpdateEloRatings | backend/insights/elo_system.py:98-135 | on a rated question the new ledger is the sequential skill update driven by the response's surprise against the effective rating and difficulty |
| Elo.UpdateBookkeeping | backend/insights/elo_system.py:113-135 | skills the question does not name keep their records; named ones gain one update per naming entry |
| Elo.UpdateSingleSkill | backend/insights/elo_system.py:114-125 | a skill named once moves by exactly 40 / sqrt(n + 1) * weight * (S - P) |
| Elo.ResponseDirection | backend/insights/elo_system.py:85-135 | a correct answer never lowers a rating and strictly raises every named skill with positive weight; a wrong answer is the mirror image |
| Elo.StepHeavierMovesMore | backend/insights/elo_system.py:119-123 | on the same record a heavier weight gives a strictly larger move for any non-zero surprise |
| Elo.HeavierWeightMovesMore | backend/insights/elo_system.py:98-135 | of two skills with equal records, the more heavily weighted one moves strictly further |
| Elo.QuestionDeltaOnlyWhenAsked | backend/insights/elo_system.py:137-156 | the question offset changes only when asked, then stays in [-100, 100]; a surprise success makes the question easier, never harder |
| Elo.WorkedExampleEffectiveRating | backend/insights/elo_system.py:165-200 | ratings 1500 and 1450 under weights 0.6 and 0.4 give an effective rating of 1480 |
| Scaling.EloToDisplay | backend/insights/scaling.py:10-47 | a non-positive standard deviation gives the centre; otherwise the score is in [min, max], pinned to an end when the scaled rating is beyond it and within half a point of it inside the range |
| Scaling.DisplayToElo | backend/insights/scaling.py:50-81 | no rating exactly when scale_per_std is 0, where the source divides by zero; otherwise the centre maps back to the mean, scores above the centre map exactly to ratings above the mean, and the rating lies std / scale_per_std Elo from the mean per display point from the centre |
| Scaling.DefaultAnchors | backend/insights/scaling.py:34-40 | with the defaults 1500, 1800, 1200, 3000 and 0 display as 150, 160, 140, 180 and 120, and 150, 160, 140 map back to 1500, 1800, 1200 |
| Scaling.DisplayRoundTrip | backend/insights/scaling.py:10-81 | a display score inside the clamping range survives the round trip through Elo |
| Scaling.EloRoundTrip | backend/insights/scaling.py:10-81 | a rating whose unclamped display score lies at least half a point inside the range comes back from display and Elo within half a display point, 0.5 * std / scale_per_std Elo |
| Scaling.BackFromNearby | backend/insights/scaling.py:50-81 | a display score within half a point of a rating's unclamped display reads back within 0.5 * std / scale_per_std Elo of that rating |
| Scaling.DefaultEloRoundTrip | backend/insights/test_elo.py:359-365 | with the default parameters every rating from 615 to 2385, the test's 1200 to 1800 among them, comes back within 15 Elo |
| Scaling.ClampIntMonotone | backend/insights/scaling.py:47 | clamping to a range preserves order |
| Scaling.EloToDisplayMonotone | backend/insights/scaling.py:42-47 | the display score never decreases as the rating grows |
| Scaling.TierOf | backend/insights/scaling.py:125-132 | a rating in a tier is at least its threshold and below the threshold of every higher tier |
| Scaling.GetRatingTier | backend/insights/scaling.py:115-132 | the label is one of the four tiers, Strong exactly from 1750 and Emerging exactly below 1400 |
| Scaling.GetRatingTierInfo | backend/insights/scaling.py:87-158 | the label matches the tier and the colours are that tier's entry of the colour table |
| Scaling.TierMonotone | backend/insights/scaling.py:115-132 | tiers rise with the rating |
| Scaling.TierExamples | backend/insights/test_elo.py:367-376 | 1900 and 1750 are Strong, 1700 and 1600 Proficient, 1500 and 1400 Developing, 1300 and 1100 Emerging |
| Scaling.RoundTenth | backend/insights/scaling.py:188-189 | the raw rating is rounded to within 0.05 |
| Scaling.FormatRating | backend/insights/scaling.py:161-191 | the result always has the display score and tier label, the colours exactly when asked, the raw rating exactly when asked, and no other field |
| Irt.Precision | backend/insights/irt_implementation.py:47-48 | the prior precision is positive: the reciprocal of a positive variance, and 1e-12 when the variance is not positive |
| Irt.NewtonStep | backend/insights/irt_implementation.py:66-67 | a zero Hessian leaves the parameter unchanged; otherwise (old - new) * H equals the gradient |
| Irt.UserCurvature | backend/insights/irt_implementation.py:63-65 | the sum of p(1 - p) over a user's responses is non-negative, and positive once the user answered anything |
| Irt.ItemCurvature | backend/insights/irt_implementation.py:81-83 | the same for an item's responses |
| Irt.Hessian | backend/insights/irt_implementation.py:65 | the Hessian is at most minus the prior precision, hence strictly negative, so the zero guard cannot fire |
| Irt.UpdateThetas | backend/insights/irt_implementation.py:52-68 | one theta per user, and a user without responses is reset to the prior mean |
| Irt.UpdateItems | backend/insights/irt_implementation.py:70-86 | one difficulty per item, and an item without responses is reset to the prior mean |
| Irt.ThetaNewtonEquation | backend/insights/irt_implementation.py:59-67 | a user with responses moves by a Newton step: (new - old) * H = -(sum(r - p) - (old - mean) * precision) |
| Irt.ItemNewtonEquation | backend/insights/irt_implementation.py:77-85 | an item with responses moves by a Newton step on g = -sum(r - p) - (old - mean) * precision |
| Irt.ThetaSweepIsLocal | backend/insights/irt_implementation.py:52-68 | a user's new theta reads only its own pre-sweep theta and the difficulties, never another user's theta |
| Irt.ItemSweepIsLocal | backend/insights/irt_implementation.py:70-86 | an item's new difficulty reads only its own old difficulty and the thetas |
| Irt.RecenterProperties | backend/insights/irt_implementation.py:88-91 | after recentering the difficulties have mean zero and every logit theta[u] - b[i] is unchanged |
| Irt.Sweep | backend/insights/irt_implementation.py:97-100 | one outer iteration keeps the numbers of users and items |
| Irt.ItemsReadFreshThetas | backend/insights/irt_implementation.py:97-98 | the item half reads the updated thetas: two starting thetas that update to the same values give the same sweep |
| Irt.Sweeps | backend/insights/irt_implementation.py:37-38 | the state after k sweeps from the all-zero start has one theta per user and one difficulty per item |
| Irt.LoopStep | backend/insights/irt_implementation.py:97-118 | one more loop iteration sees the next sweep, its objective, and stops exactly when the objective moved by less than the tolerance |
| Irt.Iteration | backend/insights/irt_implementation.py:98-118 | the pass computes the next sweep and its objective, and reports stopping exactly when the stopping test holds there |
| Irt.FitLoop | backend/insights/irt_implementation.py:94-126 | at most max_outer iterations; converged only at the first iteration whose objective moved by less than the tolerance, otherwise max_outer iterations with none stopping, and the returned state is that many sweeps |
| Irt.RaschFit | backend/insights/irt_implementation.py:12-126 | an error exactly for an out-of-range id, or for a run with users, no items and at least one iteration, where the source's mean of an empty b is NaN and it reports nit = max_outer without convergence; a run with neither users nor items has objective 0 and converges after two iterations when tol > 0; otherwise shapes are kept, nit <= max_outer, not converged means nit == max_outer, and convergence needs at least two iterations |
| Irt.FitIsCentred | backend/insights/irt_implementation.py:88-100 | a fit that ran at least one sweep leaves the difficulties centred at zero |
| Irt.OnlineUpdateTheta | backend/insights/irt_implementation.py:137-163 | zero iterations return the starting theta |
| Irt.OnlineWithoutResponses | backend/insights/irt_implementation.py:152-163 | with no responses one step lands on the prior mean and later steps stay there |
| Irt.OnlineComposes | backend/insights/irt_implementation.py:156-162 | i iterations followed by j more equal i + j iterations |
| Irt.Curvature | backend/insights/irt_implementation.py:178-180 | the summed p(1 - p) at the estimate is non-negative |
| Irt.LaplaceVariance | backend/insights/irt_implementation.py:166-181 | the variance is positive, at most 1e12, and at most the prior variance when that is positive |
| ItemDifficulty.LevelOfLabel | backend/db/init_item_difficulties.py:25-30 | each of the four named levels is recognised exactly from its own lower-case label, and anything else is unknown |
| ItemDifficulty.BToElo | backend/db/init_item_difficulties.py:36-38 | b = 0 is 1500 Elo and every unit of b is 200 points: (elo - 1500) / 200 recovers b |
| ItemDifficulty.BToEloStrictlyIncreasing | backend/db/init_item_difficulties.py:36-38 | a larger b always gives a strictly higher Elo |
| ItemDifficulty.LevelElos | backend/db/init_item_difficulties.py:5-11 | easy, medium, hard and challenging land on 1200, 1500, 1800 and 2100 Elo, and an unknown label on 1500 |
| ItemDifficulty.NormalizeLabel | backend/db/init_item_difficulties.py:65 | the normalised label has no upper-case letter, is no longer than the raw one, and a missing label reads as the empty string |
| ItemDifficulty.PaddedLabel | backend/db/init_item_difficulties.py:65 | a label padded with whitespace normalises to its lower-cased core, so " Hard\n" reads as hard |
| ItemDifficulty.SeparatorPaddedLabel | backend/db/init_item_difficulties.py:65 | the information separators U+001C to U+001F count as whitespace too: "Hard" followed by U+001C reads as hard |
| ItemDifficulty.Assign | backend/db/init_item_difficulties.py:63-77 | a question keeps its id, gets the b of its level and the Elo derived from that b; an unknown level gets b = 0 and 1500 Elo |
| ItemDifficulty.Tally | backend/db/init_item_difficulties.py:58-75 | the per-level counts add up to the number of questions |
| ItemDifficulty.TallyCounts | backend/db/init_item_difficulties.py:58-75 | each level's count is the number of questions assigned that level |
| ItemDifficulty.InitItemDifficulties | backend/db/init_item_difficulties.py:41-147 | one assignment per question, in order, each with Elo derived from its b, and the summary counts each level's questions |
| SkillCodec.ParseTrimmed | backend/personalization/adaptive_helpers.py:30 | a non-empty run of ASCII digits parses to its decimal value |
| SkillCodec.ParseTrimmedAccepts | backend/personalization/adaptive_helpers.py:30 | a stripped field parses exactly when it is an optional sign before digits with single underscores between them; the value ignores the underscores and a minus negates it |
| SkillCodec.MisplacedSeparators | backend/personalization/adaptive_helpers.py:30 | doubled, leading and trailing underscores are rejected |
| SkillCodec.Pad2 | backend/personalization/adaptive_helpers.py:51-53 | the zero-padded number is exactly two digits |
| SkillCodec.Pad2Value | backend/personalization/adaptive_helpers.py:51-53 | the two digits read back as the number |
| SkillCodec.Pad2OfDigits | backend/personalization/adaptive_helpers.py:51-53 | any two digits are the zero-padded form of their own value |
| SkillCodec.SkillIdToIndex | backend/personalization/adaptive_helpers.py:16-36 | the unknown-format error is raised exactly for ids starting with neither LR nor RC |
| SkillCodec.NumberField | backend/personalization/adaptive_helpers.py:29-33 | reading the number between the dashes fails only for a missing field or a non-integer |
| SkillCodec.NumberFieldParsed | backend/personalization/adaptive_helpers.py:29-33 | when the second dash field strips and parses to a number, that number is the field's value |
| SkillCodec.IndexToSkillId | backend/personalization/adaptive_helpers.py:39-54 | an id exactly for indices 0..34, an out-of-range error otherwise; ids are five characters with a dash in the middle, LR exactly for indices up to 17 |
| SkillCodec.SkillIdToIndexParsed | backend/personalization/adaptive_helpers.py:29-34 | once split and parsed, LR-k reads as k - 1 and RC-k as 17 + k |
| SkillCodec.ShapeNumberField | backend/personalization/adaptive_helpers.py:29-33 | the number field of an id shaped family, dash, digits is the value of its digits |
| SkillCodec.SkillIdOfShape | backend/personalization/adaptive_helpers.py:29-34 | an id of the form family, dash, digits reads as its number minus one for LR and plus 17 for RC |
| SkillCodec.IndexRoundTrip | backend/personalization/adaptive_helpers.py:16-54 | every index 0..34 survives the trip through its id |
| SkillCodec.IndexToSkillIdIsCanonical | backend/personalization/adaptive_helpers.py:39-54 | every produced id is canonical: LR-01..LR-18 or RC-01..RC-17 |
| SkillCodec.IdRoundTrip | backend/personalization/adaptive_helpers.py:16-54 | every canonical id parses and survives the trip through its index |
| SkillCodec.LRIdRebuilt | backend/personalization/adaptive_helpers.py:39-54 | an LR id whose digits are n zero-padded, 1 <= n <= 18, is the id produced for index n - 1 |
| SkillCodec.RCIdRebuilt | backend/personalization/adaptive_helpers.py:39-54 | an RC id whose digits are n zero-padded, 1 <= n <= 17, is the id produced for index 17 + n |
| SkillCodec.CanonicalExamples | backend/personalization/adaptive_helpers.py:18-24 | index 2 is LR-03 and index 22 is RC-05, both ways |
| SkillCodec.UnpaddedId | backend/personalization/adaptive_helpers.py:29-31 | an unpadded number is accepted: LR-1 reads as index 0 |
| SkillCodec.UncheckedNumber | backend/personalization/adaptive_helpers.py:29-31 | the number is not range-checked: LR-99 reads as index 98, outside the mastery vector |
| SkillCodec.SeparatedNumber | backend/personalization/adaptive_helpers.py:29-34 | an underscore between digits is accepted: LR-1_8 reads as index 17 |
| SkillCodec.GroupedEighteen | backend/personalization/adaptive_helpers.py:30 | the field 1_8 parses to 18 |
| SkillCodec.DropInEighteen | backend/personalization/adaptive_helpers.py:30 | dropping the separator from 1_8 leaves the digits 18 |
| SkillCodec.RejectedInputs | backend/personalization/adaptive_helpers.py:29-54 | an unknown family and a missing number are errors, and so are indices 35 and -1 |
| Features.PyIndex | backend/personalization/adaptive_helpers.py:180 | vector indexing succeeds exactly for -n <= i < n, with negative indices counting from the end |
| Features.SkillMasteryOfCanonical | backend/personalization/adaptive_helpers.py:179-180 | a canonical skill id reads its own entry of a 35-entry mastery vector |
| Features.TargetMasteries | backend/personalization/adaptive_helpers.py:177-181 | succeeds exactly when every target resolves, giving one mastery per target in order |
| Features.Gaps | backend/personalization/adaptive_helpers.py:176-184 | five slots: 1 - mastery for each of the first five targets, then zeros |
| Features.DifficultyIndex | backend/personalization/adaptive_helpers.py:187-188 | intermediate gives 1, advanced 2, and every other level 0 |
| Features.OneHot | backend/personalization/adaptive_helpers.py:189-191 | three slots with a single 1.0 at the level's index |
| Features.PairCountClosedForm | backend/personalization/adaptive_helpers.py:202-208 | n items give n(n-1)/2 pairs |
| Features.PairProducts | backend/personalization/adaptive_helpers.py:202-208 | one product per pair i < j |
| Features.Interactions | backend/personalization/adaptive_helpers.py:200-213 | exactly five interaction slots |
| Features.PadTo | backend/personalization/adaptive_helpers.py:217-218 | padding keeps the entries and appends zeros up to the length |
| Features.ContextSlots | backend/personalization/adaptive_helpers.py:175-213 | exactly fifteen context slots follow the mastery vector |
| Features.ConstructFeatures | backend/personalization/adaptive_helpers.py:148-220 | succeeds exactly when the first five targets resolve, and then has exactly 100 entries |
| Features.ReadTargets | backend/personalization/adaptive_helpers.py:175-181 | the masteries of the first min(5, n) targets, in order |
| Features.FeaturesStartWithMastery | backend/personalization/adaptive_helpers.py:171-220 | the features start with the mastery vector (as far as 100 slots allow) and are zero after the context slots |
| Features.FeatureLayout | backend/personalization/adaptive_helpers.py:148-220 | for 35 skills: [0:35] mastery, [35:40] gaps, [40:43] one-hot difficulty, [43] phase match, [44] week / 10, [45:50] interactions, [50:100] zeros |
| Features.ContextSlotsLayout | backend/personalization/adaptive_helpers.py:175-213 | where gaps, difficulty, phase match, week and interactions land among the fifteen context slots |
| Features.PairProductsOfTwo | backend/personalization/adaptive_helpers.py:202-208 | two targets give the single product a * b |
| Features.PairProductsOfThree | backend/personalization/adaptive_helpers.py:202-208 | three targets give a*b, a*c, b*c in that order |
| Features.InteractionsOfThree | backend/personalization/adaptive_helpers.py:200-213 | three or more targets fill slots (0,1), (0,2), (1,2), then two zeros |
| Features.InteractionsOfTwo | backend/personalization/adaptive_helpers.py:200-213 | two targets record only the product (0,1) |
| Features.InteractionsOfFewer | backend/personalization/adaptive_helpers.py:200-213 | fewer than two targets leave every interaction slot zero |
| Phases.MasteryStats | backend/personalization/adaptive_helpers.py:343-344 | mean and variance exist exactly for a non-empty mastery vector |
| Phases.BaseAllocation | backend/personalization/adaptive_helpers.py:346-357 | 10, 12 and 8 weeks give (3,4,3), (4,5,3) and (2,4,2); every base split has floors 2, 3 and 2 |
| Phases.AdjustForMean | backend/personalization/adaptive_helpers.py:359-368 | a low mean adds a Foundation week capped at total - 4 and takes a Mastery week down to 2; a high mean does the reverse; Practice never changes |
| Phases.AdjustForVariance | backend/personalization/adaptive_helpers.py:370-374 | uneven skills give Practice a week, capped to leave two weeks after Foundation, and take a Mastery week down to 2; otherwise nothing changes |
| Phases.RepairStep | backend/personalization/adaptive_helpers.py:377-381 | one pass grows Practice when short and shrinks it towards 3 when over, leaving the other phases |
| Phases.RepairIterate | backend/personalization/adaptive_helpers.py:376-381 | any number of passes leaves Foundation and Mastery unchanged |
| Phases.AllocatePhases | backend/personalization/adaptive_helpers.py:327-385 | a result exactly when the repair loop terminates, and then the weeks sum to the total with Foundation and Mastery as adjusted |
| Phases.RepairGrows | backend/personalization/adaptive_helpers.py:376-379 | below the total, k passes add k Practice weeks |
| Phases.RepairShrinks | backend/personalization/adaptive_helpers.py:380-381 | above the total with room above 3, k passes remove k Practice weeks |
| Phases.RepairReachesTotal | backend/personalization/adaptive_helpers.py:376-381 | a terminating loop reaches the total after as many passes as the initial difference |
| Phases.RepairNeverEnds | backend/personalization/adaptive_helpers.py:376-381 | when Practice cannot shrink enough, no number of passes reaches the total |
| Phases.AllocatePhasesIsTheLoop | backend/personalization/adaptive_helpers.py:376-385 | a result is some number of loop passes; no result means no number of passes reaches the total |
| Phases.RepairLoop | backend/personalization/adaptive_helpers.py:376-385 | the loop as written returns a split summing to the total without touching Foundation or Mastery |
| Phases.BaseTablesKept | backend/personalization/adaptive_helpers.py:346-351 | a mid-range even mastery vector keeps the fixed tables for 10, 12 and 8 weeks |
| Phases.BeginnerTenWeeks | backend/personalization/adaptive_helpers.py:612-618 | a uniform 0.2 mastery over ten weeks gives (4, 4, 2) |
| Phases.FourWeeksDiverge | backend/personalization/adaptive_helpers.py:352-385 | four weeks with even skills never terminate |
| Phases.FourWeeksUneven | backend/personalization/adaptive_helpers.py:370-385 | four weeks for a beginner (mean mastery below 0.25) with uneven skills (variance above 0.05) terminate at (0, 2, 2), undercutting the loop's floor of three Practice weeks |
| Modules.CheckPrerequisites | backend/personalization/adaptive_helpers.py:445-458 | true exactly when every listed prerequisite is completed, vacuously for none |
| Modules.PrerequisitesMonotone | backend/personalization/adaptive_helpers.py:445-458 | completing more modules never closes a module again, and a module without prerequisites is always open |
| Modules.FilterByPhase | backend/personalization/adaptive_helpers.py:431-442 | exactly the library modules listing the phase, no more of them than the library has |
| Modules.FilterByPhaseAppend | backend/personalization/adaptive_helpers.py:431-442 | filtering distributes over concatenation, so library order is kept |
| Modules.FilterByPhaseIdempotent | backend/personalization/adaptive_helpers.py:431-442 | filtering twice by the same phase changes nothing |
| Modules.FirstIndexWithId | backend/personalization/adaptive_helpers.py:423-426 | the position of the first entry with the id, every earlier entry having another id |
| Modules.GetModuleById | backend/personalization/adaptive_helpers.py:412-428 | none exactly when no entry has the id; otherwise the first entry with it |
| Reward.SkillGain | backend/personalization/adaptive_helpers.py:263-266 | the later snapshot's mastery minus the earlier one's, an error when either lookup fails, the later one's error first |
| Reward.Improvements | backend/personalization/adaptive_helpers.py:263-273 | one gain per listed skill in order, failing exactly when some lookup fails |
| Reward.WeightSum | backend/personalization/adaptive_helpers.py:259-273 | the weight sum is non-negative and positive exactly when the module has any skill |
| Reward.WeightedSumsWithin | backend/personalization/adaptive_helpers.py:275-279 | weighted sums of values in [lo, hi] divided by the weight total stay in [lo, hi] |
| Reward.WeightedMeanWithin | backend/personalization/adaptive_helpers.py:262-279 | the weighted mean lies between the least and the largest improvement |
| Reward.ShapeReward | backend/personalization/adaptive_helpers.py:281-288 | the reward is in [-0.2, 0.5], in [-0.1, 0.25] under low engagement, and an in-range mean passes unchanged under adequate engagement |
| Reward.ComputeModuleReward | backend/personalization/adaptive_helpers.py:227-288 | a module missing from the library earns 0; every reward is in [-0.2, 0.5], halved range under low engagement |
| Reward.NoSkillsNoReward | backend/personalization/adaptive_helpers.py:275-279 | a module with no skills earns 0 whatever the snapshots |
| Reward.UniformGainIsReward | backend/personalization/adaptive_helpers.py:262-288 | when every skill improved by the same in-range d under adequate engagement, the reward is d |
| Reward.LowEngagementHalves | backend/personalization/adaptive_helpers.py:285-286 | low engagement halves the reward adequate engagement would earn |
| Selection.Candidates | backend/personalization/adaptive_planner.py:161-166 | exactly the library modules that suit the phase, are not completed and have all prerequisites completed |
| Selection.ScoreOne | backend/personalization/adaptive_planner.py:174-177 | a candidate's score is the dot product of the sampled parameters with its features, an error exactly when the features fail or the sample has the wrong size |
| Selection.Scores | backend/personalization/adaptive_planner.py:173-177 | one score per candidate in order, failing exactly when some candidate fails |
| Selection.RankedCandidates | backend/personalization/adaptive_planner.py:179-180 | the candidates rearranged by the stable descending ranking of their scores |
| Selection.RankedScores | backend/personalization/adaptive_planner.py:179-180 | the scores in ranked order are non-increasing |
| Selection.PicksOf | backend/personalization/adaptive_planner.py:187-206 | the taken positions, strictly ascending |
| Selection.ChosenAtPicks | backend/personalization/adaptive_planner.py:187-206 | the chosen modules are the ranked candidates at the taken positions |
| Selection.CoveredSkills | backend/personalization/adaptive_planner.py:201 | every target skill of a chosen module is covered |
| Selection.Scan | backend/personalization/adaptive_planner.py:187-206 | the scan decides by the budget, overlap and five-pick rule, and runs to the end of the ranking or to the fifth pick |
| Selection.FollowsExtend | backend/personalization/adaptive_planner.py:189-201 | one more step of the scan keeps to the rule |
| Selection.PicksCapped | backend/personalization/adaptive_planner.py:204-206 | whatever follows the rule never chooses more than five modules |
| Selection.PicksWithinBudget | backend/personalization/adaptive_planner.py:189-191 | whatever follows the rule stays within the time budget |
| Selection.FollowsUnique | backend/personalization/adaptive_planner.py:187-206 | the rule determines the decisions: two decision sequences of one length that follow it are equal |
| Selection.Greedy | backend/personalization/adaptive_planner.py:182-206 | at most five modules, within the budget, all from the ranking |
| Selection.GreedyInScoreOrder | backend/personalization/adaptive_planner.py:179-206 | the greedy picks are the ranked candidates at the taken positions, in non-increasing score order |
| Selection.Choose | backend/personalization/adaptive_planner.py:208-211 | fewer than two greedy picks with at least two candidates gives exactly the top two ranked; otherwise the greedy pick; never more than five |
| Selection.TopTwoAreBest | backend/personalization/adaptive_planner.py:179-211 | the top two candidates beat every other one on score, ties going to the earlier position |
| Selection.DiagnosticId | backend/personalization/adaptive_planner.py:237-249 | foundation, practice and mastery map to the week 3, 6 and 9 diagnostics, and no other phase has one |
| Selection.DiagnosticModule | backend/personalization/adaptive_planner.py:222-251 | a result only for a phase with a diagnostic, and then the library entry with that id, none exactly when the library lacks it |
| Selection.SelectModulesForWeek | backend/personalization/adaptive_planner.py:133-219 | no candidates gives an empty week; every chosen module is eligible; at most five plus the diagnostic; at least two when there are two candidates; the diagnostic only in weeks divisible by 3 |
| Planner.PhaseOfWeek | backend/personalization/adaptive_planner.py:383-388 | a week is Foundation exactly up to N1, Practice exactly in (N1, N1+N2], Mastery exactly after N1+N2 |
| Planner.WeeksInPrefix | backend/personalization/adaptive_planner.py:381-388 | among the first n weeks, Foundation gets min(n, N1), Practice the part of n beyond N1 up to N1+N2, Mastery the part beyond N1+N2 |
| Planner.PlanGivesEachPhaseItsWeeks | backend/personalization/adaptive_planner.py:342-343 | over a plan whose length is the allocation's total, each phase is studied for exactly the number of weeks allocated to it |
| Planner.Transition | backend/personalization/adaptive_planner.py:533-538 | a phase change is recorded exactly after week N1 (to Practice) or week N1+N2 (to Mastery) |
| Planner.TransitionMatchesPhases | backend/personalization/adaptive_planner.py:533-538 | with a non-empty Practice phase, a transition fires exactly when the next week's phase differs from this week's, and names the next week's phase |
| Planner.StoredPhaseTracksWeeks | backend/personalization/adaptive_planner.py:363-370 | starting from the stored "foundation" and applying the transitions of lines 533-538 week by week, the stored phase is always the phase of the week about to be studied |
| Planner.CompletedAfter | backend/personalization/adaptive_planner.py:409 | the completed set only grows, and it contains every module (diagnostic included) planned in an earlier week |
| Planner.PlanWeeks | backend/personalization/adaptive_planner.py:381-409 | a successful plan of weeks first..last has one entry per week |
| Planner.PlanWeeksSelects | backend/personalization/adaptive_planner.py:381-409 | week first+i of the plan is exactly the selection made for that week from the completed set the earlier weeks left behind |
| Planner.WeeklySelectorChoosesFresh | backend/personalization/adaptive_planner.py:390-399 | the weekly selector, for the week's phase, never chooses a module already in the completed set |
| Planner.PlannedModulesNeverRepeat | backend/personalization/adaptive_planner.py:381-409 | no planned module was completed beforehand, and no module is chosen in two different weeks of one plan |
| Planner.GeneratePlan | backend/personalization/adaptive_planner.py:376-409 | the initial plan has one week per plan week, each selected from an empty completed set plus the earlier weeks' modules, with a 300-minute budget |
| Planner.ReplanFutureWeeks | backend/personalization/adaptive_planner.py:551-615 | replanning covers exactly the weeks after the completed one, each selected from the completed modules plus the earlier replanned weeks |
| Planner.CompletedCount | backend/personalization/adaptive_planner.py:639-640 | the completed count is at most the task count, and equals it exactly when every task is completed |
| Planner.IsWeekComplete | backend/personalization/adaptive_planner.py:624-649 | a week is complete exactly when it has at least one task and every task is completed |
| Planner.ResolveModules | backend/personalization/adaptive_planner.py:652-681 | the week's modules are library entries with the week's ids, at most one per id, and none exactly when no id is in the library |
| Planner.ObserveModule | backend/personalization/adaptive_planner.py:468-487 | a module's observation succeeds exactly when its reward and its context features can both be computed, and then it is that reward and those features |
| Planner.TriggerWeeklyAdaptation | backend/personalization/adaptive_planner.py:427-548 | an unfinished week and a week without modules are refused with their errors; otherwise there is one reward in [-1, 1] and one 100-dimensional feature vector per module, the average reward is their mean and stays in [-1, 1], and the next phase is the transition's phase or the current one |
| Planner.LoadBanditModel | backend/personalization/adaptive_planner.py:91-131 | a stored model is restored through from_dict; with none stored, a fresh 100-dimensional model with zero mean, identity covariance, noise 0.1 and no updates |
| Planner.LoadRestoresSaved | backend/personalization/adaptive_planner.py:41-131 | a model saved and loaded again comes back unchanged, when its precision is the inverse of its covariance |
| Bandit.NewBandit | backend/personalization/bandit.py:24-55 | construction fails exactly when the covariance (identity unless given) cannot be inverted; otherwise the model has no updates, the given noise, the given or zero mean and covariance, and a precision that is the covariance's inverse |
| Bandit.Update | backend/personalization/bandit.py:87-124 | an empty batch changes nothing, even the counter; zero noise or a singular precision is an error; otherwise the precision grows by the scaled Gram matrix, the covariance is its inverse, the counter grows by the number of rewards and the shapes are kept |
| Bandit.UpdateMeanAsWritten | backend/personalization/bandit.py:113-122 | the mean as written is the old mean plus the new covariance times the scaled evidence, whatever the prediction error |
| Bandit.ConjugateUpdate | backend/personalization/bandit.py:96-98 | the conjugate update the docstring states: the same covariance, precision, counter and errors as the update, with its own mean |
| Bandit.ConjugateNormalEquation | backend/personalization/bandit.py:96-98 | the corrected mean solves the posterior normal equation: new precision times new mean equals old precision times old mean plus the scaled evidence |
| Bandit.MeanQuirkExample | backend/personalization/bandit.py:113-122 | for a one-dimensional unit prior with mean 1, one observation with feature 1 and reward 1 moves the mean to 1.5 as written, while the conjugate update keeps it at 1 |
| Bandit.Predict | backend/personalization/bandit.py:70-85 | the expected reward is the mean's dot product with the features, and the uncertainty is the non-negative square root of the features' variance, clipped at 0 |
| Bandit.UcbScore | backend/personalization/bandit.py:126-142 | with a non-negative exploration weight the bound is at least the expected reward, and with weight 0 it is exactly the expected reward |
| Bandit.UcbMonotoneInAlpha | backend/personalization/bandit.py:126-142 | a larger exploration weight never lowers the bound |
| Bandit.PredictZeroFeatures | backend/personalization/bandit.py:70-85 | the zero feature vector predicts reward 0 with no uncertainty |
| Bandit.ConfidenceInterval | backend/personalization/bandit.py:222-242 | the interval is centred on the expected reward and, for a non-negative quantile, contains it |
| Bandit.ToDict | backend/personalization/bandit.py:144-157 | the record holds the dimension, mean, covariance, noise and counter of the model |
| Bandit.FromDict | backend/personalization/bandit.py:159-177 | a restored model carries the stored counter |
| Bandit.DictRoundTrip | backend/personalization/bandit.py:144-177 | restoring a saved record fails exactly when the covariance cannot be inverted, and otherwise gives back the same model with the precision recomputed as the covariance's inverse |
| Bandit.Reset | backend/personalization/bandit.py:202-211 | a reset model keeps its dimension and noise, has no updates, zero mean and unit variances, and is well shaped |
| Bandit.ResetForgets | backend/personalization/bandit.py:202-211 | two models with the same dimension and noise reset to the same state, whatever their histories |
| Bandit.ExplorationRate | backend/personalization/bandit.py:213-220 | the rate is undefined exactly for a zero-dimensional model |
| Bandit.ResetExplorationIsOne | backend/personalization/bandit.py:202-220 | after a reset the exploration rate is 1 |
| Bandit.ExplorationRateWithin | backend/personalization/bandit.py:213-220 | the exploration rate lies between the least and the largest variance on the diagonal |
| BanditFactory.CreateBandit | backend/personalization/bandit.py:338-354 | an unknown kind is an error; "thompson" builds a Bayesian linear bandit from its arguments with noise 0.1 by default, "epsilon_greedy" an epsilon-greedy bandit with epsilon 0.1 by default, and arguments the constructor does not accept are an error |
| BanditFactory.DefaultThompsonPrior | backend/personalization/bandit.py:24-55 | with only the dimension given, the Thompson bandit starts from zero mean, identity covariance and precision, noise 0.1 and no updates |
| BanditFactory.DefaultGreedy | backend/personalization/bandit.py:255-264 | with no arguments, the epsilon-greedy bandit explores with probability 0.1 and has seen nothing |
| EpsilonGreedy.NewGreedy | backend/personalization/bandit.py:255-264 | a new bandit has the given epsilon and no rewards or counts |
| EpsilonGreedy.Score | backend/personalization/bandit.py:281-295 | an untried module scores 0.5 and a tried one its mean reward |
| EpsilonGreedy.Exploit | backend/personalization/bandit.py:281-295 | exploiting yields nothing exactly for an empty id list, and otherwise the first id with the highest score |
| EpsilonGreedy.FirstBestUnique | backend/personalization/bandit.py:281-295 | the first best id is unique |
| EpsilonGreedy.SelectModule | backend/personalization/bandit.py:266-295 | a draw below epsilon picks the chosen random id (an error on no ids); otherwise the result is the first best-scoring id, and nothing exactly when there are no ids |
| EpsilonGreedy.Update | backend/personalization/bandit.py:297-310 | the reward is appended to the module's list and its count grows by 1, both created on first use, and nothing else changes |
| EpsilonGreedy.UpdateAllRecords | backend/personalization/bandit.py:297-310 | after a history of updates, a module's rewards are its earlier ones followed by exactly the history's rewards for it, in order, and its count is their number |
| EpsilonGreedy.GetModuleStats | backend/personalization/bandit.py:312-337 | an untried module reports all zeros; a tried one its reward count, mean and population standard deviation |
| EpsilonGreedy.RepeatedRewardStats | backend/personalization/bandit.py:297-337 | a fresh bandit given only the reward c for one module n >= 1 times reports mean c, count n and no spread |
| EpsilonGreedy.UntriedWinsOverPoorRewards | backend/personalization/bandit.py:281-295 | when every reward seen so far is below 0.5, exploiting picks the first untried id |
| DiagConfig.TierFor | backend/skill_builder/adaptive_diagnostic_config.py:93-108 | a position is in the easier tier exactly before position 9 and in the harder tier exactly from position 26 on |
| DiagConfig.QTypeOfName | backend/skill_builder/adaptive_diagnostic_config.py:15-70 | reading a bank type name gives a type whose name is that string |
| DiagConfig.NameRoundTrip | backend/skill_builder/adaptive_diagnostic_config.py:15-70 | a canonical type, one whose free-text name spells no listed type, is read back from its own name |
| DiagConfig.NamesDistinguishTypes | backend/skill_builder/adaptive_diagnostic_config.py:15-70 | two canonical types are equal exactly when their bank names are |
| DiagConfig.TierMonotone | backend/skill_builder/adaptive_diagnostic_config.py:93-108 | tiers never get easier further along the sequence |
| DiagConfig.TierSizeClosed | backend/skill_builder/adaptive_diagnostic_config.py:88-108 | among the first n positions, 9 at most are easier, up to 17 medium and the rest beyond 26 harder |
| DiagConfig.SequenceFillsTiers | backend/skill_builder/adaptive_diagnostic_config.py:15-90 | the sequence is exactly as long as the tiers reach (30), and its positions split 9 / 17 / 4 across the tiers |
| DiagConfig.EveryPositionListed | backend/skill_builder/adaptive_diagnostic_config.py:15-53 | every position of the sequence is listed among the positions of its own question type |
| DiagConfig.ListedPositionsHoldType | backend/skill_builder/adaptive_diagnostic_config.py:15-53 | every listed position is in the sequence and holds the type it is listed under |
| DiagConfig.PositionsIncrease | backend/skill_builder/adaptive_diagnostic_config.py:15-53 | a type's positions are listed in increasing order |
| DiagConfig.SequenceMatchesCounts | backend/skill_builder/adaptive_diagnostic_config.py:15-87 | every question type occurs in the sequence exactly as often as its configured count says |
| DiagConfig.CountsAddUp | backend/skill_builder/adaptive_diagnostic_config.py:71-87 | the configured counts of the mapped types add up to the sequence's length |
| DiagConfig.SequencedTypesHaveSkills | backend/skill_builder/adaptive_diagnostic_config.py:54-70 | every type in the sequence maps to a non-empty list of known skills, and a type has skills exactly when it is mapped |
| DiagSession.ResolvedIds | backend/skill_builder/adaptive_diagnostic_logic.py:94-102 | the resolved ids are non-empty, at most one per skill, and none exactly when no skill of the type resolves |
| DiagSession.MeanRating | backend/skill_builder/adaptive_diagnostic_logic.py:104-120 | with no resolved skill the rating is the default 1500; otherwise it is the mean of the user's ratings (the default where unrated) over the resolved ids |
| DiagSession.EffectiveElo | backend/skill_builder/adaptive_diagnostic_logic.py:75-120 | a question type without skills gets the default rating |
| DiagSession.EffectiveEloWithin | backend/skill_builder/adaptive_diagnostic_logic.py:75-120 | when every rating and the default lie in [lo, hi], so does the effective rating |
| DiagSession.EffectiveEloUnrated | backend/skill_builder/adaptive_diagnostic_logic.py:75-120 | a user with no rating on any resolved skill gets the default rating |
| DiagSession.Get | backend/skill_builder/adaptive_diagnostic_logic.py:378 | a position has a stored answer exactly when it is a key of the answers |
| DiagSession.Put | backend/skill_builder/adaptive_diagnostic_logic.py:428-434 | storing under an existing key keeps the keys and their order; a new key is added at the end |
| DiagSession.PutGet | backend/skill_builder/adaptive_diagnostic_logic.py:428-434 | after storing, the key holds the new record and every other key its old one |
| DiagSession.PutDistinct | backend/skill_builder/adaptive_diagnostic_logic.py:428-434 | storing never gives a position two entries |
| DiagSession.LowerLetterMatches | backend/skill_builder/adaptive_diagnostic_logic.py:394 | answers are compared case-insensitively: "c" matches "C" and "C" does not match "D" |
| DiagSession.EloChanges | backend/skill_builder/adaptive_diagnostic_logic.py:410-425 | every listed skill was rated before or after, its two ratings differ, and its change is after minus before |
| DiagSession.EloChangesComplete | backend/skill_builder/adaptive_diagnostic_logic.py:410-425 | a skill is listed exactly when its rating (default 1500 when missing) moved, with both ratings; an update that moves nothing lists nothing |
| DiagSession.PickNext | backend/skill_builder/adaptive_diagnostic_logic.py:457-465 | no next question is found exactly when the bank has none for the slot either excluding the selected ids or with no exclusions |
| DiagSession.ProcessAnswer | backend/skill_builder/adaptive_diagnostic_logic.py:345-510 | a successful answer needs a stored session whose position is within its selected ids; the session moves on one position and stores the upper-cased answer, the correct answer, the verdict and the rating changes under the answered position |
| DiagSession.ProcessAnswerErrors | backend/skill_builder/adaptive_diagnostic_logic.py:367-391 | the errors in the source's order: no session, a session not in progress, a sequence already used up, and a question missing from the bank, each exactly in its case |
| DiagSession.ProcessAnswerStep | backend/skill_builder/adaptive_diagnostic_logic.py:393-508 | correctness is case-insensitive equality with the question's answer; the session is complete exactly when the sequence is used up or the bank has no question for the next slot even without exclusions; completion alone changes the status; a found question is appended to the selected ids |
| DiagSession.ProcessAnswerProgress | backend/skill_builder/adaptive_diagnostic_logic.py:437-449 | progress reports the sequence length as total, and the next position counted from one with its tier, or the position itself and "complete" once the sequence is used up |
| DiagSession.ProcessAnswerRecords | backend/skill_builder/adaptive_diagnostic_logic.py:427-434 | the stored answer is upper-cased, holds no lower-case letter and sits under the answered position; every other position keeps its record |
| DiagSession.ExhaustedProgressExample | backend/skill_builder/adaptive_diagnostic_logic.py:440-474 | when the bank runs out for the next slot the session completes, yet the progress computed beforehand (2 of 30, easier tier) is reported |
| DiagSession.CreateSession | backend/skill_builder/adaptive_diagnostic_logic.py:191-257 | a new session is in progress at position 0 with one selected question and no answers or drill |
| DiagSession.ProcessAnswerKeepsAligned | backend/skill_builder/adaptive_diagnostic_logic.py:437-508 | answering keeps the selected ids one ahead of the position, and a session in progress only fails on a question the bank does not know |
| DiagSession.CorrectEntries | backend/skill_builder/adaptive_diagnostic_logic.py:548 | no more answers are correct than there are answers |
| DiagSession.KnownEntries | backend/skill_builder/adaptive_diagnostic_logic.py:553-567 | no more answers have a known question than there are answers |
| DiagSession.TypePerformanceSums | backend/skill_builder/adaptive_diagnostic_logic.py:551-567 | the per-type tallies count every answer whose question the bank knows exactly once, have correct at most total, and never give a type two tallies |
| DiagSession.CompleteDiagnostic | backend/skill_builder/adaptive_diagnostic_logic.py:513-656 | a finished completion marks the session completed with the new drill id |
| DiagSession.CompleteIdempotent | backend/skill_builder/adaptive_diagnostic_logic.py:534-540 | completing twice reports the first drill id, whatever id the second call would have generated |
| DiagSession.CompleteStatuses | backend/skill_builder/adaptive_diagnostic_logic.py:530-541 | a missing session and any status other than in progress, answering complete or completed are errors; only the first two finish, keeping answers, selected ids and position |
| DiagSession.CompleteSummary | backend/skill_builder/adaptive_diagnostic_logic.py:546-549 | the summary counts one question per answer, correct at most total, incorrect the rest and none skipped, and a score that is the percentage correct in [0, 100], 0 without answers |
| DiagSession.CompleteTypePerformance | backend/skill_builder/adaptive_diagnostic_logic.py:551-567 | the completed summary's per-type totals add up to the answers whose question the bank knows, each tally sound and each type once |
| Drill.Multiplier | backend/skill_builder/logic.py:22-24 | the multiplier is positive: 0.7 for 70%, 1.3 for 130% and 1.0 for any other timing |
| Drill.TimeLimit | backend/skill_builder/logic.py:241-247 | an untimed drill has no limit; at the standard pace the limit is exactly n times 90 seconds and at 130% the product truncated to whole seconds; at 70% it is 63n, or 63n - 1 exactly when the double product falls short, so the limit is always within two seconds below the scaled time |
| Drill.FiveQuestionsStandardPace | backend/skill_builder/logic.py:241-247 | five questions at the standard pace have 450 seconds |
| Drill.SeventyLimit | backend/skill_builder/logic.py:241-247 | the 70% limit is 63n seconds, or one less exactly when 36n exceeds the largest power of two at most 63n, mirrored toward zero for negative counts |
| Drill.SeventyPercentExamples | backend/skill_builder/logic.py:241-247 | at 70% one question gets 62 seconds and two get 125, while three get 189 and five 315 |
| Drill.ShortfallScaleFree | backend/skill_builder/logic.py:241-247 | the 70% shortfall at k questions recurs at 2k |
| Drill.TimeLimitMonotone | backend/skill_builder/logic.py:241-247 | more questions never shorten the limit |
| Drill.CorrectCount | backend/skill_builder/logic.py:94 | the correct count is at most the number of answers, 0 exactly when no answer is correct and all of them exactly when every answer is |
| Drill.IncorrectCount | backend/skill_builder/logic.py:95 | the incorrect count is 0 exactly when no answer is both wrong and filled in, and all answers exactly when every one is |
| Drill.SkippedCount | backend/skill_builder/logic.py:96 | the skipped count is 0 exactly when every answer has a user answer, and all answers exactly when none has |
| Drill.CorrectButBlank | backend/skill_builder/logic.py:94-96 | the answers counted both correct and skipped number 0 exactly when no correct answer lacks a user answer, and all answers exactly when every one is correct and blank |
| Drill.CountsPartition | backend/skill_builder/logic.py:94-97 | incorrect excludes correct and skipped, and every answer is counted once except a correct answer without a user answer, which is counted both correct and skipped |
| Drill.CorrectBlankCountedTwice | backend/skill_builder/logic.py:95-97 | one correct answer with no user answer counts as correct and as skipped, and not as incorrect |
| Drill.SkillPerformanceCounts | backend/skill_builder/logic.py:100-111 | a skill has a tally exactly when it occurs on some answer; its total is its number of occurrences, its correct count those on correct answers (at most the total), and no skill has two tallies |
| Drill.ScorePercentage | backend/skill_builder/logic.py:98 | the score lies in [0, 100], is 0 for an empty drill, is 100 exactly when every answer is correct, and is 100 times the fraction correct |
| Drill.SubmitDrillAnswers | backend/skill_builder/logic.py:91-161 | the result counts every answer, correct at most total, incorrect disjoint from correct and from skipped, a score in [0, 100], and "Great job!" exactly when the score is at least 80 |
| DrillQuery.PlaceholderMarks | backend/skill_builder/logic.py:170 | the exclusion list has exactly one '?' per excluded id |
| DrillQuery.Exclusion | backend/skill_builder/logic.py:169-171 | the id exclusion is present exactly when there are ids to exclude, and then has one mark per id |
| DrillQuery.WhereClause | backend/skill_builder/logic.py:167-171 | the where clause has the filters' marks plus one per excluded id, and is the filters joined by AND when nothing is excluded |
| DrillQuery.Render | backend/skill_builder/logic.py:173-179 | the query's only marks are the where clause's and the LIMIT's |
| DrillQuery.BuildQuestionQuery | backend/skill_builder/logic.py:164-179 | the query has one mark per filter mark, one per excluded id and one for the LIMIT |
| DrillQuery.FallbackQueryParameters | backend/skill_builder/logic.py:224-235 | the fallback query binds as many parameters ('lsat', each excluded id, the remaining count) as it has marks |
| Taxonomy.DomainSkills | backend/skill_builder/evaluate.py:31-48 | a domain lists exactly its own skills, numbered from 1 in order, as many as the domain has |
| Taxonomy.AllSkillsAreTheKnownOnes | backend/skill_builder/evaluate.py:31-74 | the skill names and the domains agree: the 22 named skills are exactly the skills of the four domains, each listed once |
| Taxonomy.PriorityOf | backend/skill_builder/evaluate.py:939-945 | a skill is critical exactly when it is on the critical list, high exactly when it is on the high list and not the critical one, and moderate otherwise |
| Taxonomy.ImpactFollowsOrder | backend/skill_builder/evaluate.py:939-945 | a more urgent label always carries a larger impact score (8, 5, 3), so sorting on order and then descending impact is sorting on the order alone |
| Taxonomy.ImpactListsPartition | backend/skill_builder/evaluate.py:85-90 | the three impact lists cover every known skill without overlap, and the moderate list is exactly what the fallback branch of the priority lookup reaches |
| Tallies.Lookup | backend/skill_builder/logic.py:107-108 | a found tally has the key and is in the table, and none is found exactly when no tally has the key |
| Tallies.Record | backend/skill_builder/logic.py:105-111 | recording keeps the keys and their order, adding a tally at the end for a key seen for the first time |
| Tallies.RecordLookup | backend/skill_builder/logic.py:105-111 | recording one occurrence bumps that key's tally and leaves every other key's alone |
| Tallies.RecordSum | backend/skill_builder/logic.py:105-111 | recording one occurrence adds exactly one to the grand total |
| Tallies.RecordSound | backend/skill_builder/logic.py:105-111 | recording keeps every tally's correct count at most its total |
| Tallies.RecordDistinct | backend/skill_builder/logic.py:105-111 | recording never gives a key two tallies |
| Tallies.RecordAllTotal | backend/skill_builder/logic.py:102-111 | recording a list of keys adds each key's number of occurrences to its total |
| Tallies.RecordAllCorrect | backend/skill_builder/logic.py:102-111 | recording a list of keys for a correct answer adds each key's occurrences to its correct count, and nothing for an incorrect one |
| Tallies.RecordAllPresence | backend/skill_builder/logic.py:102-111 | after recording a list of keys, a key has a tally exactly when it had one or occurs in the list |
| Tallies.Ratio | backend/skill_builder/evaluate.py:404 | an accuracy is 0 without attempts, otherwise correct over total, and lies in [0, 1] when correct is at most total |
| Ranking.RankKeys | backend/skill_builder/evaluate.py:899 | the sorted order lists every index exactly once, higher keys first and equal keys in their input order |
| Ranking.RankUnique | backend/skill_builder/evaluate.py:899 | any order with those properties is the stable descending order, so the sort's result is determined |
| EvalMetrics.ComputeMetrics | backend/skill_builder/evaluate.py:346-419 | the metrics count every answer, correct at most total, and the overall accuracy is correct over total, in [0, 1], and 0 without answers |
| EvalMetrics.ByTypePresence | backend/skill_builder/evaluate.py:370-379 | a question type has a tally exactly when it was answered |
| EvalMetrics.ByTypeTotal | backend/skill_builder/evaluate.py:370-379 | each type's total is the number of answers of that type |
| EvalMetrics.ByTypeCorrect | backend/skill_builder/evaluate.py:370-379 | each type's correct count is the number of correct answers of that type |
| EvalMetrics.ByTypeShape | backend/skill_builder/evaluate.py:360-379 | the type totals add up to the number of answers, every tally has correct at most total, and no type has two tallies |
| EvalMetrics.BySkillPresence | backend/skill_builder/evaluate.py:387-400 | a skill has a tally exactly when some answered type's skill list names it |
| EvalMetrics.BySkillTotal | backend/skill_builder/evaluate.py:387-400 | each skill's total is its number of occurrences in the answered types' skill lists |
| EvalMetrics.BySkillCorrect | backend/skill_builder/evaluate.py:387-400 | each skill's correct count is its number of occurrences in the correctly answered types' skill lists |
| EvalMetrics.BySkillShape | backend/skill_builder/evaluate.py:387-400 | every skill tally has correct at most total, no skill has two tallies, and every skill with a tally is a named skill |
| EvalMetrics.InferTrap | backend/skill_builder/evaluate.py:464-536 | every wrong answer is read as some trap, and as the unspecified error exactly for a type the rules do not list |
| EvalMetrics.InferTrapInverse | backend/skill_builder/evaluate.py:464-536 | each listed type has a trap of its own, so the trap tells the type back |
| EvalMetrics.CorrectPlusWrong | backend/skill_builder/evaluate.py:358-368 | every answer is either counted correct or kept as a wrong one |
| EvalMetrics.TrapsIgnoreCorrect | backend/skill_builder/evaluate.py:434-437 | correct answers play no part: the trap analysis of all answers is that of the wrong ones |
| EvalMetrics.AddWrongOther | backend/skill_builder/evaluate.py:439-459 | a wrong answer of one type leaves every other type's entry alone |
| EvalMetrics.AddWrongSame | backend/skill_builder/evaluate.py:439-459 | a wrong answer gives its own type an entry, with one more wrong answer and its trap counted once more |
| EvalMetrics.AnalyzeTrapsBalanced | backend/skill_builder/evaluate.py:422-461 | per type, the wrong count is the sum of the trap counts, and over all types the wrong counts add up to the number of wrong answers |
| EvalMetrics.TrapsPresence | backend/skill_builder/evaluate.py:422-461 | a type has an entry exactly when it has a wrong answer |
| EvalMetrics.TrapsWrongCount | backend/skill_builder/evaluate.py:422-461 | a type's entry counts exactly its wrong answers |
| EvalMetrics.TrapsOwnTrap | backend/skill_builder/evaluate.py:422-461 | all of a type's wrong answers fall under the type's own trap |
| EvalMetrics.TrapsNoOtherTrap | backend/skill_builder/evaluate.py:422-461 | no other trap is counted for a type |
| EvalPatterns.QtAccuracy | backend/skill_builder/evaluate.py:550-551 | a question type that was not asked counts as accuracy 1.0 |
| EvalPatterns.QtAccuracyOfAnswers | backend/skill_builder/evaluate.py:550-551 | a type's accuracy is its share of correct answers, and 1.0 for a type not asked |
| EvalPatterns.WeakTypeCount | backend/skill_builder/evaluate.py:687 | no more types are weak than have tallies |
| EvalPatterns.RootCausesKnown | backend/skill_builder/evaluate.py:556-724 | every root cause a rule names is a named skill |
| EvalPatterns.Fired | backend/skill_builder/evaluate.py:556-724 | the fired set holds exactly the rules whose conditions hold |
| EvalPatterns.MatchesFired | backend/skill_builder/evaluate.py:539-726 | every reported match is that of a rule that fires; every rule that fires is reported once, in the source's order; nothing is reported exactly when no rule fires |
| EvalPatterns.ExclusiveRules | backend/skill_builder/evaluate.py:587-710 | rules that read one type's weakness as two different failures never fire together (core conditional vs chain deduction, sufficiency gap vs evidential weight, necessity gap vs evidential weight, the cross-type rule vs both conditional rules, structural matching vs core conditional) |
| EvalPatterns.AllCorrectNoPatterns | backend/skill_builder/evaluate.py:539-726 | every rule needs a wrong answer: when all answers are correct no rule fires, whatever was asked |
| EvalPatterns.OneWrongMainPointSignals | backend/skill_builder/evaluate.py:346-461 | a single wrong Main Point answer gives Main Point accuracy 0, every other type 1.0, one weak type and one conclusion confusion |
| EvalPatterns.OneWrongMainPoint | backend/skill_builder/evaluate.py:560-585 | on those signals exactly the conclusion-identification and intermediate-conclusion rules fire, the first with medium confidence because the unasked role type counts as strong |
| EvalFingerprint.Definition | backend/skill_builder/evaluate.py:742-791 | eight rules have a pattern definition, each naming its own rule as evidence; the other six have none |
| EvalFingerprint.DefinitionsConsistent | backend/skill_builder/evaluate.py:742-791 | two rules never share a pattern, every affected skill is a named skill, and the skills a firing rule blames are among its pattern's affected skills |
| EvalFingerprint.DefinedSound | backend/skill_builder/evaluate.py:793-803 | every collected pattern is the definition of some match's rule |
| EvalFingerprint.DefinedComplete | backend/skill_builder/evaluate.py:793-803 | every match whose rule has a definition contributes that pattern |
| EvalFingerprint.DefinedOrdered | backend/skill_builder/evaluate.py:793-803 | matches in rule order give patterns in rule order, so no pattern appears twice |
| EvalFingerprint.Primary | backend/skill_builder/evaluate.py:805-806 | the primary patterns are the first (at most four) collected ones, and all of them when fewer than four |
| EvalFingerprint.TendencyOf | backend/skill_builder/evaluate.py:809-830 | exactly the five mapped traps reveal a tendency |
| EvalFingerprint.TendencyOfInjective | backend/skill_builder/evaluate.py:809-830 | different traps reveal different tendencies |
| EvalFingerprint.NoteTrap | backend/skill_builder/evaluate.py:832-843 | one trap entry either leaves the list alone or appends its own tendency, and only for a trap that was counted and has a tendency |
| EvalFingerprint.CollectTendenciesFacts | backend/skill_builder/evaluate.py:832-843 | the collected tendencies are free of repeats, keep what was listed, each comes from a trap the analysis counts, and every counted trap with a tendency has it listed |
| EvalFingerprint.Tendencies | backend/skill_builder/evaluate.py:861 | at most four tendencies are reported |
| EvalFingerprint.SummaryOf | backend/skill_builder/evaluate.py:844-856 | with patterns the summary names the first, and the second only when there are more than two; without patterns it is the strong summary exactly at overall accuracy 0.70 or more and the below-threshold one otherwise |
| EvalFingerprint.BuildFingerprint | backend/skill_builder/evaluate.py:729-862 | at most four primary patterns and four tendencies |
| EvalFingerprint.FingerprintPatterns | backend/skill_builder/evaluate.py:793-806 | every primary pattern is the definition of one of the matches' rules, and when fewer than four, every defined match's pattern is there |
| EvalFingerprint.FingerprintOrdered | backend/skill_builder/evaluate.py:793-806 | on the rules' own report the primary patterns follow the rule order, so none repeats |
| EvalFingerprint.FingerprintTendencies | backend/skill_builder/evaluate.py:832-861 | the tendencies are pairwise distinct, each revealed by a trap the analysis counts, and when fewer than four are reported every counted trap's tendency is among them |
| EvalFingerprint.NothingToReport | backend/skill_builder/evaluate.py:844-856 | without matches or wrong answers the fingerprint has no patterns or tendencies, and its summary depends on the overall accuracy alone |
| EvalFingerprint.AllCorrectFingerprint | backend/skill_builder/evaluate.py:729-862 | when every answer is correct there is no pattern and no tendency, and the summary is the strong one |
| EvalFingerprint.EmptyFingerprint | backend/skill_builder/evaluate.py:729-862 | without answers there is no pattern and no tendency, and the summary is the below-threshold one |
| EvalStrengths.EloOf | backend/skill_builder/evaluate.py:883-884 | a skill's rating is its stored rating, or 1500 when there is none |
| EvalStrengths.ObservedSound | backend/skill_builder/evaluate.py:876-888 | every observed entry is a scanned skill the answers touched, with its own accuracy and rating |
| EvalStrengths.ObservedComplete | backend/skill_builder/evaluate.py:876-888 | a scanned skill is observed exactly when the answers touched it |
| EvalStrengths.Unobserved | backend/skill_builder/evaluate.py:890-896 | the fallback adds only scanned skills not taken yet, each at accuracy 0.5 with its own rating |
| EvalStrengths.EvidenceFor | backend/skill_builder/evaluate.py:904-910 | the evidence is excellent exactly from accuracy 0.85, strong exactly in [0.70, 0.85), and the percentage shown is the accuracy times 100 truncated |
| EvalStrengths.StrengthsFromOrder | backend/skill_builder/evaluate.py:898-922 | each strength is the pool entry at its place in the stable descending (accuracy, rating) order, ranked from 1 |
| EvalStrengths.StrengthsThree | backend/skill_builder/evaluate.py:865-924 | there are exactly three strengths, whatever the answers |
| EvalStrengths.PoolWellFormed | backend/skill_builder/evaluate.py:874-896 | the pool lists named skills, none twice |
| EvalStrengths.StrengthsRanked | backend/skill_builder/evaluate.py:898-922 | the strengths are named skills, each once, ranked 1, 2, 3 in non-increasing (accuracy, rating) order |
| EvalStrengths.StrengthsBest | backend/skill_builder/evaluate.py:898-922 | no pool entry left out beats a chosen strength |
| EvalStrengths.StrengthsObserved | backend/skill_builder/evaluate.py:874-896 | with three or more skills touched, every strength comes from the answers with its own accuracy and rating |
| EvalStrengths.PoolFallback | backend/skill_builder/evaluate.py:890-896 | with fewer than three touched, the pool holds all 22 skills, the untouched ones at accuracy 0.5 |
| EvalStrengths.NoDataStrengths | backend/skill_builder/evaluate.py:865-924 | without answers or ratings the strengths are the first three named skills, at accuracy 0.5 and rating 1500 |
| EvalWeaknesses.MaxIndex | backend/skill_builder/evaluate.py:954 | the chosen trap has the largest count, and is the first one with that count |
| EvalWeaknesses.TrapForNone | backend/skill_builder/evaluate.py:948-955 | a skill has no trap exactly when no question type listing it has recorded traps |
| EvalWeaknesses.TrapForFirst | backend/skill_builder/evaluate.py:948-955 | otherwise the trap is the most frequent trap of the first type, in mapping order, that lists the skill and has traps |
| EvalWeaknesses.AddCausesFacts | backend/skill_builder/evaluate.py:961-982 | a match's root causes keep the list well formed and keep what was there, and every named cause ends up listed |
| EvalWeaknesses.FromMatchesFacts | backend/skill_builder/evaluate.py:957-982 | over all matches, the list stays well formed and every named root cause of every match is listed |
| EvalWeaknesses.UnseenSound | backend/skill_builder/evaluate.py:987-990 | every candidate for the top-up is a table entry whose skill is not listed yet, at its table accuracy |
| EvalWeaknesses.UnseenComplete | backend/skill_builder/evaluate.py:987-990 | every table entry whose skill is not listed yet is a candidate |
| EvalWeaknesses.SortAscendingFacts | backend/skill_builder/evaluate.py:992 | the sort rearranges the candidates, each once, into ascending accuracy |
| EvalWeaknesses.FillFromFacts | backend/skill_builder/evaluate.py:993-1013 | the top-up keeps the list well formed and keeps what was there; when it stops short of three, every candidate below mastery was added |
| EvalWeaknesses.FillFacts | backend/skill_builder/evaluate.py:984-1013 | when the list ends short of three, every skill of the table below 0.85 accuracy is on it |
| EvalWeaknesses.FillFromMastered | backend/skill_builder/evaluate.py:998 | when no candidate is below mastery, nothing is added |
| EvalWeaknesses.RerankOrder | backend/skill_builder/evaluate.py:1015-1021 | the final list is numbered 1, 2, ... and in priority order, critical first |
| EvalWeaknesses.RerankSame | backend/skill_builder/evaluate.py:1015-1021 | the re-ranking only rearranges: the same skills, still well formed |
| EvalWeaknesses.WeaknessesWellFormed | backend/skill_builder/evaluate.py:927-1023 | the weaknesses name each skill once with its own priority and impact, numbered 1, 2, ... in priority order; inferred ones are below mastery at their table accuracy |
| EvalWeaknesses.WeaknessesComplete | backend/skill_builder/evaluate.py:927-1023 | every named skill a match blames is a weakness, and when there are fewer than three, so is every skill below mastery |
| EvalWeaknesses.AllCorrectNoWeaknesses | backend/skill_builder/evaluate.py:927-1023 | when every answer is correct there are no weaknesses at all, fewer than the three the docstring promises |

## Left out

- Persistence and I/O are not modelled: database reads and writes, task insertion and deletion, mastery snapshots, completion logging, `get_module_completion_rate`, `get_week_start_time`, `get_current_phase`, `update_study_plan_phase`, `get_completed_modules`, `load_module_library`, `get_mastery_vector`, `get_diagnostic_session` and `check_existing_session`. Their results are parameters of the operations that use them.
- `save_bandit_model` is not modelled beyond the record `to_dict` produces. `Planner.LoadBanditModel` restores that record, and `Planner.LoadRestoresSaved` proves the two agree.
- `to_json`/`from_json` are not modelled, because they are JSON text around `to_dict`/`from_dict`, which are modelled.
- `sample_parameters` and the random branches of the epsilon-greedy bandit are not modelled, because they are random. The sample, the coin and the choice are inputs.
- `select_question_for_slot` is not modelled, because it is a database query. `DiagSession.PickNext` takes it as a parameter.
- `_get_skill_db_id` and `_get_taxonomy_skill_ids` are not modelled, because they are database caches. They are a map parameter. The keys of `DiagSession.EloChanges` are the database ids, and their translation back to taxonomy ids is not modelled.
- `elo_online_update` and `irt_online_update` are not modelled, because they live in `insights/logic.py`, which is not part of this model. The ratings before and after the answer are inputs, and the IRT update after completion is a side effect with no effect on the result.
- `rasch_predict_proba_torch` is not modelled, because it is only the sigmoid of theta minus b, and the sigmoid is a parameter here.
- `get_skill_indices` is not modelled separately, because it is a list map of `skill_id_to_index`, which is `SkillCodec.SkillIdToIndex`.
- `get_confidence_intervals` takes the normal quantile z as an input, because the quantile comes from scipy.
- Floating-point rounding of displayed values (`round(x, 1)` in the Elo changes and the diagnostic score) is not modelled, because only the displayed value changes. The source's own comparisons use the unrounded values, and so does the model.
- The GLMM mastery model is not modelled, because its update is defined through a neural-network library's autograd and optimisers.
- Routes, authentication, the scrapers, the placeholder planner in `personalization/logic.py` and the id generator are outside the modelled core.
- Planner.TriggerWeeklyAdaptation stops before the bandit update, its save and the replanning call. Those steps are `Bandit.Update` and `Planner.ReplanFutureWeeks`, stated separately. The reported exploration rate is `Bandit.ExplorationRate` of the updated model.
- Irt.FitLoop states the iteration bookkeeping, not convergence. Newton convergence depends on floating-point behaviour that is not modelled.
- Selection.SelectModulesForWeek takes the Thompson draw as an input, so it states properties for any draw rather than for the distribution of draws.
- ItemDifficulty.NormalizeLabel: lower-cases ASCII letters only, because the four labels are ASCII and no other character lower-cases to an ASCII letter except the Kelvin sign, which lower-cases to k, a letter none of the four labels contains.
- SkillCodec.ParseTrimmed: the non-ASCII decimal digits that `int()` also accepts (Arabic-Indic, full-width and the like) are not modelled; such an id is an error here.
- Irt.RaschFit: the source's NaN run with users and no items is the error `NotANumber(max_outer)`, because reals have no NaN; the NaN thetas it would return are not modelled.
- Drill.TimeLimit: the 70% closed form assumes 63n stays below 2^53, where doubles hold every integer; for larger counts the double product loses more than one second, which is not modelled. The 100% and 130% limits truncate the exact real product, which agrees with the double arithmetic while 117n stays below 2^52.
- Bandit.NewBandit and Bandit.Update require matching vector and matrix shapes. Where the source's numpy calls would raise a ValueError for mismatched shapes, the model has a precondition instead, so that error path is not modelled; the planner builds 100-slot context vectors for bandits of dimension 100 (backend/personalization/adaptive_planner.py:122).

## Findings

| source | as written | input that shows it | evidently intended | confidence | as-written member | corrected member |
|---|---|---|---|---|---|---|
| backend/personalization/bandit.py:113-122 | the mean update computes mu_1 = Sigma_1 (Sigma_1^-1 mu_0 + sigma^-2 Phi^T r) with the already updated precision, so mu_1 = mu_0 + Sigma_1 sigma^-2 Phi^T r | dimension 1, mu_0 = 1, Sigma_0 = 1, noise variance 1, one observation with feature 1 and reward 1: the prediction is exact, yet the mean moves to 1.5 | the conjugate update of the docstring at lines 96-98, mu_1 = Sigma_1 (Sigma_0^-1 mu_0 + sigma^-2 Phi^T r), which keeps the mean at 1 | not executed | Bandit.MeanQuirkExample | Bandit.ConjugateNormalEquation |
