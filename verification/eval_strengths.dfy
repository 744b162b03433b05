/** The three strengths: the skills with the best (accuracy, Elo) among those
    the answers touched, topped up with every other named skill at a default
    accuracy when fewer than three were touched. */
module EvalStrengths {
  import opened Wrappers
  import opened Taxonomy
  import Tallies
  import Numerics
  import Ranking

  const DefaultRating: real := 1500.0
  const DefaultAccuracy: real := 0.5

  /** `user_elo_ratings`: per skill, the stored rating, or `None` for an entry
      that is not a dictionary or has no rating. */
  type Ratings = map<Skill, Option<real>>

  /** The skill's rating, 1500 when there is none. */
  function EloOf(ratings: Ratings, s: Skill): (elo: real)
    ensures s in ratings && ratings[s].Some? ==> elo == ratings[s].value
    ensures !(s in ratings && ratings[s].Some?) ==> elo == DefaultRating
  {
    if s in ratings && ratings[s].Some? then ratings[s].value else DefaultRating
  }

  /** The skill has a tally with at least one answer. */
  predicate Seen(bySkill: Tallies.Table<Skill>, s: Skill) {
    Tallies.TotalOf(bySkill, s) > 0
  }

  /** The accuracy of the skill's tally, 0.0 when it has none. */
  function SkillAccuracy(bySkill: Tallies.Table<Skill>, s: Skill): real {
    match Tallies.Lookup(bySkill, s)
    case None => 0.0
    case Some(t) => Tallies.Accuracy(t)
  }

  /** An entry of `skill_performance`: skill, accuracy, Elo. */
  datatype Candidate = Candidate(skill: Skill, accuracy: real, elo: real)

  function SkillsOfPool(cs: seq<Candidate>): (skills: seq<Skill>)
    ensures |skills| == |cs| && forall i :: 0 <= i < |cs| ==> skills[i] == cs[i].skill
  {
    seq(|cs|, i requires 0 <= i < |cs| => cs[i].skill)
  }

  /** The first loop: the skills, in order, that the answers touched. */
  function Observed(skills: seq<Skill>, bySkill: Tallies.Table<Skill>, ratings: Ratings): (cs: seq<Candidate>)
    ensures |cs| <= |skills|
  {
    if |skills| == 0 then []
    else
      var rest := Observed(skills[1..], bySkill, ratings);
      var s := skills[0];
      if Seen(bySkill, s) then [Candidate(s, SkillAccuracy(bySkill, s), EloOf(ratings, s))] + rest
      else rest
  }

  /** A scanned skill the answers touched, with its own accuracy and rating. */
  predicate ObservedEntry(skills: seq<Skill>, bySkill: Tallies.Table<Skill>, ratings: Ratings, c: Candidate) {
    && c.skill in skills && Seen(bySkill, c.skill)
    && c.accuracy == SkillAccuracy(bySkill, c.skill) && c.elo == EloOf(ratings, c.skill)
  }

  /** Every observed entry is a scanned skill the answers touched, with its
      own accuracy and rating ... */
  lemma {:induction false} ObservedSound(skills: seq<Skill>, bySkill: Tallies.Table<Skill>, ratings: Ratings)
    ensures forall i :: 0 <= i < |Observed(skills, bySkill, ratings)| ==>
      ObservedEntry(skills, bySkill, ratings, Observed(skills, bySkill, ratings)[i])
  {
    if |skills| > 0 {
      ObservedSound(skills[1..], bySkill, ratings);
      var rest := Observed(skills[1..], bySkill, ratings);
      forall i | 0 <= i < |rest| ensures rest[i].skill in skills {
        assert rest[i].skill in skills[1..];
      }
    }
  }

  /** ... and every scanned skill the answers touched is observed. */
  lemma {:induction false} ObservedComplete(skills: seq<Skill>, bySkill: Tallies.Table<Skill>, ratings: Ratings)
    ensures forall s :: s in skills ==> (s in SkillsOfPool(Observed(skills, bySkill, ratings)) <==> Seen(bySkill, s))
  {
    if |skills| > 0 {
      ObservedSound(skills[1..], bySkill, ratings);
      ObservedComplete(skills[1..], bySkill, ratings);
      var cs := Observed(skills, bySkill, ratings);
      var rest := Observed(skills[1..], bySkill, ratings);
      if Seen(bySkill, skills[0]) {
        assert SkillsOfPool(cs) == [skills[0]] + SkillsOfPool(rest);
      } else {
        assert cs == rest;
      }
      forall s | s in skills ensures s in SkillsOfPool(cs) <==> Seen(bySkill, s) {
        if s != skills[0] {
          assert s in skills[1..];
        } else if s in SkillsOfPool(rest) {
          var i :| 0 <= i < |rest| && SkillsOfPool(rest)[i] == s;
          assert rest[i].skill == s;
        }
      }
    }
  }

  /** Nothing observed when no skill was touched. */
  lemma {:induction false} ObservedNone(skills: seq<Skill>, bySkill: Tallies.Table<Skill>, ratings: Ratings)
    requires forall s :: !Seen(bySkill, s)
    ensures |Observed(skills, bySkill, ratings)| == 0
  {
    if |skills| > 0 {
      ObservedNone(skills[1..], bySkill, ratings);
    }
  }

  /** The fallback loop: every skill not taken yet, at the default accuracy. */
  function Unobserved(skills: seq<Skill>, taken: seq<Skill>, ratings: Ratings): (cs: seq<Candidate>)
    ensures |cs| <= |skills|
    ensures forall i :: 0 <= i < |cs| ==>
      cs[i].skill in skills && cs[i].skill !in taken
      && cs[i].accuracy == DefaultAccuracy && cs[i].elo == EloOf(ratings, cs[i].skill)
  {
    if |skills| == 0 then []
    else
      var rest := Unobserved(skills[1..], taken, ratings);
      assert forall i :: 0 <= i < |rest| ==> rest[i].skill in skills;
      if skills[0] !in taken then [Candidate(skills[0], DefaultAccuracy, EloOf(ratings, skills[0]))] + rest
      else rest
  }

  /** `skill_performance` before sorting. */
  function Pool(bySkill: Tallies.Table<Skill>, ratings: Ratings): seq<Candidate> {
    var observed := Observed(AllSkills(), bySkill, ratings);
    if |observed| < 3 then observed + Unobserved(AllSkills(), SkillsOfPool(observed), ratings)
    else observed
  }

  /** The sort key `(accuracy, elo)`. */
  function Keys(cs: seq<Candidate>): (keys: seq<Ranking.Key>)
    ensures |keys| == |cs|
    ensures forall i :: 0 <= i < |cs| ==> keys[i] == Ranking.Key(cs[i].accuracy, cs[i].elo)
  {
    seq(|cs|, i requires 0 <= i < |cs| => Ranking.Key(cs[i].accuracy, cs[i].elo))
  }

  /** The evidence line: excellent from 0.85, strong from 0.70, with the
      accuracy as a truncated percentage; otherwise relative. */
  datatype Evidence = Excellent(percent: int) | Strong(percent: int) | BestRelative

  function EvidenceFor(accuracy: real): (e: Evidence)
    ensures e.Excellent? <==> accuracy >= 0.85
    ensures e.Strong? <==> 0.70 <= accuracy < 0.85
    ensures !e.BestRelative? ==> e.percent as real <= accuracy * 100.0 < e.percent as real + 1.0
  {
    if accuracy >= 0.85 then Excellent(Numerics.TruncToInt(accuracy * 100.0))
    else if accuracy >= 0.70 then Strong(Numerics.TruncToInt(accuracy * 100.0))
    else BestRelative
  }

  /** `SkillStrength`. */
  datatype Strength = Strength(skill: Skill, rank: nat, evidence: Evidence, elo: real, accuracy: real)

  /** The strength at a 1-based rank. */
  function StrengthOf(c: Candidate, rank: nat): (s: Strength)
    ensures s.skill == c.skill && s.rank == rank && s.accuracy == c.accuracy && s.elo == c.elo
  {
    Strength(c.skill, rank, EvidenceFor(c.accuracy), c.elo, c.accuracy)
  }

  /** `_identify_strengths`: the pool in stable descending (accuracy, elo)
      order, cut after three. */
  function IdentifyStrengths(bySkill: Tallies.Table<Skill>, ratings: Ratings): (r: seq<Strength>)
    ensures |r| <= 3
  {
    var pool := Pool(bySkill, ratings);
    var order := Ranking.RankKeys(Keys(pool));
    var n := if |pool| < 3 then |pool| else 3;
    seq(n, p requires 0 <= p < n => StrengthOf(pool[order[p]], p + 1))
  }

  /** Each strength is the pool entry at its place in the sorted order. */
  lemma StrengthsFromOrder(bySkill: Tallies.Table<Skill>, ratings: Ratings)
    ensures var pool := Pool(bySkill, ratings);
      var order := Ranking.RankKeys(Keys(pool));
      var r := IdentifyStrengths(bySkill, ratings);
      |r| <= |order| && forall p :: 0 <= p < |r| ==> order[p] < |pool| && r[p] == StrengthOf(pool[order[p]], p + 1)
  {
  }

  /** With every skill either observed or not, observed and fallback
      together list each skill once. */
  lemma {:induction false} SplitCount(skills: seq<Skill>, bySkill: Tallies.Table<Skill>, taken: seq<Skill>, ratings: Ratings)
    requires forall s :: s in skills ==> (s in taken <==> Seen(bySkill, s))
    ensures |Observed(skills, bySkill, ratings)| + |Unobserved(skills, taken, ratings)| == |skills|
  {
    if |skills| > 0 {
      SplitCount(skills[1..], bySkill, taken, ratings);
    }
  }

  /** The pool always has at least three entries, since there are 22 named
      skills. */
  lemma PoolSize(bySkill: Tallies.Table<Skill>, ratings: Ratings)
    ensures |Pool(bySkill, ratings)| >= 3
  {
    var observed := Observed(AllSkills(), bySkill, ratings);
    if |observed| < 3 {
      AllSkillsAreTheKnownOnes();
      ObservedComplete(AllSkills(), bySkill, ratings);
      SplitCount(AllSkills(), bySkill, SkillsOfPool(observed), ratings);
    }
  }

  /** Exactly three strengths, whatever the answers. */
  lemma StrengthsThree(bySkill: Tallies.Table<Skill>, ratings: Ratings)
    ensures |IdentifyStrengths(bySkill, ratings)| == 3
  {
    PoolSize(bySkill, ratings);
  }

  predicate DistinctSkills(cs: seq<Candidate>) {
    forall i, j :: 0 <= i < j < |cs| ==> cs[i].skill != cs[j].skill
  }

  /** A candidate whose skill is new keeps a list free of repeats. */
  lemma ConsDistinct(c: Candidate, cs: seq<Candidate>)
    requires DistinctSkills(cs) && forall i :: 0 <= i < |cs| ==> cs[i].skill != c.skill
    ensures DistinctSkills([c] + cs)
  {
    var r := [c] + cs;
    forall i, j | 0 <= i < j < |r| ensures r[i].skill != r[j].skill {
      assert r[j] == cs[j - 1];
      if i > 0 {
        assert r[i] == cs[i - 1];
      }
    }
  }

  /** Observed skills are distinct when the skills scanned are. */
  lemma {:induction false} ObservedDistinct(skills: seq<Skill>, bySkill: Tallies.Table<Skill>, ratings: Ratings)
    requires forall i, j :: 0 <= i < j < |skills| ==> skills[i] != skills[j]
    ensures DistinctSkills(Observed(skills, bySkill, ratings))
  {
    if |skills| > 0 {
      ObservedDistinct(skills[1..], bySkill, ratings);
      ObservedSound(skills[1..], bySkill, ratings);
      var rest := Observed(skills[1..], bySkill, ratings);
      if Seen(bySkill, skills[0]) {
        assert forall i :: 0 <= i < |rest| ==> rest[i].skill != skills[0] by {
          forall i | 0 <= i < |rest| ensures rest[i].skill != skills[0] {
            assert rest[i].skill in skills[1..];
            var k :| 0 <= k < |skills[1..]| && skills[1..][k] == rest[i].skill;
            assert skills[k + 1] == rest[i].skill;
          }
        }
        ConsDistinct(Candidate(skills[0], SkillAccuracy(bySkill, skills[0]), EloOf(ratings, skills[0])), rest);
      }
    }
  }

  lemma {:induction false} UnobservedDistinct(skills: seq<Skill>, taken: seq<Skill>, ratings: Ratings)
    requires forall i, j :: 0 <= i < j < |skills| ==> skills[i] != skills[j]
    ensures DistinctSkills(Unobserved(skills, taken, ratings))
  {
    if |skills| > 0 {
      UnobservedDistinct(skills[1..], taken, ratings);
      var rest := Unobserved(skills[1..], taken, ratings);
      if skills[0] !in taken {
        assert forall i :: 0 <= i < |rest| ==> rest[i].skill != skills[0] by {
          forall i | 0 <= i < |rest| ensures rest[i].skill != skills[0] {
            assert rest[i].skill in skills[1..];
            var k :| 0 <= k < |skills[1..]| && skills[1..][k] == rest[i].skill;
            assert skills[k + 1] == rest[i].skill;
          }
        }
        ConsDistinct(Candidate(skills[0], DefaultAccuracy, EloOf(ratings, skills[0])), rest);
      }
    }
  }

  /** Two lists free of repeats, the second avoiding the first's skills. */
  lemma AppendDistinct(a: seq<Candidate>, b: seq<Candidate>)
    requires DistinctSkills(a) && DistinctSkills(b)
    requires forall j :: 0 <= j < |b| ==> b[j].skill !in SkillsOfPool(a)
    ensures DistinctSkills(a + b)
  {
    var r := a + b;
    forall i, j | 0 <= i < j < |r| ensures r[i].skill != r[j].skill {
      if j < |a| {
        assert r[i] == a[i] && r[j] == a[j];
      } else if i < |a| {
        assert r[i] == a[i] && r[j] == b[j - |a|];
        assert SkillsOfPool(a)[i] == a[i].skill;
      } else {
        assert r[i] == b[i - |a|] && r[j] == b[j - |a|];
      }
    }
  }

  /** The pool lists named skills, none twice. */
  lemma PoolWellFormed(bySkill: Tallies.Table<Skill>, ratings: Ratings)
    ensures var pool := Pool(bySkill, ratings);
      && (forall i :: 0 <= i < |pool| ==> Known(pool[i].skill))
      && DistinctSkills(pool)
  {
    AllSkillsAreTheKnownOnes();
    var observed := Observed(AllSkills(), bySkill, ratings);
    ObservedDistinct(AllSkills(), bySkill, ratings);
    ObservedSound(AllSkills(), bySkill, ratings);
    if |observed| < 3 {
      var rest := Unobserved(AllSkills(), SkillsOfPool(observed), ratings);
      UnobservedDistinct(AllSkills(), SkillsOfPool(observed), ratings);
      AppendDistinct(observed, rest);
      var pool := observed + rest;
      forall i | 0 <= i < |pool| ensures Known(pool[i].skill) {
        if i < |observed| {
          assert pool[i] == observed[i];
        } else {
          assert pool[i] == rest[i - |observed|];
        }
      }
    }
  }

  /** The strengths are named skills, each once, ranked 1, 2, 3 in
      non-increasing (accuracy, elo) order. */
  lemma StrengthsRanked(bySkill: Tallies.Table<Skill>, ratings: Ratings)
    ensures var r := IdentifyStrengths(bySkill, ratings);
      && (forall p :: 0 <= p < |r| ==> r[p].rank == p + 1 && Known(r[p].skill))
      && (forall p, q :: 0 <= p < q < |r| ==> r[p].skill != r[q].skill)
      && (forall p, q :: 0 <= p < q < |r| ==>
            !Ranking.Higher(Ranking.Key(r[q].accuracy, r[q].elo), Ranking.Key(r[p].accuracy, r[p].elo)))
  {
    var pool := Pool(bySkill, ratings);
    var keys := Keys(pool);
    var order := Ranking.RankKeys(keys);
    var r := IdentifyStrengths(bySkill, ratings);
    StrengthsFromOrder(bySkill, ratings);
    PoolWellFormed(bySkill, ratings);
    forall p, q | 0 <= p < q < |r| ensures r[p].skill != r[q].skill {
      assert Ranking.Precedes(keys, order[p], order[q]);
      assert order[p] != order[q];
    }
    forall p, q | 0 <= p < q < |r|
      ensures !Ranking.Higher(Ranking.Key(r[q].accuracy, r[q].elo), Ranking.Key(r[p].accuracy, r[p].elo))
    {
      assert keys[order[p]] == Ranking.Key(r[p].accuracy, r[p].elo);
      assert keys[order[q]] == Ranking.Key(r[q].accuracy, r[q].elo);
    }
  }

  /** No pool entry left out beats a chosen strength. */
  lemma StrengthsBest(bySkill: Tallies.Table<Skill>, ratings: Ratings)
    ensures var pool := Pool(bySkill, ratings);
      var r := IdentifyStrengths(bySkill, ratings);
      forall c, p :: c in pool && 0 <= p < |r| && (forall q :: 0 <= q < |r| ==> r[q].skill != c.skill) ==>
        !Ranking.Higher(Ranking.Key(c.accuracy, c.elo), Ranking.Key(r[p].accuracy, r[p].elo))
  {
    var pool := Pool(bySkill, ratings);
    var keys := Keys(pool);
    var order := Ranking.RankKeys(keys);
    var r := IdentifyStrengths(bySkill, ratings);
    StrengthsFromOrder(bySkill, ratings);
    forall c, p | c in pool && 0 <= p < |r| && (forall q :: 0 <= q < |r| ==> r[q].skill != c.skill)
      ensures !Ranking.Higher(Ranking.Key(c.accuracy, c.elo), Ranking.Key(r[p].accuracy, r[p].elo))
    {
      var x :| 0 <= x < |pool| && pool[x] == c;
      assert x in order;
      var q :| 0 <= q < |order| && order[q] == x;
      assert q >= |r|;
      assert keys[order[p]] == Ranking.Key(r[p].accuracy, r[p].elo);
    }
  }

  /** With three or more skills touched, the strengths all come from the
      answers, each with its own accuracy and rating. */
  lemma StrengthsObserved(bySkill: Tallies.Table<Skill>, ratings: Ratings)
    requires |Observed(AllSkills(), bySkill, ratings)| >= 3
    ensures forall p :: 0 <= p < |IdentifyStrengths(bySkill, ratings)| ==>
      var st := IdentifyStrengths(bySkill, ratings)[p];
      Seen(bySkill, st.skill) && st.accuracy == SkillAccuracy(bySkill, st.skill) && st.elo == EloOf(ratings, st.skill)
  {
    StrengthsFromOrder(bySkill, ratings);
    ObservedSound(AllSkills(), bySkill, ratings);
  }

  /** With fewer touched, the pool is the touched skills followed by all the
      others at the default accuracy. */
  lemma PoolFallback(bySkill: Tallies.Table<Skill>, ratings: Ratings)
    requires |Observed(AllSkills(), bySkill, ratings)| < 3
    ensures var pool := Pool(bySkill, ratings);
      |pool| == 22 && forall i :: 0 <= i < |pool| ==> (Seen(bySkill, pool[i].skill) || pool[i].accuracy == DefaultAccuracy)
  {
    PoolSize(bySkill, ratings);
    AllSkillsAreTheKnownOnes();
    var observed := Observed(AllSkills(), bySkill, ratings);
    ObservedComplete(AllSkills(), bySkill, ratings);
    ObservedSound(AllSkills(), bySkill, ratings);
    SplitCount(AllSkills(), bySkill, SkillsOfPool(observed), ratings);
  }

  /** Equal keys keep their input order. */
  lemma EqualKeysKeepOrder(keys: seq<Ranking.Key>)
    requires forall i :: 0 <= i < |keys| ==> keys[i] == keys[0]
    ensures forall p :: 0 <= p < |keys| ==> Ranking.RankKeys(keys)[p] == p
  {
    var identity := seq(|keys|, i requires 0 <= i < |keys| => i);
    assert Ranking.IsRanking(keys, identity) by {
      forall x | 0 <= x < |keys| ensures x in identity {
        assert identity[x] == x;
      }
    }
    Ranking.RankUnique(keys, identity);
  }

  /** Without answers or ratings the pool is every named skill in order, at
      the default accuracy and rating. */
  lemma NoDataPool()
    ensures var pool := Pool([], map[]);
      |pool| == |AllSkills()| && forall i :: 0 <= i < |pool| ==> pool[i] == Candidate(AllSkills()[i], DefaultAccuracy, DefaultRating)
  {
    ObservedNone(AllSkills(), [], map[]);
    UnobservedAll(AllSkills(), map[]);
  }

  /** No answers and no ratings: the first three named skills, at the
      default accuracy and rating. */
  lemma NoDataStrengths()
    ensures var r := IdentifyStrengths([], map[]);
      |r| == 3 && forall p :: 0 <= p < 3 ==>
        r[p] == Strength(AllSkills()[p], p + 1, BestRelative, DefaultRating, DefaultAccuracy)
  {
    var pool := Pool([], map[]);
    NoDataPool();
    assert |AllSkills()| == 22 by {
      AllSkillsAreTheKnownOnes();
    }
    var keys := Keys(pool);
    assert forall i :: 0 <= i < |keys| ==> keys[i] == keys[0];
    EqualKeysKeepOrder(keys);
    StrengthsFromOrder([], map[]);
    var r := IdentifyStrengths([], map[]);
    assert |r| == 3;
    forall p | 0 <= p < 3 ensures r[p] == Strength(AllSkills()[p], p + 1, BestRelative, DefaultRating, DefaultAccuracy) {
      assert r[p] == StrengthOf(pool[p], p + 1);
    }
  }

  /** With nothing taken, the fallback is every skill, in order. */
  lemma {:induction false} UnobservedAll(skills: seq<Skill>, ratings: Ratings)
    ensures var cs := Unobserved(skills, [], ratings);
      |cs| == |skills| && forall i :: 0 <= i < |cs| ==> cs[i] == Candidate(skills[i], DefaultAccuracy, EloOf(ratings, skills[i]))
  {
    if |skills| > 0 {
      UnobservedAll(skills[1..], ratings);
    }
  }
}
