/** The weaknesses: the skills the matched rules blame, topped up with the
    least accurate skills below mastery while there are fewer than three, then
    ordered critical first. */
module EvalWeaknesses {
  import opened Wrappers
  import opened Taxonomy
  import opened DiagConfig
  import Tallies
  import Ranking
  import opened EvalMetrics
  import opened EvalPatterns

  /** Accuracy from which a skill counts as mastered. */
  const Mastery: real := 0.85

  /** Where a weakness comes from: a matched rule, or a low accuracy. */
  datatype Origin = FromPattern(id: PatternId) | Inferred(accuracy: real)

  /** `SkillWeakness`; the label is the priority, and the notes of the rule
      or the accuracy behind an inferred entry are the origin. */
  datatype Weakness = Weakness(
    skill: Skill, rank: nat, priority: Priority, impact: int, origin: Origin, trap: Option<Trap>)

  /** The position of the first largest count, as Python's `max` over the
      keys picks it. */
  function MaxIndex<T>(counts: Tallies.Table<T>): (k: nat)
    requires |counts| > 0
    ensures k < |counts|
    ensures forall j :: 0 <= j < |counts| ==> counts[j].total <= counts[k].total
    ensures forall j :: 0 <= j < k ==> counts[j].total < counts[k].total
  {
    if |counts| == 1 then 0
    else
      var k := MaxIndex(counts[..|counts| - 1]);
      if counts[|counts| - 1].total > counts[k].total then |counts| - 1 else k
  }

  /** A type that lists the skill and has a non-empty trap entry. */
  predicate HasTraps(t: QType, skill: Skill, analysis: seq<TrapAnalysis>) {
    skill in SkillsOf(t) && FindTraps(analysis, t).Some? && |FindTraps(analysis, t).value.trapCounts| > 0
  }

  /** The most frequent trap of a type's entry. */
  function TopTrap(t: QType, analysis: seq<TrapAnalysis>): Trap
    requires FindTraps(analysis, t).Some? && |FindTraps(analysis, t).value.trapCounts| > 0
  {
    var counts := FindTraps(analysis, t).value.trapCounts;
    counts[MaxIndex(counts)].key
  }

  /** `get_trap_for_skill` over a list of types. */
  function TrapFor(types: seq<QType>, skill: Skill, analysis: seq<TrapAnalysis>): Option<Trap> {
    if |types| == 0 then None
    else if HasTraps(types[0], skill, analysis) then Some(TopTrap(types[0], analysis))
    else TrapFor(types[1..], skill, analysis)
  }

  /** There is no trap exactly when no listed type has traps ... */
  lemma {:induction false} TrapForNone(types: seq<QType>, skill: Skill, analysis: seq<TrapAnalysis>)
    ensures TrapFor(types, skill, analysis).None? <==> forall k :: 0 <= k < |types| ==> !HasTraps(types[k], skill, analysis)
  {
    if |types| > 0 && !HasTraps(types[0], skill, analysis) {
      TrapForNone(types[1..], skill, analysis);
      assert forall k :: 1 <= k < |types| ==> types[k] == types[1..][k - 1];
    }
  }

  /** ... and otherwise it is the top trap of the first type listing the
      skill that has any. */
  lemma {:induction false} TrapForFirst(types: seq<QType>, skill: Skill, analysis: seq<TrapAnalysis>, k: nat)
    requires k < |types| && HasTraps(types[k], skill, analysis)
    requires forall j :: 0 <= j < k ==> !HasTraps(types[j], skill, analysis)
    ensures TrapFor(types, skill, analysis) == Some(TopTrap(types[k], analysis))
  {
    if k > 0 {
      assert forall j :: 0 <= j < k - 1 ==> types[1..][j] == types[j + 1];
      TrapForFirst(types[1..], skill, analysis, k - 1);
    }
  }

  /** A new entry: its priority and impact, and its trap. */
  function NewWeakness(skill: Skill, rank: nat, origin: Origin, analysis: seq<TrapAnalysis>): (w: Weakness)
    ensures w.skill == skill && w.origin == origin
  {
    var p := PriorityOf(skill);
    Weakness(skill, rank, p, ImpactScore(p), origin, TrapFor(MappedTypes, skill, analysis))
  }

  function WeakSkills(ws: seq<Weakness>): (skills: seq<Skill>)
    ensures |skills| == |ws| && forall i :: 0 <= i < |ws| ==> skills[i] == ws[i].skill
  {
    seq(|ws|, i requires 0 <= i < |ws| => ws[i].skill)
  }

  /** One root cause: added when it is a named skill not seen yet. */
  function AddCause(acc: seq<Weakness>, skill: Skill, id: PatternId, analysis: seq<TrapAnalysis>): seq<Weakness> {
    if Known(skill) && skill !in WeakSkills(acc) then acc + [NewWeakness(skill, |acc| + 1, FromPattern(id), analysis)]
    else acc
  }

  function AddCauses(acc: seq<Weakness>, causes: seq<Skill>, id: PatternId, analysis: seq<TrapAnalysis>): seq<Weakness>
    decreases |causes|
  {
    if |causes| == 0 then acc else AddCauses(AddCause(acc, causes[0], id, analysis), causes[1..], id, analysis)
  }

  /** The loop over the matches and their root causes. */
  function FromMatches(acc: seq<Weakness>, matches: seq<Match>, analysis: seq<TrapAnalysis>): seq<Weakness>
    decreases |matches|
  {
    if |matches| == 0 then acc
    else FromMatches(AddCauses(acc, matches[0].rootCauses, matches[0].id, analysis), matches[1..], analysis)
  }

  /** The pairs (skill, accuracy) of a table's entries. */
  ghost function AccuracyPairs(bySkill: Tallies.Table<Skill>): set<(Skill, real)> {
    set k | 0 <= k < |bySkill| :: (bySkill[k].key, Tallies.Accuracy(bySkill[k]))
  }

  /** Entries carry the priority and impact of their skill; no skill comes
      twice; blamed skills are named skills; inferred ones are below mastery
      at their table accuracy. */
  ghost predicate WellFormed(ws: seq<Weakness>, bySkill: Tallies.Table<Skill>) {
    && (forall i :: 0 <= i < |ws| ==> ws[i].priority == PriorityOf(ws[i].skill) && ws[i].impact == ImpactScore(ws[i].priority))
    && (forall i, j :: 0 <= i < j < |ws| ==> ws[i].skill != ws[j].skill)
    && (forall i :: 0 <= i < |ws| && ws[i].origin.FromPattern? ==> Known(ws[i].skill))
    && (forall i :: 0 <= i < |ws| && ws[i].origin.Inferred? ==>
          ws[i].origin.accuracy < Mastery && (ws[i].skill, ws[i].origin.accuracy) in AccuracyPairs(bySkill))
  }

  /** Appending an entry for a new skill keeps a list well formed. */
  lemma AppendWellFormed(acc: seq<Weakness>, w: Weakness, bySkill: Tallies.Table<Skill>)
    requires WellFormed(acc, bySkill)
    requires w.priority == PriorityOf(w.skill) && w.impact == ImpactScore(w.priority)
    requires w.skill !in WeakSkills(acc)
    requires w.origin.FromPattern? ==> Known(w.skill)
    requires w.origin.Inferred? ==> w.origin.accuracy < Mastery && (w.skill, w.origin.accuracy) in AccuracyPairs(bySkill)
    ensures WellFormed(acc + [w], bySkill)
  {
    var r := acc + [w];
    forall i, j | 0 <= i < j < |r| ensures r[i].skill != r[j].skill {
      if j == |acc| {
        assert WeakSkills(acc)[i] == r[i].skill;
      }
    }
  }

  /** Root causes keep the list well formed, keep what was there, and every
      named cause ends up listed. */
  lemma {:induction false} AddCausesFacts(acc: seq<Weakness>, causes: seq<Skill>, id: PatternId,
                                         analysis: seq<TrapAnalysis>, bySkill: Tallies.Table<Skill>)
    requires WellFormed(acc, bySkill)
    ensures WellFormed(AddCauses(acc, causes, id, analysis), bySkill)
    ensures |acc| <= |AddCauses(acc, causes, id, analysis)|
    ensures forall i :: 0 <= i < |acc| ==> AddCauses(acc, causes, id, analysis)[i] == acc[i]
    ensures forall k :: 0 <= k < |causes| && Known(causes[k]) ==> causes[k] in WeakSkills(AddCauses(acc, causes, id, analysis))
    decreases |causes|
  {
    if |causes| > 0 {
      var next := AddCause(acc, causes[0], id, analysis);
      if next != acc {
        AppendWellFormed(acc, NewWeakness(causes[0], |acc| + 1, FromPattern(id), analysis), bySkill);
      }
      AddCausesFacts(next, causes[1..], id, analysis, bySkill);
      var r := AddCauses(acc, causes, id, analysis);
      assert r == AddCauses(next, causes[1..], id, analysis);
      forall k | 0 <= k < |causes| && Known(causes[k]) ensures causes[k] in WeakSkills(r) {
        if k == 0 {
          if next != acc {
            assert WeakSkills(next)[|acc|] == causes[0];
          }
          var i :| 0 <= i < |next| && WeakSkills(next)[i] == causes[0];
          assert r[i] == next[i];
          assert WeakSkills(r)[i] == causes[0];
        } else {
          assert causes[k] == causes[1..][k - 1];
        }
      }
    }
  }

  /** The same over all matches. */
  lemma {:induction false} FromMatchesFacts(acc: seq<Weakness>, matches: seq<Match>,
                                           analysis: seq<TrapAnalysis>, bySkill: Tallies.Table<Skill>)
    requires WellFormed(acc, bySkill)
    ensures WellFormed(FromMatches(acc, matches, analysis), bySkill)
    ensures |acc| <= |FromMatches(acc, matches, analysis)|
    ensures forall i :: 0 <= i < |acc| ==> FromMatches(acc, matches, analysis)[i] == acc[i]
    ensures forall m, k :: 0 <= m < |matches| && 0 <= k < |matches[m].rootCauses| && Known(matches[m].rootCauses[k]) ==>
      matches[m].rootCauses[k] in WeakSkills(FromMatches(acc, matches, analysis))
    decreases |matches|
  {
    if |matches| > 0 {
      var next := AddCauses(acc, matches[0].rootCauses, matches[0].id, analysis);
      AddCausesFacts(acc, matches[0].rootCauses, matches[0].id, analysis, bySkill);
      FromMatchesFacts(next, matches[1..], analysis, bySkill);
      var r := FromMatches(acc, matches, analysis);
      assert r == FromMatches(next, matches[1..], analysis);
      forall m, k | 0 <= m < |matches| && 0 <= k < |matches[m].rootCauses| && Known(matches[m].rootCauses[k])
        ensures matches[m].rootCauses[k] in WeakSkills(r)
      {
        if m == 0 {
          var i :| 0 <= i < |next| && WeakSkills(next)[i] == matches[0].rootCauses[k];
          assert WeakSkills(r)[i] == matches[0].rootCauses[k];
        } else {
          assert matches[m] == matches[1..][m - 1];
        }
      }
    }
  }

  /** A skill and its accuracy, as `skill_accuracies` lists them. */
  datatype Scored = Scored(skill: Skill, accuracy: real)

  /** The table's entries whose skill is not seen yet, in table order. */
  function Unseen(bySkill: Tallies.Table<Skill>, seen: seq<Skill>): (cs: seq<Scored>)
    ensures |cs| <= |bySkill|
  {
    if |bySkill| == 0 then []
    else
      var rest := Unseen(bySkill[1..], seen);
      if bySkill[0].key !in seen then [Scored(bySkill[0].key, Tallies.Accuracy(bySkill[0]))] + rest else rest
  }

  /** Every unseen entry is a table entry whose skill is not seen ... */
  lemma {:induction false} UnseenSound(bySkill: Tallies.Table<Skill>, seen: seq<Skill>)
    ensures forall i :: 0 <= i < |Unseen(bySkill, seen)| ==>
      Unseen(bySkill, seen)[i].skill !in seen
      && (Unseen(bySkill, seen)[i].skill, Unseen(bySkill, seen)[i].accuracy) in AccuracyPairs(bySkill)
  {
    if |bySkill| > 0 {
      UnseenSound(bySkill[1..], seen);
      assert AccuracyPairs(bySkill[1..]) <= AccuracyPairs(bySkill) by {
        forall k | 0 <= k < |bySkill[1..]|
          ensures (bySkill[1..][k].key, Tallies.Accuracy(bySkill[1..][k])) in AccuracyPairs(bySkill)
        {
          assert bySkill[1..][k] == bySkill[k + 1];
        }
      }
      assert (bySkill[0].key, Tallies.Accuracy(bySkill[0])) in AccuracyPairs(bySkill);
    }
  }

  /** ... every table entry whose skill is not seen is there ... */
  lemma {:induction false} UnseenComplete(bySkill: Tallies.Table<Skill>, seen: seq<Skill>)
    ensures forall k :: 0 <= k < |bySkill| && bySkill[k].key !in seen ==>
      Scored(bySkill[k].key, Tallies.Accuracy(bySkill[k])) in Unseen(bySkill, seen)
  {
    if |bySkill| > 0 {
      UnseenComplete(bySkill[1..], seen);
      assert forall k :: 1 <= k < |bySkill| ==> bySkill[k] == bySkill[1..][k - 1];
    }
  }

  /** ... and with no key repeated, no skill comes twice. */
  lemma {:induction false} UnseenDistinct(bySkill: Tallies.Table<Skill>, seen: seq<Skill>)
    requires Tallies.DistinctKeys(bySkill)
    ensures forall i, j :: 0 <= i < j < |Unseen(bySkill, seen)| ==> Unseen(bySkill, seen)[i].skill != Unseen(bySkill, seen)[j].skill
  {
    if |bySkill| > 0 {
      assert Tallies.DistinctKeys(bySkill[1..]) by {
        forall a, b | 0 <= a < b < |bySkill[1..]| ensures bySkill[1..][a].key != bySkill[1..][b].key {
          assert bySkill[1..][a] == bySkill[a + 1] && bySkill[1..][b] == bySkill[b + 1];
        }
      }
      UnseenDistinct(bySkill[1..], seen);
      UnseenKeys(bySkill[1..], seen);
      var rest := Unseen(bySkill[1..], seen);
      var cs := Unseen(bySkill, seen);
      if bySkill[0].key !in seen {
        forall i, j | 0 <= i < j < |cs| ensures cs[i].skill != cs[j].skill {
          assert cs[j] == rest[j - 1];
          if i == 0 {
            assert rest[j - 1].skill in KeySet(bySkill[1..]);
            var k :| 0 <= k < |bySkill[1..]| && bySkill[1..][k].key == rest[j - 1].skill;
            assert bySkill[k + 1].key == rest[j - 1].skill;
          } else {
            assert cs[i] == rest[i - 1];
          }
        }
      }
    }
  }

  /** The keys of a table. */
  ghost function KeySet(bySkill: Tallies.Table<Skill>): set<Skill> {
    set k | 0 <= k < |bySkill| :: bySkill[k].key
  }

  /** Every unseen skill is the key of some table entry. */
  lemma {:induction false} UnseenKeys(bySkill: Tallies.Table<Skill>, seen: seq<Skill>)
    ensures forall i :: 0 <= i < |Unseen(bySkill, seen)| ==> Unseen(bySkill, seen)[i].skill in KeySet(bySkill)
  {
    if |bySkill| > 0 {
      UnseenKeys(bySkill[1..], seen);
      assert KeySet(bySkill) == {bySkill[0].key} + KeySet(bySkill[1..]) by {
        forall x | x in KeySet(bySkill[1..]) ensures x in KeySet(bySkill) {
          var k :| 0 <= k < |bySkill[1..]| && bySkill[1..][k].key == x;
          assert bySkill[k + 1].key == x;
        }
        forall x | x in KeySet(bySkill) ensures x in {bySkill[0].key} + KeySet(bySkill[1..]) {
          var k :| 0 <= k < |bySkill| && bySkill[k].key == x;
          if k > 0 {
            assert bySkill[1..][k - 1].key == x;
          }
        }
      }
    }
  }

  /** `sort(key=accuracy)`: stable ascending, as the stable descending
      order of the negated accuracy. */
  function AscendingKeys(cs: seq<Scored>): (keys: seq<Ranking.Key>)
    ensures |keys| == |cs| && forall i :: 0 <= i < |cs| ==> keys[i] == Ranking.Key(-cs[i].accuracy, 0.0)
  {
    seq(|cs|, i requires 0 <= i < |cs| => Ranking.Key(-cs[i].accuracy, 0.0))
  }

  function SortAscending(cs: seq<Scored>): (sorted: seq<Scored>)
    ensures |sorted| == |cs|
  {
    var order := Ranking.RankKeys(AscendingKeys(cs));
    seq(|cs|, p requires 0 <= p < |cs| => cs[order[p]])
  }

  /** Sorting rearranges: the same entries, each once, in ascending
      accuracy. */
  lemma SortAscendingFacts(cs: seq<Scored>)
    ensures var sorted := SortAscending(cs);
      && (forall p :: 0 <= p < |sorted| ==> sorted[p] in cs)
      && (forall x :: x in cs ==> x in sorted)
      && (forall p, q :: 0 <= p < q < |sorted| ==> sorted[p].accuracy <= sorted[q].accuracy)
  {
    var keys := AscendingKeys(cs);
    var order := Ranking.RankKeys(keys);
    var sorted := SortAscending(cs);
    assert forall p :: 0 <= p < |sorted| ==> sorted[p] == cs[order[p]];
    forall x | x in cs ensures x in sorted {
      var i :| 0 <= i < |cs| && cs[i] == x;
      assert i in order;
      var p :| 0 <= p < |order| && order[p] == i;
      assert sorted[p] == x;
    }
    forall p, q | 0 <= p < q < |sorted| ensures sorted[p].accuracy <= sorted[q].accuracy {
      assert !Ranking.Higher(keys[order[q]], keys[order[p]]);
    }
  }

  /** Sorting keeps the skills free of repeats. */
  lemma SortAscendingDistinct(cs: seq<Scored>)
    requires forall i, j :: 0 <= i < j < |cs| ==> cs[i].skill != cs[j].skill
    ensures var sorted := SortAscending(cs);
      forall p, q :: 0 <= p < q < |sorted| ==> sorted[p].skill != sorted[q].skill
  {
    var keys := AscendingKeys(cs);
    var order := Ranking.RankKeys(keys);
    var sorted := SortAscending(cs);
    forall p, q | 0 <= p < q < |sorted| ensures sorted[p].skill != sorted[q].skill {
      assert Ranking.Precedes(keys, order[p], order[q]);
      assert sorted[p] == cs[order[p]] && sorted[q] == cs[order[q]];
    }
  }

  /** The top-up loop: add the next skill below mastery until there are
      three. */
  function FillFrom(acc: seq<Weakness>, sorted: seq<Scored>, analysis: seq<TrapAnalysis>): seq<Weakness>
    decreases |sorted|
  {
    if |sorted| == 0 || |acc| >= 3 then acc
    else
      var c := sorted[0];
      var next := if c.accuracy < Mastery then acc + [NewWeakness(c.skill, |acc| + 1, Inferred(c.accuracy), analysis)] else acc;
      FillFrom(next, sorted[1..], analysis)
  }

  /** Candidates not yet listed, none twice, each at its table accuracy. */
  ghost predicate Fresh(acc: seq<Weakness>, sorted: seq<Scored>, bySkill: Tallies.Table<Skill>) {
    && (forall p :: 0 <= p < |sorted| ==> sorted[p].skill !in WeakSkills(acc))
    && (forall p, q :: 0 <= p < q < |sorted| ==> sorted[p].skill != sorted[q].skill)
    && (forall p :: 0 <= p < |sorted| ==> (sorted[p].skill, sorted[p].accuracy) in AccuracyPairs(bySkill))
  }

  /** Topping up keeps the list well formed and keeps what was there; when
      it stops short of three, every candidate below mastery was added. */
  lemma {:induction false} FillFromFacts(acc: seq<Weakness>, sorted: seq<Scored>,
                                        analysis: seq<TrapAnalysis>, bySkill: Tallies.Table<Skill>)
    requires WellFormed(acc, bySkill) && Fresh(acc, sorted, bySkill)
    ensures WellFormed(FillFrom(acc, sorted, analysis), bySkill)
    ensures |acc| <= |FillFrom(acc, sorted, analysis)|
    ensures forall i :: 0 <= i < |acc| ==> FillFrom(acc, sorted, analysis)[i] == acc[i]
    ensures |FillFrom(acc, sorted, analysis)| < 3 ==>
      forall p :: 0 <= p < |sorted| && sorted[p].accuracy < Mastery ==> sorted[p].skill in WeakSkills(FillFrom(acc, sorted, analysis))
    decreases |sorted|
  {
    if |sorted| > 0 && |acc| < 3 {
      var c := sorted[0];
      var next := if c.accuracy < Mastery then acc + [NewWeakness(c.skill, |acc| + 1, Inferred(c.accuracy), analysis)] else acc;
      if c.accuracy < Mastery {
        AppendWellFormed(acc, NewWeakness(c.skill, |acc| + 1, Inferred(c.accuracy), analysis), bySkill);
      }
      assert Fresh(next, sorted[1..], bySkill) by {
        assert WeakSkills(next) == WeakSkills(acc) || WeakSkills(next) == WeakSkills(acc) + [c.skill];
        forall p | 0 <= p < |sorted[1..]| ensures sorted[1..][p].skill !in WeakSkills(next) {
          assert sorted[1..][p] == sorted[p + 1];
          assert sorted[p + 1].skill != c.skill;
        }
      }
      FillFromFacts(next, sorted[1..], analysis, bySkill);
      var r := FillFrom(acc, sorted, analysis);
      assert r == FillFrom(next, sorted[1..], analysis);
      if |r| < 3 {
        forall p | 0 <= p < |sorted| && sorted[p].accuracy < Mastery ensures sorted[p].skill in WeakSkills(r) {
          if p == 0 {
            assert WeakSkills(r)[|acc|] == c.skill;
          } else {
            assert sorted[p] == sorted[1..][p - 1];
          }
        }
      }
    }
  }

  /** The top-up: only when fewer than three came from the matches. */
  function Fill(acc: seq<Weakness>, bySkill: Tallies.Table<Skill>, analysis: seq<TrapAnalysis>): seq<Weakness> {
    if |acc| < 3 then FillFrom(acc, SortAscending(Unseen(bySkill, WeakSkills(acc))), analysis) else acc
  }

  /** Topping up a well formed list keeps it well formed; when the result
      is short of three, every skill of the table below mastery is on it. */
  lemma FillFacts(acc: seq<Weakness>, bySkill: Tallies.Table<Skill>, analysis: seq<TrapAnalysis>)
    requires WellFormed(acc, bySkill) && Tallies.DistinctKeys(bySkill)
    ensures WellFormed(Fill(acc, bySkill, analysis), bySkill)
    ensures |acc| <= |Fill(acc, bySkill, analysis)|
    ensures forall i :: 0 <= i < |acc| ==> Fill(acc, bySkill, analysis)[i] == acc[i]
    ensures |Fill(acc, bySkill, analysis)| < 3 ==> forall k :: 0 <= k < |bySkill| && Tallies.Accuracy(bySkill[k]) < Mastery ==>
      bySkill[k].key in WeakSkills(Fill(acc, bySkill, analysis))
  {
    if |acc| < 3 {
      var cs := Unseen(bySkill, WeakSkills(acc));
      var sorted := SortAscending(cs);
      UnseenSound(bySkill, WeakSkills(acc));
      UnseenComplete(bySkill, WeakSkills(acc));
      UnseenDistinct(bySkill, WeakSkills(acc));
      SortAscendingFacts(cs);
      SortAscendingDistinct(cs);
      FillFromFacts(acc, sorted, analysis, bySkill);
      var r := Fill(acc, bySkill, analysis);
      if |r| < 3 {
        forall k | 0 <= k < |bySkill| && Tallies.Accuracy(bySkill[k]) < Mastery ensures bySkill[k].key in WeakSkills(r) {
          if bySkill[k].key in WeakSkills(acc) {
            var i :| 0 <= i < |acc| && WeakSkills(acc)[i] == bySkill[k].key;
            assert WeakSkills(r)[i] == bySkill[k].key;
          } else {
            var x := Scored(bySkill[k].key, Tallies.Accuracy(bySkill[k]));
            assert x in sorted;
            var p :| 0 <= p < |sorted| && sorted[p] == x;
          }
        }
      }
    }
  }

  /** The sort key `(priority order, -impact)`, ascending, as a descending
      key. */
  function PriorityKeys(ws: seq<Weakness>): (keys: seq<Ranking.Key>)
    ensures |keys| == |ws| && forall i :: 0 <= i < |ws| ==>
      keys[i] == Ranking.Key(-(PriorityOrder(ws[i].priority) as real), ws[i].impact as real)
  {
    seq(|ws|, i requires 0 <= i < |ws| => Ranking.Key(-(PriorityOrder(ws[i].priority) as real), ws[i].impact as real))
  }

  /** The final sort and the renumbering `priority_rank = i + 1`. */
  function Rerank(ws: seq<Weakness>): (r: seq<Weakness>)
    ensures |r| == |ws|
  {
    var order := Ranking.RankKeys(PriorityKeys(ws));
    seq(|ws|, p requires 0 <= p < |ws| => ws[order[p]].(rank := p + 1))
  }

  /** Reranking numbers the entries 1, 2, ... and puts them in priority
      order, critical first ... */
  lemma RerankOrder(ws: seq<Weakness>)
    ensures var r := Rerank(ws);
      && (forall p :: 0 <= p < |r| ==> r[p].rank == p + 1)
      && (forall p, q :: 0 <= p < q < |r| ==> PriorityOrder(r[p].priority) <= PriorityOrder(r[q].priority))
  {
    var keys := PriorityKeys(ws);
    var order := Ranking.RankKeys(keys);
    var r := Rerank(ws);
    forall p, q | 0 <= p < q < |r| ensures PriorityOrder(r[p].priority) <= PriorityOrder(r[q].priority) {
      assert r[p] == ws[order[p]].(rank := p + 1) && r[q] == ws[order[q]].(rank := q + 1);
      assert !Ranking.Higher(keys[order[q]], keys[order[p]]);
    }
  }

  /** ... and only rearranges them: the same skills, still well formed. */
  lemma RerankSame(ws: seq<Weakness>, bySkill: Tallies.Table<Skill>)
    requires WellFormed(ws, bySkill)
    ensures WellFormed(Rerank(ws), bySkill)
    ensures forall x :: x in WeakSkills(ws) <==> x in WeakSkills(Rerank(ws))
  {
    var keys := PriorityKeys(ws);
    var order := Ranking.RankKeys(keys);
    var r := Rerank(ws);
    assert forall p :: 0 <= p < |r| ==> r[p] == ws[order[p]].(rank := p + 1);
    forall p, q | 0 <= p < q < |r| ensures r[p].skill != r[q].skill {
      assert Ranking.Precedes(keys, order[p], order[q]);
    }
    forall x ensures x in WeakSkills(ws) <==> x in WeakSkills(r) {
      if x in WeakSkills(ws) {
        var i :| 0 <= i < |ws| && WeakSkills(ws)[i] == x;
        assert i in order;
        var p :| 0 <= p < |order| && order[p] == i;
        assert WeakSkills(r)[p] == x;
      }
      if x in WeakSkills(r) {
        var p :| 0 <= p < |r| && WeakSkills(r)[p] == x;
        assert WeakSkills(ws)[order[p]] == x;
      }
    }
  }

  /** `_identify_weaknesses`. */
  function IdentifyWeaknesses(metrics: Metrics, matches: seq<Match>, analysis: seq<TrapAnalysis>): seq<Weakness> {
    Rerank(Fill(FromMatches([], matches, analysis), metrics.bySkill, analysis))
  }

  /** The weaknesses name each skill once, with its own priority and impact,
      numbered 1, 2, ... in priority order; inferred ones are below mastery
      at their table accuracy. */
  lemma WeaknessesWellFormed(metrics: Metrics, matches: seq<Match>, analysis: seq<TrapAnalysis>)
    requires Tallies.DistinctKeys(metrics.bySkill)
    ensures var r := IdentifyWeaknesses(metrics, matches, analysis);
      && WellFormed(r, metrics.bySkill)
      && (forall p :: 0 <= p < |r| ==> r[p].rank == p + 1)
      && (forall p, q :: 0 <= p < q < |r| ==> PriorityOrder(r[p].priority) <= PriorityOrder(r[q].priority))
  {
    var fromMatches := FromMatches([], matches, analysis);
    FromMatchesFacts([], matches, analysis, metrics.bySkill);
    FillFacts(fromMatches, metrics.bySkill, analysis);
    RerankSame(Fill(fromMatches, metrics.bySkill, analysis), metrics.bySkill);
    RerankOrder(Fill(fromMatches, metrics.bySkill, analysis));
  }

  /** Every named skill a match blames is a weakness; and when there are
      fewer than three, so is every skill below mastery. */
  lemma WeaknessesComplete(metrics: Metrics, matches: seq<Match>, analysis: seq<TrapAnalysis>)
    requires Tallies.DistinctKeys(metrics.bySkill)
    ensures var skills := WeakSkills(IdentifyWeaknesses(metrics, matches, analysis));
      && (forall m, k :: 0 <= m < |matches| && 0 <= k < |matches[m].rootCauses| && Known(matches[m].rootCauses[k]) ==>
            matches[m].rootCauses[k] in skills)
      && (|skills| < 3 ==> forall k :: 0 <= k < |metrics.bySkill| && Tallies.Accuracy(metrics.bySkill[k]) < Mastery ==>
            metrics.bySkill[k].key in skills)
  {
    var fromMatches := FromMatches([], matches, analysis);
    FromMatchesFacts([], matches, analysis, metrics.bySkill);
    FillFacts(fromMatches, metrics.bySkill, analysis);
    var filled := Fill(fromMatches, metrics.bySkill, analysis);
    RerankSame(filled, metrics.bySkill);
    forall m, k | 0 <= m < |matches| && 0 <= k < |matches[m].rootCauses| && Known(matches[m].rootCauses[k])
      ensures matches[m].rootCauses[k] in WeakSkills(filled)
    {
      var i :| 0 <= i < |fromMatches| && WeakSkills(fromMatches)[i] == matches[m].rootCauses[k];
      assert WeakSkills(filled)[i] == matches[m].rootCauses[k];
    }
  }

  /** Nothing below mastery, nothing added. */
  lemma {:induction false} FillFromMastered(acc: seq<Weakness>, sorted: seq<Scored>, analysis: seq<TrapAnalysis>)
    requires forall p :: 0 <= p < |sorted| ==> sorted[p].accuracy >= Mastery
    ensures FillFrom(acc, sorted, analysis) == acc
    decreases |sorted|
  {
    if |sorted| > 0 && |acc| < 3 {
      assert forall p :: 0 <= p < |sorted[1..]| ==> sorted[1..][p] == sorted[p + 1];
      FillFromMastered(acc, sorted[1..], analysis);
    }
  }

  /** With every answer correct, every skill the answers drew on was
      answered correctly every time ... */
  lemma {:induction false} AllCorrectSkillCounts(answers: seq<EvalAnswer>, s: Skill)
    requires forall i :: 0 <= i < |answers| ==> answers[i].isCorrect
    ensures SkillCorrectHits(answers, s) == SkillHits(answers, s)
  {
    if |answers| > 0 {
      AllCorrectSkillCounts(answers[..|answers| - 1], s);
    }
  }

  /** ... so every skill tally is at accuracy 1.0. */
  lemma AllCorrectSkillAccuracy(answers: seq<EvalAnswer>, k: nat)
    requires forall i :: 0 <= i < |answers| ==> answers[i].isCorrect
    requires k < |BySkill(answers)|
    ensures Tallies.Accuracy(BySkill(answers)[k]) == 1.0
  {
    var table := BySkill(answers);
    var s := table[k].key;
    BySkillShape(answers);
    Tallies.LookupEntry(table, k);
    BySkillTotal(answers, s);
    BySkillCorrect(answers, s);
    AllCorrectSkillCounts(answers, s);
    FullAccuracy(table[k]);
  }

  /** Every answer correct: no rule fires and every skill is mastered, so
      there are no weaknesses at all, fewer than the three the top-up aims
      for. */
  lemma AllCorrectNoWeaknesses(answers: seq<EvalAnswer>)
    requires forall i :: 0 <= i < |answers| ==> answers[i].isCorrect
    ensures var metrics := ComputeMetrics(answers);
      var analysis := AnalyzeTraps(answers);
      |IdentifyWeaknesses(metrics, ApplyPatterns(metrics, analysis), analysis)| == 0
  {
    var metrics := ComputeMetrics(answers);
    var analysis := AnalyzeTraps(answers);
    AllCorrectNoPatterns(answers);
    var matches := ApplyPatterns(metrics, analysis);
    assert FromMatches([], matches, analysis) == [];
    var cs := Unseen(metrics.bySkill, []);
    UnseenSound(metrics.bySkill, []);
    SortAscendingFacts(cs);
    var sorted := SortAscending(cs);
    forall p | 0 <= p < |sorted| ensures sorted[p].accuracy >= Mastery {
      assert (sorted[p].skill, sorted[p].accuracy) in AccuracyPairs(metrics.bySkill) by {
        var i :| 0 <= i < |cs| && cs[i] == sorted[p];
      }
      var k :| 0 <= k < |metrics.bySkill| && (metrics.bySkill[k].key, Tallies.Accuracy(metrics.bySkill[k])) == (sorted[p].skill, sorted[p].accuracy);
      AllCorrectSkillAccuracy(answers, k);
    }
    FillFromMastered([], sorted, analysis);
  }
}
