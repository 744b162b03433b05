/** The diagnostic's skill taxonomy: skills S_01..S_04, FL_01..FL_07,
    RH_01..RH_08 and ABS_01..ABS_03 in four domains, and the impact level
    each skill has when it is a weakness. */
module Taxonomy {

  datatype Domain = Structural | FormalLogic | Rhetorical | Abstraction

  /** A skill id such as FL_03: its domain prefix and its number. */
  datatype Skill = Skill(domain: Domain, number: nat)

  /** How many skills `SKILL_DOMAINS` lists per domain. */
  function DomainSize(d: Domain): nat {
    match d
    case Structural => 4
    case FormalLogic => 7
    case Rhetorical => 8
    case Abstraction => 3
  }

  /** The skill has an entry in `SKILL_NAMES`. */
  predicate Known(s: Skill) {
    1 <= s.number <= DomainSize(s.domain)
  }

  /** A domain's skills in numeric order. */
  function DomainSkills(d: Domain): (skills: seq<Skill>)
    ensures |skills| == DomainSize(d)
    ensures forall k :: 0 <= k < |skills| ==> skills[k] == Skill(d, k + 1)
  {
    seq(DomainSize(d), (k: nat) => Skill(d, k + 1))
  }

  /** The keys of `SKILL_NAMES` in their order: the structural, formal-logic,
      rhetorical and abstraction skills. */
  function AllSkills(): (skills: seq<Skill>) {
    DomainSkills(Structural) + DomainSkills(FormalLogic) + DomainSkills(Rhetorical) + DomainSkills(Abstraction)
  }

  /** `SKILL_NAMES` and `SKILL_DOMAINS` agree: the 22 named skills are
      exactly the skills of the four domains, each listed once. */
  lemma AllSkillsAreTheKnownOnes()
    ensures |AllSkills()| == 22
    ensures forall s :: s in AllSkills() <==> Known(s)
    ensures forall i, j :: 0 <= i < j < |AllSkills()| ==> AllSkills()[i] != AllSkills()[j]
  {
    var all := AllSkills();
    forall s | Known(s) ensures s in all {
      var k := s.number - 1;
      match s.domain
      case Structural => assert all[k] == s;
      case FormalLogic => assert all[4 + k] == s;
      case Rhetorical => assert all[11 + k] == s;
      case Abstraction => assert all[19 + k] == s;
    }
    assert forall i :: 0 <= i < |all| ==> Known(all[i]) && Index(all[i]) == i;
  }

  /** A known skill's position in `AllSkills`. */
  function Index(s: Skill): int {
    match s.domain
    case Structural => s.number - 1
    case FormalLogic => 4 + s.number - 1
    case Rhetorical => 11 + s.number - 1
    case Abstraction => 19 + s.number - 1
  }

  /** The three impact lists of `SKILL_IMPACT`. */
  datatype Priority = Critical | High | Moderate

  const CriticalSkills: seq<Skill> := [
    Skill(Structural, 1), Skill(FormalLogic, 1), Skill(FormalLogic, 7),
    Skill(Rhetorical, 3), Skill(Rhetorical, 4)]

  const HighSkills: seq<Skill> := [
    Skill(FormalLogic, 2), Skill(FormalLogic, 3), Skill(FormalLogic, 4),
    Skill(Rhetorical, 1), Skill(Rhetorical, 7), Skill(Rhetorical, 8)]

  const ModerateSkills: seq<Skill> := [
    Skill(Structural, 2), Skill(Structural, 3), Skill(Structural, 4),
    Skill(FormalLogic, 5), Skill(FormalLogic, 6),
    Skill(Rhetorical, 2), Skill(Rhetorical, 5), Skill(Rhetorical, 6),
    Skill(Abstraction, 1), Skill(Abstraction, 2), Skill(Abstraction, 3)]

  /** `get_priority_info`: critical, then high, and moderate for anything
      else. */
  function PriorityOf(s: Skill): (p: Priority)
    ensures p == Critical <==> s in CriticalSkills
    ensures p == High <==> s !in CriticalSkills && s in HighSkills
  {
    if s in CriticalSkills then Critical
    else if s in HighSkills then High
    else Moderate
  }

  /** The impact score paired with each priority label. */
  function ImpactScore(p: Priority): int {
    match p
    case Critical => 8
    case High => 5
    case Moderate => 3
  }

  /** The position of a label in the weakness ordering (CRITICAL first). */
  function PriorityOrder(p: Priority): nat {
    match p
    case Critical => 0
    case High => 1
    case Moderate => 2
  }

  /** A more urgent label always carries a larger impact score, so sorting
      on (order, -impact) is sorting on the order alone. */
  lemma ImpactFollowsOrder(p: Priority, q: Priority)
    ensures PriorityOrder(p) < PriorityOrder(q) <==> ImpactScore(p) > ImpactScore(q)
    ensures PriorityOrder(p) == PriorityOrder(q) <==> p == q
  {
  }

  /** The three impact lists split the known skills: no skill is in two of
      them, and the moderate list is exactly the known skills the `else`
      branch of `get_priority_info` reaches. */
  lemma ImpactListsPartition(s: Skill)
    ensures Known(s) ==> (s in CriticalSkills || s in HighSkills || s in ModerateSkills)
    ensures !(s in CriticalSkills && s in HighSkills)
    ensures s in ModerateSkills <==> Known(s) && PriorityOf(s) == Moderate
  {
  }
}
