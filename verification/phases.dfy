/** Phase allocation: how many weeks the Foundation, Practice and Mastery
    phases get, from the plan length and the initial mastery vector. */
module Phases {
  import opened Wrappers
  import opened Numerics

  datatype Allocation = Allocation(foundation: int, practice: int, mastery: int) {
    function Total(): int { foundation + practice + mastery }
  }

  /** The mean and variance of the mastery vector; numpy gives NaN for an
      empty vector, and every comparison with NaN is false, which `None`
      stands for. */
  datatype Stats = Stats(mean: real, variance: real)

  function MasteryStats(mastery: seq<real>): (s: Option<Stats>)
    ensures s.None? <==> |mastery| == 0
  {
    if |mastery| == 0 then None else Some(Stats(Mean(mastery), Variance(mastery)))
  }

  /** The starting split: fixed tables for 10, 12 and 8 weeks, otherwise a
      quarter / half / remainder split with floors of 2, 3 and 2. */
  function BaseAllocation(totalWeeks: int): (a: Allocation)
    ensures totalWeeks == 10 ==> a == Allocation(3, 4, 3)
    ensures totalWeeks == 12 ==> a == Allocation(4, 5, 3)
    ensures totalWeeks == 8 ==> a == Allocation(2, 4, 2)
    ensures a.foundation >= 2 && a.practice >= 3 && a.mastery >= 2
  {
    if totalWeeks == 10 then Allocation(3, 4, 3)
    else if totalWeeks == 12 then Allocation(4, 5, 3)
    else if totalWeeks == 8 then Allocation(2, 4, 2)
    else
      var n1 := MaxInt(2, totalWeeks / 4);
      var n2 := MaxInt(3, totalWeeks / 2);
      Allocation(n1, n2, MaxInt(2, totalWeeks - n1 - n2))
  }

  /** A low average mastery (< 0.25) lengthens Foundation by one week, capped
      at total - 4, and shortens Mastery to no less than 2; a high one (> 0.5)
      does the reverse. */
  function AdjustForMean(a: Allocation, totalWeeks: int, stats: Option<Stats>): (r: Allocation)
    ensures r.practice == a.practice
    ensures stats.None? ==> r == a
    ensures stats.Some? && stats.value.mean < 0.25 ==>
      r.foundation == MinInt(a.foundation + 1, totalWeeks - 4) && r.mastery == MaxInt(2, a.mastery - 1)
    ensures stats.Some? && stats.value.mean > 0.5 ==>
      r.foundation == MaxInt(2, a.foundation - 1) && r.mastery == MinInt(a.mastery + 1, totalWeeks - 4)
    ensures stats.Some? && 0.25 <= stats.value.mean <= 0.5 ==> r == a
  {
    match stats
    case None => a
    case Some(s) =>
      if s.mean < 0.25 then
        a.(foundation := MinInt(a.foundation + 1, totalWeeks - 4), mastery := MaxInt(2, a.mastery - 1))
      else if s.mean > 0.5 then
        a.(foundation := MaxInt(2, a.foundation - 1), mastery := MinInt(a.mastery + 1, totalWeeks - 4))
      else a
  }

  /** Uneven skills (variance > 0.05) buy Practice one week, leaving at least
      two weeks after Foundation, and take one from Mastery, keeping 2. */
  function AdjustForVariance(a: Allocation, totalWeeks: int, stats: Option<Stats>): (r: Allocation)
    ensures r.foundation == a.foundation
    ensures stats.Some? && stats.value.variance > 0.05 ==>
      r.practice == MinInt(a.practice + 1, totalWeeks - a.foundation - 2) && r.mastery == MaxInt(2, a.mastery - 1)
    ensures !(stats.Some? && stats.value.variance > 0.05) ==> r == a
  {
    if stats.Some? && stats.value.variance > 0.05 then
      a.(practice := MinInt(a.practice + 1, totalWeeks - a.foundation - 2), mastery := MaxInt(2, a.mastery - 1))
    else a
  }

  /** The split before the repair loop. */
  function PreRepair(totalWeeks: int, mastery: seq<real>): Allocation {
    var stats := MasteryStats(mastery);
    AdjustForVariance(AdjustForMean(BaseAllocation(totalWeeks), totalWeeks, stats), totalWeeks, stats)
  }

  /** One pass of the repair loop's body: grow Practice when short, otherwise
      shrink it, but never below 3. */
  function RepairStep(a: Allocation, totalWeeks: int): (r: Allocation)
    ensures r.foundation == a.foundation && r.mastery == a.mastery
    ensures a.Total() < totalWeeks ==> r.practice == a.practice + 1
    ensures a.Total() > totalWeeks ==> r.practice == MaxInt(3, a.practice - 1)
  {
    if a.Total() < totalWeeks then a.(practice := a.practice + 1)
    else a.(practice := MaxInt(3, a.practice - 1))
  }

  /** The loop's state after k passes; once the total is right the loop has
      stopped, so later passes change nothing. */
  function RepairIterate(a: Allocation, totalWeeks: int, k: nat): (r: Allocation)
    ensures r.foundation == a.foundation && r.mastery == a.mastery
  {
    if k == 0 then a
    else
      var prev := RepairIterate(a, totalWeeks, k - 1);
      if prev.Total() == totalWeeks then prev else RepairStep(prev, totalWeeks)
  }

  /** The loop stops exactly when it is short of the total (Practice grows
      to fit) or when Practice can shrink to fit without going under 3. */
  predicate RepairTerminates(a: Allocation, totalWeeks: int) {
    a.Total() <= totalWeeks || totalWeeks - a.foundation - a.mastery >= 3
  }

  /** `allocate_phases`, with `None` when the repair loop never ends. When it
      ends, Foundation and Mastery are as adjusted and Practice absorbs the rest. */
  function AllocatePhases(totalWeeks: int, mastery: seq<real>): (r: Option<Allocation>)
    ensures r.Some? ==> r.value.Total() == totalWeeks
    ensures r.Some? <==> RepairTerminates(PreRepair(totalWeeks, mastery), totalWeeks)
    ensures r.Some? ==> r.value.foundation == PreRepair(totalWeeks, mastery).foundation
    ensures r.Some? ==> r.value.mastery == PreRepair(totalWeeks, mastery).mastery
  {
    var a := PreRepair(totalWeeks, mastery);
    if RepairTerminates(a, totalWeeks) then Some(a.(practice := totalWeeks - a.foundation - a.mastery))
    else None
  }

  /** Below the total, k passes add k weeks to Practice until it fits. */
  lemma {:induction false} RepairGrows(a: Allocation, totalWeeks: int, k: nat)
    requires k <= totalWeeks - a.Total()
    ensures RepairIterate(a, totalWeeks, k) == a.(practice := a.practice + k)
  {
    if k > 0 {
      RepairGrows(a, totalWeeks, k - 1);
    }
  }

  /** Above the total with room to shrink, k passes remove k weeks from Practice. */
  lemma {:induction false} RepairShrinks(a: Allocation, totalWeeks: int, k: nat)
    requires a.Total() > totalWeeks && totalWeeks - a.foundation - a.mastery >= 3
    requires k <= a.Total() - totalWeeks
    ensures RepairIterate(a, totalWeeks, k) == a.(practice := a.practice - k)
  {
    if k > 0 {
      RepairShrinks(a, totalWeeks, k - 1);
    }
  }

  /** When the loop terminates it does so after |total - target| passes and
      leaves the allocation `AllocatePhases` returns. */
  lemma RepairReachesTotal(a: Allocation, totalWeeks: int)
    requires RepairTerminates(a, totalWeeks)
    ensures var k := if a.Total() <= totalWeeks then totalWeeks - a.Total() else a.Total() - totalWeeks;
      RepairIterate(a, totalWeeks, k) == a.(practice := totalWeeks - a.foundation - a.mastery)
  {
    if a.Total() <= totalWeeks {
      RepairGrows(a, totalWeeks, totalWeeks - a.Total());
    } else {
      RepairShrinks(a, totalWeeks, a.Total() - totalWeeks);
    }
  }

  /** When the condition fails, no number of passes ever reaches the total:
      Practice sticks at 3 with the total still too large. */
  lemma {:induction false} RepairNeverEnds(a: Allocation, totalWeeks: int, k: nat)
    requires !RepairTerminates(a, totalWeeks)
    ensures RepairIterate(a, totalWeeks, k).Total() > totalWeeks
  {
    if k > 0 {
      RepairNeverEnds(a, totalWeeks, k - 1);
    }
  }

  /** `AllocatePhases` is what the source's loop computes: its result is the
      loop's state once the total is reached, and `None` means no number of
      passes ever reaches it. */
  lemma AllocatePhasesIsTheLoop(totalWeeks: int, mastery: seq<real>)
    ensures var a := PreRepair(totalWeeks, mastery);
      var r := AllocatePhases(totalWeeks, mastery);
      && (r.Some? ==> exists k: nat :: RepairIterate(a, totalWeeks, k) == r.value)
      && (r.None? ==> forall k: nat :: RepairIterate(a, totalWeeks, k).Total() != totalWeeks)
  {
    var a := PreRepair(totalWeeks, mastery);
    if RepairTerminates(a, totalWeeks) {
      RepairReachesTotal(a, totalWeeks);
    } else {
      forall k: nat ensures RepairIterate(a, totalWeeks, k).Total() != totalWeeks {
        RepairNeverEnds(a, totalWeeks, k);
      }
    }
  }

  /** The repair loop as written, for an allocation on which it terminates. */
  method RepairLoop(a: Allocation, totalWeeks: int) returns (r: Allocation)
    requires RepairTerminates(a, totalWeeks)
    ensures r.Total() == totalWeeks
    ensures r.foundation == a.foundation && r.mastery == a.mastery
  {
    r := a;
    while r.Total() != totalWeeks
      invariant r.foundation == a.foundation && r.mastery == a.mastery
      invariant r.Total() > totalWeeks ==> r.practice - 1 >= totalWeeks - a.foundation - a.mastery >= 3
      decreases if r.Total() < totalWeeks then totalWeeks - r.Total() else r.Total() - totalWeeks
    {
      if r.Total() < totalWeeks {
        r := r.(practice := r.practice + 1);
      } else {
        r := r.(practice := MaxInt(3, r.practice - 1));
      }
    }
  }

  /** The fixed tables for 10, 12 and 8 weeks come back unchanged for a
      mid-range, even mastery vector. */
  lemma BaseTablesKept(mastery: seq<real>)
    requires |mastery| > 0 && forall i :: 0 <= i < |mastery| ==> mastery[i] == 0.3
    ensures AllocatePhases(10, mastery) == Some(Allocation(3, 4, 3))
    ensures AllocatePhases(12, mastery) == Some(Allocation(4, 5, 3))
    ensures AllocatePhases(8, mastery) == Some(Allocation(2, 4, 2))
  {
    ConstantVectorStatistics(mastery, 0.3);
  }

  /** A uniform 0.2 mastery over ten weeks gives one more Foundation week and
      one fewer Mastery week: (4, 4, 2). */
  lemma BeginnerTenWeeks(mastery: seq<real>)
    requires |mastery| > 0 && forall i :: 0 <= i < |mastery| ==> mastery[i] == 0.2
    ensures AllocatePhases(10, mastery) == Some(Allocation(4, 4, 2))
  {
    ConstantVectorStatistics(mastery, 0.2);
  }

  /** Four weeks never terminate unless the skills are uneven: the floors of
      Foundation and Mastery leave no room for three Practice weeks. */
  lemma FourWeeksDiverge(mastery: seq<real>)
    requires |mastery| == 0 || Variance(mastery) <= 0.05
    ensures AllocatePhases(4, mastery) == None
  {
  }

  /** Uneven skills over four weeks do terminate, with fewer than three
      Practice weeks: the variance rule's cap undercuts the loop's floor. */
  lemma FourWeeksUneven(mastery: seq<real>)
    requires |mastery| > 0 && Mean(mastery) < 0.25 && Variance(mastery) > 0.05
    ensures AllocatePhases(4, mastery) == Some(Allocation(0, 2, 2))
  {
  }
}
