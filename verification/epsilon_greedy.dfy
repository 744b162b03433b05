/** The epsilon-greedy baseline bandit: per-module reward histories, a
    random module with probability epsilon, otherwise the module with the
    best average reward, untried modules counting as 0.5. */
module EpsilonGreedy {
  import opened Wrappers
  import opened Numerics

  const DefaultEpsilon: real := 0.1
  /** The optimistic average assumed for a module with no rewards yet. */
  const UntriedReward: real := 0.5

  datatype GreedyBandit = GreedyBandit(epsilon: real, rewards: map<string, seq<real>>, counts: map<string, int>)

  /** Every module with a reward list also has a count, equal to the list's length. */
  predicate Consistent(g: GreedyBandit) {
    g.rewards.Keys == g.counts.Keys && forall m :: m in g.rewards ==> g.counts[m] == |g.rewards[m]|
  }

  function NewGreedy(epsilon: real): (g: GreedyBandit)
    ensures Consistent(g) && g.epsilon == epsilon
    ensures g.rewards == map[] && g.counts == map[]
  {
    GreedyBandit(epsilon, map[], map[])
  }

  predicate Untried(g: GreedyBandit, m: string) {
    m !in g.rewards || |g.rewards[m]| == 0
  }

  /** The exploit score: the mean reward, or 0.5 for an untried module. */
  function Score(g: GreedyBandit, m: string): (s: real)
    ensures Untried(g, m) ==> s == UntriedReward
    ensures !Untried(g, m) ==> s == Mean(g.rewards[m])
  {
    if Untried(g, m) then UntriedReward else Mean(g.rewards[m])
  }

  /** Index k holds a maximal score and no earlier index reaches it: the
      module a left-to-right scan with a strict `>` keeps. */
  predicate IsFirstBest(g: GreedyBandit, ids: seq<string>, k: int) {
    && 0 <= k < |ids|
    && (forall j :: 0 <= j < |ids| ==> Score(g, ids[j]) <= Score(g, ids[k]))
    && (forall j :: 0 <= j < k ==> Score(g, ids[j]) < Score(g, ids[k]))
  }

  /** The exploit branch: scan the ids keeping the first strictly better
      average; `None` when there are no ids (the source returns None). */
  method Exploit(g: GreedyBandit, ids: seq<string>) returns (best: Option<nat>)
    ensures best.None? <==> |ids| == 0
    ensures best.Some? ==> IsFirstBest(g, ids, best.value)
  {
    best := None;
    var bestScore := 0.0;
    var i := 0;
    while i < |ids|
      invariant 0 <= i <= |ids|
      invariant best.None? <==> i == 0
      invariant best.Some? ==> best.value < i && bestScore == Score(g, ids[best.value])
      invariant best.Some? ==> forall j :: 0 <= j < i ==> Score(g, ids[j]) <= bestScore
      invariant best.Some? ==> forall j :: 0 <= j < best.value ==> Score(g, ids[j]) < bestScore
    {
      var s := Score(g, ids[i]);
      if best.None? || s > bestScore {
        best := Some(i);
        bestScore := s;
      }
      i := i + 1;
    }
  }

  /** Two indices that are both first-best are the same index. */
  lemma FirstBestUnique(g: GreedyBandit, ids: seq<string>, k1: int, k2: int)
    requires IsFirstBest(g, ids, k1) && IsFirstBest(g, ids, k2)
    ensures k1 == k2
  {
    assert Score(g, ids[k1]) <= Score(g, ids[k2]) && Score(g, ids[k2]) <= Score(g, ids[k1]);
  }

  datatype SelectError = EmptyChoice

  /** `select_module` with its random draws as inputs: `coin` is the uniform
      draw compared with epsilon and `pick` the index `np.random.choice`
      would return. Exploring over no ids raises; exploiting over none
      yields None. */
  method SelectModule(g: GreedyBandit, ids: seq<string>, coin: real, pick: nat) returns (r: Result<Option<string>, SelectError>)
    requires |ids| > 0 ==> pick < |ids|
    ensures coin < g.epsilon ==> r == (if |ids| == 0 then Err(EmptyChoice) else Ok(Some(ids[pick])))
    ensures coin >= g.epsilon ==> r.Ok? && (r.value.None? <==> |ids| == 0)
    ensures coin >= g.epsilon && r.Ok? && r.value.Some? ==>
      exists k :: IsFirstBest(g, ids, k) && ids[k] == r.value.value
  {
    if coin < g.epsilon {
      if |ids| == 0 {
        return Err(EmptyChoice);
      }
      return Ok(Some(ids[pick]));
    }
    var best := Exploit(g, ids);
    if best.None? {
      return Ok(None);
    }
    return Ok(Some(ids[best.value]));
  }

  /** `update`: append the reward and bump the count, creating both on first use. */
  function Update(g: GreedyBandit, m: string, reward: real): (r: GreedyBandit)
    requires Consistent(g)
    ensures Consistent(r) && r.epsilon == g.epsilon
    ensures r.rewards == g.rewards[m := (if m in g.rewards then g.rewards[m] else []) + [reward]]
    ensures r.counts[m] == (if m in g.counts then g.counts[m] else 0) + 1
  {
    var history := if m in g.rewards then g.rewards[m] else [];
    var count := if m in g.counts then g.counts[m] else 0;
    GreedyBandit(g.epsilon, g.rewards[m := history + [reward]], g.counts[m := count + 1])
  }

  /** Updates replayed in order. */
  function UpdateAll(g: GreedyBandit, obs: seq<(string, real)>): (r: GreedyBandit)
    requires Consistent(g)
    ensures Consistent(r) && r.epsilon == g.epsilon
    decreases |obs|
  {
    if |obs| == 0 then g else UpdateAll(Update(g, obs[0].0, obs[0].1), obs[1..])
  }

  /** The rewards observed for m, in order. */
  function RewardsFor(obs: seq<(string, real)>, m: string): (rs: seq<real>)
    ensures |rs| <= |obs|
  {
    if |obs| == 0 then []
    else (if obs[0].0 == m then [obs[0].1] else []) + RewardsFor(obs[1..], m)
  }

  /** After replaying a history, a module's rewards are its earlier rewards
      followed by exactly the rewards the history gave it, and its count is
      their number. */
  lemma {:induction false} UpdateAllRecords(g: GreedyBandit, obs: seq<(string, real)>, m: string)
    requires Consistent(g)
    ensures var r := UpdateAll(g, obs);
      var before := if m in g.rewards then g.rewards[m] else [];
      && (m in r.rewards <==> m in g.rewards || |RewardsFor(obs, m)| > 0)
      && (m in r.rewards ==> r.rewards[m] == before + RewardsFor(obs, m) && r.counts[m] == |before| + |RewardsFor(obs, m)|)
    decreases |obs|
  {
    if |obs| > 0 {
      var g1 := Update(g, obs[0].0, obs[0].1);
      UpdateAllRecords(g1, obs[1..], m);
      if obs[0].0 == m {
        var before := if m in g.rewards then g.rewards[m] else [];
        assert g1.rewards[m] == before + [obs[0].1];
        assert RewardsFor(obs, m) == [obs[0].1] + RewardsFor(obs[1..], m);
        assert before + [obs[0].1] + RewardsFor(obs[1..], m) == before + RewardsFor(obs, m);
      } else {
        assert RewardsFor(obs, m) == RewardsFor(obs[1..], m);
        assert (m in g1.rewards <==> m in g.rewards) && (m in g.rewards ==> g1.rewards[m] == g.rewards[m]);
      }
    }
  }

  datatype ModuleStats = ModuleStats(meanReward: real, count: nat, std: real)

  /** `get_module_stats`: the mean, count and population standard deviation
      of a module's rewards, all zero for an untried module. */
  function GetModuleStats(g: GreedyBandit, m: string, sqrt: real -> real): (s: ModuleStats)
    requires SqrtLaws(sqrt)
    ensures Untried(g, m) ==> s == ModuleStats(0.0, 0, 0.0)
    ensures !Untried(g, m) ==> s.count == |g.rewards[m]| && s.meanReward == Mean(g.rewards[m])
    ensures s.std >= 0.0
    ensures !Untried(g, m) ==> s.std * s.std == Variance(g.rewards[m])
  {
    if Untried(g, m) then ModuleStats(0.0, 0, 0.0)
    else
      var rs := g.rewards[m];
      VarianceNonNegative(rs);
      ModuleStats(Mean(rs), |rs|, sqrt(Variance(rs)))
  }

  /** A fresh bandit fed only the reward c for module m, n >= 1 times,
      reports mean c, count n and no spread. */
  lemma RepeatedRewardStats(epsilon: real, m: string, c: real, obs: seq<(string, real)>, sqrt: real -> real)
    requires SqrtLaws(sqrt) && |obs| > 0
    requires forall i :: 0 <= i < |obs| ==> obs[i] == (m, c)
    ensures GetModuleStats(UpdateAll(NewGreedy(epsilon), obs), m, sqrt) == ModuleStats(c, |obs|, 0.0)
  {
    var g := NewGreedy(epsilon);
    UpdateAllRecords(g, obs, m);
    var rs := RewardsFor(obs, m);
    RewardsForAll(obs, m, c);
    ConstantVectorStatistics(rs, c);
    var r := UpdateAll(g, obs);
    assert [] + rs == rs;
    assert m in r.rewards && r.rewards[m] == rs;
  }

  /** Every observation is for m with reward c: m's rewards are |obs| copies of c. */
  lemma {:induction false} RewardsForAll(obs: seq<(string, real)>, m: string, c: real)
    requires forall i :: 0 <= i < |obs| ==> obs[i] == (m, c)
    ensures |RewardsFor(obs, m)| == |obs|
    ensures forall i :: 0 <= i < |obs| ==> RewardsFor(obs, m)[i] == c
  {
    if |obs| > 0 {
      RewardsForAll(obs[1..], m, c);
    }
  }

  /** Optimism: when every reward seen so far is below 0.5, exploiting picks
      the first untried id (if there is one). */
  lemma UntriedWinsOverPoorRewards(g: GreedyBandit, ids: seq<string>, k: int)
    requires 0 <= k < |ids| && Untried(g, ids[k])
    requires forall j :: 0 <= j < k ==> !Untried(g, ids[j])
    requires forall m, i :: m in g.rewards && 0 <= i < |g.rewards[m]| ==> g.rewards[m][i] < UntriedReward
    ensures IsFirstBest(g, ids, k)
  {
    forall j | 0 <= j < |ids| && !Untried(g, ids[j]) ensures Score(g, ids[j]) < UntriedReward {
      MeanBelow(g.rewards[ids[j]], UntriedReward);
    }
  }
}
