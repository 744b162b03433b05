/** `create_bandit`: build a Thompson-sampling or an epsilon-greedy bandit by
    name, passing the keyword arguments on to the chosen constructor. */
module BanditFactory {
  import opened Wrappers
  import opened Numerics
  import opened LinAlg
  import opened Bandit
  import opened EpsilonGreedy

  /** The keyword arguments the two constructors accept; `None` is "not passed". */
  datatype BanditArgs = BanditArgs(dimension: Option<nat>, priorMean: Option<Vector>, priorCov: Option<Matrix>,
                                   noiseVariance: Option<real>, epsilon: Option<real>)

  datatype AnyBandit = Thompson(linear: LinearBandit) | Greedy(greedy: GreedyBandit)

  datatype FactoryError =
    | UnknownType(kind: string)    // the ValueError for any other name
    | BadArguments                 // the TypeError for a missing or unexpected keyword
    | Construction(cause: BanditError)

  /** The Thompson constructor needs `dimension` and takes no `epsilon`. */
  predicate ThompsonArgs(a: BanditArgs) {
    a.dimension.Some? && a.epsilon.None?
  }

  /** The epsilon-greedy constructor takes nothing but `epsilon`. */
  predicate GreedyArgs(a: BanditArgs) {
    a.dimension.None? && a.priorMean.None? && a.priorCov.None? && a.noiseVariance.None?
  }

  /** The priors, when passed, fit the dimension. */
  predicate PriorsFit(a: BanditArgs) {
    a.dimension.Some? ==>
      && (a.priorMean.Some? ==> |a.priorMean.value| == a.dimension.value)
      && (a.priorCov.Some? ==> IsSquare(a.priorCov.value, a.dimension.value))
  }

  function CreateBandit(kind: string, a: BanditArgs, inv: Inverse): (r: Result<AnyBandit, FactoryError>)
    requires PriorsFit(a)
    ensures kind != "thompson" && kind != "epsilon_greedy" ==> r == Err(UnknownType(kind))
    ensures kind == "thompson" && !ThompsonArgs(a) ==> r == Err(BadArguments)
    ensures kind == "epsilon_greedy" && !GreedyArgs(a) ==> r == Err(BadArguments)
    ensures kind == "thompson" && ThompsonArgs(a) ==>
      var made := NewBandit(a.dimension.value, a.priorMean, a.priorCov, a.noiseVariance.GetOr(DefaultNoiseVariance), inv);
      (r.Ok? <==> made.Ok?) && (r.Ok? ==> r.value == Thompson(made.value)) && (r.Err? ==> r.error == Construction(made.error))
    ensures kind == "epsilon_greedy" && GreedyArgs(a) ==> r == Ok(Greedy(NewGreedy(a.epsilon.GetOr(DefaultEpsilon))))
    ensures r.Ok? ==> (r.value.Thompson? <==> kind == "thompson")
  {
    if kind == "thompson" then
      if !ThompsonArgs(a) then Err(BadArguments)
      else
        match NewBandit(a.dimension.value, a.priorMean, a.priorCov, a.noiseVariance.GetOr(DefaultNoiseVariance), inv)
        case Err(e) => Err(Construction(e))
        case Ok(b) => Ok(Thompson(b))
    else if kind == "epsilon_greedy" then
      if !GreedyArgs(a) then Err(BadArguments)
      else Ok(Greedy(NewGreedy(a.epsilon.GetOr(DefaultEpsilon))))
    else Err(UnknownType(kind))
  }

  /** With only the dimension given, the Thompson bandit starts from the
      standard prior: zero mean, identity covariance and precision, noise 0.1. */
  lemma DefaultThompsonPrior(d: nat, inv: Inverse)
    requires inv(Identity(d)) == Some(Identity(d))
    ensures CreateBandit("thompson", BanditArgs(Some(d), None, None, None, None), inv)
      == Ok(Thompson(LinearBandit(d, Zeros(d), Identity(d), Identity(d), DefaultNoiseVariance, 0)))
  {
  }

  /** With no arguments at all, the epsilon-greedy bandit explores 10% of the time. */
  lemma DefaultGreedy(inv: Inverse)
    ensures CreateBandit("epsilon_greedy", BanditArgs(None, None, None, None, None), inv)
      == Ok(Greedy(GreedyBandit(DefaultEpsilon, map[], map[])))
  {
  }
}
