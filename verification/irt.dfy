/** The Rasch model fitted by joint MAP with one-dimensional Newton steps:
    P(correct | u, i) = sigmoid(theta[u] - b[i]). Only the algebraic
    skeleton is modelled: the sigmoid and the logarithm are parameters, and
    nothing is claimed about how fast (or whether) Newton converges. */
module Irt {
  import opened Numerics
  import opened Wrappers

  /** The 1e-12 floor the source uses for degenerate variances. */
  const Tiny: real := 0.000000000001
  const TinyInverse: real := 1000000000000.0

  /** One response: user `user` answered item `item` with `response` (0 or 1). */
  datatype Obs = Obs(user: nat, item: nat, response: real)

  datatype FitConfig = FitConfig(
    maxOuter: nat, tol: real,
    thetaPriorMean: real, thetaPriorVar: real,
    bPriorMean: real, bPriorVar: real)

  const DefaultFit := FitConfig(50, 0.00001, 0.0, 1.0, 0.0, 10.0)

  /** A prior's precision: 1/var, or 1e-12 when the variance is not positive. */
  function Precision(priorVar: real): (prec: real)
    ensures prec > 0.0
    ensures priorVar > 0.0 ==> prec * priorVar == 1.0
    ensures priorVar <= 0.0 ==> prec == Tiny
  {
    if priorVar > 0.0 then 1.0 / priorVar else Tiny
  }

  /** `x - (0 if H == 0 else g / H)`: a guarded Newton step. */
  function NewtonStep(x: real, g: real, h: real): (next: real)
    ensures h == 0.0 ==> next == x
    ensures h != 0.0 ==> (x - next) * h == g
  {
    x - (if h == 0.0 then 0.0 else g / h)
  }

  predicate ValidIds(obs: seq<Obs>, nUsers: nat, nItems: nat) {
    forall k :: 0 <= k < |obs| ==> obs[k].user < nUsers && obs[k].item < nItems
  }

  predicate ItemsIn(obs: seq<Obs>, b: seq<real>) {
    forall k :: 0 <= k < |obs| ==> obs[k].item < |b|
  }

  predicate UsersIn(obs: seq<Obs>, theta: seq<real>) {
    forall k :: 0 <= k < |obs| ==> obs[k].user < |theta|
  }

  /** Number of responses by user `u` (the size of its bucket). */
  function UserCount(obs: seq<Obs>, u: nat): nat {
    if |obs| == 0 then 0 else (if obs[0].user == u then 1 else 0) + UserCount(obs[1..], u)
  }

  /** Number of responses to item `i`. */
  function ItemCount(obs: seq<Obs>, i: nat): nat {
    if |obs| == 0 then 0 else (if obs[0].item == i then 1 else 0) + ItemCount(obs[1..], i)
  }

  /** Sum of r - p over user `u`'s responses, with theta[u] = `t`. */
  function UserResidual(sigmoid: real -> real, obs: seq<Obs>, u: nat, t: real, b: seq<real>): real
    requires ItemsIn(obs, b)
  {
    if |obs| == 0 then 0.0
    else
      var here := if obs[0].user == u then obs[0].response - sigmoid(t - b[obs[0].item]) else 0.0;
      here + UserResidual(sigmoid, obs[1..], u, t, b)
  }

  /** Sum of p(1 - p) over user `u`'s responses: non-negative, and positive when the user answered anything. */
  function UserCurvature(sigmoid: real -> real, obs: seq<Obs>, u: nat, t: real, b: seq<real>): (c: real)
    requires SigmoidLaws(sigmoid) && ItemsIn(obs, b)
    ensures c >= 0.0
    ensures UserCount(obs, u) > 0 ==> c > 0.0
  {
    if |obs| == 0 then 0.0
    else
      var p := sigmoid(t - b[obs[0].item]);
      (if obs[0].user == u then BernoulliVariance(p) else 0.0) + UserCurvature(sigmoid, obs[1..], u, t, b)
  }

  /** Sum of r - p over item `i`'s responses, with b[i] = `bi`. */
  function ItemResidual(sigmoid: real -> real, obs: seq<Obs>, i: nat, theta: seq<real>, bi: real): real
    requires UsersIn(obs, theta)
  {
    if |obs| == 0 then 0.0
    else
      var here := if obs[0].item == i then obs[0].response - sigmoid(theta[obs[0].user] - bi) else 0.0;
      here + ItemResidual(sigmoid, obs[1..], i, theta, bi)
  }

  function ItemCurvature(sigmoid: real -> real, obs: seq<Obs>, i: nat, theta: seq<real>, bi: real): (c: real)
    requires SigmoidLaws(sigmoid) && UsersIn(obs, theta)
    ensures c >= 0.0
    ensures ItemCount(obs, i) > 0 ==> c > 0.0
  {
    if |obs| == 0 then 0.0
    else
      var p := sigmoid(theta[obs[0].user] - bi);
      (if obs[0].item == i then BernoulliVariance(p) else 0.0) + ItemCurvature(sigmoid, obs[1..], i, theta, bi)
  }

  /** The Hessian of a one-dimensional MAP objective: -(sum p(1-p)) - precision.
      It is bounded away from zero, so the H == 0 guard never fires under a proper sigmoid. */
  function Hessian(curvature: real, prec: real): (h: real)
    requires curvature >= 0.0 && prec > 0.0
    ensures h <= -prec < 0.0
  {
    -curvature - prec
  }

  /** New theta for user `u`: its prior mean when it has no responses, else one Newton step. */
  function ThetaUpdate(sigmoid: real -> real, obs: seq<Obs>, u: nat, t: real, b: seq<real>, mean: real, prec: real): real
    requires SigmoidLaws(sigmoid) && ItemsIn(obs, b) && prec > 0.0
  {
    if UserCount(obs, u) == 0 then mean
    else
      var g := UserResidual(sigmoid, obs, u, t, b) - (t - mean) * prec;
      NewtonStep(t, g, Hessian(UserCurvature(sigmoid, obs, u, t, b), prec))
  }

  /** New b for item `i`: its prior mean when it has no responses, else one Newton step. */
  function ItemUpdate(sigmoid: real -> real, obs: seq<Obs>, i: nat, theta: seq<real>, bi: real, mean: real, prec: real): real
    requires SigmoidLaws(sigmoid) && UsersIn(obs, theta) && prec > 0.0
  {
    if ItemCount(obs, i) == 0 then mean
    else
      var g := -ItemResidual(sigmoid, obs, i, theta, bi) - (bi - mean) * prec;
      NewtonStep(bi, g, Hessian(ItemCurvature(sigmoid, obs, i, theta, bi), prec))
  }

  /** `update_thetas`: every user updated from the same pre-sweep theta and b. */
  function UpdateThetas(sigmoid: real -> real, obs: seq<Obs>, theta: seq<real>, b: seq<real>, mean: real, prec: real): (next: seq<real>)
    requires SigmoidLaws(sigmoid) && ItemsIn(obs, b) && prec > 0.0
    ensures |next| == |theta|
    ensures forall u :: 0 <= u < |theta| && UserCount(obs, u) == 0 ==> next[u] == mean
  {
    seq(|theta|, u requires 0 <= u < |theta| => ThetaUpdate(sigmoid, obs, u, theta[u], b, mean, prec))
  }

  /** `update_items`: every item updated from the given theta and its own old b. */
  function UpdateItems(sigmoid: real -> real, obs: seq<Obs>, theta: seq<real>, b: seq<real>, mean: real, prec: real): (next: seq<real>)
    requires SigmoidLaws(sigmoid) && UsersIn(obs, theta) && prec > 0.0
    ensures |next| == |b|
    ensures forall i :: 0 <= i < |b| && ItemCount(obs, i) == 0 ==> next[i] == mean
  {
    seq(|b|, i requires 0 <= i < |b| => ItemUpdate(sigmoid, obs, i, theta, b[i], mean, prec))
  }

  /** A user with responses moves by a Newton step: (new - old) * H = -g, with
      g = sum(r - p) - (old - mean) * precision. */
  lemma ThetaNewtonEquation(sigmoid: real -> real, obs: seq<Obs>, theta: seq<real>, b: seq<real>, mean: real, prec: real, u: nat)
    requires SigmoidLaws(sigmoid) && ItemsIn(obs, b) && prec > 0.0
    requires u < |theta| && UserCount(obs, u) > 0
    ensures (UpdateThetas(sigmoid, obs, theta, b, mean, prec)[u] - theta[u]) * Hessian(UserCurvature(sigmoid, obs, u, theta[u], b), prec)
        == (theta[u] - mean) * prec - UserResidual(sigmoid, obs, u, theta[u], b)
  {
  }

  /** An item with responses moves by a Newton step on its own gradient
      g = -sum(r - p) - (old - mean) * precision. */
  lemma ItemNewtonEquation(sigmoid: real -> real, obs: seq<Obs>, theta: seq<real>, b: seq<real>, mean: real, prec: real, i: nat)
    requires SigmoidLaws(sigmoid) && UsersIn(obs, theta) && prec > 0.0
    requires i < |b| && ItemCount(obs, i) > 0
    ensures (UpdateItems(sigmoid, obs, theta, b, mean, prec)[i] - b[i]) * Hessian(ItemCurvature(sigmoid, obs, i, theta, b[i]), prec)
        == (b[i] - mean) * prec + ItemResidual(sigmoid, obs, i, theta, b[i])
  {
  }

  /** Jacobi sweep: user u's new theta reads only its own old theta (and b), never another user's. */
  lemma ThetaSweepIsLocal(sigmoid: real -> real, obs: seq<Obs>, theta1: seq<real>, theta2: seq<real>, b: seq<real>,
                          mean: real, prec: real, u: nat)
    requires SigmoidLaws(sigmoid) && ItemsIn(obs, b) && prec > 0.0
    requires u < |theta1| && u < |theta2| && theta1[u] == theta2[u]
    ensures UpdateThetas(sigmoid, obs, theta1, b, mean, prec)[u] == UpdateThetas(sigmoid, obs, theta2, b, mean, prec)[u]
  {
  }

  /** Item i's new b reads only its own old b (and theta), never another item's. */
  lemma ItemSweepIsLocal(sigmoid: real -> real, obs: seq<Obs>, theta: seq<real>, b1: seq<real>, b2: seq<real>,
                         mean: real, prec: real, i: nat)
    requires SigmoidLaws(sigmoid) && UsersIn(obs, theta) && prec > 0.0
    requires i < |b1| && i < |b2| && b1[i] == b2[i]
    ensures UpdateItems(sigmoid, obs, theta, b1, mean, prec)[i] == UpdateItems(sigmoid, obs, theta, b2, mean, prec)[i]
  {
  }

  function Shift(xs: seq<real>, c: real): (ys: seq<real>)
    ensures |ys| == |xs|
    ensures forall k :: 0 <= k < |xs| ==> ys[k] == xs[k] - c
  {
    seq(|xs|, k requires 0 <= k < |xs| => xs[k] - c)
  }

  lemma {:induction false} SumShift(xs: seq<real>, c: real)
    ensures Sum(Shift(xs, c)) == Sum(xs) - |xs| as real * c
  {
    if |xs| > 0 {
      assert Shift(xs, c)[1..] == Shift(xs[1..], c);
      SumShift(xs[1..], c);
    }
  }

  /** `recenter`: subtract mean(b) from every theta and every b. */
  function Recenter(theta: seq<real>, b: seq<real>): (res: (seq<real>, seq<real>))
    requires |b| > 0
    ensures |res.0| == |theta| && |res.1| == |b|
  {
    var shift := Mean(b);
    (Shift(theta, shift), Shift(b, shift))
  }

  /** Recentering leaves the difficulties with mean zero and keeps every logit theta[u] - b[i]. */
  lemma RecenterProperties(theta: seq<real>, b: seq<real>)
    requires |b| > 0
    ensures Mean(Recenter(theta, b).1) == 0.0
    ensures forall u, i :: 0 <= u < |theta| && 0 <= i < |b| ==>
      Recenter(theta, b).0[u] - Recenter(theta, b).1[i] == theta[u] - b[i]
  {
    SumShift(b, Mean(b));
  }

  /** One outer iteration: thetas from (theta, b), items from (new theta, b), then recenter. */
  function Sweep(sigmoid: real -> real, obs: seq<Obs>, cfg: FitConfig, theta: seq<real>, b: seq<real>): (res: (seq<real>, seq<real>))
    requires SigmoidLaws(sigmoid) && |b| > 0 && UsersIn(obs, theta) && ItemsIn(obs, b)
    ensures |res.0| == |theta| && |res.1| == |b|
  {
    var theta1 := UpdateThetas(sigmoid, obs, theta, b, cfg.thetaPriorMean, Precision(cfg.thetaPriorVar));
    var b1 := UpdateItems(sigmoid, obs, theta1, b, cfg.bPriorMean, Precision(cfg.bPriorVar));
    Recenter(theta1, b1)
  }

  /** Gauss-Seidel between the halves: the item half reads the freshly
      updated thetas, so two starting thetas that update to the same values
      give the same sweep whatever else they differ in. */
  lemma ItemsReadFreshThetas(sigmoid: real -> real, obs: seq<Obs>, cfg: FitConfig, theta1: seq<real>, theta2: seq<real>, b: seq<real>)
    requires SigmoidLaws(sigmoid) && |b| > 0 && UsersIn(obs, theta1) && UsersIn(obs, theta2) && ItemsIn(obs, b)
    requires UpdateThetas(sigmoid, obs, theta1, b, cfg.thetaPriorMean, Precision(cfg.thetaPriorVar))
          == UpdateThetas(sigmoid, obs, theta2, b, cfg.thetaPriorMean, Precision(cfg.thetaPriorVar))
    ensures Sweep(sigmoid, obs, cfg, theta1, b) == Sweep(sigmoid, obs, cfg, theta2, b)
  {
  }

  /** The state after k sweeps from all-zero parameters. */
  function Sweeps(sigmoid: real -> real, obs: seq<Obs>, cfg: FitConfig, nUsers: nat, nItems: nat, k: nat): (res: (seq<real>, seq<real>))
    requires SigmoidLaws(sigmoid) && nItems > 0 && ValidIds(obs, nUsers, nItems)
    ensures |res.0| == nUsers && |res.1| == nItems
  {
    if k == 0 then (Zeros(nUsers), Zeros(nItems))
    else
      var prev := Sweeps(sigmoid, obs, cfg, nUsers, nItems, k - 1);
      Sweep(sigmoid, obs, cfg, prev.0, prev.1)
  }

  function SumSquaredDeviation(xs: seq<real>, m: real): (s: real)
    ensures s >= 0.0
  {
    if |xs| == 0 then 0.0
    else
      Square(xs[0] - m) + SumSquaredDeviation(xs[1..], m)
  }

  function LogLikelihood(sigmoid: real -> real, log: real -> real, obs: seq<Obs>, theta: seq<real>, b: seq<real>): real
    requires UsersIn(obs, theta) && ItemsIn(obs, b)
  {
    if |obs| == 0 then 0.0
    else
      var p := sigmoid(theta[obs[0].user] - b[obs[0].item]);
      var r := obs[0].response;
      r * log(p + Tiny) + (1.0 - r) * log(1.0 - p + Tiny) + LogLikelihood(sigmoid, log, obs[1..], theta, b)
  }

  /** The negative log-posterior monitored for early stopping. */
  function Objective(sigmoid: real -> real, log: real -> real, obs: seq<Obs>, cfg: FitConfig, theta: seq<real>, b: seq<real>): real
    requires UsersIn(obs, theta) && ItemsIn(obs, b)
  {
    var lpTheta := -0.5 * SumSquaredDeviation(theta, cfg.thetaPriorMean) / Max(cfg.thetaPriorVar, Tiny);
    var lpB := -0.5 * SumSquaredDeviation(b, cfg.bPriorMean) / Max(cfg.bPriorVar, Tiny);
    -(LogLikelihood(sigmoid, log, obs, theta, b) + lpTheta + lpB)
  }

  /** The objective after k >= 1 sweeps. */
  function ObjectiveAt(sigmoid: real -> real, log: real -> real, obs: seq<Obs>, cfg: FitConfig, nUsers: nat, nItems: nat, k: nat): real
    requires SigmoidLaws(sigmoid) && nItems > 0 && ValidIds(obs, nUsers, nItems)
  {
    var s := Sweeps(sigmoid, obs, cfg, nUsers, nItems, k);
    Objective(sigmoid, log, obs, cfg, s.0, s.1)
  }

  /** The stopping test at iteration k: the objective moved by less than `tol`
      since the previous iteration. The first iteration compares against +inf
      and never stops. */
  predicate StopsAt(sigmoid: real -> real, log: real -> real, obs: seq<Obs>, cfg: FitConfig, nUsers: nat, nItems: nat, k: nat)
    requires SigmoidLaws(sigmoid) && nItems > 0 && ValidIds(obs, nUsers, nItems)
  {
    k >= 2 && Abs(ObjectiveAt(sigmoid, log, obs, cfg, nUsers, nItems, k - 1) - ObjectiveAt(sigmoid, log, obs, cfg, nUsers, nItems, k)) < cfg.tol
  }

  /** No iteration from 1 through k met the stopping test. */
  predicate NeverStopsThrough(sigmoid: real -> real, log: real -> real, obs: seq<Obs>, cfg: FitConfig, nUsers: nat, nItems: nat, k: nat)
    requires SigmoidLaws(sigmoid) && nItems > 0 && ValidIds(obs, nUsers, nItems)
  {
    forall j :: 1 <= j <= k ==> !StopsAt(sigmoid, log, obs, cfg, nUsers, nItems, j)
  }

  /** The objective remembered after k iterations; None stands for the initial +inf. */
  function Remembered(sigmoid: real -> real, log: real -> real, obs: seq<Obs>, cfg: FitConfig, nUsers: nat, nItems: nat, k: nat): Option<real>
    requires SigmoidLaws(sigmoid) && nItems > 0 && ValidIds(obs, nUsers, nItems)
  {
    if k == 0 then None else Some(ObjectiveAt(sigmoid, log, obs, cfg, nUsers, nItems, k))
  }

  datatype FitResult = FitResult(theta: seq<real>, b: seq<real>, nit: nat, converged: bool, objective: Option<real>)

  /** Why a fit cannot produce numbers: an id outside its table (an IndexError
      in the source), or an empty item table with at least one user. There
      recentering subtracts the NaN mean of the empty b, so every theta and
      every objective is NaN and the stopping test never fires: the source
      returns NaNs after `max_outer` iterations, unconverged. Reals have no
      NaN, so that run is the error `NotANumber(nit)`. */
  datatype FitError = IdOutOfRange | NotANumber(nit: nat)

  /** What one more iteration of the outer loop sees: the next sweep, its
      objective, and whether the stopping test fires. */
  lemma LoopStep(sigmoid: real -> real, log: real -> real, obs: seq<Obs>, cfg: FitConfig, nUsers: nat, nItems: nat, it: nat)
    requires SigmoidLaws(sigmoid) && nItems > 0 && ValidIds(obs, nUsers, nItems)
    requires NeverStopsThrough(sigmoid, log, obs, cfg, nUsers, nItems, it)
    ensures var s := Sweeps(sigmoid, obs, cfg, nUsers, nItems, it);
      var next := Sweep(sigmoid, obs, cfg, s.0, s.1);
      var obj := Objective(sigmoid, log, obs, cfg, next.0, next.1);
      var prev := Remembered(sigmoid, log, obs, cfg, nUsers, nItems, it);
      && Sweeps(sigmoid, obs, cfg, nUsers, nItems, it + 1) == next
      && Remembered(sigmoid, log, obs, cfg, nUsers, nItems, it + 1) == Some(obj)
      && ((prev.Some? && Abs(prev.value - obj) < cfg.tol) <==> StopsAt(sigmoid, log, obs, cfg, nUsers, nItems, it + 1))
      && (!StopsAt(sigmoid, log, obs, cfg, nUsers, nItems, it + 1) ==> NeverStopsThrough(sigmoid, log, obs, cfg, nUsers, nItems, it + 1))
  {
    var s := Sweeps(sigmoid, obs, cfg, nUsers, nItems, it);
    var next := Sweep(sigmoid, obs, cfg, s.0, s.1);
    assert Sweeps(sigmoid, obs, cfg, nUsers, nItems, it + 1) == next;
    assert ObjectiveAt(sigmoid, log, obs, cfg, nUsers, nItems, it + 1) == Objective(sigmoid, log, obs, cfg, next.0, next.1);
    if it > 0 {
      assert Remembered(sigmoid, log, obs, cfg, nUsers, nItems, it) == Some(ObjectiveAt(sigmoid, log, obs, cfg, nUsers, nItems, it));
    }
  }

  /** One pass of the outer loop: sweep, evaluate, and apply the stopping test. */
  method Iteration(sigmoid: real -> real, log: real -> real, obs: seq<Obs>, nUsers: nat, nItems: nat, cfg: FitConfig,
                   it: nat, state: (seq<real>, seq<real>), prev: Option<real>)
    returns (next: (seq<real>, seq<real>), obj: real, stop: bool)
    requires SigmoidLaws(sigmoid) && nItems > 0 && ValidIds(obs, nUsers, nItems)
    requires state == Sweeps(sigmoid, obs, cfg, nUsers, nItems, it)
    requires prev == Remembered(sigmoid, log, obs, cfg, nUsers, nItems, it)
    requires NeverStopsThrough(sigmoid, log, obs, cfg, nUsers, nItems, it)
    ensures next == Sweeps(sigmoid, obs, cfg, nUsers, nItems, it + 1)
    ensures Some(obj) == Remembered(sigmoid, log, obs, cfg, nUsers, nItems, it + 1)
    ensures stop <==> StopsAt(sigmoid, log, obs, cfg, nUsers, nItems, it + 1)
    ensures !stop ==> NeverStopsThrough(sigmoid, log, obs, cfg, nUsers, nItems, it + 1)
  {
    LoopStep(sigmoid, log, obs, cfg, nUsers, nItems, it);
    next := Sweep(sigmoid, obs, cfg, state.0, state.1);
    obj := Objective(sigmoid, log, obs, cfg, next.0, next.1);
    stop := prev.Some? && Abs(prev.value - obj) < cfg.tol;
  }

  /** The outer loop of `rasch_fit_torch` on validated input: alternate sweeps
      until the objective settles or `max_outer` iterations have run. The
      result is the first iteration that meets the stopping test, or
      `max_outer` when none does. */
  method FitLoop(sigmoid: real -> real, log: real -> real, obs: seq<Obs>, nUsers: nat, nItems: nat, cfg: FitConfig)
    returns (r: FitResult)
    requires SigmoidLaws(sigmoid) && nItems > 0 && ValidIds(obs, nUsers, nItems)
    ensures r.nit <= cfg.maxOuter
    ensures (r.theta, r.b) == Sweeps(sigmoid, obs, cfg, nUsers, nItems, r.nit)
    ensures r.converged ==> StopsAt(sigmoid, log, obs, cfg, nUsers, nItems, r.nit)
    ensures r.converged ==> r.nit >= 1 && NeverStopsThrough(sigmoid, log, obs, cfg, nUsers, nItems, r.nit - 1)
    ensures r.converged ==> r.objective == Remembered(sigmoid, log, obs, cfg, nUsers, nItems, r.nit)
    ensures !r.converged ==> r.nit == cfg.maxOuter && NeverStopsThrough(sigmoid, log, obs, cfg, nUsers, nItems, r.nit)
    ensures !r.converged ==> r.objective == Remembered(sigmoid, log, obs, cfg, nUsers, nItems, r.nit)
  {
    var state := (Zeros(nUsers), Zeros(nItems));
    var prev: Option<real> := None;
    var it := 0;
    while it < cfg.maxOuter
      invariant 0 <= it <= cfg.maxOuter
      invariant state == Sweeps(sigmoid, obs, cfg, nUsers, nItems, it)
      invariant prev == Remembered(sigmoid, log, obs, cfg, nUsers, nItems, it)
      invariant NeverStopsThrough(sigmoid, log, obs, cfg, nUsers, nItems, it)
    {
      var next, obj, stop := Iteration(sigmoid, log, obs, nUsers, nItems, cfg, it, state, prev);
      if stop {
        r := FitResult(next.0, next.1, it + 1, true, Some(obj));
        assert r.nit - 1 == it;
        return;
      }
      state, prev, it := next, Some(obj), it + 1;
    }
    r := FitResult(state.0, state.1, it, false, prev);
  }

  /** `rasch_fit_torch`: validate the ids, then run the outer loop. */
  method RaschFit(sigmoid: real -> real, log: real -> real, obs: seq<Obs>, nUsers: nat, nItems: nat, cfg: FitConfig)
    returns (r: Result<FitResult, FitError>)
    requires SigmoidLaws(sigmoid)
    ensures r.Err? <==> !ValidIds(obs, nUsers, nItems) || (nItems == 0 && nUsers > 0 && cfg.maxOuter > 0)
    ensures !ValidIds(obs, nUsers, nItems) ==> r == Err(IdOutOfRange)
    ensures r.Err? && r.error.NotANumber? ==> r.error.nit == cfg.maxOuter
    ensures r.Ok? ==> |r.value.theta| == nUsers && |r.value.b| == nItems && r.value.nit <= cfg.maxOuter
    ensures r.Ok? && !r.value.converged ==> r.value.nit == cfg.maxOuter
    ensures r.Ok? && r.value.converged ==> r.value.nit >= 2 && r.value.objective.Some?
    ensures r.Ok? && nItems > 0 ==> (r.value.theta, r.value.b) == Sweeps(sigmoid, obs, cfg, nUsers, nItems, r.value.nit)
    ensures r.Ok? && nItems == 0 && cfg.maxOuter > 0 ==>
      r.value.objective == Some(0.0) && (r.value.converged <==> cfg.maxOuter >= 2 && cfg.tol > 0.0)
  {
    if !ValidIds(obs, nUsers, nItems) {
      return Err(IdOutOfRange);
    }
    if nItems == 0 {
      if cfg.maxOuter == 0 {
        return Ok(FitResult(Zeros(nUsers), [], 0, false, None));
      }
      if nUsers > 0 {
        return Err(NotANumber(cfg.maxOuter));
      }
      // No users, no items and so no responses: every sum is empty and each
      // iteration's objective is 0, so the second one meets a positive `tol`.
      if cfg.maxOuter >= 2 && cfg.tol > 0.0 {
        return Ok(FitResult([], [], 2, true, Some(0.0)));
      }
      return Ok(FitResult([], [], cfg.maxOuter, false, Some(0.0)));
    }
    var fit := FitLoop(sigmoid, log, obs, nUsers, nItems, cfg);
    return Ok(fit);
  }

  /** A fit that ran at least one sweep leaves the difficulties centred at zero. */
  lemma FitIsCentred(sigmoid: real -> real, obs: seq<Obs>, cfg: FitConfig, nUsers: nat, nItems: nat, k: nat)
    requires SigmoidLaws(sigmoid) && nItems > 0 && ValidIds(obs, nUsers, nItems) && k > 0
    ensures Mean(Sweeps(sigmoid, obs, cfg, nUsers, nItems, k).1) == 0.0
  {
    var prev := Sweeps(sigmoid, obs, cfg, nUsers, nItems, k - 1);
    var theta1 := UpdateThetas(sigmoid, obs, prev.0, prev.1, cfg.thetaPriorMean, Precision(cfg.thetaPriorVar));
    var b1 := UpdateItems(sigmoid, obs, theta1, prev.1, cfg.bPriorMean, Precision(cfg.bPriorVar));
    RecenterProperties(theta1, b1);
  }

  /** One step of `rasch_online_update_theta_torch` against fixed difficulties;
      each pair is (response, b). */
  function OnlineStep(sigmoid: real -> real, pairs: seq<(real, real)>, theta: real, mean: real, prec: real): real
    requires SigmoidLaws(sigmoid) && prec > 0.0
  {
    var obs := seq(|pairs|, k requires 0 <= k < |pairs| => Obs(0, k, pairs[k].0));
    var b := seq(|pairs|, k requires 0 <= k < |pairs| => pairs[k].1);
    var g := UserResidual(sigmoid, obs, 0, theta, b) - (theta - mean) * prec;
    NewtonStep(theta, g, Hessian(UserCurvature(sigmoid, obs, 0, theta, b), prec))
  }

  /** `rasch_online_update_theta_torch`: `iters` Newton steps from theta0. */
  function OnlineUpdateTheta(sigmoid: real -> real, pairs: seq<(real, real)>, theta0: real, mean: real, priorVar: real, iters: nat): (t: real)
    requires SigmoidLaws(sigmoid)
    ensures iters == 0 ==> t == theta0
  {
    if iters == 0 then theta0
    else OnlineStep(sigmoid, pairs, OnlineUpdateTheta(sigmoid, pairs, theta0, mean, priorVar, iters - 1), mean, Precision(priorVar))
  }

  /** With no responses a single step lands exactly on the prior mean, and further steps stay there. */
  lemma {:induction false} OnlineWithoutResponses(sigmoid: real -> real, theta0: real, mean: real, priorVar: real, iters: nat)
    requires SigmoidLaws(sigmoid) && iters >= 1
    ensures OnlineUpdateTheta(sigmoid, [], theta0, mean, priorVar, iters) == mean
  {
    var prec := Precision(priorVar);
    var t := OnlineUpdateTheta(sigmoid, [], theta0, mean, priorVar, iters - 1);
    var obs: seq<Obs> := [];
    assert UserResidual(sigmoid, obs, 0, t, []) == 0.0;
    assert UserCurvature(sigmoid, obs, 0, t, []) == 0.0;
    var g := -(t - mean) * prec;
    var h := -prec;
    assert OnlineStep(sigmoid, [], t, mean, prec) == t - g / h;
    assert g / h == t - mean by {
      assert g == (t - mean) * h;
    }
  }

  /** Running i steps then j more is running i + j steps. */
  lemma {:induction false} OnlineComposes(sigmoid: real -> real, pairs: seq<(real, real)>, theta0: real, mean: real, priorVar: real, i: nat, j: nat)
    requires SigmoidLaws(sigmoid)
    ensures OnlineUpdateTheta(sigmoid, pairs, OnlineUpdateTheta(sigmoid, pairs, theta0, mean, priorVar, i), mean, priorVar, j)
         == OnlineUpdateTheta(sigmoid, pairs, theta0, mean, priorVar, i + j)
  {
    if j > 0 {
      var t := OnlineUpdateTheta(sigmoid, pairs, theta0, mean, priorVar, i);
      var u := OnlineUpdateTheta(sigmoid, pairs, t, mean, priorVar, j - 1);
      var v := OnlineUpdateTheta(sigmoid, pairs, theta0, mean, priorVar, i + j - 1);
      OnlineComposes(sigmoid, pairs, theta0, mean, priorVar, i, j - 1);
      assert u == v;
    }
  }

  /** Sum of p(1 - p) at theta_hat over the given difficulties. */
  function Curvature(sigmoid: real -> real, thetaHat: real, b: seq<real>): (c: real)
    requires SigmoidLaws(sigmoid)
    ensures c >= 0.0
  {
    if |b| == 0 then 0.0
    else
      var p := sigmoid(thetaHat - b[0]);
      BernoulliVariance(p) + Curvature(sigmoid, thetaHat, b[1..])
  }

  /** `rasch_online_theta_variance_torch`: 1 / max(sum p(1-p) + 1/prior_var, 1e-12),
      where a non-positive prior variance contributes no precision. */
  function LaplaceVariance(sigmoid: real -> real, thetaHat: real, b: seq<real>, priorVar: real): (v: real)
    requires SigmoidLaws(sigmoid)
    ensures 0.0 < v <= TinyInverse
    ensures priorVar > 0.0 ==> v <= priorVar
  {
    var inv := if priorVar > 0.0 then 1.0 / priorVar else 0.0;
    var curv := Curvature(sigmoid, thetaHat, b) + inv;
    var c := Max(curv, Tiny);
    ReciprocalBound(c, Tiny, TinyInverse);
    assert priorVar > 0.0 ==> 1.0 / c <= priorVar by {
      if priorVar > 0.0 {
        ReciprocalBound(c, inv, priorVar);
      }
    }
    1.0 / c
  }

  /** If c >= lo > 0 and lo * hi == 1 then 0 < 1/c <= hi. */
  lemma ReciprocalBound(c: real, lo: real, hi: real)
    requires lo > 0.0 && c >= lo && lo * hi == 1.0
    ensures 0.0 < 1.0 / c <= hi
  {
    assert hi > 0.0;
    if c > lo {
      DivStrictlyAntitone(1.0, lo, c);
    }
    assert 1.0 / lo == hi;
  }
}
