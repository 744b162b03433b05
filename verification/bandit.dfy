/** The Bayesian linear bandit: a Gaussian posterior N(mu, Sigma) over the
    reward weights. `Update` follows the source's mean update, which reads
    the new precision; `ConjugateUpdate` is the conjugate rule its
    documentation states. The matrix inverse is a
    parameter that may fail (a singular matrix), and its laws are stated in
    `InverseLaws`; Thompson sampling is left to the caller, which passes the
    sampled weights to the planner. */
module Bandit {
  import opened Wrappers
  import opened Numerics
  import opened LinAlg

  datatype BanditError =
    | Singular    // `np.linalg.inv` rejects the matrix
    | ZeroNoise   // `1 / sigma_sq` with a zero noise variance

  datatype LinearBandit = LinearBandit(
    d: nat,
    mu: Vector,
    sigma: Matrix,
    sigmaInv: Matrix,
    sigmaSq: real,
    numUpdates: int)

  predicate WellShaped(b: LinearBandit) {
    |b.mu| == b.d && IsSquare(b.sigma, b.d) && IsSquare(b.sigmaInv, b.d)
  }

  /** A matrix inverse that may report a singular matrix. */
  type Inverse = Matrix -> Option<Matrix>

  /** The inverse of a d-by-d matrix is d-by-d. */
  ghost predicate InverseKeepsShape(inv: Inverse, d: nat) {
    forall m :: IsSquare(m, d) && inv(m).Some? ==> IsSquare(inv(m).value, d)
  }

  /** What the proofs assume of the inverse on d-by-d matrices: it keeps the
      shape and undoes the matrix on both sides. */
  ghost predicate InverseLaws(inv: Inverse, d: nat) {
    && InverseKeepsShape(inv, d)
    && forall m :: IsSquare(m, d) && inv(m).Some? ==> Inverts(m, inv(m).value, d)
  }

  /** The d-by-d matrix `mi` undoes the d-by-d matrix `m` on both sides. */
  ghost predicate Inverts(m: Matrix, mi: Matrix, d: nat) {
    && IsSquare(m, d) && IsSquare(mi, d)
    && (forall v {:trigger MatVec(mi, MatVec(m, v))} :: |v| == d ==> MatVec(mi, MatVec(m, v)) == v)
    && (forall v {:trigger MatVec(m, MatVec(mi, v))} :: |v| == d ==> MatVec(m, MatVec(mi, v)) == v)
  }

  const DefaultNoiseVariance: real := 0.1

  /** The constructor: a zero mean and identity covariance unless a prior is
      given, and the precision computed by inverting the covariance. */
  function NewBandit(d: nat, priorMean: Option<Vector>, priorCov: Option<Matrix>, noiseVariance: real,
                     inv: Inverse): (r: Result<LinearBandit, BanditError>)
    requires priorMean.Some? ==> |priorMean.value| == d
    requires priorCov.Some? ==> IsSquare(priorCov.value, d)
    ensures r.Err? <==> inv(priorCov.GetOr(Identity(d))).None?
    ensures r.Err? ==> r.error == Singular
    ensures r.Ok? ==> r.value.numUpdates == 0 && r.value.d == d && r.value.sigmaSq == noiseVariance
    ensures r.Ok? ==> r.value.mu == priorMean.GetOr(Zeros(d)) && r.value.sigma == priorCov.GetOr(Identity(d))
    ensures r.Ok? ==> inv(r.value.sigma) == Some(r.value.sigmaInv)
    ensures r.Ok? && InverseKeepsShape(inv, d) ==> WellShaped(r.value)
  {
    var cov := priorCov.GetOr(Identity(d));
    match inv(cov)
    case None => Err(Singular)
    case Some(prec) => Ok(LinearBandit(d, priorMean.GetOr(Zeros(d)), cov, prec, noiseVariance, 0))
  }

  /** The feature rows of one update: each has the bandit's dimension. */
  predicate RowsFit(b: LinearBandit, features: seq<Vector>) {
    forall k :: 0 <= k < |features| ==> |features[k]| == b.d
  }

  /** Sigma^-1 + sigma^-2 Phi^T Phi. */
  function UpdatedPrecision(b: LinearBandit, features: seq<Vector>): (p: Matrix)
    requires WellShaped(b) && RowsFit(b, features) && b.sigmaSq != 0.0
    ensures IsSquare(p, b.d)
  {
    MatAdd(b.sigmaInv, MatScale(1.0 / b.sigmaSq, Gram(features, b.d)))
  }

  /** sigma^-2 Phi^T r. */
  function ScaledEvidence(b: LinearBandit, features: seq<Vector>, rewards: seq<real>): (v: Vector)
    requires WellShaped(b) && RowsFit(b, features) && |rewards| == |features| && b.sigmaSq != 0.0
    ensures |v| == b.d
  {
    VecScale(1.0 / b.sigmaSq, WeightedRowSum(features, rewards, b.d))
  }

  /** `update` as written: the precision grows by sigma^-2 Phi^T Phi, the
      covariance is its inverse, and the mean is Sigma_1 (Sigma_1^-1 mu_0 +
      sigma^-2 Phi^T r) -- with the NEW precision, where the conjugate rule
      has the old one. An empty batch changes nothing, even the counter. */
  function Update(b: LinearBandit, features: seq<Vector>, rewards: seq<real>, inv: Inverse)
    : (r: Result<LinearBandit, BanditError>)
    requires WellShaped(b) && RowsFit(b, features) && InverseKeepsShape(inv, b.d)
    requires |features| > 0 ==> |rewards| == |features|
    ensures |features| == 0 ==> r == Ok(b)
    ensures r.Err? <==> |features| > 0 && (b.sigmaSq == 0.0 || inv(UpdatedPrecision(b, features)).None?)
    ensures r.Err? ==> r.error == (if b.sigmaSq == 0.0 then ZeroNoise else Singular)
    ensures r.Ok? ==> r.value.d == b.d && r.value.sigmaSq == b.sigmaSq
    ensures r.Ok? && |features| > 0 ==> r.value.numUpdates == b.numUpdates + |rewards|
    ensures r.Ok? && |features| > 0 ==>
      r.value.sigmaInv == UpdatedPrecision(b, features) && inv(r.value.sigmaInv) == Some(r.value.sigma)
    ensures r.Ok? ==> WellShaped(r.value)
  {
    if |features| == 0 then Ok(b)
    else if b.sigmaSq == 0.0 then Err(ZeroNoise)
    else
      var prec := UpdatedPrecision(b, features);
      match inv(prec)
      case None => Err(Singular)
      case Some(cov) =>
        var mu := MatVec(cov, VecAdd(MatVec(prec, b.mu), ScaledEvidence(b, features, rewards)));
        Ok(b.(mu := mu, sigma := cov, sigmaInv := prec, numUpdates := b.numUpdates + |rewards|))
  }

  /** The conjugate update the docstring states, mu_1 = Sigma_1 (Sigma_0^-1 mu_0
      + sigma^-2 Phi^T r); everything else as in `Update`. */
  function ConjugateUpdate(b: LinearBandit, features: seq<Vector>, rewards: seq<real>, inv: Inverse)
    : (r: Result<LinearBandit, BanditError>)
    requires WellShaped(b) && RowsFit(b, features) && InverseKeepsShape(inv, b.d)
    requires |features| > 0 ==> |rewards| == |features|
    ensures |features| == 0 ==> r == Ok(b)
    ensures r.Err? <==> Update(b, features, rewards, inv).Err?
    ensures r.Ok? ==> r.value == Update(b, features, rewards, inv).value.(mu := r.value.mu)
  {
    if |features| == 0 then Ok(b)
    else if b.sigmaSq == 0.0 then Err(ZeroNoise)
    else
      var prec := UpdatedPrecision(b, features);
      match inv(prec)
      case None => Err(Singular)
      case Some(cov) =>
        var mu := MatVec(cov, VecAdd(MatVec(b.sigmaInv, b.mu), ScaledEvidence(b, features, rewards)));
        Ok(b.(mu := mu, sigma := cov, sigmaInv := prec, numUpdates := b.numUpdates + |rewards|))
  }

  /** The conjugate update satisfies the posterior's normal equation:
      Sigma_1^-1 mu_1 = Sigma_0^-1 mu_0 + sigma^-2 Phi^T r. */
  lemma ConjugateNormalEquation(b: LinearBandit, features: seq<Vector>, rewards: seq<real>, inv: Inverse)
    requires WellShaped(b) && RowsFit(b, features) && |features| > 0 && |rewards| == |features|
    requires InverseLaws(inv, b.d)
    requires b.sigmaSq != 0.0 && inv(UpdatedPrecision(b, features)).Some?
    ensures var b1 := ConjugateUpdate(b, features, rewards, inv).value;
      MatVec(b1.sigmaInv, b1.mu) == VecAdd(MatVec(b.sigmaInv, b.mu), ScaledEvidence(b, features, rewards))
  {
  }

  /** What the code computes instead: Sigma_1^-1 mu_1 = Sigma_1^-1 mu_0 +
      sigma^-2 Phi^T r, so the old mean is kept and only the evidence term is
      added: mu_1 = mu_0 + Sigma_1 sigma^-2 Phi^T r, whatever the prediction
      error was. */
  lemma UpdateMeanAsWritten(b: LinearBandit, features: seq<Vector>, rewards: seq<real>, inv: Inverse)
    requires WellShaped(b) && RowsFit(b, features) && |features| > 0 && |rewards| == |features|
    requires InverseLaws(inv, b.d)
    requires b.sigmaSq != 0.0 && inv(UpdatedPrecision(b, features)).Some?
    ensures var b1 := Update(b, features, rewards, inv).value;
      b1.mu == VecAdd(b.mu, MatVec(b1.sigma, ScaledEvidence(b, features, rewards)))
  {
    var b1 := Update(b, features, rewards, inv).value;
    var prec := UpdatedPrecision(b, features);
    var e := ScaledEvidence(b, features, rewards);
    MatVecAddRight(b1.sigma, MatVec(prec, b.mu), e);
    assert MatVec(b1.sigma, MatVec(prec, b.mu)) == b.mu;
  }

  /** A one-dimensional inverse, for worked examples. */
  function Inverse1(m: Matrix): (r: Option<Matrix>)
    ensures r.Some? ==> |m| == 1 && |m[0]| == 1 && m[0][0] != 0.0 && r.value == [[1.0 / m[0][0]]]
  {
    if |m| == 1 && |m[0]| == 1 && m[0][0] != 0.0 then Some([[1.0 / m[0][0]]]) else None
  }

  /** The prior N(1, 1) with unit noise, one observation whose reward equals
      the prediction (phi = 1, r = 1 = mu . phi). */
  function QuirkPrior(): LinearBandit {
    LinearBandit(1, [1.0], [[1.0]], [[1.0]], 1.0, 0)
  }

  lemma Inverse1KeepsShape()
    ensures InverseKeepsShape(Inverse1, 1)
  {
  }

  lemma QuirkEvidence()
    ensures UpdatedPrecision(QuirkPrior(), [[1.0]]) == [[2.0]]
    ensures ScaledEvidence(QuirkPrior(), [[1.0]], [1.0]) == [1.0]
  {
    var b := QuirkPrior();
    assert VecScale(1.0, [1.0]) == [1.0];
    assert Outer([1.0]) == [[1.0]];
    assert Zeros(1) == [0.0];
    assert ZeroMatrix(1) == [[0.0]];
    assert VecAdd([1.0], [0.0]) == [1.0];
    assert Gram([[1.0]], 1) == [[1.0]];
    assert MatScale(1.0, [[1.0]]) == [[1.0]];
    assert WeightedRowSum([[1.0]], [1.0], 1) == [1.0];
    assert VecAdd([1.0], [1.0]) == [2.0];
    assert MatAdd([[1.0]], [[1.0]]) == [[2.0]];
  }

  /** An observation that matches the prediction exactly still moves the
      mean as written (to 1.5), while the conjugate update keeps it at 1. */
  lemma MeanQuirkExample()
    ensures Update(QuirkPrior(), [[1.0]], [1.0], Inverse1) == Ok(LinearBandit(1, [1.5], [[0.5]], [[2.0]], 1.0, 1))
    ensures ConjugateUpdate(QuirkPrior(), [[1.0]], [1.0], Inverse1) == Ok(LinearBandit(1, [1.0], [[0.5]], [[2.0]], 1.0, 1))
  {
    Inverse1KeepsShape();
    QuirkEvidence();
    var b := QuirkPrior();
    assert Inverse1([[2.0]]) == Some([[0.5]]);
    assert MatVec([[2.0]], [1.0]) == [2.0];
    assert MatVec([[1.0]], [1.0]) == [1.0];
    assert VecAdd([2.0], [1.0]) == [3.0];
    assert VecAdd([1.0], [1.0]) == [2.0];
    assert MatVec([[0.5]], [3.0]) == [1.5];
    assert MatVec([[0.5]], [2.0]) == [1.0];
  }

  /** The mean reward mu . phi and its standard deviation sqrt(phi^T Sigma phi),
      a negative variance read as 0. */
  datatype Prediction = Prediction(expected: real, uncertainty: real)

  function Predict(b: LinearBandit, phi: Vector, sqrt: real -> real): (p: Prediction)
    requires WellShaped(b) && |phi| == b.d
    requires SqrtLaws(sqrt)
    ensures p.expected == Dot(b.mu, phi)
    ensures p.uncertainty >= 0.0
    ensures p.uncertainty * p.uncertainty == Max(0.0, Dot(phi, MatVec(b.sigma, phi)))
  {
    Prediction(Dot(b.mu, phi), sqrt(Max(0.0, Dot(phi, MatVec(b.sigma, phi)))))
  }

  /** The upper confidence bound mu . phi + alpha * uncertainty. */
  function UcbScore(b: LinearBandit, phi: Vector, alpha: real, sqrt: real -> real): (s: real)
    requires WellShaped(b) && |phi| == b.d
    requires SqrtLaws(sqrt)
    ensures alpha >= 0.0 ==> s >= Predict(b, phi, sqrt).expected
    ensures alpha == 0.0 ==> s == Predict(b, phi, sqrt).expected
  {
    var p := Predict(b, phi, sqrt);
    assert alpha >= 0.0 ==> alpha * p.uncertainty >= 0.0 by {
      if alpha >= 0.0 { MulMonotone(alpha, 0.0, p.uncertainty); }
    }
    p.expected + alpha * p.uncertainty
  }

  /** A larger exploration weight never lowers the bound. */
  lemma UcbMonotoneInAlpha(b: LinearBandit, phi: Vector, a1: real, a2: real, sqrt: real -> real)
    requires WellShaped(b) && |phi| == b.d && SqrtLaws(sqrt)
    requires a1 <= a2
    ensures UcbScore(b, phi, a1, sqrt) <= UcbScore(b, phi, a2, sqrt)
  {
    var u := Predict(b, phi, sqrt).uncertainty;
    assert a2 * u - a1 * u == (a2 - a1) * u;
    MulMonotone(a2 - a1, 0.0, u);
  }

  /** The zero feature vector predicts reward 0 with no uncertainty. */
  lemma PredictZeroFeatures(b: LinearBandit, sqrt: real -> real)
    requires WellShaped(b) && SqrtLaws(sqrt)
    ensures Predict(b, Zeros(b.d), sqrt) == Prediction(0.0, 0.0)
  {
    var z := Zeros(b.d);
    DotZeroRight(b.mu);
    assert MatVec(b.sigma, z) == z by {
      forall i | 0 <= i < b.d ensures Dot(b.sigma[i], z) == 0.0 {
        DotZeroRight(b.sigma[i]);
      }
    }
    DotZeroRight(z);
    assert Dot(b.mu, z) == 0.0;
    assert Dot(z, MatVec(b.sigma, z)) == 0.0;
  }

  /** `get_confidence_intervals` with the normal quantile z supplied:
      expected -/+ z * uncertainty. */
  function ConfidenceInterval(b: LinearBandit, phi: Vector, z: real, sqrt: real -> real): (r: (real, real))
    requires WellShaped(b) && |phi| == b.d && SqrtLaws(sqrt)
    ensures z >= 0.0 ==> r.0 <= Predict(b, phi, sqrt).expected <= r.1
    ensures r.0 + r.1 == 2.0 * Predict(b, phi, sqrt).expected
  {
    var p := Predict(b, phi, sqrt);
    assert z >= 0.0 ==> z * p.uncertainty >= 0.0 by {
      if z >= 0.0 { MulMonotone(z, 0.0, p.uncertainty); }
    }
    (p.expected - z * p.uncertainty, p.expected + z * p.uncertainty)
  }

  /** The serialised state: `to_dict` keeps everything but the precision. */
  datatype BanditRecord = BanditRecord(dimension: nat, mu: Vector, sigma: Matrix, sigmaSq: real, numUpdates: int)

  function ToDict(b: LinearBandit): (rec: BanditRecord)
    ensures rec.dimension == b.d && rec.mu == b.mu && rec.sigma == b.sigma
    ensures rec.sigmaSq == b.sigmaSq && rec.numUpdates == b.numUpdates
  {
    BanditRecord(b.d, b.mu, b.sigma, b.sigmaSq, b.numUpdates)
  }

  predicate RecordShaped(rec: BanditRecord) {
    |rec.mu| == rec.dimension && IsSquare(rec.sigma, rec.dimension)
  }

  /** `from_dict`: the constructor with the stored prior, then the stored
      counter; the precision is recomputed from the covariance. */
  function FromDict(rec: BanditRecord, inv: Inverse): (r: Result<LinearBandit, BanditError>)
    requires RecordShaped(rec)
    ensures r.Ok? ==> r.value.numUpdates == rec.numUpdates
  {
    var b :- NewBandit(rec.dimension, Some(rec.mu), Some(rec.sigma), rec.sigmaSq, inv);
    Ok(b.(numUpdates := rec.numUpdates))
  }

  /** Serialising and restoring keeps the dimension, mean, covariance, noise
      and counter; the precision comes back as the inverse of the covariance,
      and a covariance the inverse rejects cannot be restored. */
  lemma DictRoundTrip(b: LinearBandit, inv: Inverse)
    requires WellShaped(b)
    ensures FromDict(ToDict(b), inv).Err? <==> inv(b.sigma).None?
    ensures FromDict(ToDict(b), inv).Ok? ==>
      FromDict(ToDict(b), inv).value == b.(sigmaInv := inv(b.sigma).value)
  {
  }

  /** `reset`: back to the zero mean and identity covariance and precision. */
  function Reset(b: LinearBandit): (r: LinearBandit)
    ensures WellShaped(r) && r.d == b.d && r.sigmaSq == b.sigmaSq && r.numUpdates == 0
    ensures forall i :: 0 <= i < r.d ==> r.mu[i] == 0.0 && r.sigma[i][i] == 1.0
  {
    b.(mu := Zeros(b.d), sigma := Identity(b.d), sigmaInv := Identity(b.d), numUpdates := 0)
  }

  /** Resetting forgets every update: two bandits with the same dimension and
      noise reset to the same state. */
  lemma ResetForgets(b1: LinearBandit, b2: LinearBandit)
    requires b1.d == b2.d && b1.sigmaSq == b2.sigmaSq
    ensures Reset(b1) == Reset(b2)
  {
  }

  /** `get_exploration_rate`: the mean of the covariance diagonal; numpy's NaN
      for a zero-dimensional model is `None`. */
  function ExplorationRate(b: LinearBandit): (r: Option<real>)
    requires WellShaped(b)
    ensures r.None? <==> b.d == 0
  {
    if b.d == 0 then None else Some(Mean(Diagonal(b.sigma)))
  }

  /** After a reset (or with the default prior) every variance is 1, so the
      exploration rate is 1. */
  lemma ResetExplorationIsOne(b: LinearBandit)
    requires b.d > 0
    ensures ExplorationRate(Reset(b)) == Some(1.0)
  {
    var r := Reset(b);
    ConstantVectorStatistics(Diagonal(r.sigma), 1.0);
  }

  /** The exploration rate lies between the least and the largest variance. */
  lemma ExplorationRateWithin(b: LinearBandit, lo: real, hi: real)
    requires WellShaped(b) && b.d > 0
    requires forall i :: 0 <= i < b.d ==> lo <= b.sigma[i][i] <= hi
    ensures lo <= ExplorationRate(b).value <= hi
  {
    MeanWithin(Diagonal(b.sigma), lo, hi);
  }
}
