/**
  The per-cell statistics of the uncertainty predictors.

  Every accumulator in the predictors is an element-wise (numpy) array, so all
  of the arithmetic happens independently in each cell (one example, one task).
  This module states it for one cell. The reductions the predictors apply to
  their accumulators (sum, sum of squares, sum of variances, count) are the
  scalar functions `MeanOf`, `EnsembleVarianceOf` and `MveVarianceOf`; the
  sequence functions (`Mean`, `EnsembleVariance`, `MveVariance`) apply them to
  the sums of the per-model values `ps` (predictions, in call order) and `vs`
  (the models' own variances). Arithmetic is exact, over `real`.
*/
module Moments {

  // ---------------------------------------------------------------------------
  // Accumulation

  /** Σ xs, accumulated front to back, as the model loop does (`sum_preds`, `sum_vars`). */
  function Sum(xs: seq<real>): real
  {
    if |xs| == 0 then 0.0 else Sum(xs[..|xs| - 1]) + xs[|xs| - 1]
  }

  /** np.square on one cell. */
  function Square(x: real): real
  {
    x * x
  }

  /** Σ x², accumulated front to back (`sum_squared`). */
  function SumSquares(xs: seq<real>): real
  {
    if |xs| == 0 then 0.0 else SumSquares(xs[..|xs| - 1]) + Square(xs[|xs| - 1])
  }

  /** Σ (x − m)²: the squared deviations of the entries from `m`. */
  function SumSquaredDeviations(xs: seq<real>, m: real): real
  {
    if |xs| == 0 then 0.0 else SumSquaredDeviations(xs[..|xs| - 1], m) + Square(xs[|xs| - 1] - m)
  }

  /** Σ m·x: every entry scaled by `m`. */
  function SumScaled(xs: seq<real>, m: real): real
  {
    if |xs| == 0 then 0.0 else SumScaled(xs[..|xs| - 1], m) + m * xs[|xs| - 1]
  }

  // ---------------------------------------------------------------------------
  // The reductions, on the accumulators

  /** The accumulated sum divided by the number of calls: the mean, which times the count gives back the sum. */
  function MeanOf(sum: real, n: nat): (m: real)
    requires n > 0
    ensures m * (n as real) == sum
    ensures sum >= 0.0 ==> m >= 0.0
  {
    MulBack(sum, n as real);
    QuotientNonNegativeIf(sum, n as real);
    sum / n as real
  }

  /**
    Ensemble and dropout: Σp²/N − (Σp)²/N², with N² an integer power of the
    count. It is the mean of the squares less the square of the mean.
  */
  function EnsembleVarianceOf(sumSquared: real, sum: real, n: nat): (v: real)
    requires n > 0
    ensures v == MeanOf(sumSquared, n) - Square(MeanOf(sum, n))
  {
    SquareOverSquare(sum, n);
    sumSquared / n as real - Square(sum) / (n * n) as real
  }

  /** MVE and evidential: (Σv + Σp²)/N − (Σp/N)², the mean of the variances plus the ensemble formula. */
  function MveVarianceOf(sumVars: real, sumSquared: real, sum: real, n: nat): (v: real)
    requires n > 0
    ensures v == MeanOf(sumVars, n) + EnsembleVarianceOf(sumSquared, sum, n)
  {
    DivideSum(sumVars, sumSquared, n as real);
    SquareOverSquare(sum, n);
    (sumVars + sumSquared) / n as real - Square(sum / n as real)
  }

  /** The three accumulators of a sequence of predictions around `m`, expanded. */
  predicate Expanded(deviations: real, sumSquared: real, sum: real, m: real, n: nat)
  {
    deviations == sumSquared - 2.0 * (m * sum) + (n as real) * (m * m)
  }

  // ---------------------------------------------------------------------------
  // The reductions, on the per-model values of one cell

  function Mean(xs: seq<real>): real
    requires |xs| > 0
  {
    MeanOf(Sum(xs), |xs|)
  }

  lemma MeanTimesLength(xs: seq<real>)
    requires |xs| > 0
    ensures Mean(xs) * (|xs| as real) == Sum(xs)
  {
  }

  /** The mean squared deviation of the per-model predictions from their mean. */
  function MeanSquaredDeviation(xs: seq<real>): real
    requires |xs| > 0
  {
    MeanOf(SumSquaredDeviations(xs, Mean(xs)), |xs|)
  }

  function EnsembleVariance(ps: seq<real>): real
    requires |ps| > 0
  {
    EnsembleVarianceOf(SumSquares(ps), Sum(ps), |ps|)
  }

  function MveVariance(ps: seq<real>, vs: seq<real>): real
    requires |ps| == |vs| > 0
  {
    MveVarianceOf(Sum(vs), SumSquares(ps), Sum(ps), |ps|)
  }

  // ---------------------------------------------------------------------------
  // Evidential per-item variances, from the (λ, α, β) a model predicts

  /** Aleatoric: β/(α − 1), the variance that times α − 1 gives back β. */
  function EvidentialAleatoricVariance(alpha: real, beta: real): (v: real)
    requires alpha != 1.0
    ensures v * (alpha - 1.0) == beta
    ensures alpha > 1.0 && beta >= 0.0 ==> v >= 0.0
  {
    MulBack(beta, alpha - 1.0);
    QuotientNonNegativeIf(beta, alpha - 1.0);
    beta / (alpha - 1.0)
  }

  /** Epistemic: β/(λ(α − 1)), the aleatoric variance shrunk by the evidence λ. */
  function EvidentialEpistemicVariance(lambda: real, alpha: real, beta: real): (v: real)
    requires lambda != 0.0 && alpha != 1.0
    ensures v * lambda == EvidentialAleatoricVariance(alpha, beta)
    ensures lambda > 0.0 && alpha > 1.0 && beta >= 0.0 ==> v >= 0.0
  {
    var d := alpha - 1.0;
    DivideTwice(beta, d, lambda);
    MulBack(beta / d, lambda);
    ProductNonZero(lambda, d);
    PositiveProduct(lambda, d);
    QuotientNonNegativeIf(beta, lambda * d);
    beta / (lambda * d)
  }

  /** Total: β(1 + 1/λ)/(α − 1), the aleatoric plus the epistemic variance. */
  function EvidentialTotalVariance(lambda: real, alpha: real, beta: real): (v: real)
    requires lambda != 0.0 && alpha != 1.0
    ensures v == EvidentialAleatoricVariance(alpha, beta) + EvidentialEpistemicVariance(lambda, alpha, beta)
    ensures lambda > 0.0 && alpha > 1.0 && beta >= 0.0 ==> v >= 0.0
  {
    Distribute(beta, lambda);
    DivideSum(beta, beta / lambda, alpha - 1.0);
    DivideTwice(beta, lambda, alpha - 1.0);
    beta * (1.0 + 1.0 / lambda) / (alpha - 1.0)
  }

  // ---------------------------------------------------------------------------
  // Real arithmetic. Each step is its own lemma so that the solver meets one
  // nonlinear fact at a time.

  lemma SquareNonNegative(x: real)
    ensures Square(x) >= 0.0
  {
  }

  lemma QuotientNonNegative(a: real, n: real)
    requires a >= 0.0 && n > 0.0
    ensures a / n >= 0.0
  {
  }

  lemma QuotientNonNegativeIf(a: real, n: real)
    requires n != 0.0
    ensures a >= 0.0 && n > 0.0 ==> a / n >= 0.0
  {
  }

  lemma PositiveProduct(a: real, b: real)
    ensures a > 0.0 && b > 0.0 ==> a * b > 0.0
  {
  }

  lemma MulBack(a: real, z: real)
    requires z != 0.0
    ensures (a / z) * z == a
  {
  }

  lemma DivIntro(x: real, y: real, z: real)
    requires z != 0.0
    requires x == y * z
    ensures x / z == y
  {
  }

  lemma ProductNonZero(a: real, b: real)
    requires a != 0.0 && b != 0.0
    ensures a * b != 0.0
  {
  }

  lemma DivideSum(a: real, b: real, n: real)
    requires n != 0.0
    ensures (a + b) / n == a / n + b / n
  {
  }

  lemma DivideDifference(a: real, b: real, n: real)
    requires n != 0.0
    ensures (a - b) / n == a / n - b / n
  {
  }

  lemma Cancel(a: real, n: real)
    requires n != 0.0
    ensures (n * a) / n == a
  {
  }

  lemma CastSquare(k: int)
    requires k > 0
    ensures (k * k) as real == (k as real) * (k as real)
    ensures k * k > 0
  {
  }

  lemma SquareOfScaled(m: real, n: real, s: real, nsq: real)
    requires m * n == s && nsq == n * n
    ensures Square(s) == Square(m) * nsq
  {
    assert (m * n) * (m * n) == (m * m) * (n * n);
  }

  /** (Σ)²/N² with N² an integer power equals the square of the mean Σ/N. */
  lemma SquareOverSquare(s: real, k: int)
    requires k > 0
    ensures Square(s) / (k * k) as real == Square(s / k as real)
  {
    var n := k as real;
    CastSquare(k);
    MulBack(s, n);
    SquareOfScaled(s / n, n, s, (k * k) as real);
    DivIntro(Square(s), Square(s / n), (k * k) as real);
  }

  lemma SquareOfDifference(x: real, m: real)
    ensures Square(x - m) == Square(x) - 2.0 * (m * x) + m * m
  {
  }

  /** One step of the expansion, with every product an opaque summand. */
  lemma SplitStep(d0: real, q0: real, s0: real, n0: real, sq: real, x2: real, mx: real, mm: real)
    requires d0 == q0 - 2.0 * s0 + n0
    requires sq == x2 - 2.0 * mx + mm
    ensures d0 + sq == (q0 + x2) - 2.0 * (s0 + mx) + (n0 + mm)
  {
  }

  lemma ScaleSum(c: real, s: real, s0: real, x: real)
    requires s == s0 + x
    ensures c * s == c * s0 + c * x
  {
  }

  lemma SubstituteMean(q: real, s: real, d: real, m: real, n: real)
    requires m * n == s
    requires d == q - 2.0 * (m * s) + n * (m * m)
    ensures d == q - n * (m * m)
  {
    assert m * s == n * (m * m);
  }

  /** With s = m·n and d = q − 2ms + n·m²: d/n = q/n − m². */
  lemma SpreadAlgebra(q: real, s: real, d: real, m: real, n: real)
    requires n != 0.0 && m * n == s
    requires d == q - 2.0 * (m * s) + n * (m * m)
    ensures d / n == q / n - m * m
  {
    SubstituteMean(q, s, d, m, n);
    DivideDifference(q, n * (m * m), n);
    Cancel(m * m, n);
  }

  lemma Distribute(b: real, l: real)
    requires l != 0.0
    ensures b * (1.0 + 1.0 / l) == b + b / l
  {
  }

  lemma Regroup(q: real, d: real, l: real, b: real, p: real)
    requires q * d == p && p * l == b
    ensures q * (l * d) == b
  {
    assert q * (l * d) == (q * d) * l;
  }

  lemma DivideTwice(b: real, l: real, d: real)
    requires l != 0.0 && d != 0.0
    ensures (b / l) / d == b / (l * d)
  {
    var p := b / l;
    var q := p / d;
    MulBack(p, d);
    MulBack(b, l);
    Regroup(q, d, l, b, p);
    ProductNonZero(l, d);
    DivIntro(b, q, l * d);
  }

  // ---------------------------------------------------------------------------
  // Properties of the reductions on the accumulators

  lemma MeanOfConstant(c: real, n: nat)
    requires n > 0
    ensures MeanOf((n as real) * c, n) == c
  {
    DivIntro((n as real) * c, c, n as real);
  }

  /** Around a centre m with m·N = Σp, the mean squared deviation is the ensemble formula. */
  lemma SpreadIdentity(deviations: real, sumSquared: real, sum: real, m: real, n: nat)
    requires n > 0 && m * (n as real) == sum
    requires Expanded(deviations, sumSquared, sum, m, n)
    ensures MeanOf(deviations, n) == EnsembleVarianceOf(sumSquared, sum, n)
  {
    SpreadAlgebra(sumSquared, sum, deviations, m, n as real);
    SquareOverSquare(sum, n);
    DivIntro(sum, m, n as real);
  }

  // ---------------------------------------------------------------------------
  // Sums

  lemma SumSnoc(xs: seq<real>, x: real)
    ensures Sum(xs + [x]) == Sum(xs) + x
  {
    assert (xs + [x])[..|xs|] == xs;
  }

  lemma {:induction false} SumNonNegative(xs: seq<real>)
    requires forall i :: 0 <= i < |xs| ==> xs[i] >= 0.0
    ensures Sum(xs) >= 0.0
    decreases |xs|
  {
    if |xs| > 0 {
      SumNonNegative(xs[..|xs| - 1]);
    }
  }

  lemma {:induction false} SumConstant(xs: seq<real>, c: real)
    requires forall i :: 0 <= i < |xs| ==> xs[i] == c
    ensures Sum(xs) == (|xs| as real) * c
    decreases |xs|
  {
    if |xs| > 0 {
      SumConstant(xs[..|xs| - 1], c);
    }
  }

  /** The sum of an entry-wise sum is the sum of the sums. */
  lemma {:induction false} SumPointwise(xs: seq<real>, ys: seq<real>, zs: seq<real>)
    requires |xs| == |ys| == |zs|
    requires forall k :: 0 <= k < |xs| ==> xs[k] == ys[k] + zs[k]
    ensures Sum(xs) == Sum(ys) + Sum(zs)
    decreases |xs|
  {
    if |xs| > 0 {
      var n := |xs| - 1;
      SumPointwise(xs[..n], ys[..n], zs[..n]);
    }
  }

  /** Σ(x − m)² = Σx² − 2Σm·x + N·m². */
  lemma {:induction false} SumSquaredDeviationsSplit(xs: seq<real>, m: real)
    ensures SumSquaredDeviations(xs, m) == SumSquares(xs) - 2.0 * SumScaled(xs, m) + (|xs| as real) * (m * m)
    decreases |xs|
  {
    if |xs| > 0 {
      var init, x := xs[..|xs| - 1], xs[|xs| - 1];
      SumSquaredDeviationsSplit(init, m);
      SquareOfDifference(x, m);
      ScaleSum(m * m, |xs| as real, |init| as real, 1.0);
      SplitStep(SumSquaredDeviations(init, m), SumSquares(init), SumScaled(init, m), (|init| as real) * (m * m),
                Square(x - m), Square(x), m * x, m * m);
    }
  }

  /** Σm·x = m·Σx. */
  lemma {:induction false} SumScaledFactors(xs: seq<real>, m: real)
    ensures SumScaled(xs, m) == m * Sum(xs)
    decreases |xs|
  {
    if |xs| > 0 {
      var init, x := xs[..|xs| - 1], xs[|xs| - 1];
      SumScaledFactors(init, m);
      ScaleSum(m, Sum(xs), Sum(init), x);
    }
  }

  /** Σ(x − m)² = Σx² − 2mΣx + N·m². */
  lemma SumSquaredDeviationsExpand(xs: seq<real>, m: real)
    ensures Expanded(SumSquaredDeviations(xs, m), SumSquares(xs), Sum(xs), m, |xs|)
  {
    SumSquaredDeviationsSplit(xs, m);
    SumScaledFactors(xs, m);
  }

  lemma {:induction false} DeviationsNonNegative(xs: seq<real>, m: real)
    ensures SumSquaredDeviations(xs, m) >= 0.0
    decreases |xs|
  {
    if |xs| > 0 {
      DeviationsNonNegative(xs[..|xs| - 1], m);
      SquareNonNegative(xs[|xs| - 1] - m);
    }
  }

  lemma {:induction false} DeviationsFromCommonValue(xs: seq<real>, c: real)
    requires forall i :: 0 <= i < |xs| ==> xs[i] == c
    ensures SumSquaredDeviations(xs, c) == 0.0
    decreases |xs|
  {
    if |xs| > 0 {
      DeviationsFromCommonValue(xs[..|xs| - 1], c);
    }
  }

  // ---------------------------------------------------------------------------
  // The variance formulas

  lemma SpreadFromExpansion(ps: seq<real>, m: real)
    requires |ps| > 0 && m * (|ps| as real) == Sum(ps)
    requires Expanded(SumSquaredDeviations(ps, m), SumSquares(ps), Sum(ps), m, |ps|)
    ensures MeanOf(SumSquaredDeviations(ps, m), |ps|) == EnsembleVariance(ps)
  {
    SpreadIdentity(SumSquaredDeviations(ps, m), SumSquares(ps), Sum(ps), m, |ps|);
  }

  lemma SpreadAround(ps: seq<real>, m: real)
    requires |ps| > 0 && m * (|ps| as real) == Sum(ps)
    ensures MeanOf(SumSquaredDeviations(ps, m), |ps|) == EnsembleVariance(ps)
  {
    SumSquaredDeviationsExpand(ps, m);
    SpreadFromExpansion(ps, m);
  }

  /**
    The ensemble/dropout formula Σp²/N − (Σp)²/N² is exactly the mean squared
    deviation of the per-model predictions from their mean.
  */
  lemma EnsembleVarianceIsSpread(ps: seq<real>)
    requires |ps| > 0
    ensures EnsembleVariance(ps) == MeanSquaredDeviation(ps)
  {
    SpreadAround(ps, Mean(ps));
  }

  /** Hence the ensemble/dropout variance is never negative (in exact arithmetic). */
  lemma EnsembleVarianceNonNegative(ps: seq<real>)
    requires |ps| > 0
    ensures EnsembleVariance(ps) >= 0.0
  {
    EnsembleVarianceIsSpread(ps);
    DeviationsNonNegative(ps, Mean(ps));
  }

  /** When every model (or dropout sample) predicts the same value c, the mean is c and the variance zero. */
  lemma EnsembleVarianceZeroWhenAgree(ps: seq<real>, c: real)
    requires |ps| > 0
    requires forall i :: 0 <= i < |ps| ==> ps[i] == c
    ensures Mean(ps) == c
    ensures EnsembleVariance(ps) == 0.0
  {
    SumConstant(ps, c);
    MeanOfConstant(c, |ps|);
    DeviationsFromCommonValue(ps, c);
    SpreadAround(ps, c);
  }

  /**
    Law of total variance: the MVE/evidential formula is the mean of the models'
    own variances plus the ensemble dispersion of their predictions.
  */
  lemma MveVarianceDecomposes(ps: seq<real>, vs: seq<real>)
    requires |ps| == |vs| > 0
    ensures MveVariance(ps, vs) == Mean(vs) + EnsembleVariance(ps)
  {
  }

  /** When every model reports a non-negative variance, the aggregate is at least their mean, itself non-negative. */
  lemma MveVarianceAtLeastMeanVariance(ps: seq<real>, vs: seq<real>)
    requires |ps| == |vs| > 0
    requires forall i :: 0 <= i < |vs| ==> vs[i] >= 0.0
    ensures MveVariance(ps, vs) >= Mean(vs) >= 0.0
  {
    MveVarianceDecomposes(ps, vs);
    EnsembleVarianceNonNegative(ps);
    SumNonNegative(vs);
  }

  /** MVE with every model reporting zero variance reduces to the ensemble formula. */
  lemma MveWithoutOwnVarianceIsEnsemble(ps: seq<real>, vs: seq<real>)
    requires |ps| == |vs| > 0
    requires forall i :: 0 <= i < |vs| ==> vs[i] == 0.0
    ensures MveVariance(ps, vs) == EnsembleVariance(ps)
  {
    MveVarianceDecomposes(ps, vs);
    SumConstant(vs, 0.0);
    MeanOfConstant(0.0, |vs|);
  }

  /**
    When each model's variance is the sum of two components, the MVE formula on
    the sums exceeds the sum of the formulas on the components by exactly one
    ensemble dispersion, which both components count.
  */
  lemma MveVarianceSplitsOverComponents(ps: seq<real>, vs: seq<real>, us: seq<real>, ws: seq<real>)
    requires |ps| == |vs| == |us| == |ws| > 0
    requires forall k :: 0 <= k < |vs| ==> vs[k] == us[k] + ws[k]
    ensures MveVariance(ps, vs) + EnsembleVariance(ps) == MveVariance(ps, us) + MveVariance(ps, ws)
  {
    SumPointwise(vs, us, ws);
    DivideSum(Sum(us), Sum(ws), |ps| as real);
    MveVarianceDecomposes(ps, vs);
    MveVarianceDecomposes(ps, us);
    MveVarianceDecomposes(ps, ws);
  }

  // ---------------------------------------------------------------------------
  // Order of the models

  lemma {:induction false} SumsAppend(xs: seq<real>, ys: seq<real>)
    ensures Sum(xs + ys) == Sum(xs) + Sum(ys)
    ensures SumSquares(xs + ys) == SumSquares(xs) + SumSquares(ys)
    decreases |ys|
  {
    if |ys| == 0 {
      assert xs + ys == xs;
    } else {
      var init := ys[..|ys| - 1];
      assert (xs + ys)[..|xs + ys| - 1] == xs + init;
      assert (xs + ys)[|xs + ys| - 1] == ys[|ys| - 1];
      SumsAppend(xs, init);
    }
  }

  lemma RemoveOne(xs: seq<real>, j: nat)
    requires j < |xs|
    ensures multiset(xs[..j] + xs[j + 1..]) == multiset(xs) - multiset{xs[j]}
  {
    assert xs == xs[..j] + [xs[j]] + xs[j + 1..];
  }

  /** Σx and Σx² depend only on the multiset of the entries, not on their order. */
  lemma {:induction false} SumsIgnoreOrder(xs: seq<real>, ys: seq<real>)
    requires multiset(xs) == multiset(ys)
    ensures Sum(xs) == Sum(ys) && SumSquares(xs) == SumSquares(ys)
    decreases |xs|
  {
    assert |xs| == |multiset(xs)| == |ys|;
    if |xs| > 0 {
      var n := |xs| - 1;
      var x := xs[n];
      assert xs == xs[..n] + [x];
      assert x in multiset(ys);
      var j :| 0 <= j < |ys| && ys[j] == x;
      var before, after := ys[..j], ys[j + 1..];
      assert ys == before + ([x] + after);
      RemoveOne(xs, n);
      assert xs[..n] + xs[n + 1..] == xs[..n];
      RemoveOne(ys, j);
      SumsIgnoreOrder(xs[..n], before + after);
      assert [x][..0] == [];
      SumsAppend(before, [x] + after);
      SumsAppend([x], after);
      SumsAppend(before, after);
    }
  }

  /**
    The mean and both variance formulas depend only on the multisets of the
    per-model predictions and variances: the order in which the models run
    does not matter.
  */
  lemma ReductionsIgnoreOrder(ps: seq<real>, vs: seq<real>, qs: seq<real>, ws: seq<real>)
    requires |ps| == |vs| > 0
    requires multiset(ps) == multiset(qs) && multiset(vs) == multiset(ws)
    ensures |qs| == |ws| == |ps|
    ensures Mean(ps) == Mean(qs)
    ensures EnsembleVariance(ps) == EnsembleVariance(qs)
    ensures MveVariance(ps, vs) == MveVariance(qs, ws)
  {
    assert |ps| == |multiset(ps)| == |qs|;
    assert |vs| == |multiset(vs)| == |ws|;
    SumsIgnoreOrder(ps, qs);
    SumsIgnoreOrder(vs, ws);
  }

  /** Worked example: two models predicting 1.0 and 3.0 give mean 2.0 and variance 1.0. */
  lemma TwoModelExample()
    ensures Mean([1.0, 3.0]) == 2.0
    ensures EnsembleVariance([1.0, 3.0]) == 1.0
  {
    var ps := [1.0, 3.0];
    assert ps[..1] == [1.0];
    assert [1.0][..0] == [];
    assert Sum(ps) == 4.0;
    assert SumSquares(ps) == 10.0;
  }
}
