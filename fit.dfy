/** The residual functor FitAllanGyr::AllanSigmaError that the noise-model
    fit minimises: the five-term Allan variance model
      sigma^2(tau) = Q^2/tau^2 + N^2/tau + B^2 + K^2 tau + R^2 tau^2
    and the difference of its base-10 logarithm from that of one observed
    variance. The logarithm is a parameter `ln` (the natural logarithm). */
module FitAllanGyr {
  import opened Arith

  /** One observation: the Allan variance sigma2 measured at period tau. */
  datatype AllanSigmaError = AllanSigmaError(sigma2: real, tau: real)

  /** What the model needs of `ln`: zero at 1 and strictly increasing on
      the positive reals. */
  ghost predicate IsLogarithm(ln: real -> real)
  {
    ln(1.0) == 0.0 &&
    forall x, y :: 0.0 < x < y ==> ln(x) < ln(y)
  }

  /** calcLog10: log(src) / log(10). */
  function CalcLog10(src: real, ln: real -> real): real
    requires ln(10.0) != 0.0
  {
    ln(src) / ln(10.0)
  }

  /** calcSigma2: the model variance at tau, term by term as written. */
  function CalcSigma2(q: real, n: real, b: real, k: real, r: real, tau: real): real
    requires tau != 0.0
  {
    Square(q) / Square(tau)
    + Square(n) / tau
    + Square(b)
    + Square(k) * tau
    + Square(r) * tau * tau
  }

  /** The outcome of operator(): the value it returns and residuals[0]. */
  datatype Evaluation = Evaluation(ok: bool, residual: real)

  /** operator(): read Q, N, B, K, R from the first five parameters, and
      return true with the log10 difference between the model variance
      at the stored tau and the stored observation. */
  function Evaluate(e: AllanSigmaError, param: seq<real>, ln: real -> real): (r: Evaluation)
    requires |param| >= 5 && e.tau != 0.0 && ln(10.0) != 0.0
    ensures r.ok
  {
    var sigma2 := CalcSigma2(param[0], param[1], param[2], param[3], param[4], e.tau);
    Evaluation(true, CalcLog10(sigma2, ln) - CalcLog10(e.sigma2, ln))
  }

  /** For a positive period every term is non-negative, so the model is
      at least the bias-instability term B^2, and so non-negative. */
  lemma Sigma2AtLeastBias(q: real, n: real, b: real, k: real, r: real, tau: real)
    requires tau > 0.0
    ensures CalcSigma2(q, n, b, k, r, tau) >= Square(b)
    ensures CalcSigma2(q, n, b, k, r, tau) >= 0.0
  {
    SquareNonNegative(q);
    SquareNonNegative(n);
    SquareNonNegative(b);
    SquareNonNegative(k);
    SquareNonNegative(r);
    SquarePositive(tau);
    QuotientNonNegative(Square(q), Square(tau));
    QuotientNonNegative(Square(n), tau);
    ProductNonNegative(Square(k), tau);
    ProductNonNegative(Square(r), tau);
    ProductNonNegative(Square(r) * tau, tau);
  }

  /** With only the bias term the model is flat: B^2 at every period. */
  lemma BiasOnlyIsFlat(b: real, tau: real)
    requires tau != 0.0
    ensures CalcSigma2(0.0, 0.0, b, 0.0, 0.0, tau) == Square(b)
  {
    assert Square(0.0) == 0.0;
  }

  /** The model sees each parameter only through its square: flipping the
      sign of any of them leaves the variance unchanged. */
  lemma Sigma2IgnoresSigns(q: real, n: real, b: real, k: real, r: real,
                           q2: real, n2: real, b2: real, k2: real, r2: real, tau: real)
    requires tau != 0.0
    requires q2 == q || q2 == -q
    requires n2 == n || n2 == -n
    requires b2 == b || b2 == -b
    requires k2 == k || k2 == -k
    requires r2 == r || r2 == -r
    ensures CalcSigma2(q2, n2, b2, k2, r2, tau) == CalcSigma2(q, n, b, k, r, tau)
  {
    SquareOfNegation(q);
    SquareOfNegation(n);
    SquareOfNegation(b);
    SquareOfNegation(k);
    SquareOfNegation(r);
  }

  /** Dividing by the positive log(10) keeps the order of the logarithms. */
  lemma Log10Order(x: real, y: real, ln: real -> real)
    requires IsLogarithm(ln) && 0.0 < x && 0.0 < y
    ensures ln(10.0) > 0.0
    ensures CalcLog10(x, ln) < CalcLog10(y, ln) <==> x < y
    ensures CalcLog10(x, ln) == CalcLog10(y, ln) <==> x == y
  {
    assert ln(1.0) < ln(10.0);
    var c := ln(10.0);
    if x < y {
      assert ln(x) < ln(y);
      DivideKeepsOrder(ln(x), ln(y), c);
    } else if y < x {
      assert ln(y) < ln(x);
      DivideKeepsOrder(ln(y), ln(x), c);
    }
  }

  /** The residual vanishes when the model reproduces the observation. */
  lemma ResidualZeroAtObservation(e: AllanSigmaError, param: seq<real>, ln: real -> real)
    requires |param| >= 5 && e.tau != 0.0 && ln(10.0) != 0.0
    requires CalcSigma2(param[0], param[1], param[2], param[3], param[4], e.tau) == e.sigma2
    ensures Evaluate(e, param, ln).residual == 0.0
  {
  }

  /** For positive variances the residual has the sign of the model's
      excess over the observation, and is zero exactly when they agree. */
  lemma ResidualSign(e: AllanSigmaError, param: seq<real>, ln: real -> real)
    requires IsLogarithm(ln) && |param| >= 5 && e.tau != 0.0 && e.sigma2 > 0.0
    requires CalcSigma2(param[0], param[1], param[2], param[3], param[4], e.tau) > 0.0
    ensures ln(10.0) > 0.0
    ensures Evaluate(e, param, ln).residual > 0.0 <==>
              CalcSigma2(param[0], param[1], param[2], param[3], param[4], e.tau) > e.sigma2
    ensures Evaluate(e, param, ln).residual == 0.0 <==>
              CalcSigma2(param[0], param[1], param[2], param[3], param[4], e.tau) == e.sigma2
    ensures Evaluate(e, param, ln).residual < 0.0 <==>
              CalcSigma2(param[0], param[1], param[2], param[3], param[4], e.tau) < e.sigma2
  {
    var model := CalcSigma2(param[0], param[1], param[2], param[3], param[4], e.tau);
    Log10Order(model, e.sigma2, ln);
    Log10Order(e.sigma2, model, ln);
  }
}
