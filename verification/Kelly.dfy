/** Push-aware Kelly sizing: the fraction, the expected log growth, and why the fraction is the right one. */
module Kelly {
  import opened Wrappers
  import opened Numbers

  datatype InputError = BadProbability | BadMass | BadOdds | BadFraction

  predicate Probability(p: real) {
    0.0 <= p <= 1.0
  }

  predicate Mass(win: real, push: real) {
    Probability(win) && Probability(push) && win + push <= 1.0
  }

  /** The full Kelly fraction of a wager on valid inputs: zero when it has no edge or always pushes. */
  function KellyFraction(win: real, push: real, odds: real): real
    requires Mass(win, push) && odds > 1.0
  {
    var loss := 1.0 - win - push;
    var b := odds - 1.0;
    var resolved := win + loss;
    if resolved == 0.0 then 0.0
    else Max(0.0, Root(b, win, loss))
  }

  /** The exact optimum before the cut at zero. */
  function Root(b: real, win: real, loss: real): (k: real)
    requires b > 0.0 && win + loss > 0.0
    ensures k * (b * (win + loss)) == b * win - loss
  {
    MulPositive(b, win + loss);
    (b * win - loss) / (b * (win + loss))
  }

  function FractionalKellyWithPush(win: real, push: real, odds: real): Result<real, InputError> {
    if !Probability(win) || !Probability(push) then Err(BadProbability)
    else if win + push > 1.0 then Err(BadMass)
    else if odds <= 1.0 then Err(BadOdds)
    else Ok(KellyFraction(win, push, odds))
  }

  /** Expected log growth on valid inputs when `fraction` of wealth is staked; a push leaves wealth alone. */
  function LogGrowth(ln: real -> real, win: real, push: real, odds: real, fraction: real): real {
    if fraction == 0.0 then 0.0
    else win * ln(1.0 + fraction * (odds - 1.0)) + (1.0 - win - push) * ln(1.0 - fraction)
  }

  function ExpectedLogGrowth(ln: real -> real, win: real, push: real, odds: real, fraction: real): Result<real, InputError> {
    if !Probability(win) || !Probability(push) then Err(BadProbability)
    else if win + push > 1.0 then Err(BadMass)
    else if fraction < 0.0 || fraction >= 1.0 then Err(BadFraction)
    else if odds <= 1.0 then Err(BadOdds)
    else Ok(LogGrowth(ln, win, push, odds, fraction))
  }

  // ----- What is used of the natural logarithm -----

  ghost predicate LogOfProduct(ln: real -> real, x: real, y: real) {
    x > 0.0 && y > 0.0 ==> ln(x * y) == ln(x) + ln(y)
  }

  ghost predicate LogBelowLine(ln: real -> real, x: real) {
    x > 0.0 ==> ln(x) <= x - 1.0
  }

  /** The two facts of the natural logarithm that the results need. */
  ghost predicate IsLogarithm(ln: real -> real) {
    && (forall x, y :: LogOfProduct(ln, x, y))
    && (forall x :: LogBelowLine(ln, x))
  }

  lemma LogOfOne(ln: real -> real)
    requires IsLogarithm(ln)
    ensures ln(1.0) == 0.0
  {
    assert LogOfProduct(ln, 1.0, 1.0);
    assert 1.0 * 1.0 == 1.0;
  }

  /** ln y - ln x is at most y / x - 1. */
  lemma LogStep(ln: real -> real, x: real, y: real, ratio: real)
    requires IsLogarithm(ln) && x > 0.0 && y > 0.0 && x * ratio == y
    ensures ln(y) - ln(x) <= ratio - 1.0
  {
    if ratio <= 0.0 { MulMono(ratio, 0.0, x); }
    assert LogOfProduct(ln, x, ratio);
    assert LogBelowLine(ln, ratio);
  }

  lemma LogMonotone(ln: real -> real, x: real, y: real)
    requires IsLogarithm(ln) && 0.0 < x <= y
    ensures ln(x) <= ln(y)
  {
    var ratio := x / y;
    DivLess(x, 1.0, y);
    assert y * ratio == x;
    LogStep(ln, y, x, ratio);
  }

  // ----- The growth of wealth as a function of the stake -----

  /** Log growth of a wager that wins with probability `win`, loses with `loss` and pays b to one. */
  function Growth(ln: real -> real, win: real, loss: real, b: real, f: real): real {
    win * ln(1.0 + f * b) + loss * ln(1.0 - f)
  }

  lemma GrowthUnfolds(ln: real -> real, win: real, push: real, odds: real, f: real)
    requires IsLogarithm(ln)
    ensures LogGrowth(ln, win, push, odds, f) == Growth(ln, win, 1.0 - win - push, odds - 1.0, f)
  {
    if f == 0.0 {
      LogOfOne(ln);
      assert 1.0 + f * (odds - 1.0) == 1.0;
    }
  }

  /** One outcome's share of the tangent bound, for a quotient with quotient * x == slope. */
  lemma WeightedLogStep(ln: real -> real, weight: real, x: real, y: real, slope: real, delta: real, quotient: real)
    requires IsLogarithm(ln) && weight >= 0.0 && x > 0.0 && y > 0.0
    requires y - x == slope * delta && quotient * x == slope
    ensures weight * ln(y) - weight * ln(x) <= delta * (weight * quotient)
  {
    assert x * (1.0 + quotient * delta) == x + quotient * x * delta;
    LogStep(ln, x, y, 1.0 + quotient * delta);
    MulMono(ln(y) - ln(x), quotient * delta, weight);
    Distribute(ln(y), ln(x), weight);
    assert quotient * delta * weight == delta * (weight * quotient);
  }

  /** Growth lies below each of its tangents: win * p - loss * q is its slope at f. */
  lemma GrowthBelowTangent(ln: real -> real, win: real, loss: real, b: real, f: real, g: real, p: real, q: real)
    requires IsLogarithm(ln) && win >= 0.0 && loss >= 0.0 && b > 0.0
    requires 0.0 <= f < 1.0 && 0.0 <= g < 1.0
    requires p * (1.0 + f * b) == b && q * (1.0 - f) == 1.0
    ensures Growth(ln, win, loss, b, g) - Growth(ln, win, loss, b, f) <= (g - f) * (win * p - loss * q)
  {
    MulMono(0.0, f, b);
    MulMono(0.0, g, b);
    Distribute(g, f, b);
    WeightedLogStep(ln, win, 1.0 + f * b, 1.0 + g * b, b, g - f, p);
    assert -q * (1.0 - f) == -1.0;
    WeightedLogStep(ln, loss, 1.0 - f, 1.0 - g, -1.0, g - f, -q);
    SumOfSlopes(win * p, loss * q, g - f);
    assert loss * -q == -(loss * q);
  }

  lemma SumOfSlopes(gain: real, cost: real, delta: real)
    ensures delta * gain + delta * -cost == delta * (gain - cost)
  {
  }

  /** The slope at f, scaled by a positive number, is Kelly's numerator less f times its denominator. */
  lemma SlopeScaled(win: real, loss: real, b: real, f: real, p: real, q: real)
    requires p * (1.0 + f * b) == b && q * (1.0 - f) == 1.0
    ensures (win * p - loss * q) * ((1.0 + f * b) * (1.0 - f)) == b * win - loss - f * (b * (win + loss))
  {
    var w, l := 1.0 + f * b, 1.0 - f;
    Distribute(win * p, loss * q, w * l);
    assert win * p * (w * l) == win * (p * w) * l;
    assert loss * q * (w * l) == loss * (q * l) * w;
    var x, y := win * b, loss * b;
    assert x * (1.0 - f) == x - f * x;
    assert loss * (1.0 + f * b) == loss + f * y;
    assert b * (win + loss) == x + y;
    assert f * (x + y) == f * x + f * y;
  }

  /** The slope is positive below the Kelly fraction k and vanishes there. */
  lemma SlopeSign(win: real, loss: real, b: real, f: real, p: real, q: real, k: real)
    requires win >= 0.0 && loss >= 0.0 && win + loss > 0.0 && b > 0.0 && 0.0 <= f < 1.0
    requires p * (1.0 + f * b) == b && q * (1.0 - f) == 1.0
    requires k * (b * (win + loss)) == b * win - loss
    ensures win * p - loss * q > 0.0 <==> f < k
    ensures win * p - loss * q == 0.0 <==> f == k
  {
    var unit, scale := Prod(b, win + loss), Prod(1.0 + Prod(f, b), 1.0 - f);
    assert unit > 0.0 by { MulPositive(b, win + loss); }
    assert scale > 0.0 by {
      MulMono(0.0, f, b);
      MulPositive(1.0 + f * b, 1.0 - f);
    }
    assert Prod(win * p - loss * q, scale) == b * win - loss - Prod(f, unit) by { SlopeScaled(win, loss, b, f, p, q); }
    assert Prod(k, unit) == b * win - loss;
    hide Prod;
    SameSign(win * p - loss * q, scale, k, f, unit);
  }

  lemma SameSign(m: real, scale: real, k: real, f: real, unit: real)
    requires scale > 0.0 && unit > 0.0 && Prod(m, scale) == Prod(k, unit) - Prod(f, unit)
    ensures m > 0.0 <==> f < k
    ensures m == 0.0 <==> f == k
  {
    Distribute(k, f, unit);
    SignOfFactor(k - f, unit);
    SignOfFactor(m, scale);
  }

  lemma SignOfFactor(m: real, scale: real)
    requires scale > 0.0
    ensures m * scale > 0.0 <==> m > 0.0
    ensures m * scale == 0.0 <==> m == 0.0
  {
    if m > 0.0 { MulPositive(m, scale); } else if m < 0.0 { MulPositive(-m, scale); }
  }

  lemma KellyRoot(win: real, push: real, odds: real) returns (k: real)
    requires Mass(win, push) && push < 1.0 && odds > 1.0
    ensures k * ((odds - 1.0) * (win + (1.0 - win - push))) == (odds - 1.0) * win - (1.0 - win - push)
    ensures KellyFraction(win, push, odds) == Max(0.0, k)
  {
    var b, loss := odds - 1.0, 1.0 - win - push;
    hide Root, Max;
    k := Root(b, win, loss);
  }

  lemma Quotients(b: real, f: real) returns (p: real, q: real)
    requires b > 0.0 && 0.0 <= f < 1.0
    ensures p * (1.0 + f * b) == b && q * (1.0 - f) == 1.0
  {
    MulMono(0.0, f, b);
    p, q := b / (1.0 + f * b), 1.0 / (1.0 - f);
  }

  /** The tangent of the growth at a fraction f lies above it; its slope points toward the exact optimum k. */
  lemma TangentAt(ln: real -> real, win: real, push: real, odds: real, f: real, g: real) returns (slope: real, k: real)
    requires IsLogarithm(ln) && Mass(win, push) && push < 1.0 && odds > 1.0 && 0.0 <= f < 1.0 && 0.0 <= g < 1.0
    ensures LogGrowth(ln, win, push, odds, g) - LogGrowth(ln, win, push, odds, f) <= Prod(g - f, slope)
    ensures KellyFraction(win, push, odds) == Max(0.0, k)
    ensures (slope > 0.0 <==> f < k) && (slope == 0.0 <==> f == k)
  {
    var b, loss := odds - 1.0, 1.0 - win - push;
    k := KellyRoot(win, push, odds);
    var p, q := Quotients(b, f);
    SlopeSign(win, loss, b, f, p, q, k);
    GrowthBelowTangent(ln, win, loss, b, f, g, p, q);
    hide KellyFraction, Root, LogGrowth, Growth, IsLogarithm;
    slope := win * p - loss * q;
    GrowthUnfolds(ln, win, push, odds, f);
    GrowthUnfolds(ln, win, push, odds, g);
  }

  // ----- Main results -----

  /** Growth never falls on the way up to the Kelly fraction. */
  lemma GrowthRisesToKelly(ln: real -> real, win: real, push: real, odds: real, f: real, g: real)
    requires IsLogarithm(ln) && Mass(win, push) && odds > 1.0
    requires 0.0 <= f <= g <= KellyFraction(win, push, odds) && g < 1.0
    ensures LogGrowth(ln, win, push, odds, f) <= LogGrowth(ln, win, push, odds, g)
  {
    if push < 1.0 && g > 0.0 {
      hide KellyFraction, LogGrowth, IsLogarithm;
      var slope, k := TangentAt(ln, win, push, odds, g, f);
      MulMono(f - g, 0.0, slope);
    }
  }

  /** No fraction grows wealth faster than the Kelly fraction. */
  lemma KellyIsOptimal(ln: real -> real, win: real, push: real, odds: real, g: real)
    requires IsLogarithm(ln) && Mass(win, push) && odds > 1.0 && 0.0 <= g < 1.0
    requires KellyFraction(win, push, odds) < 1.0
    ensures LogGrowth(ln, win, push, odds, g)
            <= LogGrowth(ln, win, push, odds, KellyFraction(win, push, odds))
  {
    if push < 1.0 {
      hide KellyFraction, LogGrowth, IsLogarithm;
      var best := KellyFraction(win, push, odds);
      var slope, k := TangentAt(ln, win, push, odds, best, g);
      if best == 0.0 {
        MulMono(slope, 0.0, g);
      }
    }
  }

  /** The fraction is at most one, and reaches one exactly when the wager can win and cannot lose. */
  lemma KellyRange(win: real, push: real, odds: real)
    requires Mass(win, push) && odds > 1.0
    ensures 0.0 <= KellyFraction(win, push, odds) <= 1.0
    ensures KellyFraction(win, push, odds) == 1.0 <==> win > 0.0 && win + push == 1.0
  {
    var b, loss := odds - 1.0, 1.0 - win - push;
    if push < 1.0 {
      var k := KellyRoot(win, push, odds);
      MulPositive(b, win + loss);
      MulMono(0.0, loss, b);
      Distribute(k, 1.0, b * (win + loss));
      assert b * (win + loss) == b * win + b * loss;
      SignOfFactor(k - 1.0, b * (win + loss));
    }
  }

  /** Push-aware expected value per unit staked. */
  function ExpectedValueWithPush(win: real, loss: real, odds: real): real {
    win * (odds - 1.0) - loss
  }

  /** The probability of winning given that the wager resolves, less the offered implied probability. */
  function ProbabilityEdgeWithPush(win: real, push: real, implied: real): real {
    var resolved := 1.0 - push;
    if resolved == 0.0 then -implied else win / resolved - implied
  }

  /** Staking anything pays exactly when expected value is positive, which is exactly when the conditional edge is. */
  lemma KellyPositiveIffEdge(win: real, push: real, odds: real)
    requires Mass(win, push) && odds > 1.0
    ensures KellyFraction(win, push, odds) > 0.0 <==> ExpectedValueWithPush(win, 1.0 - win - push, odds) > 0.0
    ensures KellyFraction(win, push, odds) > 0.0 <==> ProbabilityEdgeWithPush(win, push, 1.0 / odds) > 0.0
  {
    var b, loss := odds - 1.0, 1.0 - win - push;
    var resolved := 1.0 - push;
    var implied := 1.0 / odds;
    assert implied * odds == 1.0;
    SignOfFactor(implied, odds);
    if push < 1.0 {
      var k := KellyRoot(win, push, odds);
      MulPositive(b, resolved);
      SignOfFactor(k, b * resolved);
      var conditional := win / resolved;
      assert conditional * resolved == win;
      EdgeScaled(win, resolved, conditional, implied, odds);
      MulPositive(resolved, odds);
      SignOfFactor(conditional - implied, resolved * odds);
    }
  }

  lemma EdgeScaled(win: real, resolved: real, conditional: real, implied: real, odds: real)
    requires conditional * resolved == win && implied * odds == 1.0
    ensures (conditional - implied) * (resolved * odds) == (odds - 1.0) * win - (resolved - win)
  {
    Distribute(conditional, implied, resolved * odds);
    assert conditional * (resolved * odds) == win * odds;
    assert implied * (resolved * odds) == implied * odds * resolved;
    Distribute(odds, 1.0, win);
  }

  /** Any stake strictly between nothing and Kelly grows wealth; with no Kelly fraction no stake does. */
  lemma GrowthPositiveBelowKelly(ln: real -> real, win: real, push: real, odds: real, f: real)
    requires IsLogarithm(ln) && Mass(win, push) && odds > 1.0 && 0.0 < f < 1.0
    ensures f < KellyFraction(win, push, odds) ==> LogGrowth(ln, win, push, odds, f) > 0.0
    ensures KellyFraction(win, push, odds) == 0.0 ==> LogGrowth(ln, win, push, odds, f) <= 0.0
  {
    var best := KellyFraction(win, push, odds);
    var b, loss := odds - 1.0, 1.0 - win - push;
    if best == 0.0 {
      KellyIsOptimal(ln, win, push, odds, f);
    } else if f < best {
      var k := KellyRoot(win, push, odds);
      var p, q := Quotients(b, f);
      SlopeSign(win, loss, b, f, p, q, k);
      GrowthBelowTangent(ln, win, loss, b, f, 0.0, p, q);
      MulPositive(f, win * p - loss * q);
      GrowthUnfolds(ln, win, push, odds, f);
      GrowthUnfolds(ln, win, push, odds, 0.0);
    }
  }

  /** With the push probability fixed, a likelier win grows wealth at least as fast. */
  lemma GrowthRisesWithWin(ln: real -> real, lower: real, higher: real, push: real, odds: real, f: real)
    requires IsLogarithm(ln) && odds > 1.0 && 0.0 <= f < 1.0 && lower <= higher
    ensures LogGrowth(ln, lower, push, odds, f) <= LogGrowth(ln, higher, push, odds, f)
  {
    var b := odds - 1.0;
    GrowthUnfolds(ln, lower, push, odds, f);
    GrowthUnfolds(ln, higher, push, odds, f);
    GrowthShift(ln, lower, 1.0 - lower - push, higher, 1.0 - higher - push, b, f);
  }

  lemma GrowthShift(ln: real -> real, win: real, loss: real, win': real, loss': real, b: real, f: real)
    requires IsLogarithm(ln) && b > 0.0 && 0.0 <= f < 1.0
    requires win <= win' && win + loss == win' + loss'
    ensures Growth(ln, win, loss, b, f) <= Growth(ln, win', loss', b, f)
  {
    MulMono(0.0, f, b);
    var up, down := ln(1.0 + f * b), ln(1.0 - f);
    LogMonotone(ln, 1.0 - f, 1.0 + f * b);
    MulMono(win, win', up - down);
    Distribute(up, down, win);
    Distribute(up, down, win');
    Distribute(win, win', down);
    Distribute(loss, loss', down);
  }
}
