/** Odds, proportional vig removal, and the median consensus of the books. */
module Pricing {
  import opened Wrappers
  import opened Numbers
  import opened Medians

  datatype PricingError = TooFewOutcomes | NotAProbability | NotPositive | TooFewBooks | BadThreshold

  // ----- Odds -----

  predicate ValidAmericanOdds(odds: int) {
    odds <= -100 || 100 <= odds
  }

  /** Odds as stored: the table's check admits no others. */
  type Odds = odds: int | ValidAmericanOdds(odds) witness 100

  function DecimalOdds(odds: int): (d: real)
    requires ValidAmericanOdds(odds)
    ensures d > 1.0
  {
    if odds > 0 then 1.0 + odds as real / 100.0
    else
      DivLess(100.0, 0.0, (-odds) as real);
      1.0 + 100.0 / (-odds) as real
  }

  function ImpliedProbability(odds: int): (p: real)
    requires ValidAmericanOdds(odds)
    ensures 0.0 < p < 1.0
  {
    DivLess(1.0, 0.0, DecimalOdds(odds));
    DivLess(1.0, 1.0, DecimalOdds(odds));
    Ratio(1.0, DecimalOdds(odds))
  }

  /** Better odds imply a smaller probability. */
  lemma BetterOddsImplyLess(a: int, b: int)
    requires ValidAmericanOdds(a) && ValidAmericanOdds(b) && DecimalOdds(a) <= DecimalOdds(b)
    ensures ImpliedProbability(b) <= ImpliedProbability(a)
  {
    var x, y := DecimalOdds(a), DecimalOdds(b);
    var p := 1.0 / x;
    assert p * x == 1.0;
    DivLess(1.0, 0.0, x);
    MulMono(x, y, p);
    DivLess(1.0, p, y);
  }

  // ----- Removing the vig -----

  datatype NoVig = NoVig(probabilities: seq<real>, rawSum: real, overround: real)

  function Shares(raw: seq<real>, total: real): (r: seq<real>)
    requires total > 0.0
    ensures |r| == |raw|
  {
    seq(|raw|, i requires 0 <= i < |raw| => Quantize(Ratio(raw[i], total), PROBABILITY_SCALE))
  }

  /** All shares but the last are rounded; the last is what the others leave. */
  function Completed(shares: seq<real>): seq<real>
    requires shares != []
  {
    var front := shares[..|shares| - 1];
    front + [1.0 - Sum(front)]
  }

  lemma {:induction false} SumPositive(raw: seq<real>)
    requires raw != [] && forall p <- raw :: p > 0.0
    ensures Sum(raw) > 0.0
  {
    assert raw[0] in raw && forall p <- raw[1..] :: p in raw;
    if |raw| > 1 { SumPositive(raw[1..]); }
  }

  function RemoveVig(raw: seq<real>): Result<NoVig, PricingError> {
    if |raw| < 2 then Err(TooFewOutcomes)
    else if exists p :: p in raw && !(0.0 <= p <= 1.0) then Err(NotAProbability)
    else if exists p :: p in raw && p <= 0.0 then Err(NotPositive)
    else
      SumPositive(raw);
      Ok(NoVig(Completed(Shares(raw, Sum(raw))), Sum(raw), Sum(raw) - 1.0))
  }

  /** Whatever was rounded, the no-vig probabilities sum to exactly one. */
  lemma NoVigSumsToOne(raw: seq<real>)
    requires RemoveVig(raw).Ok?
    ensures |RemoveVig(raw).value.probabilities| == |raw| && Sum(RemoveVig(raw).value.probabilities) == 1.0
  {
    SumPositive(raw);
    var shares := Shares(raw, Sum(raw));
    SumAppend(shares[..|shares| - 1], 1.0 - Sum(shares[..|shares| - 1]));
  }

  function NoVigPair(first: real, second: real): (real, real)
    requires 0.0 < first < 1.0 && 0.0 < second < 1.0
  {
    var share := Quantize(Ratio(first, first + second), PROBABILITY_SCALE);
    (share, 1.0 - share)
  }

  lemma ShareBelowOne(first: real, second: real)
    requires 0.0 < first && 0.0 < second
    ensures 0.0 < Ratio(first, first + second) < 1.0
    ensures first <= second ==> Ratio(first, first + second) <= 0.5
    ensures first >= second ==> Ratio(first, first + second) >= 0.5
  {
    DivLess(first, 0.0, first + second);
    DivLess(first, 1.0, first + second);
    DivLess(first, 0.5, first + second);
  }

  lemma QuantizedShare(x: real)
    requires 0.0 <= x <= 1.0
    ensures 0.0 <= Quantize(x, PROBABILITY_SCALE) <= 1.0
    ensures x <= 0.5 ==> Quantize(x, PROBABILITY_SCALE) <= 0.5
    ensures x >= 0.5 ==> Quantize(x, PROBABILITY_SCALE) >= 0.5
    ensures Abs(Quantize(x, PROBABILITY_SCALE) - x) <= 0.0000000000005
  {
    var scaled := x * PROBABILITY_SCALE;
    RoundHalfEvenNearest(scaled);
    RoundHalfEvenBetween(0, scaled, 1000000000000);
    if x <= 0.5 { RoundHalfEvenBetween(0, scaled, 500000000000); }
    if x >= 0.5 { RoundHalfEvenBetween(500000000000, scaled, 1000000000000); }
  }

  /** Two outcomes: each no-vig probability is a probability within half a grid step of its share, and the favourite stays
      the favourite. */
  lemma NoVigOfTwo(first: real, second: real)
    requires 0.0 < first < 1.0 && 0.0 < second < 1.0
    ensures RemoveVig([first, second]).Ok?
    ensures var r, pair := RemoveVig([first, second]).value, NoVigPair(first, second);
            && r.probabilities == [pair.0, pair.1] && r.rawSum == first + second && r.overround == first + second - 1.0
            && pair.0 + pair.1 == 1.0 && 0.0 <= pair.0 <= 1.0 && 0.0 <= pair.1 <= 1.0
            && Abs(pair.0 - Ratio(first, first + second)) <= 0.0000000000005
            && (first <= second ==> pair.0 <= pair.1) && (first >= second ==> pair.0 >= pair.1)
  {
    hide Quantize, Ratio;
    var raw := [first, second];
    assert raw[1..] == [second] && [second][1..] == [];
    assert Sum([second]) == second + Sum([]);
    assert Sum(raw) == raw[0] + Sum(raw[1..]);
    ShareBelowOne(first, second);
    QuantizedShare(Ratio(first, first + second));
    var shares := Shares(raw, first + second);
    assert shares[..1] == [shares[0]] && [shares[0]][1..] == [];
    assert Sum(shares[..1]) == shares[0];
  }

  // ----- The median consensus -----

  datatype ConsensusResult = ConsensusResult(probability: real, dispersion: real, outlierIndexes: seq<nat>)

  predicate IsOutlier(p: real, consensus: real, threshold: real) {
    Abs(p - consensus) > threshold
  }

  function OutliersFrom(probabilities: seq<real>, consensus: real, threshold: real, start: nat): seq<nat>
    requires start <= |probabilities|
    decreases |probabilities| - start
  {
    if start == |probabilities| then []
    else (if IsOutlier(probabilities[start], consensus, threshold) then [start] else [])
         + OutliersFrom(probabilities, consensus, threshold, start + 1)
  }

  function Consensus(probabilities: seq<real>, threshold: real): ConsensusResult
    requires probabilities != []
  {
    ConsensusResult(Median(probabilities), Greatest(probabilities) - Least(probabilities),
                    OutliersFrom(probabilities, Median(probabilities), threshold, 0))
  }

  function UnweightedMedianConsensus(probabilities: seq<real>, threshold: real): Result<ConsensusResult, PricingError> {
    if |probabilities| < 2 then Err(TooFewBooks)
    else if exists p :: p in probabilities && !(0.0 <= p <= 1.0) then Err(NotAProbability)
    else if threshold < 0.0 then Err(BadThreshold)
    else Ok(Consensus(probabilities, threshold))
  }

  lemma {:induction false} OutliersAgree(a: seq<real>, b: seq<real>, m: real, threshold: real, start: nat)
    requires |a| == |b| && start <= |a| && forall i :: 0 <= i < |a| ==> b[i] == 1.0 - a[i]
    ensures OutliersFrom(a, m, threshold, start) == OutliersFrom(b, 1.0 - m, threshold, start)
    decreases |a| - start
  {
    if start < |a| { OutliersAgree(a, b, m, threshold, start + 1); }
  }

  /** Home and away views of the same books: the medians sum to one, and dispersion and outlier books are the same. */
  lemma ConsensusIsComplementary(home: seq<real>, threshold: real)
    requires home != []
    ensures var h, a := Consensus(home, threshold), Consensus(Complements(home), threshold);
            && h.probability + a.probability == 1.0 && h.dispersion == a.dispersion && h.outlierIndexes == a.outlierIndexes
  {
    hide Median;
    var away := Complements(home);
    MedianOfComplements(home);
    OutliersAgree(home, away, Median(home), threshold, 0);
    var hi, lo := Greatest(home), Least(home);
    var i :| 0 <= i < |home| && home[i] == hi;
    var j :| 0 <= j < |home| && home[j] == lo;
    assert away[i] in away && away[j] in away;
    forall v | v in away ensures 1.0 - hi <= v <= 1.0 - lo {
      var k :| 0 <= k < |away| && away[k] == v;
      assert home[k] in home;
    }
  }
}
