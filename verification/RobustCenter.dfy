/** Combining the books' centers: an overround-weighted median, then a Huber-style weighted mean around it. */
module RobustCenter {
  import opened Wrappers
  import opened Numbers
  import opened Ordering
  import opened Medians

  datatype CenterError = TooFewBooks | BadOutlierDistance

  datatype BookPoint = BookPoint(book: string, center: real, overround: real)

  datatype MarketCenter = MarketCenter(center: real, dispersion: real, outliers: seq<string>)

  function OverroundWeight(overround: real): (w: real)
    ensures 0.5 <= w <= 2.0
  {
    Min(2.0, Max(0.5, 0.04 / Max(overround, 0.02)))
  }

  function Weight(p: BookPoint): (w: real)
    ensures 0.5 <= w <= 2.0
  {
    OverroundWeight(p.overround)
  }

  function TotalWeight(points: seq<BookPoint>): real {
    if points == [] then 0.0 else Weight(points[0]) + TotalWeight(points[1..])
  }

  function PointKey(p: BookPoint): seq<real> {
    [p.center] + Text(p.book)
  }

  function Ordered(points: seq<BookPoint>): seq<BookPoint> {
    SortBy(ByKey(PointKey), points)
  }

  /** The first center at which the weight passed, `running` included, reaches halfway. */
  function WeightedMedianFrom(ordered: seq<BookPoint>, running: real, halfway: real, otherwise: real): real {
    if ordered == [] then otherwise
    else if running + Weight(ordered[0]) >= halfway then ordered[0].center
    else WeightedMedianFrom(ordered[1..], running + Weight(ordered[0]), halfway, otherwise)
  }

  function WeightedMedian(ordered: seq<BookPoint>): real
    requires ordered != []
  {
    WeightedMedianFrom(ordered, 0.0, TotalWeight(ordered) / 2.0, ordered[|ordered| - 1].center)
  }

  function Deviations(ordered: seq<BookPoint>, m: real): seq<real> {
    seq(|ordered|, i requires 0 <= i < |ordered| => Abs(ordered[i].center - m))
  }

  function Cutoff(mad: real): real {
    Max(0.5, 2.2239 * mad)
  }

  /** A book's weight, cut back in proportion once it deviates by more than the cutoff. */
  function Influence(p: BookPoint, m: real, cutoff: real): real {
    var deviation := Abs(p.center - m);
    if deviation == 0.0 then Weight(p) else Weight(p) * Min(1.0, cutoff / deviation)
  }

  function TotalInfluence(ordered: seq<BookPoint>, m: real, cutoff: real): real {
    if ordered == [] then 0.0 else Influence(ordered[0], m, cutoff) + TotalInfluence(ordered[1..], m, cutoff)
  }

  function WeightedCenters(ordered: seq<BookPoint>, m: real, cutoff: real): real {
    if ordered == [] then 0.0
    else Prod(ordered[0].center, Influence(ordered[0], m, cutoff)) + WeightedCenters(ordered[1..], m, cutoff)
  }

  // ----- One book's influence -----

  lemma InfluenceBounds(p: BookPoint, m: real, cutoff: real)
    requires cutoff >= 0.5
    ensures 0.0 < Influence(p, m, cutoff) <= Weight(p)
    ensures Abs(p.center - m) <= cutoff ==> Influence(p, m, cutoff) == Weight(p)
    ensures Abs(p.center - m) * Influence(p, m, cutoff) <= cutoff * Weight(p)
  {
    var d, w := Abs(p.center - m), Weight(p);
    if d == 0.0 {
      MulPositive(cutoff, w);
    } else {
      var q := cutoff / d;
      assert q * d == cutoff;
      DivLess(cutoff, 0.0, d);
      DivLess(cutoff, 1.0, d);
      CutBack(w, d, q, cutoff);
    }
  }

  /** A weight cut back to min(1, q): positive, at most itself, and pulling at most the cutoff's share. */
  lemma CutBack(w: real, d: real, q: real, cutoff: real)
    requires w > 0.0 && d > 0.0 && q > 0.0 && q * d == cutoff
    ensures 0.0 < w * Min(1.0, q) <= w
    ensures d * (w * Min(1.0, q)) <= cutoff * w
    ensures q >= 1.0 ==> w * Min(1.0, q) == w
  {
    if q >= 1.0 {
      assert w * 1.0 == w;
      MulMono(1.0, q, d);
      MulMono(d, cutoff, w);
    } else {
      MulPositive(w, q);
      MulMono(q, 1.0, w);
      Reorder(w, q, d);
    }
  }

  lemma Reorder(w: real, q: real, d: real)
    ensures d * (w * q) == q * d * w
  {
  }

  lemma {:induction false} InfluenceSums(ordered: seq<BookPoint>, m: real, cutoff: real)
    requires cutoff >= 0.5
    ensures TotalInfluence(ordered, m, cutoff) >= Times(CountAtMost(Deviations(ordered, m), cutoff), 0.5)
    ensures ordered != [] ==> TotalInfluence(ordered, m, cutoff) > 0.0
  {
    if ordered != [] {
      hide Influence;
      InfluenceBounds(ordered[0], m, cutoff);
      InfluenceSums(ordered[1..], m, cutoff);
      assert Deviations(ordered, m)[1..] == Deviations(ordered[1..], m);
    }
  }

  // ----- The weighted mean of the centers -----

  lemma {:induction false} CentersInHull(ordered: seq<BookPoint>, m: real, cutoff: real, lo: real, hi: real)
    requires cutoff >= 0.5
    requires forall p <- ordered :: lo <= p.center <= hi
    ensures Prod(lo, TotalInfluence(ordered, m, cutoff)) <= WeightedCenters(ordered, m, cutoff)
            <= Prod(hi, TotalInfluence(ordered, m, cutoff))
  {
    hide Influence, OverroundWeight, Prod;
    if ordered == [] {
      ProdSplits(lo, 0.0, 0.0);
      ProdSplits(hi, 0.0, 0.0);
    } else {
      var u, rest := Influence(ordered[0], m, cutoff), TotalInfluence(ordered[1..], m, cutoff);
      assert ordered[0] in ordered && forall p <- ordered[1..] :: p in ordered;
      InfluenceBounds(ordered[0], m, cutoff);
      CentersInHull(ordered[1..], m, cutoff, lo, hi);
      ProdMono(lo, ordered[0].center, u);
      ProdMono(ordered[0].center, hi, u);
      ProdSplits(lo, u, rest);
      ProdSplits(hi, u, rest);
    }
  }

  /** The pull away from the median is at most the cutoff times the whole weight. */
  lemma {:induction false} PullIsBounded(ordered: seq<BookPoint>, m: real, cutoff: real)
    requires cutoff >= 0.5
    ensures Abs(WeightedCenters(ordered, m, cutoff) - Prod(m, TotalInfluence(ordered, m, cutoff)))
            <= Prod(cutoff, TotalWeight(ordered))
  {
    hide Influence, OverroundWeight, Prod;
    if ordered == [] {
      ProdSplits(m, 0.0, 0.0);
      ProdSplits(cutoff, 0.0, 0.0);
    } else {
      var p := ordered[0];
      PullIsBounded(ordered[1..], m, cutoff);
      OnePull(p, m, cutoff);
      ProdSplits(m, Influence(p, m, cutoff), TotalInfluence(ordered[1..], m, cutoff));
      ProdSplits(cutoff, Weight(p), TotalWeight(ordered[1..]));
    }
  }

  lemma OnePull(p: BookPoint, m: real, cutoff: real)
    requires cutoff >= 0.5
    ensures Abs(Prod(p.center, Influence(p, m, cutoff)) - Prod(m, Influence(p, m, cutoff))) <= Prod(cutoff, Weight(p))
  {
    hide Influence, OverroundWeight;
    InfluenceBounds(p, m, cutoff);
    var u := Influence(p, m, cutoff);
    Distribute(p.center, m, u);
    AbsOfProduct(p.center - m, u);
  }

  lemma AbsOfProduct(d: real, u: real)
    requires u > 0.0
    ensures Abs(d * u) == Abs(d) * u
  {
    if d >= 0.0 { MulMono(0.0, d, u); } else { MulPositive(-d, u); }
  }

  lemma {:induction false} WeightsBounded(ordered: seq<BookPoint>)
    ensures Times(|ordered|, 0.5) <= TotalWeight(ordered) <= Times(|ordered|, 2.0)
  {
    if ordered != [] { WeightsBounded(ordered[1..]); }
  }

  function Mad(ordered: seq<BookPoint>): real
    requires ordered != []
  {
    Median(Deviations(ordered, WeightedMedian(ordered)))
  }

  /** The center before it is rounded to the grid. */
  function RawCenter(ordered: seq<BookPoint>): real
    requires ordered != []
  {
    var m, cutoff := WeightedMedian(ordered), Cutoff(Mad(ordered));
    InfluenceSums(ordered, m, cutoff);
    Ratio(WeightedCenters(ordered, m, cutoff), TotalInfluence(ordered, m, cutoff))
  }

  function Centers(points: seq<BookPoint>): seq<real> {
    seq(|points|, i requires 0 <= i < |points| => points[i].center)
  }

  function OutlierBooks(ordered: seq<BookPoint>, center: real, distance: real): seq<string> {
    if ordered == [] then []
    else (if Abs(ordered[0].center - center) > distance then [ordered[0].book] else [])
         + OutlierBooks(ordered[1..], center, distance)
  }

  function CombineOrdered(ordered: seq<BookPoint>, outlierDistance: real): MarketCenter
    requires ordered != []
  {
    var center := RawCenter(ordered);
    MarketCenter(Quantize(center, CENTER_SCALE),
                 Greatest(Centers(ordered)) - Least(Centers(ordered)),
                 SortBy(ByKey(Text), OutlierBooks(ordered, center, outlierDistance)))
  }

  /** Specification of the combined center. */
  function Combine(points: seq<BookPoint>, outlierDistance: real): MarketCenter
    requires points != []
  {
    SortKeeps(ByKey(PointKey), points);
    CombineOrdered(Ordered(points), outlierDistance)
  }

  method RobustMarketCenter(points: seq<BookPoint>, outlierDistance: real) returns (r: Result<MarketCenter, CenterError>)
    ensures |points| < 2 ==> r == Err(TooFewBooks)
    ensures |points| >= 2 && outlierDistance < 0.0 ==> r == Err(BadOutlierDistance)
    ensures |points| >= 2 && outlierDistance >= 0.0 ==> r == Ok(Combine(points, outlierDistance))
  {
    hide CombineOrdered;
    if |points| < 2 {
      return Err(TooFewBooks);
    }
    if outlierDistance < 0.0 {
      return Err(BadOutlierDistance);
    }
    SortKeeps(ByKey(PointKey), points);
    var center := CombineBooks(Ordered(points), outlierDistance);
    return Ok(center);
  }

  method CombineBooks(ordered: seq<BookPoint>, outlierDistance: real) returns (r: MarketCenter)
    requires ordered != []
    ensures r == CombineOrdered(ordered, outlierDistance)
  {
    hide Influence, OverroundWeight, Median, Cutoff, Quantize, Ratio, Prod, SortBy, OutlierBooks, Greatest, Least;
    var weightedMedian := ScanForHalf(ordered);
    var mad := Median(Deviations(ordered, weightedMedian));
    var cutoff := Cutoff(mad);
    CutoffAtLeastHalf(mad);
    InfluenceSums(ordered, weightedMedian, cutoff);
    var center := Ratio(WeightedCenters(ordered, weightedMedian, cutoff), TotalInfluence(ordered, weightedMedian, cutoff));
    r := MarketCenter(Quantize(center, CENTER_SCALE),
                      Greatest(Centers(ordered)) - Least(Centers(ordered)),
                      SortBy(ByKey(Text), OutlierBooks(ordered, center, outlierDistance)));
  }

  /** The loop that accumulates weight up to halfway. */
  method ScanForHalf(ordered: seq<BookPoint>) returns (weightedMedian: real)
    requires ordered != []
    ensures weightedMedian == WeightedMedian(ordered)
  {
    hide OverroundWeight;
    var halfway := TotalWeight(ordered) / 2.0;
    var running := 0.0;
    weightedMedian := ordered[|ordered| - 1].center;
    for i := 0 to |ordered|
      invariant weightedMedian == ordered[|ordered| - 1].center
      invariant WeightedMedianFrom(ordered[i..], running, halfway, weightedMedian) == WeightedMedian(ordered)
    {
      assert ordered[i..][1..] == ordered[i + 1..];
      running := running + Weight(ordered[i]);
      if running >= halfway {
        return ordered[i].center;
      }
    }
  }

  lemma CutoffAtLeastHalf(mad: real)
    ensures Cutoff(mad) >= 0.5 && (mad >= 0.0 ==> Cutoff(mad) >= mad)
  {
  }

  // ----- Main results -----

  /** The center never leaves the range of the books, and rounding keeps it there when they are on the grid. */
  lemma CenterInHull(points: seq<BookPoint>, outlierDistance: real, lo: real, hi: real)
    requires points != [] && forall p <- points :: lo <= p.center <= hi
    ensures |Ordered(points)| == |points| && lo <= RawCenter(Ordered(points)) <= hi
    ensures OnGrid(lo, CENTER_SCALE) && OnGrid(hi, CENTER_SCALE)
            ==> lo <= Combine(points, outlierDistance).center <= hi
  {
    hide Influence, Median, Cutoff, WeightedMedian, OnGrid, Prod, Ratio, Quantize;
    SortKeeps(ByKey(PointKey), points);
    var ordered := Ordered(points);
    forall p | p in ordered ensures lo <= p.center <= hi { SortMembers(ByKey(PointKey), points, p); }
    RawCenterInHull(ordered, lo, hi);
    if OnGrid(lo, CENTER_SCALE) && OnGrid(hi, CENTER_SCALE) {
      QuantizedCenterBetween(lo, RawCenter(ordered), hi);
    }
  }

  lemma RawCenterInHull(ordered: seq<BookPoint>, lo: real, hi: real)
    requires ordered != [] && forall p <- ordered :: lo <= p.center <= hi
    ensures lo <= RawCenter(ordered) <= hi
  {
    hide Influence, Median, Cutoff, WeightedMedian, Prod, Ratio;
    var m, cutoff := WeightedMedian(ordered), Cutoff(Mad(ordered));
    CutoffAtLeastHalf(Mad(ordered));
    InfluenceSums(ordered, m, cutoff);
    CentersInHull(ordered, m, cutoff, lo, hi);
    RatioBetween(lo, WeightedCenters(ordered, m, cutoff), hi, TotalInfluence(ordered, m, cutoff));
  }

  lemma DeviationsNonnegative(ordered: seq<BookPoint>, m: real)
    requires ordered != []
    ensures Median(Deviations(ordered, m)) >= 0.0
  {
    var d := Deviations(ordered, m);
    MedianBetween(d, 0.0, Greatest(d));
  }

  /** Before rounding, the center stays within eight cutoffs of the weighted median, whatever the books quote. */
  lemma CenterNearWeightedMedian(ordered: seq<BookPoint>)
    requires ordered != []
    ensures Abs(RawCenter(ordered) - WeightedMedian(ordered)) <= 8.0 * Max(0.5, 2.2239 * Mad(ordered))
  {
    hide Influence, Median, WeightedMedian, CountAtMost, Prod, Ratio, TotalWeight, TotalInfluence, WeightedCenters, Deviations;
    var m, mad := WeightedMedian(ordered), Mad(ordered);
    var cutoff := Cutoff(mad);
    DeviationsNonnegative(ordered, m);
    CutoffAtLeastHalf(mad);
    InfluenceSums(ordered, m, cutoff);
    PullIsBounded(ordered, m, cutoff);
    HalfKeepFullWeight(ordered, m, mad, cutoff);
    var total := TotalInfluence(ordered, m, cutoff);
    ProdMono(TotalWeight(ordered), 8.0 * total, cutoff);
    assert Prod(cutoff, 8.0 * total) == Prod(8.0 * cutoff, total) by { EightTimes(cutoff, total); }
    NearByQuotient(WeightedCenters(ordered, m, cutoff), m, total, 8.0 * cutoff);
  }

  lemma EightTimes(x: real, y: real)
    ensures Prod(x, 8.0 * y) == Prod(8.0 * x, y)
  {
  }

  /** The books within the cutoff, at least half of them, carry an eighth of any possible weight. */
  lemma HalfKeepFullWeight(ordered: seq<BookPoint>, m: real, mad: real, cutoff: real)
    requires ordered != [] && cutoff >= 0.5 && cutoff >= mad && mad == Median(Deviations(ordered, m))
    ensures TotalWeight(ordered) <= 8.0 * TotalInfluence(ordered, m, cutoff)
  {
    hide Influence, Median, CountAtMost, Times;
    var near := CountAtMost(Deviations(ordered, m), cutoff);
    InfluenceSums(ordered, m, cutoff);
    WeightsBounded(ordered);
    MedianSplits(Deviations(ordered, m), mad);
    CountMonotone(Deviations(ordered, m), mad, cutoff);
    TimesIsProduct(near, 0.5);
    TimesIsProduct(|ordered|, 2.0);
  }

  lemma NearByQuotient(sum: real, m: real, total: real, bound: real)
    requires total > 0.0 && Abs(sum - Prod(m, total)) <= Prod(bound, total)
    ensures Abs(Ratio(sum, total) - m) <= bound
  {
    hide Prod, Ratio;
    ProdOfSum(m, bound, total);
    RatioBetween(m - bound, sum, m + bound, total);
  }

  lemma ProdOfSum(m: real, bound: real, total: real)
    ensures Prod(m + bound, total) == Prod(m, total) + Prod(bound, total)
    ensures Prod(m - bound, total) == Prod(m, total) - Prod(bound, total)
  {
  }

  lemma {:induction false} CountMonotone(s: seq<real>, x: real, y: real)
    requires x <= y
    ensures CountAtMost(s, x) <= CountAtMost(s, y)
  {
    if s != [] { CountMonotone(s[1..], x, y); }
  }

  // ----- Breakdown: a minority cannot drag the center away -----

  function WeightWhere(points: seq<BookPoint>, a: real, b: real): real {
    if points == [] then 0.0
    else (if a <= points[0].center <= b then Weight(points[0]) else 0.0) + WeightWhere(points[1..], a, b)
  }

  ghost predicate Ascending(ordered: seq<BookPoint>) {
    forall i, j :: 0 <= i < j < |ordered| ==> ordered[i].center <= ordered[j].center
  }

  /** Scanning from a running weight, the median found is in [a, b] if [a, b] outweighs the rest. */
  lemma {:induction false} ScanStaysInside(rest: seq<BookPoint>, running: real, halfway: real, otherwise: real, a: real, b: real)
    requires Ascending(rest) && running >= 0.0
    requires running + TotalWeight(rest) == 2.0 * halfway
    requires WeightWhere(rest, a, b) > halfway
    ensures a <= WeightedMedianFrom(rest, running, halfway, otherwise) <= b
  {
    hide OverroundWeight;
    WeightWhereAtMost(rest, a, b);
    if rest != [] {
      var head := rest[0];
      WeightWhereAtMost(rest[1..], a, b);
      if running + Weight(head) >= halfway {
        // What lies after the head weighs less than what is inside, so the head is inside.
      } else if a <= head.center <= b {
        InsideAfterInside(rest, running, halfway, otherwise, a, b);
      } else {
        assert Ascending(rest[1..]);
        ScanStaysInside(rest[1..], running + Weight(head), halfway, otherwise, a, b);
      }
    }
  }

  lemma {:induction false} WeightWhereAtMost(points: seq<BookPoint>, a: real, b: real)
    ensures 0.0 <= WeightWhere(points, a, b) <= TotalWeight(points)
  {
    if points != [] { WeightWhereAtMost(points[1..], a, b); }
  }

  /** Once inside [a, b], the scan reaches halfway before it can leave. */
  lemma {:induction false} InsideAfterInside(rest: seq<BookPoint>, running: real, halfway: real, otherwise: real, a: real, b: real)
    requires Ascending(rest) && rest != [] && a <= rest[0].center <= b
    requires running + WeightWhere(rest, a, b) >= halfway
    ensures a <= WeightedMedianFrom(rest, running, halfway, otherwise) <= b
  {
    hide OverroundWeight;
    if running + Weight(rest[0]) < halfway {
      assert WeightWhere(rest[1..], a, b) > 0.0;
      assert rest[1..] != [];
      var next := rest[1];
      assert a <= next.center;
      if next.center > b {
        NothingInside(rest[1..], a, b);
      }
      assert Ascending(rest[1..]);
      InsideAfterInside(rest[1..], running + Weight(rest[0]), halfway, otherwise, a, b);
    }
  }

  lemma {:induction false} NothingInside(points: seq<BookPoint>, a: real, b: real)
    requires Ascending(points) && points != [] && points[0].center > b
    ensures WeightWhere(points, a, b) == 0.0
  {
    if |points| > 1 {
      assert Ascending(points[1..]);
      NothingInside(points[1..], a, b);
    }
  }

  lemma OrderedAscends(points: seq<BookPoint>)
    ensures Ascending(Ordered(points))
  {
    ByKeyIsOrder(PointKey);
    SortSorts(ByKey(PointKey), points);
    var s := Ordered(points);
    forall i, j | 0 <= i < j < |s| ensures s[i].center <= s[j].center {
      assert !ByKey(PointKey)(s[j], s[i]);
      assert PointKey(s[j])[0] == s[j].center && PointKey(s[i])[0] == s[i].center;
      assert !KeyLess(PointKey(s[j]), PointKey(s[i]));
    }
  }

  /** If the books quoting inside [a, b] hold a majority of the weight and of the count, the center stays near
      [a, b] however far the others quote. */
  lemma MinorityCannotBreakCenter(points: seq<BookPoint>, a: real, b: real)
    requires points != [] && a <= b
    requires 2.0 * WeightWhere(Ordered(points), a, b) > TotalWeight(Ordered(points))
    requires 2 * CountInside(Ordered(points), a, b) > |points|
    ensures |Ordered(points)| == |points|
    ensures a <= WeightedMedian(Ordered(points)) <= b && Mad(Ordered(points)) <= b - a
    ensures var reach := 8.0 * Max(0.5, 2.2239 * (b - a)); a - reach <= RawCenter(Ordered(points)) <= b + reach
  {
    hide Influence, Median, RawCenter, WeightedMedian, TotalWeight, WeightWhere, CountInside, Deviations, CountAtMost;
    SortKeeps(ByKey(PointKey), points);
    var ordered := Ordered(points);
    OrderedAscends(points);
    WeightedMedianInside(ordered, a, b);
    var m := WeightedMedian(ordered);
    MadInside(ordered, m, a, b);
    CenterNearWeightedMedian(ordered);
  }

  lemma MadInside(ordered: seq<BookPoint>, m: real, a: real, b: real)
    requires a <= m <= b && 2 * CountInside(ordered, a, b) > |ordered|
    ensures ordered != [] && Median(Deviations(ordered, m)) <= b - a
  {
    InsideDeviations(ordered, m, a, b);
    MedianSplits(Deviations(ordered, m), b - a);
  }

  lemma WeightedMedianInside(ordered: seq<BookPoint>, a: real, b: real)
    requires ordered != [] && Ascending(ordered) && 2.0 * WeightWhere(ordered, a, b) > TotalWeight(ordered)
    ensures a <= WeightedMedian(ordered) <= b
  {
    hide OverroundWeight;
    ScanStaysInside(ordered, 0.0, TotalWeight(ordered) / 2.0, ordered[|ordered| - 1].center, a, b);
  }

  function CountInside(points: seq<BookPoint>, a: real, b: real): nat {
    if points == [] then 0 else (if a <= points[0].center <= b then 1 else 0) + CountInside(points[1..], a, b)
  }

  lemma {:induction false} InsideDeviations(ordered: seq<BookPoint>, m: real, a: real, b: real)
    requires a <= m <= b
    ensures CountAtMost(Deviations(ordered, m), b - a) >= CountInside(ordered, a, b)
  {
    if ordered != [] {
      InsideDeviations(ordered[1..], m, a, b);
      assert Deviations(ordered, m)[1..] == Deviations(ordered[1..], m);
    }
  }
}
