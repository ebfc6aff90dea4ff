/** The median of a list of decimals, characterised by how many values lie on each side of it. */
module Medians {
  import opened Ordering

  function Median(values: seq<real>): real
    requires values != []
  {
    SortKeeps(RealLess, values);
    var ordered := SortBy(RealLess, values);
    var midpoint := |ordered| / 2;
    if |ordered| % 2 == 1 then ordered[midpoint] else (ordered[midpoint - 1] + ordered[midpoint]) / 2.0
  }

  function CountAtMost(s: seq<real>, x: real): nat {
    if s == [] then 0 else (if s[0] <= x then 1 else 0) + CountAtMost(s[1..], x)
  }

  function CountBelow(s: seq<real>, x: real): nat {
    if s == [] then 0 else (if s[0] < x then 1 else 0) + CountBelow(s[1..], x)
  }

  lemma {:induction false} InsertCounts(v: real, s: seq<real>, x: real)
    ensures CountAtMost(Insert(RealLess, v, s), x) == CountAtMost(s, x) + (if v <= x then 1 else 0)
    ensures CountBelow(Insert(RealLess, v, s), x) == CountBelow(s, x) + (if v < x then 1 else 0)
  {
    if s == [] || !RealLess(s[0], v) {
      assert ([v] + s)[1..] == s;
    } else {
      InsertCounts(v, s[1..], x);
      assert ([s[0]] + Insert(RealLess, v, s[1..]))[1..] == Insert(RealLess, v, s[1..]);
    }
  }

  lemma {:induction false} SortCounts(s: seq<real>, x: real)
    ensures CountAtMost(SortBy(RealLess, s), x) == CountAtMost(s, x)
    ensures CountBelow(SortBy(RealLess, s), x) == CountBelow(s, x)
  {
    if s != [] {
      SortCounts(s[1..], x);
      InsertCounts(s[0], SortBy(RealLess, s[1..]), x);
    }
  }

  lemma {:induction false} CountRange(s: seq<real>, x: real)
    ensures CountBelow(s, x) <= CountAtMost(s, x) <= |s|
    ensures (forall v <- s :: v > x) ==> CountAtMost(s, x) == 0
    ensures (forall v <- s :: v >= x) ==> CountBelow(s, x) == 0
  {
    if s != [] {
      CountRange(s[1..], x);
      assert s[0] in s && forall v <- s[1..] :: v in s;
    }
  }

  /** In a sorted list the i-th value is at most x exactly when more than i values are. */
  lemma {:induction false} SortedPosition(s: seq<real>, i: nat, x: real)
    requires Sorted(RealLess, s) && i < |s|
    ensures s[i] <= x <==> CountAtMost(s, x) > i
    ensures s[i] < x <==> CountBelow(s, x) > i
  {
    if i == 0 {
      CountRange(s, x);
      if s[0] > x { assert forall v <- s :: !RealLess(v, s[0]); }
      if s[0] >= x { assert forall v <- s :: !RealLess(v, s[0]); }
      CountRange(s[1..], x);
    } else {
      forall a, b | 0 <= a < b < |s[1..]| ensures !RealLess(s[1..][b], s[1..][a]) {
        assert !RealLess(s[b + 1], s[a + 1]);
      }
      SortedPosition(s[1..], i - 1, x);
      assert !RealLess(s[i], s[0]);
      CountRange(s[1..], x);
    }
  }

  /** The i-th smallest of the values. */
  function Smallest(values: seq<real>, i: nat): real
    requires i < |values|
  {
    SortKeeps(RealLess, values);
    SortBy(RealLess, values)[i]
  }

  lemma SmallestPosition(values: seq<real>, i: nat, x: real)
    requires i < |values|
    ensures Smallest(values, i) <= x <==> CountAtMost(values, x) > i
    ensures Smallest(values, i) < x <==> CountBelow(values, x) > i
  {
    SortKeeps(RealLess, values);
    RealLessIsOrder();
    SortSorts(RealLess, values);
    SortCounts(values, x);
    SortedPosition(SortBy(RealLess, values), i, x);
  }

  lemma MedianBySmallest(values: seq<real>)
    requires values != []
    ensures var n := |values|;
            && (n % 2 == 1 ==> Median(values) == Smallest(values, n / 2))
            && (n % 2 == 0 ==> Median(values) == (Smallest(values, n / 2 - 1) + Smallest(values, n / 2)) / 2.0)
            && (n % 2 == 0 ==> Smallest(values, n / 2 - 1) <= Median(values) <= Smallest(values, n / 2))
  {
    SortKeeps(RealLess, values);
    RealLessIsOrder();
    SortSorts(RealLess, values);
    if |values| % 2 == 0 {
      assert !RealLess(SortBy(RealLess, values)[|values| / 2], SortBy(RealLess, values)[|values| / 2 - 1]);
    }
  }

  /** At least half of the values are at most the median, and a value that a majority reaches bounds it. */
  lemma MedianSplits(values: seq<real>, x: real)
    requires values != []
    ensures 2 * CountAtMost(values, Median(values)) >= |values|
    ensures 2 * CountAtMost(values, x) > |values| ==> Median(values) <= x
    ensures 2 * CountBelow(values, x) < |values| ==> Median(values) >= x
  {
    hide Median, Smallest, CountAtMost, CountBelow;
    var n := |values|;
    MedianBySmallest(values);
    var low, high := (n - 1) / 2, n / 2;
    assert n % 2 == 0 ==> low == n / 2 - 1 && n == 2 * high;
    assert n % 2 == 1 ==> low == high && n == 2 * high + 1;
    SmallestPosition(values, low, Median(values));
    SmallestPosition(values, high, x);
    SmallestPosition(values, low, x);
  }

  /** The median lies between the least and the greatest value. */
  lemma MedianBetween(values: seq<real>, lo: real, hi: real)
    requires values != [] && forall v <- values :: lo <= v <= hi
    ensures lo <= Median(values) <= hi
  {
    CountRange(values, lo);
    AllAtMost(values, hi);
    MedianSplits(values, lo);
    MedianSplits(values, hi);
  }

  lemma {:induction false} AllAtMost(s: seq<real>, x: real)
    requires forall v <- s :: v <= x
    ensures CountAtMost(s, x) == |s|
  {
    if s != [] {
      assert s[0] in s && forall v <- s[1..] :: v in s;
      AllAtMost(s[1..], x);
    }
  }

  /** Some value is at most the median, and some is at least it. */
  lemma MedianStraddled(values: seq<real>)
    requires values != []
    ensures exists v :: v in values && v <= Median(values)
    ensures exists v :: v in values && v >= Median(values)
  {
    var m := Median(values);
    MedianSplits(values, m);
    CountRange(values, m);
    if forall v <- values :: v < m {
      var top := Greatest(values);
      MedianBetween(values, Least(values), top);
    }
  }

  function Greatest(values: seq<real>): (r: real)
    requires values != []
    ensures r in values && forall v <- values :: v <= r
  {
    if |values| == 1 then values[0] else
      var rest := Greatest(values[1..]);
      assert forall v <- values :: v == values[0] || v in values[1..];
      if rest > values[0] then rest else values[0]
  }

  function Least(values: seq<real>): (r: real)
    requires values != []
    ensures r in values && forall v <- values :: r <= v
  {
    if |values| == 1 then values[0] else
      var rest := Least(values[1..]);
      assert forall v <- values :: v == values[0] || v in values[1..];
      if rest < values[0] then rest else values[0]
  }

  /** Reordering the values leaves the median alone. */
  lemma MedianForgetsOrder(a: seq<real>, b: seq<real>)
    requires a != [] && multiset(a) == multiset(b)
    ensures b != [] && Median(a) == Median(b)
  {
    assert |multiset(a)| == |a| && |multiset(b)| == |b|;
    RealLessIsOrder();
    SortForgetsOrder(RealLess, a, b);
  }

  /** The probabilities of the other side. */
  function Complements(values: seq<real>): seq<real> {
    seq(|values|, i requires 0 <= i < |values| => 1.0 - values[i])
  }

  lemma {:induction false} ComplementCounts(values: seq<real>, x: real)
    ensures CountAtMost(Complements(values), x) == |values| - CountBelow(values, 1.0 - x)
    ensures CountBelow(Complements(values), x) == |values| - CountAtMost(values, 1.0 - x)
  {
    if values != [] {
      assert Complements(values)[1..] == Complements(values[1..]);
      ComplementCounts(values[1..], x);
    }
  }

  lemma ComplementSmallest(values: seq<real>, i: nat)
    requires i < |values|
    ensures Smallest(Complements(values), i) == 1.0 - Smallest(values, |values| - 1 - i)
  {
    var t, s := Smallest(Complements(values), i), Smallest(values, |values| - 1 - i);
    SmallestPosition(Complements(values), i, 1.0 - s);
    SmallestPosition(values, |values| - 1 - i, s);
    ComplementCounts(values, 1.0 - s);
    SmallestPosition(Complements(values), i, t);
    SmallestPosition(values, |values| - 1 - i, 1.0 - t);
    ComplementCounts(values, t);
  }

  /** The medians of the two sides' probabilities sum to one, whatever the number of books. */
  lemma MedianOfComplements(values: seq<real>)
    requires values != []
    ensures Median(Complements(values)) == 1.0 - Median(values)
  {
    var n := |values|;
    MedianBySmallest(values);
    MedianBySmallest(Complements(values));
    ComplementSmallest(values, n / 2);
    if n % 2 == 0 {
      ComplementSmallest(values, n / 2 - 1);
      assert n - 1 - n / 2 == n / 2 - 1;
    } else {
      assert n - 1 - n / 2 == n / 2;
    }
  }
}
