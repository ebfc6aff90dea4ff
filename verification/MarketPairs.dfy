/** Joining the two sides of one book's market at one line. */
module MarketPairs {
  import opened Wrappers
  import opened Numbers
  import opened Ordering
  import opened Lists
  import opened Grouping
  import opened MarketCurve
  import opened Pricing
  import opened Observations

  datatype Pair = Pair(
    first: Observation,
    second: Observation,
    firstProbability: real,
    secondProbability: real,
    overround: real,
    lineKey: string)

  function ExpectedSides(market: MarketType): (Side, Side) {
    if market == TotalMarket then (Over, Under) else (Home, Away)
  }

  /** The line as both sides of it spell it; none when the point does not suit the market. */
  function LineKey(o: Observation): Option<string> {
    if o.market == Moneyline then (if o.point.None? then Some("none") else None)
    else if o.point.None? then None
    else Some(Thousandths(if o.market == SpreadMarket && o.side == Some(Away) then -o.point.value else o.point.value))
  }

  predicate Coherent(first: Observation, second: Observation) {
    match first.market
    case Moneyline => true
    case SpreadMarket => first.point.Some? && second.point.Some? && first.point.value == -second.point.value
    case TotalMarket => first.point.Some? && second.point.Some? && first.point.value == second.point.value
  }

  function Implied(o: Observation): (p: real)
    ensures 0.0 < p < 1.0
  {
    ImpliedProbability(o.americanOdds)
  }

  function MakePair(first: Observation, second: Observation): Pair {
    var pair := NoVigPair(Implied(first), Implied(second));
    Pair(first, second, pair.0, pair.1, Implied(first) + Implied(second) - 1.0,
         if LineKey(first).Some? then LineKey(first).value else "")
  }

  predicate Sided(o: Observation, side: Side) {
    o.side == Some(side)
  }

  /** Two rows, one of each expected side, on a coherent line. */
  function PairTwo(market: MarketType, items: seq<Observation>): seq<Pair> {
    var (one, other) := ExpectedSides(market);
    if |items| != 2 then []
    else if Sided(items[0], one) && Sided(items[1], other) then
      if Coherent(items[0], items[1]) then [MakePair(items[0], items[1])] else []
    else if Sided(items[1], one) && Sided(items[0], other) then
      if Coherent(items[1], items[0]) then [MakePair(items[1], items[0])] else []
    else []
  }

  function OnSide(side: Side): Observation -> bool {
    (o: Observation) => Sided(o, side) && LineKey(o).Some?
  }

  function HasLine(): Observation -> bool {
    (o: Observation) => LineKey(o).Some?
  }

  function LineOf(o: Observation): string {
    if LineKey(o).Some? then LineKey(o).value else ""
  }

  /** A family of exactly one well-formed row a side: its lines must agree as they are. */
  predicate IsSinglePair(items: seq<Observation>) {
    items != [] && |items| == 2
    && |Where(items, OnSide(ExpectedSides(items[0].market).0))| == 1 && |Where(items, OnSide(ExpectedSides(items[0].market).1))| == 1
  }

  function PairLine(market: MarketType): seq<Observation> -> seq<Pair> {
    (items: seq<Observation>) => PairTwo(market, items)
  }

  /** Specification: the pairs of one family. */
  function PairFamily(items: seq<Observation>): seq<Pair> {
    if items == [] then []
    else if IsSinglePair(items) then PairTwo(items[0].market, items)
    else OverGroups(Where(items, HasLine()), LineOf, PairLine(items[0].market))
  }

  function Pairs(rows: seq<Observation>): seq<Pair> {
    OverGroups(rows, FamilyOf, PairFamily)
  }

  /** The loop over the lines of a family. */
  method PairLines(items: seq<Observation>) returns (pairs: seq<Pair>)
    requires items != []
    ensures pairs == OverGroups(Where(items, HasLine()), LineOf, PairLine(items[0].market))
  {
    hide PairTwo, LineKey;
    var market, lined := items[0].market, Where(items, HasLine());
    var groups := GroupInOrder(lined, LineOf);
    ghost var ks, g := FirstKeys(lined, LineOf), OnMembers(lined, LineOf, PairLine(market));
    pairs := [];
    for i := 0 to |groups|
      invariant pairs == Flat(ks[..i], g)
    {
      assert ks[..i + 1][..i] == ks[..i] && groups[i] == Members(lined, LineOf, ks[i]);
      pairs := pairs + PairTwo(market, groups[i]);
    }
    assert ks[..|groups|] == ks;
  }

  lemma NoGroups(g: Family -> seq<Pair>)
    ensures Flat([], g) == []
  {
  }

  /** The loop over the families. */
  method PairBookMarkets(rows: seq<Observation>) returns (pairs: seq<Pair>)
    ensures pairs == Pairs(rows)
  {
    hide PairTwo, LineKey, IsSinglePair, FamilyOf, FirstKeys, Where, MakePair, Flat;
    var groups := GroupInOrder(rows, FamilyOf);
    ghost var ks, g := FirstKeys(rows, FamilyOf), OnMembers(rows, FamilyOf, PairFamily);
    pairs := [];
    NoGroups(g);
    assert ks[..0] == [];
    for i := 0 to |groups|
      invariant pairs == Flat(ks[..i], g)
    {
      assert ks[..i + 1] == ks[..i] + [ks[i]] && groups[i] == Members(rows, FamilyOf, ks[i]);
      FlatLast(ks[..i], ks[i], g);
      var items := groups[i];
      var more: seq<Pair> := [];
      if items != [] {
        if IsSinglePair(items) {
          more := PairTwo(items[0].market, items);
        } else {
          more := PairLines(items);
        }
      }
      assert more == PairFamily(items);
      pairs := pairs + more;
    }
    assert ks[..|groups|] == ks;
  }

  // ----- What every pair is -----

  /** The two sides of one book's market, from one family, on one coherent line. */
  ghost predicate SoundPair(p: Pair) {
    var (one, other) := ExpectedSides(p.first.market);
    && Sided(p.first, one) && Sided(p.second, other)
    && FamilyOf(p.first) == FamilyOf(p.second) && Coherent(p.first, p.second)
    && p == MakePair(p.first, p.second)
  }

  lemma PairTwoIs(market: MarketType, items: seq<Observation>, p: Pair)
    requires p in PairTwo(market, items)
    ensures p.first in items && p.second in items && |items| == 2 && PairTwo(market, items) == [p]
    ensures p == MakePair(p.first, p.second) && Coherent(p.first, p.second)
    ensures Sided(p.first, ExpectedSides(market).0) && Sided(p.second, ExpectedSides(market).1)
    ensures forall x :: x in items ==> x == p.first || x == p.second
  {
  }

  /** Where a pair of a family comes from: the whole family, or one line of it. */
  lemma PairOfFamily(items: seq<Observation>, p: Pair)
    requires p in PairFamily(items)
    ensures items != [] && p.first in items && p.second in items
    ensures p == MakePair(p.first, p.second) && Coherent(p.first, p.second)
    ensures Sided(p.first, ExpectedSides(items[0].market).0) && Sided(p.second, ExpectedSides(items[0].market).1)
    ensures !IsSinglePair(items) ==> LineKey(p.first).Some? && LineKey(p.second) == LineKey(p.first)
                                     && PairTwo(items[0].market, Members(Where(items, HasLine()), LineOf, LineOf(p.first))) == [p]
    ensures IsSinglePair(items) ==> PairFamily(items) == [p]
  {
    hide LineKey, PairTwo, MakePair, Coherent, IsSinglePair;
    var market := items[0].market;
    if IsSinglePair(items) {
      PairTwoIs(market, items, p);
    } else {
      var lined := Where(items, HasLine());
      var ks, g := FirstKeys(lined, LineOf), OnMembers(lined, LineOf, PairLine(market));
      FlatMembers(ks, g, p);
      var i :| 0 <= i < |ks| && p in g(ks[i]);
      PairTwoIs(market, Members(lined, LineOf, ks[i]), p);
      LineOfAgrees(p.first, p.second, ks[i]);
    }
  }

  lemma LineOfAgrees(x: Observation, y: Observation, key: string)
    requires LineKey(x).Some? && LineKey(y).Some? && LineOf(x) == key && LineOf(y) == key
    ensures LineKey(x) == LineKey(y)
  {
  }

  /** Every pair joins the two sides of one family's market on a coherent line. */
  lemma PairsAreSound(rows: seq<Observation>, p: Pair)
    requires p in Pairs(rows)
    ensures SoundPair(p) && p.first in rows && p.second in rows
    ensures p in PairFamily(Members(rows, FamilyOf, FamilyOf(p.first)))
  {
    hide PairFamily, LineKey, MakePair, Coherent, FirstKeys, Where, IsSinglePair, PairTwo, ExpectedSides;
    var ks, g := FirstKeys(rows, FamilyOf), OnMembers(rows, FamilyOf, PairFamily);
    FlatMembers(ks, g, p);
    var i :| 0 <= i < |ks| && p in g(ks[i]);
    var items := Members(rows, FamilyOf, ks[i]);
    PairOfFamily(items, p);
    assert FamilyOf(items[0]) == ks[i] by { assert items[0] in items; }
    assert FamilyOf(p.first) == ks[i] && FamilyOf(p.second) == ks[i];
  }

  /** No observation is used in two pairs. */
  lemma ObservationInOnePair(rows: seq<Observation>, p: Pair, q: Pair, o: Observation)
    requires p in Pairs(rows) && q in Pairs(rows)
    requires (o == p.first || o == p.second) && (o == q.first || o == q.second)
    ensures p == q
  {
    hide PairFamily, LineKey, MakePair, Coherent, IsSinglePair, PairTwo;
    PairsAreSound(rows, p);
    PairsAreSound(rows, q);
    var items := Members(rows, FamilyOf, FamilyOf(o));
    PairOfFamily(items, p);
    PairOfFamily(items, q);
    if !IsSinglePair(items) {
      assert LineOf(p.first) == LineOf(o) && LineOf(q.first) == LineOf(o);
    }
  }

  /** Within a family a line has one pair. */
  lemma LineInOnePair(rows: seq<Observation>, p: Pair, q: Pair)
    requires p in Pairs(rows) && q in Pairs(rows) && FamilyOf(p.first) == FamilyOf(q.first) && p.lineKey == q.lineKey
    ensures p == q
  {
    hide PairFamily, LineKey, Coherent, IsSinglePair, PairTwo;
    PairsAreSound(rows, p);
    PairsAreSound(rows, q);
    var items := Members(rows, FamilyOf, FamilyOf(p.first));
    PairOfFamily(items, p);
    PairOfFamily(items, q);
  }

  /** Pairs of rows that pricing may use join two sides of one snapshot. */
  lemma PairsShareSnapshot(rows: seq<Observation>, cutoff: int, policy: PricingPolicy, p: Pair)
    requires p in Pairs(Usable(rows, cutoff, policy))
    ensures p.first.snapshotId == p.second.snapshotId && p.first.sportsbookId == p.second.sportsbookId
  {
    hide Pairs, Usable;
    PairsAreSound(Usable(rows, cutoff, policy), p);
    UsableShareSnapshot(rows, cutoff, policy, p.first, p.second);
  }

  /** The no-vig chances of a pair sum to one. */
  lemma PairIsComplementary(p: Pair)
    requires SoundPair(p)
    ensures p.firstProbability + p.secondProbability == 1.0
    ensures 0.0 <= p.firstProbability <= 1.0 && 0.0 <= p.secondProbability <= 1.0
  {
    NoVigOfTwo(Implied(p.first), Implied(p.second));
  }

  // ----- Pairing looks only at which rows there are -----

  lemma TwoPermuted<T(!new)>(a: seq<T>, b: seq<T>)
    requires multiset(a) == multiset(b) && |a| == 2 && |b| == 2
    ensures b == a || (b[0] == a[1] && b[1] == a[0])
  {
    assert b[0] in multiset(a) && a[0] in multiset(b);
    if b[0] == a[0] {
      TailsAgree(a, b);
      assert b[1..][0] in multiset(b[1..]);
      assert a[1..] == [a[1]];
    }
  }

  lemma SizesAgree<T>(a: seq<T>, b: seq<T>)
    requires multiset(a) == multiset(b)
    ensures |a| == |b|
  {
    assert |multiset(a)| == |a| && |multiset(b)| == |b|;
  }

  lemma PairTwoPermutes(market: MarketType, a: seq<Observation>, b: seq<Observation>)
    requires multiset(a) == multiset(b)
    ensures PairTwo(market, a) == PairTwo(market, b)
  {
    hide MakePair, Coherent;
    SizesAgree(a, b);
    if |a| == 2 { TwoPermuted(a, b); }
  }

  lemma PairFamilyPermutes(a: seq<Observation>, b: seq<Observation>)
    requires multiset(a) == multiset(b) && forall x, y :: x in a && y in a ==> x.market == y.market
    ensures multiset(PairFamily(a)) == multiset(PairFamily(b))
  {
    hide PairTwo, LineKey;
    SizesAgree(a, b);
    if a != [] {
      assert b[0] in multiset(a);
      var market := a[0].market;
      assert b[0].market == market;
      var (one, other) := ExpectedSides(market);
      WherePermutes(a, b, OnSide(one));
      WherePermutes(a, b, OnSide(other));
      SizesAgree(Where(a, OnSide(one)), Where(b, OnSide(one)));
      SizesAgree(Where(a, OnSide(other)), Where(b, OnSide(other)));
      assert IsSinglePair(a) == IsSinglePair(b);
      PairTwoPermutes(market, a, b);
      WherePermutes(a, b, HasLine());
      var la, lb := Where(a, HasLine()), Where(b, HasLine());
      forall k | k in FirstKeys(la, LineOf)
        ensures multiset(PairLine(market)(Members(la, LineOf, k))) == multiset(PairLine(market)(Members(lb, LineOf, k)))
      {
        WherePermutes(la, lb, HasKey(LineOf, k));
        PairTwoPermutes(market, Members(la, LineOf, k), Members(lb, LineOf, k));
      }
      OverGroupsPermutes(la, lb, LineOf, PairLine(market));
    }
  }

  lemma PairsPermute(a: seq<Observation>, b: seq<Observation>)
    requires multiset(a) == multiset(b)
    ensures multiset(Pairs(a)) == multiset(Pairs(b))
  {
    hide PairFamily;
    forall k | k in FirstKeys(a, FamilyOf)
      ensures multiset(PairFamily(Members(a, FamilyOf, k))) == multiset(PairFamily(Members(b, FamilyOf, k)))
    {
      WherePermutes(a, b, HasKey(FamilyOf, k));
      PairFamilyPermutes(Members(a, FamilyOf, k), Members(b, FamilyOf, k));
    }
    OverGroupsPermutes(a, b, FamilyOf, PairFamily);
  }
}
