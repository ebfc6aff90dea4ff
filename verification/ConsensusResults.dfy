/** The pricing analysis sees only which rows are known, in whatever order they come. */
module ConsensusResults {
  import opened Numbers
  import opened Ordering
  import opened Lists
  import opened Grouping
  import opened Medians
  import opened Observations
  import opened MarketPairs
  import opened Consensus

  // ----- One main pair per book does not depend on the order of the pairs -----

  /** A book quotes one pair a line of a market. */
  ghost predicate LinesDistinct(pairs: seq<Pair>) {
    forall p, q :: p in pairs && q in pairs && MarketKeyOf(p) == MarketKeyOf(q) && BookOf(p) == BookOf(q) && p.lineKey == q.lineKey
                   ==> p == q
  }

  lemma BookTies(p: Pair, q: Pair)
    requires !KeyLess(BookKey(p), BookKey(q)) && !KeyLess(BookKey(q), BookKey(p))
    ensures BookOf(p) == BookOf(q)
  {
    KeyLessTotal(BookKey(p), BookKey(q));
    TextIsFaithful(BookOf(p), BookOf(q));
  }

  lemma MainTies(reference: real, p: Pair, q: Pair)
    requires !KeyLess(MainKey(reference)(p), MainKey(reference)(q)) && !KeyLess(MainKey(reference)(q), MainKey(reference)(p))
    ensures p.lineKey == q.lineKey
  {
    var a, b := MainKey(reference)(p), MainKey(reference)(q);
    KeyLessTotal(a, b);
    assert a[2..] == Text(p.lineKey) && b[2..] == Text(q.lineKey);
    TextIsFaithful(p.lineKey, q.lineKey);
  }

  lemma OnePerBookMeans(pairs: seq<Pair>, p: Pair, q: Pair)
    requires OnePerBook(pairs) && p in pairs && q in pairs && BookOf(p) == BookOf(q)
    ensures p == q
  {
    FirstKeysAre(pairs, BookOf);
    var books := FirstKeys(pairs, BookOf);
    assert BookOf(p) in books;
    var i :| 0 <= i < |books| && books[i] == BookOf(p);
    var own := Members(pairs, BookOf, books[i]);
    assert p in own && q in own;
    assert own == [own[0]];
  }

  lemma OnePerBookPermutes(a: seq<Pair>, b: seq<Pair>)
    requires multiset(a) == multiset(b) && OnePerBook(a)
    ensures OnePerBook(b)
  {
    KeysPermute(a, b, BookOf);
    var ka, kb := FirstKeys(a, BookOf), FirstKeys(b, BookOf);
    forall i | 0 <= i < |kb| ensures |Members(b, BookOf, kb[i])| == 1 {
      assert kb[i] in multiset(ka);
      var j :| 0 <= j < |ka| && ka[j] == kb[i];
      WherePermutes(a, b, HasKey(BookOf, ka[j]));
      SizesAgree(Members(a, BookOf, ka[j]), Members(b, BookOf, ka[j]));
    }
  }

  function OneRefPoint(): Pair -> seq<real> {
    (p: Pair) => [RefPoint(p)]
  }

  lemma {:induction false} RefPointsAreFlat(pairs: seq<Pair>)
    ensures RefPoints(pairs) == Flat(pairs, OneRefPoint())
  {
    hide RefPoint;
    if pairs != [] {
      var n := |pairs| - 1;
      RefPointsAreFlat(pairs[..n]);
      assert RefPoints(pairs) == RefPoints(pairs[..n]) + [RefPoint(pairs[n])];
    }
  }

  lemma RefPointsPermute(a: seq<Pair>, b: seq<Pair>)
    requires multiset(a) == multiset(b)
    ensures multiset(RefPoints(a)) == multiset(RefPoints(b))
  {
    hide RefPoints, OneRefPoint;
    RefPointsAreFlat(a);
    RefPointsAreFlat(b);
    FlatPermutes(a, b, OneRefPoint());
  }

  lemma NearestPermutes(reference: real, a: seq<Pair>, b: seq<Pair>)
    requires multiset(a) == multiset(b) && a != []
    requires forall p, q :: p in a && q in a && p.lineKey == q.lineKey ==> p == q
    ensures NearestMain(reference)(a) == NearestMain(reference)(b)
  {
    SizesAgree(a, b);
    var less := ByKey(MainKey(reference));
    ByKeyIsOrder(MainKey(reference));
    FirstMinIsLeast(less, a);
    FirstMinIsLeast(less, b);
    var p, q := FirstMin(less, a), FirstMin(less, b);
    assert p in multiset(b) && q in multiset(a);
    assert !less(q, p) && !less(p, q);
    MainTies(reference, p, q);
  }

  lemma SelectedAre(pairs: seq<Pair>, reference: real, p: Pair)
    requires p in OverGroups(pairs, BookOf, NearestMain(reference))
    ensures p in pairs && NearestMain(reference)(Members(pairs, BookOf, BookOf(p))) == [p]
  {
    var ks, g := FirstKeys(pairs, BookOf), OnMembers(pairs, BookOf, NearestMain(reference));
    FlatMembers(ks, g, p);
    var i :| 0 <= i < |ks| && p in g(ks[i]);
    var own := Members(pairs, BookOf, ks[i]);
    ByKeyIsOrder(MainKey(reference));
    FirstMinIsLeast(ByKey(MainKey(reference)), own);
    assert p in own;
  }

  lemma SelectionPermutes(a: seq<Pair>, b: seq<Pair>, reference: real)
    requires multiset(a) == multiset(b)
    requires forall p, q :: p in a && q in a && BookOf(p) == BookOf(q) && p.lineKey == q.lineKey ==> p == q
    ensures multiset(OverGroups(a, BookOf, NearestMain(reference))) == multiset(OverGroups(b, BookOf, NearestMain(reference)))
  {
    FirstKeysAre(a, BookOf);
    forall k | k in FirstKeys(a, BookOf)
      ensures multiset(NearestMain(reference)(Members(a, BookOf, k))) == multiset(NearestMain(reference)(Members(b, BookOf, k)))
    {
      WherePermutes(a, b, HasKey(BookOf, k));
      var p :| p in a && BookOf(p) == k;
      assert p in Members(a, BookOf, k);
      NearestPermutes(reference, Members(a, BookOf, k), Members(b, BookOf, k));
    }
    OverGroupsPermutes(a, b, BookOf, NearestMain(reference));
  }

  lemma OneMainPermutes(a: seq<Pair>, b: seq<Pair>)
    requires multiset(a) == multiset(b)
    requires forall p, q :: p in a && q in a && BookOf(p) == BookOf(q) && p.lineKey == q.lineKey ==> p == q
    ensures OneMain(a) == OneMain(b)
  {
    hide SortBy, Median, NearestMain;
    SizesAgree(a, b);
    ByKeyIsOrder(BookKey);
    if a != [] {
      if OnePerBook(a) {
        OnePerBookPermutes(a, b);
        forall p, q | p in a && q in a && !KeyLess(BookKey(p), BookKey(q)) && !KeyLess(BookKey(q), BookKey(p)) ensures p == q {
          BookTies(p, q);
          OnePerBookMeans(a, p, q);
        }
        SortForgetsOrder(ByKey(BookKey), a, b);
      } else {
        if OnePerBook(b) { OnePerBookPermutes(b, a); }
        RefPointsPermute(a, b);
        MedianForgetsOrder(RefPoints(a), RefPoints(b));
        var reference := Median(RefPoints(a));
        SelectionPermutes(a, b, reference);
        var chosen := OverGroups(a, BookOf, NearestMain(reference));
        forall p, q | p in chosen && q in chosen && !KeyLess(BookKey(p), BookKey(q)) && !KeyLess(BookKey(q), BookKey(p)) ensures p == q {
          BookTies(p, q);
          SelectedAre(a, reference, p);
          SelectedAre(a, reference, q);
        }
        SortForgetsOrder(ByKey(BookKey), chosen, OverGroups(b, BookOf, NearestMain(reference)));
      }
    }
  }

  lemma OneMainWithin(pairs: seq<Pair>, p: Pair)
    requires p in OneMain(pairs)
    ensures p in pairs
  {
    hide SortBy, Median, NearestMain;
    if OnePerBook(pairs) {
      SortMembers(ByKey(BookKey), pairs, p);
    } else {
      var reference := Median(RefPoints(pairs));
      SortMembers(ByKey(BookKey), OverGroups(pairs, BookOf, NearestMain(reference)), p);
      SelectedAre(pairs, reference, p);
    }
  }

  /** One main pair for every book that quotes the market, and no second one. */
  lemma OneMainPerBook(pairs: seq<Pair>)
    ensures forall p, q :: p in OneMain(pairs) && q in OneMain(pairs) && BookOf(p) == BookOf(q) ==> p == q
    ensures forall p <- pairs :: exists q :: q in OneMain(pairs) && BookOf(q) == BookOf(p)
    ensures Sorted(ByKey(BookKey), OneMain(pairs))
  {
    hide SortBy, Median, NearestMain;
    ByKeyIsOrder(BookKey);
    if pairs != [] {
      if OnePerBook(pairs) {
        SortSorts(ByKey(BookKey), pairs);
        forall x: Pair ensures x in OneMain(pairs) <==> x in pairs { SortMembers(ByKey(BookKey), pairs, x); }
        forall p, q | p in OneMain(pairs) && q in OneMain(pairs) && BookOf(p) == BookOf(q) ensures p == q { OnePerBookMeans(pairs, p, q); }
      } else {
        var reference := Median(RefPoints(pairs));
        var chosen := OverGroups(pairs, BookOf, NearestMain(reference));
        SortSorts(ByKey(BookKey), chosen);
        forall x: Pair ensures x in OneMain(pairs) <==> x in chosen { SortMembers(ByKey(BookKey), chosen, x); }
        forall p, q | p in OneMain(pairs) && q in OneMain(pairs) && BookOf(p) == BookOf(q) ensures p == q {
          SelectedAre(pairs, reference, p);
          SelectedAre(pairs, reference, q);
        }
        forall p | p in pairs ensures exists q :: q in OneMain(pairs) && BookOf(q) == BookOf(p) { var q := MainOf(pairs, reference, p); }
      }
    }
  }

  /** The main pair of a book is nearest to the reference of all the book's pairs. */
  lemma NearestIs(reference: real, own: seq<Pair>, p: Pair)
    requires p in own
    ensures NearestMain(reference)(own) == [FirstMin(ByKey(MainKey(reference)), own)]
    ensures var q := FirstMin(ByKey(MainKey(reference)), own);
            q in own && Abs(RefPoint(q) - reference) <= Abs(RefPoint(p) - reference)
  {
    ByKeyIsOrder(MainKey(reference));
    FirstMinIsLeast(ByKey(MainKey(reference)), own);
    var a, b := MainKey(reference)(FirstMin(ByKey(MainKey(reference)), own)), MainKey(reference)(p);
    assert !KeyLess(b, a);
    assert a[0] <= b[0];
  }

  lemma MainOf(pairs: seq<Pair>, reference: real, p: Pair) returns (q: Pair)
    requires p in pairs
    ensures q in OverGroups(pairs, BookOf, NearestMain(reference)) && BookOf(q) == BookOf(p)
    ensures Abs(RefPoint(q) - reference) <= Abs(RefPoint(p) - reference)
  {
    hide NearestMain, FirstMin, RefPoint, FirstKeys;
    FirstKeysAre(pairs, BookOf);
    var ks, g := FirstKeys(pairs, BookOf), OnMembers(pairs, BookOf, NearestMain(reference));
    var own := Members(pairs, BookOf, BookOf(p));
    assert p in own;
    NearestIs(reference, own, p);
    q := FirstMin(ByKey(MainKey(reference)), own);
    assert BookOf(p) in ks;
    var i :| 0 <= i < |ks| && ks[i] == BookOf(p);
    assert q in g(ks[i]);
    FlatMembers(ks, g, q);
  }

  // ----- What identifies an opportunity -----

  /** The market's opportunities belong to it, one a side. */
  lemma OpportunitiesOfMarket(curves: Curves, policy: PricingPolicy, pairs: seq<Pair>, key: MarketKey, x: Opportunity)
    requires Sampled(curves) && (forall p <- pairs :: MarketKeyOf(p) == key) && x in MarketOpportunities(curves, policy, pairs)
    ensures MarketKey(x.eventId, x.market, x.period) == key
    ensures forall y :: y in MarketOpportunities(curves, policy, pairs) && y.side == x.side ==> y == x
  {
    hide OneMain, MoneylineOutliers, CurveOutliers, BestPriced, Projected, Greatest, Least, Median;
    var main := OneMain(pairs);
    OneMainWithin(pairs, main[0]);
    var (one, other) := ExpectedSides(main[0].first.market);
    assert one != other;
  }

  lemma OpportunityTies(x: Opportunity, y: Opportunity)
    requires !KeyLess(OpportunityKey(x), OpportunityKey(y)) && !KeyLess(OpportunityKey(y), OpportunityKey(x))
    ensures x.eventId == y.eventId && x.market == y.market && x.side == y.side
  {
    var a, b := OpportunityKey(x), OpportunityKey(y);
    KeyLessTotal(a, b);
    assert a[4] == b[4] && a[5] == b[5] && a[6] == b[6];
  }

  // ----- The analysis sees only which rows are known -----

  /** The constraints of the observation and book tables that ordering relies on: one book a key, one period. */
  ghost predicate TablesAgree(rows: seq<Observation>) {
    && (forall x, y :: x in rows && y in rows && x.sportsbookKey == y.sportsbookKey ==> x.sportsbookId == y.sportsbookId)
    && (forall x, y :: x in rows && y in rows ==> x.period == y.period)
  }

  lemma PairsHaveDistinctLines(rows: seq<Observation>)
    requires TablesAgree(rows)
    ensures LinesDistinct(Pairs(rows))
  {
    hide Pairs, PairFamily, LineKey, MakePair, Coherent;
    forall p, q | p in Pairs(rows) && q in Pairs(rows) && MarketKeyOf(p) == MarketKeyOf(q) && BookOf(p) == BookOf(q) && p.lineKey == q.lineKey
      ensures p == q
    {
      PairsAreSound(rows, p);
      PairsAreSound(rows, q);
      LineInOnePair(rows, p, q);
    }
  }

  lemma MarketsPermute(a: seq<Pair>, b: seq<Pair>, k: MarketKey)
    requires multiset(a) == multiset(b) && LinesDistinct(a)
    ensures OneMain(Members(a, MarketKeyOf, k)) == OneMain(Members(b, MarketKeyOf, k))
  {
    hide OneMain;
    WherePermutes(a, b, HasKey(MarketKeyOf, k));
    OneMainPermutes(Members(a, MarketKeyOf, k), Members(b, MarketKeyOf, k));
  }

  lemma PriceablePermutes(a: seq<Pair>, b: seq<Pair>, curves: Curves, policy: PricingPolicy)
    requires multiset(a) == multiset(b) && LinesDistinct(a) && Sampled(curves) && AllPriceable(curves, policy, a)
    ensures AllPriceable(curves, policy, b)
  {
    hide OneMain, Priceable;
    KeysPermute(a, b, MarketKeyOf);
    var ka, kb := FirstKeys(a, MarketKeyOf), FirstKeys(b, MarketKeyOf);
    forall i | 0 <= i < |kb| ensures MarketPriceable(curves, policy, Members(b, MarketKeyOf, kb[i])) {
      assert kb[i] in multiset(ka);
      var j :| 0 <= j < |ka| && ka[j] == kb[i];
      MarketsPermute(a, b, ka[j]);
      assert MarketPriceable(curves, policy, Members(a, MarketKeyOf, ka[j]));
    }
  }

  lemma FoundPermutes(a: seq<Pair>, b: seq<Pair>, curves: Curves, policy: PricingPolicy)
    requires multiset(a) == multiset(b) && LinesDistinct(a) && Sampled(curves)
    ensures multiset(OverGroups(a, MarketKeyOf, CandidatesOf(curves, policy))) == multiset(OverGroups(b, MarketKeyOf, CandidatesOf(curves, policy)))
  {
    hide OneMain, MoneylineOpportunity, CurveOpportunity;
    forall k | k in FirstKeys(a, MarketKeyOf)
      ensures multiset(CandidatesOf(curves, policy)(Members(a, MarketKeyOf, k))) == multiset(CandidatesOf(curves, policy)(Members(b, MarketKeyOf, k)))
    {
      MarketsPermute(a, b, k);
    }
    OverGroupsPermutes(a, b, MarketKeyOf, CandidatesOf(curves, policy));
  }

  ghost predicate OnePeriod(pairs: seq<Pair>) {
    forall p, q :: p in pairs && q in pairs ==> p.first.period == q.first.period
  }

  lemma FoundIsOfMarket(pairs: seq<Pair>, curves: Curves, policy: PricingPolicy, x: Opportunity)
    requires Sampled(curves) && x in OverGroups(pairs, MarketKeyOf, CandidatesOf(curves, policy))
    ensures x in MarketOpportunities(curves, policy, Members(pairs, MarketKeyOf, MarketKey(x.eventId, x.market, x.period)))
    ensures exists p :: p in pairs && MarketKeyOf(p) == MarketKey(x.eventId, x.market, x.period)
  {
    hide MarketOpportunities;
    var ks, g := FirstKeys(pairs, MarketKeyOf), OnMembers(pairs, MarketKeyOf, CandidatesOf(curves, policy));
    FlatMembers(ks, g, x);
    FirstKeysAre(pairs, MarketKeyOf);
    var i :| 0 <= i < |ks| && x in g(ks[i]);
    OpportunitiesOfMarket(curves, policy, Members(pairs, MarketKeyOf, ks[i]), ks[i], x);
    assert ks[i] in ks;
  }

  lemma FoundSeparates(pairs: seq<Pair>, curves: Curves, policy: PricingPolicy)
    requires Sampled(curves) && OnePeriod(pairs)
    ensures Separates(ByKey(OpportunityKey), OverGroups(pairs, MarketKeyOf, CandidatesOf(curves, policy)))
  {
    hide MarketOpportunities, OpportunityKey, OverGroups;
    var found := OverGroups(pairs, MarketKeyOf, CandidatesOf(curves, policy));
    forall x, y | x in found && y in found && !KeyLess(OpportunityKey(x), OpportunityKey(y)) && !KeyLess(OpportunityKey(y), OpportunityKey(x))
      ensures x == y
    {
      OpportunityTies(x, y);
      FoundIsOfMarket(pairs, curves, policy, x);
      FoundIsOfMarket(pairs, curves, policy, y);
      var p :| p in pairs && MarketKeyOf(p) == MarketKey(x.eventId, x.market, x.period);
      var q :| q in pairs && MarketKeyOf(q) == MarketKey(y.eventId, y.market, y.period);
      var key := MarketKey(x.eventId, x.market, x.period);
      OpportunitiesOfMarket(curves, policy, Members(pairs, MarketKeyOf, key), key, x);
    }
  }

  lemma PairsHaveOnePeriod(rows: seq<Observation>)
    requires TablesAgree(rows)
    ensures OnePeriod(Pairs(rows))
  {
    hide Pairs;
    forall p, q | p in Pairs(rows) && q in Pairs(rows) ensures p.first.period == q.first.period {
      PairsAreSound(rows, p);
      PairsAreSound(rows, q);
    }
  }

  lemma SortedFoundAgree(a: seq<Opportunity>, b: seq<Opportunity>)
    requires multiset(a) == multiset(b) && Separates(ByKey(OpportunityKey), a)
    ensures SortBy(ByKey(OpportunityKey), a) == SortBy(ByKey(OpportunityKey), b)
    ensures SortBy(ByKey(OpportunityKey), Where(a, Passed())) == SortBy(ByKey(OpportunityKey), Where(b, Passed()))
  {
    hide SortBy, KeyLess;
    ByKeyIsOrder(OpportunityKey);
    SortForgetsOrder(ByKey(OpportunityKey), a, b);
    WherePermutes(a, b, Passed());
    SortForgetsOrder(ByKey(OpportunityKey), Where(a, Passed()), Where(b, Passed()));
  }

  lemma UsableWithin(rows: seq<Observation>, cutoff: int, policy: PricingPolicy, o: Observation)
    requires o in Usable(rows, cutoff, policy)
    ensures o in rows && KnownBy(o, cutoff)
  {
    LatestStatesAre(Where(rows, Known(cutoff)), o);
  }

  /** Two histories with the same known rows, in whatever order and with whatever rows after the cutoff, have the same
      analysis, down to the order of its candidates and opportunities. */
  lemma AnalysisSeesOnlyKnownRows(a: seq<Observation>, b: seq<Observation>, cutoff: int, policy: PricingPolicy, curves: Curves, topN: int)
    requires Sampled(curves) && TablesAgree(Where(a, Known(cutoff)))
    requires multiset(Where(a, Known(cutoff))) == multiset(Where(b, Known(cutoff)))
    ensures Analyze(a, cutoff, policy, curves, topN) == Analyze(b, cutoff, policy, curves, topN)
  {
    hide Usable, Pairs, AllPriceable, SortBy, OverGroups, TopNByLeague, CandidatesOf;
    UsablePermutes(a, b, cutoff, policy);
    var ua, ub := Usable(a, cutoff, policy), Usable(b, cutoff, policy);
    assert TablesAgree(ua) by {
      forall o | o in ua ensures o in Where(a, Known(cutoff)) { UsableWithin(a, cutoff, policy, o); }
    }
    PairsPermute(ua, ub);
    PairsHaveDistinctLines(ua);
    PairsHaveOnePeriod(ua);
    LinesDistinctPermutes(Pairs(ua), Pairs(ub));
    if AllPriceable(curves, policy, Pairs(ua)) { PriceablePermutes(Pairs(ua), Pairs(ub), curves, policy); }
    if AllPriceable(curves, policy, Pairs(ub)) { PriceablePermutes(Pairs(ub), Pairs(ua), curves, policy); }
    FoundPermutes(Pairs(ua), Pairs(ub), curves, policy);
    FoundSeparates(Pairs(ua), curves, policy);
    SortedFoundAgree(OverGroups(Pairs(ua), MarketKeyOf, CandidatesOf(curves, policy)),
                     OverGroups(Pairs(ub), MarketKeyOf, CandidatesOf(curves, policy)));
  }

  lemma LinesDistinctPermutes(a: seq<Pair>, b: seq<Pair>)
    requires multiset(a) == multiset(b) && LinesDistinct(a)
    ensures LinesDistinct(b)
  {
    assert forall x :: x in b ==> x in multiset(a);
  }

  /** Rows observed, requested or ingested after the cutoff change nothing. */
  lemma LateRowsChangeNothing(rows: seq<Observation>, late: seq<Observation>, cutoff: int, policy: PricingPolicy, curves: Curves, topN: int)
    requires Sampled(curves) && TablesAgree(Where(rows, Known(cutoff))) && forall o <- late :: !KnownBy(o, cutoff)
    ensures Analyze(rows + late, cutoff, policy, curves, topN) == Analyze(rows, cutoff, policy, curves, topN)
  {
    WhereConcat(rows, late, Known(cutoff));
    WhereNone(late, Known(cutoff));
    assert Where(rows, Known(cutoff)) + [] == Where(rows, Known(cutoff));
    hide Analyze;
    AnalysisSeesOnlyKnownRows(rows, rows + late, cutoff, policy, curves, topN);
  }
}
