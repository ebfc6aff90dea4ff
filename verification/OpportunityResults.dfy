/** What every opportunity of an analysis satisfies. */
module OpportunityResults {
  import opened Wrappers
  import opened Numbers
  import opened Ordering
  import opened Lists
  import opened Grouping
  import opened Medians
  import opened Pricing
  import opened Kelly
  import opened MarketCurve
  import opened RobustCenter
  import opened Observations
  import opened MarketPairs
  import opened Consensus
  import opened ConsensusResults

  ghost predicate SoundPairs(main: seq<Pair>) {
    forall p <- main :: SoundPair(p)
  }

  ghost predicate OfMarket(main: seq<Pair>, market: MarketType) {
    forall p <- main :: p.first.market == market
  }

  // ----- Moneylines -----

  lemma AwayComplementsHome(main: seq<Pair>)
    requires SoundPairs(main) && OfMarket(main, Moneyline)
    ensures Chances(main, Away) == Complements(Chances(main, Home))
  {
    var home, away := Chances(main, Home), Chances(main, Away);
    forall i | 0 <= i < |main| ensures away[i] == Complements(home)[i] {
      assert main[i] in main;
      PairIsComplementary(main[i]);
    }
  }

  lemma BetterQuoteIsOrder()
    ensures StrictWeakOrder(BetterQuote)
  {
    forall x: Observation ensures !BetterQuote(x, x) { KeyLessIrreflexive(QuoteKey(x)); }
    forall x: Observation, y: Observation, z: Observation
      ensures BetterQuote(x, y) && BetterQuote(y, z) ==> BetterQuote(x, z)
      ensures !BetterQuote(x, y) && !BetterQuote(y, z) ==> !BetterQuote(x, z)
    {
      KeyLessTransitive(QuoteKey(z), QuoteKey(y), QuoteKey(x));
    }
  }

  /** The best quote of a side has the smallest implied chance of all its quotes. */
  lemma BestQuoteImpliesLeast(main: seq<Pair>, side: Side, o: Observation)
    requires main != [] && o in Quotes(main, side)
    ensures FirstMin(BetterQuote, Quotes(main, side)) in Quotes(main, side)
    ensures ImpliedProbability(FirstMin(BetterQuote, Quotes(main, side)).americanOdds) <= ImpliedProbability(o.americanOdds)
  {
    hide ImpliedProbability, DecimalOdds;
    BetterQuoteIsOrder();
    FirstMinIsLeast(BetterQuote, Quotes(main, side));
    var best := FirstMin(BetterQuote, Quotes(main, side));
    assert !BetterQuote(o, best);
    assert QuoteKey(o)[0] == DecimalOdds(o.americanOdds) && QuoteKey(best)[0] == DecimalOdds(best.americanOdds);
    BetterOddsImplyLess(o.americanOdds, best.americanOdds);
  }

  /** The two sides of a moneyline market, for any number of books: fair chances sum to one, dispersion and outlier books
      agree, and the edges sum to one minus the two smallest implied chances, so both are positive only if these prices
      undercut one. */
  lemma MoneylineSidesComplement(main: seq<Pair>, policy: PricingPolicy)
    requires main != [] && SoundPairs(main) && OfMarket(main, Moneyline)
    ensures var home, away := MoneylineOpportunity(main, Home, policy), MoneylineOpportunity(main, Away, policy);
            var priceSum := ImpliedProbability(home.best.americanOdds) + ImpliedProbability(away.best.americanOdds);
            && home.fair + away.fair == 1.0 && home.dispersion == away.dispersion && home.outliers == away.outliers
            && home.edge + away.edge == 1.0 - priceSum
            && (home.edge > 0.0 && away.edge > 0.0 ==> priceSum < 1.0)
            && (forall o <- Quotes(main, Home) :: ImpliedProbability(home.best.americanOdds) <= ImpliedProbability(o.americanOdds))
            && (forall o <- Quotes(main, Away) :: ImpliedProbability(away.best.americanOdds) <= ImpliedProbability(o.americanOdds))
  {
    hide ImpliedProbability, Pricing.Consensus, Median, Chances, SortBy, Gates, SourceIds;
    AwayComplementsHome(main);
    ConsensusIsComplementary(Chances(main, Home), policy.outlierThreshold);
    ConsensusIs(Chances(main, Home), policy.outlierThreshold);
    ConsensusIs(Chances(main, Away), policy.outlierThreshold);
    forall o | o in Quotes(main, Home)
      ensures ImpliedProbability(FirstMin(BetterQuote, Quotes(main, Home)).americanOdds) <= ImpliedProbability(o.americanOdds)
    {
      BestQuoteImpliesLeast(main, Home, o);
    }
    forall o | o in Quotes(main, Away)
      ensures ImpliedProbability(FirstMin(BetterQuote, Quotes(main, Away)).americanOdds) <= ImpliedProbability(o.americanOdds)
    {
      BestQuoteImpliesLeast(main, Away, o);
    }
  }

  /** The main pairs of the market an opportunity belongs to, one a book. */
  function MainPairs(rows: seq<Observation>, cutoff: int, policy: PricingPolicy, x: Opportunity): seq<Pair> {
    OneMain(Members(Pairs(Usable(rows, cutoff, policy)), MarketKeyOf, MarketKey(x.eventId, x.market, x.period)))
  }

  predicate SameMarket(x: Opportunity, y: Opportunity) {
    x.eventId == y.eventId && x.market == y.market && x.period == y.period
  }

  lemma MainPairsAreSound(rows: seq<Observation>, cutoff: int, policy: PricingPolicy, x: Opportunity)
    ensures SoundPairs(MainPairs(rows, cutoff, policy, x)) && OfMarket(MainPairs(rows, cutoff, policy, x), x.market)
  {
    hide Pairs, Usable, OneMain, SoundPair;
    var usable := Usable(rows, cutoff, policy);
    var group := Members(Pairs(usable), MarketKeyOf, MarketKey(x.eventId, x.market, x.period));
    forall p | p in OneMain(group) ensures SoundPair(p) && p.first.market == x.market {
      OneMainWithin(group, p);
      PairsAreSound(usable, p);
    }
  }

  /** A candidate is one of the two opportunities of its market, and both of them are candidates. */
  lemma CandidatesComeInMarkets(rows: seq<Observation>, cutoff: int, policy: PricingPolicy, curves: Curves, topN: int, x: Opportunity)
    requires Sampled(curves) && Analyze(rows, cutoff, policy, curves, topN).Ok?
    requires x in Analyze(rows, cutoff, policy, curves, topN).value.candidates
    ensures var group := Members(Pairs(Usable(rows, cutoff, policy)), MarketKeyOf, MarketKey(x.eventId, x.market, x.period));
            forall y: Opportunity :: SameMarket(x, y) ==>
              (y in Analyze(rows, cutoff, policy, curves, topN).value.candidates <==> y in MarketOpportunities(curves, policy, group))
  {
    hide Usable, Pairs, AllPriceable, SortBy, TopNByLeague, MarketOpportunities, Members, FirstKeys;
    var pairs, key := Pairs(Usable(rows, cutoff, policy)), MarketKey(x.eventId, x.market, x.period);
    var found := OverGroups(pairs, MarketKeyOf, CandidatesOf(curves, policy));
    var ks, g := FirstKeys(pairs, MarketKeyOf), OnMembers(pairs, MarketKeyOf, CandidatesOf(curves, policy));
    SortMembers(ByKey(OpportunityKey), found, x);
    FoundIsOfMarket(pairs, curves, policy, x);
    FirstKeysAre(pairs, MarketKeyOf);
    assert key in ks;
    var i :| 0 <= i < |ks| && ks[i] == key;
    forall y: Opportunity | SameMarket(x, y)
      ensures y in Analyze(rows, cutoff, policy, curves, topN).value.candidates
              <==> y in MarketOpportunities(curves, policy, Members(pairs, MarketKeyOf, key))
    {
      SortMembers(ByKey(OpportunityKey), found, y);
      FlatMembers(ks, g, y);
      if y in found { FoundIsOfMarket(pairs, curves, policy, y); }
    }
  }

  /** The two moneyline candidates of one event, whatever the rows: when one side is a candidate so is the other, once; their
      fair chances sum to one, they name the same outlier books, each quotes the smallest implied chance of its side, and
      both have an edge only if these two prices undercut one. */
  lemma MoneylineCandidatesComplement(rows: seq<Observation>, cutoff: int, policy: PricingPolicy, curves: Curves, topN: int, x: Opportunity)
    returns (y: Opportunity)
    requires Sampled(curves) && Analyze(rows, cutoff, policy, curves, topN).Ok?
    requires x in Analyze(rows, cutoff, policy, curves, topN).value.candidates && x.market == Moneyline
    ensures var candidates := Analyze(rows, cutoff, policy, curves, topN).value.candidates;
            && y in candidates && SameMarket(x, y) && {x.side, y.side} == {Home, Away}
            && (forall z <- candidates :: SameMarket(x, z) ==> z == x || z == y)
    ensures var priceSum := ImpliedProbability(x.best.americanOdds) + ImpliedProbability(y.best.americanOdds);
            && x.fair + y.fair == 1.0 && x.dispersion == y.dispersion && x.outliers == y.outliers
            && x.edge + y.edge == 1.0 - priceSum
            && (x.edge > 0.0 && y.edge > 0.0 ==> priceSum < 1.0)
    ensures forall p <- MainPairs(rows, cutoff, policy, x) ::
              && ImpliedProbability(x.best.americanOdds) <= ImpliedProbability(QuoteOf(p, x.side).americanOdds)
              && ImpliedProbability(y.best.americanOdds) <= ImpliedProbability(QuoteOf(p, y.side).americanOdds)
  {
    hide Analyze, Usable, Pairs, OneMain, Members, ImpliedProbability, Quotes, Chances, QuoteOf, SoundPairs;
    var main := MainPairs(rows, cutoff, policy, x);
    CandidatesComeInMarkets(rows, cutoff, policy, curves, topN, x);
    MainPairsAreSound(rows, cutoff, policy, x);
    assert main[0] in main;
    var home, away := MoneylineOpportunity(main, Home, policy), MoneylineOpportunity(main, Away, policy);
    MoneylineNamesMarket(main, Home, policy);
    MoneylineNamesMarket(main, Away, policy);
    MoneylineSidesComplement(main, policy);
    hide MoneylineOpportunity;
    y := if x == home then away else home;
    forall p | p in main
      ensures QuoteOf(p, Home) in Quotes(main, Home) && QuoteOf(p, Away) in Quotes(main, Away)
    {
      QuotedBy(main, p, Home);
      QuotedBy(main, p, Away);
    }
  }

  lemma QuotedBy(main: seq<Pair>, p: Pair, side: Side)
    requires p in main
    ensures QuoteOf(p, side) in Quotes(main, side)
  {
    var i :| 0 <= i < |main| && main[i] == p;
    assert Quotes(main, side)[i] == QuoteOf(p, side);
  }

  lemma MoneylineNamesMarket(main: seq<Pair>, side: Side, policy: PricingPolicy)
    requires main != []
    ensures var x := MoneylineOpportunity(main, side, policy);
            x.side == side && MarketKey(x.eventId, x.market, x.period) == MarketKeyOf(main[0])
  {
  }

  lemma ConsensusIs(chances: seq<real>, threshold: real)
    requires chances != []
    ensures Pricing.Consensus(chances, threshold).probability == Median(chances)
  {
  }

  // ----- Some book is at least as pessimistic as the consensus -----

  /** The fair chance and the books' own views are chances, and some book's view is no higher than the fair chance. */
  ghost predicate BookBelowFair(x: Opportunity) {
    && Kelly.Mass(x.fair, x.push) && x.loss == 1.0 - x.fair - x.push
    && (forall p <- x.bookProbabilities :: Probability(p))
    && (exists p :: p in x.bookProbabilities && p <= x.fair)
  }

  lemma ChancesAreProbabilities(main: seq<Pair>, side: Side)
    requires SoundPairs(main)
    ensures forall p <- Chances(main, side) :: Probability(p)
  {
    hide SoundPair;
    var chances := Chances(main, side);
    forall p | p in chances ensures Probability(p) {
      var i :| 0 <= i < |chances| && chances[i] == p;
      assert main[i] in main;
      PairIsComplementary(main[i]);
    }
  }

  /** The consensus of a market that has enough books is never refused. */
  lemma MoneylineConsensusIsDefined(main: seq<Pair>, side: Side, policy: PricingPolicy)
    requires policy.Valid() && |main| >= policy.minimumBooks && SoundPairs(main)
    ensures UnweightedMedianConsensus(Chances(main, side), policy.outlierThreshold)
            == Ok(Pricing.Consensus(Chances(main, side), policy.outlierThreshold))
  {
    hide Pricing.Consensus;
    ChancesAreProbabilities(main, side);
  }

  lemma MoneylineBookBelow(main: seq<Pair>, side: Side, policy: PricingPolicy)
    requires main != [] && SoundPairs(main)
    ensures BookBelowFair(MoneylineOpportunity(main, side, policy))
  {
    hide ImpliedProbability, Median, MoneylineOutliers, SourceIds, OutliersFrom, Quotes, FirstMin, SoundPair;
    var chances := Chances(main, side);
    ChancesAreProbabilities(main, side);
    hide Chances;
    MedianBetween(chances, 0.0, 1.0);
    MedianStraddled(chances);
  }

  lemma BetterPricedIsOrder()
    ensures StrictWeakOrder(BetterPriced)
  {
    forall x: Priced ensures !BetterPriced(x, x) { KeyLessIrreflexive(PricedKey(x)); }
    forall x: Priced, y: Priced, z: Priced
      ensures BetterPriced(x, y) && BetterPriced(y, z) ==> BetterPriced(x, z)
      ensures !BetterPriced(x, y) && !BetterPriced(y, z) ==> !BetterPriced(x, z)
    {
      KeyLessTransitive(PricedKey(z), PricedKey(y), PricedKey(x));
    }
  }

  lemma BestPricedIs(curve: Curve, main: seq<Pair>, side: Side)
    requires curve.sampleSize >= 1 && main != []
    ensures var best := BestPriced(curve, main, side);
            && best.settlement == SettlementOf(curve, MarketCenterOf(curve, main), PointOf(best.quote), side)
            && best.quote in Quotes(main, side)
            && (forall x <- PriceAll(curve, MarketCenterOf(curve, main), main, side) :: x.ev <= best.ev)
  {
    hide SettlementOf, MarketCenterOf, ExpectedValueWithPush, ProbabilityEdgeWithPush, DecimalOdds, ImpliedProbability;
    var all := PriceAll(curve, MarketCenterOf(curve, main), main, side);
    BetterPricedIsOrder();
    FirstMinIsLeast(BetterPriced, all);
    var best := FirstMin(BetterPriced, all);
    var i :| 0 <= i < |all| && all[i] == best;
    assert Quotes(main, side)[i] == best.quote;
    forall x | x in all ensures x.ev <= best.ev {
      assert !BetterPriced(x, best);
      assert PricedKey(x)[0] == x.ev && PricedKey(best)[0] == best.ev;
    }
  }

  /** Book centers lie on the grid, so the combined center stays between the lowest and the highest of them. */
  lemma CenterBetweenBooks(curve: Curve, main: seq<Pair>) returns (low: nat, high: nat)
    requires curve.Valid() && main != []
    ensures low < |main| && high < |main|
    ensures CenterOf(curve, main[low]) <= MarketCenterOf(curve, main) <= CenterOf(curve, main[high])
  {
    hide InferredCenter, Combine, OnGrid;
    var points := CurvePoints(curve, main);
    var centers := Centers(points);
    var lo, hi := Least(centers), Greatest(centers);
    low :| 0 <= low < |centers| && centers[low] == lo;
    high :| 0 <= high < |centers| && centers[high] == hi;
    assert points[low].center == CenterOf(curve, main[low]) && points[high].center == CenterOf(curve, main[high]);
    InferredCenterOnGrid(curve, PointOf(main[low].first), main[low].firstProbability);
    InferredCenterOnGrid(curve, PointOf(main[high].first), main[high].firstProbability);
    forall p | p in points ensures lo <= p.center <= hi {
      var i :| 0 <= i < |points| && points[i] == p;
      assert centers[i] in centers;
    }
    CenterInHull(points, OUTLIER_DISTANCE, lo, hi);
  }

  lemma InferredCenterOnGrid(curve: Curve, point: real, target: real)
    requires curve.sampleSize >= 1
    ensures OnGrid(InferredCenter(curve, point, target), CENTER_SCALE)
  {
    hide Bisect, Quantize, OnGrid;
    var base := Base(curve.market, point);
    var bracket := Bisect(curve, point, target, base - 40.0, base + 40.0, BISECTION_STEPS);
    QuantizedCenterNear((bracket.0 + bracket.1) / 2.0);
  }

  lemma CurveBookBelow(curve: Curve, main: seq<Pair>, side: Side, policy: PricingPolicy)
    requires curve.Valid() && main != [] && SideFits(curve.market, side)
    ensures BookBelowFair(CurveOpportunity(curve, main, side, policy))
  {
    hide SettlementOf, MarketCenterOf, CenterOf, BestPriced, CurveOutliers, Conditionals, Gates, SourceIds;
    BestPricedIs(curve, main, side);
    var best := BestPriced(curve, main, side);
    var point, center := PointOf(best.quote), MarketCenterOf(curve, main);
    var projected := Projected(curve, main, point, side);
    var low, high := CenterBetweenBooks(curve, main);
    SettlementIsRampAverage(curve, center, point, side);
    var lowest := CenterOf(curve, main[low]);
    var highest := CenterOf(curve, main[high]);
    WinMovesWithCenter(curve, lowest, center - lowest, point, side);
    WinMovesWithCenter(curve, center, highest - center, point, side);
    assert WinChances(projected)[low] in WinChances(projected) && WinChances(projected)[high] in WinChances(projected);
    forall p | p in WinChances(projected) ensures Probability(p) {
      var i :| 0 <= i < |projected| && WinChances(projected)[i] == p;
      SettlementIsRampAverage(curve, CenterOf(curve, main[i]), point, side);
    }
  }

  lemma MarketBookBelow(curves: Curves, policy: PricingPolicy, pairs: seq<Pair>, x: Opportunity)
    requires curves.Valid() && SoundPairs(pairs) && x in MarketOpportunities(curves, policy, pairs)
    ensures BookBelowFair(x)
  {
    hide OneMain, MoneylineOpportunity, CurveOpportunity, BookBelowFair, SoundPair;
    var main := OneMain(pairs);
    forall p | p in main ensures SoundPair(p) { OneMainWithin(pairs, p); }
    var (one, other) := ExpectedSides(main[0].first.market);
    if main[0].first.market == Moneyline {
      MoneylineBookBelow(main, one, policy);
      MoneylineBookBelow(main, other, policy);
    } else {
      var curve := CurveFor(curves, main[0].first.market);
      CurveBookBelow(curve, main, one, policy);
      CurveBookBelow(curve, main, other, policy);
    }
  }

  /** Every candidate of every analysis has a book that is at least as pessimistic as the consensus. */
  lemma EveryCandidateHasBookBelow(rows: seq<Observation>, cutoff: int, policy: PricingPolicy, curves: Curves, topN: int, x: Opportunity)
    requires curves.Valid() && Analyze(rows, cutoff, policy, curves, topN).Ok?
    requires x in Analyze(rows, cutoff, policy, curves, topN).value.candidates
    ensures BookBelowFair(x)
  {
    hide Usable, Pairs, AllPriceable, SortBy, OverGroups, TopNByLeague, MarketOpportunities, BookBelowFair, SoundPair;
    var usable := Usable(rows, cutoff, policy);
    var pairs := Pairs(usable);
    var found := OverGroups(pairs, MarketKeyOf, CandidatesOf(curves, policy));
    SortMembers(ByKey(OpportunityKey), found, x);
    FoundIsOfMarket(pairs, curves, policy, x);
    var group := Members(pairs, MarketKeyOf, MarketKey(x.eventId, x.market, x.period));
    forall p | p in group ensures SoundPair(p) { PairsAreSound(usable, p); }
    MarketBookBelow(curves, policy, group, x);
  }

  // ----- The first n of each league -----

  /** Of every league the selection keeps exactly its first n qualified opportunities, which are the best ranked. */
  lemma TopNIsFirstOfLeague(rows: seq<Observation>, cutoff: int, policy: PricingPolicy, curves: Curves, topN: int, league: string)
    requires Sampled(curves) && Analyze(rows, cutoff, policy, curves, topN).Ok?
    ensures var analysis := Analyze(rows, cutoff, policy, curves, topN).value;
            && Members(analysis.opportunities, LeagueOf, league) == First(Members(analysis.qualified, LeagueOf, league), topN)
            && Sorted(ByKey(OpportunityKey), analysis.qualified)
            && (forall x <- analysis.qualified :: x.failures == [] && x in analysis.candidates)
  {
    hide Pairs, Usable, AllPriceable, SortBy, Members, OverGroups, OpportunityKey;
    var analysis := Analyze(rows, cutoff, policy, curves, topN).value;
    FirstOfEachKey(analysis.qualified, LeagueOf, topN, league);
    var found := OverGroups(Pairs(Usable(rows, cutoff, policy)), MarketKeyOf, CandidatesOf(curves, policy));
    ByKeyIsOrder(OpportunityKey);
    SortSorts(ByKey(OpportunityKey), Where(found, Passed()));
    forall x | x in analysis.qualified ensures x.failures == [] && x in analysis.candidates {
      SortMembers(ByKey(OpportunityKey), Where(found, Passed()), x);
      SortMembers(ByKey(OpportunityKey), found, x);
    }
  }

  lemma MoneylineMeetsPolicy(main: seq<Pair>, side: Side, policy: PricingPolicy)
    requires main != []
    ensures var x := MoneylineOpportunity(main, side, policy);
            && x.side == side && x.books == |main|
            && (x.failures == [] <==> x.dispersion <= policy.maximumDispersion && x.edge >= policy.minimumEdge && x.ev >= policy.minimumEv)
            && exists p :: p in main && x.best == QuoteOf(p, side)
  {
    hide MoneylineOutliers, Median, DecimalOdds, ImpliedProbability, QuoteOf, SourceIds, FirstMin, Chances;
    assert Quotes(main, side)[0] in Quotes(main, side);
    BestQuoteImpliesLeast(main, side, Quotes(main, side)[0]);
    QuotesAre(main, side, MoneylineOpportunity(main, side, policy).best);
  }

  lemma CurveMeetsPolicy(curve: Curve, main: seq<Pair>, side: Side, policy: PricingPolicy)
    requires curve.sampleSize >= 1 && main != []
    ensures var x := CurveOpportunity(curve, main, side, policy);
            && x.side == side && x.books == |main|
            && (x.failures == [] <==> x.dispersion <= policy.maximumDispersion && x.edge >= policy.minimumEdge && x.ev >= policy.minimumEv)
            && exists p :: p in main && x.best == QuoteOf(p, side)
  {
    hide CurveOutliers, SettlementOf, MarketCenterOf, Projected, Greatest, Least, BestPriced, QuoteOf, SourceIds, WinChances;
    BestPricedIs(curve, main, side);
    QuotesAre(main, side, BestPriced(curve, main, side).quote);
  }

  lemma QuotesAre(main: seq<Pair>, side: Side, o: Observation)
    requires o in Quotes(main, side)
    ensures exists p :: p in main && o == QuoteOf(p, side)
  {
    var i :| 0 <= i < |main| && Quotes(main, side)[i] == o;
    assert main[i] in main;
  }

  lemma MarketMeetsPolicy(curves: Curves, policy: PricingPolicy, pairs: seq<Pair>, x: Opportunity)
    requires Sampled(curves) && x in MarketOpportunities(curves, policy, pairs)
    ensures x.books == |OneMain(pairs)| && x.books >= policy.minimumBooks
    ensures x.failures == [] <==> x.dispersion <= policy.maximumDispersion && x.edge >= policy.minimumEdge && x.ev >= policy.minimumEv
    ensures exists p :: p in OneMain(pairs) && x.best == QuoteOf(p, x.side)
  {
    hide OneMain, MoneylineOpportunity, CurveOpportunity, QuoteOf;
    var main := OneMain(pairs);
    var (one, other) := ExpectedSides(main[0].first.market);
    if main[0].first.market == Moneyline {
      MoneylineMeetsPolicy(main, one, policy);
      MoneylineMeetsPolicy(main, other, policy);
    } else {
      var curve := CurveFor(curves, main[0].first.market);
      CurveMeetsPolicy(curve, main, one, policy);
      CurveMeetsPolicy(curve, main, other, policy);
    }
  }

  /** Qualified opportunities are exactly the candidates that pass every gate; each quotes a row of its own side. */
  lemma QualifiedMeetPolicy(rows: seq<Observation>, cutoff: int, policy: PricingPolicy, curves: Curves, topN: int, x: Opportunity)
    requires Sampled(curves) && Analyze(rows, cutoff, policy, curves, topN).Ok?
    ensures var analysis := Analyze(rows, cutoff, policy, curves, topN).value;
            && (x in analysis.qualified <==>
                  x in analysis.candidates && x.dispersion <= policy.maximumDispersion && x.edge >= policy.minimumEdge && x.ev >= policy.minimumEv)
            && (x in analysis.candidates ==> x.books >= policy.minimumBooks)
  {
    hide Pairs, Usable, AllPriceable, SortBy, OverGroups, MarketOpportunities, OneMain;
    var pairs := Pairs(Usable(rows, cutoff, policy));
    var found := OverGroups(pairs, MarketKeyOf, CandidatesOf(curves, policy));
    SortMembers(ByKey(OpportunityKey), found, x);
    SortMembers(ByKey(OpportunityKey), Where(found, Passed()), x);
    if x in found {
      FoundIsOfMarket(pairs, curves, policy, x);
      MarketMeetsPolicy(curves, policy, Members(pairs, MarketKeyOf, MarketKey(x.eventId, x.market, x.period)), x);
    }
  }

  /** Candidates come highest EV first, and among equal EVs the market with more books first. */
  lemma CandidatesByEv(rows: seq<Observation>, cutoff: int, policy: PricingPolicy, curves: Curves, topN: int, i: nat, j: nat)
    requires Sampled(curves) && Analyze(rows, cutoff, policy, curves, topN).Ok?
    requires i < j < |Analyze(rows, cutoff, policy, curves, topN).value.candidates|
    ensures var candidates := Analyze(rows, cutoff, policy, curves, topN).value.candidates;
            && candidates[i].ev >= candidates[j].ev
            && (candidates[i].ev == candidates[j].ev ==> candidates[i].books >= candidates[j].books)
  {
    hide Pairs, Usable, AllPriceable, SortBy, OverGroups;
    var found := OverGroups(Pairs(Usable(rows, cutoff, policy)), MarketKeyOf, CandidatesOf(curves, policy));
    ByKeyIsOrder(OpportunityKey);
    SortSorts(ByKey(OpportunityKey), found);
    var candidates := SortBy(ByKey(OpportunityKey), found);
    FirstTwoOf(OpportunityKey(candidates[i]), OpportunityKey(candidates[j]));
  }
}
