/** The pricing analysis: the main pair of each book, the consensus of a market, and the opportunities it offers. */
module Consensus {
  import opened Wrappers
  import opened Numbers
  import opened Ordering
  import opened Lists
  import opened Grouping
  import opened Medians
  import opened Pricing
  import opened Kelly
  import opened MarketCurve
  import opened RobustCenter
  import opened Observations
  import opened MarketPairs

  datatype Gate = ExcessiveDispersion | BelowMinimumEdge | BelowMinimumEv

  datatype Opportunity = Opportunity(
    eventId: nat,
    league: string,
    homeTeam: string,
    awayTeam: string,
    scheduledStart: int,
    market: MarketType,
    period: string,
    side: Side,
    best: Observation,
    fair: real,
    push: real,
    loss: real,
    edge: real,
    ev: real,
    books: nat,
    dispersion: real,
    outliers: seq<string>,
    bookProbabilities: seq<real>,
    sourceIds: set<nat>,
    failures: seq<Gate>)

  datatype Curves = Curves(spread: Curve, total: Curve) {
    ghost predicate Valid() {
      spread.Valid() && total.Valid() && spread.market == Spread && total.market == Total
    }
  }

  datatype AnalysisError = BadTopN | Unpriceable

  datatype Analysis = Analysis(candidates: seq<Opportunity>, qualified: seq<Opportunity>, opportunities: seq<Opportunity>)

  // ----- One main pair per book -----

  function BookOf(p: Pair): string {
    p.first.sportsbookKey
  }

  function BookKey(p: Pair): seq<real> {
    Text(BookOf(p))
  }

  function RefPoint(p: Pair): real {
    if p.first.point.None? then 0.0
    else if p.first.market == SpreadMarket then -p.first.point.value else p.first.point.value
  }

  function RefPoints(pairs: seq<Pair>): seq<real> {
    seq(|pairs|, i requires 0 <= i < |pairs| => RefPoint(pairs[i]))
  }

  predicate OnePerBook(pairs: seq<Pair>) {
    var books := FirstKeys(pairs, BookOf);
    forall i :: 0 <= i < |books| ==> |Members(pairs, BookOf, books[i])| == 1
  }

  /** Nearest to the reference point first, then the smallest overround, then the line's text. */
  function MainKey(reference: real): Pair -> seq<real> {
    (p: Pair) => [Abs(RefPoint(p) - reference), Abs(p.overround)] + Text(p.lineKey)
  }

  function NearestMain(reference: real): seq<Pair> -> seq<Pair> {
    (items: seq<Pair>) => if items == [] then [] else [FirstMin(ByKey(MainKey(reference)), items)]
  }

  function OneMain(pairs: seq<Pair>): seq<Pair> {
    if pairs == [] then []
    else if OnePerBook(pairs) then SortBy(ByKey(BookKey), pairs)
    else SortBy(ByKey(BookKey), OverGroups(pairs, BookOf, NearestMain(Median(RefPoints(pairs)))))
  }

  // ----- The sides of a market -----

  function QuoteOf(p: Pair, side: Side): Observation {
    if side == ExpectedSides(p.first.market).0 then p.first else p.second
  }

  function ChanceOf(p: Pair, side: Side): real {
    if side == ExpectedSides(p.first.market).0 then p.firstProbability else p.secondProbability
  }

  function Chances(main: seq<Pair>, side: Side): (r: seq<real>)
    ensures |r| == |main|
  {
    seq(|main|, i requires 0 <= i < |main| => ChanceOf(main[i], side))
  }

  function Quotes(main: seq<Pair>, side: Side): seq<Observation> {
    seq(|main|, i requires 0 <= i < |main| => QuoteOf(main[i], side))
  }

  function Gates(dispersion: real, edge: real, ev: real, policy: PricingPolicy): seq<Gate> {
    (if dispersion > policy.maximumDispersion then [ExcessiveDispersion] else [])
    + (if edge < policy.minimumEdge then [BelowMinimumEdge] else [])
    + (if ev < policy.minimumEv then [BelowMinimumEv] else [])
  }

  function SourceIds(main: seq<Pair>): set<nat> {
    (set p | p in main :: p.first.observationId) + (set p | p in main :: p.second.observationId)
  }

  function BooksAt(main: seq<Pair>, indexes: seq<nat>): seq<string>
    requires forall i <- indexes :: i < |main|
  {
    if indexes == [] then []
    else
      assert indexes[0] in indexes && forall i <- indexes[1..] :: i in indexes;
      [BookOf(main[indexes[0]])] + BooksAt(main, indexes[1..])
  }

  function Describe(main: seq<Pair>, side: Side, best: Observation, fair: real, push: real, loss: real, edge: real, ev: real,
                    dispersion: real, outliers: seq<string>, bookProbabilities: seq<real>, policy: PricingPolicy): Opportunity
    requires main != []
  {
    var first := main[0].first;
    Opportunity(first.eventId, first.league, first.homeTeam, first.awayTeam, first.scheduledStart, first.market, first.period,
                side, best, fair, push, loss, edge, ev, |main|, dispersion, outliers, bookProbabilities, SourceIds(main),
                Gates(dispersion, edge, ev, policy))
  }

  // ----- Moneylines -----

  function QuoteKey(o: Observation): seq<real> {
    [DecimalOdds(o.americanOdds)] + Text(o.sportsbookKey)
  }

  predicate BetterQuote(x: Observation, y: Observation) {
    KeyLess(QuoteKey(y), QuoteKey(x))
  }

  lemma {:induction false} OutlierIndexesInside(probabilities: seq<real>, consensus: real, threshold: real, start: nat)
    requires start <= |probabilities|
    ensures forall i <- OutliersFrom(probabilities, consensus, threshold, start) :: i < |probabilities|
    decreases |probabilities| - start
  {
    if start < |probabilities| { OutlierIndexesInside(probabilities, consensus, threshold, start + 1); }
  }

  function NameKey(name: string): seq<real> {
    Text(name)
  }

  function MoneylineOutliers(main: seq<Pair>, side: Side, policy: PricingPolicy): seq<string>
    requires main != []
  {
    var chances := Chances(main, side);
    OutlierIndexesInside(chances, Median(chances), policy.outlierThreshold, 0);
    SortBy(ByKey(NameKey), BooksAt(main, Pricing.Consensus(chances, policy.outlierThreshold).outlierIndexes))
  }

  function MoneylineOpportunity(main: seq<Pair>, side: Side, policy: PricingPolicy): Opportunity
    requires main != []
  {
    var consensus := Pricing.Consensus(Chances(main, side), policy.outlierThreshold);
    var best := FirstMin(BetterQuote, Quotes(main, side));
    var fair := consensus.probability;
    Describe(main, side, best, fair, 0.0, 1.0 - fair, fair - ImpliedProbability(best.americanOdds),
             Prod(fair, DecimalOdds(best.americanOdds)) - 1.0, consensus.dispersion, MoneylineOutliers(main, side, policy),
             Chances(main, side), policy)
  }

  // ----- Spreads and totals -----

  function CurveFor(curves: Curves, market: MarketType): Curve {
    if market == TotalMarket then curves.total else curves.spread
  }

  function PointOf(o: Observation): real {
    if o.point.Some? then o.point.value else 0.0
  }

  function CenterOf(curve: Curve, p: Pair): real
    requires curve.sampleSize >= 1
  {
    InferredCenter(curve, PointOf(p.first), p.firstProbability)
  }

  function CurvePoints(curve: Curve, main: seq<Pair>): seq<BookPoint>
    requires curve.sampleSize >= 1
  {
    seq(|main|, i requires 0 <= i < |main| => BookPoint(BookOf(main[i]), CenterOf(curve, main[i]), main[i].overround))
  }

  const OUTLIER_DISTANCE := 3.0

  function MarketCenterOf(curve: Curve, main: seq<Pair>): real
    requires curve.sampleSize >= 1 && main != []
  {
    Combine(CurvePoints(curve, main), OUTLIER_DISTANCE).center
  }

  datatype Priced = Priced(ev: real, edge: real, quote: Observation, settlement: Settlement)

  function PriceQuote(curve: Curve, center: real, o: Observation, side: Side): Priced
    requires curve.sampleSize >= 1
  {
    var s := SettlementOf(curve, center, PointOf(o), side);
    Priced(ExpectedValueWithPush(s.win, s.loss, DecimalOdds(o.americanOdds)),
           ProbabilityEdgeWithPush(s.win, s.push, ImpliedProbability(o.americanOdds)), o, s)
  }

  function PriceAll(curve: Curve, center: real, main: seq<Pair>, side: Side): seq<Priced>
    requires curve.sampleSize >= 1
  {
    seq(|main|, i requires 0 <= i < |main| => PriceQuote(curve, center, QuoteOf(main[i], side), side))
  }

  function PricedKey(p: Priced): seq<real> {
    [p.ev, p.edge, DecimalOdds(p.quote.americanOdds)] + Text(p.quote.sportsbookKey)
  }

  predicate BetterPriced(x: Priced, y: Priced) {
    KeyLess(PricedKey(y), PricedKey(x))
  }

  function BestPriced(curve: Curve, main: seq<Pair>, side: Side): Priced
    requires curve.sampleSize >= 1 && main != []
  {
    FirstMin(BetterPriced, PriceAll(curve, MarketCenterOf(curve, main), main, side))
  }

  /** Each book's own settlement of the best quote's line. */
  function Projected(curve: Curve, main: seq<Pair>, point: real, side: Side): (r: seq<Settlement>)
    requires curve.sampleSize >= 1
    ensures |r| == |main|
  {
    seq(|main|, i requires 0 <= i < |main| => SettlementOf(curve, CenterOf(curve, main[i]), point, side))
  }

  function WinChances(settlements: seq<Settlement>): seq<real> {
    seq(|settlements|, i requires 0 <= i < |settlements| => settlements[i].win)
  }

  function Conditionals(settlements: seq<Settlement>): (r: seq<real>)
    ensures |r| == |settlements|
  {
    seq(|settlements|, i requires 0 <= i < |settlements| => settlements[i].ConditionalWin())
  }

  function CurveOutliers(main: seq<Pair>, conditionals: seq<real>, consensus: real, threshold: real): seq<string>
    requires |conditionals| == |main|
  {
    OutlierIndexesInside(conditionals, consensus, threshold, 0);
    SortBy(ByKey(NameKey), BooksAt(main, OutliersFrom(conditionals, consensus, threshold, 0)))
  }

  function CurveOpportunity(curve: Curve, main: seq<Pair>, side: Side, policy: PricingPolicy): Opportunity
    requires curve.sampleSize >= 1 && main != []
  {
    var best := BestPriced(curve, main, side);
    var projected := Projected(curve, main, PointOf(best.quote), side);
    var conditionals := Conditionals(projected);
    Describe(main, side, best.quote, best.settlement.win, best.settlement.push, best.settlement.loss, best.edge, best.ev,
             Greatest(conditionals) - Least(conditionals),
             CurveOutliers(main, conditionals, best.settlement.ConditionalWin(), policy.outlierThreshold),
             WinChances(projected), policy)
  }

  predicate NeverResolves(s: Settlement) {
    s.win + s.loss == 0.0
  }

  /** A market raises when a book's no-vig chance is not inside (0, 1), or its projection of the line never resolves. */
  predicate Priceable(curve: Curve, main: seq<Pair>)
    requires curve.sampleSize >= 1 && main != []
  {
    var (one, other) := ExpectedSides(main[0].first.market);
    && (forall p <- main :: 0.0 < p.firstProbability < 1.0)
    && (forall s <- Projected(curve, main, PointOf(BestPriced(curve, main, one).quote), one) :: !NeverResolves(s))
    && (forall s <- Projected(curve, main, PointOf(BestPriced(curve, main, other).quote), other) :: !NeverResolves(s))
  }

  // ----- All markets -----

  datatype MarketKey = MarketKey(eventId: nat, market: MarketType, period: string)

  function MarketKeyOf(p: Pair): MarketKey {
    MarketKey(p.first.eventId, p.first.market, p.first.period)
  }

  predicate Sampled(curves: Curves) {
    curves.spread.sampleSize >= 1 && curves.total.sampleSize >= 1
  }

  predicate MarketPriceable(curves: Curves, policy: PricingPolicy, pairs: seq<Pair>)
    requires Sampled(curves)
  {
    var main := OneMain(pairs);
    |main| < policy.minimumBooks || main == [] || main[0].first.market == Moneyline || Priceable(CurveFor(curves, main[0].first.market), main)
  }

  /** The two sides of one market, home or over first. */
  function MarketOpportunities(curves: Curves, policy: PricingPolicy, pairs: seq<Pair>): seq<Opportunity>
    requires Sampled(curves)
  {
    var main := OneMain(pairs);
    if |main| < policy.minimumBooks || main == [] then []
    else
      var market := main[0].first.market;
      var (one, other) := ExpectedSides(market);
      if market == Moneyline then [MoneylineOpportunity(main, one, policy), MoneylineOpportunity(main, other, policy)]
      else [CurveOpportunity(CurveFor(curves, market), main, one, policy), CurveOpportunity(CurveFor(curves, market), main, other, policy)]
  }

  function CandidatesOf(curves: Curves, policy: PricingPolicy): seq<Pair> -> seq<Opportunity> {
    (pairs: seq<Pair>) => if Sampled(curves) then MarketOpportunities(curves, policy, pairs) else []
  }

  predicate AllPriceable(curves: Curves, policy: PricingPolicy, pairs: seq<Pair>)
    requires Sampled(curves)
  {
    var ks := FirstKeys(pairs, MarketKeyOf);
    forall i :: 0 <= i < |ks| ==> MarketPriceable(curves, policy, Members(pairs, MarketKeyOf, ks[i]))
  }

  function MarketRank(m: MarketType): real {
    match m
    case Moneyline => 0.0
    case SpreadMarket => 1.0
    case TotalMarket => 2.0
  }

  function SideRank(s: Side): real {
    match s
    case Away => 0.0
    case Home => 1.0
    case Over => 2.0
    case Under => 3.0
  }

  /** Highest EV first, then depth, agreement, start, and the market's name. */
  function OpportunityKey(o: Opportunity): seq<real> {
    [-o.ev, -(o.books as real), o.dispersion, o.scheduledStart as real, o.eventId as real, MarketRank(o.market), SideRank(o.side),
     PointOf(o.best)]
  }

  function Passed(): Opportunity -> bool {
    (o: Opportunity) => o.failures == []
  }

  function LeagueOf(o: Opportunity): string {
    o.league
  }

  /** The first n of each league, in order. */
  function TopNByLeague(opportunities: seq<Opportunity>, n: nat): seq<Opportunity> {
    FirstPerKey(opportunities, LeagueOf, n)
  }

  /** Specification of the analysis of a set of observations at a cutoff. */
  function Analyze(rows: seq<Observation>, cutoff: int, policy: PricingPolicy, curves: Curves, topN: int): Result<Analysis, AnalysisError>
    requires Sampled(curves)
  {
    if topN < 1 then Err(BadTopN)
    else
      var pairs := Pairs(Usable(rows, cutoff, policy));
      if !AllPriceable(curves, policy, pairs) then Err(Unpriceable)
      else
        var found := OverGroups(pairs, MarketKeyOf, CandidatesOf(curves, policy));
        var qualified := SortBy(ByKey(OpportunityKey), Where(found, Passed()));
        Ok(Analysis(SortBy(ByKey(OpportunityKey), found), qualified, TopNByLeague(qualified, topN)))
  }

  // ----- The analysis as it runs -----

  method SelectTopN(opportunities: seq<Opportunity>, n: nat) returns (selected: seq<Opportunity>)
    ensures selected == TopNByLeague(opportunities, n)
  {
    hide Members;
    selected := [];
    var counts: map<string, nat> := map[];
    forall league ensures Members(selected, LeagueOf, league) == [] { NothingFirst(selected, LeagueOf, n, league); }
    for i := 0 to |opportunities|
      invariant selected == FirstPerKey(opportunities[..i], LeagueOf, n)
      invariant forall league <- counts :: counts[league] == |Members(selected, LeagueOf, league)|
      invariant forall league :: league !in counts ==> Members(selected, LeagueOf, league) == []
    {
      assert opportunities[..i + 1][..i] == opportunities[..i];
      var opportunity := opportunities[i];
      var count := if opportunity.league in counts then counts[opportunity.league] else 0;
      if count >= n {
        continue;
      }
      forall league
        ensures Members(selected + [opportunity], LeagueOf, league)
                == if opportunity.league == league then Members(selected, LeagueOf, league) + [opportunity] else Members(selected, LeagueOf, league)
      {
        MembersAppend(selected, opportunity, LeagueOf, league);
      }
      selected := selected + [opportunity];
      counts := counts[opportunity.league := count + 1];
    }
    assert opportunities[..|opportunities|] == opportunities;
  }

  lemma NothingFound(g: MarketKey -> seq<Opportunity>)
    ensures Flat([], g) == [] && Where([], Passed()) == []
  {
  }

  /** The loop over the markets; it stops at one that cannot be priced. */
  method BuildOpportunities(pairs: seq<Pair>, curves: Curves, policy: PricingPolicy)
    returns (found: seq<Opportunity>, qualified: seq<Opportunity>, priceable: bool)
    requires Sampled(curves)
    ensures priceable <==> AllPriceable(curves, policy, pairs)
    ensures priceable ==> found == OverGroups(pairs, MarketKeyOf, CandidatesOf(curves, policy))
    ensures priceable ==> qualified == Where(found, Passed())
  {
    hide MarketOpportunities, MarketPriceable, Flat, Where, Members, FirstKeys;
    var groups := GroupInOrder(pairs, MarketKeyOf);
    ghost var ks, g := FirstKeys(pairs, MarketKeyOf), OnMembers(pairs, MarketKeyOf, CandidatesOf(curves, policy));
    found, qualified := [], [];
    assert Flat(ks[..0], g) == [] && Where(found, Passed()) == [] by { NothingFound(g); }
    for i := 0 to |groups|
      invariant found == Flat(ks[..i], g) && qualified == Where(found, Passed())
      invariant forall j :: 0 <= j < i ==> MarketPriceable(curves, policy, Members(pairs, MarketKeyOf, ks[j]))
    {
      assert ks[..i + 1] == ks[..i] + [ks[i]] && groups[i] == Members(pairs, MarketKeyOf, ks[i]);
      FlatLast(ks[..i], ks[i], g);
      if !MarketPriceable(curves, policy, groups[i]) {
        priceable := false;
        return;
      }
      var more := MarketOpportunities(curves, policy, groups[i]);
      WhereConcat(found, more, Passed());
      found := found + more;
      qualified := qualified + Where(more, Passed());
    }
    assert ks[..|groups|] == ks;
    priceable := true;
  }

  method BuildPricingAnalysis(rows: seq<Observation>, cutoff: int, policy: PricingPolicy, curves: Curves, topN: int)
    returns (r: Result<Analysis, AnalysisError>)
    requires Sampled(curves)
    ensures r == Analyze(rows, cutoff, policy, curves, topN)
  {
    hide AllPriceable, SortBy, Pairs, LatestStates;
    if topN < 1 {
      return Err(BadTopN);
    }
    var latest := SelectLatest(Where(rows, Known(cutoff)));
    var pairs := PairBookMarkets(Where(latest, Eligible(cutoff, policy)));
    var found, qualified, priceable := BuildOpportunities(pairs, curves, policy);
    if !priceable {
      return Err(Unpriceable);
    }
    var candidates := SortBy(ByKey(OpportunityKey), found);
    var ordered := SortBy(ByKey(OpportunityKey), qualified);
    var opportunities := SelectTopN(ordered, topN);
    return Ok(Analysis(candidates, ordered, opportunities));
  }
}
