/** From a priced opportunity to a candidate for the portfolio: qualification, edge and expected value. */
module CandidateEvaluation {
  import opened Wrappers
  import opened Numbers
  import opened Pricing
  import opened Kelly
  import opened Observations
  import opened Consensus
  import opened OpportunityResults
  import Engine = PortfolioEngine

  datatype Uncertainty = Low | Moderate | High | Unrated

  /** A fair-value quote; the eligibility of its model's status is decided elsewhere. */
  datatype FairValue = FairValue(
    eventId: nat,
    market: MarketType,
    side: MarketCurve.Side,
    point: Option<real>,
    statusEligible: bool,
    probability: Option<real>,
    push: Option<real>,
    books: nat,
    dispersion: Option<real>,
    asOf: int,
    uncertainty: Uncertainty,
    hash: nat)

  datatype QualificationPolicy = QualificationPolicy(
    minimumEv: real,
    minimumEdge: real,
    maximumDispersion: real,
    minimumBooks: nat,
    maximumAgeSeconds: int,
    coreMinimumEv: real,
    coreMinimumEdge: real,
    maximumPositiveOdds: int)
  {
    predicate Valid() {
      && 0.0 <= minimumEv <= coreMinimumEv && 0.0 <= minimumEdge <= coreMinimumEdge <= 1.0
      && 0.0 <= maximumDispersion <= 1.0 && minimumBooks >= 2 && maximumAgeSeconds > 0 && maximumPositiveOdds >= 100
    }
  }

  datatype Reason =
    | EventMismatch
    | MarketMismatch
    | PointMismatch
    | StatusNotEligible
    | ProbabilityUnavailable
    | InsufficientDepth
    | DispersionTooHigh
    | StaleOrFuture
    | InvalidMass
    | EdgeTooSmall
    | EvTooSmall
    | OffTheMainBoard

  datatype EvaluationError = NotProbability | MassAboveOne

  datatype Evaluation = Evaluation(candidate: Engine.Candidate, reasons: seq<Reason>)

  function OrZero(v: Option<real>): real {
    if v.Some? then v.value else 0.0
  }

  function MarketName(m: MarketType): string {
    match m
    case Moneyline => "moneyline"
    case SpreadMarket => "spread"
    case TotalMarket => "total"
  }

  function SideName(s: MarketCurve.Side): string {
    match s
    case Home => "home"
    case Away => "away"
    case Over => "over"
    case Under => "under"
  }

  function When(condition: bool, reason: Reason): seq<Reason> {
    if condition then [reason] else []
  }

  function QuoteReasons(fv: FairValue, x: Opportunity, policy: QualificationPolicy, asOf: int): seq<Reason> {
    When(fv.eventId != x.eventId, EventMismatch)
    + When(fv.market != x.market || fv.side != x.side, MarketMismatch)
    + When(fv.point != x.best.point, PointMismatch)
    + When(!fv.statusEligible, StatusNotEligible)
    + When(fv.probability.None?, ProbabilityUnavailable)
    + When(fv.books < policy.minimumBooks, InsufficientDepth)
    + When(fv.dispersion.None? || fv.dispersion.value > policy.maximumDispersion, DispersionTooHigh)
    + When(asOf < fv.asOf || asOf - fv.asOf > policy.maximumAgeSeconds * 1000000, StaleOrFuture)
  }

  /** The edge of a valid pair of chances: plain when nothing pushes, push-aware otherwise. */
  function EdgeOf(win: real, push: real, implied: real): Result<real, EvaluationError> {
    if push == 0.0 then (if Probability(win) then Ok(win - implied) else Err(NotProbability))
    else if !Probability(win) || !Probability(push) then Err(NotProbability)
    else if 1.0 - win - push < 0.0 then Err(MassAboveOne)
    else Ok(ProbabilityEdgeWithPush(win, push, implied))
  }

  function ExpectedValueOf(win: real, loss: real, odds: real): Result<real, EvaluationError> {
    if !Probability(win) || !Probability(loss) then Err(NotProbability)
    else if win + loss > 1.0 then Err(MassAboveOne)
    else Ok(ExpectedValueWithPush(win, loss, odds))
  }

  function QualityMultiplier(u: Uncertainty): real {
    match u
    case Low => 1.0
    case Moderate => 0.75
    case High => 0.40
    case Unrated => 0.60
  }

  function IntegrityRank(x: Opportunity): nat {
    if x.best.sportsbookKey in x.outliers then 2 else if x.outliers != [] then 1 else 0
  }

  function Evaluate(fv: FairValue, x: Opportunity, policy: QualificationPolicy, asOf: int): Result<Evaluation, EvaluationError> {
    var win, push := OrZero(fv.probability), OrZero(fv.push);
    var tooMuch := win + push > 1.0;
    var loss := if tooMuch then 0.0 else 1.0 - win - push;
    var odds, implied := DecimalOdds(x.best.americanOdds), ImpliedProbability(x.best.americanOdds);
    match EdgeOf(win, push, implied)
    case Err(e) => Err(e)
    case Ok(edge) =>
      match ExpectedValueOf(win, loss, odds)
      case Err(e) => Err(e)
      case Ok(ev) =>
        var reasons := QuoteReasons(fv, x, policy, asOf) + When(tooMuch, InvalidMass) + When(edge < policy.minimumEdge, EdgeTooSmall)
                       + When(ev < policy.minimumEv, EvTooSmall)
                       + When(x.best.americanOdds > policy.maximumPositiveOdds, OffTheMainBoard);
        var core := ev >= policy.coreMinimumEv && edge >= policy.coreMinimumEdge && fv.uncertainty != High;
        var classification := if reasons != [] then None else if core then Some(Engine.Core) else Some(Engine.Opportunistic);
        Ok(Evaluation(
          Engine.Candidate(fv.hash, Digits(x.eventId), x.homeTeam, x.awayTeam, MarketName(x.market), SideName(x.side), odds, implied,
                           win, push, edge, ev, classification, reasons == [], QualityMultiplier(fv.uncertainty),
                           x.bookProbabilities, x.sourceIds, IntegrityRank(x), x.books, x.dispersion, x.scheduledStart, 0.0, 0.0, 0.0),
          reasons))
  }

  // ----- What an evaluation guarantees -----

  /** A mass above one is never reported: computing the edge refuses it first. */
  lemma ExcessMassIsNeverReported(fv: FairValue, x: Opportunity, policy: QualificationPolicy, asOf: int)
    requires Evaluate(fv, x, policy, asOf).Ok?
    ensures InvalidMass !in Evaluate(fv, x, policy, asOf).value.reasons
    ensures Mass(OrZero(fv.probability), OrZero(fv.push)) || OrZero(fv.push) == 0.0
    ensures Probability(OrZero(fv.probability)) && OrZero(fv.probability) + OrZero(fv.push) <= 1.0
  {
    hide DecimalOdds, ImpliedProbability, ProbabilityEdgeWithPush, ExpectedValueWithPush, Digits;
  }

  /** A qualified candidate is what the engine relies on. */
  lemma QualifiedIsWellFormed(fv: FairValue, x: Opportunity, policy: QualificationPolicy, asOf: int)
    requires Evaluate(fv, x, policy, asOf).Ok? && forall p <- x.bookProbabilities :: Probability(p)
    ensures Evaluate(fv, x, policy, asOf).value.candidate.WellFormed()
  {
    hide ImpliedProbability, ProbabilityEdgeWithPush, ExpectedValueWithPush, QuoteReasons, Digits;
  }

  lemma QualifiedPasses(fv: FairValue, x: Opportunity, policy: QualificationPolicy, asOf: int)
    requires Evaluate(fv, x, policy, asOf).Ok? && Evaluate(fv, x, policy, asOf).value.candidate.qualified
    ensures var c := Evaluate(fv, x, policy, asOf).value.candidate;
            && Mass(c.winProbability, c.pushProbability)
            && c.evPerUnit == ExpectedValueWithPush(c.winProbability, 1.0 - c.winProbability - c.pushProbability, c.decimalOdds)
            && c.evPerUnit >= policy.minimumEv && c.decimalOdds > 1.0
  {
    hide ImpliedProbability, ProbabilityEdgeWithPush, ExpectedValueWithPush, QuoteReasons, Digits;
  }

  /** With a positive EV threshold, every qualified candidate has a positive Kelly fraction and a positive edge. */
  lemma QualifiedIsWorthStaking(fv: FairValue, x: Opportunity, policy: QualificationPolicy, asOf: int)
    requires Evaluate(fv, x, policy, asOf).Ok? && Evaluate(fv, x, policy, asOf).value.candidate.qualified
    requires policy.minimumEv > 0.0 && forall p <- x.bookProbabilities :: Probability(p)
    ensures var c := Evaluate(fv, x, policy, asOf).value.candidate;
            && c.WellFormed() && Engine.RawKelly(c) > 0.0
            && ProbabilityEdgeWithPush(c.winProbability, c.pushProbability, 1.0 / c.decimalOdds) > 0.0
  {
    QualifiedIsWellFormed(fv, x, policy, asOf);
    QualifiedPasses(fv, x, policy, asOf);
    var c := Evaluate(fv, x, policy, asOf).value.candidate;
    hide Evaluate, KellyFraction, ExpectedValueWithPush, ProbabilityEdgeWithPush;
    KellyPositiveIffEdge(c.winProbability, c.pushProbability, c.decimalOdds);
  }

  // ----- End to end -----

  /** The quote carries the opportunity's own fair chances; a moneyline quote leaves the push out. */
  predicate QuotesOpportunity(fv: FairValue, x: Opportunity) {
    fv.probability == Some(x.fair) && OrZero(fv.push) == x.push
  }

  lemma RankedBelowConsensus(ln: real -> real, c: Engine.Candidate, snapshot: Engine.Snapshot, state: Engine.PortfolioState,
                             risk: Engine.RiskPolicy)
    requires IsLogarithm(ln) && risk.Valid() && c.qualified && c.WellFormed()
    requires exists p :: p in c.bookProbabilities && p <= c.winProbability
    ensures var ranked := Engine.WithRanking(ln, c, snapshot, state, risk);
            ranked.rankingScore <= ranked.expectedLogGrowth && ranked.expectedLogGrowth >= 0.0
  {
    hide LogGrowth, KellyFraction, Engine.RankingFraction, Engine.RobustGrowth, IsLogarithm;
    if snapshot.equity > 0.0 {
      Engine.RankedGrowthNonnegative(ln, c, snapshot, state, risk);
      Engine.RankingFractionRange(c, snapshot, state, risk);
      var p :| p in c.bookProbabilities && p <= c.winProbability;
      var i :| 0 <= i < |c.bookProbabilities| && c.bookProbabilities[i] == p;
      Engine.RobustGrowthBelowConsensus(ln, c, Engine.RankingFraction(c, snapshot, state, risk), i);
    }
  }

  /** From observations to ranking: the worst book's growth never exceeds the consensus growth, which is never negative. */
  lemma RobustNeverExceedsConsensus(ln: real -> real, rows: seq<Observation>, cutoff: int, pricing: PricingPolicy, curves: Curves,
                                    topN: int, x: Opportunity, fv: FairValue, policy: QualificationPolicy, asOf: int,
                                    snapshot: Engine.Snapshot, state: Engine.PortfolioState, risk: Engine.RiskPolicy)
    requires IsLogarithm(ln) && curves.Valid() && risk.Valid()
    requires Analyze(rows, cutoff, pricing, curves, topN).Ok? && x in Analyze(rows, cutoff, pricing, curves, topN).value.candidates
    requires QuotesOpportunity(fv, x) && Evaluate(fv, x, policy, asOf).Ok? && Evaluate(fv, x, policy, asOf).value.candidate.qualified
    ensures var c := Evaluate(fv, x, policy, asOf).value.candidate;
            && c.WellFormed()
            && var ranked := Engine.WithRanking(ln, c, snapshot, state, risk);
               ranked.rankingScore <= ranked.expectedLogGrowth && ranked.expectedLogGrowth >= 0.0
  {
    EveryCandidateHasBookBelow(rows, cutoff, pricing, curves, topN, x);
    hide Analyze;
    QualifiedIsWellFormed(fv, x, policy, asOf);
    var c := Evaluate(fv, x, policy, asOf).value.candidate;
    CandidateKeepsChances(fv, x, policy, asOf);
    hide Evaluate, Engine.WithRanking, IsLogarithm;
    RankedBelowConsensus(ln, c, snapshot, state, risk);
  }

  lemma CandidateKeepsChances(fv: FairValue, x: Opportunity, policy: QualificationPolicy, asOf: int)
    requires QuotesOpportunity(fv, x) && Evaluate(fv, x, policy, asOf).Ok?
    ensures var c := Evaluate(fv, x, policy, asOf).value.candidate;
            c.winProbability == x.fair && c.pushProbability == x.push && c.bookProbabilities == x.bookProbabilities && c.decimalOdds > 1.0
  {
    hide ImpliedProbability, ProbabilityEdgeWithPush, ExpectedValueWithPush, QuoteReasons, Digits;
  }

  /** A candidate of the pipeline, quoted with its own chances, is never refused by the evaluation. */
  lemma PipelineQuotesEvaluate(rows: seq<Observation>, cutoff: int, pricing: PricingPolicy, curves: Curves, topN: int, x: Opportunity,
                               fv: FairValue, policy: QualificationPolicy, asOf: int)
    requires curves.Valid() && Analyze(rows, cutoff, pricing, curves, topN).Ok?
    requires x in Analyze(rows, cutoff, pricing, curves, topN).value.candidates && QuotesOpportunity(fv, x)
    ensures Evaluate(fv, x, policy, asOf).Ok?
  {
    EveryCandidateHasBookBelow(rows, cutoff, pricing, curves, topN, x);
    hide Analyze, ImpliedProbability, ProbabilityEdgeWithPush, ExpectedValueWithPush, QuoteReasons, Digits;
  }
}
