/** The portfolio engine: ranked greedy allocation under simultaneous caps, and the optional parlay on top of it. */
module PortfolioEngine {
  import opened Wrappers
  import opened Numbers
  import opened Ordering
  import opened Kelly

  // ----- Policies and state -----

  datatype PortfolioState = Normal | ReducedRisk | Paused

  datatype PositionClass = Core | Opportunistic

  datatype BetKind = Straight | Parlay

  datatype GameResult = Win | Loss | Push

  datatype RiskPolicy = RiskPolicy(
    kellyFraction: real,
    minimumStake: real,
    maximumStake: real,
    maximumCoreBetFraction: real,
    maximumOpportunisticBetFraction: real,
    maximumDailyFraction: real,
    maximumGameFraction: real,
    maximumTeamFraction: real,
    maximumMarketFraction: real,
    maximumCorrelatedFraction: real,
    opportunisticMultiplier: real,
    reducedRiskMultiplier: real,
    reducedRiskDrawdown: real,
    pausedDrawdown: real,
    bankrollFloorFractionOfStart: real,
    unitFraction: real)
  {
    predicate Valid() {
      && 0.0 <= kellyFraction < 1.0
      && 0.0 < minimumStake <= maximumStake
      && 0.0 <= maximumCoreBetFraction <= 1.0 && 0.0 <= maximumOpportunisticBetFraction <= 1.0
      && 0.0 <= maximumDailyFraction <= 1.0 && 0.0 <= maximumGameFraction <= 1.0
      && 0.0 <= maximumTeamFraction <= 1.0 && 0.0 <= maximumMarketFraction <= 1.0
      && 0.0 <= maximumCorrelatedFraction <= 1.0
      && 0.0 <= opportunisticMultiplier <= 1.0 && 0.0 <= reducedRiskMultiplier <= 1.0
      && 0.0 <= reducedRiskDrawdown < pausedDrawdown <= 1.0
      && 0.0 <= bankrollFloorFractionOfStart <= 1.0 && 0.0 <= unitFraction <= 1.0
    }
  }

  datatype ParlayPolicy = ParlayPolicy(
    enabled: bool,
    minimumJointEv: real,
    kellyFraction: real,
    maximumParlayFraction: real,
    maximumDailyParlayFraction: real,
    duplicateExposurePenalty: real)
  {
    predicate Valid() {
      && minimumJointEv >= 0.0 && duplicateExposurePenalty >= 0.0
      && 0.0 <= kellyFraction < 1.0
      && 0.0 <= maximumParlayFraction <= 0.0075
      && maximumParlayFraction <= maximumDailyParlayFraction
    }
  }

  const DEFAULT_RISK := RiskPolicy(0.25, 1.0, 50.0, 0.02, 0.01, 0.08, 0.04, 0.05, 0.05, 0.04, 0.60, 0.50, 0.10, 0.20, 0.50, 0.04)
  const DEFAULT_PARLAY := ParlayPolicy(true, 0.05, 0.10, 0.005, 0.01, 0.25)

  const MINIMUM_LEGS := 2
  const MAXIMUM_LEGS := 3

  datatype OpenExposure = OpenExposure(
    eventId: string,
    teams: seq<string>,
    marketType: string,
    side: string,
    stake: real,
    kind: BetKind,
    slateDate: Option<int>)

  datatype Snapshot = Snapshot(
    slateDate: int,
    startingBankroll: real,
    cash: real,
    equity: real,
    peakEquity: real,
    openExposures: seq<OpenExposure>)
  {
    function DrawdownFraction(): real {
      if peakEquity <= 0.0 then 0.0 else Max(0.0, Ratio(peakEquity - equity, peakEquity))
    }
  }

  function StateOf(snapshot: Snapshot, policy: RiskPolicy): PortfolioState {
    var floor := Prod(snapshot.startingBankroll, policy.bankrollFloorFractionOfStart);
    if snapshot.equity <= floor || snapshot.DrawdownFraction() >= policy.pausedDrawdown then Paused
    else if snapshot.DrawdownFraction() >= policy.reducedRiskDrawdown then ReducedRisk
    else Normal
  }

  // ----- Candidates -----

  datatype Candidate = Candidate(
    candidateId: nat,
    eventId: string,
    homeTeam: string,
    awayTeam: string,
    marketType: string,
    side: string,
    decimalOdds: real,
    impliedProbability: real,
    winProbability: real,
    pushProbability: real,
    edge: real,
    evPerUnit: real,
    classification: Option<PositionClass>,
    qualified: bool,
    qualityMultiplier: real,
    bookProbabilities: seq<real>,
    sourceObservationIds: set<nat>,
    integrityRank: nat,
    booksContributing: nat,
    consensusDispersion: real,
    scheduledStart: int,
    rankingKellyFraction: real,
    expectedLogGrowth: real,
    rankingScore: real)
  {
    /** What the evaluation of a candidate guarantees once it calls it qualified. */
    predicate WellFormed() {
      qualified ==>
        && Mass(winProbability, pushProbability) && decimalOdds > 1.0
        && 0.0 <= qualityMultiplier <= 1.0
        && (forall p <- bookProbabilities :: Probability(p))
    }
  }

  datatype CapName = PerBet | FixedMaximum | AvailableCash | DailyCap | GameCap | TeamCap | MarketCap | CorrelatedCap

  datatype Recommendation = Recommendation(
    candidate: Candidate,
    stake: real,
    rawKelly: real,
    adjustedKelly: real,
    limitedBy: Option<CapName>)

  datatype Blocker = PortfolioPaused | OpposingPosition | BelowMinimumStake

  datatype NonActionable = NonActionable(candidate: Candidate, calculatedStake: real, blocker: Blocker)

  datatype Sizing = Sized(recommendation: Recommendation) | Declined(declined: NonActionable)

  // ----- Exposure, by the dimension a cap looks at -----

  datatype Dimension =
    | Daily(date: int)
    | ParlaySleeve(date: int)
    | Game(eventId: string)
    | Correlated(eventId: string)
    | Team(team: string)
    | MarketKind(marketType: string)

  predicate Touches(e: OpenExposure, d: Dimension) {
    match d
    case Daily(date) => e.slateDate == Some(date)
    case ParlaySleeve(date) => e.kind == Parlay && e.slateDate == Some(date)
    case Game(id) => e.eventId == id
    case Correlated(id) => e.eventId == id
    case Team(team) => team in e.teams
    case MarketKind(m) => e.marketType == m
  }

  function ExposureSum(exposures: seq<OpenExposure>, d: Dimension): real {
    if exposures == [] then 0.0
    else (if Touches(exposures[0], d) then exposures[0].stake else 0.0) + ExposureSum(exposures[1..], d)
  }

  lemma {:induction false} ExposureSumConcat(a: seq<OpenExposure>, b: seq<OpenExposure>, d: Dimension)
    ensures ExposureSum(a + b, d) == ExposureSum(a, d) + ExposureSum(b, d)
  {
    if a == [] {
      assert a + b == b;
    } else {
      assert (a + b)[1..] == a[1..] + b;
      ExposureSumConcat(a[1..], b, d);
    }
  }

  /** The share of equity that a dimension may carry; the sleeve belongs to the parlay policy. */
  function CapFraction(risk: RiskPolicy, parlay: ParlayPolicy, d: Dimension): real {
    match d
    case Daily(_) => risk.maximumDailyFraction
    case ParlaySleeve(_) => parlay.maximumDailyParlayFraction
    case Game(_) => risk.maximumGameFraction
    case Correlated(_) => risk.maximumCorrelatedFraction
    case Team(_) => risk.maximumTeamFraction
    case MarketKind(_) => risk.maximumMarketFraction
  }

  function StraightExposure(r: Recommendation, date: int): OpenExposure {
    OpenExposure(r.candidate.eventId, [r.candidate.homeTeam, r.candidate.awayTeam], r.candidate.marketType,
                 r.candidate.side, r.stake, Straight, Some(date))
  }

  function StraightExposures(recs: seq<Recommendation>, date: int): seq<OpenExposure> {
    seq(|recs|, i requires 0 <= i < |recs| => StraightExposure(recs[i], date))
  }

  /** Everything the engine counts against the caps while it chooses. */
  function AllExposures(snapshot: Snapshot, recs: seq<Recommendation>): seq<OpenExposure> {
    snapshot.openExposures + StraightExposures(recs, snapshot.slateDate)
  }

  function TotalStake(recs: seq<Recommendation>): real {
    if recs == [] then 0.0 else recs[0].stake + TotalStake(recs[1..])
  }

  lemma {:induction false} TotalStakeAppend(recs: seq<Recommendation>, r: Recommendation)
    ensures TotalStake(recs + [r]) == TotalStake(recs) + r.stake
  {
    if recs == [] {
      assert recs + [r] == [r];
    } else {
      assert (recs + [r])[1..] == recs[1..] + [r];
      TotalStakeAppend(recs[1..], r);
    }
  }

  lemma AllExposuresAppend(snapshot: Snapshot, recs: seq<Recommendation>, r: Recommendation, d: Dimension)
    ensures AllExposures(snapshot, recs + [r]) == AllExposures(snapshot, recs) + [StraightExposure(r, snapshot.slateDate)]
    ensures ExposureSum(AllExposures(snapshot, recs + [r]), d)
            == ExposureSum(AllExposures(snapshot, recs), d)
               + (if Touches(StraightExposure(r, snapshot.slateDate), d) then r.stake else 0.0)
  {
    ExposureSumConcat(AllExposures(snapshot, recs), [StraightExposure(r, snapshot.slateDate)], d);
  }

  // ----- Kelly allocation and ranking -----

  function RiskMultiplier(c: Candidate, state: PortfolioState, policy: RiskPolicy): real {
    var afterClass := if c.classification == Some(Opportunistic) then Prod(c.qualityMultiplier, policy.opportunisticMultiplier)
                      else c.qualityMultiplier;
    if state == ReducedRisk then Prod(afterClass, policy.reducedRiskMultiplier) else afterClass
  }

  function RawKelly(c: Candidate): real
    requires c.qualified && c.WellFormed()
  {
    KellyFraction(c.winProbability, c.pushProbability, c.decimalOdds)
  }

  function AdjustedKelly(c: Candidate, state: PortfolioState, policy: RiskPolicy): real
    requires c.qualified && c.WellFormed()
  {
    Prod(Prod(RawKelly(c), policy.kellyFraction), RiskMultiplier(c, state, policy))
  }

  function PerBetFraction(c: Candidate, policy: RiskPolicy): real {
    if c.classification == Some(Core) then policy.maximumCoreBetFraction else policy.maximumOpportunisticBetFraction
  }

  function MinOf(s: seq<real>): (m: real)
    requires s != []
    ensures m in s && forall x <- s :: m <= x
  {
    if |s| == 1 then s[0] else
      var rest := MinOf(s[1..]);
      assert forall x <- s :: x == s[0] || x in s[1..];
      if rest < s[0] then rest else s[0]
  }

  /** What is left of a cap, as a share of equity. */
  function FractionLeft(snapshot: Snapshot, fraction: real, d: Dimension): real
    requires snapshot.equity > 0.0
  {
    fraction - Ratio(ExposureSum(snapshot.openExposures, d), snapshot.equity)
  }

  /** The adjusted Kelly fraction cut by every cap as it stands before anything is chosen. */
  function RankingFraction(c: Candidate, snapshot: Snapshot, state: PortfolioState, policy: RiskPolicy): real
    requires c.qualified && c.WellFormed() && snapshot.equity > 0.0
  {
    Max(0.0, MinOf([
      AdjustedKelly(c, state, policy),
      PerBetFraction(c, policy),
      Ratio(policy.maximumStake, snapshot.equity),
      Ratio(snapshot.cash, snapshot.equity),
      FractionLeft(snapshot, policy.maximumDailyFraction, Daily(snapshot.slateDate)),
      FractionLeft(snapshot, policy.maximumGameFraction, Game(c.eventId)),
      Min(FractionLeft(snapshot, policy.maximumTeamFraction, Team(c.homeTeam)),
          FractionLeft(snapshot, policy.maximumTeamFraction, Team(c.awayTeam))),
      FractionLeft(snapshot, policy.maximumMarketFraction, MarketKind(c.marketType)),
      FractionLeft(snapshot, policy.maximumCorrelatedFraction, Correlated(c.eventId))]))
  }

  /** The worst growth among the books' own views of the candidate; the consensus growth when there is no book. */
  function RobustGrowth(ln: real -> real, c: Candidate, fraction: real): real {
    if c.bookProbabilities == [] then LogGrowth(ln, c.winProbability, c.pushProbability, c.decimalOdds, fraction)
    else MinOf(BookGrowths(ln, c, fraction))
  }

  function BookGrowths(ln: real -> real, c: Candidate, fraction: real): (r: seq<real>)
    ensures |r| == |c.bookProbabilities|
  {
    seq(|c.bookProbabilities|, i requires 0 <= i < |c.bookProbabilities| =>
      LogGrowth(ln, Min(c.bookProbabilities[i], 1.0 - c.pushProbability), c.pushProbability, c.decimalOdds, fraction))
  }

  function WithRanking(ln: real -> real, c: Candidate, snapshot: Snapshot, state: PortfolioState, policy: RiskPolicy): Candidate
    requires c.qualified && c.WellFormed()
  {
    if snapshot.equity <= 0.0 then c.(rankingKellyFraction := 0.0, expectedLogGrowth := 0.0, rankingScore := 0.0)
    else
      var fraction := RankingFraction(c, snapshot, state, policy);
      c.(rankingKellyFraction := fraction,
         expectedLogGrowth := LogGrowth(ln, c.winProbability, c.pushProbability, c.decimalOdds, fraction),
         rankingScore := RobustGrowth(ln, c, fraction))
  }

  /** Highest score first, then growth, fraction, quote integrity, depth and the rest of the tie-breaks. */
  function RankKey(c: Candidate): seq<real> {
    [-c.rankingScore, -c.expectedLogGrowth, -c.rankingKellyFraction, c.integrityRank as real,
     -(c.booksContributing as real), c.consensusDispersion, Abs(c.impliedProbability - 0.5), -c.evPerUnit, -c.edge,
     c.scheduledStart as real, c.candidateId as real]
  }

  ghost predicate AllWellFormed(candidates: seq<Candidate>) {
    forall c <- candidates :: c.WellFormed()
  }

  function RankedCandidates(ln: real -> real, candidates: seq<Candidate>, snapshot: Snapshot, state: PortfolioState,
                            policy: RiskPolicy): (r: seq<Candidate>)
    requires AllWellFormed(candidates)
    ensures AllWellFormed(r) && forall c <- r :: c.qualified
  {
    if candidates == [] then []
    else if candidates[0].qualified then
      assert candidates[0] in candidates;
      [WithRanking(ln, candidates[0], snapshot, state, policy)]
      + RankedCandidates(ln, candidates[1..], snapshot, state, policy)
    else RankedCandidates(ln, candidates[1..], snapshot, state, policy)
  }

  function QualifiedInOrder(ln: real -> real, candidates: seq<Candidate>, snapshot: Snapshot, state: PortfolioState,
                            policy: RiskPolicy): (r: seq<Candidate>)
    requires AllWellFormed(candidates)
    ensures AllWellFormed(r) && forall c <- r :: c.qualified
  {
    var ranked := RankedCandidates(ln, candidates, snapshot, state, policy);
    assert forall c <- SortBy(ByKey(RankKey), ranked) :: c in ranked by {
      forall c | c in SortBy(ByKey(RankKey), ranked) ensures c in ranked { SortMembers(ByKey(RankKey), ranked, c); }
    }
    SortBy(ByKey(RankKey), ranked)
  }

  // ----- Sizing one candidate -----

  predicate Opposes(e: OpenExposure, c: Candidate) {
    e.eventId == c.eventId && e.marketType == c.marketType && e.side != c.side
  }

  /** What is left of a cap in money. */
  function Room(snapshot: Snapshot, exposures: seq<OpenExposure>, fraction: real, d: Dimension): real {
    Prod(snapshot.equity, fraction) - ExposureSum(exposures, d)
  }

  function CapTable(c: Candidate, snapshot: Snapshot, selected: seq<Recommendation>, policy: RiskPolicy): seq<(CapName, real)> {
    var all := AllExposures(snapshot, selected);
    [(PerBet, Prod(snapshot.equity, PerBetFraction(c, policy))),
     (FixedMaximum, policy.maximumStake),
     (AvailableCash, snapshot.cash - TotalStake(selected)),
     (DailyCap, Room(snapshot, all, policy.maximumDailyFraction, Daily(snapshot.slateDate))),
     (GameCap, Room(snapshot, all, policy.maximumGameFraction, Game(c.eventId))),
     (TeamCap, Min(Room(snapshot, all, policy.maximumTeamFraction, Team(c.homeTeam)),
                   Room(snapshot, all, policy.maximumTeamFraction, Team(c.awayTeam)))),
     (MarketCap, Room(snapshot, all, policy.maximumMarketFraction, MarketKind(c.marketType))),
     (CorrelatedCap, Room(snapshot, all, policy.maximumCorrelatedFraction, Correlated(c.eventId)))]
  }

  /** The first cap with the least value. */
  function Tightest(caps: seq<(CapName, real)>): (r: (CapName, real))
    requires caps != []
    ensures r in caps && forall cap <- caps :: r.1 <= cap.1
  {
    if |caps| == 1 then caps[0] else
      var rest := Tightest(caps[1..]);
      assert forall cap <- caps :: cap == caps[0] || cap in caps[1..];
      if rest.1 < caps[0].1 then rest else caps[0]
  }

  function SizeCandidate(c: Candidate, snapshot: Snapshot, selected: seq<Recommendation>, state: PortfolioState,
                         policy: RiskPolicy): Sizing
    requires c.qualified && c.WellFormed()
  {
    if exists e :: e in AllExposures(snapshot, selected) && Opposes(e, c) then
      Declined(NonActionable(c, 0.0, OpposingPosition))
    else
      var adjusted := AdjustedKelly(c, state, policy);
      var tightest := Tightest(CapTable(c, snapshot, selected, policy));
      var target := Prod(snapshot.equity, adjusted);
      var stake := CutToCents(Max(0.0, Min(target, tightest.1)));
      if stake < policy.minimumStake then Declined(NonActionable(c, stake, BelowMinimumStake))
      else Sized(Recommendation(c, stake, RawKelly(c), adjusted,
                                if tightest.1 < target then Some(tightest.0) else None))
  }

  /** A sized stake is worth placing and fits under every cap. */
  lemma SizedFits(c: Candidate, snapshot: Snapshot, selected: seq<Recommendation>, state: PortfolioState, policy: RiskPolicy)
    requires c.qualified && c.WellFormed() && policy.Valid()
    requires SizeCandidate(c, snapshot, selected, state, policy).Sized?
    ensures var r := SizeCandidate(c, snapshot, selected, state, policy).recommendation;
            && r.candidate == c
            && policy.minimumStake <= r.stake <= policy.maximumStake
            && r.stake <= Prod(snapshot.equity, AdjustedKelly(c, state, policy))
            && r.stake <= Prod(snapshot.equity, PerBetFraction(c, policy))
            && r.stake <= snapshot.cash - TotalStake(selected)
            && (forall e <- AllExposures(snapshot, selected) :: !Opposes(e, c))
    ensures var r := SizeCandidate(c, snapshot, selected, state, policy).recommendation;
            var all := AllExposures(snapshot, selected);
            && r.stake <= Room(snapshot, all, policy.maximumDailyFraction, Daily(snapshot.slateDate))
            && r.stake <= Room(snapshot, all, policy.maximumGameFraction, Game(c.eventId))
            && r.stake <= Room(snapshot, all, policy.maximumCorrelatedFraction, Correlated(c.eventId))
            && r.stake <= Room(snapshot, all, policy.maximumMarketFraction, MarketKind(c.marketType))
            && r.stake <= Room(snapshot, all, policy.maximumTeamFraction, Team(c.homeTeam))
            && r.stake <= Room(snapshot, all, policy.maximumTeamFraction, Team(c.awayTeam))
  {
    hide Prod, AdjustedKelly, ExposureSum, CutToCents;
    var caps := CapTable(c, snapshot, selected, policy);
    var limit := Tightest(caps);
    CutToCentsBounds(Max(0.0, Min(Prod(snapshot.equity, AdjustedKelly(c, state, policy)), limit.1)));
    assert caps[0] in caps && caps[1] in caps && caps[2] in caps && caps[3] in caps;
    assert caps[4] in caps && caps[5] in caps && caps[6] in caps && caps[7] in caps;
  }

  // ----- The greedy selection -----

  datatype Selection = Selection(chosen: seq<Recommendation>, declined: seq<NonActionable>)

  /** One turn of the loop over the ranked candidates. */
  function Consider(c: Candidate, snapshot: Snapshot, so_far: Selection, state: PortfolioState, policy: RiskPolicy): Selection
    requires c.qualified && c.WellFormed()
  {
    match SizeCandidate(c, snapshot, so_far.chosen, state, policy)
    case Sized(r) => so_far.(chosen := so_far.chosen + [r])
    case Declined(d) => so_far.(declined := so_far.declined + [d])
  }

  function SelectFrom(ranked: seq<Candidate>, snapshot: Snapshot, so_far: Selection, topN: nat, state: PortfolioState,
                      policy: RiskPolicy): Selection
    requires AllWellFormed(ranked) && forall c <- ranked :: c.qualified
  {
    if ranked == [] || |so_far.chosen| >= topN then so_far
    else
      assert ranked[0] in ranked;
      SelectFrom(ranked[1..], snapshot, Consider(ranked[0], snapshot, so_far, state, policy), topN, state, policy)
  }

  /** The dimensions that straight positions are held to. */
  predicate StraightDimension(d: Dimension, date: int) {
    match d
    case Daily(on) => on == date
    case ParlaySleeve(_) => false
    case _ => true
  }

  /** No dimension ends above its cap, unless it stood above it before anything was chosen. */
  ghost predicate WithinCap(snapshot: Snapshot, exposures: seq<OpenExposure>, fraction: real, d: Dimension) {
    ExposureSum(exposures, d) <= Max(ExposureSum(snapshot.openExposures, d), Prod(snapshot.equity, fraction))
  }

  ghost predicate WithinCaps(snapshot: Snapshot, recs: seq<Recommendation>, risk: RiskPolicy, parlay: ParlayPolicy) {
    forall d: Dimension :: StraightDimension(d, snapshot.slateDate)
                           ==> WithinCap(snapshot, AllExposures(snapshot, recs), CapFraction(risk, parlay, d), d)
  }

  ghost predicate NoOpposites(snapshot: Snapshot, recs: seq<Recommendation>) {
    && (forall r, e :: r in recs && e in snapshot.openExposures ==> !Opposes(e, r.candidate))
    && (forall i, j :: 0 <= i < j < |recs| ==> !Opposes(StraightExposure(recs[i], snapshot.slateDate), recs[j].candidate))
  }

  ghost predicate SoundStakes(snapshot: Snapshot, recs: seq<Recommendation>, state: PortfolioState, policy: RiskPolicy) {
    && (forall r <- recs ::
          && r.candidate.qualified && r.candidate.WellFormed()
          && policy.minimumStake <= r.stake <= policy.maximumStake
          && r.stake <= Prod(snapshot.equity, AdjustedKelly(r.candidate, state, policy))
          && r.stake <= Prod(snapshot.equity, PerBetFraction(r.candidate, policy)))
    && (recs == [] || TotalStake(recs) <= snapshot.cash)
  }

  /** What the greedy loop keeps at every turn. */
  ghost predicate SoundSelection(snapshot: Snapshot, recs: seq<Recommendation>, topN: nat, state: PortfolioState,
                                 risk: RiskPolicy, parlay: ParlayPolicy) {
    && |recs| <= topN
    && SoundStakes(snapshot, recs, state, risk)
    && WithinCaps(snapshot, recs, risk, parlay)
    && NoOpposites(snapshot, recs)
  }

  lemma EmptySelectionSound(snapshot: Snapshot, topN: nat, state: PortfolioState, risk: RiskPolicy, parlay: ParlayPolicy)
    ensures SoundSelection(snapshot, [], topN, state, risk, parlay)
  {
    assert AllExposures(snapshot, []) == snapshot.openExposures;
  }

  lemma ChosenStaysWithinCaps(snapshot: Snapshot, recs: seq<Recommendation>, r: Recommendation, state: PortfolioState,
                              risk: RiskPolicy, parlay: ParlayPolicy)
    requires risk.Valid() && r.candidate.qualified && r.candidate.WellFormed()
    requires SizeCandidate(r.candidate, snapshot, recs, state, risk) == Sized(r)
    requires WithinCaps(snapshot, recs, risk, parlay)
    ensures WithinCaps(snapshot, recs + [r], risk, parlay)
  {
    hide Prod, AdjustedKelly, ExposureSum, SizeCandidate, AllExposures;
    SizedFits(r.candidate, snapshot, recs, state, risk);
    forall d: Dimension | StraightDimension(d, snapshot.slateDate)
      ensures WithinCap(snapshot, AllExposures(snapshot, recs + [r]), CapFraction(risk, parlay, d), d)
    {
      AllExposuresAppend(snapshot, recs, r, d);
      assert WithinCap(snapshot, AllExposures(snapshot, recs), CapFraction(risk, parlay, d), d);
    }
  }

  lemma ChosenHasNoOpposite(snapshot: Snapshot, recs: seq<Recommendation>, r: Recommendation)
    requires NoOpposites(snapshot, recs)
    requires forall e <- AllExposures(snapshot, recs) :: !Opposes(e, r.candidate)
    ensures NoOpposites(snapshot, recs + [r])
  {
    var grown := recs + [r];
    var date := snapshot.slateDate;
    forall i, j | 0 <= i < j < |grown| ensures !Opposes(StraightExposure(grown[i], date), grown[j].candidate) {
      if j == |recs| {
        assert StraightExposures(recs, date)[i] == StraightExposure(recs[i], date);
        assert AllExposures(snapshot, recs)[|snapshot.openExposures| + i] == StraightExposure(recs[i], date);
      }
    }
    forall x, e | x in grown && e in snapshot.openExposures ensures !Opposes(e, x.candidate) {
      if x !in recs { assert e in AllExposures(snapshot, recs); }
    }
  }

  lemma ChosenStakesSound(snapshot: Snapshot, recs: seq<Recommendation>, r: Recommendation, state: PortfolioState, policy: RiskPolicy)
    requires SoundStakes(snapshot, recs, state, policy) && r.candidate.qualified && r.candidate.WellFormed()
    requires policy.minimumStake <= r.stake <= policy.maximumStake && r.stake <= snapshot.cash - TotalStake(recs)
    requires r.stake <= Prod(snapshot.equity, AdjustedKelly(r.candidate, state, policy))
    requires r.stake <= Prod(snapshot.equity, PerBetFraction(r.candidate, policy))
    ensures SoundStakes(snapshot, recs + [r], state, policy)
  {
    hide Prod, AdjustedKelly, PerBetFraction, TotalStake;
    TotalStakeAppend(recs, r);
  }

  lemma ConsiderKeepsSound(c: Candidate, snapshot: Snapshot, so_far: Selection, topN: nat, state: PortfolioState,
                           risk: RiskPolicy, parlay: ParlayPolicy)
    requires c.qualified && c.WellFormed() && risk.Valid()
    requires SoundSelection(snapshot, so_far.chosen, topN, state, risk, parlay) && |so_far.chosen| < topN
    ensures SoundSelection(snapshot, Consider(c, snapshot, so_far, state, risk).chosen, topN, state, risk, parlay)
  {
    var sizing := SizeCandidate(c, snapshot, so_far.chosen, state, risk);
    if sizing.Sized? {
      hide Prod, AdjustedKelly, PerBetFraction, TotalStake, ExposureSum, Room, Opposes, SizeCandidate, SoundStakes, WithinCaps,
           NoOpposites, AllExposures;
      SizedFits(c, snapshot, so_far.chosen, state, risk);
      ChosenStakesSound(snapshot, so_far.chosen, sizing.recommendation, state, risk);
      ChosenStaysWithinCaps(snapshot, so_far.chosen, sizing.recommendation, state, risk, parlay);
      ChosenHasNoOpposite(snapshot, so_far.chosen, sizing.recommendation);
    }
  }

  /** The greedy selection ends within every cap, within cash, one-sided and at most topN long. */
  lemma {:induction false} SelectionIsSound(ranked: seq<Candidate>, snapshot: Snapshot, so_far: Selection, topN: nat,
                                            state: PortfolioState, risk: RiskPolicy, parlay: ParlayPolicy)
    requires AllWellFormed(ranked) && (forall c <- ranked :: c.qualified) && risk.Valid()
    requires SoundSelection(snapshot, so_far.chosen, topN, state, risk, parlay)
    ensures SoundSelection(snapshot, SelectFrom(ranked, snapshot, so_far, topN, state, risk).chosen, topN, state, risk, parlay)
  {
    hide Consider, SoundSelection;
    if ranked != [] && |so_far.chosen| < topN {
      assert ranked[0] in ranked;
      ConsiderKeepsSound(ranked[0], snapshot, so_far, topN, state, risk, parlay);
      SelectionIsSound(ranked[1..], snapshot, Consider(ranked[0], snapshot, so_far, state, risk), topN, state, risk, parlay);
    }
  }

  // ----- What ranking guarantees -----

  lemma ProdOfFractions(a: real, b: real)
    requires 0.0 <= a && 0.0 <= b <= 1.0
    ensures 0.0 <= Prod(a, b) <= a
    ensures a <= 1.0 && b < 1.0 ==> Prod(a, b) < 1.0
  {
    MulMono(0.0, b, a);
    MulMono(b, 1.0, a);
    if a <= 1.0 && b < 1.0 { MulMono(a, 1.0, b); }
  }

  /** The adjusted fraction is a proper part of Kelly, so it is below one. */
  lemma AdjustedKellyRange(c: Candidate, state: PortfolioState, policy: RiskPolicy)
    requires c.qualified && c.WellFormed() && policy.Valid()
    ensures 0.0 <= AdjustedKelly(c, state, policy) <= RawKelly(c)
    ensures AdjustedKelly(c, state, policy) < 1.0
  {
    hide Prod, KellyFraction;
    KellyRange(c.winProbability, c.pushProbability, c.decimalOdds);
    ProdOfFractions(c.qualityMultiplier, policy.opportunisticMultiplier);
    var afterClass := if c.classification == Some(Opportunistic) then Prod(c.qualityMultiplier, policy.opportunisticMultiplier)
                      else c.qualityMultiplier;
    ProdOfFractions(afterClass, policy.reducedRiskMultiplier);
    ProdOfFractions(RawKelly(c), policy.kellyFraction);
    ProdOfFractions(Prod(RawKelly(c), policy.kellyFraction), RiskMultiplier(c, state, policy));
  }

  lemma RankingFractionRange(c: Candidate, snapshot: Snapshot, state: PortfolioState, policy: RiskPolicy)
    requires c.qualified && c.WellFormed() && policy.Valid() && snapshot.equity > 0.0
    ensures 0.0 <= RankingFraction(c, snapshot, state, policy) <= AdjustedKelly(c, state, policy) < 1.0
  {
    hide Prod, KellyFraction, AdjustedKelly, ExposureSum, Ratio;
    AdjustedKellyRange(c, state, policy);
  }

  /** Neither the Kelly fraction nor any of the growth computations that rank a candidate can be refused. */
  lemma RankingNeverRaises(ln: real -> real, c: Candidate, snapshot: Snapshot, state: PortfolioState, policy: RiskPolicy, p: real)
    requires c.qualified && c.WellFormed() && policy.Valid() && snapshot.equity > 0.0
    requires p == c.winProbability || exists b :: b in c.bookProbabilities && p == Min(b, 1.0 - c.pushProbability)
    ensures ExpectedLogGrowth(ln, p, c.pushProbability, c.decimalOdds, RankingFraction(c, snapshot, state, policy))
            == Ok(LogGrowth(ln, p, c.pushProbability, c.decimalOdds, RankingFraction(c, snapshot, state, policy)))
    ensures FractionalKellyWithPush(c.winProbability, c.pushProbability, c.decimalOdds) == Ok(RawKelly(c))
  {
    hide LogGrowth;
    RankingFractionRange(c, snapshot, state, policy);
  }

  /** Whatever the caps cut, the fraction a candidate is ranked by never shrinks expected wealth, and grows it
      whenever any fraction is left. */
  lemma RankedGrowthNonnegative(ln: real -> real, c: Candidate, snapshot: Snapshot, state: PortfolioState, policy: RiskPolicy)
    requires IsLogarithm(ln) && c.qualified && c.WellFormed() && policy.Valid() && snapshot.equity > 0.0
    ensures var ranked := WithRanking(ln, c, snapshot, state, policy);
            && 0.0 <= ranked.rankingKellyFraction <= RawKelly(c)
            && ranked.expectedLogGrowth >= 0.0
            && (ranked.rankingKellyFraction > 0.0 && ranked.rankingKellyFraction < RawKelly(c)
                ==> ranked.expectedLogGrowth > 0.0)
  {
    hide KellyFraction, LogGrowth, RankingFraction, RobustGrowth;
    var f := RankingFraction(c, snapshot, state, policy);
    RankingFractionRange(c, snapshot, state, policy);
    AdjustedKellyRange(c, state, policy);
    GrowthRisesToKelly(ln, c.winProbability, c.pushProbability, c.decimalOdds, 0.0, f);
    GrowthOfNothing(ln, c.winProbability, c.pushProbability, c.decimalOdds);
    if 0.0 < f < RawKelly(c) {
      GrowthPositiveBelowKelly(ln, c.winProbability, c.pushProbability, c.decimalOdds, f);
    }
  }

  lemma GrowthOfNothing(ln: real -> real, win: real, push: real, odds: real)
    ensures LogGrowth(ln, win, push, odds, 0.0) == 0.0
  {
  }

  /** If some book is no more optimistic than the consensus, the robust score never exceeds consensus growth. */
  lemma RobustGrowthBelowConsensus(ln: real -> real, c: Candidate, fraction: real, i: nat)
    requires IsLogarithm(ln) && c.decimalOdds > 1.0 && 0.0 <= fraction < 1.0
    requires i < |c.bookProbabilities|
    requires Min(c.bookProbabilities[i], 1.0 - c.pushProbability) <= c.winProbability
    ensures RobustGrowth(ln, c, fraction) <= LogGrowth(ln, c.winProbability, c.pushProbability, c.decimalOdds, fraction)
  {
    hide LogGrowth;
    assert BookGrowths(ln, c, fraction)[i] in BookGrowths(ln, c, fraction);
    GrowthRisesWithWin(ln, Min(c.bookProbabilities[i], 1.0 - c.pushProbability), c.winProbability, c.pushProbability,
                       c.decimalOdds, fraction);
  }

  // ----- What the order, the sizes and the state mean -----

  function Severity(state: PortfolioState): nat {
    match state
    case Normal => 0
    case ReducedRisk => 1
    case Paused => 2
  }

  /** Losing equity never makes the state milder. */
  lemma StateWorsensWithLoss(snapshot: Snapshot, equity: real, policy: RiskPolicy)
    requires policy.Valid() && equity <= snapshot.equity
    ensures Severity(StateOf(snapshot, policy)) <= Severity(StateOf(snapshot.(equity := equity), policy))
  {
    hide Prod;
    if snapshot.peakEquity > 0.0 {
      var peak := snapshot.peakEquity;
      DivLess(peak - snapshot.equity, Ratio(peak - equity, peak), peak);
      assert Ratio(peak - equity, peak) * peak == peak - equity;
      assert Ratio(peak - snapshot.equity, peak) <= Ratio(peak - equity, peak);
    }
  }

  /** The engine pauses exactly at the bankroll floor or at the paused drawdown from the peak. */
  lemma PausedExactly(snapshot: Snapshot, policy: RiskPolicy)
    requires policy.Valid()
    ensures StateOf(snapshot, policy) == Paused
            <==> snapshot.equity <= snapshot.startingBankroll * policy.bankrollFloorFractionOfStart
                 || (snapshot.peakEquity > 0.0 && snapshot.equity <= snapshot.peakEquity * (1.0 - policy.pausedDrawdown))
  {
    var peak, d := snapshot.peakEquity, policy.pausedDrawdown;
    if peak > 0.0 {
      DivLess(peak - snapshot.equity, d, peak);
      Distribute(1.0, d, peak);
    }
  }

  /** A reduced-risk portfolio sizes every candidate to its share of the normal size, and an opportunistic candidate to
      its share of a core one. */
  lemma RiskScalesSizes(c: Candidate, policy: RiskPolicy)
    requires c.qualified && c.WellFormed()
    ensures AdjustedKelly(c, ReducedRisk, policy) == AdjustedKelly(c, Normal, policy) * policy.reducedRiskMultiplier
    ensures var core, opportunistic := c.(classification := Some(Core)), c.(classification := Some(Opportunistic));
            AdjustedKelly(opportunistic, Normal, policy) == AdjustedKelly(core, Normal, policy) * policy.opportunisticMultiplier
  {
    hide KellyFraction;
    var base := RawKelly(c) * policy.kellyFraction;
    var q, o, r := c.qualityMultiplier, policy.opportunisticMultiplier, policy.reducedRiskMultiplier;
    assert base * (q * r) == base * q * r;
    assert base * (q * o * r) == base * (q * o) * r;
    assert base * (q * o) == base * q * o;
  }

  /** A sized stake cannot grow by a cent: it would pass the Kelly target or one of the caps. */
  lemma SizedIsLargest(c: Candidate, snapshot: Snapshot, selected: seq<Recommendation>, state: PortfolioState, policy: RiskPolicy)
    requires c.qualified && c.WellFormed() && policy.Valid()
    requires SizeCandidate(c, snapshot, selected, state, policy).Sized?
    ensures var stake := SizeCandidate(c, snapshot, selected, state, policy).recommendation.stake;
            || stake + 0.01 > Prod(snapshot.equity, AdjustedKelly(c, state, policy))
            || exists cap :: cap in CapTable(c, snapshot, selected, policy) && stake + 0.01 > cap.1
  {
    var caps := CapTable(c, snapshot, selected, policy);
    assert |caps| == 8;
    hide Prod, AdjustedKelly, CapTable, CutToCents;
    var limit := Tightest(caps);
    CutToCentsBounds(Max(0.0, Min(Prod(snapshot.equity, AdjustedKelly(c, state, policy)), limit.1)));
  }

  /** A candidate is declined only for an opposing position, or because the target or a cap leaves less than the minimum. */
  lemma DeclinedForCause(c: Candidate, snapshot: Snapshot, selected: seq<Recommendation>, state: PortfolioState, policy: RiskPolicy)
    requires c.qualified && c.WellFormed() && policy.Valid()
    requires SizeCandidate(c, snapshot, selected, state, policy).Declined?
    ensures (exists e :: e in AllExposures(snapshot, selected) && Opposes(e, c))
            || Prod(snapshot.equity, AdjustedKelly(c, state, policy)) < policy.minimumStake + 0.01
            || exists cap :: cap in CapTable(c, snapshot, selected, policy) && cap.1 < policy.minimumStake + 0.01
  {
    var caps := CapTable(c, snapshot, selected, policy);
    assert |caps| == 8;
    hide Prod, AdjustedKelly, CapTable, CutToCents;
    var limit := Tightest(caps);
    CutToCentsBounds(Max(0.0, Min(Prod(snapshot.equity, AdjustedKelly(c, state, policy)), limit.1)));
  }

  /** The greedy loop considers candidates best first: by robust growth, then by consensus growth. */
  lemma BestCandidatesFirst(ln: real -> real, candidates: seq<Candidate>, snapshot: Snapshot, state: PortfolioState, policy: RiskPolicy,
                            i: nat, j: nat)
    requires AllWellFormed(candidates) && i < j < |QualifiedInOrder(ln, candidates, snapshot, state, policy)|
    ensures var ordered := QualifiedInOrder(ln, candidates, snapshot, state, policy);
            && ordered[i].rankingScore >= ordered[j].rankingScore
            && (ordered[i].rankingScore == ordered[j].rankingScore ==> ordered[i].expectedLogGrowth >= ordered[j].expectedLogGrowth)
  {
    hide RankedCandidates, SortBy;
    ByKeyIsOrder(RankKey);
    var ordered := QualifiedInOrder(ln, candidates, snapshot, state, policy);
    SortSorts(ByKey(RankKey), RankedCandidates(ln, candidates, snapshot, state, policy));
    FirstTwoOf(RankKey(ordered[i]), RankKey(ordered[j]));
  }

  /** Every qualified candidate is chosen, declined, or left over because topN were already chosen. */
  lemma {:induction false} SelectionAccountsForAll(ranked: seq<Candidate>, snapshot: Snapshot, so_far: Selection, topN: nat,
                                                   state: PortfolioState, policy: RiskPolicy)
    requires AllWellFormed(ranked) && forall c <- ranked :: c.qualified
    ensures var s := SelectFrom(ranked, snapshot, so_far, topN, state, policy);
            && so_far.chosen <= s.chosen && so_far.declined <= s.declined
            && (|s.chosen| >= topN || |s.chosen| + |s.declined| == |so_far.chosen| + |so_far.declined| + |ranked|)
  {
    hide SizeCandidate;
    if ranked != [] && |so_far.chosen| < topN {
      assert ranked[0] in ranked;
      SelectionAccountsForAll(ranked[1..], snapshot, Consider(ranked[0], snapshot, so_far, state, policy), topN, state, policy);
    }
  }
}
