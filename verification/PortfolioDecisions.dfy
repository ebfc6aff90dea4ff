/** The whole portfolio decision: straight positions, then at most one verified parlay over them. */
module PortfolioDecisions {
  import opened Wrappers
  import opened Numbers
  import opened Ordering
  import opened Kelly
  import opened Pricing
  import opened PortfolioEngine

  /** Stakes are also reported in units, a fraction of equity that the policy may set to zero. */
  datatype EngineError = TopNOutOfRange | InvalidAmericanOdds | UnitsOfNothing

  /** What the engine takes from libraries: the logarithm, and the hash that breaks the last ties. */
  datatype Library = Library(ln: real -> real, hash: (string, real) -> nat)

  datatype ParlayOffer = ParlayOffer(
    offerId: string,
    legCandidateIds: seq<nat>,
    legObservationIds: seq<nat>,
    americanOdds: int)

  datatype ParlayPick = ParlayPick(
    offer: ParlayOffer,
    legs: seq<Recommendation>,
    joint: real,
    impliedProbability: real,
    jointEv: real,
    stake: real,
    score: real,
    hash: nat)

  // ----- One parlay offer -----

  /** The last recommendation made for a candidate, as a dictionary built in order would keep it. */
  function WithId(recs: seq<Recommendation>, id: nat): Option<Recommendation> {
    if recs == [] then None
    else if recs[|recs| - 1].candidate.candidateId == id then Some(recs[|recs| - 1])
    else WithId(recs[..|recs| - 1], id)
  }

  function LegsOf(recs: seq<Recommendation>, ids: seq<nat>): seq<Recommendation> {
    if ids == [] then []
    else (match WithId(recs, ids[0]) case Some(r) => [r] case None => []) + LegsOf(recs, ids[1..])
  }

  predicate Distinct<T(==)>(s: seq<T>) {
    forall i, j :: 0 <= i < j < |s| ==> s[i] != s[j]
  }

  predicate SharesTeam(a: Candidate, b: Candidate) {
    a.homeTeam == b.homeTeam || a.homeTeam == b.awayTeam || a.awayTeam == b.homeTeam || a.awayTeam == b.awayTeam
  }

  predicate IndependentLegs(legs: seq<Recommendation>) {
    forall i, j :: 0 <= i < j < |legs| ==>
      legs[i].candidate.eventId != legs[j].candidate.eventId && !SharesTeam(legs[i].candidate, legs[j].candidate)
  }

  predicate LegsVerified(offer: ParlayOffer, legs: seq<Recommendation>) {
    && MINIMUM_LEGS <= |offer.legCandidateIds| <= MAXIMUM_LEGS
    && Distinct(offer.legCandidateIds)
    && |legs| == |offer.legCandidateIds|
    && (forall leg <- legs :: leg.candidate.qualified)
    && |offer.legObservationIds| == |legs|
    && (forall i :: 0 <= i < |legs| ==> offer.legObservationIds[i] in legs[i].candidate.sourceObservationIds)
    && IndependentLegs(legs)
  }

  function JointProbability(legs: seq<Recommendation>): real {
    if legs == [] then 1.0
    else Prod(JointProbability(legs[..|legs| - 1]), legs[|legs| - 1].candidate.winProbability)
  }

  function LegRooms(snapshot: Snapshot, all: seq<OpenExposure>, legs: seq<Recommendation>, risk: RiskPolicy): seq<real> {
    if legs == [] then []
    else
      var c := legs[0].candidate;
      [Room(snapshot, all, risk.maximumGameFraction, Game(c.eventId)),
       Room(snapshot, all, risk.maximumTeamFraction, Team(c.homeTeam)),
       Room(snapshot, all, risk.maximumTeamFraction, Team(c.awayTeam))]
      + LegRooms(snapshot, all, legs[1..], risk)
  }

  function ParlayFraction(joint: real, odds: real, state: PortfolioState, risk: RiskPolicy, policy: ParlayPolicy): real
    requires Probability(joint) && odds > 1.0
  {
    var fraction := Min(Prod(KellyFraction(joint, 0.0, odds), policy.kellyFraction), policy.maximumParlayFraction);
    if state == ReducedRisk then Prod(fraction, risk.reducedRiskMultiplier) else fraction
  }

  function ParlayStake(snapshot: Snapshot, all: seq<OpenExposure>, legs: seq<Recommendation>, fraction: real,
                       risk: RiskPolicy, policy: ParlayPolicy): real {
    CutToCents(MinOf([
      Prod(snapshot.equity, fraction),
      Max(0.0, Room(snapshot, all, risk.maximumDailyFraction, Daily(snapshot.slateDate))),
      Max(0.0, Room(snapshot, all, policy.maximumDailyParlayFraction, ParlaySleeve(snapshot.slateDate))),
      snapshot.cash] + LegRooms(snapshot, all, legs, risk)))
  }

  function DuplicateRatio(recs: seq<Recommendation>, legs: seq<Recommendation>): real
    requires legs != []
  {
    Ratio(DuplicateCount(recs, legs) as real, |legs| as real)
  }

  function DuplicateCount(recs: seq<Recommendation>, legs: seq<Recommendation>): nat {
    if legs == [] then 0
    else (if exists r :: r in recs && r.candidate.eventId == legs[0].candidate.eventId then 1 else 0)
         + DuplicateCount(recs, legs[1..])
  }

  datatype OfferOutcome = Skipped | BadQuote | Eligible(pick: ParlayPick)

  ghost predicate GoodRecommendations(recs: seq<Recommendation>) {
    forall r <- recs :: r.candidate.qualified && r.candidate.WellFormed()
  }

  function EvaluateOffer(lib: Library, recs: seq<Recommendation>, snapshot: Snapshot, state: PortfolioState,
                         risk: RiskPolicy, policy: ParlayPolicy, offer: ParlayOffer): OfferOutcome
    requires GoodRecommendations(recs) && risk.Valid()
  {
    var legs := LegsOf(recs, offer.legCandidateIds);
    if !LegsVerified(offer, legs) then Skipped
    else if !ValidAmericanOdds(offer.americanOdds) then BadQuote
    else
      LegsComeFromRecommendations(recs, offer.legCandidateIds);
      JointIsProbability(legs);
      var joint, odds := JointProbability(legs), DecimalOdds(offer.americanOdds);
      var ev := ExpectedValueWithPush(joint, 1.0 - joint, odds);
      if ev < policy.minimumJointEv then Skipped
      else
        var all := AllExposures(snapshot, recs);
        var stake := ParlayStake(snapshot, all, legs, ParlayFraction(joint, odds, state, risk, policy), risk, policy);
        if stake < risk.minimumStake then Skipped
        else
          StakeNeedsEquity(snapshot, all, legs, ParlayFraction(joint, odds, state, risk, policy), risk, policy);
          var growth := LogGrowth(lib.ln, joint, 0.0, odds, Ratio(stake, snapshot.equity));
          var score := Prod(growth, 1.0 - Prod(policy.duplicateExposurePenalty, DuplicateRatio(recs, legs)));
          Eligible(ParlayPick(offer, legs, joint, ImpliedProbability(offer.americanOdds), ev, stake, score,
                              lib.hash(offer.offerId, stake)))
  }

  lemma StakeNeedsEquity(snapshot: Snapshot, all: seq<OpenExposure>, legs: seq<Recommendation>, fraction: real,
                         risk: RiskPolicy, policy: ParlayPolicy)
    requires ParlayStake(snapshot, all, legs, fraction, risk, policy) > 0.0
    ensures snapshot.equity != 0.0
  {
    hide Room, LegRooms, CutToCents;
    var base := [
      Prod(snapshot.equity, fraction),
      Max(0.0, Room(snapshot, all, risk.maximumDailyFraction, Daily(snapshot.slateDate))),
      Max(0.0, Room(snapshot, all, policy.maximumDailyParlayFraction, ParlaySleeve(snapshot.slateDate))),
      snapshot.cash];
    var least := MinOf(base + LegRooms(snapshot, all, legs, risk));
    CutToCentsBounds(least);
    assert base[0] in base;
    assert base[0] in base + LegRooms(snapshot, all, legs, risk);
  }

  lemma {:induction false} WithIdFinds(recs: seq<Recommendation>, id: nat)
    ensures WithId(recs, id).Some? ==> WithId(recs, id).value in recs
  {
    if recs != [] {
      WithIdFinds(recs[..|recs| - 1], id);
      assert forall r <- recs[..|recs| - 1] :: r in recs;
    }
  }

  lemma {:induction false} LegsComeFromRecommendations(recs: seq<Recommendation>, ids: seq<nat>)
    ensures forall leg <- LegsOf(recs, ids) :: leg in recs
  {
    if ids != [] {
      WithIdFinds(recs, ids[0]);
      LegsComeFromRecommendations(recs, ids[1..]);
    }
  }

  lemma {:induction false} JointIsProbability(legs: seq<Recommendation>)
    requires GoodRecommendations(legs)
    ensures Probability(JointProbability(legs))
  {
    if legs != [] {
      hide Prod;
      var front, last := legs[..|legs| - 1], legs[|legs| - 1];
      assert last in legs && forall r <- front :: r in legs;
      JointIsProbability(front);
      ProdOfFractions(JointProbability(front), last.candidate.winProbability);
    }
  }

  // ----- Choosing among the offers -----

  function OfferKey(o: ParlayOffer): seq<real> {
    Text(o.offerId)
  }

  function SumWin(legs: seq<Recommendation>): real {
    if legs == [] then 0.0 else legs[0].candidate.winProbability + SumWin(legs[1..])
  }

  function LeastWin(legs: seq<Recommendation>): real {
    if legs == [] then 0.0
    else if |legs| == 1 then legs[0].candidate.winProbability
    else Min(legs[0].candidate.winProbability, LeastWin(legs[1..]))
  }

  function PickKey(p: ParlayPick): seq<real> {
    [-p.score, -p.joint, -LeastWin(p.legs), -SumWin(p.legs), -p.jointEv, p.hash as real]
  }

  /** The eligible picks of the offers taken in order; an offer with impossible odds stops the decision. */
  function EligiblePicks(lib: Library, recs: seq<Recommendation>, snapshot: Snapshot, state: PortfolioState, risk: RiskPolicy,
                         policy: ParlayPolicy, offers: seq<ParlayOffer>): Result<seq<ParlayPick>, EngineError>
    requires GoodRecommendations(recs) && risk.Valid()
  {
    if offers == [] then Ok([])
    else
      var front, last := offers[..|offers| - 1], offers[|offers| - 1];
      match EligiblePicks(lib, recs, snapshot, state, risk, policy, front)
      case Err(e) => Err(e)
      case Ok(picks) =>
        match EvaluateOffer(lib, recs, snapshot, state, risk, policy, last)
        case Skipped => Ok(picks)
        case BadQuote => Err(InvalidAmericanOdds)
        case Eligible(pick) => Ok(picks + [pick])
  }

  /** Specification of the parlay choice. */
  function ChooseParlay(lib: Library, recs: seq<Recommendation>, offers: seq<ParlayOffer>, snapshot: Snapshot,
                        state: PortfolioState, risk: RiskPolicy, policy: ParlayPolicy): Result<Option<ParlayPick>, EngineError>
    requires GoodRecommendations(recs) && risk.Valid()
  {
    if !policy.enabled || state == Paused then Ok(None)
    else
      match EligiblePicks(lib, recs, snapshot, state, risk, policy, SortBy(ByKey(OfferKey), offers))
      case Err(e) => Err(e)
      case Ok(picks) => if picks == [] then Ok(None) else Ok(Some(FirstOf(picks)))
  }

  function FirstOf(picks: seq<ParlayPick>): (p: ParlayPick)
    requires picks != []
    ensures p in picks
  {
    SortKeeps(ByKey(PickKey), picks);
    var p := SortBy(ByKey(PickKey), picks)[0];
    SortMembers(ByKey(PickKey), picks, p);
    p
  }

  method OptimizeParlay(lib: Library, recs: seq<Recommendation>, offers: seq<ParlayOffer>, snapshot: Snapshot,
                        state: PortfolioState, risk: RiskPolicy, policy: ParlayPolicy)
    returns (r: Result<Option<ParlayPick>, EngineError>)
    requires GoodRecommendations(recs) && risk.Valid()
    ensures r == ChooseParlay(lib, recs, offers, snapshot, state, risk, policy)
  {
    hide EvaluateOffer, SortBy;
    if !policy.enabled || state == Paused {
      return Ok(None);
    }
    var ordered := SortBy(ByKey(OfferKey), offers);
    var eligible: seq<ParlayPick> := [];
    for i := 0 to |ordered|
      invariant EligiblePicks(lib, recs, snapshot, state, risk, policy, ordered[..i]) == Ok(eligible)
    {
      assert ordered[..i + 1][..i] == ordered[..i] && ordered[..i + 1][i] == ordered[i];
      var outcome := EvaluateOffer(lib, recs, snapshot, state, risk, policy, ordered[i]);
      match outcome {
        case Skipped =>
        case BadQuote =>
          ErrorSpreads(lib, recs, snapshot, state, risk, policy, ordered, i + 1);
          return Err(InvalidAmericanOdds);
        case Eligible(pick) => eligible := eligible + [pick];
      }
    }
    assert ordered[..|ordered|] == ordered;
    if eligible == [] {
      return Ok(None);
    }
    return Ok(Some(FirstOf(eligible)));
  }

  lemma {:induction false} ErrorSpreads(lib: Library, recs: seq<Recommendation>, snapshot: Snapshot, state: PortfolioState,
                                        risk: RiskPolicy, policy: ParlayPolicy, offers: seq<ParlayOffer>, n: nat)
    requires GoodRecommendations(recs) && risk.Valid() && n <= |offers|
    requires EligiblePicks(lib, recs, snapshot, state, risk, policy, offers[..n]) == Err(InvalidAmericanOdds)
    ensures EligiblePicks(lib, recs, snapshot, state, risk, policy, offers) == Err(InvalidAmericanOdds)
    decreases |offers| - n
  {
    if n < |offers| {
      assert offers[..n + 1][..n] == offers[..n];
      ErrorSpreads(lib, recs, snapshot, state, risk, policy, offers, n + 1);
    } else {
      assert offers[..n] == offers;
    }
  }

  // ----- What a chosen parlay respects -----

  /** The parlay's stake counts once against each leg's game and teams. */
  function LegExposures(p: ParlayPick, date: int): seq<OpenExposure> {
    LegExposuresOf(p.legs, p.stake, date)
  }

  function LegExposuresOf(legs: seq<Recommendation>, stake: real, date: int): seq<OpenExposure> {
    if legs == [] then []
    else [StraightExposure(legs[0], date).(stake := stake, kind := Parlay)] + LegExposuresOf(legs[1..], stake, date)
  }

  predicate LegDimension(d: Dimension) {
    d.Game? || d.Team?
  }

  ghost predicate ParlayFits(p: ParlayPick, recs: seq<Recommendation>, snapshot: Snapshot, risk: RiskPolicy, policy: ParlayPolicy) {
    var all := AllExposures(snapshot, recs);
    && risk.minimumStake <= p.stake <= snapshot.cash
    && p.stake <= Prod(snapshot.equity, policy.maximumParlayFraction)
    && ExposureSum(all, Daily(snapshot.slateDate)) + p.stake <= Prod(snapshot.equity, risk.maximumDailyFraction)
    && ExposureSum(all, ParlaySleeve(snapshot.slateDate)) + p.stake <= Prod(snapshot.equity, policy.maximumDailyParlayFraction)
    && MINIMUM_LEGS <= |p.legs| <= MAXIMUM_LEGS && IndependentLegs(p.legs)
    && (forall leg <- p.legs :: leg in recs)
    && 0.0 < p.impliedProbability < 1.0
  }

  lemma {:induction false} LegRoomsHold(snapshot: Snapshot, all: seq<OpenExposure>, legs: seq<Recommendation>, risk: RiskPolicy, leg: Recommendation)
    requires leg in legs
    ensures var rooms := LegRooms(snapshot, all, legs, risk);
            && Room(snapshot, all, risk.maximumGameFraction, Game(leg.candidate.eventId)) in rooms
            && Room(snapshot, all, risk.maximumTeamFraction, Team(leg.candidate.homeTeam)) in rooms
            && Room(snapshot, all, risk.maximumTeamFraction, Team(leg.candidate.awayTeam)) in rooms
  {
    hide Room;
    var c := legs[0].candidate;
    var head := [Room(snapshot, all, risk.maximumGameFraction, Game(c.eventId)),
                 Room(snapshot, all, risk.maximumTeamFraction, Team(c.homeTeam)),
                 Room(snapshot, all, risk.maximumTeamFraction, Team(c.awayTeam))];
    if leg == legs[0] {
      assert head[0] in head && head[1] in head && head[2] in head;
    } else {
      LegRoomsHold(snapshot, all, legs[1..], risk, leg);
    }
  }

  lemma ParlayFractionRange(joint: real, odds: real, state: PortfolioState, risk: RiskPolicy, policy: ParlayPolicy)
    requires Probability(joint) && odds > 1.0 && risk.Valid() && policy.Valid()
    ensures 0.0 <= ParlayFraction(joint, odds, state, risk, policy) <= policy.maximumParlayFraction
  {
    hide Prod, KellyFraction;
    KellyRange(joint, 0.0, odds);
    ProdOfFractions(KellyFraction(joint, 0.0, odds), policy.kellyFraction);
    ProdOfFractions(Min(Prod(KellyFraction(joint, 0.0, odds), policy.kellyFraction), policy.maximumParlayFraction),
                    risk.reducedRiskMultiplier);
  }

  /** A positive parlay stake is at most every quantity it was cut to. */
  lemma ParlayStakeFits(snapshot: Snapshot, all: seq<OpenExposure>, legs: seq<Recommendation>, fraction: real,
                        risk: RiskPolicy, policy: ParlayPolicy, leg: Recommendation)
    requires leg in legs && ParlayStake(snapshot, all, legs, fraction, risk, policy) > 0.0
    ensures var stake := ParlayStake(snapshot, all, legs, fraction, risk, policy);
            && stake <= Prod(snapshot.equity, fraction) && stake <= snapshot.cash
            && stake <= Room(snapshot, all, risk.maximumDailyFraction, Daily(snapshot.slateDate))
            && stake <= Room(snapshot, all, policy.maximumDailyParlayFraction, ParlaySleeve(snapshot.slateDate))
            && stake <= Room(snapshot, all, risk.maximumGameFraction, Game(leg.candidate.eventId))
            && stake <= Room(snapshot, all, risk.maximumTeamFraction, Team(leg.candidate.homeTeam))
            && stake <= Room(snapshot, all, risk.maximumTeamFraction, Team(leg.candidate.awayTeam))
  {
    hide Prod, Room, LegRooms, CutToCents;
    var base := [
      Prod(snapshot.equity, fraction),
      Max(0.0, Room(snapshot, all, risk.maximumDailyFraction, Daily(snapshot.slateDate))),
      Max(0.0, Room(snapshot, all, policy.maximumDailyParlayFraction, ParlaySleeve(snapshot.slateDate))),
      snapshot.cash];
    var rooms := LegRooms(snapshot, all, legs, risk);
    var least := MinOf(base + rooms);
    CutToCentsBounds(least);
    LegRoomsHold(snapshot, all, legs, risk, leg);
    assert base[0] in base && base[1] in base && base[2] in base && base[3] in base;
    assert forall x <- base :: x in base + rooms;
    assert forall x <- rooms :: x in base + rooms;
  }

  lemma EligibleFits(lib: Library, recs: seq<Recommendation>, snapshot: Snapshot, state: PortfolioState,
                     risk: RiskPolicy, policy: ParlayPolicy, offer: ParlayOffer)
    requires GoodRecommendations(recs) && risk.Valid() && policy.Valid() && snapshot.equity >= 0.0
    requires EvaluateOffer(lib, recs, snapshot, state, risk, policy, offer).Eligible?
    ensures var p := EvaluateOffer(lib, recs, snapshot, state, risk, policy, offer).pick;
            && ParlayFits(p, recs, snapshot, risk, policy)
            && LegsHaveRoom(p, recs, snapshot, risk)
  {
    hide Prod, ParlayFraction, LogGrowth, ParlayStake, JointProbability, Ratio, DecimalOdds, Room, DuplicateRatio, ExposureSum, AllExposures;
    var p := EvaluateOffer(lib, recs, snapshot, state, risk, policy, offer).pick;
    LegsComeFromRecommendations(recs, offer.legCandidateIds);
    JointIsProbability(p.legs);
    var fraction := ParlayFraction(p.joint, DecimalOdds(offer.americanOdds), state, risk, policy);
    ParlayFractionRange(p.joint, DecimalOdds(offer.americanOdds), state, risk, policy);
    ProdMono(fraction, policy.maximumParlayFraction, snapshot.equity);
    var all := AllExposures(snapshot, recs);
    assert p.stake == ParlayStake(snapshot, all, p.legs, fraction, risk, policy);
    forall leg <- p.legs
      ensures LegHasRoom(leg, p.stake, recs, snapshot, risk)
    {
      ParlayStakeFits(snapshot, all, p.legs, fraction, risk, policy, leg);
      RoomIs(snapshot, all, risk, leg);
    }
    ParlayStakeFits(snapshot, all, p.legs, fraction, risk, policy, p.legs[0]);
    StakeUnderRoom(snapshot, all, risk.maximumDailyFraction, Daily(snapshot.slateDate), p.stake);
    StakeUnderRoom(snapshot, all, policy.maximumDailyParlayFraction, ParlaySleeve(snapshot.slateDate), p.stake);
  }

  lemma StakeUnderRoom(snapshot: Snapshot, all: seq<OpenExposure>, fraction: real, d: Dimension, stake: real)
    requires stake <= Room(snapshot, all, fraction, d)
    ensures ExposureSum(all, d) + stake <= Prod(snapshot.equity, fraction)
  {
  }

  lemma RoomIs(snapshot: Snapshot, all: seq<OpenExposure>, risk: RiskPolicy, leg: Recommendation)
    ensures Room(snapshot, all, risk.maximumGameFraction, Game(leg.candidate.eventId))
            == Prod(snapshot.equity, risk.maximumGameFraction) - ExposureSum(all, Game(leg.candidate.eventId))
    ensures Room(snapshot, all, risk.maximumTeamFraction, Team(leg.candidate.homeTeam))
            == Prod(snapshot.equity, risk.maximumTeamFraction) - ExposureSum(all, Team(leg.candidate.homeTeam))
    ensures Room(snapshot, all, risk.maximumTeamFraction, Team(leg.candidate.awayTeam))
            == Prod(snapshot.equity, risk.maximumTeamFraction) - ExposureSum(all, Team(leg.candidate.awayTeam))
  {
  }

  ghost predicate LegHasRoom(leg: Recommendation, stake: real, recs: seq<Recommendation>, snapshot: Snapshot, risk: RiskPolicy) {
    var all := AllExposures(snapshot, recs);
    && ExposureSum(all, Game(leg.candidate.eventId)) + stake <= Prod(snapshot.equity, risk.maximumGameFraction)
    && ExposureSum(all, Team(leg.candidate.homeTeam)) + stake <= Prod(snapshot.equity, risk.maximumTeamFraction)
    && ExposureSum(all, Team(leg.candidate.awayTeam)) + stake <= Prod(snapshot.equity, risk.maximumTeamFraction)
  }

  ghost predicate LegsHaveRoom(p: ParlayPick, recs: seq<Recommendation>, snapshot: Snapshot, risk: RiskPolicy) {
    forall leg <- p.legs :: LegHasRoom(leg, p.stake, recs, snapshot, risk)
  }

  lemma {:induction false} PicksFit(lib: Library, recs: seq<Recommendation>, snapshot: Snapshot, state: PortfolioState,
                                    risk: RiskPolicy, policy: ParlayPolicy, offers: seq<ParlayOffer>)
    requires GoodRecommendations(recs) && risk.Valid() && policy.Valid() && snapshot.equity >= 0.0
    ensures var r := EligiblePicks(lib, recs, snapshot, state, risk, policy, offers);
            r.Ok? ==> forall p <- r.value :: ParlayFits(p, recs, snapshot, risk, policy) && LegsHaveRoom(p, recs, snapshot, risk)
  {
    hide EvaluateOffer, ParlayFits, LegsHaveRoom;
    if offers != [] {
      PicksFit(lib, recs, snapshot, state, risk, policy, offers[..|offers| - 1]);
      if EvaluateOffer(lib, recs, snapshot, state, risk, policy, offers[|offers| - 1]).Eligible? {
        EligibleFits(lib, recs, snapshot, state, risk, policy, offers[|offers| - 1]);
      }
    }
  }

  lemma ChosenParlayFits(lib: Library, recs: seq<Recommendation>, offers: seq<ParlayOffer>, snapshot: Snapshot,
                         state: PortfolioState, risk: RiskPolicy, policy: ParlayPolicy)
    requires GoodRecommendations(recs) && risk.Valid() && policy.Valid() && snapshot.equity >= 0.0
    ensures var r := ChooseParlay(lib, recs, offers, snapshot, state, risk, policy);
            r.Ok? && r.value.Some?
            ==> ParlayFits(r.value.value, recs, snapshot, risk, policy) && LegsHaveRoom(r.value.value, recs, snapshot, risk)
  {
    hide ParlayFits, LegsHaveRoom, EligiblePicks, SortBy;
    PicksFit(lib, recs, snapshot, state, risk, policy, SortBy(ByKey(OfferKey), offers));
  }

  lemma ApartTouchApart(a: Recommendation, b: Recommendation, date: int, d: Dimension)
    requires a.candidate.eventId != b.candidate.eventId && !SharesTeam(a.candidate, b.candidate)
    requires LegDimension(d) && Touches(StraightExposure(a, date), d)
    ensures !Touches(StraightExposure(b, date), d)
  {
  }

  /** Independent legs meet any one game or team at most once. */
  lemma {:induction false} LegsTouchOnce(legs: seq<Recommendation>, stake: real, date: int, d: Dimension)
    requires IndependentLegs(legs) && LegDimension(d) && stake >= 0.0
    ensures ExposureSum(LegExposuresOf(legs, stake, date), d) == 0.0
            || (exists leg :: leg in legs && Touches(StraightExposure(leg, date), d)
                              && ExposureSum(LegExposuresOf(legs, stake, date), d) == stake)
  {
    if legs != [] {
      var first := StraightExposure(legs[0], date).(stake := stake, kind := Parlay);
      var rest := LegExposuresOf(legs[1..], stake, date);
      assert IndependentLegs(legs[1..]) by {
        forall i, j | 0 <= i < j < |legs[1..]|
          ensures legs[1..][i].candidate.eventId != legs[1..][j].candidate.eventId && !SharesTeam(legs[1..][i].candidate, legs[1..][j].candidate)
        {
          assert legs[1..][i] == legs[i + 1] && legs[1..][j] == legs[j + 1];
        }
      }
      hide SharesTeam;
      LegsTouchOnce(legs[1..], stake, date, d);
      assert LegExposuresOf(legs, stake, date)[1..] == rest;
      if Touches(first, d) {
        assert legs[0] in legs;
        assert Touches(StraightExposure(legs[0], date), d);
        forall leg | leg in legs[1..] ensures !Touches(StraightExposure(leg, date), d) {
          var j :| 0 <= j < |legs[1..]| && legs[1..][j] == leg;
          assert legs[j + 1] == leg;
          ApartTouchApart(legs[0], leg, date, d);
        }
      } else {
        assert forall leg <- legs[1..] :: leg in legs;
      }
    }
  }

  /** With the parlay added, no game and no team ends above its cap, unless it stood above it at the start. */
  lemma ParlayKeepsLegCaps(p: ParlayPick, recs: seq<Recommendation>, snapshot: Snapshot, risk: RiskPolicy, policy: ParlayPolicy,
                           d: Dimension)
    requires ParlayFits(p, recs, snapshot, risk, policy) && LegsHaveRoom(p, recs, snapshot, risk)
    requires WithinCaps(snapshot, recs, risk, policy) && risk.Valid() && LegDimension(d)
    ensures WithinCap(snapshot, AllExposures(snapshot, recs) + LegExposures(p, snapshot.slateDate), CapFraction(risk, policy, d), d)
  {
    hide Prod, ExposureSum, AllExposures, IndependentLegs;
    var all, date := AllExposures(snapshot, recs), snapshot.slateDate;
    ExposureSumConcat(all, LegExposures(p, date), d);
    LegsTouchOnce(p.legs, p.stake, date, d);
    assert WithinCap(snapshot, all, CapFraction(risk, policy, d), d);
    if ExposureSum(LegExposures(p, date), d) != 0.0 {
      var leg :| leg in p.legs && Touches(StraightExposure(leg, date), d);
      assert LegHasRoom(leg, p.stake, recs, snapshot, risk);
    }
  }

  // ----- What the choice means -----

  /** The chosen parlay has the highest score of the eligible picks. */
  lemma ChosenParlayIsBest(lib: Library, recs: seq<Recommendation>, offers: seq<ParlayOffer>, snapshot: Snapshot,
                           state: PortfolioState, risk: RiskPolicy, policy: ParlayPolicy, other: ParlayPick)
    requires GoodRecommendations(recs) && risk.Valid()
    requires ChooseParlay(lib, recs, offers, snapshot, state, risk, policy).Ok?
    requires ChooseParlay(lib, recs, offers, snapshot, state, risk, policy).value.Some?
    requires other in EligiblePicks(lib, recs, snapshot, state, risk, policy, SortBy(ByKey(OfferKey), offers)).value
    ensures var chosen := ChooseParlay(lib, recs, offers, snapshot, state, risk, policy).value.value;
            && chosen.score >= other.score
            && (chosen.score == other.score ==> chosen.joint >= other.joint)
  {
    hide EligiblePicks, SortBy;
    var picks := EligiblePicks(lib, recs, snapshot, state, risk, policy, SortBy(ByKey(OfferKey), offers)).value;
    ByKeyIsOrder(PickKey);
    SortSorts(ByKey(PickKey), picks);
    SortKeeps(ByKey(PickKey), picks);
    SortMembers(ByKey(PickKey), picks, other);
    var ordered := SortBy(ByKey(PickKey), picks);
    var i :| 0 <= i < |ordered| && ordered[i] == other;
    if i > 0 { FirstTwoOf(PickKey(ordered[0]), PickKey(ordered[i])); }
  }

  /** Legs are always recommendations themselves, so the share of duplicated legs is always one and the penalty scales
      every offer's score by the same factor. */
  lemma {:induction false} DuplicatesAreAllLegs(recs: seq<Recommendation>, legs: seq<Recommendation>)
    requires forall leg <- legs :: leg in recs
    ensures DuplicateCount(recs, legs) == |legs|
  {
    if legs != [] {
      assert legs[0] in legs && forall leg <- legs[1..] :: leg in legs;
      DuplicatesAreAllLegs(recs, legs[1..]);
    }
  }

  lemma PenaltyIsConstant(lib: Library, recs: seq<Recommendation>, snapshot: Snapshot, state: PortfolioState,
                          risk: RiskPolicy, policy: ParlayPolicy, offer: ParlayOffer)
    requires GoodRecommendations(recs) && risk.Valid() && snapshot.equity != 0.0
    requires EvaluateOffer(lib, recs, snapshot, state, risk, policy, offer).Eligible?
    ensures var p := EvaluateOffer(lib, recs, snapshot, state, risk, policy, offer).pick;
            p.score == LogGrowth(lib.ln, p.joint, 0.0, DecimalOdds(offer.americanOdds), Ratio(p.stake, snapshot.equity))
                       * (1.0 - policy.duplicateExposurePenalty)
  {
    hide LogGrowth, ParlayStake, DecimalOdds, ImpliedProbability, KellyFraction, ParlayFraction, JointProbability;
    var p := EvaluateOffer(lib, recs, snapshot, state, risk, policy, offer).pick;
    LegsComeFromRecommendations(recs, offer.legCandidateIds);
    DuplicatesAreAllLegs(recs, p.legs);
    QuotientIs(|p.legs| as real, |p.legs| as real, 1.0);
  }

  // ----- The decision -----

  datatype Decision = Decision(
    state: PortfolioState,
    straight: seq<Recommendation>,
    parlay: Option<ParlayPick>,
    nonActionable: seq<NonActionable>)

  function PausedRejections(qualified: seq<Candidate>): seq<NonActionable> {
    seq(|qualified|, i requires 0 <= i < |qualified| => NonActionable(qualified[i], 0.0, PortfolioPaused))
  }

  function SelectStraights(lib: Library, candidates: seq<Candidate>, snapshot: Snapshot, topN: nat, risk: RiskPolicy): Selection
    requires AllWellFormed(candidates)
  {
    var state := StateOf(snapshot, risk);
    var qualified := QualifiedInOrder(lib.ln, candidates, snapshot, state, risk);
    if state == Paused then Selection([], PausedRejections(qualified))
    else SelectFrom(qualified, snapshot, Selection([], []), topN, state, risk)
  }

  lemma StraightsSound(lib: Library, candidates: seq<Candidate>, snapshot: Snapshot, topN: nat, risk: RiskPolicy, policy: ParlayPolicy)
    requires AllWellFormed(candidates) && risk.Valid()
    ensures var s := SelectStraights(lib, candidates, snapshot, topN, risk);
            SoundSelection(snapshot, s.chosen, topN, StateOf(snapshot, risk), risk, policy) && GoodRecommendations(s.chosen)
    ensures StateOf(snapshot, risk) == Paused ==> SelectStraights(lib, candidates, snapshot, topN, risk).chosen == []
  {
    hide SelectFrom, QualifiedInOrder, WithinCaps, NoOpposites;
    var state := StateOf(snapshot, risk);
    EmptySelectionSound(snapshot, topN, state, risk, policy);
    if state != Paused {
      SelectionIsSound(QualifiedInOrder(lib.ln, candidates, snapshot, state, risk), snapshot, Selection([], []), topN, state, risk, policy);
    }
  }

  /** Specification of the portfolio decision. */
  function Decide(lib: Library, candidates: seq<Candidate>, snapshot: Snapshot, topN: int, risk: RiskPolicy,
                  policy: ParlayPolicy, offers: seq<ParlayOffer>): Result<Decision, EngineError>
    requires AllWellFormed(candidates) && risk.Valid()
  {
    if topN < 1 || topN > 10 then Err(TopNOutOfRange)
    else
      var state := StateOf(snapshot, risk);
      var selection := SelectStraights(lib, candidates, snapshot, topN, risk);
      StraightsSound(lib, candidates, snapshot, topN, risk, policy);
      if risk.unitFraction == 0.0 && selection.chosen != [] then Err(UnitsOfNothing)
      else match ChooseParlay(lib, selection.chosen, offers, snapshot, state, risk, policy)
      case Err(e) => Err(e)
      case Ok(parlay) => Ok(Decision(state, selection.chosen, parlay, selection.declined))
  }

  method ConstructPortfolio(lib: Library, candidates: seq<Candidate>, snapshot: Snapshot, topN: int, risk: RiskPolicy,
                            policy: ParlayPolicy, offers: seq<ParlayOffer>)
    returns (r: Result<Decision, EngineError>)
    requires AllWellFormed(candidates) && risk.Valid()
    ensures r == Decide(lib, candidates, snapshot, topN, risk, policy, offers)
  {
    hide QualifiedInOrder, SizeCandidate, StateOf, ChooseParlay;
    if topN < 1 || topN > 10 {
      return Err(TopNOutOfRange);
    }
    var state := StateOf(snapshot, risk);
    var qualified := QualifiedInOrder(lib.ln, candidates, snapshot, state, risk);
    var recommendations: seq<Recommendation> := [];
    var nonActionable: seq<NonActionable> := [];
    if state == Paused {
      nonActionable := PausedRejections(qualified);
    } else {
      var i := 0;
      while i < |qualified| && |recommendations| < topN
        invariant 0 <= i <= |qualified|
        invariant SelectFrom(qualified[i..], snapshot, Selection(recommendations, nonActionable), topN, state, risk)
                  == SelectStraights(lib, candidates, snapshot, topN, risk)
        invariant risk.unitFraction == 0.0 ==> recommendations == []
      {
        var candidate := qualified[i];
        assert qualified[i..][0] == candidate && qualified[i..][1..] == qualified[i + 1..];
        var sizing := SizeCandidate(candidate, snapshot, recommendations, state, risk);
        match sizing {
          case Sized(recommendation) =>
            recommendations := recommendations + [recommendation];
            SelectionAccountsForAll(qualified[i + 1..], snapshot, Selection(recommendations, nonActionable), topN, state, risk);
            if risk.unitFraction == 0.0 {
              return Err(UnitsOfNothing);
            }
          case Declined(declined) => nonActionable := nonActionable + [declined];
        }
        i := i + 1;
      }
    }
    StraightsSound(lib, candidates, snapshot, topN, risk, policy);
    assert SelectStraights(lib, candidates, snapshot, topN, risk) == Selection(recommendations, nonActionable);
    var parlay := OptimizeParlay(lib, recommendations, offers, snapshot, state, risk, policy);
    match parlay {
      case Err(e) => return Err(e);
      case Ok(p) => return Ok(Decision(state, recommendations, p, nonActionable));
    }
  }

  // ----- When there is no decision -----

  lemma {:induction false} PicksFailExactly(lib: Library, recs: seq<Recommendation>, snapshot: Snapshot, state: PortfolioState,
                                            risk: RiskPolicy, policy: ParlayPolicy, offers: seq<ParlayOffer>)
    requires GoodRecommendations(recs) && risk.Valid()
    ensures EligiblePicks(lib, recs, snapshot, state, risk, policy, offers).Err?
            <==> exists o :: o in offers && EvaluateOffer(lib, recs, snapshot, state, risk, policy, o) == BadQuote
  {
    hide EvaluateOffer;
    if offers != [] {
      var front, last := offers[..|offers| - 1], offers[|offers| - 1];
      PicksFailExactly(lib, recs, snapshot, state, risk, policy, front);
      assert offers == front + [last];
    }
  }

  /** A verified offer whose odds no sportsbook can quote. */
  predicate ImpossiblyPriced(recs: seq<Recommendation>, offer: ParlayOffer) {
    LegsVerified(offer, LegsOf(recs, offer.legCandidateIds)) && !ValidAmericanOdds(offer.americanOdds)
  }

  /** A decision fails exactly when the number asked for is out of range, a position is chosen under a policy whose unit is
      zero, or parlays are on and some offer over chosen legs has impossible odds; in which order offers come is no matter. */
  lemma DecisionFailsExactly(lib: Library, candidates: seq<Candidate>, snapshot: Snapshot, topN: int, risk: RiskPolicy,
                             policy: ParlayPolicy, offers: seq<ParlayOffer>)
    requires AllWellFormed(candidates) && risk.Valid()
    ensures Decide(lib, candidates, snapshot, topN, risk, policy, offers).Err?
            <==> !(1 <= topN <= 10)
                 || var chosen := SelectStraights(lib, candidates, snapshot, topN, risk).chosen;
                    chosen != []
                    && (risk.unitFraction == 0.0 || (policy.enabled && exists o :: o in offers && ImpossiblyPriced(chosen, o)))
  {
    hide SelectStraights, EligiblePicks, EvaluateOffer, SortBy, StateOf, LegsVerified, LegsOf;
    if 1 <= topN <= 10 {
      StraightsSound(lib, candidates, snapshot, topN, risk, policy);
      var chosen, state := SelectStraights(lib, candidates, snapshot, topN, risk).chosen, StateOf(snapshot, risk);
      PicksFailExactly(lib, chosen, snapshot, state, risk, policy, SortBy(ByKey(OfferKey), offers));
      forall o: ParlayOffer ensures o in SortBy(ByKey(OfferKey), offers) <==> o in offers { SortMembers(ByKey(OfferKey), offers, o); }
      forall o: ParlayOffer
        ensures EvaluateOffer(lib, chosen, snapshot, state, risk, policy, o) == BadQuote <==> ImpossiblyPriced(chosen, o)
        ensures ImpossiblyPriced(chosen, o) ==> chosen != []
      {
        OfferFailsExactly(lib, chosen, snapshot, state, risk, policy, o);
      }
    }
  }

  lemma OfferFailsExactly(lib: Library, recs: seq<Recommendation>, snapshot: Snapshot, state: PortfolioState, risk: RiskPolicy,
                          policy: ParlayPolicy, offer: ParlayOffer)
    requires GoodRecommendations(recs) && risk.Valid()
    ensures EvaluateOffer(lib, recs, snapshot, state, risk, policy, offer) == BadQuote <==> ImpossiblyPriced(recs, offer)
    ensures ImpossiblyPriced(recs, offer) ==> recs != []
  {
    hide ParlayStake, LogGrowth, JointProbability, ParlayFraction, DecimalOdds, ImpliedProbability;
    LegsComeFromRecommendations(recs, offer.legCandidateIds);
    var legs := LegsOf(recs, offer.legCandidateIds);
    if LegsVerified(offer, legs) { assert legs[0] in recs; }
  }

  // ----- Main result -----

  /** Everything a decision promises about risk, for every candidate list, snapshot and set of offers. */
  ghost predicate SoundDecision(d: Decision, snapshot: Snapshot, topN: nat, risk: RiskPolicy, policy: ParlayPolicy) {
    && d.state == StateOf(snapshot, risk)
    && SoundSelection(snapshot, d.straight, topN, d.state, risk, policy)
    && (d.state == Paused ==> d.straight == [] && d.parlay == None)
    && (d.parlay.Some? ==>
          && ParlayFits(d.parlay.value, d.straight, snapshot, risk, policy)
          && (forall dim: Dimension :: LegDimension(dim) ==>
                WithinCap(snapshot, AllExposures(snapshot, d.straight) + LegExposures(d.parlay.value, snapshot.slateDate),
                          CapFraction(risk, policy, dim), dim)))
  }

  lemma DecisionIsSound(lib: Library, candidates: seq<Candidate>, snapshot: Snapshot, topN: int, risk: RiskPolicy,
                        policy: ParlayPolicy, offers: seq<ParlayOffer>)
    requires AllWellFormed(candidates) && risk.Valid() && policy.Valid() && snapshot.equity >= 0.0
    ensures var r := Decide(lib, candidates, snapshot, topN, risk, policy, offers);
            r.Ok? ==> 1 <= topN <= 10 && SoundDecision(r.value, snapshot, topN, risk, policy)
  {
    hide SelectStraights, EligiblePicks, ParlayFits, LegsHaveRoom, WithinCap, NoOpposites, SoundStakes, StateOf, SortBy;
    var r := Decide(lib, candidates, snapshot, topN, risk, policy, offers);
    if r.Ok? {
      StraightsSound(lib, candidates, snapshot, topN, risk, policy);
      ChosenParlayFits(lib, r.value.straight, offers, snapshot, r.value.state, risk, policy);
      if r.value.parlay.Some? {
        forall dim: Dimension | LegDimension(dim)
          ensures WithinCap(snapshot, AllExposures(snapshot, r.value.straight) + LegExposures(r.value.parlay.value, snapshot.slateDate),
                            CapFraction(risk, policy, dim), dim)
        {
          ParlayKeepsLegCaps(r.value.parlay.value, r.value.straight, snapshot, risk, policy, dim);
        }
      }
    }
  }
}
