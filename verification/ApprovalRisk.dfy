/** The exposures an open bet carries, and the risk check made again when a recommendation is approved. */
module ApprovalRisk {
  import opened Wrappers
  import opened Numbers
  import opened Ordering
  import opened Lists
  import opened PortfolioEngine
  import opened Ledger

  datatype Policies = Policies(risk: RiskPolicy, parlay: ParlayPolicy, startingCapital: int)

  // ----- Exposures -----

  predicate Present(text: Option<string>) {
    text.Some? && text.value != ""
  }

  function TeamsOf(home: Option<string>, away: Option<string>): seq<string> {
    (if Present(home) then [home.value] else []) + (if Present(away) then [away.value] else [])
  }

  /** The teams of a canonical event, none when the event is unknown. */
  function EventTeams(events: map<string, (string, string)>, id: string): seq<string> {
    if id in events then [events[id].0, events[id].1] else []
  }

  function SideOf(side: Option<string>, selection: string): string {
    if Present(side) then side.value else selection
  }

  /** What names the game of a straight bet: the canonical event, or the first other name there is. */
  function EventIdOf(b: Bet): string {
    if b.canonicalEventId.Some? then b.canonicalEventId.value
    else if Present(b.providerEventId) then b.providerEventId.value
    else if Present(b.eventName) then b.eventName.value
    else b.id
  }

  function LegExposure(events: map<string, (string, string)>, leg: LegRow, stake: int, date: int): OpenExposure {
    OpenExposure(leg.canonicalEventId, EventTeams(events, leg.canonicalEventId), leg.marketType, leg.side, Dollars(stake),
                 Parlay, Some(date))
  }

  function LegsExposed(events: map<string, (string, string)>, legs: seq<LegRow>, stake: int, date: int): seq<OpenExposure> {
    seq(|legs|, i requires 0 <= i < |legs| => LegExposure(events, legs[i], stake, date))
  }

  function ApprovalOf(approvals: seq<ApprovalRow>, betId: string): Option<ApprovalRow> {
    if approvals == [] then None
    else if approvals[0].betId == betId then Some(approvals[0])
    else ApprovalOf(approvals[1..], betId)
  }

  /** The legs behind an approved parlay bet. */
  function LegsBehind(db: Db, betId: string): Option<seq<LegRow>> {
    match ApprovalOf(db.approvals, betId)
    case None => None
    case Some(a) =>
      if a.recommendationId.None? then None
      else if a.recommendationId.value in db.recommendations then Some(db.recommendations[a.recommendationId.value].legs)
      else Some([])
  }

  function ExposuresOfBet(db: Db, b: Bet): seq<OpenExposure> {
    if b.kind == Parlay && LegsBehind(db, b.id).Some? then LegsExposed(db.events, LegsBehind(db, b.id).value, b.stake, b.date)
    else [OpenExposure(EventIdOf(b), TeamsOf(b.homeTeam, b.awayTeam), b.marketType, SideOf(b.selectionSide, b.selection),
                       Dollars(b.stake), b.kind, Some(b.date))]
  }

  predicate IsOpenIn(b: Bet, pid: string) {
    b.portfolioId == pid && b.status == Open
  }

  function ExposuresOver(db: Db, bets: seq<Bet>, pid: string): seq<OpenExposure> {
    if bets == [] then []
    else (if IsOpenIn(bets[0], pid) then ExposuresOfBet(db, bets[0]) else []) + ExposuresOver(db, bets[1..], pid)
  }

  /** The open exposures of a portfolio. */
  function ExposuresIn(db: Db, pid: string): seq<OpenExposure> {
    ExposuresOver(db, db.bets, pid)
  }

  /** What the approval of a recommendation would add. An absent canonical event is written as the text None. */
  function Targets(events: map<string, (string, string)>, rec: RecommendationRow, stake: int, date: int): seq<OpenExposure> {
    if rec.kind == Parlay then LegsExposed(events, rec.legs, stake, date)
    else [OpenExposure(if rec.canonicalEventId.Some? then rec.canonicalEventId.value else "None",
                       TeamsOf(rec.homeTeam, rec.awayTeam), rec.marketType, SideOf(rec.selectionSide, rec.selection),
                       Dollars(stake), Straight, Some(date))]
  }

  // ----- The risk check -----

  datatype RiskRefusal =
    | PausedNow
    | DailyExceeded
    | ParlayStakeExceeded
    | ParlaySleeveExceeded
    | PerBetExceeded
    | GameExceeded
    | CorrelatedExceeded
    | MarketExceeded
    | WouldOppose
    | TeamExceeded

  function StakeOnDay(date: int): Bet -> int {
    (b: Bet) => if b.status == Open && b.date == date then b.stake else 0
  }

  function ParlayStakeOnDay(date: int): Bet -> int {
    (b: Bet) => if b.status == Open && b.date == date && b.kind == Parlay then b.stake else 0
  }

  function OpenStake(): Bet -> int {
    (b: Bet) => if b.status == Open then b.stake else 0
  }

  /** Settled bets in the order they settled, ties by row, unknown times last. */
  function SettledKey(b: Bet): seq<real> {
    match b.settledAt
    case Some(t) => [0.0, t as real, b.rowId as real]
    case None => [1.0, b.rowId as real]
  }

  function InSettledOrder(bets: seq<Bet>): seq<Bet> {
    SortBy(ByKey(SettledKey), Where(bets, IsSettled()))
  }

  function PnlOf(b: Bet): int {
    if b.realizedPnl.Some? then b.realizedPnl.value else 0
  }

  /** The running equity after some settled bets. */
  function RunningAfter(starting: int, settled: seq<Bet>): int {
    if settled == [] then starting
    else RunningAfter(starting, settled[..|settled| - 1]) + PnlOf(settled[|settled| - 1])
  }

  /** The highest equity passed while the settled bets came in. */
  function PeakAfter(starting: int, settled: seq<Bet>): int {
    if settled == [] then starting
    else
      var before := PeakAfter(starting, settled[..|settled| - 1]);
      var now := RunningAfter(starting, settled);
      if now > before then now else before
  }

  method MeasurePeak(starting: int, settled: seq<Bet>) returns (peak: int)
    ensures peak == PeakAfter(starting, settled)
  {
    var running := starting;
    peak := running;
    for i := 0 to |settled|
      invariant running == RunningAfter(starting, settled[..i]) && peak == PeakAfter(starting, settled[..i])
    {
      assert settled[..i + 1][..i] == settled[..i];
      running := running + PnlOf(settled[i]);
      if running > peak { peak := running; }
    }
    assert settled[..|settled|] == settled;
  }

  /** The peak is the greatest running equity over every prefix of the settled bets. */
  lemma {:induction false} PeakIsGreatest(starting: int, settled: seq<Bet>)
    ensures forall k | 0 <= k <= |settled| :: RunningAfter(starting, settled[..k]) <= PeakAfter(starting, settled)
    ensures exists k | 0 <= k <= |settled| :: RunningAfter(starting, settled[..k]) == PeakAfter(starting, settled)
  {
    assert settled[..|settled|] == settled;
    if settled != [] {
      var front := settled[..|settled| - 1];
      PeakIsGreatest(starting, front);
      assert forall k | 0 <= k <= |front| :: front[..k] == settled[..k];
    } else {
      assert settled[..0] == settled;
    }
  }

  predicate Exceeds(exposures: seq<OpenExposure>, targets: seq<OpenExposure>, equity: real, fraction: real, d: Dimension) {
    ExposureSum(exposures, d) + ExposureSum(targets, d) > Prod(equity, fraction)
  }

  predicate OpposedBy(e: OpenExposure, target: OpenExposure) {
    e.eventId == target.eventId && e.marketType == target.marketType && e.side != target.side
  }

  /** The first refusal that one target meets. */
  function CheckTarget(target: OpenExposure, targets: seq<OpenExposure>, exposures: seq<OpenExposure>, equity: real,
                       risk: RiskPolicy): Option<RiskRefusal> {
    if Exceeds(exposures, targets, equity, risk.maximumGameFraction, Game(target.eventId)) then Some(GameExceeded)
    else if Exceeds(exposures, targets, equity, risk.maximumCorrelatedFraction, Correlated(target.eventId)) then Some(CorrelatedExceeded)
    else if Exceeds(exposures, targets, equity, risk.maximumMarketFraction, MarketKind(target.marketType)) then Some(MarketExceeded)
    else if exists e :: e in exposures && OpposedBy(e, target) then Some(WouldOppose)
    else if exists team :: team in target.teams && Exceeds(exposures, targets, equity, risk.maximumTeamFraction, Team(team))
    then Some(TeamExceeded)
    else None
  }

  function CheckTargets(remaining: seq<OpenExposure>, targets: seq<OpenExposure>, exposures: seq<OpenExposure>, equity: real,
                        risk: RiskPolicy): Option<RiskRefusal> {
    if remaining == [] then None
    else
      var first := CheckTarget(remaining[0], targets, exposures, equity, risk);
      if first.Some? then first else CheckTargets(remaining[1..], targets, exposures, equity, risk)
  }

  function PerBetLimit(rec: RecommendationRow, equity: real, risk: RiskPolicy): real {
    Min(risk.maximumStake,
        Prod(equity, if rec.classification == Some(Core) then risk.maximumCoreBetFraction
                     else risk.maximumOpportunisticBetFraction))
  }

  function ApprovalSnapshot(run: DecisionRun, bets: seq<Bet>, cash: int): Snapshot {
    var equity := cash + Total(bets, OpenStake());
    Snapshot(run.slateDate, Dollars(run.startingBankroll), Dollars(cash), Dollars(equity),
             Dollars(PeakAfter(run.startingBankroll, InSettledOrder(bets))), [])
  }

  /** The refusals that look at the portfolio and the stake alone, in the order they are checked. */
  function CheckPortfolio(rec: RecommendationRow, run: DecisionRun, stake: int, cash: int, bets: seq<Bet>,
                          p: Policies): Option<RiskRefusal> {
    var snapshot := ApprovalSnapshot(run, bets, cash);
    if StateOf(snapshot, p.risk) == Paused then Some(PausedNow)
    else if Dollars(Total(bets, StakeOnDay(run.slateDate)) + stake) > Prod(snapshot.equity, p.risk.maximumDailyFraction)
    then Some(DailyExceeded)
    else if rec.kind == Parlay then
      if Dollars(stake) > Prod(snapshot.equity, p.parlay.maximumParlayFraction) then Some(ParlayStakeExceeded)
      else if Dollars(Total(bets, ParlayStakeOnDay(run.slateDate)) + stake) > Prod(snapshot.equity, p.parlay.maximumDailyParlayFraction)
      then Some(ParlaySleeveExceeded)
      else None
    else if Dollars(stake) > PerBetLimit(rec, snapshot.equity, p.risk) then Some(PerBetExceeded)
    else None
  }

  /** Specification of the check: the bets are those of the portfolio. */
  function ValidateRisk(rec: RecommendationRow, run: DecisionRun, stake: int, cash: int, bets: seq<Bet>,
                        exposures: seq<OpenExposure>, targets: seq<OpenExposure>, p: Policies): Option<RiskRefusal> {
    var refusal := CheckPortfolio(rec, run, stake, cash, bets, p);
    if refusal.Some? then refusal
    else CheckTargets(targets, targets, exposures, Dollars(cash + Total(bets, OpenStake())), p.risk)
  }

  method ValidateApprovalRisk(rec: RecommendationRow, run: DecisionRun, stake: int, cash: int, bets: seq<Bet>,
                              exposures: seq<OpenExposure>, targets: seq<OpenExposure>, p: Policies)
    returns (refusal: Option<RiskRefusal>)
    ensures refusal == ValidateRisk(rec, run, stake, cash, bets, exposures, targets, p)
  {
    hide StateOf, CheckTarget, SortBy, Prod;
    var peak := MeasurePeak(run.startingBankroll, InSettledOrder(bets));
    var equity := cash + Total(bets, OpenStake());
    var snapshot := Snapshot(run.slateDate, Dollars(run.startingBankroll), Dollars(cash), Dollars(equity), Dollars(peak), []);
    if StateOf(snapshot, p.risk) == Paused {
      return Some(PausedNow);
    }
    if Dollars(Total(bets, StakeOnDay(run.slateDate)) + stake) > Prod(snapshot.equity, p.risk.maximumDailyFraction) {
      return Some(DailyExceeded);
    }
    if rec.kind == Parlay {
      if Dollars(stake) > Prod(snapshot.equity, p.parlay.maximumParlayFraction) {
        return Some(ParlayStakeExceeded);
      }
      var sleeve := Total(bets, ParlayStakeOnDay(run.slateDate)) + stake;
      if Dollars(sleeve) > Prod(snapshot.equity, p.parlay.maximumDailyParlayFraction) {
        return Some(ParlaySleeveExceeded);
      }
    } else if Dollars(stake) > PerBetLimit(rec, snapshot.equity, p.risk) {
      return Some(PerBetExceeded);
    }
    for i := 0 to |targets|
      invariant CheckTargets(targets, targets, exposures, Dollars(equity), p.risk)
                == CheckTargets(targets[i..], targets, exposures, Dollars(equity), p.risk)
    {
      assert targets[i..][0] == targets[i] && targets[i..][1..] == targets[i + 1..];
      refusal := CheckTarget(targets[i], targets, exposures, Dollars(equity), p.risk);
      if refusal.Some? {
        return;
      }
    }
    refusal := None;
  }

  // ----- What an accepted check means -----

  /** The share of equity a game, its correlated group, a team or a market type may carry. */
  predicate ExposureDimension(d: Dimension) {
    d.Game? || d.Correlated? || d.Team? || d.MarketKind?
  }

  lemma {:induction false} AcceptedTargetsEach(remaining: seq<OpenExposure>, targets: seq<OpenExposure>,
                                               exposures: seq<OpenExposure>, equity: real, risk: RiskPolicy, target: OpenExposure)
    requires target in remaining && CheckTargets(remaining, targets, exposures, equity, risk) == None
    ensures CheckTarget(target, targets, exposures, equity, risk) == None
  {
    hide CheckTarget;
    if target != remaining[0] {
      AcceptedTargetsEach(remaining[1..], targets, exposures, equity, risk, target);
    }
  }

  lemma {:induction false} UntouchedSum(exposures: seq<OpenExposure>, d: Dimension)
    requires forall e <- exposures :: !Touches(e, d)
    ensures ExposureSum(exposures, d) == 0.0
  {
    if exposures != [] {
      assert exposures[0] in exposures && forall e <- exposures[1..] :: e in exposures;
      UntouchedSum(exposures[1..], d);
    }
  }

  /** An accepted approval leaves every game, correlated, team and market sum it touches within its cap, and opposes
      nothing that is open. */
  lemma AcceptedWithinCaps(targets: seq<OpenExposure>, exposures: seq<OpenExposure>, equity: real, risk: RiskPolicy,
                           parlay: ParlayPolicy, d: Dimension)
    requires CheckTargets(targets, targets, exposures, equity, risk) == None && ExposureDimension(d)
    ensures ExposureSum(exposures + targets, d) <= Max(ExposureSum(exposures, d), Prod(equity, CapFraction(risk, parlay, d)))
    ensures forall e, t :: e in exposures && t in targets ==> !OpposedBy(e, t)
  {
    hide Prod, ExposureSum, CheckTargets;
    ExposureSumConcat(exposures, targets, d);
    forall e, t | e in exposures && t in targets ensures !OpposedBy(e, t) {
      AcceptedTargetsEach(targets, targets, exposures, equity, risk, t);
    }
    if exists t :: t in targets && Touches(t, d) {
      var t :| t in targets && Touches(t, d);
      AcceptedTargetsEach(targets, targets, exposures, equity, risk, t);
      assert !Exceeds(exposures, targets, equity, CapFraction(risk, parlay, d), d);
    } else {
      UntouchedSum(targets, d);
    }
  }
}
