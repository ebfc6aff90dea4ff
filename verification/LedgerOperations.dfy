/** The ledger's transactions: what each reads, what it decides from that, and what it writes.

    Reading, deciding and writing are kept apart so that the same decision serves the atomic specification, the
    repository that runs it and the interleaved execution. */
module LedgerOperations {
  import opened Wrappers
  import opened PortfolioEngine
  import opened Ledger
  import opened ApprovalRisk

  // ----- Requests and answers -----

  datatype BetDetails = BetDetails(
    providerEventId: Option<string>,
    eventName: Option<string>,
    homeTeam: Option<string>,
    awayTeam: Option<string>,
    marketType: string,
    selection: string,
    date: int)

  /** Fresh identifiers and the clock are part of a request: any value may come. */
  datatype Request =
    | Place(owner: string, portfolioId: string, details: BetDetails, amount: real, newId: string, newRow: nat)
    | Settle(owner: string, portfolioId: string, betId: string, result: GameResult, payout: real, now: int)
    | Approve(owner: string, recommendationId: string, newId: string, newRow: nat)
    | Reject(owner: string, recommendationId: string)
    | Propose(owner: string, portfolioId: string, proposals: map<string, RecommendationRow>)
  {
    /** What the request schemas accept. */
    predicate Accepted() {
      match this
      case Place(_, _, _, amount, _, _) => amount > 0.0
      case Settle(_, _, _, Win, payout, _) => payout > 0.0
      case Settle(_, _, _, Loss, payout, _) => payout < 0.0
      case Settle(_, _, _, Push, payout, _) => payout == 0.0
      case _ => true
    }

    function PortfolioName(): string {
      if Place? || Settle? || Propose? then portfolioId else ""
    }
  }

  datatype Response =
    | BetRecorded(betId: string, bankrollAfter: int)
    | ResultRecorded(bankrollAfter: int)
    | BetApproved(betId: string, bankrollAfter: int)
    | AlreadyApproved(betId: string, bankrollAfter: int)
    | RecommendationRejected
    | ProposalsStored

  datatype LedgerError =
    | AccessDenied
    | InsufficientBankroll
    | IntegrityViolation
    | BetNotFound
    | BetAlreadySettled
    | InvalidLossPayout
    | RecommendationNotFound
    | MissingApproval
    | MissingBet
    | NotProposed
    | NoPositiveStake
    | MissingRun
    | RiskRefused(why: RiskRefusal)
    | IdempotencyConflict
    | UnfinishedRecord

  // ----- What a transaction reads -----

  datatype View = View(
    portfolio: Option<Portfolio>,
    cash: int,
    bets: seq<Bet>,
    exposures: seq<OpenExposure>,
    taken: bool,
    recommendation: Option<RecommendationRow>,
    approvedBet: Option<string>,
    approvedBetExists: bool,
    events: map<string, (string, string)>)

  function RecommendationOf(db: Db, req: Request): Option<RecommendationRow> {
    if (req.Approve? || req.Reject?) && req.recommendationId in db.recommendations
    then Some(db.recommendations[req.recommendationId]) else None
  }

  /** The portfolio a request works on; a recommendation names its own. */
  function PortfolioIdOf(rec: Option<RecommendationRow>, req: Request): string {
    if req.Place? || req.Settle? || req.Propose? then req.portfolioId
    else if rec.Some? then rec.value.portfolioId else ""
  }

  function PortfolioOf(db: Db, pid: string): Option<Portfolio> {
    if pid in db.portfolios then Some(db.portfolios[pid]) else None
  }

  /** A recommendation that is not found names no portfolio. */
  function PortfolioSeen(db: Db, rec: Option<RecommendationRow>, req: Request): Option<Portfolio> {
    if (req.Approve? || req.Reject?) && rec.None? then None else PortfolioOf(db, PortfolioIdOf(rec, req))
  }

  /** Whether an identifier that the request brings is in use. */
  function Taken(db: Db, req: Request): bool {
    match req
    case Place(_, _, _, _, newId, _) => HasBet(db.bets, newId)
    case Approve(_, _, newId, _) => HasBet(db.bets, newId)
    case Propose(_, _, proposals) => exists id <- proposals :: id in db.recommendations
    case _ => false
  }

  function ApprovedBetOf(db: Db, req: Request): Option<string> {
    if req.Approve? then ApprovedBet(db, req.recommendationId) else None
  }

  function ViewOf(db: Db, req: Request): View {
    var rec := RecommendationOf(db, req);
    var pid := PortfolioIdOf(rec, req);
    var approved := ApprovedBetOf(db, req);
    View(PortfolioSeen(db, rec, req), Cash(db, pid), BetsOf(db, pid), ExposuresIn(db, pid), Taken(db, req), rec, approved,
         approved.Some? && HasBet(db.bets, approved.value), db.events)
  }

  // ----- What a transaction writes -----

  datatype RecommendationWrite =
    | Untouched
    | Marked(id: string, status: RecommendationStatus)
    | Added(rows: map<string, RecommendationRow>)

  datatype Change = Change(
    portfolio: Option<(string, Portfolio)>,
    bets: seq<Bet>,
    closing: Option<(string, GameResult, int, Option<int>)>,
    entries: seq<Entry>,
    settlements: seq<SettlementRow>,
    approvals: seq<ApprovalRow>,
    recommendations: RecommendationWrite)

  const NOTHING := Change(None, [], None, [], [], [], Untouched)

  function ClosedBet(b: Bet, result: GameResult, payout: int, at: Option<int>): Bet {
    b.(status := Settled, result := Some(result), realizedPnl := Some(payout), settledAt := at)
  }

  function CloseIn(bets: seq<Bet>, closing: Option<(string, GameResult, int, Option<int>)>): seq<Bet> {
    if closing.Some? && HasBet(bets, closing.value.0) then
      var i := IndexOf(bets, closing.value.0);
      bets[i := ClosedBet(bets[i], closing.value.1, closing.value.2, closing.value.3)]
    else bets
  }

  function Apply(db: Db, change: Change): Db {
    db.(portfolios := if change.portfolio.Some? then db.portfolios[change.portfolio.value.0 := change.portfolio.value.1] else db.portfolios,
        bets := CloseIn(db.bets, change.closing) + change.bets,
        entries := db.entries + change.entries,
        settlements := db.settlements + change.settlements,
        approvals := db.approvals + change.approvals,
        recommendations := Written(db.recommendations, change.recommendations))
  }

  function Written(recommendations: map<string, RecommendationRow>, write: RecommendationWrite): map<string, RecommendationRow> {
    match write
    case Untouched => recommendations
    case Marked(id, status) =>
      if id in recommendations then recommendations[id := recommendations[id].(status := status)] else recommendations
    case Added(rows) => recommendations + rows
  }

  // ----- Decisions -----

  type Verdict = Result<(Change, Response), LedgerError>

  /** Opening a portfolio on first use writes its row and its initial funding. */
  function Opening(view: View, owner: string, pid: string, capital: int): Change {
    if view.portfolio.Some? then NOTHING
    else NOTHING.(portfolio := Some((pid, Portfolio(owner, capital))), entries := [Entry(pid, InitialFunding, capital)])
  }

  function CashSeen(view: View, capital: int): int {
    if view.portfolio.Some? then view.cash else capital
  }

  predicate Denied(view: View, owner: string) {
    view.portfolio.Some? && view.portfolio.value.owner != owner
  }

  function PlacedBetRow(req: Request, stake: int): Bet
    requires req.Place?
  {
    var d := req.details;
    Bet(req.newId, req.newRow, req.portfolioId, Straight, None, d.providerEventId, d.eventName, d.homeTeam, d.awayTeam,
        d.marketType, d.selection, None, d.date, stake, Open, None, None, None)
  }

  function DecidePlace(view: View, req: Request, p: Policies): Verdict
    requires req.Place?
  {
    var stake := Cents(req.amount);
    var opening := Opening(view, req.owner, req.portfolioId, p.startingCapital);
    if Denied(view, req.owner) then Err(AccessDenied)
    else if CashSeen(view, p.startingCapital) < stake then Err(InsufficientBankroll)
    else if stake <= 0 || view.taken then Err(IntegrityViolation)
    else
      var bet := PlacedBetRow(req, stake);
      Ok((opening.(bets := [bet],
                   entries := opening.entries + [Entry(req.portfolioId, StakeOf(bet.id), -stake)],
                   approvals := [ApprovalRow(bet.id, req.owner, None)]),
          BetRecorded(bet.id, CashSeen(view, p.startingCapital) - stake)))
  }

  function DecideSettle(view: View, req: Request, p: Policies): Verdict
    requires req.Settle?
  {
    if Denied(view, req.owner) then Err(AccessDenied)
    else if !HasBet(view.bets, req.betId) then Err(BetNotFound)
    else
      var bet := FindBet(view.bets, req.betId).value;
      var payout := Cents(req.payout);
      if bet.status == Settled || bet.result.Some? then Err(BetAlreadySettled)
      else if req.result == Loss && payout != -bet.stake then Err(InvalidLossPayout)
      else
        var opening := Opening(view, req.owner, req.portfolioId, p.startingCapital);
        Ok((opening.(closing := Some((bet.id, req.result, payout, Some(req.now))),
                     entries := opening.entries + [Entry(req.portfolioId, SettlementOf(bet.id), bet.stake + payout)],
                     settlements := [SettlementRow(bet.id, req.result, payout)]),
            ResultRecorded(CashSeen(view, p.startingCapital) + bet.stake + payout)))
  }

  function ApprovedBetRow(rec: RecommendationRow, run: DecisionRun, stake: int, id: string, row: nat): Bet {
    Bet(id, row, rec.portfolioId, rec.kind, rec.canonicalEventId, rec.providerEventId,
        Some(if rec.kind == Parlay then "Parlay of the Day" else rec.selection), rec.homeTeam, rec.awayTeam, rec.marketType,
        rec.selection, rec.selectionSide, run.slateDate, stake, Open, None, None, None)
  }

  function DecideApprove(view: View, req: Request, p: Policies): Verdict
    requires req.Approve?
  {
    if view.recommendation.None? then Err(RecommendationNotFound)
    else if view.portfolio.None? || Denied(view, req.owner) then Err(AccessDenied)
    else
      var rec := view.recommendation.value;
      if rec.status == Approved then
        if view.approvedBet.None? then Err(MissingApproval)
        else if !view.approvedBetExists then Err(MissingBet)
        else Ok((NOTHING, AlreadyApproved(view.approvedBet.value, view.cash)))
      else if rec.status != Proposed then Err(NotProposed)
      else
        var stake := Cents(if rec.recommendedStake.Some? then rec.recommendedStake.value else 0.0);
        if stake <= 0 then Err(NoPositiveStake)
        else if view.cash < stake then Err(InsufficientBankroll)
        else if rec.run.None? then Err(MissingRun)
        else
          var run := rec.run.value;
          var refusal := ValidateRisk(rec, run, stake, view.cash, view.bets, view.exposures,
                                      Targets(view.events, rec, stake, run.slateDate), p);
          if refusal.Some? then Err(RiskRefused(refusal.value))
          else if view.taken then Err(IntegrityViolation)
          else
            Ok((NOTHING.(bets := [ApprovedBetRow(rec, run, stake, req.newId, req.newRow)],
                         entries := [Entry(rec.portfolioId, StakeOf(req.newId), -stake)],
                         approvals := [ApprovalRow(req.newId, req.owner, Some(req.recommendationId))],
                         recommendations := Marked(req.recommendationId, Approved)),
                BetApproved(req.newId, view.cash - stake)))
  }

  function DecideReject(view: View, req: Request): Verdict
    requires req.Reject?
  {
    if view.recommendation.None? then Err(RecommendationNotFound)
    else if view.portfolio.None? || Denied(view, req.owner) then Err(AccessDenied)
    else if view.recommendation.value.status != Proposed then Err(NotProposed)
    else Ok((NOTHING.(recommendations := Marked(req.recommendationId, Rejected)), RecommendationRejected))
  }

  /** A decision's rows belong to its portfolio and start as proposals. */
  function ProposalRows(pid: string, proposals: map<string, RecommendationRow>): map<string, RecommendationRow> {
    map id | id in proposals :: proposals[id].(portfolioId := pid, status := Proposed)
  }

  function DecidePropose(view: View, req: Request, p: Policies): Verdict
    requires req.Propose?
  {
    if Denied(view, req.owner) then Err(AccessDenied)
    else if view.taken then Err(IntegrityViolation)
    else
      Ok((Opening(view, req.owner, req.portfolioId, p.startingCapital)
          .(recommendations := Added(ProposalRows(req.portfolioId, req.proposals))), ProposalsStored))
  }

  function DecideRequest(view: View, req: Request, p: Policies): Verdict {
    match req
    case Place(_, _, _, _, _, _) => DecidePlace(view, req, p)
    case Settle(_, _, _, _, _, _) => DecideSettle(view, req, p)
    case Approve(_, _, _, _) => DecideApprove(view, req, p)
    case Reject(_, _) => DecideReject(view, req)
    case Propose(_, _, _) => DecidePropose(view, req, p)
  }

  // ----- The atomic specification -----

  type Answer = Result<Response, LedgerError>

  /** One transaction: all of its change, or none of it. */
  function Execute(db: Db, req: Request, p: Policies): (Db, Answer) {
    match DecideRequest(ViewOf(db, req), req, p)
    case Ok(verdict) => (Apply(db, verdict.0), Ok(verdict.1))
    case Err(e) => (db, Err(e))
  }

  /** A run of transactions one after another, and their answers. */
  function ExecuteAll(db: Db, reqs: seq<Request>, p: Policies): (r: (Db, seq<Answer>))
    ensures |r.1| == |reqs|
  {
    if reqs == [] then (db, [])
    else
      var (before, answers) := ExecuteAll(db, reqs[..|reqs| - 1], p);
      var (after, answer) := Execute(before, reqs[|reqs| - 1], p);
      (after, answers + [answer])
  }
}
