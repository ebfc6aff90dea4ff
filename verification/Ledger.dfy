/** The rows of the portfolio ledger and what the repositories read out of them. */
module Ledger {
  import opened Wrappers
  import opened Numbers
  import opened Lists
  import opened PortfolioEngine

  // ----- Money -----

  /** Amounts are whole cents; a half cent rounds away from zero. */
  function Cents(amount: real): int {
    RoundHalfAway(amount * 100.0)
  }

  function Dollars(cents: int): real {
    cents as real / 100.0
  }

  // ----- Rows -----

  datatype Portfolio = Portfolio(owner: string, startingCapital: int)

  datatype BetStatus = Open | Settled

  datatype Bet = Bet(
    id: string,
    rowId: nat,
    portfolioId: string,
    kind: BetKind,
    canonicalEventId: Option<string>,
    providerEventId: Option<string>,
    eventName: Option<string>,
    homeTeam: Option<string>,
    awayTeam: Option<string>,
    marketType: string,
    selection: string,
    selectionSide: Option<string>,
    date: int,
    stake: int,
    status: BetStatus,
    result: Option<GameResult>,
    realizedPnl: Option<int>,
    settledAt: Option<int>)

  /** What an entry is about. The pair of portfolio and reference is unique. */
  datatype Reference = InitialFunding | StakeOf(betId: string) | SettlementOf(betId: string) | Reconciliation

  datatype Entry = Entry(portfolioId: string, reference: Reference, amount: int)

  datatype SettlementRow = SettlementRow(betId: string, outcome: GameResult, netPayout: int)

  datatype ApprovalRow = ApprovalRow(betId: string, owner: string, recommendationId: Option<string>)

  datatype RecommendationStatus = Proposed | Approved | Rejected

  datatype LegRow = LegRow(canonicalEventId: string, marketType: string, side: string)

  datatype DecisionRun = DecisionRun(slateDate: int, startingBankroll: int)

  datatype RecommendationRow = RecommendationRow(
    portfolioId: string,
    status: RecommendationStatus,
    kind: BetKind,
    classification: Option<PositionClass>,
    canonicalEventId: Option<string>,
    providerEventId: Option<string>,
    homeTeam: Option<string>,
    awayTeam: Option<string>,
    marketType: string,
    selection: string,
    selectionSide: Option<string>,
    recommendedStake: Option<real>,
    run: Option<DecisionRun>,
    legs: seq<LegRow>)

  /** The tables. Team names belong to canonical events and never change here. */
  datatype Db = Db(
    portfolios: map<string, Portfolio>,
    bets: seq<Bet>,
    entries: seq<Entry>,
    settlements: seq<SettlementRow>,
    approvals: seq<ApprovalRow>,
    recommendations: map<string, RecommendationRow>,
    events: map<string, (string, string)>)

  // ----- Reading totals -----

  function AmountIn(pid: string): Entry -> int {
    (e: Entry) => if e.portfolioId == pid then e.amount else 0
  }

  function AdjustmentIn(pid: string): Entry -> int {
    (e: Entry) => if e.portfolioId == pid && e.reference == Reconciliation then e.amount else 0
  }

  function OpenStakeIn(pid: string): Bet -> int {
    (b: Bet) => if b.portfolioId == pid && b.status == Open then b.stake else 0
  }

  function RealizedIn(pid: string): Bet -> int {
    (b: Bet) => if b.portfolioId == pid && b.status == Settled && b.realizedPnl.Some? then b.realizedPnl.value else 0
  }

  function Cash(db: Db, pid: string): int {
    Total(db.entries, AmountIn(pid))
  }

  function Adjustments(db: Db, pid: string): int {
    Total(db.entries, AdjustmentIn(pid))
  }

  function Reserved(db: Db, pid: string): int {
    Total(db.bets, OpenStakeIn(pid))
  }

  function Realized(db: Db, pid: string): int {
    Total(db.bets, RealizedIn(pid))
  }

  function Equity(db: Db, pid: string): int {
    Cash(db, pid) + Reserved(db, pid)
  }

  // ----- Reading rows -----

  function BelongsTo(pid: string): Bet -> bool {
    (b: Bet) => b.portfolioId == pid
  }

  function IsSettled(): Bet -> bool {
    (b: Bet) => b.status == Settled
  }

  function BetsOf(db: Db, pid: string): seq<Bet> {
    Where(db.bets, BelongsTo(pid))
  }

  predicate HasBet(bets: seq<Bet>, id: string) {
    exists b :: b in bets && b.id == id
  }

  function IndexOf(bets: seq<Bet>, id: string): (i: nat)
    requires HasBet(bets, id)
    ensures i < |bets| && bets[i].id == id
  {
    if bets[0].id == id then 0 else
      var b :| b in bets && b.id == id;
      assert b in bets[1..];
      1 + IndexOf(bets[1..], id)
  }

  /** The first bet with an id, as `scalar` returns it. */
  function FindBet(bets: seq<Bet>, id: string): Option<Bet> {
    if HasBet(bets, id) then Some(bets[IndexOf(bets, id)]) else None
  }

  function ForReference(reference: Reference): Entry -> bool {
    (e: Entry) => e.reference == reference
  }

  function ForRecommendation(id: string): ApprovalRow -> bool {
    (a: ApprovalRow) => a.recommendationId == Some(id)
  }

  function ForBet(id: string): SettlementRow -> bool {
    (s: SettlementRow) => s.betId == id
  }

  /** The bet an approved recommendation led to. */
  function ApprovedBet(db: Db, recommendationId: string): Option<string> {
    var rows := Where(db.approvals, ForRecommendation(recommendationId));
    if rows == [] then None else Some(rows[0].betId)
  }
}
