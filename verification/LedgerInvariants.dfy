/** What every run of transactions keeps: conservation of money, and one trace in the ledger per bet and settlement. */
module LedgerInvariants {
  import opened Wrappers
  import opened Lists
  import opened PortfolioEngine
  import opened Ledger
  import opened ApprovalRisk
  import opened LedgerOperations

  // ----- The invariant -----

  ghost predicate DistinctIds(bets: seq<Bet>) {
    forall i, j :: 0 <= i < j < |bets| ==> bets[i].id != bets[j].id
  }

  function ApprovalFor(id: string): ApprovalRow -> bool {
    (a: ApprovalRow) => a.betId == id
  }

  /** Every row points at rows that exist. */
  ghost predicate Linked(db: Db) {
    && (forall b <- db.bets :: b.portfolioId in db.portfolios)
    && (forall e <- db.entries :: e.portfolioId in db.portfolios)
    && (forall e <- db.entries :: (e.reference.StakeOf? || e.reference.SettlementOf?) ==> HasBet(db.bets, e.reference.betId))
    && (forall s <- db.settlements :: HasBet(db.bets, s.betId))
    && (forall a <- db.approvals :: HasBet(db.bets, a.betId))
    && (forall a <- db.approvals :: a.recommendationId.Some? ==> a.recommendationId.value in db.recommendations)
    && (forall id <- db.recommendations :: db.recommendations[id].portfolioId in db.portfolios)
  }

  ghost predicate StakeTraced(entries: seq<Entry>, b: Bet) {
    Where(entries, ForReference(StakeOf(b.id))) == [Entry(b.portfolioId, StakeOf(b.id), -b.stake)]
  }

  ghost predicate SettlementTraced(entries: seq<Entry>, settlements: seq<SettlementRow>, b: Bet) {
    var paid, rows := Where(entries, ForReference(SettlementOf(b.id))), Where(settlements, ForBet(b.id));
    if b.status == Open then b.result == None && b.realizedPnl == None && paid == [] && rows == []
    else
      && b.result.Some? && b.realizedPnl.Some?
      && paid == [Entry(b.portfolioId, SettlementOf(b.id), b.stake + b.realizedPnl.value)]
      && rows == [SettlementRow(b.id, b.result.value, b.realizedPnl.value)]
  }

  ghost predicate ApprovedOnce(approvals: seq<ApprovalRow>, b: Bet) {
    |Where(approvals, ApprovalFor(b.id))| == 1
  }

  /** A bet has one stake entry and one approval; a settlement row and a settlement entry exactly when it is settled. */
  ghost predicate BetSound(db: Db, b: Bet) {
    b.stake > 0 && StakeTraced(db.entries, b) && SettlementTraced(db.entries, db.settlements, b) && ApprovedOnce(db.approvals, b)
  }

  /** An approved recommendation stands behind exactly one bet, any other behind none. */
  ghost predicate RecommendationSound(db: Db, id: string)
    requires id in db.recommendations
  {
    if db.recommendations[id].status == Approved then
      |Where(db.approvals, ForRecommendation(id))| == 1
    else Where(db.approvals, ForRecommendation(id)) == []
  }

  /** Cash and open stakes are the starting capital, what was won or lost, and any import adjustment. */
  ghost predicate Conserved(db: Db, pid: string)
    requires pid in db.portfolios
  {
    Cash(db, pid) + Reserved(db, pid) == db.portfolios[pid].startingCapital + Realized(db, pid) + Adjustments(db, pid)
  }

  ghost predicate Inv(db: Db) {
    && Linked(db) && DistinctIds(db.bets)
    && (forall b <- db.bets :: BetSound(db, b))
    && (forall id <- db.recommendations :: RecommendationSound(db, id))
    && (forall pid <- db.portfolios :: Conserved(db, pid))
  }

  ghost predicate Solvent(db: Db) {
    forall pid :: pid in db.portfolios ==> Cash(db, pid) >= 0
  }

  /** Before the first request. */
  function EmptyDb(events: map<string, (string, string)>): Db {
    Db(map[], [], [], [], [], map[], events)
  }

  lemma EmptyDbSound(events: map<string, (string, string)>)
    ensures Inv(EmptyDb(events)) && Solvent(EmptyDb(events))
  {
  }

  // ----- The four kinds of write -----

  function OpenPortfolio(db: Db, pid: string, portfolio: Portfolio): Db {
    db.(portfolios := db.portfolios[pid := portfolio],
        entries := db.entries + [Entry(pid, InitialFunding, portfolio.startingCapital)])
  }

  function AddBet(db: Db, b: Bet, approval: ApprovalRow): Db {
    db.(bets := db.bets + [b], entries := db.entries + [Entry(b.portfolioId, StakeOf(b.id), -b.stake)],
        approvals := db.approvals + [approval],
        recommendations := if approval.recommendationId.Some? then Mark(db, approval.recommendationId.value, Approved).recommendations
                           else db.recommendations)
  }

  function Mark(db: Db, id: string, status: RecommendationStatus): Db {
    if id in db.recommendations
    then db.(recommendations := db.recommendations[id := db.recommendations[id].(status := status)])
    else db
  }

  function CloseBet(db: Db, i: nat, result: GameResult, payout: int, at: Option<int>): Db
    requires i < |db.bets|
  {
    var b := db.bets[i];
    db.(bets := db.bets[i := ClosedBet(b, result, payout, at)],
        entries := db.entries + [Entry(b.portfolioId, SettlementOf(b.id), b.stake + payout)],
        settlements := db.settlements + [SettlementRow(b.id, result, payout)])
  }

  // ----- Each kind of write keeps the invariant -----

  lemma OpeningKeepsRows(db: Db, pid: string, portfolio: Portfolio, b: Bet)
    requires BetSound(db, b)
    ensures BetSound(OpenPortfolio(db, pid, portfolio), b)
  {
    hide Where;
    var funding := Entry(pid, InitialFunding, portfolio.startingCapital);
    WhereAppend(db.entries, funding, ForReference(StakeOf(b.id)));
    WhereAppend(db.entries, funding, ForReference(SettlementOf(b.id)));
  }

  lemma OpeningKeeps(db: Db, pid: string, portfolio: Portfolio)
    requires Inv(db) && pid !in db.portfolios
    ensures Inv(OpenPortfolio(db, pid, portfolio))
    ensures Cash(OpenPortfolio(db, pid, portfolio), pid) == portfolio.startingCapital
    ensures forall other :: other != pid ==> Cash(OpenPortfolio(db, pid, portfolio), other) == Cash(db, other)
  {
    hide Where, Total, HasBet;
    var after := OpenPortfolio(db, pid, portfolio);
    var funding := Entry(pid, InitialFunding, portfolio.startingCapital);
    forall b | b in after.bets ensures BetSound(after, b) { OpeningKeepsRows(db, pid, portfolio, b); }
    forall id | id in after.recommendations ensures RecommendationSound(after, id) {
      assert RecommendationSound(db, id);
    }
    forall other ensures Cash(after, other) == Cash(db, other) + AmountIn(other)(funding) {
      TotalAppend(db.entries, funding, AmountIn(other));
    }
    EmptyPortfolioHoldsNothing(db, pid);
    forall other | other in after.portfolios ensures Conserved(after, other) {
      TotalAppend(db.entries, funding, AdjustmentIn(other));
      if other != pid { assert Conserved(db, other); }
    }
  }

  lemma EmptyPortfolioHoldsNothing(db: Db, pid: string)
    requires Linked(db) && pid !in db.portfolios
    ensures Cash(db, pid) == Reserved(db, pid) == Realized(db, pid) == Adjustments(db, pid) == 0
  {
    TotalOfNothing(db.entries, AmountIn(pid));
    TotalOfNothing(db.entries, AdjustmentIn(pid));
    TotalOfNothing(db.bets, OpenStakeIn(pid));
    TotalOfNothing(db.bets, RealizedIn(pid));
  }

  lemma AddBetMoney(db: Db, b: Bet, approval: ApprovalRow, pid: string)
    requires b.status == Open
    ensures var after := AddBet(db, b, approval);
            && Cash(after, pid) == Cash(db, pid) - (if b.portfolioId == pid then b.stake else 0)
            && Reserved(after, pid) == Reserved(db, pid) + (if b.portfolioId == pid then b.stake else 0)
            && Realized(after, pid) == Realized(db, pid) && Adjustments(after, pid) == Adjustments(db, pid)
  {
    var entry := Entry(b.portfolioId, StakeOf(b.id), -b.stake);
    TotalAppend(db.entries, entry, AmountIn(pid));
    TotalAppend(db.entries, entry, AdjustmentIn(pid));
    TotalAppend(db.bets, b, OpenStakeIn(pid));
    TotalAppend(db.bets, b, RealizedIn(pid));
  }

  lemma NewBetHasNoRows(db: Db, id: string)
    requires Linked(db) && !HasBet(db.bets, id)
    ensures Where(db.entries, ForReference(StakeOf(id))) == [] && Where(db.entries, ForReference(SettlementOf(id))) == []
    ensures Where(db.settlements, ForBet(id)) == [] && Where(db.approvals, ApprovalFor(id)) == []
  {
    WhereNone(db.entries, ForReference(StakeOf(id)));
    WhereNone(db.entries, ForReference(SettlementOf(id)));
    WhereNone(db.settlements, ForBet(id));
    WhereNone(db.approvals, ApprovalFor(id));
  }

  lemma AddBetRowsOld(db: Db, b: Bet, approval: ApprovalRow, other: Bet)
    requires BetSound(db, other) && other.id != b.id && approval.betId == b.id
    ensures BetSound(AddBet(db, b, approval), other)
  {
    var entry := Entry(b.portfolioId, StakeOf(b.id), -b.stake);
    WhereAppend(db.entries, entry, ForReference(StakeOf(other.id)));
    WhereAppend(db.entries, entry, ForReference(SettlementOf(other.id)));
    WhereAppend(db.approvals, approval, ApprovalFor(other.id));
    hide Where;
  }

  lemma AddBetRowsNew(db: Db, b: Bet, approval: ApprovalRow)
    requires Linked(db) && !HasBet(db.bets, b.id) && b.status == Open && b.stake > 0 && approval.betId == b.id
    requires b.result == None && b.realizedPnl == None
    ensures BetSound(AddBet(db, b, approval), b)
  {
    hide Linked, StakeTraced, SettlementTraced, ApprovedOnce, Where;
    NewBetHasNoRows(db, b.id);
    NewBetTraces(db.entries, db.settlements, b);
    NewBetApproval(db.approvals, approval, b);
  }

  lemma NewBetTraces(entries: seq<Entry>, settlements: seq<SettlementRow>, b: Bet)
    requires Where(entries, ForReference(StakeOf(b.id))) == [] && Where(entries, ForReference(SettlementOf(b.id))) == []
    requires Where(settlements, ForBet(b.id)) == [] && b.status == Open && b.result == None && b.realizedPnl == None
    ensures StakeTraced(entries + [Entry(b.portfolioId, StakeOf(b.id), -b.stake)], b)
    ensures SettlementTraced(entries + [Entry(b.portfolioId, StakeOf(b.id), -b.stake)], settlements, b)
  {
    hide Where;
    var entry := Entry(b.portfolioId, StakeOf(b.id), -b.stake);
    WhereAppend(entries, entry, ForReference(StakeOf(b.id)));
    WhereAppend(entries, entry, ForReference(SettlementOf(b.id)));
  }

  lemma NewBetApproval(approvals: seq<ApprovalRow>, approval: ApprovalRow, b: Bet)
    requires Where(approvals, ApprovalFor(b.id)) == [] && approval.betId == b.id
    ensures ApprovedOnce(approvals + [approval], b)
  {
    hide Where;
    WhereAppend(approvals, approval, ApprovalFor(b.id));
  }

  lemma HasBetGrows(bets: seq<Bet>, more: seq<Bet>)
    ensures forall id :: HasBet(bets, id) ==> HasBet(bets + more, id)
  {
    forall id | HasBet(bets, id) ensures HasBet(bets + more, id) {
      var b :| b in bets && b.id == id;
      assert b in bets + more;
    }
  }

  lemma AddBetLinks(db: Db, b: Bet, approval: ApprovalRow)
    requires Linked(db) && DistinctIds(db.bets) && !HasBet(db.bets, b.id) && approval.betId == b.id
    requires b.portfolioId in db.portfolios
    requires approval.recommendationId.Some? ==> approval.recommendationId.value in db.recommendations
    ensures Linked(AddBet(db, b, approval)) && DistinctIds(AddBet(db, b, approval).bets)
  {
    var after := AddBet(db, b, approval);
    HasBetGrows(db.bets, [b]);
    assert HasBet(after.bets, b.id) by { assert b in after.bets; }
    forall i, j | 0 <= i < j < |after.bets| ensures after.bets[i].id != after.bets[j].id {
      if j == |db.bets| { assert db.bets[i] in db.bets; }
    }
  }

  lemma AddBetKeeps(db: Db, b: Bet, approval: ApprovalRow)
    requires Inv(db) && !HasBet(db.bets, b.id) && b.status == Open && b.stake > 0 && approval.betId == b.id
    requires b.result == None && b.realizedPnl == None && b.portfolioId in db.portfolios
    requires approval.recommendationId.Some? ==>
               approval.recommendationId.value in db.recommendations
               && db.recommendations[approval.recommendationId.value].status != Approved
    ensures Inv(AddBet(db, b, approval))
  {
    hide Where, Total;
    var after := AddBet(db, b, approval);
    AddBetLinks(db, b, approval);
    forall other | other in after.bets ensures BetSound(after, other) {
      hide BetSound;
      if other in db.bets {
        assert HasBet(db.bets, other.id);
        AddBetRowsOld(db, b, approval, other);
      } else {
        AddBetRowsNew(db, b, approval);
      }
    }
    forall id | id in after.recommendations ensures RecommendationSound(after, id) {
      assert RecommendationSound(db, id);
      WhereAppend(db.approvals, approval, ForRecommendation(id));
    }
    forall pid | pid in after.portfolios ensures Conserved(after, pid) {
      assert Conserved(db, pid);
      AddBetMoney(db, b, approval, pid);
    }
  }

  /** The money and the bets do not depend on recommendations. */
  lemma RecommendationsAside(db: Db, after: Db)
    requires Inv(db) && after == db.(recommendations := after.recommendations)
    requires Linked(after) && forall id <- after.recommendations :: RecommendationSound(after, id)
    ensures Inv(after)
  {
    hide Linked, RecommendationSound, StakeTraced, SettlementTraced, ApprovedOnce, Where, Total;
    forall b | b in after.bets ensures BetSound(after, b) { assert BetSound(db, b); }
    forall pid | pid in after.portfolios ensures Conserved(after, pid) { assert Conserved(db, pid); }
  }

  lemma MarkKeeps(db: Db, id: string, status: RecommendationStatus)
    requires Inv(db) && id in db.recommendations && db.recommendations[id].status != Approved && status != Approved
    ensures Inv(Mark(db, id, status))
  {
    hide BetSound, Conserved, Where;
    var after := Mark(db, id, status);
    forall other | other in after.recommendations ensures RecommendationSound(after, other) {
      assert RecommendationSound(db, other);
    }
    RecommendationsAside(db, after);
  }

  /** A decision adds its recommendations as proposals. */
  function StoreProposals(db: Db, rows: map<string, RecommendationRow>): Db {
    db.(recommendations := db.recommendations + rows)
  }

  lemma StoreProposalsKeeps(db: Db, rows: map<string, RecommendationRow>)
    requires Inv(db) && rows.Keys !! db.recommendations.Keys
    requires forall id <- rows :: rows[id].status == Proposed && rows[id].portfolioId in db.portfolios
    ensures Inv(StoreProposals(db, rows))
  {
    hide BetSound, Conserved, Where;
    var after := StoreProposals(db, rows);
    forall id | id in after.recommendations ensures RecommendationSound(after, id) {
      if id in rows { WhereNone(db.approvals, ForRecommendation(id)); } else { assert RecommendationSound(db, id); }
    }
    RecommendationsAside(db, after);
  }

  lemma CloseBetMoney(db: Db, i: nat, result: GameResult, payout: int, at: Option<int>, pid: string)
    requires i < |db.bets| && db.bets[i].status == Open
    ensures var after, b := CloseBet(db, i, result, payout, at), db.bets[i];
            && Cash(after, pid) == Cash(db, pid) + (if b.portfolioId == pid then b.stake + payout else 0)
            && Reserved(after, pid) == Reserved(db, pid) - (if b.portfolioId == pid then b.stake else 0)
            && Realized(after, pid) == Realized(db, pid) + (if b.portfolioId == pid then payout else 0)
            && Adjustments(after, pid) == Adjustments(db, pid)
  {
    var b := db.bets[i];
    var entry, closed := Entry(b.portfolioId, SettlementOf(b.id), b.stake + payout), ClosedBet(b, result, payout, at);
    TotalAppend(db.entries, entry, AmountIn(pid));
    TotalAppend(db.entries, entry, AdjustmentIn(pid));
    TotalUpdate(db.bets, i, closed, OpenStakeIn(pid));
    TotalUpdate(db.bets, i, closed, RealizedIn(pid));
  }

  lemma HasBetAfterClosing(bets: seq<Bet>, i: nat, b: Bet)
    requires i < |bets| && b.id == bets[i].id
    ensures forall id :: HasBet(bets, id) <==> HasBet(bets[i := b], id)
  {
    forall id ensures HasBet(bets, id) <==> HasBet(bets[i := b], id) {
      if HasBet(bets, id) {
        var j :| 0 <= j < |bets| && bets[j].id == id;
        assert bets[i := b][j].id == id && bets[i := b][j] in bets[i := b];
      }
      if HasBet(bets[i := b], id) {
        var j :| 0 <= j < |bets| && bets[i := b][j].id == id;
        assert bets[j].id == id && bets[j] in bets;
      }
    }
  }

  lemma CloseBetRowsOld(db: Db, i: nat, result: GameResult, payout: int, at: Option<int>, other: Bet)
    requires i < |db.bets| && BetSound(db, other) && other.id != db.bets[i].id
    ensures BetSound(CloseBet(db, i, result, payout, at), other)
  {
    hide Where;
    var b := db.bets[i];
    var entry := Entry(b.portfolioId, SettlementOf(b.id), b.stake + payout);
    WhereAppend(db.entries, entry, ForReference(StakeOf(other.id)));
    WhereAppend(db.entries, entry, ForReference(SettlementOf(other.id)));
    WhereAppend(db.settlements, SettlementRow(b.id, result, payout), ForBet(other.id));
  }

  lemma ClosedTraces(entries: seq<Entry>, settlements: seq<SettlementRow>, b: Bet, result: GameResult, payout: int, at: Option<int>)
    requires StakeTraced(entries, b) && SettlementTraced(entries, settlements, b) && b.status == Open
    ensures var closed := ClosedBet(b, result, payout, at);
            var paid := entries + [Entry(b.portfolioId, SettlementOf(b.id), b.stake + payout)];
            StakeTraced(paid, closed) && SettlementTraced(paid, settlements + [SettlementRow(b.id, result, payout)], closed)
  {
    hide Where;
    var entry := Entry(b.portfolioId, SettlementOf(b.id), b.stake + payout);
    WhereAppend(entries, entry, ForReference(StakeOf(b.id)));
    WhereAppend(entries, entry, ForReference(SettlementOf(b.id)));
    WhereAppend(settlements, SettlementRow(b.id, result, payout), ForBet(b.id));
  }

  lemma CloseBetRowsClosed(db: Db, i: nat, result: GameResult, payout: int, at: Option<int>)
    requires i < |db.bets| && BetSound(db, db.bets[i]) && db.bets[i].status == Open
    ensures BetSound(CloseBet(db, i, result, payout, at), ClosedBet(db.bets[i], result, payout, at))
  {
    hide StakeTraced, SettlementTraced, Where;
    ClosedTraces(db.entries, db.settlements, db.bets[i], result, payout, at);
  }

  lemma CloseBetLinks(db: Db, i: nat, result: GameResult, payout: int, at: Option<int>)
    requires Linked(db) && DistinctIds(db.bets) && i < |db.bets|
    ensures Linked(CloseBet(db, i, result, payout, at)) && DistinctIds(CloseBet(db, i, result, payout, at).bets)
  {
    var after, b := CloseBet(db, i, result, payout, at), db.bets[i];
    assert HasBet(db.bets, b.id);
    HasBetAfterClosing(db.bets, i, ClosedBet(b, result, payout, at));
    forall x | x in after.bets ensures x.portfolioId in after.portfolios {
      var j :| 0 <= j < |after.bets| && after.bets[j] == x;
      assert db.bets[j] in db.bets;
    }
  }

  lemma CloseBetKeeps(db: Db, i: nat, result: GameResult, payout: int, at: Option<int>)
    requires Inv(db) && i < |db.bets| && db.bets[i].status == Open
    ensures Inv(CloseBet(db, i, result, payout, at))
  {
    hide Where, Total;
    var after := CloseBet(db, i, result, payout, at);
    CloseBetLinks(db, i, result, payout, at);
    forall x | x in after.bets ensures BetSound(after, x) {
      hide BetSound;
      var j :| 0 <= j < |after.bets| && after.bets[j] == x;
      if j == i {
        CloseBetRowsClosed(db, i, result, payout, at);
      } else {
        assert x == db.bets[j] && x in db.bets && x.id != db.bets[i].id;
        CloseBetRowsOld(db, i, result, payout, at, x);
      }
    }
    forall id | id in after.recommendations ensures RecommendationSound(after, id) { assert RecommendationSound(db, id); }
    forall pid | pid in after.portfolios ensures Conserved(after, pid) {
      assert Conserved(db, pid);
      CloseBetMoney(db, i, result, payout, at, pid);
    }
  }

  // ----- Each transaction is made of those writes -----

  function Opened(db: Db, owner: string, pid: string, capital: int): Db {
    if pid in db.portfolios then db else OpenPortfolio(db, pid, Portfolio(owner, capital))
  }

  lemma PlaceIs(db: Db, req: Request, p: Policies)
    requires req.Place? && Execute(db, req, p).1.Ok?
    ensures var after := Execute(db, req, p).0;
            && !HasBet(db.bets, req.newId)
            && exists b :: NewOpenBet(b, req.newId, req.portfolioId, Cents(req.amount))
                           && after == AddBet(Opened(db, req.owner, req.portfolioId, p.startingCapital), b, ApprovalRow(b.id, req.owner, None))
    ensures 0 < Cents(req.amount)
            <= (if req.portfolioId in db.portfolios then Cash(db, req.portfolioId) else p.startingCapital)
  {
    hide Cash, BetsOf, ExposuresIn;
    var view := ViewOf(db, req);
    var change := DecidePlace(view, req, p).value.0;
    var ready := Opened(db, req.owner, req.portfolioId, p.startingCapital);
    var b := change.bets[0];
    assert NewOpenBet(b, req.newId, req.portfolioId, Cents(req.amount));
    var expected := AddBet(ready, b, ApprovalRow(b.id, req.owner, None));
    assert Apply(db, change).entries == expected.entries;
    assert Apply(db, change) == expected;
  }

  ghost predicate NewOpenBet(b: Bet, id: string, pid: string, stake: int) {
    b.id == id && b.portfolioId == pid && b.stake == stake && b.status == Open && b.result == None && b.realizedPnl == None
  }

  lemma IndexIsUnique(bets: seq<Bet>, i: nat)
    requires DistinctIds(bets) && i < |bets|
    ensures HasBet(bets, bets[i].id) && IndexOf(bets, bets[i].id) == i
  {
    assert bets[i] in bets;
    assert HasBet(bets, bets[i].id);
  }

  /** Looking a bet up in its portfolio finds the one row that the id names. */
  lemma FoundInPortfolio(db: Db, pid: string, id: string)
    requires DistinctIds(db.bets) && HasBet(BetsOf(db, pid), id)
    ensures HasBet(db.bets, id)
    ensures db.bets[IndexOf(db.bets, id)] == FindBet(BetsOf(db, pid), id).value
    ensures db.bets[IndexOf(db.bets, id)].portfolioId == pid
  {
    var found := FindBet(BetsOf(db, pid), id).value;
    assert found in BetsOf(db, pid);
    assert found in db.bets;
    var i :| 0 <= i < |db.bets| && db.bets[i] == found;
    IndexIsUnique(db.bets, i);
  }

  lemma SettleIs(db: Db, req: Request, p: Policies)
    requires req.Settle? && Inv(db) && Execute(db, req, p).1.Ok?
    ensures HasBet(db.bets, req.betId)
    ensures var i := IndexOf(db.bets, req.betId);
            && db.bets[i].status == Open && db.bets[i].portfolioId == req.portfolioId && db.bets[i].stake > 0
            && Execute(db, req, p).0 == CloseBet(db, i, req.result, Cents(req.payout), Some(req.now))
            && (req.result == Loss ==> Cents(req.payout) == -db.bets[i].stake)
  {
    hide Cash, ExposuresIn, BetsOf, StakeTraced, SettlementTraced, ApprovedOnce, Conserved, RecommendationSound;
    FoundInPortfolio(db, req.portfolioId, req.betId);
    var i := IndexOf(db.bets, req.betId);
    assert db.bets[i] in db.bets && BetSound(db, db.bets[i]);
    var after := Execute(db, req, p).0;
    var change := DecideSettle(ViewOf(db, req), req, p).value.0;
    assert change.entries == [Entry(req.portfolioId, SettlementOf(req.betId), db.bets[i].stake + Cents(req.payout))];
    assert after == Apply(db, change);
    assert after.bets == CloseBet(db, i, req.result, Cents(req.payout), Some(req.now)).bets;
  }

  lemma ApproveIs(db: Db, req: Request, p: Policies)
    requires req.Approve? && Execute(db, req, p).1.Ok? && Execute(db, req, p).1.value.BetApproved?
    ensures req.recommendationId in db.recommendations && !HasBet(db.bets, req.newId)
    ensures var rec := db.recommendations[req.recommendationId];
            && rec.status == Proposed && rec.portfolioId in db.portfolios && db.portfolios[rec.portfolioId].owner == req.owner
            && rec.run.Some? && rec.recommendedStake.Some?
            && 0 < Cents(rec.recommendedStake.value) <= Cash(db, rec.portfolioId)
            && Execute(db, req, p).0
               == AddBet(db, ApprovedBetRow(rec, rec.run.value, Cents(rec.recommendedStake.value), req.newId, req.newRow),
                         ApprovalRow(req.newId, req.owner, Some(req.recommendationId)))
            && ValidateRisk(rec, rec.run.value, Cents(rec.recommendedStake.value), Cash(db, rec.portfolioId),
                            BetsOf(db, rec.portfolioId), ExposuresIn(db, rec.portfolioId),
                            Targets(db.events, rec, Cents(rec.recommendedStake.value), rec.run.value.slateDate), p) == None
  {
    hide Cash, ExposuresIn, BetsOf, ValidateRisk, Targets;
  }

  lemma RejectIs(db: Db, req: Request, p: Policies)
    requires req.Reject? && Execute(db, req, p).1.Ok?
    ensures req.recommendationId in db.recommendations && db.recommendations[req.recommendationId].status == Proposed
    ensures Execute(db, req, p).0 == Mark(db, req.recommendationId, Rejected)
  {
    hide Cash, ExposuresIn, BetsOf;
    var change := DecideReject(ViewOf(db, req), req).value.0;
    assert Apply(db, change) == Mark(db, req.recommendationId, Rejected);
  }

  lemma ProposeIs(db: Db, req: Request, p: Policies)
    requires req.Propose? && Execute(db, req, p).1.Ok?
    ensures req.proposals.Keys !! db.recommendations.Keys
    ensures Execute(db, req, p).0
            == StoreProposals(Opened(db, req.owner, req.portfolioId, p.startingCapital), ProposalRows(req.portfolioId, req.proposals))
    ensures req.portfolioId in db.portfolios ==> db.portfolios[req.portfolioId].owner == req.owner
  {
    hide Cash, ExposuresIn, BetsOf;
    forall id | id in req.proposals ensures id !in db.recommendations { assert !Taken(db, req); }
    var ready := Opened(db, req.owner, req.portfolioId, p.startingCapital);
    var change := DecidePropose(ViewOf(db, req), req, p).value.0;
    assert Apply(db, change).entries == ready.entries;
    assert Apply(db, change) == StoreProposals(ready, ProposalRows(req.portfolioId, req.proposals));
  }

  lemma RefusedOrRepeated(db: Db, req: Request, p: Policies)
    requires Execute(db, req, p).1.Err? || Execute(db, req, p).1.value.AlreadyApproved?
    ensures Execute(db, req, p).0 == db
  {
    hide Cash, ExposuresIn, BetsOf, ValidateRisk;
    assert Apply(db, NOTHING) == db;
  }

  // ----- What one transaction does to the money -----

  /** Cash moves by minus the stake, by stake plus payout, or not at all. */
  lemma ExecuteKeeps(db: Db, req: Request, p: Policies)
    requires Inv(db)
    ensures Inv(Execute(db, req, p).0)
    ensures Solvent(db) && req.Accepted() && p.startingCapital >= 0 ==> Solvent(Execute(db, req, p).0)
  {
    hide Execute, Inv, Cash, Cents, AddBet, CloseBet, OpenPortfolio;
    var (after, answer) := Execute(db, req, p);
    if answer.Err? || answer.value.AlreadyApproved? {
      RefusedOrRepeated(db, req, p);
    } else {
      match req
      case Place(_, _, _, _, _, _) => PlaceKeeps(db, req, p);
      case Settle(_, _, _, _, _, _) => SettleKeeps(db, req, p);
      case Approve(_, _, _, _) =>
        AnswerMatches(db, req, p);
        ApproveKeeps(db, req, p);
      case Reject(_, _) => RejectKeeps(db, req, p);
      case Propose(_, _, _) => ProposeKeeps(db, req, p);
    }
  }

  lemma AnswerMatches(db: Db, req: Request, p: Policies)
    requires Execute(db, req, p).1.Ok?
    ensures match req
            case Place(_, _, _, _, _, _) => Execute(db, req, p).1.value.BetRecorded?
            case Settle(_, _, _, _, _, _) => Execute(db, req, p).1.value.ResultRecorded?
            case Approve(_, _, _, _) => Execute(db, req, p).1.value.BetApproved? || Execute(db, req, p).1.value.AlreadyApproved?
            case Reject(_, _) => Execute(db, req, p).1.value == RecommendationRejected
            case Propose(_, _, _) => Execute(db, req, p).1.value == ProposalsStored
  {
    hide Cash, ExposuresIn, BetsOf, ValidateRisk, Cents;
  }

  lemma OpenedKeeps(db: Db, owner: string, pid: string, capital: int)
    requires Inv(db)
    ensures Inv(Opened(db, owner, pid, capital)) && pid in Opened(db, owner, pid, capital).portfolios
    ensures Opened(db, owner, pid, capital).bets == db.bets
    ensures Cash(Opened(db, owner, pid, capital), pid) == (if pid in db.portfolios then Cash(db, pid) else capital)
    ensures Solvent(db) && capital >= 0 ==> Solvent(Opened(db, owner, pid, capital))
  {
    hide Inv, Cash;
    if pid !in db.portfolios { OpeningKeeps(db, pid, Portfolio(owner, capital)); }
  }

  lemma PlaceKeeps(db: Db, req: Request, p: Policies)
    requires Inv(db) && req.Place? && Execute(db, req, p).1.Ok?
    ensures Inv(Execute(db, req, p).0)
    ensures Solvent(db) && p.startingCapital >= 0 ==> Solvent(Execute(db, req, p).0)
  {
    hide Execute, Inv, Cash, Cents;
    PlaceIs(db, req, p);
    var ready := Opened(db, req.owner, req.portfolioId, p.startingCapital);
    OpenedKeeps(db, req.owner, req.portfolioId, p.startingCapital);
    var b :| NewOpenBet(b, req.newId, req.portfolioId, Cents(req.amount))
             && Execute(db, req, p).0 == AddBet(ready, b, ApprovalRow(b.id, req.owner, None));
    AddBetKeeps(ready, b, ApprovalRow(b.id, req.owner, None));
    forall pid ensures Cash(Execute(db, req, p).0, pid) == Cash(ready, pid) - (if b.portfolioId == pid then b.stake else 0) {
      AddBetMoney(ready, b, ApprovalRow(b.id, req.owner, None), pid);
    }
  }

  lemma SettleKeeps(db: Db, req: Request, p: Policies)
    requires Inv(db) && req.Settle? && Execute(db, req, p).1.Ok?
    ensures Inv(Execute(db, req, p).0)
    ensures Solvent(db) && req.Accepted() ==> Solvent(Execute(db, req, p).0)
  {
    hide Execute, Inv, Cash, Cents;
    SettleIs(db, req, p);
    var i := IndexOf(db.bets, req.betId);
    CloseBetKeeps(db, i, req.result, Cents(req.payout), Some(req.now));
    forall pid ensures Cash(Execute(db, req, p).0, pid)
                       == Cash(db, pid) + (if db.bets[i].portfolioId == pid then db.bets[i].stake + Cents(req.payout) else 0) {
      CloseBetMoney(db, i, req.result, Cents(req.payout), Some(req.now), pid);
    }
    if req.Accepted() { CentsSign(req.payout); }
  }

  lemma CentsSign(amount: real)
    ensures amount > 0.0 ==> Cents(amount) >= 0
    ensures amount == 0.0 ==> Cents(amount) == 0
  {
  }

  lemma ApproveKeeps(db: Db, req: Request, p: Policies)
    requires Inv(db) && req.Approve? && Execute(db, req, p).1.Ok? && Execute(db, req, p).1.value.BetApproved?
    ensures Inv(Execute(db, req, p).0)
    ensures Solvent(db) ==> Solvent(Execute(db, req, p).0)
  {
    hide Execute, Inv, Cash, Cents, ValidateRisk, Targets;
    ApproveIs(db, req, p);
    var rec := db.recommendations[req.recommendationId];
    var b := ApprovedBetRow(rec, rec.run.value, Cents(rec.recommendedStake.value), req.newId, req.newRow);
    var approval := ApprovalRow(req.newId, req.owner, Some(req.recommendationId));
    AddBetKeeps(db, b, approval);
    forall pid ensures Cash(Execute(db, req, p).0, pid) == Cash(db, pid) - (if b.portfolioId == pid then b.stake else 0) {
      AddBetMoney(db, b, approval, pid);
    }
  }

  lemma RejectKeeps(db: Db, req: Request, p: Policies)
    requires Inv(db) && req.Reject? && Execute(db, req, p).1.Ok?
    ensures Inv(Execute(db, req, p).0)
    ensures Solvent(db) ==> Solvent(Execute(db, req, p).0)
  {
    hide Execute, Inv;
    RejectIs(db, req, p);
    MarkKeeps(db, req.recommendationId, Rejected);
  }

  lemma ProposeKeeps(db: Db, req: Request, p: Policies)
    requires Inv(db) && req.Propose? && Execute(db, req, p).1.Ok?
    ensures Inv(Execute(db, req, p).0)
    ensures Solvent(db) && p.startingCapital >= 0 ==> Solvent(Execute(db, req, p).0)
  {
    hide Execute, Inv;
    ProposeIs(db, req, p);
    var ready := Opened(db, req.owner, req.portfolioId, p.startingCapital);
    OpenedKeeps(db, req.owner, req.portfolioId, p.startingCapital);
    assert ready.recommendations == db.recommendations;
    StoreProposalsKeeps(ready, ProposalRows(req.portfolioId, req.proposals));
  }

  // ----- Main results over runs -----

  lemma {:induction false} RunKeeps(db: Db, reqs: seq<Request>, p: Policies)
    requires Inv(db)
    ensures Inv(ExecuteAll(db, reqs, p).0)
    ensures Solvent(db) && (forall r <- reqs :: r.Accepted()) && p.startingCapital >= 0 ==> Solvent(ExecuteAll(db, reqs, p).0)
  {
    hide Execute, Inv, Solvent;
    if reqs != [] {
      var front := reqs[..|reqs| - 1];
      assert forall r <- front :: r in reqs;
      RunKeeps(db, front, p);
      ExecuteKeeps(ExecuteAll(db, front, p).0, reqs[|reqs| - 1], p);
    }
  }

  /** Over every run from sound tables: money is conserved in every portfolio, and cash never goes
      negative when it did not start so. */
  lemma MoneyIsConserved(db: Db, reqs: seq<Request>, p: Policies, pid: string)
    requires Inv(db) && Solvent(db) && (forall r <- reqs :: r.Accepted()) && p.startingCapital >= 0
    requires pid in ExecuteAll(db, reqs, p).0.portfolios
    ensures var after := ExecuteAll(db, reqs, p).0;
            && Cash(after, pid) + Reserved(after, pid)
               == after.portfolios[pid].startingCapital + Realized(after, pid) + Adjustments(after, pid)
            && Cash(after, pid) >= 0
  {
    RunKeeps(db, reqs, p);
    assert Conserved(ExecuteAll(db, reqs, p).0, pid);
  }

  lemma TracesMean(db: Db, b: Bet)
    requires BetSound(db, b)
    ensures var paid, rows := Where(db.entries, ForReference(SettlementOf(b.id))), Where(db.settlements, ForBet(b.id));
            && Where(db.entries, ForReference(StakeOf(b.id))) == [Entry(b.portfolioId, StakeOf(b.id), -b.stake)]
            && |paid| == |rows| == (if b.status == Settled then 1 else 0)
            && (b.status == Settled ==>
                  b.realizedPnl == Some(rows[0].netPayout) && b.result == Some(rows[0].outcome)
                  && paid[0].amount == b.stake + rows[0].netPayout)
  {
    hide Where;
  }

  /** Over every run: a bet has one stake entry, and one settlement entry and one settlement row if and only if it is
      settled. */
  lemma SettledExactlyOnce(db: Db, reqs: seq<Request>, p: Policies, b: Bet)
    requires Inv(db) && b in ExecuteAll(db, reqs, p).0.bets
    ensures var after := ExecuteAll(db, reqs, p).0;
            var paid, rows := Where(after.entries, ForReference(SettlementOf(b.id))), Where(after.settlements, ForBet(b.id));
            && Where(after.entries, ForReference(StakeOf(b.id))) == [Entry(b.portfolioId, StakeOf(b.id), -b.stake)]
            && |paid| == |rows| == (if b.status == Settled then 1 else 0)
            && (b.status == Settled ==>
                  b.realizedPnl == Some(rows[0].netPayout) && b.result == Some(rows[0].outcome)
                  && paid[0].amount == b.stake + rows[0].netPayout)
  {
    hide Where, Execute, ExecuteAll, BetSound;
    RunKeeps(db, reqs, p);
    TracesMean(ExecuteAll(db, reqs, p).0, b);
  }

  // ----- Repeating an approval -----

  /** The recommendation is approved, its bet exists, and the caller owns its portfolio. */
  ghost predicate ApprovedAs(db: Db, id: string, owner: string, betId: string) {
    && id in db.recommendations && db.recommendations[id].status == Approved
    && db.recommendations[id].portfolioId in db.portfolios
    && db.portfolios[db.recommendations[id].portfolioId].owner == owner
    && ApprovedBet(db, id) == Some(betId) && HasBet(db.bets, betId)
  }

  lemma ApprovalMakes(db: Db, req: Request, p: Policies)
    requires Inv(db) && req.Approve? && Execute(db, req, p).1.Ok?
    ensures match Execute(db, req, p).1.value
            case BetApproved(id, _) => id == req.newId && ApprovedAs(Execute(db, req, p).0, req.recommendationId, req.owner, id)
            case AlreadyApproved(id, _) => ApprovedAs(Execute(db, req, p).0, req.recommendationId, req.owner, id)
            case _ => false
  {
    AnswerMatches(db, req, p);
    if Execute(db, req, p).1.value.BetApproved? {
      FirstApprovalMakes(db, req, p);
    } else {
      RefusedOrRepeated(db, req, p);
      RepeatSeesApproved(db, req, p);
    }
  }

  lemma RepeatSeesApproved(db: Db, req: Request, p: Policies)
    requires req.Approve? && Execute(db, req, p).1.Ok? && Execute(db, req, p).1.value.AlreadyApproved?
    ensures ApprovedAs(db, req.recommendationId, req.owner, Execute(db, req, p).1.value.betId)
  {
    hide Cash, ExposuresIn, BetsOf, ValidateRisk;
  }

  lemma FirstApprovalNames(db: Db, req: Request, p: Policies)
    requires req.Approve? && Execute(db, req, p).1.Ok? && Execute(db, req, p).1.value.BetApproved?
    ensures Execute(db, req, p).1.value.betId == req.newId
  {
    hide Cash, ExposuresIn, BetsOf, ValidateRisk, Targets, Cents;
  }

  lemma FirstApprovalMakes(db: Db, req: Request, p: Policies)
    requires Inv(db) && req.Approve? && Execute(db, req, p).1.Ok? && Execute(db, req, p).1.value.BetApproved?
    ensures Execute(db, req, p).1.value.betId == req.newId
    ensures ApprovedAs(Execute(db, req, p).0, req.recommendationId, req.owner, req.newId)
  {
    hide Execute, Conserved, BetSound, Where, ValidateRisk, Targets, Cents, Cash;
    ApproveIs(db, req, p);
    FirstApprovalNames(db, req, p);
    assert RecommendationSound(db, req.recommendationId);
    var approval := ApprovalRow(req.newId, req.owner, Some(req.recommendationId));
    WhereAppend(db.approvals, approval, ForRecommendation(req.recommendationId));
    var after := Execute(db, req, p).0;
    assert after.bets[|db.bets|].id == req.newId && after.bets[|db.bets|] in after.bets;
  }

  lemma WritesKeepApproved(db: Db, id: string, owner: string, betId: string, next: Db)
    requires Inv(db) && Inv(next) && ApprovedAs(db, id, owner, betId)
    requires |db.approvals| <= |next.approvals| && next.approvals[..|db.approvals|] == db.approvals
    requires id in next.recommendations && next.recommendations[id] == db.recommendations[id]
    requires db.recommendations[id].portfolioId in next.portfolios
    requires next.portfolios[db.recommendations[id].portfolioId] == db.portfolios[db.recommendations[id].portfolioId]
    requires HasBet(next.bets, betId)
    ensures ApprovedAs(next, id, owner, betId)
  {
    hide Conserved, BetSound, Linked;
    assert RecommendationSound(db, id) && RecommendationSound(next, id);
    var added := next.approvals[|db.approvals|..];
    assert next.approvals == db.approvals + added;
    WhereConcat(db.approvals, added, ForRecommendation(id));
  }

  lemma ApprovedStays(db: Db, req: Request, p: Policies, id: string, owner: string, betId: string)
    requires Inv(db) && ApprovedAs(db, id, owner, betId)
    ensures ApprovedAs(Execute(db, req, p).0, id, owner, betId)
  {
    hide Execute, Inv, Cents, ValidateRisk, Targets, Where;
    var (after, answer) := Execute(db, req, p);
    ExecuteKeeps(db, req, p);
    if answer.Err? || answer.value.AlreadyApproved? {
      RefusedOrRepeated(db, req, p);
    } else {
      AnswerMatches(db, req, p);
      match req {
        case Place(_, _, _, _, _, _) =>
          PlaceIs(db, req, p);
          forall more ensures HasBet(db.bets + more, betId) { HasBetGrows(db.bets, more); }
        case Settle(_, _, _, _, _, _) =>
          SettleIs(db, req, p);
          var i := IndexOf(db.bets, req.betId);
          HasBetAfterClosing(db.bets, i, ClosedBet(db.bets[i], req.result, Cents(req.payout), Some(req.now)));
        case Approve(_, _, _, _) =>
          ApproveIs(db, req, p);
          forall more ensures HasBet(db.bets + more, betId) { HasBetGrows(db.bets, more); }
        case Reject(_, _) =>
          RejectIs(db, req, p);
        case Propose(_, _, _) =>
          ProposeIs(db, req, p);
      }
      WritesKeepApproved(db, id, owner, betId, after);
    }
  }

  lemma {:induction false} ApprovedStaysOverRuns(db: Db, reqs: seq<Request>, p: Policies, id: string, owner: string, betId: string)
    requires Inv(db) && ApprovedAs(db, id, owner, betId)
    ensures ApprovedAs(ExecuteAll(db, reqs, p).0, id, owner, betId)
  {
    hide Execute, Inv, ApprovedAs;
    if reqs != [] {
      var front := reqs[..|reqs| - 1];
      ApprovedStaysOverRuns(db, front, p, id, owner, betId);
      RunKeeps(db, front, p);
      ApprovedStays(ExecuteAll(db, front, p).0, reqs[|reqs| - 1], p, id, owner, betId);
    }
  }

  /** The bet an answer names. */
  function BetNamed(answer: Answer): string {
    match answer
    case Ok(BetRecorded(id, _)) => id
    case Ok(BetApproved(id, _)) => id
    case Ok(AlreadyApproved(id, _)) => id
    case _ => ""
  }

  /** However many transactions come between, approving again names the same bet and writes nothing. */
  lemma RepeatedApprovalChangesNothing(db: Db, first: Request, reqs: seq<Request>, again: Request, p: Policies)
    requires Inv(db) && first.Approve? && Execute(db, first, p).1.Ok?
    requires again.Approve? && again.owner == first.owner && again.recommendationId == first.recommendationId
    ensures var now := ExecuteAll(Execute(db, first, p).0, reqs, p).0;
            && again.recommendationId in now.recommendations
            && Execute(now, again, p)
               == (now, Ok(AlreadyApproved(BetNamed(Execute(db, first, p).1),
                                           Cash(now, now.recommendations[again.recommendationId].portfolioId))))
  {
    hide Execute, ExecuteAll, Inv, ApprovedAs, Cash;
    var (after, answer) := Execute(db, first, p);
    ApprovalMakes(db, first, p);
    ExecuteKeeps(db, first, p);
    ApprovedStaysOverRuns(after, reqs, p, first.recommendationId, first.owner, BetNamed(answer));
    ApprovedAnswersAgain(ExecuteAll(after, reqs, p).0, again, p, BetNamed(answer));
  }

  lemma ApprovedAnswersAgain(db: Db, req: Request, p: Policies, betId: string)
    requires req.Approve? && ApprovedAs(db, req.recommendationId, req.owner, betId)
    ensures req.recommendationId in db.recommendations
    ensures Execute(db, req, p) == (db, Ok(AlreadyApproved(betId, Cash(db, db.recommendations[req.recommendationId].portfolioId))))
  {
    hide Cash, ExposuresIn, BetsOf, ValidateRisk;
    assert Apply(db, NOTHING) == db;
  }

  // ----- Approving and rejecting exclude each other -----

  function NamedRow(req: Request): string {
    if req.Approve? || req.Reject? then req.recommendationId else ""
  }

  /** A transaction leaves other recommendations alone, moves its own out of Proposed only, adds proposals only, and loses
      no portfolio. */
  ghost predicate Gentle(db: Db, after: Db, req: Request) {
    && (forall id <- after.recommendations :: id in db.recommendations || (req.Propose? && id in req.proposals))
    && (forall id <- db.recommendations ::
          && id in after.recommendations
          && (|| after.recommendations[id] == db.recommendations[id]
              || (id == NamedRow(req) && (req.Approve? || req.Reject?) && db.recommendations[id].status == Proposed
                  && after.recommendations[id] == db.recommendations[id].(status := if req.Approve? then Approved else Rejected))))
    && (forall pid <- db.portfolios :: pid in after.portfolios && after.portfolios[pid] == db.portfolios[pid])
    && after.events == db.events
  }

  lemma TransactionsAreGentle(db: Db, req: Request, p: Policies)
    requires Inv(db)
    ensures Gentle(db, Execute(db, req, p).0, req)
  {
    hide Execute, Inv, Cents, ValidateRisk, Targets, Cash;
    var answer := Execute(db, req, p).1;
    if answer.Err? || answer.value.AlreadyApproved? {
      RefusedOrRepeated(db, req, p);
    } else {
      AnswerMatches(db, req, p);
      match req {
        case Place(_, _, _, _, _, _) => PlaceIs(db, req, p);
        case Settle(_, _, _, _, _, _) => SettleIs(db, req, p);
        case Approve(_, _, _, _) => ApproveIs(db, req, p);
        case Reject(_, _) => RejectIs(db, req, p);
        case Propose(_, _, _) => ProposeIs(db, req, p);
      }
    }
  }

  ghost predicate HasStatus(db: Db, id: string, status: RecommendationStatus) {
    id in db.recommendations && db.recommendations[id].status == status
  }

  /** What a successful approval or rejection leaves behind. */
  ghost predicate ShownBy(db: Db, req: Request) {
    && (req.Approve? ==> HasStatus(db, req.recommendationId, Approved))
    && (req.Reject? ==> HasStatus(db, req.recommendationId, Rejected))
  }

  /** A status other than Proposed is final, and a success sets its own. */
  lemma StatusesAfter(db: Db, req: Request, p: Policies)
    requires Inv(db)
    ensures forall id, status :: HasStatus(db, id, status) && status != Proposed ==> HasStatus(Execute(db, req, p).0, id, status)
    ensures Execute(db, req, p).1.Ok? ==> ShownBy(Execute(db, req, p).0, req)
  {
    TransactionsAreGentle(db, req, p);
    if Execute(db, req, p).1.Ok? {
      if req.Approve? { ApprovalMakes(db, req, p); }
      if req.Reject? { RejectIs(db, req, p); }
    }
    hide Execute, Inv;
  }

  /** At the end of a run every recommendation still shows each approval and rejection of it that succeeded. */
  lemma {:induction false} SuccessesShow(db: Db, reqs: seq<Request>, p: Policies, k: nat)
    requires Inv(db) && k < |reqs| && ExecuteAll(db, reqs, p).1[k].Ok?
    ensures ShownBy(ExecuteAll(db, reqs, p).0, reqs[k])
  {
    hide Execute, Inv;
    var n := |reqs| - 1;
    RunKeeps(db, reqs[..n], p);
    StatusesAfter(ExecuteAll(db, reqs[..n], p).0, reqs[n], p);
    if k < n { SuccessesShow(db, reqs[..n], p, k); }
  }

  /** Approving and rejecting one recommendation never both succeed, at whatever places of a run and in whichever order. */
  lemma ApprovedExcludesRejected(db: Db, reqs: seq<Request>, p: Policies, i: nat, j: nat)
    requires Inv(db) && i < |reqs| && j < |reqs| && reqs[i].Approve? && reqs[j].Reject?
    requires reqs[i].recommendationId == reqs[j].recommendationId
    ensures !(ExecuteAll(db, reqs, p).1[i].Ok? && ExecuteAll(db, reqs, p).1[j].Ok?)
  {
    hide ExecuteAll, Inv;
    if ExecuteAll(db, reqs, p).1[i].Ok? && ExecuteAll(db, reqs, p).1[j].Ok? {
      SuccessesShow(db, reqs, p, i);
      SuccessesShow(db, reqs, p, j);
    }
  }

  // ----- Runs from nothing -----

  /** Portfolios as first opened: the configured capital, and no import adjustment. */
  ghost predicate FromNothing(db: Db, capital: int) {
    && (forall pid <- db.portfolios :: db.portfolios[pid].startingCapital == capital)
    && (forall e <- db.entries :: e.reference != Reconciliation)
  }

  lemma StepStaysFromNothing(db: Db, req: Request, p: Policies)
    requires Inv(db) && FromNothing(db, p.startingCapital)
    ensures FromNothing(Execute(db, req, p).0, p.startingCapital)
  {
    hide Execute, Inv, Cents, ValidateRisk, Targets, Cash;
    var answer := Execute(db, req, p).1;
    if answer.Err? || answer.value.AlreadyApproved? {
      RefusedOrRepeated(db, req, p);
    } else {
      AnswerMatches(db, req, p);
      match req {
        case Place(_, _, _, _, _, _) => PlaceIs(db, req, p);
        case Settle(_, _, _, _, _, _) => SettleIs(db, req, p);
        case Approve(_, _, _, _) => ApproveIs(db, req, p);
        case Reject(_, _) => RejectIs(db, req, p);
        case Propose(_, _, _) => ProposeIs(db, req, p);
      }
    }
  }

  lemma {:induction false} RunStaysFromNothing(db: Db, reqs: seq<Request>, p: Policies)
    requires Inv(db) && FromNothing(db, p.startingCapital)
    ensures FromNothing(ExecuteAll(db, reqs, p).0, p.startingCapital)
  {
    hide Execute, Inv, FromNothing;
    if reqs != [] {
      var front := reqs[..|reqs| - 1];
      RunStaysFromNothing(db, front, p);
      RunKeeps(db, front, p);
      StepStaysFromNothing(ExecuteAll(db, front, p).0, reqs[|reqs| - 1], p);
    }
  }

  /** Whatever is asked of empty tables: every portfolio there is holds, in cash and open stakes, the configured capital and
      what its settled bets won or lost, with cash never negative. */
  lemma MoneyFromNothing(events: map<string, (string, string)>, reqs: seq<Request>, p: Policies, pid: string)
    requires (forall r <- reqs :: r.Accepted()) && p.startingCapital >= 0
    requires pid in ExecuteAll(EmptyDb(events), reqs, p).0.portfolios
    ensures var after := ExecuteAll(EmptyDb(events), reqs, p).0;
            && Cash(after, pid) + Reserved(after, pid) == p.startingCapital + Realized(after, pid)
            && Cash(after, pid) >= 0
  {
    EmptyDbSound(events);
    assert FromNothing(EmptyDb(events), p.startingCapital);
    hide Execute, Inv, Solvent, EmptyDb, Cash, Reserved, Realized;
    MoneyIsConserved(EmptyDb(events), reqs, p, pid);
    RunStaysFromNothing(EmptyDb(events), reqs, p);
    TotalOfNothing(ExecuteAll(EmptyDb(events), reqs, p).0.entries, AdjustmentIn(pid));
  }

  // ----- What the answers report -----

  lemma PlaceReportsCash(db: Db, req: Request, p: Policies)
    requires Inv(db) && req.Place? && Execute(db, req, p).1.Ok?
    ensures Execute(db, req, p).1.value == BetRecorded(req.newId, Cash(Execute(db, req, p).0, req.portfolioId))
  {
    hide Execute, Inv, Cash, Cents;
    PlaceAnswers(db, req, p);
    PlaceMoves(db, req, p);
  }

  lemma PlaceMoves(db: Db, req: Request, p: Policies)
    requires Inv(db) && req.Place? && Execute(db, req, p).1.Ok?
    ensures Cash(Execute(db, req, p).0, req.portfolioId)
            == (if req.portfolioId in db.portfolios then Cash(db, req.portfolioId) else p.startingCapital) - Cents(req.amount)
  {
    hide Execute, Inv, Cash, Cents, AddBet, Opened;
    PlaceIs(db, req, p);
    var ready := Opened(db, req.owner, req.portfolioId, p.startingCapital);
    OpenedKeeps(db, req.owner, req.portfolioId, p.startingCapital);
    var b :| NewOpenBet(b, req.newId, req.portfolioId, Cents(req.amount))
             && Execute(db, req, p).0 == AddBet(ready, b, ApprovalRow(b.id, req.owner, None));
    AddBetMoney(ready, b, ApprovalRow(b.id, req.owner, None), req.portfolioId);
  }

  lemma PlaceAnswers(db: Db, req: Request, p: Policies)
    requires req.Place? && Execute(db, req, p).1.Ok?
    ensures Execute(db, req, p).1.value
            == BetRecorded(req.newId, (if req.portfolioId in db.portfolios then Cash(db, req.portfolioId) else p.startingCapital)
                                      - Cents(req.amount))
  {
    hide Cash, BetsOf, ExposuresIn, Cents;
  }

  lemma SettleAnswers(db: Db, req: Request, p: Policies)
    requires Inv(db) && req.Settle? && Execute(db, req, p).1.Ok? && HasBet(db.bets, req.betId)
    ensures Execute(db, req, p).1.value
            == ResultRecorded(Cash(db, req.portfolioId) + db.bets[IndexOf(db.bets, req.betId)].stake + Cents(req.payout))
  {
    hide Cash, ExposuresIn, BetsOf, BetSound, Conserved, RecommendationSound, Cents;
    FoundInPortfolio(db, req.portfolioId, req.betId);
    assert db.bets[IndexOf(db.bets, req.betId)] in db.bets;
  }

  lemma SettleReportsCash(db: Db, req: Request, p: Policies)
    requires Inv(db) && req.Settle? && Execute(db, req, p).1.Ok?
    ensures Execute(db, req, p).1.value == ResultRecorded(Cash(Execute(db, req, p).0, req.portfolioId))
  {
    hide Execute, Inv, Cash, CloseBet, Cents;
    SettleIs(db, req, p);
    SettleAnswers(db, req, p);
    CloseBetMoney(db, IndexOf(db.bets, req.betId), req.result, Cents(req.payout), Some(req.now), req.portfolioId);
  }

  lemma ApproveAnswers(db: Db, req: Request, p: Policies)
    requires req.Approve? && Execute(db, req, p).1.Ok?
    ensures req.recommendationId in db.recommendations
    ensures var rec := db.recommendations[req.recommendationId];
            match Execute(db, req, p).1.value
            case BetApproved(_, cash) => rec.recommendedStake.Some? && cash == Cash(db, rec.portfolioId) - Cents(rec.recommendedStake.value)
            case AlreadyApproved(_, cash) => cash == Cash(db, rec.portfolioId)
            case _ => false
  {
    hide Cash, ExposuresIn, BetsOf, ValidateRisk, Targets;
    var zero := Cents(0.0);
    assert zero == 0;
  }

  lemma ApproveReportsCash(db: Db, req: Request, p: Policies)
    requires Inv(db) && req.Approve? && Execute(db, req, p).1.Ok?
    ensures req.recommendationId in db.recommendations
    ensures var pid := db.recommendations[req.recommendationId].portfolioId;
            match Execute(db, req, p).1.value
            case BetApproved(_, cash) => cash == Cash(Execute(db, req, p).0, pid)
            case AlreadyApproved(_, cash) => cash == Cash(Execute(db, req, p).0, pid)
            case _ => false
  {
    hide Execute, Inv, Cash, Cents, AddBet, ValidateRisk, Targets;
    ApproveAnswers(db, req, p);
    var rec := db.recommendations[req.recommendationId];
    if Execute(db, req, p).1.value.BetApproved? {
      ApproveIs(db, req, p);
      AddBetMoney(db, ApprovedBetRow(rec, rec.run.value, Cents(rec.recommendedStake.value), req.newId, req.newRow),
                  ApprovalRow(req.newId, req.owner, Some(req.recommendationId)), rec.portfolioId);
    } else {
      RefusedOrRepeated(db, req, p);
    }
  }
}
