/** Approvals keep equity, extend the open exposures by what was checked, and so keep every cap over whole runs. */
module ApprovalInvariants {
  import opened Wrappers
  import opened Numbers
  import opened Lists
  import opened PortfolioEngine
  import PortfolioDecisions
  import opened Ledger
  import opened ApprovalRisk
  import opened LedgerOperations
  import opened LedgerInvariants

  // ----- Totals of one portfolio -----

  function StakeOnDayIn(pid: string, date: int): Bet -> int {
    (b: Bet) => if b.portfolioId == pid && b.status == Open && b.date == date then b.stake else 0
  }

  function ParlayStakeOnDayIn(pid: string, date: int): Bet -> int {
    (b: Bet) => if b.portfolioId == pid && b.status == Open && b.date == date && b.kind == Parlay then b.stake else 0
  }

  /** The totals that the approval check takes from the portfolio's bets are the portfolio's totals. */
  lemma PortfolioTotals(db: Db, pid: string, date: int)
    ensures Total(BetsOf(db, pid), OpenStake()) == Reserved(db, pid)
    ensures Total(BetsOf(db, pid), StakeOnDay(date)) == Total(db.bets, StakeOnDayIn(pid, date))
    ensures Total(BetsOf(db, pid), ParlayStakeOnDay(date)) == Total(db.bets, ParlayStakeOnDayIn(pid, date))
  {
    hide Total, Where;
    TotalWhere(db.bets, BelongsTo(pid), OpenStake(), OpenStakeIn(pid));
    TotalWhere(db.bets, BelongsTo(pid), StakeOnDay(date), StakeOnDayIn(pid, date));
    TotalWhere(db.bets, BelongsTo(pid), ParlayStakeOnDay(date), ParlayStakeOnDayIn(pid, date));
  }

  // ----- How open exposures change -----

  lemma {:induction false} ApprovalOfAppend(approvals: seq<ApprovalRow>, a: ApprovalRow, id: string)
    ensures ApprovalOf(approvals + [a], id)
            == if ApprovalOf(approvals, id).Some? then ApprovalOf(approvals, id)
               else if a.betId == id then Some(a) else None
  {
    if approvals == [] {
      assert approvals + [a] == [a];
    } else {
      assert (approvals + [a])[1..] == approvals[1..] + [a];
      ApprovalOfAppend(approvals[1..], a, id);
    }
  }

  lemma {:induction false} ApprovalOfNone(approvals: seq<ApprovalRow>, id: string)
    requires forall a <- approvals :: a.betId != id
    ensures ApprovalOf(approvals, id) == None
  {
    if approvals != [] {
      assert approvals[0] in approvals && forall a <- approvals[1..] :: a in approvals;
      ApprovalOfNone(approvals[1..], id);
    }
  }

  lemma OldExposuresStay(db: Db, b: Bet, approval: ApprovalRow, other: Bet)
    requires approval.betId == b.id && other.id != b.id
    ensures ExposuresOfBet(AddBet(db, b, approval), other) == ExposuresOfBet(db, other)
  {
    ApprovalOfAppend(db.approvals, approval, other.id);
  }

  lemma {:induction false} OldExposuresStayOver(db: Db, b: Bet, approval: ApprovalRow, bets: seq<Bet>, pid: string)
    requires approval.betId == b.id && !HasBet(bets, b.id)
    ensures ExposuresOver(AddBet(db, b, approval), bets, pid) == ExposuresOver(db, bets, pid)
  {
    hide ExposuresOfBet, AddBet;
    if bets != [] {
      assert bets[0] in bets && forall x <- bets[1..] :: x in bets;
      OldExposuresStay(db, b, approval, bets[0]);
      OldExposuresStayOver(db, b, approval, bets[1..], pid);
    }
  }

  lemma {:induction false} ExposuresOverAppend(db: Db, bets: seq<Bet>, b: Bet, pid: string)
    ensures ExposuresOver(db, bets + [b], pid) == ExposuresOver(db, bets, pid) + (if IsOpenIn(b, pid) then ExposuresOfBet(db, b) else [])
  {
    hide ExposuresOfBet;
    if bets == [] {
      assert bets + [b] == [b];
    } else {
      assert (bets + [b])[1..] == bets[1..] + [b];
      ExposuresOverAppend(db, bets[1..], b, pid);
    }
  }

  lemma AddBetExposes(db: Db, b: Bet, approval: ApprovalRow, pid: string)
    requires approval.betId == b.id && !HasBet(db.bets, b.id)
    ensures var after := AddBet(db, b, approval);
            ExposuresIn(after, pid) == ExposuresIn(db, pid) + (if IsOpenIn(b, pid) then ExposuresOfBet(after, b) else [])
  {
    var after := AddBet(db, b, approval);
    assert after.bets == db.bets + [b];
    hide AddBet, ExposuresOfBet, ExposuresOver;
    OldExposuresStayOver(db, b, approval, db.bets, pid);
    ExposuresOverAppend(after, db.bets, b, pid);
  }

  /** The name the open exposure of an approved straight bet goes by when it has no canonical event. */
  function FallbackName(rec: RecommendationRow, newId: string): string {
    if Present(rec.providerEventId) then rec.providerEventId.value
    else if rec.selection != "" then rec.selection
    else newId
  }

  /** Whether the approval check looked at the game the bet will be counted under. */
  predicate CheckedUnderItsName(rec: RecommendationRow, newId: string) {
    rec.kind == Parlay || rec.canonicalEventId.Some? || FallbackName(rec, newId) == "None"
  }

  lemma ApprovedBetExposes(db: Db, id: string, b: Bet, rec: RecommendationRow, run: DecisionRun, stake: int, newRow: nat, owner: string)
    requires Linked(db) && id in db.recommendations && rec == db.recommendations[id] && !HasBet(db.bets, b.id)
    requires b == ApprovedBetRow(rec, run, stake, b.id, newRow)
    ensures ExposuresOfBet(AddBet(db, b, ApprovalRow(b.id, owner, Some(id))), b) == Targets(db.events, rec, stake, run.slateDate)
            <==> CheckedUnderItsName(rec, b.id)
  {
    var approval := ApprovalRow(b.id, owner, Some(id));
    ApprovalOfNone(db.approvals, b.id);
    ApprovalOfAppend(db.approvals, approval, b.id);
    var after := AddBet(db, b, approval);
    assert LegsBehind(after, b.id) == Some(rec.legs);
    assert after.events == db.events;
    hide AddBet, ApprovalOf, LegsBehind;
    if rec.kind == Straight {
      var exposed, checked := ExposuresOfBet(after, b), Targets(db.events, rec, stake, run.slateDate);
      assert exposed[0].eventId == checked[0].eventId <==> exposed == checked;
    }
  }

  /** An approval leaves equity as it is, and adds exactly the checked targets to the open exposures if and only if the
      game was checked under the name it is counted by. */
  lemma ApprovalExtendsExposures(db: Db, req: Request, p: Policies)
    requires Inv(db) && req.Approve? && Execute(db, req, p).1.Ok? && Execute(db, req, p).1.value.BetApproved?
    ensures req.recommendationId in db.recommendations
    ensures var rec := db.recommendations[req.recommendationId];
            && rec.run.Some? && rec.recommendedStake.Some?
            && (ExposuresIn(Execute(db, req, p).0, rec.portfolioId)
                == ExposuresIn(db, rec.portfolioId)
                   + Targets(db.events, rec, Cents(rec.recommendedStake.value), rec.run.value.slateDate)
                <==> CheckedUnderItsName(rec, req.newId))
    ensures forall pid :: Equity(Execute(db, req, p).0, pid) == Equity(db, pid)
    ensures forall pid :: pid != db.recommendations[req.recommendationId].portfolioId
                          ==> ExposuresIn(Execute(db, req, p).0, pid) == ExposuresIn(db, pid)
  {
    hide Execute, ExposuresOfBet, ExposuresOver, Cash, Reserved, Targets, Cents, ValidateRisk, AddBet, CheckedUnderItsName;
    ApproveIs(db, req, p);
    var rec := db.recommendations[req.recommendationId];
    var stake := Cents(rec.recommendedStake.value);
    var b := ApprovedBetRow(rec, rec.run.value, stake, req.newId, req.newRow);
    var approval := ApprovalRow(req.newId, req.owner, Some(req.recommendationId));
    var after := AddBet(db, b, approval);
    forall pid ensures Equity(after, pid) == Equity(db, pid) {
      AddBetMoney(db, b, approval, pid);
    }
    forall pid | pid != rec.portfolioId ensures ExposuresIn(after, pid) == ExposuresIn(db, pid) {
      AddBetExposes(db, b, approval, pid);
    }
    AddBetExposes(db, b, approval, rec.portfolioId);
    ApprovedBetExposes(db, req.recommendationId, b, rec, rec.run.value, stake, req.newRow, req.owner);
    SuffixAgrees(ExposuresIn(db, rec.portfolioId), ExposuresOfBet(after, b), Targets(db.events, rec, stake, rec.run.value.slateDate));
  }

  lemma SuffixAgrees<T>(front: seq<T>, a: seq<T>, b: seq<T>)
    ensures front + a == front + b <==> a == b
  {
    if front + a == front + b {
      assert (front + a)[|front|..] == a && (front + b)[|front|..] == b;
    }
  }

  // ----- Closing a bet -----

  /** The other tables have the same approvals, and the same legs behind each of them. */
  ghost predicate SameLegs(db: Db, other: Db) {
    && other.approvals == db.approvals && other.events == db.events
    && (forall id <- db.recommendations :: id in other.recommendations && other.recommendations[id].legs == db.recommendations[id].legs)
    && (forall a <- db.approvals :: a.recommendationId.Some? && a.recommendationId.value in other.recommendations
                                    ==> a.recommendationId.value in db.recommendations)
  }

  lemma {:induction false} ApprovalOfIsOne(approvals: seq<ApprovalRow>, id: string)
    ensures ApprovalOf(approvals, id).Some? ==> ApprovalOf(approvals, id).value in approvals
  {
    if approvals != [] { ApprovalOfIsOne(approvals[1..], id); }
  }

  lemma {:induction false} SameExposuresOver(db: Db, other: Db, bets: seq<Bet>, pid: string)
    requires SameLegs(db, other)
    ensures ExposuresOver(other, bets, pid) == ExposuresOver(db, bets, pid)
  {
    if bets != [] {
      ApprovalOfIsOne(db.approvals, bets[0].id);
      assert LegsBehind(other, bets[0].id) == LegsBehind(db, bets[0].id);
      hide LegsBehind, SameLegs;
      SameExposuresOver(db, other, bets[1..], pid);
    }
  }

  lemma {:induction false} ClosedDropsOut(db: Db, bets: seq<Bet>, i: nat, closed: Bet, pid: string, d: Dimension)
    requires i < |bets| && closed.status == Settled
    ensures ExposureSum(ExposuresOver(db, bets[i := closed], pid), d)
            == ExposureSum(ExposuresOver(db, bets, pid), d)
               - (if IsOpenIn(bets[i], pid) then ExposureSum(ExposuresOfBet(db, bets[i]), d) else 0.0)
    ensures forall e <- ExposuresOver(db, bets[i := closed], pid) :: e in ExposuresOver(db, bets, pid)
  {
    hide ExposuresOfBet, ExposureSum;
    var head := if IsOpenIn(bets[0], pid) then ExposuresOfBet(db, bets[0]) else [];
    ExposureSumConcat(head, ExposuresOver(db, bets[1..], pid), d);
    if i == 0 {
      assert bets[0 := closed][1..] == bets[1..];
      assert [] + ExposuresOver(db, bets[1..], pid) == ExposuresOver(db, bets[1..], pid);
      EmptyExposureSum(d);
    } else {
      assert bets[i := closed][1..] == bets[1..][i - 1 := closed];
      ClosedDropsOut(db, bets[1..], i - 1, closed, pid, d);
      ExposureSumConcat(head, ExposuresOver(db, bets[1..][i - 1 := closed], pid), d);
    }
  }

  lemma EmptyExposureSum(d: Dimension)
    ensures ExposureSum([], d) == 0.0
  {
  }

  lemma {:induction false} PositiveExposures(exposures: seq<OpenExposure>, d: Dimension)
    requires forall e <- exposures :: e.stake >= 0.0
    ensures ExposureSum(exposures, d) >= 0.0
  {
    if exposures != [] {
      assert exposures[0] in exposures && forall e <- exposures[1..] :: e in exposures;
      PositiveExposures(exposures[1..], d);
    }
  }

  lemma SettlementFreesExposure(db: Db, i: nat, result: GameResult, payout: int, at: Option<int>, pid: string, d: Dimension)
    requires i < |db.bets| && db.bets[i].stake > 0
    ensures ExposureSum(ExposuresIn(CloseBet(db, i, result, payout, at), pid), d) <= ExposureSum(ExposuresIn(db, pid), d)
    ensures forall e <- ExposuresIn(CloseBet(db, i, result, payout, at), pid) :: e in ExposuresIn(db, pid)
  {
    var b := db.bets[i];
    var after, closed := CloseBet(db, i, result, payout, at), ClosedBet(b, result, payout, at);
    assert after.bets == db.bets[i := closed];
    SameExposuresOver(db, after, after.bets, pid);
    ClosedDropsOut(db, db.bets, i, closed, pid, d);
    PositiveExposures(ExposuresOfBet(db, b), d);
  }

  // ----- The caps -----

  ghost predicate DayWithin(db: Db, pid: string, date: int, p: Policies) {
    && Dollars(Total(db.bets, StakeOnDayIn(pid, date))) <= Prod(Dollars(Equity(db, pid)), p.risk.maximumDailyFraction)
    && Dollars(Total(db.bets, ParlayStakeOnDayIn(pid, date))) <= Prod(Dollars(Equity(db, pid)), p.parlay.maximumDailyParlayFraction)
  }

  ghost predicate DimensionWithin(db: Db, pid: string, d: Dimension, p: Policies) {
    ExposureSum(ExposuresIn(db, pid), d) <= Prod(Dollars(Equity(db, pid)), CapFraction(p.risk, p.parlay, d))
  }

  /** Every day, game, correlated group, team and market type of the portfolio is within its cap. */
  ghost predicate CapsHold(db: Db, pid: string, p: Policies) {
    && (forall date: int :: DayWithin(db, pid, date, p))
    && (forall d: Dimension :: ExposureDimension(d) ==> DimensionWithin(db, pid, d, p))
  }

  ghost predicate NoOpposing(exposures: seq<OpenExposure>) {
    forall e, f :: e in exposures && f in exposures ==> !OpposedBy(e, f)
  }

  /** The legs of one parlay never oppose each other. */
  ghost predicate LegsAgree(legs: seq<LegRow>) {
    forall a, b :: a in legs && b in legs && a.canonicalEventId == b.canonicalEventId && a.marketType == b.marketType ==> a.side == b.side
  }

  /** What the engine stores as a proposal: straights name their canonical event, parlay legs agree. */
  ghost predicate EngineMade(rec: RecommendationRow) {
    (rec.kind == Straight ==> rec.canonicalEventId.Some?) && LegsAgree(rec.legs)
  }

  ghost predicate ProposalsEngineMade(db: Db) {
    forall id <- db.recommendations :: EngineMade(db.recommendations[id])
  }

  function LegRows(legs: seq<PortfolioEngine.Recommendation>): seq<LegRow> {
    seq(|legs|, i requires 0 <= i < |legs| =>
      LegRow(legs[i].candidate.eventId, legs[i].candidate.marketType, legs[i].candidate.side))
  }

  /** Independent legs, which is all the engine lets into a parlay, agree when stored. */
  lemma IndependentLegsAgree(legs: seq<PortfolioEngine.Recommendation>)
    requires PortfolioDecisions.IndependentLegs(legs)
    ensures LegsAgree(LegRows(legs))
  {
    var rows := LegRows(legs);
    forall a, b | a in rows && b in rows ensures a.canonicalEventId == b.canonicalEventId ==> a.side == b.side {
      var i :| 0 <= i < |rows| && rows[i] == a;
      var j :| 0 <= j < |rows| && rows[j] == b;
      assert i != j ==> legs[i].candidate.eventId != legs[j].candidate.eventId;
    }
  }

  lemma TargetsAgree(events: map<string, (string, string)>, rec: RecommendationRow, stake: int, date: int)
    requires EngineMade(rec)
    ensures NoOpposing(Targets(events, rec, stake, date))
  {
    var targets := Targets(events, rec, stake, date);
    forall e, f | e in targets && f in targets ensures !OpposedBy(e, f) {
      var i :| 0 <= i < |targets| && targets[i] == e;
      var j :| 0 <= j < |targets| && targets[j] == f;
      if rec.kind == Parlay { assert rec.legs[i] in rec.legs && rec.legs[j] in rec.legs; }
    }
  }

  /** An approval goes through only when the portfolio is not paused and the stake fits its own limit: the parlay
      fraction of equity, or the fixed maximum and the class's fraction. */
  lemma ApprovedStakeFits(db: Db, req: Request, p: Policies)
    requires Inv(db) && req.Approve? && Execute(db, req, p).1.Ok? && Execute(db, req, p).1.value.BetApproved?
    ensures req.recommendationId in db.recommendations
    ensures var rec := db.recommendations[req.recommendationId];
            && rec.run.Some? && rec.recommendedStake.Some?
            && var equity, stake := Dollars(Equity(db, rec.portfolioId)), Dollars(Cents(rec.recommendedStake.value));
               var peak := PeakAfter(rec.run.value.startingBankroll, InSettledOrder(BetsOf(db, rec.portfolioId)));
               && StateOf(Snapshot(rec.run.value.slateDate, Dollars(rec.run.value.startingBankroll), Dollars(Cash(db, rec.portfolioId)),
                                   equity, Dollars(peak), []), p.risk) != Paused
               && (rec.kind == Parlay ==> stake <= Prod(equity, p.parlay.maximumParlayFraction))
               && (rec.kind == Straight ==>
                     && stake <= p.risk.maximumStake
                     && stake <= Prod(equity, if rec.classification == Some(Core) then p.risk.maximumCoreBetFraction
                                              else p.risk.maximumOpportunisticBetFraction))
  {
    hide Execute, Cash, Reserved, Targets, Cents, Total, Where, Prod, StateOf, CheckTargets, ExposuresIn, Inv, Dollars, InSettledOrder,
         PeakAfter;
    ApproveIs(db, req, p);
    var rec := db.recommendations[req.recommendationId];
    PortfolioTotals(db, rec.portfolioId, rec.run.value.slateDate);
    assert CheckPortfolio(rec, rec.run.value, Cents(rec.recommendedStake.value), Cash(db, rec.portfolioId),
                          BetsOf(db, rec.portfolioId), p) == None;
  }

  lemma DollarsAdd(a: int, b: int)
    ensures Dollars(a + b) == Dollars(a) + Dollars(b)
    ensures a <= b ==> Dollars(a) <= Dollars(b)
  {
  }

  lemma ApproveKeepsDay(db: Db, req: Request, p: Policies, pid: string, date: int)
    requires Inv(db) && req.Approve? && Execute(db, req, p).1.Ok? && Execute(db, req, p).1.value.BetApproved?
    requires DayWithin(db, pid, date, p)
    ensures DayWithin(Execute(db, req, p).0, pid, date, p)
  {
    hide Execute, Cash, Reserved, Targets, Cents, AddBet, Total, Where, Prod, StateOf, CheckTargets, ExposuresIn, Inv, Dollars;
    ApproveIs(db, req, p);
    ApprovalExtendsExposures(db, req, p);
    var rec := db.recommendations[req.recommendationId];
    var stake := Cents(rec.recommendedStake.value);
    var b := ApprovedBetRow(rec, rec.run.value, stake, req.newId, req.newRow);
    assert Execute(db, req, p).0.bets == db.bets + [b] by { AddBetBets(db, b, ApprovalRow(req.newId, req.owner, Some(req.recommendationId))); }
    TotalAppend(db.bets, b, StakeOnDayIn(pid, date));
    TotalAppend(db.bets, b, ParlayStakeOnDayIn(pid, date));
    PortfolioTotals(db, rec.portfolioId, rec.run.value.slateDate);
    assert CheckPortfolio(rec, rec.run.value, stake, Cash(db, rec.portfolioId), BetsOf(db, rec.portfolioId), p) == None;
  }

  lemma AddBetBets(db: Db, b: Bet, approval: ApprovalRow)
    ensures AddBet(db, b, approval).bets == db.bets + [b]
  {
  }

  lemma ApproveKeepsExposures(db: Db, req: Request, p: Policies, pid: string)
    requires Inv(db) && req.Approve? && Execute(db, req, p).1.Ok? && Execute(db, req, p).1.value.BetApproved?
    requires ProposalsEngineMade(db) && NoOpposing(ExposuresIn(db, pid))
    ensures NoOpposing(ExposuresIn(Execute(db, req, p).0, pid))
    ensures forall d: Dimension :: ExposureDimension(d) && DimensionWithin(db, pid, d, p)
                                   ==> DimensionWithin(Execute(db, req, p).0, pid, d, p)
  {
    hide Execute, Cash, Reserved, Targets, Cents, AddBet, Total, Where, Prod, CheckPortfolio, CheckTargets, ExposuresIn, Inv, ExposureSum,
         Equity, EngineMade;
    ApproveIs(db, req, p);
    ApprovalExtendsExposures(db, req, p);
    var rec := db.recommendations[req.recommendationId];
    if pid == rec.portfolioId {
      var stake, run := Cents(rec.recommendedStake.value), rec.run.value;
      var targets := Targets(db.events, rec, stake, run.slateDate);
      assert EngineMade(rec);
      assert CheckedUnderItsName(rec, req.newId) by { EngineMadeIsNamed(rec, req.newId); }
      TargetsAgree(db.events, rec, stake, run.slateDate);
      PortfolioTotals(db, pid, run.slateDate);
      EquityIs(db, pid);
      forall d: Dimension | ExposureDimension(d)
        ensures DimensionWithin(db, pid, d, p) ==> DimensionWithin(Execute(db, req, p).0, pid, d, p)
        ensures forall e, t :: e in ExposuresIn(db, pid) && t in targets ==> !OpposedBy(e, t)
      {
        AcceptedWithinCaps(targets, ExposuresIn(db, pid), Dollars(Equity(db, pid)), p.risk, p.parlay, d);
      }
      assert ExposureDimension(Game(""));
      OpposingIsSymmetric(ExposuresIn(db, pid), targets);
    }
  }

  lemma EngineMadeIsNamed(rec: RecommendationRow, newId: string)
    requires EngineMade(rec)
    ensures CheckedUnderItsName(rec, newId)
  {
  }

  lemma EquityIs(db: Db, pid: string)
    ensures Equity(db, pid) == Cash(db, pid) + Reserved(db, pid)
  {
  }

  lemma OpposingIsSymmetric(a: seq<OpenExposure>, b: seq<OpenExposure>)
    requires NoOpposing(a) && NoOpposing(b)
    requires forall e, t :: e in a && t in b ==> !OpposedBy(e, t)
    ensures NoOpposing(a + b)
  {
    forall e, f | e in a + b && f in a + b ensures !OpposedBy(e, f) {
      if e in b && f in a { assert !OpposedBy(f, e); }
    }
  }

  // ----- What keeps the caps without a check -----

  /** The portfolio is worth no less and carries no more. */
  ghost predicate Lighter(db: Db, after: Db, pid: string) {
    && Equity(after, pid) >= Equity(db, pid)
    && (forall date: int :: Total(after.bets, StakeOnDayIn(pid, date)) <= Total(db.bets, StakeOnDayIn(pid, date)))
    && (forall date: int :: Total(after.bets, ParlayStakeOnDayIn(pid, date)) <= Total(db.bets, ParlayStakeOnDayIn(pid, date)))
    && (forall d: Dimension :: ExposureSum(ExposuresIn(after, pid), d) <= ExposureSum(ExposuresIn(db, pid), d))
    && (forall e <- ExposuresIn(after, pid) :: e in ExposuresIn(db, pid))
  }

  lemma LighterKeepsCaps(db: Db, after: Db, pid: string, p: Policies)
    requires p.risk.Valid() && p.parlay.Valid() && Lighter(db, after, pid)
    ensures CapsHold(db, pid, p) ==> CapsHold(after, pid, p)
    ensures NoOpposing(ExposuresIn(db, pid)) ==> NoOpposing(ExposuresIn(after, pid))
  {
    hide Cash, Reserved, Total, Prod, ExposuresIn, ExposureSum, Equity, Dollars;
    var earlier, now := Dollars(Equity(db, pid)), Dollars(Equity(after, pid));
    DollarsAdd(Equity(db, pid), Equity(after, pid));
    if CapsHold(db, pid, p) {
      forall date: int ensures DayWithin(after, pid, date, p) {
        assert DayWithin(db, pid, date, p);
        DollarsAdd(Total(after.bets, StakeOnDayIn(pid, date)), Total(db.bets, StakeOnDayIn(pid, date)));
        DollarsAdd(Total(after.bets, ParlayStakeOnDayIn(pid, date)), Total(db.bets, ParlayStakeOnDayIn(pid, date)));
        ProdMono(earlier, now, p.risk.maximumDailyFraction);
        ProdMono(earlier, now, p.parlay.maximumDailyParlayFraction);
      }
      forall d: Dimension | ExposureDimension(d) ensures DimensionWithin(after, pid, d, p) {
        assert DimensionWithin(db, pid, d, p);
        ProdMono(earlier, now, CapFraction(p.risk, p.parlay, d));
      }
    }
  }

  /** A settlement that wins or pushes, and any settlement in another portfolio, lightens the portfolio. */
  lemma SettleLightens(db: Db, req: Request, p: Policies, pid: string)
    requires Inv(db) && req.Settle? && Execute(db, req, p).1.Ok?
    requires req.portfolioId == pid ==> req.result != Loss && req.Accepted()
    ensures Lighter(db, Execute(db, req, p).0, pid)
  {
    hide Execute, Cash, Reserved, Cents, CloseBet, Total, ExposuresIn, Inv, ExposureSum;
    SettleIs(db, req, p);
    var i := IndexOf(db.bets, req.betId);
    var after, payout := Execute(db, req, p).0, Cents(req.payout);
    var closed := ClosedBet(db.bets[i], req.result, payout, Some(req.now));
    CentsSign(req.payout);
    CloseBetMoney(db, i, req.result, payout, Some(req.now), pid);
    CloseBetBets(db, i, req.result, payout, Some(req.now));
    forall date: int ensures Total(after.bets, StakeOnDayIn(pid, date)) <= Total(db.bets, StakeOnDayIn(pid, date))
      ensures Total(after.bets, ParlayStakeOnDayIn(pid, date)) <= Total(db.bets, ParlayStakeOnDayIn(pid, date)) {
      TotalUpdate(db.bets, i, closed, StakeOnDayIn(pid, date));
      TotalUpdate(db.bets, i, closed, ParlayStakeOnDayIn(pid, date));
    }
    forall d: Dimension ensures ExposureSum(ExposuresIn(after, pid), d) <= ExposureSum(ExposuresIn(db, pid), d) {
      SettlementFreesExposure(db, i, req.result, payout, Some(req.now), pid, d);
    }
    SettlementFreesExposure(db, i, req.result, payout, Some(req.now), pid, Game(""));
  }

  lemma SettleKeepsCaps(db: Db, req: Request, p: Policies, pid: string)
    requires Inv(db) && req.Settle? && Execute(db, req, p).1.Ok?
    requires req.portfolioId == pid ==> req.result != Loss && req.Accepted()
    requires p.risk.Valid() && p.parlay.Valid()
    requires CapsHold(db, pid, p)
    ensures CapsHold(Execute(db, req, p).0, pid, p)
    ensures forall e <- ExposuresIn(Execute(db, req, p).0, pid) :: e in ExposuresIn(db, pid)
  {
    hide Execute, Inv, CapsHold, ExposuresIn;
    SettleLightens(db, req, p, pid);
    LighterKeepsCaps(db, Execute(db, req, p).0, pid, p);
  }

  lemma CloseBetBets(db: Db, i: nat, result: GameResult, payout: int, at: Option<int>)
    requires i < |db.bets|
    ensures CloseBet(db, i, result, payout, at).bets == db.bets[i := ClosedBet(db.bets[i], result, payout, at)]
  {
  }

  /** Opening portfolios, marking and storing recommendations leave a portfolio's bets alone. */
  lemma SameBetsLighten(db: Db, after: Db, pid: string)
    requires after.bets == db.bets && SameLegs(db, after) && Equity(after, pid) >= Equity(db, pid)
    ensures Lighter(db, after, pid)
  {
    hide Equity, Total, ExposureSum, ExposuresOver;
    SameExposuresOver(db, after, db.bets, pid);
  }

  lemma OpenedEquity(db: Db, owner: string, pid: string, capital: int, other: string)
    requires Inv(db) && capital >= 0
    ensures Equity(Opened(db, owner, pid, capital), other) >= Equity(db, other)
    ensures Opened(db, owner, pid, capital).bets == db.bets
  {
    hide Cash, Inv, OpenPortfolio;
    OpenedKeeps(db, owner, pid, capital);
    if pid !in db.portfolios {
      OpeningKeeps(db, pid, Portfolio(owner, capital));
      assert Cash(db, pid) == 0 by { hide *; EmptyCash(db, pid); }
    }
  }

  lemma EmptyCash(db: Db, pid: string)
    requires Inv(db) && pid !in db.portfolios
    ensures Cash(db, pid) == 0
  {
    EmptyPortfolioHoldsNothing(db, pid);
  }

  /** A bet placed in another portfolio. */
  lemma PlaceElsewhereLightens(db: Db, req: Request, p: Policies, pid: string)
    requires Inv(db) && req.Place? && Execute(db, req, p).1.Ok? && req.portfolioId != pid && p.startingCapital >= 0
    ensures Lighter(db, Execute(db, req, p).0, pid)
    ensures Execute(db, req, p).0.recommendations == db.recommendations
  {
    hide Execute, Inv, Cash, Reserved, Cents, Total, ExposureSum, ExposuresOver, HasBet;
    PlaceIs(db, req, p);
    var ready := Opened(db, req.owner, req.portfolioId, p.startingCapital);
    OpenedEquity(db, req.owner, req.portfolioId, p.startingCapital, pid);
    var b :| NewOpenBet(b, req.newId, req.portfolioId, Cents(req.amount))
             && Execute(db, req, p).0 == AddBet(ready, b, ApprovalRow(b.id, req.owner, None));
    var approval := ApprovalRow(b.id, req.owner, None);
    SameExposuresOver(db, ready, db.bets, pid);
    AddBetExposes(ready, b, approval, pid);
    assert ExposuresIn(ready, pid) + [] == ExposuresIn(db, pid);
    AddBetMoney(ready, b, approval, pid);
    AddBetBets(ready, b, approval);
    forall date: int
      ensures Total(ready.bets + [b], StakeOnDayIn(pid, date)) == Total(db.bets, StakeOnDayIn(pid, date))
      ensures Total(ready.bets + [b], ParlayStakeOnDayIn(pid, date)) == Total(db.bets, ParlayStakeOnDayIn(pid, date))
    {
      TotalAppend(db.bets, b, StakeOnDayIn(pid, date));
      TotalAppend(db.bets, b, ParlayStakeOnDayIn(pid, date));
    }
  }

  // ----- Over whole runs -----

  /** Everything but a losing settlement in the portfolio, a manual placement into it, and proposals that are not of the
      engine's form. */
  ghost predicate CapSafe(req: Request, pid: string) {
    match req
    case Place(_, portfolioId, _, _, _, _) => portfolioId != pid
    case Settle(_, portfolioId, _, result, _, _) => portfolioId == pid ==> result != Loss && req.Accepted()
    case Propose(_, _, proposals) => forall id <- proposals :: EngineMade(proposals[id])
    case _ => true
  }

  ghost predicate Compliant(db: Db, pid: string, p: Policies) {
    CapsHold(db, pid, p) && NoOpposing(ExposuresIn(db, pid)) && ProposalsEngineMade(db)
  }

  lemma RejectKeepsCompliant(db: Db, req: Request, p: Policies, pid: string)
    requires Inv(db) && req.Reject? && Execute(db, req, p).1.Ok? && Compliant(db, pid, p) && p.risk.Valid() && p.parlay.Valid()
    ensures Compliant(Execute(db, req, p).0, pid, p)
  {
    hide Execute, Inv, CapsHold, NoOpposing, ExposuresIn, Lighter;
    RejectIs(db, req, p);
    var after := Execute(db, req, p).0;
    SameBetsLighten(db, after, pid);
    LighterKeepsCaps(db, after, pid, p);
    forall id | id in after.recommendations ensures EngineMade(after.recommendations[id]) { assert EngineMade(db.recommendations[id]); }
  }

  lemma ProposeKeepsCompliant(db: Db, req: Request, p: Policies, pid: string)
    requires Inv(db) && req.Propose? && Execute(db, req, p).1.Ok? && CapSafe(req, pid)
    requires Compliant(db, pid, p) && p.risk.Valid() && p.parlay.Valid() && p.startingCapital >= 0
    ensures Compliant(Execute(db, req, p).0, pid, p)
  {
    hide Execute, CapsHold, NoOpposing, ExposuresIn, Lighter, Conserved, BetSound, RecommendationSound;
    ProposeIs(db, req, p);
    var after, rows := Execute(db, req, p).0, ProposalRows(req.portfolioId, req.proposals);
    OpenedEquity(db, req.owner, req.portfolioId, p.startingCapital, pid);
    SameBetsLighten(db, after, pid);
    LighterKeepsCaps(db, after, pid, p);
    forall id | id in after.recommendations ensures EngineMade(after.recommendations[id]) {
      if id in rows { assert EngineMade(req.proposals[id]); } else { assert EngineMade(db.recommendations[id]); }
    }
  }

  lemma ApproveKeepsCompliant(db: Db, req: Request, p: Policies, pid: string)
    requires Inv(db) && req.Approve? && Execute(db, req, p).1.Ok? && Execute(db, req, p).1.value.BetApproved? && Compliant(db, pid, p)
    ensures Compliant(Execute(db, req, p).0, pid, p)
  {
    hide Execute, Inv, DayWithin, DimensionWithin, NoOpposing, EngineMade, ValidateRisk, Cash, Targets, Cents;
    var after := Execute(db, req, p).0;
    forall date: int ensures DayWithin(after, pid, date, p) { ApproveKeepsDay(db, req, p, pid, date); }
    ApproveKeepsExposures(db, req, p, pid);
    ApproveIs(db, req, p);
    assert ProposalsEngineMade(after) by {
      forall id | id in after.recommendations ensures EngineMade(after.recommendations[id]) {
        StatusAside(db.recommendations[id], Approved);
      }
    }
  }

  lemma StatusAside(rec: RecommendationRow, status: RecommendationStatus)
    ensures EngineMade(rec.(status := status)) == EngineMade(rec)
  {
  }

  lemma StepKeepsCompliant(db: Db, req: Request, p: Policies, pid: string)
    requires Inv(db) && CapSafe(req, pid) && p.risk.Valid() && p.parlay.Valid() && p.startingCapital >= 0 && Compliant(db, pid, p)
    ensures Compliant(Execute(db, req, p).0, pid, p)
  {
    hide Execute, Inv, CapsHold, EngineMade, ExposuresIn, Lighter, NoOpposing;
    var answer := Execute(db, req, p).1;
    if answer.Err? || answer.value.AlreadyApproved? {
      RefusedOrRepeated(db, req, p);
    } else {
      AnswerMatches(db, req, p);
      match req {
        case Place(_, _, _, _, _, _) =>
          PlaceElsewhereLightens(db, req, p, pid);
          LighterKeepsCaps(db, Execute(db, req, p).0, pid, p);
        case Settle(_, _, _, _, _, _) =>
          SettleLightens(db, req, p, pid);
          LighterKeepsCaps(db, Execute(db, req, p).0, pid, p);
          SettleIs(db, req, p);
        case Approve(_, _, _, _) => ApproveKeepsCompliant(db, req, p, pid);
        case Reject(_, _) => RejectKeepsCompliant(db, req, p, pid);
        case Propose(_, _, _) => ProposeKeepsCompliant(db, req, p, pid);
      }
    }
  }

  /** Caps and one-sidedness, once true of a portfolio, survive every run: approvals, rejections, settlements that win or
      push, decisions of the engine as they come, and whatever is placed and settled in other portfolios. */
  lemma {:induction false} CapsSurviveRuns(db: Db, reqs: seq<Request>, p: Policies, pid: string)
    requires Inv(db) && (forall r <- reqs :: CapSafe(r, pid)) && p.risk.Valid() && p.parlay.Valid() && p.startingCapital >= 0
    requires Compliant(db, pid, p)
    ensures Compliant(ExecuteAll(db, reqs, p).0, pid, p)
  {
    hide Execute, Inv, Compliant, CapSafe;
    if reqs != [] {
      var front := reqs[..|reqs| - 1];
      assert forall r <- front :: r in reqs;
      CapsSurviveRuns(db, front, p, pid);
      RunKeeps(db, front, p);
      StepKeepsCompliant(ExecuteAll(db, front, p).0, reqs[|reqs| - 1], p, pid);
    }
  }
}
