/** The repositories as they run: tables changed in place inside a transaction, and put back when it raises. */
module LedgerRepository {
  import opened Wrappers
  import opened Lists
  import opened PortfolioEngine
  import opened Ledger
  import opened ApprovalRisk
  import opened LedgerOperations
  import opened LedgerInvariants
  import opened Idempotency

  class Repository {
    const policies: Policies
    const events: map<string, (string, string)>
    var portfolios: map<string, Portfolio>
    var bets: seq<Bet>
    var entries: seq<Entry>
    var settlements: seq<SettlementRow>
    var approvals: seq<ApprovalRow>
    var recommendations: map<string, RecommendationRow>
    var keys: map<Key, KeyRecord>

    constructor (policies: Policies, events: map<string, (string, string)>)
      ensures State() == Store(EmptyDb(events), map[])
      ensures this.policies == policies && Valid()
    {
      this.policies := policies;
      this.events := events;
      portfolios, bets, entries, settlements, approvals, keys := map[], [], [], [], [], map[];
      recommendations := map[];
    }

    ghost predicate Valid()
      reads this
    {
      Inv(Tables())
    }

    function Tables(): Db
      reads this
    {
      Db(portfolios, bets, entries, settlements, approvals, recommendations, events)
    }

    function State(): Store
      reads this
    {
      Store(Tables(), keys)
    }

    /** What `session.begin` does when its block raises. */
    method Rollback(saved: Store)
      requires saved.db.events == events
      modifies this
      ensures State() == saved
    {
      portfolios, bets, entries := saved.db.portfolios, saved.db.bets, saved.db.entries;
      settlements, approvals, recommendations := saved.db.settlements, saved.db.approvals, saved.db.recommendations;
      keys := saved.keys;
    }

    /** Loads the portfolio, opening it with its initial funding on first use. */
    method LoadOrCreatePortfolio(owner: string, pid: string) returns (granted: bool)
      modifies this`portfolios, this`entries
      ensures granted <==> !(pid in old(portfolios) && old(portfolios)[pid].owner != owner)
      ensures pid in portfolios
      ensures pid in old(portfolios) ==> portfolios == old(portfolios) && entries == old(entries)
      ensures pid !in old(portfolios) ==>
                && portfolios == old(portfolios)[pid := Portfolio(owner, policies.startingCapital)]
                && entries == old(entries) + [Entry(pid, InitialFunding, policies.startingCapital)]
    {
      if pid in portfolios {
        return portfolios[pid].owner == owner;
      }
      portfolios := portfolios[pid := Portfolio(owner, policies.startingCapital)];
      entries := entries + [Entry(pid, InitialFunding, policies.startingCapital)];
      granted := true;
    }

    /** The body of the place transaction; the tables count only when it answers Ok. */
    method PlaceOperation(req: Request) returns (answer: Answer)
      requires req.Place?
      requires FundsOnlyKnown(Tables(), req.portfolioId)
      modifies this`portfolios, this`entries, this`bets, this`approvals
      ensures answer == Execute(old(Tables()), req, policies).1
      ensures answer.Ok? ==> Tables() == Execute(old(Tables()), req, policies).0
    {
      hide Execute, Cents;
      ghost var before := Tables();
      PlaceSpecified(before, req, policies);
      var granted := LoadOrCreatePortfolio(req.owner, req.portfolioId);
      if !granted {
        return Err(AccessDenied);
      }
      var stake := Cents(req.amount);
      var cash := Cash(Tables(), req.portfolioId);
      assert cash == CashIfOpened(before, req.portfolioId, policies.startingCapital) by {
        TotalAppend(before.entries, Entry(req.portfolioId, InitialFunding, policies.startingCapital), AmountIn(req.portfolioId));
      }
      hide Cash;
      if cash < stake {
        return Err(InsufficientBankroll);
      }
      if stake <= 0 || HasBet(bets, req.newId) {
        return Err(IntegrityViolation);
      }
      var bet := PlacedBetRow(req, stake);
      bets := bets + [bet];
      approvals := approvals + [ApprovalRow(bet.id, req.owner, None)];
      entries := entries + [Entry(req.portfolioId, StakeOf(bet.id), -stake)];
      return Ok(BetRecorded(bet.id, cash - stake));
    }

    /** The body of the settle transaction, changing the bet's row in place. */
    method SettleOperation(req: Request) returns (answer: Answer)
      requires req.Settle?
      requires FundsOnlyKnown(Tables(), req.portfolioId)
      modifies this`portfolios, this`entries, this`bets, this`settlements
      ensures answer == Execute(old(Tables()), req, policies).1
      ensures answer.Ok? ==> Tables() == Execute(old(Tables()), req, policies).0
    {
      hide Cents, ExposuresIn, IndexOf, Where, Execute;
      ghost var before := Tables();
      SettleSpecified(before, req, policies);
      var granted := LoadOrCreatePortfolio(req.owner, req.portfolioId);
      if !granted {
        return Err(AccessDenied);
      }
      var own := BetsOf(Tables(), req.portfolioId);
      var cash := Cash(Tables(), req.portfolioId);
      assert cash == CashIfOpened(before, req.portfolioId, policies.startingCapital) by {
        TotalAppend(before.entries, Entry(req.portfolioId, InitialFunding, policies.startingCapital), AmountIn(req.portfolioId));
      }
      hide Cash, BetsOf;
      if !HasBet(own, req.betId) {
        return Err(BetNotFound);
      }
      var bet := FindBet(own, req.betId).value;
      if bet.status == Settled || bet.result.Some? {
        return Err(BetAlreadySettled);
      }
      var payout := Cents(req.payout);
      if req.result == Loss && payout != -bet.stake {
        return Err(InvalidLossPayout);
      }
      settlements := settlements + [SettlementRow(bet.id, req.result, payout)];
      if HasBet(bets, bet.id) {
        var i := IndexOf(bets, bet.id);
        bets := bets[i := ClosedBet(bets[i], req.result, payout, Some(req.now))];
      }
      entries := entries + [Entry(req.portfolioId, SettlementOf(bet.id), bet.stake + payout)];
      return Ok(ResultRecorded(cash + bet.stake + payout));
    }

    /** Approving: the recommendation's status is the boundary that makes it happen once. */
    method ApproveOperation(req: Request) returns (answer: Answer)
      requires req.Approve?
      modifies this`bets, this`entries, this`approvals, this`recommendations
      ensures answer == Execute(old(Tables()), req, policies).1
      ensures answer.Ok? ==> Tables() == Execute(old(Tables()), req, policies).0
    {
      hide Execute, Cents, ExposuresIn, BetsOf, Cash, ValidateRisk, Targets, ApprovedBet;
      ApproveSpecified(Tables(), req, policies);
      if req.recommendationId !in recommendations {
        return Err(RecommendationNotFound);
      }
      var rec := recommendations[req.recommendationId];
      if rec.portfolioId !in portfolios || portfolios[rec.portfolioId].owner != req.owner {
        return Err(AccessDenied);
      }
      var cash := Cash(Tables(), rec.portfolioId);
      if rec.status == Approved {
        var approved := ApprovedBet(Tables(), req.recommendationId);
        if approved.None? {
          return Err(MissingApproval);
        }
        if !HasBet(bets, approved.value) {
          return Err(MissingBet);
        }
        return Ok(AlreadyApproved(approved.value, cash));
      }
      if rec.status != Proposed {
        return Err(NotProposed);
      }
      var stake := Cents(if rec.recommendedStake.Some? then rec.recommendedStake.value else 0.0);
      if stake <= 0 {
        return Err(NoPositiveStake);
      }
      if cash < stake {
        return Err(InsufficientBankroll);
      }
      if rec.run.None? {
        return Err(MissingRun);
      }
      var run := rec.run.value;
      var refusal := ValidateApprovalRisk(rec, run, stake, cash, BetsOf(Tables(), rec.portfolioId),
                                          ExposuresIn(Tables(), rec.portfolioId), Targets(events, rec, stake, run.slateDate), policies);
      if refusal.Some? {
        return Err(RiskRefused(refusal.value));
      }
      if HasBet(bets, req.newId) {
        return Err(IntegrityViolation);
      }
      bets := bets + [ApprovedBetRow(rec, run, stake, req.newId, req.newRow)];
      approvals := approvals + [ApprovalRow(req.newId, req.owner, Some(req.recommendationId))];
      entries := entries + [Entry(rec.portfolioId, StakeOf(req.newId), -stake)];
      recommendations := recommendations[req.recommendationId := rec.(status := Approved)];
      return Ok(BetApproved(req.newId, cash - stake));
    }

    method RejectOperation(req: Request) returns (answer: Answer)
      requires req.Reject?
      modifies this`recommendations
      ensures answer == Execute(old(Tables()), req, policies).1
      ensures answer.Ok? ==> Tables() == Execute(old(Tables()), req, policies).0
    {
      hide ExposuresIn, BetsOf, Cash;
      ghost var before := Tables();
      if req.recommendationId !in recommendations {
        return Err(RecommendationNotFound);
      }
      var rec := recommendations[req.recommendationId];
      if rec.portfolioId !in portfolios || portfolios[rec.portfolioId].owner != req.owner {
        return Err(AccessDenied);
      }
      if rec.status != Proposed {
        return Err(NotProposed);
      }
      recommendations := recommendations[req.recommendationId := rec.(status := Rejected)];
      assert Tables().entries == Execute(before, req, policies).0.entries;
      assert Tables().bets == Execute(before, req, policies).0.bets;
      assert Tables().approvals == Execute(before, req, policies).0.approvals;
      return Ok(RecommendationRejected);
    }

    /** A decision's recommendations are stored as proposals of its portfolio, which is opened when it is new. */
    method ProposeOperation(req: Request) returns (answer: Answer)
      requires req.Propose?
      modifies this`portfolios, this`entries, this`recommendations
      ensures answer == Execute(old(Tables()), req, policies).1
      ensures answer.Ok? ==> Tables() == Execute(old(Tables()), req, policies).0
    {
      hide Execute;
      ProposeSpecified(Tables(), req, policies);
      var granted := LoadOrCreatePortfolio(req.owner, req.portfolioId);
      if !granted {
        return Err(AccessDenied);
      }
      if exists id <- req.proposals :: id in recommendations {
        return Err(IntegrityViolation);
      }
      recommendations := recommendations + ProposalRows(req.portfolioId, req.proposals);
      return Ok(ProposalsStored);
    }

    /** One transaction of any kind: committed when it answers Ok, rolled back otherwise. */
    method Transact(req: Request) returns (answer: Answer)
      requires Valid()
      modifies this
      ensures Valid() && keys == old(keys)
      ensures (Tables(), answer) == Execute(old(Tables()), req, policies)
    {
      hide Execute, Inv;
      var saved := State();
      ExecuteKeeps(saved.db, req, policies);
      KnownFunds(saved.db, req.PortfolioName());
      match req {
        case Place(_, _, _, _, _, _) => answer := PlaceOperation(req);
        case Settle(_, _, _, _, _, _) => answer := SettleOperation(req);
        case Approve(_, _, _, _) => answer := ApproveOperation(req);
        case Reject(_, _) => answer := RejectOperation(req);
        case Propose(_, _, _) => answer := ProposeOperation(req);
      }
      if answer.Err? {
        RefusalKeepsDb(saved.db, req, policies);
        Rollback(saved);
      }
    }

    /** Runs a request under its idempotency key: the record is written first and kept only with the change. */
    method ExecuteMutation(k: Keyed) returns (answer: Answer)
      requires Valid()
      modifies this
      ensures Valid()
      ensures (State(), answer) == ExecuteKeyed(old(State()), k, policies)
    {
      hide Execute, Inv;
      var key := KeyOf(k);
      if key.None? {
        RefusalKeepsDb(Tables(), k.request, policies);
        answer := Transact(k.request);
        return;
      }
      if key.value in keys {
        var record := keys[key.value];
        if record.requestHash != k.requestHash {
          return Err(IdempotencyConflict);
        }
        if record.response.None? {
          return Err(UnfinishedRecord);
        }
        return Ok(record.response.value);
      }
      var saved := State();
      keys := keys[key.value := KeyRecord(k.requestHash, None)];
      answer := Transact(k.request);
      if answer.Err? {
        RefusalKeepsDb(saved.db, k.request, policies);
        Rollback(saved);
        return;
      }
      keys := keys[key.value := KeyRecord(k.requestHash, Some(answer.value))];
      assert keys == saved.keys[key.value := KeyRecord(k.requestHash, Some(answer.value))];
    }
  }

  /** Entries name portfolios that exist: a portfolio not yet opened has none. */
  predicate FundsOnlyKnown(db: Db, pid: string) {
    pid in db.portfolios || Cash(db, pid) == 0
  }

  lemma KnownFunds(db: Db, pid: string)
    requires Inv(db)
    ensures FundsOnlyKnown(db, pid)
  {
    if pid !in db.portfolios { EmptyPortfolioHoldsNothing(db, pid); }
  }

  function CashIfOpened(db: Db, pid: string, capital: int): int {
    if pid in db.portfolios then Cash(db, pid) else capital
  }

  function EntriesIfOpened(db: Db, pid: string, capital: int): seq<Entry> {
    if pid in db.portfolios then db.entries else db.entries + [Entry(pid, InitialFunding, capital)]
  }

  /** The settle transaction written out over the tables. */
  lemma SettleSpecified(db: Db, req: Request, p: Policies)
    requires req.Settle?
    ensures var (after, answer) := Execute(db, req, p);
            var own := BetsOf(db, req.portfolioId);
            if req.portfolioId in db.portfolios && db.portfolios[req.portfolioId].owner != req.owner then answer == Err(AccessDenied)
            else if !HasBet(own, req.betId) then answer == Err(BetNotFound)
            else
              var bet, payout := FindBet(own, req.betId).value, Cents(req.payout);
              if bet.status == Settled || bet.result.Some? then answer == Err(BetAlreadySettled)
              else if req.result == Loss && payout != -bet.stake then answer == Err(InvalidLossPayout)
              else
                && answer == Ok(ResultRecorded(CashIfOpened(db, req.portfolioId, p.startingCapital) + bet.stake + payout))
                && after.bets == CloseIn(db.bets, Some((bet.id, req.result, payout, Some(req.now))))
                && after.settlements == db.settlements + [SettlementRow(bet.id, req.result, payout)]
                && after.entries == EntriesIfOpened(db, req.portfolioId, p.startingCapital)
                                    + [Entry(req.portfolioId, SettlementOf(bet.id), bet.stake + payout)]
                && after.portfolios == (if req.portfolioId in db.portfolios then db.portfolios
                                        else db.portfolios[req.portfolioId := Portfolio(req.owner, p.startingCapital)])
                && after.approvals == db.approvals && after.recommendations == db.recommendations && after.events == db.events
  {
    hide Cents, ExposuresIn, IndexOf, Where, Cash, BetsOf;
  }

  /** The placement written out over the tables. */
  lemma PlaceSpecified(db: Db, req: Request, p: Policies)
    requires req.Place?
    ensures var (after, answer) := Execute(db, req, p);
            var cash, stake := CashIfOpened(db, req.portfolioId, p.startingCapital), Cents(req.amount);
            if req.portfolioId in db.portfolios && db.portfolios[req.portfolioId].owner != req.owner then answer == Err(AccessDenied)
            else if cash < stake then answer == Err(InsufficientBankroll)
            else if stake <= 0 || HasBet(db.bets, req.newId) then answer == Err(IntegrityViolation)
            else
              && answer == Ok(BetRecorded(req.newId, cash - stake))
              && after == AddBet(Opened(db, req.owner, req.portfolioId, p.startingCapital), PlacedBetRow(req, stake),
                                 ApprovalRow(req.newId, req.owner, None))
  {
    hide Cents, Cash, BetsOf, ExposuresIn;
    if Execute(db, req, p).1.Ok? {
      var change := DecidePlace(ViewOf(db, req), req, p).value.0;
      var entry := Entry(req.portfolioId, StakeOf(req.newId), -Cents(req.amount));
      assert Apply(db, change).entries == EntriesIfOpened(db, req.portfolioId, p.startingCapital) + [entry];
    }
  }

  /** The approval written out over the tables. */
  lemma ApproveSpecified(db: Db, req: Request, p: Policies)
    requires req.Approve?
    ensures var (after, answer) := Execute(db, req, p);
            if req.recommendationId !in db.recommendations then answer == Err(RecommendationNotFound)
            else
              var rec := db.recommendations[req.recommendationId];
              var approved := ApprovedBet(db, req.recommendationId);
              var cash, stake := Cash(db, rec.portfolioId), Cents(if rec.recommendedStake.Some? then rec.recommendedStake.value else 0.0);
              if rec.portfolioId !in db.portfolios || db.portfolios[rec.portfolioId].owner != req.owner then answer == Err(AccessDenied)
              else if rec.status == Approved then
                if approved.None? then answer == Err(MissingApproval)
                else if !HasBet(db.bets, approved.value) then answer == Err(MissingBet)
                else after == db && answer == Ok(AlreadyApproved(approved.value, cash))
              else if rec.status != Proposed then answer == Err(NotProposed)
              else if stake <= 0 then answer == Err(NoPositiveStake)
              else if cash < stake then answer == Err(InsufficientBankroll)
              else if rec.run.None? then answer == Err(MissingRun)
              else
                var refusal := ValidateRisk(rec, rec.run.value, stake, cash, BetsOf(db, rec.portfolioId), ExposuresIn(db, rec.portfolioId),
                                            Targets(db.events, rec, stake, rec.run.value.slateDate), p);
                if refusal.Some? then answer == Err(RiskRefused(refusal.value))
                else if HasBet(db.bets, req.newId) then answer == Err(IntegrityViolation)
                else
                  && answer == Ok(BetApproved(req.newId, cash - stake))
                  && after == AddBet(db, ApprovedBetRow(rec, rec.run.value, stake, req.newId, req.newRow),
                                     ApprovalRow(req.newId, req.owner, Some(req.recommendationId)))
  {
    hide Cents, ExposuresIn, BetsOf, Cash, ValidateRisk, Targets, ApprovedBet;
    assert Apply(db, NOTHING) == db;
  }

  /** Storing a decision written out over the tables. */
  lemma ProposeSpecified(db: Db, req: Request, p: Policies)
    requires req.Propose?
    ensures var (after, answer) := Execute(db, req, p);
            if req.portfolioId in db.portfolios && db.portfolios[req.portfolioId].owner != req.owner then answer == Err(AccessDenied)
            else if exists id <- req.proposals :: id in db.recommendations then answer == Err(IntegrityViolation)
            else
              && answer == Ok(ProposalsStored)
              && after == StoreProposals(Opened(db, req.owner, req.portfolioId, p.startingCapital),
                                         ProposalRows(req.portfolioId, req.proposals))
  {
    hide Cash, ExposuresIn, BetsOf;
    if Execute(db, req, p).1.Ok? { ProposeIs(db, req, p); }
  }
}
