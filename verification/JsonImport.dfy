/** Importing a legacy file: bets not yet known, then one adjustment that reconciles the cash. */
module JsonImport {
  import opened Wrappers
  import opened Numbers
  import opened Lists
  import opened PortfolioEngine
  import opened Ledger
  import opened LedgerOperations
  import opened LedgerInvariants

  /** A legacy bet as the file gives it; an absent stake or payout is zero, an unknown result is none. */
  datatype LegacyBet = LegacyBet(
    betId: string,
    row: nat,
    details: BetDetails,
    stake: real,
    result: Option<GameResult>,
    payout: real,
    settledAt: Option<int>)

  /** A list entry that is not an object is None: it is passed over, but counted in the numbering. */
  datatype LegacyPortfolio = LegacyPortfolio(externalId: string, bets: seq<Option<LegacyBet>>, bankroll: Option<real>)

  datatype Report = Report(portfoliosImported: nat, betsImported: nat, adjustments: seq<(string, int)>)

  datatype Imported = Imported(db: Db, report: Report)

  /** The id a bet is stored under; without one it is numbered within its portfolio. */
  function ExternalId(pid: string, b: LegacyBet, index: nat): string {
    if b.betId != "" then b.betId else "json-" + pid + "-" + Digits(index)
  }

  function OpenRow(pid: string, id: string, b: LegacyBet): Bet {
    var d := b.details;
    Bet(id, b.row, pid, Straight, None, d.providerEventId, d.eventName, d.homeTeam, d.awayTeam, d.marketType, d.selection, None,
        d.date, Cents(b.stake), Open, None, None, None)
  }

  predicate Importable(db: Db, pid: string, b: LegacyBet, index: nat) {
    !HasBet(db.bets, ExternalId(pid, b, index)) && Cents(b.stake) > 0
  }

  /** One bet: its row, approval and stake entry, and when it has a result its settlement row and entry. */
  function InsertBet(db: Db, owner: string, pid: string, b: LegacyBet, index: nat): Db {
    var open := OpenRow(pid, ExternalId(pid, b, index), b);
    var placed := AddBet(db, open, ApprovalRow(open.id, owner, None));
    if b.result.None? then placed else CloseBet(placed, |db.bets|, b.result.value, Cents(b.payout), b.settledAt)
  }

  function ImportBets(db: Db, owner: string, pid: string, bets: seq<Option<LegacyBet>>): (Db, nat) {
    if bets == [] then (db, 0)
    else
      var n := |bets| - 1;
      var (before, count) := ImportBets(db, owner, pid, bets[..n]);
      if bets[n].None? || !Importable(before, pid, bets[n].value, n) then (before, count)
      else (InsertBet(before, owner, pid, bets[n].value, n), count + 1)
  }

  predicate Reconciled(db: Db, pid: string) {
    exists e :: e in db.entries && e.portfolioId == pid && e.reference == Reconciliation
  }

  /** The adjustment still needed to reach the legacy cash, unless one was made before. */
  function Difference(db: Db, pid: string, target: int): int {
    if Reconciled(db, pid) then 0 else target - Cash(db, pid)
  }

  function Adjusted(db: Db, e: Entry): Db {
    db.(entries := db.entries + [e])
  }

  function Reconcile(db: Db, pid: string, target: int): Db {
    if Difference(db, pid, target) == 0 then db
    else Adjusted(db, Entry(pid, Reconciliation, Difference(db, pid, target)))
  }

  function Target(lp: LegacyPortfolio, capital: real): int {
    Cents(if lp.bankroll.Some? then lp.bankroll.value else capital)
  }

  function ImportPortfolio(done: Imported, owner: string, lp: LegacyPortfolio, capital: real): Result<Imported, LedgerError> {
    var db, pid := done.db, lp.externalId;
    if pid in db.portfolios && db.portfolios[pid].owner != owner then Err(AccessDenied)
    else
      var ready := Opened(db, owner, pid, Cents(capital));
      var (full, count) := ImportBets(ready, owner, pid, lp.bets);
      var difference := Difference(full, pid, Target(lp, capital));
      Ok(Imported(Reconcile(full, pid, Target(lp, capital)),
                  Report(done.report.portfoliosImported + (if pid in db.portfolios then 0 else 1),
                         done.report.betsImported + count,
                         done.report.adjustments + (if difference == 0 then [] else [(pid, difference)]))))
  }

  /** Specification of an import: the portfolios of the file in order, all of them or nothing. */
  function Import(db: Db, owner: string, file: seq<LegacyPortfolio>, capital: real): Result<Imported, LedgerError> {
    if file == [] then Ok(Imported(db, Report(0, 0, [])))
    else
      match Import(db, owner, file[..|file| - 1], capital)
      case Err(e) => Err(e)
      case Ok(done) => ImportPortfolio(done, owner, file[|file| - 1], capital)
  }

  // ----- The import as it runs -----

  method ImportFile(db: Db, owner: string, file: seq<LegacyPortfolio>, capital: real) returns (r: Result<Imported, LedgerError>)
    ensures r == Import(db, owner, file, capital)
  {
    hide ImportPortfolio;
    var done := Imported(db, Report(0, 0, []));
    for i := 0 to |file|
      invariant Import(db, owner, file[..i], capital) == Ok(done)
    {
      assert file[..i + 1][..i] == file[..i] && file[..i + 1][i] == file[i];
      var next := ImportOne(done, owner, file[i], capital);
      if next.Err? {
        DenialSpreads(db, owner, file, capital, i + 1);
        return next;
      }
      done := next.value;
    }
    assert file[..|file|] == file;
    return Ok(done);
  }

  /** One turn of the loop over the portfolios. */
  method ImportOne(done: Imported, owner: string, lp: LegacyPortfolio, capital: real) returns (r: Result<Imported, LedgerError>)
    ensures r == ImportPortfolio(done, owner, lp, capital)
  {
    hide ImportBets, Reconcile, Difference, Cents, Target;
    var tables, report, pid := done.db, done.report, lp.externalId;
    if pid in tables.portfolios && tables.portfolios[pid].owner != owner {
      return Err(AccessDenied);
    }
    if pid !in tables.portfolios {
      tables := OpenPortfolio(tables, pid, Portfolio(owner, Cents(capital)));
      report := report.(portfoliosImported := report.portfoliosImported + 1);
    }
    assert tables == Opened(done.db, owner, pid, Cents(capital));
    hide OpenPortfolio, Opened;
    var count;
    tables, count := ImportBetsOf(tables, owner, pid, lp.bets);
    var difference := Difference(tables, pid, Target(lp, capital));
    ReconcileIs(tables, pid, Target(lp, capital));
    if difference != 0 {
      tables := Adjusted(tables, Entry(pid, Reconciliation, difference));
      report := report.(adjustments := report.adjustments + [(pid, difference)]);
    }
    assert report.adjustments == done.report.adjustments + (if difference == 0 then [] else [(pid, difference)]);
    report := report.(betsImported := report.betsImported + count);
    return Ok(Imported(tables, report));
  }

  lemma ReconcileIs(db: Db, pid: string, target: int)
    ensures Reconcile(db, pid, target)
            == if Difference(db, pid, target) != 0
               then Adjusted(db, Entry(pid, Reconciliation, Difference(db, pid, target))) else db
  {
  }

  method ImportBetsOf(db: Db, owner: string, pid: string, bets: seq<Option<LegacyBet>>) returns (tables: Db, count: nat)
    ensures (tables, count) == ImportBets(db, owner, pid, bets)
  {
    hide ExternalId, Cents;
    tables, count := db, 0;
    for i := 0 to |bets|
      invariant (tables, count) == ImportBets(db, owner, pid, bets[..i])
    {
      assert bets[..i + 1][..i] == bets[..i] && bets[..i + 1][i] == bets[i];
      if bets[i].None? {
        continue;
      }
      var b := bets[i].value;
      var id := ExternalId(pid, b, i);
      if HasBet(tables.bets, id) {
        continue;
      }
      var stake := Cents(b.stake);
      if stake <= 0 {
        continue;
      }
      var open := OpenRow(pid, id, b);
      ghost var before := tables;
      tables := AddBet(tables, open, ApprovalRow(id, owner, None));
      if b.result.Some? {
        tables := CloseBet(tables, |tables.bets| - 1, b.result.value, Cents(b.payout), b.settledAt);
      }
      assert tables == InsertBet(before, owner, pid, b, i);
      count := count + 1;
    }
    assert bets[..|bets|] == bets;
  }

  lemma {:induction false} DenialSpreads(db: Db, owner: string, file: seq<LegacyPortfolio>, capital: real, n: nat)
    requires n <= |file| && Import(db, owner, file[..n], capital).Err?
    ensures Import(db, owner, file, capital) == Import(db, owner, file[..n], capital)
    decreases |file| - n
  {
    hide ImportPortfolio;
    if n < |file| {
      assert file[..n + 1][..n] == file[..n];
      DenialSpreads(db, owner, file, capital, n + 1);
    } else {
      assert file[..n] == file;
    }
  }

  // ----- The import keeps the ledger sound -----

  /** What importing into one portfolio leaves alone. */
  ghost predicate Extends(db: Db, after: Db, pid: string) {
    && (forall id <- db.portfolios :: id in after.portfolios && after.portfolios[id] == db.portfolios[id])
    && (forall id :: HasBet(db.bets, id) ==> HasBet(after.bets, id))
    && (forall other :: other != pid ==> Cash(after, other) == Cash(db, other))
    && (forall other :: Reconciled(db, other) ==> Reconciled(after, other))
  }

  lemma ExtendsTrans(a: Db, b: Db, c: Db, pid: string)
    requires Extends(a, b, pid) && Extends(b, c, pid)
    ensures Extends(a, c, pid)
  {
    hide Cash, HasBet, Reconciled;
  }

  lemma InsertKeeps(db: Db, owner: string, pid: string, b: LegacyBet, index: nat)
    requires Inv(db) && pid in db.portfolios && Importable(db, pid, b, index)
    ensures Inv(InsertBet(db, owner, pid, b, index)) && Extends(db, InsertBet(db, owner, pid, b, index), pid)
    ensures HasBet(InsertBet(db, owner, pid, b, index).bets, ExternalId(pid, b, index))
    ensures InsertBet(db, owner, pid, b, index).portfolios == db.portfolios
    ensures Reconciled(InsertBet(db, owner, pid, b, index), pid) ==> Reconciled(db, pid)
  {
    hide Inv, Cents, ExternalId, Cash;
    var open := OpenRow(pid, ExternalId(pid, b, index), b);
    var approval := ApprovalRow(open.id, owner, None);
    var placed := AddBet(db, open, approval);
    AddBetKeeps(db, open, approval);
    HasBetGrows(db.bets, [open]);
    assert HasBet(placed.bets, open.id) by { assert open in placed.bets; }
    forall other | other != pid ensures Cash(placed, other) == Cash(db, other) { AddBetMoney(db, open, approval, other); }
    EntryKept(db.entries, Entry(pid, StakeOf(open.id), -open.stake));
    assert Extends(db, placed, pid);
    if b.result.Some? {
      var after := CloseBet(placed, |db.bets|, b.result.value, Cents(b.payout), b.settledAt);
      CloseBetKeeps(placed, |db.bets|, b.result.value, Cents(b.payout), b.settledAt);
      HasBetAfterClosing(placed.bets, |db.bets|, ClosedBet(open, b.result.value, Cents(b.payout), b.settledAt));
      forall other | other != pid ensures Cash(after, other) == Cash(placed, other) {
        CloseBetMoney(placed, |db.bets|, b.result.value, Cents(b.payout), b.settledAt, other);
      }
      EntryKept(placed.entries, Entry(pid, SettlementOf(open.id), open.stake + Cents(b.payout)));
      assert Extends(placed, after, pid);
      ExtendsTrans(db, placed, after, pid);
    }
  }

  lemma EntryKept(entries: seq<Entry>, e: Entry)
    ensures forall x :: x in entries ==> x in entries + [e]
    ensures forall x :: x in entries + [e] ==> x in entries || x == e
  {
  }

  lemma {:induction false} ImportBetsKeeps(db: Db, owner: string, pid: string, bets: seq<Option<LegacyBet>>)
    requires Inv(db) && pid in db.portfolios
    ensures var after := ImportBets(db, owner, pid, bets).0;
            && Inv(after) && Extends(db, after, pid) && after.portfolios == db.portfolios
            && (Reconciled(after, pid) ==> Reconciled(db, pid))
            && (forall i :: 0 <= i < |bets| && bets[i].Some? && Cents(bets[i].value.stake) > 0
                            ==> HasBet(after.bets, ExternalId(pid, bets[i].value, i)))
  {
    hide Inv, Cents, ExternalId, InsertBet, Cash, HasBet, Reconciled;
    if bets != [] {
      var n := |bets| - 1;
      ImportBetsKeeps(db, owner, pid, bets[..n]);
      var before := ImportBets(db, owner, pid, bets[..n]).0;
      if bets[n].Some? && Importable(before, pid, bets[n].value, n) {
        InsertKeeps(before, owner, pid, bets[n].value, n);
        ExtendsTrans(db, before, InsertBet(before, owner, pid, bets[n].value, n), pid);
      }
    }
  }

  lemma AdjustedRows(db: Db, e: Entry, b: Bet)
    requires BetSound(db, b) && e.reference == Reconciliation
    ensures BetSound(Adjusted(db, e), b)
  {
    hide Where;
    WhereAppend(db.entries, e, ForReference(StakeOf(b.id)));
    WhereAppend(db.entries, e, ForReference(SettlementOf(b.id)));
  }

  lemma AdjustedMoney(db: Db, e: Entry, pid: string)
    requires e.reference == Reconciliation
    ensures var more := if e.portfolioId == pid then e.amount else 0;
            && Cash(Adjusted(db, e), pid) == Cash(db, pid) + more
            && Adjustments(Adjusted(db, e), pid) == Adjustments(db, pid) + more
            && Reserved(Adjusted(db, e), pid) == Reserved(db, pid) && Realized(Adjusted(db, e), pid) == Realized(db, pid)
  {
    TotalAppend(db.entries, e, AmountIn(pid));
    TotalAppend(db.entries, e, AdjustmentIn(pid));
  }

  lemma AdjustedKeeps(db: Db, e: Entry)
    requires Inv(db) && e.reference == Reconciliation && e.portfolioId in db.portfolios
    ensures Inv(Adjusted(db, e))
  {
    hide Where, Total, BetSound, HasBet;
    var after := Adjusted(db, e);
    EntryKept(db.entries, e);
    forall b | b in after.bets ensures BetSound(after, b) { AdjustedRows(db, e, b); }
    forall id | id in after.recommendations ensures RecommendationSound(after, id) { assert RecommendationSound(db, id); }
    forall pid | pid in after.portfolios ensures Conserved(after, pid) {
      assert Conserved(db, pid);
      AdjustedMoney(db, e, pid);
    }
  }

  lemma ReconcileKeeps(db: Db, pid: string, target: int)
    requires Inv(db) && pid in db.portfolios
    ensures Inv(Reconcile(db, pid, target)) && Extends(db, Reconcile(db, pid, target), pid)
    ensures !Reconciled(db, pid) ==> Cash(Reconcile(db, pid, target), pid) == target
    ensures Reconcile(db, pid, target).portfolios == db.portfolios && Reconcile(db, pid, target).bets == db.bets
  {
    hide Inv, Cash, HasBet;
    if Difference(db, pid, target) != 0 {
      var e := Entry(pid, Reconciliation, Difference(db, pid, target));
      assert pid in db.portfolios;
      AdjustedKeeps(db, e);
      EntryKept(db.entries, e);
      forall other ensures Cash(Adjusted(db, e), other) == Cash(db, other) + (if other == pid then e.amount else 0) {
        AdjustedMoney(db, e, other);
      }
    }
  }

  lemma OpenedExtends(db: Db, owner: string, pid: string, capital: int)
    requires Inv(db)
    ensures Extends(db, Opened(db, owner, pid, capital), pid)
    ensures Reconciled(Opened(db, owner, pid, capital), pid) ==> Reconciled(db, pid)
  {
    hide Inv, Cash, HasBet;
    if pid !in db.portfolios {
      OpeningKeeps(db, pid, Portfolio(owner, capital));
      EntryKept(db.entries, Entry(pid, InitialFunding, capital));
    }
  }

  /** The bets of the legacy portfolio that carry a stake are stored. */
  ghost predicate BetsStored(db: Db, lp: LegacyPortfolio) {
    forall i :: 0 <= i < |lp.bets| && lp.bets[i].Some? && Cents(lp.bets[i].value.stake) > 0
                ==> HasBet(db.bets, ExternalId(lp.externalId, lp.bets[i].value, i))
  }

  /** The portfolio is there, its bets are stored, and its cash is the target or was reconciled before. */
  ghost predicate Settled(db: Db, owner: string, lp: LegacyPortfolio, capital: real) {
    && lp.externalId in db.portfolios && db.portfolios[lp.externalId].owner == owner && BetsStored(db, lp)
    && (Reconciled(db, lp.externalId) || Cash(db, lp.externalId) == Target(lp, capital))
  }

  lemma PortfolioKeeps(done: Imported, owner: string, lp: LegacyPortfolio, capital: real)
    requires Inv(done.db) && ImportPortfolio(done, owner, lp, capital).Ok?
    ensures var after := ImportPortfolio(done, owner, lp, capital).value.db;
            && Inv(after) && Extends(done.db, after, lp.externalId) && Settled(after, owner, lp, capital)
            && (!Reconciled(done.db, lp.externalId) ==> Cash(after, lp.externalId) == Target(lp, capital))
  {
    hide Inv, Cents, ExternalId, Cash, HasBet, Reconciled, ImportBets, Target, Reconcile, Extends;
    var pid := lp.externalId;
    var ready := Opened(done.db, owner, pid, Cents(capital));
    OpenedKeeps(done.db, owner, pid, Cents(capital));
    OpenedExtends(done.db, owner, pid, Cents(capital));
    ImportBetsKeeps(ready, owner, pid, lp.bets);
    var full := ImportBets(ready, owner, pid, lp.bets).0;
    ReconcileKeeps(full, pid, Target(lp, capital));
    var after := Reconcile(full, pid, Target(lp, capital));
    ExtendsTrans(done.db, ready, full, pid);
    ExtendsTrans(done.db, full, after, pid);
    if Reconciled(full, pid) { ReconciledStays(full, after, pid); }
  }

  lemma ReconciledStays(db: Db, after: Db, pid: string)
    requires Extends(db, after, pid) && Reconciled(db, pid)
    ensures Reconciled(after, pid)
  {
    hide Reconciled, Cash, HasBet;
  }

  /** What one portfolio's import settles, importing another keeps. */
  lemma OthersStaySettled(db: Db, after: Db, owner: string, lp: LegacyPortfolio, capital: real, pid: string)
    requires Settled(db, owner, lp, capital) && Extends(db, after, pid) && lp.externalId != pid
    ensures Settled(after, owner, lp, capital) && Cash(after, lp.externalId) == Cash(db, lp.externalId)
  {
    hide Reconciled, Cash, HasBet, Cents, ExternalId;
  }

  ghost predicate DistinctPortfolios(file: seq<LegacyPortfolio>) {
    forall i, j :: 0 <= i < j < |file| ==> file[i].externalId != file[j].externalId
  }

  lemma {:induction false} ImportKeeps(db: Db, owner: string, file: seq<LegacyPortfolio>, capital: real)
    requires Inv(db) && DistinctPortfolios(file) && Import(db, owner, file, capital).Ok?
    ensures var after := Import(db, owner, file, capital).value.db;
            && Inv(after)
            && (forall i :: 0 <= i < |file| ==>
                  && Settled(after, owner, file[i], capital)
                  && (!Reconciled(db, file[i].externalId) ==> Cash(after, file[i].externalId) == Target(file[i], capital)))
            && (forall pid :: Reconciled(after, pid) && !Reconciled(db, pid) ==> exists i :: 0 <= i < |file| && file[i].externalId == pid)
  {
    hide Inv, Settled, Cash, Target, ImportPortfolio, Extends, Reconciled;
    if file != [] {
      var n := |file| - 1;
      ImportKeeps(db, owner, file[..n], capital);
      var done := Import(db, owner, file[..n], capital).value;
      PortfolioKeeps(done, owner, file[n], capital);
      var after := Import(db, owner, file, capital).value.db;
      forall i | 0 <= i < |file|
        ensures Settled(after, owner, file[i], capital)
        ensures !Reconciled(db, file[i].externalId) ==> Cash(after, file[i].externalId) == Target(file[i], capital)
      {
        if i < n {
          assert file[..n][i] == file[i];
          OthersStaySettled(done.db, after, owner, file[i], capital, file[n].externalId);
        } else {
          assert Reconciled(done.db, file[n].externalId) && !Reconciled(db, file[n].externalId)
            ==> exists j :: 0 <= j < n && file[..n][j].externalId == file[n].externalId;
          forall j | 0 <= j < n ensures file[..n][j].externalId != file[n].externalId { assert file[..n][j] == file[j]; }
        }
      }
      forall pid | Reconciled(after, pid) && !Reconciled(db, pid) ensures exists i :: 0 <= i < |file| && file[i].externalId == pid {
        if pid != file[n].externalId {
          OnlyItsOwnReconciled(done, owner, file[n], capital, pid);
          var j :| 0 <= j < n && file[..n][j].externalId == pid;
          assert file[j].externalId == pid;
        }
      }
    }
  }

  lemma OnlyItsOwnReconciled(done: Imported, owner: string, lp: LegacyPortfolio, capital: real, pid: string)
    requires ImportPortfolio(done, owner, lp, capital).Ok? && pid != lp.externalId
    ensures Reconciled(ImportPortfolio(done, owner, lp, capital).value.db, pid) ==> Reconciled(done.db, pid)
  {
    hide Cents, ExternalId, Cash, HasBet, ImportBets, Target;
    var ready := Opened(done.db, owner, lp.externalId, Cents(capital));
    EntryKept(done.db.entries, Entry(lp.externalId, InitialFunding, Cents(capital)));
    BetsNeverReconcile(ready, owner, lp.externalId, lp.bets, pid);
    var full := ImportBets(ready, owner, lp.externalId, lp.bets).0;
    EntryKept(full.entries, Entry(lp.externalId, Reconciliation, Difference(full, lp.externalId, Target(lp, capital))));
  }

  lemma {:induction false} BetsNeverReconcile(db: Db, owner: string, home: string, bets: seq<Option<LegacyBet>>, pid: string)
    ensures Reconciled(ImportBets(db, owner, home, bets).0, pid) ==> Reconciled(db, pid)
  {
    hide Cents, ExternalId, HasBet, Importable;
    if bets != [] {
      var n := |bets| - 1;
      BetsNeverReconcile(db, owner, home, bets[..n], pid);
    }
  }

  // ----- Main results -----

  /** After an import, a portfolio without an earlier reconciliation holds the rounded legacy bankroll in cash, and its
      equity is the starting capital, the realized result and the adjustment. */
  lemma ImportReconcilesCash(db: Db, owner: string, file: seq<LegacyPortfolio>, capital: real, i: nat)
    requires Inv(db) && DistinctPortfolios(file) && i < |file| && Import(db, owner, file, capital).Ok?
    ensures var after, pid := Import(db, owner, file, capital).value.db, file[i].externalId;
            && pid in after.portfolios
            && (!Reconciled(db, pid) ==> Cash(after, pid) == Target(file[i], capital))
            && Equity(after, pid) == after.portfolios[pid].startingCapital + Realized(after, pid) + Adjustments(after, pid)
            && Inv(after)
  {
    hide Import, Cash, Target, Reconciled, BetsStored;
    ImportKeeps(db, owner, file, capital);
    var after := Import(db, owner, file, capital).value.db;
    assert Settled(after, owner, file[i], capital);
    assert Conserved(after, file[i].externalId);
  }

  lemma {:induction false} StoredBetsAddNothing(db: Db, owner: string, pid: string, bets: seq<Option<LegacyBet>>)
    requires forall i :: 0 <= i < |bets| && bets[i].Some? && Cents(bets[i].value.stake) > 0
                         ==> HasBet(db.bets, ExternalId(pid, bets[i].value, i))
    ensures ImportBets(db, owner, pid, bets) == (db, 0)
  {
    hide Cents, ExternalId, HasBet;
    if bets != [] { StoredBetsAddNothing(db, owner, pid, bets[..|bets| - 1]); }
  }

  lemma SettledAddsNothing(done: Imported, owner: string, lp: LegacyPortfolio, capital: real)
    requires Settled(done.db, owner, lp, capital)
    ensures ImportPortfolio(done, owner, lp, capital) == Ok(done)
  {
    hide Cents, ExternalId, HasBet, Cash, Target, Reconciled, ImportBets;
    StoredBetsAddNothing(done.db, owner, lp.externalId, lp.bets);
    assert done.report.adjustments + [] == done.report.adjustments;
  }

  lemma {:induction false} ImportAddsNothing(db: Db, owner: string, file: seq<LegacyPortfolio>, capital: real)
    requires forall i :: 0 <= i < |file| ==> Settled(db, owner, file[i], capital)
    ensures Import(db, owner, file, capital) == Ok(Imported(db, Report(0, 0, [])))
  {
    hide Settled, ImportPortfolio;
    if file != [] {
      var n := |file| - 1;
      assert forall i :: 0 <= i < n ==> file[..n][i] == file[i];
      ImportAddsNothing(db, owner, file[..n], capital);
      SettledAddsNothing(Imported(db, Report(0, 0, [])), owner, file[n], capital);
    }
  }

  /** Importing the same file again right away changes no table and reports nothing. */
  lemma ReimportAddsNothing(db: Db, owner: string, file: seq<LegacyPortfolio>, capital: real)
    requires Inv(db) && DistinctPortfolios(file) && Import(db, owner, file, capital).Ok?
    ensures var after := Import(db, owner, file, capital).value.db;
            Import(after, owner, file, capital) == Ok(Imported(after, Report(0, 0, [])))
  {
    hide Import, Settled;
    ImportKeeps(db, owner, file, capital);
    ImportAddsNothing(Import(db, owner, file, capital).value.db, owner, file, capital);
  }

  lemma {:induction false} ImportBetsCounts(db: Db, owner: string, pid: string, bets: seq<Option<LegacyBet>>)
    ensures var (after, count) := ImportBets(db, owner, pid, bets);
            |after.bets| == |db.bets| + count && db.bets <= after.bets
  {
    hide Cents, ExternalId, Importable;
    if bets != [] { ImportBetsCounts(db, owner, pid, bets[..|bets| - 1]); }
  }

  /** The report counts exactly the bets added, and no stored bet is changed. */
  lemma {:induction false} ImportCountsBets(db: Db, owner: string, file: seq<LegacyPortfolio>, capital: real)
    requires Import(db, owner, file, capital).Ok?
    ensures var done := Import(db, owner, file, capital).value;
            |done.db.bets| == |db.bets| + done.report.betsImported && db.bets <= done.db.bets
  {
    hide ImportBets, Cents, Target, Difference;
    if file != [] {
      var n := |file| - 1;
      ImportCountsBets(db, owner, file[..n], capital);
      var done := Import(db, owner, file[..n], capital).value;
      ImportBetsCounts(Opened(done.db, owner, file[n].externalId, Cents(capital)), owner, file[n].externalId, file[n].bets);
    }
  }
}
