/** Where the approval check looks under the wrong name: three requests, from empty tables and under the default policies,
    that take a game above its cap. */
module UnnamedGame {
  import opened Wrappers
  import opened Numbers
  import opened Lists
  import opened PortfolioEngine
  import opened Ledger
  import opened ApprovalRisk
  import opened LedgerOperations
  import opened LedgerInvariants
  import opened ApprovalInvariants

  const DEFAULTS := Policies(DEFAULT_RISK, DEFAULT_PARLAY, 20000)

  /** Eight dollars, the cap of a game, on the provider's event g. */
  const BET_AT_CAP :=
    Place("owner", "p", BetDetails(Some("g"), None, None, None, "spread", "home", 7), 8.0, "a", 0)

  /** A straight recommendation on the same event, without a canonical one. */
  const UNNAMED :=
    RecommendationRow("p", Proposed, Straight, None, None, Some("g"), None, None, "total", "over", Some("over"), Some(2.0),
                      Some(DecisionRun(7, 20000)), [])

  const DECISION := Propose("owner", "p", map["r" := UNNAMED])

  const APPROVAL := Approve("owner", "r", "b", 1)

  // ----- The tables as the three requests leave them -----

  const STANDING := Bet("a", 0, "p", Straight, None, Some("g"), None, None, None, "spread", "home", None, 7, 800, Open, None, None, None)

  const AFTER_BET :=
    Db(map["p" := Portfolio("owner", 20000)], [STANDING], [Entry("p", InitialFunding, 20000), Entry("p", StakeOf("a"), -800)],
       [], [ApprovalRow("a", "owner", None)], map[], map[])

  const AFTER_DECISION := AFTER_BET.(recommendations := map["r" := UNNAMED])

  const AFTER_APPROVAL :=
    AddBet(AFTER_DECISION, ApprovedBetRow(UNNAMED, DecisionRun(7, 20000), 200, "b", 1), ApprovalRow("b", "owner", Some("r")))

  lemma BetIsPlaced()
    ensures Execute(EmptyDb(map[]), BET_AT_CAP, DEFAULTS) == (AFTER_BET, Ok(BetRecorded("a", 19200)))
  {
    var change := DecidePlace(ViewOf(EmptyDb(map[]), BET_AT_CAP), BET_AT_CAP, DEFAULTS).value.0;
    assert Cents(8.0) == 800;
    assert Apply(EmptyDb(map[]), change) == AFTER_BET;
  }

  lemma DecisionIsStored()
    ensures Execute(AFTER_BET, DECISION, DEFAULTS) == (AFTER_DECISION, Ok(ProposalsStored))
  {
    hide Cash, BetsOf, ExposuresIn;
    var change := DecidePropose(ViewOf(AFTER_BET, DECISION), DECISION, DEFAULTS).value.0;
    assert ProposalRows("p", map["r" := UNNAMED]) == map["r" := UNNAMED];
    assert Apply(AFTER_BET, change) == AFTER_DECISION;
  }

  // ----- What the approval sees -----

  const SEEN := OpenExposure("g", [], "spread", "home", 8.0, Straight, Some(7))

  const TARGET := OpenExposure("None", [], "total", "over", 2.0, Straight, Some(7))

  lemma OneExposureSum(e: OpenExposure, d: Dimension)
    ensures ExposureSum([e], d) == if Touches(e, d) then e.stake else 0.0
  {
    assert [e][1..] == [];
  }

  lemma OneBetExposed(db: Db)
    requires db.bets == [STANDING]
    ensures ExposuresIn(db, "p") == [SEEN]
  {
    ExposuresOverAppend(db, [], STANDING, "p");
    assert [] + [STANDING] == [STANDING];
    assert TeamsOf(None, None) == [];
  }

  lemma ApprovalSees()
    ensures Cash(AFTER_DECISION, "p") == 19200 && BetsOf(AFTER_DECISION, "p") == [STANDING]
    ensures Targets(map[], UNNAMED, 200, 7) == [TARGET]
  {
    var funding, stake := Entry("p", InitialFunding, 20000), Entry("p", StakeOf("a"), -800);
    assert AFTER_DECISION.entries == [funding] + [stake];
    TotalAppend([funding], stake, AmountIn("p"));
    TotalOne(funding, AmountIn("p"));
    WhereOne(STANDING, BelongsTo("p"));
    assert TeamsOf(None, None) == [];
  }

  lemma PortfolioCheckPasses()
    ensures Total([STANDING], OpenStake()) == 800
    ensures CheckPortfolio(UNNAMED, DecisionRun(7, 20000), 200, 19200, [STANDING], DEFAULTS) == None
  {
    TotalOne(STANDING, OpenStake());
    TotalOne(STANDING, StakeOnDay(7));
    WhereOne(STANDING, IsSettled());
    assert InSettledOrder([STANDING]) == [];
    assert PeakAfter(20000, []) == 20000;
    assert Ratio(0.0, 200.0) == 0.0;
  }

  lemma TargetCheckPasses()
    ensures CheckTargets([TARGET], [TARGET], [SEEN], 200.0, DEFAULT_RISK) == None
  {
    assert "g"[0] != "None"[0] && "spread"[0] != "total"[0];
    OneExposureSum(SEEN, Game("None"));
    OneExposureSum(SEEN, Correlated("None"));
    OneExposureSum(SEEN, MarketKind("total"));
    OneExposureSum(TARGET, Game("None"));
    OneExposureSum(TARGET, Correlated("None"));
    OneExposureSum(TARGET, MarketKind("total"));
    assert CheckTarget(TARGET, [TARGET], [SEEN], 200.0, DEFAULT_RISK) == None;
    assert [TARGET][1..] == [];
  }

  const VIEW := View(Some(Portfolio("owner", 20000)), 19200, [STANDING], [SEEN], false, Some(UNNAMED), None, false, map[])

  lemma ApprovalReads()
    ensures ViewOf(AFTER_DECISION, APPROVAL) == VIEW
  {
    ApprovalSees();
    OneBetExposed(AFTER_DECISION);
    hide Cash, BetsOf, ExposuresIn;
    WhereOne(ApprovalRow("a", "owner", None), ForRecommendation("r"));
    assert !HasBet(AFTER_DECISION.bets, "b") by { assert "a"[0] != "b"[0]; }
  }

  const CHANGE :=
    NOTHING.(bets := [ApprovedBetRow(UNNAMED, DecisionRun(7, 20000), 200, "b", 1)], entries := [Entry("p", StakeOf("b"), -200)],
             approvals := [ApprovalRow("b", "owner", Some("r"))], recommendations := Marked("r", Approved))

  lemma ApprovalDecides()
    ensures DecideApprove(VIEW, APPROVAL, DEFAULTS) == Ok((CHANGE, BetApproved("b", 19000)))
  {
    ApprovalSees();
    RiskCheckPasses();
    hide ValidateRisk, Targets, Cash, BetsOf;
    assert Cents(2.0) == 200;
  }

  lemma ApprovalWrites()
    ensures Apply(AFTER_DECISION, CHANGE) == AFTER_APPROVAL
  {
  }

  lemma ApprovalIsGranted()
    ensures Execute(AFTER_DECISION, APPROVAL, DEFAULTS) == (AFTER_APPROVAL, Ok(BetApproved("b", 19000)))
  {
    ApprovalReads();
    ApprovalDecides();
    ApprovalWrites();
    hide ViewOf, DecideApprove, Apply;
  }

  lemma RiskCheckPasses()
    ensures ValidateRisk(UNNAMED, DecisionRun(7, 20000), 200, 19200, [STANDING], [SEEN], [TARGET], DEFAULTS) == None
  {
    PortfolioCheckPasses();
    TargetCheckPasses();
    hide CheckPortfolio, CheckTargets, Total;
    assert Dollars(20000) == 200.0;
  }

  // ----- The caps before and after -----

  lemma WorthAll()
    ensures Equity(AFTER_DECISION, "p") == Equity(AFTER_APPROVAL, "p") == 20000
  {
    ApprovalSees();
    TotalOne(STANDING, OpenStakeIn("p"));
    AddBetMoney(AFTER_DECISION, ApprovedBetRow(UNNAMED, DecisionRun(7, 20000), 200, "b", 1), ApprovalRow("b", "owner", Some("r")), "p");
    hide Cash, Total;
  }

  lemma CapsHoldBefore()
    ensures CapsHold(AFTER_DECISION, "p", DEFAULTS)
  {
    WorthAll();
    OneBetExposed(AFTER_DECISION);
    hide Equity, ExposuresIn, ExposureSum;
    assert Dollars(20000) == 200.0;
    forall date: int ensures DayWithin(AFTER_DECISION, "p", date, DEFAULTS) {
      TotalOne(STANDING, StakeOnDayIn("p", date));
      TotalOne(STANDING, ParlayStakeOnDayIn("p", date));
    }
    forall d: Dimension | ExposureDimension(d) ensures DimensionWithin(AFTER_DECISION, "p", d, DEFAULTS) {
      OneExposureSum(SEEN, d);
    }
  }

  lemma CapIsPassedAfter()
    ensures !DimensionWithin(AFTER_APPROVAL, "p", Game("g"), DEFAULTS)
  {
    WorthAll();
    OneBetExposed(AFTER_DECISION);
    var b := ApprovedBetRow(UNNAMED, DecisionRun(7, 20000), 200, "b", 1);
    assert TeamsOf(None, None) == [];
    assert "a"[0] != "b"[0];
    AddBetExposes(AFTER_DECISION, b, ApprovalRow("b", "owner", Some("r")), "p");
    var counted := TARGET.(eventId := "g");
    assert ExposuresOfBet(AFTER_APPROVAL, b) == [counted];
    OneExposureSum(SEEN, Game("g"));
    OneExposureSum(counted, Game("g"));
    ExposureSumConcat([SEEN], [counted], Game("g"));
    hide Equity, ExposuresIn, ExposureSum, ExposuresOfBet;
    assert Dollars(20000) == 200.0;
  }

  lemma RunGrows(db: Db, reqs: seq<Request>, r: Request, p: Policies)
    ensures var (before, answers) := ExecuteAll(db, reqs, p);
            var (after, answer) := Execute(before, r, p);
            ExecuteAll(db, reqs + [r], p) == (after, answers + [answer])
  {
    hide Execute;
    assert (reqs + [r])[..|reqs|] == reqs;
  }

  lemma ThreeSteps(start: Db, a: Request, b: Request, c: Request, p: Policies)
    ensures var (one, x) := Execute(start, a, p);
            var (two, y) := Execute(one, b, p);
            var (three, z) := Execute(two, c, p);
            ExecuteAll(start, [a, b], p) == (two, [x, y]) && ExecuteAll(start, [a, b, c], p) == (three, [x, y, z])
  {
    hide Execute;
    RunGrows(start, [], a, p);
    RunGrows(start, [a], b, p);
    RunGrows(start, [a, b], c, p);
    assert [] + [a] == [a] && [a] + [b] == [a, b] && [a, b] + [c] == [a, b, c];
    hide ExecuteAll;
    var (one, x) := Execute(start, a, p);
    var (two, y) := Execute(one, b, p);
    assert [] + [x] == [x] && [x] + [y] == [x, y];
    assert [x, y] + [Execute(two, c, p).1] == [x, y, Execute(two, c, p).1];
  }

  /** Under the default policies and from empty tables: a bet at a game's cap, a decision that names the game only as the
      provider does, and its approval all succeed. Every cap holds until then, and the game ends above its cap. */
  lemma UnnamedGameEscapesCap()
    ensures DEFAULT_RISK.Valid() && DEFAULT_PARLAY.Valid() && BET_AT_CAP.Accepted()
    ensures ExecuteAll(EmptyDb(map[]), [BET_AT_CAP, DECISION, APPROVAL], DEFAULTS)
            == (AFTER_APPROVAL, [Ok(BetRecorded("a", 19200)), Ok(ProposalsStored), Ok(BetApproved("b", 19000))])
    ensures ExecuteAll(EmptyDb(map[]), [BET_AT_CAP, DECISION], DEFAULTS).0 == AFTER_DECISION
    ensures Inv(AFTER_DECISION) && CapsHold(AFTER_DECISION, "p", DEFAULTS)
    ensures Inv(AFTER_APPROVAL) && !DimensionWithin(AFTER_APPROVAL, "p", Game("g"), DEFAULTS)
  {
    hide Execute, ExecuteAll, Inv, CapsHold, DimensionWithin, EmptyDb, AddBet;
    BetIsPlaced();
    DecisionIsStored();
    ApprovalIsGranted();
    ThreeSteps(EmptyDb(map[]), BET_AT_CAP, DECISION, APPROVAL, DEFAULTS);
    CapsHoldBefore();
    CapIsPassedAfter();
    EmptyDbSound(map[]);
    RunKeeps(EmptyDb(map[]), [BET_AT_CAP, DECISION], DEFAULTS);
    RunKeeps(EmptyDb(map[]), [BET_AT_CAP, DECISION, APPROVAL], DEFAULTS);
  }
}
