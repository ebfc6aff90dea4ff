/** The offline simulator: slates decided in order, each settled before the next is decided. */
module PortfolioSimulator {
  import opened Wrappers
  import opened Numbers
  import opened Ordering
  import opened PortfolioEngine
  import opened PortfolioDecisions

  datatype Outcome = Outcome(candidateId: nat, result: GameResult, knownAt: int)

  datatype Slate = Slate(
    asOf: int,
    date: int,
    candidates: seq<Candidate>,
    outcomes: seq<Outcome>,
    parlayOffers: seq<ParlayOffer>)

  datatype SimulationError =
    | NonPositiveBankroll
    | CutoffNotLater
    | OutcomeKnownAtCutoff
    | MissingOutcome
    | ParlayPush
    | EngineRefused(cause: EngineError)

  datatype Simulation = Simulation(lib: Library, starting: real, topN: int, risk: RiskPolicy, parlay: ParlayPolicy)

  /** The simulator's variables after some slates, with the decisions that its hashes stand for. */
  datatype Run = Run(
    bankroll: real,
    peak: real,
    maximumDrawdown: real,
    turnover: real,
    straightBets: nat,
    parlayBets: nat,
    passSlates: nat,
    decisions: seq<Decision>,
    previousCutoff: Option<int>)

  ghost predicate GoodSlates(slates: seq<Slate>) {
    forall s <- slates :: AllWellFormed(s.candidates)
  }

  // ----- Settling one decision -----

  function NetPnl(result: GameResult, stake: real, odds: real): real {
    match result
    case Win => Prod(stake, odds - 1.0)
    case Loss => -stake
    case Push => 0.0
  }

  /** The last outcome recorded for a candidate, as a dictionary built in order would keep it. */
  function OutcomeOf(outcomes: seq<Outcome>, id: nat): Option<GameResult> {
    if outcomes == [] then None
    else if outcomes[|outcomes| - 1].candidateId == id then Some(outcomes[|outcomes| - 1].result)
    else OutcomeOf(outcomes[..|outcomes| - 1], id)
  }

  function SettleStraights(bankroll: real, recs: seq<Recommendation>, outcomes: seq<Outcome>): Result<real, SimulationError> {
    if recs == [] then Ok(bankroll)
    else
      var last := recs[|recs| - 1];
      match SettleStraights(bankroll, recs[..|recs| - 1], outcomes)
      case Err(e) => Err(e)
      case Ok(before) =>
        match OutcomeOf(outcomes, last.candidate.candidateId)
        case None => Err(MissingOutcome)
        case Some(result) => Ok(before + NetPnl(result, last.stake, last.candidate.decimalOdds))
  }

  predicate LegResulted(leg: Recommendation, outcomes: seq<Outcome>, result: GameResult) {
    OutcomeOf(outcomes, leg.candidate.candidateId) == Some(result)
  }

  function SettleParlay(bankroll: real, parlay: ParlayPick, outcomes: seq<Outcome>): Result<real, SimulationError>
    requires parlay.impliedProbability != 0.0
  {
    if exists leg :: leg in parlay.legs && OutcomeOf(outcomes, leg.candidate.candidateId) == None then Err(MissingOutcome)
    else if exists leg :: leg in parlay.legs && LegResulted(leg, outcomes, Push) then Err(ParlayPush)
    else
      var result := if forall leg :: leg in parlay.legs ==> LegResulted(leg, outcomes, Win) then Win else Loss;
      Ok(bankroll + NetPnl(result, parlay.stake, Ratio(1.0, parlay.impliedProbability)))
  }

  function SettleDecision(bankroll: real, d: Decision, outcomes: seq<Outcome>): Result<real, SimulationError>
    requires d.parlay.Some? ==> d.parlay.value.impliedProbability != 0.0
  {
    match SettleStraights(bankroll, d.straight, outcomes)
    case Err(e) => Err(e)
    case Ok(after) => if d.parlay == None then Ok(after) else SettleParlay(after, d.parlay.value, outcomes)
  }

  // ----- One slate, and a run of slates -----

  function SnapshotOf(sim: Simulation, run: Run, slate: Slate): Snapshot {
    Snapshot(slate.date, sim.starting, run.bankroll, run.bankroll, run.peak, [])
  }

  function StateNow(sim: Simulation, run: Run): PortfolioState {
    StateOf(Snapshot(0, sim.starting, run.bankroll, run.bankroll, run.peak, []), sim.risk)
  }

  function DrawdownFrom(peak: real, bankroll: real): real {
    if peak == 0.0 then 0.0 else Ratio(peak - bankroll, peak)
  }

  predicate Passes(d: Decision) {
    d.straight == [] && d.parlay == None
  }

  function ParlayStakeOf(d: Decision): real {
    if d.parlay == None then 0.0 else d.parlay.value.stake
  }

  function Advance(run: Run, slate: Slate, d: Decision, bankroll: real): Run {
    var peak := Max(run.peak, bankroll);
    Run(bankroll, peak, Max(run.maximumDrawdown, DrawdownFrom(peak, bankroll)),
        run.turnover + TotalStake(d.straight) + ParlayStakeOf(d),
        run.straightBets + |d.straight|,
        run.parlayBets + (if d.parlay == None then 0 else 1),
        run.passSlates + (if Passes(d) then 1 else 0),
        run.decisions + [d], Some(slate.asOf))
  }

  function Step(sim: Simulation, run: Run, slate: Slate): Result<Run, SimulationError>
    requires AllWellFormed(slate.candidates) && sim.risk.Valid() && sim.parlay.Valid() && run.bankroll >= 0.0
  {
    if run.previousCutoff.Some? && slate.asOf <= run.previousCutoff.value then Err(CutoffNotLater)
    else if exists o :: o in slate.outcomes && o.knownAt <= slate.asOf then Err(OutcomeKnownAtCutoff)
    else
      DecisionIsSound(sim.lib, slate.candidates, SnapshotOf(sim, run, slate), sim.topN, sim.risk, sim.parlay, slate.parlayOffers);
      match Decide(sim.lib, slate.candidates, SnapshotOf(sim, run, slate), sim.topN, sim.risk, sim.parlay, slate.parlayOffers)
      case Err(e) => Err(EngineRefused(e))
      case Ok(d) =>
        match SettleDecision(run.bankroll, d, slate.outcomes)
        case Err(e) => Err(e)
        case Ok(bankroll) => Ok(Advance(run, slate, d, bankroll))
  }

  function InitialRun(starting: real): Run {
    Run(starting, starting, 0.0, 0.0, 0, 0, 0, [], None)
  }

  predicate ValidSimulation(sim: Simulation) {
    sim.risk.Valid() && sim.parlay.Valid() && sim.starting > 0.0
  }

  // ----- What one slate can cost -----

  lemma {:induction false} StraightsLoseAtMostStakes(bankroll: real, recs: seq<Recommendation>, outcomes: seq<Outcome>)
    requires forall r <- recs :: r.stake >= 0.0 && r.candidate.decimalOdds > 1.0
    ensures var r := SettleStraights(bankroll, recs, outcomes);
            r.Ok? ==> r.value >= bankroll - TotalStake(recs)
  {
    if recs != [] {
      var front, last := recs[..|recs| - 1], recs[|recs| - 1];
      assert last in recs && forall r <- front :: r in recs;
      StraightsLoseAtMostStakes(bankroll, front, outcomes);
      assert recs == front + [last];
      TotalStakeAppend(front, last);
      ProdMono(0.0, last.candidate.decimalOdds - 1.0, last.stake);
    }
  }

  lemma ParlayLosesAtMostStake(bankroll: real, p: ParlayPick, outcomes: seq<Outcome>)
    requires p.stake >= 0.0 && 0.0 < p.impliedProbability < 1.0
    ensures var r := SettleParlay(bankroll, p, outcomes);
            r.Ok? ==> r.value >= bankroll - p.stake
  {
    hide Prod, Ratio;
    DivLess(1.0, 1.0, p.impliedProbability);
    assert Ratio(1.0, p.impliedProbability) == 1.0 / p.impliedProbability by { RatioUnfolds(1.0, p.impliedProbability); }
    ProdMono(0.0, Ratio(1.0, p.impliedProbability) - 1.0, p.stake);
    ProdSplits(p.stake, 0.0, 0.0);
  }

  lemma RatioUnfolds(a: real, b: real)
    requires b != 0.0
    ensures Ratio(a, b) == a / b
  {
  }

  lemma {:induction false} DayIsTotalStake(recs: seq<Recommendation>, date: int)
    ensures ExposureSum(StraightExposures(recs, date), Daily(date)) == TotalStake(recs)
  {
    if recs != [] {
      DayIsTotalStake(recs[1..], date);
      assert StraightExposures(recs, date)[1..] == StraightExposures(recs[1..], date);
    }
  }

  /** A sound decision of an otherwise empty portfolio stakes no more than the daily fraction of its equity. */
  lemma DayStakesWithinCap(d: Decision, snapshot: Snapshot, topN: nat, risk: RiskPolicy, policy: ParlayPolicy)
    requires SoundDecision(d, snapshot, topN, risk, policy) && risk.Valid()
    requires snapshot.openExposures == [] && snapshot.equity >= 0.0
    ensures TotalStake(d.straight) + ParlayStakeOf(d) <= Prod(risk.maximumDailyFraction, snapshot.equity)
  {
    hide Prod, NoOpposites, SoundStakes;
    var day := Daily(snapshot.slateDate);
    var all := AllExposures(snapshot, d.straight);
    assert all == StraightExposures(d.straight, snapshot.slateDate);
    DayIsTotalStake(d.straight, snapshot.slateDate);
    assert WithinCap(snapshot, all, CapFraction(risk, policy, day), day);
    ProdMono(0.0, risk.maximumDailyFraction, snapshot.equity);
    ProdSplits(snapshot.equity, 0.0, 0.0);
    ProdCommutes(snapshot.equity, risk.maximumDailyFraction);
  }

  lemma ProdCommutes(a: real, b: real)
    ensures Prod(a, b) == Prod(b, a)
  {
  }

  /** A settled decision costs at most the daily fraction of the bankroll it was made with. */
  lemma SlateLosesAtMostDay(sim: Simulation, run: Run, slate: Slate)
    requires ValidSimulation(sim) && AllWellFormed(slate.candidates) && run.bankroll >= 0.0
    requires Step(sim, run, slate).Ok?
    ensures var next := Step(sim, run, slate).value;
            && next.bankroll >= run.bankroll - Prod(sim.risk.maximumDailyFraction, run.bankroll)
            && (StateNow(sim, run) == Paused ==> next.bankroll == run.bankroll && Passes(next.decisions[|next.decisions| - 1]))
  {
    hide Decide, Prod, StateOf, WithinCaps, NoOpposites, WithinCap, IndependentLegs;
    var snapshot := SnapshotOf(sim, run, slate);
    DecisionIsSound(sim.lib, slate.candidates, snapshot, sim.topN, sim.risk, sim.parlay, slate.parlayOffers);
    var d := Decide(sim.lib, slate.candidates, snapshot, sim.topN, sim.risk, sim.parlay, slate.parlayOffers).value;
    StateIgnoresDate(sim, run, slate);
    DayStakesWithinCap(d, snapshot, sim.topN, sim.risk, sim.parlay);
    StraightsLoseAtMostStakes(run.bankroll, d.straight, slate.outcomes);
    if d.parlay.Some? {
      ParlayLosesAtMostStake(SettleStraights(run.bankroll, d.straight, slate.outcomes).value, d.parlay.value, slate.outcomes);
    }
  }

  lemma StateIgnoresDate(sim: Simulation, run: Run, slate: Slate)
    ensures StateOf(SnapshotOf(sim, run, slate), sim.risk) == StateNow(sim, run)
  {
  }

  // ----- The whole-run invariant -----

  /** (1 - a)(1 - b), the share left after losing a and then b. */
  function Kept(a: real, b: real): real {
    Prod(1.0 - a, 1.0 - b)
  }

  /** What every reachable run satisfies. */
  ghost predicate SafeRun(sim: Simulation, run: Run) {
    var d, p := sim.risk.maximumDailyFraction, sim.risk.pausedDrawdown;
    && 0.0 <= run.bankroll <= run.peak && sim.starting <= run.peak
    && run.bankroll >= Prod(1.0 - d, Prod(sim.starting, sim.risk.bankrollFloorFractionOfStart))
    && 0.0 <= run.maximumDrawdown <= 1.0 - Kept(d, p)
    && DrawdownFrom(run.peak, run.bankroll) <= 1.0 - Kept(d, p)
  }

  lemma InitialRunSafe(sim: Simulation)
    requires ValidSimulation(sim)
    ensures SafeRun(sim, InitialRun(sim.starting))
  {
    hide Prod;
    var d, p, f := sim.risk.maximumDailyFraction, sim.risk.pausedDrawdown, sim.risk.bankrollFloorFractionOfStart;
    ProdOfFractions(1.0 - d, 1.0 - p);
    ProdOfFractions(sim.starting, f);
    ProdOfFractions(Prod(sim.starting, f), 1.0 - d);
    ProdCommutes(Prod(sim.starting, f), 1.0 - d);
    assert DrawdownFrom(sim.starting, sim.starting) == 0.0;
  }

  lemma NotPausedMeans(sim: Simulation, run: Run)
    requires ValidSimulation(sim) && StateNow(sim, run) != Paused && run.peak > 0.0 && run.bankroll <= run.peak
    ensures run.bankroll > Prod(sim.starting, sim.risk.bankrollFloorFractionOfStart)
    ensures run.bankroll >= Prod(1.0 - sim.risk.pausedDrawdown, run.peak)
  {
    hide Prod;
    var p := sim.risk.pausedDrawdown;
    DivLess(run.peak - run.bankroll, p, run.peak);
    assert run.peak - run.bankroll <= p * run.peak by { assert Ratio(run.peak - run.bankroll, run.peak) < p; }
    ProdIs(p, run.peak);
    ProdCommutes(run.peak, p);
    ProdCommutes(run.peak, 1.0 - p);
    ProdSplits(run.peak, 1.0, p);
    ProdIs(run.peak, 1.0);
  }

  lemma ProdIs(a: real, b: real)
    ensures Prod(a, b) == a * b
  {
  }

  /** Losing the share d of x leaves at least (1 - d) times any lower bound of x. */
  lemma LossKeeps(d: real, x: real, low: real, after: real)
    requires 0.0 <= d <= 1.0 && low <= x && after >= x - Prod(d, x)
    ensures after >= Prod(1.0 - d, low)
  {
    hide Prod;
    ProdCommutes(x, d);
    ProdIs(x, 1.0);
    ProdSplits(x, 1.0, d);
    ProdCommutes(x, 1.0 - d);
    ProdMono(low, x, 1.0 - d);
  }

  lemma DrawdownBounded(peak: real, bankroll: real, kept: real)
    requires peak > 0.0 && bankroll >= Prod(kept, peak)
    ensures DrawdownFrom(peak, bankroll) <= 1.0 - kept
  {
    DivLess(peak - bankroll, 1.0 - kept, peak);
    Distribute(1.0, kept, peak);
  }

  lemma KeptAssociates(a: real, b: real, x: real)
    ensures Prod(1.0 - a, Prod(1.0 - b, x)) == Prod(Kept(a, b), x)
  {
    var u, v := 1.0 - a, 1.0 - b;
    assert u * (v * x) == (u * v) * x;
  }

  lemma PeakKeepsSafe(sim: Simulation, run: Run, slate: Slate, d: Decision, bankroll: real)
    requires ValidSimulation(sim) && SafeRun(sim, run)
    requires StateNow(sim, run) == Paused ==> bankroll == run.bankroll
    requires bankroll >= run.bankroll - Prod(sim.risk.maximumDailyFraction, run.bankroll)
    ensures SafeRun(sim, Advance(run, slate, d, bankroll))
  {
    hide Prod, StateOf, DrawdownFrom;
    var day, p, floor := sim.risk.maximumDailyFraction, sim.risk.pausedDrawdown,
                         Prod(sim.starting, sim.risk.bankrollFloorFractionOfStart);
    var next := Advance(run, slate, d, bankroll);
    ProdOfFractions(1.0 - day, 1.0 - p);
    if StateNow(sim, run) == Paused {
      assert next.peak == run.peak;
      DrawdownNonnegative(next.peak, bankroll);
    } else {
      NotPausedMeans(sim, run);
      LossKeeps(day, run.bankroll, floor, bankroll);
      LossKeeps(day, run.bankroll, Prod(1.0 - p, run.peak), bankroll);
      LossKeeps(day, run.bankroll, 0.0, bankroll);
      ProdSplits(1.0 - day, 0.0, 0.0);
      KeptAssociates(day, p, run.peak);
      ProdMono(Kept(day, p), 1.0, bankroll);
      ProdIs(1.0, bankroll);
      DrawdownBounded(next.peak, bankroll, Kept(day, p));
      DrawdownNonnegative(next.peak, bankroll);
    }
  }

  lemma DrawdownNonnegative(peak: real, bankroll: real)
    requires bankroll <= peak && peak > 0.0
    ensures DrawdownFrom(peak, bankroll) >= 0.0
  {
    DivLess(peak - bankroll, 0.0, peak);
  }

  lemma StepKeepsSafe(sim: Simulation, run: Run, slate: Slate)
    requires ValidSimulation(sim) && AllWellFormed(slate.candidates) && SafeRun(sim, run)
    requires Step(sim, run, slate).Ok?
    ensures SafeRun(sim, Step(sim, run, slate).value)
  {
    hide Decide, SettleDecision, SafeRun, Advance, StateOf, Prod;
    assert run.bankroll >= 0.0 by { SafeIsNonnegative(sim, run); }
    SlateLosesAtMostDay(sim, run, slate);
    var d := Decide(sim.lib, slate.candidates, SnapshotOf(sim, run, slate), sim.topN, sim.risk, sim.parlay, slate.parlayOffers).value;
    DecisionIsSound(sim.lib, slate.candidates, SnapshotOf(sim, run, slate), sim.topN, sim.risk, sim.parlay, slate.parlayOffers);
    var bankroll := SettleDecision(run.bankroll, d, slate.outcomes).value;
    AdvanceSets(run, slate, d, bankroll);
    PeakKeepsSafe(sim, run, slate, d, bankroll);
  }

  lemma AdvanceSets(run: Run, slate: Slate, d: Decision, bankroll: real)
    ensures Advance(run, slate, d, bankroll).bankroll == bankroll
  {
  }

  lemma SafeIsNonnegative(sim: Simulation, run: Run)
    requires SafeRun(sim, run)
    ensures run.bankroll >= 0.0
  {
  }

  // ----- Runs of slates -----

  function CutoffKey(s: Slate): seq<real> {
    [s.asOf as real]
  }

  /** The run after a list of slates taken in order. */
  function After(sim: Simulation, slates: seq<Slate>): (r: Result<Run, SimulationError>)
    requires ValidSimulation(sim) && GoodSlates(slates)
    ensures r.Ok? ==> SafeRun(sim, r.value)
  {
    if slates == [] then
      InitialRunSafe(sim);
      Ok(InitialRun(sim.starting))
    else
      var front, last := slates[..|slates| - 1], slates[|slates| - 1];
      assert last in slates && forall s <- front :: s in slates;
      match After(sim, front)
      case Err(e) => Err(e)
      case Ok(run) =>
        SafeIsNonnegative(sim, run);
        if Step(sim, run, last).Ok? then
          StepKeepsSafe(sim, run, last);
          Step(sim, run, last)
        else Step(sim, run, last)
  }

  /** Specification of a simulation: the slates by cutoff, one after another. */
  function Simulate(sim: Simulation, slates: seq<Slate>): Result<Run, SimulationError>
    requires sim.risk.Valid() && sim.parlay.Valid() && GoodSlates(slates)
  {
    if sim.starting <= 0.0 then Err(NonPositiveBankroll)
    else
      OrderedSlatesGood(slates);
      After(sim, SortBy(ByKey(CutoffKey), slates))
  }

  lemma OrderedSlatesGood(slates: seq<Slate>)
    requires GoodSlates(slates)
    ensures GoodSlates(SortBy(ByKey(CutoffKey), slates))
  {
    forall s | s in SortBy(ByKey(CutoffKey), slates) ensures AllWellFormed(s.candidates) {
      SortMembers(ByKey(CutoffKey), slates, s);
    }
  }

  lemma {:induction false} RefusalSpreads(sim: Simulation, slates: seq<Slate>, n: nat)
    requires ValidSimulation(sim) && GoodSlates(slates) && n <= |slates|
    requires forall s <- slates[..n] :: s in slates
    requires After(sim, slates[..n]).Err?
    ensures After(sim, slates) == After(sim, slates[..n])
    decreases |slates| - n
  {
    hide Step, SafeRun;
    if n < |slates| {
      assert slates[..n + 1][..n] == slates[..n];
      RefusalSpreads(sim, slates, n + 1);
    } else {
      assert slates[..n] == slates;
    }
  }

  method PlayStraights(bankroll: real, turnover: real, recs: seq<Recommendation>, outcomes: seq<Outcome>)
    returns (r: Result<(real, real), SimulationError>)
    ensures SettleStraights(bankroll, recs, outcomes).Ok?
            ==> r == Ok((SettleStraights(bankroll, recs, outcomes).value, turnover + TotalStake(recs)))
    ensures SettleStraights(bankroll, recs, outcomes).Err? ==> r == Err(SettleStraights(bankroll, recs, outcomes).error)
  {
    hide NetPnl, OutcomeOf, TotalStake;
    var money, staked := bankroll, turnover;
    assert TotalStake(recs[..0]) == 0.0 by { NothingStaked(recs[..0]); }
    for i := 0 to |recs|
      invariant SettleStraights(bankroll, recs[..i], outcomes) == Ok(money)
      invariant staked == turnover + TotalStake(recs[..i])
    {
      assert recs[..i + 1][..i] == recs[..i] && recs[..i + 1] == recs[..i] + [recs[i]];
      TotalStakeAppend(recs[..i], recs[i]);
      var outcome := OutcomeOf(outcomes, recs[i].candidate.candidateId);
      if outcome == None {
        MissingSpreads(bankroll, recs, outcomes, i + 1);
        return Err(MissingOutcome);
      }
      staked := staked + recs[i].stake;
      money := money + NetPnl(outcome.value, recs[i].stake, recs[i].candidate.decimalOdds);
    }
    assert recs[..|recs|] == recs;
    return Ok((money, staked));
  }

  lemma NothingStaked(recs: seq<Recommendation>)
    requires recs == []
    ensures TotalStake(recs) == 0.0
  {
  }

  lemma {:induction false} MissingSpreads(bankroll: real, recs: seq<Recommendation>, outcomes: seq<Outcome>, n: nat)
    requires n <= |recs| && SettleStraights(bankroll, recs[..n], outcomes) == Err(MissingOutcome)
    ensures SettleStraights(bankroll, recs, outcomes) == Err(MissingOutcome)
    decreases |recs| - n
  {
    if n < |recs| {
      assert recs[..n + 1][..n] == recs[..n];
      MissingSpreads(bankroll, recs, outcomes, n + 1);
    } else {
      assert recs[..n] == recs;
    }
  }

  /** One turn of the simulator's loop: decide, settle the straights, then the parlay, then mark the peak. */
  method PlaySlate(sim: Simulation, run: Run, slate: Slate) returns (r: Result<Run, SimulationError>)
    requires ValidSimulation(sim) && AllWellFormed(slate.candidates) && run.bankroll >= 0.0
    ensures r == Step(sim, run, slate)
  {
    hide Decide, SettleStraights, SoundDecision, Prod;
    if run.previousCutoff.Some? && slate.asOf <= run.previousCutoff.value {
      return Err(CutoffNotLater);
    }
    if exists o :: o in slate.outcomes && o.knownAt <= slate.asOf {
      return Err(OutcomeKnownAtCutoff);
    }
    var snapshot := SnapshotOf(sim, run, slate);
    var decided := ConstructPortfolio(sim.lib, slate.candidates, snapshot, sim.topN, sim.risk, sim.parlay, slate.parlayOffers);
    if decided.Err? {
      return Err(EngineRefused(decided.error));
    }
    var decision := decided.value;
    ParlayIsPriced(sim, run, slate);
    var played := PlayStraights(run.bankroll, run.turnover, decision.straight, slate.outcomes);
    if played.Err? {
      return Err(played.error);
    }
    var (bankroll, turnover) := played.value;
    if decision.parlay.Some? {
      var settled := SettleParlay(bankroll, decision.parlay.value, slate.outcomes);
      if settled.Err? {
        return Err(settled.error);
      }
      turnover := turnover + decision.parlay.value.stake;
      bankroll := settled.value;
    }
    var peak := Max(run.peak, bankroll);
    return Ok(Run(bankroll, peak, Max(run.maximumDrawdown, DrawdownFrom(peak, bankroll)), turnover,
                  run.straightBets + |decision.straight|,
                  run.parlayBets + (if decision.parlay == None then 0 else 1),
                  run.passSlates + (if Passes(decision) then 1 else 0),
                  run.decisions + [decision], Some(slate.asOf)));
  }

  lemma ParlayIsPriced(sim: Simulation, run: Run, slate: Slate)
    requires ValidSimulation(sim) && AllWellFormed(slate.candidates) && run.bankroll >= 0.0
    ensures var r := Decide(sim.lib, slate.candidates, SnapshotOf(sim, run, slate), sim.topN, sim.risk, sim.parlay, slate.parlayOffers);
            r.Ok? && r.value.parlay.Some? ==> 0.0 < r.value.parlay.value.impliedProbability < 1.0
  {
    hide Decide, SoundSelection;
    DecisionIsSound(sim.lib, slate.candidates, SnapshotOf(sim, run, slate), sim.topN, sim.risk, sim.parlay, slate.parlayOffers);
  }

  method SimulatePortfolio(sim: Simulation, slates: seq<Slate>) returns (r: Result<Run, SimulationError>)
    requires sim.risk.Valid() && sim.parlay.Valid() && GoodSlates(slates)
    ensures r == Simulate(sim, slates)
  {
    hide Step, SortBy, SafeRun;
    if sim.starting <= 0.0 {
      return Err(NonPositiveBankroll);
    }
    var ordered := SortBy(ByKey(CutoffKey), slates);
    OrderedSlatesGood(slates);
    var run := InitialRun(sim.starting);
    for i := 0 to |ordered|
      invariant GoodSlates(ordered[..i])
      invariant After(sim, ordered[..i]) == Ok(run)
    {
      assert ordered[..i + 1][..i] == ordered[..i] && ordered[..i + 1][i] == ordered[i];
      assert GoodSlates(ordered[..i + 1]);
      SafeIsNonnegative(sim, run);
      var next := PlaySlate(sim, run, ordered[i]);
      if next.Err? {
        RefusalSpreads(sim, ordered, i + 1);
        return next;
      }
      run := next.value;
    }
    assert ordered[..|ordered|] == ordered;
    return Ok(run);
  }

  // ----- Main results -----

  /** Over every run: losses stay inside the daily share of the floor, and the drawdown inside one day past the pause. */
  lemma SimulationIsSafe(sim: Simulation, slates: seq<Slate>)
    requires sim.risk.Valid() && sim.parlay.Valid() && GoodSlates(slates)
    ensures var r := Simulate(sim, slates);
            r.Ok? ==>
              && r.value.bankroll >= Prod(1.0 - sim.risk.maximumDailyFraction, Prod(sim.starting, sim.risk.bankrollFloorFractionOfStart))
              && 0.0 <= r.value.maximumDrawdown
                     <= 1.0 - Prod(1.0 - sim.risk.maximumDailyFraction, 1.0 - sim.risk.pausedDrawdown)
              && 0.0 <= r.value.bankroll <= r.value.peak
  {
    hide Step, SortBy, StateOf;
    if sim.starting > 0.0 { OrderedSlatesGood(slates); }
  }

  /** Once paused, every further slate passes: no stake, no change of bankroll, peak or turnover. */
  lemma {:induction false} PausedForGood(sim: Simulation, slates: seq<Slate>, k: nat)
    requires ValidSimulation(sim) && GoodSlates(slates) && k <= |slates| && GoodSlates(slates[..k])
    requires After(sim, slates).Ok? && After(sim, slates[..k]).Ok?
    requires StateNow(sim, After(sim, slates[..k]).value) == Paused
    ensures var before, after := After(sim, slates[..k]).value, After(sim, slates).value;
            && after.bankroll == before.bankroll && after.peak == before.peak && after.turnover == before.turnover
            && after.straightBets == before.straightBets && after.parlayBets == before.parlayBets
            && after.passSlates == before.passSlates + |slates| - k
            && StateNow(sim, after) == Paused
    decreases |slates|
  {
    hide Decide, SettleDecision, Prod, SafeRun;
    if k == |slates| {
      assert slates[..k] == slates;
    } else {
      var front, last := slates[..|slates| - 1], slates[|slates| - 1];
      assert last in slates && forall s <- front :: s in slates;
      assert front[..k] == slates[..k];
      PausedForGood(sim, front, k);
      var run := After(sim, front).value;
      SafePeak(sim, run);
      PausedStep(sim, run, last);
    }
  }

  lemma SafePeak(sim: Simulation, run: Run)
    requires SafeRun(sim, run)
    ensures 0.0 <= run.bankroll <= run.peak
  {
  }

  lemma PausedStep(sim: Simulation, run: Run, slate: Slate)
    requires ValidSimulation(sim) && AllWellFormed(slate.candidates) && 0.0 <= run.bankroll <= run.peak
    requires Step(sim, run, slate).Ok? && StateNow(sim, run) == Paused
    ensures var next := Step(sim, run, slate).value;
            && next.bankroll == run.bankroll && next.peak == run.peak && next.turnover == run.turnover
            && next.straightBets == run.straightBets && next.parlayBets == run.parlayBets
            && next.passSlates == run.passSlates + 1
            && StateNow(sim, next) == Paused
  {
    hide Decide, SettleStraights, SettleParlay, DrawdownFrom, Prod, SoundDecision;
    SlateLosesAtMostDay(sim, run, slate);
  }

  // ----- What the reported drawdown means -----

  lemma PrefixRuns(sim: Simulation, slates: seq<Slate>, k: nat)
    requires ValidSimulation(sim) && GoodSlates(slates) && k <= |slates| && After(sim, slates).Ok?
    ensures GoodSlates(slates[..k]) && After(sim, slates[..k]).Ok?
  {
    assert forall s <- slates[..k] :: s in slates;
    if After(sim, slates[..k]).Err? { RefusalSpreads(sim, slates, k); }
  }

  ghost function BankrollAt(sim: Simulation, slates: seq<Slate>, k: nat): real
    requires ValidSimulation(sim) && GoodSlates(slates) && k <= |slates| && After(sim, slates).Ok?
  {
    PrefixRuns(sim, slates, k);
    After(sim, slates[..k]).value.bankroll
  }

  lemma {:induction false} PeakCovers(sim: Simulation, slates: seq<Slate>, i: nat)
    requires ValidSimulation(sim) && GoodSlates(slates) && i <= |slates| && After(sim, slates).Ok?
    ensures BankrollAt(sim, slates, i) <= After(sim, slates).value.peak
    ensures var run := After(sim, slates).value;
            DrawdownFrom(run.peak, run.bankroll) <= run.maximumDrawdown
  {
    hide Decide, SettleDecision, DrawdownFrom, Prod;
    if i == |slates| { assert slates[..i] == slates; }
    if slates != [] {
      var front := slates[..|slates| - 1];
      PrefixRuns(sim, slates, |slates| - 1);
      if i < |slates| {
        assert front[..i] == slates[..i];
        PeakCovers(sim, front, i);
      }
    } else {
      FlatDrawdown(sim.starting);
    }
  }

  lemma FlatDrawdown(x: real)
    ensures DrawdownFrom(x, x) == 0.0
  {
  }

  lemma {:induction false} DrawdownGrows(sim: Simulation, slates: seq<Slate>, j: nat)
    requires ValidSimulation(sim) && GoodSlates(slates) && j <= |slates| && After(sim, slates).Ok?
    ensures GoodSlates(slates[..j]) && After(sim, slates[..j]).Ok?
    ensures After(sim, slates[..j]).value.maximumDrawdown <= After(sim, slates).value.maximumDrawdown
  {
    hide Decide, SettleDecision, DrawdownFrom, SafeRun;
    PrefixRuns(sim, slates, j);
    if j == |slates| {
      assert slates[..j] == slates;
    } else {
      var front := slates[..|slates| - 1];
      PrefixRuns(sim, slates, |slates| - 1);
      assert front[..j] == slates[..j];
      DrawdownGrows(sim, front, j);
    }
  }

  /** No later bankroll is further below an earlier one than the reported drawdown says. */
  lemma DrawdownCoversEveryFall(sim: Simulation, slates: seq<Slate>, i: nat, j: nat)
    requires ValidSimulation(sim) && GoodSlates(slates) && i <= j <= |slates| && After(sim, slates).Ok?
    ensures BankrollAt(sim, slates, j)
            >= Prod(1.0 - After(sim, slates).value.maximumDrawdown, BankrollAt(sim, slates, i))
  {
    hide After, Prod, SafeRun, DrawdownFrom;
    DrawdownGrows(sim, slates, j);
    var now, most := After(sim, slates[..j]).value, After(sim, slates).value.maximumDrawdown;
    assert slates[..j][..i] == slates[..i] && slates[..j][..j] == slates[..j];
    PeakCovers(sim, slates[..j], i);
    FallWithin(sim, now, After(sim, slates).value);
    ProdMono(BankrollAt(sim, slates, i), now.peak, 1.0 - most);
  }

  lemma FallWithin(sim: Simulation, now: Run, end: Run)
    requires ValidSimulation(sim) && SafeRun(sim, now) && SafeRun(sim, end)
    requires DrawdownFrom(now.peak, now.bankroll) <= now.maximumDrawdown <= end.maximumDrawdown
    ensures now.bankroll >= Prod(1.0 - end.maximumDrawdown, now.peak) && end.maximumDrawdown <= 1.0
  {
    hide Prod;
    var most := end.maximumDrawdown;
    assert most <= 1.0 by { ProdOfFractions(1.0 - sim.risk.maximumDailyFraction, 1.0 - sim.risk.pausedDrawdown); }
    DivLess(now.peak - now.bankroll, most, now.peak);
    assert Ratio(now.peak - now.bankroll, now.peak) <= most;
    Distribute(1.0, most, now.peak);
    ProdIs(1.0 - most, now.peak);
  }

  /** The reported drawdown is the fall from one actual bankroll to a later one. */
  lemma {:induction false} DrawdownIsAttained(sim: Simulation, slates: seq<Slate>) returns (i: nat, j: nat)
    requires ValidSimulation(sim) && GoodSlates(slates) && After(sim, slates).Ok?
    ensures i <= j <= |slates| && BankrollAt(sim, slates, i) > 0.0
    ensures After(sim, slates).value.maximumDrawdown
            == DrawdownFrom(BankrollAt(sim, slates, i), BankrollAt(sim, slates, j))
  {
    hide Decide, SettleDecision, DrawdownFrom, Prod;
    if slates == [] {
      FlatDrawdown(sim.starting);
      i, j := 0, 0;
    } else {
      var front := slates[..|slates| - 1];
      PrefixRuns(sim, slates, |slates| - 1);
      var run := After(sim, slates).value;
      if run.maximumDrawdown == After(sim, front).value.maximumDrawdown {
        i, j := DrawdownIsAttained(sim, front);
        assert front[..i] == slates[..i] && front[..j] == slates[..j];
      } else {
        i := PeakIsAttained(sim, slates);
        j := |slates|;
        assert slates[..j] == slates;
      }
    }
  }

  lemma {:induction false} PeakIsAttained(sim: Simulation, slates: seq<Slate>) returns (i: nat)
    requires ValidSimulation(sim) && GoodSlates(slates) && After(sim, slates).Ok?
    ensures i <= |slates| && BankrollAt(sim, slates, i) == After(sim, slates).value.peak > 0.0
  {
    hide Decide, SettleDecision, DrawdownFrom, Prod;
    if slates == [] {
      i := 0;
    } else {
      var front := slates[..|slates| - 1];
      PrefixRuns(sim, slates, |slates| - 1);
      if After(sim, slates).value.peak == After(sim, front).value.peak {
        i := PeakIsAttained(sim, front);
        assert front[..i] == slates[..i];
      } else {
        i := |slates|;
        assert slates[..i] == slates;
      }
    }
  }

  // ----- What a completed run says about its slates and its money -----

  lemma StepMovesOn(sim: Simulation, run: Run, slate: Slate)
    requires ValidSimulation(sim) && AllWellFormed(slate.candidates) && run.bankroll >= 0.0 && Step(sim, run, slate).Ok?
    ensures var next := Step(sim, run, slate).value;
            && next.previousCutoff == Some(slate.asOf) && |next.decisions| == |run.decisions| + 1
            && (run.previousCutoff.Some? ==> run.previousCutoff.value < slate.asOf)
            && (forall o <- slate.outcomes :: slate.asOf < o.knownAt)
  {
    hide Decide, SettleDecision, DrawdownFrom;
  }

  /** A completed run took its slates in strictly increasing order of cutoff, and no outcome was known at its cutoff. */
  lemma {:induction false} NoLookAhead(sim: Simulation, slates: seq<Slate>)
    requires ValidSimulation(sim) && GoodSlates(slates) && After(sim, slates).Ok?
    ensures forall i, j :: 0 <= i < j < |slates| ==> slates[i].asOf < slates[j].asOf
    ensures forall s <- slates :: forall o <- s.outcomes :: s.asOf < o.knownAt
    ensures slates != [] ==> After(sim, slates).value.previousCutoff == Some(slates[|slates| - 1].asOf)
    ensures |After(sim, slates).value.decisions| == |slates|
  {
    hide SafeRun, Step;
    if slates != [] {
      var front, last := slates[..|slates| - 1], slates[|slates| - 1];
      PrefixRuns(sim, slates, |slates| - 1);
      NoLookAhead(sim, front);
      assert slates == front + [last];
      var run := After(sim, front).value;
      SafeIsNonnegative(sim, run);
      StepMovesOn(sim, run, last);
      forall i, j | 0 <= i < j < |slates| ensures slates[i].asOf < slates[j].asOf {
        if j == |slates| - 1 && i < |front| - 1 { assert front[i].asOf < front[|front| - 1].asOf; }
        if j < |slates| - 1 { assert front[i].asOf < front[j].asOf; }
      }
    }
  }

  ghost predicate AllLost(outcomes: seq<Outcome>) {
    forall o <- outcomes :: o.result == Loss
  }

  lemma {:induction false} OutcomeIsRecorded(outcomes: seq<Outcome>, id: nat)
    ensures OutcomeOf(outcomes, id).Some? ==> exists o :: o in outcomes && o.candidateId == id && o.result == OutcomeOf(outcomes, id).value
  {
    if outcomes != [] {
      OutcomeIsRecorded(outcomes[..|outcomes| - 1], id);
      assert forall o <- outcomes[..|outcomes| - 1] :: o in outcomes;
    }
  }

  lemma {:induction false} LostStraightsCostStakes(bankroll: real, recs: seq<Recommendation>, outcomes: seq<Outcome>)
    requires AllLost(outcomes)
    ensures var r := SettleStraights(bankroll, recs, outcomes);
            r.Ok? ==> r.value == bankroll - TotalStake(recs)
  {
    hide Prod;
    if recs != [] {
      var front, last := recs[..|recs| - 1], recs[|recs| - 1];
      LostStraightsCostStakes(bankroll, front, outcomes);
      assert recs == front + [last];
      TotalStakeAppend(front, last);
      OutcomeIsRecorded(outcomes, last.candidate.candidateId);
    }
  }

  lemma LostParlayCostsStake(bankroll: real, p: ParlayPick, outcomes: seq<Outcome>)
    requires AllLost(outcomes) && p.impliedProbability != 0.0 && p.legs != []
    ensures SettleParlay(bankroll, p, outcomes).Ok? ==> SettleParlay(bankroll, p, outcomes).value == bankroll - p.stake
  {
    hide Prod, Ratio;
    assert p.legs[0] in p.legs;
    OutcomeIsRecorded(outcomes, p.legs[0].candidate.candidateId);
  }

  lemma StepAccounts(sim: Simulation, run: Run, slate: Slate)
    requires ValidSimulation(sim) && AllWellFormed(slate.candidates) && run.bankroll >= 0.0
    requires Step(sim, run, slate).Ok?
    ensures var next := Step(sim, run, slate).value;
            && next.bankroll - run.bankroll >= run.turnover - next.turnover
            && next.turnover >= run.turnover
            && (AllLost(slate.outcomes) ==> next.bankroll - run.bankroll == run.turnover - next.turnover)
  {
    hide Decide, Prod, StateOf, WithinCaps, NoOpposites, WithinCap, IndependentLegs, DrawdownFrom;
    var snapshot := SnapshotOf(sim, run, slate);
    DecisionIsSound(sim.lib, slate.candidates, snapshot, sim.topN, sim.risk, sim.parlay, slate.parlayOffers);
    var d := Decide(sim.lib, slate.candidates, snapshot, sim.topN, sim.risk, sim.parlay, slate.parlayOffers).value;
    StraightsLoseAtMostStakes(run.bankroll, d.straight, slate.outcomes);
    StakesNonnegative(d.straight);
    if AllLost(slate.outcomes) { LostStraightsCostStakes(run.bankroll, d.straight, slate.outcomes); }
    if d.parlay.Some? {
      var after := SettleStraights(run.bankroll, d.straight, slate.outcomes).value;
      ParlayLosesAtMostStake(after, d.parlay.value, slate.outcomes);
      if AllLost(slate.outcomes) { LostParlayCostsStake(after, d.parlay.value, slate.outcomes); }
    }
  }

  lemma {:induction false} StakesNonnegative(recs: seq<Recommendation>)
    requires forall r <- recs :: r.stake >= 0.0
    ensures TotalStake(recs) >= 0.0
  {
    if recs != [] {
      assert recs[0] in recs && forall r <- recs[1..] :: r in recs;
      StakesNonnegative(recs[1..]);
    }
  }

  /** A run never loses more than it turned over, and loses exactly that when every outcome is a loss. */
  lemma {:induction false} LossesAreTurnover(sim: Simulation, slates: seq<Slate>)
    requires ValidSimulation(sim) && GoodSlates(slates) && After(sim, slates).Ok?
    ensures var run := After(sim, slates).value;
            && run.bankroll >= sim.starting - run.turnover && run.turnover >= 0.0
            && ((forall s <- slates :: AllLost(s.outcomes)) ==> run.bankroll == sim.starting - run.turnover)
  {
    hide Step, SafeRun;
    if slates != [] {
      var front, last := slates[..|slates| - 1], slates[|slates| - 1];
      PrefixRuns(sim, slates, |slates| - 1);
      LossesAreTurnover(sim, front);
      assert last in slates && forall s <- front :: s in slates;
      SafeIsNonnegative(sim, After(sim, front).value);
      StepAccounts(sim, After(sim, front).value, last);
    }
  }

  /** A won straight brings back its stake times the decimal odds; a won parlay its stake divided by its implied chance. */
  lemma WinsPayThePrice(stake: real, odds: real, implied: real)
    requires implied > 0.0
    ensures stake + NetPnl(Win, stake, odds) == stake * odds
    ensures (stake + NetPnl(Win, stake, Ratio(1.0, implied))) * implied == stake
  {
    var q := 1.0 / implied;
    assert q * implied == 1.0;
    Distribute(odds, 1.0, stake);
    Distribute(q, 1.0, stake);
    assert stake + stake * (q - 1.0) == stake * q;
    assert stake * q * implied == stake * (q * implied);
  }

  function StraightsOf(decisions: seq<Decision>): nat {
    if decisions == [] then 0 else StraightsOf(decisions[..|decisions| - 1]) + |decisions[|decisions| - 1].straight|
  }

  function ParlaysOf(decisions: seq<Decision>): nat {
    if decisions == [] then 0
    else ParlaysOf(decisions[..|decisions| - 1]) + (if decisions[|decisions| - 1].parlay == None then 0 else 1)
  }

  function PassesOf(decisions: seq<Decision>): nat {
    if decisions == [] then 0
    else PassesOf(decisions[..|decisions| - 1]) + (if Passes(decisions[|decisions| - 1]) then 1 else 0)
  }

  function StakedBy(decisions: seq<Decision>): real {
    if decisions == [] then 0.0
    else
      var last := decisions[|decisions| - 1];
      StakedBy(decisions[..|decisions| - 1]) + TotalStake(last.straight) + ParlayStakeOf(last)
  }

  /** The counters and the turnover are those of the decisions made, one a slate. */
  lemma {:induction false} CountersMatchDecisions(sim: Simulation, slates: seq<Slate>)
    requires ValidSimulation(sim) && GoodSlates(slates) && After(sim, slates).Ok?
    ensures var run := After(sim, slates).value;
            && run.straightBets == StraightsOf(run.decisions) && run.parlayBets == ParlaysOf(run.decisions)
            && run.passSlates == PassesOf(run.decisions) && run.turnover == StakedBy(run.decisions)
            && |run.decisions| == |slates|
  {
    hide SafeRun, Decide, SettleDecision, DrawdownFrom;
    if slates != [] {
      PrefixRuns(sim, slates, |slates| - 1);
      CountersMatchDecisions(sim, slates[..|slates| - 1]);
      var before, after := After(sim, slates[..|slates| - 1]).value, After(sim, slates).value;
      assert after.decisions[..|after.decisions| - 1] == before.decisions;
    }
  }
}
