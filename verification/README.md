# Verified model of a paper-betting back end

This project models the parts of the back end where money, risk and identity are decided, and proves what they
guarantee. The program keeps a paper bankroll for owners, prices college-football markets from the quotes of several
sportsbooks, proposes positions, and records approved bets in an append-only ledger.

The modules follow the program:

* `Kelly`, `PortfolioEngine`, `PortfolioDecisions`, `CandidateEvaluation`: qualification, push-aware Kelly sizing, the greedy
  allocation under eight simultaneous caps, and the parlay on top of it.
* `PortfolioSimulator`: the drawdown state machine folded over slates.
* `MarketCurve`, `RobustCenter`, `Medians`: the empirical settlement curve, its bisection inverse, and the Huber-style center of
  several books.
* `Pricing`, `Observations`, `MarketPairs`, `Consensus`, `ConsensusResults`, `OpportunityResults`: from observations to ordered
  opportunities.
* `PricingQuery`: the two-stage ranking query and the plain rule it implements.
* `MarketEvents`, `MarketIngestion`: event identity across fetches, and storing a fetch.
* `Ledger`, `ApprovalRisk`, `LedgerOperations`, `LedgerInvariants`, `ApprovalInvariants`, `UnnamedGame`, `Idempotency`,
  `LedgerRepository`, `Interleaving`, `JsonImport`: the ledger, the approval protocol, keyed requests, the transactions step by step under row
  locks, and the legacy import.
* `Numbers`, `Ordering`, `Lists`, `Grouping`, `Wrappers`: exact arithmetic, sorting, totals and grouping shared by the others.

## Conventions

Decimal values are exact reals; every rounding the program makes is written out (cents cut toward zero in the engine, cents
half away from zero in the ledger, a 1e-9 grid for centers and a 1e-12 grid for no-vig probabilities, both half to even). Ledger
money is whole cents. The natural logarithm is a function parameter known only through `ln(xy) = ln x + ln y` and
`ln x <= x - 1`. Identifiers handed out by libraries, hashes, and the clock arrive as parameters. Where the program raises, the
model answers with an error value. Code that changes state is a class or a method with loops, proved equal to a specification
function; the results are lemmas about that function.

A transaction is split into what it reads, what it decides from that, and what it writes (`LedgerOperations`). The same decision
serves the atomic specification, the class that runs it, and the interleaved machine, in which every read is its own step
against the committed tables, an inserted key blocks its equals, and the owner row and recommendation rows are locked as the
code locks them.

## What the proofs found

* The approval check looks for a straight recommendation without a canonical event under the text `None`, while its open bet
  is counted under another name. The exposures grow by exactly what was checked if and only if the two names agree
  (`ApprovalInvariants.ApprovalExtendsExposures`); otherwise a cap can be passed (`UnnamedGame.UnnamedGameEscapesCap`).
  docs/PORTFOLIO_RISK_AND_RECOMMENDATIONS.md:90 describes the check without this condition. Recommendations that the engine
  stores always name their event.
* docs/PORTFOLIO_RISK_AND_RECOMMENDATIONS.md:98 ranks parlays after a duplicate-exposure penalty. Since every leg is itself a
  recommendation, the duplicate ratio is always one and the penalty multiplies every score by the same factor
  (`PortfolioDecisions.PenaltyIsConstant`).
* The rejection reason for a probability mass above one can never be reported, because computing the edge raises first
  (`CandidateEvaluation.ExcessMassIsNeverReported`).
* The order of opportunities is decided only because the observation table admits one period and the book table one id a
  key; `ConsensusResults.AnalysisSeesOnlyKnownRows` names both conditions.

## Model

| member | source | states |
|---|---|---|
| `Kelly.KellyIsOptimal` | app/domain/portfolio_engine.py:296-338 | When the Kelly fraction is below one, no other fraction in [0, 1) has a higher expected log growth. |
| `Kelly.GrowthRisesToKelly` | app/domain/portfolio_engine.py:315-338 | Expected log growth never falls between two fractions up to the Kelly fraction. |
| `Kelly.GrowthPositiveBelowKelly` | app/domain/portfolio_engine.py:315-338 | A stake strictly between nothing and the Kelly fraction has positive growth; with no Kelly fraction no stake has. |
| `Kelly.KellyPositiveIffEdge` | app/domain/portfolio_engine.py:296-312 | The Kelly fraction is positive exactly when push-aware EV is, and exactly when the conditional edge is. |
| `Kelly.KellyRange` | app/domain/portfolio_engine.py:296-312 | The fraction lies in [0, 1] and reaches one only for a wager that can win and cannot lose. |
| `Kelly.GrowthRisesWithWin` | app/domain/portfolio_engine.py:315-338 | With the push chance fixed, a higher win chance never lowers growth. |
| `PortfolioEngine.StateWorsensWithLoss` | app/domain/portfolio_engine.py:287-293 | Losing equity never makes the drawdown state milder. |
| `PortfolioEngine.PausedExactly` | app/domain/portfolio_engine.py:287-293 | PAUSED holds exactly at the bankroll floor or at the paused drawdown from the peak. |
| `PortfolioEngine.AdjustedKellyRange` | app/domain/portfolio_engine.py:784-802 | The multiplied Kelly fraction is between zero and full Kelly, and below one. |
| `PortfolioEngine.RiskScalesSizes` | app/domain/portfolio_engine.py:784-802 | Reduced risk and the opportunistic class each scale the adjusted fraction by exactly their multiplier. |
| `PortfolioEngine.RankingFractionRange` | app/domain/portfolio_engine.py:558-591 | The capped ranking fraction lies in [0, adjusted Kelly]. |
| `PortfolioEngine.RankingNeverRaises` | app/domain/portfolio_engine.py:593-615 | Neither the Kelly fraction nor any growth computation made while ranking a qualified candidate can be refused. |
| `PortfolioEngine.RankedGrowthNonnegative` | app/domain/portfolio_engine.py:593-622 | Whatever the caps cut, ranked consensus growth is nonnegative, and positive when a proper part of Kelly is left. |
| `PortfolioEngine.RobustGrowthBelowConsensus` | app/domain/portfolio_engine.py:600-615 | If one book is no more optimistic than the consensus, the robust score is at most the consensus growth. |
| `PortfolioEngine.BestCandidatesFirst` | app/domain/portfolio_engine.py:462-477 | Candidates are considered by robust growth, then by consensus growth, highest first. |
| `PortfolioEngine.SizedFits` | app/domain/portfolio_engine.py:805-877 | A sized stake is at least the minimum and fits the Kelly target and all eight caps, and nothing open opposes it. |
| `PortfolioEngine.SizedIsLargest` | app/domain/portfolio_engine.py:854-877 | One more cent would pass the Kelly target or one of the caps. |
| `PortfolioEngine.DeclinedForCause` | app/domain/portfolio_engine.py:825-890 | A candidate is declined only for an opposing position or because the target or a cap leaves less than the minimum stake. |
| `PortfolioEngine.SelectionIsSound` | app/domain/portfolio_engine.py:495-511 | From any sound partial selection the greedy loop ends within every straight cap (or where it already stood), within cash, one-sided, and at most top N long. |
| `PortfolioEngine.SelectionAccountsForAll` | app/domain/portfolio_engine.py:495-511 | Every qualified candidate is chosen or declined unless top N stopped the loop. |
| `PortfolioDecisions.OptimizeParlay` | app/domain/portfolio_engine.py:633-781 | The loop over the offers computes the specified choice, including the stop at an offer with impossible odds. |
| `PortfolioDecisions.EligibleFits` | app/domain/portfolio_engine.py:646-769 | An eligible parlay stake fits cash, the parlay fraction, the day, the sleeve, and each leg's game and teams. |
| `PortfolioDecisions.ParlayKeepsLegCaps` | app/domain/portfolio_engine.py:697-732 | With the parlay counted on top of the straights, no game and no team ends above its cap unless it already stood above. |
| `PortfolioDecisions.ChosenParlayIsBest` | app/domain/portfolio_engine.py:771-781 | The chosen parlay has the highest score of all eligible ones, then the highest joint chance. |
| `PortfolioDecisions.PenaltyIsConstant` | app/domain/portfolio_engine.py:683-742 | Because legs are recommendations themselves, the duplicate ratio is always one: every score is the growth times one minus the penalty. |
| `PortfolioDecisions.ConstructPortfolio` | app/domain/portfolio_engine.py:445-549 | The imperative decision equals its specification, error cases included. |
| `PortfolioDecisions.DecisionFailsExactly` | app/domain/portfolio_engine.py:445-549 | A decision fails exactly when top N is out of range, a position is chosen under a zero unit fraction, or an offer over chosen legs has impossible odds, in whatever order the offers come. |
| `PortfolioDecisions.DecisionIsSound` | app/domain/portfolio_engine.py:445-549 | For every candidate list, snapshot and set of offers: stakes, caps, cash, one-sidedness, top N, and the parlay limits all hold; PAUSED decides nothing. |
| `CandidateEvaluation.ExcessMassIsNeverReported` | app/domain/portfolio_engine.py:371-384 | The reason for a mass above one can never be reported: computing the edge refuses such a quote first. |
| `CandidateEvaluation.QualifiedIsWellFormed` | app/domain/portfolio_engine.py:341-442 | A qualified candidate has valid chances, odds and multiplier: what sizing and ranking rely on. |
| `CandidateEvaluation.QualifiedIsWorthStaking` | app/domain/portfolio_engine.py:379-391 | With a positive EV threshold every qualified candidate has a positive Kelly fraction and a positive conditional edge. |
| `CandidateEvaluation.PipelineQuotesEvaluate` | app/services/recommendation_service.py:80-133 | A quote carrying a pipeline candidate's own chances is never refused by the evaluation. |
| `CandidateEvaluation.RobustNeverExceedsConsensus` | app/domain/portfolio_engine.py:593-615 | From observations to ranking: for every qualified candidate of the pipeline the robust score is at most the consensus growth, which is nonnegative. |
| `PortfolioSimulator.PlaySlate` | app/domain/portfolio_simulator.py:76-130 | One turn of the simulator's loop computes the specified step, with every error it can raise. |
| `PortfolioSimulator.SimulatePortfolio` | app/domain/portfolio_simulator.py:55-141 | The whole loop over the sorted slates computes the specified run. |
| `PortfolioSimulator.StepKeepsSafe` | app/domain/portfolio_simulator.py:76-130 | One slate keeps bankroll, peak and drawdown inside the whole-run bounds. |
| `PortfolioSimulator.SimulationIsSafe` | app/domain/portfolio_simulator.py:55-141 | Over every run the drawdown is at most 1 - (1 - daily)(1 - paused) and the bankroll at least (1 - daily) times the floor. |
| `PortfolioSimulator.PausedForGood` | app/domain/portfolio_simulator.py:76-130 | Once PAUSED, every later slate is a pass with bankroll, peak, turnover and bet counts unchanged. |
| `PortfolioSimulator.DrawdownCoversEveryFall` | app/domain/portfolio_simulator.py:129-130 | No later bankroll is further below an earlier one than the reported maximum drawdown says. |
| `PortfolioSimulator.DrawdownIsAttained` | app/domain/portfolio_simulator.py:129-130 | The reported maximum drawdown is the fall from one actual bankroll to a later one. |
| `PortfolioSimulator.NoLookAhead` | app/domain/portfolio_simulator.py:76-84 | A completed run took its cutoffs in strictly increasing order, one decision each, with every outcome known only later. |
| `PortfolioSimulator.LossesAreTurnover` | app/domain/portfolio_simulator.py:107-128 | A run never loses more than its turnover, and exactly that when every outcome is a loss. |
| `PortfolioSimulator.CountersMatchDecisions` | app/domain/portfolio_simulator.py:104-128 | Bet counts, passes and turnover are those of the decisions made, one a slate. |
| `PortfolioSimulator.WinsPayThePrice` | app/domain/portfolio_simulator.py:144-149 | A win brings back stake times odds, for a parlay the stake divided by its implied chance. |
| `MarketCurve.Settle` | app/domain/market_curve.py:68-95 | The accumulation over the histogram computes the specified chances and refuses a side that does not fit. |
| `MarketCurve.SettlementIsRampAverage` | app/domain/market_curve.py:68-95 | Win and loss are averages of clamped linear ramps; the three chances are nonnegative and sum to one. |
| `MarketCurve.NoPushOffWholeLines` | app/domain/market_curve.py:68-95 | Off whole-number lines nothing pushes, and the conditional chance is the win chance. |
| `MarketCurve.WinMovesWithCenter` | app/domain/market_curve.py:68-95 | Moving the center by d moves win and loss by at most d, in the side's direction. |
| `MarketCurve.ConditionalWinFollowsCenter` | app/domain/market_curve.py:31-34 | As the center rises, conditional win never falls for home and over and never rises for away and under, lines that always push included. |
| `MarketCurve.OppositeSidesSwap` | app/domain/market_curve.py:219-222 | The opposite side at the matching point exchanges win and loss and keeps the push. |
| `MarketCurve.WholeShiftChangesNothing` | app/domain/market_curve.py:68-95 | Moving center and line by the same whole number changes nothing. |
| `MarketCurve.InferCenter` | app/domain/market_curve.py:97-101 | Refuses a probability not strictly inside (0, 1); otherwise the 36-step loop computes the specified center. |
| `MarketCurve.InferredCenterNearCrossing` | app/domain/market_curve.py:199-216 | If the bracket straddles the target, the result is within 40/2^36 + 5e-10 of wherever the conditional win crosses it. |
| `MarketCurve.InferredCenterRecoversProbability` | app/domain/market_curve.py:199-216 | Off whole-number lines, settling at the inferred center gives the probability back within the same bound. |
| `MarketCurve.StraddlesExactly` | app/domain/market_curve.py:206-216 | The 80 points around the line hold the crossing if and only if two conditions on the tails of the histogram hold. |
| `MarketCurve.InferredCenterStopsAtEdge` | app/domain/market_curve.py:206-216 | When the reading is at or above the target all over the bracket the result is within the same bound of the bracket's lower end; when it is below all over, of the upper end. |
| `MarketCurve.ModestResidualsStraddle` | app/domain/market_curve.py:206-216 | In particular the bracket straddles every target in (0, 1) when every residual stays within 39 points. |
| `RobustCenter.RobustMarketCenter` | app/domain/market_curve.py:128-161 | Refuses fewer than two books or a negative distance; otherwise the loops compute the specified combination. |
| `RobustCenter.CenterInHull` | app/domain/market_curve.py:146-155 | The center stays in the range of the book centers, also after rounding when these lie on the 1e-9 grid. |
| `RobustCenter.CenterNearWeightedMedian` | app/domain/market_curve.py:140-154 | Before rounding, the center is within 8 * max(0.5, 2.2239 MAD) of the weighted median, whatever the books quote. |
| `RobustCenter.MinorityCannotBreakCenter` | app/domain/market_curve.py:128-155 | If books inside [a, b] hold a majority of weight and count, the center stays near [a, b] however far the others quote. |
| `Medians.MedianSplits` | app/domain/market_curve.py:232-235 | A majority at or below a value bounds the median by it, and likewise above. |
| `Medians.MedianForgetsOrder` | app/domain/pricing.py:116-123 | The median does not depend on the order of the values. |
| `Pricing.BetterOddsImplyLess` | app/domain/pricing.py:33-51 | Higher decimal odds never imply a higher probability. |
| `Pricing.NoVigSumsToOne` | app/domain/pricing.py:62-77 | Whatever was rounded, the no-vig probabilities of any number of outcomes sum to exactly one. |
| `Pricing.NoVigOfTwo` | app/domain/pricing.py:62-77 | Two outcomes: both results are probabilities within half a 1e-12 step of their shares, and the favourite stays the favourite. |
| `Pricing.ConsensusIsComplementary` | app/domain/pricing.py:134-151 | Complementary views have medians that sum to one, equal dispersion and the same outlier positions. |
| `OpportunityResults.MoneylineSidesComplement` | app/domain/consensus.py:338-389 | For any number of books the two sides' fair chances sum to one, dispersion and outlier books agree, and the edges sum to one minus the two smallest implied chances. |
| `OpportunityResults.MoneylineCandidatesComplement` | app/domain/consensus.py:299-389 | In any analysis a moneyline candidate has exactly one counterpart on the other side; fair chances sum to one, dispersion and outlier books agree, each quotes the best price of its side, and both have an edge only if the two prices undercut one. |
| `Observations.SelectLatest` | app/domain/consensus.py:145-162 | The grouping loop computes the latest states. |
| `Observations.LatestStatesAre` | app/domain/consensus.py:145-162 | A row is kept exactly when its snapshot holds a row that no row of its family is newer than. |
| `Observations.LatestStatesIdempotent` | app/domain/consensus.py:145-162 | Taking the latest states again changes nothing, not even the order. |
| `Observations.AmbiguousEventIsNotEligible` | app/domain/consensus.py:174-176 | A row read while its event's provider id leads to several events is never priced. |
| `Observations.UsableShareSnapshot` | app/domain/consensus.py:145-190 | Rows of one book's market that pricing uses come from one snapshot. |
| `PricingQuery.RowRanksDiffer` | app/persistence/pricing_repository.py:55-72 | Inside a snapshot no two rows share a rank, so the ranking is a row number with one head. |
| `PricingQuery.StateRanksDiffer` | app/persistence/pricing_repository.py:96-112 | Inside a family no two snapshot heads share a rank, so one snapshot wins. |
| `PricingQuery.QueryIsLatestStates` | app/persistence/pricing_repository.py:26-173 | For every history and cutoff a row is selected by the two rankings exactly when the plain rule selects it. |
| `PricingQuery.QueryReturnsLatestStates` | app/persistence/pricing_repository.py:26-173 | Row for row, the query returns what filtering and then taking the latest states returns. |
| `PricingQuery.ScopeAfterLatest` | app/persistence/pricing_repository.py:30-43 | League, market and date conditions may be applied before or after choosing the latest snapshot. |
| `MarketPairs.PairBookMarkets` | app/domain/consensus.py:215-296 | The loops over families and lines compute the specified pairs. |
| `MarketPairs.PairsAreSound` | app/domain/consensus.py:215-296 | Every pair joins the two expected sides of one family on a coherent line. |
| `MarketPairs.PairsShareSnapshot` | app/domain/consensus.py:215-296 | A pair that pricing uses joins two rows of one snapshot and one book. |
| `MarketPairs.ObservationInOnePair` | app/domain/consensus.py:215-296 | No observation is used in two pairs. |
| `MarketPairs.PairIsComplementary` | app/domain/consensus.py:270-295 | The two no-vig chances of a pair are probabilities that sum to one. |
| `ConsensusResults.OneMainPerBook` | app/domain/consensus.py:630-657 | Each quoting book keeps exactly one main pair, in order of book key. |
| `ConsensusResults.NearestIs` | app/domain/consensus.py:646-656 | The pair a book keeps is nearest to the reference point. |
| `ConsensusResults.OneMainPermutes` | app/domain/consensus.py:630-657 | The main pairs do not depend on the order of the pairs. |
| `Consensus.BuildOpportunities` | app/domain/consensus.py:299-335 | The loop over the markets computes the specified opportunities and stops at a market it cannot price. |
| `Consensus.SelectTopN` | app/domain/consensus.py:756-764 | The counting loop keeps the first n opportunities of each league. |
| `Consensus.BuildPricingAnalysis` | app/domain/consensus.py:58-131 | The imperative analysis equals its specification. |
| `ConsensusResults.AnalysisSeesOnlyKnownRows` | app/domain/consensus.py:58-131 | Two histories with the same known rows have the same candidates, qualified list and opportunities, in the same order. |
| `ConsensusResults.LateRowsChangeNothing` | app/domain/consensus.py:134-142 | Rows observed, requested or ingested after the cutoff change nothing. |
| `OpportunityResults.MoneylineConsensusIsDefined` | app/domain/pricing.py:134-151 | The consensus of a moneyline market with enough books is never refused. |
| `OpportunityResults.BestPricedIs` | app/domain/consensus.py:418-446 | The best executable quote has the highest push-aware EV of all the market's quotes at the robust center. |
| `OpportunityResults.CenterBetweenBooks` | app/domain/consensus.py:403-414 | The robust center lies between the lowest and the highest inferred book center. |
| `OpportunityResults.EveryCandidateHasBookBelow` | app/domain/consensus.py:338-487 | Every candidate has valid chances, and some book's own view of it is no higher than the fair chance. |
| `OpportunityResults.QualifiedMeetPolicy` | app/domain/consensus.py:514-523 | The qualified opportunities are exactly the candidates within the dispersion, edge and EV gates, with enough books. |
| `OpportunityResults.CandidatesByEv` | app/domain/consensus.py:743-753 | Candidates come highest EV first, and among equal EVs the deeper market first. |
| `OpportunityResults.TopNIsFirstOfLeague` | app/domain/consensus.py:756-764 | Of every league the result is exactly the first n of the qualified opportunities in sorted order. |
| `MarketEvents.OneCandidateMatches` | app/persistence/market_repository.py:203-209 | At most one mapped event matches a game, so the order of the lookup cannot matter. |
| `MarketEvents.ResolveKeeps` | app/persistence/market_repository.py:177-257 | Resolving any game keeps the catalog sound. |
| `MarketEvents.FetchesKeep` | app/persistence/market_repository.py:53-147 | Over any fetches: one mapped event is matched, several are all in conflict, mapped events of one id are pairwise distinct. |
| `MarketEvents.ConflictIsForever` | app/persistence/market_repository.py:239-257 | Once an id has several events, they and their mappings are in conflict after any further fetches. |
| `MarketEvents.ReingestCreatesNothing` | app/persistence/market_repository.py:191-209 | Ingesting usable games again, after any other fetches, creates no event and no mapping. |
| `MarketIngestion.MarketStore.MarkConflict` | app/persistence/market_repository.py:250-256 | The loop over the candidates puts every mapping of the key and its event into conflict and nothing else. |
| `MarketIngestion.MarketStore.ResolveEvent` | app/persistence/market_repository.py:177-257 | The in-place resolution equals its specification, and a refused game changes nothing. |
| `MarketIngestion.MarketStore.PersistFetch` | app/persistence/market_repository.py:53-147 | Persisting a fetch computes the specified tables, rows and warnings and keeps the catalog sound. |
| `MarketIngestion.OffersStoredOnce` | app/persistence/market_repository.py:92-133 | Every readable offer is stored once or is a duplicate of a stored one; stored rows and warnings account for all offers. |
| `MarketIngestion.GamesStoredOnce` | app/persistence/market_repository.py:80-133 | Over a whole fetch no two stored rows share an identity, and the count of created events is the count of new ids. |
| `MarketIngestion.RefetchCreatesNoEvent` | app/persistence/market_repository.py:53-147 | Persisting the same usable fetch again reports no created event. |
| `ApprovalRisk.MeasurePeak` | app/persistence/recommendation_repository.py:918-922 | The loop over the settled bets computes the peak. |
| `ApprovalRisk.PeakIsGreatest` | app/persistence/recommendation_repository.py:918-922 | The peak is the greatest running equity over every prefix of the settled bets. |
| `ApprovalRisk.ValidateApprovalRisk` | app/persistence/recommendation_repository.py:897-1030 | The checks run in order and give the specified first refusal. |
| `ApprovalRisk.AcceptedWithinCaps` | app/persistence/recommendation_repository.py:992-1030 | An accepted approval leaves every game, correlated, market and team sum within its cap (or where it stood) and opposes nothing open. |
| `LedgerRepository.Repository.ExecuteMutation` | app/persistence/sqlalchemy_repository.py:417-460 | A keyed request equals the specified step; a failed one restores every table and leaves no key. |
| `LedgerRepository.Repository.Transact` | app/persistence/sqlalchemy_repository.py:417-460 | A transaction commits all of its writes or none. |
| `LedgerRepository.Repository.PlaceOperation` | app/persistence/sqlalchemy_repository.py:70-155 | Placing in place equals the specified placement. |
| `LedgerRepository.Repository.SettleOperation` | app/persistence/sqlalchemy_repository.py:169-236 | Settling in place equals the specified settlement. |
| `LedgerRepository.Repository.ApproveOperation` | app/persistence/recommendation_repository.py:468-581 | Approving in place equals the specified approval. |
| `LedgerRepository.Repository.RejectOperation` | app/persistence/recommendation_repository.py:458-466 | Rejecting in place equals the specified rejection. |
| `LedgerRepository.Repository.LoadOrCreatePortfolio` | app/persistence/sqlalchemy_repository.py:462-503 | A portfolio is opened with its initial funding on first use and refused to other owners. |
| `LedgerRepository.Repository.ProposeOperation` | app/persistence/recommendation_repository.py:93-173 | Storing a decision in place equals the specified transaction: its portfolio is opened when new, its rows become proposals of it. |
| `LedgerInvariants.ExecuteKeeps` | app/persistence/sqlalchemy_repository.py:60-238 | Every transaction keeps the invariant, and keeps cash nonnegative for requests the schemas accept. |
| `LedgerInvariants.MoneyIsConserved` | app/persistence/sqlalchemy_repository.py:60-238 | Over every run of placements, settlements, decisions, approvals and rejections, cash plus open stakes is starting capital plus realized result plus adjustments, and cash is nonnegative. |
| `LedgerInvariants.MoneyFromNothing` | app/persistence/sqlalchemy_repository.py:60-238 | Over every run from empty tables, every portfolio holds in cash and open stakes the configured capital plus its realized result, with cash nonnegative. |
| `LedgerInvariants.SettledExactlyOnce` | app/persistence/sqlalchemy_repository.py:200-232 | Over every run a bet has one stake entry, and one settlement row and entry exactly when it is settled, with matching amounts. |
| `LedgerInvariants.RepeatedApprovalChangesNothing` | app/persistence/recommendation_repository.py:480-487 | However many transactions come between, approving again names the same bet and writes nothing. |
| `LedgerInvariants.ApprovedExcludesRejected` | app/persistence/recommendation_repository.py:458-497 | At whatever places of a run, and in whichever order, approving and rejecting one recommendation never both succeed. |
| `LedgerInvariants.PlaceReportsCash` | app/persistence/sqlalchemy_repository.py:150-155 | The bankroll in a placement's answer is the portfolio's cash afterwards. |
| `LedgerInvariants.SettleReportsCash` | app/persistence/sqlalchemy_repository.py:233-236 | The bankroll in a settlement's answer is the portfolio's cash afterwards. |
| `LedgerInvariants.ApproveReportsCash` | app/persistence/recommendation_repository.py:480-581 | The bankroll in an approval's answer, first or repeated, is the portfolio's cash afterwards. |
| `ApprovalInvariants.ApprovalExtendsExposures` | app/persistence/recommendation_repository.py:878-991 | An approval leaves equity alone and adds exactly the checked targets to the open exposures if and only if the game was checked under the name it is counted by. |
| `ApprovalInvariants.ApprovedStakeFits` | app/persistence/recommendation_repository.py:918-960 | An approval goes through only when the portfolio, at its actual equity and peak, is not PAUSED and the stake fits its own limit. |
| `UnnamedGame.UnnamedGameEscapesCap` | app/persistence/recommendation_repository.py:979-991 | Three requests from empty tables under the default policies: all succeed, every cap holds before the approval of a recommendation without a canonical event, and the game is above its cap after it. |
| `ApprovalInvariants.IndependentLegsAgree` | app/persistence/recommendation_repository.py:765-776 | Legs that the engine lets into a parlay never oppose each other once stored. |
| `ApprovalInvariants.SettleKeepsCaps` | app/persistence/sqlalchemy_repository.py:169-236 | A settlement that wins or pushes, or belongs to another portfolio, keeps every cap and adds no exposure. |
| `ApprovalInvariants.CapsSurviveRuns` | app/persistence/recommendation_repository.py:897-1030 | Daily, sleeve, game, correlated, team and market caps and one-sidedness, once true of a portfolio, survive every run of approvals, rejections, engine decisions, winning or pushing settlements, and anything in other portfolios. |
| `Idempotency.ExactlyOnce` | app/persistence/sqlalchemy_repository.py:417-460 | The ledger and the first answers of a keyed run are those of the plain run with every repeat after a key's first success removed. |
| `Idempotency.RepeatsAnswerAsFirst` | app/persistence/sqlalchemy_repository.py:445-460 | A repeat answers as the key's first success did, or conflicts when its hash differs. |
| `Idempotency.FailureLeavesNoTrace` | app/persistence/sqlalchemy_repository.py:429-445 | A refused request changes neither the ledger nor the keys. |
| `Idempotency.ReusedKeyConflicts` | app/persistence/sqlalchemy_repository.py:456-457 | A reused key with another request hash is refused and changes nothing. |
| `Idempotency.KeysAreSuccesses` | app/persistence/sqlalchemy_repository.py:429-445 | After a run the keys are those held before and those that succeeded, each with its first success. |
| `Idempotency.RecordsStayFinished` | app/persistence/sqlalchemy_repository.py:458-460 | No committed record lacks its response, so that error is never answered. |
| `Interleaving.StepKeeps` | app/persistence/sqlalchemy_repository.py:417-507 | Every step of every transaction keeps the locks, the current views and the serial log. |
| `Interleaving.EveryInterleavingIsSerial` | app/persistence/sqlalchemy_repository.py:417-507 | Under every interleaving the committed tables, keys and logged answers are those of a serial run in commit order. |
| `Interleaving.CashStaysNonnegative` | app/persistence/sqlalchemy_repository.py:70-77 | Under every interleaving of accepted requests no portfolio's cash goes negative. |
| `Interleaving.CapsSurviveInterleaving` | app/persistence/recommendation_repository.py:897-1030 | Under every interleaving of the same kinds of requests a portfolio within its caps and one-sided stays so. |
| `Interleaving.NeverBothApprovedAndRejected` | app/persistence/recommendation_repository.py:458-497 | However an approval and a rejection of one recommendation race, they never both succeed. |
| `Interleaving.SharedViewOverdraws` | app/persistence/sqlalchemy_repository.py:505-507 | Why the owner row is locked first: two placements decided on one view spend both stakes from it. |
| `Interleaving.SomeTransactionMoves` | app/persistence/sqlalchemy_repository.py:417-507 | No deadlock: while any transaction is unfinished, some transaction can move on. |
| `JsonImport.ImportFile` | app/migration/json_import.py:38-213 | The loop over the portfolios computes the specified import and its report. |
| `JsonImport.ImportBetsOf` | app/migration/json_import.py:66-180 | The loop over the bets passes over known, empty and malformed ones and counts the rest. |
| `JsonImport.ImportReconcilesCash` | app/migration/json_import.py:182-212 | Without an earlier reconciliation cash is the rounded legacy bankroll; equity is starting capital plus realized result plus the adjustment. |
| `JsonImport.ImportCountsBets` | app/migration/json_import.py:66-180 | The report counts exactly the bets added; no stored bet is changed. |
| `JsonImport.ReimportAddsNothing` | app/migration/json_import.py:66-75 | Importing the same file again changes no table and reports nothing. |

## Left out

- Losing settlements of the portfolio itself in `CapsSurviveRuns`: a loss lowers equity and can leave other exposures above a cap; the code promises nothing there.
- Manual placements into the portfolio itself in `CapsSurviveRuns`: `place_bet` makes no risk check.
- ApprovalInvariants.CapsSurviveRuns: assumes that proposals are of the form the engine stores (a canonical event for straights, legs that do not oppose each other), which is exactly when the check counts what it checks.
- PortfolioDecisions.ParlayKeepsLegCaps: speaks of games and teams; the code checks neither the market nor the correlated cap for a parlay, and compares its stake with full cash.
- ConsensusResults.AnalysisSeesOnlyKnownRows: does not cover rejection counters and funnel numbers, which count rows after the cutoff too.
- PricingQuery.QueryReturnsLatestStates: compares the returned rows as a collection; the order of the result set is not part of the model.
- Interleaving.EveryInterleavingIsSerial: the transactions are those of one owner; an integrity error that finds no record of its key is raised again and is not an entry of the log. A decision, which takes no lock, is stored in one step; where the database would let it wait for another transaction that opens the same portfolio, or let an approval miss a row stored after it looked, the step waits.
- LedgerRepository.Repository.ProposeOperation: a decision that is stored already is refused because its row ids are taken; the program answers with the stored run. Either way nothing is written.
- Consensus.BuildPricingAnalysis: rejection counters, funnel numbers, the pipeline status and the first scheduled start are not part of the model.
- The order in which several unpriceable markets would be reported: `Consensus.Analyze` answers one error for all of them.
- Sportsbook rows created while an offer is read, timestamps of rows, provenance and warning texts of `persist_fetch`.
- Reading an offer's market, side, point and book: a function of the event and the offer, given as a parameter.
- Display values: bankroll fractions, units, explanations, pass reasons, risk-adjustment texts, line advantage, uncertainty indicator, funnel counters.
- The states `void` and `expired` and the entry type `refund_void`: nothing in the modelled code writes them.
- Bet state transitions, which repeat what the bet's status and settlement say.
- Closing odds, closing probability and the statistics buckets.
- Creating an owner row, authentication, HTTP routes and schemas, except the sign of payouts and of stakes.
- Stored odds that are not valid American odds: the observation table's check admits none. Odds of parlay offers are unrestricted and their error is modelled.
- Decimal's 28-digit context, infinities and not-a-number values.
- The database engine: atomic commit and rollback, unique constraints and row locks are taken as given; engines without row locks are outside the model.
- Provider clients, caches, research pipelines, dashboards, the command line and migrations.
- The shipped residual histogram: every nonempty histogram with positive counts is covered instead.
