# Competition engine and benchmark portfolio

A Dafny model of two parts of the backend, and proofs about them.

**The competition engine** (`backend/internal/competitions`). Editions move along a schedule, and
three batched, resumable workers act on their entries. The baseline worker prices admitted entries
at the start, the ranking worker keeps a leaderboard, and the finalization worker scores everybody
once at the end. Ranking and finalization walk the entries by an id cursor, write draft rows into a
*building* generation, latch failures, and at the end of a lap fail the generation or promote it.
Baseline and finalization take prices from a write-once observation set. The state is the
in-memory repository, one worker pass is one step, and in every step valuations, provider answers
and repository calls may fail in any combination. The main results are about whole runs:

- nobody is omitted: as long as the corporate actions between start and end are the same in every
  pass, a completed edition has, for each entry that entered active, exactly one of a result row and
  a reasoned disqualification (`EditionOmitsNobody`). With the actions free to change nobody is left
  without either (`EditionMissesNobody`), and `EditionDoubleCountedExactly` says who has both.
  Every row shows the frozen basket, carried from start to end, at the end set (`FinalScoresAre`);
  who is disqualified is known exactly, inside the window nobody is (`DisqualifiesExactly`,
  `NobodyStruckInTime`). Completion is reached within 2 * (n / batch + 1) unhindered passes
  (`EditionCompletes`);
- between any two moments of a run readers see whole boards under a number that never falls
  (`ReadersSeeWholeBoards`), and a promoted board lists exactly the active entries except those
  activated behind the cursor (`PromotedBoardCoverage`); when a pass promotes and what score a row
  shows is known exactly (`PromotesExactly`, `PassShows`);
- a full page never seals, and when the providers answer what the entries need, a set that is sealed
  serves everyone, at the end (`EndSetServesEveryone`) and at the start (`StartSetServesEveryone`);
- retries never reprice (`EditionRunsAreSteady`, `CaptureOnlyAdds`, `BaselineIsCommon`), and what is
  stored stays even under overlapping captures (`RacesKeepWriteOnce`), with a common baseline in every
  interleaving in which none is overtaken (`OrderlyRacesAreCommon`); which batches a sealed set can
  score is known exactly (`SealedLapExactly`);
- a baseline is par, and stands at 100 k when quotes or rates are k times those it was taken at
  (`ScoreFollowsQuotes`, `ScoreFollowsRates`); splits whose quotes are restated change no score, from
  freezing to start (`StartsAtFrozenWorth`), on the board (`LiveScoreThroughSplits`) and at the end
  (`FinalScoresThroughSplits`);
- paging visits every row once, corporate-action adjustment composes, and broken scheduler ticks are
  made up for by the next whole one.

**The benchmark portfolio** (`backend/internal/benchmark`). Nested, versioned recipes are flattened,
price dates intersected, units bought at an index of 100 and carried, each close valued before any
rebalance at it, under four policies; raw prices are back-adjusted for splits and dividends. The
main results: the stateful loop equals a closed form over the dates, failure included
(`LoopIsFormula`); given its dates, nothing after a date changes a point up to it (`Causality`), and a
longer window repeats the points of a shorter one when it keeps its dates, for which there is an exact
condition (`LongerRunRepeats`, `DatesExtendExactly`); a request is served exactly when its timeline
resolves, its series are usable and two common dates convert (`CalculateIndex`); an exact conversion
is the close times that day's rate (`ConvertedIsCloseTimesRate`); the monthly policy rebalances on
exactly the dates that close a month and is a product over months (`MonthlyRebalancesExactly`,
`MonthlyIsAProductOfMonths`); flattening fails exactly on a reachable cycle or broken component and
otherwise sums the weight products of all paths, and no version public after its parent has a say in
it (`ResolvedWeights`, `TimelineKnowsNoFuture`);
rounding moves no point away from the formula by more than a stated bound between two resets
(`PointsNearFormula`), cannot trip the rebalance check below a stated drift and must above a stated
shift; the dates
used are exactly the common ones; adjusted returns are raw returns divided by the factors in the gap,
whatever order the actions are applied in.

Methods and classes follow the imperative code (stores, worker passes, fold and search loops, the
allocation and valuation loops, the recursive flattener with its visited set, the in-place factor
array); each is proved against a function, and the theorems are about those functions.
`dafny verify dfyconfig.toml` covers the whole project.

## How things are represented

- Amounts are exact reals. The portfolio loop, converted prices and rates, and the back-adjusted
  prices round: the quanta are parameters, 0 meaning exact. Units round half away from zero and the
  others half to even, as the decimal calls do (a comment in
  `backend/internal/money/money.go:150-159` says half to even for both).
- Entry ids are positive integers in id order and 0 is the empty cursor; users and display names are
  integers in the order of their strings.
- Dates are the number their digits spell, instants likewise down to the second, so comparison is
  that of the keys and a month is a quotient.
- Locks and transactions become "one pass is one step"; a pass that loses its lock is no step.
- Price, rate and series providers are arbitrary partial maps that may differ at every pass, and so
  may the history of applied corporate actions. A service without an adjustment provider is one with
  an empty history.
- Currency codes are ASCII and compare in upper case.

## Where the code is narrower than its comments

- Ranking checks for pending baselines only when a lap ends, so an entry activated behind the cursor
  can be missing from the promoted board. `LateNewcomerIsOmitted` is such a run and
  `PromotedBoardCoverage` says exactly who is missing.
- A capture asks for the rate of a price only when it fetches that price, so a set can seal without
  the rate. `SealsWithoutRate` is such a run and `SealingSoundExactly` the exact condition.
- A set is sealed on the last batch's own completeness, whatever earlier batches of the lap still
  lack, and is then closed for good (`SealsWithoutEarlierBatch`). `SealedLapExactly` is the exact
  condition, `CompleteLapSealsSoundly` the laps that are safe.
- A baseline pass takes no lock. Two that overlap can start the same share at different prices
  (`RacingPassesMisprice`). `RacingViewExactly` says when a returned view is the stored one, and
  `OrderlyRacesAreCommon` that the baseline is common whenever it is.
- Without FX, cash is scored at its join-time value and not at the baseline rate;
  `ParWithoutFXExactly` says when the entry is still at par, `JoinTimeCashIsOffPar` is one that is not.
- Disjointness of results and disqualifications needs the same corporate actions in every pass, which
  are read afresh each time. A rename applied between two late passes leaves an entry in both
  (`RenameBetweenPassesDoubleCounts`); `EditionDoubleCountedExactly` is the exact condition.
- A filing made public inside a longer window brings in its symbols for the whole window, so a point
  before it can change: `LaterFilingChangesAnEarlierPoint` has one day at 110 and at 100.
  `DatesExtendExactly` is the exact condition, `OtherPoliciesKeepDates` the policies it cannot touch.
- At most one filing version takes effect a date and none on the first; `PromptExactly` says when
  that makes no difference, `SecondFilingWaits` is a case where it does.
- Whether a store with two versions of one public instant is refused hangs on how the sort leaves the
  tie (`TiedInstantsCanBeEither`); with distinct instants it does not (`DistinctInstantsDecide`).
- Weight validation admits a deviation far above what a rebalance tolerates; see
  `RebalanceKeepsValueExactly`, `RebalanceCheck` and `AdmittedWeightsTrip`.
- Final results break ties by display name and then user, the leaderboard by entry id, although a
  comment says they agree (`finalize.go:544-546`). `BoardsAgreeExactly` says when the two list the
  same scores alike, `TiedPairIsListedBothWays` is a pair they do not.
- An entry still admitted when finalization starts is neither scored nor disqualified: finalization
  claims active entries only, and `NobodyOmitted` speaks of those. `AdmittedAtTheEnd` is a schedule
  that gets there, `StrandedForever` says that nothing decides the entry afterwards.
- Duplicate versions are told by recipe and version id joined with a slash, so versions of two recipes
  can be taken for one (`SlashedNamesCollide`), but only if a recipe id holds a slash
  (`SlashFreeNamesDecide`).
- The finalization pass itself does not look at the lifecycle; only promotion does. The model keeps
  that, and `PassAfterCompletion` shows that a late retry changes nothing that matters.

## Model

| member | source | states |
|---|---|---|
| OrderedIds.ClaimPage | backend/internal/competitions/finalize.go:454-476 | the claim loop returns the first `limit` live ids past the cursor |
| OrderedIds.ClaimSplits | backend/internal/competitions/finalize.go:454-476 | a claimed page is ascending and without repeats, a short page takes everything past the cursor, a full one leaves exactly the ids past its last |
| Lifecycles.ClaimActive | backend/internal/competitions/ranking.go:504-526 | the page is claimed among the active entries alone |
| Pages.FullPagesIsQuotient | backend/internal/competitions/ranking.go:651-678 | taking pages of n until one falls short takes m / n full pages |
| RankOrder.SortRows | backend/internal/competitions/ranking.go:588-601 | the sort loop produces the one order the keys define |
| RankOrder.RankedIsSortedBijection | backend/internal/competitions/ranking.go:588-601 | the ranking lists every row exactly once, return descending, ties by the remaining keys |
| RankOrder.RankCountsBetterRows | backend/internal/competitions/ranking.go:588-601 | a row stands where it does because exactly that many rows beat it |
| RankOrder.ListingUnique | backend/internal/competitions/ranking.go:588-601 | no other order of the rows is sorted, so the sort is deterministic |
| RankOrder.SameListingExactly | backend/internal/competitions/ranking.go:588-601 | two tie-break chains list the same rows alike exactly when they order every pair alike |
| TieBreaks.BoardsAgreeExactly | backend/internal/competitions/finalize.go:587-601 | final results and live board list the same scores in the same order if and only if every pair tied on return is ordered alike by display name and user and by entry id |
| TieBreaks.TiedPairIsListedBothWays | backend/internal/competitions/finalize.go:544-547 | a tied pair that the board lists one way and the results the other |
| TieBreaks.LiveRankExactly | backend/internal/competitions/ranking.go:588-601 | a live row's rank is one more than the number of rows with a larger return, or the same and a smaller entry id |
| TieBreaks.ResultsDescend | backend/internal/competitions/finalize.go:587-608 | down the final results returns fall, and equal ones are in the order of names and users |
| Generations.FindBuilding | backend/internal/competitions/finalize.go:435-452 | the search finds a building generation exactly when there is one |
| Generations.SweepAccounts | backend/internal/competitions/finalize.go:304-336 | what a batch loop over arbitrary valuation and write failures accounts for: drafts are valued page entries, struck ones are the unvalued, only past the deadline, and a clean sweep leaves no page entry out; the counts agree |
| Sweeps.SweepsExactly | backend/internal/competitions/finalize.go:304-336 | exactly whom a sweep drafts, at what score, and whom it disqualifies, up to the first disqualification that is refused |
| Sweeps.CleanExactly | backend/internal/competitions/finalize.go:304-336 | a sweep goes through with nothing latched exactly if every claimed entry gets its row or is disqualified |
| FinalizationStore.Store.EnsureBuildingGeneration | backend/internal/competitions/finalize.go:435-452 | returns the building generation, opening a new one only when there is none |
| FinalizationStore.Store.UpsertRow | backend/internal/competitions/finalize.go:478-488 | writes one draft into the building generation, or nothing on a failing write |
| FinalizationStore.Store.AdvanceGeneration | backend/internal/competitions/finalize.go:490-506 | adds the counts, latches a write failure and moves the cursor of any existing generation; a missing one is a conflict and changes nothing |
| FinalizationStore.Store.FailGeneration | backend/internal/competitions/finalize.go:508-522 | closes a building generation as failed and drops its drafts; any other is a conflict and changes nothing |
| FinalizationStore.Store.DisqualifyEntry | backend/internal/competitions/finalize.go:524-542 | moves an active entry to disqualified with the reason and refuses any other |
| FinalizationStore.Store.PromoteGeneration | backend/internal/competitions/finalize.go:551-643 | whatever generation it is asked for: a completed edition is left as it is and reported as success, another lifecycle or a missing, closed or unclean generation is its own conflict, a clean building one is promoted |
| FinalizationStore.Store.SettleScored | backend/internal/competitions/finalize.go:621-632 | the loop that finalizes the scored active entries and no others |
| FinalizationStore.Materialize | backend/internal/competitions/finalize.go:575-608 | the results are the drafts in ranking order with the ranks 1, 2, 3, ... |
| Finalization.StandingsCover | backend/internal/competitions/finalize.go:587-608 | every draft is placed once |
| Finalization.PassKeepsSound | backend/internal/competitions/finalize.go:254-372 | every pass, with each of its early returns, keeps the store well shaped: only the newest generation can be building and only it holds drafts |
| Finalization.PassOpens | backend/internal/competitions/finalize.go:254-303 | a pass depends only on the state once its generation is open |
| FinalizationRuns.SweepKeepsDrafts | backend/internal/competitions/finalize.go:304-336 | with steady valuations a sweep never disqualifies an entry that already has a draft |
| FinalizationRuns.SweepCovers | backend/internal/competitions/finalize.go:308-344 | a sweep without failures covers every active entry up to the new cursor, a short page all of them |
| FinalizationRuns.PromotionResolves | backend/internal/competitions/finalize.go:551-643 | promoting a clean, covered generation gives every entry its one outcome |
| FinalizationRuns.PassAdvances | backend/internal/competitions/finalize.go:254-372 | one pass keeps an edition underway with everyone accounted for, or settles it with everyone resolved |
| FinalizationRuns.PassAfterCompletion | backend/internal/competitions/finalize.go:227-252 | a late retry on a completed edition changes neither results nor entries |
| FinalizationRuns.NobodyOmitted | backend/internal/competitions/finalize.go:254-372 | on every run, once the edition completes each entry that entered active has exactly one of a result row and a reasoned disqualification; before, all are still accounted for |
| FinalizationRuns.NobodyMissing | backend/internal/competitions/finalize.go:254-372 | with valuations free to move between passes, completion still leaves nobody who entered active without a row or a disqualification, and gives no one else either |
| FinalizationLimits.DoubleCountedExactly | backend/internal/competitions/finalize.go:308-336 | for any pass and any earlier valuations: exactly which entries a completing pass leaves both with a row and disqualified |
| FinalizationLimits.UnsteadyValuationDoubleCounts | backend/internal/competitions/finalize.go:308-336 | a two-pass run whose valuation is lost in between leaves an entry in both |
| FinalizationProgress.SmoothPassSpendsBudget | backend/internal/competitions/finalize.go:304-372 | past the deadline each pass without repository failures completes the edition or lowers a bound over cursor, failure latch and population |
| FinalizationProgress.FinalizationCompletes | backend/internal/competitions/finalize.go:304-372 | 2 * (n / batch + 1) such passes complete an edition of n active entries, however many valuations fail |
| Editions.FinalizeEdition | backend/internal/competitions/finalize.go:254-372 | the imperative pass over store and observation set, the basket adjustment of each claimed entry under the actions applied by then included, is the modelled step; it reports true exactly when it completed the edition |
| Editions.AdjustPage | backend/internal/competitions/finalize.go:282-290 | the claimed entries normalized for the actions applied by now, or the first failure, its error passed on |
| Editions.SweepPage | backend/internal/competitions/finalize.go:304-336 | the batch loop writes exactly what the sweep says |
| EditionRuns.EditionRunsAreSteady | backend/internal/competitions/finalize.go:254-372 | while the actions between start and end stay the same, an entry once valued from the end observations gets the same score in every later pass and generation |
| EditionRuns.EditionOmitsNobody | backend/internal/competitions/finalize.go:254-372 | under the same corporate-action history and no other assumption on providers or repository: on completion exactly one of a row and a reasoned disqualification for each entry that entered active, every row at the score of the final observation set |
| EditionRuns.EditionMissesNobody | backend/internal/competitions/finalize.go:254-372 | with no assumption at all, the history included: on completion nobody who entered active is without both |
| EditionRuns.EditionDoubleCountedExactly | backend/internal/competitions/finalize.go:282-336 | the history free to change: an entry is left with both exactly when the completing pass finds it drafted and disqualified, or drafted, claims it late and cannot score its basket as normalized now |
| Renames.RenameBetweenPassesDoubleCounts | backend/internal/competitions/basket_adjustments.go:57-107 | a two-pass run with a rename applied in between that leaves an entry with both |
| EditionRuns.EditionCompletes | backend/internal/competitions/finalize.go:304-372 | once the window is over, 2 * (n / batch + 1) unhindered passes complete the edition whatever the providers answer and however the history changes, as long as it can be applied |
| EndSeal.SealsExactly | backend/internal/competitions/finalize.go:278-299 | a pass seals the end set exactly if it claims a short page, finds all that page asks for and can store it; a full page never seals |
| EndSeal.EndSetServesEveryone | backend/internal/competitions/finalize.go:254-372 | over every run in which the actions stay the same and the providers answer what the entries need: once the end set is sealed it serves everyone who entered active, however the laps fell |
| EndSeal.AnsweredNobodyStruck | backend/internal/competitions/finalize.go:304-336 | then, with currency effects, nobody with a positive starting value is ever disqualified, however late the passes |
| FinalScores.DisqualifiesExactly | backend/internal/competitions/finalize.go:304-336 | whom one pass disqualifies: past ends_at plus the window, the claimed entries whose basket, carried from start to end, the captured view does not price, up to the first refused disqualification |
| FinalScores.NobodyStruckInTime | backend/internal/competitions/finalize.go:304-336 | over every run inside the window nobody is disqualified |
| FinalScores.CompletesExactly | backend/internal/competitions/finalize.go:337-372 | a pass completes the edition exactly if it ends its lap and the lap decided everyone it came to, and fails its generation exactly if the lap ends with somebody undecided |
| FinalScores.FinalScoresAre | backend/internal/competitions/finalize.go:254-372 | every row of a completed edition shows the value of the frozen basket, carried by the actions after the start and up to the end, at the end set |
| FinalScores.FinalScoresThroughSplits | backend/internal/competitions/basket_adjustments.go:26-107 | with the end quotes restated by those splits, that is the value of the basket as frozen at the quotes before restating |
| Valuation.ValueEntry | backend/internal/competitions/ranking.go:296-353 | the accumulating valuation loops compute the total over shares and cash, with the first failure in order |
| Valuation.ValuationSteady | backend/internal/competitions/ranking.go:296-353 | a valuation that succeeded is unchanged by any observations added later |
| ValuationLaws.TotalledExactly | backend/internal/competitions/ranking.go:311-343 | with currency effects a basket can be totalled exactly if everything a capture asks for on its account is there |
| ValuationLaws.PositionWorth | backend/internal/competitions/ranking.go:316-327 | a share counts at quantity times price, times the rate if its currency is foreign |
| ValuationLaws.CashWorth | backend/internal/competitions/ranking.go:328-343 | cash counts at its amount, times the rate if its currency is foreign, or without currency effects at its join-time value |
| Observations.ObservationSet.Record | backend/internal/competitions/observations.go:393-423 | recorded values are never overwritten and a sealed set is frozen |
| Observations.EntrySymbolsAndPairs | backend/internal/competitions/observations.go:173-201 | the loops collect the scored symbols and the currencies that need a rate |
| Observations.CaptureObservations | backend/internal/competitions/observations.go:259-337 | a capture records what it fetched and returns exactly the stored view, or changes nothing |
| Observations.CaptureOnlyAdds | backend/internal/competitions/observations.go:259-337 | a capture never changes an observation, and nothing at all in a sealed set |
| Observations.HistoryFirst | backend/internal/competitions/observations.go:216-240 | a price captured now is the historical one whenever there is one, the live quote only when there is not |
| Observations.SealingSoundExactly | backend/internal/competitions/observations.go:269-337 | a pass that seals leaves its batch scorable exactly when every price it found already stored can be converted |
| Observations.SealingSoundWhenRatesComplete | backend/internal/competitions/observations.go:269-337 | it does when every stored price had its rate, and it keeps that state exactly when every price it fetched got its rate |
| Observations.SealsWithoutRate | backend/internal/competitions/observations.go:276-289 | two passes, the first without the rate: the set seals and the share can never be scored |
| Sealing.TakeAllHolds | backend/internal/competitions/observations.go:259-337 | a run of captures that has not sealed holds exactly the first answers, prices and rates, to what each batch asked for |
| Sealing.SealedLapExactly | backend/internal/competitions/observations.go:309-334 | a lap sealed by its last pass is scorable for any batch exactly when each of its symbols was priced earlier with a rate taken earlier or asked for now, or is also a symbol of the sealing batch, and likewise for its cash rates |
| Sealing.CompleteLapSealsSoundly | backend/internal/competitions/observations.go:309-334 | a lap whose every pass found all it asked for seals with every batch scorable |
| Sealing.SealsWithoutEarlierBatch | backend/internal/competitions/observations.go:309-334 | a two-batch lap that seals while the first batch was never priced, after which no capture ever makes that entry valuable |
| RacingCaptures.UndisturbedIsCapture | backend/internal/competitions/observations.go:259-337 | a read and a write with nothing in between are the capture |
| RacingCaptures.RacesKeepWriteOnce | backend/internal/competitions/observations.go:393-423 | in every interleaving of captures the set only grows and never changes once sealed |
| RacingCaptures.RacingViewExactly | backend/internal/competitions/observations.go:327-336 | a capture that others overlap returns stored values exactly when nothing it fetched was stored differently meanwhile, nor left out by a seal |
| RacingBaselines.RacesDecideOnce | backend/internal/competitions/baseline.go:111-162 | however baseline passes interleave, every entry is left alone, activated or failed with the reason, once, and none is dropped |
| RacingBaselines.OrderlyRacesAreCommon | backend/internal/competitions/baseline.go:111-162 | in every interleaving in which no capture is overtaken each active entry stands at par on the stored set |
| RacingBaselines.RacingPassesMisprice | backend/internal/competitions/baseline.go:118-157 | a run of two overlapping passes whose second entry, activated at 120, stands at 83.33 on the stored price of 100 |
| Ranking.StepKeepsSound | backend/internal/competitions/ranking.go:478-616 | every step keeps at most one building and one active generation, rows for those two alone, and a larger active number whenever readers see a change |
| RankingStore.Store.EnsureBuildingGeneration | backend/internal/competitions/ranking.go:478-502 | returns the building generation, opening a new one only when there is none |
| RankingStore.Store.UpsertRanking | backend/internal/competitions/ranking.go:528-538 | writes one unranked row into the building generation or nothing |
| RankingStore.Store.AdvanceGeneration | backend/internal/competitions/ranking.go:540-556 | adds the counts, latches a write failure and moves the cursor of any existing generation; a missing one is a conflict and changes nothing |
| RankingStore.Store.FailGeneration | backend/internal/competitions/ranking.go:558-572 | closes a building generation as failed and drops its rows; any other is a conflict and changes nothing |
| RankingStore.Store.PromoteGeneration | backend/internal/competitions/ranking.go:574-616 | swaps the active board in one step, exactly for an existing cleanly building generation; any other number is a conflict and changes nothing |
| RankingStore.Store.HasPendingBaselineEntries | backend/internal/competitions/engine_repository.go:210-219 | the search finds an admitted entry exactly when there is one |
| RankingStore.MaterializeRanks | backend/internal/competitions/ranking.go:584-601 | every row gets the rank the ordering gives it |
| RankingStore.StandingIsRank | backend/internal/competitions/ranking.go:584-601 | the rank by position is one more than the number of rows that beat the row |
| RankingWorker.RefreshRanking | backend/internal/competitions/ranking.go:173-288 | the imperative refresh over the store, adjusting and valuing each claimed entry, is the modelled pass |
| RankingWorker.FinishedLapIsPromoted | backend/internal/competitions/ranking.go:230-288 | a lap that ends with everyone valued and no baseline pending is promoted |
| RankingCoverage.RunsStayTracked | backend/internal/competitions/ranking.go:173-288 | over every run of ranking and baseline passes drafts are for active entries only and, while nothing has failed, up to the cursor they miss exactly the entries activated behind it |
| RankingCoverage.ReadersSeeWholeBoards | backend/internal/competitions/ranking.go:574-649 | between any two moments of any run of ranking and baseline passes the active number does not fall, the board shown is whole, and the same number shows the same rows |
| RankingCoverage.PromotedBoardCoverage | backend/internal/competitions/ranking.go:173-288 | a promoted board lists exactly the active entries except those activated behind the cursor in the completing lap: everyone active when the lap began, and everyone active now if nobody was activated during it |
| RankingCoverage.LateNewcomerIsOmitted | backend/internal/competitions/ranking.go:262-285 | a run in which an entry activated behind the cursor is missing from the promoted board |
| LiveScores.PromotesExactly | backend/internal/competitions/ranking.go:230-288 | a pass promotes exactly if it ends a lap of somebody, nothing in the lap failed and no entry is admitted, and then the generation it was building; it gives that generation up exactly if the lap ends with a failure |
| LiveScores.PassShows | backend/internal/competitions/ranking.go:196-238 | after a pass the claimed entries that could be valued and written show their value of this pass, every other row what it showed |
| LiveScores.RowsShowScores | backend/internal/competitions/ranking.go:173-288 | over every run no board shows a score that no pass arrived at |
| LiveScores.LiveScoreThroughSplits | backend/internal/competitions/basket_adjustments.go:26-107 | with live quotes restated by the splits after the start and up to now, an entry scores what its stored basket would at the quotes before restating |
| Leaderboard.ReadPage | backend/internal/competitions/ranking.go:651-678 | sorting the active rows by stored rank and cutting the page after a rank |
| Leaderboard.EditionLeaderboard | backend/internal/competitions/ranking.go:358-387 | limit clamping, the unavailable answer, and a next cursor exactly after a full page |
| Leaderboard.StoredRanksSort | backend/internal/competitions/ranking.go:651-678 | sorting by stored rank recovers the ranking order |
| Leaderboard.PagingVisitsEveryRowOnce | backend/internal/competitions/ranking.go:358-387 | following the cursor from 0 returns every row once in rank order, in rows / limit + 1 pages |
| BasketAdjustments.AdjustPosition | backend/internal/competitions/basket_adjustments.go:57-107 | the fold over the window of actions |
| BasketAdjustments.AdjustedEntryBasket | backend/internal/competitions/basket_adjustments.go:26-51 | every position of the basket adjusted, or the first failure |
| BasketAdjustments.AdjustmentsCompose | backend/internal/competitions/basket_adjustments.go:57-107 | adjusting over (a, b] and then (b, c] is adjusting over (a, c], failures included |
| BasketAdjustments.WalkScales | backend/internal/competitions/basket_adjustments.go:57-107 | the walk multiplies any quantity by one ratio that depends on the actions alone |
| BasketAdjustments.SplitsKeepScore | backend/internal/competitions/basket_adjustments.go:26-107 | an adjusted basket scored at quotes divided by its ratios keeps its score, with currency effects or, against the quantity before adjustment, without |
| BasketAdjustments.WindowMembers | backend/internal/competitions/basket_adjustments.go:57-70 | the actions applied are those after the one instant and up to the other |
| BasketAdjustments.SplitFollowsRename | backend/internal/competitions/basket_adjustments.go:71-107 | a split of the new ticker applies to a position renamed to it, and no longer one of the old |
| Baseline.BaselineEntry | backend/internal/competitions/baseline.go:279-333 | the starting value and position baselines a set of observations gives, or the failure |
| Baseline.EntryBook.ListPending | backend/internal/competitions/engine_repository.go:195-208 | at most `limit` distinct pending entries, all of them on a short page |
| Baseline.EntryBook.CompleteBaseline | backend/internal/competitions/engine_repository.go:221-259 | activates a pending entry with its baseline and refuses any other |
| Baseline.EntryBook.FailBaseline | backend/internal/competitions/engine_repository.go:261-280 | fails a pending entry with its reason and refuses any other |
| Baseline.RunBaselines | backend/internal/competitions/baseline.go:95-162 | one baseline pass: list, normalize each listed basket for the actions up to the start, capture once, then visit each entry |
| Baseline.NormalizeEntries | backend/internal/competitions/baseline.go:164-180 | every listed basket carried from its freezing to the start, or the first failure |
| Baseline.VisitAllDecides | backend/internal/competitions/baseline.go:143-157 | whatever writes fail, a pass decides each entry of its page by its own normalized basket and the clock, and touches no other |
| Baseline.BaselineIsCommon | backend/internal/competitions/baseline.go:125-157 | over every run of passes each active entry scores at par on the final observation set, whichever pass and batch priced it; everyone else is untouched, failed with the reason, or still waiting |
| Baseline.BaselineIsPar | backend/internal/competitions/baseline.go:279-333 | re-scored from its own baseline observations an entry is at exactly index 100 and return 0, with FX included |
| Baseline.ParWithoutFXExactly | backend/internal/competitions/ranking.go:311-343 | without FX it is exactly when its shares can be rebased and its cash at join-time value equals its cash at the baseline rate |
| Baseline.JoinTimeCashIsOffPar | backend/internal/competitions/ranking.go:311-343 | a fresh baseline with euro cash that does not score 100 |
| Baseline.ParThroughSplits | backend/internal/competitions/baseline.go:164-180 | through any splits and renames whose quotes are restated by the ratio it stays at 100 and 0 with FX, and without FX exactly where a fresh baseline is at par |
| BaselineLaws.ScoreFollowsQuotes | backend/internal/competitions/ranking.go:311-353 | an entry without cash, at quotes k times those of its baseline, scores exactly 100 k and a return of (k - 1) 100, with currency effects at the same rates and without whatever the rates |
| BaselineLaws.ScoreFollowsRates | backend/internal/competitions/ranking.go:311-353 | with currency effects an entry wholly in foreign currencies scores 100 k at k times the rates of its baseline |
| BaselineLaws.StartsAtFrozenWorth | backend/internal/competitions/baseline.go:118-180 | with the quotes at the start restated by the actions after the freezing and up to the start, a visited entry starts at the value its frozen basket has at the quotes before restating |
| BaselineLaws.NormalizedThenAdjusted | backend/internal/competitions/baseline.go:164-180 | normalized to the start and adjusted from there to a later instant, a scored position arrives where the actions from its freezing on take it |
| BaselineLaws.SplitsUpToTheStart | backend/internal/competitions/baseline.go:164-180 | one share frozen at 5 with splits at the freezing, at the start and after it starts as two shares |
| BaselineLaws.NobodyFailsInTime | backend/internal/competitions/baseline.go:133-157 | over every run of passes up to starts_at plus the window no entry fails its baseline |
| StartSeal.PassSealsExactly | backend/internal/competitions/baseline.go:118-138 | a baseline pass seals the start set exactly if it lists a short page of somebody, finds all that page asks for and can store it |
| StartSeal.StartSetServesEveryone | backend/internal/competitions/baseline.go:111-162 | over every run in which the providers answer what the entries need: once the start set is sealed it serves everyone who was to be baselined |
| Schedule.EditionTable.TransitionLifecycle | backend/internal/competitions/engine_repository.go:83-108 | the guarded transition: table and stored state must both agree |
| Schedule.EditionTable.AdvanceLifecycles | backend/internal/competitions/baseline.go:41-78 | the four sweeps of a tick move every edition as the pure moves do, refused transitions left for the next tick and a failing listing ending this one |
| Schedule.TickIsLaterOf | backend/internal/competitions/baseline.go:41-78 | a tick leaves an edition in the later of its state and the state its timestamps dictate |
| Schedule.TicksCatchUp | backend/internal/competitions/baseline.go:41-78 | a tick at t1 cut short or with transitions refused, then a whole one at t2, is the tick at t2 alone |
| Schedule.TicksCompose | backend/internal/competitions/baseline.go:41-78 | a tick at t1 and one at t2 are one tick at t2 |
| Schedule.RosterClosesBeforeBaseline | backend/internal/competitions/join.go:150-158 | on a validated schedule no join or withdrawal changes the roster once a baseline pass was due |
| Schedule.OneEntryPerUserForever | backend/internal/competitions/engine_repository.go:115-126 | over every run a user has at most one entry, it keeps its owner, and a withdrawn one stays withdrawn |
| Schedule.JoinsExactly | backend/internal/competitions/engine_repository.go:115-126 | a join adds one admitted entry exactly while registration is open and its window runs, for a user who has none, under a new id, and touches no other |
| Schedule.WithdrawsExactly | backend/internal/competitions/join.go:285-309 | until joining closes a withdrawal takes out the user's admitted entry and nobody else's; afterwards, or on a legacy sprint, it changes nothing |
| Schedule.NoBaselineBeforeStart | backend/internal/competitions/baseline.go:41-78 | a baseline pass decides nobody before the start, or on an edition that is neither closed to registration nor active |
| Schedule.OneStageOrOut | backend/internal/competitions/lifecycle.go:49-74 | from every state but the ends the table knows exactly two moves: one stage on, and out |
| Schedule.NeverBack | backend/internal/competitions/lifecycle.go:49-74 | no run takes an edition back to an earlier stage |
| Schedule.EndsAreFinal | backend/internal/competitions/lifecycle.go:49-74 | no run moves an edition out of completed, cancelled or legacy |
| Schedule.StrandedForever | backend/internal/competitions/finalize.go:454-476 | an entry still admitted when its edition is finalizing, completed or cancelled after joining closed is decided by no later event of any run |
| Schedule.AdmittedAtTheEnd | backend/internal/competitions/baseline.go:41-78 | a scheduled run that reaches finalizing with an admitted entry |
| Portfolio.ValueState | backend/internal/benchmark/engine_return.go:379-396 | the valuation loop, in whatever order the map is walked: missing price, non-positive total, else the rounded sum |
| Portfolio.WorthPeels | backend/internal/benchmark/engine_return.go:379-390 | the sum over the holdings does not depend on that order |
| Portfolio.PortfolioState.AllocateAtNAV | backend/internal/benchmark/engine_return.go:351-377 | target-weight units at one price each, or failure with the holdings untouched |
| Portfolio.CheckPolicy | backend/internal/benchmark/engine_return.go:63-71 | one supported policy throughout the timeline |
| Portfolio.CloseAt | backend/internal/benchmark/engine_return.go:127-177 | one turn of the loop: value, activate, rebalance, check |
| Portfolio.CalculateIndex | backend/internal/benchmark/engine_return.go:114-177 | the whole loop over the portfolio object returns what the recursive run returns, with the first failure |
| IndexFormula.UnitsWorth | backend/internal/benchmark/engine_return.go:351-396 | with unrepeated symbols the holdings map is worth the sum over the components |
| IndexFormula.RebalanceKeepsValueExactly | backend/internal/benchmark/engine_return.go:161-173 | in exact arithmetic a rebalance keeps the index value if and only if the weights sum to 1 |
| IndexFormula.LoopIsFormula | backend/internal/benchmark/engine_return.go:114-177 | in exact arithmetic the loop reaches a date if and only if each close up to it can be made, and its points, rebalance dates, version and holdings are those of a closed form over the dates alone |
| IndexLaws.PointsSpanResets | backend/internal/benchmark/engine_return.go:127-177 | under every policy a point is the point at the last reset times the weighted growth since |
| RoundedPoints.PointsNearFormula | backend/internal/benchmark/engine_return.go:127-177 | at any precision a point is a whole number of index quanta and differs from the point of the last reset times the weighted growth since by at most half of one and half a unit of each component at its price that day |
| RoundedPoints.StoredPointsNearFormula | backend/internal/benchmark/engine_return.go:351-396 | at 36 and 18 decimals, with prices below 10^18 in sum, that is less than one unit in the last place |
| RoundedPoints.UnitsAreRounded | backend/internal/benchmark/engine_return.go:351-377 | what is bought of a component is a whole number of units, at most half of one away from the target weight's worth |
| IndexLaws.SinceIsLastRebalance | backend/internal/benchmark/engine_return.go:161-176 | the last reset is the last listed rebalance date, or the first date |
| IndexLaws.BuyAndHoldIsOneSum | backend/internal/benchmark/engine_return.go:150-160 | buy and hold never rebalances and is one weighted sum |
| IndexLaws.DailyIsAProductOfSums | backend/internal/benchmark/engine_return.go:150-177 | daily rebalancing is the product of the daily weighted sums |
| MonthlyIndex.MonthlyRebalancesExactly | backend/internal/benchmark/engine_return.go:150-176 | at any precision a monthly run rebalances on exactly the dates after the first whose next date has another month, the last one exactly if the request reaches the end of its month |
| MonthlyIndex.MonthlyIsAProductOfMonths | backend/internal/benchmark/engine_return.go:150-177 | monthly rebalancing is the product of the weighted sums over whole months and over the month begun |
| MonthlyIndex.YearLength | backend/internal/benchmark/engine_return.go:407-415 | the months of a year have 365 days, or 366 in a leap year of the calendar |
| MonthlyIndex.RebalancesAtTheTurn | backend/internal/benchmark/engine_return.go:407-415 | a run over the turn of January that rebalances on its last trading date, at 100, 150 and 225 |
| IndexLaws.ScaleInvariance | backend/internal/benchmark/engine_return.go:351-396 | multiplying one symbol's prices by a positive constant changes neither outcome nor points nor rebalances |
| IndexCausality.NewestWasPublic | backend/internal/benchmark/engine_return.go:139-149 | the version in effect was public before the date |
| IndexCausality.PastDecides | backend/internal/benchmark/engine_return.go:127-177 | runs that share their past are identical, holdings and failures included, up to the last shared date, there unless a monthly policy ends the month in one of them only |
| IndexCausality.Causality | backend/internal/benchmark/engine_return.go:127-177 | runs that share their first n dates share their first n points at any precision, the monthly look at the next date included |
| IndexCausality.NoPointWithoutQuotes | backend/internal/benchmark/engine_return.go:379-396 | a run gets past a date only with a quote of that day, above zero, for every component of the version it holds |
| IndexRounding.ValidateWeights | backend/internal/benchmark/utils.go:67-92 | accepts exactly positive weights within 0.0001 of summing to 1 |
| IndexRounding.AllocationError | backend/internal/benchmark/engine_return.go:351-377 | units rounding moves an allocation by at most half a unit at each price |
| IndexRounding.SmallDriftKeepsNav | backend/internal/benchmark/engine_return.go:161-173 | below half an index quantum of drift, allocating and valuing returns the index value unchanged |
| IndexRounding.LargeShiftChangesNav | backend/internal/benchmark/engine_return.go:161-173 | above it, they cannot |
| IndexRounding.RebalanceCheck | backend/internal/benchmark/engine_return.go:161-173 | both, for a close of the loop: when the changed-NAV check passes and when it fires |
| IndexRounding.ExactWeightsNeverTrip | backend/internal/benchmark/engine_return.go:161-173 | at 36 and 18 decimals, weights of exactly 1 and prices below 10^18 in sum never trip it |
| IndexRounding.AdmittedWeightsTrip | backend/internal/benchmark/utils.go:67-80 | a recipe that weight validation admits is refused at its first daily rebalance |
| IndexRounding.TiesOnTheGrid | backend/internal/benchmark/engine_return.go:351-396 | halfway between two grid points an index value goes to the even one and units away from zero |
| IndexRounding.AdmissionEdges | backend/internal/benchmark/utils.go:67-92 | a lone component is admitted strictly within 0.0001 of 1, and no weight may be zero |
| Recipes.Validate | backend/internal/benchmark/recipe_version.go:82-120 | accepts exactly the valid versions |
| Recipes.OneLegEdges | backend/internal/benchmark/recipe_version.go:82-120 | a single component is in order exactly within 0.0001 of 1, bounds excluded, with one of symbol and recipe |
| Recipes.ValidityEdges | backend/internal/benchmark/recipe_version.go:82-120 | the bounds of the other checks: an effective range must not be empty, a filing needs its accession, url and date, and coverage of at least 0.9 if any |
| Recipes.NewVersionedRecipeStore | backend/internal/benchmark/recipe_version.go:130-163 | a built store groups exactly the given valid versions of unrepeated joined names, ascending and without collisions; a refusal has an invalid version, a repeated name, or an ascending arrangement with a collision |
| Recipes.SlashFreeNamesDecide | backend/internal/benchmark/recipe_version.go:132-143 | while no recipe id holds a slash, names repeat exactly if a recipe has two versions of one id |
| Recipes.SlashedNamesCollide | backend/internal/benchmark/recipe_version.go:137-141 | versions of two recipes whose joined names coincide, refused as duplicates |
| Recipes.DistinctInstantsDecide | backend/internal/benchmark/recipe_version.go:144-160 | when no two versions of a recipe share a public instant there is one arrangement, and it alone decides the refusal |
| Recipes.TiedInstantsCanBeEither | backend/internal/benchmark/recipe_version.go:144-160 | two versions of one instant, both of whose orders are sorted and only one of which is refused |
| Recipes.TouchingRangesAreAccepted | backend/internal/benchmark/recipe_version.go:150-160 | ranges that meet at an instant do not collide, ranges that share one do; an open range collides only with one made public at the same instant that starts no earlier |
| Recipes.SelectVersion | backend/internal/benchmark/recipe_version.go:168-183 | the search loop returns the last listed version known at the start |
| Recipes.SelectsNewest | backend/internal/benchmark/recipe_version.go:168-183 | which in a built store is the newest version public by then, and there is none only when none was public |
| Recipes.RelevantVersions | backend/internal/benchmark/recipe_version.go:194-215 | the collecting loop and its sort |
| Recipes.RelevantIsTheWindow | backend/internal/benchmark/recipe_version.go:194-215 | the version known at the start first, then every version made public up to the end and no other, in public order |
| Activation.ActivatesInOrder | backend/internal/benchmark/engine_return.go:139-149 | versions take effect in order, each once, at any precision |
| Activation.NeverEarly | backend/internal/benchmark/engine_return.go:139-149 | never more versions than are public before the date |
| Activation.PromptExactly | backend/internal/benchmark/engine_return.go:127-149 | each is in effect from the first date after its public day if and only if no date has more than one newly due |
| Activation.SecondFilingWaits | backend/internal/benchmark/engine_return.go:139-149 | of two filings between two dates the second waits a date although it was public |
| Merging.MergeDuplicateSymbols | backend/internal/benchmark/engine.go:166-181 | the map-and-order loop merges in order of first appearance |
| Merging.MergeMeans | backend/internal/benchmark/engine.go:166-181 | no symbol repeats, each keeps its whole weight, the total stays |
| Merging.MergeKeepsOrder | backend/internal/benchmark/engine.go:166-181 | symbols come in the order of their first appearance |
| Flattening.Flattener.Flatten | backend/internal/benchmark/engine_return.go:216-248 | the recursion over the mutable visited set terminates on every graph, returns the expansion, and restores the set on every return |
| Flattening.FailsExactly | backend/internal/benchmark/engine_return.go:216-248 | it fails if and only if a chain of references returns to a recipe on it or ends at an empty or unresolvable component |
| FlattenedWeights.FlattenedWeightIsSumOverPaths | backend/internal/benchmark/engine_return.go:216-248 | otherwise each symbol appears once with the sum over all paths of the weight products |
| FlattenedWeights.TrailsAreAllPaths | backend/internal/benchmark/engine_return.go:216-248 | the paths summed over, told apart by the place of each component, are all there are, each listed once |
| FlattenedWeights.FlatteningKeepsTotal | backend/internal/benchmark/engine_return.go:216-248 | when every version sums to 1, so does the flattened recipe |
| Timelines.ResolveTimeline | backend/internal/benchmark/engine_return.go:194-214 | versions, flattening and weight check, with the first failure |
| Timelines.TimelineIsSound | backend/internal/benchmark/engine_return.go:194-214 | a resolved timeline is in public order within the window, unrepeated and admitted |
| NestedVersions.ResolvedWeights | backend/internal/benchmark/engine_return.go:203-205 | a resolved version weighs each symbol by the paths chosen at the instant it became public itself, and no nested version on them was made public after it |
| NestedVersions.LaterVersionsChangeNothing | backend/internal/benchmark/engine_return.go:203-205 | a version resolves alike in any two stores that agree on what was public by then |
| NestedVersions.TimelineKnowsNoFuture | backend/internal/benchmark/engine_return.go:194-214 | a timeline is the same whatever became public after its end, nested recipes included |
| NestedVersions.TimelineListsVersions | backend/internal/benchmark/engine_return.go:194-214 | an entry for each of the window's versions of a filing recipe and for the first alone under any other policy, each with its public day, policy and weights; it resolves exactly if each of those does |
| Timelines.LongerWindowKnowsAsMuch | backend/internal/benchmark/recipe_version.go:194-215 | a later end only adds versions made public after the nearer one |
| Timelines.OneVersionUnlessFiling | backend/internal/benchmark/engine_return.go:194-214 | only a filing recipe resolves to more than one version |
| Timelines.BuiltStoresAreKeyed | backend/internal/benchmark/recipe_version.go:130-163 | a store the constructor built has positive, unrepeated version ids under their own recipe |
| Windows.DatesExtendExactly | backend/internal/benchmark/engine_return.go:73-107 | for two evaluations that differ in their ends: the longer run keeps the dates of the shorter exactly when every symbol the longer timeline names, later filings included, has a point on each of them; otherwise one is gone |
| Windows.OtherPoliciesKeepDates | backend/internal/benchmark/engine_return.go:194-214 | only a filing recipe can lose one |
| Windows.LongerRunRepeats | backend/internal/benchmark/engine_return.go:114-177 | under that condition a run over a longer window repeats the points of the shorter one, and on calendar days is completed only if the shorter one is |
| LaterFilings.LaterFilingChangesAnEarlierPoint | backend/internal/benchmark/engine_return.go:73-107 | two windows over one filing recipe, both served and completed, that put the same day at 110 and at 100 |
| SeriesDates.ValidateSeries | backend/internal/benchmark/series.go:29-99 | structure first, then the metadata: contradictory claims, synthetic, stale, total-return and adjusted policies in order, and the quality awarded |
| SeriesDates.ValidSeriesIsPriced | backend/internal/benchmark/engine.go:210-219 | a valid adjusted series converts on each of its dates that has a rate, to the rounded product, which is above zero exactly past half a quantum |
| SeriesDates.WindowPrices | backend/internal/benchmark/engine_return.go:90-98 | the in-window points; a symbol without any is not listed |
| SeriesDates.InWindowExactly | backend/internal/benchmark/engine_return.go:90-98 | a window keeps the points from its first day to its last, both included |
| SeriesDates.CommonDates | backend/internal/benchmark/engine.go:184-208 | the counting loops return the ascending, repeat-free intersection of the listed series' dates |
| SeriesDates.ConvertedPrices | backend/internal/benchmark/engine_return.go:296-349 | succeeds exactly when every symbol has a price and a rate of the day on every date, and each price is the rounded product with the rounded rate |
| ConversionLaws.ConvertsExactly | backend/internal/benchmark/engine_return.go:316-349 | a valid adjusted series converts on one of its dates exactly in the base currency or at a positive rate quoted for that very day |
| ConversionLaws.ConvertedIsCloseTimesRate | backend/internal/benchmark/engine_return.go:321-331 | in exact arithmetic it converts to the adjusted close times that rate, or to the close itself in the base currency |
| ConversionLaws.ConvertedIsNear | backend/internal/benchmark/engine_return.go:321-331 | at any precision it is a whole number of price quanta, off by at most half of one and half a rate quantum of the close |
| ConversionLaws.ConversionScales | backend/internal/benchmark/engine_return.go:321-331 | k times the rates of a currency give k times its converted prices |
| ConversionLaws.CaseDoesNotMatter | backend/internal/benchmark/engine_return.go:316-320 | how a currency is written does not matter |
| SeriesDates.ConvertedDatesAreCommon | backend/internal/benchmark/engine_return.go:90-107 | then the dates are exactly those common to every component symbol in the window |
| SeriesDates.DroppedSymbolIsCaught | backend/internal/benchmark/engine_return.go:306-314 | a symbol that dropped out of the count makes the conversion fail |
| SeriesDates.DatesAndPrices | backend/internal/benchmark/engine_return.go:90-107 | goes through exactly when at least two dates are common to all series and convert; then those are its dates |
| Benchmark.LoadSeries | backend/internal/benchmark/engine_return.go:250-294 | goes through exactly when each symbol has a series that meets the requirement in a declared currency, and returns those series |
| Benchmark.Prepare | backend/internal/benchmark/engine_return.go:57-113 | a request for the loop comes out exactly when the timeline resolves under one supported policy, every symbol has a usable series and at least two common dates convert; each refusal names its cause |
| Benchmark.CalculateIndex | backend/internal/benchmark/engine_return.go:41-192 | runs the loop exactly when start < end, a base currency is given and the evaluation can be served; the result is then the loop's over a request that meets the assumptions of the laws above, else a refusal with its cause |
| Benchmark.EvaluateVersions | backend/internal/benchmark/engine_return.go:41-192 | from the list of versions: the store that is built is well keyed, serves exactly what can be served, and its evaluations open with the newest version public at the start |
| BackAdjustment.FindPriorClose | backend/internal/benchmark/series.go:198-208 | the latest close strictly before the date |
| BackAdjustment.CumulativeFactors | backend/internal/benchmark/series.go:142-176 | the nested in-place loops leave in each slot the product over the actions strictly after its date, and stop exactly at an overpaying dividend |
| BackAdjustment.BuildTotalReturnSeries | backend/internal/benchmark/series.go:124-194 | the adjusted series of the sorted closes; fails exactly on fewer than two closes or a dividend of at least the close before it |
| BackAdjustment.OrderDoesNotMatter | backend/internal/benchmark/series.go:137-176 | the factors depend on which actions there are, not on the order they are applied in |
| BackAdjustment.AdjustedReturn | backend/internal/benchmark/series.go:178-182 | before rounding an adjusted return is the raw return divided by the factors in the gap |
| BackAdjustment.SplitIsNoReturn | backend/internal/benchmark/series.go:148-155 | a pure split is a zero return |
| BackAdjustment.DividendReturn | backend/internal/benchmark/series.go:156-166 | over a dividend D the return is close_i / (close_(i-1) - D) |
| AdjustedReturns.ActionReturn | backend/internal/benchmark/series.go:147-176 | across one action, a split, a dividend or both at once, the return is ratio times close over the close before less the dividend |
| AdjustedReturns.LatestClosesStand | backend/internal/benchmark/series.go:167-182 | from the last action on, its own day included, closes stand as they are to within half a quantum |
| AdjustedReturns.AdjustedIsRounded | backend/internal/benchmark/series.go:177-182 | every adjusted close is a whole number of quanta, at most half of one away from the close times its factor |
| AdjustedReturns.OverpaysExactly | backend/internal/benchmark/series.go:156-169 | an action is refused exactly if it pays at least the last close before its day and that close is above zero |

## Left out

- PostgreSQL repositories, SQL, HTTP handlers, the admin API and its audit records, the Arena
  catalogue, legacy weekly sprints, achievements, notifications, configuration and the frontend.
- Overlapping ranking or finalization passes: both hold the edition's lock.
- Work between passes that would only add easy members: listing editions, per-edition error logging,
  counting completed entries, idempotency keys and join fingerprints.
- Eligibility and scoring rule documents: whether a position scores is a flag of the snapshot.
- Evidence JSON, timestamps, error texts, SHA-256 fingerprints and the activation and FX evidence lists
  of a benchmark result.
- Quantization of competition amounts, and the 80-character limit on parsed decimals
  (`backend/internal/money/money.go:79-104`).
- Rates other than into the base currency: no caller of the modelled code asks for one.
- Join-time snapshot capture and admission rules, beyond their effect on the roster and the frozen basket.
- The default and 13F recipe catalogue with its weight normalization, and the aggregation of series
  metadata into the result.
- The currency-treatment field of a request, which has one supported value.
- Lookback periods, dynamic recipe resolvers, the legacy flattening over unversioned recipes and the
  float return percentage.
- Snapshots are values: the source's adjustment writes through a slice shared with the stored entry in
  the in-memory repository; the model follows the reloading repository, where each pass adjusts the
  stored basket.
- Observations.CaptureObservations: reads and writes in one step, as under the lock that finalization
  holds; the overlapping case is `RacingCaptures`.
- RankingWorker.RefreshRanking: the memo is the map of the answers it takes, each asked for once.
- FinalizationProgress.FinalizationCompletes: speaks of passes whose repository calls go through; with
  calls failing for ever no number of passes completes an edition.
