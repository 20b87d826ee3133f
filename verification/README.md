# Verified model of the DeltaMon backend's durable state machines

This project models the parts of the DeltaMon backend (and the chart helpers of its front end) that keep
state across restarts, or do arithmetic over that state, and proves what they are meant to guarantee:

- the restart-safe crawl of the venue's three history feeds, the insert-once store it writes to, and the
  daily accounting that trusts its claim of how far the history reaches;
- the allocation pipeline: seven steps per run, a nonce written before each broadcast, and the resolution
  of interrupted steps against the chain;
- the block scanner that records vault events and starts pipeline runs, and the index of share holders and
  validators built from the same logs;
- exact decimal scaling and order frames, the trading session's acknowledgement protocol, the keeper's mark
  decision iterated over ticks, and the runs and sums the vault page draws.

## How it is built

Code that is one expression is a function with lemmas. Code that works step by step under crashes is written
twice. A label machine (`Crawl`, `FlowModel`, `VaultScan`, `PerplProtocol`) says which single durable write,
chain action or event may happen next; a run is any list of labels, so every interleaving, crash point and
choice of the surroundings is a run, and safety is an invariant kept by each label. Beside it stands the
imperative form (`HistoryCollector`, `FlowEngine`, `AutomationRunner`, `PerplSession`): a class with the
source's own fields and methods, whose ghost trace records one label per write and which is proved to take
no other steps. What is proved of runs therefore holds of the objects.

| file | subject |
|---|---|
| `PerplHistory.dfy`, `PerplAmounts.dfy` | records, identities and the store; what events are worth, from the raw records |
| `Crawl.dfy`, `CrawlTheorems.dfy`, `CrawlClaims.dfy`, `HistoryCollector.dfy` | the crawl machine, its theorems, its claim told from the history of the run, the collector |
| `AccountingMath.dfy`, `AccountingDaily.dfy`, `AccountingTheorems.dfy` | interval and sum arithmetic, the daily projection, conservation laws |
| `AccountingReturns.dfy`, `AccountingRows.dfy` | every figure of a day's row told from the inputs alone |
| `AccountingHistory.dfy`, `AccountingFullDays.dfy` | the figures against the venue's true history: intervals, days, and days not marked partial |
| `FlowModel.dfy`, `FlowTheorems.dfy`, `FlowLandings.dfy`, `FlowLandingTheorems.dfy`, `FlowEngine.dfy` | the pipeline machine, order/amount/retry theorems, landings on chain, the engine |
| `FlowReach.dfy`, `FlowHedge.dfy`, `FlowRecords.dfy`, `FlowLimits.dfy`, `FlowAmounts.dfy` | runs built from a new flow; how often the hedge is placed, what done steps record, how often a step is tried, who waits for a person; the amounts, by arithmetic alone |
| `VaultScan.dfy`, `VaultScanTheorems.dfy`, `VaultWindows.dfy`, `AutomationRunner.dfy`, `BlockRanges.dfy`, `VaultIndex.dfy` | the scanner machine, its theorems, which trigger started which flow, the runner, chunk tiling, the index |
| `Decimals.dfy`, `PerplProtocol.dfy`, `PerplTheorems.dfy`, `PerplAnswers.dfy`, `PerplSession.dfy` | decimals, the acknowledgement protocol, its theorems, what each frame came to, the session and its order frames |
| `KeeperPlan.dfy`, `VaultHistory.dfy`, `Options.dfy` | the mark decision over ticks, chart runs and sums, the option type |

## What turned out not to hold

Each of these is proved: a run from a new flow, or an input, that shows it, and the exact condition over all runs.

- A step can succeed on chain more than once, up to four times: the write before the broadcast does not drop
  the hash of an earlier, reverted attempt, and after a crash the step is judged by that hash
  (`FlowLandingTheorems.FourReached`, `OnceExactlyWhenSpent`).
- "Retries up to a limit" bounds failures only. A step is started at most `MAX_ATTEMPTS` times and once more for
  each attempt that ends with the step pending again: planning throws, a crash before the write ahead, a nonce
  found unused. Each of the three alone repeats without end (`FlowLimits.TriesBounded`, `LimitHoldsExactly`).
- A crash between marking a step for review and closing the flow leaves the flow running for good, and nothing
  else does (`FlowLimits.StrandedExactly`, `ReviewCrashStrands`).
- The short order has no write before it. It is placed once more for every crash with an accepted order not yet
  written, without end, and for every answer that does not come in time, up to `MAX_ATTEMPTS` times; run by run
  the count is exact (`FlowHedge.OrdersCounted`, `OneOrderExactly`, `OrdersBoundedExactly`).
- A step resolved after a crash is marked done with nothing recorded, and later steps read the record. When
  that is the MON swap, nothing is staked; when it is the AUSD swap, nothing is sent on; when it is the stake,
  the flow completes with MON staked and no hedge (`FlowRecords.UnrecordedExactly`, `UnhedgedExactly`,
  `StakedUnhedged`).
- The history claim is literally true only of a venue that publishes a record no later than its own stamp
  (`CrawlTheorems.HonestIffVisibleByStamp`). An accepted interval shows the true settled funding exactly when it
  opens after the configured floor, the claim passes its end by the venue's lag, and no cursor is saved between
  the reading of the events and that of the cursors, which the source does at once
  (`AccountingHistory.SoundExactly`).
- A day not marked partial may miss settled funding below the floor, and trading fees besides: the mark asks
  only that the fill history reach the day's first instant (`AccountingFullDays.FullFundingExactly`,
  `FullFeesExactly`).
- `MAX_CHUNKS_PER_TICK` is 20, and a tick scans 21 chunks exactly when the head is 2,000 blocks or more past its first
  block, because the ceiling is inclusive (`Automation.AutomationRunner.ScanVaultEvents`,
  `VaultScanTheorems.TickExceedsLimit`). A failed activity write is swallowed and leaves a hole behind
  the cursor (`VaultScanTheorems.ScannedExactlyWhenKept`). One flow at a time is the work of the single
  runner, not of the database (`VaultScanTheorems.OneRunningExactlyWithOneRunner`). The hour between unbonds is
  kept by their marks; the sends lose what they lag behind (`VaultScanTheorems.SendsApartExactly`).
- Request ids stay above every last-forwarded id the venue reported exactly while those reports never fall
  (`PerplGuarantees.AboveExactlyWhenSteady`); the known account is kept by a frame only under the condition of
  `PerplGuarantees.AccountKeptExactly`; a call throws after a frame of it was accepted exactly when the socket
  is gone at the sending of a later one (`PerplGuarantees.ThrowsExactly`).

## Environment

Stated where they are used, and nowhere else:

- Crawl: the venue answers pages truthfully, identities are distinct, records of one identity agree, and a
  record is published at most `lag` after its stamp (`Crawl.Answers`, `Crawl.Publishable`).
- Pipeline: a thrown send broadcast nothing; a nonce unused at "latest" means the sends made so far under it
  never land; `confirm` throws only on a revert; `settle` does not throw after `confirm`; a lost database write
  is a crash. Each is a flag, and `FlowLandingTheorems.OnceExactlyUnderAll` shows that none can be dropped.
- End to end: two records of one log carry one timestamp. The order in which events and cursors are read, and the
  venue's lag, are parameters of the theorems.
- Scanner: the logs of a block do not change, and a log query answers completely or fails.

## Model

| member | source | states |
|---|---|---|
| `PerplHistory.NormalizeExact` | apps/be/src/services/accountingPerpl.ts:92-140 | a batch that does not throw keeps exactly the in-scope records of its rows, nested position events included: none dropped, none invented |
| `PerplAmounts.BatchWorth` | apps/be/src/services/accountingPerpl.ts:92-140 | a batch that does not throw is worth, in any window, what the raw in-scope records say: account funding is amount plus fee of the kind-8 records, position funding and results stand as they are, fees are those of fills, and nothing else counts |
| `PerplAmounts.MovementSettlesOnce` | apps/be/src/services/accountingMath.ts:22-37 | a movement reported by the account stream, the position stream, or both in either order settles its amount once |
| `PerplAmounts.OneIdentityExactly` | apps/be/src/services/accountingPerpl.ts:67-88 | two records count as one event exactly when stream, log, owner, market, position, kind and order agree |
| `PerplAmounts.NoIdentityExactly` | apps/be/src/services/accountingPerpl.ts:67-77 | a record has no stable identity exactly when it names no log, or neither a transaction hash nor a place in a block |
| `PerplHistory.SavedUnder` | apps/be/src/services/accountingStore.ts:113-126 | after a batch, an identity holds what it held before, or else one of the batch's own events under it |
| `PerplHistory.RedeliveryChangesNothing` | apps/be/src/services/accountingStore.ts:113-126 | replaying delivered records in any order and number leaves the store as it is |
| `PerplHistory.SaveOrderFree` | apps/be/src/services/accountingStore.ts:113-126 | when an identity stands for one event, delivery order does not matter |
| `Crawl.StepKeeps` | apps/be/src/services/accountingPerpl.ts:158-197 | every step of the crawl, of the feed and of the clock, and a stop anywhere, keeps the crawl's invariant |
| `Crawl.FinishStoresBelowHead` | apps/be/src/services/accountingPerpl.ts:180-194 | the page that ends a sweep leaves nothing missing from the sweep's head down to the oldest row |
| `CrawlTheorems.CrawlComplete` | apps/be/src/services/accountingPerpl.ts:158-197 | over any interleaving of feed growth, budgets, stops and crashes, every in-scope event at or below the anchor is stored, and mid-sweep every one from the pending head down to the page |
| `CrawlTheorems.CoverageHonest` | apps/be/src/services/accountingPerpl.ts:174-193 | in every reachable state every in-scope event stamped at or before `syncedThrough` is stored as the venue sent it, and the completion flag says exactly that there is a claim |
| `CrawlTheorems.StoreIsFaithful` | apps/be/src/services/accountingPerpl.ts:92-140 | nothing is invented: a stored event is what some record of the feed normalises to |
| `CrawlTheorems.NeverGoesBack` | apps/be/src/services/accountingPerpl.ts:187-193 | `syncedThrough`, `backfillComplete` and the store never go backwards |
| `CrawlTheorems.ClaimIsSweepStart` | apps/be/src/services/accountingPerpl.ts:174-193 | a sweep resumed over many ticks claims only the clock of the tick that read its newest page, and by then every row of the feed at that moment is stored |
| `CrawlClaims.SweepEndClaims` | apps/be/src/services/accountingPerpl.ts:174-194 | over every run each label that ends a sweep, the first or a later one, leaves the claim at the clock of the tick that read this sweep's newest page and the anchor at that page's newest row; no other label moves either |
| `CrawlClaims.EndsExactly` | apps/be/src/services/accountingPerpl.ts:176-188 | a saved page ends its sweep exactly when it shows the row keyed by the anchor or names no older page; otherwise the cursor names the next page |
| `CrawlClaims.ReadsAboveAnchor` | apps/be/src/services/accountingPerpl.ts:174-177 | the rows read from a page are exactly those above the first one keyed by the anchor |
| `CrawlTheorems.HonestIffVisibleByStamp` | apps/be/src/services/accountingPerpl.ts:187-190 | the claim read literally holds of every run exactly when the venue's publication lag is not positive |
| `CrawlTheorems.LatePublication` | apps/be/src/services/accountingPerpl.ts:187-190 | with a positive lag a concrete run claims a record it misses |
| `CrawlTheorems.NoFalseAlarm` | apps/be/src/services/accountingPerpl.ts:167-181 | against a venue whose pages progress the repeated-cursor guard never fires |
| `CrawlTheorems.SweepEnds` | apps/be/src/services/accountingPerpl.ts:158-197 | over any ticks, stops and crashes a sweep under way saves no more pages without ending than it had rows below it |
| `HistoryCollection.HistoryCollector.Save` | apps/be/src/services/accountingStore.ts:113-126 | a save that fails part-way keeps exactly the documents written before the failure |
| `HistoryCollection.HistoryCollector.StorePage` | apps/be/src/services/accountingPerpl.ts:170-194 | a stored page that ends the sweep claims the clock of the tick that read the sweep's newest page and anchors its newest row; any other leaves claim and anchor and names the next page; a page that is not stored leaves the cursor alone and has a reason |
| `HistoryCollection.HistoryCollector.SavePage` | apps/be/src/services/accountingPerpl.ts:178-194 | when the cursor is saved the page's whole batch is already in the store |
| `HistoryCollection.HistoryCollector.ParsePage` | apps/be/src/services/accountingPerpl.ts:172-178 | the records to save are those of the rows newer than the anchor, or the feed holds an unusable row |
| `HistoryCollection.HistoryCollector.SyncHistoryStream` | apps/be/src/services/accountingPerpl.ts:158-197 | a tick under any schedule takes only crawl steps, keeps the claim honest and never takes it back; one that ends with the sweep claims the clock of the tick that read the sweep's newest page, any other leaves claim and anchor; it ends with the sweep, with its budget and the sweep strictly lower, with the process, or for a reason the schedule gives, and no repeated-cursor error against pages that are not empty |
| `AccountingMath.SortSorts` | apps/be/src/services/accountingMath.ts:100-181 | sorting by time is ordered and loses nothing |
| `AccountingMath.SortIsStable` | apps/be/src/services/accountingMath.ts:100-181 | rows of one instant keep the order they were delivered in |
| `AccountingMath.SplitInterval` | apps/be/src/services/accountingMath.ts:39-49 | the visits cover the interval day by day, in order, each day once with its exact share |
| `AccountingMath.MirrorAddsNothing` | apps/be/src/services/accountingMath.ts:22-37 | an account row that mirrors a nonzero position row adds nothing to any window's total |
| `AccountingMath.ReconciledOrderFree` | apps/be/src/services/accountingMath.ts:22-37 | reconciled totals do not depend on the order of the rows |
| `AccountingMath.TotalSplits` | apps/be/src/services/accountingMath.ts:200-204 | settled sums of adjacent intervals add up |
| `AccountingDaily.MarkReturns` | apps/be/src/services/accountingMath.ts:100-127 | the loop over snapshots leaves each day the reading of its last snapshot against the baseline of its segment |
| `AccountingDaily.AccrueIntervals` | apps/be/src/services/accountingMath.ts:128-149 | the loop over snapshot pairs gives each day exactly its share of every accepted pair |
| `AccountingDaily.Settle` | apps/be/src/services/accountingMath.ts:150-179 | a day's settled figures are the exact raw sums of that day, and withheld where history or attribution is missing |
| `AccountingDaily.Observe` | apps/be/src/services/accountingMath.ts:181-213 | each accepted interval is booked whole to its closing day and covers every day it overlaps |
| `AccountingDaily.AccountingDaily` | apps/be/src/services/accountingMath.ts:66-230 | one row per day of the range, in order, each equal to what its day alone demands |
| `AccountingReturns.ReturnExactly` | apps/be/src/services/accountingMath.ts:100-127 | every day's row reads its last in-range snapshot: a fresh, priced one has as segment the in-range resets so far and as return its price over that of the first fresh, priced snapshot since the last reset, less one; a stale or unpriced one has neither |
| `AccountingReturns.SegmentsExactly` | apps/be/src/services/accountingMath.ts:100-127 | two days with a return share a segment exactly when no in-range reset lies between the snapshots they read |
| `AccountingRows.AmountsExactly` | apps/be/src/services/accountingMath.ts:128-149 | a day's staking estimate is the sum over neighbouring snapshots of the earlier stake grown at its rate for the time shared with the day, in dollars at the earlier price, and its capital what the fresh pairs hold over the time they cover |
| `AccountingRows.CapitalIsMean` | apps/be/src/services/accountingMath.ts:214-217 | capital in use lies between any bounds on what the counted snapshots hold |
| `AccountingRows.ObservedExactly` | apps/be/src/services/accountingMath.ts:181-228 | observed funding is the sum over neighbouring observations that may be booked of what was settled since and the change in what is open; income is both figures added; a row is partial exactly when its day is not over or a coverage or a settled figure is missing |
| `AccountingRows.SettledExactly` | apps/be/src/services/accountingMath.ts:82-90 | trading fees and realised results are shown exactly when their stream reaches the day and the floor lies before its end, and are the raw sums of the market's events of the day |
| `AccountingRows.FundingSettledExactly` | apps/be/src/services/accountingMath.ts:150-179 | settled funding is shown exactly when besides no funding of the day lacks a market, and is the reconciled sum of the day |
| `AccountingRows.DaysShareInterval` | apps/be/src/services/accountingMath.ts:39-49 | the shares the days take of an interval add up to it |
| `AccountingTheorems.CoverageWithinDay` | apps/be/src/services/accountingMath.ts:128-149 | staking, capital and funding coverage of a day are never negative and never exceed its 86,400 seconds, however snapshots and observations overlap |
| `AccountingTheorems.FullDayHasNoGap` | apps/be/src/services/accountingMath.ts:220-227 | every instant of a day not marked partial lies in an accepted snapshot interval with a recorded APY and in an accepted observation interval |
| `AccountingTheorems.ObservedFundingConserved` | apps/be/src/services/accountingMath.ts:181-213 | over all days observed funding equals, for each maximal run of accepted observations, settled funding plus last open funding minus first |
| `AccountingTheorems.IntervalsShareNoEvent` | apps/be/src/services/accountingMath.ts:200-204 | no settled event is counted in two intervals |
| `AccountingTheorems.SettledFundingConserved` | apps/be/src/services/accountingMath.ts:150-179 | reported days plus withheld days account for every reconciled payment of the range exactly once |
| `AccountingTheorems.DeliveryOrderInvisible` | apps/be/src/services/accountingMath.ts:150-213 | reordering the delivered rows changes no figure of any day |
| `AccountingTheorems.SegmentSharesBaseline` | apps/be/src/services/accountingMath.ts:100-127 | within a segment gross returns stand in the ratio of share prices |
| `AccountingHistory.ThroughIsLeast` | apps/be/src/services/accounting.ts:163-171 | the joint claim is complete for each stream and no later than any of them |
| `AccountingHistory.ThroughExactly` | apps/be/src/services/accounting.ts:163-171 | there is a joint claim exactly when each stream was read once and has finished its backfill, and it is the least of theirs |
| `AccountingHistory.SettledIsTrue` | apps/be/src/services/accounting.ts:155-172 | with crawler cursors, events and cursors read in either order, the settled sum of an interval above the floor, claimed to its end plus the venue's lag, is the reconciled funding of every event the venue will ever report for it, unless a cursor is saved between the reads |
| `AccountingHistory.AcceptedIntervalIsTrue` | apps/be/src/services/accountingMath.ts:182-205 | the same for the figure an accepted interval adds to its day |
| `AccountingHistory.SoundExactly` | apps/be/src/services/accounting.ts:157-172 | the figure of an interval the source would report is true in every reading exactly when it opens no earlier than the floor, the claim passes its end by the lag, and no cursor is saved between the reading of the events and of the cursors |
| `AccountingHistory.MissedBy` | apps/be/src/services/accountingPerpl.ts:119-119 | for each of the three, a concrete crawl whose claim covers a record that the events read lack |
| `AccountingFullDays.FullDayNeeds` | apps/be/src/services/accountingMath.ts:218-227 | a day not marked partial lies within the range, its funding is claimed past its end, its fills only to its first instant, and the floor lies before its end |
| `AccountingFullDays.FundingExactly` | apps/be/src/services/accountingMath.ts:73-82 | a day's settled funding is true in every reading exactly when the range contains the day, the floor is at or before its start, the claim passes its end by the lag and nothing is read past, or the row withholds it |
| `AccountingFullDays.FullFundingExactly` | apps/be/src/services/accountingMath.ts:218-227 | the same of days not marked partial, unless the setting has none; where it has, for a lag of at most a millisecond the floor alone decides |
| `AccountingFullDays.FeesExactly` | apps/be/src/services/accountingMath.ts:85-86 | a day's trading fees are the sum of all true fills of the day in every reading exactly under that condition on the claim of the fills |
| `AccountingFullDays.FullFeesExactly` | apps/be/src/services/accountingMath.ts:218-227 | a day not marked partial may miss a charged fee, and does not in any reading exactly when the claim of the fills passes its end by the lag, besides the floor and the reads, unless the setting has no such day |
| `FlowModel.ShapeKept` | apps/be/src/services/flowEngine.ts:179-208 | over any run the worker is on the first open step and memory never runs ahead of a write |
| `FlowTheorems.StrictOrder` | apps/be/src/services/flowEngine.ts:179-208 | every persisted document is done steps, at most one touched step, then untouched ones |
| `FlowTheorems.DoneIsFinal` | apps/be/src/services/flowEngine.ts:180-181 | a done step is never written again |
| `FlowTheorems.BroadcastIsWrittenAhead` | apps/be/src/services/flowEngine.ts:332-337 | every broadcast is of the step in hand under a nonce already in the document |
| `FlowTheorems.PipelineAmounts` | apps/be/src/services/flowEngine.ts:399-556 | the swap inputs sum to exactly `usdcIn` for every ratio, the stake and the funding equal the earlier outputs, and the short is the whole MON of the stake and no more |
| `FlowAmounts.SplitFollowsRatio` | apps/be/src/services/flowEngine.ts:399-421 | in every run the MON swap sells `usdcIn * ratioBps / 10,000` rounded down and the AUSD swap the rest, and each is skipped exactly when that is nothing |
| `FlowAmounts.HeldIsRecorded` | apps/be/src/services/flowEngine.ts:463-498 | in every run a recorded approval or deposit is of all that some attempt at that step read the manager to hold, and an approval of more than was allowed |
| `FlowAmounts.EveryOrderSized` | apps/be/src/services/flowEngine.ts:538-548 | in every run each order the venue placed is of the whole MON of the recorded stake |
| `FlowTheorems.RetryBudget` | apps/be/src/services/flowEngine.ts:194-199 | no run fails a step more than `MAX_ATTEMPTS` times, after which the only thing a tick does is end the flow as failed |
| `FlowTheorems.FailuresWithinBudget` | apps/be/src/services/flowEngine.ts:308-353 | from any document the entries to `failed` still possible are bounded by what its attempts leave |
| `FlowTheorems.ExhaustedStays` | apps/be/src/services/flowEngine.ts:194-199 | a step out of attempts is never tried again and its flow never completes |
| `FlowLimits.TriesBounded` | apps/be/src/services/flowEngine.ts:308-334 | in every run `attempts` counts the starts of a step, and they exceed the limit by no more than the attempts that left the step pending: planning throws, crashes before the write ahead, nonces found unused |
| `FlowLimits.LimitHoldsExactly` | apps/be/src/services/flowEngine.ts:194-254 | no step is started more than `MAX_ATTEMPTS` times in any run exactly when none of the three is allowed |
| `FlowLimits.TriesWithoutEnd` | apps/be/src/services/flowEngine.ts:308-322 | each of the three alone repeats: for every n a run from every new flow that buys MON starts its first step n times |
| `FlowLimits.NeverUnpinned` | apps/be/src/services/flowEngine.ts:243-246 | no run reaches a step in doubt without a nonce, so that branch is never taken |
| `FlowTheorems.SpentNeverResent` | apps/be/src/services/flowEngine.ts:243-262 | a nonce spent with no hash recorded is never broadcast again over any run; the step changes in nothing but the review mark, which the next tick of a running flow can set |
| `FlowLimits.StrandedExactly` | apps/be/src/services/flowEngine.ts:195-262 | in every run a flow that waits for a person is closed exactly when the process did not die between the review mark and the closing write; one left open is never touched again |
| `FlowLimits.ReviewCrashStrands` | apps/be/src/services/flowEngine.ts:256-262 | a run from every new flow that buys MON ends there, its swap landed |
| `FlowHedge.OrdersCounted` | apps/be/src/services/flowEngine.ts:533-576 | in every run the orders placed are exactly the one in hand or on record, one for each crash with an accepted order not yet written, and one for each answer that does not come |
| `FlowHedge.OneOrderExactly` | apps/be/src/services/flowEngine.ts:533-576 | from every new flow that buys MON the short is placed at most once in every run exactly when no accepted order may be lost to a crash and no answer may be missing |
| `FlowHedge.OrdersBoundedExactly` | apps/be/src/services/flowEngine.ts:533-576 | n bounds the orders of every run with missing answers exactly when no outcome of a request, a failure included, may be lost to a crash and n is at least `MAX_ATTEMPTS` |
| `FlowHedge.OrdersWithoutEnd` | apps/be/src/services/flowEngine.ts:548-556 | for every n a run from every new flow that buys MON places the short n times, through crashes alone |
| `FlowRecords.UnrecordedExactly` | apps/be/src/services/flowEngine.ts:225-233 | in every run a done step of any number records nothing exactly when it was finished by resolving its hash after a crash |
| `FlowRecords.SkippedExactly` | apps/be/src/services/flowEngine.ts:438-516 | in every run the stake and the funding are skipped exactly when the swap before them was so resolved, had nothing to sell, or put out nothing |
| `FlowRecords.UnhedgedExactly` | apps/be/src/services/flowEngine.ts:522-531 | in every run no hedge is placed once the stake or the MON swap was so resolved or there is no MON, and a completed flow has none only then |
| `FlowRecords.StakedUnhedged` | apps/be/src/services/flowEngine.ts:225-233 | a run from every new flow that buys MON, for every amount bought, lands the stake, completes and never orders a hedge |
| `FlowRecords.BoughtButUnrecorded` | apps/be/src/services/flowEngine.ts:225-233 | either swap can land and leave no record, with the next step about to start |
| `FlowLandings.StepKeeps` | apps/be/src/services/flowEngine.ts:225-353 | every label keeps the count of transactions of a step that landed or still can within what its attempts and recorded hash allow |
| `FlowLandingTheorems.OnceWithoutOldHash` | apps/be/src/services/flowEngine.ts:225-353 | over every crash schedule a step whose broadcasts all start with no recorded hash succeeds on chain at most once |
| `FlowLandingTheorems.OnceExactlyUnderAll` | apps/be/src/services/txRunner.ts:30-81 | at most once over runs without reverts holds under all five assumptions and under no fewer |
| `FlowLandingTheorems.AtMostFour` | apps/be/src/services/flowEngine.ts:225-353 | whatever is mined, reverted or lost, no step succeeds more than four times |
| `FlowLandingTheorems.FourReached` | apps/be/src/services/flowEngine.ts:332-338 | four is reached: one revert, then every remaining attempt lands and is judged by the reverted hash |
| `FlowLandingTheorems.OnceExactlyWhenSpent` | apps/be/src/services/flowEngine.ts:225-353 | in every state a run reaches, a step about to be tried lands at most once, earlier landings included, exactly when nothing of it has landed or still can and its attempts are nearly spent: three used if it holds no hash, four if it holds one |
| `FlowExecution.FlowEngine.PatchStep` | apps/be/src/services/flowEngine.ts:149-158 | one write of one step, atomically, and one step of the protocol |
| `FlowExecution.FlowEngine.ResolveByNonce` | apps/be/src/services/flowEngine.ts:243-262 | an interrupted step without a hash goes to review exactly when its nonce is spent, and is pending again otherwise; review closes the flow unless the process dies first |
| `FlowExecution.FlowEngine.ResolveByHash` | apps/be/src/services/flowEngine.ts:226-240 | an interrupted step with a hash is done exactly if that transaction landed and failed exactly if it reverted, and nothing else of it changes |
| `FlowExecution.FlowEngine.SendStep` | apps/be/src/services/flowEngine.ts:332-353 | an attempt writes the nonce, sends at most one transaction, of this step and under that nonce, and what the document then says of it is what became of it on chain, await by await |
| `FlowExecution.FlowEngine.RunOpenShort` | apps/be/src/services/flowEngine.ts:522-576 | the hedge orders the whole MON of the stake once or not at all, is done exactly when the order was accepted and recorded, and sends no chain transaction |
| `FlowExecution.FlowEngine.Fail` | apps/be/src/services/flowEngine.ts:348-353 | the error path fails the step, and with it the flow exactly once the attempts are spent, unless the process dies in between; nothing else of the document changes |
| `FlowExecution.FlowEngine.Advance` | apps/be/src/services/flowEngine.ts:179-208 | what a tick does to the whole document and to the chain is settled, case by case, by the state it finds and by what its awaits bring: the plan, the throw and the order's answer are those of the await they belong to, and the flow is closed exactly on the last failure or a review; it broadcasts at most once and keeps the order and the bound on landings |
| `VaultScanTheorems.ScanComplete` | apps/be/src/services/automationRunner.ts:62-122 | over any ticks, crashes and head movement every vault log from the first scanned block to the cursor has exactly one document; where no two logs share an identity, documents and logs match one to one |
| `VaultScanTheorems.ScannedExactlyWhenKept` | apps/be/src/services/automationStore.ts:73-88 | that claim holds of every run exactly when no activity write is lost |
| `VaultScanTheorems.OriginNeverMoves` | apps/be/src/services/automationRunner.ts:64-70 | with one runner the first scanned block is fixed by the first cursor write |
| `VaultScanTheorems.TickExceedsLimit` | apps/be/src/services/automationRunner.ts:72-86 | a run in which one tick scans 21 chunks, one more than the limit |
| `VaultScanTheorems.TriggersOnce` | apps/be/src/services/flowEngine.ts:109-122 | with any number of runners and crashes no two flows have one key, and none allocates less than the configured minimum or one dollar |
| `VaultWindows.OneFlowPerTrigger` | apps/be/src/services/automationRunner.ts:141-153 | over every run of any number of runners no two flows are started for one deposit or for checks of one period, 12 or 24 hours, whose clocks lie in one stretch of it; two checks want one key exactly in that case; every flow has one such cause |
| `VaultScanTheorems.OneRunningExactlyWithOneRunner` | apps/be/src/services/automationRunner.ts:109-153 | at most one flow is running in every run exactly when there is at most one runner |
| `VaultScanTheorems.UnbondsSpaced` | apps/be/src/services/automationRunner.ts:178-215 | at most one unbond is sent per mark, after it, and marks are at least an hour apart, across crashes |
| `VaultScanTheorems.SendsApartExactly` | apps/be/src/services/automationRunner.ts:190-215 | when each send follows its mark within `delay`, any two sends of every run are `gap` apart exactly when `gap` is nothing or `gap` and `delay` together are at most the hour |
| `Automation.AutomationRunner.StartFlow` | apps/be/src/services/flowEngine.ts:116-122 | a taken key changes nothing, a new one adds one running flow |
| `Automation.AutomationRunner.Consider` | apps/be/src/services/automationRunner.ts:96-117 | a deposit adds a flow exactly when the automation is on and triggered by deposits, the idle USDC read in that await reaches the configured minimum and one dollar, nothing is running and the deposit has none yet; only a death in that await prevents the decision |
| `Automation.AutomationRunner.RunPeriodic` | apps/be/src/services/automationRunner.ts:141-153 | the same for the stretch of the configured period in which the clock lies after the await: the key names that period and that stretch |
| `Automation.AutomationRunner.WatchLiquidationBuffer` | apps/be/src/services/automationRunner.ts:160-233 | a mark is written exactly when the buffer is low, the last mark is an hour old and there is a stake and a wallet and validator to unbond it with; an unbond follows it exactly when the process lives and the send does not throw |
| `Automation.AutomationRunner.ScanVaultEvents` | apps/be/src/services/automationRunner.ts:62-122 | an uninterrupted scan moves the cursor to the head or 2,000 blocks past its start, in chunks that tile that stretch; they are more than `MAX_CHUNKS_PER_TICK`, namely 21, exactly when the head is that far |
| `Automation.AutomationRunner.Tick` | apps/be/src/services/automationRunner.ts:256-278 | a tick under any schedule keeps the scan's claim, one flow per trigger, one running flow, spaced unbonds and a fixed origin; one that gets through has caught up with the head, and it stops short only where the process dies |
| `BlockRanges.TilesHold` | apps/be/src/services/vaultIndex.ts:86-97 | a block of a tiled stretch lies in a range exactly if it lies in the stretch, and ranges do not overlap |
| `VaultIndexing.AgreesGrows` | apps/be/src/services/vaultIndex.ts:99-107 | applying the logs of the next blocks extends agreement with a naive scan to them |
| `VaultIndexing.VaultIndexer.Window` | apps/be/src/services/vaultIndex.ts:92-97 | a window is at most eight consecutive ranges of at most 100 blocks, without gap or overlap, ending at the head or 800 blocks on |
| `VaultIndexing.VaultIndexer.FetchRange` | apps/be/src/services/vaultIndex.ts:69-84 | a query fails exactly after six failed tries |
| `VaultIndexing.VaultIndexer.FetchWindow` | apps/be/src/services/vaultIndex.ts:98-99 | a window's logs are all those of its stretch, or none when any chunk fails |
| `VaultIndexing.VaultIndexer.Load` | apps/be/src/services/vaultIndex.ts:37-54 | a reload, from a cache of any age or none, agrees with a naive scan of what it claims |
| `VaultIndexing.VaultIndexer.Sync` | apps/be/src/services/vaultIndex.ts:86-115 | at every return holders and validators, in memory and on disk, equal those of a naive scan of what they claim; it succeeds exactly when the process lives through every window, every chunk comes in and every save is written, and short of that applies whole windows only |
| `Decimals.ScaleExact` | apps/be/src/services/perplOrders.ts:57-65 | text is accepted exactly when it is a decimal whose value times 10^d is an integer, and that integer is the answer |
| `Decimals.ScaleOfUnscale` | apps/be/src/services/perplOrders.ts:57-74 | printing and reading back gives the same integer; a negative one prints as text that is refused |
| `Decimals.UnscaleOfScale` | apps/be/src/services/perplOrders.ts:57-74 | reading and printing keeps the value and leaves no trailing zeros |
| `PerplGuarantees.SettledExactlyOnce` | apps/be/src/services/perplSession.ts:315-362 | under any interleaving of acknowledgements, duplicates, timers and calls, a frame's wait ends at most once, and once its timer ran, exactly once |
| `PerplGuarantees.AwaitingEmpties` | apps/be/src/services/perplSession.ts:351-362 | nothing is awaited once every timer has run |
| `PerplGuarantees.ResultsMatchPrefix` | apps/be/src/services/perplSession.ts:348-370 | results match a prefix of the call's frames, all but the last accepted; a call that returned stopped at its first refusal or its last frame |
| `PerplGuarantees.TimeEndsEveryCall` | apps/be/src/services/perplSession.ts:349-370 | from every state the timer alone moves an open call on |
| `PerplGuarantees.AcceptedWasAcknowledged` | apps/be/src/services/perplSession.ts:315-328 | no frame is reported accepted unless the venue acknowledged that number with code 0 |
| `PerplAnswers.OutcomeExactly` | apps/be/src/services/perplSession.ts:315-370 | over every run a frame sent at any point comes to whatever arrives for it first: the acknowledgement of its number, accepted exactly under code 0, or its own timer; nothing before, nothing after changes it |
| `PerplAnswers.ResultsAreOutcomes` | apps/be/src/services/perplSession.ts:348-370 | the k-th result a call collects is what the one wait of its k-th frame came to |
| `PerplGuarantees.MayStartExactly` | apps/be/src/services/perplSession.ts:337-346 | after any run a call may start exactly when, of what the session was told last, the socket is up and has signed in, forwarding is not off and an account was named |
| `PerplGuarantees.NeverStuckExactly` | apps/be/src/services/perplSession.ts:351-362 | no wait of any run is stuck exactly because callers number their frames from the session's counter: were other numbers allowed, two calls could share one and the first would hang |
| `PerplGuarantees.StuckForever` | apps/be/src/services/perplSession.ts:315-362 | no later event ends an overwritten wait, nor resumes the call that waits |
| `PerplGuarantees.ThrowsExactly` | apps/be/src/services/perplSession.ts:348-369 | over every run a call ends in an exception with frames of it accepted exactly when the socket was gone at the sending of a later frame |
| `PerplGuarantees.AcceptedThenThrown` | apps/be/src/services/perplSession.ts:348-369 | a run from a fresh session in which that happens |
| `PerplGuarantees.RequestIdsIncrease` | apps/be/src/services/perplSession.ts:304-307 | request ids strictly increase over any run |
| `PerplGuarantees.AboveExactlyWhenSteady` | apps/be/src/services/perplSession.ts:287-307 | the next id is above everything reported, in every run, exactly when no positive report is followed by a smaller one |
| `PerplGuarantees.AccountKeptExactly` | apps/be/src/services/perplSession.ts:274-288 | a frame keeps the known account exactly when it has a row for it or its first row names none |
| `PerplTrading.AcceptableExactly` | apps/be/src/services/perplOrders.ts:117-177 | a request is placeable exactly when the market is open, its size is a positive whole number of units, its leverage positive and its prices whole numbers of ticks, none beyond the largest exact integer of a double; stated in the values the texts stand for |
| `PerplTrading.PerplSession.OpenShortFrames` | apps/be/src/services/perplOrders.ts:130-177 | frames are built exactly for placeable requests: one entry, then stop above and target below at exactly the scaled prices, same size throughout, numbers drawn fresh from the session |
| `PerplTrading.PerplSession.Submit` | apps/be/src/services/perplSession.ts:337-348 | a call starts exactly when connected, forwarding is not off and the account is known |
| `PerplTrading.PerplSession.PlaceShort` | apps/be/src/services/flowEngine.ts:543-548 | an order built from the session's counters keeps every guarantee of the protocol |
| `PerplTrading.PerplSession.Settle` | apps/be/src/services/perplSession.ts:315-328 | an acknowledgement ends the wait filed under its number and no other |
| `PerplTrading.PerplSession.OnTimer` | apps/be/src/services/perplSession.ts:353-361 | a timer ends its own wait only while something is filed under its number |
| `KeeperPlan.NeverLapsesExactly` | apps/be/src/services/keeperPlan.ts:77-79 | with a fresh book at each tick and every report landing, the mark never lapses exactly when the tick gap and the landing delay together are at most half the limit and a second |
| `KeeperPlan.SlowestRun` | apps/be/src/services/keeperPlan.ts:77-79 | beyond that bound a concrete run lapses |
| `KeeperPlan.MovementIsRateLimited` | apps/be/src/services/keeperPlan.ts:81-91 | over any run, reports made for movement alone take at least `minRemarkSec` each |
| `KeeperPlan.MarkComesFromBook` | apps/be/src/services/keeperPlan.ts:42-91 | after any run of ticks the mark is the first one or, of the whole band, the value closest to a book that was fresh when a tick of the run reported it, and each report that is not its book warns |
| `KeeperPlan.DecisionExactly` | apps/be/src/services/keeperPlan.ts:42-91 | a report is made exactly when something is deployed, the book is fresh and the mark has lapsed, is half-way there, or is old enough to move and further from the closest value of the band than the given share of what is deployed; it is of that value, for that reason |
| `VaultHistory.PartitionUnique` | apps/fe/src/lib/vaultHistory.ts:142-187 | given the points, the runs are determined |
| `VaultHistory.ReturnRuns` | apps/fe/src/lib/vaultHistory.ts:173-187 | runs hold exactly the recorded returns in order, break exactly where a day is missing or the segment changes |
| `VaultHistory.DrawnReturnsComparable` | apps/fe/src/lib/vaultHistory.ts:173-187 | inside a run `(100 + r_i) / (100 + r_j)` is the ratio of the two days' share prices |
| `VaultHistory.IndexRuns` | apps/fe/src/lib/vaultHistory.ts:142-165 | strategy and income runs hold exactly the present points in order and break exactly at gaps |
| `VaultHistory.CumulativeIncome` | apps/fe/src/lib/vaultHistory.ts:78-94 | a point is the sum of everything recorded so far, partial as soon as any day so far is missing or not fully covered |
| `VaultHistory.StrategyReturn` | apps/fe/src/lib/vaultHistory.ts:115-140 | a point is income to date over the capital from the first day with any component, partial from the first gap since |
| `VaultHistory.ViewsAgree` | apps/fe/src/lib/vaultHistory.ts:78-140 | while nothing is missing the strategy return is the cumulative income over the capital |
| `VaultHistory.SettledBefore` | apps/fe/src/lib/vaultHistory.ts:43-57 | it reports exactly the settled funding and fees of the days left off the axis |
| `VaultHistory.TrimConserves` | apps/fe/src/lib/vaultHistory.ts:33-57 | trimming hides no reading, and the hidden settled funding and fees plus the shown ones are the whole |

## Left out

- Floating point: dollar figures are reals and raw amounts integers, so rounding is not modelled; the growth
  formula of a staking estimate is an uninterpreted function of rate and time.
- Times are integer milliseconds (seconds for the keeper); the source's ISO strings compare the same way.
- Hashing: an event identity is the record of its fields, that is, an injective key.
- A database read and the write that follows from it are one step when nothing of the same worker lies
  between; a second process on the database is modelled for the scanner only.
- The chain: gas, replacement transactions and reorganisations; a transaction lands or reverts with any output.
- A throw while the nonce is pinned counts as a crash there: both leave the step pending and the worker idle.
- Retries inside the RPC client, timeouts of `confirm` (an assumption rules them out) and log output.
- Venue and wallet reads of a plan are arbitrary values; `formatUnits(staked, 18)` is integer division.
- `AccountingCollector.tick`, wallet binding, `collectFundingObservation` and the vault snapshot: single calls
  that only feed the records modelled here.
- The session's socket reconnection, heartbeats, balances and positions: nothing of the protocol depends on them.
- `closeShortFrame`, `describePosition`, hedge and yield formulas, formatting and every React component: easy members.
- PerplTrading.PerplSession.SendNext: one frame per call of the method, where the source waits in one async
  loop; the interleavings of several calls are those of the label machine.
