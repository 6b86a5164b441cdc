# Verified model of the benchmark pipelines

The repository runs long, resumable comparisons of two forecasting models (FinCast and Chronos-2) on
minute and second candles, decides by gates which model configurations are worth a full run, scores the
results, and hands them to a trading-policy audit written in another language. This project models the
parts whose correctness is not visible in any single function and proves them with Dafny 4.11.
`dafny verify dfyconfig.toml` checks everything.

What is modelled, one module per component:

- **Crash-safe logs and runs.** `JsonLines` models the two readers of append-only JSON-lines files (Python
  and TypeScript), `RecoverableLog` what an appending, crashing and restarting writer can leave behind,
  `ResumableRun` the runner of one combination with its checkpoint cursor as a transition system and as a
  class over the run directory, `RustCache` the keyed evidence cache with its in-place rewrite,
  `OrderedBatches` the bounded concurrency that feeds it, and `BatchInference` one model batch with its two
  dictionaries. JSON encoding is a parameter constrained only by: decoding inverts encoding, no proper
  piece of a line decodes, and nothing decodes once another object is glued behind a piece. An encoded record
  may hold any character at which `splitlines` breaks, save the line feed. SHA-256 over task keys is taken to
  be injective.
- **Incremental forms against direct ones.** `Trading` and `TradingAccumulators` hold the online
  accumulator and the sort-and-group batch function, `TradingOrder` what the order of the plan does to
  their figures, `EquityCurve` compounding and drawdown, `RollingVolatility` prefix sums and the warmed
  feature cache, `CausalFeatures` context slicing, regimes and baselines.
- **Screening.** `ScreeningGates` holds every gate and trigger, `ScreeningRun` the pass over the experiment
  graph and the decision phase that recomputes the gates from the files.
- **Statistics and artifacts.** `QuantileCdf`, `Scoring`, `Holm`, `Scanner`, `StableSort` and `Sequences`;
  `Chunks` assembles prediction chunks in any order, `FincastInput`, `ChunkNames`, `JsonValues` and
  `PolicyConversion` take an artifact from the Python converter to the TypeScript loader,
  `ConversionExamples` holds runs on which the two agree and differ, and `ChunkLoaders` compares that loader
  with the assembler.
- **Qualification state.** `QualificationState` is the locked state file as a multi-process state machine.

Floats are exact reals; `None`, NaN and infinities are `Option` values where the code tests for them.
`log`, `log1p`, square root, the Sharpe ratio of a list of returns, the Brier score, the regime classifier,
SHA-256, the sizes of written JSON documents and the workers are parameters. Code that updates things step by
step is modelled by methods and classes, each proved equal to a specification function; the lemmas are about
those functions.

What the proofs found about the code, each stated as a lemma, with its exact condition where it does not
always happen:

- After a crash inside an append the Python runner appends behind the torn bytes. The run that does so still
  finishes with the right records in memory, but the log it leaves is rejected from then on; every plan has
  such a run (`TornRunFinishesUnreadable`). So a restart either rejects or resumes behind an exact prefix of
  the plan; it does not always make progress (`BatchReadableIff`, `AppendReadableIffUntorn`).
- `read_jsonl` splits at every character that `splitlines` knows, and `json.dumps` writes three of them
  (U+0085, U+2028, U+2029) unescaped. An undamaged log is rejected if and only if a record holds one
  (`LogReadableIffOneLine`). The rejection is all that happens: with such records too a restart resumes behind
  an exact prefix or rejects (`RecoveryIsExactPrefixOrRejection`).
- `atomicJsonLines` is not atomic: it truncates and rewrites in place. Over all histories of runs and crashes
  the evidence cache recovers to a prefix of the task list or is rejected if and only if the plan lists its
  tasks in the order of the sorted file; otherwise one first run, killed inside its rewrite, leaves a gap
  (`EveryHistoryResumableIff`, `DisorderLeavesGap`).
- For the plans of the runner (every origin for both symbols) the accumulator reports the figures of the batch
  function for every content of the records exactly when the origins ascend (`FiguresAgreeIffAscending`).
  `screening_origins` lists origins by regime. A task that comes behind a later trade of its symbol is dropped
  by the accumulator and traded by the batch function, so partial metrics shown while screening can differ
  from the final ones in the number of trades and the net return.
- The common gate is monotone in the overall figures but not in the windows: one more improved window turns
  a candidate that was borderline without any improved window into an excluded one (`ExtraWindowHurtsIff`,
  with two such candidates in `BetterWindowExcludes`).
- A repeated instrument key in a batch makes the runner fall back to positions, and a permuted response is
  then filed under the wrong tasks, unless no two answers differ (`EveryOrderSafeIff`).
- Mean WIS is twice mean pinball loss, so the second selection key can only separate losses strictly between
  5e-16 and 1e-12 (`SecondKeySeparatesIff`).
- What the converter accepts, the TypeScript loader rejects exactly in these cases: the batch size is negative
  or not a safe integer; there are at least 10^10 rows, whose numbers do not fit the ten digits of a chunk
  name; a NaN or an infinity, which Python reads and writes as JSON, is handed on in the provenance, the input
  profile, a latency or a telemetry field; a written document exceeds four megabytes; or the loader rejects
  the FinCast input itself (`RoundTripIff`), for its duration, a negative model seed, a file name with a
  capital letter, a size other than 512 context bars a row, or an origin line without a symbol or with fewer
  than sixty future timestamps (`LoaderTakesIff`). `RoundTripsDiffer` gives one run that goes through and
  three that do not.
- Volatility baselines depend on earlier origins only, if and only if no later origin is listed before an
  earlier one; the function does not sort, unlike the one for regimes (`BaselinesAreCausalIff`).
- The two CDF readers differ exactly at a value that several quantiles share (`LoopAgreesIffOffPlateau`).
- The endpoint check of the core cache lets a gap pass exactly when bars are less than a minute apart
  (`EndpointCheckIff`, `UnevenPasses`).
- `finish` leaves a running step running with no active step naming it (`FinishLeavesStepRunning`).

One more finding is read off the source and is no lemma: the steps of a full model comparison cannot be built.
One call of `step` lacks an argument (`scripts/chronos2-qualification-state.py:299-307`), so `init` raises in
that mode, and the model has no steps for it.

## Model

| member | source | states |
|---|---|---|
| `JsonLines.ReadJsonl` | scripts/cadence-context-3w.py:1424-1435 | the reader splits at every character that `splitlines` knows, drops the last line of a file that does not end with a line feed, returns the other lines decoded, and rejects on a line that does not decode |
| `JsonLines.ParseRecoverableJsonLines` | scripts/high-vol-rust-concurrency.ts:42-57 | the loop tolerates a decoding failure only on the final non-empty line and rejects on any earlier one |
| `JsonLines.FinalNonEmptyIndex` | scripts/high-vol-rust-concurrency.ts:43-47 | finds the last line that is not blank, or -1 |
| `JsonLines.ReadTorn` | scripts/cadence-context-3w.py:1427-1431 | the Python reader drops an unterminated tail and sees exactly the lines before it, unless one of them or the inside of the tail holds a further line separator; then it rejects the file |
| `JsonLines.ReadPoisoned` | scripts/cadence-context-3w.py:1427-1435 | a complete line of two or more glued pieces is rejected wherever `splitlines` cuts it, and no later append makes the file readable again |
| `JsonLines.ReadGrows` | scripts/cadence-context-3w.py:1424-1435 | whatever is appended to any file, the reader goes on seeing what it saw, in front, or rejects |
| `JsonLines.AppendClean` | scripts/cadence-context-3w.py:1438-1453 | any prefix of an append to a well-ended file leaves whole old and new lines and at most one proper piece |
| `JsonLines.AppendBehindTear` | scripts/cadence-context-3w.py:1438-1453 | an append behind a torn tail only lengthens the tail or poisons the file |
| `JsonLines.AppendReadableIffUntorn` | scripts/cadence-context-3w.py:1424-1453 | after a whole append the reader sees the old and the new records if the file had no torn tail and no record holds a further line separator, and rejects otherwise |
| `JsonLines.LogReadableIffOneLine` | scripts/cadence-context-3w.py:1424-1453 | a log of whole lines is read back entirely if no line holds a further line separator, and rejected otherwise |
| `JsonLines.FaithfulCodecExists` | scripts/cadence-context-3w.py:1445-1450 | the assumptions on the line encoding can be met for a type with infinitely many records, by lines without further separators and by lines that are full of them |
| `RecoverableLog.RecoveryIsGoodOrRejection` | scripts/high-vol-rust-concurrency.ts:40-57 | on any file that satisfies the invariant of appends and rewrites, recovery rejects or returns records that the writer meant; every history of the cache keeps that invariant (`RustCache.EveryHistoryKeepsTasks`) |
| `RecoverableLog.AppendKeepsInv` | scripts/high-vol-stack-backtest.ts:1233-1243 | every prefix of an append keeps the file recoverable, and a whole one keeps writer and file in step |
| `ResumableRun.CheckpointAcceptedIff` | scripts/cadence-context-3w.py:1849-1890 | a cursor is accepted exactly by the plans that have its id and its completed prefix |
| `ResumableRun.LegacyAcceptedIff` | scripts/cadence-context-3w.py:1859-1890 | a key-list checkpoint is accepted if and only if its keys are those of a prefix of the plan |
| `ResumableRun.LegacyCompletedCount` | scripts/cadence-context-3w.py:1874-1890 | the loop over a key-list checkpoint computes the length of the longest covered prefix |
| `ResumableRun.CompletedTaskCountFromRecords` | scripts/cadence-context-3w.py:1921-1953 | the group-by-group loop accepts exactly whole record groups of a plan prefix, in order, with the four horizons, and counts them |
| `ResumableRun.RecoveryIsExactPrefixOrRejection` | scripts/cadence-context-3w.py:2163-2207 | wherever a run from an empty directory stops, a restart skips a finished plan, or resumes behind exactly the first record groups of the plan and never behind the cursor, or rejects a log that holds a glued line, a further separator or part of a record group |
| `ResumableRun.FinishedRunHoldsWholePlan` | scripts/cadence-context-3w.py:2395-2411 | a run that finishes holds every task of the plan exactly once and in order, and so does its log if it can be read |
| `ResumableRun.ReadableRecordsOnlyGrow` | scripts/cadence-context-3w.py:2163-2207 | over any run, from any directory and with any encoding, a later reader sees an extension of what an earlier one saw, and a rejected log stays rejected |
| `ResumableRun.BatchReadableIff` | scripts/cadence-context-3w.py:2395-2411 | a batch can be read after its append if and only if the log could be read and ended with a line break and no record of the batch holds a further line separator |
| `ResumableRun.TornRunFinishesUnreadable` | scripts/cadence-context-3w.py:2163-2411 | every plan has a run from an empty directory (start, torn append, start, append, cursor, summary) that ends with the whole plan in its summary and a log that is rejected |
| `ResumableRun.BatchReaches` | scripts/cadence-context-3w.py:2395-2411 | every way one pass of the batch loop can end is a run of the transition system |
| `ResumableRun.RunDirectory.LoadProgress` | scripts/cadence-context-3w.py:2163-2207 | what a start checks decides exactly as the restart function of the transition system |
| `ResumableRun.RunDirectory.RunBatch` | scripts/cadence-context-3w.py:2395-2411 | append, then replace the cursor: the directory is left in one of four states, one per crash point |
| `ResumableRun.RunDirectory.RunCombination` | scripts/cadence-context-3w.py:2146-2497 | an invocation that may die anywhere only makes moves of the transition system; it rejects or skips without touching the directory |
| `BatchInference.RunTaskBatch` | scripts/cadence-context-3w.py:2296-2400 | the two dictionaries compute the records of the batch, or the error the code raises |
| `BatchInference.RunPendingBatches` | scripts/cadence-context-3w.py:2244-2411 | the loop over batches concatenates the batches and stops at the first failure |
| `BatchInference.BatchIsOneByOne` | scripts/cadence-context-3w.py:2296-2400 | with distinct keys and a deterministic worker a batch succeeds exactly when every task would alone, with the same records, for every order of the response and every place of unavailable tasks |
| `BatchInference.BatchesAreOneByOne` | scripts/cadence-context-3w.py:1990-1997 | the records of a run do not depend on the batch size |
| `BatchInference.EveryOrderSafeIff` | scripts/cadence-context-3w.py:2350-2372 | the response dictionary is right for every order exactly when keys are distinct or no two answers differ |
| `BatchInference.OneByOneIsGroups` | scripts/cadence-context-3w.py:2394-2400 | the records of a batch run are the record groups that the resumable run logs and validates |
| `Trading.OnlineEqualsBatch` | scripts/cadence-context-3w.py:1531-1656 | fed whole tasks in nondecreasing origin order, under any split into calls, the online accumulator ends with the ledger of the sort-and-group function |
| `TradingOrder.FiguresAgreeIffAscending` | scripts/cadence-context-3w.py:1609-1765 | for plans of every origin for both symbols, with the four records that the runner logs for each task: all reported figures of the accumulator equal those of the batch function for every content if and only if the origins ascend |
| `TradingOrder.OnlineEqualsBatchIffAscending` | scripts/cadence-context-3w.py:1670-1765 | for any plan the two keep the same ledger, the ordered lists of returns included, for every content if and only if the plan is in nondecreasing origin order |
| `TradingOrder.SameSymbolTrades` | scripts/cadence-context-3w.py:1531-1607 | of two tasks of one symbol in the wrong order the accumulator trades the first and drops the other, while the batch function trades the earlier one and then the later one if the symbol is free again |
| `Trading.OnePassIsTwoPass` | scripts/cadence-context-3w.py:1531-1607 | posting trades one by one gives the book that trading first and compounding afterwards gives |
| `Trading.LateTasksAreDropped` | scripts/cadence-context-3w.py:1531-1545 | tasks that arrive behind a later trade of their symbol leave no trace in the online ledger |
| `Trading.TradesNeverOverlap` | scripts/cadence-context-3w.py:1545-1607 | the holding intervals of one symbol never overlap, in whatever order groups arrive |
| `Trading.TradesPayCosts` | scripts/cadence-context-3w.py:1546-1600 | no trade nets more than it grosses when costs are not negative |
| `Trading.LedgerMeaning` | scripts/cadence-context-3w.py:1609-1636 | the reported drawdown is the largest relative loss between two times, and net equity stays below gross equity |
| `Trading.FindBest` | scripts/cadence-context-3w.py:1552-1585 | the scan returns a proposal that no other beats and no earlier one equals, or nothing if no record proposes |
| `Trading.DecisionMeaning` | scripts/cadence-context-3w.py:1531-1600 | a decision is right if and only if it is no trade for a busy symbol or without a proposal, and else the side, horizon and threshold of the first highest proposal at the prices of the first record with its horizon |
| `TradingAccumulators.DecideTask` | scripts/cadence-context-3w.py:1531-1600 | a busy symbol or no proposal means no trade; otherwise the trade takes the first highest proposal, is priced from next bar to target of its horizon, and nets its gross return minus its threshold |
| `TradingAccumulators.OnlineTradingAccumulator.PostTrade` | scripts/cadence-context-3w.py:1586-1607 | one trade updates returns, equity, peak, drawdown, wins, holding and turnover as the ledger says |
| `TradingAccumulators.OnlineTradingAccumulator.AddTask` | scripts/cadence-context-3w.py:1531-1607 | one task moves the accumulator as the one-pass specification does |
| `TradingAccumulators.PartialMetricsAccumulator.Add` | scripts/cadence-context-3w.py:1646-1656 | one call groups its records by task and feeds the groups in first-seen order |
| `TradingAccumulators.TradingMetrics` | scripts/cadence-context-3w.py:1670-1765 | the batch function computes the ledger of the groups sorted by origin |
| `EquityCurve.DrawdownIsMaximumLoss` | scripts/cadence-context-3w.py:1739-1747 | the one-pass drawdown is the maximum of (E_i - E_j) / E_i over all i <= j when no return is below minus one |
| `EquityCurve.DrawdownLawIffSolvent` | scripts/cadence-context-3w.py:1739-1747 | a next return keeps that law after every solvent history if and only if it is at least minus one |
| `EquityCurve.NetBelowGross` | scripts/cadence-context-3w.py:1739-1747 | net equity never exceeds gross equity for non-negative costs and net returns of at least minus one |
| `EquityCurve.ReturnState.Update` | scripts/compare-fincast-p40-policy-regression.ts:1319-1347 | one period adds its mean gross and net return, counts executions and wins, and moves equity, peak and drawdown |
| `EquityCurve.MeanShifted` | scripts/compare-fincast-p40-policy-regression.ts:1319-1347 | charging every execution the round-trip cost charges the period mean exactly once |
| `QuantileCdf.CdfProbability` | scripts/compare-fincast-p40-policy-regression.ts:627-638 | the search loop computes the interpolated distribution at a value |
| `QuantileCdf.ProbabilityUpMonotone` | scripts/analyze-chronos2-context-windows.py:208-224 | the reported probability lies in [0,1] and does not grow with the threshold |
| `QuantileCdf.TailClampedCdfMonotone` | worker/ai/src/portfolio_ai_worker/cadence_benchmark.py:312-336 | the distribution is monotone and stays between the outermost probabilities even for crossing quantiles |
| `QuantileCdf.LoopCdfMonotone` | scripts/compare-fincast-p40-policy-regression.ts:627-638 | the loop's distribution lies in [0,1] and does not fall |
| `QuantileCdf.LoopAgreesIffOffPlateau` | scripts/compare-fincast-p40-policy-regression.ts:627-638 | both readers agree except inside a plateau, where the loop returns the lowest of the shared probabilities |
| `QuantileCdf.ProjectionIffPositive` | scripts/compare-fincast-p40-policy-regression.ts:607-625 | ordered deciles project if and only if the lowest is positive, and then to a usable grid |
| `ScreeningGates.BetterFiguresNeverHurt` | scripts/cadence-context-3w.py:2957-3192 | better overall figures with everything else equal never lower the decision of any of the three gates |
| `ScreeningGates.ExtraWindowHurtsIff` | scripts/cadence-context-3w.py:3036-3075 | in the cascade on the evidence, one more improved window lowers the common decision exactly for a borderline candidate without improved windows |
| `ScreeningGates.BetterWindowExcludes` | scripts/cadence-context-3w.py:2774-3075 | two summaries that differ only in one window, where the second is better, of which the first is borderline and the second excluded |
| `ScreeningGates.NothingImprovedExcludes` | scripts/cadence-context-3w.py:2957-3083 | without one improved figure the common gate excludes |
| `ScreeningGates.SpecialGatesTighten` | scripts/cadence-context-3w.py:3086-3192 | an 8192 pass implies a common pass, a five-second pass a common non-exclusion, and neither special gate is ever borderline |
| `ScreeningGates.GatesNeedBothSides` | scripts/cadence-context-3w.py:2957-2975 | no gate includes anything unless both sides ran |
| `ScreeningGates.EqualNeverImproves` | scripts/cadence-context-3w.py:2774-2954 | a combination compared with an equal one is excluded by every gate and is not materially better |
| `ScreeningRun.InputsComeFirst` | scripts/cadence-context-3w.py:153-175 | every comparator and dependency of a combination comes before it in the pass |
| `ScreeningRun.GateFrame` | scripts/cadence-context-3w.py:3195-3251 | a gate depends on the candidate and its comparators only |
| `ScreeningRun.TriggerFrame` | scripts/cadence-context-3w.py:3320-3478 | a trigger depends only on combinations that the pass has left behind |
| `ScreeningRun.Settled` | scripts/cadence-context-3w.py:4062-4168 | once the pass has gone by a combination its metrics, gate and status do not change |
| `ScreeningRun.GatesReplay` | scripts/cadence-context-3w.py:3604-3630 | the gate stored during screening is the gate recomputed from the final metrics and statuses |
| `ScreeningRun.SelectedIsClosed` | scripts/cadence-context-3w.py:3320-3478 | over every run, outcome and leftover, each selected combination has its dependencies selected |
| `ScreeningRun.SelectedIsNeverStatic` | scripts/cadence-context-3w.py:3570-3577 | no statically excluded or follow-up combination is ever selected |
| `ScreeningRun.DecisionsAloneAreNotClosed` | scripts/cadence-context-3w.py:3522-3654 | on files that no pass writes the decision phase alone can select a combination without its dependency |
| `ScreeningRun.BuildScreeningDecisions` | scripts/cadence-context-3w.py:3522-3654 | every combination of the matrix gets exactly one verdict and each included one is listed once |
| `ScreeningRun.RestartForgets` | scripts/cadence-context-3w.py:3950-4168 | a restarted screening phase ends in the same entries whatever an earlier attempt left behind |
| `ScreeningRun.MetricsCoverMatrix` | scripts/cadence-context-3w.py:4160-4166 | after the pass the metrics cover the whole matrix |
| `ScreeningRun.ScreeningPhase.ScreenOne` | scripts/cadence-context-3w.py:3987-4022 | files the outcome and the status that follows from the technical check, and nothing else |
| `ScreeningRun.ScreeningPhase.SkipScreen` | scripts/cadence-context-3w.py:4024-4060 | files a not-run entry and tells a failed dependency from a trigger that did not fire |
| `ScreeningRun.ScreeningPhase.Run` | scripts/cadence-context-3w.py:4062-4168 | the loop over the default and the conditional combinations is the pass of the specification |
| `Scoring.WisLoss` | scripts/analyze-chronos2-context-windows.py:232-250 | the interval-by-interval score is the pinball loss at the median and both ends of every counted interval, normalised |
| `Scoring.IntervalIsTwoPinballs` | scripts/analyze-chronos2-context-windows.py:240-248 | one interval scores the pinball losses at its two ends, crossed or not |
| `Scoring.WisIsTwiceMeanPinball` | scripts/analyze-chronos2-context-windows.py:227-250 | on every symmetric grid with a median the score is exactly twice the mean pinball loss |
| `Scoring.TotalsAreTwice` | scripts/analyze-chronos2-context-windows.py:273-284 | the same holds of the totals over any set of observations on the grid of the program |
| `Scoring.Select` | scripts/analyze-chronos2-context-windows.py:355-368 | narrowing by the four keys, with the early exit, returns the smallest surviving context or an error for none |
| `Scoring.SelectionIgnoresOrder` | scripts/analyze-chronos2-context-windows.py:355-368 | the choice depends only on the set of eligible contexts |
| `Scoring.SelectionIsNearBest` | scripts/analyze-chronos2-context-windows.py:355-368 | the chosen context is eligible and within one per mille of the best loss |
| `Scoring.SecondKeySeparatesIff` | scripts/analyze-chronos2-context-windows.py:350-363 | the second key can separate a loss from a better one that the first key let pass exactly between 5e-16 and 1e-12 |
| `Scoring.SelectionIgnoresWis` | scripts/analyze-chronos2-context-windows.py:358-363 | for metrics in which the score is twice the loss, the choice without the second key is the same outside that interval |
| `Scoring.MeasuredSelectionIgnoresWis` | scripts/analyze-chronos2-context-windows.py:268-368 | whatever was observed on the grid of the program: with mean losses outside that interval, selecting without the second key chooses from the same contexts |
| `Holm.Adjust` | scripts/analyze-chronos2-context-windows.py:339-347 | the loop fills the dictionary with the running maximum capped at one |
| `Holm.RunningIsPeak` | scripts/analyze-chronos2-context-windows.py:343-346 | the running maximum at a context is the largest (number of p-values at least p) * p over the p-values up to its own |
| `Holm.TieOrderIsIrrelevant` | scripts/analyze-chronos2-context-windows.py:340-346 | any two sorted arrangements give a context the same value |
| `Holm.AdjustmentIsMonotone` | scripts/analyze-chronos2-context-windows.py:339-347 | smaller p-values get no larger adjusted ones, equal ones equal ones |
| `Holm.AdjustmentIsConservative` | scripts/analyze-chronos2-context-windows.py:339-347 | adjusting never lowers a p-value and stays at most one |
| `Holm.AdjustmentDecidesStepDown` | scripts/analyze-chronos2-context-windows.py:339-347 | for levels from zero to below one, adjusted <= level exactly when the step-down procedure rejects |
| `Chunks.Assemble` | scripts/analyze-chronos2-context-windows.py:145-175 | the bitmap assembler accepts exactly the lists of valid chunks that claim every row once and whose rows all pass the check on values, and every row then holds what its chunk says |
| `Chunks.AssemblyIgnoresOrder` | scripts/analyze-chronos2-context-windows.py:145-175 | listing the chunks in another order changes neither acceptance nor the array |
| `Chunks.ContiguousIsPartition` | scripts/compare-fincast-p40-policy-regression.ts:421-465 | contiguous chunks from row zero pass the bitmap assembler, and the array that holds them is their values joined |
| `ChunkLoaders.LoadedIsContiguous` | scripts/compare-fincast-p40-policy-regression.ts:421-465 | whenever the loader's loop succeeds, the chunks it read are contiguous from row zero and their rows are the loaded cells |
| `ChunkLoaders.LoadedIsAssembled` | scripts/compare-fincast-p40-policy-regression.ts:395-474 | what the contiguous loader loads from an artifact, the bitmap assembler accepts in every order of its chunks, and assembles to the same array |
| `ChunkNames.NameIsSafeIff` | scripts/convert-chronos2-output-to-policy-artifact.py:376-379 | a written chunk name matches the loader's pattern exactly when both row numbers are below ten to the ten, and the start can be read back |
| `PolicyConversion.Project` | scripts/convert-chronos2-output-to-policy-artifact.py:310-322 | checks finiteness and order of every line first, then copies the mean and the deciles |
| `PolicyConversion.ColumnsAreDeciles` | scripts/convert-chronos2-output-to-policy-artifact.py:318-321 | the copied columns are those of the nine deciles |
| `PolicyConversion.ProjectionKeepsOrder` | scripts/convert-chronos2-output-to-policy-artifact.py:310-322 | the deciles of a projected line are in order |
| `PolicyConversion.Convert` | scripts/convert-chronos2-output-to-policy-artifact.py:325-467 | the loop over chunks writes the manifest, metadata and binaries of the specification, or fails as it does |
| `PolicyConversion.ExtendedKeeps` | scripts/convert-chronos2-output-to-policy-artifact.py:349-416 | a converted chunk overwrites no file of an earlier one |
| `PolicyConversion.LoadOutput` | scripts/compare-fincast-p40-policy-regression.ts:395-474 | filling the typed array chunk by chunk computes the joined chunks, or the error, unreadable or oversized JSON included |
| `PolicyConversion.RoundTripIff` | scripts/compare-fincast-p40-policy-regression.ts:324-474 | for every run the converter accepts, the loader accepts input and artifact iff it takes the input, the batch size is a safe non-negative integer, rows fit ten digits, the fields handed on are strict JSON and the written documents fit its size bound, and it then loads the projection of the whole source array |
| `FincastInput.LoaderTakesIff` | scripts/compare-fincast-p40-policy-regression.ts:324-393 | what the loader asks of the input manifest, its two files and its origin lines beyond what the converter asks |
| `ConversionExamples.OneRowLoadsIff` | scripts/convert-chronos2-output-to-policy-artifact.py:325-467 | runs of one row that the converter accepts, for every seed, batch size and provenance, and which of them the loader accepts |
| `ConversionExamples.RoundTripsDiffer` | scripts/convert-chronos2-output-to-policy-artifact.py:325-467 | an accepted run that loads, and three that do not: a negative batch size, a NaN in the provenance, a negative seed |
| `PolicyConversion.LoadedDecilesInOrder` | scripts/compare-fincast-p40-policy-regression.ts:395-474 | in every line of the array that is loaded at the end the deciles are in order |
| `JsonValues.MergedStrictIff` | scripts/convert-chronos2-output-to-policy-artifact.py:422-463 | a provenance with some fields replaced is strict JSON exactly when the fields that stay and those that are added are |
| `RollingVolatility.RealizedColumn` | scripts/cadence-context-3w.py:1079-1095 | the prefix-sum column is, at every candle, the root mean square over its window, defined exactly on unbroken windows, with nothing leading into the first candle |
| `RollingVolatility.PrefixIsDirect` | scripts/cadence-context-3w.py:1081-1093 | two prefix differences give the direct value and the guard against negative sums never acts |
| `RollingVolatility.RollingDefinedIff` | scripts/cadence-context-3w.py:1090-1095 | equal break counts mean that every step into the window is one cadence |
| `RollingVolatility.ShortColumn` | scripts/cadence-context-3w.py:1068-1078 | a short return is present exactly when a candle closed five minutes earlier, and is measured from it |
| `RollingVolatility.EndpointCheckIff` | scripts/high-vol-stack-source.py:1227-1231 | the endpoint comparison stands for sixty one-minute steps exactly when no step is shorter than a minute |
| `RollingVolatility.GridCloses` | scripts/high-vol-stack-source.py:1227-1231 | on increasing closes of one minute grid it is equivalent to a gap-free hour |
| `RollingVolatility.UnevenPasses` | scripts/high-vol-stack-source.py:1227-1231 | off the grid a gap can pass the comparison |
| `RollingVolatility.CachedIsDirect` | scripts/high-vol-stack-source.py:855-862 | the stored value is what any longer context ending at the bar gives |
| `RollingVolatility.WarmCoreFeatureCache` | scripts/high-vol-stack-source.py:1211-1236 | the two dictionaries hold, under each close, the stored return and volatility of the specification and nothing else |
| `RollingVolatility.CacheRefinesDirect` | scripts/high-vol-stack-source.py:1211-1236 | on the minute grid the cache answers exactly after sixty gap-free minutes and with the direct value |
| `CausalFeatures.SliceBarsAt` | scripts/high-vol-stack-backtest.ts:466-483 | the binary search cuts the context of all bars closed at the origin, or fails when none closes there |
| `CausalFeatures.Slice` | scripts/high-vol-stack-source.py:1238-1249 | exactly the requested bars, the last at the origin, without a gap, or an error |
| `CausalFeatures.ContextsIgnoreLaterBars` | scripts/high-vol-stack-backtest.ts:466-483 | bars that close after the origin change no context of either loader |
| `CausalFeatures.ContextsEndAtOrigin` | scripts/high-vol-stack-source.py:1238-1249 | both loaders agree when the stricter one succeeds, and hold nothing after the origin |
| `CausalFeatures.CausalSourceVolatilityRegimes` | scripts/high-vol-stack-backtest.ts:554-576 | the two maps compute the run of the regime rule over the sorted origins |
| `CausalFeatures.RegimesAreCausal` | scripts/high-vol-stack-backtest.ts:554-576 | two lists of origins in any order that agree up to a time give the same regimes up to it |
| `CausalFeatures.RegimeIsOfThePast` | scripts/high-vol-stack-backtest.ts:562-573 | each regime classifies the value against the last 672 usable earlier values of its own symbol |
| `CausalFeatures.CausalRustVolatilityBaselines` | scripts/high-vol-stack-backtest.ts:1012-1050 | the loop computes the run of the baseline rule, medians included, in the listed order |
| `CausalFeatures.BaselinesAreCausal` | scripts/high-vol-stack-backtest.ts:1021-1050 | two lists that agree up to a time, and list no later origin before one up to it, give the same baselines up to it |
| `CausalFeatures.AscendingBaselinesAreCausal` | scripts/high-vol-stack-backtest.ts:1021-1050 | lists in ascending order are causal without a further condition |
| `CausalFeatures.BaselinesAreCausalIff` | scripts/high-vol-stack-backtest.ts:1021-1050 | for every content of origins at given times the baselines up to a time depend only on the origins up to it, if and only if no later origin is listed before one of those |
| `CausalFeatures.BaselinesIgnoreLaterSuffix` | scripts/high-vol-stack-backtest.ts:1021-1050 | later origins appended to any list change no baseline before them |
| `StableSort.SortSplits` | scripts/high-vol-stack-backtest.ts:559-561 | sorting by time puts the elements up to any time first, sorted by themselves |
| `OrderedBatches.ProcessInOrderedBatches` | scripts/high-vol-rust-concurrency.ts:21-37 | under every completion order each commit is one whole batch of consecutive results, a failed batch commits nothing, and at most `concurrency` items are in flight |
| `OrderedBatches.MapBatch` | scripts/high-vol-rust-concurrency.ts:27-34 | a batch settles in any order and yields its results in input order, or fails |
| `OrderedBatches.CommitsAreDetermined` | scripts/high-vol-rust-concurrency.ts:21-37 | two runs that commit equally many results make the same commits |
| `RustCache.PendingKeepsPromise` | scripts/high-vol-stack-backtest.ts:1196-1232 | however many pending tasks a run gets through, the cached rows stay distinct tasks, a covered task prefix if they were one, and the first tasks in order if they were those |
| `RustCache.PendingCompletes` | scripts/high-vol-stack-backtest.ts:1196-1232 | cached and pending tasks are together the whole plan |
| `RustCache.RewriteKeepsInv` | scripts/high-vol-stack-backtest.ts:368-382 | a whole rewrite keeps what its rows promise; a torn one keeps distinct tasks, and the first tasks in order if the rows are in task order |
| `RustCache.VisitKeepsInv` | scripts/high-vol-stack-backtest.ts:1180-1268 | whatever one invocation does to the file before it ends or dies, the file keeps its promise: distinct tasks always, a task prefix if no rewrite is torn, task order if the plan is in file order |
| `RustCache.EveryHistoryKeepsTasks` | scripts/high-vol-stack-backtest.ts:1180-1268 | after every history of runs and crashes from a missing file, recovery rejects or returns one row each of distinct tasks |
| `RustCache.UntornHistoriesAreResumable` | scripts/high-vol-stack-backtest.ts:1180-1268 | after every history without a torn rewrite, recovery rejects or covers exactly a prefix of the task list |
| `RustCache.TornRewriteResumableIff` | scripts/high-vol-stack-backtest.ts:368-382 | every prefix of a rewritten file is rejected or recovers to a task prefix if and only if its rows are in task order |
| `RustCache.EveryHistoryResumableIff` | scripts/high-vol-stack-backtest.ts:1180-1268 | over every history, torn rewrites included, recovery rejects or covers a task prefix if and only if the plan is in the order of the sorted file |
| `RustCache.DisorderLeavesGap` | scripts/high-vol-stack-backtest.ts:1258-1268 | for every plan that is not in file order, a first run that dies inside its rewrite and leaves a file whose recovery is no task prefix |
| `RustCache.CacheFile.EvaluateEvidence` | scripts/high-vol-stack-backtest.ts:1180-1268 | load, append batch by batch, rewrite sorted, possibly dying anywhere: what it does to the file is one step of a history, for every outcome |
| `Scanner.EligibleIff` | scripts/high-vol-stack-source.py:950-991 | the exclusion list is empty exactly for fresh, listed, liquid, normal rows outside the core symbols |
| `Scanner.ScoreInUnit` | scripts/high-vol-stack-source.py:996-1024 | every score lies between zero and one |
| `Scanner.PenaltyIsIdle` | scripts/high-vol-stack-source.py:1022-1023 | the depth penalty is zero on every eligible row |
| `Scanner.RankingIsOfEligibleRows` | scripts/high-vol-stack-source.py:993-1032 | ranking and scores depend only on the multiset of eligible rows |
| `Scanner.RankingIgnoresOrder` | scripts/high-vol-stack-source.py:944-1032 | observations may arrive in any order |
| `Scanner.IneligibleRowIsInvisible` | scripts/high-vol-stack-source.py:944-1032 | adding an ineligible row anywhere changes nothing |
| `Scanner.RanksAreBijective` | scripts/high-vol-stack-source.py:1025-1032 | ranks are a bijection of the eligible rows onto one to their number |
| `Scanner.ScanCandidates` | scripts/high-vol-stack-source.py:944-1044 | the loops report every row with its reasons, score and rank, and select the first symbols of the ranking |
| `Scanner.EligibleRowIsReported` | scripts/high-vol-stack-source.py:1036-1044 | an eligible row is reported with its own score, in range, and with a rank |
| `QualificationState.ExecuteKeepsGood` | scripts/chronos2-qualification-state.py:508-640 | every command that writes leaves one running step at most, an active step that names it, fitting counts and a percentage in range |
| `QualificationState.ExecuteSucceeds` | scripts/chronos2-qualification-state.py:517-570 | no command changes the steps or takes a completed one back |
| `QualificationState.AppendKeepsNumbers` | scripts/chronos2-qualification-state.py:400-428 | every readable event carries the number of its line, also behind torn appends |
| `QualificationState.ActKeepsInvariant` | scripts/chronos2-qualification-state.py:66-74 | every action of every process, crashes included, keeps lock, file and event file consistent |
| `QualificationState.RunsAreSafe` | scripts/chronos2-qualification-state.py:66-74 | over every interleaving of locked commands the state file is good whenever it exists |
| `QualificationState.CompletedStaysCompleted` | scripts/chronos2-qualification-state.py:517-576 | over every run a completed step stays completed |
| `QualificationState.FinishLeavesStepRunning` | scripts/chronos2-qualification-state.py:602-614 | finishing leaves a running step running, without an active step, and it can still be completed |
| `QualificationState.StateFile.UpdateProgress` | scripts/chronos2-qualification-state.py:361-386 | one pass counts completed, failed and skipped steps |
| `QualificationState.StateFile.StartCommand` | scripts/chronos2-qualification-state.py:517-548 | starts a step, or refuses and changes nothing |
| `QualificationState.StateFile.EndCommand` | scripts/chronos2-qualification-state.py:549-566 | completes or fails the running step, or refuses and changes nothing |
| `QualificationState.StateFile.FinishCommand` | scripts/chronos2-qualification-state.py:602-614 | ends the run with a status and no active step, and leaves the steps as they are |

## Left out

- Smoke and full mode mixed in one run directory, STOP files, failure-summary files and retry counts: only the outcome of a request that finally came or failed is modelled.
- Latency and telemetry of the runner, ETA texts, report Markdown, wall-clock timestamps and event messages: they take no part in any decision.
- ISO timestamps and numbers inside records: a record is encoded and decoded as a whole by the codec parameter. Text is a sequence of characters; a tear inside a multi-byte character is one more rejection.
- `PredictionAccumulator` against its batch counterpart: the counterpart is not part of this model.
- `infer_lane` (scripts/high-vol-stack-source.py:2095-2209): it keys the records of its log by symbol and origin and skips planned tasks by key, as the Rust evidence cache does, without a checkpoint and without a check of prefix or order; the cache is modelled instead.
- `PipelineState`: phases, heartbeats and its event counter follow the pattern of the qualification state, with one writer.
- Prefetch threads: a task is prepared by a function of its key, so the thread that does it cannot be seen in the model.
- `strong_followup_8192x5`: it only reports a follow-up candidate that is never run automatically.
- `select_batch`, `stage_view` and `choose_profile` of the qualification summary, `residualIndex`, `build_schedule` and spread provenance: comprehension-style code whose results can be read from the bodies.
- The regime classifier, `log`, `log1p`, square root and standard deviation are parameters, so rounding and floating-point overflow are not modelled.
- Symbolic links, path checks and file permissions of the converter and the loaders, and the converter's own bound on the JSON it reads; JSON booleans where integers are expected (Python accepts them, JavaScript does not); lone surrogates in text that is handed on (Python cannot encode them).
- The FinCast input is given by what it holds: its fixed strings are one flag, and of an origin line only the presence of its fields, the number of its future timestamps and whether its times and numbers are well formed are kept.
- Python's `\d` in the converter's chunk pattern (scripts/convert-chronos2-output-to-policy-artifact.py:55,130) takes any Unicode digit. The model takes ASCII digits only, so it accepts fewer source chunk names than the converter does.
- Whitespace other than space, tab and line breaks in an otherwise empty line: such a line is taken as one that does not decode.
- The experiment kind and context results inside the qualification state: only steps, status, active step, progress and events are modelled.
- Malformed quantile dictionaries, for which the Python code raises, are untradable records in the trading model.
- Symbols are compared as they are: the upper-casing of cache keys in the Rust evidence cache is not modelled.
- BatchInference.RunTaskBatch: leaves out latency and batch-size fields of the records, which depend on the batch by design.
- Scoring.Select: takes the eligible contexts as a list instead of a set; `SelectionIgnoresOrder` shows that the list order cannot matter.
- Holm.Adjust: takes the contexts in an order sorted by p-value, as `sorted` returns them; `TieOrderIsIrrelevant` covers every such order.
