# A verified model of the trading bot's backend

This project models the parts of the backend whose correctness cannot be read off a single function, and
proves what they promise over every input and every run. Money and prices are `real`; where rounding is
the point (quantities, ticks, decimal places) it is written out. The exchange is an oracle that may give
any answer to any call; requests sent to it are kept in a log.

- **Order execution** (`ExecutionStore`, `ExecutionProtocol`, `ExecutionOutcome`, `ExecutionSafety`,
  `ExecutionOrigin`, `ExecutionRequests`, `ExecutionRecords`, `ExecutionTerminal`, `ExecutionStored`,
  `ExecutionProtection`, `ExecutionService`). `execute` is a machine
  of small steps, each a row write, a request or an answer, so a crash or a cancelled await may fall between
  any two; the imperative service is proved to end where the machine ends. Runs interleave any number of
  executions with crashes and recoveries.
- **Risk and order arithmetic** (`RiskService`, `OrderRules`): sizing, the portfolio budget as an
  inductive invariant, the daily baseline, rounding to exchange steps.
- **Paper funds** (`PaperLedger`, `PaperWrites`, `FundAgreement`, `StrategyLab`, `TableAgreement`): the
  replay and its closed form; a repository that rewrites a table of rows in place; and exactly when its
  incremental writes leave that table as a replay would.
- **Indicators and momentum** (`Indicators`, `DirectionalMovement`, `Momentum`), with `Arithmetic` holding
  the facts about products and quotients they rest on.
- **Candle cache** (`CandleCache`): the bounded history against the unbounded log.
- **Step machines**: the scanner pipeline (`Pipeline`, `Scanner`, `ScannerEngine`) driven by the trading
  cycle (`Runtime`, `RuntimeGates`, `RuntimeLock`, `RuntimeEntries`, `BotRuntime`), where symbol states are
  objects shared between cycle and refresh; the break-even manager (`BreakEven`); the watchdog (`Watchdog`).

Code that works step by step is a class whose methods are proved equal, state for state, to a function on
values; what the source promises is then proved of that function over all runs. What such a function
computes is stated a second time in plain numbers, from its inputs and without its name (the lemmas whose
names end in `Plainly`, `Exactly`, `Verdict` or `Moves`, and those that say what decides).

## What the code does where one would expect otherwise

Each of these is a lemma of the model.

- `RiskService` plans with exactly `minimum_rr` and `execute` requires the fee-adjusted ratio to reach the
  same setting, so a fill with a reported quantity is always closed out again, unless its levels are
  rounded more coarsely than the fee (`ShippedWiringNeverFills`, `PlannedMinimumGate`).
- When the exchange reports a price but no executed quantity, the emergency close asks for quantity 0,
  which the client refuses, and the position stays (`ClosedOutExposure`); the ratio gate then compares the
  planned ratio (`RrGateWithoutQuantity`).
- Recovery stores FILLED as soon as the exchange reports it, without levels being placed or gates applied
  (`RecoveryProves`); every other stored FILLED is protected (`FilledIsExplained`).
- The break-even manager tests BUY and SELL, but the client names positions LONG and SHORT. A LONG
  position is amended after losing 1R (`LongAmendsAtLoss`), a SHORT one skips the guards against moving a
  stop backwards (`ShortMovesBackwards`); `SafeSides` is the exact condition.
- The manager keeps one row per symbol for good, so after one SUCCESS no later position of the symbol is
  managed (`SuccessAbsorbs`). Its confirmation tolerance is at least 0.01 in price, so on a cheap symbol
  an unmoved stop is confirmed (`UnmovedStopConfirms`).
- Paper trades of one strategy that are open at once make the stored fund differ from its replay as soon as
  one with a later trade behind it closes (`OverlapDisagrees`, for instance `OverlapFromStart`). So does a signal saved after a closing that
  is not later in signal time (`EarlierSignalDisagrees`), since the replay goes by signal time.
  `WriteAgreesExactly` is the exact condition for every write.
- A recovery beside a live execution could reopen a terminal row (`OverlapCanReopen`); the runtime
  recovers before it creates its worker (`app/backend/app/bot/runtime.py:132-165`).
- The lock on a symbol with an unknown order outcome does not hold until reconciliation is safe. Any look of
  the scanner during the cycle restores the permission (`LookedAtTriggers`), and the lock ends with the
  first signal it refuses (`RefusedOnceTriggers`); `LockedTriggersExactly` and `LockEndsExactly` are the
  exact conditions. New exposure is then held back by the readiness service alone.
- Only an order reported as accepted starts a cooldown (`EndingDecides`). An execution that is cancelled by its
  timeout, ends in an unknown outcome, or is refused, as a fill that was closed out again is, leaves none
  although its entry was sent (`UnacceptedEntriesClose`). `EntriesSpacedExactly` is the exact condition for
  the next entry; `EntriesApart` states it for two entries of a run.
- The dynamic pool appends before it tests its limit, so a limit of 0 still takes one symbol
  (`PicksAreTop`).
- `app/backend/app/strategies/momentum.py:332` gives every crossing that is not on the latest candle 20
  freshness points, while line 133 admits ages up to 2.

## Model

| member | source | states |
|---|---|---|
| `ExecutionSafety.AtMostOneEntry` | app/backend/app/execution/service.py:124-184 | Over every run of interleaved executions, cancelled awaits, crashes, restarts and recoveries, at most one entry request is ever made per signal, and every entry requested has its stored intent |
| `ExecutionOrigin.EntriesAreDecided` | app/backend/app/execution/service.py:113-188 | Over every run, every entry requested is the order of a READY, complete decision started with a writable store: its symbol, its side, and the quantity the exchange fitted to it, after the leverage was set; and the intent stored for its signal holds the same symbol, side and quantity |
| `ExecutionOrigin.IntentsAreDecided` | app/backend/app/execution/service.py:124-150 | Over every run, recovery included, every stored row is the intent of a READY decision: its symbol and side, entry price, leverage and identity, with the quantity the exchange fitted |
| `ExecutionOrigin.IntentInserted` | app/backend/app/execution/service.py:124-150 | The intent is inserted PENDING with the decided symbol and side and the fitted quantity, stop and target |
| `ExecutionRequests.RequestsExactly` | app/backend/app/execution/service.py:35-231 | Everything one execution requests, against every exchange: nothing unless decision, store, intent, fitting and leverage allow it; then one entry on the decided symbol and side for the fitted quantity, and possibly one opposite reduce-only close of a FAILED order |
| `ExecutionRequests.EntryOpens` | app/backend/app/execution/service.py:177-185 | The decided entry, executed on a flat position, leaves the fitted quantity on the decided side |
| `ExecutionRequests.BeginsExactly` | app/backend/app/execution/service.py:36-88 | An execution goes to the exchange exactly for a READY, complete decision and a writable store; otherwise it ends at once as REJECTED or FAILED |
| `ExecutionRequests.SubmitDecides` | app/backend/app/execution/service.py:175-242 | What each answer to the entry request leads to: an acknowledgement to the polls with the order id stored, an API error to REJECTED, a value error to FAILED, anything else to UNKNOWN_RECONCILING |
| `ExecutionSafety.IntentsNeverChange` | app/backend/app/persistence/database.py:478-544 | Between any two moments of a run a stored intent keeps its intent id, risk-decision id, request hash, symbol and side, and no field that held a value becomes null |
| `ExecutionSafety.StepOnRequests` | app/backend/app/execution/service.py:151-184 | A step makes at most one request; only a task that inserted the intent may send an entry, and sending uses that right up; every other request is reduce-only |
| `ExecutionSafety.StepOnRows` | app/backend/app/execution/service.py:124-173 | No step of `execute` removes a row, changes an identity, symbol or side, loses a stored value, or adds a row for another signal |
| `ExecutionSafety.ApplyKeepsSafe` | app/backend/app/execution/service.py:124-184 | Every event of the system (start, step, cancel, crash, recovery) keeps the invariant behind the at-most-one-entry result |
| `ExecutionStore.UpsertGrows` | app/backend/app/persistence/database.py:495-516 | The COALESCE upsert keeps every row, its symbol and side, and every column that held a value |
| `ExecutionStore.UpsertReadsBack` | app/backend/app/persistence/database.py:478-544 | A new row reads back as written; over an existing row the status and every value present are the new ones, every missing one keeps the old; writing twice is writing once |
| `ExecutionStored.ReturnedIsStored` | app/backend/app/execution/service.py:35-452 | However an execution ends with a result, the row stored for its signal is exactly that result, or a check before the intent refused it and nothing was written or sent |
| `ExecutionTerminal.TerminalIsFinal` | app/backend/app/execution/service.py:454-510 | Once a stored status is terminal, nothing later changes the row, in every run where recovery and live executions do not overlap |
| `ExecutionTerminal.TerminalChangesExactly` | app/backend/app/persistence/database.py:495-516 | Overlapping runs included, a stored terminal row changes exactly when a task saves a row over it, or recovery stores what it concludes from an intent it read earlier, and the merge makes a difference |
| `ExecutionTerminal.OverlapCanReopen` | app/backend/app/execution/service.py:233-242 | If they did overlap, a FILLED stored by recovery could be overwritten by a late ACKNOWLEDGED: a run from the empty store, for every executable decision |
| `ExecutionTerminal.ApplyOrderly` | app/backend/app/execution/service.py:454-510 | Every allowed event keeps terminal rows untouched and the pending recovery list equal to the current unresolved rows |
| `ExecutionTerminal.RecoveryIdempotent` | app/backend/app/execution/service.py:454-510 | Repeating recovery against the same exchange state changes no row at all |
| `ExecutionTerminal.RecoveryResolves` | app/backend/app/execution/service.py:512-550 | Recovery makes an intent terminal exactly when it has an order link and the exchange reports Filled, Rejected or a cancelled state for it |
| `ExecutionTerminal.RecoveryProves` | app/backend/app/execution/service.py:512-550 | Which stored status each reported order status leads to and back, and that a reported fill and order id are stored while what was not reported is kept |
| `ExecutionTerminal.RecoveryLeaves` | app/backend/app/execution/service.py:454-550 | Without an order link or a report an unresolved intent becomes UNKNOWN_RECONCILING and keeps everything else; a terminal row is left alone |
| `ExecutionOutcome.AcknowledgedSettles` | app/backend/app/execution/service.py:244-452 | From the acknowledgement on, for every behaviour of the exchange: without a price the order ends UNKNOWN_RECONCILING; with a fill the result records exactly the observed price and quantity, and it ends FILLED if and only if all gates pass there and one of three protection attempts is accepted, and otherwise FAILED after exactly one opposite-side reduce-only request for the observed quantity (an incomplete decision raises) |
| `ExecutionOutcome.ProtectingSettles` | app/backend/app/execution/service.py:393-452 | FILLED with the recorded fill and exactly the accepted levels when one of three attempts succeeds; one close request for the filled quantity and FAILED when none does |
| `ExecutionProtection.FilledIsExplained` | app/backend/app/execution/service.py:393-550 | Over every run a row stored as FILLED carries a stop and a target the exchange accepted for its symbol, or was last written by recovery from a report that the order is filled |
| `ExecutionOutcome.GateMeaning` | app/backend/app/execution/service.py:276-391 | The gate sequence lets a fill through exactly when slippage, actual risk and fee-adjusted ratio are all within their limits |
| `ExecutionRequests.PassesPlainly` | app/backend/app/execution/service.py:276-391 | In plain numbers: a fill passes iff its adverse slippage in percent of the entry, its loss at the new stop, and its ratio after fees on both sides are within the limits |
| `ExecutionRequests.LevelsPlainly` | app/backend/app/execution/service.py:309-322 | The new stop and target keep the decided distance and ratio around the price paid, on the losing and the winning side, to half a unit of the last place |
| `ExecutionRequests.FilledPlainly` | app/backend/app/execution/service.py:276-452 | An order ended FILLED by its execution was reported at the recorded price, and the recorded fill meets every gate with the stored stop and target |
| `ExecutionRecords.AcknowledgedRecords` | app/backend/app/execution/service.py:244-452 | Against every exchange, what the result records in plain numbers: price, quantity and slippage always, the risk once the slippage passed, the ratio once the risk passed, fees and intended risk as each ending has them, the rest of the row unchanged; a FAILED order is closed by one request named after the gate that failed, any other by none |
| `ExecutionOutcome.EndingsExclusive` | app/backend/app/execution/service.py:266-452 | The endings exclude one another |
| `ExecutionOutcome.ObservationBounds` | app/backend/app/execution/service.py:244-264 | At most ten polls are made, and the price and the quantity used are ones the exchange reported with a fill |
| `ExecutionRequests.PollsExactly` | app/backend/app/execution/service.py:244-264 | What the polls use, for every sequence of answers: the latest price and quantity reported up to the first readable report at which the latest price is positive, or in all ten answers |
| `ExecutionRequests.FirstReportCounts` | app/backend/app/execution/service.py:244-264 | After silent answers the first conclusive report ends the polls, and its price and quantity are the ones used |
| `ExecutionOutcome.ClosedOutExposure` | app/backend/app/execution/service.py:284-295 | After an emergency close that executes, the requests made since the entry leave precisely the part of the position that was not observed; it is flat exactly when no more was executed than observed, so for an observation that does not exceed the execution exactly when the two are equal |
| `ExecutionOutcome.UnprotectedIsFlat` | app/backend/app/execution/service.py:244-452 | The same joined to the whole execution from the acknowledgement on: a FAILED result leaves the position flat exactly when no more was executed than observed, and any other result made no further request |
| `ExecutionOutcome.RrGateExact` | app/backend/app/execution/service.py:309-365 | Before rounding, the ratio gate passes iff (R - m) d >= 2 k (1 + m) p, whatever the quantity |
| `ExecutionOutcome.EffectiveRrPerUnit` | app/backend/app/execution/service.py:356-365 | The executed quantity cancels out of the ratio gate |
| `ExecutionOutcome.QuantizeError` | app/backend/app/execution/service.py:320-322 | Rounding a level moves it by at most half a unit of the last place |
| `ExecutionOutcome.PlannedMinimumGate` | app/backend/app/execution/service.py:320-365 | When the planned ratio is the required one, rounding included, the gate passes iff no executed quantity was reported |
| `ExecutionOutcome.ShippedWiringNeverFills` | app/backend/app/main.py:110 | Under the shipped wiring an acknowledged entry ends FILLED only without a reported quantity, or with levels rounded more coarsely than the fee |
| `ExecutionProtocol.StepTerminates` | app/backend/app/execution/service.py:35-452 | Every step brings `execute` nearer to its end, whatever the exchange answers |
| `ExecutionService.ExecutionService.Execute` | app/backend/app/execution/service.py:35-231 | The imperative method ends, in its table, its requests and its result, exactly where the step-by-step protocol ends, whose requests `RequestsExactly` gives in terms of the decision |
| `ExecutionService.ExecutionService.AwaitFill` | app/backend/app/execution/service.py:244-274 | The polling loop ends where the protocol ends from the acknowledgement |
| `ExecutionService.ExecutionService.ValidateFill` | app/backend/app/execution/service.py:276-391 | The gates, applied in order on mutable fields, end where the protocol ends from the observed fill |
| `ExecutionService.ExecutionService.PlaceProtection` | app/backend/app/execution/service.py:393-452 | The three attempts end where the protocol ends from the gates |
| `ExecutionService.ExecutionService.RecoverUnresolved` | app/backend/app/execution/service.py:454-510 | The recovery loop rewrites exactly the unresolved rows, each as its lookup proves, and sends nothing |
| `RiskService.BudgetIsInductive` | app/backend/app/risk/service.py:78-268 | Starting within limits, any sequence of signals served at unchanged equity keeps the recomputed open risk within the cap, positions within the maximum and symbols distinct |
| `RiskService.AdmissionWithinBudget` | app/backend/app/risk/service.py:205-316 | After a READY position fills at its reference entry, the recomputed portfolio risk is known and at most what the decision budgeted, hence at most the cap |
| `RiskService.ReadyPlan` | app/backend/app/risk/service.py:149-216 | A READY plan has its stop on the losing side, ratio exactly the minimum, and the largest eight-decimal quantity whose stop loss stays within the risk amount |
| `RiskService.SizeAdmits` | app/backend/app/risk/service.py:140-268 | A signal past the account checks is READY if and only if the structure gives a tradable stop, one unit can be risked, the budget has room and the capacity suffices; MINIMUM_RR_NOT_MET never occurs |
| `RiskService.LowestMeaning` | app/backend/app/risk/service.py:152-175 | The structure is the extreme low (high) of the recent candles, and one of them |
| `RiskService.PositionRiskBounds` | app/backend/app/risk/service.py:293-311 | The risk of a long or short position is known exactly when its stop protects it, and is at least the loss at the stop |
| `RiskService.PortfolioRiskMeaning` | app/backend/app/risk/service.py:288-312 | The open risk is known exactly when that of every position is, and no position exceeds the total |
| `RiskService.FloorQuantityBounds` | app/backend/app/risk/service.py:205-208 | The floored quantity risks at most the risk amount, and one more unit would risk more |
| `RiskService.FloorQuantityWhole` | app/backend/app/risk/service.py:205-208 | The quantity is a whole number of units of the eighth decimal |
| `RiskService.BaselineHoldsAllDay` | app/backend/app/risk/service.py:318-328 | With persistence the first equity of a day stays its baseline through all later checks and restarts |
| `RiskService.DailyLossDecides` | app/backend/app/risk/service.py:97-103 | With positive equity and capacity a signal is rejected for the daily loss iff 100 * equity <= (100 - limit) * baseline, with the baseline that the evaluation leaves |
| `RiskService.AdmittedAboveTheLine` | app/backend/app/risk/service.py:97-103 | Over any sequence of signals a READY decision is only made with the equity above that line |
| `RiskService.RebasedPlainly` | app/backend/app/risk/service.py:318-328 | The baseline of a day is the stored one if positive, otherwise the first equity, which is stored; later checks of the day keep it |
| `RiskService.ReadyExactly` | app/backend/app/risk/service.py:78-268 | READY if and only if equity and capacity are known and positive, the loss of the day is below its limit, a place is free, the symbol is not held, the leverage is allowed, the open risk is known, and the structure gives a tradable stop whose position fits |
| `RiskService.ReasonsInOrder` | app/backend/app/risk/service.py:78-147 | The reason of a refusal names the first requirement, in source order, that is not met |
| `RiskService.ReadyPlainly` | app/backend/app/risk/service.py:205-268 | The amounts of a READY decision in plain numbers: the risked percentage of equity, the costs on the position value, the budget and the margin they were measured against |
| `RiskService.PositionRiskPlainly` | app/backend/app/risk/service.py:293-316 | The risk of an open position is what it loses at its stop plus the configured percentages of its value |
| `RiskService.RiskService.Evaluate` | app/backend/app/risk/service.py:78-268 | The method rejects and admits in the source order, and changes only the baseline; `ReadyExactly`, `ReasonsInOrder` and `DailyLossDecides` say what that comes to |
| `RiskService.RiskService.PortfolioOpenRisk` | app/backend/app/risk/service.py:288-316 | The accumulating loop equals the fold over positions, unknown as soon as one position is unprotected |
| `RiskService.RiskService.DailyDrawdown` | app/backend/app/risk/service.py:318-328 | The method rebases on a new day from the persisted baseline and returns the loss since then, which `DailyLossDecides` compares with the limit in plain numbers |
| `OrderRules.FloorNearest` | app/backend/app/exchange/bybit/client.py:983-988 | Flooring gives the nearest grid point at or below, less than one step away |
| `OrderRules.CeilNearest` | app/backend/app/exchange/bybit/client.py:990-995 | Rounding up gives the nearest grid point at or above, less than one step away |
| `OrderRules.RoundingMovesOffGrid` | app/backend/app/exchange/bybit/client.py:983-995 | Rounding changes a value exactly when it is off the grid, so rounding twice is rounding once |
| `OrderRules.NormalizeMoves` | app/backend/app/exchange/bybit/client.py:625-649 | Normalization never raises the quantity, moves stop and target outward by less than a tick each, and meets the exchange limits |
| `OrderRules.NormalizeKeepsRewardRisk` | app/backend/app/exchange/bybit/client.py:635-649 | A normalized plan keeps its shape and a reward to risk of at least rr * d / (d + tick), on both sides |
| `OrderRules.NormalizeAccepts` | app/backend/app/exchange/bybit/client.py:622-649 | On any instrument, an order is accepted with a given quantity if and only if its numbers are positive, that quantity is the largest multiple of the step not above the requested one and meets the limits, and the level rounded down is at least one tick |
| `OrderRules.LimitsSurviveRounding` | app/backend/app/exchange/bybit/client.py:625-629 | A limit on the grid is met after rounding exactly when it is met before |
| `PaperLedger.ReplayIdempotent` | app/backend/app/strategies/lab_repository.py:141-220 | Replaying a replayed fund changes nothing and ends at the same balance |
| `PaperLedger.ReplayConserves` | app/backend/app/strategies/lab_repository.py:141-236 | The realized balance after a replay is the final balance of the replay, up to profits on rows it passes over |
| `PaperLedger.MarkIsExact` | app/backend/app/strategies/lab_service.py:66-115 | A mark that closes does so at exactly -1% or +2% whatever the market price |
| `PaperLedger.MarkClosesExactly` | app/backend/app/strategies/lab_service.py:82-101 | When a mark closes, and where: at the stop level iff the price is 1% or more against the entry, at the target level iff it is 2% or more in its favour, and otherwise the trade stays open at the market price |
| `PaperLedger.PercentagePlainly` | app/backend/app/strategies/lab_service.py:66-115 | The percentage of a mark is the move from the entry in favour of the trade |
| `PaperLedger.ReplayPlainly` | app/backend/app/strategies/lab_repository.py:160-215 | Each row the replay takes part in, in plain numbers: 1% of the balance before it at risk, a size that loses exactly that at the stop, the profit from its percentage, its R multiple, and the balance after it; other rows stay |
| `PaperLedger.BalancePlainly` | app/backend/app/strategies/lab_repository.py:141-220 | The balance starts at 100 and moves exactly by the profits of closed rows that take part |
| `PaperWrites.NewRowPlainly` | app/backend/app/strategies/lab_repository.py:245-308 | A saved signal is open, with its stop 1% against and its target 2% in favour of the entry, and a size that loses 1% of the realized balance at the stop |
| `PaperWrites.MarkedRowPlainly` | app/backend/app/strategies/lab_repository.py:310-415 | A marked row in plain numbers: price, percentage, profit of the stored size on the side of the trade, R multiple, and exit price and balance exactly when it closes |
| `PaperLedger.BalanceClosedForm` | app/backend/app/strategies/lab_repository.py:141-220 | Whatever their order, wins and losses leave the fund at 100 * 1.02^wins * 0.99^losses, always positive |
| `PaperLedger.ReplayedMultiples` | app/backend/app/strategies/lab_repository.py:171-186 | After a replay the R multiple is exactly +2 on TP_HIT and -1 on SL_HIT |
| `TableAgreement.Perform` | app/backend/app/strategies/lab_repository.py:245-308 | What the repository methods do to the table they hold is a write of these histories |
| `TableAgreement.InitializedAgrees` | app/backend/app/strategies/lab_repository.py:29-75 | Every write starts from a table that agrees with its replay, because initialization has just replayed it |
| `FundAgreement.WinsAndLossesNeverCancel` | app/backend/app/strategies/lab_repository.py:18-21 | No number of wins and losses brings a fund back to where it was: 102^x * 99^y = 100^(x+y) only for x = y = 0 |
| `FundAgreement.OverlapDisagrees` | app/backend/app/strategies/lab_repository.py:347-405 | With a later trade in any settled fund, every closing makes the stored fund differ from its replay |
| `FundAgreement.OverlapFromStart` | app/backend/app/strategies/lab_repository.py:347-405 | Any two trades open from the start part from their replay when the first reaches its target |
| `FundAgreement.SaveAgreesIff` | app/backend/app/strategies/lab_repository.py:245-308 | A save into a settled fund leaves the whole fund settled if and only if the replay passes the signal over or no trade after it is closed |
| `FundAgreement.MarkAgreesIff` | app/backend/app/strategies/lab_repository.py:310-415 | A mark on a settled fund leaves the whole fund settled if and only if the trade stays open or no trade after it takes part in the replay |
| `TableAgreement.EarlierSignalDisagrees` | app/backend/app/strategies/lab_repository.py:148-158 | Trades that never overlap in wall-clock time can still disagree: a signal saved after a closing, but not later in signal time, makes the fund differ from its replay |
| `TableAgreement.SaveAgrees` | app/backend/app/strategies/lab_repository.py:245-308 | The same for a save and any one time order: the fund agrees if and only if no trade behind the new one is closed, or the replay passes the new one over |
| `TableAgreement.RoundAgrees` | app/backend/app/strategies/lab_service.py:49-126 | The same for a round of marks and any one time order, ties included: the fund agrees with its replay if and only if every closed trade is the last one in that order that the replay sizes |
| `TableAgreement.WriteAgreesExactly` | app/backend/app/strategies/lab_repository.py:141-415 | For every single write on every table of the lifecycle without tied signal times: the table then equals its replay if and only if a saved signal lies behind no closed trade of its strategy, and each trade closed by the marks was the last of its strategy that the replay sizes |
| `TableAgreement.SequentialWritesAreReplay` | app/backend/app/strategies/lab_repository.py:141-415 | Over every history of saves and marks of the table in which each trade comes, in signal time, after all earlier trades of its strategy were closed: at every moment a replay of any strategy, and the whole initialization, change nothing, and the realized balance is the replay balance and the closed form |
| `StrategyLab.StrategyLabRepository.BackfillStrategy` | app/backend/app/strategies/lab_repository.py:141-220 | The loop over stored rows with a running balance writes exactly the replay of the fund and no other row |
| `StrategyLab.StrategyLabRepository.BackfillMoney` | app/backend/app/strategies/lab_repository.py:141-220 | Every strategy of the table is replayed, independently of the others |
| `StrategyLab.StrategyLabRepository.BackfillLevels` | app/backend/app/strategies/lab_repository.py:112-139 | Rows without both levels get the benchmark levels, all other rows stay |
| `StrategyLab.StrategyLabRepository.StrategyRealizedBalance` | app/backend/app/strategies/lab_repository.py:222-236 | The sum over closed rows is the realized balance of the fund |
| `StrategyLab.StrategyLabRepository.SaveSignal` | app/backend/app/strategies/lab_repository.py:245-308 | On any table: a signal is stored once, as the open row `NewRowPlainly` describes, sized on the realized balance after a replay, and nothing else changes; a table of the present lifecycle stays one |
| `StrategyLab.StrategyLabRepository.UpdateMark` | app/backend/app/strategies/lab_repository.py:310-415 | A mark rewrites one row, and its closing balance adds the profits stored on the other closed rows of the fund |
| `StrategyLab.ClosingBalancePlainly` | app/backend/app/strategies/lab_repository.py:347-405 | The balance stored on a trade as it closes is the realized balance of its fund with that closing |
| `StrategyLab.StrategyLabRepository.MarkOpenSignals` | app/backend/app/strategies/lab_service.py:49-126 | On any table: exactly the open trades whose symbol has a price are marked, newest first, each seeing the balances the earlier closings wrote. On a table of the present lifecycle exactly those at or beyond a level are closed, at that level; it stays one |
| `StrategyLab.RoundPlainly` | app/backend/app/strategies/lab_service.py:49-126 | A round of marks trade by trade: the open trades with a price and a positive entry are priced, closed at the stop level iff 1% or more against, at the target level iff 2% or more in favour; every other row stays as it is |
| `StrategyLab.LevelledPlainly` | app/backend/app/strategies/lab_repository.py:112-139 | Exactly the rows that lack a level and have a positive entry get both, 1% against it and 2% in its favour |
| `StrategyLab.ReportPlainly` | app/backend/app/strategies/lab_repository.py:451-568 | A report in plain numbers: every row is open or closed, every closed one a win or a loss, and the average R counts two per win and minus one per loss |
| `StrategyLab.ProfitCounts` | app/backend/app/strategies/lab_repository.py:451-568 | The profit of each row counts once: towards the open total while it is open, towards the realized one once closed |
| `StrategyLab.StrategyLabRepository.Performance` | app/backend/app/strategies/lab_repository.py:451-568 | On any table: one report per strategy present, with the counts and sums of its rows; on a table of the present lifecycle equity is the closed form plus open profit and the net percentage is 2 wins - losses |
| `StrategyLab.RealizedClosedForm` | app/backend/app/strategies/lab_repository.py:222-236 | After initialization the realized balance of every strategy is the closed form of its wins and losses, in any time order of its rows |
| `StrategyLab.OrdersAgree` | app/backend/app/strategies/lab_repository.py:222-236 | Time orders that differ in ties give the same sums and counts |
| `StrategyLab.ReportsAgree` | app/backend/app/strategies/lab_repository.py:451-568 | The report does not depend on how ties in time are ordered |
| `StrategyLab.MarksStayTame` | app/backend/app/strategies/lab_service.py:49-126 | A round of marks keeps every row in the lifecycle with its exact closing percentages |
| `Indicators.Ema` | app/backend/app/strategies/indicators.py:7-21 | Defined exactly from index period-1, where it is the recursive average |
| `Indicators.EmaRecurrence` | app/backend/app/strategies/indicators.py:15-20 | The average starts as the plain mean of the first period values, and each later value moves it by 2 / (period + 1) of its distance |
| `Indicators.EmaBounds` | app/backend/app/strategies/indicators.py:15-20 | The average stays within any bounds on the values seen |
| `Indicators.EmaClosedForm` | app/backend/app/strategies/indicators.py:15-20 | The recursion equals a decayed seed plus geometrically weighted later values |
| `Indicators.EmaAffine` | app/backend/app/strategies/indicators.py:15-20 | Rescaling and shifting prices rescales and shifts the average |
| `Indicators.EmaNoLookahead` | app/backend/app/strategies/indicators.py:7-21 | The value at an index depends only on the prefix ending there |
| `Indicators.Rsi` | app/backend/app/strategies/indicators.py:24-48 | Defined exactly from index period, where it is the index of the Wilder averages |
| `Indicators.RsiExtremes` | app/backend/app/strategies/indicators.py:24-48 | 100 after nothing but rises, 0 after nothing but falls, 50 when nothing moved |
| `Indicators.ChangesSplit` | app/backend/app/strategies/indicators.py:32-34 | Each change is, in full, a gain or a loss |
| `Indicators.WilderRecurrence` | app/backend/app/strategies/indicators.py:35-47 | The gain and loss averages start as plain means, and each later value moves them by one period-th of its distance |
| `Indicators.RsiBounds` | app/backend/app/strategies/indicators.py:169-173 | The index lies in [0, 100] |
| `Indicators.RsiMirror` | app/backend/app/strategies/indicators.py:24-48 | The index of the reflected prices c - v is 100 minus the index of v |
| `Indicators.RsiScaleShift` | app/backend/app/strategies/indicators.py:24-48 | The index ignores the unit and origin of prices |
| `Indicators.RsiShare` | app/backend/app/strategies/indicators.py:169-173 | The index is the gains in percent of all movement |
| `Indicators.RsiNoLookahead` | app/backend/app/strategies/indicators.py:24-48 | The value at an index depends only on the prefix ending there |
| `Indicators.MovingAverage` | app/backend/app/strategies/indicators.py:154-166 | The running sum gives the direct mean of the last period values |
| `Indicators.MovingAverageNoLookahead` | app/backend/app/strategies/indicators.py:154-166 | The value at an index depends only on the prefix ending there |
| `DirectionalMovement.Adx` | app/backend/app/strategies/indicators.py:51-107 | Defined exactly from index 2 * period - 1 (the inner assertion never fails), where it is the Wilder average of the directional index |
| `DirectionalMovement.AdxOfOneWay` | app/backend/app/strategies/indicators.py:51-107 | A chart with a higher high on every candle and never a lower low has the full index of 100 |
| `DirectionalMovement.DxPlainly` | app/backend/app/strategies/indicators.py:176-186 | The directional index times the sum of the two movements is 100 times their difference; the true range cancels out |
| `DirectionalMovement.MovesPlainly` | app/backend/app/strategies/indicators.py:71-74 | Only the larger of the upward and the downward move counts, only when positive, and neither when they are equal |
| `DirectionalMovement.TrueRangePlainly` | app/backend/app/strategies/indicators.py:75-79 | The true range is the largest of the three spans: an upper bound of each, and one of them |
| `DirectionalMovement.SmoothIsWilder` | app/backend/app/strategies/indicators.py:82-97 | The running sums are period times the Wilder averages of the same values |
| `DirectionalMovement.AdxBounds` | app/backend/app/strategies/indicators.py:51-107 | The index lies in [0, 100] on every series, valid candles or not |
| `DirectionalMovement.DirectionalBudget` | app/backend/app/strategies/indicators.py:82-97 | On valid candles smoothed +DM plus smoothed -DM never exceeds the smoothed true range |
| `DirectionalMovement.AdxReflection` | app/backend/app/strategies/indicators.py:51-107 | Reflecting (high, low, close) to (-low, -high, -close) leaves the index unchanged |
| `DirectionalMovement.AdxNoLookahead` | app/backend/app/strategies/indicators.py:51-107 | The value at an index depends only on the candles up to it |
| `DirectionalMovement.Atr` | app/backend/app/strategies/indicators.py:111-151 | Defined exactly from index period, where it is the Wilder average of the true ranges from the second candle on |
| `DirectionalMovement.AtrNoLookahead` | app/backend/app/strategies/indicators.py:111-151 | The value at an index depends only on the candles up to it |
| `Momentum.LatestCrossover` | app/backend/app/strategies/momentum.py:309-326 | Returns the last crossing index above 20 with its side, and nothing exactly when there is none |
| `Momentum.LeadHolds` | app/backend/app/strategies/momentum.py:309-326 | After a returned BUY (SELL) crossing the fast average is never below (above) the slow one through the last candle |
| `Momentum.NoCrossingKeepsLead` | app/backend/app/strategies/momentum.py:309-326 | Without a crossing, whichever average leads at index 20 is never overtaken |
| `Momentum.MomentumStrategy.EvaluateSnapshot` | app/backend/app/strategies/momentum.py:112-187 | A signal leaves exactly when every rule holds and its setup is new, and only then is the setup remembered; the reasons of a refusal are exactly the rules that fail; a zero average volume raises |
| `Momentum.AdmissiblePlainly` | app/backend/app/strategies/momentum.py:112-157 | The rules of both sides in one formula: trend and slope point with the side, the RSI lies within 9 points of 50 plus or minus 11, ADX above 22, volume above its average, at most two candles old |
| `Momentum.AdmissibleMirrored` | app/backend/app/strategies/momentum.py:112-157 | Turning the chart upside down turns an admissible setup of one side into one of the other |
| `Momentum.ConfidencePlainly` | app/backend/app/strategies/momentum.py:329-337 | Below the caps the score is, up to rounding, 85 (80 off the latest candle) plus one point per point of ADX above 22 and one per tenth of volume above its average |
| `Momentum.EachSetupOnce` | app/backend/app/strategies/momentum.py:158-187 | Over any run of evaluations no setup is signalled twice |
| `Momentum.ConfidenceRange` | app/backend/app/strategies/momentum.py:329-337 | An admissible snapshot scores from 80 to 100, and at most 95 once the crossing is not the latest candle |
| `Momentum.ConfidenceMonotone` | app/backend/app/strategies/momentum.py:329-337 | The latest crossing is worth exactly five points, and more trend strength or volume never costs any |
| `CandleCache.TruncatedRunIsTopOfLog` | app/backend/app/market_data/service.py:60-72 | Truncating after every batch equals one truncation of everything ever merged |
| `CandleCache.TruncateEarly` | app/backend/app/market_data/service.py:72 | Cutting to the newest n before adding more start times never changes the newest n |
| `CandleCache.ListsUnique` | app/backend/app/market_data/service.py:71-72 | The strictly sorted history of a set of last-written candles is unique |
| `CandleCache.LastWritten` | app/backend/app/market_data/service.py:65-70 | The candle kept for a start time is the last one ever merged for it |
| `CandleCache.LastNListsTop` | app/backend/app/market_data/service.py:72 | The last n of a sorted history list exactly the n newest start times |
| `CandleCache.MarketDataService.Merge` | app/backend/app/market_data/service.py:60-72 | Every stored history lists the newest max_history start times of the unbounded log, each with its last-written candle |
| `CandleCache.MarketDataService.MergedHistory` | app/backend/app/market_data/service.py:65-72 | One key: stored history, overwritten by its batch, sorted and cut |
| `CandleCache.MarketDataService.FetchCandles` | app/backend/app/market_data/service.py:25-38 | Returns the last entries of that history: the last-written candles of their start times, strictly sorted, every one closed if asked; and no qualifying candle of the newest max_history start times is missing unless the limit is filled by newer ones |
| `CandleCache.MarketDataService.RecentClosedCandles` | app/backend/app/market_data/service.py:82-93 | The same for closed candles, without fetching; raises exactly for a limit below 1 |
| `CandleCache.ClosedKeeps` | app/backend/app/market_data/service.py:37-92 | Exactly the closed candles of a history are kept |
| `CandleCache.HistoryServes` | app/backend/app/market_data/service.py:25-93 | The last entries of a history, closed ones if asked, are what the two readers promise |
| `Pipeline.OnlyWaysIn` | app/backend/app/scanner/state_machine.py:105-157 | TRIGGERED is entered only by confirming an ARMED, permitted symbol with a stored signal, ARMED only by a new signal on a WATCHING symbol |
| `Pipeline.ArmedHoldsSignal` | app/backend/app/scanner/state_machine.py:105-189 | Over any sequence of calls an ARMED symbol holds its signal and a COOLDOWN symbol its expiry |
| `Pipeline.TriggeredLosesSignal` | app/backend/app/scanner/state_machine.py:119-143 | A TRIGGERED symbol evaluated on a later candle loses its stored signal, even when the new evaluation has one |
| `Pipeline.CooldownLasts` | app/backend/app/scanner/state_machine.py:173-189 | Neither trend, setup, entry nor confirmation ends a cooldown, and a release does so only at its expiry |
| `Pipeline.TrendPlainly` | app/backend/app/scanner/state_machine.py:26-63 | With 22 candles there is a verdict, and it is valid iff the close and the fast average lie strictly on the same side of the slow one |
| `Pipeline.SetupPlainly` | app/backend/app/scanner/state_machine.py:66-103 | With 28 candles there is a verdict, and it is valid iff the fast average lies strictly between the slow one and the close and ADX is at least 20 |
| `Pipeline.ReflectedVerdicts` | app/backend/app/scanner/state_machine.py:26-103 | Neither verdict prefers a direction: the chart upside down has the same ones |
| `Pipeline.VerdictMoves` | app/backend/app/scanner/state_machine.py:26-103 | A verdict counts once per candle; valid, it brings a DISCOVERED or INVALIDATED symbol to WATCHING and leaves the others; not valid, it invalidates all but DISCOVERED; COOLDOWN keeps its phase |
| `Pipeline.EntryMoves` | app/backend/app/scanner/state_machine.py:106-144 | An entry evaluation counts once per candle and never in COOLDOWN; a signal arms WATCHING and renews ARMED, which alone store it; no signal invalidates ARMED and TRIGGERED |
| `Pipeline.PipelineStateMachine.EvaluateTrend` | app/backend/app/scanner/state_machine.py:26-63 | The one-hour verdict and its transition on the mutable state, from the averages of the closed candles |
| `Pipeline.PipelineStateMachine.EvaluateSetup` | app/backend/app/scanner/state_machine.py:66-103 | The fifteen-minute verdict and its transition; with 22 to 27 candles the candle is consumed without a verdict |
| `Pipeline.PipelineStateMachine.EvaluateEntry` | app/backend/app/scanner/state_machine.py:106-144 | The entry transition and what becomes of the stored signal |
| `Pipeline.PipelineStateMachine.ConfirmEntry` | app/backend/app/scanner/state_machine.py:147-157 | Confirms exactly ARMED, permitted symbols with a signal |
| `Scanner.RefreshKeepsActive` | app/backend/app/scanner/engine.py:127-142 | A refresh keeps every ARMED, TRIGGERED, EXECUTED and COOLDOWN symbol monitored, and gives every monitored symbol a state |
| `Scanner.PicksAreTop` | app/backend/app/scanner/engine.py:130-138 | The pool takes unskipped eligible symbols within its limit (one even at limit 0), and whatever it leaves out outranks nothing it took |
| `Scanner.RankedIsSorted` | app/backend/app/scanner/engine.py:130-132 | The ranking lists exactly the eligible opportunities, best first |
| `Scanner.RankedPlainly` | app/backend/app/scanner/engine.py:130-132 | Along the ranking the setup quality falls, and within equal setups the market quality |
| `Scanner.DynamicPlainly` | app/backend/app/scanner/engine.py:127-142 | A dynamic symbol is an eligible opportunity that is neither core, open nor cooling down, or one under way that is neither core nor open; every one under way outside core and open positions is dynamic |
| `Scanner.InsertPlace` | app/backend/app/scanner/engine.py:132 | Equals keep the order of the universe |
| `ScannerEngines.ScannerEngine.GetOrCreateState` | app/backend/app/scanner/engine.py:33-41 | One shared state object per symbol, its permission recomputed at every access |
| `ScannerEngines.ScannerEngine.ReleaseExpiredCooldowns` | app/backend/app/scanner/engine.py:47-53 | Releases exactly the cooldowns that are over and moves no other symbol |
| `ScannerEngines.ScannerEngine.EnterCooldown` | app/backend/app/scanner/engine.py:55-59 | Enters the cooldown in the state and in the list together |
| `ScannerEngines.ScannerEngine.UpdateWatchlist` | app/backend/app/scanner/engine.py:127-142 | New pool, states for all monitored symbols and fresh permissions, in the shared objects |
| `ScannerEngines.RefreshInSteps` | app/backend/app/scanner/engine.py:139-142 | Touching every monitored symbol and then recomputing permissions is one refresh |
| `Runtime.AcceptancesApart` | app/backend/app/bot/runtime.py:535-545 | Over every run of one process two orders reported as accepted for a symbol are at least the cooldown apart, and no signal is accepted twice |
| `RuntimeEntries.EntryPossibleExactly` | app/backend/app/scanner/engine.py:24-31 | The same by the guard in the code: if and only if the time has not passed, the watchlist can allow the symbol, statically or by ranking, and the cooldown list does not reach beyond that time |
| `RuntimeEntries.EntriesSpacedExactly` | app/backend/app/scanner/engine.py:24-59 | From every moment of every run an entry of a permittable symbol can leave at a given time if and only if every order reported as accepted for it lies at least the cooldown back |
| `RuntimeEntries.EndingDecides` | app/backend/app/bot/runtime.py:526-557 | Over every run the ending of an execution decides when the next entry of its symbol can leave: after an acceptance exactly from the end of the cooldown on, after any other ending at once |
| `RuntimeEntries.UnacceptedEntriesClose` | app/backend/app/bot/runtime.py:526-557 | A run for each ending without an acceptance (timeout, refusal, unknown outcome), with candles and clock in seconds: two entry requests of one symbol fifteen minutes apart, the one-hour candle unchanged |
| `Runtime.CooldownListExact` | app/backend/app/scanner/engine.py:24-59 | Over every run a symbol is in the cooldown list if and only if its state is COOLDOWN, with the same expiry, and is then not permitted |
| `Runtime.TriggeringIsPermitted` | app/backend/app/bot/runtime.py:434-458 | Over every run a symbol enters TRIGGERED only on a new signal, from WATCHING through ARMED in one segment, while the watchlist allows it, and the cycle takes that signal up |
| `Runtime.AcceptanceIsTriggered` | app/backend/app/bot/runtime.py:528-545 | An order is accepted only for a TRIGGERED symbol outside any cooldown, with a signal not submitted before, in this process or earlier |
| `Runtime.StepSafe` | app/backend/app/bot/runtime.py:393-575 | Every segment of the cycle and of the refresh, in any interleaving, keeps the invariant behind these results |
| `Runtime.ReleaseKeeps` | app/backend/app/scanner/engine.py:47-53 | A release takes out exactly the expired entries and leaves every other symbol as it is |
| `RuntimeLock.LockedTriggersExactly` | app/backend/app/bot/runtime.py:399-458 | Over every run a symbol whose order outcome is unknown triggers if and only if a new signal finds it in WATCHING and allowed by the watchlist, and the scanner looked at it or refreshed since the cycle took it up |
| `RuntimeLock.LockEndsExactly` | app/backend/app/bot/runtime.py:408-557 | Over every run the lock of a symbol ends exactly when the cycle takes it up with reconciliation safe, refuses its signal, readiness blocks it, or its order is accepted |
| `RuntimeLock.LookedAtTriggers` | app/backend/app/bot/runtime.py:408-454 | A run in which one look of the scanner during an unsafe cycle lets a symbol trigger while its order outcome is still unknown |
| `RuntimeLock.RefusedOnceTriggers` | app/backend/app/bot/runtime.py:408-454 | A run without any look of the scanner: the lock refuses one signal and is gone, and in the next cycle, reconciliation still unsafe, the following signal triggers |
| `RuntimeGates.ExecutionsAreApproved` | app/backend/app/bot/runtime.py:475-529 | Over every run readiness is asked only after the risk verdict READY on the signal, and an execution is under way only after READY from both for a signal not submitted before, the cycle never resting in between |
| `RuntimeGates.OrdersAreApproved` | app/backend/app/bot/runtime.py:475-557 | Over every run an entry request or an acceptance belongs to the signal of an execution so approved |
| `RuntimeGates.TriggeringHasTrendAndSetup` | app/backend/app/bot/runtime.py:425-458 | Over every run a symbol triggers only with a valid one-hour trend and a valid fifteen-minute setup |
| `RuntimeGates.BeginVerdict` | app/backend/app/bot/runtime.py:399-417 | The permission a symbol is taken up with: by the allowlist in static mode, by core and pool otherwise, never while cooling down, and withheld while an unknown outcome is not reconciled |
| `RuntimeGates.EntryDueExactly` | app/backend/app/bot/runtime.py:425-447 | Entry is evaluated exactly for a new five-minute candle on a symbol with a valid setup that is watched, armed or triggered; otherwise a stored signal of a TRIGGERED symbol goes on to risk |
| `RuntimeGates.EvaluationVerdict` | app/backend/app/bot/runtime.py:446-475 | A new signal triggers a watched symbol if permitted and invalidates it if not; on a TRIGGERED symbol it drops the stored signal |
| `RuntimeGates.RiskVerdict` | app/backend/app/bot/runtime.py:475-567 | Rejected, the symbol is INVALIDATED and the cycle goes on; READY without permission likewise; READY with permission, readiness is asked about the same signal |
| `RuntimeGates.ReadinessVerdict` | app/backend/app/bot/runtime.py:495-529 | Not READY invalidates the symbol; READY executes the signal unless it was submitted before |
| `RuntimeGates.EntryVerdict` | app/backend/app/bot/runtime.py:526-529 | The entry request of an execution is its own signal, at most once, and moves nothing else but the clock |
| `RuntimeGates.OutcomeVerdict` | app/backend/app/bot/runtime.py:528-557 | Accepted cools the symbol down and remembers the signal; unknown invalidates, locks and remembers it; refused only invalidates, and leaves the signal to be tried again |
| `RuntimeGates.QuietEvents` | app/backend/app/bot/runtime.py:121-171 | A position fetch replaces the open symbols, an exception only ends the turn of its symbol, and a restart takes the submitted signals from the store |
| `BotRuntimes.BotRuntime.BeginSymbol` | app/backend/app/bot/runtime.py:399-417 | The first segment of the cycle on the shared state |
| `BotRuntimes.BotRuntime.OnCandles` | app/backend/app/bot/runtime.py:425-447 | Trend and setup on whatever is new, and the choice of what the cycle waits for next |
| `BotRuntimes.BotRuntime.OnEvaluation` | app/backend/app/bot/runtime.py:446-458 | Entry evaluation and confirmation or refusal in one segment |
| `BotRuntimes.BotRuntime.OnRisk` | app/backend/app/bot/runtime.py:475-567 | The method does with a risk verdict what the step does, which `RiskVerdict` states for each verdict and permission |
| `BotRuntimes.BotRuntime.OnReadiness` | app/backend/app/bot/runtime.py:495-529 | Execution follows only for a signal not submitted before |
| `BotRuntimes.BotRuntime.OnOrder` | app/backend/app/bot/runtime.py:528-557 | What an order outcome does to the state, the cooldown list and the remembered signals |
| `BotRuntimes.BotRuntime.Restart` | app/backend/app/bot/runtime.py:121-171 | A restart of the worker takes the submitted signals from the store and keeps states and cooldowns |
| `BreakEven.RunIsProtective` | app/backend/app/execution/position_manager.py:50-135 | Over any run of marks, refused and unconfirmed amendments, interruptions and restarts on sides BUY and SELL, every amendment comes at +1R of the original stop or beyond and strictly improves on the original and the recorded stop |
| `BreakEven.AmendsExactly` | app/backend/app/execution/position_manager.py:82-123 | When an amendment is made: on BUY and SELL iff not settled, the original stop on the losing side, the gain at least the original risk, and no recorded stop at break-even or better; on another name iff not settled and the price fell by the original risk |
| `BreakEven.VisitPlainly` | app/backend/app/execution/position_manager.py:50-187 | What one visit does: nothing on incomplete data, a new row from the first stop seen, one amendment to the entry price when due, and the row each reply leads to; other symbols stay |
| `BreakEven.ConfirmsPlainly` | app/backend/app/execution/position_manager.py:138-150 | A stop is confirmed iff the first listed position of the symbol that carries one has it within 0.1% or 0.01 of the entry |
| `BreakEven.AmendmentProtective` | app/backend/app/execution/position_manager.py:94-123 | Exactly which amendments are protective: all on BUY and SELL, none on LONG, on SHORT those with both stops above the entry |
| `BreakEven.SafeSides` | app/backend/app/execution/position_manager.py:94-123 | All amendments of a side are protective if and only if the side is BUY or SELL |
| `BreakEven.LongAmendsAtLoss` | app/backend/app/exchange/bybit/client.py:1047-1049 | A LONG position, as the client names it, is amended after losing 1R |
| `BreakEven.ShortMovesBackwards` | app/backend/app/exchange/bybit/client.py:1047-1049 | A SHORT position can have a better stop moved back to break-even |
| `BreakEven.RunKeepsRows` | app/backend/app/execution/position_manager.py:60-187 | Over any run the original stop of a row never changes, be_triggered holds iff the status is SUCCESS, and until then the recorded stop is the original |
| `BreakEven.SuccessAbsorbs` | app/backend/app/execution/position_manager.py:82-84 | After SUCCESS the row never changes and its symbol is never amended again, by a later position either |
| `BreakEven.RunKeepsRecords` | app/backend/app/execution/position_manager.py:156-170 | A SUCCESS row holds the stop and trigger price of the last amendment of its symbol, and every amendment started from the stored original stop |
| `BreakEven.ConfirmationMovesStop` | app/backend/app/execution/position_manager.py:141-150 | When the original risk exceeds the tolerance, a confirmed stop lies strictly nearer to the entry than the original |
| `BreakEven.UnmovedStopConfirms` | app/backend/app/execution/position_manager.py:141-150 | An unmoved stop is confirmed exactly when the original risk is within the tolerance |
| `BreakEven.RunInParts` | app/backend/app/execution/position_manager.py:60-78 | A restart loses nothing: a run continues from the stored rows |
| `BreakEven.PositionManager.ManagePosition` | app/backend/app/execution/position_manager.py:50-187 | The imperative method, around its exchange calls, changes the table and requests amendments exactly as the step says |
| `BreakEven.PositionManager.VerifyStop` | app/backend/app/execution/position_manager.py:138-150 | Confirms by the first listed position of the symbol that carries a stop |
| `BreakEven.PositionManager.ManageOpenPositions` | app/backend/app/execution/position_manager.py:30-48 | One pass is a run over the open positions |
| `Watchdog.HistoryLaw` | app/backend/app/bot/watchdog.py:125-148 | Over every history of checks, some cut short: per incident NEW and RECOVERY alternate starting with NEW, a reminder follows the previous alert by at least 900 seconds, and every notice carries the start of its incident |
| `Watchdog.CheckSendsWhatIsDue` | app/backend/app/bot/watchdog.py:125-148 | Over every history a completed check sends, per incident, exactly what its notices make due: NEW when not ongoing, a reminder when last alerted 900 seconds ago or longer, RECOVERY when over, and nothing else |
| `Watchdog.NoReminderForgotten` | app/backend/app/bot/watchdog.py:125-148 | After a completed check no ongoing incident was last alerted 900 seconds ago or longer |
| `Watchdog.HistoryTracks` | app/backend/app/bot/watchdog.py:125-148 | The two dictionaries always say what the notices say, and after a completed check the active incidents are the current ones |
| `Watchdog.CheckKeepsTracks` | app/backend/app/bot/watchdog.py:125-148 | One check, completed or cut short, keeps that agreement |
| `Watchdog.LawfulTrace` | app/backend/app/bot/watchdog.py:129-148 | The law of one trace of notices, from its step rule |
| `Watchdog.ScheduledHealthWatchdog.CheckHealth` | app/backend/app/bot/watchdog.py:125-148 | The three loops send each incident exactly the notice it is owed and update both dictionaries, and a failing notice leaves only whole incidents undone |

## Left out

- NaN, infinities and Python's 28-digit context: decimals are exact `real` numbers.
- Digests: request hashes, intent ids and order links are injective functions of what they digest.
- Submission times, messages and the signal snapshot columns of the execution table: they decide nothing.
- The client resends a request after one of its own error codes; the log counts calls of `place_order`, not wire messages.
- Missing persistence (`None`): the durable table is always there.
- Readiness and reconciliation: their verdicts are free inputs of the cycle; so are fetched candles, evaluations and clocks.
- Position fetches, trade synchronisation, activity records, publishing and notifications: they change no modelled state.
- The fallback of the cycle without a scanner engine, and without a readiness service.
- Clocks going backwards in the trading cycle: such events are taken not to happen. The watchdog needs no such assumption.
- Trading leadership (a file lock): one trading process is assumed.
- `bias`, scores and reason codes of a symbol state: display only.
- How an opportunity gets its scores and reason codes; the ranking takes them as given.
- Strategy Lab rows with a side other than BUY or SELL, the 10000-row cut of the report, its best, worst and average marks and its latest closing balance; the report groups rows strategy by strategy, not in one pass.
- Root-cause texts, MAE and MFE, matching of closed trades.
- The probes that find watchdog incidents: the set of current incidents is an input.
- Order of the iteration over sets: any order, in every loop.
- `_closed_for`, candle-structure checks and the one-hour gate of the momentum strategy: the snapshot is an input.
- The strategies other than momentum, the HTTP client, authentication, the web interface and deployment: heuristic rule lists, input and output.
- RiskService.BudgetIsInductive: equity is constant over the sequence and positions fill at the reference entry with the decided stop, because fills elsewhere are judged by the gates of `execute`.
- ExecutionTerminal.TerminalIsFinal: assumes recovery and executions do not overlap, because they can disagree otherwise (`OverlapCanReopen`); `TerminalChangesExactly` has the exact condition.
- TableAgreement.SequentialWritesAreReplay: assumes that each trade comes, in signal time, after all earlier trades of its strategy were closed, because the property fails otherwise (`EarlierSignalDisagrees`, `OverlapDisagrees`); `WriteAgreesExactly` has the exact condition.
- TableAgreement.WriteAgreesExactly: speaks of tables of the present lifecycle (rows closed only by marks, or older open rows without levels) whose signal times do not tie, because with ties a replay may choose between orders; `SaveAgrees` and `RoundAgrees` hold for any one order, ties included.
- BreakEven.RunIsProtective: assumes the sides BUY and SELL, because the property fails for the names the client yields (`SafeSides`).
- StrategyLab.RealizedClosedForm: assumes rows of the present lifecycle, closed only by marks, or older open rows without levels; other closed rows carry other percentages.
- RuntimeEntries.EntryPossibleExactly: candles, evaluations and verdicts are free, so it says what the bot holds back, not how soon a market brings the next signal; `UnacceptedEntriesClose` gives runs with candle times. That each signal sends at most one entry is taken from the execution model.
