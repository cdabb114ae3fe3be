# Paper-trading core, modelled and proved

A Dafny model of the deterministic core of a paper-trading backend: SENTINEL's risk verdict, the simulated
fill, the ledger it is booked in, the one transaction that ties them together, the database's guard on the
account's controls, the store of recorded markets, the budgeted market acquisition, and two small companions
(bar series and base-unit conversion).

`dafny verify dfyconfig.toml` checks all of it.

## What the model is made of

- **Amounts** are integers, counted in quanta of 10^-18; only a product or a quotient is a `real`. Every
  operation rounds where the program rounds: `Quantize` and its directed variants bring a value to the
  ledger's scale (half-even, as roundTiesToEven of section 4.3.1 of IEEE 754-2008), and `Sig(lead, x)` is a
  decimal context, which keeps 28, 78 or 160 significant digits after every single operation. The default
  28-digit context is modelled wherever the program does not raise it.
- **The engine, the executor, the accounting and the valuation** are functions with the methods that compute
  them: the capacity loop, the reason lists and the valuation are loops proved against those functions.
- **The service, the operator controls, the recorder, the control database and the acquisition ledger** are
  classes whose methods change their fields step by step and are proved against functions on values. A run is
  a sequence of such transactions, serialised by the account lock, and the theorems about runs are inductions
  over it.
- **Outside inputs** are parameters: clock readings, marks, provider answers, the recorder's replies, a
  case-bound caller's `authorize` and `admit`. A fingerprint is the fingerprinted value, an identifier is a
  number, and a fresh identifier is the identity of the order it belongs to.

## Where the code falls short of its promise

Each of these is stated with a concrete input and with the condition under which the promise holds.

- **Resizing.** The capacity loop validates at 78 digits what `evaluate` validates at 28. A request reported
  LIMITED with a capacity of 1470.977... dollars is refused when resized to exactly that capacity
  (`Resizing.ResizeRefused`). The promise holds exactly when the capacity itself passes at 28 digits.
- **28 digits.** From 10^10 dollars or tokens on, a sum of ledger figures is no longer exact: a quantum can be
  lost (`Accounting.QuantumLost`, `PaperHoldings.TokensLost`). The comment at portfolio.py:242-243 calls the
  daily-loss sum exact; a quantum can be missing from it (`LargeLimits.LossMissed`), and a limit can then be
  passed unseen (`LargeLimits.LossLimitMissed`, `LargeLimits.ExposureMissed`). Which limits are kept is decided
  by one rounding of the limit itself (`Numbers.LimitKeptExactly`, `Numbers.BarKeptExactly`). The two roundings
  of a sale's released basis fail earlier: from just above 9 * 10^8 dollars of basis, closing a position can raise
  (`Accounting.LargeCloseRefused`); below that a sale never releases more than is held
  (`Accounting.RemovedWithinBasis`).
- **Exits.** An approved purchase does not always leave a sellable position. Under a position limit above a
  quarter of the ledger's range a sale's own worst case can be no ledger figure, and evaluating it raises
  (`EntryAndExit.ExitTrapped`, `EntryAndExit.ExitApprovedExactly`); and where slippage takes all but half a
  quantum of the price, an approved sale's fill price rounds to zero and its execution raises
  (`PaperHoldings.ApprovedSaleRaises`, `ExitPath.ApprovedSaleIsAnswered`).
- **The liquidity floor.** A floor with more digits than 160 can multiply may pass a pool that is below it
  (`EntryAndExit.ShortfallLost`); LIMIT and no reason are exact but for that (`EntryAndExit.LimitExactly`), and
  a floor of at most 44 digits is always decided exactly (`EntryAndExit.ShortFloorKeepsShare`).
- **No price improvement.** A quote of more than 28 digits is rounded before it is compared with anything; where
  that lowers it, a purchase fills below it (`LargeLimits.PurchaseBelowQuote`, `PaperExecution.QuoteSideExactly`).
- **Base units.** `to_human` is called an exact conversion; it is one exactly for quantities of at most 28
  significant digits (`Quotes.BaseUnitsRoundTrip`, `Quotes.OneUnitLost`).
- **Audited controls.** The trigger fires on insert and update. Deleting the account row and inserting it
  unhalted commits without an event (`AuditedControls.RemovalEscapes`); no control ends without one in any
  history that inserts no row without it (`AuditedControls.LiftsAudited`), and no halt is imposed without one in
  any history at all (`AuditedControls.ImpositionsAudited`).

## Model

| member | source | states |
|---|---|---|
| `Numbers.QuantizeNearest` | backend/src/core/numbers.py:4-8 | `quantize` is the one ledger figure within half a quantum of the value, the even one on a tie (iff) |
| `Numbers.QuantizeMonotone` | backend/src/core/numbers.py:4-8 | rounding to the ledger never reorders two values |
| `Numbers.QuantizeWhole` | backend/src/core/numbers.py:4-8 | a figure already on the ledger's grid is kept |
| `Numbers.QuantizeUpLeast` | backend/src/core/numbers.py:26-35 | `quantize_up` is the least ledger figure not below the value, and less than one quantum above it |
| `Numbers.QuantizeDownGreatest` | backend/src/core/numbers.py:38-46 | `quantize_down` is the nearest ledger figure towards zero: the greatest not above a non-negative value, the least not below a negative one (iff) |
| `Numbers.SigMonotone` | backend/src/risk/engine.py:123-129 | rounding to a context's significant digits never reorders two values |
| `Numbers.SigError` | backend/src/risk/engine.py:123-129 | its error is at most half a unit in the last digit, one part in `2 * 10^(digits-1)` |
| `Numbers.SigShiftBy` | backend/src/risk/engine.py:123-129 | it commutes with every shift of the decimal point |
| `Numbers.Whole28Decides` | backend/src/risk/engine.py:267-272 | comparing a 28-digit sum of ledger figures with a figure below 10^10 dollars decides the exact comparison |
| `RiskEngine.AdditionalBuyNotional` | backend/src/risk/engine.py:76-107 | the correction loop returns the capacity the specification settles on |
| `RiskEngine.CollectReasons` | backend/src/risk/engine.py:130-265 | appending reason by reason yields the unsized reasons in the engine's order; the kill switch alone pauses |
| `RiskEngine.Evaluate` | backend/src/risk/engine.py:110-315 | the whole evaluation returns the decision the specification gives, its own validation errors included |
| `RiskCapacity.LoopCostExact` | backend/src/risk/engine.py:96-107 | in the 78-digit context the loop's two roundings act on exact products |
| `RiskCapacity.BudgetExact` | backend/src/risk/engine.py:89-98 | the budget is the exact least of cash, remaining exposure and remaining position, not below zero |
| `RiskCapacity.CapacityIsConservativeAndNear` | backend/src/risk/engine.py:89-107 | the capacity costs no more than the budget or is zero, the loop takes at most one step, and no affordable notional is more than two quanta above it |
| `RiskAuthorization.CleanExactly` | backend/src/risk/engine.py:130-265 | no reason but size is reported exactly when every listed condition on order, evidence, market, costs and account holds (iff) |
| `RiskAuthorization.ApprovedExactly` | backend/src/risk/engine.py:267-285 | a decision approves exactly when its figures are representable, nothing unsized is reported and the size passes (iff) |
| `RiskAuthorization.UnsizedNotSizing` | backend/src/risk/authorization.py:36-42 | no reason that is independent of size is one a resize could cure |
| `RiskAuthorization.LimitedExactly` | backend/src/risk/authorization.py:45-79 | a decision reads LIMITED exactly for a clean purchase refused on size alone with positive capacity, and then reports that capacity (iff) |
| `Resizing.WorstCostMonotone` | backend/src/risk/engine.py:125-129 | a smaller notional never costs more through the two nested roundings |
| `Resizing.SameUnsized` | backend/src/risk/engine.py:130-265 | the quantity enters no reason but the sizing ones |
| `Resizing.HonouredExactly` | backend/src/risk/engine.py:267-280 | every notional within a capacity is affordable exactly when the capacity itself is in 28 digits (iff) |
| `Resizing.AffordableExactly` | backend/src/risk/engine.py:267-280 | for a holding worth whole quanta and limits below 10^10 dollars that condition is one comparison: 28-digit worst case against the least of cash, exposure left and position left (iff) |
| `Resizing.ResizeSound` | backend/src/risk/engine.py:76-107 | under that condition every resized intent within the reported capacity is approved |
| `Resizing.ResizeSoundInWholeBps` | backend/src/risk/engine.py:76-107 | the condition holds, so the promise does, for whole basis points and capacities up to 250,000 dollars |
| `Resizing.ResizeRefused` | backend/src/risk/engine.py:104-107 | without it the promise fails: a LIMITED request resized to exactly its capacity is refused |
| `EntryAndExit.SupplyRecorded` | backend/src/risk/engine.py:34-49 | a known supply is the recorded raw amount at its recorded decimals, and never zero |
| `EntryAndExit.UnverifiedExactly` | backend/src/risk/engine.py:203-235 | UNVERIFIED is reported exactly when every reading the rounded figures allow puts the liquidity above the valuation (iff) |
| `EntryAndExit.UndecidableExactly` | backend/src/risk/engine.py:203-235 | UNDECIDABLE exactly when the figures allow readings on both sides of the valuation (iff) |
| `EntryAndExit.LimitExactly` | backend/src/risk/engine.py:203-235 | LIMIT exactly when no reading is above the valuation and some reading is below the required share of it, unless 160 digits bring the share down onto the liquidity (iff) |
| `EntryAndExit.WithinRatioExactly` | backend/src/risk/engine.py:203-235 | no reason exactly when every reading the figures allow has a ratio of at most one and of at least the minimum, or misses it by what 160 digits lose (iff) |
| `EntryAndExit.ShortFloorKeepsShare` | backend/src/risk/engine.py:33-34 | nothing is lost with a floor of at most 44 digits |
| `EntryAndExit.ShortfallLost` | backend/src/risk/engine.py:231-233 | with a longer floor it can be: a pool of a tenth passes a floor just above a tenth |
| `EntryAndExit.ExitIndifferent` | backend/src/risk/engine.py:140-148 | a sale's reasons and outcome do not change with LP control, supply, known concentration, positive liquidity or known daily loss |
| `EntryAndExit.ExitApprovedExactly` | backend/src/risk/engine.py:110-285 | wherever a purchase is approved, the sale of any held quantity with the same timing and slippage is approved exactly when its notional and worst case are ledger figures (iff) |
| `EntryAndExit.EntryImpliesExit` | backend/src/risk/engine.py:110-285 | they always are, so every such sale is approved, under a position limit up to a quarter of the ledger's range less one dollar |
| `EntryAndExit.ExitTrapped` | backend/src/risk/engine.py:110-129 | above that it can fail: a purchase is approved next to a holding whose own sale raises a validation error |
| `PaperExecution.FillPriceSide` | backend/src/execution/paper.py:31-32 | a purchase fills at or above the quote and a sale at or below it wherever 28 digits do not move the quote itself to the other side; below 10^10 dollars they do not move it |
| `PaperExecution.QuoteSideExactly` | backend/src/execution/paper.py:31-32 | that condition is exact: it holds for every slippage if and only if the quote is not moved there (iff, for either side) |
| `LargeLimits.PurchaseBelowQuote` | backend/src/execution/paper.py:31-32 | at a quote of 10^10 dollars and a quantum it fails: a purchase fills below it |
| `PaperExecution.FeesWithinGross` | backend/src/execution/paper.py:33 | the fee never exceeds the gross value, through three 28-digit roundings |
| `PaperExecution.ApprovedFillBound` | backend/src/execution/paper.py:26-33 | gross value plus fees stays within the approved worst case plus tokens bought and four and a half quanta, up to seven 28-digit roundings |
| `PaperExecution.ApprovedFillWithinFive` | backend/src/execution/paper.py:26-33 | below 10^25 quanta of cost and tokens the excess is less than the tokens bought plus five quanta |
| `Accounting.FillConserves` | backend/src/ledger/accounting.py:14-30 | one fill keeps cash plus basis minus realised result, while the figures stay below 10^10 dollars |
| `Accounting.FillConservesWithRoom` | backend/src/ledger/accounting.py:14-30 | the same from bounds a caller can check before the booking |
| `Accounting.RemovedWithinBasis` | backend/src/ledger/accounting.py:26 | a sale releases no more basis than is held and a full close releases all of it, for a basis below nine hundred million dollars |
| `Accounting.FillKeepsSound` | backend/src/ledger/accounting.py:18-30 | booking keeps cash non-negative, a sale empties a position exactly when it sells all of it, and with less than nine hundred million dollars of basis none is left on an empty one |
| `Accounting.ProceedsNonNegative` | backend/src/ledger/accounting.py:27-30 | sale proceeds are never negative |
| `Accounting.SaleIsBooked` | backend/src/ledger/accounting.py:23-64 | every covered sale of moderate size is booked: the accounting traps no exit |
| `Accounting.LargeCloseRefused` | backend/src/ledger/accounting.py:26-29 | above that it can fail: closing 0.0000111... tokens that cost 900.01 million dollars releases one quantum too much and raises |
| `Accounting.QuantumLost` | backend/src/ledger/accounting.py:20-22 | where 28 digits run out: adding one quantum to a basis of 10^10 dollars loses it |
| `ProfitAndLoss.LookupsDefined` | backend/src/ledger/accounting.py:75-79 | the snapshot is computed exactly when every non-empty holding has a price; otherwise it is an error |
| `ProfitAndLoss.SnapshotBalances` | backend/src/ledger/accounting.py:75-94 | equity equals what the account holds at cost plus the total result |
| `Portfolio.ValuePortfolio` | backend/src/ledger/portfolio.py:154-275 | the loop over the holdings yields the valuation of the specification |
| `PortfolioValuation.CollectedPrices` | backend/src/ledger/portfolio.py:154-181 | with one row per asset, each holding is valued by its own market or mark, whatever else is held |
| `PortfolioValuation.Recorded` | backend/src/ledger/portfolio.py:172-181 | the marks used and the unmarked assets are exactly those of the holdings that rest on one or lack one |
| `PortfolioValuation.ConflictExactly` | backend/src/ledger/portfolio.py:168-171 | a conflicting market is reported exactly when the order's asset is held from another named market |
| `PortfolioValuation.ValuationExactly` | backend/src/ledger/portfolio.py:214-275 | accounting is PASS exactly when every holding is priced and the figures fit (iff); then exposure lies in [exact, exact + 1 quantum) |
| `PortfolioValuation.LimitsHoldExactly` | backend/src/ledger/portfolio.py:89-101 | a purchase that passes the exposure and loss limits on rounded figures passes them on the exact ones, for limits that 28 digits keep |
| `Numbers.LimitKeptExactly` | backend/src/risk/engine.py:267-272 | a limit is kept on rounded sums exactly when the next figure does not round down onto it (iff) |
| `Numbers.BarKeptExactly` | backend/src/risk/engine.py:261-266 | a limit not to be reached is kept exactly when it does not itself round down (iff) |
| `Numbers.SmallLimitsKept` | backend/src/risk/engine.py:261-272 | every limit below 10^10 dollars is kept in both ways |
| `LargeLimits.ExposureMissed` | backend/src/risk/engine.py:267-272 | at 10^10 dollars it fails: a purchase one quantum above the exposure limit is approved |
| `LargeLimits.LossMissed` | backend/src/ledger/portfolio.py:242-248 | with 10^10 dollars realised, an unrealised loss of up to a quantum disappears from the day's sum |
| `LargeLimits.LossPortfolio` | backend/src/ledger/portfolio.py:242-248 | a portfolio of which that is so |
| `LargeLimits.LossLimitMissed` | backend/src/risk/engine.py:261-266 | and a purchase is approved with the day's loss at its limit |
| `PortfolioValuation.OrderOfRowsIrrelevant` | backend/src/ledger/portfolio.py:221-236 | any order of the rows gives the same context, issues, conflict, marks and unmarked assets |
| `PortfolioValuation.HeldRows` | backend/src/ledger/portfolio.py:330-331 | the record lists every non-empty row once, in asset order |
| `PortfolioValuation.ReplayReproduces` | backend/src/ledger/portfolio.py:309-379 | the audit record replays to the same context, issues, conflict, marks and unmarked assets |
| `PositionMarks.Value` | backend/src/orchestration/valuation/service.py:58-89 | the walk over the holdings in asset order yields the reading of the specification |
| `PositionMarks.MarkStandsFor` | backend/src/orchestration/valuation/service.py:91-144 | a mark is of the holding's asset and of the market it names, and current when it is read |
| `PositionMarks.MarksReadExactly` | backend/src/orchestration/valuation/service.py:58-144 | by asset, the marks are exactly those given to non-empty holdings (iff) |
| `PositionMarks.UnvaluedExactly` | backend/src/orchestration/valuation/service.py:58-89 | a reading is complete exactly when every holding got a mark; the two lists together are as long as the holdings (iff) |
| `PositionMarks.ReadsNoUnnamed` | backend/src/orchestration/valuation/service.py:92-97 | a holding without a recorded market is never given a mark |
| `PositionMarks.CompleteReadingPrices` | backend/src/orchestration/valuation/service.py:58-89 | after a complete reading whose marks are still current, every holding is priced when the order is judged |
| `PositionMarks.MarkedByNewestEvent` | backend/src/orchestration/valuation/service.py:98-109 | with its market's identity known, a holding is priced by that market's newest recorded event, valid at both clock readings, and nothing older |
| `PaperService.PaperTradingService.Roll` | backend/src/ledger/portfolio.py:37-47 | the row is reset exactly when the UTC day differs |
| `PaperService.PaperTradingService.HaltEntriesAutomatically` | backend/src/orchestration/entryhalt/service.py:109-152 | sets the automatic halt with its event, or leaves one in force as it is |
| `PaperService.PaperTradingService.Charge` | backend/src/orchestration/paper.py:366-379 | books cash, fees and the loss of the fill's own day |
| `PaperService.PaperTradingService.BookFill` | backend/src/orchestration/paper.py:362-391 | writes order, fill, position, trade, account, halt and snapshot as the specification says |
| `PaperService.PaperTradingService.Execute` | backend/src/orchestration/paper.py:221-399 | the order of checks, records and bookings refines the specification, errors included |
| `PaperService.PaperTradingService.Process` | backend/src/orchestration/paper.py:157-216 | one transaction commits the specified tables and answer, or nothing at all when it raises, expires or is refused |
| `PaperRuns.CommitsEffect` | backend/src/orchestration/paper.py:157-188 | a transaction commits exactly its effect: nothing, a recorded refusal or a complete booking, and answers with it |
| `PaperRuns.RunRecorded` | backend/src/orchestration/paper.py:315-391 | over every run each intent has one decision about itself, and an order, execution, trade and snapshot exactly when it is an approval |
| `PaperRuns.NeverIncomplete` | backend/src/orchestration/paper.py:213-215 | the "incomplete intent" branch is unreachable in every run |
| `PaperRuns.RunExtends` | backend/src/data/repository.py:42-69 | records are immutable and the logs only grow, over every run |
| `PaperRuns.ResubmissionReturnsTheAnswer` | backend/src/orchestration/paper.py:190-216 | resubmitting an answered order at any later point returns the stored answer and changes nothing |
| `PaperMoney.SavedRows` | backend/src/data/repository.py:96-104 | saving a position keeps one row per asset and changes the sums by exactly that row |
| `PaperMoney.RunConserves` | backend/src/ledger/accounting.py:9-94 | over every run below 10^10 dollars of cash, basis and results, cash + basis - realised stays the initial cash and every snapshot has equity = initial cash + total result |
| `PaperMoney.RunLeavesNoCost` | backend/src/ledger/accounting.py:23-30 | over every run whose rows stay below nine hundred million dollars of basis, an empty row costs nothing |
| `PaperMoney.ApprovedIsPriced` | backend/src/ledger/accounting.py:75-77 | for an approved order no price lookup of its snapshot is undefined |
| `PaperHoldings.RunHeldAsTraded` | backend/src/ledger/accounting.py:14-30 | over every run that never holds 10^10 tokens of one asset, each holding is what its trades bought less what they sold |
| `PaperHoldings.TokensLost` | backend/src/ledger/accounting.py:20-22 | from 10^10 tokens on it is false: a quantum is paid for and traded, and the holding does not move |
| `PaperHoldings.SalePriceLost` | backend/src/execution/paper.py:31-32 | a sale's fill price rounds to nothing exactly where twice the price left after slippage is at most one quantum (iff) |
| `PaperHoldings.ApprovedSaleIsFilled` | backend/src/orchestration/paper.py:337-361 | an approved sale of moderate size, placed in its window, is simulated and booked exactly when its fill price does not round to nothing (iff), and at no more than the quote |
| `PaperHoldings.ApprovedSaleRaises` | backend/src/execution/paper.py:26-32 | where it does, executing an approved sale raises: one quantum of price at half of it |
| `ExitPath.SnapshotComputed` | backend/src/ledger/accounting.py:75-94 | below a quarter of 10^10 dollars each, the snapshot of priced holdings is always computed |
| `ExitPath.ApprovedSaleIsAnswered` | backend/src/orchestration/paper.py:157-399 | the whole transaction: such a sale is answered with its fill exactly when its price does not round to nothing, and otherwise changes nothing (iff) |
| `PaperGuards.RunKeepsLoss` | backend/src/orchestration/paper.py:368-379 | with a clock that never goes back, the day's realised loss is the sum over exactly the fills of that UTC day, midnight crossings included |
| `PaperGuards.RunKeepsFees` | backend/src/orchestration/paper.py:367 | the fees on the account are the fees of its trades, over every run |
| `PaperGuards.RunFollows` | backend/src/orchestration/entryhalt/service.py:109-365 | over every run a halt is in force exactly when the last change on record is a SET |
| `PaperGuards.NoPurchaseWhileHalted` | backend/src/orchestration/paper.py:267-273 | whenever a run books a purchase, every SET of either halt on record has a later CLEAR |
| `PaperGuards.RunStaysHaltedAtLimit` | backend/src/orchestration/entryhalt/service.py:181-206 | over every run, operators included and whatever the limit, entries stay halted as long as the day's realised loss is at it |
| `PaperExposure.CostCovers` | backend/src/risk/engine.py:123-129 | the worst case covers the exact value of the order but for half a quantum and one rounding |
| `PaperExposure.ExposureAfterPurchase` | backend/src/orchestration/paper.py:288-355 | a booked purchase moves the exposure by exactly its own position's growth; it is within its limit but for half a quantum, three roundings and what the price used exceeds the order's by; the position is within its own limit whatever that price |
| `PaperExposure.LimitsHoldAfterPurchase` | backend/src/orchestration/paper.py:288-355 | so both limits hold right after a booked purchase wherever no unnamed holding of the asset is marked above the order's price |
| `PaperExposure.LimitsHoldWithinOneQuantum` | backend/src/risk/engine.py:267-278 | for limits up to 10^8 dollars the roundings are less than one quantum in all |
| `PaperExposure.LimitsHoldOverRuns` | backend/src/orchestration/paper.py:288-355 | the same after every purchase of every run, named and unnamed orders mixed, that is given no mark for a holding without a recorded market |
| `ReadExposure.LimitsHoldWithReadMarks` | backend/src/orchestration/valuation/service.py:92-97 | and no such mark is given: the limits hold for marks the reader took at any earlier point, with only orders that name their market in between |
| `UnnamedHolding.UnnamedMarkBreaksTheCap` | backend/src/orchestration/paper.py:288-355 | what that refusal is for: handed a mark the reader never gives, the session books a purchase under a limit of 10,000 dollars that leaves an exposure of a million |
| `PaperExposure.CashTakenNearWorstCase` | backend/src/execution/paper.py:26-33 | with less than 10^10 dollars of cash, and cost and tokens of at most 10^25 quanta together, the cash a booked purchase takes exceeds its recorded worst case by fewer quanta than tokens bought plus five |
| `EntryHalts.EntryHaltService.SetManualHalt` | backend/src/orchestration/entryhalt/service.py:248-281 | sets the manual halt with its event, or records why not |
| `EntryHalts.EntryHaltService.ClearManualHalt` | backend/src/orchestration/entryhalt/service.py:283-316 | lifts the manual halt with its event, or records why not |
| `EntryHalts.EntryHaltService.ClearAutoHalt` | backend/src/orchestration/entryhalt/service.py:318-365 | lifts the automatic halt only after its loss day and under the limit; every refusal in order |
| `EntryHalts.EntryHaltService.LiftPause` | backend/src/orchestration/entryhalt/service.py:375-449 | lifts the pause only for the confirmed legacy origin and into a standing halt; every refusal in order |
| `AuditedControls.RequireAuditedEntryHalt` | backend/migrations/versions/0023_persistent_entry_halt.py:157-213 | the trigger accepts a row change exactly when each changed halt has its event in the same transaction |
| `AuditedControls.RequireAuditedPauseClear` | backend/migrations/versions/0024_paper_job_runs.py:151-176 | the trigger accepts a row change exactly when a lifted pause has its event in the same transaction |
| `AuditedControls.ControlStore.Transact` | backend/migrations/versions/0023_persistent_entry_halt.py:65-214 | statements and deferred triggers commit or restore the database as specified |
| `AuditedControls.EventsOnlyGrow` | backend/migrations/versions/0023_persistent_entry_halt.py:147-156 | stored events are consistent and never change |
| `AuditedControls.ImpositionAudited` | backend/migrations/versions/0023_persistent_entry_halt.py:157-213 | every committed transaction that leaves a halt in force it did not find so, updated, inserted or replaced, holds its own SET with that reason |
| `AuditedControls.LiftAudited` | backend/migrations/versions/0023_persistent_entry_halt.py:157-213 | every committed transaction that ends a control holds its own CLEAR, if each row it inserts has the control in force |
| `AuditedControls.ImpositionsAudited` | backend/migrations/versions/0023_persistent_entry_halt.py:157-213 | over every history whatever, at least as many new SET events as transactions that imposed or changed a halt: none serves two |
| `AuditedControls.LiftsAudited` | backend/migrations/versions/0023_persistent_entry_halt.py:157-213 | over every history that inserts no row without a control that stands or stood last, at least as many new CLEAR events as transactions that ended it, across deletions too |
| `AuditedControls.RemovalEscapes` | backend/migrations/versions/0023_persistent_entry_halt.py:208-213 | that guard is needed: deleting the row and inserting it unhalted commits without any event |
| `AuditedService.RunIsAccepted` | backend/migrations/versions/0023_persistent_entry_halt.py:157-213 | every step of every run of the services is a transaction the triggers accept, leaving exactly its row and events |
| `JobRuns.JobRunTable.Update` | backend/migrations/versions/0024_paper_job_runs.py:87-137 | no update changes a run's identity or anything of a finished run; another passes exactly when the new row meets the row checks, and is refused as a whole otherwise |
| `JobRuns.JobRunTable.Finish` | backend/src/orchestration/jobruns/service.py:173-198 | the recorder finishes exactly one running row, once; the trigger never refuses it, only the row checks can |
| `JobRuns.FinishedIsFinal` | backend/migrations/versions/0024_paper_job_runs.py:89-137 | whatever updates are attempted, identity stays and the first finished state is final |
| `MarketReadings.PairIdNamesOnePool` | backend/src/markets/models.py:84-109 | a canonical pair id names one pool: chain, network, kind, value and, for a pool id, venue |
| `MarketReadings.FreshnessColumn` | backend/src/markets/models.py:311-339 | for a valid reading the stored freshness column says what `is_valid_at` says (iff) |
| `MarketRecorders.MarketRecorder.RecordReporting` | backend/src/markets/recorder.py:47-93 | insert-if-absent and then insisting on the content refines the specification |
| `MarketRecorders.RecordingKeeps` | backend/src/markets/recorder.py:69-93 | recording is append-only and idempotent, columns stay what payloads say, and conflicts change nothing |
| `MarketReaders.FilterIsMatching` | backend/src/markets/reader.py:112-139 | a reading matches a full identity exactly when the query's conditions select it and the identity's locator is at its own venue (iff) |
| `MarketReaders.ScopedReadExactly` | backend/src/markets/reader.py:92-195 | a scoped read answers exactly with the market's newest event, and only if that one is valid (iff) |
| `MarketReaders.OtherMarketsDoNotInterfere` | backend/src/markets/reader.py:92-195 | recording another market's event never changes the answer |
| `MarketReaders.NothingOlderRevealed` | backend/src/markets/reader.py:103-106 | an unusable newest event leaves no answer |
| `MarketReaders.PartialScopeUnambiguous` | backend/src/markets/reader.py:188-194 | a partial scope is answered only if all its current readings are of one market |
| `MarketReaders.ListingExactly` | backend/src/markets/reader.py:29-82 | every page shows exactly the eligible rows whose rank among all eligible ones lies on it, less those that fail the second check, each once and newest first (iff) |
| `Acquisition.PlanPositions` | backend/src/runner/acquisition.py:413-452 | distinct markets cover every addressable holding, and the rest are counted |
| `Acquisition.Ledger.Commit` | backend/src/runner/acquisition.py:612-624 | one slot per distinct market not asked about before |
| `Acquisition.Ledger.Record` | backend/src/runner/acquisition.py:319-349 | a planned market's answer of another identity is refused and never stored under it |
| `Acquisition.Acquisition.Positions` | backend/src/runner/acquisition.py:942-1017 | holdings are asked about outside the case budget, each answered at most once |
| `Acquisition.Acquisition.Targeted` | backend/src/runner/acquisition.py:853-940 | on every exit path no pool is asked about twice, the holdings' included, and what is spent is the number of distinct pools the cases added |
| `Acquisition.Acquisition.Ask` | backend/src/runner/acquisition.py:885-940 | one request spends exactly the distinct pools it names, at most thirty of those wanted |
| `Acquisition.Acquisition.Discovery` | backend/src/runner/acquisition.py:1019-1079 | on every exit path the reads made are the first chains' of the plan, each allowed what the budget then left, and what was spent is the sum of their allowances |
| `Acquisition.Acquisition.Discover` | backend/src/runner/acquisition.py:1036-1078 | one read spends its allowance before it is made and keeps it spent: timed out, failed, finished or cut off while recording |
| `Acquisition.Acquisition.Execute` | backend/src/runner/acquisition.py:693-762 | for any provider answers and timeouts the budget holds, no pool is asked about twice, and coverage without deficit means every holding was answered under its own identity |
| `Acquisition.NoDeficitCoversAll` | backend/src/runner/models.py:350-379 | a count without deficit leaves no planned market unanswered |
| `MarketHistory.CoherentSeries` | backend/src/markets/history.py:171-200 | the walk over the bars and the checks after it accept exactly the coherent series (iff) |
| `MarketHistory.DerivedCoverageIsTheOneAccepted` | backend/src/markets/history.py:92-105 | `coverage_for` is the one coverage the validator accepts (iff) |
| `MarketHistory.MissingIsCounted` | backend/src/markets/history.py:207-219 | `missing_intervals` is the number of grid slots between first and last bar at which no bar opens |
| `Quotes.BaseUnitsRoundTrip` | backend/src/markets/quotes.py:47-67 | base units come back exactly when they have at most 28 significant digits (iff); all up to 10^28 do |
| `Quotes.OneUnitLost` | backend/src/markets/quotes.py:47-67 | 10^28 + 1 base units come back as 10^28 |
| `Quotes.HumanRoundTrip` | backend/src/markets/quotes.py:54-67 | an amount that converts comes back as itself to 28 digits |

## Left out

- FillConserves: one direction only. Beyond 10^10 dollars two rounding errors can cancel by chance, so the bound is sufficient and not necessary; `QuantumLost` shows that it is not idle.
- RemovedWithinBasis: stated below 9 * 10^8 dollars of basis. Above that the outcome depends on the digits of basis and quantity together; `LargeCloseRefused` is a case 13,148 dollars above the bound where it fails.
- RunConserves: for runs whose every state is below 10^10 dollars of cash, basis and results, the bound of FillConserves.
- RunLeavesNoCost: the bound of RemovedWithinBasis, for each row.
- LimitsHoldAfterPurchase: one direction. An unnamed holding marked above the order's price can still leave the exposure within its limit when there is room; `ExposureAfterPurchase` gives the exact growth in every case.
- RunHeldAsTraded: one direction, as for FillConserves; `TokensLost` shows that the bound is not idle.
- ApprovedSaleIsAnswered: for figures of at most a quarter of 10^10 dollars each, and a caller whose `authorize` and `admit` let the sale through.
- AffordableExactly: the held value is a whole number of quanta. A value with further digits is rounded twice at 28 digits before it meets the limit, and may pass while lying above it.
- RunKeepsLoss: requires clock readings that never go backwards; a clock set back resets the day's loss in the code.
- RunStaysHaltedAtLimit: requires that no case-bound caller names another daily loss limit than the service's own.
- LiftsAudited: requires that no row is inserted without a control that stood when there last was a row, for the reason given above.
- ResizeSound: one direction per intent, because not every notional up to the capacity is the notional of some quantity at the market's price; over notionals `HonouredExactly` gives both.
- FillPriceSide: a quote that 28 digits lower or raise is excluded on the side it moves to, exactly as `QuoteSideExactly` says.
- Targeted: identities whose pool identifier begins with their chain and network, as every recorded pair's does.
- LimitsHoldWithReadMarks: a standalone order without a market, processed between the reading and the order, could leave a holding unnamed that was named when it was read; nothing but tests submits one.
- Valuation: the exponents of market marks are taken to fit the 250-digit context, so its sums are exact.
- The content of fingerprints, UUIDs, JSON payloads and correlation identifiers; a payload is the value itself.
- Row order of a query without ORDER BY; the model keeps one order and `OrderOfRowsIrrelevant` shows that none matters.
- The flushes inside a transaction: one step is written as its events followed by one update of the account row.
- Actor references, run identifiers and the `pause_origin` reading behind a request to lift the pause; the origin is an input.
- Case workflow, case fill, case exit, worker leases and the risk-request service: a case-bound order is an order with inputs of its own, and a case's verdict a step that may pause and halt.
- The planner's database queries, the system-stop check, the transport and the provider's own request counters of an acquisition, and the discovery read's account of rejections.
- `MarketReader.observations`, `identities` and `candidates`, and `HeldMarketFeed`: windows and projections of the same table.
- `canonical_decimal`, `percent_to_bps`, execution quotes, range properties of a series, and everything in HTTP, RPC, configuration and presentation.
- Legacy decision records, historical serialisations and the migrations' upgrade and downgrade steps.
