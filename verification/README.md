# A deterministic paper-trading kernel, modelled and proved in Dafny

The kernel keeps an event-sourced portfolio ledger, executes orders at session opens under
China and US market rules, judges strategies against risk limits, plans orders, asks a language
model for bounded decisions across crashes, and keeps market data point in time. This project
models those parts and proves what they promise over every input, run or history.

How the parts fit together:

| modules | what they are |
|---|---|
| `Common`, `Fifo`, `Book`, `Log`, `Accounting`, `Ledger`, `Statement` | lots, the meaning of a log, which logs are accepted, the ledger object with its loops, and the account statement read off the events alone |
| `Calendar`, `Rules`, `OrderDesk`, `Simulator`, `Settlement` | market rules, the pending queue, its draining, and why the simulator's books and the ledger agree |
| `Backtest`, `Sessions`, `RunSpec`, `Runner`, `FailingRun` | what a run keeps at every session boundary, a whole run as a function with its theorems, the session loop on the objects, and one run that fails |
| `Risk`, `Planning` | the batch of risk decisions, the orders planned from them, and both composed |
| `Decimals`, `Canonical` | exact comparison of decimals, and their canonical text |
| `Journal`, `Provider`, `Decision`, `Coordinator` | the decision journal, recording and replaying, crash-safe decisions, and the objects that carry them out |
| `Leases`, `ProviderBudget`, `BudgetReport` | run leases and phases, the daily provider budget, and what a refresh reports |
| `PointInTime`, `Ingestor` | the revision table with its two queries, and the ingestor |

Pure specifications say what each operation means; classes and methods follow the program's own
loops and field updates and are proved equal to those specifications; theorems are about the
specifications, over whole logs, runs and histories.

Conventions of the model:

- Money, prices, quantities and weights are exact reals. Where the program rounds, the rounding is
  either written out (twelve-place floors, half-even fees and published profit), or a parameter with
  a contract: `Risk.Directed` (never up when capping, never down when weighing) and
  `Planning.RoundsDown` (a working precision that holds every supported quantity).
- Symbols, dates and instants are used only through equality and order, so they are integers.
- A hashed identity is the tuple of the fields it hashes.
- Each transaction is one step. A process may stop between any two durable effects of a decision.
- Files of this repository say in their header which source file they model.

Where the model found that a stronger statement is false:

- A batch of ledger events is judged by its outcome only, so an accepted log can have a past that
  does not replay (`Log.AcceptedWithBrokenPast`; exact condition in `Log.BatchKeepsThePast`).
- The runner's open batch is refused when a held symbol's open price has more than twelve decimal
  places or is too large (`FailingRun.HalfQuantumRunFails`, and for every reachable session
  `RunSpec.FilledBuyFailsTheRun`; exact conditions in `Backtest.BatchAcceptedIff` and `RunSpec.RunFailsIff`).
- A late first baseline changes a past as-of answer from none to some
  (`PointInTime.LateBaselineMovesThePast`; exact condition in `PointInTime.PastMovesIff`).
- A resumed decision leaves its run's row at the send intent (`Decision.ResumedLeavesTheIntentOpen`),
  for good (`Decision.StuckForGood`).
- The provider calls a refresh reports, and the claims it spends, can exceed the calls the provider
  receives (`ProviderBudget.EarlyRefreshCallsNobody`; exact conditions in
  `ProviderBudget.CallsArePaidFor` and `ProviderBudget.ClaimsEqualCallsIff`).
- A refresh with a repeated symbol can fetch it again after success
  (`ProviderBudget.RepeatIsRefetched`; exact conditions in `ProviderBudget.RefetchesIff` and
  `ProviderBudget.DistinctIffNeverRefetched`).

## Model

| member | source | states |
|---|---|---|
| `Fifo.ConsumeConserves` | src/stock_agent/account/ledger.py:636-677 | a sell takes exactly its quantity from the front; cost basis that leaves plus cost basis that stays is what was there, and every lot left is positive |
| `Fifo.ConsumeTwice` | src/stock_agent/account/ledger.py:636-677 | two sells in a row leave the same lots, cost bases included, as one sell of the sum, so cutting a sell into pieces never changes the books |
| `Fifo.ConsumeBeforeAppend` | src/stock_agent/account/ledger.py:611-677 | a later buy never changes which shares an earlier quantity came from |
| `Fifo.ConsumeAll` | src/stock_agent/account/ledger.py:655-677 | selling the whole holding leaves no lot, however many lots it spans |
| `Fifo.TakenAddsUp` | src/stock_agent/account/ledger.py:655-669 | the pieces a sell removes weigh exactly what was sold, at exactly the cost allocated to the sale |
| `Accounting.AccountingIdentity` | src/stock_agent/account/ledger.py:486-609 | after any replayed log, cash plus the cost bases of all open lots equals deposits and adjustments plus realized profit; cash is never negative and every lot is positive |
| `Accounting.LotsAreTheUnsoldBuys` | src/stock_agent/account/ledger.py:611-677 | FIFO against an independent definition: the open lots of a symbol are all its buys with the total ever sold removed once from the front, for any mix of partial, multi-lot and batched sells |
| `Accounting.SharesAreConserved` | src/stock_agent/account/ledger.py:486-609 | what is held of a symbol is what was bought less what was sold, over every replayed log |
| `Log.ReversalIsErasure` | src/stock_agent/account/ledger.py:690-709 | for every accepted log, the log of its surviving events is itself accepted and replays to the same book |
| `Log.PastIsFixed` | src/stock_agent/account/ledger.py:396-416 | a snapshot of the past does not change when later events are appended |
| `Log.PresentIsTheLastPast` | src/stock_agent/account/ledger.py:396-416 | the snapshot at the last event's instant is the one the ledger shows now |
| `Log.ReadableIffOneByOne` | src/stock_agent/account/ledger.py:396-477 | snapshots from the first event on always succeed exactly when every prefix of the log is itself a log the ledger accepts |
| `Log.BatchKeepsThePast` | src/stock_agent/account/ledger.py:423-477 | an accepted batch leaves the past readable exactly when it was readable before and each of its events would be accepted if appended by itself |
| `Log.PlainBatchKeepsThePast` | src/stock_agent/account/ledger.py:418-477 | an accepted batch without reversals, or of one event, passes that condition: every event would be accepted by itself |
| `Log.AcceptedWithBrokenPast` | src/stock_agent/account/ledger.py:423-477 | the failing case made concrete: cash, an impossible sale and its reversal are accepted together, and a snapshot between sale and reversal fails |
| `Log.PeakIsTheMaximum` | src/stock_agent/account/ledger.py:507-599 | the peak is exactly the largest net asset value reached after some surviving event: none exceeds it and one attains it, a batch counting once, after its marks |
| `Ledger.SellLots` | src/stock_agent/account/ledger.py:655-669 | the loop that pops and splits lots leaves exactly what the specification of FIFO leaves, at its cost |
| `Ledger.BookFill` | src/stock_agent/account/ledger.py:611-677 | a fill books to what the specification of a buy or a sell says, with the same refusals |
| `Ledger.BookFills` | src/stock_agent/account/ledger.py:547-575 | a batch books fill by fill, and fails as a whole with the first refusal |
| `Ledger.ReplayOne` | src/stock_agent/account/ledger.py:507-599 | one event moves the book as specified, peak included; what the specification means for cash, shares, marks and peak is said by the Statement rows |
| `Ledger.ReplayEvents` | src/stock_agent/account/ledger.py:486-609 | the replay loop computes the specified book, or the first fault |
| `Ledger.ActiveEvents` | src/stock_agent/account/ledger.py:690-709 | the reversal scan succeeds exactly when every reversal names an earlier ordinary event not reversed before, and returns exactly the survivors |
| `Ledger.Judge` | src/stock_agent/account/ledger.py:442-477 | a candidate log passes exactly when it is acceptable, and yields the book its survivors replay to |
| `Ledger.PortfolioLedger.AppendMany` | src/stock_agent/account/ledger.py:423-484 | a batch is committed exactly when the final log is acceptable; a refused batch changes nothing; the views afterwards are those of the replayed survivors |
| `Ledger.PortfolioLedger.Append` | src/stock_agent/account/ledger.py:418-421 | one event is a batch of one |
| `Ledger.PortfolioLedger.SnapshotAsOf` | src/stock_agent/account/ledger.py:396-416 | a snapshot at an instant is recomputed from the events at or before it |
| `Ledger.PortfolioLedger.Rebuild` | src/stock_agent/account/ledger.py:433-440 | every log a ledger accepted rebuilds, and gives a ledger holding that log |
| `Ledger.ErasureShowsTheSame` | src/stock_agent/account/ledger.py:433-484 | a ledger rebuilt from the surviving events shows the same cash, profit, positions, lots, net asset value and peak |
| `Statement.MarksAreLastPrices` | src/stock_agent/account/ledger.py:547-599 | over every replayed log each held symbol stands at the price of the last event that names it, whether a mark, a batch, a close, a buy or a partial sell; the price is found by a scan of the events |
| `Statement.CashIsTheFlow` | src/stock_agent/account/ledger.py:507-609 | cash is the sum of what each event pays in or out, fees included |
| `Statement.NavIsNetValue` | src/stock_agent/account/ledger.py:678-687 | net asset value is that cash plus, over the symbols held, shares bought less sold times last price |
| `Statement.PeakIsHighest` | src/stock_agent/account/ledger.py:507-599 | the peak is the highest such value after any event of the log |
| `Statement.SnapshotsAreStatements` | src/stock_agent/account/ledger.py:396-416 | every snapshot is that statement of the events up to its instant: cash, net asset value, peak and one position per held symbol with its shares, price and market value |
| `Statement.LedgerIsAStatement` | src/stock_agent/account/ledger.py:378-416 | the ledger's own views are that statement of its surviving events, with the open lots of each symbol in order and the realized profit that is left |
| `Statement.TakenIff` | src/stock_agent/account/ledger.py:507-687 | the next event is taken exactly when cash and shares cover it, every fill of a batch settles in turn, and marks name exactly what is held; said in the event's own fields |
| `Calendar.MakeCalendar` | src/stock_agent/market/calendar.py:19-32 | a calendar is built exactly from distinct dates, and holds them in order |
| `Calendar.IsSession` | src/stock_agent/market/calendar.py:34-38 | the binary search answers membership exactly |
| `Calendar.NextSession` | src/stock_agent/market/calendar.py:40-46 | the next session is the least later one, and is missing exactly when there is none |
| `Rules.NormalizeQuantity` | src/stock_agent/execution/cn_rules.py:86-107 | China buys are cut to whole lots of a hundred, losing less than one lot; all other quantities stand |
| `Rules.CanSellT1` | src/stock_agent/execution/cn_rules.py:110-127 | shares may be sold from the first session after the one they were acquired in; it raises exactly for dates that are not sessions |
| `OrderDesk.Admit` | src/stock_agent/execution/simulator.py:94-166 | an admitted order carries a supported positive quantity no larger than requested |
| `OrderDesk.AdmittedExactlyWhen` | src/stock_agent/execution/simulator.py:94-166 | an order is queued exactly when nothing keeps it out, for the very next listed session and in whole board lots where those apply; otherwise it is rejected for the first reason that is so |
| `OrderDesk.SubmittedAs` | src/stock_agent/execution/simulator.py:94-170 | submitting uses up the identity, queues only an admitted order, at the end, and answers in exactly these fields |
| `OrderDesk.RefusedExactlyWhen` | src/stock_agent/execution/simulator.py:172-282 | a session is processed exactly when calendar, session, states, cash and time line allow it; otherwise the first fault is raised |
| `Simulator.QueueSplits` | src/stock_agent/execution/simulator.py:284-492 | draining splits the queue in order: one terminal result for each order that ends, the others wait untouched |
| `Simulator.CashIsConserved` | src/stock_agent/execution/simulator.py:284-492 | running cash of every account is its starting cash plus the net of its fills, and never negative |
| `Simulator.SellsStayWithinSellable` | src/stock_agent/execution/simulator.py:340-374 | filled sells of an account and symbol never exceed the sellable quantity of the lots supplied |
| `Simulator.FilledExactlyWhen` | src/stock_agent/execution/simulator.py:320-488 | an order that ends is filled exactly when the market lets it trade, a sell fits what its lots allow less what the session already sold, and price, fees and the cash left by earlier orders can be recorded |
| `Simulator.FeesAreNearest` | src/stock_agent/execution/simulator.py:511-524 | fees are the exact proportional fee to the nearest quantum |
| `Simulator.FillsAreCharged` | src/stock_agent/execution/simulator.py:398-488 | every filled result of a drain, buy or sell, carries the proportional fee of its own quantity and price to the nearest quantum, ties to even |
| `Simulator.FairFeeIsUnique` | src/stock_agent/execution/simulator.py:511-524 | and that fee is one number: no two fees meet the description |
| `Simulator.RejectedForItsReason` | src/stock_agent/execution/simulator.py:320-488 | an order that ends unfilled is rejected for a reason that is true of it, given the cash and sells left by the orders before it |
| `Simulator.ExecutionSimulator.Submit` | src/stock_agent/execution/simulator.py:94-170 | submission is the specified admission: exactly the admitted orders join the queue, and every identity is used up |
| `Simulator.ExecutionSimulator.ProcessSession` | src/stock_agent/execution/simulator.py:172-492 | a session is the specified draining of the queue, its fills charged at the rate of its market; a refused session raises the specified fault and changes nothing |
| `Settlement.SettledComesFirst` | src/stock_agent/account/ledger.py:655-669 | settled lots are a prefix of a holding, so taking no more than the settled quantity takes settled shares only |
| `Settlement.SellableIsFree` | src/stock_agent/execution/rules.py:150-173 | given the ledger's own lots, the market rules answer with exactly the shares the ledger has free |
| `Settlement.OneOrderAgrees` | src/stock_agent/execution/simulator.py:284-492 | one order keeps the simulator's running books and the ledger in agreement, fill for fill |
| `Settlement.DrainAgrees` | src/stock_agent/backtest/runner.py:349-370 | two books agree: the fills of any drained session book to the ledger without refusal, cash agrees exactly, and in China every booked sell takes only lots of strictly earlier sessions |
| `Backtest.BatchAcceptedIff` | src/stock_agent/backtest/runner.py:586-607 | a batch of the session's fills with the derived marks is accepted exactly when the open price of every symbol then held is one the ledger can record |
| `Backtest.MarkAccepted` | src/stock_agent/backtest/runner.py:392-411 | marking the close of every held symbol is always accepted and moves no lot |
| `Sessions.OpenProcesses` | src/stock_agent/backtest/runner.py:349-360 | at every open of a run nothing is refused, every queued order is answered in order, the queue empties, and the two books agree |
| `RunSpec.PlanIsAnswered` | src/stock_agent/backtest/runner.py:446-459 | submitting a plan on an open desk: every order, in plan order, is queued for the next session at its normalized quantity, or refused with its own intent and a reason, exactly by whether its quantities can be supported; the queue holds just those |
| `RunSpec.SessionMeaning` | src/stock_agent/backtest/runner.py:346-459 | a session that can be recorded leaves ledger and desk ready for the next open, with exactly the submitted orders queued |
| `RunSpec.RunAnswers` | src/stock_agent/backtest/runner.py:289-497 | over every run each plan is submitted whole, order by order, and every queued order is answered, in order, at the very next open and never later |
| `RunSpec.AnswersSay` | src/stock_agent/backtest/runner.py:446-459 | each submission in its own fields: the planned symbol, side and quantity for the account and market of the run, refused at once for its quantity or queued in whole board lots |
| `RunSpec.RunExecutesAtOpens` | src/stock_agent/backtest/runner.py:349-370 | over every run each fill has the open price of its session and the proportional fee, sells as well as buys; every other answer moves nothing |
| `RunSpec.RunStandsAtCloses` | src/stock_agent/backtest/runner.py:392-411 | after every session of a run the ledger holds everything at that session's close |
| `RunSpec.RunWritesItsLog` | src/stock_agent/backtest/runner.py:544-607 | over every run the log is the opening cash and then, session by session, one batch of the filled answers with the marks of everything held, if anything filled, and one close mark; nothing else |
| `RunSpec.BooksAgreeOverTheRun` | src/stock_agent/backtest/runner.py:349-412 | in every session a run reaches and records, the desk's running cash is the cash the ledger replays to, and the close leaves every lot as the fills booked it |
| `RunSpec.RunFailsIff` | src/stock_agent/backtest/runner.py:289-497 | a run ends early exactly when some session is reached, fills something, and then holds a symbol whose open the ledger cannot record |
| `RunSpec.OneFailure` | src/stock_agent/backtest/runner.py:289-497 | and it does so at one session only |
| `RunSpec.SupportedOpensNeverFail` | src/stock_agent/backtest/runner.py:586-607 | a run whose opens are all supported fails nowhere |
| `RunSpec.FilledBuyFailsTheRun` | src/stock_agent/backtest/runner.py:544-607 | let a buy queued for the next open be one the desk fills by its own test; if any other held symbol opens there at an unsupported price, the run fails at that session |
| `FailingRun.HalfQuantumRunFails` | src/stock_agent/backtest/runner.py:586-607 | a concrete valid run of three sessions and two filled buys fails at its third, where the share bought first opens at half a quantum |
| `Runner.DeriveBatch` | src/stock_agent/backtest/runner.py:544-594 | the derived quantity map shows exactly what the ledger will hold, so the marks name exactly the held symbols |
| `Runner.BookOpenBatch` | src/stock_agent/backtest/runner.py:544-607 | booking appends exactly the batch of the fills with the derived marks when the opens are recordable; otherwise it is refused and leaves the ledger as it was |
| `Runner.MarkClose` | src/stock_agent/backtest/runner.py:392-411 | the close appends exactly the mark of everything the ledger holds, and is never refused |
| `Runner.SubmitPlan` | src/stock_agent/backtest/runner.py:446-459 | the loop leaves the desk and returns the answers of the specified submission of the plan, order by order |
| `Runner.TradeSession` | src/stock_agent/backtest/runner.py:346-412 | one session on the objects: the fills, the desk and the log are those of the specified open; it stops, with the log as it was, exactly when the batch cannot be recorded |
| `Runner.Run` | src/stock_agent/backtest/runner.py:289-497 | a whole run on the objects is the run as specified: it errs exactly at the session that cannot be recorded, and otherwise returns that run's results and log, with plans submitted whole, answers one session later at open prices and proportional fees, a log of the executions alone, and the ledger standing at the last closes |
| `Risk.EvaluateBatch` | src/stock_agent/risk/engine.py:567-608 | a batch is judged exactly when its symbols are distinct, and then as the specified fold, each of whose decisions is right in the sense of EveryDecisionIsRight |
| `Risk.CapsFit` | src/stock_agent/risk/engine.py:463-497 | the three caps applied in order leave a target that fits the request, the stock limit, the sector room and the cash room at once, under directed rounding |
| `Risk.CapsAreTight` | src/stock_agent/risk/engine.py:457-497 | the capped target is the least of request, stock limit and sector room, unless the cash of the day binds, and no rule is named exactly when all limits already fit |
| `Risk.ApprovedIffFits` | src/stock_agent/risk/engine.py:622-692 | a buy is approved exactly as requested when, and only when, it fits every limit |
| `Risk.DrawdownThresholds` | src/stock_agent/risk/engine.py:180-194 | the two drawdown thresholds are the loss from the peak reaching fifteen and twenty percent of it |
| `Risk.EveryDecisionIsRight` | src/stock_agent/risk/engine.py:567-692 | every decision of a batch, verdict, target, rules and reduction: an intent that is not a buy is refused exactly for another market and otherwise approved at its own target; a buy is refused exactly when blocked or cut to nothing, and otherwise gets the least of its limits, with exactly the rules that bound it |
| `Risk.RoomsAreWhatIsLeft` | src/stock_agent/risk/engine.py:245-281 | at every intent of a batch the room of its sector is thirty percent less what is held in it, rounded up, and what the earlier approved buys added, and the cash for new positions is thirty percent of the day's starting cash less everything committed; both summed over positions and decisions |
| `Risk.OwnSectorFits` | src/stock_agent/risk/engine.py:245-281 | with the held weight rounded up, the exact projected weight of the sector stays within its limit |
| `Risk.EveryDecisionFits` | src/stock_agent/risk/engine.py:622-692 | every decision answers its own intent; an approved buy is positive, at most its request and at most fifteen percent |
| `Risk.TotalsFollowDecisions` | src/stock_agent/risk/engine.py:585-607 | the reserved weights are exactly those of the approved buys, and the committed notional is the starting one plus that of the approved new positions |
| `Risk.BatchKeepsLimits` | src/stock_agent/risk/engine.py:567-608 | after any batch, under any safe rounding: every sector with an approved buy is projected within thirty percent, at most max(10, starting count) holdings are projected, and new-position notional stays within max(starting commitment, thirty percent of day-start cash) |
| `Planning.FloorAfterTruncation` | src/stock_agent/backtest/planning.py:321-325 | cutting a quotient at the working precision first never changes its twelve-place floor, nor the range check |
| `Planning.HalfAfterTruncation` | src/stock_agent/backtest/planning.py:374-380 | two truncated divisions and a floor give exactly the floor of half the weight |
| `Planning.SizedQuantity` | src/stock_agent/backtest/planning.py:321-354 | a planned quantity is the exact quotient cut to twelve places; planning fails exactly when the quotient reaches 1E26 |
| `Planning.BuyReachesTarget` | src/stock_agent/backtest/planning.py:290-354 | a planned buy brings the holding, at the close, to within one quantum of its target and never past it |
| `Planning.ReduceReachesTarget` | src/stock_agent/backtest/planning.py:290-354 | a planned reduction brings the holding down to within one quantum of its target and never below it |
| `Planning.SellClosesHolding` | src/stock_agent/backtest/planning.py:243-288 | an approved sell closes the whole holding, exactly when there is one of supported size |
| `Planning.PlansAreRight` | src/stock_agent/backtest/planning.py:236-525 | a planning round gives exactly the plans its decisions and its drawdown call for: an order exactly for a buy or reduction whose floored distance to its target is positive, a sell of something held, or a halving; no order for a hold or a refusal |
| `Planning.SidesFollowIntents` | src/stock_agent/backtest/planning.py:236-354 | an order exists only for a decision not refused, buys only for a buy intent, sells only for a sell or reduce intent, and never for a hold |
| `Planning.SellIntentCloses` | src/stock_agent/backtest/planning.py:243-288 | risk and planning composed: outside a twenty percent drawdown, an intent to sell a held symbol of supported size ends in a ready order for the whole holding |
| `Planning.CutHalves` | src/stock_agent/backtest/planning.py:357-432 | what a reduction leaves of a holding, at the close, is at most half its value and one quantum |
| `Planning.CutWithinHolding` | src/stock_agent/backtest/planning.py:357-432 | with the holding marked at the close a reduction sells no more than is held, and never fails for a supported holding |
| `Planning.PlanningSucceedsIff` | src/stock_agent/backtest/planning.py:65-127 | planning the engine's own decisions succeeds exactly when markets match and every close is known |
| `Planning.OnePlanPerSymbol` | src/stock_agent/backtest/planning.py:469-511 | a reduction has exactly one plan for each symbol decided on or held |
| `Planning.DrawdownHalvesEveryHolding` | src/stock_agent/backtest/planning.py:469-511 | risk and planning composed: at a drawdown of twenty percent or more, on any intents, every symbol asked for or held has exactly one plan, nothing is bought, and every holding is cut to half or less, up to one quantum |
| `Planning.PlannedBuysWithinDailyCash` | src/stock_agent/backtest/planning.py:513-525 | without such a drawdown, the new positions planned cost no more, at the close, than the rest of the daily budget |
| `Planning.MakePlans` | src/stock_agent/backtest/planning.py:435-525 | the planning loops compute the specified plans, or the first fault in input order; which plans those are is said by PlansAreRight |
| `Planning.PlanEach` | src/stock_agent/backtest/planning.py:471-499 | the loop over decisions plans each of them and remembers exactly the holdings it spoke of |
| `Planning.PlannedOrdersAreValid` | src/stock_agent/backtest/planning.py:138-170 | the ready orders of any planning round are ones the session loop accepts: distinct symbols, executable sides, positive quantities |
| `Planning.SubmissionsCanBeRecorded` | src/stock_agent/backtest/planning.py:528-549 | whatever the desk answers to a ready order, the answer can be recorded and never increases the order |
| `Decimals.CompareProductsExact` | src/stock_agent/risk/engine.py:115-155 | comparing products by adjusted exponent, then by padded digits, gives the sign of the exact difference for all nonnegative decimals of any length and exponent |
| `Decimals.CompareScaledExact` | src/stock_agent/risk/engine.py:86-112 | the same for decimals scaled by whole factors, compared on a common exponent |
| `Decimals.CompareTenfold` | src/stock_agent/strategies/fixture.py:174-195 | the digit scan gives the sign of ten times the left operand less the right |
| `Decimals.LexIsNumeric` | src/stock_agent/risk/engine.py:149-155 | equally long digit strings compare as numbers |
| `Canonical.CanonicalDecimal` | src/stock_agent/audit/canonical.py:7-21 | the loop that strips zeros prints the canonical text |
| `Canonical.NormalFormIsUnique` | src/stock_agent/audit/canonical.py:14-18 | equal numbers whose coefficients are not divisible by ten have the same digits and exponent |
| `Canonical.PrintThenRead` | src/stock_agent/audit/canonical.py:7-21 | printing and reading back keeps the numeric value of every decimal |
| `Canonical.SameTextIffSameNumber` | src/stock_agent/audit/canonical.py:7-21 | two decimals print alike exactly when they are numerically equal, negative zero included |
| `Canonical.CanonicalIsIdempotent` | src/stock_agent/backtest/runner.py:102-103 | canonicalizing a canonical value changes nothing |
| `Journal.AppendKeepsTables` | src/stock_agent/strategies/llm_journal.py:122-202 | every append keeps one canonical decision per request, and every successful attempt's decision on file |
| `Journal.DecisionAcceptedIff` | src/stock_agent/strategies/llm_journal.py:145-167 | a decision is accepted exactly when it is the request's first or the same one again, and its attempt identity is free or identical |
| `Journal.AppendIsIdempotent` | src/stock_agent/strategies/llm_journal.py:122-190 | repeating an accepted append changes nothing |
| `Journal.AppendedExactlyWhen` | src/stock_agent/strategies/llm_journal.py:122-228 | which appends commit, row by row what each leaves behind, and which error each other one meets |
| `Journal.LLMDecisionJournal.AppendAttempt` | src/stock_agent/strategies/llm_journal.py:122-202 | an append is the specified transaction: all of it, or an error and no change; nothing written is ever altered |
| `Provider.FoundIffFiled` | src/stock_agent/strategies/llm_journal.py:269-282 | over every history of appends, the lookup by request and the lookup by identity return a decision exactly when some accepted append filed it |
| `Provider.Judge` | src/stock_agent/strategies/llm_provider.py:134-175 | a reply is accepted exactly when it comes from the policy's model and revision, answers this request, and holds one allowed selection per candidate, in order; the answer is then its very selections and response, and every refusal is filed under what is wrong with it |
| `Provider.Replay` | src/stock_agent/strategies/llm_provider.py:262-292 | a request replays exactly when the journal holds a record of it made under this policy with allowed selections, and then to that record; each refusal names what differs |
| `Provider.RecordedExactlyWhen` | src/stock_agent/strategies/llm_provider.py:134-251 | what recording a reply reports and writes: the decision of an acceptable reply the journal takes, else a failed attempt under the fault found first, else nothing and an audit failure |
| `Provider.RecordThenReplay` | src/stock_agent/strategies/llm_provider.py:134-284 | a recorded decision replays as itself after any later appends to the journal |
| `Provider.ReplayIsStable` | src/stock_agent/strategies/llm_provider.py:262-284 | once a request replays, it replays to the same record for ever |
| `Decision.RunDecisionIsHonest` | src/stock_agent/runtime/decision.py:95-155 | whichever read, write or construction fails and wherever a call stops: FAILED_PRE_SEND made no send, DECIDED and RESUMED carry the journal's record, NEEDS_RECONCILIATION is on disk, a raised error leaves every row as it was or, once the request is out, this run's send intent open, and both stores stay consistent |
| `Decision.RaisesExactlyWhen` | src/stock_agent/runtime/decision.py:105-155 | a call that is not stopped raises exactly when a journal read, a row read, the transport's construction, a reconciliation write or a decision write fails on the path it takes |
| `Decision.SendsExactlyWhen` | src/stock_agent/runtime/decision.py:95-155 | a call sends, once, exactly when both reads succeed and find nothing for the request or the run, credential and transport are there, the policy passes and the intent reaches the disk |
| `Decision.DecidedExactlyWhen` | src/stock_agent/runtime/decision.py:105-155 | a call reports a decision exactly when it sends, an acceptable reply comes back, the journal takes it and nothing fails after; the record is the reply's own selections, response, model and revision under the request's own terms |
| `Decision.FailureIsFiled` | src/stock_agent/strategies/llm_provider.py:134-238 | an unacceptable reply is filed as a failed attempt under what is wrong with it, and decides nothing |
| `Decision.PreSendCode` | src/stock_agent/runtime/decision.py:112-155 | a failure before the send names its cause: the credential, the policy, or the audit record |
| `Decision.AtMostOneSend` | src/stock_agent/runtime/decision.py:95-155 | over every history of calls with changing requests, failures, abandonments, foreign journal appends and stops between any two durable effects, no run is sent more than once |
| `Decision.OneDecisionPerRequest` | src/stock_agent/runtime/decision.py:105-155 | any two calls of a history that report a decision for the same request report the same record |
| `Decision.NothingIsForgotten` | src/stock_agent/runtime/store.py:749-930 | over every history decisions and attempts stay as written, and a run's mark only moves forward |
| `Decision.DecidedReplaysForever` | src/stock_agent/strategies/llm_provider.py:262-284 | once decided, replaying returns the same record at the end of any history |
| `Decision.StopsBetweenEffects` | src/stock_agent/runtime/decision.py:95-155 | stopping cuts a call off between two of its durable effects: stopped at once it has done nothing, one effect more is one write more, a call not stopped in time ends as it would have, and none has more than four |
| `Decision.MarkedRunNeverSends` | src/stock_agent/runtime/decision.py:105-151 | whatever fails, a run that left a mark is never sent again: it is resumed, escalated or refused exactly when stated, and otherwise the call raises |
| `Decision.ResumedLeavesTheIntentOpen` | src/stock_agent/runtime/decision.py:105-111 | after a stop between storing the decision and marking the run, asking again returns the record and leaves the run's own row at the send intent |
| `Decision.ResumedKeepsTheRow` | src/stock_agent/runtime/decision.py:105-111 | every call that resumes changes nothing: the run's row is at the send intent exactly when it was before, whichever run decided the request |
| `Decision.StuckForGood` | src/stock_agent/runtime/decision.py:105-167 | such a run stays there over every later history in which its calls ask for that request: no call, no operator and no other run ever moves its mark |
| `Decision.AbandonKeeps` | src/stock_agent/runtime/store.py:877-930 | abandoning changes something exactly for a run that needs reconciliation when the write succeeds, and leaves it abandoned with one note |
| `Decision.OneNotePerAbandonedRun` | src/stock_agent/runtime/store.py:877-930 | over every history the abandoned runs are exactly those with an operator's note, each with one |
| `Decision.IntentTakenIff` | src/stock_agent/runtime/store.py:749-791 | a send intent is taken exactly for a new run, or for the same request while its intent is open; each refusal names what stands in the way, and no other row is written |
| `Decision.DecisionTakenIff` | src/stock_agent/runtime/store.py:793-834 | a decision is recorded exactly on an open intent, or is the one already recorded; each refusal is named |
| `Decision.EscalationTakenIff` | src/stock_agent/runtime/store.py:836-860 | escalation moves an open intent, leaves every other mark, and needs a mark to be there |
| `Decision.AbandonmentTakenIff` | src/stock_agent/runtime/store.py:877-930 | abandonment takes exactly a run that needs reconciliation; each refusal is named |
| `Coordinator.RuntimeStore.MarkIntent` | src/stock_agent/runtime/store.py:749-791 | the send-intent transaction, idempotent for the same request |
| `Coordinator.RuntimeStore.Record` | src/stock_agent/runtime/store.py:793-834 | the decision-recorded transaction; a storage failure leaves the rows |
| `Coordinator.RuntimeStore.NeedReconciliation` | src/stock_agent/runtime/store.py:836-860 | the needs-reconciliation transaction; a storage failure leaves the rows |
| `Coordinator.RuntimeStore.AbandonRun` | src/stock_agent/runtime/store.py:877-930 | the abandonment transaction; a storage failure leaves rows and notes |
| `Coordinator.DecisionCoordinator.RunDecision` | src/stock_agent/runtime/decision.py:95-155 | the ordered effects on store, journal and transport do exactly what the specification says, for every failure and stop |
| `Coordinator.DecisionCoordinator.AbandonDecision` | src/stock_agent/runtime/decision.py:157-167 | abandoning through the coordinator |
| `Leases.TransitionsAdvance` | src/stock_agent/runtime/state.py:56-111 | a phase can be left exactly when it is not terminal, and only to a phase of higher rank |
| `Leases.LegalBothWays` | src/stock_agent/runtime/state.py:56-111 | the transitions, given again as the phases each phase can be reached from |
| `Leases.OneOwnerAtATime` | src/stock_agent/runtime/store.py:326-383 | at no instant do two leases granted for one run overlap, whatever clocks the claims were made under |
| `Leases.ExpiryIncreases` | src/stock_agent/runtime/store.py:326-383 | each lease starts when its predecessor has run out, and expires strictly later |
| `Leases.AttemptsAreNumbered` | src/stock_agent/runtime/store.py:360-379 | attempts of a run are numbered 1 to n in order, and only the first is primary |
| `Leases.AtMostSixMoves` | src/stock_agent/runtime/state.py:72-103 | a run changes phase at most six times |
| `Leases.FinishedForGood` | src/stock_agent/runtime/store.py:352-411 | a finished run has no lease, and nothing later gives it an attempt, a lease or another phase |
| `Leases.ClaimableIff` | src/stock_agent/runtime/store.py:326-383 | an unfinished run always has a lease, and can be claimed exactly when it has run out |
| `Leases.ClaimExactly` | src/stock_agent/runtime/store.py:326-383 | after any history a claim answers and writes exactly this: grant, resumption or refusal, attempt number, owner, and a lease from its instant for its seconds; no other run is touched |
| `Leases.TransitionExactly` | src/stock_agent/runtime/store.py:385-411 | after any history a transition succeeds exactly when it is legal from the phase reached, writes exactly that phase, and drops the lease at a terminal one |
| `Leases.LeasesRunAsAsked` | src/stock_agent/runtime/store.py:360-379 | over every history each lease granted runs exactly the seconds its claim asked for, from the claim's own instant |
| `Leases.RunStore.NextAttemptNumber` | src/stock_agent/runtime/store.py:1278-1282 | the next number is one past the largest of the run |
| `Leases.RunStore.ClaimRun` | src/stock_agent/runtime/store.py:326-383 | the claim transaction: the specified grant, resumption or refusal, and no change on refusal |
| `Leases.RunStore.TransitionRun` | src/stock_agent/runtime/store.py:385-411 | the phase transaction; a terminal phase deletes the lease |
| `ProviderBudget.RefreshKeeps` | src/stock_agent/runtime/market_data.py:104-159 | one refresh of distinct symbols keeps every budget promise and reports every attempt it was granted as a call, whether or not the provider was asked |
| `ProviderBudget.CallsArePaidFor` | src/stock_agent/runtime/store.py:533-579 | over every history the claims granted for a provider day stay within both limits and pay for every call; they equal the calls exactly when every attempt reached the provider |
| `ProviderBudget.ClaimsEqualCallsIff` | src/stock_agent/data/providers/ingestion.py:199-235 | over a working connection they are equal exactly when no refresh of the day claimed before all closes of its schedule had passed |
| `ProviderBudget.EarlyRefreshCallsNobody` | src/stock_agent/runtime/market_data.py:161-230 | the failing case made concrete: a refresh before its last close spends a claim and reports one call, and the provider receives none |
| `ProviderBudget.NeverOverBudget` | src/stock_agent/runtime/market_data.py:104-234 | however often a day is refreshed, its provider is called at most as often as the profile's two limits allow together |
| `ProviderBudget.NoCallAfterThrottle` | src/stock_agent/runtime/market_data.py:161-234 | no attempt of a provider day follows its first throttled one |
| `ProviderBudget.NeverRefetched` | src/stock_agent/runtime/store.py:671-694 | a symbol on record as fetched for a session is never attempted for it again |
| `ProviderBudget.RefetchesIff` | src/stock_agent/runtime/market_data.py:104-159 | a first refresh can attempt again what it already fetched exactly when its sessions are over, it has a recovery claim, and a symbol given twice has both places within the normal claims |
| `ProviderBudget.DistinctIffNeverRefetched` | src/stock_agent/runtime/market_data.py:104-159 | with normal claims for every symbol and one to recover, no replies ever make it refetch exactly when the symbols are distinct |
| `ProviderBudget.RepeatIsRefetched` | src/stock_agent/runtime/market_data.py:125-156 | the replies that do it: permanent failures, a retryable one at the first of the pair, a success at the second, and the recovery pass asks again |
| `BudgetReport.GuardIs` | src/stock_agent/data/providers/ingestion.py:199-235 | what stands in front of a fetch: construction, then every close of the schedule by the clock of the refresh |
| `BudgetReport.ReportIsTrue` | src/stock_agent/runtime/market_data.py:104-234 | a refresh of distinct symbols that ends without an error of its own reports one outcome per symbol, and each tells what happened: the one or two replies it got, the limit or circuit that kept it from being asked, or that it was complete before; the attempts on record are those of the replies |
| `BudgetReport.RefreshIsOrderly` | src/stock_agent/runtime/market_data.py:125-159 | a refresh asks in two runs, each in rising order of symbols; the first is charged to the normal limit, the second to the recovery limit, one claim per attempt, and no other day is charged |
| `ProviderBudget.MarketDataBatchOrchestrator.ClaimProviderBudget` | src/stock_agent/runtime/store.py:533-579 | the claim transaction |
| `ProviderBudget.MarketDataBatchOrchestrator.AttemptSymbol` | src/stock_agent/runtime/market_data.py:161-230 | one attempt claims, asks the provider unless something turns it down first, opens the circuit if throttled, and records, or leaves with the error |
| `ProviderBudget.MarketDataBatchOrchestrator.NormalPass` | src/stock_agent/runtime/market_data.py:125-145 | the normal pass visits the symbols in ascending order as specified |
| `ProviderBudget.MarketDataBatchOrchestrator.RecoveryPass` | src/stock_agent/runtime/market_data.py:147-156 | the recovery pass retries exactly the retryable symbols |
| `ProviderBudget.MarketDataBatchOrchestrator.RefreshSymbols` | src/stock_agent/runtime/market_data.py:104-159 | a refresh is the two passes, with an outcome for every symbol in ascending order, or the error that left it |
| `PointInTime.IngestOutcome` | src/stock_agent/data/providers/ingestion.py:199-383 | an ingestion appends exactly the revisions its bars call for, or nothing; it never finds a row identity taken, and both clocks keep increasing along every event |
| `PointInTime.IngestedRowsAreOk` | src/stock_agent/data/providers/ingestion.py:199-383 | a store written only by ingestors, of any providers and under any clocks, has one provider per event and strictly increasing availability and ingestion times |
| `PointInTime.LatestQueriesAgree` | src/stock_agent/data/store.py:466-522 | the latest observed revision and the latest as of any instant from the last ingestion on are the same row, however text is ordered |
| `PointInTime.AnswersAreFixed` | src/stock_agent/data/providers/ingestion.py:310-336 | once an as-of question has an answer, no ingestion made after that instant changes it |
| `PointInTime.IngestSucceedsIff` | src/stock_agent/data/providers/ingestion.py:199-361 | an ingestion succeeds exactly when its reply passes the ordered checks and every bar is of the event's only provider and either repeats the last revision or comes later than it |
| `PointInTime.AdmittedIff` | src/stock_agent/data/providers/ingestion.py:199-283 | the ordered checks let a reply through exactly when the schedule is the request's, its sessions have closed, and the bars are sound, of the provider and the request, session after session |
| `PointInTime.RefusedForItsFault` | src/stock_agent/data/providers/ingestion.py:199-361 | a refused ingestion is refused for a fault that is so |
| `PointInTime.BatchTakenIff` | src/stock_agent/data/store.py:306-448 | a batch of any writes is taken exactly when they are distinct and storable and each could be taken by itself; the rows not known are then appended in order and the others reported as repeated |
| `PointInTime.AsOfIsTheNewest` | src/stock_agent/data/store.py:466-493 | of any table, the as-of query returns a latest row of the event among those available by then, and none exactly when there is none |
| `PointInTime.ObservedIsTheNewest` | src/stock_agent/data/store.py:495-522 | of any table, the observed query returns a row of the provider's event ingested latest, and none exactly when there is none |
| `PointInTime.PastMovesIff` | src/stock_agent/data/providers/ingestion.py:325-336 | a past answer moves exactly when there was none, the event's first baseline comes in although its session closed by then, and the ingestion meets that condition |
| `PointInTime.LateBaselineMovesThePast` | src/stock_agent/data/providers/ingestion.py:325-336 | it happens: one valid bar fetched late into an empty table answers a question about an earlier instant that had no answer |
| `PointInTime.AnswersStand` | src/stock_agent/data/store.py:466-493 | an answer stands at the end of any history whose later ingestions happen after its instant |
| `PointInTime.ReingestingIsSilent` | src/stock_agent/data/providers/ingestion.py:284-324 | ingesting the same bars again, at any admissible time, appends nothing and reports every bar as known |
| `Ingestor.PointInTimeStore.AppendBarRevisions` | src/stock_agent/data/store.py:306-448 | a batch of revisions is inserted as a whole or not at all, row by row as specified: numeric range, single provider, identity, and the strict stream clock when asked for |
| `Ingestor.IncrementalBarIngestor.Draft` | src/stock_agent/data/providers/ingestion.py:284-361 | the loop over the bars drafts the specified revisions, or the first fault |
| `Ingestor.IncrementalBarIngestor.IngestBars` | src/stock_agent/data/providers/ingestion.py:199-383 | an ingestion does what the specification says; a failed one leaves the store as it was |

## Left out

- Decimals.CompareProductsExact: the program builds its integers from digit strings, and the interpreter's default limit makes that raise beyond 4300 digits; the model compares coefficients of any length.
- Decimals.CompareScaledExact: the same limit on converting between integers and digit strings is not modelled.
- BudgetReport.ReportIsTrue: stated for distinct symbols; of a repeated symbol the outcome of its last visit is reported, and whether it is fetched again is the subject of `ProviderBudget.RefetchesIff`.
- ProviderBudget.NoCallAfterThrottle: a storage error between the provider's answer and its record ends the attempt as `Broke`, whatever the answer was, so a throttled call whose circuit could not be written does not count as throttled.
- Ingestor.PointInTimeStore.AppendBarRevisions: the option that lifts the single-provider test is not modelled; the ingestor never uses it.
- Lot cost splits are exact; the program rounds each split and the published cost of a position at its 128-digit working precision.
- Lots and holdings are values that the ledger's loops replace, so aliasing between lot objects is not captured.
- The replay's second test for repeated fill identities is not modelled: acceptance already demands distinct ones.
- Bars, session states and closes are maps from symbols, so repeated or foreign bars handed to the simulator or the runner are not modelled.
- Custom market rule sets: only the two built-in ones are modelled.
- The runner's revision matrix, provenance checks, strategies and the notional it passes to the risk engine are not modelled; a run takes the planned orders of each session as given, and `Planning.PlannedOrdersAreValid` shows that planning supplies such orders.
- Planning computes target times net asset value exactly; the program does so at 256 digits.
- The order of input checks is followed where it decides which error is reported; checks of types, text, time zones and polluted models are not modelled.
- Reply payloads are modelled once decoded; JSON parsing is not.
- A decision run is worked on by one process at a time; other processes may append to the journal while the reply is awaited.
- A process stopping inside a provider refresh, between a call and its record, is not modelled.
- Run attestations, kill switches, snapshot manifests, risk envelopes and pending-order tables of the runtime store are not modelled.
- Closing instants are taken to fall on or after their session date, so the ingestor's refusal of earlier ones is not modelled.
- Provider identity changing between two calls of one ingestion is not modelled.
- HTTP clients, credentials, file locks, scheduling, reports and the command line are not modelled.
