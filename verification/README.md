# Order, fill and position ledger: a verified model

This project models the engine of a rule-driven trading program: how a decision
becomes a committed order, how the broker's running totals become fills, how
fills become positions and closed trades, and how cycles, crashes, halts and
resumes interleave. The tables are one value (`Ledger.Tables`); the connection
is a class with a pending and a stored copy of them, plus a ghost trace of every
commit and every request sent. Amounts are integers: cents for money, 1/10000 of
a dollar for prices, quantized half-even wherever the program quantizes.

Every step of the program is a specification function over tables or over a
`World` (pending tables, stored tables, trace). The code that changes things
step by step is a method on the connection, proved equal to that function; the
theorems are lemmas about the functions. The broker, the market, the LLM, the
clock, `uuid4` and database failures are arbitrary functions (`Environment.Env`)
of the call they answer: the broker of the read's number, the clock of the
place that asks, a failure of the statement and what it is for. A statement
about every `Env` is a statement about every way one cycle may go.

Two kinds of lemma stand beside each other. Laws say what a step, a cycle or a
run keeps. Exact forms (such as `Rules.ExitExactly`) say what a specification
function computes, in other terms than its body's: half-even quotients as
inequalities, rules with their priority, rows field by field, a cycle as what it
owes and what it sends. Automatic induction is switched off on every lemma.

| file | what it holds |
|---|---|
| `money.dfy`, `models.dfy` | half-even arithmetic; the records |
| `rules.dfy` | entry and exit rules, loss limits, share sizing |
| `trade_closer.dfy`, `accounting.dfy` | one fill's effect; the replay against a reference bookkeeper; rounding drift |
| `ledger.dfy`, `environment.dfy` | tables, statements, the connection; the outside |
| `execution.dfy`, `protocol.dfy` | approval, record-before-submit and its invariant |
| `fills.dfy`, `settlement.dfy`, `polling.dfy`, `pricing.dfy` | the poll loop: its effect on the books, its frame, its numbers |
| `ordering.dfy`, `tracking.dfy` | exactly what approving, executing and polling do |
| `holdings.dfy`, `exits.dfy` | marking, exit decisions, the life of a position |
| `judging.dfy`, `gating.dfy`, `equity.dfy` | exactly what the holdings, the candidates and the risk evaluation come to |
| `candidates.dfy`, `proposals.dfy` | evidence, the top twenty, the batch gate |
| `kill_switch.dfy`, `cycle.dfy`, `preparation.dfy` | the kill switch, the cycle, what a cycle has decided before it executes |
| `course.dfy`, `turns.dfy`, `delivery.dfy` | every way a cycle can go, the turn each decision gets, what is sent in the end |
| `recording.dfy`, `sending.dfy`, `slots.dfy`, `conservation.dfy`, `orders.dfy` | what whole cycles keep |
| `reverting.dfy`, `keeping.dfy` | what a refused recording takes with it, and what is stored of a sent order |
| `report.dfy`, `peaks.dfy` | stored peaks and the report's drawdown |
| `runs.dfy`, `run_laws.dfy`, `lives.dfy` | theorems over every run; what a run can do to a held position |
| `fees.dfy`, `reasons.dfy` | over every run: what trades pay, and why they were closed |
| `witnesses.dfy` | concrete runs |

A run is any sequence of commands (`Runs.Command`): cycles of any mode and
rules, resumes, human approvals, repeated submissions of stored decisions, and
any of these killed after any number of its commits and submissions.

## Findings

- Live mode cannot submit. In a live cycle every decision is new, so none can
  have an approval yet and none reaches its recording transaction
  (`Reverting.LiveCycleAttemptsNothing`). Once a human has approved a stored
  decision, `resolve_approval` returns an approval that is already a row,
  `execute` inserts it again, and the primary key refuses it
  (`src/trader/engine/approval.py:176-183`,
  `src/trader/engine/order_executor.py:85`,
  `src/trader/ledger/migrations/0001_init.sql:63`);
  `Witnesses.ApprovedLiveIsRefused` is such a run. No run in live mode ever
  sends an order (`RunLaws.LiveRunSendsNothing`), although the docstring of
  `resolve_approval` promises it for an approved decision.
- A recording transaction that fails reverts everything pending. A cycle's row
  stays pending until its first order is committed, so if the first order it
  attempts is refused, nothing at all is executed, rule exits included, the
  cycle ends without an outcome, and the database is as if it had never run;
  `Reverting.CycleEndsExactly` says exactly when, `Witnesses.LosesItself` is a
  run. If a later order is refused, the order sent just before it loses
  everything stored since it was sent: an accepted one its broker id, its status
  and its fills, one the broker refused its "failed" status and the error
  message. It stays stored as merely recorded, as if it had never been sent
  (`Keeping.CycleLeavesSent`, `Keeping.RefusedByBroker`,
  `Keeping.CycleStoresReported`).
- The halt is read in one place, at the start of a cycle
  (`src/trader/engine/cycle.py:297`); `execute` never looks at it
  (`src/trader/engine/order_executor.py:49-131`). The program calls `execute`
  only from a cycle, and a halted cycle is silent; whoever submits a stored
  decision again sends it, halted or not (`RunLaws.HaltedUntilResumed`,
  `RunLaws.ResubmitSendsExactly`, `Witnesses.HaltedResubmitSends`).
- The "error" ending of a cycle whose halt could not be stored is never seen: the
  failed halt has reverted the cycle's own row, so closing it fails and the cycle
  ends without an outcome (`src/trader/engine/cycle.py:270-283`,
  `Reverting.BreachEndsHalted`).
- A fill row is written before it is settled, so a refused or failed settlement
  leaves the books off by that fill. They stay balanced exactly when the
  position, the reason and the statements it needs are there
  (`Settlement.BalancedExactlyWhenSettled`); `Settlement.OversellUnbalances` is
  a case where they are not.
- Sizing shares to cents and back returns the same shares exactly when the price
  is at least a cent; for every lower price some share count comes back larger
  (`Rules.RoundTripExactly`).
- `poll_and_settle` ends whatever the broker answers exactly when the interval is
  positive, there is no time to wait, or the injected sleep raises on the
  interval; with `time.sleep` only the zero interval hangs
  (`Pricing.PollEndsExactly`, `Pricing.PollEndsWithTimeSleep`).
- The report can show a drawdown deeper than any stored one, exactly when some
  row is a debt measured from a high below the capital and deeper than them all
  (`Report.ReportExceedsExactly`, `Report.DebtBreaksTheBound`).

## Model

| member | source | states |
|---|---|---|
| Money.RoundHalfEven | src/trader/domain/money.py:25-27 | the result is the nearest integer, the even one on a tie |
| Money.HalfEvenUnique | src/trader/domain/money.py:25-27 | no other integer is |
| Money.RoundExact | src/trader/domain/money.py:25-27 | exact amounts are kept |
| Money.RoundMonotone | src/trader/domain/money.py:25-27 | quantizing never reverses an order |
| Money.RoundOdd | src/trader/domain/money.py:25-27 | losses round as gains do |
| Rules.LimitsWithinCapital | src/trader/rules/schema.py:159-168 | no derived limit is negative or above the capital, rounding included |
| Rules.LimitsDerived | src/trader/rules/schema.py:159-168 | each limit is its own percentage of the capital, to the nearest cent |
| Rules.SizingRoundTrip | src/trader/engine/approval.py:89-121 | from a cent up, the cent-rounded notional of s shares sizes back to exactly s |
| Rules.SubCentOversizes | src/trader/engine/approval.py:106-121 | below a cent some share count comes back larger |
| Rules.RoundTripExactly | src/trader/engine/approval.py:106-121 | the round trip holds for all share counts if and only if the price is at least a cent |
| Rules.BuyIsMaximal | src/trader/rules/entry_checks.py:59-151 | an accepted buy is ordered at s shares with s times price within the per-ticker limit, the rounded notional within it too, and one more share over it |
| Rules.PlanIsLargest | src/trader/rules/entry_checks.py:128-151 | an accepted buy plans the largest share count the limit pays for at the quote, at its cent-rounded cost |
| Rules.SellQtyWithinHolding | src/trader/engine/holdings.py:47-55 | a rule exit asks for at most the holding, all of it for a full exit, less for a partial one on two shares or more |
| Rules.SellQtyExactly | src/trader/engine/holdings.py:47-55 | the shares sold are the whole shares in the fraction of the holding, and one if there are none |
| Rules.OrderQtyExactly | src/trader/engine/approval.py:89-121 | an order is sized exactly for a present notional and a positive price, at the whole shares of the notional plus half a cent; refused if that is none |
| Rules.ExitsOnTheirSide | src/trader/rules/exit_checks.py:32-77 | a stop loss never fires above cost and fires at every lower price; a take-profit never below cost or twice; a trailing stop only after a take-profit and never above the watermark (when each fires: `Rules.ExitExactly`) |
| Rules.ExitExactly | src/trader/rules/exit_checks.py:32-77 | each of the five answers, with its fraction, if and only if its threshold is reached and no earlier rule's is: stop loss, whole days held, partial take-profit, trailing stop, none; thresholds are the nearest tick to price times 100 plus the percentage |
| Rules.HoldingPeriodSells | src/trader/rules/exit_checks.py:45-52 | a full holding period sells everything at every price above the stop |
| Rules.WorseStillBreaches | src/trader/rules/loss_limits.py:56-107 | a breach is never lifted by a larger unrealized loss or a smaller equity |
| Rules.BreachAtLimit | src/trader/rules/loss_limits.py:56-107 | a further loss halts exactly when it uses up the headroom of a limit, and the limit reported is the first of daily, weekly and drawdown whose headroom is gone |
| Rules.DrawdownAtEquity | src/trader/rules/loss_limits.py:94-106 | the drawdown limit is breached exactly up to one whole-cent equity |
| Rules.AcceptedExactly | src/trader/rules/entry_checks.py:59-151 | a buy is accepted if and only if it meets every entry rule, with one more position still within the cap |
| Rules.RejectsInOrder | src/trader/rules/entry_checks.py:59-151 | a rejection names the first of the entry rules, in their order, that is not met |
| Accounting.ReplayPriorFills | src/trader/engine/fills.py:109-125 | the loop folds the selected rows, less the fill being settled |
| Accounting.SelectsCurrentOpening | src/trader/ledger/repository.py:396-429 | selecting fills from `opened_at` on finds exactly the current opening's fills |
| Accounting.ReplayAgrees | src/trader/engine/fills.py:81-125 | replaying those fills rebuilds exactly the quantity, average cost and carried bookkeeping of an observer who saw every fill |
| Accounting.CarriedMeans | src/trader/engine/fills.py:97-106 | what is carried is the opening buy's decision, one exit id per sell fill in order, and the sum of their fees |
| Accounting.BookConservesShares | src/trader/ledger/trade_closer.py:117-184 | buys less sells of a history that never oversells are the quantity held |
| Accounting.DriftBounded | src/trader/ledger/trade_closer.py:130-170 | at every prefix, realized P&L less the cost of what is held is the cash flow to within half a cent per sell plus, per later buy, half a tick per share held |
| Accounting.ClosingsAccounted | src/trader/ledger/trade_closer.py:167-204 | every completed round trip nets to zero shares, carries its own ids and fees, and its P&L is its cash flow to within that drift |
| Accounting.AverageWithinBuyPrices | src/trader/ledger/trade_closer.py:130-143 | the quantized average cost stays between the lowest and the highest buy price of the opening |
| Accounting.BuyFollowsBook | src/trader/ledger/trade_closer.py:117-143 | a buy moves the position row as the observer's book |
| Accounting.SellFollowsBook | src/trader/ledger/trade_closer.py:146-204 | a sell is refused exactly when it oversells or closes unexplained; otherwise the row or the trade is the book's, its exit reason included |
| TradeCloser.BuyExactly | src/trader/ledger/trade_closer.py:117-143 | a first buy opens the position at its price; a later one moves the average to the nearest tick and may raise the watermark |
| Ledger.FindValidApproval | src/trader/ledger/repository.py:320-347 | the newest approval of the decision that has not expired, if there is one |
| Ledger.ByTimeKeepsSorted | src/trader/ledger/repository.py:396-429 | ordering by fill time leaves an ordered history as it is |
| Ledger.Connection.Commit | src/trader/ledger/db.py:91-99 | everything pending becomes stored, as one event |
| Ledger.Connection.Rollback | src/trader/ledger/db.py:91-99 | everything pending is reverted |
| Execution.ResolvedIsAuthorized | src/trader/engine/approval.py:151-183 | a request exists only for a passed buy or sell, sized by its notional, with its own decision's approval: the system's until the next close in paper mode, a stored and unexpired one of the human in live mode |
| Ordering.ResolvesExactly | src/trader/engine/approval.py:124-183 | an order is authorized if and only if the decision is a passed buy or sell that can be sized and, in live mode, its newest valid approval is the human's; with which side, quantity, id and approval |
| Execution.RecordHumanApproval | src/trader/engine/approval.py:186-222 | records an approval of a passed decision; a refused insert still commits what was pending |
| Ordering.HumanApprovesExactly | src/trader/engine/approval.py:186-222 | stored if and only if the decision is stored and passed and neither the insert nor the commit fails; what is left of the database in each case |
| Execution.Execute | src/trader/engine/order_executor.py:49-131 | record, commit, submit, update: the connection ends exactly as specified on every error path |
| Ordering.ExecutesExactly | src/trader/engine/order_executor.py:49-131 | if it cannot be recorded, everything pending is reverted; otherwise exactly its three rows are committed, then it is sent, then the broker's answer is noted on the order's row, field by field |
| Protocol.ExecuteSafe | src/trader/engine/order_executor.py:62-131 | executing keeps record-before-submit and at-most-once, whatever fails on the way |
| Protocol.SendsExactlyWhenRecorded | src/trader/engine/order_executor.py:79-105 | a request is sent if and only if its recording transaction commits, and right after that commit |
| Protocol.SecondExecuteFails | src/trader/ledger/migrations/0001_init.sql:70-74 | a second submission fails while recording and sends nothing |
| Protocol.LiveNeverSends | src/trader/engine/order_executor.py:85-87 | in live mode the stored approval is a duplicate: the transaction is reverted and nothing is sent |
| Protocol.SafePrefix | src/trader/ledger/db.py:91-99 | safety survives a crash after any event |
| Fills.SettleFill | src/trader/engine/fills.py:128-171 | settles one fill as specified, the deleted position included when the trade is refused |
| Fills.TakeNewFill | src/trader/engine/fills.py:212-251 | records and settles the row a read makes, ending as the specification does on every error path (what that row says: `Tracking.NewFillExactly`) |
| Tracking.NewFillExactly | src/trader/engine/fills.py:212-234 | a read makes a row if and only if it reports more shares at a higher cost: the new shares at the nearest tick to their share of the new cost, and no fee |
| Fills.TakeNewStatus | src/trader/engine/fills.py:253-259 | stores a status that changed |
| Tracking.NotesExactly | src/trader/engine/fills.py:253-259 | a changed status and the broker's id are stored on the order's row and nothing else of it changes; when that fails |
| Fills.PollAndSettle | src/trader/engine/fills.py:174-268 | the loop leaves the tables and the result of the specified poll, for every broker (what that poll is: `Tracking.PollRunsUntil`, `Tracking.PollAddsRows`) |
| Tracking.StartsExactly | src/trader/engine/fills.py:197-203 | a poll starts from the stored fills of its order, with no time gone |
| Tracking.StopsExactly | src/trader/engine/fills.py:204-268 | which read ends the loop, with which outcome, and what the next turn starts from |
| Tracking.PollRunsUntil | src/trader/engine/fills.py:204-268 | the loop reads on exactly as long as every read is good, leaves something to wait for and is in time |
| Tracking.PollAddsRows | src/trader/engine/fills.py:205-268 | the rows appended are exactly those the reads make, in order, each without a fee; `fillsRecorded` is their number, less one if the last could not be settled |
| Settlement.ReplayFindsCarried | src/trader/engine/fills.py:135-158 | what the engine rebuilds from the tables at a sell is exactly what the book carries |
| Settlement.SettleBuy | src/trader/engine/fills.py:128-171 | settling a buy keeps the books balanced and adds its shares |
| Settlement.SettleSell | src/trader/engine/fills.py:128-171 | a settled sell keeps the books balanced, takes its shares, and removes the position when it sells all of it |
| Settlement.SellAccepted | src/trader/ledger/trade_closer.py:157-190 | a sell within the holding, explained and not closed out before, is never refused |
| Settlement.BalancedExactlyWhenSettled | src/trader/engine/fills.py:235-240 | the books stay balanced after a recorded fill if and only if a buy's upsert does not fail, or a sell is within the position and then its upsert does not fail, or, selling out, it is explained and its trade row can be inserted |
| Settlement.OversellUnbalances | src/trader/engine/fills.py:235-240 | a sell of what is not held is refused with its fill row stored, and the books are off |
| Settlement.SharesConserved | src/trader/ledger/trade_closer.py:117-204 | in balanced books a ticker's buys less sells are its position and a row holds at least one share |
| Settlement.TradesAccounted | src/trader/ledger/trade_closer.py:167-204 | in balanced books each trade row is its ticker's round trip of that rank and accounts for its fills |
| Polling.PollKeepsFrame | src/trader/engine/fills.py:174-268 | a poll appends only fills of its own order, touches one ticker, and a sell opens no position |
| Polling.PollBalances | src/trader/engine/fills.py:197-268 | a poll of a covered order keeps the books balanced, is never refused, and moves the holding by exactly what it recorded |
| Pricing.StartTelescopes | src/trader/engine/fills.py:197-203 | seeding from stored fills is off by at most half a cent, and by nothing for a fresh order |
| Pricing.EveryTurnTelescopes | src/trader/engine/fills.py:205-268 | at every iteration fill prices times quantities add up to the broker's notional to within the seed's half cent and half a tick per share recorded, and recorded quantity is the sum of the rows |
| Pricing.PollTelescopes | src/trader/engine/fills.py:205-268 | however the poll ends, a broker error or a failed update included, the same holds exactly when its last turn did not leave a fill row unsettled |
| Pricing.ReadCount | src/trader/engine/fills.py:204-268 | with a positive interval at most ceil(timeout / interval) + 1 reads |
| Pricing.PollEndsExactly | src/trader/engine/fills.py:261-268 | the loop ends for every broker if and only if the interval is positive, the timeout is not, or the injected sleep raises on the interval |
| Pricing.PollEndsWithTimeSleep | src/trader/engine/cycle.py:99-101 | with `time.sleep`, which raises on a negative number, if and only if the interval is not zero or the timeout is not positive |
| Pricing.PollStatusAgrees | src/trader/engine/fills.py:253-265 | after a poll that ends well the stored status is the returned one |
| Pricing.PollKeepsUp | src/trader/engine/fills.py:205-268 | if the broker's cent-rounded notional strictly grows with its quantity, then however the poll ends the stored rows sum to the last reported quantity exactly when the last new row was not itself refused; after a poll that ends well or by a broker error they do |
| Holdings.ListsEachOnce | src/trader/ledger/portfolio_repository.py:110-113 | the listing names every position once |
| Holdings.ListsInOrder | src/trader/ledger/portfolio_repository.py:110-113 | and in ticker order |
| Holdings.BelowExactly | src/trader/ledger/portfolio_repository.py:110-113 | that order is lexicographic: a proper prefix first, otherwise by the first character that differs |
| Holdings.EvaluateHoldings | src/trader/engine/holdings.py:58-140 | the loop ends as specified, also where a statement fails half way |
| Judging.MarkAllFinds | src/trader/engine/holdings.py:58-140 | value, gain and missing quotes are those of the listing, each row is raised to its quote, and there is one sell for each position an exit rule fires on, in order, at the exact shares of its fraction and filed under the reason that fired; it fails if and only if a statement that marks or sells does |
| Exits.MarkAllSound | src/trader/engine/holdings.py:75-140 | marking only raises watermarks and adds decisions; each sell is a new row, explained, and the only one of its ticker |
| Exits.ExitSized | src/trader/engine/holdings.py:101-124 | a rule exit is ordered at exactly its share count, at most the holding |
| Exits.MarkAllCovered | src/trader/engine/holdings.py:101-124 | every sell decided will be ordered at no more than is held |
| Exits.ValueLessGainIsCost | src/trader/engine/holdings.py:84-87 | market value less unrealized P&L is the cost of the priced holdings to within a cent each |
| Exits.WatermarkIsMaximum | src/trader/engine/holdings.py:89-97 | over any marks and fills of an open position the watermark is the highest price seen |
| Exits.PartialOnlyOnce | src/trader/rules/exit_checks.py:55-77 | once a partial take-profit is done it stays done and is never signalled again |
| Exits.SellRemembers | src/trader/ledger/trade_closer.py:176-184 | a sell keeps the average cost and remembers a partial take-profit exactly when it was one |
| Candidates.BuildEvidence | src/trader/sources/evidence.py:18-57 | one entry per mentioned ticker, in order, with its counts, span, excerpts and ids |
| Candidates.ByPostingSorts | src/trader/sources/evidence.py:39-51 | sorting a ticker's mentions either way loses none and keeps those of equal time as they came |
| Candidates.EvidenceSpans | src/trader/sources/evidence.py:42-45 | first and last seen are the exact span of the ticker's mentions |
| Candidates.EvidenceQuotes | src/trader/sources/evidence.py:51-53 | every mention is named once, and the three excerpts, or fewer if there are fewer mentions, are of mentions no older than any not quoted |
| Candidates.CountsMentions | src/trader/sources/evidence.py:30-50 | each count is the number of mentions in its window |
| Candidates.EvidenceCounts | src/trader/sources/evidence.py:30-50 | all mentions, those of the last 14 days, and those of the 14 days before, counted by their times |
| Candidates.EvidenceComplete | src/trader/sources/evidence.py:30-57 | every mentioned ticker has exactly one entry, with its exact counts |
| Candidates.CandidatesAreTopTwenty | src/trader/engine/candidates.py:52-67 | the candidates are the best twenty of the recently mentioned, unheld, permitted tickers, each once, by count then ticker; all others rank behind all of them |
| Proposals.PriceCandidates | src/trader/engine/candidates.py:211-227 | exactly the candidates with a price and a volume are kept |
| Proposals.GateProposals | src/trader/engine/candidates.py:302-336 | the loop with the growing held set decides as specified (on what grounds: `Gating.GateExactly`) |
| Proposals.GateDecidesInOrder | src/trader/engine/candidates.py:302-336 | one decision per proposal in order, each planned with everything held and everything that passed before it (on what grounds: `Gating.GateExactly`) |
| Gating.GateExactly | src/trader/engine/candidates.py:295-336 | decision i passes if and only if proposal i is a buy, the market is open, there is no loss breach, and the ticker is permitted, neither held nor passed before, with a slot free, quoted from the minimum price to the limit, with at least the minimum volume; then it is for the most shares the limit pays for at the quote |
| Gating.CandidatesDecided | src/trader/engine/candidates.py:230-343 | the same of the whole evaluation, for the priced ones of the top twenty; without a usable answer one skip for each of them |
| Proposals.GateIsSafe | src/trader/engine/candidates.py:295-336 | whatever is proposed, passed decisions are buys of distinct, unheld, permitted tickers, and held plus passed never exceeds the larger of the held and the cap |
| Proposals.CandidatesAreSafe | src/trader/engine/candidates.py:230-343 | the same of the whole evaluation, with or without an LLM |
| Proposals.InsertAllRecords | src/trader/engine/candidates.py:338-343 | on success every decision is a new row of its own; on failure only a part of the batch was added |
| Gating.InsertAllExactly | src/trader/engine/candidates.py:338-343 | storing the batch fails if and only if one of it cannot be inserted after those before it |
| KillSwitch.Trigger | src/trader/engine/kill_switch.py:67-98 | the halt is stored whether or not cancelling worked |
| KillSwitch.TriggerHalts | src/trader/engine/kill_switch.py:79-91 | the halt is stored exactly when no statement fails; otherwise everything pending is reverted |
| KillSwitch.ResumeUndoesTrigger | src/trader/engine/kill_switch.py:118-127 | a stored resume after a stored halt restores the tables from before the halt |
| KillSwitch.Resume | src/trader/engine/kill_switch.py:118-127 | the three keys go, nothing else |
| Cycle.FinishCycleRow | src/trader/engine/cycle.py:144-184 | closes the cycle's row and commits everything, also when that row cannot be closed |
| Reverting.RecordsExactly | src/trader/engine/order_executor.py:79-95 | the recording transaction succeeds if and only if its decision is stored or can be, its approval and order are new, and no statement of it fails |
| Reverting.RefusalReverts | src/trader/ledger/db.py:91-99 | a refused recording reverts everything pending, settled fills included |
| Reverting.FirstAttemptDecides | src/trader/engine/cycle.py:446-489 | with no attempted order executing does nothing; if the first attempted one is recorded the cycle's row is stored for good; if it is refused the whole cycle is reverted and nothing is executed |
| Reverting.CycleEndsExactly | src/trader/engine/cycle.py:144-166 | a cycle ends without an outcome if and only if its row cannot be inserted or closed, its halt cannot be stored, or its first attempted order is refused; in the last two cases it sends nothing and leaves the database as it found it |
| Reverting.BreachEndsHalted | src/trader/engine/cycle.py:261-283 | from a world at rest such a cycle has an outcome if and only if no halt statement fails and its row can be closed, and then it is "halted", never "error" |
| Reverting.LiveCycleAttemptsNothing | src/trader/engine/approval.py:176-180 | no decision of a live cycle has an approval, so executing does nothing |
| Witnesses.LosesItself | src/trader/engine/cycle.py:446-489 | one failing insert of a stop loss's approval and the position is not sold, nor the cycle stored |
| Witnesses.ApprovedLiveIsRefused | src/trader/engine/order_executor.py:85-87 | a decision stored by a live cycle, approved and resolved, is refused as a duplicate of its own approval |
| Witnesses.HaltedResubmitSends | src/trader/engine/order_executor.py:49-131 | a passed decision stored in a halted ledger, submitted again, is sent |
| Witnesses.StopLossGoesOut | src/trader/engine/cycle.py:446-489 | where nothing fails, the stop loss of that same cycle is sent, for its one share, and nothing else |
| Keeping.RefusedByBroker | src/trader/engine/order_executor.py:103-111 | an order the broker refuses is pending as "failed" with the broker's message, and no fill |
| Keeping.CycleLeavesSent | src/trader/engine/cycle.py:446-489 | every order a cycle sends, whether or not the broker accepts it or its status can be updated, is stored as it stood when the cycle went on, row and fills, unless the next attempted order is refused: then as merely recorded, without broker id, status, error or fill |
| Keeping.CycleStoresReported | src/trader/engine/cycle.py:470-487 | of an order the broker accepted and whose status update succeeded, for a broker whose notional grows with its quantity, the stored fills are the last reported quantity, however the poll ended, if and only if nothing was reported, or neither the next attempted order nor its own last fill row was refused |
| Cycle.ExecutePassedDecisions | src/trader/engine/cycle.py:446-489 | executes and polls the passed buys and sells in order, counting orders and fills |
| Cycle.RealizedTotals | src/trader/engine/cycle.py:130-141 | the day's and the week's realized P&L |
| Cycle.TodayIsSinceToday | src/trader/engine/cycle.py:130-141 | where no trade closed after today, the day's total is the total since today |
| Equity.RealizedExactly | src/trader/engine/cycle.py:130-141 | the day's total is that of the trades closed that day, the week's that of those closed on or after its first day |
| Cycle.EvaluateRisk | src/trader/engine/cycle.py:202-285 | snapshot, loss check and kill switch, ending the cycle where the specification does (what they find: `Equity.SnapshotExactly`, `Equity.BreachExactly`, `Delivery.CycleValues`) |
| Equity.SnapshotExactly | src/trader/engine/cycle.py:227-248 | the row's equity is its cash and the positions' value, its peak the larger of that and the last earlier row's peak, or the capital, its drawdown the gap as a percentage of the peak, its day and time the clock's |
| Equity.PutReplaces | src/trader/ledger/portfolio_repository.py:176-192 | the row takes the place of its day's and of no other |
| Equity.BreachExactly | src/trader/engine/cycle.py:261-283 | the limit found is the first of daily, weekly and drawdown that is reached by the day's, the week's and the open P&L and by the equity, and none if none is |
| Cycle.RunCycle | src/trader/engine/cycle.py:288-443 | one whole cycle leaves the world and the outcome specified, for every environment (what they are: `Course.StartedAgenda`, `Turns.CycleExecutes`) |
| Course.StartedAgenda | src/trader/engine/cycle.py:288-443 | every way a cycle can go, as one case table: what it owes, the status it ends with, and what it counts; exits first, then entries, nothing while the market is closed |
| Turns.CycleExecutes | src/trader/engine/cycle.py:446-489 | every decision on that list gets one turn, in order; what is sent, read off the trace, is exactly the orders that can be recorded in their turns; the outcome counts them and the row is closed as the table says |
| Delivery.OwedIsOnAgenda | src/trader/engine/cycle.py:344-443 | with the market open, a cycle that goes on past the risk check, or stops for a missing price, owes every exit the holdings' evaluation decided, in order, and then, if it has a slot, every decision on a candidate |
| Delivery.DueIsSent | src/trader/engine/cycle.py:344-443 | in paper mode, at quotes from a cent up, every held position whose quote fires an exit rule is sold in such a cycle, at exactly that rule's shares, if the sale can be recorded in its turn |
| Delivery.PassedIsSent | src/trader/engine/cycle.py:393-443 | and every candidate that passed is bought, at the most shares the per-ticker limit pays for at its quote, if the order can be recorded in its turn |
| Delivery.PassedMayEnter | src/trader/engine/candidates.py:295-336 | whatever passed is a buy that meets every entry rule with what was held and what passed before it |
| Delivery.CycleValues | src/trader/engine/cycle.py:202-285 | a cycle that gets that far and has an outcome has stored the day's row, its equity the account's cash plus the cent-rounded price times quantity of every listed position; it ends halted, and is halted, if and only if a limit is reached, and then it has sent nothing |
| Preparation.StartedPrepared | src/trader/engine/cycle.py:288-443 | before executing, no order, fill or trade has changed; what is to be executed is recorded, distinct by ticker, explained if it sells and unheld if it buys |
| Recording.CycleGuarded | src/trader/engine/cycle.py:288-489 | a cycle in any environment keeps record-before-submit and at-most-once |
| Sending.CycleSends | src/trader/engine/cycle.py:446-489 | a cycle sends only orders of what it decided, and nothing in live mode |
| Sending.HaltedCycleSendsNothing | src/trader/engine/cycle.py:297-313 | a halted cycle sends nothing, stays halted, and ends "halted" if it can be finished |
| Sending.BreachedCycleStops | src/trader/engine/cycle.py:261-283 | a cycle that finds a breach sends nothing; unless a halt statement fails, all it commits is halted |
| Sending.BuysOnlyWhenCleared | src/trader/engine/cycle.py:288-443 | a buy is sent only by a cycle that was not halted, had an open market, priced every holding, wrote its snapshot, found no breach and had a free slot, and only for an unheld ticker |
| Slots.CycleWithin | src/trader/engine/cycle.py:377-443 | at every commit of a cycle the tickers held are among those it began with and its passed buys, together within the cap or no more than it began with |
| Conservation.RuleExitSettles | src/trader/engine/holdings.py:99-124 | a rule exit is never refused; completely filled, a full exit removes the position and a partial one on two shares or more leaves at least one |
| Conservation.CycleBooks | src/trader/engine/cycle.py:288-489 | in an ordinary world every state a cycle stores has balanced books |
| Reasons.CycleTradesCaused | src/trader/engine/cycle.py:446-489 | every trade a cycle stores is an old one or closes a position it began with, for the exit rule its quote fired |
| Orders.SentAreWellSized | src/trader/engine/approval.py:89-121 | every buy sent is the most the per-ticker limit pays for at the market's price, every sell sent is within the holding |
| Report.PutKeepsPeaks | src/trader/engine/cycle.py:230-248 | storing today's snapshot, new or over today's row, keeps every peak the running maximum |
| Report.PeaksAreMaxima | src/trader/engine/cycle.py:123-127 | each stored peak is the largest of the capital and the equities up to its row |
| Report.MaxDrawdownPct | src/trader/report/metrics.py:77-95 | the loop returns the worst drawdown, rounded half-even to a hundredth of a percent |
| Report.ReportWithinStored | src/trader/report/metrics.py:77-95 | for equities that are not negative it is at most the deepest stored drawdown |
| Report.ReportEqualsStored | src/trader/report/metrics.py:77-95 | and exactly that when the first equity is at least the capital |
| Report.RowExceedsExactly | src/trader/report/metrics.py:86-94 | the report shows more of a row than its stored drawdown if and only if the row is a debt and the highest equity so far is positive and below the capital |
| Report.ReportExceedsExactly | src/trader/report/metrics.py:77-95 | it shows more than every stored drawdown if and only if such a row is deeper than them all, by cross products of equities and peaks |
| Report.DebtBreaksTheBound | src/trader/report/metrics.py:77-95 | 200 per cent reported where 150 is the deepest stored |
| Peaks.CyclePeaks | src/trader/engine/cycle.py:202-285 | on a day no earlier than the last row's, a cycle stores only right peaks |
| Runs.RunIsSafe | src/trader/engine/order_executor.py:62-131 | in every run, crashes anywhere included, each request was sent after its order, approval and passed decision were committed, and no decision was submitted twice |
| RunLaws.HaltedUntilResumed | src/trader/engine/cycle.py:297-313 | the halt survives every command but a resume, killed ones included, and everything sent meanwhile is the order of a stored decision that a command submits again |
| RunLaws.HaltedIsSilent | src/trader/engine/cycle.py:297-313 | without such resubmissions nothing is sent from a halt until a resume |
| RunLaws.ResubmitSendsExactly | src/trader/engine/order_executor.py:49-131 | between commands, halted or not, a resubmission sends if and only if its decision is stored, resolves and can be recorded |
| RunLaws.BreachSilences | src/trader/engine/kill_switch.py:67-98 | from a breach whose halt statements do not fail on, nothing but resubmissions is sent until a resume, and nothing at all by its own cycle: also if that cycle's row cannot be closed, and if the process dies at any time after the halt's commit |
| RunLaws.LiveRunSendsNothing | src/trader/engine/approval.py:176-183 | no run in live mode sends anything, whatever a human approves |
| RunLaws.RunStaysWithinCap | src/trader/rules/entry_checks.py:68-87 | with fixed rules no run ever holds more positions than the cap |
| RunLaws.RunConservesShares | src/trader/ledger/trade_closer.py:117-204 | from a new ledger, through any run in an ordinary world, each ticker's buys less sells are its position, and the trades are its round trips, each accounted for to within the rounding drift |
| Fees.RunIsFree | src/trader/engine/fills.py:226-234 | no run ever stores a fee |
| Fees.RunPaysProceeds | src/trader/ledger/trade_closer.py:157-204 | from a new ledger, through any run in an ordinary world, no trade has fees and each trade's realized P&L is what its sells brought in less what its buys cost, to within the rounding drift |
| Reasons.RunTradesCaused | src/trader/engine/holdings.py:101-124 | in every run each new trade closes a position some cycle began with, for the reason its quote fired then |
| RunLaws.RunKeepsPeaks | src/trader/engine/cycle.py:123-127 | in every run of one capital whose days never go back, stored peaks are running maxima and dominate the report |
| Lives.CycleLives | src/trader/engine/cycle.py:288-489 | at every commit of a cycle, whatever it reverts, each row it began with is gone or is what it was after marks at the cycle's own quote and sells whose fills are stored, none of them twice |
| Lives.RunLives | src/trader/ledger/trade_closer.py:176-184 | in every run, for as long as a ticker is held between commands, its stored row is the life (`Exits.Live`) of the row it started as, with marks at quotes of the run's cycles and sells with fills stored in the run; crashes and reverts take back whole events only |
| Lives.HeldRow | src/trader/engine/holdings.py:89-97 | so such a row keeps its opening and average cost, never gains shares, never lowers its watermark or raises it to anything but a quote, and never forgets a partial take-profit |
| Lives.UnboughtLife | src/trader/ledger/trade_closer.py:146-184 | without buys a life changes the shares by exactly what its sells sold |

## Left out

- Conservation.CycleBooks: assumes a broker that never reports more than was ordered, prices from a cent up, a clock that advances from poll to poll and from command to command, and settling statements that succeed (`Conservation.OrdinaryWorld` shows that such a world exists for every admissible set of rules); `Settlement.BalancedExactlyWhenSettled` says what a failing one does.
- Fills.PollAndSettle: asks that the poll can end at all, by a positive interval or a timeout that is not positive; `Pricing.PollEndsExactly` is the exact condition, a poll that hangs has no outcome to specify, and one whose sleep raises on a negative interval is a process that dies, which is a killed command.
- RunLaws.RunKeepsPeaks: assumes trading days that never go back, because a row inserted before later ones does not recompute their peaks.
- Accounting.ReplayPriorFills: a replay whose running quantity returns to zero by a buy would divide by zero; only an oversold history does that, and the old average stands in for the exception.
- Decimal's 28-digit context: quotients are exact rationals until they are quantized, and the stored drawdown is an exact real.
- Columns no rule reads: a mention's source and text hash, confidence, rationale, evidence ids, hashes, model names, error texts, the text and time of a halt reason.
- Text conversion of times, decimals and enums, and the errors of reading corrupt rows.
- The foreign key of decisions to `rule_sets`, and its row: a failing insert is one of the arbitrary database failures.
- A trade's id is the pair of its entry decision and its last exit decision instead of their joined text.
- `ORDER BY` ties: rows of equal time keep their insertion order; distinct times are assumed where it matters.
- The New York calendar: trading day and week start are given functions of time.
- The lock file: one command runs at a time.
- The broker and LLM clients, retries, parsing and prompts: their answers are arbitrary.
- The effect of cancelling open orders at the broker on later reads: reads are arbitrary in any case.
- Exceptions that leave a command, of a commit in `_finish` or of a delete: the process dies there, which is a killed command and loses everything pending.
- The report's counts, win rate, averages and rendering; the command line; settings; ingestion: simple sums and plumbing.
