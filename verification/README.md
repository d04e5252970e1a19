# Verified models of a leveraged-trading protocol's satellite contracts

The protocol's markets are surrounded by contracts that trade, pool and redistribute on behalf of others. This
project models the logic of four of them, and three pieces of the shared library they lean on, and proves what
every call, every run and every input keeps. `dafny verify dfyconfig.toml` checks everything.

Conventions. A `Decimal256` is a natural number of atoms, 10^18 to the unit, held in 256 bits; products and
quotients round down and a wider result is an error (`Decimals`). A contract call is one atomic step: an error
return and a panic are both `Err`, and restore everything the call wrote; a message to a market, its answer and the
reply to it belong to the call that sends it. Queries, the clock and the market's answers are parameters (`View`,
`Env`), and every claim holds for all of them. The assertions of the original code appear as Dafny assertions, so
that verifying a method shows they never fail; those of the fixed-point funding rate, which can, are an error.

- **Countertrade** (`SmartSearch`, `FundingCurve`, `RealSearch`, `RateRounding`, `SharePool`, `CounterTrade`). The
  bisection that looks for the unpopular open interest at a target funding rate, once in the contract's fixed point
  (bounds, termination, never flipping the market) and once over the reals (the rate is a falling curve, so the
  bisection converges, and succeeds exactly for targets in reach), with explicit bounds on the distance between the
  two; the share pool, whose rounding never favours a depositor and costs one no more than two roundings; and the
  contract's state machine, with at most one deferred execution outstanding.
- **Copy trading**. Two queues processed in order, one market action in flight, a ledger per token, a price per queue
  item computed by a resumable scan, and a commission above a high water mark.
  - `Queues`, `CopyLedger`, `LpValue`, `HighWaterMark`, `Settlement` and `MarketScan` hold the parts, with their laws.
  - `CopyModel` puts them together: what each message and each unit of work does, as functions of the storage.
  - `CopyInvariant` and `CopyRuns` prove what every call and every run keeps, over the storage and a trace of what
    has happened (items handed to the markets, positions settled, charges assessed).
  - `CopyEffects` says what each call does to the stored values themselves, kind by kind, and `CopyOwnership` that
    over any run a wallet's shares come from its own deposits and withdrawals and nobody else's.
  - `CopyProgress` says exactly when work can go on, and `CopyFreezes` and `CopyBatch` show runs from the empty
    contract that end badly.
  - `CopyTrading` is the contract itself, a class whose methods update its fields and compute those functions.
  - `TokenScan` is the scan of all markets of a token, and `OneMarketPricing` joins the contract with the scan of a
    token that has a single one.
- **Take profit** (`TakeProfit`). From requested gain to counter collateral to price and back to worth, over the
  reals, in both kinds of market.
- **Vault** (`Vault`), **storage keys** (`StorageKey`) and **market ids** (`MarketIds`).
- `Wrappers`, `Decimals`, `Reals`, `MapSums` and `Tokens` hold what the others share.

Six results say where the code falls short of what its shape suggests; the models keep the code as it is.

- A batched rebalance that is cut exactly when it explains its whole request leaves its old record behind, and a
  later call credits the same amount again. It is cut so if and only if a market's pages end at the query budget and
  the first page of the next market explains the rest (`Settlement.CutWhenExplained`). `Settlement.BatchBooksOnce`
  gives the exact condition, on the closed positions, cursors and limits, under which a batch books what it should,
  and `CopyBatch.WorkBooksOnce` carries it over to the contract's units of work. `CopyBatch.LedgerExceedsBank` is a
  run from the empty contract, with the contract's pages of fifteen, after which the bank holds 4 and the ledger
  accounts for 6.
- Three kinds of item at the head of the increase queue block all work but loading markets, in every run from then
  on (`CopyProgress.FrozenForever`), and no other does (`CopyProgress.BlockedIffFrozen`). `CopyFreezes` reaches each
  of them from the empty contract.
  - A deposit of a priced token that arrived while an action of the decrease queue was in flight: the contract looks
    for the item in flight at the head of the increase queue, finds the deposit, and fails.
  - A leader's message on a token that has no price: closing a position or cancelling an order is queued without
    one, but cannot be started, and nothing prices the token while the item is at the head.
  - A deposit that buys no shares at the price found for it, or more than a decimal can hold.
- A countertrade pool whose last share was withdrawn but which still holds dust refuses every deposit
  (`SharePool.DepositAccepted`, `SharePool.LastShareLeavesDust`, `SharePool.DustStaysForever`).
- The countertrade contract's rate jumps at a one-sided market: it is zero there, and positive for any unpopular
  interest at all (`FundingCurve.RateJumpsAtZero`).
- In fixed point the rate can round to zero, and then the contract's assertion on its sign fails:
  `SmartSearch.SignAssertionFails` says exactly when, for every input. Two sides closer than an atom of a share have
  no rate whatever the sensitivity (`SmartSearch.NearBalanceHasNoRate`), and others have none because the sensitivity
  is small (`SmartSearch.SmallSensitivityHasNoRate`) or the cap is zero.
- A scan of several markets whose second pass is cut behind the first market adds up too little: the sum starts again
  at the market where the pass resumes, and misses exactly what lies before. The markets before are left as if in the
  middle of a scan, so the next look at them fails an assertion. Both happen if and only if the record with which the
  last call starts names a market behind the first (`TokenScan.TokenScan.Endings`); `TokenScan.CutAtSecondMarket` is
  an instance with two markets. The first pass is exact however it is cut.

Where two limits of the rebalance disagree (`>=` inside the page loop, `>` around it), and where the order pages of
the scan's first pass are not charged to its query budget, the models follow the code.

## Model

| member | source | states |
|---|---|---|
| SmartSearch.Bisect | contracts/countertrade/src/work.rs:463-506 | the loop ends within max(1, limit) probes with low <= mid <= high <= 1/2 throughout; an answer never lifts the unpopular side above the popular one and either is zero for an interest already past the probe or has a rate within 0.00001 of the target; giving up leaves a bracket around the target, halved by every probe but the last |
| SmartSearch.Search | contracts/countertrade/src/work.rs:434-506 | the same for the market's own curve from the share the unpopular side holds; an empty market needs nothing, and a total beyond 256 bits fails |
| SmartSearch.DesiredAtMostPopular | contracts/countertrade/src/work.rs:467-480 | a share of at most one half never asks for more than the popular side, so the search's assertion never fires |
| SmartSearch.StartAtMostHalf | contracts/countertrade/src/work.rs:446-461 | the starting share exists and is at most one half |
| SmartSearch.Midpoint | contracts/countertrade/src/work.rs:464-466 | the checked sum and quotient of the midpoint never fail |
| SmartSearch.HalvedNarrows | contracts/countertrade/src/work.rs:495-504 | n rounded halvings leave the starting width over 2^n, up to one atom |
| SmartSearch.TargetNotional | contracts/countertrade/src/work.rs:371-432 | the target position is what the search asks for in the market without the contract, on the side that is unpopular there, and never outgrows the other side; it fails only where that market or the search does |
| SmartSearch.OwnIsTakenOff | contracts/countertrade/src/work.rs:378-409 | the contract's own position is taken off the side it stands on, and off no other |
| SmartSearch.RateRange | contracts/countertrade/src/work.rs:508-582 | a derived rate is zero exactly in a one-sided market, else positive and within the annual cap with the popular side strictly larger |
| SmartSearch.SignAssertionFails | contracts/countertrade/src/work.rs:508-582 | for every input, exactly when the assertion on the sign of the rates fails: both sides hold interest, the amounts involved are decimals, and the sides are level, or the popular one is the smaller, or its capped rate rounds to zero |
| SmartSearch.RateIsDerived | contracts/countertrade/src/work.rs:508-582 | for every input, exactly when a rate is derived: the amounts fit, and a side holds nothing or the popular one leads at a rate that does not round to zero |
| SmartSearch.SensitivityExists | contracts/countertrade/src/work.rs:524-541 | the sensitivity exists exactly when the delta neutrality fee's does not round to zero and the amounts fit |
| SmartSearch.NearBalanceHasNoRate | contracts/countertrade/src/work.rs:530-580 | a corollary: it fails at any sensitivity and cap for two sides whose lead is less than one atom of a share |
| SmartSearch.SmallSensitivityHasNoRate | contracts/countertrade/src/work.rs:513-580 | it fails for a larger lead too, with a sensitivity of a tenth |
| SmartSearch.ProbeAssertionFails | contracts/countertrade/src/work.rs:463-480 | a probe of the search fails an assertion exactly when the interest it asks for is a decimal at which that assertion fails |
| FundingCurve.RateIsCurve | contracts/countertrade/src/work.rs:508-541 | at a share below one half the contract's rate is the capped maximum of a line and a hyperbola in the share |
| FundingCurve.CurveFalls | contracts/countertrade/src/work.rs:513-541 | the curve never rises with the share and falls no faster than max(2 s, 4 cap popular / (dnf sensitivity dnf cap)) |
| FundingCurve.RateFalls | contracts/countertrade/src/work.rs:508-541 | over the reals, while the unpopular side holds any interest the contract's rate never rises with it |
| FundingCurve.RateJumpsAtZero | contracts/countertrade/src/work.rs:558-572 | at no unpopular interest the contract's rate is zero, while for any interest at all it is positive and within slope times share of the curve's greatest value |
| FundingCurve.DesiredOfShare | contracts/countertrade/src/work.rs:455-470 | the starting share is below one half and leads back to the present unpopular interest |
| FundingCurve.DesiredGrows | contracts/countertrade/src/work.rs:467-470 | a larger share asks for at least as much interest |
| FundingCurve.CurvePositive | contracts/countertrade/src/work.rs:574-580 | over the reals the rate is positive short of balance, so the assertions on signs hold there |
| RateRounding.RateIsClose | contracts/countertrade/src/work.rs:508-582 | whenever both sides hold interest and a rate is derived, it lies within an explicit rounding error of min(cap, max(sensitivity, cap total / (dnf sensitivity dnf cap)) lead / total) on the exact parameters |
| RateRounding.DesiredIsClose | contracts/countertrade/src/work.rs:467-470 | up to one half a probe asks for the exact interest of its share, at most three atoms below |
| RateRounding.StartIsClose | contracts/countertrade/src/work.rs:446-461 | the starting share is the exact one, less than an atom below |
| RateRounding.AnswerBringsTarget | contracts/countertrade/src/work.rs:434-506 | an answer of the fixed-point search that asks for interest brings the exact rate within 0.00001 and one rate's rounding of the target, without flipping the market |
| RealSearch.Probe | contracts/countertrade/src/work.rs:466-494 | within the bracket a probe asks for some interest, at least the present and less than the popular one, at which the contract's rate is positive and on the curve |
| RealSearch.HalveBracket | contracts/countertrade/src/work.rs:495-504 | keeping the half on the target's side keeps the nearest attainable rate between the rates of the two ends, and halves the bracket |
| RealSearch.RejectionCosts | contracts/countertrade/src/work.rs:481-506 | a rejected midpoint means the halvings so far have not used up the tolerance at the curve's slope |
| RealSearch.Search | contracts/countertrade/src/work.rs:434-506 | every round but the last was forced by the slope; a success lands where the contract's rate is within 0.00001 of the target, without flipping the market |
| RealSearch.SucceedsOnceNarrow | contracts/countertrade/src/work.rs:463-506 | once slope times starting width over 2^n is below the tolerance, a limit of at least n succeeds within n rounds |
| RealSearch.ReachedIffInReach | contracts/countertrade/src/work.rs:434-506 | under every large enough limit the search succeeds if and only if the target is within tolerance of an attainable rate |
| SharePool.MintedAtMostShare | contracts/countertrade/src/common.rs:108-134 | a deposit mints some shares and at most its proportion of them |
| SharePool.MintedAtLeastShare | contracts/countertrade/src/common.rs:108-134 | nor less than that but for two roundings, and an empty pool mints exactly the funds |
| SharePool.PaidAtMostShare | contracts/countertrade/src/common.rs:93-106 | a withdrawal pays at most the burned shares' proportion of the pool, and at most the balance |
| SharePool.PaidAtLeastShare | contracts/countertrade/src/common.rs:93-106 | nor less than that but for two roundings |
| SharePool.DepositKeepsPrice | contracts/countertrade/src/common.rs:108-134 | no deposit lowers collateral per share |
| SharePool.WithdrawalKeepsPrice | contracts/countertrade/src/common.rs:136-155 | no withdrawal lowers collateral per share |
| SharePool.RoundTripNeverGains | contracts/countertrade/src/common.rs:93-155 | depositing and at once withdrawing the minted shares pays at most the deposit |
| SharePool.DepositAccepted | contracts/countertrade/src/common.rs:108-134 | exactly which deposits are accepted: into an empty pool with no shares, or into one with both whose units and minted shares fit and are not zero; a pool with only one of them refuses all |
| SharePool.WithdrawalAccepted | contracts/countertrade/src/common.rs:136-155 | exactly which withdrawals are accepted: of at most the shares there are, at a share value that is a decimal, and worth at most the balance |
| SharePool.LastShareLeavesDust | contracts/countertrade/src/common.rs:93-155 | burning three shares of a pool of ten atoms pays nine |
| SharePool.PoolIsSolvent | contracts/countertrade/src/common.rs:93-106 | what all wallets together could claim at the current share value is in the pool |
| SharePool.RunKeepsPrice | contracts/countertrade/src/common.rs:93-155 | while shares are outstanding no run of deposits and withdrawals lowers collateral per share |
| SharePool.DustStaysForever | contracts/countertrade/src/common.rs:93-155 | no run of deposits and withdrawals changes a pool with collateral and no shares |
| SharePool.DustRun | contracts/countertrade/src/common.rs:93-155 | from a pool of ten atoms and three shares, one withdrawal and whatever follows leave one atom and no shares |
| Tokens.TransferKeepsDust | packages/perpswap/src/token.rs:99-128 | a transfer moves all of the amount but its remainder by the token unit, moves something exactly if the amount reaches one unit, and fails exactly for more units than 128 bits hold |
| CounterTrade.LedgerMint | contracts/countertrade/src/execute.rs:151-157 | minting to a wallet keeps the total the sum of positive holdings |
| CounterTrade.LedgerBurn | contracts/countertrade/src/execute.rs:193-198 | burning from a wallet, with emptied entries removed, keeps the total the sum of positive holdings |
| CounterTrade.WithdrawalWithDustKeepsPrice | contracts/countertrade/src/execute.rs:167-217 | a withdrawal whose sub-unit dust stays behind keeps collateral per share too |
| CounterTrade.MintedFromPool | contracts/countertrade/src/common.rs:108-134 | a deposit mints exactly what the share arithmetic does on the balance and the position's collateral, and nothing while positions are unhealthy or too many or the total would outgrow a decimal |
| CounterTrade.BurnedFromPool | contracts/countertrade/src/common.rs:136-155 | the same for what a withdrawal is worth |
| CounterTrade.WorkIsDue | contracts/countertrade/src/work.rs:20-186 | exactly when each kind of work is due: an ended execution, successful or failed, is cleared, positions beyond one are closed, shares without backing are reset, and else the next trade is made |
| CounterTrade.FundsSent | contracts/countertrade/src/work.rs:858-932 | what each kind of market message takes from the balance: the whole units of its collateral or crank fee |
| CounterTrade.AtMostOneOutstanding | contracts/countertrade/src/work.rs:858-932 | in any alternating history all executions but at most the last sent one were cleared |
| CounterTrade.Contract.ExecuteDeposit | contracts/countertrade/src/execute.rs:128-165 | exactly when a deposit succeeds, and that it changes only the sender's shares and the total, by the minted shares |
| CounterTrade.Contract.ExecuteWithdraw | contracts/countertrade/src/execute.rs:167-217 | exactly when a withdrawal succeeds, and that it burns the sender's shares, drops an emptied entry, and pays what the token can represent |
| CounterTrade.Contract.Reply | contracts/countertrade/src/reply.rs:6-53 | a reply clears the market marker and records the execution id, and fails only without an id |
| CounterTrade.Contract.SendMarketMessage | contracts/countertrade/src/work.rs:858-863 | exactly when a market message goes through, and that it leaves one outstanding execution and no marker |
| CounterTrade.Contract.ExecuteWork | contracts/countertrade/src/work.rs:841-978 | exactly when a unit of work succeeds and what each kind does; shares change only by a reset; the contract's assertions never fire |
| CounterTrade.Contract.Execute | contracts/countertrade/src/execute.rs:92-126 | exactly when each call succeeds and its whole effect; an error restores everything; the invariant (total = sum of shares, outstanding execution implies shares, no marker between calls, alternating history) always holds; an outstanding execution freezes all shares |
| CounterTrade.Contract.Run | contracts/countertrade/src/execute.rs:92-126 | any run goes through the states its calls lead to, one after the other, and keeps all of this, whatever the market answers |
| Queues.PushKeepsFrontier | contracts/copy_trading/src/common.rs:432-454 | a new item gets the next fresh id and leaves the head alone |
| Queues.SettleKeepsFrontier | contracts/copy_trading/src/work.rs:526-532 | settling the head keeps all ids gap-free, everything before the head settled and everything after untouched, and advances by exactly one |
| Queues.StartKeepsFrontier | contracts/copy_trading/src/work.rs:997-1000 | starting the head keeps the frontier |
| Queues.HandedOverOnce | contracts/copy_trading/src/work.rs:975-1075 | a market item was handed to the market exactly once if the market accepted it, else never |
| Queues.StartLogs | contracts/copy_trading/src/reply.rs:35-41 | an accepted head extends the strictly increasing log of handed-over items |
| Queues.SettleKeepsLogged | contracts/copy_trading/src/execute.rs:884-912 | the log stays exact when an item settles |
| CopyLedger.MintKeepsMatch | contracts/copy_trading/src/work.rs:497-525 | minting keeps every token's total shares the sum of its wallets' shares |
| CopyLedger.BurnKeepsMatch | contracts/copy_trading/src/work.rs:597-638 | so does burning, and no wallet holds more than the total |
| CopyLedger.QueuedDepositPends | contracts/copy_trading/src/execute.rs:965-982 | queueing a deposit keeps pending deposits the sum of unprocessed deposit items, per token |
| CopyLedger.ProcessedDepositLeaves | contracts/copy_trading/src/work.rs:504-532 | so does processing one, whose funds the pending sum always covers |
| CopyLedger.PricingKeepsBacked | contracts/copy_trading/src/execute.rs:1053-1076 | a new price is backed or recorded as not |
| CopyLedger.OutdatingKeepsBacked | contracts/copy_trading/src/work.rs:992-997 | once a token's price is outdated its collateral is free to change |
| CopyLedger.ClaimKeepsAccounted | contracts/copy_trading/src/execute.rs:231-234 | moving commission from unclaimed to claimed keeps their sum what the high water mark assesses on the token's history |
| CopyLedger.SettlementKeepsAccounted | contracts/copy_trading/src/execute.rs:790-826 | settling closed positions at the rate in force, from whatever mark is stored, adds to the unclaimed commission exactly what the mark assesses on the history they continue |
| CopyLedger.StretchesKeepOnce | contracts/copy_trading/src/execute.rs:697-718 | moving the cursors of distinct markets settles each position they pass, and each for the first time |
| LpValue.ValuationBacked | contracts/copy_trading/src/execute.rs:1053-1066 | a valuation is backed (v S <= A) if and only if the pool is worth something or has no shares |
| LpValue.ValuationIsShare | contracts/copy_trading/src/execute.rs:1053-1066 | a valuation is the pool over the shares, rounded down by less than an atom, and one while either is nothing |
| LpValue.DepositKeepsBacked | contracts/copy_trading/src/types.rs:216-227 | a deposit at the stored value keeps it backed |
| LpValue.WithdrawalKeepsBacked | contracts/copy_trading/src/types.rs:229-235 | so does a withdrawal, which the pool can always pay |
| LpValue.RoundTripNeverGains | contracts/copy_trading/src/types.rs:216-235 | deposit then withdrawal at one value returns at most the deposit, and loses less than one atom of shares and one of collateral |
| LpValue.ServeAllKeepsBacked | contracts/copy_trading/src/work.rs:495-638 | any sequence of requests at one value keeps the pool backed and every outstanding share payable |
| HighWaterMark.HighWaterMark.AddPnl | contracts/copy_trading/src/types.rs:476-493 | the in-place update computes the assessed mark and commission |
| HighWaterMark.MarkIsHighest | contracts/copy_trading/src/types.rs:476-493 | over any history the current value is the running sum and the mark the highest prefix sum, at least zero, never below the current value |
| HighWaterMark.CommissionIsRateOnHighest | contracts/copy_trading/src/types.rs:476-493 | all commission is the rate on the mark, between the least and the greatest rate in force, short by less than one atom for each new high |
| HighWaterMark.ChargedProfitIsPositive | contracts/copy_trading/src/execute.rs:797-815 | a position that is charged has a positive profit, and is charged at most the rate on it |
| Settlement.SettlementSplits | contracts/copy_trading/src/execute.rs:790-826 | closed positions' collateral splits exactly into pool collateral and commission |
| Settlement.CommissionFollowsMark | contracts/copy_trading/src/execute.rs:790-826 | from the mark of any history, the booked commission and the new mark are exactly what the high water mark assesses on that history continued |
| Settlement.MarketRunSettles | contracts/copy_trading/src/execute.rs:697-741 | one market's page loop settles a contiguous stretch after its cursor, is cut only with the budget spent, positions left and the amount unexplained, and else exhausts the market or explains the amount |
| Settlement.RebalanceSettles | contracts/copy_trading/src/execute.rs:690-750 | the market loop books exactly the positions its cursors move over, each once; it is cut only with the budget spent, never without markets, and uncut and unexplained means all settled |
| Settlement.CutWhenExplained | contracts/copy_trading/src/execute.rs:732-750 | a rebalance is cut although it explains its request if and only if a market's pages end at the budget and the next market's first page explains it |
| Settlement.SettleMarket | contracts/copy_trading/src/execute.rs:697-741 | the page loop with its three exits computes that run, and leaves the mark in place |
| Settlement.Settle | contracts/copy_trading/src/execute.rs:690-750 | the market loop computes that run: books, cursors, cut or not, and what was settled |
| Settlement.RequestsKeepUp | contracts/copy_trading/src/execute.rs:763-787 | over a batch, requests never fall faster than collateral is settled, and keep step exactly while every cut call falls short |
| Settlement.BatchCreditsOnce | contracts/copy_trading/src/execute.rs:753-787 | in terms of what its calls settle: a batch that ends uncut credits max(requested, settled) if and only if every cut call falls short of its request or the last call settles all of its own |
| Settlement.BatchBooksOnce | contracts/copy_trading/src/execute.rs:675-787 | in terms of closed positions, cursors and limits: a batch that ends uncut adds max(requested, settled) to the books if and only if no call is cut although it explains its request or the last call settles all of its own |
| Settlement.StaleRecordCreditsTwice | contracts/copy_trading/src/execute.rs:675-787 | with pages of fifteen, a budget of one query and a commission of a tenth: four calls on three markets, each resuming where the last one recorded, that request 3, settle exactly 3 and book 5 |
| MarketScan.MarketWork.Process | contracts/copy_trading/src/execute.rs:1237-1357 | wherever it was cut before, the first pass ends with the sums and counts of the full listing; it is cut only after a position page, and a fresh call with a positive budget makes progress |
| MarketScan.MarketWork.ReadPositions | contracts/copy_trading/src/execute.rs:1253-1283 | the position loop reads every entry up to its cut exactly once, makes two queries to the page and one to find the end, and is cut at the first page that exceeds the budget |
| MarketScan.MarketWork.ReadOrders | contracts/copy_trading/src/execute.rs:1302-1332 | the order loop always reads to the end: its own budget check never cuts it |
| MarketScan.MarketWork.CountPositions | contracts/copy_trading/src/execute.rs:1120-1148 | the same for the second pass over the positions |
| MarketScan.MarketWork.CountOrders | contracts/copy_trading/src/execute.rs:1187-1204 | the second pass over the orders makes one query to the page and is cut at the first before the last that exceeds the budget |
| MarketScan.MarketWork.Validate | contracts/copy_trading/src/execute.rs:1095-1234 | a resumed second pass gives the verdict of one uncut count |
| MarketScan.MarketWork.Compute | contracts/copy_trading/src/execute.rs:1022-1052 | one call on a token with this one market keeps both passes exact and, with a positive budget, makes progress |
| MarketScan.MarketWork.ComputeToEnd | contracts/copy_trading/src/execute.rs:991-1093 | under any positive budgets the calls end, with the full sums, and valid if and only if the counts agree |
| CopyInvariant.PushKeepsFlight | contracts/copy_trading/src/execute.rs:959-989 | new items keep the in-flight invariant: a deferred execution is awaited exactly if one head is in progress, and it is a market item |
| CopyInvariant.IncSendTakesFlight | contracts/copy_trading/src/work.rs:1040-1075 | an accepted increase-queue message takes the one flight and is logged |
| CopyInvariant.DecSendTakesFlight | contracts/copy_trading/src/work.rs:975-1036 | an accepted decrease-queue message takes the one flight and is logged |
| CopyInvariant.IncSettleKeepsFlight | contracts/copy_trading/src/execute.rs:846-912 | settling the item in flight ends the flight; settling any other leaves it |
| CopyInvariant.DecSettleKeepsFlight | contracts/copy_trading/src/execute.rs:915-957 | the same for the decrease queue |
| CopyInvariant.QueueDepositKeeps | contracts/copy_trading/src/execute.rs:959-989 | a queued deposit keeps the whole invariant: frontiers, one flight, share and pending sums, backed prices, accounted commission, positions settled once |
| CopyInvariant.QueueWithdrawalKeeps | contracts/copy_trading/src/execute.rs:580-617 | so does a queued withdrawal |
| CopyInvariant.QueueLeaderMessageKeeps | contracts/copy_trading/src/execute.rs:284-578 | so does a leader's message |
| CopyInvariant.WithdrawCommissionKeeps | contracts/copy_trading/src/execute.rs:215-241 | so does a claim of the leader's commission |
| CopyInvariant.PriceTokenKeeps | contracts/copy_trading/src/execute.rs:991-1093 | so does pricing; a price that is not backed is recorded as such |
| CopyInvariant.ProcessDepositKeeps | contracts/copy_trading/src/work.rs:495-538 | so does processing a deposit at the stored price |
| CopyInvariant.ProcessWithdrawalKeeps | contracts/copy_trading/src/work.rs:546-668 | so does processing a withdrawal, paid or refused |
| CopyInvariant.SendDecOutcome | contracts/copy_trading/src/work.rs:670-910 | the three ways a decrease item leaves: short, sent, rejected; a rejected open, limit order or added collateral leaves the totals as they were |
| CopyInvariant.SendIncOutcome | contracts/copy_trading/src/work.rs:362-494 | the three ways an increase item leaves; only collateral removals pay a crank fee |
| CopyInvariant.SendDecKeeps | contracts/copy_trading/src/work.rs:670-910 | sending keeps the whole invariant and logs exactly the accepted message |
| CopyInvariant.SendIncKeeps | contracts/copy_trading/src/work.rs:362-494 | the same for the increase queue |
| CopyInvariant.DeferredSettles | contracts/copy_trading/src/execute.rs:838-957 | deferred work settles exactly the item in flight, by what became of it |
| CopyInvariant.RebalanceMoves | contracts/copy_trading/src/execute.rs:675-750 | a rebalance settles exactly the positions between the stored and the new cursors, and splits their collateral between pool and leader |
| CopyInvariant.RunRebalanceKeeps | contracts/copy_trading/src/execute.rs:675-788 | a rebalance keeps the whole invariant: unclaimed commission and mark are those of the token's history continued by the settled positions at the rate in force |
| CopyRuns.WorkFits | contracts/copy_trading/src/work.rs:208-348 | whatever work is chosen, what its handler asserts about the queue heads holds |
| CopyRuns.AssertionsHold | contracts/copy_trading/src/execute.rs:619-668 | no unit of work fails an assertion on an item in progress |
| CopyRuns.StepKeeps | contracts/copy_trading/src/execute.rs:122-173 | one transaction keeps the whole invariant, whatever chain and market answer |
| CopyRuns.RunKeeps | contracts/copy_trading/src/execute.rs:122-173 | so does any run, which only adds to the items handed over, the positions settled and each token's charges |
| CopyRuns.CommissionOverRun | contracts/copy_trading/src/execute.rs:790-826 | after any run claimed plus unclaimed commission is what the high water mark assesses on the positions closed so far: the mark is their highest net profit, and the commission the rate on it between the least and the greatest rate in force, short by less than one atom for each new high |
| CopyRuns.NothingTwice | contracts/copy_trading/src/execute.rs:697-718 | after any run each closed position, as its market and place in the listing, was settled once if it lies before its market's cursor and else never, and each market item handed over once if the market accepted it and else never |
| CopyRuns.RebalanceSpendsSurplus | contracts/copy_trading/src/execute.rs:753-787 | what a rebalance credits comes out of the token's surplus over its ledger, to the atom, and out of no other |
| CopyRuns.RebalanceAsksForSurplus | contracts/copy_trading/src/work.rs:913-973 | a rebalance that starts a batch asks for exactly the token's surplus |
| CopyRuns.RebalanceBalances | contracts/copy_trading/src/execute.rs:753-761 | uncut and settling no more than that, it leaves the ledger accounting for the bank's balance to the atom |
| CopyRuns.StepKeepsSurplus | contracts/copy_trading/src/execute.rs:122-173 | no call lowers a token's surplus but a rebalance of that token |
| CopyRuns.WorkAdvances | contracts/copy_trading/src/execute.rs:619-668 | processing advances its queue by exactly one or leaves the head in flight, deferred work ends the flight, and other work leaves the queues alone |
| CopyEffects.DepositIsQueued | contracts/copy_trading/src/execute.rs:959-989 | exactly when a deposit is accepted; its funds arrive and pend, and it waits under the next id as the sender's, with nothing else changed |
| CopyEffects.WithdrawalIsQueued | contracts/copy_trading/src/execute.rs:580-617 | exactly when a withdrawal is accepted; it waits with the requested shares as the sender's |
| CopyEffects.LeaderItemIsQueued | contracts/copy_trading/src/execute.rs:284-578 | exactly when a leader's message is accepted, and which item with which collateral each kind of message queues |
| CopyEffects.ClaimIsPaid | contracts/copy_trading/src/execute.rs:215-241 | exactly when a claim is accepted; the bank pays its whole units, and all of it moves from unclaimed to claimed |
| CopyEffects.DepositIsProcessed | contracts/copy_trading/src/work.rs:495-538 | the depositor and nobody else gets the funds over the price found for this item, rounded down; the funds leave the pending deposits and join the pool |
| CopyEffects.WithdrawalIsProcessed | contracts/copy_trading/src/work.rs:546-668 | the requester and nobody else gives up the shares, the pool their value and the bank its whole units; or it fails for want of shares, collateral or a whole unit, in that order, at no cost |
| CopyEffects.DecItemIsSent | contracts/copy_trading/src/work.rs:670-910 | item by item: the four that carry collateral cost exactly that and get it back if rejected, the three updates cost the crank fee, which stays spent; the bank sends the whole units |
| CopyEffects.IncItemIsSent | contracts/copy_trading/src/work.rs:362-494 | item by item: closing and cancelling are free, removing collateral costs the crank fee |
| CopyEffects.DecItemCanLeave | contracts/copy_trading/src/work.rs:670-910 | exactly when a decrease item is sent, item by item: the market is found, the cost fits the token, and the pool is short of it or price, message and refund are in order |
| CopyEffects.IncItemCanLeave | contracts/copy_trading/src/work.rs:362-494 | the same for an increase item |
| CopyEffects.DeferredIsHandled | contracts/copy_trading/src/execute.rs:838-957 | the first waiting item settles as finished or failed by what became of its execution, and nothing is awaited any more |
| CopyEffects.DeferredCanEnd | contracts/copy_trading/src/execute.rs:838-957 | exactly when deferred work succeeds: an ended execution is awaited by a market item in progress where the contract looks first |
| CopyEffects.TokenIsPriced | contracts/copy_trading/src/execute.rs:991-1093 | a token never priced is worth one; else a scan that is done stores the pool and what is active in the markets over the shares, rounded down, for the first waiting item; one that is cut is recorded, one that found a change is dropped |
| CopyEffects.TokenCanBePriced | contracts/copy_trading/src/execute.rs:991-1093 | exactly when pricing succeeds: an item waits for it, and the value of a finished scan is a decimal |
| CopyEffects.CursorsAreSaved | contracts/copy_trading/src/execute.rs:697-741 | each market's cursor ends where its settlement left it, and no other moves |
| CopyEffects.RebalanceIsBooked | contracts/copy_trading/src/execute.rs:675-788 | the whole effect of a rebalance in terms of the closed positions between the old and new cursors: what pool and leader gain, mark, cursors and batch record |
| CopyEffects.BalanceIsChecked | contracts/copy_trading/src/work.rs:913-973 | exactly when a token is valued, reset, rebalanced by its surplus, or stuck |
| CopyEffects.WorkIsChosen | contracts/copy_trading/src/work.rs:208-348 | exactly which work is next: a batch in progress, the market list, or what the first waiting item needs |
| CopyEffects.WorkIsDone | contracts/copy_trading/src/execute.rs:619-668 | every unit of work does one of these things, on every state the contract can be in |
| CopyOwnership.SharesAreTheirs | contracts/copy_trading/src/work.rs:495-668 | after any run every wallet holds exactly the shares minted for its own finished deposits, each its funds over the price it was processed at, less those burned for its own finished withdrawals |
| CopyProgress.DepositMintsIff | contracts/copy_trading/src/work.rs:495-538 | a deposit with a valid price is processed if and only if it buys shares and the amounts it adds to stay decimals |
| CopyProgress.WithdrawalPaysIff | contracts/copy_trading/src/work.rs:546-668 | a withdrawal with a price is processed if and only if it is refused (no shares, too little collateral, below one token unit) or its value is a decimal the bank can send |
| CopyProgress.WorkIff | contracts/copy_trading/src/work.rs:208-348 | with an item waiting and no batch in progress, some chain and market answers let work succeed if and only if the head has what its kind needs |
| CopyProgress.FrozenForever | contracts/copy_trading/src/execute.rs:122-173 | from a frozen head on, every run keeps pools, shares, prices and both heads, and no work but loading markets succeeds |
| CopyProgress.BlockedIffFrozen | contracts/copy_trading/src/execute.rs:122-173 | with an item waiting in the increase queue, no run ever leads to work that succeeds if and only if the head is frozen |
| CopyProgress.DepositFreezes | contracts/copy_trading/src/execute.rs:959-989 | exactly when a deposit freezes the contract: it is the first in the increase queue, of a priced token, while an action is in flight |
| CopyProgress.LeaderFreezes | contracts/copy_trading/src/execute.rs:284-578 | exactly when a leader's message freezes the contract: it is the first in the increase queue and cannot be started |
| CopyProgress.OthersDoNotFreeze | contracts/copy_trading/src/execute.rs:122-173 | withdrawal requests, claims and collateral that arrives freeze nothing and unfreeze nothing |
| CopyProgress.WorkFreezes | contracts/copy_trading/src/execute.rs:619-668 | exactly which unit of work freezes the contract outside a batch: one that settles the head of the increase queue and exposes a stuck item, or that finds a value at which the deposit at the head buys nothing |
| CopyProgress.BatchFreezes | contracts/copy_trading/src/execute.rs:619-668 | inside a batch, only the call that ends it, and exactly if the head is stuck with the totals and prices it leaves |
| CopyProgress.NoSecondFlight | contracts/copy_trading/src/reply.rs:23-43 | while an action of the decrease queue is in flight no increase item is handed over: it settles as failed, or the work fails |
| CopyFreezes.UnpricedFreezes | contracts/copy_trading/src/execute.rs:284-313 | one message to close a position, on a token never priced, freezes the empty contract |
| CopyFreezes.DepositDuringActionFreezes | contracts/copy_trading/src/work.rs:283-310 | so do a deposit, its processing, an accepted order and a second deposit before that order is executed |
| CopyFreezes.BuyingNothingFreezes | contracts/copy_trading/src/execute.rs:1053-1066 | so do a deposit of one atom, collateral sent to its pool and credited to it, and a second deposit of one atom |
| CopyBatch.RecordIsNext | contracts/copy_trading/src/work.rs:176-213 | while a rebalance is recorded, the next unit of work is what the record asks for |
| CopyBatch.WorkRunsBatch | contracts/copy_trading/src/execute.rs:675-788 | the units of work of one batch book exactly what `Settlement`'s batch does on the positions, cursors and limits they find |
| CopyBatch.WorkBooksOnce | contracts/copy_trading/src/execute.rs:675-788 | the exact condition under which they book the larger of the surplus asked for and what they settle |
| CopyBatch.LedgerExceedsBank | contracts/copy_trading/src/execute.rs:763-787 | a run from the empty contract, under the same limits, of a deposit, returned collateral and four units of work, after which the ledger accounts for 2 more than the bank holds |
| CopyTrading.Contract.ProcessDeposit | contracts/copy_trading/src/work.rs:495-538 | with its amounts added one by one, succeeds exactly when, and leaves the storage exactly as, the function of that name in `CopyModel` |
| CopyTrading.Contract.ProcessWithdrawal | contracts/copy_trading/src/work.rs:546-668 | the same for a withdrawal, which settles in every case: refused, or paid after burning the shares |
| CopyTrading.Contract.ReplyDecError | contracts/copy_trading/src/reply.rs:45-198 | the reply to a rejected decrease item finds it in progress, so its assertion holds, and settles it with the refund its kind is due |
| CopyTrading.Contract.ReplyIncError | contracts/copy_trading/src/reply.rs:74-95 | the reply to a rejected increase item finds it at the head and settles it as failed |
| CopyTrading.Contract.HandleDeferred | contracts/copy_trading/src/execute.rs:838-957 | deferred work finds the item in flight, so its assertions hold, and settles exactly it |
| CopyTrading.Contract.RunRebalance | contracts/copy_trading/src/execute.rs:675-788 | the settlement loops in place leave pool, commission, mark, cursors and batch record as the run over the listings does |
| CopyTrading.Contract.DoWork | contracts/copy_trading/src/execute.rs:619-668 | any unit of work, whatever is chosen, meets its handler's assertions and leaves the storage as the work of `CopyModel` does |
| CopyTrading.Contract.Execute | contracts/copy_trading/src/execute.rs:122-173 | one transaction: both sanity checks pass, an error restores everything, the invariant holds afterwards, and the trace grows by what happened |
| CopyTrading.Contract.Run | contracts/copy_trading/src/execute.rs:122-173 | over any run: the storage and the trace are those of `CopyModel.Run`, and the invariant holds |
| OneMarketPricing.PriceToEnd | contracts/copy_trading/src/execute.rs:991-1093 | for a token with a single market: units of work with any positive budgets end, and then the stored price is the pool's worth with exactly the market's positions and orders added to its collateral, or, if their number changed, none is stored |
| TokenScan.SumSplits | contracts/copy_trading/src/execute.rs:1033-1052 | what the markets list before any one of them and from it on adds up to the whole |
| TokenScan.TokenScan.ProcessMarkets | contracts/copy_trading/src/execute.rs:1025-1031 | the market loop of the first pass, from wherever it resumes: every market it passes holds the full sums and counts of its listing, and it is cut only at a market it still had to read |
| TokenScan.TokenScan.ValidateMarkets | contracts/copy_trading/src/execute.rs:1033-1052 | the market loop of the second pass: the sum of everything listed from the market it resumes at, or the first market whose counts changed, or the market it is cut at |
| TokenScan.TokenScan.Call | contracts/copy_trading/src/execute.rs:991-1052 | one call takes up either pass where the record says, and with a positive budget moves on: to the next pass, a later market, or further in the same one |
| TokenScan.TokenScan.RunToEnd | contracts/copy_trading/src/execute.rs:991-1052 | under any positive budgets the calls end, with the sum over the markets from the one at which the last call resumed, each holding its full sums, or at a market whose counts changed |
| TokenScan.TokenScan.Endings | contracts/copy_trading/src/work.rs:132-148 | the sum falls short by exactly what lies before that market, and the next check of the markets fails its assertion if and only if that market is not the first; else it tells whether statistics must be reset |
| TokenScan.CutAtSecondMarket | contracts/copy_trading/src/execute.rs:1025-1052 | two markets and six queries to the call: the value counts 7 of 12, and the next check of the markets fails |
| TakeProfit.Split | packages/perpswap/src/leverage.rs:149-158 | splitting and signing again gives back the leverage |
| TakeProfit.ConversionsInvert | packages/perpswap/src/leverage.rs:141-146 | leverage and price conversions are their own inverses |
| TakeProfit.LeverageIsExposure | packages/perpswap/src/leverage.rs:141-146 | in both market types the worth in quote moves by the signed leverage times the relative move of the base price |
| TakeProfit.CalcIsExpected | packages/perpswap/src/compat.rs:20-132 | every finite request ends as the closed form in the trader's own terms, errors included |
| TakeProfit.RequestedGainIsPaid | packages/perpswap/src/max_gains.rs:118-176 | at a finite take profit price the position is worth its entry worth plus exactly m times that, in quote |
| TakeProfit.InfiniteGainIsInfinitePrice | packages/perpswap/src/max_gains.rs:139-156 | an infinite gain is allowed exactly for a notional short in a collateral-is-base market, and leads to an infinite price |
| TakeProfit.GivenPriceIsKept | packages/perpswap/src/compat.rs:20-132 | a price that is given is kept whatever the gain, and an infinite gain without one is the infinite price |
| Vault.RemainderBelowMarkets | contracts/vault/src/execute.rs:216-250 | the markets' shares never exceed the excess and leave less than one unit per market |
| Vault.TakeFirst | contracts/vault/src/execute.rs:333-358 | pays an id-ordered prefix of at most twenty requests that fits the balance, and stops short only at one that does not fit; its sum never overflows |
| Vault.QueuedIsIndexed | contracts/vault/src/execute.rs:147-154 | a queued request gets a fresh id and its own index entry |
| Vault.RemovedIsUnindexed | contracts/vault/src/execute.rs:360-363 | a removed request leaves queue and index together |
| Vault.Contract.Mint | contracts/vault/src/execute.rs:71-77 | minting keeps the supply the sum of balances |
| Vault.MintedInProportion | contracts/vault/src/execute.rs:62-70 | a deposit mints its proportion of the assets, short of it by less than one unit of LP, or the amount into an empty supply |
| Vault.Contract.ExecuteDeposit | contracts/vault/src/execute.rs:52-86 | exactly when a deposit is accepted, and that the user gets what it mints |
| Vault.Contract.Enqueue | contracts/vault/src/execute.rs:147-161 | keeps pending the sum of queued amounts and the index exact, under a fresh id |
| Vault.Contract.ExecuteRequest | contracts/vault/src/execute.rs:127-173 | exactly when a request is accepted, and its whole effect |
| Vault.Contract.ExecuteProcess | contracts/vault/src/execute.rs:320-380 | succeeds exactly if not paused; pays the first requests of the queue, takes exactly them out of queue, index, pending and balance, and stops only at the limit or at a request that does not fit |
| Vault.Contract.Distribute | contracts/vault/src/execute.rs:219-257 | in any order of the markets each gets exactly its share, amounts and remainder add up to the excess, and the subtraction never saturates; it fails exactly if an allocation outgrows 128 bits |
| Vault.Contract.ExecuteRedistribute | contracts/vault/src/execute.rs:175-286 | exactly when funds are redistributed, up to and including 10,000 basis points; exactly the pending amount stays, and the remainder is below the number of markets |
| Vault.Contract.Execute | contracts/vault/src/execute.rs:22-50 | exactly when each message is accepted and its whole effect; an error restores everything |
| Vault.Contract.Run | contracts/vault/src/execute.rs:22-50 | any run goes through the states its messages lead to, one after the other, and keeps supply and pending equal to their sums and the index exact |
| StorageKey.MapKey | packages/perpswap/src/storage.rs:169-203 | succeeds exactly for a key with parts whose prefixed ones fit 16 bits of length, and builds the encoding |
| StorageKey.KeyDecodes | packages/perpswap/src/storage.rs:169-203 | a key of known number of parts is read back as its namespace and parts, each behind its length of two bytes, the more significant first |
| StorageKey.MapKeyInjective | packages/perpswap/src/storage.rs:169-203 | keys of the same number of parts never collide, across namespaces either |
| StorageKey.CapacityIsLength | packages/perpswap/src/storage.rs:173-182 | the capacity computed up front is exactly the key's length |
| StorageKey.PartsCanCollide | packages/perpswap/src/storage.rs:169-203 | any two-part key is also a key of one part |
| MarketIds.PrintParsed | packages/perpswap/src/market_type.rs:111-153 | whatever parses prints back as it was, so the parser's assertion never fails |
| MarketIds.ParsePrinted | packages/perpswap/src/market_type.rs:71-153 | an id parses back from its print if and only if its base has no underscore, its quote does not end in a plus, and its base does only where the print adds another |
| MarketIds.PrintInjective | packages/perpswap/src/market_type.rs:71-83 | printing is injective on those ids |
| MarketIds.PrintsByDefault | packages/perpswap/src/market_type.rs:64-83 | which asset is the collateral by default, against the two fiat quotes and against any other |
| MarketIds.ParsedIsPrintable | packages/perpswap/src/market_type.rs:111-153 | parsing yields only those ids |
| MarketIds.PrintsCanCollide | packages/perpswap/src/market_type.rs:71-83 | outside them two ids can print alike |

## Left out

- Serialization, events and attributes, address validation, migration, administration and configuration messages,
  and authorization beyond the vault's governance check.
- The market, factory, token and faucet contracts: their answers are parameters, and `contracts/market` itself is
  not part of this model.
- Which trade the countertrade contract picks once it has a target (collateral, leverage, take profit and stop loss
  of `desired_action`, `compute_delta_notional` and `optimize_capital_efficiency`): `View.next` stands for it.
- CounterTrade.GetWork: the price and status queries it makes can only fail the call, which `View.next` covers.
- SmartSearch.Search: the parameter that starts the iteration count is fixed at zero, the only value the contract
  passes; the 8-bit counter is a natural number that provably stays within 8 bits.
- FundingCurve.RateIsCurve: rounding; the fixed-point rate is not exactly monotone, and `RateRounding.RateIsClose`
  bounds its distance from the exact one.
- FundingCurve.CurvePositive: rounding; `SmartSearch.SignAssertionFails` says where the fixed-point rate is lost.
- TakeProfit.RequestedGainIsPaid: rounding of the conversions, and the debug-only assertion on negative prices.
- The market list loader of copy trading: `Env.loaderDue` says whether it has work.
- CopyProgress.BlockedIffFrozen: assumes that the amounts of a waiting deposit's token add up to a decimal, and leaves
  out the assertion that no market is in the middle of a scan, for which see `TokenScan.TokenScan.Endings`.
- CopyProgress.WorkIff: says that some answers let work succeed, not that chain and market will give them.
- CopyInvariant.PriceTokenKeeps: a price is not backed, and is recorded so, when a token is valued at one while its
  collateral is zero and shares are outstanding.
- CopyTrading.Contract.PriceToken: takes the outcome of the scan as a parameter; only for a token with a single market
  are the two joined.
- TokenScan.TokenScan.RunToEnd: the market at which the last call resumes is read off the record, not derived from
  listings and budgets.
- OneMarketPricing.PriceToEnd: the units of work of one scan follow each other; the listing may change between its
  two passes, but not within one.
- CopyRuns.NothingTwice: a closed position is its market and its place in the market's listing, which only grows; a
  listing shorter than the stored cursor fails the query.
- The statistics that `ResetStats` clears are those of `MarketScan`; the copy-trading model does not store them, nor
  the assertion that none is in the middle of a batch.
- Payloads of leader messages (position ids, slippage, prices): they are passed through to the market.
- 256-bit overflow of the scan's sums and 64-bit overflow of its counts and of the queue ids.
- Vault.Contract.ExecuteProcess: pays from the native balance; for a CW20 asset the contract still asks the bank,
  which this model does not distinguish.
- Fairness of the vault's minting, its yield collection and its withdrawals from markets, and pausing and allocation
  changes beyond setting the values (`Configure`).
