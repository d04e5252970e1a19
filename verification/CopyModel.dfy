/** The copy-trading contract as functions of its storage: what each message and each unit of work does, with
    the contract's own branches and errors. An error leaves the storage as it was. */
module CopyModel {
  import opened Wrappers
  import opened Decimals
  import opened Queues
  import opened CopyLedger
  import opened Tokens
  import opened HighWaterMark
  import LpValue
  import Settlement

  datatype CopyError =
    | Arithmetic(cause: DecimalError)
    | Price(reason: LpValue.LpError)
    | NoWorkAvailable
    | MarketNotFound
    | StoreEmpty
    | NoQueueItem
    | NonMarketItem
    | AssertionFailed
    | DeferredExecMissing
    | DeferredExecPending
    | DeferredExecAlreadySet
    | ReplyWithoutExecId
    | ZeroAmount
    | InsufficientShares
    | InsufficientCollateral
    | NoCollateralSupplied
    | BelowTokenPrecision
    | BankRefused
    | QueryFailed

  function Lift<T>(r: Result<T, DecimalError>): Result<T, CopyError> {
    match r
    case Ok(v) => Ok(v)
    case Err(e) => Err(Arithmetic(e))
  }

  function LiftPrice<T>(r: Result<T, LpValue.LpError>): Result<T, CopyError> {
    match r
    case Ok(v) => Ok(v)
    case Err(e) => Err(Price(e))
  }

  /** The atoms in one unit of each token. */
  type Units = Token -> Unit

  datatype ExecStatus = Pending | Success | Failure | NotFound

  /** `Accepted` carries the deferred execution id of the reply's event, if there is one. */
  datatype MarketAnswer = Rejected | Accepted(id: Option<nat>)

  /** How the paged scan of a token's markets ends in this call: cut by the query budget, failed because the
      positions changed, or done with the collateral that is active in them. */
  datatype Scan = Cut | Changed | Done(active: nat)

  /** The markets a rebalance visits, what each has listed of this contract's closed positions so far, and the
      limits in force. */
  datatype Closings = Closings(markets: seq<MarketId>, histories: seq<seq<Settlement.Closed>>,
                               limits: Settlement.Limits)

  /** What the chain answers during one call. */
  datatype Env = Env(
    loaderDue: bool,
    found: bool,
    exec: ExecStatus,
    crankFee: Option<nat>,
    answer: MarketAnswer,
    resetRequired: bool,
    statsStale: bool,
    scan: Scan,
    closings: Closings)

  datatype BatchWork = NoBatch | BatchRebalance(token: Token, balance: nat) | BatchLpTokenValue(token: Token)

  datatype Storage = Storage(
    incQueue: Queue<IncItem>,
    decQueue: Queue<DecItem>,
    totals: map<Token, Totals>,
    pending: map<Token, nat>,
    shares: map<Wallet, nat>,
    prices: map<Token, LpTokenValue>,
    commission: map<Token, CommissionStats>,
    marks: map<Token, Mark>,
    cursors: map<MarketId, nat>,
    replyExec: Option<nat>,
    batch: BatchWork,
    bank: map<Token, nat>)

  function Initial(): Storage {
    Storage(Empty(), Empty(), map[], map[], map[], map[], map[], map[], map[], None, NoBatch, map[])
  }

  // ----- Messages that queue or move funds -----

  /** Collateral arrives at the contract; all of a token fits a decimal. */
  function Receive(s: Storage, token: Token, funds: nat): Result<Storage, CopyError> {
    var balance :- Lift(CheckedAdd(At(s.bank, token), funds));
    Ok(s.(bank := s.bank[token := balance]))
  }

  /** `deposit`, with the funds it carries. */
  function QueueDeposit(s: Storage, sender: string, funds: nat, token: Token, found: bool): Result<Storage, CopyError> {
    var s :- Receive(s, token, funds);
    if !found then Err(MarketNotFound)
    else if funds == 0 then Err(ZeroAmount)
    else
      var sum :- Lift(CheckedAdd(At(s.pending, token), funds));
      Ok(s.(incQueue := s.incQueue.Push(Deposit(funds, token), sender), pending := s.pending[token := sum]))
  }

  /** `withdraw` */
  function QueueWithdrawal(s: Storage, sender: string, tokens: nat, token: Token): Result<Storage, CopyError> {
    var wallet := Wallet(token, sender);
    if tokens == 0 then Err(ZeroAmount)
    else if wallet !in s.shares || tokens > s.shares[wallet] then Err(InsufficientShares)
    else Ok(s.(decQueue := s.decQueue.Push(Withdrawal(tokens, token), sender)))
  }

  datatype Spending = SpendToOpen | SpendOnLimitOrder | SpendOnSize | SpendOnLeverage

  datatype Updating = UpdateLeverageTo | UpdateTakeProfitTo | UpdateStopLossTo

  datatype LeaderAction = Spend(how: Spending) | Update(what: Updating) | Increase(action: IncMarketItem) | Unsupported

  datatype Queued = QueueInc(inc: IncMarketItem) | QueueDec(dec: DecMarketItem) | QueueNothing

  function SpendItem(how: Spending, collateral: nat): DecMarketItem {
    match how
    case SpendToOpen => OpenPosition(collateral)
    case SpendOnLimitOrder => PlaceLimitOrder(collateral)
    case SpendOnSize => AddCollateralImpactSize(collateral)
    case SpendOnLeverage => AddCollateralImpactLeverage(collateral)
  }

  function UpdateItem(what: Updating): DecMarketItem {
    match what
    case UpdateLeverageTo => UpdateLeverage
    case UpdateTakeProfitTo => UpdateTakeProfitPrice
    case UpdateStopLossTo => UpdateStopLossPrice
  }

  /** The market item a leader message queues; those that spend collateral must name it. */
  function LeaderItem(action: LeaderAction, collateral: Option<nat>): Result<Queued, CopyError> {
    match action
    case Spend(how) =>
      if collateral.None? then Err(NoCollateralSupplied) else Ok(QueueDec(SpendItem(how, collateral.value)))
    case Update(what) => Ok(QueueDec(UpdateItem(what)))
    case Increase(item) => Ok(QueueInc(item))
    case Unsupported => Ok(QueueNothing)
  }

  /** `execute_leader_msg` on a market of `token`. */
  function QueueLeaderMessage(s: Storage, leader: string, token: Token, action: LeaderAction,
                              collateral: Option<nat>, found: bool): Result<Storage, CopyError> {
    if collateral == Some(0) then Err(ZeroAmount)
    else if !found then Err(MarketNotFound)
    else if collateral.Some? && collateral.value > TotalsAt(s.totals, token).collateral then Err(InsufficientCollateral)
    else
      var queued :- LeaderItem(action, collateral);
      match queued
      case QueueInc(item) => Ok(s.(incQueue := s.incQueue.Push(IncMarket(token, item), leader)))
      case QueueDec(item) => Ok(s.(decQueue := s.decQueue.Push(DecMarket(token, item), leader)))
      case QueueNothing => Ok(s)
  }

  /** The bank pays out of the contract's balance. */
  function Pay(s: Storage, token: Token, moved: nat): Result<Storage, CopyError> {
    if moved > At(s.bank, token) then Err(BankRefused)
    else Ok(s.(bank := s.bank[token := At(s.bank, token) - moved]))
  }

  /** `leader_withdrawal` */
  function WithdrawCommission(s: Storage, requested: nat, token: Token, units: Units, found: bool)
    : Result<Storage, CopyError>
  {
    var stats := StatsAt(s.commission, token);
    if requested == 0 then Err(ZeroAmount)
    else if !found then Err(MarketNotFound)
    else if stats.unclaimed < requested then Err(InsufficientCollateral)
    else
      var claimed :- Lift(CheckedAdd(stats.claimed, requested));
      var moved :- Lift(Transfer(requested, units(token)));
      if moved.None? then Err(BelowTokenPrecision)
      else
        Pay(s.(commission := s.commission[token := CommissionStats(stats.unclaimed - requested, claimed)]),
            token, moved.value)
  }

  // ----- What to do next -----

  datatype Work =
    | NoWork
    | LoadMarket
    | ComputeLpTokenValue(token: Token)
    | ProcessQueueItem(id: QueueId)
    | ResetStats(token: Token)
    | HandleDeferredExecId
    | Rebalance(token: Token, amount: nat)

  /** 0.00001 */
  const BALANCE_TOLERANCE: nat := 10_000_000_000_000

  /** What the ledger accounts for of a token. */
  function Booked(s: Storage, token: Token): nat {
    TotalsAt(s.totals, token).collateral + At(s.pending, token) + StatsAt(s.commission, token).unclaimed
  }

  /** What the contract holds of a token beyond that. */
  function Surplus(s: Storage, token: Token): int {
    At(s.bank, token) - Booked(s, token)
  }

  /** `check_balance_work`: value the token if its ledger explains the bank's balance, else rebalance. */
  function CheckBalanceWork(s: Storage, token: Token, env: Env): Result<Work, CopyError> {
    var partial :- Lift(CheckedAdd(TotalsAt(s.totals, token).collateral, At(s.pending, token)));
    var total :- Lift(CheckedAdd(partial, StatsAt(s.commission, token).unclaimed));
    if !env.found then Err(MarketNotFound)
    else if Abs(total - At(s.bank, token)) <= BALANCE_TOLERANCE then
      Ok(if env.statsStale then ResetStats(token) else ComputeLpTokenValue(token))
    else
      var amount :- Lift(CheckedSub(At(s.bank, token), total));
      Ok(Rebalance(token, amount))
  }

  /** `get_inc_deferred_work` and `get_dec_deferred_work` for the head of the queue they look at. */
  function DeferredWork(marketItem: bool, env: Env): Result<Work, CopyError> {
    if !marketItem then Err(NonMarketItem)
    else if !env.found then Err(MarketNotFound)
    else if env.exec.NotFound? then Err(DeferredExecMissing)
    else if env.exec.Pending? then Ok(NoWork)
    else Ok(HandleDeferredExecId)
  }

  /** The work for a queue's head. A deposit or withdrawal needs a price valid for it; a market item in
      progress needs its deferred execution to end. */
  function HeadWork(s: Storage, id: QueueId, priced: Option<Token>, status: ProcessingStatus, env: Env)
    : Result<Work, CopyError>
  {
    var awaited := status.InProgress? && s.replyExec.Some?;
    match priced
    case None => if awaited then DeferredWork(true, env) else Ok(ProcessQueueItem(id))
    case Some(token) =>
      if token !in s.prices then CheckBalanceWork(s, token, env)
      else if s.prices[token].status == ValidFor(id) then
        if awaited then DeferredWork(false, env) else Ok(ProcessQueueItem(id))
      else if s.replyExec.Some? then DeferredWork(false, env)
      else if env.resetRequired then Ok(ResetStats(token))
      else CheckBalanceWork(s, token, env)
  }

  function IncHeadWork(s: Storage, env: Env): Result<Work, CopyError>
    requires s.incQueue.Head().Some?
  {
    var entry := s.incQueue.Head().value;
    HeadWork(s, IncId(s.incQueue.HeadId()), if entry.item.Deposit? then Some(entry.item.token) else None,
             entry.status, env)
  }

  function DecHeadWork(s: Storage, env: Env): Result<Work, CopyError>
    requires s.decQueue.Head().Some?
  {
    var entry := s.decQueue.Head().value;
    HeadWork(s, DecId(s.decQueue.HeadId()), if entry.item.Withdrawal? then Some(entry.item.token) else None,
             entry.status, env)
  }

  /** `get_work`: a batch in progress first, then the market list, then the increase queue, and only when that
      is empty the decrease queue. */
  function GetWork(s: Storage, env: Env): Result<Work, CopyError> {
    match s.batch
    case BatchRebalance(token, balance) => Ok(Rebalance(token, balance))
    case BatchLpTokenValue(token) => Ok(ComputeLpTokenValue(token))
    case NoBatch =>
      if env.loaderDue then Ok(LoadMarket)
      else if s.incQueue.Head().Some? then IncHeadWork(s, env)
      else if s.decQueue.Head().Some? then DecHeadWork(s, env)
      else Ok(NoWork)
  }

  /** `get_current_queue_element` */
  function CurrentElement(s: Storage): Option<QueueId> {
    if s.incQueue.Head().Some? then Some(IncId(s.incQueue.HeadId()))
    else if s.decQueue.Head().Some? then Some(DecId(s.decQueue.HeadId()))
    else None
  }

  // ----- Pricing -----

  /** The new value of a token for the current queue element, if this call finds one: one for a token never
      priced; else, once the scan of its markets is done, the pool's worth per share. */
  function Reprice(s: Storage, token: Token, now: LpStatus, env: Env): Result<Option<nat>, CopyError> {
    if token !in s.prices then Ok(Some(ONE))
    else if s.prices[token].status == now || !env.scan.Done? then Ok(None)
    else
      var total :- Lift(CheckedAdd(TotalsAt(s.totals, token).collateral, env.scan.active));
      var value :- LiftPrice(LpValue.Valuation(total, TotalsAt(s.totals, token).shares));
      Ok(Some(value))
  }

  /** A cut scan is to be resumed; a finished one, whichever way, is not. */
  function ScanBatch(s: Storage, token: Token, now: LpStatus, env: Env): BatchWork {
    if token !in s.prices || s.prices[token].status == now then s.batch
    else if env.scan.Cut? then BatchLpTokenValue(token)
    else NoBatch
  }

  /** `compute_lp_token_value` */
  function PriceToken(s: Storage, token: Token, env: Env): Result<Storage, CopyError> {
    if CurrentElement(s).None? then Err(NoQueueItem)
    else
      var now := ValidFor(CurrentElement(s).value);
      var value :- Reprice(s, token, now, env);
      Ok(s.(batch := ScanBatch(s, token, now, env),
            prices := if value.Some? then s.prices[token := LpTokenValue(value.value, now)] else s.prices))
  }

  // ----- Processing deposits and withdrawals -----

  /** The shares minted for the deposit at the head; every amount it adds to must stay a decimal. */
  function DepositMints(s: Storage): Result<nat, CopyError>
    requires s.incQueue.Head().Some? && s.incQueue.Head().value.item.Deposit?
  {
    var entry := s.incQueue.Head().value;
    var token, funds, wallet := entry.item.token, entry.item.funds, Wallet(entry.item.token, entry.wallet);
    if token !in s.prices then Err(StoreEmpty)
    else
      var minted :- LiftPrice(LpValue.CollateralToShares(s.prices[token].value, funds));
      var _ :- Lift(CheckedAdd(TotalsAt(s.totals, token).collateral, funds));
      var _ :- Lift(CheckedAdd(TotalsAt(s.totals, token).shares, minted));
      var _ :- Lift(CheckedSub(At(s.pending, token), funds));
      var _ :- Lift(CheckedAdd(SharesAt(s.shares, wallet), minted));
      Ok(minted)
  }

  /** What was pending joins the pool, and the wallet gets its shares. */
  function Deposited(s: Storage, minted: nat): Storage
    requires s.incQueue.Head().Some? && s.incQueue.Head().value.item.Deposit?
    requires s.incQueue.Head().value.item.funds <= At(s.pending, s.incQueue.Head().value.item.token)
  {
    var entry := s.incQueue.Head().value;
    var token, funds, wallet := entry.item.token, entry.item.funds, Wallet(entry.item.token, entry.wallet);
    s.(totals := s.totals[token := Totals(TotalsAt(s.totals, token).collateral + funds,
                                          TotalsAt(s.totals, token).shares + minted)],
       pending := s.pending[token := At(s.pending, token) - funds],
       shares := s.shares[wallet := SharesAt(s.shares, wallet) + minted],
       incQueue := s.incQueue.Settle(Finished))
  }

  function ProcessDeposit(s: Storage): Result<Storage, CopyError>
    requires s.incQueue.Head().Some? && s.incQueue.Head().value.item.Deposit?
  {
    var minted :- DepositMints(s);
    Ok(Deposited(s, minted))
  }

  /** How a withdrawal request ends: failed for a reason, or paid. */
  datatype Payout = Refused(reason: FailedReason) | Paid(funds: nat, moved: nat)

  /** The checks of the withdrawal at the head, in the contract's order. */
  function WithdrawalPayout(s: Storage, units: Units, found: bool): Result<Payout, CopyError>
    requires s.decQueue.Head().Some? && s.decQueue.Head().value.item.Withdrawal?
  {
    var entry := s.decQueue.Head().value;
    var token, burned, wallet := entry.item.token, entry.item.tokens, Wallet(entry.item.token, entry.wallet);
    if wallet !in s.shares || burned > s.shares[wallet] then Ok(Refused(NotEnoughShares))
    else if token !in s.prices then Err(StoreEmpty)
    else
      var funds :- LiftPrice(LpValue.SharesToCollateral(s.prices[token].value, burned));
      if !found then Err(MarketNotFound)
      else
        var moved :- Lift(Transfer(funds, units(token)));
        if token !in s.totals then Err(StoreEmpty)
        else if funds > s.totals[token].collateral then Ok(Refused(NotEnoughCollateral))
        else if moved.None? then Ok(Refused(FundLessThanMinChain))
        else Ok(Paid(funds, moved.value))
  }

  /** Shares are burned, and their value leaves the pool. */
  function Redeemed(s: Storage, funds: nat): Storage
    requires s.decQueue.Head().Some? && s.decQueue.Head().value.item.Withdrawal?
    requires var entry := s.decQueue.Head().value;
             var token, burned := entry.item.token, entry.item.tokens;
             && burned <= SharesAt(s.shares, Wallet(token, entry.wallet))
             && token in s.totals && funds <= s.totals[token].collateral && burned <= s.totals[token].shares
  {
    var entry := s.decQueue.Head().value;
    var token, burned := entry.item.token, entry.item.tokens;
    s.(shares := WithoutShares(s.shares, Wallet(token, entry.wallet), burned),
       totals := s.totals[token := Totals(s.totals[token].collateral - funds, s.totals[token].shares - burned)],
       decQueue := s.decQueue.Settle(Finished))
  }

  /** A withdrawal settles in every case, and costs the pool only if paid. */
  function ProcessWithdrawal(s: Storage, units: Units, found: bool): Result<Storage, CopyError>
    requires s.decQueue.Head().Some? && s.decQueue.Head().value.item.Withdrawal?
  {
    var entry := s.decQueue.Head().value;
    var payout :- WithdrawalPayout(s, units, found);
    match payout
    case Refused(reason) => Ok(s.(decQueue := s.decQueue.Settle(Failed(reason))))
    case Paid(funds, moved) =>
      var _ :- Lift(CheckedSub(s.totals[entry.item.token].shares, entry.item.tokens));
      Pay(Redeemed(s, funds), entry.item.token, moved)
  }

  // ----- Sending market items -----

  /** How a market item leaves `process_queue_item`. */
  datatype Dispatch = Short | Sent(id: nat) | RejectedByMarket

  /** What an accepted message takes from the bank is there. */
  predicate BankCovers(s: Storage, token: Token, cost: nat, units: Units) {
    RoundDown(cost, units(token)) <= At(s.bank, token)
  }

  /** The message to the market with its funds, and the reply to an accepted one; `None` is a rejection. A
      message whose funds the bank cannot cover is rejected. */
  function Submit(s: Storage, token: Token, cost: nat, units: Units, answer: MarketAnswer)
    : Result<(Storage, Option<nat>), CopyError>
  {
    if answer.Rejected? || !BankCovers(s, token, cost, units) then Ok((s, None))
    else if answer.id.None? then Err(ReplyWithoutExecId)
    else if s.replyExec.Some? then Err(DeferredExecAlreadySet)
    else
      var left: nat := At(s.bank, token) - RoundDown(cost, units(token));
      Ok((s.(bank := s.bank[token := left], replyExec := answer.id), answer.id))
  }

  /** `process_dec_queue` and `process_dec_crank_queue`: debits the cost and starts the head, or settles it as
      failed when the collateral is short. */
  function StartDec(s: Storage, token: Token, cost: nat, reason: FailedReason): Result<(Storage, bool), CopyError>
    requires s.decQueue.Head().Some?
  {
    if token !in s.totals then Err(StoreEmpty)
    else if s.totals[token].collateral < cost then Ok((s.(decQueue := s.decQueue.Settle(Failed(reason))), false))
    else if token !in s.prices then Err(StoreEmpty)
    else
      Ok((s.(totals := Debit(s.totals, token, cost), prices := Outdate(s.prices, token),
             decQueue := s.decQueue.Start()), true))
  }

  /** `process_inc_queue`: the same for the increase queue, where some items have no fee. */
  function StartInc(s: Storage, token: Token, fee: Option<nat>): Result<(Storage, bool), CopyError>
    requires s.incQueue.Head().Some?
  {
    if fee.Some? && token !in s.totals then Err(StoreEmpty)
    else if fee.Some? && s.totals[token].collateral < fee.value then
      Ok((s.(incQueue := s.incQueue.Settle(Failed(NotEnoughCrankFee))), false))
    else if token !in s.prices then Err(StoreEmpty)
    else
      Ok((s.(totals := if fee.Some? then Debit(s.totals, token, fee.value) else s.totals,
             prices := Outdate(s.prices, token), incQueue := s.incQueue.Start()), true))
  }

  /** The reply of a rejected decrease-queue message: collateral that was debited for it comes back, a crank
      fee does not. */
  function ReplyDecError(s: Storage): Result<Storage, CopyError> {
    if s.decQueue.Head().None? then Err(NoQueueItem)
    else
      var entry := s.decQueue.Head().value;
      if !entry.status.InProgress? then Err(AssertionFailed)
      else if !entry.item.DecMarket? then Err(NonMarketItem)
      else
        var settled := s.(decQueue := s.decQueue.Settle(Failed(MarketError)));
        if !entry.item.action.CarriesCollateral() then Ok(settled)
        else if entry.item.token !in s.totals then Err(StoreEmpty)
        else
          var totals := s.totals[entry.item.token];
          var collateral :- Lift(CheckedAdd(totals.collateral, entry.item.action.collateral));
          Ok(settled.(totals := s.totals[entry.item.token := Totals(collateral, totals.shares)]))
  }

  function ReplyIncError(s: Storage): Result<Storage, CopyError> {
    if s.incQueue.Head().None? then Err(NoQueueItem)
    else
      var entry := s.incQueue.Head().value;
      if !entry.status.InProgress? then Err(AssertionFailed)
      else if !entry.item.IncMarket? then Err(NonMarketItem)
      else Ok(s.(incQueue := s.incQueue.Settle(Failed(MarketError))))
  }

  /** `estimate_crank_fee`, which asks the market. */
  function CrankFee(env: Env): Result<nat, CopyError> {
    if env.crankFee.None? then Err(QueryFailed) else Ok(env.crankFee.value)
  }

  /** What a decrease-queue item costs: the collateral it carries, or the crank fee. */
  function DecCost(action: DecMarketItem, env: Env): Result<nat, CopyError> {
    if action.CarriesCollateral() then Ok(action.collateral) else CrankFee(env)
  }

  /** The market item at the head of the decrease queue, and the reply. */
  function SendDec(s: Storage, units: Units, env: Env): Result<(Storage, Dispatch), CopyError>
    requires s.decQueue.Head().Some? && s.decQueue.Head().value.item.DecMarket?
  {
    var item := s.decQueue.Head().value.item;
    if !env.found then Err(MarketNotFound)
    else
      var cost :- DecCost(item.action, env);
      var _ :- Lift(Transfer(cost, units(item.token)));
      var started :- StartDec(s, item.token, cost,
                              if item.action.CarriesCollateral() then NotEnoughCollateral else NotEnoughCrankFee);
      if !started.1 then Ok((started.0, Short))
      else
        var sent :- Submit(started.0, item.token, cost, units, env.answer);
        if sent.1.Some? then Ok((sent.0, Sent(sent.1.value)))
        else
          var failed :- ReplyDecError(sent.0);
          Ok((failed, RejectedByMarket))
  }

  /** What an increase-queue item costs: collateral removals pay a crank fee, the others nothing. */
  function IncCost(action: IncMarketItem, env: Env): Result<nat, CopyError> {
    if action.PaysCrankFee() then CrankFee(env) else Ok(0)
  }

  /** The market item at the head of the increase queue, and the reply. */
  function SendInc(s: Storage, units: Units, env: Env): Result<(Storage, Dispatch), CopyError>
    requires s.incQueue.Head().Some? && s.incQueue.Head().value.item.IncMarket?
  {
    var item := s.incQueue.Head().value.item;
    if !env.found then Err(MarketNotFound)
    else
      var cost :- IncCost(item.action, env);
      var _ :- Lift(Transfer(cost, units(item.token)));
      var started :- StartInc(s, item.token, if item.action.PaysCrankFee() then Some(cost) else None);
      if !started.1 then Ok((started.0, Short))
      else
        var sent :- Submit(started.0, item.token, cost, units, env.answer);
        if sent.1.Some? then Ok((sent.0, Sent(sent.1.value)))
        else
          var failed :- ReplyIncError(sent.0);
          Ok((failed, RejectedByMarket))
  }

  /** What became of a deferred execution. */
  function ExecResult(env: Env): Result<ProcessingStatus, CopyError> {
    if !env.found then Err(MarketNotFound)
    else
      match env.exec
      case NotFound => Err(DeferredExecMissing)
      case Pending => Err(DeferredExecPending)
      case Success => Ok(Finished)
      case Failure => Ok(Failed(DeferredExecFailure))
  }

  /** `handle_deferred_exec_id`, which looks at the increase queue first. */
  function HandleDeferred(s: Storage, env: Env): Result<Storage, CopyError> {
    if s.replyExec.None? then Err(DeferredExecMissing)
    else if s.incQueue.Head().Some? then
      var entry := s.incQueue.Head().value;
      if !entry.status.InProgress? then Err(AssertionFailed)
      else if !entry.item.IncMarket? then Err(NonMarketItem)
      else
        var status :- ExecResult(env);
        Ok(s.(incQueue := s.incQueue.Settle(status), replyExec := None))
    else if s.decQueue.Head().None? then Err(NoQueueItem)
    else
      var entry := s.decQueue.Head().value;
      if !entry.status.InProgress? then Err(AssertionFailed)
      else if !entry.item.DecMarket? then Err(NonMarketItem)
      else
        var status :- ExecResult(env);
        Ok(s.(decQueue := s.decQueue.Settle(status), replyExec := None))
  }

  // ----- Rebalancing -----

  /** What a rebalance finds and leaves in `CURRENT_BATCH_WORK`. */
  function RecordOf(batch: BatchWork): Settlement.Record {
    if batch.BatchRebalance? then Settlement.Carry(batch.balance) else Settlement.Nothing
  }

  function CarryOver(batch: BatchWork, token: Token, requested: nat, settled: nat, early: bool): BatchWork {
    if !early then NoBatch
    else if settled == 0 then BatchRebalance(token, requested)
    else if Settlement.ApproxEq(settled, requested) || settled > requested then batch
    else BatchRebalance(token, requested - settled)
  }

  /** A listing of closed positions only grows, and each market is listed once. */
  predicate Listed(s: Storage, closings: Closings) {
    var from := LoadCursors(s.cursors, closings.markets);
    && closings.limits.page > 0
    && Distinct(closings.markets)
    && |closings.markets| == |closings.histories|
    && Settlement.CursorsWithin(closings.histories, from, from)
  }

  function OpenBook(s: Storage, token: Token): Settlement.Book {
    Settlement.Book(TotalsAt(s.totals, token).collateral, StatsAt(s.commission, token).unclaimed, 0,
                    MarkAt(s.marks, token))
  }

  function Settled(s: Storage, token: Token, requested: nat, env: Env): Result<Settlement.Settled, CopyError> {
    if !Listed(s, env.closings) then Err(QueryFailed)
    else
      Lift(Settlement.SettleRun(OpenBook(s, token), env.closings.histories,
                                LoadCursors(s.cursors, env.closings.markets), requested, 0, env.closings.limits))
  }

  /** `rebalance`, once the closed positions are settled. */
  function Rebalanced(s: Storage, token: Token, requested: nat, env: Env, settled: Settlement.Settled)
    : Result<Storage, CopyError>
    requires |env.closings.markets| == |settled.cursors|
  {
    var book := settled.book;
    var collateral :- Lift(CheckedAdd(book.collateral, Settlement.Gains(requested, book.check, settled.early)));
    Ok(s.(totals := s.totals[token := Totals(collateral, TotalsAt(s.totals, token).shares)],
          commission := s.commission[token := CommissionStats(book.unclaimed, StatsAt(s.commission, token).claimed)],
          marks := s.marks[token := book.mark],
          cursors := SaveCursors(s.cursors, env.closings.markets, settled.cursors),
          batch := CarryOver(s.batch, token, requested, book.check, settled.early)))
  }

  lemma SettledLength(s: Storage, token: Token, requested: nat, env: Env)
    requires Settled(s, token, requested, env).Ok?
    ensures |env.closings.markets| == |Settled(s, token, requested, env).value.cursors|
  {
    Settlement.RebalanceSettles(OpenBook(s, token), env.closings.histories,
                                LoadCursors(s.cursors, env.closings.markets), requested, 0, env.closings.limits);
  }

  function RunRebalance(s: Storage, token: Token, requested: nat, env: Env): Result<Storage, CopyError> {
    var settled :- Settled(s, token, requested, env);
    SettledLength(s, token, requested, env);
    Rebalanced(s, token, requested, env, settled)
  }

  // ----- Calls -----

  /** `process_queue_item` */
  function ProcessItem(s: Storage, id: QueueId, units: Units, env: Env): Result<Storage, CopyError>
    requires if id.IncId? then s.incQueue.Head().Some? else s.decQueue.Head().Some?
  {
    match id
    case IncId(_) =>
      if s.incQueue.Head().value.item.Deposit? then ProcessDeposit(s)
      else
        var sent :- SendInc(s, units, env);
        Ok(sent.0)
    case DecId(_) =>
      if s.decQueue.Head().value.item.Withdrawal? then ProcessWithdrawal(s, units, env.found)
      else
        var sent :- SendDec(s, units, env);
        Ok(sent.0)
  }

  /** The work chosen is for a head that is there. */
  lemma WorkHasHead(s: Storage, env: Env)
    ensures var work := GetWork(s, env);
            work.Ok? && work.value.ProcessQueueItem? ==>
              if work.value.id.IncId? then s.incQueue.Head().Some? && work.value.id.id == s.incQueue.HeadId()
              else s.incQueue.Head().None? && s.decQueue.Head().Some? && work.value.id.id == s.decQueue.HeadId()
  {
  }

  function Perform(s: Storage, work: Work, units: Units, env: Env): Result<Storage, CopyError>
    requires work.ProcessQueueItem? ==>
               if work.id.IncId? then s.incQueue.Head().Some? else s.decQueue.Head().Some?
  {
    match work
    case NoWork => Err(NoWorkAvailable)
    case LoadMarket => Ok(s)
    case ResetStats(_) => Ok(s)
    case ComputeLpTokenValue(token) => PriceToken(s, token, env)
    case ProcessQueueItem(id) => ProcessItem(s, id, units, env)
    case HandleDeferredExecId => HandleDeferred(s, env)
    case Rebalance(token, amount) => RunRebalance(s, token, amount, env)
  }

  /** `do_work` */
  function DoWork(s: Storage, units: Units, env: Env): Result<Storage, CopyError> {
    var work :- GetWork(s, env);
    WorkHasHead(s, env);
    Perform(s, work, units, env)
  }

  /** The contract's messages; `MsgInflow` is anyone, a market included, sending it collateral. */
  datatype Message =
    | MsgDeposit(sender: string, funds: nat, token: Token)
    | MsgWithdraw(sender: string, tokens: nat, token: Token)
    | MsgLeader(leader: string, token: Token, action: LeaderAction, collateral: Option<nat>)
    | MsgClaim(requested: nat, token: Token)
    | MsgDoWork
    | MsgInflow(funds: nat, token: Token)

  function Handle(s: Storage, msg: Message, units: Units, env: Env): Result<Storage, CopyError> {
    match msg
    case MsgDeposit(sender, funds, token) => QueueDeposit(s, sender, funds, token, env.found)
    case MsgWithdraw(sender, tokens, token) => QueueWithdrawal(s, sender, tokens, token)
    case MsgLeader(leader, token, action, collateral) =>
      QueueLeaderMessage(s, leader, token, action, collateral, env.found)
    case MsgClaim(requested, token) => WithdrawCommission(s, requested, token, units, env.found)
    case MsgDoWork => DoWork(s, units, env)
    case MsgInflow(funds, token) => Receive(s, token, funds)
  }

  /** One transaction: an error changes nothing. */
  function Step(s: Storage, msg: Message, units: Units, env: Env): Storage {
    var after := Handle(s, msg, units, env);
    if after.Ok? then after.value else s
  }

  type Call = (Message, Env)

  function Run(s: Storage, calls: seq<Call>, units: Units): Storage {
    if calls == [] then s
    else Step(Run(s, calls[..|calls| - 1], units), calls[|calls| - 1].0, units, calls[|calls| - 1].1)
  }
}
