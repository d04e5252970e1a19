/** What each call of the copy-trading contract does to the stored values, said of the values themselves: which item
    it queues or settles, whose shares change, and what the pool, the bank and the leader gain or lose. */
module CopyEffects {
  import opened Wrappers
  import opened Decimals
  import opened Queues
  import opened CopyLedger
  import opened CopyModel
  import opened Tokens
  import opened HighWaterMark
  import CopyInvariant
  import Settlement

  // ----- Changes of the queues and the ledger -----

  /** The queue with one more item, under the id after the last one. */
  ghost predicate Appended<T>(queue: Queue<T>, after: Queue<T>, item: T, wallet: string) {
    var id := if queue.lastInserted.None? then 0 else queue.lastInserted.value + 1;
    after == Queue(queue.items[id := Entry(item, wallet, NotProcessed)], Some(id), queue.lastProcessed)
  }

  /** The id of the first item not settled yet. */
  ghost function First<T>(queue: Queue<T>): nat {
    if queue.lastProcessed.None? then 0 else queue.lastProcessed.value + 1
  }

  /** The first item has this status now; unless that settles it, it stays the first. */
  ghost predicate Marked<T>(queue: Queue<T>, after: Queue<T>, status: ProcessingStatus) {
    var id := First(queue);
    && id in queue.items
    && after == Queue(queue.items[id := Entry(queue.items[id].item, queue.items[id].wallet, status)],
                      queue.lastInserted, if status.InProgress? then queue.lastProcessed else Some(id))
  }

  /** One token's pool gains this much collateral and this many shares, and no other pool changes. */
  ghost predicate PoolGains(s: Storage, after: Storage, token: Token, collateral: int, shares: int) {
    && TotalsAt(after.totals, token).collateral == TotalsAt(s.totals, token).collateral + collateral
    && TotalsAt(after.totals, token).shares == TotalsAt(s.totals, token).shares + shares
    && forall other: Token | other != token :: TotalsAt(after.totals, other) == TotalsAt(s.totals, other)
  }

  ghost predicate BankGains(s: Storage, after: Storage, token: Token, amount: int) {
    && At(after.bank, token) == At(s.bank, token) + amount
    && forall other: Token | other != token :: At(after.bank, other) == At(s.bank, other)
  }

  ghost predicate PendingGains(s: Storage, after: Storage, token: Token, amount: int) {
    && At(after.pending, token) == At(s.pending, token) + amount
    && forall other: Token | other != token :: At(after.pending, other) == At(s.pending, other)
  }

  ghost predicate WalletGains(s: Storage, after: Storage, wallet: Wallet, amount: int) {
    && SharesAt(after.shares, wallet) == SharesAt(s.shares, wallet) + amount
    && forall other: Wallet | other != wallet :: SharesAt(after.shares, other) == SharesAt(s.shares, other)
  }

  // ----- Messages -----

  /** A deposit is accepted exactly for a listed token, some funds, and amounts that stay decimals; its funds arrive
      and pend, and it waits as the sender's. */
  lemma DepositIsQueued(s: Storage, sender: string, funds: nat, token: Token, units: Units, env: Env)
    ensures var r := Handle(s, MsgDeposit(sender, funds, token), units, env);
            && (r.Ok? <==> && env.found && funds > 0 && At(s.bank, token) + funds <= MAX_ATOMS
                           && At(s.pending, token) + funds <= MAX_ATOMS)
            && (r.Ok? ==>
                  && Appended(s.incQueue, r.value.incQueue, Deposit(funds, token), sender)
                  && BankGains(s, r.value, token, funds) && PendingGains(s, r.value, token, funds)
                  && r.value == s.(incQueue := r.value.incQueue, bank := r.value.bank, pending := r.value.pending))
  {
    var r := QueueDeposit(s, sender, funds, token, env.found);
    assert Handle(s, MsgDeposit(sender, funds, token), units, env) == r;
    hide Handle;
    if r.Ok? {
      assert r.value.bank == s.bank[token := At(s.bank, token) + funds];
      assert r.value.pending == s.pending[token := At(s.pending, token) + funds];
    }
  }

  /** A withdrawal is accepted exactly for some shares that the sender holds, and waits as the sender's. */
  lemma WithdrawalIsQueued(s: Storage, sender: string, tokens: nat, token: Token, units: Units, env: Env)
    ensures var r := Handle(s, MsgWithdraw(sender, tokens, token), units, env);
            && (r.Ok? <==> 0 < tokens <= SharesAt(s.shares, Wallet(token, sender)))
            && (r.Ok? ==>
                  && Appended(s.decQueue, r.value.decQueue, Withdrawal(tokens, token), sender)
                  && r.value == s.(decQueue := r.value.decQueue))
  {
    hide DoWork, QueueDeposit, QueueLeaderMessage, WithdrawCommission;
  }

  ghost predicate QueuesDec(s: Storage, after: Storage, leader: string, token: Token, item: DecMarketItem) {
    Appended(s.decQueue, after.decQueue, DecMarket(token, item), leader) && after == s.(decQueue := after.decQueue)
  }

  ghost predicate QueuesInc(s: Storage, after: Storage, leader: string, token: Token, item: IncMarketItem) {
    Appended(s.incQueue, after.incQueue, IncMarket(token, item), leader) && after == s.(incQueue := after.incQueue)
  }

  /** A leader's message is accepted exactly for a listed token, with no collateral or some that the pool holds, and
      with collateral if it is one that spends it; it waits with that collateral in the queue of its kind. */
  lemma LeaderItemIsQueued(s: Storage, leader: string, token: Token, action: LeaderAction, collateral: Option<nat>,
                           units: Units, env: Env)
    ensures var r := Handle(s, MsgLeader(leader, token, action, collateral), units, env);
            && (r.Ok? <==>
                  && env.found && (action.Spend? ==> collateral.Some?)
                  && (collateral.Some? ==> 0 < collateral.value <= TotalsAt(s.totals, token).collateral))
            && (r.Ok? ==>
                  match action
                  case Spend(SpendToOpen) => QueuesDec(s, r.value, leader, token, OpenPosition(collateral.value))
                  case Spend(SpendOnLimitOrder) =>
                    QueuesDec(s, r.value, leader, token, PlaceLimitOrder(collateral.value))
                  case Spend(SpendOnSize) =>
                    QueuesDec(s, r.value, leader, token, AddCollateralImpactSize(collateral.value))
                  case Spend(SpendOnLeverage) =>
                    QueuesDec(s, r.value, leader, token, AddCollateralImpactLeverage(collateral.value))
                  case Update(UpdateLeverageTo) => QueuesDec(s, r.value, leader, token, UpdateLeverage)
                  case Update(UpdateTakeProfitTo) => QueuesDec(s, r.value, leader, token, UpdateTakeProfitPrice)
                  case Update(UpdateStopLossTo) => QueuesDec(s, r.value, leader, token, UpdateStopLossPrice)
                  case Increase(item) => QueuesInc(s, r.value, leader, token, item)
                  case Unsupported => r.value == s)
  {
    hide DoWork, QueueDeposit, QueueWithdrawal, WithdrawCommission;
  }

  /** A claim is accepted exactly for unclaimed commission of at least one token unit that the bank can pay; it pays
      the whole units, and books all of it as claimed. */
  lemma ClaimIsPaid(s: Storage, requested: nat, token: Token, units: Units, env: Env)
    ensures var r := Handle(s, MsgClaim(requested, token), units, env);
            var stats, paid := StatsAt(s.commission, token), requested - requested % units(token);
            && (r.Ok? <==>
                  && env.found && 0 < requested <= stats.unclaimed && stats.claimed + requested <= MAX_ATOMS
                  && units(token) <= requested < (MAX_UNITS + 1) * units(token) && paid <= At(s.bank, token))
            && (r.Ok? ==>
                  && requested <= stats.unclaimed && BankGains(s, r.value, token, -paid)
                  && r.value == s.(bank := r.value.bank,
                                   commission := s.commission[token := CommissionStats(stats.unclaimed - requested,
                                                                                       stats.claimed + requested)]))
  {
    hide DoWork, QueueDeposit, QueueWithdrawal, QueueLeaderMessage;
    TransferKeepsDust(requested, units(token));
  }

  lemma InflowArrives(s: Storage, funds: nat, token: Token, units: Units, env: Env)
    ensures var r := Handle(s, MsgInflow(funds, token), units, env);
            && (r.Ok? <==> At(s.bank, token) + funds <= MAX_ATOMS)
            && (r.Ok? ==> BankGains(s, r.value, token, funds) && r.value == s.(bank := r.value.bank))
  {
    hide DoWork, QueueDeposit, QueueWithdrawal, QueueLeaderMessage, WithdrawCommission;
  }

  // ----- Deposits and withdrawals -----

  /** The head of a queue is its first item. */
  lemma HeadIsFirst<T>(queue: Queue<T>)
    ensures queue.HeadId() == First(queue)
    ensures queue.Head() == if First(queue) in queue.items then Some(queue.items[First(queue)]) else None
  {
  }

  /** What a processed deposit does: the depositor, and nobody else, gets the funds over the price, rounded down;
      the funds leave the pending deposits and join the pool, and the deposit is finished. */
  ghost predicate DepositDone(s: Storage, after: Storage)
    requires First(s.incQueue) in s.incQueue.items && s.incQueue.items[First(s.incQueue)].item.Deposit?
  {
    var entry := s.incQueue.items[First(s.incQueue)];
    var token, funds: int := entry.item.token, entry.item.funds;
    && token in s.prices && s.prices[token].value > 0
    && var minted := DivFloor(funds, s.prices[token].value);
    && minted > 0
    && WalletGains(s, after, Wallet(token, entry.wallet), minted)
    && PoolGains(s, after, token, funds, minted) && PendingGains(s, after, token, -funds)
    && Marked(s.incQueue, after.incQueue, Finished)
    && after == s.(shares := after.shares, totals := after.totals, pending := after.pending,
                   incQueue := after.incQueue)
  }

  lemma ProcessingDeposits(s: Storage, after: Storage)
    requires s.incQueue.Head().Some? && s.incQueue.Head().value.item.Deposit? && ProcessDeposit(s) == Ok(after)
    ensures DepositDone(s, after)
  {
    hide DivFloor;
  }

  /** The work that processes a deposit does that, at a price found for this very item. */
  lemma DepositIsProcessed(s: Storage, units: Units, env: Env, after: Storage)
    requires DoWork(s, units, env) == Ok(after) && GetWork(s, env) == Ok(ProcessQueueItem(IncId(First(s.incQueue))))
    requires First(s.incQueue) in s.incQueue.items && s.incQueue.items[First(s.incQueue)].item.Deposit?
    ensures DepositDone(s, after)
    ensures s.prices[s.incQueue.items[First(s.incQueue)].item.token].status == ValidFor(IncId(First(s.incQueue)))
  {
    HeadIsFirst(s.incQueue);
    hide ProcessDeposit, GetWork;
    assert ProcessDeposit(s) == Ok(after);
    ProcessingDeposits(s, after);
    hide DepositDone;
    IncHeadIsPriced(s, env);
  }

  lemma IncHeadIsPriced(s: Storage, env: Env)
    requires GetWork(s, env) == Ok(ProcessQueueItem(IncId(First(s.incQueue))))
    requires First(s.incQueue) in s.incQueue.items && s.incQueue.items[First(s.incQueue)].item.Deposit?
    ensures var token := s.incQueue.items[First(s.incQueue)].item.token;
            token in s.prices && s.prices[token].status == ValidFor(IncId(First(s.incQueue)))
  {
    HeadIsFirst(s.incQueue);
    assert GetWork(s, env) == IncHeadWork(s, env);
  }

  /** A withdrawal that fails costs nobody anything. */
  ghost predicate WithdrawalFailed(s: Storage, after: Storage, reason: FailedReason) {
    Marked(s.decQueue, after.decQueue, Failed(reason)) && after == s.(decQueue := after.decQueue)
  }

  /** One that is paid costs the requester, and nobody else, the shares, the pool their value, and the bank what is
      moved. */
  ghost predicate WithdrawalPaid(s: Storage, after: Storage, token: Token, wallet: Wallet, burned: int, funds: int,
                                 moved: int)
  {
    && WalletGains(s, after, wallet, -burned) && PoolGains(s, after, token, -funds, -burned)
    && BankGains(s, after, token, -moved)
    && Marked(s.decQueue, after.decQueue, Finished)
    && after == s.(shares := after.shares, totals := after.totals, bank := after.bank, decQueue := after.decQueue)
  }

  /** What a processed withdrawal does: it fails for want of shares, of collateral, or of a whole token unit, in
      that order; else the whole units of their value are paid. */
  ghost predicate WithdrawalDone(s: Storage, after: Storage, units: Units)
    requires First(s.decQueue) in s.decQueue.items && s.decQueue.items[First(s.decQueue)].item.Withdrawal?
  {
    var entry := s.decQueue.items[First(s.decQueue)];
    var token, burned: int, wallet := entry.item.token, entry.item.tokens, Wallet(entry.item.token, entry.wallet);
    if wallet !in s.shares || SharesAt(s.shares, wallet) < burned then WithdrawalFailed(s, after, NotEnoughShares)
    else
      && token in s.prices && token in s.totals
      && var funds: int := MulFloor(s.prices[token].value, burned);
      if TotalsAt(s.totals, token).collateral < funds then WithdrawalFailed(s, after, NotEnoughCollateral)
      else if funds < units(token) then WithdrawalFailed(s, after, FundLessThanMinChain)
      else WithdrawalPaid(s, after, token, wallet, burned, funds, funds - funds % units(token))
  }

  lemma RefusalCostsNothing(s: Storage, after: Storage, reason: FailedReason)
    requires s.decQueue.Head().Some? && after == s.(decQueue := s.decQueue.Settle(Failed(reason)))
    ensures WithdrawalFailed(s, after, reason)
  {
    HeadIsFirst(s.decQueue);
  }

  lemma RedeemingPays(s: Storage, funds: nat, moved: nat, after: Storage)
    requires s.decQueue.Head().Some? && s.decQueue.Head().value.item.Withdrawal?
    requires var entry := s.decQueue.Head().value;
             var token, burned := entry.item.token, entry.item.tokens;
             && burned <= SharesAt(s.shares, Wallet(token, entry.wallet))
             && token in s.totals && funds <= s.totals[token].collateral && burned <= s.totals[token].shares
             && Pay(Redeemed(s, funds), token, moved) == Ok(after)
    ensures var entry := s.decQueue.Head().value;
            WithdrawalPaid(s, after, entry.item.token, Wallet(entry.item.token, entry.wallet), entry.item.tokens, funds,
                           moved)
  {
    HeadIsFirst(s.decQueue);
  }

  lemma ProcessingPays(s: Storage, units: Units, found: bool, after: Storage)
    requires s.decQueue.Head().Some? && s.decQueue.Head().value.item.Withdrawal?
    requires ProcessWithdrawal(s, units, found) == Ok(after)
    ensures WithdrawalDone(s, after, units)
  {
    HeadIsFirst(s.decQueue);
    var entry := s.decQueue.Head().value;
    var token, burned := entry.item.token, entry.item.tokens;
    if WithdrawalPayout(s, units, found).value.Paid? || token in s.prices {
      TransferKeepsDust(MulFloor(s.prices[token].value, burned), units(token));
    }
    hide MulFloor, Transfer, WithdrawalPaid, WithdrawalFailed, Redeemed;
    match WithdrawalPayout(s, units, found).value
    case Refused(reason) => RefusalCostsNothing(s, after, reason);
    case Paid(funds, moved) => RedeemingPays(s, funds, moved, after);
  }

  lemma WithdrawalIsProcessed(s: Storage, units: Units, env: Env, after: Storage)
    requires DoWork(s, units, env) == Ok(after) && GetWork(s, env) == Ok(ProcessQueueItem(DecId(First(s.decQueue))))
    requires First(s.decQueue) in s.decQueue.items && s.decQueue.items[First(s.decQueue)].item.Withdrawal?
    ensures WithdrawalDone(s, after, units)
    ensures var token := s.decQueue.items[First(s.decQueue)].item.token;
            token in s.prices && s.prices[token].status == ValidFor(DecId(First(s.decQueue)))
  {
    HeadIsFirst(s.decQueue);
    hide ProcessWithdrawal, GetWork;
    assert ProcessWithdrawal(s, units, env.found) == Ok(after);
    ProcessingPays(s, units, env.found, after);
    hide WithdrawalDone;
    DecHeadIsPriced(s, env);
  }

  lemma DecHeadIsPriced(s: Storage, env: Env)
    requires GetWork(s, env) == Ok(ProcessQueueItem(DecId(First(s.decQueue))))
    requires First(s.decQueue) in s.decQueue.items && s.decQueue.items[First(s.decQueue)].item.Withdrawal?
    ensures var token := s.decQueue.items[First(s.decQueue)].item.token;
            token in s.prices && s.prices[token].status == ValidFor(DecId(First(s.decQueue)))
  {
    HeadIsFirst(s.decQueue);
    assert GetWork(s, env) == DecHeadWork(s, env);
  }

  // ----- Market items -----

  /** The token's price no longer holds, and no other changes. */
  ghost predicate Outdates(s: Storage, after: Storage, token: Token) {
    && token in s.prices && after.prices == s.prices[token := LpTokenValue(s.prices[token].value, Outdated)]
  }

  /** The message and its reply go through: the bank covers the whole units of the funds, and the market has given an
      id to wait for. */
  ghost predicate GoesThrough(s: Storage, token: Token, funds: nat, units: Units, env: Env) {
    env.answer.Accepted? && funds - funds % units(token) <= At(s.bank, token)
  }

  /** A market item that costs `funds` leaves the decrease queue: short of collateral it settles as failed and costs
      nothing; accepted it is in flight, the pool is down by the funds and the bank by their whole units; rejected it
      settles as failed, and the pool is down by what is not refunded. */
  ghost predicate DecLeaves(s: Storage, after: Storage, dispatch: Dispatch, token: Token, funds: int, spent: int,
                            short: FailedReason, units: Units, env: Env)
    requires funds >= 0
  {
    && token in s.totals && First(s.decQueue) in s.decQueue.items
    && if s.totals[token].collateral < funds then
         dispatch.Short? && Marked(s.decQueue, after.decQueue, Failed(short)) && after == s.(decQueue := after.decQueue)
       else if GoesThrough(s, token, funds, units, env) then
         && s.replyExec.None? && env.answer.id.Some? && dispatch == Sent(env.answer.id.value)
         && PoolGains(s, after, token, -funds, 0) && BankGains(s, after, token, funds % units(token) - funds)
         && Outdates(s, after, token) && Marked(s.decQueue, after.decQueue, InProgress)
         && after == s.(totals := after.totals, bank := after.bank, prices := after.prices, decQueue := after.decQueue,
                        replyExec := env.answer.id)
       else
         && dispatch.RejectedByMarket? && PoolGains(s, after, token, -spent, 0)
         && Outdates(s, after, token) && Marked(s.decQueue, after.decQueue, Failed(MarketError))
         && after == s.(totals := after.totals, prices := after.prices, decQueue := after.decQueue)
  }

  ghost predicate DecLeavesForFee(s: Storage, after: Storage, dispatch: Dispatch, token: Token, units: Units,
                                  env: Env) {
    && env.crankFee.Some?
    && DecLeaves(s, after, dispatch, token, env.crankFee.value, env.crankFee.value, NotEnoughCrankFee, units, env)
  }

  /** Each kind of decrease item, one by one: the four that carry collateral cost exactly that, and get it back if
      they are rejected; the three updates cost the crank fee, which stays spent. */
  ghost predicate DecItemDone(s: Storage, after: Storage, dispatch: Dispatch, item: DecItem, units: Units, env: Env)
    requires item.DecMarket?
  {
    match item.action
    case OpenPosition(c) => DecLeaves(s, after, dispatch, item.token, c, 0, NotEnoughCollateral, units, env)
    case PlaceLimitOrder(c) => DecLeaves(s, after, dispatch, item.token, c, 0, NotEnoughCollateral, units, env)
    case AddCollateralImpactSize(c) => DecLeaves(s, after, dispatch, item.token, c, 0, NotEnoughCollateral, units, env)
    case AddCollateralImpactLeverage(c) =>
      DecLeaves(s, after, dispatch, item.token, c, 0, NotEnoughCollateral, units, env)
    case UpdateLeverage => DecLeavesForFee(s, after, dispatch, item.token, units, env)
    case UpdateTakeProfitPrice => DecLeavesForFee(s, after, dispatch, item.token, units, env)
    case UpdateStopLossPrice => DecLeavesForFee(s, after, dispatch, item.token, units, env)
  }

  lemma DecItemIsSent(s: Storage, units: Units, env: Env, after: Storage, dispatch: Dispatch)
    requires s.decQueue.Head().Some? && s.decQueue.Head().value.item.DecMarket?
    requires SendDec(s, units, env) == Ok((after, dispatch))
    ensures DecItemDone(s, after, dispatch, s.decQueue.Head().value.item, units, env)
  {
    CopyInvariant.SendDecOutcome(s, units, env);
    hide SendDec;
    DecItemLeaves(s, units, env, after, dispatch);
    hide CopyInvariant.DecOutcome, DecLeaves;
  }

  lemma DecItemLeaves(s: Storage, units: Units, env: Env, after: Storage, dispatch: Dispatch)
    requires s.decQueue.Head().Some? && s.decQueue.Head().value.item.DecMarket?
    requires CopyInvariant.DecOutcome(s, units, env, after, dispatch)
    ensures var item := s.decQueue.Head().value.item;
            && DecCost(item.action, env).Ok?
            && var cost := DecCost(item.action, env).value;
            if item.action.CarriesCollateral() then
              DecLeaves(s, after, dispatch, item.token, cost, 0, NotEnoughCollateral, units, env)
            else DecLeaves(s, after, dispatch, item.token, cost, cost, NotEnoughCrankFee, units, env)
  {
    HeadIsFirst(s.decQueue);
    var item := s.decQueue.Head().value.item;
    WholeUnits(DecCost(item.action, env).value, units(item.token));
    hide RoundDown, DecCost;
  }

  /** The same for an item of the increase queue, which is never refunded. */
  ghost predicate IncLeaves(s: Storage, after: Storage, dispatch: Dispatch, token: Token, fee: int, units: Units,
                            env: Env)
    requires fee >= 0
  {
    && First(s.incQueue) in s.incQueue.items
    && if TotalsAt(s.totals, token).collateral < fee then
         && dispatch.Short? && Marked(s.incQueue, after.incQueue, Failed(NotEnoughCrankFee))
         && after == s.(incQueue := after.incQueue)
       else if GoesThrough(s, token, fee, units, env) then
         && s.replyExec.None? && env.answer.id.Some? && dispatch == Sent(env.answer.id.value)
         && PoolGains(s, after, token, -fee, 0) && BankGains(s, after, token, fee % units(token) - fee)
         && Outdates(s, after, token) && Marked(s.incQueue, after.incQueue, InProgress)
         && after == s.(totals := after.totals, bank := after.bank, prices := after.prices, incQueue := after.incQueue,
                        replyExec := env.answer.id)
       else
         && dispatch.RejectedByMarket? && PoolGains(s, after, token, -fee, 0)
         && Outdates(s, after, token) && Marked(s.incQueue, after.incQueue, Failed(MarketError))
         && after == s.(totals := after.totals, prices := after.prices, incQueue := after.incQueue)
  }

  /** Closing a position and cancelling an order are free, and removing collateral costs the crank fee. */
  ghost predicate IncItemDone(s: Storage, after: Storage, dispatch: Dispatch, item: IncItem, units: Units, env: Env)
    requires item.IncMarket?
  {
    match item.action
    case ClosePosition => IncLeaves(s, after, dispatch, item.token, 0, units, env)
    case CancelLimitOrder => IncLeaves(s, after, dispatch, item.token, 0, units, env)
    case RemoveCollateralImpactSize =>
      env.crankFee.Some? && IncLeaves(s, after, dispatch, item.token, env.crankFee.value, units, env)
    case RemoveCollateralImpactLeverage =>
      env.crankFee.Some? && IncLeaves(s, after, dispatch, item.token, env.crankFee.value, units, env)
  }

  lemma IncItemIsSent(s: Storage, units: Units, env: Env, after: Storage, dispatch: Dispatch)
    requires s.incQueue.Head().Some? && s.incQueue.Head().value.item.IncMarket?
    requires SendInc(s, units, env) == Ok((after, dispatch))
    ensures IncItemDone(s, after, dispatch, s.incQueue.Head().value.item, units, env)
  {
    CopyInvariant.SendIncOutcome(s, units, env);
    hide SendInc;
    IncItemLeaves(s, units, env, after, dispatch);
    hide CopyInvariant.IncOutcome, IncLeaves;
  }

  lemma IncItemLeaves(s: Storage, units: Units, env: Env, after: Storage, dispatch: Dispatch)
    requires s.incQueue.Head().Some? && s.incQueue.Head().value.item.IncMarket?
    requires CopyInvariant.IncOutcome(s, units, env, after, dispatch)
    ensures var item := s.incQueue.Head().value.item;
            && IncCost(item.action, env).Ok? && (!item.action.PaysCrankFee() ==> IncCost(item.action, env) == Ok(0))
            && IncLeaves(s, after, dispatch, item.token, IncCost(item.action, env).value, units, env)
  {
    HeadIsFirst(s.incQueue);
    var item := s.incQueue.Head().value.item;
    WholeUnits(IncCost(item.action, env).value, units(item.token));
    hide RoundDown;
  }

  /** A market item that costs `funds` can leave its queue: the cost fits the token, and either the pool is short of
      it, or the token has a price, an accepted message an id that nothing else waits for, and what a rejected one
      gives back fits. */
  ghost predicate CanLeave(s: Storage, token: Token, funds: int, refunded: bool, units: Units, env: Env)
    requires funds >= 0
  {
    && env.found && funds < (MAX_UNITS + 1) * units(token)
    && (|| TotalsAt(s.totals, token).collateral < funds
        || (&& token in s.prices
            && if GoesThrough(s, token, funds, units, env) then env.answer.id.Some? && s.replyExec.None?
               else refunded ==> TotalsAt(s.totals, token).collateral <= MAX_ATOMS))
  }

  ghost predicate CanLeaveForFee(s: Storage, token: Token, units: Units, env: Env) {
    env.crankFee.Some? && CanLeave(s, token, env.crankFee.value, false, units, env)
  }

  /** Exactly when a decrease item is sent, item by item; every one needs the token's totals. */
  lemma DecItemCanLeave(s: Storage, units: Units, env: Env)
    requires s.decQueue.Head().Some? && s.decQueue.Head().value.item.DecMarket?
    ensures var token := s.decQueue.Head().value.item.token;
            SendDec(s, units, env).Ok? <==>
              && token in s.totals
              && match s.decQueue.Head().value.item.action
                 case OpenPosition(c) => CanLeave(s, token, c, true, units, env)
                 case PlaceLimitOrder(c) => CanLeave(s, token, c, true, units, env)
                 case AddCollateralImpactSize(c) => CanLeave(s, token, c, true, units, env)
                 case AddCollateralImpactLeverage(c) => CanLeave(s, token, c, true, units, env)
                 case UpdateLeverage => CanLeaveForFee(s, token, units, env)
                 case UpdateTakeProfitPrice => CanLeaveForFee(s, token, units, env)
                 case UpdateStopLossPrice => CanLeaveForFee(s, token, units, env)
  {
    DecSendsIf(s, units, env);
    hide SendDec, CanLeave;
  }

  lemma DecSendsIf(s: Storage, units: Units, env: Env)
    requires s.decQueue.Head().Some? && s.decQueue.Head().value.item.DecMarket?
    ensures var item := s.decQueue.Head().value.item;
            SendDec(s, units, env).Ok? <==>
              && item.token in s.totals
              && (if DecCost(item.action, env).Ok? then
                    CanLeave(s, item.token, DecCost(item.action, env).value, item.action.CarriesCollateral(), units,
                             env)
                  else false)
  {
    var item := s.decQueue.Head().value.item;
    if DecCost(item.action, env).Ok? {
      TransferKeepsDust(DecCost(item.action, env).value, units(item.token));
      WholeUnits(DecCost(item.action, env).value, units(item.token));
      hide RoundDown, Transfer, DecCost;
    }
  }

  /** Exactly when an increase item is sent; only one that pays a fee needs the token's totals. */
  lemma IncItemCanLeave(s: Storage, units: Units, env: Env)
    requires s.incQueue.Head().Some? && s.incQueue.Head().value.item.IncMarket?
    ensures var token := s.incQueue.Head().value.item.token;
            SendInc(s, units, env).Ok? <==>
              match s.incQueue.Head().value.item.action
              case ClosePosition => CanLeave(s, token, 0, false, units, env)
              case CancelLimitOrder => CanLeave(s, token, 0, false, units, env)
              case RemoveCollateralImpactSize => token in s.totals && CanLeaveForFee(s, token, units, env)
              case RemoveCollateralImpactLeverage => token in s.totals && CanLeaveForFee(s, token, units, env)
  {
    IncSendsIf(s, units, env);
    hide SendInc, CanLeave;
  }

  lemma IncSendsIf(s: Storage, units: Units, env: Env)
    requires s.incQueue.Head().Some? && s.incQueue.Head().value.item.IncMarket?
    ensures var item := s.incQueue.Head().value.item;
            SendInc(s, units, env).Ok? <==>
              && (item.action.PaysCrankFee() ==> item.token in s.totals)
              && (if IncCost(item.action, env).Ok? then
                    CanLeave(s, item.token, IncCost(item.action, env).value, false, units, env)
                  else false)
  {
    var item := s.incQueue.Head().value.item;
    if IncCost(item.action, env).Ok? {
      TransferKeepsDust(IncCost(item.action, env).value, units(item.token));
      WholeUnits(IncCost(item.action, env).value, units(item.token));
      hide RoundDown, Transfer;
    }
  }

  // ----- Deferred executions -----

  /** The execution that was awaited has succeeded or failed, and the first waiting item, of the increase queue if it
      has one, settles accordingly; nothing is awaited any more. */
  ghost predicate DeferredDone(s: Storage, after: Storage, env: Env) {
    var status := if env.exec.Success? then Finished else Failed(DeferredExecFailure);
    && s.replyExec.Some? && env.found && (env.exec.Success? || env.exec.Failure?)
    && if First(s.incQueue) in s.incQueue.items then
         Marked(s.incQueue, after.incQueue, status) && after == s.(incQueue := after.incQueue, replyExec := None)
       else
         Marked(s.decQueue, after.decQueue, status) && after == s.(decQueue := after.decQueue, replyExec := None)
  }

  lemma DeferredIsHandled(s: Storage, env: Env, after: Storage)
    requires HandleDeferred(s, env) == Ok(after)
    ensures DeferredDone(s, after, env)
  {
    HeadIsFirst(s.incQueue);
    HeadIsFirst(s.decQueue);
    CopyInvariant.DeferredSettles(s, env, after);
  }

  /** Exactly when it can be handled: it is awaited by a market item in progress where the contract looks first, and it
      has ended. */
  lemma DeferredCanEnd(s: Storage, env: Env)
    ensures HandleDeferred(s, env).Ok? <==>
              && s.replyExec.Some? && env.found && (env.exec.Success? || env.exec.Failure?)
              && if First(s.incQueue) in s.incQueue.items then
                   var entry := s.incQueue.items[First(s.incQueue)];
                   entry.status.InProgress? && entry.item.IncMarket?
                 else
                   && First(s.decQueue) in s.decQueue.items
                   && var entry := s.decQueue.items[First(s.decQueue)];
                   entry.status.InProgress? && entry.item.DecMarket?
  {
    HeadIsFirst(s.incQueue);
    HeadIsFirst(s.decQueue);
  }

  // ----- Pricing -----

  /** The first item to be worked on. */
  ghost function Current(s: Storage): QueueId {
    if First(s.incQueue) in s.incQueue.items then IncId(First(s.incQueue)) else DecId(First(s.decQueue))
  }

  /** Shares are worth the pool with what is active in the markets, rounded down; or one, while there is nothing to
      divide. */
  ghost predicate Values(value: nat, total: nat, shares: nat) {
    if total == 0 || shares == 0 then value == ONE else value * shares <= total * ONE < (value + 1) * shares
  }

  /** A token never priced gets the value one; else a scan that is done values it, one that is cut is to be resumed,
      and one that found a change leaves no value. The value holds for the first item to be worked on. */
  ghost predicate PricingDone(s: Storage, after: Storage, token: Token, env: Env) {
    && (First(s.incQueue) in s.incQueue.items || First(s.decQueue) in s.decQueue.items)
    && if token !in s.prices then after == s.(prices := s.prices[token := LpTokenValue(ONE, ValidFor(Current(s)))])
       else if s.prices[token].status == ValidFor(Current(s)) then after == s
       else
         match env.scan
         case Cut => after == s.(batch := BatchLpTokenValue(token))
         case Changed => after == s.(batch := NoBatch)
         case Done(active) =>
           && token in after.prices
           && Values(after.prices[token].value, TotalsAt(s.totals, token).collateral + active,
                     TotalsAt(s.totals, token).shares)
           && after == s.(batch := NoBatch,
                          prices := s.prices[token := LpTokenValue(after.prices[token].value, ValidFor(Current(s)))])
  }

  lemma TokenIsPriced(s: Storage, token: Token, env: Env, after: Storage)
    requires PriceToken(s, token, env) == Ok(after)
    ensures PricingDone(s, after, token, env)
  {
    HeadIsFirst(s.incQueue);
    HeadIsFirst(s.decQueue);
    if env.scan.Done? && TotalsAt(s.totals, token).shares > 0 {
      var total, shares := TotalsAt(s.totals, token).collateral + env.scan.active, TotalsAt(s.totals, token).shares;
      FloorDivBounds(total * ONE, shares);
    }
    hide FloorDiv;
  }

  /** Exactly when a token can be priced: something waits for it, and if the scan is done the value is a decimal. */
  lemma TokenCanBePriced(s: Storage, token: Token, env: Env)
    ensures PriceToken(s, token, env).Ok? <==>
              && (First(s.incQueue) in s.incQueue.items || First(s.decQueue) in s.decQueue.items)
              && (token in s.prices && s.prices[token].status != ValidFor(Current(s)) && env.scan.Done? ==>
                    var total, shares := TotalsAt(s.totals, token).collateral + env.scan.active,
                                         TotalsAt(s.totals, token).shares;
                    total <= MAX_ATOMS && (total == 0 || shares == 0 || DivFloor(total, shares) <= MAX_ATOMS))
  {
    HeadIsFirst(s.incQueue);
    HeadIsFirst(s.decQueue);
    hide DivFloor;
  }

  // ----- Rebalancing -----

  /** Each market's cursor is where the settlement left it, and no other has moved. */
  ghost predicate CursorsAt(before: map<MarketId, nat>, after: map<MarketId, nat>, markets: seq<MarketId>, to: seq<nat>)
    requires |markets| == |to|
  {
    && (forall i | 0 <= i < |markets| :: CursorAt(after, markets[i]) == to[i])
    && forall market: MarketId | market !in markets :: CursorAt(after, market) == CursorAt(before, market)
  }

  lemma {:induction false} CursorsAreSaved(cursors: map<MarketId, nat>, markets: seq<MarketId>, to: seq<nat>)
    requires |markets| == |to| && Distinct(markets)
    ensures CursorsAt(cursors, SaveCursors(cursors, markets, to), markets, to)
    decreases |markets|
  {
    if markets != [] {
      var moved := cursors[markets[0] := to[0]];
      CursorsAreSaved(moved, markets[1..], to[1..]);
      var after := SaveCursors(moved, markets[1..], to[1..]);
      assert markets[0] !in markets[1..];
      assert CursorAt(after, markets[0]) == to[0];
      forall i | 0 < i < |markets|
        ensures CursorAt(after, markets[i]) == to[i]
      {
        assert markets[i] == markets[1..][i - 1] && to[i] == to[1..][i - 1];
      }
      forall market: MarketId | market !in markets
        ensures CursorAt(after, market) == CursorAt(cursors, market)
      {
        assert market !in markets[1..];
      }
    }
  }

  /** What a rebalance leaves that has moved the cursors `to` and settled `settled` of collateral: an uncut one
      credits what it was asked for if that is more, and ends the batch; a cut one records what it still asks for,
      or leaves the old record if nothing, or next to nothing, is left to ask for. */
  ghost predicate RebalanceDone(s: Storage, after: Storage, token: Token, requested: int, env: Env, to: seq<nat>,
                                settled: int, cut: bool)
    requires requested >= 0
  {
    var pool, now := TotalsAt(s.totals, token), TotalsAt(after.totals, token);
    var stats, booked := StatsAt(s.commission, token), StatsAt(after.commission, token);
    && |env.closings.markets| == |to| && CursorsAt(s.cursors, after.cursors, env.closings.markets, to)
    && now.collateral + booked.unclaimed
       == pool.collateral + stats.unclaimed + (if cut || settled >= requested then settled else requested)
    && pool.collateral <= now.collateral && stats.unclaimed <= booked.unclaimed
    && now.shares == pool.shares && booked.claimed == stats.claimed
    && after == s.(totals := s.totals[token := now], commission := s.commission[token := booked],
                   marks := s.marks[token := MarkAt(after.marks, token)], cursors := after.cursors,
                   batch := after.batch)
    && after.batch == if !cut then NoBatch
                      else if settled == 0 then BatchRebalance(token, requested)
                      else if settled > requested - 100_000_000_000 then s.batch
                      else BatchRebalance(token, requested - settled)
  }

  /** The collateral settled is that of the closed positions between the old cursors and the new; the commission
      and the mark continue any history that led to the mark there was. */
  lemma RebalanceIsBooked(s: Storage, token: Token, requested: nat, env: Env, after: Storage, history: seq<Charge>)
    returns (ends: seq<nat>, cut: bool)
    requires RunRebalance(s, token, requested, env) == Ok(after)
    requires AssessAll(history).Ok? && AssessAll(history).value.mark == MarkAt(s.marks, token)
    ensures Settlement.CursorsWithin(env.closings.histories, LoadCursors(s.cursors, env.closings.markets), ends)
    ensures var from := LoadCursors(s.cursors, env.closings.markets);
            var closed := Settlement.Between(env.closings.histories, from, ends);
            var continued := AssessAll(history + Settlement.Charges(closed, env.closings.limits.rate));
            && RebalanceDone(s, after, token, requested, env, ends, Settlement.SumActive(closed), cut)
            && continued.Ok? && MarkAt(after.marks, token) == continued.value.mark
            && StatsAt(after.commission, token).unclaimed - StatsAt(s.commission, token).unclaimed
               == continued.value.commission - AssessAll(history).value.commission
  {
    var settled := Settled(s, token, requested, env).value;
    ends, cut := settled.cursors, settled.early;
    hide Settled, CursorsAt, RebalanceDone, Assess;
    CopyInvariant.RebalanceMoves(s, token, requested, env);
    Settlement.SettlementSplits(OpenBook(s, token), settled.closed, env.closings.limits.rate);
    Settlement.CommissionFollowsMark(OpenBook(s, token), history, settled.closed, env.closings.limits.rate);
    BookedIs(s, token, requested, env, settled, after);
  }

  /** What is booked once the closed positions are settled. */
  lemma BookedIs(s: Storage, token: Token, requested: nat, env: Env, settled: Settlement.Settled, after: Storage)
    requires |env.closings.markets| == |settled.cursors| && Distinct(env.closings.markets)
    requires Rebalanced(s, token, requested, env, settled) == Ok(after)
    requires settled.book.collateral + settled.book.unclaimed
             == TotalsAt(s.totals, token).collateral + StatsAt(s.commission, token).unclaimed + settled.book.check
    requires TotalsAt(s.totals, token).collateral <= settled.book.collateral
    requires StatsAt(s.commission, token).unclaimed <= settled.book.unclaimed
    ensures RebalanceDone(s, after, token, requested, env, settled.cursors, settled.book.check, settled.early)
    ensures MarkAt(after.marks, token) == settled.book.mark
    ensures StatsAt(after.commission, token).unclaimed == settled.book.unclaimed
  {
    CursorsAreSaved(s.cursors, env.closings.markets, settled.cursors);
    hide CursorsAt, SaveCursors;
  }

  // ----- Which work is chosen -----

  /** The first item waiting, the token it is about, whether it needs a price, and whether it is in progress. */
  datatype Waiting = Waiting(id: QueueId, token: Token, needsPrice: bool, inProgress: bool)

  ghost function FirstWaiting(s: Storage): Option<Waiting> {
    var inc, dec := First(s.incQueue), First(s.decQueue);
    if inc in s.incQueue.items then
      var entry := s.incQueue.items[inc];
      Some(Waiting(IncId(inc), entry.item.token, entry.item.Deposit?, entry.status.InProgress?))
    else if dec in s.decQueue.items then
      var entry := s.decQueue.items[dec];
      Some(Waiting(DecId(dec), entry.item.token, entry.item.Withdrawal?, entry.status.InProgress?))
    else None
  }

  /** The ledger explains the bank's balance, to 0.00001. */
  ghost predicate Balanced(s: Storage, token: Token) {
    -10_000_000_000_000 <= Surplus(s, token) <= 10_000_000_000_000
  }

  /** A token whose ledger explains the balance is valued, after its statistics are reset if they are stale; one with
      a surplus is rebalanced by exactly that; one with a deficit is stuck. */
  lemma BalanceIsChecked(s: Storage, token: Token, env: Env)
    ensures var work := CheckBalanceWork(s, token, env);
            && (work.Ok? <==> && env.found && Booked(s, token) <= MAX_ATOMS
                              && (Balanced(s, token) || 0 < Surplus(s, token) <= MAX_ATOMS))
            && (work.Ok? && Balanced(s, token) ==>
                  work.value == if env.statsStale then ResetStats(token) else ComputeLpTokenValue(token))
            && (work.Ok? && !Balanced(s, token) ==> work.value == Rebalance(token, Surplus(s, token)))
  {
  }

  /** What is done for the first item waiting. One that is not in flight, and has a price of its own if it needs one,
      is processed; one in flight waits for its execution to end; one that needs a price has the token's statistics
      reset, or the balance checked, but not while an action is in flight. */
  ghost predicate Serves(s: Storage, env: Env, first: Waiting, work: Result<Work, CopyError>) {
    var awaited := first.inProgress && s.replyExec.Some?;
    var known := first.token in s.prices;
    var priced := known && s.prices[first.token].status == ValidFor(first.id);
    if !first.needsPrice || priced then
      && (work == Ok(ProcessQueueItem(first.id)) <==> !awaited)
      && (work == Ok(HandleDeferredExecId) <==>
            awaited && !first.needsPrice && env.found && (env.exec.Success? || env.exec.Failure?))
      && (work == Ok(NoWork) <==> awaited && !first.needsPrice && env.found && env.exec.Pending?)
      && (work.Ok? ==> work.value in {ProcessQueueItem(first.id), HandleDeferredExecId, NoWork})
    else if known && s.replyExec.Some? then work.Err?
    else if known && env.resetRequired then work == Ok(ResetStats(first.token))
    else work == CheckBalanceWork(s, first.token, env)
  }

  /** A batch in progress goes on before anything else, then the market list is loaded, then the first item waiting is
      served, of the increase queue if it has one. */
  lemma WorkIsChosen(s: Storage, env: Env)
    ensures var work := GetWork(s, env);
            match s.batch
            case BatchRebalance(token, balance) => work == Ok(Rebalance(token, balance))
            case BatchLpTokenValue(token) => work == Ok(ComputeLpTokenValue(token))
            case NoBatch =>
              if env.loaderDue then work == Ok(LoadMarket)
              else if FirstWaiting(s).None? then work == Ok(NoWork)
              else Serves(s, env, FirstWaiting(s).value, work)
  {
    HeadIsFirst(s.incQueue);
    HeadIsFirst(s.decQueue);
    if s.batch.NoBatch? && !env.loaderDue && FirstWaiting(s).Some? {
      var first := FirstWaiting(s).value;
      var status := if First(s.incQueue) in s.incQueue.items then s.incQueue.items[First(s.incQueue)].status
                    else s.decQueue.items[First(s.decQueue)].status;
      var priced := if first.needsPrice then Some(first.token) else None;
      assert GetWork(s, env) == HeadWork(s, first.id, priced, status, env);
      HeadIsServed(s, env, first, status);
    }
  }

  lemma HeadIsServed(s: Storage, env: Env, first: Waiting, status: ProcessingStatus)
    requires first.inProgress == status.InProgress?
    ensures Serves(s, env, first, HeadWork(s, first.id, if first.needsPrice then Some(first.token) else None, status,
                                           env))
  {
    hide CheckBalanceWork;
  }

  // ----- A unit of work -----

  /** What a unit of work does, whatever it is. */
  ghost predicate WorkDone(s: Storage, after: Storage, work: Work, units: Units, env: Env) {
    match work
    case NoWork => false
    case LoadMarket => after == s
    case ResetStats(_) => after == s
    case ComputeLpTokenValue(token) => PricingDone(s, after, token, env)
    case HandleDeferredExecId => DeferredDone(s, after, env)
    case ProcessQueueItem(IncId(id)) =>
      && id == First(s.incQueue) && id in s.incQueue.items
      && if s.incQueue.items[id].item.Deposit? then DepositDone(s, after)
         else exists dispatch :: IncItemDone(s, after, dispatch, s.incQueue.items[id].item, units, env)
    case ProcessQueueItem(DecId(id)) =>
      && id == First(s.decQueue) && id in s.decQueue.items
      && if s.decQueue.items[id].item.Withdrawal? then WithdrawalDone(s, after, units)
         else exists dispatch :: DecItemDone(s, after, dispatch, s.decQueue.items[id].item, units, env)
    case Rebalance(token, amount) =>
      exists to, settled: nat, cut :: RebalanceDone(s, after, token, amount, env, to, settled, cut)
  }

  lemma WorkIsDone(s: Storage, t: CopyInvariant.Trace, units: Units, env: Env, after: Storage)
    requires CopyInvariant.Invariant(s, t) && DoWork(s, units, env) == Ok(after)
    ensures GetWork(s, env).Ok? && WorkDone(s, after, GetWork(s, env).value, units, env)
  {
    HeadIsFirst(s.incQueue);
    HeadIsFirst(s.decQueue);
    WorkHasHead(s, env);
    hide GetWork, PriceToken, HandleDeferred, ProcessDeposit, SendInc, SendDec, ProcessWithdrawal, RunRebalance;
    hide PricingDone, DeferredDone, DepositDone, IncItemDone, DecItemDone, WithdrawalDone, RebalanceDone;
    match GetWork(s, env).value
    case ComputeLpTokenValue(token) => TokenIsPriced(s, token, env, after);
    case HandleDeferredExecId => DeferredIsHandled(s, env, after);
    case ProcessQueueItem(IncId(id)) =>
      if s.incQueue.Head().value.item.Deposit? {
        ProcessingDeposits(s, after);
      } else {
        IncItemIsSent(s, units, env, after, SendInc(s, units, env).value.1);
      }
    case ProcessQueueItem(DecId(id)) =>
      if s.decQueue.Head().value.item.Withdrawal? {
        ProcessingPays(s, units, env.found, after);
      } else {
        DecItemIsSent(s, units, env, after, SendDec(s, units, env).value.1);
      }
    case Rebalance(token, amount) =>
      assert CopyInvariant.Settlements(s, t) && AccountedIn(s.commission, s.marks, t.charges, token);
      var ends, cut := RebalanceIsBooked(s, token, amount, env, after, ChargesAt(t.charges, token));
    case _ =>
  }
}
