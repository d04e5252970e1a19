/** The copy-trading contract in place: its storage is fields that each handler updates, and a failed call
    restores them. Every method computes the function of the storage that specifies it. */
module CopyTrading {
  import opened Wrappers
  import opened Decimals
  import opened Queues
  import opened CopyLedger
  import opened CopyModel
  import opened CopyInvariant
  import opened CopyRuns
  import opened Tokens
  import opened HighWaterMark
  import LpValue
  import Settlement

  class Contract {
    const units: Units
    var incQueue: Queue<IncItem>
    var decQueue: Queue<DecItem>
    var totals: map<Token, Totals>
    var pending: map<Token, nat>
    var shares: map<Wallet, nat>
    var prices: map<Token, LpTokenValue>
    var commission: map<Token, CommissionStats>
    var marks: map<Token, Mark>
    var cursors: map<MarketId, nat>
    var replyExec: Option<nat>
    var batch: BatchWork
    var bank: map<Token, nat>
    ghost var trace: Trace

    function Snapshot(): Storage
      reads this
    {
      Storage(incQueue, decQueue, totals, pending, shares, prices, commission, marks, cursors, replyExec, batch, bank)
    }

    ghost predicate Valid()
      reads this
    {
      Invariant(Snapshot(), trace)
    }

    constructor (units: Units)
      ensures Snapshot() == Initial() && trace == NO_TRACE && this.units == units && Valid()
    {
      this.units := units;
      incQueue, decQueue := Empty(), Empty();
      totals, pending, shares, prices, commission := map[], map[], map[], map[], map[];
      marks, cursors, replyExec, batch, bank := map[], map[], None, NoBatch, map[];
      trace := NO_TRACE;
      InitialInvariant();
    }

    // ----- Messages that queue or move funds -----

    method Receive(token: Token, funds: nat) returns (r: Result<(), CopyError>)
      modifies `bank
      ensures r.Ok? <==> CopyModel.Receive(old(Snapshot()), token, funds).Ok?
      ensures r.Ok? ==> CopyModel.Receive(old(Snapshot()), token, funds) == Ok(Snapshot())
    {
      var balance :- Lift(CheckedAdd(At(bank, token), funds));
      bank := bank[token := balance];
      r := Ok(());
    }

    /** `deposit`: the item is queued before the pending amount is added to. */
    method QueueDeposit(sender: string, funds: nat, token: Token, found: bool) returns (r: Result<(), CopyError>)
      modifies `incQueue, `pending, `bank
      ensures r.Ok? <==> CopyModel.QueueDeposit(old(Snapshot()), sender, funds, token, found).Ok?
      ensures r.Ok? ==> CopyModel.QueueDeposit(old(Snapshot()), sender, funds, token, found) == Ok(Snapshot())
    {
      var _ :- Receive(token, funds);
      if !found {
        return Err(MarketNotFound);
      }
      if funds == 0 {
        return Err(ZeroAmount);
      }
      incQueue := incQueue.Push(Deposit(funds, token), sender);
      var sum :- Lift(CheckedAdd(At(pending, token), funds));
      pending := pending[token := sum];
      r := Ok(());
    }

    /** `withdraw`, for shares the wallet holds now. */
    method QueueWithdrawal(sender: string, tokens: nat, token: Token) returns (r: Result<(), CopyError>)
      modifies `decQueue
      ensures r.Ok? <==> CopyModel.QueueWithdrawal(old(Snapshot()), sender, tokens, token).Ok?
      ensures r.Ok? ==> CopyModel.QueueWithdrawal(old(Snapshot()), sender, tokens, token) == Ok(Snapshot())
    {
      var wallet := Wallet(token, sender);
      if tokens == 0 {
        return Err(ZeroAmount);
      }
      if wallet !in shares || tokens > shares[wallet] {
        return Err(InsufficientShares);
      }
      decQueue := decQueue.Push(Withdrawal(tokens, token), sender);
      r := Ok(());
    }

    /** `execute_leader_msg`, queued by what the message does to the collateral. */
    method QueueLeaderMessage(leader: string, token: Token, action: LeaderAction, collateral: Option<nat>, found: bool)
      returns (r: Result<(), CopyError>)
      modifies `incQueue, `decQueue
      ensures r.Ok? <==>
        CopyModel.QueueLeaderMessage(old(Snapshot()), leader, token, action, collateral, found).Ok?
      ensures r.Ok? ==>
        CopyModel.QueueLeaderMessage(old(Snapshot()), leader, token, action, collateral, found) == Ok(Snapshot())
    {
      if collateral == Some(0) {
        return Err(ZeroAmount);
      }
      if !found {
        return Err(MarketNotFound);
      }
      if collateral.Some? && collateral.value > TotalsAt(totals, token).collateral {
        return Err(InsufficientCollateral);
      }
      var queued :- LeaderItem(action, collateral);
      match queued {
        case QueueInc(item) =>
          incQueue := incQueue.Push(IncMarket(token, item), leader);
        case QueueDec(item) =>
          decQueue := decQueue.Push(DecMarket(token, item), leader);
        case QueueNothing =>
      }
      r := Ok(());
    }

    /** The bank pays out of the contract's balance. */
    method Pay(token: Token, moved: nat) returns (r: Result<(), CopyError>)
      modifies `bank
      ensures r.Ok? <==> CopyModel.Pay(old(Snapshot()), token, moved).Ok?
      ensures r.Ok? ==> CopyModel.Pay(old(Snapshot()), token, moved) == Ok(Snapshot())
    {
      if moved > At(bank, token) {
        return Err(BankRefused);
      }
      bank := bank[token := At(bank, token) - moved];
      r := Ok(());
    }

    /** `leader_withdrawal`: pays out unclaimed commission, all but what the token cannot represent. */
    method WithdrawCommission(requested: nat, token: Token, found: bool) returns (r: Result<(), CopyError>)
      modifies `commission, `bank
      ensures r.Ok? <==> CopyModel.WithdrawCommission(old(Snapshot()), requested, token, units, found).Ok?
      ensures r.Ok? ==>
        CopyModel.WithdrawCommission(old(Snapshot()), requested, token, units, found) == Ok(Snapshot())
    {
      var stats := StatsAt(commission, token);
      if requested == 0 {
        return Err(ZeroAmount);
      }
      if !found {
        return Err(MarketNotFound);
      }
      if stats.unclaimed < requested {
        return Err(InsufficientCollateral);
      }
      var claimed :- Lift(CheckedAdd(stats.claimed, requested));
      commission := commission[token := CommissionStats(stats.unclaimed - requested, claimed)];
      var moved :- Lift(Transfer(requested, units(token)));
      if moved.None? {
        return Err(BelowTokenPrecision);
      }
      r := Pay(token, moved.value);
    }

    // ----- Pricing -----

    /** The end of this call's part of the scan: the token is revalued, or the scan is to go on or start over. */
    method EndScan(token: Token, now: LpStatus, env: Env) returns (r: Result<(), CopyError>)
      requires token in prices && prices[token].status != now
      modifies `prices, `batch
      ensures r.Ok? <==> Reprice(old(Snapshot()), token, now, env).Ok?
      ensures r.Ok? ==>
        var value := Reprice(old(Snapshot()), token, now, env).value;
        && batch == ScanBatch(old(Snapshot()), token, now, env)
        && prices == if value.Some? then old(prices)[token := LpTokenValue(value.value, now)] else old(prices)
    {
      match env.scan {
        case Cut =>
          batch := BatchLpTokenValue(token);
        case Changed =>
          batch := NoBatch;
        case Done(active) =>
          batch := NoBatch;
          var total :- Lift(CheckedAdd(TotalsAt(totals, token).collateral, active));
          var value :- LiftPrice(LpValue.Valuation(total, TotalsAt(totals, token).shares));
          prices := prices[token := LpTokenValue(value, now)];
      }
      r := Ok(());
    }

    /** `compute_lp_token_value`, with the scan of the token's markets done by the chain. */
    method PriceToken(token: Token, env: Env) returns (r: Result<(), CopyError>)
      modifies `prices, `batch
      ensures r.Ok? <==> CopyModel.PriceToken(old(Snapshot()), token, env).Ok?
      ensures r.Ok? ==> CopyModel.PriceToken(old(Snapshot()), token, env) == Ok(Snapshot())
    {
      hide CurrentElement;
      var current := CurrentElement(Snapshot());
      if current.None? {
        return Err(NoQueueItem);
      }
      var now := ValidFor(current.value);
      if token !in prices {
        prices := prices[token := LpTokenValue(ONE, now)];
        return Ok(());
      }
      if prices[token].status == now {
        return Ok(());
      }
      r := EndScan(token, now, env);
    }

    // ----- Deposits and withdrawals -----

    /** A deposit is processed amount by amount; the first that does not fit reverts them all. */
    method ProcessDeposit() returns (r: Result<(), CopyError>)
      requires incQueue.Head().Some? && incQueue.Head().value.item.Deposit?
      modifies `incQueue, `totals, `pending, `shares
      ensures r.Ok? <==> CopyModel.ProcessDeposit(old(Snapshot())).Ok?
      ensures r.Ok? ==> CopyModel.ProcessDeposit(old(Snapshot())) == Ok(Snapshot())
    {
      var entry := incQueue.Head().value;
      var token, funds, wallet := entry.item.token, entry.item.funds, Wallet(entry.item.token, entry.wallet);
      if token !in prices {
        return Err(StoreEmpty);
      }
      var minted :- LiftPrice(LpValue.CollateralToShares(prices[token].value, funds));
      var collateral :- Lift(CheckedAdd(TotalsAt(totals, token).collateral, funds));
      var allShares :- Lift(CheckedAdd(TotalsAt(totals, token).shares, minted));
      totals := totals[token := Totals(collateral, allShares)];
      var left :- Lift(CheckedSub(At(pending, token), funds));
      pending := pending[token := left];
      var held :- Lift(CheckedAdd(SharesAt(shares, wallet), minted));
      shares := shares[wallet := held];
      incQueue := incQueue.Settle(Finished);
      r := Ok(());
    }

    /** A withdrawal fails for want of shares, collateral or a whole token unit, or is paid. */
    method ProcessWithdrawal(found: bool) returns (r: Result<(), CopyError>)
      requires decQueue.Head().Some? && decQueue.Head().value.item.Withdrawal?
      modifies `decQueue, `totals, `shares, `bank
      ensures r.Ok? <==> CopyModel.ProcessWithdrawal(old(Snapshot()), units, found).Ok?
      ensures r.Ok? ==> CopyModel.ProcessWithdrawal(old(Snapshot()), units, found) == Ok(Snapshot())
    {
      var entry := decQueue.Head().value;
      var token, burned, wallet := entry.item.token, entry.item.tokens, Wallet(entry.item.token, entry.wallet);
      if wallet !in shares || burned > shares[wallet] {
        decQueue := decQueue.Settle(Failed(NotEnoughShares));
        return Ok(());
      }
      if token !in prices {
        return Err(StoreEmpty);
      }
      var funds :- LiftPrice(LpValue.SharesToCollateral(prices[token].value, burned));
      if !found {
        return Err(MarketNotFound);
      }
      var moved :- Lift(Transfer(funds, units(token)));
      if token !in totals {
        return Err(StoreEmpty);
      }
      if funds > totals[token].collateral {
        decQueue := decQueue.Settle(Failed(NotEnoughCollateral));
        return Ok(());
      }
      if moved.None? {
        decQueue := decQueue.Settle(Failed(FundLessThanMinChain));
        return Ok(());
      }
      var sharesLeft :- Lift(CheckedSub(totals[token].shares, burned));
      shares := if burned == shares[wallet] then shares - {wallet} else shares[wallet := shares[wallet] - burned];
      totals := totals[token := Totals(totals[token].collateral - funds, sharesLeft)];
      decQueue := decQueue.Settle(Finished);
      r := Pay(token, moved.value);
    }

    // ----- Market items -----

    /** `handle_sucess`: the reply of an accepted market message. */
    method ReplySuccess(id: Option<nat>) returns (r: Result<(), CopyError>)
      modifies `replyExec
      ensures r.Ok? <==> id.Some? && old(replyExec).None?
      ensures r.Ok? ==> replyExec == id
    {
      if id.None? {
        return Err(ReplyWithoutExecId);
      }
      if replyExec.Some? {
        return Err(DeferredExecAlreadySet);
      }
      replyExec := id;
      r := Ok(());
    }

    /** The message takes its funds from the bank, and its reply records the deferred execution. */
    method Submit(token: Token, cost: nat, answer: MarketAnswer) returns (r: Result<Option<nat>, CopyError>)
      modifies `bank, `replyExec
      ensures r.Ok? <==> CopyModel.Submit(old(Snapshot()), token, cost, units, answer).Ok?
      ensures r.Ok? ==>
        CopyModel.Submit(old(Snapshot()), token, cost, units, answer)
        == Result<(Storage, Option<nat>), CopyError>.Ok((Snapshot(), r.value))
    {
      if answer.Rejected? || !BankCovers(Snapshot(), token, cost, units) {
        return Ok(None);
      }
      bank := bank[token := At(bank, token) - RoundDown(cost, units(token))];
      var _ :- ReplySuccess(answer.id);
      r := Ok(answer.id);
    }

    /** `process_dec_queue` and `process_dec_crank_queue` */
    method StartDec(token: Token, cost: nat, reason: FailedReason) returns (r: Result<bool, CopyError>)
      requires decQueue.Head().Some?
      modifies `decQueue, `totals, `prices
      ensures r.Ok? <==> CopyModel.StartDec(old(Snapshot()), token, cost, reason).Ok?
      ensures r.Ok? ==> CopyModel.StartDec(old(Snapshot()), token, cost, reason).value == (Snapshot(), r.value)
    {
      if token !in totals {
        return Err(StoreEmpty);
      }
      if totals[token].collateral < cost {
        decQueue := decQueue.Settle(Failed(reason));
        return Ok(false);
      }
      totals := Debit(totals, token, cost);
      if token !in prices {
        return Err(StoreEmpty);
      }
      prices := Outdate(prices, token);
      decQueue := decQueue.Start();
      r := Ok(true);
    }

    /** `process_inc_queue` */
    method StartInc(token: Token, fee: Option<nat>) returns (r: Result<bool, CopyError>)
      requires incQueue.Head().Some?
      modifies `incQueue, `totals, `prices
      ensures r.Ok? <==> CopyModel.StartInc(old(Snapshot()), token, fee).Ok?
      ensures r.Ok? ==> CopyModel.StartInc(old(Snapshot()), token, fee).value == (Snapshot(), r.value)
    {
      if fee.Some? {
        if token !in totals {
          return Err(StoreEmpty);
        }
        if totals[token].collateral < fee.value {
          incQueue := incQueue.Settle(Failed(NotEnoughCrankFee));
          return Ok(false);
        }
        totals := Debit(totals, token, fee.value);
      }
      if token !in prices {
        return Err(StoreEmpty);
      }
      prices := Outdate(prices, token);
      incQueue := incQueue.Start();
      r := Ok(true);
    }

    /** The reply of a rejected decrease-queue message: its assertion holds while that message is the head's. */
    method ReplyDecError() returns (r: Result<(), CopyError>)
      requires decQueue.Busy()
      modifies `decQueue, `totals
      ensures r.Ok? <==> CopyModel.ReplyDecError(old(Snapshot())).Ok?
      ensures r.Ok? ==> CopyModel.ReplyDecError(old(Snapshot())) == Ok(Snapshot())
    {
      var entry := decQueue.Head().value;
      assert entry.status.InProgress?;
      if !entry.item.DecMarket? {
        return Err(NonMarketItem);
      }
      var token, action := entry.item.token, entry.item.action;
      if action.CarriesCollateral() {
        if token !in totals {
          return Err(StoreEmpty);
        }
        var collateral :- Lift(CheckedAdd(totals[token].collateral, action.collateral));
        totals := totals[token := Totals(collateral, totals[token].shares)];
      }
      decQueue := decQueue.Settle(Failed(MarketError));
      r := Ok(());
    }

    method ReplyIncError() returns (r: Result<(), CopyError>)
      requires incQueue.Busy()
      modifies `incQueue
      ensures r.Ok? <==> CopyModel.ReplyIncError(old(Snapshot())).Ok?
      ensures r.Ok? ==> CopyModel.ReplyIncError(old(Snapshot())) == Ok(Snapshot())
    {
      var entry := incQueue.Head().value;
      assert entry.status.InProgress?;
      if !entry.item.IncMarket? {
        return Err(NonMarketItem);
      }
      incQueue := incQueue.Settle(Failed(MarketError));
      r := Ok(());
    }

    /** Sends the market item at the head of the decrease queue, and handles the reply. */
    method SendDec(env: Env) returns (r: Result<Dispatch, CopyError>)
      requires decQueue.Head().Some? && decQueue.Head().value.item.DecMarket?
      modifies `decQueue, `totals, `prices, `bank, `replyExec
      ensures r.Ok? <==> CopyModel.SendDec(old(Snapshot()), units, env).Ok?
      ensures r.Ok? ==> CopyModel.SendDec(old(Snapshot()), units, env).value == (Snapshot(), r.value)
    {
      var item := decQueue.Head().value.item;
      if !env.found {
        return Err(MarketNotFound);
      }
      var cost :- DecCost(item.action, env);
      var _ :- Lift(Transfer(cost, units(item.token)));
      var started :- StartDec(item.token, cost,
                              if item.action.CarriesCollateral() then NotEnoughCollateral else NotEnoughCrankFee);
      if !started {
        return Ok(Short);
      }
      var id :- Submit(item.token, cost, env.answer);
      if id.Some? {
        return Ok(Sent(id.value));
      }
      var _ :- ReplyDecError();
      r := Ok(RejectedByMarket);
    }

    /** Sends the market item at the head of the increase queue, and handles the reply. */
    method SendInc(env: Env) returns (r: Result<Dispatch, CopyError>)
      requires incQueue.Head().Some? && incQueue.Head().value.item.IncMarket?
      modifies `incQueue, `totals, `prices, `bank, `replyExec
      ensures r.Ok? <==> CopyModel.SendInc(old(Snapshot()), units, env).Ok?
      ensures r.Ok? ==> CopyModel.SendInc(old(Snapshot()), units, env).value == (Snapshot(), r.value)
    {
      var item := incQueue.Head().value.item;
      if !env.found {
        return Err(MarketNotFound);
      }
      var cost :- IncCost(item.action, env);
      var _ :- Lift(Transfer(cost, units(item.token)));
      var started :- StartInc(item.token, if item.action.PaysCrankFee() then Some(cost) else None);
      if !started {
        return Ok(Short);
      }
      var id :- Submit(item.token, cost, env.answer);
      if id.Some? {
        return Ok(Sent(id.value));
      }
      var replied := ReplyIncError();
      assert replied.Ok?;
      r := Ok(RejectedByMarket);
    }

    /** `handle_deferred_exec_id`, whose assertions hold on the work that leads here. */
    method HandleDeferred(env: Env) returns (r: Result<(), CopyError>)
      requires incQueue.Busy() || (incQueue.Head().None? && decQueue.Busy())
      modifies `incQueue, `decQueue, `replyExec
      ensures r.Ok? <==> CopyModel.HandleDeferred(old(Snapshot()), env).Ok?
      ensures r.Ok? ==> CopyModel.HandleDeferred(old(Snapshot()), env) == Ok(Snapshot())
    {
      if replyExec.None? {
        return Err(DeferredExecMissing);
      }
      if incQueue.Head().Some? {
        assert incQueue.Head().value.status.InProgress?;
        if !incQueue.Head().value.item.IncMarket? {
          return Err(NonMarketItem);
        }
        var status :- ExecResult(env);
        incQueue := incQueue.Settle(status);
      } else {
        assert decQueue.Head().value.status.InProgress?;
        if !decQueue.Head().value.item.DecMarket? {
          return Err(NonMarketItem);
        }
        var status :- ExecResult(env);
        decQueue := decQueue.Settle(status);
      }
      replyExec := None;
      r := Ok(());
    }

    // ----- Rebalancing -----

    /** What is left to rebalance is recorded for the next call. */
    method RecordRest(token: Token, requested: nat, settled: nat, early: bool)
      modifies `batch
      ensures batch == CarryOver(old(batch), token, requested, settled, early)
    {
      if early {
        var rest :=
          if settled == 0 then Some(requested)
          else if Settlement.ApproxEq(settled, requested) || settled > requested then None
          else Some(requested - settled);
        if rest.Some? {
          batch := BatchRebalance(token, rest.value);
        }
      } else {
        batch := NoBatch;
      }
    }

    /** Settles closed positions page by page. */
    method SettleClosed(token: Token, requested: nat, env: Env) returns (r: Result<Settlement.Settled, CopyError>)
      ensures r.Ok? <==> CopyModel.Settled(Snapshot(), token, requested, env).Ok?
      ensures r.Ok? ==> r == CopyModel.Settled(Snapshot(), token, requested, env)
      ensures r.Ok? ==> |env.closings.markets| == |r.value.cursors|
    {
      var closings := env.closings;
      if !Listed(Snapshot(), closings) {
        return Err(QueryFailed);
      }
      var result := Settlement.Settle(OpenBook(Snapshot(), token), closings.histories,
                                      LoadCursors(cursors, closings.markets), requested, closings.limits);
      var settled :- Lift(result);
      SettledLength(Snapshot(), token, requested, env);
      r := Ok(settled);
    }

    /** Credits the pool and the leader with what was settled, and an uncut rebalance the pool with the rest. */
    method CreditSettled(token: Token, requested: nat, env: Env, settled: Settlement.Settled)
      returns (r: Result<(), CopyError>)
      requires |env.closings.markets| == |settled.cursors|
      modifies `totals, `commission, `marks, `cursors, `batch
      ensures r.Ok? <==> Rebalanced(old(Snapshot()), token, requested, env, settled).Ok?
      ensures r.Ok? ==> Rebalanced(old(Snapshot()), token, requested, env, settled) == Ok(Snapshot())
    {
      hide CarryOver, SaveCursors, Settlement.Gains, CheckedAdd, TotalsAt, StatsAt;
      var book := settled.book;
      var collateral :- Lift(CheckedAdd(book.collateral, Settlement.Gains(requested, book.check, settled.early)));
      commission := commission[token := CommissionStats(book.unclaimed, StatsAt(commission, token).claimed)];
      marks := marks[token := book.mark];
      cursors := SaveCursors(cursors, env.closings.markets, settled.cursors);
      totals := totals[token := Totals(collateral, TotalsAt(totals, token).shares)];
      RecordRest(token, requested, book.check, settled.early);
      r := Ok(());
    }

    /** `rebalance` */
    method RunRebalance(token: Token, requested: nat, env: Env) returns (r: Result<(), CopyError>)
      modifies `totals, `commission, `marks, `cursors, `batch
      ensures r.Ok? <==> CopyModel.RunRebalance(old(Snapshot()), token, requested, env).Ok?
      ensures r.Ok? ==> CopyModel.RunRebalance(old(Snapshot()), token, requested, env) == Ok(Snapshot())
    {
      hide Settled, Rebalanced;
      var settled :- SettleClosed(token, requested, env);
      r := CreditSettled(token, requested, env, settled);
    }

    // ----- Calls and runs -----

    /** `process_queue_item` */
    method ProcessItem(id: QueueId, env: Env) returns (r: Result<(), CopyError>)
      requires HeadThere(Snapshot(), ProcessQueueItem(id))
      modifies `incQueue, `decQueue, `totals, `pending, `shares, `prices, `bank, `replyExec
      ensures r.Ok? <==> CopyModel.ProcessItem(old(Snapshot()), id, units, env).Ok?
      ensures r.Ok? ==> CopyModel.ProcessItem(old(Snapshot()), id, units, env) == Ok(Snapshot())
    {
      hide CopyModel.SendInc, CopyModel.SendDec, CopyModel.ProcessDeposit, CopyModel.ProcessWithdrawal;
      match id {
        case IncId(_) =>
          if incQueue.Head().value.item.Deposit? {
            r := ProcessDeposit();
          } else {
            var _ :- SendInc(env);
            r := Ok(());
          }
        case DecId(_) =>
          if decQueue.Head().value.item.Withdrawal? {
            r := ProcessWithdrawal(env.found);
          } else {
            var _ :- SendDec(env);
            r := Ok(());
          }
      }
    }

    /** `do_work`: whatever work is chosen, what its handler asserts holds. */
    method DoWork(env: Env) returns (r: Result<(), CopyError>)
      requires Valid()
      modifies this
      ensures r.Ok? <==> CopyModel.DoWork(old(Snapshot()), units, env).Ok?
      ensures r.Ok? ==> CopyModel.DoWork(old(Snapshot()), units, env) == Ok(Snapshot())
      ensures trace == old(trace)
    {
      hide GetWork, CopyModel.ProcessItem, CopyModel.HandleDeferred, CopyModel.RunRebalance, CopyModel.PriceToken;
      hide Prices, Sums, Settlements, Fits;
      var work :- GetWork(Snapshot(), env);
      WorkFits(Snapshot(), trace, env);
      match work {
        case NoWork =>
          r := Err(NoWorkAvailable);
        case LoadMarket =>
          r := Ok(());
        case ResetStats(_) =>
          r := Ok(());
        case ComputeLpTokenValue(token) =>
          r := PriceToken(token, env);
        case ProcessQueueItem(id) =>
          r := ProcessItem(id, env);
        case HandleDeferredExecId =>
          r := HandleDeferred(env);
        case Rebalance(token, amount) =>
          r := RunRebalance(token, amount, env);
      }
    }

    method Handle(msg: Message, env: Env) returns (r: Result<(), CopyError>)
      requires Valid()
      modifies this
      ensures r.Ok? <==> CopyModel.Handle(old(Snapshot()), msg, units, env).Ok?
      ensures r.Ok? ==> CopyModel.Handle(old(Snapshot()), msg, units, env) == Ok(Snapshot())
      ensures trace == old(trace)
    {
      hide CopyModel.QueueDeposit, CopyModel.QueueWithdrawal, CopyModel.QueueLeaderMessage;
      hide CopyModel.WithdrawCommission, CopyModel.DoWork, CopyModel.Receive, Invariant;
      match msg {
        case MsgDeposit(sender, funds, token) =>
          r := QueueDeposit(sender, funds, token, env.found);
        case MsgWithdraw(sender, tokens, token) =>
          r := QueueWithdrawal(sender, tokens, token);
        case MsgLeader(leader, token, action, collateral) =>
          r := QueueLeaderMessage(leader, token, action, collateral, env.found);
        case MsgClaim(requested, token) =>
          r := WithdrawCommission(requested, token, env.found);
        case MsgDoWork =>
          r := DoWork(env);
        case MsgInflow(funds, token) =>
          r := Receive(token, funds);
      }
    }

    method Restore(saved: Storage)
      modifies `incQueue, `decQueue, `totals, `pending, `shares, `prices, `commission, `marks, `cursors, `replyExec,
               `batch, `bank
      ensures Snapshot() == saved
    {
      incQueue, decQueue, totals, pending := saved.incQueue, saved.decQueue, saved.totals, saved.pending;
      shares, prices, commission, marks := saved.shares, saved.prices, saved.commission, saved.marks;
      cursors, replyExec, batch, bank := saved.cursors, saved.replyExec, saved.batch, saved.bank;
    }

    /** An error restores everything the handlers wrote. */
    method Attempt(msg: Message, env: Env) returns (r: Result<(), CopyError>)
      requires Valid()
      modifies this
      ensures r.Ok? <==> CopyModel.Handle(old(Snapshot()), msg, units, env).Ok?
      ensures Snapshot() == Step(old(Snapshot()), msg, units, env) && trace == old(trace)
    {
      hide CopyModel.Handle, Invariant;
      var saved := Snapshot();
      r := Handle(msg, env);
      if r.Err? {
        Restore(saved);
      }
    }

    /** One transaction: both sanity checks pass, and whatever happens the invariant holds afterwards. */
    method Execute(msg: Message, env: Env) returns (r: Result<(), CopyError>)
      requires Valid()
      modifies this
      ensures Valid()
      ensures r.Ok? <==> CopyModel.Handle(old(Snapshot()), msg, units, env).Ok?
      ensures Snapshot() == Step(old(Snapshot()), msg, units, env)
      ensures trace == NextTrace(old(Snapshot()), old(trace), msg, units, env)
    {
      hide CopyModel.Handle, Step, NextTrace, Prices, Sums, Settlements, Fits;
      Sanity(incQueue);
      Sanity(decQueue);
      StepKeeps(Snapshot(), trace, msg, units, env);
      r := Attempt(msg, env);
      trace := NextTrace(old(Snapshot()), old(trace), msg, units, env);
      Sanity(incQueue);
      Sanity(decQueue);
    }

    /** Every run of calls, whatever chain and market answer, keeps the invariant. */
    method Run(calls: seq<Call>)
      requires Valid()
      modifies this
      ensures Valid()
      ensures Snapshot() == CopyModel.Run(old(Snapshot()), calls, units)
      ensures trace == RunTrace(old(Snapshot()), old(trace), calls, units)
    {
      hide Step, NextTrace, Invariant;
      for i := 0 to |calls|
        invariant Valid()
        invariant Snapshot() == CopyModel.Run(old(Snapshot()), calls[..i], units)
        invariant trace == RunTrace(old(Snapshot()), old(trace), calls[..i], units)
      {
        assert calls[..i + 1][..i] == calls[..i];
        var _ := Execute(calls[i].0, calls[i].1);
      }
      assert calls[..|calls|] == calls;
    }
  }
}
