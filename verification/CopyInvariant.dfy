/** What every call of the copy-trading contract keeps, over its storage and a trace of what has happened. */
module CopyInvariant {
  import opened Wrappers
  import opened Decimals
  import opened Queues
  import opened CopyLedger
  import opened CopyModel
  import opened Tokens
  import opened HighWaterMark
  import LpValue
  import Settlement

  // ----- One action in flight -----

  /** Both queues keep their frontier and log, and a deferred execution is awaited exactly if one queue's head
      is in progress; that head is a market item, and the other queue's head is not in progress. */
  ghost predicate OneInFlight(inc: Queue<IncItem>, dec: Queue<DecItem>, reply: Option<nat>, incLog: seq<nat>,
                              decLog: seq<nat>) {
    && inc.Frontier() && Logged(inc, IsIncMarket(), incLog)
    && dec.Frontier() && Logged(dec, IsDecMarket(), decLog)
    && (reply.Some? <==> inc.Busy() || dec.Busy())
    && !(inc.Busy() && dec.Busy())
    && (inc.Busy() ==> inc.Head().value.item.IncMarket?)
    && (dec.Busy() ==> dec.Head().value.item.DecMarket?)
  }

  lemma PushKeepsFlight(inc: Queue<IncItem>, dec: Queue<DecItem>, reply: Option<nat>, incLog: seq<nat>,
                        decLog: seq<nat>, incItem: IncItem, decItem: DecItem, wallet: string)
    requires OneInFlight(inc, dec, reply, incLog, decLog)
    ensures OneInFlight(inc.Push(incItem, wallet), dec, reply, incLog, decLog)
    ensures OneInFlight(inc, dec.Push(decItem, wallet), reply, incLog, decLog)
  {
    PushKeepsFrontier(inc, incItem, wallet);
    PushKeepsFrontier(dec, decItem, wallet);
    PushKeepsLogged(inc, IsIncMarket(), incLog, incItem, wallet);
    PushKeepsLogged(dec, IsDecMarket(), decLog, decItem, wallet);
  }

  lemma IncSendTakesFlight(inc: Queue<IncItem>, dec: Queue<DecItem>, incLog: seq<nat>, decLog: seq<nat>, id: nat)
    requires OneInFlight(inc, dec, None, incLog, decLog)
    requires inc.Head().Some? && inc.Head().value.item.IncMarket?
    ensures OneInFlight(inc.Start(), dec, Some(id), incLog + [inc.HeadId()], decLog)
  {
    StartKeepsFrontier(inc);
    StartLogs(inc, IsIncMarket(), incLog);
  }

  lemma DecSendTakesFlight(inc: Queue<IncItem>, dec: Queue<DecItem>, incLog: seq<nat>, decLog: seq<nat>, id: nat)
    requires OneInFlight(inc, dec, None, incLog, decLog)
    requires dec.Head().Some? && dec.Head().value.item.DecMarket?
    ensures OneInFlight(inc, dec.Start(), Some(id), incLog, decLog + [dec.HeadId()])
  {
    StartKeepsFrontier(dec);
    StartLogs(dec, IsDecMarket(), decLog);
  }

  /** An item settles: the one in flight ends the flight, any other leaves it as it is. */
  lemma IncSettleKeepsFlight(inc: Queue<IncItem>, dec: Queue<DecItem>, reply: Option<nat>, incLog: seq<nat>,
                             decLog: seq<nat>, status: ProcessingStatus)
    requires OneInFlight(inc, dec, reply, incLog, decLog)
    requires inc.Head().Some? && !status.Pending()
    requires inc.Head().value.item.IncMarket? ==> (status.HandedOver() <==> inc.Busy())
    ensures OneInFlight(inc.Settle(status), dec, if inc.Busy() then None else reply, incLog, decLog)
  {
    SettleKeepsFrontier(inc, status);
    SettleKeepsLogged(inc, IsIncMarket(), incLog, status);
  }

  lemma DecSettleKeepsFlight(inc: Queue<IncItem>, dec: Queue<DecItem>, reply: Option<nat>, incLog: seq<nat>,
                             decLog: seq<nat>, status: ProcessingStatus)
    requires OneInFlight(inc, dec, reply, incLog, decLog)
    requires dec.Head().Some? && !status.Pending()
    requires dec.Head().value.item.DecMarket? ==> (status.HandedOver() <==> dec.Busy())
    ensures OneInFlight(inc, dec.Settle(status), if dec.Busy() then None else reply, incLog, decLog)
  {
    SettleKeepsFrontier(dec, status);
    SettleKeepsLogged(dec, IsDecMarket(), decLog, status);
  }

  // ----- The invariant -----

  /** What has happened: the market items handed over, the collateral each token's last valuation found outside
      the contract, the charges assessed, and the closed positions settled. */
  datatype Trace = Trace(
    incLog: seq<nat>,
    decLog: seq<nat>,
    active: map<Token, nat>,
    charges: map<Token, seq<Charge>>,
    settled: seq<PositionId>)

  const NO_TRACE: Trace := Trace([], [], map[], map[], [])

  ghost predicate Flight(s: Storage, t: Trace) {
    OneInFlight(s.incQueue, s.decQueue, s.replyExec, t.incLog, t.decLog)
  }

  ghost predicate Sums(s: Storage) {
    SharesMatch(s.shares, s.totals) && PendingMatch(s.incQueue.items, s.pending)
  }

  ghost predicate Prices(s: Storage, t: Trace) {
    && PricesBacked(s.prices, s.totals, t.active)
    && PricesKnown(s.prices, s.incQueue.Reached(), s.decQueue.Reached())
  }

  ghost predicate Settlements(s: Storage, t: Trace) {
    Accounted(s.commission, s.marks, t.charges) && SettledOnce(s.cursors, t.settled)
  }

  /** Every amount of a token is a decimal. */
  ghost predicate FitsIn(totals: map<Token, Totals>, pending: map<Token, nat>, bank: map<Token, nat>, token: Token) {
    && TotalsAt(totals, token).collateral <= MAX_ATOMS && TotalsAt(totals, token).shares <= MAX_ATOMS
    && At(pending, token) <= MAX_ATOMS && At(bank, token) <= MAX_ATOMS
  }

  ghost predicate Fits(totals: map<Token, Totals>, pending: map<Token, nat>, bank: map<Token, nat>) {
    forall token: Token :: FitsIn(totals, pending, bank, token)
  }

  lemma StillFits(totals: map<Token, Totals>, pending: map<Token, nat>, bank: map<Token, nat>, token: Token,
                  totals': map<Token, Totals>, pending': map<Token, nat>, bank': map<Token, nat>)
    requires Fits(totals, pending, bank) && FitsIn(totals', pending', bank', token)
    requires totals' == totals || (token in totals' && totals' == totals[token := totals'[token]])
    requires pending' == pending || (token in pending' && pending' == pending[token := pending'[token]])
    requires bank' == bank || (token in bank' && bank' == bank[token := bank'[token]])
    ensures Fits(totals', pending', bank')
  {
    forall other: Token
      ensures FitsIn(totals', pending', bank', other)
    {
      assert FitsIn(totals, pending, bank, other);
    }
  }

  ghost predicate Invariant(s: Storage, t: Trace) {
    && Flight(s, t) && Sums(s) && Prices(s, t) && Settlements(s, t)
    && Fits(s.totals, s.pending, s.bank)
  }

  lemma InitialInvariant()
    ensures Invariant(Initial(), NO_TRACE)
  {
    var s := Initial();
    assert forall id: nat :: s.incQueue.SlotInOrder(id) && s.decQueue.SlotInOrder(id);
    assert forall id: nat :: LoggedAt(s.incQueue, IsIncMarket(), [], id) && LoggedAt(s.decQueue, IsDecMarket(), [], id);
    assert forall token: Token :: AccountedIn(s.commission, s.marks, map[], token);
    assert forall id: PositionId :: SettledIn(s.cursors, [], id);
  }

  /** Prices stay known while a queue moves on or grows. */
  lemma IncPricesStay(s: Storage, t: Trace, queue: Queue<IncItem>)
    requires Prices(s, t) && s.incQueue.Reached() <= queue.Reached()
    ensures Prices(s.(incQueue := queue), t)
  {
    ProgressKeepsKnown(s.prices, s.incQueue.Reached(), s.decQueue.Reached(), queue.Reached(), s.decQueue.Reached());
  }

  lemma DecPricesStay(s: Storage, t: Trace, queue: Queue<DecItem>)
    requires Prices(s, t) && s.decQueue.Reached() <= queue.Reached()
    ensures Prices(s.(decQueue := queue), t)
  {
    ProgressKeepsKnown(s.prices, s.incQueue.Reached(), s.decQueue.Reached(), s.incQueue.Reached(), queue.Reached());
  }

  // ----- Messages that queue or move funds -----

  lemma ReceiveKeeps(s: Storage, t: Trace, token: Token, funds: nat)
    requires Invariant(s, t) && Receive(s, token, funds).Ok?
    ensures Invariant(Receive(s, token, funds).value, t)
  {
    assert FitsIn(s.totals, s.pending, s.bank, token);
    StillFits(s.totals, s.pending, s.bank, token, s.totals, s.pending, Receive(s, token, funds).value.bank);
  }

  lemma QueueDepositKeeps(s: Storage, t: Trace, sender: string, funds: nat, token: Token, found: bool)
    requires Invariant(s, t) && QueueDeposit(s, sender, funds, token, found).Ok?
    ensures Invariant(QueueDeposit(s, sender, funds, token, found).value, t)
  {
    var after := QueueDeposit(s, sender, funds, token, found).value;
    PushKeepsFlight(s.incQueue, s.decQueue, s.replyExec, t.incLog, t.decLog, Deposit(funds, token),
                    Withdrawal(0, token), sender);
    PushKeepsFrontier(s.incQueue, Deposit(funds, token), sender);
    QueuedDepositPends(s.incQueue.items, s.pending, Next(s.incQueue.lastInserted),
                       Entry(Deposit(funds, token), sender, NotProcessed));
    IncPricesStay(s, t, after.incQueue);
    assert FitsIn(s.totals, s.pending, s.bank, token);
    StillFits(s.totals, s.pending, s.bank, token, s.totals, after.pending, after.bank);
  }

  lemma QueueWithdrawalKeeps(s: Storage, t: Trace, sender: string, tokens: nat, token: Token)
    requires Invariant(s, t) && QueueWithdrawal(s, sender, tokens, token).Ok?
    ensures Invariant(QueueWithdrawal(s, sender, tokens, token).value, t)
  {
    DecPushKeeps(s, t, Withdrawal(tokens, token), sender);
  }

  lemma DecPushKeeps(s: Storage, t: Trace, item: DecItem, wallet: string)
    requires Invariant(s, t)
    ensures Invariant(s.(decQueue := s.decQueue.Push(item, wallet)), t)
  {
    var after := s.(decQueue := s.decQueue.Push(item, wallet));
    PushKeepsFlight(s.incQueue, s.decQueue, s.replyExec, t.incLog, t.decLog, Deposit(0, ""), item, wallet);
    DecPricesStay(s, t, after.decQueue);
  }

  lemma IncMarketPushKeeps(s: Storage, t: Trace, token: Token, action: IncMarketItem, wallet: string)
    requires Invariant(s, t)
    ensures Invariant(s.(incQueue := s.incQueue.Push(IncMarket(token, action), wallet)), t)
  {
    var item := IncMarket(token, action);
    var after := s.(incQueue := s.incQueue.Push(item, wallet));
    PushKeepsFlight(s.incQueue, s.decQueue, s.replyExec, t.incLog, t.decLog, item, Withdrawal(0, token), wallet);
    PushKeepsFrontier(s.incQueue, item, wallet);
    MarketItemsNeverPend(s.incQueue.items, s.pending, Next(s.incQueue.lastInserted),
                         Entry(item, wallet, NotProcessed));
    IncPricesStay(s, t, after.incQueue);
  }

  lemma QueueLeaderMessageKeeps(s: Storage, t: Trace, leader: string, token: Token, action: LeaderAction,
                                collateral: Option<nat>, found: bool)
    requires Invariant(s, t) && QueueLeaderMessage(s, leader, token, action, collateral, found).Ok?
    ensures Invariant(QueueLeaderMessage(s, leader, token, action, collateral, found).value, t)
  {
    match LeaderItem(action, collateral).value
    case QueueInc(item) => IncMarketPushKeeps(s, t, token, item, leader);
    case QueueDec(item) => DecPushKeeps(s, t, DecMarket(token, item), leader);
    case QueueNothing =>
  }

  lemma WithdrawCommissionKeeps(s: Storage, t: Trace, requested: nat, token: Token, units: Units, found: bool)
    requires Invariant(s, t) && WithdrawCommission(s, requested, token, units, found).Ok?
    ensures Invariant(WithdrawCommission(s, requested, token, units, found).value, t)
  {
    var after := WithdrawCommission(s, requested, token, units, found).value;
    ClaimKeepsAccounted(s.commission, s.marks, t.charges, token, StatsAt(after.commission, token));
    assert FitsIn(s.totals, s.pending, s.bank, token);
    StillFits(s.totals, s.pending, s.bank, token, s.totals, s.pending, after.bank);
  }

  // ----- Pricing, deposits and withdrawals -----

  /** The collateral a valuation found outside the contract. */
  function FoundBy(s: Storage, token: Token, env: Env): nat {
    if token in s.prices && env.scan.Done? then env.scan.active else 0
  }

  ghost function PriceTrace(s: Storage, t: Trace, token: Token, env: Env): Trace {
    if CurrentElement(s).None? then t
    else
      match Reprice(s, token, ValidFor(CurrentElement(s).value), env)
      case Ok(Some(value)) =>
        t.(active := ActiveAfter(t.active, token, FoundBy(s, token, env), value, TotalsAt(s.totals, token)))
      case _ => t
  }

  /** A price that backs itself or is recorded as unbacked, for an item already queued. */
  lemma PriceSetKeeps(s: Storage, t: Trace, token: Token, price: LpTokenValue, found: nat, batch: BatchWork)
    requires Invariant(s, t)
    requires KnownIn(s.prices[token := price], s.incQueue.Reached(), s.decQueue.Reached(), token)
    ensures Invariant(s.(prices := s.prices[token := price], batch := batch),
                      t.(active := ActiveAfter(t.active, token, found, price.value, TotalsAt(s.totals, token))))
  {
    PricingKeepsBacked(s.prices, s.totals, t.active, token, price, found);
    PricingKeepsKnown(s.prices, s.incQueue.Reached(), s.decQueue.Reached(), token, price);
  }

  /** The current element is the head of its queue. */
  lemma CurrentIsKnown(s: Storage, t: Trace, token: Token, value: nat)
    requires Flight(s, t) && CurrentElement(s).Some?
    ensures KnownIn(s.prices[token := LpTokenValue(value, ValidFor(CurrentElement(s).value))],
                    s.incQueue.Reached(), s.decQueue.Reached(), token)
  {
  }

  lemma PriceTokenKeeps(s: Storage, t: Trace, token: Token, env: Env)
    requires Invariant(s, t) && PriceToken(s, token, env).Ok?
    ensures Invariant(PriceToken(s, token, env).value, PriceTrace(s, t, token, env))
  {
    var now := ValidFor(CurrentElement(s).value);
    match Reprice(s, token, now, env).value
    case None =>
    case Some(value) =>
      CurrentIsKnown(s, t, token, value);
      PriceSetKeeps(s, t, token, LpTokenValue(value, now), FoundBy(s, token, env), ScanBatch(s, token, now, env));
  }

  /** What was pending joins the pool, so the pending deposits still add up. */
  lemma DepositedKeepsPending(s: Storage, t: Trace, minted: nat)
    requires s.incQueue.Head().Some? && s.incQueue.Head().value.item.Deposit?
    requires Flight(s, t) && PendingMatch(s.incQueue.items, s.pending)
    ensures s.incQueue.Head().value.item.funds <= At(s.pending, s.incQueue.Head().value.item.token)
    ensures PendingMatch(Deposited(s, minted).incQueue.items, Deposited(s, minted).pending)
  {
    assert s.incQueue.SlotInOrder(s.incQueue.HeadId());
    ProcessedDepositLeaves(s.incQueue.items, s.pending, s.incQueue.HeadId(), Finished);
  }

  /** The shares minted are in a wallet. */
  lemma DepositedKeepsShares(s: Storage, minted: nat)
    requires s.incQueue.Head().Some? && s.incQueue.Head().value.item.Deposit?
    requires s.incQueue.Head().value.item.funds <= At(s.pending, s.incQueue.Head().value.item.token)
    requires SharesMatch(s.shares, s.totals) && minted > 0
    ensures SharesMatch(Deposited(s, minted).shares, Deposited(s, minted).totals)
  {
    var entry := s.incQueue.Head().value;
    MintKeepsMatch(s.shares, s.totals, Wallet(entry.item.token, entry.wallet), minted,
                   TotalsAt(s.totals, entry.item.token).collateral + entry.item.funds);
  }

  lemma DepositedFits(s: Storage, minted: nat)
    requires s.incQueue.Head().Some? && s.incQueue.Head().value.item.Deposit?
    requires var item := s.incQueue.Head().value.item;
             && item.funds <= At(s.pending, item.token)
             && TotalsAt(s.totals, item.token).collateral + item.funds <= MAX_ATOMS
             && TotalsAt(s.totals, item.token).shares + minted <= MAX_ATOMS
    requires Fits(s.totals, s.pending, s.bank)
    ensures var after := Deposited(s, minted); Fits(after.totals, after.pending, after.bank)
  {
    var token, after := s.incQueue.Head().value.item.token, Deposited(s, minted);
    assert FitsIn(s.totals, s.pending, s.bank, token);
    StillFits(s.totals, s.pending, s.bank, token, after.totals, after.pending, after.bank);
  }

  /** The shares minted at the stored price leave it backed. */
  lemma DepositedKeepsPrices(s: Storage, t: Trace, minted: nat)
    requires s.incQueue.Head().Some? && s.incQueue.Head().value.item.Deposit?
    requires var item := s.incQueue.Head().value.item;
             && item.funds <= At(s.pending, item.token) && item.token in s.prices
             && LpValue.CollateralToShares(s.prices[item.token].value, item.funds)
                == Result<nat, LpValue.LpError>.Ok(minted)
    requires Prices(s, t)
    ensures Prices(Deposited(s, minted), t)
  {
    var item := s.incQueue.Head().value.item;
    DepositKeepsBacked(s.prices, s.totals, t.active, item.token, item.funds, minted);
    IncPricesStay(s, t, s.incQueue.Settle(Finished));
  }

  lemma DepositedKeepsFlight(s: Storage, t: Trace, minted: nat)
    requires s.incQueue.Head().Some? && s.incQueue.Head().value.item.Deposit?
    requires s.incQueue.Head().value.item.funds <= At(s.pending, s.incQueue.Head().value.item.token)
    requires Flight(s, t)
    ensures Flight(Deposited(s, minted), t)
  {
    IncSettleKeepsFlight(s.incQueue, s.decQueue, s.replyExec, t.incLog, t.decLog, Finished);
  }

  lemma ProcessDepositKeeps(s: Storage, t: Trace)
    requires s.incQueue.Head().Some? && s.incQueue.Head().value.item.Deposit?
    requires Invariant(s, t) && ProcessDeposit(s).Ok?
    ensures Invariant(ProcessDeposit(s).value, t)
  {
    var minted := DepositMints(s).value;
    DepositedKeepsPending(s, t, minted);
    DepositedKeepsShares(s, minted);
    DepositedFits(s, minted);
    DepositedKeepsPrices(s, t, minted);
    DepositedKeepsFlight(s, t, minted);
  }

  /** A queued item of the decrease queue settles; if it was in flight, the flight ends. */
  lemma DecSettledKeeps(s: Storage, t: Trace, status: ProcessingStatus)
    requires Invariant(s, t) && s.decQueue.Head().Some? && !status.Pending()
    requires s.decQueue.Head().value.item.DecMarket? ==> (status.HandedOver() <==> s.decQueue.Busy())
    ensures Invariant(s.(decQueue := s.decQueue.Settle(status),
                         replyExec := if s.decQueue.Busy() then None else s.replyExec), t)
  {
    DecSettleKeepsFlight(s.incQueue, s.decQueue, s.replyExec, t.incLog, t.decLog, status);
    DecPricesStay(s, t, s.decQueue.Settle(status));
  }

  /** The same for a market item of the increase queue. */
  lemma IncSettledKeeps(s: Storage, t: Trace, status: ProcessingStatus)
    requires Invariant(s, t) && s.incQueue.Head().Some? && !status.Pending()
    requires s.incQueue.Head().value.item.IncMarket? && (status.HandedOver() <==> s.incQueue.Busy())
    ensures Invariant(s.(incQueue := s.incQueue.Settle(status),
                         replyExec := if s.incQueue.Busy() then None else s.replyExec), t)
  {
    hide OneInFlight, PendingMatch;
    IncSettleKeepsFlight(s.incQueue, s.decQueue, s.replyExec, t.incLog, t.decLog, status);
    IncPricesStay(s, t, s.incQueue.Settle(status));
    SettledItemPends(s, status);
  }

  lemma SettledItemPends(s: Storage, status: ProcessingStatus)
    requires s.incQueue.Head().Some? && s.incQueue.Head().value.item.IncMarket?
    requires PendingMatch(s.incQueue.items, s.pending)
    ensures PendingMatch(s.incQueue.Settle(status).items, s.pending)
  {
    var head := s.incQueue.HeadId();
    MarketItemsNeverPend(s.incQueue.items, s.pending, head, s.incQueue.items[head].(status := status));
  }

  lemma RedeemedKeeps(s: Storage, t: Trace, funds: nat)
    requires s.decQueue.Head().Some? && s.decQueue.Head().value.item.Withdrawal?
    requires var entry := s.decQueue.Head().value;
             var token, burned := entry.item.token, entry.item.tokens;
             && 0 < burned <= SharesAt(s.shares, Wallet(token, entry.wallet))
             && token in s.prices && token in s.totals && funds <= s.totals[token].collateral
             && LpValue.SharesToCollateral(s.prices[token].value, burned) == Result<nat, LpValue.LpError>.Ok(funds)
    requires Invariant(s, t)
    ensures s.decQueue.Head().value.item.tokens <= s.totals[s.decQueue.Head().value.item.token].shares
    ensures Invariant(Redeemed(s, funds), t)
  {
    var entry := s.decQueue.Head().value;
    var token, burned := entry.item.token, entry.item.tokens;
    assert s.decQueue.SlotInOrder(s.decQueue.HeadId());
    DecSettleKeepsFlight(s.incQueue, s.decQueue, s.replyExec, t.incLog, t.decLog, Finished);
    DecPricesStay(s, t, s.decQueue.Settle(Finished));
    BurnKeepsMatch(s.shares, s.totals, Wallet(token, entry.wallet), burned, s.totals[token].collateral - funds);
    WithdrawalKeepsBacked(s.prices, s.totals, t.active, token, funds, burned);
    assert FitsIn(s.totals, s.pending, s.bank, token);
    StillFits(s.totals, s.pending, s.bank, token,
              s.totals[token := Totals(s.totals[token].collateral - funds, s.totals[token].shares - burned)],
              s.pending, s.bank);
  }

  lemma PayKeeps(s: Storage, t: Trace, token: Token, moved: nat)
    requires Invariant(s, t) && Pay(s, token, moved).Ok?
    ensures Invariant(Pay(s, token, moved).value, t)
  {
    assert FitsIn(s.totals, s.pending, s.bank, token);
    StillFits(s.totals, s.pending, s.bank, token, s.totals, s.pending, Pay(s, token, moved).value.bank);
  }

  lemma ProcessWithdrawalKeeps(s: Storage, t: Trace, units: Units, found: bool)
    requires s.decQueue.Head().Some? && s.decQueue.Head().value.item.Withdrawal?
    requires Invariant(s, t) && ProcessWithdrawal(s, units, found).Ok?
    ensures Invariant(ProcessWithdrawal(s, units, found).value, t)
  {
    match WithdrawalPayout(s, units, found).value
    case Refused(reason) =>
      assert !s.decQueue.Busy();
      DecSettledKeeps(s, t, Failed(reason));
    case Paid(funds, moved) =>
      var item := s.decQueue.Head().value.item;
      ZeroSharesHaveNoValue(s.prices[item.token].value);
      RedeemedKeeps(s, t, funds);
      PayKeeps(Redeemed(s, funds), t, item.token, moved);
  }

  lemma ZeroSharesHaveNoValue(value: nat)
    ensures LpValue.SharesToCollateral(value, 0).Err?
  {
  }

  // ----- Market items -----

  /** The three ways a decrease-queue item leaves. A rejected item gets back the collateral it carries, so that
      the totals are as they were; a crank fee stays spent. */
  ghost predicate DecOutcome(s: Storage, units: Units, env: Env, after: Storage, dispatch: Dispatch)
    requires s.decQueue.Head().Some? && s.decQueue.Head().value.item.DecMarket?
  {
            var item := s.decQueue.Head().value.item;
            var token, carries := item.token, item.action.CarriesCollateral();
            && token in s.totals && DecCost(item.action, env).Ok?
            && var cost, have := DecCost(item.action, env).value, s.totals[token].collateral;
            match dispatch
            case Short =>
              && have < cost
              && after == s.(decQueue := s.decQueue.Settle(
                               Failed(if carries then NotEnoughCollateral else NotEnoughCrankFee)))
            case Sent(id) =>
              && cost <= have && token in s.prices && s.replyExec.None? && env.answer == Accepted(Some(id))
              && BankCovers(s, token, cost, units)
              && after == s.(decQueue := s.decQueue.Start(), totals := Debit(s.totals, token, cost),
                             prices := Outdate(s.prices, token), replyExec := Some(id),
                             bank := s.bank[token := At(s.bank, token) - RoundDown(cost, units(token))])
            case RejectedByMarket =>
              && cost <= have && token in s.prices && (env.answer.Rejected? || !BankCovers(s, token, cost, units))
              && after == s.(decQueue := s.decQueue.Settle(Failed(MarketError)), prices := Outdate(s.prices, token),
                             totals := if carries then s.totals else Debit(s.totals, token, cost))
  }

  /** The reply to a rejected item gives back what was debited for it, if it carries collateral. */
  lemma DecRejected(s: Storage, units: Units, env: Env)
    requires s.decQueue.Head().Some? && s.decQueue.Head().value.item.DecMarket?
    requires SendDec(s, units, env).Ok? && SendDec(s, units, env).value.1.RejectedByMarket?
    ensures DecOutcome(s, units, env, SendDec(s, units, env).value.0, RejectedByMarket)
  {
    var item := s.decQueue.Head().value.item;
    assert s.decQueue.Start().Settle(Failed(MarketError)) == s.decQueue.Settle(Failed(MarketError));
    if item.action.CarriesCollateral() {
      var debited := Debit(s.totals, item.token, item.action.collateral);
      assert debited[item.token := s.totals[item.token]] == s.totals;
    }
  }

  lemma SendDecOutcome(s: Storage, units: Units, env: Env)
    requires s.decQueue.Head().Some? && s.decQueue.Head().value.item.DecMarket?
    requires SendDec(s, units, env).Ok?
    ensures DecOutcome(s, units, env, SendDec(s, units, env).value.0, SendDec(s, units, env).value.1)
  {
    if SendDec(s, units, env).value.1.RejectedByMarket? {
      DecRejected(s, units, env);
    }
  }

  /** The three ways an increase-queue item leaves. */
  ghost predicate IncOutcome(s: Storage, units: Units, env: Env, after: Storage, dispatch: Dispatch)
    requires s.incQueue.Head().Some? && s.incQueue.Head().value.item.IncMarket?
  {
            var item := s.incQueue.Head().value.item;
            var token, pays := item.token, item.action.PaysCrankFee();
            && IncCost(item.action, env).Ok? && (pays ==> token in s.totals)
            && var cost := IncCost(item.action, env).value;
            match dispatch
            case Short =>
              && pays && s.totals[token].collateral < cost
              && after == s.(incQueue := s.incQueue.Settle(Failed(NotEnoughCrankFee)))
            case Sent(id) =>
              && (pays ==> cost <= s.totals[token].collateral)
              && token in s.prices && s.replyExec.None? && env.answer == Accepted(Some(id))
              && BankCovers(s, token, cost, units)
              && after == s.(incQueue := s.incQueue.Start(), prices := Outdate(s.prices, token), replyExec := Some(id),
                             totals := if pays then Debit(s.totals, token, cost) else s.totals,
                             bank := s.bank[token := At(s.bank, token) - RoundDown(cost, units(token))])
            case RejectedByMarket =>
              && (pays ==> cost <= s.totals[token].collateral)
              && token in s.prices && (env.answer.Rejected? || !BankCovers(s, token, cost, units))
              && after == s.(incQueue := s.incQueue.Settle(Failed(MarketError)), prices := Outdate(s.prices, token),
                             totals := if pays then Debit(s.totals, token, cost) else s.totals)
  }

  lemma SendIncOutcome(s: Storage, units: Units, env: Env)
    requires s.incQueue.Head().Some? && s.incQueue.Head().value.item.IncMarket?
    requires SendInc(s, units, env).Ok?
    ensures IncOutcome(s, units, env, SendInc(s, units, env).value.0, SendInc(s, units, env).value.1)
  {
    if SendInc(s, units, env).value.1.RejectedByMarket? {
      assert s.incQueue.Start().Settle(Failed(MarketError)) == s.incQueue.Settle(Failed(MarketError));
    }
  }

  /** A debit of a token whose price it outdates, and what leaves the bank with it. */
  lemma SpentKeeps(s: Storage, t: Trace, token: Token, totals: map<Token, Totals>, bank: map<Token, nat>)
    requires Invariant(s, t) && token in s.prices
    requires CollateralChanged(s.totals, totals, token)
    requires TotalsAt(totals, token).collateral <= TotalsAt(s.totals, token).collateral
    requires bank == s.bank || (token in bank && bank == s.bank[token := bank[token]])
    requires At(bank, token) <= At(s.bank, token)
    ensures Invariant(s.(prices := Outdate(s.prices, token), totals := totals, bank := bank), t)
  {
    OutdatingKeepsBacked(s.prices, s.totals, totals, t.active, token);
    OutdatingKeepsKnown(s.prices, s.incQueue.Reached(), s.decQueue.Reached(), token);
    CollateralKeepsMatch(s.shares, s.totals, totals, token);
    assert FitsIn(s.totals, s.pending, s.bank, token);
    StillFits(s.totals, s.pending, s.bank, token, totals, s.pending, bank);
  }

  lemma DecStartedKeeps(s: Storage, t: Trace, id: nat)
    requires Invariant(s, t) && s.replyExec.None?
    requires s.decQueue.Head().Some? && s.decQueue.Head().value.item.DecMarket?
    ensures Invariant(s.(decQueue := s.decQueue.Start(), replyExec := Some(id)),
                      t.(decLog := t.decLog + [s.decQueue.HeadId()]))
  {
    DecSendTakesFlight(s.incQueue, s.decQueue, t.incLog, t.decLog, id);
  }

  lemma IncStartedKeeps(s: Storage, t: Trace, id: nat)
    requires Invariant(s, t) && s.replyExec.None?
    requires s.incQueue.Head().Some? && s.incQueue.Head().value.item.IncMarket?
    ensures Invariant(s.(incQueue := s.incQueue.Start(), replyExec := Some(id)),
                      t.(incLog := t.incLog + [s.incQueue.HeadId()]))
  {
    var head := s.incQueue.HeadId();
    IncSendTakesFlight(s.incQueue, s.decQueue, t.incLog, t.decLog, id);
    MarketItemsNeverPend(s.incQueue.items, s.pending, head, s.incQueue.items[head].(status := InProgress));
  }

  ghost function DecTrace(s: Storage, t: Trace, units: Units, env: Env): Trace
    requires s.decQueue.Head().Some? && s.decQueue.Head().value.item.DecMarket?
  {
    if SendDec(s, units, env).Ok? && SendDec(s, units, env).value.1.Sent?
    then t.(decLog := t.decLog + [s.decQueue.HeadId()]) else t
  }

  lemma DecOutcomeKeeps(s: Storage, t: Trace, units: Units, env: Env, after: Storage, dispatch: Dispatch)
    requires s.decQueue.Head().Some? && s.decQueue.Head().value.item.DecMarket? && !s.decQueue.Busy()
    requires Invariant(s, t) && DecOutcome(s, units, env, after, dispatch)
    ensures Invariant(after, if dispatch.Sent? then t.(decLog := t.decLog + [s.decQueue.HeadId()]) else t)
  {
    var token := s.decQueue.Head().value.item.token;
    match dispatch
    case Short =>
      DecSettledKeeps(s, t, after.decQueue.items[s.decQueue.HeadId()].status);
    case Sent(id) =>
      DecStartedKeeps(s, t, id);
      SpentKeeps(s.(decQueue := s.decQueue.Start(), replyExec := Some(id)),
                 t.(decLog := t.decLog + [s.decQueue.HeadId()]), token, after.totals, after.bank);
    case RejectedByMarket =>
      DecSettledKeeps(s, t, Failed(MarketError));
      SpentKeeps(s.(decQueue := s.decQueue.Settle(Failed(MarketError))), t, token, after.totals, after.bank);
  }

  lemma SendDecKeeps(s: Storage, t: Trace, units: Units, env: Env)
    requires s.decQueue.Head().Some? && s.decQueue.Head().value.item.DecMarket? && !s.decQueue.Busy()
    requires Invariant(s, t) && SendDec(s, units, env).Ok?
    ensures Invariant(SendDec(s, units, env).value.0, DecTrace(s, t, units, env))
  {
    SendDecOutcome(s, units, env);
    DecOutcomeKeeps(s, t, units, env, SendDec(s, units, env).value.0, SendDec(s, units, env).value.1);
  }

  ghost function IncTrace(s: Storage, t: Trace, units: Units, env: Env): Trace
    requires s.incQueue.Head().Some? && s.incQueue.Head().value.item.IncMarket?
  {
    if SendInc(s, units, env).Ok? && SendInc(s, units, env).value.1.Sent?
    then t.(incLog := t.incLog + [s.incQueue.HeadId()]) else t
  }

  lemma IncOutcomeKeeps(s: Storage, t: Trace, units: Units, env: Env, after: Storage, dispatch: Dispatch)
    requires s.incQueue.Head().Some? && s.incQueue.Head().value.item.IncMarket? && !s.incQueue.Busy()
    requires Invariant(s, t) && IncOutcome(s, units, env, after, dispatch)
    ensures Invariant(after, if dispatch.Sent? then t.(incLog := t.incLog + [s.incQueue.HeadId()]) else t)
  {
    var token := s.incQueue.Head().value.item.token;
    match dispatch
    case Short =>
      IncSettledKeeps(s, t, Failed(NotEnoughCrankFee));
    case Sent(id) =>
      IncStartedKeeps(s, t, id);
      SpentKeeps(s.(incQueue := s.incQueue.Start(), replyExec := Some(id)),
                 t.(incLog := t.incLog + [s.incQueue.HeadId()]), token, after.totals, after.bank);
    case RejectedByMarket =>
      IncSettledKeeps(s, t, Failed(MarketError));
      SpentKeeps(s.(incQueue := s.incQueue.Settle(Failed(MarketError))), t, token, after.totals, after.bank);
  }

  lemma SendIncKeeps(s: Storage, t: Trace, units: Units, env: Env)
    requires s.incQueue.Head().Some? && s.incQueue.Head().value.item.IncMarket? && !s.incQueue.Busy()
    requires Invariant(s, t) && SendInc(s, units, env).Ok?
    ensures Invariant(SendInc(s, units, env).value.0, IncTrace(s, t, units, env))
  {
    SendIncOutcome(s, units, env);
    IncOutcomeKeeps(s, t, units, env, SendInc(s, units, env).value.0, SendInc(s, units, env).value.1);
  }

  /** The head of the increase queue settles if there is one, else that of the decrease queue. */
  lemma DeferredSettles(s: Storage, env: Env, after: Storage)
    requires HandleDeferred(s, env) == Ok(after)
    ensures ExecResult(env).Ok? && s.replyExec.Some?
    ensures if s.incQueue.Head().Some? then
              && s.incQueue.Busy() && s.incQueue.Head().value.item.IncMarket?
              && after == s.(incQueue := s.incQueue.Settle(ExecResult(env).value), replyExec := None)
            else
              && s.decQueue.Busy() && s.decQueue.Head().value.item.DecMarket?
              && after == s.(decQueue := s.decQueue.Settle(ExecResult(env).value), replyExec := None)
  {
    if s.incQueue.Head().Some? {
      assert after.incQueue == s.incQueue.Settle(ExecResult(env).value);
    } else {
      assert after.decQueue == s.decQueue.Settle(ExecResult(env).value);
    }
  }

  /** The item in flight settles by what became of it. */
  lemma HandleDeferredKeeps(s: Storage, t: Trace, env: Env)
    requires Invariant(s, t) && HandleDeferred(s, env).Ok?
    ensures Invariant(HandleDeferred(s, env).value, t)
  {
    DeferredSettles(s, env, HandleDeferred(s, env).value);
    if s.incQueue.Head().Some? {
      IncSettledKeeps(s, t, ExecResult(env).value);
    } else {
      DecSettledKeeps(s, t, ExecResult(env).value);
    }
  }

  // ----- Rebalancing -----

  /** What a rebalance settles: the positions its cursors move over, each listed by its market. */
  lemma RebalanceMoves(s: Storage, token: Token, requested: nat, env: Env)
    requires Settled(s, token, requested, env).Ok?
    ensures var settled := Settled(s, token, requested, env).value;
            var from := LoadCursors(s.cursors, env.closings.markets);
            && |env.closings.markets| == |from| == |settled.cursors|
            && (forall i | 0 <= i < |from| :: from[i] <= settled.cursors[i])
            && Settlement.CursorsWithin(env.closings.histories, from, settled.cursors)
            && settled.closed == Settlement.Between(env.closings.histories, from, settled.cursors)
            && Settlement.SettleAll(OpenBook(s, token), settled.closed, env.closings.limits.rate) == Ok(settled.book)
            && settled.book.collateral + settled.book.unclaimed
               == TotalsAt(s.totals, token).collateral + StatsAt(s.commission, token).unclaimed + settled.book.check
            && TotalsAt(s.totals, token).collateral <= settled.book.collateral
  {
    var from := LoadCursors(s.cursors, env.closings.markets);
    var settled := Settled(s, token, requested, env).value;
    Settlement.RebalanceSettles(OpenBook(s, token), env.closings.histories, from, requested, 0, env.closings.limits);
    Settlement.SettlementSplits(OpenBook(s, token), settled.closed, env.closings.limits.rate);
  }

  /** The positions settled join the token's history at the rate in force, and the list of those settled. */
  ghost function RebalanceTrace(s: Storage, t: Trace, token: Token, requested: nat, env: Env): Trace {
    var settled := Settled(s, token, requested, env);
    if settled.Err? then t
    else
      RebalanceMoves(s, token, requested, env);
      t.(charges := t.charges[token := ChargesAt(t.charges, token)
                                       + Settlement.Charges(settled.value.closed, env.closings.limits.rate)],
         settled := t.settled + Stretches(env.closings.markets, LoadCursors(s.cursors, env.closings.markets),
                                          settled.value.cursors))
  }

  /** More collateral in one token. */
  lemma CreditedKeeps(s: Storage, t: Trace, token: Token, collateral: nat)
    requires Invariant(s, t) && TotalsAt(s.totals, token).collateral <= collateral <= MAX_ATOMS
    ensures Invariant(s.(totals := s.totals[token := Totals(collateral, TotalsAt(s.totals, token).shares)]), t)
  {
    var totals := s.totals[token := Totals(collateral, TotalsAt(s.totals, token).shares)];
    CreditKeepsBacked(s.prices, s.totals, totals, t.active, token);
    CollateralKeepsMatch(s.shares, s.totals, totals, token);
    assert FitsIn(s.totals, s.pending, s.bank, token);
    StillFits(s.totals, s.pending, s.bank, token, totals, s.pending, s.bank);
  }

  lemma SettledKeepsSettlements(s: Storage, t: Trace, token: Token, requested: nat, env: Env)
    requires Settlements(s, t) && RunRebalance(s, token, requested, env).Ok?
    ensures Settlements(RunRebalance(s, token, requested, env).value, RebalanceTrace(s, t, token, requested, env))
  {
    var settled := Settled(s, token, requested, env).value;
    RebalanceMoves(s, token, requested, env);
    SettlementKeepsAccounted(s.commission, s.marks, t.charges, token, OpenBook(s, token), settled.closed,
                             env.closings.limits.rate);
    StretchesKeepOnce(s.cursors, t.settled, env.closings.markets, settled.cursors);
  }

  lemma RunRebalanceKeeps(s: Storage, t: Trace, token: Token, requested: nat, env: Env)
    requires Invariant(s, t) && RunRebalance(s, token, requested, env).Ok?
    ensures Invariant(RunRebalance(s, token, requested, env).value, RebalanceTrace(s, t, token, requested, env))
  {
    var after := RunRebalance(s, token, requested, env).value;
    RebalanceMoves(s, token, requested, env);
    SettledKeepsSettlements(s, t, token, requested, env);
    CreditedKeeps(s, t, token, TotalsAt(after.totals, token).collateral);
  }
}
