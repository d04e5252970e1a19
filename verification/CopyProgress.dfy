/** When a unit of work can succeed: the queues are served strictly in order, so that a head that cannot be
    processed holds up everything behind it. */
module CopyProgress {
  import opened Wrappers
  import opened Decimals
  import opened Queues
  import opened CopyLedger
  import opened CopyModel
  import opened CopyInvariant
  import opened CopyRuns
  import opened Tokens
  import Settlement

  // ----- What each kind of head needs -----

  /** The ledger explains the bank's balance, or falls short of it: work can go on to value the token, or to
      rebalance it. */
  predicate Explained(s: Storage, token: Token) {
    Booked(s, token) <= MAX_ATOMS && Booked(s, token) <= At(s.bank, token) + BALANCE_TOLERANCE
  }

  /** The deposit buys shares, and every amount it adds to stays a decimal. */
  predicate Mints(price: nat, funds: nat, totals: Totals) {
    && price > 0 && 0 < DivFloor(funds, price)
    && totals.collateral + funds <= MAX_ATOMS && totals.shares + DivFloor(funds, price) <= MAX_ATOMS
  }

  /** The withdrawal is refused for want of shares or collateral or for being too small, or it can be paid. */
  predicate Pays(price: nat, burned: nat, held: nat, token: Token, s: Storage, unit: Unit) {
    || held == 0 || held < burned
    || (var funds := MulFloor(price, burned);
        && 0 < funds <= MAX_ATOMS && FloorDiv(funds, unit) <= MAX_UNITS && token in s.totals
        && (|| funds > s.totals[token].collateral || FloorDiv(funds, unit) == 0
            || RoundDown(funds, unit) <= At(s.bank, token)))
  }

  /** Some crank fee exceeds the collateral and can still be sent. */
  predicate FeeCanExceed(collateral: nat, unit: Unit) {
    FloorDiv(collateral + 1, unit) <= MAX_UNITS
  }

  /** An item that pays a crank fee needs the token's totals; any item that is not turned down for want of
      collateral needs its price. */
  predicate FeeItemStarts(s: Storage, token: Token, unit: Unit) {
    token in s.totals && (token in s.prices || FeeCanExceed(s.totals[token].collateral, unit))
  }

  predicate IncMarketStarts(s: Storage, token: Token, action: IncMarketItem, unit: Unit) {
    if action.PaysCrankFee() then FeeItemStarts(s, token, unit) else token in s.prices
  }

  predicate DecMarketStarts(s: Storage, token: Token, action: DecMarketItem, unit: Unit) {
    if action.CarriesCollateral() then
      && token in s.totals && FloorDiv(action.collateral, unit) <= MAX_UNITS
      && (s.totals[token].collateral < action.collateral || token in s.prices)
    else FeeItemStarts(s, token, unit)
  }

  predicate ValidNow(s: Storage, token: Token, id: QueueId) {
    token in s.prices && s.prices[token].status == ValidFor(id)
  }

  predicate IncHeadCanWork(s: Storage, units: Units)
    requires s.incQueue.Head().Some?
  {
    match s.incQueue.Head().value.item
    case Deposit(funds, token) =>
      if ValidNow(s, token, IncId(s.incQueue.HeadId())) then
        Mints(s.prices[token].value, funds, TotalsAt(s.totals, token))
      else (token in s.prices ==> s.replyExec.None?) && Explained(s, token)
    case IncMarket(token, action) => s.incQueue.Busy() || IncMarketStarts(s, token, action, units(token))
  }

  predicate DecHeadCanWork(s: Storage, units: Units)
    requires s.decQueue.Head().Some?
  {
    var entry := s.decQueue.Head().value;
    match entry.item
    case Withdrawal(burned, token) =>
      if ValidNow(s, token, DecId(s.decQueue.HeadId())) then
        Pays(s.prices[token].value, burned, SharesAt(s.shares, Wallet(token, entry.wallet)), token, s, units(token))
      else Explained(s, token)
    case DecMarket(token, action) => s.decQueue.Busy() || DecMarketStarts(s, token, action, units(token))
  }

  /** What the head of the increase queue needs, or, if that queue is empty, of the decrease queue. */
  predicate CanWork(s: Storage, units: Units)
    requires CurrentElement(s).Some?
  {
    if s.incQueue.Head().Some? then IncHeadCanWork(s, units) else DecHeadCanWork(s, units)
  }

  /** No market is to be loaded, and no statistics are to be reset. */
  predicate Calm(env: Env) {
    !env.loaderDue && !env.resetRequired && !env.statsStale
  }

  // ----- An environment in which work succeeds -----

  /** Pages of fifteen, the default budget, and a commission of a tenth. */
  const USUAL: Settlement.Limits := Settlement.Limits(15, 30, ONE / 10)

  /** The one market of a token, all of whose closed positions are settled. */
  function Quiet(cursors: map<MarketId, nat>): Closings {
    Closings(["market"], [Settlement.Flats(CursorAt(cursors, "market"))], USUAL)
  }

  /** Everything is found, deferred executions have ended, a scan is cut, no position was closed. */
  function Favourable(s: Storage, fee: nat): Env {
    Env(false, true, Success, Some(fee), Rejected, false, false, Cut, Quiet(s.cursors))
  }

  /** With nothing to settle, one query finds so. */
  lemma QuietSettles(s: Storage, token: Token, requested: nat, env: Env)
    requires env.closings == Quiet(s.cursors)
    ensures Listed(s, env.closings)
    ensures Settled(s, token, requested, env)
            == Ok(Settlement.Settled(OpenBook(s, token), [CursorAt(s.cursors, "market")], false, 1, []))
  {
    var cursor := CursorAt(s.cursors, "market");
    var history := Settlement.Flats(cursor);
    var book := OpenBook(s, token);
    var histories, from := [history], [cursor];
    Settlement.FlatsLength(cursor);
    assert LoadCursors(s.cursors, ["market"]) == from by {
      assert ["market"][1..] == [];
    }
    assert history[cursor..cursor] == [];
    assert Settlement.MarketRun(book, history, cursor, requested, 0, USUAL)
           == Ok(Settlement.Progress(book, cursor, 1, false));
    assert histories[1..] == [] && from[1..] == [];
    assert Settlement.SettleRun(book, histories[1..], from[1..], requested, 1, USUAL)
           == Ok(Settlement.Settled(book, [], false, 1, []));
    var none: seq<nat>, nothing: seq<Settlement.Closed> := [], [];
    assert [cursor] + none == [cursor] && history[cursor..cursor] + nothing == nothing;
    assert Settlement.SettleRun(book, histories, from, requested, 0, USUAL)
           == Ok(Settlement.Settled(book, [cursor], false, 1, []));
  }

  /** A rebalance then credits the whole request. */
  lemma QuietRebalance(s: Storage, token: Token, requested: nat, fee: nat)
    requires TotalsAt(s.totals, token).collateral + requested <= MAX_ATOMS
    ensures RunRebalance(s, token, requested, Favourable(s, fee)).Ok?
  {
    hide Settled;
    QuietSettles(s, token, requested, Favourable(s, fee));
  }

  lemma CutScanWorks(s: Storage, token: Token, fee: nat)
    requires CurrentElement(s).Some?
    ensures PriceToken(s, token, Favourable(s, fee)).Ok?
  {
  }

  /** Once the ledger is explained, valuing or rebalancing the token succeeds. */
  lemma ExplainedWorks(s: Storage, t: Trace, token: Token, units: Units, fee: nat)
    requires Invariant(s, t) && CurrentElement(s).Some? && Explained(s, token)
    ensures var work := CheckBalanceWork(s, token, Favourable(s, fee));
            work.Ok? && !work.value.ProcessQueueItem? && Perform(s, work.value, units, Favourable(s, fee)).Ok?
  {
    hide CurrentElement, PriceToken, RunRebalance;
    var env := Favourable(s, fee);
    assert FitsIn(s.totals, s.pending, s.bank, token);
    if Abs(Booked(s, token) - At(s.bank, token)) <= BALANCE_TOLERANCE {
      CutScanWorks(s, token, fee);
      assert CheckBalanceWork(s, token, env) == Ok(ComputeLpTokenValue(token));
    } else {
      var amount := At(s.bank, token) - Booked(s, token);
      QuietRebalance(s, token, amount, fee);
      assert CheckBalanceWork(s, token, env) == Ok(Rebalance(token, amount));
    }
  }

  lemma CheckNeedsExplained(s: Storage, token: Token, env: Env)
    requires CheckBalanceWork(s, token, env).Ok?
    ensures Explained(s, token)
  {
  }

  // ----- Deposits -----

  /** A deposit whose price is valid is processed exactly if it mints. */
  lemma DepositMintsIff(s: Storage, t: Trace)
    requires Invariant(s, t) && s.incQueue.Head().Some? && s.incQueue.Head().value.item.Deposit?
    requires s.incQueue.Head().value.item.token in s.prices
    ensures var item := s.incQueue.Head().value.item;
            ProcessDeposit(s).Ok? <==> Mints(s.prices[item.token].value, item.funds, TotalsAt(s.totals, item.token))
  {
    var entry := s.incQueue.Head().value;
    var token := entry.item.token;
    assert s.incQueue.SlotInOrder(s.incQueue.HeadId());
    ProcessedDepositLeaves(s.incQueue.items, s.pending, s.incQueue.HeadId(), Finished);
    assert FitsIn(s.totals, s.pending, s.bank, token);
    MintKeepsMatch(s.shares, s.totals, Wallet(token, entry.wallet), 1, 0);
  }

  // ----- Withdrawals -----

  /** The checks of a withdrawal of shares the wallet holds. */
  lemma PayoutSteps(s: Storage, units: Units, found: bool)
    requires s.decQueue.Head().Some? && s.decQueue.Head().value.item.Withdrawal?
    requires var entry := s.decQueue.Head().value;
             && entry.item.token in s.prices && Wallet(entry.item.token, entry.wallet) in s.shares
             && entry.item.tokens <= s.shares[Wallet(entry.item.token, entry.wallet)]
    ensures var item := s.decQueue.Head().value.item;
            var token, funds := item.token, MulFloor(s.prices[item.token].value, item.tokens);
            var fits :=
              0 < funds <= MAX_ATOMS && found && FloorDiv(funds, units(token)) <= MAX_UNITS && token in s.totals;
            && (WithdrawalPayout(s, units, found).Ok? <==> fits)
            && (fits ==>
                  WithdrawalPayout(s, units, found).value
                  == if funds > s.totals[token].collateral then Refused(NotEnoughCollateral)
                     else if FloorDiv(funds, units(token)) == 0 then Refused(FundLessThanMinChain)
                     else Paid(funds, RoundDown(funds, units(token))))
  {
  }

  /** Once its payout is known, a withdrawal fails only if the bank cannot pay it. */
  lemma PayoutSettles(s: Storage, units: Units, found: bool)
    requires s.decQueue.Head().Some? && s.decQueue.Head().value.item.Withdrawal?
    requires WithdrawalPayout(s, units, found).Ok?
    requires var item := s.decQueue.Head().value.item; item.tokens <= TotalsAt(s.totals, item.token).shares <= MAX_ATOMS
    ensures ProcessWithdrawal(s, units, found).Ok?
            <==> match WithdrawalPayout(s, units, found).value
                 case Refused(_) => true
                 case Paid(_, moved) => moved <= At(s.bank, s.decQueue.Head().value.item.token)
  {
    match WithdrawalPayout(s, units, found).value
    case Refused(_) =>
    case Paid(_, _) =>
  }

  /** A withdrawal is processed exactly if it is refused or paid. */
  lemma WithdrawalPaysIff(s: Storage, t: Trace, units: Units)
    requires Invariant(s, t) && s.decQueue.Head().Some? && s.decQueue.Head().value.item.Withdrawal?
    requires s.decQueue.Head().value.item.token in s.prices
    ensures var entry := s.decQueue.Head().value;
            var token := entry.item.token;
            ProcessWithdrawal(s, units, true).Ok?
            <==> Pays(s.prices[token].value, entry.item.tokens, SharesAt(s.shares, Wallet(token, entry.wallet)), token,
                      s, units(token))
  {
    var entry := s.decQueue.Head().value;
    var token, burned, wallet := entry.item.token, entry.item.tokens, Wallet(entry.item.token, entry.wallet);
    assert HoldsSome(s.shares, wallet) && FitsIn(s.totals, s.pending, s.bank, token);
    if wallet !in s.shares || s.shares[wallet] < burned {
      assert WithdrawalPayout(s, units, true) == Ok(Refused(NotEnoughShares));
    } else {
      hide WithdrawalPayout, ProcessWithdrawal;
      PayoutSteps(s, units, true);
      if burned == 0 {
        ZeroSharesHaveNoValue(s.prices[token].value);
        assert MulFloor(s.prices[token].value, 0) == 0;
        NotPaid(s, units, true);
      } else {
        BurnKeepsMatch(s.shares, s.totals, wallet, burned, 0);
        if WithdrawalPayout(s, units, true).Ok? {
          PayoutSettles(s, units, true);
        } else {
          NotPaid(s, units, true);
        }
      }
    }
  }

  lemma NotPaid(s: Storage, units: Units, found: bool)
    requires s.decQueue.Head().Some? && s.decQueue.Head().value.item.Withdrawal?
    requires WithdrawalPayout(s, units, found).Err?
    ensures ProcessWithdrawal(s, units, found).Err?
  {
  }

  /** Withdrawals that are processed at all are processed when their market is found. */
  lemma FoundIsEnough(s: Storage, units: Units, found: bool)
    requires s.decQueue.Head().Some? && s.decQueue.Head().value.item.Withdrawal?
    requires ProcessWithdrawal(s, units, found).Ok?
    ensures ProcessWithdrawal(s, units, true).Ok?
  {
    assert WithdrawalPayout(s, units, true) == WithdrawalPayout(s, units, found);
  }

  // ----- Market items -----

  lemma FeeMonotone(collateral: nat, fee: nat, unit: Unit)
    requires collateral < fee && FloorDiv(fee, unit) <= MAX_UNITS
    ensures FeeCanExceed(collateral, unit)
  {
    FloorDivBounds(fee, unit);
    FloorDivBounds(collateral + 1, unit);
    CancelLt(FloorDiv(collateral + 1, unit), FloorDiv(fee, unit) + 1, unit);
  }

  /** The least crank fee above the collateral, for an item that cannot be sent without a price. */
  function FeeFor(s: Storage, token: Token): nat {
    if token in s.prices then 0 else TotalsAt(s.totals, token).collateral + 1
  }

  lemma NoFeeIsSent(unit: Unit)
    ensures Transfer(0, unit) == Ok(None)
  {
    RoundDownBounds(0, unit);
    FloorDivBounds(0, unit);
  }

  lemma IncMarketNeeds(s: Storage, units: Units, env: Env)
    requires s.incQueue.Head().Some? && s.incQueue.Head().value.item.IncMarket?
    requires SendInc(s, units, env).Ok?
    ensures var item := s.incQueue.Head().value.item;
            IncMarketStarts(s, item.token, item.action, units(item.token))
  {
    var item := s.incQueue.Head().value.item;
    if item.action.PaysCrankFee() && item.token !in s.prices {
      FeeMonotone(s.totals[item.token].collateral, IncCost(item.action, env).value, units(item.token));
    }
  }

  lemma IncMarketWorks(s: Storage, units: Units)
    requires s.incQueue.Head().Some? && s.incQueue.Head().value.item.IncMarket?
    requires var item := s.incQueue.Head().value.item;
             IncMarketStarts(s, item.token, item.action, units(item.token))
    ensures SendInc(s, units, Favourable(s, FeeFor(s, s.incQueue.Head().value.item.token))).Ok?
  {
    NoFeeIsSent(units(s.incQueue.Head().value.item.token));
  }

  lemma DecMarketNeeds(s: Storage, units: Units, env: Env)
    requires s.decQueue.Head().Some? && s.decQueue.Head().value.item.DecMarket?
    requires SendDec(s, units, env).Ok?
    ensures var item := s.decQueue.Head().value.item;
            DecMarketStarts(s, item.token, item.action, units(item.token))
  {
    var item := s.decQueue.Head().value.item;
    if !item.action.CarriesCollateral() && item.token !in s.prices {
      FeeMonotone(s.totals[item.token].collateral, DecCost(item.action, env).value, units(item.token));
    }
  }

  lemma DecMarketWorks(s: Storage, t: Trace, units: Units)
    requires Invariant(s, t) && s.decQueue.Head().Some? && s.decQueue.Head().value.item.DecMarket?
    requires var item := s.decQueue.Head().value.item;
             DecMarketStarts(s, item.token, item.action, units(item.token))
    ensures SendDec(s, units, Favourable(s, FeeFor(s, s.decQueue.Head().value.item.token))).Ok?
  {
    var item := s.decQueue.Head().value.item;
    NoFeeIsSent(units(item.token));
    assert FitsIn(s.totals, s.pending, s.bank, item.token);
  }

  // ----- Which waiting heads some work can serve -----

  lemma IncHeadNeeds(s: Storage, t: Trace, units: Units, env: Env)
    requires Invariant(s, t) && s.batch.NoBatch? && s.incQueue.Head().Some?
    requires Calm(env) && DoWork(s, units, env).Ok?
    ensures IncHeadCanWork(s, units)
  {
    hide ProcessDeposit, SendInc, CheckBalanceWork, RunRebalance, HandleDeferred, PriceToken;
    var id := IncId(s.incQueue.HeadId());
    assert GetWork(s, env) == IncHeadWork(s, env);
    match s.incQueue.Head().value.item
    case Deposit(funds, token) =>
      if ValidNow(s, token, id) {
        assert !s.incQueue.Busy();
        assert GetWork(s, env) == Ok(ProcessQueueItem(id));
        DepositMintsIff(s, t);
      } else {
        assert GetWork(s, env) == CheckBalanceWork(s, token, env);
        CheckNeedsExplained(s, token, env);
      }
    case IncMarket(token, action) =>
      if !s.incQueue.Busy() {
        assert GetWork(s, env) == Ok(ProcessQueueItem(id));
        IncMarketNeeds(s, units, env);
      }
  }

  lemma IncHeadWorks(s: Storage, t: Trace, units: Units)
    requires Invariant(s, t) && s.batch.NoBatch? && s.incQueue.Head().Some? && IncHeadCanWork(s, units)
    ensures DoWork(s, units, Favourable(s, FeeFor(s, s.incQueue.Head().value.item.token))).Ok?
  {
    hide ProcessDeposit, SendInc, CheckBalanceWork, RunRebalance, PriceToken;
    var env := Favourable(s, FeeFor(s, s.incQueue.Head().value.item.token));
    var id := IncId(s.incQueue.HeadId());
    match s.incQueue.Head().value.item
    case Deposit(funds, token) =>
      if ValidNow(s, token, id) {
        assert !s.incQueue.Busy();
        assert GetWork(s, env) == Ok(ProcessQueueItem(id));
        DepositMintsIff(s, t);
      } else {
        ExplainedWorks(s, t, token, units, env.crankFee.value);
        assert GetWork(s, env) == CheckBalanceWork(s, token, env);
      }
    case IncMarket(token, action) =>
      if s.incQueue.Busy() {
        assert GetWork(s, env) == Ok(HandleDeferredExecId);
      } else {
        assert GetWork(s, env) == Ok(ProcessQueueItem(id));
        IncMarketWorks(s, units);
      }
  }

  lemma DecHeadNeeds(s: Storage, t: Trace, units: Units, env: Env)
    requires Invariant(s, t) && s.batch.NoBatch? && s.incQueue.Head().None? && s.decQueue.Head().Some?
    requires Calm(env) && DoWork(s, units, env).Ok?
    ensures DecHeadCanWork(s, units)
  {
    hide ProcessWithdrawal, SendDec, CheckBalanceWork, RunRebalance, HandleDeferred, PriceToken;
    var id := DecId(s.decQueue.HeadId());
    match s.decQueue.Head().value.item
    case Withdrawal(burned, token) =>
      if ValidNow(s, token, id) {
        assert !s.decQueue.Busy();
        assert GetWork(s, env) == Ok(ProcessQueueItem(id));
        FoundIsEnough(s, units, env.found);
        WithdrawalPaysIff(s, t, units);
      } else {
        assert !s.decQueue.Busy() && s.replyExec.None?;
        assert GetWork(s, env) == CheckBalanceWork(s, token, env);
        CheckNeedsExplained(s, token, env);
      }
    case DecMarket(token, action) =>
      if !s.decQueue.Busy() {
        assert GetWork(s, env) == Ok(ProcessQueueItem(id));
        DecMarketNeeds(s, units, env);
      }
  }

  lemma DecHeadWorks(s: Storage, t: Trace, units: Units)
    requires Invariant(s, t) && s.batch.NoBatch? && s.incQueue.Head().None? && s.decQueue.Head().Some?
    requires DecHeadCanWork(s, units)
    ensures DoWork(s, units, Favourable(s, FeeFor(s, s.decQueue.Head().value.item.token))).Ok?
  {
    hide ProcessWithdrawal, SendDec, CheckBalanceWork, RunRebalance, PriceToken;
    var env := Favourable(s, FeeFor(s, s.decQueue.Head().value.item.token));
    var id := DecId(s.decQueue.HeadId());
    match s.decQueue.Head().value.item
    case Withdrawal(burned, token) =>
      if ValidNow(s, token, id) {
        assert !s.decQueue.Busy();
        assert GetWork(s, env) == Ok(ProcessQueueItem(id));
        WithdrawalPaysIff(s, t, units);
      } else {
        assert !s.decQueue.Busy() && s.replyExec.None?;
        ExplainedWorks(s, t, token, units, env.crankFee.value);
        assert GetWork(s, env) == CheckBalanceWork(s, token, env);
      }
    case DecMarket(token, action) =>
      if s.decQueue.Busy() {
        assert GetWork(s, env) == Ok(HandleDeferredExecId);
      } else {
        assert GetWork(s, env) == Ok(ProcessQueueItem(id));
        DecMarketWorks(s, t, units);
      }
  }

  /** With an item waiting and no batch in progress, some chain and market answers let work succeed if and only
      if the head has what its kind needs. */
  lemma WorkIff(s: Storage, t: Trace, units: Units)
    requires Invariant(s, t) && s.batch.NoBatch? && CurrentElement(s).Some?
    ensures CanWork(s, units) <==> exists env: Env :: Calm(env) && DoWork(s, units, env).Ok?
  {
    forall env: Env | Calm(env) && DoWork(s, units, env).Ok?
      ensures CanWork(s, units)
    {
      if s.incQueue.Head().Some? {
        IncHeadNeeds(s, t, units, env);
      } else {
        DecHeadNeeds(s, t, units, env);
      }
    }
    if CanWork(s, units) {
      if s.incQueue.Head().Some? {
        IncHeadWorks(s, t, units);
        assert Calm(Favourable(s, FeeFor(s, s.incQueue.Head().value.item.token)));
      } else {
        DecHeadWorks(s, t, units);
        assert Calm(Favourable(s, FeeFor(s, s.decQueue.Head().value.item.token)));
      }
    }
  }

  // ----- Heads that nothing can serve -----

  /** The increase queue's head can never be processed: a deposit of a priced token that has arrived during an
      action of the decrease queue, a deposit that buys nothing at the price found for it, or a market item that
      cannot be started. */
  predicate Frozen(s: Storage, units: Units) {
    && s.batch.NoBatch? && s.incQueue.Head().Some?
    && match s.incQueue.Head().value.item
       case Deposit(funds, token) =>
         && token in s.prices
         && if s.prices[token].status == ValidFor(IncId(s.incQueue.HeadId())) then
              !Mints(s.prices[token].value, funds, TotalsAt(s.totals, token))
            else s.replyExec.Some?
       case IncMarket(token, action) => !s.incQueue.Busy() && !IncMarketStarts(s, token, action, units(token))
  }

  /** No work but loading markets succeeds. */
  lemma FrozenWorks(s: Storage, t: Trace, units: Units, env: Env)
    requires Invariant(s, t) && Frozen(s, units) && !env.loaderDue
    ensures DoWork(s, units, env).Err?
  {
    hide ProcessDeposit, SendInc, CheckBalanceWork, RunRebalance, HandleDeferred, PriceToken;
    var id := IncId(s.incQueue.HeadId());
    assert GetWork(s, env) == IncHeadWork(s, env);
    match s.incQueue.Head().value.item
    case Deposit(funds, token) =>
      if s.prices[token].status == ValidFor(id) {
        assert !s.incQueue.Busy();
        assert GetWork(s, env) == Ok(ProcessQueueItem(id));
        DepositMintsIff(s, t);
      }
    case IncMarket(token, action) =>
      assert GetWork(s, env) == Ok(ProcessQueueItem(id));
      if SendInc(s, units, env).Ok? {
        IncMarketNeeds(s, units, env);
      }
  }

  /** Pools, shares, prices and both queues' heads are as they were. */
  ghost predicate Held(s: Storage, after: Storage) {
    && after.totals == s.totals && after.shares == s.shares && after.prices == s.prices
    && after.replyExec == s.replyExec && after.batch == s.batch
    && after.marks == s.marks && after.cursors == s.cursors
    && after.incQueue.HeadId() == s.incQueue.HeadId() && after.decQueue.HeadId() == s.decQueue.HeadId()
    && (s.incQueue.Head().Some? ==> after.incQueue.Head() == s.incQueue.Head())
  }

  lemma DepositHolds(s: Storage, t: Trace, sender: string, funds: nat, token: Token, found: bool, after: Storage)
    requires Flight(s, t) && QueueDeposit(s, sender, funds, token, found) == Ok(after)
    ensures Held(s, after) && after.incQueue == s.incQueue.Push(Deposit(funds, token), sender)
  {
    PushKeepsFrontier(s.incQueue, Deposit(funds, token), sender);
  }

  lemma LeaderHolds(s: Storage, t: Trace, leader: string, token: Token, action: LeaderAction, collateral: Option<nat>,
                    found: bool, after: Storage)
    requires Flight(s, t) && QueueLeaderMessage(s, leader, token, action, collateral, found) == Ok(after)
    ensures Held(s, after) && LeaderItem(action, collateral).Ok?
    ensures after.incQueue == match LeaderItem(action, collateral).value
                              case QueueInc(item) => s.incQueue.Push(IncMarket(token, item), leader)
                              case _ => s.incQueue
  {
    hide QueueLeaderMessage;
    LeaderQueues(s, leader, token, action, collateral, found, after);
    match LeaderItem(action, collateral).value
    case QueueInc(item) => PushKeepsFrontier(s.incQueue, IncMarket(token, item), leader);
    case QueueDec(_) =>
    case QueueNothing =>
  }

  lemma MessageHolds(s: Storage, t: Trace, msg: Message, units: Units, env: Env, after: Storage)
    requires Flight(s, t) && !msg.MsgDoWork? && Handle(s, msg, units, env) == Ok(after)
    ensures Held(s, after)
  {
    hide QueueDeposit, QueueLeaderMessage;
    match msg
    case MsgDeposit(sender, funds, token) => DepositHolds(s, t, sender, funds, token, env.found, after);
    case MsgLeader(leader, token, action, collateral) =>
      LeaderHolds(s, t, leader, token, action, collateral, env.found, after);
    case MsgWithdraw(_, _, _) =>
    case MsgClaim(_, _) =>
    case MsgInflow(_, _) =>
  }

  lemma FrozenStep(s: Storage, t: Trace, msg: Message, units: Units, env: Env)
    requires Invariant(s, t) && Frozen(s, units)
    ensures Held(s, Step(s, msg, units, env)) && Frozen(Step(s, msg, units, env), units)
  {
    hide IncMarketStarts, Mints;
    if Handle(s, msg, units, env).Ok? {
      if msg.MsgDoWork? {
        if !env.loaderDue {
          FrozenWorks(s, t, units, env);
        }
      } else {
        MessageHolds(s, t, msg, units, env, Step(s, msg, units, env));
        HeldStaysFrozen(s, Step(s, msg, units, env), units);
      }
    }
  }

  lemma HeldStaysFrozen(s: Storage, after: Storage, units: Units)
    requires Held(s, after) && s.incQueue.Head().Some?
    ensures Frozen(after, units) <==> Frozen(s, units)
  {
  }

  /** Once frozen, always frozen: in every run the pools, the shares, the prices and the heads of both queues
      stay as they are, and no work but loading markets succeeds. */
  lemma {:induction false} FrozenForever(s: Storage, t: Trace, calls: seq<Call>, units: Units)
    requires Invariant(s, t) && Frozen(s, units)
    ensures var after := Run(s, calls, units);
            && Held(s, after) && Frozen(after, units)
            && forall env: Env :: !env.loaderDue ==> DoWork(after, units, env).Err?
  {
    hide Frozen, DoWork, Step;
    var after := Run(s, calls, units);
    if calls != [] {
      var before, last := calls[..|calls| - 1], calls[|calls| - 1];
      FrozenForever(s, t, before, units);
      RunKeeps(s, t, before, units);
      FrozenStep(Run(s, before, units), RunTrace(s, t, before, units), last.0, units, last.1);
    }
    RunKeeps(s, t, calls, units);
    forall env: Env | !env.loaderDue
      ensures DoWork(after, units, env).Err?
    {
      FrozenWorks(after, RunTrace(s, t, calls, units), units, env);
    }
  }

  // ----- Exactly what is blocked, and what blocks -----

  /** Collateral that arrives explains a ledger that exceeds the bank's balance. */
  lemma InflowExplains(s: Storage, t: Trace, token: Token, units: Units, env: Env)
    requires Invariant(s, t) && At(s.bank, token) <= Booked(s, token) <= MAX_ATOMS
    ensures var msg := MsgInflow(Booked(s, token) - At(s.bank, token), token);
            var after := Step(s, msg, units, env);
            Held(s, after) && Explained(after, token) && Invariant(after, t)
  {
    var msg := MsgInflow(Booked(s, token) - At(s.bank, token), token);
    assert Handle(s, msg, units, env) == Receive(s, token, msg.funds);
    ReceiveKeeps(s, t, token, msg.funds);
  }

  /** Some run, and then some work other than loading markets, succeeds. */
  ghost predicate WorkToCome(s: Storage, units: Units) {
    exists calls: seq<Call>, env: Env :: !env.loaderDue && DoWork(Run(s, calls, units), units, env).Ok?
  }

  lemma OneCall(s: Storage, msg: Message, units: Units, env: Env)
    ensures Run(s, [(msg, env)], units) == Step(s, msg, units, env)
    ensures Run(s, [], units) == s
  {
    var calls := [(msg, env)];
    assert calls[..|calls| - 1] == [];
  }

  lemma HeadWorksNow(s: Storage, t: Trace, units: Units, calls: seq<Call>, before: Storage)
    requires s == Run(before, calls, units)
    requires Invariant(s, t) && s.batch.NoBatch? && s.incQueue.Head().Some? && IncHeadCanWork(s, units)
    ensures WorkToCome(before, units)
  {
    hide DoWork, IncHeadCanWork;
    IncHeadWorks(s, t, units);
    var env := Favourable(s, FeeFor(s, s.incQueue.Head().value.item.token));
    assert !env.loaderDue && DoWork(Run(before, calls, units), units, env).Ok?;
  }

  /** With an item waiting in the increase queue and no batch in progress, no work ever succeeds again, in any
      run and whatever chain and market answer, if and only if the head is frozen. The amounts of a deposit's
      token must add up to a decimal. */
  lemma BlockedIffFrozen(s: Storage, t: Trace, units: Units)
    requires Invariant(s, t) && s.batch.NoBatch? && s.incQueue.Head().Some?
    requires s.incQueue.Head().value.item.Deposit? ==> Booked(s, s.incQueue.Head().value.item.token) <= MAX_ATOMS
    ensures Frozen(s, units) <==> !WorkToCome(s, units)
  {
    hide DoWork, Run, Invariant;
    if Frozen(s, units) {
      forall calls: seq<Call>, env: Env | !env.loaderDue
        ensures DoWork(Run(s, calls, units), units, env).Err?
      {
        FrozenForever(s, t, calls, units);
      }
    } else {
      var token := s.incQueue.Head().value.item.token;
      if IncHeadCanWork(s, units) {
        OneCall(s, MsgDoWork, units, Favourable(s, 0));
        HeadWorksNow(s, t, units, [], s);
      } else {
        var msg := MsgInflow(Booked(s, token) - At(s.bank, token), token);
        InflowExplains(s, t, token, units, Favourable(s, 0));
        OneCall(s, msg, units, Favourable(s, 0));
        HeadWorksNow(Step(s, msg, units, Favourable(s, 0)), t, units, [(msg, Favourable(s, 0))], s);
      }
    }
  }

  lemma FirstPushIsHead<T>(q: Queue<T>, item: T, wallet: string)
    requires q.Frontier() && q.Head().None?
    ensures q.Push(item, wallet).HeadId() == q.HeadId() == Next(q.lastInserted)
    ensures q.Push(item, wallet).Head() == Some(Entry(item, wallet, NotProcessed))
  {
    assert q.SlotInOrder(q.HeadId());
  }

  /** A deposit freezes the contract if and only if it was frozen, or the deposit is the first in the increase
      queue, of a token already priced, while an action is in flight. */
  lemma DepositFreezes(s: Storage, t: Trace, units: Units, sender: string, funds: nat, token: Token, found: bool,
                       after: Storage)
    requires Invariant(s, t) && QueueDeposit(s, sender, funds, token, found) == Ok(after)
    ensures Frozen(after, units) <==>
              || Frozen(s, units)
              || (s.batch.NoBatch? && s.incQueue.Head().None? && s.replyExec.Some? && token in s.prices)
  {
    hide QueueDeposit, Mints;
    DepositHolds(s, t, sender, funds, token, found, after);
    if s.incQueue.Head().Some? {
      HeldStaysFrozen(s, after, units);
    } else {
      FirstPushIsHead(s.incQueue, Deposit(funds, token), sender);
      assert KnownIn(s.prices, s.incQueue.Reached(), s.decQueue.Reached(), token);
    }
  }

  /** A leader's message freezes the contract if and only if it was frozen, or the message is the first item of
      the increase queue and cannot be started. */
  lemma LeaderFreezes(s: Storage, t: Trace, units: Units, leader: string, token: Token, action: LeaderAction,
                      collateral: Option<nat>, found: bool, after: Storage)
    requires Invariant(s, t) && QueueLeaderMessage(s, leader, token, action, collateral, found) == Ok(after)
    ensures LeaderItem(action, collateral).Ok?
    ensures var queued := LeaderItem(action, collateral).value;
            Frozen(after, units) <==>
              || Frozen(s, units)
              || (s.batch.NoBatch? && s.incQueue.Head().None? && queued.QueueInc?
                  && !IncMarketStarts(s, token, queued.inc, units(token)))
  {
    hide QueueLeaderMessage;
    LeaderHolds(s, t, leader, token, action, collateral, found, after);
    if s.incQueue.Head().Some? {
      HeldStaysFrozen(s, after, units);
    } else {
      match LeaderItem(action, collateral).value
      case QueueInc(item) => FirstPushIsHead(s.incQueue, IncMarket(token, item), leader);
      case QueueDec(_) =>
      case QueueNothing =>
    }
  }

  lemma OthersHold(s: Storage, msg: Message, units: Units, env: Env, after: Storage)
    requires Handle(s, msg, units, env) == Ok(after) && (msg.MsgWithdraw? || msg.MsgClaim? || msg.MsgInflow?)
    ensures after.incQueue == s.incQueue && after.totals == s.totals && after.prices == s.prices
    ensures after.replyExec == s.replyExec && after.batch == s.batch
  {
    match msg
    case MsgWithdraw(_, _, _) =>
    case MsgClaim(_, _) =>
    case MsgInflow(_, _) =>
  }

  /** No other message freezes it. */
  lemma OthersDoNotFreeze(s: Storage, t: Trace, msg: Message, units: Units, env: Env, after: Storage)
    requires Invariant(s, t) && Handle(s, msg, units, env) == Ok(after)
    requires msg.MsgWithdraw? || msg.MsgClaim? || msg.MsgInflow?
    ensures Frozen(after, units) <==> Frozen(s, units)
  {
    hide Handle, Invariant;
    OthersHold(s, msg, units, env, after);
  }

  // ----- Which work freezes -----

  /** The item after the head of the increase queue is a deposit of a priced token while `reply` is awaited, or a
      market item that cannot be started, unless the head is a deposit that brings its token's totals. */
  predicate NextStuck(s: Storage, units: Units, reply: Option<nat>)
    requires s.incQueue.Head().Some?
  {
    var head, next := s.incQueue.Head().value.item, s.incQueue.HeadId() + 1;
    && next in s.incQueue.items
    && match s.incQueue.items[next].item
       case Deposit(_, token) => token in s.prices && reply.Some?
       case IncMarket(token, action) =>
         !IncMarketStarts(s, token, action, units(token)) && !(head.Deposit? && head.token == token)
  }

  /** The token that a deposit at the head brings into the totals. */
  function Joined(s: Storage): Option<Token>
    requires s.incQueue.Head().Some?
  {
    if s.incQueue.Head().value.item.Deposit? then Some(s.incQueue.Head().value.item.token) else None
  }

  /** Once the head has settled, the contract is frozen exactly if the next item is stuck. */
  lemma SettledFreezes(s: Storage, t: Trace, units: Units, after: Storage, status: ProcessingStatus)
    requires Invariant(s, t) && s.batch.NoBatch? && s.incQueue.Head().Some?
    requires after.incQueue == s.incQueue.Settle(status) && after.batch.NoBatch?
    requires after.prices.Keys == s.prices.Keys
    requires forall token: Token :: ValidStays(s, after, token)
    requires forall token: Token :: TotalsStay(s, after, token, Joined(s))
    requires s.incQueue.Head().value.item.Deposit? ==> s.incQueue.Head().value.item.token in s.prices
    ensures Frozen(after, units) <==> NextStuck(s, units, after.replyExec)
  {
    var next := s.incQueue.HeadId() + 1;
    assert s.incQueue.SlotInOrder(next) && s.incQueue.SlotInOrder(s.incQueue.HeadId());
    if next in s.incQueue.items {
      assert after.incQueue.Head() == Some(s.incQueue.items[next]) && !after.incQueue.Busy();
      var token := s.incQueue.items[next].item.token;
      assert KnownIn(s.prices, s.incQueue.Reached(), s.decQueue.Reached(), token);
      assert ValidStays(s, after, token);
      assert TotalsStay(s, after, token, Joined(s));
    }
  }

  /** A price stays what it was, or is outdated. */
  ghost predicate ValidStays(s: Storage, after: Storage, token: Token) {
    token in after.prices && after.prices[token].status.ValidFor? ==>
      token in s.prices && after.prices[token] == s.prices[token]
  }

  /** A token has totals as before, and the same if it is not priced; one that a deposit joins has them. */
  ghost predicate TotalsStay(s: Storage, after: Storage, token: Token, joined: Option<Token>) {
    if joined == Some(token) then token in after.totals
    else
      && (token in after.totals <==> token in s.totals)
      && (token in s.totals && token !in s.prices ==> after.totals[token] == s.totals[token])
  }

  lemma DepositFreezesNext(s: Storage, t: Trace, units: Units, after: Storage)
    requires Invariant(s, t) && s.batch.NoBatch?
    requires s.incQueue.Head().Some? && s.incQueue.Head().value.item.Deposit? && ProcessDeposit(s) == Ok(after)
    ensures after.incQueue == s.incQueue.Settle(Finished)
    ensures Frozen(after, units) <==> NextStuck(s, units, s.replyExec)
  {
    hide Frozen, NextStuck;
    forall token: Token
      ensures ValidStays(s, after, token)
    {
    }
    forall token: Token
      ensures TotalsStay(s, after, token, Joined(s))
    {
    }
    SettledFreezes(s, t, units, after, Finished);
  }

  lemma SendingFreezesNext(s: Storage, t: Trace, units: Units, env: Env, after: Storage, dispatch: Dispatch)
    requires Invariant(s, t) && s.batch.NoBatch? && !s.incQueue.Busy()
    requires s.incQueue.Head().Some? && s.incQueue.Head().value.item.IncMarket?
    requires IncOutcome(s, units, env, after, dispatch)
    ensures Frozen(after, units) <==> !dispatch.Sent? && NextStuck(s, units, s.replyExec)
    ensures dispatch.Sent? <==> after.incQueue.HeadId() == s.incQueue.HeadId()
  {
    hide NextStuck;
    if !dispatch.Sent? {
      hide Frozen, Invariant;
      forall token: Token
        ensures ValidStays(s, after, token)
      {
      }
      forall token: Token
        ensures TotalsStay(s, after, token, Joined(s))
      {
      }
      var status := after.incQueue.items[s.incQueue.HeadId()].status;
      SettledFreezes(s, t, units, after, status);
    }
  }

  lemma DeferredFreezesNext(s: Storage, t: Trace, units: Units, env: Env, after: Storage)
    requires Invariant(s, t) && s.batch.NoBatch? && HandleDeferred(s, env) == Ok(after)
    ensures Frozen(after, units) <==> s.incQueue.Busy() && NextStuck(s, units, None)
  {
    hide Invariant, NextStuck;
    DeferredSettles(s, env, after);
    if s.incQueue.Head().Some? {
      hide Frozen;
      assert forall token: Token :: ValidStays(s, after, token);
      assert forall token: Token :: TotalsStay(s, after, token, Joined(s));
      SettledFreezes(s, t, units, after, ExecResult(env).value);
    }
  }

  /** A pricing freezes exactly if the head is a deposit and the value found buys it nothing. */
  predicate PricedOut(s: Storage, token: Token, env: Env) {
    && s.incQueue.Head().Some? && s.incQueue.Head().value.item.Deposit?
    && match Reprice(s, token, ValidFor(IncId(s.incQueue.HeadId())), env)
       case Ok(Some(value)) => !Mints(value, s.incQueue.Head().value.item.funds, TotalsAt(s.totals, token))
       case _ => false
  }

  lemma PricingFreezes(s: Storage, t: Trace, units: Units, token: Token, env: Env, after: Storage)
    requires Invariant(s, t) && s.batch.NoBatch? && PriceToken(s, token, env) == Ok(after)
    requires s.incQueue.Head().Some? ==>
               && s.incQueue.Head().value.item.Deposit? && s.incQueue.Head().value.item.token == token
               && !ValidNow(s, token, IncId(s.incQueue.HeadId()))
               && (token in s.prices ==> s.replyExec.None?)
    ensures Frozen(after, units) <==> PricedOut(s, token, env)
  {
    hide Mints, Invariant;
    if s.incQueue.Head().Some? {
      var now := ValidFor(IncId(s.incQueue.HeadId()));
      match Reprice(s, token, now, env).value
      case Some(value) => assert after.prices[token] == LpTokenValue(value, now);
      case None => assert after.prices == s.prices;
    }
  }

  /** Which head, or none, a valuation or a rebalance chosen outside a batch is for. */
  lemma ValuingHead(s: Storage, t: Trace, env: Env, token: Token)
    requires Invariant(s, t) && s.batch.NoBatch? && GetWork(s, env).Ok? && s.incQueue.Head().Some?
    requires var work := GetWork(s, env).value;
             (work.ComputeLpTokenValue? || work.Rebalance? || work.ResetStats?) && work.token == token
    ensures var item := s.incQueue.Head().value.item;
            && item.Deposit? && item.token == token && !ValidNow(s, token, IncId(s.incQueue.HeadId()))
            && (token in s.prices ==> s.replyExec.None?)
  {
    assert GetWork(s, env) == IncHeadWork(s, env);
  }

  lemma RebalanceDoesNotFreeze(s: Storage, units: Units, token: Token, requested: nat, env: Env, after: Storage)
    requires RunRebalance(s, token, requested, env) == Ok(after)
    requires s.incQueue.Head().Some? ==>
               && s.incQueue.Head().value.item.Deposit? && s.incQueue.Head().value.item.token == token
               && !ValidNow(s, token, IncId(s.incQueue.HeadId()))
               && (token in s.prices ==> s.replyExec.None?)
    ensures !Frozen(after, units)
  {
    hide Settled;
  }

  /** A unit of work outside a batch freezes the contract if and only if it settles the head of the increase queue
      and the next item is stuck, or it finds a value at which the deposit at the head buys nothing. Loading
      markets changes nothing. */
  lemma WorkFreezes(s: Storage, t: Trace, units: Units, env: Env, after: Storage)
    requires Invariant(s, t) && s.batch.NoBatch? && DoWork(s, units, env) == Ok(after)
    ensures GetWork(s, env).Ok? && (GetWork(s, env).value.ProcessQueueItem? && GetWork(s, env).value.id.IncId? ==>
                                      s.incQueue.Head().Some?)
    ensures Frozen(after, units) <==>
              match GetWork(s, env).value
              case LoadMarket => Frozen(s, units)
              case ProcessQueueItem(IncId(n)) => after.incQueue.HeadId() == n + 1 && NextStuck(s, units, s.replyExec)
              case HandleDeferredExecId => s.incQueue.Busy() && NextStuck(s, units, None)
              case ComputeLpTokenValue(token) => PricedOut(s, token, env)
              case _ => false
  {
    WorkFits(s, t, env);
    WorkHasHead(s, env);
    hide GetWork, ProcessItem, HandleDeferred, PriceToken, RunRebalance, Invariant, NextStuck, PricedOut;
    match GetWork(s, env).value
    case NoWork =>
    case LoadMarket =>
    case ResetStats(token) =>
      if s.incQueue.Head().Some? {
        ValuingHead(s, t, env, token);
      }
    case ComputeLpTokenValue(token) =>
      if s.incQueue.Head().Some? {
        ValuingHead(s, t, env, token);
      }
      PricingFreezes(s, t, units, token, env, after);
    case Rebalance(token, amount) =>
      if s.incQueue.Head().Some? {
        ValuingHead(s, t, env, token);
      }
      RebalanceDoesNotFreeze(s, units, token, amount, env, after);
    case HandleDeferredExecId => DeferredFreezesNext(s, t, units, env, after);
    case ProcessQueueItem(id) =>
      ItemAdvances(s, id, units, env, after);
      ProcessingFreezes(s, t, id, units, env, after);
  }

  lemma ProcessingFreezes(s: Storage, t: Trace, id: QueueId, units: Units, env: Env, after: Storage)
    requires Invariant(s, t) && s.batch.NoBatch? && HeadThere(s, ProcessQueueItem(id))
    requires if id.IncId? then !s.incQueue.Busy() else s.incQueue.Head().None?
    requires ProcessItem(s, id, units, env) == Ok(after) && Advances(s, ProcessQueueItem(id), after)
    ensures Frozen(after, units) <==>
              && id.IncId? && after.incQueue.HeadId() == s.incQueue.HeadId() + 1
              && NextStuck(s, units, s.replyExec)
  {
    hide ProcessDeposit, ProcessWithdrawal, SendInc, SendDec, Invariant, NextStuck, IncOutcome;
    if id.IncId? {
      hide Frozen;
      if s.incQueue.Head().value.item.Deposit? {
        DepositFreezesNext(s, t, units, after);
      } else {
        var sent := SendInc(s, units, env).value;
        SendIncOutcome(s, units, env);
        SendingFreezesNext(s, t, units, env, after, sent.1);
      }
    }
  }

  /** Inside a batch only its end can freeze: exactly if the head is stuck with the totals and prices it leaves. */
  lemma BatchFreezes(s: Storage, units: Units, env: Env, after: Storage)
    requires !s.batch.NoBatch? && DoWork(s, units, env) == Ok(after)
    ensures Frozen(after, units) <==>
              after.batch.NoBatch?
              && Frozen(s.(batch := NoBatch, totals := after.totals, prices := after.prices), units)
  {
    hide Settled, Reprice, Mints;
    match s.batch
    case BatchRebalance(token, balance) =>
      assert RunRebalance(s, token, balance, env) == Ok(after);
    case BatchLpTokenValue(token) =>
      assert PriceToken(s, token, env) == Ok(after);
  }

  /** While an action of the decrease queue is in flight, no item of the increase queue is handed to its market:
      work on one fails if the market accepts it, and otherwise settles it as failed. */
  lemma NoSecondFlight(s: Storage, t: Trace, units: Units, env: Env)
    requires Invariant(s, t) && s.decQueue.Busy()
    requires s.incQueue.Head().Some? && s.incQueue.Head().value.item.IncMarket? && SendInc(s, units, env).Ok?
    ensures SendInc(s, units, env).value.1.Short? || SendInc(s, units, env).value.1.RejectedByMarket?
    ensures SendInc(s, units, env).value.0.incQueue.HeadId() == s.incQueue.HeadId() + 1
    ensures SendInc(s, units, env).value.0.replyExec == s.replyExec
  {
    SendIncOutcome(s, units, env);
  }
}
