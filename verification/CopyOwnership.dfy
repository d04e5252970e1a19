/** Whose shares they are: over any run of the copy-trading contract, each wallet holds what was minted for its own
    deposits, less what was burned for its own withdrawals. */
module CopyOwnership {
  import opened Wrappers
  import opened Decimals
  import opened MapSums
  import opened Queues
  import opened CopyLedger
  import opened CopyModel
  import opened CopyInvariant
  import opened CopyEffects
  import opened CopyRuns

  /** The price at which each deposit was processed, by its id. */
  type Rates = map<nat, nat>

  /** The shares minted for a wallet's finished deposit. */
  function MintedTo(wallet: Wallet, rates: Rates): (nat, Entry<IncItem>) -> nat {
    (id: nat, entry: Entry<IncItem>) =>
      if entry.item.Deposit? && entry.status.Finished? && Wallet(entry.item.token, entry.wallet) == wallet
         && id in rates && rates[id] > 0
      then DivFloor(entry.item.funds, rates[id]) else 0
  }

  /** The shares burned for a wallet's finished withdrawal. */
  function BurnedBy(wallet: Wallet): (nat, Entry<DecItem>) -> nat {
    (id: nat, entry: Entry<DecItem>) =>
      if entry.item.Withdrawal? && entry.status.Finished? && Wallet(entry.item.token, entry.wallet) == wallet
      then entry.item.tokens else 0
  }

  ghost predicate OwnedBy(shares: map<Wallet, nat>, inc: map<nat, Entry<IncItem>>, dec: map<nat, Entry<DecItem>>,
                          rates: Rates, wallet: Wallet) {
    SharesAt(shares, wallet) + Sum(dec, BurnedBy(wallet)) == Sum(inc, MintedTo(wallet, rates))
  }

  ghost predicate Owned(s: Storage, rates: Rates) {
    forall wallet: Wallet :: OwnedBy(s.shares, s.incQueue.items, s.decQueue.items, rates, wallet)
  }

  // ----- What items count for -----

  lemma {:induction false} SumSame<K(!new), V(!new)>(m: map<K, V>, weight: (K, V) -> nat, other: (K, V) -> nat)
    requires forall k | k in m :: weight(k, m[k]) == other(k, m[k])
    ensures Sum(m, weight) == Sum(m, other)
    decreases |m|
  {
    if m != map[] {
      var k :| k in m;
      SumTake(m, weight, k);
      SumTake(m, other, k);
      SumSame(m - {k}, weight, other);
    }
  }

  /** An item that is new, or not finished before nor after, counts for nobody. */
  lemma IncEntryCounts(items: map<nat, Entry<IncItem>>, id: nat, entry: Entry<IncItem>, rates: Rates, wallet: Wallet)
    requires id in items ==> !items[id].status.Finished?
    ensures Sum(items[id := entry], MintedTo(wallet, rates))
            == Sum(items, MintedTo(wallet, rates)) + MintedTo(wallet, rates)(id, entry)
  {
    SumUpdate(items, MintedTo(wallet, rates), id, entry);
  }

  lemma DecEntryCounts(items: map<nat, Entry<DecItem>>, id: nat, entry: Entry<DecItem>, wallet: Wallet)
    requires id in items ==> !items[id].status.Finished?
    ensures Sum(items[id := entry], BurnedBy(wallet)) == Sum(items, BurnedBy(wallet)) + BurnedBy(wallet)(id, entry)
  {
    SumUpdate(items, BurnedBy(wallet), id, entry);
  }

  /** A rate recorded for an item not finished changes no count. */
  lemma RateCounts(items: map<nat, Entry<IncItem>>, id: nat, rate: nat, rates: Rates, wallet: Wallet)
    requires id in items ==> !items[id].status.Finished?
    ensures Sum(items, MintedTo(wallet, rates[id := rate])) == Sum(items, MintedTo(wallet, rates))
  {
    SumSame(items, MintedTo(wallet, rates[id := rate]), MintedTo(wallet, rates));
  }

  // ----- What a call does to the counts -----

  /** The queue changes at most in one item, which was not finished and counts for nobody now. */
  ghost predicate IncCountsNothing(items: map<nat, Entry<IncItem>>, after: map<nat, Entry<IncItem>>) {
    after == items || exists id: nat, entry: Entry<IncItem> :: IncUncounted(items, after, id, entry)
  }

  ghost predicate IncUncounted(items: map<nat, Entry<IncItem>>, after: map<nat, Entry<IncItem>>, id: nat,
                               entry: Entry<IncItem>) {
    && after == items[id := entry] && (id in items ==> !items[id].status.Finished?)
    && !(entry.item.Deposit? && entry.status.Finished?)
  }

  ghost predicate DecCountsNothing(items: map<nat, Entry<DecItem>>, after: map<nat, Entry<DecItem>>) {
    after == items || exists id: nat, entry: Entry<DecItem> :: DecUncounted(items, after, id, entry)
  }

  ghost predicate DecUncounted(items: map<nat, Entry<DecItem>>, after: map<nat, Entry<DecItem>>, id: nat,
                               entry: Entry<DecItem>) {
    && after == items[id := entry] && (id in items ==> !items[id].status.Finished?)
    && !(entry.item.Withdrawal? && entry.status.Finished?)
  }

  /** Nothing that a call does to the queues counts for a wallet. */
  ghost predicate Uncounted(s: Storage, after: Storage) {
    && after.shares == s.shares && IncCountsNothing(s.incQueue.items, after.incQueue.items)
    && DecCountsNothing(s.decQueue.items, after.decQueue.items)
  }

  lemma CountsNothing(s: Storage, after: Storage, rates: Rates)
    requires Owned(s, rates) && Uncounted(s, after)
    ensures Owned(after, rates)
  {
    forall wallet: Wallet
      ensures OwnedBy(after.shares, after.incQueue.items, after.decQueue.items, rates, wallet)
    {
      assert OwnedBy(s.shares, s.incQueue.items, s.decQueue.items, rates, wallet);
      if after.incQueue.items != s.incQueue.items {
        var id, entry :| IncUncounted(s.incQueue.items, after.incQueue.items, id, entry);
        IncEntryCounts(s.incQueue.items, id, entry, rates, wallet);
      }
      if after.decQueue.items != s.decQueue.items {
        var id, entry :| DecUncounted(s.decQueue.items, after.decQueue.items, id, entry);
        DecEntryCounts(s.decQueue.items, id, entry, wallet);
      }
    }
  }

  lemma DepositCounts(s: Storage, after: Storage, rates: Rates)
    requires Owned(s, rates) && s.incQueue.Frontier()
    requires First(s.incQueue) in s.incQueue.items && s.incQueue.items[First(s.incQueue)].item.Deposit?
    requires DepositDone(s, after)
    ensures Owned(after, rates[First(s.incQueue) := s.prices[s.incQueue.items[First(s.incQueue)].item.token].value])
  {
    var id := First(s.incQueue);
    var entry := s.incQueue.items[id];
    var rate := s.prices[entry.item.token].value;
    var now := rates[id := rate];
    HeadIsFirst(s.incQueue);
    assert s.incQueue.SlotInOrder(id);
    forall wallet: Wallet
      ensures OwnedBy(after.shares, after.incQueue.items, after.decQueue.items, now, wallet)
    {
      assert OwnedBy(s.shares, s.incQueue.items, s.decQueue.items, rates, wallet);
      RateCounts(s.incQueue.items, id, rate, rates, wallet);
      IncEntryCounts(s.incQueue.items, id, Entry(entry.item, entry.wallet, Finished), now, wallet);
    }
  }

  lemma WithdrawalCounts(s: Storage, after: Storage, units: Units, rates: Rates)
    requires Owned(s, rates) && s.decQueue.Frontier()
    requires First(s.decQueue) in s.decQueue.items && s.decQueue.items[First(s.decQueue)].item.Withdrawal?
    requires WithdrawalDone(s, after, units)
    ensures Owned(after, rates)
  {
    var id := First(s.decQueue);
    var entry := s.decQueue.items[id];
    HeadIsFirst(s.decQueue);
    assert s.decQueue.SlotInOrder(id);
    forall wallet: Wallet
      ensures OwnedBy(after.shares, after.incQueue.items, after.decQueue.items, rates, wallet)
    {
      assert OwnedBy(s.shares, s.incQueue.items, s.decQueue.items, rates, wallet);
      DecEntryCounts(s.decQueue.items, id, after.decQueue.items[id], wallet);
    }
  }

  /** The rate a unit of work records: that of the deposit it processes. */
  ghost function RatesAfter(s: Storage, rates: Rates, msg: Message, units: Units, env: Env): Rates {
    var id := First(s.incQueue);
    if msg.MsgDoWork? && DoWork(s, units, env).Ok? && GetWork(s, env) == Ok(ProcessQueueItem(IncId(id)))
       && id in s.incQueue.items && s.incQueue.items[id].item.Deposit? && s.incQueue.items[id].item.token in s.prices
    then rates[id := s.prices[s.incQueue.items[id].item.token].value] else rates
  }

  // ----- One call -----

  lemma AppendedInc(queue: Queue<IncItem>, after: Queue<IncItem>, item: IncItem, wallet: string)
    requires queue.Frontier() && Appended(queue, after, item, wallet)
    ensures IncCountsNothing(queue.items, after.items)
  {
    var id := Next(queue.lastInserted);
    assert queue.SlotInOrder(id);
    assert IncUncounted(queue.items, after.items, id, Entry(item, wallet, NotProcessed));
  }

  lemma AppendedDec(queue: Queue<DecItem>, after: Queue<DecItem>, item: DecItem, wallet: string)
    requires queue.Frontier() && Appended(queue, after, item, wallet)
    ensures DecCountsNothing(queue.items, after.items)
  {
    var id := Next(queue.lastInserted);
    assert queue.SlotInOrder(id);
    assert DecUncounted(queue.items, after.items, id, Entry(item, wallet, NotProcessed));
  }

  lemma MarkedInc(queue: Queue<IncItem>, after: Queue<IncItem>, status: ProcessingStatus)
    requires queue.Frontier() && Marked(queue, after, status)
    requires queue.items[First(queue)].item.IncMarket? || !status.Finished?
    ensures IncCountsNothing(queue.items, after.items)
  {
    var id := First(queue);
    HeadIsFirst(queue);
    assert queue.SlotInOrder(id);
    assert IncUncounted(queue.items, after.items, id, after.items[id]);
  }

  lemma MarkedDec(queue: Queue<DecItem>, after: Queue<DecItem>, status: ProcessingStatus)
    requires queue.Frontier() && Marked(queue, after, status)
    requires queue.items[First(queue)].item.DecMarket? || !status.Finished?
    ensures DecCountsNothing(queue.items, after.items)
  {
    var id := First(queue);
    HeadIsFirst(queue);
    assert queue.SlotInOrder(id);
    assert DecUncounted(queue.items, after.items, id, after.items[id]);
  }

  lemma IncItemCounts(s: Storage, after: Storage, dispatch: Dispatch, units: Units, env: Env)
    requires s.incQueue.Frontier() && First(s.incQueue) in s.incQueue.items
    requires var item := s.incQueue.items[First(s.incQueue)].item;
             item.IncMarket? && IncItemDone(s, after, dispatch, item, units, env)
    ensures Uncounted(s, after)
  {
    hide IncLeaves, Uncounted;
    var item := s.incQueue.items[First(s.incQueue)].item;
    var fee :| fee >= 0 && IncLeaves(s, after, dispatch, item.token, fee, units, env);
    IncLeavesUncounted(s, after, dispatch, item.token, fee, units, env);
  }

  lemma IncLeavesUncounted(s: Storage, after: Storage, dispatch: Dispatch, token: Token, fee: nat, units: Units,
                           env: Env)
    requires s.incQueue.Frontier() && First(s.incQueue) in s.incQueue.items
    requires s.incQueue.items[First(s.incQueue)].item.IncMarket?
    requires IncLeaves(s, after, dispatch, token, fee, units, env)
    ensures Uncounted(s, after)
  {
    hide PoolGains, BankGains, Outdates, GoesThrough;
    var status := after.incQueue.items[First(s.incQueue)].status;
    assert Marked(s.incQueue, after.incQueue, status);
    MarkedInc(s.incQueue, after.incQueue, status);
  }

  lemma DecItemCounts(s: Storage, after: Storage, dispatch: Dispatch, units: Units, env: Env)
    requires s.decQueue.Frontier() && First(s.decQueue) in s.decQueue.items
    requires var item := s.decQueue.items[First(s.decQueue)].item;
             item.DecMarket? && DecItemDone(s, after, dispatch, item, units, env)
    ensures Uncounted(s, after)
  {
    hide DecLeaves, Uncounted;
    var item := s.decQueue.items[First(s.decQueue)].item;
    var cost, spent, short :| cost >= 0 && DecLeaves(s, after, dispatch, item.token, cost, spent, short, units, env);
    DecLeavesUncounted(s, after, dispatch, item.token, cost, spent, short, units, env);
  }

  lemma DecLeavesUncounted(s: Storage, after: Storage, dispatch: Dispatch, token: Token, cost: nat, spent: int,
                           short: FailedReason, units: Units, env: Env)
    requires s.decQueue.Frontier() && First(s.decQueue) in s.decQueue.items
    requires s.decQueue.items[First(s.decQueue)].item.DecMarket?
    requires DecLeaves(s, after, dispatch, token, cost, spent, short, units, env)
    ensures Uncounted(s, after)
  {
    hide PoolGains, BankGains, Outdates, GoesThrough;
    var status := after.decQueue.items[First(s.decQueue)].status;
    assert Marked(s.decQueue, after.decQueue, status);
    MarkedDec(s.decQueue, after.decQueue, status);
  }

  lemma DeferredCounts(s: Storage, t: Trace, env: Env, after: Storage)
    requires Flight(s, t) && HandleDeferred(s, env) == Ok(after)
    ensures Uncounted(s, after)
  {
    HeadIsFirst(s.incQueue);
    HeadIsFirst(s.decQueue);
    DeferredSettles(s, env, after);
    DeferredIsHandled(s, env, after);
    var status := if env.exec.Success? then Finished else Failed(DeferredExecFailure);
    if First(s.incQueue) in s.incQueue.items {
      MarkedInc(s.incQueue, after.incQueue, status);
    } else {
      MarkedDec(s.decQueue, after.decQueue, status);
    }
  }

  lemma IncWorkKeepsOwned(s: Storage, t: Trace, units: Units, env: Env, after: Storage, rates: Rates)
    requires Invariant(s, t) && Owned(s, rates) && DoWork(s, units, env) == Ok(after)
    requires GetWork(s, env).Ok? && GetWork(s, env).value.ProcessQueueItem? && GetWork(s, env).value.id.IncId?
    ensures Owned(after, RatesAfter(s, rates, MsgDoWork, units, env))
  {
    WorkIsDone(s, t, units, env, after);
    assert s.incQueue.Frontier();
    hide GetWork, DoWork, DepositDone, IncItemDone, Owned, Uncounted, Invariant;
    var id := First(s.incQueue);
    if s.incQueue.items[id].item.Deposit? {
      DepositIsPriced(s, after);
      DepositCounts(s, after, rates);
    } else {
      var dispatch :| IncItemDone(s, after, dispatch, s.incQueue.items[id].item, units, env);
      IncItemCounts(s, after, dispatch, units, env);
      CountsNothing(s, after, rates);
    }
  }

  lemma DecWorkKeepsOwned(s: Storage, t: Trace, units: Units, env: Env, after: Storage, rates: Rates)
    requires Invariant(s, t) && Owned(s, rates) && DoWork(s, units, env) == Ok(after)
    requires GetWork(s, env).Ok? && GetWork(s, env).value.ProcessQueueItem? && GetWork(s, env).value.id.DecId?
    ensures Owned(after, rates)
  {
    WorkIsDone(s, t, units, env, after);
    assert s.decQueue.Frontier();
    hide GetWork, DoWork, WithdrawalDone, DecItemDone, Owned, Uncounted, Invariant;
    var id := First(s.decQueue);
    if s.decQueue.items[id].item.Withdrawal? {
      WithdrawalCounts(s, after, units, rates);
    } else {
      var dispatch :| DecItemDone(s, after, dispatch, s.decQueue.items[id].item, units, env);
      DecItemCounts(s, after, dispatch, units, env);
      CountsNothing(s, after, rates);
    }
  }

  lemma WorkKeepsOwned(s: Storage, t: Trace, units: Units, env: Env, after: Storage, rates: Rates)
    requires Invariant(s, t) && Owned(s, rates) && DoWork(s, units, env) == Ok(after)
    ensures Owned(after, RatesAfter(s, rates, MsgDoWork, units, env))
  {
    WorkIsDone(s, t, units, env, after);
    hide GetWork, DoWork, DepositDone, WithdrawalDone, IncItemDone, DecItemDone, PricingDone, DeferredDone;
    hide RebalanceDone, Owned, Uncounted;
    match GetWork(s, env).value
    case ProcessQueueItem(IncId(_)) => IncWorkKeepsOwned(s, t, units, env, after, rates);
    case ProcessQueueItem(DecId(_)) => DecWorkKeepsOwned(s, t, units, env, after, rates);
    case HandleDeferredExecId =>
      DeferredCounts(s, t, env, after);
      CountsNothing(s, after, rates);
    case ComputeLpTokenValue(token) =>
      PricingCounts(s, after, token, env);
      CountsNothing(s, after, rates);
    case Rebalance(token, amount) =>
      var to, settled: nat, cut :| RebalanceDone(s, after, token, amount, env, to, settled, cut);
      RebalanceCounts(s, after, token, amount, env, to, settled, cut);
      CountsNothing(s, after, rates);
    case _ =>
  }

  lemma DepositIsPriced(s: Storage, after: Storage)
    requires First(s.incQueue) in s.incQueue.items && s.incQueue.items[First(s.incQueue)].item.Deposit?
    requires DepositDone(s, after)
    ensures s.incQueue.items[First(s.incQueue)].item.token in s.prices
  {
  }

  lemma PricingCounts(s: Storage, after: Storage, token: Token, env: Env)
    requires PricingDone(s, after, token, env)
    ensures Uncounted(s, after)
  {
  }

  lemma RebalanceCounts(s: Storage, after: Storage, token: Token, amount: nat, env: Env, to: seq<nat>, settled: nat,
                        cut: bool)
    requires RebalanceDone(s, after, token, amount, env, to, settled, cut)
    ensures Uncounted(s, after)
  {
  }

  lemma MessageCounts(s: Storage, t: Trace, msg: Message, units: Units, env: Env, after: Storage)
    requires Flight(s, t) && !msg.MsgDoWork? && Handle(s, msg, units, env) == Ok(after)
    ensures Uncounted(s, after)
  {
    match msg
    case MsgDeposit(sender, funds, token) =>
      DepositIsQueued(s, sender, funds, token, units, env);
      AppendedInc(s.incQueue, after.incQueue, Deposit(funds, token), sender);
    case MsgWithdraw(sender, tokens, token) =>
      WithdrawalIsQueued(s, sender, tokens, token, units, env);
      AppendedDec(s.decQueue, after.decQueue, Withdrawal(tokens, token), sender);
    case MsgLeader(leader, token, action, collateral) =>
      LeaderCounts(s, t, leader, token, action, collateral, units, env, after);
    case MsgClaim(requested, token) => ClaimIsPaid(s, requested, token, units, env);
    case MsgInflow(funds, token) => InflowArrives(s, funds, token, units, env);
  }

  lemma LeaderCounts(s: Storage, t: Trace, leader: string, token: Token, action: LeaderAction,
                     collateral: Option<nat>, units: Units, env: Env, after: Storage)
    requires Flight(s, t) && Handle(s, MsgLeader(leader, token, action, collateral), units, env) == Ok(after)
    ensures Uncounted(s, after)
  {
    LeaderItemIsQueued(s, leader, token, action, collateral, units, env);
    hide Handle, QueuesDec, QueuesInc, Uncounted;
    if action.Increase? {
      QueuedIncCounts(s, t, leader, token, action.action, after);
    } else if action.Unsupported? {
      NothingCounts(s);
    } else {
      var item: DecMarketItem :| QueuesDec(s, after, leader, token, item);
      QueuedDecCounts(s, t, leader, token, item, after);
    }
  }

  lemma NothingCounts(s: Storage)
    ensures Uncounted(s, s)
  {
  }

  lemma QueuedIncCounts(s: Storage, t: Trace, leader: string, token: Token, item: IncMarketItem, after: Storage)
    requires Flight(s, t) && QueuesInc(s, after, leader, token, item)
    ensures Uncounted(s, after)
  {
    AppendedInc(s.incQueue, after.incQueue, IncMarket(token, item), leader);
  }

  lemma QueuedDecCounts(s: Storage, t: Trace, leader: string, token: Token, item: DecMarketItem, after: Storage)
    requires Flight(s, t) && QueuesDec(s, after, leader, token, item)
    ensures Uncounted(s, after)
  {
    AppendedDec(s.decQueue, after.decQueue, DecMarket(token, item), leader);
  }

  // ----- Any run -----

  lemma StepKeepsOwned(s: Storage, t: Trace, msg: Message, units: Units, env: Env, rates: Rates)
    requires Invariant(s, t) && Owned(s, rates)
    ensures Owned(Step(s, msg, units, env), RatesAfter(s, rates, msg, units, env))
  {
    hide Owned, Uncounted, Invariant;
    if Handle(s, msg, units, env).Ok? {
      var after := Handle(s, msg, units, env).value;
      if msg.MsgDoWork? {
        WorkKeepsOwned(s, t, units, env, after, rates);
      } else {
        assert Flight(s, t) by {
          FlightOf(s, t);
        }
        MessageCounts(s, t, msg, units, env, after);
        CountsNothing(s, after, rates);
      }
    }
  }

  lemma FlightOf(s: Storage, t: Trace)
    requires Invariant(s, t)
    ensures Flight(s, t)
  {
  }

  /** The price each deposit of a run was processed at. */
  ghost function RunRates(calls: seq<Call>, units: Units): Rates {
    if calls == [] then map[]
    else
      var before, last := calls[..|calls| - 1], calls[|calls| - 1];
      RatesAfter(Run(Initial(), before, units), RunRates(before, units), last.0, units, last.1)
  }

  /** After any run every wallet holds exactly the shares minted for its own finished deposits, each its funds over
      the price it was processed at, less those burned for its own finished withdrawals. */
  lemma {:induction false} SharesAreTheirs(calls: seq<Call>, units: Units)
    ensures Owned(Run(Initial(), calls, units), RunRates(calls, units))
  {
    if calls == [] {
      assert forall wallet: Wallet :: OwnedBy(map[], map[], map[], map[], wallet);
    } else {
      var before, last := calls[..|calls| - 1], calls[|calls| - 1];
      SharesAreTheirs(before, units);
      InitialInvariant();
      RunKeeps(Initial(), NO_TRACE, before, units);
      StepKeepsOwned(Run(Initial(), before, units), RunTrace(Initial(), NO_TRACE, before, units), last.0, units, last.1,
                     RunRates(before, units));
    }
  }
}
