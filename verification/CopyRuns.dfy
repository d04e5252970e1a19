/** Every call and every run of the copy-trading contract. */
module CopyRuns {
  import opened Wrappers
  import opened Queues
  import opened CopyLedger
  import opened CopyModel
  import opened CopyInvariant
  import opened Tokens
  import opened HighWaterMark
  import Settlement

  // ----- One unit of work -----

  predicate HeadThere(s: Storage, work: Work) {
    work.ProcessQueueItem? ==> if work.id.IncId? then s.incQueue.Head().Some? else s.decQueue.Head().Some?
  }

  /** A market item is processed only when it is not in flight, and deferred work is for one that is. */
  lemma HeadWorkFits(s: Storage, id: QueueId, priced: Option<Token>, status: ProcessingStatus, env: Env)
    requires HeadWork(s, id, priced, status, env).Ok?
    ensures match HeadWork(s, id, priced, status, env).value
            case ProcessQueueItem(chosen) =>
              chosen == id && (priced.None? ==> !(status.InProgress? && s.replyExec.Some?))
            case HandleDeferredExecId => status.InProgress? && s.replyExec.Some?
            case LoadMarket => false
            case _ => true
  {
  }

  /** Whatever work is chosen, what its handler asserts about the queues holds: an item to process is its
      queue's head and not in flight, and deferred work finds the item in flight where it looks first. */
  lemma WorkFits(s: Storage, t: Trace, env: Env)
    requires Flight(s, t) && GetWork(s, env).Ok?
    ensures match GetWork(s, env).value
            case ProcessQueueItem(IncId(id)) =>
              id == s.incQueue.HeadId() && s.incQueue.Head().Some? && !s.incQueue.Busy()
            case ProcessQueueItem(DecId(id)) =>
              id == s.decQueue.HeadId() && s.decQueue.Head().Some? && !s.decQueue.Busy() && s.incQueue.Head().None?
            case HandleDeferredExecId => s.incQueue.Busy() || (s.incQueue.Head().None? && s.decQueue.Busy())
            case Rebalance(token, amount) => s.batch.NoBatch? || s.batch == BatchRebalance(token, amount)
            case _ => true
  {
    if s.batch.NoBatch? && !env.loaderDue {
      if s.incQueue.Head().Some? {
        var entry := s.incQueue.Head().value;
        HeadWorkFits(s, IncId(s.incQueue.HeadId()), if entry.item.Deposit? then Some(entry.item.token) else None,
                     entry.status, env);
      } else if s.decQueue.Head().Some? {
        var entry := s.decQueue.Head().value;
        HeadWorkFits(s, DecId(s.decQueue.HeadId()), if entry.item.Withdrawal? then Some(entry.item.token) else None,
                     entry.status, env);
      }
    }
  }

  lemma SendIncAsserts(s: Storage, units: Units, env: Env)
    requires s.incQueue.Head().Some? && s.incQueue.Head().value.item.IncMarket?
    ensures SendInc(s, units, env) != Err(AssertionFailed)
  {
  }

  lemma SendDecAsserts(s: Storage, units: Units, env: Env)
    requires s.decQueue.Head().Some? && s.decQueue.Head().value.item.DecMarket?
    ensures SendDec(s, units, env) != Err(AssertionFailed)
  {
  }

  lemma ItemAsserts(s: Storage, id: QueueId, units: Units, env: Env)
    requires HeadThere(s, ProcessQueueItem(id))
    ensures ProcessItem(s, id, units, env) != Err(AssertionFailed)
  {
    hide SendInc, SendDec;
    if id.IncId? && s.incQueue.Head().value.item.IncMarket? {
      SendIncAsserts(s, units, env);
    }
    if id.DecId? && s.decQueue.Head().value.item.DecMarket? {
      SendDecAsserts(s, units, env);
    }
  }

  lemma DeferredAsserts(s: Storage, env: Env)
    requires s.incQueue.Busy() || (s.incQueue.Head().None? && s.decQueue.Busy())
    ensures HandleDeferred(s, env) != Err(AssertionFailed)
  {
  }

  lemma HeadAsserts(s: Storage, id: QueueId, priced: Option<Token>, status: ProcessingStatus, env: Env)
    ensures HeadWork(s, id, priced, status, env) != Err(AssertionFailed)
  {
  }

  lemma GettingAsserts(s: Storage, env: Env)
    ensures GetWork(s, env) != Err(AssertionFailed)
  {
    if s.incQueue.Head().Some? {
      var entry := s.incQueue.Head().value;
      HeadAsserts(s, IncId(s.incQueue.HeadId()), if entry.item.Deposit? then Some(entry.item.token) else None,
                  entry.status, env);
    } else if s.decQueue.Head().Some? {
      var entry := s.decQueue.Head().value;
      HeadAsserts(s, DecId(s.decQueue.HeadId()), if entry.item.Withdrawal? then Some(entry.item.token) else None,
                  entry.status, env);
    }
  }

  /** The contract's assertions about items in progress never fail, whatever chain and market answer. */
  lemma AssertionsHold(s: Storage, t: Trace, units: Units, env: Env)
    requires Flight(s, t)
    ensures DoWork(s, units, env) != Err(AssertionFailed)
  {
    hide GetWork, ProcessItem, HandleDeferred;
    GettingAsserts(s, env);
    if GetWork(s, env).Ok? {
      WorkFits(s, t, env);
      WorkHasHead(s, env);
      match GetWork(s, env).value
      case HandleDeferredExecId => DeferredAsserts(s, env);
      case ProcessQueueItem(id) => ItemAsserts(s, id, units, env);
      case _ =>
    }
  }

  /** What a unit of work adds to the trace. */
  ghost function WorkTrace(s: Storage, t: Trace, units: Units, env: Env): Trace {
    WorkHasHead(s, env);
    match GetWork(s, env)
    case Ok(ComputeLpTokenValue(token)) => PriceTrace(s, t, token, env)
    case Ok(ProcessQueueItem(IncId(_))) =>
      if s.incQueue.Head().value.item.Deposit? then t else IncTrace(s, t, units, env)
    case Ok(ProcessQueueItem(DecId(_))) =>
      if s.decQueue.Head().value.item.Withdrawal? then t else DecTrace(s, t, units, env)
    case Ok(Rebalance(token, amount)) => RebalanceTrace(s, t, token, amount, env)
    case _ => t
  }

  lemma DoWorkKeeps(s: Storage, t: Trace, units: Units, env: Env)
    requires Invariant(s, t) && DoWork(s, units, env).Ok?
    ensures Invariant(DoWork(s, units, env).value, WorkTrace(s, t, units, env))
  {
    WorkFits(s, t, env);
    match GetWork(s, env).value
    case ComputeLpTokenValue(token) => PriceTokenKeeps(s, t, token, env);
    case ProcessQueueItem(IncId(_)) =>
      if s.incQueue.Head().value.item.Deposit? {
        ProcessDepositKeeps(s, t);
      } else {
        SendIncKeeps(s, t, units, env);
      }
    case ProcessQueueItem(DecId(_)) =>
      if s.decQueue.Head().value.item.Withdrawal? {
        ProcessWithdrawalKeeps(s, t, units, env.found);
      } else {
        SendDecKeeps(s, t, units, env);
      }
    case HandleDeferredExecId => HandleDeferredKeeps(s, t, env);
    case Rebalance(token, amount) => RunRebalanceKeeps(s, t, token, amount, env);
    case _ =>
  }

  // ----- One call -----

  ghost function NextTrace(s: Storage, t: Trace, msg: Message, units: Units, env: Env): Trace {
    if msg.MsgDoWork? && DoWork(s, units, env).Ok? then WorkTrace(s, t, units, env) else t
  }

  /** One transaction, whatever the message and whatever chain and market answer, keeps the invariant. */
  lemma StepKeeps(s: Storage, t: Trace, msg: Message, units: Units, env: Env)
    requires Invariant(s, t)
    ensures Invariant(Step(s, msg, units, env), NextTrace(s, t, msg, units, env))
  {
    if Handle(s, msg, units, env).Ok? {
      match msg
      case MsgDeposit(sender, funds, token) => QueueDepositKeeps(s, t, sender, funds, token, env.found);
      case MsgWithdraw(sender, tokens, token) => QueueWithdrawalKeeps(s, t, sender, tokens, token);
      case MsgLeader(leader, token, action, collateral) =>
        QueueLeaderMessageKeeps(s, t, leader, token, action, collateral, env.found);
      case MsgClaim(requested, token) => WithdrawCommissionKeeps(s, t, requested, token, units, env.found);
      case MsgDoWork => DoWorkKeeps(s, t, units, env);
      case MsgInflow(funds, token) => ReceiveKeeps(s, t, token, funds);
    }
  }

  /** What has happened stays so. */
  ghost predicate Extends(t: Trace, later: Trace) {
    && t.incLog <= later.incLog && t.decLog <= later.decLog && t.settled <= later.settled
    && forall token: Token :: ChargesAt(t.charges, token) <= ChargesAt(later.charges, token)
  }

  lemma RebalanceExtends(s: Storage, t: Trace, token: Token, requested: nat, env: Env)
    ensures Extends(t, RebalanceTrace(s, t, token, requested, env))
  {
  }

  lemma SendingExtends(s: Storage, t: Trace, units: Units, env: Env)
    ensures s.incQueue.Head().Some? && s.incQueue.Head().value.item.IncMarket? ==>
              Extends(t, IncTrace(s, t, units, env))
    ensures s.decQueue.Head().Some? && s.decQueue.Head().value.item.DecMarket? ==>
              Extends(t, DecTrace(s, t, units, env))
  {
  }

  lemma TraceGrows(s: Storage, t: Trace, msg: Message, units: Units, env: Env)
    ensures Extends(t, NextTrace(s, t, msg, units, env))
  {
    WorkHasHead(s, env);
    match GetWork(s, env)
    case Ok(ProcessQueueItem(_)) => SendingExtends(s, t, units, env);
    case Ok(Rebalance(token, amount)) => RebalanceExtends(s, t, token, amount, env);
    case _ =>
  }

  // ----- Any run -----

  ghost function RunTrace(s: Storage, t: Trace, calls: seq<Call>, units: Units): Trace {
    if calls == [] then t
    else
      var before := calls[..|calls| - 1];
      NextTrace(Run(s, before, units), RunTrace(s, t, before, units), calls[|calls| - 1].0, units,
                calls[|calls| - 1].1)
  }

  /** Every run of calls keeps the queues' frontiers, one action in flight, both ledger sums, backed prices,
      accounted commission and each position settled at most once, and only adds to what has happened. */
  lemma {:induction false} RunKeeps(s: Storage, t: Trace, calls: seq<Call>, units: Units)
    requires Invariant(s, t)
    ensures Invariant(Run(s, calls, units), RunTrace(s, t, calls, units))
    ensures Extends(t, RunTrace(s, t, calls, units))
  {
    if calls != [] {
      var before, last := calls[..|calls| - 1], calls[|calls| - 1];
      RunKeeps(s, t, before, units);
      StepKeeps(Run(s, before, units), RunTrace(s, t, before, units), last.0, units, last.1);
      TraceGrows(Run(s, before, units), RunTrace(s, t, before, units), last.0, units, last.1);
    }
  }

  // ----- What the invariant says of a run from the empty contract -----

  /** The commission rate in force during every call lies within these bounds. */
  ghost predicate CallsWithin(calls: seq<Call>, least: nat, most: nat) {
    forall i | 0 <= i < |calls| :: least <= calls[i].1.closings.limits.rate <= most
  }

  lemma {:induction false} ChargesWithin(closed: seq<Settlement.Closed>, rate: nat, least: nat, most: nat)
    requires least <= rate <= most
    ensures RatesWithin(Settlement.Charges(closed, rate), least, most)
  {
    if closed != [] {
      ChargesWithin(closed[..|closed| - 1], rate, least, most);
    }
  }

  lemma RebalanceWithin(s: Storage, t: Trace, token: Token, requested: nat, env: Env, charged: Token, least: nat,
                        most: nat)
    requires RatesWithin(ChargesAt(t.charges, charged), least, most)
    requires least <= env.closings.limits.rate <= most
    ensures RatesWithin(ChargesAt(RebalanceTrace(s, t, token, requested, env).charges, charged), least, most)
  {
    if Settled(s, token, requested, env).Ok? {
      ChargesWithin(Settled(s, token, requested, env).value.closed, env.closings.limits.rate, least, most);
    }
  }

  lemma NextWithin(s: Storage, t: Trace, msg: Message, units: Units, env: Env, token: Token, least: nat, most: nat)
    requires RatesWithin(ChargesAt(t.charges, token), least, most)
    requires least <= env.closings.limits.rate <= most
    ensures RatesWithin(ChargesAt(NextTrace(s, t, msg, units, env).charges, token), least, most)
  {
    match GetWork(s, env)
    case Ok(Rebalance(rebalanced, amount)) =>
      RebalanceWithin(s, t, rebalanced, amount, env, token, least, most);
    case _ =>
  }

  lemma {:induction false} RunWithin(s: Storage, t: Trace, calls: seq<Call>, units: Units, token: Token, least: nat,
                                     most: nat)
    requires RatesWithin(ChargesAt(t.charges, token), least, most) && CallsWithin(calls, least, most)
    ensures RatesWithin(ChargesAt(RunTrace(s, t, calls, units).charges, token), least, most)
  {
    if calls != [] {
      var before, last := calls[..|calls| - 1], calls[|calls| - 1];
      RunWithin(s, t, before, units, token, least, most);
      NextWithin(Run(s, before, units), RunTrace(s, t, before, units), last.0, units, last.1, token, least, most);
    }
  }

  /** After any run the leader's commission in a token, claimed or not, is what the high water mark assesses on
      the positions closed so far: the mark is the highest net profit they ever made, and the commission is the
      rate on it, between the least and the greatest rate in force, short of it by less than one atom for each
      new high. */
  lemma CommissionOverRun(calls: seq<Call>, units: Units, token: Token, least: nat, most: nat)
    requires CallsWithin(calls, least, most)
    ensures var s, t := Run(Initial(), calls, units), RunTrace(Initial(), NO_TRACE, calls, units);
            var charges, mark := ChargesAt(t.charges, token), MarkAt(s.marks, token);
            var stats := StatsAt(s.commission, token);
            && AssessAll(charges).Ok?
            && stats.unclaimed + stats.claimed == AssessAll(charges).value.commission
            && mark.current == NetProfit(charges) && IsHighest(charges, mark.hwm)
            && Charged(stats.unclaimed + stats.claimed, mark.hwm, AssessAll(charges).value.highs, least, most)
  {
    var s, t := Run(Initial(), calls, units), RunTrace(Initial(), NO_TRACE, calls, units);
    InitialInvariant();
    RunKeeps(Initial(), NO_TRACE, calls, units);
    RunWithin(Initial(), NO_TRACE, calls, units, token, least, most);
    assert AccountedIn(s.commission, s.marks, t.charges, token);
    MarkIsHighest(ChargesAt(t.charges, token));
    CommissionIsRateOnHighest(ChargesAt(t.charges, token), least, most);
  }

  /** After any run each closed position was settled once if it lies before its market's cursor, else never;
      and each market item was handed over once if the market accepted it, else never. A position is its market and
      its place in the market's listing, so it is one position only as far as the listings of successive calls
      extend each other; the contract's own cursor is a closing time and a position id. */
  lemma NothingTwice(calls: seq<Call>, units: Units, id: PositionId, item: nat)
    ensures var s, t := Run(Initial(), calls, units), RunTrace(Initial(), NO_TRACE, calls, units);
            && multiset(t.settled)[id] == (if id.index < CursorAt(s.cursors, id.market) then 1 else 0)
            && (item in s.incQueue.items && s.incQueue.items[item].item.IncMarket? ==>
                  multiset(t.incLog)[item] == if s.incQueue.items[item].status.HandedOver() then 1 else 0)
            && (item in s.decQueue.items && s.decQueue.items[item].item.DecMarket? ==>
                  multiset(t.decLog)[item] == if s.decQueue.items[item].status.HandedOver() then 1 else 0)
  {
    var s, t := Run(Initial(), calls, units), RunTrace(Initial(), NO_TRACE, calls, units);
    InitialInvariant();
    RunKeeps(Initial(), NO_TRACE, calls, units);
    assert SettledIn(s.cursors, t.settled, id);
    if item in s.incQueue.items && s.incQueue.items[item].item.IncMarket? {
      HandedOverOnce(s.incQueue, IsIncMarket(), t.incLog, item);
    }
    if item in s.decQueue.items && s.decQueue.items[item].item.DecMarket? {
      HandedOverOnce(s.decQueue, IsDecMarket(), t.decLog, item);
    }
  }

  // ----- What a token's surplus does -----

  lemma DepositKeepsSurplus(s: Storage, token: Token)
    requires s.incQueue.Head().Some? && s.incQueue.Head().value.item.Deposit? && ProcessDeposit(s).Ok?
    ensures Surplus(ProcessDeposit(s).value, token) == Surplus(s, token)
  {
  }

  /** What a withdrawal pays out beyond whole token units stays with the contract. */
  lemma WithdrawalKeepsSurplus(s: Storage, units: Units, found: bool, token: Token)
    requires s.decQueue.Head().Some? && s.decQueue.Head().value.item.Withdrawal?
    requires ProcessWithdrawal(s, units, found).Ok?
    ensures Surplus(ProcessWithdrawal(s, units, found).value, token) >= Surplus(s, token)
  {
    match WithdrawalPayout(s, units, found).value
    case Refused(_) =>
    case Paid(funds, moved) => TransferKeepsDust(funds, units(s.decQueue.Head().value.item.token));
  }

  /** What is sent to a market costs the pool at least what leaves the bank. */
  lemma IncOutcomeKeepsSurplus(s: Storage, units: Units, env: Env, after: Storage, dispatch: Dispatch, token: Token)
    requires s.incQueue.Head().Some? && s.incQueue.Head().value.item.IncMarket?
    requires IncOutcome(s, units, env, after, dispatch)
    ensures Surplus(after, token) >= Surplus(s, token)
  {
    var item := s.incQueue.Head().value.item;
    RoundDownBounds(IncCost(item.action, env).value, units(item.token));
  }

  lemma DecOutcomeKeepsSurplus(s: Storage, units: Units, env: Env, after: Storage, dispatch: Dispatch, token: Token)
    requires s.decQueue.Head().Some? && s.decQueue.Head().value.item.DecMarket?
    requires DecOutcome(s, units, env, after, dispatch)
    ensures Surplus(after, token) >= Surplus(s, token)
  {
    var item := s.decQueue.Head().value.item;
    RoundDownBounds(DecCost(item.action, env).value, units(item.token));
  }

  lemma ClaimKeepsSurplus(s: Storage, requested: nat, token: Token, units: Units, found: bool,
                          after: Storage, other: Token)
    requires WithdrawCommission(s, requested, token, units, found) == Ok(after)
    ensures Surplus(after, other) >= Surplus(s, other)
  {
    TransferKeepsDust(requested, units(token));
  }

  /** What a rebalance credits comes out of the token's surplus, and out of no other. */
  lemma RebalanceSpendsSurplus(s: Storage, token: Token, requested: nat, env: Env, other: Token)
    requires RunRebalance(s, token, requested, env).Ok?
    ensures var settled := Settled(s, token, requested, env).value;
            Surplus(RunRebalance(s, token, requested, env).value, other)
            == Surplus(s, other)
               - if other == token then
                   Settlement.Credited(requested, Settlement.Part(settled.book.check, settled.early))
                 else 0
  {
    RebalanceMoves(s, token, requested, env);
  }

  lemma HeadAsksForSurplus(s: Storage, id: QueueId, priced: Option<Token>, status: ProcessingStatus, env: Env)
    requires HeadWork(s, id, priced, status, env).Ok? && HeadWork(s, id, priced, status, env).value.Rebalance?
    ensures var work := HeadWork(s, id, priced, status, env).value; work.amount == Surplus(s, work.token)
  {
    assert priced.Some?;
    assert HeadWork(s, id, priced, status, env) == CheckBalanceWork(s, priced.value, env);
  }

  /** A rebalance that starts a batch asks for exactly the token's surplus. */
  lemma RebalanceAsksForSurplus(s: Storage, env: Env)
    requires s.batch.NoBatch? && GetWork(s, env).Ok? && GetWork(s, env).value.Rebalance?
    ensures GetWork(s, env).value.amount == Surplus(s, GetWork(s, env).value.token)
  {
    hide HeadWork, Surplus;
    if s.incQueue.Head().Some? {
      var entry := s.incQueue.Head().value;
      HeadAsksForSurplus(s, IncId(s.incQueue.HeadId()), if entry.item.Deposit? then Some(entry.item.token) else None,
                         entry.status, env);
    } else {
      var entry := s.decQueue.Head().value;
      HeadAsksForSurplus(s, DecId(s.decQueue.HeadId()), if entry.item.Withdrawal? then Some(entry.item.token) else None,
                         entry.status, env);
    }
  }

  /** If it is not cut and settles no more than that, the ledger then accounts for the bank's balance to the
      atom. */
  lemma RebalanceBalances(s: Storage, token: Token, env: Env)
    requires Surplus(s, token) >= 0 && RunRebalance(s, token, Surplus(s, token), env).Ok?
    requires var settled := Settled(s, token, Surplus(s, token), env).value;
             !settled.early && settled.book.check <= Surplus(s, token)
    ensures Surplus(RunRebalance(s, token, Surplus(s, token), env).value, token) == 0
  {
    RebalanceSpendsSurplus(s, token, Surplus(s, token), env, token);
  }

  lemma ItemKeepsSurplus(s: Storage, id: QueueId, units: Units, env: Env, after: Storage, token: Token)
    requires HeadThere(s, ProcessQueueItem(id)) && ProcessItem(s, id, units, env) == Ok(after)
    ensures Surplus(after, token) >= Surplus(s, token)
  {
    match id
    case IncId(_) =>
      if s.incQueue.Head().value.item.Deposit? {
        DepositKeepsSurplus(s, token);
      } else {
        var sent := SendInc(s, units, env).value;
        SendIncOutcome(s, units, env);
        IncOutcomeKeepsSurplus(s, units, env, sent.0, sent.1, token);
      }
    case DecId(_) =>
      if s.decQueue.Head().value.item.Withdrawal? {
        WithdrawalKeepsSurplus(s, units, env.found, token);
      } else {
        var sent := SendDec(s, units, env).value;
        SendDecOutcome(s, units, env);
        DecOutcomeKeepsSurplus(s, units, env, sent.0, sent.1, token);
      }
  }

  lemma PerformKeepsSurplus(s: Storage, work: Work, units: Units, env: Env, after: Storage, token: Token)
    requires HeadThere(s, work) && Perform(s, work, units, env) == Ok(after)
    requires !(work.Rebalance? && work.token == token)
    ensures Surplus(after, token) >= Surplus(s, token)
  {
    hide ProcessItem, RunRebalance, HandleDeferred;
    match work
    case ProcessQueueItem(id) => ItemKeepsSurplus(s, id, units, env, after, token);
    case Rebalance(other, amount) => RebalanceSpendsSurplus(s, other, amount, env, token);
    case HandleDeferredExecId => DeferredSettles(s, env, after);
    case ComputeLpTokenValue(_) =>
    case NoWork =>
    case LoadMarket =>
    case ResetStats(_) =>
  }

  predicate Rebalances(s: Storage, token: Token, env: Env) {
    var work := GetWork(s, env);
    work.Ok? && work.value.Rebalance? && work.value.token == token
  }

  lemma WorkKeepsSurplus(s: Storage, units: Units, env: Env, after: Storage, token: Token)
    requires DoWork(s, units, env) == Ok(after) && !Rebalances(s, token, env)
    ensures Surplus(after, token) >= Surplus(s, token)
  {
    hide GetWork, Perform, Surplus;
    WorkHasHead(s, env);
    PerformKeepsSurplus(s, GetWork(s, env).value, units, env, after, token);
  }

  lemma DepositArrives(s: Storage, sender: string, funds: nat, token: Token, found: bool, after: Storage, other: Token)
    requires QueueDeposit(s, sender, funds, token, found) == Ok(after)
    ensures Surplus(after, other) >= Surplus(s, other)
  {
  }

  /** A leader's message queues at most one item, and changes nothing else. */
  lemma LeaderQueues(s: Storage, leader: string, token: Token, action: LeaderAction, collateral: Option<nat>,
                     found: bool, after: Storage)
    requires QueueLeaderMessage(s, leader, token, action, collateral, found) == Ok(after)
    ensures after == s.(incQueue := after.incQueue, decQueue := after.decQueue) && LeaderItem(action, collateral).Ok?
    ensures after == match LeaderItem(action, collateral).value
                     case QueueInc(item) => s.(incQueue := s.incQueue.Push(IncMarket(token, item), leader))
                     case QueueDec(item) => s.(decQueue := s.decQueue.Push(DecMarket(token, item), leader))
                     case QueueNothing => s
  {
    match LeaderItem(action, collateral).value
    case QueueInc(item) => assert after == s.(incQueue := s.incQueue.Push(IncMarket(token, item), leader));
    case QueueDec(item) => assert after == s.(decQueue := s.decQueue.Push(DecMarket(token, item), leader));
    case QueueNothing => assert after == s;
  }

  /** No call takes from what the contract holds beyond its ledger but a rebalance of that token. */
  lemma StepKeepsSurplus(s: Storage, msg: Message, units: Units, env: Env, after: Storage, token: Token)
    requires Handle(s, msg, units, env) == Ok(after) && !(msg.MsgDoWork? && Rebalances(s, token, env))
    ensures Surplus(after, token) >= Surplus(s, token)
  {
    match msg
    case MsgDeposit(sender, funds, deposited) =>
      DepositArrives(s, sender, funds, deposited, env.found, after, token);
    case MsgDoWork => WorkKeepsSurplus(s, units, env, after, token);
    case MsgClaim(requested, claimed) => ClaimKeepsSurplus(s, requested, claimed, units, env.found, after, token);
    case MsgLeader(leader, market, action, collateral) =>
      LeaderQueues(s, leader, market, action, collateral, env.found, after);
    case MsgWithdraw(_, _, _) =>
    case MsgInflow(_, _) =>
  }

  // ----- What a unit of work does to the queues -----

  /** Processing settles the head and moves on by one, or leaves it in flight; deferred work ends the flight;
      any other work leaves the queues as they are. */
  ghost predicate Advances(s: Storage, work: Work, after: Storage) {
    match work
    case ProcessQueueItem(IncId(_)) =>
      && after.decQueue == s.decQueue
      && (|| after.incQueue.HeadId() == s.incQueue.HeadId() + 1
          || (after.incQueue.HeadId() == s.incQueue.HeadId() && after.incQueue.Busy()))
    case ProcessQueueItem(DecId(_)) =>
      && after.incQueue == s.incQueue
      && (|| after.decQueue.HeadId() == s.decQueue.HeadId() + 1
          || (after.decQueue.HeadId() == s.decQueue.HeadId() && after.decQueue.Busy()))
    case HandleDeferredExecId =>
      && after.replyExec.None?
      && after.incQueue.HeadId() + after.decQueue.HeadId() == s.incQueue.HeadId() + s.decQueue.HeadId() + 1
    case _ => after.incQueue == s.incQueue && after.decQueue == s.decQueue
  }

  lemma IncOutcomeAdvances(s: Storage, units: Units, env: Env, after: Storage, dispatch: Dispatch, work: Work)
    requires s.incQueue.Head().Some? && s.incQueue.Head().value.item.IncMarket?
    requires IncOutcome(s, units, env, after, dispatch) && work.ProcessQueueItem? && work.id.IncId?
    ensures Advances(s, work, after)
  {
  }

  lemma DecOutcomeAdvances(s: Storage, units: Units, env: Env, after: Storage, dispatch: Dispatch, work: Work)
    requires s.decQueue.Head().Some? && s.decQueue.Head().value.item.DecMarket?
    requires DecOutcome(s, units, env, after, dispatch) && work.ProcessQueueItem? && work.id.DecId?
    ensures Advances(s, work, after)
  {
  }

  lemma PaymentKeepsQueues(s: Storage, token: Token, moved: nat, after: Storage)
    requires Pay(s, token, moved) == Ok(after)
    ensures after.incQueue == s.incQueue && after.decQueue == s.decQueue
  {
  }

  lemma WithdrawalAdvances(s: Storage, units: Units, found: bool, after: Storage, work: Work)
    requires s.decQueue.Head().Some? && s.decQueue.Head().value.item.Withdrawal?
    requires ProcessWithdrawal(s, units, found) == Ok(after) && work.ProcessQueueItem? && work.id.DecId?
    ensures Advances(s, work, after)
  {
    match WithdrawalPayout(s, units, found).value
    case Refused(reason) => assert after == s.(decQueue := s.decQueue.Settle(Failed(reason)));
    case Paid(funds, moved) =>
      var redeemed := Redeemed(s, funds);
      PaymentKeepsQueues(redeemed, s.decQueue.Head().value.item.token, moved, after);
  }

  lemma ItemAdvances(s: Storage, id: QueueId, units: Units, env: Env, after: Storage)
    requires HeadThere(s, ProcessQueueItem(id)) && ProcessItem(s, id, units, env) == Ok(after)
    ensures Advances(s, ProcessQueueItem(id), after)
  {
    hide SendInc, SendDec, IncOutcome, DecOutcome, ProcessWithdrawal;
    match id
    case IncId(_) =>
      if s.incQueue.Head().value.item.IncMarket? {
        SendIncOutcome(s, units, env);
        IncOutcomeAdvances(s, units, env, after, SendInc(s, units, env).value.1, ProcessQueueItem(id));
      }
    case DecId(_) =>
      if s.decQueue.Head().value.item.DecMarket? {
        SendDecOutcome(s, units, env);
        DecOutcomeAdvances(s, units, env, after, SendDec(s, units, env).value.1, ProcessQueueItem(id));
      } else {
        WithdrawalAdvances(s, units, env.found, after, ProcessQueueItem(id));
      }
  }

  lemma RebalanceKeepsQueues(s: Storage, token: Token, requested: nat, env: Env, after: Storage)
    requires RunRebalance(s, token, requested, env) == Ok(after)
    ensures after.incQueue == s.incQueue && after.decQueue == s.decQueue
  {
  }

  lemma PricingKeepsQueues(s: Storage, token: Token, env: Env, after: Storage)
    requires PriceToken(s, token, env) == Ok(after)
    ensures after.incQueue == s.incQueue && after.decQueue == s.decQueue
  {
  }

  lemma PerformAdvances(s: Storage, work: Work, units: Units, env: Env, after: Storage)
    requires HeadThere(s, work) && Perform(s, work, units, env) == Ok(after)
    ensures Advances(s, work, after)
  {
    hide ProcessItem, HandleDeferred, RunRebalance, PriceToken;
    match work
    case ProcessQueueItem(id) => ItemAdvances(s, id, units, env, after);
    case HandleDeferredExecId => DeferredSettles(s, env, after);
    case Rebalance(token, amount) => RebalanceKeepsQueues(s, token, amount, env, after);
    case ComputeLpTokenValue(token) => PricingKeepsQueues(s, token, env, after);
    case NoWork =>
    case LoadMarket =>
    case ResetStats(_) =>
  }

  lemma WorkAdvances(s: Storage, units: Units, env: Env, after: Storage)
    requires DoWork(s, units, env) == Ok(after)
    ensures GetWork(s, env).Ok? && Advances(s, GetWork(s, env).value, after)
  {
    hide GetWork, Perform, Advances;
    WorkHasHead(s, env);
    PerformAdvances(s, GetWork(s, env).value, units, env, after);
  }
}
