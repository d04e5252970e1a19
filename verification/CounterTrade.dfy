/** The countertrade contract: a share pool that trades against the popular side of one market, with at most
    one market action waiting for its deferred execution. */
module CounterTrade {
  import opened Wrappers
  import opened Decimals
  import opened MapSums
  import opened SharePool
  import opened Tokens

  datatype ExecStatus = Pending | Success | Failure | NotFound

  datatype MarketAction =
    | OpenPosition(collateral: nat)
    | ClosePosition
    | AddCollateral(amount: nat)
    | RemoveCollateral(amount: nat, crankFee: nat)
  {
    /** The collateral sent along with the market message. */
    function Funds(): nat {
      match this
      case OpenPosition(collateral) => collateral
      case ClosePosition => 0
      case AddCollateral(amount) => amount
      case RemoveCollateral(_, crankFee) => crankFee
    }
  }

  datatype Work = Market(action: MarketAction) | ResetShares | ClearDeferredExec(id: nat)

  /** What the chain answers during one call: the contract's positions, the status of the outstanding
      deferred execution, the trade it takes to reach the target funding rate, and the market's answer to a
      message it is sent. */
  datatype View = View(
    positions: Positions,
    exec: ExecStatus,
    next: Result<Option<MarketAction>, PoolError>,
    answer: MarketAnswer)

  /** `Queued` carries the deferred execution id of the reply's event, if there is one. */
  datatype MarketAnswer = Refused | Queued(id: Option<nat>)

  /** `get_work_for` */
  function GetWork(total: nat, deferred: Option<nat>, balance: nat, view: View): Result<Option<Work>, PoolError> {
    if total == 0 then Ok(None)
    else if deferred.Some? then
      match view.exec
      case Pending => Ok(None)
      case Success => Ok(Some(ClearDeferredExec(deferred.value)))
      case Failure => Ok(Some(ClearDeferredExec(deferred.value)))
      case NotFound => Err(DeferredExecMissing)
    else
      match view.positions
      case Unhealthy => Err(PositionUnhealthy)
      case TooMany => Ok(Some(Market(ClosePosition)))
      case NoPosition => if balance == 0 then Ok(Some(ResetShares)) else NextTrade(view)
      case OnePosition(_) => if balance == 0 then Ok(None) else NextTrade(view)
  }

  function NextTrade(view: View): Result<Option<Work>, PoolError> {
    var action :- view.next;
    Ok(if action.Some? then Some(Market(action.value)) else None)
  }

  /** Work never acts against an outstanding execution: it clears exactly that one once it has run, and
      trades or resets only when none is outstanding; shares are dropped only when nothing backs them. */
  lemma WorkRespectsDeferred(total: nat, deferred: Option<nat>, balance: nat, view: View)
    ensures var work := GetWork(total, deferred, balance, view);
            work.Ok? && work.value.Some? ==>
              && total > 0
              && (deferred.Some? <==> work.value.value.ClearDeferredExec?)
              && (deferred.Some? ==> work.value.value.id == deferred.value && view.exec in {Success, Failure})
              && (work.value.value.ResetShares? <==>
                  deferred.None? && balance == 0 && view.positions.NoPosition?)
  {
  }

  /** The loaded positions allow shares to be priced. */
  predicate Priceable(positions: Positions) {
    positions.NoPosition? || positions.OnePosition?
  }

  /** Exactly when each kind of work is due, and when there is none: an execution that has ended, either way, is
      cleared, and positions beyond one are closed. */
  lemma WorkIsDue(total: nat, deferred: Option<nat>, balance: nat, view: View, id: nat, action: MarketAction)
    ensures var work := GetWork(total, deferred, balance, view);
            var trading := total > 0 && deferred.None? && Priceable(view.positions);
            && (work == Ok(Some(ClearDeferredExec(id))) <==>
                  total > 0 && deferred == Some(id) && view.exec !in {Pending, NotFound})
            && (work == Ok(Some(ResetShares)) <==> trading && balance == 0 && view.positions.NoPosition?)
            && (work == Ok(Some(Market(action))) <==>
                  || (total > 0 && deferred.None? && view.positions.TooMany? && action == ClosePosition)
                  || (trading && balance > 0 && view.next == Ok(Some(action))))
            && (work == Ok(None) <==>
                  || total == 0 || (deferred.Some? && view.exec.Pending?)
                  || (trading && if balance == 0 then view.positions.OnePosition? else view.next == Ok(None)))
  {
  }

  // ----- The pool's ledger -----

  ghost predicate Ledger(shares: map<string, nat>, total: nat) {
    && Sum(shares, Holding()) == total
    && forall w | w in shares :: shares[w] > 0
  }

  function SharesIn(shares: map<string, nat>, wallet: string): nat {
    if wallet in shares then shares[wallet] else 0
  }

  lemma LedgerMint(shares: map<string, nat>, total: nat, wallet: string, minted: nat)
    requires Ledger(shares, total) && minted > 0
    ensures Ledger(shares[wallet := SharesIn(shares, wallet) + minted], total + minted)
    ensures SharesIn(shares, wallet) <= total
  {
    SumUpdate<string, nat>(shares, Holding(), wallet, SharesIn(shares, wallet) + minted);
  }

  lemma LedgerBurn(shares: map<string, nat>, total: nat, wallet: string, amount: nat)
    requires Ledger(shares, total) && 0 < amount <= SharesIn(shares, wallet)
    ensures amount <= total
    ensures Ledger(if SharesIn(shares, wallet) == amount then shares - {wallet}
                   else shares[wallet := SharesIn(shares, wallet) - amount], total - amount)
  {
    SumRemove<string, nat>(shares, Holding(), wallet);
    SumUpdate<string, nat>(shares, Holding(), wallet, SharesIn(shares, wallet) - amount);
  }

  /** `Totals::add_collateral` on the loaded positions: the new shares. */
  function Minted(balance: nat, positions: Positions, total: nat, funds: nat): (r: Result<nat, PoolError>)
    requires 0 < funds <= balance
    ensures r.Ok? ==> r.value > 0 && total + r.value <= MAX_ATOMS
  {
    var active :- ActiveCollateral(positions);
    var minted :- NewShares(balance, active, total, funds);
    var _ :- Lift(CheckedAdd(total, minted));
    MintedAtMostShare(balance, active, total, funds);
    Ok(minted)
  }

  /** `Totals::remove_collateral` on the loaded positions: the collateral to pay. */
  function Burned(balance: nat, positions: Positions, total: nat, amount: nat): Result<nat, PoolError> {
    var active :- ActiveCollateral(positions);
    RemovedCollateral(balance, active, total, amount)
  }

  /** What the pool is worth: the position's collateral counts towards it. */
  function PoolWorth(balance: nat, positions: Positions): nat {
    balance + if positions.OnePosition? then positions.active else 0
  }

  /** A deposit mints exactly what the share arithmetic does on the balance and the position's collateral, and nothing
      while the positions are not in order or the total would outgrow a decimal. */
  lemma MintedFromPool(balance: nat, positions: Positions, total: nat, funds: nat)
    requires 0 < funds <= balance
    ensures var minted := NewShares(balance, PoolWorth(balance, positions) - balance, total, funds);
            && (Minted(balance, positions, total, funds).Ok? <==>
                  Priceable(positions) && minted.Ok? && total + minted.value <= MAX_ATOMS)
            && (Minted(balance, positions, total, funds).Ok? ==> Minted(balance, positions, total, funds) == minted)
  {
    hide NewShares;
  }

  /** So does a withdrawal. */
  lemma BurnedFromPool(balance: nat, positions: Positions, total: nat, amount: nat)
    ensures var paid := RemovedCollateral(balance, PoolWorth(balance, positions) - balance, total, amount);
            && (Burned(balance, positions, total, amount).Ok? <==> Priceable(positions) && paid.Ok?)
            && (Burned(balance, positions, total, amount).Ok? ==> Burned(balance, positions, total, amount) == paid)
  {
    hide RemovedCollateral;
  }

  /** What reaches the wallet of a payment, which must be at least one token unit. */
  function Payable(paid: nat, unit: Unit): Result<nat, PoolError> {
    if paid == 0 then Err(ZeroCollateral)
    else
      var moved :- Lift(Transfer(paid, unit));
      if moved.None? then Err(BelowTokenPrecision) else Ok(moved.value)
  }

  lemma BurnedPaysAtMostBalance(balance: nat, positions: Positions, total: nat, amount: nat, unit: Unit)
    requires Burned(balance, positions, total, amount).Ok?
    requires Payable(Burned(balance, positions, total, amount).value, unit).Ok?
    ensures var paid := Burned(balance, positions, total, amount).value;
            var moved := Payable(paid, unit).value;
            0 < moved <= paid <= balance && moved == paid - paid % unit
  {
    TransferKeepsDust(Burned(balance, positions, total, amount).value, unit);
  }

  /** A withdrawal whose dust stays behind keeps the share value too: of a pool worth `worth` it leaves `rest`, and
      `left` of its shares. */
  lemma WithdrawalWithDustKeepsPrice(balance: nat, positions: Positions, total: nat, amount: nat, unit: Unit,
                                     paid: nat, worth: nat, rest: nat, left: int)
    requires Burned(balance, positions, total, amount) == Ok(paid) && Payable(paid, unit) == Ok(worth - rest)
    requires worth == PoolWorth(balance, positions) && left == total - amount
    ensures left >= 0 && PriceKept(worth, total, rest, left)
  {
    var active := ActiveCollateral(positions).value;
    BurnedPaysAtMostBalance(balance, positions, total, amount, unit);
    WithdrawalKeepsPrice(balance, active, total, amount);
    MulGap(rest, worth - paid, total);
  }

  /** When a market message goes through: its amounts fit the token, a collateral removal is at least one
      token unit, the balance covers the funds, and the market answers with an execution id. */
  predicate Sendable(action: MarketAction, unit: Unit, balance: nat, answer: MarketAnswer) {
    && FloorDiv(action.Funds(), unit) <= MAX_UNITS
    && (action.RemoveCollateral? ==> unit <= action.amount && FloorDiv(action.amount, unit) <= MAX_UNITS)
    && RoundDown(action.Funds(), unit) <= balance
    && answer.Queued? && answer.id.Some?
  }

  /** What a message that goes through takes from the balance: the whole units of the collateral it opens a
      position with or adds, or of the crank fee of a removal; closing a position takes nothing. */
  lemma FundsSent(action: MarketAction, unit: Unit)
    ensures RoundDown(action.Funds(), unit) ==
            match action
            case OpenPosition(collateral) => collateral - collateral % unit
            case ClosePosition => 0
            case AddCollateral(amount) => amount - amount % unit
            case RemoveCollateral(_, crankFee) => crankFee - crankFee % unit
  {
    WholeUnits(action.Funds(), unit);
  }

  // ----- The history of market actions -----

  datatype ExecEvent = Sent(id: nat) | Cleared(id: nat)

  /** Executions are sent and cleared in turn, each cleared before the next is sent. */
  ghost predicate Alternates(log: seq<ExecEvent>) {
    && (forall i | 0 <= i < |log| :: log[i].Sent? <==> i % 2 == 0)
    && (forall i | 0 < i < |log| && log[i].Cleared? :: log[i - 1] == Sent(log[i].id))
  }

  ghost function Outstanding(log: seq<ExecEvent>): Option<nat> {
    if log != [] && log[|log| - 1].Sent? then Some(log[|log| - 1].id) else None
  }

  ghost function CountSent(log: seq<ExecEvent>): nat {
    if log == [] then 0
    else CountSent(log[..|log| - 1]) + if log[|log| - 1].Sent? then 1 else 0
  }

  /** In any alternating history all executions but at most the last sent one were cleared. */
  lemma {:induction false} AtMostOneOutstanding(log: seq<ExecEvent>)
    requires Alternates(log)
    ensures 2 * CountSent(log) == |log| + if Outstanding(log).Some? then 1 else 0
  {
    if log != [] {
      AtMostOneOutstanding(log[..|log| - 1]);
    }
  }

  datatype Storage = Storage(shares: map<string, nat>, total: nat, deferred: Option<nat>, replyMarket: bool,
                             balance: nat)

  datatype Call =
    | Deposit(sender: string, funds: nat)
    | Withdraw(sender: string, amount: nat)
    | DoWork
    | Inflow(funds: nat)

  // ----- What a call does -----

  /** Exactly when a call succeeds. */
  predicate Succeeds(before: Storage, call: Call, view: View, unit: Unit) {
    match call
    case Deposit(_, funds) =>
      && before.deferred.None? && funds > 0
      && Minted(before.balance + funds, view.positions, before.total, funds).Ok?
    case Withdraw(sender, amount) =>
      && before.deferred.None? && amount <= SharesIn(before.shares, sender)
      && Burned(before.balance, view.positions, before.total, amount).Ok?
      && Payable(Burned(before.balance, view.positions, before.total, amount).value, unit).Ok?
    case DoWork =>
      var work := GetWork(before.total, before.deferred, before.balance, view);
      && work.Ok? && work.value.Some?
      && (work.value.value.Market? ==> Sendable(work.value.value.action, unit, before.balance, view.answer))
    case Inflow(_) => true
  }

  function Sold(shares: map<string, nat>, sender: string, amount: nat): map<string, nat>
    requires amount <= SharesIn(shares, sender)
  {
    if amount == SharesIn(shares, sender) then shares - {sender}
    else shares[sender := SharesIn(shares, sender) - amount]
  }

  /** What a unit of work leaves. */
  ghost predicate WorkDone(before: Storage, after: Storage, work: Work, view: View, unit: Unit) {
    match work
    case ResetShares => after == before.(shares := map[], total := 0)
    case ClearDeferredExec(id) => before.deferred == Some(id) && after == before.(deferred := None)
    case Market(action) =>
      && before.deferred.None? && view.answer.Queued? && view.answer.id.Some?
      && RoundDown(action.Funds(), unit) <= before.balance
      && after == before.(deferred := view.answer.id, balance := before.balance - RoundDown(action.Funds(), unit))
  }

  /** What a call that succeeds leaves. */
  ghost predicate Done(before: Storage, after: Storage, call: Call, view: View, unit: Unit)
    requires Succeeds(before, call, view, unit)
  {
    match call
    case Deposit(sender, funds) =>
      var minted := Minted(before.balance + funds, view.positions, before.total, funds).value;
      after == before.(balance := before.balance + funds, total := before.total + minted,
                       shares := before.shares[sender := SharesIn(before.shares, sender) + minted])
    case Withdraw(sender, amount) =>
      var moved := Payable(Burned(before.balance, view.positions, before.total, amount).value, unit).value;
      && amount <= before.total && moved <= before.balance
      && after == before.(balance := before.balance - moved, total := before.total - amount,
                          shares := Sold(before.shares, sender, amount))
    case DoWork =>
      WorkDone(before, after, GetWork(before.total, before.deferred, before.balance, view).value.value, view, unit)
    case Inflow(funds) => after == before.(balance := before.balance + funds)
  }

  /** One transaction: done, or as if it had not been. */
  ghost predicate Leads(before: Storage, after: Storage, call: Call, view: View, unit: Unit) {
    if Succeeds(before, call, view, unit) then Done(before, after, call, view, unit) else after == before
  }

  class Contract {
    const unit: Unit
    var shares: map<string, nat>
    var total: nat
    var deferred: Option<nat>
    var replyMarket: bool
    var balance: nat
    ghost var log: seq<ExecEvent>

    ghost predicate Valid()
      reads this
    {
      && Ledger(shares, total)
      && !replyMarket
      && (deferred.Some? ==> total > 0)
      && Alternates(log)
      && deferred == Outstanding(log)
    }

    function Snapshot(): Storage
      reads this
    {
      Storage(shares, total, deferred, replyMarket, balance)
    }

    function SharesOf(sender: string): nat
      reads this
    {
      SharesIn(shares, sender)
    }

    constructor (unit: Unit)
      ensures Valid() && this.unit == unit
      ensures Snapshot() == Storage(map[], 0, None, false, 0) && log == []
    {
      this.unit := unit;
      shares, total, deferred, replyMarket, balance := map[], 0, None, false, 0;
      log := [];
    }

    /** A deposit, whose funds the bank has already moved: refused while an execution is outstanding;
        otherwise the sender gets the new shares, and nobody else's change. */
    method ExecuteDeposit(sender: string, funds: nat, positions: Positions) returns (r: Result<(), PoolError>)
      requires Valid() && 0 < funds <= balance
      modifies `shares, `total
      ensures r.Ok? <==> old(deferred).None? && Minted(balance, positions, old(total), funds).Ok?
      ensures r.Ok? ==> (
        var minted := Minted(balance, positions, old(total), funds).value;
        && Valid()
        && shares == old(shares)[sender := old(SharesOf(sender)) + minted]
        && total == old(total) + minted)
    {
      var senderShares := SharesOf(sender);
      if deferred.Some? {
        return Err(DeferredExecPending);
      }
      var minted :- Minted(balance, positions, total, funds);
      LedgerMint(shares, total, sender, minted);
      assert CheckedAdd(senderShares, minted).Ok?;
      shares := shares[sender := senderShares + minted];
      total := total + minted;
      r := Ok(());
    }

    /** A withdrawal: refused while an execution is outstanding, and when it would pay less than one token
        unit; what the token cannot represent stays in the pool. */
    method ExecuteWithdraw(sender: string, amount: nat, positions: Positions) returns (r: Result<nat, PoolError>)
      requires Valid() && amount > 0
      modifies `shares, `total, `balance
      ensures r.Ok? <==>
        && old(deferred).None?
        && amount <= old(SharesOf(sender))
        && Burned(old(balance), positions, old(total), amount).Ok?
        && Payable(Burned(old(balance), positions, old(total), amount).value, unit).Ok?
      ensures r.Ok? ==> (
        && Valid()
        && r == Payable(Burned(old(balance), positions, old(total), amount).value, unit)
        && shares == (if amount == old(SharesOf(sender)) then old(shares) - {sender}
                      else old(shares)[sender := old(SharesOf(sender)) - amount])
        && total == old(total) - amount
        && balance == old(balance) - r.value)
    {
      if deferred.Some? {
        return Err(DeferredExecPending);
      }
      var senderShares := SharesOf(sender);
      if senderShares < amount {
        return Err(InsufficientShares);
      }
      var paid :- Burned(balance, positions, total, amount);
      LedgerBurn(shares, total, sender, amount);
      shares := if senderShares == amount then shares - {sender} else shares[sender := senderShares - amount];
      total := total - amount;
      var moved :- Payable(paid, unit);
      BurnedPaysAtMostBalance(old(balance), positions, old(total), amount, unit);
      balance := balance - moved;
      r := Ok(moved);
    }

    /** The market's reply: its event names the deferred execution to wait for. */
    method Reply(id: Option<nat>) returns (r: Result<(), PoolError>)
      requires replyMarket && deferred.None?
      modifies `replyMarket, `deferred
      ensures r.Ok? <==> id.Some?
      ensures r.Ok? ==> !replyMarket && deferred == id
    {
      if !replyMarket {
        return Err(NoReplyMarket);
      }
      replyMarket := false;
      if id.None? {
        return Err(ReplyWithoutExecId);
      }
      if deferred.Some? {
        return Err(DeferredExecPending);
      }
      deferred := id;
      r := Ok(());
    }

    /** Sends one market message together with its reply; a refused message or a failing reply is an error. */
    method SendMarketMessage(action: MarketAction, answer: MarketAnswer) returns (r: Result<(), PoolError>)
      requires !replyMarket && deferred.None?
      modifies `replyMarket, `deferred, `balance
      ensures r.Ok? <==> Sendable(action, unit, old(balance), answer)
      ensures r.Ok? ==> !replyMarket && deferred == answer.id
      ensures r.Ok? ==> balance == old(balance) - RoundDown(action.Funds(), unit)
    {
      RoundDownBounds(action.Funds(), unit);
      if action.RemoveCollateral? {
        var amount :- Lift(Transfer(action.amount, unit));
        TransferKeepsDust(action.amount, unit);
        if amount.None? {
          return Err(BelowTokenPrecision);
        }
      }
      var funds :- Lift(Transfer(action.Funds(), unit));
      assert !replyMarket;
      replyMarket := true;
      if RoundDown(action.Funds(), unit) > balance || answer.Refused? {
        return Err(MarketRefused);
      }
      balance := balance - RoundDown(action.Funds(), unit);
      r := Reply(answer.id);
    }

    /** One `DoWork` call. Its two assertions are the contract's own and never fail. */
    method ExecuteWork(view: View) returns (r: Result<(), PoolError>)
      requires Valid()
      modifies this
      ensures r.Ok? <==> (
        var work := old(GetWork(total, deferred, balance, view));
        && work.Ok? && work.value.Some?
        && (work.value.value.Market? ==> Sendable(work.value.value.action, unit, old(balance), view.answer)))
      ensures r.Ok? ==> (
        var work := old(GetWork(total, deferred, balance, view)).value;
        && Valid()
        && work.Some?
        && match work.value
        case ResetShares =>
          shares == map[] && total == 0 && deferred.None? && balance == old(balance) && log == old(log)
        case ClearDeferredExec(id) =>
          && old(deferred) == Some(id) && deferred.None? && log == old(log) + [Cleared(id)]
          && shares == old(shares) && total == old(total) && balance == old(balance)
        case Market(action) =>
          && old(deferred).None? && deferred.Some? && view.answer == Queued(deferred)
          && log == old(log) + [Sent(deferred.value)]
          && shares == old(shares) && total == old(total)
          && balance == old(balance) - RoundDown(action.Funds(), unit))
    {
      WorkRespectsDeferred(total, deferred, balance, view);
      var work :- GetWork(total, deferred, balance, view);
      if work.None? {
        return Err(NoWork);
      }
      match work.value {
        case ResetShares =>
          shares := map[];
          total := 0;
        case ClearDeferredExec(id) =>
          assert deferred == Some(id);
          deferred := None;
          log := log + [Cleared(id)];
        case Market(action) =>
          assert deferred == None;
          var _ :- SendMarketMessage(action, view.answer);
          log := log + [Sent(deferred.value)];
      }
      r := Ok(());
    }

    method Restore(saved: Storage)
      modifies `shares, `total, `deferred, `replyMarket, `balance
      ensures Snapshot() == saved
    {
      shares, total, deferred, replyMarket, balance :=
        saved.shares, saved.total, saved.deferred, saved.replyMarket, saved.balance;
    }

    /** One transaction: an error restores everything, the attached funds included. Whatever happens, the
        invariant holds afterwards, and while the same execution stays outstanding nobody's shares change. */
    method Execute(call: Call, view: View) returns (r: Result<(), PoolError>)
      requires Valid()
      requires call.Deposit? ==> call.funds > 0
      requires call.Withdraw? ==> call.amount > 0
      modifies this
      ensures Valid()
      ensures r.Ok? <==> Succeeds(old(Snapshot()), call, view, unit)
      ensures Leads(old(Snapshot()), Snapshot(), call, view, unit)
      ensures r.Err? ==> log == old(log)
      ensures old(log) <= log
      ensures old(deferred).Some? && log == old(log) ==> shares == old(shares) && total == old(total)
      ensures log == old(log) || (call.DoWork? && |log| == |old(log)| + 1)
    {
      hide Minted, Burned, Payable, GetWork, Sendable, Alternates, RoundDown;
      var saved := Snapshot();
      ghost var savedLog := log;
      match call {
        case Deposit(sender, funds) =>
          balance := balance + funds;
          r := ExecuteDeposit(sender, funds, view.positions);
        case Withdraw(sender, amount) =>
          var paid := ExecuteWithdraw(sender, amount, view.positions);
          r := if paid.Ok? then Ok(()) else Err(paid.error);
        case DoWork =>
          r := ExecuteWork(view);
        case Inflow(funds) =>
          balance := balance + funds;
          r := Ok(());
      }
      if r.Err? {
        Restore(saved);
        log := savedLog;
      }
    }

    /** Every run of calls, whatever the market answers, goes through the states that its calls lead to one after
        the other, and keeps the invariant; as long as no execution is sent or cleared, an outstanding one freezes
        every wallet's shares. */
    method Run(calls: seq<(Call, View)>) returns (ghost states: seq<Storage>)
      requires Valid()
      requires forall i | 0 <= i < |calls| ::
        (calls[i].0.Deposit? ==> calls[i].0.funds > 0) && (calls[i].0.Withdraw? ==> calls[i].0.amount > 0)
      modifies this
      ensures Valid()
      ensures |states| == |calls| + 1 && states[0] == old(Snapshot()) && states[|calls|] == Snapshot()
      ensures forall i | 0 <= i < |calls| :: Leads(states[i], states[i + 1], calls[i].0, calls[i].1, unit)
      ensures old(log) <= log
      ensures old(deferred).Some? && log == old(log) ==> shares == old(shares) && total == old(total)
    {
      hide Leads;
      states := [Snapshot()];
      for i := 0 to |calls|
        invariant Valid()
        invariant |states| == i + 1 && states[0] == old(Snapshot()) && states[i] == Snapshot()
        invariant forall k | 0 <= k < i :: Leads(states[k], states[k + 1], calls[k].0, calls[k].1, unit)
        invariant old(log) <= log
        invariant old(deferred).Some? && log == old(log) ==> shares == old(shares) && total == old(total)
      {
        var _ := Execute(calls[i].0, calls[i].1);
        states := states + [Snapshot()];
      }
    }
  }
}
