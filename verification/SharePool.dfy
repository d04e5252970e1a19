/** The countertrade contract's share arithmetic: what a deposit mints and what a withdrawal pays, with
    every division and product rounded down. */
module SharePool {
  import opened Wrappers
  import opened Decimals
  import opened MapSums

  datatype PoolError =
    | Arithmetic(cause: DecimalError)
    | InvalidTotals
    | ZeroShares
    | ZeroCollateral
    | InsufficientCollateral
    | InsufficientShares
    | TooManyPositions
    | PositionUnhealthy
    | DeferredExecPending
    | DeferredExecMissing
    | BelowTokenPrecision
    | NoWork
    | MarketRefused
    | NoReplyMarket
    | ReplyWithoutExecId

  function Lift<T>(r: Result<T, DecimalError>): Result<T, PoolError> {
    match r
    case Ok(v) => Ok(v)
    case Err(e) => Err(Arithmetic(e))
  }

  /** The contract's positions in the market: `PositionsInfo`. `Unhealthy` is a failed load. */
  datatype Positions = Unhealthy | TooMany | NoPosition | OnePosition(active: nat)

  function ActiveCollateral(positions: Positions): Result<nat, PoolError> {
    match positions
    case Unhealthy => Err(PositionUnhealthy)
    case TooMany => Err(TooManyPositions)
    case NoPosition => Ok(0)
    case OnePosition(active) => Ok(active)
  }

  /** `Totals::shares_to_collateral` for a pool worth `total` with `shares` outstanding. */
  function SharesToCollateral(total: nat, shares: nat, amount: nat): Result<nat, PoolError> {
    var value :- Lift(CheckedDiv(total, shares));
    Lift(CheckedMul(amount, value))
  }

  /** The collateral a deposit finds in the pool: the balance, which already holds the funds, and the
      position's collateral, less the funds. */
  function CollateralBefore(balance: nat, active: nat, funds: nat): Result<nat, PoolError> {
    var total :- Lift(CheckedAdd(balance, active));
    Lift(CheckedSub(total, funds))
  }

  /** `Totals::add_collateral`: the shares minted for funds that the balance already holds. */
  function NewShares(balance: nat, active: nat, shares: nat, funds: nat): Result<nat, PoolError> {
    var collateral :- CollateralBefore(balance, active, funds);
    if (collateral == 0 && shares == 0) || balance == 0 then Ok(funds)
    else if collateral == 0 || shares == 0 then Err(InvalidTotals)
    else
      var units :- Lift(CheckedDiv(funds, collateral));
      var minted :- Lift(CheckedMul(units, shares));
      if minted == 0 then Err(ZeroShares) else Ok(minted)
  }

  /** `Totals::remove_collateral`: the collateral paid for burning `amount` shares. */
  function RemovedCollateral(balance: nat, active: nat, shares: nat, amount: nat): Result<nat, PoolError> {
    var total :- Lift(CheckedAdd(balance, active));
    var collateral :- SharesToCollateral(total, shares, amount);
    if collateral > balance then Err(InsufficientCollateral)
    else if amount > shares then Err(InsufficientShares)
    else Ok(collateral)
  }

  // ----- Nobody gains from rounding -----

  /** A quotient and then a product, each rounded down, stay below the exact proportion. */
  lemma ProportionRoundsDown(part: nat, whole: nat, scale: nat)
    requires whole > 0
    ensures MulFloor(DivFloor(part, whole), scale) * whole <= part * scale
  {
    var units := DivFloor(part, whole);
    var result := MulFloor(units, scale);
    FloorDivBounds(part * ONE, whole);
    FloorDivBounds(units * scale, ONE);
    MulGap(units * scale, result * ONE, whole);
    MulGap(part * ONE, units * whole, scale);
    Rearrange(units, scale, whole);
    Rearrange(result, ONE, whole);
    Rearrange(part, ONE, scale);
    CancelLe(result * whole, part * scale, ONE);
  }

  lemma Rearrange(a: int, b: int, c: int)
    ensures a * b * c == a * c * b
  {
  }

  /** The result is the proportion of the scale, less at most one atom of the quotient for every unit of the scale and
      one of the product. */
  ghost predicate InProportion(part: nat, whole: nat, scale: nat, result: nat) {
    && result * whole <= part * scale
    && part * scale * ONE < result * whole * ONE + scale * whole + whole * ONE
  }

  lemma ProportionKeepsMost(part: nat, whole: nat, scale: nat)
    requires whole > 0
    ensures InProportion(part, whole, scale, MulFloor(DivFloor(part, whole), scale))
  {
    var units := DivFloor(part, whole);
    var result := MulFloor(units, scale);
    FloorDivBounds(part * ONE, whole);
    FloorDivBounds(units * scale, ONE);
    MulGap(units * whole + whole, part * ONE, scale);
    MulGap(result * ONE + ONE, units * scale, whole);
    Rearrange(part, ONE, scale);
    Rearrange(result, ONE, whole);
    Rearrange(units, whole, scale);
    Distribute(units * whole, whole, scale);
    Distribute(result * ONE, ONE, whole);
    Distribute(scale, ONE, whole);
    ProportionRoundsDown(part, whole, scale);
  }

  /** A deposit mints no more than its share of the pool. */
  lemma MintedAtMostShare(balance: nat, active: nat, shares: nat, funds: nat)
    requires funds > 0 && funds <= balance
    requires NewShares(balance, active, shares, funds).Ok?
    ensures var minted, collateral := NewShares(balance, active, shares, funds).value, balance + active - funds;
            minted > 0 && minted * collateral <= funds * shares
  {
    var collateral := balance + active - funds;
    if collateral != 0 {
      ProportionRoundsDown(funds, collateral, shares);
    }
  }

  /** Nor less, but for the two roundings; an empty pool mints exactly the funds. */
  lemma MintedAtLeastShare(balance: nat, active: nat, shares: nat, funds: nat, minted: nat)
    requires funds > 0 && funds <= balance
    requires NewShares(balance, active, shares, funds) == Ok(minted)
    ensures var collateral := balance + active - funds;
            if shares == 0 then minted == funds else InProportion(funds, collateral, shares, minted)
  {
    var collateral := balance + active - funds;
    if collateral != 0 {
      ProportionKeepsMost(funds, collateral, shares);
    }
  }

  /** A withdrawal pays no more than the burned shares' part of the pool. */
  lemma PaidAtMostShare(balance: nat, active: nat, shares: nat, amount: nat)
    requires RemovedCollateral(balance, active, shares, amount).Ok?
    ensures var paid := RemovedCollateral(balance, active, shares, amount).value;
            amount <= shares && paid <= balance && paid * shares <= (balance + active) * amount
  {
    var total := balance + active;
    var value := DivFloor(total, shares);
    assert MulFloor(amount, value) == MulFloor(value, amount) by {
      assert amount * value == value * amount;
    }
    ProportionRoundsDown(total, shares, amount);
  }

  /** Nor less, but for the two roundings. */
  lemma PaidAtLeastShare(balance: nat, active: nat, shares: nat, amount: nat, paid: nat)
    requires RemovedCollateral(balance, active, shares, amount) == Ok(paid)
    ensures InProportion(balance + active, shares, amount, paid)
  {
    var total := balance + active;
    var value := DivFloor(total, shares);
    assert MulFloor(amount, value) == MulFloor(value, amount) by {
      assert amount * value == value * amount;
    }
    ProportionKeepsMost(total, shares, amount);
  }

  /** The value of a share, as collateral over shares, does not fall from (c, s) to (c', s'). */
  ghost predicate PriceKept(c: nat, s: nat, c': nat, s': nat) {
    c * s' <= c' * s
  }

  lemma DepositKeepsPrice(balance: nat, active: nat, shares: nat, funds: nat)
    requires funds > 0 && funds <= balance
    requires NewShares(balance, active, shares, funds).Ok?
    ensures PriceKept(balance + active - funds, shares, balance + active,
                      shares + NewShares(balance, active, shares, funds).value)
  {
    hide NewShares;
    MintedAtMostShare(balance, active, shares, funds);
    var c, minted := balance + active - funds, NewShares(balance, active, shares, funds).value;
    Distribute(shares, minted, c);
    Distribute(c, funds, shares);
  }

  lemma WithdrawalKeepsPrice(balance: nat, active: nat, shares: nat, amount: nat)
    requires RemovedCollateral(balance, active, shares, amount).Ok?
    ensures var paid := RemovedCollateral(balance, active, shares, amount).value;
            amount <= shares && paid <= balance &&
            PriceKept(balance + active, shares, balance + active - paid, shares - amount)
  {
    hide RemovedCollateral;
    PaidAtMostShare(balance, active, shares, amount);
    var c, paid := balance + active, RemovedCollateral(balance, active, shares, amount).value;
    Distribute(shares - amount, amount, c);
    Distribute(c - paid, paid, shares);
  }

  /** Depositing and at once withdrawing the minted shares returns at most the deposit. */
  lemma RoundTripNeverGains(balance: nat, active: nat, shares: nat, funds: nat)
    requires funds > 0 && funds <= balance
    requires NewShares(balance, active, shares, funds).Ok?
    ensures var minted := NewShares(balance, active, shares, funds).value;
            var paid := RemovedCollateral(balance, active, shares + minted, minted);
            paid.Ok? ==> paid.value <= funds
  {
    hide NewShares, RemovedCollateral;
    var minted := NewShares(balance, active, shares, funds).value;
    var paid := RemovedCollateral(balance, active, shares + minted, minted);
    MintedAtMostShare(balance, active, shares, funds);
    if paid.Ok? {
      PaidAtMostShare(balance, active, shares + minted, minted);
      ReturnsAtMost(balance + active - funds, shares, funds, minted, paid.value);
    }
  }

  /** What is minted and what is paid, each at most its proportion, return at most the funds. */
  lemma ReturnsAtMost(collateral: nat, shares: nat, funds: nat, minted: nat, paid: nat)
    requires minted > 0 && minted * collateral <= funds * shares
    requires paid * (shares + minted) <= (collateral + funds) * minted
    ensures paid <= funds
  {
    Distribute(collateral, funds, minted);
    Distribute(shares, minted, funds);
    CancelLe(paid, funds, shares + minted);
  }

  lemma Distribute(a: int, b: int, c: int)
    ensures (a + b) * c == a * c + b * c == c * (a + b)
    ensures a * c == c * a && b * c == c * b
  {
  }

  // ----- When a deposit is accepted -----

  /** A pool that has paid out its last share but kept some dust refuses every later deposit; apart from
      that, and from funds too small to mint or too large for a decimal, a deposit is accepted. */
  lemma DepositAccepted(balance: nat, active: nat, shares: nat, funds: nat)
    requires funds > 0 && funds <= balance
    requires balance + active <= MAX_ATOMS
    ensures var collateral := balance + active - funds;
            NewShares(balance, active, shares, funds).Ok? <==>
            if collateral == 0 || shares == 0 then collateral == 0 && shares == 0
            else
              && DivFloor(funds, collateral) <= MAX_ATOMS
              && ONE <= DivFloor(funds, collateral) * shares < (MAX_ATOMS + 1) * ONE
  {
    var collateral := balance + active - funds;
    if collateral != 0 && shares != 0 {
      var product := DivFloor(funds, collateral) * shares;
      FloorDivBounds(product, ONE);
    }
  }

  /** Exactly which withdrawals are accepted: of at most the shares there are, at a value per share that is a
      decimal, and worth no more than the balance. */
  lemma WithdrawalAccepted(balance: nat, active: nat, shares: nat, amount: nat)
    requires balance + active <= MAX_ATOMS
    ensures RemovedCollateral(balance, active, shares, amount).Ok? <==>
              && 0 < shares && amount <= shares && DivFloor(balance + active, shares) <= MAX_ATOMS
              && amount * DivFloor(balance + active, shares) < (balance + 1) * ONE
  {
    if shares > 0 {
      var product := amount * DivFloor(balance + active, shares);
      FloorDivBounds(product, ONE);
      if product < (balance + 1) * ONE {
        CancelLt(FloorDiv(product, ONE), balance + 1, ONE);
      }
    }
  }

  /** Three shares of ten atoms are worth nine: burning the last shares can leave dust. */
  lemma LastShareLeavesDust()
    ensures RemovedCollateral(10, 0, 3, 3) == Result<nat, PoolError>.Ok(9)
  {
    assert DivFloor(10, 3) == 3_333_333_333_333_333_333;
    assert MulFloor(3, 3_333_333_333_333_333_333) == 9;
  }

  // ----- The pool can pay every wallet -----

  function PayoutAt(value: nat): (string, nat) -> nat {
    (wallet, amount) => MulFloor(amount, value)
  }

  function Holding(): (string, nat) -> nat {
    (wallet, amount) => amount
  }

  lemma PayoutStep(held: nat, rest: nat, value: nat, paid: nat, restPaid: nat)
    requires paid * ONE <= held * value && restPaid * ONE <= value * rest
    ensures (paid + restPaid) * ONE <= value * (held + rest)
  {
    assert value * (held + rest) == held * value + value * rest;
  }

  lemma PaidBelowValue(held: nat, value: nat)
    ensures MulFloor(held, value) * ONE <= held * value
  {
    FloorDivBounds(held * value, ONE);
  }

  lemma TakeHolder(holders: map<string, nat>, value: nat, w: string)
    requires w in holders
    ensures Sum(holders, PayoutAt(value)) == MulFloor(holders[w], value) + Sum(holders - {w}, PayoutAt(value))
    ensures Sum(holders, Holding()) == holders[w] + Sum(holders - {w}, Holding())
    ensures |holders - {w}| < |holders|
  {
    hide MulFloor;
    SumTake(holders, PayoutAt(value), w);
    SumTake(holders, Holding(), w);
  }

  lemma NoHolders(value: nat)
    ensures Sum<string, nat>(map[], PayoutAt(value)) == 0 == value * Sum<string, nat>(map[], Holding())
  {
  }

  lemma {:induction false} PayoutsWithinValue(holders: map<string, nat>, value: nat)
    ensures Sum<string, nat>(holders, PayoutAt(value)) * ONE <= value * Sum<string, nat>(holders, Holding())
    decreases |holders|
  {
    hide Sum, MulFloor;
    if holders == map[] {
      NoHolders(value);
    } else {
      var w :| w in holders;
      TakeHolder(holders, value, w);
      PayoutsWithinValue(holders - {w}, value);
      PaidBelowValue(holders[w], value);
      PayoutStep(holders[w], Sum(holders - {w}, Holding()), value,
                 MulFloor(holders[w], value), Sum(holders - {w}, PayoutAt(value)));
    }
  }

  /** What all wallets together could claim at the current share value is in the pool. */
  lemma PoolIsSolvent(holders: map<string, nat>, total: nat)
    requires Sum(holders, Holding()) > 0
    ensures Sum(holders, PayoutAt(DivFloor(total, Sum(holders, Holding())))) <= total
  {
    var shares := Sum(holders, Holding());
    var value := DivFloor(total, shares);
    PayoutsWithinValue(holders, value);
    FloorDivBounds(total * ONE, shares);
    CancelLe(Sum(holders, PayoutAt(value)), total, ONE);
  }

  // ----- Any run of deposits and withdrawals -----

  /** The pool as its depositors see it; the position's collateral stays what it is. */
  datatype Pool = Pool(balance: nat, active: nat, shares: nat) {
    function Collateral(): nat {
      balance + active
    }
  }

  datatype PoolOp = DepositOp(funds: nat) | WithdrawOp(amount: nat)

  /** A refused operation changes nothing. */
  function Step(pool: Pool, op: PoolOp): Pool {
    match op
    case DepositOp(funds) =>
      if funds > 0 && NewShares(pool.balance + funds, pool.active, pool.shares, funds).Ok? then
        pool.(balance := pool.balance + funds,
              shares := pool.shares + NewShares(pool.balance + funds, pool.active, pool.shares, funds).value)
      else pool
    case WithdrawOp(amount) =>
      if RemovedCollateral(pool.balance, pool.active, pool.shares, amount).Ok? then
        PaidAtMostShare(pool.balance, pool.active, pool.shares, amount);
        pool.(balance := pool.balance - RemovedCollateral(pool.balance, pool.active, pool.shares, amount).value,
              shares := pool.shares - amount)
      else pool
  }

  function Run(pool: Pool, ops: seq<PoolOp>): Pool {
    if ops == [] then pool else Step(Run(pool, ops[..|ops| - 1]), ops[|ops| - 1])
  }

  lemma StepKeepsPrice(pool: Pool, op: PoolOp)
    ensures PriceKept(pool.Collateral(), pool.shares, Step(pool, op).Collateral(), Step(pool, op).shares)
  {
    hide NewShares, RemovedCollateral;
    match op
    case DepositOp(funds) =>
      if funds > 0 && NewShares(pool.balance + funds, pool.active, pool.shares, funds).Ok? {
        DepositKeepsPrice(pool.balance + funds, pool.active, pool.shares, funds);
      }
    case WithdrawOp(amount) =>
      if RemovedCollateral(pool.balance, pool.active, pool.shares, amount).Ok? {
        WithdrawalKeepsPrice(pool.balance, pool.active, pool.shares, amount);
      }
  }

  lemma PriceKeptChains(c: nat, s: nat, c': nat, s': nat, c'': nat, s'': nat)
    requires s' > 0
    requires PriceKept(c, s, c', s') && PriceKept(c', s', c'', s'')
    ensures PriceKept(c, s, c'', s'')
  {
    MulGap(c' * s, c * s', s'');
    MulGap(c'' * s', c' * s'', s);
    Rearrange(c, s', s'');
    Rearrange(c', s, s'');
    Rearrange(c'', s', s);
    CancelLe(c * s'', c'' * s, s');
  }

  /** As long as shares stay outstanding, no run of deposits and withdrawals lowers the share value. */
  lemma {:induction false} RunKeepsPrice(pool: Pool, ops: seq<PoolOp>)
    requires forall i :: 0 <= i < |ops| ==> Run(pool, ops[..i]).shares > 0
    ensures PriceKept(pool.Collateral(), pool.shares, Run(pool, ops).Collateral(), Run(pool, ops).shares)
  {
    if ops != [] {
      var before := ops[..|ops| - 1];
      forall i | 0 <= i < |before| ensures Run(pool, before[..i]).shares > 0 {
        assert before[..i] == ops[..i];
      }
      RunKeepsPrice(pool, before);
      var middle := Run(pool, before);
      StepKeepsPrice(middle, ops[|ops| - 1]);
      PriceKeptChains(pool.Collateral(), pool.shares, middle.Collateral(), middle.shares,
                      Run(pool, ops).Collateral(), Run(pool, ops).shares);
    }
  }

  /** A pool with collateral and no shares is stuck: no run of deposits and withdrawals changes it. */
  lemma {:induction false} DustStaysForever(pool: Pool, ops: seq<PoolOp>)
    requires pool.shares == 0 && pool.Collateral() > 0
    ensures Run(pool, ops) == pool
  {
    if ops != [] {
      DustStaysForever(pool, ops[..|ops| - 1]);
    }
  }

  /** From ten atoms and three shares, one withdrawal leads there: whatever follows, an atom stays behind. */
  lemma DustRun(ops: seq<PoolOp>)
    ensures Run(Step(Pool(10, 0, 3), WithdrawOp(3)), ops) == Pool(1, 0, 0)
  {
    LastShareLeavesDust();
    DustStaysForever(Pool(1, 0, 0), ops);
  }
}
