/** The copy-trading pool's token value: how it is computed, and what deposits and withdrawals priced at it
    do to the pool. */
module LpValue {
  import opened Wrappers
  import opened Decimals

  datatype LpError = Arithmetic(cause: DecimalError) | ZeroShares | ZeroFunds

  function Lift<T>(r: Result<T, DecimalError>): Result<T, LpError> {
    match r
    case Ok(v) => Ok(v)
    case Err(e) => Err(Arithmetic(e))
  }

  /** `OneLpTokenValue::collateral_to_shares` */
  function CollateralToShares(value: nat, funds: nat): Result<nat, LpError> {
    var shares :- Lift(CheckedDiv(funds, value));
    if shares == 0 then Err(ZeroShares) else Ok(shares)
  }

  /** `OneLpTokenValue::shares_to_collateral` */
  function SharesToCollateral(value: nat, shares: nat): Result<nat, LpError> {
    var funds :- Lift(CheckedMul(value, shares));
    if funds == 0 then Err(ZeroFunds) else Ok(funds)
  }

  /** The value of one share of a pool worth `total`: one while the pool is empty of either. */
  function Valuation(total: nat, shares: nat): Result<nat, LpError> {
    if shares == 0 || total == 0 then Ok(ONE) else Lift(CheckedDiv(total, shares))
  }

  /** The shares, at `value` each, are worth no more than the pool. */
  ghost predicate Backed(value: nat, total: nat, shares: nat) {
    value * shares <= total * ONE
  }

  /** The value is the pool over the shares, rounded down by less than an atom. */
  lemma ValuationIsShare(total: nat, shares: nat)
    requires Valuation(total, shares).Ok?
    ensures var value := Valuation(total, shares).value;
            if total == 0 || shares == 0 then value == ONE else value * shares <= total * ONE < (value + 1) * shares
  {
    if shares != 0 && total != 0 {
      FloorDivBounds(total * ONE, shares);
    }
  }

  /** A valuation is backed exactly unless shares are outstanding on a pool worth nothing. */
  lemma ValuationBacked(total: nat, shares: nat)
    requires Valuation(total, shares).Ok?
    ensures Backed(Valuation(total, shares).value, total, shares) <==> (total > 0 || shares == 0)
  {
    if shares != 0 && total != 0 {
      FloorDivBounds(total * ONE, shares);
    }
  }

  lemma DepositKeepsBacked(value: nat, total: nat, shares: nat, funds: nat)
    requires Backed(value, total, shares)
    requires CollateralToShares(value, funds).Ok?
    ensures Backed(value, total + funds, shares + CollateralToShares(value, funds).value)
  {
    FloorDivBounds(funds * ONE, value);
    DistributeSum(value, shares, CollateralToShares(value, funds).value);
  }

  lemma DistributeSum(value: nat, shares: nat, minted: nat)
    ensures value * (shares + minted) == value * shares + minted * value
  {
  }

  /** What the remaining shares are worth shrinks by at least what was paid. */
  lemma WithdrawalKeepsBacked(value: nat, total: nat, shares: nat, burned: nat)
    requires Backed(value, total, shares) && burned <= shares
    requires SharesToCollateral(value, burned).Ok?
    ensures SharesToCollateral(value, burned).value <= total
    ensures Backed(value, total - SharesToCollateral(value, burned).value, shares - burned)
  {
    var paid := SharesToCollateral(value, burned).value;
    FloorDivBounds(value * burned, ONE);
    MulGap(shares, burned, value);
    assert value * shares == shares * value && value * burned == burned * value
           && value * (shares - burned) == (shares - burned) * value;
    CancelLe(paid, total, ONE);
  }

  /** A deposit and the withdrawal of its shares at one value return at most the deposit, and lose less than
      the value of one atom of shares and one atom of collateral. */
  lemma RoundTripNeverGains(value: nat, funds: nat)
    requires CollateralToShares(value, funds).Ok?
    ensures var back := MulFloor(value, CollateralToShares(value, funds).value);
            back <= funds && funds * ONE < (back + 1) * ONE + value
  {
    var minted := CollateralToShares(value, funds).value;
    var back := MulFloor(value, minted);
    FloorDivBounds(funds * ONE, value);
    FloorDivBounds(value * minted, ONE);
    assert value * minted == minted * value;
    CancelLe(back, funds, ONE);
  }

  // ----- Any number of deposits and withdrawals at one value -----

  datatype Pool = Pool(total: nat, shares: nat)

  datatype Request = Add(funds: nat) | Remove(shares: nat)

  /** A request that cannot be served leaves the pool as it is. */
  function Serve(pool: Pool, value: nat, request: Request): Pool {
    match request
    case Add(funds) =>
      var minted := CollateralToShares(value, funds);
      if minted.Ok? then Pool(pool.total + funds, pool.shares + minted.value) else pool
    case Remove(burned) =>
      var paid := SharesToCollateral(value, burned);
      if paid.Ok? && burned <= pool.shares && paid.value <= pool.total
      then Pool(pool.total - paid.value, pool.shares - burned) else pool
  }

  function ServeAll(pool: Pool, value: nat, requests: seq<Request>): Pool {
    if requests == [] then pool
    else Serve(ServeAll(pool, value, requests[..|requests| - 1]), value, requests[|requests| - 1])
  }

  /** Once backed, the pool stays backed through any requests at that value; and then no withdrawal of
      outstanding shares is ever short of collateral. */
  lemma {:induction false} ServeAllKeepsBacked(pool: Pool, value: nat, requests: seq<Request>)
    requires Backed(value, pool.total, pool.shares)
    ensures var after := ServeAll(pool, value, requests);
            && Backed(value, after.total, after.shares)
            && forall burned: nat | burned <= after.shares && SharesToCollateral(value, burned).Ok? ::
                 SharesToCollateral(value, burned).value <= after.total
  {
    var after := ServeAll(pool, value, requests);
    if requests != [] {
      var before := requests[..|requests| - 1];
      ServeAllKeepsBacked(pool, value, before);
      ServeKeepsBacked(ServeAll(pool, value, before), value, requests[|requests| - 1]);
    }
    forall burned: nat | burned <= after.shares && SharesToCollateral(value, burned).Ok?
      ensures SharesToCollateral(value, burned).value <= after.total
    {
      WithdrawalKeepsBacked(value, after.total, after.shares, burned);
    }
  }

  lemma ServeKeepsBacked(pool: Pool, value: nat, request: Request)
    requires Backed(value, pool.total, pool.shares)
    ensures var after := Serve(pool, value, request); Backed(value, after.total, after.shares)
  {
    match request
    case Add(funds) =>
      if CollateralToShares(value, funds).Ok? {
        DepositKeepsBacked(value, pool.total, pool.shares, funds);
      }
    case Remove(burned) =>
      if SharesToCollateral(value, burned).Ok? && burned <= pool.shares {
        WithdrawalKeepsBacked(value, pool.total, pool.shares, burned);
      }
  }
}
