/** Pricing a token that has a single market: the contract's calls and the scan of that market together. */
module OneMarketPricing {
  import opened Wrappers
  import opened Decimals
  import opened CopyLedger
  import opened CopyModel
  import opened CopyInvariant
  import opened MarketScan
  import CopyTrading
  import LpValue

  /** What a call of the scan means to the contract. */
  function ScanOf(verdict: Verdict, active: nat): Scan {
    match verdict
    case InProgress => Cut
    case Failed => Changed
    case Success => Done(active)
  }

  /** The pool's worth per share, with what the market's listing adds to it. */
  function Worth(s: Storage, token: Token, listing: Listing): Result<nat, CopyError> {
    var total :- Lift(CheckedAdd(TotalsAt(s.totals, token).collateral,
                                 Total(listing.positions) + Total(listing.orders)));
    LiftPrice(LpValue.Valuation(total, TotalsAt(s.totals, token).shares))
  }

  /** The token is to be valued for the current element. */
  ghost predicate Due(s: Storage, token: Token) {
    && CurrentElement(s).Some?
    && token in s.prices && s.prices[token].status != ValidFor(CurrentElement(s).value)
  }

  /** The storage after the scan has ended with this verdict. */
  ghost function Valued(s: Storage, token: Token, listing: Listing, valid: bool): Storage
    requires Due(s, token) && (valid ==> Worth(s, token, listing).Ok?)
  {
    s.(batch := NoBatch,
       prices := if valid then
                   s.prices[token := LpTokenValue(Worth(s, token, listing).value, ValidFor(CurrentElement(s).value))]
                 else s.prices)
  }

  /** Between the calls of one scan only the batch record differs. */
  ghost predicate Scanning(start: Storage, s: Storage, token: Token) {
    s == start || s == start.(batch := BatchLpTokenValue(token))
  }

  /** A call with the scan's verdict records a cut, gives up, or stores the pool's worth with the active
      collateral found. */
  lemma CallPrices(start: Storage, s: Storage, token: Token, units: Units, env: Env, listing: Listing)
    requires Scanning(start, s, token) && Due(start, token) && GetWork(s, env) == Ok(ComputeLpTokenValue(token))
    requires env.scan.Done? ==> env.scan.active == Total(listing.positions) + Total(listing.orders)
    ensures env.scan.Cut? ==>
              Handle(s, MsgDoWork, units, env) == Ok(start.(batch := BatchLpTokenValue(token)))
    ensures env.scan.Changed? ==>
              Handle(s, MsgDoWork, units, env) == Ok(Valued(start, token, listing, false))
    ensures env.scan.Done? ==>
              && (Handle(s, MsgDoWork, units, env).Ok? <==> Worth(start, token, listing).Ok?)
              && (Worth(start, token, listing).Ok? ==>
                    Handle(s, MsgDoWork, units, env) == Ok(Valued(start, token, listing, true)))
  {
    assert Handle(s, MsgDoWork, units, env) == PriceToken(s, token, env) by {
      hide GetWork, CurrentElement;
    }
    PricesNow(start, s, token, env, listing);
  }

  lemma PricesNow(start: Storage, s: Storage, token: Token, env: Env, listing: Listing)
    requires Scanning(start, s, token) && Due(start, token)
    requires env.scan.Done? ==> env.scan.active == Total(listing.positions) + Total(listing.orders)
    ensures env.scan.Cut? ==> PriceToken(s, token, env) == Ok(start.(batch := BatchLpTokenValue(token)))
    ensures env.scan.Changed? ==> PriceToken(s, token, env) == Ok(Valued(start, token, listing, false))
    ensures env.scan.Done? ==>
              && (PriceToken(s, token, env).Ok? <==> Worth(start, token, listing).Ok?)
              && (Worth(start, token, listing).Ok? ==>
                    PriceToken(s, token, env) == Ok(Valued(start, token, listing, true)))
  {
    var now := ValidFor(CurrentElement(start).value);
    assert CurrentElement(s) == CurrentElement(start);
    hide CurrentElement;
    if env.scan.Done? {
      RepricesNow(start, s, token, now, env, listing);
      hide Reprice, Worth;
      assert ScanBatch(s, token, now, env) == NoBatch;
    } else {
      assert Reprice(s, token, now, env) == Ok(None);
    }
  }

  lemma RepricesNow(start: Storage, s: Storage, token: Token, now: LpStatus, env: Env, listing: Listing)
    requires Scanning(start, s, token) && token in s.prices && s.prices[token].status != now && env.scan.Done?
    requires env.scan.active == Total(listing.positions) + Total(listing.orders)
    ensures match Worth(start, token, listing)
            case Ok(value) => Reprice(s, token, now, env) == Ok(Some(value))
            case Err(_) => Reprice(s, token, now, env).Err?
  {
  }

  /** Which work is due does not depend on the scan, and a scan to be resumed is. */
  lemma ScanDoesNotChoose(s: Storage, token: Token, env: Env, scan: Scan)
    ensures GetWork(s, env.(scan := scan)) == GetWork(s, env)
    ensures GetWork(s.(batch := BatchLpTokenValue(token)), env) == Ok(ComputeLpTokenValue(token))
  {
    hide CheckBalanceWork, DeferredWork;
    assert forall other: Token :: CheckBalanceWork(s, other, env.(scan := scan)) == CheckBalanceWork(s, other, env) by {
      forall other: Token
        ensures CheckBalanceWork(s, other, env.(scan := scan)) == CheckBalanceWork(s, other, env)
      {
        CheckIgnoresScan(s, other, env, scan);
      }
    }
    DeferredIgnoresScan(true, env, scan);
    DeferredIgnoresScan(false, env, scan);
  }

  lemma CheckIgnoresScan(s: Storage, token: Token, env: Env, scan: Scan)
    ensures CheckBalanceWork(s, token, env.(scan := scan)) == CheckBalanceWork(s, token, env)
  {
  }

  lemma DeferredIgnoresScan(marketItem: bool, env: Env, scan: Scan)
    ensures DeferredWork(marketItem, env.(scan := scan)) == DeferredWork(marketItem, env)
  {
  }

  /** Where the two passes and the contract stand after a call with this verdict. */
  ghost predicate Stands(contract: CopyTrading.Contract, work: MarketWork, start: Storage, token: Token,
                         first: Listing, second: Listing, env: Env, verdict: Verdict, called: bool)
    requires Due(start, token)
    reads contract, work
  {
    && work.Processed(first) && work.Counted(second)
    && match verdict
       case InProgress =>
         && (work.status.NotStarted? || work.status.ProcessOpenPositions? || work.status.IsValidate())
         && Scanning(start, contract.Snapshot(), token) && called
         && GetWork(contract.Snapshot(), env) == Ok(ComputeLpTokenValue(token))
       case Success =>
         && work.status.Validated? && (called <==> Worth(start, token, first).Ok?)
         && (called ==> contract.Snapshot() == Valued(start, token, first, true))
       case Failed =>
         work.status.ResetRequired? && called && contract.Snapshot() == Valued(start, token, first, false)
  }

  /** One unit of work: a call of the scan, and the contract's with its verdict. */
  method PriceOnce(contract: CopyTrading.Contract, work: MarketWork, ghost start: Storage, token: Token,
                   first: Listing, second: Listing, limit: nat, allowed: nat, env: Env)
    returns (verdict: Verdict, called: Result<(), CopyError>)
    requires contract.Valid() && Due(start, token) && limit > 0 && allowed > 0
    requires Stands(contract, work, start, token, first, second, env, InProgress, true)
    modifies contract, work
    ensures contract.Valid() && Stands(contract, work, start, token, first, second, env, verdict, called.Ok?)
    ensures verdict.InProgress? ==> work.Remaining(first, second) < old(work.Remaining(first, second))
  {
    hide GetWork, CurrentElement, Handle, Worth, Invariant;
    verdict := work.Compute(first, second, limit, allowed);
    var now := env.(scan := ScanOf(verdict, work.active));
    ScanDoesNotChoose(contract.Snapshot(), token, env, now.scan);
    ScanDoesNotChoose(start, token, env, now.scan);
    CallPrices(start, contract.Snapshot(), token, contract.units, now, first);
    called := contract.Execute(MsgDoWork, now);
  }

  /** Units of work, each with its own query budget, until the scan ends: whatever the cuts, the contract then
      holds the pool's worth per share with exactly the market's positions and orders added to its collateral,
      or, if their number changed meanwhile, no new price. It fails only if that worth is not a decimal. */
  method PriceToEnd(contract: CopyTrading.Contract, work: MarketWork, token: Token, first: Listing, second: Listing,
                    limit: nat, budgets: nat -> nat, env: Env) returns (r: Result<bool, CopyError>)
    requires contract.Valid() && Due(contract.Snapshot(), token)
    requires GetWork(contract.Snapshot(), env) == Ok(ComputeLpTokenValue(token))
    requires limit > 0 && forall i: nat :: budgets(i) > 0
    requires work.status.NotStarted? && work.Processed(first)
    modifies contract, work
    ensures contract.Valid()
    ensures var same := |first.positions| == |second.positions| && |first.orders| == |second.orders|;
            && (r.Err? <==> same && Worth(old(contract.Snapshot()), token, first).Err?)
            && (r.Ok? ==>
                  r.value == same && contract.Snapshot() == Valued(old(contract.Snapshot()), token, first, r.value))
  {
    hide GetWork, CurrentElement, Worth, Invariant;
    var calls, verdict := 0, InProgress;
    var called := Ok(());
    while verdict.InProgress?
      invariant contract.Valid()
      invariant Stands(contract, work, old(contract.Snapshot()), token, first, second, env, verdict, called.Ok?)
      decreases verdict.InProgress?, work.Remaining(first, second)
    {
      verdict, called := PriceOnce(contract, work, old(contract.Snapshot()), token, first, second, limit,
                                   budgets(calls), env);
      calls := calls + 1;
    }
    r := if called.Ok? then Ok(verdict.Success?) else Err(called.error);
  }
}
