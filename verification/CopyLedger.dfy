/** The copy-trading contract's stored values, and the sums that tie them together. */
module CopyLedger {
  import opened Wrappers
  import opened MapSums
  import opened Queues
  import opened HighWaterMark
  import LpValue
  import Settlement

  type Token = string

  datatype Wallet = Wallet(token: Token, address: string)

  datatype IncMarketItem =
    | ClosePosition
    | CancelLimitOrder
    | RemoveCollateralImpactSize
    | RemoveCollateralImpactLeverage
  {
    predicate PaysCrankFee() {
      RemoveCollateralImpactSize? || RemoveCollateralImpactLeverage?
    }
  }

  datatype DecMarketItem =
    | OpenPosition(collateral: nat)
    | PlaceLimitOrder(collateral: nat)
    | AddCollateralImpactSize(collateral: nat)
    | AddCollateralImpactLeverage(collateral: nat)
    | UpdateLeverage
    | UpdateTakeProfitPrice
    | UpdateStopLossPrice
  {
    predicate CarriesCollateral() {
      OpenPosition? || PlaceLimitOrder? || AddCollateralImpactSize? || AddCollateralImpactLeverage?
    }
  }

  /** What increases, or leaves unchanged, the available collateral. */
  datatype IncItem = Deposit(funds: nat, token: Token) | IncMarket(token: Token, action: IncMarketItem)

  /** What decreases the available collateral. */
  datatype DecItem = Withdrawal(tokens: nat, token: Token) | DecMarket(token: Token, action: DecMarketItem)

  datatype QueueId = IncId(id: nat) | DecId(id: nat)

  datatype Totals = Totals(collateral: nat, shares: nat)

  datatype LpStatus = ValidFor(id: QueueId) | Outdated

  datatype LpTokenValue = LpTokenValue(value: nat, status: LpStatus)

  datatype CommissionStats = CommissionStats(unclaimed: nat, claimed: nat)

  function At(m: map<Token, nat>, token: Token): nat {
    if token in m then m[token] else 0
  }

  function TotalsAt(totals: map<Token, Totals>, token: Token): Totals {
    if token in totals then totals[token] else Totals(0, 0)
  }

  function StatsAt(commission: map<Token, CommissionStats>, token: Token): CommissionStats {
    if token in commission then commission[token] else CommissionStats(0, 0)
  }

  function Debit(totals: map<Token, Totals>, token: Token, cost: nat): map<Token, Totals>
    requires token in totals && cost <= totals[token].collateral
  {
    totals[token := Totals(totals[token].collateral - cost, totals[token].shares)]
  }

  function SharesAt(shares: map<Wallet, nat>, wallet: Wallet): nat {
    if wallet in shares then shares[wallet] else 0
  }

  function IsIncMarket(): IncItem -> bool {
    (item: IncItem) => item.IncMarket?
  }

  function IsDecMarket(): DecItem -> bool {
    (item: DecItem) => item.DecMarket?
  }

  // ----- TOTALS.shares is the sum of SHARES -----

  function HeldIn(token: Token): (Wallet, nat) -> nat {
    (wallet: Wallet, amount: nat) => if wallet.token == token then amount else 0
  }

  ghost predicate HoldsSome(shares: map<Wallet, nat>, wallet: Wallet) {
    wallet in shares ==> shares[wallet] > 0
  }

  ghost predicate SharesMatch(shares: map<Wallet, nat>, totals: map<Token, Totals>) {
    && (forall wallet: Wallet :: HoldsSome(shares, wallet))
    && forall token: Token {:trigger HeldIn(token)} :: Sum(shares, HeldIn(token)) == TotalsAt(totals, token).shares
  }

  lemma HeldAfter(shares: map<Wallet, nat>, token: Token, wallet: Wallet, amount: nat)
    ensures var held := if wallet.token == token then SharesAt(shares, wallet) else 0;
            var now := if wallet.token == token then amount else 0;
            && held <= Sum<Wallet, nat>(shares, HeldIn(token))
            && Sum<Wallet, nat>(shares[wallet := amount], HeldIn(token))
               == Sum<Wallet, nat>(shares, HeldIn(token)) - held + now
            && Sum<Wallet, nat>(shares - {wallet}, HeldIn(token))
               == Sum<Wallet, nat>(shares, HeldIn(token)) - held
  {
    SumUpdate<Wallet, nat>(shares, HeldIn(token), wallet, amount);
    SumRemove<Wallet, nat>(shares, HeldIn(token), wallet);
  }

  lemma MintKeepsMatch(shares: map<Wallet, nat>, totals: map<Token, Totals>, wallet: Wallet, minted: nat,
                       collateral: nat)
    requires SharesMatch(shares, totals) && minted > 0
    ensures SharesMatch(shares[wallet := SharesAt(shares, wallet) + minted],
                        totals[wallet.token :=
                          Totals(collateral, TotalsAt(totals, wallet.token).shares + minted)])
    ensures SharesAt(shares, wallet) <= TotalsAt(totals, wallet.token).shares
  {
    var after := SharesAt(shares, wallet) + minted;
    var all := shares[wallet := after];
    forall w: Wallet
      ensures HoldsSome(all, w)
    {
      assert HoldsSome(shares, w);
    }
    HeldAfter(shares, wallet.token, wallet, after);
    forall token: Token
      ensures Sum<Wallet, nat>(shares[wallet := after], HeldIn(token))
              == Sum<Wallet, nat>(shares, HeldIn(token)) + if wallet.token == token then minted else 0
    {
      HeldAfter(shares, token, wallet, after);
    }
  }

  function WithoutShares(shares: map<Wallet, nat>, wallet: Wallet, burned: nat): map<Wallet, nat>
    requires burned <= SharesAt(shares, wallet)
  {
    if burned == SharesAt(shares, wallet) then shares - {wallet}
    else shares[wallet := SharesAt(shares, wallet) - burned]
  }

  lemma BurnKeepsMatch(shares: map<Wallet, nat>, totals: map<Token, Totals>, wallet: Wallet, burned: nat,
                       collateral: nat)
    requires SharesMatch(shares, totals) && 0 < burned <= SharesAt(shares, wallet)
    ensures burned <= TotalsAt(totals, wallet.token).shares
    ensures SharesMatch(WithoutShares(shares, wallet, burned),
                        totals[wallet.token :=
                          Totals(collateral, TotalsAt(totals, wallet.token).shares - burned)])
  {
    var left := SharesAt(shares, wallet) - burned;
    var after := WithoutShares(shares, wallet, burned);
    forall w: Wallet
      ensures HoldsSome(after, w)
    {
      assert HoldsSome(shares, w);
    }
    HeldAfter(shares, wallet.token, wallet, left);
    forall token: Token
      ensures Sum<Wallet, nat>(WithoutShares(shares, wallet, burned), HeldIn(token))
              == Sum<Wallet, nat>(shares, HeldIn(token)) - if wallet.token == token then burned else 0
    {
      HeldAfter(shares, token, wallet, left);
    }
  }

  // ----- PENDING_DEPOSITS is the sum of unprocessed deposits -----

  function DepositIn(token: Token): (nat, Entry<IncItem>) -> nat {
    (id: nat, entry: Entry<IncItem>) =>
      if entry.item.Deposit? && entry.item.token == token && entry.status.NotProcessed?
      then entry.item.funds else 0
  }

  ghost predicate PendingMatch(items: map<nat, Entry<IncItem>>, pending: map<Token, nat>) {
    forall token: Token {:trigger DepositIn(token)} :: Sum(items, DepositIn(token)) == At(pending, token)
  }

  lemma QueuedDepositPends(items: map<nat, Entry<IncItem>>, pending: map<Token, nat>, id: nat,
                           entry: Entry<IncItem>)
    requires PendingMatch(items, pending) && id !in items
    requires entry.item.Deposit? && entry.status.NotProcessed?
    ensures PendingMatch(items[id := entry],
                         pending[entry.item.token := At(pending, entry.item.token) + entry.item.funds])
  {
    forall token: Token {
      SumUpdate(items, DepositIn(token), id, entry);
    }
  }

  lemma ProcessedDepositLeaves(items: map<nat, Entry<IncItem>>, pending: map<Token, nat>, id: nat,
                               status: ProcessingStatus)
    requires PendingMatch(items, pending) && id in items && !status.NotProcessed?
    requires items[id].item.Deposit? && items[id].status.NotProcessed?
    ensures var item := items[id].item;
            && item.funds <= At(pending, item.token)
            && PendingMatch(items[id := items[id].(status := status)],
                            pending[item.token := At(pending, item.token) - item.funds])
  {
    forall token: Token {
      SumUpdate(items, DepositIn(token), id, items[id].(status := status));
    }
    assert Sum(items, DepositIn(items[id].item.token)) == At(pending, items[id].item.token);
  }

  /** Market items never pend, whatever their status. */
  lemma MarketItemsNeverPend(items: map<nat, Entry<IncItem>>, pending: map<Token, nat>, id: nat,
                             entry: Entry<IncItem>)
    requires PendingMatch(items, pending) && entry.item.IncMarket?
    requires id in items ==> items[id].item.IncMarket?
    ensures PendingMatch(items[id := entry], pending)
  {
    forall token: Token {
      SumUpdate(items, DepositIn(token), id, entry);
    }
  }

  // ----- A valid price is backed -----

  /** `active` is the collateral a token's last valuation found outside the contract; a token valued with
      shares outstanding on nothing has none. A token without a stored value has no shares. */
  ghost predicate BackedIn(prices: map<Token, LpTokenValue>, totals: map<Token, Totals>,
                           active: map<Token, nat>, token: Token) {
    if token !in prices then TotalsAt(totals, token).shares == 0
    else
      token in active && prices[token].status.ValidFor? ==>
        LpValue.Backed(prices[token].value, TotalsAt(totals, token).collateral + active[token],
                       TotalsAt(totals, token).shares)
  }

  ghost predicate PricesBacked(prices: map<Token, LpTokenValue>, totals: map<Token, Totals>,
                               active: map<Token, nat>) {
    forall token: Token :: BackedIn(prices, totals, active, token)
  }

  function Outdate(prices: map<Token, LpTokenValue>, token: Token): map<Token, LpTokenValue>
    requires token in prices
  {
    prices[token := prices[token].(status := Outdated)]
  }

  /** The collateral a valuation found outside the contract, if the new price is backed by it. */
  ghost function ActiveAfter(active: map<Token, nat>, token: Token, found: nat, price: nat, totals: Totals)
    : map<Token, nat>
  {
    if LpValue.Backed(price, totals.collateral + found, totals.shares) then active[token := found]
    else active - {token}
  }

  lemma PricingKeepsBacked(prices: map<Token, LpTokenValue>, totals: map<Token, Totals>, active: map<Token, nat>,
                           token: Token, price: LpTokenValue, found: nat)
    requires PricesBacked(prices, totals, active)
    ensures PricesBacked(prices[token := price], totals,
                         ActiveAfter(active, token, found, price.value, TotalsAt(totals, token)))
  {
    var priced := prices[token := price];
    var after := ActiveAfter(active, token, found, price.value, TotalsAt(totals, token));
    forall t: Token
      ensures BackedIn(priced, totals, after, t)
    {
      assert BackedIn(prices, totals, active, t);
    }
  }

  /** New totals of one token keep its price backed if they back it themselves. */
  lemma TotalsKeepBacked(prices: map<Token, LpTokenValue>, totals: map<Token, Totals>, active: map<Token, nat>,
                         token: Token, now: Totals)
    requires PricesBacked(prices, totals, active)
    requires BackedIn(prices, totals[token := now], active, token)
    ensures PricesBacked(prices, totals[token := now], active)
  {
    var changed := totals[token := now];
    forall t: Token
      ensures BackedIn(prices, changed, active, t)
    {
      assert BackedIn(prices, totals, active, t);
    }
  }

  lemma DepositKeepsBacked(prices: map<Token, LpTokenValue>, totals: map<Token, Totals>, active: map<Token, nat>,
                           token: Token, funds: nat, minted: nat)
    requires PricesBacked(prices, totals, active) && token in prices
    requires LpValue.CollateralToShares(prices[token].value, funds) == Result<nat, LpValue.LpError>.Ok(minted)
    ensures var before := TotalsAt(totals, token);
            PricesBacked(prices, totals[token := Totals(before.collateral + funds, before.shares + minted)], active)
  {
    var before := TotalsAt(totals, token);
    assert BackedIn(prices, totals, active, token);
    if token in active && prices[token].status.ValidFor? {
      LpValue.DepositKeepsBacked(prices[token].value, before.collateral + active[token], before.shares, funds);
    }
    TotalsKeepBacked(prices, totals, active, token, Totals(before.collateral + funds, before.shares + minted));
  }

  lemma WithdrawalKeepsBacked(prices: map<Token, LpTokenValue>, totals: map<Token, Totals>,
                              active: map<Token, nat>, token: Token, funds: nat, burned: nat)
    requires PricesBacked(prices, totals, active) && token in prices && token in totals
    requires LpValue.SharesToCollateral(prices[token].value, burned) == Result<nat, LpValue.LpError>.Ok(funds)
    requires funds <= totals[token].collateral && burned <= totals[token].shares
    ensures PricesBacked(prices, totals[token := Totals(totals[token].collateral - funds,
                                                        totals[token].shares - burned)], active)
  {
    assert BackedIn(prices, totals, active, token);
    if token in active && prices[token].status.ValidFor? {
      LpValue.WithdrawalKeepsBacked(prices[token].value, totals[token].collateral + active[token],
                                    totals[token].shares, burned);
    }
    TotalsKeepBacked(prices, totals, active, token,
                     Totals(totals[token].collateral - funds, totals[token].shares - burned));
  }

  /** The totals differ at most in one token's collateral. */
  ghost predicate CollateralChanged(totals: map<Token, Totals>, totals': map<Token, Totals>, token: Token) {
    || totals' == totals
    || (token in totals' && totals' == totals[token := totals'[token]]
        && totals'[token].shares == TotalsAt(totals, token).shares)
  }

  /** Once its price is outdated, a token's collateral is free to change. */
  lemma OutdatingKeepsBacked(prices: map<Token, LpTokenValue>, totals: map<Token, Totals>,
                             totals': map<Token, Totals>, active: map<Token, nat>, token: Token)
    requires PricesBacked(prices, totals, active) && token in prices
    requires CollateralChanged(totals, totals', token)
    ensures PricesBacked(Outdate(prices, token), totals', active)
  {
    var outdated := Outdate(prices, token);
    forall t: Token
      ensures BackedIn(outdated, totals', active, t)
    {
      assert BackedIn(prices, totals, active, t);
    }
  }

  lemma CollateralKeepsMatch(shares: map<Wallet, nat>, totals: map<Token, Totals>, totals': map<Token, Totals>,
                             token: Token)
    requires SharesMatch(shares, totals) && CollateralChanged(totals, totals', token)
    ensures SharesMatch(shares, totals')
  {
    forall t: Token {:trigger HeldIn(t)}
      ensures MapSums.Sum<Wallet, nat>(shares, HeldIn(t)) == TotalsAt(totals', t).shares
    {
      assert TotalsAt(totals', t).shares == TotalsAt(totals, t).shares;
    }
  }

  /** More collateral never unbacks a price. */
  lemma CreditKeepsBacked(prices: map<Token, LpTokenValue>, totals: map<Token, Totals>,
                          totals': map<Token, Totals>, active: map<Token, nat>, token: Token)
    requires PricesBacked(prices, totals, active)
    requires CollateralChanged(totals, totals', token)
    requires TotalsAt(totals, token).collateral <= TotalsAt(totals', token).collateral
    ensures PricesBacked(prices, totals', active)
  {
    forall t: Token
      ensures BackedIn(prices, totals', active, t)
    {
      assert BackedIn(prices, totals, active, t);
    }
  }

  ghost predicate KnownIn(prices: map<Token, LpTokenValue>, reachedInc: nat, reachedDec: nat, token: Token) {
    token in prices && prices[token].status.ValidFor? ==>
      match prices[token].status.id
      case IncId(id) => id < reachedInc
      case DecId(id) => id < reachedDec
  }

  /** A price valid for a queue item was computed while that item was the head: no later item has one. */
  ghost predicate PricesKnown(prices: map<Token, LpTokenValue>, reachedInc: nat, reachedDec: nat) {
    forall token: Token :: KnownIn(prices, reachedInc, reachedDec, token)
  }

  lemma ProgressKeepsKnown(prices: map<Token, LpTokenValue>, reachedInc: nat, reachedDec: nat, reachedInc': nat,
                           reachedDec': nat)
    requires PricesKnown(prices, reachedInc, reachedDec)
    requires reachedInc <= reachedInc' && reachedDec <= reachedDec'
    ensures PricesKnown(prices, reachedInc', reachedDec')
  {
    forall token: Token
      ensures KnownIn(prices, reachedInc', reachedDec', token)
    {
      assert KnownIn(prices, reachedInc, reachedDec, token);
    }
  }

  lemma PricingKeepsKnown(prices: map<Token, LpTokenValue>, reachedInc: nat, reachedDec: nat, token: Token,
                          price: LpTokenValue)
    requires PricesKnown(prices, reachedInc, reachedDec)
    requires KnownIn(prices[token := price], reachedInc, reachedDec, token)
    ensures PricesKnown(prices[token := price], reachedInc, reachedDec)
  {
    var priced := prices[token := price];
    forall t: Token
      ensures KnownIn(priced, reachedInc, reachedDec, t)
    {
      assert KnownIn(prices, reachedInc, reachedDec, t);
    }
  }

  lemma OutdatingKeepsKnown(prices: map<Token, LpTokenValue>, reachedInc: nat, reachedDec: nat, token: Token)
    requires PricesKnown(prices, reachedInc, reachedDec) && token in prices
    ensures PricesKnown(Outdate(prices, token), reachedInc, reachedDec)
  {
    PricingKeepsKnown(prices, reachedInc, reachedDec, token, prices[token].(status := Outdated));
  }

  // ----- All commission is accounted for -----

  function MarkAt(marks: map<Token, Mark>, token: Token): Mark {
    if token in marks then marks[token] else START
  }

  function ChargesAt(charges: map<Token, seq<Charge>>, token: Token): seq<Charge> {
    if token in charges then charges[token] else []
  }

  ghost predicate AccountedIn(commission: map<Token, CommissionStats>, marks: map<Token, Mark>,
                              charges: map<Token, seq<Charge>>, token: Token) {
    var ledger := AssessAll(ChargesAt(charges, token));
    && ledger.Ok?
    && MarkAt(marks, token) == ledger.value.mark
    && StatsAt(commission, token).unclaimed + StatsAt(commission, token).claimed == ledger.value.commission
  }

  /** Each token's mark is that of the positions closed so far, and the leader's commission, claimed or not, is
      exactly what the high water mark assesses on them. */
  ghost predicate Accounted(commission: map<Token, CommissionStats>, marks: map<Token, Mark>,
                            charges: map<Token, seq<Charge>>) {
    forall token: Token :: AccountedIn(commission, marks, charges, token)
  }

  lemma ClaimKeepsAccounted(commission: map<Token, CommissionStats>, marks: map<Token, Mark>,
                            charges: map<Token, seq<Charge>>, token: Token, stats: CommissionStats)
    requires Accounted(commission, marks, charges)
    requires stats.unclaimed + stats.claimed
             == StatsAt(commission, token).unclaimed + StatsAt(commission, token).claimed
    ensures Accounted(commission[token := stats], marks, charges)
  {
    var booked := commission[token := stats];
    forall t: Token
      ensures AccountedIn(booked, marks, charges, t)
    {
      assert AccountedIn(commission, marks, charges, t);
    }
  }

  /** A settlement adds its positions to the history, its mark to the marks, and its commission, which is what
      the history assesses, to the unclaimed. */
  lemma SettlementKeepsAccounted(commission: map<Token, CommissionStats>, marks: map<Token, Mark>,
                                 charges: map<Token, seq<Charge>>, token: Token, book: Settlement.Book,
                                 closed: seq<Settlement.Closed>, rate: nat)
    requires Accounted(commission, marks, charges)
    requires book.mark == MarkAt(marks, token) && book.unclaimed == StatsAt(commission, token).unclaimed
    requires Settlement.SettleAll(book, closed, rate).Ok?
    ensures var after := Settlement.SettleAll(book, closed, rate).value;
            Accounted(commission[token := CommissionStats(after.unclaimed, StatsAt(commission, token).claimed)],
                      marks[token := after.mark],
                      charges[token := ChargesAt(charges, token) + Settlement.Charges(closed, rate)])
  {
    var after := Settlement.SettleAll(book, closed, rate).value;
    var history := ChargesAt(charges, token);
    var more := history + Settlement.Charges(closed, rate);
    var booked := commission[token := CommissionStats(after.unclaimed, StatsAt(commission, token).claimed)];
    var marked, charged := marks[token := after.mark], charges[token := more];
    assert AccountedIn(commission, marks, charges, token);
    Settlement.CommissionFollowsMark(book, history, closed, rate);
    forall t: Token
      ensures AccountedIn(booked, marked, charged, t)
    {
      assert AccountedIn(commission, marks, charges, t);
    }
  }

  // ----- No closed position is settled twice -----

  type MarketId = string

  function CursorAt(cursors: map<MarketId, nat>, market: MarketId): nat {
    if market in cursors then cursors[market] else 0
  }

  /** A closed position: the market and its place in the market's growing listing. */
  datatype PositionId = PositionId(market: MarketId, index: nat)

  ghost predicate SettledIn(cursors: map<MarketId, nat>, settled: seq<PositionId>, id: PositionId) {
    multiset(settled)[id] == if id.index < CursorAt(cursors, id.market) then 1 else 0
  }

  /** Exactly the positions before each market's cursor were settled, each once. */
  ghost predicate SettledOnce(cursors: map<MarketId, nat>, settled: seq<PositionId>) {
    forall id: PositionId :: SettledIn(cursors, settled, id)
  }

  /** The positions of one market from one cursor to the next. */
  function Stretch(market: MarketId, from: nat, end: nat): seq<PositionId>
    requires from <= end
    decreases end
  {
    if from == end then [] else Stretch(market, from, end - 1) + [PositionId(market, end - 1)]
  }

  lemma {:induction false} StretchHolds(market: MarketId, from: nat, end: nat, id: PositionId)
    requires from <= end
    ensures multiset(Stretch(market, from, end))[id] == if id.market == market && from <= id.index < end then 1 else 0
    decreases end
  {
    if from < end {
      StretchHolds(market, from, end - 1, id);
    }
  }

  lemma StretchKeepsOnce(cursors: map<MarketId, nat>, settled: seq<PositionId>, market: MarketId, to: nat)
    requires SettledOnce(cursors, settled) && CursorAt(cursors, market) <= to
    ensures SettledOnce(cursors[market := to], settled + Stretch(market, CursorAt(cursors, market), to))
  {
    var moved, more := cursors[market := to], settled + Stretch(market, CursorAt(cursors, market), to);
    forall id: PositionId
      ensures SettledIn(moved, more, id)
    {
      assert SettledIn(cursors, settled, id);
      StretchHolds(market, CursorAt(cursors, market), to, id);
    }
  }

  /** The cursors after a settlement saved them, market by market. */
  function SaveCursors(cursors: map<MarketId, nat>, markets: seq<MarketId>, to: seq<nat>): map<MarketId, nat>
    requires |markets| == |to|
    decreases |markets|
  {
    if markets == [] then cursors else SaveCursors(cursors[markets[0] := to[0]], markets[1..], to[1..])
  }

  function LoadCursors(cursors: map<MarketId, nat>, markets: seq<MarketId>): seq<nat> {
    if markets == [] then [] else [CursorAt(cursors, markets[0])] + LoadCursors(cursors, markets[1..])
  }

  predicate Distinct(markets: seq<MarketId>) {
    forall i, j | 0 <= i < j < |markets| :: markets[i] != markets[j]
  }

  /** The positions a settlement moves its cursors over. */
  function Stretches(markets: seq<MarketId>, from: seq<nat>, to: seq<nat>): seq<PositionId>
    requires |markets| == |from| == |to| && forall i | 0 <= i < |from| :: from[i] <= to[i]
  {
    if markets == [] then [] else Stretch(markets[0], from[0], to[0]) + Stretches(markets[1..], from[1..], to[1..])
  }

  lemma {:induction false} OtherCursors(cursors: map<MarketId, nat>, markets: seq<MarketId>, market: MarketId, to: nat)
    requires market !in markets
    ensures LoadCursors(cursors[market := to], markets) == LoadCursors(cursors, markets)
  {
    if markets != [] {
      OtherCursors(cursors, markets[1..], market, to);
    }
  }

  lemma {:induction false} LoadedLength(cursors: map<MarketId, nat>, markets: seq<MarketId>)
    ensures |LoadCursors(cursors, markets)| == |markets|
  {
    if markets != [] {
      LoadedLength(cursors, markets[1..]);
    }
  }

  /** Moving the cursors of distinct markets settles each position they pass once more than before: once. */
  lemma {:induction false} StretchesKeepOnce(cursors: map<MarketId, nat>, settled: seq<PositionId>,
                                             markets: seq<MarketId>, to: seq<nat>)
    requires SettledOnce(cursors, settled) && Distinct(markets)
    requires |LoadCursors(cursors, markets)| == |markets| == |to|
    requires forall i | 0 <= i < |to| :: LoadCursors(cursors, markets)[i] <= to[i]
    ensures SettledOnce(SaveCursors(cursors, markets, to),
                        settled + Stretches(markets, LoadCursors(cursors, markets), to))
    decreases |markets|
  {
    if markets == [] {
      assert settled + [] == settled;
    } else {
      var from := LoadCursors(cursors, markets);
      var moved := cursors[markets[0] := to[0]];
      var stretch := Stretch(markets[0], from[0], to[0]);
      StretchKeepsOnce(cursors, settled, markets[0], to[0]);
      OtherCursors(cursors, markets[1..], markets[0], to[0]);
      assert from[1..] == LoadCursors(moved, markets[1..]);
      StretchesKeepOnce(moved, settled + stretch, markets[1..], to[1..]);
      assert settled + stretch + Stretches(markets[1..], from[1..], to[1..])
             == settled + (stretch + Stretches(markets[1..], from[1..], to[1..]));
    }
  }
}
