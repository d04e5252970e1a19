/** The vault: a supply of LP balances, a queue of withdrawal requests paid in order of their ids, and the
    redistribution of what the queue does not need. Amounts are 128-bit token units. */
module Vault {
  import opened Wrappers
  import opened Decimals
  import opened MapSums
  import opened Tokens

  const MAX_U16: nat := 0xffff
  const FULL_BPS: nat := 10_000
  const PROCESS_LIMIT: nat := 20

  datatype VaultError =
    | Overflow
    | DivideByZero
    | Paused
    | InsufficientBalance
    | ZeroAmount
    | InsufficientSupply
    | Unauthorized
    | NoExcess
    | NoAllocation
    | AllocationTooHigh

  datatype Request = Request(user: string, amount: nat)

  function Fit128(units: int): Result<nat, VaultError> {
    if 0 <= units <= MAX_UNITS then Ok(units) else Err(VaultError.Overflow)
  }

  /** `Uint128::multiply_ratio`, rounded down. */
  function MultiplyRatio(amount: nat, numerator: nat, denominator: nat): Result<nat, VaultError> {
    if denominator == 0 then Err(VaultError.DivideByZero) else Fit128(FloorDiv(amount * numerator, denominator))
  }

  function Held(): (string, nat) -> nat {
    (user: string, amount: nat) => amount
  }

  function Requested(): (nat, Request) -> nat {
    (id: nat, request: Request) => request.amount
  }

  function BalanceOf(balances: map<string, nat>, user: string): nat {
    if user in balances then balances[user] else 0
  }

  // ----- Deposits -----

  predicate Mintable(amount: nat, supply: nat, assets: nat) {
    && (supply == 0 || assets > 0)
    && supply + Minted(amount, supply, assets) <= MAX_UNITS
  }

  /** The LP minted for a deposit that the assets already hold. */
  function Minted(amount: nat, supply: nat, assets: nat): nat
    requires supply == 0 || assets > 0
  {
    if supply == 0 then amount else FloorDiv(amount * supply, assets)
  }

  /** In proportion to the assets, short of it by less than one unit of LP; into an empty supply, the amount. */
  lemma MintedInProportion(amount: nat, supply: nat, assets: nat)
    requires supply == 0 || assets > 0
    ensures var minted := Minted(amount, supply, assets);
            if supply == 0 then minted == amount else minted * assets <= amount * supply < minted * assets + assets
  {
    if supply != 0 {
      FloorDivBounds(amount * supply, assets);
    }
  }

  // ----- Redistribution -----

  /** One market's share of the excess. */
  function ShareOf(excess: nat, bps: nat, total: nat): nat
    requires total > 0
  {
    FloorDiv(excess * bps, total)
  }

  function Bps(): (string, nat) -> nat {
    (market: string, bps: nat) => bps
  }

  /** Every market's share of the excess. */
  function SharesOf(bps: map<string, nat>, excess: nat, total: nat): map<string, nat>
    requires total > 0
  {
    map market | market in bps :: ShareOf(excess, bps[market], total)
  }

  /** One market's allocation grows by its share, and it is sent its share unless that is nothing. */
  ghost predicate DistributedAt(before: map<string, nat>, after: map<string, nat>, sent: map<string, nat>,
                                shares: map<string, nat>, market: string) {
    && BalanceOf(after, market) == BalanceOf(before, market) + BalanceOf(shares, market)
    && BalanceOf(sent, market) == BalanceOf(shares, market)
    && (market in sent ==> sent[market] > 0)
  }

  /** Each market got exactly its share; no order of the markets is involved. */
  ghost predicate Distributed(before: map<string, nat>, after: map<string, nat>, sent: map<string, nat>,
                              shares: map<string, nat>) {
    forall market: string :: DistributedAt(before, after, sent, shares, market)
  }

  lemma NothingDistributed(allocations: map<string, nat>)
    ensures Distributed(allocations, allocations, map[], map[])
  {
    assert forall market :: DistributedAt(allocations, allocations, map[], map[], market);
  }

  lemma MarketStep(before: map<string, nat>, after: map<string, nat>, sent: map<string, nat>,
                   shares: map<string, nat>, market: string, share: nat)
    requires Distributed(before, after, sent, shares) && market !in shares
    ensures
      if share == 0 then Distributed(before, after, sent, shares[market := 0])
      else Distributed(before, after[market := BalanceOf(after, market) + share], sent[market := share],
                       shares[market := share])
  {
    var after' := if share == 0 then after else after[market := BalanceOf(after, market) + share];
    var sent' := if share == 0 then sent else sent[market := share];
    var shares' := shares[market := share];
    forall m: string
      ensures DistributedAt(before, after', sent', shares', m)
    {
      assert DistributedAt(before, after, sent, shares, m);
    }
  }

  lemma SharesStep(excess: nat, total: nat, bps: nat, rest: nat, restShares: nat, n: nat)
    requires total > 0
    requires restShares * total <= excess * rest <= restShares * total + n * (total - 1)
    ensures var all := ShareOf(excess, bps, total) + restShares;
            all * total <= excess * (bps + rest) <= all * total + (n + 1) * (total - 1)
  {
    FloorDivBounds(excess * bps, total);
    assert excess * (bps + rest) == excess * bps + excess * rest;
    assert (ShareOf(excess, bps, total) + restShares) * total
           == ShareOf(excess, bps, total) * total + restShares * total;
    assert (n + 1) * (total - 1) == n * (total - 1) + (total - 1);
  }

  /** Shares given to `n` markets of `bps` in all: what rounding loses is less than one unit for each. */
  ghost predicate Near(excess: nat, total: nat, given: nat, bps: nat, n: nat)
    requires total > 0
  {
    given * total <= excess * bps <= given * total + n * (total - 1)
  }

  function Given(shares: map<string, nat>): (string, nat) -> nat {
    (market: string, bps: nat) => BalanceOf(shares, market)
  }

  /** One market off the list of those still to be given their share. */
  lemma DoneStep(shares: map<string, nat>, todo: map<string, nat>, done: map<string, nat>, market: string)
    requires market in todo && market in shares && done == shares - todo.Keys
    ensures market !in done && done[market := shares[market]] == shares - (todo - {market}).Keys
  {
  }

  lemma GivenStep(shares: map<string, nat>, todo: map<string, nat>, market: string)
    requires market in todo && market in shares
    ensures Sum<string, nat>(todo, Given(shares)) == shares[market] + Sum<string, nat>(todo - {market}, Given(shares))
  {
    SumTake<string, nat>(todo, Given(shares), market);
  }

  lemma Shrinks(todo: map<string, nat>, market: string)
    requires market in todo
    ensures |todo - {market}| < |todo| && (todo - {market}).Keys <= todo.Keys
  {
    assert (todo - {market}).Keys == todo.Keys - {market};
  }

  /** A market's allocation, grown by its share, still fits; nothing is checked for a share of nothing. */
  predicate Creditable(allocations: map<string, nat>, shares: map<string, nat>, market: string) {
    BalanceOf(shares, market) == 0 || BalanceOf(allocations, market) + BalanceOf(shares, market) <= MAX_UNITS
  }

  /** All markets but those still to be given their share can be credited. */
  ghost predicate CreditableBut(bps: map<string, nat>, todo: map<string, nat>, allocations: map<string, nat>,
                                shares: map<string, nat>) {
    forall market | market in bps && market !in todo :: Creditable(allocations, shares, market)
  }

  lemma CreditableStep(bps: map<string, nat>, todo: map<string, nat>, allocations: map<string, nat>,
                       shares: map<string, nat>, market: string)
    requires CreditableBut(bps, todo, allocations, shares) && market in todo && market in bps && market in shares
    ensures shares[market] == 0 || BalanceOf(allocations, market) + shares[market] <= MAX_UNITS <==>
            CreditableBut(bps, todo - {market}, allocations, shares)
    ensures CreditableBut(bps, map[], allocations, shares) ==>
            shares[market] == 0 || BalanceOf(allocations, market) + shares[market] <= MAX_UNITS
  {
    assert Creditable(allocations, shares, market)
           <==> shares[market] == 0 || BalanceOf(allocations, market) + shares[market] <= MAX_UNITS;
    if Creditable(allocations, shares, market) {
      forall m | m in bps && m !in todo - {market}
        ensures Creditable(allocations, shares, m)
      {
        assert m == market || m !in todo;
      }
    }
  }

  lemma SharesForAll(bps: map<string, nat>, excess: nat, total: nat)
    requires total > 0
    ensures SharesOf(bps, excess, total).Keys == bps.Keys
  {
  }

  /** The market loop with some markets still to do: the others have got their shares, and those were taken off
      the excess. */
  ghost predicate Shared(bps: map<string, nat>, todo: map<string, nat>, before: map<string, nat>,
                         after: map<string, nat>, sent: map<string, nat>, shares: map<string, nat>, excess: nat,
                         remaining: nat) {
    && todo.Keys <= bps.Keys == shares.Keys
    && Sum<string, nat>(todo, Given(shares)) <= Sum<string, nat>(bps, Given(shares))
    && remaining + Sum<string, nat>(bps, Given(shares)) == excess + Sum<string, nat>(todo, Given(shares))
    && Distributed(before, after, sent, shares - todo.Keys)
    && CreditableBut(bps, todo, before, shares)
  }

  lemma NothingShared(bps: map<string, nat>, allocations: map<string, nat>, shares: map<string, nat>, excess: nat)
    requires bps.Keys == shares.Keys
    ensures Shared(bps, bps, allocations, allocations, map[], shares, excess, excess)
  {
    NothingDistributed(allocations);
    assert shares - bps.Keys == map[];
  }

  /** Taking the next market's share off the rest never saturates, and whether it can be credited decides. */
  lemma ShareOut(bps: map<string, nat>, todo: map<string, nat>, before: map<string, nat>, after: map<string, nat>,
                 sent: map<string, nat>, shares: map<string, nat>, excess: nat, remaining: nat, market: string)
    requires Shared(bps, todo, before, after, sent, shares, excess, remaining) && market in todo
    requires Sum<string, nat>(bps, Given(shares)) <= excess
    ensures market in bps && market in shares && shares[market] <= remaining && shares[market] <= excess
    ensures market !in shares - todo.Keys && Distributed(before, after, sent, shares - todo.Keys)
    ensures |todo - {market}| < |todo|
    ensures CreditableBut(bps, map[], before, shares) ==>
              shares[market] == 0 || BalanceOf(before, market) + shares[market] <= MAX_UNITS
  {
    GivenStep(shares, todo, market);
    Shrinks(todo, market);
    CreditableStep(bps, todo, before, shares, market);
  }

  lemma SharedOut(bps: map<string, nat>, todo: map<string, nat>, before: map<string, nat>, after: map<string, nat>,
                  after': map<string, nat>, sent': map<string, nat>, shares: map<string, nat>, excess: nat,
                  remaining: nat, market: string)
    requires exists sent: map<string, nat> :: Shared(bps, todo, before, after, sent, shares, excess, remaining)
    requires market in todo && market in shares && shares[market] <= remaining
    requires Distributed(before, after', sent', (shares - todo.Keys)[market := shares[market]])
    requires shares[market] == 0 || BalanceOf(before, market) + shares[market] <= MAX_UNITS
    ensures Shared(bps, todo - {market}, before, after', sent', shares, excess, remaining - shares[market])
  {
    GivenStep(shares, todo, market);
    DoneStep(shares, todo, shares - todo.Keys, market);
    CreditableStep(bps, todo, before, shares, market);
    assert (todo - {market}).Keys == todo.Keys - {market};
  }

  lemma AllShared(bps: map<string, nat>, before: map<string, nat>, after: map<string, nat>, sent: map<string, nat>,
                  shares: map<string, nat>, excess: nat, remaining: nat)
    requires Shared(bps, map[], before, after, sent, shares, excess, remaining)
    ensures Distributed(before, after, sent, shares) && CreditableBut(bps, map[], before, shares)
    ensures Sum<string, nat>(bps, Given(shares)) + remaining == excess
  {
    var none: map<string, nat> := map[];
    assert shares - none.Keys == shares;
  }

  lemma SharesBounds(bps: map<string, nat>, excess: nat, total: nat)
    requires total > 0
    ensures Near(excess, total, Sum<string, nat>(bps, Given(SharesOf(bps, excess, total))),
                 Sum<string, nat>(bps, Bps()), |bps|)
  {
    var shares := SharesOf(bps, excess, total);
    ghost var near := (given: nat, all: nat, n: nat) => Near(excess, total, given, all, n);
    forall m, a: nat, b: nat, n: nat | m in bps && near(a, b, n)
      ensures near(Given(shares)(m, bps[m]) + a, Bps()(m, bps[m]) + b, n + 1)
    {
      SharesStep(excess, total, bps[m], b, a, n);
    }
    SumsInduct<string, nat>(bps, Given(shares), Bps(), near);
  }

  /** The shares never exceed the excess, and leave less than one unit for each market. */
  lemma RemainderBelowMarkets(bps: map<string, nat>, excess: nat)
    requires Sum<string, nat>(bps, Bps()) > 0
    ensures var given := Sum<string, nat>(bps, Given(SharesOf(bps, excess, Sum<string, nat>(bps, Bps()))));
            given <= excess < given + |bps|
  {
    var total := Sum<string, nat>(bps, Bps());
    var given := Sum<string, nat>(bps, Given(SharesOf(bps, excess, total)));
    SharesBounds(bps, excess, total);
    assert |bps| > 0;
    RemainderStep(excess, total, given, |bps|);
  }

  lemma RemainderStep(excess: nat, total: nat, given: nat, n: nat)
    requires total > 0 && n > 0 && Near(excess, total, given, total, n)
    ensures given <= excess < given + n
  {
    CancelLe(given, excess, total);
    MulGap(total, total - 1, n);
    assert (given + n) * total == given * total + n * total;
    assert n * total == total * n && n * (total - 1) == (total - 1) * n;
    CancelLt(excess, given + n, total);
  }

  // ----- The queue -----

  /** The requests of `ids`, in that order. */
  function AmountOf(queue: map<nat, Request>, ids: seq<nat>): nat
    requires forall id | id in ids :: id in queue
  {
    if ids == [] then 0 else AmountOf(queue, ids[..|ids| - 1]) + queue[ids[|ids| - 1]].amount
  }

  function Without(queue: map<nat, Request>, ids: seq<nat>): map<nat, Request> {
    map id | id in queue && id !in ids :: queue[id]
  }

  /** `ids` are the first of the queue: in order, and before every other. */
  ghost predicate FirstInQueue(queue: map<nat, Request>, ids: seq<nat>) {
    && (forall i | 0 <= i < |ids| :: ids[i] in queue)
    && (forall i, j | 0 <= i < j < |ids| :: ids[i] < ids[j])
    && (forall id, i | id in queue && id !in ids && 0 <= i < |ids| :: ids[i] < id)
  }

  ghost predicate IsLeast(queue: map<nat, Request>, id: nat) {
    id in queue && forall k | k in queue :: id <= k
  }

  method LeastId(queue: map<nat, Request>) returns (least: nat)
    requires queue != map[]
    ensures IsLeast(queue, least)
  {
    least :| least in queue;
    var rest := queue.Keys - {least};
    while rest != {}
      invariant least in queue && rest <= queue.Keys
      invariant forall id | id in queue && id !in rest :: least <= id
      decreases |rest|
    {
      var id :| id in rest;
      if id < least {
        least := id;
      }
      rest := rest - {id};
    }
  }

  lemma FirstStep(queue: map<nat, Request>, ids: seq<nat>, next: nat)
    requires FirstInQueue(queue, ids)
    requires IsLeast(Without(queue, ids), next)
    ensures FirstInQueue(queue, ids + [next])
    ensures AmountOf(queue, ids + [next]) == AmountOf(queue, ids) + queue[next].amount
    ensures Sum<nat, Request>(Without(queue, ids), Requested())
            == queue[next].amount + Sum<nat, Request>(Without(queue, ids + [next]), Requested())
  {
    forall id | id in queue && id !in ids
      ensures next <= id
    {
      assert id in Without(queue, ids);
    }
    assert (ids + [next])[..|ids + [next]| - 1] == ids;
    SumTake<nat, Request>(Without(queue, ids), Requested(), next);
    assert Without(queue, ids) - {next} == Without(queue, ids + [next]);
  }

  /** Pays requests from the front of the queue while the balance lasts, at most twenty of them. */
  method TakeFirst(queue: map<nat, Request>, balance: nat) returns (ids: seq<nat>)
    requires balance <= MAX_UNITS && Sum<nat, Request>(queue, Requested()) <= MAX_UNITS
    ensures FirstInQueue(queue, ids) && |ids| <= PROCESS_LIMIT
    ensures AmountOf(queue, ids) <= balance
    ensures AmountOf(queue, ids) + Sum<nat, Request>(Without(queue, ids), Requested())
            == Sum<nat, Request>(queue, Requested())
    ensures |ids| < PROCESS_LIMIT ==>
      forall id | IsLeast(Without(queue, ids), id) :: balance < AmountOf(queue, ids) + queue[id].amount
  {
    ids := [];
    var processed: nat := 0;
    assert Without(queue, ids) == queue;
    var rest := Without(queue, ids);
    while rest != map[] && |ids| < PROCESS_LIMIT
      invariant rest == Without(queue, ids)
      invariant FirstInQueue(queue, ids) && |ids| <= PROCESS_LIMIT
      invariant processed == AmountOf(queue, ids) <= balance
      invariant processed + Sum<nat, Request>(rest, Requested()) == Sum<nat, Request>(queue, Requested())
      decreases PROCESS_LIMIT - |ids|
    {
      var id := LeastId(rest);
      SumTake<nat, Request>(rest, Requested(), id);
      // The sum to be paid never overflows.
      assert Fit128(processed + queue[id].amount).Ok?;
      var total := processed + queue[id].amount;
      if total > balance {
        return;
      }
      FirstStep(queue, ids, id);
      ids, processed := ids + [id], total;
      rest := Without(queue, ids);
    }
  }

  // ----- The index of requests by user -----

  ghost predicate IndexedAt(queue: map<nat, Request>, index: set<(string, nat)>, nextId: nat, user: string, id: nat) {
    && ((user, id) in index <==> id in queue && queue[id].user == user)
    && (id in queue ==> id < nextId && queue[id].amount > 0)
  }

  /** The index names exactly the queued requests, whose ids were all handed out before. */
  ghost predicate Indexed(queue: map<nat, Request>, index: set<(string, nat)>, nextId: nat) {
    forall user: string, id: nat :: IndexedAt(queue, index, nextId, user, id)
  }

  lemma QueuedIsIndexed(queue: map<nat, Request>, index: set<(string, nat)>, nextId: nat, request: Request)
    requires Indexed(queue, index, nextId) && request.amount > 0
    ensures nextId !in queue
    ensures Indexed(queue[nextId := request], index + {(request.user, nextId)}, nextId + 1)
  {
    assert IndexedAt(queue, index, nextId, request.user, nextId);
    var queue', index', next := queue[nextId := request], index + {(request.user, nextId)}, nextId + 1;
    forall user: string, id: nat
      ensures IndexedAt(queue', index', next, user, id)
    {
      assert IndexedAt(queue, index, nextId, user, id);
    }
  }

  lemma RemovedIsUnindexed(queue: map<nat, Request>, index: set<(string, nat)>, nextId: nat, id: nat)
    requires Indexed(queue, index, nextId) && id in queue
    ensures Indexed(queue - {id}, index - {(queue[id].user, id)}, nextId)
  {
    var queue', index' := queue - {id}, index - {(queue[id].user, id)};
    forall user: string, k: nat
      ensures IndexedAt(queue', index', nextId, user, k)
    {
      assert IndexedAt(queue, index, nextId, user, k);
    }
  }

  datatype Storage = Storage(
    balances: map<string, nat>,
    supply: nat,
    pending: nat,
    queue: map<nat, Request>,
    index: set<(string, nat)>,
    nextId: nat,
    allocations: map<string, nat>,
    bank: nat)

  /** The first requests of the queue are paid, as far as the balance and the limit go. */
  ghost predicate Paid(before: Storage, after: Storage, ids: seq<nat>) {
    && FirstInQueue(before.queue, ids) && |ids| <= PROCESS_LIMIT
    && AmountOf(before.queue, ids) <= before.bank && AmountOf(before.queue, ids) <= before.pending
    && after == before.(queue := Without(before.queue, ids), index := after.index,
                        pending := before.pending - AmountOf(before.queue, ids),
                        bank := before.bank - AmountOf(before.queue, ids))
    && (|ids| < PROCESS_LIMIT ==> forall id | IsLeast(after.queue, id) :: after.bank < after.queue[id].amount)
  }

  /** Basis points of the whole or less, and every allocation that grows by its share of the excess fits. */
  ghost predicate Divisible(bps: map<string, nat>, allocations: map<string, nat>, excess: nat) {
    var total := Sum<string, nat>(bps, Bps());
    && 0 < total <= FULL_BPS
    && CreditableBut(bps, map[], allocations, SharesOf(bps, excess, total))
  }

  /** The excess is shared out; exactly the pending amount stays, and governance gets less than a unit for each
      market. */
  ghost predicate Redistributed(before: Storage, after: Storage, bps: map<string, nat>, sent: map<string, nat>,
                                remainder: nat) {
    var total := Sum<string, nat>(bps, Bps());
    && before.pending < before.bank && 0 < total
    && var excess := before.bank - before.pending;
    var shares := SharesOf(bps, excess, total);
    && Distributed(before.allocations, after.allocations, sent, shares)
    && Sum<string, nat>(bps, Given(shares)) + remainder == excess && remainder < |bps|
    && after == before.(allocations := after.allocations, bank := before.pending)
  }

  datatype Message =
    | Deposit(amount: nat)
    | Receive(amount: nat)
    | RequestWithdrawal(amount: nat)
    | ProcessWithdrawal
    | RedistributeFunds
    | Configure(paused: bool, bps: map<string, nat>)
    | Inflow(amount: nat)

  // ----- What a message does -----

  /** What governance has set. */
  datatype Settings = Settings(governance: string, paused: bool, bps: map<string, nat>)

  /** What a native deposit finds the vault's assets to be, itself included. */
  ghost function AssetsWith(s: Storage, amount: nat): nat {
    s.bank + amount + Sum<string, nat>(s.allocations, Held())
  }

  /** Exactly when a message is accepted. */
  ghost predicate Accepts(s: Storage, settings: Settings, sender: string, message: Message) {
    match message
    case Deposit(amount) =>
      && !settings.paused && AssetsWith(s, amount) <= MAX_UNITS && Mintable(amount, s.supply, AssetsWith(s, amount))
    case Receive(amount) => !settings.paused && s.bank + amount <= MAX_UNITS && s.supply + amount <= MAX_UNITS
    case RequestWithdrawal(amount) =>
      !settings.paused && 0 < amount <= BalanceOf(s.balances, sender) && s.pending + amount <= MAX_UNITS
    case ProcessWithdrawal => !settings.paused
    case RedistributeFunds =>
      && !settings.paused && sender == settings.governance && s.pending < s.bank
      && Divisible(settings.bps, s.allocations, s.bank - s.pending)
    case Configure(_, _) => true
    case Inflow(amount) => s.bank + amount <= MAX_UNITS
  }

  /** LP enters a user's balance and the supply. */
  predicate Credits(before: Storage, after: Storage, user: string, amount: nat, minted: nat) {
    after == before.(bank := before.bank + amount, supply := before.supply + minted,
                     balances := before.balances[user := BalanceOf(before.balances, user) + minted])
  }

  /** What an accepted message leaves. */
  ghost predicate Performed(before: Storage, after: Storage, settings: Settings, sender: string, message: Message)
    requires Accepts(before, settings, sender, message)
  {
    match message
    case Deposit(amount) =>
      Credits(before, after, sender, amount, Minted(amount, before.supply, AssetsWith(before, amount)))
    case Receive(amount) => Credits(before, after, sender, amount, amount)
    case RequestWithdrawal(amount) =>
      && amount <= before.supply
      && after == before.(balances := before.balances[sender := BalanceOf(before.balances, sender) - amount],
                          supply := before.supply - amount, pending := before.pending + amount,
                          queue := before.queue[before.nextId := Request(sender, amount)],
                          index := before.index + {(sender, before.nextId)}, nextId := before.nextId + 1)
    case ProcessWithdrawal => exists ids: seq<nat> :: Paid(before, after, ids)
    case RedistributeFunds =>
      exists sent: map<string, nat>, remainder: nat :: Redistributed(before, after, settings.bps, sent, remainder)
    case Configure(_, _) => after == before
    case Inflow(amount) => after == before.(bank := before.bank + amount)
  }

  /** One transaction: performed, or as if it had not been. */
  ghost predicate Leads(before: Storage, after: Storage, settings: Settings, sender: string, message: Message) {
    if Accepts(before, settings, sender, message) then Performed(before, after, settings, sender, message)
    else after == before
  }

  function Reconfigured(settings: Settings, message: Message): Settings {
    if message.Configure? then settings.(paused := message.paused, bps := message.bps) else settings
  }

  class Contract {
    const governance: string
    var paused: bool
    var bps: map<string, nat>
    var balances: map<string, nat>
    var supply: nat
    var pending: nat
    var queue: map<nat, Request>
    var index: set<(string, nat)>
    var nextId: nat
    var allocations: map<string, nat>
    var bank: nat

    ghost predicate Valid()
      reads this
    {
      && Sum<string, nat>(balances, Held()) == supply
      && Sum<nat, Request>(queue, Requested()) == pending
      && Indexed(queue, index, nextId)
      && bank <= MAX_UNITS && supply <= MAX_UNITS && pending <= MAX_UNITS
    }

    function InForce(): Settings
      reads this
    {
      Settings(governance, paused, bps)
    }

    function Snapshot(): Storage
      reads this
    {
      Storage(balances, supply, pending, queue, index, nextId, allocations, bank)
    }

    constructor (governance: string, paused: bool, bps: map<string, nat>)
      ensures Valid()
      ensures Snapshot() == Storage(map[], 0, 0, map[], {}, 0, map[], 0)
      ensures this.governance == governance && this.paused == paused && this.bps == bps
    {
      this.governance, this.paused, this.bps := governance, paused, bps;
      balances, supply, pending, queue, index, nextId, allocations, bank := map[], 0, 0, map[], {}, 0, map[], 0;
    }

    /** `get_total_assets`: the bank balance and what the markets were given. */
    function TotalAssets(inMarkets: nat): Result<nat, VaultError>
      reads `bank
    {
      Fit128(bank + inMarkets)
    }

    method SumAllocations() returns (r: Result<nat, VaultError>)
      ensures r.Ok? <==> Sum<string, nat>(allocations, Held()) <= MAX_UNITS
      ensures r.Ok? ==> r.value == Sum<string, nat>(allocations, Held())
    {
      var todo, sum: nat := allocations, 0;
      while todo != map[]
        invariant sum <= MAX_UNITS
        invariant sum + Sum<string, nat>(todo, Held()) == Sum<string, nat>(allocations, Held())
        decreases |todo|
      {
        var market :| market in todo;
        SumTake<string, nat>(todo, Held(), market);
        sum :- Fit128(sum + todo[market]);
        todo := todo - {market};
      }
      r := Ok(sum);
    }

    /** Credits newly minted LP to a user. */
    method Mint(user: string, minted: nat) returns (r: Result<(), VaultError>)
      requires Valid()
      modifies `balances, `supply
      ensures r.Ok? <==> old(supply) + minted <= MAX_UNITS
      ensures r.Ok? ==> Valid()
      ensures r.Ok? ==> supply == old(supply) + minted
      ensures r.Ok? ==> balances == old(balances)[user := BalanceOf(old(balances), user) + minted]
    {
      SumUpdate<string, nat>(balances, Held(), user, BalanceOf(balances, user) + minted);
      var balance :- Fit128(BalanceOf(balances, user) + minted);
      balances := balances[user := balance];
      supply :- Fit128(supply + minted);
      r := Ok(());
    }

    /** A native deposit mints in proportion to total assets, which already hold it; a CW20 deposit mints its
        own amount. */
    method ExecuteDeposit(user: string, amount: nat) returns (r: Result<(), VaultError>)
      requires Valid()
      modifies `balances, `supply
      ensures r.Ok? <==>
        && !paused && bank + Sum<string, nat>(allocations, Held()) <= MAX_UNITS
        && Mintable(amount, old(supply), bank + Sum<string, nat>(allocations, Held()))
      ensures r.Ok? ==> (
        var minted := Minted(amount, old(supply), bank + Sum<string, nat>(allocations, Held()));
        && Valid() && supply == old(supply) + minted
        && balances == old(balances)[user := BalanceOf(old(balances), user) + minted])
    {
      if paused {
        return Err(Paused);
      }
      var inMarkets :- SumAllocations();
      var assets :- TotalAssets(inMarkets);
      var minted := amount;
      if supply != 0 {
        minted :- MultiplyRatio(amount, supply, assets);
      }
      r := Mint(user, minted);
    }

    /** Queues a request under a fresh id and indexes it. */
    method Enqueue(user: string, amount: nat) returns (r: Result<nat, VaultError>)
      requires Indexed(queue, index, nextId) && Sum<nat, Request>(queue, Requested()) == pending
      modifies `pending, `queue, `index, `nextId
      ensures r.Ok? <==> 0 < amount && old(pending) + amount <= MAX_UNITS
      ensures r.Ok? ==> Indexed(queue, index, nextId) && Sum<nat, Request>(queue, Requested()) == pending
      ensures r.Ok? ==>
        && r.value == old(nextId) && nextId == old(nextId) + 1 && r.value !in old(queue)
        && queue == old(queue)[r.value := Request(user, amount)] && index == old(index) + {(user, r.value)}
        && pending == old(pending) + amount
    {
      var id := nextId;
      nextId := nextId + 1;
      if amount == 0 {
        return Err(ZeroAmount);
      }
      QueuedIsIndexed(queue, index, id, Request(user, amount));
      SumUpdate<nat, Request>(queue, Requested(), id, Request(user, amount));
      queue := queue[id := Request(user, amount)];
      index := index + {(user, id)};
      pending :- Fit128(pending + amount);
      r := Ok(id);
    }

    /** Burns the user's LP and queues a request for it. */
    method ExecuteRequest(user: string, amount: nat) returns (r: Result<nat, VaultError>)
      requires Valid()
      modifies `balances, `supply, `pending, `queue, `index, `nextId
      ensures r.Ok? <==> !paused && 0 < amount <= BalanceOf(old(balances), user) && old(pending) + amount <= MAX_UNITS
      ensures r.Ok? ==> Valid()
      ensures r.Ok? ==>
        && r.value == old(nextId) && nextId == old(nextId) + 1 && r.value !in old(queue)
        && queue == old(queue)[r.value := Request(user, amount)] && index == old(index) + {(user, r.value)}
        && pending == old(pending) + amount && supply == old(supply) - amount
        && balances == old(balances)[user := BalanceOf(old(balances), user) - amount]
    {
      if paused {
        return Err(Paused);
      }
      if amount > BalanceOf(balances, user) {
        return Err(InsufficientBalance);
      }
      SumUpdate<string, nat>(balances, Held(), user, BalanceOf(balances, user) - amount);
      balances := balances[user := BalanceOf(balances, user) - amount];
      var id :- Enqueue(user, amount);
      assert Fit128(supply - amount).Ok?;
      supply := supply - amount;
      r := Ok(id);
    }

    /** Removes paid requests from the queue and its index. */
    method Remove(ids: seq<nat>)
      requires Indexed(queue, index, nextId)
      requires forall i | 0 <= i < |ids| :: ids[i] in queue
      requires forall i, j | 0 <= i < j < |ids| :: ids[i] < ids[j]
      modifies `queue, `index
      ensures queue == Without(old(queue), ids)
      ensures Indexed(queue, index, nextId)
    {
      assert Without(queue, ids[..0]) == queue;
      for i := 0 to |ids|
        invariant queue == Without(old(queue), ids[..i])
        invariant Indexed(queue, index, nextId)
      {
        var id := ids[i];
        assert id in old(queue) && id !in ids[..i];
        RemovedIsUnindexed(queue, index, nextId, id);
        index := index - {(queue[id].user, id)};
        queue := queue - {id};
        assert ids[..i + 1] == ids[..i] + [id];
      }
      assert ids[..|ids|] == ids;
    }

    /** Pays the first requests of the queue, in order, as far as the balance goes. */
    method ExecuteProcess() returns (r: Result<seq<nat>, VaultError>)
      requires Valid()
      modifies `queue, `index, `pending, `bank
      ensures r.Ok? <==> !paused
      ensures r.Ok? ==> Valid() && Paid(old(Snapshot()), Snapshot(), r.value)
    {
      if paused {
        return Err(Paused);
      }
      var ids := TakeFirst(queue, bank);
      var amount := AmountOf(queue, ids);
      Remove(ids);
      assert Fit128(pending - amount).Ok?;
      pending := pending - amount;
      bank := bank - amount;
      r := Ok(ids);
    }

    /** Sends one market its amount and books it; nothing is done about a zero amount. */
    method CreditMarket(market: string, amount: nat, sent: map<string, nat>, ghost before: map<string, nat>,
                        ghost done: map<string, nat>) returns (r: Result<map<string, nat>, VaultError>)
      requires Distributed(before, allocations, sent, done) && market !in done
      modifies `allocations
      ensures r.Ok? <==> amount == 0 || BalanceOf(before, market) + amount <= MAX_UNITS
      ensures r.Ok? ==> Distributed(before, allocations, r.value, done[market := amount])
    {
      assert DistributedAt(before, allocations, sent, done, market);
      MarketStep(before, allocations, sent, done, market, amount);
      if amount == 0 {
        return Ok(sent);
      }
      var credited :- Fit128(BalanceOf(allocations, market) + amount);
      allocations := allocations[market := credited];
      r := Ok(sent[market := amount]);
    }

    method MarketAmount(market: string, excess: nat, total: nat, ghost shares: map<string, nat>)
      returns (amount: nat)
      requires market in bps && total > 0 && shares == SharesOf(bps, excess, total) && shares[market] <= MAX_UNITS
      ensures amount == shares[market]
    {
      var share := MultiplyRatio(excess, bps[market], total);
      assert share.Ok?;
      amount := share.value;
    }

    /** The market loop: each market's amount and what is left, in whatever order the markets come. Taking an
        amount off the rest never saturates. */
    method Distribute(excess: nat, total: nat, ghost shares: map<string, nat>)
      returns (r: Result<(map<string, nat>, nat), VaultError>)
      requires total > 0 && shares == SharesOf(bps, excess, total)
      requires shares.Keys == bps.Keys && Sum<string, nat>(bps, Given(shares)) <= excess <= MAX_UNITS
      modifies `allocations
      ensures r.Ok? <==> CreditableBut(bps, map[], old(allocations), shares)
      ensures r.Ok? ==>
        && Distributed(old(allocations), allocations, r.value.0, shares)
        && Sum<string, nat>(bps, Given(shares)) + r.value.1 == excess
    {
      hide Shared, Given, Distributed, CreditableBut, SharesOf, Sum;
      var todo, remaining: nat, sent: map<string, nat> := bps, excess, map[];
      NothingShared(bps, allocations, shares, excess);
      while todo != map[]
        invariant Shared(bps, todo, old(allocations), allocations, sent, shares, excess, remaining)
        decreases |todo|
      {
        var market :| market in todo;
        ShareOut(bps, todo, old(allocations), allocations, sent, shares, excess, remaining, market);
        var amount := MarketAmount(market, excess, total, shares);
        ghost var was := allocations;
        sent :- CreditMarket(market, amount, sent, old(allocations), shares - todo.Keys);
        SharedOut(bps, todo, old(allocations), was, allocations, sent, shares, excess, remaining, market);
        remaining := remaining - amount;
        todo := todo - {market};
      }
      AllShared(bps, old(allocations), allocations, sent, shares, excess, remaining);
      r := Ok((sent, remaining));
    }

    /** Splits what the queue does not need over the markets by their basis points; the rest of the excess goes
        to governance. Exactly the pending amount stays. */
    method ExecuteRedistribute(sender: string) returns (r: Result<(map<string, nat>, nat), VaultError>)
      requires Valid()
      modifies `allocations, `bank
      ensures r.Ok? <==>
        && !paused && sender == governance && pending < old(bank)
        && Divisible(bps, old(allocations), old(bank) - pending)
      ensures r.Ok? ==>
        && Valid()
        && Redistributed(old(Snapshot()), Snapshot(), bps, r.value.0, r.value.1)
    {
      hide Distributed, CreditableBut, SharesOf, Given, Indexed;
      if paused {
        return Err(Paused);
      }
      if sender != governance {
        return Err(Unauthorized);
      }
      var excess := if bank > pending then bank - pending else 0;
      if excess == 0 {
        return Err(NoExcess);
      }
      var total :- SumBps();
      if total == 0 {
        return Err(NoAllocation);
      }
      if total > FULL_BPS {
        return Err(AllocationTooHigh);
      }
      RemainderBelowMarkets(bps, excess);
      SharesForAll(bps, excess, total);
      r := Distribute(excess, total, SharesOf(bps, excess, total));
      bank := bank - excess;
    }

    /** The basis points add up in 16 bits; a sum beyond them panics. */
    method SumBps() returns (r: Result<nat, VaultError>)
      ensures r.Ok? <==> Sum<string, nat>(bps, Bps()) <= MAX_U16
      ensures r.Ok? ==> r.value == Sum<string, nat>(bps, Bps())
    {
      var todo, sum: nat := bps, 0;
      while todo != map[]
        invariant sum <= MAX_U16
        invariant sum + Sum<string, nat>(todo, Bps()) == Sum<string, nat>(bps, Bps())
        decreases |todo|
      {
        var market :| market in todo;
        SumTake<string, nat>(todo, Bps(), market);
        if sum + todo[market] > MAX_U16 {
          return Err(VaultError.Overflow);
        }
        sum := sum + todo[market];
        todo := todo - {market};
      }
      r := Ok(sum);
    }

    method Restore(saved: Storage)
      modifies `balances, `supply, `pending, `queue, `index, `nextId, `allocations, `bank
      ensures Snapshot() == saved
    {
      balances, supply, pending, queue := saved.balances, saved.supply, saved.pending, saved.queue;
      index, nextId, allocations, bank := saved.index, saved.nextId, saved.allocations, saved.bank;
    }

    /** A native deposit comes with its funds. */
    method ReceiveNative(sender: string, amount: nat) returns (r: Result<(), VaultError>)
      requires Valid()
      modifies `bank, `balances, `supply
      ensures r.Ok? <==> Accepts(old(Snapshot()), InForce(), sender, Deposit(amount))
      ensures r.Ok? ==> Valid() && Performed(old(Snapshot()), Snapshot(), InForce(), sender, Deposit(amount))
    {
      hide Indexed, Mintable, Minted;
      bank :- Fit128(bank + amount);
      r := ExecuteDeposit(sender, amount);
    }

    /** So does a CW20 deposit, which mints its own amount. */
    method ReceiveToken(sender: string, amount: nat) returns (r: Result<(), VaultError>)
      requires Valid()
      modifies `bank, `balances, `supply
      ensures r.Ok? <==> Accepts(old(Snapshot()), InForce(), sender, Receive(amount))
      ensures r.Ok? ==> Valid() && Performed(old(Snapshot()), Snapshot(), InForce(), sender, Receive(amount))
    {
      hide Indexed;
      if paused {
        return Err(Paused);
      }
      bank :- Fit128(bank + amount);
      r := Mint(sender, amount);
    }

    /** The message handlers; an error may leave storage half written. */
    method Dispatch(sender: string, message: Message) returns (r: Result<(), VaultError>)
      requires Valid()
      modifies this
      ensures r.Ok? <==> Accepts(old(Snapshot()), old(InForce()), sender, message)
      ensures r.Ok? ==> Valid() && Performed(old(Snapshot()), Snapshot(), old(InForce()), sender, message)
      ensures InForce() == Reconfigured(old(InForce()), message)
    {
      hide Indexed, Paid, Redistributed, Divisible, Mintable, Minted;
      match message {
        case Deposit(amount) =>
          r := ReceiveNative(sender, amount);
        case Receive(amount) =>
          r := ReceiveToken(sender, amount);
        case RequestWithdrawal(amount) =>
          var _ :- ExecuteRequest(sender, amount);
          r := Ok(());
        case ProcessWithdrawal =>
          var _ :- ExecuteProcess();
          r := Ok(());
        case RedistributeFunds =>
          var _ :- ExecuteRedistribute(sender);
          r := Ok(());
        case Configure(nowPaused, nowBps) =>
          paused, bps := nowPaused, nowBps;
          r := Ok(());
        case Inflow(amount) =>
          bank :- Fit128(bank + amount);
          r := Ok(());
      }
    }

    /** One transaction: an error restores everything; either way the invariant holds. */
    method Execute(sender: string, message: Message) returns (r: Result<(), VaultError>)
      requires Valid()
      modifies this
      ensures Valid()
      ensures r.Ok? <==> Accepts(old(Snapshot()), old(InForce()), sender, message)
      ensures Leads(old(Snapshot()), Snapshot(), old(InForce()), sender, message)
      ensures InForce() == Reconfigured(old(InForce()), message)
    {
      hide Accepts, Performed;
      var saved := Snapshot();
      r := Dispatch(sender, message);
      if r.Err? {
        Restore(saved);
      }
    }

    /** Every run goes through the states that its messages lead to one after the other, and keeps the supply the
        sum of balances, the pending total the sum of queued requests, and the index exact. */
    method Run(calls: seq<(string, Message)>) returns (ghost states: seq<Storage>, ghost settings: seq<Settings>)
      requires Valid()
      modifies this
      ensures Valid()
      ensures |states| == |settings| == |calls| + 1
      ensures states[0] == old(Snapshot()) && states[|calls|] == Snapshot() && settings[0] == old(InForce())
      ensures forall i | 0 <= i < |calls| ::
                && Leads(states[i], states[i + 1], settings[i], calls[i].0, calls[i].1)
                && settings[i + 1] == Reconfigured(settings[i], calls[i].1)
    {
      hide Leads, Reconfigured;
      states, settings := [Snapshot()], [InForce()];
      for i := 0 to |calls|
        invariant Valid()
        invariant |states| == |settings| == i + 1 && states[0] == old(Snapshot()) && states[i] == Snapshot()
        invariant settings[0] == old(InForce()) && settings[i] == InForce()
        invariant forall k | 0 <= k < i ::
                    && Leads(states[k], states[k + 1], settings[k], calls[k].0, calls[k].1)
                    && settings[k + 1] == Reconfigured(settings[k], calls[k].1)
      {
        var _ := Execute(calls[i].0, calls[i].1);
        states, settings := states + [Snapshot()], settings + [InForce()];
      }
    }
  }
}
