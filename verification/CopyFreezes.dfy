/** A run from the empty copy-trading contract into each kind of frozen head. */
module CopyFreezes {
  import opened Wrappers
  import opened Decimals
  import opened Queues
  import opened CopyLedger
  import opened CopyModel
  import opened CopyProgress
  import opened Tokens
  import HighWaterMark
  import LpValue

  const TOKEN: Token := "atom"

  /** Every atom can be sent. */
  function FineUnits(): Units {
    (token: Token) => 1
  }

  /** Everything is found, the token has one market, and no position was closed there; the other fields are set
      where a call depends on them. */
  const CALM: Env := Env(false, true, Success, Some(0), Rejected, false, false, Done(0), Quiet(map[]))

  lemma NextCall(s: Storage, before: seq<Call>, at: Storage, msg: Message, env: Env, after: Storage)
    requires Run(s, before, FineUnits()) == at && Step(at, msg, FineUnits(), env) == after
    ensures Run(s, before + [(msg, env)], FineUnits()) == after
  {
    var calls := before + [(msg, env)];
    assert calls[..|calls| - 1] == before;
  }

  // ----- A leader's message for a token never priced -----

  const UNPRICED: seq<Call> := [(MsgLeader("leader", TOKEN, Increase(ClosePosition), None), CALM)]

  /** One message to close a position, from the empty contract. */
  lemma UnpricedFreezes()
    ensures Frozen(Run(Initial(), UNPRICED, FineUnits()), FineUnits())
  {
    OneCall(Initial(), UNPRICED[0].0, FineUnits(), CALM);
  }

  // ----- A first deposit, priced and processed -----

  function Deposits(entry: Entry<IncItem>): Queue<IncItem> {
    Queue(map[0 := entry], Some(0), None)
  }

  function FirstDeposit(status: ProcessingStatus, funds: nat): Entry<IncItem> {
    Entry(Deposit(funds, TOKEN), "alice", status)
  }

  const ALICE: Wallet := Wallet(TOKEN, "alice")

  /** The contract after a deposit has arrived, been priced at one, and been processed. */
  function Arrived(funds: nat): Storage {
    Initial().(incQueue := Deposits(FirstDeposit(NotProcessed, funds)), pending := map[TOKEN := funds],
               bank := map[TOKEN := funds])
  }

  function Priced(funds: nat): Storage {
    Arrived(funds).(prices := map[TOKEN := LpTokenValue(ONE, ValidFor(IncId(0)))])
  }

  function Invested(funds: nat): Storage {
    Priced(funds).(incQueue := Queue(map[0 := FirstDeposit(Finished, funds)], Some(0), Some(0)),
                   pending := map[TOKEN := 0], totals := map[TOKEN := Totals(funds, funds)],
                   shares := map[ALICE := funds])
  }

  function Opening(funds: nat): seq<Call> {
    [(MsgDeposit("alice", funds, TOKEN), CALM)] + [(MsgDoWork, CALM)] + [(MsgDoWork, CALM)]
  }

  lemma ArrivesNow(funds: nat)
    requires 0 < funds <= ONE * ONE
    ensures Step(Initial(), MsgDeposit("alice", funds, TOKEN), FineUnits(), CALM) == Arrived(funds)
  {
  }

  lemma PricedNow(funds: nat)
    requires 0 < funds <= ONE * ONE
    ensures Step(Arrived(funds), MsgDoWork, FineUnits(), CALM) == Priced(funds)
  {
    var s := Arrived(funds);
    assert s.incQueue.Head() == Some(FirstDeposit(NotProcessed, funds));
    assert CheckBalanceWork(s, TOKEN, CALM) == Ok(ComputeLpTokenValue(TOKEN));
    assert GetWork(s, CALM) == Ok(ComputeLpTokenValue(TOKEN));
  }

  lemma WholePrice(funds: nat)
    ensures DivFloor(funds, ONE) == funds
  {
    FloorDivBounds(funds * ONE, ONE);
    CancelLe(DivFloor(funds, ONE), funds, ONE);
    CancelLt(funds, DivFloor(funds, ONE) + 1, ONE);
  }

  lemma InvestedNow(funds: nat)
    requires 0 < funds <= ONE * ONE
    ensures Step(Priced(funds), MsgDoWork, FineUnits(), CALM) == Invested(funds)
  {
    var s := Priced(funds);
    WholePrice(funds);
    assert s.incQueue.Head() == Some(FirstDeposit(NotProcessed, funds));
    assert GetWork(s, CALM) == Ok(ProcessQueueItem(IncId(0)));
    assert DepositMints(s) == Ok(funds);
    var after := Deposited(s, funds);
    assert after.incQueue.items == map[0 := FirstDeposit(Finished, funds)];
    assert after.pending == map[TOKEN := 0] && after.totals == map[TOKEN := Totals(funds, funds)];
    assert after.shares == map[ALICE := funds];
  }

  lemma OpensInvested(funds: nat)
    requires 0 < funds <= ONE * ONE
    ensures Run(Initial(), Opening(funds), FineUnits()) == Invested(funds)
  {
    ArrivesNow(funds);
    PricedNow(funds);
    InvestedNow(funds);
    OneCall(Initial(), MsgDeposit("alice", funds, TOKEN), FineUnits(), CALM);
    var first := [(MsgDeposit("alice", funds, TOKEN), CALM)];
    NextCall(Initial(), first, Arrived(funds), MsgDoWork, CALM, Priced(funds));
    NextCall(Initial(), first + [(MsgDoWork, CALM)], Priced(funds), MsgDoWork, CALM, Invested(funds));
  }

  // ----- A deposit during an action of the decrease queue -----

  function Request(status: ProcessingStatus): Queue<DecItem> {
    Queue(map[0 := Entry(DecMarket(TOKEN, OpenPosition(ONE)), "leader", status)], Some(0), None)
  }

  const ASKED: Storage := Invested(2 * ONE).(decQueue := Request(NotProcessed))

  const IN_FLIGHT: Storage :=
    Invested(2 * ONE).(decQueue := Request(InProgress), totals := map[TOKEN := Totals(ONE, 2 * ONE)],
                       prices := map[TOKEN := LpTokenValue(ONE, Outdated)], replyExec := Some(7),
                       bank := map[TOKEN := ONE])

  const ACCEPTED: Env := CALM.(answer := Accepted(Some(7)))

  const OPEN_MESSAGE: Message := MsgLeader("leader", TOKEN, Spend(SpendToOpen), Some(ONE))

  lemma AskedNow()
    ensures Step(Invested(2 * ONE), OPEN_MESSAGE, FineUnits(), CALM) == ASKED
  {
    assert LeaderItem(Spend(SpendToOpen), Some(ONE)) == Ok(QueueDec(OpenPosition(ONE)));
  }

  const STARTED: Storage := IN_FLIGHT.(replyExec := None, bank := map[TOKEN := 2 * ONE])

  lemma StartedNow()
    ensures StartDec(ASKED, TOKEN, ONE, NotEnoughCollateral) == Ok((STARTED, true))
  {
    assert ASKED.decQueue.Head() == Some(Entry(DecMarket(TOKEN, OpenPosition(ONE)), "leader", NotProcessed));
    assert ASKED.decQueue.Start() == Request(InProgress);
    assert Debit(ASKED.totals, TOKEN, ONE) == map[TOKEN := Totals(ONE, 2 * ONE)];
    assert Outdate(ASKED.prices, TOKEN) == map[TOKEN := LpTokenValue(ONE, Outdated)];
  }

  lemma SubmittedNow()
    ensures Submit(STARTED, TOKEN, ONE, FineUnits(), ACCEPTED.answer) == Ok((IN_FLIGHT, Some(7)))
    ensures Transfer(ONE, FineUnits()(TOKEN)).Ok?
  {
    assert RoundDown(ONE, 1) == ONE;
    assert STARTED.bank[TOKEN := ONE] == IN_FLIGHT.bank;
  }

  lemma SentNow()
    ensures Step(ASKED, MsgDoWork, FineUnits(), ACCEPTED) == IN_FLIGHT
  {
    hide StartDec, Submit, Transfer;
    var s := ASKED;
    assert s.incQueue.Head().None?;
    assert s.decQueue.Head() == Some(Entry(DecMarket(TOKEN, OpenPosition(ONE)), "leader", NotProcessed));
    assert GetWork(s, ACCEPTED) == Ok(ProcessQueueItem(DecId(0)));
    StartedNow();
    SubmittedNow();
    assert SendDec(s, FineUnits(), ACCEPTED) == Ok((IN_FLIGHT, Sent(7)));
  }

  const DURING_ACTION: seq<Call> :=
    Opening(2 * ONE) + [(OPEN_MESSAGE, CALM)] + [(MsgDoWork, ACCEPTED)] + [(MsgDeposit("bob", ONE, TOKEN), CALM)]

  /** A deposit, its pricing and processing, a leader's order the market accepts, and a second deposit before
      that order is executed. */
  lemma DepositDuringActionFreezes()
    ensures Frozen(Run(Initial(), DURING_ACTION, FineUnits()), FineUnits())
  {
    OpensInvested(2 * ONE);
    AskedNow();
    SentNow();
    NextCall(Initial(), Opening(2 * ONE), Invested(2 * ONE), OPEN_MESSAGE, CALM, ASKED);
    NextCall(Initial(), Opening(2 * ONE) + [(OPEN_MESSAGE, CALM)], ASKED, MsgDoWork, ACCEPTED, IN_FLIGHT);
    var deposit := MsgDeposit("bob", ONE, TOKEN);
    NextCall(Initial(), Opening(2 * ONE) + [(OPEN_MESSAGE, CALM)] + [(MsgDoWork, ACCEPTED)], IN_FLIGHT, deposit, CALM,
             Step(IN_FLIGHT, deposit, FineUnits(), CALM));
  }

  // ----- A deposit that buys nothing -----

  const GIFT: nat := 2 * BALANCE_TOLERANCE

  const GIVEN: Storage := Invested(1).(bank := map[TOKEN := 1 + GIFT])

  const JOINED: Storage :=
    GIVEN.(incQueue := Queue(map[0 := FirstDeposit(Finished, 1), 1 := Entry(Deposit(1, TOKEN), "bob", NotProcessed)],
                             Some(1), Some(0)),
           pending := map[TOKEN := 1], bank := map[TOKEN := 2 + GIFT])

  const BALANCED: Storage :=
    JOINED.(totals := map[TOKEN := Totals(1 + GIFT, 1)], commission := map[TOKEN := CommissionStats(0, 0)],
            marks := map[TOKEN := HighWaterMark.START], cursors := map["market" := 0])

  const VALUED: Storage :=
    BALANCED.(prices := map[TOKEN := LpTokenValue((1 + GIFT) * ONE, ValidFor(IncId(1)))])

  lemma GivenNow()
    ensures Step(Invested(1), MsgInflow(GIFT, TOKEN), FineUnits(), CALM) == GIVEN
    ensures Step(GIVEN, MsgDeposit("bob", 1, TOKEN), FineUnits(), CALM) == JOINED
  {
    assert Receive(Invested(1), TOKEN, GIFT).value.bank == map[TOKEN := 1 + GIFT];
    var after := QueueDeposit(GIVEN, "bob", 1, TOKEN, true).value;
    assert after.bank == map[TOKEN := 2 + GIFT] && after.pending == map[TOKEN := 1];
    assert after.incQueue == JOINED.incQueue;
  }

  lemma BalancedNow()
    ensures Step(JOINED, MsgDoWork, FineUnits(), CALM) == BALANCED
  {
    var s := JOINED;
    assert s.incQueue.Head() == Some(Entry(Deposit(1, TOKEN), "bob", NotProcessed));
    assert CheckBalanceWork(s, TOKEN, CALM) == Ok(Rebalance(TOKEN, GIFT));
    assert GetWork(s, CALM) == Ok(Rebalance(TOKEN, GIFT));
    QuietSettles(s, TOKEN, GIFT, CALM);
    hide Settled;
    var after := RunRebalance(s, TOKEN, GIFT, CALM).value;
    assert ["market"][1..] == [] && [0 as nat][1..] == [];
    assert SaveCursors(map[], ["market"], [0]) == map["market" := 0];
    assert after.totals == BALANCED.totals && after.commission == BALANCED.commission;
    assert after.marks == BALANCED.marks && after.cursors == BALANCED.cursors;
  }

  lemma ValuedNow()
    ensures Step(BALANCED, MsgDoWork, FineUnits(), CALM) == VALUED
  {
    var s := BALANCED;
    assert s.incQueue.Head() == Some(Entry(Deposit(1, TOKEN), "bob", NotProcessed));
    assert CheckBalanceWork(s, TOKEN, CALM) == Ok(ComputeLpTokenValue(TOKEN));
    assert GetWork(s, CALM) == Ok(ComputeLpTokenValue(TOKEN));
    assert LpValue.Valuation(1 + GIFT, 1) == Result<nat, LpValue.LpError>.Ok((1 + GIFT) * ONE);
    assert PriceToken(s, TOKEN, CALM).value.prices == VALUED.prices;
  }

  lemma NothingBought()
    ensures Frozen(VALUED, FineUnits())
  {
    assert FloorDiv(ONE, (1 + GIFT) * ONE) == 0;
    assert VALUED.incQueue.Head() == Some(Entry(Deposit(1, TOKEN), "bob", NotProcessed));
  }

  const BUYS_NOTHING: seq<Call> :=
    Opening(1) + [(MsgInflow(GIFT, TOKEN), CALM)] + [(MsgDeposit("bob", 1, TOKEN), CALM)] + [(MsgDoWork, CALM)]
    + [(MsgDoWork, CALM)]

  /** Collateral sent to a pool of one atom is credited to it, and the next deposit of one atom is worth less
      than an atom of shares. */
  lemma BuyingNothingFreezes()
    ensures Frozen(Run(Initial(), BUYS_NOTHING, FineUnits()), FineUnits())
  {
    hide Step, Frozen;
    var first := Opening(1);
    var second := first + [(MsgInflow(GIFT, TOKEN), CALM)];
    var third := second + [(MsgDeposit("bob", 1, TOKEN), CALM)];
    OpensInvested(1);
    GivenNow();
    BalancedNow();
    ValuedNow();
    NextCall(Initial(), first, Invested(1), MsgInflow(GIFT, TOKEN), CALM, GIVEN);
    NextCall(Initial(), second, GIVEN, MsgDeposit("bob", 1, TOKEN), CALM, JOINED);
    NextCall(Initial(), third, JOINED, MsgDoWork, CALM, BALANCED);
    NextCall(Initial(), third + [(MsgDoWork, CALM)], BALANCED, MsgDoWork, CALM, VALUED);
    NothingBought();
  }
}
