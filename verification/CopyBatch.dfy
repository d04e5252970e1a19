/** A rebalance in batches: the contract's units of work make the calls of `Settlement`'s batch, each resuming
    from the cursors and the record that the last one left. */
module CopyBatch {
  import opened Wrappers
  import opened Decimals
  import opened Queues
  import opened CopyLedger
  import opened CopyModel
  import opened CopyFreezes
  import opened CopyProgress
  import opened HighWaterMark
  import S = Settlement

  /** The units of work of one batch, as long as the record asks for another. */
  function RunCalls(s: Storage, token: Token, requested: nat, envs: seq<Env>): Result<Storage, CopyError>
    decreases |envs|
  {
    if envs == [] then Ok(s)
    else
      var after :- RunRebalance(s, token, requested, envs[0]);
      if after.batch.BatchRebalance? then RunCalls(after, token, after.batch.balance, envs[1..]) else Ok(after)
  }

  /** Those are the units of work: with a rebalance recorded, whatever chain and market answer, the next one is
      what the record asks for. */
  lemma RecordIsNext(s: Storage, units: Units, env: Env)
    requires s.batch.BatchRebalance?
    ensures DoWork(s, units, env) == RunRebalance(s, s.batch.token, s.batch.balance, env)
  {
    hide RunRebalance;
  }

  function CallOf(s: Storage, env: Env): S.Call {
    S.Call(env.closings.histories, LoadCursors(s.cursors, env.closings.markets), env.closings.limits)
  }

  /** The inputs of the calls made, each with the cursors it finds. */
  function CallsOf(s: Storage, token: Token, requested: nat, envs: seq<Env>): seq<S.Call>
    decreases |envs|
  {
    if envs == [] || RunRebalance(s, token, requested, envs[0]).Err? then []
    else
      var after := RunRebalance(s, token, requested, envs[0]).value;
      [CallOf(s, envs[0])]
      + if after.batch.BatchRebalance? then CallsOf(after, token, after.batch.balance, envs[1..]) else []
  }

  /** The record a batch is at: none, or one for this token and amount. */
  predicate AsksFor(batch: BatchWork, token: Token, requested: nat) {
    batch.NoBatch? || batch == BatchRebalance(token, requested)
  }

  /** One unit of work books what one call of the batch does, and leaves the record it leaves. */
  lemma WorkIsCall(s: Storage, token: Token, requested: nat, env: Env)
    requires RunRebalance(s, token, requested, env).Ok? && AsksFor(s.batch, token, requested)
    ensures var after, call := RunRebalance(s, token, requested, env).value, CallOf(s, env);
            && call.Valid()
            && var run := S.RunCall(OpenBook(s, token), requested, call);
            && run.Ok? && OpenBook(after, token) == run.value.0.(check := 0)
            && RecordOf(after.batch)
               == S.NextRecord(RecordOf(s.batch), requested, run.value.1.settled, run.value.1.early)
            && (after.batch.BatchRebalance? ==> AsksFor(after.batch, token, after.batch.balance))
            && !after.batch.BatchLpTokenValue?
  {
    hide S.SettleRun, S.Flats;
    assert CallOf(s, env).Valid();
  }

  lemma BooksDoNotCheck(book: S.Book, record: S.Record, requested: nat, calls: seq<S.Call>)
    requires forall i | 0 <= i < |calls| :: calls[i].Valid()
    ensures var run, clean := S.RunBatch(book, record, requested, calls),
                              S.RunBatch(book.(check := 0), record, requested, calls);
            && run.Ok? == clean.Ok?
            && (run.Ok? ==> run.value.1 == clean.value.1 && run.value.0.(check := 0) == clean.value.0.(check := 0))
  {
    if calls != [] {
      assert S.RunCall(book, requested, calls[0]) == S.RunCall(book.(check := 0), requested, calls[0]);
    }
  }

  /** Any number of units of work of one batch book exactly what the batch does on the closed positions, the
      cursors and the limits they find. */
  lemma {:induction false} WorkRunsBatch(s: Storage, token: Token, requested: nat, envs: seq<Env>)
    requires RunCalls(s, token, requested, envs).Ok? && AsksFor(s.batch, token, requested)
    ensures var calls := CallsOf(s, token, requested, envs);
            && (forall i | 0 <= i < |calls| :: calls[i].Valid())
            && var run := S.RunBatch(OpenBook(s, token), RecordOf(s.batch), requested, calls);
            && run.Ok?
            && OpenBook(RunCalls(s, token, requested, envs).value, token) == run.value.0.(check := 0)
    decreases |envs|
  {
    if envs != [] {
      var after := RunRebalance(s, token, requested, envs[0]).value;
      WorkIsCall(s, token, requested, envs[0]);
      var first := S.RunCall(OpenBook(s, token), requested, CallOf(s, envs[0])).value;
      hide RunRebalance, S.RunCall, OpenBook, CallOf;
      if after.batch.BatchRebalance? {
        var balance := after.batch.balance;
        WorkRunsBatch(after, token, balance, envs[1..]);
        var rest := CallsOf(after, token, balance, envs[1..]);
        BooksDoNotCheck(first.0, S.Carry(balance), balance, rest);
        assert ([CallOf(s, envs[0])] + rest)[1..] == rest;
      } else {
        assert [CallOf(s, envs[0])][1..] == [];
      }
    }
  }

  lemma WorthDoesNotCheck(book: S.Book)
    ensures S.Worth(book.(check := 0)) == S.Worth(book)
  {
  }

  /** What a batch of the contract adds to pool and leader together: the larger of the surplus first asked for and
      what its calls settle, if and only if no call is cut although it explains its request, or the last call
      settles all of its own. */
  lemma WorkBooksOnce(s: Storage, token: Token, requested: nat, envs: seq<Env>)
    requires s.batch.NoBatch? && RunCalls(s, token, requested, envs).Ok?
    requires envs != [] && RunCalls(s, token, requested, envs).value.batch.NoBatch?
    ensures var calls := CallsOf(s, token, requested, envs);
            && (forall i | 0 <= i < |calls| :: calls[i].Valid())
            && var run := S.RunBatch(OpenBook(s, token), S.Nothing, requested, calls);
            && run.Ok?
            && var parts := run.value.1;
            parts != [] && !parts[|parts| - 1].early ==>
              (S.Worth(OpenBook(RunCalls(s, token, requested, envs).value, token))
               == S.Worth(OpenBook(s, token)) + Max(requested, S.SumSettled(parts)) <==>
               (|| S.NoCutExplains(OpenBook(s, token), S.Nothing, requested, calls)
                || S.LastRequest(S.Nothing, requested, parts) <= parts[|parts| - 1].settled))
  {
    hide RunCalls, CallsOf, OpenBook, S.RunBatch, S.NoCutExplains, S.LastRequest, S.SumSettled, S.Worth;
    WorkRunsBatch(s, token, requested, envs);
    var calls := CallsOf(s, token, requested, envs);
    var run := S.RunBatch(OpenBook(s, token), S.Nothing, requested, calls).value;
    var parts := run.1;
    WorthDoesNotCheck(run.0);
    if parts != [] && !parts[|parts| - 1].early {
      S.BatchBooksOnce(OpenBook(s, token), requested, calls);
    }
  }

  // ----- A run whose ledger ends up beyond the bank -----

  const A: MarketId := "a"
  const B: MarketId := "b"
  const C: MarketId := "c"

  function Closing(markets: seq<MarketId>, histories: seq<seq<S.Closed>>): Env {
    CALM.(closings := Closings(markets, histories, S.TIGHT))
  }

  const ENV_1: Env := Closing([A, B, C], [S.MARKET_A, S.MARKET_B, S.MARKET_C])
  const ENV_2: Env := Closing([B, C], [S.MARKET_B, S.MARKET_C])
  const ENV_4: Env := Closing([C], [S.MARKET_C])

  /** A deposit of 1 waits, and 3 have come back from the markets. */
  const WAITING: Storage := Arrived(ONE).(bank := map[TOKEN := 4 * ONE])

  function BatchState(collateral: nat, b: nat, c: nat, batch: BatchWork): Storage {
    WAITING.(totals := map[TOKEN := Totals(collateral, 0)], commission := map[TOKEN := CommissionStats(0, 0)],
             marks := map[TOKEN := START], cursors := map[A := 1, B := b, C := c], batch := batch)
  }

  const LEFT: BatchWork := BatchRebalance(TOKEN, 2 * ONE)

  lemma WaitingNow()
    ensures Step(Arrived(ONE), MsgInflow(3 * ONE, TOKEN), FineUnits(), CALM) == WAITING
  {
    assert Receive(Arrived(ONE), TOKEN, 3 * ONE).value.bank == map[TOKEN := 4 * ONE];
  }

  lemma CursorsNow(cursors: map<MarketId, nat>)
    ensures LoadCursors(cursors, [A, B, C]) == [CursorAt(cursors, A), CursorAt(cursors, B), CursorAt(cursors, C)]
    ensures LoadCursors(cursors, [B, C]) == [CursorAt(cursors, B), CursorAt(cursors, C)]
    ensures LoadCursors(cursors, [C]) == [CursorAt(cursors, C)]
  {
    assert [A, B, C][1..] == [B, C] && [B, C][1..] == [C] && [C][1..] == [];
    assert LoadCursors(cursors, [C]) == [CursorAt(cursors, C)];
    assert LoadCursors(cursors, [B, C]) == [CursorAt(cursors, B)] + LoadCursors(cursors, [C]);
  }

  lemma SavedNow(cursors: map<MarketId, nat>, a: nat, b: nat, c: nat)
    ensures SaveCursors(cursors, [A, B, C], [a, b, c]) == cursors[A := a][B := b][C := c]
    ensures SaveCursors(cursors, [B, C], [b, c]) == cursors[B := b][C := c]
    ensures SaveCursors(cursors, [C], [c]) == cursors[C := c]
  {
    assert [A, B, C][1..] == [B, C] && [B, C][1..] == [C] && [C][1..] == [];
    assert [a, b, c][1..] == [b, c] && [b, c][1..] == [c] && [c][1..] == [];
    assert forall m: map<MarketId, nat> :: SaveCursors(m, [C], [c]) == m[C := c];
    assert forall m: map<MarketId, nat> :: SaveCursors(m, [B, C], [b, c]) == SaveCursors(m[B := b], [C], [c]);
  }

  /** What a rebalance does with how the settlement ends. */
  lemma BookedNow(s: Storage, requested: nat, env: Env, book: S.Book, cursors: seq<nat>, early: bool)
    requires Listed(s, env.closings)
    requires S.EndsAt(S.SettleRun(OpenBook(s, TOKEN), env.closings.histories,
                                  LoadCursors(s.cursors, env.closings.markets), requested, 0, env.closings.limits),
                      book, cursors, early)
    requires |cursors| == |env.closings.markets|
    requires book.collateral + S.Gains(requested, book.check, early) <= MAX_ATOMS
    ensures RunRebalance(s, TOKEN, requested, env)
            == Ok(s.(totals := s.totals[TOKEN := Totals(book.collateral + S.Gains(requested, book.check, early),
                                                        TotalsAt(s.totals, TOKEN).shares)],
                     commission := s.commission[TOKEN := CommissionStats(book.unclaimed,
                                                                         StatsAt(s.commission, TOKEN).claimed)],
                     marks := s.marks[TOKEN := book.mark],
                     cursors := SaveCursors(s.cursors, env.closings.markets, cursors),
                     batch := CarryOver(s.batch, TOKEN, requested, book.check, early)))
  {
    hide S.SettleRun, S.Flats;
  }

  lemma FirstNow()
    ensures RunRebalance(WAITING, TOKEN, 3 * ONE, ENV_1) == Ok(BatchState(ONE, 15, 0, LEFT))
  {
    hide S.SettleRun, S.Flats;
    CursorsNow(WAITING.cursors);
    SavedNow(WAITING.cursors, 1, 15, 0);
    S.FirstRun();
    S.PagesOfB();
    assert Listed(WAITING, ENV_1.closings);
    BookedNow(WAITING, 3 * ONE, ENV_1, S.Plain(ONE, ONE), [1, 15, 0], true);
    assert WAITING.cursors[A := 1][B := 15][C := 0] == map[A := 1, B := 15, C := 0];
  }

  lemma TwoMarketsNow(collateral: nat, b: nat, c: nat, book: S.Book, b': nat, c': nat, early: bool)
    requires b <= 31 && c <= 1 && book.collateral <= MAX_ATOMS && early && book.unclaimed == 0 && book.mark == START
    requires S.EndsAt(S.SettleRun(S.Plain(collateral, 0), ENV_2.closings.histories, [b, c], 2 * ONE, 0, S.TIGHT),
                      book, [b', c'], early)
    ensures RunRebalance(BatchState(collateral, b, c, LEFT), TOKEN, 2 * ONE, ENV_2)
            == Ok(BatchState(book.collateral, b', c', CarryOver(LEFT, TOKEN, 2 * ONE, book.check, early)))
  {
    hide S.SettleRun, S.Flats, CarryOver, RunRebalance;
    var s := BatchState(collateral, b, c, LEFT);
    CursorsNow(s.cursors);
    S.PagesOfB();
    assert Listed(s, ENV_2.closings);
    BookedNow(s, 2 * ONE, ENV_2, book, [b', c'], early);
    SavedNow(s.cursors, 0, b', c');
    assert s.cursors[B := b'][C := c'] == map[A := 1, B := b', C := c'];
    SettledOver(collateral, b, c, book);
  }

  lemma OneMarketNow(collateral: nat, b: nat, book: S.Book)
    requires b <= 31 && book.collateral + 2 * ONE <= MAX_ATOMS
    requires book.check == 0 && book.unclaimed == 0 && book.mark == START
    requires S.EndsAt(S.SettleRun(S.Plain(collateral, 0), ENV_4.closings.histories, [1], 2 * ONE, 0, S.TIGHT),
                      book, [1], false)
    ensures RunRebalance(BatchState(collateral, b, 1, LEFT), TOKEN, 2 * ONE, ENV_4)
            == Ok(BatchState(book.collateral + 2 * ONE, b, 1, NoBatch))
  {
    hide S.SettleRun, S.Flats, RunRebalance;
    var s := BatchState(collateral, b, 1, LEFT);
    CursorsNow(s.cursors);
    assert Listed(s, ENV_4.closings);
    BookedNow(s, 2 * ONE, ENV_4, book, [1], false);
    SavedNow(s.cursors, 0, 0, 1);
    assert s.cursors[C := 1] == map[A := 1, B := b, C := 1];
    SettledOver(collateral, b, 1, book.(collateral := book.collateral + 2 * ONE));
  }

  lemma SettledOver(collateral: nat, b: nat, c: nat, book: S.Book)
    requires book.unclaimed == 0 && book.mark == START
    ensures var s := BatchState(collateral, b, c, LEFT);
            && s.totals[TOKEN := Totals(book.collateral, TotalsAt(s.totals, TOKEN).shares)]
               == map[TOKEN := Totals(book.collateral, 0)]
            && s.commission[TOKEN := CommissionStats(book.unclaimed, StatsAt(s.commission, TOKEN).claimed)]
               == map[TOKEN := CommissionStats(0, 0)]
            && s.marks[TOKEN := book.mark] == map[TOKEN := START]
  {
  }

  lemma FirstWork()
    ensures Step(WAITING, MsgDoWork, FineUnits(), ENV_1) == BatchState(ONE, 15, 0, LEFT)
  {
    hide RunRebalance;
    FirstNow();
    assert WAITING.incQueue.Head() == Some(FirstDeposit(NotProcessed, ONE));
    assert CheckBalanceWork(WAITING, TOKEN, ENV_1) == Ok(Rebalance(TOKEN, 3 * ONE));
    assert GetWork(WAITING, ENV_1) == Ok(Rebalance(TOKEN, 3 * ONE));
  }

  lemma NextWork(s: Storage, env: Env, after: Storage)
    requires s.batch == LEFT && RunRebalance(s, TOKEN, 2 * ONE, env) == Ok(after)
    ensures Step(s, MsgDoWork, FineUnits(), env) == after
  {
    hide RunRebalance, DoWork;
    RecordIsNext(s, FineUnits(), env);
  }

  const FIRST_TWO: seq<Call> :=
    [(MsgDeposit("alice", ONE, TOKEN), CALM)] + [(MsgInflow(3 * ONE, TOKEN), CALM)]

  const BATCH: seq<Call> :=
    FIRST_TWO + [(MsgDoWork, ENV_1)] + [(MsgDoWork, ENV_2)] + [(MsgDoWork, ENV_2)] + [(MsgDoWork, ENV_4)]

  /** From the empty contract: a deposit of 1 and 3 returned by the markets, then the four units of work of one
      batch. The bank holds 4, the ledger accounts for 6, although each of the positions that paid out 3 in all
      was settled once. */
  lemma LedgerExceedsBank()
    ensures var s := Run(Initial(), BATCH, FineUnits());
            && s.batch == NoBatch && At(s.bank, TOKEN) == 4 * ONE
            && TotalsAt(s.totals, TOKEN).collateral == 5 * ONE && Surplus(s, TOKEN) == -2 * ONE
  {
    hide Step, S.SettleRun, RunRebalance;
    ArrivesNow(ONE);
    WaitingNow();
    OneCall(Initial(), MsgDeposit("alice", ONE, TOKEN), FineUnits(), CALM);
    NextCall(Initial(), [(MsgDeposit("alice", ONE, TOKEN), CALM)], Arrived(ONE), MsgInflow(3 * ONE, TOKEN), CALM,
             WAITING);
    FirstWork();
    NextCall(Initial(), FIRST_TWO, WAITING, MsgDoWork, ENV_1, BatchState(ONE, 15, 0, LEFT));
    S.SecondRun();
    TwoMarketsNow(ONE, 15, 0, S.Plain(3 * ONE, 2 * ONE), 30, 1, true);
    NextWork(BatchState(ONE, 15, 0, LEFT), ENV_2, BatchState(3 * ONE, 30, 1, LEFT));
    var second := FIRST_TWO + [(MsgDoWork, ENV_1)];
    NextCall(Initial(), second, BatchState(ONE, 15, 0, LEFT), MsgDoWork, ENV_2, BatchState(3 * ONE, 30, 1, LEFT));
    S.ThirdRun();
    TwoMarketsNow(3 * ONE, 30, 1, S.Plain(3 * ONE, 0), 31, 1, true);
    NextWork(BatchState(3 * ONE, 30, 1, LEFT), ENV_2, BatchState(3 * ONE, 31, 1, LEFT));
    var third := second + [(MsgDoWork, ENV_2)];
    NextCall(Initial(), third, BatchState(3 * ONE, 30, 1, LEFT), MsgDoWork, ENV_2, BatchState(3 * ONE, 31, 1, LEFT));
    S.FourthRun();
    OneMarketNow(3 * ONE, 31, S.Plain(3 * ONE, 0));
    NextWork(BatchState(3 * ONE, 31, 1, LEFT), ENV_4, BatchState(5 * ONE, 31, 1, NoBatch));
    NextCall(Initial(), third + [(MsgDoWork, ENV_2)], BatchState(3 * ONE, 31, 1, LEFT), MsgDoWork, ENV_4,
             BatchState(5 * ONE, 31, 1, NoBatch));
  }
}
