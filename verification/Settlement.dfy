/** The copy-trading rebalance: closed positions are paged in market by market, each splits into the pool's
    collateral and the leader's commission, until the amount to explain is reached or the query budget is. */
module Settlement {
  import opened Wrappers
  import opened Decimals
  import opened HighWaterMark

  datatype Closed = Closed(active: nat, pnl: int)

  /** 0.0000001 */
  const TOLERANCE: nat := 100_000_000_000

  predicate ApproxEq(a: nat, b: nat) {
    Abs(a - b) < TOLERANCE
  }

  /** The pool's collateral, the leader's unclaimed commission, the collateral settled so far, and the mark. */
  datatype Book = Book(collateral: nat, unclaimed: nat, check: nat, mark: Mark)

  /** One closed position: `handle_leader_commission` and the credit that follows it. */
  function SettleOne(book: Book, closed: Closed, rate: nat): Result<Book, DecimalError> {
    var assessed :- Assess(book.mark, closed.pnl, rate);
    var unclaimed :- CheckedAdd(book.unclaimed, assessed.1);
    var remaining :- CheckedSub(closed.active, assessed.1);
    var check :- CheckedAdd(book.check, closed.active);
    var collateral :- CheckedAdd(book.collateral, remaining);
    Ok(Book(collateral, unclaimed, check, assessed.0))
  }

  function SettleAll(book: Book, closed: seq<Closed>, rate: nat): Result<Book, DecimalError> {
    if closed == [] then Ok(book)
    else
      var before :- SettleAll(book, closed[..|closed| - 1], rate);
      SettleOne(before, closed[|closed| - 1], rate)
  }

  function SumActive(closed: seq<Closed>): nat {
    if closed == [] then 0 else SumActive(closed[..|closed| - 1]) + closed[|closed| - 1].active
  }

  /** Every closed position's collateral goes to the pool or to the leader, none of it twice. */
  lemma {:induction false} SettlementSplits(book: Book, closed: seq<Closed>, rate: nat)
    requires SettleAll(book, closed, rate).Ok?
    ensures var after := SettleAll(book, closed, rate).value;
            && after.collateral + after.unclaimed == book.collateral + book.unclaimed + SumActive(closed)
            && after.check == book.check + SumActive(closed)
            && after.collateral >= book.collateral && after.unclaimed >= book.unclaimed
  {
    if closed != [] {
      SettlementSplits(book, closed[..|closed| - 1], rate);
    }
  }

  function Charges(closed: seq<Closed>, rate: nat): seq<Charge> {
    if closed == [] then [] else Charges(closed[..|closed| - 1], rate) + [Charge(closed[|closed| - 1].pnl, rate)]
  }

  lemma ChargesGrow(history: seq<Charge>, charges: seq<Charge>, last: Charge)
    requires AssessAll(history + charges).Ok?
    ensures AssessAll(history + (charges + [last])) == AssessNext(AssessAll(history + charges).value, last)
  {
    var all := history + (charges + [last]);
    assert all[..|all| - 1] == history + charges && all[|all| - 1] == last;
  }

  lemma SettleOneCharges(book: Book, ledger: Ledger, closed: Closed, rate: nat)
    requires ledger.mark == book.mark && SettleOne(book, closed, rate).Ok?
    ensures var next := AssessNext(ledger, Charge(closed.pnl, rate));
            && next.Ok?
            && SettleOne(book, closed, rate).value.mark == next.value.mark
            && SettleOne(book, closed, rate).value.unclaimed + ledger.commission
               == book.unclaimed + next.value.commission
  {
  }

  /** From the mark of any history, the commission booked is exactly what the high water mark assesses on
      that history continued by the closed positions. */
  lemma {:induction false} CommissionFollowsMark(book: Book, history: seq<Charge>, closed: seq<Closed>, rate: nat)
    requires AssessAll(history).Ok? && AssessAll(history).value.mark == book.mark
    requires SettleAll(book, closed, rate).Ok?
    ensures var continued := AssessAll(history + Charges(closed, rate));
            && continued.Ok?
            && SettleAll(book, closed, rate).value.mark == continued.value.mark
            && SettleAll(book, closed, rate).value.unclaimed + AssessAll(history).value.commission
               == book.unclaimed + continued.value.commission
  {
    if closed == [] {
      assert history + Charges(closed, rate) == history;
    } else {
      var before := closed[..|closed| - 1];
      CommissionFollowsMark(book, history, before, rate);
      var last := closed[|closed| - 1];
      ChargesGrow(history, Charges(before, rate), Charge(last.pnl, rate));
      SettleOneCharges(SettleAll(book, before, rate).value, AssessAll(history + Charges(before, rate)).value, last,
                       rate);
    }
  }

  lemma {:induction false} SettleAllAppend(book: Book, first: seq<Closed>, second: seq<Closed>, rate: nat)
    requires SettleAll(book, first, rate).Ok?
    ensures SettleAll(book, first + second, rate) == SettleAll(SettleAll(book, first, rate).value, second, rate)
  {
    if second == [] {
      assert first + second == first;
    } else {
      var rest := second[..|second| - 1];
      SettleAllAppend(book, first, rest, rate);
      assert (first + second)[..|first + second| - 1] == first + rest;
    }
  }

  lemma SliceJoin<T>(s: seq<T>, a: nat, b: nat, c: nat)
    requires a <= b <= c <= |s|
    ensures s[a..b] + s[b..c] == s[a..c]
  {
  }

  lemma {:induction false} SettleAllStops(book: Book, closed: seq<Closed>, i: nat, rate: nat)
    requires i <= |closed| && SettleAll(book, closed[..i], rate).Err?
    ensures SettleAll(book, closed, rate).Err?
    decreases |closed|
  {
    if i == |closed| {
      assert closed[..i] == closed;
    } else {
      var before := closed[..|closed| - 1];
      assert before[..i] == closed[..i];
      SettleAllStops(book, before, i, rate);
    }
  }

  /** The positions of one page, in order; the mark is updated in place. */
  method SettlePage(start: Book, page: seq<Closed>, rate: nat, hwm: HighWaterMark)
    returns (r: Result<Book, DecimalError>)
    requires hwm.Value() == start.mark
    modifies hwm
    ensures r.Ok? <==> SettleAll(start, page, rate).Ok?
    ensures r.Ok? ==> r == SettleAll(start, page, rate) && hwm.Value() == r.value.mark
  {
    var book := start;
    for i := 0 to |page|
      invariant SettleAll(start, page[..i], rate) == Ok(book)
      invariant hwm.Value() == book.mark
    {
      assert page[..i + 1][..i] == page[..i];
      var next := SettleOneInPlace(book, page[i], rate, hwm);
      if next.Err? {
        SettleAllStops(start, page, i + 1, rate);
        return next;
      }
      book := next.value;
    }
    assert page[..|page|] == page;
    r := Ok(book);
  }

  /** `handle_leader_commission` and the credit that follows it. */
  method SettleOneInPlace(book: Book, closed: Closed, rate: nat, hwm: HighWaterMark)
    returns (r: Result<Book, DecimalError>)
    requires hwm.Value() == book.mark
    modifies hwm
    ensures r.Ok? <==> SettleOne(book, closed, rate).Ok?
    ensures r.Ok? ==> r == SettleOne(book, closed, rate) && hwm.Value() == r.value.mark
  {
    var commission :- hwm.AddPnl(closed.pnl, rate);
    var unclaimed :- CheckedAdd(book.unclaimed, commission);
    var remaining :- CheckedSub(closed.active, commission);
    var check :- CheckedAdd(book.check, closed.active);
    var collateral :- CheckedAdd(book.collateral, remaining);
    r := Ok(Book(collateral, unclaimed, check, hwm.Value()));
  }

  // ----- The paged loops -----

  /** The page size, the query budget, and the commission rate of one call. */
  datatype Limits = Limits(page: nat, allowed: nat, rate: nat)

  function PageEnd(history: seq<Closed>, cursor: nat, page: nat): nat {
    if cursor + page < |history| then cursor + page else |history|
  }

  datatype Progress = Progress(book: Book, cursor: nat, queries: nat, early: bool)

  /** One market's pages from a cursor on, until the requested amount is explained, the listing ends, or the
      query budget is spent. */
  function MarketRun(book: Book, history: seq<Closed>, cursor: nat, requested: nat, queries: nat, limits: Limits)
    : Result<Progress, DecimalError>
    requires cursor <= |history| && limits.page > 0
    decreases |history| - cursor
  {
    var end := PageEnd(history, cursor, limits.page);
    var after :- SettleAll(book, history[cursor..end], limits.rate);
    if ApproxEq(after.check, requested) || end == |history| then Ok(Progress(after, end, queries + 1, false))
    else if queries + 1 >= limits.allowed then Ok(Progress(after, end, queries + 1, true))
    else MarketRun(after, history, end, requested, queries + 1, limits)
  }

  /** A market's pages settle a contiguous stretch after the cursor. They are cut only with the budget exactly
      spent, positions left and the amount unexplained; uncut and unexplained they exhaust the market. */
  lemma {:induction false} MarketRunSettles(book: Book, history: seq<Closed>, cursor: nat, requested: nat,
                                            queries: nat, limits: Limits)
    requires cursor <= |history| && limits.page > 0
    requires MarketRun(book, history, cursor, requested, queries, limits).Ok?
    ensures var p := MarketRun(book, history, cursor, requested, queries, limits).value;
            && cursor <= p.cursor <= |history|
            && SettleAll(book, history[cursor..p.cursor], limits.rate) == Ok(p.book)
            && queries < p.queries <= Max(queries + 1, limits.allowed)
            && (p.early ==> p.queries >= limits.allowed && cursor < p.cursor < |history|
                            && !ApproxEq(p.book.check, requested))
            && (!p.early && !ApproxEq(p.book.check, requested) ==> p.cursor == |history|)
    decreases |history| - cursor
  {
    var end := PageEnd(history, cursor, limits.page);
    var after := SettleAll(book, history[cursor..end], limits.rate).value;
    if !ApproxEq(after.check, requested) && end != |history| && queries + 1 < limits.allowed {
      MarketRunSettles(after, history, end, requested, queries + 1, limits);
      var p := MarketRun(after, history, end, requested, queries + 1, limits).value;
      SettleAllAppend(book, history[cursor..end], history[end..p.cursor], limits.rate);
      SliceJoin(history, cursor, end, p.cursor);
    }
  }

  /** How far each market's closed positions are settled. */
  predicate CursorsWithin(histories: seq<seq<Closed>>, from: seq<nat>, to: seq<nat>) {
    && |from| == |histories| == |to|
    && forall i | 0 <= i < |histories| :: from[i] <= to[i] <= |histories[i]|
  }

  /** The positions between two states of the cursors, market by market. */
  ghost function Between(histories: seq<seq<Closed>>, from: seq<nat>, to: seq<nat>): seq<Closed>
    requires CursorsWithin(histories, from, to)
  {
    if histories == [] then []
    else histories[0][from[0]..to[0]] + Between(histories[1..], from[1..], to[1..])
  }

  datatype Settled = Settled(book: Book, cursors: seq<nat>, early: bool, queries: nat, closed: seq<Closed>)

  /** The market loop of `rebalance`. */
  function SettleRun(book: Book, histories: seq<seq<Closed>>, from: seq<nat>, requested: nat, queries: nat,
                     limits: Limits): Result<Settled, DecimalError>
    requires limits.page > 0 && CursorsWithin(histories, from, from)
    decreases |histories|
  {
    if histories == [] then Ok(Settled(book, [], false, queries, []))
    else
      var p :- MarketRun(book, histories[0], from[0], requested, queries, limits);
      MarketRunSettles(book, histories[0], from[0], requested, queries, limits);
      var closed := histories[0][from[0]..p.cursor];
      if ApproxEq(p.book.check, requested) then Ok(Settled(p.book, [p.cursor] + from[1..], p.early, p.queries, closed))
      else if p.queries > limits.allowed then Ok(Settled(p.book, [p.cursor] + from[1..], true, p.queries, closed))
      else
        var rest :- SettleRun(p.book, histories[1..], from[1..], requested, p.queries, limits);
        Ok(Settled(rest.book, [p.cursor] + rest.cursors, p.early || rest.early, rest.queries, closed + rest.closed))
  }

  lemma {:induction false} BetweenNothing(histories: seq<seq<Closed>>, from: seq<nat>)
    requires CursorsWithin(histories, from, from)
    ensures Between(histories, from, from) == []
  {
    if histories != [] {
      BetweenNothing(histories[1..], from[1..]);
    }
  }

  predicate Exhausted(histories: seq<seq<Closed>>, cursors: seq<nat>)
    requires |cursors| == |histories|
  {
    forall i | 0 <= i < |histories| :: cursors[i] == |histories[i]|
  }

  lemma ConsCursors(histories: seq<seq<Closed>>, from: seq<nat>, to: seq<nat>)
    requires 0 < |histories| == |from| == |to|
    requires from[0] <= to[0] <= |histories[0]| && CursorsWithin(histories[1..], from[1..], to[1..])
    ensures CursorsWithin(histories, from, to)
    ensures to[0] == |histories[0]| && Exhausted(histories[1..], to[1..]) ==> Exhausted(histories, to)
  {
    forall i | 0 <= i < |histories|
      ensures from[i] <= to[i] <= |histories[i]|
    {
      if i > 0 {
        assert histories[i] == histories[1..][i - 1] && from[i] == from[1..][i - 1] && to[i] == to[1..][i - 1];
      }
    }
    if to[0] == |histories[0]| && Exhausted(histories[1..], to[1..]) {
      forall i | 0 <= i < |histories|
        ensures to[i] == |histories[i]|
      {
        if i > 0 {
          assert histories[i] == histories[1..][i - 1] && to[i] == to[1..][i - 1];
        }
      }
    }
  }

  /** What a rebalance books is the settlement of exactly the positions its cursors move over, each once. It is
      cut only with the budget spent; uncut and unexplained, nothing is left to settle. */
  lemma {:induction false} RebalanceSettles(book: Book, histories: seq<seq<Closed>>, from: seq<nat>,
                                            requested: nat, queries: nat, limits: Limits)
    requires limits.page > 0 && CursorsWithin(histories, from, from)
    requires SettleRun(book, histories, from, requested, queries, limits).Ok?
    ensures var s := SettleRun(book, histories, from, requested, queries, limits).value;
            && CursorsWithin(histories, from, s.cursors)
            && s.closed == Between(histories, from, s.cursors)
            && SettleAll(book, s.closed, limits.rate) == Ok(s.book)
            && (s.early ==> s.queries >= limits.allowed)
            && (histories == [] ==> !s.early)
            && (!s.early && !ApproxEq(s.book.check, requested) ==> Exhausted(histories, s.cursors))
    decreases |histories|
  {
    if histories != [] {
      var p := MarketRun(book, histories[0], from[0], requested, queries, limits).value;
      MarketRunSettles(book, histories[0], from[0], requested, queries, limits);
      var s := SettleRun(book, histories, from, requested, queries, limits).value;
      var closed := histories[0][from[0]..p.cursor];
      assert s.cursors[0] == p.cursor;
      if ApproxEq(p.book.check, requested) || p.queries > limits.allowed {
        BetweenNothing(histories[1..], from[1..]);
        assert s.cursors[1..] == from[1..];
        ConsCursors(histories, from, s.cursors);
      } else {
        RebalanceSettles(p.book, histories[1..], from[1..], requested, p.queries, limits);
        var rest := SettleRun(p.book, histories[1..], from[1..], requested, p.queries, limits).value;
        SettleAllAppend(book, closed, rest.closed, limits.rate);
        assert s.cursors[1..] == rest.cursors;
        ConsCursors(histories, from, s.cursors);
      }
    }
  }

  /** The page loop of one market, which reads at least one page. */
  method SettleMarket(start: Book, history: seq<Closed>, from: nat, requested: nat, queried: nat, limits: Limits,
                      hwm: HighWaterMark) returns (r: Result<Progress, DecimalError>)
    requires from <= |history| && limits.page > 0
    requires hwm.Value() == start.mark
    modifies hwm
    ensures r.Ok? <==> MarketRun(start, history, from, requested, queried, limits).Ok?
    ensures r.Ok? ==>
      r == MarketRun(start, history, from, requested, queried, limits) && hwm.Value() == r.value.book.mark
  {
    var book, cursor: nat, queries: nat := start, from, queried;
    while true
      invariant from <= cursor <= |history| && hwm.Value() == book.mark
      invariant MarketRun(book, history, cursor, requested, queries, limits)
                == MarketRun(start, history, from, requested, queried, limits)
      decreases |history| - cursor
    {
      var end := PageEnd(history, cursor, limits.page);
      var page := history[cursor..end];
      queries := queries + 1;
      cursor := end;
      book :- SettlePage(book, page, limits.rate, hwm);
      if ApproxEq(book.check, requested) {
        return Ok(Progress(book, cursor, queries, false));
      }
      if cursor == |history| {
        return Ok(Progress(book, cursor, queries, false));
      }
      if queries >= limits.allowed {
        return Ok(Progress(book, cursor, queries, true));
      }
    }
  }

  /** The rest of a market loop, after what has been settled before it. */
  function After(cursors: seq<nat>, early: bool, closed: seq<Closed>, rest: Result<Settled, DecimalError>)
    : Result<Settled, DecimalError>
  {
    var r :- rest;
    Ok(Settled(r.book, cursors + r.cursors, early || r.early, r.queries, closed + r.closed))
  }

  lemma AfterNothing(rest: Result<Settled, DecimalError>)
    ensures After([], false, [], rest) == rest
  {
    if rest.Ok? {
      assert [] + rest.value.cursors == rest.value.cursors && [] + rest.value.closed == rest.value.closed;
    }
  }

  lemma AfterAfter(cursors: seq<nat>, early: bool, closed: seq<Closed>, cursor: nat, cut: bool, more: seq<Closed>,
                   rest: Result<Settled, DecimalError>)
    ensures After(cursors, early, closed, After([cursor], cut, more, rest))
            == After(cursors + [cursor], early || cut, closed + more, rest)
  {
    if rest.Ok? {
      assert cursors + ([cursor] + rest.value.cursors) == cursors + [cursor] + rest.value.cursors;
      assert closed + (more + rest.value.closed) == closed + more + rest.value.closed;
    }
  }

  /** What one market's pages contribute to the market loop. */
  lemma RunStep(book: Book, histories: seq<seq<Closed>>, from: seq<nat>, i: nat, requested: nat, queries: nat,
                limits: Limits)
    requires limits.page > 0 && CursorsWithin(histories, from, from) && i < |histories|
    ensures var p := MarketRun(book, histories[i], from[i], requested, queries, limits);
            var run := SettleRun(book, histories[i..], from[i..], requested, queries, limits);
            && (p.Err? ==> run.Err?)
            && (p.Ok? ==>
                  && from[i] <= p.value.cursor <= |histories[i]|
                  && var closed := histories[i][from[i]..p.value.cursor];
                  run == if ApproxEq(p.value.book.check, requested) then
                           Ok(Settled(p.value.book, [p.value.cursor] + from[i + 1..], p.value.early, p.value.queries,
                                      closed))
                         else if p.value.queries > limits.allowed then
                           Ok(Settled(p.value.book, [p.value.cursor] + from[i + 1..], true, p.value.queries, closed))
                         else
                           After([p.value.cursor], p.value.early, closed,
                                 SettleRun(p.value.book, histories[i + 1..], from[i + 1..], requested,
                                           p.value.queries, limits)))
  {
    assert histories[i..][0] == histories[i] && from[i..][0] == from[i];
    assert histories[i..][1..] == histories[i + 1..] && from[i..][1..] == from[i + 1..];
    if MarketRun(book, histories[i], from[i], requested, queries, limits).Ok? {
      MarketRunSettles(book, histories[i], from[i], requested, queries, limits);
    }
  }

  /** The page loop of the i-th market, whose failure fails the whole loop. */
  method SettleMarketAt(book: Book, histories: seq<seq<Closed>>, from: seq<nat>, i: nat, requested: nat,
                        queries: nat, limits: Limits, hwm: HighWaterMark) returns (r: Result<Progress, DecimalError>)
    requires limits.page > 0 && CursorsWithin(histories, from, from) && i < |histories|
    requires hwm.Value() == book.mark
    modifies hwm
    ensures r.Err? ==> SettleRun(book, histories[i..], from[i..], requested, queries, limits).Err?
    ensures r.Ok? ==>
      && r == MarketRun(book, histories[i], from[i], requested, queries, limits)
      && hwm.Value() == r.value.book.mark && from[i] <= r.value.cursor <= |histories[i]|
  {
    RunStep(book, histories, from, i, requested, queries, limits);
    r := SettleMarket(book, histories[i], from[i], requested, queries, limits, hwm);
  }

  lemma LoopEnds(book: Book, histories: seq<seq<Closed>>, from: seq<nat>, cursors: seq<nat>, early: bool,
                 closed: seq<Closed>, requested: nat, queries: nat, limits: Limits)
    requires limits.page > 0 && CursorsWithin(histories, from, from)
    ensures After(cursors, early, closed,
                  SettleRun(book, histories[|histories|..], from[|histories|..], requested, queries, limits))
            == Ok(Settled(book, cursors, early, queries, closed))
  {
    assert cursors + [] == cursors && closed + [] == closed;
  }

  /** The market loop of `rebalance` over its pages, with the mark updated in place. */
  method Settle(start: Book, histories: seq<seq<Closed>>, from: seq<nat>, requested: nat, limits: Limits)
    returns (r: Result<Settled, DecimalError>)
    requires limits.page > 0 && CursorsWithin(histories, from, from)
    ensures r.Ok? <==> SettleRun(start, histories, from, requested, 0, limits).Ok?
    ensures r.Ok? ==> r == SettleRun(start, histories, from, requested, 0, limits)
  {
    hide SettleRun, MarketRun, ApproxEq;
    var hwm := new HighWaterMark(start.mark);
    var queries: nat, cursors: seq<nat>, closed: seq<Closed> := 0, [], [];
    var book, early, i := start, false, 0;
    ghost var whole := SettleRun(start, histories, from, requested, 0, limits);
    assert histories[0..] == histories && from[0..] == from;
    AfterNothing(whole);
    while i < |histories|
      invariant 0 <= i <= |histories| && |cursors| == i && fresh(hwm)
      invariant hwm.Value() == book.mark
      invariant whole == After(cursors, early, closed,
                               SettleRun(book, histories[i..], from[i..], requested, queries, limits))
    {
      var was := book;
      var progress :- SettleMarketAt(book, histories, from, i, requested, queries, limits, hwm);
      var settled := histories[i][from[i]..progress.cursor];
      RunStep(was, histories, from, i, requested, queries, limits);
      book, queries := progress.book, progress.queries;
      if ApproxEq(book.check, requested) {
        return Ok(Settled(book, cursors + ([progress.cursor] + from[i + 1..]), early || progress.early, queries,
                          closed + settled));
      }
      if queries > limits.allowed {
        return Ok(Settled(book, cursors + ([progress.cursor] + from[i + 1..]), true, queries, closed + settled));
      }
      AfterAfter(cursors, early, closed, progress.cursor, progress.early, settled,
                 SettleRun(book, histories[i + 1..], from[i + 1..], requested, queries, limits));
      cursors, closed, early, i := cursors + [progress.cursor], closed + settled, early || progress.early, i + 1;
    }
    LoopEnds(book, histories, from, cursors, early, closed, requested, queries, limits);
    r := Ok(Settled(book, cursors, early, queries, closed));
  }

  // ----- When a cut rebalance explains its request -----

  /** Whether a market's pages, up to where they are cut, are cut short of the amount, and the first page of the
      next market then explains it: the one query beyond the budget. */
  predicate CutThenExplained(book: Book, histories: seq<seq<Closed>>, from: seq<nat>, requested: nat, queries: nat,
                             limits: Limits)
    requires limits.page > 0 && CursorsWithin(histories, from, from)
    decreases |histories|
  {
    && histories != []
    && var p := MarketRun(book, histories[0], from[0], requested, queries, limits);
    && p.Ok? && !ApproxEq(p.value.book.check, requested) && p.value.queries <= limits.allowed
    && if p.value.early then
         |histories| > 1 && FirstPageExplains(p.value.book, histories[1], from[1], requested, limits)
       else CutThenExplained(p.value.book, histories[1..], from[1..], requested, p.value.queries, limits)
  }

  predicate FirstPageExplains(book: Book, history: seq<Closed>, cursor: nat, requested: nat, limits: Limits)
    requires cursor <= |history|
  {
    var after := SettleAll(book, history[cursor..PageEnd(history, cursor, limits.page)], limits.rate);
    after.Ok? && ApproxEq(after.value.check, requested)
  }

  /** A rebalance is cut although it explains its request if and only if a market's pages are cut at exactly
      the budget and the next market's first page explains it. */
  lemma {:induction false} CutWhenExplained(book: Book, histories: seq<seq<Closed>>, from: seq<nat>,
                                            requested: nat, queries: nat, limits: Limits)
    requires limits.page > 0 && CursorsWithin(histories, from, from)
    requires queries < limits.allowed
    requires SettleRun(book, histories, from, requested, queries, limits).Ok?
    ensures var s := SettleRun(book, histories, from, requested, queries, limits).value;
            s.early && ApproxEq(s.book.check, requested)
            <==> CutThenExplained(book, histories, from, requested, queries, limits)
    decreases |histories|
  {
    if histories != [] {
      var p := MarketRun(book, histories[0], from[0], requested, queries, limits).value;
      MarketRunSettles(book, histories[0], from[0], requested, queries, limits);
      if !ApproxEq(p.book.check, requested) {
        if p.early || p.queries == limits.allowed {
          LastQuery(p.book, histories[1..], from[1..], requested, p.queries, limits);
        } else {
          CutWhenExplained(p.book, histories[1..], from[1..], requested, p.queries, limits);
        }
      }
    }
  }

  /** With the budget just spent, one more page is read: of the next market, if there is one. */
  lemma LastQuery(book: Book, histories: seq<seq<Closed>>, from: seq<nat>, requested: nat, queries: nat,
                  limits: Limits)
    requires limits.page > 0 && CursorsWithin(histories, from, from)
    requires queries == limits.allowed && !ApproxEq(book.check, requested)
    requires SettleRun(book, histories, from, requested, queries, limits).Ok?
    ensures var s := SettleRun(book, histories, from, requested, queries, limits).value;
            && (ApproxEq(s.book.check, requested)
                <==> histories != [] && FirstPageExplains(book, histories[0], from[0], requested, limits))
            && (ApproxEq(s.book.check, requested) ==> !s.early)
            && !CutThenExplained(book, histories, from, requested, queries, limits)
  {
    if histories != [] {
      MarketRunSettles(book, histories[0], from[0], requested, queries, limits);
    }
  }

  // ----- What a rebalance credits and carries over -----

  /** `CURRENT_BATCH_WORK`, as far as a rebalance is concerned. */
  datatype Record = Nothing | Carry(balance: nat)

  /** What is credited beyond the settled collateral: an uncut rebalance takes the rest as a gift. */
  function Gains(requested: nat, settled: nat, early: bool): nat {
    if settled < requested && !early then requested - settled else 0
  }

  /** The record after a rebalance; a cut one that explains the whole request leaves the record as it was. */
  function NextRecord(record: Record, requested: nat, settled: nat, early: bool): Record {
    if !early then Nothing
    else if settled == 0 then Carry(requested)
    else if ApproxEq(settled, requested) || settled > requested then record
    else Carry(requested - settled)
  }

  /** One call of a batched rebalance: the collateral it settles and whether the query budget cuts it. */
  datatype Part = Part(settled: nat, early: bool)

  function Credited(requested: nat, part: Part): nat {
    part.settled + Gains(requested, part.settled, part.early)
  }

  /** The calls of one batch: the first asks for `requested`, each later one for what the record carries; a
      record gone back to `Nothing` ends the batch. */
  function CreditedByBatch(record: Record, requested: nat, parts: seq<Part>): nat
    decreases |parts|
  {
    if parts == [] then 0
    else
      var next := NextRecord(record, requested, parts[0].settled, parts[0].early);
      Credited(requested, parts[0]) + if next.Carry? then CreditedByBatch(next, next.balance, parts[1..]) else 0
  }

  /** Every cut call leaves something to ask for. */
  ghost predicate EachCutFallsShort(requested: nat, parts: seq<Part>)
    decreases |parts|
  {
    parts != [] ==>
      if parts[0].early then
        && (parts[0].settled == 0 || (parts[0].settled < requested && !ApproxEq(parts[0].settled, requested)))
        && EachCutFallsShort(requested - parts[0].settled, parts[1..])
      else true
  }

  /** The calls up to and including the one that ends the batch. */
  function CallsMade(record: Record, requested: nat, parts: seq<Part>): seq<Part>
    decreases |parts|
  {
    if parts == [] then []
    else
      var next := NextRecord(record, requested, parts[0].settled, parts[0].early);
      [parts[0]] + if next.Carry? then CallsMade(next, next.balance, parts[1..]) else []
  }

  function SumSettled(parts: seq<Part>): nat {
    if parts == [] then 0 else parts[0].settled + SumSettled(parts[1..])
  }

  /** What the last call of the batch asks for. */
  function LastRequest(record: Record, requested: nat, parts: seq<Part>): nat
    decreases |parts|
  {
    if parts == [] then requested
    else
      var next := NextRecord(record, requested, parts[0].settled, parts[0].early);
      if next.Carry? then LastRequest(next, next.balance, parts[1..]) else requested
  }

  ghost predicate EndsUncut(record: Record, requested: nat, parts: seq<Part>) {
    var made := CallsMade(record, requested, parts);
    made != [] && !made[|made| - 1].early
  }

  /** The requests of a batch never fall faster than collateral is settled, and keep step exactly while every
      cut call falls short. */
  lemma {:induction false} RequestsKeepUp(record: Record, requested: nat, parts: seq<Part>)
    requires record.Carry? ==> record.balance == requested
    requires EndsUncut(record, requested, parts)
    ensures var made := CallsMade(record, requested, parts);
            var last, lastRequest := made[|made| - 1], LastRequest(record, requested, parts);
            && CreditedByBatch(record, requested, parts) == SumSettled(made) + Max(0, lastRequest - last.settled)
            && SumSettled(made) - last.settled + lastRequest >= requested
            && (SumSettled(made) - last.settled + lastRequest == requested <==> EachCutFallsShort(requested, parts))
    decreases |parts|
  {
    var next := NextRecord(record, requested, parts[0].settled, parts[0].early);
    if next.Carry? {
      var rest := CallsMade(next, next.balance, parts[1..]);
      assert CallsMade(record, requested, parts) == [parts[0]] + rest;
      assert rest != [] && rest[|rest| - 1] == CallsMade(record, requested, parts)[|rest|];
      RequestsKeepUp(next, next.balance, parts[1..]);
      assert ([parts[0]] + rest)[1..] == rest;
    } else {
      assert CallsMade(record, requested, parts) == [parts[0]];
    }
  }

  /** A batch that ends uncut credits exactly the larger of the amount first requested and the collateral
      settled by all its calls, if and only if every cut call falls short of its request or the last call
      settles all of its request. */
  lemma BatchCreditsOnce(requested: nat, parts: seq<Part>)
    requires EndsUncut(Nothing, requested, parts)
    ensures var made := CallsMade(Nothing, requested, parts);
            CreditedByBatch(Nothing, requested, parts) == Max(requested, SumSettled(made)) <==>
            (EachCutFallsShort(requested, parts)
             || LastRequest(Nothing, requested, parts) <= made[|made| - 1].settled)
  {
    RequestsKeepUp(Nothing, requested, parts);
  }

  // ----- The same on the pages themselves -----

  /** The inputs of one call: the closed positions of the markets it visits, the cursors, and the limits. */
  datatype Call = Call(histories: seq<seq<Closed>>, from: seq<nat>, limits: Limits) {
    predicate Valid() {
      limits.page > 0 && CursorsWithin(histories, from, from)
    }
  }

  /** The books after a call that is asked for `requested`, and what it amounts to. */
  function RunCall(book: Book, requested: nat, call: Call): Result<(Book, Part), DecimalError>
    requires call.Valid()
  {
    var s :- SettleRun(book.(check := 0), call.histories, call.from, requested, 0, call.limits);
    var collateral :- CheckedAdd(s.book.collateral, Gains(requested, s.book.check, s.early));
    Ok((s.book.(collateral := collateral), Part(s.book.check, s.early)))
  }

  /** The books after the calls of one batch, and what the calls amount to; later calls are not made. */
  function RunBatch(book: Book, record: Record, requested: nat, calls: seq<Call>)
    : Result<(Book, seq<Part>), DecimalError>
    requires forall i | 0 <= i < |calls| :: calls[i].Valid()
    decreases |calls|
  {
    if calls == [] then Ok((book, []))
    else
      var first :- RunCall(book, requested, calls[0]);
      var next := NextRecord(record, requested, first.1.settled, first.1.early);
      if next.Nothing? then Ok((first.0, [first.1]))
      else
        var rest :- RunBatch(first.0, next, next.balance, calls[1..]);
        Ok((rest.0, [first.1] + rest.1))
  }

  function Worth(book: Book): nat {
    book.collateral + book.unclaimed
  }

  lemma CallCredits(book: Book, requested: nat, call: Call)
    requires call.Valid() && RunCall(book, requested, call).Ok?
    ensures Worth(RunCall(book, requested, call).value.0)
            == Worth(book) + Credited(requested, RunCall(book, requested, call).value.1)
  {
    var s := SettleRun(book.(check := 0), call.histories, call.from, requested, 0, call.limits).value;
    RebalanceSettles(book.(check := 0), call.histories, call.from, requested, 0, call.limits);
    SettlementSplits(book.(check := 0), s.closed, call.limits.rate);
  }

  /** The calls made are those of the bookkeeping above, which credits what they add to the books. */
  lemma {:induction false} BatchCredits(book: Book, record: Record, requested: nat, calls: seq<Call>)
    requires forall i | 0 <= i < |calls| :: calls[i].Valid()
    requires RunBatch(book, record, requested, calls).Ok?
    ensures var after := RunBatch(book, record, requested, calls).value;
            && CallsMade(record, requested, after.1) == after.1
            && Worth(after.0) == Worth(book) + CreditedByBatch(record, requested, after.1)
    decreases |calls|
  {
    if calls != [] {
      var first := RunCall(book, requested, calls[0]).value;
      CallCredits(book, requested, calls[0]);
      var next := NextRecord(record, requested, first.1.settled, first.1.early);
      if next.Carry? {
        BatchCredits(first.0, next, next.balance, calls[1..]);
        var rest := RunBatch(first.0, next, next.balance, calls[1..]).value;
        assert ([first.1] + rest.1)[1..] == rest.1;
      } else {
        assert [first.1][1..] == [];
      }
    }
  }

  /** No call of the batch is cut although it explains, or overshoots, what it asks for. */
  ghost predicate NoCutExplains(book: Book, record: Record, requested: nat, calls: seq<Call>)
    requires forall i | 0 <= i < |calls| :: calls[i].Valid()
    decreases |calls|
  {
    calls != [] && RunCall(book, requested, calls[0]).Ok? ==>
      var first := RunCall(book, requested, calls[0]).value;
      var next := NextRecord(record, requested, first.1.settled, first.1.early);
      && !(first.1.early && first.1.settled > 0
           && (ApproxEq(first.1.settled, requested) || first.1.settled > requested))
      && (next.Carry? ==> NoCutExplains(first.0, next, next.balance, calls[1..]))
  }

  lemma {:induction false} NoCutFallsShort(book: Book, record: Record, requested: nat, calls: seq<Call>)
    requires forall i | 0 <= i < |calls| :: calls[i].Valid()
    requires RunBatch(book, record, requested, calls).Ok?
    ensures NoCutExplains(book, record, requested, calls)
            <==> EachCutFallsShort(requested, RunBatch(book, record, requested, calls).value.1)
    decreases |calls|
  {
    hide RunCall;
    if calls != [] {
      var first := RunCall(book, requested, calls[0]).value;
      var next := NextRecord(record, requested, first.1.settled, first.1.early);
      if next.Carry? {
        NoCutFallsShort(first.0, next, next.balance, calls[1..]);
        var rest := RunBatch(first.0, next, next.balance, calls[1..]).value;
        assert ([first.1] + rest.1)[1..] == rest.1;
      } else {
        assert [first.1][1..] == [];
      }
    }
  }

  /** On any markets, cursors and limits: a batch that ends uncut adds to the books exactly the larger of the
      amount first requested and what its calls settle, if and only if no call is cut although it explains its
      request, or the last call settles all of its own. */
  lemma BatchBooksOnce(book: Book, requested: nat, calls: seq<Call>)
    requires forall i | 0 <= i < |calls| :: calls[i].Valid()
    requires RunBatch(book, Nothing, requested, calls).Ok?
    requires var parts := RunBatch(book, Nothing, requested, calls).value.1;
             parts != [] && !parts[|parts| - 1].early
    ensures var after := RunBatch(book, Nothing, requested, calls).value;
            var parts := after.1;
            Worth(after.0) == Worth(book) + Max(requested, SumSettled(parts)) <==>
            (NoCutExplains(book, Nothing, requested, calls)
             || LastRequest(Nothing, requested, parts) <= parts[|parts| - 1].settled)
  {
    BatchCredits(book, Nothing, requested, calls);
    NoCutFallsShort(book, Nothing, requested, calls);
    BatchCreditsOnce(requested, RunBatch(book, Nothing, requested, calls).value.1);
  }

  // ----- A batch that credits the same amount twice -----

  function Flat(active: nat): Closed {
    Closed(active, 0)
  }

  function Flats(n: nat): seq<Closed> {
    if n == 0 then [] else Flats(n - 1) + [Flat(0)]
  }

  /** Pages of fifteen and a commission of a tenth, and a budget of one query to the call. */
  const TIGHT: Limits := Limits(15, 1, ONE / 10)

  /** Three markets that paid out 3 in all; the second lists a full page of positions that returned nothing, a
      second page whose last position returned 1, and one position more. */
  const MARKET_A: seq<Closed> := [Flat(ONE)]
  const MARKET_B: seq<Closed> := Flats(15) + (Flats(14) + [Flat(ONE)]) + Flats(1)
  const MARKET_C: seq<Closed> := [Flat(ONE)]

  function Plain(collateral: nat, check: nat): Book {
    Book(collateral, 0, check, START)
  }

  lemma {:induction false} FlatsLength(n: nat)
    ensures |Flats(n)| == n
  {
    if n > 0 {
      FlatsLength(n - 1);
    }
  }

  /** Any number of positions that returned nothing leave the books as they are. */
  lemma {:induction false} FlatsSettle(collateral: nat, check: nat, n: nat)
    requires collateral <= MAX_ATOMS && check <= MAX_ATOMS
    ensures SettleAll(Plain(collateral, check), Flats(n), TIGHT.rate) == Ok(Plain(collateral, check))
  {
    if n > 0 {
      FlatsSettle(collateral, check, n - 1);
      assert Flats(n)[..|Flats(n)| - 1] == Flats(n - 1);
    }
  }

  lemma OneSettles(collateral: nat, check: nat, active: nat)
    requires collateral + active <= MAX_ATOMS && check + active <= MAX_ATOMS
    ensures SettleAll(Plain(collateral, check), [Flat(active)], TIGHT.rate)
            == Ok(Plain(collateral + active, check + active))
  {
    assert [Flat(active)][..0] == [];
    assert SettleAll(Plain(collateral, check), [], TIGHT.rate) == Ok(Plain(collateral, check));
  }

  /** The three pages of the second market. */
  lemma PagesOfB()
    ensures |MARKET_B| == 31
    ensures MARKET_B[0..15] == Flats(15) && MARKET_B[15..30] == Flats(14) + [Flat(ONE)] && MARKET_B[30..31] == Flats(1)
  {
    FlatsLength(15);
    FlatsLength(14);
    FlatsLength(1);
  }

  /** One page settled within the budget's last query. */
  lemma LastPage(book: Book, history: seq<Closed>, cursor: nat, requested: nat, queries: nat, after: Book)
    requires cursor <= |history| && queries + 1 >= TIGHT.allowed
    requires SettleAll(book, history[cursor..PageEnd(history, cursor, TIGHT.page)], TIGHT.rate) == Ok(after)
    ensures var end := PageEnd(history, cursor, TIGHT.page);
            MarketRun(book, history, cursor, requested, queries, TIGHT)
            == Ok(Progress(after, end, queries + 1, !ApproxEq(after.check, requested) && end < |history|))
  {
  }

  lemma SinglePage(collateral: nat, check: nat, requested: nat, queries: nat)
    requires collateral + ONE <= MAX_ATOMS && check + ONE <= MAX_ATOMS
    ensures MarketRun(Plain(collateral, check), MARKET_C, 0, requested, queries, TIGHT)
            == Ok(Progress(Plain(collateral + ONE, check + ONE), 1, queries + 1, false))
  {
    assert MARKET_C[0..1] == MARKET_C;
    OneSettles(collateral, check, ONE);
    LastPage(Plain(collateral, check), MARKET_C, 0, requested, queries, Plain(collateral + ONE, check + ONE));
  }

  lemma EmptyPage(book: Book, history: seq<Closed>, requested: nat, queries: nat)
    ensures MarketRun(book, history, |history|, requested, queries, TIGHT)
            == Ok(Progress(book, |history|, queries + 1, false))
  {
    assert history[|history|..|history|] == [];
  }

  const CALL_1: Call := Call([MARKET_A, MARKET_B, MARKET_C], [0, 0, 0], TIGHT)
  const CALL_2: Call := Call([MARKET_B, MARKET_C], [15, 0], TIGHT)
  const CALL_3: Call := Call([MARKET_B, MARKET_C], [30, 1], TIGHT)
  const CALL_4: Call := Call([MARKET_C], [1], TIGHT)

  /** How a run ends, but for the list of what it settled. */
  predicate EndsAt(run: Result<Settled, DecimalError>, book: Book, cursors: seq<nat>, early: bool) {
    run.Ok? && run.value.book == book && run.value.cursors == cursors && run.value.early == early
  }

  lemma FirstRun()
    ensures CALL_1.Valid()
    ensures EndsAt(SettleRun(Plain(0, 0), [MARKET_A, MARKET_B, MARKET_C], [0, 0, 0], 3 * ONE, 0, TIGHT),
                   Plain(ONE, ONE), [1, 15, 0], true)
  {
    hide MarketRun, SettleAll, Flats;
    PagesOfB();
    SinglePage(0, 0, 3 * ONE, 0);
    FlatsSettle(ONE, ONE, 15);
    LastPage(Plain(ONE, ONE), MARKET_B, 0, 3 * ONE, 1, Plain(ONE, ONE));
    var histories, from := [MARKET_A, MARKET_B, MARKET_C], [0, 0, 0];
    assert histories[1..] == [MARKET_B, MARKET_C] && from[1..] == [0, 0];
    assert EndsAt(SettleRun(Plain(ONE, ONE), histories[1..], from[1..], 3 * ONE, 1, TIGHT),
                  Plain(ONE, ONE), [15, 0], true);
  }

  /** Cut in the first market, explained by the second: everything is settled, the record stays. */
  lemma SecondRun()
    ensures CALL_2.Valid()
    ensures EndsAt(SettleRun(Plain(ONE, 0), [MARKET_B, MARKET_C], [15, 0], 2 * ONE, 0, TIGHT),
                   Plain(3 * ONE, 2 * ONE), [30, 1], true)
  {
    hide MarketRun, SettleAll, Flats;
    PagesOfB();
    FlatsSettle(ONE, 0, 14);
    OneSettles(ONE, 0, ONE);
    SettleAllAppend(Plain(ONE, 0), Flats(14), [Flat(ONE)], TIGHT.rate);
    LastPage(Plain(ONE, 0), MARKET_B, 15, 2 * ONE, 0, Plain(2 * ONE, ONE));
    SinglePage(2 * ONE, ONE, 2 * ONE, 1);
    var histories, from := [MARKET_B, MARKET_C], [15, 0];
    assert histories[1..] == [MARKET_C] && from[1..] == [0];
    assert EndsAt(SettleRun(Plain(2 * ONE, ONE), histories[1..], from[1..], 2 * ONE, 1, TIGHT),
                  Plain(3 * ONE, 2 * ONE), [1], false);
  }

  lemma ThirdRun()
    ensures CALL_3.Valid()
    ensures EndsAt(SettleRun(Plain(3 * ONE, 0), [MARKET_B, MARKET_C], [30, 1], 2 * ONE, 0, TIGHT),
                   Plain(3 * ONE, 0), [31, 1], true)
  {
    hide MarketRun, SettleAll, Flats;
    PagesOfB();
    FlatsSettle(3 * ONE, 0, 1);
    LastPage(Plain(3 * ONE, 0), MARKET_B, 30, 2 * ONE, 0, Plain(3 * ONE, 0));
    EmptyPage(Plain(3 * ONE, 0), MARKET_C, 2 * ONE, 1);
    var histories, from := [MARKET_B, MARKET_C], [30, 1];
    assert histories[1..] == [MARKET_C] && from[1..] == [1];
    assert EndsAt(SettleRun(Plain(3 * ONE, 0), histories[1..], from[1..], 2 * ONE, 1, TIGHT),
                  Plain(3 * ONE, 0), [1], true);
  }

  lemma FourthRun()
    ensures CALL_4.Valid()
    ensures EndsAt(SettleRun(Plain(3 * ONE, 0), [MARKET_C], [1], 2 * ONE, 0, TIGHT), Plain(3 * ONE, 0), [1], false)
  {
    EmptyPage(Plain(3 * ONE, 0), MARKET_C, 2 * ONE, 0);
    var histories, from := [MARKET_C], [1];
    assert histories[1..] == [] && from[1..] == [];
    assert EndsAt(SettleRun(Plain(3 * ONE, 0), histories[1..], from[1..], 2 * ONE, 1, TIGHT),
                  Plain(3 * ONE, 0), [], false);
  }

  /** What each of the four calls amounts to. */
  lemma FourCalls()
    ensures CALL_1.Valid() && CALL_2.Valid() && CALL_3.Valid() && CALL_4.Valid()
    ensures RunCall(Plain(0, 0), 3 * ONE, CALL_1) == Ok((Plain(ONE, ONE), Part(ONE, true)))
    ensures RunCall(Plain(ONE, ONE), 2 * ONE, CALL_2) == Ok((Plain(3 * ONE, 2 * ONE), Part(2 * ONE, true)))
    ensures RunCall(Plain(3 * ONE, 2 * ONE), 2 * ONE, CALL_3) == Ok((Plain(3 * ONE, 0), Part(0, true)))
    ensures RunCall(Plain(3 * ONE, 0), 2 * ONE, CALL_4) == Ok((Plain(5 * ONE, 0), Part(0, false)))
  {
    hide SettleRun, Flats;
    FirstRun();
    SecondRun();
    ThirdRun();
    FourthRun();
  }

  lemma BatchStep(book: Book, record: Record, requested: nat, call: Call, rest: seq<Call>, first: (Book, Part),
                  left: nat, end: Book, parts: seq<Part>)
    requires call.Valid() && forall i | 0 <= i < |rest| :: rest[i].Valid()
    requires RunCall(book, requested, call) == Ok(first)
    requires NextRecord(record, requested, first.1.settled, first.1.early) == Carry(left)
    requires RunBatch(first.0, Carry(left), left, rest) == Ok((end, parts))
    ensures RunBatch(book, record, requested, [call] + rest) == Ok((end, [first.1] + parts))
  {
    assert ([call] + rest)[1..] == rest;
  }

  lemma LastCalls()
    requires CALL_3.Valid() && CALL_4.Valid()
    requires RunCall(Plain(3 * ONE, 2 * ONE), 2 * ONE, CALL_3) == Ok((Plain(3 * ONE, 0), Part(0, true)))
    requires RunCall(Plain(3 * ONE, 0), 2 * ONE, CALL_4) == Ok((Plain(5 * ONE, 0), Part(0, false)))
    ensures RunBatch(Plain(3 * ONE, 2 * ONE), Carry(2 * ONE), 2 * ONE, [CALL_3] + [CALL_4])
            == Ok((Plain(5 * ONE, 0), [Part(0, true)] + [Part(0, false)]))
  {
    hide RunCall;
    assert [CALL_4][1..] == [];
    assert RunBatch(Plain(3 * ONE, 0), Carry(2 * ONE), 2 * ONE, [CALL_4]) == Ok((Plain(5 * ONE, 0), [Part(0, false)]));
    BatchStep(Plain(3 * ONE, 2 * ONE), Carry(2 * ONE), 2 * ONE, CALL_3, [CALL_4], (Plain(3 * ONE, 0), Part(0, true)),
              2 * ONE, Plain(5 * ONE, 0), [Part(0, false)]);
  }

  /** 3 are requested and exactly 3 are settled, by calls that each resume where the last one recorded; the
      second is cut just as it explains the 2 it asked for and leaves its record, and the last one finds
      nothing to settle and credits those 2 again: 5 in all. */
  lemma StaleRecordCreditsTwice()
    ensures CALL_1.Valid() && CALL_2.Valid() && CALL_3.Valid() && CALL_4.Valid()
    ensures var after := RunBatch(Plain(0, 0), Nothing, 3 * ONE, [CALL_1] + ([CALL_2] + ([CALL_3] + [CALL_4])));
            && after.Ok?
            && after.value.1 == [Part(ONE, true), Part(2 * ONE, true), Part(0, true), Part(0, false)]
            && SumSettled(after.value.1) == 3 * ONE
            && Worth(after.value.0) == 5 * ONE
  {
    var end, parts := Plain(5 * ONE, 0), [Part(0, true)] + [Part(0, false)];
    hide RunCall;
    FourCalls();
    LastCalls();
    BatchStep(Plain(ONE, ONE), Carry(2 * ONE), 2 * ONE, CALL_2, [CALL_3] + [CALL_4],
              (Plain(3 * ONE, 2 * ONE), Part(2 * ONE, true)), 2 * ONE, end, parts);
    BatchStep(Plain(0, 0), Nothing, 3 * ONE, CALL_1, [CALL_2] + ([CALL_3] + [CALL_4]),
              (Plain(ONE, ONE), Part(ONE, true)), 2 * ONE, end, [Part(2 * ONE, true)] + parts);
    StaleParts();
  }

  lemma StaleParts()
    ensures var parts := [Part(ONE, true)] + ([Part(2 * ONE, true)] + ([Part(0, true)] + [Part(0, false)]));
            && parts == [Part(ONE, true), Part(2 * ONE, true), Part(0, true), Part(0, false)]
            && SumSettled(parts) == 3 * ONE
  {
    var last := [Part(0, false)];
    SumOfFirst(Part(0, false), []);
    SumOfFirst(Part(0, true), last);
    SumOfFirst(Part(2 * ONE, true), [Part(0, true)] + last);
    SumOfFirst(Part(ONE, true), [Part(2 * ONE, true)] + ([Part(0, true)] + last));
    assert [Part(0, false)] + [] == last;
  }

  lemma SumOfFirst(first: Part, rest: seq<Part>)
    ensures SumSettled([first] + rest) == first.settled + SumSettled(rest)
  {
    assert ([first] + rest)[1..] == rest;
  }
}
