/** The paged scan of one market's open positions and limit orders: a first pass adds up their collateral, a
    second counts them again, and a query budget may cut either pass at any page. */
module MarketScan {

  datatype ScanStatus =
    | NotStarted
    | ProcessOpenPositions(seen: nat)
    | ProcessLimitOrder(seen: nat)
    | ValidateOpenPositions(seen: nat, total: nat)
    | ValidateLimitOrder(seen: nat, total: nat)
    | ResetRequired
    | Validated
  {
    predicate IsValidate() {
      ValidateOpenPositions? || ValidateLimitOrder?
    }

    /** Where the first pass resumes its positions, and its orders. */
    function PositionsSeen(): nat {
      match this
      case ProcessOpenPositions(seen) => seen
      case _ => 0
    }

    function OrdersSeen(): nat {
      match this
      case ProcessLimitOrder(seen) => seen
      case _ => 0
    }
  }

  /** What the market lists for this contract: the collateral of each open position and of each limit order. */
  datatype Listing = Listing(positions: seq<nat>, orders: seq<nat>)

  function Total(amounts: seq<nat>): nat {
    if amounts == [] then 0 else Total(amounts[..|amounts| - 1]) + amounts[|amounts| - 1]
  }

  lemma {:induction false} TotalAppend(first: seq<nat>, second: seq<nat>)
    ensures Total(first + second) == Total(first) + Total(second)
  {
    if second == [] {
      assert first + second == first;
    } else {
      TotalAppend(first, second[..|second| - 1]);
      assert (first + second)[..|first + second| - 1] == first + second[..|second| - 1];
    }
  }

  lemma TotalPage(amounts: seq<nat>, from: nat, to: nat)
    requires from <= to <= |amounts|
    ensures Total(amounts[..from]) + Total(amounts[from..to]) == Total(amounts[..to])
  {
    TotalAppend(amounts[..from], amounts[from..to]);
    assert amounts[..from] + amounts[from..to] == amounts[..to];
  }

  /** The end of the page after the first `seen` entries. */
  function PageEnd(listing: seq<nat>, seen: nat, limit: nat): nat {
    if seen + limit < |listing| then seen + limit else |listing|
  }

  /** The queries a position loop makes for a listing of at most one page: two for the page, if there is one, and
      one to find the end, unless the budget is spent before. */
  function PageCost(entries: int, queried: nat, allowed: nat): nat {
    if entries == 0 then 1 else if queried + 2 > allowed then 2 else 3
  }

  /** The pages it takes to list some entries: all full but the last. */
  function PageCount(entries: nat, limit: nat): nat
    requires limit > 0
  {
    if entries == 0 then 0 else if entries <= limit then 1 else 1 + PageCount(entries - limit, limit)
  }

  predicate FullPages(entries: nat, limit: nat)
    requires limit > 0
  {
    entries == 0 || (entries >= limit && FullPages(entries - limit, limit))
  }

  lemma {:induction false} NextPage(entries: nat, more: nat, limit: nat)
    requires limit > 0 && FullPages(entries, limit) && 0 < more <= limit
    ensures PageCount(entries + more, limit) == PageCount(entries, limit) + 1
    ensures more == limit ==> FullPages(entries + more, limit)
    decreases entries
  {
    if entries > 0 {
      NextPage(entries - limit, more, limit);
    }
  }

  lemma {:induction false} PagesGrow(entries: nat, more: nat, limit: nat)
    requires limit > 0
    ensures PageCount(entries, limit) <= PageCount(entries + more, limit)
    ensures FullPages(entries, limit) && more > 0 ==> PageCount(entries, limit) < PageCount(entries + more, limit)
    decreases entries
  {
    if entries > limit {
      PagesGrow(entries - limit, more, limit);
    }
  }

  datatype Verdict = Failed | Success | InProgress

  predicate Short(listing: Listing, limit: nat) {
    |listing.positions| <= limit && |listing.orders| <= limit
  }

  /** `MARKET_WORK_INFO` of one market. */
  class MarketWork {
    var status: ScanStatus
    var active: nat
    var positions: nat
    var orders: nat

    constructor ()
      ensures status == NotStarted && active == positions == orders == 0
    {
      status, active, positions, orders := NotStarted, 0, 0, 0;
    }

    /** The sums and counts of exactly the entries the first pass has seen. */
    ghost predicate Processed(listing: Listing)
      reads this
    {
      match status
      case NotStarted => active == positions == orders == 0
      case ProcessOpenPositions(seen) =>
        && seen <= |listing.positions|
        && active == Total(listing.positions[..seen]) && positions == seen && orders == 0
      case ProcessLimitOrder(_) => false
      case _ => Complete(listing)
    }

    ghost predicate Complete(listing: Listing)
      reads this
    {
      && active == Total(listing.positions) + Total(listing.orders)
      && positions == |listing.positions| && orders == |listing.orders|
    }

    /** The second pass has counted exactly the entries it has seen. */
    ghost predicate Counted(listing: Listing)
      reads this
    {
      match status
      case ValidateOpenPositions(seen, total) => total == seen <= |listing.positions|
      case ValidateLimitOrder(seen, total) =>
        positions == |listing.positions| && total == seen < |listing.orders|
      case Validated => Matches(listing)
      case ResetRequired => !Matches(listing)
      case _ => true
    }

    /** The one-pass verdict: as many positions and orders as the first pass counted. */
    ghost predicate Matches(listing: Listing)
      reads this
    {
      positions == |listing.positions| && orders == |listing.orders|
    }

    /** The first pass is still to read this market's positions. */
    predicate Reads()
      reads this
    {
      status.NotStarted? || status.ProcessOpenPositions?
    }

    /** How much of the two passes is left, on the listings they read. */
    ghost function Remaining(first: Listing, second: Listing): int
      reads this
    {
      var validation := |second.positions| + |second.orders| + 1;
      match status
      case NotStarted => 2 + |first.positions| + validation
      case ProcessOpenPositions(seen) => 1 + |first.positions| - seen + validation
      case ValidateOpenPositions(seen, _) => validation - seen
      case ValidateLimitOrder(seen, _) => |second.orders| - seen
      case _ => 0
    }

    /** Adds up one page. */
    method SumPage(page: seq<nat>) returns (sum: nat)
      ensures sum == Total(page)
    {
      sum := 0;
      for i := 0 to |page|
        invariant sum == Total(page[..i])
      {
        assert page[..i + 1][..i] == page[..i];
        sum := sum + page[i];
      }
      assert page[..|page|] == page;
    }

    /** The position loop: reads pages until one is empty, or until after a page the budget is spent. */
    method ReadPositions(listing: seq<nat>, limit: nat, start: nat, queried: nat, allowed: nat)
      returns (seen: nat, queries: nat, early: bool)
      requires limit > 0 && start <= |listing|
      requires active == Total(listing[..start]) && positions == start
      modifies `active, `positions
      ensures start <= seen <= |listing| && queried < queries
      ensures active == Total(listing[..seen]) && positions == seen
      ensures early ==> allowed < queries
      ensures !early ==> seen == |listing|
      ensures allowed < queries ==> start < seen || queries == queried + 1
      ensures |listing| - start <= limit ==> queries == queried + PageCost(|listing| - start, queried, allowed)
      // Two queries to the page and one to find the end, unless the pages exceed the budget before; cut at the first.
      ensures early <==> start < |listing| && allowed < queried + 2 * PageCount(|listing| - start, limit)
      ensures queries == queried + 2 * PageCount(seen - start, limit) + if early then 0 else 1
      ensures early ==> queries == queried + 2 || queries - 2 <= allowed
    {
      seen, queries, early := start, queried, false;
      while true
        invariant start <= seen <= |listing| && !early
        invariant queried <= queries && (seen == start ==> queries == queried)
        invariant start < seen && |listing| - start <= limit ==> seen == |listing| && queries == queried + 2 <= allowed
        invariant seen < |listing| ==> FullPages(seen - start, limit)
        invariant queries == queried + 2 * PageCount(seen - start, limit) && (start < seen ==> queries <= allowed)
        invariant active == Total(listing[..seen]) && positions == seen
        decreases |listing| - seen
      {
        var end := PageEnd(listing, seen, limit);
        var page := listing[seen..end];
        queries := queries + 1;
        if page == [] {
          break;
        }
        queries := queries + 1;
        NextPage(seen - start, end - seen, limit);
        PagesGrow(end - start, |listing| - end, limit);
        TotalPage(listing, seen, end);
        var sum := SumPage(page);
        active, positions, seen := active + sum, positions + |page|, end;
        if queries > allowed {
          early := true;
          break;
        }
      }
    }

    /** The order loop: reads pages up to the last. It is not charged to the budget, which it enters unspent,
        so its own budget check never cuts it. */
    method ReadOrders(listing: seq<nat>, limit: nat, start: nat, queries: nat, allowed: nat)
      returns (seen: nat, early: bool)
      requires limit > 0 && start <= |listing| && queries <= allowed
      modifies `active, `orders
      ensures seen == |listing| && !early
      ensures active == old(active) + Total(listing) - Total(listing[..start])
      ensures orders == old(orders) + |listing| - start
    {
      seen, early := start, false;
      while true
        invariant start <= seen <= |listing| && !early
        invariant active == old(active) + Total(listing[..seen]) - Total(listing[..start])
        invariant orders == old(orders) + seen - start
        decreases |listing| - seen
      {
        var end := PageEnd(listing, seen, limit);
        var page := listing[seen..end];
        if page == [] {
          break;
        }
        TotalPage(listing, seen, end);
        var sum := SumPage(page);
        active, orders, seen := active + sum, orders + |page|, end;
        if seen == |listing| {
          break;
        }
        if queries > allowed {
          early := true;
          break;
        }
      }
      assert listing[..seen] == listing;
    }

    /** `process_single_market`: the first pass, from wherever it was cut. It is cut only after a position page,
        and ends with the sums and counts of the whole listing, whatever the cuts before. */
    method Process(listing: Listing, limit: nat, queried: nat, allowed: nat) returns (queries: nat, early: bool)
      requires limit > 0 && queried <= allowed
      requires status.IsValidate() || status.Validated? || (Reads() && Processed(listing))
      modifies this
      ensures queried <= queries && (early <==> allowed < queries)
      ensures old(Reads()) ==> Processed(listing)
      ensures old(status).IsValidate() ==> status == old(status) && queries == queried
      ensures old(Reads()) ==>
        if early then status.ProcessOpenPositions? else status == ValidateOpenPositions(0, 0) && Complete(listing)
      ensures old(Reads()) && queried == 0 < allowed ==>
        forall second :: Remaining(listing, second) < old(Remaining(listing, second))
      ensures old(status).IsValidate() ==>
                active == old(active) && positions == old(positions) && orders == old(orders)
      ensures old(status).NotStarted? && |listing.positions| <= limit ==>
                queries == queried + PageCost(|listing.positions|, queried, allowed)
      // A market already validated has its orders added once more.
      ensures old(status).Validated? ==>
        && status == ValidateOpenPositions(0, 0) && queries == queried
        && active == old(active) + Total(listing.orders) && positions == old(positions)
        && orders == old(orders) + |listing.orders|
    {
      queries, early := queried, false;
      var before := status;
      if before.NotStarted? || before.ProcessOpenPositions? {
        var seen := before.PositionsSeen();
        seen, queries, early := ReadPositions(listing.positions, limit, seen, queried, allowed);
        status := ProcessOpenPositions(seen);
        assert !early ==> listing.positions[..seen] == listing.positions;
      }
      if queries > allowed {
        return queries, true;
      }
      if !early && !before.IsValidate() {
        var seen := before.OrdersSeen();
        seen, early := ReadOrders(listing.orders, limit, seen, queries, allowed);
        status := if early then ProcessLimitOrder(seen) else ValidateOpenPositions(0, 0);
      }
    }

    /** Counts positions again, from wherever the second pass was cut. */
    method CountPositions(listing: seq<nat>, limit: nat, start: nat, queried: nat, allowed: nat)
      returns (seen: nat, total: nat, queries: nat, finished: bool)
      requires limit > 0 && start <= |listing|
      ensures start <= seen == total <= |listing| && queried < queries
      ensures finished ==> seen == |listing|
      ensures !finished ==> allowed < queries
      ensures allowed < queries ==> start < seen || queries == queried + 1
      ensures |listing| - start <= limit ==>
        && queries == queried + PageCost(|listing| - start, queried, allowed)
        && (finished <==> start == |listing| || queried + 2 <= allowed) && seen == |listing|
      ensures !finished <==> start < |listing| && allowed < queried + 2 * PageCount(|listing| - start, limit)
      ensures queries == queried + 2 * PageCount(seen - start, limit) + if finished then 1 else 0
      ensures !finished ==> queries == queried + 2 || queries - 2 <= allowed
    {
      seen, total, queries, finished := start, start, queried, false;
      while true
        invariant start <= seen == total <= |listing| && !finished
        invariant queried <= queries && (seen == start ==> queries == queried)
        invariant start < seen && |listing| - start <= limit ==> seen == |listing| && queries == queried + 2 <= allowed
        invariant seen < |listing| ==> FullPages(seen - start, limit)
        invariant queries == queried + 2 * PageCount(seen - start, limit) && (start < seen ==> queries <= allowed)
        decreases |listing| - seen
      {
        var page := listing[seen..PageEnd(listing, seen, limit)];
        queries := queries + 1;
        if page == [] {
          finished := true;
          break;
        }
        queries := queries + 1;
        NextPage(seen - start, |page|, limit);
        PagesGrow(seen + |page| - start, |listing| - seen - |page|, limit);
        total, seen := total + |page|, PageEnd(listing, seen, limit);
        if queries > allowed {
          break;
        }
      }
    }

    method CountOrders(listing: seq<nat>, limit: nat, start: nat, queried: nat, allowed: nat)
      returns (seen: nat, total: nat, queries: nat, finished: bool)
      requires limit > 0 && start <= |listing|
      ensures start <= seen == total <= |listing| && queried < queries
      ensures finished ==> seen == |listing|
      ensures !finished ==> allowed < queries && start < seen < |listing|
      ensures |listing| - start <= limit ==> finished && queries == queried + 1
      // One query to the page, of which the last ends the count.
      ensures !finished ==>
        && queries == queried + PageCount(seen - start, limit)
        && (queries == queried + 1 || queries - 1 <= allowed)
      ensures finished ==> queries == queried + if start == |listing| then 1 else PageCount(|listing| - start, limit)
      ensures finished <==>
        || start == |listing|
        || queried + PageCount(|listing| - start, limit) <= (if queried < allowed then allowed else queried) + 1
    {
      seen, total, queries, finished := start, start, queried, false;
      while true
        invariant start <= seen == total <= |listing| && !finished
        invariant queried <= queries
        invariant start < seen ==> limit < |listing| - start
        invariant seen == start ==> queries == queried
        invariant start < seen ==> seen < |listing| && queries <= allowed
        invariant FullPages(seen - start, limit) && queries == queried + PageCount(seen - start, limit)
        decreases |listing| - seen
      {
        var page := listing[seen..PageEnd(listing, seen, limit)];
        queries := queries + 1;
        if page == [] {
          finished := true;
          break;
        }
        NextPage(seen - start, |page|, limit);
        PagesGrow(seen + |page| - start, |listing| - seen - |page|, limit);
        total, seen := total + |page|, PageEnd(listing, seen, limit);
        if seen == |listing| {
          finished := true;
          break;
        }
        if queries > allowed {
          break;
        }
      }
    }

    /** `validate_single_market`: the second pass, from wherever it was cut. Its verdict, once there is one, is
        that of one uncut pass. */
    method Validate(listing: Listing, limit: nat, queried: nat, allowed: nat)
      returns (verdict: Verdict, queries: nat)
      requires limit > 0 && status.IsValidate() && Counted(listing)
      modifies `status
      ensures Counted(listing)
      ensures match verdict
              case Success => status.Validated?
              case Failed => status.ResetRequired?
              case InProgress => status.IsValidate()
      ensures verdict.InProgress? ==> forall first :: Remaining(first, listing) <= old(Remaining(first, listing))
      ensures verdict.InProgress? && queried == 0 < allowed ==>
        forall first :: Remaining(first, listing) < old(Remaining(first, listing))
      ensures old(status).ValidateOpenPositions? && Short(listing, limit) && positions == |listing.positions| ==>
        var entries := |listing.positions| - old(status).seen;
        var cost := PageCost(entries, queried, allowed);
        if queried + cost > allowed then
          verdict.InProgress? && status == ValidateOpenPositions(|listing.positions|, |listing.positions|)
        else !verdict.InProgress? && queries == queried + cost + 1
    {
      assert status.IsValidate();
      var before := status;
      queries := queried;
      var start, already := 0, 0;
      if before.ValidateOpenPositions? {
        var seen, total, now, finished := CountPositions(listing.positions, limit, before.seen, queries, allowed);
        queries := now;
        if finished && total != positions {
          status := ResetRequired;
          return Failed, queries;
        }
        if queries > allowed {
          status := ValidateOpenPositions(seen, total);
          return InProgress, queries;
        }
      } else {
        start := before.seen;
      }
      var seen, total, now, finished := CountOrders(listing.orders, limit, start, queries, allowed);
      queries := now;
      if finished {
        if total != orders {
          status := ResetRequired;
          return Failed, queries;
        }
        status := Validated;
        return Success, queries;
      }
      status := ValidateLimitOrder(seen, total);
      verdict := InProgress;
    }

    /** One call of `compute_lp_token_value` for a token with this one market: the rest of the first pass on
        the listing as it was, then the rest of the second on the listing as it is. */
    method Compute(first: Listing, second: Listing, limit: nat, allowed: nat) returns (verdict: Verdict)
      requires limit > 0
      requires Processed(first) && Counted(second)
      requires status.NotStarted? || status.ProcessOpenPositions? || status.IsValidate()
      modifies this
      ensures Processed(first) && Counted(second)
      ensures match verdict
              case Success => status.Validated?
              case Failed => status.ResetRequired?
              case InProgress => status.ProcessOpenPositions? || status.IsValidate()
      ensures verdict.InProgress? && allowed > 0 ==> Remaining(first, second) < old(Remaining(first, second))
    {
      var queries, early := Process(first, limit, 0, allowed);
      if early {
        return InProgress;
      }
      verdict, queries := Validate(second, limit, queries, allowed);
    }

    /** However the budgets cut it, the scan ends, with the full sums of the first listing and the verdict of
        comparing the two listings once. */
    method ComputeToEnd(first: Listing, second: Listing, limit: nat, budgets: nat -> nat)
      returns (valid: bool, calls: nat)
      requires limit > 0 && forall i: nat :: budgets(i) > 0
      requires status.NotStarted? && Processed(first)
      modifies this
      ensures valid <==> |first.positions| == |second.positions| && |first.orders| == |second.orders|
      ensures active == Total(first.positions) + Total(first.orders)
      ensures calls <= old(Remaining(first, second))
    {
      calls := 0;
      var verdict := InProgress;
      while verdict.InProgress?
        invariant Processed(first) && Counted(second)
        invariant verdict.InProgress? ==>
          status.NotStarted? || status.ProcessOpenPositions? || status.IsValidate()
        invariant verdict.Success? ==> status.Validated?
        invariant verdict.Failed? ==> status.ResetRequired?
        invariant verdict.InProgress? ==> calls + Remaining(first, second) <= old(Remaining(first, second))
        invariant calls <= old(Remaining(first, second))
        decreases verdict.InProgress?, Remaining(first, second)
      {
        verdict := Compute(first, second, limit, budgets(calls));
        calls := calls + 1;
      }
      valid := verdict.Success?;
    }
  }
}
