/** The scan of all markets of one token: the two passes of `MarketScan`, market by market, with one query budget
    to the call and a record of the market at which the next call resumes. A record that names no market resumes at
    the first. */
module TokenScan {
  import opened Wrappers
  import opened CopyModel
  import opened MarketScan

  /** What the markets from the k-th on list. */
  function SumFrom(listings: seq<Listing>, k: nat): nat
    decreases |listings| - k
  {
    if k >= |listings| then 0
    else Total(listings[k].positions) + Total(listings[k].orders) + SumFrom(listings, k + 1)
  }

  lemma SumStep(listings: seq<Listing>, k: nat)
    requires k < |listings|
    ensures SumFrom(listings, k)
            == Total(listings[k].positions) + Total(listings[k].orders) + SumFrom(listings, k + 1)
  {
  }

  lemma SumOfNone(listings: seq<Listing>)
    ensures SumFrom(listings, |listings|) == 0
  {
  }

  function SumTo(listings: seq<Listing>, k: nat): nat
    requires k <= |listings|
  {
    if k == 0 then 0
    else SumTo(listings, k - 1) + Total(listings[k - 1].positions) + Total(listings[k - 1].orders)
  }

  lemma {:induction false} SumSplits(listings: seq<Listing>, k: nat)
    requires k <= |listings|
    ensures SumTo(listings, k) + SumFrom(listings, k) == SumFrom(listings, 0)
  {
    if k > 0 {
      SumSplits(listings, k - 1);
    }
  }

  // ----- The market loop of `get_work` -----

  /** `is_batch_operation` */
  predicate MidScan(status: ScanStatus) {
    status.ProcessOpenPositions? || status.ProcessLimitOrder? || status.IsValidate()
  }

  /** Whether statistics are to be reset before a token is valued afresh; no market may be in the middle of a scan
      then. */
  function CheckStatuses(statuses: seq<ScanStatus>): Result<bool, CopyError> {
    if statuses == [] then Ok(false)
    else if MidScan(statuses[0]) then Err(AssertionFailed)
    else if statuses[0].ResetRequired? then Ok(true)
    else CheckStatuses(statuses[1..])
  }

  lemma {:induction false} FirstDecides(statuses: seq<ScanStatus>, k: nat)
    requires forall i | 0 <= i < k <= |statuses| :: statuses[i].Validated?
    requires k <= |statuses|
    ensures CheckStatuses(statuses) == CheckStatuses(statuses[k..])
    decreases k
  {
    if k == 0 {
      assert statuses[0..] == statuses;
    } else {
      FirstDecides(statuses[1..], k - 1);
      assert statuses[1..][k - 1..] == statuses[k..];
    }
  }

  class TokenScan {
    const works: seq<MarketWork>
    var processFrom: nat
    var validateFrom: nat

    constructor (works: seq<MarketWork>)
      ensures this.works == works && processFrom == validateFrom == 0
    {
      this.works := works;
      processFrom, validateFrom := 0, 0;
    }

    predicate Distinct() {
      forall i, j | 0 <= i < j < |works| :: works[i] != works[j]
    }

    ghost predicate Fits(first: seq<Listing>, second: seq<Listing>) {
      Distinct() && |first| == |second| == |works|
    }

    /** A market whose first pass is done, and whose second has not begun. */
    static ghost predicate Ready(work: MarketWork, first: Listing)
      reads work
    {
      work.status == ValidateOpenPositions(0, 0) && work.Complete(first)
    }

    static ghost predicate Untouched(work: MarketWork, first: Listing)
      reads work
    {
      work.status.NotStarted? && work.Processed(first)
    }

    /** A market behind the one at which the second pass resumes. */
    static ghost predicate Behind(work: MarketWork)
      reads work
    {
      work.status.Validated? || work.status == ValidateOpenPositions(0, 0)
    }

    /** The first pass has reached market p. */
    ghost predicate Processing(p: nat, first: seq<Listing>)
      requires |works| == |first|
      reads works
    {
      && p < |works|
      && (forall i | 0 <= i < p :: Ready(works[i], first[i]))
      && works[p].Reads() && works[p].Processed(first[p])
      && (forall i | p < i < |works| :: Untouched(works[i], first[i]))
    }

    /** The second pass has reached market k; those before it are behind. */
    ghost predicate Validating(k: nat, first: seq<Listing>, second: seq<Listing>)
      requires |works| == |first| == |second|
      reads works
    {
      && k < |works|
      && (forall i | 0 <= i < k :: Behind(works[i]))
      && works[k].status.IsValidate() && works[k].Complete(first[k]) && works[k].Counted(second[k])
      && (forall i | k < i < |works| :: Ready(works[i], first[i]))
    }

    /** What the first pass can meet. */
    static ghost predicate Open(work: MarketWork, first: Listing)
      reads work
    {
      work.status.IsValidate() || work.status.Validated? || (work.Reads() && work.Processed(first))
    }

    static twostate predicate Same(work: MarketWork)
      reads work
    {
      && work.status == old(work.status) && work.active == old(work.active)
      && work.positions == old(work.positions) && work.orders == old(work.orders)
    }

    /** What the first pass leaves of a market: one it had to read is ready, one in its second pass is as it was, and
        one already validated begins its second pass again, its orders added once more. */
    static twostate predicate Passed(work: MarketWork, first: Listing)
      reads work
    {
      && (old(work.Reads()) ==> Ready(work, first))
      && (old(work.status).IsValidate() ==> Same(work))
      && (old(work.status).Validated? ==> work.status == ValidateOpenPositions(0, 0))
    }

    /** The market loop of the first pass: it is cut at a market, or passes all of them. */
    method ProcessMarkets(listings: seq<Listing>, limit: nat, allowed: nat)
      returns (queries: nat, cut: bool, at: nat)
      requires Distinct() && |works| == |listings| && limit > 0 && processFrom <= |works|
      requires forall i | processFrom <= i < |works| :: Open(works[i], listings[i])
      modifies works
      ensures processFrom <= at <= |works| && (cut <==> at < |works|)
      ensures forall i | 0 <= i < processFrom || at < i < |works| :: unchanged(works[i])
      ensures forall i | processFrom <= i < at :: Passed(works[i], listings[i])
      ensures cut ==>
        && old(works[at].Reads()) && works[at].status.ProcessOpenPositions? && works[at].Processed(listings[at])
        && (at == processFrom && allowed > 0 ==>
              forall second ::
                works[at].Remaining(listings[at], second) < old(works[at].Remaining(listings[at], second)))
      ensures (forall i | processFrom <= i < |works| :: !old(works[i].Reads())) ==> !cut && queries == 0
    {
      queries, cut, at := 0, false, processFrom;
      while at < |works|
        invariant processFrom <= at <= |works| && queries <= allowed
        invariant at == processFrom ==> queries == 0
        invariant forall i | 0 <= i < processFrom || at <= i < |works| :: unchanged(works[i])
        invariant forall i | processFrom <= i < at :: Passed(works[i], listings[i])
        invariant (forall i | processFrom <= i < at :: !old(works[i].Reads())) ==> queries == 0
      {
        var early;
        assert Open(works[at], listings[at]);
        assert forall i | 0 <= i < |works| && i != at :: works[i] != works[at];
        queries, early := works[at].Process(listings[at], limit, queries, allowed);
        if early {
          cut := true;
          return;
        }
        at := at + 1;
      }
    }

    static ghost predicate Resumes(work: MarketWork, first: Listing, second: Listing)
      reads work
    {
      work.status.IsValidate() && work.Complete(first) && work.Counted(second)
    }

    /** A market with both passes done: the full sum of the first listing, and the counts of the second. */
    static ghost predicate Checked(work: MarketWork, first: Listing, second: Listing)
      reads work
    {
      && work.status.Validated? && work.active == Total(first.positions) + Total(first.orders)
      && work.Matches(second)
    }

    /** One market's part of the second pass. */
    static method ValidateOne(work: MarketWork, ghost first: Listing, second: Listing, limit: nat, queried: nat,
                              allowed: nat) returns (verdict: Verdict, queries: nat)
      requires limit > 0 && Resumes(work, first, second)
      modifies work
      ensures match verdict
              case Success =>
                Checked(work, first, second) && work.active == Total(first.positions) + Total(first.orders)
              case Failed => work.status.ResetRequired? && !work.Matches(second)
              case InProgress => Resumes(work, first, second)
      ensures verdict.InProgress? && queried == 0 < allowed ==>
        work.Remaining(first, second) < old(work.Remaining(first, second))
    {
      verdict, queries := work.Validate(second, limit, queried, allowed);
    }

    /** The market loop of the second pass: it ends with the sum over the markets it started at or later, or fails at
        a market whose listing has changed, or is cut at one. */
    method ValidateMarkets(ghost first: seq<Listing>, second: seq<Listing>, limit: nat, queried: nat, allowed: nat)
      returns (scan: Scan, at: nat)
      requires Fits(first, second) && limit > 0 && validateFrom <= |works|
      requires forall i | validateFrom <= i < |works| :: Resumes(works[i], first[i], second[i])
      modifies works
      ensures validateFrom <= at <= |works| && (scan.Done? <==> at == |works|)
      ensures forall i | 0 <= i < validateFrom || at < i < |works| :: unchanged(works[i])
      ensures forall i | validateFrom <= i < at :: Checked(works[i], first[i], second[i])
      ensures match scan
              case Done(found) => found == SumFrom(first, validateFrom)
              case Changed => works[at].status.ResetRequired? && !works[at].Matches(second[at])
              case Cut => Resumes(works[at], first[at], second[at])
      ensures scan.Cut? && at == validateFrom && queried == 0 < allowed ==>
        works[at].Remaining(first[at], second[at]) < old(works[validateFrom].Remaining(first[validateFrom],
                                                                                      second[validateFrom]))
    {
      hide Checked, SumFrom;
      var total: nat, queries := 0, queried;
      at := validateFrom;
      SumOfNone(first);
      while at < |works|
        invariant validateFrom <= at <= |works|
        invariant at == validateFrom ==> queries == queried
        invariant forall i | 0 <= i < validateFrom || at <= i < |works| :: unchanged(works[i])
        invariant forall i | validateFrom <= i < at :: Checked(works[i], first[i], second[i])
        invariant total + SumFrom(first, at) == SumFrom(first, validateFrom)
      {
        assert Resumes(works[at], first[at], second[at]);
        assert forall i | 0 <= i < |works| && i != at :: works[i] != works[at];
        var verdict;
        verdict, queries := ValidateOne(works[at], first[at], second[at], limit, queries, allowed);
        match verdict {
          case Failed =>
            scan := Changed;
            return;
          case InProgress =>
            scan := Cut;
            return;
          case Success =>
            SumStep(first, at);
            total := total + works[at].active;
        }
        at := at + 1;
      }
      scan := Done(total);
    }

    // ----- One call, and calls to the end -----

    /** Where record and markets stand between two calls of one scan: the given pass has reached market at. */
    ghost predicate Stands(pass: nat, at: nat, first: seq<Listing>, second: seq<Listing>)
      requires |works| == |first| == |second|
      reads this, works
    {
      if pass == 1 then processFrom == at && validateFrom == 0 && Processing(at, first)
      else pass == 2 && processFrom == 0 && validateFrom == at && Validating(at, first, second)
    }

    /** The second pass can resume at market k: those before it begin theirs again. */
    ghost predicate Checkable(k: nat, first: seq<Listing>, second: seq<Listing>)
      requires |works| == |first| == |second|
      reads works
    {
      && k < |works|
      && (forall i | 0 <= i < k :: works[i].status == ValidateOpenPositions(0, 0))
      && Resumes(works[k], first[k], second[k])
      && (forall i | k < i < |works| :: Ready(works[i], first[i]))
    }

    /** How a scan ends whose last call resumed the second pass at market k: the sum misses the markets before it,
        and those are left as if in the middle of a scan. */
    ghost predicate Ended(scan: Scan, k: nat, first: seq<Listing>, second: seq<Listing>)
      requires |works| == |first| == |second|
      reads works
    {
      && k < |works| && (forall i | 0 <= i < k :: works[i].status == ValidateOpenPositions(0, 0))
      && match scan
         case Done(found) =>
           found == SumFrom(first, k) && forall i | k <= i < |works| :: Checked(works[i], first[i], second[i])
         case Changed =>
           exists j | k <= j < |works| ::
             && works[j].status.ResetRequired? && !works[j].Matches(second[j])
             && forall i | k <= i < j :: Checked(works[i], first[i], second[i])
         case Cut => false
    }

    /** The first pass goes on, or passes over markets that are done with it. */
    method ReadMarkets(first: seq<Listing>, ghost second: seq<Listing>, limit: nat, allowed: nat, ghost pass: nat,
                       ghost at: nat) returns (queries: nat, cut: bool, now: nat)
      requires Fits(first, second) && limit > 0 && Stands(pass, at, first, second)
      modifies works
      ensures cut ==>
        && pass == 1 && at <= now && Processing(now, first)
        && (at == now && allowed > 0 ==>
              works[at].Remaining(first[at], second[at]) < old(works[at].Remaining(first[at], second[at])))
      ensures !cut ==> Checkable(validateFrom, first, second)
      ensures pass == 2 ==> !cut && queries == 0 && Same(works[at])
    {
      hide SumFrom, Checked;
      queries, cut, now := ProcessMarkets(first, limit, allowed);
      if cut {
        forall i | 0 <= i < now
          ensures Ready(works[i], first[i])
        {
          assert if i < processFrom then unchanged(works[i]) else Passed(works[i], first[i]);
        }
        forall i | now < i < |works|
          ensures Untouched(works[i], first[i])
        {
          assert unchanged(works[i]);
        }
      } else if pass == 1 {
        forall i | 0 <= i < |works|
          ensures Ready(works[i], first[i])
        {
          assert if i < processFrom then unchanged(works[i]) else Passed(works[i], first[i]);
        }
      } else {
        forall i | 0 <= i < |works|
          ensures Passed(works[i], first[i])
        {
        }
      }
    }

    /** The second pass goes on. */
    method CheckMarkets(ghost first: seq<Listing>, second: seq<Listing>, limit: nat, queried: nat, allowed: nat)
      returns (scan: Scan, now: nat)
      requires Fits(first, second) && limit > 0 && Checkable(validateFrom, first, second)
      modifies works
      ensures scan.Cut? ==>
        && validateFrom <= now && Validating(now, first, second)
        && (now == validateFrom && queried == 0 < allowed ==>
              works[now].Remaining(first[now], second[now])
              < old(works[validateFrom].Remaining(first[validateFrom], second[validateFrom])))
      ensures !scan.Cut? ==> Ended(scan, validateFrom, first, second)
    {
      hide SumFrom;
      scan, now := ValidateMarkets(first, second, limit, queried, allowed);
    }

    /** `compute_lp_token_value`, as far as it reads the markets. */
    method Call(first: seq<Listing>, second: seq<Listing>, limit: nat, allowed: nat, ghost pass: nat, ghost at: nat)
      returns (scan: Scan, ghost nextPass: nat, ghost nextAt: nat)
      requires Fits(first, second) && limit > 0 && Stands(pass, at, first, second)
      modifies `processFrom, `validateFrom, works
      ensures scan.Cut? ==>
        && Stands(nextPass, nextAt, first, second) && pass <= nextPass
        && (allowed > 0 && pass == nextPass ==>
              at < nextAt || (at == nextAt && works[at].Remaining(first[at], second[at])
                                              < old(works[at].Remaining(first[at], second[at]))))
      ensures !scan.Cut? ==> Ended(scan, old(validateFrom), first, second) && processFrom == validateFrom == 0
    {
      hide SumFrom, Checked, Processing, Validating, Checkable, Ended;
      var queries, cut, now := ReadMarkets(first, second, limit, allowed, pass, at);
      if cut {
        processFrom, validateFrom := now, 0;
        return Cut, 1, now;
      }
      scan, now := CheckMarkets(first, second, limit, queries, allowed);
      processFrom, validateFrom := 0, if scan.Cut? then now else 0;
      nextPass, nextAt := 2, now;
    }

    /** Calls of one scan, each with its own query budget, until it ends, and the market at which the last of them
        resumed the second pass. */
    method RunToEnd(first: seq<Listing>, second: seq<Listing>, limit: nat, budgets: nat -> nat)
      returns (scan: Scan, last: nat)
      requires Fits(first, second) && |works| > 0 && limit > 0 && forall i: nat :: budgets(i) > 0
      requires processFrom == validateFrom == 0
      requires forall i | 0 <= i < |works| :: Untouched(works[i], first[i])
      modifies `processFrom, `validateFrom, works
      ensures Ended(scan, last, first, second) && processFrom == validateFrom == 0
    {
      ghost var pass: nat, at: nat := 1, 0;
      var calls := 0;
      scan, last := Cut, 0;
      assert Stands(pass, at, first, second);
      hide Stands, Ended, SumFrom, Checked;
      while scan.Cut?
        invariant if scan.Cut? then Stands(pass, at, first, second) && pass <= 2 && at <= |works|
                  else Ended(scan, last, first, second) && processFrom == validateFrom == 0
        decreases scan.Cut?, 2 - pass, |works| - at,
                  if at < |works| then works[at].Remaining(first[at], second[at]) else 0
      {
        last := validateFrom;
        scan, pass, at := Call(first, second, limit, budgets(calls), pass, at);
        calls := calls + 1;
      }
    }

    function Statuses(): seq<ScanStatus>
      reads works
    {
      seq(|works|, i requires 0 <= i < |works| reads works => works[i].status)
    }

    /** A scan whose last call resumed behind the first market misses what lies before, and fails the next check of
        the markets; any other adds up everything, and the check tells whether statistics must be reset. */
    lemma Endings(scan: Scan, k: nat, first: seq<Listing>, second: seq<Listing>)
      requires |works| == |first| == |second| && Ended(scan, k, first, second)
      ensures k < |first|
      ensures scan.Done? ==> scan.active + SumTo(first, k) == SumFrom(first, 0)
      ensures CheckStatuses(Statuses()).Err? <==> k > 0
      ensures k == 0 ==> CheckStatuses(Statuses()) == Ok(scan.Changed?)
    {
      var statuses := Statuses();
      SumSplits(first, k);
      if k > 0 {
        assert MidScan(statuses[0]);
      } else if scan.Done? {
        FirstDecides(statuses, |works|);
      } else {
        var j :| k <= j < |works| && works[j].status.ResetRequired?
          && forall i | k <= i < j :: Checked(works[i], first[i], second[i]);
        assert forall i | k <= i < j :: statuses[i].Validated? by {
          forall i | k <= i < j
            ensures statuses[i].Validated?
          {
            assert Checked(works[i], first[i], second[i]);
          }
        }
        FirstDecides(statuses, j);
        assert statuses[j..][0] == statuses[j];
      }
    }
  }

  // ----- Two markets -----

  const ORDER := Listing([], [5])
  const POSITION := Listing([7], [])
  const PAGE: nat := 10
  const BUDGET: nat := 6

  /** The two calls of a scan over a market with one order and one with one position, six queries to the call: the
      first is cut at the second market, after it has validated the first, so the sum of the second call counts 7 of
      12, and the next check of the markets fails. */
  method CutAtSecondMarket() returns (sum: nat, statuses: seq<ScanStatus>)
    ensures sum == 7 && SumFrom([ORDER, POSITION], 0) == 12
    ensures |statuses| == 2 && CheckStatuses(statuses) == Err(AssertionFailed)
  {
    var a := new MarketWork();
    var b := new MarketWork();
    var queries, early := a.Process(ORDER, PAGE, 0, BUDGET);
    queries, early := b.Process(POSITION, PAGE, queries, BUDGET);
    var verdict;
    verdict, queries := a.Validate(ORDER, PAGE, queries, BUDGET);
    assert verdict.Success?;
    verdict, queries := b.Validate(POSITION, PAGE, queries, BUDGET);
    assert verdict.InProgress?;

    queries, early := a.Process(ORDER, PAGE, 0, BUDGET);
    queries, early := b.Process(POSITION, PAGE, queries, BUDGET);
    verdict, queries := b.Validate(POSITION, PAGE, queries, BUDGET);
    assert verdict.Success?;
    sum, statuses := b.active, [a.status, b.status];
    assert Total([5]) == 5 && Total([7]) == 7 by {
      assert [5][..0] == [] && [7][..0] == [];
    }
    SumStep([ORDER, POSITION], 0);
    SumStep([ORDER, POSITION], 1);
  }
}
