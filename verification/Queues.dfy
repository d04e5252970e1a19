/** A copy-trading queue: items by consecutive id, processed strictly in order. */
module Queues {
  import opened Wrappers

  datatype FailedReason =
    | NotEnoughShares
    | NotEnoughCollateral
    | NotEnoughCrankFee
    | FundLessThanMinChain
    | MarketError
    | DeferredExecFailure

  datatype ProcessingStatus = NotProcessed | InProgress | Finished | Failed(reason: FailedReason) {
    predicate Pending() {
      NotProcessed? || InProgress?
    }

    /** Of a market item: the market has accepted its message, now or earlier. */
    predicate HandedOver() {
      InProgress? || Finished? || this == Failed(DeferredExecFailure)
    }
  }

  datatype Entry<T> = Entry(item: T, wallet: string, status: ProcessingStatus)

  /** The id after a stored last id: `next`, or zero when none is stored. */
  function Next(last: Option<nat>): nat {
    match last
    case None => 0
    case Some(id) => id + 1
  }

  datatype Queue<T> = Queue(items: map<nat, Entry<T>>, lastInserted: Option<nat>, lastProcessed: Option<nat>) {
    function HeadId(): nat {
      Next(lastProcessed)
    }

    /** `get_current_processed_*_queue_id` */
    function Head(): Option<Entry<T>> {
      if HeadId() in items then Some(items[HeadId()]) else None
    }

    /** `get_next_*_queue_id`, and the save of a new item under that id. */
    function Push(item: T, wallet: string): Queue<T> {
      var id := Next(lastInserted);
      Queue(items[id := Entry(item, wallet, NotProcessed)], Some(id), lastProcessed)
    }

    /** Marks the head as waiting for the market. */
    function Start(): Queue<T>
      requires Head().Some?
    {
      this.(items := items[HeadId() := items[HeadId()].(status := InProgress)])
    }

    /** Gives the head its final status and moves on to the next item. */
    function Settle(status: ProcessingStatus): Queue<T>
      requires Head().Some?
    {
      Queue(items[HeadId() := items[HeadId()].(status := status)], lastInserted, Some(HeadId()))
    }

    /** One past the last id that has been the head. */
    function Reached(): nat {
      if Head().Some? then HeadId() + 1 else HeadId()
    }

    predicate Busy() {
      Head().Some? && Head().value.status.InProgress?
    }

    /** Ids are handed out without gaps; everything before the head is settled, only the head can be in
        progress, and nothing after it has been touched. */
    ghost predicate SlotInOrder(id: nat) {
      && (id in items <==> id < Next(lastInserted))
      && (id in items ==>
            if id < HeadId() then !items[id].status.Pending()
            else if id == HeadId() then items[id].status.Pending()
            else items[id].status.NotProcessed?)
    }

    ghost predicate Frontier() {
      HeadId() <= Next(lastInserted) && forall id: nat :: SlotInOrder(id)
    }
  }

  function Empty<T>(): Queue<T> {
    Queue(map[], None, None)
  }

  lemma PushKeepsFrontier<T>(q: Queue<T>, item: T, wallet: string)
    requires q.Frontier()
    ensures q.Push(item, wallet).Frontier()
    ensures q.Push(item, wallet).HeadId() == q.HeadId()
    ensures q.Push(item, wallet).Busy() == q.Busy()
    ensures q.Head().Some? ==> q.Push(item, wallet).Head() == q.Head()
    ensures Next(q.lastInserted) !in q.items
  {
    assert q.SlotInOrder(Next(q.lastInserted)) && q.SlotInOrder(q.HeadId());
    forall id: nat
      ensures q.Push(item, wallet).SlotInOrder(id)
    {
      assert q.SlotInOrder(id);
    }
  }

  lemma StartKeepsFrontier<T>(q: Queue<T>)
    requires q.Frontier() && q.Head().Some?
    ensures q.Start().Frontier() && q.Start().Busy() && q.Start().HeadId() == q.HeadId()
  {
    forall id: nat
      ensures q.Start().SlotInOrder(id)
    {
      assert q.SlotInOrder(id);
    }
  }

  /** Settling the head frees the queue and advances it by exactly one. */
  lemma SettleKeepsFrontier<T>(q: Queue<T>, status: ProcessingStatus)
    requires q.Frontier() && q.Head().Some? && !status.Pending()
    ensures q.Settle(status).Frontier() && !q.Settle(status).Busy()
    ensures q.Settle(status).HeadId() == q.HeadId() + 1
  {
    assert q.SlotInOrder(q.HeadId()) && q.SlotInOrder(q.HeadId() + 1);
    forall id: nat
      ensures q.Settle(status).SlotInOrder(id)
    {
      assert q.SlotInOrder(id);
    }
  }

  lemma ReachedGrows<T>(q: Queue<T>, item: T, wallet: string, status: ProcessingStatus)
    ensures q.Reached() <= q.Push(item, wallet).Reached()
    ensures q.Head().Some? ==> q.Reached() == q.Start().Reached() <= q.Settle(status).Reached()
  {
  }

  /** What the contract's own sanity check asserts at the start and end of every call: its assertions never
      fail on a queue within its frontier. */
  method Sanity<T>(q: Queue<T>)
    requires q.Frontier()
  {
    if q.lastProcessed.Some? {
      for index := 0 to q.lastProcessed.value + 1 {
        assert q.SlotInOrder(index);
        assert index in q.items;
        assert !q.items[index].status.Pending();
      }
      assert q.lastInserted.Some?;
      assert q.lastInserted.value >= q.lastProcessed.value;
    }
  }

  // ----- The log of items handed to the market -----

  ghost predicate Ascending(log: seq<nat>) {
    forall i, j | 0 <= i < j < |log| :: log[i] < log[j]
  }

  ghost predicate LoggedAt<T>(q: Queue<T>, market: T -> bool, log: seq<nat>, id: nat) {
    id in log <==> id in q.items && market(q.items[id].item) && q.items[id].status.HandedOver()
  }

  /** The log names each market item accepted by the market exactly once, in queue order. */
  ghost predicate Logged<T>(q: Queue<T>, market: T -> bool, log: seq<nat>) {
    Ascending(log) && forall id: nat :: LoggedAt(q, market, log, id)
  }

  lemma {:induction false} CountInAscending(log: seq<nat>, id: nat)
    requires Ascending(log)
    ensures multiset(log)[id] == if id in log then 1 else 0
  {
    if log != [] {
      var rest := log[..|log| - 1];
      CountInAscending(rest, id);
      assert log == rest + [log[|log| - 1]];
    }
  }

  /** A market item is handed over exactly once if the market accepted it, and never otherwise. */
  lemma HandedOverOnce<T>(q: Queue<T>, market: T -> bool, log: seq<nat>, id: nat)
    requires Logged(q, market, log)
    requires id in q.items && market(q.items[id].item)
    ensures multiset(log)[id] == if q.items[id].status.HandedOver() then 1 else 0
  {
    assert LoggedAt(q, market, log, id);
    CountInAscending(log, id);
  }

  lemma PushKeepsLogged<T>(q: Queue<T>, market: T -> bool, log: seq<nat>, item: T, wallet: string)
    requires q.Frontier() && Logged(q, market, log)
    ensures Logged(q.Push(item, wallet), market, log)
  {
    assert q.SlotInOrder(Next(q.lastInserted));
    forall id: nat
      ensures LoggedAt(q.Push(item, wallet), market, log, id)
    {
      assert LoggedAt(q, market, log, id);
    }
  }

  lemma StartLogs<T>(q: Queue<T>, market: T -> bool, log: seq<nat>)
    requires q.Frontier() && q.Head().Some? && !q.Busy()
    requires market(q.Head().value.item)
    requires Logged(q, market, log)
    ensures Logged(q.Start(), market, log + [q.HeadId()])
  {
    var head, started, longer := q.HeadId(), q.Start(), log + [q.HeadId()];
    assert q.SlotInOrder(head);
    forall i | 0 <= i < |log|
      ensures log[i] < head
    {
      assert log[i] in log;
      assert LoggedAt(q, market, log, log[i]) && q.SlotInOrder(log[i]);
    }
    forall id: nat
      ensures LoggedAt(started, market, longer, id)
    {
      assert LoggedAt(q, market, log, id);
      assert id in longer <==> id in log || id == head;
    }
  }

  /** A head in progress settles as finished or failed in deferred execution; one that is not, in any way the
      market had no part in. */
  lemma SettleKeepsLogged<T>(q: Queue<T>, market: T -> bool, log: seq<nat>, status: ProcessingStatus)
    requires q.Frontier() && q.Head().Some?
    requires Logged(q, market, log)
    requires market(q.Head().value.item) ==> (status.HandedOver() <==> q.Busy())
    ensures Logged(q.Settle(status), market, log)
  {
    assert q.SlotInOrder(q.HeadId());
    forall id: nat
      ensures LoggedAt(q.Settle(status), market, log, id)
    {
      assert LoggedAt(q, market, log, id);
    }
  }
}
