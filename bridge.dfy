/**
 * The main-thread work queue of the add-on (`_process_blender_api_work_queue`
 * and the `tool_handler` proxy that feeds it). Tool calls arrive on the
 * listener's thread, are queued with a private result queue each, and are
 * executed on Blender's main thread by a timer tick that runs every 0.1
 * seconds: a tick that finds the processing lock taken does nothing; otherwise
 * it takes at most five items, in order, and puts exactly one result on each
 * item's result queue. The handler's outcome is a value or an `Exception`;
 * a `BaseException` that escapes the tick is not modelled.
 */
module Bridge {
  import opened Wrappers
  import opened Json

  const MaxPerBatch: nat := 5
  const TickInterval: real := 0.1
  const FatalPrefix: string := "FATAL ERROR in work queue processor:\n"

  /** A queued call: its call data and the identity of its private result queue. */
  datatype WorkItem = WorkItem(slot: nat, callData: Json)

  /** The result put on a result queue: the handler's value, or an error tool result with the traceback. */
  function TickResult(outcome: Outcome): (r: Json)
    ensures outcome.Returned? ==> r == outcome.value
    ensures outcome.Raised? ==> IsError(r) && ResultText(r) == Some(FatalPrefix + outcome.trace)
  {
    match outcome
    case Returned(value) => value
    case Raised(_, trace) => ToolResult(FatalPrefix + trace, true)
  }

  /** The `result_queue.put(result)` calls made for `items`, in order, as (result queue, result) pairs. */
  function Deliveries(items: seq<WorkItem>, handle: Json -> Outcome): (d: seq<(nat, Json)>)
    ensures |d| == |items|
    decreases |items|
  {
    if items == [] then []
    else [(items[0].slot, TickResult(handle(items[0].callData)))] + Deliveries(items[1..], handle)
  }

  /** The `i`-th delivery goes to the `i`-th item's result queue and carries that item's result. */
  lemma {:induction false} DeliveriesAt(items: seq<WorkItem>, handle: Json -> Outcome, i: nat)
    requires i < |items|
    ensures Deliveries(items, handle)[i] == (items[i].slot, TickResult(handle(items[i].callData)))
    decreases i
  {
    if i > 0 {
      DeliveriesAt(items[1..], handle, i - 1);
    }
  }

  /** Delivering two runs of items one after the other is delivering them together. */
  lemma {:induction false} DeliveriesAppend(a: seq<WorkItem>, b: seq<WorkItem>, handle: Json -> Outcome)
    ensures Deliveries(a + b, handle) == Deliveries(a, handle) + Deliveries(b, handle)
    decreases |a|
  {
    if a == [] {
      assert a + b == b;
    } else {
      assert (a + b)[1..] == a[1..] + b;
      DeliveriesAppend(a[1..], b, handle);
    }
  }

  /** How many items one tick takes from a queue of `n`. */
  function BatchSize(n: nat): (k: nat)
    ensures k <= MaxPerBatch && k <= n
    ensures k == n || k == MaxPerBatch
  {
    if n < MaxPerBatch then n else MaxPerBatch
  }

  /** The state the ticks work on: the queue, the processing lock, and every result delivered so far. */
  datatype Bench = Bench(queue: seq<WorkItem>, locked: bool, delivered: seq<(nat, Json)>)

  /** The first `k` items taken off the queue, each answered, with the lock free. */
  function Drained(b: Bench, handle: Json -> Outcome, k: nat): Bench
    requires k <= |b.queue|
  {
    Bench(b.queue[k..], false, b.delivered + Deliveries(b.queue[..k], handle))
  }

  /** The effect of one tick. */
  function Tick(b: Bench, handle: Json -> Outcome): Bench {
    if b.locked then b else Drained(b, handle, BatchSize(|b.queue|))
  }

  /** `n` ticks in a row. */
  function Ticks(b: Bench, handle: Json -> Outcome, n: nat): Bench
    decreases n
  {
    if n == 0 then b else Ticks(Tick(b, handle), handle, n - 1)
  }

  /** How many items `n` ticks take from a queue of `len`: `min(5 * n, len)`. */
  function Taken(n: nat, len: nat): (k: nat)
    ensures k <= len
  {
    if MaxPerBatch * n < len then MaxPerBatch * n else len
  }

  /**
   * With the lock free, `n` ticks take the first `5 * n` items (or all of
   * them), deliver one result for each in queue order, and leave the rest
   * queued in order.
   */
  lemma {:induction false} TicksDrain(b: Bench, handle: Json -> Outcome, n: nat)
    requires !b.locked
    ensures Ticks(b, handle, n) == Drained(b, handle, Taken(n, |b.queue|))
    decreases n
  {
    if n == 0 {
      assert b.queue[..0] == [] && b.queue[0..] == b.queue;
    } else {
      var k1 := BatchSize(|b.queue|);
      var b1 := Drained(b, handle, k1);
      assert Ticks(b, handle, n) == Ticks(b1, handle, n - 1);
      TicksDrain(b1, handle, n - 1);
      TakenStep(n, |b.queue|);
      DrainCompose(b, handle, k1, Taken(n - 1, |b.queue| - k1));
    }
  }

  /** `n` ticks take one batch and then what `n - 1` ticks take from the rest. */
  lemma TakenStep(n: nat, len: nat)
    requires n > 0
    ensures Taken(n, len) == BatchSize(len) + Taken(n - 1, len - BatchSize(len))
  {
  }

  /** Draining `k1` items and then `k2` more is draining `k1 + k2` items. */
  lemma DrainCompose(b: Bench, handle: Json -> Outcome, k1: nat, k2: nat)
    requires k1 + k2 <= |b.queue|
    ensures Drained(Drained(b, handle, k1), handle, k2) == Drained(b, handle, k1 + k2)
  {
    var q, d := b.queue, b.delivered;
    SliceSplit(q, k1, k2);
    DeliveriesAppend(q[..k1], q[k1..][..k2], handle);
    var d1 := Deliveries(q[..k1], handle);
    var d2 := Deliveries(q[k1..][..k2], handle);
    assert d + d1 + d2 == d + (d1 + d2);
  }

  /** Cutting a prefix of `k1 + k2` elements in two steps. */
  lemma SliceSplit<T>(q: seq<T>, k1: nat, k2: nat)
    requires k1 + k2 <= |q|
    ensures q[..k1 + k2] == q[..k1] + q[k1..][..k2]
    ensures q[k1..][k2..] == q[k1 + k2..]
  {
  }

  /** A queue of `n` items is empty after `ceil(n / 5)` ticks, with every item answered once. */
  lemma QueueEmptiesIn(b: Bench, handle: Json -> Outcome)
    requires !b.locked
    ensures var n := (|b.queue| + MaxPerBatch - 1) / MaxPerBatch;
            Ticks(b, handle, n) == Bench([], false, b.delivered + Deliveries(b.queue, handle))
  {
    var n := (|b.queue| + MaxPerBatch - 1) / MaxPerBatch;
    TicksDrain(b, handle, n);
    assert b.queue[..|b.queue|] == b.queue;
  }

  /** The work queue shared by the listener thread and Blender's main thread. */
  class WorkQueue {
    var queue: seq<WorkItem>
    var locked: bool
    var delivered: seq<(nat, Json)>

    function State(): Bench
      reads this
    {
      Bench(queue, locked, delivered)
    }

    constructor ()
      ensures State() == Bench([], false, [])
    {
      queue := [];
      locked := false;
      delivered := [];
    }

    /** `blender_api_work_queue.put(work_item)` in `tool_handler`. */
    method Submit(item: WorkItem)
      modifies this
      ensures State() == old(State()).(queue := old(queue) + [item])
    {
      queue := queue + [item];
    }

    /**
     * One timer tick: returns 0.1; does nothing when the lock is taken;
     * otherwise takes the lock, takes up to five items in order, puts exactly
     * one result on each item's result queue, and releases the lock.
     */
    method ProcessTick(handle: Json -> Outcome) returns (interval: real)
      modifies this
      ensures interval == TickInterval
      ensures State() == Tick(old(State()), handle)
    {
      if locked {
        return TickInterval;
      }
      locked := true;
      var processed := 0;
      while processed < MaxPerBatch && queue != []
        invariant processed <= MaxPerBatch && processed <= |old(queue)|
        invariant queue == old(queue)[processed..]
        invariant delivered == old(delivered) + Deliveries(old(queue)[..processed], handle)
        invariant locked
        invariant processed < MaxPerBatch ==> processed <= |old(queue)|
        decreases MaxPerBatch - processed
      {
        var item := queue[0];
        queue := queue[1..];
        var result := TickResult(handle(item.callData));
        DeliveriesAppend(old(queue)[..processed], [item], handle);
        assert old(queue)[..processed + 1] == old(queue)[..processed] + [item];
        assert Deliveries([item], handle) == [(item.slot, result)];
        delivered := delivered + [(item.slot, result)];
        processed := processed + 1;
      }
      locked := false;
      return TickInterval;
    }
  }
}
