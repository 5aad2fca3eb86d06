/**
 * The sync worker's own logic: collecting a batch from the event queue,
 * the bounded retry around batch processing, and the `running` flag that
 * start, shutdown and the signal handler set.
 *
 * Time is counted in polls: `budget` is how many times the one-second
 * window test passes, which, as the clock only moves forward, is a prefix
 * of the polls. Events the watcher puts on the queue while a batch is being
 * collected are `arrivals[t]`, put before poll `t`.
 */
module Worker {
  import opened Wrappers
  import opened SyncTypes
  import opened SyncUtils
  import Reconcile
  import SyncEngine
  import Watcher

  /** The batch collected, what is left on the queue, and how many polls were made. */
  datatype Collected = Collected(batch: seq<FileEvent>, queue: seq<FileEvent>, polls: nat)

  /** The events put on the queue just before poll `t`. */
  function ArrivingAt(arrivals: seq<seq<FileEvent>>, t: nat): seq<FileEvent>
  {
    if t < |arrivals| then arrivals[t] else []
  }

  /** Everything put on the queue before polls `a` to `b - 1`, in order. */
  function Arrived(arrivals: seq<seq<FileEvent>>, a: nat, b: nat): seq<FileEvent>
    requires a <= b
    decreases b - a
  {
    if a == b then [] else Arrived(arrivals, a, b - 1) + ArrivingAt(arrivals, b - 1)
  }

  /**
   * `_collect_event_batch` from poll `t` on, with `batch` collected so far:
   * while the batch is below the limit, the window is open and the worker
   * runs, a poll takes the front event, and an empty poll ends collection
   * once the batch is non-empty.
   */
  function CollectFrom(queue: seq<FileEvent>, batch: seq<FileEvent>, t: nat, arrivals: seq<seq<FileEvent>>,
                       budget: nat, maxBatchSize: int, running: bool): (r: Collected)
    decreases budget - t
  {
    if |batch| < maxBatchSize && t < budget && running then
      var q := queue + ArrivingAt(arrivals, t);
      if q != [] then CollectFrom(q[1..], batch + [q[0]], t + 1, arrivals, budget, maxBatchSize, running)
      else if batch != [] then Collected(batch, q, t + 1)
      else CollectFrom(q, batch, t + 1, arrivals, budget, maxBatchSize, running)
    else Collected(batch, queue, t)
  }

  lemma ArrivedStep(arrivals: seq<seq<FileEvent>>, a: nat, b: nat)
    requires a < b
    ensures Arrived(arrivals, a, b) == ArrivingAt(arrivals, a) + Arrived(arrivals, a + 1, b)
    decreases b - a
  {
    if a + 1 < b {
      ArrivedStep(arrivals, a, b - 1);
    }
  }

  /**
   * Nothing is lost or reordered: the batch followed by what is left on the
   * queue is what was collected and queued before, followed by what arrived
   * during the polls made; the batch only grows, and no more polls are made
   * than the window allows.
   */
  predicate OrderKept(queue: seq<FileEvent>, batch: seq<FileEvent>, t: nat, arrivals: seq<seq<FileEvent>>,
                      budget: nat, r: Collected)
  {
    && t <= r.polls
    && (t <= budget ==> r.polls <= budget)
    && r.batch + r.queue == batch + queue + Arrived(arrivals, t, r.polls)
    && |batch| <= |r.batch| && r.batch[..|batch|] == batch
  }

  lemma {:induction false} CollectKeepsOrder(queue: seq<FileEvent>, batch: seq<FileEvent>, t: nat,
                                             arrivals: seq<seq<FileEvent>>, budget: nat, maxBatchSize: int, running: bool)
    ensures OrderKept(queue, batch, t, arrivals, budget, CollectFrom(queue, batch, t, arrivals, budget, maxBatchSize, running))
    decreases budget - t, 1
  {
    if |batch| < maxBatchSize && t < budget && running {
      var q := queue + ArrivingAt(arrivals, t);
      if q != [] {
        CollectTakesFront(queue, batch, t, arrivals, budget, maxBatchSize, running);
      } else if batch == [] {
        var r := CollectFrom(q, batch, t + 1, arrivals, budget, maxBatchSize, running);
        CollectKeepsOrder(q, batch, t + 1, arrivals, budget, maxBatchSize, running);
        ArrivedStep(arrivals, t, r.polls);
        assert queue == [] && ArrivingAt(arrivals, t) == [];
      } else {
        assert Arrived(arrivals, t, t + 1) == ArrivingAt(arrivals, t);
      }
    }
  }

  /** The poll that finds an event: it moves from the front of the queue to the back of the batch. */
  lemma {:induction false} CollectTakesFront(queue: seq<FileEvent>, batch: seq<FileEvent>, t: nat,
                                             arrivals: seq<seq<FileEvent>>, budget: nat, maxBatchSize: int, running: bool)
    requires |batch| < maxBatchSize && t < budget && running
    requires queue + ArrivingAt(arrivals, t) != []
    ensures OrderKept(queue, batch, t, arrivals, budget, CollectFrom(queue, batch, t, arrivals, budget, maxBatchSize, running))
    decreases budget - t, 0
  {
    var q := queue + ArrivingAt(arrivals, t);
    var b1 := batch + [q[0]];
    var r := CollectFrom(q[1..], b1, t + 1, arrivals, budget, maxBatchSize, running);
    assert r == CollectFrom(queue, batch, t, arrivals, budget, maxBatchSize, running);
    CollectKeepsOrder(q[1..], b1, t + 1, arrivals, budget, maxBatchSize, running);
    ArrivedStep(arrivals, t, r.polls);
    assert b1 + q[1..] == batch + q;
    calc {
      r.batch + r.queue;
      b1 + q[1..] + Arrived(arrivals, t + 1, r.polls);
      batch + q + Arrived(arrivals, t + 1, r.polls);
      batch + queue + (ArrivingAt(arrivals, t) + Arrived(arrivals, t + 1, r.polls));
    }
    assert r.batch[..|batch|] == r.batch[..|b1|][..|batch|];
  }

  /** A collected batch never holds more than `max_batch_size` events. */
  lemma {:induction false} CollectBounded(queue: seq<FileEvent>, batch: seq<FileEvent>, t: nat,
                                          arrivals: seq<seq<FileEvent>>, budget: nat, maxBatchSize: int, running: bool)
    requires |batch| <= maxBatchSize
    ensures |CollectFrom(queue, batch, t, arrivals, budget, maxBatchSize, running).batch| <= maxBatchSize
    decreases budget - t
  {
    if |batch| < maxBatchSize && t < budget && running {
      var q := queue + ArrivingAt(arrivals, t);
      if q != [] {
        CollectBounded(q[1..], batch + [q[0]], t + 1, arrivals, budget, maxBatchSize, running);
      } else if batch == [] {
        CollectBounded(q, batch, t + 1, arrivals, budget, maxBatchSize, running);
      }
    }
  }

  /**
   * Collection ends early only on an empty poll after the first event: if
   * the limit was not reached, the window not used up and the worker still
   * runs, the batch is non-empty and the queue is empty.
   */
  lemma {:induction false} CollectStopsOnEmptyPoll(queue: seq<FileEvent>, batch: seq<FileEvent>, t: nat,
                                                   arrivals: seq<seq<FileEvent>>, budget: nat, maxBatchSize: int, running: bool)
    requires t <= budget
    ensures var r := CollectFrom(queue, batch, t, arrivals, budget, maxBatchSize, running);
      |r.batch| < maxBatchSize && r.polls < budget && running ==> r.batch != [] && r.queue == []
    decreases budget - t
  {
    if |batch| < maxBatchSize && t < budget && running {
      var q := queue + ArrivingAt(arrivals, t);
      if q != [] {
        CollectStopsOnEmptyPoll(q[1..], batch + [q[0]], t + 1, arrivals, budget, maxBatchSize, running);
      } else if batch == [] {
        CollectStopsOnEmptyPoll(q, batch, t + 1, arrivals, budget, maxBatchSize, running);
      }
    }
  }

  /** With nothing queued and nothing arriving, the batch is empty and the whole window is spent waiting. */
  lemma {:induction false} CollectIdle(t: nat, arrivals: seq<seq<FileEvent>>, budget: nat, maxBatchSize: int, running: bool)
    requires t <= budget
    requires forall i :: t <= i < |arrivals| ==> arrivals[i] == []
    ensures var r := CollectFrom([], [], t, arrivals, budget, maxBatchSize, running);
      r.batch == [] && r.queue == [] && (0 < maxBatchSize && running ==> r.polls == budget)
    decreases budget - t
  {
    if 0 < maxBatchSize && t < budget && running {
      assert ArrivingAt(arrivals, t) == [];
      assert [] + ArrivingAt(arrivals, t) == [];
      CollectIdle(t + 1, arrivals, budget, maxBatchSize, running);
    }
  }

  /**
   * With enough events queued and enough time, the batch is the front of
   * the queue up to the limit.
   */
  lemma {:induction false} CollectFillsFromFront(queue: seq<FileEvent>, batch: seq<FileEvent>, t: nat,
                                                 arrivals: seq<seq<FileEvent>>, budget: nat, maxBatchSize: int)
    requires |batch| <= maxBatchSize
    requires |queue| >= maxBatchSize - |batch|
    requires t + (maxBatchSize - |batch|) <= budget
    ensures CollectFrom(queue, batch, t, arrivals, budget, maxBatchSize, true).batch
      == batch + queue[..maxBatchSize - |batch|]
    decreases budget - t
  {
    if |batch| < maxBatchSize {
      var q := queue + ArrivingAt(arrivals, t);
      assert q[0] == queue[0];
      assert q[1..] == queue[1..] + ArrivingAt(arrivals, t);
      CollectFillsFromFront(q[1..], batch + [q[0]], t + 1, arrivals, budget, maxBatchSize);
      assert (batch + [q[0]]) + q[1..][..maxBatchSize - |batch| - 1] == batch + queue[..maxBatchSize - |batch|];
    } else {
      assert queue[..0] == [];
    }
  }

  /** The index of the first attempt that succeeds among attempts `from` to `n - 1`. */
  function FirstSuccess(succeeds: nat -> bool, from: nat, n: int): (r: Option<nat>)
    ensures r.Some? ==> from <= r.value < n && succeeds(r.value)
    decreases n - from
  {
    if from >= n then None
    else if succeeds(from) then Some(from)
    else FirstSuccess(succeeds, from + 1, n)
  }

  /** How many times the batch was handed to the engine, and whether an exception escaped. */
  datatype Retry = Retry(calls: nat, raised: bool)

  /**
   * `_process_event_batch_with_retry`, with `succeeds(i)` telling whether
   * the `i`-th call returns: it stops at the first success; when every
   * attempt fails the last exception is re-raised.
   */
  function RetryOutcome(succeeds: nat -> bool, attempts: int): (r: Retry)
  {
    match FirstSuccess(succeeds, 0, attempts)
    case Some(i) => Retry(i + 1, false)
    case None => if attempts > 0 then Retry(attempts, true) else Retry(0, false)
  }

  lemma {:induction false} FirstSuccessIsFirst(succeeds: nat -> bool, from: nat, n: int, k: nat)
    requires from <= k < n && succeeds(k)
    requires forall i :: from <= i < k ==> !succeeds(i)
    ensures FirstSuccess(succeeds, from, n) == Some(k)
    decreases k - from
  {
    if from < k {
      FirstSuccessIsFirst(succeeds, from + 1, n, k);
    }
  }

  lemma {:induction false} NoSuccess(succeeds: nat -> bool, from: nat, n: int)
    requires forall i :: from <= i < n ==> !succeeds(i)
    ensures FirstSuccess(succeeds, from, n) == None
    decreases n - from
  {
    if from < n {
      NoSuccess(succeeds, from + 1, n);
    }
  }

  /** Success after `k` failures means exactly `k + 1` calls and nothing raised. */
  lemma RetrySucceedsAfterFailures(succeeds: nat -> bool, attempts: int, k: nat)
    requires k < attempts && succeeds(k)
    requires forall i :: 0 <= i < k ==> !succeeds(i)
    ensures RetryOutcome(succeeds, attempts) == Retry(k + 1, false)
  {
    FirstSuccessIsFirst(succeeds, 0, attempts, k);
  }

  /** When every attempt fails, all `retry_attempts` calls are made and the last exception escapes. */
  lemma RetryExhausted(succeeds: nat -> bool, attempts: int)
    requires attempts > 0
    requires forall i :: 0 <= i < attempts ==> !succeeds(i)
    ensures RetryOutcome(succeeds, attempts) == Retry(attempts, true)
  {
    NoSuccess(succeeds, 0, attempts);
  }

  /** Never more calls than attempts; no attempts means no call and no exception. */
  lemma RetryBounded(succeeds: nat -> bool, attempts: int)
    ensures RetryOutcome(succeeds, attempts).calls <= if attempts > 0 then attempts else 0
    ensures attempts <= 0 ==> RetryOutcome(succeeds, attempts) == Retry(0, false)
    ensures RetryOutcome(succeeds, attempts).raised ==> RetryOutcome(succeeds, attempts).calls == attempts
  {
  }

  /** `SyncWorker` */
  class SyncWorker {
    const engine: SyncEngine.SyncEngine
    const eventQueue: Watcher.FileEventQueue
    const maxBatchSize: int
    const retryAttempts: int
    const initialSyncOnStartup: bool
    var running: bool

    constructor (engine: SyncEngine.SyncEngine, eventQueue: Watcher.FileEventQueue,
                 maxBatchSize: int, retryAttempts: int, initialSyncOnStartup: bool)
      ensures this.engine == engine && this.eventQueue == eventQueue
      ensures this.maxBatchSize == maxBatchSize && this.retryAttempts == retryAttempts
      ensures this.initialSyncOnStartup == initialSyncOnStartup
      ensures !running
    {
      this.engine := engine;
      this.eventQueue := eventQueue;
      this.maxBatchSize := maxBatchSize;
      this.retryAttempts := retryAttempts;
      this.initialSyncOnStartup := initialSyncOnStartup;
      running := false;
    }

    /** The SIGTERM and SIGINT handler. */
    method SignalHandler()
      modifies this
      ensures !running
    {
      running := false;
    }

    /** `shutdown`; stopping the observer is not part of this model. */
    method Shutdown()
      modifies this
      ensures !running
    {
      running := false;
    }

    /**
     * `start`: the initial full sync when configured, then the long-running
     * tasks, which are not part of this model; an exception is logged, and
     * `shutdown` always runs at the end.
     */
    method Start(storage: Reconcile.Storage) returns (initialSync: Option<Result<SyncStats, SyncError>>)
      modifies this, engine.db
      ensures !running
      ensures initialSync.Some? <==> initialSyncOnStartup
      ensures initialSync.None? ==> engine.db.photos == old(engine.db.photos)
      ensures initialSync.Some? ==>
        var spec := Reconcile.FullSyncSpec(old(engine.db.photos), engine.photosBasePath, storage,
                                           SyncEngine.SupportedBy(engine.supportedExtensions), GenerateTitle);
        && (initialSync.value.Ok? <==> spec.Ok?)
        && (spec.Ok? ==> initialSync.value.value == spec.value.stats && engine.db.photos == spec.value.photos)
        && (spec.Err? ==> initialSync.value.error == spec.error && engine.db.photos == old(engine.db.photos))
    {
      running := true;
      initialSync := None;
      if initialSyncOnStartup {
        var r := engine.PerformInitialSync(storage);
        initialSync := Some(r);
      }
      Shutdown();
    }

    /** `_collect_event_batch` */
    method CollectEventBatch(arrivals: seq<seq<FileEvent>>, budget: nat) returns (batch: seq<FileEvent>)
      modifies eventQueue
      ensures var c := CollectFrom(old(eventQueue.items), [], 0, arrivals, budget, maxBatchSize, running);
        batch == c.batch && eventQueue.items == c.queue
    {
      batch := [];
      var t: nat := 0;
      while |batch| < maxBatchSize && t < budget && running
        invariant t <= budget
        invariant CollectFrom(eventQueue.items, batch, t, arrivals, budget, maxBatchSize, running)
          == CollectFrom(old(eventQueue.items), [], 0, arrivals, budget, maxBatchSize, running)
        decreases budget - t
      {
        ghost var before := eventQueue.items;
        eventQueue.items := eventQueue.items + ArrivingAt(arrivals, t);
        var event := eventQueue.Get();
        t := t + 1;
        if event.Some? {
          batch := batch + [event.value];
        } else if batch != [] {
          assert CollectFrom(before, batch, t - 1, arrivals, budget, maxBatchSize, running)
            == Collected(batch, eventQueue.items, t);
          return;
        }
      }
    }

    /** `_process_event_batch_with_retry`; `succeeds(i)` tells whether the `i`-th call of `process_event_batch` returns. */
    method ProcessEventBatchWithRetry(events: seq<FileEvent>, succeeds: nat -> bool) returns (calls: nat, raised: bool)
      ensures Retry(calls, raised) == RetryOutcome(succeeds, retryAttempts)
    {
      calls := 0;
      var failed := false;
      var attempt: nat := 0;
      while attempt < retryAttempts
        invariant retryAttempts > 0 ==> attempt <= retryAttempts
        invariant retryAttempts <= 0 ==> attempt == 0
        invariant calls == attempt && failed == (attempt > 0)
        invariant FirstSuccess(succeeds, 0, retryAttempts) == FirstSuccess(succeeds, attempt, retryAttempts)
        decreases retryAttempts - attempt
      {
        calls := calls + 1;
        if succeeds(attempt) {
          return calls, false;
        }
        failed := true;
        attempt := attempt + 1;
      }
      raised := failed;
    }
  }
}
