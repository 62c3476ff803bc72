/**
 * processNextWorkItem: one turn of a worker. Take an item from the queue,
 * hand a usable key to the sync handler, and tell the queue how it went.
 */
module Worker {
  import opened Wrappers
  import opened Objects
  import opened Trace

  /** What workqueue.Get hands back. */
  datatype GetResult = Shutdown | Got(item: Item)

  /** A sync handler: a key in, its effects and its `error` (or panic) out. */
  type SyncFunc = string -> Run<Option<Error>>

  /** A sync handler that never calls the work queue itself, as syncHandler does not. */
  ghost predicate QueueFree(sync: SyncFunc)
  {
    forall key :: NoQueueOps(sync(key).trace)
  }

  /** The worker only syncs an item that is a non-empty string. */
  predicate Usable(item: Item)
  {
    item.Str? && item.s != ""
  }

  /**
   * One worker turn. `Done` is deferred in the source, so it comes last, after
   * the `Forget`/`AddRateLimited` of the branch taken, and also when the sync
   * handler panics. The result tells the worker loop whether to go on.
   */
  function ProcessNextWorkItem(get: GetResult, sync: SyncFunc): (r: Run<bool>)
    requires QueueFree(sync)
    // Only a shut-down queue stops the loop, and then the queue is not touched.
    ensures r.exit == Return(false) <==> get.Shutdown?
    ensures get.Shutdown? ==> r.trace == []
    // A dequeued item is always marked done, as the last thing that happens.
    ensures get.Got? ==> |r.trace| > 0 && r.trace[|r.trace| - 1] == QueueDone(get.item)
    ensures get.Got? ==> r.exit == Return(true) || r.exit == Panic
    ensures r.exit.Panic? <==> get.Got? && Usable(get.item) && sync(get.item.s).exit.Panic?
    // An unusable item is forgotten and reported, never synced nor requeued.
    ensures get.Got? && !Usable(get.item) ==>
      && QueueForget(get.item) in r.trace
      && ErrorReported(UnexpectedItem(get.item)) in r.trace
      && QueueAddRateLimited(get.item) !in r.trace
      && forall i :: 0 <= i < |r.trace| ==> !r.trace[i].SyncInvoked?
    // A usable key is synced first; an error requeues it, success forgets it.
    ensures get.Got? && Usable(get.item) ==> r.trace[0] == SyncInvoked(get.item.s)
    ensures get.Got? && Usable(get.item) && sync(get.item.s).exit.Return? ==>
      (QueueAddRateLimited(get.item) in r.trace <==> sync(get.item.s).exit.value.Some?)
      && (QueueForget(get.item) in r.trace <==> sync(get.item.s).exit.value.None?)
    ensures get.Got? && Usable(get.item) && sync(get.item.s).exit.Return? && sync(get.item.s).exit.value.Some? ==>
      ErrorReported(sync(get.item.s).exit.value.value) in r.trace
    ensures get.Got? && Usable(get.item) && sync(get.item.s).exit == Return(None) ==>
      forall i :: 0 <= i < |r.trace| ==> !r.trace[i].QueueAddRateLimited?
  {
    match get
    case Shutdown => Run([], Return(false))
    case Got(item) =>
      if !Usable(item) then
        Run([QueueForget(item), ErrorReported(UnexpectedItem(item)), QueueDone(item)], Return(true))
      else
        var inner := sync(item.s);
        assert NoQueueOps(inner.trace);
        Run([SyncInvoked(item.s)] + inner.trace + AfterSync(item, inner.exit),
            if inner.exit.Panic? then Panic else Return(true))
  }

  /**
   * The calls a turn makes once the sync handler has returned (or panicked)
   * for `item`, ending with the deferred Done. The source requeues `key`,
   * the string held in `item`, which is the same queue item.
   */
  function AfterSync(item: Item, exit: Exit<Option<Error>>): seq<Effect>
  {
    match exit
    case Panic => [QueueDone(item)]
    case Return(None) => [QueueForget(item), QueueDone(item)]
    case Return(Some(err)) => [QueueAddRateLimited(item), ErrorReported(err), QueueDone(item)]
  }

  /** How a worker turn ended, in the terms of the queue's bookkeeping. */
  datatype Outcome =
    | Stopped          // the queue is shutting down
    | Dropped          // unusable item: forget it, retrying cannot help
    | Synced           // the sync handler succeeded
    | Requeued         // the sync handler returned an error
    | Crashed          // the sync handler panicked

  function Classify(get: GetResult, sync: SyncFunc): Outcome
  {
    match get
    case Shutdown => Stopped
    case Got(item) =>
      if !Usable(item) then Dropped
      else match sync(item.s).exit
        case Panic => Crashed
        case Return(err) => if err.None? then Synced else Requeued
  }

  /** The queue calls each outcome demands for `item`, in order. */
  function Bookkeeping(item: Item, outcome: Outcome): seq<Effect>
  {
    match outcome
    case Stopped => []
    case Dropped => [QueueForget(item), QueueDone(item)]
    case Synced => [QueueForget(item), QueueDone(item)]
    case Requeued => [QueueAddRateLimited(item), QueueDone(item)]
    case Crashed => [QueueDone(item)]
  }

  /**
   * The queue calls of a worker turn are exactly those its outcome demands:
   * Done once per dequeued item, Forget on success or a dropped item,
   * AddRateLimited (and no Forget) on a sync error, nothing on shutdown.
   */
  lemma QueueCallsFollowOutcome(get: GetResult, sync: SyncFunc)
    requires QueueFree(sync)
    ensures get.Shutdown? ==> QueueOps(ProcessNextWorkItem(get, sync).trace) == []
    ensures get.Got? ==>
      QueueOps(ProcessNextWorkItem(get, sync).trace) == Bookkeeping(get.item, Classify(get, sync))
  {
    match get
    case Shutdown =>
    case Got(item) =>
      if !Usable(item) {
        QueueOpsCons(QueueForget(item), [ErrorReported(UnexpectedItem(item)), QueueDone(item)]);
        QueueOpsCons(ErrorReported(UnexpectedItem(item)), [QueueDone(item)]);
        QueueOpsCons(QueueDone(item), []);
      } else {
        SyncedTurn(item, sync);
      }
  }

  /** The queue calls of a turn that handed `item` to the sync handler. */
  lemma SyncedTurn(item: Item, sync: SyncFunc)
    requires QueueFree(sync) && Usable(item)
    ensures QueueOps(ProcessNextWorkItem(Got(item), sync).trace) == Bookkeeping(item, Classify(Got(item), sync))
  {
    var inner := sync(item.s);
    assert NoQueueOps(inner.trace);
    NoQueueOpsMeansNone(inner.trace);
    QueueOpsCons(SyncInvoked(item.s), inner.trace);
    QueueOpsConcat([SyncInvoked(item.s)] + inner.trace, AfterSync(item, inner.exit));
    AfterSyncQueueOps(item, inner.exit);
  }

  lemma AfterSyncQueueOps(item: Item, exit: Exit<Option<Error>>)
    ensures QueueOps(AfterSync(item, exit)) ==
      Bookkeeping(item, if exit.Panic? then Crashed else if exit.value.None? then Synced else Requeued)
  {
    QueueOpsCons(QueueDone(item), []);
    match exit
    case Panic =>
    case Return(err) =>
      if err.None? {
        QueueOpsCons(QueueForget(item), [QueueDone(item)]);
      } else {
        QueueOpsCons(QueueAddRateLimited(item), [ErrorReported(err.value), QueueDone(item)]);
        QueueOpsCons(ErrorReported(err.value), [QueueDone(item)]);
      }
  }

  /**
   * The API calls of a worker turn are exactly those of the sync handler it
   * ran, once and in order: a shutdown or a dropped item sends nothing.
   */
  lemma ApiCallsAreTheHandlers(get: GetResult, sync: SyncFunc)
    requires QueueFree(sync)
    ensures ApiCalls(ProcessNextWorkItem(get, sync).trace)
         == if get.Got? && Usable(get.item) then ApiCalls(sync(get.item.s).trace) else []
  {
    match get
    case Shutdown =>
    case Got(item) =>
      if !Usable(item) {
        NoApiCallsIn([QueueForget(item), ErrorReported(UnexpectedItem(item)), QueueDone(item)]);
      } else {
        var inner := sync(item.s);
        ApiCallsConcat([SyncInvoked(item.s)] + inner.trace, AfterSync(item, inner.exit));
        ApiCallsConcat([SyncInvoked(item.s)], inner.trace);
        NoApiCallsIn([SyncInvoked(item.s)]);
        NoApiCallsIn(AfterSync(item, inner.exit));
      }
  }

  /** Bookkeeping and the call of the handler itself are not API calls. */
  lemma {:induction false} NoApiCallsIn(t: seq<Effect>)
    requires forall i :: 0 <= i < |t| ==> !t[i].IsApiCall()
    ensures ApiCalls(t) == []
  {
    if |t| > 0 {
      NoApiCallsIn(t[1..]);
    }
  }

  /** Done is issued exactly once for every dequeued item, whatever the outcome. */
  lemma DoneExactlyOnce(get: GetResult, sync: SyncFunc)
    requires QueueFree(sync) && get.Got?
    ensures Count(ProcessNextWorkItem(get, sync).trace, QueueDone(get.item)) == 1
  {
    var r := ProcessNextWorkItem(get, sync);
    QueueCallsFollowOutcome(get, sync);
    CountQueueOps(r.trace, QueueDone(get.item));
  }

  /** A queue call occurs in a trace as often as in its queue calls. */
  lemma {:induction false} CountQueueOps(t: seq<Effect>, e: Effect)
    requires e.IsQueueOp()
    ensures Count(t, e) == Count(QueueOps(t), e)
  {
    if |t| > 0 {
      CountQueueOps(t[1..], e);
    }
  }
}
