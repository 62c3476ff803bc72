/**
 * What a handler or worker step does to the outside world, as a log.
 * The work queue, the error observer, the API client and the event recorder
 * are not modelled beyond the calls made to them, in order.
 */
module Trace {
  import opened Objects

  datatype Effect =
    | QueueAdd(item: Item)              // workqueue.Add
    | QueueDone(item: Item)             // workqueue.Done
    | QueueForget(item: Item)           // workqueue.Forget
    | QueueAddRateLimited(item: Item)   // workqueue.AddRateLimited
    | ErrorReported(err: Error)         // utilruntime.HandleError
    | SyncInvoked(key: string)          // the worker calls the sync handler
    | UpdateIssued(namespace: string, obj: Deployment)  // API Deployments(ns).Update
    | EventRecorded(obj: Deployment)    // recorder.Event(..., "Synced", ...)
  {
    predicate IsQueueOp()
    {
      QueueAdd? || QueueDone? || QueueForget? || QueueAddRateLimited?
    }

    /** A call to the API server or the event recorder. */
    predicate IsApiCall()
    {
      UpdateIssued? || EventRecorded?
    }
  }

  /** How a Go call ends: it returns a value, or it panics. */
  datatype Exit<+T> = Return(value: T) | Panic

  /** One call: the effects it had, in order, and how it ended. */
  datatype Run<+T> = Run(trace: seq<Effect>, exit: Exit<T>)

  /** Number of occurrences of `e` in `t`. */
  function Count(t: seq<Effect>, e: Effect): (n: nat)
    ensures n <= |t|
    ensures n == 0 <==> e !in t
  {
    if |t| == 0 then 0
    else (if t[0] == e then 1 else 0) + Count(t[1..], e)
  }

  /** The work-queue calls in `t`, in order; everything else dropped. */
  function QueueOps(t: seq<Effect>): (q: seq<Effect>)
    ensures |q| <= |t|
    ensures forall i :: 0 <= i < |q| ==> q[i].IsQueueOp()
  {
    if |t| == 0 then []
    else if t[0].IsQueueOp() then [t[0]] + QueueOps(t[1..])
    else QueueOps(t[1..])
  }

  lemma QueueOpsCons(e: Effect, t: seq<Effect>)
    ensures QueueOps([e] + t) == (if e.IsQueueOp() then [e] else []) + QueueOps(t)
  {
  }

  lemma {:induction false} QueueOpsConcat(a: seq<Effect>, b: seq<Effect>)
    ensures QueueOps(a + b) == QueueOps(a) + QueueOps(b)
  {
    if |a| == 0 {
      assert a + b == b;
    } else {
      assert (a + b)[1..] == a[1..] + b;
      QueueOpsConcat(a[1..], b);
    }
  }

  /** The API and event-recorder calls in `t`, in order; everything else dropped. */
  function ApiCalls(t: seq<Effect>): (a: seq<Effect>)
    ensures |a| <= |t|
    ensures forall i :: 0 <= i < |a| ==> a[i].IsApiCall()
  {
    if |t| == 0 then []
    else if t[0].IsApiCall() then [t[0]] + ApiCalls(t[1..])
    else ApiCalls(t[1..])
  }

  lemma {:induction false} ApiCallsConcat(a: seq<Effect>, b: seq<Effect>)
    ensures ApiCalls(a + b) == ApiCalls(a) + ApiCalls(b)
  {
    if |a| == 0 {
      assert a + b == b;
    } else {
      assert (a + b)[1..] == a[1..] + b;
      ApiCallsConcat(a[1..], b);
    }
  }

  /** The items handed to workqueue.Add in `t`, in order. */
  function Enqueued(t: seq<Effect>): (items: seq<Item>)
    ensures |items| <= |t|
    ensures forall i :: 0 <= i < |items| ==> QueueAdd(items[i]) in t
  {
    if |t| == 0 then []
    else if t[0].QueueAdd? then [t[0].item] + Enqueued(t[1..])
    else Enqueued(t[1..])
  }

  lemma {:induction false} EnqueuedConcat(a: seq<Effect>, b: seq<Effect>)
    ensures Enqueued(a + b) == Enqueued(a) + Enqueued(b)
  {
    if |a| == 0 {
      assert a + b == b;
    } else {
      assert (a + b)[1..] == a[1..] + b;
      EnqueuedConcat(a[1..], b);
    }
  }

  /** `t` never touches the work queue. */
  predicate NoQueueOps(t: seq<Effect>)
  {
    forall i :: 0 <= i < |t| ==> !t[i].IsQueueOp()
  }

  /** `t` never calls the API's Update. */
  predicate NoUpdates(t: seq<Effect>)
  {
    forall i :: 0 <= i < |t| ==> !t[i].UpdateIssued?
  }

  /** Every Update in `t` sends `obj` to namespace `ns`. */
  predicate OnlyUpdates(t: seq<Effect>, ns: string, obj: Deployment)
  {
    forall i :: 0 <= i < |t| && t[i].UpdateIssued? ==> t[i] == UpdateIssued(ns, obj)
  }

  lemma NoQueueOpsMeansNone(t: seq<Effect>)
    requires NoQueueOps(t)
    ensures QueueOps(t) == []
    ensures Enqueued(t) == []
  {
  }
}
