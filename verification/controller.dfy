/**
 * The three pieces put together: a notification enqueues a key, a worker
 * dequeues it and runs the sync handler against the cache and the API.
 */
module Controller {
  import opened Wrappers
  import opened Objects
  import opened Trace
  import opened EventBridge
  import opened Reconcile
  import opened Worker

  /** The controller's sync handler, bound to its collaborators. */
  function Bound(split: SplitKey, lister: Lister, update: Updater): (sync: SyncFunc)
    ensures QueueFree(sync)
    ensures forall key :: sync(key) == SyncHandler(key, split, lister, update)
  {
    (key: string) => SyncHandler(key, split, lister, update)
  }

  /** The corrected sync handler, bound to the same collaborators. */
  function BoundFixed(split: SplitKey, lister: Lister, update: Updater): (sync: SyncFunc)
    ensures QueueFree(sync)
    ensures forall key :: sync(key).exit.Return?
  {
    (key: string) => SyncHandlerFixed(key, split, lister, update)
  }

  /**
   * An added Deployment without the marker: its key is enqueued, and the
   * worker turn for that key sends the marked copy, forgets the key and
   * marks it done, and goes on.
   */
  lemma AddedUnmarkedGetsMarked(d: Deployment, key: string, keyOf: KeyFunc,
                                split: SplitKey, lister: Lister, update: Updater)
    requires keyOf(DeploymentObj(d)) == Success(key) && key != ""
    requires Observes(key, split, lister, d) && d.annotations.Entries? && !Marked(d.annotations)
    requires update(MarkedCopy(d, false).value).None?
    ensures Enqueued(OnAdd(DeploymentObj(d), keyOf).trace) == [Str(key)]
    ensures var r := ProcessNextWorkItem(Got(Str(key)), Bound(split, lister, update));
      && r.exit == Return(true)
      && UpdateIssued(split(key).value.0, MarkedCopy(d, false).value) in r.trace
      && ApiCalls(r.trace) == [UpdateIssued(split(key).value.0, MarkedCopy(d, false).value),
                               EventRecorded(MarkedCopy(d, false).value)]
      && QueueOps(r.trace) == [QueueForget(Str(key)), QueueDone(Str(key))]
  {
    var sync := Bound(split, lister, update);
    QueueCallsFollowOutcome(Got(Str(key)), sync);
    ApiCallsAreTheHandlers(Got(Str(key)), sync);
    var r := ProcessNextWorkItem(Got(Str(key)), sync);
    var inner := sync(key);
    assert r.trace[1..1 + |inner.trace|] == inner.trace;
    assert Count(inner.trace, UpdateIssued(split(key).value.0, MarkedCopy(d, false).value)) == 1;
  }

  /**
   * A Deployment deleted before its key is dequeued: the turn succeeds
   * without any Update, and the key is forgotten.
   */
  lemma DeletedBeforeDequeue(key: string, split: SplitKey, lister: Lister, update: Updater)
    requires key != "" && split(key).Success?
    requires var (ns, name) := split(key).value; lister(ns, name).Failure? && IsNotFound(lister(ns, name).error)
    ensures var r := ProcessNextWorkItem(Got(Str(key)), Bound(split, lister, update));
      && r.exit == Return(true)
      && NoUpdates(r.trace)
      && ApiCalls(r.trace) == []
      && QueueOps(r.trace) == [QueueForget(Str(key)), QueueDone(Str(key))]
  {
    QueueCallsFollowOutcome(Got(Str(key)), Bound(split, lister, update));
    ApiCallsAreTheHandlers(Got(Str(key)), Bound(split, lister, update));
  }

  /**
   * A lister failure other than not-found surfaces as an error and the key
   * is requeued with rate limiting, not forgotten.
   */
  lemma ListerFailureRequeues(key: string, split: SplitKey, lister: Lister, update: Updater)
    requires key != "" && split(key).Success?
    requires var (ns, name) := split(key).value; lister(ns, name).Failure? && !IsNotFound(lister(ns, name).error)
    ensures var r := ProcessNextWorkItem(Got(Str(key)), Bound(split, lister, update));
      && r.exit == Return(true)
      && ApiCalls(r.trace) == []
      && QueueOps(r.trace) == [QueueAddRateLimited(Str(key)), QueueDone(Str(key))]
  {
    QueueCallsFollowOutcome(Got(Str(key)), Bound(split, lister, update));
    ApiCallsAreTheHandlers(Got(Str(key)), Bound(split, lister, update));
  }

  /**
   * A dequeued key naming a Deployment with a nil annotation map: the
   * worker marks the key done and then panics, with no Update sent and the
   * key neither forgotten nor requeued.
   */
  lemma NilAnnotationsCrashWorker(d: Deployment, key: string, split: SplitKey, lister: Lister, update: Updater)
    requires key != "" && Observes(key, split, lister, d) && d.annotations.Nil?
    ensures var r := ProcessNextWorkItem(Got(Str(key)), Bound(split, lister, update));
      && r.exit == Panic
      && NoUpdates(r.trace)
      && ApiCalls(r.trace) == []
      && QueueOps(r.trace) == [QueueDone(Str(key))]
  {
    QueueCallsFollowOutcome(Got(Str(key)), Bound(split, lister, update));
    ApiCallsAreTheHandlers(Got(Str(key)), Bound(split, lister, update));
  }

  /**
   * With the corrected handler the same Deployment is marked like any other:
   * the turn sends the copy with a fresh annotation map, forgets the key and
   * goes on.
   */
  lemma NilAnnotationsMarkedWhenFixed(d: Deployment, key: string, split: SplitKey, lister: Lister, update: Updater)
    requires key != "" && Observes(key, split, lister, d) && d.annotations.Nil?
    requires update(MarkedCopy(d, true).value).None?
    ensures var r := ProcessNextWorkItem(Got(Str(key)), BoundFixed(split, lister, update));
      && r.exit == Return(true)
      && UpdateIssued(split(key).value.0, d.(annotations := Entries(map[MarkerKey := MarkerValue]))) in r.trace
      && ApiCalls(r.trace) == [UpdateIssued(split(key).value.0, MarkedCopy(d, true).value),
                               EventRecorded(MarkedCopy(d, true).value)]
      && QueueOps(r.trace) == [QueueForget(Str(key)), QueueDone(Str(key))]
  {
    var sync := BoundFixed(split, lister, update);
    QueueCallsFollowOutcome(Got(Str(key)), sync);
    ApiCallsAreTheHandlers(Got(Str(key)), sync);
    var r := ProcessNextWorkItem(Got(Str(key)), sync);
    var inner := sync(key);
    assert r.trace[1..1 + |inner.trace|] == inner.trace;
    assert inner.trace[0] == UpdateIssued(split(key).value.0, d.(annotations := Entries(map[MarkerKey := MarkerValue])));
  }
}
