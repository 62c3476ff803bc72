/**
 * syncHandler: read the Deployment a key names from the lister and, unless
 * it already carries the marker annotation, send the API an updated copy
 * that does.
 */
module Reconcile {
  import opened Wrappers
  import opened Objects
  import opened Trace

  /** `cache.SplitMetaNamespaceKey`: library key parsing, left abstract. */
  type SplitKey = string -> Result<(string, string), Error>

  /** `deploymentsLister.Deployments(ns).Get(name)`: a read of the informer cache. */
  type Lister = (string, string) -> Result<Deployment, Error>

  /** The error (or `nil`) the API's Update call returns for the object sent. */
  type Updater = Deployment -> Option<Error>

  /**
   * `deploy.DeepCopy()` followed by setting the marker in the copy's
   * annotations. The copy of a nil map is nil and the write then panics
   * (`None`), unless `allocateNil` asks for a fresh map first.
   */
  function MarkedCopy(d: Deployment, allocateNil: bool): (r: Option<Deployment>)
    ensures r.None? <==> d.annotations.Nil? && !allocateNil
    ensures r.Some? ==> Marked(r.value.annotations)
    ensures r.Some? ==> r.value == d.(annotations := r.value.annotations)
    ensures r.Some? ==> EntriesOf(r.value.annotations) - {MarkerKey} == EntriesOf(d.annotations) - {MarkerKey}
  {
    match d.annotations
    case Nil =>
      if allocateNil then Some(d.(annotations := Entries(map[MarkerKey := MarkerValue])))
      else None
    case Entries(m) => Some(d.(annotations := Entries(m[MarkerKey := MarkerValue])))
  }

  /**
   * The deployment the handler acts on for `key`: the key splits and the
   * lister finds `d` under the resulting namespace and name.
   */
  predicate Observes(key: string, split: SplitKey, lister: Lister, d: Deployment)
  {
    split(key).Success? && lister(split(key).value.0, split(key).value.1) == Success(d)
  }

  /**
   * The handler body, with one switch: `allocateNil == false` is the code as
   * written, `true` gives a nil annotation map a fresh map before the write.
   */
  function SyncCore(key: string, split: SplitKey, lister: Lister, update: Updater, allocateNil: bool)
    : (r: Run<Option<Error>>)
    ensures NoQueueOps(r.trace)
    // A key that does not split is reported and dropped as a success.
    ensures split(key).Failure? ==>
      r.trace == [ErrorReported(InvalidResourceKey(key))] && r.exit == Return(None)
    // A deleted object is a success; any other lister error is returned, wrapped.
    ensures split(key).Success? && lister(split(key).value.0, split(key).value.1).Failure? ==>
      var e := lister(split(key).value.0, split(key).value.1).error;
      r.trace == [] && r.exit == Return(if IsNotFound(e) then None else Some(FailedToGet(e)))
    // An object that already carries the marker is left alone.
    ensures forall d :: Observes(key, split, lister, d) && Marked(d.annotations) ==>
      r.trace == [] && r.exit == Return(None)
    // Only a nil annotation map, unallocated, makes the handler panic, and then nothing was sent.
    ensures r.exit.Panic? <==>
      exists d :: Observes(key, split, lister, d) && !Marked(d.annotations) && d.annotations.Nil? && !allocateNil
    ensures r.exit.Panic? ==> NoUpdates(r.trace)
    // Otherwise the marked copy is sent, once, and the API's answer is returned unchanged.
    ensures forall d :: Observes(key, split, lister, d) && !Marked(d.annotations) && MarkedCopy(d, allocateNil).Some? ==>
      var d2 := MarkedCopy(d, allocateNil).value;
      && Count(r.trace, UpdateIssued(split(key).value.0, d2)) == 1
      && OnlyUpdates(r.trace, split(key).value.0, d2)
      && r.exit == Return(update(d2))
      && (EventRecorded(d2) in r.trace <==> update(d2).None?)
      && |r.trace| == (if update(d2).None? then 2 else 1)
  {
    match split(key)
    case Failure(_) => Run([ErrorReported(InvalidResourceKey(key))], Return(None))
    case Success((ns, name)) =>
      match lister(ns, name)
      case Failure(e) =>
        if IsNotFound(e) then Run([], Return(None)) else Run([], Return(Some(FailedToGet(e))))
      case Success(d) =>
        if Marked(d.annotations) then Run([], Return(None))
        else
          match MarkedCopy(d, allocateNil)
          case None => Run([], Panic)
          case Some(d2) =>
            match update(d2)
            case Some(e) => Run([UpdateIssued(ns, d2)], Return(Some(e)))
            case None => Run([UpdateIssued(ns, d2), EventRecorded(d2)], Return(None))
  }

  /**
   * `syncHandler` as written: it panics exactly when the Deployment it reads
   * has a nil annotation map.
   */
  function SyncHandler(key: string, split: SplitKey, lister: Lister, update: Updater): (r: Run<Option<Error>>)
    ensures r.exit.Panic? <==> exists d :: Observes(key, split, lister, d) && d.annotations.Nil?
  {
    SyncCore(key, split, lister, update, false)
  }

  /**
   * `syncHandler` with a nil annotation map allocated before the write: it
   * never panics, and every Deployment it reads without the marker is sent
   * back with it.
   */
  function SyncHandlerFixed(key: string, split: SplitKey, lister: Lister, update: Updater): (r: Run<Option<Error>>)
    ensures r.exit.Return?
    ensures forall d :: Observes(key, split, lister, d) && !Marked(d.annotations) ==>
      UpdateIssued(split(key).value.0, MarkedCopy(d, true).value) in r.trace
  {
    SyncCore(key, split, lister, update, true)
  }

  /**
   * Idempotence: once the cache holds a Deployment whose annotations are
   * those of the copy a run sent (as after a successful update, which also
   * gives it a new resource version and possibly other changes), the next
   * run for the key is a no-op whatever the API would answer.
   */
  lemma RerunAfterUpdateIsNoop(key: string, split: SplitKey, lister: Lister,
                               allocateNil: bool, d: Deployment, lister2: Lister, update2: Updater,
                               reread: Deployment)
    requires Observes(key, split, lister, d) && !Marked(d.annotations)
    requires MarkedCopy(d, allocateNil).Some?
    requires reread.annotations == MarkedCopy(d, allocateNil).value.annotations
    requires Observes(key, split, lister2, reread)
    ensures SyncCore(key, split, lister2, update2, allocateNil) == Run([], Return(None))
  {
  }

  /**
   * The as-written handler on a Deployment with a nil annotation map: the
   * marker is never sent and the call panics, on every attempt.
   */
  lemma NilAnnotationsPanic(key: string, split: SplitKey, lister: Lister, update: Updater, d: Deployment)
    requires Observes(key, split, lister, d) && d.annotations.Nil?
    ensures SyncHandler(key, split, lister, update) == Run([], Panic)
    ensures SyncHandlerFixed(key, split, lister, update).trace[0]
         == UpdateIssued(split(key).value.0, d.(annotations := Entries(map[MarkerKey := MarkerValue])))
  {
  }
}
