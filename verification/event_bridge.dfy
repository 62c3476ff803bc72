/**
 * The informer event handlers registered in NewController and the enqueue
 * helper they share: which change notifications become work-queue keys.
 */
module EventBridge {
  import opened Wrappers
  import opened Objects
  import opened Trace

  /** `cache.MetaNamespaceKeyFunc`: library key derivation, left abstract. */
  type KeyFunc = Obj -> Result<string, Error>

  datatype Notification = Added(obj: Obj) | Updated(oldObj: Obj, newObj: Obj)

  /**
   * The change-worthiness filter of the update handler: both payloads are
   * Deployments and their resource versions differ.
   */
  predicate ChangeWorthy(oldObj: Obj, newObj: Obj)
  {
    oldObj.DeploymentObj? && newObj.DeploymentObj?
    && oldObj.d.resourceVersion != newObj.d.resourceVersion
  }

  /**
   * `enqueue`: derive the key and Add it; a derivation failure is reported
   * and the queue is left alone.
   */
  function Enqueue(obj: Obj, keyOf: KeyFunc): (r: Run<()>)
    ensures r.exit == Return(())
    ensures |r.trace| == 1
    ensures keyOf(obj).Success? ==> Enqueued(r.trace) == [Str(keyOf(obj).value)]
    ensures NoQueueOps(r.trace) <==> keyOf(obj).Failure?
    ensures keyOf(obj).Failure? ==> r.trace[0] == ErrorReported(keyOf(obj).error)
  {
    match keyOf(obj)
    case Failure(err) => Run([ErrorReported(err)], Return(()))
    case Success(key) => Run([QueueAdd(Str(key))], Return(()))
  }

  /** AddFunc: every added object goes through `enqueue`, without a filter. */
  function OnAdd(obj: Obj, keyOf: KeyFunc): (r: Run<()>)
    ensures r == Enqueue(obj, keyOf)
    ensures r.exit.Return?
    ensures |Enqueued(r.trace)| == 1 <==> keyOf(obj).Success?
  {
    Enqueue(obj, keyOf)
  }

  /**
   * UpdateFunc: both payloads are asserted to be Deployments (a failed Go
   * type assertion panics); an update whose resource version did not change
   * is dropped, any other goes through `enqueue` with the new object.
   */
  function OnUpdate(oldObj: Obj, newObj: Obj, keyOf: KeyFunc): (r: Run<()>)
    ensures r.exit.Panic? <==> !(oldObj.DeploymentObj? && newObj.DeploymentObj?)
    ensures ChangeWorthy(oldObj, newObj) ==> r == Enqueue(newObj, keyOf)
    ensures !ChangeWorthy(oldObj, newObj) ==> r.trace == []
    ensures Enqueued(r.trace) != [] <==> ChangeWorthy(oldObj, newObj) && keyOf(newObj).Success?
  {
    if !newObj.DeploymentObj? || !oldObj.DeploymentObj? then Run([], Panic)
    else if newObj.d.resourceVersion == oldObj.d.resourceVersion then Run([], Return(()))
    else Enqueue(newObj, keyOf)
  }

  /**
   * Dispatch one notification to the handler registered for its kind: only
   * an update with a payload that is not a Deployment panics, and otherwise a
   * key is enqueued iff the notification is worth work and its key derives.
   */
  function Handle(n: Notification, keyOf: KeyFunc): (r: Run<()>)
    ensures r.exit.Panic? <==> !Survives(n)
    ensures Survives(n) ==> (Enqueued(r.trace) != [] <==> Worthy(n) && keyOf(Subject(n)).Success?)
  {
    match n
    case Added(obj) => OnAdd(obj, keyOf)
    case Updated(oldObj, newObj) => OnUpdate(oldObj, newObj, keyOf)
  }

  /** Every payload in the notification is a Deployment, as the Deployment informer guarantees. */
  predicate WellTyped(n: Notification)
  {
    match n
    case Added(obj) => obj.DeploymentObj?
    case Updated(oldObj, newObj) => oldObj.DeploymentObj? && newObj.DeploymentObj?
  }

  /** The handler for `n` returns: it is an add, or an update between two Deployments. */
  predicate Survives(n: Notification)
  {
    n.Updated? ==> WellTyped(n)
  }

  /** The notifications the bridge is meant to turn into work. */
  predicate Worthy(n: Notification)
  {
    n.Added? || ChangeWorthy(n.oldObj, n.newObj)
  }

  /** An update between two Deployments with the same resource version (an informer resync). */
  predicate Echo(n: Notification)
  {
    n.Updated? && WellTyped(n) && n.oldObj.d.resourceVersion == n.newObj.d.resourceVersion
  }

  /** The key of the object a notification is about (the new one for an update). */
  function Subject(n: Notification): Obj
  {
    match n
    case Added(obj) => obj
    case Updated(_, newObj) => newObj
  }

  /**
   * Effects of delivering `ns` to the handlers one after another. A handler
   * panic ends the process, so nothing after it is delivered.
   */
  function Deliver(ns: seq<Notification>, keyOf: KeyFunc): seq<Effect>
  {
    if |ns| == 0 then []
    else
      var h := Handle(ns[0], keyOf);
      if h.exit.Panic? then h.trace else h.trace + Deliver(ns[1..], keyOf)
  }

  /** The keys the filter lets through, computed from the notifications alone. */
  function WorthyKeys(ns: seq<Notification>, keyOf: KeyFunc): seq<Item>
  {
    if |ns| == 0 then []
    else if Worthy(ns[0]) && keyOf(Subject(ns[0])).Success?
    then [Str(keyOf(Subject(ns[0])).value)] + WorthyKeys(ns[1..], keyOf)
    else WorthyKeys(ns[1..], keyOf)
  }

  /**
   * Over any stream in which no update carries a payload other than a
   * Deployment, the keys added to the queue are exactly those of the added
   * objects and of the updates whose resource version changed, in delivery
   * order.
   */
  lemma {:induction false} DeliverEnqueuesWorthyKeys(ns: seq<Notification>, keyOf: KeyFunc)
    requires forall i :: 0 <= i < |ns| ==> Survives(ns[i])
    ensures Enqueued(Deliver(ns, keyOf)) == WorthyKeys(ns, keyOf)
  {
    if |ns| > 0 {
      assert Survives(ns[0]);
      var head := Handle(ns[0], keyOf).trace;
      EnqueuedConcat(head, Deliver(ns[1..], keyOf));
      DeliverEnqueuesWorthyKeys(ns[1..], keyOf);
      if Worthy(ns[0]) && keyOf(Subject(ns[0])).Success? {
        assert head == [QueueAdd(Str(keyOf(Subject(ns[0])).value))];
      } else {
        assert NoQueueOps(head);
        NoQueueOpsMeansNone(head);
      }
    }
  }

  /** Resync echoes (updates with an unchanged resource version) never create work. */
  lemma {:induction false} EchoesEnqueueNothing(ns: seq<Notification>, keyOf: KeyFunc)
    requires forall i :: 0 <= i < |ns| ==> Echo(ns[i])
    ensures Deliver(ns, keyOf) == []
  {
    if |ns| > 0 {
      EchoesEnqueueNothing(ns[1..], keyOf);
    }
  }

  /**
   * An update with a payload that is not a Deployment panics: the stream's
   * effects are those of the notifications before it, and nothing from it
   * or after it.
   */
  lemma {:induction false} PanicStopsDelivery(ns: seq<Notification>, i: nat, keyOf: KeyFunc)
    requires i < |ns| && !Survives(ns[i])
    requires forall j :: 0 <= j < i ==> Survives(ns[j])
    ensures Deliver(ns, keyOf) == Deliver(ns[..i], keyOf)
  {
    if i > 0 {
      assert ns[1..][..i - 1] == ns[..i][1..];
      PanicStopsDelivery(ns[1..], i - 1, keyOf);
    }
  }
}
