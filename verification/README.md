# sample-controller reconcile core, modelled in Dafny

The repository is a small Kubernetes controller. It watches Deployments
through an informer. When it sees one, it puts the Deployment's
`namespace/name` key on a rate-limited work queue. A worker then makes sure
the Deployment carries the annotation `sample-controller: "True"`, sending
the API server an updated copy when it does not. All of the repository's own
logic lives in `pkg/controller/controller.go`. This project models its three
sequential decision pieces as pure functions:

- **Event bridge** (`event_bridge.dfy`, module `EventBridge`): the add and
  update handlers registered in `NewController`, and `enqueue`.
- **Worker turn** (`worker.dfy`, module `Worker`): `processNextWorkItem`, as
  a function from the queue's `Get` result and a sync handler to a trace of
  queue calls plus the `bool` that keeps the worker loop going.
- **Reconcile** (`reconcile.dfy`, module `Reconcile`): `syncHandler`, from
  the key-split result, the lister result and the API's answer to a trace
  and a returned `error`.

`controller.dfy` (module `Controller`) binds them together for end-to-end
statements. `trace.dfy` defines the effect log. `objects.dfy` defines
Deployments, payloads, queue items and errors. `wrappers.dfy` defines
`Option` and `Result`.

Collaborators are abstract inputs:

- `cache.MetaNamespaceKeyFunc` is a `KeyFunc`.
- `cache.SplitMetaNamespaceKey` is a `SplitKey`.
- The Deployment lister is a `Lister`.
- The API's `Update` result is an `Updater`, a function of the object sent.

Every call to the work queue other than `Get`, to `utilruntime.HandleError`, to the API and
to the event recorder becomes an `Effect` in a trace. `Get`'s answer is
an input of the worker turn instead. Go panics become `Exit.Panic`:

- a failed type assertion in the update handler;
- the write into a nil annotation map.

`Done` is deferred in `processNextWorkItem`. The model therefore puts it
last in the trace, after the branch's `Forget` or `AddRateLimited`, and also
on the panic path, because deferred calls run while a panic unwinds.

Three behaviours of the code are worth stating up front:

- A key that does not split is reported, and `syncHandler` returns `nil`.
  The worker therefore `Forget`s it like a success; there is no separate
  drop outcome.
- A Deployment with a nil annotation map makes every attempt panic (see
  Findings).
- The update handler panics on a payload that is not a Deployment.

## Model

| member | source | states |
|---|---|---|
| EventBridge.Enqueue | pkg/controller/controller.go:73-81 | a derivable key is added to the queue exactly once and nothing else happens; a derivation failure is reported and leaves the queue untouched |
| EventBridge.OnAdd | pkg/controller/controller.go:57-59 | an add notification always goes through enqueue, with no filter; exactly one key is enqueued iff the key derives |
| EventBridge.OnUpdate | pkg/controller/controller.go:60-67 | an update with equal resource versions does nothing; one with differing versions is exactly one enqueue of the new object; a non-Deployment payload panics; something is enqueued iff the versions differ and the key derives |
| EventBridge.DeliverEnqueuesWorthyKeys | pkg/controller/controller.go:56-68 | over any stream in which no update carries a non-Deployment payload, the keys added to the queue are exactly the keys of added objects and of version-changing updates, in order |
| EventBridge.PanicStopsDelivery | pkg/controller/controller.go:61-62 | an update carrying a payload that is not a Deployment, at any position, panics: the stream has exactly the effects of the notifications before it |
| EventBridge.EchoesEnqueueNothing | pkg/controller/controller.go:63-65 | a stream of resync echoes (unchanged resource version) has no effect at all |
| Worker.ProcessNextWorkItem | pkg/controller/controller.go:109-137 | returns false exactly on shutdown, and then makes no queue call; a dequeued item always ends with Done; a non-string or empty item is forgotten and reported, never synced nor requeued; a synced key is requeued iff the sync handler errs, and then its error is reported, and forgotten iff it succeeds |
| Worker.QueueCallsFollowOutcome | pkg/controller/controller.go:116-136 | the queue calls of a turn equal the reference bookkeeping for its outcome: Forget+Done on a dropped item or success, AddRateLimited+Done on error, Done alone on a panic, nothing on shutdown |
| Worker.ApiCallsAreTheHandlers | pkg/controller/controller.go:109-137 | the API and event-recorder calls of a turn are exactly the sync handler's own, once and in order; a shutdown or a dropped item makes none |
| Worker.DoneExactlyOnce | pkg/controller/controller.go:116 | Done is issued exactly once for every dequeued item, whatever the outcome |
| Reconcile.MarkedCopy | pkg/controller/controller.go:164-165 | the copy carries the marker "True", equals the original except for annotations, and keeps every other annotation; a nil map makes the write fail |
| Reconcile.SyncCore | pkg/controller/controller.go:139-175 | key-split failure is reported and is a success; not-found is a success; any other lister error is returned wrapped, and neither lister outcome has any effect; a marked object causes no call; otherwise one Update with the marked copy, whose error is returned unchanged, and an event iff it succeeded, with nothing else in the trace; the handler never touches the queue |
| Reconcile.SyncHandler | pkg/controller/controller.go:156-165 | the handler as written panics exactly when the Deployment it reads has a nil annotation map |
| Reconcile.SyncHandlerFixed | pkg/controller/controller.go:156-165 | the corrected handler never panics and sends every unmarked Deployment back with the marker set |
| Reconcile.RerunAfterUpdateIsNoop | pkg/controller/controller.go:156-161 | idempotence: once the cache returns a Deployment whose annotations are those of the copy that was sent (any new resource version or other change allowed), the next run issues nothing and succeeds |
| Reconcile.NilAnnotationsPanic | pkg/controller/controller.go:156-165 | on a Deployment with a nil annotation map the handler as written panics with no Update; the corrected one sends the copy with a fresh map holding only the marker |
| Controller.Bound | pkg/controller/controller.go:127 | the worker's sync handler is syncHandler with the controller's collaborators, and it never calls the queue |
| Controller.BoundFixed | pkg/controller/controller.go:127 | the corrected handler, bound the same way, never panics |
| Controller.AddedUnmarkedGetsMarked | pkg/controller/controller.go:127-174 | an added unmarked Deployment is enqueued, then its worker turn's API calls are exactly the Update with the marked copy and then the event, and it forgets the key, marks it done and continues |
| Controller.DeletedBeforeDequeue | pkg/controller/controller.go:147-152 | a key whose Deployment is gone is a success with no API call: Forget then Done |
| Controller.ListerFailureRequeues | pkg/controller/controller.go:147-154 | a lister failure other than not-found requeues the key with rate limiting, then Done, with no API call |
| Controller.NilAnnotationsCrashWorker | pkg/controller/controller.go:156-165 | with the handler as written, a Deployment with nil annotations gets Done and then a panic, with no API call, Forget or requeue |
| Controller.NilAnnotationsMarkedWhenFixed | pkg/controller/controller.go:156-165 | with the corrected handler the same Deployment is marked: its API calls are exactly the Update with a fresh map holding the marker and then the event, and its key is forgotten and done |

## Findings

| source | as written | input that shows it | evidently intended | confidence | as-written member | corrected member |
|---|---|---|---|---|---|---|
| pkg/controller/controller.go:156-165 | the nil check only guards the read; the copy of a nil map is nil and the marker is written into it | a Deployment created with no annotations (`Annotations == nil`) | allocate the copy's annotation map when it is nil, then set the marker | high (Go's rule that writing to a nil map panics); not executed | Reconcile.SyncHandler, Reconcile.NilAnnotationsPanic, Controller.NilAnnotationsCrashWorker | Reconcile.SyncHandlerFixed, Controller.NilAnnotationsMarkedWhenFixed |

All Controller scenarios except `NilAnnotationsMarkedWhenFixed` bind the
handler as written. The nil-map panic therefore stays visible wherever the
model reaches it. Both handlers share
`SyncCore`, whose contract covers both through its `allocateNil` switch.

## Left out

- `Run` and `runWorker`: goroutine spawning, `wait.UntilWithContext`, context cancellation, `WaitForCacheSync` and `HandleCrash` are lifecycle and concurrency plumbing.
- Work-queue internals (deduplication, in-flight exclusion, exponential backoff, shutdown draining): the queue is library code. It appears only as the log of calls made to it, so no dedup or backoff property is stated.
- `cache.MetaNamespaceKeyFunc` and `cache.SplitMetaNamespaceKey`: library parsing rules. They are abstract functions returning a key or an error.
- Event broadcaster and recorder setup, klog logging, and the `logger.Error` call before requeueing: observability sinks. `HandleError` and `recorder.Event` appear only as trace entries.
- The text of errors built with `fmt.Errorf`: errors are structured values (`InvalidResourceKey`, `FailedToGet`, `UnexpectedItem`).
- `DeepCopy` and the real API `Update` call: the copy is a value, and the Update's result is an input.
- Deletions: `NewController` registers no `DeleteFunc`, so a deletion notification reaches no handler and enqueues nothing; `Notification` has no variant for it.
- The order in which the informer delivers notifications, and its concurrency with the workers: `Deliver` applies handlers one after another.
