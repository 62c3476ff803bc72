/**
 * The values the controller handles: Deployments as the informer delivers
 * them, the untyped payloads of notifications and queue items, and errors.
 */
module Objects {

  /** Annotation key the controller owns, and the value it converges it to. */
  const MarkerKey: string := "sample-controller"
  const MarkerValue: string := "True"

  /**
   * A Go `map[string]string` field. `Nil` is the zero value: reading from it
   * finds nothing, writing into it panics; `Entries` is an allocated map.
   */
  datatype Annotations = Nil | Entries(m: map<string, string>)

  /** The entries of an annotation map, with `Nil` read as the empty map. */
  function EntriesOf(a: Annotations): map<string, string>
  {
    match a
    case Nil => map[]
    case Entries(m) => m
  }

  /**
   * A Deployment: the metadata the controller reads, plus everything else
   * (spec, status, other metadata) as one opaque value.
   */
  datatype Deployment = Deployment(
    namespace: string,
    name: string,
    resourceVersion: string,
    annotations: Annotations,
    rest: string)

  /** The desired state: the marker annotation is present with value "True". */
  predicate Marked(a: Annotations)
  {
    a.Entries? && MarkerKey in a.m && a.m[MarkerKey] == MarkerValue
  }

  /** An `interface{}` payload handed to an event handler. */
  datatype Obj = DeploymentObj(d: Deployment) | OtherObj(tag: nat)

  /** An `interface{}` item held by the work queue. */
  datatype Item = Str(s: string) | NonString(tag: nat)

  /** The reason an API status error carries; only not-found is told apart. */
  datatype StatusReason = ReasonNotFound | ReasonOther(name: string)

  datatype Error =
    | Status(reason: StatusReason, message: string)  // an API or lister status error
    | External(message: string)                      // any other collaborator error
    | InvalidResourceKey(key: string)                // a key that does not split
    | FailedToGet(cause: Error)                      // a lister failure, wrapped as text
    | UnexpectedItem(item: Item)                     // a queue item that is not a usable key

  /** `errors.IsNotFound`: a status error whose reason is not-found. */
  predicate IsNotFound(e: Error)
  {
    e.Status? && e.reason == ReasonNotFound
  }
}
