/**
 * Queue resolution for a PodGroup at admission: a PodGroup that names the
 * default queue is moved to the queue its namespace names in an annotation.
 */
module PodGroupMutate {
  import opened Wrappers

  /** The default-queue sentinel of the scheduling API. */
  const DefaultQueue: string := "default"
  /** The namespace annotation that names a namespace's queue. */
  const QueueNameAnnotationKey: string := "scheduling.volcano.sh/queue-name"

  /** A resource quantity as written ("2", "4Gi"); only compared, never parsed. */
  datatype Quantity = Quantity(text: string)

  datatype PodGroupSpec = PodGroupSpec(
    queue: string,
    minMember: int,
    minResources: Option<map<string, Quantity>>)

  datatype PodGroup = PodGroup(
    name: string,
    namespace: string,
    labels: map<string, string>,
    annotations: map<string, string>,
    spec: PodGroupSpec)

  /** The queue a namespace names, present exactly when the annotation key is, even with an empty value. */
  function NamespaceQueue(nsAnnotations: map<string, string>): (r: Option<string>)
    ensures r.Some? <==> QueueNameAnnotationKey in nsAnnotations
    ensures r.Some? ==> r.value == nsAnnotations[QueueNameAnnotationKey]
  {
    if QueueNameAnnotationKey in nsAnnotations then Some(nsAnnotations[QueueNameAnnotationKey]) else None
  }

  /**
   * The PodGroup as admitted, given the queue annotation of its namespace.
   * Only the queue may change, and only from the sentinel to the annotated queue.
   */
  function ResolveQueue(pg: PodGroup, namespaceQueue: Option<string>): (r: PodGroup)
    ensures r == pg.(spec := pg.spec.(queue := r.spec.queue))
    ensures r.spec.queue != pg.spec.queue ==>
              pg.spec.queue == DefaultQueue && namespaceQueue == Some(r.spec.queue)
  {
    if pg.spec.queue == DefaultQueue && namespaceQueue.Some?
    then pg.(spec := pg.spec.(queue := namespaceQueue.value))
    else pg
  }

  /** The sentinel takes the annotated queue, whatever it is, the empty string included. */
  lemma SentinelTakesAnnotation(pg: PodGroup, v: string)
    requires pg.spec.queue == DefaultQueue
    ensures ResolveQueue(pg, Some(v)).spec.queue == v
  {
  }

  /** Without the annotation the PodGroup is admitted as submitted, sentinel included. */
  lemma NoAnnotationKeepsPodGroup(pg: PodGroup)
    ensures ResolveQueue(pg, None) == pg
  {
  }

  /** A queue other than the sentinel, the empty one included, is never rewritten. */
  lemma NonSentinelKept(pg: PodGroup, namespaceQueue: Option<string>)
    requires pg.spec.queue != DefaultQueue
    ensures ResolveQueue(pg, namespaceQueue) == pg
  {
  }

  /** Resolution changes the PodGroup exactly when the sentinel meets an annotation naming another queue. */
  lemma ResolveChangesIff(pg: PodGroup, namespaceQueue: Option<string>)
    ensures ResolveQueue(pg, namespaceQueue) != pg <==>
              pg.spec.queue == DefaultQueue && namespaceQueue.Some? && namespaceQueue.value != DefaultQueue
  {
  }

  /** Resolving twice against the same namespace is the same as resolving once. */
  lemma ResolveIdempotent(pg: PodGroup, namespaceQueue: Option<string>)
    ensures ResolveQueue(ResolveQueue(pg, namespaceQueue), namespaceQueue) == ResolveQueue(pg, namespaceQueue)
  {
  }
}
