/** The end-to-end PodGroup queue-resolution cases, each stated for any namespace. */
module PodGroupMutateCases {
  import opened Wrappers
  import opened PodGroupMutate

  function PodGroupOf(name: string, ns: string, queue: string): PodGroup {
    PodGroup(name, ns, map[], map[], PodGroupSpec(queue, 1, None))
  }

  lemma CustomQueueCase(ns: string, namespaceQueue: Option<string>)
    ensures ResolveQueue(PodGroupOf("custom-queue-podgroup", ns, "custom-queue"), namespaceQueue).spec.queue == "custom-queue"
  {
  }

  lemma AnnotatedNamespaceCase(ns: string)
    ensures var nsQueue := NamespaceQueue(map[QueueNameAnnotationKey := "namespace-queue"]);
            ResolveQueue(PodGroupOf("default-queue-podgroup", ns, DefaultQueue), nsQueue).spec.queue == "namespace-queue"
  {
  }

  lemma UnannotatedNamespaceCase(ns: string, nsAnnotations: map<string, string>)
    ensures var nsQueue := NamespaceQueue(nsAnnotations - {QueueNameAnnotationKey});
            ResolveQueue(PodGroupOf("no-annotation-podgroup", ns, DefaultQueue), nsQueue).spec.queue == DefaultQueue
  {
  }

  lemma EmptyAnnotationCase(ns: string)
    ensures var nsQueue := NamespaceQueue(map[QueueNameAnnotationKey := ""]);
            ResolveQueue(PodGroupOf("empty-annotation-podgroup", ns, DefaultQueue), nsQueue).spec.queue == ""
  {
  }

  lemma EmptyQueueCase(ns: string)
    ensures var nsQueue := NamespaceQueue(map[QueueNameAnnotationKey := "namespace-queue-for-empty"]);
            ResolveQueue(PodGroupOf("empty-queue-podgroup", ns, ""), nsQueue).spec.queue == ""
  {
  }

  lemma OtherFieldsPreservedCase(ns: string)
    ensures var resources := map["cpu" := Quantity("2"), "memory" := Quantity("4Gi")];
            var pg := PodGroup("preserve-fields-podgroup", ns,
                               map["test-label" := "test-value"], map["test-annotation" := "test-value"],
                               PodGroupSpec(DefaultQueue, 5, Some(resources)));
            var nsQueue := NamespaceQueue(map[QueueNameAnnotationKey := "namespace-queue-preserve"]);
            var r := ResolveQueue(pg, nsQueue);
            && r.spec.queue == "namespace-queue-preserve"
            && r.spec.minMember == 5
            && r.spec.minResources == Some(resources)
            && r.labels["test-label"] == "test-value"
            && r.annotations["test-annotation"] == "test-value"
  {
  }

  lemma SameNamespaceCase(ns: string)
    ensures var nsQueue := NamespaceQueue(map[QueueNameAnnotationKey := "namespace-queue-multiple"]);
            && ResolveQueue(PodGroupOf("multiple-1-default", ns, DefaultQueue), nsQueue).spec.queue == "namespace-queue-multiple"
            && ResolveQueue(PodGroupOf("multiple-2-custom", ns, "custom-queue"), nsQueue).spec.queue == "custom-queue"
  {
  }
}
