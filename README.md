# Admission defaulting for Volcano Jobs and PodGroups

This project models the two mutating admission rules of the Volcano batch
scheduler that the end-to-end admission tests pin down, and proves what those
tests assert. It also proves the general guarantees behind the tests: values
the user set are never overwritten, defaulting is idempotent, and only the
named fields change.

- **Job defaulting** (`JobMutate`, cases in `JobMutateCases`). An unset field
  is the Go zero value (`0`, `""`). For a task's `minAvailable` it is a nil
  pointer, modelled as `Option<int>`. The rules:
  - `queue` becomes `"default"`.
  - `schedulerName` becomes the configured scheduler.
  - Job and task `maxRetry` become 3.
  - Job `minAvailable` becomes the sum over tasks of (task `minAvailable` if
    set, else `replicas`), accumulated in an `int32` (`Int32.Wrap`).
  - Task `minAvailable` becomes `replicas`.
  - An unnamed task at index *i* becomes `"default"` followed by *i* in
    decimal (`Decimal.FromNat`).
  - `dnsPolicy` becomes `ClusterFirstWithHostNet` for host-network pods
    without one.
  - `svc` is added when `tensorflow`, `mpi` or `pytorch` is present, and
    `ssh` when `mpi` is present. Only missing keys are added.
- **PodGroup queue resolution** (`PodGroupMutate`, cases in
  `PodGroupMutateCases`). A PodGroup whose queue is the `DefaultQueue`
  sentinel (`"default"`) takes the value of its namespace's
  `scheduling.volcano.sh/queue-name` annotation when that key is present,
  even when the value is `""`. Any other queue, the empty one included, is
  left alone. No other field changes.

Both mutators are total functions from the submitted object to the admitted
object. The namespace annotation is an input: `NamespaceQueue` reads it from
the namespace's annotation map.

Where the sources differ, the assertions win. At
`test/e2e/admission/podgroup_mutate_test.go:176-183` the comments say an empty
queue "should be treated as default", but the assertion at lines 191-192
expects it unchanged. The model follows the assertion.

## Model

| member | source | states |
|---|---|---|
| JobMutate.DefaultTask | test/e2e/admission/job_mutate_test.go:193-321 | A defaulted task always has a name, a minAvailable (its own if set, else its replicas) and a non-zero maxRetry. A set name, maxRetry or DNS policy is kept. The DNS policy stays empty only for a non-host-network pod without one. |
| JobMutate.DefaultPlugins | test/e2e/admission/job_mutate_test.go:323-517 | Every original plugin keeps its arguments. The new keys are exactly `svc` if a framework plugin is present and `ssh` if `mpi` is present. Added entries have no arguments. |
| JobMutate.DefaultJob | test/e2e/admission/job_mutate_test.go:39-558 | The admitted job keeps its name and namespace. It keeps its task count, and task i is task i defaulted at position i. |
| JobMutate.QueueDefaulted | test/e2e/admission/job_mutate_test.go:41-66 | An empty queue becomes `"default"`. A set queue is kept. |
| JobMutate.SchedulerNameDefaulted | test/e2e/admission/job_mutate_test.go:68-94 | The admitted scheduler name is never empty. A set one is kept. |
| JobMutate.MaxRetryDefaulted | test/e2e/admission/job_mutate_test.go:96-122 | A zero job maxRetry becomes 3, and so does every zero task maxRetry. A set job maxRetry is kept. |
| JobMutate.MinAvailableDefaulted | test/e2e/admission/job_mutate_test.go:124-191 | A zero job minAvailable becomes the int32 sum of each task's minAvailable, falling back to replicas. That value equals the aggregate over the admitted tasks' visible minAvailable fields. A set value is kept. |
| JobMutate.AggregateWithoutOverflow | test/e2e/admission/job_mutate_test.go:153-154 | When the per-task values are non-negative and their total fits in an int32, the computed job minAvailable is their plain sum. |
| JobMutate.TaskMinAvailableDefaulted | test/e2e/admission/job_mutate_test.go:267-293 | An unset task minAvailable becomes that task's replicas. A set one is kept. |
| JobMutate.TaskNamesDefaulted | test/e2e/admission/job_mutate_test.go:193-224 | Every admitted task has a name. A set name is kept. An unnamed task at index i is named `default` followed by i in decimal. Two unnamed tasks never receive the same name. |
| JobMutate.DnsPolicyDefaulted | test/e2e/admission/job_mutate_test.go:226-265 | A host-network template with no DNS policy gets `ClusterFirstWithHostNet`. Every other template is unchanged. |
| JobMutate.PluginsUnchangedWithoutFramework | test/e2e/admission/job_mutate_test.go:486-517 | Without tensorflow, mpi or pytorch, the plugin map is returned unchanged. |
| JobMutate.TaskFixedPoint | test/e2e/admission/job_mutate_test.go:534-556 | Task defaulting leaves a task unchanged exactly when the task has a name, a minAvailable and a non-zero maxRetry, and is not a host-network pod without a DNS policy. |
| JobMutate.FixedPointIffSettled | test/e2e/admission/job_mutate_test.go:519-557 | Defaulting leaves a job unchanged exactly when no rule has a field left to fill in (both directions). |
| JobMutate.DefaultJobSettled | test/e2e/admission/job_mutate_test.go:39-558 | After defaulting, no rule has a field left to fill in. |
| JobMutate.DefaultJobIdempotent | test/e2e/admission/job_mutate_test.go:519-557 | Defaulting an admitted job again changes nothing. |
| JobMutate.DefaultJobWellTyped | test/e2e/admission/job_mutate_test.go:32-37 | If every int32 field of the job is in range, they are all still in range after defaulting. |
| JobMutateCases.DefaultQueueCase | test/e2e/admission/job_mutate_test.go:41-66 | A job without a queue is admitted on queue `default`. |
| JobMutateCases.DefaultSchedulerNameCase | test/e2e/admission/job_mutate_test.go:68-94 | A job without a scheduler name is admitted with a non-empty one. |
| JobMutateCases.DefaultMaxRetryCase | test/e2e/admission/job_mutate_test.go:96-122 | A job without maxRetry is admitted with maxRetry 3. |
| JobMutateCases.MinAvailableFromReplicasCase | test/e2e/admission/job_mutate_test.go:124-155 | Tasks with 2 and 3 replicas give job minAvailable 5. |
| JobMutateCases.MinAvailableFromTaskMinAvailableCase | test/e2e/admission/job_mutate_test.go:157-191 | A task with minAvailable 1 plus a task with 3 replicas gives job minAvailable 4. |
| JobMutateCases.DefaultTaskNamesCase | test/e2e/admission/job_mutate_test.go:193-224 | Two unnamed tasks are named `default0` and `default1`. |
| JobMutateCases.HostNetworkDnsPolicyCase | test/e2e/admission/job_mutate_test.go:226-265 | A host-network task gets DNS policy `ClusterFirstWithHostNet`. |
| JobMutateCases.TaskMinAvailableCase | test/e2e/admission/job_mutate_test.go:267-293 | A task with 3 replicas and no minAvailable gets minAvailable 3. |
| JobMutateCases.TaskMaxRetryCase | test/e2e/admission/job_mutate_test.go:295-321 | A task without maxRetry gets maxRetry 3. |
| JobMutateCases.TensorflowAddsSvcCase | test/e2e/admission/job_mutate_test.go:323-353 | With `tensorflow`, the plugins hold `svc` and `tensorflow`. |
| JobMutateCases.MpiAddsSvcCase | test/e2e/admission/job_mutate_test.go:355-385 | With `mpi`, the plugins hold `svc` and `mpi`. |
| JobMutateCases.PytorchAddsSvcCase | test/e2e/admission/job_mutate_test.go:387-417 | With `pytorch`, the plugins hold `svc` and `pytorch`. |
| JobMutateCases.MpiAddsSshCase | test/e2e/admission/job_mutate_test.go:419-450 | With `mpi`, the plugins hold `ssh`, `mpi` and `svc`. |
| JobMutateCases.ExistingSvcKeptCase | test/e2e/admission/job_mutate_test.go:452-484 | An existing `svc` entry keeps its `--enable-networking` argument. |
| JobMutateCases.NoFrameworkNoCompanionsCase | test/e2e/admission/job_mutate_test.go:486-517 | With only `gang`, neither `svc` nor `ssh` is added. |
| JobMutateCases.ExplicitValuesKeptCase | test/e2e/admission/job_mutate_test.go:519-557 | Explicit minAvailable 2, queue, scheduler, maxRetry 10, task name, task minAvailable 2 and task maxRetry 5 all survive. |
| PodGroupMutate.NamespaceQueue | test/e2e/admission/podgroup_mutate_test.go:61-72 | The namespace names a queue exactly when the annotation key is present, and the queue is the annotation's value. |
| PodGroupMutate.ResolveQueue | test/e2e/admission/podgroup_mutate_test.go:33-303 | Only the queue may change. It changes only from the sentinel, and only to the namespace's annotated queue. |
| PodGroupMutate.SentinelTakesAnnotation | test/e2e/admission/podgroup_mutate_test.go:124-157 | With a present annotation, the sentinel queue becomes the annotation's value, whatever it is, `""` included. |
| PodGroupMutate.NoAnnotationKeepsPodGroup | test/e2e/admission/podgroup_mutate_test.go:92-122 | Without the annotation, the PodGroup is admitted as submitted, so a sentinel queue stays the sentinel. |
| PodGroupMutate.NonSentinelKept | test/e2e/admission/podgroup_mutate_test.go:159-193 | A queue other than the sentinel, the empty one included, is never rewritten, whatever the annotation. |
| PodGroupMutate.ResolveChangesIff | test/e2e/admission/podgroup_mutate_test.go:57-193 | Resolution changes the PodGroup exactly when the queue is the sentinel and the annotation names another queue. |
| PodGroupMutate.ResolveIdempotent | test/e2e/admission/podgroup_mutate_test.go:57-90 | Resolving against the same namespace twice gives the same result as resolving once. |
| PodGroupMutateCases.CustomQueueCase | test/e2e/admission/podgroup_mutate_test.go:35-55 | `custom-queue` is kept, whatever the namespace says. |
| PodGroupMutateCases.AnnotatedNamespaceCase | test/e2e/admission/podgroup_mutate_test.go:57-90 | The sentinel in a namespace annotated `namespace-queue` becomes `namespace-queue`. |
| PodGroupMutateCases.UnannotatedNamespaceCase | test/e2e/admission/podgroup_mutate_test.go:92-122 | After the annotation key is deleted, the sentinel stays the sentinel. |
| PodGroupMutateCases.EmptyAnnotationCase | test/e2e/admission/podgroup_mutate_test.go:124-157 | An annotation whose value is empty turns the sentinel into `""`. |
| PodGroupMutateCases.EmptyQueueCase | test/e2e/admission/podgroup_mutate_test.go:159-193 | An empty queue stays empty even in an annotated namespace. |
| PodGroupMutateCases.OtherFieldsPreservedCase | test/e2e/admission/podgroup_mutate_test.go:195-247 | The queue is resolved, while minMember 5, the cpu/memory minResources, the label and the annotation are unchanged. |
| PodGroupMutateCases.SameNamespaceCase | test/e2e/admission/podgroup_mutate_test.go:249-302 | In one annotated namespace, the sentinel PodGroup is moved and the `custom-queue` PodGroup is not. |

## Left out

- Cluster round-trips, test contexts and the Ginkgo/Gomega harness are left out because they are network I/O and test plumbing. The rules are modelled as functions from the submitted object to the admitted object.
- The JSON-patch encoding the webhook sends back is not modelled. The model produces the admitted object; idempotence is stated as "defaulting again changes nothing".
- The namespace store and the test setup that writes namespace annotations are left out. The annotation map, or the queue read from it, is an input. A failed namespace lookup in the webhook is not modelled.
- Scheduler selection is left out: the scheduler is a configured non-empty constant (`volcano`), because the tests check only that the name is non-empty.
- Pod template contents other than `hostNetwork` and `dnsPolicy` (containers, images, labels) are left out. The rules do not read them.
- `resource.Quantity` values are not parsed. They are opaque text that is only checked for preservation.
- Object metadata other than name, namespace, labels and annotations is left out.
- Validation (queue state, task dependency graphs, queue hierarchy, HyperNode selectors) is left out. The core test files do not exercise it.
