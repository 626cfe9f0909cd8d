/** The end-to-end Job defaulting cases, each stated for any namespace. */
module JobMutateCases {
  import opened Wrappers
  import opened JobMutate

  /** The template of the cases: no host network, no DNS policy. */
  const Plain: PodTemplate := PodTemplate(false, "")

  function Task(name: string, replicas: int): TaskSpec {
    TaskSpec(name, replicas, None, 0, Plain)
  }

  /** A job with minAvailable 1 on queue `queue` and the given plugins and tasks; everything else unset. */
  function JobOf(name: string, ns: string, queue: string, plugins: map<string, seq<string>>, tasks: seq<TaskSpec>): Job {
    Job(name, ns, JobSpec(1, 0, queue, "", plugins, tasks))
  }

  lemma DefaultQueueCase(ns: string)
    ensures DefaultJob(JobOf("default-queue-job", ns, "", map[], [Task("task-1", 1)])).spec.queue == "default"
  {
  }

  lemma DefaultSchedulerNameCase(ns: string)
    ensures DefaultJob(JobOf("default-scheduler-job", ns, "default", map[], [Task("task-1", 1)])).spec.schedulerName != ""
  {
  }

  lemma DefaultMaxRetryCase(ns: string)
    ensures DefaultJob(JobOf("default-max-retry-job", ns, "default", map[], [Task("task-1", 1)])).spec.maxRetry == 3
  {
  }

  lemma MinAvailableFromReplicasCase(ns: string)
    ensures var job := Job("default-min-available-job", ns,
                           JobSpec(0, 0, "default", "", map[], [Task("task-1", 2), Task("task-2", 3)]));
            DefaultJob(job).spec.minAvailable == 5
  {
  }

  lemma MinAvailableFromTaskMinAvailableCase(ns: string)
    ensures var job := Job("task-min-available-job", ns,
                           JobSpec(0, 0, "default", "", map[],
                                   [Task("task-1", 2).(minAvailable := Some(1)), Task("task-2", 3)]));
            DefaultJob(job).spec.minAvailable == 4
  {
    var tasks := [Task("task-1", 2).(minAvailable := Some(1)), Task("task-2", 3)];
    assert SumMinAvailable(tasks[1..]) == 3;
  }

  lemma DefaultTaskNamesCase(ns: string)
    ensures var r := DefaultJob(JobOf("default-task-name-job", ns, "default", map[], [Task("", 1), Task("", 1)]));
            r.spec.tasks[0].name == "default0" && r.spec.tasks[1].name == "default1"
  {
  }

  lemma HostNetworkDnsPolicyCase(ns: string)
    ensures var t := Task("host-network-task", 1).(template := PodTemplate(true, ""));
            var r := DefaultJob(JobOf("host-network-dns-job", ns, "default", map[], [t]));
            r.spec.tasks[0].template.dnsPolicy == "ClusterFirstWithHostNet"
  {
  }

  lemma TaskMinAvailableCase(ns: string)
    ensures var r := DefaultJob(JobOf("default-task-min-available-job", ns, "default", map[], [Task("task-1", 3)]));
            r.spec.tasks[0].minAvailable == Some(3)
  {
  }

  lemma TaskMaxRetryCase(ns: string)
    ensures var r := DefaultJob(JobOf("default-task-max-retry-job", ns, "default", map[], [Task("task-1", 1)]));
            r.spec.tasks[0].maxRetry == 3
  {
  }

  lemma TensorflowAddsSvcCase(ns: string)
    ensures var r := DefaultJob(JobOf("tensorflow-plugin-job", ns, "default", map["tensorflow" := []], [Task("task-1", 1)]));
            "svc" in r.spec.plugins && "tensorflow" in r.spec.plugins
  {
  }

  lemma MpiAddsSvcCase(ns: string)
    ensures var r := DefaultJob(JobOf("mpi-plugin-job", ns, "default", map["mpi" := []], [Task("task-1", 1)]));
            "svc" in r.spec.plugins && "mpi" in r.spec.plugins
  {
  }

  lemma PytorchAddsSvcCase(ns: string)
    ensures var r := DefaultJob(JobOf("pytorch-plugin-job", ns, "default", map["pytorch" := []], [Task("task-1", 1)]));
            "svc" in r.spec.plugins && "pytorch" in r.spec.plugins
  {
  }

  lemma MpiAddsSshCase(ns: string)
    ensures var r := DefaultJob(JobOf("mpi-ssh-plugin-job", ns, "default", map["mpi" := []], [Task("task-1", 1)]));
            "ssh" in r.spec.plugins && "mpi" in r.spec.plugins && "svc" in r.spec.plugins
  {
  }

  lemma ExistingSvcKeptCase(ns: string)
    ensures var plugins := map["tensorflow" := [], "svc" := ["--enable-networking"]];
            var r := DefaultJob(JobOf("existing-plugins-job", ns, "default", plugins, [Task("task-1", 1)]));
            "svc" in r.spec.plugins && "tensorflow" in r.spec.plugins
            && "--enable-networking" in r.spec.plugins["svc"]
  {
  }

  lemma NoFrameworkNoCompanionsCase(ns: string)
    ensures var r := DefaultJob(JobOf("no-framework-plugins-job", ns, "default", map["gang" := []], [Task("task-1", 1)]));
            "gang" in r.spec.plugins && "svc" !in r.spec.plugins && "ssh" !in r.spec.plugins
  {
  }

  lemma ExplicitValuesKeptCase(ns: string)
    ensures var t := TaskSpec("custom-task", 3, Some(2), 5, Plain);
            var job := Job("preserve-values-job", ns, JobSpec(2, 10, "custom-queue", "custom-sched", map[], [t]));
            var r := DefaultJob(job);
            && r.spec.minAvailable == 2
            && r.spec.queue == "custom-queue"
            && r.spec.schedulerName == "custom-sched"
            && r.spec.maxRetry == 10
            && r.spec.tasks[0].name == "custom-task"
            && r.spec.tasks[0].minAvailable == Some(2)
            && r.spec.tasks[0].maxRetry == 5
  {
  }
}
