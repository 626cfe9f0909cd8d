/**
 * Defaulting of a batch Job at admission: every rule fills in a field the
 * user left unset (the zero value for `int32` and string fields, a nil
 * pointer for a task's `minAvailable`) and leaves set fields alone.
 */
module JobMutate {
  import opened Wrappers
  import Int32
  import Decimal

  const DefaultQueue: string := "default"
  /** The configured scheduler; only its being non-empty is relied upon. */
  const DefaultSchedulerName: string := "volcano"
  const DefaultMaxRetry: int := 3
  /** Prefix of generated task names: the task at index i is named "default<i>". */
  const DefaultTaskPrefix: string := "default"
  const DnsClusterFirstWithHostNet: string := "ClusterFirstWithHostNet"

  const TensorflowPlugin: string := "tensorflow"
  const MpiPlugin: string := "mpi"
  const PytorchPlugin: string := "pytorch"
  const SvcPlugin: string := "svc"
  const SshPlugin: string := "ssh"

  /** The parts of a pod template the rules look at; `dnsPolicy == ""` is unset. */
  datatype PodTemplate = PodTemplate(hostNetwork: bool, dnsPolicy: string)

  datatype TaskSpec = TaskSpec(
    name: string,
    replicas: int,
    minAvailable: Option<int>,
    maxRetry: int,
    template: PodTemplate)

  datatype JobSpec = JobSpec(
    minAvailable: int,
    maxRetry: int,
    queue: string,
    schedulerName: string,
    plugins: map<string, seq<string>>,
    tasks: seq<TaskSpec>)

  datatype Job = Job(name: string, namespace: string, spec: JobSpec)

  /** Every `int32` field of the job holds an `int32` value. */
  predicate WellTyped(job: Job) {
    && Int32.InRange(job.spec.minAvailable)
    && Int32.InRange(job.spec.maxRetry)
    && forall i :: 0 <= i < |job.spec.tasks| ==> TaskWellTyped(job.spec.tasks[i])
  }

  predicate TaskWellTyped(t: TaskSpec) {
    && Int32.InRange(t.replicas)
    && Int32.InRange(t.maxRetry)
    && (t.minAvailable.Some? ==> Int32.InRange(t.minAvailable.value))
  }

  // ---------------------------------------------------------------------
  // Task-level rules

  /** What a task counts towards the job's minimum: its own minAvailable if set, else its replicas. */
  function EffectiveMinAvailable(t: TaskSpec): int {
    t.minAvailable.GetOr(t.replicas)
  }

  function DefaultTaskName(index: nat): string {
    DefaultTaskPrefix + Decimal.FromNat(index)
  }

  /** Defaults the task at position `index` of the job's task list. */
  function DefaultTask(t: TaskSpec, index: nat): (r: TaskSpec)
    ensures r.name != ""
    ensures t.name != "" ==> r.name == t.name
    ensures r.replicas == t.replicas
    ensures r.minAvailable == Some(EffectiveMinAvailable(t))
    ensures r.maxRetry != 0 && (t.maxRetry != 0 ==> r.maxRetry == t.maxRetry)
    ensures r.template.hostNetwork == t.template.hostNetwork
    ensures t.template.dnsPolicy != "" ==> r.template.dnsPolicy == t.template.dnsPolicy
    ensures r.template.dnsPolicy == "" <==> !t.template.hostNetwork && t.template.dnsPolicy == ""
  {
    TaskSpec(
      if t.name == "" then DefaultTaskName(index) else t.name,
      t.replicas,
      Some(EffectiveMinAvailable(t)),
      if t.maxRetry == 0 then DefaultMaxRetry else t.maxRetry,
      if t.template.hostNetwork && t.template.dnsPolicy == ""
      then t.template.(dnsPolicy := DnsClusterFirstWithHostNet)
      else t.template)
  }

  function DefaultTasks(tasks: seq<TaskSpec>): seq<TaskSpec> {
    seq(|tasks|, i requires 0 <= i < |tasks| => DefaultTask(tasks[i], i))
  }

  // ---------------------------------------------------------------------
  // Job-level rules

  /** Sum over the tasks of their effective minAvailable, in unbounded arithmetic. */
  function SumMinAvailable(tasks: seq<TaskSpec>): int {
    if tasks == [] then 0 else EffectiveMinAvailable(tasks[0]) + SumMinAvailable(tasks[1..])
  }

  /** The job minAvailable the defaulter computes: the sum, accumulated in an `int32`. */
  function AggregateMinAvailable(tasks: seq<TaskSpec>): int {
    Int32.Wrap(SumMinAvailable(tasks))
  }

  predicate HasFrameworkPlugin(plugins: map<string, seq<string>>) {
    TensorflowPlugin in plugins || MpiPlugin in plugins || PytorchPlugin in plugins
  }

  /**
   * Companion-plugin injection: a distributed-framework plugin needs `svc`,
   * and `mpi` also needs `ssh`. Only missing keys are added, with no arguments.
   */
  function DefaultPlugins(plugins: map<string, seq<string>>): (r: map<string, seq<string>>)
    ensures forall k :: k in plugins ==> k in r && r[k] == plugins[k]
    ensures r.Keys == plugins.Keys
                      + (if HasFrameworkPlugin(plugins) then {SvcPlugin} else {})
                      + (if MpiPlugin in plugins then {SshPlugin} else {})
    ensures forall k :: k in r && k !in plugins ==> r[k] == []
  {
    var withSvc := if HasFrameworkPlugin(plugins) && SvcPlugin !in plugins
                   then plugins[SvcPlugin := []] else plugins;
    if MpiPlugin in plugins && SshPlugin !in withSvc then withSvc[SshPlugin := []] else withSvc
  }

  /** The Job as admitted: every defaulting rule applied to the submitted Job. */
  function DefaultJob(job: Job): (r: Job)
    ensures r.name == job.name && r.namespace == job.namespace
    ensures |r.spec.tasks| == |job.spec.tasks|
    ensures forall i :: 0 <= i < |job.spec.tasks| ==> r.spec.tasks[i] == DefaultTask(job.spec.tasks[i], i)
  {
    var s := job.spec;
    job.(spec := JobSpec(
      if s.minAvailable == 0 then AggregateMinAvailable(s.tasks) else s.minAvailable,
      if s.maxRetry == 0 then DefaultMaxRetry else s.maxRetry,
      if s.queue == "" then DefaultQueue else s.queue,
      if s.schedulerName == "" then DefaultSchedulerName else s.schedulerName,
      DefaultPlugins(s.plugins),
      DefaultTasks(s.tasks)))
  }

  // ---------------------------------------------------------------------
  // The rules, one field at a time

  lemma QueueDefaulted(job: Job)
    ensures job.spec.queue == "" ==> DefaultJob(job).spec.queue == DefaultQueue
    ensures job.spec.queue != "" ==> DefaultJob(job).spec.queue == job.spec.queue
  {
  }

  lemma SchedulerNameDefaulted(job: Job)
    ensures DefaultJob(job).spec.schedulerName != ""
    ensures job.spec.schedulerName != "" ==> DefaultJob(job).spec.schedulerName == job.spec.schedulerName
  {
  }

  lemma MaxRetryDefaulted(job: Job)
    ensures job.spec.maxRetry == 0 ==> DefaultJob(job).spec.maxRetry == DefaultMaxRetry
    ensures job.spec.maxRetry != 0 ==> DefaultJob(job).spec.maxRetry == job.spec.maxRetry
    ensures forall i :: 0 <= i < |job.spec.tasks| && job.spec.tasks[i].maxRetry == 0 ==>
              DefaultJob(job).spec.tasks[i].maxRetry == DefaultMaxRetry
  {
  }

  /** Sums over two task lists agree when the tasks agree position by position. */
  lemma {:induction false} SumMinAvailableCongruent(a: seq<TaskSpec>, b: seq<TaskSpec>)
    requires |a| == |b|
    requires forall i :: 0 <= i < |a| ==> EffectiveMinAvailable(a[i]) == EffectiveMinAvailable(b[i])
    ensures SumMinAvailable(a) == SumMinAvailable(b)
  {
    if a != [] {
      assert EffectiveMinAvailable(a[0]) == EffectiveMinAvailable(b[0]);
      forall i | 0 <= i < |a[1..]|
        ensures EffectiveMinAvailable(a[1..][i]) == EffectiveMinAvailable(b[1..][i])
      {
        assert a[1..][i] == a[i + 1] && b[1..][i] == b[i + 1];
      }
      SumMinAvailableCongruent(a[1..], b[1..]);
    }
  }

  /** The sum of non-negative per-task values is non-negative, and the int32 accumulator does not wrap while it fits. */
  lemma {:induction false} SumMinAvailableNonNegative(tasks: seq<TaskSpec>)
    requires forall i :: 0 <= i < |tasks| ==> EffectiveMinAvailable(tasks[i]) >= 0
    ensures SumMinAvailable(tasks) >= 0
  {
    if tasks != [] {
      assert EffectiveMinAvailable(tasks[0]) >= 0;
      forall i | 0 <= i < |tasks[1..]| ensures EffectiveMinAvailable(tasks[1..][i]) >= 0 {
        assert tasks[1..][i] == tasks[i + 1];
      }
      SumMinAvailableNonNegative(tasks[1..]);
    }
  }

  /**
   * An unset job minAvailable becomes the int32 sum of each task's minAvailable,
   * falling back to replicas; the result agrees with the defaulted tasks'
   * visible minAvailable fields. A set value is kept.
   */
  lemma MinAvailableDefaulted(job: Job)
    ensures job.spec.minAvailable != 0 ==> DefaultJob(job).spec.minAvailable == job.spec.minAvailable
    ensures job.spec.minAvailable == 0 ==>
              DefaultJob(job).spec.minAvailable == Int32.Wrap(SumMinAvailable(job.spec.tasks))
    ensures job.spec.minAvailable == 0 ==>
              DefaultJob(job).spec.minAvailable == AggregateMinAvailable(DefaultJob(job).spec.tasks)
  {
    var r := DefaultJob(job);
    SumMinAvailableCongruent(job.spec.tasks, r.spec.tasks);
  }

  /** A task's unset minAvailable becomes its replicas; a set one is kept. */
  lemma TaskMinAvailableDefaulted(job: Job, i: nat)
    requires i < |job.spec.tasks|
    ensures job.spec.tasks[i].minAvailable == None ==>
              DefaultJob(job).spec.tasks[i].minAvailable == Some(job.spec.tasks[i].replicas)
    ensures job.spec.tasks[i].minAvailable.Some? ==>
              DefaultJob(job).spec.tasks[i].minAvailable == job.spec.tasks[i].minAvailable
  {
  }

  /** Unnamed tasks are named after their position, and generated names never coincide. */
  lemma TaskNamesDefaulted(job: Job, i: nat, j: nat)
    requires i < |job.spec.tasks| && j < |job.spec.tasks|
    ensures DefaultJob(job).spec.tasks[i].name != ""
    ensures job.spec.tasks[i].name != "" ==> DefaultJob(job).spec.tasks[i].name == job.spec.tasks[i].name
    ensures job.spec.tasks[i].name == "" ==>
              DefaultJob(job).spec.tasks[i].name == DefaultTaskPrefix + Decimal.FromNat(i)
    ensures job.spec.tasks[i].name == "" && job.spec.tasks[j].name == "" && i != j ==>
              DefaultJob(job).spec.tasks[i].name != DefaultJob(job).spec.tasks[j].name
  {
    if job.spec.tasks[i].name == "" && job.spec.tasks[j].name == "" && i != j {
      var r := DefaultJob(job);
      if r.spec.tasks[i].name == r.spec.tasks[j].name {
        var p := |DefaultTaskPrefix|;
        assert Decimal.FromNat(i) == r.spec.tasks[i].name[p..];
        assert Decimal.FromNat(j) == r.spec.tasks[j].name[p..];
        Decimal.FromNatInjective(i, j);
      }
    }
  }

  /** A host-network pod without a DNS policy gets ClusterFirstWithHostNet; nothing else changes the policy. */
  lemma DnsPolicyDefaulted(job: Job, i: nat)
    requires i < |job.spec.tasks|
    ensures var t := job.spec.tasks[i].template;
            var r := DefaultJob(job).spec.tasks[i].template;
            (t.hostNetwork && t.dnsPolicy == "" ==> r.dnsPolicy == DnsClusterFirstWithHostNet)
            && (!(t.hostNetwork && t.dnsPolicy == "") ==> r == t)
  {
  }

  /** Without a framework plugin the plugin map is returned as it was. */
  lemma PluginsUnchangedWithoutFramework(plugins: map<string, seq<string>>)
    requires !HasFrameworkPlugin(plugins)
    ensures DefaultPlugins(plugins) == plugins
  {
  }

  // ---------------------------------------------------------------------
  // Whole-job properties

  /** No rule has anything left to fill in for this task. */
  predicate TaskSettled(t: TaskSpec) {
    && t.name != ""
    && t.minAvailable.Some?
    && t.maxRetry != 0
    && !(t.template.hostNetwork && t.template.dnsPolicy == "")
  }

  predicate PluginsSettled(plugins: map<string, seq<string>>) {
    && (HasFrameworkPlugin(plugins) ==> SvcPlugin in plugins)
    && (MpiPlugin in plugins ==> SshPlugin in plugins)
  }

  /**
   * No rule has anything left to fill in. A zero job minAvailable counts as
   * settled only when the aggregate it would be defaulted to is zero too.
   */
  predicate Settled(job: Job) {
    && job.spec.queue != ""
    && job.spec.schedulerName != ""
    && job.spec.maxRetry != 0
    && (job.spec.minAvailable != 0 || AggregateMinAvailable(job.spec.tasks) == 0)
    && PluginsSettled(job.spec.plugins)
    && forall i :: 0 <= i < |job.spec.tasks| ==> TaskSettled(job.spec.tasks[i])
  }

  lemma TaskFixedPoint(t: TaskSpec, index: nat)
    ensures DefaultTask(t, index) == t <==> TaskSettled(t)
  {
  }

  /** Defaulting changes a job exactly when some rule still has a field to fill in. */
  lemma FixedPointIffSettled(job: Job)
    ensures DefaultJob(job) == job <==> Settled(job)
  {
    var r := DefaultJob(job);
    var ts := job.spec.tasks;
    if Settled(job) {
      forall i | 0 <= i < |ts| ensures r.spec.tasks[i] == ts[i] {
        TaskFixedPoint(ts[i], i);
      }
      assert r.spec.tasks == ts;
      assert DefaultPlugins(job.spec.plugins) == job.spec.plugins;
    }
    if r == job {
      forall i | 0 <= i < |ts| ensures TaskSettled(ts[i]) {
        assert r.spec.tasks[i] == ts[i];
        TaskFixedPoint(ts[i], i);
      }
    }
  }

  /** After defaulting nothing is left to fill in. */
  lemma DefaultJobSettled(job: Job)
    ensures Settled(DefaultJob(job))
  {
    var r := DefaultJob(job);
    if job.spec.minAvailable == 0 {
      MinAvailableDefaulted(job);
    }
  }

  /** Admitting an already-admitted job changes nothing. */
  lemma DefaultJobIdempotent(job: Job)
    ensures DefaultJob(DefaultJob(job)) == DefaultJob(job)
  {
    DefaultJobSettled(job);
    FixedPointIffSettled(DefaultJob(job));
  }

  /** Defaulting keeps every `int32` field within range. */
  lemma DefaultJobWellTyped(job: Job)
    requires WellTyped(job)
    ensures WellTyped(DefaultJob(job))
  {
  }

  /** With non-negative task counts whose total fits in an int32, the job minimum is their plain sum. */
  lemma AggregateWithoutOverflow(tasks: seq<TaskSpec>)
    requires forall i :: 0 <= i < |tasks| ==> EffectiveMinAvailable(tasks[i]) >= 0
    requires SumMinAvailable(tasks) <= Int32.Max
    ensures AggregateMinAvailable(tasks) == SumMinAvailable(tasks)
  {
    SumMinAvailableNonNegative(tasks);
  }
}
