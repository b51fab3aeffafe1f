/** operator/internal/scheduling: the Job rendered for an InferenceService. */
module Workload {
  import opened Resources
  import opened Priority

  datatype ResourceName = Cpu | Memory | NvidiaGpu | NvidiaMig3g40gb

  datatype Container = Container(
    name: string, image: string, command: seq<string>, args: seq<string>,
    requests: map<ResourceName, string>, limits: map<ResourceName, string>)

  datatype OwnerReference = OwnerReference(name: string, uid: nat, controller: bool)

  datatype Job = Job(
    key: Key, version: nat,
    queue: string, priorityClass: PriorityClass, serviceLabel: string,
    owner: OwnerReference,
    suspend: bool, backoffLimit: int, completions: Int32, parallelism: Int32,
    container: Container, runtimeClass: Option<string>)

  function ReplicaCount(spec: ServiceSpec): (r: Int32)
    ensures r >= 1
    ensures spec.replicas.Some? && spec.replicas.value >= 1 ==> r == spec.replicas.value
  {
    if spec.replicas.None? || spec.replicas.value < 1 then 1 else spec.replicas.value
  }

  predicate WantsGpu(spec: ServiceSpec) {
    spec.gpu == Some(true)
  }

  function GpuResourceName(spec: ServiceSpec): ResourceName {
    if spec.gpuType == Mig3g40gb then NvidiaMig3g40gb else NvidiaGpu
  }

  function CpuRequest(c: WorkloadClass): (string, string) {
    match c
    case Interactive => ("500m", "1Gi")
    case Batch => ("250m", "512Mi")
    case Background => ("100m", "256Mi")
    case OtherClass(_) => ("250m", "512Mi")
  }

  function GpuQueue(ns: string): string { ns + "-gpu-queue" }

  function CpuQueue(ns: string): string { ns + "-queue" }

  /** The local queue reconcileKueueJob picks. */
  function QueueFor(svc: InferenceService): string {
    if WantsGpu(svc.spec) then GpuQueue(svc.key.ns) else CpuQueue(svc.key.ns)
  }

  function BuildContainer(spec: ServiceSpec, model: Model): Container {
    if WantsGpu(spec) then
      Container("vllm", "vllm/vllm-openai:v0.29.0",
                [], ["--model", model.spec.uri, "--host", "0.0.0.0", "--port", "8000"],
                map[], map[GpuResourceName(spec) := "1"])
    else
      var (cpu, memory) := CpuRequest(spec.workloadClass);
      Container("placeholder", "busybox:1.36", ["sleep", "30"], [],
                map[Cpu := cpu, Memory := memory], map[Cpu := cpu, Memory := memory])
  }

  /** BuildJob, stored under resource version `version`. */
  function BuildJob(svc: InferenceService, model: Model, version: nat): Job {
    var replicas := ReplicaCount(svc.spec);
    Job(svc.key, version,
        QueueFor(svc), PriorityClassFor(svc.spec.workloadClass), svc.key.name,
        OwnerReference(svc.key.name, svc.uid, true),
        true, 0, replicas, replicas,
        BuildContainer(svc.spec, model),
        if WantsGpu(svc.spec) then Some("nvidia") else None)
  }

  const GpuResources := {NvidiaGpu, NvidiaMig3g40gb}

  /** Every Job the operator renders is placed coherently: it names the tenant's GPU queue
      exactly when its container is limited to exactly one GPU resource, and exactly then it
      runs under the NVIDIA runtime class and serves the Model's URI; it is a gang of at least
      one pod, starts suspended and belongs to its service. */
  lemma PlacementCoherent(svc: InferenceService, model: Model, version: nat)
    ensures var j := BuildJob(svc, model, version);
            && (j.queue == GpuQueue(svc.key.ns) <==> |j.container.limits.Keys * GpuResources| == 1)
            && (j.queue == GpuQueue(svc.key.ns) <==> j.runtimeClass == Some("nvidia"))
            && (j.queue == GpuQueue(svc.key.ns) <==> model.spec.uri in j.container.args && j.container.name == "vllm")
            && (NvidiaMig3g40gb in j.container.limits <==> svc.spec.gpu == Some(true) && svc.spec.gpuType == Mig3g40gb)
            && (NvidiaGpu in j.container.limits <==> svc.spec.gpu == Some(true) && svc.spec.gpuType != Mig3g40gb)
            && (j.queue != GpuQueue(svc.key.ns)
                ==> j.queue == CpuQueue(svc.key.ns) && j.container.limits.Keys * GpuResources == {})
            && j.completions == j.parallelism >= 1
            && j.suspend && j.owner == OwnerReference(svc.key.name, svc.uid, true) && j.key == svc.key
  {
    var j := BuildJob(svc, model, version);
    assert |GpuQueue(svc.key.ns)| != |CpuQueue(svc.key.ns)|;
    if WantsGpu(svc.spec) {
      assert j.container.limits.Keys * GpuResources == {GpuResourceName(svc.spec)};
      assert j.container.args[1] == model.spec.uri;
    } else {
      assert j.container.limits.Keys * GpuResources == {};
    }
  }

  /** Kueue's priority class for each workload class. */
  predicate PriorityClassFits(c: WorkloadClass, p: PriorityClass) {
    && (c == Interactive <==> p == PlatformInteractive)
    && (c == Background <==> p == PlatformBackground)
    && (c == Batch || c.OtherClass? <==> p == PlatformBatch)
  }

  /** CPU and memory of a Job without GPU, requested and limited alike. */
  predicate SizeFits(c: WorkloadClass, resources: map<ResourceName, string>) {
    && resources.Keys == {Cpu, Memory}
    && (c == Interactive ==> resources[Cpu] == "500m" && resources[Memory] == "1Gi")
    && (c == Batch || c.OtherClass? ==> resources[Cpu] == "250m" && resources[Memory] == "512Mi")
    && (c == Background ==> resources[Cpu] == "100m" && resources[Memory] == "256Mi")
  }

  /** Every Job runs as many pods as asked for, one if the number is absent or below one, all at
      once; it goes to the GPU or the other queue of its namespace, carries the priority class of
      its workload class and the name of its service,
          and is never retried.  A GPU Job serves the Model with vLLM and asks for one device and nothing
      else; any other is a placeholder of the size of its class. */
  lemma JobMeetsItsSpec(svc: InferenceService, model: Model, version: nat)
    ensures var j := BuildJob(svc, model, version);
            var asked := svc.spec.replicas;
            && j.completions == (if asked.Some? && asked.value >= 1 then asked.value else 1)
            && j.parallelism == j.completions
            && PriorityClassFits(svc.spec.workloadClass, j.priorityClass)
            && j.queue == svc.key.ns + (if svc.spec.gpu == Some(true) then "-gpu-queue" else "-queue")
            && j.serviceLabel == svc.key.name && j.version == version && j.backoffLimit == 0
            && var box := j.container;
            && (svc.spec.gpu == Some(true) ==>
                  && box.name == "vllm" && box.image == "vllm/vllm-openai:v0.29.0" && box.command == []
                  && box.args == ["--model", model.spec.uri, "--host", "0.0.0.0", "--port", "8000"]
                  && box.requests == map[] && |box.limits| == 1 && box.limits.Keys <= GpuResources
                  && box.limits.Values == {"1"})
            && (svc.spec.gpu != Some(true) ==>
                  && box.name == "placeholder" && box.image == "busybox:1.36" && box.command == ["sleep", "30"]
                  && box.args == [] && SizeFits(svc.spec.workloadClass, box.limits) && box.requests == box.limits
                  && j.runtimeClass == None)
  {
    var box := BuildJob(svc, model, version).container;
    if WantsGpu(svc.spec) {
      var device := GpuResourceName(svc.spec);
      assert device in box.limits && box.limits[device] == "1";
    }
  }

  lemma GpuJobsServeTheModel(svc: InferenceService, model: Model, version: nat)
    requires WantsGpu(svc.spec)
    ensures model.spec.uri in BuildJob(svc, model, version).container.args
  {
    assert BuildContainer(svc.spec, model).args[1] == model.spec.uri;
  }

  /** Status and resource version of the service do not enter the Job. */
  lemma BuildJobIgnoresStatus(svc: InferenceService, svc': InferenceService, model: Model, version: nat)
    requires svc.key == svc'.key && svc.uid == svc'.uid && svc.spec == svc'.spec
    ensures BuildJob(svc, model, version) == BuildJob(svc', model, version)
  {
  }
}
