/** The API objects of the platform (operator/api/v1alpha1) and the library objects its
    operator reads and writes.

    Every string constant the operator compares against or writes (condition types, reasons,
    phases, workload classes, profiles, GPU types) is a constructor of its own, named after
    the string; any other string is carried by the `Other...` constructor.  Pointer-typed
    optional fields are `Option`s. */
module Resources {

  datatype Option<+T> = None | Some(value: T)

  /** Go's int32. */
  type Int32 = x: int | -0x8000_0000 <= x < 0x8000_0000

  /** Namespace and name of a namespaced object. */
  datatype Key = Key(ns: string, name: string)

  /** The value of a key in a finite map, if it has one: what a Get finds. */
  function Get<K, V>(m: map<K, V>, k: K): (r: Option<V>) {
    if k in m then Some(m[k]) else None
  }

  /** Writes or deletes one key. */
  function Put<K(!new), V>(m: map<K, V>, k: K, v: Option<V>): (r: map<K, V>)
    ensures forall j :: Get(r, j) == if j == k then v else Get(m, j)
  {
    match v
    case Some(x) => m[k := x]
    case None => m - {k}
  }

  // ---------- status conditions ----------

  datatype ConditionStatus = StatusTrue | StatusFalse | StatusUnknown

  datatype CondType =
    | ModelReady | TenantResolved | ResourceProfileResolved | CapacityAvailable
    | Accepted | Ready | WorkloadReady
    | NamespaceReady | QuotaApplied | ServiceAccountReady | RBACReady | NetworkPolicyReady
    | OtherType(name: string)

  datatype Reason =
    | ModelVerified | ModelNotReady | TenantFound | TenantNotFound
    | ProfileFound | ProfileNotFound | WithinEnvelope | CapacityUnavailable
    | InferenceServiceObserved | AllDependenciesResolved | DependenciesNotReady
    | JobReconciled | JobError
    | NamespaceReconciled | NamespaceError | QuotaReconciled | QuotaError
    | ServiceAccountReconciled | ServiceAccountError | RBACReconciled | RBACError
    | NetworkPolicyReconciled | NetworkPolicyError
    | TenantObserved | AllResourcesReconciled | ResourcesNotReady
    | ArtifactVerified | VerificationFailed
    | NoReason | OtherReason(text: string)

  datatype Message =
    | NoMessage
    | ModelMissing(model: string) | ModelUnready(model: string)
    | TenantMissing(tenant: string) | ProfileUnknown(profile: ResourceProfile)
    | NoCapacity(model: string, profile: ResourceProfile)
    | DependenciesUnsatisfied | ResourcesUnreconciled
    | EmptySourceUri | MissingDigest
    | ApiError(text: string)

  /** A metav1.Condition.  `lastTransition` is the LastTransitionTime; in a condition handed
      to SetStatusCondition it is the clock reading of that call. */
  datatype Condition = Condition(
    ctype: CondType, status: ConditionStatus, reason: Reason, message: Message, lastTransition: nat)

  datatype Phase = NoPhase | Pending | PhaseReady | OtherPhase(text: string)

  // ---------- InferenceService ----------

  datatype WorkloadClass = Interactive | Batch | Background | OtherClass(text: string)

  datatype ResourceProfile = ProtectedGpu | SharedGpu | BatchShared | OtherProfile(text: string)

  datatype GpuType = GpuTypeUnset | FullGpu | Mig3g40gb | OtherGpuType(text: string)

  datatype Slo = Slo(ttftP99: Option<int>, tpotP99: Option<int>)

  datatype ServiceSpec = ServiceSpec(
    model: string, workloadClass: WorkloadClass, resourceProfile: ResourceProfile,
    priority: Option<Int32>, replicas: Option<Int32>, gpu: Option<bool>, gpuType: GpuType, slo: Slo)

  datatype ServiceStatus = ServiceStatus(
    conditions: seq<Condition>, phase: Phase, observedGeneration: nat, derivedPriority: Int32)

  datatype InferenceService = InferenceService(
    key: Key, uid: nat, version: nat, generation: nat, spec: ServiceSpec, status: ServiceStatus)

  const EmptyServiceStatus := ServiceStatus([], NoPhase, 0, 0)

  // ---------- Model ----------

  datatype ModelSpec = ModelSpec(uri: string, digest: string, requireSignedImage: bool)

  datatype ModelStatus = ModelStatus(conditions: seq<Condition>, phase: Phase, resolvedDigest: string)

  datatype Model = Model(key: Key, version: nat, spec: ModelSpec, status: ModelStatus)

  // ---------- Tenant ----------

  datatype QuotaSpec = QuotaSpec(cpu: string, memory: string, gpu: string, pods: string, jobs: string)

  datatype TenantSpec = TenantSpec(quota: QuotaSpec, defaultPriority: Int32)

  datatype TenantStatus = TenantStatus(conditions: seq<Condition>, phase: Phase)

  datatype Tenant = Tenant(name: string, version: nat, spec: TenantSpec, status: TenantStatus)

  /** resourceprofile.Resolve succeeds on exactly the three known profiles. */
  predicate KnownProfile(p: ResourceProfile) {
    !p.OtherProfile?
  }
}
