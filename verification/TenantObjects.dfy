/** The objects a Tenant is provisioned with, and what one create-or-update makes of each. */
module TenantObjects {
  import opened Resources

  datatype LabelKey =
    | TenantLabel | PodSecurityEnforce | PodSecurityAudit | PodSecurityWarn | K8sApp
    | OtherLabel(text: string)

  type Labels = map<LabelKey, string>

  datatype Name =
    | TenantQuota | TenantWorkload | TenantWorkloadRole | TenantWorkloadBinding | TenantIsolation
    | OtherName(text: string)

  datatype ObjId =
    | NamespaceId(ns: string)
    | QuotaId(ns: string, name: Name)
    | ServiceAccountId(ns: string, name: Name)
    | RoleId(ns: string, name: Name)
    | RoleBindingId(ns: string, name: Name)
    | NetworkPolicyId(ns: string, name: Name)

  // ---------- RBAC ----------

  datatype Verb =
    | VerbGet | VerbList | VerbWatch | VerbCreate | VerbUpdate | VerbPatch | VerbDelete | OtherVerb(text: string)

  datatype ApiGroup = PlatformGroup | CoreGroup | OtherGroup(text: string)

  datatype ApiResource = InferenceServices | Models | Pods | Services | ConfigMaps | OtherResource(text: string)

  datatype PolicyRule = PolicyRule(groups: seq<ApiGroup>, resources: seq<ApiResource>, verbs: seq<Verb>)

  datatype RoleRef = RoleRef(clusterRole: bool, name: Name)

  datatype Subject = ServiceAccountSubject(ns: string, name: Name) | OtherSubject(text: string)

  // ---------- NetworkPolicy ----------

  datatype Protocol = Tcp | Udp | Sctp

  datatype PolicyPort = PolicyPort(protocol: Protocol, port: nat)

  datatype Peer = Peer(nsSelector: Option<Labels>, podSelector: Option<Labels>)

  datatype TrafficRule = TrafficRule(peers: seq<Peer>, ports: seq<PolicyPort>)

  datatype PolicySpec = PolicySpec(
    podSelector: Labels, ingressType: bool, egressType: bool, ingress: seq<TrafficRule>, egress: seq<TrafficRule>)

  // ---------- objects ----------

  datatype QuotaResource = QuotaCpu | QuotaMemory | QuotaGpu | QuotaPods | QuotaJobs | OtherQuota(text: string)

  /** A parsed resource quantity. */
  datatype Quantity = Quantity(text: string)

  /** resource.ParseQuantity. */
  type Parser = string -> Option<Quantity>

  /** `untouched` stands for the fields of an object the operator never writes. */
  datatype Body =
    | PlainBody(untouched: string)
    | QuotaBody(hard: map<QuotaResource, Quantity>, untouched: string)
    | RoleBody(rules: seq<PolicyRule>)
    | BindingBody(roleRef: RoleRef, subjects: seq<Subject>)
    | PolicyBody(spec: PolicySpec)

  datatype Object = Object(labels: Labels, body: Body)

  type Store = map<ObjId, Object>

  // ---------- desired content ----------

  const WorkloadRules: seq<PolicyRule> := [
    PolicyRule([PlatformGroup], [InferenceServices],
               [VerbGet, VerbList, VerbWatch, VerbCreate, VerbUpdate, VerbPatch, VerbDelete]),
    PolicyRule([PlatformGroup], [Models], [VerbGet, VerbList, VerbWatch]),
    PolicyRule([CoreGroup], [Pods, Services, ConfigMaps], [VerbGet, VerbList, VerbWatch])]

  function SameTenant(t: string): Peer {
    Peer(Some(map[TenantLabel := t]), None)
  }

  const KubeDns := Peer(Some(map[]), Some(map[K8sApp := "kube-dns"]))

  function IsolationPolicy(t: string): PolicySpec {
    PolicySpec(map[], true, true,
               [TrafficRule([SameTenant(t)], [])],
               [TrafficRule([KubeDns], [PolicyPort(Udp, 53), PolicyPort(Tcp, 53)]),
                TrafficRule([SameTenant(t)], [])])
  }

  /** Three mandatory quantities and two optional ones. */
  function QuotaText(q: QuotaSpec): map<QuotaResource, string> {
    map[QuotaCpu := q.cpu, QuotaMemory := q.memory, QuotaGpu := q.gpu]
    + (if q.pods != "" then map[QuotaPods := q.pods] else map[])
    + (if q.jobs != "" then map[QuotaJobs := q.jobs] else map[])
  }

  /** The hard limits: all the quantities must parse. */
  ghost function HardLimits(parse: Parser, q: QuotaSpec): Option<map<QuotaResource, Quantity>> {
    var text := QuotaText(q);
    if forall r :: r in text ==> parse(text[r]).Some?
    then Some(map r | r in text :: parse(text[r]).value)
    else None
  }

  /** The limits, entry by entry: each resource gets the quantity of its own text, pods and jobs only
      if given, and there are limits exactly when every given text parses. */
  lemma LimitsAre(parse: Parser, q: QuotaSpec)
    ensures var hard := HardLimits(parse, q);
            && (hard.Some? <==> && parse(q.cpu).Some? && parse(q.memory).Some? && parse(q.gpu).Some?
                                && (q.pods != "" ==> parse(q.pods).Some?) && (q.jobs != "" ==> parse(q.jobs).Some?))
            && (hard.Some? ==>
                  && Get(hard.value, QuotaCpu) == parse(q.cpu)
                  && Get(hard.value, QuotaMemory) == parse(q.memory)
                  && Get(hard.value, QuotaGpu) == parse(q.gpu)
                  && Get(hard.value, QuotaPods) == (if q.pods != "" then parse(q.pods) else None)
                  && Get(hard.value, QuotaJobs) == (if q.jobs != "" then parse(q.jobs) else None)
                  && forall r :: r in hard.value ==> !r.OtherQuota?)
  {
    var text := QuotaText(q);
    assert Get(text, QuotaCpu) == Some(q.cpu) && Get(text, QuotaMemory) == Some(q.memory);
    assert Get(text, QuotaGpu) == Some(q.gpu);
    assert Get(text, QuotaPods) == if q.pods != "" then Some(q.pods) else None;
    assert Get(text, QuotaJobs) == if q.jobs != "" then Some(q.jobs) else None;
  }

  /** buildQuotaResourceList. */
  method BuildQuotaResourceList(parse: Parser, q: QuotaSpec) returns (hard: Option<map<QuotaResource, Quantity>>)
    ensures hard == HardLimits(parse, q)
  {
    ghost var text := QuotaText(q);
    assert text[QuotaCpu] == q.cpu && text[QuotaMemory] == q.memory && text[QuotaGpu] == q.gpu;
    var cpu := parse(q.cpu);
    if cpu.None? { return None; }
    var mem := parse(q.memory);
    if mem.None? { return None; }
    var gpu := parse(q.gpu);
    if gpu.None? { return None; }
    var limits := map[QuotaCpu := cpu.value, QuotaMemory := mem.value, QuotaGpu := gpu.value];
    if q.pods != "" {
      assert text[QuotaPods] == q.pods;
      var pods := parse(q.pods);
      if pods.None? { return None; }
      limits := limits[QuotaPods := pods.value];
    }
    if q.jobs != "" {
      assert text[QuotaJobs] == q.jobs;
      var jobs := parse(q.jobs);
      if jobs.None? { return None; }
      limits := limits[QuotaJobs := jobs.value];
    }
    assert limits == map r | r in text :: parse(text[r]).value;
    return Some(limits);
  }

  // ---------- create-or-update ----------

  /** What provisioning takes from a Tenant: its name and its hard limits, if they parse. */
  datatype Plan = Plan(name: string, hard: Option<map<QuotaResource, Quantity>>)

  /** The six objects of a tenant. */
  function Children(t: string): set<ObjId> {
    {NamespaceId(t), QuotaId(t, TenantQuota), ServiceAccountId(t, TenantWorkload),
     RoleId(t, TenantWorkloadRole), RoleBindingId(t, TenantWorkloadBinding), NetworkPolicyId(t, TenantIsolation)}
  }

  function LabelsOf(o: Option<Object>): Labels {
    if o.Some? then o.value.labels else map[]
  }

  function UntouchedOf(o: Option<Object>): string {
    if o.Some? && (o.value.body.PlainBody? || o.value.body.QuotaBody?) then o.value.body.untouched else ""
  }

  /** What the mutate closure of each child makes of the object it found, or of a new one: the
      tenant label is set, other labels stay, and the content the operator owns is replaced. */
  function Desired(t: Plan, id: ObjId, found: Option<Object>): Object {
    var labels := LabelsOf(found)[TenantLabel := t.name];
    match id
    case NamespaceId(_) =>
      var guarded := labels[PodSecurityEnforce := "restricted"][PodSecurityAudit := "restricted"];
      Object(guarded[PodSecurityWarn := "restricted"], PlainBody(UntouchedOf(found)))
    case QuotaId(_, _) =>
      Object(labels, QuotaBody(if t.hard.Some? then t.hard.value else map[], UntouchedOf(found)))
    case ServiceAccountId(_, _) => Object(labels, PlainBody(UntouchedOf(found)))
    case RoleId(_, _) => Object(labels, RoleBody(WorkloadRules))
    case RoleBindingId(_, _) =>
      Object(labels, BindingBody(RoleRef(false, TenantWorkloadRole), [ServiceAccountSubject(t.name, TenantWorkload)]))
    case NetworkPolicyId(_, _) => Object(labels, PolicyBody(IsolationPolicy(t.name)))
  }

  /** How one create-or-update ends. */
  datatype Call = Ok | Err(applied: bool, text: string)

  predicate Writes(c: Call) {
    c.Ok? || c.applied
  }

  function ErrorOf(c: Call): Option<Message> {
    if c.Ok? then None else Some(ApiError(c.text))
  }

  /** controllerutil.CreateOrUpdate with the child's mutate closure. */
  function CreateOrUpdate(store: Store, t: Plan, id: ObjId, c: Call): Store {
    if Writes(c) then store[id := Desired(t, id, Get(store, id))] else store
  }

  /** The labels of a child that the operator owns. */
  predicate OwnedLabel(id: ObjId, l: LabelKey) {
    l == TenantLabel || (id.NamespaceId? && l in {PodSecurityEnforce, PodSecurityAudit, PodSecurityWarn})
  }

  /** A child of the tenant as it is meant to be, made from what was found: the tenant label, the
      restricted pod security level on the namespace, the hard limits in the quota, and everything
      that is not the operator's as it was. */
  ghost predicate AsMeant(t: Plan, id: ObjId, found: Option<Object>, o: Object) {
    && (forall l :: OwnedLabel(id, l) ==>
          Get(o.labels, l) == Some(if l == TenantLabel then t.name else "restricted"))
    && (forall l :: !OwnedLabel(id, l) ==>
          Get(o.labels, l) == if found.Some? then Get(found.value.labels, l) else None)
    && match id
       case NamespaceId(_) => PlainAsFound(found, o.body)
       case QuotaId(_, _) =>
         && o.body.QuotaBody? && Some(o.body.hard) == t.hard
         && (found.Some? && found.value.body.QuotaBody? ==> o.body.untouched == found.value.body.untouched)
       case ServiceAccountId(_, _) => PlainAsFound(found, o.body)
       case RoleId(_, _) => o.body == RoleBody(WorkloadRules)
       case RoleBindingId(_, _) =>
         && o.body.BindingBody? && o.body.roleRef == RoleRef(false, TenantWorkloadRole)
         && o.body.subjects == [ServiceAccountSubject(t.name, TenantWorkload)]
       case NetworkPolicyId(_, _) => o.body == PolicyBody(IsolationPolicy(t.name))
  }

  predicate PlainAsFound(found: Option<Object>, body: Body) {
    && body.PlainBody?
    && (found.Some? && found.value.body.PlainBody? ==> body.untouched == found.value.body.untouched)
  }

  /** What the closures make of a child is as meant; for a quota, if the limits parse. */
  lemma DesiredIsAsMeant(t: Plan, id: ObjId, found: Option<Object>)
    requires id.QuotaId? ==> t.hard.Some?
    ensures AsMeant(t, id, found, Desired(t, id, found))
  {
  }

  /** Mutating for an earlier spec of the same tenant in between makes no difference. */
  lemma DesiredAbsorbs(t: Plan, u: Plan, id: ObjId, found: Option<Object>)
    requires t.name == u.name
    ensures Desired(t, id, Some(Desired(u, id, found))) == Desired(t, id, found)
  {
    var a, b := Desired(t, id, Some(Desired(u, id, found))), Desired(t, id, found);
    assert a.labels == b.labels;
  }
}
