/** What the provisioned objects mean: NetworkPolicies and RBAC evaluated over the whole store,
    in every store the operator can reach. */
module TenantIsolation {
  import opened Resources
  import opened TenantObjects
  import opened TenantProvisioning

  // ---------- meaning of NetworkPolicies ----------

  datatype Pod = Pod(ns: string, labels: Labels)

  datatype Flow = Flow(src: Pod, dst: Pod, protocol: Protocol, port: nat)

  predicate Selects(selector: Labels, labels: Labels) {
    forall l :: l in selector ==> l in labels && labels[l] == selector[l]
  }

  function NamespaceLabels(store: Store, ns: string): Labels {
    LabelsOf(Get(store, NamespaceId(ns)))
  }

  /** A peer of a policy in namespace `ns` covers a pod: by namespace and pod selector when the
      former is given, otherwise by pod selector within the policy's own namespace. */
  predicate Covers(store: Store, ns: string, peer: Peer, pod: Pod) {
    && (if peer.nsSelector.Some? then Selects(peer.nsSelector.value, NamespaceLabels(store, pod.ns)) else pod.ns == ns)
    && (peer.podSelector.Some? ==> Selects(peer.podSelector.value, pod.labels))
  }

  /** A rule without peers or ports does not restrict by peer or port. */
  ghost predicate RuleAdmits(store: Store, ns: string, rule: TrafficRule, other: Pod, protocol: Protocol, port: nat) {
    && (rule.peers == [] || exists i :: 0 <= i < |rule.peers| && Covers(store, ns, rule.peers[i], other))
    && (rule.ports == [] || PolicyPort(protocol, port) in rule.ports)
  }

  ghost predicate Governs(store: Store, id: ObjId, pod: Pod) {
    && id.NetworkPolicyId? && id.ns == pod.ns && id in store && store[id].body.PolicyBody?
    && Selects(store[id].body.spec.podSelector, pod.labels)
  }

  /** Policies add up: traffic is admitted if no policy governs the pod in that direction or
      some rule of some governing policy admits it. */
  ghost predicate EgressAdmits(store: Store, f: Flow) {
    || (forall id :: Governs(store, id, f.src) ==> !store[id].body.spec.egressType)
    || exists id, i :: Governs(store, id, f.src) && 0 <= i < |store[id].body.spec.egress|
                       && RuleAdmits(store, f.src.ns, store[id].body.spec.egress[i], f.dst, f.protocol, f.port)
  }

  ghost predicate IngressAdmits(store: Store, f: Flow) {
    || (forall id :: Governs(store, id, f.dst) ==> !store[id].body.spec.ingressType)
    || exists id, i :: Governs(store, id, f.dst) && 0 <= i < |store[id].body.spec.ingress|
                       && RuleAdmits(store, f.dst.ns, store[id].body.spec.ingress[i], f.src, f.protocol, f.port)
  }

  ghost predicate Passes(store: Store, f: Flow) {
    EgressAdmits(store, f) && IngressAdmits(store, f)
  }

  // ---------- meaning of RBAC ----------

  predicate RuleGrants(rule: PolicyRule, verb: Verb, group: ApiGroup, resource: ApiResource) {
    group in rule.groups && resource in rule.resources && verb in rule.verbs
  }

  ghost predicate RoleGrants(store: Store, id: ObjId, verb: Verb, group: ApiGroup, resource: ApiResource) {
    && id in store && store[id].body.RoleBody?
    && exists i :: 0 <= i < |store[id].body.rules| && RuleGrants(store[id].body.rules[i], verb, group, resource)
  }

  /** A RoleBinding in a namespace names the account and refers to a Role of that namespace. */
  ghost predicate Binds(store: Store, id: ObjId, ns: string, account: Subject, role: Name) {
    && id.RoleBindingId? && id.ns == ns && id in store && store[id].body.BindingBody?
    && account in store[id].body.subjects
    && store[id].body.roleRef == RoleRef(false, role)
  }

  ghost predicate Granted(store: Store, account: Subject, verb: Verb, group: ApiGroup, resource: ApiResource,
                          ns: string) {
    exists id, role :: Binds(store, id, ns, account, role) && RoleGrants(store, RoleId(ns, role), verb, group, resource)
  }

  // ---------- reachable stores ----------

  /** The next call of a pass in flight. */
  datatype Stage = AtNamespace | AtQuota | AtServiceAccount | AtRole | AtBinding | AtPolicy

  datatype Flight = Flight(plan: Plan, stage: Stage)

  /** The store and at most one pass in flight per tenant. */
  datatype State = State(store: Store, flights: map<string, Flight>)

  datatype Action = Begin(plan: Plan) | NextCall(name: string, call: Call) | Others(id: ObjId, obj: Option<Object>)

  function ChildAt(t: Plan, stage: Stage): ObjId {
    match stage
    case AtNamespace => NamespaceId(t.name)
    case AtQuota => QuotaId(t.name, TenantQuota)
    case AtServiceAccount => ServiceAccountId(t.name, TenantWorkload)
    case AtRole => RoleId(t.name, TenantWorkloadRole)
    case AtBinding => RoleBindingId(t.name, TenantWorkloadBinding)
    case AtPolicy => NetworkPolicyId(t.name, Name.TenantIsolation)
  }

  /** Where a pass goes after a call: the first two stages are fail-fast, a failed Role skips its
      binding, the rest is independent. */
  function After(t: Plan, stage: Stage, call: Call): Option<Stage> {
    match stage
    case AtNamespace => if call.Ok? && t.hard.Some? then Some(AtQuota) else None
    case AtQuota => if call.Ok? then Some(AtServiceAccount) else None
    case AtServiceAccount => Some(AtRole)
    case AtRole => if call.Ok? then Some(AtBinding) else Some(AtPolicy)
    case AtBinding => Some(AtPolicy)
    case AtPolicy => None
  }

  /** Everyone else leaves the tenant label of namespaces alone, writes no Role, RoleBinding or
      NetworkPolicy, and deletes a namespace only when its policy is gone and no pass of its tenant
      is in flight. */
  predicate Allowed(st: State, id: ObjId, obj: Option<Object>) {
    match id
    case NamespaceId(n) =>
      if obj.None? then NetworkPolicyId(n, Name.TenantIsolation) !in st.store && n !in st.flights
      else Get(obj.value.labels, TenantLabel) == Get(NamespaceLabels(st.store, n), TenantLabel)
    case QuotaId(_, _) => true
    case ServiceAccountId(_, _) => true
    case _ => obj.None?
  }

  predicate Enabled(st: State, a: Action) {
    match a
    case Begin(plan) => plan.name !in st.flights
    case NextCall(name, _) => name in st.flights
    case Others(id, obj) => Allowed(st, id, obj)
  }

  /** One call of the pass of a tenant. */
  function CallOnce(st: State, name: string, call: Call): State
    requires name in st.flights
  {
    var f := st.flights[name];
    var next := After(f.plan, f.stage, call);
    State(CreateOrUpdate(st.store, f.plan, ChildAt(f.plan, f.stage), call),
          if next.Some? then st.flights[name := Flight(f.plan, next.value)] else st.flights - {name})
  }

  function Next(st: State, a: Action): State
    requires Enabled(st, a)
  {
    match a
    case Begin(plan) => st.(flights := st.flights[plan.name := Flight(plan, AtNamespace)])
    case NextCall(name, call) => CallOnce(st, name, call)
    case Others(id, obj) => st.(store := Put(st.store, id, obj))
  }

  ghost predicate OwnLabel(store: Store, n: string) {
    TenantLabel in NamespaceLabels(store, n) ==> NamespaceLabels(store, n)[TenantLabel] == n
  }

  /** A Role, RoleBinding or NetworkPolicy is the operator's, and the namespace of a policy carries
      its label. */
  ghost predicate WrittenAt(store: Store, id: ObjId)
    requires id in store
  {
    match id
    case RoleId(_, name) => name == TenantWorkloadRole && store[id].body == RoleBody(WorkloadRules)
    case RoleBindingId(n, name) =>
      && name == TenantWorkloadBinding
      && store[id].body == BindingBody(RoleRef(false, TenantWorkloadRole),
                                       [ServiceAccountSubject(n, TenantWorkload)])
    case NetworkPolicyId(n, name) =>
      && name == Name.TenantIsolation && store[id].body == PolicyBody(IsolationPolicy(n))
      && Get(NamespaceLabels(store, n), TenantLabel) == Some(n)
    case _ => true
  }

  /** Every such object is, and tenant labels name their own namespace. */
  ghost predicate OperatorWritten(store: Store) {
    && (forall n :: OwnLabel(store, n))
    && (forall id :: id in store ==> WrittenAt(store, id))
  }

  /** Passes past their first stage have labelled their namespace. */
  ghost predicate FlightsLabelled(st: State) {
    forall n :: n in st.flights ==>
      && st.flights[n].plan.name == n
      && (!st.flights[n].stage.AtNamespace? ==> Get(NamespaceLabels(st.store, n), TenantLabel) == Some(n))
  }

  ghost predicate Sound(st: State) {
    OperatorWritten(st.store) && FlightsLabelled(st)
  }

  ghost predicate IsRun(tr: seq<State>, acts: seq<Action>) {
    && |tr| == |acts| + 1
    && OperatorWritten(tr[0].store) && tr[0].flights == map[]
    && forall i :: 0 <= i < |acts| ==> StepAt(tr, acts, i)
  }

  ghost predicate StepAt(tr: seq<State>, acts: seq<Action>, i: nat)
    requires |tr| == |acts| + 1
  {
    i < |acts| && Enabled(tr[i], acts[i]) && tr[i + 1] == Next(tr[i], acts[i])
  }

  // ---------- one call ----------

  /** A call leaves the tenant labels it finds, and a successful namespace call sets its own. */
  lemma LabelsAfterCall(store: Store, t: Plan, stage: Stage, call: Call, n: string)
    requires OperatorWritten(store)
    ensures var store' := CreateOrUpdate(store, t, ChildAt(t, stage), call);
            && OwnLabel(store', n)
            && (n == t.name && stage.AtNamespace? && call.Ok?
                ==> Get(NamespaceLabels(store', n), TenantLabel) == Some(n))
            && (Get(NamespaceLabels(store, n), TenantLabel) == Some(n)
                ==> Get(NamespaceLabels(store', n), TenantLabel) == Some(n))
  {
    assert OwnLabel(store, n);
    CreateOrUpdateAt(store, t, ChildAt(t, stage), call, NamespaceId(n));
  }

  /** One call keeps every object the operator's own; the policy only because its namespace is
      labelled by then. */
  lemma CallKeepsWritten(store: Store, t: Plan, stage: Stage, call: Call)
    requires OperatorWritten(store)
    requires stage.AtPolicy? ==> Get(NamespaceLabels(store, t.name), TenantLabel) == Some(t.name)
    ensures OperatorWritten(CreateOrUpdate(store, t, ChildAt(t, stage), call))
  {
    var child := ChildAt(t, stage);
    var store' := CreateOrUpdate(store, t, child, call);
    forall n
      ensures OwnLabel(store', n)
      ensures Get(NamespaceLabels(store, n), TenantLabel) == Some(n)
              ==> Get(NamespaceLabels(store', n), TenantLabel) == Some(n)
    {
      LabelsAfterCall(store, t, stage, call, n);
    }
    forall id | id in store' && (id.RoleId? || id.RoleBindingId? || id.NetworkPolicyId?)
      ensures WrittenAt(store', id)
    {
      CreateOrUpdateAt(store, t, child, call, id);
      assert Get(store', id) == Some(store'[id]);
      if id != child || !Writes(call) {
        assert Get(store, id) == Some(store'[id]);
        assert WrittenAt(store, id);
      }
    }
    assert forall id :: id in store' ==> WrittenAt(store', id);
  }

  lemma CallStaysSound(st: State, name: string, call: Call)
    requires Sound(st) && name in st.flights
    ensures Sound(CallOnce(st, name, call))
  {
    var f, st' := st.flights[name], CallOnce(st, name, call);
    CallKeepsWritten(st.store, f.plan, f.stage, call);
    forall n | n in st'.flights
      ensures st'.flights[n].plan.name == n
      ensures !st'.flights[n].stage.AtNamespace? ==> Get(NamespaceLabels(st'.store, n), TenantLabel) == Some(n)
    {
      assert n in st.flights;
      LabelsAfterCall(st.store, f.plan, f.stage, call, n);
    }
  }

  // ---------- whole passes ----------

  /** How the call of a stage ends in a pass. */
  function CallAt(c: Calls, stage: Stage): Call {
    match stage
    case AtNamespace => c.ns
    case AtQuota => c.quota
    case AtServiceAccount => c.sa
    case AtRole => c.role
    case AtBinding => c.binding
    case AtPolicy => c.np
  }

  function Rank(stage: Stage): nat {
    match stage
    case AtNamespace => 5
    case AtQuota => 4
    case AtServiceAccount => 3
    case AtRole => 2
    case AtBinding => 1
    case AtPolicy => 0
  }

  /** A pass that nobody interrupts, from a stage on. */
  function Uninterrupted(store: Store, t: Plan, stage: Stage, c: Calls): Store
    decreases Rank(stage)
  {
    var store' := CreateOrUpdate(store, t, ChildAt(t, stage), CallAt(c, stage));
    var next := After(t, stage, CallAt(c, stage));
    if next.Some? then Uninterrupted(store', t, next.value, c) else store'
  }

  /** Call by call, an uninterrupted pass does what Provision says. */
  lemma PassesAreCalls(store: Store, t: Plan, c: Calls)
    ensures Uninterrupted(store, t, AtNamespace, c) == Provision(store, t, c).0
  {
    var s1 := CreateOrUpdate(store, t, NamespaceId(t.name), c.ns);
    if c.ns.Ok? && t.hard.Some? {
      var s2 := CreateOrUpdate(s1, t, QuotaId(t.name, TenantQuota), c.quota);
      if c.quota.Ok? {
        WorkloadCalls(s2, t, c);
      }
    }
  }

  lemma WorkloadCalls(store: Store, t: Plan, c: Calls)
    ensures Uninterrupted(store, t, AtServiceAccount, c) == ProvisionWorkload(store, t, c).0
  {
    var s1 := CreateOrUpdate(store, t, ServiceAccountId(t.name, TenantWorkload), c.sa);
    var s2 := CreateOrUpdate(s1, t, RoleId(t.name, TenantWorkloadRole), c.role);
    var s3 := CreateOrUpdate(s2, t, RoleBindingId(t.name, TenantWorkloadBinding), c.binding);
    assert Uninterrupted(s1, t, AtRole, c)
           == Uninterrupted(s2, t, if c.role.Ok? then AtBinding else AtPolicy, c);
    assert Uninterrupted(s2, t, AtBinding, c) == Uninterrupted(s3, t, AtPolicy, c);
  }

  /** The fail-fast order is what labels the namespace before any policy is created in it. */
  lemma {:induction false} PassKeepsWritten(store: Store, t: Plan, stage: Stage, c: Calls)
    requires OperatorWritten(store)
    requires !stage.AtNamespace? ==> Get(NamespaceLabels(store, t.name), TenantLabel) == Some(t.name)
    ensures OperatorWritten(Uninterrupted(store, t, stage, c))
    decreases Rank(stage)
  {
    var store' := CreateOrUpdate(store, t, ChildAt(t, stage), CallAt(c, stage));
    CallKeepsWritten(store, t, stage, CallAt(c, stage));
    LabelsAfterCall(store, t, stage, CallAt(c, stage), t.name);
    var next := After(t, stage, CallAt(c, stage));
    if next.Some? {
      PassKeepsWritten(store', t, next.value, c);
    }
  }

  // ---------- everyone else ----------

  lemma LabelsAfterOthers(st: State, id: ObjId, obj: Option<Object>, n: string)
    requires OwnLabel(st.store, n) && Allowed(st, id, obj)
    ensures var store' := Put(st.store, id, obj);
            && OwnLabel(store', n)
            && ((NamespaceId(n) == id && obj.None?)
                || Get(NamespaceLabels(store', n), TenantLabel) == Get(NamespaceLabels(st.store, n), TenantLabel))
  {
    var store' := Put(st.store, id, obj);
    assert Get(store', NamespaceId(n)) == if NamespaceId(n) == id then obj else Get(st.store, NamespaceId(n));
  }

  lemma OthersKeepWritten(st: State, id: ObjId, obj: Option<Object>)
    requires Sound(st) && Allowed(st, id, obj)
    ensures Sound(st.(store := Put(st.store, id, obj)))
  {
    var store' := Put(st.store, id, obj);
    forall n
      ensures OwnLabel(store', n)
      ensures (NamespaceId(n) == id && obj.None?)
              || Get(NamespaceLabels(store', n), TenantLabel) == Get(NamespaceLabels(st.store, n), TenantLabel)
    {
      assert OwnLabel(st.store, n);
      LabelsAfterOthers(st, id, obj, n);
    }
    forall j | j in store' && (j.RoleId? || j.RoleBindingId? || j.NetworkPolicyId?)
      ensures WrittenAt(store', j)
    {
      assert Get(store', j) == Some(store'[j]);
      assert Get(st.store, j) == Some(store'[j]);
      assert WrittenAt(st.store, j);
    }
    assert forall j :: j in store' ==> WrittenAt(store', j);
  }

  /** Every reachable store is operator-written, whatever happens between two calls of a pass. */
  lemma {:induction false} ReachableIsWritten(tr: seq<State>, acts: seq<Action>, n: nat)
    requires IsRun(tr, acts) && n < |tr|
    ensures Sound(tr[n])
  {
    if n > 0 {
      ReachableIsWritten(tr, acts, n - 1);
      assert StepAt(tr, acts, n - 1);
      match acts[n - 1] {
        case Begin(_) =>
        case NextCall(name, call) => CallStaysSound(tr[n - 1], name, call);
        case Others(id, obj) => OthersKeepWritten(tr[n - 1], id, obj);
      }
    }
  }

  /** Why others must not delete a namespace under a pass: the policy then ends up in a namespace
      without its label, and its tenant cannot even reach itself. */
  lemma NamespaceLostUnderAPass(t: Plan, pod: Pod, protocol: Protocol, port: nat)
    requires pod.ns == t.name
    ensures var st := CallOnce(State(map[], map[t.name := Flight(t, AtPolicy)]), t.name, Ok);
            && !OperatorWritten(st.store)
            && !Passes(st.store, Flow(pod, pod, protocol, port))
  {
    var st := CallOnce(State(map[], map[t.name := Flight(t, AtPolicy)]), t.name, Ok);
    var id := NetworkPolicyId(t.name, Name.TenantIsolation);
    assert st.store == map[id := Desired(t, id, None)];
    assert !WrittenAt(st.store, id);
    assert Governs(st.store, id, pod);
    var rule := IsolationPolicy(t.name).ingress[0];
    assert !Covers(st.store, t.name, rule.peers[0], pod) by {
      var sel: Labels := map[TenantLabel := t.name];
      assert TenantLabel in sel && TenantLabel !in NamespaceLabels(st.store, t.name);
    }
  }

  // ---------- isolation ----------

  predicate Isolated(store: Store, ns: string) {
    NetworkPolicyId(ns, Name.TenantIsolation) in store
  }

  /** In an operator-written store the isolation policy is the only one of its namespace and
      governs all its pods. */
  lemma OnlyIsolationGoverns(store: Store, pod: Pod)
    requires OperatorWritten(store)
    ensures forall id ::
              Governs(store, id, pod)
              <==> id == NetworkPolicyId(pod.ns, Name.TenantIsolation) && Isolated(store, pod.ns)
    ensures Isolated(store, pod.ns)
            ==> store[NetworkPolicyId(pod.ns, Name.TenantIsolation)].body == PolicyBody(IsolationPolicy(pod.ns))
  {
  }

  /** The same-tenant peer of a namespace covers the pods of that namespace and no others. */
  lemma SameTenantCovers(store: Store, ns: string, pod: Pod)
    requires OperatorWritten(store) && Isolated(store, ns)
    ensures Covers(store, ns, SameTenant(ns), pod) <==> pod.ns == ns
  {
    assert OwnLabel(store, pod.ns);
    assert Get(NamespaceLabels(store, ns), TenantLabel) == Some(ns);
    var sel: Labels := map[TenantLabel := ns];
    assert Selects(sel, NamespaceLabels(store, pod.ns))
        <==> Get(NamespaceLabels(store, pod.ns), TenantLabel) == Some(ns);
  }

  predicate IsDns(f: Flow) {
    && Get(f.dst.labels, K8sApp) == Some("kube-dns")
    && f.port == 53 && (f.protocol == Udp || f.protocol == Tcp)
  }

  lemma KubeDnsCovers(store: Store, ns: string, pod: Pod)
    ensures Covers(store, ns, KubeDns, pod) <==> Get(pod.labels, K8sApp) == Some("kube-dns")
  {
  }

  /** Ingress into an isolated namespace is admitted from that namespace only. */
  lemma IngressMeansSameTenant(store: Store, f: Flow)
    requires OperatorWritten(store) && Isolated(store, f.dst.ns)
    ensures IngressAdmits(store, f) <==> f.src.ns == f.dst.ns
  {
    var id := NetworkPolicyId(f.dst.ns, Name.TenantIsolation);
    OnlyIsolationGoverns(store, f.dst);
    SameTenantCovers(store, f.dst.ns, f.src);
    assert Governs(store, id, f.dst);
    var rule := IsolationPolicy(f.dst.ns).ingress[0];
    assert store[id].body.spec.ingress == [rule];
    assert RuleAdmits(store, f.dst.ns, rule, f.src, f.protocol, f.port) <==> f.src.ns == f.dst.ns by {
      assert rule.peers[0] == SameTenant(f.dst.ns);
    }
    assert store[id].body.spec.ingress[0] == rule;
  }

  /** Egress from an isolated namespace is admitted to that namespace and to DNS only. */
  lemma EgressMeansSameTenantOrDns(store: Store, f: Flow)
    requires OperatorWritten(store) && Isolated(store, f.src.ns)
    ensures EgressAdmits(store, f) <==> f.src.ns == f.dst.ns || IsDns(f)
  {
    var id := NetworkPolicyId(f.src.ns, Name.TenantIsolation);
    OnlyIsolationGoverns(store, f.src);
    SameTenantCovers(store, f.src.ns, f.dst);
    KubeDnsCovers(store, f.src.ns, f.dst);
    assert Governs(store, id, f.src);
    var rules := IsolationPolicy(f.src.ns).egress;
    assert store[id].body.spec.egress == rules && |rules| == 2;
    assert RuleAdmits(store, f.src.ns, rules[0], f.dst, f.protocol, f.port) <==> IsDns(f) by {
      assert rules[0].peers[0] == KubeDns;
      assert rules[0].ports[0] == PolicyPort(Udp, 53) && rules[0].ports[1] == PolicyPort(Tcp, 53);
    }
    assert RuleAdmits(store, f.src.ns, rules[1], f.dst, f.protocol, f.port) <==> f.src.ns == f.dst.ns by {
      assert rules[1].peers[0] == SameTenant(f.src.ns);
    }
  }

  /** Network isolation in every reachable store: between two provisioned tenants traffic passes
      exactly within one tenant, on any port and whatever the pods are labelled; and from a
      provisioned tenant to a namespace without policies exactly DNS passes. */
  lemma CrossTenantTrafficIsDenied(tr: seq<State>, acts: seq<Action>, n: nat, f: Flow)
    requires IsRun(tr, acts) && n < |tr| && Isolated(tr[n].store, f.src.ns)
    ensures Isolated(tr[n].store, f.dst.ns) ==> (Passes(tr[n].store, f) <==> f.src.ns == f.dst.ns)
    ensures !Isolated(tr[n].store, f.dst.ns) ==> (Passes(tr[n].store, f) <==> IsDns(f))
  {
    ReachableIsWritten(tr, acts, n);
    EgressMeansSameTenantOrDns(tr[n].store, f);
    if Isolated(tr[n].store, f.dst.ns) {
      IngressMeansSameTenant(tr[n].store, f);
    } else {
      OnlyIsolationGoverns(tr[n].store, f.dst);
    }
  }

  // ---------- RBAC scoping ----------

  /** What a tenant's workload account may do in its own namespace. */
  predicate Permitted(verb: Verb, group: ApiGroup, resource: ApiResource) {
    var reading := verb in {VerbGet, VerbList, VerbWatch};
    match resource
    case InferenceServices =>
      group == PlatformGroup && (reading || verb in {VerbCreate, VerbUpdate, VerbPatch, VerbDelete})
    case Models => group == PlatformGroup && reading
    case Pods => group == CoreGroup && reading
    case Services => group == CoreGroup && reading
    case ConfigMaps => group == CoreGroup && reading
    case OtherResource(_) => false
  }

  lemma WorkloadRulesMeanPermitted(verb: Verb, group: ApiGroup, resource: ApiResource)
    ensures (exists i :: 0 <= i < |WorkloadRules| && RuleGrants(WorkloadRules[i], verb, group, resource))
            <==> Permitted(verb, group, resource)
  {
    if Permitted(verb, group, resource) {
      var i := if resource == InferenceServices then 0 else if resource == Models then 1 else 2;
      assert RuleGrants(WorkloadRules[i], verb, group, resource);
    }
  }

  lemma WorkloadRoleGrants(store: Store, ns: string, role: Name, verb: Verb, group: ApiGroup, resource: ApiResource)
    requires OperatorWritten(store)
    ensures RoleGrants(store, RoleId(ns, role), verb, group, resource)
            <==> role == TenantWorkloadRole && RoleId(ns, role) in store && Permitted(verb, group, resource)
  {
    WorkloadRulesMeanPermitted(verb, group, resource);
  }

  lemma WorkloadBindingBinds(store: Store, id: ObjId, ns: string, account: Subject, role: Name)
    requires OperatorWritten(store)
    ensures Binds(store, id, ns, account, role)
            <==> id == RoleBindingId(ns, TenantWorkloadBinding) && id in store
                 && account == ServiceAccountSubject(ns, TenantWorkload) && role == TenantWorkloadRole
  {
  }

  lemma GrantedMeansPermitted(store: Store, a: string, b: string, verb: Verb, group: ApiGroup, resource: ApiResource)
    requires OperatorWritten(store)
    ensures Granted(store, ServiceAccountSubject(a, TenantWorkload), verb, group, resource, b)
            <==> a == b && RoleBindingId(a, TenantWorkloadBinding) in store && RoleId(a, TenantWorkloadRole) in store
                 && Permitted(verb, group, resource)
  {
    var account := ServiceAccountSubject(a, TenantWorkload);
    var id := RoleBindingId(b, TenantWorkloadBinding);
    if Granted(store, account, verb, group, resource, b) {
      var j, role :| Binds(store, j, b, account, role) && RoleGrants(store, RoleId(b, role), verb, group, resource);
      WorkloadBindingBinds(store, j, b, account, role);
      WorkloadRoleGrants(store, b, role, verb, group, resource);
    }
    WorkloadBindingBinds(store, id, b, account, TenantWorkloadRole);
    WorkloadRoleGrants(store, b, TenantWorkloadRole, verb, group, resource);
  }

  /** RBAC scoping in every reachable store: the workload account of namespace `a` is granted a
      verb in namespace `b` exactly when `a` is `b`, its Role and RoleBinding are there, and the
      verb is permitted; in particular no write on Models anywhere. */
  lemma AccessIsScoped(tr: seq<State>, acts: seq<Action>, n: nat, a: string, b: string, verb: Verb, group: ApiGroup,
                       resource: ApiResource)
    requires IsRun(tr, acts) && n < |tr|
    ensures Granted(tr[n].store, ServiceAccountSubject(a, TenantWorkload), verb, group, resource, b)
            <==> a == b
                 && RoleBindingId(a, TenantWorkloadBinding) in tr[n].store
                 && RoleId(a, TenantWorkloadRole) in tr[n].store
                 && Permitted(verb, group, resource)
    ensures resource == Models
            && Granted(tr[n].store, ServiceAccountSubject(a, TenantWorkload), verb, group, resource, b)
            ==> verb in {VerbGet, VerbList, VerbWatch}
  {
    ReachableIsWritten(tr, acts, n);
    GrantedMeansPermitted(tr[n].store, a, b, verb, group, resource);
  }

  /** What one successful pass gives a tenant: its pods talk among themselves, from elsewhere
      nothing comes in, out goes only DNS, and its account may do exactly what is permitted. */
  lemma SuccessfulPassIsolates(store: Store, t: Plan, f: Flow, verb: Verb, group: ApiGroup, resource: ApiResource)
    requires OperatorWritten(store) && t.hard.Some?
    ensures var store' := Provision(store, t, AllOk).0;
            && OperatorWritten(store') && Isolated(store', t.name)
            && (f.dst.ns == t.name ==> (IngressAdmits(store', f) <==> f.src.ns == t.name))
            && (f.src.ns == t.name ==> (EgressAdmits(store', f) <==> f.dst.ns == t.name || IsDns(f)))
            && (Granted(store', ServiceAccountSubject(t.name, TenantWorkload), verb, group, resource, t.name)
                <==> Permitted(verb, group, resource))
  {
    var store' := Provision(store, t, AllOk).0;
    PassesAreCalls(store, t, AllOk);
    PassKeepsWritten(store, t, AtNamespace, AllOk);
    SuccessfulPass(store, t, AllOk);
    forall id | id in Children(t.name) ensures id in store' {
      ProvisionAt(store, t, AllOk, id);
    }
    assert Isolated(store', t.name) by {
      assert NetworkPolicyId(t.name, Name.TenantIsolation) in Children(t.name);
    }
    assert RoleId(t.name, TenantWorkloadRole) in Children(t.name);
    assert RoleBindingId(t.name, TenantWorkloadBinding) in Children(t.name);
    if f.dst.ns == t.name {
      IngressMeansSameTenant(store', f);
    }
    if f.src.ns == t.name {
      EgressMeansSameTenantOrDns(store', f);
    }
    GrantedMeansPermitted(store', t.name, t.name, verb, group, resource);
  }
}
