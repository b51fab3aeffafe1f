/** TenantReconciler.Reconcile: two fail-fast stages, then three independent ones. */
module TenantProvisioning {
  import opened Resources
  import opened TenantObjects

  /** How the calls of one pass end. */
  datatype Calls = Calls(ns: Call, quota: Call, sa: Call, role: Call, binding: Call, np: Call)

  const AllOk := Calls(Ok, Ok, Ok, Ok, Ok, Ok)

  /** The errors handed to updateStatus. */
  datatype Errors = Errors(
    ns: Option<Message>, quota: Option<Message>, sa: Option<Message>, rbac: Option<Message>, np: Option<Message>)
  {
    predicate Empty() {
      ns.None? && quota.None? && sa.None? && rbac.None? && np.None?
    }
  }

  const NoErrors := Errors(Option.None, Option.None, Option.None, Option.None, Option.None)

  /** ServiceAccount, then Role and, if that went well, RoleBinding, then NetworkPolicy. */
  function ProvisionWorkload(store: Store, t: Plan, c: Calls): (Store, Errors) {
    var s1 := CreateOrUpdate(store, t, ServiceAccountId(t.name, TenantWorkload), c.sa);
    var s2 := CreateOrUpdate(s1, t, RoleId(t.name, TenantWorkloadRole), c.role);
    var s3 := if c.role.Ok? then CreateOrUpdate(s2, t, RoleBindingId(t.name, TenantWorkloadBinding), c.binding) else s2;
    var s4 := CreateOrUpdate(s3, t, NetworkPolicyId(t.name, TenantIsolation), c.np);
    (s4, NoErrors.(sa := ErrorOf(c.sa),
                   rbac := if c.role.Ok? then ErrorOf(c.binding) else ErrorOf(c.role),
                   np := ErrorOf(c.np)))
  }

  function Provision(store: Store, t: Plan, c: Calls): (Store, Errors) {
    var s1 := CreateOrUpdate(store, t, NamespaceId(t.name), c.ns);
    if c.ns.Err? then (s1, NoErrors.(ns := ErrorOf(c.ns)))
    else if !t.hard.Some? then (s1, NoErrors.(quota := Some(ApiError("invalid resource quota"))))
    else
      var s2 := CreateOrUpdate(s1, t, QuotaId(t.name, TenantQuota), c.quota);
      if c.quota.Err? then (s2, NoErrors.(quota := ErrorOf(c.quota)))
      else ProvisionWorkload(s2, t, c)
  }

  /** Whether a pass gets to write a child at all; the store does not matter. */
  predicate Reaches(t: Plan, c: Calls, id: ObjId) {
    var quotaOk := c.ns.Ok? && t.hard.Some?;
    var workload := quotaOk && c.quota.Ok?;
    match id
    case NamespaceId(n) => n == t.name && Writes(c.ns)
    case QuotaId(n, x) => n == t.name && x == TenantQuota && quotaOk && Writes(c.quota)
    case ServiceAccountId(n, x) => n == t.name && x == TenantWorkload && workload && Writes(c.sa)
    case RoleId(n, x) => n == t.name && x == TenantWorkloadRole && workload && Writes(c.role)
    case RoleBindingId(n, x) => n == t.name && x == TenantWorkloadBinding && workload && c.role.Ok? && Writes(c.binding)
    case NetworkPolicyId(n, x) => n == t.name && x == TenantIsolation && workload && Writes(c.np)
  }

  /** A pass, object by object: each child it reaches is mutated from what was there, everything
      else is left alone. */
  lemma ProvisionAt(store: Store, t: Plan, c: Calls, id: ObjId)
    ensures Get(Provision(store, t, c).0, id)
            == if Reaches(t, c, id) then Some(Desired(t, id, Get(store, id))) else Get(store, id)
  {
    var s1 := CreateOrUpdate(store, t, NamespaceId(t.name), c.ns);
    CreateOrUpdateAt(store, t, NamespaceId(t.name), c.ns, id);
    if c.ns.Ok? && t.hard.Some? {
      var s2 := CreateOrUpdate(s1, t, QuotaId(t.name, TenantQuota), c.quota);
      CreateOrUpdateAt(s1, t, QuotaId(t.name, TenantQuota), c.quota, id);
      if c.quota.Ok? {
        ProvisionWorkloadAt(s2, t, c, id);
      }
    }
  }

  /** What a pass leaves of each object, failing or not: a child that it reaches is as meant, with
      whatever else was found kept; everything else is as it was. */
  lemma PassLeavesChildrenAsMeant(store: Store, t: Plan, c: Calls, id: ObjId)
    ensures var after := Get(Provision(store, t, c).0, id);
            if Reaches(t, c, id) then after.Some? && AsMeant(t, id, Get(store, id), after.value)
            else after == Get(store, id)
  {
    ProvisionAt(store, t, c, id);
    if Reaches(t, c, id) {
      DesiredIsAsMeant(t, id, Get(store, id));
    }
  }

  /** In particular the quota of a successful pass has exactly the limits of the Tenant, and the
      namespace the restricted pod security level. */
  lemma SuccessfulPassContent(store: Store, t: Plan)
    requires t.hard.Some?
    ensures var store' := Provision(store, t, AllOk).0;
            var quota, ns := Get(store', QuotaId(t.name, TenantQuota)), Get(store', NamespaceId(t.name));
            && (forall id :: id in Children(t.name) ==>
                  id in store' && Get(store'[id].labels, TenantLabel) == Some(t.name))
            && quota.Some? && quota.value.body.QuotaBody? && quota.value.body.hard == t.hard.value
            && ns.Some? && forall l :: l in {PodSecurityEnforce, PodSecurityAudit, PodSecurityWarn} ==>
                                         Get(ns.value.labels, l) == Some("restricted")
  {
    var store' := Provision(store, t, AllOk).0;
    forall id | id in Children(t.name)
      ensures id in store' && AsMeant(t, id, Get(store, id), store'[id])
    {
      PassLeavesChildrenAsMeant(store, t, AllOk, id);
    }
    var quota, ns := QuotaId(t.name, TenantQuota), NamespaceId(t.name);
    assert quota in Children(t.name) && ns in Children(t.name);
    forall l | l in {PodSecurityEnforce, PodSecurityAudit, PodSecurityWarn}
      ensures Get(store'[ns].labels, l) == Some("restricted")
    {
      assert OwnedLabel(ns, l);
    }
    forall id | id in Children(t.name) ensures Get(store'[id].labels, TenantLabel) == Some(t.name) {
      assert OwnedLabel(id, TenantLabel);
    }
  }

  lemma CreateOrUpdateAt(store: Store, t: Plan, child: ObjId, c: Call, id: ObjId)
    ensures Get(CreateOrUpdate(store, t, child, c), id)
            == if id == child && Writes(c) then Some(Desired(t, id, Get(store, id))) else Get(store, id)
  {
  }

  lemma ProvisionWorkloadAt(store: Store, t: Plan, c: Calls, id: ObjId)
    requires c.ns.Ok? && t.hard.Some? && c.quota.Ok?
    ensures Get(ProvisionWorkload(store, t, c).0, id)
            == if Reaches(t, c, id) && !id.NamespaceId? && !id.QuotaId?
               then Some(Desired(t, id, Get(store, id))) else Get(store, id)
  {
    var s1 := CreateOrUpdate(store, t, ServiceAccountId(t.name, TenantWorkload), c.sa);
    var s2 := CreateOrUpdate(s1, t, RoleId(t.name, TenantWorkloadRole), c.role);
    var s3 := if c.role.Ok? then CreateOrUpdate(s2, t, RoleBindingId(t.name, TenantWorkloadBinding), c.binding) else s2;
    CreateOrUpdateAt(store, t, ServiceAccountId(t.name, TenantWorkload), c.sa, id);
    CreateOrUpdateAt(s1, t, RoleId(t.name, TenantWorkloadRole), c.role, id);
    CreateOrUpdateAt(s2, t, RoleBindingId(t.name, TenantWorkloadBinding), c.binding, id);
    CreateOrUpdateAt(s3, t, NetworkPolicyId(t.name, TenantIsolation), c.np, id);
  }

  lemma ReachesOnlyChildren(t: Plan, c: Calls, id: ObjId)
    requires Reaches(t, c, id)
    ensures id in Children(t.name) && id.ns == t.name
  {
  }

  /** A pass ends without error exactly when the quota parses and every call went through, and
      then it has written all six children. */
  lemma SuccessfulPass(store: Store, t: Plan, c: Calls)
    ensures Provision(store, t, c).1.Empty() <==> t.hard.Some? && c == AllOk
    ensures Provision(store, t, c).1.Empty() ==> forall id :: id in Children(t.name) <==> Reaches(t, c, id)
  {
  }

  // ---------- confluence ----------

  datatype Pass = Pass(plan: Plan, calls: Calls)

  function RunPasses(store: Store, passes: seq<Pass>): Store
    decreases passes
  {
    if passes == [] then store
    else RunPasses(Provision(store, passes[0].plan, passes[0].calls).0, passes[1..])
  }

  /** Whatever passes came before, of this tenant under any earlier spec or of others, the next
      mutation of a child gives the same object. */
  lemma {:induction false} PassesAreAbsorbed(store: Store, passes: seq<Pass>, t: Plan, id: ObjId)
    requires id in Children(t.name)
    ensures Desired(t, id, Get(RunPasses(store, passes), id)) == Desired(t, id, Get(store, id))
    decreases passes
  {
    if passes != [] {
      var p := passes[0];
      var store' := Provision(store, p.plan, p.calls).0;
      PassesAreAbsorbed(store', passes[1..], t, id);
      ProvisionAt(store, p.plan, p.calls, id);
      if Reaches(p.plan, p.calls, id) {
        ReachesOnlyChildren(p.plan, p.calls, id);
        DesiredAbsorbs(t, p.plan, id, Get(store, id));
      }
    }
  }

  /** Confluence: from any store, after any sequence of passes that failed at any points, one
      successful pass leaves the six children exactly as a single successful pass on the
      starting store would. */
  lemma ProvisioningIsConfluent(store: Store, passes: seq<Pass>, t: Plan, id: ObjId)
    requires t.hard.Some? && id in Children(t.name)
    ensures Get(Provision(RunPasses(store, passes), t, AllOk).0, id)
            == Get(Provision(store, t, AllOk).0, id)
            == Some(Desired(t, id, Get(store, id)))
  {
    var before := RunPasses(store, passes);
    SuccessfulPass(before, t, AllOk);
    SuccessfulPass(store, t, AllOk);
    ProvisionAt(before, t, AllOk, id);
    ProvisionAt(store, t, AllOk, id);
    PassesAreAbsorbed(store, passes, t, id);
  }

  /** Passes of different tenants write disjoint objects and commute, errors included. */
  lemma DifferentTenantsCommute(store: Store, t: Plan, c: Calls, u: Plan, d: Calls)
    requires t.name != u.name
    ensures Children(t.name) !! Children(u.name)
    ensures Provision(Provision(store, t, c).0, u, d).0 == Provision(Provision(store, u, d).0, t, c).0
    ensures Provision(Provision(store, t, c).0, u, d).1 == Provision(store, u, d).1
  {
    var a := Provision(Provision(store, t, c).0, u, d).0;
    var b := Provision(Provision(store, u, d).0, t, c).0;
    forall id ensures Get(a, id) == Get(b, id) {
      CommutesAt(store, t, c, u, d, id);
    }
    SameContents(a, b);
    ErrorsIgnoreTheStore(store, Provision(store, t, c).0, u, d);
  }

  lemma ErrorsIgnoreTheStore(store: Store, store': Store, t: Plan, c: Calls)
    ensures Provision(store, t, c).1 == Provision(store', t, c).1
  {
  }

  lemma SameContents(a: Store, b: Store)
    requires forall id :: Get(a, id) == Get(b, id)
    ensures a == b
  {
    assert forall id :: id in a <==> Get(a, id).Some?;
    assert forall id :: id in b <==> Get(b, id).Some?;
    assert forall id :: id in a ==> Get(a, id) == Some(a[id]);
    assert forall id :: id in b ==> Get(b, id) == Some(b[id]);
  }

  lemma CommutesAt(store: Store, t: Plan, c: Calls, u: Plan, d: Calls, id: ObjId)
    requires t.name != u.name
    ensures Get(Provision(Provision(store, t, c).0, u, d).0, id) == Get(Provision(Provision(store, u, d).0, t, c).0, id)
  {
    ProvisionAt(store, t, c, id);
    ProvisionAt(store, u, d, id);
    ProvisionAt(Provision(store, t, c).0, u, d, id);
    ProvisionAt(Provision(store, u, d).0, t, c, id);
    if Reaches(t, c, id) { ReachesOnlyChildren(t, c, id); }
    if Reaches(u, d, id) { ReachesOnlyChildren(u, d, id); }
  }

  // ---------- what the reported errors mean ----------

  /** The errors say exactly which stage completed: quota when namespace and quota report none,
      each workload object when the two fail-fast stages and its own report none. */
  lemma ErrorsAreExact(store: Store, t: Plan, c: Calls)
    ensures var e := Provision(store, t, c).1;
            && (e.ns.None? <==> c.ns.Ok?)
            && (e.ns.None? && e.quota.None? <==> c.ns.Ok? && t.hard.Some? && c.quota.Ok?)
            && (e.ns.None? && e.quota.None? ==>
                  && (e.sa.None? <==> c.sa.Ok?)
                  && (e.rbac.None? <==> c.role.Ok? && c.binding.Ok?)
                  && (e.np.None? <==> c.np.Ok?))
  {
  }

  /** ... and each error carries the text of its own call; that of RBAC is of the Role if the Role
      failed and of the RoleBinding otherwise. */
  lemma ErrorsCarryTheirTexts(store: Store, t: Plan, c: Calls)
    ensures var e := Provision(store, t, c).1;
            && (e.ns.Some? ==> c.ns.Err? && e.ns.value == ApiError(c.ns.text))
            && (e.quota.Some? && t.hard.Some? ==> c.quota.Err? && e.quota.value == ApiError(c.quota.text))
            && (e.sa.Some? ==> c.sa.Err? && e.sa.value == ApiError(c.sa.text))
            && (e.rbac.Some? && c.role.Err? ==> e.rbac.value == ApiError(c.role.text))
            && (e.rbac.Some? && c.role.Ok? ==> c.binding.Err? && e.rbac.value == ApiError(c.binding.text))
            && (e.np.Some? ==> c.np.Err? && e.np.value == ApiError(c.np.text))
  {
  }

  /** On its own, "no quota error" says nothing: a failed namespace leaves the quota unattempted
      and reported as fine. */
  lemma NoQuotaErrorWithoutQuota(t: Plan, text: string)
    ensures var r := Provision(map[], t, AllOk.(ns := Err(false, text)));
            r.1.quota.None? && QuotaId(t.name, TenantQuota) !in r.0
  {
  }
}
