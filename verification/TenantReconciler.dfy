/** TenantReconciler as the operator runs it: create-or-update closures that edit labels and
    content, early exits, and the status written last. */
module TenantReconciler {
  import opened Resources
  import opened Conditions
  import opened ConditionSlices
  import opened StatusWriter
  import opened TenantObjects
  import opened TenantProvisioning
  import opened TenantStatusRules

  /** The *Tenant a pass works on. */
  class TenantObject {
    const name: string
    const spec: TenantSpec
    var conditions: Slice
    var phase: Phase

    constructor (t: Tenant)
      ensures name == t.name && spec == t.spec
      ensures conditions.Valid() && fresh(conditions.backing) && Status() == Record(t.status.conditions, t.status.phase)
    {
      name, spec, phase := t.name, t.spec, t.status.phase;
      var conds := t.status.conditions;
      var backing := new Condition[|conds|](i requires 0 <= i < |conds| => conds[i]);
      assert backing[..] == conds;
      conditions := Slice(backing, |conds|);
      new;
      assert conditions.View() == conds;
    }

    ghost function Status(): Record<Phase>
      requires conditions.Valid()
      reads this, conditions.backing
    {
      Record(conditions.View(), phase)
    }
  }

  /** The cluster as this controller sees it: child objects and the stored Tenant status. */
  class Cluster {
    var objects: Store
    var stored: Record<Phase>

    /** The closure of one child run by CreateOrUpdate. */
    method Ensure(t: Plan, id: ObjId, call: Call) returns (err: Option<Message>)
      modifies this`objects
      ensures objects == CreateOrUpdate(old(objects), t, id, call)
      ensures err == ErrorOf(call)
    {
      if Writes(call) {
        var labels: Labels := map[];
        var untouched := "";
        if id in objects {
          labels := objects[id].labels;
          untouched := UntouchedOf(Some(objects[id]));
        }
        labels := labels[TenantLabel := t.name];
        var body;
        match id {
          case NamespaceId(_) =>
            labels := labels[PodSecurityEnforce := "restricted"];
            labels := labels[PodSecurityAudit := "restricted"];
            labels := labels[PodSecurityWarn := "restricted"];
            body := PlainBody(untouched);
          case QuotaId(_, _) => body := QuotaBody(if t.hard.Some? then t.hard.value else map[], untouched);
          case ServiceAccountId(_, _) => body := PlainBody(untouched);
          case RoleId(_, _) => body := RoleBody(WorkloadRules);
          case RoleBindingId(_, _) =>
            body := BindingBody(RoleRef(false, TenantWorkloadRole), [ServiceAccountSubject(t.name, TenantWorkload)]);
          case NetworkPolicyId(_, _) => body := PolicyBody(IsolationPolicy(t.name));
        }
        objects := objects[id := Object(labels, body)];
      }
      err := if call.Ok? then None else Some(ApiError(call.text));
    }
  }

  /** The five resource conditions on the copied slice. */
  method SetResources(s: Slice, ghost base: seq<Condition>, e: Errors, now: nat) returns (r: Slice)
    requires s.Valid() && s.View() == base
    modifies s.backing
    ensures r.Valid() && (r.backing == s.backing || fresh(r.backing))
    ensures r.View() == UpsertFirst(base, TenantConditions(e, now), 5)
  {
    ghost var cs := TenantConditions(e, now);
    r := SetCond(s, base, cs, 0, NamespaceReady, e.ns, NamespaceReconciled, NamespaceError, now);
    r := SetCond(r, base, cs, 1, QuotaApplied, e.quota, QuotaReconciled, QuotaError, now);
    r := SetCond(r, base, cs, 2, ServiceAccountReady, e.sa, ServiceAccountReconciled, ServiceAccountError, now);
    r := SetCond(r, base, cs, 3, RBACReady, e.rbac, RBACReconciled, RBACError, now);
    r := SetCond(r, base, cs, 4, NetworkPolicyReady, e.np, NetworkPolicyReconciled, NetworkPolicyError, now);
  }

  method NewConditions(current: Slice, e: Errors, now: nat) returns (r: Slice)
    requires current.Valid()
    ensures r.Valid() && fresh(r.backing)
    ensures r.View() == UpsertAll(current.View(), TenantConditions(e, now))
  {
    ghost var base := current.View();
    ghost var cs := TenantConditions(e, now);
    r := Copied(current);
    r := SetResources(r, base, e, now);
    var ready := e.ns.None? && e.quota.None? && e.sa.None? && e.rbac.None? && e.np.None?;
    r := SetCond(r, base, cs, 5, Accepted, None, TenantObserved, NoReason, now);
    var readyErr := if ready then None else Some(ResourcesUnreconciled);
    r := SetCond(r, base, cs, 6, Ready, readyErr, AllResourcesReconciled, ResourcesNotReady, now);
    UpsertFirstIsAll(base, cs);
  }

  /** updateStatus: an attempt of the suppressing status writer. */
  method UpdateStatus(cluster: Cluster, t: TenantObject, e: Errors, call: Call, now: nat) returns (ok: bool)
    requires t.conditions.Valid() && t.Status() == cluster.stored
    modifies t, cluster`stored
    ensures cluster.stored == Suppressing(old(cluster.stored), TenantAttempt(e, now, Writes(call)))
    ensures ok <==> call.Ok? || !Issues(old(cluster.stored), TenantAttempt(e, now, Writes(call)))
  {
    var newConditions := NewConditions(t.conditions, e, now);
    var newPhase := if e.Empty() then PhaseReady else Pending;
    var same := StatusUnchanged(t.conditions, newConditions);
    if same && t.phase == newPhase {
      return true;
    }
    t.conditions := newConditions;
    t.phase := newPhase;
    if Writes(call) {
      cluster.stored := Record(newConditions.backing[..newConditions.len], newPhase);
    }
    ok := call.Ok?;
  }

  /** reconcileRBAC: the binding is attempted only once the role is there. */
  method ReconcileRbac(cluster: Cluster, plan: Plan, c: Calls) returns (err: Option<Message>)
    modifies cluster`objects
    ensures var s2 := CreateOrUpdate(old(cluster.objects), plan, RoleId(plan.name, TenantWorkloadRole), c.role);
            cluster.objects
            == if c.role.Ok?
               then CreateOrUpdate(s2, plan, RoleBindingId(plan.name, TenantWorkloadBinding), c.binding) else s2
    ensures err == if c.role.Ok? then ErrorOf(c.binding) else ErrorOf(c.role)
  {
    err := cluster.Ensure(plan, RoleId(plan.name, TenantWorkloadRole), c.role);
    if err.Some? {
      return;
    }
    err := cluster.Ensure(plan, RoleBindingId(plan.name, TenantWorkloadBinding), c.binding);
  }

  /** Reconcile: the children end up as Provision says, the status attempt carries exactly its
      errors, and an error is returned exactly when there was one or a status write that was
      needed failed. */
  method Reconcile(parse: Parser, cluster: Cluster, t: TenantObject, c: Calls, statusCall: Call, now: nat)
    returns (err: bool)
    requires t.conditions.Valid() && t.Status() == cluster.stored
    modifies cluster, t
    ensures var (objects, errors) := Provision(old(cluster.objects), Plan(t.name, HardLimits(parse, t.spec.quota)), c);
            && cluster.objects == objects
            && cluster.stored == Suppressing(old(cluster.stored), TenantAttempt(errors, now, Writes(statusCall)))
            && (err <==> !errors.Empty()
                         || (Issues(old(cluster.stored), TenantAttempt(errors, now, Writes(statusCall)))
                             && !statusCall.Ok?))
  {
    var hard := BuildQuotaResourceList(parse, t.spec.quota);
    var plan := Plan(t.name, hard);
    var nsErr := cluster.Ensure(plan, NamespaceId(plan.name), c.ns);
    if nsErr.Some? {
      var _ := UpdateStatus(cluster, t, NoErrors.(ns := nsErr), statusCall, now);
      return true;
    }
    if hard.None? {
      var _ := UpdateStatus(cluster, t, NoErrors.(quota := Some(ApiError("invalid resource quota"))), statusCall, now);
      return true;
    }
    var quotaErr := cluster.Ensure(plan, QuotaId(plan.name, TenantQuota), c.quota);
    if quotaErr.Some? {
      var _ := UpdateStatus(cluster, t, NoErrors.(quota := quotaErr), statusCall, now);
      return true;
    }
    var saErr := cluster.Ensure(plan, ServiceAccountId(plan.name, TenantWorkload), c.sa);
    var rbacErr := ReconcileRbac(cluster, plan, c);
    var npErr := cluster.Ensure(plan, NetworkPolicyId(plan.name, TenantIsolation), c.np);
    var ok := UpdateStatus(cluster, t, NoErrors.(sa := saErr, rbac := rbacErr, np := npErr), statusCall, now);
    err := !ok || saErr.Some? || rbacErr.Some? || npErr.Some?;
  }
}
