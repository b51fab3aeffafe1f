/** Tenant status: the seven conditions, their shape over all runs, and what they can be
    trusted for. */
module TenantStatusRules {
  import opened Resources
  import opened Conditions
  import opened ConditionSlices
  import opened StatusShape
  import opened StatusWriter
  import opened TenantObjects
  import opened TenantProvisioning

  function TenantConditions(e: Errors, now: nat): seq<Condition> {
    [Outcome(NamespaceReady, e.ns, NamespaceReconciled, NamespaceError, now),
     Outcome(QuotaApplied, e.quota, QuotaReconciled, QuotaError, now),
     Outcome(ServiceAccountReady, e.sa, ServiceAccountReconciled, ServiceAccountError, now),
     Outcome(RBACReady, e.rbac, RBACReconciled, RBACError, now),
     Outcome(NetworkPolicyReady, e.np, NetworkPolicyReconciled, NetworkPolicyError, now),
     Outcome(Accepted, None, TenantObserved, NoReason, now),
     Outcome(Ready, if e.Empty() then None else Some(ResourcesUnreconciled), AllResourcesReconciled, ResourcesNotReady,
             now)]
  }

  function TenantPhase(e: Errors): Phase {
    if e.Empty() then PhaseReady else Pending
  }

  /** One updateStatus of a Tenant as an attempt of the status writer. */
  function TenantAttempt(e: Errors, now: nat, delivered: bool): Attempt<Phase> {
    Attempt(TenantConditions(e, now), Some(TenantPhase(e)), delivered)
  }

  lemma TenantConditionsDistinct(e: Errors, now: nat)
    ensures DistinctTypes(TenantConditions(e, now))
  {
  }

  ghost predicate TenantShaped(s: Record<Phase>) {
    WellShaped(TenantKind, s.conditions, s.rest, TenantTypes, 5, None)
  }

  lemma TenantUpdateIsFull(e: Errors, now: nat)
    ensures FullUpdate(TenantKind, TenantConditions(e, now), TenantPhase(e), TenantTypes, 5)
  {
    TenantConditionsDistinct(e, now);
    TenantConditionsLawful(e, now);
    TenantConditionsSummarised(e, now);
    TenantConditionsTyped(e, now);
  }

  lemma TenantConditionsTyped(e: Errors, now: nat)
    ensures |TenantConditions(e, now)| == |TenantTypes|
    ensures forall i :: 0 <= i < |TenantTypes| ==> TenantConditions(e, now)[i].ctype == TenantTypes[i]
  {
  }

  lemma TenantConditionsLawful(e: Errors, now: nat)
    ensures AllLawful(TenantKind, TenantConditions(e, now))
  {
  }

  lemma TenantConditionsSummarised(e: Errors, now: nat)
    ensures Summarised(TenantConditions(e, now), 5, 6, TenantPhase(e))
  {
    var cs := TenantConditions(e, now);
    if !e.Empty() {
      assert cs[0].status != StatusTrue || cs[1].status != StatusTrue || cs[2].status != StatusTrue
             || cs[3].status != StatusTrue || cs[4].status != StatusTrue;
    }
  }

  ghost predicate FromTenant(a: Attempt<Phase>) {
    exists e, now :: a == TenantAttempt(e, now, a.delivered)
  }

  /** After any sequence of updates from an empty status, the stored Tenant status is empty or
      the seven types in code order, lawful, with Ready, the five resource conditions and the
      phase in agreement. */
  lemma {:induction false} TenantStatusStaysShaped(s: Record<Phase>, atts: seq<Attempt<Phase>>)
    requires TenantShaped(s) && forall i :: 0 <= i < |atts| ==> FromTenant(atts[i])
    ensures TenantShaped(RunSuppressing(s, atts))
    decreases atts
  {
    if atts != [] {
      assert FromTenant(atts[0]);
      var e, now :| atts[0] == TenantAttempt(e, now, atts[0].delivered);
      TenantUpdateIsFull(e, now);
      UpdateKeepsShape(TenantKind, s.conditions, s.rest, TenantTypes, 5, None, TenantConditions(e, now),
                       TenantPhase(e));
      TenantStatusStaysShaped(Suppressing(s, atts[0]), atts[1..]);
    }
  }

  /** Error texts do not matter. */
  predicate SameErrors(e: Errors, f: Errors) {
    && e.ns.None? == f.ns.None? && e.quota.None? == f.quota.None? && e.sa.None? == f.sa.None?
    && e.rbac.None? == f.rbac.None? && e.np.None? == f.np.None?
  }

  datatype TenantInput = TenantInput(errors: Errors, now: nat, delivered: bool)

  function TenantAttempts(inputs: seq<TenantInput>): seq<Attempt<Phase>> {
    seq(|inputs|, i requires 0 <= i < |inputs| => TenantAttempt(inputs[i].errors, inputs[i].now, inputs[i].delivered))
  }

  /** The same passes up to error texts. */
  ghost predicate SameInputs(xs: seq<TenantInput>, ys: seq<TenantInput>) {
    |xs| == |ys| && forall i :: 0 <= i < |xs| ==>
      SameErrors(xs[i].errors, ys[i].errors) && xs[i].now == ys[i].now && xs[i].delivered == ys[i].delivered
  }

  lemma TenantConditionTwins(e: Errors, f: Errors, now: nat)
    requires SameErrors(e, f)
    ensures SameButMessage(TenantConditions(e, now), TenantConditions(f, now))
  {
  }

  lemma TenantInputsAreTwins(xs: seq<TenantInput>, ys: seq<TenantInput>)
    requires SameInputs(xs, ys)
    ensures TwinInputs(TenantAttempts(xs), TenantAttempts(ys))
  {
    forall i | 0 <= i < |xs| ensures TwinAttempts(TenantAttempts(xs)[i], TenantAttempts(ys)[i]) {
      TenantConditionTwins(xs[i].errors, ys[i].errors, xs[i].now);
      TenantConditionsDistinct(xs[i].errors, xs[i].now);
    }
  }

  /** The Tenant controller refines its always-writing variant over any sequence of passes, even
      one whose error texts differ. */
  lemma TenantSuppressionRefines(s: Record<Phase>, t: Record<Phase>, xs: seq<TenantInput>, ys: seq<TenantInput>)
    requires Twins(s, t) && SameInputs(xs, ys)
    ensures Twins(RunSuppressing(s, TenantAttempts(xs)), RunAlways(t, TenantAttempts(ys)))
  {
    TenantInputsAreTwins(xs, ys);
    Lockstep(s, t, TenantAttempts(xs), TenantAttempts(ys));
  }

  /** ... and the n-th pass writes exactly when the always-writer's status would change beyond its
      messages. */
  lemma TenantWritesExactlyOnChange(s: Record<Phase>, t: Record<Phase>, xs: seq<TenantInput>, ys: seq<TenantInput>,
                                    n: nat)
    requires Twins(s, t) && SameInputs(xs, ys) && n < |xs|
    ensures var before := RunAlways(t, TenantAttempts(ys)[..n]);
            Issues(RunSuppressing(s, TenantAttempts(xs)[..n]), TenantAttempts(xs)[n])
            <==> !Twins(before, Wanted(before, TenantAttempts(ys)[n]))
  {
    TenantInputsAreTwins(xs, ys);
    WritesExactlyOnChange(s, t, TenantAttempts(xs), TenantAttempts(ys), n);
  }

  // ---------- what a stored Tenant status can be trusted for ----------

  /** Each condition tells its own error: once an update has gone through, it is True exactly when
      that error is absent, Accepted always, and Ready and the phase when all are. */
  lemma ConditionsTellTheirErrors(s: Record<Phase>, e: Errors, now: nat)
    ensures var stored := Suppressing(s, TenantAttempt(e, now, true));
            && (IsTrue(stored.conditions, NamespaceReady) <==> e.ns.None?)
            && (IsTrue(stored.conditions, QuotaApplied) <==> e.quota.None?)
            && (IsTrue(stored.conditions, ServiceAccountReady) <==> e.sa.None?)
            && (IsTrue(stored.conditions, RBACReady) <==> e.rbac.None?)
            && (IsTrue(stored.conditions, NetworkPolicyReady) <==> e.np.None?)
            && IsTrue(stored.conditions, Accepted)
            && (IsTrue(stored.conditions, Ready) <==> e.Empty())
            && stored.rest == (if e.Empty() then PhaseReady else Pending)
  {
    var cs := TenantConditions(e, now);
    TenantConditionsDistinct(e, now);
    UpdateHolds(s, TenantAttempt(e, now, true));
    var stored := Suppressing(s, TenantAttempt(e, now, true));
    assert Holds(stored.conditions, cs[0]) && Holds(stored.conditions, cs[1]) && Holds(stored.conditions, cs[2]);
    assert Holds(stored.conditions, cs[3]) && Holds(stored.conditions, cs[4]);
    assert Holds(stored.conditions, cs[5]) && Holds(stored.conditions, cs[6]);
  }

  /** Each of the seven messages is that of its own error. */
  ghost predicate TellsErrors(conds: seq<Condition>, e: Errors) {
    && TellsError(conds, NamespaceReady, e.ns)
    && TellsError(conds, QuotaApplied, e.quota)
    && TellsError(conds, ServiceAccountReady, e.sa)
    && TellsError(conds, RBACReady, e.rbac)
    && TellsError(conds, NetworkPolicyReady, e.np)
    && TellsError(conds, Accepted, None)
    && TellsError(conds, Ready, if e.Empty() then None else Some(ResourcesUnreconciled))
  }

  ghost predicate TellsError(conds: seq<Condition>, t: CondType, err: Option<Message>) {
    SaysMessage(conds, t, if err.Some? then err.value else NoMessage)
  }

  /** Once an update has gone through, the messages tell the errors exactly when the status had to
      be written or they did so before. */
  lemma MessagesTellTheirErrorsExactlyWhen(s: Record<Phase>, e: Errors, now: nat)
    ensures var a := TenantAttempt(e, now, true);
            TellsErrors(Suppressing(s, a).conditions, e) <==> Issues(s, a) || TellsErrors(s.conditions, e)
  {
    var a := TenantAttempt(e, now, true);
    if Issues(s, a) {
      TenantConditionsDistinct(e, now);
      forall i | 0 <= i < 7 ensures CarriedAt(Wanted(s, a).conditions, a.upserts, i) {
        UpsertAllCarries(s.conditions, a.upserts, i);
      }
      CarriedTells(Wanted(s, a).conditions, e, now);
    }
  }

  lemma CarriedTells(conds: seq<Condition>, e: Errors, now: nat)
    requires forall i :: 0 <= i < 7 ==> CarriedAt(conds, TenantConditions(e, now), i)
    ensures TellsErrors(conds, e)
  {
    var cs := TenantConditions(e, now);
    CarriedSays(conds, cs, 0);
    CarriedSays(conds, cs, 1);
    CarriedSays(conds, cs, 2);
    CarriedSays(conds, cs, 3);
    CarriedSays(conds, cs, 4);
    CarriedSays(conds, cs, 5);
    CarriedSays(conds, cs, 6);
  }

  /** Whether a pass gets past its two fail-fast stages. */
  predicate GetsToWorkload(plan: Plan, c: Calls) {
    c.ns.Ok? && plan.hard.Some? && c.quota.Ok?
  }

  /** The status in terms of the calls of the pass: a stage that is not reached reports True, any
      other one exactly whether its calls went through. */
  lemma StatusTellsTheCalls(store: Store, plan: Plan, c: Calls, s: Record<Phase>, now: nat)
    ensures var stored := Suppressing(s, TenantAttempt(Provision(store, plan, c).1, now, true));
            && (IsTrue(stored.conditions, NamespaceReady) <==> c.ns.Ok?)
            && (IsTrue(stored.conditions, QuotaApplied) <==> (c.ns.Ok? ==> plan.hard.Some? && c.quota.Ok?))
            && (IsTrue(stored.conditions, ServiceAccountReady) <==> (GetsToWorkload(plan, c) ==> c.sa.Ok?))
            && (IsTrue(stored.conditions, RBACReady) <==> (GetsToWorkload(plan, c) ==> c.role.Ok? && c.binding.Ok?))
            && (IsTrue(stored.conditions, NetworkPolicyReady) <==> (GetsToWorkload(plan, c) ==> c.np.Ok?))
            && (IsTrue(stored.conditions, Ready) <==> plan.hard.Some? && c == AllOk)
            && (stored.rest == PhaseReady <==> plan.hard.Some? && c == AllOk)
  {
    var e := Provision(store, plan, c).1;
    ConditionsTellTheirErrors(s, e, now);
    ErrorsAreExact(store, plan, c);
    SuccessfulPass(store, plan, c);
  }

  /** What the three conditions of the workload stage are worth: True implies that the object is
      there exactly when the pass got to the stage or the object was there before. */
  lemma WorkloadConditionsExactlyWhen(store: Store, plan: Plan, c: Calls, s: Record<Phase>, now: nat)
    ensures var store' := Provision(store, plan, c).0;
            var stored := Suppressing(s, TenantAttempt(Provision(store, plan, c).1, now, true)).conditions;
            var sa, np := ServiceAccountId(plan.name, TenantWorkload), NetworkPolicyId(plan.name, TenantIsolation);
            var role, binding := RoleId(plan.name, TenantWorkloadRole), RoleBindingId(plan.name, TenantWorkloadBinding);
            var reached := GetsToWorkload(plan, c);
            && ((IsTrue(stored, ServiceAccountReady) ==> sa in store') <==> reached || sa in store)
            && ((IsTrue(stored, RBACReady) ==> role in store' && binding in store')
                <==> reached || (role in store && binding in store))
            && ((IsTrue(stored, NetworkPolicyReady) ==> np in store') <==> reached || np in store)
  {
    StatusTellsTheCalls(store, plan, c, s, now);
    var (store', e) := Provision(store, plan, c);
    forall id ensures id in store' <==> Reaches(plan, c, id) || id in store {
      ProvisionAt(store, plan, c, id);
    }
    WorthOfReached(store, store', plan, c, Suppressing(s, TenantAttempt(e, now, true)).conditions);
  }

  lemma WorthOfReached(store: Store, store': Store, plan: Plan, c: Calls, stored: seq<Condition>)
    requires forall id :: id in store' <==> Reaches(plan, c, id) || id in store
    requires IsTrue(stored, ServiceAccountReady) <==> (GetsToWorkload(plan, c) ==> c.sa.Ok?)
    requires IsTrue(stored, RBACReady) <==> (GetsToWorkload(plan, c) ==> c.role.Ok? && c.binding.Ok?)
    requires IsTrue(stored, NetworkPolicyReady) <==> (GetsToWorkload(plan, c) ==> c.np.Ok?)
    ensures var sa, np := ServiceAccountId(plan.name, TenantWorkload), NetworkPolicyId(plan.name, TenantIsolation);
            var role, binding := RoleId(plan.name, TenantWorkloadRole), RoleBindingId(plan.name, TenantWorkloadBinding);
            var reached := GetsToWorkload(plan, c);
            && ((IsTrue(stored, ServiceAccountReady) ==> sa in store') <==> reached || sa in store)
            && ((IsTrue(stored, RBACReady) ==> role in store' && binding in store')
                <==> reached || (role in store && binding in store))
            && ((IsTrue(stored, NetworkPolicyReady) ==> np in store') <==> reached || np in store)
  {
  }

  /** So a tenant without any isolation can report NetworkPolicyReady=True: its namespace failed. */
  lemma NetworkPolicyReadyWithoutPolicy(plan: Plan, text: string, now: nat)
    ensures var c := AllOk.(ns := Err(false, text));
            var stored := Suppressing(Record([], NoPhase), TenantAttempt(Provision(map[], plan, c).1, now, true));
            && IsTrue(stored.conditions, NetworkPolicyReady)
            && NetworkPolicyId(plan.name, TenantIsolation) !in Provision(map[], plan, c).0
  {
    StatusTellsTheCalls(map[], plan, AllOk.(ns := Err(false, text)), Record([], NoPhase), now);
    WorkloadConditionsExactlyWhen(map[], plan, AllOk.(ns := Err(false, text)), Record([], NoPhase), now);
  }

  /** A Ready Tenant has exactly the quota its spec asks for. */
  lemma ReadyTenantHasItsQuota(parse: Parser, store: Store, name: string, q: QuotaSpec, c: Calls, s: Record<Phase>,
                               now: nat)
    ensures var plan := Plan(name, HardLimits(parse, q));
            var (store', e) := Provision(store, plan, c);
            var quota := Get(store', QuotaId(name, TenantQuota));
            IsTrue(Suppressing(s, TenantAttempt(e, now, true)).conditions, Ready) ==>
              && quota.Some? && quota.value.body.QuotaBody?
              && var hard := quota.value.body.hard;
              && parse(q.cpu).Some? && parse(q.memory).Some? && parse(q.gpu).Some?
              && Get(hard, QuotaCpu) == parse(q.cpu)
              && Get(hard, QuotaMemory) == parse(q.memory)
              && Get(hard, QuotaGpu) == parse(q.gpu)
              && Get(hard, QuotaPods) == (if q.pods != "" then parse(q.pods) else None)
              && Get(hard, QuotaJobs) == (if q.jobs != "" then parse(q.jobs) else None)
              && forall r :: r in hard ==> !r.OtherQuota?
  {
    var plan := Plan(name, HardLimits(parse, q));
    StatusTellsTheCalls(store, plan, c, s, now);
    LimitsAre(parse, q);
    if plan.hard.Some? && c == AllOk {
      SuccessfulPassContent(store, plan);
    }
  }

  /** Right after a pass whose status was stored, each condition is exact in context: quota was
      applied when NamespaceReady and QuotaApplied are both True, and a Ready Tenant has all six
      children as desired. */
  lemma TenantReadyMeansProvisioned(store: Store, plan: Plan, c: Calls, s: Record<Phase>, now: nat)
    ensures var (store', e) := Provision(store, plan, c);
            var w := Wanted(s, TenantAttempt(e, now, true));
            && (IsTrue(w.conditions, NamespaceReady) && IsTrue(w.conditions, QuotaApplied)
                <==> c.ns.Ok? && plan.hard.Some? && c.quota.Ok?)
            && (IsTrue(w.conditions, Ready) <==> plan.hard.Some? && c == AllOk)
            && (IsTrue(w.conditions, Ready) <==> w.rest == PhaseReady)
            && (IsTrue(w.conditions, Ready) ==>
                  forall id :: id in Children(plan.name) ==> Get(store', id) == Some(Desired(plan, id, Get(store, id))))
  {
    var (store', e) := Provision(store, plan, c);
    ErrorsAreExact(store, plan, c);
    SuccessfulPass(store, plan, c);
    var cs := TenantConditions(e, now);
    TenantConditionsDistinct(e, now);
    forall i | 0 <= i < 7 ensures IsTrue(UpsertAll(s.conditions, cs), cs[i].ctype) <==> cs[i].status == StatusTrue {
      UpsertAllCarries(s.conditions, cs, i);
    }
    assert cs[0].ctype == NamespaceReady && cs[1].ctype == QuotaApplied && cs[6].ctype == Ready;
    forall id | id in Children(plan.name) && plan.hard.Some? && c == AllOk
      ensures Get(store', id) == Some(Desired(plan, id, Get(store, id)))
    {
      ProvisionAt(store, plan, c, id);
    }
  }

  /** What QuotaApplied=True is worth.  After a pass whose status update went through, it implies
      that the quota exists exactly when the namespace call succeeded or the quota was there
      before, and that the quota is as desired exactly when the namespace call succeeded or it
      was as desired before. */
  lemma QuotaAppliedExactlyWhen(store: Store, plan: Plan, c: Calls, s: Record<Phase>, now: nat)
    ensures var (store', e) := Provision(store, plan, c);
            var stored := Suppressing(s, TenantAttempt(e, now, true));
            var quota := QuotaId(plan.name, TenantQuota);
            var desired := Some(Desired(plan, quota, Get(store, quota)));
            && ((IsTrue(stored.conditions, QuotaApplied) ==> quota in store') <==> c.ns.Ok? || quota in store)
            && ((IsTrue(stored.conditions, QuotaApplied) ==> Get(store', quota) == desired)
                <==> c.ns.Ok? || Get(store, quota) == desired)
  {
    var (store', e) := Provision(store, plan, c);
    var cs := TenantConditions(e, now);
    TenantConditionsDistinct(e, now);
    UpdateHolds(s, TenantAttempt(e, now, true));
    assert cs[1].ctype == QuotaApplied && Holds(Suppressing(s, TenantAttempt(e, now, true)).conditions, cs[1]);
    QuotaAfterPass(store, plan, c);
  }

  lemma QuotaAfterPass(store: Store, plan: Plan, c: Calls)
    ensures var (store', e) := Provision(store, plan, c);
            var quota := QuotaId(plan.name, TenantQuota);
            && (c.ns.Err? ==> e.quota.None? && Get(store', quota) == Get(store, quota))
            && (c.ns.Ok? && e.quota.None? ==> Get(store', quota) == Some(Desired(plan, quota, Get(store, quota))))
  {
    ProvisionAt(store, plan, c, QuotaId(plan.name, TenantQuota));
  }

  /** QuotaApplied=True alone proves nothing: when the namespace fails on an empty store, the
      stored status says QuotaApplied=True and there is no quota. */
  lemma QuotaAppliedWithoutQuota(plan: Plan, text: string, now: nat)
    ensures var (store', e) := Provision(map[], plan, AllOk.(ns := Err(false, text)));
            var w := Wanted(Record([], NoPhase), TenantAttempt(e, now, true));
            IsTrue(w.conditions, QuotaApplied) && !IsTrue(w.conditions, NamespaceReady)
                && QuotaId(plan.name, TenantQuota) !in store'
  {
    var e := Provision(map[], plan, AllOk.(ns := Err(false, text))).1;
    var cs := TenantConditions(e, now);
    TenantConditionsDistinct(e, now);
    UpsertAllCarries([], cs, 0);
    UpsertAllCarries([], cs, 1);
  }
}
