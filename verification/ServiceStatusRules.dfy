/** What one InferenceService pass decides from its reads: the four dependency outcomes, the
    status it wants stored, and when that status counts as unchanged. */
module ServiceStatusRules {
  import opened Resources
  import opened Conditions
  import opened ConditionSlices
  import Priority

  /** The capacity envelope: any deterministic answer per model and profile.  The shipped stub
      answers "available" always. */
  type Capacity = (string, ResourceProfile) -> bool

  /** The errors of the four dependency checks. */
  datatype Deps = Deps(
    modelErr: Option<Message>, tenantErr: Option<Message>,
    profileErr: Option<Message>, capacityErr: Option<Message>)
  {
    predicate Ok() {
      modelErr.None? && tenantErr.None? && profileErr.None? && capacityErr.None?
    }
  }

  predicate ModelIsReady(m: Model) {
    IsTrue(m.status.conditions, Ready)
  }

  /** Reconcile, from the reads of Model and Tenant to the four errors. */
  function Assess(cap: Capacity, spec: ServiceSpec, ns: string, model: Option<Model>, tenant: Option<Tenant>): Deps {
    var ready := model.Some? && ModelIsReady(model.value);
    Deps(
      if ready then None else if model.None? then Some(ModelMissing(spec.model)) else Some(ModelUnready(spec.model)),
      if tenant.Some? then None else Some(TenantMissing(ns)),
      if KnownProfile(spec.resourceProfile) then None else Some(ProfileUnknown(spec.resourceProfile)),
      if ready && KnownProfile(spec.resourceProfile) && !cap(spec.model, spec.resourceProfile)
      then Some(NoCapacity(spec.model, spec.resourceProfile)) else None)
  }

  /** Derived priority; it stays zero when the tenant is missing. */
  function DerivedPriority(spec: ServiceSpec, tenant: Option<Tenant>): Int32 {
    if tenant.None? then 0
    else Priority.Calculate(tenant.value.spec.defaultPriority, spec.workloadClass, spec.priority)
  }

  /** The six conditions in the order updateStatus sets them. */
  function DependencyConditions(d: Deps, now: nat): seq<Condition> {
    [Outcome(ModelReady, d.modelErr, ModelVerified, ModelNotReady, now),
     Outcome(TenantResolved, d.tenantErr, TenantFound, TenantNotFound, now),
     Outcome(ResourceProfileResolved, d.profileErr, ProfileFound, ProfileNotFound, now),
     Outcome(CapacityAvailable, d.capacityErr, WithinEnvelope, CapacityUnavailable, now),
     Outcome(Accepted, None, InferenceServiceObserved, NoReason, now),
     Outcome(Ready, if d.Ok() then None else Some(DependenciesUnsatisfied), AllDependenciesResolved,
             DependenciesNotReady, now)]
  }

  function WorkloadCondition(jobErr: Option<Message>, now: nat): Condition {
    Outcome(WorkloadReady, jobErr, JobReconciled, JobError, now)
  }

  function PhaseOf(d: Deps): Phase {
    if d.Ok() then PhaseReady else Pending
  }

  /** The status updateStatus wants stored. */
  function WantedStatus(status: ServiceStatus, generation: nat, d: Deps, prio: Int32, now: nat): ServiceStatus {
    ServiceStatus(UpsertAll(status.conditions, DependencyConditions(d, now)), PhaseOf(d), generation, prio)
  }

  /** updateStatus finds nothing to write. */
  ghost predicate StatusUpToDate(status: ServiceStatus, generation: nat, d: Deps, prio: Int32) {
    && (forall i :: 0 <= i < 6 ==> Holds(status.conditions, DependencyConditions(d, 0)[i]))
    && status.phase == PhaseOf(d)
    && status.derivedPriority == prio
    && status.observedGeneration == generation
  }

  /** The stored status once updateStatus has gone through. */
  ghost function AfterUpdate(status: ServiceStatus, generation: nat, d: Deps, prio: Int32, now: nat): ServiceStatus {
    if StatusUpToDate(status, generation, d, prio) then status else WantedStatus(status, generation, d, prio, now)
  }

  /** updateWorkloadCondition finds nothing to write. */
  ghost predicate WorkloadUpToDate(status: ServiceStatus, jobErr: Option<Message>) {
    Holds(status.conditions, WorkloadCondition(jobErr, 0))
  }

  /** What the checks find wrong, and what they say: the Model counts as ready if the first condition
      of type Ready has status True. */
  lemma AssessTells(cap: Capacity, spec: ServiceSpec, ns: string, model: Option<Model>, tenant: Option<Tenant>)
    ensures var d := Assess(cap, spec, ns, model, tenant);
            var said := if model.Some? then Saying(model.value.status.conditions, Ready) else None;
            var ready := said.Some? && said.value.status == StatusTrue;
            var known := !spec.resourceProfile.OtherProfile?;
            && (d.modelErr.None? <==> ready)
            && (d.modelErr == Some(ModelMissing(spec.model)) <==> model.None?)
            && (d.modelErr == Some(ModelUnready(spec.model)) <==> model.Some? && !ready)
            && d.tenantErr == (if tenant.Some? then None else Some(TenantMissing(ns)))
            && d.profileErr == (if known then None else Some(ProfileUnknown(spec.resourceProfile)))
            && (d.capacityErr.Some? <==> ready && known && !cap(spec.model, spec.resourceProfile))
            && (d.capacityErr.Some? ==> d.capacityErr.value == NoCapacity(spec.model, spec.resourceProfile))
  {
  }

  lemma DependencyConditionsDistinct(d: Deps, now: nat)
    ensures DistinctTypes(DependencyConditions(d, now))
  {
  }

  /** A status that is up to date says what the dependency checks found. */
  lemma UpToDateIsTruthful(status: ServiceStatus, generation: nat, d: Deps, prio: Int32)
    requires StatusUpToDate(status, generation, d, prio)
    ensures IsTrue(status.conditions, ModelReady) <==> d.modelErr.None?
    ensures IsTrue(status.conditions, TenantResolved) <==> d.tenantErr.None?
    ensures IsTrue(status.conditions, ResourceProfileResolved) <==> d.profileErr.None?
    ensures IsTrue(status.conditions, CapacityAvailable) <==> d.capacityErr.None?
    ensures IsTrue(status.conditions, Accepted)
    ensures IsTrue(status.conditions, Ready) <==> d.Ok()
  {
    var zs := DependencyConditions(d, 0);
    assert Holds(status.conditions, zs[0]);
    assert Holds(status.conditions, zs[1]);
    assert Holds(status.conditions, zs[2]);
    assert Holds(status.conditions, zs[3]);
    assert Holds(status.conditions, zs[4]);
    assert Holds(status.conditions, zs[5]);
  }

  /** The comparison in updateStatus decides StatusUpToDate. */
  lemma StatusComparison(status: ServiceStatus, generation: nat, d: Deps, prio: Int32, now: nat)
    ensures var w := WantedStatus(status, generation, d, prio, now);
            (SameMarks(status.conditions, w.conditions) && status.phase == w.phase
             && status.derivedPriority == prio && status.observedGeneration == generation)
            <==> StatusUpToDate(status, generation, d, prio)
  {
    var cs := DependencyConditions(d, now);
    DependencyConditionsDistinct(d, now);
    PositionalComparisonExact(status.conditions, cs);
    TimesDoNotMatter(status.conditions, d, now);
  }

  lemma TimesDoNotMatter(conds: seq<Condition>, d: Deps, now: nat)
    ensures forall i :: 0 <= i < 6 ==>
              (Holds(conds, DependencyConditions(d, now)[i]) <==> Holds(conds, DependencyConditions(d, 0)[i]))
  {
  }

  /** The comparison in updateWorkloadCondition decides WorkloadUpToDate. */
  lemma WorkloadComparison(status: ServiceStatus, jobErr: Option<Message>, now: nat)
    ensures SameMarks(status.conditions, Upsert(status.conditions, WorkloadCondition(jobErr, now)))
            <==> WorkloadUpToDate(status, jobErr)
  {
    var c := WorkloadCondition(jobErr, now);
    assert UpsertAll(status.conditions, [c]) == Upsert(status.conditions, c) by {
      assert [c][1..] == [];
    }
    PositionalComparisonExact(status.conditions, [c]);
  }

  /** After updateStatus has stored its status, it finds nothing more to write. */
  lemma WantedIsUpToDate(status: ServiceStatus, generation: nat, d: Deps, prio: Int32, now: nat)
    ensures StatusUpToDate(WantedStatus(status, generation, d, prio, now), generation, d, prio)
  {
    var cs := DependencyConditions(d, now);
    var r := UpsertAll(status.conditions, cs);
    DependencyConditionsDistinct(d, now);
    forall i | 0 <= i < |cs| ensures Holds(r, cs[i]) {
      UpsertAllCarries(status.conditions, cs, i);
    }
    TimesDoNotMatter(r, d, now);
  }

  /** After updateWorkloadCondition has stored its condition, it finds nothing more to write. */
  lemma WorkloadEstablished(status: ServiceStatus, jobErr: Option<Message>, now: nat)
    ensures WorkloadUpToDate(status.(conditions := Upsert(status.conditions, WorkloadCondition(jobErr, now))), jobErr)
  {
    UpsertCarries(status.conditions, WorkloadCondition(jobErr, now));
  }

  /** updateStatus does not disturb the workload condition ... */
  lemma StatusKeepsWorkload(status: ServiceStatus, d: Deps, e: Option<Message>, now: nat)
    ensures Holds(UpsertAll(status.conditions, DependencyConditions(d, now)), WorkloadCondition(e, 0))
            <==> Holds(status.conditions, WorkloadCondition(e, 0))
  {
    UpsertAllKeepsOthers(status.conditions, DependencyConditions(d, now), WorkloadReady);
  }

  /** ... and updateWorkloadCondition does not disturb the other six. */
  lemma WorkloadKeepsStatus(status: ServiceStatus, generation: nat, d: Deps, prio: Int32, e: Option<Message>, now: nat)
    ensures StatusUpToDate(status.(conditions := Upsert(status.conditions, WorkloadCondition(e, now))), generation, d,
                           prio)
            <==> StatusUpToDate(status, generation, d, prio)
  {
    var w := WorkloadCondition(e, now);
    var zs := DependencyConditions(d, 0);
    forall i | 0 <= i < 6
      ensures Holds(Upsert(status.conditions, w), zs[i]) <==> Holds(status.conditions, zs[i])
    {
      UpsertKeepsFirst(status.conditions, w, zs[i].ctype);
    }
  }
}
