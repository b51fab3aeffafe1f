/** What one completed Reconcile leaves behind, said in terms of the store it ran against. */
module PassMeaning {
  import opened Resources
  import opened Conditions
  import opened ServiceStatusRules
  import opened Workload
  import opened ControlLoop
  import opened WriteBound
  import opened ReconcilePass
  import opened JobSafety
  import opened ServiceSuppression
  import Priority

  lemma PassKeepsTenants(cap: Capacity, st: State, k: Key, c: Calls)
    requires k in st.passes
    ensures var r := RunPass(cap, st, k, c);
            r.store.tenants == st.store.tenants && r.store.models == st.store.models
            && r.store.services.Keys == st.store.services.Keys
    decreases Remaining(st.passes[k])
  {
    StepFrame(cap, st, k, ReplyAt(st.passes[k], c), TimeAt(st.passes[k], c));
    Progress(cap, st, k, c);
    var st' := One(cap, st, k, c);
    if k in st'.passes {
      PassKeepsTenants(cap, st', k, c);
    }
  }

  /** Nothing but status and version of a service is the operator's to change. */
  lemma PassKeepsSpecs(cap: Capacity, st: State, k: Key, c: Calls)
    requires k in st.passes && Alone(cap, st, k) && k in st.store.services && AllDone(c)
    ensures var r := RunPass(cap, st, k, c);
            k in r.store.services && SameButStatus(st.store.services[k], r.store.services[k])
    decreases Remaining(st.passes[k])
  {
    var now := TimeAt(st.passes[k], c);
    AloneGoesOn(cap, st, k, now);
    StepFrame(cap, st, k, Done, now);
    Progress(cap, st, k, c);
    var st' := One(cap, st, k, c);
    StepKeepsSpec(cap, st, k, now);
    if k in st'.passes {
      PassKeepsSpecs(cap, st', k, c);
    }
  }

  lemma StepKeepsSpec(cap: Capacity, st: State, k: Key, now: nat)
    requires k in st.passes && Alone(cap, st, k) && k in st.store.services
    ensures var st' := Advance(cap, st, k, Done, now);
            k in st'.store.services && SameButStatus(st.store.services[k], st'.store.services[k])
  {
    match st.passes[k] {
      case SawTenant(svc, model, tenant) =>
        var d := DepsOf(cap, svc, model, tenant);
        var prio := DerivedPriority(svc.spec, tenant);
        StatusAdvance(cap, st, k, Done, now);
        StatusKeepsSpec(st, k, svc, model, d, StatusUpToDate(svc.status, svc.generation, d, prio),
                        WantedStatus(svc.status, svc.generation, d, prio, now));
      case JobTried(_, _, _) => WorkloadAdvance(cap, st, k, Done, now);
      case p =>
        OtherAdvance(cap, st, k, Done, now);
        AdvanceOtherFrame(st, k, p, Done);
    }
  }

  lemma StatusKeepsSpec(st: State, k: Key, svc: InferenceService, model: Option<Model>, d: Deps, upToDate: bool,
                        wanted: ServiceStatus)
    requires (d.Ok() ==> model.Some?) && Get(st.store.services, k) == Some(svc)
    ensures var st' := AdvanceStatus(st, k, svc, model, d, upToDate, wanted, Done);
            k in st'.store.services && SameButStatus(st.store.services[k], st'.store.services[k])
  {
  }

  // ---------- the Job ----------

  lemma JobsFromStatus(cap: Capacity, st: State, k: Key, svc: InferenceService, model: Option<Model>,
                       tenant: Option<Tenant>, c: Calls)
    requires AllDone(c) && svc.key == k && Get(st.store.services, k) == Some(svc) && st.cache.jobs == st.store.jobs
    ensures var r := FromStatus(cap, st, k, svc, model, tenant, c);
            if DepsOf(cap, svc, model, tenant).Ok() && k !in st.store.jobs
            then k in r.store.jobs
                 && r.store.jobs == st.store.jobs[k := BuildJob(svc, model.value, r.store.jobs[k].version)]
            else r.store.jobs == st.store.jobs
  {
    var d := DepsOf(cap, svc, model, tenant);
    var prio := DerivedPriority(svc.spec, tenant);
    var upToDate := StatusUpToDate(svc.status, svc.generation, d, prio);
    var wanted := WantedStatus(svc.status, svc.generation, d, prio, c.now);
    AdvanceStatusFrame(st, k, svc, model, d, upToDate, wanted, c.updateStatus);
    var st' := AdvanceStatus(st, k, svc, model, d, upToDate, wanted, c.updateStatus);
    if d.Ok() {
      var done := if upToDate then svc else Stored(st, svc, wanted);
      assert k in st'.passes && st'.passes[k] == StatusDone(done, model.value);
      JobsFromJob(st', k, done, model.value, c);
      if k !in st.store.jobs {
        BuildJobIgnoresStatus(svc, done, model.value, st'.clock);
      }
    }
  }

  lemma JobsFromJob(st: State, k: Key, svc: InferenceService, model: Model, c: Calls)
    requires AllDone(c) && svc.key == k && st.cache.jobs == st.store.jobs
    ensures FromJob(st, k, svc, model, c).store.jobs
            == if k in st.store.jobs then st.store.jobs else st.store.jobs[k := BuildJob(svc, model, st.clock)]
  {
    var tried := TryJob(st, k, svc, model, c);
    var jobErr := tried.passes[k].jobErr;
    AdvanceWorkloadFrame(tried, k, svc, jobErr, WorkloadUpToDate(svc.status, jobErr),
                         WantedWorkload(svc.status, jobErr, c.later), c.updateWorkload);
  }

  lemma JobsAfterPass(cap: Capacity, store: Objects, clock: nat, k: Key, c: Calls)
    requires Sound(store, clock) && AllDone(c) && k in store.services
    ensures var svc := store.services[k];
            var model := Get(store.models, ModelKey(svc));
            var r := Reconciled(cap, store, clock, k, c);
            if DepsOf(cap, svc, model, Get(store.tenants, svc.key.ns)).Ok() && k !in store.jobs
            then k in r.store.jobs
                 && r.store.jobs == store.jobs[k := BuildJob(svc, model.value, r.store.jobs[k].version)]
            else r.store.jobs == store.jobs
  {
    var svc := store.services[k];
    var model, tenant := Get(store.models, ModelKey(svc)), Get(store.tenants, svc.key.ns);
    var st := Start(store, store, clock, k);
    RunFromBegun(cap, st, k, svc, c);
    JobsFromStatus(cap, Move(st, k, SawTenant(svc, model, tenant)), k, svc, model, tenant, c);
  }

  // ---------- the status ----------

  /** Everything a service can need of the store is there. */
  predicate CanRun(cap: Capacity, store: Objects, svc: InferenceService) {
    && ModelKey(svc) in store.models && ModelIsReady(store.models[ModelKey(svc)])
    && svc.key.ns in store.tenants
    && KnownProfile(svc.spec.resourceProfile)
    && cap(svc.spec.model, svc.spec.resourceProfile)
  }

  /** The stored status of `svc` is the truth about `store`. */
  ghost predicate Truthful(cap: Capacity, store: Objects, svc: InferenceService, status: ServiceStatus) {
    var modelReady := ModelKey(svc) in store.models && ModelIsReady(store.models[ModelKey(svc)]);
    && (IsTrue(status.conditions, ModelReady) <==> modelReady)
    && (IsTrue(status.conditions, TenantResolved) <==> svc.key.ns in store.tenants)
    && (IsTrue(status.conditions, ResourceProfileResolved) <==> KnownProfile(svc.spec.resourceProfile))
    && (IsTrue(status.conditions, CapacityAvailable) <==>
          (modelReady && KnownProfile(svc.spec.resourceProfile) ==> cap(svc.spec.model, svc.spec.resourceProfile)))
    && IsTrue(status.conditions, Accepted)
    && (IsTrue(status.conditions, Ready) <==> CanRun(cap, store, svc))
    && status.phase == (if CanRun(cap, store, svc) then PhaseReady else Pending)
    && status.observedGeneration == svc.generation
    && status.derivedPriority
       == (if svc.key.ns in store.tenants
           then Priority.Calculate(store.tenants[svc.key.ns].spec.defaultPriority, svc.spec.workloadClass,
                                   svc.spec.priority)
           else 0)
  }

  lemma CurrentMeansTruthful(cap: Capacity, store: Objects, svc: InferenceService, status: ServiceStatus)
    requires StatusUpToDate(status, svc.generation,
                            DepsOf(cap, svc, Get(store.models, ModelKey(svc)), Get(store.tenants, svc.key.ns)),
                            DerivedPriority(svc.spec, Get(store.tenants, svc.key.ns)))
    ensures Truthful(cap, store, svc, status)
  {
    UpToDateIsTruthful(status, svc.generation,
                       DepsOf(cap, svc, Get(store.models, ModelKey(svc)), Get(store.tenants, svc.key.ns)),
                       DerivedPriority(svc.spec, Get(store.tenants, svc.key.ns)));
  }

  /** One completed pass: the stored status is the truth about the store, nothing of the service
      but its status changes, a service that can run has its Job and WorkloadReady=True, and the
      Jobs of the store only gain the one this service was missing. */
  lemma CompletedPassTellsTheTruth(cap: Capacity, store: Objects, clock: nat, k: Key, c: Calls)
    requires Sound(store, clock) && AllDone(c) && k in store.services
    ensures var svc := store.services[k];
            var r := Reconciled(cap, store, clock, k, c);
            && k in r.store.services && SameButStatus(svc, r.store.services[k])
            && Truthful(cap, store, svc, r.store.services[k].status)
            && (CanRun(cap, store, svc) ==> IsTrue(r.store.services[k].status.conditions, WorkloadReady))
            && (if CanRun(cap, store, svc) && k !in store.jobs
                then && k in r.store.jobs
                     && var job := BuildJob(svc, store.models[ModelKey(svc)], r.store.jobs[k].version);
                        r.store.jobs == store.jobs[k := job]
                else r.store.jobs == store.jobs)
  {
    var svc := store.services[k];
    var st := Start(store, store, clock, k);
    StartIsFresh(cap, store, clock, k);
    AlonePassSettles(cap, st, k, c);
    PassKeepsTenants(cap, st, k, c);
    PassKeepsSpecs(cap, st, k, c);
    JobsAfterPass(cap, store, clock, k, c);
    var r := RunPass(cap, st, k, c);
    assert StatusCurrent(cap, r, k) && (Verdict(cap, r, k).Ok() ==> WorkloadTrue(r, k));
    CurrentMeansTruthful(cap, store, svc, r.store.services[k].status);
  }

  /** Whose Job it is.  After a completed pass the Job stored under the service's name belongs to
      the service exactly when it did before the pass or the pass could run and found none. */
  lemma OwnJobExactlyWhen(cap: Capacity, store: Objects, clock: nat, k: Key, c: Calls)
    requires Sound(store, clock) && AllDone(c) && k in store.services
    ensures var svc := store.services[k];
            var r := Reconciled(cap, store, clock, k, c);
            k in r.store.jobs && r.store.jobs[k].owner.uid == svc.uid
            <==> if k in store.jobs then store.jobs[k].owner.uid == svc.uid else CanRun(cap, store, svc)
    ensures var svc := store.services[k];
            var r := Reconciled(cap, store, clock, k, c);
            CanRun(cap, store, svc) ==>
              && k in r.store.jobs
              && k in r.store.services && IsTrue(r.store.services[k].status.conditions, WorkloadReady)
              && (r.store.jobs[k].owner.uid == svc.uid
                  <==> (k !in store.jobs || store.jobs[k].owner.uid == svc.uid))
  {
    CompletedPassTellsTheTruth(cap, store, clock, k, c);
  }

  // ---------- WorkloadReady ----------

  /** What a completed pass does to WorkloadReady: it is True afterwards exactly when the service can
      run or it was True before; and it then stands for a stored Job exactly when the service can
      run, the Job was there before, or WorkloadReady was not True. */
  lemma WorkloadReadyExactlyWhen(cap: Capacity, store: Objects, clock: nat, k: Key, c: Calls)
    requires Sound(store, clock) && AllDone(c) && k in store.services
    ensures var svc := store.services[k];
            var r := Reconciled(cap, store, clock, k, c);
            && k in r.store.services
            && var before, after := svc.status.conditions, r.store.services[k].status.conditions;
            && (IsTrue(after, WorkloadReady) <==> CanRun(cap, store, svc) || IsTrue(before, WorkloadReady))
            && ((IsTrue(after, WorkloadReady) ==> k in r.store.jobs)
                <==> CanRun(cap, store, svc) || k in store.jobs || !IsTrue(before, WorkloadReady))
  {
    var svc := store.services[k];
    CompletedPassTellsTheTruth(cap, store, clock, k, c);
    if !CanRun(cap, store, svc) {
      UnrunnableKeepsWorkload(cap, store, clock, k, c);
    }
  }

  /** A pass that finds a dependency missing leaves what the status says of the workload. */
  lemma UnrunnableKeepsWorkload(cap: Capacity, store: Objects, clock: nat, k: Key, c: Calls)
    requires Sound(store, clock) && AllDone(c) && k in store.services && !CanRun(cap, store, store.services[k])
    ensures var r := Reconciled(cap, store, clock, k, c);
            && k in r.store.services
            && Saying(r.store.services[k].status.conditions, WorkloadReady)
               == Saying(store.services[k].status.conditions, WorkloadReady)
  {
    var svc := store.services[k];
    var model, tenant := Get(store.models, ModelKey(svc)), Get(store.tenants, svc.key.ns);
    var d := DepsOf(cap, svc, model, tenant);
    assert !d.Ok();
    var st := Start(store, store, clock, k);
    RunFromBegun(cap, st, k, svc, c);
    var prio := DerivedPriority(svc.spec, tenant);
    var wanted := WantedStatus(svc.status, svc.generation, d, prio, c.now);
    var upToDate := StatusUpToDate(svc.status, svc.generation, d, prio);
    FirstWriteSuppresses(Move(st, k, SawTenant(svc, model, tenant)), k, svc, model, d, upToDate, wanted,
                         c.updateStatus);
    UpsertAllKeepsOthers(svc.status.conditions, DependencyConditions(d, c.now), WorkloadReady);
  }
}
