/** InferenceServiceReconciler as the operator runs it: an in-memory object whose condition
    slice is copied and rewritten, and API calls against the cluster, in program order.  Each
    method is proved against the pass of the control loop. */
module ServiceReconciler {
  import opened Resources
  import opened Conditions
  import opened ConditionSlices
  import opened ServiceStatusRules
  import opened Workload
  import opened ControlLoop
  import opened ReconcilePass

  /** The *InferenceService a pass works on. */
  class ServiceObject {
    const key: Key
    const uid: nat
    const generation: nat
    const spec: ServiceSpec
    var version: nat
    var conditions: Slice
    var phase: Phase
    var observedGeneration: nat
    var derivedPriority: Int32

    ghost predicate Valid()
      reads this
    {
      conditions.Valid()
    }

    ghost function Status(): ServiceStatus
      requires Valid()
      reads this, conditions.backing
    {
      ServiceStatus(conditions.View(), phase, observedGeneration, derivedPriority)
    }

    ghost function Value(): InferenceService
      requires Valid()
      reads this, conditions.backing
    {
      InferenceService(key, uid, version, generation, spec, Status())
    }

    /** The object a Get decodes into. */
    constructor (svc: InferenceService)
      ensures Valid() && Value() == svc && fresh(conditions.backing)
    {
      key, uid, generation, spec := svc.key, svc.uid, svc.generation, svc.spec;
      version := svc.version;
      var conds := svc.status.conditions;
      var backing := new Condition[|conds|](i requires 0 <= i < |conds| => conds[i]);
      assert backing[..] == conds;
      conditions := Slice(backing, |conds|);
      phase, derivedPriority := svc.status.phase, svc.status.derivedPriority;
      observedGeneration := svc.status.observedGeneration;
      new;
      assert conditions.View() == conds;
    }
  }

  /** The cluster behind the client: writes go to the store, reads come from the cache. */
  class Cluster {
    var store: Objects
    var cache: Objects
    var clock: nat

    /** The control loop's view while a pass on `k` stands at `p`. */
    ghost function At(k: Key, p: Pass): State
      reads this
    {
      State(store, cache, {}, {}, map[k := p], clock)
    }

    /** Status().Update: stores the object's status if its version is still current; on success
        the object carries the new version. */
    method UpdateServiceStatus(k: Key, obj: ServiceObject, ghost base: InferenceService, reply: Reply)
      returns (ok: bool)
      requires obj.Valid() && obj.Value() == base.(status := obj.Status())
      modifies this`store, this`clock, obj`version
      ensures At(k, Begun) == PutStatus(old(At(k, Begun)), k, base, obj.Status(), reply)
      ensures ok <==> reply.Done? && Applies(old(At(k, Begun)), k, base, reply)
      ensures obj.version == if ok then old(clock) else old(obj.version)
    {
      var applies := (reply.Done? || reply.applied) && k in store.services && store.services[k].version == obj.version;
      ok := reply.Done? && applies;
      if applies {
        var status := ServiceStatus(obj.conditions.backing[..obj.conditions.len], obj.phase, obj.observedGeneration,
                                    obj.derivedPriority);
        var stored := InferenceService(obj.key, obj.uid, clock, obj.generation, obj.spec, status);
        store := store.(services := store.services[k := stored]);
        if ok {
          obj.version := clock;
        }
        clock := clock + 1;
      }
    }
  }

  /** The four dependency conditions, set on the copy in code order. */
  method SetDependencies(s: Slice, ghost base: seq<Condition>, d: Deps, now: nat) returns (r: Slice)
    requires s.Valid() && s.View() == base
    modifies s.backing
    ensures r.Valid() && (r.backing == s.backing || fresh(r.backing))
    ensures r.View() == UpsertFirst(base, DependencyConditions(d, now), 4)
  {
    ghost var cs := DependencyConditions(d, now);
    r := SetCond(s, base, cs, 0, ModelReady, d.modelErr, ModelVerified, ModelNotReady, now);
    r := SetCond(r, base, cs, 1, TenantResolved, d.tenantErr, TenantFound, TenantNotFound, now);
    r := SetCond(r, base, cs, 2, ResourceProfileResolved, d.profileErr, ProfileFound, ProfileNotFound, now);
    r := SetCond(r, base, cs, 3, CapacityAvailable, d.capacityErr, WithinEnvelope, CapacityUnavailable, now);
  }

  /** The first half of updateStatus: the six conditions set on a copy of the old slice. */
  method NewConditions(current: Slice, d: Deps, now: nat) returns (r: Slice)
    requires current.Valid()
    ensures r.Valid() && fresh(r.backing)
    ensures r.View() == UpsertAll(current.View(), DependencyConditions(d, now))
  {
    ghost var base := current.View();
    ghost var cs := DependencyConditions(d, now);
    r := Copied(current);
    r := SetDependencies(r, base, d, now);
    var ready := d.modelErr.None? && d.tenantErr.None? && d.profileErr.None? && d.capacityErr.None?;
    var readyErr := if ready then None else Some(DependenciesUnsatisfied);
    r := SetCond(r, base, cs, 4, Accepted, None, InferenceServiceObserved, NoReason, now);
    r := SetCond(r, base, cs, 5, Ready, readyErr, AllDependenciesResolved, DependenciesNotReady, now);
    UpsertFirstIsAll(base, cs);
  }

  /** updateStatus: reports whether a write was issued and whether it went through. */
  method UpdateStatus(cluster: Cluster, obj: ServiceObject, derivedPriority: Int32, d: Deps, reply: Reply, now: nat)
    returns (changed: bool, ok: bool)
    requires obj.Valid()
    modifies obj, cluster`store, cluster`clock
    ensures obj.Valid()
    ensures changed <==> !StatusUpToDate(old(obj.Status()), obj.generation, d, derivedPriority)
    ensures !changed ==> && ok && obj.Value() == old(obj.Value())
                         && cluster.store == old(cluster.store) && cluster.clock == old(cluster.clock)
    ensures changed ==>
              var wanted := WantedStatus(old(obj.Status()), obj.generation, d, derivedPriority, now);
              var st := old(cluster.At(obj.key, Begun));
              && cluster.At(obj.key, Begun) == PutStatus(st, obj.key, old(obj.Value()), wanted, reply)
              && (ok <==> reply.Done? && Applies(st, obj.key, old(obj.Value()), reply))
              && (ok ==> obj.Value() == Stored(st, old(obj.Value()), wanted))
  {
    ghost var base := obj.Value();
    var newConditions := NewConditions(obj.conditions, d, now);
    var newPhase := if d.Ok() then PhaseReady else Pending;
    var same := StatusUnchanged(obj.conditions, newConditions);
    StatusComparison(base.status, obj.generation, d, derivedPriority, now);
    if same && obj.phase == newPhase && obj.derivedPriority == derivedPriority
        && obj.observedGeneration == obj.generation {
      return false, true;
    }
    obj.conditions := newConditions;
    obj.phase := newPhase;
    obj.derivedPriority := derivedPriority;
    obj.observedGeneration := obj.generation;
    assert obj.Status() == WantedStatus(base.status, obj.generation, d, derivedPriority, now);
    changed := true;
    ok := cluster.UpdateServiceStatus(obj.key, obj, base, reply);
  }

  /** updateWorkloadCondition. */
  method UpdateWorkloadCondition(cluster: Cluster, obj: ServiceObject, jobErr: Option<Message>, reply: Reply, now: nat)
    returns (ok: bool)
    requires obj.Valid()
    modifies obj, cluster`store, cluster`clock
    ensures obj.Valid()
    ensures WorkloadUpToDate(old(obj.Status()), jobErr) ==>
              ok && obj.Value() == old(obj.Value()) && cluster.store == old(cluster.store)
                  && cluster.clock == old(cluster.clock)
    ensures !WorkloadUpToDate(old(obj.Status()), jobErr) ==>
              var wanted := WantedWorkload(old(obj.Status()), jobErr, now);
              var st := old(cluster.At(obj.key, Begun));
              && cluster.At(obj.key, Begun) == PutStatus(st, obj.key, old(obj.Value()), wanted, reply)
              && (ok <==> reply.Done? && Applies(st, obj.key, old(obj.Value()), reply))
  {
    ghost var base := obj.Value();
    var newConditions := Copied(obj.conditions);
    newConditions := SetStatusCondition(newConditions, WorkloadCondition(jobErr, now));
    var same := StatusUnchanged(obj.conditions, newConditions);
    WorkloadComparison(base.status, jobErr, now);
    if same {
      return true;
    }
    obj.conditions := newConditions;
    ok := cluster.UpdateServiceStatus(obj.key, obj, base, reply);
  }

  /** reconcileKueueJob: Get, and Create when the Job is not there. */
  method ReconcileKueueJob(cluster: Cluster, obj: ServiceObject, model: Model, c: Calls)
    returns (jobErr: Option<Message>)
    requires obj.Valid()
    modifies cluster`store, cluster`clock
    ensures cluster.At(obj.key, JobTried(obj.Value(), model, jobErr)) ==
            TryJob(old(cluster.At(obj.key, StatusDone(obj.Value(), model))), obj.key, obj.Value(), model, c)
  {
    ghost var st := cluster.At(obj.key, StatusDone(obj.Value(), model));
    if c.getJob.Lost? {
      jobErr := Some(ApiError(c.getJob.text));
    } else if obj.key in cluster.cache.jobs {
      jobErr := None;
    } else {
      var status := ServiceStatus(obj.conditions.backing[..obj.conditions.len], obj.phase, obj.observedGeneration,
                                  obj.derivedPriority);
      var desired := BuildJob(InferenceService(obj.key, obj.uid, obj.version, obj.generation, obj.spec, status), model,
                              cluster.clock);
      var absent := obj.key !in cluster.store.jobs;
      if Landed(c.createJob) && absent {
        cluster.store := cluster.store.(jobs := cluster.store.jobs[obj.key := desired]);
        cluster.clock := cluster.clock + 1;
      }
      jobErr := if c.createJob.Lost? then Some(ApiError(c.createJob.text))
                else if absent then None else Some(ApiError("already exists"));
    }
    assert cluster.At(obj.key, JobTried(obj.Value(), model, jobErr)).passes
           == TryJob(st, obj.key, obj.Value(), model, c).passes;
  }

  /** The store and clock a pass leaves, and whether it asks to be requeued. */
  ghost predicate Leaves(cluster: Cluster, requeue: bool, k: Key, r: State)
    reads cluster
  {
    cluster.store == r.store && cluster.clock == r.clock && (requeue <==> k in r.delayed)
  }

  /** Reconcile from the Job on. */
  method ReconcileWorkload(cluster: Cluster, obj: ServiceObject, model: Model, c: Calls) returns (requeue: bool)
    requires obj.Valid()
    modifies obj, cluster`store, cluster`clock
    ensures Leaves(cluster, requeue, obj.key,
                   FromJob(old(cluster.At(obj.key, StatusDone(obj.Value(), model))), obj.key, old(obj.Value()), model,
                           c))
  {
    ghost var svc := obj.Value();
    var jobErr := ReconcileKueueJob(cluster, obj, model, c);
    ghost var tried := cluster.At(obj.key, JobTried(svc, model, jobErr));
    var ok := UpdateWorkloadCondition(cluster, obj, jobErr, c.updateWorkload, c.later);
    requeue := !ok || jobErr.Some?;
    assert Leaves(cluster, requeue, obj.key, FromWorkload(tried, obj.key, svc, jobErr, c));
  }

  /** Reconcile from the resolved reads on. */
  method ReconcileResolved(cap: Capacity, cluster: Cluster, obj: ServiceObject, svc: InferenceService,
                           model: Option<Model>, tenant: Option<Tenant>, c: Calls)
    returns (requeue: bool)
    requires obj.Valid() && obj.Value() == svc
    modifies obj, cluster`store, cluster`clock
    ensures Leaves(cluster, requeue, obj.key,
                   FromStatus(cap, old(cluster.At(obj.key, SawTenant(svc, model, tenant))), obj.key, svc, model,
                              tenant, c))
  {
    ghost var st := cluster.At(obj.key, SawTenant(svc, model, tenant));
    var d := DepsOf(cap, svc, model, tenant);
    var derivedPriority := DerivedPriority(obj.spec, tenant);
    var changed, ok := UpdateStatus(cluster, obj, derivedPriority, d, c.updateStatus, c.now);
    ghost var st' := AdvanceStatus(st, obj.key, svc, model, d, !changed,
                                   WantedStatus(svc.status, svc.generation, d, derivedPriority, c.now), c.updateStatus);
    if !ok || !d.Ok() {
      assert obj.key !in st'.passes && Leaves(cluster, true, obj.key, st');
      return true;
    }
    assert st' == cluster.At(obj.key, StatusDone(obj.Value(), model.value)) by {
      assert st'.passes == map[obj.key := StatusDone(obj.Value(), model.value)];
    }
    requeue := ReconcileWorkload(cluster, obj, model.value, c);
  }

  /** Reconcile.  Run without interference it does to the store exactly what the pass of the
      control loop does, and asks to be requeued exactly when that pass leaves its key waiting. */
  method Reconcile(cap: Capacity, cluster: Cluster, k: Key, c: Calls) returns (requeue: bool)
    requires forall j :: j in cluster.cache.services ==> cluster.cache.services[j].key == j
    modifies cluster`store, cluster`clock
    ensures Leaves(cluster, requeue, k, RunPass(cap, old(cluster.At(k, Begun)), k, c))
  {
    ghost var st := cluster.At(k, Begun);
    Unfold(cap, st, k, c);
    if c.getService.Lost? {
      return true;
    }
    if k !in cluster.cache.services {
      return false;
    }
    var svc := cluster.cache.services[k];
    var obj := new ServiceObject(svc);
    ghost var st1 := cluster.At(k, SawService(svc));
    assert One(cap, st, k, c) == st1;
    RunFromService(cap, st1, k, c);
    requeue := ReconcileRead(cap, cluster, obj, svc, c);
  }

  /** Reconcile once the service has been read. */
  method ReconcileRead(cap: Capacity, cluster: Cluster, obj: ServiceObject, svc: InferenceService, c: Calls)
    returns (requeue: bool)
    requires obj.Valid() && obj.Value() == svc
    modifies obj, cluster`store, cluster`clock
    ensures Leaves(cluster, requeue, obj.key,
                   FromService(cap, old(cluster.At(obj.key, SawService(svc))), obj.key, svc, c))
  {
    if c.getModel.Lost? {
      return true;
    }
    var model := Get(cluster.cache.models, Key(obj.key.ns, obj.spec.model));
    if c.getTenant.Lost? {
      return true;
    }
    var tenant := Get(cluster.cache.tenants, obj.key.ns);
    ghost var st := cluster.At(obj.key, SawService(svc));
    assert Move(st, obj.key, SawTenant(svc, model, tenant)) == cluster.At(obj.key, SawTenant(svc, model, tenant)) by {
      assert Move(st, obj.key, SawTenant(svc, model, tenant)).passes == map[obj.key := SawTenant(svc, model, tenant)];
    }
    requeue := ReconcileResolved(cap, cluster, obj, svc, model, tenant, c);
  }
}
