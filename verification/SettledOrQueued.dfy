/** No InferenceService is ever forgotten: over every interleaving of edits, deliveries,
    failing calls, conflicts and restarts, a service that nothing is going to look at again is
    settled. */
module SettledOrQueued {
  import opened Resources
  import opened Conditions
  import opened ServiceStatusRules
  import opened Workload
  import opened ControlLoop

  predicate Waiting(st: State, k: Key) {
    k in st.dirty || k in st.delayed
  }

  /** The cache has not caught up with this service, so an event for it is still to come. */
  predicate Behind(st: State, k: Key) {
    Get(st.cache.services, k) != Get(st.store.services, k)
  }

  /** Dependencies resolved and recorded for the current generation. */
  ghost predicate DependenciesSettled(svc: InferenceService) {
    && svc.status.phase == PhaseReady
    && svc.status.observedGeneration == svc.generation
    && KnownProfile(svc.spec.resourceProfile)
    && IsTrue(svc.status.conditions, ModelReady)
    && IsTrue(svc.status.conditions, TenantResolved)
    && IsTrue(svc.status.conditions, ResourceProfileResolved)
    && IsTrue(svc.status.conditions, CapacityAvailable)
    && IsTrue(svc.status.conditions, Ready)
  }

  ghost predicate ModelReadyIn(models: map<Key, Model>, mk: Key) {
    mk in models && ModelIsReady(models[mk])
  }

  ghost predicate SettledInCache(st: State, k: Key) {
    && k in st.cache.services
    && DependenciesSettled(st.cache.services[k])
    && IsTrue(st.cache.services[k].status.conditions, WorkloadReady)
    && ModelReadyIn(st.cache.models, ModelKey(st.cache.services[k]))
  }

  /** The snapshots of a pass agree with the cache, and once past the status update they show
      settled dependencies. */
  ghost predicate Current(st: State, k: Key, p: Pass) {
    && (!p.Begun? ==> Get(st.cache.services, k) == Some(p.svc))
    && (p.SawModel? || p.SawTenant? ==> Get(st.cache.models, ModelKey(p.svc)) == p.model)
    && (p.StatusDone? || p.JobAbsent? || p.JobTried? ==>
          && Get(st.cache.models, ModelKey(p.svc)) == Some(p.ready)
          && ModelIsReady(p.ready)
          && DependenciesSettled(p.svc))
  }

  ghost predicate Accounted(st: State, k: Key) {
    || Waiting(st, k)
    || Behind(st, k)
    || (if k in st.passes then Current(st, k, st.passes[k]) else SettledInCache(st, k))
  }

  ghost predicate Inv(st: State) {
    && SaneServices(st.store.services, st.clock)
    && SaneServices(st.cache.services, st.clock)
    && forall k :: k in st.store.services ==> Accounted(st, k)
  }

  // ---------- every step keeps the invariant ----------

  /** A key is unaffected by a step that leaves its service, its pass and the cached Models
      alone and does not take it off the queue. */
  lemma Unaffected(st: State, st': State, j: Key)
    requires Accounted(st, j)
    requires Get(st.store.services, j) == Get(st'.store.services, j)
    requires Get(st.cache.services, j) == Get(st'.cache.services, j)
    requires Get(st.passes, j) == Get(st'.passes, j)
    requires st.cache.models == st'.cache.models
    requires Waiting(st, j) ==> Waiting(st', j)
    ensures Accounted(st', j)
  {
    assert j in st.cache.services <==> j in st'.cache.services;
    assert j in st.passes <==> j in st'.passes;
  }

  lemma UpToDateSettles(svc: InferenceService, d: Deps, prio: Int32)
    requires StatusUpToDate(svc.status, svc.generation, d, prio) && d.Ok()
    requires KnownProfile(svc.spec.resourceProfile)
    ensures DependenciesSettled(svc)
  {
    UpToDateIsTruthful(svc.status, svc.generation, d, prio);
  }

  /** A status write that reaches the store leaves the cache behind on that service. */
  lemma WriteLeavesBehind(st: State, k: Key, svc: InferenceService, status: ServiceStatus, reply: Reply)
    requires SaneServices(st.store.services, st.clock) && SaneServices(st.cache.services, st.clock)
    requires svc.key == k && Applies(st, k, svc, reply)
    ensures var st' := PutStatus(st, k, svc, status, reply);
            && Behind(st', k)
            && SaneServices(st'.store.services, st'.clock) && SaneServices(st'.cache.services, st'.clock)
  {
  }

  ghost predicate OwnKey(st: State) {
    forall k :: k in st.passes && !st.passes[k].Begun? ==> st.passes[k].svc.key == k
  }

  ghost predicate Sane(st: State) {
    SaneServices(st.store.services, st.clock) && SaneServices(st.cache.services, st.clock)
  }

  /** The status step: a write leaves the cache behind, a failure or a missing dependency
      leaves the key waiting, and only an up-to-date, resolved status lets the pass go on. */
  lemma StatusStepAccounted(st: State, k: Key, svc: InferenceService, model: Option<Model>, d: Deps,
                            upToDate: bool, wanted: ServiceStatus, reply: Reply)
    requires Sane(st) && svc.key == k
    requires d.Ok() ==> model.Some? && ModelIsReady(model.value)
    requires Waiting(st, k) || Behind(st, k)
             || (Get(st.cache.services, k) == Some(svc) && Get(st.cache.models, ModelKey(svc)) == model)
    requires upToDate && d.Ok() ==> DependenciesSettled(svc)
    ensures var st' := AdvanceStatus(st, k, svc, model, d, upToDate, wanted, reply);
            Sane(st') && (k in st'.store.services ==> Accounted(st', k))
  {
    if !upToDate && Applies(st, k, svc, reply) {
      WriteLeavesBehind(st, k, svc, wanted, reply);
    }
  }

  /** The last step of a pass. */
  lemma WorkloadStepAccounted(st: State, k: Key, svc: InferenceService, model: Model, jobErr: Option<Message>,
                              upToDate: bool, wanted: ServiceStatus, reply: Reply)
    requires Sane(st) && svc.key == k
    requires Waiting(st, k) || Behind(st, k)
             || (Get(st.cache.services, k) == Some(svc) && Get(st.cache.models, ModelKey(svc)) == Some(model)
                 && ModelIsReady(model) && DependenciesSettled(svc))
    requires upToDate && jobErr.None? ==> IsTrue(svc.status.conditions, WorkloadReady)
    ensures var st' := AdvanceWorkload(st, k, svc, jobErr, upToDate, wanted, reply);
            Sane(st') && (k in st'.store.services ==> Accounted(st', k))
  {
    if !upToDate && Applies(st, k, svc, reply) {
      WriteLeavesBehind(st, k, svc, wanted, reply);
    }
  }

  lemma OtherStepCurrent(st: State, k: Key, p: Pass, reply: Reply)
    requires Sane(st) && !p.SawTenant? && !p.JobTried? && (!p.Begun? ==> p.svc.key == k)
    requires !Waiting(st, k) && !Behind(st, k) && Current(st, k, p)
    ensures var st' := AdvanceOther(st, k, p, reply);
            if k in st'.passes then Current(st', k, st'.passes[k]) else Waiting(st', k) || k !in st'.store.services
  {
    if p.StatusDone? || p.JobAbsent? {
      JobStepKeepsSnapshots(st, k, p, reply);
    }
  }

  lemma OtherStepAccounted(st: State, k: Key, p: Pass, reply: Reply)
    requires Sane(st) && !p.SawTenant? && !p.JobTried? && (!p.Begun? ==> p.svc.key == k)
    requires Waiting(st, k) || Behind(st, k) || Current(st, k, p)
    ensures var st' := AdvanceOther(st, k, p, reply);
            Sane(st') && (k in st'.store.services ==> Accounted(st', k))
  {
    var st' := AdvanceOther(st, k, p, reply);
    AdvanceOtherFrame(st, k, p, reply);
    if Waiting(st, k) {
      assert Waiting(st', k);
    } else if Behind(st, k) {
      assert Behind(st', k);
    } else {
      OtherStepCurrent(st, k, p, reply);
    }
  }

  lemma OwnStepAccounted(cap: Capacity, st: State, k: Key, reply: Reply, now: nat)
    requires Inv(st) && OwnKey(st) && k in st.passes
    ensures var st' := Advance(cap, st, k, reply, now);
            Sane(st') && (k in st'.store.services ==> Accounted(st', k))
  {
    if st.passes[k].SawTenant? {
      StatusAdvance(cap, st, k, reply, now);
    } else if st.passes[k].JobTried? {
      WorkloadAdvance(cap, st, k, reply, now);
    } else {
      OtherAdvance(cap, st, k, reply, now);
    }
    assert k !in st.store.services || Accounted(st, k);
    assert k !in st.store.services && !Behind(st, k) ==> k !in st.cache.services;
    match st.passes[k] {
      case SawTenant(svc, model, tenant) =>
        var d := DepsOf(cap, svc, model, tenant);
        var prio := DerivedPriority(svc.spec, tenant);
        var upToDate := StatusUpToDate(svc.status, svc.generation, d, prio);
        if upToDate && d.Ok() {
          UpToDateSettles(svc, d, prio);
        }
        if k in st.store.services {
          StatusStepAccounted(st, k, svc, model, d, upToDate, WantedStatus(svc.status, svc.generation, d, prio, now),
                              reply);
        }
      case JobTried(svc, model, jobErr) =>
        if k in st.store.services {
          WorkloadStepAccounted(st, k, svc, model, jobErr, WorkloadUpToDate(svc.status, jobErr),
                                WantedWorkload(svc.status, jobErr, now), reply);
        }
      case p =>
        AdvanceOtherFrame(st, k, p, reply);
        if k in st.store.services {
          OtherStepAccounted(st, k, p, reply);
        }
    }
  }

  lemma StepKeepsInv(cap: Capacity, st: State, k: Key, reply: Reply, now: nat)
    requires Inv(st) && OwnKey(st) && k in st.passes
    ensures Inv(Advance(cap, st, k, reply, now))
  {
    var st' := Advance(cap, st, k, reply, now);
    OwnStepAccounted(cap, st, k, reply, now);
    StepFrame(cap, st, k, reply, now);
    forall j | j in st'.store.services ensures Accounted(st', j) {
      if j != k {
        assert Get(st'.store.services, j) == Get(st.store.services, j);
        assert j in st.store.services;
        Unaffected(st, st', j);
      }
    }
  }

  /** A Model delivery wakes every service whose cached spec references the Model. */
  lemma ModelDeliveryKeepsInv(cap: Capacity, st: State, mk: Key, m: Option<Model>)
    requires Inv(st) && Enabled(st, DeliverModel(mk, m))
    ensures Inv(Next(cap, st, DeliverModel(mk, m)))
  {
    var st' := Next(cap, st, DeliverModel(mk, m));
    forall j | j in st'.store.services ensures Accounted(st', j) {
      if !Waiting(st', j) && !Behind(st', j) {
        assert Accounted(st, j);
        assert Get(st.cache.services, j) == Some(st.store.services[j]);
        var svc := st.cache.services[j];
        assert ModelKey(svc) == mk ==> svc.key in Referencing(st.cache.services, mk);
        assert Get(st'.cache.models, ModelKey(svc)) == Get(st.cache.models, ModelKey(svc));
      }
    }
  }

  lemma EnvironmentKeepsInv(cap: Capacity, st: State, a: Action)
    requires Inv(st) && Enabled(st, a) && !a.Step? && !a.DeliverModel?
    ensures Inv(Next(cap, st, a))
  {
    var st' := Next(cap, st, a);
    assert SaneServices(st'.store.services, st'.clock) && SaneServices(st'.cache.services, st'.clock) by {
      forall j | j in st'.store.services
        ensures st'.store.services[j].key == j && st'.store.services[j].version < st'.clock
      {
        assert Get(st'.store.services, j) == Some(st'.store.services[j]);
        if j in st.store.services { assert Get(st.store.services, j) == Some(st.store.services[j]); }
      }
      forall j | j in st'.cache.services
        ensures st'.cache.services[j].key == j && st'.cache.services[j].version < st'.clock
      {
        assert Get(st'.cache.services, j) == Some(st'.cache.services[j]);
        if j in st.cache.services { assert Get(st.cache.services, j) == Some(st.cache.services[j]); }
      }
    }
    forall j | j in st'.store.services ensures Accounted(st', j) {
      assert Get(st'.store.services, j) == Some(st'.store.services[j]);
      if a.EnvService? && a.k == j {
        assert j in st.cache.services ==> st.cache.services[j].version < st.clock;
      } else if !((a.DeliverService? || a.Take? || a.Fire?) && a.k == j) && !a.Restart? {
        assert Get(st.store.services, j) == Get(st'.store.services, j);
        assert j in st.store.services;
        Unaffected(st, st', j);
      }
    }
  }

  lemma OwnKeyKept(cap: Capacity, st: State, a: Action)
    requires Inv(st) && OwnKey(st) && Enabled(st, a)
    ensures OwnKey(Next(cap, st, a))
  {
    if a.Step? {
      StepFrame(cap, st, a.k, a.reply, a.now);
      StepOwnKey(cap, st, a.k, a.reply, a.now);
      var st' := Next(cap, st, a);
      forall j | j in st'.passes && !st'.passes[j].Begun? ensures st'.passes[j].svc.key == j {
        if j != a.k {
          assert Get(st.passes, j) == Get(st'.passes, j);
        }
      }
    }
  }

  lemma StepOwnKey(cap: Capacity, st: State, k: Key, reply: Reply, now: nat)
    requires SaneServices(st.cache.services, st.clock) && k in st.passes
    requires !st.passes[k].Begun? ==> st.passes[k].svc.key == k
    ensures var st' := Advance(cap, st, k, reply, now);
            k in st'.passes && !st'.passes[k].Begun? ==> st'.passes[k].svc.key == k
  {
    match st.passes[k] {
      case SawTenant(svc, model, tenant) =>
        var d := DepsOf(cap, svc, model, tenant);
        var prio := DerivedPriority(svc.spec, tenant);
        AdvanceStatusFrame(st, k, svc, model, d, StatusUpToDate(svc.status, svc.generation, d, prio),
                           WantedStatus(svc.status, svc.generation, d, prio, now), reply);
      case JobTried(_, _, _) =>
      case _ =>
    }
  }

  lemma {:induction false} RunKeepsInv(cap: Capacity, tr: seq<State>, acts: seq<Action>, n: nat)
    requires IsRun(cap, tr, acts) && n < |tr|
    ensures Inv(tr[n]) && OwnKey(tr[n])
  {
    if n > 0 {
      RunKeepsInv(cap, tr, acts, n - 1);
      var a := acts[n - 1];
      assert StepAt(cap, tr, acts, n - 1);
      OwnKeyKept(cap, tr[n - 1], a);
      if a.Step? {
        StepKeepsInv(cap, tr[n - 1], a.k, a.reply, a.now);
      } else if a.DeliverModel? {
        ModelDeliveryKeepsInv(cap, tr[n - 1], a.mk, a.model);
      } else {
        EnvironmentKeepsInv(cap, tr[n - 1], a);
      }
    }
  }

  /** Nothing in the system is going to look at this service again: no queue entry, no pass in
      flight, and no undelivered event for it or for its Model. */
  ghost predicate Quiet(st: State, k: Key) {
    && k in st.store.services
    && !Waiting(st, k) && k !in st.passes && !Behind(st, k)
    && Get(st.cache.models, ModelKey(st.store.services[k])) == Get(st.store.models, ModelKey(st.store.services[k]))
  }

  /** Settled-or-queued: in every reachable state a quiet service has Phase Ready for its
      current generation, all dependency conditions and WorkloadReady True, a known profile,
      and a referenced Model that is Ready in the store now. */
  lemma QuietServicesAreSettled(cap: Capacity, tr: seq<State>, acts: seq<Action>, n: nat, k: Key)
    requires IsRun(cap, tr, acts) && n < |tr| && Quiet(tr[n], k)
    ensures var svc := tr[n].store.services[k];
            && DependenciesSettled(svc)
            && IsTrue(svc.status.conditions, WorkloadReady)
            && ModelReadyIn(tr[n].store.models, ModelKey(svc))
  {
    RunKeepsInv(cap, tr, acts, n);
    var st := tr[n];
    assert Accounted(st, k);
    assert Get(st.cache.services, k) == Some(st.store.services[k]);
  }

  // ---------- what a quiet service does not promise ----------

  lemma QuietIsSettled(st: State, k: Key)
    requires Inv(st) && Quiet(st, k)
    ensures DependenciesSettled(st.store.services[k]) && IsTrue(st.store.services[k].status.conditions, WorkloadReady)
  {
    assert Accounted(st, k);
    assert Get(st.cache.services, k) == Some(st.store.services[k]);
  }

  /** Quietness does not depend on Tenants and Jobs. */
  lemma QuietRests(st: State, st': State, k: Key)
    requires Quiet(st, k)
    requires st'.store.services == st.store.services && st'.store.models == st.store.models
    requires st'.cache.services == st.cache.services && st'.cache.models == st.cache.models
    requires st'.dirty == st.dirty && st'.delayed == st.delayed && st'.passes == st.passes
    ensures Quiet(st', k)
  {
  }

  function WithoutTenant(st: State, ns: string): State {
    st.(store := st.store.(tenants := st.store.tenants - {ns}), cache := st.cache.(tenants := st.cache.tenants - {ns}),
        clock := st.clock + 1)
  }

  function WithoutJob(st: State, k: Key): State {
    st.(store := st.store.(jobs := st.store.jobs - {k}), cache := st.cache.(jobs := st.cache.jobs - {k}),
        clock := st.clock + 1)
  }

  lemma TenantGone(cap: Capacity, st: State, ns: string)
    ensures Next(cap, Next(cap, st, EnvTenant(ns, None)), DeliverTenant(ns, None)) == WithoutTenant(st, ns)
  {
  }

  lemma JobGone(cap: Capacity, st: State, k: Key)
    ensures Next(cap, Next(cap, st, EnvJob(k, None)), DeliverJob(k, None)) == WithoutJob(st, k)
  {
  }

  /** Tenants are not watched: delete the Tenant of a quiet service, even let the cache see it,
      and the service stays quiet with TenantResolved=True. */
  lemma TenantLossGoesUnnoticed(cap: Capacity, st: State, k: Key)
    requires Inv(st) && Quiet(st, k)
    ensures var st1 := Next(cap, st, EnvTenant(k.ns, None));
            var st2 := Next(cap, st1, DeliverTenant(k.ns, None));
            && k.ns !in st2.store.tenants && k.ns !in st2.cache.tenants && Quiet(st2, k)
            && IsTrue(st2.store.services[k].status.conditions, TenantResolved)
  {
    QuietIsSettled(st, k);
    TenantGone(cap, st, k.ns);
    QuietRests(st, WithoutTenant(st, k.ns), k);
  }

  /** Nor are Jobs: delete the Job of a quiet service and WorkloadReady stays True. */
  lemma JobLossGoesUnnoticed(cap: Capacity, st: State, k: Key)
    requires Inv(st) && Quiet(st, k)
    ensures var st1 := Next(cap, st, EnvJob(k, None));
            var st2 := Next(cap, st1, DeliverJob(k, None));
            && k !in st2.store.jobs && k !in st2.cache.jobs && Quiet(st2, k)
            && IsTrue(st2.store.services[k].status.conditions, WorkloadReady)
  {
    QuietIsSettled(st, k);
    JobGone(cap, st, k);
    QuietRests(st, WithoutJob(st, k), k);
  }

  /** Any Job of the right name will do: a pass that finds somebody else's Job reports
      WorkloadReady=True for it and leaves it as it is. */
  lemma ForeignJobIsAccepted(cap: Capacity, st: State, k: Key, svc: InferenceService, model: Model, job: Job, now: nat)
    requires Get(st.passes, k) == Some(StatusDone(svc, model)) && svc.key == k
    requires Get(st.store.services, k) == Some(svc)
    requires Get(st.cache.jobs, k) == Some(job) && Get(st.store.jobs, k) == Some(job) && job.owner.uid != svc.uid
    ensures var st1 := Advance(cap, st, k, Done, now);
            k in st1.passes
            && var st2 := Advance(cap, st1, k, Done, now);
            && k !in st2.passes && k !in st2.delayed - st.delayed
            && k in st2.store.services && WorkloadUpToDate(st2.store.services[k].status, None)
            && Get(st2.store.jobs, k) == Some(job)
  {
    OtherAdvance(cap, st, k, Done, now);
    var st1 := Move(st, k, JobTried(svc, model, None));
    assert Advance(cap, st, k, Done, now) == st1;
    WorkloadAdvance(cap, st1, k, Done, now);
    WorkloadEstablished(svc.status, None, now);
  }
}
