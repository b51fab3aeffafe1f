/** No self-triggered livelock: with specs, Models and Tenants frozen, the writes of a run are
    bounded by the services unsettled at its start and the Job calls lost in it, although every
    status write re-enqueues its own object. */
module WriteBound {
  import opened Resources
  import opened ServiceStatusRules
  import opened Workload
  import opened ControlLoop
  import opened KeySums

  // ---------- frozen runs ----------

  /** A service as the cache or a pass holds it: only status and version may lag behind the
      store, and a version identifies one content. */
  ghost predicate Snapshot(st: State, k: Key, svc: InferenceService) {
    && k in st.store.services
    && svc.key == k && svc.version < st.clock
    && svc.spec == st.store.services[k].spec && svc.generation == st.store.services[k].generation
    && (svc.version == st.store.services[k].version ==> svc == st.store.services[k])
  }

  /** The dependencies and priority of a stored service, on the stored Models and Tenants. */
  function Verdict(cap: Capacity, st: State, k: Key): Deps
    requires k in st.store.services
  {
    var svc := st.store.services[k];
    Assess(cap, svc.spec, k.ns, Get(st.store.models, Key(k.ns, svc.spec.model)), Get(st.store.tenants, k.ns))
  }

  function Rank(st: State, k: Key): Int32
    requires k in st.store.services
  {
    DerivedPriority(st.store.services[k].spec, Get(st.store.tenants, k.ns))
  }

  ghost predicate PassFresh(cap: Capacity, st: State, k: Key, p: Pass) {
    && (!p.Begun? ==> Snapshot(st, k, p.svc))
    && (p.SawModel? || p.SawTenant? ==> p.model == Get(st.store.models, ModelKey(p.svc)))
    && (p.SawTenant? ==> p.tenant == Get(st.store.tenants, k.ns))
    && (p.StatusDone? || p.JobAbsent? || p.JobTried? ==> Verdict(cap, st, k).Ok())
  }

  /** Models and Tenants have been delivered, and what the cache shows of a service is stale in
      status at most. */
  ghost predicate CacheFresh(st: State) {
    && (forall k :: k in st.store.services ==> Snapshot(st, k, st.store.services[k]))
    && (forall k :: k in st.cache.services ==> Snapshot(st, k, st.cache.services[k]))
    && st.cache.models == st.store.models && st.cache.tenants == st.store.tenants
    && (forall k :: k in st.cache.jobs ==> k in st.store.jobs)
  }

  /** ... and so is what the passes in flight have read. */
  ghost predicate Fresh(cap: Capacity, st: State) {
    && CacheFresh(st)
    && (forall k :: k in st.passes ==> PassFresh(cap, st, k, st.passes[k]))
  }

  /** Nobody edits specs, Models or Tenants, and nobody creates or deletes a Job; stored Jobs may be
      updated, calls may be lost, applied or not, status writes may conflict and a Create may find
      its Job already there. */
  ghost predicate Frozen(st: State, a: Action) {
    && Enabled(st, a)
    && match a
       case DeliverService(k, v) => v.Some? ==> Snapshot(st, k, v.value)
       case DeliverModel(mk, v) => v == Get(st.store.models, mk)
       case DeliverTenant(ns, v) => v == Get(st.store.tenants, ns)
       case DeliverJob(k, v) => if v.Some? then k in st.store.jobs else k !in st.cache.jobs
       case EnvJob(k, v) => v.Some? && k in st.store.jobs
       case Fire(_) => true
       case Take(_) => true
       case Step(_, _, _) => true
       case _ => false
  }

  /** Nobody edits services, Models or Tenants, creates or deletes a Job or restarts the operator,
      and calls are answered; stored Jobs may be updated. */
  predicate Calm(st: State, a: Action) {
    match a
    case EnvService(_, _) => false
    case EnvModel(_, _) => false
    case EnvTenant(_, _) => false
    case EnvJob(k, job) => job.Some? && k in st.store.jobs
    case Step(_, reply, _) => reply.Done?
    case Restart => false
    case _ => true
  }

  /** The call of this step, if it makes one, is answered. */
  predicate Answered(a: Action) {
    a.Step? ==> a.reply.Done?
  }

  /** A Get or Create of a Job without an answer. */
  predicate LosesJobCall(st: State, a: Action) {
    && a.Step? && a.reply.Lost? && Get(st.passes, a.k).Some?
    && (Get(st.passes, a.k).value.StatusDone? || Get(st.passes, a.k).value.JobAbsent?)
  }

  // ---------- the potential of one key ----------

  ghost predicate StatusCurrent(cap: Capacity, st: State, k: Key)
    requires k in st.store.services
  {
    StatusUpToDate(st.store.services[k].status, st.store.services[k].generation, Verdict(cap, st, k), Rank(st, k))
  }

  ghost predicate WorkloadTrue(st: State, k: Key)
    requires k in st.store.services
  {
    WorkloadUpToDate(st.store.services[k].status, None)
  }

  ghost predicate WorkloadFalse(st: State, k: Key)
    requires k in st.store.services
  {
    WorkloadUpToDate(st.store.services[k].status, Some(NoMessage))
  }

  /** The pass on `k` is about to report that the Job is already there. */
  predicate HeadingForError(st: State, k: Key) {
    k in st.passes && (st.passes[k].JobAbsent? || (st.passes[k].JobTried? && st.passes[k].jobErr.Some?))
  }

  /** The pass on `k` has its Job. */
  predicate HeadingForSuccess(st: State, k: Key) {
    k in st.passes && st.passes[k].JobTried? && st.passes[k].jobErr.None?
  }

  /** The pass on `k` is about to report a failed Job call. */
  predicate HasFailed(st: State, k: Key) {
    k in st.passes && st.passes[k].JobTried? && st.passes[k].jobErr.Some?
  }

  /** Bound on the writes still to come for the Job and its condition, from whether the
      condition is True or False, the Job stored or cached, and where the pass is heading. */
  function JobBound(t: bool, f: bool, stored: bool, cached: bool, failing: bool, succeeding: bool,
                    failed: bool): (r: nat)
    ensures r <= (if failed && !stored then 5 else 4)
  {
    if !stored then (if failed then (if f then 4 else 5) else if t then 3 else 4)
    else if cached then
      (if t then (if failing then 2 else 0) else if !f && failing then 2 else 1)
    else if succeeding then (if t then 2 else 3)
    else if f then 1 else 2
  }

  ghost function JobPotential(st: State, k: Key): (r: nat)
    requires k in st.store.services
    ensures r <= (if HasFailed(st, k) && k !in st.store.jobs then 5 else 4)
  {
    JobBound(WorkloadTrue(st, k), WorkloadFalse(st, k), k in st.store.jobs, k in st.cache.jobs,
             HeadingForError(st, k), HeadingForSuccess(st, k), HasFailed(st, k))
  }

  /** Bound on the writes still to come for a service if no Job call is lost. */
  ghost function Potential(cap: Capacity, st: State, k: Key): (r: nat)
    ensures r <= (if HasFailed(st, k) && k !in st.store.jobs then 6 else 5)
  {
    if k !in st.store.services then 0
    else (if StatusCurrent(cap, st, k) then 0 else 1) + (if Verdict(cap, st, k).Ok() then JobPotential(st, k) else 0)
  }

  // ---------- steps ----------

  /** Everything `Potential` and `Snapshot` look at, apart from status, is the same for `j`. */
  ghost predicate SameElsewhere(st: State, st': State, j: Key) {
    && Get(st.store.services, j) == Get(st'.store.services, j)
    && (j in st.store.jobs <==> j in st'.store.jobs)
    && (j in st.cache.jobs <==> j in st'.cache.jobs)
    && Get(st.passes, j) == Get(st'.passes, j)
    && st.store.models == st'.store.models && st.store.tenants == st'.store.tenants
  }

  lemma PotentialElsewhere(cap: Capacity, st: State, st': State, j: Key)
    requires SameElsewhere(st, st', j)
    ensures Potential(cap, st, j) == Potential(cap, st', j)
  {
    assert j in st.store.services <==> j in st'.store.services;
    assert j in st.passes <==> j in st'.passes;
  }

  /** A status write that is applied replaces a service by its own snapshot with a new status. */
  lemma AppliedWrite(st: State, k: Key, svc: InferenceService, status: ServiceStatus, reply: Reply)
    requires Snapshot(st, k, svc) && Applies(st, k, svc, reply)
    ensures var st' := PutStatus(st, k, svc, status, reply);
            && svc == st.store.services[k]
            && st'.store.services
                == st.store.services[k := st.store.services[k].(status := status, version := st.clock)]
  {
  }

  /** Snapshots survive a write to their service. */
  lemma SnapshotSurvives(st: State, k: Key, svc: InferenceService, status: ServiceStatus, reply: Reply, j: Key,
                         old_: InferenceService)
    requires Snapshot(st, k, svc) && Applies(st, k, svc, reply) && Snapshot(st, j, old_)
    ensures Snapshot(PutStatus(st, k, svc, status, reply), j, old_)
  {
  }

  lemma FreshAfterWrite(cap: Capacity, st: State, k: Key, svc: InferenceService, status: ServiceStatus, reply: Reply)
    requires Fresh(cap, st) && Snapshot(st, k, svc) && Applies(st, k, svc, reply)
    ensures Fresh(cap, PutStatus(st, k, svc, status, reply))
    ensures Snapshot(PutStatus(st, k, svc, status, reply), k, Stored(st, svc, status))
  {
    var st' := PutStatus(st, k, svc, status, reply);
    forall j, s | Snapshot(st, j, s) ensures Snapshot(st', j, s) {
      SnapshotSurvives(st, k, svc, status, reply, j, s);
    }
    forall j | j in st'.store.services ensures Snapshot(st', j, st'.store.services[j]) {
      if j != k { assert Snapshot(st, j, st.store.services[j]); }
    }
    forall j | j in st'.cache.services ensures Snapshot(st', j, st'.cache.services[j]) {
      assert Snapshot(st, j, st.cache.services[j]);
    }
    forall j | j in st'.passes ensures PassFresh(cap, st', j, st'.passes[j]) {
      assert PassFresh(cap, st, j, st.passes[j]);
      if !st.passes[j].Begun? { assert Snapshot(st', j, st.passes[j].svc); }
    }
  }

  lemma FreshAfterMove(cap: Capacity, st: State, k: Key, p: Pass)
    requires Fresh(cap, st) && PassFresh(cap, st, k, p)
    ensures Fresh(cap, Move(st, k, p))
  {
  }

  lemma FreshAfterFinish(cap: Capacity, st: State, k: Key, requeue: bool)
    requires Fresh(cap, st)
    ensures Fresh(cap, Finish(st, k, requeue))
  {
  }

  ghost predicate Wrote(st: State, st': State) {
    st.store != st'.store
  }

  /** One step is fine: freshness is kept and the key's potential, with what a lost call adds, pays
      for the write. */
  ghost predicate Pays(cap: Capacity, st: State, st': State, k: Key, lost: nat) {
    && Fresh(cap, st')
    && Potential(cap, st', k) + (if Wrote(st, st') then 1 else 0) <= Potential(cap, st, k) + lost
  }

  /** A step that leaves store and cache alone pays if it does not change where the pass is
      heading for the worse. */
  lemma QuietMovePays(cap: Capacity, st: State, st': State, k: Key)
    requires Fresh(cap, st') && st'.store == st.store && st'.cache == st.cache
    requires k in st.cache.jobs && HeadingForError(st', k) ==> HeadingForError(st, k)
    requires k !in st.cache.jobs && HeadingForSuccess(st', k) ==> HeadingForSuccess(st, k)
    requires k !in st.store.jobs && HasFailed(st', k) ==> HasFailed(st, k)
    ensures Pays(cap, st, st', k, 0)
  {
  }

  /** A pass that starts to report a failed Job call costs two writes at most. */
  lemma LossPays(cap: Capacity, st: State, st': State, k: Key)
    requires Fresh(cap, st') && st'.store == st.store && st'.cache == st.cache
    requires HasFailed(st', k) && !HasFailed(st, k) && !HeadingForSuccess(st, k)
    ensures Pays(cap, st, st', k, 2)
  {
  }

  lemma StatusStepPays(cap: Capacity, st: State, k: Key, reply: Reply, now: nat)
    requires Fresh(cap, st) && k in st.passes && st.passes[k].SawTenant?
    ensures Pays(cap, st, Advance(cap, st, k, reply, now), k, 0)
  {
    var SawTenant(svc, model, tenant) := st.passes[k];
    StatusAdvance(cap, st, k, reply, now);
    assert PassFresh(cap, st, k, st.passes[k]);
    var d := DepsOf(cap, svc, model, tenant);
    var prio := DerivedPriority(svc.spec, tenant);
    assert d == Verdict(cap, st, k) && prio == Rank(st, k);
    var upToDate := StatusUpToDate(svc.status, svc.generation, d, prio);
    var wanted := WantedStatus(svc.status, svc.generation, d, prio, now);
    if upToDate || !Applies(st, k, svc, reply) {
      QuietStatusStep(cap, st, k, svc, model, d, upToDate, wanted, reply);
    } else {
      AppliedWrite(st, k, svc, wanted, reply);
      WantedIsUpToDate(svc.status, svc.generation, d, prio, now);
      StatusKeepsWorkload(svc.status, d, None, now);
      StatusKeepsWorkload(svc.status, d, Some(NoMessage), now);
      StatusWritePays(cap, st, k, svc, model, d, prio, wanted, reply);
    }
  }

  lemma QuietStatusStep(cap: Capacity, st: State, k: Key, svc: InferenceService, model: Option<Model>, d: Deps,
                        upToDate: bool, wanted: ServiceStatus, reply: Reply)
    requires Fresh(cap, st) && Snapshot(st, k, svc) && Get(st.passes, k).Some? && Get(st.passes, k).value.SawTenant?
    requires d == Verdict(cap, st, k) && (d.Ok() ==> model.Some?)
    requires upToDate || !Applies(st, k, svc, reply)
    ensures Pays(cap, st, AdvanceStatus(st, k, svc, model, d, upToDate, wanted, reply), k, 0)
  {
    if upToDate && d.Ok() {
      FreshAfterMove(cap, st, k, StatusDone(svc, model.value));
    } else {
      FreshAfterFinish(cap, st, k, true);
    }
    QuietMovePays(cap, st, AdvanceStatus(st, k, svc, model, d, upToDate, wanted, reply), k);
  }

  lemma StatusWritePays(cap: Capacity, st: State, k: Key, svc: InferenceService, model: Option<Model>, d: Deps,
                        prio: Int32, wanted: ServiceStatus, reply: Reply)
    requires Fresh(cap, st) && Snapshot(st, k, svc) && Applies(st, k, svc, reply) && svc == st.store.services[k]
    requires Get(st.passes, k).Some? && Get(st.passes, k).value.SawTenant?
    requires d == Verdict(cap, st, k) && prio == Rank(st, k) && (d.Ok() ==> model.Some?)
    requires !StatusUpToDate(svc.status, svc.generation, d, prio) && StatusUpToDate(wanted, svc.generation, d, prio)
    requires WorkloadUpToDate(wanted, None) <==> WorkloadUpToDate(svc.status, None)
    requires WorkloadUpToDate(wanted, Some(NoMessage)) <==> WorkloadUpToDate(svc.status, Some(NoMessage))
    ensures Pays(cap, st, AdvanceStatus(st, k, svc, model, d, false, wanted, reply), k, 0)
  {
    var st1 := PutStatus(st, k, svc, wanted, reply);
    FreshAfterWrite(cap, st, k, svc, wanted, reply);
    if d.Ok() && reply.Done? {
      FreshAfterMove(cap, st1, k, StatusDone(Stored(st, svc, wanted), model.value));
    } else {
      FreshAfterFinish(cap, st1, k, true);
    }
  }

  lemma WorkloadStepPays(cap: Capacity, st: State, k: Key, reply: Reply, now: nat)
    requires Fresh(cap, st) && k in st.passes && st.passes[k].JobTried?
    ensures Pays(cap, st, Advance(cap, st, k, reply, now), k, 0)
  {
    var JobTried(svc, model, jobErr) := st.passes[k];
    assert PassFresh(cap, st, k, st.passes[k]);
    WorkloadAdvance(cap, st, k, reply, now);
    var upToDate := WorkloadUpToDate(svc.status, jobErr);
    var wanted := WantedWorkload(svc.status, jobErr, now);
    if upToDate || !Applies(st, k, svc, reply) {
      QuietWorkloadStep(cap, st, k, svc, jobErr, upToDate, wanted, reply);
    } else {
      AppliedWrite(st, k, svc, wanted, reply);
      WorkloadKeepsStatus(svc.status, svc.generation, Verdict(cap, st, k), Rank(st, k), jobErr, now);
      WorkloadEstablished(svc.status, jobErr, now);
      WorkloadWritePays(cap, st, k, svc, jobErr, wanted, reply);
    }
  }

  lemma QuietWorkloadStep(cap: Capacity, st: State, k: Key, svc: InferenceService, jobErr: Option<Message>,
                          upToDate: bool, wanted: ServiceStatus, reply: Reply)
    requires Fresh(cap, st) && (upToDate || !Applies(st, k, svc, reply))
    ensures Pays(cap, st, AdvanceWorkload(st, k, svc, jobErr, upToDate, wanted, reply), k, 0)
  {
    FreshAfterFinish(cap, st, k, jobErr.Some?);
    FreshAfterFinish(cap, st, k, true);
    QuietMovePays(cap, st, AdvanceWorkload(st, k, svc, jobErr, upToDate, wanted, reply), k);
  }

  lemma WorkloadWritePays(cap: Capacity, st: State, k: Key, svc: InferenceService, jobErr: Option<Message>,
                          wanted: ServiceStatus, reply: Reply)
    requires Fresh(cap, st) && Snapshot(st, k, svc) && Applies(st, k, svc, reply) && svc == st.store.services[k]
    requires k in st.passes && st.passes[k].JobTried? && st.passes[k].jobErr == jobErr
    requires !WorkloadUpToDate(svc.status, jobErr) && WorkloadUpToDate(wanted, jobErr)
    requires StatusUpToDate(wanted, svc.generation, Verdict(cap, st, k), Rank(st, k))
             <==> StatusUpToDate(svc.status, svc.generation, Verdict(cap, st, k), Rank(st, k))
    ensures Pays(cap, st, AdvanceWorkload(st, k, svc, jobErr, false, wanted, reply), k, 0)
  {
    assert PassFresh(cap, st, k, st.passes[k]);
    var st1 := PutStatus(st, k, svc, wanted, reply);
    FreshAfterWrite(cap, st, k, svc, wanted, reply);
    FreshAfterFinish(cap, st1, k, jobErr.Some? || reply.Lost?);
  }

  lemma OtherStepPays(cap: Capacity, st: State, k: Key, reply: Reply)
    requires Fresh(cap, st) && k in st.passes && !st.passes[k].SawTenant? && !st.passes[k].JobTried?
    ensures var lost := reply.Lost? && (st.passes[k].StatusDone? || st.passes[k].JobAbsent?);
            Pays(cap, st, AdvanceOther(st, k, st.passes[k], reply), k, if lost then 2 else 0)
  {
    var p := st.passes[k];
    assert PassFresh(cap, st, k, p);
    if p.JobAbsent? {
      CreateStepPays(cap, st, k, p.svc, p.ready, reply);
    } else {
      ReadStepFresh(cap, st, k, p, reply);
      if p.StatusDone? && reply.Lost? {
        LossPays(cap, st, AdvanceOther(st, k, p, reply), k);
      } else {
        QuietMovePays(cap, st, AdvanceOther(st, k, p, reply), k);
      }
    }
  }

  lemma ReadStepFresh(cap: Capacity, st: State, k: Key, p: Pass, reply: Reply)
    requires Fresh(cap, st) && PassFresh(cap, st, k, p) && !p.SawTenant? && !p.JobTried? && !p.JobAbsent?
    ensures Fresh(cap, AdvanceOther(st, k, p, reply))
  {
    FreshAfterFinish(cap, st, k, true);
    match p {
      case Begun =>
        if k in st.cache.services {
          FreshAfterMove(cap, st, k, SawService(st.cache.services[k]));
        } else {
          FreshAfterFinish(cap, st, k, false);
        }
      case SawService(svc) => FreshAfterMove(cap, st, k, SawModel(svc, Get(st.cache.models, ModelKey(svc))));
      case SawModel(svc, model) => FreshAfterMove(cap, st, k, SawTenant(svc, model, Get(st.cache.tenants, svc.key.ns)));
      case StatusDone(svc, model) =>
        FreshAfterMove(cap, st, k, JobTried(svc, model, if reply.Lost? then Some(ApiError(reply.text)) else None));
        FreshAfterMove(cap, st, k, JobAbsent(svc, model));
    }
  }

  lemma FreshAfterCreate(cap: Capacity, st: State, k: Key, job: Job)
    requires Fresh(cap, st)
    ensures Fresh(cap, PutJob(st, k, job))
  {
    var st1 := PutJob(st, k, job);
    forall j | j in st1.passes ensures PassFresh(cap, st1, j, st1.passes[j]) {
      assert PassFresh(cap, st, j, st.passes[j]);
    }
  }

  lemma CreateStepPays(cap: Capacity, st: State, k: Key, svc: InferenceService, model: Model, reply: Reply)
    requires Fresh(cap, st) && Get(st.passes, k) == Some(JobAbsent(svc, model))
    ensures Pays(cap, st, AdvanceCreate(st, k, svc, model, reply), k, if reply.Lost? then 2 else 0)
  {
    assert PassFresh(cap, st, k, st.passes[k]);
    var st' := AdvanceCreate(st, k, svc, model, reply);
    if Landed(reply) && k !in st.store.jobs {
      var st1 := PutJob(st, k, BuildJob(svc, model, st.clock));
      FreshAfterCreate(cap, st, k, BuildJob(svc, model, st.clock));
      FreshAfterMove(cap, st1, k, st'.passes[k]);
      assert st.store.jobs != st1.store.jobs;
    } else {
      FreshAfterMove(cap, st, k, st'.passes[k]);
      if k in st.store.jobs {
        QuietMovePays(cap, st, st', k);
      } else {
        LossPays(cap, st, st', k);
      }
    }
  }

  lemma StepPays(cap: Capacity, st: State, k: Key, reply: Reply, now: nat)
    requires Fresh(cap, st) && k in st.passes
    ensures Pays(cap, st, Advance(cap, st, k, reply, now), k, if LosesJobCall(st, Step(k, reply, now)) then 2 else 0)
  {
    match st.passes[k] {
      case SawTenant(_, _, _) => StatusStepPays(cap, st, k, reply, now);
      case JobTried(_, _, _) => WorkloadStepPays(cap, st, k, reply, now);
      case _ =>
        OtherAdvance(cap, st, k, reply, now);
        OtherStepPays(cap, st, k, reply);
    }
  }

  // ---------- other actions and runs ----------

  lemma ServiceDeliveryFresh(cap: Capacity, st: State, k: Key, v: Option<InferenceService>)
    requires Fresh(cap, st) && Frozen(st, DeliverService(k, v))
    ensures Fresh(cap, Next(cap, st, DeliverService(k, v)))
  {
    var st' := Next(cap, st, DeliverService(k, v));
    forall i | i in st'.cache.services ensures Snapshot(st', i, st'.cache.services[i]) {
      assert Get(st'.cache.services, i) == Some(st'.cache.services[i]);
      if i != k { assert Get(st.cache.services, i) == Some(st'.cache.services[i]); }
    }
  }

  /** What only the operator's own steps change: services, and which Jobs there are. */
  ghost predicate SameButJobContents(st: State, st': State) {
    && st'.store.services == st.store.services && st'.store.models == st.store.models
    && st'.store.tenants == st.store.tenants && st'.store.jobs.Keys == st.store.jobs.Keys
  }

  /** Deliveries, updates of stored Jobs and queue moves keep freshness and raise no potential. */
  lemma IdleActionPays(cap: Capacity, st: State, a: Action, j: Key)
    requires Fresh(cap, st) && Frozen(st, a) && !a.Step?
    ensures var st' := Next(cap, st, a);
            Fresh(cap, st') && SameButJobContents(st, st') && Potential(cap, st', j) <= Potential(cap, st, j)
  {
    var st' := Next(cap, st, a);
    match a {
      case DeliverJob(k, job) => JobDeliveryPays(cap, st, k, job, j);
      case Take(k) => TakePays(cap, st, k, j);
      case EnvJob(k, job) =>
        JobUpdateFresh(cap, st, k, job);
        PotentialElsewhere(cap, st, st', j);
      case DeliverService(k, svc) =>
        ServiceDeliveryFresh(cap, st, k, svc);
        PotentialElsewhere(cap, st, st', j);
      case _ =>
        RedeliveryFresh(cap, st, a);
        PotentialElsewhere(cap, st, st', j);
    }
  }

  lemma JobUpdateFresh(cap: Capacity, st: State, k: Key, v: Option<Job>)
    requires Fresh(cap, st) && Frozen(st, EnvJob(k, v))
    ensures var st' := Next(cap, st, EnvJob(k, v));
            && Fresh(cap, st') && SameButJobContents(st, st') && st'.passes == st.passes && st'.cache == st.cache
  {
    var st' := Next(cap, st, EnvJob(k, v));
    assert st'.store.jobs == st.store.jobs[k := v.value];
    forall j | j in st'.passes ensures PassFresh(cap, st', j, st'.passes[j]) {
      assert PassFresh(cap, st, j, st.passes[j]);
    }
  }

  lemma TakePays(cap: Capacity, st: State, k: Key, j: Key)
    requires Fresh(cap, st) && Frozen(st, Take(k))
    ensures var st' := Next(cap, st, Take(k));
            Fresh(cap, st') && st'.store == st.store && Potential(cap, st', j) <= Potential(cap, st, j)
  {
    var st' := Next(cap, st, Take(k));
    FreshAfterMove(cap, st.(dirty := st.dirty - {k}), k, Begun);
    if j == k {
      QuietMovePays(cap, st, st', j);
    } else {
      PotentialElsewhere(cap, st, st', j);
    }
  }

  /** Delivering what the cache already shows of Models and Tenants, or ending a delay. */
  lemma RedeliveryFresh(cap: Capacity, st: State, a: Action)
    requires Fresh(cap, st) && Frozen(st, a) && (a.DeliverModel? || a.DeliverTenant? || a.Fire?)
    ensures var st' := Next(cap, st, a);
            && Fresh(cap, st') && st'.store == st.store && st'.passes == st.passes
            && st'.cache.jobs == st.cache.jobs
  {
    var st' := Next(cap, st, a);
    assert st'.cache.models == st.cache.models && st'.cache.tenants == st.cache.tenants;
  }

  lemma JobDeliveryPays(cap: Capacity, st: State, k: Key, v: Option<Job>, j: Key)
    requires Fresh(cap, st) && Frozen(st, DeliverJob(k, v))
    ensures var st' := Next(cap, st, DeliverJob(k, v));
            Fresh(cap, st') && st'.store == st.store && Potential(cap, st', j) <= Potential(cap, st, j)
  {
    var st' := Next(cap, st, DeliverJob(k, v));
    forall i | i in st'.cache.jobs ensures i in st'.store.jobs {
      assert Get(st'.cache.jobs, i) == Some(st'.cache.jobs[i]);
      if i != k { assert Get(st.cache.jobs, i) == Some(st'.cache.jobs[i]); }
    }
    assert Get(st'.cache.jobs, j) == if j == k then v else Get(st.cache.jobs, j);
    CachingJobPays(cap, st, st', j);
  }

  /** Catching up on a Job raises no potential. */
  lemma CachingJobPays(cap: Capacity, st: State, st': State, j: Key)
    requires st.store == st'.store && st.passes == st'.passes
    requires j in st.cache.jobs ==> j in st.store.jobs && j in st'.cache.jobs
    requires j in st'.cache.jobs ==> j in st.store.jobs
    ensures Potential(cap, st', j) <= Potential(cap, st, j)
  {
  }

  ghost function Total(cap: Capacity, st: State): nat {
    Sum(st.store.services.Keys, j => Potential(cap, st, j))
  }

  /** What a step adds to the potential by losing a Job call. */
  function LossOf(st: State, a: Action): nat {
    if LosesJobCall(st, a) then 2 else 0
  }

  /** Only the operator's writes count. */
  ghost function WriteOf(st: State, a: Action, st': State): nat {
    if a.Step? && Wrote(st, st') then 1 else 0
  }

  lemma StepTotal(cap: Capacity, st: State, k: Key, reply: Reply, now: nat)
    requires Fresh(cap, st) && k in st.passes
    ensures var st' := Advance(cap, st, k, reply, now);
            && Fresh(cap, st') && st'.store.services.Keys == st.store.services.Keys
            && Total(cap, st') + (if Wrote(st, st') then 1 else 0)
               <= Total(cap, st) + LossOf(st, Step(k, reply, now))
  {
    var st' := Advance(cap, st, k, reply, now);
    StepPays(cap, st, k, reply, now);
    StepFrame(cap, st, k, reply, now);
    var keys := st.store.services.Keys;
    var f, g := (j: Key) => Potential(cap, st, j), (j: Key) => Potential(cap, st', j);
    forall j | j != k ensures f(j) == g(j) {
      OtherKeyRests(st, st', k, j);
      PotentialElsewhere(cap, st, st', j);
    }
    SumShift(keys, f, g, k, if Wrote(st, st') then 1 else 0, LossOf(st, Step(k, reply, now)));
  }

  lemma OtherKeyRests(st: State, st': State, k: Key, j: Key)
    requires OnlyConcerns(st, st', k) && j != k
    ensures SameElsewhere(st, st', j)
  {
    assert Get(st.store.jobs, j) == Get(st'.store.jobs, j);
  }

  ghost predicate FrozenRun(cap: Capacity, tr: seq<State>, acts: seq<Action>) {
    && |tr| == |acts| + 1
    && Fresh(cap, tr[0])
    && forall i :: 0 <= i < |acts| ==> FrozenStep(cap, tr, acts, i)
  }

  ghost predicate FrozenStep(cap: Capacity, tr: seq<State>, acts: seq<Action>, i: nat)
    requires |tr| == |acts| + 1
  {
    i < |acts| && Frozen(tr[i], acts[i]) && tr[i + 1] == Next(cap, tr[i], acts[i])
  }

  /** Number of the operator's steps among the first `n` actions that changed the store. */
  ghost function Writes(tr: seq<State>, acts: seq<Action>, n: nat): nat
    requires n < |tr| == |acts| + 1
  {
    if n == 0 then 0 else Writes(tr, acts, n - 1) + WriteOf(tr[n - 1], acts[n - 1], tr[n])
  }

  /** Number of Job calls among the first `n` actions that were lost. */
  function LostJobCalls(tr: seq<State>, acts: seq<Action>, n: nat): nat
    requires n < |tr| == |acts| + 1
  {
    if n == 0 then 0 else LostJobCalls(tr, acts, n - 1) + if LosesJobCall(tr[n - 1], acts[n - 1]) then 1 else 0
  }

  lemma ActionTotal(cap: Capacity, st: State, a: Action)
    requires Fresh(cap, st) && Frozen(st, a)
    ensures var st' := Next(cap, st, a);
            && Fresh(cap, st') && st'.store.services.Keys == st.store.services.Keys
            && Total(cap, st') + WriteOf(st, a, st') <= Total(cap, st) + LossOf(st, a)
  {
    if a.Step? {
      StepTotal(cap, st, a.k, a.reply, a.now);
    } else {
      var st' := Next(cap, st, a);
      forall j ensures Potential(cap, st', j) <= Potential(cap, st, j) {
        IdleActionPays(cap, st, a, j);
      }
      IdleActionPays(cap, st, a, Key("", ""));
      SumMonotone(st.store.services.Keys, j => Potential(cap, st', j), j => Potential(cap, st, j));
    }
  }

  lemma {:induction false} WritesArePaid(cap: Capacity, tr: seq<State>, acts: seq<Action>, n: nat)
    requires FrozenRun(cap, tr, acts) && n < |tr|
    ensures Fresh(cap, tr[n])
    ensures Writes(tr, acts, n) + Total(cap, tr[n]) <= Total(cap, tr[0]) + 2 * LostJobCalls(tr, acts, n)
  {
    if n > 0 {
      WritesArePaid(cap, tr, acts, n - 1);
      assert FrozenStep(cap, tr, acts, n - 1);
      ActionTotal(cap, tr[n - 1], acts[n - 1]);
    }
  }

  /** Services for which a write may still come. */
  ghost function Unsettled(cap: Capacity, st: State): set<Key> {
    set k | k in st.store.services && Potential(cap, st, k) > 0
  }

  /** Services without a Job whose pass has just lost its Job call. */
  function Failing(st: State): set<Key> {
    set k | k in st.store.services && HasFailed(st, k) && k !in st.store.jobs
  }

  /** Over any frozen run, whatever the interleaving, lost calls, conflicts and cache lag, the
      operator writes at most five times per service that was not settled at the start, once more
      for each whose Job call was lost just before, and twice per Job call lost in the run. */
  lemma WritesAreBounded(cap: Capacity, tr: seq<State>, acts: seq<Action>, n: nat)
    requires FrozenRun(cap, tr, acts) && n < |tr|
    ensures Writes(tr, acts, n)
            <= 5 * |Unsettled(cap, tr[0])| + |Failing(tr[0])| + 2 * LostJobCalls(tr, acts, n)
  {
    WritesArePaid(cap, tr, acts, n);
    SumBoundTwo(tr[0].store.services.Keys, j => Potential(cap, tr[0], j), Unsettled(cap, tr[0]), 5, Failing(tr[0]));
  }

  lemma {:induction false} NothingLost(tr: seq<State>, acts: seq<Action>, n: nat)
    requires n < |tr| == |acts| + 1 && forall i :: 0 <= i < |acts| ==> Answered(acts[i])
    ensures LostJobCalls(tr, acts, n) == 0
  {
    if n > 0 {
      NothingLost(tr, acts, n - 1);
      assert Answered(acts[n - 1]);
    }
  }

  // ---------- when every call succeeds ----------

  /** The call is answered and no Create finds its Job already there: the Job cache keeps up with
      the operator's own creations. */
  predicate Smooth(st: State, a: Action) {
    && Answered(a)
    && (a.Step? && Get(st.passes, a.k).Some? && Get(st.passes, a.k).value.JobAbsent? ==> a.k !in st.store.jobs)
  }

  ghost predicate NoJobErrors(st: State) {
    forall k :: k in st.passes && st.passes[k].JobTried? ==> st.passes[k].jobErr.None?
  }

  /** One write for the status, one for the Job, one for its condition. */
  ghost function SmoothPotential(cap: Capacity, st: State, k: Key): (r: nat)
    ensures r <= 3
  {
    if k !in st.store.services then 0
    else (if StatusCurrent(cap, st, k) then 0 else 1)
         + (if !Verdict(cap, st, k).Ok() then 0
            else (if k in st.store.jobs then 0 else 1) + (if WorkloadTrue(st, k) then 0 else 1))
  }

  lemma SmoothElsewhere(cap: Capacity, st: State, st': State, j: Key)
    requires Get(st.store.services, j) == Get(st'.store.services, j) && (j in st.store.jobs <==> j in st'.store.jobs)
    requires st.store.models == st'.store.models && st.store.tenants == st'.store.tenants
    ensures SmoothPotential(cap, st, j) == SmoothPotential(cap, st', j)
  {
    assert j in st.store.services <==> j in st'.store.services;
  }

  lemma SmoothStatusStep(cap: Capacity, st: State, k: Key, now: nat)
    requires Fresh(cap, st) && k in st.passes && st.passes[k].SawTenant?
    ensures var st' := Advance(cap, st, k, Done, now);
            SmoothPotential(cap, st', k) + (if Wrote(st, st') then 1 else 0) <= SmoothPotential(cap, st, k)
  {
    var SawTenant(svc, model, tenant) := st.passes[k];
    assert PassFresh(cap, st, k, st.passes[k]);
    var d := DepsOf(cap, svc, model, tenant);
    var prio := DerivedPriority(svc.spec, tenant);
    assert d == Verdict(cap, st, k) && prio == Rank(st, k);
    var upToDate := StatusUpToDate(svc.status, svc.generation, d, prio);
    var wanted := WantedStatus(svc.status, svc.generation, d, prio, now);
    if !upToDate && Applies(st, k, svc, Done) {
      AppliedWrite(st, k, svc, wanted, Done);
      WantedIsUpToDate(svc.status, svc.generation, d, prio, now);
      StatusKeepsWorkload(svc.status, d, None, now);
      SmoothStatusWrite(cap, st, k, svc, model, d, prio, wanted);
    } else {
      AdvanceStatusQuiet(st, k, svc, model, d, upToDate, wanted);
    }
  }

  lemma AdvanceStatusQuiet(st: State, k: Key, svc: InferenceService, model: Option<Model>, d: Deps, upToDate: bool,
                           wanted: ServiceStatus)
    requires (d.Ok() ==> model.Some?) && (upToDate || !Applies(st, k, svc, Done))
    ensures AdvanceStatus(st, k, svc, model, d, upToDate, wanted, Done).store == st.store
  {
  }

  lemma SmoothStatusWrite(cap: Capacity, st: State, k: Key, svc: InferenceService, model: Option<Model>, d: Deps,
                          prio: Int32, wanted: ServiceStatus)
    requires Snapshot(st, k, svc) && Applies(st, k, svc, Done) && svc == st.store.services[k]
    requires d == Verdict(cap, st, k) && prio == Rank(st, k) && (d.Ok() ==> model.Some?)
    requires !StatusUpToDate(svc.status, svc.generation, d, prio) && StatusUpToDate(wanted, svc.generation, d, prio)
    requires WorkloadUpToDate(wanted, None) <==> WorkloadUpToDate(svc.status, None)
    ensures var st' := AdvanceStatus(st, k, svc, model, d, false, wanted, Done);
            SmoothPotential(cap, st', k) + 1 <= SmoothPotential(cap, st, k)
  {
  }

  lemma SmoothWorkloadStep(cap: Capacity, st: State, k: Key, now: nat)
    requires Fresh(cap, st) && k in st.passes && st.passes[k].JobTried? && st.passes[k].jobErr.None?
    ensures var st' := Advance(cap, st, k, Done, now);
            SmoothPotential(cap, st', k) + (if Wrote(st, st') then 1 else 0) <= SmoothPotential(cap, st, k)
  {
    var svc := st.passes[k].svc;
    assert PassFresh(cap, st, k, st.passes[k]);
    SmoothWorkload(cap, st, k, svc, WorkloadUpToDate(svc.status, None), now);
  }

  lemma SmoothWorkload(cap: Capacity, st: State, k: Key, svc: InferenceService, upToDate: bool, now: nat)
    requires Snapshot(st, k, svc) && Verdict(cap, st, k).Ok() && (upToDate <==> WorkloadUpToDate(svc.status, None))
    ensures var st' := AdvanceWorkload(st, k, svc, None, upToDate, WantedWorkload(svc.status, None, now), Done);
            SmoothPotential(cap, st', k) + (if Wrote(st, st') then 1 else 0) <= SmoothPotential(cap, st, k)
  {
    var wanted := WantedWorkload(svc.status, None, now);
    if !upToDate && Applies(st, k, svc, Done) {
      AppliedWrite(st, k, svc, wanted, Done);
      WorkloadKeepsStatus(svc.status, svc.generation, Verdict(cap, st, k), Rank(st, k), None, now);
      WorkloadEstablished(svc.status, None, now);
      SmoothWorkloadWrite(cap, st, k, svc, wanted);
    } else {
      AdvanceWorkloadQuiet(st, k, svc, None, upToDate, wanted);
    }
  }

  lemma AdvanceWorkloadQuiet(st: State, k: Key, svc: InferenceService, jobErr: Option<Message>, upToDate: bool,
                             wanted: ServiceStatus)
    requires upToDate || !Applies(st, k, svc, Done)
    ensures AdvanceWorkload(st, k, svc, jobErr, upToDate, wanted, Done).store == st.store
  {
  }

  lemma SmoothWorkloadWrite(cap: Capacity, st: State, k: Key, svc: InferenceService, wanted: ServiceStatus)
    requires Snapshot(st, k, svc) && Applies(st, k, svc, Done) && svc == st.store.services[k]
             && Verdict(cap, st, k).Ok()
    requires !WorkloadUpToDate(svc.status, None) && WorkloadUpToDate(wanted, None)
    requires StatusUpToDate(wanted, svc.generation, Verdict(cap, st, k), Rank(st, k))
             <==> StatusUpToDate(svc.status, svc.generation, Verdict(cap, st, k), Rank(st, k))
    ensures var st' := AdvanceWorkload(st, k, svc, None, false, wanted, Done);
            SmoothPotential(cap, st', k) + 1 <= SmoothPotential(cap, st, k)
  {
  }

  lemma SmoothOtherStep(cap: Capacity, st: State, k: Key, p: Pass)
    requires PassFresh(cap, st, k, p) && !p.SawTenant? && !p.JobTried? && (p.JobAbsent? ==> k !in st.store.jobs)
    ensures var st' := AdvanceOther(st, k, p, Done);
            && SmoothPotential(cap, st', k) + (if Wrote(st, st') then 1 else 0) <= SmoothPotential(cap, st, k)
            && (k in st'.passes && st'.passes[k].JobTried? ==> st'.passes[k].jobErr.None?)
  {
  }

  lemma SmoothStepHasNoError(cap: Capacity, st: State, k: Key, now: nat)
    requires Fresh(cap, st) && k in st.passes && Smooth(st, Step(k, Done, now))
    ensures var st' := Advance(cap, st, k, Done, now);
            k in st'.passes && st'.passes[k].JobTried? ==> st'.passes[k].jobErr.None?
  {
    match st.passes[k] {
      case SawTenant(svc, model, tenant) =>
        StatusAdvance(cap, st, k, Done, now);
        var d := DepsOf(cap, svc, model, tenant);
        var prio := DerivedPriority(svc.spec, tenant);
        AdvanceStatusFrame(st, k, svc, model, d, StatusUpToDate(svc.status, svc.generation, d, prio),
                           WantedStatus(svc.status, svc.generation, d, prio, now), Done);
      case JobTried(svc, model, jobErr) =>
        WorkloadAdvance(cap, st, k, Done, now);
        AdvanceWorkloadFrame(st, k, svc, jobErr, WorkloadUpToDate(svc.status, jobErr),
                             WantedWorkload(svc.status, jobErr, now), Done);
      case p =>
        OtherAdvance(cap, st, k, Done, now);
        assert PassFresh(cap, st, k, p);
        SmoothOtherStep(cap, st, k, p);
    }
  }

  ghost function SmoothTotal(cap: Capacity, st: State): nat {
    Sum(st.store.services.Keys, j => SmoothPotential(cap, st, j))
  }

  lemma SmoothStepPays(cap: Capacity, st: State, k: Key, now: nat)
    requires Fresh(cap, st) && NoJobErrors(st) && k in st.passes && Smooth(st, Step(k, Done, now))
    ensures var st' := Advance(cap, st, k, Done, now);
            SmoothPotential(cap, st', k) + (if Wrote(st, st') then 1 else 0) <= SmoothPotential(cap, st, k)
  {
    match st.passes[k] {
      case SawTenant(_, _, _) => SmoothStatusStep(cap, st, k, now);
      case JobTried(_, _, _) => SmoothWorkloadStep(cap, st, k, now);
      case p =>
        assert PassFresh(cap, st, k, p);
        SmoothOtherStep(cap, st, k, p);
    }
  }

  lemma SmoothStep(cap: Capacity, st: State, k: Key, now: nat)
    requires Fresh(cap, st) && NoJobErrors(st) && k in st.passes && Smooth(st, Step(k, Done, now))
    ensures NoJobErrors(Advance(cap, st, k, Done, now))
    ensures var st' := Advance(cap, st, k, Done, now);
            SmoothTotal(cap, st') + (if Wrote(st, st') then 1 else 0) <= SmoothTotal(cap, st)
  {
    var st' := Advance(cap, st, k, Done, now);
    StepFrame(cap, st, k, Done, now);
    SmoothStepPays(cap, st, k, now);
    SmoothStepHasNoError(cap, st, k, now);
    SmoothSumPays(cap, st, st', k);
    forall j | j in st'.passes && st'.passes[j].JobTried? ensures st'.passes[j].jobErr.None? {
      if j != k { assert Get(st.passes, j) == Get(st'.passes, j); }
    }
  }

  lemma SmoothSumPays(cap: Capacity, st: State, st': State, k: Key)
    requires OnlyConcerns(st, st', k) && st'.store.services.Keys == st.store.services.Keys
    requires SmoothPotential(cap, st', k) + (if Wrote(st, st') then 1 else 0) <= SmoothPotential(cap, st, k)
    ensures SmoothTotal(cap, st') + (if Wrote(st, st') then 1 else 0) <= SmoothTotal(cap, st)
  {
    var f, g := (j: Key) => SmoothPotential(cap, st, j), (j: Key) => SmoothPotential(cap, st', j);
    forall j | j != k ensures f(j) == g(j) {
      OtherKeyRests(st, st', k, j);
      SmoothElsewhere(cap, st, st', j);
    }
    SumShift(st.store.services.Keys, f, g, k, if Wrote(st, st') then 1 else 0, 0);
  }

  lemma SmoothTotalRests(cap: Capacity, st: State, st': State)
    requires SameButJobContents(st, st')
    ensures SmoothTotal(cap, st') <= SmoothTotal(cap, st)
  {
    forall j ensures SmoothPotential(cap, st', j) <= SmoothPotential(cap, st, j) {
      SmoothElsewhere(cap, st, st', j);
    }
    SumMonotone(st.store.services.Keys, j => SmoothPotential(cap, st', j), j => SmoothPotential(cap, st, j));
  }

  lemma IdleActionHasNoError(cap: Capacity, st: State, a: Action)
    requires NoJobErrors(st) && Frozen(st, a) && !a.Step?
    ensures NoJobErrors(Next(cap, st, a))
  {
  }

  lemma SmoothAction(cap: Capacity, st: State, a: Action)
    requires Fresh(cap, st) && NoJobErrors(st) && Frozen(st, a) && Smooth(st, a)
    ensures var st' := Next(cap, st, a);
            && NoJobErrors(st')
            && SmoothTotal(cap, st') + WriteOf(st, a, st') <= SmoothTotal(cap, st)
  {
    if a.Step? {
      SmoothStep(cap, st, a.k, a.now);
    } else {
      IdleActionPays(cap, st, a, Key("", ""));
      IdleActionHasNoError(cap, st, a);
      SmoothTotalRests(cap, st, Next(cap, st, a));
    }
  }

  lemma {:induction false} SmoothWritesArePaid(cap: Capacity, tr: seq<State>, acts: seq<Action>, n: nat)
    requires FrozenRun(cap, tr, acts) && NoJobErrors(tr[0]) && n < |tr|
    requires forall i :: 0 <= i < |acts| ==> Smooth(tr[i], acts[i])
    ensures NoJobErrors(tr[n]) && Writes(tr, acts, n) + SmoothTotal(cap, tr[n]) <= SmoothTotal(cap, tr[0])
  {
    if n > 0 {
      SmoothWritesArePaid(cap, tr, acts, n - 1);
      WritesArePaid(cap, tr, acts, n - 1);
      assert FrozenStep(cap, tr, acts, n - 1);
      SmoothAction(cap, tr[n - 1], acts[n - 1]);
    }
  }

  /** With every call succeeding, the writes of a frozen run are at most three per service that
      still lacked its status, its Job or its WorkloadReady condition at the start. */
  lemma SmoothWritesAreBounded(cap: Capacity, tr: seq<State>, acts: seq<Action>, n: nat)
    requires FrozenRun(cap, tr, acts) && NoJobErrors(tr[0]) && n < |tr|
    requires forall i :: 0 <= i < |acts| ==> Smooth(tr[i], acts[i])
    ensures var lacking := set k | k in tr[0].store.services && SmoothPotential(cap, tr[0], k) > 0;
            Writes(tr, acts, n) <= 3 * |lacking|
  {
    var lacking := set k | k in tr[0].store.services && SmoothPotential(cap, tr[0], k) > 0;
    SmoothWritesArePaid(cap, tr, acts, n);
    SumBound(tr[0].store.services.Keys, j => SmoothPotential(cap, tr[0], j), lacking, 3);
  }

  /** Why three is not enough in general: with the Job created but its cache still behind, a
      pass on an otherwise settled service finds the Job missing, fails to create it again, and
      its last step stores WorkloadReady=False. */
  lemma LaggingJobCacheFlipsWorkloadReady(cap: Capacity, st: State, k: Key, now: nat)
    requires Fresh(cap, st) && Get(st.passes, k).Some? && st.passes[k].JobAbsent?
    requires k in st.store.jobs && st.passes[k].svc == st.store.services[k] && WorkloadTrue(st, k)
    ensures var st1 := Advance(cap, st, k, Done, now);
            && k in st1.passes && !Wrote(st, st1)
            && var st2 := Advance(cap, st1, k, Done, now);
               Wrote(st1, st2) && k in st2.store.services && WorkloadFalse(st2, k) && k in st2.delayed
  {
    assert PassFresh(cap, st, k, st.passes[k]);
    var st1 := Advance(cap, st, k, Done, now);
    var svc := st.store.services[k];
    var err := Some(ApiError("already exists"));
    assert !WorkloadUpToDate(svc.status, err);
    WorkloadEstablished(svc.status, err, now);
  }

  // ---------- counting writes by the clock ----------

  lemma StepTicks(cap: Capacity, st: State, k: Key, reply: Reply, now: nat)
    requires Fresh(cap, st) && k in st.passes
    ensures var st' := Advance(cap, st, k, reply, now);
            st'.clock == st.clock + if Wrote(st, st') then 1 else 0
  {
    assert PassFresh(cap, st, k, st.passes[k]);
    match st.passes[k] {
      case SawTenant(svc, model, tenant) =>
        StatusAdvance(cap, st, k, reply, now);
        var d := DepsOf(cap, svc, model, tenant);
        var prio := DerivedPriority(svc.spec, tenant);
        StatusTicks(st, k, svc, model, d, StatusUpToDate(svc.status, svc.generation, d, prio),
                    WantedStatus(svc.status, svc.generation, d, prio, now), reply);
      case JobTried(svc, _, jobErr) =>
        WorkloadAdvance(cap, st, k, reply, now);
        WorkloadTicks(st, k, svc, jobErr, WorkloadUpToDate(svc.status, jobErr),
                      WantedWorkload(svc.status, jobErr, now), reply);
      case p =>
        OtherAdvance(cap, st, k, reply, now);
        OtherTicks(st, k, p, reply);
    }
  }

  lemma StatusTicks(st: State, k: Key, svc: InferenceService, model: Option<Model>, d: Deps, upToDate: bool,
                    wanted: ServiceStatus, reply: Reply)
    requires Snapshot(st, k, svc) && (d.Ok() ==> model.Some?)
    ensures var st' := AdvanceStatus(st, k, svc, model, d, upToDate, wanted, reply);
            st'.clock == st.clock + if Wrote(st, st') then 1 else 0
  {
    PutTicks(st, k, svc, wanted, reply);
  }

  lemma WorkloadTicks(st: State, k: Key, svc: InferenceService, jobErr: Option<Message>, upToDate: bool,
                      wanted: ServiceStatus, reply: Reply)
    requires Snapshot(st, k, svc)
    ensures var st' := AdvanceWorkload(st, k, svc, jobErr, upToDate, wanted, reply);
            st'.clock == st.clock + if Wrote(st, st') then 1 else 0
  {
    PutTicks(st, k, svc, wanted, reply);
  }

  lemma PutTicks(st: State, k: Key, svc: InferenceService, wanted: ServiceStatus, reply: Reply)
    requires Snapshot(st, k, svc)
    ensures var st' := PutStatus(st, k, svc, wanted, reply);
            st'.clock == st.clock + if st'.store.services != st.store.services then 1 else 0
    ensures PutStatus(st, k, svc, wanted, reply).store.jobs == st.store.jobs
  {
    var st' := PutStatus(st, k, svc, wanted, reply);
    if Applies(st, k, svc, reply) {
      assert st'.store.services[k].version == st.clock != st.store.services[k].version;
    }
  }

  lemma OtherTicks(st: State, k: Key, p: Pass, reply: Reply)
    requires !p.SawTenant? && !p.JobTried?
    ensures var st' := AdvanceOther(st, k, p, reply);
            st'.clock == st.clock + if Wrote(st, st') then 1 else 0
  {
    var st' := AdvanceOther(st, k, p, reply);
    if p.JobAbsent? && Landed(reply) && k !in st.store.jobs {
      assert k in st'.store.jobs;
    }
  }

  /** In a frozen run in which nobody else updates Jobs the clock ticks once per write. */
  lemma {:induction false} WritesAreTicks(cap: Capacity, tr: seq<State>, acts: seq<Action>, n: nat)
    requires FrozenRun(cap, tr, acts) && n < |tr| && forall i :: 0 <= i < |acts| ==> !acts[i].EnvJob?
    ensures tr[n].clock == tr[0].clock + Writes(tr, acts, n)
  {
    if n > 0 {
      WritesAreTicks(cap, tr, acts, n - 1);
      WritesArePaid(cap, tr, acts, n - 1);
      var st, a := tr[n - 1], acts[n - 1];
      assert FrozenStep(cap, tr, acts, n - 1);
      if a.Step? {
        StepTicks(cap, st, a.k, a.reply, a.now);
      } else {
        IdleActionTicks(cap, st, a);
      }
    }
  }

  lemma IdleActionTicks(cap: Capacity, st: State, a: Action)
    requires Frozen(st, a) && !a.Step? && !a.EnvJob?
    ensures Next(cap, st, a).clock == st.clock
  {
  }
}
