/** The InferenceService control loop as a transition system: the API server's store, the
    operator's lagging informer cache, the work queue, and at most one pass per key in flight,
    each pass advancing one API call at a time.  Everything else in the cluster (users, the
    Model and Tenant controllers, Kueue) is environment. */
module ControlLoop {
  import opened Resources
  import opened Conditions
  import opened ServiceStatusRules
  import opened Workload

  datatype Objects = Objects(
    services: map<Key, InferenceService>, models: map<Key, Model>,
    tenants: map<string, Tenant>, jobs: map<Key, Job>)

  const NoObjects := Objects(map[], map[], map[], map[])

  /** A pass in flight, by what it has read and done so far. */
  datatype Pass =
    | Begun
    | SawService(svc: InferenceService)
    | SawModel(svc: InferenceService, model: Option<Model>)
    | SawTenant(svc: InferenceService, model: Option<Model>, tenant: Option<Tenant>)
    | StatusDone(svc: InferenceService, ready: Model)
    | JobAbsent(svc: InferenceService, ready: Model)
    | JobTried(svc: InferenceService, ready: Model, jobErr: Option<Message>)

  /** `dirty` is the work queue's dirty set, `delayed` the keys waiting for a back-off or a
      RequeueAfter, `clock` the next resource version. */
  datatype State = State(
    store: Objects, cache: Objects,
    dirty: set<Key>, delayed: set<Key>, passes: map<Key, Pass>, clock: nat)

  /** What an API call reports.  A call that reports an error may have been applied or not. */
  datatype Reply = Done | Lost(applied: bool, text: string)

  /** Whether a call that is issued takes effect, even if its answer is lost. */
  predicate Landed(reply: Reply) {
    reply.Done? || reply.applied
  }

  function ModelKey(svc: InferenceService): Key {
    Key(svc.key.ns, svc.spec.model)
  }

  // ---------- one pass, call by call ----------

  /** Reconcile returns; an error or a RequeueAfter leaves the key waiting. */
  function Finish(st: State, k: Key, requeue: bool): State {
    st.(passes := st.passes - {k}, delayed := if requeue then st.delayed + {k} else st.delayed)
  }

  function Move(st: State, k: Key, p: Pass): State {
    st.(passes := st.passes[k := p])
  }

  /** Whether a status update of a snapshot reaches the store: optimistic concurrency. */
  predicate Applies(st: State, k: Key, svc: InferenceService, reply: Reply) {
    && Landed(reply)
    && k in st.store.services && st.store.services[k].version == svc.version
  }

  function Stored(st: State, svc: InferenceService, status: ServiceStatus): InferenceService {
    svc.(status := status, version := st.clock)
  }

  /** Status().Update on a snapshot. */
  function PutStatus(st: State, k: Key, svc: InferenceService, status: ServiceStatus, reply: Reply): State {
    if Applies(st, k, svc, reply)
    then st.(store := st.store.(services := st.store.services[k := Stored(st, svc, status)]), clock := st.clock + 1)
    else st
  }

  function PutJob(st: State, k: Key, job: Job): State {
    st.(store := st.store.(jobs := st.store.jobs[k := job]), clock := st.clock + 1)
  }

  /** After updateStatus: wait for dependencies, or go on to the Job. */
  function AfterStatus(st: State, k: Key, svc: InferenceService, model: Option<Model>, d: Deps): State
    requires d.Ok() ==> model.Some?
  {
    if d.Ok() then Move(st, k, StatusDone(svc, model.value)) else Finish(st, k, true)
  }

  function DepsOf(cap: Capacity, svc: InferenceService, model: Option<Model>, tenant: Option<Tenant>): (d: Deps)
    ensures d.Ok() ==> && model.Some? && ModelIsReady(model.value) && tenant.Some?
                       && KnownProfile(svc.spec.resourceProfile)
  {
    Assess(cap, svc.spec, svc.key.ns, model, tenant)
  }

  /** updateStatus and what follows, given whether the comparison found the status unchanged. */
  function AdvanceStatus(st: State, k: Key, svc: InferenceService, model: Option<Model>, d: Deps,
                         upToDate: bool, wanted: ServiceStatus, reply: Reply): State
    requires d.Ok() ==> model.Some?
  {
    if upToDate then AfterStatus(st, k, svc, model, d)
    else
      var st' := PutStatus(st, k, svc, wanted, reply);
      if reply.Done? && Applies(st, k, svc, reply) then AfterStatus(st', k, Stored(st, svc, wanted), model, d)
      else Finish(st', k, true)
  }

  /** updateWorkloadCondition and the end of Reconcile. */
  function AdvanceWorkload(st: State, k: Key, svc: InferenceService, jobErr: Option<Message>,
                           upToDate: bool, wanted: ServiceStatus, reply: Reply): State {
    if upToDate then Finish(st, k, jobErr.Some?)
    else
      var st' := PutStatus(st, k, svc, wanted, reply);
      Finish(st', k, jobErr.Some? || !(reply.Done? && Applies(st, k, svc, reply)))
  }

  function WantedWorkload(status: ServiceStatus, jobErr: Option<Message>, now: nat): ServiceStatus {
    status.(conditions := Upsert(status.conditions, WorkloadCondition(jobErr, now)))
  }

  function AdvanceCreate(st: State, k: Key, svc: InferenceService, model: Model, reply: Reply): State {
    var created := Landed(reply) && k !in st.store.jobs;
    var st' := if created then PutJob(st, k, BuildJob(svc, model, st.clock)) else st;
    var err := if reply.Lost? then Some(ApiError(reply.text))
               else if created then None else Some(ApiError("already exists"));
    Move(st', k, JobTried(svc, model, err))
  }

  /** The calls that read, and the Job's creation. */
  function AdvanceOther(st: State, k: Key, p: Pass, reply: Reply): State
    requires !p.SawTenant? && !p.JobTried?
  {
    match p
    case Begun =>
      if reply.Lost? then Finish(st, k, true)
      else if k in st.cache.services then Move(st, k, SawService(st.cache.services[k]))
      else Finish(st, k, false)
    case SawService(svc) =>
      if reply.Lost? then Finish(st, k, true)
      else Move(st, k, SawModel(svc, Get(st.cache.models, ModelKey(svc))))
    case SawModel(svc, model) =>
      if reply.Lost? then Finish(st, k, true)
      else Move(st, k, SawTenant(svc, model, Get(st.cache.tenants, svc.key.ns)))
    case StatusDone(svc, model) =>
      if reply.Lost? then Move(st, k, JobTried(svc, model, Some(ApiError(reply.text))))
      else if svc.key in st.cache.jobs then Move(st, k, JobTried(svc, model, None))
      else Move(st, k, JobAbsent(svc, model))
    case JobAbsent(svc, model) => AdvanceCreate(st, k, svc, model, reply)
  }

  /** The next API call of the pass on `k`. */
  ghost function Advance(cap: Capacity, st: State, k: Key, reply: Reply, now: nat): State
    requires k in st.passes
  {
    match st.passes[k]
    case SawTenant(svc, model, tenant) =>
      var d := DepsOf(cap, svc, model, tenant);
      var prio := DerivedPriority(svc.spec, tenant);
      AdvanceStatus(st, k, svc, model, d, StatusUpToDate(svc.status, svc.generation, d, prio),
                    WantedStatus(svc.status, svc.generation, d, prio, now), reply)
    case JobTried(svc, model, jobErr) =>
      AdvanceWorkload(st, k, svc, jobErr, WorkloadUpToDate(svc.status, jobErr),
                      WantedWorkload(svc.status, jobErr, now), reply)
    case p => AdvanceOther(st, k, p, reply)
  }

  /** The next call is the status update, the workload condition update, or one of the others. */
  lemma StatusAdvance(cap: Capacity, st: State, k: Key, reply: Reply, now: nat)
    requires k in st.passes && st.passes[k].SawTenant?
    ensures var SawTenant(svc, model, tenant) := st.passes[k];
            var d, prio := DepsOf(cap, svc, model, tenant), DerivedPriority(svc.spec, tenant);
            Advance(cap, st, k, reply, now)
            == AdvanceStatus(st, k, svc, model, d, StatusUpToDate(svc.status, svc.generation, d, prio),
                             WantedStatus(svc.status, svc.generation, d, prio, now), reply)
  {
  }

  lemma WorkloadAdvance(cap: Capacity, st: State, k: Key, reply: Reply, now: nat)
    requires k in st.passes && st.passes[k].JobTried?
    ensures var JobTried(svc, _, jobErr) := st.passes[k];
            Advance(cap, st, k, reply, now)
            == AdvanceWorkload(st, k, svc, jobErr, WorkloadUpToDate(svc.status, jobErr),
                               WantedWorkload(svc.status, jobErr, now), reply)
  {
  }

  lemma OtherAdvance(cap: Capacity, st: State, k: Key, reply: Reply, now: nat)
    requires k in st.passes && !st.passes[k].SawTenant? && !st.passes[k].JobTried?
    ensures Advance(cap, st, k, reply, now) == AdvanceOther(st, k, st.passes[k], reply)
  {
  }

  // ---------- the whole system ----------

  datatype Action =
    // anyone outside the loop writes or deletes an object
    | EnvService(k: Key, svc: Option<InferenceService>)
    | EnvModel(mk: Key, model: Option<Model>)
    | EnvTenant(ns: string, tenant: Option<Tenant>)
    | EnvJob(k: Key, job: Option<Job>)
    // the informer cache moves and its event handlers run
    | DeliverService(k: Key, svc: Option<InferenceService>)
    | DeliverModel(mk: Key, model: Option<Model>)
    | DeliverTenant(ns: string, tenant: Option<Tenant>)
    | DeliverJob(k: Key, job: Option<Job>)
    // the work queue and its workers
    | Fire(k: Key)
    | Take(k: Key)
    | Step(k: Key, reply: Reply, now: nat)
    // the operator process restarts
    | Restart

  /** Writes get a fresh resource version and objects live under their own key; what the cache
      shows was written earlier. */
  predicate Enabled(st: State, a: Action) {
    match a
    case EnvService(k, svc) => svc.Some? ==> svc.value.key == k && svc.value.version == st.clock
    case EnvModel(mk, m) => m.Some? ==> m.value.key == mk && m.value.version == st.clock
    case EnvTenant(ns, t) => t.Some? ==> t.value.name == ns && t.value.version == st.clock
    case EnvJob(k, j) => j.Some? ==> j.value.key == k && j.value.version == st.clock
    case DeliverService(k, svc) => svc.Some? ==> svc.value.key == k && svc.value.version < st.clock
    case DeliverModel(mk, m) => m.Some? ==> m.value.key == mk && m.value.version < st.clock
    case DeliverTenant(ns, t) => t.Some? ==> t.value.name == ns && t.value.version < st.clock
    case DeliverJob(k, j) => j.Some? ==> j.value.key == k && j.value.version < st.clock
    case Fire(k) => k in st.delayed
    case Take(k) => k in st.dirty && k !in st.passes
    case Step(k, _, _) => k in st.passes
    case Restart => true
  }

  /** mapModelToInferenceServices over the cache: the services of the Model's namespace that
      reference it. */
  function Referencing(services: map<Key, InferenceService>, mk: Key): set<Key> {
    set k | k in services && ModelKey(services[k]) == mk :: services[k].key
  }

  ghost function Next(cap: Capacity, st: State, a: Action): State
    requires Enabled(st, a)
  {
    match a
    case EnvService(k, svc) =>
      st.(store := st.store.(services := Put(st.store.services, k, svc)), clock := st.clock + 1)
    case EnvModel(mk, m) => st.(store := st.store.(models := Put(st.store.models, mk, m)), clock := st.clock + 1)
    case EnvTenant(ns, t) => st.(store := st.store.(tenants := Put(st.store.tenants, ns, t)), clock := st.clock + 1)
    case EnvJob(k, j) => st.(store := st.store.(jobs := Put(st.store.jobs, k, j)), clock := st.clock + 1)
    case DeliverService(k, svc) =>
      st.(cache := st.cache.(services := Put(st.cache.services, k, svc)), dirty := st.dirty + {k})
    case DeliverModel(mk, m) =>
      st.(cache := st.cache.(models := Put(st.cache.models, mk, m)),
          dirty := st.dirty + Referencing(st.cache.services, mk))
    case DeliverTenant(ns, t) => st.(cache := st.cache.(tenants := Put(st.cache.tenants, ns, t)))
    case DeliverJob(k, j) => st.(cache := st.cache.(jobs := Put(st.cache.jobs, k, j)))
    case Fire(k) => st.(delayed := st.delayed - {k}, dirty := st.dirty + {k})
    case Take(k) => st.(dirty := st.dirty - {k}, passes := st.passes[k := Begun])
    case Step(k, reply, now) => Advance(cap, st, k, reply, now)
    case Restart => State(st.store, NoObjects, {}, {}, map[], st.clock)
  }

  /** The operator has just started against an arbitrary store. */
  ghost predicate Init(st: State) {
    && st.cache == NoObjects && st.dirty == {} && st.delayed == {} && st.passes == map[]
    && SaneServices(st.store.services, st.clock)
  }

  ghost predicate SaneServices(services: map<Key, InferenceService>, clock: nat) {
    forall k :: k in services ==> services[k].key == k && services[k].version < clock
  }

  /** A run and the actions it takes. */
  ghost predicate IsRun(cap: Capacity, tr: seq<State>, acts: seq<Action>) {
    && |tr| == |acts| + 1
    && Init(tr[0])
    && forall i :: 0 <= i < |acts| ==> StepAt(cap, tr, acts, i)
  }

  ghost predicate StepAt(cap: Capacity, tr: seq<State>, acts: seq<Action>, i: nat)
    requires |tr| == |acts| + 1
  {
    i < |acts| && Enabled(tr[i], acts[i]) && tr[i + 1] == Next(cap, tr[i], acts[i])
  }

  // ---------- what one step of a pass can touch ----------

  /** `st'` differs from `st` only in what concerns `k`: its service, pass, delay and Job. */
  ghost predicate OnlyConcerns(st: State, st': State, k: Key) {
    && (forall j :: j != k ==> Get(st.store.services, j) == Get(st'.store.services, j))
    && (forall j :: j != k ==> Get(st.store.jobs, j) == Get(st'.store.jobs, j))
    && (forall j :: j != k ==> Get(st.passes, j) == Get(st'.passes, j))
    && st.store.services.Keys == st'.store.services.Keys
    && st.store.models == st'.store.models && st.store.tenants == st'.store.tenants
    && st.cache == st'.cache && st.dirty == st'.dirty
    && st.delayed <= st'.delayed <= st.delayed + {k}
    && st.clock <= st'.clock
  }

  lemma AdvanceStatusFrame(st: State, k: Key, svc: InferenceService, model: Option<Model>, d: Deps,
                           upToDate: bool, wanted: ServiceStatus, reply: Reply)
    requires d.Ok() ==> model.Some?
    ensures OnlyConcerns(st, AdvanceStatus(st, k, svc, model, d, upToDate, wanted, reply), k)
    ensures var st' := AdvanceStatus(st, k, svc, model, d, upToDate, wanted, reply);
            && st'.store.jobs == st.store.jobs
            && (k in st'.passes ==> d.Ok() && st'.passes[k].StatusDone? && st'.passes[k].ready == model.value
                                    && st'.passes[k].svc.(status := svc.status, version := svc.version) == svc)
  {
  }

  lemma AdvanceWorkloadFrame(st: State, k: Key, svc: InferenceService, jobErr: Option<Message>,
                             upToDate: bool, wanted: ServiceStatus, reply: Reply)
    ensures OnlyConcerns(st, AdvanceWorkload(st, k, svc, jobErr, upToDate, wanted, reply), k)
    ensures var st' := AdvanceWorkload(st, k, svc, jobErr, upToDate, wanted, reply);
            st'.store.jobs == st.store.jobs && k !in st'.passes
  {
  }

  lemma AdvanceOtherFrame(st: State, k: Key, p: Pass, reply: Reply)
    requires !p.SawTenant? && !p.JobTried?
    ensures var st' := AdvanceOther(st, k, p, reply);
            && OnlyConcerns(st, st', k) && st'.store.services == st.store.services
            && (|| st'.store.jobs == st.store.jobs
                || (&& k !in st.store.jobs && p.JobAbsent?
                    && st'.store.jobs == st.store.jobs[k := BuildJob(p.svc, p.ready, st.clock)]))
  {
  }

  lemma JobStepKeepsSnapshots(st: State, k: Key, p: Pass, reply: Reply)
    requires p.StatusDone? || p.JobAbsent?
    ensures var st' := AdvanceOther(st, k, p, reply);
            && st'.cache == st.cache && k in st'.passes
            && (st'.passes[k].JobAbsent? || st'.passes[k].JobTried?)
            && st'.passes[k].svc == p.svc && st'.passes[k].ready == p.ready
  {
  }

  /** A step of a pass touches only its own key, and of the stored Jobs only adds the one it
      builds. */
  lemma StepFrame(cap: Capacity, st: State, k: Key, reply: Reply, now: nat)
    requires k in st.passes
    ensures var st' := Advance(cap, st, k, reply, now);
            && OnlyConcerns(st, st', k)
            && (|| st'.store.jobs == st.store.jobs
                || (&& k !in st.store.jobs && st.passes[k].JobAbsent?
                    && st'.store.jobs == st.store.jobs[k := BuildJob(st.passes[k].svc, st.passes[k].ready, st.clock)]))
  {
    match st.passes[k] {
      case SawTenant(svc, model, tenant) =>
        var d := DepsOf(cap, svc, model, tenant);
        var prio := DerivedPriority(svc.spec, tenant);
        AdvanceStatusFrame(st, k, svc, model, d, StatusUpToDate(svc.status, svc.generation, d, prio),
                           WantedStatus(svc.status, svc.generation, d, prio, now), reply);
      case JobTried(svc, model, jobErr) =>
        AdvanceWorkloadFrame(st, k, svc, jobErr, WorkloadUpToDate(svc.status, jobErr),
                             WantedWorkload(svc.status, jobErr, now), reply);
      case p => AdvanceOtherFrame(st, k, p, reply);
    }
  }
}
