/** The InferenceService controller's two status writes as attempts of the status writer. */
module ServiceSuppression {
  import opened Resources
  import opened Conditions
  import opened StatusWriter
  import opened ServiceStatusRules
  import opened Workload
  import opened ControlLoop
  import opened ReconcilePass

  datatype Rest = Rest(phase: Phase, derivedPriority: Int32, observedGeneration: nat)

  function AsRecord(s: ServiceStatus): Record<Rest> {
    Record(s.conditions, Rest(s.phase, s.derivedPriority, s.observedGeneration))
  }

  function StatusAttempt(d: Deps, prio: Int32, generation: nat, now: nat, delivered: bool): Attempt<Rest> {
    Attempt(DependencyConditions(d, now), Some(Rest(PhaseOf(d), prio, generation)), delivered)
  }

  function WorkloadAttempt(jobErr: Option<Message>, now: nat, delivered: bool): Attempt<Rest> {
    Attempt([WorkloadCondition(jobErr, now)], None, delivered)
  }

  /** updateStatus and updateWorkloadCondition, as the control loop has them, issue their writes
      exactly as the suppressing writer does and want the same status stored. */
  lemma ServiceWritesAreAttempts(status: ServiceStatus, d: Deps, prio: Int32, generation: nat, jobErr: Option<Message>,
                                 now: nat, delivered: bool)
    ensures var a := StatusAttempt(d, prio, generation, now, delivered);
            && (Issues(AsRecord(status), a) <==> !StatusUpToDate(status, generation, d, prio))
            && Wanted(AsRecord(status), a) == AsRecord(WantedStatus(status, generation, d, prio, now))
    ensures var b := WorkloadAttempt(jobErr, now, delivered);
            && (Issues(AsRecord(status), b) <==> !WorkloadUpToDate(status, jobErr))
            && Wanted(AsRecord(status), b)
               == AsRecord(status.(conditions := Upsert(status.conditions, WorkloadCondition(jobErr, now))))
  {
    StatusComparison(status, generation, d, prio, now);
    WorkloadComparison(status, jobErr, now);
    var c := WorkloadCondition(jobErr, now);
    assert UpsertAll(status.conditions, [c]) == Upsert(status.conditions, c) by {
      assert [c][1..] == [];
    }
  }

  // ---------- messages ----------

  /** Once updateStatus has gone through, all six conditions carry the wanted messages exactly when
      the status was not up to date or they carried them before. */
  lemma ServiceMessagesAreCurrentExactlyWhen(status: ServiceStatus, generation: nat, d: Deps, prio: Int32, now: nat)
    ensures var w := AfterUpdate(status, generation, d, prio, now);
            (forall i :: 0 <= i < 6 ==> Carries(w.conditions, DependencyConditions(d, now)[i]))
            <==> (|| !StatusUpToDate(status, generation, d, prio)
                  || forall i :: 0 <= i < 6 ==> Carries(status.conditions, DependencyConditions(d, now)[i]))
  {
    DependencyConditionsDistinct(d, now);
    ServiceWritesAreAttempts(status, d, prio, generation, None, now, true);
    MessagesAreCurrentExactlyWhen(AsRecord(status), StatusAttempt(d, prio, generation, now, true));
  }

  /** A stale message: a first pass stores that the Model is missing; when the Model then exists
      but is not ready, the wanted message is another one and nothing is written. */
  lemma MessagesCanBeStale(name: string, generation: nat, prio: Int32, now: nat)
    ensures var x := Deps(Some(ModelMissing(name)), None, None, None);
            var y := Deps(Some(ModelUnready(name)), None, None, None);
            var status := AfterUpdate(EmptyServiceStatus, generation, x, prio, now);
            && AfterUpdate(status, generation, y, prio, now) == status
            && Saying(status.conditions, ModelReady).Some?
            && Saying(status.conditions, ModelReady).value.message == ModelMissing(name)
            && DependencyConditions(y, now)[0].message == ModelUnready(name)
            && !Carries(status.conditions, DependencyConditions(y, now)[0])
  {
    var x, y := Deps(Some(ModelMissing(name)), None, None, None), Deps(Some(ModelUnready(name)), None, None, None);
    var status := AfterUpdate(EmptyServiceStatus, generation, x, prio, now);
    assert !Holds(EmptyServiceStatus.conditions, DependencyConditions(x, 0)[0]);
    WantedIsUpToDate(EmptyServiceStatus, generation, x, prio, now);
    forall i | 0 <= i < 6 ensures Holds(status.conditions, DependencyConditions(y, 0)[i]) {
      assert Holds(status.conditions, DependencyConditions(x, 0)[i]);
      assert SameMark(DependencyConditions(x, 0)[i], DependencyConditions(y, 0)[i]);
    }
    DependencyConditionsDistinct(x, now);
    UpsertAllCarries(EmptyServiceStatus.conditions, DependencyConditions(x, now), 0);
  }

  // ---------- whole passes ----------

  /** What the passes of a service change: its status and whether its Job is stored, and which. */
  datatype World = World(status: Record<Rest>, job: Option<Job>)

  /** One pass: what it found, the Job it would render, how its calls are answered as far as it
      issues them, and whether the cache shows a Job. */
  datatype Input = Input(
    deps: Deps, prio: Int32, generation: nat, now: nat, update: Reply,
    wanted: Option<Job>, getJob: Reply, cached: bool, createJob: Reply, later: nat, workload: Reply)

  /** A pass, or somebody else writing or deleting the Job. */
  datatype Event = Pass(x: Input) | Others(job: Option<Job>)

  function FirstWrite(x: Input): Attempt<Rest> {
    StatusAttempt(x.deps, x.prio, x.generation, x.now, Landed(x.update))
  }

  /** How reconcileKueueJob ends. */
  function JobErr(job: Option<Job>, x: Input): Option<Message> {
    if x.getJob.Lost? then Some(ApiError(x.getJob.text))
    else if x.cached then None
    else if x.createJob.Lost? then Some(ApiError(x.createJob.text))
    else if job.Some? then Some(ApiError("already exists"))
    else None
  }

  /** The Job it leaves. */
  function JobAfter(job: Option<Job>, x: Input): Option<Job> {
    if x.getJob.Done? && !x.cached && Landed(x.createJob) && job.None? then x.wanted else job
  }

  function SecondWrite(job: Option<Job>, x: Input): Attempt<Rest> {
    WorkloadAttempt(JobErr(job, x), x.later, Landed(x.workload))
  }

  /** The pass gets to the Job: dependencies resolved, and no failed status write. */
  ghost predicate GoesOn(s: Record<Rest>, x: Input) {
    x.deps.Ok() && (Issues(s, FirstWrite(x)) ==> x.update.Done?)
  }

  ghost function SuppressingPass(w: World, x: Input): World {
    var s1 := Suppressing(w.status, FirstWrite(x));
    if GoesOn(w.status, x) then World(Suppressing(s1, SecondWrite(w.job, x)), JobAfter(w.job, x))
    else World(s1, w.job)
  }

  /** The always-writer makes every call, so every failed status write ends its pass. */
  function AlwaysPass(w: World, x: Input): World {
    var t1 := Always(w.status, FirstWrite(x));
    if x.deps.Ok() && x.update.Done? then World(Always(t1, SecondWrite(w.job, x)), JobAfter(w.job, x))
    else World(t1, w.job)
  }

  ghost function SuppressingEvent(w: World, e: Event): World {
    match e
    case Pass(x) => SuppressingPass(w, x)
    case Others(job) => w.(job := job)
  }

  function AlwaysEvent(w: World, e: Event): World {
    match e
    case Pass(x) => AlwaysPass(w, x)
    case Others(job) => w.(job := job)
  }

  ghost function RunSuppressingPasses(w: World, es: seq<Event>): World {
    if es == [] then w else SuppressingEvent(RunSuppressingPasses(w, es[..|es| - 1]), es[|es| - 1])
  }

  function RunAlwaysPasses(w: World, es: seq<Event>): World {
    if es == [] then w else AlwaysEvent(RunAlwaysPasses(w, es[..|es| - 1]), es[|es| - 1])
  }

  // ---------- the control loop suppresses ----------

  /** Resource versions are the API server's. */
  function Unversioned(job: Option<Job>): Option<Job> {
    if job.Some? then Some(job.value.(version := 0)) else None
  }

  function WorldOf(st: State, k: Key): World
    requires k in st.store.services
  {
    World(AsRecord(st.store.services[k].status), Unversioned(Get(st.store.jobs, k)))
  }

  function InputOf(cap: Capacity, st: State, k: Key, svc: InferenceService, model: Option<Model>,
                   tenant: Option<Tenant>, c: Calls): Input {
    Input(DepsOf(cap, svc, model, tenant), DerivedPriority(svc.spec, tenant), svc.generation, c.now, c.updateStatus,
          if model.Some? then Some(BuildJob(svc, model.value, 0)) else None,
          c.getJob, k in st.cache.jobs, c.createJob, c.later, c.updateWorkload)
  }

  /** The pass of the control loop on a current snapshot is the suppressing pass, Job and status,
      whatever the replies. */
  lemma ControlLoopPassSuppresses(cap: Capacity, st: State, k: Key, svc: InferenceService, model: Option<Model>,
                                  tenant: Option<Tenant>, c: Calls)
    requires svc.key == k && Get(st.store.services, k) == Some(svc)
    ensures var r := FromStatus(cap, st, k, svc, model, tenant, c);
            && k in r.store.services
            && WorldOf(r, k) == SuppressingPass(WorldOf(st, k), InputOf(cap, st, k, svc, model, tenant, c))
  {
    var x := InputOf(cap, st, k, svc, model, tenant, c);
    var upToDate := StatusUpToDate(svc.status, svc.generation, x.deps, x.prio);
    var wanted := WantedStatus(svc.status, svc.generation, x.deps, x.prio, x.now);
    FirstWriteRecord(svc.status, x);
    FirstWriteSuppresses(st, k, svc, model, x.deps, upToDate, wanted, c.updateStatus);
    var st' := AdvanceStatus(st, k, svc, model, x.deps, upToDate, wanted, c.updateStatus);
    if k in st'.passes && st'.passes[k].StatusDone? {
      var svc' := st'.passes[k].svc;
      BuildJobIgnoresStatus(svc, svc', model.value, 0);
      SecondWriteSuppresses(st', k, svc', model.value, x, c);
    }
  }

  lemma FirstWriteRecord(status: ServiceStatus, x: Input)
    ensures var upToDate := StatusUpToDate(status, x.generation, x.deps, x.prio);
            && (GoesOn(AsRecord(status), x) <==> x.deps.Ok() && (upToDate || x.update.Done?))
            && Suppressing(AsRecord(status), FirstWrite(x))
               == AsRecord(if upToDate || !Landed(x.update) then status
                           else WantedStatus(status, x.generation, x.deps, x.prio, x.now))
  {
    ServiceWritesAreAttempts(status, x.deps, x.prio, x.generation, None, x.now, Landed(x.update));
  }

  lemma FirstWriteSuppresses(st: State, k: Key, svc: InferenceService, model: Option<Model>, d: Deps,
                             upToDate: bool, wanted: ServiceStatus, reply: Reply)
    requires svc.key == k && Get(st.store.services, k) == Some(svc) && (d.Ok() ==> model.Some?)
    ensures var st' := AdvanceStatus(st, k, svc, model, d, upToDate, wanted, reply);
            && k in st'.store.services
            && st'.store.services[k].status == (if upToDate || !Landed(reply) then svc.status else wanted)
            && st'.store.jobs == st.store.jobs && st'.cache == st.cache
            && (k in st'.passes <==> d.Ok() && (upToDate || reply.Done?))
            && (k in st'.passes ==> && st'.passes[k].StatusDone? && st'.passes[k].ready == model.value
                                    && Get(st'.store.services, k) == Some(st'.passes[k].svc)
                                    && st'.passes[k].svc.(status := svc.status, version := svc.version) == svc)
  {
  }

  lemma SecondWriteSuppresses(st: State, k: Key, svc: InferenceService, model: Model, x: Input, c: Calls)
    requires svc.key == k && Get(st.store.services, k) == Some(svc)
    requires x.wanted == Some(BuildJob(svc, model, 0)) && x.cached == (k in st.cache.jobs) && x.later == c.later
    requires x.getJob == c.getJob && x.createJob == c.createJob && x.workload == c.updateWorkload
    ensures var r := FromJob(st, k, svc, model, c);
            var w := WorldOf(st, k);
            && k in r.store.services
            && WorldOf(r, k) == World(Suppressing(w.status, SecondWrite(w.job, x)), JobAfter(w.job, x))
  {
    var job := Unversioned(Get(st.store.jobs, k));
    JobPartSuppresses(st, k, svc, model, x, c);
    var tried := TryJob(st, k, svc, model, c);
    var jobErr := JobErr(job, x);
    ServiceWritesAreAttempts(svc.status, Deps(None, None, None, None), 0, 0, jobErr, c.later, Landed(c.updateWorkload));
    WorkloadWriteSuppresses(tried, k, svc, jobErr, WorkloadUpToDate(svc.status, jobErr),
                            WantedWorkload(svc.status, jobErr, c.later), c.updateWorkload);
  }

  lemma JobPartSuppresses(st: State, k: Key, svc: InferenceService, model: Model, x: Input, c: Calls)
    requires svc.key == k
    requires x.wanted == Some(BuildJob(svc, model, 0)) && x.cached == (k in st.cache.jobs)
    requires x.getJob == c.getJob && x.createJob == c.createJob
    ensures var tried := TryJob(st, k, svc, model, c);
            var job := Unversioned(Get(st.store.jobs, k));
            && tried.passes[k].jobErr == JobErr(job, x)
            && Unversioned(Get(tried.store.jobs, k)) == JobAfter(job, x)
            && tried.store.services == st.store.services
  {
    assert BuildJob(svc, model, st.clock).(version := 0) == BuildJob(svc, model, 0);
  }

  lemma WorkloadWriteSuppresses(st: State, k: Key, svc: InferenceService, jobErr: Option<Message>,
                                upToDate: bool, wanted: ServiceStatus, reply: Reply)
    requires Get(st.store.services, k) == Some(svc)
    ensures var r := AdvanceWorkload(st, k, svc, jobErr, upToDate, wanted, reply);
            && k in r.store.services && r.store.jobs == st.store.jobs
            && r.store.services[k].status == (if upToDate || !Landed(reply) then svc.status else wanted)
  {
  }

  // ---------- lockstep ----------

  predicate SameOutcome(e: Option<Message>, f: Option<Message>) {
    e.None? == f.None?
  }

  predicate SameDeps(d: Deps, e: Deps) {
    && SameOutcome(d.modelErr, e.modelErr) && SameOutcome(d.tenantErr, e.tenantErr)
    && SameOutcome(d.profileErr, e.profileErr) && SameOutcome(d.capacityErr, e.capacityErr)
  }

  predicate SameReply(r: Reply, s: Reply) {
    r.Done? == s.Done? && Landed(r) == Landed(s)
  }

  /** The same pass up to error texts. */
  predicate SameInput(x: Input, y: Input) {
    && SameDeps(x.deps, y.deps) && SameReply(x.update, y.update)
    && SameReply(x.getJob, y.getJob) && SameReply(x.createJob, y.createJob) && SameReply(x.workload, y.workload)
    && y.(deps := x.deps, update := x.update, getJob := x.getJob, createJob := x.createJob, workload := x.workload) == x
  }

  predicate SameEvent(d: Event, e: Event) {
    match d
    case Pass(x) => e.Pass? && SameInput(x, e.x)
    case Others(_) => e == d
  }

  predicate SameEvents(ds: seq<Event>, es: seq<Event>) {
    |ds| == |es| && forall i :: 0 <= i < |ds| ==> SameEvent(ds[i], es[i])
  }

  /** The same Job, and the same status but for messages. */
  ghost predicate TwinWorlds(v: World, w: World) {
    Twins(v.status, w.status) && v.job == w.job
  }

  lemma DependencyTwins(d: Deps, e: Deps, now: nat)
    requires SameDeps(d, e)
    ensures SameButMessage(DependencyConditions(d, now), DependencyConditions(e, now))
  {
  }

  lemma WorkloadTwins(e: Option<Message>, f: Option<Message>, now: nat)
    requires SameOutcome(e, f)
    ensures SameButMessage([WorkloadCondition(e, now)], [WorkloadCondition(f, now)])
  {
  }

  lemma SameInputsAreTwins(x: Input, y: Input, job: Option<Job>)
    requires SameInput(x, y)
    ensures TwinAttempts(FirstWrite(x), FirstWrite(y))
    ensures TwinAttempts(SecondWrite(job, x), SecondWrite(job, y))
    ensures JobAfter(job, x) == JobAfter(job, y)
  {
    DependencyTwins(x.deps, y.deps, x.now);
    DependencyConditionsDistinct(x.deps, x.now);
    WorkloadTwins(JobErr(job, x), JobErr(job, y), x.later);
  }

  /** The one way apart: the status is up to date, so only the always-writer makes the status call;
      it fails and ends that pass, while the suppressing pass goes on and creates the Job or
      changes the workload condition. */
  ghost predicate Diverges(w: World, x: Input) {
    && x.deps.Ok() && x.update.Lost? && !Issues(w.status, FirstWrite(x))
    && (JobAfter(w.job, x) != w.job || (Issues(w.status, SecondWrite(w.job, x)) && Landed(x.workload)))
  }

  ghost predicate EventDiverges(w: World, e: Event) {
    e.Pass? && Diverges(w, e.x)
  }

  lemma TwinsOfOne<R(!new)>(s: Record<R>, s': Record<R>, t: Record<R>)
    requires Twins(s, t) && Twins(s', t)
    ensures SameMarks(s.conditions, s'.conditions) && s.rest == s'.rest
  {
    forall i | 0 <= i < |t.conditions| ensures SameMark(s.conditions[i], s'.conditions[i]) {
      assert SameMark(s.conditions[i], t.conditions[i]) && SameMark(s'.conditions[i], t.conditions[i]);
    }
  }

  /** One pass each: twins stay twins exactly unless the pass diverges. */
  lemma PassLockstep(v: World, w: World, x: Input, y: Input)
    requires TwinWorlds(v, w) && SameInput(x, y)
    ensures TwinWorlds(SuppressingPass(v, x), AlwaysPass(w, y)) <==> !Diverges(v, x)
  {
    SameInputsAreTwins(x, y, v.job);
    LockstepOne(v.status, w.status, FirstWrite(x), FirstWrite(y));
    var s1, t1 := Suppressing(v.status, FirstWrite(x)), Always(w.status, FirstWrite(y));
    if x.deps.Ok() && x.update.Done? {
      LockstepOne(s1, t1, SecondWrite(v.job, x), SecondWrite(v.job, y));
    } else if Issues(v.status, SecondWrite(v.job, x)) && Twins(Wanted(v.status, SecondWrite(v.job, x)), t1)
        && Twins(v.status, t1) {
      TwinsOfOne(v.status, Wanted(v.status, SecondWrite(v.job, x)), t1);
    }
  }

  lemma EventLockstep(v: World, w: World, d: Event, e: Event)
    requires TwinWorlds(v, w) && SameEvent(d, e)
    ensures TwinWorlds(SuppressingEvent(v, d), AlwaysEvent(w, e)) <==> !EventDiverges(v, d)
  {
    if d.Pass? {
      PassLockstep(v, w, d.x, e.x);
    }
  }

  lemma PrefixRuns(v: World, w: World, ds: seq<Event>, es: seq<Event>, n: nat)
    requires |ds| == |es| && n < |ds|
    ensures RunSuppressingPasses(v, ds[..n + 1]) == SuppressingEvent(RunSuppressingPasses(v, ds[..n]), ds[n])
    ensures RunAlwaysPasses(w, es[..n + 1]) == AlwaysEvent(RunAlwaysPasses(w, es[..n]), es[n])
  {
    assert ds[..n + 1][..n] == ds[..n] && es[..n + 1][..n] == es[..n];
  }

  ghost predicate NeverDiverges(v: World, ds: seq<Event>, n: nat)
    requires n <= |ds|
  {
    forall m :: 0 <= m < n ==> !EventDiverges(RunSuppressingPasses(v, ds[..m]), ds[m])
  }

  lemma {:induction false} PrefixLockstep(v: World, w: World, ds: seq<Event>, es: seq<Event>, n: nat)
    requires TwinWorlds(v, w) && SameEvents(ds, es) && n <= |ds| && NeverDiverges(v, ds, n)
    ensures TwinWorlds(RunSuppressingPasses(v, ds[..n]), RunAlwaysPasses(w, es[..n]))
  {
    if n > 0 {
      PrefixLockstep(v, w, ds, es, n - 1);
      PrefixRuns(v, w, ds, es, n - 1);
      EventLockstep(RunSuppressingPasses(v, ds[..n - 1]), RunAlwaysPasses(w, es[..n - 1]), ds[n - 1], es[n - 1]);
    }
  }

  /** Write suppression refines always-write, exactly: over a sequence of passes and of changes of
      the Job by others, the two controllers agree after every event on the Job and on the status,
      messages aside and transition times included, if and only if no pass diverges. */
  lemma ServiceSuppressionRefinesExactlyWhen(v: World, w: World, ds: seq<Event>, es: seq<Event>)
    requires TwinWorlds(v, w) && SameEvents(ds, es)
    ensures (forall n :: 0 <= n <= |ds| ==> TwinWorlds(RunSuppressingPasses(v, ds[..n]), RunAlwaysPasses(w, es[..n])))
            <==> NeverDiverges(v, ds, |ds|)
  {
    if NeverDiverges(v, ds, |ds|) {
      forall n | 0 <= n <= |ds| ensures TwinWorlds(RunSuppressingPasses(v, ds[..n]), RunAlwaysPasses(w, es[..n])) {
        PrefixLockstep(v, w, ds, es, n);
      }
    }
    if forall n :: 0 <= n <= |ds| ==> TwinWorlds(RunSuppressingPasses(v, ds[..n]), RunAlwaysPasses(w, es[..n])) {
      forall m | 0 <= m < |ds| ensures !EventDiverges(RunSuppressingPasses(v, ds[..m]), ds[m]) {
        PrefixRuns(v, w, ds, es, m);
        assert TwinWorlds(RunSuppressingPasses(v, ds[..m + 1]), RunAlwaysPasses(w, es[..m + 1]));
        EventLockstep(RunSuppressingPasses(v, ds[..m]), RunAlwaysPasses(w, es[..m]), ds[m], es[m]);
      }
    }
  }

  /** In particular they agree over every sequence in which a status call of a pass with resolved
      dependencies does not fail. */
  lemma ServiceSuppressionRefines(v: World, w: World, ds: seq<Event>, es: seq<Event>)
    requires TwinWorlds(v, w) && SameEvents(ds, es)
    requires forall i :: 0 <= i < |ds| ==> (ds[i].Pass? && ds[i].x.deps.Ok() ==> ds[i].x.update.Done?)
    ensures TwinWorlds(RunSuppressingPasses(v, ds), RunAlwaysPasses(w, es))
  {
    PrefixLockstep(v, w, ds, es, |ds|);
    assert ds[..|ds|] == ds && es[..|es|] == es;
  }

  /** ... and as long as no pass has diverged, each of the two writes of a pass is issued exactly
      when the always-writer's status would change beyond its messages. */
  lemma ServiceWritesExactlyOnChange(v: World, w: World, ds: seq<Event>, es: seq<Event>, n: nat)
    requires TwinWorlds(v, w) && SameEvents(ds, es) && n < |ds| && ds[n].Pass? && NeverDiverges(v, ds, n)
    ensures var v', w' := RunSuppressingPasses(v, ds[..n]), RunAlwaysPasses(w, es[..n]);
            var x, y := ds[n].x, es[n].x;
            var s1, t1 := Suppressing(v'.status, FirstWrite(x)), Always(w'.status, FirstWrite(y));
            && (Issues(v'.status, FirstWrite(x)) <==> !Twins(w'.status, Wanted(w'.status, FirstWrite(y))))
            && (Issues(s1, SecondWrite(v'.job, x)) <==> !Twins(t1, Wanted(t1, SecondWrite(w'.job, y))))
  {
    PrefixLockstep(v, w, ds, es, n);
    var v', w' := RunSuppressingPasses(v, ds[..n]), RunAlwaysPasses(w, es[..n]);
    var x, y := ds[n].x, es[n].x;
    SameInputsAreTwins(x, y, v'.job);
    LockstepOne(v'.status, w'.status, FirstWrite(x), FirstWrite(y));
    LockstepOne(Suppressing(v'.status, FirstWrite(x)), Always(w'.status, FirstWrite(y)),
                SecondWrite(v'.job, x), SecondWrite(w'.job, y));
  }

  // ---------- diverging passes ----------

  const Resolved := Deps(None, None, None, None)

  /** A pass that resolves everything and finds no Job in the cache, while the status call, if it is
      made, is lost. */
  function LosingPass(generation: nat, prio: Int32, wanted: Job, text: string): Input {
    Input(Resolved, prio, generation, 1, Lost(false, text), Some(wanted), Done, false, Done, 2, Done)
  }

  lemma LostCallStopsTheAlwaysWriter(status: ServiceStatus, job: Option<Job>, generation: nat, prio: Int32,
                                     wanted: Job, text: string)
    requires StatusUpToDate(status, generation, Resolved, prio)
    ensures var w, x := World(AsRecord(status), job), LosingPass(generation, prio, wanted, text);
            && AlwaysPass(w, x) == w
            && SuppressingPass(w, x) == World(Suppressing(AsRecord(status), SecondWrite(job, x)), JobAfter(job, x))
            && (Diverges(w, x) <==> job.None? || !WorkloadUpToDate(status, JobErr(job, x)))
  {
    var x := LosingPass(generation, prio, wanted, text);
    FirstWriteRecord(status, x);
    ServiceWritesAreAttempts(status, Resolved, prio, generation, JobErr(job, x), x.now, false);
    ServiceWritesAreAttempts(status, Resolved, prio, generation, JobErr(job, x), x.later, true);
  }

  /** The status was stored by a pass whose workload update got lost; the next pass needs no status
      write, but the always-writer's one is lost, and so is WorkloadReady. */
  lemma LostRedundantWriteDiverges(generation: nat, prio: Int32, wanted: Job, text: string)
    ensures var status := WantedStatus(EmptyServiceStatus, generation, Resolved, prio, 0);
            var w, x := World(AsRecord(status), None), LosingPass(generation, prio, wanted, text);
            && Diverges(w, x)
            && IsTrue(SuppressingPass(w, x).status.conditions, WorkloadReady)
            && !IsTrue(AlwaysPass(w, x).status.conditions, WorkloadReady)
  {
    var status := WantedStatus(EmptyServiceStatus, generation, Resolved, prio, 0);
    WantedIsUpToDate(EmptyServiceStatus, generation, Resolved, prio, 0);
    UpsertAllKeepsOthers([], DependencyConditions(Resolved, 0), WorkloadReady);
    LostCallStopsTheAlwaysWriter(status, None, generation, prio, wanted, text);
    WorkloadLands(status, LosingPass(generation, prio, wanted, text));
  }

  lemma WorkloadLands(status: ServiceStatus, x: Input)
    requires x.getJob.Done? && x.createJob.Done? && x.workload.Done?
    ensures IsTrue(Suppressing(AsRecord(status), SecondWrite(None, x)).conditions, WorkloadReady)
  {
    ServiceWritesAreAttempts(status, x.deps, x.prio, x.generation, None, x.later, true);
    UpsertCarries(status.conditions, WorkloadCondition(None, x.later));
  }

  /** A settled service whose Job was deleted: both statuses stay as they are, but only the
      suppressing controller brings the Job back. */
  lemma LostRedundantWriteLosesTheJob(status: ServiceStatus, generation: nat, prio: Int32, wanted: Job, text: string)
    requires StatusUpToDate(status, generation, Resolved, prio) && WorkloadUpToDate(status, None)
    ensures var w, x := World(AsRecord(status), None), LosingPass(generation, prio, wanted, text);
            && Diverges(w, x)
            && SuppressingPass(w, x) == w.(job := Some(wanted))
            && AlwaysPass(w, x) == w
  {
    LostCallStopsTheAlwaysWriter(status, None, generation, prio, wanted, text);
    var x := LosingPass(generation, prio, wanted, text);
    ServiceWritesAreAttempts(status, Resolved, prio, generation, None, x.later, true);
  }
}
