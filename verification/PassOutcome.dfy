/** What a Reconcile call comes back with, whatever its calls answer: when it asks to be requeued,
    what it reports of the Job, and which messages it leaves. */
module PassOutcome {
  import opened Resources
  import opened Conditions
  import opened ServiceStatusRules
  import opened Workload
  import opened ControlLoop
  import opened ReconcilePass
  import opened StatusWriter
  import opened ServiceSuppression
  import opened PassMeaning

  // ---------- requeueing ----------

  /** The stored service is the one that was read, so a write of its status is no conflict. */
  predicate Current(store: Objects, svc: InferenceService) {
    svc.key in store.services && store.services[svc.key].version == svc.version
  }

  /** reconcileKueueJob returns an error: a call fails, or Create finds a Job that the cache does not
      show yet. */
  predicate JobFails(cached: bool, stored: bool, c: Calls) {
    c.getJob.Lost? || (!cached && (c.createJob.Lost? || stored))
  }

  ghost predicate NeedsStatus(cap: Capacity, seen: Objects, svc: InferenceService) {
    var model, tenant := Get(seen.models, ModelKey(svc)), Get(seen.tenants, svc.key.ns);
    !StatusUpToDate(svc.status, svc.generation, DepsOf(cap, svc, model, tenant), DerivedPriority(svc.spec, tenant))
  }

  /** WorkloadReady does not say yet that the Job is there, or that it failed. */
  ghost predicate NeedsWorkload(svc: InferenceService, fails: bool) {
    !WorkloadUpToDate(svc.status, if fails then Some(NoMessage) else None)
  }

  /** A read or a write that is needed fails, the service cannot run, or the Job fails. */
  ghost predicate ComesBack(cap: Capacity, store: Objects, seen: Objects, svc: InferenceService, c: Calls) {
    var fails := JobFails(svc.key in seen.jobs, svc.key in store.jobs, c);
    || c.getModel.Lost? || c.getTenant.Lost?
    || (NeedsStatus(cap, seen, svc) && (c.updateStatus.Lost? || !Current(store, svc)))
    || !CanRun(cap, seen, svc)
    || fails
    || (NeedsWorkload(svc, fails) && (c.updateWorkload.Lost? || !Current(store, svc)))
  }

  lemma WorkloadComesBack(st: State, k: Key, svc: InferenceService, jobErr: Option<Message>, c: Calls)
    requires svc.key == k && k !in st.delayed
    ensures k in FromWorkload(st, k, svc, jobErr, c).delayed
            <==> jobErr.Some?
                 || (NeedsWorkload(svc, jobErr.Some?) && (c.updateWorkload.Lost? || !Current(st.store, svc)))
  {
    WorkloadComesBackIf(st, k, svc, jobErr, WorkloadUpToDate(svc.status, jobErr),
                        WantedWorkload(svc.status, jobErr, c.later), c.updateWorkload);
  }

  lemma WorkloadComesBackIf(st: State, k: Key, svc: InferenceService, jobErr: Option<Message>, upToDate: bool,
                            wanted: ServiceStatus, reply: Reply)
    requires svc.key == k && k !in st.delayed
    ensures k in AdvanceWorkload(st, k, svc, jobErr, upToDate, wanted, reply).delayed
            <==> jobErr.Some? || (!upToDate && (reply.Lost? || !Current(st.store, svc)))
  {
  }

  lemma JobComesBack(st: State, k: Key, svc: InferenceService, model: Model, c: Calls)
    requires svc.key == k && k !in st.delayed
    ensures var fails := JobFails(k in st.cache.jobs, k in st.store.jobs, c);
            k in FromJob(st, k, svc, model, c).delayed
            <==> fails || (NeedsWorkload(svc, fails) && (c.updateWorkload.Lost? || !Current(st.store, svc)))
  {
    TriedJob(st, k, svc, model, c);
    var tried := TryJob(st, k, svc, model, c);
    WorkloadComesBack(tried, k, svc, tried.passes[k].jobErr, c);
  }

  lemma TriedJob(st: State, k: Key, svc: InferenceService, model: Model, c: Calls)
    requires svc.key == k
    ensures var tried := TryJob(st, k, svc, model, c);
            && tried.delayed == st.delayed && tried.store.services == st.store.services
            && (tried.passes[k].jobErr.Some? <==> JobFails(k in st.cache.jobs, k in st.store.jobs, c))
  {
  }

  lemma StatusComesBack(cap: Capacity, st: State, k: Key, svc: InferenceService, model: Option<Model>,
                        tenant: Option<Tenant>, c: Calls)
    requires svc.key == k && k !in st.delayed
    ensures var d, prio := DepsOf(cap, svc, model, tenant), DerivedPriority(svc.spec, tenant);
            var fails := JobFails(k in st.cache.jobs, k in st.store.jobs, c);
            k in FromStatus(cap, st, k, svc, model, tenant, c).delayed
            <==> || (!StatusUpToDate(svc.status, svc.generation, d, prio)
                     && (c.updateStatus.Lost? || !Current(st.store, svc)))
                 || !d.Ok()
                 || fails
                 || (NeedsWorkload(svc, fails) && (c.updateWorkload.Lost? || !Current(st.store, svc)))
  {
    var d, prio := DepsOf(cap, svc, model, tenant), DerivedPriority(svc.spec, tenant);
    var upToDate := StatusUpToDate(svc.status, svc.generation, d, prio);
    var wanted := WantedStatus(svc.status, svc.generation, d, prio, c.now);
    AfterStatusWrite(st, k, svc, model, d, upToDate, wanted, c.updateStatus);
    var st' := AdvanceStatus(st, k, svc, model, d, upToDate, wanted, c.updateStatus);
    var fails := JobFails(k in st.cache.jobs, k in st.store.jobs, c);
    if k in st'.passes && st'.passes[k].StatusDone? {
      JobComesBack(st', k, st'.passes[k].svc, st'.passes[k].ready, c);
      StatusKeepsWorkload(svc.status, d, if fails then Some(NoMessage) else None, c.now);
    }
  }

  /** Where the status update leaves the pass. */
  lemma AfterStatusWrite(st: State, k: Key, svc: InferenceService, model: Option<Model>, d: Deps,
                         upToDate: bool, wanted: ServiceStatus, reply: Reply)
    requires svc.key == k && k !in st.delayed && (d.Ok() ==> model.Some?)
    ensures var st' := AdvanceStatus(st, k, svc, model, d, upToDate, wanted, reply);
            && (k in st'.delayed <==> k !in st'.passes)
            && (k in st'.delayed <==> !d.Ok() || (!upToDate && (reply.Lost? || !Current(st.store, svc))))
            && st'.cache == st.cache && st'.store.jobs == st.store.jobs
            && (k in st'.passes ==>
                  && st'.passes[k].StatusDone?
                  && st'.passes[k].svc.(version := svc.version)
                     == svc.(status := if upToDate then svc.status else wanted)
                  && (Current(st'.store, st'.passes[k].svc) <==> Current(st.store, svc)))
  {
  }

  lemma ServiceComesBack(cap: Capacity, st: State, k: Key, svc: InferenceService, c: Calls)
    requires svc.key == k && k !in st.delayed
    ensures k in FromService(cap, st, k, svc, c).delayed <==> ComesBack(cap, st.store, st.cache, svc, c)
  {
    if c.getModel.Done? && c.getTenant.Done? {
      var model, tenant := Get(st.cache.models, ModelKey(svc)), Get(st.cache.tenants, svc.key.ns);
      StatusComesBack(cap, Move(st, k, SawTenant(svc, model, tenant)), k, svc, model, tenant, c);
    }
  }

  /** A Reconcile call asks to be requeued exactly when reading the service fails, or the service is
      there and the pass fails or cannot run it; whatever the store, whatever the cache shows of it,
      and however the calls are answered.  A service that is gone is dropped. */
  lemma RequeuedExactlyWhen(cap: Capacity, store: Objects, seen: Objects, clock: nat, k: Key, c: Calls)
    requires k in seen.services ==> seen.services[k].key == k
    ensures k in RunPass(cap, Start(store, seen, clock, k), k, c).delayed
            <==> c.getService.Lost? || (k in seen.services && ComesBack(cap, store, seen, seen.services[k], c))
  {
    var st := Start(store, seen, clock, k);
    Unfold(cap, st, k, c);
    if c.getService.Done? && k in seen.services {
      var svc := seen.services[k];
      var st1 := Move(st, k, SawService(svc));
      RunFromService(cap, st1, k, c);
      ServiceComesBack(cap, st1, k, svc, c);
    }
  }

  /** With every call answered and the cache up to date: exactly a service that is there and cannot
      run is looked at again; one that is settled or gone is not. */
  lemma CompletedPassRequeuesExactlyWhen(cap: Capacity, store: Objects, clock: nat, k: Key, c: Calls)
    requires Sound(store, clock) && AllDone(c)
    ensures k in Reconciled(cap, store, clock, k, c).delayed
            <==> k in store.services && !CanRun(cap, store, store.services[k])
  {
    RequeuedExactlyWhen(cap, store, store, clock, k, c);
  }

  /** A pass that reads that its service is gone ends there and leaves no trace. */
  lemma GoneIsDropped(cap: Capacity, store: Objects, seen: Objects, clock: nat, k: Key, c: Calls)
    requires c.getService.Done? && k !in seen.services
    ensures RunPass(cap, Start(store, seen, clock, k), k, c) == State(store, seen, {}, {}, map[], clock)
  {
    var st := Start(store, seen, clock, k);
    Unfold(cap, st, k, c);
    assert st.passes - {k} == map[];
  }

  // ---------- what a pass reports of the Job ----------

  /** The cache shows the stored services, Models and Tenants, and any Jobs. */
  function Seen(store: Objects, jobs: map<Key, Job>): Objects {
    store.(jobs := jobs)
  }

  /** The message of a Job call that failed. */
  function JobMessage(c: Calls): Message {
    if c.getJob.Lost? then ApiError(c.getJob.text)
    else if c.createJob.Lost? then ApiError(c.createJob.text)
    else ApiError("already exists")
  }

  /** True without an error; False with one, and then with its message, or as it was if it was False
      for such a reason before. */
  predicate ReportsJob(was: Option<Condition>, said: Option<Condition>, err: Option<Message>) {
    && said.Some?
    && (if err.None? then said.value.status == StatusTrue
        else said.value.status == StatusFalse && said.value.reason == JobError)
    && (err.Some? ==>
          if was.Some? && was.value.status == StatusFalse && was.value.reason == JobError then said == was
          else said.value.message == err.value)
  }

  /** Reads and status updates are answered; the Job calls may go as they like. */
  predicate OnlyJobCallsFail(c: Calls) {
    c.getService.Done? && c.getModel.Done? && c.getTenant.Done? && c.updateStatus.Done? && c.updateWorkload.Done?
  }

  /** A pass of a service that can run reports WorkloadReady=True exactly when its Job calls went
      well, and otherwise False with the message of the call that failed, or as it was if it was False
      for such a reason before; and its Job is there exactly when it was or the Create took effect. */
  lemma WorkloadReadyTellsTheJobCalls(cap: Capacity, store: Objects, jobs: map<Key, Job>, clock: nat, k: Key, c: Calls)
    requires Sound(store, clock) && OnlyJobCallsFail(c) && k in store.services && CanRun(cap, store, store.services[k])
    ensures var before := store.services[k].status.conditions;
            var r := RunPass(cap, Start(store, Seen(store, jobs), clock, k), k, c);
            var fails := JobFails(k in jobs, k in store.jobs, c);
            && k in r.store.services
            && var said := Saying(r.store.services[k].status.conditions, WorkloadReady);
            && ReportsJob(Saying(before, WorkloadReady), said, if fails then Some(JobMessage(c)) else None)
            && (k in r.store.jobs
                <==> k in store.jobs || (c.getJob.Done? && k !in jobs && Landed(c.createJob)))
  {
    var svc := store.services[k];
    var model, tenant := Get(store.models, ModelKey(svc)), Get(store.tenants, k.ns);
    var x := InputOf(cap, Start(store, Seen(store, jobs), clock, k), k, svc, model, tenant, c);
    PassIsSuppressing(cap, store, jobs, clock, k, c);
    SecondWriteSays(WorldOf(Start(store, Seen(store, jobs), clock, k), k), x);
  }

  /** The whole pass on a current snapshot is the suppressing pass. */
  lemma PassIsSuppressing(cap: Capacity, store: Objects, jobs: map<Key, Job>, clock: nat, k: Key, c: Calls)
    requires Sound(store, clock) && k in store.services
    requires c.getService.Done? && c.getModel.Done? && c.getTenant.Done?
    ensures var svc := store.services[k];
            var st := Start(store, Seen(store, jobs), clock, k);
            var r := RunPass(cap, st, k, c);
            && k in r.store.services
            && var x := InputOf(cap, st, k, svc, Get(store.models, ModelKey(svc)), Get(store.tenants, k.ns), c);
               WorldOf(r, k) == SuppressingPass(WorldOf(st, k), x)
  {
    var svc := store.services[k];
    var model, tenant := Get(store.models, ModelKey(svc)), Get(store.tenants, k.ns);
    var st := Start(store, Seen(store, jobs), clock, k);
    RunFromBegun(cap, st, k, svc, c);
    ControlLoopPassSuppresses(cap, Move(st, k, SawTenant(svc, model, tenant)), k, svc, model, tenant, c);
  }

  lemma SecondWriteSays(w: World, x: Input)
    requires x.deps.Ok() && x.update.Done? && x.workload.Done?
    ensures var r := SuppressingPass(w, x);
            ReportsJob(Saying(w.status.conditions, WorkloadReady), Saying(r.status.conditions, WorkloadReady),
                       JobErr(w.job, x))
  {
    var s1, a := Suppressing(w.status, FirstWrite(x)), SecondWrite(w.job, x);
    assert Saying(s1.conditions, WorkloadReady) == Saying(w.status.conditions, WorkloadReady) by {
      UpsertAllKeepsOthers(w.status.conditions, DependencyConditions(x.deps, x.now), WorkloadReady);
    }
    assert SuppressingPass(w, x).status == Suppressing(s1, a);
    WorkloadWriteSays(s1, JobErr(w.job, x), x.later);
  }

  lemma WorkloadWriteSays(s: Record<Rest>, err: Option<Message>, now: nat)
    ensures ReportsJob(Saying(s.conditions, WorkloadReady),
                       Saying(Suppressing(s, WorkloadAttempt(err, now, true)).conditions, WorkloadReady), err)
  {
    var a := WorkloadAttempt(err, now, true);
    assert DistinctTypes(a.upserts) && a.upserts[0] == WorkloadCondition(err, now);
    PositionalComparisonExact(s.conditions, a.upserts);
    assert Issues(s, a) <==> !Holds(s.conditions, a.upserts[0]);
    UpsertAllCarries(s.conditions, a.upserts, 0);
  }

  // ---------- messages ----------

  /** The messages of the six conditions are true of the store. */
  ghost predicate TruthfulMessages(cap: Capacity, store: Objects, svc: InferenceService, conds: seq<Condition>) {
    var mk, model, profile := ModelKey(svc), svc.spec.model, svc.spec.resourceProfile;
    var ready := mk in store.models && ModelIsReady(store.models[mk]);
    && SaysMessage(conds, ModelReady, if mk !in store.models then ModelMissing(model)
                                      else if !ready then ModelUnready(model) else NoMessage)
    && SaysMessage(conds, TenantResolved, if svc.key.ns in store.tenants then NoMessage else TenantMissing(svc.key.ns))
    && SaysMessage(conds, ResourceProfileResolved, if profile.OtherProfile? then ProfileUnknown(profile) else NoMessage)
    && SaysMessage(conds, CapacityAvailable, if ready && !profile.OtherProfile? && !cap(model, profile)
                                             then NoCapacity(model, profile) else NoMessage)
    && SaysMessage(conds, Accepted, NoMessage)
    && SaysMessage(conds, Ready, if CanRun(cap, store, svc) then NoMessage else DependenciesUnsatisfied)
  }

  /** After a pass whose reads and status update were answered the messages are true of the store
      exactly when the status had to be written or they were true before. */
  lemma MessagesTellTheTruthExactlyWhen(cap: Capacity, store: Objects, jobs: map<Key, Job>, clock: nat, k: Key,
                                        c: Calls)
    requires Sound(store, clock) && k in store.services
    requires c.getService.Done? && c.getModel.Done? && c.getTenant.Done? && c.updateStatus.Done?
    ensures var svc := store.services[k];
            var r := RunPass(cap, Start(store, Seen(store, jobs), clock, k), k, c);
            && k in r.store.services
            && (TruthfulMessages(cap, store, svc, r.store.services[k].status.conditions)
                <==> NeedsStatus(cap, store, svc) || TruthfulMessages(cap, store, svc, svc.status.conditions))
  {
    var svc := store.services[k];
    var d, prio := DepsOf(cap, svc, Get(store.models, ModelKey(svc)), Get(store.tenants, k.ns)),
                   DerivedPriority(svc.spec, Get(store.tenants, k.ns));
    SixAfterPass(cap, store, jobs, clock, k, c);
    var after := AfterUpdate(svc.status, svc.generation, d, prio, c.now);
    SameSix(cap, store, svc, after.conditions,
            RunPass(cap, Start(store, Seen(store, jobs), clock, k), k, c).store.services[k].status.conditions);
    UpdatedMessages(cap, store, svc, d, prio, c.now);
  }

  lemma UpdatedMessages(cap: Capacity, store: Objects, svc: InferenceService, d: Deps, prio: Int32, now: nat)
    requires d == DepsOf(cap, svc, Get(store.models, ModelKey(svc)), Get(store.tenants, svc.key.ns))
    ensures TruthfulMessages(cap, store, svc, AfterUpdate(svc.status, svc.generation, d, prio, now).conditions)
            <==> (|| !StatusUpToDate(svc.status, svc.generation, d, prio)
                  || TruthfulMessages(cap, store, svc, svc.status.conditions))
  {
    if !StatusUpToDate(svc.status, svc.generation, d, prio) {
      var after := WantedStatus(svc.status, svc.generation, d, prio, now).conditions;
      ServiceMessagesAreCurrentExactlyWhen(svc.status, svc.generation, d, prio, now);
      CarriedMessages(cap, store, svc, d, now, after);
    }
  }

  /** A pass leaves the six conditions as updateStatus does. */
  lemma SixAfterPass(cap: Capacity, store: Objects, jobs: map<Key, Job>, clock: nat, k: Key, c: Calls)
    requires Sound(store, clock) && k in store.services
    requires c.getService.Done? && c.getModel.Done? && c.getTenant.Done? && c.updateStatus.Done?
    ensures var svc := store.services[k];
            var d := DepsOf(cap, svc, Get(store.models, ModelKey(svc)), Get(store.tenants, k.ns));
            var after := AfterUpdate(svc.status, svc.generation, d,
                                     DerivedPriority(svc.spec, Get(store.tenants, k.ns)), c.now);
            var r := RunPass(cap, Start(store, Seen(store, jobs), clock, k), k, c);
            && k in r.store.services
            && forall t :: OfTheSix(t) ==>
                 Saying(r.store.services[k].status.conditions, t) == Saying(after.conditions, t)
  {
    var svc := store.services[k];
    var model, tenant := Get(store.models, ModelKey(svc)), Get(store.tenants, k.ns);
    var st := Start(store, Seen(store, jobs), clock, k);
    PassIsSuppressing(cap, store, jobs, clock, k, c);
    var x := InputOf(cap, st, k, svc, model, tenant, c);
    FirstWriteRecord(svc.status, x);
    SecondWriteKeepsSix(Suppressing(AsRecord(svc.status), FirstWrite(x)), SecondWrite(WorldOf(st, k).job, x));
  }

  predicate OfTheSix(t: CondType) {
    t in {ModelReady, TenantResolved, ResourceProfileResolved, CapacityAvailable, Accepted, Ready}
  }

  lemma SecondWriteKeepsSix(s: Record<Rest>, a: Attempt<Rest>)
    requires |a.upserts| == 1 && a.upserts[0].ctype == WorkloadReady
    ensures forall t :: OfTheSix(t) ==> Saying(Suppressing(s, a).conditions, t) == Saying(s.conditions, t)
  {
    forall t | OfTheSix(t) ensures Saying(Wanted(s, a).conditions, t) == Saying(s.conditions, t) {
      UpsertAllKeepsOthers(s.conditions, a.upserts, t);
    }
  }

  lemma SameSix(cap: Capacity, store: Objects, svc: InferenceService, a: seq<Condition>, b: seq<Condition>)
    requires forall t :: OfTheSix(t) ==> Saying(a, t) == Saying(b, t)
    ensures TruthfulMessages(cap, store, svc, a) <==> TruthfulMessages(cap, store, svc, b)
  {
    assert OfTheSix(ModelReady) && OfTheSix(TenantResolved) && OfTheSix(ResourceProfileResolved);
    assert OfTheSix(CapacityAvailable) && OfTheSix(Accepted) && OfTheSix(Ready);
  }

  /** The wanted messages are true. */
  lemma CarriedMessages(cap: Capacity, store: Objects, svc: InferenceService, d: Deps, now: nat, conds: seq<Condition>)
    requires d == DepsOf(cap, svc, Get(store.models, ModelKey(svc)), Get(store.tenants, svc.key.ns))
    requires forall i :: 0 <= i < 6 ==> Carries(conds, DependencyConditions(d, now)[i])
    ensures TruthfulMessages(cap, store, svc, conds)
  {
    SixMessages(conds, d, now);
  }

  function MessageOf(err: Option<Message>): Message {
    if err.Some? then err.value else NoMessage
  }

  lemma SixMessages(conds: seq<Condition>, d: Deps, now: nat)
    requires forall i :: 0 <= i < 6 ==> Carries(conds, DependencyConditions(d, now)[i])
    ensures SaysMessage(conds, ModelReady, MessageOf(d.modelErr))
    ensures SaysMessage(conds, TenantResolved, MessageOf(d.tenantErr))
    ensures SaysMessage(conds, ResourceProfileResolved, MessageOf(d.profileErr))
    ensures SaysMessage(conds, CapacityAvailable, MessageOf(d.capacityErr))
    ensures SaysMessage(conds, Accepted, NoMessage)
    ensures SaysMessage(conds, Ready, if d.Ok() then NoMessage else DependenciesUnsatisfied)
  {
    forall i | 0 <= i < 6 ensures CarriedAt(conds, DependencyConditions(d, now), i) {
    }
    CarriedSays(conds, DependencyConditions(d, now), 0);
    CarriedSays(conds, DependencyConditions(d, now), 1);
    CarriedSays(conds, DependencyConditions(d, now), 2);
    CarriedSays(conds, DependencyConditions(d, now), 3);
    CarriedSays(conds, DependencyConditions(d, now), 4);
    CarriedSays(conds, DependencyConditions(d, now), 5);
  }
}
