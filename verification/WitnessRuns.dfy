/** Runs that show the whole-run theorems at work: the bound of five writes is reached, and quiet
    states are reached. */
module WitnessRuns {
  import opened Resources
  import opened Conditions
  import opened ServiceStatusRules
  import opened Workload
  import opened ControlLoop
  import opened WriteBound
  import opened ReconcilePass
  import SettledOrQueued

  // ---------- frozen paths ----------

  /** Where a path starts, how many Job calls are lost on it, and whether calls may be lost. */
  datatype Since = Since(st: State, lost: nat, lossy: bool)

  /** Deliveries show the stored service or a stored Job, and nobody but the operator does anything. */
  predicate Plain(st: State, a: Action) {
    match a
    case DeliverService(k, v) => v == Get(st.store.services, k)
    case DeliverJob(_, v) => v.Some?
    case Fire(_) => true
    case Take(_) => true
    case Step(_, _, _) => true
    case _ => false
  }

  ghost predicate PathStep(cap: Capacity, tr: seq<State>, acts: seq<Action>, lossy: bool, i: nat)
    requires |tr| == |acts| + 1
  {
    FrozenStep(cap, tr, acts, i) && Plain(tr[i], acts[i]) && (lossy || Answered(acts[i]))
  }

  ghost predicate Path(cap: Capacity, tr: seq<State>, acts: seq<Action>, start: Since, st': State) {
    && |tr| == |acts| + 1 && tr[0] == start.st && tr[|acts|] == st'
    && LostJobCalls(tr, acts, |acts|) == start.lost
    && forall i :: 0 <= i < |acts| ==> PathStep(cap, tr, acts, start.lossy, i)
  }

  ghost predicate Leads(cap: Capacity, start: Since, st': State) {
    exists tr: seq<State>, acts: seq<Action> :: Path(cap, tr, acts, start, st')
  }

  lemma LeadsToItself(cap: Capacity, st: State, lossy: bool)
    ensures Leads(cap, Since(st, 0, lossy), st)
  {
    assert Path(cap, [st], [], Since(st, 0, lossy), st);
  }

  lemma {:induction false} CountsPrefix(tr: seq<State>, acts: seq<Action>, st: State, a: Action, n: nat)
    requires n < |tr| == |acts| + 1
    ensures LostJobCalls(tr + [st], acts + [a], n) == LostJobCalls(tr, acts, n)
  {
    if n > 0 {
      CountsPrefix(tr, acts, st, a, n - 1);
    }
  }

  /** One more action, with its loss. */
  lemma LeadsOn(cap: Capacity, start: Since, mid: State, a: Action)
    requires Leads(cap, start, mid) && Frozen(mid, a) && Plain(mid, a) && (start.lossy || Answered(a))
    ensures Leads(cap, start.(lost := start.lost + if LosesJobCall(mid, a) then 1 else 0), Next(cap, mid, a))
  {
    var tr: seq<State>, acts: seq<Action> :| Path(cap, tr, acts, start, mid);
    var tr', acts' := tr + [Next(cap, mid, a)], acts + [a];
    forall i | 0 <= i < |acts'| ensures PathStep(cap, tr', acts', start.lossy, i) {
      if i < |acts| {
        assert PathStep(cap, tr, acts, start.lossy, i);
      }
    }
    CountsPrefix(tr, acts, Next(cap, mid, a), a, |acts|);
    assert Path(cap, tr', acts', start.(lost := start.lost + if LosesJobCall(mid, a) then 1 else 0), Next(cap, mid, a));
  }

  /** A pass in flight can be run to its end; it loses one Job call at most, and none if all calls
      are answered. */
  lemma {:induction false} LeadsThroughPass(cap: Capacity, start: Since, mid: State, k: Key, c: Calls)
    returns (lost: nat)
    requires Leads(cap, start, mid) && k in mid.passes && (start.lossy || AllDone(c))
    ensures Leads(cap, start.(lost := start.lost + lost), RunPass(cap, mid, k, c))
    ensures lost <= 1 && (mid.passes[k].JobTried? || AllDone(c) ==> lost == 0)
    decreases Remaining(mid.passes[k])
  {
    var next, loss := LeadsThroughCall(cap, start, mid, k, c);
    lost := loss;
    if k in next.passes {
      var more := LeadsThroughPass(cap, start.(lost := start.lost + loss), next, k, c);
      lost := loss + more;
    }
  }

  lemma LeadsThroughCall(cap: Capacity, start: Since, mid: State, k: Key, c: Calls)
    returns (next: State, loss: nat)
    requires Leads(cap, start, mid) && k in mid.passes && (start.lossy || AllDone(c))
    ensures Leads(cap, start.(lost := start.lost + loss), next)
    ensures RunPass(cap, mid, k, c) == (if k in next.passes then RunPass(cap, next, k, c) else next)
    ensures k in next.passes ==> Remaining(next.passes[k]) < Remaining(mid.passes[k])
    ensures loss > 0
            ==> && loss == 1 && !mid.passes[k].JobTried? && !AllDone(c)
                && k in next.passes && next.passes[k].JobTried?
    ensures mid.passes[k].JobTried? ==> k !in next.passes
  {
    var a := Step(k, ReplyAt(mid.passes[k], c), TimeAt(mid.passes[k], c));
    LeadsOn(cap, start, mid, a);
    OneCall(cap, mid, k, c, a);
    next := Next(cap, mid, a);
    loss := if LosesJobCall(mid, a) then 1 else 0;
  }

  /** One call of a pass: after a lost Job call the pass makes no more of them. */
  lemma OneCall(cap: Capacity, mid: State, k: Key, c: Calls, a: Action)
    requires k in mid.passes && a == Step(k, ReplyAt(mid.passes[k], c), TimeAt(mid.passes[k], c))
    ensures var next := Next(cap, mid, a);
            && RunPass(cap, mid, k, c) == (if k in next.passes then RunPass(cap, next, k, c) else next)
            && (k in next.passes ==> Remaining(next.passes[k]) < Remaining(mid.passes[k]))
            && (LosesJobCall(mid, a)
                ==> !mid.passes[k].JobTried? && !AllDone(c) && k in next.passes && next.passes[k].JobTried?)
            && (mid.passes[k].JobTried? ==> k !in next.passes)
  {
    Progress(cap, mid, k, c);
    Unfold(cap, mid, k, c);
    if LosesJobCall(mid, a) {
      OtherAdvance(cap, mid, k, a.reply, a.now);
    } else if mid.passes[k].JobTried? {
      var JobTried(svc, _, jobErr) := mid.passes[k];
      WorkloadAdvance(cap, mid, k, a.reply, a.now);
      AdvanceWorkloadFrame(mid, k, svc, jobErr, WorkloadUpToDate(svc.status, jobErr),
                           WantedWorkload(svc.status, jobErr, a.now), a.reply);
    }
  }

  // ---------- the four kinds of pass ----------

  /** The pass on `k` has just begun and sees the stored service, whose dependencies are resolved. */
  ghost predicate Begins(cap: Capacity, st: State, k: Key, svc: InferenceService, model: Model, tenant: Tenant) {
    && Get(st.passes, k) == Some(Begun) && svc.key == k
    && Get(st.store.services, k) == Some(svc) && Get(st.cache.services, k) == Some(svc)
    && Get(st.cache.models, ModelKey(svc)) == Some(model) && Get(st.cache.tenants, k.ns) == Some(tenant)
    && DepsOf(cap, svc, Some(model), Some(tenant)).Ok()
  }

  ghost predicate Recorded(svc: InferenceService, tenant: Tenant) {
    StatusUpToDate(svc.status, svc.generation, AllResolved, DerivedPriority(svc.spec, Some(tenant)))
  }

  const Prompt := Calls(Done, Done, Done, Done, Done, Done, Done, 0, 0)

  /** The Get of the Job is lost. */
  const Lossy := Prompt.(getJob := Lost(false, "timeout"))

  /** The calls up to the status update are answered. */
  predicate Swift(c: Calls) {
    c.getService.Done? && c.getModel.Done? && c.getTenant.Done? && c.updateStatus.Done? && c.now == 0
  }

  const AlreadyExists := Some(ApiError("already exists"))

  /** The service after a pass that stored `status` at `version`. */
  function With(svc: InferenceService, status: ServiceStatus, version: nat): InferenceService {
    svc.(status := status, version := version)
  }

  /** What the first reads of a pass lead to. */
  lemma StatusPart(cap: Capacity, st: State, k: Key, svc: InferenceService, model: Model, tenant: Tenant,
                   recorded: bool, first: ServiceStatus, c: Calls)
    requires Swift(c) && Begins(cap, st, k, svc, model, tenant)
    requires (recorded <==> Recorded(svc, tenant)) && first == FirstStatus(svc, tenant)
    ensures var st0 := Move(st, k, SawTenant(svc, Some(model), Some(tenant)));
            var st1 := AdvanceStatus(st0, k, svc, Some(model), AllResolved, recorded, first, Done);
            RunPass(cap, st, k, c)
            == if k in st1.passes && st1.passes[k].StatusDone?
               then FromJob(st1, k, st1.passes[k].svc, st1.passes[k].ready, c) else st1
  {
    RunFromBegun(cap, st, k, svc, c);
    assert DepsOf(cap, svc, Some(model), Some(tenant)) == AllResolved;
  }

  const AllResolved := Deps(None, None, None, None)

  lemma QuietStatusState(st: State, k: Key, svc: InferenceService, model: Model, tenant: Option<Tenant>,
                         first: ServiceStatus)
    ensures var st0 := Move(st, k, SawTenant(svc, Some(model), tenant));
            AdvanceStatus(st0, k, svc, Some(model), AllResolved, true, first, Done)
            == Move(st, k, StatusDone(svc, model))
  {
    var st0 := Move(st, k, SawTenant(svc, Some(model), tenant));
    assert Move(st0, k, StatusDone(svc, model)).passes == Move(st, k, StatusDone(svc, model)).passes;
  }

  /** A pass that needs no status write is its Job part. */
  lemma RecordedPass(cap: Capacity, st: State, k: Key, svc: InferenceService, model: Model, tenant: Tenant, c: Calls)
    requires Swift(c) && Begins(cap, st, k, svc, model, tenant) && Recorded(svc, tenant)
    ensures RunPass(cap, st, k, c) == FromJob(Move(st, k, StatusDone(svc, model)), k, svc, model, c)
  {
    StatusPart(cap, st, k, svc, model, tenant, true, FirstStatus(svc, tenant), c);
    QuietStatusState(st, k, svc, model, Some(tenant), FirstStatus(svc, tenant));
  }

  /** A pass that has to write its status goes on from what it stored. */
  lemma UnrecordedPass(cap: Capacity, st: State, k: Key, svc: InferenceService, model: Model, tenant: Tenant,
                       first: ServiceStatus)
    requires Begins(cap, st, k, svc, model, tenant) && !Recorded(svc, tenant) && first == FirstStatus(svc, tenant)
    ensures var svc1 := With(svc, first, st.clock);
            RunPass(cap, st, k, Prompt)
            == FromJob(st.(store := st.store.(services := st.store.services[k := svc1]),
                           passes := st.passes[k := StatusDone(svc1, model)], clock := st.clock + 1),
                       k, svc1, model, Prompt)
  {
    StatusPart(cap, st, k, svc, model, tenant, false, first, Prompt);
    FirstWriteState(st, k, svc, model, Some(tenant), first);
  }

  function FirstStatus(svc: InferenceService, tenant: Tenant): ServiceStatus {
    WantedStatus(svc.status, svc.generation, AllResolved, DerivedPriority(svc.spec, Some(tenant)), 0)
  }

  lemma NewServiceHasNothing(svc: InferenceService, tenant: Tenant)
    requires svc.status == EmptyServiceStatus
    ensures !Recorded(svc, tenant) && !WorkloadUpToDate(FirstStatus(svc, tenant), None)
  {
    assert !Holds(svc.status.conditions, DependencyConditions(AllResolved, 0)[0]);
    UpsertAllKeepsOthers([], DependencyConditions(AllResolved, 0), WorkloadReady);
  }

  /** First pass of a new service: status, Job and workload condition are written. */
  lemma NewServicePass(cap: Capacity, st: State, k: Key, svc: InferenceService, model: Model, tenant: Tenant,
                       first: ServiceStatus)
    requires Begins(cap, st, k, svc, model, tenant) && !Recorded(svc, tenant) && first == FirstStatus(svc, tenant)
    requires !WorkloadUpToDate(first, None) && k !in st.store.jobs && k !in st.cache.jobs
    ensures RunPass(cap, st, k, Prompt)
            == st.(store := st.store.(
                     services := st.store.services[k := With(svc, WantedWorkload(first, None, 0), st.clock + 2)],
                     jobs := st.store.jobs[k := BuildJob(With(svc, first, st.clock), model, st.clock + 1)]),
                   passes := st.passes - {k}, clock := st.clock + 3)
  {
    UnrecordedPass(cap, st, k, svc, model, tenant, first);
    AfterFirstWrite(st, k, svc, model, first);
  }

  lemma AfterFirstWrite(st: State, k: Key, svc: InferenceService, model: Model, first: ServiceStatus)
    requires svc.key == k && !WorkloadUpToDate(first, None) && k !in st.store.jobs && k !in st.cache.jobs
    ensures var svc1 := With(svc, first, st.clock);
            FromJob(st.(store := st.store.(services := st.store.services[k := svc1]),
                        passes := st.passes[k := StatusDone(svc1, model)], clock := st.clock + 1),
                    k, svc1, model, Prompt)
            == st.(store := st.store.(
                     services := st.store.services[k := With(svc, WantedWorkload(first, None, 0), st.clock + 2)],
                     jobs := st.store.jobs[k := BuildJob(svc1, model, st.clock + 1)]),
                   passes := st.passes - {k}, clock := st.clock + 3)
  {
    var svc1 := With(svc, first, st.clock);
    var st1 := st.(store := st.store.(services := st.store.services[k := svc1]),
                   passes := st.passes[k := StatusDone(svc1, model)], clock := st.clock + 1);
    JobCreationState(st1, k, svc1, model);
    assert st1.passes - {k} == st.passes - {k};
    assert st1.store.services[k := With(svc1, WantedWorkload(first, None, 0), st.clock + 2)]
           == st.store.services[k := With(svc, WantedWorkload(first, None, 0), st.clock + 2)];
  }

  lemma FirstWriteState(st: State, k: Key, svc: InferenceService, model: Model, tenant: Option<Tenant>,
                        first: ServiceStatus)
    requires Get(st.store.services, k) == Some(svc)
    ensures var st0 := Move(st, k, SawTenant(svc, Some(model), tenant));
            var svc1 := With(svc, first, st.clock);
            AdvanceStatus(st0, k, svc, Some(model), AllResolved, false, first, Done)
            == st.(store := st.store.(services := st.store.services[k := svc1]),
                   passes := st.passes[k := StatusDone(svc1, model)], clock := st.clock + 1)
  {
    var st0 := Move(st, k, SawTenant(svc, Some(model), tenant));
    var done := StatusDone(With(svc, first, st.clock), model);
    assert st0.passes[k := done] == st.passes[k := done];
  }

  lemma JobCreationState(st: State, k: Key, svc: InferenceService, model: Model)
    requires Get(st.passes, k) == Some(StatusDone(svc, model)) && Get(st.store.services, k) == Some(svc)
    requires svc.key == k && k !in st.store.jobs && k !in st.cache.jobs && !WorkloadUpToDate(svc.status, None)
    ensures FromJob(st, k, svc, model, Prompt)
            == st.(store := st.store.(
                     services := st.store.services[k := With(svc, WantedWorkload(svc.status, None, 0), st.clock + 1)],
                     jobs := st.store.jobs[k := BuildJob(svc, model, st.clock)]),
                   passes := st.passes - {k}, clock := st.clock + 2)
  {
    var tried := TryJob(st, k, svc, model, Prompt);
    assert tried.passes - {k} == st.passes - {k};
  }

  /** A pass that finds the Job missing in the cache although it is stored reports an error. */
  lemma LaggingPass(cap: Capacity, st: State, k: Key, svc: InferenceService, model: Model, tenant: Tenant)
    requires Begins(cap, st, k, svc, model, tenant) && Recorded(svc, tenant)
    requires k in st.store.jobs && k !in st.cache.jobs && !WorkloadUpToDate(svc.status, AlreadyExists)
    ensures RunPass(cap, st, k, Prompt)
            == st.(store := st.store.(services :=
                     st.store.services[k := With(svc, WantedWorkload(svc.status, AlreadyExists, 0), st.clock)]),
                   passes := st.passes - {k}, delayed := st.delayed + {k}, clock := st.clock + 1)
  {
    RecordedPass(cap, st, k, svc, model, tenant, Prompt);
    var tried := TryJob(Move(st, k, StatusDone(svc, model)), k, svc, model, Prompt);
    assert tried.passes - {k} == st.passes - {k};
  }

  /** A pass that loses its Get of the Job reports an error. */
  lemma LossyPass(cap: Capacity, st: State, k: Key, svc: InferenceService, model: Model, tenant: Tenant)
    requires Begins(cap, st, k, svc, model, tenant) && Recorded(svc, tenant) && !WorkloadUpToDate(svc.status, Timeout)
    ensures RunPass(cap, st, k, Lossy)
            == st.(store := st.store.(services :=
                     st.store.services[k := With(svc, WantedWorkload(svc.status, Timeout, 0), st.clock)]),
                   passes := st.passes - {k}, delayed := st.delayed + {k}, clock := st.clock + 1)
  {
    RecordedPass(cap, st, k, svc, model, tenant, Lossy);
    var tried := TryJob(Move(st, k, StatusDone(svc, model)), k, svc, model, Lossy);
    assert tried.passes - {k} == st.passes - {k};
  }

  const Timeout := Some(ApiError("timeout"))

  /** A pass that finds its Job stores WorkloadReady=True unless it is there already. */
  lemma CaughtUpPass(cap: Capacity, st: State, k: Key, svc: InferenceService, model: Model, tenant: Tenant)
    requires Begins(cap, st, k, svc, model, tenant) && Recorded(svc, tenant) && k in st.cache.jobs
    ensures RunPass(cap, st, k, Prompt)
            == if WorkloadUpToDate(svc.status, None) then st.(passes := st.passes - {k})
               else st.(store := st.store.(services :=
                          st.store.services[k := With(svc, WantedWorkload(svc.status, None, 0), st.clock)]),
                        passes := st.passes - {k}, clock := st.clock + 1)
  {
    RecordedPass(cap, st, k, svc, model, tenant, Prompt);
    var tried := TryJob(Move(st, k, StatusDone(svc, model)), k, svc, model, Prompt);
    assert tried.passes - {k} == st.passes - {k};
  }

  // ---------- one service, five writes ----------

  /** A new service that can run, with its Model and its Tenant. */
  datatype Cast = Cast(svc: InferenceService, model: Model, tenant: Tenant, clock: nat)

  ghost predicate Runnable(cap: Capacity, x: Cast) {
    && x.model.key == ModelKey(x.svc) && x.tenant.name == x.svc.key.ns
    && x.svc.status == EmptyServiceStatus && x.svc.version < x.clock
    && x.model.version < x.clock && x.tenant.version < x.clock
    && DepsOf(cap, x.svc, Some(x.model), Some(x.tenant)).Ok()
  }

  function World(x: Cast, svc: InferenceService, jobs: map<Key, Job>): Objects {
    Objects(map[x.svc.key := svc], map[x.model.key := x.model], map[x.tenant.name := x.tenant], jobs)
  }

  /** The key of the service is up for a pass, or nothing is. */
  function Scene(x: Cast, store: Objects, cache: Objects, dirty: bool, ticks: nat): State {
    State(store, cache, if dirty then {x.svc.key} else {}, {}, map[], x.clock + ticks)
  }

  /** Where the runs begin. */
  function Opening(x: Cast): State {
    Scene(x, World(x, x.svc, map[]), World(x, x.svc, map[]), true, 0)
  }

  lemma OnePass(cap: Capacity, start: Since, scene: State, k: Key)
    requires Leads(cap, start, scene) && scene.dirty == {k} && scene.passes == map[]
    ensures Leads(cap, start, RunPass(cap, scene.(dirty := {}, passes := map[k := Begun]), k, Prompt))
  {
    var _ := OnePassWith(cap, start, scene, k, Prompt);
  }

  lemma OnePassWith(cap: Capacity, start: Since, scene: State, k: Key, c: Calls) returns (lost: nat)
    requires Leads(cap, start, scene) && scene.dirty == {k} && scene.passes == map[] && (start.lossy || AllDone(c))
    ensures lost <= 1 && (AllDone(c) ==> lost == 0)
    ensures Leads(cap, start.(lost := start.lost + lost),
                  RunPass(cap, scene.(dirty := {}, passes := map[k := Begun]), k, c))
  {
    LeadsOn(cap, start, scene, Take(k));
    assert Next(cap, scene, Take(k)) == scene.(dirty := {}, passes := map[k := Begun]);
    lost := LeadsThroughPass(cap, start, scene.(dirty := {}, passes := map[k := Begun]), k, c);
  }

  /** The service of the cast at some later status. */
  ghost predicate Later(cap: Capacity, x: Cast, svc: InferenceService, ticks: nat) {
    && Runnable(cap, x) && With(svc, x.svc.status, x.svc.version) == x.svc && svc.version < x.clock + ticks
  }

  /** The pass on the service has just begun. */
  function InPass(x: Cast, svc: InferenceService, jobs: map<Key, Job>, cached: map<Key, Job>, ticks: nat): State {
    Scene(x, World(x, svc, jobs), World(x, svc, cached), false, ticks).(passes := map[x.svc.key := Begun])
  }

  lemma PassBegins(cap: Capacity, x: Cast, svc: InferenceService, jobs: map<Key, Job>, cached: map<Key, Job>,
                   ticks: nat)
    requires Later(cap, x, svc, ticks)
    ensures Begins(cap, InPass(x, svc, jobs, cached, ticks), x.svc.key, svc, x.model, x.tenant)
  {
  }

  lemma PassLeaves(x: Cast, svc: InferenceService, svc': InferenceService, jobs: map<Key, Job>, cached: map<Key, Job>,
                   ticks: nat)
    requires svc.key == x.svc.key
    ensures var k, st := x.svc.key, InPass(x, svc, jobs, cached, ticks);
            && st.passes - {k} == map[] && st.delayed + {k} == {k}
            && st.store.(services := st.store.services[k := svc']) == World(x, svc', jobs)
  {
    var k, st := x.svc.key, InPass(x, svc, jobs, cached, ticks);
    assert st.store.services[k := svc'] == map[k := svc'];
  }

  /** The stored service is delivered. */
  lemma ServiceArrives(cap: Capacity, x: Cast, start: Since, svc: InferenceService, seen: InferenceService,
                       jobs: map<Key, Job>, cached: map<Key, Job>, dirty: bool, ticks: nat)
    requires Leads(cap, start, Scene(x, World(x, svc, jobs), World(x, seen, cached), dirty, ticks))
    requires Later(cap, x, svc, ticks)
    ensures Leads(cap, start, Scene(x, World(x, svc, jobs), World(x, svc, cached), true, ticks))
  {
    var st, k := Scene(x, World(x, svc, jobs), World(x, seen, cached), dirty, ticks), x.svc.key;
    LeadsOn(cap, start, st, DeliverService(k, Some(svc)));
    assert Put(st.cache.services, k, Some(svc)) == map[k := svc];
    assert st.dirty + {k} == {k};
  }

  /** The Job is delivered. */
  lemma JobArrives(cap: Capacity, x: Cast, start: Since, svc: InferenceService, job: Job, ticks: nat)
    requires Leads(cap, start, Scene(x, World(x, svc, map[x.svc.key := job]), World(x, svc, map[]), true, ticks))
    requires job.key == x.svc.key && job.version < x.clock + ticks
    ensures var world := World(x, svc, map[x.svc.key := job]);
            Leads(cap, start, Scene(x, world, world, true, ticks))
  {
    var st, k := Scene(x, World(x, svc, map[x.svc.key := job]), World(x, svc, map[]), true, ticks), x.svc.key;
    LeadsOn(cap, start, st, DeliverJob(k, Some(job)));
    assert Put(st.cache.jobs, k, Some(job)) == map[k := job];
  }

  /** The back-off ends. */
  lemma BackOffEnds(cap: Capacity, x: Cast, start: Since, store: Objects, cache: Objects, ticks: nat)
    requires Leads(cap, start, Scene(x, store, cache, false, ticks).(delayed := {x.svc.key}))
    ensures Leads(cap, start, Scene(x, store, cache, true, ticks))
  {
    var k, st := x.svc.key, Scene(x, store, cache, false, ticks).(delayed := {x.svc.key});
    LeadsOn(cap, start, st, Fire(k));
    assert st.delayed - {k} == {} && st.dirty + {k} == {k};
  }

  /** The first pass of a new service leaves it recorded, with WorkloadReady=True. */
  lemma FirstPassRecords(x: Cast, first: ServiceStatus, svc: InferenceService)
    requires first == FirstStatus(x.svc, x.tenant) && svc == With(x.svc, WantedWorkload(first, None, 0), x.clock + 2)
    ensures Recorded(svc, x.tenant) && WorkloadUpToDate(svc.status, None)
  {
    var prio := DerivedPriority(x.svc.spec, Some(x.tenant));
    WantedIsUpToDate(x.svc.status, x.svc.generation, AllResolved, prio, 0);
    WorkloadKeepsStatus(first, x.svc.generation, AllResolved, prio, None, 0);
    WorkloadEstablished(first, None, 0);
  }

  /** A new service: three writes. */
  lemma FirstRound(cap: Capacity, x: Cast, start: Since) returns (svc: InferenceService, job: Job)
    requires Runnable(cap, x) && Leads(cap, start, Opening(x))
    ensures Later(cap, x, svc, 3) && Recorded(svc, x.tenant) && WorkloadUpToDate(svc.status, None)
    ensures job.key == x.svc.key && job.version == x.clock + 1
    ensures Leads(cap, start, Scene(x, World(x, svc, map[x.svc.key := job]), World(x, svc, map[]), true, 3))
  {
    var k, first := x.svc.key, FirstStatus(x.svc, x.tenant);
    NewServiceHasNothing(x.svc, x.tenant);
    svc := With(x.svc, WantedWorkload(first, None, 0), x.clock + 2);
    FirstPassRecords(x, first, svc);
    job := FirstWrites(cap, x, start, first, svc);
    ServiceArrives(cap, x, start, svc, x.svc, map[k := job], map[], false, 3);
  }

  lemma FirstWrites(cap: Capacity, x: Cast, start: Since, first: ServiceStatus, svc: InferenceService)
    returns (job: Job)
    requires Runnable(cap, x) && Leads(cap, start, Opening(x)) && !Recorded(x.svc, x.tenant)
    requires first == FirstStatus(x.svc, x.tenant) && !WorkloadUpToDate(first, None)
    requires svc == With(x.svc, WantedWorkload(first, None, 0), x.clock + 2)
    ensures job.key == x.svc.key && job.version == x.clock + 1
    ensures Leads(cap, start, Scene(x, World(x, svc, map[x.svc.key := job]), World(x, x.svc, map[]), false, 3))
  {
    OnePass(cap, start, Opening(x), x.svc.key);
    job := BuildJob(With(x.svc, first, x.clock), x.model, x.clock + 1);
    FirstRoundState(cap, x, first, svc, job);
  }

  lemma FirstRoundState(cap: Capacity, x: Cast, first: ServiceStatus, svc: InferenceService, job: Job)
    requires Runnable(cap, x) && !Recorded(x.svc, x.tenant)
    requires first == FirstStatus(x.svc, x.tenant) && !WorkloadUpToDate(first, None)
    requires svc == With(x.svc, WantedWorkload(first, None, 0), x.clock + 2)
    requires job == BuildJob(With(x.svc, first, x.clock), x.model, x.clock + 1)
    ensures RunPass(cap, Opening(x).(dirty := {}, passes := map[x.svc.key := Begun]), x.svc.key, Prompt)
            == Scene(x, World(x, svc, map[x.svc.key := job]), World(x, x.svc, map[]), false, 3)
  {
    var k := x.svc.key;
    var st := Opening(x).(dirty := {}, passes := map[k := Begun]);
    NewServicePass(cap, st, k, x.svc, x.model, x.tenant, first);
    FirstRoundScene(x, svc, job);
  }

  lemma FirstRoundScene(x: Cast, svc: InferenceService, job: Job)
    ensures var k := x.svc.key;
            var st := Opening(x).(dirty := {}, passes := map[k := Begun]);
            st.(store := st.store.(services := st.store.services[k := svc], jobs := st.store.jobs[k := job]),
                passes := st.passes - {k}, clock := st.clock + 3)
            == Scene(x, World(x, svc, map[k := job]), World(x, x.svc, map[]), false, 3)
  {
    var k := x.svc.key;
    var st := Opening(x).(dirty := {}, passes := map[k := Begun]);
    assert st.passes - {k} == map[];
    assert st.store.services[k := svc] == map[k := svc];
    assert st.store.jobs[k := job] == map[k := job];
  }

  lemma WorkloadRecorded(svc: InferenceService, tenant: Tenant, jobErr: Option<Message>, version: nat)
    requires Recorded(svc, tenant)
    ensures var svc' := With(svc, WantedWorkload(svc.status, jobErr, 0), version);
            Recorded(svc', tenant) && WorkloadUpToDate(svc'.status, jobErr)
  {
    WorkloadKeepsStatus(svc.status, svc.generation, AllResolved, DerivedPriority(svc.spec, Some(tenant)), jobErr, 0);
    WorkloadEstablished(svc.status, jobErr, 0);
  }

  lemma LaggingRoundState(cap: Capacity, x: Cast, svc: InferenceService, svc': InferenceService, jobs: map<Key, Job>,
                          ticks: nat)
    requires Later(cap, x, svc, ticks) && Recorded(svc, x.tenant) && WorkloadUpToDate(svc.status, None)
             && x.svc.key in jobs
    requires svc' == With(svc, WantedWorkload(svc.status, AlreadyExists, 0), x.clock + ticks)
    ensures RunPass(cap, InPass(x, svc, jobs, map[], ticks), x.svc.key, Prompt)
            == Scene(x, World(x, svc', jobs), World(x, svc, map[]), false, ticks + 1).(delayed := {x.svc.key})
  {
    PassBegins(cap, x, svc, jobs, map[], ticks);
    PassLeaves(x, svc, svc', jobs, map[], ticks);
    LaggingPass(cap, InPass(x, svc, jobs, map[], ticks), x.svc.key, svc, x.model, x.tenant);
  }

  /** The service comes back before its Job does: WorkloadReady=False, and a back-off. */
  lemma LaggingRound(cap: Capacity, x: Cast, start: Since, svc: InferenceService, job: Job, ticks: nat)
    returns (svc': InferenceService)
    requires Later(cap, x, svc, ticks) && Recorded(svc, x.tenant) && WorkloadUpToDate(svc.status, None)
    requires Leads(cap, start, Scene(x, World(x, svc, map[x.svc.key := job]), World(x, svc, map[]), true, ticks))
    ensures Later(cap, x, svc', ticks + 1) && Recorded(svc', x.tenant) && !WorkloadUpToDate(svc'.status, None)
    ensures Leads(cap, start, Scene(x, World(x, svc', map[x.svc.key := job]), World(x, svc', map[]), true, ticks + 1))
  {
    var k := x.svc.key;
    svc' := With(svc, WantedWorkload(svc.status, AlreadyExists, 0), x.clock + ticks);
    WorkloadRecorded(svc, x.tenant, AlreadyExists, x.clock + ticks);
    var jobs := map[k := job];
    OnePass(cap, start, Scene(x, World(x, svc, jobs), World(x, svc, map[]), true, ticks), k);
    LaggingRoundState(cap, x, svc, svc', jobs, ticks);
    BackOffEnds(cap, x, start, World(x, svc', jobs), World(x, svc, map[]), ticks + 1);
    ServiceArrives(cap, x, start, svc', svc, jobs, map[], true, ticks + 1);
  }

  lemma CatchingUpState(cap: Capacity, x: Cast, svc: InferenceService, svc': InferenceService, jobs: map<Key, Job>,
                        ticks: nat)
    requires Later(cap, x, svc, ticks) && Recorded(svc, x.tenant) && !WorkloadUpToDate(svc.status, None)
             && x.svc.key in jobs
    requires svc' == With(svc, WantedWorkload(svc.status, None, 0), x.clock + ticks)
    ensures RunPass(cap, InPass(x, svc, jobs, jobs, ticks), x.svc.key, Prompt)
            == Scene(x, World(x, svc', jobs), World(x, svc, jobs), false, ticks + 1)
  {
    PassBegins(cap, x, svc, jobs, jobs, ticks);
    PassLeaves(x, svc, svc', jobs, jobs, ticks);
    CaughtUpPass(cap, InPass(x, svc, jobs, jobs, ticks), x.svc.key, svc, x.model, x.tenant);
  }

  /** The Job is there: WorkloadReady=True is stored again. */
  lemma CatchingUpRound(cap: Capacity, x: Cast, start: Since, svc: InferenceService, job: Job, ticks: nat)
    returns (svc': InferenceService)
    requires Later(cap, x, svc, ticks) && Recorded(svc, x.tenant) && !WorkloadUpToDate(svc.status, None)
    requires var world := World(x, svc, map[x.svc.key := job]); Leads(cap, start, Scene(x, world, world, true, ticks))
    ensures Later(cap, x, svc', ticks + 1) && Recorded(svc', x.tenant) && WorkloadUpToDate(svc'.status, None)
    ensures var world := World(x, svc', map[x.svc.key := job]);
            Leads(cap, start, Scene(x, world, world, true, ticks + 1))
  {
    var k := x.svc.key;
    svc' := With(svc, WantedWorkload(svc.status, None, 0), x.clock + ticks);
    WorkloadRecorded(svc, x.tenant, None, x.clock + ticks);
    var jobs := map[k := job];
    OnePass(cap, start, Scene(x, World(x, svc, jobs), World(x, svc, jobs), true, ticks), k);
    CatchingUpState(cap, x, svc, svc', jobs, ticks);
    ServiceArrives(cap, x, start, svc', svc, jobs, jobs, false, ticks + 1);
  }

  lemma LossyRoundState(cap: Capacity, x: Cast, svc: InferenceService, svc': InferenceService, jobs: map<Key, Job>,
                        ticks: nat)
    requires Later(cap, x, svc, ticks) && Recorded(svc, x.tenant) && WorkloadUpToDate(svc.status, None)
    requires svc' == With(svc, WantedWorkload(svc.status, Timeout, 0), x.clock + ticks)
    ensures RunPass(cap, InPass(x, svc, jobs, jobs, ticks), x.svc.key, Lossy)
            == Scene(x, World(x, svc', jobs), World(x, svc, jobs), false, ticks + 1).(delayed := {x.svc.key})
  {
    PassBegins(cap, x, svc, jobs, jobs, ticks);
    PassLeaves(x, svc, svc', jobs, jobs, ticks);
    LossyPass(cap, InPass(x, svc, jobs, jobs, ticks), x.svc.key, svc, x.model, x.tenant);
  }

  /** The Get of the Job is lost: WorkloadReady=False, and a back-off. */
  lemma LossyRound(cap: Capacity, x: Cast, start: Since, svc: InferenceService, job: Job, ticks: nat)
    returns (svc': InferenceService, lost: nat)
    requires Later(cap, x, svc, ticks) && Recorded(svc, x.tenant) && WorkloadUpToDate(svc.status, None) && start.lossy
    requires var world := World(x, svc, map[x.svc.key := job]); Leads(cap, start, Scene(x, world, world, true, ticks))
    ensures Later(cap, x, svc', ticks + 1) && Recorded(svc', x.tenant) && !WorkloadUpToDate(svc'.status, None)
    ensures lost <= 1
    ensures var world := World(x, svc', map[x.svc.key := job]);
            Leads(cap, start.(lost := start.lost + lost), Scene(x, world, world, true, ticks + 1))
  {
    var k := x.svc.key;
    var jobs := map[k := job];
    svc' := With(svc, WantedWorkload(svc.status, Timeout, 0), x.clock + ticks);
    WorkloadRecorded(svc, x.tenant, Timeout, x.clock + ticks);
    lost := OnePassWith(cap, start, Scene(x, World(x, svc, jobs), World(x, svc, jobs), true, ticks), k, Lossy);
    var since := start.(lost := start.lost + lost);
    LossyRoundState(cap, x, svc, svc', jobs, ticks);
    BackOffEnds(cap, x, since, World(x, svc', jobs), World(x, svc, jobs), ticks + 1);
    ServiceArrives(cap, x, since, svc', svc, jobs, jobs, true, ticks + 1);
  }

  /** Everything is there: a pass writes nothing. */
  lemma SilentRound(cap: Capacity, x: Cast, start: Since, svc: InferenceService, job: Job, ticks: nat)
    requires Later(cap, x, svc, ticks) && Recorded(svc, x.tenant) && WorkloadUpToDate(svc.status, None)
    requires var world := World(x, svc, map[x.svc.key := job]); Leads(cap, start, Scene(x, world, world, true, ticks))
    ensures var world := World(x, svc, map[x.svc.key := job]); Leads(cap, start, Scene(x, world, world, false, ticks))
  {
    var k := x.svc.key;
    var world := World(x, svc, map[k := job]);
    OnePass(cap, start, Scene(x, world, world, true, ticks), k);
    var st := Scene(x, world, world, true, ticks).(dirty := {}, passes := map[k := Begun]);
    CaughtUpPass(cap, st, k, svc, x.model, x.tenant);
    assert st.passes - {k} == map[];
  }

  /** From its first appearance to rest, with five ticks of the clock. */
  lemma OpeningLeadsToRest(cap: Capacity, x: Cast) returns (svc: InferenceService, job: Job)
    requires Runnable(cap, x)
    ensures Later(cap, x, svc, 5) && Recorded(svc, x.tenant) && WorkloadUpToDate(svc.status, None)
    ensures job.key == x.svc.key && job.version < x.clock + 5
    ensures var world := World(x, svc, map[x.svc.key := job]);
            Leads(cap, Since(Opening(x), 0, false), Scene(x, world, world, false, 5))
  {
    var start := Since(Opening(x), 0, false);
    LeadsToItself(cap, Opening(x), false);
    svc, job := FirstRound(cap, x, start);
    svc := LaggingRound(cap, x, start, svc, job, 3);
    JobArrives(cap, x, start, svc, job, 4);
    svc := CatchingUpRound(cap, x, start, svc, job, 4);
    SilentRound(cap, x, start, svc, job, 5);
  }

  lemma OpeningIsFresh(cap: Capacity, x: Cast)
    requires Runnable(cap, x)
    ensures Fresh(cap, Opening(x))
    ensures Unsettled(cap, Opening(x)) == {x.svc.key}
  {
    var k := x.svc.key;
    assert !Holds(x.svc.status.conditions, DependencyConditions(Verdict(cap, Opening(x), k), 0)[0]);
    assert Potential(cap, Opening(x), k) > 0;
  }

  /** A path is a frozen run, and the clock tells how often it wrote. */
  lemma PathsAreRuns(cap: Capacity, start: Since, st': State, writes: nat)
    requires Leads(cap, start, st') && Fresh(cap, start.st) && st'.clock == start.st.clock + writes
    ensures exists tr: seq<State>, acts: seq<Action> ::
              && FrozenRun(cap, tr, acts) && tr[0] == start.st
              && LostJobCalls(tr, acts, |acts|) == start.lost && Writes(tr, acts, |acts|) == writes
  {
    var tr: seq<State>, acts: seq<Action> :| Path(cap, tr, acts, start, st');
    forall i | 0 <= i < |acts| ensures FrozenStep(cap, tr, acts, i) && !acts[i].EnvJob? {
      assert PathStep(cap, tr, acts, start.lossy, i);
    }
    WritesAreTicks(cap, tr, acts, |acts|);
  }

  /** The bound of five is reached: any new service that can run has, alone in its cluster, a frozen
      run that writes five times although every call is answered. */
  lemma FiveWritesAreReached(cap: Capacity, x: Cast)
    requires Runnable(cap, x)
    ensures exists tr: seq<State>, acts: seq<Action> ::
              && FrozenRun(cap, tr, acts) && tr[0] == Opening(x)
              && LostJobCalls(tr, acts, |acts|) == 0 && Failing(tr[0]) == {}
              && Writes(tr, acts, |acts|) == 5 && |Unsettled(cap, tr[0])| == 1
  {
    var svc, job := OpeningLeadsToRest(cap, x);
    OpeningIsFresh(cap, x);
    var world := World(x, svc, map[x.svc.key := job]);
    PathsAreRuns(cap, Since(Opening(x), 0, false), Scene(x, world, world, false, 5), 5);
  }

  // ---------- a settled service, two writes per lost call ----------

  /** A settled service that comes up for a pass. */
  ghost predicate Rests(cap: Capacity, x: Cast, start: Since, svc: InferenceService, job: Job, ticks: nat) {
    && Later(cap, x, svc, ticks) && Recorded(svc, x.tenant) && WorkloadUpToDate(svc.status, None)
    && var world := World(x, svc, map[x.svc.key := job]); Leads(cap, start, Scene(x, world, world, true, ticks))
  }

  lemma LossAndRecovery(cap: Capacity, x: Cast, first: State, lost: nat, svc: InferenceService, job: Job, ticks: nat)
    returns (svc': InferenceService, lost': nat)
    requires Rests(cap, x, Since(first, lost, true), svc, job, ticks)
    ensures lost' <= lost + 1 && Rests(cap, x, Since(first, lost', true), svc', job, ticks + 2)
  {
    var one;
    svc', one := LossyRound(cap, x, Since(first, lost, true), svc, job, ticks);
    lost' := lost + one;
    svc' := CatchingUpRound(cap, x, Since(first, lost', true), svc', job, ticks + 1);
  }

  /** `n` lost calls, two writes each. */
  lemma {:induction false} LossyRounds(cap: Capacity, x: Cast, first: State, lost: nat, svc: InferenceService, job: Job,
                                       ticks: nat, n: nat, goal: nat)
    returns (svc': InferenceService, lost': nat)
    requires Rests(cap, x, Since(first, lost, true), svc, job, ticks) && goal == ticks + 2 * n
    ensures lost' <= lost + n && Rests(cap, x, Since(first, lost', true), svc', job, goal)
    decreases n
  {
    if n == 0 {
      svc', lost' := svc, lost;
    } else {
      var again, more := LossAndRecovery(cap, x, first, lost, svc, job, ticks);
      svc', lost' := LossyRounds(cap, x, first, more, again, job, ticks + 2, n - 1, goal);
    }
  }

  lemma SettledIsFresh(cap: Capacity, x: Cast, svc: InferenceService, job: Job, ticks: nat)
    requires Later(cap, x, svc, ticks) && Recorded(svc, x.tenant) && WorkloadUpToDate(svc.status, None)
    ensures var world := World(x, svc, map[x.svc.key := job]);
            var st := Scene(x, world, world, true, ticks);
            Fresh(cap, st) && Unsettled(cap, st) == {} && Failing(st) == {}
  {
    var world := World(x, svc, map[x.svc.key := job]);
    var st := Scene(x, world, world, true, ticks);
    assert Verdict(cap, st, x.svc.key) == AllResolved;
  }

  lemma LossyRunFrom(cap: Capacity, x: Cast, settled: State, svc: InferenceService, job: Job, n: nat)
    requires Later(cap, x, svc, 5) && Recorded(svc, x.tenant) && WorkloadUpToDate(svc.status, None)
    requires settled == Scene(x, World(x, svc, map[x.svc.key := job]), World(x, svc, map[x.svc.key := job]), true, 5)
    requires Fresh(cap, settled)
    ensures exists tr: seq<State>, acts: seq<Action> ::
              && FrozenRun(cap, tr, acts) && tr[0] == settled
              && LostJobCalls(tr, acts, |acts|) <= n && Writes(tr, acts, |acts|) == 2 * n
  {
    LeadsToItself(cap, settled, true);
    var svc', lost := LossyRounds(cap, x, settled, 0, svc, job, 5, n, 5 + 2 * n);
    var world := World(x, svc', map[x.svc.key := job]);
    PathsAreRuns(cap, Since(settled, lost, true), Scene(x, world, world, true, 5 + 2 * n), 2 * n);
  }

  /** Lost calls cost two writes each, without end: from a state in which nothing is left to write
      there are, for every `n`, frozen runs that lose `n` Job calls and write 2n times. */
  lemma LostCallsCostTwoEach(cap: Capacity, x: Cast, n: nat)
    requires Runnable(cap, x)
    ensures exists tr: seq<State>, acts: seq<Action> ::
              && FrozenRun(cap, tr, acts) && Unsettled(cap, tr[0]) == {} && Failing(tr[0]) == {}
              && LostJobCalls(tr, acts, |acts|) == n && Writes(tr, acts, |acts|) == 2 * n
  {
    var svc, job := OpeningLeadsToRest(cap, x);
    var world := World(x, svc, map[x.svc.key := job]);
    var settled := Scene(x, world, world, true, 5);
    SettledIsFresh(cap, x, svc, job, 5);
    LossyRunFrom(cap, x, settled, svc, job, n);
    var tr: seq<State>, acts: seq<Action> :|
      && FrozenRun(cap, tr, acts) && Unsettled(cap, tr[0]) == {} && Failing(tr[0]) == {}
      && LostJobCalls(tr, acts, |acts|) <= n && Writes(tr, acts, |acts|) == 2 * n;
    WritesAreBounded(cap, tr, acts, |acts|);
  }

  // ---------- a quiet state ----------

  lemma RestIsQuiet(cap: Capacity, x: Cast, svc: InferenceService, jobs: map<Key, Job>)
    requires Later(cap, x, svc, 5)
    ensures SettledOrQueued.Quiet(Scene(x, World(x, svc, jobs), World(x, svc, jobs), false, 5), x.svc.key)
  {
    assert ModelKey(svc) == x.model.key;
  }

  /** The operator has just started and nothing is delivered yet. */
  function Dark(x: Cast): State {
    State(World(x, x.svc, map[]), NoObjects, {}, {}, map[], x.clock)
  }

  lemma StartingUp(cap: Capacity, x: Cast, s1: State, s2: State)
    requires Runnable(cap, x)
    requires s1 == Dark(x).(cache := NoObjects.(models := map[x.model.key := x.model]))
    requires s2 == Dawn(x)
    ensures CalmStep(cap, [Dark(x), s1], [DeliverModel(x.model.key, Some(x.model))], 0)
    ensures CalmStep(cap, [s1, s2], [DeliverTenant(x.tenant.name, Some(x.tenant))], 0)
    ensures CalmStep(cap, [s2, Opening(x)], [DeliverService(x.svc.key, Some(x.svc))], 0)
  {
    assert Put(NoObjects.models, x.model.key, Some(x.model)) == s1.cache.models;
    assert Put(s1.cache.tenants, x.tenant.name, Some(x.tenant)) == s2.cache.tenants;
    assert Put(s2.cache.services, x.svc.key, Some(x.svc)) == Opening(x).cache.services;
    assert Referencing(NoObjects.services, x.model.key) == {};
  }

  /** Nobody edits anything, calls are answered, and deliveries show what is stored. */
  ghost predicate CalmStep(cap: Capacity, tr: seq<State>, acts: seq<Action>, i: nat)
    requires |tr| == |acts| + 1
  {
    && StepAt(cap, tr, acts, i) && Calm(tr[i], acts[i])
    && match acts[i]
       case DeliverService(k, v) => v == Get(tr[i].store.services, k)
       case DeliverModel(mk, v) => v == Get(tr[i].store.models, mk)
       case DeliverTenant(ns, v) => v == Get(tr[i].store.tenants, ns)
       case DeliverJob(_, v) => v.Some?
       case _ => true
  }

  ghost predicate CalmRun(cap: Capacity, tr: seq<State>, acts: seq<Action>) {
    |tr| == |acts| + 1 && forall i :: 0 <= i < |acts| ==> CalmStep(cap, tr, acts, i)
  }

  lemma PrependStep(cap: Capacity, tr: seq<State>, acts: seq<Action>, st: State, a: Action)
    requires CalmRun(cap, tr, acts)
    requires CalmStep(cap, [st, tr[0]], [a], 0)
    ensures CalmRun(cap, [st] + tr, [a] + acts)
  {
    var tr', acts' := [st] + tr, [a] + acts;
    forall i | 0 <= i < |acts'| ensures CalmStep(cap, tr', acts', i) {
      if i > 0 {
        assert CalmStep(cap, tr, acts, i - 1);
      } else {
        assert CalmStep(cap, [st, tr[0]], [a], 0);
      }
    }
  }

  lemma PathIsCalm(cap: Capacity, tr: seq<State>, acts: seq<Action>, start: Since, st': State)
    requires Path(cap, tr, acts, start, st') && !start.lossy
    ensures CalmRun(cap, tr, acts)
  {
    forall i | 0 <= i < |acts| ensures CalmStep(cap, tr, acts, i) {
      assert PathStep(cap, tr, acts, start.lossy, i);
    }
  }

  lemma DarkIsInitial(cap: Capacity, x: Cast)
    requires Runnable(cap, x)
    ensures Init(Dark(x))
  {
  }

  /** Quiet states are reached from a fresh start of the operator: everything is delivered, the
      passes run, and in the end nothing is left to look at the service again. */
  lemma QuietStatesAreReached(cap: Capacity, x: Cast)
    requires Runnable(cap, x)
    ensures exists tr: seq<State>, acts: seq<Action> ::
              IsRun(cap, tr, acts) && tr[0] == Dark(x) && SettledOrQueued.Quiet(tr[|acts|], x.svc.key)
  {
    var tr, acts, svc, job := DarkLeadsToRest(cap, x);
    RestIsQuiet(cap, x, svc, map[x.svc.key := job]);
    CalmRunIsRun(cap, tr, acts);
  }

  lemma CalmRunIsRun(cap: Capacity, tr: seq<State>, acts: seq<Action>)
    requires CalmRun(cap, tr, acts) && Init(tr[0])
    ensures IsRun(cap, tr, acts)
  {
    forall i | 0 <= i < |acts| ensures StepAt(cap, tr, acts, i) {
      assert CalmStep(cap, tr, acts, i);
    }
  }

  /** When Model and Tenant have been delivered. */
  function Dawn(x: Cast): State {
    Dark(x).(cache := NoObjects.(models := map[x.model.key := x.model], tenants := map[x.tenant.name := x.tenant]))
  }

  /** From a fresh start of the operator to rest: three deliveries, then the path above. */
  lemma DarkLeadsToRest(cap: Capacity, x: Cast)
    returns (tr: seq<State>, acts: seq<Action>, svc: InferenceService, job: Job)
    requires Runnable(cap, x)
    ensures CalmRun(cap, tr, acts) && Init(tr[0]) && |tr| > 3
    ensures tr[0] == Dark(x) && tr[2] == Dawn(x)
    ensures acts[2] == DeliverService(x.svc.key, Some(x.svc))
    ensures forall i :: 3 <= i < |acts| ==> Plain(tr[i], acts[i])
    ensures Later(cap, x, svc, 5)
    ensures var world := World(x, svc, map[x.svc.key := job]); tr[|acts|] == Scene(x, world, world, false, 5)
  {
    var s1 := Dark(x).(cache := NoObjects.(models := map[x.model.key := x.model]));
    StartingUp(cap, x, s1, Dawn(x));
    DarkIsInitial(cap, x);
    svc, job := OpeningLeadsToRest(cap, x);
    var world := World(x, svc, map[x.svc.key := job]);
    tr, acts := RunFromTheDark(cap, x, s1, Dawn(x), Opening(x), Scene(x, world, world, false, 5));
  }

  lemma RunFromTheDark(cap: Capacity, x: Cast, s1: State, s2: State, opening: State, ending: State)
    returns (tr: seq<State>, acts: seq<Action>)
    requires Leads(cap, Since(opening, 0, false), ending)
    requires CalmStep(cap, [Dark(x), s1], [DeliverModel(x.model.key, Some(x.model))], 0)
    requires CalmStep(cap, [s1, s2], [DeliverTenant(x.tenant.name, Some(x.tenant))], 0)
    requires CalmStep(cap, [s2, opening], [DeliverService(x.svc.key, Some(x.svc))], 0)
    ensures CalmRun(cap, tr, acts) && |tr| > 3 && tr[0] == Dark(x) && tr[2] == s2 && tr[|acts|] == ending
    ensures acts[2] == DeliverService(x.svc.key, Some(x.svc))
    ensures forall i :: 3 <= i < |acts| ==> Plain(tr[i], acts[i])
  {
    var ptr: seq<State>, pacts: seq<Action> :| Path(cap, ptr, pacts, Since(opening, 0, false), ending);
    PathIsCalm(cap, ptr, pacts, Since(opening, 0, false), ending);
    var a0, a1 := DeliverModel(x.model.key, Some(x.model)), DeliverTenant(x.tenant.name, Some(x.tenant));
    var a2 := DeliverService(x.svc.key, Some(x.svc));
    PrependStep(cap, ptr, pacts, s2, a2);
    PrependStep(cap, [s2] + ptr, [a2] + pacts, s1, a1);
    PrependStep(cap, [s1] + ([s2] + ptr), [a1] + ([a2] + pacts), Dark(x), a0);
    tr, acts := [Dark(x)] + ([s1] + ([s2] + ptr)), [a0] + ([a1] + ([a2] + pacts));
    forall i | 3 <= i < |acts| ensures Plain(tr[i], acts[i]) {
      assert PathStep(cap, ptr, pacts, false, i - 3);
    }
    assert tr[|acts|] == ptr[|pacts|];
  }

  /** There is such a cast. */
  lemma ACastExists(cap: Capacity, k: Key, model: string)
    requires cap(model, SharedGpu)
    ensures exists x: Cast :: Runnable(cap, x) && x.svc.key == k && x.svc.spec.model == model
  {
    var spec := ServiceSpec(model, Interactive, SharedGpu, None, None, None, GpuTypeUnset, Slo(None, None));
    var ready := [Condition(Ready, StatusTrue, ArtifactVerified, NoMessage, 0)];
    var x := Cast(InferenceService(k, 0, 0, 1, spec, EmptyServiceStatus),
                  Model(Key(k.ns, model), 0, ModelSpec("s3://model", "", false), ModelStatus(ready, PhaseReady, "")),
                  Tenant(k.ns, 0, TenantSpec(QuotaSpec("1", "1Gi", "1", "", ""), 0), TenantStatus([], NoPhase)), 1);
    assert First(ready, Ready) == 0;
    assert Runnable(cap, x);
  }
}
