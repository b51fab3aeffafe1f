/** One uninterrupted Reconcile call: the pass run to its end with nothing in between. */
module ReconcilePass {
  import opened Resources
  import opened ServiceStatusRules
  import opened ControlLoop
  import opened WriteBound

  /** How the API calls of one Reconcile are answered, call site by call site. */
  datatype Calls = Calls(
    getService: Reply, getModel: Reply, getTenant: Reply, updateStatus: Reply,
    getJob: Reply, createJob: Reply, updateWorkload: Reply, now: nat, later: nat)

  predicate AllDone(c: Calls) {
    c.getService.Done? && c.getModel.Done? && c.getTenant.Done? && c.updateStatus.Done?
    && c.getJob.Done? && c.createJob.Done? && c.updateWorkload.Done?
  }

  function ReplyAt(p: Pass, c: Calls): Reply {
    match p
    case Begun => c.getService
    case SawService(_) => c.getModel
    case SawModel(_, _) => c.getTenant
    case SawTenant(_, _, _) => c.updateStatus
    case StatusDone(_, _) => c.getJob
    case JobAbsent(_, _) => c.createJob
    case JobTried(_, _, _) => c.updateWorkload
  }

  function TimeAt(p: Pass, c: Calls): nat {
    if p.JobTried? then c.later else c.now
  }

  /** API calls a pass still has ahead of it at most. */
  function Remaining(p: Pass): nat {
    match p
    case Begun => 7
    case SawService(_) => 6
    case SawModel(_, _) => 5
    case SawTenant(_, _, _) => 4
    case StatusDone(_, _) => 3
    case JobAbsent(_, _) => 2
    case JobTried(_, _, _) => 1
  }

  ghost function One(cap: Capacity, st: State, k: Key, c: Calls): State
    requires k in st.passes
  {
    Advance(cap, st, k, ReplyAt(st.passes[k], c), TimeAt(st.passes[k], c))
  }

  lemma Progress(cap: Capacity, st: State, k: Key, c: Calls)
    requires k in st.passes
    ensures var st' := One(cap, st, k, c);
            k in st'.passes ==> Remaining(st'.passes[k]) < Remaining(st.passes[k])
  {
    match st.passes[k] {
      case SawTenant(svc, model, tenant) =>
        var d := DepsOf(cap, svc, model, tenant);
        var prio := DerivedPriority(svc.spec, tenant);
        AdvanceStatusFrame(st, k, svc, model, d, StatusUpToDate(svc.status, svc.generation, d, prio),
                           WantedStatus(svc.status, svc.generation, d, prio, c.now), c.updateStatus);
      case JobTried(svc, model, jobErr) =>
        AdvanceWorkloadFrame(st, k, svc, jobErr, WorkloadUpToDate(svc.status, jobErr),
                             WantedWorkload(svc.status, jobErr, c.later), c.updateWorkload);
      case _ =>
    }
  }

  /** The pass on `k` run to its end. */
  ghost function RunPass(cap: Capacity, st: State, k: Key, c: Calls): (r: State)
    requires k in st.passes
    ensures k !in r.passes
    decreases Remaining(st.passes[k])
  {
    var st' := One(cap, st, k, c);
    Progress(cap, st, k, c);
    if k in st'.passes then RunPass(cap, st', k, c) else st'
  }

  /** A worker has just taken `k` and sees `seen`. */
  function Start(store: Objects, seen: Objects, clock: nat, k: Key): State {
    State(store, seen, {}, {}, map[k := Begun], clock)
  }

  /** One Reconcile call against an up-to-date cache. */
  ghost function Reconciled(cap: Capacity, store: Objects, clock: nat, k: Key, c: Calls): State {
    RunPass(cap, Start(store, store, clock, k), k, c)
  }

  // ---------- the same pass as one expression ----------

  ghost function FromWorkload(st: State, k: Key, svc: InferenceService, jobErr: Option<Message>, c: Calls): State {
    AdvanceWorkload(st, k, svc, jobErr, WorkloadUpToDate(svc.status, jobErr),
                    WantedWorkload(svc.status, jobErr, c.later), c.updateWorkload)
  }

  /** Job Get and, when it finds nothing, Create. */
  function TryJob(st: State, k: Key, svc: InferenceService, model: Model, c: Calls): (r: State)
    ensures k in r.passes && r.passes[k].JobTried? && r.passes[k].svc == svc
  {
    if c.getJob.Done? && svc.key !in st.cache.jobs
    then AdvanceCreate(st, k, svc, model, c.createJob)
    else Move(st, k, JobTried(svc, model, if c.getJob.Done? then None else Some(ApiError(c.getJob.text))))
  }

  ghost function FromJob(st: State, k: Key, svc: InferenceService, model: Model, c: Calls): State {
    var tried := TryJob(st, k, svc, model, c);
    FromWorkload(tried, k, svc, tried.passes[k].jobErr, c)
  }

  ghost function FromStatus(cap: Capacity, st: State, k: Key, svc: InferenceService, model: Option<Model>,
                            tenant: Option<Tenant>, c: Calls): State {
    var d := DepsOf(cap, svc, model, tenant);
    var prio := DerivedPriority(svc.spec, tenant);
    var st' := AdvanceStatus(st, k, svc, model, d, StatusUpToDate(svc.status, svc.generation, d, prio),
                             WantedStatus(svc.status, svc.generation, d, prio, c.now), c.updateStatus);
    if k in st'.passes && st'.passes[k].StatusDone?
    then FromJob(st', k, st'.passes[k].svc, st'.passes[k].ready, c) else st'
  }

  ghost function FromService(cap: Capacity, st: State, k: Key, svc: InferenceService, c: Calls): State {
    if c.getModel.Lost? || c.getTenant.Lost? then Finish(st, k, true)
    else
      var model, tenant := Get(st.cache.models, ModelKey(svc)), Get(st.cache.tenants, svc.key.ns);
      FromStatus(cap, Move(st, k, SawTenant(svc, model, tenant)), k, svc, model, tenant, c)
  }

  lemma Unfold(cap: Capacity, st: State, k: Key, c: Calls)
    requires k in st.passes
    ensures var st' := One(cap, st, k, c);
            RunPass(cap, st, k, c) == if k in st'.passes then RunPass(cap, st', k, c) else st'
  {
    Progress(cap, st, k, c);
  }

  lemma RunFromWorkload(cap: Capacity, st: State, k: Key, c: Calls)
    requires k in st.passes && st.passes[k].JobTried?
    ensures RunPass(cap, st, k, c) == FromWorkload(st, k, st.passes[k].svc, st.passes[k].jobErr, c)
  {
    var JobTried(svc, _, jobErr) := st.passes[k];
    AdvanceWorkloadFrame(st, k, svc, jobErr, WorkloadUpToDate(svc.status, jobErr),
                         WantedWorkload(svc.status, jobErr, c.later), c.updateWorkload);
    Unfold(cap, st, k, c);
  }

  /** Overwriting where a pass stands leaves no trace of where it stood. */
  lemma CreateForgets(st: State, k: Key, svc: InferenceService, model: Model, p: Pass, reply: Reply)
    ensures AdvanceCreate(Move(st, k, p), k, svc, model, reply) == AdvanceCreate(st, k, svc, model, reply)
  {
    var a, b := AdvanceCreate(Move(st, k, p), k, svc, model, reply), AdvanceCreate(st, k, svc, model, reply);
    assert a.passes == b.passes;
  }

  lemma RunFromJob(cap: Capacity, st: State, k: Key, c: Calls)
    requires k in st.passes && st.passes[k].StatusDone?
    ensures RunPass(cap, st, k, c) == FromJob(st, k, st.passes[k].svc, st.passes[k].ready, c)
  {
    var StatusDone(svc, model) := st.passes[k];
    Unfold(cap, st, k, c);
    var tried := TryJob(st, k, svc, model, c);
    if c.getJob.Done? && svc.key !in st.cache.jobs {
      Unfold(cap, Move(st, k, JobAbsent(svc, model)), k, c);
      CreateForgets(st, k, svc, model, JobAbsent(svc, model), c.createJob);
    }
    RunFromWorkload(cap, tried, k, c);
  }

  lemma RunFromStatus(cap: Capacity, st: State, k: Key, c: Calls)
    requires k in st.passes && st.passes[k].SawTenant?
    ensures RunPass(cap, st, k, c)
            == FromStatus(cap, st, k, st.passes[k].svc, st.passes[k].model, st.passes[k].tenant, c)
  {
    var SawTenant(svc, model, tenant) := st.passes[k];
    var d := DepsOf(cap, svc, model, tenant);
    var prio := DerivedPriority(svc.spec, tenant);
    AdvanceStatusFrame(st, k, svc, model, d, StatusUpToDate(svc.status, svc.generation, d, prio),
                       WantedStatus(svc.status, svc.generation, d, prio, c.now), c.updateStatus);
    Unfold(cap, st, k, c);
    var st' := One(cap, st, k, c);
    if k in st'.passes {
      RunFromJob(cap, st', k, c);
    }
  }

  lemma RunFromService(cap: Capacity, st: State, k: Key, c: Calls)
    requires k in st.passes && st.passes[k].SawService?
    ensures RunPass(cap, st, k, c) == FromService(cap, st, k, st.passes[k].svc, c)
  {
    var svc := st.passes[k].svc;
    Unfold(cap, st, k, c);
    if c.getModel.Done? {
      var model, tenant := Get(st.cache.models, ModelKey(svc)), Get(st.cache.tenants, svc.key.ns);
      var st1 := Move(st, k, SawModel(svc, model));
      Unfold(cap, st1, k, c);
      if c.getTenant.Done? {
        var st2 := Move(st, k, SawTenant(svc, model, tenant));
        assert Move(st1, k, SawTenant(svc, model, tenant)) == st2 by {
          assert Move(st1, k, SawTenant(svc, model, tenant)).passes == st2.passes;
        }
        RunFromStatus(cap, st2, k, c);
      } else {
        assert Finish(st1, k, true).passes == Finish(st, k, true).passes;
      }
    }
  }

  /** A pass whose three reads are answered, from the start. */
  lemma RunFromBegun(cap: Capacity, st: State, k: Key, svc: InferenceService, c: Calls)
    requires Get(st.passes, k) == Some(Begun) && Get(st.cache.services, k) == Some(svc)
    requires c.getService.Done? && c.getModel.Done? && c.getTenant.Done?
    ensures var model, tenant := Get(st.cache.models, ModelKey(svc)), Get(st.cache.tenants, svc.key.ns);
            RunPass(cap, st, k, c)
            == FromStatus(cap, Move(st, k, SawTenant(svc, model, tenant)), k, svc, model, tenant, c)
  {
    Unfold(cap, st, k, c);
    OtherAdvance(cap, st, k, Done, c.now);
    var st1 := Move(st, k, SawService(svc));
    RunFromService(cap, st1, k, c);
    var model, tenant := Get(st.cache.models, ModelKey(svc)), Get(st.cache.tenants, svc.key.ns);
    assert Move(st1, k, SawTenant(svc, model, tenant)).passes == Move(st, k, SawTenant(svc, model, tenant)).passes;
  }

  // ---------- one pass reaches a fixed point ----------

  ghost predicate Sound(store: Objects, clock: nat) {
    SaneServices(store.services, clock)
  }

  lemma StartIsFresh(cap: Capacity, store: Objects, clock: nat, k: Key)
    requires Sound(store, clock)
    ensures Fresh(cap, Start(store, store, clock, k)) && NoJobErrors(Start(store, store, clock, k))
  {
  }

  /** The pass is alone: its snapshot is what the store and the Job cache say. */
  ghost predicate Alone(cap: Capacity, st: State, k: Key)
    requires k in st.passes
  {
    var p := st.passes[k];
    && Fresh(cap, st) && NoJobErrors(st)
    && (p.Begun? ==> Get(st.cache.services, k) == Get(st.store.services, k))
    && (!p.Begun? ==> k in st.store.services && p.svc == st.store.services[k])
    && (p.StatusDone? || p.JobAbsent? || p.JobTried? ==> StatusCurrent(cap, st, k))
    && (!p.JobTried? ==> (k in st.cache.jobs <==> k in st.store.jobs))
    && (p.JobAbsent? ==> k !in st.store.jobs)
    && (p.JobTried? ==> k in st.store.jobs)
  }

  lemma AloneIsSmooth(cap: Capacity, st: State, k: Key, now: nat)
    requires k in st.passes && Alone(cap, st, k)
    ensures Smooth(st, Step(k, Done, now))
  {
  }

  lemma StatusStepAlone(cap: Capacity, st: State, k: Key, now: nat)
    requires k in st.passes && st.passes[k].SawTenant? && Alone(cap, st, k)
    ensures var st' := Advance(cap, st, k, Done, now);
            && StatusCurrent(cap, st', k)
            && (k in st'.passes ==> st'.passes[k].StatusDone? && st'.passes[k].svc == st'.store.services[k])
            && (k !in st'.passes ==> !Verdict(cap, st', k).Ok())
            && st'.store.jobs == st.store.jobs && st'.cache == st.cache
  {
    var SawTenant(svc, model, tenant) := st.passes[k];
    assert PassFresh(cap, st, k, st.passes[k]);
    var d := DepsOf(cap, svc, model, tenant);
    var prio := DerivedPriority(svc.spec, tenant);
    assert d == Verdict(cap, st, k) && prio == Rank(st, k);
    WantedIsUpToDate(svc.status, svc.generation, d, prio, now);
    AdvanceStatusAlone(cap, st, k, svc, model, d, StatusUpToDate(svc.status, svc.generation, d, prio),
                       WantedStatus(svc.status, svc.generation, d, prio, now));
  }

  lemma AdvanceStatusAlone(cap: Capacity, st: State, k: Key, svc: InferenceService, model: Option<Model>, d: Deps,
                           upToDate: bool, wanted: ServiceStatus)
    requires k in st.store.services && svc == st.store.services[k] && (d.Ok() ==> model.Some?) && svc.key == k
    requires d == Verdict(cap, st, k) && (upToDate <==> StatusCurrent(cap, st, k))
    requires StatusUpToDate(wanted, svc.generation, d, Rank(st, k))
    ensures var st' := AdvanceStatus(st, k, svc, model, d, upToDate, wanted, Done);
            && k in st'.store.services && StatusCurrent(cap, st', k)
            && (k in st'.passes ==> st'.passes[k].StatusDone? && st'.passes[k].svc == st'.store.services[k])
            && (k !in st'.passes ==> !Verdict(cap, st', k).Ok())
            && st'.store.jobs == st.store.jobs && st'.cache == st.cache
  {
  }

  lemma OtherStepAlone(cap: Capacity, st: State, k: Key)
    requires k in st.passes && !st.passes[k].SawTenant? && !st.passes[k].JobTried? && Alone(cap, st, k)
    requires Fresh(cap, AdvanceOther(st, k, st.passes[k], Done)) && NoJobErrors(AdvanceOther(st, k, st.passes[k], Done))
    ensures var st' := AdvanceOther(st, k, st.passes[k], Done);
            (k in st'.passes ==> Alone(cap, st', k)) && (k !in st'.passes ==> k !in st'.store.services)
  {
  }

  lemma WorkloadStepAlone(cap: Capacity, st: State, k: Key, now: nat)
    requires k in st.passes && st.passes[k].JobTried? && Alone(cap, st, k)
    ensures var st' := Advance(cap, st, k, Done, now);
            k in st'.store.services && StatusCurrent(cap, st', k) && WorkloadTrue(st', k) && k in st'.store.jobs
  {
    var svc := st.passes[k].svc;
    WorkloadKeepsStatus(svc.status, svc.generation, Verdict(cap, st, k), Rank(st, k), None, now);
    WorkloadEstablished(svc.status, None, now);
    AdvanceWorkloadAlone(cap, st, k, svc, WorkloadUpToDate(svc.status, None), WantedWorkload(svc.status, None, now));
    WorkloadAdvance(cap, st, k, Done, now);
  }

  lemma AdvanceWorkloadAlone(cap: Capacity, st: State, k: Key, svc: InferenceService, upToDate: bool,
                             wanted: ServiceStatus)
    requires k in st.store.services && svc == st.store.services[k] && svc.key == k && k in st.store.jobs
    requires StatusCurrent(cap, st, k) && (upToDate ==> WorkloadTrue(st, k))
    requires StatusUpToDate(wanted, svc.generation, Verdict(cap, st, k), Rank(st, k)) && WorkloadUpToDate(wanted, None)
    ensures var st' := AdvanceWorkload(st, k, svc, None, upToDate, wanted, Done);
            k in st'.store.services && StatusCurrent(cap, st', k) && WorkloadTrue(st', k) && k in st'.store.jobs
  {
  }

  lemma AfterStatusAlone(cap: Capacity, st: State, st': State, k: Key)
    requires Fresh(cap, st') && NoJobErrors(st') && k in st'.store.services && StatusCurrent(cap, st', k)
    requires k in st.passes && st.passes[k].SawTenant? && Alone(cap, st, k)
    requires k in st'.passes ==> st'.passes[k].StatusDone? && st'.passes[k].svc == st'.store.services[k]
    requires k !in st'.passes ==> !Verdict(cap, st', k).Ok()
    requires st'.store.jobs == st.store.jobs && st'.cache == st.cache
    ensures if k in st'.passes then Alone(cap, st', k) else SmoothPotential(cap, st', k) == 0
  {
  }

  lemma SettledLeavesNothing(cap: Capacity, st: State, k: Key)
    requires k in st.store.services && StatusCurrent(cap, st, k) && WorkloadTrue(st, k) && k in st.store.jobs
    ensures SmoothPotential(cap, st, k) == 0
  {
  }

  /** One step of a pass that runs alone: it stays alone, or it ends with nothing left to write
      for its service. */
  lemma AloneGoesOn(cap: Capacity, st: State, k: Key, now: nat)
    requires k in st.passes && Alone(cap, st, k)
    ensures var st' := Advance(cap, st, k, Done, now);
            if k in st'.passes then Alone(cap, st', k) else SmoothPotential(cap, st', k) == 0
  {
    StepPays(cap, st, k, Done, now);
    AloneIsSmooth(cap, st, k, now);
    SmoothStep(cap, st, k, now);
    var st' := Advance(cap, st, k, Done, now);
    match st.passes[k] {
      case SawTenant(_, _, _) =>
        StatusStepAlone(cap, st, k, now);
        AfterStatusAlone(cap, st, st', k);
      case JobTried(svc, _, jobErr) =>
        WorkloadStepAlone(cap, st, k, now);
        WorkloadAdvance(cap, st, k, Done, now);
        AdvanceWorkloadFrame(st, k, svc, jobErr, WorkloadUpToDate(svc.status, jobErr),
                             WantedWorkload(svc.status, jobErr, now), Done);
        SettledLeavesNothing(cap, st', k);
      case _ =>
        OtherAdvance(cap, st, k, Done, now);
        OtherStepAlone(cap, st, k);
    }
  }

  /** A pass that runs alone with every call answered ends with nothing left to write for its
      service. */
  lemma {:induction false} AlonePassSettles(cap: Capacity, st: State, k: Key, c: Calls)
    requires k in st.passes && Alone(cap, st, k) && AllDone(c)
    ensures SmoothPotential(cap, RunPass(cap, st, k, c), k) == 0
    decreases Remaining(st.passes[k])
  {
    Progress(cap, st, k, c);
    AloneGoesOn(cap, st, k, TimeAt(st.passes[k], c));
    var st' := One(cap, st, k, c);
    if k in st'.passes {
      AlonePassSettles(cap, st', k, c);
    }
  }

  /** A pass over a service with nothing left to write changes nothing in the store. */
  lemma {:induction false} SettledPassIsSilent(cap: Capacity, st: State, k: Key, c: Calls)
    requires k in st.passes && Alone(cap, st, k) && AllDone(c) && SmoothPotential(cap, st, k) == 0
    ensures RunPass(cap, st, k, c).store == st.store
    decreases Remaining(st.passes[k])
  {
    var now := TimeAt(st.passes[k], c);
    Progress(cap, st, k, c);
    AloneGoesOn(cap, st, k, now);
    AloneIsSmooth(cap, st, k, now);
    SmoothStepPays(cap, st, k, now);
    var st' := One(cap, st, k, c);
    if k in st'.passes {
      SettledPassIsSilent(cap, st', k, c);
    }
  }

  /** Fixed point: one completed pass against any sound store settles the service, and a second
      pass writes nothing at all. */
  lemma SecondPassIsSilent(cap: Capacity, store: Objects, clock: nat, k: Key, c: Calls, c': Calls)
    requires Sound(store, clock) && AllDone(c) && AllDone(c')
    ensures var first := Reconciled(cap, store, clock, k, c);
            && SmoothPotential(cap, first, k) == 0
            && Reconciled(cap, first.store, first.clock, k, c').store == first.store
  {
    StartIsFresh(cap, store, clock, k);
    var st := Start(store, store, clock, k);
    AlonePassSettles(cap, st, k, c);
    PassKeepsFresh(cap, st, k, c);
    var first := RunPass(cap, st, k, c);
    FreshIsSound(cap, first);
    StartIsFresh(cap, first.store, first.clock, k);
    var again := Start(first.store, first.store, first.clock, k);
    SmoothElsewhere(cap, first, again, k);
    SettledPassIsSilent(cap, again, k, c');
  }

  lemma FreshIsSound(cap: Capacity, st: State)
    requires Fresh(cap, st)
    ensures Sound(st.store, st.clock)
  {
    forall k | k in st.store.services ensures st.store.services[k].key == k && st.store.services[k].version < st.clock {
      assert Snapshot(st, k, st.store.services[k]);
    }
  }

  lemma {:induction false} PassKeepsFresh(cap: Capacity, st: State, k: Key, c: Calls)
    requires k in st.passes && Fresh(cap, st) && AllDone(c)
    ensures Fresh(cap, RunPass(cap, st, k, c))
    decreases Remaining(st.passes[k])
  {
    var st' := One(cap, st, k, c);
    StepPays(cap, st, k, Done, TimeAt(st.passes[k], c));
    Progress(cap, st, k, c);
    if k in st'.passes {
      PassKeepsFresh(cap, st', k, c);
    }
  }
}
