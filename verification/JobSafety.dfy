/** Where Jobs come from, over whole runs with non-atomic reads. */
module JobSafety {
  import opened Resources
  import opened ServiceStatusRules
  import opened Workload
  import opened ControlLoop

  // ---------- the reads of one pass, each at its own moment ----------

  ghost predicate ServiceRead(tr: seq<State>, a: nat, k: Key, svc: InferenceService) {
    && a + 1 < |tr|
    && Get(tr[a].cache.services, k) == Some(svc)
    && Get(tr[a + 1].passes, k) == Some(SawService(svc))
  }

  ghost predicate ModelRead(tr: seq<State>, b: nat, k: Key, svc: InferenceService, m: Option<Model>) {
    && b + 1 < |tr|
    && Get(tr[b].cache.models, ModelKey(svc)) == m
    && Get(tr[b + 1].passes, k) == Some(SawModel(svc, m))
  }

  ghost predicate TenantRead(tr: seq<State>, c: nat, k: Key, svc: InferenceService, m: Option<Model>,
                             t: Option<Tenant>) {
    && c + 1 < |tr|
    && Get(tr[c].cache.tenants, svc.key.ns) == t
    && Get(tr[c + 1].passes, k) == Some(SawTenant(svc, m, t))
  }

  /** One pass on `k` has been in flight since the step at `a`. */
  ghost predicate InFlight(tr: seq<State>, k: Key, a: nat, n: nat)
    requires n < |tr|
  {
    forall j :: a < j <= n ==> k in tr[j].passes
  }

  ghost predicate AfterServiceRead(tr: seq<State>, n: nat, k: Key, a: nat, svc: InferenceService)
    requires n < |tr|
  {
    a < n && ServiceRead(tr, a, k, svc) && InFlight(tr, k, a, n)
  }

  ghost predicate AfterModelRead(tr: seq<State>, n: nat, k: Key, a: nat, b: nat, svc: InferenceService,
                                 m: Option<Model>)
    requires n < |tr|
  {
    a < b < n && AfterServiceRead(tr, n, k, a, svc) && ModelRead(tr, b, k, svc, m)
  }

  /** The pass in flight at `n` read the service at `a`, the Model at `b` and the Tenant at `c`. */
  ghost predicate AfterReads(tr: seq<State>, n: nat, k: Key, a: nat, b: nat, c: nat,
                             svc: InferenceService, m: Option<Model>, t: Option<Tenant>)
    requires n < |tr|
  {
    b < c < n && AfterModelRead(tr, n, k, a, b, svc, m) && TenantRead(tr, c, k, svc, m, t)
  }

  predicate SameButStatus(svc: InferenceService, svc': InferenceService) {
    svc'.(status := svc.status, version := svc.version) == svc
  }

  /** A pass past its status update has seen its Model Ready, its Tenant present and a known
      profile. */
  ghost predicate Cleared(tr: seq<State>, n: nat, k: Key, a: nat, b: nat, c: nat,
                          svc: InferenceService, m: Model, t: Tenant, svc': InferenceService)
    requires n < |tr|
  {
    && AfterReads(tr, n, k, a, b, c, svc, Some(m), Some(t))
    && SameButStatus(svc, svc')
    && ModelIsReady(m) && KnownProfile(svc.spec.resourceProfile)
  }

  /** What the state of a pass says about the run so far. */
  ghost predicate Story(tr: seq<State>, n: nat, k: Key)
    requires n < |tr| && k in tr[n].passes
  {
    match tr[n].passes[k]
    case Begun => true
    case SawService(svc) => exists a: nat :: AfterServiceRead(tr, n, k, a, svc)
    case SawModel(svc, m) => exists a: nat, b: nat :: AfterModelRead(tr, n, k, a, b, svc, m)
    case SawTenant(svc, m, t) => exists a: nat, b: nat, c: nat :: AfterReads(tr, n, k, a, b, c, svc, m, t)
    case StatusDone(s, m) => Vetted(tr, n, k, s, m)
    case JobAbsent(s, m) => Vetted(tr, n, k, s, m)
    case JobTried(s, m, _) => Vetted(tr, n, k, s, m)
  }

  ghost predicate Vetted(tr: seq<State>, n: nat, k: Key, svc': InferenceService, m: Model)
    requires n < |tr|
  {
    exists a: nat, b: nat, c: nat, svc: InferenceService, t: Tenant :: Cleared(tr, n, k, a, b, c, svc, m, t, svc')
  }

  /** A pass that another action leaves alone keeps its story. */
  lemma StoryCarries(tr: seq<State>, n: nat, k: Key)
    requires n + 1 < |tr| && k in tr[n].passes && Story(tr, n, k)
    requires Get(tr[n + 1].passes, k) == Get(tr[n].passes, k)
    ensures Story(tr, n + 1, k)
  {
    assert k in tr[n + 1].passes;
    match tr[n].passes[k] {
      case Begun =>
      case SawService(svc) =>
        var a: nat :| AfterServiceRead(tr, n, k, a, svc);
        assert AfterServiceRead(tr, n + 1, k, a, svc);
      case SawModel(svc, m) =>
        var a: nat, b: nat :| AfterModelRead(tr, n, k, a, b, svc, m);
        assert AfterModelRead(tr, n + 1, k, a, b, svc, m);
      case SawTenant(svc, m, t) =>
        var a: nat, b: nat, c: nat :| AfterReads(tr, n, k, a, b, c, svc, m, t);
        assert AfterReads(tr, n + 1, k, a, b, c, svc, m, t);
      case StatusDone(s, m) => VettedCarries(tr, n, k, s, m);
      case JobAbsent(s, m) => VettedCarries(tr, n, k, s, m);
      case JobTried(s, m, _) => VettedCarries(tr, n, k, s, m);
    }
  }

  lemma VettedCarries(tr: seq<State>, n: nat, k: Key, svc': InferenceService, m: Model)
    requires n + 1 < |tr| && Vetted(tr, n, k, svc', m) && k in tr[n + 1].passes
    ensures Vetted(tr, n + 1, k, svc', m)
  {
    var a: nat, b: nat, c: nat, svc: InferenceService, t: Tenant :| Cleared(tr, n, k, a, b, c, svc, m, t, svc');
    assert Cleared(tr, n + 1, k, a, b, c, svc, m, t, svc');
  }

  /** The status step hands on a pass only when the dependencies it read are all satisfied. */
  lemma StatusStepVets(cap: Capacity, tr: seq<State>, n: nat, k: Key, reply: Reply, now: nat)
    requires n + 1 < |tr| && k in tr[n].passes && tr[n].passes[k].SawTenant? && Story(tr, n, k)
    requires tr[n + 1] == Advance(cap, tr[n], k, reply, now) && k in tr[n + 1].passes
    ensures Story(tr, n + 1, k)
  {
    var SawTenant(svc, model, tenant) := tr[n].passes[k];
    var a: nat, b: nat, c: nat :| AfterReads(tr, n, k, a, b, c, svc, model, tenant);
    var d := DepsOf(cap, svc, model, tenant);
    var prio := DerivedPriority(svc.spec, tenant);
    AdvanceStatusFrame(tr[n], k, svc, model, d, StatusUpToDate(svc.status, svc.generation, d, prio),
                       WantedStatus(svc.status, svc.generation, d, prio, now), reply);
    ReadsClear(tr, n, k, a, b, c, svc, model.value, tenant.value);
  }

  lemma ReadsClear(tr: seq<State>, n: nat, k: Key, a: nat, b: nat, c: nat, svc: InferenceService, m: Model, t: Tenant)
    requires n + 1 < |tr| && AfterReads(tr, n, k, a, b, c, svc, Some(m), Some(t))
    requires ModelIsReady(m) && KnownProfile(svc.spec.resourceProfile)
    requires k in tr[n + 1].passes && tr[n + 1].passes[k].StatusDone? && tr[n + 1].passes[k].ready == m
    requires SameButStatus(svc, tr[n + 1].passes[k].svc)
    ensures Story(tr, n + 1, k)
  {
    assert Cleared(tr, n + 1, k, a, b, c, svc, m, t, tr[n + 1].passes[k].svc);
  }

  lemma OtherStepExtendsStory(tr: seq<State>, n: nat, k: Key, p: Pass, reply: Reply)
    requires n + 1 < |tr| && Get(tr[n].passes, k) == Some(p) && Story(tr, n, k) && !p.SawTenant? && !p.JobTried?
    requires tr[n + 1] == AdvanceOther(tr[n], k, p, reply) && k in tr[n + 1].passes
    ensures Story(tr, n + 1, k)
  {
    match p {
      case Begun =>
        assert AfterServiceRead(tr, n + 1, k, n, tr[n].cache.services[k]);
      case SawService(svc) =>
        var a: nat :| AfterServiceRead(tr, n, k, a, svc);
        assert AfterModelRead(tr, n + 1, k, a, n, svc, Get(tr[n].cache.models, ModelKey(svc)));
      case SawModel(svc, m) =>
        var a: nat, b: nat :| AfterModelRead(tr, n, k, a, b, svc, m);
        assert AfterReads(tr, n + 1, k, a, b, n, svc, m, Get(tr[n].cache.tenants, svc.key.ns));
      case StatusDone(s, m) =>
        JobStepKeepsSnapshots(tr[n], k, p, reply);
        VettedCarries(tr, n, k, s, m);
      case JobAbsent(s, m) =>
        JobStepKeepsSnapshots(tr[n], k, p, reply);
        VettedCarries(tr, n, k, s, m);
    }
  }

  lemma StepExtendsStory(cap: Capacity, tr: seq<State>, n: nat, k: Key, reply: Reply, now: nat)
    requires n + 1 < |tr| && k in tr[n].passes && Story(tr, n, k)
    requires tr[n + 1] == Advance(cap, tr[n], k, reply, now) && k in tr[n + 1].passes
    ensures Story(tr, n + 1, k)
  {
    match tr[n].passes[k] {
      case SawTenant(_, _, _) => StatusStepVets(cap, tr, n, k, reply, now);
      case JobTried(_, _, _) => assert false;
      case p => OtherStepExtendsStory(tr, n, k, p, reply);
    }
  }

  lemma StoryGoesOn(cap: Capacity, tr: seq<State>, acts: seq<Action>, n: nat, k: Key)
    requires |tr| == |acts| + 1 && StepAt(cap, tr, acts, n) && k in tr[n + 1].passes
    requires k in tr[n].passes ==> Story(tr, n, k)
    ensures Story(tr, n + 1, k)
  {
    var a := acts[n];
    if a.Step? && a.k == k {
      StepExtendsStory(cap, tr, n, k, a.reply, a.now);
    } else {
      OthersLeavePass(cap, tr[n], a, k);
      if a != Take(k) {
        StoryCarries(tr, n, k);
      }
    }
  }

  lemma {:induction false} EveryPassHasItsStory(cap: Capacity, tr: seq<State>, acts: seq<Action>, n: nat, k: Key)
    requires IsRun(cap, tr, acts) && n < |tr| && k in tr[n].passes
    ensures Story(tr, n, k)
  {
    assert n > 0;
    if k in tr[n - 1].passes {
      EveryPassHasItsStory(cap, tr, acts, n - 1, k);
    }
    assert StepAt(cap, tr, acts, n - 1);
    StoryGoesOn(cap, tr, acts, n - 1, k);
  }

  /** Other actions drop a pass, begin one, or leave it as it is. */
  lemma OthersLeavePass(cap: Capacity, st: State, a: Action, k: Key)
    requires Enabled(st, a) && !(a.Step? && a.k == k)
    ensures var st' := Next(cap, st, a);
            k in st'.passes ==> if a == Take(k) then st'.passes[k] == Begun else Get(st'.passes, k) == Get(st.passes, k)
  {
    if a.Step? {
      StepFrame(cap, st, a.k, a.reply, a.now);
    }
  }

  // ---------- Jobs ----------

  /** The Job is BuildJob of the snapshots of one pass that was in flight at `d` and had read,
      in order, the service, a Ready Model and a present Tenant. */
  ghost predicate MadeFromReads(tr: seq<State>, d: nat, k: Key, job: Job, a: nat, b: nat, c: nat,
                                svc: InferenceService, m: Model, t: Tenant)
    requires d < |tr|
  {
    Cleared(tr, d, k, a, b, c, svc, m, t, svc) && job == BuildJob(svc, m, job.version)
  }

  ghost predicate OperatorMade(tr: seq<State>, acts: seq<Action>, d: nat, k: Key, job: Job)
    requires |tr| == |acts| + 1
  {
    && d < |acts| && acts[d].Step? && acts[d].k == k && k !in tr[d].store.jobs
    && exists a: nat, b: nat, c: nat, svc: InferenceService, m: Model, t: Tenant ::
         MadeFromReads(tr, d, k, job, a, b, c, svc, m, t)
  }

  /** Where the Job stored under `k` from state `d` on came from: the initial store, someone
      outside the operator, or one vetted pass. */
  ghost predicate Origin(tr: seq<State>, acts: seq<Action>, d: nat, k: Key, job: Job)
    requires |tr| == |acts| + 1
  {
    || d == 0
    || (d <= |acts| && acts[d - 1] == EnvJob(k, Some(job)))
    || (d > 0 && OperatorMade(tr, acts, d - 1, k, job))
  }

  ghost predicate Unmodified(tr: seq<State>, k: Key, job: Job, d: nat, n: nat)
    requires n < |tr|
  {
    d <= n && forall j :: d <= j <= n ==> Get(tr[j].store.jobs, k) == Some(job)
  }

  lemma CreationIsVetted(cap: Capacity, tr: seq<State>, acts: seq<Action>, d: nat, k: Key)
    requires IsRun(cap, tr, acts) && d < |acts| && acts[d].Step? && acts[d].k == k
    requires k !in tr[d].store.jobs && k in tr[d + 1].store.jobs
    ensures OperatorMade(tr, acts, d, k, tr[d + 1].store.jobs[k])
  {
    assert StepAt(cap, tr, acts, d);
    StepFrame(cap, tr[d], k, acts[d].reply, acts[d].now);
    EveryPassHasItsStory(cap, tr, acts, d, k);
    var JobAbsent(s, m) := tr[d].passes[k];
    var a: nat, b: nat, c: nat, svc: InferenceService, t: Tenant :| Cleared(tr, d, k, a, b, c, svc, m, t, s);
    BuildJobIgnoresStatus(svc, s, m, tr[d].clock);
    assert MadeFromReads(tr, d, k, tr[d + 1].store.jobs[k], a, b, c, svc, m, t);
  }

  /** A Job stored after a step was stored before it, or the step is its origin. */
  lemma JobAppears(cap: Capacity, tr: seq<State>, acts: seq<Action>, n: nat, k: Key, job: Job)
    requires IsRun(cap, tr, acts) && n < |acts| && Get(tr[n + 1].store.jobs, k) == Some(job)
    ensures Get(tr[n].store.jobs, k) == Some(job) || Origin(tr, acts, n + 1, k, job)
  {
    var a := acts[n];
    assert StepAt(cap, tr, acts, n);
    if a.Step? {
      StepFrame(cap, tr[n], a.k, a.reply, a.now);
      if k !in tr[n].store.jobs {
        CreationIsVetted(cap, tr, acts, n, k);
      }
    }
  }

  lemma StaysUnmodified(tr: seq<State>, k: Key, job: Job, d: nat, n: nat)
    requires n + 1 < |tr| && Unmodified(tr, k, job, d, n) && Get(tr[n + 1].store.jobs, k) == Some(job)
    ensures Unmodified(tr, k, job, d, n + 1)
  {
  }

  /** Job safety: in every reachable state each stored Job is exactly what it was when it
      appeared, and a Job the operator created is BuildJob of the snapshots of one pass that
      saw its Model Ready, its Tenant present and a known profile, each at its own moment. */
  lemma {:induction false} JobsAreSafe(cap: Capacity, tr: seq<State>, acts: seq<Action>, n: nat, k: Key)
    requires IsRun(cap, tr, acts) && n < |tr| && k in tr[n].store.jobs
    ensures exists d: nat :: Unmodified(tr, k, tr[n].store.jobs[k], d, n) && Origin(tr, acts, d, k, tr[n].store.jobs[k])
  {
    var job := tr[n].store.jobs[k];
    if n > 0 {
      JobAppears(cap, tr, acts, n - 1, k, job);
      if Get(tr[n - 1].store.jobs, k) == Some(job) {
        JobsAreSafe(cap, tr, acts, n - 1, k);
        var d: nat :| Unmodified(tr, k, job, d, n - 1) && Origin(tr, acts, d, k, job);
        StaysUnmodified(tr, k, job, d, n - 1);
        return;
      }
    }
    assert Unmodified(tr, k, job, n, n) && Origin(tr, acts, n, k, job);
  }

  // ---------- what a lagging cache adds ----------

  /** Every delivery shows what the store held at some earlier moment. */
  ghost predicate Honest(tr: seq<State>, acts: seq<Action>)
    requires |tr| == |acts| + 1
  {
    forall i :: 0 <= i < |acts| ==>
      match acts[i]
      case DeliverService(k, v) => exists j: nat :: j <= i && Get(tr[j].store.services, k) == v
      case DeliverModel(mk, v) => exists j: nat :: j <= i && Get(tr[j].store.models, mk) == v
      case DeliverTenant(ns, v) => exists j: nat :: j <= i && Get(tr[j].store.tenants, ns) == v
      case _ => true
  }

  ghost predicate ServiceWas(tr: seq<State>, n: nat, k: Key, svc: InferenceService)
    requires n < |tr|
  {
    exists j: nat :: j <= n && Get(tr[j].store.services, k) == Some(svc)
  }

  ghost predicate ModelWas(tr: seq<State>, n: nat, mk: Key, m: Model)
    requires n < |tr|
  {
    exists j: nat :: j <= n && Get(tr[j].store.models, mk) == Some(m)
  }

  ghost predicate TenantWas(tr: seq<State>, n: nat, ns: string, t: Tenant)
    requires n < |tr|
  {
    exists j: nat :: j <= n && Get(tr[j].store.tenants, ns) == Some(t)
  }

  lemma {:induction false} CacheIsHistory(cap: Capacity, tr: seq<State>, acts: seq<Action>, n: nat)
    requires IsRun(cap, tr, acts) && Honest(tr, acts) && n < |tr|
    ensures forall k :: k in tr[n].cache.services ==> ServiceWas(tr, n, k, tr[n].cache.services[k])
    ensures forall mk :: mk in tr[n].cache.models ==> ModelWas(tr, n, mk, tr[n].cache.models[mk])
    ensures forall ns :: ns in tr[n].cache.tenants ==> TenantWas(tr, n, ns, tr[n].cache.tenants[ns])
  {
    if n > 0 {
      CacheIsHistory(cap, tr, acts, n - 1);
      var a := acts[n - 1];
      assert StepAt(cap, tr, acts, n - 1);
      if a.Step? {
        StepFrame(cap, tr[n - 1], a.k, a.reply, a.now);
      }
      forall k | k in tr[n].cache.services ensures ServiceWas(tr, n, k, tr[n].cache.services[k]) {
        assert Get(tr[n].cache.services, k) == Some(tr[n].cache.services[k]);
        if !(a.DeliverService? && a.k == k) {
          assert Get(tr[n - 1].cache.services, k) == Some(tr[n].cache.services[k]);
          assert ServiceWas(tr, n - 1, k, tr[n].cache.services[k]);
        }
      }
      forall mk | mk in tr[n].cache.models ensures ModelWas(tr, n, mk, tr[n].cache.models[mk]) {
        assert Get(tr[n].cache.models, mk) == Some(tr[n].cache.models[mk]);
        if !(a.DeliverModel? && a.mk == mk) {
          assert Get(tr[n - 1].cache.models, mk) == Some(tr[n].cache.models[mk]);
          assert ModelWas(tr, n - 1, mk, tr[n].cache.models[mk]);
        }
      }
      forall ns | ns in tr[n].cache.tenants ensures TenantWas(tr, n, ns, tr[n].cache.tenants[ns]) {
        assert Get(tr[n].cache.tenants, ns) == Some(tr[n].cache.tenants[ns]);
        if !(a.DeliverTenant? && a.ns == ns) {
          assert Get(tr[n - 1].cache.tenants, ns) == Some(tr[n].cache.tenants[ns]);
          assert TenantWas(tr, n - 1, ns, tr[n].cache.tenants[ns]);
        }
      }
    }
  }

  /** The Job is made of a service, a Ready Model and a Tenant that the store once held. */
  ghost predicate HadDependencies(tr: seq<State>, d: nat, k: Key, job: Job, svc: InferenceService, m: Model, t: Tenant)
    requires d < |tr|
  {
    && job == BuildJob(svc, m, job.version)
    && ModelIsReady(m) && KnownProfile(svc.spec.resourceProfile)
    && ServiceWas(tr, d, k, svc) && ModelWas(tr, d, ModelKey(svc), m) && TenantWas(tr, d, svc.key.ns, t)
  }

  lemma ReadsWereStored(cap: Capacity, tr: seq<State>, acts: seq<Action>, d: nat, k: Key, a: nat, b: nat, c: nat,
                        svc: InferenceService, m: Model, t: Tenant)
    requires IsRun(cap, tr, acts) && Honest(tr, acts) && a < b < c < d < |tr|
    requires ServiceRead(tr, a, k, svc) && ModelRead(tr, b, k, svc, Some(m))
             && TenantRead(tr, c, k, svc, Some(m), Some(t))
    ensures ServiceWas(tr, d, k, svc) && ModelWas(tr, d, ModelKey(svc), m) && TenantWas(tr, d, svc.key.ns, t)
  {
    assert ServiceWas(tr, a, k, svc) by { CacheIsHistory(cap, tr, acts, a); }
    assert ModelWas(tr, b, ModelKey(svc), m) by { CacheIsHistory(cap, tr, acts, b); }
    assert TenantWas(tr, c, svc.key.ns, t) by { CacheIsHistory(cap, tr, acts, c); }
  }

  /** With honest deliveries, what the creating pass saw was once really in the store: the
      service, the Model with Ready=True, and the Tenant. */
  lemma OperatorJobsHadTheirDependencies(cap: Capacity, tr: seq<State>, acts: seq<Action>, d: nat, k: Key, job: Job)
    requires IsRun(cap, tr, acts) && Honest(tr, acts) && OperatorMade(tr, acts, d, k, job)
    ensures exists svc: InferenceService, m: Model, t: Tenant :: HadDependencies(tr, d, k, job, svc, m, t)
  {
    var a: nat, b: nat, c: nat, svc: InferenceService, m: Model, t: Tenant :|
      MadeFromReads(tr, d, k, job, a, b, c, svc, m, t);
    ReadsWereStored(cap, tr, acts, d, k, a, b, c, svc, m, t);
    assert HadDependencies(tr, d, k, job, svc, m, t);
  }
}
