/** What admission promises about what the controllers do later. */
module AdmissionChain {
  import opened Resources
  import opened Conditions
  import opened ServiceStatusRules
  import opened Workload
  import opened ControlLoop
  import opened ReconcilePass
  import opened PassMeaning
  import opened Admission
  import opened Decimal
  import opened JobSafety
  import opened SettledOrQueued
  import ModelController
  import CalmRuns
  import LoopConvergence
  import WitnessRuns

  /** Admission agrees with reconcile: a service allowed in a cluster, once stored there, is
      reconciled with TenantResolved and ResourceProfileResolved True and with the derived
      priority that the mutation wrote into its annotation; the annotation parses back to it for
      every priority but the minimum int32. */
  lemma AdmissionAgreesWithReconcile(cap: Capacity, client: Client, x: Candidate, store: Objects, clock: nat, c: Calls)
    requires Validate(client, x).Allow?
    requires Sound(store, clock) && AllDone(c) && store.tenants == client.tenants
    requires x.key in store.services && store.services[x.key].spec == x.spec
    ensures var r := Reconciled(cap, store, clock, x.key, c);
            && x.key in r.store.services
            && var status := r.store.services[x.key].status;
            && IsTrue(status.conditions, TenantResolved)
            && IsTrue(status.conditions, ResourceProfileResolved)
            && var y := Mutated(client, x).0;
            && Get(AnnotationsOf(y), AnnotationDerivedPriority) == Some(Printed(status.derivedPriority))
            && (status.derivedPriority != MinInt32 <==>
                  Parse(Printed(status.derivedPriority)) == Some(status.derivedPriority))
  {
    CompletedPassTellsTheTruth(cap, store, clock, x.key, c);
    AllowedExactlyWhen(client, x);
    PrintedParsesBack(Reconciled(cap, store, clock, x.key, c).store.services[x.key].status.derivedPriority);
  }

  // ---------- signed models ----------

  /** The Model's status is what a completed pass of the Model controller left for its spec. */
  ghost predicate ReadyIsCurrent(m: Model) {
    exists spec: ModelSpec, events: seq<ModelController.Event>, now: nat ::
      ModelController.Run(ModelController.Stored(spec, ModelController.EmptyStatus),
                          events + [ModelController.Pass(true, now)])
      == ModelController.Stored(m.spec, m.status)
  }

  lemma ReadyModelsAreAccepted(m: Model)
    requires ReadyIsCurrent(m) && ModelIsReady(m)
    ensures ModelController.Accepts(m.spec)
  {
    var spec: ModelSpec, events: seq<ModelController.Event>, now: nat :|
      ModelController.Run(ModelController.Stored(spec, ModelController.EmptyStatus),
                          events + [ModelController.Pass(true, now)])
      == ModelController.Stored(m.spec, m.status);
    ModelController.CompletedPassDecides(spec, events, now);
  }

  /** The cached service references the Model, and the cached Model has this spec and a readiness
      computed for it. */
  ghost predicate Linked(st: State, k: Key, model: string, spec: ModelSpec) {
    && (k in st.cache.services ==> st.cache.services[k].spec.model == model)
    && (var mk := Key(k.ns, model); mk in st.cache.models ==> Vouched(st.cache.models[mk], spec))
  }

  ghost predicate Vouched(m: Model, spec: ModelSpec) {
    m.spec == spec && (ModelIsReady(m) ==> ReadyIsCurrent(m))
  }

  /** What a delivery shows of the service and of the Model leaves the link in place. */
  ghost predicate KeepsLink(a: Action, k: Key, model: string, spec: ModelSpec) {
    match a
    case DeliverService(j, v) => j == k && v.Some? ==> v.value.spec.model == model
    case DeliverModel(j, v) => j == Key(k.ns, model) && v.Some? ==> Vouched(v.value, spec)
    case _ => true
  }

  ghost predicate LinkKeptFrom(acts: seq<Action>, i: nat, k: Key, model: string, spec: ModelSpec) {
    forall j :: i <= j < |acts| ==> KeepsLink(acts[j], k, model, spec)
  }

  /** From admission on the cache shows nothing else. */
  lemma {:induction false} LinkLasts(cap: Capacity, tr: seq<State>, acts: seq<Action>, i: nat, n: nat, k: Key,
                                     model: string, spec: ModelSpec)
    requires IsRun(cap, tr, acts) && i <= n < |tr|
    requires Linked(tr[i], k, model, spec) && LinkKeptFrom(acts, i, k, model, spec)
    ensures Linked(tr[n], k, model, spec)
  {
    if i < n {
      LinkLasts(cap, tr, acts, i, n - 1, k, model, spec);
      assert StepAt(cap, tr, acts, n - 1) && KeepsLink(acts[n - 1], k, model, spec);
      ActionKeepsLink(cap, tr[n - 1], acts[n - 1], k, model, spec);
    }
  }

  lemma ActionKeepsLink(cap: Capacity, st: State, a: Action, k: Key, model: string, spec: ModelSpec)
    requires Enabled(st, a) && Linked(st, k, model, spec) && KeepsLink(a, k, model, spec)
    ensures Linked(Next(cap, st, a), k, model, spec)
  {
    var st', mk := Next(cap, st, a), Key(k.ns, model);
    if a.Step? {
      StepFrame(cap, st, a.k, a.reply, a.now);
    } else if a.DeliverService? {
      assert Get(st'.cache.services, k) == if a.k == k then a.svc else Get(st.cache.services, k);
    } else if a.DeliverModel? {
      assert Get(st'.cache.models, mk) == if a.mk == mk then a.model else Get(st.cache.models, mk);
    }
  }

  /** The Job is made of a service and a Ready Model with this spec, which requires a signed image
      and names a digest. */
  ghost predicate SignedJob(job: Job, k: Key, model: string, spec: ModelSpec, svc: InferenceService, m: Model) {
    && job == BuildJob(svc, m, job.version)
    && svc.key == k && svc.spec.model == model && m.spec == spec && ModelIsReady(m)
    && m.spec.requireSignedImage && m.spec.digest != ""
    && (WantsGpu(svc.spec) ==> m.spec.uri in job.container.args && m.spec.uri != "")
  }

  ghost predicate Signed(job: Job, k: Key, model: string, spec: ModelSpec) {
    exists svc: InferenceService, m: Model :: SignedJob(job, k, model, spec, svc, m)
  }

  /** Admission allowed the service against the cache of state `i`, with a readable policy that
      demands signed models, its Model there with this spec, and the link in place from then on. */
  ghost predicate AdmittedSigned(tr: seq<State>, acts: seq<Action>, i: nat, client: Client, x: Candidate,
                                 spec: ModelSpec) {
    && i < |tr| && client.models == tr[i].cache.models
    && Validate(client, x).Allow? && GetPolicy(client) == Found(true)
    && var m := GetModel(client, Key(x.key.ns, x.spec.model));
    && m.Found? && m.value.spec == spec
    && Linked(tr[i], x.key, x.spec.model, spec)
    && LinkKeptFrom(acts, i, x.key, x.spec.model, spec)
  }

  /** Signed-model chain.  Admission allowed a service while the policy was readable and demanded
      signed models and its Model existed; since then the service has referenced that Model, the
      Model has had the same spec, and its readiness was computed for that spec.  Then every step
      of the run that makes a Job of the service appear, in a pass taken after admission, builds
      it from a Ready Model that requires a signed image and names a digest. */
  lemma SignedModelChain(cap: Capacity, tr: seq<State>, acts: seq<Action>, i: nat, e: nat, d: nat,
                         client: Client, x: Candidate, spec: ModelSpec)
    requires IsRun(cap, tr, acts) && AdmittedSigned(tr, acts, i, client, x, spec)
    requires i <= e <= d < |acts| && x.key !in tr[e].passes
    requires acts[d].Step? && acts[d].k == x.key
    requires x.key !in tr[d].store.jobs && x.key in tr[d + 1].store.jobs
    ensures Signed(tr[d + 1].store.jobs[x.key], x.key, x.spec.model, spec)
  {
    var k := x.key;
    CreationIsVetted(cap, tr, acts, d, k);
    MadeIsSigned(cap, tr, acts, i, e, d, client, x, spec, tr[d + 1].store.jobs[k]);
  }

  /** What the pass that made the Job read after admission is what admission saw. */
  lemma SignedCreation(cap: Capacity, tr: seq<State>, acts: seq<Action>, i: nat, a: nat, b: nat,
                       client: Client, x: Candidate, spec: ModelSpec, job: Job, svc: InferenceService, m: Model)
    requires IsRun(cap, tr, acts) && AdmittedSigned(tr, acts, i, client, x, spec) && i <= a <= b < |tr|
    requires Get(tr[a].cache.services, x.key) == Some(svc) && Get(tr[b].cache.models, ModelKey(svc)) == Some(m)
    requires ModelIsReady(m) && job == BuildJob(svc, m, job.version)
    ensures Signed(job, x.key, x.spec.model, spec)
  {
    var k := x.key;
    LinkLasts(cap, tr, acts, i, a, k, x.spec.model, spec);
    LinkLasts(cap, tr, acts, i, b, k, x.spec.model, spec);
    RunKeepsInv(cap, tr, acts, a);
    assert svc == tr[a].cache.services[k];
    assert m == tr[b].cache.models[Key(k.ns, x.spec.model)];
    AllowedExactlyWhen(client, x);
    ReadyModelsAreAccepted(m);
    if WantsGpu(svc.spec) {
      GpuJobsServeTheModel(svc, m, job.version);
    }
    assert SignedJob(job, k, x.spec.model, spec, svc, m);
  }

  lemma MadeIsSigned(cap: Capacity, tr: seq<State>, acts: seq<Action>, i: nat, e: nat, d: nat,
                     client: Client, x: Candidate, spec: ModelSpec, job: Job)
    requires IsRun(cap, tr, acts) && AdmittedSigned(tr, acts, i, client, x, spec)
    requires i <= e <= d < |acts| && x.key !in tr[e].passes && OperatorMade(tr, acts, d, x.key, job)
    ensures Signed(job, x.key, x.spec.model, spec)
  {
    var a: nat, b: nat, c: nat, svc: InferenceService, m: Model, t: Tenant :|
      MadeFromReads(tr, d, x.key, job, a, b, c, svc, m, t);
    assert e <= a;
    SignedCreation(cap, tr, acts, i, a, b, client, x, spec, job, svc, m);
  }

  lemma OriginIsSigned(cap: Capacity, tr: seq<State>, acts: seq<Action>, i: nat, e: nat, d: nat,
                       client: Client, x: Candidate, spec: ModelSpec, job: Job)
    requires IsRun(cap, tr, acts) && AdmittedSigned(tr, acts, i, client, x, spec)
    requires i <= e <= |acts| && x.key !in tr[e].passes && Origin(tr, acts, d, x.key, job)
    ensures d <= e || (d <= |acts| && acts[d - 1] == EnvJob(x.key, Some(job))) || Signed(job, x.key, x.spec.model, spec)
  {
    if d > e && OperatorMade(tr, acts, d - 1, x.key, job) {
      MadeIsSigned(cap, tr, acts, i, e, d - 1, client, x, spec, job);
    }
  }

  /** So in every later state each stored Job of the service was there when its first pass after
      admission began, was written by someone else, or is such a signed Job, unmodified since. */
  lemma StoredJobsAreSigned(cap: Capacity, tr: seq<State>, acts: seq<Action>, i: nat, e: nat, n: nat,
                            client: Client, x: Candidate, spec: ModelSpec)
    requires IsRun(cap, tr, acts) && AdmittedSigned(tr, acts, i, client, x, spec)
    requires i <= e <= n < |tr| && x.key !in tr[e].passes && x.key in tr[n].store.jobs
    ensures var job := tr[n].store.jobs[x.key];
            exists d: nat ::
              && Unmodified(tr, x.key, job, d, n)
              && (|| d <= e
                  || (d <= |acts| && acts[d - 1] == EnvJob(x.key, Some(job)))
                  || Signed(job, x.key, x.spec.model, spec))
  {
    var job := tr[n].store.jobs[x.key];
    JobsAreSafe(cap, tr, acts, n, x.key);
    var d: nat :| Unmodified(tr, x.key, job, d, n) && Origin(tr, acts, d, x.key, job);
    OriginIsSigned(cap, tr, acts, i, e, d, client, x, spec, job);
  }

  // ---------- the chain at work ----------

  lemma {:induction false} JobIsCreated(cap: Capacity, tr: seq<State>, acts: seq<Action>, k: Key, i: nat)
      returns (d: nat)
    requires WitnessRuns.CalmRun(cap, tr, acts) && i < |tr| && k !in tr[i].store.jobs && k in tr[|acts|].store.jobs
    ensures i <= d < |acts| && acts[d].Step? && acts[d].k == k
    ensures k !in tr[d].store.jobs && k in tr[d + 1].store.jobs
    decreases |tr| - i
  {
    assert WitnessRuns.CalmStep(cap, tr, acts, i);
    var st, st', a := tr[i], tr[i + 1], acts[i];
    if k in st'.store.jobs {
      d := i;
      if a.Step? {
        StepFrame(cap, st, a.k, a.reply, a.now);
        assert a.k != k ==> Get(st.store.jobs, k) == Get(st'.store.jobs, k);
      }
    } else {
      d := JobIsCreated(cap, tr, acts, k, i + 1);
    }
  }

  /** Admission asks about the service of the cast, in a cluster that demands signed models. */
  function ClientOf(x: WitnessRuns.Cast): Client {
    Client(map[x.tenant.name := x.tenant], map[x.model.key := x.model], Some(true), None, None, None)
  }

  function CandidateOf(x: WitnessRuns.Cast): Candidate {
    Candidate(x.svc.key, x.svc.spec, None)
  }

  lemma PlainKeepsLink(st: State, a: Action, x: WitnessRuns.Cast)
    requires WitnessRuns.Plain(st, a)
    requires x.svc.key in st.store.services ==> st.store.services[x.svc.key].spec == x.svc.spec
    ensures KeepsLink(a, x.svc.key, x.svc.spec.model, x.model.spec)
  {
  }

  /** The hypotheses of the chain can be met: for any new service that can run and asks for nothing
      unusual, and a Model that requires a signature and became Ready for its spec, there is a run
      from the start of the operator in which the service is admitted and then gets its Job. */
  lemma SignedRunsExist(cap: Capacity, x: WitnessRuns.Cast)
    requires WitnessRuns.Runnable(cap, x) && x.svc.spec.slo == Slo(None, None)
    requires x.model.spec.requireSignedImage && ReadyIsCurrent(x.model)
    ensures exists tr: seq<State>, acts: seq<Action> ::
              && IsRun(cap, tr, acts) && AdmittedSigned(tr, acts, 2, ClientOf(x), CandidateOf(x), x.model.spec)
              && x.svc.key !in tr[2].passes
              && exists d: nat ::
                   && 2 <= d < |acts| && acts[d].Step? && acts[d].k == x.svc.key
                   && x.svc.key !in tr[d].store.jobs && x.svc.key in tr[d + 1].store.jobs
  {
    var tr, acts, svc, job := WitnessRuns.DarkLeadsToRest(cap, x);
    WitnessRuns.CalmRunIsRun(cap, tr, acts);
    SpecsStay(cap, x, tr, acts, svc, job);
    LinkIsKept(cap, x, tr, acts);
    DawnAdmits(cap, x, tr, acts);
    JobComesAfter(cap, x, tr, acts);
  }

  lemma LinkIsKept(cap: Capacity, x: WitnessRuns.Cast, tr: seq<State>, acts: seq<Action>)
    requires |tr| == |acts| + 1 && |tr| > 3 && acts[2] == DeliverService(x.svc.key, Some(x.svc))
    requires forall i :: 3 <= i < |acts| ==> WitnessRuns.Plain(tr[i], acts[i])
    requires forall j :: 0 <= j < |tr| && x.svc.key in tr[j].store.services ==>
               tr[j].store.services[x.svc.key].spec == x.svc.spec
    ensures LinkKeptFrom(acts, 2, x.svc.key, x.svc.spec.model, x.model.spec)
  {
    forall j | 2 <= j < |acts| ensures KeepsLink(acts[j], x.svc.key, x.svc.spec.model, x.model.spec) {
      if j > 2 {
        PlainKeepsLink(tr[j], acts[j], x);
      }
    }
  }

  /** After dawn there is a step that makes the Job appear. */
  lemma JobComesAfter(cap: Capacity, x: WitnessRuns.Cast, tr: seq<State>, acts: seq<Action>)
    requires WitnessRuns.CalmRun(cap, tr, acts) && |tr| > 3 && tr[2] == WitnessRuns.Dawn(x)
    requires x.svc.key in tr[|acts|].store.jobs
    ensures exists d: nat ::
              && 2 <= d < |acts| && acts[d].Step? && acts[d].k == x.svc.key
              && x.svc.key !in tr[d].store.jobs && x.svc.key in tr[d + 1].store.jobs
  {
    var d := JobIsCreated(cap, tr, acts, x.svc.key, 2);
  }

  lemma DawnAdmits(cap: Capacity, x: WitnessRuns.Cast, tr: seq<State>, acts: seq<Action>)
    requires WitnessRuns.Runnable(cap, x) && x.svc.spec.slo == Slo(None, None)
    requires x.model.spec.requireSignedImage && ReadyIsCurrent(x.model)
    requires |tr| > 2 && tr[2] == WitnessRuns.Dawn(x)
    requires LinkKeptFrom(acts, 2, x.svc.key, x.svc.spec.model, x.model.spec)
    ensures AdmittedSigned(tr, acts, 2, ClientOf(x), CandidateOf(x), x.model.spec)
  {
    AllowedExactlyWhen(ClientOf(x), CandidateOf(x));
  }

  lemma SpecsStay(cap: Capacity, x: WitnessRuns.Cast, tr: seq<State>, acts: seq<Action>, svc: InferenceService,
                  job: Job)
    requires WitnessRuns.CalmRun(cap, tr, acts) && Init(tr[0]) && tr[0] == WitnessRuns.Dark(x)
    requires x.tenant.version < x.clock
    requires var world := WitnessRuns.World(x, svc, map[x.svc.key := job]);
             tr[|acts|] == WitnessRuns.Scene(x, world, world, false, 5)
    ensures forall j :: 0 <= j < |tr| && x.svc.key in tr[j].store.services ==>
              tr[j].store.services[x.svc.key].spec == x.svc.spec
  {
    var all, does := CalmRuns.DarkContinues(cap, x, tr, acts, svc, job);
    forall j | 0 <= j < |tr| && x.svc.key in tr[j].store.services
      ensures tr[j].store.services[x.svc.key].spec == x.svc.spec
    {
      LoopConvergence.CalmRests(cap, all, does, 0, 0, j);
      assert all(0) == tr[0] && all(j) == tr[j];
    }
  }

  /** Why readiness has to be computed for the spec: a Model that became Ready without a signature
      and is then edited to require one stays Ready, without a digest, until its next pass. */
  lemma StaleReadinessBreaksTheChain(uri: string)
    requires uri != ""
    ensures var spec := ModelSpec(uri, "", true);
            var s := ModelController.Run(
                       ModelController.Stored(ModelSpec(uri, "", false), ModelController.EmptyStatus),
                       [ModelController.Pass(true, 0), ModelController.Edit(spec)]);
            s.spec == spec && IsTrue(s.status.conditions, Ready) && !ModelController.Accepts(s.spec)
  {
    var start := ModelSpec(uri, "", false);
    var e1: seq<ModelController.Event> := [ModelController.Pass(true, 0)];
    var e2 := [ModelController.Pass(true, 0), ModelController.Edit(ModelSpec(uri, "", true))];
    assert e2[..1] == e1 && [] + e1 == e1;
    ModelController.CompletedPassDecides(start, [], 0);
    assert e1[..0] == [];
  }

  /** The chain has a gap that its hypotheses close: when the policy cannot be read, a service
      whose Model does not require a signed image is allowed. */
  lemma UnreadablePolicyFailsOpen(client: Client, x: Candidate, text: string)
    requires Validate(client.(policyFault := None), x) == Deny(SIGNED_MODEL_REQUIRED, x.spec.model)
    ensures Validate(client.(policyFault := Some(text)), x) == Allow
  {
  }
}
