/** The Model watch: which services a Model event wakes, and that these are all it can matter to. */
module WatchMap {
  import opened Resources
  import opened ServiceStatusRules
  import opened ControlLoop
  import opened ReconcilePass

  // ---------- the map function ----------

  function RequestsFor(items: seq<InferenceService>, model: string): seq<Key> {
    if items == [] then []
    else
      var rest := RequestsFor(items[..|items| - 1], model);
      var last := items[|items| - 1];
      if last.spec.model == model then rest + [last.key] else rest
  }

  /** mapModelToInferenceServices on the items that List returned for the Model's namespace. */
  method MapModelToInferenceServices(items: seq<InferenceService>, model: string) returns (requests: seq<Key>)
    ensures requests == RequestsFor(items, model)
  {
    requests := [];
    for i := 0 to |items|
      invariant requests == RequestsFor(items[..i], model)
    {
      assert items[..i + 1][..i] == items[..i];
      if items[i].spec.model == model {
        requests := requests + [items[i].key];
      }
    }
    assert items[..|items|] == items;
  }

  /** Position of the item behind the n-th request. */
  function Position(items: seq<InferenceService>, model: string, n: nat): (p: nat)
    requires n < |RequestsFor(items, model)|
    ensures p < |items| && items[p].spec.model == model && items[p].key == RequestsFor(items, model)[n]
  {
    var last := |items| - 1;
    if items[last].spec.model == model && n == |RequestsFor(items[..last], model)| then last
    else Position(items[..last], model, n)
  }

  /** Requests keep the order of the list, and no item is requested twice. */
  lemma {:induction false} RequestsInListOrder(items: seq<InferenceService>, model: string, n: nat, m: nat)
    requires n < m < |RequestsFor(items, model)|
    ensures Position(items, model, n) < Position(items, model, m)
  {
    var last := |items| - 1;
    if m < |RequestsFor(items[..last], model)| {
      RequestsInListOrder(items[..last], model, n, m);
    }
  }

  lemma {:induction false} EveryReferenceIsRequested(items: seq<InferenceService>, model: string, i: nat)
    requires i < |items| && items[i].spec.model == model
    ensures items[i].key in RequestsFor(items, model)
  {
    var last := |items| - 1;
    if i < last {
      assert items[..last][i] == items[i];
      EveryReferenceIsRequested(items[..last], model, i);
    }
  }

  /** `items` lists the services of a namespace, each once. */
  ghost predicate Lists(items: seq<InferenceService>, services: map<Key, InferenceService>, ns: string) {
    && (forall i :: 0 <= i < |items| ==> Get(services, items[i].key) == Some(items[i]) && items[i].key.ns == ns)
    && (forall k :: k in services && k.ns == ns ==> services[k] in items)
    && (forall i, j :: 0 <= i < j < |items| ==> items[i].key != items[j].key)
  }

  /** Exactness: the requests are the services of the namespace that reference the Model, each
      once; as a set, what the control loop marks dirty on a Model delivery. */
  lemma RequestsAreExact(items: seq<InferenceService>, services: map<Key, InferenceService>, mk: Key)
    requires Lists(items, services, mk.ns)
    requires forall k :: k in services ==> services[k].key == k
    ensures (set r | r in RequestsFor(items, mk.name)) == Referencing(services, mk)
    ensures forall n, m :: 0 <= n < m < |RequestsFor(items, mk.name)| ==>
              RequestsFor(items, mk.name)[n] != RequestsFor(items, mk.name)[m]
  {
    var rs := RequestsFor(items, mk.name);
    forall r | r in rs ensures r in Referencing(services, mk) {
      var n :| 0 <= n < |rs| && rs[n] == r;
      var p := Position(items, mk.name, n);
      assert Get(services, items[p].key) == Some(items[p]);
    }
    forall k | k in Referencing(services, mk) ensures k in rs {
      var i :| 0 <= i < |items| && items[i] == services[k];
      EveryReferenceIsRequested(items, mk.name, i);
    }
    forall n, m | 0 <= n < m < |rs| ensures rs[n] != rs[m] {
      RequestsInListOrder(items, mk.name, n, m);
    }
  }

  // ---------- completeness ----------

  /** The two states agree except for one Model that the pass on `k` does not look at. */
  ghost predicate AgreeBut(a: State, b: State, mk: Key, k: Key) {
    && b == a.(store := a.store.(models := b.store.models), cache := a.cache.(models := b.cache.models))
    && (forall j :: j != mk ==> Get(a.cache.models, j) == Get(b.cache.models, j))
    && (k in a.passes ==>
          if a.passes[k].Begun? then k in a.cache.services ==> ModelKey(a.cache.services[k]) != mk
          else ModelKey(a.passes[k].svc) != mk)
  }

  lemma StatusStepAgrees(a: State, b: State, mk: Key, k: Key, svc: InferenceService, model: Option<Model>, d: Deps,
                         upToDate: bool, wanted: ServiceStatus, reply: Reply)
    requires AgreeBut(a, b, mk, k) && (d.Ok() ==> model.Some?) && ModelKey(svc) != mk
    ensures AgreeBut(AdvanceStatus(a, k, svc, model, d, upToDate, wanted, reply),
                     AdvanceStatus(b, k, svc, model, d, upToDate, wanted, reply), mk, k)
  {
    PutAgrees(a, b, mk, k, svc, wanted, reply);
    var a', b' := PutStatus(a, k, svc, wanted, reply), PutStatus(b, k, svc, wanted, reply);
    FinishAgrees(a, b, mk, k, true);
    FinishAgrees(a', b', mk, k, true);
    if d.Ok() {
      MoveAgrees(a, b, mk, k, StatusDone(svc, model.value));
      MoveAgrees(a', b', mk, k, StatusDone(Stored(a, svc, wanted), model.value));
    }
  }

  lemma PutAgrees(a: State, b: State, mk: Key, k: Key, svc: InferenceService, wanted: ServiceStatus, reply: Reply)
    requires AgreeBut(a, b, mk, k)
    ensures AgreeBut(PutStatus(a, k, svc, wanted, reply), PutStatus(b, k, svc, wanted, reply), mk, k)
    ensures Applies(a, k, svc, reply) <==> Applies(b, k, svc, reply)
  {
  }

  lemma FinishAgrees(a: State, b: State, mk: Key, k: Key, requeue: bool)
    requires AgreeBut(a, b, mk, k)
    ensures AgreeBut(Finish(a, k, requeue), Finish(b, k, requeue), mk, k)
  {
  }

  lemma MoveAgrees(a: State, b: State, mk: Key, k: Key, p: Pass)
    requires AgreeBut(a, b, mk, k) && !p.Begun? && ModelKey(p.svc) != mk
    ensures AgreeBut(Move(a, k, p), Move(b, k, p), mk, k)
  {
  }

  lemma WorkloadStepAgrees(a: State, b: State, mk: Key, k: Key, svc: InferenceService, jobErr: Option<Message>,
                           upToDate: bool, wanted: ServiceStatus, reply: Reply)
    requires AgreeBut(a, b, mk, k)
    ensures AgreeBut(AdvanceWorkload(a, k, svc, jobErr, upToDate, wanted, reply),
                     AdvanceWorkload(b, k, svc, jobErr, upToDate, wanted, reply), mk, k)
  {
    PutAgrees(a, b, mk, k, svc, wanted, reply);
  }

  lemma OtherStepAgrees(a: State, b: State, mk: Key, k: Key, p: Pass, reply: Reply)
    requires AgreeBut(a, b, mk, k) && Get(a.passes, k) == Some(p) && !p.SawTenant? && !p.JobTried?
    ensures AgreeBut(AdvanceOther(a, k, p, reply), AdvanceOther(b, k, p, reply), mk, k)
  {
    FinishAgrees(a, b, mk, k, true);
    match p {
      case Begun =>
        FinishAgrees(a, b, mk, k, false);
        if k in a.cache.services {
          MoveAgrees(a, b, mk, k, SawService(a.cache.services[k]));
        }
      case SawService(svc) => MoveAgrees(a, b, mk, k, SawModel(svc, Get(a.cache.models, ModelKey(svc))));
      case SawModel(svc, model) => MoveAgrees(a, b, mk, k, SawTenant(svc, model, Get(a.cache.tenants, svc.key.ns)));
      case StatusDone(svc, model) =>
        MoveAgrees(a, b, mk, k, JobAbsent(svc, model));
        MoveAgrees(a, b, mk, k, JobTried(svc, model, if reply.Lost? then Some(ApiError(reply.text)) else None));
      case JobAbsent(svc, model) => CreateAgrees(a, b, mk, k, svc, model, reply);
    }
  }

  lemma CreateAgrees(a: State, b: State, mk: Key, k: Key, svc: InferenceService, model: Model, reply: Reply)
    requires AgreeBut(a, b, mk, k) && ModelKey(svc) != mk
    ensures AgreeBut(AdvanceCreate(a, k, svc, model, reply), AdvanceCreate(b, k, svc, model, reply), mk, k)
  {
  }

  lemma StepAgrees(cap: Capacity, a: State, b: State, mk: Key, k: Key, c: Calls)
    requires AgreeBut(a, b, mk, k) && k in a.passes
    ensures AgreeBut(One(cap, a, k, c), One(cap, b, k, c), mk, k)
  {
    match a.passes[k] {
      case SawTenant(svc, model, tenant) =>
        var d := DepsOf(cap, svc, model, tenant);
        var prio := DerivedPriority(svc.spec, tenant);
        StatusStepAgrees(a, b, mk, k, svc, model, d, StatusUpToDate(svc.status, svc.generation, d, prio),
                         WantedStatus(svc.status, svc.generation, d, prio, c.now), c.updateStatus);
      case JobTried(svc, _, jobErr) =>
        WorkloadStepAgrees(a, b, mk, k, svc, jobErr, WorkloadUpToDate(svc.status, jobErr),
                           WantedWorkload(svc.status, jobErr, c.later), c.updateWorkload);
      case p => OtherStepAgrees(a, b, mk, k, p, ReplyAt(p, c));
    }
  }

  lemma {:induction false} PassAgrees(cap: Capacity, a: State, b: State, mk: Key, k: Key, c: Calls)
    requires AgreeBut(a, b, mk, k) && k in a.passes
    ensures AgreeBut(RunPass(cap, a, k, c), RunPass(cap, b, k, c), mk, k)
    decreases Remaining(a.passes[k])
  {
    StepAgrees(cap, a, b, mk, k, c);
    Progress(cap, a, k, c);
    var a' := One(cap, a, k, c);
    if k in a'.passes {
      PassAgrees(cap, a', One(cap, b, k, c), mk, k, c);
    }
  }

  /** Completeness: if two stores differ only in one Model, every service whose Reconcile does
      anything different between them, to services, to Jobs or in asking to be requeued, is
      among those the Model's event wakes. */
  lemma WatchIsComplete(cap: Capacity, store: Objects, models': map<Key, Model>, clock: nat, mk: Key, k: Key, c: Calls)
    requires Sound(store, clock)
    requires forall j :: j != mk ==> Get(store.models, j) == Get(models', j)
    ensures var r, r' := Reconciled(cap, store, clock, k, c), Reconciled(cap, store.(models := models'), clock, k, c);
            (r.store.services != r'.store.services || r.store.jobs != r'.store.jobs || r.delayed != r'.delayed)
            ==> k in Referencing(store.services, mk)
  {
    if k !in Referencing(store.services, mk) {
      assert k in store.services ==> ModelKey(store.services[k]) != mk by {
        if k in store.services {
          assert store.services[k].key == k;
        }
      }
      var store' := store.(models := models');
      PassAgrees(cap, Start(store, store, clock, k), Start(store', store', clock, k), mk, k, c);
    }
  }
}
