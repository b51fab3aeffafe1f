/** Condition-list shape of InferenceServices over whole runs. */
module ServiceShape {
  import opened Resources
  import opened Conditions
  import opened StatusShape
  import opened ServiceStatusRules
  import opened ControlLoop
  import JobSafety

  ghost predicate Shaped(status: ServiceStatus) {
    WellShaped(ServiceKind, status.conditions, status.phase, ServiceTypes, 4, Some(WorkloadReady))
  }

  lemma DependencyUpdateIsFull(d: Deps, now: nat)
    ensures FullUpdate(ServiceKind, DependencyConditions(d, now), PhaseOf(d), ServiceTypes, 4)
  {
    DependencyConditionsDistinct(d, now);
    DependencyConditionsLawful(d, now);
    DependencyConditionsSummarised(d, now);
  }

  lemma DependencyConditionsLawful(d: Deps, now: nat)
    ensures AllLawful(ServiceKind, DependencyConditions(d, now))
  {
  }

  lemma DependencyConditionsSummarised(d: Deps, now: nat)
    ensures Summarised(DependencyConditions(d, now), 4, 5, PhaseOf(d))
  {
    var cs := DependencyConditions(d, now);
    if !d.Ok() {
      assert cs[0].status != StatusTrue || cs[1].status != StatusTrue || cs[2].status != StatusTrue
          || cs[3].status != StatusTrue;
    }
  }

  lemma WantedStatusShaped(status: ServiceStatus, generation: nat, d: Deps, prio: Int32, now: nat)
    requires Shaped(status)
    ensures var w := WantedStatus(status, generation, d, prio, now);
            Shaped(w) && |w.conditions| >= 6
  {
    var cs := DependencyConditions(d, now);
    DependencyUpdateIsFull(d, now);
    UpdateKeepsShape(ServiceKind, status.conditions, status.phase, ServiceTypes, 4, Some(WorkloadReady), cs,
                     PhaseOf(d));
  }

  lemma WantedWorkloadShaped(status: ServiceStatus, jobErr: Option<Message>, now: nat)
    requires Shaped(status) && |status.conditions| >= 6
    ensures Shaped(WantedWorkload(status, jobErr, now))
  {
    ExtraKeepsShape(ServiceKind, status.conditions, status.phase, ServiceTypes, 4, Some(WorkloadReady),
                    WorkloadCondition(jobErr, now));
  }

  lemma UpToDateIsComplete(status: ServiceStatus, generation: nat, d: Deps, prio: Int32)
    requires Shaped(status) && StatusUpToDate(status, generation, d, prio)
    ensures |status.conditions| >= 6
  {
    assert Holds(status.conditions, DependencyConditions(d, 0)[0]);
  }

  // ---------- runs ----------

  ghost predicate AllShaped(services: map<Key, InferenceService>) {
    forall k :: k in services ==> Shaped(services[k].status)
  }

  ghost predicate PassShaped(p: Pass) {
    && (!p.Begun? ==> Shaped(p.svc.status))
    && (p.StatusDone? || p.JobAbsent? || p.JobTried? ==> |p.svc.status.conditions| >= 6)
  }

  ghost predicate StateShaped(st: State) {
    && AllShaped(st.store.services) && AllShaped(st.cache.services)
    && forall k :: k in st.passes ==> PassShaped(st.passes[k])
  }

  /** Status is the operator's own: everyone else creates services with an empty status and
      leaves the status of existing ones alone. */
  predicate LeavesStatus(st: State, a: Action) {
    a.EnvService? && a.svc.Some? ==>
      a.svc.value.status == if a.k in st.store.services then st.store.services[a.k].status else EmptyServiceStatus
  }

  lemma StatusAdvanceShaped(st: State, k: Key, svc: InferenceService, model: Option<Model>, d: Deps,
                            upToDate: bool, wanted: ServiceStatus, reply: Reply)
    requires StateShaped(st) && (d.Ok() ==> model.Some?) && Shaped(svc.status)
    requires Shaped(wanted) && |wanted.conditions| >= 6
    requires upToDate ==> |svc.status.conditions| >= 6
    ensures StateShaped(AdvanceStatus(st, k, svc, model, d, upToDate, wanted, reply))
  {
  }

  lemma WorkloadAdvanceShaped(st: State, k: Key, svc: InferenceService, jobErr: Option<Message>,
                              upToDate: bool, wanted: ServiceStatus, reply: Reply)
    requires StateShaped(st) && Shaped(wanted)
    ensures StateShaped(AdvanceWorkload(st, k, svc, jobErr, upToDate, wanted, reply))
  {
  }

  lemma OtherAdvanceShaped(st: State, k: Key, p: Pass, reply: Reply)
    requires StateShaped(st) && PassShaped(p) && !p.SawTenant? && !p.JobTried?
    ensures StateShaped(AdvanceOther(st, k, p, reply))
  {
  }

  lemma StatusStepShaped(cap: Capacity, st: State, k: Key, reply: Reply, now: nat)
    requires StateShaped(st) && k in st.passes && st.passes[k].SawTenant?
    ensures StateShaped(Advance(cap, st, k, reply, now))
  {
    var SawTenant(svc, model, tenant) := st.passes[k];
    assert PassShaped(st.passes[k]);
    var d := DepsOf(cap, svc, model, tenant);
    var prio := DerivedPriority(svc.spec, tenant);
    var upToDate := StatusUpToDate(svc.status, svc.generation, d, prio);
    var wanted := WantedStatus(svc.status, svc.generation, d, prio, now);
    WantedStatusShaped(svc.status, svc.generation, d, prio, now);
    if upToDate {
      UpToDateIsComplete(svc.status, svc.generation, d, prio);
    }
    StatusAdvanceShaped(st, k, svc, model, d, upToDate, wanted, reply);
    StatusAdvance(cap, st, k, reply, now);
  }

  lemma WorkloadStepShaped(cap: Capacity, st: State, k: Key, reply: Reply, now: nat)
    requires StateShaped(st) && k in st.passes && st.passes[k].JobTried?
    ensures StateShaped(Advance(cap, st, k, reply, now))
  {
    var JobTried(svc, model, jobErr) := st.passes[k];
    assert PassShaped(st.passes[k]);
    WantedWorkloadShaped(svc.status, jobErr, now);
    WorkloadAdvanceShaped(st, k, svc, jobErr, WorkloadUpToDate(svc.status, jobErr),
                          WantedWorkload(svc.status, jobErr, now), reply);
    WorkloadAdvance(cap, st, k, reply, now);
  }

  lemma AdvanceShaped(cap: Capacity, st: State, k: Key, reply: Reply, now: nat)
    requires StateShaped(st) && k in st.passes
    ensures StateShaped(Advance(cap, st, k, reply, now))
  {
    match st.passes[k] {
      case SawTenant(_, _, _) => StatusStepShaped(cap, st, k, reply, now);
      case JobTried(_, _, _) => WorkloadStepShaped(cap, st, k, reply, now);
      case p =>
        assert PassShaped(p);
        OtherAdvanceShaped(st, k, p, reply);
    }
  }

  lemma PutShaped(services: map<Key, InferenceService>, k: Key, v: Option<InferenceService>)
    requires AllShaped(services) && (v.Some? ==> Shaped(v.value.status))
    ensures AllShaped(Put(services, k, v))
  {
    var r := Put(services, k, v);
    forall j | j in r ensures Shaped(r[j].status) {
      assert Get(r, j) == Some(r[j]);
      if j != k { assert Get(services, j) == Some(r[j]); }
    }
  }

  lemma ActionShaped(cap: Capacity, st: State, a: Action)
    requires StateShaped(st) && Enabled(st, a) && LeavesStatus(st, a)
    requires a.DeliverService? && a.svc.Some? ==> Shaped(a.svc.value.status)
    ensures StateShaped(Next(cap, st, a))
  {
    match a {
      case Step(k, reply, now) => AdvanceShaped(cap, st, k, reply, now);
      case EnvService(k, svc) => PutShaped(st.store.services, k, svc);
      case DeliverService(k, svc) => PutShaped(st.cache.services, k, svc);
      case _ =>
    }
  }

  /** In every reachable state every stored status has the operator's shape: an empty list, the
      six types in code order, or those six plus WorkloadReady; lawful reasons and messages;
      and Ready, the four dependency conditions and the phase in agreement. */
  lemma {:induction false} StatusesStayShaped(cap: Capacity, tr: seq<State>, acts: seq<Action>, n: nat)
    requires IsRun(cap, tr, acts) && JobSafety.Honest(tr, acts) && n < |tr|
    requires AllShaped(tr[0].store.services)
    requires forall i :: 0 <= i < |acts| ==> LeavesStatus(tr[i], acts[i])
    ensures forall j :: 0 <= j <= n ==> StateShaped(tr[j])
  {
    if n > 0 {
      StatusesStayShaped(cap, tr, acts, n - 1);
      var a := acts[n - 1];
      assert StepAt(cap, tr, acts, n - 1);
      assert StateShaped(tr[n - 1]);
      if a.DeliverService? && a.svc.Some? {
        var j: nat :| j <= n - 1 && Get(tr[j].store.services, a.k) == a.svc;
        assert StateShaped(tr[j]);
      }
      ActionShaped(cap, tr[n - 1], a);
    }
  }

  // ---------- what the shape rules out, and what it does not ----------

  /** In a shaped status the types are unique. */
  lemma ShapedTypesAreUnique(status: ServiceStatus)
    requires Shaped(status)
    ensures DistinctTypes(status.conditions)
  {
    assert forall i, j :: 0 <= i < j < |ServiceTypes| ==> ServiceTypes[i] != ServiceTypes[j];
  }

  /** WorkloadReady is not reset when a dependency goes away.  Once updateStatus has gone through,
      Ready=False stands next to WorkloadReady=True exactly when WorkloadReady was True before and
      the pass found some dependency unsatisfied. */
  lemma WorkloadReadyOutlivesReadyExactlyWhen(status: ServiceStatus, generation: nat, d: Deps, prio: Int32, now: nat)
    ensures var w := AfterUpdate(status, generation, d, prio, now);
            IsTrue(w.conditions, WorkloadReady) && !IsTrue(w.conditions, Ready)
            <==> IsTrue(status.conditions, WorkloadReady) && !d.Ok()
  {
    if StatusUpToDate(status, generation, d, prio) {
      UpToDateIsTruthful(status, generation, d, prio);
    } else {
      UpsertAllKeepsOthers(status.conditions, DependencyConditions(d, now), WorkloadReady);
      DependencyConditionsDistinct(d, now);
      UpsertAllCarries(status.conditions, DependencyConditions(d, now), 5);
    }
  }

  /** Such a history: a first pass resolves everything and gets its Job, a second one finds the
      Model gone. */
  lemma WorkloadReadyOutlivesReady(name: string, generation: nat, prio: Int32)
    ensures var first := AfterUpdate(EmptyServiceStatus, generation, Deps(None, None, None, None), prio, 0);
            var running := WantedWorkload(first, None, 1);
            var w := AfterUpdate(running, generation, Deps(Some(ModelMissing(name)), None, None, None), prio, 2);
            IsTrue(w.conditions, WorkloadReady) && !IsTrue(w.conditions, Ready)
  {
    var first := AfterUpdate(EmptyServiceStatus, generation, Deps(None, None, None, None), prio, 0);
    UpsertCarries(first.conditions, WorkloadCondition(None, 1));
    WorkloadReadyOutlivesReadyExactlyWhen(WantedWorkload(first, None, 1), generation,
                                          Deps(Some(ModelMissing(name)), None, None, None), prio, 2);
  }
}
