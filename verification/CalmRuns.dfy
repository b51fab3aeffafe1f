/** Endless runs that meet the hypotheses of convergence: a run of WitnessRuns, calm from the start of
    the operator, continued idly. */
module CalmRuns {
  import opened Resources
  import opened ServiceStatusRules
  import opened Workload
  import opened ControlLoop
  import opened WriteBound
  import opened Convergence
  import opened LoopConvergence
  import WitnessRuns

  /** A calm run that ends with nothing queued and nothing in flight, continued by deliveries that
      show nothing new. */
  function StateAt(path: seq<State>, n: nat): State
    requires path != []
  {
    if n < |path| then path[n] else path[|path| - 1]
  }

  function ActionAt(pacts: seq<Action>, idle: Action, n: nat): Action {
    if n < |pacts| then pacts[n] else idle
  }

  ghost predicate Idle(cap: Capacity, st: State, a: Action) {
    a.DeliverTenant? && Enabled(st, a) && Next(cap, st, a) == st
  }

  ghost predicate AtRest(st: State) {
    st.passes == map[] && st.dirty == {} && st.delayed == {} && st.cache == st.store
  }

  lemma {:induction false} StepComes(cap: Capacity, path: seq<State>, pacts: seq<Action>, k: Key, n: nat)
    returns (m: nat)
    requires WitnessRuns.CalmRun(cap, path, pacts) && n < |path| && k in path[n].passes && AtRest(path[|pacts|])
    ensures n <= m < |pacts| && pacts[m].Step? && pacts[m].k == k
    decreases |path| - n
  {
    assert WitnessRuns.CalmStep(cap, path, pacts, n);
    if pacts[n].Step? && pacts[n].k == k {
      m := n;
    } else {
      PassStays(cap, path[n], pacts[n], k);
      m := StepComes(cap, path, pacts, k, n + 1);
    }
  }

  lemma PassStays(cap: Capacity, st: State, a: Action, k: Key)
    requires Enabled(st, a) && Calm(st, a) && k in st.passes && !(a.Step? && a.k == k)
    ensures k in Next(cap, st, a).passes
  {
    if a.Step? {
      StepFrame(cap, st, a.k, a.reply, a.now);
      assert Get(st.passes, k) == Get(Next(cap, st, a).passes, k);
    }
  }

  lemma QueueKeeps(cap: Capacity, st: State, a: Action, k: Key)
    requires Enabled(st, a) && Calm(st, a)
    ensures k in st.dirty && a != Take(k) ==> k in Next(cap, st, a).dirty
    ensures k in st.delayed && a != Fire(k) ==> k in Next(cap, st, a).delayed
  {
    if a.Step? {
      StepFrame(cap, st, a.k, a.reply, a.now);
    }
  }

  lemma {:induction false} TakeComes(cap: Capacity, path: seq<State>, pacts: seq<Action>, k: Key, n: nat)
    returns (m: nat)
    requires WitnessRuns.CalmRun(cap, path, pacts) && n < |path| && k in path[n].dirty && AtRest(path[|pacts|])
    ensures n <= m < |pacts| && pacts[m] == Take(k)
    decreases |path| - n
  {
    assert WitnessRuns.CalmStep(cap, path, pacts, n);
    if pacts[n] == Take(k) {
      m := n;
    } else {
      QueueKeeps(cap, path[n], pacts[n], k);
      m := TakeComes(cap, path, pacts, k, n + 1);
    }
  }

  lemma {:induction false} FireComes(cap: Capacity, path: seq<State>, pacts: seq<Action>, k: Key, n: nat)
    returns (m: nat)
    requires WitnessRuns.CalmRun(cap, path, pacts) && n < |path| && k in path[n].delayed && AtRest(path[|pacts|])
    ensures n <= m < |pacts| && pacts[m] == Fire(k)
    decreases |path| - n
  {
    assert WitnessRuns.CalmStep(cap, path, pacts, n);
    if pacts[n] == Fire(k) {
      m := n;
    } else {
      QueueKeeps(cap, path[n], pacts[n], k);
      m := FireComes(cap, path, pacts, k, n + 1);
    }
  }

  /** An endless run made of a calm run to rest and idle deliveries. */
  ghost predicate Continues(cap: Capacity, path: seq<State>, pacts: seq<Action>, idle: Action, tr: nat -> State,
                            acts: nat -> Action) {
    && WitnessRuns.CalmRun(cap, path, pacts) && AtRest(path[|pacts|]) && Idle(cap, path[|pacts|], idle)
    && (forall n: nat :: tr(n) == StateAt(path, n)) && (forall n: nat :: acts(n) == ActionAt(pacts, idle, n))
  }

  lemma ContinuedMoves(cap: Capacity, path: seq<State>, pacts: seq<Action>, idle: Action, tr: nat -> State,
                       acts: nat -> Action, i: nat)
    requires Continues(cap, path, pacts, idle, tr, acts)
    ensures Moves(cap, tr, acts, i) && CalmAt(tr, acts, i) && KeepsJobAt(tr, acts, i)
  {
    if i < |pacts| {
      assert WitnessRuns.CalmStep(cap, path, pacts, i);
      if acts(i).DeliverService? {
        assert Get(tr(i).store.services, acts(i).k) == acts(i).svc;
      }
    }
  }

  lemma ContinuedWorks(cap: Capacity, path: seq<State>, pacts: seq<Action>, idle: Action, tr: nat -> State,
                       acts: nat -> Action, n: nat, k: Key)
    requires Continues(cap, path, pacts, idle, tr, acts)
    ensures GoesOnFor(tr, acts, n, k)
  {
    if k in tr(n).passes {
      var m := StepComes(cap, path, pacts, k, n);
      assert TakesStep(acts, k, m);
    }
    if k in tr(n).dirty {
      var m := TakeComes(cap, path, pacts, k, n);
      assert acts(m) == Take(k);
    }
    if k in tr(n).delayed {
      var m := FireComes(cap, path, pacts, k, n);
      assert acts(m) == Fire(k);
    }
  }

  lemma ContinuedSees(cap: Capacity, path: seq<State>, pacts: seq<Action>, idle: Action, tr: nat -> State,
                      acts: nat -> Action, n: nat)
    requires Continues(cap, path, pacts, idle, tr, acts)
    ensures SeesLater(tr, n)
  {
    var m := if n < |pacts| then |pacts| else n;
    forall i: nat | i >= m ensures SeesSince(tr, n, i) {
      assert tr(i).cache == tr(i).store;
      forall k ensures ServiceSince(tr, n, i, k) && JobSince(tr, n, i, k) {
        assert n <= i && Get(tr(i).cache.services, k) == Get(tr(i).store.services, k);
        assert k in tr(i).cache.jobs <==> k in tr(i).store.jobs;
      }
      forall mk ensures ModelSince(tr, n, i, mk) {
        assert Get(tr(i).cache.models, mk) == Get(tr(i).store.models, mk);
      }
      forall ns ensures TenantSince(tr, n, i, ns) {
        assert Get(tr(i).cache.tenants, ns) == Get(tr(i).store.tenants, ns);
      }
    }
    assert SeesFrom(tr, n, m);
  }

  /** The hypotheses of convergence can be met: a new service that can run has such a run, calm from
      the start of the operator. */
  lemma CalmRunsExist(cap: Capacity, x: WitnessRuns.Cast)
    requires WitnessRuns.Runnable(cap, x)
    ensures exists tr: nat -> State, acts: nat -> Action ::
              Runs(cap, tr, acts) && Diligent(tr, acts) && EditsStop(tr, acts, 0) && tr(0) == WitnessRuns.Dark(x)
  {
    var path, pacts, svc, job := WitnessRuns.DarkLeadsToRest(cap, x);
    var tr, acts := DarkContinues(cap, x, path, pacts, svc, job);
  }

  lemma DarkContinues(cap: Capacity, x: WitnessRuns.Cast, path: seq<State>, pacts: seq<Action>, svc: InferenceService,
                      job: Job)
    returns (tr: nat -> State, acts: nat -> Action)
    requires WitnessRuns.CalmRun(cap, path, pacts) && Init(path[0]) && x.tenant.version < x.clock
    requires var world := WitnessRuns.World(x, svc, map[x.svc.key := job]);
             path[|pacts|] == WitnessRuns.Scene(x, world, world, false, 5)
    ensures Runs(cap, tr, acts) && Diligent(tr, acts) && EditsStop(tr, acts, 0)
    ensures forall n: nat :: tr(n) == StateAt(path, n)
  {
    var rest := path[|pacts|];
    var idle := DeliverTenant(x.tenant.name, Some(x.tenant));
    assert Put(rest.cache.tenants, x.tenant.name, Some(x.tenant)) == rest.cache.tenants;
    tr, acts := (n: nat) => StateAt(path, n), (n: nat) => ActionAt(pacts, idle, n);
    ContinuedConverges(cap, path, pacts, idle, tr, acts);
  }

  lemma ContinuedConverges(cap: Capacity, path: seq<State>, pacts: seq<Action>, idle: Action, tr: nat -> State,
                           acts: nat -> Action)
    requires Continues(cap, path, pacts, idle, tr, acts) && Init(path[0])
    ensures Runs(cap, tr, acts) && Diligent(tr, acts) && EditsStop(tr, acts, 0) && tr(0) == path[0]
  {
    forall i: nat ensures Moves(cap, tr, acts, i) && CalmAt(tr, acts, i) && KeepsJobAt(tr, acts, i) {
      ContinuedMoves(cap, path, pacts, idle, tr, acts, i);
    }
    forall n: nat, k: Key ensures GoesOnFor(tr, acts, n, k) {
      ContinuedWorks(cap, path, pacts, idle, tr, acts, n, k);
    }
    forall n: nat ensures SeesLater(tr, n) {
      ContinuedSees(cap, path, pacts, idle, tr, acts, n);
    }
    assert KeepsJobs(tr, acts, 0);
  }
}
