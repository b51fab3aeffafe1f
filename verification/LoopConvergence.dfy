/** Convergence of the control loop: whatever happened before, once edits stop and calls are
    answered, the loop comes to rest and every service that can run ends up settled. */
module LoopConvergence {
  import opened Resources
  import opened ServiceStatusRules
  import opened ControlLoop
  import opened WriteBound
  import opened ReconcilePass
  import opened SettledOrQueued
  import opened Convergence
  import opened JobSafety

  // ---------- endless runs from the start of the operator ----------

  /** What a delivery shows of a service was once stored. */
  ghost predicate ShowsHistory(tr: nat -> State, a: Action, i: nat) {
    a.DeliverService? ==> exists j: nat :: j <= i && Get(tr(j).store.services, a.k) == a.svc
  }

  ghost predicate Moves(cap: Capacity, tr: nat -> State, acts: nat -> Action, i: nat) {
    && Enabled(tr(i), acts(i)) && tr(i + 1) == Next(cap, tr(i), acts(i))
    && ShowsHistory(tr, acts(i), i)
  }

  ghost predicate Runs(cap: Capacity, tr: nat -> State, acts: nat -> Action) {
    && Init(tr(0))
    && forall i: nat :: Moves(cap, tr, acts, i)
  }

  function Prefix(tr: nat -> State, n: nat): seq<State> {
    seq(n + 1, (i: nat) => tr(i))
  }

  function PrefixActs(acts: nat -> Action, n: nat): seq<Action> {
    seq(n, (i: nat) => acts(i))
  }

  lemma PrefixKeepsInv(cap: Capacity, tr: nat -> State, acts: nat -> Action, n: nat)
    requires Runs(cap, tr, acts)
    ensures Inv(tr(n)) && OwnKey(tr(n))
  {
    var p, a := Prefix(tr, n), PrefixActs(acts, n);
    forall i | 0 <= i < |a| ensures StepAt(cap, p, a, i) {
      assert Moves(cap, tr, acts, i);
    }
    RunKeepsInv(cap, p, a, n);
  }

  // ---------- versions identify contents ----------

  lemma StatusWrites(st: State, k: Key, svc: InferenceService, model: Option<Model>, d: Deps, upToDate: bool,
                     wanted: ServiceStatus, reply: Reply)
    requires d.Ok() ==> model.Some?
    ensures var st' := AdvanceStatus(st, k, svc, model, d, upToDate, wanted, reply);
            && StoredBy(st, st', k, svc)
            && (k in st'.passes ==> !st'.passes[k].Begun?
                                    && (st'.passes[k].svc == svc
                                        || Get(st'.store.services, k) == Some(st'.passes[k].svc)))
  {
  }

  /** A step stores nothing for `k`, or its snapshot with a new status under a new version. */
  ghost predicate StoredBy(st: State, st': State, k: Key, svc: InferenceService) {
    || Get(st'.store.services, k) == Get(st.store.services, k)
    || (&& k in st.store.services && st.store.services[k].version == svc.version
        && k in st'.store.services && st'.store.services[k].version == st.clock
        && SameButStatus(svc, st'.store.services[k]))
  }

  lemma WorkloadWrites(st: State, k: Key, svc: InferenceService, jobErr: Option<Message>, upToDate: bool,
                       wanted: ServiceStatus, reply: Reply)
    ensures var st' := AdvanceWorkload(st, k, svc, jobErr, upToDate, wanted, reply);
            StoredBy(st, st', k, svc) && k !in st'.passes
  {
  }

  lemma OtherWrites(st: State, k: Key, p: Pass, reply: Reply)
    requires !p.SawTenant? && !p.JobTried?
    ensures var st' := AdvanceOther(st, k, p, reply);
            && st'.store.services == st.store.services
            && (k in st'.passes ==>
                  && !st'.passes[k].Begun?
                  && (if p.Begun? then Get(st.cache.services, k) == Some(st'.passes[k].svc)
                      else st'.passes[k].svc == p.svc))
  {
    AdvanceOtherFrame(st, k, p, reply);
  }

  /** What a step stores, and where the snapshot of the pass comes from afterwards. */
  lemma StepWrites(cap: Capacity, st: State, k: Key, reply: Reply, now: nat)
    requires k in st.passes
    ensures var st' := Advance(cap, st, k, reply, now);
            && (if st.passes[k].Begun? then Get(st'.store.services, k) == Get(st.store.services, k)
                else StoredBy(st, st', k, st.passes[k].svc))
            && (k in st'.passes ==>
                  && !st'.passes[k].Begun?
                  && (|| (!st.passes[k].Begun? && st'.passes[k].svc == st.passes[k].svc)
                      || Get(st.cache.services, k) == Some(st'.passes[k].svc)
                      || Get(st'.store.services, k) == Some(st'.passes[k].svc)))
  {
    match st.passes[k] {
      case SawTenant(svc, model, tenant) =>
        StatusAdvance(cap, st, k, reply, now);
        var d := DepsOf(cap, svc, model, tenant);
        var prio := DerivedPriority(svc.spec, tenant);
        StatusWrites(st, k, svc, model, d, StatusUpToDate(svc.status, svc.generation, d, prio),
                     WantedStatus(svc.status, svc.generation, d, prio, now), reply);
      case JobTried(svc, _, jobErr) =>
        WorkloadAdvance(cap, st, k, reply, now);
        WorkloadWrites(st, k, svc, jobErr, WorkloadUpToDate(svc.status, jobErr),
                       WantedWorkload(svc.status, jobErr, now), reply);
      case p =>
        OtherAdvance(cap, st, k, reply, now);
        OtherWrites(st, k, p, reply);
    }
  }

  /** What one action does to the stored service of a key: nothing, or a write under the next
      version, or a deletion. */
  lemma ActionWrites(cap: Capacity, st: State, a: Action, k: Key)
    requires Enabled(st, a)
    ensures Newer(st, Next(cap, st, a), k)
  {
    if a.Step? {
      StepFrame(cap, st, a.k, a.reply, a.now);
      StepWrites(cap, st, a.k, a.reply, a.now);
      assert a.k != k ==> Get(Next(cap, st, a).store.services, k) == Get(st.store.services, k);
    } else if a.EnvService? {
      assert Get(Next(cap, st, a).store.services, k) == if a.k == k then a.svc else Get(st.store.services, k);
    }
  }

  lemma {:induction false} ChangesAreNewer(cap: Capacity, tr: nat -> State, acts: nat -> Action, i: nat, j: nat, k: Key)
    requires Runs(cap, tr, acts) && i <= j
    ensures Newer(tr(i), tr(j), k)
  {
    if i < j {
      ChangesAreNewer(cap, tr, acts, i, j - 1, k);
      assert Moves(cap, tr, acts, j - 1);
      ActionWrites(cap, tr(j - 1), acts(j - 1), k);
      NewerTwice(tr(i), tr(j - 1), tr(j), k);
    }
  }

  /** The service is the same, or has a version that was not used before. */
  ghost predicate Newer(st: State, st': State, k: Key) {
    && st.clock <= st'.clock
    && (|| Get(st'.store.services, k) == Get(st.store.services, k)
        || (k in st'.store.services ==> st'.store.services[k].version >= st.clock))
  }

  lemma NewerTwice(a: State, b: State, c: State, k: Key)
    requires Newer(a, b, k) && Newer(b, c, k)
    ensures Newer(a, c, k)
  {
  }

  /** Once stored, a version of a service always means the same content. */
  lemma VersionsIdentify(cap: Capacity, tr: nat -> State, acts: nat -> Action, i: nat, j: nat, k: Key)
    requires Runs(cap, tr, acts) && k in tr(i).store.services && k in tr(j).store.services
    requires tr(i).store.services[k].version == tr(j).store.services[k].version
    ensures tr(i).store.services[k] == tr(j).store.services[k]
  {
    PrefixKeepsInv(cap, tr, acts, i);
    PrefixKeepsInv(cap, tr, acts, j);
    if i <= j {
      ChangesAreNewer(cap, tr, acts, i, j, k);
    } else {
      ChangesAreNewer(cap, tr, acts, j, i, k);
    }
  }

  // ---------- what cache and passes hold was once stored ----------

  ghost predicate Was(tr: nat -> State, n: nat, k: Key, svc: InferenceService) {
    exists j: nat :: j <= n && Get(tr(j).store.services, k) == Some(svc)
  }

  ghost predicate Remembers(tr: nat -> State, n: nat, k: Key) {
    && (k in tr(n).cache.services ==> Was(tr, n, k, tr(n).cache.services[k]))
    && (k in tr(n).passes && !tr(n).passes[k].Begun? ==> Was(tr, n, k, tr(n).passes[k].svc))
  }

  lemma WasStays(tr: nat -> State, n: nat, k: Key, svc: InferenceService)
    requires Was(tr, n, k, svc)
    ensures Was(tr, n + 1, k, svc)
  {
  }

  lemma WasNow(tr: nat -> State, n: nat, k: Key, svc: InferenceService)
    requires Get(tr(n).store.services, k) == Some(svc)
    ensures Was(tr, n, k, svc)
  {
  }

  lemma CacheRemembers(cap: Capacity, tr: nat -> State, acts: nat -> Action, n: nat, k: Key)
    requires Runs(cap, tr, acts) && Remembers(tr, n, k) && k in tr(n + 1).cache.services
    ensures Was(tr, n + 1, k, tr(n + 1).cache.services[k])
  {
    assert Moves(cap, tr, acts, n);
    var a, svc := acts(n), tr(n + 1).cache.services[k];
    if a.DeliverService? && a.k == k {
      assert Get(tr(n + 1).cache.services, k) == a.svc;
      assert ShowsHistory(tr, a, n);
    } else {
      if a.Step? {
        StepFrame(cap, tr(n), a.k, a.reply, a.now);
      }
      assert Get(tr(n).cache.services, k) == Some(svc) by {
        if a.DeliverService? { assert Get(tr(n + 1).cache.services, k) == Get(tr(n).cache.services, k); }
      }
      WasStays(tr, n, k, svc);
    }
  }

  lemma PassRemembers(cap: Capacity, tr: nat -> State, acts: nat -> Action, n: nat, k: Key)
    requires Runs(cap, tr, acts) && Remembers(tr, n, k) && k in tr(n + 1).passes && !tr(n + 1).passes[k].Begun?
    ensures Was(tr, n + 1, k, tr(n + 1).passes[k].svc)
  {
    assert Moves(cap, tr, acts, n);
    var a, svc := acts(n), tr(n + 1).passes[k].svc;
    if a.Step? && a.k == k {
      StepWrites(cap, tr(n), k, a.reply, a.now);
      if Get(tr(n + 1).store.services, k) == Some(svc) {
        WasNow(tr, n + 1, k, svc);
      } else {
        WasStays(tr, n, k, svc);
      }
    } else {
      OthersLeavePass(cap, tr(n), a, k);
      WasStays(tr, n, k, svc);
    }
  }

  lemma {:induction false} EverythingIsRemembered(cap: Capacity, tr: nat -> State, acts: nat -> Action, n: nat, k: Key)
    requires Runs(cap, tr, acts)
    ensures Remembers(tr, n, k)
  {
    if n > 0 {
      EverythingIsRemembered(cap, tr, acts, n - 1, k);
      if k in tr(n).cache.services {
        CacheRemembers(cap, tr, acts, n - 1, k);
      }
      if k in tr(n).passes && !tr(n).passes[k].Begun? {
        PassRemembers(cap, tr, acts, n - 1, k);
      }
    }
  }

  // ---------- edits stop ----------

  ghost predicate CalmAt(tr: nat -> State, acts: nat -> Action, i: nat) {
    Calm(tr(i), acts(i))
  }

  ghost predicate EditsStop(tr: nat -> State, acts: nat -> Action, n: nat) {
    forall i: nat :: i >= n ==> CalmAt(tr, acts, i)
  }

  /** What a calm stretch keeps. */
  ghost predicate Rested(st: State, st': State) {
    && st'.store.models == st.store.models && st'.store.tenants == st.store.tenants
    && st'.store.services.Keys == st.store.services.Keys && st.store.jobs.Keys <= st'.store.jobs.Keys
    && forall k :: k in st.store.services ==> SameButStatus(st.store.services[k], st'.store.services[k])
  }

  lemma CalmActionRests(cap: Capacity, tr: nat -> State, acts: nat -> Action, n: nat)
    requires Runs(cap, tr, acts) && Calm(tr(n), acts(n))
    ensures Rested(tr(n), tr(n + 1))
  {
    assert Moves(cap, tr, acts, n);
    var st, st', a := tr(n), tr(n + 1), acts(n);
    if a.Step? {
      StepFrame(cap, st, a.k, a.reply, a.now);
      forall k | k in st.store.services ensures SameButStatus(st.store.services[k], st'.store.services[k]) {
        if k == a.k {
          OwnStepRests(cap, tr, acts, n);
        } else {
          assert Get(st.store.services, k) == Get(st'.store.services, k);
        }
      }
    }
  }

  /** A stale snapshot is stored only under the version it was read with, so it is not stale. */
  lemma OwnStepRests(cap: Capacity, tr: nat -> State, acts: nat -> Action, n: nat)
    requires Runs(cap, tr, acts) && acts(n).Step? && acts(n).k in tr(n).store.services
    ensures var k := acts(n).k;
            k in tr(n + 1).store.services && SameButStatus(tr(n).store.services[k], tr(n + 1).store.services[k])
  {
    assert Moves(cap, tr, acts, n);
    var k, st := acts(n).k, tr(n);
    StepWrites(cap, st, k, acts(n).reply, acts(n).now);
    StepFrame(cap, st, k, acts(n).reply, acts(n).now);
    if !st.passes[k].Begun? && st.store.services[k].version == st.passes[k].svc.version {
      EverythingIsRemembered(cap, tr, acts, n, k);
      var j: nat :| j <= n && Get(tr(j).store.services, k) == Some(st.passes[k].svc);
      VersionsIdentify(cap, tr, acts, j, n, k);
    }
  }

  lemma {:induction false} CalmRests(cap: Capacity, tr: nat -> State, acts: nat -> Action, n0: nat, i: nat, j: nat)
    requires Runs(cap, tr, acts) && EditsStop(tr, acts, n0) && n0 <= i <= j
    ensures Rested(tr(i), tr(j))
  {
    if i < j {
      CalmRests(cap, tr, acts, n0, i, j - 1);
      assert CalmAt(tr, acts, j - 1);
      CalmActionRests(cap, tr, acts, j - 1);
      RestedTwice(tr(i), tr(j - 1), tr(j));
    }
  }

  lemma RestedTwice(a: State, b: State, c: State)
    requires Rested(a, b) && Rested(b, c)
    ensures Rested(a, c)
  {
  }

  // ---------- informers ----------

  ghost predicate ServiceSince(tr: nat -> State, n: nat, i: nat, k: Key) {
    exists j: nat :: n <= j <= i && Get(tr(i).cache.services, k) == Get(tr(j).store.services, k)
  }

  ghost predicate ModelSince(tr: nat -> State, n: nat, i: nat, mk: Key) {
    exists j: nat :: n <= j <= i && Get(tr(i).cache.models, mk) == Get(tr(j).store.models, mk)
  }

  ghost predicate TenantSince(tr: nat -> State, n: nat, i: nat, ns: string) {
    exists j: nat :: n <= j <= i && Get(tr(i).cache.tenants, ns) == Get(tr(j).store.tenants, ns)
  }

  ghost predicate JobSince(tr: nat -> State, n: nat, i: nat, k: Key) {
    exists j: nat :: n <= j <= i && (k in tr(i).cache.jobs <==> k in tr(j).store.jobs)
  }

  /** In state `i` the cache shows nothing older than state `n`. */
  ghost predicate SeesSince(tr: nat -> State, n: nat, i: nat) {
    && (forall k :: ServiceSince(tr, n, i, k))
    && (forall mk :: ModelSince(tr, n, i, mk))
    && (forall ns :: TenantSince(tr, n, i, ns))
    && (forall k :: JobSince(tr, n, i, k))
  }

  ghost predicate SeesFrom(tr: nat -> State, n: nat, m: nat) {
    forall i: nat :: i >= m ==> SeesSince(tr, n, i)
  }

  ghost predicate SeesLater(tr: nat -> State, n: nat) {
    exists m: nat :: m >= n && SeesFrom(tr, n, m)
  }

  /** No delivery takes a cached Job away. */
  ghost predicate KeepsJobs(tr: nat -> State, acts: nat -> Action, m: nat) {
    forall i: nat :: i >= m ==> KeepsJobAt(tr, acts, i)
  }

  ghost predicate KeepsJobAt(tr: nat -> State, acts: nat -> Action, i: nat) {
    acts(i).DeliverJob? && acts(i).job.None? ==> acts(i).k !in tr(i).cache.jobs
  }

  /** Workers take queued keys and finish their passes, delays end, and informers catch up: whatever
      the moment, the cache in the end shows nothing older; and in the end no delivery takes a
      cached Job away. */
  ghost predicate Diligent(tr: nat -> State, acts: nat -> Action) {
    && WorkersGoOn(tr, acts)
    && (forall n: nat :: SeesLater(tr, n))
    && (exists m: nat :: KeepsJobs(tr, acts, m))
  }

  /** In a calm stretch a cache that shows nothing older than its beginning is fresh. */
  lemma CacheBecomesFresh(cap: Capacity, tr: nat -> State, acts: nat -> Action, n0: nat, m: nat, i: nat)
    requires Runs(cap, tr, acts) && EditsStop(tr, acts, n0) && SeesFrom(tr, n0, m) && n0 <= m <= i
    ensures CacheFresh(tr(i))
  {
    assert SeesSince(tr, n0, i);
    var st := tr(i);
    PrefixKeepsInv(cap, tr, acts, i);
    forall k | k in st.cache.services ensures Snapshot(st, k, st.cache.services[k]) {
      CachedServiceIsFresh(cap, tr, acts, n0, i, k);
    }
    forall mk ensures Get(st.cache.models, mk) == Get(st.store.models, mk) {
      assert ModelSince(tr, n0, i, mk);
      var j: nat :| n0 <= j <= i && Get(st.cache.models, mk) == Get(tr(j).store.models, mk);
      CalmRests(cap, tr, acts, n0, j, i);
    }
    SameMaps(st.cache.models, st.store.models);
    forall ns ensures Get(st.cache.tenants, ns) == Get(st.store.tenants, ns) {
      assert TenantSince(tr, n0, i, ns);
      var j: nat :| n0 <= j <= i && Get(st.cache.tenants, ns) == Get(tr(j).store.tenants, ns);
      CalmRests(cap, tr, acts, n0, j, i);
    }
    SameMaps(st.cache.tenants, st.store.tenants);
    forall k | k in st.cache.jobs ensures k in st.store.jobs {
      assert JobSince(tr, n0, i, k);
      var j: nat :| n0 <= j <= i && (k in st.cache.jobs <==> k in tr(j).store.jobs);
      CalmRests(cap, tr, acts, n0, j, i);
    }
  }

  lemma CachedServiceIsFresh(cap: Capacity, tr: nat -> State, acts: nat -> Action, n0: nat, i: nat, k: Key)
    requires Runs(cap, tr, acts) && EditsStop(tr, acts, n0) && n0 <= i && SeesSince(tr, n0, i)
             && k in tr(i).cache.services
    ensures Snapshot(tr(i), k, tr(i).cache.services[k])
  {
    assert ServiceSince(tr, n0, i, k);
    var j: nat :| n0 <= j <= i && Get(tr(i).cache.services, k) == Get(tr(j).store.services, k);
    CalmRests(cap, tr, acts, n0, j, i);
    PrefixKeepsInv(cap, tr, acts, i);
    var svc := tr(i).cache.services[k];
    assert svc == tr(j).store.services[k] && SameButStatus(svc, tr(i).store.services[k]);
    if svc.version == tr(i).store.services[k].version {
      VersionsIdentify(cap, tr, acts, j, i, k);
    }
  }

  lemma SameMaps<K(!new), V>(a: map<K, V>, b: map<K, V>)
    requires forall k :: Get(a, k) == Get(b, k)
    ensures a == b
  {
    assert forall k :: k in a <==> Get(a, k).Some?;
    assert forall k :: k in b <==> Get(b, k).Some?;
    assert forall k :: k in a ==> Get(a, k) == Some(a[k]);
    assert forall k :: k in b ==> Get(b, k) == Some(b[k]);
  }

  // ---------- passes become fresh ----------

  /** Only the pass on `k`. */
  function Only(st: State, k: Key): State
    requires k in st.passes
  {
    st.(passes := map[k := st.passes[k]])
  }

  /** A pass advances by itself. */
  lemma AdvancesAlone(cap: Capacity, st: State, k: Key, reply: Reply, now: nat)
    requires k in st.passes
    ensures var st', alone := Advance(cap, st, k, reply, now), Advance(cap, Only(st, k), k, reply, now);
            alone.store == st'.store && alone.clock == st'.clock && Get(alone.passes, k) == Get(st'.passes, k)
  {
    var o := Only(st, k);
    match st.passes[k] {
      case SawTenant(svc, model, tenant) =>
        StatusAdvance(cap, st, k, reply, now);
        StatusAdvance(cap, o, k, reply, now);
        var d := DepsOf(cap, svc, model, tenant);
        var prio := DerivedPriority(svc.spec, tenant);
        StatusAlone(st, o, k, svc, model, d, StatusUpToDate(svc.status, svc.generation, d, prio),
                    WantedStatus(svc.status, svc.generation, d, prio, now), reply);
      case JobTried(svc, _, jobErr) =>
        WorkloadAdvance(cap, st, k, reply, now);
        WorkloadAdvance(cap, o, k, reply, now);
        WorkloadAlone(st, o, k, svc, jobErr, WorkloadUpToDate(svc.status, jobErr),
                      WantedWorkload(svc.status, jobErr, now), reply);
      case p =>
        OtherAdvance(cap, st, k, reply, now);
        OtherAdvance(cap, o, k, reply, now);
        OtherAlone(st, o, k, p, reply);
    }
  }

  ghost predicate SameButPasses(st: State, o: State) {
    o == st.(passes := o.passes)
  }

  lemma StatusAlone(st: State, o: State, k: Key, svc: InferenceService, model: Option<Model>, d: Deps, upToDate: bool,
                    wanted: ServiceStatus, reply: Reply)
    requires SameButPasses(st, o) && (d.Ok() ==> model.Some?)
    ensures var a, b := AdvanceStatus(st, k, svc, model, d, upToDate, wanted, reply),
                        AdvanceStatus(o, k, svc, model, d, upToDate, wanted, reply);
            a.store == b.store && a.clock == b.clock && Get(a.passes, k) == Get(b.passes, k)
  {
  }

  lemma WorkloadAlone(st: State, o: State, k: Key, svc: InferenceService, jobErr: Option<Message>, upToDate: bool,
                      wanted: ServiceStatus, reply: Reply)
    requires SameButPasses(st, o)
    ensures var a, b := AdvanceWorkload(st, k, svc, jobErr, upToDate, wanted, reply),
                        AdvanceWorkload(o, k, svc, jobErr, upToDate, wanted, reply);
            a.store == b.store && a.clock == b.clock && Get(a.passes, k) == Get(b.passes, k)
  {
  }

  lemma OtherAlone(st: State, o: State, k: Key, p: Pass, reply: Reply)
    requires SameButPasses(st, o) && !p.SawTenant? && !p.JobTried?
    ensures var a, b := AdvanceOther(st, k, p, reply), AdvanceOther(o, k, p, reply);
            a.store == b.store && a.clock == b.clock && Get(a.passes, k) == Get(b.passes, k)
  {
  }

  /** With a fresh cache a fresh pass stays fresh. */
  lemma OwnStepStaysFresh(cap: Capacity, st: State, k: Key, reply: Reply, now: nat)
    requires CacheFresh(st) && k in st.passes && PassFresh(cap, st, k, st.passes[k])
    ensures var st' := Advance(cap, st, k, reply, now);
            k in st'.passes ==> PassFresh(cap, st', k, st'.passes[k])
  {
    var st' := Advance(cap, st, k, reply, now);
    var alone := Advance(cap, Only(st, k), k, reply, now);
    AdvancesAlone(cap, st, k, reply, now);
    OnlyIsFresh(cap, st, k);
    StepPays(cap, Only(st, k), k, reply, now);
    if k in st'.passes {
      assert Get(st'.passes, k) == Get(alone.passes, k);
      assert PassFresh(cap, alone, k, alone.passes[k]);
      FreshElsewhere(cap, alone, st', k, st'.passes[k]);
    }
  }

  lemma OnlyIsFresh(cap: Capacity, st: State, k: Key)
    requires CacheFresh(st) && k in st.passes && PassFresh(cap, st, k, st.passes[k])
    ensures Fresh(cap, Only(st, k))
  {
    FreshElsewhere(cap, st, Only(st, k), k, st.passes[k]);
  }

  /** Freshness of a pass depends on its service, the Models, the Tenants and the clock. */
  lemma FreshElsewhere(cap: Capacity, st: State, st': State, k: Key, p: Pass)
    requires PassFresh(cap, st, k, p) && st.clock <= st'.clock
    requires Get(st'.store.services, k) == Get(st.store.services, k)
    requires st'.store.models == st.store.models && st'.store.tenants == st.store.tenants
    ensures PassFresh(cap, st', k, p)
  {
    assert k in st.store.services <==> k in st'.store.services;
  }

  /** In a calm stretch with a fresh cache every pass that begins is fresh from then on. */
  lemma {:induction false} FreshSince(cap: Capacity, tr: nat -> State, acts: nat -> Action, n0: nat, m: nat,
                                      from: nat, i: nat, k: Key)
    requires Runs(cap, tr, acts) && EditsStop(tr, acts, n0) && SeesFrom(tr, n0, m) && n0 <= m <= from <= i
    requires k !in tr(from).passes
    ensures k in tr(i).passes ==> PassFresh(cap, tr(i), k, tr(i).passes[k])
  {
    if i > from && k in tr(i).passes {
      FreshSince(cap, tr, acts, n0, m, from, i - 1, k);
      CacheBecomesFresh(cap, tr, acts, n0, m, i - 1);
      ActionStaysFresh(cap, tr, acts, n0, i - 1, k);
    }
  }

  lemma ActionStaysFresh(cap: Capacity, tr: nat -> State, acts: nat -> Action, n0: nat, i: nat, k: Key)
    requires Runs(cap, tr, acts) && EditsStop(tr, acts, n0) && n0 <= i && CacheFresh(tr(i))
    requires k in tr(i + 1).passes && (k in tr(i).passes ==> PassFresh(cap, tr(i), k, tr(i).passes[k]))
    ensures PassFresh(cap, tr(i + 1), k, tr(i + 1).passes[k])
  {
    assert Moves(cap, tr, acts, i) && CalmAt(tr, acts, i);
    var st, a := tr(i), acts(i);
    if a.Step? && a.k == k {
      OwnStepStaysFresh(cap, st, k, a.reply, a.now);
    } else {
      OthersLeavePass(cap, st, a, k);
      CalmRests(cap, tr, acts, n0, i, i + 1);
      if a != Take(k) {
        OthersLeaveService(cap, st, a, k);
        FreshElsewhere(cap, st, tr(i + 1), k, st.passes[k]);
      }
    }
  }

  lemma OthersLeaveService(cap: Capacity, st: State, a: Action, k: Key)
    requires Enabled(st, a) && Calm(st, a) && !(a.Step? && a.k == k)
    ensures Get(Next(cap, st, a).store.services, k) == Get(st.store.services, k) && st.clock <= Next(cap, st, a).clock
  {
    if a.Step? {
      StepFrame(cap, st, a.k, a.reply, a.now);
    }
  }

  /** A pass in flight ends. */
  lemma {:induction false} FlightEnds(cap: Capacity, tr: nat -> State, acts: nat -> Action, k: Key, n: nat, next: nat)
    returns (end: nat)
    requires Runs(cap, tr, acts) && WorkersGoOn(tr, acts) && n <= next && k in tr(n).passes && TakesStep(acts, k, next)
    ensures end >= n && k !in tr(end).passes
    decreases Remaining(tr(n).passes[k]), next - n
  {
    FlightMoves(cap, tr, acts, k, n);
    if k !in tr(n + 1).passes {
      end := n + 1;
    } else if TakesStep(acts, k, n) {
      assert GoesOnFor(tr, acts, n + 1, k);
      var next' :| next' >= n + 1 && TakesStep(acts, k, next');
      end := FlightEnds(cap, tr, acts, k, n + 1, next');
    } else {
      end := FlightEnds(cap, tr, acts, k, n + 1, next);
    }
  }

  lemma FlightMoves(cap: Capacity, tr: nat -> State, acts: nat -> Action, k: Key, n: nat)
    requires Runs(cap, tr, acts) && k in tr(n).passes
    ensures k in tr(n + 1).passes ==>
              if TakesStep(acts, k, n) then Remaining(tr(n + 1).passes[k]) < Remaining(tr(n).passes[k])
              else Get(tr(n + 1).passes, k) == Get(tr(n).passes, k)
  {
    assert Moves(cap, tr, acts, n);
    if TakesStep(acts, k, n) {
      AnyStepShortens(cap, tr(n), k, acts(n).reply, acts(n).now);
    } else {
      OthersLeavePass(cap, tr(n), acts(n), k);
    }
  }

  lemma AnyStepShortens(cap: Capacity, st: State, k: Key, reply: Reply, now: nat)
    requires k in st.passes
    ensures var st' := Advance(cap, st, k, reply, now);
            k in st'.passes ==> Remaining(st'.passes[k]) < Remaining(st.passes[k])
  {
    Progress(cap, st, k, Calls(reply, reply, reply, reply, reply, reply, reply, now, now));
  }

  ghost predicate EndsBy(tr: nat -> State, k: Key, n: nat, end: nat) {
    exists e: nat :: n <= e <= end && k !in tr(e).passes
  }

  /** Finitely many passes have all ended at some point. */
  lemma {:induction false} FlightsEnd(cap: Capacity, tr: nat -> State, acts: nat -> Action, ks: set<Key>, n: nat)
    returns (end: nat)
    requires Runs(cap, tr, acts) && WorkersGoOn(tr, acts)
    ensures end >= n && forall k :: k in ks ==> EndsBy(tr, k, n, end)
    decreases |ks|
  {
    end := n;
    if ks != {} {
      var k :| k in ks;
      var others := FlightsEnd(cap, tr, acts, ks - {k}, n);
      var e := n;
      if k in tr(n).passes {
        assert GoesOnFor(tr, acts, n, k);
        var next :| next >= n && TakesStep(acts, k, next);
        e := FlightEnds(cap, tr, acts, k, n, next);
      }
      end := if others >= e then others else e;
      forall j | j in ks ensures EndsBy(tr, j, n, end) {
        if j == k {
          assert n <= e <= end && k !in tr(e).passes;
        } else {
          assert EndsBy(tr, j, n, others);
        }
      }
    }
  }

  // ---------- the loop becomes a frozen run ----------

  /** From some point on everything is fresh. */
  lemma LoopBecomesFresh(cap: Capacity, tr: nat -> State, acts: nat -> Action, n0: nat) returns (m: nat, tail: nat)
    requires Runs(cap, tr, acts) && Diligent(tr, acts) && EditsStop(tr, acts, n0)
    ensures n0 <= m <= tail && SeesFrom(tr, n0, m) && KeepsJobs(tr, acts, tail) && Fresh(cap, tr(tail))
  {
    assert SeesLater(tr, n0);
    m :| m >= n0 && SeesFrom(tr, n0, m);
    var kept: nat :| KeepsJobs(tr, acts, kept);
    var ks := tr(m).passes.Keys;
    var end := FlightsEnd(cap, tr, acts, ks, m);
    tail := if end >= kept then end else kept;
    CacheBecomesFresh(cap, tr, acts, n0, m, tail);
    forall k | k in tr(tail).passes ensures PassFresh(cap, tr(tail), k, tr(tail).passes[k]) {
      if k in ks {
        assert EndsBy(tr, k, m, end);
        var e: nat :| m <= e <= end && k !in tr(e).passes;
        FreshSince(cap, tr, acts, n0, m, e, tail, k);
      } else {
        FreshSince(cap, tr, acts, n0, m, m, tail, k);
      }
    }
  }

  /** From then on every action is one of a frozen run. */
  lemma CalmIsFrozen(cap: Capacity, tr: nat -> State, acts: nat -> Action, n0: nat, m: nat, tail: nat, i: nat)
    requires Runs(cap, tr, acts) && EditsStop(tr, acts, n0) && SeesFrom(tr, n0, m) && KeepsJobs(tr, acts, tail)
    requires n0 <= m <= tail <= i
    ensures Frozen(tr(i), acts(i)) && Answered(acts(i))
  {
    CacheStaysFresh(cap, tr, acts, n0, m, i);
    assert CalmAt(tr, acts, i) && KeepsJobAt(tr, acts, i);
    DeliveryIsFrozen(cap, tr(i), acts(i));
  }

  lemma CacheStaysFresh(cap: Capacity, tr: nat -> State, acts: nat -> Action, n0: nat, m: nat, i: nat)
    requires Runs(cap, tr, acts) && EditsStop(tr, acts, n0) && SeesFrom(tr, n0, m) && n0 <= m <= i
    ensures CacheFresh(tr(i)) && Enabled(tr(i), acts(i)) && CacheFresh(Next(cap, tr(i), acts(i)))
  {
    assert Moves(cap, tr, acts, i);
    CacheBecomesFresh(cap, tr, acts, n0, m, i);
    CacheBecomesFresh(cap, tr, acts, n0, m, i + 1);
  }

  lemma DeliveryIsFrozen(cap: Capacity, st: State, a: Action)
    requires Enabled(st, a) && Calm(st, a) && CacheFresh(st) && CacheFresh(Next(cap, st, a))
    requires a.DeliverJob? && a.job.None? ==> a.k !in st.cache.jobs
    ensures Frozen(st, a)
  {
    var st' := Next(cap, st, a);
    match a {
      case DeliverService(k, v) =>
        assert Get(st'.cache.services, k) == v;
        if v.Some? { assert Snapshot(st', k, st'.cache.services[k]); }
      case DeliverModel(mk, v) => assert Get(st'.cache.models, mk) == v;
      case DeliverTenant(ns, v) => assert Get(st'.cache.tenants, ns) == v;
      case DeliverJob(k, v) => assert Get(st'.cache.jobs, k) == v;
      case _ =>
    }
  }

  /** The rest of a run, from state `n` on. */
  function After(tr: nat -> State, n: nat): nat -> State {
    (i: nat) => tr(n + i)
  }

  function ActsAfter(acts: nat -> Action, n: nat): nat -> Action {
    (i: nat) => acts(n + i)
  }

  lemma RestIsEndless(cap: Capacity, tr: nat -> State, acts: nat -> Action, n0: nat, m: nat, tail: nat)
    requires Runs(cap, tr, acts) && EditsStop(tr, acts, n0) && SeesFrom(tr, n0, m) && KeepsJobs(tr, acts, tail)
    requires n0 <= m <= tail && Fresh(cap, tr(tail))
    ensures Endless(cap, After(tr, tail), ActsAfter(acts, tail))
  {
    var tr', acts' := After(tr, tail), ActsAfter(acts, tail);
    PrefixKeepsInv(cap, tr, acts, tail);
    forall i: nat ensures GoesOn(cap, tr', acts', i) {
      CalmIsFrozen(cap, tr, acts, n0, m, tail, tail + i);
      assert Moves(cap, tr, acts, tail + i);
      assert tr'(i + 1) == tr(tail + i + 1);
    }
  }

  lemma WorkersGoOnLater(tr: nat -> State, acts: nat -> Action, tail: nat, n: nat, k: Key)
    requires WorkersGoOn(tr, acts)
    ensures GoesOnFor(After(tr, tail), ActsAfter(acts, tail), n, k)
  {
    var tr', acts' := After(tr, tail), ActsAfter(acts, tail);
    assert GoesOnFor(tr, acts, tail + n, k);
    if k in tr'(n).passes {
      var m: nat :| m >= tail + n && TakesStep(acts, k, m);
      assert TakesStep(acts', k, m - tail);
    }
    if k in tr'(n).dirty {
      var m: nat :| m >= tail + n && acts(m) == Take(k);
      assert acts'(m - tail) == Take(k);
    }
    if k in tr'(n).delayed {
      var m: nat :| m >= tail + n && acts(m) == Fire(k);
      assert acts'(m - tail) == Fire(k);
    }
  }

  lemma RestIsFair(cap: Capacity, tr: nat -> State, acts: nat -> Action, tail: nat)
    requires Diligent(tr, acts)
    ensures Fair(After(tr, tail), ActsAfter(acts, tail))
  {
    var tr', acts' := After(tr, tail), ActsAfter(acts, tail);
    forall n: nat, k: Key ensures GoesOnFor(tr', acts', n, k) {
      WorkersGoOnLater(tr, acts, tail, n, k);
    }
    forall n: nat, k: Key | RestsFrom(tr', n) ensures CatchesUp(tr', k, n) {
      RestIsSeen(tr, acts, tail, n, k);
    }
  }

  lemma ServiceSeenAtRest(tr: nat -> State, tail: nat, n: nat, i: nat, k: Key)
    requires RestsFrom(After(tr, tail), n) && i >= n && ServiceSince(tr, tail + n, tail + i, k)
    ensures Get(tr(tail + i).cache.services, k) == Get(tr(tail + i).store.services, k)
  {
    var j: nat :| tail + n <= j <= tail + i && Get(tr(tail + i).cache.services, k) == Get(tr(j).store.services, k);
    SameStore(After(tr, tail), n, i, j - tail);
  }

  lemma JobSeenAtRest(tr: nat -> State, tail: nat, n: nat, i: nat, k: Key)
    requires RestsFrom(After(tr, tail), n) && i >= n && JobSince(tr, tail + n, tail + i, k)
    ensures k in tr(tail + i).cache.jobs <==> k in tr(tail + i).store.jobs
  {
    var j: nat :| tail + n <= j <= tail + i && (k in tr(tail + i).cache.jobs <==> k in tr(j).store.jobs);
    SameStore(After(tr, tail), n, i, j - tail);
  }

  lemma RestIsSeen(tr: nat -> State, acts: nat -> Action, tail: nat, n: nat, k: Key)
    requires Diligent(tr, acts) && RestsFrom(After(tr, tail), n)
    ensures CatchesUp(After(tr, tail), k, n)
  {
    var tr' := After(tr, tail);
    assert SeesLater(tr, tail + n);
    var m: nat :| m >= tail + n && SeesFrom(tr, tail + n, m);
    forall i: nat | i >= m - tail ensures CaughtUp(tr'(i), k) {
      assert SeesSince(tr, tail + n, tail + i);
      assert ServiceSince(tr, tail + n, tail + i, k) && JobSince(tr, tail + n, tail + i, k);
      ServiceSeenAtRest(tr, tail, n, i, k);
      JobSeenAtRest(tr, tail, n, i, k);
    }
    assert CaughtUpFrom(tr', k, m - tail);
  }

  lemma ConvergedLater(cap: Capacity, tr: nat -> State, tail: nat, n: nat)
    requires ConvergedAt(cap, After(tr, tail), n)
    ensures ConvergedAt(cap, tr, tail + n)
  {
    var tr' := After(tr, tail);
    assert tr'(n) == tr(tail + n);
    forall j: nat | j >= tail + n ensures SameButJobContents(tr(tail + n), tr(j)) {
      assert SameButJobContents(tr'(n), tr'(j - tail));
    }
    var later := tail + n;
    forall k | NeedsNoDelay(cap, tr'(n), k) ensures IsDropped(tr, k, later) {
      assert IsDropped(tr', k, n);
      var m: nat :| m >= n && DroppedFrom(tr', k, m);
      DroppedLater(tr, tail, m, k);
    }
  }

  lemma DroppedLater(tr: nat -> State, tail: nat, m: nat, k: Key)
    requires DroppedFrom(After(tr, tail), k, m)
    ensures DroppedFrom(tr, k, tail + m)
  {
    forall j: nat | j >= tail + m ensures k !in tr(j).delayed {
      assert k !in After(tr, tail)(j - tail).delayed;
    }
  }

  /** Convergence: in every endless run of the operator from its start, with any edits, failures,
      conflicts, stale deliveries and restarts before, if edits stop, calls get answered, workers
      are diligent and informers catch up, then from some point on the operator writes nothing and
      every service that can run is settled: Phase Ready for its generation, all dependency
      conditions and WorkloadReady True; and a key whose service is gone or can run is in the end
      not requeued any more. */
  lemma LoopConverges(cap: Capacity, tr: nat -> State, acts: nat -> Action, n0: nat)
    requires Runs(cap, tr, acts) && Diligent(tr, acts) && EditsStop(tr, acts, n0)
    ensures exists n: nat :: n >= n0 && ConvergedAt(cap, tr, n)
  {
    var m, tail := LoopBecomesFresh(cap, tr, acts, n0);
    RestIsEndless(cap, tr, acts, n0, m, tail);
    RestIsFair(cap, tr, acts, tail);
    var tr', acts' := After(tr, tail), ActsAfter(acts, tail);
    FrozenRunsConverge(cap, tr', acts');
    var n: nat :| ConvergedAt(cap, tr', n);
    ConvergedLater(cap, tr, tail, n);
    assert ConvergedAt(cap, tr, tail + n);
  }
}
