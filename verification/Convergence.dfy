/** Convergence of frozen runs: with every call answered the control loop comes to rest, and every
    service that can run ends up settled. */
module Convergence {
  import opened Resources
  import opened Conditions
  import opened ServiceStatusRules
  import opened ControlLoop
  import opened WriteBound
  import opened ReconcilePass
  import opened SettledOrQueued
  import JobSafety

  // ---------- endless frozen runs ----------

  ghost predicate GoesOn(cap: Capacity, tr: nat -> State, acts: nat -> Action, i: nat) {
    Frozen(tr(i), acts(i)) && Answered(acts(i)) && tr(i + 1) == Next(cap, tr(i), acts(i))
  }

  /** A run that continues from a state of an earlier run in which everything has been delivered,
      frozen and with every call answered. */
  ghost predicate Endless(cap: Capacity, tr: nat -> State, acts: nat -> Action) {
    && Fresh(cap, tr(0)) && Inv(tr(0)) && OwnKey(tr(0))
    && forall i: nat :: GoesOn(cap, tr, acts, i)
  }

  ghost predicate TakesStep(acts: nat -> Action, k: Key, m: nat) {
    acts(m).Step? && acts(m).k == k
  }

  /** From `m` on the operator writes nothing: the store rests, but for updates of stored Jobs. */
  ghost predicate RestsFrom(tr: nat -> State, m: nat) {
    forall j: nat :: j >= m ==> SameButJobContents(tr(m), tr(j))
  }

  ghost predicate CaughtUp(st: State, k: Key) {
    && Get(st.cache.services, k) == Get(st.store.services, k)
    && (k in st.cache.jobs <==> k in st.store.jobs)
  }

  /** From `m` on the cache shows what the store holds of a service, and whether its Job is there. */
  ghost predicate CaughtUpFrom(tr: nat -> State, k: Key, m: nat) {
    forall j: nat :: j >= m ==> CaughtUp(tr(j), k)
  }

  ghost predicate StepsLater(acts: nat -> Action, k: Key, n: nat) {
    exists m: nat :: m >= n && TakesStep(acts, k, m)
  }

  ghost predicate TakenLater(acts: nat -> Action, k: Key, n: nat) {
    exists m: nat :: m >= n && acts(m) == Take(k)
  }

  ghost predicate FiredLater(acts: nat -> Action, k: Key, n: nat) {
    exists m: nat :: m >= n && acts(m) == Fire(k)
  }

  ghost predicate CatchesUp(tr: nat -> State, k: Key, n: nat) {
    exists m: nat :: m >= n && CaughtUpFrom(tr, k, m)
  }

  /** The pass on `k` in state `n` goes on, if there is one; `k` is taken, if it is queued; and its
      delay ends, if it is delayed. */
  ghost predicate GoesOnFor(tr: nat -> State, acts: nat -> Action, n: nat, k: Key) {
    && (k in tr(n).passes ==> StepsLater(acts, k, n))
    && (k in tr(n).dirty ==> TakenLater(acts, k, n))
    && (k in tr(n).delayed ==> FiredLater(acts, k, n))
  }

  ghost predicate WorkersGoOn(tr: nat -> State, acts: nat -> Action) {
    forall n: nat, k: Key :: GoesOnFor(tr, acts, n, k)
  }

  /** Workers take queued keys and finish their passes, delays end, and informers catch up with a
      store that rests. */
  ghost predicate Fair(tr: nat -> State, acts: nat -> Action) {
    && WorkersGoOn(tr, acts)
    && (forall n: nat, k: Key :: RestsFrom(tr, n) ==> CatchesUp(tr, k, n))
  }

  lemma {:induction false} EndlessKeeps(cap: Capacity, tr: nat -> State, acts: nat -> Action, n: nat)
    requires Endless(cap, tr, acts)
    ensures Fresh(cap, tr(n)) && Inv(tr(n)) && OwnKey(tr(n))
  {
    if n > 0 {
      EndlessKeeps(cap, tr, acts, n - 1);
      var st, a := tr(n - 1), acts(n - 1);
      assert GoesOn(cap, tr, acts, n - 1);
      ActionTotal(cap, st, a);
      OwnKeyKept(cap, st, a);
      if a.Step? {
        StepKeepsInv(cap, st, a.k, a.reply, a.now);
      } else if a.DeliverModel? {
        ModelDeliveryKeepsInv(cap, st, a.mk, a.model);
      } else {
        EnvironmentKeepsInv(cap, st, a);
      }
    }
  }

  // ---------- the store comes to rest ----------

  lemma {:induction false} TotalFalls(cap: Capacity, tr: nat -> State, acts: nat -> Action, i: nat, n: nat)
    requires Endless(cap, tr, acts) && i <= n
    ensures Total(cap, tr(n)) <= Total(cap, tr(i))
  {
    if i < n {
      TotalFalls(cap, tr, acts, i, n - 1);
      EndlessKeeps(cap, tr, acts, n - 1);
      assert GoesOn(cap, tr, acts, n - 1);
      ActionTotal(cap, tr(n - 1), acts(n - 1));
    }
  }

  ghost predicate WritesAt(tr: nat -> State, acts: nat -> Action, m: nat) {
    WriteOf(tr(m), acts(m), tr(m + 1)) > 0
  }

  lemma WriteCosts(cap: Capacity, tr: nat -> State, acts: nat -> Action, i: nat, m: nat)
    requires Endless(cap, tr, acts) && i <= m && WritesAt(tr, acts, m)
    ensures Total(cap, tr(m + 1)) < Total(cap, tr(i))
  {
    TotalFalls(cap, tr, acts, i, m);
    EndlessKeeps(cap, tr, acts, m);
    assert GoesOn(cap, tr, acts, m);
    ActionTotal(cap, tr(m), acts(m));
  }

  lemma {:induction false} Unwritten(cap: Capacity, tr: nat -> State, acts: nat -> Action, i: nat, n: nat)
    requires Endless(cap, tr, acts)
    requires i <= n && forall m: nat :: m >= i ==> !WritesAt(tr, acts, m)
    ensures SameButJobContents(tr(i), tr(n))
  {
    if i < n {
      Unwritten(cap, tr, acts, i, n - 1);
      assert !WritesAt(tr, acts, n - 1);
      EndlessKeeps(cap, tr, acts, n - 1);
      assert GoesOn(cap, tr, acts, n - 1);
      if !acts(n - 1).Step? {
        IdleActionPays(cap, tr(n - 1), acts(n - 1), Key("", ""));
      }
    }
  }

  /** Writes use up the potential, so there is a last one. */
  lemma {:induction false} StoreComesToRest(cap: Capacity, tr: nat -> State, acts: nat -> Action, i: nat)
    returns (rest: nat)
    requires Endless(cap, tr, acts)
    ensures rest >= i && RestsFrom(tr, rest)
    decreases Total(cap, tr(i))
  {
    if m: nat :| m >= i && WritesAt(tr, acts, m) {
      WriteCosts(cap, tr, acts, i, m);
      rest := StoreComesToRest(cap, tr, acts, m + 1);
    } else {
      rest := i;
      forall j: nat | j >= i ensures SameButJobContents(tr(i), tr(j)) {
        Unwritten(cap, tr, acts, i, j);
      }
    }
  }

  // ---------- a pass against a store at rest ----------

  /** The pass has only seen what the store holds, and all it found is recorded already. */
  ghost predicate OnTrack(cap: Capacity, st: State, k: Key, p: Pass) {
    && (!p.Begun? ==> Get(st.store.services, k) == Some(p.svc))
    && (p.StatusDone? || p.JobAbsent? || p.JobTried? ==> k in st.store.services && StatusCurrent(cap, st, k))
    && (p.JobAbsent? ==> k !in st.store.jobs)
    && (p.JobTried? ==> p.jobErr.None? && k in st.store.jobs)
  }

  /** Nothing is left to write for the service, if it exists. */
  ghost predicate Finished(cap: Capacity, st: State, k: Key) {
    SmoothPotential(cap, st, k) == 0
  }

  lemma StatusOnTrack(cap: Capacity, st: State, k: Key, svc: InferenceService, model: Option<Model>, d: Deps,
                      upToDate: bool, wanted: ServiceStatus)
    requires Snapshot(st, k, svc) && Get(st.store.services, k) == Some(svc) && (d.Ok() ==> model.Some?)
    requires d == Verdict(cap, st, k) && (upToDate <==> StatusCurrent(cap, st, k))
    ensures var st' := AdvanceStatus(st, k, svc, model, d, upToDate, wanted, Done);
            SameButJobContents(st, st') ==>
              if k in st'.passes then OnTrack(cap, st', k, st'.passes[k]) else Finished(cap, st', k)
  {
    if !upToDate {
      PutTicks(st, k, svc, wanted, Done);
    }
  }

  lemma WorkloadOnTrack(cap: Capacity, st: State, k: Key, svc: InferenceService, upToDate: bool, wanted: ServiceStatus)
    requires Snapshot(st, k, svc) && Get(st.store.services, k) == Some(svc) && k in st.store.jobs
    requires StatusCurrent(cap, st, k) && (upToDate <==> WorkloadTrue(st, k))
    ensures var st' := AdvanceWorkload(st, k, svc, None, upToDate, wanted, Done);
            SameButJobContents(st, st') ==> k !in st'.passes && Finished(cap, st', k)
  {
    if !upToDate {
      PutTicks(st, k, svc, wanted, Done);
    }
  }

  lemma OtherOnTrack(cap: Capacity, st: State, k: Key, p: Pass)
    requires OnTrack(cap, st, k, p) && !p.SawTenant? && !p.JobTried? && (!p.Begun? ==> p.svc.key == k)
    requires CaughtUp(st, k)
    ensures var st' := AdvanceOther(st, k, p, Done);
            SameButJobContents(st, st') ==>
              if k in st'.passes then OnTrack(cap, st', k, st'.passes[k]) else Finished(cap, st', k)
  {
    var st' := AdvanceOther(st, k, p, Done);
    if p.JobAbsent? {
      assert k in st'.store.jobs;
    }
  }

  /** One step that does not write keeps the pass on track, or ends it with nothing left to write. */
  lemma StepOnTrack(cap: Capacity, st: State, k: Key, now: nat)
    requires Fresh(cap, st) && k in st.passes && OnTrack(cap, st, k, st.passes[k])
    requires CaughtUp(st, k)
    ensures var st' := Advance(cap, st, k, Done, now);
            SameButJobContents(st, st') ==>
              if k in st'.passes then OnTrack(cap, st', k, st'.passes[k]) else Finished(cap, st', k)
  {
    assert PassFresh(cap, st, k, st.passes[k]);
    match st.passes[k] {
      case SawTenant(svc, model, tenant) =>
        StatusAdvance(cap, st, k, Done, now);
        var d := DepsOf(cap, svc, model, tenant);
        var prio := DerivedPriority(svc.spec, tenant);
        assert d == Verdict(cap, st, k) && prio == Rank(st, k);
        StatusOnTrack(cap, st, k, svc, model, d, StatusUpToDate(svc.status, svc.generation, d, prio),
                      WantedStatus(svc.status, svc.generation, d, prio, now));
      case JobTried(svc, _, jobErr) =>
        WorkloadAdvance(cap, st, k, Done, now);
        WorkloadOnTrack(cap, st, k, svc, WorkloadUpToDate(svc.status, None), WantedWorkload(svc.status, None, now));
      case p =>
        OtherAdvance(cap, st, k, Done, now);
        OtherOnTrack(cap, st, k, p);
    }
  }

  lemma StepShortens(cap: Capacity, st: State, k: Key, now: nat)
    requires k in st.passes
    ensures var st' := Advance(cap, st, k, Done, now);
            k in st'.passes ==> Remaining(st'.passes[k]) < Remaining(st.passes[k])
  {
    Progress(cap, st, k, Calls(Done, Done, Done, Done, Done, Done, Done, now, now));
  }

  /** The store rests and the cache shows it, as far as this key goes. */
  ghost predicate Still(tr: nat -> State, k: Key, m: nat) {
    RestsFrom(tr, m) && CaughtUpFrom(tr, k, m)
  }

  lemma SameStore(tr: nat -> State, m: nat, i: nat, j: nat)
    requires RestsFrom(tr, m) && m <= i && m <= j
    ensures SameButJobContents(tr(i), tr(j))
  {
    assert SameButJobContents(tr(m), tr(i)) && SameButJobContents(tr(m), tr(j));
  }

  /** The next action moves the pass, which gets shorter, or leaves it where it is. */
  lemma PassMoves(cap: Capacity, tr: nat -> State, acts: nat -> Action, k: Key, rest: nat, n: nat, track: bool)
    requires Endless(cap, tr, acts) && Still(tr, k, rest) && rest <= n && k in tr(n).passes
    requires track ==> OnTrack(cap, tr(n), k, tr(n).passes[k])
    ensures if TakesStep(acts, k, n)
            then k in tr(n + 1).passes ==> Remaining(tr(n + 1).passes[k]) < Remaining(tr(n).passes[k])
            else Get(tr(n + 1).passes, k) == Get(tr(n).passes, k)
    ensures track ==> if k in tr(n + 1).passes then OnTrack(cap, tr(n + 1), k, tr(n + 1).passes[k])
                      else Finished(cap, tr(n + 1), k)
  {
    EndlessKeeps(cap, tr, acts, n);
    assert GoesOn(cap, tr, acts, n);
    SameStore(tr, rest, n, n + 1);
    var st, a := tr(n), acts(n);
    if TakesStep(acts, k, n) {
      StepShortens(cap, st, k, a.now);
      if track {
        StepOnTrack(cap, st, k, a.now);
      }
    } else {
      PassWaits(cap, st, a, k);
      if track {
        TrackStays(cap, st, tr(n + 1), k, st.passes[k]);
      }
    }
  }

  /** A pass in flight at `n` ends; one that is on track leaves nothing to write. */
  lemma {:induction false} PassEnds(cap: Capacity, tr: nat -> State, acts: nat -> Action, k: Key, rest: nat, n: nat,
                                    next: nat, track: bool)
    returns (end: nat)
    requires Endless(cap, tr, acts) && Fair(tr, acts) && Still(tr, k, rest) && rest <= n <= next
    requires k in tr(n).passes && TakesStep(acts, k, next)
    requires track ==> OnTrack(cap, tr(n), k, tr(n).passes[k])
    ensures end >= n && k !in tr(end).passes && (track ==> Finished(cap, tr(end), k))
    decreases Remaining(tr(n).passes[k]), next - n
  {
    PassMoves(cap, tr, acts, k, rest, n, track);
    if TakesStep(acts, k, n) {
      if k in tr(n + 1).passes {
        assert GoesOnFor(tr, acts, n + 1, k);
        var next' :| next' >= n + 1 && TakesStep(acts, k, next');
        end := PassEnds(cap, tr, acts, k, rest, n + 1, next', track);
      } else {
        end := n + 1;
      }
    } else {
      end := PassEnds(cap, tr, acts, k, rest, n + 1, next, track);
    }
  }

  lemma PassWaits(cap: Capacity, st: State, a: Action, k: Key)
    requires Frozen(st, a) && k in st.passes && !(a.Step? && a.k == k)
    ensures Get(Next(cap, st, a).passes, k) == Get(st.passes, k)
  {
    JobSafety.OthersLeavePass(cap, st, a, k);
    if a.Step? {
      StepFrame(cap, st, a.k, a.reply, a.now);
    }
  }

  lemma TrackStays(cap: Capacity, st: State, st': State, k: Key, p: Pass)
    requires SameButJobContents(st, st') && OnTrack(cap, st, k, p)
    ensures OnTrack(cap, st', k, p)
  {
  }

  // ---------- every service ends at rest ----------

  ghost predicate Settled(svc: InferenceService) {
    DependenciesSettled(svc) && IsTrue(svc.status.conditions, WorkloadReady)
  }

  /** A pass that starts against a store at rest ends with nothing left to write. */
  lemma TakenPassFinishes(cap: Capacity, tr: nat -> State, acts: nat -> Action, k: Key, rest: nat, n: nat)
    requires Endless(cap, tr, acts) && Fair(tr, acts) && Still(tr, k, rest) && n >= rest && acts(n) == Take(k)
    ensures Finished(cap, tr(rest), k)
  {
    assert GoesOn(cap, tr, acts, n);
    assert tr(n + 1).passes[k] == Begun;
    assert GoesOnFor(tr, acts, n + 1, k);
    var next :| next >= n + 1 && TakesStep(acts, k, next);
    var end := PassEnds(cap, tr, acts, k, rest, n + 1, next, true);
    SameStore(tr, rest, rest, end);
    SmoothElsewhere(cap, tr(rest), tr(end), k);
  }

  /** A key that is waiting is taken. */
  lemma WaitingIsTaken(cap: Capacity, tr: nat -> State, acts: nat -> Action, k: Key, n: nat) returns (m: nat)
    requires Endless(cap, tr, acts) && Fair(tr, acts) && Waiting(tr(n), k)
    ensures m >= n && acts(m) == Take(k)
  {
    if k in tr(n).dirty {
      assert GoesOnFor(tr, acts, n, k);
      m :| m >= n && acts(m) == Take(k);
    } else {
      assert GoesOnFor(tr, acts, n, k);
      var f: nat :| f >= n && acts(f) == Fire(k);
      assert GoesOn(cap, tr, acts, f);
      assert k in tr(f + 1).dirty && GoesOnFor(tr, acts, f + 1, k);
      m :| m >= f + 1 && acts(m) == Take(k);
    }
  }

  /** A service of a store at rest has nothing left to write, or has settled before and is not
      looked at any more. */
  lemma ServiceComesToRest(cap: Capacity, tr: nat -> State, acts: nat -> Action, k: Key, rest: nat)
    requires Endless(cap, tr, acts) && Fair(tr, acts) && Still(tr, k, rest) && k in tr(rest).store.services
    ensures Finished(cap, tr(rest), k) || Settled(tr(rest).store.services[k])
  {
    var end := rest;
    if k in tr(rest).passes {
      assert GoesOnFor(tr, acts, rest, k);
      var next :| next >= rest && TakesStep(acts, k, next);
      end := PassEnds(cap, tr, acts, k, rest, rest, next, false);
    }
    if Waiting(tr(end), k) {
      var m := WaitingIsTaken(cap, tr, acts, k, end);
      TakenPassFinishes(cap, tr, acts, k, rest, m);
    } else {
      EndlessKeeps(cap, tr, acts, end);
      SameStore(tr, rest, rest, end);
      assert Accounted(tr(end), k);
      assert Get(tr(end).cache.services, k) == Some(tr(end).store.services[k]);
    }
  }

  lemma FinishedIsSettled(cap: Capacity, st: State, k: Key)
    requires Fresh(cap, st) && k in st.store.services && Finished(cap, st, k) && Verdict(cap, st, k).Ok()
    ensures Settled(st.store.services[k])
  {
    var svc := st.store.services[k];
    assert Snapshot(st, k, svc);
    UpToDateIsTruthful(svc.status, svc.generation, Verdict(cap, st, k), Rank(st, k));
  }

  // ---------- the queue drains ----------

  /** The service is gone, or it can run. */
  predicate NeedsNoDelay(cap: Capacity, st: State, k: Key) {
    k in st.store.services ==> Verdict(cap, st, k).Ok()
  }

  ghost predicate DroppedFrom(tr: nat -> State, k: Key, n: nat) {
    forall j: nat :: j >= n ==> k !in tr(j).delayed
  }

  /** A step that is on track and writes nothing does not make its key wait. */
  lemma StepDoesNotDelay(cap: Capacity, st: State, k: Key, now: nat)
    requires Fresh(cap, st) && k in st.passes && OnTrack(cap, st, k, st.passes[k])
    requires CaughtUp(st, k) && NeedsNoDelay(cap, st, k) && SameButJobContents(st, Advance(cap, st, k, Done, now))
    ensures k in Advance(cap, st, k, Done, now).delayed ==> k in st.delayed
  {
    assert PassFresh(cap, st, k, st.passes[k]);
    match st.passes[k] {
      case SawTenant(svc, model, tenant) =>
        StatusAdvance(cap, st, k, Done, now);
        var d := DepsOf(cap, svc, model, tenant);
        var prio := DerivedPriority(svc.spec, tenant);
        assert d == Verdict(cap, st, k);
        StatusDoesNotDelay(st, k, svc, model, d, StatusUpToDate(svc.status, svc.generation, d, prio),
                           WantedStatus(svc.status, svc.generation, d, prio, now));
      case JobTried(svc, _, jobErr) =>
        WorkloadAdvance(cap, st, k, Done, now);
        WorkloadDoesNotDelay(st, k, svc, WorkloadUpToDate(svc.status, None), WantedWorkload(svc.status, None, now));
      case p => OtherAdvance(cap, st, k, Done, now);
    }
  }

  lemma StatusDoesNotDelay(st: State, k: Key, svc: InferenceService, model: Option<Model>, d: Deps,
                           upToDate: bool, wanted: ServiceStatus)
    requires Get(st.store.services, k) == Some(svc) && d.Ok() && model.Some?
    ensures k in AdvanceStatus(st, k, svc, model, d, upToDate, wanted, Done).delayed ==> k in st.delayed
  {
  }

  lemma WorkloadDoesNotDelay(st: State, k: Key, svc: InferenceService, upToDate: bool, wanted: ServiceStatus)
    requires Get(st.store.services, k) == Some(svc)
    ensures k in AdvanceWorkload(st, k, svc, None, upToDate, wanted, Done).delayed ==> k in st.delayed
  {
  }

  /** Once no pass on `k` is older than the rest of the store, its passes are on track and none of
      them makes it wait. */
  lemma NextDoesNotDelay(cap: Capacity, tr: nat -> State, acts: nat -> Action, k: Key, rest: nat, j: nat)
    requires Endless(cap, tr, acts) && Still(tr, k, rest) && rest <= j && NeedsNoDelay(cap, tr(rest), k)
    requires k in tr(j).passes ==> OnTrack(cap, tr(j), k, tr(j).passes[k])
    ensures k in tr(j + 1).passes ==> OnTrack(cap, tr(j + 1), k, tr(j + 1).passes[k])
    ensures k in tr(j + 1).delayed ==> k in tr(j).delayed
    ensures acts(j) == Fire(k) ==> k !in tr(j + 1).delayed
  {
    EndlessKeeps(cap, tr, acts, j);
    assert GoesOn(cap, tr, acts, j);
    SameStore(tr, rest, j, j + 1);
    SameStore(tr, rest, rest, j);
    if k in tr(j).passes {
      PassMoves(cap, tr, acts, k, rest, j, true);
    }
    if TakesStep(acts, k, j) {
      StepDoesNotDelay(cap, tr(j), k, acts(j).now);
    } else if acts(j).Step? {
      StepFrame(cap, tr(j), acts(j).k, acts(j).reply, acts(j).now);
      assert Get(tr(j).passes, k) == Get(tr(j + 1).passes, k);
    }
  }

  lemma {:induction false} NoNewDelay(cap: Capacity, tr: nat -> State, acts: nat -> Action, k: Key, rest: nat, n: nat,
                                      j: nat)
    requires Endless(cap, tr, acts) && Still(tr, k, rest) && rest <= n <= j && NeedsNoDelay(cap, tr(rest), k)
    requires k in tr(n).passes ==> OnTrack(cap, tr(n), k, tr(n).passes[k])
    ensures k in tr(j).passes ==> OnTrack(cap, tr(j), k, tr(j).passes[k])
    ensures k in tr(j).delayed ==> k in tr(n).delayed
  {
    if n < j {
      NoNewDelay(cap, tr, acts, k, rest, n, j - 1);
      NextDoesNotDelay(cap, tr, acts, k, rest, j - 1);
    }
  }

  /** The queue drains: in the end no key waits whose service is gone or can run. */
  lemma KeyIsDropped(cap: Capacity, tr: nat -> State, acts: nat -> Action, k: Key, rest: nat) returns (n: nat)
    requires Endless(cap, tr, acts) && Fair(tr, acts) && Still(tr, k, rest) && NeedsNoDelay(cap, tr(rest), k)
    ensures n >= rest && DroppedFrom(tr, k, n)
  {
    n := rest;
    if k in tr(rest).passes {
      assert GoesOnFor(tr, acts, rest, k);
      var next :| next >= rest && TakesStep(acts, k, next);
      n := PassEnds(cap, tr, acts, k, rest, rest, next, false);
    }
    if k in tr(n).delayed {
      assert GoesOnFor(tr, acts, n, k);
      var f: nat :| f >= n && acts(f) == Fire(k);
      NoNewDelay(cap, tr, acts, k, rest, n, f);
      NextDoesNotDelay(cap, tr, acts, k, rest, f);
      n := f + 1;
    }
    forall j: nat | j >= n ensures k !in tr(j).delayed {
      NoNewDelay(cap, tr, acts, k, rest, n, j);
    }
  }

  ghost predicate IsDropped(tr: nat -> State, k: Key, n: nat) {
    exists m: nat :: m >= n && DroppedFrom(tr, k, m)
  }

  /** From `n` on the store rests, every service that can run is settled, every other one has
      nothing left to write or had settled before, and no key waits for ever whose service is gone or
      can run. */
  ghost predicate ConvergedAt(cap: Capacity, tr: nat -> State, n: nat) {
    && RestsFrom(tr, n)
    && (forall k :: k in tr(n).store.services ==>
          && (Verdict(cap, tr(n), k).Ok() ==> Settled(tr(n).store.services[k]))
          && (Finished(cap, tr(n), k) || Settled(tr(n).store.services[k])))
    && (forall k :: NeedsNoDelay(cap, tr(n), k) ==> IsDropped(tr, k, n))
  }

  /** A store at rest is known to the cache from some point on. */
  lemma BecomesStill(tr: nat -> State, acts: nat -> Action, k: Key, rest: nat) returns (m: nat)
    requires Fair(tr, acts) && RestsFrom(tr, rest)
    ensures m >= rest && Still(tr, k, m) && SameButJobContents(tr(rest), tr(m))
  {
    assert CatchesUp(tr, k, rest);
    m :| m >= rest && CaughtUpFrom(tr, k, m);
    forall j: nat | j >= m ensures SameButJobContents(tr(m), tr(j)) {
      SameStore(tr, rest, m, j);
    }
  }

  /** Convergence: every fair run, with specs, Models and Tenants frozen, reaches a point from which
      the store never changes again and every service that can run is settled: Phase Ready for its
      generation, all dependency conditions and WorkloadReady True.  Keys whose service is gone or
      can run are not requeued any more. */
  lemma FrozenRunsConverge(cap: Capacity, tr: nat -> State, acts: nat -> Action)
    requires Endless(cap, tr, acts) && Fair(tr, acts)
    ensures exists n: nat :: ConvergedAt(cap, tr, n)
  {
    var rest := StoreComesToRest(cap, tr, acts, 0);
    EndlessKeeps(cap, tr, acts, rest);
    forall k | k in tr(rest).store.services
      ensures Verdict(cap, tr(rest), k).Ok() ==> Settled(tr(rest).store.services[k])
      ensures Finished(cap, tr(rest), k) || Settled(tr(rest).store.services[k])
    {
      var m := BecomesStill(tr, acts, k, rest);
      ServiceComesToRest(cap, tr, acts, k, m);
      SmoothElsewhere(cap, tr(rest), tr(m), k);
      if Finished(cap, tr(rest), k) && Verdict(cap, tr(rest), k).Ok() {
        FinishedIsSettled(cap, tr(rest), k);
      }
    }
    forall k | NeedsNoDelay(cap, tr(rest), k) ensures IsDropped(tr, k, rest) {
      var m := BecomesStill(tr, acts, k, rest);
      var n := KeyIsDropped(cap, tr, acts, k, m);
    }
    assert ConvergedAt(cap, tr, rest);
  }
}
