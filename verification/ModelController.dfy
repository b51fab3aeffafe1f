/** The Model controller: verification of the artifact, the change-aware status write, and what
    its history leaves in the store. */
module ModelController {
  import opened Resources
  import opened Conditions
  import opened ConditionSlices

  /** verifyArtifact: the failure reason, if any. */
  function VerifyReason(spec: ModelSpec): Option<Message> {
    if spec.uri == "" then Some(EmptySourceUri)
    else if spec.requireSignedImage && spec.digest == "" then Some(MissingDigest)
    else None
  }

  predicate Accepts(spec: ModelSpec) {
    spec.uri != "" && (spec.requireSignedImage ==> spec.digest != "")
  }

  function ReadyCondition(spec: ModelSpec, now: nat): Condition {
    Outcome(Ready, VerifyReason(spec), ArtifactVerified, VerificationFailed, now)
  }

  function ModelPhase(spec: ModelSpec): Phase {
    if Accepts(spec) then PhaseReady else Pending
  }

  /** updateStatus finds nothing to write; the resolved digest is not part of the comparison. */
  ghost predicate UpToDate(status: ModelStatus, spec: ModelSpec) {
    Holds(status.conditions, ReadyCondition(spec, 0)) && status.phase == ModelPhase(spec)
  }

  /** The status one pass leaves: verifyArtifact sets the digest in memory, but it reaches the
      store only together with a changed condition or phase. */
  ghost function AfterPass(status: ModelStatus, spec: ModelSpec, delivered: bool, now: nat): ModelStatus {
    if UpToDate(status, spec) || !delivered then status
    else ModelStatus(Upsert(status.conditions, ReadyCondition(spec, now)), ModelPhase(spec),
                     if Accepts(spec) then spec.digest else status.resolvedDigest)
  }

  /** The *Model a pass works on. */
  class ModelObject {
    const spec: ModelSpec
    var conditions: Slice
    var phase: Phase
    var resolvedDigest: string

    ghost function Status(): ModelStatus
      requires conditions.Valid()
      reads this, conditions.backing
    {
      ModelStatus(conditions.View(), phase, resolvedDigest)
    }

    constructor (spec: ModelSpec, status: ModelStatus)
      ensures this.spec == spec && conditions.Valid() && fresh(conditions.backing) && Status() == status
    {
      this.spec, phase, resolvedDigest := spec, status.phase, status.resolvedDigest;
      var conds := status.conditions;
      var backing := new Condition[|conds|](i requires 0 <= i < |conds| => conds[i]);
      assert backing[..] == conds;
      conditions := Slice(backing, |conds|);
      new;
      assert conditions.View() == conds;
    }

    /** verifyArtifact, which writes the resolved digest when it accepts. */
    method VerifyArtifact() returns (reason: Option<Message>)
      modifies this`resolvedDigest
      ensures reason == VerifyReason(spec)
      ensures reason.None? <==> Accepts(spec)
      ensures resolvedDigest == if Accepts(spec) then spec.digest else old(resolvedDigest)
    {
      if spec.uri == "" {
        return Some(EmptySourceUri);
      }
      if spec.requireSignedImage && spec.digest == "" {
        return Some(MissingDigest);
      }
      resolvedDigest := spec.digest;
      return None;
    }
  }

  class Cluster {
    var stored: ModelStatus
  }

  lemma ReadyComparison(conds: seq<Condition>, spec: ModelSpec, now: nat)
    ensures SameMarks(conds, Upsert(conds, ReadyCondition(spec, now))) <==> Holds(conds, ReadyCondition(spec, 0))
  {
    var c := ReadyCondition(spec, now);
    assert UpsertAll(conds, [c]) == Upsert(conds, c) by {
      assert [c][1..] == [];
    }
    PositionalComparisonExact(conds, [c]);
  }

  /** Reconcile of a Model that was read with the stored status. */
  method Reconcile(cluster: Cluster, m: ModelObject, delivered: bool, now: nat) returns (changed: bool)
    requires m.conditions.Valid() && m.Status() == cluster.stored
    modifies m, cluster
    ensures cluster.stored == AfterPass(old(cluster.stored), m.spec, delivered, now)
    ensures changed <==> !UpToDate(old(cluster.stored), m.spec)
  {
    ghost var was := cluster.stored;
    var verifyReason := m.VerifyArtifact();
    var newConditions := Copied(m.conditions);
    newConditions := SetStatusCondition(newConditions,
                                        Outcome(Ready, verifyReason, ArtifactVerified, VerificationFailed, now));
    var newPhase := if verifyReason.None? then PhaseReady else Pending;
    var same := StatusUnchanged(m.conditions, newConditions);
    ReadyComparison(was.conditions, m.spec, now);
    if same && m.phase == newPhase {
      return false;
    }
    m.conditions := newConditions;
    m.phase := newPhase;
    if delivered {
      cluster.stored := ModelStatus(newConditions.backing[..newConditions.len], newPhase, m.resolvedDigest);
    }
    changed := true;
  }

  /** Whatever status a Model had, after a completed pass Ready, its reason and the phase give the
      verdict on the spec, and other conditions are as they were. */
  lemma CompletedPassGivesVerdict(status: ModelStatus, spec: ModelSpec, now: nat, t: CondType)
    ensures var after := AfterPass(status, spec, true, now);
            var said := Saying(after.conditions, Ready);
            && said.Some?
            && said.value.status == (if Accepts(spec) then StatusTrue else StatusFalse)
            && said.value.reason == (if Accepts(spec) then ArtifactVerified else VerificationFailed)
            && after.phase == (if Accepts(spec) then PhaseReady else Pending)
            && (t != Ready ==> Saying(after.conditions, t) == Saying(status.conditions, t))
  {
    var c := ReadyCondition(spec, now);
    assert Holds(AfterPass(status, spec, true, now).conditions, c) by {
      UpsertCarries(status.conditions, c);
    }
    if t != Ready {
      UpsertKeepsSaying(status.conditions, c, t);
    }
  }

  // ---------- messages ----------

  ghost predicate SaysReady(status: ModelStatus, m: Message) {
    SaysMessage(status.conditions, Ready, m)
  }

  /** Why a spec is refused: a missing source before a missing digest. */
  predicate Explains(m: Message, spec: ModelSpec) {
    && (m == NoMessage <==> Accepts(spec))
    && (m == EmptySourceUri <==> spec.uri == "")
    && (m == MissingDigest <==> spec.uri != "" && spec.requireSignedImage && spec.digest == "")
  }

  /** After a completed pass the stored message explains the verdict on the spec exactly when the
      status had to be written or its message did so before. */
  lemma MessageExplainsExactlyWhen(status: ModelStatus, spec: ModelSpec, now: nat)
    ensures (exists m :: SaysReady(AfterPass(status, spec, true, now), m) && Explains(m, spec))
            <==> !UpToDate(status, spec) || exists m :: SaysReady(status, m) && Explains(m, spec)
  {
    if !UpToDate(status, spec) {
      var c := ReadyCondition(spec, now);
      UpsertCarries(status.conditions, c);
      assert SaysReady(AfterPass(status, spec, true, now), c.message) && Explains(c.message, spec);
    }
  }

  /** A stale one: a Model without source gets one but no digest; both are failed verifications. */
  lemma StaleVerificationMessage(uri: string, now: nat)
    requires uri != ""
    ensures var status := AfterPass(EmptyStatus, ModelSpec("", "", true), true, now);
            var spec := ModelSpec(uri, "", true);
            && AfterPass(status, spec, true, now) == status
            && SaysReady(status, EmptySourceUri) && !Explains(EmptySourceUri, spec)
  {
    var c := ReadyCondition(ModelSpec("", "", true), now);
    UpsertCarries([], c);
  }

  // ---------- histories ----------

  /** What happens to one Model: its spec is edited, or a pass runs and its write, if issued, is
      delivered or not. */
  datatype Event = Edit(spec: ModelSpec) | Pass(delivered: bool, now: nat)

  datatype Stored = Stored(spec: ModelSpec, status: ModelStatus)

  ghost function Step(s: Stored, e: Event): Stored {
    match e
    case Edit(spec) => s.(spec := spec)
    case Pass(delivered, now) => s.(status := AfterPass(s.status, s.spec, delivered, now))
  }

  ghost function Run(s: Stored, events: seq<Event>): Stored {
    if events == [] then s else Step(Run(s, events[..|events| - 1]), events[|events| - 1])
  }

  /** The reference: is the Model Ready, and what digest did the pass read that last moved it
      into Ready. */
  datatype Ledger = Ledger(seen: bool, ready: bool, digest: string)

  function Record(l: Ledger, spec: ModelSpec, e: Event): Ledger {
    if e.Edit? || !e.delivered then l
    else if !Accepts(spec) then l.(seen := true, ready := false)
    else if l.ready then l
    else Ledger(true, true, spec.digest)
  }

  function SpecAfter(spec: ModelSpec, events: seq<Event>): ModelSpec {
    if events == [] then spec
    else if events[|events| - 1].Edit? then events[|events| - 1].spec
    else SpecAfter(spec, events[..|events| - 1])
  }

  function LedgerAfter(spec: ModelSpec, events: seq<Event>): Ledger {
    if events == [] then Ledger(false, false, "")
    else
      var before := events[..|events| - 1];
      Record(LedgerAfter(spec, before), SpecAfter(spec, before), events[|events| - 1])
  }

  const EmptyStatus := ModelStatus([], NoPhase, "")

  /** The stored status says what the ledger says. */
  ghost predicate Matches(status: ModelStatus, l: Ledger) {
    && (!l.seen ==> status.conditions == [] && status.phase == NoPhase && !l.ready)
    && (l.seen ==> && |status.conditions| == 1 && status.conditions[0].ctype == Ready
                   && status.conditions[0].status == (if l.ready then StatusTrue else StatusFalse)
                   && status.conditions[0].reason == (if l.ready then ArtifactVerified else VerificationFailed)
                   && status.phase == (if l.ready then PhaseReady else Pending))
    && status.resolvedDigest == l.digest
  }

  lemma PassMatches(status: ModelStatus, l: Ledger, spec: ModelSpec, delivered: bool, now: nat)
    requires Matches(status, l)
    ensures Matches(AfterPass(status, spec, delivered, now), Record(l, spec, Pass(delivered, now)))
  {
    if l.seen {
      FirstIs(status.conditions, Ready, 0);
    }
  }

  /** Model history: after any history of edits and passes of a new Model, Ready, Phase and
      reason say whether the last completed pass accepted the spec it read, and the resolved
      digest is the one read by the pass that last moved the Model into Ready. */
  lemma {:induction false} ModelHistory(spec: ModelSpec, events: seq<Event>)
    ensures var s := Run(Stored(spec, EmptyStatus), events);
            s.spec == SpecAfter(spec, events) && Matches(s.status, LedgerAfter(spec, events))
  {
    if events != [] {
      var before := events[..|events| - 1];
      ModelHistory(spec, before);
      var e := events[|events| - 1];
      if e.Pass? {
        PassMatches(Run(Stored(spec, EmptyStatus), before).status, LedgerAfter(spec, before), SpecAfter(spec, before),
                    e.delivered, e.now);
      }
    }
  }

  /** Right after a completed pass: Ready=True, and Phase Ready, exactly when the spec it read is
      accepted. */
  lemma CompletedPassDecides(spec: ModelSpec, events: seq<Event>, now: nat)
    ensures var s := Run(Stored(spec, EmptyStatus), events + [Pass(true, now)]);
            && (IsTrue(s.status.conditions, Ready) <==> Accepts(s.spec))
            && (s.status.phase == PhaseReady <==> Accepts(s.spec))
  {
    var all := events + [Pass(true, now)];
    assert all[..|all| - 1] == events;
    ModelHistory(spec, all);
    var s := Run(Stored(spec, EmptyStatus), all);
    FirstIs(s.status.conditions, Ready, 0);
  }

  /** After a completed pass of an accepted Model the stored digest is the spec's exactly when
      the pass moved the Model into Ready or the digest was already that one. */
  lemma DigestIsCurrentExactlyWhen(spec: ModelSpec, events: seq<Event>, now: nat)
    requires Accepts(SpecAfter(spec, events))
    ensures var before := Run(Stored(spec, EmptyStatus), events);
            var s := Run(Stored(spec, EmptyStatus), events + [Pass(true, now)]);
            s.status.resolvedDigest == s.spec.digest
            <==> !IsTrue(before.status.conditions, Ready) || before.status.resolvedDigest == before.spec.digest
  {
    var all := events + [Pass(true, now)];
    assert all[..|all| - 1] == events;
    ModelHistory(spec, events);
    ModelHistory(spec, all);
    var before := Run(Stored(spec, EmptyStatus), events);
    if LedgerAfter(spec, events).seen {
      FirstIs(before.status.conditions, Ready, 0);
    }
  }

  /** So a Ready Model can carry a stale digest: edit the digest of a Ready Model and reconcile. */
  lemma ReadyWithStaleDigest(uri: string, d1: string, d2: string)
    requires uri != "" && d1 != d2
    ensures var first := ModelSpec(uri, d1, false);
            var second := ModelSpec(uri, d2, false);
            var s := Run(Stored(first, EmptyStatus), [Pass(true, 0), Edit(second), Pass(true, 1)]);
            IsTrue(s.status.conditions, Ready) && s.spec.digest == d2 && s.status.resolvedDigest == d1
  {
    var first, second := ModelSpec(uri, d1, false), ModelSpec(uri, d2, false);
    var e1 := [Pass(true, 0)];
    var e2 := [Pass(true, 0), Edit(second)];
    var e3 := [Pass(true, 0), Edit(second), Pass(true, 1)];
    assert e1[..0] == [] && e2[..1] == e1 && e3[..2] == e2;
    ModelHistory(first, e3);
    assert LedgerAfter(first, []) == Ledger(false, false, "") && SpecAfter(first, []) == first;
    assert LedgerAfter(first, e1) == Ledger(true, true, d1) && SpecAfter(first, e1) == first;
    assert LedgerAfter(first, e2) == Ledger(true, true, d1) && SpecAfter(first, e2) == second;
    assert LedgerAfter(first, e3) == Ledger(true, true, d1);
    FirstIs(Run(Stored(first, EmptyStatus), e3).status.conditions, Ready, 0);
  }
}
