/** The shape of every status the operator stores. */
module StatusShape {
  import opened Resources
  import opened Conditions

  function OkReason(t: CondType): Reason {
    match t
    case ModelReady => ModelVerified
    case TenantResolved => TenantFound
    case ResourceProfileResolved => ProfileFound
    case CapacityAvailable => WithinEnvelope
    case WorkloadReady => JobReconciled
    case NamespaceReady => NamespaceReconciled
    case QuotaApplied => QuotaReconciled
    case ServiceAccountReady => ServiceAccountReconciled
    case RBACReady => RBACReconciled
    case NetworkPolicyReady => NetworkPolicyReconciled
    case _ => NoReason
  }

  function FailReason(t: CondType): Reason {
    match t
    case ModelReady => ModelNotReady
    case TenantResolved => TenantNotFound
    case ResourceProfileResolved => ProfileNotFound
    case CapacityAvailable => CapacityUnavailable
    case WorkloadReady => JobError
    case NamespaceReady => NamespaceError
    case QuotaApplied => QuotaError
    case ServiceAccountReady => ServiceAccountError
    case RBACReady => RBACError
    case NetworkPolicyReady => NetworkPolicyError
    case _ => NoReason
  }

  /** Reasons of the conditions whose meaning depends on the kind of object. */
  datatype Kind = ServiceKind | TenantKind

  function ReasonFor(kind: Kind, t: CondType, status: ConditionStatus): Reason {
    if t == Accepted then (if kind == ServiceKind then InferenceServiceObserved else TenantObserved)
    else if t == Ready then
      (match (kind, status)
       case (ServiceKind, StatusTrue) => AllDependenciesResolved
       case (ServiceKind, _) => DependenciesNotReady
       case (TenantKind, StatusTrue) => AllResourcesReconciled
       case (TenantKind, _) => ResourcesNotReady)
    else if status == StatusTrue then OkReason(t) else FailReason(t)
  }

  /** True or False, with the one reason that goes with type and status, and no message when True. */
  predicate Lawful(kind: Kind, c: Condition) {
    && c.status != StatusUnknown
    && c.reason == ReasonFor(kind, c.ctype, c.status)
    && (c.status == StatusTrue ==> c.message == NoMessage)
  }

  const ServiceTypes: seq<CondType> :=
    [ModelReady, TenantResolved, ResourceProfileResolved, CapacityAvailable, Accepted, Ready]

  const TenantTypes: seq<CondType> :=
    [NamespaceReady, QuotaApplied, ServiceAccountReady, RBACReady, NetworkPolicyReady, Accepted, Ready]

  /** The list starts with these types in this order and may end with one more. */
  ghost predicate Ordered(conds: seq<Condition>, types: seq<CondType>, extra: Option<CondType>) {
    && |types| <= |conds| <= |types| + (if extra.Some? then 1 else 0)
    && (forall i :: 0 <= i < |types| ==> conds[i].ctype == types[i])
    && (|conds| == |types| + 1 ==> conds[|types|].ctype == extra.value)
  }

  ghost predicate AllLawful(kind: Kind, conds: seq<Condition>) {
    forall i :: 0 <= i < |conds| ==> Lawful(kind, conds[i])
  }

  /** Ready is True exactly when the leading `deps` conditions all are, exactly when the phase
      is Ready. */
  ghost predicate Summarised(conds: seq<Condition>, deps: nat, ready: nat, phase: Phase)
    requires deps <= |conds| && ready < |conds|
  {
    && (conds[ready].status == StatusTrue <==> forall i :: 0 <= i < deps ==> conds[i].status == StatusTrue)
    && phase == if conds[ready].status == StatusTrue then PhaseReady else Pending
  }

  ghost predicate Complete(kind: Kind, conds: seq<Condition>, phase: Phase, types: seq<CondType>, deps: nat,
                           extra: Option<CondType>)
    requires deps < |types|
  {
    Ordered(conds, types, extra) && AllLawful(kind, conds) && Summarised(conds, deps, |types| - 1, phase)
  }

  ghost predicate WellShaped(kind: Kind, conds: seq<Condition>, phase: Phase, types: seq<CondType>, deps: nat,
                             extra: Option<CondType>)
    requires deps < |types|
  {
    (conds == [] && phase == NoPhase) || Complete(kind, conds, phase, types, deps, extra)
  }

  /** What updateStatus upserts: every type in order, lawful and summarised. */
  ghost predicate FullUpdate(kind: Kind, cs: seq<Condition>, phase: Phase, types: seq<CondType>, deps: nat)
    requires deps < |types|
  {
    && |cs| == |types| && DistinctTypes(cs) && AllLawful(kind, cs)
    && (forall i :: 0 <= i < |types| ==> cs[i].ctype == types[i])
    && Summarised(cs, deps, |types| - 1, phase)
  }

  /** Upserting a full update into a well-shaped list yields a complete one. */
  lemma UpdateKeepsShape(kind: Kind, conds: seq<Condition>, phase: Phase, types: seq<CondType>, deps: nat,
                         extra: Option<CondType>, cs: seq<Condition>, phase': Phase)
    requires deps < |types| && WellShaped(kind, conds, phase, types, deps, extra)
    requires FullUpdate(kind, cs, phase', types, deps)
    ensures Complete(kind, UpsertAll(conds, cs), phase', types, deps, extra)
  {
    if conds == [] {
      FirstUpdate(kind, types, deps, extra, cs, phase');
    } else {
      LaterUpdate(kind, conds, types, deps, extra, cs, phase');
    }
  }

  lemma FirstUpdate(kind: Kind, types: seq<CondType>, deps: nat, extra: Option<CondType>, cs: seq<Condition>,
                    phase: Phase)
    requires deps < |types| && FullUpdate(kind, cs, phase, types, deps)
    ensures Complete(kind, UpsertAll([], cs), phase, types, deps, extra)
  {
    UpsertAllFresh([], cs);
    assert [] + cs == cs;
  }

  lemma LaterUpdate(kind: Kind, conds: seq<Condition>, types: seq<CondType>, deps: nat, extra: Option<CondType>,
                    cs: seq<Condition>, phase: Phase)
    requires deps < |types| && FullUpdate(kind, cs, phase, types, deps)
    requires Ordered(conds, types, extra) && AllLawful(kind, conds)
    ensures Complete(kind, UpsertAll(conds, cs), phase, types, deps, extra)
  {
    UpsertAllOrdered(conds, cs);
    var r := UpsertAll(conds, cs);
    assert AllLawful(kind, r) by {
      OverwriteKeepsLaws(kind, conds, cs, r);
    }
    assert Summarised(r, deps, |types| - 1, phase) by {
      SummaryCarriesOver(cs, r, deps, |types| - 1, phase);
    }
  }

  lemma OverwriteKeepsLaws(kind: Kind, conds: seq<Condition>, cs: seq<Condition>, r: seq<Condition>)
    requires AllLawful(kind, conds) && AllLawful(kind, cs) && |cs| <= |conds| == |r|
    requires forall i :: 0 <= i < |cs| ==> r[i] == Overwrite(conds[i], cs[i]) && conds[i].ctype == cs[i].ctype
    requires forall i :: |cs| <= i < |r| ==> r[i] == conds[i]
    ensures AllLawful(kind, r)
  {
    forall i | 0 <= i < |r| ensures Lawful(kind, r[i]) {
      if i < |cs| {
        assert Lawful(kind, cs[i]);
      } else {
        assert Lawful(kind, conds[i]);
      }
    }
  }

  lemma SummaryCarriesOver(cs: seq<Condition>, r: seq<Condition>, deps: nat, ready: nat, phase: Phase)
    requires deps <= |cs| <= |r| && ready < |cs| && Summarised(cs, deps, ready, phase)
    requires forall i :: 0 <= i < |cs| ==> r[i].status == cs[i].status
    ensures Summarised(r, deps, ready, phase)
  {
  }

  /** Upserting the extra condition into a complete list keeps the shape. */
  lemma ExtraKeepsShape(kind: Kind, conds: seq<Condition>, phase: Phase, types: seq<CondType>, deps: nat,
                        extra: Option<CondType>, c: Condition)
    requires deps < |types| && |conds| >= |types| && WellShaped(kind, conds, phase, types, deps, extra)
    requires extra == Some(c.ctype) && Lawful(kind, c) && c.ctype !in types
    ensures |Upsert(conds, c)| == |types| + 1 && WellShaped(kind, Upsert(conds, c), phase, types, deps, extra)
  {
    FirstIs(conds, c.ctype, |types|);
    var r := Upsert(conds, c);
    assert forall i :: 0 <= i < |types| ==> r[i] == conds[i];
    forall i | 0 <= i < |r| ensures Lawful(kind, r[i]) {
      if i < |types| { assert Lawful(kind, conds[i]); }
    }
  }
}
