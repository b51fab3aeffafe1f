/** Admission of InferenceServices: the validation chain and the mutation, as decisions over
    what the API answers. */
module Admission {
  import opened Resources
  import Priority
  import opened Decimal

  // ---------- the client ----------

  datatype Lookup<+T> = Found(value: T) | NotFound | Failed(text: string)

  /** The cluster as a webhook call sees it; a fault makes every Get of that kind fail. */
  datatype Client = Client(
    tenants: map<string, Tenant>, models: map<Key, Model>, signedModelsRequired: Option<bool>,
    tenantFault: Option<string>, modelFault: Option<string>, policyFault: Option<string>)

  function GetTenant(c: Client, name: string): Lookup<Tenant> {
    if c.tenantFault.Some? then Failed(c.tenantFault.value)
    else if name in c.tenants then Found(c.tenants[name]) else NotFound
  }

  function GetModel(c: Client, k: Key): Lookup<Model> {
    if c.modelFault.Some? then Failed(c.modelFault.value)
    else if k in c.models then Found(c.models[k]) else NotFound
  }

  /** getEffectivePlatformPolicy, down to SignedModels.Required of the policy named "default". */
  function GetPolicy(c: Client): Lookup<bool> {
    if c.policyFault.Some? then Failed(c.policyFault.value)
    else if c.signedModelsRequired.Some? then Found(c.signedModelsRequired.value) else NotFound
  }

  // ---------- decisions ----------

  datatype Code =
    | TENANT_NOT_FOUND | TENANT_LOOKUP_ERROR | PROFILE_INVALID | SLO_INVALID
    | MODEL_LOOKUP_ERROR | SIGNED_MODEL_REQUIRED

  datatype Decision = Allow | Deny(code: Code, reason: string)

  /** The earliest denial of a list, if any. */
  function Earliest(ds: seq<Decision>): Decision {
    if ds == [] then Allow else if ds[0].Deny? then ds[0] else Earliest(ds[1..])
  }

  /** FirstDenial. */
  method FirstDenial(ds: seq<Decision>) returns (d: Decision)
    ensures d == Earliest(ds)
    ensures d.Allow? <==> forall i :: 0 <= i < |ds| ==> ds[i].Allow?
    ensures d.Deny? ==> exists i :: 0 <= i < |ds| && ds[i] == d && forall j :: 0 <= j < i ==> ds[j].Allow?
  {
    for i := 0 to |ds|
      invariant forall j :: 0 <= j < i ==> ds[j].Allow?
      invariant Earliest(ds) == Earliest(ds[i..])
    {
      if ds[i].Deny? {
        return ds[i];
      }
      assert ds[i..][1..] == ds[i + 1..];
    }
    return Allow;
  }

  /** The part of an InferenceService admission looks at; absent annotations are a nil map. */
  datatype Candidate = Candidate(key: Key, spec: ServiceSpec, annotations: Option<map<Annotation, string>>)

  datatype Annotation =
    | AnnotationTenant | AnnotationDerivedPriority | AnnotationFairnessID | OtherAnnotation(text: string)

  function ValidateTenantExists(c: Client, x: Candidate): Decision {
    match GetTenant(c, x.key.ns)
    case NotFound => Deny(TENANT_NOT_FOUND, x.key.ns)
    case Failed(text) => Deny(TENANT_LOOKUP_ERROR, text)
    case Found(_) => Allow
  }

  function ValidateResourceProfile(x: Candidate): Decision {
    if KnownProfile(x.spec.resourceProfile) then Allow else Deny(PROFILE_INVALID, "unknown resource profile")
  }

  function ValidateSlo(x: Candidate): Decision {
    var slo := x.spec.slo;
    if slo.ttftP99.Some? && slo.ttftP99.value <= 0 then Deny(SLO_INVALID, "slo.ttftP99 must be positive")
    else if slo.tpotP99.Some? && slo.tpotP99.value <= 0 then Deny(SLO_INVALID, "slo.tpotP99 must be positive")
    else Allow
  }

  /** Fails open when the policy cannot be read, closed when the Model cannot. */
  function ValidateSignedModelPolicy(c: Client, x: Candidate): Decision {
    if GetPolicy(c) != Found(true) then Allow
    else
      match GetModel(c, Key(x.key.ns, x.spec.model))
      case NotFound => Allow
      case Failed(text) => Deny(MODEL_LOOKUP_ERROR, text)
      case Found(m) => if m.spec.requireSignedImage then Allow else Deny(SIGNED_MODEL_REQUIRED, x.spec.model)
  }

  /** ValidateInferenceService: stops at the first denial. */
  function Validate(c: Client, x: Candidate): Decision {
    var tenant := ValidateTenantExists(c, x);
    if tenant.Deny? then tenant
    else
      var profile := ValidateResourceProfile(x);
      if profile.Deny? then profile
      else
        var slo := ValidateSlo(x);
        if slo.Deny? then slo
        else
          var signed := ValidateSignedModelPolicy(c, x);
          if signed.Deny? then signed else Allow
  }

  /** The short-circuit chain decides as running all four checks eagerly and taking the earliest
      denial would. */
  lemma ChainIsFirstDenial(c: Client, x: Candidate)
    ensures Validate(c, x)
            == Earliest([ValidateTenantExists(c, x), ValidateResourceProfile(x), ValidateSlo(x),
                         ValidateSignedModelPolicy(c, x)])
  {
    var ds := [ValidateTenantExists(c, x), ValidateResourceProfile(x), ValidateSlo(x), ValidateSignedModelPolicy(c, x)];
    assert Earliest(ds[4..]) == Allow;
    assert ds[3..][1..] == ds[4..] && ds[2..][1..] == ds[3..] && ds[1..][1..] == ds[2..];
    assert Earliest(ds[3..]) == ds[3];
    assert Earliest(ds[2..]) == if ds[2].Deny? then ds[2] else Earliest(ds[3..]);
    assert Earliest(ds[1..]) == if ds[1].Deny? then ds[1] else Earliest(ds[2..]);
  }

  /** A service is allowed exactly when its tenant is there, its profile known, its SLO targets
      positive, and, if the policy is readable and demands it, its Model is missing or requires
      a signed image. */
  lemma AllowedExactlyWhen(c: Client, x: Candidate)
    ensures Validate(c, x).Allow? <==>
            && GetTenant(c, x.key.ns).Found?
            && KnownProfile(x.spec.resourceProfile)
            && (x.spec.slo.ttftP99.Some? ==> x.spec.slo.ttftP99.value > 0)
            && (x.spec.slo.tpotP99.Some? ==> x.spec.slo.tpotP99.value > 0)
            && (GetPolicy(c) == Found(true) ==>
                  var m := GetModel(c, Key(x.key.ns, x.spec.model));
                  m.NotFound? || (m.Found? && m.value.spec.requireSignedImage))
  {
  }

  /** Which code a denial carries, from what the API answers: the tenant comes first, then the
      profile, then the SLO targets, and the Model only under a readable policy that demands
      signed ones. */
  lemma DenialCodeExactlyWhen(c: Client, x: Candidate)
    ensures var d := Validate(c, x);
            var known := c.tenantFault.None? && x.key.ns in c.tenants;
            var sized := known && !x.spec.resourceProfile.OtherProfile?;
            var ttft, tpot := x.spec.slo.ttftP99, x.spec.slo.tpotP99;
            var timed := sized && (ttft.Some? ==> ttft.value > 0) && (tpot.Some? ==> tpot.value > 0);
            var checked := timed && c.policyFault.None? && c.signedModelsRequired == Some(true);
            var mk := Key(x.key.ns, x.spec.model);
            var unsigned := c.modelFault.None? && mk in c.models && !c.models[mk].spec.requireSignedImage;
            && (d == Deny(TENANT_NOT_FOUND, x.key.ns) <==> c.tenantFault.None? && x.key.ns !in c.tenants)
            && (c.tenantFault.Some? <==> d.Deny? && d.code == TENANT_LOOKUP_ERROR)
            && (c.tenantFault.Some? ==> d.reason == c.tenantFault.value)
            && (d.Deny? && d.code == PROFILE_INVALID <==> known && !sized)
            && (d.Deny? && d.code == SLO_INVALID <==> sized && !timed)
            && (d.Deny? && d.code == MODEL_LOOKUP_ERROR <==> checked && c.modelFault.Some?)
            && (checked && c.modelFault.Some? ==> d.reason == c.modelFault.value)
            && (d == Deny(SIGNED_MODEL_REQUIRED, x.spec.model) <==> checked && unsigned)
            && (d.Allow? <==> timed && (checked ==> c.modelFault.None? && !unsigned))
  {
  }

  // ---------- mutation ----------

  function AnnotationsOf(x: Candidate): map<Annotation, string> {
    if x.annotations.Some? then x.annotations.value else map[]
  }

  /** MutateInferenceService: the mutated candidate and whether it returned an error. */
  function Mutated(c: Client, x: Candidate): (Candidate, bool) {
    var marked := AnnotationsOf(x)[AnnotationTenant := x.key.ns][AnnotationFairnessID := x.key.ns];
    match GetTenant(c, x.key.ns)
    case NotFound => (x.(annotations := Some(marked)), false)
    case Failed(_) => (x.(annotations := Some(marked)), true)
    case Found(t) =>
      var derived := Priority.Calculate(t.spec.defaultPriority, x.spec.workloadClass, x.spec.priority);
      (x.(annotations := Some(marked[AnnotationDerivedPriority := Printed(derived)])), false)
  }

  class CandidateObject {
    const key: Key
    const spec: ServiceSpec
    var annotations: Option<map<Annotation, string>>

    constructor (x: Candidate)
      ensures Value() == x
    {
      key, spec, annotations := x.key, x.spec, x.annotations;
    }

    ghost function Value(): Candidate
      reads this
    {
      Candidate(key, spec, annotations)
    }

    /** MutateInferenceService on the object under admission. */
    method Mutate(c: Client) returns (failed: bool)
      modifies this`annotations
      ensures (Value(), failed) == Mutated(c, old(Value()))
    {
      var marks: map<Annotation, string> := map[];
      if annotations.Some? {
        marks := annotations.value;
      }
      marks := marks[AnnotationTenant := key.ns];
      marks := marks[AnnotationFairnessID := key.ns];
      annotations := Some(marks);
      match GetTenant(c, key.ns) {
        case NotFound => failed := false;
        case Failed(_) => failed := true;
        case Found(t) =>
          var derived := Priority.Calculate(t.spec.defaultPriority, spec.workloadClass, spec.priority);
          var text, _ := Itoa(derived);
          annotations := Some(marks[AnnotationDerivedPriority := text]);
          failed := false;
      }
    }
  }

  /** What mutation writes: tenant and fairness identity are the namespace; the derived priority is
      that of the tenant, in decimal, if the tenant is found; and an error is returned exactly
      when its lookup fails. */
  lemma AnnotationsAre(c: Client, x: Candidate)
    ensures var (y, failed) := Mutated(c, x);
            var marks := AnnotationsOf(y);
            && y.annotations.Some?
            && Get(marks, AnnotationTenant) == Some(x.key.ns)
            && Get(marks, AnnotationFairnessID) == Some(x.key.ns)
            && (failed <==> c.tenantFault.Some?)
            && (c.tenantFault.None? && x.key.ns in c.tenants ==>
                  && AnnotationDerivedPriority in marks
                  && var p := Priority.Calculate(c.tenants[x.key.ns].spec.defaultPriority, x.spec.workloadClass,
                                                 x.spec.priority);
                  && marks[AnnotationDerivedPriority] == Printed(p)
                  && (p != MinInt32 ==> Parse(marks[AnnotationDerivedPriority]) == Some(p)))
  {
    if c.tenantFault.None? && x.key.ns in c.tenants {
      PrintedParsesBack(Priority.Calculate(c.tenants[x.key.ns].spec.defaultPriority, x.spec.workloadClass,
                                           x.spec.priority));
    }
  }

  /** Mutation is idempotent, changes nothing but three annotations, and does not influence
      validation. */
  lemma MutationIsIdempotentAndFramed(c: Client, x: Candidate, a: Annotation)
    ensures var y := Mutated(c, x).0;
            && Mutated(c, y).0 == y
            && Validate(c, y) == Validate(c, x)
            && y.key == x.key && y.spec == x.spec
            && (a != AnnotationTenant && a != AnnotationFairnessID && a != AnnotationDerivedPriority
                ==> Get(AnnotationsOf(y), a) == Get(AnnotationsOf(x), a))
            && (!GetTenant(c, x.key.ns).Found? ==>
                  Get(AnnotationsOf(y), AnnotationDerivedPriority) == Get(AnnotationsOf(x), AnnotationDerivedPriority))
  {
    var y := Mutated(c, x).0;
    var z := Mutated(c, y).0;
    assert AnnotationsOf(z) == AnnotationsOf(y);
  }
}
