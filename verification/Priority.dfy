/** operator/internal/priority and the Kueue priority values it has to agree with. */
module Priority {
  import opened Resources

  /** Go's integer division, which truncates toward zero. */
  function GoDiv(a: int, b: int): int
    requires b != 0
  {
    if a >= 0 then a / b else -(-a / b)
  }

  function Calculate(tenantPriority: Int32, class_: WorkloadClass, override_: Option<Int32>): (r: Int32)
    ensures override_.Some? ==> r == override_.value
    ensures override_.None? && tenantPriority >= 0 ==> 0 <= r <= tenantPriority
  {
    if override_.Some? then override_.value else
      match class_
      case Interactive => tenantPriority
      case Batch => GoDiv(tenantPriority, 3)
      case Background => GoDiv(tenantPriority, 10)
      case OtherClass(_) => tenantPriority
  }

  /** What the derived priority is without an override: for batch a third and for background a
      tenth of the tenant default, rounded toward zero, and the default itself for everything
      else.  An override is taken as it is. */
  lemma DerivedPriorityIs(p: Int32, c: WorkloadClass, v: Int32)
    ensures var r := Calculate(p, Batch, None);
            if p >= 0 then 3 * r <= p < 3 * r + 3 else 3 * r - 3 < p <= 3 * r
    ensures var r := Calculate(p, Background, None);
            if p >= 0 then 10 * r <= p < 10 * r + 10 else 10 * r - 10 < p <= 10 * r
    ensures c == Interactive || c.OtherClass? ==> Calculate(p, c, None) == p
    ensures Calculate(p, c, Some(v)) == v
  {
  }

  datatype PriorityClass = PlatformInteractive | PlatformBatch | PlatformBackground

  function PriorityClassFor(c: WorkloadClass): PriorityClass {
    match c
    case Interactive => PlatformInteractive
    case Batch => PlatformBatch
    case Background => PlatformBackground
    case OtherClass(_) => PlatformBatch
  }

  /** The values of the three WorkloadPriorityClass objects. */
  function KueueValue(p: PriorityClass): int {
    match p
    case PlatformInteractive => 1000
    case PlatformBatch => 333
    case PlatformBackground => 100
  }

  /** Without an override, Calculate is monotone in the tenant default, and on the three enum
      classes a class that Kueue values no higher never gets a higher derived priority.  At the
      largest admissible default, 1000, the derived priorities are the Kueue values themselves. */
  lemma PriorityCoherence(p: Int32, q: Int32, c: WorkloadClass, d: WorkloadClass)
    requires 0 <= p <= q && !c.OtherClass? && !d.OtherClass?
    ensures Calculate(p, c, None) <= Calculate(q, c, None)
    ensures KueueValue(PriorityClassFor(c)) <= KueueValue(PriorityClassFor(d))
            ==> Calculate(p, c, None) <= Calculate(p, d, None)
    ensures Calculate(1000, c, None) == KueueValue(PriorityClassFor(c))
  {
    assert p / 3 <= q / 3 && p / 10 <= q / 10;
    assert p / 10 <= p / 3 <= p;
  }

  /** The classes are ordered as Kueue orders them exactly for the non-negative defaults, which
      only the CRD schema enforces: below zero, division truncating toward zero puts batch and
      background above interactive. */
  lemma ClassOrderExactlyWhen(p: Int32)
    ensures (forall c: WorkloadClass, d: WorkloadClass ::
               !c.OtherClass? && !d.OtherClass? && KueueValue(PriorityClassFor(c)) <= KueueValue(PriorityClassFor(d))
               ==> Calculate(p, c, None) <= Calculate(p, d, None))
            <==> p >= 0
    ensures p < 0 ==> Calculate(p, Interactive, None) < Calculate(p, Batch, None) <= Calculate(p, Background, None)
  {
    if p >= 0 {
      forall c: WorkloadClass, d: WorkloadClass |
        !c.OtherClass? && !d.OtherClass? && KueueValue(PriorityClassFor(c)) <= KueueValue(PriorityClassFor(d))
        ensures Calculate(p, c, None) <= Calculate(p, d, None)
      {
        PriorityCoherence(p, p, c, d);
      }
    } else {
      assert KueueValue(PriorityClassFor(Batch)) <= KueueValue(PriorityClassFor(Interactive));
      assert Calculate(p, Interactive, None) < Calculate(p, Batch, None);
    }
  }
}
