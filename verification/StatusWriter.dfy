/** Write suppression as a refinement of "always write".  A controller's status object is its
    condition list plus a remainder `R` (phase, derived priority, observed generation, ...);
    each status update is one attempt to have a status stored. */
module StatusWriter {
  import opened Resources
  import opened Conditions

  datatype Record<R> = Record(conditions: seq<Condition>, rest: R)

  /** One status update: conditions to upsert, the remainder to set (`None` keeps it), and
      whether the API call, if it is issued, goes through. */
  datatype Attempt<R> = Attempt(upserts: seq<Condition>, rest: Option<R>, delivered: bool)

  function Wanted<R>(s: Record<R>, a: Attempt<R>): Record<R> {
    Record(UpsertAll(s.conditions, a.upserts), if a.rest.Some? then a.rest.value else s.rest)
  }

  /** The controllers issue the write exactly when the comparison finds a difference. */
  ghost predicate Issues<R(!new)>(s: Record<R>, a: Attempt<R>) {
    !(SameMarks(s.conditions, Wanted(s, a).conditions) && s.rest == Wanted(s, a).rest)
  }

  ghost function Suppressing<R(!new)>(s: Record<R>, a: Attempt<R>): Record<R> {
    if Issues(s, a) && a.delivered then Wanted(s, a) else s
  }

  function Always<R>(s: Record<R>, a: Attempt<R>): Record<R> {
    if a.delivered then Wanted(s, a) else s
  }

  /** The reference: every attempt is written. */
  function RunAlways<R>(s: Record<R>, atts: seq<Attempt<R>>): Record<R>
    decreases atts
  {
    if atts == [] then s else RunAlways(Always(s, atts[0]), atts[1..])
  }

  ghost function RunSuppressing<R(!new)>(s: Record<R>, atts: seq<Attempt<R>>): Record<R>
    decreases atts
  {
    if atts == [] then s else RunSuppressing(Suppressing(s, atts[0]), atts[1..])
  }

  /** Equal on everything, transition times included, except message texts. */
  ghost predicate Twins<R(!new)>(s: Record<R>, t: Record<R>) {
    SameButMessage(s.conditions, t.conditions) && s.rest == t.rest
  }

  ghost predicate TwinAttempts<R(!new)>(a: Attempt<R>, b: Attempt<R>) {
    && SameButMessage(a.upserts, b.upserts) && a.rest == b.rest && a.delivered == b.delivered
    && DistinctTypes(a.upserts)
  }

  ghost predicate TwinInputs<R(!new)>(xs: seq<Attempt<R>>, ys: seq<Attempt<R>>) {
    |xs| == |ys| && forall i :: 0 <= i < |xs| ==> TwinAttempts(xs[i], ys[i])
  }

  lemma FirstOfTwins(x: seq<Condition>, y: seq<Condition>, t: CondType)
    requires SameButMessage(x, y)
    ensures First(x, t) == First(y, t)
  {
    FirstIs(y, t, First(x, t));
  }

  lemma {:induction false} UpsertAllTwins(x: seq<Condition>, y: seq<Condition>, cs: seq<Condition>, ds: seq<Condition>)
    requires SameButMessage(x, y) && SameButMessage(cs, ds)
    ensures SameButMessage(UpsertAll(x, cs), UpsertAll(y, ds))
    decreases cs
  {
    if cs != [] {
      assert SameMark(cs[0], ds[0]);
      FirstOfTwins(x, y, cs[0].ctype);
      UpsertAllTwins(Upsert(x, cs[0]), Upsert(y, ds[0]), cs[1..], ds[1..]);
    }
  }

  /** One lockstep: twins stay twins, and the suppressing writer issues its write exactly when
      always writing would change the stored object beyond its messages. */
  lemma LockstepOne<R(!new)>(s: Record<R>, t: Record<R>, a: Attempt<R>, b: Attempt<R>)
    requires Twins(s, t) && TwinAttempts(a, b)
    ensures Twins(Suppressing(s, a), Always(t, b))
    ensures Issues(s, a) <==> !Twins(t, Wanted(t, b))
  {
    UpsertAllTwins(s.conditions, t.conditions, a.upserts, b.upserts);
    PositionalComparisonExact(s.conditions, a.upserts);
    assert DistinctTypes(b.upserts);
    PositionalComparisonExact(t.conditions, b.upserts);
    var ws, wt := UpsertAll(s.conditions, a.upserts), UpsertAll(t.conditions, b.upserts);
    assert SameMarks(s.conditions, ws) <==> SameMarks(t.conditions, wt) by {
      if SameMarks(s.conditions, ws) {
        forall i | 0 <= i < |wt| ensures SameMark(t.conditions[i], wt[i]) {
          assert SameMark(s.conditions[i], t.conditions[i]) && SameMark(ws[i], wt[i])
              && SameMark(s.conditions[i], ws[i]);
        }
      }
      if SameMarks(t.conditions, wt) {
        forall i | 0 <= i < |ws| ensures SameMark(s.conditions[i], ws[i]) {
          assert SameMark(s.conditions[i], t.conditions[i]) && SameMark(ws[i], wt[i])
              && SameMark(t.conditions[i], wt[i]);
        }
      }
    }
    if !Issues(s, a) {
      assert SameButMessage(t.conditions, wt);
      assert SameButMessage(s.conditions, wt) by {
        forall i | 0 <= i < |wt|
          ensures SameMark(s.conditions[i], wt[i]) && s.conditions[i].lastTransition == wt[i].lastTransition
        {
          assert SameMark(s.conditions[i], t.conditions[i]) && SameMark(t.conditions[i], wt[i]);
        }
      }
    }
  }

  // ---------- transition times ----------

  /** A status and since when. */
  datatype Mark = Mark(status: ConditionStatus, since: nat)

  function MarkOf(conds: seq<Condition>, t: CondType): Option<Mark> {
    var c := Saying(conds, t);
    if c.Some? then Some(Mark(c.value.status, c.value.lastTransition)) else None
  }

  /** A condition of another status starts a new mark. */
  function MarkAfter(m: Option<Mark>, c: Option<Condition>): Option<Mark> {
    if c.None? || (m.Some? && m.value.status == c.value.status) then m
    else Some(Mark(c.value.status, c.value.lastTransition))
  }

  /** The reference: a delivered update that sets a type to another status starts a new mark. */
  function Noted<R>(m: Option<Mark>, a: Attempt<R>, t: CondType): Option<Mark> {
    if a.delivered then MarkAfter(m, Saying(a.upserts, t)) else m
  }

  function NotedAll<R>(m: Option<Mark>, atts: seq<Attempt<R>>, t: CondType): Option<Mark>
    decreases atts
  {
    if atts == [] then m else NotedAll(Noted(m, atts[0], t), atts[1..], t)
  }

  lemma UpdateNotes<R(!new)>(s: Record<R>, a: Attempt<R>, t: CondType)
    requires DistinctTypes(a.upserts)
    ensures MarkOf(Suppressing(s, a).conditions, t) == Noted(MarkOf(s.conditions, t), a, t)
  {
    if Issues(s, a) {
      UpsertsNote(s.conditions, a.upserts, t);
    } else {
      NothingToNote(s.conditions, a.upserts, t);
    }
  }

  lemma UpsertsNote(conds: seq<Condition>, cs: seq<Condition>, t: CondType)
    requires DistinctTypes(cs)
    ensures MarkOf(UpsertAll(conds, cs), t) == MarkAfter(MarkOf(conds, t), Saying(cs, t))
  {
    var j := First(cs, t);
    if j < |cs| {
      UpsertAllSays(conds, cs, j);
    } else {
      UpsertAllKeepsOthers(conds, cs, t);
    }
  }

  lemma NothingToNote(conds: seq<Condition>, cs: seq<Condition>, t: CondType)
    requires DistinctTypes(cs) && SameMarks(conds, UpsertAll(conds, cs))
    ensures MarkAfter(MarkOf(conds, t), Saying(cs, t)) == MarkOf(conds, t)
  {
    PositionalComparisonExact(conds, cs);
    var j := First(cs, t);
    if j < |cs| {
      assert Holds(conds, cs[j]);
    }
  }

  /** Over any sequence of updates, suppressed or not, delivered or not, every condition has the
      status of the last delivered update of its type and the time of the update that first set
      it to that status, without a change since. */
  lemma {:induction false} TransitionTimesAreExact<R(!new)>(s: Record<R>, atts: seq<Attempt<R>>, t: CondType)
    requires forall i :: 0 <= i < |atts| ==> DistinctTypes(atts[i].upserts)
    ensures MarkOf(RunSuppressing(s, atts).conditions, t) == NotedAll(MarkOf(s.conditions, t), atts, t)
    decreases atts
  {
    if atts != [] {
      UpdateNotes(s, atts[0], t);
      TransitionTimesAreExact(Suppressing(s, atts[0]), atts[1..], t);
    }
  }

  // ---------- what an update leaves ----------

  /** Once an update has gone through, every wanted condition stands with its status and reason,
      whether the write was issued or not. */
  lemma UpdateHolds<R(!new)>(s: Record<R>, a: Attempt<R>)
    requires DistinctTypes(a.upserts) && a.delivered
    ensures forall j :: 0 <= j < |a.upserts| ==> Holds(Suppressing(s, a).conditions, a.upserts[j])
    ensures forall j :: 0 <= j < |a.upserts| ==>
              var said := Saying(Suppressing(s, a).conditions, a.upserts[j].ctype);
              said.Some? && said.value.status == a.upserts[j].status && said.value.reason == a.upserts[j].reason
  {
    PositionalComparisonExact(s.conditions, a.upserts);
    if Issues(s, a) {
      forall j | 0 <= j < |a.upserts| ensures Holds(Wanted(s, a).conditions, a.upserts[j]) {
        UpsertAllCarries(s.conditions, a.upserts, j);
      }
    }
  }

  /** What suppression costs.  Once an update has gone through, the object carries every wanted
      condition with its message exactly when the write was issued or all of them, messages
      included, were carried before. */
  lemma MessagesAreCurrentExactlyWhen<R(!new)>(s: Record<R>, a: Attempt<R>)
    requires DistinctTypes(a.upserts) && a.delivered
    ensures (forall j :: 0 <= j < |a.upserts| ==> Carries(Suppressing(s, a).conditions, a.upserts[j]))
            <==> Issues(s, a) || forall j :: 0 <= j < |a.upserts| ==> Carries(s.conditions, a.upserts[j])
  {
    if Issues(s, a) {
      forall j | 0 <= j < |a.upserts| ensures Carries(Wanted(s, a).conditions, a.upserts[j]) {
        UpsertAllCarries(s.conditions, a.upserts, j);
      }
    }
  }

  /** Whole runs in lockstep: after any sequence of updates the two stores agree on everything
      but messages. */
  lemma {:induction false} Lockstep<R(!new)>(s: Record<R>, t: Record<R>, xs: seq<Attempt<R>>, ys: seq<Attempt<R>>)
    requires Twins(s, t) && TwinInputs(xs, ys)
    ensures Twins(RunSuppressing(s, xs), RunAlways(t, ys))
    decreases xs
  {
    if xs != [] {
      assert TwinAttempts(xs[0], ys[0]);
      LockstepOne(s, t, xs[0], ys[0]);
      Lockstep(Suppressing(s, xs[0]), Always(t, ys[0]), xs[1..], ys[1..]);
    }
  }

  /** ... and at every point of the run a write goes out exactly when the always-writer's
      object would change beyond its messages. */
  lemma WritesExactlyOnChange<R(!new)>(s: Record<R>, t: Record<R>, xs: seq<Attempt<R>>, ys: seq<Attempt<R>>, n: nat)
    requires Twins(s, t) && TwinInputs(xs, ys) && n < |xs|
    ensures var before := RunAlways(t, ys[..n]);
            Issues(RunSuppressing(s, xs[..n]), xs[n]) <==> !Twins(before, Wanted(before, ys[n]))
  {
    Lockstep(s, t, xs[..n], ys[..n]);
    LockstepOne(RunSuppressing(s, xs[..n]), RunAlways(t, ys[..n]), xs[n], ys[n]);
  }
}
