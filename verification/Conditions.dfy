/** The change-aware status writer shared by the three controllers: copy the conditions,
    upsert by type, compare positionally on (Type, Status, Reason), write on difference. */
module Conditions {
  import opened Resources

  // ---------- meta.SetStatusCondition and meta.IsStatusConditionTrue ----------

  /** Index of the first condition of a type, or the length of the list. */
  function First(conds: seq<Condition>, t: CondType): (i: nat)
    ensures i <= |conds|
    ensures i < |conds| ==> conds[i].ctype == t
    ensures forall j :: 0 <= j < i ==> conds[j].ctype != t
  {
    if conds == [] || conds[0].ctype == t then 0 else 1 + First(conds[1..], t)
  }

  predicate IsTrue(conds: seq<Condition>, t: CondType) {
    var i := First(conds, t);
    i < |conds| && conds[i].status == StatusTrue
  }

  /** What SetStatusCondition makes of an existing condition: everything but the type is taken
      over, and the transition time moves only when the status flips. */
  function Overwrite(prev: Condition, c: Condition): Condition {
    Condition(prev.ctype, c.status, c.reason, c.message,
              if prev.status == c.status then prev.lastTransition else c.lastTransition)
  }

  /** SetStatusCondition as a function of the list. */
  function Upsert(conds: seq<Condition>, c: Condition): (r: seq<Condition>)
    ensures |conds| <= |r| <= |conds| + 1
  {
    var i := First(conds, c.ctype);
    if i < |conds| then conds[i := Overwrite(conds[i], c)] else conds + [c]
  }

  function UpsertAll(conds: seq<Condition>, cs: seq<Condition>): (r: seq<Condition>)
    ensures |conds| <= |r|
    decreases cs
  {
    if cs == [] then conds else UpsertAll(Upsert(conds, cs[0]), cs[1..])
  }

  ghost predicate DistinctTypes(cs: seq<Condition>) {
    forall i, j :: 0 <= i < j < |cs| ==> cs[i].ctype != cs[j].ctype
  }

  // ---------- statusUnchanged ----------

  predicate SameMark(a: Condition, b: Condition) {
    a.ctype == b.ctype && a.status == b.status && a.reason == b.reason
  }

  ghost predicate SameMarks(a: seq<Condition>, b: seq<Condition>) {
    |a| == |b| && forall i :: 0 <= i < |a| ==> SameMark(a[i], b[i])
  }

  /** Equality up to the message text. */
  ghost predicate SameButMessage(a: seq<Condition>, b: seq<Condition>) {
    |a| == |b| && forall i :: 0 <= i < |a| ==>
      SameMark(a[i], b[i]) && a[i].lastTransition == b[i].lastTransition
  }

  // ---------- pointwise meaning of a list of upserts ----------

  lemma FirstIs(conds: seq<Condition>, t: CondType, i: nat)
    requires i <= |conds|
    requires i < |conds| ==> conds[i].ctype == t
    requires forall j :: 0 <= j < i ==> conds[j].ctype != t
    ensures First(conds, t) == i
  {
  }

  /** Upserting one type does not move the first occurrence of another. */
  lemma UpsertKeepsFirst(conds: seq<Condition>, c: Condition, t: CondType)
    requires t != c.ctype
    ensures var r := Upsert(conds, c);
            First(r, t) == (if First(conds, t) < |conds| then First(conds, t) else |r|)
  {
    var r := Upsert(conds, c);
    assert forall j :: 0 <= j < |conds| ==> r[j].ctype == conds[j].ctype;
    FirstIs(r, t, if First(conds, t) < |conds| then First(conds, t) else |r|);
  }

  lemma {:induction false} UpsertAllKeepsTypes(conds: seq<Condition>, cs: seq<Condition>, i: nat)
    requires i < |conds|
    ensures UpsertAll(conds, cs)[i].ctype == conds[i].ctype
    decreases cs
  {
    if cs != [] {
      UpsertAllKeepsTypes(Upsert(conds, cs[0]), cs[1..], i);
    }
  }

  /** A position is left alone when its type is not upserted or is repeated from further left. */
  lemma {:induction false} UpsertAllUntouched(conds: seq<Condition>, cs: seq<Condition>, i: nat)
    requires i < |conds|
    requires First(conds, conds[i].ctype) == i ==> forall j :: 0 <= j < |cs| ==> cs[j].ctype != conds[i].ctype
    ensures UpsertAll(conds, cs)[i] == conds[i]
    decreases cs
  {
    if cs != [] {
      var r := Upsert(conds, cs[0]);
      var t := conds[i].ctype;
      assert r[i] == conds[i];
      if cs[0].ctype != t {
        UpsertKeepsFirst(conds, cs[0], t);
      } else {
        FirstIs(r, t, First(conds, t));
      }
      UpsertAllUntouched(r, cs[1..], i);
    }
  }

  /** The first occurrence of an upserted type is overwritten with what was upserted. */
  lemma {:induction false} UpsertAllTouched(conds: seq<Condition>, cs: seq<Condition>, j: nat)
    requires j < |cs| && DistinctTypes(cs)
    requires First(conds, cs[j].ctype) < |conds|
    ensures var i := First(conds, cs[j].ctype);
            UpsertAll(conds, cs)[i] == Overwrite(conds[i], cs[j])
    decreases cs
  {
    var i := First(conds, cs[j].ctype);
    var r := Upsert(conds, cs[0]);
    if j == 0 {
      FirstIs(r, cs[0].ctype, i);
      UpsertAllUntouched(r, cs[1..], i);
    } else {
      UpsertKeepsFirst(conds, cs[0], cs[j].ctype);
      assert cs[1..][j - 1] == cs[j];
      UpsertAllTouched(r, cs[1..], j - 1);
    }
  }

  /** A type that the old list lacks makes the list grow. */
  lemma {:induction false} UpsertAllMissing(conds: seq<Condition>, cs: seq<Condition>, j: nat)
    requires j < |cs| && DistinctTypes(cs)
    requires First(conds, cs[j].ctype) == |conds|
    ensures |UpsertAll(conds, cs)| > |conds|
    decreases cs
  {
    if j > 0 {
      UpsertKeepsFirst(conds, cs[0], cs[j].ctype);
      assert cs[1..][j - 1] == cs[j];
      UpsertAllMissing(Upsert(conds, cs[0]), cs[1..], j - 1);
    }
  }

  lemma {:induction false} UpsertAllPresentLength(conds: seq<Condition>, cs: seq<Condition>)
    requires DistinctTypes(cs)
    requires forall j :: 0 <= j < |cs| ==> First(conds, cs[j].ctype) < |conds|
    ensures |UpsertAll(conds, cs)| == |conds|
    decreases cs
  {
    if cs != [] {
      var r := Upsert(conds, cs[0]);
      forall j | 0 <= j < |cs[1..]| ensures First(r, cs[1..][j].ctype) < |r| {
        assert cs[1..][j] == cs[j + 1];
        UpsertKeepsFirst(conds, cs[0], cs[j + 1].ctype);
      }
      UpsertAllPresentLength(r, cs[1..]);
    }
  }

  /** A type already sits in the list with this status and reason. */
  ghost predicate Holds(conds: seq<Condition>, c: Condition) {
    var i := First(conds, c.ctype);
    i < |conds| && SameMark(conds[i], c)
  }

  /** The positional comparison is exact on any list, duplicates included: old and upserted
      copy compare equal exactly when the first occurrence of every upserted type already
      carries that status and reason, and then nothing but messages can differ. */
  lemma PositionalComparisonExact(conds: seq<Condition>, cs: seq<Condition>)
    requires DistinctTypes(cs)
    ensures SameMarks(conds, UpsertAll(conds, cs)) <==> forall j :: 0 <= j < |cs| ==> Holds(conds, cs[j])
    ensures SameMarks(conds, UpsertAll(conds, cs)) <==> SameButMessage(conds, UpsertAll(conds, cs))
  {
    var r := UpsertAll(conds, cs);
    if SameMarks(conds, r) {
      forall j | 0 <= j < |cs| ensures Holds(conds, cs[j]) {
        if First(conds, cs[j].ctype) == |conds| {
          UpsertAllMissing(conds, cs, j);
        } else {
          UpsertAllTouched(conds, cs, j);
        }
      }
    }
    if forall j :: 0 <= j < |cs| ==> Holds(conds, cs[j]) {
      UpsertAllPresentLength(conds, cs);
      forall i | 0 <= i < |conds| ensures SameMark(conds[i], r[i]) && conds[i].lastTransition == r[i].lastTransition {
        if j :| 0 <= j < |cs| && cs[j].ctype == conds[i].ctype && First(conds, cs[j].ctype) == i {
          UpsertAllTouched(conds, cs, j);
          assert Holds(conds, cs[j]);
        } else {
          UpsertAllUntouched(conds, cs, i);
        }
      }
    }
  }

  // ---------- what upserts leave under a type ----------

  /** A type already sits in the list with this status, reason and message. */
  ghost predicate Carries(conds: seq<Condition>, c: Condition) {
    var i := First(conds, c.ctype);
    i < |conds| && SameMark(conds[i], c) && conds[i].message == c.message
  }

  lemma UpsertCarries(conds: seq<Condition>, c: Condition)
    ensures Carries(Upsert(conds, c), c)
  {
    FirstIs(Upsert(conds, c), c.ctype, First(conds, c.ctype));
  }

  /** Every upserted condition is carried by the result. */
  lemma {:induction false} UpsertAllCarries(conds: seq<Condition>, cs: seq<Condition>, j: nat)
    requires j < |cs| && DistinctTypes(cs)
    ensures Carries(UpsertAll(conds, cs), cs[j])
    decreases cs
  {
    var r := Upsert(conds, cs[0]);
    if j == 0 {
      UpsertCarries(conds, cs[0]);
      UpsertAllKeepsOthers(r, cs[1..], cs[0].ctype);
    } else {
      assert cs[1..][j - 1] == cs[j];
      UpsertAllCarries(r, cs[1..], j - 1);
    }
  }

  /** What the list says first under a type, if anything. */
  function Saying(conds: seq<Condition>, t: CondType): Option<Condition> {
    var i := First(conds, t);
    if i < |conds| then Some(conds[i]) else None
  }

  ghost predicate SaysMessage(conds: seq<Condition>, t: CondType, m: Message) {
    Saying(conds, t).Some? && Saying(conds, t).value.message == m
  }

  /** The i-th of these conditions is carried. */
  ghost predicate CarriedAt(conds: seq<Condition>, cs: seq<Condition>, i: nat) {
    i < |cs| && Carries(conds, cs[i])
  }

  lemma CarriedSays(conds: seq<Condition>, cs: seq<Condition>, i: nat)
    requires CarriedAt(conds, cs, i)
    ensures SaysMessage(conds, cs[i].ctype, cs[i].message)
  {
  }

  lemma UpsertKeepsSaying(conds: seq<Condition>, c: Condition, t: CondType)
    requires t != c.ctype
    ensures Saying(Upsert(conds, c), t) == Saying(conds, t)
  {
    UpsertKeepsFirst(conds, c, t);
  }

  /** Upserts of other types leave what the list says under a type. */
  lemma {:induction false} UpsertAllKeepsOthers(conds: seq<Condition>, cs: seq<Condition>, t: CondType)
    requires forall j :: 0 <= j < |cs| ==> cs[j].ctype != t
    ensures Saying(UpsertAll(conds, cs), t) == Saying(conds, t)
    decreases cs
  {
    if cs != [] {
      UpsertKeepsSaying(conds, cs[0], t);
      UpsertAllKeepsOthers(Upsert(conds, cs[0]), cs[1..], t);
    }
  }

  /** What the list says under an upserted type: the upserted condition, which overwrites the first
      of its type if there is one. */
  lemma {:induction false} UpsertAllSays(conds: seq<Condition>, cs: seq<Condition>, j: nat)
    requires j < |cs| && DistinctTypes(cs)
    ensures var was := Saying(conds, cs[j].ctype);
            Saying(UpsertAll(conds, cs), cs[j].ctype)
            == Some(if was.Some? then Overwrite(was.value, cs[j]) else cs[j])
    decreases cs
  {
    var r := Upsert(conds, cs[0]);
    if j == 0 {
      UpsertSays(conds, cs[0]);
      UpsertAllKeepsOthers(r, cs[1..], cs[0].ctype);
    } else {
      assert cs[1..][j - 1] == cs[j];
      UpsertKeepsSaying(conds, cs[0], cs[j].ctype);
      UpsertAllSays(r, cs[1..], j - 1);
    }
  }

  lemma UpsertSays(conds: seq<Condition>, c: Condition)
    ensures var was := Saying(conds, c.ctype);
            Saying(Upsert(conds, c), c.ctype) == Some(if was.Some? then Overwrite(was.value, c) else c)
  {
    FirstIs(Upsert(conds, c), c.ctype, First(conds, c.ctype));
  }

  // ---------- lists that the operator itself wrote ----------

  /** On a list none of whose types occur yet, the upserts append. */
  lemma {:induction false} UpsertAllFresh(conds: seq<Condition>, cs: seq<Condition>)
    requires DistinctTypes(cs)
    requires forall j :: 0 <= j < |cs| ==> First(conds, cs[j].ctype) == |conds|
    ensures UpsertAll(conds, cs) == conds + cs
    decreases cs
  {
    if cs == [] {
      assert conds + cs == conds;
    } else {
      var r := Upsert(conds, cs[0]);
      forall j | 0 <= j < |cs[1..]| ensures First(r, cs[1..][j].ctype) == |r| {
        assert cs[1..][j] == cs[j + 1];
        UpsertKeepsFirst(conds, cs[0], cs[j + 1].ctype);
      }
      UpsertAllFresh(r, cs[1..]);
      assert conds + cs == r + cs[1..];
    }
  }

  /** On a list that starts with the upserted types in order, the upserts overwrite that prefix
      position by position and leave the rest. */
  lemma UpsertAllOrdered(conds: seq<Condition>, cs: seq<Condition>)
    requires DistinctTypes(cs) && |cs| <= |conds|
    requires forall i :: 0 <= i < |cs| ==> conds[i].ctype == cs[i].ctype
    ensures |UpsertAll(conds, cs)| == |conds|
    ensures forall i :: 0 <= i < |cs| ==> UpsertAll(conds, cs)[i] == Overwrite(conds[i], cs[i])
    ensures forall i :: |cs| <= i < |conds| ==> UpsertAll(conds, cs)[i] == conds[i]
  {
    forall j | 0 <= j < |cs| ensures First(conds, cs[j].ctype) == j {
      FirstIs(conds, cs[j].ctype, j);
    }
    UpsertAllPresentLength(conds, cs);
    forall j | 0 <= j < |cs| ensures UpsertAll(conds, cs)[j] == Overwrite(conds[j], cs[j]) {
      UpsertAllTouched(conds, cs, j);
    }
    forall i | |cs| <= i < |conds| ensures UpsertAll(conds, cs)[i] == conds[i] {
      UpsertAllUntouched(conds, cs, i);
    }
  }
}
