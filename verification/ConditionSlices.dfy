/** Conditions as the controllers hold them in memory: Go slices over a shared backing array.
    SetStatusCondition writes through the slice, so the copy taken before it is what keeps the
    comparison against the old list meaningful. */
module ConditionSlices {
  import opened Resources
  import opened Conditions

  /** A []metav1.Condition: `cap` is the length of the backing array. */
  datatype Slice = Slice(backing: array<Condition>, len: nat) {
    ghost predicate Valid() {
      len <= backing.Length
    }

    ghost function View(): seq<Condition>
      requires Valid()
      reads backing
    {
      backing[..len]
    }
  }

  /** append([]metav1.Condition{}, old...): the same conditions in an array of their own. */
  method Copied(src: Slice) returns (r: Slice)
    requires src.Valid()
    ensures r.Valid() && fresh(r.backing)
    ensures r.View() == src.View()
  {
    var b := new Condition[src.len](i requires 0 <= i < src.len && src.Valid() reads src.backing => src.backing[i]);
    r := Slice(b, src.len);
  }

  /** meta.SetStatusCondition: overwrites through the slice or appends to it. */
  method SetStatusCondition(s: Slice, c: Condition) returns (r: Slice)
    requires s.Valid()
    modifies s.backing
    ensures r.Valid()
    ensures r.backing == s.backing || fresh(r.backing)
    ensures r.View() == Upsert(old(s.View()), c)
  {
    var i := 0;
    while i < s.len && s.backing[i].ctype != c.ctype
      invariant 0 <= i <= s.len
      invariant forall j :: 0 <= j < i ==> s.backing[j].ctype != c.ctype
    {
      i := i + 1;
    }
    ghost var was := s.View();
    FirstIs(was, c.ctype, i);
    if i < s.len {
      s.backing[i] := Overwrite(s.backing[i], c);
      r := s;
      assert r.View() == was[i := Overwrite(was[i], c)];
    } else if s.len < s.backing.Length {
      s.backing[s.len] := c;
      r := Slice(s.backing, s.len + 1);
      assert r.View() == was + [c];
    } else {
      var cap := 2 * s.len + 1;
      var b := new Condition[cap](j requires s.Valid() reads s.backing => if 0 <= j < s.len then s.backing[j] else c);
      r := Slice(b, s.len + 1);
      assert r.View() == was + [c];
    }
  }

  /** statusUnchanged: the early-exit positional comparison. */
  method StatusUnchanged(prev: Slice, next: Slice) returns (same: bool)
    requires prev.Valid() && next.Valid()
    ensures same <==> SameMarks(prev.View(), next.View())
    ensures same <==> prev.len == next.len && forall i :: 0 <= i < prev.len ==>
                        && prev.backing[i].ctype == next.backing[i].ctype
                        && prev.backing[i].status == next.backing[i].status
                        && prev.backing[i].reason == next.backing[i].reason
  {
    if prev.len != next.len {
      return false;
    }
    var i := 0;
    while i < prev.len
      invariant 0 <= i <= prev.len
      invariant forall j :: 0 <= j < i ==> SameMark(prev.backing[j], next.backing[j])
    {
      if !SameMark(prev.backing[i], next.backing[i]) {
        assert !SameMark(prev.View()[i], next.View()[i]);
        return false;
      }
      i := i + 1;
    }
    return true;
  }

  /** The condition that the setCond closures build from an optional error. */
  function Outcome(t: CondType, err: Option<Message>, okReason: Reason, failReason: Reason, now: nat): Condition {
    if err.Some?
    then Condition(t, StatusFalse, failReason, err.value, now)
    else Condition(t, StatusTrue, okReason, NoMessage, now)
  }

  /** The list after the first `n` of the upserts `cs`. */
  ghost function UpsertFirst(conds: seq<Condition>, cs: seq<Condition>, n: nat): seq<Condition>
    requires n <= |cs|
  {
    if n == 0 then conds else Upsert(UpsertFirst(conds, cs, n - 1), cs[n - 1])
  }

  lemma {:induction false} UpsertFirstSkips(conds: seq<Condition>, cs: seq<Condition>, n: nat)
    requires 0 < n <= |cs|
    ensures UpsertFirst(conds, cs, n) == UpsertFirst(Upsert(conds, cs[0]), cs[1..], n - 1)
  {
    if n > 1 {
      UpsertFirstSkips(conds, cs, n - 1);
    }
  }

  lemma {:induction false} UpsertFirstIsAll(conds: seq<Condition>, cs: seq<Condition>)
    ensures UpsertFirst(conds, cs, |cs|) == UpsertAll(conds, cs)
    decreases cs
  {
    if cs != [] {
      UpsertFirstSkips(conds, cs, |cs|);
      UpsertFirstIsAll(Upsert(conds, cs[0]), cs[1..]);
    }
  }

  /** The setCond closure of the Service and Tenant controllers.  `base` is the list the slice
      was copied from, `cs` the conditions to set in order, and `n` how many are set so far. */
  method SetCond(s: Slice, ghost base: seq<Condition>, ghost cs: seq<Condition>, ghost n: nat,
                 t: CondType, err: Option<Message>, okReason: Reason, failReason: Reason, now: nat)
    returns (r: Slice)
    requires n < |cs| && cs[n] == Outcome(t, err, okReason, failReason, now)
    requires s.Valid() && s.View() == UpsertFirst(base, cs, n)
    modifies s.backing
    ensures r.Valid() && (r.backing == s.backing || fresh(r.backing))
    ensures r.View() == UpsertFirst(base, cs, n + 1)
  {
    r := SetStatusCondition(s, Outcome(t, err, okReason, failReason, now));
  }
}
