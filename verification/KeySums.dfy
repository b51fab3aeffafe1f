/** Sums of per-object values over a finite set of keys. */
module KeySums {
  import opened Resources

  ghost function Sum(keys: set<Key>, f: Key -> nat): nat {
    if keys == {} then 0 else
      var k :| k in keys;
      f(k) + Sum(keys - {k}, f)
  }

  lemma {:induction false} SumRemove(keys: set<Key>, f: Key -> nat, k: Key)
    requires k in keys
    ensures Sum(keys, f) == f(k) + Sum(keys - {k}, f)
    decreases |keys|
  {
    var c :| c in keys && Sum(keys, f) == f(c) + Sum(keys - {c}, f);
    if c != k {
      SumRemove(keys - {c}, f, k);
      SumRemove(keys - {k}, f, c);
      assert keys - {c} - {k} == keys - {k} - {c};
    }
  }

  lemma {:induction false} SumMonotone(keys: set<Key>, f: Key -> nat, g: Key -> nat)
    requires forall k :: k in keys ==> f(k) <= g(k)
    ensures Sum(keys, f) <= Sum(keys, g)
    decreases |keys|
  {
    if keys != {} {
      var k :| k in keys;
      SumRemove(keys, f, k);
      SumRemove(keys, g, k);
      SumMonotone(keys - {k}, f, g);
    }
  }

  lemma Distribute(b: nat, n: nat)
    ensures b * (n + 1) == b * n + b
  {
  }

  /** A sum of values of at most `b`, over the keys where it is not zero. */
  lemma {:induction false} SumBound(keys: set<Key>, f: Key -> nat, busy: set<Key>, b: nat)
    requires forall k :: k in keys ==> f(k) <= b && (k !in busy ==> f(k) == 0)
    requires busy <= keys
    ensures Sum(keys, f) <= b * |busy|
    decreases |keys|
  {
    if keys != {} {
      var k :| k in keys;
      SumRemove(keys, f, k);
      SumBound(keys - {k}, f, busy - {k}, b);
      Without(busy, k, b);
    }
  }

  /** If one key pays for the write up to some slack and no other rises, so does the sum. */
  lemma SumShift(keys: set<Key>, f: Key -> nat, g: Key -> nat, k: Key, w: nat, slack: nat)
    requires forall j :: j in keys && j != k ==> g(j) <= f(j)
    requires g(k) + w <= f(k) + slack && (k !in keys ==> w <= slack)
    ensures Sum(keys, g) + w <= Sum(keys, f) + slack
  {
    if k in keys {
      SumRemove(keys, f, k);
      SumRemove(keys, g, k);
      SumMonotone(keys - {k}, g, f);
    } else {
      SumMonotone(keys, g, f);
    }
  }

  /** A sum of values of at most `b` over some keys, and of one more over others. */
  lemma {:induction false} SumBoundTwo(keys: set<Key>, f: Key -> nat, busy: set<Key>, b: nat, more: set<Key>)
    requires forall k :: k in keys ==> f(k) <= (if k in busy then b else 0) + (if k in more then 1 else 0)
    requires busy <= keys && more <= keys
    ensures Sum(keys, f) <= b * |busy| + |more|
    decreases |keys|
  {
    if keys != {} {
      var k :| k in keys;
      SumRemove(keys, f, k);
      SumBoundTwo(keys - {k}, f, busy - {k}, b, more - {k});
      Without(busy, k, b);
      Without(more, k, 1);
    }
  }

  lemma Without(keys: set<Key>, k: Key, b: nat)
    ensures b * |keys| == b * |keys - {k}| + (if k in keys then b else 0)
  {
    if k in keys {
      assert |keys| == |keys - {k}| + 1;
      Distribute(b, |keys - {k}|);
    } else {
      assert keys - {k} == keys;
    }
  }
}
