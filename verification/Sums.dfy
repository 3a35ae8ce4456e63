/** Finite sums over sets, met in any order. */
module Sums {
  function At<K>(f: map<K, nat>, k: K): nat {
    if k in f then f[k] else 0
  }

  /** The sum of `f` over `keys`; a key `f` does not know counts for nothing. */
  ghost function SumOn<K(!new)>(keys: set<K>, f: map<K, nat>): nat {
    if keys == {} then 0
    else
      var k :| k in keys;
      At(f, k) + SumOn(keys - {k}, f)
  }

  /** Any key may be taken first. */
  lemma {:induction false} SumTake<K(!new)>(keys: set<K>, f: map<K, nat>, k: K)
    requires k in keys
    ensures SumOn(keys, f) == At(f, k) + SumOn(keys - {k}, f)
  {
    var j :| j in keys && SumOn(keys, f) == At(f, j) + SumOn(keys - {j}, f);
    if j != k {
      SumTake(keys - {j}, f, k);
      SumTake(keys - {k}, f, j);
      assert keys - {j} - {k} == keys - {k} - {j};
    }
  }

  lemma {:induction false} SumUnion<K(!new)>(a: set<K>, b: set<K>, f: map<K, nat>)
    requires a !! b
    ensures SumOn(a + b, f) == SumOn(a, f) + SumOn(b, f)
  {
    if a == {} {
      assert a + b == b;
    } else {
      var k :| k in a;
      SumUnion(a - {k}, b, f);
      assert a + b - {k} == (a - {k}) + b;
      SumTake(a, f, k);
      SumTake(a + b, f, k);
    }
  }

  /** Two weightings that agree on the keys have the same sum. */
  lemma {:induction false} SumSame<K(!new)>(keys: set<K>, f: map<K, nat>, g: map<K, nat>)
    requires forall k :: k in keys ==> At(f, k) == At(g, k)
    ensures SumOn(keys, f) == SumOn(keys, g)
  {
    if keys != {} {
      var k :| k in keys;
      SumTake(keys, f, k);
      SumTake(keys, g, k);
      SumSame(keys - {k}, f, g);
    }
  }

  lemma {:induction false} SumIsZero<K(!new)>(keys: set<K>, f: map<K, nat>)
    ensures SumOn(keys, f) == 0 <==> forall k :: k in keys ==> At(f, k) == 0
  {
    if keys != {} {
      var k :| k in keys;
      SumTake(keys, f, k);
      SumIsZero(keys - {k}, f);
    }
  }

  /** A part of the keys has the whole sum exactly when nothing positive is left out. */
  lemma SumOfPart<K(!new)>(part: set<K>, f: map<K, nat>)
    requires part <= f.Keys
    ensures SumOn(part, f) <= SumOn(f.Keys, f)
    ensures SumOn(part, f) == SumOn(f.Keys, f) <==> forall k :: k in f && f[k] > 0 ==> k in part
  {
    var rest := f.Keys - part;
    assert part + rest == f.Keys;
    SumUnion(part, rest, f);
    SumIsZero(rest, f);
  }

  /** Two sums agree when the keys only one of them has count for nothing. */
  lemma SumOfAllButZero<K(!new)>(part: set<K>, whole: set<K>, f: map<K, nat>, g: map<K, nat>)
    requires part <= whole
    requires forall k :: k in part ==> At(f, k) == At(g, k)
    requires forall k :: k in whole - part ==> At(g, k) == 0
    ensures SumOn(part, f) == SumOn(whole, g)
  {
    var rest := whole - part;
    assert part + rest == whole;
    SumSame(part, f, g);
    SumUnion(part, rest, g);
    SumIsZero(rest, g);
  }
}
