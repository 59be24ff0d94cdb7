/**
 Sums of an integer function over a finite set.

 The sum is defined by taking members out one by one; `SumPick` shows that it does not matter
 which, so that sums over sale ids or movement ids can be compared whatever order the rows came
 in.
 */
module SetSums {

  ghost function Sum<K(!new)>(keys: set<K>, f: K -> int): int
  {
    if keys == {} then 0
    else
      var k :| k in keys;
      f(k) + Sum(keys - {k}, f)
  }

  /** Any member may be taken out first. */
  lemma {:induction false} SumPick<K(!new)>(keys: set<K>, f: K -> int, k: K)
    requires k in keys
    ensures Sum(keys, f) == f(k) + Sum(keys - {k}, f)
    decreases |keys|
  {
    var x :| x in keys && Sum(keys, f) == f(x) + Sum(keys - {x}, f);
    if x != k {
      SumPick(keys - {x}, f, k);
      SumPick(keys - {k}, f, x);
      assert keys - {x} - {k} == keys - {k} - {x};
    }
  }

  /** Only the values on the set matter. */
  lemma {:induction false} SumSame<K(!new)>(keys: set<K>, f: K -> int, g: K -> int)
    requires forall k :: k in keys ==> f(k) == g(k)
    ensures Sum(keys, f) == Sum(keys, g)
    decreases |keys|
  {
    if keys != {} {
      var k :| k in keys;
      SumPick(keys, f, k);
      SumPick(keys, g, k);
      SumSame(keys - {k}, f, g);
    }
  }

  /** Two functions that differ at one member have sums that differ by that much. */
  lemma {:induction false} SumShift<K(!new)>(keys: set<K>, f: K -> int, g: K -> int, k: K)
    requires k in keys
    requires forall j :: j in keys && j != k ==> f(j) == g(j)
    ensures Sum(keys, g) == Sum(keys, f) + g(k) - f(k)
  {
    SumPick(keys, f, k);
    SumPick(keys, g, k);
    SumSame(keys - {k}, f, g);
  }

  lemma {:induction false} SumZero<K(!new)>(keys: set<K>, f: K -> int)
    requires forall k :: k in keys ==> f(k) == 0
    ensures Sum(keys, f) == 0
    decreases |keys|
  {
    if keys != {} {
      var k :| k in keys;
      SumPick(keys, f, k);
      SumZero(keys - {k}, f);
    }
  }

  lemma {:induction false} SumNegated<K(!new)>(keys: set<K>, f: K -> int, g: K -> int)
    requires forall k :: k in keys ==> f(k) == -g(k)
    ensures Sum(keys, f) == -Sum(keys, g)
    decreases |keys|
  {
    if keys != {} {
      var k :| k in keys;
      SumPick(keys, f, k);
      SumPick(keys, g, k);
      SumNegated(keys - {k}, f, g);
    }
  }
}
