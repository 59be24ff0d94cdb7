/**
 The standard library's stable sort, `slice::sort_by_key`.

 It is written as an insertion sort, but a model of the standard library's algorithm is not
 needed: `SortIsStable` says that the result is ordered, a permutation, and keeps the order of
 elements with equal keys, and `StableSortIsUnique` that no other stable sort could return
 anything else.
 */
module StableSort {

  ghost predicate Ordered<T>(xs: seq<T>, key: T -> int)
  {
    forall i, j :: 0 <= i < j < |xs| ==> key(xs[i]) <= key(xs[j])
  }

  /** The elements with key `k`, in the order they stand. */
  function WithKey<T>(xs: seq<T>, key: T -> int, k: int): seq<T>
  {
    if xs == [] then []
    else WithKey(xs[..|xs| - 1], key, k) + (if key(xs[|xs| - 1]) == k then [xs[|xs| - 1]] else [])
  }

  /** Puts `x` behind everything that is not greater. */
  function Insert<T>(xs: seq<T>, x: T, key: T -> int): seq<T>
  {
    if xs == [] || key(xs[|xs| - 1]) <= key(x) then xs + [x]
    else Insert(xs[..|xs| - 1], x, key) + [xs[|xs| - 1]]
  }

  function SortBy<T>(xs: seq<T>, key: T -> int): seq<T>
  {
    if xs == [] then [] else Insert(SortBy(xs[..|xs| - 1], key), xs[|xs| - 1], key)
  }

  lemma {:induction false} InsertMembers<T>(xs: seq<T>, x: T, key: T -> int)
    ensures multiset(Insert(xs, x, key)) == multiset(xs) + multiset{x}
  {
    if xs == [] || key(xs[|xs| - 1]) <= key(x) {
    } else {
      InsertMembers(xs[..|xs| - 1], x, key);
      assert xs == xs[..|xs| - 1] + [xs[|xs| - 1]];
    }
  }

  lemma {:induction false} InsertOrdered<T>(xs: seq<T>, x: T, key: T -> int)
    requires Ordered(xs, key)
    ensures Ordered(Insert(xs, x, key), key)
  {
    if xs == [] || key(xs[|xs| - 1]) <= key(x) {
    } else {
      var front := xs[..|xs| - 1];
      InsertOrdered(front, x, key);
      InsertMembers(front, x, key);
      var grown := Insert(front, x, key);
      forall i | 0 <= i < |grown| ensures key(grown[i]) <= key(xs[|xs| - 1]) {
        assert grown[i] in multiset(grown);
        assert grown[i] in multiset(front) + multiset{x};
        assert grown[i] == x || grown[i] in front;
      }
    }
  }

  lemma {:induction false} InsertWithKey<T>(xs: seq<T>, x: T, key: T -> int, k: int)
    requires Ordered(xs, key)
    ensures WithKey(Insert(xs, x, key), key, k)
         == WithKey(xs, key, k) + (if key(x) == k then [x] else [])
  {
    if xs == [] || key(xs[|xs| - 1]) <= key(x) {
      assert (xs + [x])[..|xs|] == xs;
    } else {
      var front, last := xs[..|xs| - 1], xs[|xs| - 1];
      InsertWithKey(front, x, key, k);
      assert (Insert(front, x, key) + [last])[..|Insert(front, x, key)|] == Insert(front, x, key);
    }
  }

  /** The result is sorted and a permutation that keeps the order of equal keys. */
  lemma {:induction false} SortIsStable<T>(xs: seq<T>, key: T -> int)
    ensures Ordered(SortBy(xs, key), key)
    ensures multiset(SortBy(xs, key)) == multiset(xs)
    ensures forall k :: WithKey(SortBy(xs, key), key, k) == WithKey(xs, key, k)
  {
    if xs != [] {
      var front, last := xs[..|xs| - 1], xs[|xs| - 1];
      SortIsStable(front, key);
      InsertOrdered(SortBy(front, key), last, key);
      InsertMembers(SortBy(front, key), last, key);
      assert xs == front + [last];
      forall k ensures WithKey(SortBy(xs, key), key, k) == WithKey(xs, key, k) {
        InsertWithKey(SortBy(front, key), last, key, k);
      }
    }
  }

  lemma {:induction false} WithKeyMember<T>(xs: seq<T>, key: T -> int, i: nat)
    requires i < |xs|
    ensures xs[i] in WithKey(xs, key, key(xs[i]))
  {
    if i < |xs| - 1 {
      WithKeyMember(xs[..|xs| - 1], key, i);
    }
  }

  lemma {:induction false} WithKeySound<T>(xs: seq<T>, key: T -> int, k: int, x: T)
    requires x in WithKey(xs, key, k)
    ensures x in xs && key(x) == k
  {
    if x in WithKey(xs[..|xs| - 1], key, k) {
      WithKeySound(xs[..|xs| - 1], key, k, x);
    }
  }

  lemma {:induction false} LastIsGreatest<T>(xs: seq<T>, key: T -> int, x: T)
    requires Ordered(xs, key) && x in xs
    ensures key(x) <= key(xs[|xs| - 1])
  {
    var i :| 0 <= i < |xs| && xs[i] == x;
    assert i == |xs| - 1 || key(xs[i]) <= key(xs[|xs| - 1]);
  }

  lemma {:induction false} LastEndsGroup<T>(xs: seq<T>, key: T -> int)
    requires xs != []
    ensures var g := WithKey(xs, key, key(xs[|xs| - 1])); g != [] && g[|g| - 1] == xs[|xs| - 1]
  {
  }

  /** Sorted sequences whose groups agree at both last keys end in the same element. */
  lemma {:induction false} SameLast<T>(xs: seq<T>, ys: seq<T>, key: T -> int, x: T, y: T)
    requires Ordered(xs, key) && Ordered(ys, key) && xs != [] && ys != []
    requires x == xs[|xs| - 1] && y == ys[|ys| - 1]
    requires WithKey(xs, key, key(x)) == WithKey(ys, key, key(x))
    requires WithKey(xs, key, key(y)) == WithKey(ys, key, key(y))
    ensures x == y
  {
    LastEndsGroup(xs, key);
    LastEndsGroup(ys, key);
    WithKeySound(ys, key, key(x), x);
    WithKeySound(xs, key, key(y), y);
    LastIsGreatest(ys, key, x);
    LastIsGreatest(xs, key, y);
  }

  lemma {:induction false} SameFront<T>(xs: seq<T>, ys: seq<T>, key: T -> int, k: int)
    requires xs != [] && ys != [] && xs[|xs| - 1] == ys[|ys| - 1]
    requires WithKey(xs, key, k) == WithKey(ys, key, k)
    ensures WithKey(xs[..|xs| - 1], key, k) == WithKey(ys[..|ys| - 1], key, k)
  {
    var a, b := WithKey(xs[..|xs| - 1], key, k), WithKey(ys[..|ys| - 1], key, k);
    var tail := if key(xs[|xs| - 1]) == k then [xs[|xs| - 1]] else [];
    assert a + tail == b + tail;
    assert a == (a + tail)[..|a|] && b == (b + tail)[..|b|];
  }

  /** Two sorted sequences with the same stable groups are the same sequence. */
  lemma {:induction false} StableSortIsUnique<T>(xs: seq<T>, ys: seq<T>, key: T -> int)
    requires Ordered(xs, key) && Ordered(ys, key)
    requires forall k :: WithKey(xs, key, k) == WithKey(ys, key, k)
    ensures xs == ys
  {
    if xs == [] || ys == [] {
      if xs != [] { WithKeyMember(xs, key, 0); }
      if ys != [] { WithKeyMember(ys, key, 0); }
    } else {
      SameLast(xs, ys, key, xs[|xs| - 1], ys[|ys| - 1]);
      var fx, fy := xs[..|xs| - 1], ys[..|ys| - 1];
      forall k ensures WithKey(fx, key, k) == WithKey(fy, key, k) {
        SameFront(xs, ys, key, k);
      }
      StableSortIsUnique(fx, fy, key);
      assert xs == fx + [xs[|xs| - 1]] && ys == fy + [ys[|ys| - 1]];
    }
  }
}
