/**
 Unusual expenses: entries at least two and a half times their category's average, the five
 farthest out first. Amounts are centavos; the average and the ratio are exact.

 The rule is kept in whole numbers: an amount is flagged when 2 * amount * n >= 5 * total, which is
 amount >= 2.5 * (total / n). The categories come out of a hash map, so the order in which they are
 listed is a parameter.
 */
module Outliers {
  import opened Prelude
  import opened StableSort

  const MINIMUM_SAMPLES: nat := 4
  const MAX_FLAGGED: nat := 5

  datatype Sample = Sample(id: Id, category: string, amount: nat)

  /** A flagged expense; `tenths` is its multiple of the average, rounded to one decimal. */
  datatype Flag = Flag(sample: Sample, tenths: nat)

  function Total(entries: seq<Sample>): nat
  {
    if entries == [] then 0 else Total(entries[..|entries| - 1]) + entries[|entries| - 1].amount
  }

  /** amount / (total / n) >= 2.5 */
  predicate FarOut(amount: nat, total: nat, n: nat)
  {
    5 * total <= 2 * amount * n
  }

  /** The multiple of the average in tenths, half up. */
  function Tenths(amount: nat, total: nat, n: nat): nat
    requires total > 0
  {
    (20 * amount * n + total) / (2 * total)
  }

  function FlagsAmong(entries: seq<Sample>, total: nat, n: nat): seq<Flag>
    requires total > 0
  {
    if entries == [] then []
    else
      var last := entries[|entries| - 1];
      FlagsAmong(entries[..|entries| - 1], total, n)
      + (if FarOut(last.amount, total, n) then [Flag(last, Tenths(last.amount, total, n))] else [])
  }

  /** What one category contributes: nothing if its history is thin or costs nothing. */
  function FlagsOf(entries: seq<Sample>): seq<Flag>
  {
    if |entries| < MINIMUM_SAMPLES || Total(entries) == 0 then [] else FlagsAmong(entries, Total(entries), |entries|)
  }

  function InCategory(samples: seq<Sample>, category: string): seq<Sample>
  {
    if samples == [] then []
    else
      InCategory(samples[..|samples| - 1], category)
      + (if samples[|samples| - 1].category == category then [samples[|samples| - 1]] else [])
  }

  function Categories(samples: seq<Sample>): set<string>
  {
    set s | s in samples :: s.category
  }

  /** All the flags, category by category in the order the map happens to list them. */
  function AllFlags(samples: seq<Sample>, order: seq<string>): seq<Flag>
  {
    if order == [] then []
    else AllFlags(samples, order[..|order| - 1]) + FlagsOf(InCategory(samples, order[|order| - 1]))
  }

  /** Sorting by it puts the greatest multiple first. */
  function Nearness(f: Flag): int
  {
    var t: int := f.tenths;
    -t
  }

  function ByNearness(): Flag -> int { (f: Flag) => Nearness(f) }

  function Sorted(flags: seq<Flag>): seq<Flag> { SortBy(flags, ByNearness()) }

  function Kept(flags: seq<Flag>): seq<Flag>
  {
    var sorted := Sorted(flags);
    if |sorted| <= MAX_FLAGGED then sorted else sorted[..MAX_FLAGGED]
  }

  function Detected(samples: seq<Sample>, order: seq<string>): seq<Flag>
  {
    Kept(AllFlags(samples, order))
  }

  ghost predicate Lists(order: seq<string>, categories: set<string>)
  {
    && (forall i, j :: 0 <= i < j < |order| ==> order[i] != order[j])
    && (forall c :: c in order <==> c in categories)
  }

  // ----- The loops -----

  method GroupByCategory(samples: seq<Sample>) returns (groups: map<string, seq<Sample>>)
    ensures groups.Keys == Categories(samples)
    ensures forall c :: c in groups ==> groups[c] == InCategory(samples, c)
  {
    groups := map[];
    for i := 0 to |samples|
      invariant groups.Keys == Categories(samples[..i])
      invariant forall c :: c in groups ==> groups[c] == InCategory(samples[..i], c)
    {
      var s := samples[i];
      CategoriesGrow(samples, i);
      forall c
          ensures InCategory(samples[..i + 1], c) ==
                  InCategory(samples[..i], c) + (if s.category == c then [s] else []) {
        assert samples[..i + 1][..i] == samples[..i];
      }
      if s.category !in groups { NoneInCategory(samples[..i], s.category); }
      groups := groups[s.category := (if s.category in groups then groups[s.category] else []) + [s]];
    }
    assert samples[..|samples|] == samples;
  }

  lemma {:induction false} CategoriesGrow(samples: seq<Sample>, i: nat)
    requires i < |samples|
    ensures Categories(samples[..i + 1]) == Categories(samples[..i]) + {samples[i].category}
  {
    assert samples[..i + 1] == samples[..i] + [samples[i]];
  }

  lemma {:induction false} NoneInCategory(samples: seq<Sample>, category: string)
    requires category !in Categories(samples)
    ensures InCategory(samples, category) == []
  {
    if samples != [] {
      assert samples[|samples| - 1] in samples;
      NoneInCategory(samples[..|samples| - 1], category);
    }
  }

  method FlagEntries(entries: seq<Sample>) returns (flags: seq<Flag>)
    ensures flags == FlagsOf(entries)
  {
    if |entries| < MINIMUM_SAMPLES { return []; }
    var total := 0;
    for i := 0 to |entries|
      invariant total == Total(entries[..i])
    {
      assert entries[..i + 1][..i] == entries[..i];
      total := total + entries[i].amount;
    }
    assert entries[..|entries|] == entries;
    if total == 0 { return []; }
    flags := [];
    for i := 0 to |entries|
      invariant flags == FlagsAmong(entries[..i], total, |entries|)
    {
      assert entries[..i + 1][..i] == entries[..i];
      if FarOut(entries[i].amount, total, |entries|) {
        flags := flags + [Flag(entries[i], Tenths(entries[i].amount, total, |entries|))];
      }
    }
  }

  /** `detect_unusual_expenses`; `order` is the order in which the map lists its categories. */
  method DetectUnusualExpenses(samples: seq<Sample>, order: seq<string>) returns (flagged: seq<Flag>)
    requires Lists(order, Categories(samples))
    ensures flagged == Detected(samples, order)
  {
    var groups := GroupByCategory(samples);
    flagged := [];
    for i := 0 to |order|
      invariant flagged == AllFlags(samples, order[..i])
    {
      assert order[i] in order;
      assert order[..i + 1][..i] == order[..i];
      var flags := FlagEntries(groups[order[i]]);
      flagged := flagged + flags;
    }
    assert order[..|order|] == order;
    flagged := Sorted(flagged);
    if |flagged| > MAX_FLAGGED {
      flagged := flagged[..MAX_FLAGGED];
    }
  }

  // ----- What is flagged -----

  /** Exactly the entries that are far out are flagged. */
  lemma {:induction false} FlaggedIffFarOut(entries: seq<Sample>, total: nat, n: nat, e: Sample)
    requires total > 0
    ensures Flag(e, Tenths(e.amount, total, n)) in FlagsAmong(entries, total, n)
        <==> e in entries && FarOut(e.amount, total, n)
  {
    if entries != [] {
      var front, last := entries[..|entries| - 1], entries[|entries| - 1];
      FlaggedIffFarOut(front, total, n, e);
      assert e in entries <==> e in front || e == last;
    }
  }

  /** What is shown beside a flag is its multiple to the nearest tenth, and at least two and a half. */
  lemma {:induction false} FlagShowsMultiple(entries: seq<Sample>, total: nat, n: nat, f: Flag)
    requires total > 0 && f in FlagsAmong(entries, total, n)
    ensures f.tenths >= 25
    ensures (2 * f.tenths - 1) * total <= 20 * f.sample.amount * n < (2 * f.tenths + 1) * total
  {
    var last := entries[|entries| - 1];
    if f in FlagsAmong(entries[..|entries| - 1], total, n) {
      FlagShowsMultiple(entries[..|entries| - 1], total, n, f);
    } else {
      TenthsAreNearest(last.amount, total, n);
    }
  }

  lemma {:induction false} TenthsAreNearest(amount: nat, total: nat, n: nat)
    requires total > 0
    ensures var t := Tenths(amount, total, n);
      && (2 * t - 1) * total <= 20 * amount * n < (2 * t + 1) * total
      && (FarOut(amount, total, n) ==> t >= 25)
  {
    var t, whole := Tenths(amount, total, n), 20 * amount * n + total;
    Quotient(whole, 2 * total, t);
    assert (2 * t - 1) * total == 2 * total * t - total;
    assert (2 * t + 1) * total == 2 * total * t + total;
    if FarOut(amount, total, n) && t < 25 {
      assert 50 * total <= 20 * amount * n;
      Multiples(t, 25, 2 * total);
    }
  }

  lemma {:induction false} Quotient(n: nat, d: nat, q: nat)
    requires d > 0 && q == n / d
    ensures d * q <= n < d * q + d
  {
  }

  // ----- How many can be flagged -----

  lemma {:induction false} FlagsWeigh(entries: seq<Sample>, total: nat, n: nat)
    requires total > 0
    ensures 5 * total * |FlagsAmong(entries, total, n)| <= 2 * n * Total(entries)
  {
    if entries != [] {
      var front, last := entries[..|entries| - 1], entries[|entries| - 1];
      FlagsWeigh(front, total, n);
      var k := |FlagsAmong(front, total, n)|;
      assert 2 * n * (Total(front) + last.amount) == 2 * n * Total(front) + 2 * last.amount * n;
      assert 5 * total * (k + 1) == 5 * total * k + 5 * total;
    }
  }

  lemma {:induction false} Cancel(a: nat, b: nat, c: nat)
    requires c > 0 && a * c <= b * c
    ensures a <= b
  {
    if a > b { Multiples(b, a, c); }
  }

  lemma {:induction false} Multiples(b: nat, a: nat, c: nat)
    requires b < a
    ensures b * c + c <= a * c
  {
    if b + 1 < a { Multiples(b, a - 1, c); }
    assert a * c == (a - 1) * c + c;
  }

  /** At most two entries in five of a category can be that far above its average. */
  lemma {:induction false} FlaggedAreFew(entries: seq<Sample>)
    ensures 5 * |FlagsOf(entries)| <= 2 * |entries|
  {
    if |entries| >= MINIMUM_SAMPLES && Total(entries) > 0 {
      FlagsWeigh(entries, Total(entries), |entries|);
      WeighedFlags(Total(entries), |FlagsOf(entries)|, |entries|);
    }
  }

  lemma {:induction false} WeighedFlags(total: nat, k: nat, n: nat)
    requires total > 0 && 5 * total * k <= 2 * n * total
    ensures 5 * k <= 2 * n
  {
    assert 5 * total * k == 5 * k * total;
    Cancel(5 * k, 2 * n, total);
  }

  function Sizes(samples: seq<Sample>, order: seq<string>): nat
  {
    if order == [] then 0 else Sizes(samples, order[..|order| - 1]) + |InCategory(samples, order[|order| - 1])|
  }

  lemma {:induction false} OneMoreSample(samples: seq<Sample>, order: seq<string>)
    requires samples != []
    requires forall i, j :: 0 <= i < j < |order| ==> order[i] != order[j]
    ensures Sizes(samples, order) ==
        Sizes(samples[..|samples| - 1], order) + (if samples[|samples| - 1].category in order then 1 else 0)
  {
    if order != [] {
      var front, last := order[..|order| - 1], order[|order| - 1];
      OneMoreSample(samples, front);
      assert order == front + [last];
    }
  }

  lemma {:induction false} SizesAddUp(samples: seq<Sample>, order: seq<string>)
    requires forall i, j :: 0 <= i < j < |order| ==> order[i] != order[j]
    ensures Sizes(samples, order) <= |samples|
  {
    if samples == [] {
      NoSizes(order);
    } else {
      OneMoreSample(samples, order);
      SizesAddUp(samples[..|samples| - 1], order);
    }
  }

  lemma {:induction false} NoSizes(order: seq<string>)
    ensures Sizes([], order) == 0
  {
    if order != [] { NoSizes(order[..|order| - 1]); }
  }

  lemma {:induction false} FlagsFollowSizes(samples: seq<Sample>, order: seq<string>)
    ensures 5 * |AllFlags(samples, order)| <= 2 * Sizes(samples, order)
  {
    if order != [] {
      FlagsFollowSizes(samples, order[..|order| - 1]);
      FlaggedAreFew(InCategory(samples, order[|order| - 1]));
    }
  }

  /** And so of all the entries together. */
  lemma {:induction false} AtMostTwoInFive(samples: seq<Sample>, order: seq<string>)
    requires Lists(order, Categories(samples))
    ensures 5 * |AllFlags(samples, order)| <= 2 * |samples|
  {
    FlagsFollowSizes(samples, order);
    SizesAddUp(samples, order);
  }

  // ----- What is kept -----

  lemma {:induction false} CutInTwo(sorted: seq<Flag>, n: nat)
    requires n <= |sorted| && Ordered(sorted, ByNearness())
    ensures forall i, j :: 0 <= i < j < n ==> sorted[..n][i].tenths >= sorted[..n][j].tenths
    ensures forall dropped, f :: dropped in sorted[n..] && f in sorted[..n] ==> dropped.tenths <= f.tenths
  {
    var key := ByNearness();
    forall i, j | 0 <= i < j < |sorted| ensures sorted[i].tenths >= sorted[j].tenths {
      assert key(sorted[i]) <= key(sorted[j]);
    }
    forall dropped, f | dropped in sorted[n..] && f in sorted[..n] ensures dropped.tenths <= f.tenths {
      var i :| 0 <= i < n && sorted[..n][i] == f;
      var j :| 0 <= j < |sorted| - n && sorted[n..][j] == dropped;
      assert sorted[i] == f && sorted[n + j] == dropped;
    }
  }

  /** The flags that did not make the list. */
  function Dropped(flags: seq<Flag>): seq<Flag>
  {
    var sorted := Sorted(flags);
    if |sorted| <= MAX_FLAGGED then [] else sorted[MAX_FLAGGED..]
  }

  /** At most five, the farthest out first; nothing is made up, and nothing dropped is farther out than what is kept. */
  lemma {:induction false} FarthestAreKept(flags: seq<Flag>)
    ensures |Kept(flags)| == if |flags| < MAX_FLAGGED then |flags| else MAX_FLAGGED
    ensures multiset(flags) == multiset(Kept(flags)) + multiset(Dropped(flags))
    ensures forall i, j :: 0 <= i < j < |Kept(flags)| ==> Kept(flags)[i].tenths >= Kept(flags)[j].tenths
    ensures forall dropped, f :: dropped in Dropped(flags) && f in Kept(flags) ==> dropped.tenths <= f.tenths
  {
    var sorted := Sorted(flags);
    SortIsStable(flags, ByNearness());
    assert |multiset(sorted)| == |multiset(flags)|;
    assert sorted == Kept(flags) + Dropped(flags);
    CutInTwo(sorted, |Kept(flags)|);
    assert sorted[..|Kept(flags)|] == Kept(flags) && sorted[|Kept(flags)|..] == Dropped(flags);
  }

  // ----- Whatever order the map lists its categories in -----

  lemma {:induction false} TakenOut<T>(b: seq<T>, k: nat)
    requires k < |b|
    ensures multiset(b) == multiset(b[..k] + b[k + 1..]) + multiset{b[k]}
  {
    assert b == b[..k] + [b[k]] + b[k + 1..];
  }

  /** Taking the last element of one list out of another with the same elements. */
  lemma {:induction false} SameRest<T>(a: seq<T>, b: seq<T>, k: nat)
    requires multiset(a) == multiset(b) && a != [] && k < |b| && b[k] == a[|a| - 1]
    ensures multiset(a[..|a| - 1]) == multiset(b[..k] + b[k + 1..])
  {
    TakenOut(b, k);
    var x, front, rest := a[|a| - 1], a[..|a| - 1], b[..k] + b[k + 1..];
    assert a == front + [x];
    assert multiset(front) + multiset{x} == multiset(rest) + multiset{x};
    assert multiset(front) == (multiset(front) + multiset{x}) - multiset{x};
    assert multiset(rest) == (multiset(rest) + multiset{x}) - multiset{x};
  }

  lemma {:induction false} FrontWithout<T>(order: seq<T>, k: nat)
    requires k < |order| - 1
    ensures var rest := order[..k] + order[k + 1..];
      rest != [] && rest[|rest| - 1] == order[|order| - 1]
      && rest[..|rest| - 1] == order[..|order| - 1][..k] + order[..|order| - 1][k + 1..]
  {
    var front := order[..|order| - 1];
    assert front[..k] == order[..k];
    assert order[k + 1..] == front[k + 1..] + [order[|order| - 1]];
    var m, last := front[..k] + front[k + 1..], order[|order| - 1];
    assert order[..k] + order[k + 1..] == m + [last];
    assert (m + [last])[..|m|] == m && (m + [last])[|m|] == last;
  }

  lemma {:induction false} FlagsWithout(samples: seq<Sample>, order: seq<string>, k: nat)
    requires k < |order|
    ensures multiset(AllFlags(samples, order))
         == multiset(AllFlags(samples, order[..k] + order[k + 1..])) + multiset(FlagsOf(InCategory(samples, order[k])))
  {
    var rest := order[..k] + order[k + 1..];
    if k == |order| - 1 {
      assert rest == order[..|order| - 1];
    } else {
      FlagsWithout(samples, order[..|order| - 1], k);
      FrontWithout(order, k);
    }
  }

  lemma {:induction false} SameFlags(samples: seq<Sample>, a: seq<string>, b: seq<string>)
    requires multiset(a) == multiset(b)
    ensures multiset(AllFlags(samples, a)) == multiset(AllFlags(samples, b))
    decreases |a|
  {
    if a == [] {
      assert |multiset(b)| == 0;
    } else {
      var last := a[|a| - 1];
      assert last in multiset(b);
      var k :| 0 <= k < |b| && b[k] == last;
      SameRest(a, b, k);
      SameFlags(samples, a[..|a| - 1], b[..k] + b[k + 1..]);
      FlagsWithout(samples, b, k);
    }
  }

  function TenthsOf(flags: seq<Flag>): seq<int> { seq(|flags|, i requires 0 <= i < |flags| => Nearness(flags[i])) }

  lemma {:induction false} StillOrdered(b: seq<Flag>, k: nat)
    requires k < |b| && Ordered(b, ByNearness())
    ensures Ordered(b[..k] + b[k + 1..], ByNearness())
  {
    var rest, key := b[..k] + b[k + 1..], ByNearness();
    forall i, j | 0 <= i < j < |rest| ensures key(rest[i]) <= key(rest[j]) {
      assert rest[i] == b[if i < k then i else i + 1] && rest[j] == b[if j < k then j else j + 1];
    }
  }

  lemma {:induction false} LastsTie(a: seq<Flag>, b: seq<Flag>)
    requires multiset(a) == multiset(b) && a != [] && b != []
    requires Ordered(a, ByNearness()) && Ordered(b, ByNearness())
    ensures Nearness(a[|a| - 1]) == Nearness(b[|b| - 1]) && a[|a| - 1] in b
  {
    var x, y := a[|a| - 1], b[|b| - 1];
    assert x in multiset(b) && y in multiset(a);
    LastIsGreatest(b, ByNearness(), x);
    LastIsGreatest(a, ByNearness(), y);
  }

  /** Two lists of the same flags, both sorted, show the same multiples in the same places. */
  lemma {:induction false} SameTenths(a: seq<Flag>, b: seq<Flag>)
    requires multiset(a) == multiset(b)
    requires Ordered(a, ByNearness()) && Ordered(b, ByNearness())
    ensures TenthsOf(a) == TenthsOf(b)
    decreases |a|
  {
    assert |multiset(a)| == |a| && |multiset(b)| == |b|;
    if a != [] {
      LastsTie(a, b);
      var k :| 0 <= k < |b| && b[k] == a[|a| - 1];
      SameRest(a, b, k);
      StillOrdered(b, k);
      SameTenths(a[..|a| - 1], b[..k] + b[k + 1..]);
      TiedAtTheEnd(b, k);
      LastTenths(a);
      LastTenths(b);
    }
  }

  lemma {:induction false} LastTenths(a: seq<Flag>)
    requires a != []
    ensures TenthsOf(a) == TenthsOf(a[..|a| - 1]) + [Nearness(a[|a| - 1])]
    ensures TenthsOf(a)[..|a| - 1] == TenthsOf(a[..|a| - 1])
  {
  }

  /** Taking an element with the last key out of a sorted list leaves the keys of the list without its last. */
  lemma {:induction false} TiedAtTheEnd(b: seq<Flag>, k: nat)
    requires k < |b| && Ordered(b, ByNearness()) && Nearness(b[k]) == Nearness(b[|b| - 1])
    ensures TenthsOf(b[..k] + b[k + 1..]) == TenthsOf(b)[..|b| - 1]
  {
    var key := ByNearness();
    var rest := b[..k] + b[k + 1..];
    forall i | k <= i < |b| ensures Nearness(b[i]) == Nearness(b[k]) {
      assert i == k || key(b[k]) <= key(b[i]);
      assert i == |b| - 1 || key(b[i]) <= key(b[|b| - 1]);
    }
  }

  /** The multiples shown do not depend on the order the map lists its categories in; only ties can trade places. */
  lemma {:induction false} OrderMovesOnlyTies(samples: seq<Sample>, a: seq<string>, b: seq<string>)
    requires Lists(a, Categories(samples)) && Lists(b, Categories(samples))
    ensures TenthsOf(Detected(samples, a)) == TenthsOf(Detected(samples, b))
  {
    SameMembers(a, b);
    SameFlags(samples, a, b);
    var x, y := AllFlags(samples, a), AllFlags(samples, b);
    SortIsStable(x, ByNearness());
    SortIsStable(y, ByNearness());
    SameTenths(Sorted(x), Sorted(y));
    KeptTenths(x);
    KeptTenths(y);
  }

  lemma {:induction false} KeptTenths(flags: seq<Flag>)
    ensures var all := TenthsOf(Sorted(flags));
      TenthsOf(Kept(flags)) == if |all| <= MAX_FLAGGED then all else all[..MAX_FLAGGED]
  {
  }

  lemma {:induction false} SameMembers(a: seq<string>, b: seq<string>)
    requires forall i, j :: 0 <= i < j < |a| ==> a[i] != a[j]
    requires forall i, j :: 0 <= i < j < |b| ==> b[i] != b[j]
    requires forall c :: c in a <==> c in b
    ensures multiset(a) == multiset(b)
  {
    forall c ensures multiset(a)[c] == multiset(b)[c] {
      CountOnce(a, c);
      CountOnce(b, c);
    }
  }

  lemma {:induction false} CountOnce(a: seq<string>, c: string)
    requires forall i, j :: 0 <= i < j < |a| ==> a[i] != a[j]
    ensures multiset(a)[c] == if c in a then 1 else 0
  {
    if a != [] {
      var front, last := a[..|a| - 1], a[|a| - 1];
      CountOnce(front, c);
      assert a == front + [last];
      assert forall i :: 0 <= i < |front| ==> front[i] == a[i];
    }
  }
}
