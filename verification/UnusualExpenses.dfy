/** What the detector reports, said of the expenses themselves. */
module UnusualExpenses {
  import opened Prelude
  import opened Outliers

  function CountOf(samples: seq<Sample>, category: string): nat
  {
    if samples == [] then 0
    else
      CountOf(samples[..|samples| - 1], category)
      + (if samples[|samples| - 1].category == category then 1 else 0)
  }

  function SumOf(samples: seq<Sample>, category: string): nat
  {
    if samples == [] then 0
    else
      SumOf(samples[..|samples| - 1], category)
      + (if samples[|samples| - 1].category == category then samples[|samples| - 1].amount else 0)
  }

  /** At least two and a half times the average of a category with four expenses or more. */
  predicate Unusual(samples: seq<Sample>, e: Sample)
  {
    var n, total := CountOf(samples, e.category), SumOf(samples, e.category);
    e in samples && n >= 4 && total > 0 && 2 * e.amount * n >= 5 * total
  }

  /** The multiple of its category's average, to the nearest tenth. */
  predicate IsMultiple(samples: seq<Sample>, e: Sample, tenths: nat)
  {
    var n, total := CountOf(samples, e.category), SumOf(samples, e.category);
    (2 * tenths - 1) * total <= 20 * e.amount * n < (2 * tenths + 1) * total
  }

  lemma {:induction false} GroupFigures(samples: seq<Sample>, category: string)
    ensures |InCategory(samples, category)| == CountOf(samples, category)
    ensures Total(InCategory(samples, category)) == SumOf(samples, category)
  {
    if samples != [] {
      var front, last := samples[..|samples| - 1], samples[|samples| - 1];
      GroupFigures(front, category);
      var group := InCategory(front, category);
      assert (group + [last])[..|group + [last]| - 1] == group;
      assert group + [] == group;
    }
  }

  lemma {:induction false} GroupMembers(samples: seq<Sample>, category: string, e: Sample)
    ensures e in InCategory(samples, category) <==> e in samples && e.category == category
  {
    if samples != [] {
      var front, last := samples[..|samples| - 1], samples[|samples| - 1];
      GroupMembers(front, category, e);
      assert e in samples <==> e in front || e == last;
    }
  }

  lemma {:induction false} OneMultiple(total: nat, x: nat, t: nat, u: nat)
    requires (2 * t - 1) * total <= x < (2 * t + 1) * total
    requires (2 * u - 1) * total <= x < (2 * u + 1) * total
    ensures t == u
  {
    if t < u {
      Scaled(2 * t + 1, 2 * u - 1, total);
    } else if u < t {
      Scaled(2 * u + 1, 2 * t - 1, total);
    }
  }

  lemma {:induction false} Scaled(a: int, b: int, total: nat)
    requires a <= b
    ensures a * total <= b * total
  {
  }

  lemma {:induction false} FlagIsOfEntry(entries: seq<Sample>, total: nat, n: nat, f: Flag)
    requires total > 0 && f in FlagsAmong(entries, total, n)
    ensures f.tenths == Tenths(f.sample.amount, total, n)
  {
    var front := entries[..|entries| - 1];
    if f in FlagsAmong(front, total, n) { FlagIsOfEntry(front, total, n, f); }
  }

  /** What one category contributes. */
  lemma {:induction false} FlagOfCategory(samples: seq<Sample>, category: string, f: Flag)
    ensures f in FlagsOf(InCategory(samples, category)) <==>
        f.sample.category == category && Unusual(samples, f.sample) && IsMultiple(samples, f.sample, f.tenths)
  {
    var group, e := InCategory(samples, category), f.sample;
    GroupFigures(samples, category);
    GroupMembers(samples, category, e);
    var n, total := |group|, Total(group);
    if n >= MINIMUM_SAMPLES && total > 0 {
      FlaggedIffFarOut(group, total, n, e);
      TenthsAreNearest(e.amount, total, n);
      if f in FlagsAmong(group, total, n) { FlagIsOfEntry(group, total, n, f); }
      if e.category == category && IsMultiple(samples, e, f.tenths) {
        OneMultiple(total, 20 * e.amount * n, f.tenths, Tenths(e.amount, total, n));
      }
    }
  }

  lemma {:induction false} FlagAmongAll(samples: seq<Sample>, order: seq<string>, f: Flag)
    ensures f in AllFlags(samples, order) <==>
        f.sample.category in order && Unusual(samples, f.sample) && IsMultiple(samples, f.sample, f.tenths)
  {
    if order != [] {
      var front, last := order[..|order| - 1], order[|order| - 1];
      FlagAmongAll(samples, front, f);
      FlagOfCategory(samples, last, f);
      assert f.sample.category in order <==> f.sample.category in front || f.sample.category == last;
    }
  }

  /** Every expense that is reported is unusual, and is shown with its multiple. */
  lemma {:induction false} ReportedAreUnusual(samples: seq<Sample>, order: seq<string>, f: Flag)
    requires Lists(order, Categories(samples)) && f in Detected(samples, order)
    ensures Unusual(samples, f.sample) && IsMultiple(samples, f.sample, f.tenths)
  {
    var all := AllFlags(samples, order);
    FarthestAreKept(all);
    assert f in multiset(Kept(all));
    assert f in multiset(all);
    FlagAmongAll(samples, order, f);
  }

  /** And every unusual expense is reported, unless five are that are at least as far out. */
  lemma {:induction false} UnusualAreReported(samples: seq<Sample>, order: seq<string>, e: Sample, tenths: nat)
    requires Lists(order, Categories(samples)) && Unusual(samples, e) && IsMultiple(samples, e, tenths)
    ensures Flag(e, tenths) in Detected(samples, order)
      || (|Detected(samples, order)| == 5 && forall f :: f in Detected(samples, order) ==> f.tenths >= tenths)
  {
    var all, flag := AllFlags(samples, order), Flag(e, tenths);
    assert e.category in Categories(samples);
    FlagAmongAll(samples, order, flag);
    FarthestAreKept(all);
    assert flag in multiset(all);
    if flag !in Kept(all) {
      assert flag in multiset(Dropped(all));
      assert flag in Dropped(all);
    }
  }
}
