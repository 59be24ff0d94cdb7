/**
 Switching plans and switching back.

 A switch keeps the worth of the time left: Pro costs 199 a month for every 99 that Basic costs, so 99
 seconds of Pro come to 199 seconds of Basic. What does not divide is rounded down, once on the way
 there and once on the way back. A switch that rounds nothing can be undone exactly, and otherwise
 the way back never makes up for what the way there lost.
 */
module SwitchingBack {
  import opened Prelude
  import opened Calendar
  import opened Plans

  /** The fraction of a second goes; of the whole seconds at most one does, and none is gained. */
  lemma {:induction false} ProBasicPro(time: nat)
    ensures var back := Converted(Converted(time, Pro, Basic), Basic, Pro);
      (time / SECOND - 1) * SECOND <= back <= time / SECOND * SECOND
  {
    var seconds := time / SECOND;
    var x := seconds * 19_900 / 9_900;
    assert x * SECOND / SECOND == x;
    assert x * 99 <= seconds * 199 <= x * 99 + 98;
    var y := x * 9_900 / 19_900;
    assert y * 199 <= x * 99 <= y * 199 + 198;
    assert y <= seconds <= y + 1;
  }

  /** The other way round it is at most two. */
  lemma {:induction false} BasicProBasic(time: nat)
    ensures var back := Converted(Converted(time, Basic, Pro), Pro, Basic);
      (time / SECOND - 2) * SECOND <= back <= time / SECOND * SECOND
  {
    var seconds := time / SECOND;
    var x := seconds * 9_900 / 19_900;
    assert x * SECOND / SECOND == x;
    assert x * 199 <= seconds * 99 <= x * 199 + 198;
    var y := x * 19_900 / 9_900;
    assert y * 99 <= x * 199 <= y * 99 + 98;
    assert y <= seconds <= y + 2;
  }

  lemma {:induction false} WholeSeconds(seconds: nat, from: Plan, to: Plan)
    requires from != to
    ensures Converted(seconds * SECOND, from, to) == seconds * Monthly(from) / Monthly(to) * SECOND
  {
    Division(seconds * SECOND, SECOND, seconds, 0);
  }

  lemma {:induction false} ConvertedUnits(units: nat, from: Plan, to: Plan)
    requires from != to && units * Monthly(from) % Monthly(to) == 0
    ensures Converted(Converted(units * SECOND, from, to), to, from) == units * SECOND
  {
    var there := units * Monthly(from) / Monthly(to);
    assert there * Monthly(to) == units * Monthly(from);
    WholeSeconds(units, from, to);
    WholeSeconds(there, to, from);
    Division(there * Monthly(to), Monthly(from), units, 0);
  }

  /** Switching and switching back brings all the time back exactly when the first switch rounded nothing. */
  lemma {:induction false} SwitchingBackIsFreeIff(time: nat, from: Plan, to: Plan)
    ensures Converted(Converted(time, from, to), to, from) == time <==> ConvertsExactly(time, from, to)
  {
    if from != to {
      var units, part := time / SECOND, time % SECOND;
      assert time == units * SECOND + part;
      if ConvertsExactly(time, from, to) {
        ConvertedUnits(units, from, to);
      } else if Converted(Converted(time, from, to), to, from) == time {
        ConversionLoss(time, from, to);
        ConversionLoss(Converted(time, from, to), to, from);
      }
    }
  }

  lemma {:induction false} ExactFromPro(time: nat)
    ensures ConvertsExactly(time, Pro, Basic) <==> time % (99 * SECOND) == 0
  {
    MultipleOfPro(time / SECOND);
    WholeUnits(time, 99);
  }

  lemma {:induction false} ExactFromBasic(time: nat)
    ensures ConvertsExactly(time, Basic, Pro) <==> time % (199 * SECOND) == 0
  {
    MultipleOfBasic(time / SECOND);
    WholeUnits(time, 199);
  }

  /** That is every multiple of 99 seconds of Pro and of 199 seconds of Basic; and both bounds above are reached. */
  lemma {:induction false} SwitchingBackCosts(time: nat)
    ensures Converted(Converted(time, Pro, Basic), Basic, Pro) == time <==> time % (99 * SECOND) == 0
    ensures Converted(Converted(time, Basic, Pro), Pro, Basic) == time <==> time % (199 * SECOND) == 0
    ensures Converted(Converted(SECOND, Pro, Basic), Basic, Pro) == 0
    ensures Converted(Converted(2 * SECOND, Basic, Pro), Pro, Basic) == 0
  {
    SwitchingBackIsFreeIff(time, Pro, Basic);
    SwitchingBackIsFreeIff(time, Basic, Pro);
    ExactFromPro(time);
    ExactFromBasic(time);
    assert Converted(SECOND, Pro, Basic) == 2 * SECOND;
    assert Converted(2 * SECOND, Basic, Pro) == 0;
  }

  lemma {:induction false} MultipleOfPro(units: nat)
    ensures units * 19_900 % 9_900 == 0 <==> units % 99 == 0
  {
    var q, r := units / 99, units % 99;
    assert units * 19_900 == 9_900 * (2 * units + q) + 100 * r;
    Division(units * 19_900, 9_900, 2 * units + q, 100 * r);
  }

  lemma {:induction false} MultipleOfBasic(units: nat)
    ensures units * 9_900 % 19_900 == 0 <==> units % 199 == 0
  {
    var q, r := units / 199, units % 199;
    var k, m := 99 * r / 199, 99 * r % 199;
    assert 99 * r == 199 * k + m;
    if m == 0 {
      assert r == 199 * (r - 2 * k);
    }
    assert units * 9_900 == 19_900 * (99 * q + k) + 100 * m;
    Division(units * 9_900, 19_900, 99 * q + k, 100 * m);
  }

  lemma {:induction false} WholeUnits(time: nat, d: nat)
    requires d == 99 || d == 199
    ensures time % (d * SECOND) == 0 <==> time % SECOND == 0 && time / SECOND % d == 0
  {
    var units, part := time / SECOND, time % SECOND;
    var q, r := units / d, units % d;
    assert time == d * SECOND * q + (r * SECOND + part);
    Division(time, d * SECOND, q, r * SECOND + part);
  }
}
