/**
 What a payment buys, and where an account stands as time passes. Instants are microseconds.

 Paid time begins when the trial is over. A payment adds calendar months behind the time already paid
 for, which is first converted to the new plan at the price ratio, in whole seconds. What is bought is
 counted by the calendar, apart from the computation, and compared with what is used, left and lost.

 A standing is the trial, then the paid period, then a grace period, then nothing; each one announces
 where it ends.
 */
module Plans {
  import opened Prelude
  import opened Calendar

  datatype Plan = Basic | Pro

  function Monthly(plan: Plan): nat { if plan == Basic then 9_900 else 19_900 }

  /** A year is billed as ten months. */
  function Price(plan: Plan, months: nat): nat
  {
    Monthly(plan) * (if months == 12 then 10 else months)
  }

  /** A stored subscription. */
  datatype Subscription = Subscription(plan: Plan, trial: Option<nat>, paid: Option<nat>)

  function Later(a: nat, b: nat): nat { if a < b then b else a }

  /** Paid time starts once the trial is over. */
  function PaidFrom(s: Subscription, now: nat): nat
  {
    match s.trial
    case Some(trial) => Later(trial, now)
    case None => now
  }

  /** Paid time not yet used at `now`. */
  function Remaining(s: Subscription, now: nat): nat
  {
    if s.paid.Some? && s.paid.value > PaidFrom(s, now) then s.paid.value - PaidFrom(s, now) else 0
  }

  /** Whole seconds at the price ratio; time on the same plan stays as it is. */
  function Converted(time: nat, from: Plan, to: Plan): nat
  {
    if from == to then time else time / SECOND * Monthly(from) / Monthly(to) * SECOND
  }

  function Start(current: Option<Subscription>, plan: Plan, now: nat): nat
  {
    match current
    case None => now
    case Some(s) => PaidFrom(s, now) + Converted(Remaining(s, now), s.plan, plan)
  }

  /** Calendar months, or thirty days each where the calendar ends. */
  function Extended(start: nat, months: nat): nat
  {
    match AddMonths(start, months)
    case Some(t) => t
    case None => start + 30 * months * DAY
  }

  function PaidThroughAfter(current: Option<Subscription>, plan: Plan, months: nat, now: nat): nat
  {
    Extended(Start(current, plan, now), months)
  }

  /** The stored subscription after a payment: the trial is left alone. */
  function AfterPayment(current: Option<Subscription>, plan: Plan, months: nat, now: nat): Subscription
  {
    Subscription(plan, if current.Some? then current.value.trial else None,
                 Some(PaidThroughAfter(current, plan, months, now)))
  }

  /** `paid_through_after` as it is written, one step at a time. */
  method ComputePaidThrough(current: Option<Subscription>, plan: Plan, months: nat, now: nat) returns (through: nat)
    ensures through == PaidThroughAfter(current, plan, months, now)
    ensures LandsOn(Start(current, plan, now), months, through)
  {
    PaidThroughLands(current, plan, months, now);
    var start := now;
    if current.Some? {
      var s := current.value;
      var paidFrom := now;
      if s.trial.Some? && s.trial.value > now {
        paidFrom := s.trial.value;
      }
      start := paidFrom;
      if s.paid.Some? && s.paid.value > paidFrom {
        var remaining := s.paid.value - paidFrom;
        start := paidFrom + Converted(remaining, s.plan, plan);
      } else {
        NothingConverted(s.plan, plan);
      }
    }
    assert start == Start(current, plan, now);
    through := Extended(start, months);
  }

  /**
   `t` is `months` calendar months behind `start`: the same time on the same day of the month counted on, or on
   that month's last day if it is shorter. Where the calendar ends it is thirty days a month.
   */
  predicate LandsOn(start: nat, months: nat, t: nat)
  {
    var month := MonthOf(start / DAY);
    var dayOfMonth := start / DAY - MonthStart(month);
    if month + months < 12 * (LAST_YEAR - 1969) then
      && t % DAY == start % DAY
      && MonthOf(t / DAY) == month + months
      && t / DAY - MonthStart(month + months)
           == (if dayOfMonth < DaysIn(month + months) then dayOfMonth else DaysIn(month + months) - 1)
    else t == start + 30 * months * DAY
  }

  /** The paid period ends so many calendar months behind the end of the trial and of the time already paid for. */
  lemma {:induction false} PaidThroughLands(current: Option<Subscription>, plan: Plan, months: nat, now: nat)
    ensures var start :=
        if current.None? then now
        else PaidFrom(current.value, now) + Converted(Remaining(current.value, now), current.value.plan, plan);
      LandsOn(start, months, PaidThroughAfter(current, plan, months, now))
  {
    var start := Start(current, plan, now);
    LastMonth(MonthOf(start / DAY) + months);
    if AddMonths(start, months).Some? { AddMonthsLands(start, months); }
  }

  lemma {:induction false} LastMonth(month: nat)
    ensures YearOf(month) > LAST_YEAR <==> month >= 12 * (LAST_YEAR - 1969)
  {
  }

  lemma {:induction false} NothingConverted(from: Plan, to: Plan)
    ensures Converted(0, from, to) == 0
  {
  }

  lemma {:induction false} ExtendedSpan(start: nat, months: nat)
    ensures start + 28 * months * DAY <= Extended(start, months) <= start + 31 * months * DAY
  {
    if AddMonths(start, months).Some? {
      AddMonthsSpan(start, months);
    }
  }

  // ----- What is bought, used and lost -----

  /** The value of paid time left: time at the plan's monthly price, in centavo-microseconds. */
  function Left(current: Option<Subscription>, now: nat): nat
  {
    if current.None? then 0 else Remaining(current.value, now) * Monthly(current.value.plan)
  }

  /** Paid time between `from` and `to` that lies after the trial and before the paid period ends. */
  function UsedTime(s: Subscription, from: nat, to: nat): nat
  {
    if s.paid.None? then 0
    else
      var begins := PaidFrom(s, from);
      var ends := if s.paid.value < to then s.paid.value else to;
      if begins < ends then ends - begins else 0
  }

  function Used(current: Option<Subscription>, from: nat, to: nat): nat
  {
    if current.None? then 0 else UsedTime(current.value, from, to) * Monthly(current.value.plan)
  }

  datatype Payment = Payment(plan: Plan, months: nat, at: nat)

  /** The days from `start` to the day so many months on, or thirty a month where the calendar ends. */
  function CalendarTime(start: nat, months: nat): int
  {
    var day := start / DAY;
    (if YearOf(MonthOf(day) + months) > LAST_YEAR then 30 * months else DayLater(day, months) - day) * DAY
  }

  lemma {:induction false} ExtendedByCalendar(start: nat, months: nat)
    ensures Extended(start, months) == start + CalendarTime(start, months)
  {
    var day := start / DAY;
    Distribute(DayLater(day, months) - day, day, DAY);
  }

  /** The calendar time a payment adds, at its plan's price. */
  function Bought(current: Option<Subscription>, p: Payment): int
  {
    CalendarTime(Start(current, p.plan, p.at), p.months) * Monthly(p.plan)
  }

  /** What conversion takes away from the value that was left. */
  function Lost(current: Option<Subscription>, p: Payment): int
  {
    if current.None? then 0
    else
      var s := current.value;
      Left(current, p.at) - Converted(Remaining(s, p.at), s.plan, p.plan) * Monthly(p.plan)
  }

  /** What a caller can check before paying: the time left converts without rounding. */
  predicate LosesNothing(current: Option<Subscription>, p: Payment)
  {
    current.None? || ConvertsExactly(Remaining(current.value, p.at), current.value.plan, p.plan)
  }

  /** Every payment of the run finds time left that converts without rounding. */
  predicate AllExact(current: Option<Subscription>, payments: seq<Payment>)
    decreases |payments|
  {
    payments == [] || (
      && LosesNothing(current, payments[0])
      && AllExact(Some(AfterPayment(current, payments[0].plan, payments[0].months, payments[0].at)), payments[1..]))
  }

  predicate Switches(current: Option<Subscription>, p: Payment)
  {
    current.Some? && current.value.plan != p.plan
  }

  /** Both prices together: what one switch can round away is less than this for a second. */
  const SWITCH_COST: nat := 29_800 * SECOND

  datatype Totals = Totals(bought: int, used: int, lost: int, switches: nat, last: Option<Subscription>)

  /** A run of payments and the time up to `until`. */
  function Over(current: Option<Subscription>, from: nat, payments: seq<Payment>, until: nat): Totals
    decreases |payments|
  {
    if payments == [] then Totals(0, Used(current, from, until), 0, 0, current)
    else
      var p := payments[0];
      var rest := Over(Some(AfterPayment(current, p.plan, p.months, p.at)), p.at, payments[1..], until);
      Totals(
        rest.bought + Bought(current, p),
        rest.used + Used(current, from, p.at),
        rest.lost + Lost(current, p),
        rest.switches + (if Switches(current, p) then 1 else 0),
        rest.last)
  }

  predicate InOrder(from: nat, payments: seq<Payment>, until: nat)
    decreases |payments|
  {
    if payments == [] then from <= until
    else from <= payments[0].at && InOrder(payments[0].at, payments[1..], until)
  }

  lemma {:induction false} TimePasses(current: Option<Subscription>, from: nat, to: nat)
    requires from <= to
    ensures Left(current, from) == Used(current, from, to) + Left(current, to)
  {
    if current.Some? {
      var s := current.value;
      assert Remaining(s, from) == UsedTime(s, from, to) + Remaining(s, to);
      Distribute(UsedTime(s, from, to), Remaining(s, to), Monthly(s.plan));
    }
  }

  lemma {:induction false} Distribute(a: int, b: int, c: int)
    ensures (a + b) * c == a * c + b * c
  {
  }

  /** The time left is whole seconds that come to whole seconds of the other plan. */
  predicate ConvertsExactly(time: nat, from: Plan, to: Plan)
  {
    from == to || (time % SECOND == 0 && time / SECOND * Monthly(from) % Monthly(to) == 0)
  }

  /** Rounding down to whole seconds, and then to whole seconds of the other plan, loses nothing exactly when there
      is nothing to round. */
  lemma {:induction false} ConversionLoss(time: nat, from: Plan, to: Plan)
    ensures Converted(time, from, to) * Monthly(to) <= time * Monthly(from)
    ensures time * Monthly(from) < Converted(time, from, to) * Monthly(to) + SWITCH_COST
    ensures Converted(time, from, to) * Monthly(to) == time * Monthly(from) <==> ConvertsExactly(time, from, to)
  {
    if from != to {
      var seconds, part := time / SECOND, time % SECOND;
      var there := seconds * Monthly(from) / Monthly(to);
      assert time == seconds * SECOND + part;
      assert there * Monthly(to) <= seconds * Monthly(from) < there * Monthly(to) + Monthly(to);
      assert seconds * Monthly(from) % Monthly(to) == seconds * Monthly(from) - there * Monthly(to);
    }
  }

  /** What a payment loses is what its conversion rounds away. */
  lemma {:induction false} PaymentLoss(current: Option<Subscription>, p: Payment)
    ensures if Switches(current, p) then 0 <= Lost(current, p) < SWITCH_COST else Lost(current, p) == 0
    ensures Lost(current, p) == 0 <==> LosesNothing(current, p)
  {
    if current.Some? {
      ConversionLoss(Remaining(current.value, p.at), current.value.plan, p.plan);
    }
  }

  lemma {:induction false} PaymentAdds(current: Option<Subscription>, p: Payment)
    ensures var after := Some(AfterPayment(current, p.plan, p.months, p.at));
      Left(after, p.at) == Left(current, p.at) - Lost(current, p) + Bought(current, p)
  {
    var start := Start(current, p.plan, p.at);
    var through := PaidThroughAfter(current, p.plan, p.months, p.at);
    ExtendedSpan(start, p.months);
    ExtendedByCalendar(start, p.months);
    var kept := if current.None? then 0 else Converted(Remaining(current.value, p.at), current.value.plan, p.plan);
    var after := AfterPayment(current, p.plan, p.months, p.at);
    assert start == PaidFrom(after, p.at) + kept;
    assert Remaining(after, p.at) == kept + (through - start);
    Distribute(kept, through - start, Monthly(p.plan));
  }

  lemma {:induction false} OneMoreSwitch(lost: int, switches: nat, more: int, switched: bool)
    requires switches > 0 ==> lost < switches * SWITCH_COST
    requires switches == 0 ==> lost == 0
    requires if switched then more < SWITCH_COST else more == 0
    ensures var n := switches + if switched then 1 else 0;
      n > 0 ==> lost + more < n * SWITCH_COST
  {
    assert (switches + 1) * SWITCH_COST == switches * SWITCH_COST + SWITCH_COST;
  }

  /**
   Everything bought is used, still left, or lost to conversion, which gives nothing, takes little, and takes
   nothing at all exactly when every payment finds time that converts without rounding.
   */
  lemma {:induction false} ValueIsConserved(current: Option<Subscription>, from: nat, payments: seq<Payment>,
      until: nat)
    requires InOrder(from, payments, until)
    ensures var t := Over(current, from, payments, until);
      && Left(current, from) + t.bought == t.used + t.lost + Left(t.last, until)
      && 0 <= t.lost && (t.lost == 0 <==> AllExact(current, payments)) && (t.switches == 0 ==> t.lost == 0)
      && (t.switches > 0 ==> t.lost < t.switches * SWITCH_COST)
    decreases |payments|
  {
    if payments == [] {
      TimePasses(current, from, until);
    } else {
      var p := payments[0];
      TimePasses(current, from, p.at);
      PaymentAdds(current, p);
      PaymentLoss(current, p);
      var next := Some(AfterPayment(current, p.plan, p.months, p.at));
      ValueIsConserved(next, p.at, payments[1..], until);
      var rest := Over(next, p.at, payments[1..], until);
      OneMoreSwitch(rest.lost, rest.switches, Lost(current, p), Switches(current, p));
    }
  }

  // ----- Standing -----

  datatype Standing =
    | Unlimited
    | Trial(endsAt: nat)
    | Active(plan: Plan, until: nat)
    | Grace(plan: Plan, until: nat)
    | Paused(since: nat)

  /** `Standing::of`. */
  function StandingOf(current: Option<Subscription>, now: nat, grace: nat, enforced: bool): Standing
  {
    if !enforced then Unlimited
    else if current.None? then Paused(0)
    else
      var s := current.value;
      if s.trial.Some? && now < s.trial.value then Trial(s.trial.value)
      else if s.paid.Some? && now < s.paid.value then Active(s.plan, s.paid.value)
      else if s.paid.Some? then Lapsed(s.plan, s.paid.value, now, grace)
      else if s.trial.Some? then Lapsed(Pro, s.trial.value, now, grace)
      else Paused(0)
  }

  function Lapsed(plan: Plan, ended: nat, now: nat, grace: nat): Standing
  {
    if now < ended + grace then Grace(plan, ended + grace) else Paused(ended + grace)
  }

  /** `Standing::plan`. */
  function PlanOf(s: Standing): Option<Plan>
  {
    match s
    case Unlimited => Some(Pro)
    case Trial(_) => Some(Pro)
    case Active(plan, _) => Some(plan)
    case Grace(plan, _) => Some(plan)
    case Paused(_) => None
  }

  /** Pro while the trial runs, then what was paid for; a trial that lapsed unpaid is graced as Pro. */
  lemma {:induction false} WhichPlan(s: Subscription, now: nat, grace: nat)
    ensures PlanOf(StandingOf(Some(s), now, grace, true)) ==
      if s.trial.Some? && now < s.trial.value then Some(Pro)
      else if s.paid.Some? && now < s.paid.value + grace then Some(s.plan)
      else if s.paid.None? && s.trial.Some? && now < s.trial.value + grace then Some(Pro)
      else None
    ensures PlanOf(StandingOf(None, now, grace, true)) == None
    ensures forall current: Option<Subscription> :: PlanOf(StandingOf(current, now, grace, false)) == Some(Pro)
  {
  }

  /** Ninety-nine and a hundred and ninety-nine a month, and a year for ten months. */
  lemma {:induction false} YearForTenMonths(plan: Plan)
    ensures Price(Basic, 1) == 9_900 && Price(Pro, 1) == 19_900
    ensures Price(plan, 12) == 10 * Price(plan, 1)
    ensures forall months: nat :: months != 12 ==> Price(plan, months) == months * Price(plan, 1)
  {
  }

  predicate CanUpload(s: Standing) { PlanOf(s).Some? }

  /** Whichever of trial and payment runs out last, if there is either. */
  function LastEnd(s: Subscription): Option<nat>
  {
    match (s.trial, s.paid)
    case (Some(trial), Some(paid)) => Some(Later(trial, paid))
    case (Some(trial), None) => Some(trial)
    case (None, paid) => paid
  }

  /** What every stored subscription satisfies: paid time ends after the trial. */
  predicate PaidOutlastsTrial(s: Subscription)
  {
    s.trial.Some? && s.paid.Some? ==> s.trial.value < s.paid.value
  }

  lemma {:induction false} PaymentOutlastsTrial(current: Option<Subscription>, plan: Plan, months: nat, now: nat)
    requires months >= 1
    ensures PaidOutlastsTrial(AfterPayment(current, plan, months, now))
    ensures now < AfterPayment(current, plan, months, now).paid.value
  {
    ExtendedSpan(Start(current, plan, now), months);
    assert 28 * months * DAY >= 28 * DAY;
  }

  /** Uploads stay open to the grace period's end after whichever ran out last, exactly when payment outlasts the
      trial. */
  ghost predicate OpenUntilLastEnd(s: Subscription, grace: nat)
  {
    forall now: nat {:trigger StandingOf(Some(s), now, grace, true)} ::
      CanUpload(StandingOf(Some(s), now, grace, true)) <==> LastEnd(s).Some? && now < LastEnd(s).value + grace
  }

  lemma {:induction false} OpenIffPaidReachesTrial(s: Subscription, grace: nat)
    requires grace > 0
    ensures OpenUntilLastEnd(s, grace) <==> !(s.trial.Some? && s.paid.Some? && s.paid.value < s.trial.value)
  {
    if s.trial.Some? && s.paid.Some? && s.paid.value < s.trial.value {
      var now := Later(s.trial.value, s.paid.value + grace);
      assert StandingOf(Some(s), now, grace, true) == Paused(s.paid.value + grace);
      assert now < LastEnd(s).value + grace;
    }
  }

  /** How far along an account is. */
  function Rank(s: Standing): nat
  {
    match s
    case Unlimited => 0
    case Trial(_) => 0
    case Active(_, _) => 1
    case Grace(_, _) => 2
    case Paused(_) => 3
  }

  /** As time passes an account moves from trial to active to grace to paused, and never back. */
  lemma {:induction false} StandingNeverReturns(s: Subscription, a: nat, b: nat, grace: nat)
    requires a <= b
    ensures Rank(StandingOf(Some(s), a, grace, true)) <= Rank(StandingOf(Some(s), b, grace, true))
  {
  }

  /** The end a standing announces is where the next one begins. */
  lemma {:induction false} NoGap(s: Subscription, now: nat, grace: nat)
    requires PaidOutlastsTrial(s) && LastEnd(s).Some?
    ensures match StandingOf(Some(s), now, grace, true)
            case Trial(end) => now < end && !StandingOf(Some(s), end, grace, true).Trial?
                               && (grace > 0 ==> CanUpload(StandingOf(Some(s), end, grace, true)))
            case Active(_, end) => now < end == LastEnd(s).value
            case Grace(_, end) => LastEnd(s).value <= now < end == LastEnd(s).value + grace
            case Paused(since) => since <= now && since == LastEnd(s).value + grace
            case Unlimited => false
  {
  }

  /** Right after a payment the account is on trial or active, and uploads stay open to the end of the grace period. */
  lemma {:induction false} PaymentOpensUploads(
      current: Option<Subscription>, plan: Plan, months: nat, now: nat, later: nat, grace: nat)
    requires months >= 1 && now <= later
    ensures var s := AfterPayment(current, plan, months, now);
      && (StandingOf(Some(s), now, grace, true).Trial?
          || StandingOf(Some(s), now, grace, true) == Active(plan, s.paid.value))
      && (CanUpload(StandingOf(Some(s), later, grace, true)) <==> later < s.paid.value + grace)
  {
    PaymentOutlastsTrial(current, plan, months, now);
  }

  /** A payment made during a trial leaves the trial's plan and end as they were. */
  lemma {:induction false} TrialRunsItsCourse(s: Subscription, plan: Plan, months: nat, now: nat, later: nat,
      grace: nat)
    requires s.trial.Some? && now <= later < s.trial.value && months >= 1
    ensures StandingOf(Some(AfterPayment(Some(s), plan, months, now)), later, grace, true) == Trial(s.trial.value)
    ensures AfterPayment(Some(s), plan, months, now).paid.value >= s.trial.value + 28 * months * DAY
  {
    ExtendedSpan(Start(Some(s), plan, now), months);
  }
}
