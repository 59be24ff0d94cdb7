/**
 `SessionDirectory`: a bounded, time-limited memory in front of the database. A lookup is two
 steps, a query and an insert stamped later, and other requests run in between.
 */
module SessionCache {
  import opened Prelude

  /** How long an answer is trusted, in seconds, and how many are remembered at most. */
  const TRUST_WINDOW: nat := 20
  const MAX_REMEMBERED: nat := 10_000

  /** What the query joins together for one session. */
  datatype SessionRow = SessionRow(sessionLive: bool, staff: Option<StaffRow>)

  datatype StaffRow = StaffRow(id: Id, store: Option<Id>, live: bool, grant: Permissions)

  /** `into_actor`: nobody, if the device was signed out or the staff member removed. */
  function IntoActor(row: SessionRow): Option<Actor>
  {
    if !row.sessionLive then None
    else
      match row.staff
      case None => Some(Owner)
      case Some(staff) => if !staff.live || staff.store.None? then None else Some(Staff(staff.id, staff.grant))
  }

  /** What the database would answer for each session; a session it does not list is nobody. */
  type Answers = map<Id, SessionRow>

  function AnswerOf(answers: Answers, s: Id): Option<Actor>
  {
    if s in answers then IntoActor(answers[s]) else None
  }

  /** One moment of the run: the time, and what the database says. */
  datatype Moment = Moment(clock: nat, answers: Answers)

  /** A remembered answer: when it was stamped, and the moment its query saw. */
  datatype Entry = Entry(at: nat, actor: Option<Actor>, seen: nat)

  datatype Lookup = Missed(s: Id, asked: nat) | Queried(s: Id, asked: nat, actor: Option<Actor>, seen: nat)

  /** An answer given at moment `when`, to a request made at moment `asked`, from a query at moment `seen`. */
  datatype Given = Given(s: Id, actor: Option<Actor>, when: nat, asked: nat, seen: nat)

  datatype World = World(history: seq<Moment>, resolved: map<Id, Entry>, lookups: map<Id, Lookup>, given: seq<Given>)

  const START := World([Moment(0, map[])], map[], map[], [])

  datatype Step =
    | Wait(ticks: nat)
    | Change(answers: Answers)     // anything the database does
    | Ask(r: Id, s: Id)            // answered from memory, or missed
    | Query(r: Id)
    | Insert(r: Id)                // stamp, remember and answer
    | ForgetAll

  predicate Alive(w: World) { w.history != [] }

  function Now(w: World): Moment
    requires Alive(w)
  {
    w.history[|w.history| - 1]
  }

  function Index(w: World): nat
    requires Alive(w)
  {
    |w.history| - 1
  }

  /** The map after an answer is put in: past the limit it is simply cleared first. */
  function Remember<E>(resolved: map<Id, E>, s: Id, e: E): map<Id, E>
  {
    (if |resolved| >= MAX_REMEMBERED then map[] else resolved)[s := e]
  }

  predicate Trusted(e: Entry, now: nat) { now < e.at + TRUST_WINDOW }

  function Act(w: World, step: Step): World
    requires Alive(w)
  {
    var now := Now(w).clock;
    match step
    case Wait(_) => w
    case Change(_) => w
    case Ask(r, s) =>
      if s in w.resolved && Trusted(w.resolved[s], now) then
        w.(given := w.given + [Given(s, w.resolved[s].actor, Index(w), Index(w), w.resolved[s].seen)])
      else if r in w.lookups then w
      else w.(lookups := w.lookups[r := Missed(s, Index(w))])
    case Query(r) =>
      if r in w.lookups && w.lookups[r].Missed? then
        var l := w.lookups[r];
        w.(lookups := w.lookups[r := Queried(l.s, l.asked, AnswerOf(Now(w).answers, l.s), Index(w))])
      else w
    case Insert(r) =>
      if r in w.lookups && w.lookups[r].Queried? then
        var l := w.lookups[r];
        w.(resolved := Remember(w.resolved, l.s, Entry(now, l.actor, l.seen)),
           lookups := w.lookups - {r},
           given := w.given + [Given(l.s, l.actor, Index(w), l.asked, l.seen)])
      else w
    case ForgetAll => w.(resolved := map[])
  }

  function NextMoment(w: World, step: Step): Moment
    requires Alive(w)
  {
    match step
    case Wait(ticks) => Moment(Now(w).clock + ticks, Now(w).answers)
    case Change(answers) => Moment(Now(w).clock, answers)
    case _ => Now(w)
  }

  function Do(w: World, step: Step): (after: World)
    requires Alive(w)
    ensures Alive(after)
  {
    Act(w, step).(history := w.history + [NextMoment(w, step)])
  }

  function Run(w: World, steps: seq<Step>): (after: World)
    requires Alive(w)
    ensures Alive(after)
    decreases |steps|
  {
    if steps == [] then w else Run(Do(w, steps[0]), steps[1..])
  }

  /** No insert comes more than `gap` after its query. */
  predicate Prompt(w: World, gap: nat, step: Step)
    requires Alive(w)
  {
    !(step.Insert? && step.r in w.lookups && w.lookups[step.r].Queried? && w.lookups[step.r].seen < |w.history|
      && w.history[w.lookups[step.r].seen].clock + gap < Now(w).clock)
  }

  predicate AllPrompt(w: World, gap: nat, steps: seq<Step>)
    requires Alive(w)
    decreases |steps|
  {
    steps == [] || (Prompt(w, gap, steps[0]) && AllPrompt(Do(w, steps[0]), gap, steps[1..]))
  }

  // ----- How stale an answer can be -----

  /** The database gave this answer at moment `seen`. */
  predicate WasTrue(history: seq<Moment>, s: Id, actor: Option<Actor>, seen: nat)
  {
    seen < |history| && AnswerOf(history[seen].answers, s) == actor
  }

  predicate EntryRight(w: World, s: Id, gap: nat)
    requires s in w.resolved
  {
    var e := w.resolved[s];
    WasTrue(w.history, s, e.actor, e.seen) && e.at <= w.history[e.seen].clock + gap
  }

  predicate LookupRight(w: World, r: Id)
    requires r in w.lookups
  {
    w.lookups[r].Queried? ==> WasTrue(w.history, w.lookups[r].s, w.lookups[r].actor, w.lookups[r].seen)
  }

  /** The database gave this answer at a moment less than `bound` seconds before it was handed out. */
  predicate Within(history: seq<Moment>, g: Given, m: nat, bound: nat)
  {
    m <= g.when < |history| && WasTrue(history, g.s, g.actor, m) && history[g.when].clock < history[m].clock + bound
  }

  ghost predicate RecentEnough(history: seq<Moment>, g: Given, bound: nat)
  {
    exists m: nat :: Within(history, g, m, bound)
  }

  ghost predicate EntriesRight(w: World, gap: nat) { forall s | s in w.resolved :: EntryRight(w, s, gap) }

  ghost predicate LookupsRight(w: World) { forall r | r in w.lookups :: LookupRight(w, r) }

  ghost predicate GivenRight(w: World, gap: nat)
  {
    forall i | 0 <= i < |w.given| :: Within(w.history, w.given[i], w.given[i].seen, TRUST_WINDOW + gap)
  }

  ghost predicate Inv(w: World, gap: nat)
  {
    Alive(w) && EntriesRight(w, gap) && LookupsRight(w) && GivenRight(w, gap)
  }

  lemma {:induction false} StepKeepsEntries(w: World, gap: nat, step: Step)
    requires Inv(w, gap) && Prompt(w, gap, step)
    ensures EntriesRight(Do(w, step), gap) && LookupsRight(Do(w, step))
  {
    var v := Do(w, step);
    if step.Insert? && step.r in w.lookups { assert LookupRight(w, step.r); }
    forall s | s in v.resolved ensures EntryRight(v, s, gap) {
      if s in w.resolved { assert EntryRight(w, s, gap); }
    }
    forall r | r in v.lookups ensures LookupRight(v, r) {
      if r in w.lookups { assert LookupRight(w, r); }
    }
  }

  lemma {:induction false} WithinStays(history: seq<Moment>, more: Moment, g: Given, m: nat, bound: nat)
    requires Within(history, g, m, bound)
    ensures Within(history + [more], g, m, bound)
  {
  }

  lemma {:induction false} NewAnswerRight(w: World, gap: nat, step: Step)
    requires Inv(w, gap) && Prompt(w, gap, step) && |Act(w, step).given| > |w.given|
    ensures var g := Act(w, step).given[|w.given|]; Within(w.history, g, g.seen, TRUST_WINDOW + gap)
  {
    if step.Insert? {
      assert LookupRight(w, step.r);
    } else {
      assert EntryRight(w, step.s, gap);
    }
  }

  lemma {:induction false} StepKeepsGiven(w: World, gap: nat, step: Step)
    requires Inv(w, gap) && Prompt(w, gap, step)
    ensures GivenRight(Do(w, step), gap)
  {
    var v := Do(w, step);
    forall i | 0 <= i < |v.given| ensures Within(v.history, v.given[i], v.given[i].seen, TRUST_WINDOW + gap) {
      if i < |w.given| {
        assert v.given[i] == w.given[i];
      } else {
        NewAnswerRight(w, gap, step);
      }
      WithinStays(w.history, NextMoment(w, step), v.given[i], v.given[i].seen, TRUST_WINDOW + gap);
    }
  }

  lemma {:induction false} RememberIsBounded<E>(resolved: map<Id, E>, s: Id, e: E)
    requires |resolved| <= MAX_REMEMBERED
    ensures |Remember(resolved, s, e)| <= MAX_REMEMBERED
  {
    var kept: map<Id, E> := if |resolved| >= MAX_REMEMBERED then map[] else resolved;
    assert kept[s := e].Keys == kept.Keys + {s};
    assert |kept[s := e].Keys| <= |kept.Keys| + 1;
  }

  lemma {:induction false} RunKeepsInv(w: World, gap: nat, steps: seq<Step>)
    requires Inv(w, gap) && AllPrompt(w, gap, steps)
    ensures Inv(Run(w, steps), gap)
    decreases |steps|
  {
    if steps != [] {
      StepKeepsEntries(w, gap, steps[0]);
      StepKeepsGiven(w, gap, steps[0]);
      RunKeepsInv(Do(w, steps[0]), gap, steps[1..]);
    }
  }

  /** In every run the directory holds at most so many answers, however slow its lookups. */
  lemma {:induction false} NeverTooMany(w: World, steps: seq<Step>)
    requires Alive(w) && |w.resolved| <= 10_000
    ensures |Run(w, steps).resolved| <= 10_000
    decreases |steps|
  {
    if steps != [] {
      var s := steps[0];
      if s.Insert? && s.r in w.lookups && w.lookups[s.r].Queried? {
        RememberIsBounded(w.resolved, w.lookups[s.r].s, Entry(Now(w).clock, w.lookups[s.r].actor, w.lookups[s.r].seen));
      }
      NeverTooMany(Do(w, s), steps[1..]);
    }
  }

  /** No run whose lookups are prompt hands out an answer that is `bound` seconds old or more. */
  ghost predicate NeverStalerThan(bound: nat, gap: nat)
  {
    forall steps {:trigger AllPrompt(START, gap, steps)} ::
        AllPrompt(START, gap, steps) ==> AllRecent(Run(START, steps), bound)
  }

  ghost predicate AllRecent(w: World, bound: nat)
  {
    forall i | 0 <= i < |w.given| :: RecentEnough(w.history, w.given[i], bound)
  }

  /** A lookup as slow as allowed, of an answer that changes behind it, remembered as long as it is trusted. */
  function SlowLookup(gap: nat): seq<Step>
  {
    [Change(map[1 := SessionRow(true, None)]), Ask(1, 1), Query(1), Change(map[]), Wait(gap), Insert(1),
     Wait(TRUST_WINDOW - 1), Ask(1, 1)]
  }

  function SlowHistory(gap: nat, n: nat): seq<Moment>
    requires n <= 9
  {
    var live := map[1 := SessionRow(true, None)];
    [Moment(0, map[]), Moment(0, live), Moment(0, live), Moment(0, live), Moment(0, map[]), Moment(gap, map[]),
    Moment(gap, map[]),
     Moment(gap + TRUST_WINDOW - 1, map[]), Moment(gap + TRUST_WINDOW - 1, map[])][..n]
  }

  function SlowStage(gap: nat, i: nat): World
    requires i <= 8
  {
    var first := Given(1, Some(Owner), 5, 1, 2);
    World(
      SlowHistory(gap, i + 1),
      if i < 6 then map[] else map[1 := Entry(gap, Some(Owner), 2)],
      if i == 2 then map[1 := Missed(1, 1)] else if 3 <= i <= 5 then map[1 := Queried(1, 1, Some(Owner), 2)] else map[],
      if i < 6 then [] else if i < 8 then [first] else [first, Given(1, Some(Owner), 7, 7, 2)])
  }

  lemma {:induction false} SlowAct(gap: nat, i: nat)
    requires i < 8
    ensures var a, v := Act(SlowStage(gap, i), SlowLookup(gap)[i]), SlowStage(gap, i + 1);
      a.resolved == v.resolved && a.lookups == v.lookups && a.given == v.given
  {
  }

  lemma {:induction false} SlowStep(gap: nat, i: nat)
    requires i < 8
    ensures Do(SlowStage(gap, i), SlowLookup(gap)[i]) == SlowStage(gap, i + 1)
    ensures Prompt(SlowStage(gap, i), gap, SlowLookup(gap)[i])
  {
    SlowAct(gap, i);
    assert NextMoment(SlowStage(gap, i), SlowLookup(gap)[i]) == SlowHistory(gap, 9)[i + 1];
    assert SlowHistory(gap, i + 1) + [SlowHistory(gap, 9)[i + 1]] == SlowHistory(gap, i + 2);
  }

  lemma {:induction false} SlowFrom(gap: nat, i: nat)
    requires i <= 8
    ensures Run(SlowStage(gap, i), SlowLookup(gap)[i..]) == SlowStage(gap, 8)
    ensures AllPrompt(SlowStage(gap, i), gap, SlowLookup(gap)[i..])
    decreases 8 - i
  {
    if i < 8 {
      SlowStep(gap, i);
      SlowFrom(gap, i + 1);
      assert SlowLookup(gap)[i..][0] == SlowLookup(gap)[i] && SlowLookup(gap)[i..][1..] == SlowLookup(gap)[i + 1..];
    }
  }

  lemma {:induction false} SlowAnswerIsOld(gap: nat, bound: nat)
    requires bound < TRUST_WINDOW + gap
    ensures !RecentEnough(SlowStage(gap, 8).history, SlowStage(gap, 8).given[1], bound)
  {
    var h := SlowStage(gap, 8).history;
    forall m: nat ensures !Within(h, SlowStage(gap, 8).given[1], m, bound) {
      if m <= 7 && h[m].clock + bound > h[7].clock {
        assert h[m].answers == map[];
      }
    }
  }

  /** The trust window and the slowest lookup together are exactly how stale an answer can be. */
  lemma {:induction false} StalenessBound(bound: nat, gap: nat)
    ensures NeverStalerThan(bound, gap) <==> bound >= 20 + gap
  {
    if bound >= TRUST_WINDOW + gap {
      forall steps | AllPrompt(START, gap, steps) ensures AllRecent(Run(START, steps), bound) {
        RunKeepsInv(START, gap, steps);
        var w := Run(START, steps);
        forall i | 0 <= i < |w.given| ensures RecentEnough(w.history, w.given[i], bound) {
          assert Within(w.history, w.given[i], w.given[i].seen, TRUST_WINDOW + gap);
          assert Within(w.history, w.given[i], w.given[i].seen, bound);
        }
      }
    } else {
      SlowFrom(gap, 0);
      assert SlowLookup(gap)[0..] == SlowLookup(gap) && SlowStage(gap, 0) == START;
      SlowAnswerIsOld(gap, bound);
      assert !AllRecent(SlowStage(gap, 8), bound);
    }
  }

  // ----- After everything is forgotten -----

  /** Nothing remembered or under way comes from before moment `from`. */
  ghost predicate AllSince(w: World, from: nat)
  {
    && Alive(w) && from <= Index(w)
    && (forall s | s in w.resolved :: from <= w.resolved[s].seen)
    && (forall r | r in w.lookups :: w.lookups[r].Queried? ==> from <= w.lookups[r].seen)
  }

  /** From now on no request, however it is answered, gets what a query before this moment saw. */
  ghost predicate ForgottenForGood(w: World)
    requires Alive(w)
  {
    forall steps {:trigger Run(w, steps)} :: AnswersSince(Run(w, steps), Index(w))
  }

  ghost predicate AnswersSince(w: World, from: nat)
  {
    forall i | 0 <= i < |w.given| :: w.given[i].asked >= from ==> w.given[i].seen >= from
  }

  /** Answers so far were asked for before they were queried for. */
  ghost predicate InHand(w: World)
  {
    && Alive(w)
    && (forall i | 0 <= i < |w.given| :: w.given[i].asked < Index(w))
    && (forall r | r in w.lookups :: w.lookups[r].asked < Index(w))
    && (forall r | r in w.lookups :: w.lookups[r].Queried? ==> w.lookups[r].seen < Index(w))
  }

  ghost predicate NothingUnderWay(w: World) { forall r | r in w.lookups :: !w.lookups[r].Queried? }

  /**
   `forget_all` makes every later request see the database as it is now or later, exactly when no lookup
   has already queried: such a lookup puts its older answer back, and requests made later are given it.
   */
  lemma {:induction false} ForgettingLastsIff(w: World)
    requires InHand(w)
    ensures ForgottenForGood(Do(w, ForgetAll)) <==> NothingUnderWay(w)
  {
    var v := Do(w, ForgetAll);
    if NothingUnderWay(w) {
      forall steps ensures AnswersSince(Run(v, steps), Index(v)) {
        AnswersAfterForgetting(v, steps, Index(v));
      }
    } else {
      var r :| r in w.lookups && w.lookups[r].Queried?;
      StaleAnswerReturns(w, r);
    }
  }

  lemma {:induction false} ActKeepsSince(v: World, step: Step, from: nat)
    requires AllSince(v, from) && AnswersSince(v, from)
    ensures AnswersSince(Act(v, step), from)
  {
    var a := Act(v, step);
    forall i | 0 <= i < |a.given| ensures a.given[i].asked >= from ==> a.given[i].seen >= from {
      if i < |v.given| { assert a.given[i] == v.given[i]; }
    }
  }

  lemma {:induction false} StepKeepsSince(v: World, step: Step, from: nat)
    requires AllSince(v, from) && AnswersSince(v, from)
    ensures AllSince(Do(v, step), from) && AnswersSince(Do(v, step), from)
  {
    var w := Do(v, step);
    assert Index(w) == Index(v) + 1;
    assert AnswersSince(w, from) by { ActKeepsSince(v, step, from); }
    forall s | s in w.resolved ensures from <= w.resolved[s].seen {
      if s in v.resolved { assert from <= v.resolved[s].seen; }
    }
    forall r | r in w.lookups && w.lookups[r].Queried? ensures from <= w.lookups[r].seen {
      if r in v.lookups && v.lookups[r].Queried? { assert from <= v.lookups[r].seen; }
    }
  }

  lemma {:induction false} AnswersAfterForgetting(v: World, steps: seq<Step>, from: nat)
    requires AllSince(v, from) && AnswersSince(v, from)
    ensures AnswersSince(Run(v, steps), from)
    decreases |steps|
  {
    if steps != [] {
      StepKeepsSince(v, steps[0], from);
      AnswersAfterForgetting(Do(v, steps[0]), steps[1..], from);
    }
  }

  lemma {:induction false} TwoSteps(w: World, a: Step, b: Step)
    requires Alive(w)
    ensures Run(w, [a, b]) == Do(Do(w, a), b)
  {
    assert [a, b][1..] == [b] && [b][1..] == [];
    assert Run(w, [a, b]) == Run(Do(w, a), [b]);
    assert Run(Do(w, a), [b]) == Run(Do(Do(w, a), b), []);
  }

  lemma {:induction false} StaleAnswerReturns(w: World, r: Id)
    requires InHand(w) && r in w.lookups && w.lookups[r].Queried?
    ensures !ForgottenForGood(Do(w, ForgetAll))
  {
    var v := Do(w, ForgetAll);
    var l := w.lookups[r];
    var a := Do(v, Insert(r));
    assert a.resolved[l.s] == Entry(Now(v).clock, l.actor, l.seen) && Now(a) == Now(v);
    var b := Do(a, Ask(r, l.s));
    assert b.given[|a.given|] == Given(l.s, l.actor, Index(a), Index(a), l.seen);
    TwoSteps(v, Insert(r), Ask(r, l.s));
    assert !AnswersSince(Run(v, [Insert(r), Ask(r, l.s)]), Index(v));
  }

  lemma {:induction false} StepKeepsInHand(w: World, step: Step)
    requires InHand(w)
    ensures InHand(Do(w, step))
  {
    var a := Act(w, step);
    forall i | 0 <= i < |a.given| ensures a.given[i].asked < Index(w) + 1 {
      if i < |w.given| { assert a.given[i] == w.given[i]; }
    }
  }

  /** In every run answers are asked for, and queries made, before the present moment. */
  lemma {:induction false} RunKeepsInHand(w: World, steps: seq<Step>)
    requires InHand(w)
    ensures InHand(Run(w, steps))
    decreases |steps|
  {
    if steps != [] {
      StepKeepsInHand(w, steps[0]);
      RunKeepsInHand(Do(w, steps[0]), steps[1..]);
    }
  }

  // ----- The class -----

  /** A live session of the owner, or of a staff member who is there and has a store. */
  predicate LetsIn(row: SessionRow)
  {
    row.sessionLive && (row.staff.Some? ==> row.staff.value.live && row.staff.value.store.Some?)
  }

  predicate IsOf(actor: Actor, row: SessionRow)
  {
    match row.staff
    case None => actor == Owner
    case Some(member) => actor == Staff(member.id, member.grant)
  }

  /** When an answer was stamped, and what it was. */
  datatype Stamped = Stamped(at: nat, actor: Option<Actor>)

  class SessionDirectory {
    var resolved: map<Id, Stamped>

    predicate Knows(s: Id, now: nat)
      reads this
    {
      s in resolved && now < resolved[s].at + TRUST_WINDOW
    }

    constructor ()
      ensures resolved == map[]
    {
      resolved := map[];
    }

    /** What is remembered of a session, if it is still trusted: perhaps that it is nobody's. */
    method Remembered(s: Id, now: nat) returns (answer: Option<Option<Actor>>)
      ensures answer == if Knows(s, now) then Some(resolved[s].actor) else None
    {
      if s !in resolved { return None; }
      var entry := resolved[s];
      answer := if now < entry.at + TRUST_WINDOW then Some(entry.actor) else None;
    }

    /** `resolve`, given what the query returns if it is made, and the time it is stamped with. */
    method Resolve(s: Id, now: nat, row: Option<SessionRow>, stamp: nat) returns (actor: Option<Actor>)
      requires |resolved| <= MAX_REMEMBERED
      modifies this
      ensures |resolved| <= MAX_REMEMBERED
      ensures old(Knows(s, now)) ==> actor == old(resolved[s].actor) && resolved == old(resolved)
      ensures !old(Knows(s, now)) ==>
        actor == (if row.Some? then IntoActor(row.value) else None)
            && resolved == Remember(old(resolved), s, Stamped(stamp, actor))
      ensures !old(Knows(s, now)) ==>
        && (actor.Some? <==> row.Some? && LetsIn(row.value)) && (actor.Some? ==> IsOf(actor.value, row.value))
        && s in resolved && resolved[s] == Stamped(stamp, actor)
        && (|old(resolved)| < MAX_REMEMBERED ==>
              resolved.Keys == old(resolved).Keys + {s}
              && forall other :: other in old(resolved) && other != s ==> resolved[other] == old(resolved)[other])
    {
      var answer := Remembered(s, now);
      if answer.Some? { return answer.value; }
      actor := if row.Some? then IntoActor(row.value) else None;
      RememberIsBounded(resolved, s, Stamped(stamp, actor));
      if |resolved| >= MAX_REMEMBERED {
        resolved := map[];
      }
      resolved := resolved[s := Stamped(stamp, actor)];
    }

    method ForgetAll()
      modifies this
      ensures resolved == map[]
      ensures forall s: Id, now: nat :: !Knows(s, now)
    {
      resolved := map[];
    }
  }
}
