/** Signing a device out through an instance of the directory: exactly when that is immediate there. */
module Revocation {
  import opened Prelude
  import opened SessionCache

  /** The session is not let back in. */
  predicate LeavesOut(step: Step, s: Id) { step.Change? ==> AnswerOf(step.answers, s) == None }

  ghost predicate AllLeaveOut(steps: seq<Step>, s: Id) { forall i :: 0 <= i < |steps| ==> LeavesOut(steps[i], s) }

  /** Requests for the session made at moment `from` or later were told that it is nobody's. */
  ghost predicate ToldNobody(w: World, s: Id, from: nat)
  {
    forall i | 0 <= i < |w.given| :: w.given[i].s == s && w.given[i].asked >= from ==> w.given[i].actor == None
  }

  /** Whatever happens, short of letting the session back in, no request made from now on is let through with it. */
  ghost predicate OutForGood(w: World, s: Id)
    requires Alive(w)
  {
    forall steps {:trigger Run(w, steps)} :: AllLeaveOut(steps, s) ==> ToldNobody(Run(w, steps), s, Index(w))
  }

  /** Nothing remembered or under way, and nothing in the database, says that the session is somebody's. */
  ghost predicate KeptOut(w: World, s: Id, from: nat)
  {
    && Alive(w) && from <= Index(w) && AnswerOf(Now(w).answers, s) == None
    && (s in w.resolved ==> w.resolved[s].actor == None)
    && (forall r | r in w.lookups :: NobodyUnderWay(w.lookups[r], s))
    && ToldNobody(w, s, from)
  }

  predicate NobodyUnderWay(l: Lookup, s: Id) { l.Queried? && l.s == s ==> l.actor == None }

  lemma {:induction false} ActKeepsOut(w: World, step: Step, s: Id, from: nat)
    requires KeptOut(w, s, from)
    ensures ToldNobody(Act(w, step), s, from)
  {
    var a := Act(w, step);
    if step.Insert? && step.r in w.lookups { assert NobodyUnderWay(w.lookups[step.r], s); }
    forall i | 0 <= i < |a.given| && a.given[i].s == s && a.given[i].asked >= from ensures a.given[i].actor == None {
      if i < |w.given| { assert a.given[i] == w.given[i]; }
    }
  }

  lemma {:induction false} LookupsStayOut(w: World, step: Step, s: Id, from: nat)
    requires KeptOut(w, s, from)
    ensures forall r | r in Act(w, step).lookups :: NobodyUnderWay(Act(w, step).lookups[r], s)
  {
    forall r | r in Act(w, step).lookups ensures NobodyUnderWay(Act(w, step).lookups[r], s) {
      if r in w.lookups { assert NobodyUnderWay(w.lookups[r], s); }
    }
  }

  lemma {:induction false} MemoryStaysOut(w: World, step: Step, s: Id, from: nat)
    requires KeptOut(w, s, from) && s in Act(w, step).resolved
    ensures Act(w, step).resolved[s].actor == None
  {
    if step.Insert? && step.r in w.lookups { assert NobodyUnderWay(w.lookups[step.r], s); }
  }

  lemma {:induction false} StepKeepsOut(w: World, step: Step, s: Id, from: nat)
    requires KeptOut(w, s, from) && LeavesOut(step, s)
    ensures KeptOut(Do(w, step), s, from)
  {
    var a, v := Act(w, step), Do(w, step);
    assert Now(v) == NextMoment(w, step);
    assert ToldNobody(v, s, from) by { ActKeepsOut(w, step, s, from); }
    assert forall r | r in v.lookups :: NobodyUnderWay(v.lookups[r], s) by { LookupsStayOut(w, step, s, from); }
    if s in v.resolved { MemoryStaysOut(w, step, s, from); }
  }

  lemma {:induction false} RunKeepsOut(w: World, steps: seq<Step>, s: Id, from: nat)
    requires KeptOut(w, s, from) && AllLeaveOut(steps, s)
    ensures ToldNobody(Run(w, steps), s, from)
    decreases |steps|
  {
    if steps != [] {
      assert LeavesOut(steps[0], s);
      StepKeepsOut(w, steps[0], s, from);
      RunKeepsOut(Do(w, steps[0]), steps[1..], s, from);
    }
  }

  lemma {:induction false} OldAnswerLetsIn(w: World, r: Id, s: Id)
    requires InHand(w) && r in w.lookups && !NobodyUnderWay(w.lookups[r], s)
    ensures !OutForGood(Do(w, ForgetAll), s)
  {
    var v := Do(w, ForgetAll);
    var l := w.lookups[r];
    var a := Do(v, Insert(r));
    assert a.resolved[s] == Entry(Now(v).clock, l.actor, l.seen) && Now(a) == Now(v);
    var b := Do(a, Ask(r, s));
    assert b.given[|a.given|] == Given(s, l.actor, Index(a), Index(a), l.seen);
    TwoSteps(v, Insert(r), Ask(r, s));
    assert AllLeaveOut([Insert(r), Ask(r, s)], s) && !ToldNobody(Run(v, [Insert(r), Ask(r, s)]), s, Index(v));
  }

  /**
   A session that the database has just ended is let through no more once the directory has forgotten all, if
   and only if no lookup of that session had found it alive and not been stored yet.
   */
  lemma {:induction false} RevokingIsImmediateIff(w: World, s: Id)
    requires InHand(w) && AnswerOf(Now(w).answers, s) == None
    ensures OutForGood(Do(w, ForgetAll), s) <==> forall r | r in w.lookups :: NobodyUnderWay(w.lookups[r], s)
  {
    var v := Do(w, ForgetAll);
    if r :| r in w.lookups && !NobodyUnderWay(w.lookups[r], s) {
      OldAnswerLetsIn(w, r, s);
    } else {
      assert Now(v) == Now(w);
      forall steps | AllLeaveOut(steps, s) ensures ToldNobody(Run(v, steps), s, Index(v)) {
        RunKeepsOut(v, steps, s, Index(v));
      }
    }
  }
}
