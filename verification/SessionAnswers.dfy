/** Whom the session directory lets in, said of the rows its queries see. */
module SessionAnswers {
  import opened Prelude
  import opened SessionCache
  import opened Revocation

  /** The right answer for a session, in a database with these rows. */
  predicate RightAnswer(actor: Option<Actor>, answers: Answers, s: Id)
  {
    match actor
    case None => s in answers ==> !LetsIn(answers[s])
    case Some(a) => s in answers && LetsIn(answers[s]) && IsOf(a, answers[s])
  }

  lemma {:induction false} AnswerIsRight(actor: Option<Actor>, answers: Answers, s: Id)
    ensures RightAnswer(actor, answers, s) <==> actor == AnswerOf(answers, s)
  {
  }

  // ----- Every run -----

  predicate SawRight(history: seq<Moment>, s: Id, actor: Option<Actor>, seen: nat)
  {
    seen < |history| && RightAnswer(actor, history[seen].answers, s)
  }

  predicate LookupSawRight(history: seq<Moment>, l: Lookup)
  {
    l.Queried? ==> SawRight(history, l.s, l.actor, l.seen)
  }

  ghost predicate AllRight(w: World)
  {
    && Alive(w)
    && (forall s | s in w.resolved :: SawRight(w.history, s, w.resolved[s].actor, w.resolved[s].seen))
    && (forall r | r in w.lookups :: LookupSawRight(w.history, w.lookups[r]))
    && (forall i | 0 <= i < |w.given| :: SawRight(w.history, w.given[i].s, w.given[i].actor, w.given[i].seen))
  }

  lemma {:induction false} HistoryGrows(history: seq<Moment>, more: Moment, s: Id, actor: Option<Actor>, seen: nat)
    requires SawRight(history, s, actor, seen)
    ensures SawRight(history + [more], s, actor, seen)
  {
  }

  lemma {:induction false} MemoryRight(w: World, step: Step, s: Id)
    requires AllRight(w) && s in Act(w, step).resolved
    ensures SawRight(w.history, s, Act(w, step).resolved[s].actor, Act(w, step).resolved[s].seen)
  {
    if step.Insert? && step.r in w.lookups { assert LookupSawRight(w.history, w.lookups[step.r]); }
    if s in w.resolved { assert SawRight(w.history, s, w.resolved[s].actor, w.resolved[s].seen); }
  }

  lemma {:induction false} LookupRight(w: World, step: Step, r: Id)
    requires AllRight(w) && r in Act(w, step).lookups
    ensures LookupSawRight(w.history, Act(w, step).lookups[r])
  {
    if r in w.lookups {
      assert LookupSawRight(w.history, w.lookups[r]);
      AnswerIsRight(AnswerOf(Now(w).answers, w.lookups[r].s), Now(w).answers, w.lookups[r].s);
    }
  }

  lemma {:induction false} GivenRight(w: World, step: Step, i: nat)
    requires AllRight(w) && i < |Act(w, step).given|
    ensures var g := Act(w, step).given[i]; SawRight(w.history, g.s, g.actor, g.seen)
  {
    if i < |w.given| {
      assert Act(w, step).given[i] == w.given[i];
    } else if step.Insert? {
      assert LookupSawRight(w.history, w.lookups[step.r]);
    } else {
      assert SawRight(w.history, step.s, w.resolved[step.s].actor, w.resolved[step.s].seen);
    }
  }

  lemma {:induction false} StepKeepsRight(w: World, step: Step)
    requires AllRight(w)
    ensures AllRight(Do(w, step))
  {
    var a, v, more := Act(w, step), Do(w, step), NextMoment(w, step);
    forall s | s in v.resolved ensures SawRight(v.history, s, v.resolved[s].actor, v.resolved[s].seen) {
      MemoryRight(w, step, s);
      HistoryGrows(w.history, more, s, a.resolved[s].actor, a.resolved[s].seen);
    }
    forall r | r in v.lookups ensures LookupSawRight(v.history, v.lookups[r]) {
      LookupRight(w, step, r);
      var l := a.lookups[r];
      if l.Queried? { HistoryGrows(w.history, more, l.s, l.actor, l.seen); }
    }
    forall i | 0 <= i < |v.given| ensures SawRight(v.history, v.given[i].s, v.given[i].actor, v.given[i].seen) {
      GivenRight(w, step, i);
      HistoryGrows(w.history, more, a.given[i].s, a.given[i].actor, a.given[i].seen);
    }
  }

  lemma {:induction false} RunKeepsRight(w: World, steps: seq<Step>)
    requires AllRight(w)
    ensures AllRight(Run(w, steps))
    decreases |steps|
  {
    if steps != [] {
      StepKeepsRight(w, steps[0]);
      RunKeepsRight(Do(w, steps[0]), steps[1..]);
    }
  }

  /**
   In every run, an answer is an actor exactly if at the moment its query saw the session was live, and of the
   owner or of a staff member who was there with a store; and then it is that owner or that staff member.
   */
  lemma {:induction false} AnswersAreRight(steps: seq<Step>, i: nat)
    requires i < |Run(START, steps).given|
    ensures var w := Run(START, steps);
      w.given[i].seen < |w.history|
      && RightAnswer(w.given[i].actor, w.history[w.given[i].seen].answers, w.given[i].s)
  {
    RunKeepsRight(START, steps);
  }

  // ----- After a removal -----

  /** The session is signed out, or of a staff member who was removed. */
  predicate ShutOut(answers: Answers, s: Id) { s in answers ==> !LetsIn(answers[s]) }

  /** No request made from moment `from` on is let in with the session. */
  ghost predicate NobodyLetIn(w: World, s: Id, from: nat)
  {
    forall i | 0 <= i < |w.given| :: w.given[i].s == s && w.given[i].asked >= from ==> w.given[i].actor == None
  }

  ghost predicate StaysShutOut(steps: seq<Step>, s: Id)
  {
    forall i :: 0 <= i < |steps| && steps[i].Change? ==> ShutOut(steps[i].answers, s)
  }

  /** No lookup of the session has found it alive and not stored its answer yet. */
  ghost predicate NoneFoundAlive(w: World, s: Id)
  {
    forall r | r in w.lookups :: w.lookups[r].Queried? && w.lookups[r].s == s ==> w.lookups[r].actor == None
  }

  /** Removed, and everything forgotten: as long as the row stays so, no later request is let in with the session. */
  lemma {:induction false} RemovedIsShutOut(before: seq<Step>, after: seq<Step>, s: Id)
    requires var w := Run(START, before); ShutOut(Now(w).answers, s) && NoneFoundAlive(w, s)
    requires StaysShutOut(after, s)
    ensures var v := Do(Run(START, before), ForgetAll); NobodyLetIn(Run(v, after), s, Index(v))
  {
    var w := Run(START, before);
    RunKeepsInHand(START, before);
    AnswerIsRight(None, Now(w).answers, s);
    forall i | 0 <= i < |after| ensures LeavesOut(after[i], s) {
      if after[i].Change? { AnswerIsRight(None, after[i].answers, s); }
    }
    forall r | r in w.lookups ensures NobodyUnderWay(w.lookups[r], s) { }
    RevokingIsImmediateIff(w, s);
    var v := Do(w, ForgetAll);
    assert ToldNobody(Run(v, after), s, Index(v));
  }
}
