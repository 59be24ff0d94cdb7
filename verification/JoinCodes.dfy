/** Join codes when `replace_invite` is the two statements it is: exactly when a member has two that work. */
module JoinCodes {
  import opened Prelude
  import opened Sessions

  /** Every staff member has at most one code that was never used. */
  ghost predicate OneOpenCode(db: Tables)
  {
    forall staff: Id, a, b :: a in Unredeemed(db.invites, staff) && b in Unredeemed(db.invites, staff) ==> a == b
  }

  // ----- One publication -----

  /** A published code is the only open one of its member's, if and only if the DELETE found every open one. */
  lemma {:induction false} PublishingKeepsOneIff(db: Tables, staff: Id, cut: set<Id>, code: Id, expires: nat)
    requires OneOpenCode(db) && code !in db.invites && staff in db.staff
    ensures OneOpenCode(Published(db, staff, cut, code, expires)) <==> Unredeemed(db.invites, staff) <= cut
  {
    var after := Published(db, staff, cut, code, expires);
    assert code in Unredeemed(after.invites, staff);
    if Unredeemed(db.invites, staff) <= cut {
      forall who: Id, a, b | a in Unredeemed(after.invites, who) && b in Unredeemed(after.invites, who) ensures a == b {
        if a != code { assert a in Unredeemed(db.invites, who); }
        if b != code { assert b in Unredeemed(db.invites, who); }
      }
    } else {
      var open :| open in Unredeemed(db.invites, staff) && open !in cut;
      assert open in Unredeemed(after.invites, staff);
    }
  }

  lemma {:induction false} FewerKeepOneCode(db: Tables, after: Tables)
    requires OneOpenCode(db)
    requires forall c :: c in after.invites && after.invites[c].redeemedAt.None? ==>
        c in db.invites && db.invites[c] == after.invites[c]
    ensures OneOpenCode(after)
  {
    forall who: Id, a, b | a in Unredeemed(after.invites, who) && b in Unredeemed(after.invites, who) ensures a == b {
      assert a in Unredeemed(db.invites, who) && b in Unredeemed(db.invites, who);
    }
  }

  // ----- Any run -----

  /** Of the member's open codes, a call under way found exactly those that were published before it looked. */
  ghost predicate FoundEarlier(w: World, call: Call)
    requires forall c :: c in w.db.invites ==> c in w.issued
  {
    && call.cut <= w.used && call.at < w.count
    && forall c :: c in Unredeemed(w.db.invites, call.staff) ==> (c in call.cut <==> w.issued[c] < call.at)
  }

  ghost predicate CodesInHand(w: World)
  {
    && Minted(w)
    && (forall c :: c in w.db.invites ==> c in w.issued && w.issued[c] < w.count)
    && (forall q :: q in w.calls ==> FoundEarlier(w, w.calls[q]))
  }

  predicate Publishes(w: World, step: Step)
  {
    step.Publish? && step.q in w.calls && step.code !in w.used && w.calls[step.q].staff in w.db.staff
  }

  /** An open code was open before the step, unless the step published it. */
  lemma {:induction false} OpenCodesStay(w: World, step: Step, staff: Id, c: Id)
    requires c in Unredeemed(Do(w, step).db.invites, staff)
    ensures c in Unredeemed(w.db.invites, staff) || (Publishes(w, step) && c == step.code)
  {
  }

  lemma {:induction false} CodesStay(w: World, step: Step, c: Id)
    requires c in Do(w, step).db.invites
    ensures c in w.db.invites || (Publishes(w, step) && c == step.code)
  {
  }

  lemma {:induction false} IssuedStays(w: World, step: Step, c: Id)
    requires c in w.issued && c in w.used
    ensures c in Do(w, step).issued && Do(w, step).issued[c] == w.issued[c]
  {
  }

  lemma {:induction false} StepKeepsFound(w: World, step: Step, q: Id)
    requires CodesInHand(w) && q in w.calls
    requires forall c :: c in Do(w, step).db.invites ==> c in Do(w, step).issued
    ensures FoundEarlier(Do(w, step), w.calls[q])
  {
    var v, call := Do(w, step), w.calls[q];
    StepKeepsMinted(w, step);
    assert FoundEarlier(w, call);
    forall c | c in Unredeemed(v.db.invites, call.staff) ensures c in call.cut <==> v.issued[c] < call.at {
      OpenCodesStay(w, step, call.staff, c);
      if c in w.db.invites { IssuedStays(w, step, c); }
    }
  }

  lemma {:induction false} StepKeepsCodes(w: World, step: Step)
    requires CodesInHand(w)
    ensures CodesInHand(Do(w, step))
  {
    StepKeepsMinted(w, step);
    var v := Do(w, step);
    forall c | c in v.db.invites ensures c in v.issued && v.issued[c] < v.count {
      CodesStay(w, step, c);
      if c in w.db.invites { IssuedStays(w, step, c); }
    }
    forall q | q in v.calls ensures FoundEarlier(v, v.calls[q]) {
      if q in w.calls { StepKeepsFound(w, step, q); }
    }
  }

  lemma {:induction false} RunKeepsCodes(w: World, steps: seq<Step>)
    requires CodesInHand(w)
    ensures CodesInHand(Run(w, steps))
    decreases |steps|
  {
    if steps != [] {
      StepKeepsCodes(w, steps[0]);
      RunKeepsCodes(Do(w, steps[0]), steps[1..]);
    }
  }

  /** A code of the member that call `q` is for, published since the call's DELETE and not used yet. */
  predicate Newer(w: World, q: Id, c: Id)
    requires q in w.calls
  {
    c in Unredeemed(w.db.invites, w.calls[q].staff) && c in w.issued && w.calls[q].at <= w.issued[c]
  }

  /** The step publishes a code over such a one. */
  predicate Overtaken(w: World, step: Step)
  {
    Publishes(w, step) && exists c :: c in w.db.invites && Newer(w, step.q, c)
  }

  lemma {:induction false} PublishKeepsOneCodeIff(w: World, step: Step)
    requires CodesInHand(w) && OneOpenCode(w.db) && Publishes(w, step)
    ensures OneOpenCode(Do(w, step).db) <==> !Overtaken(w, step)
  {
    var call := w.calls[step.q];
    assert FoundEarlier(w, call);
    PublishingKeepsOneIff(w.db, call.staff, call.cut, step.code, w.clock + step.lifetime);
    if open :| open in Unredeemed(w.db.invites, call.staff) && open !in call.cut {
      assert Newer(w, step.q, open);
    }
  }

  lemma {:induction false} StepKeepsOneCodeIff(w: World, step: Step)
    requires CodesInHand(w) && OneOpenCode(w.db)
    ensures OneOpenCode(Do(w, step).db) <==> !Overtaken(w, step)
  {
    if Publishes(w, step) {
      PublishKeepsOneCodeIff(w, step);
    } else {
      FewerKeepOneCode(w.db, Do(w, step).db);
    }
  }

  ghost predicate AlwaysOneCode(w: World, steps: seq<Step>)
    decreases |steps|
  {
    OneOpenCode(w.db) && (steps != [] ==> AlwaysOneCode(Do(w, steps[0]), steps[1..]))
  }

  predicate NeverOvertaken(w: World, steps: seq<Step>)
    decreases |steps|
  {
    steps != [] ==> !Overtaken(w, steps[0]) && NeverOvertaken(Do(w, steps[0]), steps[1..])
  }

  lemma {:induction false} OneCodeFrom(w: World, steps: seq<Step>)
    requires CodesInHand(w) && OneOpenCode(w.db)
    ensures AlwaysOneCode(w, steps) <==> NeverOvertaken(w, steps)
    decreases |steps|
  {
    if steps != [] {
      StepKeepsCodes(w, steps[0]);
      StepKeepsOneCodeIff(w, steps[0]);
      if !Overtaken(w, steps[0]) {
        OneCodeFrom(Do(w, steps[0]), steps[1..]);
      } else {
        assert !AlwaysOneCode(Do(w, steps[0]), steps[1..]);
      }
    }
  }

  /**
   A run leaves every member at most one open code throughout, if and only if none of its INSERTs follows
   another one for the same member, published since its own DELETE and not used yet.
   */
  lemma {:induction false} OneCodeIffNotOvertaken(steps: seq<Step>)
    ensures AlwaysOneCode(START, steps) <==> NeverOvertaken(START, steps)
  {
    OneCodeFrom(START, steps);
  }

  /** A new code works, and beside it exactly the member's codes that were published since the call's DELETE. */
  lemma {:induction false} WhichCodesWork(before: seq<Step>, step: Step, other: Id, now: nat)
    requires Publishes(Run(START, before), step)
    ensures var w := Run(START, before);
      var v, staff := Do(w, step), w.calls[step.q].staff;
      MayRedeem(v.db, other, now) && v.db.invites[other].staff == staff <==>
          if other == step.code then w.db.staff[staff].removedAt.None? && now < w.clock + step.lifetime
          else MayRedeem(w.db, other, now) && Newer(w, step.q, other)
  {
    var w := Run(START, before);
    RunKeepsCodes(START, before);
    assert FoundEarlier(w, w.calls[step.q]);
  }

  // ----- A run that lets two phones in -----

  /** The member has a code already; two more are asked for at once, published, and typed into two phones. */
  const TWICE: seq<Step> := [
    Hire(1, 9), Cancel(7, 1), Publish(7, 4, DAY), Cancel(7, 1), Cancel(8, 1), Publish(7, 5, DAY), Publish(8, 6, DAY),
    Redeem(5), Redeem(6)]

  /** The world before each of those steps, and after the last. */
  function TwiceStage(i: nat): World
    requires i <= 9
  {
    var unused := Invite(1, DAY, None);
    var spent := Invite(1, DAY, Some(0));
    var first := if i == 2 then Call(1, {}, 1) else Call(1, {4}, 3);
    World(
      0, i,
      Tables(
        map[], map[], if i == 0 then map[] else map[1 := Member(9, None)],
        if i <= 2 then map[] else if i <= 5 then map[4 := unused] else if i == 6 then map[5 := unused]
        else if i == 7 then map[5 := unused, 6 := unused]
        else if i == 8 then map[5 := spent, 6 := unused] else map[5 := spent, 6 := spent]),
      map[], [],
      if i == 0 then {} else if i <= 2 then {1} else if i <= 5 then {1, 4}
      else if i == 6 then {1, 4, 5} else {1, 4, 5, 6},
      if i == 2 || i == 4 then map[7 := first] else if i == 5 then map[7 := first, 8 := Call(1, {4}, 4)]
      else if i == 6 then map[8 := Call(1, {4}, 4)] else map[],
      if i <= 2 then map[] else if i <= 5 then map[4 := 2] else if i == 6 then map[4 := 2, 5 := 5]
      else map[4 := 2, 5 := 5, 6 := 6])
  }

  lemma {:induction false} TwiceAsked(i: nat)
    requires i < 2 || i == 3 || i == 4
    ensures Do(TwiceStage(i), TWICE[i]) == TwiceStage(i + 1)
  {
    var w, v := Do(TwiceStage(i), TWICE[i]), TwiceStage(i + 1);
    assert Unredeemed(TwiceStage(i).db.invites, 1) == if i < 2 then {} else {4};
    assert w.db.staff == v.db.staff;
    assert w.calls == v.calls && w.used == v.used;
  }

  lemma {:induction false} TwiceInvites(i: nat)
    requires i == 2 || i == 5 || i == 6
    ensures var u := TwiceStage(i);
      Published(u.db, 1, u.calls[TWICE[i].q].cut, TWICE[i].code, DAY).invites == TwiceStage(i + 1).db.invites
  {
    var u := TwiceStage(i).db.invites;
    assert Unredeemed(u, 1) == u.Keys;
    assert u - TwiceStage(i).calls[TWICE[i].q].cut * u.Keys == if i == 6 then map[5 := Invite(1, DAY, None)] else map[];
  }

  lemma {:induction false} TwicePublished(i: nat)
    requires i == 2 || i == 5 || i == 6
    ensures Do(TwiceStage(i), TWICE[i]) == TwiceStage(i + 1)
  {
    TwiceInvites(i);
    var w, v := Do(TwiceStage(i), TWICE[i]), TwiceStage(i + 1);
    assert w.calls == v.calls;
    assert w.used == v.used;
    assert w.issued == v.issued;
  }

  lemma {:induction false} TwiceRedeemed(i: nat)
    requires i == 7 || i == 8
    ensures Do(TwiceStage(i), TWICE[i]) == TwiceStage(i + 1)
  {
    assert Do(TwiceStage(i), TWICE[i]).db.invites == TwiceStage(i + 1).db.invites;
  }

  lemma {:induction false} TwiceFrom(i: nat, n: nat)
    requires i <= n <= 9
    ensures Run(TwiceStage(i), TWICE[i..n]) == TwiceStage(n)
    decreases n - i
  {
    if i < n {
      if i == 2 || i == 5 || i == 6 {
        TwicePublished(i);
      } else if i >= 7 {
        TwiceRedeemed(i);
      } else {
        TwiceAsked(i);
      }
      TwiceFrom(i + 1, n);
      assert TWICE[i..n][0] == TWICE[i] && TWICE[i..n][1..] == TWICE[i + 1..n];
    }
  }

  /** Two codes of one member work at once, and both are redeemed. */
  lemma {:induction false} TwoPhonesJoin()
    ensures var w := Run(START, TWICE[..7]); MayRedeem(w.db, 5, 0) && MayRedeem(w.db, 6, 0) && !OneOpenCode(w.db)
    ensures Run(START, TWICE).db.invites == map[5 := Invite(1, DAY, Some(0)), 6 := Invite(1, DAY, Some(0))]
    ensures Overtaken(Run(START, TWICE[..6]), TWICE[6])
  {
    assert TWICE[0..7] == TWICE[..7] && TWICE[0..6] == TWICE[..6] && TWICE[0..9] == TWICE;
    TwiceFrom(0, 6);
    TwiceFrom(0, 7);
    TwiceFrom(0, 9);
    var open := TwiceStage(7).db.invites;
    assert 5 in Unredeemed(open, 1) && 6 in Unredeemed(open, 1);
    assert Newer(TwiceStage(6), 8, 5);
  }

  // ----- A code is used once -----

  lemma {:induction false} StepKeepsRedeemed(w: World, step: Step, code: Id, at: nat)
    requires code in w.db.invites && w.db.invites[code].redeemedAt == Some(at)
    ensures code in Do(w, step).db.invites && Do(w, step).db.invites[code] == w.db.invites[code]
  {
  }

  /** A code lets one phone in: once redeemed it is never redeemed again. */
  lemma {:induction false} RedeemedOnce(w: World, steps: seq<Step>, code: Id, at: nat)
    requires code in w.db.invites && w.db.invites[code].redeemedAt == Some(at)
    ensures code in Run(w, steps).db.invites && Run(w, steps).db.invites[code].redeemedAt == Some(at)
    ensures !MayRedeem(Run(w, steps).db, code, Run(w, steps).clock)
    decreases |steps|
  {
    if steps != [] {
      StepKeepsRedeemed(w, steps[0], code, at);
      RedeemedOnce(Do(w, steps[0]), steps[1..], code, at);
    }
  }
}
