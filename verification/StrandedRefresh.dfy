/** When a refresh that was let through can still store its new token: exactly as long as its session keeps its row. */
module StrandedRefresh {
  import opened Prelude
  import opened Sessions

  // ----- One purge -----

  predicate KeepsToken(db: Tables, owner: Id, now: nat, s: Id, t: Id)
  {
    t in db.tokens && db.tokens[t].session == s && !(db.tokens[t].owner == owner && DeadToken(db.tokens[t], now))
  }

  /**
   A session outlives `purge_dead_sessions` if and only if it is another owner's, not a day old, or has a
   token that is not spent.
   */
  lemma {:induction false} SessionOutlivesPurgeIff(db: Tables, owner: Id, now: nat, s: Id)
    requires s in db.sessions
    ensures s in Purged(db, owner, now).sessions <==>
        db.sessions[s].owner != owner || now <= db.sessions[s].created + DAY ||
        exists t: Id :: KeepsToken(db, owner, now, s, t)
  {
    var p := PurgedTokens(db, owner, now);
    if HasToken(p, s) {
      var t :| t in p.tokens && p.tokens[t].session == s;
      assert KeepsToken(db, owner, now, s, t);
    }
    if t: Id :| KeepsToken(db, owner, now, s, t) {
      assert t in p.tokens;
    }
  }

  // ----- Any run -----

  /** The step deletes the session's row: the second statement of a purge, or the retention sweep. */
  predicate Takes(w: World, step: Step, s: Id)
  {
    s in w.db.sessions
    && match step
       case PurgeSessions(owner) =>
         w.db.sessions[s].owner == owner && w.db.sessions[s].created + DAY < w.clock && !HasToken(w.db, s)
       case Drop(dropped) => dropped == s && w.db.sessions[s].revokedAt.Some?
       case _ => false
  }

  predicate TakenIn(w: World, steps: seq<Step>, s: Id)
    decreases |steps|
  {
    steps != [] && (Takes(w, steps[0], s) || TakenIn(Do(w, steps[0]), steps[1..], s))
  }

  lemma {:induction false} StepTakes(w: World, step: Step, s: Id)
    requires Minted(w) && s in w.used
    ensures s in Do(w, step).db.sessions <==> s in w.db.sessions && !Takes(w, step, s)
  {
  }

  /** A row that is gone stays gone: session ids are not used again. */
  lemma {:induction false} GoneStaysGone(w: World, steps: seq<Step>, s: Id)
    requires Minted(w) && s in w.used && s !in w.db.sessions
    ensures s !in Run(w, steps).db.sessions
    decreases |steps|
  {
    if steps != [] {
      StepKeepsMinted(w, steps[0]);
      StepTakes(w, steps[0], s);
      GoneStaysGone(Do(w, steps[0]), steps[1..], s);
    }
  }

  lemma {:induction false} RowStaysIff(w: World, steps: seq<Step>, s: Id)
    requires Minted(w) && s in w.db.sessions
    ensures s in Run(w, steps).db.sessions <==> !TakenIn(w, steps, s)
    decreases |steps|
  {
    if steps != [] {
      StepKeepsMinted(w, steps[0]);
      StepTakes(w, steps[0], s);
      if Takes(w, steps[0], s) {
        GoneStaysGone(Do(w, steps[0]), steps[1..], s);
      } else {
        RowStaysIff(Do(w, steps[0]), steps[1..], s);
      }
    }
  }

  /**
   In every run, a refresh that was let through stores its new token if and only if no statement between its
   lookup and its store deleted the session: a purge that found it a day old and without any token, or the
   retention sweep, which takes revoked ones.
   */
  lemma {:induction false} StoresIffNotTaken(before: seq<Step>, between: seq<Step>, r: Id, t: Id, s: Id, minted: Id,
      lifetime: nat)
    requires r !in Run(START, before).requests
    requires Find(Run(START, before).db, t).Some? && Run(START, before).db.tokens[t].session == s
    requires var w := Run(Do(Run(START, before), Lookup(r, t)), between);
      r in w.requests && w.requests[r].Accepted? && w.requests[r].s == s && minted !in w.used
    ensures var looked := Do(Run(START, before), Lookup(r, t));
      minted in Do(Run(looked, between), Store(r, minted, lifetime)).db.tokens <==> !TakenIn(looked, between, s)
  {
    var w0 := Run(START, before);
    RunKeepsCounted(START, before);
    StepKeepsMinted(w0, Lookup(r, t));
    var looked := Do(w0, Lookup(r, t));
    RowStaysIff(looked, between, s);
    RunKeepsCounted(looked, between);
  }

  // ----- A run that strands one -----

  /** A token expires between the check and the store, and the owner signs in on another phone. */
  const STRANDING: seq<Step> := [
    Open(3, 1, None), Issue(3, 2, DAY + 10), Wait(DAY + 9), Lookup(1, 2), Check(1), Wait(2), PurgeTokens(1),
    PurgeSessions(1),
    Store(1, 4, DAY)]

  /** The world before each of those steps, and after the last. */
  function StrandingStage(i: nat): World
    requires i <= 9
  {
    var token, session := Token(1, 3, DAY + 10, None, None), Session(1, None, 0, 0, None);
    World(
      if i <= 2 then 0 else if i <= 5 then DAY + 9 else DAY + 11,
      i,
      Tables(
          if 2 <= i <= 6 then map[2 := token] else map[],
          if 1 <= i <= 7 then map[3 := session] else map[], map[], map[]),
      if i == 4 then map[1 := Holding(2, Found(token, true, true), 3)]
          else if 5 <= i <= 8 then map[1 := Accepted(2, 3, 3)] else map[],
      if i <= 4 then [] else [Acceptance(2, 3, 3, DAY + 9)],
      if i == 0 then {} else if i == 1 then {3} else if i <= 8 then {3, 2} else {3, 2, 4}, map[], map[])
  }

  lemma {:induction false} StrandingStarts(i: nat)
    requires i < 5
    ensures Do(StrandingStage(i), STRANDING[i]) == StrandingStage(i + 1)
  {
    var w, v := Do(StrandingStage(i), STRANDING[i]), StrandingStage(i + 1);
    assert w.db.tokens == v.db.tokens;
    assert w.db.sessions == v.db.sessions;
    assert w.requests == v.requests && w.accepted == v.accepted && w.used == v.used;
  }

  lemma {:induction false} StrandingEnds(i: nat)
    requires 5 <= i < 9
    ensures Do(StrandingStage(i), STRANDING[i]) == StrandingStage(i + 1)
  {
    var w, v := Do(StrandingStage(i), STRANDING[i]), StrandingStage(i + 1);
    assert w.db.tokens == v.db.tokens;
    assert w.db.sessions == v.db.sessions;
    assert w.requests == v.requests && w.accepted == v.accepted && w.used == v.used;
  }

  lemma {:induction false} StrandingFrom(i: nat)
    requires i <= 9
    ensures Run(StrandingStage(i), STRANDING[i..]) == StrandingStage(9)
    decreases 9 - i
  {
    if i < 9 {
      if i < 5 { StrandingStarts(i); } else { StrandingEnds(i); }
      StrandingFrom(i + 1);
      assert STRANDING[i..][0] == STRANDING[i] && STRANDING[i..][1..] == STRANDING[i + 1..];
    }
  }

  /** A run in which a refresh is let through and is left without a token, its session gone. */
  lemma {:induction false} PurgeCanStrandARefresh()
    ensures var w := Run(START, STRANDING);
      w.accepted == [Acceptance(2, 3, 3, DAY + 9)] && w.requests == map[] && w.db.tokens == map[]
          && w.db.sessions == map[]
  {
    StrandingFrom(0);
    assert STRANDING[0..] == STRANDING;
  }
}
