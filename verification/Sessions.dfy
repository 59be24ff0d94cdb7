/**
 Device sessions, refresh tokens and join codes. A refresh is several stored steps, and anything
 may happen between them: revocation, removal, another exchange. Times are seconds.
 */
module Sessions {
  import opened Prelude

  const DAY: nat := 86_400

  /** An exchanged token keeps working this long, for a phone whose answer was lost. */
  const ROTATION_GRACE: nat := 24 * 3600

  /** Tokens are kept under their digest. */
  datatype Token = Token(owner: Id, session: Id, expires: nat, revokedAt: Option<nat>, rotatedAt: Option<nat>)

  datatype Session = Session(owner: Id, staff: Option<Id>, created: nat, lastSeen: nat, revokedAt: Option<nat>)

  datatype Member = Member(store: Id, removedAt: Option<nat>)

  /** A join code, kept under its digest. */
  datatype Invite = Invite(staff: Id, expires: nat, redeemedAt: Option<nat>)

  datatype Tables = Tables(
    tokens: map<Id, Token>, sessions: map<Id, Session>, staff: map<Id, Member>, invites: map<Id, Invite>)

  const EMPTY := Tables(map[], map[], map[], map[])

  // ----- What each statement does -----

  /** What `find_refresh_token` returns. */
  datatype Found = Found(token: Token, sessionLive: bool, staffLive: bool)

  predicate StaffLive(db: Tables, staff: Option<Id>)
  {
    staff.Some? && staff.value in db.staff ==> db.staff[staff.value].removedAt.None?
  }

  function Find(db: Tables, t: Id): Option<Found>
  {
    if t !in db.tokens || db.tokens[t].session !in db.sessions then None
    else
      var s := db.sessions[db.tokens[t].session];
      Some(Found(db.tokens[t], s.revokedAt.None?, StaffLive(db, s.staff)))
  }

  /** The check `refresh` makes on what it found. */
  predicate Passes(found: Found, now: nat)
  {
    && found.token.revokedAt.None?
    && now < found.token.expires
    && !(found.token.rotatedAt.Some? && found.token.rotatedAt.value + ROTATION_GRACE <= now)
    && found.sessionLive && found.staffLive
  }

  /** Only the first exchange is noted. */
  function Rotated(db: Tables, t: Id, now: nat): Tables
  {
    if t in db.tokens && db.tokens[t].rotatedAt.None? then
      db.(tokens := db.tokens[t := db.tokens[t].(rotatedAt := Some(now))])
    else db
  }

  function Touched(db: Tables, s: Id, now: nat): Tables
  {
    if s in db.sessions then db.(sessions := db.sessions[s := db.sessions[s].(lastSeen := now)]) else db
  }

  /** A token can only be stored for a session that still has a row. */
  function Stored(db: Tables, s: Id, t: Id, expires: nat): Tables
  {
    if s in db.sessions && t !in db.tokens then
      db.(tokens := db.tokens[t := Token(db.sessions[s].owner, s, expires, None, None)])
    else db
  }

  function Opened(db: Tables, s: Id, owner: Id, staff: Option<Id>, now: nat): Tables
  {
    if s in db.sessions then db else db.(sessions := db.sessions[s := Session(owner, staff, now, now, None)])
  }

  function Ended(t: Token, now: nat): Token
  {
    if t.revokedAt.None? then t.(revokedAt := Some(now)) else t
  }

  /** The sessions in `ended` are revoked, and every token of theirs with them. */
  function WithoutSessions(db: Tables, ended: set<Id>, now: nat): Tables
  {
    db.(sessions := map s | s in db.sessions ::
          if s in ended && db.sessions[s].revokedAt.None? then db.sessions[s].(revokedAt := Some(now))
              else db.sessions[s],
        tokens := map t | t in db.tokens ::
          if db.tokens[t].session in ended then Ended(db.tokens[t], now) else db.tokens[t])
  }

  predicate MayRevoke(db: Tables, owner: Id, s: Id)
  {
    s in db.sessions && db.sessions[s].owner == owner && db.sessions[s].revokedAt.None?
  }

  function Revoked(db: Tables, owner: Id, s: Id, now: nat): Tables
  {
    if MayRevoke(db, owner, s) then WithoutSessions(db, {s}, now) else db
  }

  /** Signing out ends the session the token belongs to. */
  function SignedOut(db: Tables, t: Id, now: nat): Tables
  {
    if t in db.tokens && db.tokens[t].session in db.sessions && db.sessions[db.tokens[t].session].revokedAt.None?
    then WithoutSessions(db, {db.tokens[t].session}, now) else db
  }

  predicate MayRemove(db: Tables, store: Id, staff: Id)
  {
    staff in db.staff && db.staff[staff].store == store && db.staff[staff].removedAt.None?
  }

  function SessionsOf(db: Tables, staff: Id): set<Id>
  {
    set s | s in db.sessions && db.sessions[s].staff == Some(staff)
  }

  function Unredeemed(invites: map<Id, Invite>, staff: Id): set<Id>
  {
    set c | c in invites && invites[c].staff == staff && invites[c].redeemedAt.None?
  }

  /** Removing a staff member signs out every device they use and cancels their codes. */
  function Removed(db: Tables, store: Id, staff: Id, now: nat): Tables
  {
    if !MayRemove(db, store, staff) then db
    else
      WithoutSessions(db, SessionsOf(db, staff), now).(
        staff := db.staff[staff := db.staff[staff].(removedAt := Some(now))],
        invites := db.invites - Unredeemed(db.invites, staff))
  }

  /** What `replace_invite` publishes: the codes its DELETE found go if they are still unused, and a new one comes. */
  function Published(db: Tables, staff: Id, cut: set<Id>, code: Id, expires: nat): Tables
  {
    var left := db.invites - cut * Unredeemed(db.invites, staff);
    if code in left || staff !in db.staff then db else db.(invites := left[code := Invite(staff, expires, None)])
  }

  /** The same when nothing comes between its two statements. */
  function Invited(db: Tables, staff: Id, code: Id, expires: nat): Tables
  {
    Published(db, staff, Unredeemed(db.invites, staff), code, expires)
  }

  predicate MayRedeem(db: Tables, code: Id, now: nat)
  {
    code in db.invites && db.invites[code].redeemedAt.None? && now < db.invites[code].expires
    && db.invites[code].staff in db.staff && db.staff[db.invites[code].staff].removedAt.None?
  }

  function Redeemed(db: Tables, code: Id, now: nat): Tables
  {
    if MayRedeem(db, code, now) then
      db.(invites := db.invites[code := db.invites[code].(redeemedAt := Some(now))])
    else db
  }

  predicate Past(at: Option<nat>, days: nat, now: nat) { at.Some? && at.value + days * DAY < now }

  predicate DeadToken(t: Token, now: nat)
  {
    t.expires < now || Past(t.revokedAt, 7, now) || Past(t.rotatedAt, 7, now)
  }

  /** `purge_dead_sessions`: spent tokens, then day-old sessions left without any. */
  function PurgedTokens(db: Tables, owner: Id, now: nat): Tables
  {
    db.(tokens := map t | t in db.tokens && !(db.tokens[t].owner == owner && DeadToken(db.tokens[t], now)) ::
        db.tokens[t])
  }

  predicate HasToken(db: Tables, s: Id) { exists t | t in db.tokens :: db.tokens[t].session == s }

  function PurgedSessions(db: Tables, owner: Id, now: nat): Tables
  {
    db.(sessions := map s |
          s in db.sessions
              && !(db.sessions[s].owner == owner && db.sessions[s].created + DAY < now && !HasToken(db, s)) ::
          db.sessions[s])
  }

  function Purged(db: Tables, owner: Id, now: nat): Tables
  {
    PurgedSessions(PurgedTokens(db, owner, now), owner, now)
  }

  // ----- The steps, interleaved -----

  /** A refresh under way. `looked` is the number of the step that looked its token up. */
  datatype Request =
    | Holding(t: Id, found: Found, looked: nat)
    | Accepted(t: Id, s: Id, looked: nat)

  /** The check let a refresh through. */
  datatype Acceptance = Acceptance(t: Id, s: Id, looked: nat, at: nat)

  /** A `replace_invite` under way: the unused codes its DELETE found, and the number of that step. */
  datatype Call = Call(staff: Id, cut: set<Id>, at: nat)

  /**
   `used` remembers every id ever minted for a session, a token, a staff member or a code, and `issued` the
   number of the step that published a code.
   */
  datatype World = World(
    clock: nat, count: nat, db: Tables, requests: map<Id, Request>, accepted: seq<Acceptance>, used: set<Id>,
    calls: map<Id, Call>, issued: map<Id, nat>)

  const START := World(0, 0, EMPTY, map[], [], {}, map[], map[])

  datatype Step =
    | Wait(ticks: nat)
    | Lookup(r: Id, t: Id)                       // refresh: find_refresh_token
    | Check(r: Id)                               // refresh: the clock is read and the record checked
    | Rotate(r: Id)                              // refresh: mark_rotated
    | Touch(r: Id)                               // refresh: touch_session
    | Store(r: Id, minted: Id, lifetime: nat)     // refresh: store_refresh_token, once the session resolved
    | Fail(r: Id)                                // a request gives up, or its session does not resolve
    | Open(s: Id, owner: Id, who: Option<Id>)    // login, join or registration
    | Issue(s: Id, minted: Id, lifetime: nat)     // and the first token
    | Revoke(owner: Id, s: Id)
    | SignOut(t: Id)
    | Hire(staff: Id, store: Id)
    | Remove(store: Id, staff: Id)
    | Cancel(q: Id, staff: Id)                   // replace_invite: its DELETE
    | Publish(q: Id, code: Id, lifetime: nat)    // its INSERT, and the commit that shows both
    | Abandon(q: Id)                             // or a rollback
    | Redeem(code: Id)
    | PurgeTokens(owner: Id)                     // purge_dead_sessions, first statement
    | PurgeSessions(owner: Id)                   // and second
    | Drop(s: Id)                                // the retention sweep deletes a revoked session and its tokens

  function Dropped(db: Tables, s: Id): Tables
  {
    if s in db.sessions && db.sessions[s].revokedAt.Some? then
      db.(sessions := db.sessions - {s}, tokens := map t | t in db.tokens && db.tokens[t].session != s :: db.tokens[t])
    else db
  }

  /** Ids are minted at random, so a step that would reuse one does not occur. */
  function Act(w: World, s: Step): World
  {
    match s
    case Wait(ticks) => w.(clock := w.clock + ticks)
    case Lookup(r, t) =>
      if r in w.requests || Find(w.db, t).None? then w
      else w.(requests := w.requests[r := Holding(t, Find(w.db, t).value, w.count)])
    case Check(r) =>
      if r in w.requests && w.requests[r].Holding? then
        var q := w.requests[r];
        if Passes(q.found, w.clock) then
          w.(requests := w.requests[r := Accepted(q.t, q.found.token.session, q.looked)],
             accepted := w.accepted + [Acceptance(q.t, q.found.token.session, q.looked, w.clock)])
        else w.(requests := w.requests - {r})
      else w
    case Rotate(r) =>
      if r in w.requests && w.requests[r].Accepted? then w.(db := Rotated(w.db, w.requests[r].t, w.clock)) else w
    case Touch(r) =>
      if r in w.requests && w.requests[r].Accepted? then w.(db := Touched(w.db, w.requests[r].s, w.clock)) else w
    case Store(r, minted, lifetime) =>
      if r in w.requests && w.requests[r].Accepted? && minted !in w.used then
        w.(db := Stored(w.db, w.requests[r].s, minted, w.clock + lifetime), requests := w.requests - {r},
            used := w.used + {minted})
      else w
    case Fail(r) => w.(requests := w.requests - {r})
    case Open(s, owner, who) =>
      if s in w.used || (who.Some? && who.value !in w.db.staff) then w
      else w.(db := Opened(w.db, s, owner, who, w.clock), used := w.used + {s})
    case Issue(s, minted, lifetime) =>
      if minted in w.used then w else w.(db := Stored(w.db, s, minted, w.clock + lifetime), used := w.used + {minted})
    case Revoke(owner, s) => w.(db := Revoked(w.db, owner, s, w.clock))
    case SignOut(t) => w.(db := SignedOut(w.db, t, w.clock))
    case Hire(staff, store) =>
      if staff in w.used then w
      else w.(db := w.db.(staff := w.db.staff[staff := Member(store, None)]), used := w.used + {staff})
    case Remove(store, staff) => w.(db := Removed(w.db, store, staff, w.clock))
    case Cancel(q, staff) =>
      if q in w.calls then w
      else w.(calls := w.calls[q := Call(staff, Unredeemed(w.db.invites, staff), w.count)])
    case Publish(q, code, lifetime) =>
      if q in w.calls && code !in w.used then
        w.(db := Published(w.db, w.calls[q].staff, w.calls[q].cut, code, w.clock + lifetime), calls := w.calls - {q},
            issued := w.issued[code := w.count], used := w.used + {code})
      else w
    case Abandon(q) => w.(calls := w.calls - {q})
    case Redeem(code) => w.(db := Redeemed(w.db, code, w.clock))
    case PurgeTokens(owner) => w.(db := PurgedTokens(w.db, owner, w.clock))
    case PurgeSessions(owner) => w.(db := PurgedSessions(w.db, owner, w.clock))
    case Drop(s) => w.(db := Dropped(w.db, s))
  }

  function Do(w: World, s: Step): World { Act(w, s).(count := w.count + 1) }

  function Run(w: World, steps: seq<Step>): World
    decreases |steps|
  {
    if steps == [] then w else Run(Do(w, steps[0]), steps[1..])
  }

  // ----- A session that has ended -----

  /** Revoked, gone, or of a staff member who was removed. */
  predicate Dead(db: Tables, s: Id)
  {
    s in db.sessions ==> db.sessions[s].revokedAt.Some? || !StaffLive(db, db.sessions[s].staff)
  }

  /** Sessions, tokens, staff and codes are only held under ids that were minted for them. */
  ghost predicate Minted(w: World)
  {
    && w.db.sessions.Keys <= w.used && w.db.tokens.Keys <= w.used
    && w.db.staff.Keys <= w.used && w.db.invites.Keys <= w.used
  }

  lemma {:induction false} DevicesMinted(w: World, step: Step)
    requires Minted(w)
    ensures Do(w, step).db.sessions.Keys <= Do(w, step).used && Do(w, step).db.tokens.Keys <= Do(w, step).used
  {
  }

  lemma {:induction false} StaffMinted(w: World, step: Step)
    requires Minted(w)
    ensures Do(w, step).db.staff.Keys <= Do(w, step).used && Do(w, step).db.invites.Keys <= Do(w, step).used
  {
  }

  lemma {:induction false} StepMoves(w: World, step: Step)
    ensures w.used <= Do(w, step).used && Do(w, step).clock >= w.clock
  {
  }

  lemma {:induction false} StepKeepsMinted(w: World, step: Step)
    requires Minted(w)
    ensures Minted(Do(w, step)) && w.used <= Do(w, step).used && Do(w, step).clock >= w.clock
  {
    DevicesMinted(w, step);
    StaffMinted(w, step);
    StepMoves(w, step);
  }

  lemma {:induction false} StepKeepsDead(w: World, step: Step, s: Id)
    requires Minted(w) && s in w.used && Dead(w.db, s)
    ensures Dead(Do(w, step).db, s)
  {
  }

  /** A token looked up now belongs to a session that is not dead, if it passes. */
  predicate Sees(found: Found) { found.sessionLive && found.staffLive }

  predicate Blind(q: Request, s: Id, from: nat)
  {
    q.Holding? && q.found.token.session == s && from <= q.looked ==> !Sees(q.found)
  }

  ghost predicate HoldsNone(w: World, s: Id, from: nat)
  {
    forall r | r in w.requests :: Blind(w.requests[r], s, from)
  }

  ghost predicate AcceptedNone(w: World, s: Id, from: nat)
  {
    forall i :: 0 <= i < |w.accepted| && w.accepted[i].s == s ==> w.accepted[i].looked < from
  }

  /** Nothing looked up from step `from` on can be accepted for this session. */
  ghost predicate Shut(w: World, s: Id, from: nat)
  {
    Minted(w) && from <= w.count && s in w.used && Dead(w.db, s) && HoldsNone(w, s, from) && AcceptedNone(w, s, from)
  }

  lemma {:induction false} StepHoldsNone(w: World, step: Step, s: Id, from: nat)
    requires Shut(w, s, from)
    ensures HoldsNone(Do(w, step), s, from)
  {
  }

  lemma {:induction false} StepAcceptsNone(w: World, step: Step, s: Id, from: nat)
    requires Shut(w, s, from)
    ensures AcceptedNone(Do(w, step), s, from)
  {
  }

  lemma {:induction false} StepKeepsShut(w: World, step: Step, s: Id, from: nat)
    requires Shut(w, s, from)
    ensures Shut(Do(w, step), s, from)
  {
    StepKeepsMinted(w, step);
    StepKeepsDead(w, step, s);
    StepHoldsNone(w, step, s, from);
    StepAcceptsNone(w, step, s, from);
  }

  lemma {:induction false} RunKeepsShut(w: World, steps: seq<Step>, s: Id, from: nat)
    requires Shut(w, s, from)
    ensures Shut(Run(w, steps), s, from)
    decreases |steps|
  {
    if steps != [] {
      StepKeepsShut(w, steps[0], s, from);
      RunKeepsShut(Do(w, steps[0]), steps[1..], s, from);
    }
  }

  /** Every request and acceptance was looked up in an earlier step. */
  ghost predicate Counted(w: World)
  {
    && (forall r :: r in w.requests ==> w.requests[r].looked < w.count)
    && (forall i :: 0 <= i < |w.accepted| ==> w.accepted[i].looked < w.count)
  }

  lemma {:induction false} StepKeepsCounted(w: World, step: Step)
    requires Counted(w)
    ensures Counted(Do(w, step))
  {
  }

  lemma {:induction false} RunKeepsCounted(w: World, steps: seq<Step>)
    requires Counted(w) && Minted(w)
    ensures Counted(Run(w, steps)) && Minted(Run(w, steps))
    decreases |steps|
  {
    if steps != [] {
      StepKeepsMinted(w, steps[0]);
      StepKeepsCounted(w, steps[0]);
      RunKeepsCounted(Do(w, steps[0]), steps[1..]);
    }
  }

  /** Once a session is dead, no refresh whose lookup comes later is ever accepted for it, whatever token it brings. */
  lemma {:induction false} DeadStaysShut(before: seq<Step>, after: seq<Step>, s: Id, i: nat)
    requires s in Run(START, before).used && Dead(Run(START, before).db, s)
    requires i < |Run(Run(START, before), after).accepted| && Run(Run(START, before), after).accepted[i].s == s
    ensures Run(Run(START, before), after).accepted[i].looked < Run(START, before).count
  {
    var w := Run(START, before);
    RunKeepsCounted(START, before);
    assert Shut(w, s, w.count);
    RunKeepsShut(w, after, s, w.count);
  }

  /** What makes a session dead: revoking it, signing out with any of its tokens, removing its staff member. */
  lemma {:induction false} EndingIsDeath(db: Tables, s: Id, now: nat)
    requires s in db.sessions
    ensures Dead(Revoked(db, db.sessions[s].owner, s, now), s)
    ensures forall t :: t in db.tokens && db.tokens[t].session == s ==> Dead(SignedOut(db, t, now), s)
    ensures db.sessions[s].staff.Some? && db.sessions[s].staff.value in db.staff
      ==> Dead(Removed(db, db.staff[db.sessions[s].staff.value].store, db.sessions[s].staff.value, now), s)
  {
  }

  // ----- An exchanged token -----

  /** The token is gone, or still carries the time of its first exchange. */
  predicate Spent(db: Tables, t: Id, at: nat)
  {
    t in db.tokens ==> db.tokens[t].rotatedAt == Some(at)
  }

  predicate SawExchange(q: Request, t: Id, at: nat, from: nat)
  {
    q.Holding? && q.t == t && from <= q.looked ==> q.found.token.rotatedAt == Some(at)
  }

  predicate InGrace(a: Acceptance, t: Id, at: nat, from: nat)
  {
    a.t == t && from <= a.looked ==> a.at < at + ROTATION_GRACE
  }

  /** Whatever was looked up since then saw the exchange, and was only accepted within the grace period. */
  ghost predicate Closing(w: World, t: Id, at: nat, from: nat)
  {
    && Minted(w) && from <= w.count && t in w.used && Spent(w.db, t, at)
    && (forall r | r in w.requests :: SawExchange(w.requests[r], t, at, from))
    && (forall i | 0 <= i < |w.accepted| :: InGrace(w.accepted[i], t, at, from))
  }

  lemma {:induction false} StepKeepsSpent(w: World, step: Step, t: Id, at: nat)
    requires Minted(w) && t in w.used && Spent(w.db, t, at)
    ensures Spent(Do(w, step).db, t, at)
  {
  }

  lemma {:induction false} RequestsSawExchange(w: World, step: Step, t: Id, at: nat, from: nat)
    requires Closing(w, t, at, from)
    ensures forall r | r in Do(w, step).requests :: SawExchange(Do(w, step).requests[r], t, at, from)
  {
  }

  lemma {:induction false} AcceptedInGrace(w: World, step: Step, t: Id, at: nat, from: nat)
    requires Closing(w, t, at, from)
    ensures forall i | 0 <= i < |Do(w, step).accepted| :: InGrace(Do(w, step).accepted[i], t, at, from)
  {
  }

  lemma {:induction false} StepKeepsClosing(w: World, step: Step, t: Id, at: nat, from: nat)
    requires Closing(w, t, at, from)
    ensures Closing(Do(w, step), t, at, from)
  {
    StepKeepsMinted(w, step);
    StepKeepsSpent(w, step, t, at);
    RequestsSawExchange(w, step, t, at, from);
    AcceptedInGrace(w, step, t, at, from);
  }

  lemma {:induction false} RunKeepsClosing(w: World, steps: seq<Step>, t: Id, at: nat, from: nat)
    requires Closing(w, t, at, from)
    ensures Closing(Run(w, steps), t, at, from)
    decreases |steps|
  {
    if steps != [] {
      StepKeepsClosing(w, steps[0], t, at, from);
      RunKeepsClosing(Do(w, steps[0]), steps[1..], t, at, from);
    }
  }

  /** A token exchanged at time `at` is accepted for a later lookup only until the grace period after that first
      exchange ends. */
  lemma {:induction false} ExchangedTokenExpires(before: seq<Step>, after: seq<Step>, t: Id, at: nat, i: nat)
    requires t in Run(START, before).db.tokens && Run(START, before).db.tokens[t].rotatedAt == Some(at)
    requires i < |Run(Run(START, before), after).accepted|
    requires Run(Run(START, before), after).accepted[i].t == t
    requires Run(START, before).count <= Run(Run(START, before), after).accepted[i].looked
    ensures Run(Run(START, before), after).accepted[i].at < at + ROTATION_GRACE
  {
    var w := Run(START, before);
    RunKeepsCounted(START, before);
    assert Closing(w, t, at, w.count);
    RunKeepsClosing(w, after, t, at, w.count);
  }

  // ----- Housekeeping -----

  /** Whether a refresh with this token, looked up and checked at `now`, is let through. */
  predicate Accepts(db: Tables, t: Id, now: nat)
  {
    Find(db, t).Some? && Passes(Find(db, t).value, now)
  }

  /** What `purge_dead_sessions` deletes could never be used again: no token's fate changes, now or later. */
  lemma {:induction false} PurgeIsInvisible(db: Tables, owner: Id, now: nat, t: Id, later: nat)
    requires now <= later
    ensures Accepts(Purged(db, owner, now), t, later) == Accepts(db, t, later)
  {
    var p := PurgedTokens(db, owner, now);
    if t in p.tokens && p.tokens[t].session in p.sessions {
      assert HasToken(p, p.tokens[t].session);
    }
  }
}
