/** What ending, removing, purging and refreshing do to each row, and to no other. */
module SessionEffects {
  import opened Prelude
  import opened Sessions

  /** Times are kept from the first end on. */
  predicate EndedAt(before: Option<nat>, after: Option<nat>, now: nat)
  {
    after == if before.Some? then before else Some(now)
  }

  /** Exactly these sessions end, with their tokens. */
  ghost predicate Ends(db: Tables, after: Tables, ended: set<Id>, now: nat)
  {
    && after.sessions.Keys == db.sessions.Keys && after.tokens.Keys == db.tokens.Keys
    && (forall s :: s in db.sessions && s !in ended ==> after.sessions[s] == db.sessions[s])
    && (forall s :: s in db.sessions && s in ended ==>
          && after.sessions[s] == db.sessions[s].(revokedAt := after.sessions[s].revokedAt)
          && EndedAt(db.sessions[s].revokedAt, after.sessions[s].revokedAt, now))
    && (forall t :: t in db.tokens && db.tokens[t].session !in ended ==> after.tokens[t] == db.tokens[t])
    && (forall t :: t in db.tokens && db.tokens[t].session in ended ==>
          && after.tokens[t] == db.tokens[t].(revokedAt := after.tokens[t].revokedAt)
          && EndedAt(db.tokens[t].revokedAt, after.tokens[t].revokedAt, now))
  }

  predicate SameStaff(db: Tables, after: Tables) { after.staff == db.staff && after.invites == db.invites }

  /** Revoking ends one live session of the owner's own. */
  lemma {:induction false} RevokingEndsOne(db: Tables, owner: Id, s: Id, now: nat)
    ensures var theirs := s in db.sessions && db.sessions[s].owner == owner && db.sessions[s].revokedAt == None;
      Ends(db, Revoked(db, owner, s, now), if theirs then {s} else {}, now) && SameStaff(db, Revoked(db, owner, s, now))
  {
  }

  /** Signing out ends the session the token is of. */
  lemma {:induction false} SigningOutEndsOne(db: Tables, t: Id, now: nat)
    ensures var live := t in db.tokens && db.tokens[t].session in db.sessions
        && db.sessions[db.tokens[t].session].revokedAt == None;
      Ends(db, SignedOut(db, t, now), if live then {db.tokens[t].session} else {}, now)
      && SameStaff(db, SignedOut(db, t, now))
  {
  }

  /** Removing a member ends the sessions that are theirs and takes back the codes they have not used. */
  lemma {:induction false} RemovingEndsTheirs(db: Tables, store: Id, member: Id, now: nat)
    ensures var after := Removed(db, store, member, now);
      if member in db.staff && db.staff[member].store == store && db.staff[member].removedAt == None then
        && Ends(db, after, (set s | s in db.sessions && db.sessions[s].staff == Some(member)), now)
        && after.staff == db.staff[member := Member(store, Some(now))]
        && (forall c :: c in after.invites <==>
              c in db.invites && !(db.invites[c].staff == member && db.invites[c].redeemedAt == None))
        && (forall c :: c in after.invites ==> after.invites[c] == db.invites[c])
      else after == db
  {
  }

  /** A sign-in makes a session from now on, and its token is of the session's owner. */
  lemma {:induction false} SigningInMakesOne(
      db: Tables, s: Id, t: Id, owner: Id, who: Option<Id>, now: nat, expires: nat)
    requires s !in db.sessions && t !in db.tokens
    ensures var after := Stored(Opened(db, s, owner, who, now), s, t, expires);
      && SameStaff(db, after) && after.sessions == db.sessions[s := Session(owner, who, now, now, None)]
      && after.tokens == db.tokens[t := Token(owner, s, expires, None, None)]
  {
  }

  /** A token is spent a week after it was revoked or exchanged, or once it has expired. */
  predicate IsSpent(t: Token, now: nat)
  {
    || t.expires < now
    || (match t.revokedAt case Some(at) => at + 7 * 86_400 < now case None => false)
    || (match t.rotatedAt case Some(at) => at + 7 * 86_400 < now case None => false)
  }

  /** Housekeeping takes the owner's spent tokens, and their sessions a day old that have none left. */
  lemma {:induction false} PurgingTakesSpent(db: Tables, owner: Id, now: nat)
    ensures var after := Purged(db, owner, now);
      && SameStaff(db, after)
      && (forall t :: t in after.tokens <==>
            t in db.tokens && !(db.tokens[t].owner == owner && IsSpent(db.tokens[t], now)))
      && (forall t :: t in after.tokens ==> after.tokens[t] == db.tokens[t])
      && (forall s :: s in after.sessions <==>
            s in db.sessions && (
            || db.sessions[s].owner != owner || now <= db.sessions[s].created + 86_400
            || exists t :: t in after.tokens && after.tokens[t].session == s))
      && (forall s :: s in after.sessions ==> after.sessions[s] == db.sessions[s])
  {
    var p := PurgedTokens(db, owner, now);
    forall t | t in db.tokens ensures DeadToken(db.tokens[t], now) <==> IsSpent(db.tokens[t], now) { }
    forall s | s in db.sessions ensures HasToken(p, s) <==> exists t :: t in p.tokens && p.tokens[t].session == s { }
  }

  /** Whom a refresh is for: a token that is stored, unspent and of a session and member still there. */
  lemma {:induction false} AcceptedIff(db: Tables, t: Id, now: nat)
    ensures Accepts(db, t, now) <==>
        t in db.tokens && db.tokens[t].session in db.sessions && db.tokens[t].revokedAt == None &&
        now < db.tokens[t].expires &&
        (db.tokens[t].rotatedAt.Some? ==> now < db.tokens[t].rotatedAt.value + 86_400) &&
        db.sessions[db.tokens[t].session].revokedAt == None &&
        (match db.sessions[db.tokens[t].session].staff
         case None => true
         case Some(member) => member in db.staff ==> db.staff[member].removedAt == None)
  {
  }

  /** A code lets in a member who is still there, once, until it expires. */
  lemma {:induction false} RedeemedIff(db: Tables, code: Id, now: nat)
    ensures MayRedeem(db, code, now) <==>
        code in db.invites && db.invites[code].redeemedAt == None && now < db.invites[code].expires &&
        db.invites[code].staff in db.staff && db.staff[db.invites[code].staff].removedAt == None
    ensures Redeemed(db, code, now) ==
      if MayRedeem(db, code, now)
      then db.(invites := db.invites[code := Invite(db.invites[code].staff, db.invites[code].expires, Some(now))])
      else db
  {
  }
}
