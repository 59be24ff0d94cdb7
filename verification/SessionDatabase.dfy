/** `AuthRepository`, `DeviceRepository` and `StaffRepository` over mutable tables, and a refresh that runs
    undisturbed. */
module SessionDatabase {
  import opened Prelude
  import opened Sessions

  class Database {
    var tokens: map<Id, Token>
    var sessions: map<Id, Session>
    var staff: map<Id, Member>
    var invites: map<Id, Invite>

    ghost function Rows(): Tables
      reads this
    {
      Tables(tokens, sessions, staff, invites)
    }

    constructor ()
      ensures Rows() == EMPTY
    {
      tokens, sessions, staff, invites := map[], map[], map[], map[];
    }

    method FindRefreshToken(t: Id) returns (found: Option<Found>)
      ensures found == Find(Rows(), t)
    {
      if t !in tokens || tokens[t].session !in sessions { return None; }
      var s := sessions[tokens[t].session];
      var staffLive := s.staff.None? || s.staff.value !in staff || staff[s.staff.value].removedAt.None?;
      found := Some(Found(tokens[t], s.revokedAt.None?, staffLive));
    }

    method MarkRotated(t: Id, now: nat)
      modifies this`tokens
      ensures Rows() == Rotated(old(Rows()), t, now)
      ensures t in old(tokens) && old(tokens)[t].rotatedAt.Some? ==> tokens == old(tokens)
      ensures t in old(tokens) && old(tokens)[t].rotatedAt.None? ==>
        tokens == old(tokens)[t := old(tokens)[t].(rotatedAt := Some(now))]
      ensures t in tokens ==> tokens[t].rotatedAt.Some?
    {
      if t in tokens && tokens[t].rotatedAt.None? {
        tokens := tokens[t := tokens[t].(rotatedAt := Some(now))];
      }
    }

    method TouchSession(s: Id, now: nat)
      modifies this`sessions
      ensures Rows() == Touched(old(Rows()), s, now)
      ensures sessions == if s in old(sessions) then old(sessions)[s := old(sessions)[s].(lastSeen := now)]
                          else old(sessions)
    {
      if s in sessions {
        sessions := sessions[s := sessions[s].(lastSeen := now)];
      }
    }

    method StoreRefreshToken(s: Id, t: Id, expires: nat) returns (stored: bool)
      modifies this`tokens
      ensures stored == old(s in sessions && t !in tokens)
      ensures Rows() == Stored(old(Rows()), s, t, expires)
      ensures tokens == if stored then old(tokens)[t := Token(sessions[s].owner, s, expires, None, None)]
                        else old(tokens)
      ensures stored ==> forall now: nat :: Accepts(Rows(), t, now) <==> now < expires && !Dead(Rows(), s)
    {
      stored := s in sessions && t !in tokens;
      if stored {
        tokens := tokens[t := Token(sessions[s].owner, s, expires, None, None)];
      }
    }

    method EndSessions(ended: set<Id>, now: nat)
      modifies this`sessions, this`tokens
      ensures Rows() == WithoutSessions(old(Rows()), ended, now)
      ensures forall s :: s in ended ==> Dead(Rows(), s)
    {
      sessions := map s | s in sessions ::
        if s in ended && sessions[s].revokedAt.None? then sessions[s].(revokedAt := Some(now)) else sessions[s];
      tokens := map t | t in tokens :: if tokens[t].session in ended then Ended(tokens[t], now) else tokens[t];
    }

    /** Signing out with any of a session's tokens ends the session and all of them. */
    method EndSessionForToken(t: Id, now: nat)
      modifies this`sessions, this`tokens
      ensures Rows() == SignedOut(old(Rows()), t, now)
    {
      if t in tokens && tokens[t].session in sessions && sessions[tokens[t].session].revokedAt.None? {
        EndSessions({tokens[t].session}, now);
      }
    }

    method RevokeDevice(owner: Id, s: Id, now: nat) returns (revoked: bool)
      modifies this`sessions, this`tokens
      ensures revoked == old(MayRevoke(Rows(), owner, s))
      ensures Rows() == Revoked(old(Rows()), owner, s, now)
    {
      revoked := s in sessions && sessions[s].owner == owner && sessions[s].revokedAt.None?;
      if revoked {
        EndSessions({s}, now);
      }
    }

    /** A removed cashier must not keep a working phone, nor a code that was never used. */
    method RemoveStaff(store: Id, member: Id, now: nat) returns (removed: bool)
      modifies this
      ensures removed == old(MayRemove(Rows(), store, member))
      ensures Rows() == Removed(old(Rows()), store, member, now)
    {
      removed := member in staff && staff[member].store == store && staff[member].removedAt.None?;
      if removed {
        var theirs := set s | s in sessions && sessions[s].staff == Some(member);
        assert theirs == SessionsOf(Rows(), member);
        staff := staff[member := staff[member].(removedAt := Some(now))];
        EndSessions(theirs, now);
        var unused := set c | c in invites && invites[c].staff == member && invites[c].redeemedAt.None?;
        assert unused == Unredeemed(invites, member);
        invites := invites - unused;
      }
    }

    method RedeemCode(code: Id, now: nat) returns (member: Option<Id>)
      modifies this`invites
      ensures member == old(if MayRedeem(Rows(), code, now) then Some(invites[code].staff) else None)
      ensures Rows() == Redeemed(old(Rows()), code, now)
      ensures member.Some? ==> forall later: nat :: !MayRedeem(Rows(), code, later)
    {
      if code !in invites { return None; }
      var i := invites[code];
      if i.redeemedAt.Some? || i.expires <= now || i.staff !in staff || staff[i.staff].removedAt.Some? { return None; }
      invites := invites[code := i.(redeemedAt := Some(now))];
      member := Some(i.staff);
    }

    /** Cancels any code of this member's that was never used; a digest that is taken rolls back. */
    method ReplaceInvite(member: Id, code: Id, expires: nat) returns (replaced: bool)
      modifies this`invites
      ensures Rows() == Invited(old(Rows()), member, code, expires)
      ensures if replaced then Unredeemed(invites, member) == {code} else invites == old(invites)
      ensures replaced ==> code in invites && invites[code] == Invite(member, expires, None)
      ensures replaced ==> forall c :: c != code ==>
        (c in invites <==>
          c in old(invites) && !(old(invites)[c].staff == member && old(invites)[c].redeemedAt == None))
      ensures replaced ==> forall c :: c != code && c in invites ==> invites[c] == old(invites)[c]
    {
      var unused := set c | c in invites && invites[c].staff == member && invites[c].redeemedAt.None?;
      assert unused == Unredeemed(invites, member);
      var left := invites - unused;
      replaced := code !in left && member in staff;
      if replaced {
        invites := left[code := Invite(member, expires, None)];
      }
    }

    method PurgeDeadSessions(owner: Id, now: nat)
      modifies this`tokens, this`sessions
      ensures Rows() == Purged(old(Rows()), owner, now)
    {
      tokens := map t | t in tokens && !(tokens[t].owner == owner && DeadToken(tokens[t], now)) :: tokens[t];
      var used := set t | t in tokens :: tokens[t].session;
      ghost var before := Rows();
      assert forall s :: s in used <==> HasToken(before, s);
      sessions := map s | s in sessions
          && !(sessions[s].owner == owner && sessions[s].created + DAY < now && s !in used) :: sessions[s];
    }

    /** `refresh` when nothing happens between its steps: the pair it hands out works, the old token only until its
        grace ends. */
    method Refresh(t: Id, now: nat, minted: Id, lifetime: nat) returns (session: Option<Id>)
      requires minted !in tokens
      modifies this`tokens, this`sessions
      ensures session == old(if Accepts(Rows(), t, now) then Some(tokens[t].session) else None)
      ensures session.None? ==> Rows() == old(Rows())
      ensures session.Some? ==> Rows() == Refreshed(old(Rows()), t, now, minted, lifetime)
    {
      var found := FindRefreshToken(t);
      if found.None? { return None; }
      var rotatedLongAgo :=
          found.value.token.rotatedAt.Some? && found.value.token.rotatedAt.value + ROTATION_GRACE <= now;
      if found.value.token.revokedAt.Some? || found.value.token.expires <= now || rotatedLongAgo
         || !found.value.sessionLive || !found.value.staffLive {
        return None;
      }
      MarkRotated(t, now);
      TouchSession(found.value.token.session, now);
      var stored := StoreRefreshToken(found.value.token.session, minted, now + lifetime);
      session := Some(found.value.token.session);
    }
  }

  function Refreshed(db: Tables, t: Id, now: nat, minted: Id, lifetime: nat): Tables
    requires t in db.tokens
  {
    Stored(Touched(Rotated(db, t, now), db.tokens[t].session, now), db.tokens[t].session, minted, now + lifetime)
  }

  /** The new token works for its lifetime, the old one until the grace period after its first exchange is over. */
  lemma {:induction false} RefreshHandsOver(db: Tables, t: Id, now: nat, minted: Id, lifetime: nat, later: nat)
    requires Accepts(db, t, now) && minted !in db.tokens && now <= later
    ensures var after := Refreshed(db, t, now, minted, lifetime);
      var first := if db.tokens[t].rotatedAt.Some? then db.tokens[t].rotatedAt.value else now;
      && (Accepts(after, minted, later) <==> later < now + lifetime)
      && (Accepts(after, t, later) <==> later < db.tokens[t].expires && later < first + ROTATION_GRACE)
      && (forall other :: other != t && other != minted ==> Accepts(after, other, later) == Accepts(db, other, later))
  {
  }

  /** The session was seen just now, and the old token's first exchange is noted. */
  lemma {:induction false} RefreshNotes(db: Tables, t: Id, now: nat, minted: Id, lifetime: nat)
    requires Accepts(db, t, now) && minted !in db.tokens
    ensures var after, s := Refreshed(db, t, now, minted, lifetime), db.tokens[t].session;
      && after.sessions == db.sessions[s := db.sessions[s].(lastSeen := now)]
      && t in after.tokens
      && after.tokens[t].rotatedAt == Some(if db.tokens[t].rotatedAt.Some? then db.tokens[t].rotatedAt.value else now)
  {
  }
}
