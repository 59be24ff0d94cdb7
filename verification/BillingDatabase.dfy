/** `BillingRepository`, `ConsentRepository` and the retention sweep over mutable tables. */
module BillingDatabase {
  import opened Prelude
  import opened Plans
  import opened Billing

  /** How long each kind of record is kept. */
  datatype RetentionPolicy = RetentionPolicy(errorReports: nat, activity: nat, dormantSessions: nat)

  datatype SweepResult = SweepResult(accounts: nat, errorReports: nat, activity: nat, sessions: nat)

  datatype DeviceRow = DeviceRow(revoked: bool, lastSeen: nat)

  /** The tables the sweep prunes besides the accounts: when each row was last seen or recorded. */
  datatype Logs = Logs(errorReports: map<Id, nat>, activity: map<Id, nat>, sessions: map<Id, DeviceRow>)

  function Recent(rows: map<Id, nat>, keep: nat, now: nat): map<Id, nat>
  {
    map id | id in rows && now <= rows[id] + keep :: rows[id]
  }

  function Awake(rows: map<Id, DeviceRow>, keep: nat, now: nat): map<Id, DeviceRow>
  {
    map id | id in rows && !(rows[id].revoked && rows[id].lastSeen + keep < now) :: rows[id]
  }

  function AfterPrune(logs: Logs, policy: RetentionPolicy, now: nat): Logs
  {
    Logs(Recent(logs.errorReports, policy.errorReports, now),
         Recent(logs.activity, policy.activity, now),
         Awake(logs.sessions, policy.dormantSessions, now))
  }

  /** Pruning twice at one moment is pruning once, and what is kept is kept by every earlier moment too. */
  lemma {:induction false} PruneTwice(logs: Logs, policy: RetentionPolicy, earlier: nat, now: nat)
    requires earlier <= now
    ensures AfterPrune(AfterPrune(logs, policy, earlier), policy, now) == AfterPrune(logs, policy, now)
  {
  }

  /** A report or an event is kept for its own time, and a session that was signed out while it may be missed. */
  lemma {:induction false} PrunedByDate(logs: Logs, policy: RetentionPolicy, now: nat, id: Id)
    ensures var kept := AfterPrune(logs, policy, now);
      && (id in kept.errorReports <==> id in logs.errorReports && now <= logs.errorReports[id] + policy.errorReports)
      && (id in kept.activity <==> id in logs.activity && now <= logs.activity[id] + policy.activity)
      && (id in kept.sessions <==>
            id in logs.sessions &&
            (logs.sessions[id].revoked ==> now <= logs.sessions[id].lastSeen + policy.dormantSessions))
      && (id in kept.errorReports ==> kept.errorReports[id] == logs.errorReports[id])
      && (id in kept.activity ==> kept.activity[id] == logs.activity[id])
      && (id in kept.sessions ==> kept.sessions[id] == logs.sessions[id])
  {
  }

  /** The account asked to be deleted, and its grace period is over. */
  predicate HasExpired(s: Rows, owner: Id, now: nat)
  {
    owner in s.owners && match s.owners[owner].deleteAfter case Some(date) => date <= now case None => false
  }

  /** An account that has expired goes with its payments and subscription, and no other row does. */
  lemma {:induction false} PurgedByDate(s: Rows, now: nat, id: Id)
    ensures var after := AfterPurge(s, now);
      && (id in after.owners <==> id in s.owners && !HasExpired(s, id, now))
      && (id in after.payments <==> id in s.payments && !HasExpired(s, s.payments[id].owner, now))
      && (id in after.subscriptions <==> id in s.subscriptions && !HasExpired(s, id, now))
      && (id in after.owners ==> after.owners[id] == s.owners[id])
      && (id in after.payments ==> after.payments[id] == s.payments[id])
      && (id in after.subscriptions ==> after.subscriptions[id] == s.subscriptions[id])
  {
    var c := AfterCopy(s, now);
    assert Due(c, id, now) <==> HasExpired(s, id, now);
    if id in s.payments { assert Due(c, s.payments[id].owner, now) <==> HasExpired(s, s.payments[id].owner, now); }
  }

  /** Its paid payments are on record, as they were paid, and no record that was there changes. */
  lemma {:induction false} RecordedByPurge(s: Rows, now: nat, id: Id)
    ensures var kept := AfterPurge(s, now).accounting;
      && (id in s.accounting ==> id in kept && kept[id] == s.accounting[id])
      && (id in kept && id !in s.accounting <==>
            id !in s.accounting && id in s.payments && s.payments[id].paidAt.Some?
            && HasExpired(s, s.payments[id].owner, now))
      && (id in kept && id !in s.accounting ==> KeepsMoneyOf(kept[id], s.payments[id]))
  {
  }

  /** The record says what was paid for, how much, under which reference and when. */
  predicate KeepsMoneyOf(r: Record, p: PaymentRow)
  {
    && r.plan == p.plan && r.months == p.months && r.amount == p.amount
    && r.reference == p.reference && r.paidAt == p.paidAt
  }

  /** What is received for a plan: a year costs ten months. */
  predicate IsPriceOf(amount: nat, plan: Plan, months: nat)
  {
    amount == (if plan.Basic? then 9_900 else 19_900) * (if months == 12 then 10 else months)
  }

  function DueOwners(s: Rows, now: nat): set<Id>
  {
    set o | o in s.owners && Due(s, o, now)
  }

  class Database {
    var owners: map<Id, Account>
    var payments: map<Id, PaymentRow>
    var subscriptions: map<Id, Subscription>
    var accounting: map<Id, Record>
    var errorReports: map<Id, nat>
    var activity: map<Id, nat>
    var sessions: map<Id, DeviceRow>

    ghost function Tables(): Rows
      reads this
    {
      Rows(owners, payments, subscriptions, accounting)
    }

    ghost function Pruned(): Logs
      reads this
    {
      Logs(errorReports, activity, sessions)
    }

    constructor ()
      ensures Tables() == Billing.EMPTY && Pruned() == Logs(map[], map[], map[])
    {
      owners, payments, subscriptions, accounting := map[], map[], map[], map[];
      errorReports, activity, sessions := map[], map[], map[];
    }

    /** The insert of `open_payment`; a refused insert leaves the table alone. */
    method OpenPayment(id: Id, owner: Id, plan: Plan, months: nat) returns (accepted: bool)
      modifies this`payments
      ensures accepted == old(MayOpen(Tables(), id, owner, months))
      ensures Tables() == AfterOpen(old(Tables()), id, owner, plan, months)
      ensures accepted <==> id !in old(payments) && owner in owners && (months == 1 || months == 12)
      ensures accepted ==> id in payments && IsPriceOf(payments[id].amount, plan, months)
      ensures accepted ==> payments == old(payments)[id :=
        PaymentRow(owner, plan, months, payments[id].amount, None, None, None)]
      ensures !accepted ==> payments == old(payments)
    {
      accepted := id !in payments && owner in owners && (months == 1 || months == 12);
      if accepted {
        payments := payments[id := PaymentRow(owner, plan, months, Price(plan, months), None, None, None)];
      }
    }

    method SetReference(id: Id, reference: string) returns (stored: bool)
      modifies this`payments
      ensures stored == old(MayRefer(Tables(), id, reference))
      ensures Tables() == AfterSetReference(old(Tables()), id, reference)
      ensures stored <==>
        id in old(payments) &&
        forall other :: other in old(payments) && other != id ==> old(payments)[other].reference != Some(reference)
      ensures payments == if stored then old(payments)[id := old(payments)[id].(reference := Some(reference))]
                          else old(payments)
    {
      stored := id in payments && forall other | other in payments ::
          payments[other].reference == Some(reference) ==> other == id;
      if stored {
        payments := payments[id := payments[id].(reference := Some(reference))];
      }
    }

    /** `confirm`: the payment behind the reference, if it is pending, and its owner's subscription with it. */
    method ConfirmPayment(reference: string, now: nat) returns (confirmed: Option<Id>)
      requires Sound(Tables())
      modifies this`payments, this`subscriptions
      ensures confirmed.Some? <==> old(Known(Tables(), reference))
      ensures confirmed.Some? ==> old(IsPending(Tables(), confirmed.value, reference))
      ensures Tables() == AfterConfirm(old(Tables()), reference, now)
      ensures confirmed.None? ==> payments == old(payments) && subscriptions == old(subscriptions)
      ensures confirmed.Some? ==>
        var p := old(payments)[confirmed.value];
        && p.owner in subscriptions && subscriptions[p.owner].plan == p.plan && subscriptions[p.owner].paid.Some?
        && payments == old(payments)[confirmed.value :=
             p.(paidAt := Some(now), through := subscriptions[p.owner].paid)]
        && subscriptions == old(subscriptions)[p.owner := subscriptions[p.owner]]
        && subscriptions[p.owner].trial
             == (if p.owner in old(subscriptions) then old(subscriptions)[p.owner].trial else None)
        && LandsOn(Start(CurrentOf(old(Tables()), p.owner), p.plan, now), p.months, subscriptions[p.owner].paid.value)
    {
      ghost var before := Tables();
      if id :|
          id in payments && payments[id].reference == Some(reference) && payments[id].paidAt == None &&
          payments[id].owner in owners {
        ConfirmIs(before, reference, now, id);
        assert IsPending(before, id, reference);
        var p := payments[id];
        var current := if p.owner in subscriptions then Some(subscriptions[p.owner]) else None;
        var months := if p.months < 1 then 1 else p.months;
        var through := ComputePaidThrough(current, p.plan, months, now);
        var trial := if current.Some? then current.value.trial else None;
        payments := payments[id := p.(paidAt := Some(now), through := Some(through))];
        subscriptions := subscriptions[p.owner := Subscription(p.plan, trial, Some(through))];
        return Some(id);
      }
      confirmed := None;
    }

    method RequestDeletion(owner: Id, now: nat, grace: nat) returns (deletesAt: Option<nat>)
      modifies this`owners
      ensures Tables() == AfterRequest(old(Tables()), owner, now, grace)
      ensures owner in old(owners) && old(owners)[owner] == Account(None, None) ==>
        owners == old(owners)[owner := Account(Some(now), Some(now + grace))]
      ensures deletesAt == if owner in owners then owners[owner].deleteAfter else None
      ensures owner in old(owners) && old(owners)[owner].deleteAfter.Some? ==>
          deletesAt == old(owners)[owner].deleteAfter
    {
      if owner !in owners { return None; }
      var o := owners[owner];
      var requestedAt := if o.requestedAt.Some? then o.requestedAt else Some(now);
      deletesAt := if o.deleteAfter.Some? then o.deleteAfter else Some(now + grace);
      owners := owners[owner := Account(requestedAt, deletesAt)];
    }

    method CancelDeletion(owner: Id)
      modifies this`owners
      ensures Tables() == AfterCancel(old(Tables()), owner)
      ensures owners == if owner in old(owners) then old(owners)[owner := Account(None, None)] else old(owners)
      ensures forall now: nat :: !Due(Tables(), owner, now)
    {
      if owner in owners {
        owners := owners[owner := Account(None, None)];
      }
    }

    predicate IsDue(owner: Id, now: nat)
      reads this
    {
      owner in owners && owners[owner].deleteAfter.Some? && owners[owner].deleteAfter.value <= now
    }

    /** The first statement of `purge_accounts`. */
    method CopyPaidPayments(now: nat)
      modifies this`accounting
      ensures Tables() == AfterCopy(old(Tables()), now)
      ensures forall id :: id in old(accounting) ==> id in accounting && accounting[id] == old(accounting)[id]
      ensures forall id :: id in accounting && id !in old(accounting) <==>
        id in payments && id !in old(accounting) && payments[id].paidAt.Some? && IsDue(payments[id].owner, now)
      ensures forall id :: id in accounting && id !in old(accounting) ==> KeepsMoneyOf(accounting[id], payments[id])
    {
      accounting :=
        (map id | id in payments && payments[id].paidAt.Some? && IsDue(payments[id].owner, now) ::
            RecordOf(payments[id])) + accounting;
    }

    /** The second: the owners that are due, and by cascade their payments and subscriptions. */
    method DeleteDueOwners(now: nat) returns (deleted: nat)
      modifies this`owners, this`payments, this`subscriptions
      ensures Tables() == AfterDelete(old(Tables()), now)
      ensures deleted == |old(DueOwners(Tables(), now))|
    {
      ghost var before := Tables();
      var due := set o | o in owners && IsDue(o, now);
      assert due == DueOwners(before, now);
      deleted := |due|;
      payments := map id | id in payments && payments[id].owner !in due :: payments[id];
      assert payments == AfterDelete(before, now).payments;
      subscriptions := map o | o in subscriptions && o !in due :: subscriptions[o];
      assert subscriptions == AfterDelete(before, now).subscriptions;
      owners := map o | o in owners && o !in due :: owners[o];
      assert owners == AfterDelete(before, now).owners;
    }

    /** `purge_accounts`: the paid amounts are copied out before anything is deleted. */
    method PurgeAccounts(now: nat) returns (deleted: nat)
      modifies this`owners, this`payments, this`subscriptions, this`accounting
      ensures Tables() == AfterPurge(old(Tables()), now)
      ensures deleted == |old(DueOwners(Tables(), now))|
    {
      ghost var before := Tables();
      CopyPaidPayments(now);
      assert DueOwners(Tables(), now) == DueOwners(before, now);
      deleted := DeleteDueOwners(now);
    }

    /** `sweep`: deletes what is past its date. */
    method Sweep(policy: RetentionPolicy, now: nat) returns (result: SweepResult)
      modifies this
      ensures Tables() == AfterPurge(old(Tables()), now)
      ensures Pruned() == AfterPrune(old(Pruned()), policy, now)
      ensures result.accounts == |old(DueOwners(Tables(), now))|
      ensures result.errorReports == |old(errorReports)| - |errorReports|
      ensures result.activity == |old(activity)| - |activity|
      ensures result.sessions == |old(sessions)| - |sessions|
    {
      var accounts := PurgeAccounts(now);
      var reports, events, devices := errorReports, activity, sessions;
      errorReports := map id | id in errorReports && now <= errorReports[id] + policy.errorReports :: errorReports[id];
      activity := map id | id in activity && now <= activity[id] + policy.activity :: activity[id];
      sessions := map id | id in sessions
          && !(sessions[id].revoked && sessions[id].lastSeen + policy.dormantSessions < now) :: sessions[id];
      FewerKeys(reports.Keys, errorReports.Keys);
      FewerKeys(events.Keys, activity.Keys);
      FewerKeys(devices.Keys, sessions.Keys);
      assert |reports.Keys| == |reports| && |errorReports.Keys| == |errorReports|;
      assert |events.Keys| == |events| && |activity.Keys| == |activity|;
      assert |devices.Keys| == |devices| && |sessions.Keys| == |sessions|;
      result := SweepResult(accounts, |reports| - |errorReports|, |events| - |activity|, |devices| - |sessions|);
    }
  }

  lemma {:induction false} FewerKeys(a: set<Id>, b: set<Id>)
    requires b <= a
    ensures |b| <= |a|
  {
    assert a == b + (a - b);
  }
}
