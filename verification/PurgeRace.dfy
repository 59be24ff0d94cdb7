/** A purge is two statements, and other calls run between them: exactly when money is lost. */
module PurgeRace {
  import opened Prelude
  import opened Plans
  import opened Billing

  /** The rows after the first `n` of the events that come between the copy and the delete. */
  ghost function Between(m: Rows, es: seq<Timed>, n: nat, grace: nat): Rows
    requires n <= |es|
  {
    if n == 0 then m else After(Between(m, es, n - 1, grace), es[n - 1], grace)
  }

  ghost predicate PaysAt(m: Rows, es: seq<Timed>, i: nat, grace: nat, id: Id)
    requires i < |es|
  {
    Pays(Between(m, es, i, grace), es[i], id)
  }

  /** Some event between the two statements pays this payment. */
  ghost predicate PaidBetween(m: Rows, es: seq<Timed>, n: nat, grace: nat, id: Id)
    requires n <= |es|
  {
    exists i {:trigger PaysAt(m, es, i, grace, id)} :: 0 <= i < n && PaysAt(m, es, i, grace, id)
  }

  ghost predicate FreshBetween(m: Rows, es: seq<Timed>, grace: nat)
  {
    forall i {:trigger Between(m, es, i, grace)} :: 0 <= i < |es| ==> MintsFresh(Between(m, es, i, grace), es[i])
  }

  predicate WasPaid(s: Rows, id: Id) { id in s.payments && s.payments[id].paidAt.Some? }

  predicate OwnerDue(s: Rows, id: Id, now: nat) { id in s.payments && Due(s, s.payments[id].owner, now) }

  /** How one payment stands among the rows: copied, paid, gone, and of whom. */
  predicate Stands(s: Rows, m: Rows, now: nat, id: Id, paid: bool)
  {
    && !(WasPaid(s, id) && paid)
    && (id in m.payments ==>
          && (id in m.accounting <==> WasPaid(s, id) && OwnerDue(s, id, now))
          && (m.payments[id].paidAt.Some? <==> WasPaid(s, id) || paid)
          && (WasPaid(s, id) ==> m.payments[id].owner == s.payments[id].owner)
          && (id in m.accounting ==> m.accounting[id].amount == m.payments[id].amount))
    && (id !in m.payments && (WasPaid(s, id) || paid) ==> id in m.accounting)
  }

  lemma {:induction false} CopyStands(s: Rows, now: nat, id: Id)
    requires RecordsApart(s)
    ensures Stands(s, AfterCopy(s, now), now, id, false)
  {
  }

  lemma {:induction false} CopyIsSound(s: Rows, now: nat)
    requires Sound(s)
    ensures Sound(AfterCopy(s, now))
  {
  }

  lemma {:induction false} ConfirmStands(s: Rows, m: Rows, now: nat, reference: string, at: nat, id: Id, paid: bool)
    requires Sound(m) && Stands(s, m, now, id, paid)
    ensures Stands(s, AfterConfirm(m, reference, at), now, id, paid || IsPending(m, id, reference))
  {
    if Known(m, reference) {
      var other :| other in m.payments && IsPending(m, other, reference);
      ConfirmIs(m, reference, at, other);
    }
  }

  lemma {:induction false} PurgeStands(s: Rows, m: Rows, now: nat, at: nat, id: Id, paid: bool)
    requires Stands(s, m, now, id, paid)
    ensures Stands(s, AfterPurge(m, at), now, id, paid)
  {
    var c := AfterCopy(m, at);
    if id in m.payments { assert Due(c, m.payments[id].owner, at) == Due(m, m.payments[id].owner, at); }
  }

  lemma {:induction false} StepStands(s: Rows, m: Rows, now: nat, t: Timed, grace: nat, id: Id, paid: bool)
    requires Sound(m) && MintsFresh(m, t) && Stands(s, m, now, id, paid)
    ensures Stands(s, After(m, t, grace), now, id, paid || Pays(m, t, id))
  {
    match t.event {
      case Confirm(reference) => ConfirmStands(s, m, now, reference, t.at, id, paid);
      case Purge => PurgeStands(s, m, now, t.at, id, paid);
      case _ =>
    }
  }

  lemma {:induction false} PaidBetweenNext(m: Rows, es: seq<Timed>, n: nat, grace: nat, id: Id)
    requires n < |es|
    ensures PaidBetween(m, es, n + 1, grace, id) <==> PaidBetween(m, es, n, grace, id) || PaysAt(m, es, n, grace, id)
  {
  }

  lemma {:induction false} RunStands(s: Rows, now: nat, es: seq<Timed>, n: nat, grace: nat, id: Id)
    requires Sound(s) && RecordsApart(s) && n <= |es| && FreshBetween(AfterCopy(s, now), es, grace)
    ensures Sound(Between(AfterCopy(s, now), es, n, grace))
    ensures Stands(s, Between(AfterCopy(s, now), es, n, grace), now, id,
        PaidBetween(AfterCopy(s, now), es, n, grace, id))
  {
    var c := AfterCopy(s, now);
    if n == 0 {
      CopyIsSound(s, now);
      CopyStands(s, now, id);
    } else {
      RunStands(s, now, es, n - 1, grace, id);
      var m := Between(c, es, n - 1, grace);
      StepKeepsSound(m, es[n - 1], grace);
      StepStands(s, m, now, es[n - 1], grace, id, PaidBetween(c, es, n - 1, grace, id));
      PaidBetweenNext(c, es, n - 1, grace, id);
    }
  }

  // ----- Exactly what the delete loses -----

  /** Paid after the copy, or paid before it by an account that only became due after it. */
  ghost predicate Missed(s: Rows, now: nat, es: seq<Timed>, grace: nat, id: Id)
  {
    var m := Between(AfterCopy(s, now), es, |es|, grace);
    OwnerDue(m, id, now)
        && (PaidBetween(AfterCopy(s, now), es, |es|, grace, id) || (WasPaid(s, id) && !OwnerDue(s, id, now)))
  }

  /** The delete takes the record of one payment, whatever ran since the copy, exactly when the copy missed it. */
  lemma {:induction false} DeleteLosesIffMissed(s: Rows, now: nat, es: seq<Timed>, grace: nat, id: Id)
    requires Sound(s) && RecordsApart(s) && FreshBetween(AfterCopy(s, now), es, grace)
    ensures var m := Between(AfterCopy(s, now), es, |es|, grace);
      Received(AfterDelete(m, now), id) != Received(m, id) <==> Missed(s, now, es, grace, id)
  {
    RunStands(s, now, es, |es|, grace, id);
  }

  /** No request made between the statements is due already: it comes later, and there is a grace period. */
  predicate RequestsAhead(es: seq<Timed>, now: nat, grace: nat)
  {
    forall i :: 0 <= i < |es| && es[i].event.Request? ==> now < es[i].at + grace
  }

  lemma {:induction false} StepMakesNobodyDue(m: Rows, t: Timed, grace: nat, now: nat, owner: Id)
    requires t.event.Request? ==> now < t.at + grace
    requires Due(After(m, t, grace), owner, now)
    ensures Due(m, owner, now)
  {
    if t.event.Purge? { assert Due(AfterCopy(m, t.at), owner, t.at) == Due(m, owner, t.at); }
  }

  lemma {:induction false} NobodyBecomesDue(s: Rows, now: nat, es: seq<Timed>, n: nat, grace: nat, owner: Id)
    requires n <= |es| && RequestsAhead(es, now, grace)
    requires Due(Between(AfterCopy(s, now), es, n, grace), owner, now)
    ensures Due(s, owner, now)
  {
    if n > 0 {
      StepMakesNobodyDue(Between(AfterCopy(s, now), es, n - 1, grace), es[n - 1], grace, now, owner);
      NobodyBecomesDue(s, now, es, n - 1, grace, owner);
    }
  }

  /** Every payment that had been received when the delete ran is still recorded after it. */
  ghost predicate KeepsMoney(m: Rows, now: nat)
  {
    forall id: Id {:trigger Received(m, id)} :: Received(AfterDelete(m, now), id) == Received(m, id)
  }

  /**
   A purge keeps all the money, whatever runs between its two statements, if and only if nothing that runs
   there pays a payment whose account is still due when the delete comes.
   */
  lemma {:induction false} PurgeKeepsMoneyIff(s: Rows, now: nat, es: seq<Timed>, grace: nat)
    requires Sound(s) && RecordsApart(s) && FreshBetween(AfterCopy(s, now), es, grace) && RequestsAhead(es, now, grace)
    ensures var m := Between(AfterCopy(s, now), es, |es|, grace);
      KeepsMoney(m, now) <==> forall id: Id ::
          PaidBetween(AfterCopy(s, now), es, |es|, grace, id) ==> !OwnerDue(m, id, now)
  {
    var m := Between(AfterCopy(s, now), es, |es|, grace);
    forall id: Id
      ensures Received(AfterDelete(m, now), id) != Received(m, id)
         <==> PaidBetween(AfterCopy(s, now), es, |es|, grace, id) && OwnerDue(m, id, now)
    {
      DeleteLosesIffMissed(s, now, es, grace, id);
      RunStands(s, now, es, |es|, grace, id);
      if OwnerDue(m, id, now) && WasPaid(s, id) {
        NobodyBecomesDue(s, now, es, |es|, grace, m.payments[id].owner);
      }
    }
  }

  // ----- Exactly what is left in both tables -----

  /** A copied payment whose account the delete spares stays where it was as well. */
  lemma {:induction false} TwiceIffSpared(s: Rows, now: nat, es: seq<Timed>, grace: nat, id: Id)
    requires Sound(s) && RecordsApart(s) && FreshBetween(AfterCopy(s, now), es, grace)
    ensures var m := Between(AfterCopy(s, now), es, |es|, grace);
      id in AfterDelete(m, now).payments && id in AfterDelete(m, now).accounting <==>
          WasPaid(s, id) && OwnerDue(s, id, now) && id in m.payments && !OwnerDue(m, id, now)
  {
    RunStands(s, now, es, |es|, grace, id);
  }

  predicate Cancels(t: Timed, owner: Id) { t.event == Cancel(owner) }

  predicate CancelledIn(es: seq<Timed>, n: nat, owner: Id)
    requires n <= |es|
  {
    exists i :: 0 <= i < n && Cancels(es[i], owner)
  }

  /** While a payment stays, its account stays due until its deletion is cancelled. */
  lemma {:induction false} StepIsDue(m: Rows, t: Timed, grace: nat, now: nat, id: Id)
    requires Sound(m) && MintsFresh(m, t) && (t.event.Request? ==> now < t.at + grace)
    requires id in m.payments && m.payments[id].owner in m.owners && id in After(m, t, grace).payments
    ensures var v := After(m, t, grace);
      && v.payments[id].owner == m.payments[id].owner && v.payments[id].owner in v.owners
      && (OwnerDue(v, id, now) <==> OwnerDue(m, id, now) && !Cancels(t, m.payments[id].owner))
  {
    match t.event {
      case Confirm(reference) =>
        if Known(m, reference) {
          var other :| other in m.payments && IsPending(m, other, reference);
          ConfirmIs(m, reference, t.at, other);
        }
      case Purge =>
        assert Due(AfterCopy(m, t.at), m.payments[id].owner, t.at) == Due(m, m.payments[id].owner, t.at);
      case _ =>
    }
  }

  /** A payment that was copied does not come back once it is gone: its id is in the records. */
  lemma {:induction false} WasThere(s: Rows, m: Rows, now: nat, t: Timed, grace: nat, id: Id, paid: bool)
    requires Sound(m) && MintsFresh(m, t) && Stands(s, m, now, id, paid) && WasPaid(s, id)
    requires id in After(m, t, grace).payments
    ensures id in m.payments
  {
    match t.event {
      case Confirm(reference) =>
        if Known(m, reference) {
          var other :| other in m.payments && IsPending(m, other, reference);
          ConfirmIs(m, reference, t.at, other);
        }
      case _ =>
    }
  }

  lemma {:induction false} CancelledNext(es: seq<Timed>, n: nat, owner: Id)
    requires 0 < n <= |es|
    ensures CancelledIn(es, n, owner) <==> CancelledIn(es, n - 1, owner) || Cancels(es[n - 1], owner)
  {
  }

  /** While its payment is there, the account is due until its deletion is cancelled. */
  predicate DueUnless(s: Rows, m: Rows, now: nat, id: Id, cancelled: bool)
    requires id in s.payments
  {
    id in m.payments ==>
      && m.payments[id].owner == s.payments[id].owner && s.payments[id].owner in m.owners
      && (OwnerDue(m, id, now) <==> !cancelled)
  }

  lemma {:induction false} StepDueUnless(
      s: Rows, m: Rows, now: nat, t: Timed, grace: nat, id: Id, paid: bool, cancelled: bool)
    requires Sound(m) && MintsFresh(m, t) && (t.event.Request? ==> now < t.at + grace)
    requires WasPaid(s, id) && Stands(s, m, now, id, paid) && DueUnless(s, m, now, id, cancelled)
    ensures DueUnless(s, After(m, t, grace), now, id, cancelled || Cancels(t, s.payments[id].owner))
  {
    if id in After(m, t, grace).payments {
      WasThere(s, m, now, t, grace, id, paid);
      StepIsDue(m, t, grace, now, id);
    }
  }

  lemma {:induction false} DueUntilCancelled(s: Rows, now: nat, es: seq<Timed>, n: nat, grace: nat, id: Id)
    requires Sound(s) && RecordsApart(s) && FreshBetween(AfterCopy(s, now), es, grace) && RequestsAhead(es, now, grace)
    requires n <= |es| && WasPaid(s, id) && OwnerDue(s, id, now)
    ensures DueUnless(s, Between(AfterCopy(s, now), es, n, grace), now, id, CancelledIn(es, n, s.payments[id].owner))
  {
    if n > 0 {
      var c := AfterCopy(s, now);
      var m := Between(c, es, n - 1, grace);
      DueUntilCancelled(s, now, es, n - 1, grace, id);
      RunStands(s, now, es, n - 1, grace, id);
      StepDueUnless(s, m, now, es[n - 1], grace, id, PaidBetween(c, es, n - 1, grace, id),
          CancelledIn(es, n - 1, s.payments[id].owner));
      CancelledNext(es, n, s.payments[id].owner);
    }
  }

  /**
   A purge leaves a payment in both tables if and only if, between its statements, somebody cancelled the
   deletion of an account whose payments had been copied and are still there.
   */
  lemma {:induction false} PurgeKeepsApartIff(s: Rows, now: nat, es: seq<Timed>, grace: nat)
    requires Sound(s) && RecordsApart(s) && FreshBetween(AfterCopy(s, now), es, grace) && RequestsAhead(es, now, grace)
    ensures var m := Between(AfterCopy(s, now), es, |es|, grace);
      RecordsApart(AfterDelete(m, now)) <==> forall id: Id ::
          WasPaid(s, id) && OwnerDue(s, id, now) && id in m.payments ==> !CancelledIn(es, |es|, s.payments[id].owner)
  {
    var m := Between(AfterCopy(s, now), es, |es|, grace);
    var v := AfterDelete(m, now);
    forall id: Id
      ensures id in v.payments && id in v.accounting <==>
          WasPaid(s, id) && OwnerDue(s, id, now) && id in m.payments && CancelledIn(es, |es|, s.payments[id].owner)
    {
      TwiceIffSpared(s, now, es, grace, id);
      if WasPaid(s, id) && OwnerDue(s, id, now) && id in m.payments { DueUntilCancelled(s, now, es, |es|, grace, id); }
    }
  }

  // ----- A run that loses a payment -----

  /** An account that asks to be deleted with a payment still pending. */
  const LEAVING: seq<Timed> := [
    Timed(0, Register(1, 0)), Timed(0, Open(2, 1, Basic, 1)), Timed(0, SetReference(2, "r")), Timed(0, Request(1))]

  const LEFT := Rows(
    map[1 := Account(Some(0), Some(5))], map[2 := PaymentRow(1, Basic, 1, 9_900, Some("r"), None, None)],
    map[1 := Subscription(Pro, Some(0), None)], map[])

  lemma {:induction false} LeavingRuns()
    ensures Run(LEAVING, 4, 5) == LEFT
  {
    assert Run(LEAVING, 1, 5) == AfterRegister(EMPTY, 1, 0);
    assert Run(LEAVING, 2, 5) == AfterOpen(Run(LEAVING, 1, 5), 2, 1, Basic, 1);
    assert Run(LEAVING, 3, 5) == AfterSetReference(Run(LEAVING, 2, 5), 2, "r");
  }

  /** The gateway's word arrives between the statements: the payment is paid, and then recorded nowhere. */
  lemma {:induction false} ConfirmBetweenIsLost()
    ensures var c := AfterCopy(Run(LEAVING, 4, 5), 5);
      var m := Between(c, [Timed(5, Confirm("r"))], 1, 5);
      Received(m, 2) == Some(9_900) && Received(AfterDelete(m, 5), 2) == None
  {
    LeavingRuns();
    var c := AfterCopy(LEFT, 5);
    assert IsPending(c, 2, "r");
    ConfirmIs(c, "r", 5, 2);
    assert Between(c, [Timed(5, Confirm("r"))], 1, 5) ==
        AfterConfirm(Between(c, [Timed(5, Confirm("r"))], 0, 5), "r", 5);
  }
}
