/** Payments, subscriptions, deletion requests and the retention sweep. */
module Billing {
  import opened Prelude
  import opened Plans

  datatype Account = Account(requestedAt: Option<nat>, deleteAfter: Option<nat>)

  /** A row of `payments`; `paidAt` is set exactly when its status is 'paid'. */
  datatype PaymentRow = PaymentRow(
    owner: Id, plan: Plan, months: nat, amount: nat, reference: Option<string>, paidAt: Option<nat>,
        through: Option<nat>)

  /** A row of `accounting_records`: the money, with nobody attached to it. */
  datatype Record = Record(plan: Plan, months: nat, amount: nat, reference: Option<string>, paidAt: Option<nat>)

  datatype Rows = Rows(
    owners: map<Id, Account>,
    payments: map<Id, PaymentRow>,
    subscriptions: map<Id, Subscription>,
    accounting: map<Id, Record>)

  const EMPTY := Rows(map[], map[], map[], map[])

  // ----- What each call does -----

  /** Registration opens the account with its trial. */
  function AfterRegister(s: Rows, owner: Id, trial: nat): Rows
  {
    if owner in s.owners then s
    else
      s.(owners := s.owners[owner := Account(None, None)],
         subscriptions := s.subscriptions[owner := Subscription(Pro, Some(trial), None)])
  }

  /** The insert is refused for a known id, an unknown owner or months that are not offered. */
  predicate MayOpen(s: Rows, id: Id, owner: Id, months: nat)
  {
    id !in s.payments && owner in s.owners && (months == 1 || months == 12)
  }

  function AfterOpen(s: Rows, id: Id, owner: Id, plan: Plan, months: nat): Rows
  {
    if !MayOpen(s, id, owner, months) then s
    else s.(payments := s.payments[id := PaymentRow(owner, plan, months, Price(plan, months), None, None, None)])
  }

  /** A reference is unique, so one that is taken is refused. */
  predicate MayRefer(s: Rows, id: Id, reference: string)
  {
    id in s.payments && forall other | other in s.payments ::
        s.payments[other].reference == Some(reference) ==> other == id
  }

  function AfterSetReference(s: Rows, id: Id, reference: string): Rows
  {
    if !MayRefer(s, id, reference) then s
    else s.(payments := s.payments[id := s.payments[id].(reference := Some(reference))])
  }

  predicate IsPending(s: Rows, id: Id, reference: string)
  {
    id in s.payments && s.payments[id].reference == Some(reference) && s.payments[id].paidAt.None?
    && s.payments[id].owner in s.owners
  }

  predicate Known(s: Rows, reference: string)
  {
    exists id | id in s.payments :: IsPending(s, id, reference)
  }

  function CurrentOf(s: Rows, owner: Id): Option<Subscription>
  {
    if owner in s.subscriptions then Some(s.subscriptions[owner]) else None
  }

  function AtLeastOne(months: nat): nat { if months < 1 then 1 else months }

  function Extended(s: Rows, id: Id, now: nat): Subscription
    requires id in s.payments
  {
    var p := s.payments[id];
    AfterPayment(CurrentOf(s, p.owner), p.plan, AtLeastOne(p.months), now)
  }

  function Confirmed(s: Rows, id: Id, now: nat): Rows
    requires id in s.payments
  {
    var p := s.payments[id];
    var sub := Extended(s, id, now);
    s.(payments := s.payments[id := p.(paidAt := Some(now), through := sub.paid)],
       subscriptions := s.subscriptions[p.owner := sub])
  }

  /** Only a pending payment can be confirmed; any other word of it changes nothing. */
  ghost function AfterConfirm(s: Rows, reference: string, now: nat): Rows
  {
    if Known(s, reference) then
      var id :| id in s.payments && IsPending(s, id, reference);
      Confirmed(s, id, now)
    else s
  }

  /** Asking twice does not move the date. */
  function AfterRequest(s: Rows, owner: Id, now: nat, grace: nat): Rows
  {
    if owner !in s.owners then s
    else
      var o := s.owners[owner];
      s.(owners := s.owners[owner := Account(
        if o.requestedAt.Some? then o.requestedAt else Some(now),
        if o.deleteAfter.Some? then o.deleteAfter else Some(now + grace))])
  }

  function AfterCancel(s: Rows, owner: Id): Rows
  {
    if owner !in s.owners then s else s.(owners := s.owners[owner := Account(None, None)])
  }

  predicate Due(s: Rows, owner: Id, now: nat)
  {
    owner in s.owners && s.owners[owner].deleteAfter.Some? && s.owners[owner].deleteAfter.value <= now
  }

  function RecordOf(p: PaymentRow): Record { Record(p.plan, p.months, p.amount, p.reference, p.paidAt) }

  /** Paid payments of accounts that are due; a record that is there already stays. */
  function AfterCopy(s: Rows, now: nat): Rows
  {
    s.(accounting :=
      (map id | id in s.payments && s.payments[id].paidAt.Some? && Due(s, s.payments[id].owner, now) ::
          RecordOf(s.payments[id]))
      + s.accounting)
  }

  /** Everything else goes with the owner. */
  function AfterDelete(s: Rows, now: nat): Rows
  {
    s.(owners := map o | o in s.owners && !Due(s, o, now) :: s.owners[o],
       payments := map id | id in s.payments && !Due(s, s.payments[id].owner, now) :: s.payments[id],
       subscriptions := map o | o in s.subscriptions && !Due(s, o, now) :: s.subscriptions[o])
  }

  function AfterPurge(s: Rows, now: nat): Rows { AfterDelete(AfterCopy(s, now), now) }

  // ----- Runs -----

  datatype Event =
    | Register(owner: Id, trial: nat)
    | Open(id: Id, owner: Id, plan: Plan, months: nat)
    | SetReference(id: Id, reference: string)
    | Confirm(reference: string)
    | Request(owner: Id)
    | Cancel(owner: Id)
    | Purge

  datatype Timed = Timed(at: nat, event: Event)

  ghost function After(s: Rows, t: Timed, grace: nat): Rows
  {
    match t.event
    case Register(owner, trial) => AfterRegister(s, owner, trial)
    case Open(id, owner, plan, months) => AfterOpen(s, id, owner, plan, months)
    case SetReference(id, reference) => AfterSetReference(s, id, reference)
    case Confirm(reference) => AfterConfirm(s, reference, t.at)
    case Request(owner) => AfterRequest(s, owner, t.at, grace)
    case Cancel(owner) => AfterCancel(s, owner)
    case Purge => AfterPurge(s, t.at)
  }

  /** The rows after the first `n` events. */
  ghost function Run(es: seq<Timed>, n: nat, grace: nat): Rows
    requires n <= |es|
  {
    if n == 0 then EMPTY else After(Run(es, n - 1, grace), es[n - 1], grace)
  }

  // ----- What every run keeps -----

  predicate UniqueReferences(s: Rows)
  {
    forall a, b | a in s.payments && b in s.payments ::
      s.payments[a].reference.Some? && s.payments[a].reference == s.payments[b].reference ==> a == b
  }

  predicate Sound(s: Rows)
  {
    && UniqueReferences(s)
    && (forall id | id in s.payments :: s.payments[id].owner in s.owners && s.payments[id].months >= 1)
    && s.subscriptions.Keys <= s.owners.Keys
    && (forall o | o in s.subscriptions :: PaidOutlastsTrial(s.subscriptions[o]))
  }

  lemma {:induction false} ConfirmIs(s: Rows, reference: string, now: nat, id: Id)
    requires UniqueReferences(s) && IsPending(s, id, reference)
    ensures AfterConfirm(s, reference, now) == Confirmed(s, id, now)
  {
  }

  lemma {:induction false} ConfirmKeepsSound(s: Rows, reference: string, now: nat)
    requires Sound(s)
    ensures Sound(AfterConfirm(s, reference, now))
  {
    if Known(s, reference) {
      var id :| id in s.payments && IsPending(s, id, reference);
      ConfirmIs(s, reference, now, id);
      PaymentOutlastsTrial(CurrentOf(s, s.payments[id].owner), s.payments[id].plan, AtLeastOne(s.payments[id].months),
          now);
    }
  }

  lemma {:induction false} ReferenceKeepsSound(s: Rows, id: Id, reference: string)
    requires Sound(s)
    ensures Sound(AfterSetReference(s, id, reference))
  {
  }

  lemma {:induction false} PurgeKeepsSound(s: Rows, now: nat)
    requires Sound(s)
    ensures Sound(AfterPurge(s, now))
  {
    assert forall o :: Due(AfterCopy(s, now), o, now) == Due(s, o, now);
  }

  lemma {:induction false} StepKeepsSound(s: Rows, t: Timed, grace: nat)
    requires Sound(s)
    ensures Sound(After(s, t, grace))
  {
    match t.event {
      case SetReference(id, reference) => ReferenceKeepsSound(s, id, reference);
      case Confirm(reference) => ConfirmKeepsSound(s, reference, t.at);
      case Purge => PurgeKeepsSound(s, t.at);
      case _ =>
    }
  }

  /** In every run references stay unique and every subscription's paid time ends after its trial. */
  lemma {:induction false} RunKeepsSound(es: seq<Timed>, n: nat, grace: nat)
    requires n <= |es|
    ensures Sound(Run(es, n, grace))
  {
    if n > 0 {
      RunKeepsSound(es, n - 1, grace);
      StepKeepsSound(Run(es, n - 1, grace), es[n - 1], grace);
    }
  }

  // ----- Money -----

  /** What was paid under a payment's id, wherever its row is now. */
  function Received(s: Rows, id: Id): Option<nat>
  {
    if id in s.payments && s.payments[id].paidAt.Some? then Some(s.payments[id].amount)
    else if id in s.accounting then Some(s.accounting[id].amount)
    else None
  }

  predicate RecordsApart(s: Rows) { s.payments.Keys !! s.accounting.Keys }

  /** Ids are minted at random: none is ever used again. */
  predicate MintsFresh(s: Rows, t: Timed)
  {
    match t.event
    case Open(id, _, _, _) => id !in s.accounting
    case Register(owner, _) => owner !in s.owners
    case _ => true
  }

  /** The payment this event turns from pending to paid. */
  predicate Pays(s: Rows, t: Timed, id: Id)
  {
    t.event.Confirm? && IsPending(s, id, t.event.reference)
  }

  lemma {:induction false} PurgeKeepsMoney(s: Rows, now: nat, id: Id)
    requires RecordsApart(s)
    ensures Received(AfterPurge(s, now), id) == Received(s, id)
  {
    var c := AfterCopy(s, now);
    if id in s.payments { assert Due(c, s.payments[id].owner, now) == Due(s, s.payments[id].owner, now); }
  }

  lemma {:induction false} PurgeKeepsApart(s: Rows, now: nat)
    requires RecordsApart(s)
    ensures RecordsApart(AfterPurge(s, now))
  {
    var c := AfterCopy(s, now);
    forall id | id in AfterPurge(s, now).payments ensures id !in c.accounting {
      assert Due(c, s.payments[id].owner, now) == Due(s, s.payments[id].owner, now);
    }
  }

  lemma {:induction false} ConfirmMoney(s: Rows, reference: string, now: nat, id: Id)
    requires Sound(s) && RecordsApart(s)
    ensures var after := AfterConfirm(s, reference, now);
      && RecordsApart(after)
      && (if IsPending(s, id, reference)
          then Received(s, id) == None && Received(after, id) == Some(s.payments[id].amount)
          else Received(after, id) == Received(s, id))
  {
    if Known(s, reference) {
      var paid :| paid in s.payments && IsPending(s, paid, reference);
      ConfirmIs(s, reference, now, paid);
    }
  }

  /** A step adds the one payment it confirms, at its amount, and otherwise leaves the money as it was. */
  lemma {:induction false} StepKeepsMoney(s: Rows, t: Timed, grace: nat, id: Id)
    requires Sound(s) && RecordsApart(s) && MintsFresh(s, t)
    ensures var after := After(s, t, grace);
      if Pays(s, t, id) then Received(s, id) == None && Received(after, id) == Some(s.payments[id].amount)
      else Received(after, id) == Received(s, id)
  {
    match t.event {
      case Confirm(reference) => ConfirmMoney(s, reference, t.at, id);
      case Purge => PurgeKeepsMoney(s, t.at, id);
      case _ =>
    }
  }

  lemma {:induction false} StepKeepsApart(s: Rows, t: Timed, grace: nat)
    requires Sound(s) && RecordsApart(s) && MintsFresh(s, t)
    ensures RecordsApart(After(s, t, grace))
  {
    match t.event {
      case Confirm(reference) => ConfirmMoney(s, reference, t.at, 0);
      case Purge => PurgeKeepsApart(s, t.at);
      case _ =>
    }
  }

  ghost predicate FreshAt(es: seq<Timed>, i: nat, grace: nat)
    requires i < |es|
  {
    MintsFresh(Run(es, i, grace), es[i])
  }

  ghost predicate AllFresh(es: seq<Timed>, n: nat, grace: nat)
    requires n <= |es|
  {
    forall i {:trigger FreshAt(es, i, grace)} :: 0 <= i < n ==> FreshAt(es, i, grace)
  }

  /** What an event of the run is the one to pay for. */
  ghost predicate PaidAt(es: seq<Timed>, i: nat, grace: nat, id: Id)
    requires i < |es|
  {
    Pays(Run(es, i, grace), es[i], id)
  }

  ghost predicate Kept(s: Rows) { Sound(s) && RecordsApart(s) }

  lemma {:induction false} RunKeeps(es: seq<Timed>, n: nat, grace: nat)
    requires n <= |es| && AllFresh(es, n, grace)
    ensures Kept(Run(es, n, grace))
  {
    if n > 0 {
      RunKeeps(es, n - 1, grace);
      assert FreshAt(es, n - 1, grace);
      StepKeepsApart(Run(es, n - 1, grace), es[n - 1], grace);
      StepKeepsSound(Run(es, n - 1, grace), es[n - 1], grace);
    }
  }

  lemma {:induction false} StepOfRun(es: seq<Timed>, n: nat, grace: nat, id: Id)
    requires n < |es| && AllFresh(es, n + 1, grace)
    ensures if PaidAt(es, n, grace, id)
            then Received(Run(es, n, grace), id) == None && id in Run(es, n, grace).payments
                 && Received(Run(es, n + 1, grace), id) == Some(Run(es, n, grace).payments[id].amount)
            else Received(Run(es, n + 1, grace), id) == Received(Run(es, n, grace), id)
  {
    RunKeeps(es, n, grace);
    assert FreshAt(es, n, grace);
    StepKeepsMoney(Run(es, n, grace), es[n], grace, id);
  }

  lemma {:induction false} AllFreshBefore(es: seq<Timed>, n: nat, m: nat, grace: nat)
    requires n <= m <= |es| && AllFresh(es, m, grace)
    ensures AllFresh(es, n, grace)
  {
  }

  ghost predicate EverPaid(es: seq<Timed>, n: nat, grace: nat, id: Id)
    requires n <= |es|
  {
    exists i {:trigger PaidAt(es, i, grace, id)} :: 0 <= i < n && PaidAt(es, i, grace, id)
  }

  lemma {:induction false} EverPaidNext(es: seq<Timed>, n: nat, grace: nat, id: Id)
    requires n < |es|
    ensures EverPaid(es, n + 1, grace, id) <==> EverPaid(es, n, grace, id) || PaidAt(es, n, grace, id)
  {
  }

  lemma {:induction false} MoneyNext(es: seq<Timed>, n: nat, grace: nat, id: Id)
    requires n < |es| && AllFresh(es, n + 1, grace)
    requires Received(Run(es, n, grace), id).Some? <==> EverPaid(es, n, grace, id)
    ensures Received(Run(es, n + 1, grace), id).Some? <==> EverPaid(es, n + 1, grace, id)
  {
    StepOfRun(es, n, grace, id);
    EverPaidNext(es, n, grace, id);
  }

  /** Money is what was confirmed, neither more nor less: a payment counts exactly if some event of the run paid it. */
  lemma {:induction false} MoneyIsWhatWasPaid(es: seq<Timed>, n: nat, grace: nat, id: Id)
    requires n <= |es| && AllFresh(es, n, grace)
    ensures Received(Run(es, n, grace), id).Some? <==> EverPaid(es, n, grace, id)
  {
    if n > 0 {
      AllFreshBefore(es, n - 1, n, grace);
      MoneyIsWhatWasPaid(es, n - 1, grace, id);
      MoneyNext(es, n - 1, grace, id);
    }
  }

  lemma {:induction false} MoneyStays(es: seq<Timed>, n: nat, grace: nat, id: Id, amount: nat)
    requires n < |es| && AllFresh(es, n + 1, grace) && Received(Run(es, n, grace), id) == Some(amount)
    ensures Received(Run(es, n + 1, grace), id) == Some(amount)
  {
    StepOfRun(es, n, grace, id);
  }

  lemma {:induction false} MoneyStaysUntil(es: seq<Timed>, m: nat, n: nat, grace: nat, id: Id, amount: nat)
    requires m <= n <= |es| && AllFresh(es, n, grace) && Received(Run(es, m, grace), id) == Some(amount)
    ensures Received(Run(es, n, grace), id) == Some(amount)
    decreases n - m
  {
    if m < n {
      AllFreshBefore(es, m + 1, n, grace);
      MoneyStays(es, m, grace, id, amount);
      MoneyStaysUntil(es, m + 1, n, grace, id, amount);
    }
  }

  /** Once paid, a payment is paid for good, at the same amount. */
  lemma {:induction false} PaidForGood(es: seq<Timed>, i: nat, n: nat, grace: nat, id: Id)
    requires i < n <= |es| && AllFresh(es, n, grace) && PaidAt(es, i, grace, id)
    ensures id in Run(es, i, grace).payments
    ensures Received(Run(es, n, grace), id) == Some(Run(es, i, grace).payments[id].amount)
  {
    AllFreshBefore(es, i + 1, n, grace);
    StepOfRun(es, i, grace, id);
    MoneyStaysUntil(es, i + 1, n, grace, id, Run(es, i, grace).payments[id].amount);
  }

  /** A payment is paid by at most one event of a run. */
  lemma {:induction false} PaidOnce(es: seq<Timed>, i: nat, j: nat, grace: nat, id: Id)
    requires i < j < |es| && AllFresh(es, j + 1, grace)
    requires PaidAt(es, i, grace, id)
    ensures !PaidAt(es, j, grace, id)
  {
    AllFreshBefore(es, j, j + 1, grace);
    PaidForGood(es, i, j, grace, id);
    StepOfRun(es, j, grace, id);
  }

  // ----- Purging -----

  lemma {:induction false} NothingIsDue(s: Rows, now: nat, owner: Id)
    ensures !Due(AfterPurge(s, now), owner, now)
  {
    assert Due(AfterCopy(s, now), owner, now) == Due(s, owner, now);
  }

  /** Sweeping a second time at the same moment finds nothing to do. */
  lemma {:induction false} PurgeTwice(s: Rows, now: nat)
    ensures AfterPurge(AfterPurge(s, now), now) == AfterPurge(s, now)
  {
    var p := AfterPurge(s, now);
    forall owner: Id ensures !Due(p, owner, now) { NothingIsDue(s, now, owner); }
    NothingDueNothingDone(p, now);
  }

  lemma {:induction false} NothingDueNothingDone(s: Rows, now: nat)
    requires forall owner: Id :: !Due(s, owner, now)
    ensures AfterPurge(s, now) == s
  {
    assert AfterCopy(s, now).accounting == s.accounting;
    assert AfterCopy(s, now) == s;
  }

  // ----- Deletion -----

  /** The first request since the account began or the last cancellation, read off the events alone. */
  function FirstRequest(es: seq<Timed>, n: nat, owner: Id): Option<nat>
    requires n <= |es|
  {
    if n == 0 then None
    else
      var before := FirstRequest(es, n - 1, owner);
      match es[n - 1].event
      case Register(o, _) => if o == owner then None else before
      case Request(o) => if o == owner && before.None? then Some(es[n - 1].at) else before
      case Cancel(o) => if o == owner then None else before
      case _ => before
  }

  function AccountAsked(first: Option<nat>, grace: nat): Account
  {
    match first
    case None => Account(None, None)
    case Some(t) => Account(Some(t), Some(t + grace))
  }

  lemma {:induction false} StepKeepsAccounts(s: Rows, t: Timed, grace: nat, owner: Id)
    ensures var after := After(s, t, grace);
      owner in after.owners <==>
        (t.event == Register(owner, if t.event.Register? then t.event.trial else 0) || owner in s.owners)
        && !(t.event.Purge? && Due(s, owner, t.at))
    ensures owner in After(s, t, grace).owners && owner in s.owners
        && !(t.event.Request? && t.event.owner == owner) && !(t.event.Cancel? && t.event.owner == owner)
      ==> After(s, t, grace).owners[owner] == s.owners[owner]
  {
    if t.event.Purge? { assert Due(AfterCopy(s, t.at), owner, t.at) == Due(s, owner, t.at); }
  }

  /** An account's dates are its first request since the last cancellation, and the full grace period after it. */
  lemma {:induction false} DatesAreFirstRequest(es: seq<Timed>, n: nat, grace: nat, owner: Id)
    requires n <= |es| && AllFresh(es, n, grace) && owner in Run(es, n, grace).owners
    ensures Run(es, n, grace).owners[owner] == AccountAsked(FirstRequest(es, n, owner), grace)
  {
    if n > 0 {
      var s, t := Run(es, n - 1, grace), es[n - 1];
      assert FreshAt(es, n - 1, grace);
      AllFreshBefore(es, n - 1, n, grace);
      StepKeepsAccounts(s, t, grace, owner);
      if owner in s.owners {
        DatesAreFirstRequest(es, n - 1, grace, owner);
      }
    }
  }

  /** An account goes exactly when a sweep finds that first request aged by the full grace period. */
  lemma {:induction false} DeletedIffAged(es: seq<Timed>, n: nat, grace: nat, owner: Id)
    requires n < |es| && AllFresh(es, n + 1, grace) && owner in Run(es, n, grace).owners
    ensures owner !in Run(es, n + 1, grace).owners <==>
      es[n].event.Purge? && FirstRequest(es, n, owner).Some? && FirstRequest(es, n, owner).value + grace <= es[n].at
  {
    AllFreshBefore(es, n, n + 1, grace);
    DatesAreFirstRequest(es, n, grace, owner);
    StepKeepsAccounts(Run(es, n, grace), es[n], grace, owner);
  }

  // ----- Subscriptions -----

  datatype Receipt = Receipt(plan: Plan, months: nat, at: nat)

  /** The payment of this owner that an event confirms. */
  ghost function ReceiptOf(s: Rows, t: Timed, owner: Id): Option<Receipt>
  {
    if exists id :: Pays(s, t, id) && s.payments[id].owner == owner then
      var id :| Pays(s, t, id) && s.payments[id].owner == owner;
      Some(Receipt(s.payments[id].plan, s.payments[id].months, t.at))
    else None
  }

  /** What an owner's payments were confirmed as, each once, in order. */
  ghost function Receipts(es: seq<Timed>, n: nat, grace: nat, owner: Id): seq<Receipt>
    requires n <= |es|
  {
    if n == 0 || (es[n - 1].event.Register? && es[n - 1].event.owner == owner) then []
    else
      Receipts(es, n - 1, grace, owner)
      + (match ReceiptOf(Run(es, n - 1, grace), es[n - 1], owner) case Some(r) => [r] case None => [])
  }

  /** The trial an account was opened with. */
  function TrialOf(es: seq<Timed>, n: nat, owner: Id): nat
    requires n <= |es|
  {
    if n == 0 then 0
    else if es[n - 1].event.Register? && es[n - 1].event.owner == owner then es[n - 1].event.trial
    else TrialOf(es, n - 1, owner)
  }

  function PaidUp(trial: nat, receipts: seq<Receipt>, n: nat): Subscription
    requires n <= |receipts|
  {
    if n == 0 then Subscription(Pro, Some(trial), None)
    else
      var r := receipts[n - 1];
      AfterPayment(Some(PaidUp(trial, receipts, n - 1)), r.plan, r.months, r.at)
  }

  lemma {:induction false} SamePaidUp(trial: nat, a: seq<Receipt>, b: seq<Receipt>, n: nat)
    requires n <= |a| && n <= |b| && forall i :: 0 <= i < n ==> a[i] == b[i]
    ensures PaidUp(trial, a, n) == PaidUp(trial, b, n)
  {
    if n > 0 {
      SamePaidUp(trial, a, b, n - 1);
      SameReceipt(PaidUp(trial, a, n - 1), PaidUp(trial, b, n - 1), a[n - 1], b[n - 1]);
    }
  }

  lemma {:induction false} SameReceipt(s: Subscription, t: Subscription, q: Receipt, r: Receipt)
    requires s == t && q == r
    ensures AfterPayment(Some(s), q.plan, q.months, q.at) == AfterPayment(Some(t), r.plan, r.months, r.at)
  {
  }

  function Paid(current: Option<Subscription>, receipt: Option<Receipt>): Option<Subscription>
  {
    match receipt
    case None => current
    case Some(r) => Some(AfterPayment(current, r.plan, r.months, r.at))
  }

  /** What a step does to one owner's subscription. */
  lemma {:induction false} StepSubscription(s: Rows, t: Timed, grace: nat, owner: Id)
    requires Sound(s) && MintsFresh(s, t) && owner in After(s, t, grace).owners
    requires !(t.event.Register? && t.event.owner == owner)
    ensures owner in s.owners
    ensures CurrentOf(After(s, t, grace), owner) == Paid(CurrentOf(s, owner), ReceiptOf(s, t, owner))
  {
    StepKeepsAccounts(s, t, grace, owner);
    match t.event {
      case Confirm(reference) =>
        if Known(s, reference) {
          var id :| id in s.payments && IsPending(s, id, reference);
          ConfirmIs(s, reference, t.at, id);
          forall other ensures Pays(s, t, other) <==> other == id { }
        }
      case Purge => assert Due(AfterCopy(s, t.at), owner, t.at) == Due(s, owner, t.at);
      case _ =>
    }
  }

  /** In every run a subscription is its trial carried through the first confirmations of its payments. */
  lemma {:induction false} SubscriptionIsPaidUp(es: seq<Timed>, n: nat, grace: nat, owner: Id)
    requires n <= |es| && AllFresh(es, n, grace) && owner in Run(es, n, grace).owners
    ensures CurrentOf(Run(es, n, grace), owner)
         == Some(PaidUp(TrialOf(es, n, owner), Receipts(es, n, grace, owner), |Receipts(es, n, grace, owner)|))
  {
    if n > 0 {
      var s, t := Run(es, n - 1, grace), es[n - 1];
      assert FreshAt(es, n - 1, grace);
      if t.event.Register? && t.event.owner == owner { return; }
      AllFreshBefore(es, n - 1, n, grace);
      RunKeeps(es, n - 1, grace);
      StepSubscription(s, t, grace, owner);
      SubscriptionIsPaidUp(es, n - 1, grace, owner);
      PaidUpNext(TrialOf(es, n - 1, owner), Receipts(es, n - 1, grace, owner), ReceiptOf(s, t, owner));
    }
  }

  lemma {:induction false} PaidUpNext(trial: nat, before: seq<Receipt>, receipt: Option<Receipt>)
    ensures var after := before + (match receipt case Some(r) => [r] case None => []);
      Some(PaidUp(trial, after, |after|)) == Paid(Some(PaidUp(trial, before, |before|)), receipt)
  {
    match receipt {
      case None => assert before + [] == before;
      case Some(r) => SamePaidUp(trial, before, before + [r], |before|);
    }
  }

  // ----- Repeated confirmations -----

  datatype Word = Word(reference: string, at: nat)

  /** The rows after the gateway's first `n` words, nothing else happening in between. */
  ghost function Told(s: Rows, words: seq<Word>, n: nat): Rows
    requires n <= |words|
  {
    if n == 0 then s else AfterConfirm(Told(s, words, n - 1), words[n - 1].reference, words[n - 1].at)
  }

  predicate SaidBefore(words: seq<Word>, n: nat, reference: string)
    requires n <= |words|
  {
    exists i :: 0 <= i < n && words[i].reference == reference
  }

  /** The words without those that repeat a reference. */
  function Firsts(words: seq<Word>, n: nat): seq<Word>
    requires n <= |words|
  {
    if n == 0 then []
    else if SaidBefore(words, n - 1, words[n - 1].reference) then Firsts(words, n - 1)
    else Firsts(words, n - 1) + [words[n - 1]]
  }

  lemma {:induction false} ConfirmedIsNotKnown(s: Rows, reference: string, now: nat, other: string)
    requires Sound(s) && (other == reference || !Known(s, other))
    ensures !Known(AfterConfirm(s, reference, now), other)
  {
    if Known(s, reference) {
      var id :| id in s.payments && IsPending(s, id, reference);
      ConfirmIs(s, reference, now, id);
      var after := Confirmed(s, id, now);
      forall p | p in after.payments ensures !IsPending(after, p, other) {
        assert IsPending(after, p, other) ==> IsPending(s, p, other);
      }
    }
  }

  lemma {:induction false} SaidIsNotKnown(s: Rows, words: seq<Word>, n: nat, reference: string)
    requires Sound(s) && n <= |words| && SaidBefore(words, n, reference)
    ensures Sound(Told(s, words, n)) && !Known(Told(s, words, n), reference)
  {
    ToldIsSound(s, words, n - 1);
    ConfirmKeepsSound(Told(s, words, n - 1), words[n - 1].reference, words[n - 1].at);
    if words[n - 1].reference != reference {
      SaidIsNotKnown(s, words, n - 1, reference);
    }
    ConfirmedIsNotKnown(Told(s, words, n - 1), words[n - 1].reference, words[n - 1].at, reference);
  }

  lemma {:induction false} ToldIsSound(s: Rows, words: seq<Word>, n: nat)
    requires Sound(s) && n <= |words|
    ensures Sound(Told(s, words, n))
  {
    if n > 0 {
      ToldIsSound(s, words, n - 1);
      ConfirmKeepsSound(Told(s, words, n - 1), words[n - 1].reference, words[n - 1].at);
    }
  }

  lemma {:induction false} ToldPrefix(s: Rows, words: seq<Word>, more: Word, n: nat)
    requires n <= |words|
    ensures Told(s, words + [more], n) == Told(s, words, n)
  {
    if n > 0 { ToldPrefix(s, words, more, n - 1); }
  }

  /** However often the gateway repeats itself, only its first word of each payment counts. */
  lemma {:induction false} RepeatsChangeNothing(s: Rows, words: seq<Word>, n: nat)
    requires Sound(s) && n <= |words|
    ensures Told(s, words, n) == Told(s, Firsts(words, n), |Firsts(words, n)|)
  {
    if n > 0 {
      RepeatsChangeNothing(s, words, n - 1);
      var firsts := Firsts(words, n - 1);
      if SaidBefore(words, n - 1, words[n - 1].reference) {
        SaidIsNotKnown(s, words, n - 1, words[n - 1].reference);
      } else {
        ToldPrefix(s, firsts, words[n - 1], |firsts|);
      }
    }
  }
}
