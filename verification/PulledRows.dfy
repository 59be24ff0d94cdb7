/** What a phone ends up holding once pulling has ended, table by table and field by field. */
module PulledRows {
  import opened Prelude
  import opened Paging
  import opened Replica
  import opened PullService

  /** A row older than the settle window, in a table this reader is sent. */
  predicate Due(rows: Rows, k: Key, now: nat, window: nat, seesCosts: bool)
  {
    k in rows && (seesCosts || ForStaff(k.table)) && rows[k].at + window < now
  }

  lemma {:induction false} VisibleIsDue(rows: Rows, now: nat, s: Settings, k: Key)
    ensures k in Visible(rows, now, s) <==> Due(rows, k, now, s.window, s.seesCosts)
    ensures k in Visible(rows, now, s) ==> AsStored(Visible(rows, now, s)[k], rows[k], s.seesCosts)
  {
  }

  /**
   Once pulling has ended a phone that started over holds exactly the settled rows: all five tables as they are
   stored if its reader sees costs; products, sales and movements with their costs at zero if not.
   */
  lemma {:induction false} FreshPhoneHolds(rows: Rows, times: nat -> nat, s: Settings, n: nat, k: Key)
    requires Forward(times) && !MoreAfter(FRESH, rows, times, s, n)
    requires forall k :: k in rows ==> rows[k].at >= 1
    ensures var copy := Rounds(FRESH, rows, times, s, n + 1).copy;
      && (k in copy <==> Due(rows, k, times(n), s.window, s.seesCosts))
      && (k in copy ==> AsStored(copy[k], rows[k], s.seesCosts))
  {
    FreshDeviceAgrees(rows, times, s, n);
    VisibleIsDue(rows, times(n), s, k);
  }

  /** What the phone had passed before it holds as well, in the version its reader is shown. */
  ghost predicate HoldsPassed(d: Device, rows: Rows, seesCosts: bool)
  {
    forall k :: k in rows && (seesCosts || ForStaff(k.table)) && Passed(d, rows, k) ==>
      k in d.copy && AsStored(d.copy[k], rows[k], seesCosts)
  }

  /** What it held of one row, and what was delivered of it, make what it holds. */
  lemma {:induction false} RowHeld(
      d: Device, after: Device, rows: Rows, s: Settings, k: Key, delivered: bool, now: nat)
    requires HoldsPassed(d, rows, s.seesCosts) && Tracks(d, after, rows, s, k, delivered)
    requires delivered <==>
        k in rows && !Withheld(k.table, s.seesCosts) && !Passed(d, rows, k) && Settled(rows[k], now, s)
    ensures if Due(rows, k, now, s.window, s.seesCosts)
            then k in after.copy && AsStored(after.copy[k], rows[k], s.seesCosts)
            else Held(after, k) == Held(d, k)
  {
    if k in rows && Passed(d, rows, k) { assert Held(after, k) == Held(d, k); }
  }

  /** A phone that goes on from its marks ends up holding the same, and what it is not sent stays as it was. */
  lemma {:induction false} PhoneHolds(d: Device, rows: Rows, times: nat -> nat, s: Settings, n: nat, k: Key)
    requires Forward(times) && !MoreAfter(d, rows, times, s, n) && HoldsPassed(d, rows, s.seesCosts)
    ensures var copy := Rounds(d, rows, times, s, n + 1).copy;
      if Due(rows, k, times(n), s.window, s.seesCosts)
      then k in copy && AsStored(copy[k], rows[k], s.seesCosts)
      else (k in copy <==> k in d.copy) && (k in copy ==> copy[k] == d.copy[k])
  {
    RoundsOneRow(d, rows, times, s, n + 1, k);
    DeliveredIffSettled(d, rows, times, s, n, k);
    var after := Rounds(d, rows, times, s, n + 1);
    RowHeld(d, after, rows, s, k, k in Log(d, rows, times, s, k.table, n + 1), times(n));
    assert Held(after, k) == Held(d, k) ==> (k in after.copy <==> k in d.copy);
  }
}
