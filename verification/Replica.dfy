/**
 Whole pulls of a store nobody is writing to, repeated while the server reports more: they come
 to an end, deliver each settled row once and in order, and leave an exact copy.
 */
module Replica {
  import opened Prelude
  import opened Paging

  /** One page size, window and kind of reader for all the pulls of a device. */
  datatype Settings = Settings(window: nat, limit: nat, seesCosts: bool)

  function Turn(d: Device, rows: Rows, table: Table, now: nat, s: Settings): Device
  {
    AfterPage(d, rows, table, now, s.window, s.limit, s.seesCosts)
  }

  /** The device after the first `n` tables of a pull. */
  function AfterTables(d: Device, rows: Rows, now: nat, s: Settings, n: nat): Device
    requires n <= |ALL|
  {
    if n == 0 then d else Turn(AfterTables(d, rows, now, s, n - 1), rows, ALL[n - 1], now, s)
  }

  function Pulled(d: Device, rows: Rows, now: nat, s: Settings): Device
  {
    AfterTables(d, rows, now, s, |ALL|)
  }

  /** The keys a pull returns for a table. */
  function PageOf(d: Device, rows: Rows, table: Table, now: nat, s: Settings): seq<Key>
  {
    if Withheld(table, s.seesCosts) then []
    else Page(rows, table, MarkOf(d.marks, table), now, s.window, s.limit)
  }

  predicate Full(d: Device, rows: Rows, table: Table, now: nat, s: Settings)
  {
    !Withheld(table, s.seesCosts) && |PageOf(d, rows, table, now, s)| >= s.limit
  }

  predicate HasMore(d: Device, rows: Rows, now: nat, s: Settings)
  {
    exists i :: 0 <= i < |ALL| && Full(d, rows, ALL[i], now, s)
  }

  function IndexOf(table: Table): (i: nat)
    ensures i < |ALL| && ALL[i] == table
    ensures forall j :: 0 <= j < |ALL| && ALL[j] == table ==> j == i
  {
    match table
    case Products => 0
    case Sales => 1
    case Expenses => 2
    case Withdrawals => 3
    case StockMovements => 4
  }

  // ----- One pull, table by table -----

  /** A row as the device holds it, if it does. */
  function Held(d: Device, k: Key): Option<Row>
  {
    if k in d.copy then Some(d.copy[k]) else None
  }

  lemma {:induction false} TurnLeavesOthers(d: Device, rows: Rows, table: Table, now: nat, s: Settings, k: Key)
    requires k.table != table || k !in PageOf(d, rows, table, now, s)
    ensures Held(Turn(d, rows, table, now, s), k) == Held(d, k)
    ensures k.table != table ==> MarkOf(Turn(d, rows, table, now, s).marks, k.table) == MarkOf(d.marks, k.table)
  {
    var keys := Pending(rows, table, MarkOf(d.marks, table), now, s.window);
    OrderedPrefix(rows, keys, table, s.limit);
    assert k.table != table ==> k !in keys;
  }

  /** A table's turn looks at nothing but its own mark. */
  lemma {:induction false} TurnIsLocal(d: Device, e: Device, rows: Rows, now: nat, s: Settings, k: Key)
    requires MarkOf(d.marks, k.table) == MarkOf(e.marks, k.table) && Held(d, k) == Held(e, k)
    ensures var a, b := Turn(d, rows, k.table, now, s), Turn(e, rows, k.table, now, s);
      Held(a, k) == Held(b, k) && MarkOf(a.marks, k.table) == MarkOf(b.marks, k.table)
  {
    OrderedPrefix(rows, Pending(rows, k.table, MarkOf(d.marks, k.table), now, s.window), k.table, s.limit);
  }

  /** Until a table's turn comes a pull does not affect it, and afterwards it is left alone. */
  lemma {:induction false} OtherTurns(d: Device, rows: Rows, now: nat, s: Settings, n: nat, k: Key)
    requires n <= |ALL|
    ensures var before := AfterTables(d, rows, now, s, n);
      var own := if n <= IndexOf(k.table) then d else Turn(d, rows, k.table, now, s);
      Held(before, k) == Held(own, k) && MarkOf(before.marks, k.table) == MarkOf(own.marks, k.table)
  {
    if n > 0 {
      var before := AfterTables(d, rows, now, s, n - 1);
      OtherTurns(d, rows, now, s, n - 1, k);
      if ALL[n - 1] == k.table {
        assert IndexOf(k.table) == n - 1;
        TurnIsLocal(before, d, rows, now, s, k);
      } else {
        TurnLeavesOthers(before, rows, ALL[n - 1], now, s, k);
      }
    }
  }

  /** A pull does to each row what its own table's page does. */
  lemma {:induction false} PullByTable(d: Device, rows: Rows, now: nat, s: Settings, k: Key)
    ensures Held(Pulled(d, rows, now, s), k) == Held(Turn(d, rows, k.table, now, s), k)
    ensures MarkOf(Pulled(d, rows, now, s).marks, k.table) == MarkOf(Turn(d, rows, k.table, now, s).marks, k.table)
  {
    OtherTurns(d, rows, now, s, |ALL|, k);
  }

  lemma {:induction false} PageIsSound(d: Device, rows: Rows, table: Table, now: nat, s: Settings, k: Key)
    requires k in PageOf(d, rows, table, now, s)
    ensures k in rows && k.table == table && !Passed(d, rows, k) && rows[k].at + s.window < now
  {
    OrderedPrefix(rows, Pending(rows, table, MarkOf(d.marks, table), now, s.window), table, s.limit);
  }

  /** A row of the page is held and passed; any other row stays as it was. */
  lemma {:induction false} PullOneRow(d: Device, rows: Rows, now: nat, s: Settings, k: Key)
    ensures var after := Pulled(d, rows, now, s);
      if k in PageOf(d, rows, k.table, now, s)
      then k in rows && Held(after, k) == Some(Shown(k, rows[k], s.seesCosts)) && Passed(after, rows, k)
      else Held(after, k) == Held(d, k) && (k in rows ==> (Passed(after, rows, k) <==> Passed(d, rows, k)))
  {
    PullByTable(d, rows, now, s, k);
    if k in PageOf(d, rows, k.table, now, s) {
      PageIsSound(d, rows, k.table, now, s, k);
    } else {
      TurnLeavesOthers(d, rows, k.table, now, s, k);
    }
    if k in rows && !Withheld(k.table, s.seesCosts) {
      PageMoves(d, rows, k.table, now, s.window, s.limit, s.seesCosts, k);
    }
  }

  lemma {:induction false} ShortPageIsWhole(rows: Rows, keys: set<Key>, table: Table, limit: nat, k: Key)
    requires keys <= rows.Keys && OfOneTable(keys, table)
    requires |InOrder(rows, keys, table, limit)| < limit && k in keys
    ensures k in InOrder(rows, keys, table, limit)
    decreases limit
  {
    var first := First(rows, keys, table);
    if k != first {
      ShortPageIsWhole(rows, keys - {first}, table, limit - 1, k);
    }
  }

  // ----- Pull after pull -----

  ghost predicate Forward(times: nat -> nat)
  {
    forall i: nat, j: nat :: i <= j ==> times(i) <= times(j)
  }

  /** The device after `n` pulls, the i-th of them at `times(i)`. */
  function Rounds(d: Device, rows: Rows, times: nat -> nat, s: Settings, n: nat): Device
  {
    if n == 0 then d else Pulled(Rounds(d, rows, times, s, n - 1), rows, times(n - 1), s)
  }

  /** Everything those pulls delivered for one table, in order. */
  function Log(d: Device, rows: Rows, times: nat -> nat, s: Settings, table: Table, n: nat): seq<Key>
  {
    if n == 0 then []
    else Log(d, rows, times, s, table, n - 1) + PageOf(Rounds(d, rows, times, s, n - 1), rows, table, times(n - 1), s)
  }

  function Unseen(d: Device, rows: Rows): set<Key>
  {
    set k | k in rows && !Passed(d, rows, k)
  }

  function Left(d: Device, rows: Rows): nat
  {
    |Unseen(d, rows)|
  }

  lemma {:induction false} PullShrinksUnseen(d: Device, rows: Rows, table: Table, now: nat, s: Settings)
    ensures var after := Pulled(d, rows, now, s);
      var got := set k | k in PageOf(d, rows, table, now, s);
      Unseen(after, rows) + got <= Unseen(d, rows) && Unseen(after, rows) !! got
  {
    var after := Pulled(d, rows, now, s);
    var page := PageOf(d, rows, table, now, s);
    forall k | k in Unseen(after, rows) ensures k in Unseen(d, rows) && k !in page {
      PullOneRow(d, rows, now, s, k);
      if k in page { PageIsSound(d, rows, table, now, s, k); }
    }
    forall k | k in page ensures k in Unseen(d, rows) {
      PageIsSound(d, rows, table, now, s, k);
    }
  }

  lemma {:induction false} FullPageCounts(d: Device, rows: Rows, table: Table, now: nat, s: Settings)
    requires Full(d, rows, table, now, s)
    ensures Left(Pulled(d, rows, now, s), rows) + s.limit <= Left(d, rows)
  {
    var page := PageOf(d, rows, table, now, s);
    var got := set k | k in page;
    OrderedPrefix(rows, Pending(rows, table, MarkOf(d.marks, table), now, s.window), table, s.limit);
    DistinctKeys(rows, page);
    PullShrinksUnseen(d, rows, table, now, s);
    Subset(Unseen(Pulled(d, rows, now, s), rows) + got, Unseen(d, rows));
  }

  lemma {:induction false} Subset(a: set<Key>, b: set<Key>)
    requires a <= b
    ensures |a| <= |b|
  {
    assert b == a + (b - a);
  }

  lemma {:induction false} DistinctKeys(rows: Rows, page: seq<Key>)
    requires Ascending(rows, page)
    ensures |set k | k in page| == |page|
  {
    if page != [] {
      var front, last := page[..|page| - 1], page[|page| - 1];
      DistinctKeys(rows, front);
      assert (set k | k in page) == (set k | k in front) + {last};
    }
  }

  /** The pull after the first `n` reports more. */
  predicate MoreAfter(d: Device, rows: Rows, times: nat -> nat, s: Settings, n: nat)
  {
    HasMore(Rounds(d, rows, times, s, n), rows, times(n), s)
  }

  function LeftAfter(d: Device, rows: Rows, times: nat -> nat, s: Settings, n: nat): nat
  {
    Left(Rounds(d, rows, times, s, n), rows)
  }

  /** Each pull that reports more delivers a page's worth of what was left. */
  lemma {:induction false} EachRoundDelivers(d: Device, rows: Rows, times: nat -> nat, s: Settings, n: nat)
    requires MoreAfter(d, rows, times, s, n)
    ensures LeftAfter(d, rows, times, s, n + 1) + s.limit <= LeftAfter(d, rows, times, s, n)
  {
    var e := Rounds(d, rows, times, s, n);
    var i :| 0 <= i < |ALL| && Full(e, rows, ALL[i], times(n), s);
    FullPageCounts(e, rows, ALL[i], times(n), s);
  }

  ghost predicate Falls(more: nat -> bool, left: nat -> nat, step: nat)
  {
    forall i: nat {:trigger more(i)} :: more(i) ==> left(i + 1) + step <= left(i)
  }

  ghost predicate IsLast(more: nat -> bool, left: nat -> nat, step: nat, n: nat)
  {
    !more(n) && (forall i: nat :: i < n ==> more(i)) && left(n) + n * step <= left(0)
  }

  /** What falls by `step` whenever there is more cannot always have more. */
  lemma {:induction false} Descent(more: nat -> bool, left: nat -> nat, step: nat, from: nat) returns (n: nat)
    requires step >= 1 && Falls(more, left, step)
    requires (forall i: nat :: i < from ==> more(i)) && left(from) + from * step <= left(0)
    ensures IsLast(more, left, step, n)
    decreases left(from)
  {
    if more(from) {
      assert (from + 1) * step == from * step + step;
      n := Descent(more, left, step, from + 1);
    } else {
      n := from;
    }
  }

  lemma {:induction false} NothingPulledYet(d: Device, rows: Rows, times: nat -> nat, s: Settings)
    ensures LeftAfter(d, rows, times, s, 0) == Left(d, rows)
  {
  }

  function MoreOf(d: Device, rows: Rows, times: nat -> nat, s: Settings): nat -> bool
  {
    (n: nat) => MoreAfter(d, rows, times, s, n)
  }

  function LeftOf(d: Device, rows: Rows, times: nat -> nat, s: Settings): nat -> nat
  {
    (n: nat) => LeftAfter(d, rows, times, s, n)
  }

  lemma {:induction false} LeftFalls(d: Device, rows: Rows, times: nat -> nat, s: Settings, i: nat)
    requires MoreOf(d, rows, times, s)(i)
    ensures LeftOf(d, rows, times, s)(i + 1) + s.limit <= LeftOf(d, rows, times, s)(i)
  {
    EachRoundDelivers(d, rows, times, s, i);
  }

  lemma {:induction false} LeftAlwaysFalls(d: Device, rows: Rows, times: nat -> nat, s: Settings)
    ensures Falls(MoreOf(d, rows, times, s), LeftOf(d, rows, times, s), s.limit)
  {
    var more, left := MoreOf(d, rows, times, s), LeftOf(d, rows, times, s);
    forall i: nat | more(i) ensures left(i + 1) + s.limit <= left(i) { LeftFalls(d, rows, times, s, i); }
  }

  lemma {:induction false} SomePullIsLast(d: Device, rows: Rows, times: nat -> nat, s: Settings) returns (n: nat)
    requires s.limit >= 1
    ensures IsLast(MoreOf(d, rows, times, s), LeftOf(d, rows, times, s), s.limit, n)
  {
    LeftAlwaysFalls(d, rows, times, s);
    n := Descent(MoreOf(d, rows, times, s), LeftOf(d, rows, times, s), s.limit, 0);
  }

  /** With a page size of at least one, some pull reports that there is nothing more. */
  lemma {:induction false} PullingEnds(d: Device, rows: Rows, times: nat -> nat, s: Settings) returns (n: nat)
    requires s.limit >= 1
    ensures n * s.limit <= Left(d, rows)
    ensures !MoreAfter(d, rows, times, s, n)
    ensures forall i: nat :: i < n ==> MoreAfter(d, rows, times, s, i)
  {
    n := SomePullIsLast(d, rows, times, s);
    forall i: nat | i < n ensures MoreAfter(d, rows, times, s, i) { assert MoreOf(d, rows, times, s)(i); }
    NothingPulledYet(d, rows, times, s);
  }

  lemma {:induction false} EmptyPages(d: Device, rows: Rows, now: nat, s: Settings)
    requires s.limit == 0
    ensures HasMore(d, rows, now, s) && Unseen(Pulled(d, rows, now, s), rows) == Unseen(d, rows)
  {
    assert Full(d, rows, ALL[0], now, s);
    forall k | k in rows ensures Passed(Pulled(d, rows, now, s), rows, k) == Passed(d, rows, k) {
      PullOneRow(d, rows, now, s, k);
      assert PageOf(d, rows, k.table, now, s) == [];
    }
  }

  /** A page size of zero reports more for ever and delivers nothing. */
  lemma {:induction false} EmptyPagesNeverEnd(d: Device, rows: Rows, times: nat -> nat, s: Settings, n: nat)
    requires s.limit == 0
    ensures HasMore(Rounds(d, rows, times, s, n), rows, times(n), s)
    ensures Unseen(Rounds(d, rows, times, s, n), rows) == Unseen(d, rows)
  {
    EmptyPages(Rounds(d, rows, times, s, n), rows, times(n), s);
    if n > 0 {
      EmptyPagesNeverEnd(d, rows, times, s, n - 1);
      EmptyPages(Rounds(d, rows, times, s, n - 1), rows, times(n - 1), s);
    }
  }

  // ----- What the device ends up with -----

  predicate Settled(row: Row, now: nat, s: Settings)
  {
    row.at + s.window < now
  }

  /** A delivered row is held as shown and passed; any other row stays as it was. */
  predicate Tracks(d: Device, after: Device, rows: Rows, s: Settings, k: Key, delivered: bool)
  {
    if delivered
    then k in rows && Held(after, k) == Some(Shown(k, rows[k], s.seesCosts)) && Passed(after, rows, k)
         && !Passed(d, rows, k)
    else Held(after, k) == Held(d, k) && (k in rows ==> (Passed(after, rows, k) <==> Passed(d, rows, k)))
  }

  lemma {:induction false} PullTracks(d: Device, e: Device, rows: Rows, now: nat, s: Settings, k: Key, delivered: bool)
    requires Tracks(d, e, rows, s, k, delivered)
    ensures Tracks(d, Pulled(e, rows, now, s), rows, s, k, delivered || k in PageOf(e, rows, k.table, now, s))
  {
    PullOneRow(e, rows, now, s, k);
    if k in PageOf(e, rows, k.table, now, s) { PageIsSound(e, rows, k.table, now, s, k); }
  }

  lemma {:induction false} LogGrows(
      d: Device, rows: Rows, times: nat -> nat, s: Settings, table: Table, n: nat, k: Key)
    requires n > 0
    ensures k in Log(d, rows, times, s, table, n) <==>
        k in Log(d, rows, times, s, table, n - 1) ||
        k in PageOf(Rounds(d, rows, times, s, n - 1), rows, table, times(n - 1), s)
  {
  }

  lemma {:induction false} RoundsOneRow(d: Device, rows: Rows, times: nat -> nat, s: Settings, n: nat, k: Key)
    ensures Tracks(d, Rounds(d, rows, times, s, n), rows, s, k, k in Log(d, rows, times, s, k.table, n))
  {
    if n > 0 {
      RoundsOneRow(d, rows, times, s, n - 1, k);
      PullTracks(d, Rounds(d, rows, times, s, n - 1), rows, times(n - 1), s, k,
          k in Log(d, rows, times, s, k.table, n - 1));
      LogGrows(d, rows, times, s, k.table, n, k);
    }
  }

  lemma {:induction false} DeliveredWhenSettled(d: Device, rows: Rows, times: nat -> nat, s: Settings, n: nat, k: Key)
    requires Forward(times) && k in Log(d, rows, times, s, k.table, n + 1)
    ensures k in rows && !Withheld(k.table, s.seesCosts) && Settled(rows[k], times(n), s)
  {
    var before := Rounds(d, rows, times, s, n);
    if k in PageOf(before, rows, k.table, times(n), s) {
      PageIsSound(before, rows, k.table, times(n), s, k);
    } else {
      assert n > 0;
      DeliveredWhenSettled(d, rows, times, s, n - 1, k);
      assert times(n - 1) <= times(n);
    }
  }

  /** A pull that reports no more has brought every settled row the device had not passed. */
  lemma {:induction false} LastPullCatchesUp(d: Device, rows: Rows, now: nat, s: Settings, k: Key)
    requires !HasMore(d, rows, now, s)
    requires k in rows && !Withheld(k.table, s.seesCosts) && Settled(rows[k], now, s)
    ensures Passed(Pulled(d, rows, now, s), rows, k)
  {
    PullOneRow(d, rows, now, s, k);
    if !Passed(d, rows, k) {
      assert ALL[IndexOf(k.table)] == k.table && !Full(d, rows, k.table, now, s);
      ShortPageIsWhole(rows, Pending(rows, k.table, MarkOf(d.marks, k.table), now, s.window), k.table, s.limit, k);
    }
  }

  /** Once a pull reports no more, what was delivered is exactly what was settled and not yet passed. */
  lemma {:induction false} DeliveredIffSettled(d: Device, rows: Rows, times: nat -> nat, s: Settings, n: nat, k: Key)
    requires Forward(times) && !MoreAfter(d, rows, times, s, n)
    ensures k in Log(d, rows, times, s, k.table, n + 1)
       <==> k in rows && !Withheld(k.table, s.seesCosts) && !Passed(d, rows, k) && Settled(rows[k], times(n), s)
  {
    RoundsOneRow(d, rows, times, s, n + 1, k);
    if k in Log(d, rows, times, s, k.table, n + 1) {
      DeliveredWhenSettled(d, rows, times, s, n, k);
    } else if k in rows && !Withheld(k.table, s.seesCosts) && Settled(rows[k], times(n), s) {
      LastPullCatchesUp(Rounds(d, rows, times, s, n), rows, times(n), s, k);
    }
  }

  predicate Earlier(rows: Rows, k: Key, j: Key)
  {
    k in rows && j in rows && Position(rows, k).Before(Position(rows, j))
  }

  lemma {:induction false} LogIsOfTable(d: Device, rows: Rows, times: nat -> nat, s: Settings, table: Table, n: nat,
      k: Key)
    requires k in Log(d, rows, times, s, table, n)
    ensures k in rows && k.table == table
  {
    var before := Rounds(d, rows, times, s, n - 1);
    if k in PageOf(before, rows, table, times(n - 1), s) {
      PageIsSound(before, rows, table, times(n - 1), s, k);
    } else {
      LogIsOfTable(d, rows, times, s, table, n - 1, k);
    }
  }

  lemma {:induction false} NextPageIsLater(
      d: Device, rows: Rows, times: nat -> nat, s: Settings, table: Table, n: nat, k: Key, j: Key)
    requires k in Log(d, rows, times, s, table, n)
    requires j in PageOf(Rounds(d, rows, times, s, n), rows, table, times(n), s)
    ensures Earlier(rows, k, j)
  {
    LogIsOfTable(d, rows, times, s, table, n, k);
    RoundsOneRow(d, rows, times, s, n, k);
    PageIsSound(Rounds(d, rows, times, s, n), rows, table, times(n), s, j);
  }

  ghost predicate AllBefore(rows: Rows, a: seq<Key>, b: seq<Key>)
  {
    forall k, j {:trigger k in a, j in b} :: k in a && j in b ==> Earlier(rows, k, j)
  }

  lemma {:induction false} Chained(rows: Rows, a: seq<Key>, b: seq<Key>)
    requires Ascending(rows, a) && Ascending(rows, b) && AllBefore(rows, a, b)
    ensures Ascending(rows, a + b)
  {
    var c := a + b;
    forall i, j | 0 <= i < j < |c| ensures Position(rows, c[i]).Before(Position(rows, c[j])) {
      if i < |a| <= j {
        assert c[i] in a && c[j] in b;
      }
    }
  }

  /** A log that grows by ascending pages, each behind all that went before, ascends. */
  lemma {:induction false} GrowingLogAscends(rows: Rows, log: nat -> seq<Key>, page: nat -> seq<Key>, n: nat)
    requires log(0) == []
    requires forall i: nat {:trigger page(i)} :: log(i + 1) == log(i) + page(i)
    requires forall i: nat {:trigger page(i)} :: Ascending(rows, page(i)) && AllBefore(rows, log(i), page(i))
    ensures Ascending(rows, log(n))
  {
    if n > 0 {
      GrowingLogAscends(rows, log, page, n - 1);
      assert log(n - 1 + 1) == log(n - 1) + page(n - 1);
      Chained(rows, log(n - 1), page(n - 1));
    }
  }

  lemma {:induction false} LogBeforePage(d: Device, rows: Rows, times: nat -> nat, s: Settings, table: Table, n: nat)
    ensures AllBefore(rows, Log(d, rows, times, s, table, n), PageAfter(d, rows, times, s, table, n))
  {
    forall k, j | k in Log(d, rows, times, s, table, n) && j in PageAfter(d, rows, times, s, table, n)
      ensures Earlier(rows, k, j)
    {
      NextPageIsLater(d, rows, times, s, table, n, k, j);
    }
  }

  function PageAfter(d: Device, rows: Rows, times: nat -> nat, s: Settings, table: Table, n: nat): seq<Key>
  {
    PageOf(Rounds(d, rows, times, s, n), rows, table, times(n), s)
  }

  lemma {:induction false} PageAfterAscends(d: Device, rows: Rows, times: nat -> nat, s: Settings, table: Table, n: nat)
    ensures Ascending(rows, PageAfter(d, rows, times, s, table, n))
  {
    var e := Rounds(d, rows, times, s, n);
    OrderedPrefix(rows, Pending(rows, table, MarkOf(e.marks, table), times(n), s.window), table, s.limit);
  }

  /** Deliveries of a table come in strictly increasing order, across page ends and ties, so none twice. */
  lemma {:induction false} LogAscends(d: Device, rows: Rows, times: nat -> nat, s: Settings, table: Table, n: nat)
    ensures Ascending(rows, Log(d, rows, times, s, table, n))
  {
    var log := (i: nat) => Log(d, rows, times, s, table, i);
    var page := (i: nat) => PageAfter(d, rows, times, s, table, i);
    forall i: nat ensures log(i + 1) == log(i) + page(i) {
      assert Log(d, rows, times, s, table, i + 1) ==
          Log(d, rows, times, s, table, i) + PageAfter(d, rows, times, s, table, i);
    }
    forall i: nat ensures Ascending(rows, page(i)) && AllBefore(rows, log(i), page(i)) {
      PageAfterAscends(d, rows, times, s, table, i);
      LogBeforePage(d, rows, times, s, table, i);
    }
    GrowingLogAscends(rows, log, page, n);
    assert log(n) == Log(d, rows, times, s, table, n);
  }

  /** Staff without profit access get nothing of the withheld tables, and those marks stay put. */
  lemma {:induction false} WithheldStaysPut(d: Device, rows: Rows, times: nat -> nat, s: Settings, table: Table, n: nat)
    requires Withheld(table, s.seesCosts)
    ensures Log(d, rows, times, s, table, n) == []
    ensures MarkOf(Rounds(d, rows, times, s, n).marks, table) == MarkOf(d.marks, table)
  {
    if n > 0 {
      WithheldStaysPut(d, rows, times, s, table, n - 1);
      PullByTable(Rounds(d, rows, times, s, n - 1), rows, times(n - 1), s, Key(table, 0));
    }
  }

  /** The settled rows, as a reader of this kind may see them. */
  function Visible(rows: Rows, now: nat, s: Settings): Rows
  {
    map k | k in rows && !Withheld(k.table, s.seesCosts) && Settled(rows[k], now, s) :: Shown(k, rows[k], s.seesCosts)
  }

  /** A device whose marks are sound ends with every settled row and is otherwise unchanged. */
  lemma {:induction false} DeviceCatchesUp(
      d: Device, rows: Rows, times: nat -> nat, s: Settings, n: nat, k: Key, readers: set<bool>)
    requires Forward(times) && !MoreAfter(d, rows, times, s, n)
    requires Lossless(d, rows, readers) && s.seesCosts in readers
    ensures var after := Rounds(d, rows, times, s, n + 1);
      if k in Visible(rows, times(n), s) then Holds(after.copy, k, rows[k], readers) else Held(after, k) == Held(d, k)
  {
    RoundsOneRow(d, rows, times, s, n + 1, k);
    DeliveredIffSettled(d, rows, times, s, n, k);
  }

  lemma {:induction false} FreshRowAgrees(rows: Rows, times: nat -> nat, s: Settings, n: nat, k: Key)
    requires Forward(times) && !MoreAfter(FRESH, rows, times, s, n)
    requires k in rows ==> rows[k].at >= 1
    ensures Held(Rounds(FRESH, rows, times, s, n + 1), k)
         == if k in Visible(rows, times(n), s) then Some(Shown(k, rows[k], s.seesCosts)) else None
  {
    RoundsOneRow(FRESH, rows, times, s, n + 1, k);
    DeliveredIffSettled(FRESH, rows, times, s, n, k);
  }

  /** A new device ends with exactly the settled rows. */
  lemma {:induction false} FreshDeviceAgrees(rows: Rows, times: nat -> nat, s: Settings, n: nat)
    requires Forward(times) && !MoreAfter(FRESH, rows, times, s, n)
    requires forall k :: k in rows ==> rows[k].at >= 1
    ensures Rounds(FRESH, rows, times, s, n + 1).copy == Visible(rows, times(n), s)
  {
    var after := Rounds(FRESH, rows, times, s, n + 1);
    var settled := Visible(rows, times(n), s);
    forall k: Key ensures Held(after, k) == if k in settled then Some(settled[k]) else None {
      FreshRowAgrees(rows, times, s, n, k);
    }
    SameCopy(after, settled);
  }

  lemma {:induction false} SameCopy(d: Device, rows: Rows)
    requires forall k: Key {:trigger Held(d, k)} :: Held(d, k) == if k in rows then Some(rows[k]) else None
    ensures d.copy == rows
  {
    forall k: Key ensures (k in d.copy <==> k in rows) && (k in rows ==> d.copy[k] == rows[k]) {
      assert Held(d, k) == if k in rows then Some(rows[k]) else None;
    }
  }
}
