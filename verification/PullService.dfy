/** `SyncService::pull`: one page per table, the cursor moved on, costs blanked for some staff. */
module PullService {
  import opened Paging
  import opened Replica

  datatype Delivery = Delivery(key: Key, row: Row)

  /** The pages in the order of `ALL`, the cursor to come back with, and whether to come back at once. */
  datatype Answer = Answer(pages: seq<seq<Delivery>>, marks: Marks, hasMore: bool)

  function Unblanked(rows: Rows, page: seq<Key>): seq<Delivery>
    requires forall k :: k in page ==> k in rows
  {
    seq(|page|, i requires 0 <= i < |page| => assert page[i] in page; Delivery(page[i], rows[page[i]]))
  }

  function Blanked(page: seq<Delivery>): seq<Delivery>
  {
    seq(|page|, i requires 0 <= i < |page| => page[i].(row := page[i].row.(cost := 0)))
  }

  predicate KeysKnown(rows: Rows, page: seq<Key>)
  {
    forall k :: k in page ==> k in rows
  }

  /** What a reader of this kind is sent of a page. */
  function Sent(rows: Rows, page: seq<Key>, seesCosts: bool): seq<Delivery>
    requires KeysKnown(rows, page)
  {
    seq(|page|, i requires 0 <= i < |page| =>
        assert page[i] in page; Delivery(page[i], Shown(page[i], rows[page[i]], seesCosts)))
  }

  /** The device upserts one row after another. */
  function Upsert(copy: Rows, page: seq<Delivery>, n: nat): Rows
    requires n <= |page|
  {
    if n == 0 then copy else Upsert(copy, page, n - 1)[page[n - 1].key := page[n - 1].row]
  }

  function Apply(copy: Rows, pages: seq<seq<Delivery>>, n: nat): Rows
    requires n <= |pages|
  {
    if n == 0 then copy else Upsert(Apply(copy, pages, n - 1), pages[n - 1], |pages[n - 1]|)
  }

  lemma {:induction false} UpsertedNext(copy: Rows, rows: Rows, front: seq<Key>, k: Key, seesCosts: bool)
    requires KeysKnown(rows, front) && k in rows
    ensures KeysKnown(rows, front + [k])
    ensures Upserted(copy, rows, front + [k], seesCosts)
         == Upserted(copy, rows, front, seesCosts)[k := Shown(k, rows[k], seesCosts)]
  {
  }

  lemma {:induction false} UpsertIsUnion(copy: Rows, rows: Rows, page: seq<Key>, seesCosts: bool, n: nat)
    requires KeysKnown(rows, page) && n <= |page|
    ensures KeysKnown(rows, page[..n])
    ensures Upsert(copy, Sent(rows, page, seesCosts), n) == Upserted(copy, rows, page[..n], seesCosts)
  {
    if n == 0 {
      assert Upserted(copy, rows, page[..0], seesCosts) == copy;
    } else {
      var front, k := page[..n - 1], page[n - 1];
      UpsertIsUnion(copy, rows, page, seesCosts, n - 1);
      assert k in page && page[..n] == front + [k];
      var sent := Sent(rows, page, seesCosts);
      assert sent[n - 1] == Delivery(k, Shown(k, rows[k], seesCosts));
      assert Upsert(copy, sent, n) == Upsert(copy, sent, n - 1)[k := Shown(k, rows[k], seesCosts)];
      UpsertedNext(copy, rows, front, k, seesCosts);
    }
  }

  lemma {:induction false} PagesAreKnown(d: Device, rows: Rows, table: Table, now: nat, s: Settings)
    ensures KeysKnown(rows, PageOf(d, rows, table, now, s))
  {
    OrderedPrefix(rows, Pending(rows, table, MarkOf(d.marks, table), now, s.window), table, s.limit);
  }

  function PageSent(marks: Marks, rows: Rows, i: nat, now: nat, s: Settings): seq<Delivery>
    requires i < |ALL|
  {
    PagesAreKnown(Device(marks, map[]), rows, ALL[i], now, s);
    Sent(rows, PageOf(Device(marks, map[]), rows, ALL[i], now, s), s.seesCosts)
  }

  function PageFound(marks: Marks, rows: Rows, i: nat, now: nat, s: Settings): seq<Delivery>
    requires i < |ALL|
  {
    PagesAreKnown(Device(marks, map[]), rows, ALL[i], now, s);
    Unblanked(rows, PageOf(Device(marks, map[]), rows, ALL[i], now, s))
  }

  lemma {:induction false} BlankingIsSending(marks: Marks, rows: Rows, i: nat, now: nat, s: Settings)
    requires i < |ALL|
    ensures PageSent(marks, rows, i, now, s)
         == if s.seesCosts || ALL[i] == Expenses || ALL[i] == Withdrawals then PageFound(marks, rows, i, now, s)
            else Blanked(PageFound(marks, rows, i, now, s))
  {
    var page := PageOf(Device(marks, map[]), rows, ALL[i], now, s);
    PagesAreKnown(Device(marks, map[]), rows, ALL[i], now, s);
    forall j | 0 <= j < |page| ensures page[j].table == ALL[i] {
      PageIsSound(Device(marks, map[]), rows, ALL[i], now, s, page[j]);
    }
  }

  predicate PagesSent(pages: seq<seq<Delivery>>, marks: Marks, rows: Rows, now: nat, s: Settings)
  {
    |pages| == |ALL| && forall i :: 0 <= i < |ALL| ==> pages[i] == PageSent(marks, rows, i, now, s)
  }

  /** The answer is what one pull is specified to be. */
  predicate IsPull(a: Answer, marks: Marks, rows: Rows, now: nat, s: Settings)
  {
    && PagesSent(a.pages, marks, rows, now, s)
    && a.marks == Pulled(Device(marks, map[]), rows, now, s).marks
    && (a.hasMore <==> HasMore(Device(marks, map[]), rows, now, s))
  }

  lemma {:induction false} TableUntouched(d: Device, rows: Rows, now: nat, s: Settings, n: nat)
    requires n < |ALL|
    ensures MarkOf(AfterTables(d, rows, now, s, n).marks, ALL[n]) == MarkOf(d.marks, ALL[n])
  {
    OtherTurns(d, rows, now, s, n, Key(ALL[n], 0));
    assert IndexOf(ALL[n]) == n;
  }

  lemma {:induction false} MarksIgnoreCopy(d: Device, e: Device, rows: Rows, now: nat, s: Settings, n: nat)
    requires d.marks == e.marks && n <= |ALL|
    ensures AfterTables(d, rows, now, s, n).marks == AfterTables(e, rows, now, s, n).marks
  {
    if n > 0 {
      MarksIgnoreCopy(d, e, rows, now, s, n - 1);
    }
  }

  lemma {:induction false} ApplyIsCopy(d: Device, rows: Rows, now: nat, s: Settings, pages: seq<seq<Delivery>>, n: nat)
    requires PagesSent(pages, d.marks, rows, now, s) && n <= |ALL|
    ensures Apply(d.copy, pages, n) == AfterTables(d, rows, now, s, n).copy
  {
    if n > 0 {
      ApplyIsCopy(d, rows, now, s, pages, n - 1);
      TableUntouched(d, rows, now, s, n - 1);
      OneTableApplied(d.marks, AfterTables(d, rows, now, s, n - 1), rows, now, s, n - 1);
    }
  }

  /** A device that applies the answer is where the specification of a pull puts it. */
  lemma {:induction false} ApplyIsPulled(d: Device, rows: Rows, now: nat, s: Settings, a: Answer)
    requires IsPull(a, d.marks, rows, now, s)
    ensures Device(a.marks, Apply(d.copy, a.pages, |ALL|)) == Pulled(d, rows, now, s)
  {
    MarksIgnoreCopy(d, Device(d.marks, map[]), rows, now, s, |ALL|);
    ApplyIsCopy(d, rows, now, s, a.pages, |ALL|);
  }

  lemma {:induction false} OneTableApplied(marks: Marks, e: Device, rows: Rows, now: nat, s: Settings, i: nat)
    requires i < |ALL| && MarkOf(e.marks, ALL[i]) == MarkOf(marks, ALL[i])
    ensures var page := PageSent(marks, rows, i, now, s);
      Upsert(e.copy, page, |page|) == Turn(e, rows, ALL[i], now, s).copy
  {
    var page := PageOf(e, rows, ALL[i], now, s);
    PagesAreKnown(e, rows, ALL[i], now, s);
    UpsertIsUnion(e.copy, rows, page, s.seesCosts, |page|);
    assert page[..|page|] == page;
    if page == [] {
      assert Upserted(e.copy, rows, page, s.seesCosts) == e.copy;
    }
  }

  predicate IsFound(pages: seq<seq<Delivery>>, marks: Marks, rows: Rows, now: nat, s: Settings, n: nat)
    requires n <= |ALL|
  {
    |pages| == n && forall i :: 0 <= i < n ==> pages[i] == PageFound(marks, rows, i, now, s)
  }

  predicate AnyFull(d: Device, rows: Rows, now: nat, s: Settings, n: nat)
    requires n <= |ALL|
  {
    exists i :: 0 <= i < n && Full(d, rows, ALL[i], now, s)
  }

  lemma {:induction false} AnyFullNext(d: Device, rows: Rows, now: nat, s: Settings, n: nat)
    requires n < |ALL|
    ensures AnyFull(d, rows, now, s, n + 1) <==> AnyFull(d, rows, now, s, n) || Full(d, rows, ALL[n], now, s)
  {
  }

  /** Blanking the products, sales and movements of a reader without profit access gives what is sent. */
  lemma {:induction false} BlankedIsSent(
      found: seq<seq<Delivery>>, sent: seq<seq<Delivery>>, marks: Marks, rows: Rows, now: nat, s: Settings)
    requires IsFound(found, marks, rows, now, s, |ALL|)
    requires sent == if s.seesCosts then found
                     else [Blanked(found[0]), Blanked(found[1]), found[2], found[3], Blanked(found[4])]
    ensures PagesSent(sent, marks, rows, now, s)
  {
    forall i | 0 <= i < |ALL| ensures sent[i] == PageSent(marks, rows, i, now, s) {
      BlankingIsSending(marks, rows, i, now, s);
    }
  }

  /** In its turn a table still stands at the mark the pull began with. */
  lemma {:induction false} TurnFromMarks(marks: Marks, c: Device, e: Device, rows: Rows, now: nat, s: Settings, n: nat)
    requires n < |ALL| && e == AfterTables(Device(marks, map[]), rows, now, s, n)
    requires c == Device(e.marks, map[])
    ensures Turn(c, rows, ALL[n], now, s).marks == Turn(e, rows, ALL[n], now, s).marks
    ensures PageFound(c.marks, rows, n, now, s) == PageFound(marks, rows, n, now, s)
    ensures Full(c, rows, ALL[n], now, s) == Full(Device(marks, map[]), rows, ALL[n], now, s)
  {
    TableUntouched(Device(marks, map[]), rows, now, s, n);
  }

  // ----- What an answer shows -----

  /** The tables that staff without profit access are sent. */
  predicate ForStaff(table: Table) { table == Products || table == Sales || table == StockMovements }

  /** The store's version of the row, without its cost for a reader who may not see costs. */
  predicate AsStored(row: Row, stored: Row, seesCosts: bool)
  {
    row.at == stored.at && row.body == stored.body && row.cost == (if seesCosts then stored.cost else 0)
  }

  /** Every row is one of the store, in the page of its table, and shown as this reader may see it. */
  ghost predicate ShowsRows(a: Answer, rows: Rows, seesCosts: bool)
  {
    && |a.pages| == 5
    && (!seesCosts ==> a.pages[2] == [] && a.pages[3] == [])
    && forall i, j {:trigger a.pages[i][j]} :: 0 <= i < 5 && 0 <= j < |a.pages[i]| ==>
         && a.pages[i][j].key in rows
         && a.pages[i][j].key.table == [Products, Sales, Expenses, Withdrawals, StockMovements][i]
         && AsStored(a.pages[i][j].row, rows[a.pages[i][j].key], seesCosts)
  }

  lemma {:induction false} PageShowsRow(marks: Marks, rows: Rows, i: nat, j: nat, now: nat, s: Settings)
    requires i < |ALL| && j < |PageSent(marks, rows, i, now, s)|
    ensures var d := PageSent(marks, rows, i, now, s)[j];
      d.key in rows && d.key.table == ALL[i] && AsStored(d.row, rows[d.key], s.seesCosts)
  {
    var page := PageOf(Device(marks, map[]), rows, ALL[i], now, s);
    PagesAreKnown(Device(marks, map[]), rows, ALL[i], now, s);
    assert page[j] in page;
    PageIsSound(Device(marks, map[]), rows, ALL[i], now, s, page[j]);
  }

  lemma {:induction false} PullShowsRows(a: Answer, marks: Marks, rows: Rows, now: nat, s: Settings)
    requires IsPull(a, marks, rows, now, s)
    ensures ShowsRows(a, rows, s.seesCosts)
  {
    assert a.pages[2] == PageSent(marks, rows, 2, now, s) && a.pages[3] == PageSent(marks, rows, 3, now, s);
    forall i, j | 0 <= i < 5 && 0 <= j < |a.pages[i]|
      ensures a.pages[i][j].key in rows && a.pages[i][j].key.table == ALL[i]
      ensures AsStored(a.pages[i][j].row, rows[a.pages[i][j].key], s.seesCosts)
    {
      assert a.pages[i] == PageSent(marks, rows, i, now, s);
      PageShowsRow(marks, rows, i, j, now, s);
    }
  }

  // ----- The service -----

  /** One more turn of the loop, from what the turns before it found. */
  lemma {:induction false} PagesGrow(
      pages: seq<seq<Delivery>>, page: seq<Delivery>, marks: Marks, cursor: Marks, next: Marks, more: bool, full: bool,
      rows: Rows, now: nat, s: Settings, n: nat)
    requires n < |ALL| && IsFound(pages, marks, rows, now, s, n)
    requires var d, c := Device(marks, map[]), Device(cursor, map[]);
      && cursor == AfterTables(d, rows, now, s, n).marks && (more <==> AnyFull(d, rows, now, s, n))
      && page == PageFound(cursor, rows, n, now, s) && next == Turn(c, rows, ALL[n], now, s).marks
      && (full <==> Full(c, rows, ALL[n], now, s))
    ensures var d := Device(marks, map[]);
      && IsFound(pages + [page], marks, rows, now, s, n + 1)
      && next == AfterTables(d, rows, now, s, n + 1).marks && (more || full <==> AnyFull(d, rows, now, s, n + 1))
  {
    var d := Device(marks, map[]);
    TurnFromMarks(marks, Device(cursor, map[]), AfterTables(d, rows, now, s, n), rows, now, s, n);
    AnyFullNext(d, rows, now, s, n);
  }

  class SyncService {
    var rows: Rows
    const window: nat
    const pageSize: nat

    constructor (rows: Rows, window: nat, pageSize: nat)
      ensures this.rows == rows && this.window == window && this.pageSize == pageSize
    {
      this.rows, this.window, this.pageSize := rows, window, pageSize;
    }

    /** `zero_field` on the cost column. */
    static method ZeroCosts(page: seq<Delivery>) returns (blanked: seq<Delivery>)
      ensures blanked == Blanked(page)
      ensures forall j :: 0 <= j < |page| ==>
        blanked[j].key == page[j].key && AsStored(blanked[j].row, page[j].row, false)
    {
      blanked := page;
      for i := 0 to |page|
        invariant |blanked| == |page|
        invariant forall j :: 0 <= j < |page| ==> blanked[j] == if j < i then Blanked(page)[j] else page[j]
      {
        blanked := blanked[i := blanked[i].(row := blanked[i].row.(cost := 0))];
      }
    }

    /** One turn of the loop over the tables, before anything is blanked. */
    method TakePage(n: nat, marks: Marks, seesCosts: bool, now: nat)
      returns (page: seq<Delivery>, cursor: Marks, full: bool)
      requires n < |ALL|
      ensures var s := Settings(window, pageSize, seesCosts);
        && page == PageFound(marks, rows, n, now, s)
        && cursor == Turn(Device(marks, map[]), rows, ALL[n], now, s).marks
        && (full <==> Full(Device(marks, map[]), rows, ALL[n], now, s))
    {
      if Withheld(ALL[n], seesCosts) {
        return [], marks, false;
      }
      var keys := Page(rows, ALL[n], MarkOf(marks, ALL[n]), now, window, pageSize);
      PagesAreKnown(Device(marks, map[]), rows, ALL[n], now, Settings(window, pageSize, seesCosts));
      full := |keys| >= pageSize;
      cursor := if keys == [] then marks else marks[ALL[n] := Position(rows, keys[|keys| - 1])];
      page := Unblanked(rows, keys);
    }

    method TakePages(marks: Marks, seesCosts: bool, now: nat)
      returns (pages: seq<seq<Delivery>>, cursor: Marks, hasMore: bool)
      ensures IsFound(pages, marks, rows, now, Settings(window, pageSize, seesCosts), |ALL|)
      ensures cursor == Pulled(Device(marks, map[]), rows, now, Settings(window, pageSize, seesCosts)).marks
      ensures hasMore <==> HasMore(Device(marks, map[]), rows, now, Settings(window, pageSize, seesCosts))
    {
      ghost var s := Settings(window, pageSize, seesCosts);
      ghost var d := Device(marks, map[]);
      cursor, hasMore, pages := marks, false, [];

      for n := 0 to |ALL|
        invariant cursor == AfterTables(d, rows, now, s, n).marks
        invariant hasMore <==> AnyFull(d, rows, now, s, n)
        invariant IsFound(pages, marks, rows, now, s, n)
      {
        var page, next, full := TakePage(n, cursor, seesCosts, now);
        PagesGrow(pages, page, marks, cursor, next, hasMore, full, rows, now, s, n);
        cursor := next;
        hasMore := hasMore || full;
        pages := pages + [page];
      }
    }

    method Pull(marks: Marks, seesCosts: bool, now: nat) returns (a: Answer)
      ensures IsPull(a, marks, rows, now, Settings(window, pageSize, seesCosts))
      ensures ShowsRows(a, rows, seesCosts)
    {
      var pages, cursor, hasMore := TakePages(marks, seesCosts, now);
      ghost var found := pages;
      if !seesCosts {
        var products := ZeroCosts(pages[0]);
        var sales := ZeroCosts(pages[1]);
        var movements := ZeroCosts(pages[4]);
        pages := [products, sales, pages[2], pages[3], movements];
      }
      BlankedIsSent(found, pages, marks, rows, now, Settings(window, pageSize, seesCosts));
      a := Answer(pages, cursor, hasMore);
      PullShowsRows(a, marks, rows, now, Settings(window, pageSize, seesCosts));
    }
  }
}
