/**
 One page of a pull: keyset pagination on `(updated_at, id)`, per table, held back by a settle
 window. A device keeps one mark per table and upserts what it is given.
 */
module Paging {
  import opened Prelude

  datatype Table = Products | Sales | Expenses | Withdrawals | StockMovements

  const ALL: seq<Table> := [Products, Sales, Expenses, Withdrawals, StockMovements]

  /** Staff who may not see profit get no rows of these. */
  predicate Withheld(table: Table, seesCosts: bool)
  {
    !seesCosts && (table == Expenses || table == Withdrawals)
  }

  datatype Key = Key(table: Table, id: Id)

  /** One version of a row; `at` is its `updated_at`, `cost` the field hidden from staff. */
  datatype Row = Row(at: nat, body: string, cost: int)

  /** A position within a table, and the order PostgreSQL gives `(updated_at, id)` pairs. */
  datatype Mark = Mark(at: nat, id: Id) {

    predicate Before(other: Mark)
    {
      at < other.at || (at == other.at && id < other.id)
    }
  }

  const ORIGIN := Mark(0, 0)

  type Rows = map<Key, Row>

  function Position(rows: Rows, k: Key): Mark
    requires k in rows
  {
    Mark(rows[k].at, k.id)
  }

  /** `SyncCursor`: where a device is up to, table by table. */
  type Marks = map<Table, Mark>

  function MarkOf(marks: Marks, table: Table): Mark
  {
    if table in marks then marks[table] else ORIGIN
  }

  /** The WHERE clause of `page_query`: past the mark and older than the window at `now`. */
  function Pending(rows: Rows, table: Table, after: Mark, now: nat, window: nat): set<Key>
  {
    set k | k in rows && k.table == table && after.Before(Position(rows, k)) && rows[k].at + window < now
  }

  predicate Leads(rows: Rows, keys: set<Key>, k: Key)
    requires keys <= rows.Keys
  {
    k in keys && forall j :: j in keys && j != k ==> Position(rows, k).Before(Position(rows, j))
  }

  predicate OfOneTable(keys: set<Key>, table: Table)
  {
    forall k :: k in keys ==> k.table == table
  }

  lemma {:induction false} SomeKeyLeads(rows: Rows, keys: set<Key>, table: Table)
    requires keys <= rows.Keys && keys != {} && OfOneTable(keys, table)
    ensures exists k :: k in keys && Leads(rows, keys, k)
    decreases |keys|
  {
    var k :| k in keys;
    var rest := keys - {k};
    if rest == {} {
      assert keys == {k};
      assert Leads(rows, keys, k);
    } else {
      SomeKeyLeads(rows, rest, table);
      var other :| other in rest && Leads(rows, rest, other);
      assert Leads(rows, keys, if Position(rows, other).Before(Position(rows, k)) then other else k);
    }
  }

  function First(rows: Rows, keys: set<Key>, table: Table): (first: Key)
    requires keys <= rows.Keys && keys != {} && OfOneTable(keys, table)
    ensures Leads(rows, keys, first)
  {
    SomeKeyLeads(rows, keys, table);
    assert forall a, b :: Leads(rows, keys, a) && Leads(rows, keys, b) ==> a == b;
    var k :| k in keys && Leads(rows, keys, k);
    k
  }

  /** ORDER BY updated_at, id LIMIT `limit`. */
  function InOrder(rows: Rows, keys: set<Key>, table: Table, limit: nat): seq<Key>
    requires keys <= rows.Keys && OfOneTable(keys, table)
    decreases limit
  {
    if limit == 0 || keys == {} then []
    else
      var k := First(rows, keys, table);
      [k] + InOrder(rows, keys - {k}, table, limit - 1)
  }

  ghost predicate Ascending(rows: Rows, page: seq<Key>)
  {
    && (forall i :: 0 <= i < |page| ==> page[i] in rows)
    && (forall i, j :: 0 <= i < j < |page| ==> Position(rows, page[i]).Before(Position(rows, page[j])))
  }

  lemma {:induction false} OrderedPrefix(rows: Rows, keys: set<Key>, table: Table, limit: nat)
    requires keys <= rows.Keys && OfOneTable(keys, table)
    ensures var page := InOrder(rows, keys, table, limit);
      && (forall k :: k in page ==> k in keys)
      && Ascending(rows, page)
      && |page| == (if |keys| < limit then |keys| else limit)
    decreases limit
  {
    if limit > 0 && keys != {} {
      var k := First(rows, keys, table);
      var page := InOrder(rows, keys - {k}, table, limit - 1);
      OrderedPrefix(rows, keys - {k}, table, limit - 1);
      forall i | 0 <= i < |page| ensures Position(rows, k).Before(Position(rows, page[i])) {
        assert page[i] in page;
      }
    }
  }

  /** Whatever a page leaves out comes after everything it holds. */
  lemma {:induction false} RestComesLater(rows: Rows, keys: set<Key>, table: Table, limit: nat, left: Key, got: Key)
    requires keys <= rows.Keys && OfOneTable(keys, table)
    requires left in keys && left !in InOrder(rows, keys, table, limit)
    requires got in InOrder(rows, keys, table, limit)
    ensures got in keys && Position(rows, got).Before(Position(rows, left))
    decreases limit
  {
    var k := First(rows, keys, table);
    if got != k {
      RestComesLater(rows, keys - {k}, table, limit - 1, left, got);
    }
  }

  /** `SyncRepository::changed_since`. */
  function Page(rows: Rows, table: Table, after: Mark, now: nat, window: nat, limit: nat): seq<Key>
  {
    InOrder(rows, Pending(rows, table, after, now, window), table, limit)
  }

  /** What of a row staff without profit access are shown. */
  function Shown(k: Key, row: Row, seesCosts: bool): Row
  {
    if seesCosts || k.table == Expenses || k.table == Withdrawals then row else row.(cost := 0)
  }

  /** A device: its cursor, and its copy of the rows. */
  datatype Device = Device(marks: Marks, copy: Rows)

  const FRESH := Device(map[], map[])

  function Upserted(copy: Rows, rows: Rows, page: seq<Key>, seesCosts: bool): Rows
    requires forall k :: k in page ==> k in rows
  {
    copy + map k | k in page :: Shown(k, rows[k], seesCosts)
  }

  /** One turn of the loop in `SyncService::pull`, as the device that applies the answer sees it. */
  function AfterPage(d: Device, rows: Rows, table: Table, now: nat, window: nat, limit: nat, seesCosts: bool): Device
  {
    if Withheld(table, seesCosts) then d
    else
      var page := Page(rows, table, MarkOf(d.marks, table), now, window, limit);
      OrderedPrefix(rows, Pending(rows, table, MarkOf(d.marks, table), now, window), table, limit);
      Device(if page == [] then d.marks else d.marks[table := Position(rows, page[|page| - 1])],
             Upserted(d.copy, rows, page, seesCosts))
  }

  /** The device holds this version, as a reader of one of these kinds is shown it: `true` for one who sees costs. */
  predicate Holds(copy: Rows, k: Key, row: Row, readers: set<bool>)
  {
    k in copy && exists sees | sees in readers :: copy[k] == Shown(k, row, sees)
  }

  predicate Passed(d: Device, rows: Rows, k: Key)
    requires k in rows
  {
    !MarkOf(d.marks, k.table).Before(Position(rows, k))
  }

  /** Nothing at or below a mark is missing from the copy or out of date. */
  ghost predicate Lossless(d: Device, rows: Rows, readers: set<bool>)
  {
    forall k {:trigger k in rows} :: k in rows && Passed(d, rows, k) ==> Holds(d.copy, k, rows[k], readers)
  }

  /** What one page does to the rows of its own table. */
  lemma {:induction false} PageMoves(d: Device, rows: Rows, table: Table, now: nat, window: nat, limit: nat,
      seesCosts: bool, k: Key)
    requires !Withheld(table, seesCosts) && k in rows && k.table == table
    ensures var after := AfterPage(d, rows, table, now, window, limit, seesCosts);
      var page := Page(rows, table, MarkOf(d.marks, table), now, window, limit);
      && (k in page ==> after.copy[k] == Shown(k, rows[k], seesCosts) && Passed(after, rows, k))
      && (k !in page ==> (Passed(after, rows, k) <==> Passed(d, rows, k)))
      && (Passed(d, rows, k) ==> k !in page && Passed(after, rows, k))
  {
    var mark := MarkOf(d.marks, table);
    var keys := Pending(rows, table, mark, now, window);
    var page := Page(rows, table, mark, now, window, limit);
    OrderedPrefix(rows, keys, table, limit);
    if page != [] {
      var last := page[|page| - 1];
      assert last in keys;
      if k in page {
        var i :| 0 <= i < |page| && page[i] == k;
        assert i == |page| - 1 || Position(rows, page[i]).Before(Position(rows, last));
      } else if k in keys {
        RestComesLater(rows, keys, table, limit, k, last);
      } else if mark.Before(Position(rows, k)) {
        assert rows[k].at + window >= now && rows[last].at + window < now;
      }
    }
  }

  lemma {:induction false} PageKeepsLossless(d: Device, rows: Rows, table: Table, now: nat, window: nat, limit: nat,
      seesCosts: bool, readers: set<bool>)
    requires Lossless(d, rows, readers) && seesCosts in readers
    ensures Lossless(AfterPage(d, rows, table, now, window, limit, seesCosts), rows, readers)
  {
    if Withheld(table, seesCosts) { return; }
    var after := AfterPage(d, rows, table, now, window, limit, seesCosts);
    var page := Page(rows, table, MarkOf(d.marks, table), now, window, limit);
    OrderedPrefix(rows, Pending(rows, table, MarkOf(d.marks, table), now, window), table, limit);
    forall k | k in rows && Passed(after, rows, k) ensures Holds(after.copy, k, rows[k], readers) {
      if k.table == table {
        PageMoves(d, rows, table, now, window, limit, seesCosts, k);
      } else {
        assert k !in Pending(rows, table, MarkOf(d.marks, table), now, window);
        assert Passed(d, rows, k);
      }
    }
  }

  /** A mark stays where it was or moves onto a row older than the window. */
  lemma {:induction false} MarkIsSettled(
      d: Device, rows: Rows, table: Table, now: nat, window: nat, limit: nat, seesCosts: bool, other: Table)
    ensures var before, after :=
        MarkOf(d.marks, other), MarkOf(AfterPage(d, rows, table, now, window, limit, seesCosts).marks, other);
      after == before || (other == table && before.Before(after) && after.at + window < now)
  {
    var keys := Pending(rows, table, MarkOf(d.marks, table), now, window);
    var page := InOrder(rows, keys, table, limit);
    OrderedPrefix(rows, keys, table, limit);
    assert page != [] ==> page[|page| - 1] in page;
  }
}
