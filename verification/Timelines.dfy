/**
 The order a push applies its sales and stock movements in, and what a timeline of rows the server
 has not seen does to a product: the last count, and what happened after it.
 */
module Timelines {
  import opened Prelude
  import opened Ledger
  import opened Books
  import opened Replay
  import StableSort

  // ----- The order -----

  function SaleRows(b: Batch): seq<Row>
  {
    seq(|b.sales|, i requires 0 <= i < |b.sales| => SaleRow(b.sales[i]))
  }

  function MovementRows(b: Batch): seq<Row>
  {
    seq(|b.movements|, i requires 0 <= i < |b.movements| => MovementRow(b.movements[i]))
  }

  lemma {:induction false} GroupsJoin<T>(xs: seq<T>, ys: seq<T>, key: T -> int, k: int)
    ensures StableSort.WithKey(xs + ys, key, k) == StableSort.WithKey(xs, key, k) + StableSort.WithKey(ys, key, k)
  {
    if ys == [] {
      assert xs + ys == xs;
    } else {
      assert (xs + ys)[..|xs + ys| - 1] == xs + ys[..|ys| - 1];
      GroupsJoin(xs, ys[..|ys| - 1], key, k);
    }
  }

  /**
   The timeline holds the queued rows, earliest first; rows of one moment stand as they were sent,
   sales before movements.
   */
  lemma {:induction false} TimelineIsStable(b: Batch, now: int)
    ensures var key := (row: Row) => OccurredAt(row, now);
      && StableSort.Ordered(Timeline(b, now), key)
      && multiset(Timeline(b, now)) == multiset(SaleRows(b)) + multiset(MovementRows(b))
      && forall t :: StableSort.WithKey(Timeline(b, now), key, t)
           == StableSort.WithKey(SaleRows(b), key, t) + StableSort.WithKey(MovementRows(b), key, t)
  {
    var key := (row: Row) => OccurredAt(row, now);
    StableSort.SortIsStable(Queued(b), key);
    assert Queued(b) == SaleRows(b) + MovementRows(b);
    forall t ensures StableSort.WithKey(Timeline(b, now), key, t)
      == StableSort.WithKey(SaleRows(b), key, t) + StableSort.WithKey(MovementRows(b), key, t)
    {
      GroupsJoin(SaleRows(b), MovementRows(b), key, t);
    }
  }

  /** No other order has these properties. */
  lemma {:induction false} TimelineIsTheOnlyOne(b: Batch, now: int, rows: seq<Row>)
    requires var key := (row: Row) => OccurredAt(row, now);
      && StableSort.Ordered(rows, key)
      && forall t :: StableSort.WithKey(rows, key, t)
           == StableSort.WithKey(SaleRows(b), key, t) + StableSort.WithKey(MovementRows(b), key, t)
    ensures rows == Timeline(b, now)
  {
    var key := (row: Row) => OccurredAt(row, now);
    TimelineIsStable(b, now);
    StableSort.StableSortIsUnique(rows, Timeline(b, now), key);
  }

  // ----- What a timeline does to a product -----

  predicate IsCount(e: Event, p: Id)
  {
    e.row.MovementRow? && e.row.movement.product == p && e.row.movement.kind == Adjustment
  }

  /** What a row that is not a count adds to the stock of `p`. */
  function Delta(e: Event, p: Id): int
  {
    match e.row
    case SaleRow(r) => -LineSum(Prepared(e.store, r).lines, p)
    case MovementRow(r) =>
      if r.product != p then 0
      else if r.kind == StockIn then r.quantity
      else if r.kind == StockOut || r.kind == Spoilage then -r.quantity
      else 0
    case _ => 0
  }

  function DeltaSum(es: seq<Event>, lo: nat, hi: nat, p: Id): int
    requires lo <= hi <= |es|
  {
    if lo == hi then 0 else DeltaSum(es, lo, hi - 1, p) + Delta(es[hi - 1], p)
  }

  /** A row that `s` would accept and has not seen. */
  predicate Fresh(s: State, e: Event)
  {
    match e.row
    case SaleRow(r) =>
      r.payment in ALLOWED_PAYMENT_METHODS && LinesError(s, e.store, r.lines).None? && r.id !in s.sales
    case MovementRow(r) =>
      && MovementRefusal(e.actor, r).None? && ProductLive(s, e.store, r.product)
      && !HasMovement(s.movements, Device(r.id))
    case _ => false
  }

  predicate SameId(a: Row, b: Row)
  {
    || (a.SaleRow? && b.SaleRow? && a.sale.id == b.sale.id)
    || (a.MovementRow? && b.MovementRow? && a.movement.id == b.movement.id)
  }

  predicate AllFresh(s: State, es: seq<Event>)
  {
    && (forall i :: 0 <= i < |es| ==> Fresh(s, es[i]))
    && (forall i, j :: 0 <= i < j < |es| ==> !SameId(es[i].row, es[j].row))
  }

  lemma {:induction false} WrittenStock(s: State, sale: PreparedSale, n: nat, p: Id)
    requires n <= |sale.lines| && ProductsKnown(s, sale.store, sale.lines) && p in s.products
    ensures p in Written(s, sale, n).products
    ensures Written(s, sale, n).products[p].stock == s.products[p].stock - LinesTo(sale.lines, n, p)
  {
    if n > 0 {
      WrittenStock(s, sale, n - 1, p);
      WrittenFrame(s, sale, n - 1);
      assert LineKnown(s, sale.store, sale.lines[n - 1]);
    }
  }

  /** One fresh row moves stock by its delta, or sets it to what was counted. */
  lemma {:induction false} FreshRowStock(s: State, e: Event, p: Id)
    requires Fresh(s, e) && p in s.products
    ensures p in Apply(s, e).products
    ensures Apply(s, e).products[p].stock ==
      if IsCount(e, p) then e.row.movement.quantity else s.products[p].stock + Delta(e, p)
  {
    if e.row.SaleRow? {
      var sale := Prepared(e.store, e.row.sale);
      AcceptedLinesKnown(s, e.store, e.row.sale);
      LinesCarry(s, Cleared(s, sale, RecorderOf(e.actor)), e.store, sale.lines);
      WrittenStock(Cleared(s, sale, RecorderOf(e.actor)), sale, |sale.lines|, p);
    }
  }

  lemma {:induction false} StaysFresh(s: State, e: Event, later: Event)
    requires Fresh(s, e) && Fresh(s, later) && !SameId(e.row, later.row)
    ensures Fresh(Apply(s, e), later)
  {
    TimelineRowFrame(s, e);
    if later.row.SaleRow? {
      SameLinesError(s, Apply(s, e), later.store, later.row.sale.lines);
      if e.row.SaleRow? {
        SaleItems(s, Prepared(e.store, e.row.sale), RecorderOf(e.actor));
      }
    } else {
      FreshIdStays(s, e, later.row.movement.id);
    }
  }

  lemma {:induction false} FreshIdStays(s: State, e: Event, id: Id)
    requires Fresh(s, e) && !HasMovement(s.movements, Device(id))
    requires e.row.MovementRow? ==> e.row.movement.id != id
    ensures !HasMovement(Apply(s, e).movements, Device(id))
  {
    if e.row.SaleRow? {
      var sale := Prepared(e.store, e.row.sale);
      MintedOnly(Cleared(s, sale, RecorderOf(e.actor)), sale, |sale.lines|, id);
    }
  }

  lemma {:induction false} MintedOnly(s: State, sale: PreparedSale, n: nat, id: Id)
    requires n <= |sale.lines| && !HasMovement(s.movements, Device(id))
    ensures !HasMovement(Written(s, sale, n).movements, Device(id))
  {
    if n > 0 { MintedOnly(s, sale, n - 1, id); }
  }

  lemma {:induction false} RestFresh(s: State, es: seq<Event>)
    requires AllFresh(s, es) && es != []
    ensures AllFresh(Apply(s, es[0]), es[1..])
  {
    forall i | 0 <= i < |es[1..]| ensures Fresh(Apply(s, es[0]), es[1..][i]) {
      assert !SameId(es[0].row, es[i + 1].row);
      StaysFresh(s, es[0], es[i + 1]);
    }
    forall i, j | 0 <= i < j < |es[1..]| ensures !SameId(es[1..][i].row, es[1..][j].row) {
      assert !SameId(es[i + 1].row, es[j + 1].row);
    }
  }

  lemma {:induction false} RunFromFront(s: State, es: seq<Event>)
    requires es != []
    ensures Run(s, es) == Run(Apply(s, es[0]), es[1..])
  {
    assert es == [es[0]] + es[1..];
    RunSplits(s, [es[0]], es[1..]);
    assert [es[0]][..0] == [];
  }

  lemma {:induction false} DeltaSumShift(es: seq<Event>, lo: nat, hi: nat, p: Id)
    requires 0 < lo <= hi <= |es|
    ensures DeltaSum(es, lo, hi, p) == DeltaSum(es[1..], lo - 1, hi - 1, p)
  {
    if lo < hi { DeltaSumShift(es, lo, hi - 1, p); }
  }

  lemma {:induction false} DeltaSumFront(es: seq<Event>, hi: nat, p: Id)
    requires 0 < hi <= |es|
    ensures DeltaSum(es, 0, hi, p) == Delta(es[0], p) + DeltaSum(es, 1, hi, p)
  {
    if hi > 1 { DeltaSumFront(es, hi - 1, p); }
  }

  /** When nobody counted, every change is there. */
  lemma {:induction false} StockWithoutCount(s: State, es: seq<Event>, p: Id)
    requires AllFresh(s, es) && p in s.products
    requires forall i :: 0 <= i < |es| ==> !IsCount(es[i], p)
    ensures p in Run(s, es).products
    ensures Run(s, es).products[p].stock == s.products[p].stock + DeltaSum(es, 0, |es|, p)
    decreases |es|
  {
    if es != [] {
      FreshRowStock(s, es[0], p);
      RestFresh(s, es);
      RunFromFront(s, es);
      assert !IsCount(es[0], p);
      StockWithoutCount(Apply(s, es[0]), es[1..], p);
      DeltaSumFront(es, |es|, p);
      DeltaSumShift(es, 1, |es|, p);
    }
  }

  /** The last count decides, with the changes that came after it. */
  lemma {:induction false} StockFromLastCount(s: State, es: seq<Event>, p: Id, k: nat)
    requires AllFresh(s, es) && p in s.products && k < |es| && IsCount(es[k], p)
    requires forall i :: k < i < |es| ==> !IsCount(es[i], p)
    ensures p in Run(s, es).products
    ensures Run(s, es).products[p].stock == es[k].row.movement.quantity + DeltaSum(es, k + 1, |es|, p)
    decreases |es|
  {
    FreshRowStock(s, es[0], p);
    RestFresh(s, es);
    RunFromFront(s, es);
    DeltaSumShift(es, k + 1, |es|, p);
    if k == 0 {
      StockWithoutCount(Apply(s, es[0]), es[1..], p);
    } else {
      StockFromLastCount(Apply(s, es[0]), es[1..], p, k - 1);
    }
  }

  /**
   A pushed timeline: the latest count on the device decides, together with the rows behind it, and
   every row that happened after the count is behind it while every row before it happened no later.
   */
  lemma {:induction false} LatestCountDecides(
    s: State, store: Id, actor: Actor, b: Batch, now: int, p: Id, k: nat)
    requires k < |Timeline(b, now)| && p in s.products
    requires var es := Events(store, actor, Timeline(b, now));
      && AllFresh(s, es) && IsCount(es[k], p)
      && forall i :: 0 <= i < |es| && i != k && IsCount(es[i], p) ==>
           OccurredAt(es[i].row, now) < OccurredAt(es[k].row, now)
    ensures var rows := Timeline(b, now);
      var es := Events(store, actor, rows);
      && p in Run(s, es).products
      && Run(s, es).products[p].stock == es[k].row.movement.quantity + DeltaSum(es, k + 1, |es|, p)
      && forall i :: 0 <= i < |rows| ==>
           && (OccurredAt(rows[i], now) > OccurredAt(rows[k], now) ==> i > k)
           && (OccurredAt(rows[i], now) < OccurredAt(rows[k], now) ==> i < k)
  {
    var rows := Timeline(b, now);
    var es := Events(store, actor, rows);
    TimelineIsStable(b, now);
    var key := (row: Row) => OccurredAt(row, now);
    forall i | 0 <= i < |rows|
      ensures OccurredAt(rows[i], now) > OccurredAt(rows[k], now) ==> i > k
      ensures OccurredAt(rows[i], now) < OccurredAt(rows[k], now) ==> i < k
    {
      if i < k { assert key(rows[i]) <= key(rows[k]); }
      if k < i { assert key(rows[k]) <= key(rows[i]); }
    }
    forall i | k < i < |es| ensures !IsCount(es[i], p) {
      assert es[i].row == rows[i] && es[k].row == rows[k];
    }
    StockFromLastCount(s, es, p, k);
  }
}
