/**
 A phone that loses signal sends its batch again. Whatever the first push accepted or refused,
 the second leaves stock, sale lines and manual movements as they are.
 */
module Replay {
  import opened Prelude
  import opened Ledger
  import opened Books
  import opened SetSums
  import StableSort

  // ----- The facts stock is computed from -----

  predicate SameShelf(a: State, b: State)
  {
    && a.products.Keys == b.products.Keys
    && forall p :: p in a.products ==>
         a.products[p].store == b.products[p].store && a.products[p].opening == b.products[p].opening
  }

  /** The same products with the same openings, the same sales and lines, the same manual rows. */
  predicate SameFacts(a: State, b: State)
  {
    && SameShelf(a, b)
    && a.sales == b.sales && a.items == b.items
    && Manual(a.movements) == Manual(b.movements)
  }

  predicate SameStock(a: State, b: State)
  {
    && a.products.Keys == b.products.Keys
    && forall p :: p in a.products ==> a.products[p].stock == b.products[p].stock
  }

  /** In balanced books the facts decide the stock. */
  lemma {:induction false} FactsFixStock(a: State, b: State)
    requires Balanced(a) && Balanced(b) && SameFacts(a, b)
    ensures SameStock(a, b)
  {
    forall p | p in a.products ensures a.products[p].stock == b.products[p].stock {
      StockFromFacts(a, p);
      StockFromFacts(b, p);
      SumSame(a.sales.Keys, (id: Id) => SaleTake(a, id, p), (id: Id) => SaleTake(b, id, p));
    }
  }

  // ----- When a row has nothing left to do -----

  /** The refusals of a product save that hold whenever the product is not live. */
  predicate SaveNeverStarts(actor: Actor, r: ProductRequest)
  {
    !actor.CanManageProducts() || r.selling < if actor.CanViewProfit() then r.cost else 0
  }

  /** The product is there, and if it is not live at `shelf` a save cannot make it so. */
  predicate ProductDone(t: State, shelf: State, store: Id, actor: Actor, r: ProductRequest)
  {
    && (r.id in t.products || SaveNeverStarts(actor, r))
    && (|| ProductLive(shelf, store, r.id)
        || SaveNeverStarts(actor, r)
        || (r.id in t.products && t.products[r.id].store != store))
  }

  /** The sale can never be accepted, or recording it again stores the lines it already has. */
  predicate SaleDone(t: State, shelf: State, store: Id, actor: Actor, r: SaleRequest)
  {
    || r.payment !in ALLOWED_PAYMENT_METHODS
    || LinesError(shelf, store, r.lines).Some?
    || (&& r.id in t.sales && r.id in t.items
        && (|| !SaleVerdict(t, Prepared(store, r), RecorderOf(actor)).Changed?
            || t.items[r.id] == Prepared(store, r).lines))
  }

  predicate MovementDone(t: State, shelf: State, store: Id, actor: Actor, r: MovementRequest)
  {
    || MovementRefusal(actor, r).Some?
    || !ProductLive(shelf, store, r.product)
    || HasMovement(t.movements, Device(r.id))
  }

  predicate DeletionDone(t: State, store: Id, actor: Actor, r: DeletionRequest)
  {
    r.entity.SaleEntity? ==> !MayDelete(actor, r.entity) || VoidVerdict(t, store, r.id) != Changed
  }

  predicate Done(t: State, shelf: State, e: Event)
  {
    match e.row
    case ProductRow(r) => ProductDone(t, shelf, e.store, e.actor, r)
    case SaleRow(r) => SaleDone(t, shelf, e.store, e.actor, r)
    case MovementRow(r) => MovementDone(t, shelf, e.store, e.actor, r)
    case DeletionRow(r) => DeletionDone(t, e.store, e.actor, r)
    case _ => true
  }

  /** Nothing of this store is live that was not live at `shelf`. */
  ghost predicate LiveWithin(t: State, shelf: State, store: Id)
  {
    forall p :: ProductLive(t, store, p) ==> ProductLive(shelf, store, p)
  }

  // ----- A row that is done changes no facts -----

  lemma {:induction false} LinesErrorMonotone(t: State, shelf: State, store: Id, lines: seq<LineRequest>)
    requires LiveWithin(t, shelf, store) && LinesError(shelf, store, lines).Some?
    ensures LinesError(t, store, lines).Some?
  {
    if LineResolves(t, store, lines[0]) {
      LinesErrorMonotone(t, shelf, store, lines[1..]);
    }
  }

  lemma {:induction false} ManualHas(ms: seq<Movement>, n: nat, id: Id)
    requires n <= |ms|
    requires forall i :: 0 <= i < n ==> (ms[i].id.Device? ==> !ms[i].note.SaleTag?)
    ensures (exists i :: 0 <= i < n && ms[i].id == Device(id)) <==> HasDevice(ManualTo(ms, n), id)
  {
    if n > 0 {
      ManualHas(ms, n - 1, id);
      if !ms[n - 1].note.SaleTag? {
        var front := ManualTo(ms, n - 1);
        assert (front + [ms[n - 1]])[|front|] == ms[n - 1];
        if HasDevice(front, id) {
          var k :| 0 <= k < |front| && front[k].id == Device(id);
          assert (front + [ms[n - 1]])[k].id == Device(id);
        }
      }
    }
  }

  predicate HasDevice(ms: seq<Movement>, id: Id)
  {
    exists i :: 0 <= i < |ms| && ms[i].id == Device(id)
  }

  lemma {:induction false} SameMovementIds(a: State, b: State, id: Id)
    requires RowsSound(a) && RowsSound(b) && Manual(a.movements) == Manual(b.movements)
    ensures HasMovement(a.movements, Device(id)) == HasMovement(b.movements, Device(id))
  {
    DeviceRowsPlain(a);
    DeviceRowsPlain(b);
    ManualHas(a.movements, |a.movements|, id);
    ManualHas(b.movements, |b.movements|, id);
  }

  lemma {:induction false} DeviceRowsPlain(s: State)
    requires RowsSound(s)
    ensures forall i :: 0 <= i < |s.movements| ==> (s.movements[i].id.Device? ==> !s.movements[i].note.SaleTag?)
  {
    forall i | 0 <= i < |s.movements| && s.movements[i].id.Device? ensures !s.movements[i].note.SaleTag? {
      assert RowSound(s, s.movements[i]);
    }
  }

  lemma {:induction false} DoneSale(t: State, s1: State, shelf: State, store: Id, actor: Actor, r: SaleRequest)
    requires Balanced(t) && Reversible(t) && SameFacts(t, s1) && LiveWithin(t, shelf, store)
    requires SaleDone(s1, shelf, store, actor, r)
    requires SaleRequestVerdict(t, store, actor, r).Created? || SaleRequestVerdict(t, store, actor, r).Changed?
    ensures var u := AfterSale(t, Prepared(store, r), RecorderOf(actor));
      SameFacts(u, s1) && LiveWithin(u, shelf, store)
  {
    var sale, who := Prepared(store, r), RecorderOf(actor);
    if LinesError(shelf, store, r.lines).Some? {
      LinesErrorMonotone(t, shelf, store, r.lines);
    }
    AcceptedLinesKnown(t, store, r);
    SaleKeepsBooks(t, sale, who);
    SaleItems(t, sale, who);
    assert SaleVerdict(t, sale, who) == SaleVerdict(s1, sale, who);
    assert s1.items[r.id := sale.lines] == s1.items;
    assert s1.sales[r.id := s1.sales[r.id]] == s1.sales;
  }

  lemma {:induction false} DoneProduct(t: State, s1: State, shelf: State, store: Id, actor: Actor, r: ProductRequest)
    requires SameFacts(t, s1) && LiveWithin(t, shelf, store) && ProductDone(s1, shelf, store, actor, r)
    ensures var u := AfterProduct(t, store, actor, r); SameFacts(u, s1) && LiveWithin(u, shelf, store)
  {
  }

  lemma {:induction false} DoneMovement(t: State, s1: State, shelf: State, store: Id, actor: Actor, r: MovementRequest)
    requires RowsSound(t) && RowsSound(s1) && SameFacts(t, s1) && LiveWithin(t, shelf, store)
    requires MovementDone(s1, shelf, store, actor, r) && MovementRefusal(actor, r).None?
    ensures EntryVerdict(t, EntryOf(store, actor, r)) != Created
  {
    SameMovementIds(t, s1, r.id);
  }

  /** One row of a replay. */
  lemma {:induction false} DoneRow(t: State, s1: State, shelf: State, e: Event)
    requires Balanced(t) && Reversible(t) && Balanced(s1) && SameFacts(t, s1)
    requires LiveWithin(t, shelf, e.store) && Done(s1, shelf, e)
    ensures SameFacts(Apply(t, e), s1) && LiveWithin(Apply(t, e), shelf, e.store)
  {
    if !VerdictOf(t, e).Refused? {
      match e.row
      case ProductRow(r) => DoneProduct(t, s1, shelf, e.store, e.actor, r);
      case SaleRow(r) =>
        if VerdictOf(t, e) != Kept { DoneSale(t, s1, shelf, e.store, e.actor, r); }
      case MovementRow(r) => DoneMovement(t, s1, shelf, e.store, e.actor, r);
      case DeletionRow(r) => DoneDeletion(t, s1, shelf, e.store, e.actor, r);
      case ExpenseRow(r) =>
      case WithdrawalRow(r) =>
    }
  }

  lemma {:induction false} DoneDeletion(t: State, s1: State, shelf: State, store: Id, actor: Actor, r: DeletionRequest)
    requires SameFacts(t, s1) && LiveWithin(t, shelf, store) && DeletionDone(s1, store, actor, r)
    ensures var u := AfterDeletion(t, store, actor, r); SameFacts(u, s1) && LiveWithin(u, shelf, store)
  {
  }

  lemma {:induction false} DoneRun(s1: State, shelf: State, store: Id, es: seq<Event>)
    requires Balanced(s1) && Reversible(s1) && AllSane(es) && LiveWithin(s1, shelf, store)
    requires forall i :: 0 <= i < |es| ==> es[i].store == store && Done(s1, shelf, es[i])
    ensures SameFacts(Run(s1, es), s1) && LiveWithin(Run(s1, es), shelf, store)
    ensures Balanced(Run(s1, es)) && Reversible(Run(s1, es))
  {
    RunKeepsBooks(s1, es);
    if es != [] {
      var front := es[..|es| - 1];
      DoneRun(s1, shelf, store, front);
      DoneRow(Run(s1, front), s1, shelf, es[|es| - 1]);
    }
  }

  // ----- After a push every row is done -----

  /** Two versions of a sale that store the same lines, whatever else differs. */
  predicate SameLines(a: SaleRequest, b: SaleRequest)
  {
    Prepared(0, a).lines == Prepared(0, b).lines
  }

  /** A sale may be queued more than once, as long as its versions have the same lines. */
  predicate VersionsAgree(sales: seq<SaleRequest>)
  {
    forall i, j :: 0 <= i < j < |sales| && sales[i].id == sales[j].id ==> SameLines(sales[i], sales[j])
  }

  predicate SaneBatch(store: Id, b: Batch)
  {
    && VersionsAgree(b.sales)
    && (forall i :: 0 <= i < |b.sales| ==> SafeLines(Prepared(store, b.sales[i]).lines))
    && (forall i :: 0 <= i < |b.movements| ==> PlainNote(b.movements[i].note))
  }

  predicate IsSaleOf(row: Row, id: Id) { row.SaleRow? && row.sale.id == id }

  /** The row is not of this sale, or stores the same lines for it. */
  predicate Repeats(row: Row, r: SaleRequest)
  {
    IsSaleOf(row, r.id) ==> SameLines(row.sale, r)
  }

  /** Products, their stores and which are live. */
  predicate SameProducts(a: State, b: State)
  {
    && a.products.Keys == b.products.Keys
    && forall p :: p in a.products ==>
         a.products[p].store == b.products[p].store && a.products[p].live == b.products[p].live
  }

  lemma {:induction false} SameLinesError(a: State, b: State, store: Id, lines: seq<LineRequest>)
    requires SameProducts(a, b)
    ensures LinesError(a, store, lines) == LinesError(b, store, lines)
  {
    if lines != [] { SameLinesError(a, b, store, lines[1..]); }
  }

  lemma {:induction false} WrittenFrame(s: State, sale: PreparedSale, n: nat)
    requires n <= |sale.lines|
    ensures SameProducts(s, Written(s, sale, n))
    ensures |s.movements| <= |Written(s, sale, n).movements|
    ensures forall i :: 0 <= i < |s.movements| ==> Written(s, sale, n).movements[i] == s.movements[i]
  {
    if n > 0 { WrittenFrame(s, sale, n - 1); }
  }

  lemma {:induction false} SaleFrame(s: State, sale: PreparedSale, who: Recorder)
    ensures SameProducts(s, AfterSale(s, sale, who))
    ensures |s.movements| <= |AfterSale(s, sale, who).movements|
    ensures forall i :: 0 <= i < |s.movements| ==> AfterSale(s, sale, who).movements[i].id == s.movements[i].id
  {
    var v := SaleVerdict(s, sale, who);
    if v.Created? || v.Changed? {
      WrittenFrame(Cleared(s, sale, who), sale, |sale.lines|);
    }
  }

  /** Sales and movements leave products where they are. */
  lemma {:induction false} TimelineRowFrame(s: State, e: Event)
    requires e.row.SaleRow? || e.row.MovementRow?
    ensures SameProducts(s, Apply(s, e))
  {
    if e.row.SaleRow? {
      SaleFrame(s, Prepared(e.store, e.row.sale), RecorderOf(e.actor));
    }
  }

  /** No row takes a movement's id away. */
  lemma {:induction false} MovementIdsStay(s: State, e: Event, id: MovementId)
    requires HasMovement(s.movements, id)
    ensures HasMovement(Apply(s, e).movements, id)
  {
    var i :| 0 <= i < |s.movements| && s.movements[i].id == id;
    if e.row.SaleRow? {
      SaleFrame(s, Prepared(e.store, e.row.sale), RecorderOf(e.actor));
    }
    assert Apply(s, e).movements[i].id == id;
  }

  /** Only its own request or a void touches a stored sale, and a void is final. */
  lemma {:induction false} SaleRowStays(s: State, e: Event, id: Id)
    requires id in s.sales && id in s.items && !IsSaleOf(e.row, id)
    ensures var t := Apply(s, e);
      && id in t.sales && id in t.items && t.items[id] == s.items[id]
      && t.sales[id] == s.sales[id].(voided := t.sales[id].voided)
      && (s.sales[id].voided ==> t.sales[id].voided)
  {
    if e.row.SaleRow? {
      var sale, who := Prepared(e.store, e.row.sale), RecorderOf(e.actor);
      var v := SaleVerdict(s, sale, who);
      if v.Created? || v.Changed? {
        SaleItems(s, sale, who);
      }
    }
  }

  /** Another version of the sale stores the lines this one has. */
  lemma {:induction false} SameVersionStays(s: State, shelf: State, e: Event, store: Id, actor: Actor, r: SaleRequest)
    requires SaleDone(s, shelf, store, actor, r) && IsSaleOf(e.row, r.id) && SameLines(e.row.sale, r)
    ensures SaleDone(Apply(s, e), shelf, store, actor, r)
  {
    var sale, who := Prepared(e.store, e.row.sale), RecorderOf(e.actor);
    assert sale.lines == Prepared(0, e.row.sale).lines && Prepared(store, r).lines == Prepared(0, r).lines;
    var v := SaleVerdict(s, sale, who);
    if v.Created? || v.Changed? {
      SaleItems(s, sale, who);
    }
  }

  lemma {:induction false} SaleDoneStays(s: State, shelf: State, e: Event, store: Id, actor: Actor, r: SaleRequest)
    requires SaleDone(s, shelf, store, actor, r) && Repeats(e.row, r)
    ensures SaleDone(Apply(s, e), shelf, store, actor, r)
  {
    if IsSaleOf(e.row, r.id) {
      SameVersionStays(s, shelf, e, store, actor, r);
    } else if r.id in s.sales && r.id in s.items {
      SaleRowStays(s, e, r.id);
    }
  }

  /** What a sale request leaves behind, accepted or refused. */
  lemma {:induction false} SaleBecomesDone(s: State, shelf: State, store: Id, actor: Actor, r: SaleRequest)
    requires SameProducts(shelf, s) && s.items.Keys == s.sales.Keys
    ensures SaleDone(Apply(s, Event(store, actor, SaleRow(r))), shelf, store, actor, r)
  {
    SameLinesError(shelf, s, store, r.lines);
    var sale, who := Prepared(store, r), RecorderOf(actor);
    if r.payment in ALLOWED_PAYMENT_METHODS && LinesError(s, store, r.lines).None? {
      var v := SaleVerdict(s, sale, who);
      if v.Created? || v.Changed? {
        SaleItems(s, sale, who);
      }
    }
  }

  lemma {:induction false} KeysStay(s: State, e: Event)
    requires s.items.Keys == s.sales.Keys
    ensures Apply(s, e).items.Keys == Apply(s, e).sales.Keys
  {
    if e.row.SaleRow? {
      var sale, who := Prepared(e.store, e.row.sale), RecorderOf(e.actor);
      var v := SaleVerdict(s, sale, who);
      if v.Created? || v.Changed? {
        SaleItems(s, sale, who);
      }
    }
  }

  /** Rows of one sale all store the same lines for it. */
  ghost predicate RowsAgree(rows: seq<Row>)
  {
    forall x, y :: x in rows && y in rows && x.SaleRow? ==> Repeats(y, x.sale)
  }

  /** The timeline: each of the first `n` rows is done, and the products are as they were. */
  lemma {:induction false} TimelineDone(shelf: State, store: Id, actor: Actor, rows: seq<Row>, n: nat)
    requires n <= |rows| && shelf.items.Keys == shelf.sales.Keys
    requires forall i :: 0 <= i < |rows| ==> rows[i].SaleRow? || rows[i].MovementRow?
    requires RowsAgree(rows)
    ensures var t := Run(shelf, Events(store, actor, rows[..n]));
      && SameProducts(shelf, t) && t.items.Keys == t.sales.Keys
      && forall i :: 0 <= i < n ==> Done(t, shelf, Event(store, actor, rows[i]))
  {
    if n > 0 {
      TimelineDone(shelf, store, actor, rows, n - 1);
      var t := Run(shelf, Events(store, actor, rows[..n - 1]));
      var e := Event(store, actor, rows[n - 1]);
      RunNext(shelf, store, actor, rows, n);
      TimelineRowFrame(t, e);
      KeysStay(t, e);
      forall i | 0 <= i < n ensures Done(Apply(t, e), shelf, Event(store, actor, rows[i])) {
        if i == n - 1 {
          RowBecomesDone(t, shelf, e);
        } else {
          assert Done(t, shelf, Event(store, actor, rows[i]));
          assert rows[i] in rows && rows[n - 1] in rows;
          assert rows[i].SaleRow? ==> Repeats(rows[n - 1], rows[i].sale);
          DoneStays(t, shelf, e, Event(store, actor, rows[i]));
        }
      }
    }
  }

  lemma {:induction false} RowBecomesDone(t: State, shelf: State, e: Event)
    requires SameProducts(shelf, t) && t.items.Keys == t.sales.Keys
    requires e.row.SaleRow? || e.row.MovementRow?
    ensures Done(Apply(t, e), shelf, e)
  {
    if e.row.SaleRow? {
      SaleBecomesDone(t, shelf, e.store, e.actor, e.row.sale);
    } else {
      var r := e.row.movement;
      if MovementRefusal(e.actor, r).None? && ProductLive(shelf, e.store, r.product) {
        var ms := Apply(t, e).movements;
        if !HasMovement(t.movements, Device(r.id)) {
          assert ms[|ms| - 1].id == Device(r.id);
        }
      }
    }
  }

  lemma {:induction false} DoneStays(t: State, shelf: State, e: Event, d: Event)
    requires Done(t, shelf, d) && (d.row.SaleRow? || d.row.MovementRow?)
    requires d.row.SaleRow? ==> Repeats(e.row, d.row.sale)
    ensures Done(Apply(t, e), shelf, d)
  {
    if d.row.SaleRow? {
      SaleDoneStays(t, shelf, e, d.store, d.actor, d.row.sale);
    } else if HasMovement(t.movements, Device(d.row.movement.id)) {
      MovementIdsStay(t, e, Device(d.row.movement.id));
    }
  }

  /** The product phase: each of the first `n` saves is done with respect to where it ended. */
  lemma {:induction false} ProductsDone(s: State, store: Id, actor: Actor, rows: seq<Row>, n: nat)
    requires n <= |rows| && forall i :: 0 <= i < |rows| ==> rows[i].ProductRow?
    ensures var t := Run(s, Events(store, actor, rows[..n]));
      && t.items == s.items && t.sales == s.sales
      && forall i :: 0 <= i < n ==> Done(t, t, Event(store, actor, rows[i]))
  {
    if n > 0 {
      ProductsDone(s, store, actor, rows, n - 1);
      var t := Run(s, Events(store, actor, rows[..n - 1]));
      RunNext(s, store, actor, rows, n);
      var u := Apply(t, Event(store, actor, rows[n - 1]));
      forall i | 0 <= i < n ensures Done(u, u, Event(store, actor, rows[i])) {
        if i < n - 1 {
          assert Done(t, t, Event(store, actor, rows[i]));
        }
      }
    }
  }

  predicate IsBehind(rows: seq<Row>)
  {
    forall i :: 0 <= i < |rows| ==> rows[i].ExpenseRow? || rows[i].WithdrawalRow? || rows[i].DeletionRow?
  }

  lemma {:induction false} RowsKeepKeys(t: State, store: Id, actor: Actor, rows: seq<Row>, n: nat)
    requires n <= |rows| && t.items.Keys == t.sales.Keys
    ensures var u := Run(t, Events(store, actor, rows[..n])); u.items.Keys == u.sales.Keys
  {
    if n > 0 {
      RowsKeepKeys(t, store, actor, rows, n - 1);
      RunNext(t, store, actor, rows, n);
      KeysStay(Run(t, Events(store, actor, rows[..n - 1])), Event(store, actor, rows[n - 1]));
    }
  }

  lemma {:induction false} ProductStaysDone(
    t: State, shelf: State, e: Event, store: Id, actor: Actor, r: ProductRequest)
    requires ProductDone(t, shelf, store, actor, r)
    requires e.row.ExpenseRow? || e.row.WithdrawalRow? || e.row.DeletionRow?
    ensures ProductDone(Apply(t, e), shelf, store, actor, r)
  {
  }

  /** The rest of a push: what was done stays done. */
  lemma {:induction false} BehindStaysDone(
    t: State, shelf: State, store: Id, actor: Actor, rows: seq<Row>, n: nat, d: Event)
    requires n <= |rows| && IsBehind(rows)
    requires !d.row.DeletionRow? && Done(t, shelf, d)
    ensures Done(Run(t, Events(store, actor, rows[..n])), shelf, d)
  {
    if n > 0 {
      BehindStaysDone(t, shelf, store, actor, rows, n - 1, d);
      RunNext(t, store, actor, rows, n);
      var u, e := Run(t, Events(store, actor, rows[..n - 1])), Event(store, actor, rows[n - 1]);
      if d.row.SaleRow? || d.row.MovementRow? {
        DoneStays(u, shelf, e, d);
      } else if d.row.ProductRow? {
        ProductStaysDone(u, shelf, e, d.store, d.actor, d.row.product);
      }
    }
  }

  /** A deletion is done once its row has been reached, and a void is final. */
  lemma {:induction false} DeletionsDone(t: State, store: Id, actor: Actor, rows: seq<Row>, n: nat, k: nat)
    requires k < n <= |rows| && IsBehind(rows) && rows[k].DeletionRow? && t.items.Keys == t.sales.Keys
    ensures DeletionDone(Run(t, Events(store, actor, rows[..n])), store, actor, rows[k].deletion)
  {
    var u := Run(t, Events(store, actor, rows[..n - 1]));
    RunNext(t, store, actor, rows, n);
    if k == n - 1 {
      RowsKeepKeys(t, store, actor, rows, n - 1);
      DeletionBecomesDone(u, store, actor, rows[k].deletion);
    } else {
      DeletionsDone(t, store, actor, rows, n - 1, k);
      DeletionStaysDone(u, Event(store, actor, rows[n - 1]), store, actor, rows[k].deletion);
    }
  }

  lemma {:induction false} DeletionBecomesDone(u: State, store: Id, actor: Actor, r: DeletionRequest)
    requires u.items.Keys == u.sales.Keys
    ensures DeletionDone(Apply(u, Event(store, actor, DeletionRow(r))), store, actor, r)
  {
  }

  lemma {:induction false} DeletionStaysDone(u: State, e: Event, store: Id, actor: Actor, r: DeletionRequest)
    requires DeletionDone(u, store, actor, r)
    requires e.row.ExpenseRow? || e.row.WithdrawalRow? || e.row.DeletionRow?
    ensures DeletionDone(Apply(u, e), store, actor, r)
  {
  }

  /** Behind the timeline nothing becomes live and nothing leaves the shelf. */
  lemma {:induction false} BehindLive(t: State, shelf: State, store: Id, actor: Actor, rows: seq<Row>, n: nat)
    requires n <= |rows| && LiveWithin(t, shelf, store) && IsBehind(rows)
    ensures LiveWithin(Run(t, Events(store, actor, rows[..n])), shelf, store)
  {
    if n > 0 {
      BehindLive(t, shelf, store, actor, rows, n - 1);
      RunNext(t, store, actor, rows, n);
      ApplyBehindLive(Run(t, Events(store, actor, rows[..n - 1])), Event(store, actor, rows[n - 1]), shelf, store);
    }
  }

  lemma {:induction false} ApplyBehindLive(u: State, e: Event, shelf: State, store: Id)
    requires LiveWithin(u, shelf, store)
    requires e.row.ExpenseRow? || e.row.WithdrawalRow? || e.row.DeletionRow?
    ensures LiveWithin(Apply(u, e), shelf, store)
  {
  }

  // ----- The sorted queue holds the same rows -----

  lemma {:induction false} RowsAgreePermuted(a: seq<Row>, b: seq<Row>)
    requires RowsAgree(a) && multiset(a) == multiset(b)
    ensures RowsAgree(b)
  {
    forall x, y | x in b && y in b && x.SaleRow? ensures Repeats(y, x.sale) {
      assert x in multiset(b) && y in multiset(b);
      assert x in multiset(a) && y in multiset(a);
      assert x in a && y in a;
    }
  }

  lemma {:induction false} QueueAgrees(b: Batch)
    requires VersionsAgree(b.sales)
    ensures RowsAgree(Queued(b))
  {
    var queue := Queued(b);
    forall x, y | x in queue && y in queue && x.SaleRow? ensures Repeats(y, x.sale) {
      if IsSaleOf(y, x.sale.id) {
        var i :| 0 <= i < |queue| && queue[i] == x;
        var j :| 0 <= j < |queue| && queue[j] == y;
        assert i < |b.sales| && x.sale == b.sales[i] && j < |b.sales| && y.sale == b.sales[j];
        if i != j { assert SameLines(b.sales[if i < j then i else j], b.sales[if i < j then j else i]); }
      }
    }
  }

  lemma {:induction false} TimelineRows(b: Batch, now: int)
    requires VersionsAgree(b.sales)
    ensures multiset(Timeline(b, now)) == multiset(Queued(b))
    ensures RowsAgree(Timeline(b, now))
    ensures forall i :: 0 <= i < |Timeline(b, now)| ==>
      Timeline(b, now)[i].SaleRow? || Timeline(b, now)[i].MovementRow?
  {
    var key := (row: Row) => OccurredAt(row, now);
    StableSort.SortIsStable(Queued(b), key);
    QueueAgrees(b);
    RowsAgreePermuted(Queued(b), Timeline(b, now));
    forall i | 0 <= i < |Timeline(b, now)|
      ensures Timeline(b, now)[i].SaleRow? || Timeline(b, now)[i].MovementRow?
    {
      assert Timeline(b, now)[i] in multiset(Queued(b));
    }
  }

  // ----- Sending a batch again -----

  /** The rows of a batch, whenever it is pushed. */
  ghost predicate InBatch(b: Batch, row: Row)
  {
    row in Before(b) || row in Queued(b) || row in Behind(b)
  }

  lemma {:induction false} TimelineInBatch(b: Batch, now: int, k: nat)
    requires k < |Timeline(b, now)|
    ensures Timeline(b, now)[k] in Queued(b)
  {
    StableSort.SortIsStable(Queued(b), (row: Row) => OccurredAt(row, now));
    assert Timeline(b, now)[k] in multiset(Timeline(b, now));
  }

  lemma {:induction false} PushedRowsInBatch(store: Id, actor: Actor, b: Batch, now: int, i: nat)
    requires i < |PushEvents(store, actor, b, now)|
    ensures var e := PushEvents(store, actor, b, now)[i];
      e.store == store && e.actor == actor && InBatch(b, e.row)
  {
    var rows, queue, rest := Before(b), Timeline(b, now), Behind(b);
    var e := PushEvents(store, actor, b, now)[i];
    if i < |rows| {
      assert e == Event(store, actor, rows[i]);
    } else if i < |rows| + |queue| {
      TimelineInBatch(b, now, i - |rows|);
      assert e == Event(store, actor, queue[i - |rows|]);
    } else {
      assert e == Event(store, actor, rest[i - |rows| - |queue|]);
    }
  }

  lemma {:induction false} SaneRow(store: Id, actor: Actor, b: Batch, row: Row)
    requires SaneBatch(store, b) && InBatch(b, row)
    ensures Sane(Event(store, actor, row))
  {
  }

  lemma {:induction false} SaneEvents(store: Id, actor: Actor, b: Batch, now: int)
    requires SaneBatch(store, b)
    ensures AllSane(PushEvents(store, actor, b, now))
  {
    forall i | 0 <= i < |PushEvents(store, actor, b, now)| ensures Sane(PushEvents(store, actor, b, now)[i]) {
      PushedRowsInBatch(store, actor, b, now, i);
      SaneRow(store, actor, b, PushEvents(store, actor, b, now)[i].row);
    }
  }

  /** After the timeline, every product, sale and movement row of the batch is done. */
  lemma {:induction false} FrontRowDone(s: State, store: Id, actor: Actor, b: Batch, now: int, row: Row)
    requires s.items.Keys == s.sales.Keys && VersionsAgree(b.sales) && (row in Before(b) || row in Queued(b))
    ensures var shelf := Run(s, Events(store, actor, Before(b)));
      var t := Run(shelf, Events(store, actor, Timeline(b, now)));
      t.items.Keys == t.sales.Keys && Done(t, shelf, Event(store, actor, row))
  {
    var rows, queue := Before(b), Timeline(b, now);
    var shelf := Run(s, Events(store, actor, rows));
    TimelineRows(b, now);
    WholeSlice(rows); WholeSlice(queue);
    ProductsDone(s, store, actor, rows, |rows|);
    TimelineDone(shelf, store, actor, queue, |queue|);
    if row in rows {
      assert Done(shelf, shelf, Event(store, actor, row));
    } else {
      assert row in multiset(queue);
    }
  }

  lemma {:induction false} TimelineKeepsKeys(s: State, store: Id, actor: Actor, b: Batch, now: int)
    requires s.items.Keys == s.sales.Keys
    ensures var t := Run(Run(s, Events(store, actor, Before(b))), Events(store, actor, Timeline(b, now)));
      t.items.Keys == t.sales.Keys
  {
    var rows, queue := Before(b), Timeline(b, now);
    WholeSlice(rows); WholeSlice(queue);
    RowsKeepKeys(s, store, actor, rows, |rows|);
    RowsKeepKeys(Run(s, Events(store, actor, rows)), store, actor, queue, |queue|);
  }

  /** After a push, every row of the batch is done, with the shelf as the saves left it. */
  lemma {:induction false} EveryRowDone(s: State, store: Id, actor: Actor, b: Batch, now: int, row: Row)
    requires s.items.Keys == s.sales.Keys && VersionsAgree(b.sales) && InBatch(b, row)
    ensures Done(Push(s, store, actor, b, now), Run(s, Events(store, actor, Before(b))), Event(store, actor, row))
  {
    var queue, rest := Timeline(b, now), Behind(b);
    var shelf := Run(s, Events(store, actor, Before(b)));
    var t := Run(shelf, Events(store, actor, queue));
    PushSplits(s, store, actor, b, now);
    WholeSlice(rest);
    TimelineKeepsKeys(s, store, actor, b, now);
    if row in rest {
      BehindRowDone(t, shelf, store, actor, rest, row);
    } else {
      FrontRowDone(s, store, actor, b, now, row);
      BehindStaysDone(t, shelf, store, actor, rest, |rest|, Event(store, actor, row));
    }
  }

  lemma {:induction false} BehindRowDone(
    t: State, shelf: State, store: Id, actor: Actor, rest: seq<Row>, row: Row)
    requires IsBehind(rest) && row in rest && t.items.Keys == t.sales.Keys
    ensures Done(Run(t, Events(store, actor, rest)), shelf, Event(store, actor, row))
  {
    var k :| 0 <= k < |rest| && rest[k] == row;
    WholeSlice(rest);
    if row.DeletionRow? {
      DeletionsDone(t, store, actor, rest, |rest|, k);
    }
  }

  lemma {:induction false} PushSplits(s: State, store: Id, actor: Actor, b: Batch, now: int)
    ensures Push(s, store, actor, b, now)
         == Run(Run(Run(s, Events(store, actor, Before(b))),
                    Events(store, actor, Timeline(b, now))),
                Events(store, actor, Behind(b)))
  {
    var x, y, z :=
        Events(store, actor, Before(b)), Events(store, actor, Timeline(b, now)), Events(store, actor, Behind(b));
    RunSplits(s, x + y, z);
    RunSplits(s, x, y);
  }

  lemma {:induction false} PushLive(s: State, store: Id, actor: Actor, b: Batch, now: int)
    requires Balanced(s) && VersionsAgree(b.sales)
    ensures LiveWithin(Push(s, store, actor, b, now), Run(s, Events(store, actor, Before(b))), store)
  {
    var rows, queue, rest := Before(b), Timeline(b, now), Behind(b);
    var shelf := Run(s, Events(store, actor, rows));
    PushSplits(s, store, actor, b, now);
    TimelineRows(b, now);
    WholeSlice(rows); WholeSlice(queue); WholeSlice(rest);
    ProductsDone(s, store, actor, rows, |rows|);
    TimelineDone(shelf, store, actor, queue, |queue|);
    BehindLive(Run(shelf, Events(store, actor, queue)), shelf, store, actor, rest, |rest|);
  }

  /**
   Pushing a batch a second time, at any later time and however much of it was refused, leaves
   the facts, and so the stock of every product, as the first push left them.
   */
  lemma {:induction false} PushTwice(s: State, store: Id, actor: Actor, b: Batch, now: int, again: int)
    requires Balanced(s) && Reversible(s) && SaneBatch(store, b)
    ensures var once := Push(s, store, actor, b, now);
      var twice := Push(once, store, actor, b, again);
      SameFacts(twice, once) && SameStock(twice, once)
  {
    var once := Push(s, store, actor, b, now);
    var shelf := Run(s, Events(store, actor, Before(b)));
    var es := PushEvents(store, actor, b, again);
    SaneEvents(store, actor, b, now);
    SaneEvents(store, actor, b, again);
    RunKeepsBooks(s, PushEvents(store, actor, b, now));
    forall i | 0 <= i < |es| ensures es[i].store == store && Done(once, shelf, es[i]) {
      PushedRowsInBatch(store, actor, b, again, i);
      EveryRowDone(s, store, actor, b, now, es[i].row);
    }
    PushLive(s, store, actor, b, now);
    DoneRun(once, shelf, store, es);
    FactsFixStock(Push(once, store, actor, b, again), once);
  }
}
