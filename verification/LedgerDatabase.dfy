/**
 The repositories and services of a push, changing rows in place as the transactions do. Each
 method is proved to leave exactly the rows the functions of Ledger describe.
 */
module LedgerDatabase {
  import opened Prelude
  import opened Ledger
  import opened Books
  import opened PushAnswers
  import opened RowAnswers
  import StableSort

  /** `into_timeline`. The sort is the standard library's stable one. */
  method IntoTimeline(sales: seq<SaleRequest>, movements: seq<MovementRequest>, now: int) returns (events: seq<Row>)
    ensures events == Timeline(Batch([], sales, movements, [], [], []), now)
  {
    events := [];
    for i := 0 to |sales|
      invariant events == seq(i, k requires 0 <= k < i => SaleRow(sales[k]))
    {
      events := events + [SaleRow(sales[i])];
    }
    ghost var saleRows := events;
    for i := 0 to |movements|
      invariant events == saleRows + seq(i, k requires 0 <= k < i => MovementRow(movements[k]))
    {
      events := events + [MovementRow(movements[i])];
    }
    assert events == Queued(Batch([], sales, movements, [], [], []));
    events := StableSort.SortBy(events, (row: Row) => OccurredAt(row, now));
  }

  class Database {
    var products: map<Id, Product>
    var movements: seq<Movement>
    var sales: map<Id, Sale>
    var items: map<Id, seq<Line>>
    var expenses: map<Id, Expense>
    var withdrawals: map<Id, Withdrawal>

    ghost function Rows(): State
      reads this
    {
      State(products, movements, sales, items, expenses, withdrawals)
    }

    constructor ()
      ensures Rows() == EMPTY
    {
      products, movements, sales, items, expenses, withdrawals := map[], [], map[], map[], map[], map[];
    }

    method RestoreStockFor(sale: Id, store: Id)
      requires sale in items
      modifies this`products
      ensures products == Restored(old(products), items[sale], store)
    {
      products := map p | p in products ::
        if products[p].store == store && Joins(items[sale], p)
        then products[p].(stock := products[p].stock + FirstQuantity(items[sale], p))
        else products[p];
    }

    method RetireMovementsFor(sale: Id, store: Id)
      modifies this`movements
      ensures movements == Retired(old(movements), sale, store)
    {
      movements := seq(|movements|, i requires 0 <= i < |movements| reads this =>
        if movements[i].store == store && movements[i].note == SaleTag(sale)
        then movements[i].(live := false) else movements[i]);
    }

    /** `SaleRepository::record`: reverse what is stored, then write the lines one by one. */
    method RecordSale(sale: PreparedSale, who: Recorder) returns (v: Verdict)
      modifies this
      ensures v == SaleVerdict(old(Rows()), sale, who)
      ensures Rows() == AfterSale(old(Rows()), sale, who)
      ensures old(ProductsKnown(Rows(), sale.store, sale.lines)) ==> RecordAnswered(old(Rows()), Rows(), sale, who, v)
    {
      if ProductsKnown(Rows(), sale.store, sale.lines) { RecordIsAnswered(Rows(), sale, who); }
      ghost var before := Rows();
      v := Created;
      if sale.id in sales {
        var existing := sales[sale.id];
        if existing.store != sale.store { return Refused(Conflict); }
        if existing.voided { return Kept; }
        if !who.isOwner && existing.recorder != who.staff { return Refused(Forbidden); }
        if sale.id in items {
          RestoreStockFor(sale.id, sale.store);
          RetireMovementsFor(sale.id, sale.store);
        }
        v := Changed;
      } else {
        sales := sales[sale.id := Sale(sale.store, who.staff, false)];
      }
      items := items[sale.id := []];
      assert sales == Cleared(before, sale, who).sales;
      WriteLines(sale);
    }

    /** The loop over the lines. */
    method WriteLines(sale: PreparedSale)
      requires sale.id in items
      modifies this
      ensures Rows() == Written(old(Rows()), sale, |sale.lines|)
    {
      for n := 0 to |sale.lines|
        invariant Rows() == Written(old(Rows()), sale, n)
        invariant sale.id in items
      {
        WriteLine(sale, sale.lines[n]);
      }
    }

    /** The item, the stock deduction and the ledger row of one line. */
    method WriteLine(sale: PreparedSale, line: Line)
      requires sale.id in items
      modifies this
      ensures Rows() == TakeLine(old(Rows()), sale, line)
      ensures sale.id in items
    {
      items := items[sale.id := items[sale.id] + [line]];
      if line.product.Some? {
        var p := line.product.value;
        if p in products && products[p].store == sale.store {
          products := products[p := products[p].(stock := products[p].stock - line.quantity)];
        }
        movements := movements + [
          Movement(Minted(|movements|), sale.store, p, -line.quantity, SaleTag(sale.id), true)];
      }
    }

    /** `SaleRepository::void`. */
    method VoidSale(store: Id, sale: Id) returns (v: Verdict)
      modifies this
      ensures v == VoidVerdict(old(Rows()), store, sale)
      ensures Rows() == AfterVoid(old(Rows()), store, sale)
      ensures v == Changed && sale in items ==> SaleVoided(old(Rows()), Rows(), store, sale)
    {
      if VoidVerdict(Rows(), store, sale) == Changed && sale in items { VoidIsAnswered(Rows(), store, sale); }
      if sale !in sales || sales[sale].store != store || sales[sale].voided { return Refused(NotFound); }
      v := Changed;
      if sale in items {
        sales := sales[sale := sales[sale].(voided := true)];
        RestoreStockFor(sale, store);
        RetireMovementsFor(sale, store);
      }
    }

    /** `StockRepository::record_movement`. */
    method RecordMovement(e: Entry) returns (v: Verdict)
      modifies this
      ensures v == EntryVerdict(old(Rows()), e)
      ensures Rows() == AfterEntry(old(Rows()), e)
    {
      if e.product !in products || products[e.product].store != e.store || !products[e.product].live {
        return Refused(NotFound);
      }
      var onHand := products[e.product].stock;
      var delta := match e.effect case Change(d) => d case SetTo(counted) => counted - onHand;
      if HasMovement(movements, Device(e.id)) { return Kept; }
      movements := movements + [Movement(Device(e.id), e.store, e.product, delta, e.note, true)];
      var p := products[e.product];
      products := products[e.product :=
        p.(stock := onHand + delta, cost := if e.unitCost > 0 then e.unitCost else p.cost)];
      v := Created;
    }

    /** The services' checks, then the repository call, for one row of any kind. */
    method RecordRow(store: Id, actor: Actor, row: Row) returns (v: Verdict)
      modifies this
      ensures v == VerdictOf(old(Rows()), Event(store, actor, row))
      ensures Rows() == Apply(old(Rows()), Event(store, actor, row))
      ensures RowAnswered(old(Rows()), Rows(), Event(store, actor, row), v)
    {
      RowIsAnswered(Rows(), Event(store, actor, row));
      match row
      case ProductRow(r) => v := SaveProduct(store, actor, r);
      case SaleRow(r) => v := RecordSaleRequest(store, actor, r);
      case MovementRow(r) => v := RecordMovementRequest(store, actor, r);
      case ExpenseRow(r) => v := RecordExpense(store, actor, r);
      case WithdrawalRow(r) => v := RecordWithdrawal(store, actor, r);
      case DeletionRow(r) => v := Delete(store, actor, r);
    }

    /** `ProductService::save` and `ProductRepository::upsert`: stock is set on insert only. */
    method SaveProduct(store: Id, actor: Actor, r: ProductRequest) returns (v: Verdict)
      modifies this
      ensures v == ProductVerdict(old(Rows()), store, actor, r)
      ensures Rows() == AfterProduct(old(Rows()), store, actor, r)
      ensures ProductAnswered(old(Rows()), Rows(), store, actor, r, v)
      ensures forall p :: p in old(products) ==> p in products && products[p].stock == old(products)[p].stock
    {
      ProductIsAnswered(Rows(), store, actor, r);
      if !actor.CanManageProducts() { return Refused(Forbidden); }
      var cost := 0;
      if actor.CanViewProfit() {
        cost := r.cost;
      } else if r.id in products && products[r.id].store == store && products[r.id].live {
        cost := products[r.id].cost;
      }
      if r.selling < cost { return Refused(BadRequest); }
      if r.id !in products {
        products := products[r.id := Product(store, r.opening, r.opening, cost, r.selling, true)];
        v := Created;
      } else if products[r.id].store == store {
        products := products[r.id := products[r.id].(cost := cost, selling := r.selling, live := true)];
        v := Changed;
      } else {
        v := Refused(Conflict);
      }
    }

    /** `SaleService::record`: every line is resolved before anything is written. */
    method RecordSaleRequest(store: Id, actor: Actor, r: SaleRequest) returns (v: Verdict)
      modifies this
      ensures v == SaleRequestVerdict(old(Rows()), store, actor, r)
      ensures Rows() == if v.Refused? then old(Rows())
                        else AfterSale(old(Rows()), Prepared(store, r), RecorderOf(actor))
      ensures SaleAnswered(old(Rows()), Rows(), store, actor, r, v)
    {
      SaleIsAnswered(Rows(), store, actor, r);
      if r.payment !in ALLOWED_PAYMENT_METHODS { return Refused(BadRequest); }
      var error, lines := ResolveLines(store, r.lines);
      if error.Some? { return Refused(error.value); }
      assert lines == Prepared(store, r).lines;
      v := RecordSale(PreparedSale(r.id, store, lines), RecorderOf(actor));
    }

    /** Every line in turn, or the error of the first that cannot be resolved. */
    method ResolveLines(store: Id, sent: seq<LineRequest>) returns (error: Option<Error>, lines: seq<Line>)
      ensures error == LinesError(Rows(), store, sent)
      ensures error.None? ==> LinesAsSent(lines, sent)
    {
      lines := [];
      for i := 0 to |sent|
        invariant LinesError(Rows(), store, sent) == LinesError(Rows(), store, sent[i..])
        invariant LinesAsSent(lines, sent[..i])
      {
        var item := sent[i];
        assert sent[i..][0] == item && sent[i..][1..] == sent[i + 1..];
        if item.product.Some? {
          var p := item.product.value;
          if p !in products || products[p].store != store || !products[p].live { return Some(NotFound), lines; }
        } else if item.unitPrice.None? {
          return Some(BadRequest), lines;
        }
        lines := lines + [Line(item.product, item.quantity)];
      }
      error := None;
    }

    /** `InventoryService::record`: the kind of movement decides its effect. */
    method RecordMovementRequest(store: Id, actor: Actor, r: MovementRequest) returns (v: Verdict)
      modifies this
      ensures v == MovementVerdict(old(Rows()), store, actor, r)
      ensures Rows() == if v.Refused? then old(Rows()) else AfterEntry(old(Rows()), EntryOf(store, actor, r))
      ensures MovementAnswered(old(Rows()), Rows(), store, actor, r, v)
    {
      MovementIsAnswered(Rows(), store, actor, r);
      if !actor.CanManageProducts() { return Refused(Forbidden); }
      var effect: StockEffect;
      match r.kind {
        case StockIn => effect := Change(r.quantity);
        case StockOut => effect := Change(-r.quantity);
        case Spoilage => effect := Change(-r.quantity);
        case Adjustment => effect := SetTo(r.quantity);
        case OtherKind(_) => return Refused(BadRequest);
      }
      if r.kind != Adjustment && r.quantity == 0 { return Refused(BadRequest); }
      var unitCost := if actor.CanViewProfit() then r.unitCost else 0;
      v := RecordMovement(Entry(store, r.id, r.product, effect, unitCost, r.note));
    }

    method RecordExpense(store: Id, actor: Actor, r: ExpenseRequest) returns (v: Verdict)
      modifies this
      ensures v == ExpenseVerdict(old(Rows()), store, actor, r)
      ensures Rows() == AfterExpense(old(Rows()), store, actor, r)
      ensures ExpenseAnswered(old(Rows()), Rows(), store, actor, r, v)
      ensures r.id in old(expenses) && r.id in expenses ==> expenses[r.id].recorder == old(expenses)[r.id].recorder
      ensures !v.Refused? ==> r.id in expenses && expenses[r.id].live && expenses[r.id].amount == r.amount
    {
      ExpenseIsAnswered(Rows(), store, actor, r);
      if !actor.CanRecordExpenses() { return Refused(Forbidden); }
      if !r.knownCategory { return Refused(BadRequest); }
      if r.id !in expenses {
        expenses := expenses[r.id := Expense(store, actor.StaffId(), r.amount, true)];
        v := Created;
      } else if expenses[r.id].store == store && (actor.Owner? || expenses[r.id].recorder == actor.StaffId()) {
        expenses := expenses[r.id := expenses[r.id].(amount := r.amount, live := true)];
        v := Changed;
      } else {
        v := Refused(Forbidden);
      }
    }

    method RecordWithdrawal(store: Id, actor: Actor, r: WithdrawalRequest) returns (v: Verdict)
      modifies this
      ensures v == WithdrawalVerdict(old(Rows()), store, actor, r)
      ensures Rows() == AfterWithdrawal(old(Rows()), store, actor, r)
      ensures WithdrawalAnswered(old(Rows()), Rows(), store, actor, r, v)
      ensures !actor.Owner? ==> withdrawals == old(withdrawals)
    {
      WithdrawalIsAnswered(Rows(), store, actor, r);
      if !actor.Owner? { return Refused(Forbidden); }
      if r.id !in withdrawals {
        withdrawals := withdrawals[r.id := Withdrawal(store, r.amount, true)];
        v := Created;
      } else if withdrawals[r.id].store == store {
        withdrawals := withdrawals[r.id := withdrawals[r.id].(amount := r.amount, live := true)];
        v := Changed;
      } else {
        v := Refused(Conflict);
      }
    }

    /** `SyncService::delete`: removing what is already gone is a success. */
    method Delete(store: Id, actor: Actor, r: DeletionRequest) returns (v: Verdict)
      modifies this
      ensures v == DeletionVerdict(old(Rows()), store, actor, r)
      ensures Rows() == AfterDeletion(old(Rows()), store, actor, r)
      ensures DeletionAnswered(old(Rows()), Rows(), store, actor, r, v)
    {
      DeletionIsAnswered(Rows(), store, actor, r);
      if r.entity.OtherEntity? { return Refused(BadRequest); }
      if !MayDelete(actor, r.entity) { return Refused(Forbidden); }
      v := Kept;
      match r.entity {
        case SaleEntity =>
          var voided := VoidSale(store, r.id);
          if voided == Changed { v := Changed; }
        case ExpenseEntity =>
          if r.id in expenses && expenses[r.id].store == store && expenses[r.id].live {
            expenses := expenses[r.id := expenses[r.id].(live := false)];
            v := Changed;
          }
        case WithdrawalEntity =>
          if r.id in withdrawals && withdrawals[r.id].store == store && withdrawals[r.id].live {
            withdrawals := withdrawals[r.id := withdrawals[r.id].(live := false)];
            v := Changed;
          }
        case ProductEntity =>
          if r.id in products && products[r.id].store == store && products[r.id].live {
            products := products[r.id := products[r.id].(live := false)];
            v := Changed;
          }
        case OtherEntity(_) =>
      }
    }

    /** One phase of a push: the rows in turn, each noted as applied or rejected. */
    method RecordAll(store: Id, actor: Actor, rows: seq<Row>, ghost start: State, ghost done: seq<Event>, o: Outcome)
      returns (outcome: Outcome)
      requires Rows() == Run(start, done) && o == OutcomeOf(start, done)
      modifies this
      ensures Rows() == Run(start, done + Events(store, actor, rows))
      ensures outcome == OutcomeOf(start, done + Events(store, actor, rows))
      ensures Answered(outcome, start, done + Events(store, actor, rows))
    {
      outcome := o;
      assert done + Events(store, actor, rows[..0]) == done;
      for i := 0 to |rows|
        invariant Rows() == Run(start, done + Events(store, actor, rows[..i]))
        invariant outcome == OutcomeOf(start, done + Events(store, actor, rows[..i]))
      {
        var v := RecordRow(store, actor, rows[i]);
        outcome := Noted(outcome, rows[i], v);
        OutcomeNext(start, done, store, actor, rows, i);
      }
      assert rows[..|rows|] == rows;
      OutcomeAnswers(start, done + Events(store, actor, rows));
    }

    /** `SyncService::push`: products, then the timeline, then the rest with deletions last. */
    method PushBatch(store: Id, actor: Actor, b: Batch, now: int) returns (outcome: Outcome)
      modifies this
      ensures Rows() == Push(old(Rows()), store, actor, b, now)
      ensures outcome == OutcomeOf(old(Rows()), PushEvents(store, actor, b, now))
      ensures Answered(outcome, old(Rows()), PushEvents(store, actor, b, now))
    {
      ghost var start := Rows();
      outcome := RecordAll(store, actor, Before(b), start, [], Outcome([], []));
      var timeline := IntoTimeline(b.sales, b.movements, now);
      assert timeline == Timeline(b, now);
      ghost var first := Events(store, actor, Before(b));
      assert [] + first == first;
      outcome := RecordAll(store, actor, timeline, start, first, outcome);
      ghost var second := first + Events(store, actor, timeline);
      outcome := RecordAll(store, actor, Behind(b), start, second, outcome);
      OutcomeAnswers(start, PushEvents(store, actor, b, now));
    }
  }
}
