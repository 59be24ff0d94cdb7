/**
 The rows behind stock, sales, expenses and withdrawals, and what each service call does to them.

 Quantities are in thousandths, money in centavos. A call that is refused leaves the rows alone,
 because its transaction rolls back.
 */
module Ledger {
  import opened Prelude
  import StableSort

  datatype Product = Product(
    store: Id,
    stock: int,
    opening: int,   // not a column: the stock the row was inserted with, kept to state the ledger law
    cost: int,
    selling: int,
    live: bool)

  /** The `note` column: what a sale writes, what a client wrote, or nothing. */
  datatype Note = SaleTag(sale: Id) | Free(text: string) | NoNote

  /** Ids sent by devices and ids the server mints are never equal. */
  datatype MovementId = Device(id: Id) | Minted(serial: nat)

  /** A row of `stock_movements`; `live` is `deleted_at IS NULL`. */
  datatype Movement = Movement(id: MovementId, store: Id, product: Id, quantity: int, note: Note, live: bool)

  datatype Line = Line(product: Option<Id>, quantity: int)

  datatype Sale = Sale(store: Id, recorder: Option<Id>, voided: bool)

  datatype Expense = Expense(store: Id, recorder: Option<Id>, amount: int, live: bool)

  datatype Withdrawal = Withdrawal(store: Id, amount: int, live: bool)

  datatype State = State(
    products: map<Id, Product>,
    movements: seq<Movement>,
    sales: map<Id, Sale>,
    items: map<Id, seq<Line>>,
    expenses: map<Id, Expense>,
    withdrawals: map<Id, Withdrawal>)

  const EMPTY := State(map[], [], map[], map[], map[], map[])

  /** What became of a call: a new row, a change, nothing to do, or a refusal. */
  datatype Verdict = Created | Changed | Kept | Refused(error: Error)

  // ----- Sales (SaleRepository) -----

  datatype Recorder = Recorder(staff: Option<Id>, isOwner: bool)

  datatype PreparedSale = PreparedSale(id: Id, store: Id, lines: seq<Line>)

  predicate Joins(lines: seq<Line>, p: Id)
  {
    exists i :: 0 <= i < |lines| && lines[i].product == Some(p)
  }

  /** The position of the first line naming `p`. */
  function FirstLine(lines: seq<Line>, p: Id): (k: nat)
    requires Joins(lines, p)
    ensures k < |lines| && lines[k].product == Some(p)
  {
    if lines[0].product == Some(p) then 0
    else
      assert forall i :: 0 < i < |lines| ==> lines[1..][i - 1] == lines[i];
      FirstLine(lines[1..], p) + 1
  }

  function FirstQuantity(lines: seq<Line>, p: Id): int
    requires Joins(lines, p)
  {
    lines[FirstLine(lines, p)].quantity
  }

  /**
   `restore_stock_for`: UPDATE ... FROM changes each product row once, using one of the lines
   that join to it. This takes the first; RestoreChoice covers every other choice.
   */
  function Restored(products: map<Id, Product>, lines: seq<Line>, store: Id): map<Id, Product>
  {
    map p | p in products ::
      if products[p].store == store && Joins(lines, p)
      then products[p].(stock := products[p].stock + FirstQuantity(lines, p))
      else products[p]
  }

  function RetiredRow(m: Movement, sale: Id, store: Id): Movement
  {
    if m.store == store && m.note == SaleTag(sale) then m.(live := false) else m
  }

  /** `retire_movements_for`: rows of this store whose note is the sale's tag stop counting. */
  function Retired(ms: seq<Movement>, sale: Id, store: Id): seq<Movement>
  {
    seq(|ms|, i requires 0 <= i < |ms| => RetiredRow(ms[i], sale, store))
  }

  function Reversed(s: State, sale: Id, store: Id): State
    requires sale in s.items
  {
    s.(products := Restored(s.products, s.items[sale], store),
       movements := Retired(s.movements, sale, store))
  }

  /** One turn of the loop over the lines: the item, the stock deduction and the ledger row. */
  function TakeLine(s: State, sale: PreparedSale, line: Line): State
  {
    var lines := if sale.id in s.items then s.items[sale.id] else [];
    var s1 := s.(items := s.items[sale.id := lines + [line]]);
    match line.product
    case None => s1
    case Some(p) =>
      s1.(products :=
            if p in s.products && s.products[p].store == sale.store
            then s.products[p := s.products[p].(stock := s.products[p].stock - line.quantity)]
            else s.products,
          movements := s.movements + [
            Movement(Minted(|s.movements|), sale.store, p, -line.quantity, SaleTag(sale.id), true)])
  }

  /** The state after the first `n` lines are written. */
  function Written(s: State, sale: PreparedSale, n: nat): State
    requires n <= |sale.lines|
  {
    if n == 0 then s else TakeLine(Written(s, sale, n - 1), sale, sale.lines[n - 1])
  }

  function SaleVerdict(s: State, sale: PreparedSale, who: Recorder): Verdict
  {
    if sale.id !in s.sales then Created
    else
      var existing := s.sales[sale.id];
      if existing.store != sale.store then Refused(Conflict)
      else if existing.voided then Kept
      else if !who.isOwner && existing.recorder != who.staff then Refused(Forbidden)
      else Changed
  }

  /** The sales row is in place, the old effect is gone and there are no items yet. */
  function Cleared(s: State, sale: PreparedSale, who: Recorder): State
  {
    var s1 := if sale.id in s.sales && sale.id in s.items then Reversed(s, sale.id, sale.store) else s;
    var row := if sale.id in s.sales then s.sales[sale.id] else Sale(sale.store, who.staff, false);
    s1.(sales := s.sales[sale.id := row], items := s.items[sale.id := []])
  }

  function AfterSale(s: State, sale: PreparedSale, who: Recorder): State
  {
    match SaleVerdict(s, sale, who)
    case Created => Written(Cleared(s, sale, who), sale, |sale.lines|)
    case Changed => Written(Cleared(s, sale, who), sale, |sale.lines|)
    case _ => s
  }

  function VoidVerdict(s: State, store: Id, sale: Id): Verdict
  {
    if sale in s.sales && s.sales[sale].store == store && !s.sales[sale].voided then Changed
    else Refused(NotFound)
  }

  function AfterVoid(s: State, store: Id, sale: Id): State
  {
    if VoidVerdict(s, store, sale) == Changed && sale in s.items then
      Reversed(s, sale, store).(sales := s.sales[sale := s.sales[sale].(voided := true)])
    else s
  }

  // ----- Stock movements (StockRepository) -----

  datatype StockEffect = Change(delta: int) | SetTo(counted: int)

  datatype Entry = Entry(store: Id, id: Id, product: Id, effect: StockEffect, unitCost: int, note: Note)

  predicate ProductLive(s: State, store: Id, p: Id)
  {
    p in s.products && s.products[p].store == store && s.products[p].live
  }

  predicate HasMovement(ms: seq<Movement>, id: MovementId)
  {
    exists i :: 0 <= i < |ms| && ms[i].id == id
  }

  function EntryDelta(s: State, e: Entry): int
    requires e.product in s.products
  {
    match e.effect
    case Change(delta) => delta
    case SetTo(counted) => counted - s.products[e.product].stock
  }

  function EntryVerdict(s: State, e: Entry): Verdict
  {
    if !ProductLive(s, e.store, e.product) then Refused(NotFound)
    else if HasMovement(s.movements, Device(e.id)) then Kept
    else Created
  }

  function AfterEntry(s: State, e: Entry): State
  {
    if EntryVerdict(s, e) != Created then s
    else
      var p := s.products[e.product];
      var delta := EntryDelta(s, e);
      s.(movements := s.movements + [Movement(Device(e.id), e.store, e.product, delta, e.note, true)],
         products := s.products[e.product :=
           p.(stock := p.stock + delta, cost := if e.unitCost > 0 then e.unitCost else p.cost)])
  }

  // ----- What devices send, and the services that check it -----

  datatype ProductRequest = ProductRequest(id: Id, cost: int, selling: int, opening: int)

  datatype LineRequest = LineRequest(product: Option<Id>, quantity: int, unitPrice: Option<int>)

  datatype SaleRequest = SaleRequest(id: Id, payment: string, at: Option<int>, lines: seq<LineRequest>)

  datatype MovementKind = StockIn | StockOut | Spoilage | Adjustment | OtherKind(name: string)

  datatype MovementRequest = MovementRequest(
    id: Id, product: Id, kind: MovementKind, quantity: int, unitCost: int, note: Note, at: Option<int>)

  datatype ExpenseRequest = ExpenseRequest(id: Id, knownCategory: bool, amount: int)

  datatype WithdrawalRequest = WithdrawalRequest(id: Id, amount: int)

  datatype Entity = SaleEntity | ExpenseEntity | WithdrawalEntity | ProductEntity | OtherEntity(name: string)

  datatype DeletionRequest = DeletionRequest(entity: Entity, id: Id)

  /** One row of a push, whatever its kind. */
  datatype Row =
    | ProductRow(product: ProductRequest)
    | SaleRow(sale: SaleRequest)
    | MovementRow(movement: MovementRequest)
    | ExpenseRow(expense: ExpenseRequest)
    | WithdrawalRow(withdrawal: WithdrawalRequest)
    | DeletionRow(deletion: DeletionRequest)

  const ALLOWED_PAYMENT_METHODS: set<string> := {"cash", "gcash", "maya", "bank_transfer", "utang"}

  /** The cost a save stores. Without profit access it is the live row's cost, or zero. */
  function SavedCost(s: State, store: Id, actor: Actor, r: ProductRequest): int
  {
    if actor.CanViewProfit() then r.cost
    else if ProductLive(s, store, r.id) then s.products[r.id].cost
    else 0
  }

  function ProductVerdict(s: State, store: Id, actor: Actor, r: ProductRequest): Verdict
  {
    if !actor.CanManageProducts() then Refused(Forbidden)
    else if r.selling < SavedCost(s, store, actor, r) then Refused(BadRequest)
    else if r.id !in s.products then Created
    else if s.products[r.id].store != store then Refused(Conflict)
    else Changed
  }

  function AfterProduct(s: State, store: Id, actor: Actor, r: ProductRequest): State
  {
    var cost := SavedCost(s, store, actor, r);
    match ProductVerdict(s, store, actor, r)
    case Created =>
      s.(products := s.products[r.id := Product(store, r.opening, r.opening, cost, r.selling, true)])
    case Changed =>
      s.(products := s.products[r.id := s.products[r.id].(cost := cost, selling := r.selling, live := true)])
    case _ => s
  }

  function Prepared(store: Id, r: SaleRequest): (sale: PreparedSale)
    ensures |sale.lines| == |r.lines|
  {
    PreparedSale(r.id, store,
      seq(|r.lines|, i requires 0 <= i < |r.lines| => Line(r.lines[i].product, r.lines[i].quantity)))
  }

  predicate LineResolves(s: State, store: Id, l: LineRequest)
  {
    match l.product
    case Some(p) => ProductLive(s, store, p)
    case None => l.unitPrice.Some?
  }

  /** The error of the first line that `resolve_line` refuses, if any. */
  function LinesError(s: State, store: Id, lines: seq<LineRequest>): Option<Error>
  {
    if lines == [] then None
    else if !LineResolves(s, store, lines[0]) then
      Some(if lines[0].product.Some? then NotFound else BadRequest)
    else LinesError(s, store, lines[1..])
  }

  function RecorderOf(actor: Actor): Recorder { Recorder(actor.StaffId(), actor.Owner?) }

  function SaleRequestVerdict(s: State, store: Id, actor: Actor, r: SaleRequest): Verdict
  {
    if r.payment !in ALLOWED_PAYMENT_METHODS then Refused(BadRequest)
    else
      match LinesError(s, store, r.lines)
      case Some(e) => Refused(e)
      case None => SaleVerdict(s, Prepared(store, r), RecorderOf(actor))
  }

  function EffectOf(r: MovementRequest): Option<StockEffect>
  {
    match r.kind
    case StockIn => Some(Change(r.quantity))
    case StockOut => Some(Change(-r.quantity))
    case Spoilage => Some(Change(-r.quantity))
    case Adjustment => Some(SetTo(r.quantity))
    case OtherKind(_) => None
  }

  function EntryOf(store: Id, actor: Actor, r: MovementRequest): Entry
    requires EffectOf(r).Some?
  {
    Entry(store, r.id, r.product, EffectOf(r).value,
          if actor.CanViewProfit() then r.unitCost else 0, r.note)
  }

  /** The refusals of `InventoryService::record` that do not look at any row. */
  function MovementRefusal(actor: Actor, r: MovementRequest): Option<Error>
  {
    if !actor.CanManageProducts() then Some(Forbidden)
    else if EffectOf(r).None? then Some(BadRequest)
    else if r.kind != Adjustment && r.quantity == 0 then Some(BadRequest)
    else None
  }

  function MovementVerdict(s: State, store: Id, actor: Actor, r: MovementRequest): Verdict
  {
    match MovementRefusal(actor, r)
    case Some(e) => Refused(e)
    case None => EntryVerdict(s, EntryOf(store, actor, r))
  }

  /** A re-sent expense is revived, whoever deleted it. */
  function ExpenseVerdict(s: State, store: Id, actor: Actor, r: ExpenseRequest): Verdict
  {
    if !actor.CanRecordExpenses() then Refused(Forbidden)
    else if !r.knownCategory then Refused(BadRequest)
    else if r.id !in s.expenses then Created
    else if s.expenses[r.id].store == store
         && (actor.Owner? || s.expenses[r.id].recorder == actor.StaffId()) then Changed
    else Refused(Forbidden)
  }

  function AfterExpense(s: State, store: Id, actor: Actor, r: ExpenseRequest): State
  {
    match ExpenseVerdict(s, store, actor, r)
    case Created => s.(expenses := s.expenses[r.id := Expense(store, actor.StaffId(), r.amount, true)])
    case Changed => s.(expenses := s.expenses[r.id := s.expenses[r.id].(amount := r.amount, live := true)])
    case _ => s
  }

  function WithdrawalVerdict(s: State, store: Id, actor: Actor, r: WithdrawalRequest): Verdict
  {
    if !actor.Owner? then Refused(Forbidden)
    else if r.id !in s.withdrawals then Created
    else if s.withdrawals[r.id].store == store then Changed
    else Refused(Conflict)
  }

  function AfterWithdrawal(s: State, store: Id, actor: Actor, r: WithdrawalRequest): State
  {
    match WithdrawalVerdict(s, store, actor, r)
    case Created => s.(withdrawals := s.withdrawals[r.id := Withdrawal(store, r.amount, true)])
    case Changed => s.(withdrawals := s.withdrawals[r.id := s.withdrawals[r.id].(amount := r.amount, live := true)])
    case _ => s
  }

  predicate MayDelete(actor: Actor, entity: Entity)
  {
    match entity
    case SaleEntity => actor.CanDeleteRecords()
    case ExpenseEntity => actor.CanDeleteRecords()
    case WithdrawalEntity => actor.Owner?
    case ProductEntity => actor.CanManageProducts()
    case OtherEntity(_) => false
  }

  /** Deleting what is already gone counts as success. */
  function DeletionVerdict(s: State, store: Id, actor: Actor, r: DeletionRequest): Verdict
  {
    if r.entity.OtherEntity? then Refused(BadRequest)
    else if !MayDelete(actor, r.entity) then Refused(Forbidden)
    else
      var found :=
        match r.entity
        case SaleEntity => VoidVerdict(s, store, r.id) == Changed
        case ExpenseEntity => r.id in s.expenses && s.expenses[r.id].store == store && s.expenses[r.id].live
        case WithdrawalEntity => r.id in s.withdrawals && s.withdrawals[r.id].store == store && s.withdrawals[r.id].live
        case ProductEntity => ProductLive(s, store, r.id)
        case OtherEntity(_) => false;
      if found then Changed else Kept
  }

  function AfterDeletion(s: State, store: Id, actor: Actor, r: DeletionRequest): State
  {
    if DeletionVerdict(s, store, actor, r) != Changed then s
    else
      match r.entity
      case SaleEntity => AfterVoid(s, store, r.id)
      case ExpenseEntity => s.(expenses := s.expenses[r.id := s.expenses[r.id].(live := false)])
      case WithdrawalEntity => s.(withdrawals := s.withdrawals[r.id := s.withdrawals[r.id].(live := false)])
      case ProductEntity => s.(products := s.products[r.id := s.products[r.id].(live := false)])
      case OtherEntity(_) => s
  }

  // ----- Runs -----

  /** One row sent to one store by one actor. A push is a series of these. */
  datatype Event = Event(store: Id, actor: Actor, row: Row)

  function VerdictOf(s: State, e: Event): Verdict
  {
    match e.row
    case ProductRow(r) => ProductVerdict(s, e.store, e.actor, r)
    case SaleRow(r) => SaleRequestVerdict(s, e.store, e.actor, r)
    case MovementRow(r) => MovementVerdict(s, e.store, e.actor, r)
    case ExpenseRow(r) => ExpenseVerdict(s, e.store, e.actor, r)
    case WithdrawalRow(r) => WithdrawalVerdict(s, e.store, e.actor, r)
    case DeletionRow(r) => DeletionVerdict(s, e.store, e.actor, r)
  }

  function Apply(s: State, e: Event): State
  {
    if VerdictOf(s, e).Refused? then s
    else
      match e.row
      case ProductRow(r) => AfterProduct(s, e.store, e.actor, r)
      case SaleRow(r) => AfterSale(s, Prepared(e.store, r), RecorderOf(e.actor))
      case MovementRow(r) => AfterEntry(s, EntryOf(e.store, e.actor, r))
      case ExpenseRow(r) => AfterExpense(s, e.store, e.actor, r)
      case WithdrawalRow(r) => AfterWithdrawal(s, e.store, e.actor, r)
      case DeletionRow(r) => AfterDeletion(s, e.store, e.actor, r)
  }

  function Run(s: State, es: seq<Event>): State
  {
    if es == [] then s else Apply(Run(s, es[..|es| - 1]), es[|es| - 1])
  }

  lemma {:induction false} RunSplits(s: State, es: seq<Event>, more: seq<Event>)
    ensures Run(s, es + more) == Run(Run(s, es), more)
  {
    if more == [] {
      assert es + more == es;
    } else {
      RunSplits(s, es, more[..|more| - 1]);
      assert (es + more)[..|es + more| - 1] == es + more[..|more| - 1];
    }
  }

  // ----- A push (SyncService::push, push_timeline) -----

  datatype Batch = Batch(
    products: seq<ProductRequest>,
    sales: seq<SaleRequest>,
    movements: seq<MovementRequest>,
    expenses: seq<ExpenseRequest>,
    withdrawals: seq<WithdrawalRequest>,
    deletions: seq<DeletionRequest>)

  /** When a queued row happened; `now` stands in for a missing time. */
  function OccurredAt(row: Row, now: int): int
  {
    match row
    case SaleRow(r) => if r.at.Some? then r.at.value else now
    case MovementRow(r) => if r.at.Some? then r.at.value else now
    case _ => now
  }

  /** The queue before sorting: every sale, then every movement. */
  function Queued(b: Batch): seq<Row>
  {
    seq(|b.sales|, i requires 0 <= i < |b.sales| => SaleRow(b.sales[i]))
    + seq(|b.movements|, i requires 0 <= i < |b.movements| => MovementRow(b.movements[i]))
  }

  function Timeline(b: Batch, now: int): seq<Row>
  {
    StableSort.SortBy(Queued(b), (row: Row) => OccurredAt(row, now))
  }

  function Before(b: Batch): seq<Row>
  {
    seq(|b.products|, i requires 0 <= i < |b.products| => ProductRow(b.products[i]))
  }

  function Behind(b: Batch): seq<Row>
  {
    seq(|b.expenses|, i requires 0 <= i < |b.expenses| => ExpenseRow(b.expenses[i]))
    + seq(|b.withdrawals|, i requires 0 <= i < |b.withdrawals| => WithdrawalRow(b.withdrawals[i]))
    + seq(|b.deletions|, i requires 0 <= i < |b.deletions| => DeletionRow(b.deletions[i]))
  }

  function Events(store: Id, actor: Actor, rows: seq<Row>): (es: seq<Event>)
    ensures |es| == |rows|
    ensures forall i :: 0 <= i < |es| ==> es[i] == Event(store, actor, rows[i])
  {
    seq(|rows|, i requires 0 <= i < |rows| => Event(store, actor, rows[i]))
  }

  /** Running one row more. */
  lemma {:induction false} RunNext(s: State, store: Id, actor: Actor, rows: seq<Row>, n: nat)
    requires 0 < n <= |rows|
    ensures Run(s, Events(store, actor, rows[..n]))
         == Apply(Run(s, Events(store, actor, rows[..n - 1])), Event(store, actor, rows[n - 1]))
  {
    assert Events(store, actor, rows[..n])[..n - 1] == Events(store, actor, rows[..n - 1]);
  }

  /** Products first, then the timeline, then the rest, deletions last. */
  function PushEvents(store: Id, actor: Actor, b: Batch, now: int): seq<Event>
  {
    Events(store, actor, Before(b)) + Events(store, actor, Timeline(b, now)) + Events(store, actor, Behind(b))
  }

  function Push(s: State, store: Id, actor: Actor, b: Batch, now: int): State
  {
    Run(s, PushEvents(store, actor, b, now))
  }
}
