/**
 Movements, sales and voids as the transactions they are: one statement at a time, under row locks,
 in any interleaving. A transaction sees the latest committed rows when it takes a lock, keeps its
 own versions until it commits, and nobody else can change a row it has locked.

 Every interleaved run ends in the rows that the atomic operations of Ledger give in the order the
 transactions ended.
 */
module RowLocks {
  import opened Prelude
  import opened Ledger
  import opened Books

  datatype Job = Enter(entry: Entry) | Record(sale: PreparedSale, who: Recorder) | Undo(store: Id, id: Id)

  datatype Stage =
    | Starting
    | Counted(delta: int)                                    // the product is locked and read
    | Listed(delta: int)                                     // the ledger row is inserted
    | Moved(delta: int)                                      // the stock is updated
    | Unlisted                                               // the sale id was not found, so nothing is locked
    | Reversing(done: set<Id>)                               // the sale is locked, these products are restored
    | Struck(cut: nat)                                      // its rows among the first `cut` are retired
    | Writing(row: Sale, cut: nat, items: seq<Line>)         // the sales row is written, and these lines

  /** `own` holds the transaction's versions of the products it has locked. */
  datatype Transaction = Transaction(job: Job, stage: Stage, own: map<Id, Product>, rows: seq<Movement>)

  datatype World = World(db: State, open: map<Id, Transaction>)

  datatype Step =
    | Begin(t: Id, job: Job)
    | First(t: Id)                  // the statement that looks the row up
    | Restore(t: Id, p: Id)         // restore_stock_for locks one joined product after another
    | Next(t: Id)                   // whatever statement comes next
    | Commit(t: Id)
    | Abort(t: Id)
    | Other(e: Event)               // a save or deletion that is a single statement

  function SaleId(job: Job): Id
    requires !job.Enter?
  {
    if job.Record? then job.sale.id else job.id
  }

  function StoreOf(job: Job): Id
  {
    match job
    case Enter(e) => e.store
    case Record(sale, _) => sale.store
    case Undo(store, _) => store
  }

  function Lines(job: Job): seq<Line>
  {
    if job.Record? then job.sale.lines else []
  }

  /** The sale whose row a transaction has locked. */
  function SaleHeld(x: Transaction): Option<Id>
  {
    if !x.job.Enter? && (x.stage.Reversing? || x.stage.Struck? || x.stage.Writing?) then Some(SaleId(x.job))
    else None
  }

  /** The movement id a transaction has inserted. */
  function MovementHeld(x: Transaction): Option<Id>
  {
    if x.job.Enter? && (x.stage.Listed? || x.stage.Moved?) then Some(x.job.entry.id) else None
  }

  predicate ProductFree(w: World, t: Id, p: Id)
  {
    forall u | u in w.open && u != t :: p !in w.open[u].own
  }

  predicate SaleFree(w: World, t: Id, id: Id)
  {
    forall u | u in w.open && u != t :: SaleHeld(w.open[u]) != Some(id)
  }

  predicate MovementFree(w: World, t: Id, id: Id)
  {
    forall u | u in w.open && u != t :: MovementHeld(w.open[u]) != Some(id)
  }

  /** The products `restore_stock_for` joins to. */
  function Joined(db: State, lines: seq<Line>, store: Id): set<Id>
  {
    set p | p in db.products && db.products[p].store == store && Joins(lines, p)
  }

  function Stored(db: State, id: Id): seq<Line>
  {
    if id in db.items then db.items[id] else []
  }

  function Shifted(p: Product, amount: int): Product
  {
    p.(stock := p.stock + amount)
  }

  function Costed(p: Product, e: Entry, delta: int): Product
  {
    p.(stock := p.stock + delta, cost := if e.unitCost > 0 then e.unitCost else p.cost)
  }

  /** The row as the transaction sees it: its own version, or the latest committed one. */
  function Current(db: State, x: Transaction, p: Id): Product
    requires p in x.own || p in db.products
  {
    if p in x.own then x.own[p] else db.products[p]
  }

  function Put(w: World, t: Id, x: Transaction): World { w.(open := w.open[t := x]) }

  function Ended(w: World, t: Id): World { w.(open := w.open - {t}) }

  /** A statement that has to wait leaves the world as it is. */
  function DoFirst(w: World, t: Id): World
    requires t in w.open && w.open[t].stage.Starting?
  {
    var x := w.open[t];
    match x.job
    case Enter(e) =>
      if !ProductLive(w.db, e.store, e.product) then Ended(w, t)
      else if !ProductFree(w, t, e.product) then w
      else
        Put(w, t, x.(stage := Counted(EntryDelta(w.db, e)), own := map[e.product := w.db.products[e.product]]))
    case Record(sale, who) =>
      if sale.id !in w.db.sales then Put(w, t, x.(stage := Unlisted))
      else if !SaleFree(w, t, sale.id) then w
      else if SaleVerdict(w.db, sale, who) != Changed then Ended(w, t)
      else Put(w, t, x.(stage := Reversing({})))
    case Undo(store, id) =>
      if VoidVerdict(w.db, store, id) != Changed then Ended(w, t)
      else if !SaleFree(w, t, id) then w
      else Put(w, t, x.(stage := Reversing({})))
  }

  function DoRestore(w: World, t: Id, p: Id): World
    requires t in w.open && w.open[t].stage.Reversing? && !w.open[t].job.Enter?
  {
    var x := w.open[t];
    var lines := Stored(w.db, SaleId(x.job));
    if p in x.stage.done || p !in Joined(w.db, lines, StoreOf(x.job)) || !ProductFree(w, t, p) then w
    else
      Put(w, t, x.(stage := Reversing(x.stage.done + {p}),
                   own := x.own[p := Shifted(Current(w.db, x, p), FirstQuantity(lines, p))]))
  }

  /** One turn of the loop over the lines. */
  function DoLine(w: World, t: Id): World
    requires t in w.open && w.open[t].stage.Writing? && w.open[t].job.Record?
    requires |w.open[t].stage.items| < |w.open[t].job.sale.lines|
  {
    var x := w.open[t];
    var sale := x.job.sale;
    var line := sale.lines[|x.stage.items|];
    var x1 := x.(stage := x.stage.(items := x.stage.items + [line]));
    match line.product
    case None => Put(w, t, x1)
    case Some(p) =>
      if !ProductFree(w, t, p) then w
      else
        Put(w, t, x1.(
          own := if p in w.db.products && w.db.products[p].store == sale.store
                 then x.own[p := Shifted(Current(w.db, x, p), -line.quantity)] else x.own,
          rows := x.rows + [Movement(Minted(0), sale.store, p, -line.quantity, SaleTag(sale.id), true)]))
  }

  function DoNext(w: World, t: Id): World
    requires t in w.open
  {
    var x := w.open[t];
    match x.stage
    case Counted(delta) =>
      if !x.job.Enter? then w
      else if HasMovement(w.db.movements, Device(x.job.entry.id)) then Ended(w, t)
      else if !MovementFree(w, t, x.job.entry.id) then w
      else
        var e := x.job.entry;
        Put(w, t, x.(stage := Listed(delta),
                     rows := [Movement(Device(e.id), e.store, e.product, delta, e.note, true)]))
    case Listed(delta) =>
      if !x.job.Enter? || x.job.entry.product !in x.own then w
      else
        var e := x.job.entry;
        Put(w, t, x.(stage := Moved(delta), own := map[e.product := Costed(x.own[e.product], e, delta)]))
    case Reversing(done) =>
      if x.job.Enter? || !(Joined(w.db, Stored(w.db, SaleId(x.job)), StoreOf(x.job)) <= done) then w
      else Put(w, t, x.(stage := Struck(|w.db.movements|)))
    case Struck(cut) =>
      if !x.job.Record? || x.job.sale.id !in w.db.sales then w
      else Put(w, t, x.(stage := Writing(w.db.sales[x.job.sale.id], cut, [])))
    case Unlisted =>
      if !x.job.Record? || !SaleFree(w, t, x.job.sale.id) then w
      else
        var sale := x.job.sale;
        var row := if sale.id in w.db.sales then w.db.sales[sale.id] else Sale(sale.store, x.job.who.staff, false);
        Put(w, t, x.(stage := Writing(row, 0, [])))
    case Writing(_, _, items) =>
      if !x.job.Record? || |items| >= |x.job.sale.lines| then w else DoLine(w, t)
    case _ => w
  }

  /** The sale's rows among the first `cut` stop counting. */
  function Cut(ms: seq<Movement>, cut: nat, sale: Id, store: Id): seq<Movement>
  {
    seq(|ms|, i requires 0 <= i < |ms| => if i < cut then RetiredRow(ms[i], sale, store) else ms[i])
  }

  /** Rows get their serials when they become visible. */
  function Placed(rows: seq<Movement>, base: nat): seq<Movement>
  {
    seq(|rows|, i requires 0 <= i < |rows| =>
      if rows[i].id.Minted? then rows[i].(id := Minted(base + i)) else rows[i])
  }

  predicate Ready(x: Transaction)
  {
    match x.job
    case Enter(_) => x.stage.Moved?
    case Record(sale, _) => x.stage.Writing? && |x.stage.items| == |sale.lines|
    case Undo(_, _) => x.stage.Struck?
  }

  function Committed(db: State, x: Transaction): State
    requires Ready(x)
  {
    var products := db.products + x.own;
    match x.job
    case Enter(_) => db.(products := products, movements := db.movements + Placed(x.rows, |db.movements|))
    case Record(sale, _) =>
      db.(products := products,
          movements := Cut(db.movements, x.stage.cut, sale.id, sale.store) + Placed(x.rows, |db.movements|),
          sales := db.sales[sale.id := x.stage.row],
          items := db.items[sale.id := x.stage.items])
    case Undo(store, id) =>
      db.(products := products,
          movements := Cut(db.movements, x.stage.cut, id, store),
          sales := if id in db.sales then db.sales[id := db.sales[id].(voided := true)] else db.sales)
  }

  /** The product row a single statement writes, if it writes one. */
  function ProductWritten(e: Event): Option<Id>
  {
    match e.row
    case ProductRow(r) => Some(r.id)
    case DeletionRow(r) => if r.entity.ProductEntity? then Some(r.id) else None
    case _ => None
  }

  predicate IsSingle(e: Event)
  {
    !e.row.SaleRow? && !e.row.MovementRow? && (e.row.DeletionRow? ==> !e.row.deletion.entity.SaleEntity?)
  }

  predicate OtherRuns(w: World, e: Event)
  {
    IsSingle(e) && forall u | u in w.open ::
        match ProductWritten(e) case Some(p) => p !in w.open[u].own case None => true
  }

  function Do(w: World, s: Step): World
  {
    match s
    case Begin(t, job) => if t in w.open then w else Put(w, t, Transaction(job, Starting, map[], []))
    case First(t) => if t in w.open && w.open[t].stage.Starting? then DoFirst(w, t) else w
    case Restore(t, p) =>
      if t in w.open && w.open[t].stage.Reversing? && !w.open[t].job.Enter? then DoRestore(w, t, p) else w
    case Next(t) => if t in w.open then DoNext(w, t) else w
    case Commit(t) =>
      if t in w.open && Ready(w.open[t]) then Ended(w, t).(db := Committed(w.db, w.open[t])) else w
    case Abort(t) => Ended(w, t)
    case Other(e) => if OtherRuns(w, e) then w.(db := Apply(w.db, e)) else w
  }

  // ----- The atomic operations -----

  datatype Operation = Whole(job: Job) | Single(e: Event)

  function Outcome(db: State, op: Operation): State
  {
    match op
    case Whole(Enter(e)) => AfterEntry(db, e)
    case Whole(Record(sale, who)) => AfterSale(db, sale, who)
    case Whole(Undo(store, id)) => AfterVoid(db, store, id)
    case Single(e) => Apply(db, e)
  }

  function Outcomes(db: State, ops: seq<Operation>): State
    decreases |ops|
  {
    if ops == [] then db else Outcomes(Outcome(db, ops[0]), ops[1..])
  }

  /** What a step brings to an end; an aborted transaction brings nothing. */
  function Finished(w: World, s: Step): seq<Operation>
  {
    match s
    case Other(e) => if OtherRuns(w, e) then [Single(e)] else []
    case Abort(_) => []
    case Begin(_, _) => []
    case _ => if s.t in w.open && s.t !in Do(w, s).open then [Whole(w.open[s.t].job)] else []
  }

  function Run(w: World, steps: seq<Step>): World
    decreases |steps|
  {
    if steps == [] then w else Run(Do(w, steps[0]), steps[1..])
  }

  function FinishedBy(w: World, steps: seq<Step>): seq<Operation>
    decreases |steps|
  {
    if steps == [] then [] else Finished(w, steps[0]) + FinishedBy(Do(w, steps[0]), steps[1..])
  }
}
