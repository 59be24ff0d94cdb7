/**
 Commits: what a transaction publishes is what the atomic operation does to the committed rows.

 `CommitIsAtomic` puts together one lemma for each kind of job. For a sale, the versions of the
 products it owns and the rows it adds are compared with the atomic sale one product and one line
 at a time, from the state in which the lines are written.

 The second half shows what a commit leaves alone: the products, sales and movement ids that other
 transactions hold, and the notes of the rows they may still retire. `CommitKeepsInv` is what the
 runs need.
 */
module LockedCommits {
  import opened Prelude
  import opened Ledger
  import opened Books
  import opened RowLocks
  import opened LockedStatements

  // ----- The commit is the atomic operation -----

  lemma {:induction false} EntryCommits(db: State, x: Transaction)
    requires Ok(db, x) && x.job.Enter? && Ready(x)
    ensures Committed(db, x) == AfterEntry(db, x.job.entry)
  {
    assert Placed(x.rows, |db.movements|) == x.rows;
    var e := x.job.entry;
    assert db.products + x.own == db.products[e.product := x.own[e.product]];
  }

  lemma {:induction false} CutIsRetired(ms: seq<Movement>, cut: nat, sale: Id, store: Id)
    requires UntaggedFrom(ms, cut, sale)
    ensures Cut(ms, cut, sale, store) == Retired(ms, sale, store)
  {
  }

  lemma {:induction false} RestoredIsOwned(db: State, own: map<Id, Product>, taken: seq<Line>, store: Id)
    requires OwnsSale(db, own, taken, Joined(db, taken, store), [], 0)
    ensures db.products + own == Restored(db.products, taken, store)
  {
    var restored := Restored(db.products, taken, store);
    forall p | p in db.products ensures (db.products + own)[p] == restored[p] {
      if p in own { assert Owned(db, own, p, NetChange(taken, Joined(db, taken, store), [], 0, p)); }
    }
    forall p | p in own ensures p in db.products {
      assert Owned(db, own, p, NetChange(taken, Joined(db, taken, store), [], 0, p));
    }
  }

  lemma {:induction false} UndoCommits(db: State, x: Transaction)
    requires Ok(db, x) && x.job.Undo? && Ready(x)
    ensures Committed(db, x) == AfterVoid(db, x.job.store, x.job.id)
  {
    var store, id := x.job.store, x.job.id;
    CutIsRetired(db.movements, x.stage.cut, id, store);
    RestoredIsOwned(db, x.own, db.items[id], store);
  }

  function AfterLines(product: Product, sale: PreparedSale, n: nat, p: Id): Product
    requires n <= |sale.lines|
  {
    if product.store == sale.store then Shifted(product, -LinesTo(sale.lines, n, p)) else product
  }

  /** The stock after the first `n` lines. */
  lemma {:induction false} WrittenStock(s: State, sale: PreparedSale, n: nat, p: Id)
    requires n <= |sale.lines|
    ensures p in Written(s, sale, n).products <==> p in s.products
    ensures p in s.products ==> Written(s, sale, n).products[p] == AfterLines(s.products[p], sale, n, p)
  {
    if n > 0 {
      WrittenStock(s, sale, n - 1, p);
    }
  }

  lemma {:induction false} PlacedGrows(rows: seq<Movement>, m: Movement, base: nat)
    requires m.id.Minted?
    ensures Placed(rows + [m], base) == Placed(rows, base) + [m.(id := Minted(base + |rows|))]
  {
  }

  lemma {:induction false} WrittenRows(s: State, sale: PreparedSale, n: nat)
    requires n <= |sale.lines|
    ensures Written(s, sale, n).movements == s.movements + Placed(LineRows(sale, n), |s.movements|)
    ensures Written(s, sale, n).expenses == s.expenses && Written(s, sale, n).withdrawals == s.withdrawals
  {
    if n > 0 {
      WrittenRows(s, sale, n - 1);
      match sale.lines[n - 1].product {
        case None =>
        case Some(p) =>
          PlacedGrows(LineRows(sale, n - 1),
                      Movement(Minted(0), sale.store, p, -sale.lines[n - 1].quantity, SaleTag(sale.id), true),
                      |s.movements|);
      }
    }
  }

  lemma {:induction false} RecordCommitsProduct(db: State, x: Transaction, cleared: State, p: Id)
    requires Ok(db, x) && x.job.Record? && Ready(x) && SalesSound(db)
    requires cleared == Cleared(db, x.job.sale, x.job.who)
    ensures var after := Written(cleared, x.job.sale, |x.job.sale.lines|).products;
      && (p in after <==> p in db.products + x.own)
      && (p in after ==> after[p] == (db.products + x.own)[p])
  {
    var sale := x.job.sale;
    var n, taken := |sale.lines|, Stored(db, sale.id);
    var done := Joined(db, taken, sale.store);
    WrittenStock(cleared, sale, n, p);
    if p in x.own {
      assert Owned(db, x.own, p, NetChange(taken, done, sale.lines, n, p));
      OwnedInStore(db, x, p);
    } else {
      LinesWithout(sale.lines, n, p);
    }
  }

  lemma {:induction false} RecordCommitsProducts(db: State, x: Transaction)
    requires Ok(db, x) && x.job.Record? && Ready(x) && SalesSound(db)
    ensures db.products + x.own == AfterSale(db, x.job.sale, x.job.who).products
  {
    var cleared := Cleared(db, x.job.sale, x.job.who);
    var after := Written(cleared, x.job.sale, |x.job.sale.lines|).products;
    forall p: Id
        ensures (p in after <==> p in db.products + x.own) && (p in after ==> after[p] == (db.products + x.own)[p]) {
      RecordCommitsProduct(db, x, cleared, p);
    }
    assert after == db.products + x.own;
  }

  lemma {:induction false} OwnedInStore(db: State, x: Transaction, p: Id)
    requires Ok(db, x) && x.job.Record? && Ready(x) && SalesSound(db) && p in x.own
    ensures p in db.products && db.products[p].store == x.job.sale.store
  {
    var sale := x.job.sale;
    var n, taken := |sale.lines|, Stored(db, sale.id);
    if p !in Joined(db, taken, sale.store) {
      var i :| 0 <= i < n && sale.lines[i].product == Some(p);
      assert LineKnown(db, sale.store, sale.lines[i]);
    }
  }

  lemma {:induction false} RecordCommits(db: State, x: Transaction)
    requires Ok(db, x) && x.job.Record? && Ready(x) && SalesSound(db)
    ensures Committed(db, x) == AfterSale(db, x.job.sale, x.job.who)
  {
    var sale, who := x.job.sale, x.job.who;
    var cleared := Cleared(db, sale, who);
    RecordCommitsProducts(db, x);
    SaleItems(db, sale, who);
    WholeSlice(sale.lines);
    WrittenRows(cleared, sale, |sale.lines|);
    if sale.id in db.sales {
      CutIsRetired(db.movements, x.stage.cut, sale.id, sale.store);
    } else {
      assert Cut(db.movements, 0, sale.id, sale.store) == db.movements;
    }
  }

  // ----- What a commit leaves alone -----

  predicate StoresStay(db: State, later: State)
  {
    forall p :: p in db.products ==> p in later.products && later.products[p].store == db.products[p].store
  }

  predicate SaleStays(db: State, later: State, id: Id)
  {
    && (id in later.sales <==> id in db.sales) && (id in db.sales ==> later.sales[id] == db.sales[id])
    && (id in later.items <==> id in db.items) && (id in db.items ==> later.items[id] == db.items[id])
  }

  /** The first rows keep their notes, and no later row is tagged with the sale. */
  predicate TagsStay(ms: seq<Movement>, later: seq<Movement>, id: Id)
  {
    && |ms| <= |later|
    && (forall i :: 0 <= i < |ms| ==> later[i].note == ms[i].note)
    && (forall i :: |ms| <= i < |later| ==> later[i].note != SaleTag(id))
  }

  /** Everything a transaction has locked or counted on is as it was. */
  ghost predicate Undisturbed(db: State, later: State, x: Transaction)
  {
    && StoresStay(db, later)
    && (forall p :: p in x.own && p in db.products ==> later.products[p] == db.products[p])
    && (SaleHeld(x).Some? ==>
        SaleStays(db, later, SaleId(x.job)) && TagsStay(db.movements, later.movements, SaleId(x.job)))
    && (MovementHeld(x).Some? ==> !HasMovement(later.movements, Device(x.job.entry.id)))
  }

  lemma {:induction false} KnownStays(db: State, later: State, store: Id, lines: seq<Line>)
    requires ProductsKnown(db, store, lines) && StoresStay(db, later)
    ensures ProductsKnown(later, store, lines)
    ensures Joined(later, lines, store) == Joined(db, lines, store)
  {
    forall i | 0 <= i < |lines| ensures LineKnown(later, store, lines[i]) {
      assert LineKnown(db, store, lines[i]);
    }
    forall p | p in Joined(later, lines, store) ensures p in Joined(db, lines, store) {
      var i :| 0 <= i < |lines| && lines[i].product == Some(p);
      assert LineKnown(db, store, lines[i]);
    }
  }

  lemma {:induction false} OwnsStays(
      db: State, later: State, own: map<Id, Product>, taken: seq<Line>, done: set<Id>, lines: seq<Line>, n: nat)
    requires n <= |lines| && OwnsSale(db, own, taken, done, lines, n) && StoresStay(db, later)
    requires forall p :: p in own && p in db.products ==> later.products[p] == db.products[p]
    ensures OwnsSale(later, own, taken, done, lines, n)
  {
    forall p: Id | p in own ensures Owned(later, own, p, NetChange(taken, done, lines, n, p)) {
      assert Owned(db, own, p, NetChange(taken, done, lines, n, p));
    }
  }

  lemma {:induction false} SensibleStays(db: State, later: State, job: Job)
    requires Sensible(db, job) && StoresStay(db, later)
    ensures Sensible(later, job)
  {
    if job.Record? {
      KnownStays(db, later, job.sale.store, job.sale.lines);
    }
  }

  /** A sale somebody holds is still the one they looked up. */
  lemma {:induction false} HeldSaleStays(db: State, later: State, x: Transaction)
    requires SalesSound(db) && Ok(db, x) && Undisturbed(db, later, x)
    requires x.stage.Reversing? || x.stage.Struck?
    ensures Ok(later, x)
  {
    var id, store := SaleId(x.job), StoreOf(x.job);
    SensibleStays(db, later, x.job);
    assert SaleSound(db, id);
    KnownStays(db, later, store, db.items[id]);
    OwnsStays(db, later, x.own, db.items[id], if x.stage.Reversing? then x.stage.done
        else Joined(db, db.items[id], store), [], 0);
  }

  lemma {:induction false} WritesStays(db: State, later: State, x: Transaction)
    requires SalesSound(db) && Ok(db, x) && Undisturbed(db, later, x) && x.stage.Writing?
    ensures Ok(later, x)
  {
    var sale, n := x.job.sale, |x.stage.items|;
    var taken := Stored(db, sale.id);
    SensibleStays(db, later, x.job);
    if sale.id in db.sales {
      assert SaleSound(db, sale.id);
    }
    KnownStays(db, later, sale.store, taken);
    OwnsStays(db, later, x.own, taken, Joined(db, taken, sale.store), sale.lines, n);
  }

  lemma {:induction false} OkStays(db: State, later: State, x: Transaction)
    requires SalesSound(db) && Ok(db, x) && Undisturbed(db, later, x)
    ensures Ok(later, x)
  {
    SensibleStays(db, later, x.job);
    if x.stage.Reversing? || x.stage.Struck? {
      HeldSaleStays(db, later, x);
    } else if x.stage.Writing? {
      WritesStays(db, later, x);
    }
  }

  // ----- Commits -----

  lemma {:induction false} CommitIsAtomic(db: State, x: Transaction)
    requires Ok(db, x) && Ready(x) && SalesSound(db)
    ensures Committed(db, x) == Outcome(db, Whole(x.job))
  {
    match x.job
    case Enter(_) => EntryCommits(db, x);
    case Record(_, _) => RecordCommits(db, x);
    case Undo(_, _) => UndoCommits(db, x);
  }

  lemma {:induction false} OutcomeKeepsBooks(db: State, job: Job)
    requires Balanced(db) && Reversible(db) && Sensible(db, job)
    ensures Balanced(Outcome(db, Whole(job))) && Reversible(Outcome(db, Whole(job)))
  {
    match job
    case Enter(e) => EntryKeepsBooks(db, e);
    case Record(sale, who) =>
      SaleKeepsBooks(db, sale, who);
      if SaleVerdict(db, sale, who).Created? || SaleVerdict(db, sale, who).Changed? { SaleItems(db, sale, who); }
    case Undo(store, id) => VoidKeepsBooks(db, store, id);
  }

  /** What a transaction owns are versions of rows that exist, in the store they were in. */
  lemma {:induction false} OwnKeepsStores(db: State, x: Transaction, p: Id)
    requires Ok(db, x) && Ready(x) && p in x.own
    ensures p in db.products && x.own[p].store == db.products[p].store
  {
    if !x.job.Enter? {
      var taken := Stored(db, SaleId(x.job));
      assert Owned(db, x.own, p, NetChange(taken, Joined(db, taken, StoreOf(x.job)), Lines(x.job), |Lines(x.job)|, p));
    }
  }

  lemma {:induction false} LineRowNotes(sale: PreparedSale, n: nat, i: nat)
    requires n <= |sale.lines| && i < |LineRows(sale, n)|
    ensures LineRows(sale, n)[i].note == SaleTag(sale.id) && LineRows(sale, n)[i].id.Minted?
  {
    if i < |LineRows(sale, n - 1)| {
      LineRowNotes(sale, n - 1, i);
    }
  }

  /** The rows a transaction adds carry its own sale's tag or none, and its own id or none. */
  lemma {:induction false} AddedRows(db: State, x: Transaction, i: nat)
    requires Ok(db, x) && Ready(x) && i < |x.rows|
    ensures x.rows[i].note.SaleTag? ==> SaleHeld(x) == Some(x.rows[i].note.sale)
    ensures x.rows[i].id.Device? ==> MovementHeld(x) == Some(x.rows[i].id.id)
  {
    if x.job.Record? {
      LineRowNotes(x.job.sale, |x.stage.items|, i);
    }
  }

  lemma {:induction false} CommittedRow(db: State, x: Transaction, i: nat)
    requires Ready(x) && i < |Committed(db, x).movements|
    ensures |db.movements| <= |Committed(db, x).movements| <= |db.movements| + |x.rows|
    ensures var row := Committed(db, x).movements[i];
      if i < |db.movements| then row.id == db.movements[i].id && row.note == db.movements[i].note
      else row.note == x.rows[i - |db.movements|].note
           && (row.id.Device? ==> row.id == x.rows[i - |db.movements|].id)
  {
  }

  lemma {:induction false} CommitKeepsTags(db: State, x: Transaction, y: Transaction)
    requires Ok(db, x) && Ready(x) && Apart(y, x) && SaleHeld(y).Some?
    ensures TagsStay(db.movements, Committed(db, x).movements, SaleId(y.job))
  {
    var later := Committed(db, x).movements;
    forall i | 0 <= i < |later|
      ensures if i < |db.movements| then later[i].note == db.movements[i].note
          else later[i].note != SaleTag(SaleId(y.job))
    {
      CommittedRow(db, x, i);
      if i >= |db.movements| { AddedRows(db, x, i - |db.movements|); }
    }
  }

  lemma {:induction false} CommitKeepsIds(db: State, x: Transaction, id: Id)
    requires Ok(db, x) && Ready(x) && MovementHeld(x) != Some(id) && !HasMovement(db.movements, Device(id))
    ensures !HasMovement(Committed(db, x).movements, Device(id))
  {
    var later := Committed(db, x).movements;
    forall i | 0 <= i < |later| ensures later[i].id != Device(id) {
      CommittedRow(db, x, i);
      if i >= |db.movements| { AddedRows(db, x, i - |db.movements|); }
    }
  }

  lemma {:induction false} CommitKeepsStores(db: State, x: Transaction)
    requires Ok(db, x) && Ready(x)
    ensures StoresStay(db, Committed(db, x))
  {
    forall p | p in db.products ensures Committed(db, x).products[p].store == db.products[p].store {
      if p in x.own { OwnKeepsStores(db, x, p); }
    }
  }

  lemma {:induction false} CommitLeavesAlone(db: State, x: Transaction, y: Transaction)
    requires Ok(db, x) && Ok(db, y) && Ready(x) && Apart(y, x)
    ensures Undisturbed(db, Committed(db, x), y)
  {
    CommitKeepsStores(db, x);
    if SaleHeld(y).Some? { CommitKeepsTags(db, x, y); }
    if MovementHeld(y).Some? { CommitKeepsIds(db, x, y.job.entry.id); }
  }

  lemma {:induction false} CommitKeepsInv(w: World, t: Id)
    requires Inv(w) && t in w.open && Ready(w.open[t])
    ensures Inv(Do(w, Commit(t))) && Do(w, Commit(t)).db == Outcome(w.db, Whole(w.open[t].job))
  {
    var x := w.open[t];
    var later := Committed(w.db, x);
    CommitIsAtomic(w.db, x);
    OutcomeKeepsBooks(w.db, x.job);
    forall u | u in w.open && u != t ensures Ok(later, w.open[u]) {
      CommitLeavesAlone(w.db, x, w.open[u]);
      OkStays(w.db, later, w.open[u]);
    }
  }

  /** At most the product `written` changes, and nothing of the sales and movements. */
  ghost predicate OnlyWrites(db: State, later: State, written: Option<Id>)
  {
    && later.movements == db.movements && later.sales == db.sales && later.items == db.items
    && StoresStay(db, later)
    && forall p :: p in db.products && written != Some(p) ==> later.products[p] == db.products[p]
  }

  lemma {:induction false} SaveWritesOne(db: State, store: Id, actor: Actor, r: ProductRequest)
    ensures OnlyWrites(db, AfterProduct(db, store, actor, r), Some(r.id))
  {
  }

  lemma {:induction false} DeletionWritesOne(db: State, store: Id, actor: Actor, r: DeletionRequest)
    requires !r.entity.SaleEntity?
    ensures OnlyWrites(db, AfterDeletion(db, store, actor, r), if r.entity.ProductEntity? then Some(r.id) else None)
  {
  }

  lemma {:induction false} SingleFrame(db: State, e: Event)
    requires IsSingle(e)
    ensures OnlyWrites(db, Apply(db, e), ProductWritten(e))
  {
    match e.row {
      case ProductRow(r) => SaveWritesOne(db, e.store, e.actor, r);
      case DeletionRow(r) => DeletionWritesOne(db, e.store, e.actor, r);
      case _ =>
    }
  }

  lemma {:induction false} SingleLeavesAlone(w: World, e: Event, later: State, t: Id)
    requires Inv(w) && OtherRuns(w, e) && t in w.open && later == Apply(w.db, e)
    ensures Undisturbed(w.db, later, w.open[t])
  {
    SingleFrame(w.db, e);
    assert Ok(w.db, w.open[t]);
  }

  lemma {:induction false} SingleKeepsInv(w: World, e: Event)
    requires Inv(w) && OtherRuns(w, e)
    ensures Inv(Do(w, Other(e)))
  {
    ApplyKeepsBooks(w.db, e);
    ApplyKeepsReversible(w.db, e);
    forall t | t in w.open ensures Ok(Apply(w.db, e), w.open[t]) {
      SingleLeavesAlone(w, e, Apply(w.db, e), t);
      OkStays(w.db, Apply(w.db, e), w.open[t]);
    }
  }
}
