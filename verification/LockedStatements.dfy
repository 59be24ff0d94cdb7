/**
 What every open transaction relies on, and that each statement before a commit keeps it.

 A movement relies on the product it has locked: it is live, and its committed stock is still what
 was read. A sale or void relies on the sale it has locked: its row, its lines, and that nobody
 else writes movements with its tag. Each product version a transaction holds is the committed row
 shifted by what the transaction has done to it so far: what it gave back, less the lines it has
 taken out.

 `Ok` says this of one transaction, `Apart` that two of them hold nothing in common, and `Inv` of
 the whole world that the committed rows are balanced besides.
 */
module LockedStatements {
  import opened Prelude
  import opened Ledger
  import opened Books
  import opened RowLocks

  // ----- What every transaction keeps -----

  predicate Named(lines: seq<Line>, n: nat, p: Id)
    requires n <= |lines|
  {
    exists i :: 0 <= i < n && lines[i].product == Some(p)
  }

  /** What a sale has done to a product so far: given back once, taken out line by line. */
  function NetChange(taken: seq<Line>, done: set<Id>, lines: seq<Line>, n: nat, p: Id): int
    requires n <= |lines|
  {
    (if p in done && Joins(taken, p) then FirstQuantity(taken, p) else 0) - LinesTo(lines, n, p)
  }

  predicate Owned(db: State, own: map<Id, Product>, p: Id, amount: int)
  {
    p in own && p in db.products && own[p] == Shifted(db.products[p], amount)
  }

  ghost predicate OwnsSale(db: State, own: map<Id, Product>, taken: seq<Line>, done: set<Id>, lines: seq<Line>, n: nat)
    requires n <= |lines|
  {
    && (forall p: Id :: p in own <==> p in done || Named(lines, n, p))
    && (forall p: Id :: p in own ==> Owned(db, own, p, NetChange(taken, done, lines, n, p)))
  }

  /** No row from `cut` on carries the sale's tag. */
  predicate UntaggedFrom(ms: seq<Movement>, cut: nat, sale: Id)
  {
    forall i :: cut <= i < |ms| ==> ms[i].note != SaleTag(sale)
  }

  /** The ledger rows of the first `n` lines. */
  function LineRows(sale: PreparedSale, n: nat): seq<Movement>
    requires n <= |sale.lines|
  {
    if n == 0 then []
    else
      match sale.lines[n - 1].product
      case None => LineRows(sale, n - 1)
      case Some(p) =>
        LineRows(sale, n - 1) +
            [Movement(Minted(0), sale.store, p, -sale.lines[n - 1].quantity, SaleTag(sale.id), true)]
  }

  /** A stored sale the job may reverse. */
  predicate Reverses(db: State, job: Job)
  {
    && !job.Enter? && SaleId(job) in db.sales && SaleId(job) in db.items
    && (match job
        case Record(sale, who) => SaleVerdict(db, sale, who) == Changed
        case Undo(store, id) => VoidVerdict(db, store, id) == Changed)
  }

  /** What the caller checked before the transaction began. */
  predicate Sensible(db: State, job: Job)
  {
    match job
    case Enter(e) => PlainNote(e.note)
    case Record(sale, _) => SafeLines(sale.lines) && ProductsKnown(db, sale.store, sale.lines)
    case Undo(_, _) => true
  }

  predicate EntryCounts(db: State, e: Entry, delta: int)
  {
    ProductLive(db, e.store, e.product) && delta == EntryDelta(db, e)
  }

  predicate EntryListed(db: State, x: Transaction, delta: int)
    requires x.job.Enter?
  {
    var e := x.job.entry;
    && EntryCounts(db, e, delta) && !HasMovement(db.movements, Device(e.id))
    && x.rows == [Movement(Device(e.id), e.store, e.product, delta, e.note, true)]
  }

  ghost predicate WritesSale(db: State, x: Transaction, row: Sale, cut: nat, items: seq<Line>)
    requires x.job.Record?
  {
    var sale, n := x.job.sale, |items|;
    var taken := Stored(db, sale.id);
    && n <= |sale.lines| && items == sale.lines[..n]
    && x.rows == LineRows(sale, n)
    && row == (if sale.id in db.sales then db.sales[sale.id] else Sale(sale.store, x.job.who.staff, false))
    && (sale.id in db.sales ==>
        Reverses(db, x.job) && cut <= |db.movements| && UntaggedFrom(db.movements, cut, sale.id))
    && (sale.id !in db.sales ==> cut == 0 && sale.id !in db.items)
    && OwnsSale(db, x.own, taken, Joined(db, taken, sale.store), sale.lines, n)
  }

  ghost predicate Ok(db: State, x: Transaction)
  {
    && Sensible(db, x.job)
    && match x.stage
       case Starting => x.own == map[] && x.rows == []
       case Counted(delta) =>
         x.job.Enter? && EntryCounts(db, x.job.entry, delta) && x.rows == []
         && x.own == map[x.job.entry.product := db.products[x.job.entry.product]]
       case Listed(delta) =>
         x.job.Enter? && EntryListed(db, x, delta)
         && x.own == map[x.job.entry.product := db.products[x.job.entry.product]]
       case Moved(delta) =>
         x.job.Enter? && EntryListed(db, x, delta)
         && x.own == map[x.job.entry.product := Costed(db.products[x.job.entry.product], x.job.entry, delta)]
       case Unlisted => x.job.Record? && x.own == map[] && x.rows == []
       case Reversing(done) =>
         Reverses(db, x.job) && x.rows == []
         && done <= Joined(db, db.items[SaleId(x.job)], StoreOf(x.job))
         && OwnsSale(db, x.own, db.items[SaleId(x.job)], done, [], 0)
       case Struck(cut) =>
         Reverses(db, x.job) && x.rows == []
         && cut <= |db.movements| && UntaggedFrom(db.movements, cut, SaleId(x.job))
         && OwnsSale(db, x.own, db.items[SaleId(x.job)], Joined(db, db.items[SaleId(x.job)], StoreOf(x.job)), [], 0)
       case Writing(row, cut, items) => x.job.Record? && WritesSale(db, x, row, cut, items)
  }

  ghost predicate Apart(x: Transaction, y: Transaction)
  {
    && x.own.Keys !! y.own.Keys
    && (SaleHeld(x).Some? ==> SaleHeld(x) != SaleHeld(y))
    && (MovementHeld(x).Some? ==> MovementHeld(x) != MovementHeld(y))
  }

  ghost predicate Inv(w: World)
  {
    && Balanced(w.db) && Reversible(w.db)
    && (forall t :: t in w.open ==> Ok(w.db, w.open[t]))
    && (forall t, u :: t in w.open && u in w.open && t != u ==> Apart(w.open[t], w.open[u]))
  }

  // ----- Statements before the commit -----

  /** A statement that changes only its own transaction. */
  lemma {:induction false} PrivateStep(w: World, t: Id, x: Transaction)
    requires Inv(w) && Ok(w.db, x)
    requires forall u :: u in w.open && u != t ==> Apart(x, w.open[u])
    ensures Inv(Put(w, t, x))
  {
  }

  lemma {:induction false} EndKeepsInv(w: World, t: Id)
    requires Inv(w)
    ensures Inv(Ended(w, t))
  {
  }

  lemma {:induction false} FirstOk(w: World, t: Id)
    requires Inv(w) && t in w.open && w.open[t].stage.Starting?
    ensures t in DoFirst(w, t).open ==> Ok(w.db, DoFirst(w, t).open[t])
  {
    var v := DoFirst(w, t);
    assert Ok(w.db, w.open[t]);
    if t in v.open && v.open[t].stage.Reversing? {
      assert SaleId(v.open[t].job) in w.db.items;
    }
  }

  lemma {:induction false} FirstKeepsInv(w: World, t: Id)
    requires Inv(w) && t in w.open && w.open[t].stage.Starting?
    ensures Inv(DoFirst(w, t)) && DoFirst(w, t).db == w.db
    ensures t !in DoFirst(w, t).open ==> Outcome(w.db, Whole(w.open[t].job)) == w.db
  {
    var v := DoFirst(w, t);
    if t !in v.open {
      EndKeepsInv(w, t);
    } else if v != w {
      FirstOk(w, t);
      PrivateStep(w, t, v.open[t]);
    }
  }

  lemma {:induction false} RestoreOwns(
      db: State, own: map<Id, Product>, taken: seq<Line>, done: set<Id>, store: Id, p: Id, now: Product)
    requires OwnsSale(db, own, taken, done, [], 0) && p in Joined(db, taken, store) && p !in done
    requires now == Shifted(db.products[p], FirstQuantity(taken, p))
    ensures OwnsSale(db, own[p := now], taken, done + {p}, [], 0)
  {
    forall q: Id | q in own[p := now]
      ensures Owned(db, own[p := now], q, NetChange(taken, done + {p}, [], 0, q))
    {
      if q != p {
        assert Owned(db, own, q, NetChange(taken, done, [], 0, q));
      }
    }
  }

  lemma {:induction false} RestoreKeepsInv(w: World, t: Id, p: Id)
    requires Inv(w) && t in w.open && w.open[t].stage.Reversing?
    ensures !w.open[t].job.Enter? && Inv(DoRestore(w, t, p)) && DoRestore(w, t, p).db == w.db
        && t in DoRestore(w, t, p).open
  {
    var x := w.open[t];
    assert Ok(w.db, x);
    var v := DoRestore(w, t, p);
    if v != w {
      var taken := w.db.items[SaleId(x.job)];
      assert p !in x.own;
      RestoreOwns(w.db, x.own, taken, x.stage.done, StoreOf(x.job), p, v.open[t].own[p]);
      PrivateStep(w, t, v.open[t]);
    }
  }

  lemma {:induction false} NextEntryKeepsInv(w: World, t: Id)
    requires Inv(w) && t in w.open && (w.open[t].stage.Counted? || w.open[t].stage.Listed?)
    ensures Inv(DoNext(w, t)) && DoNext(w, t).db == w.db
    ensures t !in DoNext(w, t).open ==> Outcome(w.db, Whole(w.open[t].job)) == w.db
  {
    assert Ok(w.db, w.open[t]);
    var v := DoNext(w, t);
    if t !in v.open {
      EndKeepsInv(w, t);
    } else if v != w {
      PrivateStep(w, t, v.open[t]);
    }
  }

  /** Before the first line a sale stands where its reversal left it. */
  lemma {:induction false} NoLinesYet(db: State, own: map<Id, Product>, taken: seq<Line>, done: set<Id>,
      lines: seq<Line>)
    requires OwnsSale(db, own, taken, done, [], 0)
    ensures OwnsSale(db, own, taken, done, lines, 0)
  {
    forall p: Id | p in own ensures Owned(db, own, p, NetChange(taken, done, lines, 0, p)) {
      assert Owned(db, own, p, NetChange(taken, done, [], 0, p));
    }
  }

  lemma {:induction false} NextReversalKeepsInv(w: World, t: Id)
    requires Inv(w) && t in w.open && (w.open[t].stage.Reversing? || w.open[t].stage.Struck?)
    ensures Inv(DoNext(w, t)) && DoNext(w, t).db == w.db && t in DoNext(w, t).open
  {
    var x := w.open[t];
    assert Ok(w.db, x);
    var v := DoNext(w, t);
    if v != w {
      var y := v.open[t];
      var taken := w.db.items[SaleId(x.job)];
      assert SaleHeld(y) == SaleHeld(x);
      if x.stage.Reversing? {
        assert x.stage.done == Joined(w.db, taken, StoreOf(x.job));
      } else {
        NoLinesYet(w.db, x.own, taken, Joined(w.db, taken, StoreOf(x.job)), x.job.sale.lines);
      }
      PrivateStep(w, t, y);
    }
  }

  /** A sale that is not found, and that nobody else is writing, starts from nothing. */
  lemma {:induction false} NextUnlistedKeepsInv(w: World, t: Id)
    requires Inv(w) && t in w.open && w.open[t].stage.Unlisted?
    requires w.open[t].job.Record? ==> w.open[t].job.sale.id !in w.db.sales
    ensures Inv(DoNext(w, t)) && DoNext(w, t).db == w.db && t in DoNext(w, t).open
  {
    var x := w.open[t];
    assert Ok(w.db, x);
    var v := DoNext(w, t);
    if v != w {
      var sale := x.job.sale;
      assert sale.id !in w.db.items;
      assert Joined(w.db, [], sale.store) == {};
      assert OwnsSale(w.db, map[], [], {}, sale.lines, 0);
      PrivateStep(w, t, v.open[t]);
    }
  }

  lemma {:induction false} LineOwns(
      db: State, own: map<Id, Product>, taken: seq<Line>, done: set<Id>, lines: seq<Line>, n: nat, p: Id, now: Product)
    requires n < |lines| && lines[n].product == Some(p) && p in db.products
    requires OwnsSale(db, own, taken, done, lines, n)
    requires now == Shifted(if p in own then own[p] else db.products[p], -lines[n].quantity)
    ensures OwnsSale(db, own[p := now], taken, done, lines, n + 1)
  {
    var grown, m := own[p := now], n + 1;
    assert Named(lines, m, p) by { assert lines[n].product == Some(p); }
    if p !in own { LinesWithout(lines, n, p); }
    forall q: Id ensures q in grown <==> q in done || Named(lines, m, q) {
      assert Named(lines, m, q) <==> Named(lines, n, q) || q == p;
    }
    forall q: Id | q in grown ensures Owned(db, grown, q, NetChange(taken, done, lines, m, q)) {
      if q in own { assert Owned(db, own, q, NetChange(taken, done, lines, n, q)); }
    }
  }

  lemma {:induction false} FreeLineOwns(
      db: State, own: map<Id, Product>, taken: seq<Line>, done: set<Id>, lines: seq<Line>, n: nat)
    requires n < |lines| && lines[n].product == None
    requires OwnsSale(db, own, taken, done, lines, n)
    ensures OwnsSale(db, own, taken, done, lines, n + 1)
  {
    var m := n + 1;
    forall q: Id | Named(lines, m, q) ensures Named(lines, n, q) { }
    forall q: Id | q in own ensures Owned(db, own, q, NetChange(taken, done, lines, n + 1, q)) {
      assert Owned(db, own, q, NetChange(taken, done, lines, n, q));
    }
  }

  lemma {:induction false} LineOk(w: World, t: Id)
    requires Inv(w) && t in w.open && w.open[t].stage.Writing? && w.open[t].job.Record?
    requires |w.open[t].stage.items| < |w.open[t].job.sale.lines| && DoLine(w, t) != w
    ensures t in DoLine(w, t).open && Ok(w.db, DoLine(w, t).open[t])
  {
    assert Ok(w.db, w.open[t]);
    var sale, n := w.open[t].job.sale, |w.open[t].stage.items|;
    assert LineKnown(w.db, sale.store, sale.lines[n]);
    LineWrites(w.db, w.open[t], DoLine(w, t).open[t]);
  }

  lemma {:induction false} LineWrites(db: State, x: Transaction, y: Transaction)
    requires x.job.Record? && x.stage.Writing? && WritesSale(db, x, x.stage.row, x.stage.cut, x.stage.items)
    requires |x.stage.items| < |x.job.sale.lines|
    requires LineKnown(db, x.job.sale.store, x.job.sale.lines[|x.stage.items|])
    requires y.job == x.job && y.stage == x.stage.(items := x.stage.items + [x.job.sale.lines[|x.stage.items|]])
    requires match x.job.sale.lines[|x.stage.items|].product
             case None => y.own == x.own && y.rows == x.rows
             case Some(p) =>
               y.own == x.own[p := Shifted(Current(db, x, p), -x.job.sale.lines[|x.stage.items|].quantity)]
               && y.rows == LineRows(x.job.sale, |x.stage.items| + 1)
    ensures WritesSale(db, y, y.stage.row, y.stage.cut, y.stage.items)
  {
    var sale, n := x.job.sale, |x.stage.items|;
    var taken := Stored(db, sale.id);
    var done := Joined(db, taken, sale.store);
    SliceGrows(sale.lines, n);
    match sale.lines[n].product {
      case None => FreeLineOwns(db, x.own, taken, done, sale.lines, n);
      case Some(p) => LineOwns(db, x.own, taken, done, sale.lines, n, p, y.own[p]);
    }
  }

  lemma {:induction false} LineKeepsInv(w: World, t: Id)
    requires Inv(w) && t in w.open && w.open[t].stage.Writing? && w.open[t].job.Record?
    requires |w.open[t].stage.items| < |w.open[t].job.sale.lines|
    ensures Inv(DoLine(w, t)) && DoLine(w, t).db == w.db && t in DoLine(w, t).open
  {
    var v := DoLine(w, t);
    if v != w {
      LineOk(w, t);
      assert SaleHeld(v.open[t]) == SaleHeld(w.open[t]);
      PrivateStep(w, t, v.open[t]);
    }
  }
}
