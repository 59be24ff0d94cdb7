/**
 Statements and commits when first recordings may race.

 A transaction that is not racing stands as in `LockedStatements`, and its statements do what they
 would do without the racing ones. A racing one holds its sale and its products like any other. The
 books stay balanced until one commits over a version whose effects stay.

 `RaceInv` is what every statement keeps, and every commit that does no such harm.
 */
module RacingStatements {
  import opened Prelude
  import opened Ledger
  import opened Books
  import opened RowLocks
  import opened LockedStatements
  import opened LockedCommits
  import opened FirstRecordings
  import Interleavings

  /** Not found when it was looked up, stored by somebody else since, and being written over that. */
  ghost predicate Racing(db: State, x: Transaction)
  {
    && x.job.Record? && x.job.sale.id in db.sales && Sensible(db, x.job)
    && x.stage.Writing? && x.stage.row == db.sales[x.job.sale.id] && x.stage.cut == 0
    && |x.stage.items| <= |x.job.sale.lines| && x.stage.items == x.job.sale.lines[..|x.stage.items|]
    && x.rows == LineRows(x.job.sale, |x.stage.items|)
    && OwnsSale(db, x.own, [], {}, x.job.sale.lines, |x.stage.items|)
  }

  ghost predicate Stands(db: State, x: Transaction) { Ok(db, x) || Racing(db, x) }

  ghost predicate AllApart(w: World)
  {
    forall t, u :: t in w.open && u in w.open && t != u ==> Apart(w.open[t], w.open[u])
  }

  /** As `Inv`, but a transaction may be racing. */
  ghost predicate RaceInv(w: World)
  {
    && Balanced(w.db) && Reversible(w.db) && AllApart(w)
    && forall t :: t in w.open ==> Stands(w.db, w.open[t])
  }

  // ----- Transactions stay apart, whatever they do -----

  lemma {:induction false} PutKeepsApart(w: World, t: Id, x: Transaction)
    requires AllApart(w)
    requires forall u :: u in w.open && u != t ==> Apart(x, w.open[u])
    ensures AllApart(Put(w, t, x))
  {
  }

  lemma {:induction false} FirstKeepsApart(w: World, t: Id)
    requires AllApart(w) && t in w.open && w.open[t].stage.Starting?
    ensures AllApart(DoFirst(w, t))
  {
    var v := DoFirst(w, t);
    if v != w && t in v.open { PutKeepsApart(w, t, v.open[t]); }
  }

  lemma {:induction false} RestoreKeepsApart(w: World, t: Id, p: Id)
    requires AllApart(w) && t in w.open && w.open[t].stage.Reversing? && !w.open[t].job.Enter?
    ensures AllApart(DoRestore(w, t, p))
  {
    var v := DoRestore(w, t, p);
    if v != w {
      assert v.open[t].own.Keys == w.open[t].own.Keys + {p};
      forall u | u in w.open && u != t ensures Apart(v.open[t], w.open[u]) { assert Apart(w.open[t], w.open[u]); }
      PutKeepsApart(w, t, v.open[t]);
    }
  }

  lemma {:induction false} LineKeepsApart(w: World, t: Id)
    requires AllApart(w) && t in w.open && w.open[t].stage.Writing? && w.open[t].job.Record?
    requires |w.open[t].stage.items| < |w.open[t].job.sale.lines|
    ensures AllApart(DoLine(w, t))
  {
    var x, v := w.open[t], DoLine(w, t);
    if v != w {
      var line := x.job.sale.lines[|x.stage.items|];
      if v.open[t].own != x.own {
        assert v.open[t].own.Keys == x.own.Keys + {line.product.value};
      }
      forall u | u in w.open && u != t ensures Apart(v.open[t], w.open[u]) { assert Apart(x, w.open[u]); }
      PutKeepsApart(w, t, v.open[t]);
    }
  }

  lemma {:induction false} NextKeepsApart(w: World, t: Id)
    requires AllApart(w) && t in w.open
    ensures AllApart(DoNext(w, t))
  {
    var x, v := w.open[t], DoNext(w, t);
    if x.stage.Writing? {
      if x.job.Record? && |x.stage.items| < |x.job.sale.lines| { LineKeepsApart(w, t); }
    } else if v != w && t in v.open {
      forall u | u in w.open && u != t ensures Apart(v.open[t], w.open[u]) { assert Apart(x, w.open[u]); }
      PutKeepsApart(w, t, v.open[t]);
    }
  }

  lemma {:induction false} StepKeepsApart(w: World, s: Step)
    requires AllApart(w)
    ensures AllApart(Do(w, s))
  {
    match s
    case Begin(t, job) => if t !in w.open { PutKeepsApart(w, t, Transaction(job, Starting, map[], [])); }
    case First(t) => if t in w.open && w.open[t].stage.Starting? { FirstKeepsApart(w, t); }
    case Restore(t, p) =>
      if t in w.open && w.open[t].stage.Reversing? && !w.open[t].job.Enter? { RestoreKeepsApart(w, t, p); }
    case Next(t) => if t in w.open { NextKeepsApart(w, t); }
    case _ =>
  }

  // ----- The transactions that do not race -----

  /** The world without the racing ones. */
  ghost function Plain(w: World): World
  {
    World(w.db, map t | t in w.open && Ok(w.db, w.open[t]) :: w.open[t])
  }

  lemma {:induction false} PlainInv(w: World)
    requires RaceInv(w)
    ensures Inv(Plain(w))
  {
  }

  /** The same rows, and some of the same transactions. */
  predicate Fewer(p: World, w: World)
  {
    p.db == w.db && forall u | u in p.open :: u in w.open && p.open[u] == w.open[u]
  }

  /** A statement that does not have to wait does what it would with fewer transactions beside it. */
  lemma {:induction false} SameFirst(w: World, p: World, t: Id)
    requires Fewer(p, w) && t in p.open && w.open[t].stage.Starting? && t in DoFirst(w, t).open
    ensures DoFirst(w, t) == w || DoFirst(w, t) == Put(w, t, DoFirst(p, t).open[t])
  {
  }

  lemma {:induction false} SameRestore(w: World, p: World, t: Id, product: Id)
    requires Fewer(p, w) && t in p.open && w.open[t].stage.Reversing? && !w.open[t].job.Enter?
    ensures DoRestore(w, t, product) == w || DoRestore(w, t, product) == Put(w, t, DoRestore(p, t, product).open[t])
  {
  }

  lemma {:induction false} SameLine(w: World, p: World, t: Id)
    requires Fewer(p, w) && t in p.open && w.open[t].stage.Writing? && w.open[t].job.Record?
    requires |w.open[t].stage.items| < |w.open[t].job.sale.lines|
    ensures DoLine(w, t) == w || DoLine(w, t) == Put(w, t, DoLine(p, t).open[t])
  {
  }

  lemma {:induction false} SameNext(w: World, p: World, t: Id)
    requires Fewer(p, w) && t in p.open && t in DoNext(w, t).open
    ensures DoNext(w, t) == w || DoNext(w, t) == Put(w, t, DoNext(p, t).open[t])
  {
    var x := w.open[t];
    if x.stage.Writing? && x.job.Record? && |x.stage.items| < |x.job.sale.lines| { SameLine(w, p, t); }
  }

  predicate IsStatement(s: Step) { s.First? || s.Restore? || s.Next? }

  lemma {:induction false} SameStatement(w: World, p: World, s: Step)
    requires Fewer(p, w) && IsStatement(s) && s.t in p.open && s.t in Do(w, s).open
    ensures Do(w, s) == w || (s.t in Do(p, s).open && Do(w, s).open[s.t] == Do(p, s).open[s.t])
  {
    match s
    case First(t) => if w.open[t].stage.Starting? { SameFirst(w, p, t); }
    case Restore(t, q) => if w.open[t].stage.Reversing? && !w.open[t].job.Enter? { SameRestore(w, p, t, q); }
    case Next(t) => SameNext(w, p, t);
  }

  lemma {:induction false} StatementIsPrivate(w: World, s: Step)
    requires IsStatement(s)
    ensures Do(w, s).db == w.db
    ensures s.t !in w.open ==> Do(w, s) == w
    ensures forall u :: u != s.t ==> (u in Do(w, s).open <==> u in w.open)
    ensures forall u :: u != s.t && u in w.open ==> Do(w, s).open[u] == w.open[u]
  {
  }

  lemma {:induction false} PlainStatementOk(w: World, s: Step)
    requires RaceInv(w) && IsStatement(s) && s.t in w.open && Ok(w.db, w.open[s.t]) && Interleavings.Unraced(w, s)
    ensures s.t in Do(Plain(w), s).open ==> Ok(w.db, Do(Plain(w), s).open[s.t])
  {
    PlainInv(w);
    Interleavings.StepRefines(Plain(w), s);
    StatementIsPrivate(Plain(w), s);
  }

  lemma {:induction false} OwnStatement(w: World, s: Step)
    requires RaceInv(w) && IsStatement(s) && s.t in w.open && Ok(w.db, w.open[s.t]) && Interleavings.Unraced(w, s)
    ensures s.t in Do(w, s).open ==> Stands(w.db, Do(w, s).open[s.t])
  {
    if s.t in Do(w, s).open {
      SameStatement(w, Plain(w), s);
      if Do(w, s) != w { PlainStatementOk(w, s); }
    }
  }

  // ----- The transactions that do -----

  /** The statement after the search finds the sale stored: from here on the transaction races. */
  lemma {:induction false} RaceBegins(w: World, t: Id)
    requires RaceInv(w) && !Interleavings.Unraced(w, Next(t)) && Do(w, Next(t)) != w
    ensures t in Do(w, Next(t)).open && Racing(w.db, Do(w, Next(t)).open[t])
  {
    assert Ok(w.db, w.open[t]);
    assert OwnsSale(w.db, map[], [], {}, w.open[t].job.sale.lines, 0);
  }

  lemma {:induction false} RacingLine(w: World, t: Id)
    requires t in w.open && Racing(w.db, w.open[t]) && |w.open[t].stage.items| < |w.open[t].job.sale.lines|
    ensures t in DoLine(w, t).open && Racing(w.db, DoLine(w, t).open[t])
  {
    var x, v := w.open[t], DoLine(w, t);
    if v != w {
      var sale, n := x.job.sale, |x.stage.items|;
      assert LineKnown(w.db, sale.store, sale.lines[n]);
      SliceGrows(sale.lines, n);
      match sale.lines[n].product {
        case None => FreeLineOwns(w.db, x.own, [], {}, sale.lines, n);
        case Some(p) => LineOwns(w.db, x.own, [], {}, sale.lines, n, p, v.open[t].own[p]);
      }
    }
  }

  lemma {:induction false} RacingStatement(w: World, s: Step)
    requires IsStatement(s) && s.t in w.open && Racing(w.db, w.open[s.t])
    ensures s.t in Do(w, s).open && Racing(w.db, Do(w, s).open[s.t])
  {
    if s.Next? && |w.open[s.t].stage.items| < |w.open[s.t].job.sale.lines| { RacingLine(w, s.t); }
  }

  lemma {:induction false} StatementKeepsRaceInv(w: World, s: Step)
    requires RaceInv(w) && IsStatement(s)
    ensures RaceInv(Do(w, s))
  {
    StatementIsPrivate(w, s);
    StepKeepsApart(w, s);
    var v := Do(w, s);
    forall u | u in v.open ensures Stands(v.db, v.open[u]) {
      if u == s.t && v != w {
        if Racing(w.db, w.open[u]) {
          RacingStatement(w, s);
        } else if Interleavings.Unraced(w, s) {
          OwnStatement(w, s);
        } else {
          RaceBegins(w, u);
        }
      } else {
        assert Stands(w.db, w.open[u]);
      }
    }
  }

  /** What a racing transaction relies on: its rows, the stores, and the sale it holds. */
  lemma {:induction false} RacingStays(db: State, later: State, x: Transaction)
    requires Racing(db, x) && StoresStay(db, later) && SaleStays(db, later, x.job.sale.id)
    requires forall p :: p in x.own && p in db.products ==> later.products[p] == db.products[p]
    ensures Racing(later, x)
  {
    SensibleStays(db, later, x.job);
    OwnsStays(db, later, x.own, [], {}, x.job.sale.lines, |x.stage.items|);
  }

  // ----- Commits -----

  lemma {:induction false} RacingLeftAlone(w: World, t: Id, u: Id)
    requires AllApart(w) && t in w.open && Ready(w.open[t]) && u in w.open && u != t
    requires Racing(w.db, w.open[u]) && StoresStay(w.db, Committed(w.db, w.open[t]))
    ensures Racing(Committed(w.db, w.open[t]), w.open[u])
    ensures SaleStays(w.db, Committed(w.db, w.open[t]), w.open[u].job.sale.id)
  {
    assert Apart(w.open[t], w.open[u]);
    RacingStays(w.db, Committed(w.db, w.open[t]), w.open[u]);
  }

  lemma {:induction false} PlainCommit(w: World, t: Id)
    requires RaceInv(w) && t in w.open && Ready(w.open[t]) && Ok(w.db, w.open[t])
    ensures RaceInv(Do(w, Commit(t)))
  {
    PlainInv(w);
    CommitKeepsInv(Plain(w), t);
    CommitKeepsStores(w.db, w.open[t]);
    StepKeepsApart(w, Commit(t));
    var v := Do(w, Commit(t));
    assert v.db == Do(Plain(w), Commit(t)).db;
    forall u | u in v.open ensures Stands(v.db, v.open[u]) {
      assert Stands(w.db, w.open[u]);
      if Ok(w.db, w.open[u]) {
        assert u in Do(Plain(w), Commit(t)).open;
      } else {
        RacingLeftAlone(w, t, u);
      }
    }
  }

  lemma {:induction false} OtherKeepsRaceInv(w: World, e: Event)
    requires RaceInv(w) && OtherRuns(w, e)
    ensures RaceInv(Do(w, Other(e)))
  {
    PlainInv(w);
    SingleKeepsInv(Plain(w), e);
    SingleFrame(w.db, e);
    var v := Do(w, Other(e));
    forall u | u in v.open ensures Stands(v.db, v.open[u]) {
      assert Stands(w.db, w.open[u]);
      if Ok(w.db, w.open[u]) {
        assert u in Do(Plain(w), Other(e)).open;
      } else {
        RacingStays(w.db, v.db, w.open[u]);
      }
    }
  }

  lemma {:induction false} ReadyIsRaced(db: State, x: Transaction)
    requires Racing(db, x) && Ready(x)
    ensures Raced(db, x)
  {
    WholeSlice(x.job.sale.lines);
  }

  /** Lines without effects name no product. */
  lemma {:induction false} NoEffects(lines: seq<Line>, n: nat)
    requires n <= |lines| && LineEffects(lines, n) == []
    ensures forall i :: 0 <= i < n ==> lines[i].product == None
  {
    if n > 0 { NoEffects(lines, n - 1); }
  }

  lemma {:induction false} NoRows(sale: PreparedSale, n: nat)
    requires n <= |sale.lines| && forall i :: 0 <= i < n ==> sale.lines[i].product == None
    ensures LineRows(sale, n) == []
  {
    if n > 0 { NoRows(sale, n - 1); }
  }

  /** With new lines that name no product the commit changes nothing but the lines. */
  lemma {:induction false} FreeLinesCommit(db: State, x: Transaction)
    requires Balanced(db) && Raced(db, x) && !Doubles(db, x)
    requires forall i :: 0 <= i < |x.job.sale.lines| ==> x.job.sale.lines[i].product == None
    ensures Balanced(Committed(db, x))
  {
    var sale, later := x.job.sale, Committed(db, x);
    NoRows(sale, |sale.lines|);
    assert x.own == map[];
    assert Cut(db.movements, 0, sale.id, sale.store) == db.movements;
    assert later.movements == db.movements && later.products == db.products && later.sales == db.sales;
    RowsCarry(db, later);
    StockCarries(db, later);
    forall id | id in later.sales ensures SaleSound(later, id) {
      assert SaleSound(db, id);
      if id == sale.id { RacedCommitIsSoundIff(db, x); } else { SaleCarries(db, later, id); }
    }
  }

  /** The stored sale without its lines, which took nothing. */
  function Emptied(db: State, id: Id): State { db.(items := db.items[id := []]) }

  lemma {:induction false} EmptiedKeepsBooks(db: State, id: Id)
    requires Balanced(db) && id in db.sales && LiveTagged(db.movements, id) == []
    ensures Balanced(Emptied(db, id))
  {
    var s := Emptied(db, id);
    RowsCarry(db, s);
    StockCarries(db, s);
    forall other | other in s.sales ensures SaleSound(s, other) {
      assert SaleSound(db, other);
      if other != id { SaleCarries(db, s, other); }
    }
  }

  lemma {:induction false} RacedProduct(db: State, x: Transaction, p: Id)
    requires Raced(db, x)
    ensures var later, n := Committed(db, x).products, |x.job.sale.lines|;
      && (p in later <==> p in db.products)
      && (p in later ==> later[p] == AfterLines(db.products[p], x.job.sale, n, p))
  {
    var sale := x.job.sale;
    var n := |sale.lines|;
    if p in x.own {
      assert Owned(db, x.own, p, NetChange([], {}, sale.lines, n, p));
      var i :| 0 <= i < n && sale.lines[i].product == Some(p);
      assert LineKnown(db, sale.store, sale.lines[i]);
    } else {
      LinesWithout(sale.lines, n, p);
    }
  }

  /** What the commit publishes is the new lines written onto that. */
  lemma {:induction false} RacedWrites(db: State, x: Transaction)
    requires Balanced(db) && Raced(db, x) && db.sales[x.job.sale.id].store == x.job.sale.store
    ensures Committed(db, x).products == Written(Emptied(db, x.job.sale.id), x.job.sale, |x.job.sale.lines|).products
  {
    var sale := x.job.sale;
    var n, s := |sale.lines|, Emptied(db, sale.id);
    var after, later := Written(s, sale, n).products, Committed(db, x).products;
    forall p: Id ensures (p in after <==> p in later) && (p in after ==> after[p] == later[p]) {
      WrittenStock(s, sale, n, p);
      RacedProduct(db, x, p);
    }
  }

  lemma {:induction false} LinesCommit(db: State, x: Transaction)
    requires Balanced(db) && Raced(db, x) && !Doubles(db, x)
    requires !db.sales[x.job.sale.id].voided && db.sales[x.job.sale.id].store == x.job.sale.store
    ensures Balanced(Committed(db, x))
  {
    var sale := x.job.sale;
    var n, s := |sale.lines|, Emptied(db, sale.id);
    assert SaleSound(db, sale.id);
    EmptiedKeepsBooks(db, sale.id);
    KnownEitherWay(db, s, sale.store, sale.lines);
    WrittenKeepsBooks(s, sale, n);
    RacedWrites(db, x);
    WrittenRows(s, sale, n);
    WholeSlice(sale.lines);
    assert Cut(db.movements, 0, sale.id, sale.store) == db.movements;
    assert Committed(db, x).items == s.items[sale.id := sale.lines];
    assert db.sales[sale.id := x.stage.row] == db.sales;
    assert Committed(db, x) == Written(s, sale, n);
  }

  lemma {:induction false} HarmlessCommit(db: State, x: Transaction)
    requires Balanced(db) && Raced(db, x) && !Doubles(db, x)
    ensures Balanced(Committed(db, x))
  {
    var lines, stored := x.job.sale.lines, db.sales[x.job.sale.id];
    if i :| 0 <= i < |lines| && lines[i].product.Some? {
      assert LineKnown(db, stored.store, lines[i]) && LineKnown(db, x.job.sale.store, lines[i]);
      if stored.voided { NoEffects(lines, |lines|); }
      LinesCommit(db, x);
    } else {
      FreeLinesCommit(db, x);
    }
  }

  /** Beside a racing commit, nobody else's locks are touched either. */
  lemma {:induction false} RacedLeavesAlone(w: World, t: Id, u: Id)
    requires AllApart(w) && t in w.open && u in w.open && u != t && Raced(w.db, w.open[t])
    requires Ok(w.db, w.open[u])
    ensures Undisturbed(w.db, Committed(w.db, w.open[t]), w.open[u])
  {
    var x, y := w.open[t], w.open[u];
    var later := Committed(w.db, x);
    assert Apart(x, y) && SaleHeld(x) == Some(x.job.sale.id);
    RacedStores(w.db, x);
    forall i | |w.db.movements| <= i < |later.movements|
      ensures later.movements[i].note == SaleTag(x.job.sale.id) && later.movements[i].id.Minted?
    {
      CommittedRow(w.db, x, i);
      LineRowNotes(x.job.sale, |x.job.sale.lines|, i - |w.db.movements|);
    }
    forall i | 0 <= i < |w.db.movements|
      ensures later.movements[i].note == w.db.movements[i].note && later.movements[i].id == w.db.movements[i].id
    {
      CommittedRow(w.db, x, i);
    }
  }

  lemma {:induction false} RacedCommit(w: World, t: Id)
    requires RaceInv(w) && t in w.open && Ready(w.open[t]) && Racing(w.db, w.open[t])
    requires !Doubles(w.db, w.open[t])
    ensures RaceInv(Do(w, Commit(t)))
  {
    var x := w.open[t];
    var v := Do(w, Commit(t));
    ReadyIsRaced(w.db, x);
    HarmlessCommit(w.db, x);
    StepKeepsApart(w, Commit(t));
    RacedStores(w.db, x);
    forall u | u in v.open ensures Stands(v.db, v.open[u]) {
      assert Stands(w.db, w.open[u]);
      if Ok(w.db, w.open[u]) {
        RacedLeavesAlone(w, t, u);
        OkStays(w.db, v.db, w.open[u]);
      } else {
        RacingLeftAlone(w, t, u);
      }
    }
  }
}
