/** A sale that is not stored yet and is written by two transactions at once, which find no row to lock. */
module FirstRecordings {
  import opened Prelude
  import opened Ledger
  import opened Books
  import opened RowLocks
  import opened LockedStatements
  import opened LockedCommits

  // ----- Exactly when a raced commit leaves the sale wrong -----

  // Both take the stock; the second insert turns into an update of the row the first one committed, and
  // its lines replace the first one's. What both versions took stays taken, and stays in the ledger.

  /** Written with the sale not found, all its lines done, and the sale stored by somebody else since. */
  ghost predicate Raced(db: State, x: Transaction)
  {
    && x.job.Record? && x.job.sale.id in db.sales
    && x.stage == Writing(db.sales[x.job.sale.id], 0, x.job.sale.lines)
    && x.rows == LineRows(x.job.sale, |x.job.sale.lines|)
    && ProductsKnown(db, x.job.sale.store, x.job.sale.lines)
    && OwnsSale(db, x.own, [], {}, x.job.sale.lines, |x.job.sale.lines|)
  }

  lemma {:induction false} TaggedOfBoth(ms: seq<Movement>, more: seq<Movement>, n: nat, id: Id)
    requires n <= |more|
    ensures TaggedTo(ms + more, |ms| + n, id) == LiveTagged(ms, id) + TaggedTo(more, n, id)
  {
    if n == 0 {
      SameTagged(ms + more, ms, |ms|, id);
    } else {
      TaggedOfBoth(ms, more, n - 1, id);
    }
  }

  lemma {:induction false} SameTagged(a: seq<Movement>, b: seq<Movement>, n: nat, id: Id)
    requires n <= |a| && n <= |b| && forall i :: 0 <= i < n ==> a[i] == b[i]
    ensures TaggedTo(a, n, id) == TaggedTo(b, n, id)
  {
    if n > 0 { SameTagged(a, b, n - 1, id); }
  }

  /** The rows a transaction adds for its first `n` lines are those lines' effects. */
  lemma {:induction false} PlacedEffects(sale: PreparedSale, n: nat, base: nat)
    requires n <= |sale.lines|
    ensures LiveTagged(Placed(LineRows(sale, n), base), sale.id) == LineEffects(sale.lines, n)
  {
    if n > 0 {
      PlacedEffects(sale, n - 1, base);
      match sale.lines[n - 1].product {
        case None =>
        case Some(p) =>
          var front := LineRows(sale, n - 1);
          var row := Movement(Minted(0), sale.store, p, -sale.lines[n - 1].quantity, SaleTag(sale.id), true);
          PlacedGrows(front, row, base);
          TaggedOfBoth(Placed(front, base), [row.(id := Minted(base + |front|))], 1, sale.id);
          assert TaggedTo([row.(id := Minted(base + |front|))], 1, sale.id) ==
              [] + [Effect(p, -sale.lines[n - 1].quantity)];
      }
    }
  }

  /** After the commit the ledger has the rows of both versions of the sale. */
  lemma {:induction false} RacedRows(db: State, x: Transaction)
    requires Raced(db, x)
    ensures LiveTagged(Committed(db, x).movements, x.job.sale.id)
         == LiveTagged(db.movements, x.job.sale.id) + LineEffects(x.job.sale.lines, |x.job.sale.lines|)
  {
    var sale := x.job.sale;
    var added := Placed(x.rows, |db.movements|);
    assert Cut(db.movements, 0, sale.id, sale.store) == db.movements;
    TaggedOfBoth(db.movements, added, |added|, sale.id);
    PlacedEffects(sale, |sale.lines|, |db.movements|);
  }

  lemma {:induction false} RacedStores(db: State, x: Transaction)
    requires Raced(db, x)
    ensures StoresStay(db, Committed(db, x)) && Committed(db, x).products.Keys == db.products.Keys
  {
    var lines := x.job.sale.lines;
    forall p | p in x.own ensures p in db.products && x.own[p].store == db.products[p].store {
      assert Owned(db, x.own, p, NetChange([], {}, lines, |lines|, p));
    }
  }

  lemma {:induction false} KnownEitherWay(db: State, later: State, store: Id, lines: seq<Line>)
    requires StoresStay(db, later) && later.products.Keys == db.products.Keys
    ensures ProductsKnown(later, store, lines) <==> ProductsKnown(db, store, lines)
  {
    forall i | 0 <= i < |lines| ensures LineKnown(later, store, lines[i]) <==> LineKnown(db, store, lines[i]) {
    }
    if ProductsKnown(later, store, lines) {
      forall i | 0 <= i < |lines| ensures LineKnown(db, store, lines[i]) { assert LineKnown(later, store, lines[i]); }
    }
    if ProductsKnown(db, store, lines) {
      forall i | 0 <= i < |lines| ensures LineKnown(later, store, lines[i]) { assert LineKnown(db, store, lines[i]); }
    }
  }

  lemma {:induction false} SameTail<T>(a: seq<T>, b: seq<T>)
    ensures a + b == b <==> a == []
  {
    if a == [] {
      assert a + b == b;
    } else {
      assert |a + b| > |b|;
    }
  }

  /** The version that stays taken out beside the new one: the stored lines, or the new ones over a void. */
  function Doubled(db: State, x: Transaction): seq<Line>
    requires x.job.Record? && x.job.sale.id in db.sales && x.job.sale.id in db.items
  {
    if db.sales[x.job.sale.id].voided then x.job.sale.lines else db.items[x.job.sale.id]
  }

  predicate Doubles(db: State, x: Transaction)
    requires x.job.Record? && x.job.sale.id in db.sales && x.job.sale.id in db.items
  {
    LineEffects(Doubled(db, x), |Doubled(db, x)|) != []
    || !ProductsKnown(db, db.sales[x.job.sale.id].store, x.job.sale.lines)
  }

  /**
   A raced commit leaves the sale's lines and movements in step, if and only if the version it replaces took
   nothing from stock (or, if that one has been voided, the new one takes nothing), and the new lines are of
   the store the sale was first recorded in.
   */
  lemma {:induction false} RacedCommitIsSoundIff(db: State, x: Transaction)
    requires Balanced(db) && Raced(db, x)
    ensures SaleSound(Committed(db, x), x.job.sale.id) <==> !Doubles(db, x)
  {
    var sale := x.job.sale;
    assert SaleSound(db, sale.id);
    RacedRows(db, x);
    RacedStores(db, x);
    KnownEitherWay(db, Committed(db, x), db.sales[sale.id].store, sale.lines);
    SameTail(LiveTagged(db.movements, sale.id), LineEffects(sale.lines, |sale.lines|));
  }

  /** Whatever the version it replaces took stays taken: the new lines are taken on top of it. */
  lemma {:induction false} RacedCommitTakesAgain(db: State, x: Transaction, p: Id)
    requires Raced(db, x) && p in db.products
    ensures p in Committed(db, x).products
    ensures Committed(db, x).products[p].stock == db.products[p].stock - LineSum(x.job.sale.lines, p)
  {
    var lines := x.job.sale.lines;
    if p in x.own {
      assert Owned(db, x.own, p, NetChange([], {}, lines, |lines|, p));
    } else {
      LinesWithout(lines, |lines|, p);
    }
  }

  // ----- A run that gets there -----

  const RACED := PreparedSale(7, 1, [Line(Some(5), 1)])

  const RACE: seq<Step> := [
    Begin(1, Record(RACED, Recorder(None, true))), Begin(2, Record(RACED, Recorder(None, true))),
    First(1), First(2), Next(1), Next(1), Commit(1), Next(2), Next(2), Commit(2)]

  /** The rows after `n` of the two transactions have committed: each took the stock once. */
  function RaceRows(n: nat): State
    requires n <= 2
  {
    var row1 := Movement(Minted(0), 1, 5, -1, SaleTag(7), true);
    var row2 := Movement(Minted(1), 1, 5, -1, SaleTag(7), true);
    State(
      map[5 := Product(1, 10 - n, 10, 0, 0, true)],
      if n == 0 then [] else if n == 1 then [row1] else [row1, row2],
      if n == 0 then map[] else map[7 := Sale(1, None, false)],
      if n == 0 then map[] else map[7 := [Line(Some(5), 1)]],
      map[], map[])
  }

  /** The world before each of the ten steps, and after the last. */
  function RaceStage(i: nat): World
    requires i <= 10
  {
    var job := Record(RACED, Recorder(None, true));
    var row := Sale(1, None, false);
    var line := Movement(Minted(0), 1, 5, -1, SaleTag(7), true);
    var x := if i <= 2 then Transaction(job, Starting, map[], [])
             else if i <= 4 then Transaction(job, Unlisted, map[], [])
             else if i == 5 then Transaction(job, Writing(row, 0, []), map[], [])
             else Transaction(job, Writing(row, 0, RACED.lines), map[5 := Product(1, 9, 10, 0, 0, true)], [line]);
    var y := if i <= 3 then Transaction(job, Starting, map[], [])
             else if i <= 7 then Transaction(job, Unlisted, map[], [])
             else if i == 8 then Transaction(job, Writing(row, 0, []), map[], [])
             else Transaction(job, Writing(row, 0, RACED.lines), map[5 := Product(1, 8, 10, 0, 0, true)], [line]);
    World(RaceRows(if i <= 6 then 0 else if i <= 9 then 1 else 2),
          if i == 0 || i == 10 then map[] else if i == 1 then map[1 := x] else if i <= 6 then map[1 := x, 2 := y]
              else map[2 := y])
  }

  lemma {:induction false} RaceCommit(i: nat)
    requires i == 6 || i == 9
    ensures Do(RaceStage(i), RACE[i]) == RaceStage(i + 1)
  {
    var w, v := RaceStage(i), RaceStage(i + 1);
    var t := if i == 6 then 1 else 2;
    assert w.open - {t} == v.open;
    assert w.db.products + w.open[t].own == v.db.products;
    assert Cut(w.db.movements, 0, 7, 1) == w.db.movements;
    assert Committed(w.db, w.open[t]) == v.db;
  }

  lemma {:induction false} RaceLine(i: nat)
    requires i == 5 || i == 8
    ensures Do(RaceStage(i), RACE[i]) == RaceStage(i + 1)
  {
    var w, t := RaceStage(i), if i == 5 then 1 else 2;
    var x, y := DoLine(w, t).open[t], RaceStage(i + 1).open[t];
    assert x.rows == y.rows && x.own == y.own && x.stage.items == y.stage.items;
    assert x == y;
    assert DoLine(w, t).open == RaceStage(i + 1).open;
  }

  lemma {:induction false} RaceStep(i: nat)
    requires i < 10
    ensures Do(RaceStage(i), RACE[i]) == RaceStage(i + 1)
  {
    if i == 6 || i == 9 {
      RaceCommit(i);
    } else if i == 5 || i == 8 {
      RaceLine(i);
    }
  }

  lemma {:induction false} RaceFrom(i: nat)
    requires i <= 10
    ensures RowLocks.Run(RaceStage(i), RACE[i..]) == RaceStage(10)
    decreases 10 - i
  {
    if i < 10 {
      RaceStep(i);
      RaceFrom(i + 1);
      assert RACE[i..][0] == RACE[i] && RACE[i..][1..] == RACE[i + 1..];
    }
  }

  lemma {:induction false} SecondIsRaced()
    ensures Raced(RaceStage(9).db, RaceStage(9).open[2])
  {
    var x := RaceStage(9).open[2];
    assert LineRows(RACED, 1) == LineRows(RACED, 0) + x.rows;
    assert Named(RACED.lines, 1, 5) by { assert RACED.lines[0].product == Some(5); }
    assert LinesTo(RACED.lines, 1, 5) == LinesTo(RACED.lines, 0, 5) + 1;
    forall p: Id | p in x.own ensures Owned(RaceRows(1), x.own, p, NetChange([], {}, RACED.lines, 1, p)) { }
    assert forall p: Id :: p in x.own <==> Named(RACED.lines, 1, p);
  }

  lemma {:induction false} RaceEndsUnsound()
    ensures Balanced(RaceRows(0)) && !SaleSound(RaceRows(2), 7)
  {
    assert StockRight(RaceRows(0), 5);
    var ms := RaceRows(2).movements;
    assert LineEffects(RACED.lines, 1) == LineEffects(RACED.lines, 0) + [Effect(5, -1)];
    assert LiveTagged(ms, 7) == [Effect(5, -1), Effect(5, -1)] by {
      assert TaggedTo(ms, 1, 7) == TaggedTo(ms, 0, 7) + [Effect(5, -1)];
      assert TaggedTo(ms, 2, 7) == TaggedTo(ms, 1, 7) + [Effect(5, -1)];
    }
  }

  /** Two first recordings of one sale at once take its stock twice for the lines it has once. */
  lemma {:induction false} FirstRecordingsRace()
    ensures Balanced(RaceRows(0))
    ensures RowLocks.Run(World(RaceRows(0), map[]), RACE).db == RaceRows(2)
    ensures Raced(RaceStage(9).db, RaceStage(9).open[2]) && !SaleSound(RaceRows(2), 7)
  {
    SecondIsRaced();
    RaceFrom(0);
    assert RACE[0..] == RACE && RaceStage(0) == World(RaceRows(0), map[]);
    RaceEndsUnsound();
  }
}
