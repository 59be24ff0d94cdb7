/** Every interleaved run ends in the rows of the atomic operations, in commit order. */
module Interleavings {
  import opened Prelude
  import opened Ledger
  import opened Books
  import opened RowLocks
  import opened LockedStatements
  import opened LockedCommits

  /** A sale written for the first time is not written by two transactions at once: there is no row to lock. */
  predicate Unraced(w: World, s: Step)
  {
    !(s.Next? && s.t in w.open && w.open[s.t].stage.Unlisted? && w.open[s.t].job.Record?
      && w.open[s.t].job.sale.id in w.db.sales)
  }

  predicate Fair(w: World, steps: seq<Step>)
    decreases |steps|
  {
    steps == [] || (
      && Unraced(w, steps[0])
      && (steps[0].Begin? ==> Sensible(w.db, steps[0].job))
      && Fair(Do(w, steps[0]), steps[1..]))
  }

  lemma {:induction false} NextKeepsInv(w: World, t: Id)
    requires Inv(w) && t in w.open && Unraced(w, Next(t))
    ensures Inv(DoNext(w, t)) && DoNext(w, t).db == w.db
    ensures t !in DoNext(w, t).open ==> Outcome(w.db, Whole(w.open[t].job)) == w.db
  {
    var x := w.open[t];
    match x.stage
    case Counted(_) => NextEntryKeepsInv(w, t);
    case Listed(_) => NextEntryKeepsInv(w, t);
    case Unlisted => NextUnlistedKeepsInv(w, t);
    case Reversing(_) => NextReversalKeepsInv(w, t);
    case Struck(_) => NextReversalKeepsInv(w, t);
    case Writing(_, _, items) =>
      if x.job.Record? && |items| < |x.job.sale.lines| { LineKeepsInv(w, t); }
    case _ =>
  }

  lemma {:induction false} BeginKeepsInv(w: World, t: Id, job: Job)
    requires Inv(w) && Sensible(w.db, job)
    ensures Inv(Do(w, Begin(t, job)))
  {
    if t !in w.open {
      PrivateStep(w, t, Transaction(job, Starting, map[], []));
    }
  }

  lemma {:induction false} StepRefines(w: World, s: Step)
    requires Inv(w) && Unraced(w, s) && (s.Begin? ==> Sensible(w.db, s.job))
    ensures Inv(Do(w, s)) && Do(w, s).db == Outcomes(w.db, Finished(w, s))
  {
    match s
    case Begin(t, job) => BeginKeepsInv(w, t, job);
    case First(t) => if t in w.open && w.open[t].stage.Starting? { FirstKeepsInv(w, t); }
    case Restore(t, p) => if t in w.open && w.open[t].stage.Reversing? { RestoreKeepsInv(w, t, p); }
    case Next(t) => if t in w.open { NextKeepsInv(w, t); }
    case Commit(t) => if t in w.open && Ready(w.open[t]) { CommitKeepsInv(w, t); }
    case Abort(t) => EndKeepsInv(w, t);
    case Other(e) => if OtherRuns(w, e) { SingleKeepsInv(w, e); }
  }

  lemma {:induction false} OutcomesSplit(db: State, a: seq<Operation>, b: seq<Operation>)
    ensures Outcomes(db, a + b) == Outcomes(Outcomes(db, a), b)
    decreases |a|
  {
    if a == [] {
      assert a + b == b;
    } else {
      OutcomesSplit(Outcome(db, a[0]), a[1..], b);
      assert (a + b)[1..] == a[1..] + b;
    }
  }

  /** However the transactions interleave, the rows are those of the atomic operations in commit order. */
  lemma {:induction false} InterleavingsAreAtomic(w: World, steps: seq<Step>)
    requires Inv(w) && Fair(w, steps)
    ensures Inv(RowLocks.Run(w, steps)) && RowLocks.Run(w, steps).db == Outcomes(w.db, FinishedBy(w, steps))
    decreases |steps|
  {
    if steps != [] {
      var v := Do(w, steps[0]);
      StepRefines(w, steps[0]);
      InterleavingsAreAtomic(v, steps[1..]);
      OutcomesSplit(w.db, Finished(w, steps[0]), FinishedBy(v, steps[1..]));
    }
  }

  // ----- A count needs nothing but its row lock -----

  /** What a movement holds of its product: the committed row, and later its own version of it. */
  predicate HoldsCount(db: State, x: Transaction)
    requires x.job.Enter?
  {
    var e := x.job.entry;
    match x.stage
    case Counted(delta) => e.product in db.products && x.own == map[e.product := db.products[e.product]]
        && delta == EntryDelta(db, e)
    case Listed(delta) => e.product in db.products && x.own == map[e.product := db.products[e.product]]
        && delta == EntryDelta(db, e)
    case Moved(delta) =>
      e.product in db.products && delta == EntryDelta(db, e)
      && x.own == map[e.product := Costed(db.products[e.product], e, delta)]
    case _ => true
  }

  predicate HoldsRows(db: State, x: Transaction)
  {
    x.own.Keys <= db.products.Keys && (x.job.Enter? ==> HoldsCount(db, x))
  }

  /** A product row that somebody is writing is theirs alone. Nothing is asked of the ledger, the notes or the sales. */
  ghost predicate RowsHeld(w: World)
  {
    && (forall t :: t in w.open ==> HoldsRows(w.db, w.open[t]))
    && (forall t, u :: t in w.open && u in w.open && t != u ==> w.open[t].own.Keys !! w.open[u].own.Keys)
  }

  lemma {:induction false} RowsStayHeld(db: State, later: State, y: Transaction)
    requires HoldsRows(db, y)
    requires forall p :: p in db.products ==> p in later.products
    requires forall p :: p in y.own ==> later.products[p] == db.products[p]
    ensures HoldsRows(later, y)
  {
    if y.job.Enter? && (y.stage.Counted? || y.stage.Listed? || y.stage.Moved?) {
      assert y.job.entry.product in y.own;
    }
  }

  lemma {:induction false} OwnStepKeepsRows(w: World, t: Id, x: Transaction)
    requires RowsHeld(w) && HoldsRows(w.db, x)
    requires forall u :: u in w.open && u != t ==> x.own.Keys !! w.open[u].own.Keys
    ensures RowsHeld(Put(w, t, x))
  {
  }

  lemma {:induction false} CommitKeepsRows(w: World, t: Id)
    requires RowsHeld(w) && t in w.open && Ready(w.open[t])
    ensures RowsHeld(Do(w, Commit(t)))
  {
    var x := w.open[t];
    var later := Committed(w.db, x);
    assert later.products == w.db.products + x.own;
    forall u | u in w.open && u != t ensures HoldsRows(later, w.open[u]) {
      assert x.own.Keys !! w.open[u].own.Keys;
      RowsStayHeld(w.db, later, w.open[u]);
    }
  }

  lemma {:induction false} SingleKeepsRows(w: World, e: Event)
    requires RowsHeld(w) && OtherRuns(w, e)
    ensures RowsHeld(Do(w, Other(e)))
  {
    SingleFrame(w.db, e);
    forall u | u in w.open ensures HoldsRows(Apply(w.db, e), w.open[u]) {
      RowsStayHeld(w.db, Apply(w.db, e), w.open[u]);
    }
  }

  lemma {:induction false} NextKeepsRows(w: World, t: Id)
    requires RowsHeld(w) && t in w.open
    ensures RowsHeld(DoNext(w, t))
  {
    var x := w.open[t];
    var v := DoNext(w, t);
    if v != w && t in v.open {
      var y := v.open[t];
      if x.stage.Writing? && y.own != x.own {
        var p := x.job.sale.lines[|x.stage.items|].product.value;
        assert ProductFree(w, t, p) && y.own.Keys == x.own.Keys + {p};
      }
      OwnStepKeepsRows(w, t, y);
    }
  }

  lemma {:induction false} FirstKeepsRows(w: World, t: Id)
    requires RowsHeld(w) && t in w.open && w.open[t].stage.Starting?
    ensures RowsHeld(DoFirst(w, t))
  {
    var v := DoFirst(w, t);
    if v != w && t in v.open {
      OwnStepKeepsRows(w, t, v.open[t]);
    }
  }

  lemma {:induction false} RestoreKeepsRows(w: World, t: Id, p: Id)
    requires RowsHeld(w) && t in w.open && w.open[t].stage.Reversing? && !w.open[t].job.Enter?
    ensures RowsHeld(DoRestore(w, t, p))
  {
    var v := DoRestore(w, t, p);
    if v != w {
      assert v.open[t].own.Keys == w.open[t].own.Keys + {p};
      OwnStepKeepsRows(w, t, v.open[t]);
    }
  }

  lemma {:induction false} StepKeepsRows(w: World, s: Step)
    requires RowsHeld(w)
    ensures RowsHeld(Do(w, s))
  {
    match s
    case Begin(t, job) => if t !in w.open { OwnStepKeepsRows(w, t, Transaction(job, Starting, map[], [])); }
    case First(t) => if t in w.open && w.open[t].stage.Starting? { FirstKeepsRows(w, t); }
    case Restore(t, p) =>
      if t in w.open && w.open[t].stage.Reversing? && !w.open[t].job.Enter? { RestoreKeepsRows(w, t, p); }
    case Next(t) => if t in w.open { NextKeepsRows(w, t); }
    case Commit(t) => if t in w.open && Ready(w.open[t]) { CommitKeepsRows(w, t); }
    case Abort(t) =>
    case Other(e) => if OtherRuns(w, e) { SingleKeepsRows(w, e); }
  }

  lemma {:induction false} RunKeepsRows(w: World, steps: seq<Step>)
    requires RowsHeld(w)
    ensures RowsHeld(RowLocks.Run(w, steps))
    decreases |steps|
  {
    if steps != [] {
      StepKeepsRows(w, steps[0]);
      RunKeepsRows(Do(w, steps[0]), steps[1..]);
    }
  }

  /** Whatever runs beside it, races included, a counted adjustment leaves exactly the counted total when it commits. */
  lemma {:induction false} CountIsExact(w: World, steps: seq<Step>, t: Id, e: Entry)
    requires RowsHeld(w) && e.effect.SetTo?
    requires t in RowLocks.Run(w, steps).open && RowLocks.Run(w, steps).open[t].job == Enter(e)
    requires Ready(RowLocks.Run(w, steps).open[t])
    ensures var after := Do(RowLocks.Run(w, steps), Commit(t)).db;
      e.product in after.products && after.products[e.product].stock == e.effect.counted
  {
    RunKeepsRows(w, steps);
  }

  /** Where sales do not race and lines and notes are safe, its stock also agrees with its ledger then. */
  lemma {:induction false} CountKeepsLedger(w: World, steps: seq<Step>, t: Id)
    requires Inv(w) && Fair(w, steps)
    requires t in RowLocks.Run(w, steps).open && Ready(RowLocks.Run(w, steps).open[t])
    ensures StockAgrees(Do(RowLocks.Run(w, steps), Commit(t)).db)
  {
    InterleavingsAreAtomic(w, steps);
    CommitKeepsInv(RowLocks.Run(w, steps), t);
  }
}
