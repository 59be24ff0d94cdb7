/**
 Calls get to their end.

 That every interleaving is one of atomic calls would be true as well of statements that never let a
 call finish. Here one transaction is open and nobody is in its way: its search finds what it is
 about or ends the call, each product is restored in turn, each line written in turn, and what the
 commit then shows is the atomic outcome. `Finishes` is carried backwards from the commit, one
 statement at a time.
 */
module Completion {
  import opened Prelude
  import opened Ledger
  import opened Books
  import opened RowLocks
  import opened LockedStatements
  import opened LockedCommits
  import opened Interleavings

  /** The world in which one transaction is open. */
  function Alone(db: State, t: Id, x: Transaction): World { World(db, map[t := x]) }

  predicate EndsIn(w: World, steps: seq<Step>, job: Job)
  {
    RowLocks.Run(w, steps) == World(Outcome(w.db, Whole(job)), map[])
  }

  ghost predicate Finishes(db: State, t: Id, x: Transaction)
  {
    exists steps :: EndsIn(Alone(db, t, x), steps, x.job)
  }

  /** One more statement in front. */
  lemma {:induction false} FinishesBefore(db: State, t: Id, x: Transaction, s: Step, y: Transaction)
    requires RowLocks.Do(Alone(db, t, x), s) == Alone(db, t, y) && y.job == x.job && Finishes(db, t, y)
    ensures Finishes(db, t, x)
  {
    var steps :| EndsIn(Alone(db, t, y), steps, y.job);
    assert ([s] + steps)[0] == s && ([s] + steps)[1..] == steps;
    assert EndsIn(Alone(db, t, x), [s] + steps, x.job);
  }

  lemma {:induction false} FinishesAtOnce(db: State, t: Id, x: Transaction, s: Step)
    requires RowLocks.Do(Alone(db, t, x), s) == World(Outcome(db, Whole(x.job)), map[])
    ensures Finishes(db, t, x)
  {
    assert [s][1..] == [];
    assert RowLocks.Run(RowLocks.Do(Alone(db, t, x), s), []) == RowLocks.Do(Alone(db, t, x), s);
    assert EndsIn(Alone(db, t, x), [s], x.job);
  }

  lemma {:induction false} OkAlone(db: State, t: Id, x: Transaction)
    requires Inv(Alone(db, t, x))
    ensures Ok(db, x) && SalesSound(db)
  {
    assert Ok(db, Alone(db, t, x).open[t]);
  }

  lemma {:induction false} CommitAlone(db: State, t: Id, x: Transaction)
    requires Ready(x)
    ensures RowLocks.Do(Alone(db, t, x), Commit(t)) == World(Committed(db, x), map[])
  {
    assert map[t := x] - {t} == map[];
  }

  lemma {:induction false} ReadyFinishes(db: State, t: Id, x: Transaction)
    requires Inv(Alone(db, t, x)) && Ready(x)
    ensures Finishes(db, t, x)
  {
    OkAlone(db, t, x);
    CommitIsAtomic(db, x);
    CommitAlone(db, t, x);
    FinishesAtOnce(db, t, x, Commit(t));
  }

  /** Alone, no line has to wait. */
  lemma {:induction false} LineAlone(db: State, t: Id, x: Transaction)
    requires x.stage.Writing? && x.job.Record? && |x.stage.items| < |x.job.sale.lines|
    ensures var v := DoLine(Alone(db, t, x), t);
      && v.db == db && v.open.Keys == {t} && v.open[t].job == x.job
      && v.open[t].stage.Writing? && |v.open[t].stage.items| == |x.stage.items| + 1
  {
  }

  lemma {:induction false} OneLine(db: State, t: Id, x: Transaction) returns (y: Transaction)
    requires Inv(Alone(db, t, x)) && x.stage.Writing? && x.job.Record?
    requires |x.stage.items| < |x.job.sale.lines|
    ensures RowLocks.Do(Alone(db, t, x), Next(t)) == Alone(db, t, y) && Inv(Alone(db, t, y)) && y.job == x.job
    ensures y.stage.Writing? && |y.stage.items| == |x.stage.items| + 1
  {
    LineKeepsInv(Alone(db, t, x), t);
    LineAlone(db, t, x);
    var v := DoLine(Alone(db, t, x), t);
    y := v.open[t];
    assert v.open == map[t := y];
    assert v == Alone(db, t, y);
  }

  lemma {:induction false} ItemsFit(db: State, t: Id, x: Transaction)
    requires Inv(Alone(db, t, x)) && x.stage.Writing? && x.job.Record?
    ensures |x.stage.items| <= |x.job.sale.lines|
  {
    OkAlone(db, t, x);
  }

  lemma {:induction false} WritingFinishes(db: State, t: Id, x: Transaction)
    requires Inv(Alone(db, t, x)) && x.stage.Writing? && x.job.Record?
    ensures Finishes(db, t, x)
    decreases |x.job.sale.lines| - |x.stage.items|
  {
    ItemsFit(db, t, x);
    if |x.stage.items| == |x.job.sale.lines| {
      ReadyFinishes(db, t, x);
    } else {
      var y := OneLine(db, t, x);
      WritingFinishes(db, t, y);
      FinishesBefore(db, t, x, Next(t), y);
    }
  }

  lemma {:induction false} StruckFinishes(db: State, t: Id, x: Transaction)
    requires Inv(Alone(db, t, x)) && x.stage.Struck?
    ensures Finishes(db, t, x)
  {
    var w := Alone(db, t, x);
    OkAlone(db, t, x);
    if x.job.Undo? {
      ReadyFinishes(db, t, x);
    } else {
      NextReversalKeepsInv(w, t);
      var y := DoNext(w, t).open[t];
      assert DoNext(w, t).open == map[t := y];
      WritingFinishes(db, t, y);
      FinishesBefore(db, t, x, Next(t), y);
    }
  }

  /** The products that are still to be restored. */
  function ToRestore(db: State, x: Transaction): set<Id>
    requires !x.job.Enter? && x.stage.Reversing?
  {
    Joined(db, Stored(db, SaleId(x.job)), StoreOf(x.job)) - x.stage.done
  }

  lemma {:induction false} OneRestore(db: State, t: Id, x: Transaction, p: Id) returns (y: Transaction)
    requires Inv(Alone(db, t, x)) && x.stage.Reversing? && !x.job.Enter? && p in ToRestore(db, x)
    ensures RowLocks.Do(Alone(db, t, x), Restore(t, p)) == Alone(db, t, y) && Inv(Alone(db, t, y)) && y.job == x.job
    ensures y.stage.Reversing? && ToRestore(db, y) == ToRestore(db, x) - {p}
  {
    var w := Alone(db, t, x);
    RestoreKeepsInv(w, t, p);
    y := DoRestore(w, t, p).open[t];
    assert DoRestore(w, t, p).open == map[t := y];
  }

  lemma {:induction false} AllRestored(db: State, t: Id, x: Transaction) returns (y: Transaction)
    requires Inv(Alone(db, t, x)) && x.stage.Reversing? && !x.job.Enter? && ToRestore(db, x) == {}
    ensures RowLocks.Do(Alone(db, t, x), Next(t)) == Alone(db, t, y) && Inv(Alone(db, t, y)) && y.job == x.job
    ensures y.stage.Struck?
  {
    var w := Alone(db, t, x);
    var joined := Joined(db, Stored(db, SaleId(x.job)), StoreOf(x.job));
    assert joined <= x.stage.done by {
      forall p | p in joined ensures p in x.stage.done { assert p !in ToRestore(db, x); }
    }
    NextReversalKeepsInv(w, t);
    y := DoNext(w, t).open[t];
    assert DoNext(w, t).open == map[t := y];
  }

  lemma {:induction false} ReversesASale(db: State, t: Id, x: Transaction)
    requires Inv(Alone(db, t, x)) && x.stage.Reversing?
    ensures !x.job.Enter?
  {
    OkAlone(db, t, x);
  }

  lemma {:induction false} ReversingFinishes(db: State, t: Id, x: Transaction)
    requires Inv(Alone(db, t, x)) && x.stage.Reversing? && !x.job.Enter?
    ensures Finishes(db, t, x)
    decreases |ToRestore(db, x)|
  {
    if ToRestore(db, x) == {} {
      var y := AllRestored(db, t, x);
      StruckFinishes(db, t, y);
      FinishesBefore(db, t, x, Next(t), y);
    } else {
      var p :| p in ToRestore(db, x);
      var y := OneRestore(db, t, x, p);
      ReversingFinishes(db, t, y);
      FinishesBefore(db, t, x, Restore(t, p), y);
    }
  }

  lemma {:induction false} EntryFinishes(db: State, t: Id, x: Transaction)
    requires Inv(Alone(db, t, x)) && (x.stage.Counted? || x.stage.Listed? || x.stage.Moved?)
    ensures Finishes(db, t, x)
    decreases if x.stage.Counted? then 2 else if x.stage.Listed? then 1 else 0
  {
    var w := Alone(db, t, x);
    OkAlone(db, t, x);
    if x.stage.Moved? {
      ReadyFinishes(db, t, x);
    } else {
      NextEntryKeepsInv(w, t);
      if t !in DoNext(w, t).open {
        assert DoNext(w, t).open == map[];
        FinishesAtOnce(db, t, x, Next(t));
      } else {
        var y := DoNext(w, t).open[t];
        assert DoNext(w, t).open == map[t := y];
        EntryFinishes(db, t, y);
        FinishesBefore(db, t, x, Next(t), y);
      }
    }
  }

  lemma {:induction false} UnlistedFinishes(db: State, t: Id, x: Transaction)
    requires Inv(Alone(db, t, x)) && x.stage.Unlisted? && x.job.Record? && x.job.sale.id !in db.sales
    ensures Finishes(db, t, x)
  {
    var w := Alone(db, t, x);
    NextUnlistedKeepsInv(w, t);
    var y := DoNext(w, t).open[t];
    assert DoNext(w, t).open == map[t := y];
    WritingFinishes(db, t, y);
    FinishesBefore(db, t, x, Next(t), y);
  }

  lemma {:induction false} FoundFinishes(db: State, t: Id, y: Transaction)
    requires Inv(Alone(db, t, y)) && (y.stage.Counted? || y.stage.Unlisted? || y.stage.Reversing?)
    requires y.stage.Unlisted? ==> y.job.Record? && y.job.sale.id !in db.sales
    ensures Finishes(db, t, y)
  {
    if y.stage.Counted? {
      EntryFinishes(db, t, y);
    } else if y.stage.Unlisted? {
      UnlistedFinishes(db, t, y);
    } else {
      ReversesASale(db, t, y);
      ReversingFinishes(db, t, y);
    }
  }

  /** Alone, the search ends the call or finds what it is about. */
  lemma {:induction false} FirstAlone(db: State, t: Id, x: Transaction)
    requires x.stage.Starting?
    ensures var v := DoFirst(Alone(db, t, x), t);
      if t !in v.open then v == World(db, map[])
      else
        var y := v.open[t];
        && v == Alone(db, t, y) && y.job == x.job
        && (y.stage.Counted? || y.stage.Unlisted? || y.stage.Reversing?)
        && (y.stage.Unlisted? ==> y.job.Record? && y.job.sale.id !in db.sales)
  {
    var v := DoFirst(Alone(db, t, x), t);
    if t !in v.open { assert v.open == map[]; } else { assert v.open == map[t := v.open[t]]; }
  }

  lemma {:induction false} StartingFinishes(db: State, t: Id, x: Transaction)
    requires Inv(Alone(db, t, x)) && x.stage.Starting?
    ensures Finishes(db, t, x)
  {
    var w := Alone(db, t, x);
    FirstKeepsInv(w, t);
    FirstAlone(db, t, x);
    var v := DoFirst(w, t);
    if t !in v.open {
      FinishesAtOnce(db, t, x, First(t));
    } else {
      var y := v.open[t];
      FoundFinishes(db, t, y);
      FinishesBefore(db, t, x, First(t), y);
    }
  }

  /** From balanced books, some series of statements carries any sensible call through to its atomic outcome. */
  lemma {:induction false} CallCompletes(db: State, t: Id, job: Job) returns (steps: seq<Step>)
    requires Balanced(db) && Reversible(db) && Sensible(db, job)
    ensures RowLocks.Run(World(db, map[]), steps) == World(Outcome(db, Whole(job)), map[])
  {
    var x := Transaction(job, Starting, map[], []);
    BeginKeepsInv(World(db, map[]), t, job);
    assert RowLocks.Do(World(db, map[]), Begin(t, job)) == Alone(db, t, x);
    StartingFinishes(db, t, x);
    var rest :| EndsIn(Alone(db, t, x), rest, job);
    steps := [Begin(t, job)] + rest;
    assert steps[0] == Begin(t, job) && steps[1..] == rest;
  }
}
