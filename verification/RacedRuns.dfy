/** Runs in which first recordings may race: exactly when the books stay balanced. */
module RacedRuns {
  import opened Prelude
  import opened Ledger
  import opened Books
  import opened RowLocks
  import opened LockedStatements
  import opened LockedCommits
  import opened FirstRecordings
  import opened RacingStatements
  import Interleavings

  /** A racing transaction commits over a version whose effects stay. */
  ghost predicate Harms(w: World, s: Step)
    requires Balanced(w.db)
  {
    s.Commit? && s.t in w.open && Raced(w.db, w.open[s.t]) && Doubles(w.db, w.open[s.t])
  }

  lemma {:induction false} HarmShows(w: World, s: Step)
    requires Balanced(w.db) && Harms(w, s)
    ensures !Balanced(Do(w, s).db)
  {
    RacedCommitIsSoundIff(w.db, w.open[s.t]);
    assert !SaleSound(Do(w, s).db, w.open[s.t].job.sale.id);
  }

  lemma {:induction false} StepKeepsRaceInv(w: World, s: Step)
    requires RaceInv(w) && !Harms(w, s) && (s.Begin? ==> Sensible(w.db, s.job))
    ensures RaceInv(Do(w, s))
  {
    match s
    case Begin(t, job) => StepKeepsApart(w, s);
    case Commit(t) =>
      if t in w.open && Ready(w.open[t]) {
        assert Stands(w.db, w.open[t]);
        if Ok(w.db, w.open[t]) {
          PlainCommit(w, t);
        } else {
          ReadyIsRaced(w.db, w.open[t]);
          RacedCommit(w, t);
        }
      }
    case Abort(t) => StepKeepsApart(w, s);
    case Other(e) => if OtherRuns(w, e) { OtherKeepsRaceInv(w, e); }
    case _ => StatementKeepsRaceInv(w, s);
  }

  predicate BeginsSensible(w: World, steps: seq<Step>)
    decreases |steps|
  {
    steps != [] ==>
      (steps[0].Begin? ==> Sensible(w.db, steps[0].job)) && BeginsSensible(Do(w, steps[0]), steps[1..])
  }

  ghost predicate AlwaysBalanced(w: World, steps: seq<Step>)
    decreases |steps|
  {
    Balanced(w.db) && (steps != [] ==> AlwaysBalanced(Do(w, steps[0]), steps[1..]))
  }

  ghost predicate NeverHarms(w: World, steps: seq<Step>)
    decreases |steps|
  {
    steps != [] ==>
      Balanced(w.db) && !Harms(w, steps[0]) && NeverHarms(Do(w, steps[0]), steps[1..])
  }

  lemma {:induction false} BalancedIffFrom(w: World, steps: seq<Step>)
    requires RaceInv(w) && BeginsSensible(w, steps)
    ensures AlwaysBalanced(w, steps) <==> NeverHarms(w, steps)
    decreases |steps|
  {
    if steps != [] {
      if Harms(w, steps[0]) {
        HarmShows(w, steps[0]);
      } else {
        StepKeepsRaceInv(w, steps[0]);
        BalancedIffFrom(Do(w, steps[0]), steps[1..]);
      }
    }
  }

  /**
   In every interleaving, races included, the books stay balanced throughout if and only if no transaction that
   found no row commits over one stored since, whose effects stay: its lines if it is live, or else the new ones.
   */
  lemma {:induction false} BalancedIffNeverHarms(w: World, steps: seq<Step>)
    requires Inv(w) && BeginsSensible(w, steps)
    ensures AlwaysBalanced(w, steps) <==> NeverHarms(w, steps)
  {
    BalancedIffFrom(w, steps);
  }

  /** The step ends transaction `t`. */
  predicate Ends(s: Step, t: Id) { (s.Commit? || s.Abort?) && s.t == t }

  /** Transaction `t` races on, over the version it met, which it doubles or not as it did. */
  ghost predicate RacesOn(w: World, v: World, t: Id)
    requires t in w.open && Racing(w.db, w.open[t])
  {
    && t in v.open && Racing(v.db, v.open[t]) && v.open[t].job == w.open[t].job
    && SaleStays(w.db, v.db, w.open[t].job.sale.id) && StoresStay(w.db, v.db)
  }

  lemma {:induction false} CommitKeepsRacing(w: World, u: Id, t: Id)
    requires RaceInv(w) && u in w.open && Ready(w.open[u]) && u != t && t in w.open && Racing(w.db, w.open[t])
    ensures RacesOn(w, Do(w, Commit(u)), t)
  {
    assert Stands(w.db, w.open[u]);
    if Ok(w.db, w.open[u]) {
      CommitKeepsStores(w.db, w.open[u]);
    } else {
      ReadyIsRaced(w.db, w.open[u]);
      RacedStores(w.db, w.open[u]);
    }
    RacingLeftAlone(w, u, t);
  }

  lemma {:induction false} OtherKeepsRacing(w: World, e: Event, t: Id)
    requires OtherRuns(w, e) && t in w.open && Racing(w.db, w.open[t])
    ensures RacesOn(w, Do(w, Other(e)), t)
  {
    SingleFrame(w.db, e);
    RacingStays(w.db, Apply(w.db, e), w.open[t]);
  }

  lemma {:induction false} StatementKeepsRacing(w: World, s: Step, t: Id)
    requires IsStatement(s) && t in w.open && Racing(w.db, w.open[t])
    ensures RacesOn(w, Do(w, s), t)
  {
    StatementIsPrivate(w, s);
    if s.t == t { RacingStatement(w, s); }
  }

  lemma {:induction false} StepKeepsRacing(w: World, s: Step, t: Id)
    requires RaceInv(w) && !Ends(s, t) && t in w.open && Racing(w.db, w.open[t])
    ensures RacesOn(w, Do(w, s), t)
  {
    match s
    case Commit(u) => if u in w.open && Ready(w.open[u]) { CommitKeepsRacing(w, u, t); }
    case Other(e) => if OtherRuns(w, e) { OtherKeepsRacing(w, e, t); }
    case Begin(_, _) =>
    case Abort(_) =>
    case _ =>
      StatementKeepsRacing(w, s, t);
  }

  lemma {:induction false} RunKeepsRacing(w: World, steps: seq<Step>, t: Id)
    requires RaceInv(w) && BeginsSensible(w, steps) && NeverHarms(w, steps)
    requires t in w.open && Racing(w.db, w.open[t]) && forall i :: 0 <= i < |steps| ==> !Ends(steps[i], t)
    ensures RacesOn(w, RowLocks.Run(w, steps), t) && RaceInv(RowLocks.Run(w, steps))
    decreases |steps|
  {
    if steps != [] {
      StepKeepsRaceInv(w, steps[0]);
      StepKeepsRacing(w, steps[0], t);
      RunKeepsRacing(Do(w, steps[0]), steps[1..], t);
    }
  }

  lemma {:induction false} SameDoubles(w: World, v: World, t: Id)
    requires RaceInv(w) && t in w.open && Racing(w.db, w.open[t]) && RacesOn(w, v, t)
    ensures w.open[t].job.sale.id in w.db.items && w.open[t].job.sale.id in v.db.items
    ensures Doubles(v.db, v.open[t]) <==> Doubles(w.db, w.open[t])
  {
    var sale, store := w.open[t].job.sale, w.db.sales[w.open[t].job.sale.id].store;
    forall i | 0 <= i < |sale.lines|
      ensures LineKnown(v.db, store, sale.lines[i]) <==> LineKnown(w.db, store, sale.lines[i])
    {
      assert LineKnown(w.db, sale.store, sale.lines[i]);
    }
    if ProductsKnown(v.db, store, sale.lines) {
      forall i | 0 <= i < |sale.lines| ensures LineKnown(w.db, store, sale.lines[i]) {
        assert LineKnown(v.db, store, sale.lines[i]);
      }
    }
    if ProductsKnown(w.db, store, sale.lines) {
      forall i | 0 <= i < |sale.lines| ensures LineKnown(v.db, store, sale.lines[i]) {
        assert LineKnown(w.db, store, sale.lines[i]);
      }
    }
  }

  /**
   A search finds no row, and the next statement meets one stored since. Then the commit, whenever it comes, is
   a raced one, and does harm exactly if the version it met already promised so.
   */
  lemma {:induction false} MeetingDecides(w: World, t: Id, steps: seq<Step>)
    requires RaceInv(w) && !Interleavings.Unraced(w, Next(t)) && Do(w, Next(t)) != w
    requires var met := Do(w, Next(t)); BeginsSensible(met, steps) && NeverHarms(met, steps)
    requires forall i :: 0 <= i < |steps| ==> !Ends(steps[i], t)
    ensures var v, id := RowLocks.Run(Do(w, Next(t)), steps), w.open[t].job.sale.id;
      && Balanced(v.db) && t in v.open && v.open[t].job == w.open[t].job && id in w.db.items
      && (Ready(v.open[t]) ==>
            Raced(v.db, v.open[t]) && (Harms(v, Commit(t)) <==> Doubles(w.db, w.open[t])))
  {
    var met := Do(w, Next(t));
    RaceBegins(w, t);
    StatementKeepsRaceInv(w, Next(t));
    StatementIsPrivate(w, Next(t));
    RunKeepsRacing(met, steps, t);
    var v := RowLocks.Run(met, steps);
    SameDoubles(met, v, t);
    assert met.open[t].job == w.open[t].job;
    if Ready(v.open[t]) { ReadyIsRaced(v.db, v.open[t]); }
  }
}
