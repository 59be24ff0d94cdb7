/** What a sale, an expense and a withdrawal can never have done to them. */
module Lifecycle {
  import opened Prelude
  import opened Ledger
  import opened Books
  import opened Replay

  predicate Creates(s: State, e: Event, id: Id)
  {
    IsSaleOf(e.row, id) && VerdictOf(s, e) == Created
  }

  // ----- One row -----

  lemma {:induction false} SaleOutlives(s: State, e: Event, id: Id)
    requires s.items.Keys == s.sales.Keys && id in s.sales
    ensures id in Apply(s, e).sales && id in Apply(s, e).items
    ensures Apply(s, e).sales[id] == s.sales[id].(voided := Apply(s, e).sales[id].voided)
    ensures s.sales[id].voided ==> Apply(s, e).sales[id].voided && Apply(s, e).items[id] == s.items[id]
  {
    if IsSaleOf(e.row, id) {
      var sale, who := Prepared(e.store, e.row.sale), RecorderOf(e.actor);
      var v := SaleVerdict(s, sale, who);
      if v.Changed? {
        SaleItems(s, sale, who);
      }
    } else {
      SaleRowStays(s, e, id);
    }
  }

  lemma {:induction false} CreatedIsThere(s: State, e: Event, id: Id)
    requires Creates(s, e, id)
    ensures id in Apply(s, e).sales
  {
    SaleItems(s, Prepared(e.store, e.row.sale), RecorderOf(e.actor));
  }

  // ----- Whole runs -----

  /** A stored sale keeps its store and recorder for ever, and a voided sale stays voided, with its lines. */
  lemma {:induction false} SaleIsForever(s: State, es: seq<Event>, id: Id)
    requires s.items.Keys == s.sales.Keys && id in s.sales
    ensures var t := Run(s, es);
      && t.items.Keys == t.sales.Keys && id in t.sales
      && t.sales[id].store == s.sales[id].store && t.sales[id].recorder == s.sales[id].recorder
      && (s.sales[id].voided ==> t.sales[id].voided && t.items[id] == s.items[id])
  {
    if es != [] {
      SaleIsForever(s, es[..|es| - 1], id);
      SaleOutlives(Run(s, es[..|es| - 1]), es[|es| - 1], id);
      KeysStay(Run(s, es[..|es| - 1]), es[|es| - 1]);
    }
  }

  lemma {:induction false} RunKeepsKeys(s: State, es: seq<Event>)
    requires s.items.Keys == s.sales.Keys
    ensures Run(s, es).items.Keys == Run(s, es).sales.Keys
  {
    if es != [] {
      RunKeepsKeys(s, es[..|es| - 1]);
      KeysStay(Run(s, es[..|es| - 1]), es[|es| - 1]);
    }
  }

  /** In any run a sale id is created at most once. */
  lemma {:induction false} CreatedOnce(s: State, es: seq<Event>, i: nat, j: nat, id: Id)
    requires s.items.Keys == s.sales.Keys && i < j < |es|
    requires Creates(Run(s, es[..i]), es[i], id)
    ensures !Creates(Run(s, es[..j]), es[j], id)
  {
    RunKeepsKeys(s, es[..i]);
    var t := Run(s, es[..i + 1]);
    assert es[..i + 1][..i] == es[..i];
    CreatedIsThere(Run(s, es[..i]), es[i], id);
    KeysStay(Run(s, es[..i]), es[i]);
    assert es[..j] == es[..i + 1] + es[i + 1..j];
    RunSplits(s, es[..i + 1], es[i + 1..j]);
    SaleIsForever(t, es[i + 1..j], id);
  }

  // ----- Staff who may not delete -----

  /** The sale with its lines, the expense or the withdrawal, as it was. */
  predicate SaleUntouched(s: State, t: State, id: Id)
  {
    && (id in s.sales ==> id in t.sales && t.sales[id] == s.sales[id])
    && (id in s.sales && id in s.items ==> id in t.items && t.items[id] == s.items[id])
  }

  predicate ExpenseUntouched(s: State, t: State, id: Id)
  {
    id in s.expenses ==> id in t.expenses && t.expenses[id] == s.expenses[id]
  }

  /** Rows that staff without the delete permission cannot change by this event. */
  ghost predicate OthersUntouched(s: State, t: State, staff: Option<Id>)
  {
    && (forall id :: id in s.sales && s.sales[id].recorder != staff ==> SaleUntouched(s, t, id))
    && (forall id :: id in s.expenses && s.expenses[id].recorder != staff ==> ExpenseUntouched(s, t, id))
    && s.withdrawals == t.withdrawals
  }

  predicate MayNotDelete(actor: Actor) { actor.Staff? && !actor.grant.deleteRecords }

  lemma {:induction false} SaleLeavesOthers(s: State, store: Id, actor: Actor, r: SaleRequest)
    requires actor.Staff?
    ensures OthersUntouched(s, Apply(s, Event(store, actor, SaleRow(r))), actor.StaffId())
  {
    var sale, who := Prepared(store, r), RecorderOf(actor);
    SaleKeepsOtherTables(s, sale, who);
    var v := SaleVerdict(s, sale, who);
    if v.Created? || v.Changed? {
      SaleItems(s, sale, who);
    }
  }

  lemma {:induction false} DeletionLeavesOthers(s: State, store: Id, actor: Actor, r: DeletionRequest)
    requires MayNotDelete(actor)
    ensures OthersUntouched(s, AfterDeletion(s, store, actor, r), actor.StaffId())
  {
  }

  lemma {:induction false} RowLeavesOthers(s: State, e: Event)
    requires MayNotDelete(e.actor)
    ensures OthersUntouched(s, Apply(s, e), e.actor.StaffId())
  {
    if e.row.SaleRow? {
      SaleLeavesOthers(s, e.store, e.actor, e.row.sale);
    } else if e.row.DeletionRow? {
      DeletionLeavesOthers(s, e.store, e.actor, e.row.deletion);
    }
  }

  lemma {:induction false} SaleKeepsOtherTables(s: State, sale: PreparedSale, who: Recorder)
    ensures AfterSale(s, sale, who).expenses == s.expenses
    ensures AfterSale(s, sale, who).withdrawals == s.withdrawals
  {
    var v := SaleVerdict(s, sale, who);
    if v.Created? || v.Changed? {
      WrittenKeepsOtherTables(Cleared(s, sale, who), sale, |sale.lines|);
    }
  }

  lemma {:induction false} WrittenKeepsOtherTables(s: State, sale: PreparedSale, n: nat)
    requires n <= |sale.lines|
    ensures Written(s, sale, n).expenses == s.expenses && Written(s, sale, n).withdrawals == s.withdrawals
  {
    if n > 0 { WrittenKeepsOtherTables(s, sale, n - 1); }
  }

  lemma {:induction false} UntouchedChain(s: State, t: State, u: State, staff: Option<Id>)
    requires OthersUntouched(s, t, staff) && OthersUntouched(t, u, staff)
    requires s.items.Keys == s.sales.Keys
    ensures OthersUntouched(s, u, staff)
  {
    forall id | id in s.sales && s.sales[id].recorder != staff ensures SaleUntouched(s, u, id) {
      assert SaleUntouched(s, t, id);
      assert SaleUntouched(t, u, id);
    }
    forall id | id in s.expenses && s.expenses[id].recorder != staff ensures ExpenseUntouched(s, u, id) {
      assert ExpenseUntouched(s, t, id);
      assert ExpenseUntouched(t, u, id);
    }
  }

  lemma {:induction false} RunLeavesOthers(s: State, es: seq<Event>, actor: Actor)
    requires MayNotDelete(actor) && s.items.Keys == s.sales.Keys
    requires forall i :: 0 <= i < |es| ==> es[i].actor == actor
    ensures OthersUntouched(s, Run(s, es), actor.StaffId())
  {
    if es != [] {
      var front := es[..|es| - 1];
      RunLeavesOthers(s, front, actor);
      RunKeepsKeys(s, front);
      RowLeavesOthers(Run(s, front), es[|es| - 1]);
      UntouchedChain(s, Run(s, front), Run(s, es), actor.StaffId());
    }
  }

  /**
   A push by staff who may not delete leaves every sale someone else recorded with its lines, every
   expense someone else recorded and every withdrawal as they were.
   */
  lemma {:induction false} PushLeavesOthers(s: State, store: Id, actor: Actor, b: Batch, now: int)
    requires MayNotDelete(actor) && s.items.Keys == s.sales.Keys
    ensures OthersUntouched(s, Push(s, store, actor, b, now), actor.StaffId())
  {
    RunLeavesOthers(s, PushEvents(store, actor, b, now), actor);
  }
}
