/** What each row of a push is answered and what it leaves behind, said of the rows themselves. */
module RowAnswers {
  import opened Prelude
  import opened Ledger
  import opened Books

  // ----- Products -----

  /** Stock is given on insert only, a hidden cost is the live row's or nothing, and nothing sells below its cost. */
  predicate ProductAnswered(s: State, t: State, store: Id, actor: Actor, r: ProductRequest, v: Verdict)
  {
    var known := r.id in s.products;
    var mine := known && s.products[r.id].store == store;
    var allowed := actor.Owner? || actor.grant.manageProducts;
    var cost := if actor.Owner? || actor.grant.viewProfit then r.cost
                else if mine && s.products[r.id].live then s.products[r.id].cost else 0;
    if allowed && cost <= r.selling && (known ==> mine) then
      && v == (if known then Changed else Created)
      && t == s.(products := t.products) && t.products.Keys == s.products.Keys + {r.id}
      && (forall p :: p in s.products && p != r.id ==> t.products[p] == s.products[p])
      && t.products[r.id].store == store && t.products[r.id].live
      && t.products[r.id].cost == cost && t.products[r.id].selling == r.selling
      && t.products[r.id].stock == (if known then s.products[r.id].stock else r.opening)
      && t.products[r.id].opening == (if known then s.products[r.id].opening else r.opening)
    else
      t == s && v == Refused(if !allowed then Forbidden else if r.selling < cost then BadRequest else Conflict)
  }

  // ----- Sales -----

  /** Only stock may differ. */
  predicate SameButStock(s: State, t: State)
  {
    && t.products.Keys == s.products.Keys
    && forall p :: p in s.products ==> t.products[p] == s.products[p].(stock := t.products[p].stock)
  }

  /** What the stored version of a sale holds of a product. */
  function HeldBy(s: State, id: Id, p: Id): int
  {
    if id in s.items then LineSum(s.items[id], p) else 0
  }

  /** New, or stored live in the same store, and the caller the owner or its recorder. */
  predicate MayRecord(s: State, sale: PreparedSale, who: Recorder)
  {
    sale.id in s.sales ==>
      && s.sales[sale.id].store == sale.store && !s.sales[sale.id].voided
      && (who.isOwner || s.sales[sale.id].recorder == who.staff)
  }

  ghost predicate SaleStored(s: State, t: State, sale: PreparedSale, who: Recorder)
  {
    && t.items == s.items[sale.id := sale.lines]
    && t.sales == s.sales[sale.id :=
         Sale(sale.store, if sale.id in s.sales then s.sales[sale.id].recorder else who.staff, false)]
    && t.expenses == s.expenses && t.withdrawals == s.withdrawals && SameButStock(s, t)
    && (Balanced(s) && Reversible(s) ==> forall p :: p in s.products ==>
         t.products[p].stock == s.products[p].stock + HeldBy(s, sale.id, p) - LineSum(sale.lines, p))
  }

  /** Of a sale whose products were resolved: it stands in its new version, or nothing has happened. */
  ghost predicate RecordAnswered(s: State, t: State, sale: PreparedSale, who: Recorder, v: Verdict)
  {
    if MayRecord(s, sale, who) then
      v == (if sale.id in s.sales then Changed else Created) && SaleStored(s, t, sale, who)
    else
      && t == s
      && v == if s.sales[sale.id].store != sale.store then Refused(Conflict)
              else if s.sales[sale.id].voided then Kept
              else Refused(Forbidden)
  }

  predicate LineAccepted(s: State, store: Id, l: LineRequest)
  {
    if l.product.Some?
    then l.product.value in s.products && s.products[l.product.value].store == store && s.products[l.product.value].live
    else l.unitPrice.Some?
  }

  predicate AllAccepted(s: State, store: Id, lines: seq<LineRequest>, n: nat)
    requires n <= |lines|
  {
    forall i :: 0 <= i < n ==> LineAccepted(s, store, lines[i])
  }

  predicate LinesAsSent(lines: seq<Line>, sent: seq<LineRequest>)
  {
    && |lines| == |sent|
    && forall i :: 0 <= i < |lines| ==> lines[i].product == sent[i].product && lines[i].quantity == sent[i].quantity
  }

  /** The caller as a recorder: the owner has no staff id. */
  function CallerOf(actor: Actor): Recorder
  {
    match actor
    case Owner => Recorder(None, true)
    case Staff(id, _) => Recorder(Some(id), false)
  }

  /** A line that names no live product of the store, or no price of its own, fails the sale before it is looked up. */
  ghost predicate SaleAnswered(s: State, t: State, store: Id, actor: Actor, r: SaleRequest, v: Verdict)
  {
    var paid := r.payment == "cash" || r.payment == "gcash" || r.payment == "maya" || r.payment == "bank_transfer"
                || r.payment == "utang";
    && (!paid ==> t == s && v == Refused(BadRequest))
    && (paid && AllAccepted(s, store, r.lines, |r.lines|) ==>
          forall lines :: LinesAsSent(lines, r.lines) ==>
            RecordAnswered(s, t, PreparedSale(r.id, store, lines), CallerOf(actor), v))
    && (paid ==>
          forall i :: 0 <= i < |r.lines| && AllAccepted(s, store, r.lines, i) && !LineAccepted(s, store, r.lines[i]) ==>
            t == s && v == Refused(if r.lines[i].product.Some? then NotFound else BadRequest))
  }

  // ----- Stock movements -----

  /** Its effect by kind; a count may be of nothing, any other movement has to move something. */
  predicate MovementAnswered(s: State, t: State, store: Id, actor: Actor, r: MovementRequest, v: Verdict)
  {
    var allowed := actor.Owner? || actor.grant.manageProducts;
    var sensible := !r.kind.OtherKind? && (r.kind.Adjustment? || r.quantity != 0);
    var there := r.product in s.products && s.products[r.product].store == store && s.products[r.product].live;
    var sent := exists i :: 0 <= i < |s.movements| && s.movements[i].id == Device(r.id);
    if allowed && sensible && there && !sent then
      var was := s.products[r.product];
      var stock := if r.kind.Adjustment? then r.quantity
                   else if r.kind.StockIn? then was.stock + r.quantity else was.stock - r.quantity;
      var costed := r.unitCost > 0 && (actor.Owner? || actor.grant.viewProfit);
      && v == Created
      && t == s.(products := t.products, movements := t.movements)
      && t.products ==
           s.products[r.product := was.(stock := stock, cost := if costed then r.unitCost else was.cost)]
      && t.movements == s.movements + [Movement(Device(r.id), store, r.product, stock - was.stock, r.note, true)]
    else
      && t == s
      && v == if !allowed then Refused(Forbidden) else if !sensible then Refused(BadRequest)
              else if !there then Refused(NotFound) else Kept
  }

  // ----- Expenses and withdrawals -----

  /** Whoever deleted it, a re-sent expense is there again, and its first recorder stays. */
  predicate ExpenseAnswered(s: State, t: State, store: Id, actor: Actor, r: ExpenseRequest, v: Verdict)
  {
    var allowed := actor.Owner? || actor.grant.recordExpenses;
    var known := r.id in s.expenses;
    var mine := known && s.expenses[r.id].store == store
                && (actor.Owner? || s.expenses[r.id].recorder == Some(actor.staffId));
    if allowed && r.knownCategory && (known ==> mine) then
      var recorder := if known then s.expenses[r.id].recorder
                      else if actor.Owner? then None else Some(actor.staffId);
      && v == (if known then Changed else Created)
      && t == s.(expenses := s.expenses[r.id := Expense(store, recorder, r.amount, true)])
    else
      t == s && v == Refused(if allowed && !r.knownCategory then BadRequest else Forbidden)
  }

  /** Withdrawals are the owner's alone. */
  predicate WithdrawalAnswered(s: State, t: State, store: Id, actor: Actor, r: WithdrawalRequest, v: Verdict)
  {
    var known := r.id in s.withdrawals;
    if actor.Owner? && (known ==> s.withdrawals[r.id].store == store) then
      && v == (if known then Changed else Created)
      && t == s.(withdrawals := s.withdrawals[r.id := Withdrawal(store, r.amount, true)])
    else
      t == s && v == Refused(if actor.Owner? then Conflict else Forbidden)
  }

  // ----- Deletions -----

  /** The store has such a row, and it is not deleted. */
  predicate IsThere(s: State, store: Id, entity: Entity, id: Id)
  {
    match entity
    case SaleEntity => id in s.sales && s.sales[id].store == store && !s.sales[id].voided
    case ExpenseEntity => id in s.expenses && s.expenses[id].store == store && s.expenses[id].live
    case WithdrawalEntity => id in s.withdrawals && s.withdrawals[id].store == store && s.withdrawals[id].live
    case ProductEntity => id in s.products && s.products[id].store == store && s.products[id].live
    case OtherEntity(_) => false
  }

  predicate DeletesKind(actor: Actor, entity: Entity)
  {
    actor.Owner?
    || ((entity.SaleEntity? || entity.ExpenseEntity?) && actor.grant.deleteRecords)
    || (entity.ProductEntity? && actor.grant.manageProducts)
  }

  /** The sale's lines are back in stock, and its ledger rows count no more. */
  ghost predicate SaleVoided(s: State, t: State, store: Id, id: Id)
    requires id in s.sales
  {
    && t.sales == s.sales[id := s.sales[id].(voided := true)] && t.items == s.items
    && t.expenses == s.expenses && t.withdrawals == s.withdrawals && SameButStock(s, t)
    && (Balanced(s) && Reversible(s) ==> forall p :: p in s.products ==>
         t.products[p].stock == s.products[p].stock + HeldBy(s, id, p))
    && |t.movements| == |s.movements|
    && forall i :: 0 <= i < |s.movements| ==>
         t.movements[i] == if s.movements[i].store == store && s.movements[i].note == SaleTag(id)
                           then s.movements[i].(live := false) else s.movements[i]
  }

  ghost predicate RowDeleted(s: State, t: State, store: Id, entity: Entity, id: Id)
    requires IsThere(s, store, entity, id)
  {
    match entity
    case SaleEntity => SaleVoided(s, t, store, id)
    case ExpenseEntity => t == s.(expenses := s.expenses[id := s.expenses[id].(live := false)])
    case WithdrawalEntity => t == s.(withdrawals := s.withdrawals[id := s.withdrawals[id].(live := false)])
    case ProductEntity => t == s.(products := s.products[id := s.products[id].(live := false)])
    case OtherEntity(_) => t == s
  }

  ghost predicate DeletionAnswered(s: State, t: State, store: Id, actor: Actor, r: DeletionRequest, v: Verdict)
  {
    if !r.entity.OtherEntity? && DeletesKind(actor, r.entity) && IsThere(s, store, r.entity, r.id) then
      v == Changed && (s.items.Keys == s.sales.Keys ==> RowDeleted(s, t, store, r.entity, r.id))
    else
      && t == s
      && v == if r.entity.OtherEntity? then Refused(BadRequest)
              else if !DeletesKind(actor, r.entity) then Refused(Forbidden) else Kept
  }

  // ----- Any row -----

  ghost predicate RowAnswered(s: State, t: State, e: Event, v: Verdict)
  {
    match e.row
    case ProductRow(r) => ProductAnswered(s, t, e.store, e.actor, r, v)
    case SaleRow(r) => SaleAnswered(s, t, e.store, e.actor, r, v)
    case MovementRow(r) => MovementAnswered(s, t, e.store, e.actor, r, v)
    case ExpenseRow(r) => ExpenseAnswered(s, t, e.store, e.actor, r, v)
    case WithdrawalRow(r) => WithdrawalAnswered(s, t, e.store, e.actor, r, v)
    case DeletionRow(r) => DeletionAnswered(s, t, e.store, e.actor, r, v)
  }

  lemma {:induction false} ProductIsAnswered(s: State, store: Id, actor: Actor, r: ProductRequest)
    ensures ProductAnswered(s, AfterProduct(s, store, actor, r), store, actor, r, ProductVerdict(s, store, actor, r))
  {
  }

  lemma {:induction false} MovementIsAnswered(s: State, store: Id, actor: Actor, r: MovementRequest)
    ensures var e := Event(store, actor, MovementRow(r));
      MovementAnswered(s, Apply(s, e), store, actor, r, VerdictOf(s, e))
  {
  }

  lemma {:induction false} ExpenseIsAnswered(s: State, store: Id, actor: Actor, r: ExpenseRequest)
    ensures ExpenseAnswered(s, AfterExpense(s, store, actor, r), store, actor, r, ExpenseVerdict(s, store, actor, r))
  {
  }

  lemma {:induction false} WithdrawalIsAnswered(s: State, store: Id, actor: Actor, r: WithdrawalRequest)
    ensures WithdrawalAnswered(
      s, AfterWithdrawal(s, store, actor, r), store, actor, r, WithdrawalVerdict(s, store, actor, r))
  {
  }

  /** Writing the lines takes each product's sum out of its stock. */
  lemma {:induction false} WrittenTakes(s: State, sale: PreparedSale, n: nat, p: Id)
    requires n <= |sale.lines| && ProductsKnown(s, sale.store, sale.lines)
    ensures p in Written(s, sale, n).products <==> p in s.products
    ensures p in s.products ==>
      Written(s, sale, n).products[p] ==
        s.products[p].(stock := s.products[p].stock - LinesTo(sale.lines, n, p))
  {
    if n > 0 {
      WrittenTakes(s, sale, n - 1, p);
      assert LineKnown(s, sale.store, sale.lines[n - 1]);
      if sale.lines[n - 1].product.Some? { WrittenTakes(s, sale, n - 1, sale.lines[n - 1].product.value); }
    }
  }

  /** Clearing the stored version gives its lines back, once for each product. */
  lemma {:induction false} ClearedGivesBack(s: State, sale: PreparedSale, who: Recorder, p: Id)
    requires Balanced(s) && Reversible(s) && MayRecord(s, sale, who) && p in s.products
    ensures p in Cleared(s, sale, who).products
    ensures Cleared(s, sale, who).products[p].stock == s.products[p].stock + HeldBy(s, sale.id, p)
  {
    if sale.id in s.sales {
      FirstLineQuantity(s.items[sale.id], p);
      if Joins(s.items[sale.id], p) { JoinedProductKnown(s, sale.id, p); }
    }
  }

  lemma {:induction false} StoredProduct(s: State, sale: PreparedSale, who: Recorder, p: Id)
    requires MayRecord(s, sale, who) && ProductsKnown(s, sale.store, sale.lines)
    ensures var c, t := Cleared(s, sale, who), AfterSale(s, sale, who);
      && (p in t.products <==> p in s.products) && (p in c.products <==> p in s.products)
      && (p in s.products ==>
            && c.products[p] == s.products[p].(stock := c.products[p].stock)
            && t.products[p] == c.products[p].(stock := c.products[p].stock - LineSum(sale.lines, p)))
  {
    var c := Cleared(s, sale, who);
    LinesCarry(s, c, sale.store, sale.lines);
    WrittenTakes(c, sale, |sale.lines|, p);
  }

  lemma {:induction false} StoredProducts(s: State, sale: PreparedSale, who: Recorder)
    requires MayRecord(s, sale, who) && ProductsKnown(s, sale.store, sale.lines)
    ensures SameButStock(s, AfterSale(s, sale, who))
    ensures Balanced(s) && Reversible(s) ==> forall p :: p in s.products ==>
      AfterSale(s, sale, who).products[p].stock
        == s.products[p].stock + HeldBy(s, sale.id, p) - LineSum(sale.lines, p)
  {
    var t := AfterSale(s, sale, who);
    forall p: Id
      ensures p in t.products <==> p in s.products
      ensures p in s.products ==> t.products[p] == s.products[p].(stock := t.products[p].stock)
      ensures p in s.products && Balanced(s) && Reversible(s) ==>
        t.products[p].stock == s.products[p].stock + HeldBy(s, sale.id, p) - LineSum(sale.lines, p)
    {
      StoredProduct(s, sale, who, p);
      if p in s.products && Balanced(s) && Reversible(s) { ClearedGivesBack(s, sale, who, p); }
    }
  }

  /** A sale is stored exactly when it is new, or is the caller's to change. */
  lemma {:induction false} RecordIsAnswered(s: State, sale: PreparedSale, who: Recorder)
    requires ProductsKnown(s, sale.store, sale.lines)
    ensures RecordAnswered(s, AfterSale(s, sale, who), sale, who, SaleVerdict(s, sale, who))
  {
    if MayRecord(s, sale, who) {
      SaleItems(s, sale, who);
      StoredProducts(s, sale, who);
      WrittenKeepsRest(Cleared(s, sale, who), sale, |sale.lines|);
    }
  }

  lemma {:induction false} WrittenKeepsRest(s: State, sale: PreparedSale, n: nat)
    requires n <= |sale.lines|
    ensures Written(s, sale, n).expenses == s.expenses && Written(s, sale, n).withdrawals == s.withdrawals
  {
    if n > 0 { WrittenKeepsRest(s, sale, n - 1); }
  }

  lemma {:induction false} LinesErrorIs(s: State, store: Id, lines: seq<LineRequest>)
    ensures AllAccepted(s, store, lines, |lines|) <==> LinesError(s, store, lines).None?
    ensures forall i :: 0 <= i < |lines| && AllAccepted(s, store, lines, i) && !LineAccepted(s, store, lines[i]) ==>
      LinesError(s, store, lines) == Some(if lines[i].product.Some? then NotFound else BadRequest)
  {
    if lines != [] {
      var rest := lines[1..];
      LinesErrorIs(s, store, rest);
      assert LineAccepted(s, store, lines[0]) <==> LineResolves(s, store, lines[0]);
      assert forall i :: 0 <= i < |rest| ==> rest[i] == lines[i + 1];
      forall i | 0 <= i < |lines| && AllAccepted(s, store, lines, i) && !LineAccepted(s, store, lines[i])
        ensures LinesError(s, store, lines) == Some(if lines[i].product.Some? then NotFound else BadRequest)
      {
        if i > 0 {
          assert AllAccepted(s, store, rest, i - 1) && !LineAccepted(s, store, rest[i - 1]);
        }
      }
      if AllAccepted(s, store, rest, |rest|) && LineAccepted(s, store, lines[0]) {
        forall i | 0 <= i < |lines| ensures LineAccepted(s, store, lines[i]) {
          if i > 0 { assert LineAccepted(s, store, rest[i - 1]); }
        }
      }
      if AllAccepted(s, store, lines, |lines|) {
        forall i | 0 <= i < |rest| ensures LineAccepted(s, store, rest[i]) {
          assert LineAccepted(s, store, lines[i + 1]);
        }
      }
    }
  }

  lemma {:induction false} SaleIsAnswered(s: State, store: Id, actor: Actor, r: SaleRequest)
    ensures var e := Event(store, actor, SaleRow(r));
      SaleAnswered(s, Apply(s, e), store, actor, r, VerdictOf(s, e))
  {
    var e := Event(store, actor, SaleRow(r));
    LinesErrorIs(s, store, r.lines);
    if r.payment in ALLOWED_PAYMENT_METHODS && LinesError(s, store, r.lines).None? {
      var sale := Prepared(store, r);
      forall i | 0 <= i < |sale.lines| ensures LineKnown(s, store, sale.lines[i]) {
        assert LineAccepted(s, store, r.lines[i]);
      }
      RecordIsAnswered(s, sale, CallerOf(actor));
      forall lines | LinesAsSent(lines, r.lines)
        ensures RecordAnswered(s, Apply(s, e), PreparedSale(r.id, store, lines), CallerOf(actor), VerdictOf(s, e))
      {
        assert lines == sale.lines;
      }
    }
  }

  lemma {:induction false} VoidGivesBack(s: State, store: Id, id: Id, p: Id)
    requires Balanced(s) && Reversible(s) && id in s.sales && s.sales[id].store == store && p in s.products
    ensures Reversed(s, id, store).products[p].stock == s.products[p].stock + HeldBy(s, id, p)
  {
    FirstLineQuantity(s.items[id], p);
    if Joins(s.items[id], p) { JoinedProductKnown(s, id, p); }
  }

  lemma {:induction false} VoidIsAnswered(s: State, store: Id, id: Id)
    requires id in s.sales && id in s.items && s.sales[id].store == store && !s.sales[id].voided
    ensures SaleVoided(s, AfterVoid(s, store, id), store, id)
  {
    if Balanced(s) && Reversible(s) {
      forall p | p in s.products
        ensures AfterVoid(s, store, id).products[p].stock == s.products[p].stock + HeldBy(s, id, p)
      {
        VoidGivesBack(s, store, id, p);
      }
    }
  }

  lemma {:induction false} DeletionIsAnswered(s: State, store: Id, actor: Actor, r: DeletionRequest)
    ensures DeletionAnswered(
      s, AfterDeletion(s, store, actor, r), store, actor, r, DeletionVerdict(s, store, actor, r))
  {
    if r.entity.SaleEntity? && IsThere(s, store, SaleEntity, r.id) && r.id in s.items {
      VoidIsAnswered(s, store, r.id);
    }
  }

  /** Every row of every push is answered like that. */
  lemma {:induction false} RowIsAnswered(s: State, e: Event)
    ensures RowAnswered(s, Apply(s, e), e, VerdictOf(s, e))
  {
    match e.row {
      case ProductRow(r) => ProductIsAnswered(s, e.store, e.actor, r);
      case SaleRow(r) => SaleIsAnswered(s, e.store, e.actor, r);
      case MovementRow(r) => MovementIsAnswered(s, e.store, e.actor, r);
      case ExpenseRow(r) => ExpenseIsAnswered(s, e.store, e.actor, r);
      case WithdrawalRow(r) => WithdrawalIsAnswered(s, e.store, e.actor, r);
      case DeletionRow(r) => DeletionIsAnswered(s, e.store, e.actor, r);
    }
  }
}
