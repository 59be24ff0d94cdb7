/**
 Devices may send their sales and stock changes in any order, split into any pushes and retried any
 number of times: once everything has arrived the stock is the same.
 */
module Convergence {
  import opened Prelude
  import opened Ledger
  import opened Books
  import opened Replay
  import opened SetSums

  /** What each id stands for, whoever sends it and however often. */
  datatype Catalogue = Catalogue(sales: map<Id, PreparedSale>, movements: map<Id, Entry>)

  /** An accepted sale or change (not a count) with the content its id has. */
  predicate Follows(cat: Catalogue, s: State, e: Event)
  {
    match e.row
    case SaleRow(r) =>
      && r.id in cat.sales && Prepared(e.store, r) == cat.sales[r.id]
      && r.payment in ALLOWED_PAYMENT_METHODS && LinesError(s, e.store, r.lines).None?
    case MovementRow(r) =>
      && r.id in cat.movements && MovementRefusal(e.actor, r).None?
      && cat.movements[r.id] == EntryOf(e.store, e.actor, r).(unitCost := 0)
      && cat.movements[r.id].effect.Change? && ProductLive(s, e.store, r.product)
    case _ => false
  }

  predicate AllFollow(cat: Catalogue, s: State, es: seq<Event>)
  {
    forall i :: 0 <= i < |es| ==> Follows(cat, s, es[i])
  }

  predicate SafeCatalogue(cat: Catalogue)
  {
    && (forall id :: id in cat.sales ==> SafeLines(cat.sales[id].lines))
    && (forall id :: id in cat.movements ==> PlainNote(cat.movements[id].note))
  }

  /** What the server already holds agrees with the catalogue, or was voided. */
  predicate Agrees(cat: Catalogue, s: State)
  {
    && s.items.Keys == s.sales.Keys
    && forall id :: id in cat.sales && id in s.sales ==>
      s.sales[id].store == cat.sales[id].store && (s.sales[id].voided || s.items[id] == cat.sales[id].lines)
  }

  function SaleIds(es: seq<Event>): set<Id>
  {
    if es == [] then {}
    else
      var row := es[|es| - 1].row;
      SaleIds(es[..|es| - 1]) + if row.SaleRow? then {row.sale.id} else {}
  }

  function MovementIds(es: seq<Event>): set<Id>
  {
    if es == [] then {}
    else
      var row := es[|es| - 1].row;
      MovementIds(es[..|es| - 1]) + if row.MovementRow? then {row.movement.id} else {}
  }

  function NewSales(s: State, es: seq<Event>): set<Id> { SaleIds(es) - s.sales.Keys }

  function NewMovements(s: State, es: seq<Event>): set<Id>
  {
    set id | id in MovementIds(es) && !HasMovement(s.movements, Device(id))
  }

  function SaleOut(cat: Catalogue, id: Id, p: Id): int
  {
    if id in cat.sales then LineSum(cat.sales[id].lines, p) else 0
  }

  function MovementIn(cat: Catalogue, id: Id, p: Id): int
  {
    if id in cat.movements && cat.movements[id].product == p && cat.movements[id].effect.Change?
    then cat.movements[id].effect.delta else 0
  }

  /** What the new rows among `es` do to one product, as a function of their ids only. */
  ghost function NetChange(s: State, cat: Catalogue, es: seq<Event>, p: Id): int
  {
    Sum(NewMovements(s, es), (id: Id) => MovementIn(cat, id, p)) - Sum(NewSales(s, es), (id: Id) => SaleOut(cat, id, p))
  }

  // ----- One more row -----

  lemma {:induction false} IdsGrow(es: seq<Event>, n: nat)
    requires n < |es|
    ensures SaleIds(es[..n + 1]) == SaleIds(es[..n]) + if es[n].row.SaleRow? then {es[n].row.sale.id} else {}
    ensures MovementIds(es[..n + 1])
         == MovementIds(es[..n]) + if es[n].row.MovementRow? then {es[n].row.movement.id} else {}
  {
    assert es[..n + 1][..n] == es[..n];
  }

  /** Recording a sale for the first time takes its lines out of stock. */
  lemma {:induction false} NewSaleStock(s: State, sale: PreparedSale, who: Recorder, p: Id)
    requires Balanced(s) && Reversible(s) && ProductsKnown(s, sale.store, sale.lines)
    requires SaleVerdict(s, sale, who).Created? && p in s.products
    ensures p in AfterSale(s, sale, who).products
    ensures AfterSale(s, sale, who).products[p].stock == s.products[p].stock - LineSum(sale.lines, p)
  {
    var t := AfterSale(s, sale, who);
    SaleKeepsBooks(s, sale, who);
    SaleItems(s, sale, who);
    StockFromFacts(s, p);
    StockFromFacts(t, p);
    var f, g := (id: Id) => SaleTake(s, id, p), (id: Id) => SaleTake(t, id, p);
    SumPick(t.sales.Keys, g, sale.id);
    assert t.sales.Keys - {sale.id} == s.sales.Keys;
    SumSame(s.sales.Keys, f, g);
  }

  /** A sale the catalogue agrees with changes nothing when it is sent again. */
  lemma {:induction false} OldSaleStock(s: State, cat: Catalogue, sale: PreparedSale, who: Recorder)
    requires Balanced(s) && Reversible(s) && ProductsKnown(s, sale.store, sale.lines)
    requires Agrees(cat, s) && sale.id in cat.sales && cat.sales[sale.id] == sale && sale.id in s.sales
    requires SafeLines(sale.lines)
    ensures SameStock(s, AfterSale(s, sale, who))
    ensures AfterSale(s, sale, who).sales == s.sales && AfterSale(s, sale, who).items == s.items
  {
    var v := SaleVerdict(s, sale, who);
    if v.Changed? {
      SaleKeepsBooks(s, sale, who);
      SaleItems(s, sale, who);
      assert s.items[sale.id := sale.lines] == s.items;
      assert s.sales[sale.id := s.sales[sale.id]] == s.sales;
      FactsFixStock(s, AfterSale(s, sale, who));
    }
  }

  // ----- A whole run -----

  /** What stays true along a run that follows the catalogue. */
  predicate Lawful(s: State, cat: Catalogue, t: State)
  {
    Balanced(t) && Reversible(t) && Agrees(cat, t) && SameProducts(s, t)
  }

  /** Which sales and movements are there after the first `n` rows. */
  ghost predicate IdsArrived(s: State, es: seq<Event>, n: nat, t: State)
    requires n <= |es|
  {
    && t.sales.Keys == s.sales.Keys + SaleIds(es[..n])
    && (forall id :: HasMovement(t.movements, Device(id)) <==>
          HasMovement(s.movements, Device(id)) || id in MovementIds(es[..n]))
  }

  ghost predicate Arrived(s: State, cat: Catalogue, es: seq<Event>, n: nat, t: State)
    requires n <= |es|
  {
    Lawful(s, cat, t) && IdsArrived(s, es, n, t)
  }

  ghost predicate StockArrived(s: State, cat: Catalogue, es: seq<Event>, n: nat, t: State, p: Id)
    requires n <= |es| && p in s.products && p in t.products
  {
    t.products[p].stock == s.products[p].stock + NetChange(s, cat, es[..n], p)
  }

  lemma {:induction false} FollowingSaleResolves(s: State, t: State, cat: Catalogue, e: Event)
    requires SameProducts(s, t) && Follows(cat, s, e) && e.row.SaleRow?
    ensures LinesError(t, e.store, e.row.sale.lines).None?
    ensures ProductsKnown(t, e.store, Prepared(e.store, e.row.sale).lines)
  {
    SameLinesError(s, t, e.store, e.row.sale.lines);
    AcceptedLinesKnown(t, e.store, e.row.sale);
  }

  lemma {:induction false} FollowingIsSane(s: State, cat: Catalogue, e: Event)
    requires SafeCatalogue(cat) && Follows(cat, s, e)
    ensures Sane(e)
  {
  }

  lemma {:induction false} SameProductsChain(s: State, t: State, u: State)
    requires SameProducts(s, t) && SameProducts(t, u)
    ensures SameProducts(s, u)
  {
  }

  /** A row that follows the catalogue keeps the law and the products. */
  lemma {:induction false} FollowingKeeps(s: State, cat: Catalogue, t: State, e: Event)
    requires Balanced(t) && Reversible(t) && SameProducts(s, t) && SafeCatalogue(cat) && Follows(cat, s, e)
    ensures Balanced(Apply(t, e)) && Reversible(Apply(t, e)) && SameProducts(s, Apply(t, e))
  {
    FollowingIsSane(s, cat, e);
    ApplyKeepsBooks(t, e);
    ApplyKeepsReversible(t, e);
    TimelineRowFrame(t, e);
    SameProductsChain(s, t, Apply(t, e));
  }

  /** What a sale row does to the sales, and that it still agrees with the catalogue. */
  lemma {:induction false} FollowingSale(s: State, cat: Catalogue, t: State, e: Event)
    requires Agrees(cat, t) && SameProducts(s, t) && Follows(cat, s, e) && e.row.SaleRow?
    ensures Agrees(cat, Apply(t, e)) && Apply(t, e).sales.Keys == t.sales.Keys + {e.row.sale.id}
    ensures forall id :: HasMovement(Apply(t, e).movements, Device(id)) <==> HasMovement(t.movements, Device(id))
  {
    var sale, who := Prepared(e.store, e.row.sale), RecorderOf(e.actor);
    SameLinesError(s, t, e.store, e.row.sale.lines);
    SaleKeepsDevices(t, sale, who);
    var v := SaleVerdict(t, sale, who);
    if v.Created? || v.Changed? {
      SaleItems(t, sale, who);
    }
  }

  /** What a movement row does to the ids in the ledger. */
  lemma {:induction false} FollowingMovement(s: State, cat: Catalogue, t: State, e: Event)
    requires Agrees(cat, t) && SameProducts(s, t) && Follows(cat, s, e) && e.row.MovementRow?
    ensures Agrees(cat, Apply(t, e)) && Apply(t, e).sales.Keys == t.sales.Keys
    ensures forall id ::
      HasMovement(Apply(t, e).movements, Device(id)) <==>
          HasMovement(t.movements, Device(id)) || id == e.row.movement.id
  {
    var r := e.row.movement;
    assert ProductLive(t, e.store, r.product);
    if !HasMovement(t.movements, Device(r.id)) {
      var u := Apply(t, e);
      DeviceAppended(t.movements, u.movements[|t.movements|], r.id);
    }
  }

  lemma {:induction false} IdsStep(s: State, es: seq<Event>, n: nat, t: State, u: State)
    requires n < |es| && IdsArrived(s, es, n, t)
    requires u.sales.Keys == t.sales.Keys + if es[n].row.SaleRow? then {es[n].row.sale.id} else {}
    requires forall id :: HasMovement(u.movements, Device(id)) <==>
      HasMovement(t.movements, Device(id)) || (es[n].row.MovementRow? && id == es[n].row.movement.id)
    ensures IdsArrived(s, es, n + 1, u)
  {
    IdsGrow(es, n);
  }

  lemma {:induction false} RowArrives(s: State, cat: Catalogue, es: seq<Event>, n: nat, t: State)
    requires n < |es| && SafeCatalogue(cat)
    requires Arrived(s, cat, es, n, t) && Follows(cat, s, es[n])
    ensures Arrived(s, cat, es, n + 1, Apply(t, es[n]))
  {
    FollowingKeeps(s, cat, t, es[n]);
    if es[n].row.SaleRow? {
      FollowingSale(s, cat, t, es[n]);
    } else {
      FollowingMovement(s, cat, t, es[n]);
    }
    IdsStep(s, es, n, t, Apply(t, es[n]));
  }

  lemma {:induction false} SaleStockArrives(s: State, cat: Catalogue, es: seq<Event>, n: nat, t: State, p: Id)
    requires n < |es| && es[n].row.SaleRow? && SafeCatalogue(cat) && p in s.products && p in t.products
    requires Arrived(s, cat, es, n, t) && Follows(cat, s, es[n]) && StockArrived(s, cat, es, n, t, p)
    ensures p in Apply(t, es[n]).products && StockArrived(s, cat, es, n + 1, Apply(t, es[n]), p)
  {
    var e := es[n];
    var sale, who := Prepared(e.store, e.row.sale), RecorderOf(e.actor);
    FollowingSaleResolves(s, t, cat, e);
    IdsGrow(es, n);
    assert NewMovements(s, es[..n + 1]) == NewMovements(s, es[..n]);
    if sale.id in t.sales {
      OldSaleStock(t, cat, sale, who);
      assert NewSales(s, es[..n + 1]) == NewSales(s, es[..n]);
    } else {
      NewSaleStock(t, sale, who, p);
      assert NewSales(s, es[..n + 1]) - {sale.id} == NewSales(s, es[..n]);
      SumPick(NewSales(s, es[..n + 1]), (id: Id) => SaleOut(cat, id, p), sale.id);
    }
  }

  lemma {:induction false} SaleKeepsDevices(s: State, sale: PreparedSale, who: Recorder)
    ensures forall id ::
        HasMovement(AfterSale(s, sale, who).movements, Device(id)) <==> HasMovement(s.movements, Device(id))
  {
    var v := SaleVerdict(s, sale, who);
    if v.Created? || v.Changed? {
      var t := Cleared(s, sale, who);
      WrittenKeepsDevices(t, sale, |sale.lines|);
      assert |t.movements| == |s.movements|;
      assert forall i :: 0 <= i < |s.movements| ==> t.movements[i].id == s.movements[i].id;
    }
  }

  lemma {:induction false} WrittenKeepsDevices(s: State, sale: PreparedSale, n: nat)
    requires n <= |sale.lines|
    ensures forall id ::
        HasMovement(Written(s, sale, n).movements, Device(id)) <==> HasMovement(s.movements, Device(id))
  {
    if n > 0 {
      WrittenKeepsDevices(s, sale, n - 1);
      var t := Written(s, sale, n - 1);
      var u := TakeLine(t, sale, sale.lines[n - 1]);
      assert forall i :: 0 <= i < |t.movements| ==> u.movements[i] == t.movements[i];
      assert forall i :: |t.movements| <= i < |u.movements| ==> u.movements[i].id.Minted?;
    }
  }

  lemma {:induction false} DeviceAppended(ms: seq<Movement>, m: Movement, id: Id)
    requires m.id == Device(id)
    ensures forall j :: HasMovement(ms + [m], Device(j)) <==> HasMovement(ms, Device(j)) || j == id
  {
    assert (ms + [m])[|ms|] == m;
    forall j | HasMovement(ms, Device(j)) ensures HasMovement(ms + [m], Device(j)) {
      var i :| 0 <= i < |ms| && ms[i].id == Device(j);
      assert (ms + [m])[i] == ms[i];
    }
  }

  lemma {:induction false} MovementStockArrives(s: State, cat: Catalogue, es: seq<Event>, n: nat, t: State, p: Id)
    requires n < |es| && es[n].row.MovementRow? && p in s.products && p in t.products
    requires Arrived(s, cat, es, n, t) && Follows(cat, s, es[n]) && StockArrived(s, cat, es, n, t, p)
    ensures p in Apply(t, es[n]).products && StockArrived(s, cat, es, n + 1, Apply(t, es[n]), p)
  {
    var r := es[n].row.movement;
    IdsGrow(es, n);
    assert ProductLive(t, es[n].store, r.product);
    assert NewSales(s, es[..n + 1]) == NewSales(s, es[..n]);
    if HasMovement(t.movements, Device(r.id)) {
      assert NewMovements(s, es[..n + 1]) == NewMovements(s, es[..n]);
    } else {
      assert NewMovements(s, es[..n + 1]) - {r.id} == NewMovements(s, es[..n]);
      SumPick(NewMovements(s, es[..n + 1]), (id: Id) => MovementIn(cat, id, p), r.id);
    }
  }

  lemma {:induction false} RunArrives(s: State, cat: Catalogue, es: seq<Event>, n: nat)
    requires n <= |es| && Balanced(s) && Reversible(s) && SafeCatalogue(cat) && Agrees(cat, s)
    requires AllFollow(cat, s, es)
    ensures Arrived(s, cat, es, n, Run(s, es[..n]))
  {
    if n > 0 {
      RunArrives(s, cat, es, n - 1);
      assert es[..n][..n - 1] == es[..n - 1];
      RowArrives(s, cat, es, n - 1, Run(s, es[..n - 1]));
    }
  }

  lemma {:induction false} StockRunArrives(s: State, cat: Catalogue, es: seq<Event>, n: nat, p: Id)
    requires n <= |es| && Balanced(s) && Reversible(s) && SafeCatalogue(cat) && Agrees(cat, s)
    requires AllFollow(cat, s, es) && p in s.products
    ensures p in Run(s, es[..n]).products && StockArrived(s, cat, es, n, Run(s, es[..n]), p)
  {
    if n == 0 {
      assert NewMovements(s, es[..0]) == {} && NewSales(s, es[..0]) == {};
    } else {
      StockRunArrives(s, cat, es, n - 1, p);
      RunArrives(s, cat, es, n - 1);
      assert es[..n][..n - 1] == es[..n - 1];
      if es[n - 1].row.SaleRow? {
        SaleStockArrives(s, cat, es, n - 1, Run(s, es[..n - 1]), p);
      } else {
        MovementStockArrives(s, cat, es, n - 1, Run(s, es[..n - 1]), p);
      }
    }
  }

  /** After any run the stock is the starting stock plus what the ids that arrived stand for. */
  lemma {:induction false} StockAfterRun(s: State, cat: Catalogue, es: seq<Event>, p: Id)
    requires Balanced(s) && Reversible(s) && SafeCatalogue(cat) && Agrees(cat, s)
    requires AllFollow(cat, s, es) && p in s.products
    ensures p in Run(s, es).products
    ensures Run(s, es).products[p].stock == s.products[p].stock + NetChange(s, cat, es, p)
  {
    StockRunArrives(s, cat, es, |es|, p);
    assert es[..|es|] == es;
  }

  lemma {:induction false} RunKeepsProducts(s: State, cat: Catalogue, es: seq<Event>)
    requires Balanced(s) && Reversible(s) && SafeCatalogue(cat) && Agrees(cat, s)
    requires AllFollow(cat, s, es)
    ensures Run(s, es).products.Keys == s.products.Keys
  {
    RunArrives(s, cat, es, |es|);
    assert es[..|es|] == es;
  }

  /** Two runs that deliver the same ids end with the same stock, whatever their order and retries. */
  lemma {:induction false} RunsConverge(s: State, cat: Catalogue, xs: seq<Event>, ys: seq<Event>)
    requires Balanced(s) && Reversible(s) && SafeCatalogue(cat) && Agrees(cat, s)
    requires AllFollow(cat, s, xs) && AllFollow(cat, s, ys)
    requires SaleIds(xs) == SaleIds(ys) && MovementIds(xs) == MovementIds(ys)
    ensures SameStock(Run(s, xs), Run(s, ys))
  {
    RunKeepsProducts(s, cat, xs);
    RunKeepsProducts(s, cat, ys);
    forall p | p in s.products ensures Run(s, xs).products[p].stock == Run(s, ys).products[p].stock {
      StockAfterRun(s, cat, xs, p);
      StockAfterRun(s, cat, ys, p);
      assert NewSales(s, xs) == NewSales(s, ys) && NewMovements(s, xs) == NewMovements(s, ys);
    }
  }

  // ----- The same for pushes -----

  /** One push of sales and movements by some actor of some store at some moment. */
  datatype Delivery = Delivery(store: Id, actor: Actor, sales: seq<SaleRequest>, movements: seq<MovementRequest>,
      now: int)

  function BatchOf(d: Delivery): Batch { Batch([], d.sales, d.movements, [], [], []) }

  function PushAll(s: State, ds: seq<Delivery>): State
  {
    if ds == [] then s
    else
      var d := ds[|ds| - 1];
      Push(PushAll(s, ds[..|ds| - 1]), d.store, d.actor, BatchOf(d), d.now)
  }

  function Sent(ds: seq<Delivery>): seq<Event>
  {
    if ds == [] then []
    else
      var d := ds[|ds| - 1];
      Sent(ds[..|ds| - 1]) + PushEvents(d.store, d.actor, BatchOf(d), d.now)
  }

  lemma {:induction false} PushAllIsRun(s: State, ds: seq<Delivery>)
    ensures PushAll(s, ds) == Run(s, Sent(ds))
  {
    if ds != [] {
      var d := ds[|ds| - 1];
      PushAllIsRun(s, ds[..|ds| - 1]);
      RunSplits(s, Sent(ds[..|ds| - 1]), PushEvents(d.store, d.actor, BatchOf(d), d.now));
    }
  }

  /** Any two ways of pushing the same ids end with the same stock. */
  lemma {:induction false} PushesConverge(s: State, cat: Catalogue, xs: seq<Delivery>, ys: seq<Delivery>)
    requires Balanced(s) && Reversible(s) && SafeCatalogue(cat) && Agrees(cat, s)
    requires AllFollow(cat, s, Sent(xs)) && AllFollow(cat, s, Sent(ys))
    requires SaleIds(Sent(xs)) == SaleIds(Sent(ys)) && MovementIds(Sent(xs)) == MovementIds(Sent(ys))
    ensures SameStock(PushAll(s, xs), PushAll(s, ys))
  {
    PushAllIsRun(s, xs);
    PushAllIsRun(s, ys);
    RunsConverge(s, cat, Sent(xs), Sent(ys));
  }
}
