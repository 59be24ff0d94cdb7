/** Why the versions of a sale that a batch sends more than once have to agree for a push to be repeatable. */
module RepeatedId {
  import opened Prelude
  import opened Ledger
  import opened Books
  import opened Replay
  import StableSort

  function SaleOf(id: Id, p: Id, at: int): SaleRequest
  {
    SaleRequest(id, "cash", Some(at), [LineRequest(Some(p), 1, None)])
  }

  /** One id, first with one product and then with another, and the second product deleted at the end. */
  function TwiceOneId(id: Id, p: Id, q: Id): Batch
  {
    Batch([], [SaleOf(id, p, 1), SaleOf(id, q, 2)], [], [], [], [DeletionRequest(ProductEntity, q)])
  }

  function EventsOf(store: Id, id: Id, p: Id, q: Id): seq<Event>
  {
    [Event(store, Owner, SaleRow(SaleOf(id, p, 1))), Event(store, Owner, SaleRow(SaleOf(id, q, 2))),
     Event(store, Owner, DeletionRow(DeletionRequest(ProductEntity, q)))]
  }

  lemma {:induction false} SortTwo(a: Row, b: Row, key: Row -> int)
    requires key(a) <= key(b)
    ensures StableSort.SortBy([a, b], key) == [a, b]
  {
    assert [a, b][..1] == [a] && [a][..0] == [];
    assert StableSort.SortBy([], key) == [];
    assert StableSort.Insert([], a, key) == [a];
    assert StableSort.SortBy([a], key) == StableSort.Insert(StableSort.SortBy([a][..0], key), a, key);
    assert StableSort.Insert([a], b, key) == [a] + [b];
    assert StableSort.SortBy([a, b], key) == StableSort.Insert(StableSort.SortBy([a, b][..1], key), b, key);
  }

  lemma {:induction false} QueueStays(store: Id, id: Id, p: Id, q: Id, now: int)
    ensures PushEvents(store, Owner, TwiceOneId(id, p, q), now) == EventsOf(store, id, p, q)
  {
    var b := TwiceOneId(id, p, q);
    var first, second := SaleRow(SaleOf(id, p, 1)), SaleRow(SaleOf(id, q, 2));
    var key := (row: Row) => OccurredAt(row, now);
    assert Queued(b) == [first, second];
    SortTwo(first, second, key);
    assert Timeline(b, now) == [first, second];
    assert Behind(b) == [DeletionRow(DeletionRequest(ProductEntity, q))];
  }

  lemma {:induction false} RunThree(s: State, a: Event, b: Event, c: Event)
    ensures Run(s, [a, b, c]) == Apply(Apply(Apply(s, a), b), c)
  {
    assert [a, b, c][..2] == [a, b] && [a, b][..1] == [a] && [a][..0] == [];
    assert Run(s, [a]) == Apply(s, a);
    assert Run(s, [a, b]) == Apply(Apply(s, a), b);
  }

  /** A sale of one live product is stored with that line; without the product it changes nothing. */
  lemma {:induction false} OneLineSale(s: State, store: Id, id: Id, p: Id, at: int)
    requires id in s.sales ==> s.sales[id].store == store && !s.sales[id].voided
    ensures var t := Apply(s, Event(store, Owner, SaleRow(SaleOf(id, p, at))));
      if ProductLive(s, store, p) then
        id in t.sales && t.sales[id].store == store && !t.sales[id].voided
        && id in t.items && t.items[id] == [Line(Some(p), 1)] && SameProducts(s, t)
      else t == s
  {
    var r := SaleOf(id, p, at);
    var sale := Prepared(store, r);
    assert sale.lines == [Line(Some(p), 1)];
    assert r.lines[1..] == [] && LineResolves(s, store, r.lines[0]) == ProductLive(s, store, p);
    assert LinesError(s, store, r.lines) == if ProductLive(s, store, p) then None else Some(NotFound);
    if ProductLive(s, store, p) {
      SaleItems(s, sale, RecorderOf(Owner));
      SaleFrame(s, sale, RecorderOf(Owner));
    }
  }

  predicate Holds(s: State, store: Id, id: Id, p: Id)
  {
    id in s.sales && s.sales[id].store == store && !s.sales[id].voided && id in s.items
        && s.items[id] == [Line(Some(p), 1)]
  }

  lemma {:induction false} TwoSales(s: State, store: Id, id: Id, p: Id, q: Id)
    requires id in s.sales ==> s.sales[id].store == store && !s.sales[id].voided
    requires p != q && ProductLive(s, store, p)
    ensures var es := EventsOf(store, id, p, q);
      var t := Apply(Apply(s, es[0]), es[1]);
      Holds(t, store, id, if ProductLive(s, store, q) then q else p) && SameProducts(s, t)
  {
    OneLineSale(s, store, id, p, 1);
    OneLineSale(Apply(s, EventsOf(store, id, p, q)[0]), store, id, q, 2);
  }

  lemma {:induction false} ProductGoes(t: State, store: Id, q: Id)
    ensures var u := Apply(t, Event(store, Owner, DeletionRow(DeletionRequest(ProductEntity, q))));
      u.sales == t.sales && u.items == t.items && !ProductLive(u, store, q)
      && forall p :: p != q ==> ProductLive(u, store, p) == ProductLive(t, store, p)
  {
  }

  /** With both products live the later version stands; with the second gone the earlier one does. */
  lemma {:induction false} OnePush(s: State, store: Id, id: Id, p: Id, q: Id, now: int)
    requires id in s.sales ==> s.sales[id].store == store && !s.sales[id].voided
    requires p != q && ProductLive(s, store, p)
    ensures var t := Push(s, store, Owner, TwiceOneId(id, p, q), now);
      Holds(t, store, id, if ProductLive(s, store, q) then q else p) && ProductLive(t, store, p)
          && !ProductLive(t, store, q)
  {
    var es := EventsOf(store, id, p, q);
    QueueStays(store, id, p, q, now);
    RunThree(s, es[0], es[1], es[2]);
    TwoSales(s, store, id, p, q);
    ProductGoes(Apply(Apply(s, es[0]), es[1]), store, q);
  }

  /** The second push finds the product gone, refuses the later version of the sale and is left with the earlier one. */
  lemma {:induction false} RepeatedIdIsNotRepeatable(s: State, store: Id, id: Id, p: Id, q: Id, now: int, again: int)
    requires p != q && id !in s.sales && ProductLive(s, store, p) && ProductLive(s, store, q)
    ensures var once := Push(s, store, Owner, TwiceOneId(id, p, q), now);
      var twice := Push(once, store, Owner, TwiceOneId(id, p, q), again);
      Holds(once, store, id, q) && Holds(twice, store, id, p) && !SameFacts(twice, once)
  {
    var once := Push(s, store, Owner, TwiceOneId(id, p, q), now);
    OnePush(s, store, id, p, q, now);
    OnePush(once, store, id, p, q, again);
  }
}
