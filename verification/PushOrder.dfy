/** The order in which a push tries its rows, and that what it deletes is gone in the end. */
module PushOrder {
  import opened Prelude
  import opened Ledger
  import opened Timelines
  import opened Replay
  import opened RowAnswers
  import Lifecycle
  import StableSort

  /** When a device says that a sale or movement happened; now, if it does not say. */
  predicate HappenedAt(row: Row, now: int, at: int)
  {
    || (row.SaleRow? && at == if row.sale.at.Some? then row.sale.at.value else now)
    || (row.MovementRow? && at == if row.movement.at.Some? then row.movement.at.value else now)
  }

  /** The products as they were sent. */
  predicate ProductsAsSent(rows: seq<Row>, b: Batch)
  {
    |rows| == |b.products| && forall i :: 0 <= i < |rows| ==> rows[i] == ProductRow(b.products[i])
  }

  /** The sales and movements, each once, by the time they happened. */
  ghost predicate ByTime(rows: seq<Row>, b: Batch, now: int)
  {
    && multiset(rows) == multiset(SaleRows(b)) + multiset(MovementRows(b))
    && forall i, j, a, c {:trigger HappenedAt(rows[i], now, a), HappenedAt(rows[j], now, c)} ::
         0 <= i < j < |rows| && HappenedAt(rows[i], now, a) && HappenedAt(rows[j], now, c) ==> a <= c
  }

  /** The expenses, then the withdrawals, then the deletions, as they were sent. */
  predicate RestAsSent(rows: seq<Row>, b: Batch)
  {
    var x, y := |b.expenses|, |b.expenses| + |b.withdrawals|;
    && |rows| == y + |b.deletions|
    && (forall i :: 0 <= i < x ==> rows[i] == ExpenseRow(b.expenses[i]))
    && (forall i :: x <= i < y ==> rows[i] == WithdrawalRow(b.withdrawals[i - x]))
    && (forall i :: y <= i < |rows| ==> rows[i] == DeletionRow(b.deletions[i - y]))
  }

  ghost predicate InPhases(rows: seq<Row>, b: Batch, now: int)
  {
    var p, q := |b.products|, |b.products| + |b.sales| + |b.movements|;
    q <= |rows| && ProductsAsSent(rows[..p], b) && ByTime(rows[p..q], b, now) && RestAsSent(rows[q..], b)
  }

  /** Every row of a push, in the order it is tried. */
  function PushedRows(b: Batch, now: int): seq<Row> { Before(b) + Timeline(b, now) + Behind(b) }

  lemma {:induction false} TimelineLength(b: Batch, now: int)
    ensures |Timeline(b, now)| == |b.sales| + |b.movements|
  {
    TimelineIsStable(b, now);
    assert |multiset(Timeline(b, now))| == |multiset(SaleRows(b)) + multiset(MovementRows(b))|;
  }

  lemma {:induction false} TimelineByTime(b: Batch, now: int, i: nat, j: nat, a: int, c: int)
    requires i < j < |Timeline(b, now)|
    requires HappenedAt(Timeline(b, now)[i], now, a) && HappenedAt(Timeline(b, now)[j], now, c)
    ensures a <= c
  {
    TimelineIsStable(b, now);
    var key := (row: Row) => OccurredAt(row, now);
    assert key(Timeline(b, now)[i]) <= key(Timeline(b, now)[j]);
  }

  lemma {:induction false} TimelineInPhase(b: Batch, now: int)
    ensures ByTime(Timeline(b, now), b, now)
  {
    TimelineIsStable(b, now);
    var rows := Timeline(b, now);
    forall i, j, a, c | 0 <= i < j < |rows| && HappenedAt(rows[i], now, a) && HappenedAt(rows[j], now, c)
      ensures a <= c
    {
      TimelineByTime(b, now, i, j, a, c);
    }
  }

  lemma {:induction false} ThreeParts<T>(a: seq<T>, b: seq<T>, c: seq<T>)
    ensures var whole := a + b + c;
      whole[..|a|] == a && whole[|a|..|a| + |b|] == b && whole[|a| + |b|..] == c
  {
  }

  lemma {:induction false} EventsSplit(store: Id, actor: Actor, front: seq<Row>, back: seq<Row>)
    ensures Events(store, actor, front + back) == Events(store, actor, front) + Events(store, actor, back)
  {
  }

  lemma {:induction false} PushedEvents(store: Id, actor: Actor, b: Batch, now: int)
    ensures PushEvents(store, actor, b, now) == Events(store, actor, PushedRows(b, now))
  {
    EventsSplit(store, actor, Before(b), Timeline(b, now));
    EventsSplit(store, actor, Before(b) + Timeline(b, now), Behind(b));
  }

  lemma {:induction false} RowsInPhases(b: Batch, now: int)
    ensures InPhases(PushedRows(b, now), b, now)
  {
    TimelineLength(b, now);
    TimelineInPhase(b, now);
    ThreeParts(Before(b), Timeline(b, now), Behind(b));
    RestIsAsSent(b);
  }

  lemma {:induction false} RestIsAsSent(b: Batch)
    ensures RestAsSent(Behind(b), b)
  {
  }

  /** A push tries every row it was sent, once, in that order, for the store and actor it came from. */
  lemma {:induction false} PushInPhases(store: Id, actor: Actor, b: Batch, now: int)
    ensures InPhases(PushedRows(b, now), b, now)
    ensures PushEvents(store, actor, b, now) == Events(store, actor, PushedRows(b, now))
  {
    RowsInPhases(b, now);
    PushedEvents(store, actor, b, now);
  }

  // ----- What is deleted is gone -----

  lemma {:induction false} DeletionMakesGone(u: State, store: Id, actor: Actor, r: DeletionRequest)
    requires u.items.Keys == u.sales.Keys && !r.entity.OtherEntity? && DeletesKind(actor, r.entity)
    ensures !IsThere(Apply(u, Event(store, actor, DeletionRow(r))), store, r.entity, r.id)
  {
    RowIsAnswered(u, Event(store, actor, DeletionRow(r)));
  }

  lemma {:induction false} DeletionKeepsGone(u: State, e: Event, store: Id, entity: Entity, id: Id)
    requires e.row.DeletionRow? && u.items.Keys == u.sales.Keys && !IsThere(u, store, entity, id)
    ensures !IsThere(Apply(u, e), store, entity, id)
  {
    RowIsAnswered(u, e);
  }

  lemma {:induction false} DeletionsGone(
      t: State, store: Id, actor: Actor, deletions: seq<DeletionRequest>, rows: seq<Row>, n: nat, k: nat)
    requires |rows| == |deletions| && forall i :: 0 <= i < |rows| ==> rows[i] == DeletionRow(deletions[i])
    requires k < n <= |rows| && t.items.Keys == t.sales.Keys
    requires !deletions[k].entity.OtherEntity? && DeletesKind(actor, deletions[k].entity)
    ensures !IsThere(Run(t, Events(store, actor, rows[..n])), store, deletions[k].entity, deletions[k].id)
  {
    var u := Run(t, Events(store, actor, rows[..n - 1]));
    RunNext(t, store, actor, rows, n);
    Lifecycle.RunKeepsKeys(t, Events(store, actor, rows[..n - 1]));
    if k == n - 1 {
      DeletionMakesGone(u, store, actor, deletions[k]);
    } else {
      DeletionsGone(t, store, actor, deletions, rows, n - 1, k);
      DeletionKeepsGone(u, Event(store, actor, rows[n - 1]), store, deletions[k].entity, deletions[k].id);
    }
  }

  lemma {:induction false} LastAreDeletions(rows: seq<Row>, b: Batch, now: int)
    requires InPhases(rows, b, now)
    ensures EndsWith(rows, b.deletions)
  {
    var q, y := |b.products| + |b.sales| + |b.movements|, |b.expenses| + |b.withdrawals|;
    assert |rows| == q + y + |b.deletions|;
    forall k | 0 <= k < |b.deletions| ensures rows[|rows| - |b.deletions|..][k] == DeletionRow(b.deletions[k]) {
      assert rows[q..][y + k] == DeletionRow(b.deletions[y + k - y]);
    }
  }

  lemma {:induction false} RunParts(s: State, store: Id, actor: Actor, rows: seq<Row>, n: nat)
    requires n <= |rows|
    ensures Run(s, Events(store, actor, rows))
         == Run(Run(s, Events(store, actor, rows[..n])), Events(store, actor, rows[n..]))
  {
    assert rows[..n] + rows[n..] == rows;
    EventsSplit(store, actor, rows[..n], rows[n..]);
    RunSplits(s, Events(store, actor, rows[..n]), Events(store, actor, rows[n..]));
  }

  predicate EndsWith(rows: seq<Row>, deletions: seq<DeletionRequest>)
  {
    && |rows| >= |deletions|
    && forall k :: 0 <= k < |deletions| ==> rows[|rows| - |deletions|..][k] == DeletionRow(deletions[k])
  }

  lemma {:induction false} DeletedLast(
      s: State, store: Id, actor: Actor, rows: seq<Row>, deletions: seq<DeletionRequest>, k: nat)
    requires s.items.Keys == s.sales.Keys && EndsWith(rows, deletions) && k < |deletions|
    requires !deletions[k].entity.OtherEntity? && DeletesKind(actor, deletions[k].entity)
    ensures !IsThere(Run(s, Events(store, actor, rows)), store, deletions[k].entity, deletions[k].id)
  {
    var n := |rows| - |deletions|;
    var back, t := rows[n..], Run(s, Events(store, actor, rows[..n]));
    RunParts(s, store, actor, rows, n);
    Lifecycle.RunKeepsKeys(s, Events(store, actor, rows[..n]));
    DeletionsGone(t, store, actor, deletions, back, |deletions|, k);
    assert back[..|deletions|] == back;
  }

  /** Whatever else a push does with a row, if it also deletes it the row is gone, unless the actor may not. */
  lemma {:induction false} DeletedInTheEnd(s: State, store: Id, actor: Actor, b: Batch, now: int, k: nat)
    requires s.items.Keys == s.sales.Keys && k < |b.deletions|
    requires !b.deletions[k].entity.OtherEntity? && DeletesKind(actor, b.deletions[k].entity)
    ensures !IsThere(Push(s, store, actor, b, now), store, b.deletions[k].entity, b.deletions[k].id)
  {
    PushInPhases(store, actor, b, now);
    LastAreDeletions(PushedRows(b, now), b, now);
    DeletedLast(s, store, actor, PushedRows(b, now), b.deletions, k);
  }
}
