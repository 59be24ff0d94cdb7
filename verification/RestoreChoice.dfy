/** When exactly reversing a sale balances: the UPDATE restores a product once, and retires rows by note text. */
module RestoreChoice {
  import opened Prelude
  import opened Ledger
  import opened Books

  /**
   For each joined product, the position of the line the UPDATE happens to use: it changes a product
   row once even if several lines join to it, and PostgreSQL does not say which line that is.
   */
  type Pick = map<Id, nat>

  predicate PickFor(lines: seq<Line>, pick: Pick, p: Id)
  {
    p in pick && pick[p] < |lines| && lines[pick[p]].product == Some(p)
  }

  ghost predicate ValidPick(lines: seq<Line>, pick: Pick)
  {
    forall p :: Joins(lines, p) ==> PickFor(lines, pick, p)
  }

  function RestoredBy(products: map<Id, Product>, lines: seq<Line>, store: Id, pick: Pick): map<Id, Product>
  {
    map p | p in products ::
      if products[p].store == store && PickFor(lines, pick, p)
      then products[p].(stock := products[p].stock + lines[pick[p]].quantity)
      else products[p]
  }

  /** `void`, with the restore using the lines `pick` names. */
  function VoidedBy(s: State, store: Id, sale: Id, pick: Pick): State
    requires VoidVerdict(s, store, sale) == Changed && sale in s.items
  {
    s.(products := RestoredBy(s.products, s.items[sale], store, pick),
       movements := Retired(s.movements, sale, store),
       sales := s.sales[sale := s.sales[sale].(voided := true)])
  }

  /** With safe lines the choice does not matter. */
  lemma {:induction false} SafePickIrrelevant(products: map<Id, Product>, lines: seq<Line>, store: Id, pick: Pick)
    requires SafeLines(lines) && ValidPick(lines, pick)
    ensures RestoredBy(products, lines, store, pick) == Restored(products, lines, store)
  {
    forall p | p in products
      ensures RestoredBy(products, lines, store, pick)[p] == Restored(products, lines, store)[p]
    {
      if Joins(lines, p) {
        assert PickFor(lines, pick, p);
        SafeLineStandsForAll(lines, pick[p], p);
        FirstLineQuantity(lines, p);
      } else {
        assert !PickFor(lines, pick, p);
      }
    }
  }

  function CountTo(lines: seq<Line>, n: nat, p: Id): nat
    requires n <= |lines|
  {
    if n == 0 then 0 else CountTo(lines, n - 1, p) + if lines[n - 1].product == Some(p) then 1 else 0
  }

  lemma {:induction false} EqualLines(lines: seq<Line>, n: nat, p: Id, q: int)
    requires n <= |lines|
    requires forall i :: 0 <= i < n && lines[i].product == Some(p) ==> lines[i].quantity == q
    ensures LinesTo(lines, n, p) == CountTo(lines, n, p) * q
  {
    if n > 0 { EqualLines(lines, n - 1, p, q); }
  }

  lemma {:induction false} CountsTwo(lines: seq<Line>, n: nat, p: Id, i: nat, j: nat)
    requires i < j < |lines| && n <= |lines| && lines[i].product == lines[j].product == Some(p)
    ensures CountTo(lines, n, p) >= (if i < n then 1 else 0) + (if j < n then 1 else 0)
  {
    if n > 0 { CountsTwo(lines, n - 1, p, i, j); }
  }

  /** Some choice for every joined product. */
  lemma {:induction false} PickExists(lines: seq<Line>, p: Id, k: nat) returns (pick: Pick)
    requires k < |lines| && lines[k].product == Some(p)
    ensures ValidPick(lines, pick) && PickFor(lines, pick, p) && pick[p] == k
  {
    var named: set<Id> := set i | 0 <= i < |lines| && lines[i].product.Some? :: lines[i].product.value;
    assert Joins(lines, p) && lines[k].product.value in named;
    pick := map q: Id | q in named && Joins(lines, q) :: if q == p then k else FirstLine(lines, q);
    forall q: Id | Joins(lines, q) ensures PickFor(lines, pick, q) {
      var i :| 0 <= i < |lines| && lines[i].product == Some(q);
      assert lines[i].product.value in named;
    }
  }

  /** If a choice balances, the chosen line carries the product's whole quantity. */
  lemma {:induction false} BalancedChoice(s: State, store: Id, sale: Id, pick: Pick, p: Id)
    requires Balanced(s) && VoidVerdict(s, store, sale) == Changed
    requires PickFor(s.items[sale], pick, p)
    requires StockAgrees(VoidedBy(s, store, sale, pick))
    ensures s.items[sale][pick[p]].quantity == LineSum(s.items[sale], p)
  {
    var lines := s.items[sale];
    assert SaleSound(s, sale);
    assert LineKnown(s, store, lines[pick[p]]) && StockRight(s, p);
    TagsInStore(s, sale);
    RetiredSum(s.movements, |s.movements|, sale, store, p);
    EffectSumOfLines(lines, |lines|, p);
    assert StockRight(VoidedBy(s, store, sale, pick), p);
  }

  lemma {:induction false} UnbalancedWhenUnsafe(s: State, store: Id, sale: Id)
    requires Balanced(s) && VoidVerdict(s, store, sale) == Changed
    requires forall pick :: ValidPick(s.items[sale], pick) ==> Balanced(VoidedBy(s, store, sale, pick))
    ensures SafeLines(s.items[sale])
  {
    var lines := s.items[sale];
    forall i, j | 0 <= i < j < |lines| && lines[i].product.Some? && lines[i].product == lines[j].product
      ensures lines[i].quantity == 0 && lines[j].quantity == 0
    {
      var p, total := lines[i].product.value, LineSum(lines, lines[i].product.value);
      forall k | 0 <= k < |lines| && lines[k].product == Some(p) ensures lines[k].quantity == total {
        var pick := PickExists(lines, p, k);
        assert Balanced(VoidedBy(s, store, sale, pick));
        assert PickFor(lines, pick, p);
        BalancedChoice(s, store, sale, pick, p);
      }
      EqualLines(lines, |lines|, p, total);
      CountsTwo(lines, |lines|, p, i, j);
      OnlyZero(CountTo(lines, |lines|, p), total);
    }
  }

  lemma {:induction false} OnlyZero(n: nat, x: int)
    requires n >= 2 && x == n * x
    ensures x == 0
  {
    assert (n - 1) * x == 0;
  }

  /**
   Voiding a live sale balances the books whichever lines the restore uses, if and only if no
   product stands on two of its lines with anything to give back.
   */
  lemma {:induction false} VoidBalancesIffSafe(s: State, store: Id, sale: Id)
    requires Balanced(s) && VoidVerdict(s, store, sale) == Changed
    ensures (forall pick :: ValidPick(s.items[sale], pick) ==> Balanced(VoidedBy(s, store, sale, pick)))
       <==> SafeLines(s.items[sale])
  {
    if SafeLines(s.items[sale]) {
      forall pick | ValidPick(s.items[sale], pick) ensures Balanced(VoidedBy(s, store, sale, pick)) {
        SafePickIrrelevant(s.products, s.items[sale], store, pick);
        VoidKeepsBooks(s, store, sale);
      }
    } else if forall pick :: ValidPick(s.items[sale], pick) ==> Balanced(VoidedBy(s, store, sale, pick)) {
      UnbalancedWhenUnsafe(s, store, sale);
    }
  }

  /**
   The retiring UPDATE goes by note text, so a client's own note can be caught by it.
   A movement recorded by hand and a later void of `sale` leave stock and ledger in step, if and
   only if the client's note is not that sale's tag, or the movement moved nothing.
   */
  lemma {:induction false} NoteClashIff(s: State, e: Entry, sale: Id)
    requires Balanced(s) && EntryVerdict(s, e) == Created
    requires VoidVerdict(s, e.store, sale) == Changed && SafeLines(s.items[sale])
    ensures StockAgrees(AfterVoid(AfterEntry(s, e), e.store, sale))
       <==> e.note != SaleTag(sale) || EntryDelta(s, e) == 0
  {
    var u := AfterVoid(AfterEntry(s, e), e.store, sale);
    forall p | p in u.products
      ensures Gap(u, p) == if p == e.product && e.note == SaleTag(sale) then EntryDelta(s, e) else 0
      ensures StockRight(u, p) <==> Gap(u, p) == 0
    {
      ClashAt(s, e, sale, p);
    }
    if e.note == SaleTag(sale) && EntryDelta(s, e) != 0 {
      assert Gap(u, e.product) != 0;
      assert !StockRight(u, e.product);
    }
  }

  /** By how much a product's stock and its ledger differ. */
  function Gap(s: State, p: Id): int
    requires p in s.products
  {
    s.products[p].stock - (s.products[p].opening + LiveSum(s.movements, p))
  }

  lemma {:induction false} ClashAt(s: State, e: Entry, sale: Id, p: Id)
    requires Balanced(s) && EntryVerdict(s, e) == Created
    requires VoidVerdict(s, e.store, sale) == Changed && SafeLines(s.items[sale]) && p in s.products
    ensures Gap(AfterVoid(AfterEntry(s, e), e.store, sale), p)
         == if p == e.product && e.note == SaleTag(sale) then EntryDelta(s, e) else 0
  {
    var lines, m := s.items[sale], EntryRow(s, e);
    var ms := s.movements + [m];
    assert SaleSound(s, sale) && StockRight(s, p);
    TagsInStore(s, sale);
    assert forall i :: 0 <= i < |ms| && ms[i].note == SaleTag(sale) ==> ms[i].store == e.store;
    Appended(s.movements, m, p, sale);
    RetiredSum(ms, |ms|, sale, e.store, p);
    ClashTags(s.movements, m, sale, p);
    EffectSumOfLines(lines, |lines|, p);
    FirstLineQuantity(lines, p);
    if Joins(lines, p) { JoinedProductKnown(s, sale, p); }
    var t := AfterEntry(s, e);
    assert VoidVerdict(t, e.store, sale) == Changed && t.items == s.items && t.movements == ms;
    assert AfterVoid(t, e.store, sale).products[p].stock == t.products[p].stock + LineSum(lines, p);
  }

  lemma {:induction false} ClashTags(ms: seq<Movement>, m: Movement, sale: Id, p: Id)
    requires m.live
    ensures EffectSum(LiveTagged(ms + [m], sale), p)
         == EffectSum(LiveTagged(ms, sale), p) + if m.product == p && m.note == SaleTag(sale) then m.quantity else 0
  {
    Appended(ms, m, p, sale);
    AppendedEffect(LiveTagged(ms, sale), Effect(m.product, m.quantity), p);
    assert LiveTagged(ms, sale) + [] == LiveTagged(ms, sale);
  }
}
