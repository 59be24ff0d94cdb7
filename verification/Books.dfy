/** The law of the stock ledger: what every reachable state keeps. */
module Books {
  import opened Prelude
  import opened Ledger
  import opened SetSums

  // ----- What the rows add up to -----

  /** What a movement or a line does to one product. */
  datatype Effect = Effect(product: Id, quantity: int)

  /** The live movements of one product among the first `n` rows. */
  function SumTo(ms: seq<Movement>, n: nat, p: Id): int
    requires n <= |ms|
  {
    if n == 0 then 0
    else SumTo(ms, n - 1, p) + (if ms[n - 1].live && ms[n - 1].product == p then ms[n - 1].quantity else 0)
  }

  function LiveSum(ms: seq<Movement>, p: Id): int { SumTo(ms, |ms|, p) }

  function TaggedTo(ms: seq<Movement>, n: nat, sale: Id): seq<Effect>
    requires n <= |ms|
  {
    if n == 0 then []
    else if ms[n - 1].live && ms[n - 1].note == SaleTag(sale) then
      TaggedTo(ms, n - 1, sale) + [Effect(ms[n - 1].product, ms[n - 1].quantity)]
    else TaggedTo(ms, n - 1, sale)
  }

  /** The live rows a sale wrote, oldest first. */
  function LiveTagged(ms: seq<Movement>, sale: Id): seq<Effect> { TaggedTo(ms, |ms|, sale) }

  function ManualTo(ms: seq<Movement>, n: nat): seq<Movement>
    requires n <= |ms|
  {
    if n == 0 then []
    else if ms[n - 1].note.SaleTag? then ManualTo(ms, n - 1)
    else ManualTo(ms, n - 1) + [ms[n - 1]]
  }

  /** The rows a client recorded itself. */
  function Manual(ms: seq<Movement>): seq<Movement> { ManualTo(ms, |ms|) }

  function EffectsTo(es: seq<Effect>, n: nat, p: Id): int
    requires n <= |es|
  {
    if n == 0 then 0
    else EffectsTo(es, n - 1, p) + (if es[n - 1].product == p then es[n - 1].quantity else 0)
  }

  function EffectSum(es: seq<Effect>, p: Id): int { EffectsTo(es, |es|, p) }

  function LinesTo(lines: seq<Line>, n: nat, p: Id): int
    requires n <= |lines|
  {
    if n == 0 then 0
    else LinesTo(lines, n - 1, p) + (if lines[n - 1].product == Some(p) then lines[n - 1].quantity else 0)
  }

  function LineSum(lines: seq<Line>, p: Id): int { LinesTo(lines, |lines|, p) }

  /** The movements a sale with the first `n` of these lines should have. */
  function LineEffects(lines: seq<Line>, n: nat): seq<Effect>
    requires n <= |lines|
  {
    if n == 0 then []
    else
      match lines[n - 1].product
      case None => LineEffects(lines, n - 1)
      case Some(p) => LineEffects(lines, n - 1) + [Effect(p, -lines[n - 1].quantity)]
  }

  // ----- The law -----

  /** No product stands on two lines, unless every one of those lines is for nothing. */
  predicate SafeLines(lines: seq<Line>)
  {
    forall i, j :: 0 <= i < j < |lines| && lines[i].product.Some? && lines[i].product == lines[j].product
      ==> lines[i].quantity == 0 && lines[j].quantity == 0
  }

  predicate LineKnown(s: State, store: Id, l: Line)
  {
    l.product.Some? ==> l.product.value in s.products && s.products[l.product.value].store == store
  }

  predicate ProductsKnown(s: State, store: Id, lines: seq<Line>)
  {
    forall i {:trigger LineKnown(s, store, lines[i])} :: 0 <= i < |lines| ==> LineKnown(s, store, lines[i])
  }

  predicate StockRight(s: State, p: Id)
    requires p in s.products
  {
    s.products[p].stock == s.products[p].opening + LiveSum(s.movements, p)
  }

  predicate StockAgrees(s: State)
  {
    forall p {:trigger StockRight(s, p)} :: p in s.products ==> StockRight(s, p)
  }

  predicate RowSound(s: State, m: Movement)
  {
    && m.product in s.products && s.products[m.product].store == m.store
    && (match m.note
        case SaleTag(id) => m.id.Minted? && id in s.sales && s.sales[id].store == m.store
        case _ => m.id.Device? && m.live)
  }

  predicate RowsSound(s: State)
  {
    forall i {:trigger RowSound(s, s.movements[i])} :: 0 <= i < |s.movements| ==> RowSound(s, s.movements[i])
  }

  predicate SaleSound(s: State, id: Id)
    requires id in s.sales && id in s.items
  {
    && LiveTagged(s.movements, id) == (if s.sales[id].voided then [] else LineEffects(s.items[id], |s.items[id]|))
    && ProductsKnown(s, s.sales[id].store, s.items[id])
  }

  predicate SalesSound(s: State)
  {
    && s.items.Keys == s.sales.Keys
    && forall id {:trigger SaleSound(s, id)} :: id in s.sales ==> SaleSound(s, id)
  }

  /**
   A product's stock is its opening plus its live movements, a live sale's lines are exactly its live
   movements, and a voided sale has none.
   */
  predicate Balanced(s: State) { StockAgrees(s) && RowsSound(s) && SalesSound(s) }

  /** Every stored sale can be reversed exactly. */
  predicate Reversible(s: State)
  {
    forall id {:trigger SafeLines(s.items[id])} :: id in s.items ==> SafeLines(s.items[id])
  }

  // ----- Hypotheses on what devices send -----

  /** A client's note is never the tag of a sale. */
  predicate PlainNote(note: Note) { !note.SaleTag? }

  predicate Sane(e: Event)
  {
    match e.row
    case SaleRow(r) => SafeLines(Prepared(e.store, r).lines)
    case MovementRow(r) => PlainNote(r.note)
    case _ => true
  }

  predicate AllSane(es: seq<Event>) { forall i :: 0 <= i < |es| ==> Sane(es[i]) }

  // ----- Sums -----

  /** Rows and lines behind the first `n` do not matter to these sums. */
  lemma {:induction false} SameTo(a: seq<Movement>, b: seq<Movement>, n: nat, p: Id)
    requires n <= |a| && n <= |b| && forall i :: 0 <= i < n ==> a[i] == b[i]
    ensures SumTo(a, n, p) == SumTo(b, n, p) && TaggedTo(a, n, p) == TaggedTo(b, n, p)
    ensures ManualTo(a, n) == ManualTo(b, n)
  {
    if n > 0 { SameTo(a, b, n - 1, p); }
  }

  lemma {:induction false} SameLinesTo(a: seq<Line>, b: seq<Line>, n: nat, p: Id)
    requires n <= |a| && n <= |b| && forall i :: 0 <= i < n ==> a[i] == b[i]
    ensures LinesTo(a, n, p) == LinesTo(b, n, p) && LineEffects(a, n) == LineEffects(b, n)
  {
    if n > 0 { SameLinesTo(a, b, n - 1, p); }
  }

  lemma {:induction false} SameEffectsTo(a: seq<Effect>, b: seq<Effect>, n: nat, p: Id)
    requires n <= |a| && n <= |b| && forall i :: 0 <= i < n ==> a[i] == b[i]
    ensures EffectsTo(a, n, p) == EffectsTo(b, n, p)
  {
    if n > 0 { SameEffectsTo(a, b, n - 1, p); }
  }

  /** One more row at the end. */
  lemma {:induction false} Appended(ms: seq<Movement>, m: Movement, p: Id, sale: Id)
    ensures LiveSum(ms + [m], p) == LiveSum(ms, p) + if m.live && m.product == p then m.quantity else 0
    ensures LiveTagged(ms + [m], sale)
         == LiveTagged(ms, sale) + if m.live && m.note == SaleTag(sale) then [Effect(m.product, m.quantity)] else []
    ensures Manual(ms + [m]) == Manual(ms) + if m.note.SaleTag? then [] else [m]
  {
    SameTo(ms + [m], ms, |ms|, p);
    SameTo(ms + [m], ms, |ms|, sale);
  }

  lemma {:induction false} AppendedLine(lines: seq<Line>, l: Line)
    ensures l.product.None? ==> LineEffects(lines + [l], |lines| + 1) == LineEffects(lines, |lines|)
    ensures l.product.Some? ==>
      LineEffects(lines + [l], |lines| + 1)
        == LineEffects(lines, |lines|) + [Effect(l.product.value, -l.quantity)]
  {
    var grown := lines + [l];
    SameLinesTo(grown, lines, |lines|, 0);
    assert grown[|lines|] == l;
  }

  lemma {:induction false} AppendedEffect(es: seq<Effect>, e: Effect, p: Id)
    ensures EffectSum(es + [e], p) == EffectSum(es, p) + if e.product == p then e.quantity else 0
  {
    SameEffectsTo(es + [e], es, |es|, p);
  }

  lemma {:induction false} EffectSumOfLines(lines: seq<Line>, n: nat, p: Id)
    requires n <= |lines|
    ensures EffectSum(LineEffects(lines, n), p) == -LinesTo(lines, n, p)
  {
    if n > 0 {
      EffectSumOfLines(lines, n - 1, p);
      if lines[n - 1].product.Some? {
        AppendedEffect(LineEffects(lines, n - 1), Effect(lines[n - 1].product.value, -lines[n - 1].quantity), p);
      }
    }
  }

  lemma {:induction false} LinesWithout(lines: seq<Line>, n: nat, p: Id)
    requires n <= |lines|
    requires forall i :: 0 <= i < n ==> lines[i].product != Some(p) || lines[i].quantity == 0
    ensures LinesTo(lines, n, p) == 0
  {
    if n > 0 { LinesWithout(lines, n - 1, p); }
  }

  lemma {:induction false} LinesWithOne(lines: seq<Line>, n: nat, p: Id, k: nat)
    requires k < n <= |lines| && lines[k].product == Some(p)
    requires forall i :: 0 <= i < n && i != k ==> lines[i].product != Some(p) || lines[i].quantity == 0
    ensures LinesTo(lines, n, p) == lines[k].quantity
  {
    if k == n - 1 {
      LinesWithout(lines, n - 1, p);
    } else {
      LinesWithOne(lines, n - 1, p, k);
    }
  }

  /** With safe lines any line naming the product stands for all of them. */
  lemma {:induction false} SafeLineStandsForAll(lines: seq<Line>, k: nat, p: Id)
    requires SafeLines(lines) && k < |lines| && lines[k].product == Some(p)
    ensures LineSum(lines, p) == lines[k].quantity
  {
    forall i | 0 <= i < |lines| && i != k && lines[i].product == Some(p) ensures lines[i].quantity == 0 {
      if i < k { assert lines[i].product == lines[k].product; }
      else { assert lines[k].product == lines[i].product; }
    }
    LinesWithOne(lines, |lines|, p, k);
  }

  lemma {:induction false} FirstLineQuantity(lines: seq<Line>, p: Id)
    requires SafeLines(lines)
    ensures (if Joins(lines, p) then FirstQuantity(lines, p) else 0) == LineSum(lines, p)
  {
    if Joins(lines, p) {
      SafeLineStandsForAll(lines, FirstLine(lines, p), p);
    } else {
      LinesWithout(lines, |lines|, p);
    }
  }

  /** Retiring a sale's rows takes exactly their sum out. */
  lemma {:induction false} RetiredSum(ms: seq<Movement>, n: nat, sale: Id, store: Id, p: Id)
    requires n <= |ms|
    requires forall i :: 0 <= i < n && ms[i].note == SaleTag(sale) ==> ms[i].store == store
    ensures SumTo(Retired(ms, sale, store), n, p) == SumTo(ms, n, p) - EffectSum(TaggedTo(ms, n, sale), p)
  {
    if n > 0 {
      RetiredSum(ms, n - 1, sale, store, p);
      AppendedEffect(TaggedTo(ms, n - 1, sale), Effect(ms[n - 1].product, ms[n - 1].quantity), p);
    }
  }

  lemma {:induction false} RetiredTagged(ms: seq<Movement>, n: nat, sale: Id, store: Id, other: Id)
    requires n <= |ms|
    requires forall i :: 0 <= i < n && ms[i].note == SaleTag(sale) ==> ms[i].store == store
    ensures TaggedTo(Retired(ms, sale, store), n, other) == if other == sale then [] else TaggedTo(ms, n, other)
  {
    if n > 0 { RetiredTagged(ms, n - 1, sale, store, other); }
  }

  lemma {:induction false} RetiredManual(ms: seq<Movement>, n: nat, sale: Id, store: Id)
    requires n <= |ms|
    ensures ManualTo(Retired(ms, sale, store), n) == ManualTo(ms, n)
  {
    if n > 0 { RetiredManual(ms, n - 1, sale, store); }
  }

  lemma {:induction false} NothingTagged(ms: seq<Movement>, n: nat, sale: Id)
    requires n <= |ms| && forall i :: 0 <= i < n ==> ms[i].note != SaleTag(sale)
    ensures TaggedTo(ms, n, sale) == []
  {
    if n > 0 { NothingTagged(ms, n - 1, sale); }
  }

  // ----- Each step keeps the law -----

  /** Every product and sale is still there, in its store. */
  predicate Extends(s: State, t: State)
  {
    && (forall p :: p in s.products ==> p in t.products && t.products[p].store == s.products[p].store)
    && (forall id :: id in s.sales ==> id in t.sales && t.sales[id].store == s.sales[id].store)
  }

  lemma {:induction false} RowCarries(s: State, t: State, m: Movement, n: Movement)
    requires RowSound(s, m) && Extends(s, t)
    requires n == m || (m.note.SaleTag? && n == m.(live := false))
    ensures RowSound(t, n)
  {
  }

  lemma {:induction false} LinesCarry(s: State, t: State, store: Id, lines: seq<Line>)
    requires ProductsKnown(s, store, lines) && Extends(s, t)
    ensures ProductsKnown(t, store, lines)
  {
    forall i | 0 <= i < |lines| ensures LineKnown(t, store, lines[i]) {
      assert LineKnown(s, store, lines[i]);
    }
  }

  /** A sale whose own row, items and live movements did not change is still in order. */
  lemma {:induction false} SaleCarries(s: State, t: State, id: Id)
    requires id in s.sales && id in s.items && id in t.sales && id in t.items
    requires SaleSound(s, id) && Extends(s, t)
    requires t.sales[id].voided == s.sales[id].voided && t.items[id] == s.items[id]
    requires LiveTagged(t.movements, id) == LiveTagged(s.movements, id)
    ensures SaleSound(t, id)
  {
    LinesCarry(s, t, s.sales[id].store, s.items[id]);
  }

  /** The ledger and the rows behind it are as they were; only what hangs on them may differ. */
  lemma {:induction false} RowsCarry(s: State, t: State)
    requires RowsSound(s) && Extends(s, t) && t.movements == s.movements
    ensures RowsSound(t)
  {
    forall i | 0 <= i < |t.movements| ensures RowSound(t, t.movements[i]) {
      assert RowSound(s, s.movements[i]);
      RowCarries(s, t, s.movements[i], t.movements[i]);
    }
  }

  lemma {:induction false} StockCarries(s: State, t: State)
    requires StockAgrees(s) && t.movements == s.movements
    requires t.products.Keys <= s.products.Keys
    requires forall p :: p in t.products ==>
      t.products[p].stock == s.products[p].stock && t.products[p].opening == s.products[p].opening
    ensures StockAgrees(t)
  {
    forall p | p in t.products ensures StockRight(t, p) {
      assert StockRight(s, p);
    }
  }

  lemma {:induction false} TagsInStore(s: State, sale: Id)
    requires RowsSound(s) && sale in s.sales
    ensures forall i :: 0 <= i < |s.movements| && s.movements[i].note == SaleTag(sale)
              ==> s.movements[i].store == s.sales[sale].store
  {
    forall i | 0 <= i < |s.movements| && s.movements[i].note == SaleTag(sale)
      ensures s.movements[i].store == s.sales[sale].store
    {
      assert RowSound(s, s.movements[i]);
    }
  }

  /** Reversing a live sale puts back exactly what its movements took. */
  lemma {:induction false} JoinedProductKnown(s: State, sale: Id, p: Id)
    requires SalesSound(s) && sale in s.sales && Joins(s.items[sale], p)
    ensures p in s.products && s.products[p].store == s.sales[sale].store
  {
    var k := FirstLine(s.items[sale], p);
    assert SaleSound(s, sale) && LineKnown(s, s.sales[sale].store, s.items[sale][k]);
  }

  lemma {:induction false} ReversedProduct(s: State, sale: Id, p: Id)
    requires Balanced(s) && sale in s.sales && !s.sales[sale].voided && p in s.products
    requires SafeLines(s.items[sale])
    ensures StockRight(Reversed(s, sale, s.sales[sale].store), p)
  {
    assert SaleSound(s, sale) && StockRight(s, p);
    if Joins(s.items[sale], p) { JoinedProductKnown(s, sale, p); }
    var lines := s.items[sale];
    TagsInStore(s, sale);
    RetiredSum(s.movements, |s.movements|, sale, s.sales[sale].store, p);
    EffectSumOfLines(lines, |lines|, p);
    FirstLineQuantity(lines, p);
  }

  lemma {:induction false} ReversedStock(s: State, sale: Id)
    requires Balanced(s) && sale in s.sales && !s.sales[sale].voided && SafeLines(s.items[sale])
    ensures var t := Reversed(s, sale, s.sales[sale].store);
      StockAgrees(t) && RowsSound(t) && Extends(s, t)
  {
    var t := Reversed(s, sale, s.sales[sale].store);
    forall p | p in t.products ensures StockRight(t, p) {
      ReversedProduct(s, sale, p);
    }
    forall i | 0 <= i < |t.movements| ensures RowSound(t, t.movements[i]) {
      assert RowSound(s, s.movements[i]);
      RowCarries(s, t, s.movements[i], t.movements[i]);
    }
  }

  /** After a reversal every other sale is in order and this one has no live movements. */
  lemma {:induction false} ReversedTags(s: State, sale: Id, id: Id)
    requires Balanced(s) && sale in s.sales && !s.sales[sale].voided && id in s.sales
    ensures var ms := Reversed(s, sale, s.sales[sale].store).movements;
      LiveTagged(ms, id) == if id == sale then [] else LiveTagged(s.movements, id)
  {
    TagsInStore(s, sale);
    RetiredTagged(s.movements, |s.movements|, sale, s.sales[sale].store, id);
  }

  /** Clearing a sale leaves balanced books in which it has no lines. */
  lemma {:induction false} ClearedKeepsBooks(s: State, sale: PreparedSale, who: Recorder)
    requires Balanced(s) && (sale.id in s.items ==> SafeLines(s.items[sale.id]))
    requires SaleVerdict(s, sale, who) == Created || SaleVerdict(s, sale, who) == Changed
    ensures Balanced(Cleared(s, sale, who))
  {
    var t := Cleared(s, sale, who);
    if sale.id in s.sales {
      var r := Reversed(s, sale.id, sale.store);
      ReversedStock(s, sale.id);
      RowsCarry(r, t);
      StockCarries(r, t);
    } else {
      RowsCarry(s, t);
      StockCarries(s, t);
    }
    forall id | id in t.sales ensures SaleSound(t, id) {
      ClearedSale(s, sale, who, id);
    }
  }

  lemma {:induction false} ClearedFrame(s: State, sale: PreparedSale, who: Recorder)
    ensures Manual(Cleared(s, sale, who).movements) == Manual(s.movements)
    ensures SameOpenings(s, Cleared(s, sale, who))
  {
    RetiredManual(s.movements, |s.movements|, sale.id, sale.store);
  }

  lemma {:induction false} ClearedSale(s: State, sale: PreparedSale, who: Recorder, id: Id)
    requires Balanced(s)
    requires SaleVerdict(s, sale, who) == Created || SaleVerdict(s, sale, who) == Changed
    requires id in Cleared(s, sale, who).sales
    ensures SaleSound(Cleared(s, sale, who), id)
  {
    var t := Cleared(s, sale, who);
    if sale.id in s.sales {
      ReversedTags(s, sale.id, id);
    } else {
      UntaggedUnknown(s, sale.id);
    }
    if id != sale.id {
      assert SaleSound(s, id);
      SaleCarries(s, t, id);
    }
  }

  /** A sale the server does not hold has no movements. */
  lemma {:induction false} UntaggedUnknown(s: State, sale: Id)
    requires RowsSound(s) && sale !in s.sales
    ensures LiveTagged(s.movements, sale) == []
  {
    forall i | 0 <= i < |s.movements| ensures s.movements[i].note != SaleTag(sale) {
      assert RowSound(s, s.movements[i]);
    }
    NothingTagged(s.movements, |s.movements|, sale);
  }

  predicate LineFits(s: State, sale: PreparedSale, line: Line)
  {
    && sale.id in s.sales && s.sales[sale.id].store == sale.store && !s.sales[sale.id].voided
    && sale.id in s.items && LineKnown(s, sale.store, line)
  }

  /** The ledger row a line adds. */
  function LineRow(s: State, sale: PreparedSale, line: Line): Movement
    requires line.product.Some?
  {
    Movement(Minted(|s.movements|), sale.store, line.product.value, -line.quantity, SaleTag(sale.id), true)
  }

  lemma {:induction false} TakeLineStock(s: State, sale: PreparedSale, line: Line)
    requires Balanced(s) && LineFits(s, sale, line)
    ensures StockAgrees(TakeLine(s, sale, line))
  {
    var t := TakeLine(s, sale, line);
    forall p | p in t.products ensures StockRight(t, p) {
      assert StockRight(s, p);
      if line.product.Some? { Appended(s.movements, LineRow(s, sale, line), p, sale.id); }
    }
  }

  lemma {:induction false} TakeLineRows(s: State, sale: PreparedSale, line: Line)
    requires Balanced(s) && LineFits(s, sale, line)
    ensures RowsSound(TakeLine(s, sale, line))
  {
    var t := TakeLine(s, sale, line);
    forall i | 0 <= i < |t.movements| ensures RowSound(t, t.movements[i]) {
      if i < |s.movements| {
        assert RowSound(s, s.movements[i]);
        RowCarries(s, t, s.movements[i], t.movements[i]);
      }
    }
  }

  lemma {:induction false} TakeLineManual(s: State, sale: PreparedSale, line: Line)
    ensures Manual(TakeLine(s, sale, line).movements) == Manual(s.movements)
  {
    if line.product.Some? { Appended(s.movements, LineRow(s, sale, line), 0, sale.id); }
  }

  lemma {:induction false} KnownGrows(s: State, store: Id, lines: seq<Line>, line: Line)
    requires ProductsKnown(s, store, lines) && LineKnown(s, store, line)
    ensures ProductsKnown(s, store, lines + [line])
  {
    var grown := lines + [line];
    forall i | 0 <= i < |grown| ensures LineKnown(s, store, grown[i]) {
      if i < |lines| { assert LineKnown(s, store, lines[i]); }
    }
  }

  lemma {:induction false} TakeLineSale(s: State, sale: PreparedSale, line: Line)
    requires Balanced(s) && LineFits(s, sale, line)
    ensures SaleSound(TakeLine(s, sale, line), sale.id)
  {
    var t := TakeLine(s, sale, line);
    var lines := s.items[sale.id];
    assert SaleSound(s, sale.id);
    AppendedLine(lines, line);
    LinesCarry(s, t, sale.store, lines);
    KnownGrows(t, sale.store, lines, line);
    if line.product.Some? { Appended(s.movements, LineRow(s, sale, line), 0, sale.id); }
  }

  lemma {:induction false} TakeLineOther(s: State, sale: PreparedSale, line: Line, id: Id)
    requires Balanced(s) && LineFits(s, sale, line) && id in s.sales && id != sale.id
    ensures SaleSound(TakeLine(s, sale, line), id)
  {
    if line.product.Some? { Appended(s.movements, LineRow(s, sale, line), 0, id); }
    assert SaleSound(s, id);
    SaleCarries(s, TakeLine(s, sale, line), id);
  }

  lemma {:induction false} TakeLineKeepsBooks(s: State, sale: PreparedSale, line: Line)
    requires Balanced(s) && LineFits(s, sale, line)
    ensures Balanced(TakeLine(s, sale, line))
  {
    TakeLineStock(s, sale, line);
    TakeLineRows(s, sale, line);
    TakeLineSale(s, sale, line);
    forall id | id in s.sales && id != sale.id ensures SaleSound(TakeLine(s, sale, line), id) {
      TakeLineOther(s, sale, line, id);
    }
  }

  /** What writing the first `n` lines has done so far, apart from stock and sale movements. */
  predicate Progress(s: State, t: State, sale: PreparedSale, n: nat)
    requires n <= |sale.lines|
  {
    && t.sales == s.sales
    && t.items == s.items[sale.id := sale.lines[..n]]
    && Manual(t.movements) == Manual(s.movements)
    && SameOpenings(s, t)
  }

  /** The products, their stores, openings and whether they are live. */
  predicate SameOpenings(s: State, t: State)
  {
    && t.products.Keys == s.products.Keys
    && forall p :: p in s.products ==>
         t.products[p].store == s.products[p].store && t.products[p].opening == s.products[p].opening
         && t.products[p].live == s.products[p].live
  }

  predicate ReadyToWrite(s: State, sale: PreparedSale)
  {
    && sale.id in s.sales && s.sales[sale.id].store == sale.store && !s.sales[sale.id].voided
    && sale.id in s.items && s.items[sale.id] == []
    && ProductsKnown(s, sale.store, sale.lines)
  }

  lemma {:induction false} NextLineFits(s: State, t: State, sale: PreparedSale, n: nat)
    requires ReadyToWrite(s, sale) && n < |sale.lines| && Progress(s, t, sale, n)
    ensures LineFits(t, sale, sale.lines[n])
  {
    assert LineKnown(s, sale.store, sale.lines[n]);
  }

  lemma {:induction false} SliceGrows<T>(xs: seq<T>, n: nat)
    requires n < |xs|
    ensures xs[..n] + [xs[n]] == xs[..n + 1]
  {
  }

  lemma {:induction false} ProgressGrows(s: State, t: State, sale: PreparedSale, n: nat)
    requires n < |sale.lines| && Progress(s, t, sale, n)
    ensures Progress(s, TakeLine(t, sale, sale.lines[n]), sale, n + 1)
  {
    var u := TakeLine(t, sale, sale.lines[n]);
    SliceGrows(sale.lines, n);
    TakeLineManual(t, sale, sale.lines[n]);
    assert u.items == t.items[sale.id := sale.lines[..n] + [sale.lines[n]]];
    SameOpeningsChain(s, t, u);
  }

  lemma {:induction false} WrittenKeepsBooks(s: State, sale: PreparedSale, n: nat)
    requires Balanced(s) && ReadyToWrite(s, sale) && n <= |sale.lines|
    ensures Balanced(Written(s, sale, n)) && Progress(s, Written(s, sale, n), sale, n)
  {
    if n == 0 {
      assert s.items == s.items[sale.id := []];
    } else {
      WrittenKeepsBooks(s, sale, n - 1);
      var t := Written(s, sale, n - 1);
      NextLineFits(s, t, sale, n - 1);
      TakeLineKeepsBooks(t, sale, sale.lines[n - 1]);
      ProgressGrows(s, t, sale, n - 1);
    }
  }

  /** Recording a sale keeps the books, the manual rows and every product's opening. */
  lemma {:induction false} SaleKeepsBooks(s: State, sale: PreparedSale, who: Recorder)
    requires Balanced(s) && (sale.id in s.items ==> SafeLines(s.items[sale.id]))
    requires ProductsKnown(s, sale.store, sale.lines)
    ensures Balanced(AfterSale(s, sale, who))
    ensures Manual(AfterSale(s, sale, who).movements) == Manual(s.movements)
    ensures SameOpenings(s, AfterSale(s, sale, who))
  {
    var v := SaleVerdict(s, sale, who);
    if v.Created? || v.Changed? {
      ClearedKeepsBooks(s, sale, who);
      ClearedFrame(s, sale, who);
      var t := Cleared(s, sale, who);
      ClearedReady(s, sale, who);
      WrittenKeepsBooks(t, sale, |sale.lines|);
      SameOpeningsChain(s, t, AfterSale(s, sale, who));
    }
  }

  /** An accepted sale stores exactly the lines it was sent and touches no other sale. */
  lemma {:induction false} SaleItems(s: State, sale: PreparedSale, who: Recorder)
    requires SaleVerdict(s, sale, who).Created? || SaleVerdict(s, sale, who).Changed?
    ensures AfterSale(s, sale, who).items == s.items[sale.id := sale.lines]
    ensures AfterSale(s, sale, who).sales ==
      s.sales[sale.id := if sale.id in s.sales then s.sales[sale.id] else Sale(sale.store, who.staff, false)]
  {
    WrittenItems(Cleared(s, sale, who), sale, |sale.lines|);
    WholeSlice(sale.lines);
  }

  lemma {:induction false} WholeSlice<T>(xs: seq<T>)
    ensures xs[..|xs|] == xs
  {
  }

  lemma {:induction false} SameOpeningsChain(s: State, t: State, u: State)
    requires SameOpenings(s, t) && SameOpenings(t, u)
    ensures SameOpenings(s, u)
  {
  }

  lemma {:induction false} ClearedReady(s: State, sale: PreparedSale, who: Recorder)
    requires SalesSound(s) && ProductsKnown(s, sale.store, sale.lines)
    requires SaleVerdict(s, sale, who) == Created || SaleVerdict(s, sale, who) == Changed
    ensures ReadyToWrite(Cleared(s, sale, who), sale)
    ensures Cleared(s, sale, who).items == s.items[sale.id := []]
  {
    var t := Cleared(s, sale, who);
    forall i | 0 <= i < |sale.lines| ensures LineKnown(t, sale.store, sale.lines[i]) {
      assert LineKnown(s, sale.store, sale.lines[i]);
    }
  }

  lemma {:induction false} VoidKeepsBooks(s: State, store: Id, sale: Id)
    requires Balanced(s) && (sale in s.items ==> SafeLines(s.items[sale]))
    ensures Balanced(AfterVoid(s, store, sale))
  {
    if VoidVerdict(s, store, sale) == Changed {
      var t := AfterVoid(s, store, sale);
      ReversedStock(s, sale);
      RowsCarry(Reversed(s, sale, store), t);
      StockCarries(Reversed(s, sale, store), t);
      forall id | id in t.sales ensures SaleSound(t, id) {
        VoidedSale(s, store, sale, id);
      }
    }
  }

  lemma {:induction false} VoidedSale(s: State, store: Id, sale: Id, id: Id)
    requires Balanced(s) && VoidVerdict(s, store, sale) == Changed && id in s.sales
    ensures SaleSound(AfterVoid(s, store, sale), id)
  {
    var t := AfterVoid(s, store, sale);
    assert SaleSound(s, id);
    ReversedTags(s, sale, id);
    if id != sale {
      SaleCarries(s, t, id);
    } else {
      LinesCarry(s, t, store, s.items[id]);
    }
  }

  /** The ledger row a movement adds. */
  function EntryRow(s: State, e: Entry): Movement
    requires e.product in s.products
  {
    Movement(Device(e.id), e.store, e.product, EntryDelta(s, e), e.note, true)
  }

  lemma {:induction false} EntryStock(s: State, e: Entry)
    requires Balanced(s) && EntryVerdict(s, e) == Created
    ensures StockAgrees(AfterEntry(s, e))
  {
    var t := AfterEntry(s, e);
    forall p | p in t.products ensures StockRight(t, p) {
      assert StockRight(s, p);
      Appended(s.movements, EntryRow(s, e), p, 0);
    }
  }

  lemma {:induction false} EntryKeepsBooks(s: State, e: Entry)
    requires Balanced(s) && PlainNote(e.note)
    ensures Balanced(AfterEntry(s, e))
  {
    if EntryVerdict(s, e) == Created {
      var t := AfterEntry(s, e);
      EntryStock(s, e);
      forall i | 0 <= i < |t.movements| ensures RowSound(t, t.movements[i]) {
        if i < |s.movements| {
          assert RowSound(s, s.movements[i]);
          RowCarries(s, t, s.movements[i], t.movements[i]);
        }
      }
      forall id | id in t.sales ensures SaleSound(t, id) {
        assert SaleSound(s, id);
        Appended(s.movements, EntryRow(s, e), 0, id);
        SaleCarries(s, t, id);
      }
    }
  }

  lemma {:induction false} ProductKeepsBooks(s: State, store: Id, actor: Actor, r: ProductRequest)
    requires Balanced(s)
    ensures Balanced(AfterProduct(s, store, actor, r))
  {
    var t := AfterProduct(s, store, actor, r);
    if ProductVerdict(s, store, actor, r) == Created {
      forall i | 0 <= i < |s.movements| ensures s.movements[i].product != r.id {
        assert RowSound(s, s.movements[i]);
      }
      UnknownSum(s.movements, |s.movements|, r.id);
      RowsCarry(s, t);
      forall p | p in t.products ensures StockRight(t, p) {
        if p != r.id { assert StockRight(s, p); }
      }
      forall id | id in t.sales ensures SaleSound(t, id) {
        assert SaleSound(s, id);
        SaleCarries(s, t, id);
      }
    } else {
      FlagsKeepBooks(s, t);
    }
  }

  lemma {:induction false} UnknownSum(ms: seq<Movement>, n: nat, p: Id)
    requires n <= |ms| && forall i :: 0 <= i < n ==> ms[i].product != p
    ensures SumTo(ms, n, p) == 0
  {
    if n > 0 { UnknownSum(ms, n - 1, p); }
  }

  lemma {:induction false} DeletionKeepsBooks(s: State, store: Id, actor: Actor, r: DeletionRequest)
    requires Balanced(s) && Reversible(s)
    ensures Balanced(AfterDeletion(s, store, actor, r))
  {
    if DeletionVerdict(s, store, actor, r) == Changed {
      if r.entity.SaleEntity? {
        VoidKeepsBooks(s, store, r.id);
      } else {
        FlagsKeepBooks(s, AfterDeletion(s, store, actor, r));
      }
    }
  }

  /** Changing other tables, or only the flags and prices of products, does not touch the books. */
  lemma {:induction false} FlagsKeepBooks(s: State, t: State)
    requires Balanced(s)
    requires t.movements == s.movements && t.sales == s.sales && t.items == s.items
    requires t.products.Keys == s.products.Keys
    requires forall p :: p in s.products ==>
      t.products[p].store == s.products[p].store && t.products[p].opening == s.products[p].opening
      && t.products[p].stock == s.products[p].stock
    ensures Balanced(t)
  {
    RowsCarry(s, t);
    StockCarries(s, t);
    forall id | id in t.sales ensures SaleSound(t, id) {
      assert SaleSound(s, id);
      SaleCarries(s, t, id);
    }
  }

  lemma {:induction false} ResolvedLinesKnown(s: State, store: Id, lines: seq<LineRequest>, i: nat)
    requires LinesError(s, store, lines) == None && i < |lines|
    ensures LineResolves(s, store, lines[i])
  {
    if i > 0 { ResolvedLinesKnown(s, store, lines[1..], i - 1); }
  }

  /** A sale request that is not refused names only products of its store. */
  lemma {:induction false} AcceptedLinesKnown(s: State, store: Id, r: SaleRequest)
    requires LinesError(s, store, r.lines) == None
    ensures ProductsKnown(s, store, Prepared(store, r).lines)
  {
    var lines := Prepared(store, r).lines;
    forall i | 0 <= i < |lines| ensures LineKnown(s, store, lines[i]) {
      ResolvedLinesKnown(s, store, r.lines, i);
    }
  }

  lemma {:induction false} ApplyKeepsBooks(s: State, e: Event)
    requires Balanced(s) && Reversible(s) && Sane(e)
    ensures Balanced(Apply(s, e))
  {
    if !VerdictOf(s, e).Refused? {
      match e.row
      case ProductRow(r) => ProductKeepsBooks(s, e.store, e.actor, r);
      case SaleRow(r) => SaleRowKeepsBooks(s, e.store, e.actor, r);
      case MovementRow(r) => EntryKeepsBooks(s, EntryOf(e.store, e.actor, r));
      case ExpenseRow(r) => FlagsKeepBooks(s, Apply(s, e));
      case WithdrawalRow(r) => FlagsKeepBooks(s, Apply(s, e));
      case DeletionRow(r) => DeletionKeepsBooks(s, e.store, e.actor, r);
    }
  }

  lemma {:induction false} SaleRowKeepsBooks(s: State, store: Id, actor: Actor, r: SaleRequest)
    requires Balanced(s) && Reversible(s) && !SaleRequestVerdict(s, store, actor, r).Refused?
    ensures Balanced(AfterSale(s, Prepared(store, r), RecorderOf(actor)))
  {
    AcceptedLinesKnown(s, store, r);
    SaleKeepsBooks(s, Prepared(store, r), RecorderOf(actor));
  }

  lemma {:induction false} WrittenItems(s: State, sale: PreparedSale, n: nat)
    requires sale.id in s.items && s.items[sale.id] == [] && n <= |sale.lines|
    ensures Written(s, sale, n).items == s.items[sale.id := sale.lines[..n]]
    ensures Written(s, sale, n).sales == s.sales
  {
    if n > 0 {
      WrittenItems(s, sale, n - 1);
      SliceGrows(sale.lines, n - 1);
    } else {
      assert s.items == s.items[sale.id := []];
    }
  }

  /** Only a sale changes lines, and it stores exactly the lines it was sent. */
  lemma {:induction false} ApplyKeepsReversible(s: State, e: Event)
    requires Reversible(s) && Sane(e)
    ensures Reversible(Apply(s, e))
  {
    if e.row.SaleRow? && (VerdictOf(s, e).Created? || VerdictOf(s, e).Changed?) {
      SaleItems(s, Prepared(e.store, e.row.sale), RecorderOf(e.actor));
    }
  }

  /** Every run of saves, movements, sales, edits, replays and voids keeps the books. */
  lemma {:induction false} RunKeepsBooks(s: State, es: seq<Event>)
    requires Balanced(s) && Reversible(s) && AllSane(es)
    ensures Balanced(Run(s, es)) && Reversible(Run(s, es))
  {
    if es != [] {
      RunKeepsBooks(s, es[..|es| - 1]);
      ApplyKeepsBooks(Run(s, es[..|es| - 1]), es[|es| - 1]);
      ApplyKeepsReversible(Run(s, es[..|es| - 1]), es[|es| - 1]);
    }
  }

  lemma {:induction false} EmptyIsBalanced()
    ensures Balanced(EMPTY) && Reversible(EMPTY)
  {
  }

  /** Every state reached from no rows at all keeps the books, so what other results ask of a state holds of it. */
  lemma {:induction false} ReachableKeepsBooks(es: seq<Event>)
    requires AllSane(es)
    ensures Balanced(Run(EMPTY, es)) && Reversible(Run(EMPTY, es))
  {
    EmptyIsBalanced();
    RunKeepsBooks(EMPTY, es);
  }

  // ----- Stock as a function of the facts -----

  /** What one sale takes out of a product's stock. */
  function SaleTake(s: State, id: Id, p: Id): int
  {
    if id in s.sales && id in s.items && !s.sales[id].voided then LineSum(s.items[id], p) else 0
  }

  ghost function TaggedSum(ms: seq<Movement>, n: nat, sales: set<Id>, p: Id): int
    requires n <= |ms|
  {
    Sum(sales, (id: Id) => EffectSum(TaggedTo(ms, n, id), p))
  }

  /** The ledger splits into the manual rows and one part per sale. */
  lemma {:induction false} LedgerSplits(ms: seq<Movement>, n: nat, sales: set<Id>, p: Id)
    requires n <= |ms|
    requires forall i :: 0 <= i < n ==>
      if ms[i].note.SaleTag? then ms[i].note.sale in sales else ms[i].live
    ensures SumTo(ms, n, p) == LiveSum(ManualTo(ms, n), p) + TaggedSum(ms, n, sales, p)
  {
    if n == 0 {
      SumSame(sales, (id: Id) => EffectSum(TaggedTo(ms, 0, id), p), (id: Id) => 0);
      SumZero(sales, (id: Id) => 0);
    } else {
      LedgerSplits(ms, n - 1, sales, p);
      var m := ms[n - 1];
      var f := (id: Id) => EffectSum(TaggedTo(ms, n - 1, id), p);
      var g := (id: Id) => EffectSum(TaggedTo(ms, n, id), p);
      if m.note.SaleTag? {
        AppendedEffect(TaggedTo(ms, n - 1, m.note.sale), Effect(m.product, m.quantity), p);
        SumShift(sales, f, g, m.note.sale);
      } else {
        Appended(ManualTo(ms, n - 1), m, p, 0);
        SumSame(sales, f, g);
      }
    }
  }

  /**
   In balanced books a product's stock is its opening, plus what was recorded by hand, less the
   lines of the sales that are not voided.
   */
  lemma {:induction false} StockFromFacts(s: State, p: Id)
    requires Balanced(s) && p in s.products
    ensures s.products[p].stock == s.products[p].opening + LiveSum(Manual(s.movements), p)
                                 - Sum(s.sales.Keys, (id: Id) => SaleTake(s, id, p))
  {
    assert StockRight(s, p);
    var ms, sales := s.movements, s.sales.Keys;
    forall i | 0 <= i < |ms|
      ensures if ms[i].note.SaleTag? then ms[i].note.sale in sales else ms[i].live
    {
      assert RowSound(s, ms[i]);
    }
    LedgerSplits(ms, |ms|, sales, p);
    var f := (id: Id) => EffectSum(TaggedTo(ms, |ms|, id), p);
    var g := (id: Id) => SaleTake(s, id, p);
    forall id | id in sales ensures f(id) == -g(id) {
      assert SaleSound(s, id);
      EffectSumOfLines(s.items[id], |s.items[id]|, p);
    }
    SumNegated(sales, f, g);
  }
}
