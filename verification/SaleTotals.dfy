/**
 What a sale comes to. Prices are centavos and quantities thousandths, so price times quantity is
 in thousandths of a centavo; each line is rounded half to even, as `Decimal::round_dp` does.
 */
module SaleTotals {
  import opened Prelude

  datatype CatalogueItem = CatalogueItem(price: int, cost: int)

  datatype Item = Item(product: Option<Id>, quantity: int, unitPrice: Option<int>, unitCost: Option<int>)

  datatype PricedLine = PricedLine(quantity: int, unitPrice: int, unitCost: int, lineTotal: int)

  /** `cost` is in thousandths of a centavo: it is not rounded before it is stored. */
  datatype Totals = Totals(lines: seq<PricedLine>, total: int, discount: int, cost: int)

  datatype Result<T> = Ok(value: T) | Err(error: Error)

  const SCALE: nat := 1_000

  function RoundHalfEven(n: int, d: nat): int
    requires d > 0
  {
    var q, r := n / d, n % d;
    if 2 * r < d || (2 * r == d && q % 2 == 0) then q else q + 1
  }

  function Given(amount: Option<int>, otherwise: int): int
  {
    if amount.Some? then amount.value else otherwise
  }

  function Priced(quantity: int, price: int, cost: int): PricedLine
  {
    PricedLine(quantity, price, cost, RoundHalfEven(price * quantity, SCALE))
  }

  /** `resolve_line`: the catalogue's figures unless the request has its own. */
  function Resolve(catalogue: map<Id, CatalogueItem>, item: Item): Result<PricedLine>
  {
    match item.product
    case Some(p) =>
      if p !in catalogue then Err(NotFound)
      else Ok(Priced(item.quantity, Given(item.unitPrice, catalogue[p].price), Given(item.unitCost, catalogue[p].cost)))
    case None =>
      if item.unitPrice.None? then Err(BadRequest)
      else Ok(Priced(item.quantity, item.unitPrice.value, Given(item.unitCost, 0)))
  }

  function Gross(lines: seq<PricedLine>, n: nat): int
    requires n <= |lines|
  {
    if n == 0 then 0 else Gross(lines, n - 1) + lines[n - 1].lineTotal
  }

  /** Price times quantity, unrounded. */
  function Exact(lines: seq<PricedLine>, n: nat): int
    requires n <= |lines|
  {
    if n == 0 then 0 else Exact(lines, n - 1) + lines[n - 1].unitPrice * lines[n - 1].quantity
  }

  function Cost(lines: seq<PricedLine>, n: nat): int
    requires n <= |lines|
  {
    if n == 0 then 0 else Cost(lines, n - 1) + lines[n - 1].unitCost * lines[n - 1].quantity
  }

  /** A device that may not see costs holds zeros for them, so its figures are ignored. */
  function Uncosted(items: seq<Item>, seesCosts: bool): seq<Item>
  {
    if seesCosts then items
    else seq(|items|, i requires 0 <= i < |items| => items[i].(unitCost := None))
  }

  /** The first line that cannot be resolved, or all of them resolved. */
  function Resolved(catalogue: map<Id, CatalogueItem>, items: seq<Item>, n: nat): Result<seq<PricedLine>>
    requires n <= |items|
  {
    if n == 0 then Ok([])
    else
      match Resolved(catalogue, items, n - 1)
      case Err(e) => Err(e)
      case Ok(lines) =>
        match Resolve(catalogue, items[n - 1])
        case Err(e) => Err(e)
        case Ok(line) => Ok(lines + [line])
  }

  function Least(a: int, b: int): int { if a < b then a else b }

  function TotalsOf(lines: seq<PricedLine>, asked: int): Totals
  {
    var gross := Gross(lines, |lines|);
    var discount := Least(asked, gross);
    Totals(lines, gross - discount, discount, Cost(lines, |lines|))
  }

  /** The loop that drops the costs. */
  method HideCosts(request: seq<Item>) returns (items: seq<Item>)
    ensures items == Uncosted(request, false)
    ensures |items| == |request| && forall k :: 0 <= k < |items| ==> items[k] == request[k].(unitCost := None)
  {
    items := request;
    for i := 0 to |items|
      invariant |items| == |request|
      invariant forall k :: 0 <= k < |items| ==> items[k] == if k < i then request[k].(unitCost := None) else request[k]
    {
      items := items[i := items[i].(unitCost := None)];
    }
  }

  /** The first half of `SaleService::record`. */
  method Price(catalogue: map<Id, CatalogueItem>, request: seq<Item>, asked: int, seesCosts: bool)
      returns (r: Result<Totals>)
    ensures r == (match Resolved(catalogue, Uncosted(request, seesCosts), |request|)
                  case Err(e) => Err(e)
                  case Ok(lines) => Ok(TotalsOf(lines, asked)))
    ensures PricedRight(catalogue, request, asked, seesCosts, r)
  {
    var items := request;
    if !seesCosts { items := HideCosts(request); }

    var lines: seq<PricedLine> := [];
    var gross, cost := 0, 0;
    for i := 0 to |items|
      invariant Resolved(catalogue, items, i) == Ok(lines)
      invariant gross == Gross(lines, |lines|) && cost == Cost(lines, |lines|)
    {
      var line := Resolve(catalogue, items[i]);
      if line.Err? {
        Unresolved(catalogue, items, i + 1, |items|);
        PriceIsRight(catalogue, request, asked, seesCosts);
        return Err(line.error);
      }
      gross := gross + line.value.lineTotal;
      cost := cost + line.value.unitCost * line.value.quantity;
      SumsOfFront(lines, line.value, |lines|);
      lines := lines + [line.value];
    }
    var discount := if asked < gross then asked else gross;
    r := Ok(Totals(lines, gross - discount, discount, cost));
    PriceIsRight(catalogue, request, asked, seesCosts);
  }

  lemma {:induction false} SumsOfFront(lines: seq<PricedLine>, more: PricedLine, n: nat)
    requires n <= |lines|
    ensures Gross(lines + [more], n) == Gross(lines, n) && Cost(lines + [more], n) == Cost(lines, n)
  {
    if n > 0 { SumsOfFront(lines, more, n - 1); }
  }

  /** A line that cannot be resolved fails the sale, whatever follows it. */
  lemma {:induction false} Unresolved(catalogue: map<Id, CatalogueItem>, items: seq<Item>, n: nat, m: nat)
    requires n <= m <= |items| && Resolved(catalogue, items, n).Err?
    ensures Resolved(catalogue, items, m) == Resolved(catalogue, items, n)
  {
    if n < m { Unresolved(catalogue, items, n, m - 1); }
  }

  // ----- What the figures promise -----

  /** `r` is a closest whole number to n/d, and the even one of two that are equally close. */
  predicate Nearest(n: int, d: nat, r: int)
  {
    && 0 <= 2 * (d * r - n) + d <= 2 * d
    && (2 * (d * r - n) == d || 2 * (n - d * r) == d ==> r % 2 == 0)
  }

  /** Half-to-even rounding is the only function that is nearest and settles ties evenly. */
  lemma {:induction false} RoundingIsNearest(n: int, d: nat, r: int)
    requires d > 0
    ensures Nearest(n, d, r) <==> r == RoundHalfEven(n, d)
  {
    var q, m := n / d, n % d;
    assert n == d * q + m;
    RoundedIsNearest(n, d, q, m);
    if Nearest(n, d, r) {
      NearestIsUnique(n, d, r, RoundHalfEven(n, d));
    }
  }

  lemma {:induction false} RoundedIsNearest(n: int, d: nat, q: int, m: nat)
    requires d > 0 && n == d * q + m && m < d && q == n / d && m == n % d
    ensures Nearest(n, d, RoundHalfEven(n, d))
  {
    var r := RoundHalfEven(n, d);
    assert r == q || r == q + 1;
    assert d * (q + 1) == d * q + d;
    assert d * r == if r == q then d * q else d * q + d;
  }

  lemma {:induction false} NearestIsUnique(n: int, d: nat, a: int, b: int)
    requires d > 0 && Nearest(n, d, a) && Nearest(n, d, b)
    ensures a == b
  {
    if a < b {
      Apart(d, a, b);
    } else if b < a {
      Apart(d, b, a);
    }
  }

  lemma {:induction false} Apart(d: nat, a: int, b: int)
    requires a < b
    ensures d * a + d <= d * b
    ensures b >= a + 2 ==> d * a + 2 * d <= d * b
    decreases b - a
  {
    assert d * b == d * a + d * (b - a);
    if b > a + 1 {
      Apart(d, a, b - 1);
      assert d * b == d * (b - 1) + d;
    }
  }

  lemma {:induction false} ResolvedAreRounded(catalogue: map<Id, CatalogueItem>, items: seq<Item>, n: nat, i: nat)
    requires n <= |items| && Resolved(catalogue, items, n).Ok? && i < n
    ensures |Resolved(catalogue, items, n).value| == n
    ensures var line := Resolved(catalogue, items, n).value[i];
      line.lineTotal == RoundHalfEven(line.unitPrice * line.quantity, SCALE)
  {
    ResolvedLength(catalogue, items, n);
    ResolvedLength(catalogue, items, n - 1);
    if i < n - 1 {
      ResolvedAreRounded(catalogue, items, n - 1, i);
    }
  }

  lemma {:induction false} ResolvedLength(catalogue: map<Id, CatalogueItem>, items: seq<Item>, n: nat)
    requires n <= |items| && Resolved(catalogue, items, n).Ok?
    ensures |Resolved(catalogue, items, n).value| == n
  {
    if n > 0 { ResolvedLength(catalogue, items, n - 1); }
  }

  /** Line by line rounding is off by at most half a centavo a line, and cannot be off by more whatever the discount. */
  lemma {:induction false} RoundingIsSmall(lines: seq<PricedLine>, n: nat)
    requires n <= |lines|
    requires forall i ::
        0 <= i < n ==> lines[i].lineTotal == RoundHalfEven(lines[i].unitPrice * lines[i].quantity, SCALE)
    ensures -(500 * n) <= SCALE * Gross(lines, n) - Exact(lines, n) <= 500 * n
  {
    if n > 0 {
      RoundingIsSmall(lines, n - 1);
      RoundingIsNearest(lines[n - 1].unitPrice * lines[n - 1].quantity, SCALE, lines[n - 1].lineTotal);
    }
  }

  /** Total and discount make up the lines, the total is never negative, and no more is taken off than was asked. */
  lemma {:induction false} TotalsAddUp(
      catalogue: map<Id, CatalogueItem>, request: seq<Item>, asked: int, seesCosts: bool)
    requires Resolved(catalogue, Uncosted(request, seesCosts), |request|).Ok?
    ensures var lines := Resolved(catalogue, Uncosted(request, seesCosts), |request|).value;
      var t := TotalsOf(lines, asked);
      && t.total + t.discount == Gross(lines, |lines|)
      && t.total >= 0 && t.discount <= asked && (t.discount == asked || t.total == 0)
      && -(500 * |request|) <= SCALE * (t.total + t.discount) - Exact(lines, |lines|) <= 500 * |request|
  {
    var items := Uncosted(request, seesCosts);
    var lines := Resolved(catalogue, items, |request|).value;
    ResolvedLength(catalogue, items, |request|);
    forall i | 0 <= i < |lines|
        ensures lines[i].lineTotal == RoundHalfEven(lines[i].unitPrice * lines[i].quantity, SCALE) {
      ResolvedAreRounded(catalogue, items, |request|, i);
    }
    RoundingIsSmall(lines, |lines|);
  }

  /** Costs sent by a device that may not see them make no difference to anything. */
  lemma {:induction false} HiddenCostsAreIgnored(a: seq<Item>, b: seq<Item>)
    requires |a| == |b| && forall i :: 0 <= i < |a| ==> a[i] == b[i].(unitCost := a[i].unitCost)
    ensures Uncosted(a, false) == Uncosted(b, false)
  {
  }

  /** They come from the catalogue, and a quick sale costs nothing. */
  lemma {:induction false} HiddenCostsAreCatalogued(catalogue: map<Id, CatalogueItem>, request: seq<Item>, n: nat,
      i: nat)
    requires n <= |request| && Resolved(catalogue, Uncosted(request, false), n).Ok? && i < n
    ensures |Resolved(catalogue, Uncosted(request, false), n).value| == n
    ensures var line := Resolved(catalogue, Uncosted(request, false), n).value[i];
      match request[i].product
      case Some(p) => p in catalogue && line.unitCost == catalogue[p].cost
      case None => line.unitCost == 0
  {
    var items := Uncosted(request, false);
    ResolvedLength(catalogue, items, n);
    ResolvedLength(catalogue, items, n - 1);
    if i < n - 1 {
      HiddenCostsAreCatalogued(catalogue, request, n - 1, i);
    }
  }

  // ----- Line by line -----

  function Sum(term: nat -> int, n: nat): int { if n == 0 then 0 else Sum(term, n - 1) + term(n - 1) }

  /** A product has to be in the catalogue; a quick sale has to name its amount. */
  predicate CanBePriced(catalogue: map<Id, CatalogueItem>, item: Item)
  {
    if item.product.Some? then item.product.value in catalogue else item.unitPrice.Some?
  }

  /** The item's own price if it has one, or the catalogue's; its own cost if it may be seen, or the catalogue's. */
  predicate LinePriced(catalogue: map<Id, CatalogueItem>, item: Item, seesCosts: bool, line: PricedLine)
    requires CanBePriced(catalogue, item)
  {
    && line.quantity == item.quantity
    && line.unitPrice == (if item.unitPrice.Some? then item.unitPrice.value else catalogue[item.product.value].price)
    && line.unitCost == (if seesCosts && item.unitCost.Some? then item.unitCost.value
                         else if item.product.Some? then catalogue[item.product.value].cost else 0)
    && Nearest(line.unitPrice * line.quantity, SCALE, line.lineTotal)
  }

  predicate AllPriceable(catalogue: map<Id, CatalogueItem>, request: seq<Item>, n: nat)
    requires n <= |request|
  {
    forall i :: 0 <= i < n ==> CanBePriced(catalogue, request[i])
  }

  /** Item `i` is the first that cannot be priced, and this is its error. */
  predicate FailsAt(catalogue: map<Id, CatalogueItem>, request: seq<Item>, i: nat, e: Error)
    requires i < |request|
  {
    && AllPriceable(catalogue, request, i) && !CanBePriced(catalogue, request[i])
    && e == (if request[i].product.Some? then NotFound else BadRequest)
  }

  predicate LinesPriced(
      catalogue: map<Id, CatalogueItem>, request: seq<Item>, n: nat, seesCosts: bool, lines: seq<PricedLine>)
    requires n <= |request| && AllPriceable(catalogue, request, n)
  {
    |lines| == n && forall i :: 0 <= i < n ==> LinePriced(catalogue, request[i], seesCosts, lines[i])
  }

  function LineTotals(lines: seq<PricedLine>): nat -> int
  {
    (i: nat) => if i < |lines| then lines[i].lineTotal else 0
  }

  function LineCosts(lines: seq<PricedLine>): nat -> int
  {
    (i: nat) => if i < |lines| then lines[i].quantity * lines[i].unitCost else 0
  }

  /** Every line priced, and the sums of what they come to and cost; or the error of the first that cannot be. */
  ghost predicate PricedRight(
      catalogue: map<Id, CatalogueItem>, request: seq<Item>, asked: int, seesCosts: bool, r: Result<Totals>)
  {
    match r
    case Ok(t) =>
      var gross := Sum(LineTotals(t.lines), |t.lines|);
      && AllPriceable(catalogue, request, |request|)
      && LinesPriced(catalogue, request, |request|, seesCosts, t.lines)
      && t.discount == (if asked < gross then asked else gross) && t.total == gross - t.discount
      && t.cost == Sum(LineCosts(t.lines), |t.lines|)
    case Err(e) => exists i :: 0 <= i < |request| && FailsAt(catalogue, request, i, e)
  }

  lemma {:induction false} ResolveIsPriced(catalogue: map<Id, CatalogueItem>, item: Item, seesCosts: bool)
    ensures var line := Resolve(catalogue, if seesCosts then item else item.(unitCost := None));
      if CanBePriced(catalogue, item) then line.Ok? && LinePriced(catalogue, item, seesCosts, line.value)
      else line == Err(if item.product.Some? then NotFound else BadRequest)
  {
    if CanBePriced(catalogue, item) {
      var line := Resolve(catalogue, if seesCosts then item else item.(unitCost := None)).value;
      RoundingIsNearest(line.unitPrice * line.quantity, SCALE, line.lineTotal);
    }
  }

  /** The first `n` items, resolved one after another. */
  lemma {:induction false} ResolvedArePriced(
      catalogue: map<Id, CatalogueItem>, request: seq<Item>, seesCosts: bool, n: nat)
    requires n <= |request|
    ensures var r := Resolved(catalogue, Uncosted(request, seesCosts), n);
      match r
      case Ok(lines) => AllPriceable(catalogue, request, n) && LinesPriced(catalogue, request, n, seesCosts, lines)
      case Err(e) => exists i :: 0 <= i < n && FailsAt(catalogue, request, i, e)
  {
    if n > 0 {
      ResolvedArePriced(catalogue, request, seesCosts, n - 1);
      ResolveIsPriced(catalogue, request[n - 1], seesCosts);
      var front := Resolved(catalogue, Uncosted(request, seesCosts), n - 1);
      var line := Resolve(catalogue, Uncosted(request, seesCosts)[n - 1]);
      if front.Ok? && line.Err? { assert FailsAt(catalogue, request, n - 1, line.error); }
    }
  }

  lemma {:induction false} SumsOfLines(lines: seq<PricedLine>, n: nat)
    requires n <= |lines|
    ensures Gross(lines, n) == Sum(LineTotals(lines), n) && Cost(lines, n) == Sum(LineCosts(lines), n)
  {
    if n > 0 { SumsOfLines(lines, n - 1); }
  }

  lemma {:induction false} PriceIsRight(
      catalogue: map<Id, CatalogueItem>, request: seq<Item>, asked: int, seesCosts: bool)
    ensures var r := match Resolved(catalogue, Uncosted(request, seesCosts), |request|)
        case Err(e) => Err(e)
        case Ok(lines) => Ok(TotalsOf(lines, asked));
      PricedRight(catalogue, request, asked, seesCosts, r)
  {
    ResolvedArePriced(catalogue, request, seesCosts, |request|);
    var r := Resolved(catalogue, Uncosted(request, seesCosts), |request|);
    if r.Ok? { SumsOfLines(r.value, |r.value|); }
  }
}
