/** The catalog read: per-SKU aggregation, the price/availability merge, and confirm's re-validation. */
module Catalog {
  import opened Base
  import opened Domain

  datatype Line = Line(sku: string, quantity: int)
  datatype PriceInfo = PriceInfo(productId: string, unitPrice: int, currency: string, sellable: bool)
  datatype ProductInfo = ProductInfo(productId: string, unitPrice: int, available: int)
  datatype Availability = Availability(canFulfill: bool, shortages: seq<string>, unknown: seq<string>)

  const DEFAULT_CURRENCY := "USD"

  // ---- aggregateBySKU ----

  predicate DistinctLines(lines: seq<Line>) {
    forall i, j :: 0 <= i < j < |lines| ==> lines[i].sku != lines[j].sku
  }

  /** The exact total asked for one SKU over all lines. */
  function Total(lines: seq<Line>, sku: string): int {
    if lines == [] then 0
    else Total(lines[..|lines| - 1], sku) + if lines[|lines| - 1].sku == sku then lines[|lines| - 1].quantity else 0
  }

  /** One line counts its own quantity for its own SKU, and the totals of two baskets put together add up. */
  lemma {:induction false} TotalConcat(a: seq<Line>, b: seq<Line>, sku: string)
    ensures Total(a + b, sku) == Total(a, sku) + Total(b, sku)
    ensures |a| == 1 ==> Total(a, sku) == if a[0].sku == sku then a[0].quantity else 0
  {
    if |a| == 1 { assert Total(a[..0], sku) == 0; }
    if b == [] {
      assert a + b == a;
    } else {
      TotalConcat(a, b[..|b| - 1], sku);
      assert (a + b)[..|a + b| - 1] == a + b[..|b| - 1];
    }
  }

  lemma TotalTakenOut(lines: seq<Line>, i: nat, sku: string)
    requires i < |lines|
    ensures Total(lines, sku) == Total(lines[..i] + lines[i + 1..], sku) + Total([lines[i]], sku)
  {
    assert lines == (lines[..i] + [lines[i]]) + lines[i + 1..];
    TotalConcat(lines[..i] + [lines[i]], lines[i + 1..], sku);
    TotalConcat(lines[..i], [lines[i]], sku);
    TotalConcat(lines[..i], lines[i + 1..], sku);
  }

  lemma TakenOut(lines: seq<Line>, i: nat)
    requires i < |lines|
    ensures multiset(lines) == multiset(lines[..i] + lines[i + 1..]) + multiset{lines[i]}
  {
    assert lines == lines[..i] + [lines[i]] + lines[i + 1..];
  }

  lemma SameRest(a: multiset<Line>, b: multiset<Line>, l: Line)
    requires a + multiset{l} == b + multiset{l}
    ensures a == b
  {
    assert a == a + multiset{l} - multiset{l};
  }

  /** The order of the lines does not matter to any total. */
  lemma {:induction false} TotalPermuted(a: seq<Line>, b: seq<Line>, sku: string)
    requires multiset(a) == multiset(b)
    ensures Total(a, sku) == Total(b, sku)
  {
    if a == [] {
      assert |multiset(b)| == 0;
    } else {
      assert a[0] in multiset(b);
      var i :| 0 <= i < |b| && b[i] == a[0];
      TakenOut(a, 0);
      TakenOut(b, i);
      TotalTakenOut(a, 0, sku);
      TotalTakenOut(b, i, sku);
      SameRest(multiset(a[..0] + a[1..]), multiset(b[..i] + b[i + 1..]), a[0]);
      TotalPermuted(a[..0] + a[1..], b[..i] + b[i + 1..], sku);
    }
  }

  /** All units asked for, whatever their SKU. */
  function Units(lines: seq<Line>): int {
    if lines == [] then 0 else Units(lines[..|lines| - 1]) + lines[|lines| - 1].quantity
  }

  lemma {:induction false} UnitsChanged(lines: seq<Line>, i: nat, l: Line)
    requires i < |lines|
    ensures Units(lines[i := l]) == Units(lines) - lines[i].quantity + l.quantity
  {
    var n := |lines| - 1;
    if i == n {
      assert lines[i := l][..n] == lines[..n];
    } else {
      UnitsChanged(lines[..n], i, l);
      assert lines[i := l][..n] == lines[..n][i := l];
    }
  }

  lemma UnitsSnoc(lines: seq<Line>, l: Line)
    ensures Units(lines + [l]) == Units(lines) + l.quantity
  {
    assert (lines + [l])[..|lines|] == lines;
  }

  /** Sums that agree in int64 still do when one grows by an amount and the other by the same amount wrapped. */
  lemma WrapBumped(x: int, y: int, q: int, more: int, x': int, y': int)
    requires Wrap(x) == Wrap(y) && y' == y + more
    requires x' == x - q + Wrap(q + more)
    ensures Wrap(x') == Wrap(y')
  {
    WrapAdd(x - q, q + more);
    WrapAdd(x, more);
    WrapAdd(y, more);
  }

  /** Adding a line to its SKU's row adds exactly its units, and so does appending it as a row of its own. */
  lemma UnitsBumped(out: seq<Line>, i: nat, lines: seq<Line>, l: Line)
    requires i < |out| && Wrap(Units(out)) == Wrap(Units(lines))
    ensures Wrap(Units(Bump(out, i, l))) == Wrap(Units(lines + [l]))
  {
    var l' := Line(out[i].sku, Wrap(out[i].quantity + l.quantity));
    var units, units' := Units(Bump(out, i, l)), Units(lines + [l]);
    assert units == Units(out) - out[i].quantity + l'.quantity by { UnitsChanged(out, i, l'); }
    assert units' == Units(lines) + l.quantity by { UnitsSnoc(lines, l); }
    WrapBumped(Units(out), Units(lines), out[i].quantity, l.quantity, units, units');
  }

  lemma UnitsAppended(out: seq<Line>, lines: seq<Line>, l: Line)
    requires Wrap(Units(out)) == Wrap(Units(lines))
    ensures Wrap(Units(out + [Line(l.sku, Wrap(l.quantity))])) == Wrap(Units(lines + [l]))
  {
    var l' := Line(l.sku, Wrap(0 + l.quantity));
    var units, units' := Units(out + [l']), Units(lines + [l]);
    assert units == Units(out) - 0 + l'.quantity by { UnitsSnoc(out, l'); }
    assert units' == Units(lines) + l.quantity by { UnitsSnoc(lines, l); }
    WrapBumped(Units(out), Units(lines), 0, l.quantity, units, units');
  }

  function SkusOf(lines: seq<Line>): (r: seq<string>)
    ensures |r| == |lines| && forall i :: 0 <= i < |r| ==> r[i] == lines[i].sku
  {
    seq(|lines|, i requires 0 <= i < |lines| => lines[i].sku)
  }

  /** The SKUs in first-seen order, each once. */
  function FirstSeen(lines: seq<Line>): seq<string> {
    if lines == [] then []
    else
      var head := FirstSeen(lines[..|lines| - 1]);
      var last := lines[|lines| - 1].sku;
      if last in head then head else head + [last]
  }

  lemma {:induction false} FirstSeenCovers(lines: seq<Line>, sku: string)
    ensures sku in FirstSeen(lines) <==> exists i :: 0 <= i < |lines| && lines[i].sku == sku
    ensures sku !in FirstSeen(lines) ==> Total(lines, sku) == 0
  {
    if lines != [] {
      FirstSeenCovers(lines[..|lines| - 1], sku);
      assert lines[|lines| - 1].sku == sku ==> sku in FirstSeen(lines);
      forall i | 0 <= i < |lines| && lines[i].sku == sku ensures sku in FirstSeen(lines) {
        if i < |lines| - 1 { assert lines[..|lines| - 1][i].sku == sku; }
      }
      if sku in FirstSeen(lines[..|lines| - 1]) {
        var i :| 0 <= i < |lines| - 1 && lines[..|lines| - 1][i].sku == sku;
        assert lines[i].sku == sku;
      }
    }
  }

  /** Of two distinct SKUs the one listed first was asked for before the other was. */
  lemma {:induction false} FirstSeenOrder(lines: seq<Line>, i: nat, j: nat)
    requires i < j < |FirstSeen(lines)|
    ensures
      var early, late := FirstSeen(lines)[i], FirstSeen(lines)[j];
      exists n: nat :: n < |lines| && lines[n].sku == early && forall m :: 0 <= m <= n ==> lines[m].sku != late
  {
    var head := lines[..|lines| - 1];
    var seen := FirstSeen(head);
    if j < |seen| {
      FirstSeenOrder(head, i, j);
      var n: nat :| n < |head| && head[n].sku == seen[i] && forall m :: 0 <= m <= n ==> head[m].sku != seen[j];
      assert lines[n].sku == FirstSeen(lines)[i];
      forall m | 0 <= m <= n ensures lines[m].sku != FirstSeen(lines)[j] { assert head[m] == lines[m]; }
    } else {
      assert seen[i] in seen;
      FirstSeenCovers(head, seen[i]);
      FirstSeenCovers(head, FirstSeen(lines)[j]);
      var n :| 0 <= n < |head| && head[n].sku == seen[i];
      assert lines[n].sku == FirstSeen(lines)[i];
      forall m | 0 <= m <= n ensures lines[m].sku != FirstSeen(lines)[j] { assert head[m] == lines[m]; }
    }
  }

  /** `out` is the aggregation of `lines`, and `idx` locates each of its SKUs. */
  predicate Aggregates(out: seq<Line>, idx: map<string, nat>, lines: seq<Line>) {
    && SkusOf(out) == FirstSeen(lines)
    && (forall sku :: sku in idx ==> idx[sku] < |out| && out[idx[sku]].sku == sku)
    && (forall i :: 0 <= i < |out| ==> out[i].sku in idx && idx[out[i].sku] == i)
    && (forall i :: 0 <= i < |out| ==> out[i].quantity == Wrap(Total(lines, out[i].sku)))
  }

  /** out[i].Quantity += l.Quantity */
  function Bump(out: seq<Line>, i: nat, l: Line): seq<Line>
    requires i < |out|
  {
    out[i := Line(out[i].sku, Wrap(out[i].quantity + l.quantity))]
  }

  lemma AggregateSeen(out: seq<Line>, idx: map<string, nat>, lines: seq<Line>, l: Line)
    requires Aggregates(out, idx, lines) && l.sku in idx
    ensures Aggregates(Bump(out, idx[l.sku], l), idx, lines + [l])
  {
    var i := idx[l.sku];
    var more := lines + [l];
    assert more[..|more| - 1] == lines;
    var out' := Bump(out, i, l);
    WrapAdd(Total(lines, l.sku), l.quantity);
    assert SkusOf(out') == SkusOf(out);
    assert l.sku == SkusOf(out)[i];
    assert FirstSeen(more) == FirstSeen(lines);
    forall j | 0 <= j < |out'| ensures out'[j].quantity == Wrap(Total(more, out'[j].sku)) {
      assert out[j].sku == l.sku ==> j == i;
    }
  }

  lemma AggregateNew(out: seq<Line>, idx: map<string, nat>, lines: seq<Line>, l: Line)
    requires Aggregates(out, idx, lines) && l.sku !in idx
    ensures Aggregates(out + [Line(l.sku, Wrap(l.quantity))], idx[l.sku := |out|], lines + [l])
  {
    var more := lines + [l];
    assert more[..|more| - 1] == lines;
    var out' := out + [Line(l.sku, Wrap(l.quantity))];
    assert SkusOf(out') == SkusOf(out) + [l.sku];
    assert l.sku !in SkusOf(out);
    FirstSeenCovers(lines, l.sku);
    forall j | 0 <= j < |out'| ensures out'[j].quantity == Wrap(Total(more, out'[j].sku)) {
      if j < |out| { assert out'[j] == out[j] && out[j].sku != l.sku; }
    }
  }

  lemma AggregatesDistinct(out: seq<Line>, idx: map<string, nat>, lines: seq<Line>)
    requires Aggregates(out, idx, lines)
    ensures DistinctLines(out)
  {
  }

  /** Distinct SKUs in first-seen order, each carrying its (int64) total over every line. */
  method AggregateBySKU(lines: seq<Line>) returns (out: seq<Line>)
    ensures SkusOf(out) == FirstSeen(lines)
    ensures DistinctLines(out)
    ensures forall i :: 0 <= i < |out| ==> out[i].quantity == Wrap(Total(lines, out[i].sku))
    ensures Wrap(Units(out)) == Wrap(Units(lines))
  {
    var idx: map<string, nat> := map[];
    out := [];
    for n := 0 to |lines|
      invariant Aggregates(out, idx, lines[..n])
      invariant Wrap(Units(out)) == Wrap(Units(lines[..n]))
    {
      var l := lines[n];
      assert lines[..n + 1] == lines[..n] + [l];
      if l.sku in idx {
        AggregateSeen(out, idx, lines[..n], l);
        UnitsBumped(out, idx[l.sku], lines[..n], l);
        out := Bump(out, idx[l.sku], l);
        continue;
      }
      AggregateNew(out, idx, lines[..n], l);
      UnitsAppended(out, lines[..n], l);
      idx := idx[l.sku := |out|];
      out := out + [Line(l.sku, Wrap(l.quantity))];
    }
    assert lines[..|lines|] == lines;
    AggregatesDistinct(out, idx, lines);
  }

  // ---- intersectAsked, pricedAnyRequested ----

  /** The ids that name an asked SKU, in the upstream's order. */
  function Asked(ids: seq<string>, want: set<string>): seq<string> {
    if ids == [] then []
    else Asked(ids[..|ids| - 1], want) + if ids[|ids| - 1] in want then [ids[|ids| - 1]] else []
  }

  lemma {:induction false} AskedMembers(ids: seq<string>, want: set<string>, id: string)
    ensures id in Asked(ids, want) <==> id in ids && id in want
  {
    if ids != [] {
      AskedMembers(ids[..|ids| - 1], want, id);
      assert ids == ids[..|ids| - 1] + [ids[|ids| - 1]];
    }
  }

  function Wanted(lines: seq<Line>): set<string> { set i | 0 <= i < |lines| :: lines[i].sku }

  method IntersectAsked(asked: seq<Line>, ids: seq<string>) returns (out: seq<string>)
    ensures out == Asked(ids, Wanted(asked))
  {
    var want := Wanted(asked);
    out := [];
    for n := 0 to |ids|
      invariant out == Asked(ids[..n], want)
    {
      assert ids[..n + 1][..n] == ids[..n];
      if ids[n] in want { out := out + [ids[n]]; }
    }
    assert ids[..|ids|] == ids;
  }

  predicate PricedAny(want: set<string>, prices: seq<PriceInfo>) {
    exists i :: 0 <= i < |prices| && prices[i].productId in want
  }

  method PricedAnyRequested(asked: seq<Line>, prices: seq<PriceInfo>) returns (any: bool)
    ensures any <==> PricedAny(Wanted(asked), prices)
  {
    var want := Wanted(asked);
    for n := 0 to |prices|
      invariant forall i :: 0 <= i < n ==> prices[i].productId !in want
    {
      if prices[n].productId in want { return true; }
    }
    any := false;
  }

  // ---- mergeCatalog ----

  /** The quantity on the LAST line carrying the SKU: a repeated SKU overwrites. */
  function LastQuantity(lines: seq<Line>, sku: string): Option<int> {
    if lines == [] then None
    else if lines[|lines| - 1].sku == sku then Some(lines[|lines| - 1].quantity)
    else LastQuantity(lines[..|lines| - 1], sku)
  }

  lemma {:induction false} LastQuantityIs(lines: seq<Line>, sku: string, quantity: int)
    ensures LastQuantity(lines, sku) == Some(quantity) <==>
      exists i :: 0 <= i < |lines| && lines[i] == Line(sku, quantity)
        && forall j :: i < j < |lines| ==> lines[j].sku != sku
  {
    if lines != [] {
      var n := |lines| - 1;
      LastQuantityIs(lines[..n], sku, quantity);
      if lines[n].sku != sku && LastQuantity(lines, sku) == Some(quantity) {
        var i :| 0 <= i < n && lines[..n][i] == Line(sku, quantity)
          && forall j :: i < j < n ==> lines[..n][j].sku != sku;
        assert lines[i] == Line(sku, quantity);
        forall j | i < j < |lines| ensures lines[j].sku != sku { assert j < n ==> lines[..n][j] == lines[j]; }
      }
    }
  }

  predicate Chargeable(p: PriceInfo) { p.sellable && (p.currency == "" || p.currency == DEFAULT_CURRENCY) }

  /** One priced row seen through the basket: omitted, blocked at 0, or cleared at the requested quantity. */
  function Offer(lines: seq<Line>, avail: Availability, p: PriceInfo): Option<ProductInfo> {
    match LastQuantity(lines, p.productId)
    case None => None
    case Some(req) =>
      if !Chargeable(p) then None
      else
        Some(ProductInfo(p.productId, p.unitPrice,
          if avail.canFulfill && p.productId !in avail.shortages then req else 0))
  }

  function Merged(lines: seq<Line>, prices: seq<PriceInfo>, avail: Availability): seq<ProductInfo> {
    if prices == [] then []
    else
      Merged(lines, prices[..|prices| - 1], avail) +
      match Offer(lines, avail, prices[|prices| - 1])
      case None => []
      case Some(info) => [info]
  }

  method MergeCatalog(lines: seq<Line>, prices: seq<PriceInfo>, avail: Availability) returns (out: seq<ProductInfo>)
    ensures out == Merged(lines, prices, avail)
  {
    var reqByID: map<string, int> := map[];
    for n := 0 to |lines|
      invariant forall sku :: sku in reqByID <==> LastQuantity(lines[..n], sku).Some?
      invariant forall sku :: sku in reqByID ==> LastQuantity(lines[..n], sku) == Some(reqByID[sku])
    {
      assert lines[..n + 1][..n] == lines[..n];
      reqByID := reqByID[lines[n].sku := lines[n].quantity];
    }
    assert lines[..|lines|] == lines;
    var short := set i | 0 <= i < |avail.shortages| :: avail.shortages[i];
    out := [];
    for n := 0 to |prices|
      invariant out == Merged(lines, prices[..n], avail)
    {
      assert prices[..n + 1][..n] == prices[..n];
      var p := prices[n];
      if p.productId !in reqByID || !p.sellable || (p.currency != "" && p.currency != DEFAULT_CURRENCY) {
        continue;
      }
      var available := reqByID[p.productId];
      if !avail.canFulfill {
        available := 0;
      } else if p.productId in short {
        available := 0;
      }
      out := out + [ProductInfo(p.productId, p.unitPrice, available)];
    }
    assert prices[..|prices|] == prices;
  }

  /** byID keeps the last merged row of a product. */
  function Lookup(infos: seq<ProductInfo>, id: string): Option<ProductInfo> {
    if infos == [] then None
    else if infos[|infos| - 1].productId == id then Some(infos[|infos| - 1])
    else Lookup(infos[..|infos| - 1], id)
  }

  /** The last chargeable price row of a product, if product answered one. */
  function LastPrice(prices: seq<PriceInfo>, id: string): Option<int> {
    if prices == [] then None
    else if prices[|prices| - 1].productId == id && Chargeable(prices[|prices| - 1]) then
      Some(prices[|prices| - 1].unitPrice)
    else LastPrice(prices[..|prices| - 1], id)
  }

  /**
   * The price product quotes for an id is that of its last row that is sellable in dollars; an empty currency is
   * dollars. No other row counts.
   */
  lemma {:induction false} LastPriceIs(prices: seq<PriceInfo>, id: string, price: int)
    ensures LastPrice(prices, id) == Some(price) <==>
      exists i :: 0 <= i < |prices| && prices[i] in {PriceInfo(id, price, "", true), PriceInfo(id, price, "USD", true)}
        && forall j :: i < j < |prices| ==>
          prices[j].productId == id ==> !prices[j].sellable || prices[j].currency !in {"", "USD"}
  {
    if prices != [] {
      var n := |prices| - 1;
      LastPriceIs(prices[..n], id, price);
      if prices[n].productId == id && Chargeable(prices[n]) {
        assert prices[n] in
            {PriceInfo(id, prices[n].unitPrice, "", true), PriceInfo(id, prices[n].unitPrice, "USD", true)};
      } else if LastPrice(prices, id) == Some(price) {
        LastPriceFrom(prices, id, price);
      }
    }
  }

  lemma LastPriceFrom(prices: seq<PriceInfo>, id: string, price: int)
    requires prices != [] && !(prices[|prices| - 1].productId == id && Chargeable(prices[|prices| - 1]))
    requires
      var head := prices[..|prices| - 1];
      exists i :: 0 <= i < |head| && head[i] in {PriceInfo(id, price, "", true), PriceInfo(id, price, "USD", true)}
        && forall j :: i < j < |head| ==>
          head[j].productId == id ==> !head[j].sellable || head[j].currency !in {"", "USD"}
    ensures exists i ::
      && 0 <= i < |prices| && prices[i] in {PriceInfo(id, price, "", true), PriceInfo(id, price, "USD", true)}
      && forall j :: i < j < |prices| ==>
        prices[j].productId == id ==> !prices[j].sellable || prices[j].currency !in {"", "USD"}
  {
    var head := prices[..|prices| - 1];
    var i :| 0 <= i < |head| && head[i] in {PriceInfo(id, price, "", true), PriceInfo(id, price, "USD", true)}
      && forall j :: i < j < |head| ==>
        head[j].productId == id ==> !head[j].sellable || head[j].currency !in {"", "USD"};
    assert prices[i] == head[i];
    forall j | i < j < |prices| && prices[j].productId == id
      ensures !prices[j].sellable || prices[j].currency !in {"", "USD"}
    {
      assert j < |head| ==> prices[j] == head[j];
    }
  }

  lemma {:induction false} MergedLookup(lines: seq<Line>, prices: seq<PriceInfo>, avail: Availability, id: string)
    ensures Lookup(Merged(lines, prices, avail), id) ==
      if LastQuantity(lines, id).None? || LastPrice(prices, id).None? then None
      else Some(ProductInfo(id, LastPrice(prices, id).value,
             if avail.canFulfill && id !in avail.shortages then LastQuantity(lines, id).value else 0))
  {
    if prices != [] {
      var head := prices[..|prices| - 1];
      var before := Merged(lines, head, avail);
      MergedLookup(lines, head, avail, id);
      match Offer(lines, avail, prices[|prices| - 1])
      case None => assert Merged(lines, prices, avail) == before;
      case Some(info) =>
        assert Merged(lines, prices, avail) == before + [info];
        LookupLast(before, info, id);
    }
  }

  lemma LookupLast(infos: seq<ProductInfo>, info: ProductInfo, id: string)
    ensures Lookup(infos + [info], id) == if info.productId == id then Some(info) else Lookup(infos, id)
  {
    assert (infos + [info])[..|infos|] == infos;
  }

  // ---- The decision after the two reads ----

  /** What the two concurrent reads came back with. */
  datatype Reads = Reads(prices: Result<seq<PriceInfo>, ()>, avail: Result<Availability, ()>)

  datatype Resolution = Unreachable | UnknownSku | Resolved(infos: seq<ProductInfo>, answered: bool)

  function Resolve(lines: seq<Line>, got: Reads): Resolution {
    if got.prices.Failure? || got.avail.Failure? then Unreachable
    else if Asked(got.avail.value.unknown, Wanted(lines)) != [] then UnknownSku
    else Resolved(Merged(lines, got.prices.value, got.avail.value), PricedAny(Wanted(lines), got.prices.value))
  }

  method ResolveCatalog(lines: seq<Line>, got: Reads) returns (r: Resolution)
    ensures r == Resolve(lines, got)
  {
    var asked := AggregateBySKU(lines);
    if got.prices.Failure? { return Unreachable; }
    if got.avail.Failure? { return Unreachable; }
    assert Wanted(asked) == Wanted(lines) by {
      forall sku ensures sku in Wanted(asked) <==> sku in Wanted(lines) {
        FirstSeenCovers(lines, sku);
        assert sku in Wanted(asked) <==> sku in SkusOf(asked);
      }
    }
    var unknown := IntersectAsked(asked, got.avail.value.unknown);
    if |unknown| > 0 { return UnknownSku; }
    var infos := MergeCatalog(lines, got.prices.value, got.avail.value);
    var answered := PricedAnyRequested(asked, got.prices.value);
    r := Resolved(infos, answered);
  }

  // ---- revalidate ----

  function LinesOf(items: seq<Item>): (r: seq<Line>)
    ensures |r| == |items| && forall i :: 0 <= i < |r| ==> r[i] == Line(items[i].productId, items[i].quantity)
  {
    seq(|items|, i requires 0 <= i < |items| => Line(items[i].productId, items[i].quantity))
  }

  predicate PriceMoved(it: Item, info: Option<ProductInfo>) { info.Some? && info.value.unitPrice != it.unitPrice }

  predicate Short(it: Item, info: Option<ProductInfo>) { info.None? || it.quantity > info.value.available }

  /** A line after re-validation: delisted lines keep their snapshot price and are flagged. */
  function Refreshed(it: Item, info: Option<ProductInfo>): Item {
    if info.None? then it.(priceChanged := true)
    else if info.value.unitPrice != it.unitPrice then it.(priceChanged := true, unitPrice := info.value.unitPrice)
    else it
  }

  function RefreshAll(items: seq<Item>, infos: seq<ProductInfo>): (r: seq<Item>)
    ensures |r| == |items|
    ensures forall i :: 0 <= i < |r| ==> r[i] == Refreshed(items[i], Lookup(infos, items[i].productId))
  {
    seq(|items|, i requires 0 <= i < |items| => Refreshed(items[i], Lookup(infos, items[i].productId)))
  }

  predicate AnyMoved(items: seq<Item>, infos: seq<ProductInfo>) {
    exists i :: 0 <= i < |items| && PriceMoved(items[i], Lookup(infos, items[i].productId))
  }

  predicate AnyShort(items: seq<Item>, infos: seq<ProductInfo>) {
    exists i :: 0 <= i < |items| && Short(items[i], Lookup(infos, items[i].productId))
  }

  datatype Verdict = Retry | Untracked | Clean | Drift(items: seq<Item>, subtotal: int, short: bool)

  function Revalidation(items: seq<Item>, got: Reads): Verdict {
    match Resolve(LinesOf(items), got)
    case UnknownSku => Untracked
    case Unreachable => Retry
    case Resolved(infos, answered) =>
      if |items| > 0 && !answered then Retry
      else if !AnyMoved(items, infos) && !AnyShort(items, infos) then Clean
      else Drift(RefreshAll(items, infos), Wrap(Sum(RefreshAll(items, infos))), AnyShort(items, infos))
  }

  // ---- What a verdict says ----

  /** What a line is worth and how much of it can be had, by the two answers alone. */
  lemma LineLookup(items: seq<Item>, prices: seq<PriceInfo>, avail: Availability, i: nat)
    requires i < |items|
    ensures
      var lines, id := LinesOf(items), items[i].productId;
      && LastQuantity(lines, id).Some?
      && Lookup(Merged(lines, prices, avail), id) ==
        if LastPrice(prices, id).None? then None
        else Some(ProductInfo(id, LastPrice(prices, id).value,
               if avail.canFulfill && id !in avail.shortages then LastQuantity(lines, id).value else 0))
  {
    MergedLookup(LinesOf(items), prices, avail, items[i].productId);
    LastQuantityExists(LinesOf(items), i);
  }

  /**
   * A drifted basket takes the prices product quotes now: every line carries its product's price, or the old one if
   * product no longer offers it, and is flagged if that moved it or it is not offered; nothing else changes.
   */
  lemma {:induction false} DriftLines(items: seq<Item>, prices: seq<PriceInfo>, avail: Availability)
    requires Revalidation(items, Reads(Success(prices), Success(avail))).Drift?
    ensures
      var v := Revalidation(items, Reads(Success(prices), Success(avail)));
      && |v.items| == |items| && v.subtotal == Wrap(Sum(v.items))
      && forall i :: 0 <= i < |items| ==>
           var it := items[i];
           var price := LastPrice(prices, it.productId);
           v.items[i] == Item(it.productId, it.nameRunes, it.quantity,
             if price.Some? then price.value else it.unitPrice, it.cartPrice,
             it.priceChanged || price.None? || price.value != it.unitPrice)
  {
    var v := Revalidation(items, Reads(Success(prices), Success(avail)));
    forall i | 0 <= i < |items|
      ensures v.items[i].unitPrice ==
          if LastPrice(prices, items[i].productId).Some? then LastPrice(prices, items[i].productId).value
          else items[i].unitPrice
      ensures v.items[i] == items[i].(unitPrice := v.items[i].unitPrice, priceChanged :=
          items[i].priceChanged || LastPrice(prices, items[i].productId).None?
          || v.items[i].unitPrice != items[i].unitPrice)
    {
      LineLookup(items, prices, avail, i);
    }
  }

  /**
   * It is reported as a shortage exactly when some line is not offered, is not cleared by inventory, or asks for more
   * than the last line of its SKU.
   */
  lemma {:induction false} DriftShort(items: seq<Item>, prices: seq<PriceInfo>, avail: Availability)
    requires Revalidation(items, Reads(Success(prices), Success(avail))).Drift?
    ensures Revalidation(items, Reads(Success(prices), Success(avail))).short <==>
      exists i :: 0 <= i < |items| &&
        var id := items[i].productId;
        || LastPrice(prices, id).None?
        || ((!avail.canFulfill || id in avail.shortages) && items[i].quantity > 0)
        || (avail.canFulfill && id !in avail.shortages && LastQuantity(LinesOf(items), id).Some?
            && items[i].quantity > LastQuantity(LinesOf(items), id).value)
  {
    var infos := Merged(LinesOf(items), prices, avail);
    forall i | 0 <= i < |items|
      ensures Short(items[i], Lookup(infos, items[i].productId)) <==>
          var id := items[i].productId;
          || LastPrice(prices, id).None?
          || ((!avail.canFulfill || id in avail.shortages) && items[i].quantity > 0)
          || (avail.canFulfill && id !in avail.shortages && LastQuantity(LinesOf(items), id).Some?
              && items[i].quantity > LastQuantity(LinesOf(items), id).value)
    {
      LineLookup(items, prices, avail, i);
    }
  }

  /**
   * Requoting reaches a fixed point at once: the requoted lines against the same answers are clean, or short again on
   * the very same lines and subtotal. No price moves twice.
   */
  lemma {:induction false} DriftSettles(items: seq<Item>, got: Reads)
    requires Revalidation(items, got).Drift?
    ensures
      var v := Revalidation(items, got);
      Revalidation(v.items, got) == if v.short then v else Clean
  {
    var v := Revalidation(items, got);
    var infos := Merged(LinesOf(items), got.prices.value, got.avail.value);
    assert LinesOf(v.items) == LinesOf(items);
    forall i | 0 <= i < |items|
      ensures !PriceMoved(v.items[i], Lookup(infos, v.items[i].productId))
      ensures Refreshed(v.items[i], Lookup(infos, v.items[i].productId)) == v.items[i]
      ensures Short(v.items[i], Lookup(infos, v.items[i].productId)) <==>
          Short(items[i], Lookup(infos, items[i].productId))
    {
    }
    assert RefreshAll(v.items, infos) == v.items;
    assert AnyShort(v.items, infos) <==> AnyShort(items, infos) by {
      if AnyShort(items, infos) {
        var i :| 0 <= i < |items| && Short(items[i], Lookup(infos, items[i].productId));
        assert Short(v.items[i], Lookup(infos, v.items[i].productId));
      }
      if AnyShort(v.items, infos) {
        var i :| 0 <= i < |v.items| && Short(v.items[i], Lookup(infos, v.items[i].productId));
        assert Short(items[i], Lookup(infos, items[i].productId));
      }
    }
  }

  /** Unknown availability is reported exactly when both reads answered and inventory does not know a line's SKU. */
  lemma {:induction false} UntrackedIffUnknown(items: seq<Item>, got: Reads)
    ensures Revalidation(items, got) == Untracked <==>
      got.prices.Success? && got.avail.Success?
      && exists i :: 0 <= i < |items| && items[i].productId in got.avail.value.unknown
  {
    if got.prices.Success? && got.avail.Success? {
      var want, unknown := Wanted(LinesOf(items)), got.avail.value.unknown;
      assert forall i :: 0 <= i < |items| ==> LinesOf(items)[i].sku == items[i].productId;
      forall id ensures id in Asked(unknown, want) <==> id in unknown && id in want {
        AskedMembers(unknown, want, id);
      }
      if Asked(unknown, want) != [] { assert Asked(unknown, want)[0] in Asked(unknown, want); }
    }
  }

  /** The last merged row of each product. */
  method IndexById(infos: seq<ProductInfo>) returns (byID: map<string, ProductInfo>)
    ensures forall id :: id in byID <==> Lookup(infos, id).Some?
    ensures forall id :: id in byID ==> Lookup(infos, id) == Some(byID[id])
  {
    byID := map[];
    for n := 0 to |infos|
      invariant forall id :: id in byID <==> Lookup(infos[..n], id).Some?
      invariant forall id :: id in byID ==> Lookup(infos[..n], id) == Some(byID[id])
    {
      assert infos[..n + 1][..n] == infos[..n];
      byID := byID[infos[n].productId := infos[n]];
    }
    assert infos[..|infos|] == infos;
  }

  lemma SumStep(renewed: seq<Item>, it: Item)
    ensures Wrap(Wrap(Sum(renewed)) + Wrap(it.unitPrice * it.quantity)) == Wrap(Sum(renewed + [it]))
  {
    assert (renewed + [it])[..|renewed|] == renewed;
    WrapAdd(Wrap(Sum(renewed)), it.unitPrice * it.quantity);
    WrapAdd(Sum(renewed), it.unitPrice * it.quantity);
  }

  /** subtotal += price * quantity, in int64. */
  method AddLine(lines: seq<Item>, it: Item, subtotal: int) returns (sum: int)
    requires subtotal == Wrap(Sum(lines))
    ensures sum == Wrap(Sum(lines + [it]))
  {
    SumStep(lines, it);
    sum := Wrap(subtotal + Wrap(it.unitPrice * it.quantity));
  }

  /** The line loop: refreshed lines, the running int64 subtotal, and the two drift flags. */
  method RecheckLines(items: seq<Item>, infos: seq<ProductInfo>)
    returns (renewed: seq<Item>, subtotal: int, priceDrift: bool, stockShort: bool)
    ensures renewed == RefreshAll(items, infos)
    ensures forall i :: 0 <= i < |items| ==>
      renewed[i].unitPrice == match Lookup(infos, items[i].productId)
                              case Some(info) => info.unitPrice
                              case None => items[i].unitPrice
    ensures subtotal == Wrap(Sum(renewed))
    ensures priceDrift <==> AnyMoved(items, infos)
    ensures stockShort <==> AnyShort(items, infos)
  {
    var byID := IndexById(infos);
    priceDrift, stockShort, subtotal, renewed := false, false, 0, [];
    for n := 0 to |items|
      invariant renewed == RefreshAll(items[..n], infos)
      invariant subtotal == Wrap(Sum(renewed))
      invariant priceDrift <==> AnyMoved(items[..n], infos)
      invariant stockShort <==> AnyShort(items[..n], infos)
    {
      var it := items[n];
      Extends(items, n, infos);
      if it.productId !in byID {
        stockShort := true;
        it := it.(priceChanged := true);
      } else {
        var info := byID[it.productId];
        if it.quantity > info.available { stockShort := true; }
        if info.unitPrice != it.unitPrice {
          priceDrift := true;
          it := it.(priceChanged := true, unitPrice := info.unitPrice);
        }
      }
      subtotal := AddLine(renewed, it, subtotal);
      renewed := renewed + [it];
    }
    assert items[..|items|] == items;
  }

  /** Price and stock re-validation of a confirming session's lines. */
  method Revalidate(items: seq<Item>, got: Reads) returns (v: Verdict)
    ensures v == Revalidation(items, got)
  {
    var availLines: seq<Line> := [];
    for n := 0 to |items|
      invariant availLines == LinesOf(items[..n])
    {
      availLines := availLines + [Line(items[n].productId, items[n].quantity)];
    }
    assert items[..|items|] == items;
    var r := ResolveCatalog(availLines, got);
    if r.UnknownSku? { return Untracked; }
    if r.Unreachable? || (|items| > 0 && !r.answered) { return Retry; }
    var renewed, subtotal, priceDrift, stockShort := RecheckLines(items, r.infos);
    if !priceDrift && !stockShort { return Clean; }
    v := Drift(renewed, subtotal, stockShort);
  }

  lemma Extends(items: seq<Item>, n: nat, infos: seq<ProductInfo>)
    requires n < |items|
    ensures AnyMoved(items[..n + 1], infos) <==>
      AnyMoved(items[..n], infos) || PriceMoved(items[n], Lookup(infos, items[n].productId))
    ensures AnyShort(items[..n + 1], infos) <==>
      AnyShort(items[..n], infos) || Short(items[n], Lookup(infos, items[n].productId))
  {
    var a, b := items[..n + 1], items[..n];
    assert a[n] == items[n];
    forall i | 0 <= i < n ensures a[i] == b[i] {}
    if AnyMoved(b, infos) {
      var i :| 0 <= i < |b| && PriceMoved(b[i], Lookup(infos, b[i].productId));
      assert PriceMoved(a[i], Lookup(infos, a[i].productId));
    }
    if AnyShort(b, infos) {
      var i :| 0 <= i < |b| && Short(b[i], Lookup(infos, b[i].productId));
      assert Short(a[i], Lookup(infos, a[i].productId));
    }
  }

  // ---- The gate ----

  /** Inventory tells the truth about the basket it was asked: clearing it means every asked total is promisable. */
  predicate Truthful(asked: seq<Line>, avail: Availability, atp: map<string, int>) {
    avail.canFulfill ==> forall i :: 0 <= i < |asked| ==> asked[i].sku in atp && asked[i].quantity <= atp[asked[i].sku]
  }

  /** Every SKU, over ALL its lines, is promisable, and every line's price is the current one. */
  predicate Promisable(items: seq<Item>, prices: seq<PriceInfo>, atp: map<string, int>) {
    forall i :: 0 <= i < |items| ==>
      && LastPrice(prices, items[i].productId) == Some(items[i].unitPrice)
      && items[i].productId in atp
      && Total(LinesOf(items), items[i].productId) <= atp[items[i].productId]
  }

  lemma {:induction false} LastQuantityExists(lines: seq<Line>, i: nat)
    requires i < |lines|
    ensures LastQuantity(lines, lines[i].sku).Some?
    ensures DistinctLines(lines) ==> LastQuantity(lines, lines[i].sku) == Some(lines[i].quantity)
  {
    if i < |lines| - 1 {
      var head := lines[..|lines| - 1];
      LastQuantityExists(head, i);
    }
  }

  lemma {:induction false} TotalBounds(items: seq<Item>, sku: string)
    requires forall i :: 0 <= i < |items| ==> 0 <= items[i].quantity <= 10_000
    ensures 0 <= Total(LinesOf(items), sku) <= |items| * 10_000
  {
    if items != [] {
      TotalBounds(items[..|items| - 1], sku);
      assert LinesOf(items)[..|items| - 1] == LinesOf(items[..|items| - 1]);
    }
  }

  /** A clean verdict on a bounded, non-empty basket means the whole basket can be sold at the shown prices. */
  lemma {:induction false} CleanMeansPromisable(items: seq<Item>, got: Reads, asked: seq<Line>, atp: map<string, int>)
    requires |items| <= 200 && forall i :: 0 <= i < |items| ==> 1 <= items[i].quantity <= 10_000
    requires SkusOf(asked) == FirstSeen(LinesOf(items))
    requires forall i :: 0 <= i < |asked| ==> asked[i].quantity == Wrap(Total(LinesOf(items), asked[i].sku))
    requires got.avail.Success? ==> Truthful(asked, got.avail.value, atp)
    requires Revalidation(items, got) == Clean
    ensures got.prices.Success? && Promisable(items, got.prices.value, atp)
  {
    var lines := LinesOf(items);
    var infos := Merged(lines, got.prices.value, got.avail.value);
    forall i | 0 <= i < |items|
      ensures LastPrice(got.prices.value, items[i].productId) == Some(items[i].unitPrice)
      ensures items[i].productId in atp && Total(lines, items[i].productId) <= atp[items[i].productId]
    {
      var id := items[i].productId;
      MergedLookup(lines, got.prices.value, got.avail.value, id);
      assert !Short(items[i], Lookup(infos, id)) && !PriceMoved(items[i], Lookup(infos, id));
      assert got.avail.value.canFulfill;
      FirstSeenCovers(lines, id);
      assert lines[i].sku == id;
      assert id in SkusOf(asked);
      var j :| 0 <= j < |asked| && asked[j].sku == id;
      TotalBounds(items, id);
    }
  }

  /** No line of a SKU asks for more than the SKU's last line. */
  predicate LastLineCovers(items: seq<Item>) {
    forall i :: 0 <= i < |items| ==>
      LastQuantity(LinesOf(items), items[i].productId).Some?
      && items[i].quantity <= LastQuantity(LinesOf(items), items[i].productId).value
  }

  /**
   * Exactly when re-validation is clean: inventory knows and cleared every line at the shown price, and no line of a
   * repeated SKU exceeds the last line of that SKU.
   */
  lemma {:induction false} CleanIffCleared(items: seq<Item>, prices: seq<PriceInfo>, avail: Availability)
    requires |items| > 0 && forall i :: 0 <= i < |items| ==> items[i].quantity >= 1
    ensures Revalidation(items, Reads(Success(prices), Success(avail))) == Clean <==>
      && Asked(avail.unknown, Wanted(LinesOf(items))) == []
      && avail.canFulfill && LastLineCovers(items)
      && (forall i :: 0 <= i < |items| ==>
           items[i].productId !in avail.shortages && LastPrice(prices, items[i].productId) == Some(items[i].unitPrice))
  {
    var lines := LinesOf(items);
    var infos := Merged(lines, prices, avail);
    forall i | 0 <= i < |items|
      ensures LastQuantity(lines, items[i].productId).Some?
      ensures Lookup(infos, items[i].productId) ==
        if LastPrice(prices, items[i].productId).None? then None
        else Some(ProductInfo(items[i].productId, LastPrice(prices, items[i].productId).value,
               if avail.canFulfill && items[i].productId !in avail.shortages
               then LastQuantity(lines, items[i].productId).value else 0))
    {
      MergedLookup(lines, prices, avail, items[i].productId);
      LastQuantityExists(lines, i);
      assert lines[i].sku == items[i].productId;
    }
    if LastPrice(prices, items[0].productId).Some? {
      PricedRow(prices, items[0].productId);
      assert LinesOf(items)[0].sku == items[0].productId;
    }
    if !AnyMoved(items, infos) && !AnyShort(items, infos) { NothingDrifts(items, prices, avail, infos); }
  }

  lemma NothingDrifts(items: seq<Item>, prices: seq<PriceInfo>, avail: Availability, infos: seq<ProductInfo>)
    requires |items| > 0 && forall i :: 0 <= i < |items| ==> items[i].quantity >= 1
    requires forall i :: 0 <= i < |items| ==>
      && LastQuantity(LinesOf(items), items[i].productId).Some?
      && Lookup(infos, items[i].productId) ==
        if LastPrice(prices, items[i].productId).None? then None
        else Some(ProductInfo(items[i].productId, LastPrice(prices, items[i].productId).value,
               if avail.canFulfill && items[i].productId !in avail.shortages
               then LastQuantity(LinesOf(items), items[i].productId).value else 0))
    requires !AnyMoved(items, infos) && !AnyShort(items, infos)
    ensures avail.canFulfill && LastLineCovers(items)
    ensures forall i :: 0 <= i < |items| ==>
      items[i].productId !in avail.shortages && LastPrice(prices, items[i].productId) == Some(items[i].unitPrice)
  {
    forall i | 0 <= i < |items|
      ensures avail.canFulfill && items[i].productId !in avail.shortages
      ensures LastPrice(prices, items[i].productId) == Some(items[i].unitPrice)
      ensures items[i].quantity <= LastQuantity(LinesOf(items), items[i].productId).value
    {
      assert !Short(items[i], Lookup(infos, items[i].productId));
      assert !PriceMoved(items[i], Lookup(infos, items[i].productId));
    }
    assert items[0].productId !in avail.shortages;
  }

  /** With distinct SKUs the last-line condition is no condition at all. */
  lemma {:induction false} DistinctCovers(items: seq<Item>)
    requires DistinctProducts(items)
    ensures LastLineCovers(items)
  {
    var lines := LinesOf(items);
    forall i | 0 <= i < |items| ensures LastQuantity(lines, items[i].productId) == Some(items[i].quantity) {
      assert lines[i].sku == items[i].productId;
      LastQuantityExists(lines, i);
    }
  }

  lemma {:induction false} PricedRow(prices: seq<PriceInfo>, id: string)
    requires LastPrice(prices, id).Some?
    ensures exists i :: 0 <= i < |prices| && prices[i].productId == id
  {
    if !(prices[|prices| - 1].productId == id && Chargeable(prices[|prices| - 1])) {
      PricedRow(prices[..|prices| - 1], id);
      var i :| 0 <= i < |prices| - 1 && prices[..|prices| - 1][i].productId == id;
      assert prices[i].productId == id;
    }
  }

  /**
   * Trouble is never misread: a failed read or an answer about nothing we asked always retries, and once both
   * authorities answered about this basket the verdict is never a retry, however the merge filtered it.
   */
  lemma {:induction false} RetryIffUnanswered(items: seq<Item>, got: Reads)
    requires |items| > 0
    ensures Revalidation(items, got) == Retry <==>
      || got.prices.Failure? || got.avail.Failure?
      || ((forall i :: 0 <= i < |items| ==> items[i].productId !in got.avail.value.unknown)
          && (forall i, j :: 0 <= i < |items| && 0 <= j < |got.prices.value| ==>
               got.prices.value[j].productId != items[i].productId))
  {
    if got.prices.Success? && got.avail.Success? {
      var want := Wanted(LinesOf(items));
      assert forall i :: 0 <= i < |items| ==> LinesOf(items)[i].sku == items[i].productId;
      assert forall id :: id in want <==> exists i :: 0 <= i < |items| && items[i].productId == id;
      var unknown := got.avail.value.unknown;
      forall id ensures id in Asked(unknown, want) <==> id in unknown && id in want {
        AskedMembers(unknown, want, id);
      }
      if Asked(unknown, want) != [] {
        assert Asked(unknown, want)[0] in Asked(unknown, want);
      }
    }
  }

  /**
   * Repeated SKUs lose completeness: inventory clears five units over two lines, and the gate still reports a shortage.
   */
  lemma {:induction false} RepeatedSkuBlocked()
    ensures
      var items := [Item("7", 1, 3, 10, 10, false), Item("7", 1, 2, 10, 10, false)];
      var got := Reads(Success([PriceInfo("7", 10, "USD", true)]), Success(Availability(true, [], [])));
      Revalidation(items, got).Drift? && Revalidation(items, got).short
  {
    var items := [Item("7", 1, 3, 10, 10, false), Item("7", 1, 2, 10, 10, false)];
    var prices := [PriceInfo("7", 10, "USD", true)];
    var avail := Availability(true, [], []);
    var lines := LinesOf(items);
    assert lines == [Line("7", 3), Line("7", 2)];
    MergedLookup(lines, prices, avail, "7");
    assert LastQuantity(lines, "7") == Some(2);
    assert LastPrice(prices, "7") == Some(10);
    assert Short(items[0], Lookup(Merged(lines, prices, avail), "7"));
    assert prices[0].productId in Wanted(lines) by { assert lines[0].sku == "7"; }
  }
}
