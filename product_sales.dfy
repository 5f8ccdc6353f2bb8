/** The best-sellers chart: the items of the listed orders, normalised,
    grouped per product with their quantities summed, sorted by quantity
    from high to low, and cut to ten bars. */
module ProductSalesReport {
  import opened Wrappers
  import opened Strings
  import opened Tally
  import Analytics

  datatype ProductRef = ProductRef(name: string)

  /** The joined `products` column as it may arrive: an array, one object, or null. */
  datatype Joined = Many(refs: seq<ProductRef>) | One(only: ProductRef) | NoProduct

  datatype RawItem = RawItem(productId: string, quantity: int, products: Joined)

  /** An item after normalisation: at most one product. */
  datatype Item = Item(productId: string, quantity: int, product: Option<ProductRef>)

  const Unknown: ProductRef := ProductRef("Desconocido")

  /** An array becomes its first element, or "Desconocido" when empty; a
      single object or null passes through. */
  function Normalize(raw: RawItem): (item: Item)
    ensures item.productId == raw.productId && item.quantity == raw.quantity
    ensures raw.products.Many? && |raw.products.refs| > 0 ==> item.product == Some(raw.products.refs[0])
    ensures raw.products.Many? && |raw.products.refs| == 0 ==> item.product == Some(Unknown)
    ensures raw.products.One? ==> item.product == Some(raw.products.only)
    ensures raw.products.NoProduct? <==> item.product.None?
  {
    var product := match raw.products
      case Many(refs) => Some(if |refs| > 0 then refs[0] else Unknown)
      case One(p) => Some(p)
      case NoProduct => None;
    Item(raw.productId, raw.quantity, product)
  }

  function NormalizeAll(raws: seq<RawItem>): (items: seq<Item>)
    ensures |items| == |raws|
    ensures forall i :: 0 <= i < |raws| ==> items[i] == Normalize(raws[i])
  {
    if |raws| == 0 then [] else [Normalize(raws[0])] + NormalizeAll(raws[1..])
  }

  /** lodash `capitalize` on ASCII text: first letter upper case, the rest lower case. */
  function Capitalize(s: string): (r: string)
    ensures |r| == |s|
    ensures |s| > 0 ==> r[0] == UpperChar(s[0])
    ensures forall i :: 0 < i < |s| ==> r[i] == LowerChar(s[i])
  {
    if |s| == 0 then "" else [UpperChar(s[0])] + ToLower(s[1..])
  }

  /** `capitalize(item.products?.name) || "Producto"` */
  function DisplayName(item: Item): (name: string)
    ensures name != ""
    ensures item.product.None? || item.product.value.name == "" ==> name == "Producto"
    ensures item.product.Some? && item.product.value.name != "" ==> name == Capitalize(item.product.value.name)
  {
    if item.product.Some? && item.product.value.name != "" then Capitalize(item.product.value.name) else "Producto"
  }

  datatype ProductSales = ProductSales(productId: string, name: string, quantity: int)

  /** Each item adds its quantity under its product id. */
  function QuantityPairs(items: seq<Item>): (pairs: seq<(string, int)>)
    ensures |pairs| == |items|
    ensures forall i :: 0 <= i < |items| ==> pairs[i] == (items[i].productId, items[i].quantity)
  {
    if |items| == 0 then []
    else
      var n := |items| - 1;
      QuantityPairs(items[..n]) + [(items[n].productId, items[n].quantity)]
  }

  /** The names the loop records: a product's name is set when the product
      is first seen and never changed after. */
  function NamesOf(items: seq<Item>): (names: map<string, string>)
  {
    if |items| == 0 then map[]
    else
      var n := |items| - 1;
      var m := NamesOf(items[..n]);
      var x := items[n];
      assert items[..n] == items[..n];
      if x.productId in m then m else m[x.productId := DisplayName(x)]
  }

  /** A name is recorded for exactly the product ids that occur. */
  lemma {:induction false} NamesOfKeys(items: seq<Item>)
    ensures forall k :: k in NamesOf(items) <==> k in KeysOf(QuantityPairs(items))
  {
    if |items| > 0 {
      var n := |items| - 1;
      NamesOfKeys(items[..n]);
      var p := (items[n].productId, items[n].quantity);
      assert QuantityPairs(items) == QuantityPairs(items[..n]) + [p];
      TallyOfSnoc(QuantityPairs(items[..n]), p);
    }
  }

  /** An entry's name is the name of the first item of that product. */
  lemma {:induction false} FirstNameKept(items: seq<Item>, k: string, j: int)
    requires 0 <= j < |items| && items[j].productId == k
    requires forall i :: 0 <= i < j ==> items[i].productId != k
    ensures k in NamesOf(items) && NamesOf(items)[k] == DisplayName(items[j])
  {
    var n := |items| - 1;
    var init := items[..n];
    if j < n {
      forall i | 0 <= i < j ensures init[i].productId != k {
        assert init[i] == items[i];
      }
      FirstNameKept(init, k, j);
      NamesOfKeeps(items, k);
    } else {
      var pairs := QuantityPairs(init);
      forall i | 0 <= i < |pairs| ensures pairs[i].0 != k {
        assert pairs[i].0 == items[i].productId;
      }
      KeysOfMissing(pairs, k);
      NamesOfKeys(init);
      NamesOfAdds(items);
    }
  }

  lemma NamesOfKeeps(items: seq<Item>, k: string)
    requires |items| > 0 && k in NamesOf(items[..|items| - 1])
    ensures k in NamesOf(items) && NamesOf(items)[k] == NamesOf(items[..|items| - 1])[k]
  {
  }

  lemma NamesOfAdds(items: seq<Item>)
    requires |items| > 0 && items[|items| - 1].productId !in NamesOf(items[..|items| - 1])
    ensures items[|items| - 1].productId in NamesOf(items)
    ensures NamesOf(items)[items[|items| - 1].productId] == DisplayName(items[|items| - 1])
  {
  }

  lemma {:induction false} KeysOfMissing(pairs: seq<(string, int)>, k: string)
    requires forall i :: 0 <= i < |pairs| ==> pairs[i].0 != k
    ensures k !in KeysOf(pairs)
  {
    if |pairs| > 0 {
      KeysOfMissing(pairs[..|pairs| - 1], k);
    }
  }

  function QuantitySum(values: seq<ProductSales>): int
  {
    if |values| == 0 then 0 else QuantitySum(values[..|values| - 1]) + values[|values| - 1].quantity
  }

  /** `Object.values(grouped)`: the grouped entries, in first-seen order. */
  function Values(entries: seq<(string, int)>, names: map<string, string>): (values: seq<ProductSales>)
    requires forall i :: 0 <= i < |entries| ==> entries[i].0 in names
    ensures |values| == |entries|
    ensures forall i :: 0 <= i < |entries| ==> values[i] == ProductSales(entries[i].0, names[entries[i].0], entries[i].1)
    ensures QuantitySum(values) == SumAll(entries)
  {
    if |entries| == 0 then []
    else
      var init := Values(entries[..|entries| - 1], names);
      var e := entries[|entries| - 1];
      var values := init + [ProductSales(e.0, names[e.0], e.1)];
      assert values[..|values| - 1] == init;
      values
  }

  /** The grouped products before sorting. */
  function Grouped(items: seq<Item>): seq<ProductSales>
  {
    var t := TallyOf(QuantityPairs(items));
    NamesOfKeys(items);
    Values(Entries(t), NamesOf(items))
  }

  /** The `for` loop over the normalised items: the running quantity per
      product id, in first-seen order, and each product's name. */
  method GroupLoop(items: seq<Item>) returns (grouped: Tally, names: map<string, string>)
    ensures grouped == TallyOf(QuantityPairs(items))
    ensures names == NamesOf(items)
  {
    grouped := Tally([], map[]);
    names := map[];
    var i := 0;
    while i < |items|
      invariant 0 <= i <= |items|
      invariant grouped == TallyOf(QuantityPairs(items[..i]))
      invariant names == NamesOf(items[..i])
    {
      var item := items[i];
      GroupStep(items, i);
      if item.productId !in names {
        names := names[item.productId := DisplayName(item)];
      }
      grouped := Add(grouped, item.productId, item.quantity);
      i := i + 1;
    }
    assert items[..i] == items;
  }

  /** The loop, then `Object.values(grouped)`. */
  method Group(items: seq<Item>) returns (values: seq<ProductSales>)
    ensures values == Grouped(items)
  {
    var grouped, names := GroupLoop(items);
    NamesOfKeys(items);
    values := Values(Entries(grouped), names);
  }

  /** One more item: its quantity is added under its id, and its name is
      recorded unless the id was already seen. */
  lemma GroupStep(items: seq<Item>, i: int)
    requires 0 <= i < |items|
    ensures TallyOf(QuantityPairs(items[..i + 1])) == Add(TallyOf(QuantityPairs(items[..i])), items[i].productId, items[i].quantity)
    ensures NamesOf(items[..i + 1]) ==
      var m := NamesOf(items[..i]);
      if items[i].productId in m then m else m[items[i].productId := DisplayName(items[i])]
  {
    var pre, next := items[..i], items[..i + 1];
    assert next[..i] == pre;
    var p := (items[i].productId, items[i].quantity);
    assert QuantityPairs(next) == QuantityPairs(pre) + [p];
    TallyOfSnoc(QuantityPairs(pre), p);
  }

  function TotalQuantity(items: seq<Item>): int
  {
    if |items| == 0 then 0 else TotalQuantity(items[..|items| - 1]) + items[|items| - 1].quantity
  }

  lemma {:induction false} PairsTotalQuantity(items: seq<Item>)
    ensures SumAll(QuantityPairs(items)) == TotalQuantity(items)
  {
    if |items| > 0 {
      var n := |items| - 1;
      PairsTotalQuantity(items[..n]);
      assert QuantityPairs(items)[..n] == QuantityPairs(items[..n]);
    }
  }

  /** One entry per distinct product id. */
  lemma GroupedDistinct(items: seq<Item>)
    ensures forall i, j :: 0 <= i < j < |Grouped(items)| ==> Grouped(items)[i].productId != Grouped(items)[j].productId
  {
    var t := TallyOf(QuantityPairs(items));
    var g := Grouped(items);
    forall i, j | 0 <= i < j < |g| ensures g[i].productId != g[j].productId {
      assert g[i].productId == t.keys[i] && g[j].productId == t.keys[j];
    }
  }

  /** Each entry sums its product's quantities and carries the name of the
      product's first item. */
  lemma {:induction false} GroupedEntry(items: seq<Item>, i: int, j: int)
    requires 0 <= i < |Grouped(items)|
    requires 0 <= j < |items| && items[j].productId == Grouped(items)[i].productId
    requires forall l :: 0 <= l < j ==> items[l].productId != Grouped(items)[i].productId
    ensures Grouped(items)[i].quantity == SumFor(QuantityPairs(items), items[j].productId)
    ensures Grouped(items)[i].name == DisplayName(items[j])
  {
    var pairs := QuantityPairs(items);
    var t := TallyOf(pairs);
    var k := t.keys[i];
    NamesOfKeys(items);
    assert Grouped(items)[i] == ProductSales(k, NamesOf(items)[k], t.sums[k]);
    TallySums(pairs, k);
    FirstNameKept(items, k, j);
  }

  /** Every product that was sold has an entry. */
  lemma GroupedCovers(items: seq<Item>, j: int)
    requires 0 <= j < |items|
    ensures exists i :: 0 <= i < |Grouped(items)| && Grouped(items)[i].productId == items[j].productId
  {
    var pairs := QuantityPairs(items);
    var t := TallyOf(pairs);
    assert pairs[j].0 in KeysOf(pairs);
    var i :| 0 <= i < |t.keys| && t.keys[i] == items[j].productId;
    assert Grouped(items)[i].productId == t.keys[i];
  }

  /** Grouping conserves the quantity sold. */
  lemma GroupedTotal(items: seq<Item>)
    ensures QuantitySum(Grouped(items)) == TotalQuantity(items)
  {
    TallyTotal(QuantityPairs(items));
    PairsTotalQuantity(items);
  }

  // ---------------------------------------------------------------- Sorting

  predicate NonIncreasing(s: seq<ProductSales>)
  {
    forall i, j :: 0 <= i < j < |s| ==> s[i].quantity >= s[j].quantity
  }

  /** Puts `x` before the first entry it is not below, so equal quantities
      keep their order. */
  function Insert(x: ProductSales, s: seq<ProductSales>): (r: seq<ProductSales>)
    requires NonIncreasing(s)
    ensures NonIncreasing(r)
    ensures multiset(r) == multiset(s) + multiset{x}
    ensures |r| == |s| + 1
    ensures r[0] == x || (|s| > 0 && r[0] == s[0])
  {
    if |s| == 0 || s[0].quantity <= x.quantity then [x] + s
    else
      TailNonIncreasing(s);
      var rest := Insert(x, s[1..]);
      InsertStep(x, s, rest);
      [s[0]] + rest
  }

  lemma InsertStep(x: ProductSales, s: seq<ProductSales>, rest: seq<ProductSales>)
    requires NonIncreasing(s) && |s| > 0 && s[0].quantity > x.quantity
    requires NonIncreasing(rest) && |rest| == |s|
    requires rest[0] == x || (|s| > 1 && rest[0] == s[1])
    requires multiset(rest) == multiset(s[1..]) + multiset{x}
    ensures NonIncreasing([s[0]] + rest)
    ensures multiset([s[0]] + rest) == multiset(s) + multiset{x}
  {
    assert s == [s[0]] + s[1..];
    var r := [s[0]] + rest;
    assert s[0].quantity >= rest[0].quantity by {
      if rest[0] != x {
        assert s[0].quantity >= s[1].quantity;
      }
    }
    forall i, j | 0 <= i < j < |r| ensures r[i].quantity >= r[j].quantity {
      if i == 0 {
        assert r[j] == rest[j - 1];
        assert rest[j - 1].quantity <= rest[0].quantity;
      } else {
        assert r[i] == rest[i - 1] && r[j] == rest[j - 1];
      }
    }
  }

  lemma TailNonIncreasing(s: seq<ProductSales>)
    requires NonIncreasing(s) && |s| > 0
    ensures NonIncreasing(s[1..])
  {
    var t := s[1..];
    forall i, j | 0 <= i < j < |t| ensures t[i].quantity >= t[j].quantity {
      assert t[i] == s[i + 1] && t[j] == s[j + 1];
    }
  }

  /** `.sort((a, b) => b.quantity - a.quantity)`: non-increasing by quantity,
      and a permutation of its input. */
  function SortDesc(s: seq<ProductSales>): (r: seq<ProductSales>)
    ensures NonIncreasing(r)
    ensures multiset(r) == multiset(s)
    ensures |r| == |s|
  {
    if |s| == 0 then []
    else
      assert s == [s[0]] + s[1..];
      Insert(s[0], SortDesc(s[1..]))
  }

  /** `data.slice(0, 10)`: what the bar chart shows. */
  function Chart(data: seq<ProductSales>): (bars: seq<ProductSales>)
    ensures |bars| <= 10
    ensures bars <= data
    ensures |data| <= 10 ==> bars == data
    ensures |data| > 10 ==> |bars| == 10
  {
    if |data| <= 10 then data else data[..10]
  }

  /** On sorted data the chart shows the best sellers: no product left out
      sold more than one shown. */
  lemma ChartShowsTop(data: seq<ProductSales>, shown: ProductSales, j: int)
    requires NonIncreasing(data)
    requires shown in Chart(data)
    requires |Chart(data)| <= j < |data|
    ensures shown.quantity >= data[j].quantity
  {
    var bars := Chart(data);
    var i :| 0 <= i < |bars| && bars[i] == shown;
    assert data[i] == shown;
  }

  /** The report's state: the sorted entries and the loading flag. */
  class Report {
    var data: seq<ProductSales>
    var loading: bool

    constructor()
      ensures data == [] && loading
    {
      data := [];
      loading := true;
    }

    /** The effect on `orders`. No orders: empty data and no request.
        Otherwise the items of the listed orders are requested; a failed
        request keeps the previous data. */
    method OnOrders(orders: seq<Analytics.Order>, fetched: Option<seq<RawItem>>) returns (requested: Option<seq<string>>)
      modifies this
      ensures !loading
      ensures |orders| == 0 ==> requested == None && data == []
      ensures |orders| > 0 ==> requested.Some? && |requested.value| == |orders|
      ensures |orders| > 0 ==> forall i :: 0 <= i < |orders| ==> requested.value[i] == orders[i].id
      ensures |orders| > 0 && fetched.None? ==> data == old(data)
      ensures |orders| > 0 && fetched.Some? ==> data == SortDesc(Grouped(NormalizeAll(fetched.value)))
    {
      if |orders| > 0 {
        loading := true;
        requested := Some(seq(|orders|, i requires 0 <= i < |orders| => orders[i].id));
        if fetched.None? {
          loading := false;
          return;
        }
        var items := NormalizeAll(fetched.value);
        var grouped := Group(items);
        data := SortDesc(grouped);
        loading := false;
      } else {
        requested := None;
        loading := false;
        data := [];
      }
    }
  }
}
