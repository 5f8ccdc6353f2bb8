/** The payment-method pie: a count of orders per payment method, with a
    missing or empty method counted as "Otro". */
module PaymentMethodReport {
  import opened Tally
  import Analytics

  const Fallback: string := "Otro"

  /** `order.payment_method || "Otro"` */
  function MethodOf(o: Analytics.Order): (m: string)
    ensures m != ""
    ensures o.paymentMethod.Some? && o.paymentMethod.value != "" ==> m == o.paymentMethod.value
    ensures o.paymentMethod.None? || o.paymentMethod.value == "" ==> m == Fallback
  {
    if o.paymentMethod.Some? && o.paymentMethod.value != "" then o.paymentMethod.value else Fallback
  }

  /** Each order adds 1 under its method. */
  function MethodPairs(orders: seq<Analytics.Order>): (pairs: seq<(string, int)>)
    ensures |pairs| == |orders|
    ensures forall i :: 0 <= i < |orders| ==> pairs[i] == (MethodOf(orders[i]), 1)
  {
    seq(|orders|, i requires 0 <= i < |orders| => (MethodOf(orders[i]), 1))
  }

  /** The number of orders counted under `m`. */
  function CountWith(orders: seq<Analytics.Order>, m: string): (n: nat)
    ensures n <= |orders|
  {
    if |orders| == 0 then 0
    else CountWith(orders[..|orders| - 1], m) + (if MethodOf(orders[|orders| - 1]) == m then 1 else 0)
  }

  /** A pie slice: `{ name, value }`. */
  datatype Slice = Slice(name: string, value: int)

  function ToSlices(entries: seq<(string, int)>): (r: seq<Slice>)
    ensures |r| == |entries|
    ensures forall i :: 0 <= i < |entries| ==> r[i] == Slice(entries[i].0, entries[i].1)
  {
    if |entries| == 0 then [] else [Slice(entries[0].0, entries[0].1)] + ToSlices(entries[1..])
  }

  /** The chart data the effect computes. */
  function ChartData(orders: seq<Analytics.Order>): seq<Slice>
  {
    ToSlices(Entries(TallyOf(MethodPairs(orders))))
  }

  /** The effect's loop over the orders. */
  method GroupByMethod(orders: seq<Analytics.Order>) returns (data: seq<Slice>)
    ensures data == ChartData(orders)
  {
    var grouped := Tally([], map[]);
    var i := 0;
    while i < |orders|
      invariant 0 <= i <= |orders|
      invariant grouped == TallyOf(MethodPairs(orders[..i]))
    {
      var m := MethodOf(orders[i]);
      MethodStep(orders, i);
      grouped := Add(grouped, m, 1);
      i := i + 1;
    }
    assert orders[..i] == orders;
    assert grouped == TallyOf(MethodPairs(orders));
    data := ToSlices(Entries(grouped));
  }

  /** One more order counts once under its method. */
  lemma MethodStep(orders: seq<Analytics.Order>, i: int)
    requires 0 <= i < |orders|
    ensures TallyOf(MethodPairs(orders[..i + 1])) == Add(TallyOf(MethodPairs(orders[..i])), MethodOf(orders[i]), 1)
  {
    var p := (MethodOf(orders[i]), 1);
    assert MethodPairs(orders[..i + 1]) == MethodPairs(orders[..i]) + [p];
    TallyOfSnoc(MethodPairs(orders[..i]), p);
  }

  lemma {:induction false} CountsArePairSums(orders: seq<Analytics.Order>, m: string)
    ensures SumFor(MethodPairs(orders), m) == CountWith(orders, m)
  {
    if |orders| > 0 {
      var n := |orders| - 1;
      CountsArePairSums(orders[..n], m);
      assert MethodPairs(orders)[..n] == MethodPairs(orders[..n]);
    }
  }

  lemma {:induction false} PairsSumToLength(orders: seq<Analytics.Order>)
    ensures SumAll(MethodPairs(orders)) == |orders|
  {
    if |orders| > 0 {
      var n := |orders| - 1;
      PairsSumToLength(orders[..n]);
      assert MethodPairs(orders)[..n] == MethodPairs(orders[..n]);
    }
  }

  function SliceSum(data: seq<Slice>): int
  {
    if |data| == 0 then 0 else data[0].value + SliceSum(data[1..])
  }

  lemma {:induction false} SliceSumIsSumAll(entries: seq<(string, int)>)
    ensures SliceSum(ToSlices(entries)) == SumAll(entries)
  {
    if |entries| > 0 {
      SliceSumIsSumAll(entries[1..]);
      SumAllCons(entries);
    }
  }

  lemma {:induction false} SumAllCons(entries: seq<(string, int)>)
    requires |entries| > 0
    ensures SumAll(entries) == entries[0].1 + SumAll(entries[1..])
  {
    if |entries| > 1 {
      var n := |entries| - 1;
      SumAllCons(entries[..n]);
      assert entries[..n][1..] == entries[1..][..n - 1];
    }
  }

  /** One slice per distinct method. */
  lemma ChartDataDistinct(orders: seq<Analytics.Order>)
    ensures forall i, j :: 0 <= i < j < |ChartData(orders)| ==> ChartData(orders)[i].name != ChartData(orders)[j].name
  {
    var t := TallyOf(MethodPairs(orders));
    var data := ToSlices(Entries(t));
    assert DistinctKeys(t.keys);
    forall i, j | 0 <= i < j < |data| ensures data[i].name != data[j].name {
      assert data[i].name == t.keys[i] && data[j].name == t.keys[j];
    }
  }

  /** Each slice counts the orders paid its way, and is never 0. */
  lemma ChartDataCount(orders: seq<Analytics.Order>, i: int)
    requires 0 <= i < |ChartData(orders)|
    ensures ChartData(orders)[i].value == CountWith(orders, ChartData(orders)[i].name) >= 1
  {
    var pairs := MethodPairs(orders);
    var t := TallyOf(pairs);
    var data := ToSlices(Entries(t));
    var k := t.keys[i];
    assert data[i] == Slice(k, t.sums[k]);
    assert k in KeysOf(pairs);
    TallySums(pairs, k);
    SumForPositive(pairs, k);
    CountsArePairSums(orders, k);
  }

  /** The counts add up to the number of orders; no orders, no slices. */
  lemma ChartDataTotal(orders: seq<Analytics.Order>)
    ensures SliceSum(ChartData(orders)) == |orders|
    ensures |orders| == 0 ==> ChartData(orders) == []
  {
    var pairs := MethodPairs(orders);
    TallyTotal(pairs);
    PairsSumToLength(orders);
    SliceSumIsSumAll(Entries(TallyOf(pairs)));
  }
}
