/** The weekday bar chart: seven buckets, Sunday first, each counting the
    orders placed on that day of the week. */
module WeekdayOrdersReport {
  import opened Dates
  import Analytics

  const Days: seq<string> := ["Dom", "Lun", "Mar", "Mié", "Jue", "Vie", "Sáb"]

  /** A bar: `{ day, cantidad }`. */
  datatype Bar = Bar(day: string, cantidad: int)

  /** The number of orders placed on weekday `d`. */
  function CountOn(orders: seq<Analytics.Order>, d: int): (n: nat)
    ensures n <= |orders|
  {
    if |orders| == 0 then 0
    else CountOn(orders[..|orders| - 1], d) + (if orders[|orders| - 1].createdAt.weekday == d then 1 else 0)
  }

  /** The counts of the seven weekdays, in order. */
  function Buckets(orders: seq<Analytics.Order>): (r: seq<nat>)
    ensures |r| == 7
    ensures forall d :: 0 <= d < 7 ==> r[d] == CountOn(orders, d)
  {
    seq(7, d requires 0 <= d < 7 => CountOn(orders, d))
  }

  /** Every order lands in exactly one bucket, so the buckets add up to the
      number of orders. */
  lemma {:induction false} BucketsSumToLength(orders: seq<Analytics.Order>)
    ensures CountOn(orders, 0) + CountOn(orders, 1) + CountOn(orders, 2) + CountOn(orders, 3) +
      CountOn(orders, 4) + CountOn(orders, 5) + CountOn(orders, 6) == |orders|
  {
    if |orders| > 0 {
      BucketsSumToLength(orders[..|orders| - 1]);
    }
  }

  /** The `useMemo` body: an array of seven zeros, bumped once per order. */
  method WeekdayData(orders: seq<Analytics.Order>) returns (data: seq<Bar>)
    ensures |data| == 7
    ensures forall d :: 0 <= d < 7 ==> data[d] == Bar(Days[d], CountOn(orders, d))
  {
    var counts := new int[7](_ => 0);
    var i := 0;
    while i < |orders|
      invariant 0 <= i <= |orders|
      invariant forall d :: 0 <= d < 7 ==> counts[d] == CountOn(orders[..i], d)
    {
      var day := orders[i].createdAt.weekday;
      assert orders[..i + 1][..i] == orders[..i];
      counts[day] := counts[day] + 1;
      i := i + 1;
    }
    assert orders[..i] == orders;
    var c := counts[..];
    data := seq(7, d requires 0 <= d < 7 => Bar(Days[d], c[d]));
  }

  /** No orders: seven empty bars. */
  lemma NoOrdersNoBars(orders: seq<Analytics.Order>)
    requires |orders| == 0
    ensures Buckets(orders) == [0, 0, 0, 0, 0, 0, 0]
  {
  }
}
