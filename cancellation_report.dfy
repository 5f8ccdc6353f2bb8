/** The cancellation box: the number of orders, the number cancelled, and
    the cancelled share as a percentage, 0 without orders. */
module CancellationRateReport {
  import Analytics

  function CountCancelled(orders: seq<Analytics.Order>): (n: nat)
    ensures n <= |orders|
  {
    if |orders| == 0 then 0
    else CountCancelled(orders[..|orders| - 1]) + (if orders[|orders| - 1].status == "cancelled" then 1 else 0)
  }

  datatype Rate = Rate(total: nat, cancelled: nat, percentage: real)

  /** The `useMemo` result. */
  function CancellationRate(orders: seq<Analytics.Order>): (r: Rate)
    ensures r.total == |orders| && r.cancelled == CountCancelled(orders) && r.cancelled <= r.total
    ensures r.total == 0 ==> r.percentage == 0.0
    ensures r.total > 0 ==> r.percentage * (r.total as real) == (r.cancelled as real) * 100.0
    ensures 0.0 <= r.percentage <= 100.0
  {
    var total := |orders|;
    var cancelled := CountCancelled(orders);
    if total == 0 then Rate(0, cancelled, 0.0)
    else
      var part, whole := cancelled as real, total as real;
      PercentBounds(part, whole);
      Rate(total, cancelled, (part / whole) * 100.0)
  }

  /** A part over a positive whole, as a percentage, lies between 0 and 100. */
  lemma PercentBounds(part: real, whole: real)
    requires 0.0 <= part <= whole && whole > 0.0
    ensures 0.0 <= (part / whole) * 100.0 <= 100.0
    ensures ((part / whole) * 100.0) * whole == part * 100.0
  {
    var q := part / whole;
    assert q * whole == part;
    assert 0.0 <= q <= 1.0;
  }

  /** The count reaches the number of orders exactly when every order is
      cancelled, and is 0 exactly when none is. */
  lemma {:induction false} CountExtremes(orders: seq<Analytics.Order>)
    ensures CountCancelled(orders) == |orders| <==> forall i :: 0 <= i < |orders| ==> orders[i].status == "cancelled"
    ensures CountCancelled(orders) == 0 <==> forall i :: 0 <= i < |orders| ==> orders[i].status != "cancelled"
  {
    if |orders| > 0 {
      var n := |orders| - 1;
      CountExtremes(orders[..n]);
      assert forall i :: 0 <= i < n ==> orders[..n][i] == orders[i];
    }
  }

  /** The rate is 100% exactly when every order is cancelled and 0% exactly
      when none is. */
  lemma RateExtremes(orders: seq<Analytics.Order>)
    requires |orders| > 0
    ensures CancellationRate(orders).percentage == 100.0 <==> forall i :: 0 <= i < |orders| ==> orders[i].status == "cancelled"
    ensures CancellationRate(orders).percentage == 0.0 <==> forall i :: 0 <= i < |orders| ==> orders[i].status != "cancelled"
  {
    CountExtremes(orders);
    var r := CancellationRate(orders);
    PercentExtremes(r.percentage, r.cancelled as real, r.total as real);
  }

  /** A percentage `p` of `part` over `whole` is 100 exactly when the part is
      the whole, and 0 exactly when the part is 0. */
  lemma PercentExtremes(p: real, part: real, whole: real)
    requires whole > 0.0 && p * whole == part * 100.0
    ensures p == 100.0 <==> part == whole
    ensures p == 0.0 <==> part == 0.0
  {
    if part == whole {
      assert (p - 100.0) * whole == 0.0;
    }
    if part == 0.0 {
      assert p * whole == 0.0;
    }
    if p == 100.0 {
      assert part * 100.0 == whole * 100.0;
    }
  }
}
