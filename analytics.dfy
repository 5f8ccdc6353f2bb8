/** The analytics page: the per-day totals, the month filter, the month's
    total and average, and the CSV report. */
module Analytics {
  import opened Wrappers
  import opened Strings
  import opened Dates
  import opened Tally

  /** The columns the page selects from `orders`; `createdAt` is the parsed
      `created_at`, and money is whole pesos. */
  datatype Order = Order(id: string, createdAt: Stamp, total: int, status: string, paymentMethod: Option<string>)

  datatype DailyTotal = DailyTotal(date: string, total: int)

  /** `orders.reduce((acc, o) => acc + o.total, 0)` */
  function Total(orders: seq<Order>): int
  {
    if |orders| == 0 then 0 else Total(orders[..|orders| - 1]) + orders[|orders| - 1].total
  }

  /** The (day key, total) pair each order adds to the daily record. */
  function DailyPairs(orders: seq<Order>): (pairs: seq<(string, int)>)
    ensures |pairs| == |orders|
    ensures forall i :: 0 <= i < |orders| ==> pairs[i] == (DayKey(orders[i].createdAt), orders[i].total)
  {
    seq(|orders|, i requires 0 <= i < |orders| => (DayKey(orders[i].createdAt), orders[i].total))
  }

  lemma {:induction false} DailyPairsTotal(orders: seq<Order>)
    ensures SumAll(DailyPairs(orders)) == Total(orders)
  {
    if |orders| > 0 {
      var n := |orders| - 1;
      DailyPairsTotal(orders[..n]);
      assert DailyPairs(orders)[..n] == DailyPairs(orders[..n]);
    }
  }

  function DailySum(daily: seq<DailyTotal>): int
  {
    if |daily| == 0 then 0 else DailySum(daily[..|daily| - 1]) + daily[|daily| - 1].total
  }

  /** `.map(([date, total]) => ({ date, total }))` */
  function ToDaily(entries: seq<(string, int)>): (daily: seq<DailyTotal>)
    ensures |daily| == |entries|
    ensures forall i :: 0 <= i < |entries| ==> daily[i] == DailyTotal(entries[i].0, entries[i].1)
    ensures DailySum(daily) == SumAll(entries)
  {
    if |entries| == 0 then []
    else
      var init := ToDaily(entries[..|entries| - 1]);
      var last := entries[|entries| - 1];
      var daily := init + [DailyTotal(last.0, last.1)];
      assert daily[..|daily| - 1] == init;
      daily
  }

  /** What `getDailyTotals` returns: the record's entries as objects. */
  function DailyTotals(orders: seq<Order>): seq<DailyTotal>
  {
    ToDaily(Entries(TallyOf(DailyPairs(orders))))
  }

  /** The daily totals have one entry per distinct day key, in first-seen
      order, each holding the sum of that day's totals. */
  lemma DailyTotalsPerDay(orders: seq<Order>)
    ensures forall i, j :: 0 <= i < j < |DailyTotals(orders)| ==> DailyTotals(orders)[i].date != DailyTotals(orders)[j].date
    ensures forall i :: 0 <= i < |DailyTotals(orders)| ==>
      DailyTotals(orders)[i].total == SumFor(DailyPairs(orders), DailyTotals(orders)[i].date)
  {
    var e := Entries(TallyOf(DailyPairs(orders)));
    assert DailyTotals(orders) == ToDaily(e);
    EntriesDistinct(DailyPairs(orders));
    EntriesSums(DailyPairs(orders));
  }

  lemma ToDailyKeys(e: seq<(string, int)>, k: string)
    ensures (exists i :: 0 <= i < |e| && e[i].0 == k) ==> exists i :: 0 <= i < |ToDaily(e)| && ToDaily(e)[i].date == k
    ensures (exists i :: 0 <= i < |ToDaily(e)| && ToDaily(e)[i].date == k) ==> exists i :: 0 <= i < |e| && e[i].0 == k
  {
    var daily := ToDaily(e);
    forall i | 0 <= i < |e| ensures daily[i].date == e[i].0 {
    }
  }

  /** Every day key of an order has its entry, and no other day has one. */
  lemma DailyTotalsCoverDays(orders: seq<Order>, k: string)
    ensures k in KeysOf(DailyPairs(orders)) ==> exists i :: 0 <= i < |DailyTotals(orders)| && DailyTotals(orders)[i].date == k
    ensures (exists i :: 0 <= i < |DailyTotals(orders)| && DailyTotals(orders)[i].date == k) ==> k in KeysOf(DailyPairs(orders))
  {
    var pairs := DailyPairs(orders);
    var e := Entries(TallyOf(pairs));
    assert DailyTotals(orders) == ToDaily(e);
    EntriesCover(pairs, k);
    ToDailyKeys(e, k);
  }

  /** The daily entries add up to the total of all orders. */
  lemma DailyTotalsConserve(orders: seq<Order>)
    ensures DailySum(DailyTotals(orders)) == Total(orders)
  {
    EntriesTotal(DailyPairs(orders));
    DailyPairsTotal(orders);
  }

  /** `getDailyTotals`, with the loop over the orders. */
  method GetDailyTotals(orders: seq<Order>) returns (daily: seq<DailyTotal>)
    ensures daily == DailyTotals(orders)
  {
    var grouped := Tally([], map[]);
    var i := 0;
    while i < |orders|
      invariant 0 <= i <= |orders|
      invariant grouped == TallyOf(DailyPairs(orders[..i]))
    {
      var o := orders[i];
      var date := DayKey(o.createdAt);
      DailyStep(orders, i);
      grouped := Add(grouped, date, o.total);
      i := i + 1;
    }
    assert orders[..i] == orders;
    assert grouped == TallyOf(DailyPairs(orders));
    daily := ToDaily(Entries(grouped));
  }

  /** One more order adds its total under its day key. */
  lemma DailyStep(orders: seq<Order>, i: int)
    requires 0 <= i < |orders|
    ensures TallyOf(DailyPairs(orders[..i + 1])) ==
      Add(TallyOf(DailyPairs(orders[..i])), DayKey(orders[i].createdAt), orders[i].total)
  {
    var p := (DayKey(orders[i].createdAt), orders[i].total);
    var pre, next := DailyPairs(orders[..i]), DailyPairs(orders[..i + 1]);
    forall l | 0 <= l < i ensures next[l] == pre[l] {
      assert orders[..i + 1][l] == orders[..i][l];
    }
    assert next == pre + [p];
    TallyOfSnoc(DailyPairs(orders[..i]), p);
  }

  /** Every order of one calendar day lands in one entry, and orders of
      different days of the month in different entries. */
  lemma DailyKeysAreDays(a: Order, b: Order)
    ensures DailyPairs([a, b])[0].0 == DailyPairs([a, b])[1].0 <==>
      a.createdAt.day == b.createdAt.day && a.createdAt.month == b.createdAt.month
  {
    DayKeyMatches(a.createdAt, b.createdAt);
  }

  /** `filtered`: the orders of the selected month and year, in order. */
  function FilterMonth(orders: seq<Order>, year: int, month: int): (r: seq<Order>)
    ensures |r| <= |orders|
    ensures forall o :: o in r <==> o in orders && SameMonth(o.createdAt, year, month)
  {
    if |orders| == 0 then []
    else if SameMonth(orders[0].createdAt, year, month) then [orders[0]] + FilterMonth(orders[1..], year, month)
    else FilterMonth(orders[1..], year, month)
  }

  /** The month filter keeps the orders' order: it filters a concatenation part by part. */
  lemma {:induction false} FilterMonthAppend(a: seq<Order>, b: seq<Order>, year: int, month: int)
    ensures FilterMonth(a + b, year, month) == FilterMonth(a, year, month) + FilterMonth(b, year, month)
  {
    if |a| > 0 {
      assert (a + b)[1..] == a[1..] + b;
      FilterMonthAppend(a[1..], b, year, month);
    } else {
      assert a + b == b;
    }
  }

  /** One order is kept exactly when it falls in the month. */
  lemma FilterMonthSingle(o: Order, year: int, month: int)
    ensures FilterMonth([o], year, month) == if SameMonth(o.createdAt, year, month) then [o] else []
  {
    assert [o][1..] == [];
  }

  /** `avg`: 0 without orders, else the mean total. */
  function Average(orders: seq<Order>): (avg: real)
    ensures |orders| == 0 ==> avg == 0.0
    ensures |orders| > 0 ==> avg * (|orders| as real) == Total(orders) as real
  {
    if |orders| > 0 then Total(orders) as real / |orders| as real else 0.0
  }

  /** Bounds of the average: it lies between the smallest and the largest total. */
  lemma {:induction false} TotalBounds(orders: seq<Order>, lo: int, hi: int)
    requires forall i :: 0 <= i < |orders| ==> lo <= orders[i].total <= hi
    ensures lo * |orders| <= Total(orders) <= hi * |orders|
  {
    if |orders| > 0 {
      TotalBounds(orders[..|orders| - 1], lo, hi);
    }
  }

  lemma AverageBounds(orders: seq<Order>, lo: int, hi: int)
    requires |orders| > 0
    requires forall i :: 0 <= i < |orders| ==> lo <= orders[i].total <= hi
    ensures lo as real <= Average(orders) <= hi as real
  {
    TotalBounds(orders, lo, hi);
    var n := |orders| as real;
    assert Average(orders) * n == Total(orders) as real;
    assert lo as real * n <= Total(orders) as real <= hi as real * n;
  }

  // ---------------------------------------------------------------- CSV report

  const ReportHeader: seq<string> := ["ID", "Fecha", "Total", "Estado"]

  /** `total.toFixed(2)` for a whole amount. */
  function Fixed2(total: int): (s: string)
    ensures ',' !in s && '\n' !in s
  {
    IntToString(total) + ".00"
  }

  /** One report line's values, under the header's ID, Fecha, Total, Estado. */
  function ReportRow(o: Order): (row: seq<string>)
    ensures |row| == |ReportHeader|
    ensures row[0] == o.id
    ensures row[1] == IsoMinute(o.createdAt)
    ensures row[2] == Fixed2(o.total)
    ensures row[3] == o.status
  {
    [o.id, IsoMinute(o.createdAt), Fixed2(o.total), o.status]
  }

  function ReportLines(orders: seq<Order>): (lines: seq<string>)
    ensures |lines| == |orders|
    ensures forall i :: 0 <= i < |orders| ==> lines[i] == Join(ReportRow(orders[i]), ",")
  {
    if |orders| == 0 then [] else [Join(ReportRow(orders[0]), ",")] + ReportLines(orders[1..])
  }

  /** `exportCSV`'s text: the header line, then one line per order. */
  function ReportCsv(orders: seq<Order>): string
  {
    Join([Join(ReportHeader, ",")] + ReportLines(orders), "\n")
  }

  /** `reporte-<year>-<month + 1>.csv` */
  function ReportFileName(year: int, month: int): (name: string)
    ensures StartsWith(name, "reporte-")
  {
    "reporte-" + IntToString(year) + "-" + IntToString(month + 1) + ".csv"
  }

  /** The file name reads back: between "reporte-" and ".csv" stand the
      year and the one-based month, separated by the one '-'. */
  lemma ReportFileNameParts(year: nat, month: nat)
    ensures var name := ReportFileName(year, month);
      && |name| >= 13
      && name[..8] == "reporte-" && name[|name| - 4..] == ".csv"
      && var parts := Split(name[8..|name| - 4], '-');
      && |parts| == 2
      && (forall k :: 0 <= k < |parts| ==> forall i :: 0 <= i < |parts[k]| ==> IsDigit(parts[k][i]))
      && ParseNat(parts[0]) == year && ParseNat(parts[1]) == month + 1
  {
    var y, m := NatToString(year), NatToString(month + 1);
    assert IntToString(year) == y && IntToString(month + 1) == m;
    var name := ReportFileName(year, month);
    assert name == "reporte-" + y + "-" + m + ".csv";
    assert name[8..|name| - 4] == y + ['-'] + m;
    assert '-' !in y by { assert forall i :: 0 <= i < |y| ==> IsDigit(y[i]); }
    assert '-' !in m by { assert forall i :: 0 <= i < |m| ==> IsDigit(m[i]); }
    SplitAtSeparator(y, '-', m);
    SplitNoSeparator(m, '-');
    ParseNatToString(year);
    ParseNatToString(month + 1);
  }

  predicate CleanReportOrder(o: Order)
  {
    ',' !in o.id && '\n' !in o.id && ',' !in o.status && '\n' !in o.status
  }

  lemma ReportRowClean(o: Order)
    requires CleanReportOrder(o)
    ensures forall i :: 0 <= i < |ReportRow(o)| ==> ',' !in ReportRow(o)[i] && '\n' !in ReportRow(o)[i]
  {
    var row := ReportRow(o);
    var iso, money := IsoMinute(o.createdAt), Fixed2(o.total);
    assert row == [o.id, iso, money, o.status];
    forall i | 0 <= i < |row| ensures ',' !in row[i] && '\n' !in row[i] {
      assert row[i] in {o.id, iso, money, o.status};
    }
  }

  /** One order line: free of line breaks, and it splits back into its values. */
  lemma ReportLineRoundTrip(o: Order)
    requires CleanReportOrder(o)
    ensures '\n' !in Join(ReportRow(o), ",")
    ensures Split(Join(ReportRow(o), ","), ',') == ReportRow(o)
  {
    ReportRowClean(o);
    JoinAvoids(ReportRow(o), ",", '\n');
    SplitJoin(ReportRow(o), ',');
  }

  lemma ReportHeaderClean()
    ensures '\n' !in Join(ReportHeader, ",")
  {
    assert ReportHeader[0] == "ID";
    JoinAvoids(ReportHeader, ",", '\n');
  }

  /** Reading the report back: with ids and statuses free of commas and line
      breaks, it has the header line and one line per order, in order, and
      every order line splits back into its four values. */
  lemma ReportRoundTrip(orders: seq<Order>)
    requires forall i :: 0 <= i < |orders| ==> CleanReportOrder(orders[i])
    ensures Split(ReportCsv(orders), '\n') == [Join(ReportHeader, ",")] + ReportLines(orders)
    ensures |Split(ReportCsv(orders), '\n')| == |orders| + 1
    ensures forall i :: 0 <= i < |orders| ==> Split(ReportLines(orders)[i], ',') == ReportRow(orders[i])
  {
    var body := ReportLines(orders);
    var lines := [Join(ReportHeader, ",")] + body;
    forall i | 0 <= i < |orders|
      ensures '\n' !in body[i]
      ensures Split(body[i], ',') == ReportRow(orders[i])
    {
      ReportLineRoundTrip(orders[i]);
    }
    ReportHeaderClean();
    forall i | 0 <= i < |lines| ensures '\n' !in lines[i] {
      if i > 0 {
        assert lines[i] == body[i - 1];
      }
    }
    SplitJoin(lines, '\n');
  }
}
