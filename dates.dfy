/** A timestamp as the browser's local clock reads it, and the date-fns
    renderings the analytics page uses. Parsing `created_at` and the time
    zone are outside the model: the fields are what `parseISO` yields. */
module Dates {
  import opened Strings

  /** `getDay()`: 0 is Sunday. */
  type Weekday = d: int | 0 <= d < 7

  /** `month` counts from 0, as `getMonth()` does. */
  datatype Stamp = Stamp(year: nat, month: nat, day: nat, hour: nat, minute: nat, weekday: Weekday)

  /** `format(date, "dd/MM")` */
  function DayKey(t: Stamp): string
  {
    PadNat(t.day, 2) + "/" + PadNat(t.month + 1, 2)
  }

  /** `format(date, "yyyy-MM-dd HH:mm")` */
  function IsoMinute(t: Stamp): (s: string)
    ensures ',' !in s && '\n' !in s
  {
    var y, mo, d := PadNat(t.year, 4), PadNat(t.month + 1, 2), PadNat(t.day, 2);
    var h, mi := PadNat(t.hour, 2), PadNat(t.minute, 2);
    DigitsLackSeparators(y);
    DigitsLackSeparators(mo);
    DigitsLackSeparators(d);
    DigitsLackSeparators(h);
    DigitsLackSeparators(mi);
    y + "-" + mo + "-" + d + " " + h + ":" + mi
  }

  /** `isSameMonth(date, new Date(year, month))` */
  predicate SameMonth(t: Stamp, year: int, month: int)
  {
    t.year == year && t.month == month
  }

  lemma DigitsLackSeparators(s: string)
    requires forall i :: 0 <= i < |s| ==> IsDigit(s[i])
    ensures '/' !in s && ',' !in s && '\n' !in s
  {
  }

  /** The day key reads back as its two zero-padded numbers. */
  lemma DayKeyParts(t: Stamp)
    ensures Split(DayKey(t), '/') == [PadNat(t.day, 2), PadNat(t.month + 1, 2)]
  {
    var d, m := PadNat(t.day, 2), PadNat(t.month + 1, 2);
    DigitsLackSeparators(d);
    DigitsLackSeparators(m);
    SplitAtSeparator(d, '/', m);
    SplitNoSeparator(m, '/');
    assert DayKey(t) == d + ['/'] + m;
  }

  lemma DigitsLack(s: string, c: char)
    requires forall i :: 0 <= i < |s| ==> IsDigit(s[i])
    requires !IsDigit(c)
    ensures c !in s
  {
  }

  /** Splitting at a separator that occurs exactly once gives the two sides. */
  lemma SplitTwo(a: string, c: char, b: string)
    requires c !in a && c !in b
    ensures Split(a + [c] + b, c) == [a, b]
  {
    SplitAtSeparator(a, c, b);
    SplitNoSeparator(b, c);
  }

  /** The shape "yyyy-MM-dd HH:mm" over any digit strings reads back. */
  lemma IsoShapeParts(y: string, mo: string, d: string, h: string, mi: string)
    requires forall i :: 0 <= i < |y| ==> IsDigit(y[i])
    requires forall i :: 0 <= i < |mo| ==> IsDigit(mo[i])
    requires forall i :: 0 <= i < |d| ==> IsDigit(d[i])
    requires forall i :: 0 <= i < |h| ==> IsDigit(h[i])
    requires forall i :: 0 <= i < |mi| ==> IsDigit(mi[i])
    ensures Split(y + "-" + mo + "-" + d + " " + h + ":" + mi, ' ') == [y + "-" + mo + "-" + d, h + ":" + mi]
    ensures Split(y + "-" + mo + "-" + d, '-') == [y, mo, d]
    ensures Split(h + ":" + mi, ':') == [h, mi]
  {
    DigitsLack(y, '-'); DigitsLack(mo, '-'); DigitsLack(d, '-');
    DigitsLack(y, ' '); DigitsLack(mo, ' '); DigitsLack(d, ' ');
    DigitsLack(h, ' '); DigitsLack(mi, ' ');
    DigitsLack(h, ':'); DigitsLack(mi, ':');
    var date, time := y + "-" + mo + "-" + d, h + ":" + mi;
    assert date == y + ['-'] + mo + ['-'] + d;
    assert time == h + [':'] + mi;
    assert ' ' !in date;
    assert ' ' !in time;
    assert y + "-" + mo + "-" + d + " " + h + ":" + mi == date + [' '] + time;
    SplitTwo(date, ' ', time);
    assert date == y + ['-'] + (mo + ['-'] + d);
    SplitAtSeparator(y, '-', mo + ['-'] + d);
    SplitTwo(mo, '-', d);
    SplitTwo(h, ':', mi);
  }

  /** The rendered date reads back: split at the space, its date half splits
      at '-' into the padded year, month and day, and its time half at ':'
      into the padded hour and minute; each part parses back to its field
      (`PadNat`). */
  lemma IsoMinuteParts(t: Stamp)
    ensures Split(IsoMinute(t), ' ') ==
      [PadNat(t.year, 4) + "-" + PadNat(t.month + 1, 2) + "-" + PadNat(t.day, 2),
       PadNat(t.hour, 2) + ":" + PadNat(t.minute, 2)]
    ensures Split(PadNat(t.year, 4) + "-" + PadNat(t.month + 1, 2) + "-" + PadNat(t.day, 2), '-') ==
      [PadNat(t.year, 4), PadNat(t.month + 1, 2), PadNat(t.day, 2)]
    ensures Split(PadNat(t.hour, 2) + ":" + PadNat(t.minute, 2), ':') == [PadNat(t.hour, 2), PadNat(t.minute, 2)]
  {
    IsoShapeParts(PadNat(t.year, 4), PadNat(t.month + 1, 2), PadNat(t.day, 2), PadNat(t.hour, 2), PadNat(t.minute, 2));
  }

  /** Two stamps share a day key exactly when they fall on the same day of
      the same month, whatever their years. */
  lemma DayKeyMatches(a: Stamp, b: Stamp)
    ensures DayKey(a) == DayKey(b) <==> a.day == b.day && a.month == b.month
  {
    if DayKey(a) == DayKey(b) {
      DayKeyParts(a);
      DayKeyParts(b);
      assert PadNat(a.day, 2) == PadNat(b.day, 2);
      assert PadNat(a.month + 1, 2) == PadNat(b.month + 1, 2);
    }
  }
}
