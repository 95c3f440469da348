/** UTC calendar arithmetic behind the device expiration:
    `$now->modify("+N months")->setTime(23, 59, 59)` with PHP's
    normalisation of a day that does not exist in the target month. */
module Calendar {

  /** An instant as `DateTimeImmutable` holds it, down to the microsecond:
      `new DateTimeImmutable('now')` carries microseconds, a date-time read
      back from a DATETIME column has none. */
  datatype DateTime = DateTime(year: int, month: int, day: int, hour: int, minute: int, second: int, micro: int) {
    /** A proleptic Gregorian date with a time of day. */
    predicate Valid() {
      && 1 <= month <= 12
      && 1 <= day <= DaysIn(year, month)
      && 0 <= hour < 24 && 0 <= minute < 60 && 0 <= second < 60
      && 0 <= micro < 1000000
    }
  }

  predicate IsLeap(y: int) {
    (y % 4 == 0 && y % 100 != 0) || y % 400 == 0
  }

  function DaysIn(y: int, m: int): (d: int)
    requires 1 <= m <= 12
    ensures 28 <= d <= 31
    ensures d == 31 <==> m in {1, 3, 5, 7, 8, 10, 12}
    ensures d == 30 <==> m in {4, 6, 9, 11}
    ensures m == 2 ==> (d == 29 <==> IsLeap(y))
  {
    if m == 2 then (if IsLeap(y) then 29 else 28)
    else if m == 4 || m == 6 || m == 9 || m == 11 then 30
    else 31
  }

  /** Months counted from January of year 0, so that consecutive months
      differ by one across year boundaries. */
  function MonthIndex(t: DateTime): int {
    t.year * 12 + (t.month - 1)
  }

  /** The (year, month) that is `n` months after the month of `t`. */
  function ShiftMonth(t: DateTime, n: int): (r: (int, int))
    ensures 1 <= r.1 <= 12
    ensures r.0 * 12 + (r.1 - 1) == MonthIndex(t) + n
  {
    var k := MonthIndex(t) + n;
    (k / 12, k % 12 + 1)
  }

  /** `modify("+n months")`: move the month by `n` keeping day and time; a
      day past the end of the target month spills into the next month
      (31 January + 1 month is 2 or 3 March). */
  function AddMonths(t: DateTime, n: int): (r: DateTime)
    requires t.Valid()
    ensures r.Valid()
    ensures (r.hour, r.minute, r.second, r.micro) == (t.hour, t.minute, t.second, t.micro)
    ensures var (y, m) := ShiftMonth(t, n);
      if t.day <= DaysIn(y, m)
      then MonthIndex(r) == MonthIndex(t) + n && r.day == t.day
      else MonthIndex(r) == MonthIndex(t) + n + 1 && r.day == t.day - DaysIn(y, m) && r.day <= 3
  {
    var (y, m) := ShiftMonth(t, n);
    if t.day <= DaysIn(y, m) then
      DateTime(y, m, t.day, t.hour, t.minute, t.second, t.micro)
    else
      // December has 31 days, so only a month before December can overflow
      DateTime(y, m + 1, t.day - DaysIn(y, m), t.hour, t.minute, t.second, t.micro)
  }

  /** The expiration written when a device is enabled at `now` with
      `months` preloaded months: `modify("+N months")`, then
      `setTime(23, 59, 59)`, which also clears the microseconds. The day is
      `now`'s day N months on, or, when that month is too short, the
      overflow into the month after it. */
  function NewExpiration(now: DateTime, months: int): (r: DateTime)
    requires now.Valid()
    ensures r.Valid()
    ensures r.hour == 23 && r.minute == 59 && r.second == 59 && r.micro == 0
    ensures var (y, m) := ShiftMonth(now, months);
      if now.day <= DaysIn(y, m)
      then r.year == y && r.month == m && r.day == now.day
      else MonthIndex(r) == MonthIndex(now) + months + 1 && r.day == now.day - DaysIn(y, m)
  {
    AddMonths(now, months).(hour := 23, minute := 59, second := 59, micro := 0)
  }

  /** `$a < $b` on two DateTimeImmutable values in the same zone. */
  predicate Before(a: DateTime, b: DateTime) {
    if MonthIndex(a) != MonthIndex(b) then MonthIndex(a) < MonthIndex(b)
    else if a.day != b.day then a.day < b.day
    else if a.hour != b.hour then a.hour < b.hour
    else if a.minute != b.minute then a.minute < b.minute
    else if a.second != b.second then a.second < b.second
    else a.micro < b.micro
  }

  /** The instant as one number: months, then days, then microseconds of
      the day, each range padded so that later never gets a smaller key. */
  function Key(t: DateTime): int {
    (MonthIndex(t) * 31 + (t.day - 1)) * 86400000000 + (t.hour * 3600 + t.minute * 60 + t.second) * 1000000 + t.micro
  }

  /** On valid date-times `Before` is the order of their keys, hence a strict
      total order: exactly one of a < b, a == b, b < a holds. */
  lemma BeforeIsKeyOrder(a: DateTime, b: DateTime)
    requires a.Valid() && b.Valid()
    ensures Before(a, b) <==> Key(a) < Key(b)
    ensures Key(a) == Key(b) <==> a == b
  {
    var da := (a.hour * 3600 + a.minute * 60 + a.second) * 1000000 + a.micro;
    var db := (b.hour * 3600 + b.minute * 60 + b.second) * 1000000 + b.micro;
    assert 0 <= da < 86400000000 && 0 <= db < 86400000000;
    if MonthIndex(a) == MonthIndex(b) {
      assert a.year == b.year && a.month == b.month;
    }
  }

  /** An expiration computed from a month count of at least one is never
      before the instant it was computed at, and neither is one computed
      for the current day (0 months) when `now` has no microseconds. */
  lemma {:induction false} NewExpirationNotBeforeNow(now: DateTime, months: int)
    requires now.Valid()
    requires months >= 1 || (months == 0 && now.micro == 0)
    ensures !Before(NewExpiration(now, months), now)
  {
    var r := NewExpiration(now, months);
    var (y, m) := ShiftMonth(now, months);
    if now.day <= DaysIn(y, m) {
      assert MonthIndex(r) == MonthIndex(now) + months;
    }
  }

  /** With 0 months, the last second of the day lies after the expiration
      that `setTime(23, 59, 59)` writes: a device enabled at 23:59:59.4 is
      already expired. */
  lemma ZeroMonthsInLastSecond(now: DateTime)
    requires now.Valid() && now.hour == 23 && now.minute == 59 && now.second == 59 && now.micro > 0
    ensures Before(NewExpiration(now, 0), now)
  {
    var r := NewExpiration(now, 0);
    assert MonthIndex(r) == MonthIndex(now) && r.day == now.day;
  }

  /** A negative month count always produces an expiration that is already
      past: the cast `(int)` of the stored count is not range-checked. */
  lemma {:induction false} NegativeMonthsExpireImmediately(now: DateTime, months: int)
    requires now.Valid() && months < 0
    ensures Before(NewExpiration(now, months), now)
  {
    var r := NewExpiration(now, months);
    var (y, m) := ShiftMonth(now, months);
    if now.day > DaysIn(y, m) {
      assert MonthIndex(r) == MonthIndex(now) + months + 1;
      assert r.day < now.day;
    }
  }

  /** 2024-01-15 10:00:00 plus two months is 2024-03-15 23:59:59. */
  lemma TwoMonthsFromMidJanuary()
    ensures NewExpiration(DateTime(2024, 1, 15, 10, 0, 0, 0), 2) == DateTime(2024, 3, 15, 23, 59, 59, 0)
  {
    assert ShiftMonth(DateTime(2024, 1, 15, 10, 0, 0, 0), 2) == (2024, 3);
  }

  /** 31 January 2024 plus one month overflows the 29 days of February 2024
      into 2 March. */
  lemma EndOfJanuaryOverflows()
    ensures NewExpiration(DateTime(2024, 1, 31, 9, 30, 0, 0), 1) == DateTime(2024, 3, 2, 23, 59, 59, 0)
  {
    assert ShiftMonth(DateTime(2024, 1, 31, 9, 30, 0, 0), 1) == (2024, 2);
    assert IsLeap(2024);
  }

  // ---------------------------------------------------------------------
  // format('Y-m-d H:i:s')

  function DigitChar(d: int): (c: char)
    requires 0 <= d < 10
    ensures '0' <= c <= '9'
  {
    ('0' as int + d) as char
  }

  /** The number a string of decimal digits denotes. */
  function DecimalValue(s: string): nat
    requires forall i | 0 <= i < |s| :: '0' <= s[i] <= '9'
  {
    if |s| == 0 then 0 else 10 * DecimalValue(s[..|s| - 1]) + (s[|s| - 1] as int - '0' as int)
  }

  function Pow10(k: nat): (r: nat)
    ensures r >= 1
  {
    if k == 0 then 1 else 10 * Pow10(k - 1)
  }

  /** `n` in decimal, left-padded with zeros to at least `width` digits. */
  function Digits(n: nat, width: nat): (r: string)
    ensures |r| >= 1 && |r| >= width
    ensures 1 <= width && n < Pow10(width) ==> |r| == width
    ensures forall i | 0 <= i < |r| :: '0' <= r[i] <= '9'
    decreases n, width
  {
    if n < 10 && width <= 1 then [DigitChar(n)]
    else Digits(n / 10, if width > 0 then width - 1 else 0) + [DigitChar(n % 10)]
  }

  /** `Y`: at least four digits, with a sign for years before year 0. */
  function YearText(y: int): (r: string)
    ensures 0 <= y <= 9999 ==> |r| == 4
  {
    if y < 0 then "-" + Digits(-y, 4) else Digits(y, 4)
  }

  /** A date-time as MySQL's DATETIME text, e.g. "2024-03-02 23:59:59". */
  function Format(t: DateTime): (r: string)
    requires t.Valid()
    ensures 0 <= t.year <= 9999 ==> |r| == 19
    ensures 0 <= t.year <= 9999 ==> r[4] == '-' && r[7] == '-' && r[10] == ' ' && r[13] == ':' && r[16] == ':'
  {
    YearText(t.year) + "-" + Digits(t.month, 2) + "-" + Digits(t.day, 2) + " " +
    Digits(t.hour, 2) + ":" + Digits(t.minute, 2) + ":" + Digits(t.second, 2)
  }

  /** The digits read back as the number they were made from. */
  lemma {:induction false} DigitsValue(n: nat, width: nat)
    ensures DecimalValue(Digits(n, width)) == n
    decreases n, width
  {
    if n < 10 && width <= 1 {
    } else {
      var d := Digits(n, width);
      var head := Digits(n / 10, if width > 0 then width - 1 else 0);
      assert d[..|d| - 1] == head;
      DigitsValue(n / 10, if width > 0 then width - 1 else 0);
    }
  }

  /** Reading the text back field by field gives the date-time again (the
      microseconds are not written). */
  lemma FormatReadBack(t: DateTime)
    requires t.Valid() && 0 <= t.year <= 9999
    ensures var r := Format(t);
      && DecimalValue(r[0..4]) == t.year && DecimalValue(r[5..7]) == t.month
      && DecimalValue(r[8..10]) == t.day && DecimalValue(r[11..13]) == t.hour
      && DecimalValue(r[14..16]) == t.minute && DecimalValue(r[17..19]) == t.second
  {
    var r := Format(t);
    var y, mo, d := Digits(t.year, 4), Digits(t.month, 2), Digits(t.day, 2);
    var h, mi, se := Digits(t.hour, 2), Digits(t.minute, 2), Digits(t.second, 2);
    assert r == y + "-" + mo + "-" + d + " " + h + ":" + mi + ":" + se;
    assert r[0..4] == y && r[5..7] == mo && r[8..10] == d;
    assert r[11..13] == h && r[14..16] == mi && r[17..19] == se;
    DigitsValue(t.year, 4);
    DigitsValue(t.month, 2);
    DigitsValue(t.day, 2);
    DigitsValue(t.hour, 2);
    DigitsValue(t.minute, 2);
    DigitsValue(t.second, 2);
  }
}
