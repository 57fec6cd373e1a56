/** Dates as the script uses them: Gregorian month lengths (what calendar.monthrange
    reports), datetime values and their ordering, the clamped random day of
    `rand_day`, the grocery day windows, the covered month range, the salary
    month, and the ISO text that strftime writes. */
module Calendar {
  import opened Wrappers
  import opened Text

  function Min(a: int, b: int): int { if a <= b then a else b }
  function Max(a: int, b: int): int { if a >= b then a else b }

  predicate IsLeapYear(y: int) {
    y % 4 == 0 && (y % 100 != 0 || y % 400 == 0)
  }

  /** The number of days in month m of year y (Gregorian). */
  function DaysInMonth(y: int, m: int): (n: int)
    requires 1 <= m <= 12
    ensures 28 <= n <= 31
    ensures m == 2 ==> (n == 29 <==> IsLeapYear(y))
  {
    if m == 2 then (if IsLeapYear(y) then 29 else 28)
    else if m == 4 || m == 6 || m == 9 || m == 11 then 30
    else 31
  }

  /** A naive datetime, field by field. */
  datatype DateTime = DateTime(year: int, month: int, day: int, hour: int, minute: int, second: int)

  /** The values Python's datetime constructor accepts. */
  predicate ValidDateTime(t: DateTime) {
    && 1 <= t.year <= 9999
    && 1 <= t.month <= 12
    && 1 <= t.day <= DaysInMonth(t.year, t.month)
    && 0 <= t.hour < 24 && 0 <= t.minute < 60 && 0 <= t.second < 60
  }

  /** Python's `a < b` on datetimes: field-by-field lexicographic order. */
  predicate Before(a: DateTime, b: DateTime) {
    || a.year < b.year
    || (a.year == b.year && a.month < b.month)
    || (a.year == b.year && a.month == b.month && a.day < b.day)
    || (a.year == b.year && a.month == b.month && a.day == b.day && a.hour < b.hour)
    || (a.year == b.year && a.month == b.month && a.day == b.day && a.hour == b.hour && a.minute < b.minute)
    || (a.year == b.year && a.month == b.month && a.day == b.day && a.hour == b.hour && a.minute == b.minute
        && a.second < b.second)
  }

  /** Before is a strict total order. */
  lemma BeforeIsStrictTotalOrder(a: DateTime, b: DateTime, c: DateTime)
    ensures !Before(a, a)
    ensures Before(a, b) && Before(b, c) ==> Before(a, c)
    ensures a == b || Before(a, b) || Before(b, a)
    ensures !(Before(a, b) && Before(b, a))
  {
  }

  /** `random.randint(lo, hi)` with the generator's draw supplied by the caller:
      the draw picks one of the hi - lo + 1 candidates. */
  function RandInt(lo: int, hi: int, draw: nat): (r: int)
    requires lo <= hi
    ensures lo <= r <= hi
  {
    lo + draw % (hi - lo + 1)
  }

  /** Every candidate of randint is drawn by some draw. */
  lemma RandIntCovers(lo: int, hi: int, r: int)
    requires lo <= r <= hi
    ensures RandInt(lo, hi, r - lo) == r
  {
  }

  /** `rand_day(y, m, lo, hi)`: a datetime in month m of year y whose day lies in
      the window [lo, hi] cut down to the month's length, at a drawn hour 8..20
      and minute 0..59, second 0. None stands for the exceptions raised by
      calendar.monthrange (a month outside 1..12) and by the datetime
      constructor (a year outside 1..9999 or a day below 1). */
  function RandDay(y: int, m: int, lo: int, hi: int, dayDraw: nat, hourDraw: nat, minuteDraw: nat)
    : (r: Option<DateTime>)
    ensures !(1 <= m <= 12) ==> r.None?
    ensures r.Some? ==>
      && ValidDateTime(r.value)
      && r.value.year == y && r.value.month == m
      && Min(lo, Min(hi, DaysInMonth(y, m))) <= r.value.day <= Min(hi, DaysInMonth(y, m))
      && 8 <= r.value.hour <= 20 && 0 <= r.value.minute <= 59 && r.value.second == 0
    ensures 1 <= m <= 12 && 1 <= y <= 9999 && 1 <= lo && 1 <= hi ==> r.Some?
    ensures 1 <= m <= 12 && hi < 1 ==> r.None?
  {
    if !(1 <= m <= 12) then None
    else
      var mx := Min(hi, DaysInMonth(y, m));
      var first := Min(lo, mx);
      var t := DateTime(y, m, RandInt(first, mx, dayDraw), RandInt(8, 20, hourDraw), RandInt(0, 59, minuteDraw), 0);
      if ValidDateTime(t) then Some(t) else None
  }

  /** Every day of a valid window can be drawn: the clamp loses no day of the month. */
  lemma RandDayCovers(y: int, m: int, lo: int, hi: int, day: int)
    requires 1 <= m <= 12 && 1 <= y <= 9999 && 1 <= lo && 1 <= hi
    requires Min(lo, Min(hi, DaysInMonth(y, m))) <= day <= Min(hi, DaysInMonth(y, m))
    ensures var r := RandDay(y, m, lo, hi, day - Min(lo, Min(hi, DaysInMonth(y, m))), 0, 0);
      r.Some? && r.value.day == day
  {
    var mx := Min(hi, DaysInMonth(y, m));
    RandIntCovers(Min(lo, mx), mx, day);
  }

  /** The day window of the i-th of ng grocery shops in a month whose last
      usable day is md: ng equal strides of md // ng days. */
  function GroceryWindow(md: int, ng: int, i: int): (w: (int, int))
    requires 0 <= i < ng
    ensures md >= 1 ==> 1 <= w.0 <= w.1 <= md
  {
    var step := md / ng;
    var lo := Max(1, 1 + i * step);
    assert md >= 1 ==> 1 + i * step <= md by {
      if md >= 1 { StrideFits(md, ng, i); }
    }
    (lo, Max(lo, Min(lo + step, md)))
  }

  lemma StrideFits(md: int, ng: int, i: int)
    requires md >= 1 && 0 <= i < ng
    ensures 1 + i * (md / ng) <= md
  {
    var step := md / ng;
    assert ng * step + md % ng == md;
    MulLe(i, ng - 1, step);
    assert (ng - 1) * step == ng * step - step;
  }

  /** Multiplying by a non-negative factor keeps order. */
  lemma MulLe(a: int, b: int, c: int)
    requires a <= b && c >= 0
    ensures a * c <= b * c
  {
    assert b * c - a * c == (b - a) * c;
  }

  /** Shops are in day order: a window ends no later than the next one starts. */
  lemma GroceryWindowsOrdered(md: int, ng: int, i: int)
    requires 0 <= i && i + 1 < ng
    ensures GroceryWindow(md, ng, i).1 <= GroceryWindow(md, ng, i + 1).0
  {
    var step := md / ng;
    assert (i + 1) * step == i * step + step;
    if md >= 0 {
      MulLe(0, i, step);
    } else {
      MulLe(0, i, -step);
      assert i * (-step) == -(i * step);
    }
    WindowsMeet(md, step, i * step);
  }

  /** The window starting after a stride of a ends by the start of the next. */
  lemma WindowsMeet(md: int, step: int, a: int)
    requires (step >= 0 && a >= 0) || (a <= 0 && md < 1)
    ensures var lo := Max(1, 1 + a); Max(lo, Min(lo + step, md)) <= Max(1, 1 + a + step)
  {
  }

  // ---- months ----

  /** Consecutive months get consecutive numbers. */
  function MonthNumber(y: int, m: int): int {
    12 * y + m - 1
  }

  function MonthOfNumber(n: int): (ym: (int, int))
    ensures 1 <= ym.1 <= 12 && MonthNumber(ym.0, ym.1) == n
  {
    (n / 12, n % 12 + 1)
  }

  lemma MonthNumberRoundTrip(y: int, m: int)
    requires 1 <= m <= 12
    ensures MonthOfNumber(MonthNumber(y, m)) == (y, m)
  {
    var n := MonthNumber(y, m);
    assert n == 12 * y + (m - 1);
  }

  /** The calendar successor of a month. */
  function NextMonth(y: int, m: int): (int, int) {
    if m == 12 then (y + 1, 1) else (y, m + 1)
  }

  /** The salary month of month (y, m): the preceding month, January wrapping
      to December of the previous year. */
  function PrevMonth(y: int, m: int): (p: (int, int))
    ensures 1 <= m <= 12 ==> 1 <= p.1 <= 12 && NextMonth(p.0, p.1) == (y, m)
  {
    if m > 1 then (y, m - 1) else (y - 1, 12)
  }

  predicate MonthBefore(a: (int, int), b: (int, int)) {
    a.0 < b.0 || (a.0 == b.0 && a.1 < b.1)
  }

  /** Next and previous month are inverse, and each is one step in month order. */
  lemma NextPrevInverse(y: int, m: int)
    requires 1 <= m <= 12
    ensures NextMonth(PrevMonth(y, m).0, PrevMonth(y, m).1) == (y, m)
    ensures PrevMonth(NextMonth(y, m).0, NextMonth(y, m).1) == (y, m)
    ensures MonthBefore(PrevMonth(y, m), (y, m)) && MonthBefore((y, m), NextMonth(y, m))
    ensures MonthNumber(NextMonth(y, m).0, NextMonth(y, m).1) == MonthNumber(y, m) + 1
    ensures MonthNumber(PrevMonth(y, m).0, PrevMonth(y, m).1) == MonthNumber(y, m) - 1
  {
  }

  lemma NextOfNumber(n: int)
    ensures MonthOfNumber(n + 1) == NextMonth(MonthOfNumber(n).0, MonthOfNumber(n).1)
  {
    var ym := MonthOfNumber(n);
    NextPrevInverse(ym.0, ym.1);
    MonthNumberRoundTrip(NextMonth(ym.0, ym.1).0, NextMonth(ym.0, ym.1).1);
  }

  const FirstCovered := MonthNumber(2025, 2)
  const LastCovered := MonthNumber(2026, 2)

  /** How many covered months have a number below n. */
  function CoveredBelow(n: int): nat {
    if n <= FirstCovered then 0 else if n > LastCovered then LastCovered - FirstCovered + 1 else n - FirstCovered
  }

  /** `months_list`: every month of 2025 and 2026 in order, keeping those from
      February 2025 to February 2026. The result is the 13 consecutive months of
      that range. */
  method MonthsList() returns (ms: seq<(int, int)>)
    ensures |ms| == 13 && ms[0] == (2025, 2) && ms[12] == (2026, 2)
    ensures forall k :: 0 <= k < |ms| ==> 2025 <= ms[k].0 <= 2026 && 1 <= ms[k].1 <= 12
    ensures forall k :: 0 <= k < |ms| - 1 ==> ms[k + 1] == NextMonth(ms[k].0, ms[k].1)
  {
    ms := [];
    var years := [2025, 2026];
    for yi := 0 to |years|
      invariant forall k :: 0 <= k < |ms| ==> ms[k] == MonthOfNumber(FirstCovered + k)
      invariant |ms| == CoveredBelow(12 * (2025 + yi))
    {
      var yr := years[yi];
      for mo := 1 to 13
        invariant forall k :: 0 <= k < |ms| ==> ms[k] == MonthOfNumber(FirstCovered + k)
        invariant |ms| == CoveredBelow(MonthNumber(yr, mo))
      {
        if yr == 2025 && mo < 2 { continue; }
        if yr == 2026 && mo > 2 { continue; }
        MonthNumberRoundTrip(yr, mo);
        ms := ms + [(yr, mo)];
      }
    }
    MonthNumberRoundTrip(2025, 2);
    MonthNumberRoundTrip(2026, 2);
    forall k | 0 <= k < |ms| - 1 ensures ms[k + 1] == NextMonth(ms[k].0, ms[k].1) {
      NextOfNumber(FirstCovered + k);
    }
  }

  /** The last usable day of month (yr, mo): the current month, February 2026,
      is only half generated. */
  function DayLimit(yr: int, mo: int): (d: int)
    ensures 14 <= d <= 28 && (1 <= mo <= 12 ==> d <= DaysInMonth(yr, mo))
  {
    if yr == 2026 && mo == 2 then 14 else 28
  }

  /** The salary date of month (yr, mo): 08:00 on the 28th of the previous month. */
  function SalaryDate(yr: int, mo: int): (t: DateTime)
    requires 1 <= mo <= 12 && 2 <= yr <= 9999
    ensures ValidDateTime(t) && t.day == 28
    ensures NextMonth(t.year, t.month) == (yr, mo)
  {
    var pm := PrevMonth(yr, mo);
    DateTime(pm.0, pm.1, 28, 8, 0, 0)
  }

  // ---- ISO text ----

  /** strftime("%Y-%m-%dT%H:%M:%SZ"), with the year written in four digits. */
  function Iso(t: DateTime): (s: string)
    requires ValidDateTime(t)
    ensures |s| == 20
  {
    Pad4(t.year) + "-" + Pad2(t.month) + "-" + Pad2(t.day) + "T"
      + Pad2(t.hour) + ":" + Pad2(t.minute) + ":" + Pad2(t.second) + "Z"
  }

  /** f"{yr}-{mo:02d}": the month key the settlement filters dates by. */
  function MonthPrefix(y: int, m: int): (s: string)
    requires 1000 <= y < 10000 && 0 <= m < 100
    ensures |s| == 7
  {
    Pad4(y) + "-" + Pad2(m)
  }

  /** f"{yr}-{mo:02d}-01T00:00:00Z": the month marker of budget months and allocations. */
  function MonthStart(y: int, m: int): (s: string)
    requires 1000 <= y <= 9999 && 1 <= m <= 12
    ensures s == Iso(DateTime(y, m, 1, 0, 0, 0))
  {
    MonthPrefix(y, m) + "-01T00:00:00Z"
  }

  predicate StartsWith(s: string, p: string) {
    |p| <= |s| && s[..|p|] == p
  }

  /** The ISO text of a date starts with "YYYY-MM" exactly when the date falls in
      that year and month. */
  lemma IsoMonthPrefix(t: DateTime, y: int, m: int)
    requires ValidDateTime(t) && 1000 <= y < 10000 && 1 <= m <= 12
    ensures StartsWith(Iso(t), MonthPrefix(y, m)) <==> t.year == y && t.month == m
  {
    var s, p := Iso(t), MonthPrefix(y, m);
    assert s[..7] == Pad4(t.year) + "-" + Pad2(t.month);
    if s[..7] == p {
      assert s[..4] == Pad4(t.year) && p[..4] == Pad4(y);
      assert s[5..7] == Pad2(t.month) && p[5..7] == Pad2(m);
      Pad4Injective(t.year, y);
      Pad2Injective(t.month, m);
    }
  }
}
