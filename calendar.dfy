/** Calendar days in the proleptic Gregorian calendar, used as the day keys
    (`yyyy-MM-dd`) under which the application groups its ledger rows, and
    the periods (a month, a year) over which it builds summaries. */
module Calendar {

  /** A calendar day. A value is a real day when `Valid()` holds. */
  datatype Day = Day(year: int, month: int, day: int) {
    predicate Valid() {
      1 <= month <= 12 && 1 <= day <= DaysInMonth(year, month)
    }
  }

  predicate IsLeapYear(y: int) {
    y % 4 == 0 && (y % 100 != 0 || y % 400 == 0)
  }

  function DaysInMonth(y: int, m: int): (n: int)
    requires 1 <= m <= 12
    ensures 28 <= n <= 31
    ensures n == 29 <==> m == 2 && IsLeapYear(y)
  {
    if m == 2 then (if IsLeapYear(y) then 29 else 28)
    else if m == 4 || m == 6 || m == 9 || m == 11 then 30
    else 31
  }

  /** Chronological order of days; for valid days it is also the order of
      their `yyyy-MM-dd` keys. */
  predicate Before(a: Day, b: Day) {
    a.year < b.year
    || (a.year == b.year && a.month < b.month)
    || (a.year == b.year && a.month == b.month && a.day < b.day)
  }

  predicate NotAfter(a: Day, b: Day) {
    a == b || Before(a, b)
  }

  predicate StrictlyAscending(s: seq<Day>) {
    forall i, j :: 0 <= i < j < |s| ==> Before(s[i], s[j])
  }

  /** Every day of month `m` of year `y`, first to last. */
  function DaysOfMonth(y: int, m: int): (r: seq<Day>)
    requires 1 <= m <= 12
    ensures |r| == DaysInMonth(y, m)
    ensures forall i :: 0 <= i < |r| ==> r[i] == Day(y, m, i + 1)
  {
    seq(DaysInMonth(y, m), i => Day(y, m, i + 1))
  }

  /** Every day of the months `m`..12 of year `y`. */
  function DaysFromMonth(y: int, m: int): seq<Day>
    requires 1 <= m <= 13
    decreases 13 - m
  {
    if m == 13 then [] else DaysOfMonth(y, m) + DaysFromMonth(y, m + 1)
  }

  /** Every day of year `y`, 1 January to 31 December. */
  function DaysOfYear(y: int): seq<Day> {
    DaysFromMonth(y, 1)
  }

  /** The days of a month are exactly its valid days, in ascending order. */
  lemma MonthDays(y: int, m: int)
    requires 1 <= m <= 12
    ensures StrictlyAscending(DaysOfMonth(y, m))
    ensures forall d: Day :: d in DaysOfMonth(y, m) <==> d.Valid() && d.year == y && d.month == m
  {
    var r := DaysOfMonth(y, m);
    forall d: Day | d.Valid() && d.year == y && d.month == m ensures d in r {
      assert r[d.day - 1] == d;
    }
  }

  /** The days of months `m`..12 are exactly the valid days of those months,
      in ascending order. */
  lemma {:induction false} DaysFromMonthSpec(y: int, m: int)
    requires 1 <= m <= 13
    ensures StrictlyAscending(DaysFromMonth(y, m))
    ensures forall d: Day :: d in DaysFromMonth(y, m) <==> d.Valid() && d.year == y && d.month >= m
    decreases 13 - m
  {
    if m <= 12 {
      MonthDays(y, m);
      DaysFromMonthSpec(y, m + 1);
      var a, b := DaysOfMonth(y, m), DaysFromMonth(y, m + 1);
      var r := a + b;
      forall i, j | 0 <= i < j < |r| ensures Before(r[i], r[j]) {
        if j < |a| {
        } else if i >= |a| {
          assert r[i] == b[i - |a|] && r[j] == b[j - |a|];
        } else {
          assert r[j] == b[j - |a|] && b[j - |a|] in b;
        }
      }
    }
  }

  /** A year's day list holds exactly the valid days of that year, in
      ascending order. */
  lemma YearDays(y: int)
    ensures StrictlyAscending(DaysOfYear(y))
    ensures forall d: Day :: d in DaysOfYear(y) <==> d.Valid() && d.year == y
  {
    DaysFromMonthSpec(y, 1);
  }

  /** A year has 366 days in a leap year and 365 otherwise. */
  lemma YearLength(y: int)
    ensures |DaysOfYear(y)| == if IsLeapYear(y) then 366 else 365
  {
    var feb := DaysInMonth(y, 2);
    assert |DaysFromMonth(y, 13)| == 0;
    assert |DaysFromMonth(y, 12)| == 31;
    assert |DaysFromMonth(y, 11)| == 61;
    assert |DaysFromMonth(y, 10)| == 92;
    assert |DaysFromMonth(y, 9)| == 122;
    assert |DaysFromMonth(y, 8)| == 153;
    assert |DaysFromMonth(y, 7)| == 184;
    assert |DaysFromMonth(y, 6)| == 214;
    assert |DaysFromMonth(y, 5)| == 245;
    assert |DaysFromMonth(y, 4)| == 275;
    assert |DaysFromMonth(y, 3)| == 306;
    assert |DaysFromMonth(y, 2)| == 306 + feb;
    assert |DaysFromMonth(y, 1)| == 337 + feb;
  }

  /** The year a JavaScript `new Date(year, …)` stands for: years 0 to 99
      are read as 1900 to 1999. */
  function JsFullYear(year: int): (y: int)
    ensures (0 <= year <= 99) == (y != year)
  {
    if 0 <= year <= 99 then 1900 + year else year
  }

  /** The calendar month that `new Date(year, month - 1, 1)` denotes, as
      (year, month): a month outside 1..12 rolls over into a neighbouring year. */
  function MonthOf(year: int, month: int): (r: (int, int))
    ensures 1 <= r.1 <= 12
    ensures r.0 * 12 + r.1 == JsFullYear(year) * 12 + month
  {
    (JsFullYear(year) + (month - 1) / 12, (month - 1) % 12 + 1)
  }

  /** For a four-digit-or-later year and a month in range, the month denoted
      is the one given. */
  lemma MonthOfInRange(year: int, month: int)
    requires (year < 0 || year >= 100) && 1 <= month <= 12
    ensures MonthOf(year, month) == (year, month)
  {
  }

  /** Start and end day of the month that contains `d` (`startOfMonth`/`endOfMonth`). */
  function MonthBounds(d: Day): (r: (Day, Day))
    requires d.Valid()
    ensures r.0 == DaysOfMonth(d.year, d.month)[0]
    ensures r.1 == DaysOfMonth(d.year, d.month)[DaysInMonth(d.year, d.month) - 1]
    ensures NotAfter(r.0, d) && NotAfter(d, r.1)
  {
    (Day(d.year, d.month, 1), Day(d.year, d.month, DaysInMonth(d.year, d.month)))
  }

  /** Start and end day of the year that contains `d` (`startOfYear`/`endOfYear`). */
  function YearBounds(d: Day): (r: (Day, Day))
    requires d.Valid()
    ensures r.0.Valid() && r.1.Valid() && r.0.year == d.year == r.1.year
    ensures NotAfter(r.0, d) && NotAfter(d, r.1)
    ensures forall e: Day :: e.Valid() && e.year == d.year ==> NotAfter(r.0, e) && NotAfter(e, r.1)
  {
    (Day(d.year, 1, 1), Day(d.year, 12, 31))
  }

  /** The day of the week of `d`, 0 for Sunday to 6 for Saturday (Zeller's
      congruence, with January and February counted as months 13 and 14 of
      the previous year). */
  function Weekday(d: Day): (w: int)
    ensures 0 <= w < 7
  {
    ((d.day + ZellerOffset(d.year, d.month)) % 7 + 6) % 7
  }

  /** The part of Zeller's sum that depends on the month and the year only. */
  function ZellerOffset(year: int, month: int): int {
    var m := if month <= 2 then month + 12 else month;
    var y := if month <= 2 then year - 1 else year;
    (13 * (m + 1)) / 5 + YearPart(y)
  }

  /** The part of Zeller's sum that depends on the (shifted) year. */
  function YearPart(y: int): int {
    var k, j := y % 100, y / 100;
    k + k / 4 + j / 4 + 5 * j
  }

  /** Spanish day names, Sunday first. */
  const WeekdayNames: seq<string> := ["domingo", "lunes", "martes", "mi\U{00E9}rcoles", "jueves", "viernes", "s\U{00E1}bado"]

  /** The Spanish day name that `format(day, 'EEEE', { locale: es })` prints. */
  function WeekdayName(d: Day): (r: string)
  {
    WeekdayNames[Weekday(d)]
  }

  /** Within a month, the next day is the next day of the week. */
  lemma NextDayWeekday(d: Day)
    requires d.Valid() && d.day < DaysInMonth(d.year, d.month)
    ensures Weekday(Day(d.year, d.month, d.day + 1)) == (Weekday(d) + 1) % 7
  {
    var x := d.day + ZellerOffset(d.year, d.month);
    WeekStep(x);
    assert d.day + 1 + ZellerOffset(d.year, d.month) == x + 1;
  }

  /** The day after `d`: the next day of the month, else the first of the
      next month, else 1 January of the next year. Nothing lies between. */
  function NextDay(d: Day): (r: Day)
    requires d.Valid()
    ensures r.Valid() && Before(d, r)
    ensures forall e: Day :: e.Valid() && Before(d, e) ==> NotAfter(r, e)
  {
    if d.day < DaysInMonth(d.year, d.month) then Day(d.year, d.month, d.day + 1)
    else if d.month < 12 then Day(d.year, d.month + 1, 1)
    else Day(d.year + 1, 1, 1)
  }

  /** The day names follow the seven-day cycle through every change of
      day, month and year, leap days included. */
  lemma WeekCycle(d: Day)
    requires d.Valid()
    ensures Weekday(NextDay(d)) == (Weekday(d) + 1) % 7
  {
    if d.day < DaysInMonth(d.year, d.month) {
      NextDayWeekday(d);
    } else {
      var n := NextDay(d);
      assert n.day == 1;
      MonthEndStep(d.year, d.month, n.year, n.month);
      WeekShift(d.day + ZellerOffset(d.year, d.month), n.day + ZellerOffset(n.year, n.month));
    }
  }

  /** From the last day of a month to the first of the next, Zeller's sum
      moves on by one modulo 7. */
  lemma MonthEndStep(y: int, m: int, y2: int, m2: int)
    requires 1 <= m <= 12
    requires if m < 12 then y2 == y && m2 == m + 1 else y2 == y + 1 && m2 == 1
    ensures (1 + ZellerOffset(y2, m2) - (DaysInMonth(y, m) + ZellerOffset(y, m))) % 7 == 1
  {
    if m == 2 {
      FebruaryEndStep(y);
    } else if m == 12 {
      assert ZellerOffset(y2, m2) == 36 + YearPart(y);
      assert ZellerOffset(y, m) == 33 + YearPart(y);
    } else {
      MonthStepOffset(y, m);
    }
  }

  /** Across the end of February the year part changes too, and the leap
      day makes up for it. */
  lemma FebruaryEndStep(y: int)
    ensures (1 + ZellerOffset(y, 3) - (DaysInMonth(y, 2) + ZellerOffset(y, 2))) % 7 == 1
  {
    var a, b := YearPart(y), YearPart(y - 1);
    var leap := if IsLeapYear(y) then 1 else 0;
    YearPartStep(y);
    assert ZellerOffset(y, 3) == 10 + a;
    assert ZellerOffset(y, 2) == 39 + b;
    LeapShift(a - b, leap);
  }

  lemma LeapShift(x: int, leap: int)
    requires 0 <= leap <= 1 && x % 7 == 1 + leap
    ensures (x - 56 - leap) % 7 == 1
  {
    assert x == 7 * (x / 7) + 1 + leap;
    assert x - 56 - leap == 7 * (x / 7 - 8) + 1;
  }

  /** Between two months of one year other than February and March, the
      month part of Zeller's sum grows by the length of the first month,
      modulo 7. */
  lemma MonthStepOffset(y: int, m: int)
    requires 1 <= m <= 11 && m != 2
    ensures (1 + ZellerOffset(y, m + 1) - (DaysInMonth(y, m) + ZellerOffset(y, m))) % 7 == 1
  {
  }

  /** From one year to the next the year part of Zeller's sum grows by 2
      modulo 7 when the later year is a leap year, and by 1 otherwise. */
  lemma YearPartStep(y: int)
    ensures (YearPart(y) - YearPart(y - 1)) % 7 == if IsLeapYear(y) then 2 else 1
  {
    var k, j := y % 100, y / 100;
    LeapDigits(y);
    if k > 0 {
      assert (y - 1) % 100 == k - 1 && (y - 1) / 100 == j;
      StepInCentury(k, j);
    } else {
      assert (y - 1) % 100 == 99 && (y - 1) / 100 == j - 1;
      StepAtCentury(j);
    }
  }

  /** The leap rule in terms of the last two digits `k` and the century `j`. */
  lemma LeapDigits(y: int)
    ensures IsLeapYear(y) <==> if y % 100 > 0 then (y % 100) % 4 == 0 else (y / 100) % 4 == 0
  {
    var k, j := y % 100, y / 100;
    assert y % 4 == k % 4 by { assert y == 4 * (25 * j) + k; }
    if k == 0 {
      assert y % 400 == 0 <==> j % 4 == 0 by { assert y == 400 * (j / 4) + 100 * (j % 4); }
    }
  }

  lemma StepInCentury(k: int, j: int)
    requires 0 < k < 100
    ensures ((k + k / 4 + j / 4 + 5 * j) - ((k - 1) + (k - 1) / 4 + j / 4 + 5 * j)) % 7 == if k % 4 == 0 then 2 else 1
  {
    assert k / 4 - (k - 1) / 4 == if k % 4 == 0 then 1 else 0;
  }

  lemma StepAtCentury(j: int)
    ensures ((j / 4 + 5 * j) - (99 + 99 / 4 + (j - 1) / 4 + 5 * (j - 1))) % 7 == if j % 4 == 0 then 2 else 1
  {
    assert j / 4 - (j - 1) / 4 == if j % 4 == 0 then 1 else 0;
  }

  /** Sums one apart modulo 7 give consecutive days of the week. */
  lemma WeekShift(a: int, b: int)
    requires (b - a) % 7 == 1
    ensures ((b % 7 + 6) % 7) == ((a % 7 + 6) % 7 + 1) % 7
  {
    assert b == a + 1 + 7 * ((b - a) / 7);
    WeekStep(a);
  }

  lemma WeekStep(x: int)
    ensures ((x + 1) % 7 + 6) % 7 == ((x % 7 + 6) % 7 + 1) % 7
  {
    var r := x % 7;
    assert x == 7 * (x / 7) + r;
    assert (x + 1) % 7 == (r + 1) % 7;
  }

  /** 15 March 2024 was a Friday. */
  lemma WeekdayExample()
    ensures WeekdayName(Day(2024, 3, 15)) == "viernes"
  {
    assert 2024 % 100 == 24 && 2024 / 100 == 20 && (13 * 4) / 5 == 10 && 24 / 4 == 6 && 20 / 4 == 5;
    assert ZellerOffset(2024, 3) == 145;
    assert 160 % 7 == 6 && 12 % 7 == 5;
    assert Weekday(Day(2024, 3, 15)) == 5;
    assert WeekdayNames[5] == "viernes";
  }
}
