/** The proleptic Gregorian calendar: month lengths, the leap rule, and day numbers. */
module Calendar {

  datatype Date = Date(year: int, month: int, day: int)

  predicate IsLeap(year: int) {
    year % 4 == 0 && (year % 100 == 0 ==> year % 400 == 0)
  }

  function DaysIn(year: int, month: int): int {
    if month == 2 then
      if IsLeap(year) then 29 else 28
    else if month == 4 || month == 6 || month == 9 || month == 11 then 30
    else 31
  }

  predicate IsDate(d: Date) {
    1 <= d.month <= 12 && 1 <= d.day <= DaysIn(d.year, d.month)
  }

  /** The dates the `time` crate can hold without its large-dates feature. */
  predicate Supported(d: Date) {
    IsDate(d) && -9999 <= d.year <= 9999
  }

  /** Calendar order: year, then month, then day. */
  predicate Before(a: Date, b: Date) {
    a.year < b.year
    || (a.year == b.year && (a.month < b.month || (a.month == b.month && a.day < b.day)))
  }

  // ----- day numbers -----

  /** Days from 1 January of year 0 to 1 January of `year`. */
  function YearStart(year: int): int {
    365 * year + 1 + (year - 1) / 4 - (year - 1) / 100 + (year - 1) / 400
  }

  lemma YearLength(year: int)
    ensures YearStart(year + 1) - YearStart(year) == if IsLeap(year) then 366 else 365
  {
    StepOfQuotient(year, 4);
    StepOfQuotient(year, 100);
    StepOfQuotient(year, 400);
    MultipleOf(year, 4, 25);
    MultipleOf(year, 100, 4);
  }

  lemma StepOfQuotient(n: int, d: int)
    requires d > 0
    ensures n / d - (n - 1) / d == if n % d == 0 then 1 else 0
  {
    var q, r := n / d, n % d;
    assert n == d * q + r;
    if r == 0 {
      Quotient(n - 1, d, q - 1, d - 1);
    } else {
      Quotient(n - 1, d, q, r - 1);
    }
  }

  lemma Quotient(n: int, d: int, q: int, r: int)
    requires d > 0 && n == d * q + r && 0 <= r < d
    ensures n / d == q && n % d == r
  {
    var q', r' := n / d, n % d;
    assert n == d * q' + r';
    assert d * q == d * q' + d * (q - q');
    AtLeastOnce(d, q - q');
    AtLeastOnce(d, q' - q);
  }

  lemma AtLeastOnce(d: int, k: int)
    requires d > 0
    ensures k >= 1 ==> d * k >= d
    ensures d * k == -(d * -k)
  {
  }

  /** A multiple of `d * m` is a multiple of `d`. */
  lemma MultipleOf(n: int, d: int, m: int)
    requires d > 0 && m > 0
    ensures d * m > 0
    ensures n % (d * m) == 0 ==> n % d == 0
  {
    assert d * m > 0;
    if n % (d * m) == 0 {
      var q := n / (d * m);
      assert n == d * (m * q) + 0 by {
        assert (d * m) * q == d * (m * q);
      }
      Quotient(n, d, m * q, 0);
    }
  }

  /** Days before the first of `month`. */
  function MonthOffset(year: int, month: int): int
    requires 1 <= month <= 13
    decreases month
  {
    if month == 1 then 0 else MonthOffset(year, month - 1) + DaysIn(year, month - 1)
  }

  lemma TwelveMonths(year: int)
    ensures MonthOffset(year, 13) == if IsLeap(year) then 366 else 365
  {
  }

  /** The month offsets of two years agree up to the leap day. */
  lemma {:induction false} OffsetsCompare(y: int, z: int, month: int)
    requires 1 <= month <= 13
    ensures MonthOffset(z, month) - MonthOffset(y, month)
         == if month <= 2 then 0 else DaysIn(z, 2) - DaysIn(y, 2)
    decreases month
  {
    if month > 1 {
      OffsetsCompare(y, z, month - 1);
    }
  }

  lemma {:induction false} OffsetsGrow(year: int, m: int, n: int)
    requires 1 <= m < n <= 13
    ensures MonthOffset(year, m) + DaysIn(year, m) <= MonthOffset(year, n)
    decreases n
  {
    if m < n - 1 {
      OffsetsGrow(year, m, n - 1);
    }
  }

  function DayNumber(d: Date): int
    requires IsDate(d)
  {
    YearStart(d.year) + MonthOffset(d.year, d.month) + d.day - 1
  }

  lemma {:induction false} YearsGrow(y: int, z: int)
    requires y < z
    ensures YearStart(y) + 365 * (z - y) <= YearStart(z) <= YearStart(y) + 366 * (z - y)
    ensures YearStart(y + 1) <= YearStart(z)
    decreases z - y
  {
    YearLength(z - 1);
    if y < z - 1 {
      YearsGrow(y, z - 1);
    }
  }

  lemma DayInsideYear(d: Date)
    requires IsDate(d)
    ensures YearStart(d.year) <= DayNumber(d) < YearStart(d.year + 1)
  {
    YearLength(d.year);
    TwelveMonths(d.year);
    OffsetsGrow(d.year, d.month, 13);
    OffsetFromZero(d.year, d.month);
  }

  lemma {:induction false} OffsetFromZero(year: int, month: int)
    requires 1 <= month <= 13
    ensures MonthOffset(year, month) >= 0
    decreases month
  {
  }

  lemma BeforeIsSmaller(a: Date, b: Date)
    requires IsDate(a) && IsDate(b) && Before(a, b)
    ensures DayNumber(a) < DayNumber(b)
  {
    if a.year < b.year {
      DayInsideYear(a);
      DayInsideYear(b);
      YearsGrow(a.year, b.year);
    } else if a.month < b.month {
      OffsetsGrow(a.year, a.month, b.month);
    }
  }

  /** Day numbers order dates exactly as the calendar does, so they are one to one. */
  lemma DayNumbersOrderDates(a: Date, b: Date)
    requires IsDate(a) && IsDate(b)
    ensures DayNumber(a) < DayNumber(b) <==> Before(a, b)
    ensures DayNumber(a) == DayNumber(b) <==> a == b
  {
    if Before(a, b) {
      BeforeIsSmaller(a, b);
    } else if Before(b, a) {
      BeforeIsSmaller(b, a);
    }
  }

  // ----- and back -----

  /** Walk forward from `year` to the year holding day `n`. */
  function YearFrom(n: int, year: int): (y: int)
    requires YearStart(year) <= n
    ensures YearStart(y) <= n < YearStart(y + 1)
    decreases n - YearStart(year)
  {
    YearLength(year);
    if n < YearStart(year + 1) then year else YearFrom(n, year + 1)
  }

  lemma CycleStart(c: int)
    ensures YearStart(400 * c) == 146097 * c
  {
  }

  /** Walk forward from `month` to the month holding day `r` of the year. */
  function MonthFrom(year: int, r: int, month: int): (m: int)
    requires 1 <= month <= 12
    requires MonthOffset(year, month) <= r < MonthOffset(year, 13)
    ensures 1 <= m <= 12 && MonthOffset(year, m) <= r < MonthOffset(year, m + 1)
    decreases 13 - month
  {
    if month == 12 || r < MonthOffset(year, month + 1) then month else MonthFrom(year, r, month + 1)
  }

  /** The date with a given day number: every integer has one. */
  function FromDayNumber(n: int): (d: Date)
    ensures IsDate(d) && DayNumber(d) == n
  {
    var c := n / 146097;
    CycleStart(c);
    var y := YearFrom(n, 400 * c);
    var r := n - YearStart(y);
    YearLength(y);
    TwelveMonths(y);
    var m := MonthFrom(y, r, 1);
    Date(y, m, r - MonthOffset(y, m) + 1)
  }

  lemma DayNumberRoundTrip(d: Date)
    requires IsDate(d)
    ensures FromDayNumber(DayNumber(d)) == d
  {
    DayNumbersOrderDates(FromDayNumber(DayNumber(d)), d);
  }

  // ----- where the months begin -----

  /** The day number of the first of every month, in closed form: whole years from 1 March of year 0, a
      leap day at the end of each fourth, and 31, 30, 31, 30, 31 days again and again. */
  lemma FirstOfMonth(year: int, month: int)
    requires 1 <= month <= 12
    ensures IsDate(Date(year, month, 1))
    ensures DayNumber(Date(year, month, 1)) ==
      var y := if month >= 3 then year else year - 1;
      var m := if month >= 3 then month - 3 else month + 9;
      60 + 365 * y + y / 4 - y / 100 + y / 400 + (153 * m + 2) / 5
  {
    if month >= 3 {
      MarchFirst(year);
      FromMarchOn(year, month);
    } else {
      assert (153 * 10 + 2) / 5 == 306 && (153 * 11 + 2) / 5 == 337;
    }
  }

  lemma MarchFirst(year: int)
    ensures YearStart(year) + MonthOffset(year, 3) == 60 + 365 * year + year / 4 - year / 100 + year / 400
  {
    StepOfQuotient(year, 4);
    StepOfQuotient(year, 100);
    StepOfQuotient(year, 400);
    MultipleOf(year, 4, 25);
    MultipleOf(year, 100, 4);
    assert MonthOffset(year, 2) == 31;
  }

  lemma {:induction false} FromMarchOn(year: int, month: int)
    requires 3 <= month <= 12
    ensures MonthOffset(year, month) == MonthOffset(year, 3) + (153 * (month - 3) + 2) / 5
    decreases month
  {
    if month > 3 {
      FromMarchOn(year, month - 1);
      LengthFromMarch(year, month - 1);
    }
  }

  lemma LengthFromMarch(year: int, month: int)
    requires 3 <= month <= 11
    ensures (153 * (month - 2) + 2) / 5 - (153 * (month - 3) + 2) / 5 == DaysIn(year, month)
  {
  }

  // ----- months as one running index -----

  function MonthIndex(d: Date): int {
    12 * d.year + d.month - 1
  }

  function YearOf(t: int): int { t / 12 }

  function MonthOf(t: int): int { t % 12 + 1 }

  function Length(t: int): (n: int)
    ensures 28 <= n <= 31
  {
    DaysIn(YearOf(t), MonthOf(t))
  }

  /** Euclidean division by twelve undoes the month index, in negative years too. */
  lemma MonthIndexRoundTrip(d: Date)
    requires 1 <= d.month <= 12
    ensures YearOf(MonthIndex(d)) == d.year && MonthOf(MonthIndex(d)) == d.month
  {
  }

  /** The date in month `t` whose day is `anchor`, clamped to the month. */
  function Clamped(t: int, anchor: int): (d: Date)
    requires 1 <= anchor <= 31
    ensures IsDate(d) && MonthIndex(d) == t
    ensures d.day <= anchor && d.day <= Length(t) && (d.day == anchor || d.day == Length(t))
  {
    Date(YearOf(t), MonthOf(t), if anchor <= Length(t) then anchor else Length(t))
  }

  /** The only date of that month whose day is the smaller of anchor and length. */
  lemma ClampedIsUnique(t: int, anchor: int, d: Date)
    requires 1 <= anchor <= 31 && IsDate(d) && MonthIndex(d) == t
    requires d.day <= anchor && (d.day == anchor || d.day == DaysIn(d.year, d.month))
    ensures d == Clamped(t, anchor)
  {
  }

  /** Later month, later date, whatever the days. */
  lemma MonthsOrderDates(a: Date, b: Date)
    requires IsDate(a) && IsDate(b)
    ensures MonthIndex(a) < MonthIndex(b) ==> Before(a, b)
    ensures MonthIndex(a) == MonthIndex(b) ==> (Before(a, b) <==> a.day < b.day)
  {
  }

  /** From the first of one month to the first of the next. */
  lemma MonthStep(t: int)
    ensures DayNumber(Clamped(t + 1, 1)) - DayNumber(Clamped(t, 1)) == Length(t)
  {
    var y, m := YearOf(t), MonthOf(t);
    assert t == 12 * y + m - 1;
    assert Clamped(t, 1) == Date(y, m, 1) && Length(t) == DaysIn(y, m);
    assert Clamped(t + 1, 1) == Date(YearOf(t + 1), MonthOf(t + 1), 1);
    if m < 12 {
      Quotient(t + 1, 12, y, m);
      FirstsInAYear(y, m);
    } else {
      Quotient(t + 1, 12, y + 1, 0);
      NewYear(y);
    }
  }

  lemma FirstsInAYear(y: int, m: int)
    requires 1 <= m < 12
    ensures DayNumber(Date(y, m + 1, 1)) - DayNumber(Date(y, m, 1)) == DaysIn(y, m)
  {
  }

  lemma NewYear(y: int)
    ensures DayNumber(Date(y + 1, 1, 1)) - DayNumber(Date(y, 12, 1)) == 31
  {
    YearLength(y);
    TwelveMonths(y);
  }

  lemma DayWithin(t: int, anchor: int)
    requires 1 <= anchor <= 31
    ensures DayNumber(Clamped(t, anchor)) == DayNumber(Clamped(t, 1)) + Clamped(t, anchor).day - 1
  {
  }

  /** The day number of the anchored day in month `t`. */
  function AnchoredDay(t: int, anchor: int): int
    requires 1 <= anchor <= 31
  {
    DayNumber(Clamped(t, anchor))
  }

  /** A month's step of an anchored day is between 28 and 31 days long. */
  lemma AnchoredStep(t: int, anchor: int)
    requires 1 <= anchor <= 31
    ensures 28 <= AnchoredDay(t + 1, anchor) - AnchoredDay(t, anchor) <= 31
  {
    MonthStep(t);
    DayWithin(t, anchor);
    DayWithin(t + 1, anchor);
  }

  /** Every step of `stride` climbs between `lo` and `hi`. */
  ghost predicate Climbs(f: int -> int, stride: int, lo: int, hi: int) {
    forall u :: lo <= f(u + stride) - f(u) <= hi
  }

  /** Steps that each climb between `lo` and `hi` add up. */
  lemma {:induction false} Telescope(f: int -> int, stride: int, lo: int, hi: int, t: int, k: nat)
    requires Climbs(f, stride, lo, hi)
    ensures lo * k <= f(t + stride * k) - f(t) <= hi * k
    decreases k
  {
    if k > 0 {
      Telescope(f, stride, lo, hi, t, k - 1);
      var u := t + stride * (k - 1);
      assert lo <= f(u + stride) - f(u) <= hi;
      assert u + stride == t + stride * k;
      assert lo * k == lo * (k - 1) + lo && hi * k == hi * (k - 1) + hi;
    }
  }

  /** The anchored day, month by month. */
  function Days(anchor: int): int -> int
    requires 1 <= anchor <= 31
  {
    t => AnchoredDay(t, anchor)
  }

  /** A function that climbs steadily by one stride climbs as steadily by many. */
  lemma ManySteps(f: int -> int, stride: int, lo: int, hi: int, k: nat)
    requires Climbs(f, stride, lo, hi)
    ensures Climbs(f, stride * k, lo * k, hi * k)
  {
    forall t ensures lo * k <= f(t + stride * k) - f(t) <= hi * k {
      Telescope(f, stride, lo, hi, t, k);
    }
  }

  /** Sampling one stride after another turns strides into steps of one. */
  lemma Sampled(f: int -> int, g: int -> int, p: int -> int, stride: int, lo: int, hi: int)
    requires Climbs(f, stride, lo, hi)
    requires forall i :: g(i) == f(p(i))
    requires forall i :: p(i + 1) == p(i) + stride
    ensures Climbs(g, 1, lo, hi)
  {
  }

  lemma MonthlySteps(anchor: int)
    requires 1 <= anchor <= 31
    ensures Climbs(Days(anchor), 1, 28, 31)
  {
    forall u ensures 28 <= Days(anchor)(u + 1) - Days(anchor)(u) <= 31 {
      AnchoredStep(u, anchor);
    }
  }

  /** A year's step of an anchored day is 365 or 366 days long. */
  lemma YearlyStep(t: int, anchor: int)
    requires 1 <= anchor <= 31
    ensures 365 <= AnchoredDay(t + 12, anchor) - AnchoredDay(t, anchor) <= 366
  {
    var a, b := Clamped(t, anchor), Clamped(t + 12, anchor);
    Quotient(t + 12, 12, YearOf(t) + 1, MonthOf(t) - 1);
    assert b.year == a.year + 1 && b.month == a.month;
    NextYear(a, b);
  }

  /** The same anchored day a year on. */
  lemma NextYear(a: Date, b: Date)
    requires IsDate(a) && IsDate(b) && b.year == a.year + 1 && b.month == a.month
    requires b.day == a.day || a.day == DaysIn(a.year, a.month) <= b.day == DaysIn(b.year, b.month)
          || b.day == DaysIn(b.year, b.month) <= a.day == DaysIn(a.year, a.month)
    ensures 365 <= DayNumber(b) - DayNumber(a) <= 366
  {
    YearLength(a.year);
    OffsetsCompare(a.year, b.year, a.month);
    LeapNeverTwice(a.year);
    assert DayNumber(b) - DayNumber(a)
        == (if IsLeap(a.year) then 366 else 365)
         + (if a.month <= 2 then 0 else DaysIn(b.year, 2) - DaysIn(a.year, 2)) + b.day - a.day;
  }

  lemma LeapNeverTwice(y: int)
    ensures !(IsLeap(y) && IsLeap(y + 1))
  {
  }

  lemma YearlySteps(anchor: int)
    requires 1 <= anchor <= 31
    ensures Climbs(Days(anchor), 12, 365, 366)
  {
    forall u ensures 365 <= Days(anchor)(u + 12) - Days(anchor)(u) <= 366 {
      YearlyStep(u, anchor);
    }
  }
}
