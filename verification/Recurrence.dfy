/**
 Occurrence dates of a recurring schedule. The anchor is always the start date, so a day clamped
 in a short month comes back in the next long one.
 */
module Recurrence {
  import opened Wrappers
  import opened Calendar
  import opened DateText

  datatype Frequency = Daily | Weekly | Monthly | Yearly

  datatype Fault = Malformed | OutOfRange | Panic

  // ----- 64-bit products -----

  const TwoTo63: int := 0x8000_0000_0000_0000

  predicate Fits64(n: int) {
    -TwoTo63 <= n < TwoTo63
  }

  lemma Fits64Exactly(n: int)
    ensures Fits64(n) <==> -9223372036854775808 <= n <= 9223372036854775807
  {
  }

  /** Two's complement truncation to 64 bits. */
  function Wrap64(n: int): (w: int)
    ensures Fits64(w) && (Fits64(n) ==> w == n)
  {
    (n + TwoTo63) % (2 * TwoTo63) - TwoTo63
  }

  /** An unchecked product: panics when overflow checks are compiled in, wraps otherwise. */
  function Narrow(checks: bool, n: int): Result<int, Fault> {
    if Fits64(n) then Ok(n)
    else if checks then Err(Panic)
    else Ok(Wrap64(n))
  }

  // ----- the operations -----

  function Within(d: Date): (r: Result<Date, Fault>)
    requires IsDate(d)
    ensures r.Ok? ==> Supported(r.value)
  {
    if Supported(d) then Ok(d) else Err(OutOfRange)
  }

  /** `add_days`: the duration is held in 64-bit seconds. */
  function AddDays(start: Date, days: int): (r: Result<Date, Fault>)
    requires Supported(start)
    ensures r.Ok? ==> Supported(r.value)
  {
    if !Fits64(86400 * days) then Err(Panic) else Within(FromDayNumber(DayNumber(start) + days))
  }

  /** `add_months`: checked 64-bit index, 32-bit year, then the anchor's day clamped. */
  function AddMonths(start: Date, months: int): (r: Result<Date, Fault>)
    requires Supported(start)
    ensures r.Ok? ==> Supported(r.value)
  {
    var index := start.year * 12 + (start.month - 1) + months;
    var year, month := index / 12, index % 12 + 1;
    if !Fits64(index) then Err(OutOfRange)
    else if !(-0x8000_0000 <= year < 0x8000_0000) then Err(OutOfRange)
    else
      var length := DaysIn(year, month);
      Within(Date(year, month, if start.day < length then start.day else length))
  }

  function OccurrenceOn(checks: bool, start: Date, f: Frequency, k: int, i: int): (r: Result<Date, Fault>)
    requires Supported(start)
    ensures r.Ok? ==> Supported(r.value)
  {
    match Narrow(checks, k * i)
    case Err(e) => Err(e)
    case Ok(n) => Advance(checks, start, f, n)
  }

  /** Advance by `n` times the frequency's unit. */
  function Advance(checks: bool, start: Date, f: Frequency, n: int): (r: Result<Date, Fault>)
    requires Supported(start)
    ensures r.Ok? ==> Supported(r.value)
  {
    match f
    case Daily => AddDays(start, n)
    case Monthly => AddMonths(start, n)
    case Weekly =>
      (match Narrow(checks, n * 7)
       case Err(e) => Err(e)
       case Ok(m) => AddDays(start, m))
    case Yearly =>
      match Narrow(checks, n * 12)
      case Err(e) => Err(e)
      case Ok(m) => AddMonths(start, m)
  }

  /** `occurrence_date`, from text to text. */
  function OccurrenceDate(checks: bool, start: string, f: Frequency, k: int, i: int): Result<string, Fault> {
    match ParseDate(start)
    case None => Err(Malformed)
    case Some(d) =>
      match OccurrenceOn(checks, d, f, k, i)
      case Err(e) => Err(e)
      case Ok(r) => Ok(FormatDate(r))
  }

  /** `due_date`: the occurrence plus a number of days. */
  function DueDate(occurrence: string, dueDays: int): Result<string, Fault> {
    match ParseDate(occurrence)
    case None => Err(Malformed)
    case Some(d) =>
      match AddDays(d, dueDays)
      case Err(e) => Err(e)
      case Ok(r) => Ok(FormatDate(r))
  }

  // ----- what they mean -----

  /** Days or months per unit of the frequency. */
  function Unit(f: Frequency): (u: int)
    ensures 1 <= u <= 12
  {
    match f case Daily => 1 case Weekly => 7 case Monthly => 1 case Yearly => 12
  }

  predicate ByDays(f: Frequency) { f.Daily? || f.Weekly? }

  /** `n` days, or `n` months with the anchored day clamped, on the unbounded calendar. */
  function Shift(start: Date, f: Frequency, n: int): (d: Date)
    requires IsDate(start)
    ensures IsDate(d)
  {
    if ByDays(f) then FromDayNumber(DayNumber(start) + n)
    else
      DayFits(start);
      Clamped(MonthIndex(start) + n, start.day)
  }

  lemma DayFits(d: Date)
    requires IsDate(d)
    ensures 1 <= d.day <= 31
  {
  }

  /** Occurrence `i` of a schedule every `k` units. */
  function Occurrence(start: Date, f: Frequency, k: int, i: int): (d: Date)
    requires IsDate(start)
    ensures IsDate(d)
  {
    Shift(start, f, k * i * Unit(f))
  }

  lemma AddMonthsIsShift(start: Date, months: int)
    requires Supported(start)
    ensures AddMonths(start, months) == Within(Shift(start, Monthly, months))
  {
  }

  /** Month arithmetic is exact: it fails exactly when the target year is out of range; otherwise
      it lands `months` months on, on the anchor's day or the month's last. */
  lemma AddMonthsIsExact(start: Date, months: int)
    requires Supported(start)
    ensures AddMonths(start, months).Ok? <==> -9999 <= (MonthIndex(start) + months) / 12 <= 9999
    ensures AddMonths(start, months).Err? ==> AddMonths(start, months).error == OutOfRange
    ensures var r := AddMonths(start, months);
            r.Ok? ==> && Supported(r.value)
                      && MonthIndex(r.value) == MonthIndex(start) + months
                      && r.value.day <= start.day
                      && (r.value.day == start.day || (r.value.day == DaysIn(r.value.year, r.value.month)))
                      && (start.day <= DaysIn(r.value.year, r.value.month) ==> r.value.day == start.day)
  {
  }

  /** An anchor on the 31st reads 30 exactly in April, June, September and November, 28 or 29 in February,
      and 31 in every other month. */
  lemma ThirtyFirstReads(start: Date, months: int)
    requires Supported(start) && start.day == 31 && AddMonths(start, months).Ok?
    ensures var d := AddMonths(start, months).value;
            && (d.day == 30 <==> d.month == 4 || d.month == 6 || d.month == 9 || d.month == 11)
            && (d.day == 29 <==> d.month == 2 && d.year % 4 == 0 && (d.year % 100 != 0 || d.year % 400 == 0))
            && (d.day == 28 <==> d.month == 2 && (d.year % 4 != 0 || (d.year % 100 == 0 && d.year % 400 != 0)))
            && 28 <= d.day <= 31
  {
    AddMonthsIsExact(start, months);
  }

  // ----- overflow -----

  /** Every intermediate product of the occurrence fits in 64 bits. */
  predicate Fitting(f: Frequency, k: int, i: int) {
    && Fits64(k * i) && Fits64(k * i * Unit(f))
    && (ByDays(f) ==> Fits64(86400 * (k * i * Unit(f))))
  }

  /** A shift whose day count must fit a duration. */
  function ShiftHeld(start: Date, f: Frequency, n: int): Result<Date, Fault>
    requires IsDate(start)
  {
    if ByDays(f) && !Fits64(86400 * n) then Err(Panic) else Within(Shift(start, f, n))
  }

  /** With overflow checks, the code computes the unbounded meaning exactly when its products fit,
      and panics otherwise. */
  lemma CheckedBuildIsExact(start: Date, f: Frequency, k: int, i: int)
    requires Supported(start)
    ensures OccurrenceOn(true, start, f, k, i) == Within(Occurrence(start, f, k, i)) <==> Fitting(f, k, i)
    ensures OccurrenceOn(true, start, f, k, i) == Err(Panic) <==> !Fitting(f, k, i)
  {
    CheckedAdvance(start, f, k * i);
  }

  lemma CheckedAdvance(start: Date, f: Frequency, n: int)
    requires Supported(start)
    ensures Advance(true, start, f, n)
         == if Fits64(n * Unit(f)) || f.Daily? || f.Monthly? then ShiftHeld(start, f, n * Unit(f)) else Err(Panic)
  {
    AddHeld(start, f, n * Unit(f));
    match f {
      case Daily => assert n * Unit(f) == n;
      case Weekly => assert n * Unit(f) == n * 7;
      case Monthly => assert n * Unit(f) == n;
      case Yearly => assert n * Unit(f) == n * 12;
    }
  }

  lemma AddHeld(start: Date, f: Frequency, n: int)
    requires Supported(start)
    ensures (if ByDays(f) then AddDays(start, n) else AddMonths(start, n)) == ShiftHeld(start, f, n)
  {
  }

  /** A wrapped product, wrapped again after scaling, is the whole product wrapped once. */
  lemma WrapTwice(n: int, u: int)
    ensures Wrap64(Wrap64(n) * u) == Wrap64(n * u)
  {
    var m := 2 * TwoTo63;
    var q := (n + TwoTo63) / m;
    assert Wrap64(n) == n - m * q;
    assert Wrap64(n) * u == n * u - (m * q) * u;
    assert (m * q) * u == m * (q * u);
    Quotient(Wrap64(n) * u + TwoTo63, m, (n * u + TwoTo63) / m - q * u, (n * u + TwoTo63) % m);
  }

  lemma ReleaseAdvances(start: Date, f: Frequency, n: int)
    requires Supported(start) && Wrap64(n) == n
    ensures Advance(false, start, f, n) ==
      var m := Wrap64(n * Unit(f)); if ByDays(f) then AddDays(start, m) else AddMonths(start, m)
  {
  }

  /** Without overflow checks, the shift is by the wrapped product. */
  lemma ReleaseShifts(start: Date, f: Frequency, k: int, i: int)
    requires Supported(start)
    ensures OccurrenceOn(false, start, f, k, i) == ShiftHeld(start, f, Wrap64(k * i * Unit(f)))
  {
    WrapTwice(k * i, Unit(f));
    WrapTwice(k * i, 1);
    ReleaseAdvances(start, f, Wrap64(k * i));
    AddHeld(start, f, Wrap64(k * i * Unit(f)));
  }

  /** A shift by more than ten million leaves the supported range. */
  lemma FarShiftsAreOutOfRange(start: Date, f: Frequency, n: int)
    requires Supported(start) && (n > 10_000_000 || n < -10_000_000)
    ensures !Supported(Shift(start, f, n))
  {
    var d := Shift(start, f, n);
    if Supported(d) {
      SupportedSpan(start, d);
      DayFits(start);
    }
  }

  /** Any two supported dates are fewer than ten million days and months apart. */
  lemma SupportedSpan(a: Date, b: Date)
    requires Supported(a) && Supported(b)
    ensures -10_000_000 < DayNumber(b) - DayNumber(a) < 10_000_000
    ensures -10_000_000 < MonthIndex(b) - MonthIndex(a) < 10_000_000
  {
    SupportedDays(a);
    SupportedDays(b);
  }

  lemma SupportedDays(d: Date)
    requires Supported(d)
    ensures -4_000_000 < DayNumber(d) < 4_000_000
  {
    DayInsideYear(d);
    CycleStart(0);
    if d.year < 0 { YearsGrow(d.year, 0); }
    if d.year > 0 { YearsGrow(0, d.year); }
    YearLength(d.year);
  }

  /** The shortest and the longest shift that stay in the calendar. */
  function Least(start: Date, f: Frequency): int
    requires IsDate(start)
  {
    if ByDays(f) then DayNumber(Date(-9999, 1, 1)) - DayNumber(start) else 12 * -9999 - MonthIndex(start)
  }

  function Most(start: Date, f: Frequency): int
    requires IsDate(start)
  {
    if ByDays(f) then DayNumber(Date(9999, 12, 31)) - DayNumber(start) else 12 * 9999 + 11 - MonthIndex(start)
  }

  lemma InRangeExactly(start: Date, f: Frequency, n: int)
    requires IsDate(start)
    ensures Supported(Shift(start, f, n)) <==> Least(start, f) <= n <= Most(start, f)
  {
    if ByDays(f) {
      DaysInRange(Shift(start, f, n));
    } else {
      DayFits(start);
    }
  }

  lemma DaysInRange(d: Date)
    requires IsDate(d)
    ensures Supported(d) <==> DayNumber(Date(-9999, 1, 1)) <= DayNumber(d) <= DayNumber(Date(9999, 12, 31))
  {
    DayNumbersOrderDates(d, Date(-9999, 1, 1));
    DayNumbersOrderDates(Date(9999, 12, 31), d);
  }

  /** The release build is right exactly when nothing wrapped, or when the wrapped shift is too short
      or too long for the calendar; a day count too long for a duration is a panic. */
  lemma ReleaseBuildIsExactWhen(start: Date, f: Frequency, k: int, i: int)
    requires Supported(start)
    ensures OccurrenceOn(false, start, f, k, i) == Within(Occurrence(start, f, k, i))
       <==> && (ByDays(f) ==> Fits64(86400 * Wrap64(k * i * Unit(f))))
            && (Fits64(k * i * Unit(f)) || !(Least(start, f) <= Wrap64(k * i * Unit(f)) <= Most(start, f)))
  {
    ReleaseShifts(start, f, k, i);
    InRangeExactly(start, f, Wrap64(k * i * Unit(f)));
    if !Fits64(k * i * Unit(f)) {
      FarShiftsAreOutOfRange(start, f, k * i * Unit(f));
    }
  }

  lemma WrapsToNothing(u: int)
    ensures Wrap64(0x4000_0000_0000_0000 * 4 * u) == 0
  {
  }

  /** Without overflow checks a late occurrence can come back as the start date itself. */
  lemma WrappedOccurrenceIsTheStart(start: Date, f: Frequency)
    requires Supported(start)
    ensures OccurrenceOn(false, start, f, 0x4000_0000_0000_0000, 4) == Ok(start)
    ensures Within(Occurrence(start, f, 0x4000_0000_0000_0000, 4)) == Err(OutOfRange)
  {
    ReleaseShifts(start, f, 0x4000_0000_0000_0000, 4);
    WrapsToNothing(Unit(f));
    ShiftByNothing(start, f);
    FarShiftsAreOutOfRange(start, f, 0x4000_0000_0000_0000 * 4 * Unit(f));
  }

  lemma ShiftByNothing(start: Date, f: Frequency)
    requires IsDate(start)
    ensures Shift(start, f, 0) == start
  {
    DayFits(start);
    DayNumberRoundTrip(start);
    ClampedIsUnique(MonthIndex(start), start.day, start);
  }

  // ----- the schedule -----

  /** Later index, later date, for every frequency. */
  lemma OccurrencesIncrease(start: Date, f: Frequency, k: int, i: int, j: int)
    requires IsDate(start) && k >= 1 && i < j
    ensures Before(Occurrence(start, f, k, i), Occurrence(start, f, k, j))
    ensures DayNumber(Occurrence(start, f, k, i)) < DayNumber(Occurrence(start, f, k, j))
  {
    Scale(k, i, j, Unit(f));
    var a, b := Occurrence(start, f, k, i), Occurrence(start, f, k, j);
    DayFits(start);
    MonthsOrderDates(a, b);
    DayNumbersOrderDates(a, b);
  }

  lemma Scale(k: int, i: int, j: int, u: int)
    requires k >= 1 && u >= 1 && i < j
    ensures k * i * u < k * j * u
  {
  }

  /** The day number of every occurrence, by index. */
  function OccurrenceDays(start: Date, f: Frequency, k: int): int -> int
    requires IsDate(start)
  {
    i => DayNumber(Occurrence(start, f, k, i))
  }

  /** The least and most days in one unit, from an anchored day to the next. */
  function Shortest(f: Frequency): int {
    match f case Daily => 1 case Weekly => 7 case Monthly => 28 case Yearly => 365
  }

  function Longest(f: Frequency): int {
    match f case Daily => 1 case Weekly => 7 case Monthly => 31 case Yearly => 366
  }

  /** Consecutive occurrences of a `k`-unit schedule are `k` units' days apart: exactly `k` days
      or `7 * k`, between 28 and 31 times `k`, or between 365 and 366 times `k`. */
  lemma Gaps(start: Date, f: Frequency, k: nat, i: int)
    requires IsDate(start)
    ensures var gap := DayNumber(Occurrence(start, f, k, i + 1)) - DayNumber(Occurrence(start, f, k, i));
            match f
            case Daily => gap == k
            case Weekly => gap == 7 * k
            case Monthly => 28 * k <= gap <= 31 * k
            case Yearly => 365 * k <= gap <= 366 * k
  {
    UnitGaps(start, f, k);
    var days := OccurrenceDays(start, f, k);
    assert Shortest(f) * k <= days(i + 1) - days(i) <= Longest(f) * k;
  }

  lemma UnitGaps(start: Date, f: Frequency, k: nat)
    requires IsDate(start)
    ensures Climbs(OccurrenceDays(start, f, k), 1, Shortest(f) * k, Longest(f) * k)
  {
    if ByDays(f) {
      DayGaps(start, f, k);
    } else {
      MonthGaps(start, f, k);
    }
  }

  lemma UnitSteps(anchor: int, f: Frequency)
    requires 1 <= anchor <= 31 && !ByDays(f)
    ensures Climbs(Days(anchor), Unit(f), Shortest(f), Longest(f))
  {
    if f.Monthly? {
      MonthlySteps(anchor);
    } else {
      YearlySteps(anchor);
    }
  }

  /** The month index of every occurrence. */
  function OccurrenceMonths(start: Date, f: Frequency, k: int): int -> int {
    i => MonthIndex(start) + k * i * Unit(f)
  }

  lemma MonthGaps(start: Date, f: Frequency, k: nat)
    requires IsDate(start) && !ByDays(f)
    ensures Climbs(OccurrenceDays(start, f, k), 1, Shortest(f) * k, Longest(f) * k)
  {
    DayFits(start);
    MonthsMatch(start, f, k);
    MonthsAdvance(start, f, k);
    UnitSteps(start.day, f);
    ManySteps(Days(start.day), Unit(f), Shortest(f), Longest(f), k);
    Sampled(Days(start.day), OccurrenceDays(start, f, k), OccurrenceMonths(start, f, k),
            Unit(f) * k, Shortest(f) * k, Longest(f) * k);
  }

  lemma MonthsMatch(start: Date, f: Frequency, k: nat)
    requires IsDate(start) && !ByDays(f)
    ensures 1 <= start.day <= 31
    ensures forall i :: OccurrenceDays(start, f, k)(i) == Days(start.day)(OccurrenceMonths(start, f, k)(i))
  {
  }

  lemma MonthsAdvance(start: Date, f: Frequency, k: nat)
    ensures forall i :: OccurrenceMonths(start, f, k)(i + 1) == OccurrenceMonths(start, f, k)(i) + Unit(f) * k
  {
  }

  lemma NextIndex(k: int, i: int, u: int)
    ensures k * (i + 1) * u == k * i * u + u * k
  {
  }

  lemma DayGaps(start: Date, f: Frequency, k: nat)
    requires IsDate(start) && ByDays(f)
    ensures Climbs(OccurrenceDays(start, f, k), 1, Shortest(f) * k, Longest(f) * k)
  {
    assert Shortest(f) == Unit(f) == Longest(f);
    assert Shortest(f) * k == Unit(f) * k == Longest(f) * k;
    forall i
      ensures Shortest(f) * k <= OccurrenceDays(start, f, k)(i + 1) - OccurrenceDays(start, f, k)(i) <= Longest(f) * k
    {
      DayAdvances(start, f, k, i);
    }
  }

  lemma DayAdvances(start: Date, f: Frequency, k: nat, i: int)
    requires IsDate(start) && ByDays(f)
    ensures OccurrenceDays(start, f, k)(i + 1) - OccurrenceDays(start, f, k)(i) == Unit(f) * k
  {
    NextIndex(k, i, Unit(f));
    ShiftIsDays(start, f, k * i * Unit(f));
    ShiftIsDays(start, f, k * (i + 1) * Unit(f));
  }

  lemma ShiftIsDays(start: Date, f: Frequency, n: int)
    requires IsDate(start) && ByDays(f)
    ensures DayNumber(Shift(start, f, n)) == DayNumber(start) + n
  {
  }

  // ----- which indices are due -----

  /** The longest shift that is not after `asOf`. */
  function Reach(start: Date, f: Frequency, asOf: Date): int
    requires IsDate(start) && IsDate(asOf)
  {
    DayFits(start);
    if ByDays(f) then DayNumber(asOf) - DayNumber(start)
    else
      var short := asOf.day < Clamped(MonthIndex(asOf), start.day).day;
      MonthIndex(asOf) - MonthIndex(start) - (if short then 1 else 0)
  }

  /** The last index due by `asOf`; negative when none is. */
  function LastDue(start: Date, f: Frequency, k: int, asOf: Date): int
    requires IsDate(start) && IsDate(asOf) && k >= 1
  {
    AtLeastOnce(k, Unit(f));
    Reach(start, f, asOf) / (k * Unit(f))
  }

  lemma ReachIsTheLongest(start: Date, f: Frequency, n: int, asOf: Date)
    requires IsDate(start) && IsDate(asOf)
    ensures !Before(asOf, Shift(start, f, n)) <==> n <= Reach(start, f, asOf)
  {
    DayFits(start);
    var d := Shift(start, f, n);
    if ByDays(f) {
      DayNumbersOrderDates(asOf, d);
    } else {
      assert d == Clamped(MonthIndex(start) + n, start.day);
      MonthsOrderDates(asOf, d);
      MonthsOrderDates(d, asOf);
    }
  }

  lemma AtMostQuotient(n: int, d: int, i: int)
    requires d > 0
    ensures d * i <= n <==> i <= n / d
  {
    var q, r := n / d, n % d;
    assert n == d * q + r;
    assert d * i == d * q + d * (i - q);
    AtLeastOnce(d, i - q);
    AtLeastOnce(d, q - i);
  }

  lemma Reorder(k: int, i: int, u: int)
    ensures k * u * i == k * i * u
  {
  }

  /** The due indices are exactly those up to a computable last one. */
  lemma DueIsAPrefix(start: Date, f: Frequency, k: int, i: int, asOf: Date)
    requires IsDate(start) && IsDate(asOf) && k >= 1
    ensures !Before(asOf, Occurrence(start, f, k, i)) <==> i <= LastDue(start, f, k, asOf)
  {
    AtLeastOnce(k, Unit(f));
    ReachIsTheLongest(start, f, k * i * Unit(f), asOf);
    Reorder(k, i, Unit(f));
    AtMostQuotient(Reach(start, f, asOf), k * Unit(f), i);
  }

  /** The code finds index `i` due by the date. */
  predicate FoundDue(checks: bool, start: Date, f: Frequency, k: int, i: int, asOf: Date)
    requires Supported(start)
  {
    var r := OccurrenceOn(checks, start, f, k, i);
    r.Ok? && !Before(asOf, r.value)
  }

  /** The code finds due exactly the indices up to `LastDue`, in either build, as long as the product
      does not wrap; an index whose product wraps is found due exactly when the wrapped shift stays in
      the calendar and within reach of the date. */
  lemma CodeDueIsAPrefix(checks: bool, start: Date, f: Frequency, k: int, i: int, asOf: Date)
    requires Supported(start) && Supported(asOf) && k >= 1 && i >= 0
    ensures FoundDue(checks, start, f, k, i, asOf) <==>
      if checks || Fits64(k * i * Unit(f)) then i <= LastDue(start, f, k, asOf)
      else Least(start, f) <= Wrap64(k * i * Unit(f)) <= Reach(start, f, asOf)
  {
    if checks || Fits64(k * i * Unit(f)) {
      UnwrappedDue(checks, start, f, k, i, asOf);
    } else {
      WrappedDue(start, f, k, i, asOf, Wrap64(k * i * Unit(f)));
    }
  }

  lemma UnwrappedDue(checks: bool, start: Date, f: Frequency, k: int, i: int, asOf: Date)
    requires Supported(start) && Supported(asOf) && k >= 1 && i >= 0
    requires checks || Fits64(k * i * Unit(f))
    ensures FoundDue(checks, start, f, k, i, asOf) <==> i <= LastDue(start, f, k, asOf)
  {
    DueIsAPrefix(start, f, k, i, asOf);
    UnwrappedIsRight(checks, start, f, k, i);
    if i <= LastDue(start, f, k, asOf) {
      DueIsComputed(checks, start, f, k, i, asOf);
    }
  }

  lemma UnwrappedIsRight(checks: bool, start: Date, f: Frequency, k: int, i: int)
    requires Supported(start) && (checks || Fits64(k * i * Unit(f)))
    ensures OccurrenceOn(checks, start, f, k, i).Ok? ==>
              OccurrenceOn(checks, start, f, k, i).value == Occurrence(start, f, k, i)
  {
    if checks {
      CheckedBuildIsExact(start, f, k, i);
    } else {
      ReleaseShifts(start, f, k, i);
    }
  }

  lemma WrappedDue(start: Date, f: Frequency, k: int, i: int, asOf: Date, n: int)
    requires Supported(start) && Supported(asOf) && n == Wrap64(k * i * Unit(f))
    ensures FoundDue(false, start, f, k, i, asOf) <==> Least(start, f) <= n <= Reach(start, f, asOf)
  {
    ReleaseShifts(start, f, k, i);
    InRangeExactly(start, f, n);
    ReachIsTheLongest(start, f, n, asOf);
    ReachIsInRange(start, f, asOf);
    SpanOfShifts(start, f);
  }

  lemma ReachIsInRange(start: Date, f: Frequency, asOf: Date)
    requires IsDate(start) && Supported(asOf)
    ensures Reach(start, f, asOf) <= Most(start, f)
  {
    DayFits(start);
    DaysInRange(asOf);
  }

  lemma SpanOfShifts(start: Date, f: Frequency)
    requires Supported(start)
    ensures -10_000_000 < Least(start, f) && Most(start, f) < 10_000_000
  {
    SupportedSpan(start, Date(-9999, 1, 1));
    SupportedSpan(start, Date(9999, 12, 31));
  }

  /** Every due occurrence lies between the start and the as-of date, so nothing overflows. */
  lemma DueIsComputed(checks: bool, start: Date, f: Frequency, k: int, i: int, asOf: Date)
    requires Supported(start) && Supported(asOf) && k >= 1 && i >= 0
    requires !Before(asOf, Occurrence(start, f, k, i))
    ensures OccurrenceOn(checks, start, f, k, i) == Ok(Occurrence(start, f, k, i))
  {
    var n := k * i * Unit(f);
    if i > 0 {
      Scale(k, 0, i, Unit(f));
    }
    assert k * 0 * Unit(f) == 0;
    DueShiftIsSmall(start, f, n, asOf);
    Shrink(k * i, Unit(f));
    CheckedBuildIsExact(start, f, k, i);
    ReleaseShifts(start, f, k, i);
  }

  lemma DueShiftIsSmall(start: Date, f: Frequency, n: nat, asOf: Date)
    requires Supported(start) && Supported(asOf) && !Before(asOf, Shift(start, f, n))
    ensures Supported(Shift(start, f, n)) && n <= 10_000_000
  {
    NotBeforeTheStart(start, f, n);
    if n > 10_000_000 {
      FarShiftsAreOutOfRange(start, f, n);
    }
  }

  lemma NotBeforeTheStart(start: Date, f: Frequency, n: nat)
    requires IsDate(start)
    ensures !Before(Shift(start, f, n), start)
  {
    var d := Shift(start, f, n);
    DayFits(start);
    ShiftByNothing(start, f);
    DayNumbersOrderDates(d, start);
    MonthsOrderDates(d, start);
    MonthsOrderDates(start, d);
  }

  lemma Shrink(n: int, u: int)
    requires 1 <= u <= 12 && n * u >= 0
    ensures 0 <= n <= n * u
  {
  }

  // ----- the month-end rule -----

  /** Anchoring against chaining: clamping twice is never later than clamping once from the
      anchor, and loses nothing exactly when the month in between could hold the day. */
  lemma AnchoringBeatsChaining(start: Date, a: int, b: int)
    requires Supported(start)
    requires AddMonths(start, a).Ok? && AddMonths(AddMonths(start, a).value, b).Ok?
    ensures AddMonths(start, a + b).Ok?
    ensures var between := AddMonths(start, a).value;
            var chained := AddMonths(between, b).value;
            var anchored := AddMonths(start, a + b).value;
            && !Before(anchored, chained)
            && (chained == anchored <==> anchored.day <= DaysIn(between.year, between.month))
  {
  }

  /** A yearly schedule from 29 February stays in February and reads 29 exactly in leap years. */
  lemma LeapDayRecovers(checks: bool, year: int, k: int, i: int)
    requires -9999 <= year <= 9999 && IsLeap(year) && Fitting(Yearly, k, i)
    ensures var r := OccurrenceOn(checks, Date(year, 2, 29), Yearly, k, i);
            && (r.Ok? <==> -9999 <= year + k * i <= 9999)
            && (r.Ok? ==> r.value == Date(year + k * i, 2, if IsLeap(year + k * i) then 29 else 28))
  {
  }

  /** An anchored monthly schedule recovers its day in every month long enough, whatever came before. */
  lemma MonthlyRecovers(checks: bool, start: Date, k: int, i: int)
    requires Supported(start) && Fitting(Monthly, k, i) && OccurrenceOn(checks, start, Monthly, k, i).Ok?
    ensures var d := OccurrenceOn(checks, start, Monthly, k, i).value;
            && MonthIndex(d) == MonthIndex(start) + k * i
            && (d.day == start.day <==> start.day <= DaysIn(d.year, d.month))
            && (d.day != start.day ==> d.day == DaysIn(d.year, d.month))
  {
  }

  // ----- from text to text -----

  /** Index zero gives the start date back; letter for letter exactly when it was spelled canonically. */
  lemma IndexZeroIsTheStart(checks: bool, start: string, f: Frequency, k: int)
    ensures OccurrenceDate(checks, start, f, k, 0).Ok? <==> ParseDate(start).Some?
    ensures ParseDate(start).Some? ==>
              && OccurrenceDate(checks, start, f, k, 0) == Ok(FormatDate(ParseDate(start).value))
              && (OccurrenceDate(checks, start, f, k, 0) == Ok(start) <==> Canonical(start))
  {
    if ParseDate(start).Some? {
      var d := ParseDate(start).value;
      assert k * 0 * Unit(f) == 0;
      ReleaseShifts(d, f, k, 0);
      CheckedBuildIsExact(d, f, k, 0);
      ShiftByNothing(d, f);
      ParseThenFormat(start);
    }
  }

  /** A text that is no date is reported as such, and nothing else is. */
  lemma MalformedExactly(checks: bool, start: string, f: Frequency, k: int, i: int, dueDays: int)
    ensures OccurrenceDate(checks, start, f, k, i) == Err(Malformed) <==> ParseDate(start).None?
    ensures DueDate(start, dueDays) == Err(Malformed) <==> ParseDate(start).None?
  {
    if ParseDate(start).Some? {
      var d := ParseDate(start).value;
      NeverMalformed(checks, d, f, k, i);
    }
  }

  lemma NeverMalformed(checks: bool, start: Date, f: Frequency, k: int, i: int)
    requires Supported(start)
    ensures OccurrenceOn(checks, start, f, k, i) != Err(Malformed)
  {
  }

  /** A computed occurrence reads back as the date computed. */
  lemma OccurrenceReadsBack(checks: bool, start: string, f: Frequency, k: int, i: int)
    requires OccurrenceDate(checks, start, f, k, i).Ok?
    ensures ParseDate(start).Some? && OccurrenceOn(checks, ParseDate(start).value, f, k, i).Ok?
    ensures ParseDate(OccurrenceDate(checks, start, f, k, i).value)
         == Some(OccurrenceOn(checks, ParseDate(start).value, f, k, i).value)
  {
    FormatThenParse(OccurrenceOn(checks, ParseDate(start).value, f, k, i).value);
  }

  /** A due date is exactly that many days after the occurrence, or out of range when there is no such date. */
  lemma DueDateIsExact(occurrence: string, dueDays: int)
    requires ParseDate(occurrence).Some?
    ensures DueDate(occurrence, dueDays).Ok?
       <==> Fits64(86400 * dueDays) && Supported(FromDayNumber(DayNumber(ParseDate(occurrence).value) + dueDays))
    ensures DueDate(occurrence, dueDays) == Err(Panic) <==> !Fits64(86400 * dueDays)
    ensures DueDate(occurrence, dueDays).Ok? ==>
              && ParseDate(DueDate(occurrence, dueDays).value).Some?
              && DayNumber(ParseDate(DueDate(occurrence, dueDays).value).value)
              == DayNumber(ParseDate(occurrence).value) + dueDays
  {
    var due := FromDayNumber(DayNumber(ParseDate(occurrence).value) + dueDays);
    if Supported(due) {
      FormatThenParse(due);
    }
  }

  /** From a start in year 0 or later, occurrence texts increase with the index. */
  lemma OccurrenceTextsIncrease(checks: bool, start: string, f: Frequency, k: int, i: int, j: int)
    requires ParseDate(start).Some? && ParseDate(start).value.year >= 0 && k >= 1 && 0 <= i < j
    requires Fitting(f, k, i) && Fitting(f, k, j)
    requires OccurrenceDate(checks, start, f, k, i).Ok? && OccurrenceDate(checks, start, f, k, j).Ok?
    ensures TextBefore(OccurrenceDate(checks, start, f, k, i).value, OccurrenceDate(checks, start, f, k, j).value)
  {
    OccurrenceText(checks, start, f, k, i);
    OccurrenceText(checks, start, f, k, j);
    InOrder(ParseDate(start).value, f, k, i, j);
    LaterTexts(ParseDate(start).value, Occurrence(ParseDate(start).value, f, k, i),
               Occurrence(ParseDate(start).value, f, k, j));
  }

  lemma InOrder(start: Date, f: Frequency, k: int, i: int, j: int)
    requires IsDate(start) && k >= 1 && 0 <= i < j
    ensures !Before(Occurrence(start, f, k, i), start)
    ensures Before(Occurrence(start, f, k, i), Occurrence(start, f, k, j))
  {
    OccurrencesIncrease(start, f, k, i, j);
    if i > 0 {
      Scale(k, 0, i, Unit(f));
    }
    NotBeforeTheStart(start, f, k * i * Unit(f));
  }

  lemma OccurrenceText(checks: bool, start: string, f: Frequency, k: int, i: int)
    requires Fitting(f, k, i) && OccurrenceDate(checks, start, f, k, i).Ok?
    ensures ParseDate(start).Some? && Supported(Occurrence(ParseDate(start).value, f, k, i))
    ensures OccurrenceDate(checks, start, f, k, i) == Ok(FormatDate(Occurrence(ParseDate(start).value, f, k, i)))
  {
    FittingIsExact(checks, ParseDate(start).value, f, k, i);
  }

  lemma LaterTexts(d: Date, a: Date, b: Date)
    requires d.year >= 0 && Supported(a) && Supported(b) && !Before(a, d) && Before(a, b)
    ensures TextBefore(FormatDate(a), FormatDate(b))
  {
    TextsOrderDatesExactly(a, b);
  }

  lemma FittingIsExact(checks: bool, start: Date, f: Frequency, k: int, i: int)
    requires Supported(start) && Fitting(f, k, i)
    ensures OccurrenceOn(checks, start, f, k, i) == Within(Occurrence(start, f, k, i))
  {
    CheckedBuildIsExact(start, f, k, i);
    ReleaseShifts(start, f, k, i);
  }
}
