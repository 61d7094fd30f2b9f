/**
 * The booking calendar (src/components/Calendar/index.tsx): the `currentDate`
 * navigation state, the zero-padded `month` query parameter, and the
 * `calendarWeeks` grid with its leading and trailing fills.
 *
 * Dates are abstract. Instead of dayjs the grid takes the weekday of day 1,
 * the number of days of the displayed month and of the month before it, and a
 * predicate saying whether a day of the displayed month is already past
 * (the comparison with the wall clock).
 */
module Calendar {
  import opened Results

  // ------------------------------------------------------------------
  // Month navigation
  // ------------------------------------------------------------------

  /** A month as dayjs numbers it: `month` runs from 0 (January) to 11 (December). */
  datatype YearMonth = YearMonth(year: int, month: nat)

  predicate ValidMonth(ym: YearMonth) { ym.month < 12 }

  /** Months elapsed since January of year 0; navigation moves it by exactly one. */
  function MonthIndex(ym: YearMonth): int { ym.year * 12 + ym.month }

  /** `subtract(1, 'month')` on a date that sits on day 1. */
  function MonthBefore(ym: YearMonth): (r: YearMonth)
    requires ValidMonth(ym)
    ensures ValidMonth(r) && MonthIndex(r) == MonthIndex(ym) - 1
  {
    if ym.month == 0 then YearMonth(ym.year - 1, 11) else YearMonth(ym.year, ym.month - 1)
  }

  /** `add(1, 'month')` on a date that sits on day 1. */
  function MonthAfter(ym: YearMonth): (r: YearMonth)
    requires ValidMonth(ym)
    ensures ValidMonth(r) && MonthIndex(r) == MonthIndex(ym) + 1
  {
    if ym.month == 11 then YearMonth(ym.year + 1, 0) else YearMonth(ym.year, ym.month + 1)
  }

  /** Two valid months with the same index are the same month. */
  lemma MonthIndexInjective(a: YearMonth, b: YearMonth)
    requires ValidMonth(a) && ValidMonth(b) && MonthIndex(a) == MonthIndex(b)
    ensures a == b
  {
  }

  /** Going forward after going back (and back after forward) returns to the same month. */
  lemma NavigationRoundTrip(ym: YearMonth)
    requires ValidMonth(ym)
    ensures MonthAfter(MonthBefore(ym)) == ym
    ensures MonthBefore(MonthAfter(ym)) == ym
  {
    MonthIndexInjective(MonthAfter(MonthBefore(ym)), ym);
    MonthIndexInjective(MonthBefore(MonthAfter(ym)), ym);
  }

  /** The `currentDate` state: a date that always sits on day 1 of its month. */
  class CurrentDate {
    var year: int
    var month: nat
    var date: nat

    ghost predicate Valid()
      reads this
    {
      month < 12 && date == 1
    }

    function Month(): YearMonth
      reads this
    {
      YearMonth(year, month)
    }

    /** `dayjs().set('date', 1)`: today's month (a parameter instead of the clock), on day 1. */
    constructor (today: YearMonth)
      requires ValidMonth(today)
      ensures Valid() && Month() == today
    {
      year, month, date := today.year, today.month, 1;
    }

    method HandlePreviousMonth()
      requires Valid()
      modifies this
      ensures Valid() && Month() == MonthBefore(old(Month()))
      ensures MonthIndex(Month()) == MonthIndex(old(Month())) - 1
    {
      var previous := MonthBefore(Month());
      year, month := previous.year, previous.month;
    }

    method HandleNextMonth()
      requires Valid()
      modifies this
      ensures Valid() && Month() == MonthAfter(old(Month()))
      ensures MonthIndex(Month()) == MonthIndex(old(Month())) + 1
    {
      var next := MonthAfter(Month());
      year, month := next.year, next.month;
    }
  }

  // ------------------------------------------------------------------
  // The `month` query parameter
  // ------------------------------------------------------------------

  predicate IsDigit(c: char) { '0' <= c <= '9' }

  function DigitChar(d: nat): (c: char)
    requires d < 10
    ensures IsDigit(c) && c as int == '0' as int + d
  {
    ('0' as int + d) as char
  }

  function DigitValue(c: char): (d: nat)
    requires IsDigit(c)
    ensures d < 10 && DigitChar(d) == c
  {
    (c as int - '0' as int) as nat
  }

  /** `String(n)` for a non-negative integer: its decimal digits, without leading zeros. */
  function DecimalString(n: nat): (s: string)
    ensures 1 <= |s| && forall i :: 0 <= i < |s| ==> IsDigit(s[i])
    ensures |s| > 1 ==> s[0] != '0'
  {
    if n < 10 then [DigitChar(n)] else DecimalString(n / 10) + [DigitChar(n % 10)]
  }

  /** The number a string of decimal digits denotes. */
  function DecimalValue(s: string): nat
    requires forall i :: 0 <= i < |s| ==> IsDigit(s[i])
  {
    if s == [] then 0 else DecimalValue(s[..|s| - 1]) * 10 + DigitValue(s[|s| - 1])
  }

  /** Reading back the digits that `String(n)` writes gives `n`. */
  lemma {:induction false} DecimalRoundTrip(n: nat)
    ensures DecimalValue(DecimalString(n)) == n
  {
    if n >= 10 {
      DecimalRoundTrip(n / 10);
      var s := DecimalString(n);
      assert s[..|s| - 1] == DecimalString(n / 10);
    }
  }

  /** `s.padStart(width, fill)` for a one-character `fill`. */
  function PadStart(s: string, width: nat, fill: char): (r: string)
    ensures |r| == if |s| < width then width else |s|
    ensures r[|r| - |s|..] == s
    ensures forall i :: 0 <= i < |r| - |s| ==> r[i] == fill
  {
    if |s| >= width then s else seq(width - |s|, _ => fill) + s
  }

  /** Two digits read as a number. */
  lemma DecimalValueOfTwo(s: string)
    requires |s| == 2 && IsDigit(s[0]) && IsDigit(s[1])
    ensures DecimalValue(s) == DigitValue(s[0]) * 10 + DigitValue(s[1])
  {
    var head := s[..1];
    assert head[..0] == [] && head[0] == s[0];
    assert DecimalValue(head) == DigitValue(s[0]);
  }

  /** The month padded to two characters: its tens digit, then its units digit. */
  lemma MonthParamDigits(month: nat)
    requires month < 12
    ensures PadStart(DecimalString(month + 1), 2, '0') == [DigitChar((month + 1) / 10), DigitChar((month + 1) % 10)]
  {
    var digits := DecimalString(month + 1);
    if month < 9 {
      assert digits == [DigitChar(month + 1)];
      assert PadStart(digits, 2, '0') == ['0'] + digits;
    } else {
      assert DecimalString((month + 1) / 10) == [DigitChar(1)];
      assert digits == [DigitChar(1), DigitChar(month - 9)];
    }
  }

  /** Two decimal digits read back as the number they were written for. */
  lemma TwoDigitsReadBack(n: nat)
    requires n < 100
    ensures DecimalValue([DigitChar(n / 10), DigitChar(n % 10)]) == n
  {
    var p := [DigitChar(n / 10), DigitChar(n % 10)];
    DecimalValueOfTwo(p);
    assert DigitValue(p[0]) == n / 10 && DigitValue(p[1]) == n % 10;
  }

  /** `String(month + 1).padStart(2, '0')`: two decimal digits that read back as `month + 1`. */
  function MonthParam(month: nat): (p: string)
    requires month < 12
    ensures |p| == 2 && IsDigit(p[0]) && IsDigit(p[1])
    ensures DecimalValue(p) == month + 1
    ensures p[0] == if month < 9 then '0' else '1'
  {
    MonthParamDigits(month);
    TwoDigitsReadBack(month + 1);
    PadStart(DecimalString(month + 1), 2, '0')
  }

  /** The parameter runs from "01" (January) to "12" (December), one value per month. */
  lemma MonthParamRange(a: nat, b: nat)
    requires a < 12 && b < 12
    ensures MonthParam(0) == "01" && MonthParam(11) == "12"
    ensures MonthParam(a) == MonthParam(b) ==> a == b
  {
    var first, last := MonthParam(0), MonthParam(11);
    assert first[1] == '1';
    assert last[1] == '2';
  }

  // ------------------------------------------------------------------
  // The grid of days
  // ------------------------------------------------------------------

  /** Which month a cell belongs to, relative to the displayed one (-1, 0, +1). */
  datatype MonthPart = PreviousMonth | CurrentMonth | NextMonth

  /** An abstract date: its month, its day of month and its weekday, 0 (Sunday) to 6. */
  datatype Date = Date(part: MonthPart, day: nat, weekDay: nat)

  /** A cell of the grid. */
  datatype CalendarDay = CalendarDay(date: Date, disabled: bool)

  /** A numbered row of the grid. */
  datatype CalendarWeek = CalendarWeek(week: nat, days: seq<CalendarDay>)

  /** The reply of the blocked-dates query: weekdays and days of the month that cannot be booked. */
  datatype BlockedDates = BlockedDates(blockedWeekDays: seq<int>, blockedDates: seq<int>)

  /** What dayjs reports about the displayed month. */
  datatype MonthShape = MonthShape(firstWeekDay: nat, daysInMonth: nat, previousMonthDays: nat)

  predicate ValidShape(m: MonthShape)
  {
    m.firstWeekDay <= 6 && 28 <= m.daysInMonth <= 31 && 28 <= m.previousMonthDays <= 31
  }

  /** Weekday of the last day of the displayed month. */
  function LastWeekDay(m: MonthShape): nat
  {
    (m.firstWeekDay + m.daysInMonth - 1) % 7
  }

  /** `currentDate.subtract(n, 'day')`: the date `n` days before day 1. */
  function DaysBeforeFirst(m: MonthShape, n: nat): Date
    requires ValidShape(m) && 1 <= n <= m.previousMonthDays
  {
    Date(PreviousMonth, m.previousMonthDays + 1 - n, (m.firstWeekDay - n) % 7)
  }

  /** `currentDate.set('date', d)`: day `d` of the displayed month. */
  function DayOfMonth(m: MonthShape, d: nat): Date
    requires ValidShape(m) && 1 <= d <= m.daysInMonth
  {
    Date(CurrentMonth, d, (m.firstWeekDay + d - 1) % 7)
  }

  /** `lastDayInCurrentMonth.add(n, 'day')`: the date `n` days after the last day. */
  function DaysAfterLast(m: MonthShape, n: nat): Date
    requires ValidShape(m) && 1 <= n <= 28
  {
    Date(NextMonth, n, (LastWeekDay(m) + n) % 7)
  }

  /** `Array.prototype.reverse`. */
  function Reverse<T>(s: seq<T>): (r: seq<T>)
    ensures |r| == |s|
    ensures forall k :: 0 <= k < |s| ==> r[k] == s[|s| - 1 - k]
  {
    if s == [] then [] else Reverse(s[1..]) + [s[0]]
  }

  /** The last `firstWeekDay` days of the previous month, oldest first. */
  function PreviousMonthFill(m: MonthShape): (fill: seq<Date>)
    requires ValidShape(m)
    ensures |fill| == m.firstWeekDay
    ensures forall k :: 0 <= k < |fill| ==>
      fill[k] == Date(PreviousMonth, m.previousMonthDays - m.firstWeekDay + 1 + k, k)
  {
    var f := m.firstWeekDay;
    Reverse(seq(f, i requires 0 <= i < f => DaysBeforeFirst(m, i + 1)))
  }

  /** Days 1 to `daysInMonth` of the displayed month, in order, each on its weekday. */
  function MonthDays(m: MonthShape): (days: seq<Date>)
    requires ValidShape(m)
    ensures |days| == m.daysInMonth
    ensures forall i :: 0 <= i < |days| ==>
      days[i] == Date(CurrentMonth, i + 1, (m.firstWeekDay + i) % 7)
  {
    seq(m.daysInMonth, i requires 0 <= i < m.daysInMonth => DayOfMonth(m, i + 1))
  }

  /** The first days of the next month, numbered from 1, up to the Saturday that closes the last week. */
  function NextMonthFill(m: MonthShape): (fill: seq<Date>)
    requires ValidShape(m)
    ensures |fill| == 6 - LastWeekDay(m)
    ensures forall j :: 0 <= j < |fill| ==>
      fill[j] == Date(NextMonth, j + 1, LastWeekDay(m) + j + 1)
    ensures |fill| > 0 ==> fill[|fill| - 1].weekDay == 6
  {
    var lastDay := DayOfMonth(m, m.daysInMonth);
    var count := 7 - (lastDay.weekDay + 1);
    seq(count, i requires 0 <= i < count => DaysAfterLast(m, i + 1))
  }

  /** The rule for a day of the displayed month: past, on a blocked weekday, or a blocked date. */
  predicate IsDisabled(d: Date, blocked: BlockedDates, isPast: nat -> bool)
  {
    isPast(d.day) || d.weekDay in blocked.blockedWeekDays || d.day in blocked.blockedDates
  }

  function AllDisabled(dates: seq<Date>): seq<CalendarDay>
  {
    seq(|dates|, i requires 0 <= i < |dates| => CalendarDay(dates[i], true))
  }

  function ByRule(dates: seq<Date>, blocked: BlockedDates, isPast: nat -> bool): seq<CalendarDay>
  {
    seq(|dates|, i requires 0 <= i < |dates| => CalendarDay(dates[i], IsDisabled(dates[i], blocked, isPast)))
  }

  /** If `a % 7 + b` stays within a week, adding `b` moves the weekday by `b`. */
  lemma ModShift(a: nat, b: nat)
    requires a % 7 + b < 7
    ensures (a + b) % 7 == a % 7 + b
  {
    var q := a / 7;
    assert a + b == 7 * q + (a % 7 + b);
  }

  /** Number of cells: the fills and the month, up to the Saturday after the last day. */
  function CellCount(m: MonthShape): int
  {
    m.firstWeekDay + m.daysInMonth + (6 - LastWeekDay(m))
  }

  /** The first `firstWeekDay` cells: the previous month's last days, ascending, disabled. */
  predicate LeadingFillLayout(m: MonthShape, days: seq<CalendarDay>)
    requires ValidShape(m) && |days| == CellCount(m)
  {
    forall i :: 0 <= i < m.firstWeekDay ==>
      days[i] == CalendarDay(Date(PreviousMonth, m.previousMonthDays - m.firstWeekDay + 1 + i, i), true)
  }

  /** The next cells: days 1 to `daysInMonth`, disabled exactly by the blocking rule. */
  predicate MonthLayout(m: MonthShape, blocked: BlockedDates, isPast: nat -> bool, days: seq<CalendarDay>)
    requires ValidShape(m) && |days| == CellCount(m)
  {
    var f, n := m.firstWeekDay, m.daysInMonth;
    forall i :: f <= i < f + n ==>
      days[i].date == Date(CurrentMonth, i - f + 1, i % 7) &&
      (days[i].disabled <==>
        isPast(i - f + 1) || i % 7 in blocked.blockedWeekDays || i - f + 1 in blocked.blockedDates)
  }

  /** The remaining cells: the next month's first days, numbered from 1, disabled. */
  predicate TrailingFillLayout(m: MonthShape, days: seq<CalendarDay>)
    requires ValidShape(m) && |days| == CellCount(m)
  {
    var f, n := m.firstWeekDay, m.daysInMonth;
    forall i :: f + n <= i < |days| ==>
      days[i] == CalendarDay(Date(NextMonth, i - f - n + 1, i % 7), true)
  }

  /** Every cell falls on the weekday of its position, Sunday first. */
  predicate WeekDaysFollowPositions(days: seq<CalendarDay>)
  {
    forall i :: 0 <= i < |days| ==> days[i].date.weekDay == i % 7
  }

  /**
   * How the cells of month `m` are laid out: the leading fill, days 1 to
   * `daysInMonth`, the trailing fill, a whole number of weeks, each cell on the
   * weekday of its position, the last one a Saturday.
   */
  predicate Layout(m: MonthShape, blocked: BlockedDates, isPast: nat -> bool, days: seq<CalendarDay>)
  {
    && ValidShape(m)
    && |days| == CellCount(m)
    && |days| % 7 == 0
    && LeadingFillLayout(m, days)
    && MonthLayout(m, blocked, isPast, days)
    && TrailingFillLayout(m, days)
    && WeekDaysFollowPositions(days)
    && days[|days| - 1].date.weekDay == 6
  }

  /** The three segments the source spreads into one list, one after the other. */
  function Segments(m: MonthShape, blocked: BlockedDates, isPast: nat -> bool): seq<CalendarDay>
    requires ValidShape(m)
  {
    AllDisabled(PreviousMonthFill(m)) + ByRule(MonthDays(m), blocked, isPast) + AllDisabled(NextMonthFill(m))
  }

  lemma LeadingSegment(m: MonthShape, blocked: BlockedDates, isPast: nat -> bool, i: nat)
    requires ValidShape(m) && i < m.firstWeekDay
    ensures i < |Segments(m, blocked, isPast)|
    ensures Segments(m, blocked, isPast)[i] ==
      CalendarDay(Date(PreviousMonth, m.previousMonthDays - m.firstWeekDay + 1 + i, i), true)
  {
    var prev := AllDisabled(PreviousMonthFill(m));
    var rest := ByRule(MonthDays(m), blocked, isPast) + AllDisabled(NextMonthFill(m));
    assert Segments(m, blocked, isPast) == prev + rest;
  }

  lemma MonthSegment(m: MonthShape, blocked: BlockedDates, isPast: nat -> bool, i: nat)
    requires ValidShape(m) && m.firstWeekDay <= i < m.firstWeekDay + m.daysInMonth
    ensures i < |Segments(m, blocked, isPast)|
    ensures Segments(m, blocked, isPast)[i].date == Date(CurrentMonth, i - m.firstWeekDay + 1, i % 7)
    ensures Segments(m, blocked, isPast)[i].disabled <==>
      isPast(i - m.firstWeekDay + 1) || i % 7 in blocked.blockedWeekDays ||
      i - m.firstWeekDay + 1 in blocked.blockedDates
  {
    var prev := AllDisabled(PreviousMonthFill(m));
    var month := ByRule(MonthDays(m), blocked, isPast);
    var next := AllDisabled(NextMonthFill(m));
    var d := MonthDays(m)[i - m.firstWeekDay];
    assert d == Date(CurrentMonth, i - m.firstWeekDay + 1, i % 7);
    assert Segments(m, blocked, isPast) == (prev + month) + next;
    assert ((prev + month) + next)[i] == month[i - |prev|] == CalendarDay(d, IsDisabled(d, blocked, isPast));
  }

  lemma TrailingSegment(m: MonthShape, blocked: BlockedDates, isPast: nat -> bool, i: nat)
    requires ValidShape(m) && m.firstWeekDay + m.daysInMonth <= i < |Segments(m, blocked, isPast)|
    ensures Segments(m, blocked, isPast)[i] ==
      CalendarDay(Date(NextMonth, i - m.firstWeekDay - m.daysInMonth + 1, i % 7), true)
  {
    var f, n := m.firstWeekDay, m.daysInMonth;
    var prev := AllDisabled(PreviousMonthFill(m));
    var month := ByRule(MonthDays(m), blocked, isPast);
    var next := AllDisabled(NextMonthFill(m));
    assert Segments(m, blocked, isPast) == (prev + month) + next;
    assert ((prev + month) + next)[i] == next[i - f - n];
    ModShift(f + n - 1, i - f - n + 1);
  }

  lemma SegmentsCount(m: MonthShape, blocked: BlockedDates, isPast: nat -> bool)
    requires ValidShape(m)
    ensures |Segments(m, blocked, isPast)| == CellCount(m)
    ensures CellCount(m) % 7 == 0
  {
    var a := m.firstWeekDay + m.daysInMonth - 1;
    assert CellCount(m) == a + 7 - a % 7 == 7 * (a / 7 + 1);
  }

  lemma SegmentsLeading(m: MonthShape, blocked: BlockedDates, isPast: nat -> bool)
    requires ValidShape(m) && |Segments(m, blocked, isPast)| == CellCount(m)
    ensures LeadingFillLayout(m, Segments(m, blocked, isPast))
  {
    forall i | 0 <= i < m.firstWeekDay {
      LeadingSegment(m, blocked, isPast, i);
    }
  }

  lemma SegmentsMonth(m: MonthShape, blocked: BlockedDates, isPast: nat -> bool)
    requires ValidShape(m) && |Segments(m, blocked, isPast)| == CellCount(m)
    ensures MonthLayout(m, blocked, isPast, Segments(m, blocked, isPast))
  {
    forall i | m.firstWeekDay <= i < m.firstWeekDay + m.daysInMonth {
      MonthSegment(m, blocked, isPast, i);
    }
  }

  lemma SegmentsTrailing(m: MonthShape, blocked: BlockedDates, isPast: nat -> bool)
    requires ValidShape(m) && |Segments(m, blocked, isPast)| == CellCount(m)
    ensures TrailingFillLayout(m, Segments(m, blocked, isPast))
  {
    forall i | m.firstWeekDay + m.daysInMonth <= i < |Segments(m, blocked, isPast)| {
      TrailingSegment(m, blocked, isPast, i);
    }
  }

  /** The spread segments are laid out as `Layout` says. */
  lemma SegmentsLayout(m: MonthShape, blocked: BlockedDates, isPast: nat -> bool)
    requires ValidShape(m)
    ensures Layout(m, blocked, isPast, Segments(m, blocked, isPast))
  {
    var days := Segments(m, blocked, isPast);
    var f, n := m.firstWeekDay, m.daysInMonth;
    SegmentsCount(m, blocked, isPast);
    SegmentsLeading(m, blocked, isPast);
    SegmentsMonth(m, blocked, isPast);
    SegmentsTrailing(m, blocked, isPast);
    forall i | 0 <= i < |days|
      ensures days[i].date.weekDay == i % 7
    {
      if i < f {
        assert days[i].date.weekDay == i;
      } else if i < f + n {
        assert days[i].date == Date(CurrentMonth, i - f + 1, i % 7);
      } else {
        assert days[i] == CalendarDay(Date(NextMonth, i - f - n + 1, i % 7), true);
      }
    }
    assert (|days| - 1) % 7 == 6;
  }

  /** The flat list of cells: the leading fill, the days of the month, the trailing fill. */
  function CalendarDays(m: MonthShape, blocked: BlockedDates, isPast: nat -> bool): (days: seq<CalendarDay>)
    requires ValidShape(m)
    ensures Layout(m, blocked, isPast, days)
  {
    SegmentsLayout(m, blocked, isPast);
    Segments(m, blocked, isPast)
  }

  // ------------------------------------------------------------------
  // Chunking into numbered weeks
  // ------------------------------------------------------------------

  function Min(a: int, b: int): int { if a <= b then a else b }

  /** Number of weeks `days` is cut into: one per started group of 7 cells. */
  function WeekCount(n: nat): nat { (n + 6) / 7 }

  /** Week `w` (from 0): the 7 cells from `7 * w`, fewer at the end, as `slice(i, i + 7)` gives. */
  function WeekAt(days: seq<CalendarDay>, w: nat): CalendarWeek
    requires w < WeekCount(|days|)
  {
    CalendarWeek(w + 1, days[7 * w .. Min(7 * w + 7, |days|)])
  }

  /** What the `reduce` over the cells computes: week `w` starts at cell `7 * w`. */
  function WeeksOf(days: seq<CalendarDay>): seq<CalendarWeek>
  {
    seq(WeekCount(|days|), w requires 0 <= w < WeekCount(|days|) => WeekAt(days, w))
  }

  /** The cells of the weeks, in order. */
  function Flatten(weeks: seq<CalendarWeek>): seq<CalendarDay>
  {
    if weeks == [] then [] else weeks[0].days + Flatten(weeks[1..])
  }

  lemma {:induction false} FlattenSuffix(days: seq<CalendarDay>, w: nat)
    requires w <= WeekCount(|days|)
    ensures Flatten(WeeksOf(days)[w..]) == days[Min(7 * w, |days|)..]
    decreases WeekCount(|days|) - w
  {
    var weeks := WeeksOf(days);
    if w == WeekCount(|days|) {
      assert weeks[w..] == [];
    } else {
      FlattenSuffix(days, w + 1);
      assert weeks[w..][1..] == weeks[w + 1..];
      var lo, hi := 7 * w, Min(7 * w + 7, |days|);
      assert Min(7 * (w + 1), |days|) == hi;
      assert days[lo..] == days[lo..hi] + days[hi..];
    }
  }

  /** Concatenating the weeks gives back the cells. */
  lemma FlattenWeeksOf(days: seq<CalendarDay>)
    ensures Flatten(WeeksOf(days)) == days
  {
    FlattenSuffix(days, 0);
    assert WeeksOf(days)[0..] == WeeksOf(days);
  }

  /** When the cell count is a multiple of 7, every week is full and the weeks are numbered 1, 2, ... */
  lemma WeeksOfFull(days: seq<CalendarDay>)
    requires |days| % 7 == 0
    ensures |WeeksOf(days)| == |days| / 7
    ensures forall w :: 0 <= w < |WeeksOf(days)| ==>
      WeeksOf(days)[w].week == w + 1 && WeeksOf(days)[w].days == days[7 * w .. 7 * w + 7]
  {
  }

  /** The `reduce` of lines 122-136: a new week is pushed at every index that is a multiple of 7. */
  method ChunkWeeks(days: seq<CalendarDay>) returns (weeks: seq<CalendarWeek>)
    ensures weeks == WeeksOf(days)
  {
    weeks := [];
    var i := 0;
    while i < |days|
      invariant 0 <= i <= |days|
      invariant |weeks| == WeekCount(i)
      invariant forall w :: 0 <= w < |weeks| ==> weeks[w] == WeekAt(days, w)
    {
      if i % 7 == 0 {
        weeks := weeks + [CalendarWeek(i / 7 + 1, days[i .. Min(i + 7, |days|)])];
      }
      i := i + 1;
    }
  }

  /** Cells whose weekday follows their position give weeks that each run Sunday to Saturday. */
  lemma WeeksRunSundayToSaturday(days: seq<CalendarDay>)
    requires |days| % 7 == 0
    requires forall i :: 0 <= i < |days| ==> days[i].date.weekDay == i % 7
    ensures forall w :: 0 <= w < |WeeksOf(days)| ==>
      WeeksOf(days)[w].week == w + 1 && |WeeksOf(days)[w].days| == 7 &&
      forall k :: 0 <= k < 7 ==> WeeksOf(days)[w].days[k].date.weekDay == k
  {
    var weeks := WeeksOf(days);
    WeeksOfFull(days);
    forall w, k | 0 <= w < |weeks| && 0 <= k < 7
      ensures weeks[w].days[k].date.weekDay == k
    {
      assert weeks[w].days[k] == days[7 * w + k];
      assert (7 * w + k) % 7 == k;
    }
  }

  /**
   * The `calendarWeeks` memo: no grid while the blocked dates have not arrived;
   * otherwise the cells cut into numbered weeks of 7, each running Sunday to Saturday.
   */
  method CalendarWeeks(m: MonthShape, blocked: Option<BlockedDates>, isPast: nat -> bool)
    returns (weeks: seq<CalendarWeek>)
    requires ValidShape(m)
    ensures blocked.None? ==> weeks == []
    ensures blocked.Some? ==> weeks == WeeksOf(CalendarDays(m, blocked.value, isPast))
    ensures blocked.Some? ==> Flatten(weeks) == CalendarDays(m, blocked.value, isPast)
    ensures blocked.Some? ==> 4 <= |weeks| <= 6
    ensures blocked.Some? ==> forall w :: 0 <= w < |weeks| ==>
      weeks[w].week == w + 1 && |weeks[w].days| == 7 &&
      forall k :: 0 <= k < 7 ==> weeks[w].days[k].date.weekDay == k
  {
    if blocked.None? {
      return [];
    }
    var days := CalendarDays(m, blocked.value, isPast);
    weeks := ChunkWeeks(days);
    FlattenWeeksOf(days);
    WeeksRunSundayToSaturday(days);
    assert 28 <= |days| <= 42;
  }
}
