/** The birth-date picker of the add-pet form: proleptic Gregorian dates in place of the
    JavaScript `Date` object, the Monday-first month grid, the previous/next month arrows and
    the `DD/MM/YYYY` label. */
module Calendar {
  import opened Wrappers
  import opened JsString

  /** A local date as a `Date` object reports it: `getFullYear()`, the 0-based
      `getMonth()` and `getDate()`. */
  datatype Date = Date(year: int, month: int, day: int)

  /** Divisible by 4, except centuries, except those divisible by 400. */
  predicate IsLeapYear(year: int) {
    year % 4 == 0 && (year % 100 != 0 || year % 400 == 0)
  }

  /** The number of days of the 0-based month `month`. */
  function DaysInMonth(year: int, month: int): (n: int)
    requires 0 <= month < 12
    ensures 28 <= n <= 31
    ensures month == 1 ==> (n == 29 <==> IsLeapYear(year))
    ensures month != 1 ==> 30 <= n
    ensures month != 1 ==> (n == 31 <==> (month <= 6) == (month % 2 == 0))
  {
    if month == 1 then (if IsLeapYear(year) then 29 else 28)
    else if month == 3 || month == 5 || month == 8 || month == 10 then 30
    else 31
  }

  predicate ValidDate(d: Date) {
    0 <= d.month < 12 && 1 <= d.day <= DaysInMonth(d.year, d.month)
  }

  /** Days from 1 January of year 1 to 1 January of `year`. */
  function DaysBeforeYear(year: int): int {
    var y := year - 1;
    365 * y + y / 4 - y / 100 + y / 400
  }

  /** Days from 1 January of `year` to the first day of the 0-based month `month`. */
  function DaysBeforeMonth(year: int, month: int): int
    requires 0 <= month <= 12
  {
    if month == 0 then 0 else DaysBeforeMonth(year, month - 1) + DaysInMonth(year, month - 1)
  }

  /** Days since 1 January of year 1, a Monday. */
  function DayNumber(d: Date): int
    requires 0 <= d.month < 12
  {
    DaysBeforeYear(d.year) + DaysBeforeMonth(d.year, d.month) + d.day - 1
  }

  /** `Date.prototype.getDay()`: 0 for Sunday up to 6 for Saturday. */
  function JsGetDay(d: Date): (w: int)
    requires 0 <= d.month < 12
    ensures 0 <= w < 7
  {
    (DayNumber(d) + 1) % 7
  }

  /** `(getDay() + 6) % 7`: the weekday counted from Monday = 0. */
  function MondayFirstWeekday(d: Date): (w: int)
    requires 0 <= d.month < 12
    ensures 0 <= w < 7
    ensures w == DayNumber(d) % 7
  {
    (JsGetDay(d) + 6) % 7
  }

  /** The day after `d`. */
  function NextDate(d: Date): (r: Date)
    requires ValidDate(d)
    ensures ValidDate(r)
  {
    if d.day < DaysInMonth(d.year, d.month) then d.(day := d.day + 1)
    else if d.month < 11 then Date(d.year, d.month + 1, 1)
    else Date(d.year + 1, 0, 1)
  }

  /** The day before `d`: what a `Date` built with day 0 of a month denotes. */
  function PrevDate(d: Date): (r: Date)
    requires ValidDate(d)
    ensures ValidDate(r)
  {
    if d.day > 1 then d.(day := d.day - 1)
    else if d.month > 0 then Date(d.year, d.month - 1, DaysInMonth(d.year, d.month - 1))
    else Date(d.year - 1, 11, 31)
  }

  lemma {:induction false} PrevDateUndoesNextDate(d: Date)
    requires ValidDate(d)
    ensures PrevDate(NextDate(d)) == d && NextDate(PrevDate(d)) == d
  {
  }

  lemma {:induction false} LeapDayCounts(y: int)
    ensures y / 4 - (y - 1) / 4 == (if y % 4 == 0 then 1 else 0)
    ensures y / 100 - (y - 1) / 100 == (if y % 100 == 0 then 1 else 0)
    ensures y / 400 - (y - 1) / 400 == (if y % 400 == 0 then 1 else 0)
  {
  }

  /** A year has 366 days exactly when it is a leap year. */
  lemma {:induction false} YearLength(year: int)
    ensures DaysBeforeYear(year + 1) - DaysBeforeYear(year) == if IsLeapYear(year) then 366 else 365
  {
    LeapDayCounts(year);
  }

  /** The twelve months fill the year exactly. */
  lemma {:induction false} MonthsFillYear(year: int)
    ensures DaysBeforeMonth(year, 12) == DaysBeforeYear(year + 1) - DaysBeforeYear(year)
  {
    YearLength(year);
    var feb := DaysInMonth(year, 1);
    assert DaysBeforeMonth(year, 0) == 0;
    assert DaysBeforeMonth(year, 1) == 31;
    assert DaysBeforeMonth(year, 2) == 31 + feb;
    assert DaysBeforeMonth(year, 3) == 62 + feb;
    assert DaysBeforeMonth(year, 4) == 92 + feb;
    assert DaysBeforeMonth(year, 5) == 123 + feb;
    assert DaysBeforeMonth(year, 6) == 153 + feb;
    assert DaysBeforeMonth(year, 7) == 184 + feb;
    assert DaysBeforeMonth(year, 8) == 215 + feb;
    assert DaysBeforeMonth(year, 9) == 245 + feb;
    assert DaysBeforeMonth(year, 10) == 276 + feb;
    assert DaysBeforeMonth(year, 11) == 306 + feb;
  }

  /** Consecutive dates have consecutive day numbers, across month and year ends. */
  lemma {:induction false} DayNumberAdvances(d: Date)
    requires ValidDate(d)
    ensures DayNumber(NextDate(d)) == DayNumber(d) + 1
  {
    if d.day == DaysInMonth(d.year, d.month) && d.month == 11 {
      MonthsFillYear(d.year);
    }
  }

  lemma {:induction false} ModSevenShift(n: int, k: int)
    ensures (n % 7 + k) % 7 == (n + k) % 7
  {
  }

  /** So the weekday moves on by one every day. */
  lemma {:induction false} WeekdayAdvances(d: Date)
    requires ValidDate(d)
    ensures JsGetDay(NextDate(d)) == (JsGetDay(d) + 1) % 7
  {
    DayNumberAdvances(d);
    ModSevenShift(DayNumber(d) + 1, 1);
  }

  /** The calendar agrees with JavaScript's epoch: 1 January 1970 was a Thursday. */
  lemma {:induction false} UnixEpochWasThursday()
    ensures JsGetDay(Date(1970, 0, 1)) == 4
  {
    assert DaysBeforeYear(1970) == 719162;
    assert DaysBeforeMonth(1970, 0) == 0;
  }

  /** The grid of one month: `offset` empty cells, offset being the Monday-first weekday of
      the 1st, then the days 1 to the last day of the month, in order. */
  predicate IsMonthGrid(days: seq<Option<int>>, year: int, month: int)
    requires 0 <= month < 12
  {
    var offset := MondayFirstWeekday(Date(year, month, 1));
    && |days| == offset + DaysInMonth(year, month)
    && (forall i :: 0 <= i < offset ==> days[i] == None)
    && (forall i :: offset <= i < |days| ==> days[i] == Some(i - offset + 1))
  }

  /** The two loops of `buildCalendarDays` for the month `month` of `year`: the empty cells
      before the 1st, then the days of the month. */
  method MonthGrid(year: int, month: int) returns (days: seq<Option<int>>)
    requires 0 <= month < 12
    ensures IsMonthGrid(days, year, month)
  {
    var firstDay := Date(year, month, 1);
    var firstWeekday := (JsGetDay(firstDay) + 6) % 7;
    var lastOfMonth := PrevDate(FirstOfMonth(year, month + 1));
    DayZeroIsLastDay(year, month);
    var daysInMonth := lastOfMonth.day;
    days := [];
    var i := 0;
    while i < firstWeekday
      invariant 0 <= i <= firstWeekday
      invariant |days| == i
      invariant forall k :: 0 <= k < i ==> days[k] == None
    {
      days := days + [None];
      i := i + 1;
    }
    var d := 1;
    while d <= daysInMonth
      invariant 1 <= d <= daysInMonth + 1
      invariant |days| == firstWeekday + d - 1
      invariant forall k :: 0 <= k < firstWeekday ==> days[k] == None
      invariant forall k :: firstWeekday <= k < |days| ==> days[k] == Some(k - firstWeekday + 1)
    {
      days := days + [Some(d)];
      d := d + 1;
    }
  }

  /** `buildCalendarDays`: both dates it builds pass `getFullYear()` back to the `Date`
      constructor, so for a year of 0..99 the grid is that of the year 1900 later. */
  method BuildCalendarDays(date: Date) returns (days: seq<Option<int>>)
    requires 0 <= date.month < 12
    ensures IsMonthGrid(days, JsConstructorYear(date.year), date.month)
    ensures !(0 <= date.year <= 99) ==> IsMonthGrid(days, date.year, date.month)
  {
    days := MonthGrid(JsConstructorYear(date.year), date.month);
  }

  /** December 99, which the "previous month" arrow reaches from January 100, as drawn:
      the grid of December 1999, whose 1st is a Wednesday, where December 99 itself
      starts on a Tuesday. */
  lemma {:induction false} GridAsWrittenShowsOtherYear(drawn: seq<Option<int>>, shown: seq<Option<int>>)
    requires IsMonthGrid(drawn, JsConstructorYear(99), 11) && IsMonthGrid(shown, 99, 11)
    ensures |drawn| == 33 && drawn[1] == None && drawn[2] == Some(1)
    ensures |shown| == 32 && shown[1] == Some(1)
  {
    assert DaysBeforeYear(1999) == 729754;
    assert DaysBeforeMonth(1999, 11) == 334;
    assert MondayFirstWeekday(Date(1999, 11, 1)) == 2;
    assert DaysBeforeYear(99) == 35794;
    assert DaysBeforeMonth(99, 11) == 334;
    assert MondayFirstWeekday(Date(99, 11, 1)) == 1;
  }

  /** A month grid has between four whole weeks and 37 cells. */
  lemma {:induction false} MonthGridLength(days: seq<Option<int>>, year: int, month: int)
    requires 0 <= month < 12 && IsMonthGrid(days, year, month)
    ensures 28 <= |days| <= 37
    ensures month == 1 && !IsLeapYear(year) && MondayFirstWeekday(Date(year, month, 1)) == 0 ==> |days| == 28
  {
  }

  /** Every day of the month sits in the column of its own weekday, and nowhere else. */
  lemma {:induction false} DayColumnIsWeekday(days: seq<Option<int>>, year: int, month: int, day: int)
    requires 0 <= month < 12 && IsMonthGrid(days, year, month)
    requires 1 <= day <= DaysInMonth(year, month)
    ensures var i := MondayFirstWeekday(Date(year, month, 1)) + day - 1;
      && i < |days| && days[i] == Some(day)
      && i % 7 == MondayFirstWeekday(Date(year, month, day))
      && forall j :: 0 <= j < |days| && days[j] == Some(day) ==> j == i
  {
    var first := Date(year, month, 1);
    var n := DayNumber(first);
    assert DayNumber(Date(year, month, day)) == n + day - 1;
    ModSevenShift(n, day - 1);
  }

  /** The grid of a month is unique. */
  lemma {:induction false} MonthGridUnique(a: seq<Option<int>>, b: seq<Option<int>>, year: int, month: int)
    requires 0 <= month < 12 && IsMonthGrid(a, year, month) && IsMonthGrid(b, year, month)
    ensures a == b
  {
    var offset := MondayFirstWeekday(Date(year, month, 1));
    forall i | 0 <= i < |a| ensures a[i] == b[i] {
      if i < offset { } else { }
    }
  }

  /** Months counted from January of year 0. */
  function MonthIndex(d: Date): int {
    d.year * 12 + d.month
  }

  /** `new Date(year, monthIndex, 1)` for a year outside 0..99: a month index outside
      0..11 carries into the year. */
  function FirstOfMonth(year: int, monthIndex: int): (r: Date)
    ensures ValidDate(r) && r.day == 1
    ensures MonthIndex(r) == year * 12 + monthIndex
  {
    Date(year + monthIndex / 12, monthIndex % 12, 1)
  }

  /** `new Date(y, m + 1, 0)` is the last day of month `m`: its `getDate()` is the month's length. */
  lemma {:induction false} DayZeroIsLastDay(year: int, month: int)
    requires 0 <= month < 12
    ensures PrevDate(FirstOfMonth(year, month + 1)) == Date(year, month, DaysInMonth(year, month))
  {
  }

  /** The "previous month" arrow: the 1st of the month before. */
  function PrevMonth(current: Date): (r: Date)
    ensures ValidDate(r) && r.day == 1
    ensures MonthIndex(r) == MonthIndex(current) - 1
  {
    FirstOfMonth(current.year, current.month - 1)
  }

  /** The "next month" arrow: the 1st of the month after. */
  function NextMonth(current: Date): (r: Date)
    ensures ValidDate(r) && r.day == 1
    ensures MonthIndex(r) == MonthIndex(current) + 1
  {
    FirstOfMonth(current.year, current.month + 1)
  }

  lemma {:induction false} SameMonthIndex(a: Date, b: Date)
    requires 0 <= a.month < 12 && 0 <= b.month < 12 && MonthIndex(a) == MonthIndex(b)
    ensures a.year == b.year && a.month == b.month
  {
  }

  /** The two arrows undo each other. */
  lemma {:induction false} MonthArrowsInverse(d: Date)
    requires 0 <= d.month < 12
    ensures NextMonth(PrevMonth(d)) == d.(day := 1)
    ensures PrevMonth(NextMonth(d)) == d.(day := 1)
  {
    SameMonthIndex(NextMonth(PrevMonth(d)), d);
    SameMonthIndex(PrevMonth(NextMonth(d)), d);
  }

  /** The `Date` constructor reads a year argument of 0..99 as 1900..1999. */
  function JsConstructorYear(year: int): (y: int)
    ensures y == year <==> !(0 <= year <= 99)
    ensures 0 <= year <= 99 ==> 1900 <= y <= 1999 && y % 100 == year
  {
    if 0 <= year <= 99 then 1900 + year else year
  }

  /** The "previous month" arrow as written: `new Date(current.getFullYear(), current.getMonth() - 1, 1)`. */
  function PrevMonthAsWritten(current: Date): (r: Date)
    ensures ValidDate(r) && r.day == 1
    ensures MonthIndex(r) == JsConstructorYear(current.year) * 12 + current.month - 1
  {
    FirstOfMonth(JsConstructorYear(current.year), current.month - 1)
  }

  /** The "next month" arrow as written: `new Date(current.getFullYear(), current.getMonth() + 1, 1)`. */
  function NextMonthAsWritten(current: Date): (r: Date)
    ensures ValidDate(r) && r.day == 1
    ensures MonthIndex(r) == JsConstructorYear(current.year) * 12 + current.month + 1
  {
    FirstOfMonth(JsConstructorYear(current.year), current.month + 1)
  }

  /** Outside the years 0..99 the arrows as written are the intended ones. */
  lemma {:induction false} ArrowsAsWrittenAgree(d: Date)
    requires !(0 <= d.year <= 99)
    ensures PrevMonthAsWritten(d) == PrevMonth(d)
    ensures NextMonthAsWritten(d) == NextMonth(d)
  {
  }

  /** Going back from January 100 reaches December 99, and the next step back lands in
      November 1999 instead of November 99; going forward from December 99 reaches
      January 2000 instead of January 100. */
  lemma {:induction false} ArrowsAsWrittenJump()
    ensures PrevMonthAsWritten(Date(100, 0, 1)) == Date(99, 11, 1)
    ensures PrevMonthAsWritten(Date(99, 11, 1)) == Date(1999, 10, 1)
    ensures PrevMonth(Date(99, 11, 1)) == Date(99, 10, 1)
    ensures NextMonthAsWritten(Date(99, 11, 1)) == Date(2000, 0, 1)
    ensures NextMonth(Date(99, 11, 1)) == Date(100, 0, 1)
  {
  }

  /** `formatBirthDate`: day and 1-based month as two digits, then the year, separated by
      slashes; each field reads back as the date's own value. */
  function FormatBirthDate(date: Date): (r: string)
    requires ValidDate(date)
    ensures |r| >= 7 && r[2] == '/' && r[5] == '/'
    ensures AllDigits(r[..2]) && DecimalValue(r[..2]) == date.day
    ensures AllDigits(r[3..5]) && DecimalValue(r[3..5]) == date.month + 1
    ensures ParseInt(r[6..]) == Some(date.year)
  {
    var day := PadStart2(NatToDecimal(date.day));
    var month := PadStart2(NatToDecimal(date.month + 1));
    var year := IntToString(date.year);
    PaddedRoundTrip(date.day);
    PaddedRoundTrip(date.month + 1);
    IntToStringRoundTrip(date.year);
    var r := day + "/" + month + "/" + year;
    assert r[..2] == day && r[3..5] == month && r[6..] == year;
    r
  }
}
