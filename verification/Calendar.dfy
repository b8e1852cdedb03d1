/** Gregorian dates, the reporting windows of a question and the period each is compared with. */
module Calendar {
  import opened Runs

  datatype Date = Date(year: int, month: int, day: int)

  predicate Leap(year: int) {
    year % 4 == 0 && (year % 100 != 0 || year % 400 == 0)
  }

  function DaysIn(year: int, month: int): (n: int)
    ensures 28 <= n <= 31
  {
    if month == 2 then if Leap(year) then 29 else 28
    else if month in {4, 6, 9, 11} then 30
    else 31
  }

  // The dates Python's `date` accepts.
  predicate Valid(d: Date) {
    1 <= d.year <= 9999 && 1 <= d.month <= 12 && 1 <= d.day <= DaysIn(d.year, d.month)
  }

  function MakeDate(year: int, month: int, day: int): Option<Date> {
    var d := Date(year, month, day);
    if Valid(d) then Some(d) else None
  }

  function DaysBeforeYear(year: int): int {
    var y := year - 1;
    365 * y + y / 4 - y / 100 + y / 400
  }

  function DaysBeforeMonth(year: int, month: int): int
    requires 1 <= month
    decreases month
  {
    if month == 1 then 0 else DaysBeforeMonth(year, month - 1) + DaysIn(year, month - 1)
  }

  // The proleptic Gregorian ordinal: 0001-01-01 is day 1, a Monday.
  function Ordinal(d: Date): int
    requires 1 <= d.month
  {
    DaysBeforeYear(d.year) + DaysBeforeMonth(d.year, d.month) + d.day
  }

  function Weekday(d: Date): int
    requires 1 <= d.month
  {
    (Ordinal(d) + 6) % 7
  }

  predicate Before(a: Date, b: Date) {
    || a.year < b.year
    || (a.year == b.year && (a.month < b.month || (a.month == b.month && a.day < b.day)))
  }

  predicate NotAfter(a: Date, b: Date) { a == b || Before(a, b) }

  // ---------------------------------------------------------------- day arithmetic

  function DayBefore(d: Date): Option<Date> {
    if d.day > 1 then Some(d.(day := d.day - 1))
    else if d.month > 1 then Some(Date(d.year, d.month - 1, DaysIn(d.year, d.month - 1)))
    else MakeDate(d.year - 1, 12, 31)
  }

  // d - timedelta(days=n); None is the overflow before 0001-01-01.
  function Minus(d: Date, n: nat): Option<Date>
    decreases n
  {
    if n == 0 then Some(d)
    else
      var before := DayBefore(d);
      if before.None? then None else Minus(before.value, n - 1)
  }

  lemma MonthsOfYear(year: int)
    ensures DaysBeforeMonth(year, 2) == 31
    ensures DaysBeforeMonth(year, 3) == 59 + if Leap(year) then 1 else 0
    ensures forall m :: 3 <= m <= 12 ==> DaysBeforeMonth(year, m) == DaysBeforeMonth(year, 3) + [0, 31, 61, 92, 122, 153, 184, 214, 245, 275][m - 3]
  {
    var march := DaysBeforeMonth(year, 3);
    assert DaysBeforeMonth(year, 2) == DaysBeforeMonth(year, 1) + 31;
    assert DaysBeforeMonth(year, 4) == march + 31;
    assert DaysBeforeMonth(year, 5) == march + 61;
    assert DaysBeforeMonth(year, 6) == march + 92;
    assert DaysBeforeMonth(year, 7) == march + 122;
    assert DaysBeforeMonth(year, 8) == march + 153;
    assert DaysBeforeMonth(year, 9) == march + 184;
    assert DaysBeforeMonth(year, 10) == march + 214;
    assert DaysBeforeMonth(year, 11) == march + 245;
    assert DaysBeforeMonth(year, 12) == march + 275;
  }

  function YearLength(year: int): int { if Leap(year) then 366 else 365 }

  lemma StepsBy4(y: int)
    ensures y / 4 - (y - 1) / 4 == if y % 4 == 0 then 1 else 0
  {
  }

  lemma StepsBy100(y: int)
    ensures y / 100 - (y - 1) / 100 == if y % 100 == 0 then 1 else 0
  {
  }

  lemma StepsBy400(y: int)
    ensures y / 400 - (y - 1) / 400 == if y % 400 == 0 then 1 else 0
  {
  }

  lemma Centuries(y: int)
    ensures y % 100 == 0 ==> y % 4 == 0
    ensures y % 400 == 0 ==> y % 100 == 0
  {
    var c, q := y / 100, y / 400;
    if y % 100 == 0 { assert y == 4 * (25 * c); }
    if y % 400 == 0 { assert y == 100 * (4 * q); }
  }

  lemma NextYear(year: int)
    ensures DaysBeforeYear(year + 1) == DaysBeforeYear(year) + YearLength(year)
  {
    StepsBy4(year);
    StepsBy100(year);
    StepsBy400(year);
    Centuries(year);
    var a, b, c := year / 4, year / 100, year / 400;
    var a', b', c' := (year - 1) / 4, (year - 1) / 100, (year - 1) / 400;
    assert DaysBeforeYear(year) == 365 * (year - 1) + a' - b' + c';
    assert DaysBeforeYear(year + 1) == 365 * year + a - b + c;
  }

  lemma {:induction false} YearsBetween(a: int, b: int)
    requires a <= b
    ensures 365 * (b - a) <= DaysBeforeYear(b) - DaysBeforeYear(a) <= 366 * (b - a)
    decreases b - a
  {
    if a < b {
      YearsBetween(a, b - 1);
      NextYear(b - 1);
    }
  }

  // A date's day number within its year.
  lemma InYear(d: Date)
    requires Valid(d)
    ensures 1 <= DaysBeforeMonth(d.year, d.month) + d.day <= YearLength(d.year)
  {
    MonthsOfYear(d.year);
  }

  // Calendar order is day order, so a date is determined by its ordinal.
  lemma OrderIsOrdinal(a: Date, b: Date)
    requires Valid(a) && Valid(b)
    ensures Before(a, b) <==> Ordinal(a) < Ordinal(b)
    ensures a == b <==> Ordinal(a) == Ordinal(b)
  {
    if Before(a, b) { Precedes(a, b); }
    if Before(b, a) { Precedes(b, a); }
  }

  lemma Precedes(a: Date, b: Date)
    requires Valid(a) && Valid(b) && Before(a, b)
    ensures Ordinal(a) < Ordinal(b)
  {
    hide DaysBeforeYear;
    if a.year < b.year {
      hide DaysBeforeMonth, DaysIn;
      InYear(a);
      InYear(b);
      NextYear(a.year);
      YearsBetween(a.year + 1, b.year);
    } else if a.month < b.month {
      MonthsGrow(a.year, a.month, b.month);
    }
  }

  lemma {:induction false} MonthsGrow(year: int, m: int, n: int)
    requires 1 <= m < n
    ensures DaysBeforeMonth(year, m) + DaysIn(year, m) <= DaysBeforeMonth(year, n)
    decreases n
  {
    if m + 1 < n { MonthsGrow(year, m, n - 1); }
  }

  lemma DayBeforeIs(d: Date)
    requires Valid(d)
    ensures DayBefore(d).None? <==> d == Date(1, 1, 1)
    ensures DayBefore(d).Some? ==> Valid(DayBefore(d).value) && Ordinal(DayBefore(d).value) == Ordinal(d) - 1
  {
    if d.day == 1 && d.month == 1 {
      NextYear(d.year - 1);
      MonthsOfYear(d.year - 1);
    }
  }

  lemma FirstDay(d: Date)
    requires Valid(d)
    ensures Ordinal(d) >= 1 && (Ordinal(d) == 1 <==> d == Date(1, 1, 1))
  {
    hide Ordinal;
    FirstOrdinal();
    OrderIsOrdinal(Date(1, 1, 1), d);
  }

  lemma FirstOrdinal()
    ensures Ordinal(Date(1, 1, 1)) == 1
  {
  }

  // Subtracting days fails exactly when it would leave the calendar, and moves by exactly that many days.
  lemma {:induction false} MinusIs(d: Date, n: nat)
    requires Valid(d)
    ensures Minus(d, n).Some? <==> Ordinal(d) > n
    ensures Minus(d, n).Some? ==> Valid(Minus(d, n).value) && Ordinal(Minus(d, n).value) == Ordinal(d) - n
    decreases n
  {
    hide Ordinal, DayBefore, Valid;
    DayBeforeIs(d);
    FirstDay(d);
    if n > 0 && DayBefore(d).Some? {
      MinusIs(DayBefore(d).value, n - 1);
    }
  }

  // ---------------------------------------------------------------- windows

  datatype Preset =
    | CurrentDay | PreviousDay | CurrentWeek | PreviousWeek | CurrentMonth | PreviousMonth
    | CurrentQuarter | PreviousQuarter | CurrentYear | PreviousYear | Rolling30Days | Rolling12Months
    | Custom

  datatype Window = Window(preset: Preset, anchor: Date, start: Option<Date>, end: Option<Date>)

  datatype Range = Range(start: Date, end: Date)

  // What the window's own validator guarantees before anything is resolved.
  predicate WindowOk(w: Window) {
    && Valid(w.anchor)
    && (w.start.Some? ==> Valid(w.start.value)) && (w.end.Some? ==> Valid(w.end.value))
    && (w.preset == Custom ==> w.start.Some? && w.end.Some?)
    && (w.start.Some? && w.end.Some? ==> NotAfter(w.start.value, w.end.value))
  }

  predicate RangeOk(r: Range) {
    Valid(r.start) && Valid(r.end) && NotAfter(r.start, r.end)
  }

  function Span(start: Option<Date>, end: Option<Date>): Option<Range> {
    if start.Some? && end.Some? then Some(Range(start.value, end.value)) else None
  }

  function QuarterMonth(month: int): int { (month - 1) / 3 * 3 + 1 }

  // None is a raised ValueError or OverflowError.
  function Resolve(w: Window): Option<Range>
    requires WindowOk(w)
  {
    var anchor := w.anchor;
    match w.preset
    case Custom => Span(w.start, w.end)
    case CurrentDay => Some(Range(anchor, anchor))
    case PreviousDay => Span(Minus(anchor, 1), Minus(anchor, 1))
    case CurrentWeek => Span(Minus(anchor, Weekday(anchor)), Some(anchor))
    case PreviousWeek =>
      var end := Minus(anchor, Weekday(anchor) + 1);
      if end.None? then None else Span(Minus(end.value, 6), end)
    case CurrentMonth => Some(Range(anchor.(day := 1), anchor))
    case PreviousMonth =>
      var end := Minus(anchor.(day := 1), 1);
      if end.None? then None else Some(Range(end.value.(day := 1), end.value))
    case CurrentQuarter => Span(MakeDate(anchor.year, QuarterMonth(anchor.month), 1), Some(anchor))
    case PreviousQuarter =>
      var start := MakeDate(anchor.year, QuarterMonth(anchor.month), 1);
      if start.None? then None
      else
        var end := Minus(start.value, 1);
        if end.None? then None else Span(MakeDate(end.value.year, QuarterMonth(end.value.month), 1), end)
    case CurrentYear => Span(MakeDate(anchor.year, 1, 1), Some(anchor))
    case PreviousYear => Span(MakeDate(anchor.year - 1, 1, 1), MakeDate(anchor.year - 1, 12, 31))
    case Rolling30Days => Span(Minus(anchor, 29), Some(anchor))
    case Rolling12Months =>
      if anchor.month == 12 then Span(MakeDate(anchor.year, 1, 1), Some(anchor))
      else Span(MakeDate(anchor.year - 1, anchor.month + 1, 1), Some(anchor))
  }

  lemma WeekdayInWeek(d: Date)
    requires Valid(d)
    ensures 0 <= Weekday(d) <= 6
  {
  }

  // Every window that resolves is a range of valid dates in order.
  lemma WindowsAreRanges(w: Window)
    requires WindowOk(w) && Resolve(w).Some?
    ensures RangeOk(Resolve(w).value)
    ensures w.preset == Custom ==> Some(Resolve(w).value.start) == w.start && Some(Resolve(w).value.end) == w.end
  {
    hide Weekday, Ordinal, Minus;
    var anchor := w.anchor;
    WeekdayInWeek(anchor);
    match w.preset
    case PreviousDay => MinusGoesBack(anchor, 1);
    case CurrentWeek => MinusGoesBack(anchor, Weekday(anchor));
    case PreviousWeek =>
      MinusGoesBack(anchor, Weekday(anchor) + 1);
      MinusGoesBack(Minus(anchor, Weekday(anchor) + 1).value, 6);
    case PreviousMonth => MinusGoesBack(anchor.(day := 1), 1);
    case PreviousQuarter => MinusGoesBack(Date(anchor.year, QuarterMonth(anchor.month), 1), 1);
    case Rolling30Days => MinusGoesBack(anchor, 29);
    case _ =>
  }

  lemma MinusGoesBack(d: Date, n: nat)
    requires Valid(d)
    ensures Minus(d, n).Some? ==> Valid(Minus(d, n).value) && NotAfter(Minus(d, n).value, d)
  {
    MinusIs(d, n);
    if Minus(d, n).Some? { OrderIsOrdinal(Minus(d, n).value, d); }
  }

  // ---------------------------------------------------------------- what the windows mean

  datatype Unit = Day | Week | Month | Quarter | Year

  function CurrentOf(unit: Unit): Preset {
    match unit case Day => CurrentDay case Week => CurrentWeek case Month => CurrentMonth
    case Quarter => CurrentQuarter case Year => CurrentYear
  }

  function PreviousOf(unit: Unit): Preset {
    match unit case Day => PreviousDay case Week => PreviousWeek case Month => PreviousMonth
    case Quarter => PreviousQuarter case Year => PreviousYear
  }

  predicate StartsUnit(unit: Unit, d: Date)
    requires 1 <= d.month
  {
    match unit
    case Day => true
    case Week => Weekday(d) == 0
    case Month => d.day == 1
    case Quarter => d.day == 1 && d.month in {1, 4, 7, 10}
    case Year => d.day == 1 && d.month == 1
  }

  // The range is exactly one calendar unit, from its first day to its last.
  predicate WholeUnit(unit: Unit, r: Range)
    requires RangeOk(r)
  {
    && StartsUnit(unit, r.start)
    && match unit
       case Day => r.end == r.start
       case Week => Ordinal(r.end) == Ordinal(r.start) + 6
       case Month => r.end == r.start.(day := DaysIn(r.start.year, r.start.month))
       case Quarter => r.end == Date(r.start.year, r.start.month + 2, DaysIn(r.start.year, r.start.month + 2))
       case Year => r.end == Date(r.start.year, 12, 31)
  }

  function Relative(anchor: Date, preset: Preset): Window { Window(preset, anchor, None, None) }

  predicate InRange(d: Date, r: Range) {
    Valid(d) && NotAfter(r.start, d) && NotAfter(d, r.end)
  }

  // The current window runs from the first day of the anchor's unit to the anchor. The previous one is
  // a whole unit that ends the day before, and it resolves exactly when that day is in the calendar.
  ghost predicate PrecedesWhole(anchor: Date, unit: Unit)
    requires Valid(anchor)
  {
    var current := Resolve(Relative(anchor, CurrentOf(unit)));
    var previous := Resolve(Relative(anchor, PreviousOf(unit)));
    && current.Some? && RangeOk(current.value) && StartsUnit(unit, current.value.start) && current.value.end == anchor
    && (forall d :: InRange(d, current.value) && StartsUnit(unit, d) ==> d == current.value.start)
    && (previous.Some? <==> Ordinal(current.value.start) > 1)
    && (previous.Some? ==>
          && RangeOk(previous.value) && WholeUnit(unit, previous.value)
          && Ordinal(previous.value.end) == Ordinal(current.value.start) - 1)
  }

  lemma PreviousIsWholeUnit(anchor: Date, unit: Unit)
    requires Valid(anchor)
    ensures PrecedesWhole(anchor, unit)
  {
    hide Ordinal, Minus, Weekday, Resolve;
    match unit
    case Day => PreviousDayWhole(anchor);
    case Week => PreviousWeekWhole(anchor);
    case Month => PreviousMonthWhole(anchor);
    case Quarter => PreviousQuarterWhole(anchor);
    case Year => PreviousYearWhole(anchor);
  }

  lemma PreviousDayWhole(anchor: Date)
    requires Valid(anchor)
    ensures PrecedesWhole(anchor, Day)
  {
    hide Ordinal, Minus, Weekday;
    MinusIs(anchor, 1);
    FirstDay(anchor);
  }

  lemma PreviousMonthWhole(anchor: Date)
    requires Valid(anchor)
    ensures PrecedesWhole(anchor, Month)
  {
    hide Ordinal, Minus, Weekday;
    MinusOne(anchor.(day := 1));
  }

  lemma PreviousQuarterWhole(anchor: Date)
    requires Valid(anchor)
    ensures PrecedesWhole(anchor, Quarter)
  {
    hide Ordinal, Minus, Weekday;
    MinusOne(Date(anchor.year, QuarterMonth(anchor.month), 1));
  }

  lemma PreviousYearWhole(anchor: Date)
    requires Valid(anchor)
    ensures PrecedesWhole(anchor, Year)
  {
    hide Ordinal, Minus, Weekday;
    MinusOne(Date(anchor.year, 1, 1));
  }

  lemma MinusOne(d: Date)
    requires Valid(d)
    ensures Minus(d, 1) == DayBefore(d) && (Minus(d, 1).Some? <==> Ordinal(d) > 1)
    ensures Minus(d, 1).Some? ==> Valid(Minus(d, 1).value) && Ordinal(Minus(d, 1).value) == Ordinal(d) - 1
  {
    hide Ordinal, DayBefore, Valid;
    MinusIs(d, 1);
  }

  lemma OneMonday(anchor: Date)
    requires Valid(anchor) && Resolve(Relative(anchor, CurrentWeek)).Some?
    ensures var r := Resolve(Relative(anchor, CurrentWeek)).value;
            && Valid(r.start) && Weekday(r.start) == 0
            && forall d :: InRange(d, r) && Weekday(d) == 0 ==> d == r.start
  {
    hide Ordinal, Minus;
    var w := Weekday(anchor);
    MinusIs(anchor, w);
    var r := Resolve(Relative(anchor, CurrentWeek)).value;
    forall d | InRange(d, r) && Weekday(d) == 0 ensures d == r.start {
      OrderIsOrdinal(r.start, d);
      OrderIsOrdinal(d, anchor);
    }
  }

  lemma PreviousWeekWhole(anchor: Date)
    requires Valid(anchor)
    ensures PrecedesWhole(anchor, Week)
  {
    hide Ordinal, Minus;
    var w := Weekday(anchor);
    FirstDay(anchor);
    MinusIs(anchor, w);
    MinusIs(anchor, w + 1);
    WindowsAreRanges(Relative(anchor, CurrentWeek));
    OneMonday(anchor);
    if Ordinal(anchor) > w + 1 {
      MinusIs(Minus(anchor, w + 1).value, 6);
      WindowsAreRanges(Relative(anchor, PreviousWeek));
    }
  }

  lemma RollingThirtyDays(anchor: Date)
    requires Valid(anchor) && Resolve(Relative(anchor, Rolling30Days)).Some?
    ensures var r := Resolve(Relative(anchor, Rolling30Days)).value;
            RangeOk(r) && r.end == anchor && Ordinal(r.end) - Ordinal(r.start) + 1 == 30
  {
    hide Ordinal, Minus;
    MinusIs(anchor, 29);
    WindowsAreRanges(Relative(anchor, Rolling30Days));
  }

  function MonthIndex(d: Date): int { 12 * d.year + d.month }

  // The calendar months that have a day in the range.
  ghost function MonthsTouched(r: Range): set<int> {
    set m | MonthIndex(r.start) <= m <= MonthIndex(r.end) && Touches(r, m)
  }

  ghost predicate Touches(r: Range, m: int) {
    exists d :: InRange(d, r) && MonthIndex(d) == m
  }

  function Interval(a: int, n: nat): set<int> {
    if n == 0 then {} else Interval(a, n - 1) + {a + n - 1}
  }

  lemma {:induction false} IntervalSize(a: int, n: nat)
    ensures |Interval(a, n)| == n
    ensures forall m :: m in Interval(a, n) <==> a <= m < a + n
  {
    if n > 0 { IntervalSize(a, n - 1); }
  }

  lemma RollingTwelveMonths(anchor: Date)
    requires Valid(anchor) && Resolve(Relative(anchor, Rolling12Months)).Some?
    ensures var r := Resolve(Relative(anchor, Rolling12Months)).value;
            && RangeOk(r) && r.end == anchor && r.start.day == 1
            && |MonthsTouched(r)| == 12
            && forall d :: InRange(d, r) ==> MonthIndex(d) in MonthsTouched(r)
  {
    var r := Resolve(Relative(anchor, Rolling12Months)).value;
    var first := MonthIndex(r.start);
    forall m | first <= m < first + 12 ensures Touches(r, m) {
      var year := (m - 1) / 12;
      var d := Date(year, m - 12 * year, 1);
      assert MonthIndex(d) == m && InRange(d, r);
    }
    IntervalSize(first, 12);
    assert MonthsTouched(r) == Interval(first, 12);
    forall d | InRange(d, r) ensures MonthIndex(d) in MonthsTouched(r) {
      assert first <= MonthIndex(d) < first + 12;
    }
  }

  // ---------------------------------------------------------------- the compared period

  datatype Comparison = NoComparison | PriorPeriod | YearOverYear

  // A year back, clamped to the length of that month; year 0 does not exist.
  function ShiftYear(d: Date): Option<Date>
    requires Valid(d)
  {
    var last := DaysIn(d.year - 1, d.month);
    MakeDate(d.year - 1, d.month, if d.day < last then d.day else last)
  }

  // The outer None is a raised error; the inner one means that nothing is compared.
  function ResolveComparison(current: Range, comparison: Comparison): Option<Option<Range>>
    requires RangeOk(current)
  {
    match comparison
    case NoComparison => Some(None)
    case PriorPeriod =>
      var days := Ordinal(current.end) - Ordinal(current.start);
      var end := Minus(current.start, 1);
      if end.None? || days < 0 then None
      else
        var range := Span(Minus(end.value, days), end);
        if range.None? then None else Some(range)
    case YearOverYear =>
      var range := Span(ShiftYear(current.start), ShiftYear(current.end));
      if range.None? then None else Some(range)
  }

  function Length(r: Range): int
    requires RangeOk(r)
  {
    Ordinal(r.end) - Ordinal(r.start) + 1
  }

  // The prior period has the same length, and it ends the day before the current one starts.
  lemma PriorPeriodIsAdjacent(current: Range)
    requires RangeOk(current) && ResolveComparison(current, PriorPeriod).Some?
    ensures ResolveComparison(current, PriorPeriod).value.Some?
    ensures var prior := ResolveComparison(current, PriorPeriod).value.value;
            && RangeOk(prior) && Length(prior) == Length(current)
            && Ordinal(prior.end) == Ordinal(current.start) - 1
            && forall d :: InRange(d, prior) ==> !InRange(d, current)
  {
    hide Ordinal, Minus;
    OrderIsOrdinal(current.start, current.end);
    var days := Ordinal(current.end) - Ordinal(current.start);
    MinusIs(current.start, 1);
    var end := Minus(current.start, 1).value;
    MinusIs(end, days);
    var start := Minus(end, days).value;
    OrderIsOrdinal(start, end);
    OrderIsOrdinal(end, current.start);
    forall d | InRange(d, Range(start, end)) ensures !InRange(d, current) {
      OrderIsOrdinal(d, end);
      OrderIsOrdinal(current.start, d);
    }
  }

  // The same month and day one year earlier, 29 February becoming the 28th.
  function SameDayYearBefore(d: Date): Date {
    if d.month == 2 && d.day == 29 then Date(d.year - 1, 2, 28) else Date(d.year - 1, d.month, d.day)
  }

  // Shifting a date by a year keeps order and moves it back by one year's days, leap day or not.
  lemma ShiftYearMovesAYear(d: Date)
    requires Valid(d)
    ensures ShiftYear(d).Some? <==> d.year > 1
    ensures ShiftYear(d).Some? ==> Valid(ShiftYear(d).value) && Ordinal(d) - Ordinal(ShiftYear(d).value) in {365, 366}
    ensures ShiftYear(d).Some? ==>
              ShiftYear(d).value == SameDayYearBefore(d)
  {
    hide DaysBeforeYear, DaysBeforeMonth;
    NextYear(d.year - 1);
    MonthsShift(d.year, d.month);
    LeapsApart(d.year);
  }

  lemma {:induction false} MonthsShift(year: int, month: int)
    requires 1 <= month
    ensures DaysBeforeMonth(year, month) - DaysBeforeMonth(year - 1, month)
         == if month <= 2 then 0 else (if Leap(year) then 1 else 0) - (if Leap(year - 1) then 1 else 0)
    decreases month
  {
    hide Leap;
    if month > 1 { MonthsShift(year, month - 1); }
  }

  lemma LeapsApart(year: int)
    ensures !(Leap(year) && Leap(year - 1))
  {
  }

  lemma ShiftYearMonotone(a: Date, b: Date)
    requires Valid(a) && Valid(b) && NotAfter(a, b) && ShiftYear(a).Some?
    ensures ShiftYear(b).Some? && NotAfter(ShiftYear(a).value, ShiftYear(b).value)
  {
  }

  // The year-over-year period is never empty, starts and ends before the current one, and differs from
  // it by at most one day. It overlaps the current period exactly when that starts no later than the day
  // on which it ended one year before.
  lemma YearOverYearIsEarlier(current: Range)
    requires RangeOk(current)
    ensures ResolveComparison(current, YearOverYear).Some? <==> current.start.year > 1
    ensures ResolveComparison(current, YearOverYear).Some? ==>
              && ResolveComparison(current, YearOverYear).value.Some?
              && var prior := ResolveComparison(current, YearOverYear).value.value;
              && RangeOk(prior) && -1 <= Length(prior) - Length(current) <= 1
              && Ordinal(prior.start) < Ordinal(current.start) && Ordinal(prior.end) < Ordinal(current.end)
              && ((exists d :: InRange(d, prior) && InRange(d, current)) <==> NotAfter(current.start, SameDayYearBefore(current.end)))
  {
    hide Ordinal;
    ShiftYearMovesAYear(current.start);
    ShiftYearMovesAYear(current.end);
    if current.start.year > 1 {
      ShiftYearMonotone(current.start, current.end);
      var prior := ResolveComparison(current, YearOverYear).value.value;
      OrderIsOrdinal(current.start, prior.end);
      OrderIsOrdinal(prior.end, current.end);
      OrderIsOrdinal(prior.start, current.start);
      if Ordinal(current.start) <= Ordinal(prior.end) { assert InRange(prior.end, prior) && InRange(prior.end, current); }
      forall d | InRange(d, prior) && InRange(d, current) ensures Ordinal(current.start) <= Ordinal(prior.end) {
        OrderIsOrdinal(current.start, d);
        OrderIsOrdinal(d, prior.end);
      }
    }
  }
}
