/**
 * The reporting periods `CostExplorer.__init__` derives from today's date:
 * the start of the current and the previous month, the same day one month
 * back, and the two half-open query windows.
 */
module Periods {
  import opened Dates

  /**
   * Dates for which the constructor's date arithmetic stays inside Python's
   * calendar: everything after 0001-02-01 (for earlier dates the month step
   * back to year 0 raises ValueError).
   */
  predicate InRange(today: Date) {
    Valid(today) && (today.year > 1 || today.month > 2 || (today.month == 2 && today.day > 1))
  }

  /** A query window: `start` inclusive, `end` exclusive, one data point per day. */
  datatype Window = Window(start: Date, end: Date)

  /** Number of daily data points a window yields. */
  function Span(w: Window): int
    requires Valid(w.start) && Valid(w.end)
  {
    Ordinal(w.end) - Ordinal(w.start)
  }

  /**
   * `first_day_of_current_month`: today with day 1, moved back one month when
   * today is itself the first, so the "current" month has elapsed days.
   */
  function FirstOfCurrentMonth(today: Date): (r: Date)
    requires InRange(today)
    ensures Valid(r) && r.day == 1
    ensures MonthIndex(r) == if today.day == 1 then MonthIndex(today) - 1 else MonthIndex(today)
    ensures Ordinal(r) < Ordinal(today)
  {
    var first := Date(today.year, today.month, 1);
    if today == first then
      MonthBackFromFirst(first);
      MinusMonth(first)
    else first
  }

  /** `first_day_of_previous_month`: one calendar month before the current month's start. */
  function FirstOfPreviousMonth(today: Date): (r: Date)
    requires InRange(today)
    ensures Valid(r) && r.day == 1
    ensures MonthIndex(r) == MonthIndex(FirstOfCurrentMonth(today)) - 1
  {
    MinusMonth(FirstOfCurrentMonth(today))
  }

  /** `second_day_of_month`. */
  predicate SecondDayOfMonth(today: Date) {
    today.day == 2
  }

  /** `relative_prev_month_date`: today minus one calendar month, day clamped to that month. */
  function RelativePrevMonthDate(today: Date): (r: Date)
    requires InRange(today)
    ensures Valid(r)
  {
    MinusMonth(today)
  }

  /** The current-month query: from the current month's start (one day earlier on the 2nd) up to today. */
  function CurrentWindow(today: Date): (w: Window)
    requires InRange(today)
    ensures Valid(w.start) && Valid(w.end)
  {
    var first := FirstOfCurrentMonth(today);
    Window(if today.day == 2 then MinusDay(first) else first, today)
  }

  /** The previous-month query: from the previous month's start up to the same day one month back. */
  function PreviousWindow(today: Date): (w: Window)
    requires InRange(today)
    ensures Valid(w.start) && Valid(w.end)
  {
    Window(FirstOfPreviousMonth(today), RelativePrevMonthDate(today))
  }

  /** The previous window is never empty. */
  lemma PreviousWindowNonEmpty(today: Date)
    requires InRange(today)
    ensures Span(PreviousWindow(today)) >= 1
  {
    if today.day == 1 {
      MonthBackFromFirst(FirstOfCurrentMonth(today));
    }
  }

  /** The current window yields at least two daily data points, so a day-over-day difference exists. */
  lemma CurrentWindowSpansTwoDays(today: Date)
    requires InRange(today)
    ensures Span(CurrentWindow(today)) >= 2
  {
    if today.day == 1 {
      MonthBackFromFirst(Date(today.year, today.month, 1));
    }
  }

  /** The day before the current month's start is the last day of the previous month. */
  lemma LookbackIsLastDayOfPreviousMonth(today: Date)
    requires InRange(today) && SecondDayOfMonth(today)
    ensures var s := CurrentWindow(today).start;
      MonthIndex(s) == MonthIndex(today) - 1 && s.day == DaysInMonth(s.year, s.month)
  {
  }

  /** The previous window ends one calendar month before today, with the day clamped to that month's length. */
  lemma PreviousWindowEndsOneMonthBack(today: Date)
    requires InRange(today)
    ensures MonthIndex(PreviousWindow(today).end) == MonthIndex(today) - 1
    ensures PreviousWindow(today).end.day == Min(today.day, DaysInMonth(PreviousWindow(today).end.year, PreviousWindow(today).end.month))
  {
  }

  /**
   * The two windows need not cover equally many days: on 2021-03-31 the
   * clamped end 2021-02-28 gives 30 March days against 27 February days, and
   * on 2021-10-01 the shifted windows give 30 September days against 31
   * August days.
   */
  lemma ExampleUnequalSpans()
    ensures Span(CurrentWindow(Date(2021, 3, 31))) == 30 && Span(PreviousWindow(Date(2021, 3, 31))) == 27
    ensures Span(CurrentWindow(Date(2021, 10, 1))) == 30 && Span(PreviousWindow(Date(2021, 10, 1))) == 31
  {
    YearLength(2021);
  }

  lemma Example20210902()
    ensures CurrentWindow(Date(2021, 9, 2)) == Window(Date(2021, 8, 31), Date(2021, 9, 2))
    ensures PreviousWindow(Date(2021, 9, 2)) == Window(Date(2021, 8, 1), Date(2021, 8, 2))
  {
  }

  lemma Example20210915()
    ensures CurrentWindow(Date(2021, 9, 15)) == Window(Date(2021, 9, 1), Date(2021, 9, 15))
    ensures PreviousWindow(Date(2021, 9, 15)) == Window(Date(2021, 8, 1), Date(2021, 8, 15))
  {
  }

  lemma Example20210901()
    ensures CurrentWindow(Date(2021, 9, 1)) == Window(Date(2021, 8, 1), Date(2021, 9, 1))
    ensures PreviousWindow(Date(2021, 9, 1)) == Window(Date(2021, 7, 1), Date(2021, 8, 1))
  {
  }

  lemma ExampleMonthEnd()
    ensures RelativePrevMonthDate(Date(2021, 3, 31)) == Date(2021, 2, 28)
    ensures RelativePrevMonthDate(Date(2024, 3, 31)) == Date(2024, 2, 29)
    ensures RelativePrevMonthDate(Date(2022, 1, 15)) == Date(2021, 12, 15)
  {
  }
}
