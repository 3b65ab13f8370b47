/** The calendar of components/DatePicker.tsx: Gregorian month lengths as JavaScript's `Date` computes
    them, the month navigation state, the grid of day cells and the `YYYY-MM-DD` text of the chosen
    date. The weekday of a month's first day (`getDay()`) is an input, 0 for Sunday to 6 for
    Saturday. */
module DatePicker {
  import opened Wrappers
  import opened Text

  // ---------------------------------------------------------------------------------------------
  // Month lengths

  /** The year `new Date(year, ...)` means: 0..99 are taken as 1900..1999. */
  function JsYear(year: int): int {
    if 0 <= year <= 99 then 1900 + year else year
  }

  predicate IsLeapYear(y: int) {
    y % 4 == 0 && (y % 100 != 0 || y % 400 == 0)
  }

  /** The Gregorian length of month `m` (0 for January) of year `y`. */
  function MonthLength(y: int, m: int): (n: int)
    requires 0 <= m < 12
    ensures 28 <= n <= 31
    ensures n == 28 <==> m == 1 && !IsLeapYear(y)
    ensures n == 29 <==> m == 1 && IsLeapYear(y)
  {
    if m == 1 then (if IsLeapYear(y) then 29 else 28)
    else if m == 3 || m == 5 || m == 8 || m == 10 then 30
    else 31
  }

  /** `daysInMonth`: `new Date(year, month + 1, 0).getDate()`, the day before the first of the next
      month. A month past December carries into the next year, as `Date` does. */
  function DaysInMonth(year: int, month: int): (n: int)
    ensures 28 <= n <= 31
    ensures 0 <= month < 12 ==> n == MonthLength(JsYear(year), month)
  {
    var next := month + 1;
    var y := JsYear(year) + next / 12;
    var m := next % 12;
    if m == 0 then MonthLength(y - 1, 11) else MonthLength(y, m - 1)
  }

  lemma DaysInMonthExamples()
    ensures DaysInMonth(2024, 1) == 29 && DaysInMonth(2026, 1) == 28
    ensures DaysInMonth(1900, 1) == 28 && DaysInMonth(2000, 1) == 29
    ensures DaysInMonth(2026, 0) == 31 && DaysInMonth(2026, 3) == 30 && DaysInMonth(2026, 11) == 31
    ensures DaysInMonth(24, 1) == 29
  {
  }

  // ---------------------------------------------------------------------------------------------
  // Month navigation

  datatype YearMonth = YearMonth(year: int, month: int)

  /** Months counted from January of year 0; navigation moves this count by one. */
  function MonthIndex(ym: YearMonth): int {
    ym.year * 12 + ym.month
  }

  predicate ValidMonth(ym: YearMonth) {
    0 <= ym.month < 12
  }

  /** Two months in range with the same count are the same month. */
  lemma MonthIndexInjective(a: YearMonth, b: YearMonth)
    requires ValidMonth(a) && ValidMonth(b) && MonthIndex(a) == MonthIndex(b)
    ensures a == b
  {
  }

  /** The month the "previous" arrow moves to: December of the year before from January, else the
      month before. */
  function PrevMonth(ym: YearMonth): (r: YearMonth)
    requires ValidMonth(ym)
    ensures ValidMonth(r) && MonthIndex(r) == MonthIndex(ym) - 1
  {
    if ym.month == 0 then YearMonth(ym.year - 1, 11) else YearMonth(ym.year, ym.month - 1)
  }

  /** The month the "next" arrow moves to: January of the year after from December, else the month
      after. */
  function NextMonth(ym: YearMonth): (r: YearMonth)
    requires ValidMonth(ym)
    ensures ValidMonth(r) && MonthIndex(r) == MonthIndex(ym) + 1
  {
    if ym.month == 11 then YearMonth(ym.year + 1, 0) else YearMonth(ym.year, ym.month + 1)
  }

  /** The two arrows undo each other. */
  lemma PrevNextInverse(ym: YearMonth)
    requires ValidMonth(ym)
    ensures PrevMonth(NextMonth(ym)) == ym && NextMonth(PrevMonth(ym)) == ym
  {
    MonthIndexInjective(PrevMonth(NextMonth(ym)), ym);
    MonthIndexInjective(NextMonth(PrevMonth(ym)), ym);
  }

  /** Twelve steps forward reach the same month of the next year. */
  function Forward(ym: YearMonth, k: nat): (r: YearMonth)
    requires ValidMonth(ym)
    ensures ValidMonth(r) && MonthIndex(r) == MonthIndex(ym) + k
  {
    if k == 0 then ym else NextMonth(Forward(ym, k - 1))
  }

  lemma TwelveStepsIsAYear(ym: YearMonth)
    requires ValidMonth(ym)
    ensures Forward(ym, 12) == YearMonth(ym.year + 1, ym.month)
  {
    MonthIndexInjective(Forward(ym, 12), YearMonth(ym.year + 1, ym.month));
  }

  // ---------------------------------------------------------------------------------------------
  // The day grid

  /** The cells the grid is built from: `blanks` empty cells, then the days 1 to `days`. */
  function Grid(blanks: nat, days: nat): (cells: seq<Option<nat>>)
    ensures |cells| == blanks + days
    ensures forall i :: 0 <= i < blanks ==> cells[i] == None
    ensures forall d :: 1 <= d <= days ==> cells[blanks + d - 1] == Some(d)
  {
    seq(blanks + days, i requires 0 <= i < blanks + days => if i < blanks then None else Some(i - blanks + 1))
  }

  /** One more blank cell before a grid without days. */
  lemma GridAddBlank(blanks: nat)
    ensures Grid(blanks + 1, 0) == Grid(blanks, 0) + [None]
  {
    assert forall k :: 0 <= k < blanks + 1 ==> Grid(blanks + 1, 0)[k] == (Grid(blanks, 0) + [None])[k];
  }

  /** The next day appended to a grid. */
  lemma GridAddDay(blanks: nat, days: nat)
    ensures Grid(blanks, days + 1) == Grid(blanks, days) + [Some(days + 1)]
  {
    var longer, shorter := Grid(blanks, days + 1), Grid(blanks, days);
    forall k | 0 <= k < blanks + days + 1 ensures longer[k] == (shorter + [Some(days + 1)])[k] {
      if k < blanks + days { assert (shorter + [Some(days + 1)])[k] == shorter[k]; }
    }
  }

  /** The two `for` loops of `renderCalendar` that fill `calendarDays`. */
  method BuildGrid(blanks: nat, days: nat) returns (cells: seq<Option<nat>>)
    ensures cells == Grid(blanks, days)
  {
    cells := [];
    var i := 0;
    while i < blanks
      invariant 0 <= i <= blanks
      invariant cells == Grid(i, 0)
    {
      GridAddBlank(i);
      cells := cells + [None];
      i := i + 1;
    }
    var day := 1;
    while day <= days
      invariant 1 <= day <= days + 1
      invariant cells == Grid(blanks, day - 1)
    {
      GridAddDay(blanks, day - 1);
      cells := cells + [Some(day)];
      day := day + 1;
    }
  }

  /** The column headings, left to right. */
  const WeekDays: seq<string> := ["Mon", "Tue", "Wed", "Thu", "Fri", "Sat", "Sun"]

  /** Weekday names in `getDay()` order, Sunday first. */
  const DayNames: seq<string> := ["Sun", "Mon", "Tue", "Wed", "Thu", "Fri", "Sat"]

  /** The heading above grid cell `i` in a grid seven cells wide. */
  function ColumnHeading(i: nat): string {
    WeekDays[i % 7]
  }

  /** The weekday of day `d` of a month whose first day has weekday `firstDay`. */
  function WeekdayOf(firstDay: nat, d: nat): nat
    requires d >= 1
  {
    (firstDay + d - 1) % 7
  }

  /** As written: with `getDay()` blanks in front, each day stands under the heading of the weekday
      after its own. */
  lemma HeadingAsWritten(firstDay: nat, d: nat)
    requires firstDay < 7 && d >= 1
    ensures ColumnHeading(firstDay + d - 1) == DayNames[(WeekdayOf(firstDay, d) + 1) % 7]
  {
    var w := WeekdayOf(firstDay, d);
    assert (firstDay + d - 1) % 7 == w;
    assert WeekDays[w] == DayNames[(w + 1) % 7] by {
      assert 0 <= w < 7;
    }
  }

  /** A month starting on a Monday shows its first day under "Tue". */
  lemma HeadingOfMondayStart()
    ensures Grid(1, 30)[0] == None && Grid(1, 30)[1] == Some(1)
    ensures ColumnHeading(1) == "Tue" && DayNames[WeekdayOf(1, 1)] == "Mon"
  {
  }

  /** Corrected: Monday-first blanks, `(getDay() + 6) % 7` of them. */
  function MondayFirstBlanks(firstDay: nat): nat {
    (firstDay + 6) % 7
  }

  /** With Monday-first blanks every day stands under its own weekday. */
  lemma HeadingCorrected(firstDay: nat, d: nat)
    requires d >= 1
    ensures ColumnHeading(MondayFirstBlanks(firstDay) + d - 1) == DayNames[WeekdayOf(firstDay, d)]
  {
    var w := WeekdayOf(firstDay, d);
    var b := MondayFirstBlanks(firstDay);
    assert (b + d - 1) % 7 == (w + 6) % 7 by {
      assert b + d - 1 == (firstDay + 6) % 7 + d - 1;
      assert (firstDay + 6) % 7 + d - 1 == firstDay + d - 1 + 6 - 7 * ((firstDay + 6) / 7);
      assert firstDay + d - 1 == 7 * ((firstDay + d - 1) / 7) + w;
    }
    assert WeekDays[(w + 6) % 7] == DayNames[w] by {
      assert 0 <= w < 7;
    }
  }

  // ---------------------------------------------------------------------------------------------
  // The chosen date

  /** `new Date(year, month, day)` for a day of the month or just past its end (a day remembered
      from a longer month): past the end it runs on into the next month. */
  function ConfirmedDate(year: int, month: int, day: int): (r: (YearMonth, int))
    requires 0 <= month < 12 && 1 <= day <= 31
    ensures ValidMonth(r.0) && 1 <= r.1 <= MonthLength(r.0.year, r.0.month)
    ensures day <= DaysInMonth(year, month) ==> r == (YearMonth(JsYear(year), month), day)
    ensures day > DaysInMonth(year, month) ==>
      r == (NextMonth(YearMonth(JsYear(year), month)), day - DaysInMonth(year, month))
  {
    var ym := YearMonth(JsYear(year), month);
    var n := DaysInMonth(year, month);
    if day <= n then (ym, day) else (NextMonth(ym), day - n)
  }

  /** The `YYYY-MM-DD` text `handleConfirm` emits: the year, then the month (from 1) and the day,
      each padded to two digits. */
  function FormatDate(year: int, month: int, day: nat): string
    requires 0 <= month < 12
  {
    IntToString(year) + "-" + PadStart(NatToString(month + 1), 2, '0') + "-" + PadStart(NatToString(day), 2, '0')
  }

  /** For a four-digit year the text has the shape the form accepts, and its parts read back as the
      year, the month (from 1) and the day. */
  lemma FormatDateRoundTrip(year: int, month: int, day: nat)
    requires 1000 <= year <= 9999 && 0 <= month < 12 && 1 <= day <= 31
    ensures var r := FormatDate(year, month, day);
      && IsDateShape(r)
      && DigitsValue(r[..4]) == year && DigitsValue(r[5..7]) == month + 1 && DigitsValue(r[8..]) == day
  {
    var y := NatToString(year);
    var m := PadStart(NatToString(month + 1), 2, '0');
    var d := PadStart(NatToString(day), 2, '0');
    NatToStringLength(year);
    NatToStringValue(year);
    TwoDigits(month + 1);
    TwoDigits(day);
    var r := FormatDate(year, month, day);
    assert r == y + "-" + m + "-" + d;
    assert r[..4] == y && r[5..7] == m && r[8..] == d;
  }

  /** The date picker's state: the shown month and the selected day. */
  class Calendar {
    var selectedYear: int
    var selectedMonth: int
    var selectedDay: int

    /** The month is always one of the twelve and the day one a calendar can show. */
    predicate Valid()
      reads this
    {
      0 <= selectedMonth < 12 && 1 <= selectedDay <= 31
    }

    function Shown(): YearMonth
      reads this
    {
      YearMonth(selectedYear, selectedMonth)
    }

    /** The picker opened on a date (`getFullYear`, `getMonth`, `getDate` of today or of the value). */
    constructor (year: int, month: int, day: int)
      requires 0 <= month < 12 && 1 <= day <= 31
      ensures Valid() && selectedYear == year && selectedMonth == month && selectedDay == day
    {
      selectedYear := year;
      selectedMonth := month;
      selectedDay := day;
    }

    /** The "previous" arrow; the selected day is kept. */
    method GoToPreviousMonth()
      requires Valid()
      modifies this
      ensures Valid() && Shown() == PrevMonth(old(Shown())) && selectedDay == old(selectedDay)
    {
      if selectedMonth == 0 {
        selectedMonth := 11;
        selectedYear := selectedYear - 1;
      } else {
        selectedMonth := selectedMonth - 1;
      }
    }

    /** The "next" arrow; the selected day is kept. */
    method GoToNextMonth()
      requires Valid()
      modifies this
      ensures Valid() && Shown() == NextMonth(old(Shown())) && selectedDay == old(selectedDay)
    {
      if selectedMonth == 11 {
        selectedMonth := 0;
        selectedYear := selectedYear + 1;
      } else {
        selectedMonth := selectedMonth + 1;
      }
    }

    /** Pressing a day cell of the shown month. */
    method SelectDay(day: int)
      requires Valid() && 1 <= day <= DaysInMonth(selectedYear, selectedMonth)
      modifies this`selectedDay
      ensures Valid() && selectedDay == day
    {
      selectedDay := day;
    }

    /** `renderCalendar`'s cells for the shown month, whose first day has weekday `firstDay`. */
    method RenderCalendar(firstDay: nat) returns (cells: seq<Option<nat>>)
      requires Valid()
      ensures cells == Grid(firstDay, DaysInMonth(selectedYear, selectedMonth))
      ensures |cells| == firstDay + DaysInMonth(selectedYear, selectedMonth)
    {
      var days := DaysInMonth(selectedYear, selectedMonth);
      cells := BuildGrid(firstDay, days);
    }

    /** The grid with Monday-first blanks, under which every day stands below its own weekday. */
    method RenderCalendarMondayFirst(firstDay: nat) returns (cells: seq<Option<nat>>)
      requires Valid()
      ensures cells == Grid(MondayFirstBlanks(firstDay), DaysInMonth(selectedYear, selectedMonth))
    {
      var days := DaysInMonth(selectedYear, selectedMonth);
      cells := BuildGrid(MondayFirstBlanks(firstDay), days);
    }

    /** `handleConfirm`: the text of the selected date, run on into the next month when the selected
        day is past the end of the shown one. */
    function Confirm(): (r: string)
      requires Valid()
      reads this
      ensures 1000 <= selectedYear <= 9998 ==> IsDateShape(r)
      ensures 1000 <= selectedYear <= 9999 && selectedDay <= DaysInMonth(selectedYear, selectedMonth) ==>
        IsDateShape(r) && DigitsValue(r[..4]) == selectedYear
      ensures 1000 <= selectedYear <= 9999 && selectedDay <= DaysInMonth(selectedYear, selectedMonth) ==>
        IsDateShape(r) && DigitsValue(r[5..7]) == selectedMonth + 1 && DigitsValue(r[8..]) == selectedDay
    {
      var (ym, d) := ConfirmedDate(selectedYear, selectedMonth, selectedDay);
      if 1000 <= ym.year <= 9999 then
        FormatDateRoundTrip(ym.year, ym.month, d);
        FormatDate(ym.year, ym.month, d)
      else
        FormatDate(ym.year, ym.month, d)
    }
  }

  /** A day of the shown month, in a four-digit year, is confirmed as exactly that date. */
  lemma ConfirmInMonth(year: int, month: int, day: int)
    requires 1000 <= year <= 9999 && 0 <= month < 12 && 1 <= day <= DaysInMonth(year, month)
    ensures var (ym, d) := ConfirmedDate(year, month, day);
      ym == YearMonth(year, month) && d == day
    ensures IsDateShape(FormatDate(year, month, day))
  {
    FormatDateRoundTrip(year, month, day);
  }

  /** Day 31 kept from January and confirmed in February 2026 becomes the 3rd of March. */
  lemma ConfirmRunsOn()
    ensures ConfirmedDate(2026, 1, 31) == (YearMonth(2026, 2), 3)
  {
  }
}
