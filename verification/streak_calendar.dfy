/** The month calendar page (frontend/src/pages/Streaks.tsx): the grid of one month
    laid out Monday first and cut into weeks, month and three-month navigation, the
    cell colour and the encouragement line. The weekday of the 1st, the length of
    the month and the ISO date text of each day come from the JavaScript `Date`
    object and are parameters here. */
module StreakCalendarPage {
  import opened Wrappers
  import opened Seqs
  import StreakHistory

  datatype CalendarDay = CalendarDay(date: string, points: int, completed: bool)

  /** The padding cell. */
  const Blank: CalendarDay := CalendarDay("", 0, false)

  /** `(startDay + 6) % 7`: the column of the 1st when weeks start on Monday, from
      `getDay()`, which counts from Sunday. */
  function WeekStart(startDay: int): (offset: int)
    requires 0 <= startDay < 7
    ensures 0 <= offset < 7
    ensures startDay == 0 ==> offset == 6
    ensures startDay > 0 ==> offset == startDay - 1
  {
    (startDay + 6) % 7
  }

  /** `calendarData.find(c => c.date === date)`. */
  function FindFirst(calendarData: seq<CalendarDay>, date: string): (r: Option<nat>)
    ensures r.Some? ==> r.value < |calendarData| && calendarData[r.value].date == date &&
                        forall i :: 0 <= i < r.value ==> calendarData[i].date != date
    ensures r.None? <==> forall i :: 0 <= i < |calendarData| ==> calendarData[i].date != date
    decreases |calendarData|
  {
    if calendarData == [] then None
    else if calendarData[0].date == date then Some(0)
    else match FindFirst(calendarData[1..], date)
      case None => None
      case Some(i) => Some(i + 1)
  }

  /** The cell of one day: the first fetched entry for that date, or an incomplete
      day with no points. */
  function DayCell(calendarData: seq<CalendarDay>, date: string): (cell: CalendarDay)
    ensures cell.date == date
    ensures (forall i :: 0 <= i < |calendarData| ==> calendarData[i].date != date) ==>
              cell == CalendarDay(date, 0, false)
    ensures forall i :: (0 <= i < |calendarData| && calendarData[i].date == date &&
                         forall j :: 0 <= j < i ==> calendarData[j].date != date) ==> cell == calendarData[i]
  {
    match FindFirst(calendarData, date)
    case None => CalendarDay(date, 0, false)
    case Some(i) => calendarData[i]
  }

  /** The cells of days 1 to `count`, where `dateOf(d)` is the date text of day `d`. */
  function DayCells(calendarData: seq<CalendarDay>, dateOf: int -> string, count: nat): (cells: seq<CalendarDay>)
    ensures |cells| == count
    ensures forall i :: 0 <= i < count ==> cells[i] == DayCell(calendarData, dateOf(i + 1))
  {
    seq(count, i requires 0 <= i < count => DayCell(calendarData, dateOf(i + 1)))
  }

  /** The number of blank cells that completes the last week of `n` cells. */
  function TrailingPadding(n: nat): (r: nat)
    ensures r < 7 && (n + r) % 7 == 0
  {
    var q, m := n / 7, n % 7;
    assert n == 7 * q + m && 0 <= m < 7;
    if m == 0 then 0
    else
      assert n + (7 - m) == 7 * (q + 1);
      7 - m
  }

  /** No shorter padding completes the week. */
  lemma TrailingPaddingMinimal(n: nat, k: nat)
    requires k < TrailingPadding(n)
    ensures (n + k) % 7 != 0
  {
    var q, m := n / 7, n % 7;
    assert n == 7 * q + m && 0 < m + k < 7;
    assert n + k == 7 * q + (m + k);
  }

  /** The whole grid of a month, row after row. */
  function MonthCells(startDay: int, daysInMonth: nat, dateOf: int -> string,
                      calendarData: seq<CalendarDay>): seq<CalendarDay>
    requires 0 <= startDay < 7
  {
    var lead := WeekStart(startDay) + daysInMonth;
    Repeat(Blank, WeekStart(startDay)) + DayCells(calendarData, dateOf, daysInMonth) + Repeat(Blank, TrailingPadding(lead))
  }

  /** `getMonthCalendar`: the blanks before the 1st, one cell per day in order, the
      blanks after the last day, cut into full weeks. */
  method GetMonthCalendar(startDay: int, daysInMonth: nat, dateOf: int -> string,
                          calendarData: seq<CalendarDay>) returns (weeks: seq<seq<CalendarDay>>)
    requires 0 <= startDay < 7
    ensures Flatten(weeks) == MonthCells(startDay, daysInMonth, dateOf, calendarData)
    ensures forall w :: 0 <= w < |weeks| ==> |weeks[w]| == 7
    ensures 7 * |weeks| == WeekStart(startDay) + daysInMonth + TrailingPadding(WeekStart(startDay) + daysInMonth)
  {
    var days := LayOutDays(startDay, daysInMonth, dateOf, calendarData);
    weeks := CutIntoWeeks(days);
  }

  /** The cells of the first `d` days are those of the first `d - 1` and then day `d`. */
  lemma DayCellsSnoc(calendarData: seq<CalendarDay>, dateOf: int -> string, d: nat)
    requires d >= 1
    ensures DayCells(calendarData, dateOf, d)
            == DayCells(calendarData, dateOf, d - 1) + [DayCell(calendarData, dateOf(d))]
  {
    var longer, shorter := DayCells(calendarData, dateOf, d), DayCells(calendarData, dateOf, d - 1);
    assert forall i :: 0 <= i < d - 1 ==> longer[i] == shorter[i];
  }

  /** The three loops of `getMonthCalendar` that fill the `days` array. */
  method LayOutDays(startDay: int, daysInMonth: nat, dateOf: int -> string,
                    calendarData: seq<CalendarDay>) returns (days: seq<CalendarDay>)
    requires 0 <= startDay < 7
    ensures days == MonthCells(startDay, daysInMonth, dateOf, calendarData)
    ensures |days| % 7 == 0
  {
    var weekStart := (startDay + 6) % 7;
    days := LeadingBlanks(weekStart);
    days := AppendDays(days, daysInMonth, dateOf, calendarData);
    days := PadToWeek(days);
  }

  /** The first loop of `getMonthCalendar`: one blank per weekday before the 1st. */
  method LeadingBlanks(weekStart: nat) returns (days: seq<CalendarDay>)
    ensures days == Repeat(Blank, weekStart)
  {
    days := [];
    for i := 0 to weekStart
      invariant days == Repeat(Blank, i)
    {
      assert Repeat(Blank, i + 1) == Repeat(Blank, i) + [Blank];
      days := days + [Blank];
    }
  }

  /** The second loop of `getMonthCalendar`: the cells of days 1 to `daysInMonth`. */
  method AppendDays(prefix: seq<CalendarDay>, daysInMonth: nat, dateOf: int -> string,
                    calendarData: seq<CalendarDay>) returns (days: seq<CalendarDay>)
    ensures days == prefix + DayCells(calendarData, dateOf, daysInMonth)
  {
    days := prefix;
    var d := 1;
    while d <= daysInMonth
      invariant 1 <= d <= daysInMonth + 1
      invariant days == prefix + DayCells(calendarData, dateOf, d - 1)
    {
      DayCellsSnoc(calendarData, dateOf, d);
      days := days + [DayCell(calendarData, dateOf(d))];
      d := d + 1;
    }
  }

  /** The third loop of `getMonthCalendar`: blanks until the grid fills whole weeks. */
  method PadToWeek(filled: seq<CalendarDay>) returns (days: seq<CalendarDay>)
    ensures days == filled + Repeat(Blank, TrailingPadding(|filled|))
    ensures |days| % 7 == 0
  {
    days := filled;
    var t := 0;
    while |days| % 7 != 0
      invariant t <= TrailingPadding(|filled|)
      invariant days == filled + Repeat(Blank, t)
      decreases TrailingPadding(|filled|) - t
    {
      assert Repeat(Blank, t + 1) == Repeat(Blank, t) + [Blank];
      days := days + [Blank];
      t := t + 1;
    }
    if t < TrailingPadding(|filled|) {
      TrailingPaddingMinimal(|filled|, t);
    }
  }

  /** The last loop of `getMonthCalendar`: consecutive slices of 7. */
  method CutIntoWeeks(days: seq<CalendarDay>) returns (weeks: seq<seq<CalendarDay>>)
    requires |days| % 7 == 0
    ensures Flatten(weeks) == days
    ensures forall w :: 0 <= w < |weeks| ==> |weeks[w]| == 7
    ensures 7 * |weeks| == |days|
  {
    ghost var rows := |days| / 7;
    assert |days| == 7 * rows;
    weeks := [];
    var i := 0;
    while i < |days|
      invariant 0 <= i <= |days| && i == 7 * |weeks| && |weeks| <= rows
      invariant Flatten(weeks) == days[..i]
      invariant forall w :: 0 <= w < |weeks| ==> |weeks[w]| == 7
    {
      FlattenSnoc(weeks, days[i..i + 7]);
      assert days[..i + 7] == days[..i] + days[i..i + 7];
      weeks := weeks + [days[i..i + 7]];
      i := i + 7;
    }
    assert days[..i] == days;
  }

  /** A month and a year, as the page's `selectedMonth` and `selectedYear`. */
  datatype MonthYear = MonthYear(month: int, year: int)

  /** The number of months since January of year 0, an independent measure of
      position in time. */
  function Absolute(my: MonthYear): int
  {
    my.year * 12 + my.month
  }

  predicate ValidMonth(my: MonthYear)
  {
    0 <= my.month < 12
  }

  /** `handleNextMonth`. */
  function NextMonth(my: MonthYear): (r: MonthYear)
    ensures ValidMonth(my) ==> ValidMonth(r) && Absolute(r) == Absolute(my) + 1
  {
    if my.month == 11 then MonthYear(0, my.year + 1) else MonthYear(my.month + 1, my.year)
  }

  /** `handlePrevMonth`. */
  function PrevMonth(my: MonthYear): (r: MonthYear)
    ensures ValidMonth(my) ==> ValidMonth(r) && Absolute(r) == Absolute(my) - 1
  {
    if my.month == 0 then MonthYear(11, my.year - 1) else MonthYear(my.month - 1, my.year)
  }

  /** A valid month is determined by its absolute position. */
  lemma AbsoluteDetermines(a: MonthYear, b: MonthYear)
    requires ValidMonth(a) && ValidMonth(b) && Absolute(a) == Absolute(b)
    ensures a == b
  {
    assert 12 * (a.year - b.year) == b.month - a.month;
  }

  /** Going forward then back, or back then forward, returns to the same month. */
  lemma MonthRoundTrip(my: MonthYear)
    requires ValidMonth(my)
    ensures PrevMonth(NextMonth(my)) == my
    ensures NextMonth(PrevMonth(my)) == my
  {
    AbsoluteDetermines(PrevMonth(NextMonth(my)), my);
    AbsoluteDetermines(NextMonth(PrevMonth(my)), my);
  }

  /** JavaScript's `%` for a positive divisor: the remainder takes the sign of the
      dividend. */
  function JsRemainder(a: int, b: int): (r: int)
    requires b > 0
    ensures a >= 0 ==> r == a % b
    ensures a < 0 ==> r == -((-a) % b) && -b < r <= 0
  {
    if a >= 0 then a % b else -((-a) % b)
  }

  /** `handleNextMonthRange`. */
  function NextRange(monthStart: int): (r: int)
    ensures monthStart >= -3 ==> 0 <= r < 12
  {
    JsRemainder(monthStart + 3, 12)
  }

  /** `handlePrevMonthRange`. */
  function PrevRange(monthStart: int): (r: int)
    ensures monthStart >= -9 ==> 0 <= r < 12
  {
    JsRemainder(monthStart - 3 + 12, 12)
  }

  /** The range starts the page can reach from its initial 0: January, April, July
      and October. */
  predicate QuarterStart(monthStart: int)
  {
    monthStart == 0 || monthStart == 3 || monthStart == 6 || monthStart == 9
  }

  /** Where each range move goes from a quarter start. */
  lemma QuarterSteps(q: int)
    requires QuarterStart(q)
    ensures NextRange(q) == if q == 9 then 0 else q + 3
    ensures PrevRange(q) == if q == 0 then 9 else q - 3
  {
    if q == 0 {
      assert NextRange(0) == 3 && PrevRange(0) == 9;
    } else if q == 3 {
      assert NextRange(3) == 6 && PrevRange(3) == 0;
    } else if q == 6 {
      assert NextRange(6) == 9 && PrevRange(6) == 3;
    } else {
      assert NextRange(9) == 0 && PrevRange(9) == 6;
    }
  }

  /** Both range moves keep the start on a quarter. */
  lemma RangeStaysOnQuarter(monthStart: int)
    requires QuarterStart(monthStart)
    ensures QuarterStart(NextRange(monthStart)) && QuarterStart(PrevRange(monthStart))
  {
    QuarterSteps(monthStart);
  }

  /** From a quarter start the two range moves undo each other, and four moves in
      one direction come back to the start. */
  lemma RangeNavigation(monthStart: int)
    requires QuarterStart(monthStart)
    ensures PrevRange(NextRange(monthStart)) == monthStart
    ensures NextRange(PrevRange(monthStart)) == monthStart
    ensures NextRange(NextRange(NextRange(NextRange(monthStart)))) == monthStart
  {
    QuarterSteps(monthStart);
    QuarterSteps(PrevRange(monthStart));
    var n1 := NextRange(monthStart);
    QuarterSteps(n1);
    var n2 := NextRange(n1);
    QuarterSteps(n2);
    QuarterSteps(NextRange(n2));
  }

  /** `months.slice(monthStart, monthStart + 3)` for a start inside the year; the
      slice stops at December. */
  function MonthsShown(monthStart: int): (shown: seq<string>)
    requires 0 <= monthStart < 12
    ensures |shown| == if monthStart <= 9 then 3 else 12 - monthStart
    ensures forall i :: 0 <= i < |shown| ==> shown[i] == StreakHistory.MonthNames[monthStart + i]
  {
    var names := StreakHistory.MonthNames;
    if monthStart + 3 <= |names| then names[monthStart..monthStart + 3] else names[monthStart..]
  }

  /** From a quarter start the range always shows three months, and the header's
      last month `(monthStart + 2) % 12` is the third of them. */
  lemma QuarterShowsThreeMonths(monthStart: int)
    requires QuarterStart(monthStart)
    ensures |MonthsShown(monthStart)| == 3
    ensures MonthsShown(monthStart)[2] == StreakHistory.MonthNames[(monthStart + 2) % 12]
  {
  }

  datatype CellClass = Invisible | Success | Muted

  /** `getStreakCellClass`. */
  function CellClassOf(day: CalendarDay): (c: CellClass)
    ensures c == Invisible <==> day.date == ""
    ensures c == Success <==> day.date != "" && day.completed
    ensures c == Muted <==> day.date != "" && !day.completed
  {
    if day.date == "" then Invisible
    else if day.completed then Success
    else Muted
  }

  datatype StreakMessage = OnFire(days: int) | MoreDays(missing: int)

  /** The encouragement under the calendar. */
  function StreakMessageFor(currentStreak: int): (m: StreakMessage)
    ensures currentStreak >= 7 <==> m.OnFire?
    ensures m.OnFire? ==> m.days == currentStreak
    ensures m.MoreDays? ==> m.missing + currentStreak == 7
    ensures 0 <= currentStreak < 7 ==> 1 <= m.missing <= 7
  {
    if currentStreak >= 7 then OnFire(currentStreak) else MoreDays(7 - currentStreak)
  }

  /** The page's navigation state. */
  class StreakCalendarView {
    var selectedMonth: int
    var selectedYear: int
    var monthStart: int

    predicate Valid()
      reads this
    {
      ValidMonth(MonthYear(selectedMonth, selectedYear)) && QuarterStart(monthStart)
    }

    function Selected(): MonthYear
      reads this
    {
      MonthYear(selectedMonth, selectedYear)
    }

    /** The page opens on today's month, with the range at January. */
    constructor (todayMonth: int, todayYear: int)
      requires 0 <= todayMonth < 12
      ensures Selected() == MonthYear(todayMonth, todayYear) && monthStart == 0
      ensures Valid()
    {
      selectedMonth, selectedYear := todayMonth, todayYear;
      monthStart := 0;
    }

    method HandleNextMonth()
      modifies this
      ensures Selected() == NextMonth(old(Selected())) && monthStart == old(monthStart)
      ensures old(Valid()) ==> Valid() && Absolute(Selected()) == Absolute(old(Selected())) + 1
    {
      if selectedMonth == 11 {
        selectedMonth := 0;
        selectedYear := selectedYear + 1;
      } else {
        selectedMonth := selectedMonth + 1;
      }
    }

    method HandlePrevMonth()
      modifies this
      ensures Selected() == PrevMonth(old(Selected())) && monthStart == old(monthStart)
      ensures old(Valid()) ==> Valid() && Absolute(Selected()) == Absolute(old(Selected())) - 1
    {
      if selectedMonth == 0 {
        selectedMonth := 11;
        selectedYear := selectedYear - 1;
      } else {
        selectedMonth := selectedMonth - 1;
      }
    }

    method HandleNextMonthRange()
      modifies this
      ensures monthStart == NextRange(old(monthStart)) && Selected() == old(Selected())
      ensures old(Valid()) ==> Valid()
    {
      if old(Valid()) {
        RangeStaysOnQuarter(monthStart);
      }
      monthStart := JsRemainder(monthStart + 3, 12);
    }

    method HandlePrevMonthRange()
      modifies this
      ensures monthStart == PrevRange(old(monthStart)) && Selected() == old(Selected())
      ensures old(Valid()) ==> Valid()
    {
      if Valid() {
        RangeStaysOnQuarter(monthStart);
      }
      monthStart := JsRemainder(monthStart - 3 + 12, 12);
    }
  }
}
