/** Streak statistics and the year calendar of the older streaks page
    (ritual-tracker-pro/src/pages/Streaks.tsx): the batch statistics over a
    completion history, the chunking of the history into calendar weeks, the
    month labels above those weeks and the colour class of a cell. */
module StreakHistory {
  import opened Wrappers
  import opened Seqs

  datatype DayData = DayData(date: string, completed: bool, stepsCompleted: bool,
                             workoutCompleted: bool, points: int)

  datatype StreakStats = StreakStats(currentStreak: int, highestStreak: int,
                                     totalActiveDays: int, totalPoints: int)

  /** The completion flag of each day, oldest first. */
  function Flags(data: seq<DayData>): (flags: seq<bool>)
    ensures |flags| == |data| && forall k :: 0 <= k < |data| ==> flags[k] == data[k].completed
  {
    seq(|data|, k requires 0 <= k < |data| => data[k].completed)
  }

  /** Days `i` up to but excluding `j` are all completed. */
  ghost predicate AllTrue(flags: seq<bool>, i: int, j: int)
    requires 0 <= i <= j <= |flags|
  {
    forall k :: i <= k < j ==> flags[k]
  }

  /** The number of completed days at the end of the history. */
  function TrailingRun(flags: seq<bool>): (n: nat)
    ensures n <= |flags|
    decreases |flags|
  {
    if flags == [] || !flags[|flags| - 1] then 0 else TrailingRun(flags[..|flags| - 1]) + 1
  }

  /** The longest completed run that ends at or before the last day. */
  function LongestRun(flags: seq<bool>): (n: nat)
    ensures TrailingRun(flags) <= n <= |flags|
    decreases |flags|
  {
    if flags == [] then 0
    else
      var before := LongestRun(flags[..|flags| - 1]);
      if before >= TrailingRun(flags) then before else TrailingRun(flags)
  }

  /** The trailing run is a run of completed days reaching the last day, and the day
      just before it (if any) is not completed. */
  lemma {:induction false} TrailingRunIsMaximalSuffix(flags: seq<bool>)
    ensures AllTrue(flags, |flags| - TrailingRun(flags), |flags|)
    ensures TrailingRun(flags) < |flags| ==> !flags[|flags| - TrailingRun(flags) - 1]
    decreases |flags|
  {
    if flags != [] && flags[|flags| - 1] {
      var init := flags[..|flags| - 1];
      TrailingRunIsMaximalSuffix(init);
    }
  }

  /** Any completed run that reaches the last day is no longer than the trailing run. */
  lemma {:induction false} SuffixRunBound(flags: seq<bool>, i: int)
    requires 0 <= i <= |flags| && AllTrue(flags, i, |flags|)
    ensures |flags| - i <= TrailingRun(flags)
    decreases |flags|
  {
    if i < |flags| {
      var init := flags[..|flags| - 1];
      assert AllTrue(init, i, |init|);
      SuffixRunBound(init, i);
    }
  }

  /** The trailing run is the only count of completed days at the end that is
      preceded by an incomplete day or by the start of the history. */
  lemma TrailingRunUnique(flags: seq<bool>, i: int)
    requires 0 <= i <= |flags| && AllTrue(flags, i, |flags|)
    requires i > 0 ==> !flags[i - 1]
    ensures TrailingRun(flags) == |flags| - i
  {
    SuffixRunBound(flags, i);
    TrailingRunIsMaximalSuffix(flags);
  }

  /** No completed run anywhere in the history is longer than `LongestRun`. */
  lemma {:induction false} LongestRunIsUpperBound(flags: seq<bool>, i: int, j: int)
    requires 0 <= i <= j <= |flags| && AllTrue(flags, i, j)
    ensures j - i <= LongestRun(flags)
    decreases |flags|
  {
    if j == |flags| {
      SuffixRunBound(flags, i);
    } else {
      var init := flags[..|flags| - 1];
      assert AllTrue(init, i, j);
      LongestRunIsUpperBound(init, i, j);
    }
  }

  /** Some completed run in the history is exactly `LongestRun` days long. */
  lemma {:induction false} LongestRunIsAttained(flags: seq<bool>) returns (i: int)
    ensures 0 <= i && i + LongestRun(flags) <= |flags| && AllTrue(flags, i, i + LongestRun(flags))
    decreases |flags|
  {
    if flags == [] {
      i := 0;
    } else {
      var init := flags[..|flags| - 1];
      if LongestRun(init) >= TrailingRun(flags) {
        i := LongestRunIsAttained(init);
        assert AllTrue(flags, i, i + LongestRun(flags));
      } else {
        TrailingRunIsMaximalSuffix(flags);
        i := |flags| - TrailingRun(flags);
      }
    }
  }

  predicate IsCompletedDay(d: DayData) { d.completed }

  function DayPoints(d: DayData): int { d.points }

  /** The forward pass of `calculateStreakStats`: a running streak that resets on
      an incomplete day, and the highest value it reaches. */
  method HighestStreak(data: seq<DayData>) returns (highestStreak: int)
    ensures highestStreak == LongestRun(Flags(data))
  {
    ghost var flags := Flags(data);
    var tempStreak := 0;
    highestStreak := 0;
    var k := 0;
    while k < |data|
      invariant 0 <= k <= |data|
      invariant tempStreak == TrailingRun(flags[..k])
      invariant highestStreak == LongestRun(flags[..k])
    {
      ghost var pre, post := flags[..k], flags[..k + 1];
      assert post[..|post| - 1] == pre && post[|post| - 1] == data[k].completed && post != [];
      if data[k].completed {
        tempStreak := tempStreak + 1;
        highestStreak := if highestStreak >= tempStreak then highestStreak else tempStreak;
      } else {
        tempStreak := 0;
      }
      k := k + 1;
    }
    assert flags[..|data|] == flags;
  }

  /** The backward pass of `calculateStreakStats`: count completed days from the
      last one, stopping at the first incomplete day. */
  method CurrentStreak(data: seq<DayData>) returns (currentStreak: int)
    ensures 0 <= currentStreak <= |data|
    ensures forall k :: |data| - currentStreak <= k < |data| ==> data[k].completed
    ensures currentStreak < |data| ==> !data[|data| - currentStreak - 1].completed
    ensures currentStreak == TrailingRun(Flags(data))
  {
    currentStreak := 0;
    var i := |data| - 1;
    while i >= 0
      invariant -1 <= i < |data|
      invariant currentStreak == |data| - 1 - i
      invariant forall m :: i < m < |data| ==> data[m].completed
    {
      if data[i].completed {
        currentStreak := currentStreak + 1;
      } else {
        break;
      }
      i := i - 1;
    }
    assert AllTrue(Flags(data), |data| - currentStreak, |data|);
    TrailingRunUnique(Flags(data), |data| - currentStreak);
  }

  /** `calculateStreakStats`: both passes, the number of completed days and the
      points total. */
  method CalculateStreakStats(data: seq<DayData>) returns (stats: StreakStats)
    ensures stats.highestStreak == LongestRun(Flags(data))
    ensures 0 <= stats.currentStreak <= |data|
    ensures forall k :: |data| - stats.currentStreak <= k < |data| ==> data[k].completed
    ensures stats.currentStreak < |data| ==> !data[|data| - stats.currentStreak - 1].completed
    ensures stats.currentStreak == TrailingRun(Flags(data))
    ensures stats.currentStreak <= stats.highestStreak <= |data|
    ensures stats.totalActiveDays == |Filter(data, IsCompletedDay)| <= |data|
    ensures stats.totalPoints == Sum(data, DayPoints)
  {
    var highestStreak := HighestStreak(data);
    var currentStreak := CurrentStreak(data);
    var totalActiveDays := |Filter(data, IsCompletedDay)|;
    var totalPoints := Sum(data, DayPoints);
    stats := StreakStats(currentStreak, highestStreak, totalActiveDays, totalPoints);
  }

  /** An empty history has no streak; a history where every day is completed has
      current and highest streak equal to its length. */
  lemma {:induction false} StreakStatsEdgeCases(flags: seq<bool>)
    ensures flags == [] ==> TrailingRun(flags) == 0 && LongestRun(flags) == 0
    ensures (forall k :: 0 <= k < |flags| ==> flags[k]) ==>
              TrailingRun(flags) == |flags| && LongestRun(flags) == |flags|
  {
    if forall k :: 0 <= k < |flags| ==> flags[k] {
      TrailingRunUnique(flags, 0);
    }
  }

  /** The blank cell used to align the first week. */
  const Blank: DayData := DayData("", false, false, false, 0)

  /** `weeks`: `startPadding` blank cells, then every day, cut into rows of 7; the
      last row may be shorter but is never empty. */
  method Weeks(data: seq<DayData>, startPadding: nat) returns (weeks: seq<seq<DayData>>)
    requires startPadding < 7
    ensures Flatten(weeks) == Repeat(Blank, startPadding) + data
    ensures forall w :: 0 <= w < |weeks| ==> 0 < |weeks[w]| <= 7
    ensures forall w :: 0 <= w < |weeks| - 1 ==> |weeks[w]| == 7
  {
    var result: seq<seq<DayData>> := [];
    var currentWeek: seq<DayData> := [];

    var i := 0;
    while i < startPadding
      invariant 0 <= i <= startPadding
      invariant currentWeek == Repeat(Blank, i)
    {
      currentWeek := currentWeek + [Blank];
      i := i + 1;
    }

    var k := 0;
    while k < |data|
      invariant 0 <= k <= |data|
      invariant Flatten(result) + currentWeek == Repeat(Blank, startPadding) + data[..k]
      invariant |currentWeek| < 7
      invariant forall w :: 0 <= w < |result| ==> |result[w]| == 7
    {
      assert data[..k + 1] == data[..k] + [data[k]];
      assert Flatten(result) + (currentWeek + [data[k]]) == (Flatten(result) + currentWeek) + [data[k]];
      currentWeek := currentWeek + [data[k]];
      if |currentWeek| == 7 {
        FlattenSnoc(result, currentWeek);
        result := result + [currentWeek];
        currentWeek := [];
        assert Flatten(result) + currentWeek == Flatten(result);
      }
      k := k + 1;
    }
    assert data[..|data|] == data;

    if |currentWeek| > 0 {
      FlattenSnoc(result, currentWeek);
      result := result + [currentWeek];
    }
    weeks := result;
  }

  /** A month number as `Date.getMonth` returns it. */
  type MonthIndex = m: int | 0 <= m < 12

  const MonthNames: seq<string> :=
    ["Jan", "Feb", "Mar", "Apr", "May", "Jun", "Jul", "Aug", "Sep", "Oct", "Nov", "Dec"]

  lemma MonthNamesDistinct()
    ensures |MonthNames| == 12
    ensures forall a, b :: 0 <= a < b < 12 ==> MonthNames[a] != MonthNames[b]
  {
  }

  datatype MonthLabel = MonthLabel(month: string, position: int)

  /** `week.find(d => d.date)`: the first cell whose date is not empty. */
  function FirstDated(week: seq<DayData>): (r: Option<DayData>)
    ensures r.Some? ==> r.value in week && r.value.date != ""
    ensures r.None? <==> forall i :: 0 <= i < |week| ==> week[i].date == ""
    decreases |week|
  {
    if week == [] then None
    else if week[0].date != "" then Some(week[0])
    else FirstDated(week[1..])
  }

  /** The labels that the `forEach` over the weeks emits from week `k` on, when
      `current` is the month of the last label emitted so far (-1 before any). */
  function LabelsFrom(weeks: seq<seq<DayData>>, monthOf: string -> MonthIndex, k: nat,
                      current: int): seq<MonthLabel>
    decreases |weeks| - k
  {
    if k >= |weeks| then []
    else match FirstDated(weeks[k])
      case None => LabelsFrom(weeks, monthOf, k + 1, current)
      case Some(day) =>
        var month := monthOf(day.date);
        if month != current then [MonthLabel(MonthNames[month], k)] + LabelsFrom(weeks, monthOf, k + 1, month)
        else LabelsFrom(weeks, monthOf, k + 1, current)
  }

  /** `monthLabels`, with `monthOf` standing for `new Date(date).getMonth()`. */
  method MonthLabels(weeks: seq<seq<DayData>>, monthOf: string -> MonthIndex)
    returns (labels: seq<MonthLabel>)
    ensures labels == LabelsFrom(weeks, monthOf, 0, -1)
  {
    labels := [];
    var currentMonth: int := -1;
    var weekIndex := 0;
    while weekIndex < |weeks|
      invariant 0 <= weekIndex <= |weeks|
      invariant labels + LabelsFrom(weeks, monthOf, weekIndex, currentMonth) == LabelsFrom(weeks, monthOf, 0, -1)
    {
      var validDay := FirstDated(weeks[weekIndex]);
      if validDay.Some? {
        var month := monthOf(validDay.value.date);
        if month != currentMonth {
          currentMonth := month;
          labels := labels + [MonthLabel(MonthNames[month], weekIndex)];
        }
      }
      weekIndex := weekIndex + 1;
    }
  }

  /** Label positions lie in `k..|weeks|-1` and strictly increase. */
  lemma {:induction false} LabelPositions(weeks: seq<seq<DayData>>, monthOf: string -> MonthIndex,
                                         k: nat, current: int)
    ensures forall i :: 0 <= i < |LabelsFrom(weeks, monthOf, k, current)| ==>
              k <= LabelsFrom(weeks, monthOf, k, current)[i].position < |weeks|
    ensures forall i, j :: 0 <= i < j < |LabelsFrom(weeks, monthOf, k, current)| ==>
              LabelsFrom(weeks, monthOf, k, current)[i].position
              < LabelsFrom(weeks, monthOf, k, current)[j].position
    decreases |weeks| - k
  {
    if k < |weeks| {
      match FirstDated(weeks[k])
      case None =>
        LabelPositions(weeks, monthOf, k + 1, current);
      case Some(day) =>
        var month := monthOf(day.date);
        if month != current {
          LabelPositions(weeks, monthOf, k + 1, month);
        } else {
          LabelPositions(weeks, monthOf, k + 1, current);
        }
    }
  }

  /** Each label sits on a week with a dated cell and names that cell's month; two
      labels in a row never name the same month, and the first differs from
      `current`. */
  lemma {:induction false} LabelMonths(weeks: seq<seq<DayData>>, monthOf: string -> MonthIndex,
                                      k: nat, current: int)
    ensures var labels := LabelsFrom(weeks, monthOf, k, current);
      && (forall i :: 0 <= i < |labels| ==>
            0 <= labels[i].position < |weeks| &&
            var week := weeks[labels[i].position];
            FirstDated(week).Some? && labels[i].month == MonthNames[monthOf(FirstDated(week).value.date)])
      && (forall i :: 0 < i < |labels| ==> labels[i].month != labels[i - 1].month)
      && (|labels| > 0 && 0 <= current < 12 ==> labels[0].month != MonthNames[current])
    decreases |weeks| - k
  {
    if k < |weeks| {
      MonthNamesDistinct();
      match FirstDated(weeks[k])
      case None =>
        LabelMonths(weeks, monthOf, k + 1, current);
      case Some(day) =>
        var month := monthOf(day.date);
        if month != current {
          LabelMonths(weeks, monthOf, k + 1, month);
        } else {
          LabelMonths(weeks, monthOf, k + 1, current);
        }
    }
  }

  /** A week without a dated cell, or whose first dated cell falls in `month`. */
  predicate InMonth(week: seq<DayData>, monthOf: string -> MonthIndex, month: int)
  {
    FirstDated(week).None? || monthOf(FirstDated(week).value.date) == month
  }

  /** The week before which a label's month stays in force: the next label's week,
      or the end. */
  function LabelEnd(labels: seq<MonthLabel>, i: int, end: int): int
  {
    if 0 <= i && i + 1 < |labels| then labels[i + 1].position else end
  }

  /** No label is skipped before the first one: every week from `k` up to the first
      label (or to the end, when there is none) stays in month `current`. */
  lemma {:induction false} NoLabelBeforeFirst(weeks: seq<seq<DayData>>, monthOf: string -> MonthIndex,
                                             k: nat, current: int)
    ensures forall w :: k <= w < |weeks| &&
              (LabelsFrom(weeks, monthOf, k, current) == [] || w < LabelsFrom(weeks, monthOf, k, current)[0].position)
              ==> InMonth(weeks[w], monthOf, current)
    decreases |weeks| - k
  {
    if k < |weeks| {
      LabelPositions(weeks, monthOf, k + 1, current);
      NoLabelBeforeFirst(weeks, monthOf, k + 1, current);
    }
  }

  /** No label is skipped after a label either: every week after the `i`-th label,
      up to the next label or the end, stays in the month that label names. */
  lemma {:induction false} NoLabelBetween(weeks: seq<seq<DayData>>, monthOf: string -> MonthIndex,
                                         k: nat, current: int)
    ensures forall i, w :: 0 <= i < |LabelsFrom(weeks, monthOf, k, current)| &&
              0 <= w < |weeks| && LabelsFrom(weeks, monthOf, k, current)[i].position < w &&
              w < LabelEnd(LabelsFrom(weeks, monthOf, k, current), i, |weeks|)
              ==> FirstDated(weeks[w]).None? ||
                  MonthNames[monthOf(FirstDated(weeks[w]).value.date)] == LabelsFrom(weeks, monthOf, k, current)[i].month
    decreases |weeks| - k
  {
    if k < |weeks| {
      match FirstDated(weeks[k])
      case None =>
        NoLabelBetween(weeks, monthOf, k + 1, current);
      case Some(day) =>
        var month := monthOf(day.date);
        if month != current {
          NoLabelBetween(weeks, monthOf, k + 1, month);
          NoLabelBeforeFirst(weeks, monthOf, k + 1, month);
        } else {
          NoLabelBetween(weeks, monthOf, k + 1, current);
        }
    }
  }

  /** `getStreakCellClass`: blank cells are invisible, completed days full green,
      days that met one of the two goals half green, the rest muted. */
  function CellClass(day: DayData): (cls: string)
    ensures cls == "invisible" <==> day.date == ""
    ensures cls == "bg-success" <==> day.date != "" && day.completed
    ensures cls == "bg-success/40" <==>
              day.date != "" && !day.completed && (day.stepsCompleted || day.workoutCompleted)
    ensures cls == "bg-muted" <==>
              day.date != "" && !day.completed && !day.stepsCompleted && !day.workoutCompleted
  {
    if day.date == "" then "invisible"
    else if day.completed then "bg-success"
    else if day.stepsCompleted || day.workoutCompleted then "bg-success/40"
    else "bg-muted"
  }
}
