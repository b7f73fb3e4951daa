/** The server's incremental streak record (backend/utils/streaks.py): each logged
    day updates the current streak, the longest streak and the last active date of
    the user's record in place. Dates are day numbers, so "the next day" is `+ 1`. */
module StreakTracker {
  import opened Wrappers
  import StreakHistory

  datatype StreakState = StreakState(current: int, longest: int, lastActive: Option<int>)

  /** The record a new user starts with (backend/crud/users.py). */
  const Initial: StreakState := StreakState(0, 0, None)

  /** The invariant a record keeps: neither streak is negative and the current
      streak never exceeds the longest. */
  predicate Valid(s: StreakState)
  {
    0 <= s.current <= s.longest
  }

  /** `update_streak`, as a function of the old record. */
  function Update(s: StreakState, activityDate: int, isActive: bool): (t: StreakState)
    ensures t.lastActive == Some(activityDate)
    ensures t.longest >= s.longest
    ensures !isActive ==> t.current == 0 && t.longest == s.longest
    ensures isActive ==> t.longest == (if s.longest >= t.current then s.longest else t.current)
  {
    if !isActive then StreakState(0, s.longest, Some(activityDate))
    else
      var current :=
        match s.lastActive
        case None => 1
        case Some(last) =>
          if activityDate == last + 1 then s.current + 1
          else if activityDate > last then 1
          else s.current;
      StreakState(current, if s.longest >= current then s.longest else current, Some(activityDate))
  }

  /** How an active day moves the current streak: 1 for the first active day, one
      more on the next day, back to 1 after a gap, unchanged on a day that is not
      later than the last one. */
  lemma ActiveDayCases(s: StreakState, activityDate: int)
    ensures s.lastActive.None? ==> Update(s, activityDate, true).current == 1
    ensures s.lastActive.Some? && activityDate == s.lastActive.value + 1 ==>
              Update(s, activityDate, true).current == s.current + 1
    ensures s.lastActive.Some? && activityDate > s.lastActive.value + 1 ==>
              Update(s, activityDate, true).current == 1
    ensures s.lastActive.Some? && activityDate <= s.lastActive.value ==>
              Update(s, activityDate, true).current == s.current
  {
  }

  /** Every update keeps the invariant, which holds of the initial record. */
  lemma UpdateKeepsValid(s: StreakState, activityDate: int, isActive: bool)
    requires Valid(s)
    ensures Valid(Update(s, activityDate, isActive))
    ensures Valid(Initial)
  {
  }

  /** A day logged out of order moves the last active date back, so a later log can
      extend a streak across days that were never consecutive: days 10, 5 and 6,
      all active, leave a current streak of 2. */
  lemma OutOfOrderLogs()
    ensures Update(Update(Update(Initial, 10, true), 5, true), 6, true) == StreakState(2, 2, Some(6))
  {
  }

  /** The record after logging the days `start`, `start + 1`, ... with the given
      activity flags, oldest first, from the initial record. */
  function Replay(start: int, flags: seq<bool>): StreakState
    decreases |flags|
  {
    if flags == [] then Initial
    else Update(Replay(start, flags[..|flags| - 1]), start + |flags| - 1, flags[|flags| - 1])
  }

  /** Logging consecutive days one by one gives the same current and longest streak
      as the batch statistics over the same history. */
  lemma {:induction false} ReplayMatchesBatch(start: int, flags: seq<bool>)
    ensures Replay(start, flags).current == StreakHistory.TrailingRun(flags)
    ensures Replay(start, flags).longest == StreakHistory.LongestRun(flags)
    ensures Replay(start, flags).lastActive == if flags == [] then None else Some(start + |flags| - 1)
    decreases |flags|
  {
    if flags != [] {
      var init := flags[..|flags| - 1];
      ReplayMatchesBatch(start, init);
      if init != [] {
        assert init[..|init| - 1] == flags[..|flags| - 2];
      }
    }
  }

  /** The ORM row, whose fields `update_streak` assigns. */
  class Streak {
    var currentStreak: int
    var longestStreak: int
    var lastActiveDate: Option<int>

    constructor ()
      ensures State() == Initial
    {
      currentStreak, longestStreak, lastActiveDate := 0, 0, None;
    }

    function State(): StreakState
      reads this
    {
      StreakState(currentStreak, longestStreak, lastActiveDate)
    }

    method UpdateStreak(activityDate: int, isActive: bool)
      modifies this
      ensures State() == Update(old(State()), activityDate, isActive)
      ensures old(Valid(State())) ==> Valid(State())
    {
      if !isActive {
        currentStreak := 0;
        lastActiveDate := Some(activityDate);
        return;
      }

      if lastActiveDate.None? {
        currentStreak := 1;
      } else if activityDate == lastActiveDate.value + 1 {
        currentStreak := currentStreak + 1;
      } else if activityDate > lastActiveDate.value {
        currentStreak := 1;
      }

      longestStreak := if longestStreak >= currentStreak then longestStreak else currentStreak;
      lastActiveDate := Some(activityDate);
    }
  }
}
