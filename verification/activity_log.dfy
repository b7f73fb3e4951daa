/** Logging one day of activity on the server (backend/crud/activity.py): reject a
    second log for the same user and date, store the computed points, and feed the
    day's activity flag to the user's streak record. The database is an in-memory
    table of activity rows, the junk limit table and the streak records by user. */
module ActivityLog {
  import opened Wrappers
  import opened JunkLimits
  import opened PointsRule
  import opened StreakTracker

  /** The request body; a missing junk quantity is 0 and a missing type is `None`. */
  datatype ActivityCreate = ActivityCreate(activityDate: int, steps: int,
                                           junkType: Option<string>, junkQuantity: int)

  datatype DailyActivity = DailyActivity(userId: string, activityDate: int, steps: int,
                                         junkType: Option<string>, junkQuantity: int, points: int)

  datatype LogError =
    | AlreadyLogged     // "Activity already logged for this date"
    | NoStreakRecord    // the user has no streak row, so `update_streak` fails

  /** Some row already records this user on this date. */
  predicate Logged(activities: seq<DailyActivity>, userId: string, date: int)
  {
    exists i :: 0 <= i < |activities| && activities[i].userId == userId && activities[i].activityDate == date
  }

  /** `is_active`: enough steps, or junk within the allowance. */
  predicate IsActive(steps: int, junkQuantity: int, maxAllowed: int)
  {
    steps >= 5000 || junkQuantity <= maxAllowed
  }

  /** A day with no junk logged (no type, quantity 0) always counts as active. */
  lemma NoJunkIsActive(limits: seq<UserJunkLimit>, userId: string, steps: int)
    ensures IsActive(steps, 0, GetMaxAllowedJunk(limits, userId, None))
  {
  }

  /** An inactive day always scores below zero: it has fewer than 5000 steps and junk
      beyond the allowance. */
  lemma InactiveDayScoresNegative(steps: int, junkQuantity: int, maxAllowed: int)
    requires !IsActive(steps, junkQuantity, maxAllowed)
    ensures CalculatePoints(steps, junkQuantity, maxAllowed) < 0
  {
  }

  class ActivityDb {
    var activities: seq<DailyActivity>
    var limits: seq<UserJunkLimit>
    var streaks: map<string, StreakState>

    constructor (limits: seq<UserJunkLimit>, streaks: map<string, StreakState>)
      ensures this.activities == [] && this.limits == limits && this.streaks == streaks
    {
      this.activities := [];
      this.limits := limits;
      this.streaks := streaks;
    }

    /** Every stored streak record keeps the streak invariant. */
    ghost predicate StreaksValid()
      reads this
    {
      forall u :: u in streaks ==> Valid(streaks[u])
    }

    /** `log_daily_activity`. */
    method LogDailyActivity(userId: string, data: ActivityCreate) returns (r: Result<DailyActivity, LogError>)
      modifies this
      ensures limits == old(limits)
      ensures Logged(old(activities), userId, data.activityDate) ==>
                r == Err(AlreadyLogged) && activities == old(activities) && streaks == old(streaks)
      ensures !Logged(old(activities), userId, data.activityDate) && userId !in old(streaks) ==>
                r == Err(NoStreakRecord) && activities == old(activities) && streaks == old(streaks)
      ensures !Logged(old(activities), userId, data.activityDate) && userId in old(streaks) ==>
                var maxAllowed := GetMaxAllowedJunk(limits, userId, data.junkType);
                && r == Ok(DailyActivity(userId, data.activityDate, data.steps, data.junkType, data.junkQuantity,
                                         CalculatePoints(data.steps, data.junkQuantity, maxAllowed)))
                && activities == old(activities) + [r.value]
                && streaks == old(streaks)[userId := Update(old(streaks)[userId], data.activityDate,
                                                            IsActive(data.steps, data.junkQuantity, maxAllowed))]
      ensures r.Ok? ==> Logged(activities, userId, data.activityDate)
      ensures old(StreaksValid()) ==> StreaksValid()
    {
      if Logged(activities, userId, data.activityDate) {
        return Err(AlreadyLogged);
      }

      var maxAllowed := GetMaxAllowedJunk(limits, userId, data.junkType);
      var points := CalculatePoints(data.steps, data.junkQuantity, maxAllowed);
      var activity := DailyActivity(userId, data.activityDate, data.steps, data.junkType,
                                    data.junkQuantity, points);

      if userId !in streaks {
        return Err(NoStreakRecord);
      }

      var isActive := data.steps >= 5000 || data.junkQuantity <= maxAllowed;
      if StreaksValid() {
        UpdateKeepsValid(streaks[userId], data.activityDate, isActive);
      }
      activities := activities + [activity];
      streaks := streaks[userId := Update(streaks[userId], data.activityDate, isActive)];
      assert activities[|activities| - 1] == activity;
      r := Ok(activity);
    }
  }
}
