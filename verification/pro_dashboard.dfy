/** The older dashboard revision (ritual-tracker-pro/src/pages/Dashboard.tsx). Its
    workout score, penalty table, clamp, impact ternary and list handlers are the
    same code as in the newer page and are shared from `DashboardPage`; only the
    step rule differs: 10 points per full 1000 steps with no cap. */
module ProDashboardPage {
  import opened DashboardPage

  /** `Math.floor(stepCount / 1000) * 10`. */
  function FlatStepPoints(steps: int): (points: int)
    ensures points % 10 == 0
    ensures 1000 * (points / 10) <= steps < 1000 * (points / 10 + 1)
  {
    (steps / 1000) * 10
  }

  /** The flat rule has no cap: every score is exceeded by some step count. */
  lemma FlatStepPointsUncapped(bound: int)
    requires bound >= 0
    ensures FlatStepPoints(1000 * (bound + 1)) > bound
  {
    var s := 1000 * (bound + 1);
    assert s / 1000 == bound + 1;
  }

  /** For any step count that is not negative the flat rule never gives less than the
      newer tiered rule; at 6000 steps it gives 60 where the tiered rule gives 30. */
  lemma FlatNeverBelowTiered(steps: int)
    requires steps >= 0
    ensures FlatStepPoints(steps) >= CalculateStepPoints(steps)
    ensures FlatStepPoints(6000) == 60 && CalculateStepPoints(6000) == 30
  {
    if steps >= 6000 {
      var k := (Min(steps, 10000) - 6000) / 1000;
      DivisionMonotonic(Min(steps, 10000), steps, 1000);
      assert (Min(steps, 10000) - 6000) / 1000 == Min(steps, 10000) / 1000 - 6;
    }
  }

  const InitialExercises: seq<Exercise> := [
    Exercise("1", "Push Ups (3 sets x 15)", true),
    Exercise("2", "Bench Press (4 sets x 12)", true),
    Exercise("3", "Chest Flyes (3 sets x 12)", false),
    Exercise("4", "Plank (3 x 1 min)", false)
  ]

  /** The page's state. */
  class ProDashboard {
    var stepCount: int
    var exercises: seq<Exercise>
    var selectedJunk: seq<string>

    constructor ()
      ensures stepCount == 8500 && exercises == InitialExercises && selectedJunk == []
    {
      stepCount := 8500;
      exercises := InitialExercises;
      selectedJunk := [];
    }

    function PointsGained(): int
      reads this
    {
      FlatStepPoints(stepCount) + WorkoutPoints(exercises)
    }

    /** `totalPoints`, never negative. */
    function TotalPoints(): (points: int)
      reads this
      ensures points >= 0
      ensures PointsGained() >= 0 ==> points <= PointsGained()
    {
      PointsDeductedBounds(selectedJunk);
      NetPoints(PointsGained(), PointsDeducted(selectedJunk))
    }

    function Impact(): JunkImpact
      reads this
    {
      JunkImpactOf(PointsDeducted(selectedJunk))
    }

    method SetStepCount(steps: int)
      modifies this
      ensures stepCount == steps && exercises == old(exercises) && selectedJunk == old(selectedJunk)
    {
      stepCount := steps;
    }

    method ToggleExercise(id: string)
      modifies this
      ensures exercises == ToggleById(old(exercises), id)
      ensures stepCount == old(stepCount) && selectedJunk == old(selectedJunk)
    {
      exercises := ToggleById(exercises, id);
    }

    method AddJunk(id: string)
      modifies this
      ensures selectedJunk == old(selectedJunk) + [id]
      ensures stepCount == old(stepCount) && exercises == old(exercises)
    {
      selectedJunk := selectedJunk + [id];
    }

    method RemoveJunk(id: string)
      modifies this
      ensures selectedJunk == RemoveAll(old(selectedJunk), id)
      ensures stepCount == old(stepCount) && exercises == old(exercises)
    {
      selectedJunk := RemoveAll(selectedJunk, id);
    }
  }

  /** Two of the four initial exercises are completed, worth 40 points. */
  lemma InitialWorkoutPoints()
    ensures WorkoutPoints(InitialExercises) == 40
  {
    var done, open := InitialExercises[..2], InitialExercises[2..];
    Seqs.FilterAll(done, IsCompleted);
    Seqs.FilterNone(open, IsCompleted);
    assert InitialExercises == done + open;
    Seqs.FilterAppend(done, open, IsCompleted);
    assert Seqs.Filter(InitialExercises, IsCompleted) == done + [];
  }

  /** The page as first shown: 8500 steps give 80 points, the exercises 40, nothing
      is deducted, so the total is 120 and the impact is low. */
  lemma InitialFigures()
    ensures FlatStepPoints(8500) == 80
    ensures NetPoints(FlatStepPoints(8500) + WorkoutPoints(InitialExercises), PointsDeducted([])) == 120
    ensures JunkImpactOf(PointsDeducted([])) == Low
  {
    assert 8500 / 1000 == 8;
    assert PointsDeducted([]) == 0;
    InitialWorkoutPoints();
  }
}
