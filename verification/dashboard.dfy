/** The daily points shown on the dashboard page (frontend/src/pages/Dashboard.tsx):
    a tiered step score, 20 points per completed exercise, a flat per-item junk
    deduction and a net score clamped at 0, together with the page state that the
    toggle/add/remove handlers and the "Save Day" button change. */
module DashboardPage {
  import opened Seqs

  datatype Exercise = Exercise(id: string, name: string, completed: bool)

  /** How the two requests of "Save Day" end: both succeed, posting the steps
      fails, or posting the steps succeeds and saving the workout fails. */
  datatype SaveOutcome = Saved | StepsPostFailed | WorkoutSaveFailed

  /** The three levels that the vitals panel shows for the junk deduction. */
  datatype JunkImpact = Low | Medium | High

  function Min(a: int, b: int): int { if a <= b then a else b }

  /** `calculateStepPoints`: nothing below 6000 steps, 30 at 6000, 5 more per full
      1000 steps up to 10000, never more than 50. */
  function CalculateStepPoints(steps: int): (points: int)
    ensures steps < 6000 ==> points == 0
    ensures steps >= 6000 ==> 30 <= points
    ensures steps >= 10000 ==> points == 50
    ensures 0 <= points <= 50 && points % 5 == 0
  {
    if steps < 6000 then 0
    else
      var additional := Min(steps, 10000) - 6000;
      Min(30 + (additional / 1000) * 5, 50)
  }

  /** Between 6000 and 10000 steps the score is 30 plus 5 for each full thousand
      above 6000: exactly `k` full thousands give `30 + 5 * k`. */
  lemma StepPointsPerThousand(steps: int, k: nat)
    requires k <= 4
    requires 6000 + 1000 * k <= steps
    requires k < 4 ==> steps < 7000 + 1000 * k
    ensures CalculateStepPoints(steps) == 30 + 5 * k
  {
    var additional := Min(steps, 10000) - 6000;
    assert 1000 * k <= additional < 1000 * (k + 1);
    DivisionByThousand(additional, k);
  }

  lemma DivisionByThousand(a: int, k: nat)
    requires 1000 * k <= a < 1000 * (k + 1)
    ensures a / 1000 == k
  {
    var q, r := a / 1000, a % 1000;
    assert a == 1000 * q + r && 0 <= r < 1000;
    assert -1000 < 1000 * (q - k) < 1000;
  }

  /** More steps never lower the step score. */
  lemma StepPointsMonotonic(s1: int, s2: int)
    requires s1 <= s2
    ensures CalculateStepPoints(s1) <= CalculateStepPoints(s2)
  {
    if s1 >= 6000 {
      var a1, a2 := Min(s1, 10000) - 6000, Min(s2, 10000) - 6000;
      DivisionMonotonic(a1, a2, 1000);
    }
  }

  lemma DivisionMonotonic(a: int, b: int, d: int)
    requires 0 <= a <= b && d > 0
    ensures a / d <= b / d
  {
    var qa, ra, qb, rb := a / d, a % d, b / d, b % d;
    assert a == d * qa + ra && b == d * qb + rb;
    assert d * (qa - qb) <= b - a + d * (qa - qb) == rb - ra < d;
    MultiplyBelow(d, qa - qb);
  }

  lemma MultiplyBelow(d: int, x: int)
    requires d > 0 && d * x < d
    ensures x <= 0
  {
    assert d * x == d + d * (x - 1);
    assert d * (x - 1) < 0;
  }

  predicate IsCompleted(e: Exercise) { e.completed }

  /** `workoutPoints`: 20 for each exercise marked completed. */
  function WorkoutPoints(exercises: seq<Exercise>): (points: int)
  {
    |Filter(exercises, IsCompleted)| * 20
  }

  /** The workout score is a multiple of 20 between 0 and 20 per listed exercise. */
  lemma WorkoutPointsRange(exercises: seq<Exercise>)
    ensures 0 <= WorkoutPoints(exercises) <= 20 * |exercises|
    ensures WorkoutPoints(exercises) % 20 == 0
  {
    var n := |Filter(exercises, IsCompleted)|;
    assert WorkoutPoints(exercises) == 20 * n && 0 <= n <= |exercises|;
  }

  /** The score is at the top exactly when every exercise is completed, and 0
      exactly when none is. */
  lemma WorkoutPointsExtremes(exercises: seq<Exercise>)
    ensures (forall i :: 0 <= i < |exercises| ==> exercises[i].completed) <==>
              WorkoutPoints(exercises) == 20 * |exercises|
    ensures (forall i :: 0 <= i < |exercises| ==> !exercises[i].completed) <==>
              WorkoutPoints(exercises) == 0
  {
    if forall i :: 0 <= i < |exercises| ==> exercises[i].completed {
      FilterAll(exercises, IsCompleted);
    }
    if WorkoutPoints(exercises) == 20 * |exercises| {
      FilterKeepsAll(exercises, IsCompleted);
    }
    if forall i :: 0 <= i < |exercises| ==> !exercises[i].completed {
      FilterNone(exercises, IsCompleted);
    }
    if WorkoutPoints(exercises) == 0 {
      FilterKeepsNone(exercises, IsCompleted);
    }
  }

  /** The `junkPenalties` table; ids that are not keys deduct nothing. */
  const JunkPenalties: map<string, nat> :=
    map["burger" := 30, "pizza" := 25, "fries" := 20, "soda" := 15, "candy" := 20, "icecream" := 25]

  /** `junkPenalties[id] || 0`. */
  function JunkPenalty(id: string): (p: int)
    ensures p == 0 <==> id !in JunkPenalties
    ensures id in JunkPenalties ==> p == JunkPenalties[id]
    ensures 0 <= p <= 30
  {
    if id in JunkPenalties then JunkPenalties[id] else 0
  }

  /** `pointsDeducted`: the table's penalty summed over every selected id,
      each occurrence counted separately. */
  function PointsDeducted(selectedJunk: seq<string>): int
  {
    Sum(selectedJunk, JunkPenalty)
  }

  /** `Math.max(pointsGained - pointsDeducted, 0)`. */
  function NetPoints(gained: int, deducted: int): (net: int)
    ensures net >= 0 && net >= gained - deducted
    ensures net == 0 || net == gained - deducted
  {
    if gained - deducted >= 0 then gained - deducted else 0
  }

  /** The `junkImpact` ternary shown in the vitals panel. */
  function JunkImpactOf(deducted: int): (impact: JunkImpact)
    ensures impact == Low <==> deducted == 0
    ensures impact == High <==> deducted >= 50
    ensures impact == Medium <==> deducted != 0 && deducted < 50
  {
    if deducted == 0 then Low else if deducted < 50 then Medium else High
  }

  /** The deduction is never negative and never more than 30 per selected item;
      it is 0 for an empty selection. */
  lemma {:induction false} PointsDeductedBounds(selectedJunk: seq<string>)
    ensures 0 <= PointsDeducted(selectedJunk) <= 30 * |selectedJunk|
    decreases |selectedJunk|
  {
    if selectedJunk != [] {
      var init, last := selectedJunk[..|selectedJunk| - 1], selectedJunk[|selectedJunk| - 1];
      PointsDeductedBounds(init);
      assert PointsDeducted(selectedJunk) == PointsDeducted(init) + JunkPenalty(last);
    }
  }

  /** With the deduction, the vitals panel reads low, medium or high on the ranges
      0, 1..49 and 50 and above. */
  lemma JunkImpactRanges(selectedJunk: seq<string>)
    ensures var d := PointsDeducted(selectedJunk);
      && (JunkImpactOf(d) == Low <==> d == 0)
      && (JunkImpactOf(d) == Medium <==> 0 < d < 50)
      && (JunkImpactOf(d) == High <==> d >= 50)
  {
    PointsDeductedBounds(selectedJunk);
  }

  /** Selecting one more item deducts that item's penalty on top: duplicates count. */
  lemma PointsDeductedAppend(selectedJunk: seq<string>, id: string)
    ensures PointsDeducted(selectedJunk + [id]) == PointsDeducted(selectedJunk) + JunkPenalty(id)
  {
    var s := selectedJunk + [id];
    assert s[..|s| - 1] == selectedJunk && s[|s| - 1] == id;
    assert Sum(s, JunkPenalty) == Sum(selectedJunk, JunkPenalty) + JunkPenalty(id);
  }

  /** The test `j => j !== id`. */
  function IsNot(id: string): string -> bool
  {
    j => j != id
  }

  /** `prev.filter(j => j !== id)`: every copy of `id` goes, the rest keep their order. */
  function RemoveAll(selectedJunk: seq<string>, id: string): (r: seq<string>)
    ensures id !in r
    ensures forall x :: x != id ==> multiset(r)[x] == multiset(selectedJunk)[x]
  {
    var r := Filter(selectedJunk, IsNot(id));
    assert id !in r by {
      assert multiset(r)[id] == 0;
    }
    r
  }

  /** Removing an id takes back exactly its penalty once per removed copy. */
  lemma {:induction false} PointsDeductedRemoveAll(selectedJunk: seq<string>, id: string)
    ensures PointsDeducted(RemoveAll(selectedJunk, id))
            == PointsDeducted(selectedJunk) - multiset(selectedJunk)[id] * JunkPenalty(id)
    decreases |selectedJunk|
  {
    if selectedJunk != [] {
      var init, last := selectedJunk[..|selectedJunk| - 1], selectedJunk[|selectedJunk| - 1];
      assert selectedJunk == init + [last];
      var c, p := multiset(init)[id], JunkPenalty(id);
      PointsDeductedRemoveAll(init, id);
      PointsDeductedAppend(init, last);
      RemoveAllSnoc(init, last, id);
      assert multiset(selectedJunk) == multiset(init) + multiset{last};
      if last == id {
        assert RemoveAll(selectedJunk, id) == RemoveAll(init, id) + [];
        assert RemoveAll(init, id) + [] == RemoveAll(init, id);
        assert multiset(selectedJunk)[id] == c + 1;
        MultiplySuccessor(c, p);
      } else {
        PointsDeductedAppend(RemoveAll(init, id), last);
        assert multiset(selectedJunk)[id] == c;
      }
    }
  }

  lemma MultiplySuccessor(c: int, p: int)
    ensures (c + 1) * p == c * p + p
  {
  }

  lemma RemoveAllSnoc(init: seq<string>, last: string, id: string)
    ensures RemoveAll(init + [last], id) == RemoveAll(init, id) + if last != id then [last] else []
  {
    FilterAppend(init, [last], IsNot(id));
    assert [last][1..] == [];
  }

  /** The four buttons of the dashboard's junk tracker
      (frontend/src/components/dashboard/JunkTracker.tsx). */
  const DashboardJunkButtons: seq<string> := ["lays", "coke", "pizza", "biryani"]

  /** Of the dashboard buttons only pizza is in the penalty table, so any selection
      made with them deducts 25 per pizza and nothing for the others. */
  lemma {:induction false} ButtonSelectionDeduction(selectedJunk: seq<string>)
    requires forall i :: 0 <= i < |selectedJunk| ==> selectedJunk[i] in DashboardJunkButtons
    ensures PointsDeducted(selectedJunk) == 25 * multiset(selectedJunk)["pizza"]
    decreases |selectedJunk|
  {
    if selectedJunk != [] {
      var init, last := selectedJunk[..|selectedJunk| - 1], selectedJunk[|selectedJunk| - 1];
      assert selectedJunk == init + [last];
      ButtonSelectionDeduction(init);
      assert multiset(selectedJunk) == multiset(init) + multiset{last};
      assert last in DashboardJunkButtons;
      assert PointsDeducted(selectedJunk) == PointsDeducted(init) + JunkPenalty(last);
      assert JunkPenalty(last) == if last == "pizza" then 25 else 0;
    }
  }

  /** `prev.map(e => e.id === id ? { ...e, completed: !e.completed } : e)`. */
  function ToggleById(exercises: seq<Exercise>, id: string): (r: seq<Exercise>)
    ensures |r| == |exercises|
  {
    seq(|exercises|, i requires 0 <= i < |exercises| =>
      if exercises[i].id == id then exercises[i].(completed := !exercises[i].completed)
      else exercises[i])
  }

  /** Toggling keeps every exercise's id and name in place, flips `completed` only
      where the id matches, and toggling the same id twice restores the list. */
  lemma ToggleByIdEffect(exercises: seq<Exercise>, id: string)
    ensures forall i :: 0 <= i < |exercises| ==>
      var e, e' := exercises[i], ToggleById(exercises, id)[i];
      e'.id == e.id && e'.name == e.name && (e'.completed != e.completed <==> e.id == id)
    ensures ToggleById(ToggleById(exercises, id), id) == exercises
  {
  }

  /** When exactly one exercise carries the id, toggling it moves the workout score
      by 20: up if it was open, down if it was completed. */
  lemma ToggleOneWorkoutPoints(exercises: seq<Exercise>, k: nat)
    requires k < |exercises|
    requires forall i :: 0 <= i < |exercises| && i != k ==> exercises[i].id != exercises[k].id
    ensures WorkoutPoints(ToggleById(exercises, exercises[k].id))
            == WorkoutPoints(exercises) + (if exercises[k].completed then -20 else 20)
  {
    var before, x, after := exercises[..k], exercises[k], exercises[k + 1..];
    var x' := x.(completed := !x.completed);
    assert exercises == before + [x] + after;
    ToggleOnlyAtK(exercises, k);
    FilterAppend(before + [x], after, IsCompleted);
    FilterAppend(before, [x], IsCompleted);
    FilterAppend(before + [x'], after, IsCompleted);
    FilterAppend(before, [x'], IsCompleted);
    assert [x][1..] == [] && [x'][1..] == [];
  }

  lemma ToggleOnlyAtK(exercises: seq<Exercise>, k: nat)
    requires k < |exercises|
    requires forall i :: 0 <= i < |exercises| && i != k ==> exercises[i].id != exercises[k].id
    ensures ToggleById(exercises, exercises[k].id)
            == exercises[..k] + [exercises[k].(completed := !exercises[k].completed)] + exercises[k + 1..]
  {
  }

  /** The dashboard page's state: the step count being edited, the last saved step
      count, today's exercises, the selected junk ids and the points last saved. */
  class Dashboard {
    var stepCount: int
    var savedStepCount: int
    var exercises: seq<Exercise>
    var selectedJunk: seq<string>
    var todayPoints: int

    /** The step count restored from storage is both the edited and the saved count. */
    constructor (storedStepCount: int)
      ensures stepCount == storedStepCount && savedStepCount == storedStepCount
      ensures exercises == [] && selectedJunk == [] && todayPoints == 0
    {
      stepCount := storedStepCount;
      savedStepCount := storedStepCount;
      exercises := [];
      selectedJunk := [];
      todayPoints := 0;
    }

    /** The inline `stepPoints` block, a second copy of the step formula applied to
        the saved count: it always agrees with `calculateStepPoints`. */
    function StepPoints(): (points: int)
      reads this
      ensures points == CalculateStepPoints(savedStepCount)
      ensures 0 <= points <= 50
    {
      if savedStepCount < 6000 then 0
      else
        var points := 30;
        var additional := Min(savedStepCount, 10000) - 6000;
        Min(points + (additional / 1000) * 5, 50)
    }

    function PointsGained(): int
      reads this
    {
      StepPoints() + WorkoutPoints(exercises)
    }

    /** `finalPoints`, the score the page shows for today. */
    function FinalPoints(): (points: int)
      reads this
      ensures points >= 0
      ensures points <= PointsGained()
    {
      PointsDeductedBounds(selectedJunk);
      NetPoints(PointsGained(), PointsDeducted(selectedJunk))
    }

    method SetStepCount(steps: int)
      modifies this
      ensures stepCount == steps
      ensures savedStepCount == old(savedStepCount) && exercises == old(exercises)
      ensures selectedJunk == old(selectedJunk) && todayPoints == old(todayPoints)
    {
      stepCount := steps;
    }

    method ToggleExercise(id: string)
      modifies this
      ensures exercises == ToggleById(old(exercises), id)
      ensures stepCount == old(stepCount) && savedStepCount == old(savedStepCount)
      ensures selectedJunk == old(selectedJunk) && todayPoints == old(todayPoints)
    {
      exercises := ToggleById(exercises, id);
    }

    method AddJunk(id: string)
      modifies this
      ensures selectedJunk == old(selectedJunk) + [id]
      ensures PointsDeducted(selectedJunk) == old(PointsDeducted(selectedJunk)) + JunkPenalty(id)
      ensures stepCount == old(stepCount) && savedStepCount == old(savedStepCount)
      ensures exercises == old(exercises) && todayPoints == old(todayPoints)
    {
      PointsDeductedAppend(selectedJunk, id);
      selectedJunk := selectedJunk + [id];
    }

    method RemoveJunk(id: string)
      modifies this
      ensures selectedJunk == RemoveAll(old(selectedJunk), id)
      ensures stepCount == old(stepCount) && savedStepCount == old(savedStepCount)
      ensures exercises == old(exercises) && todayPoints == old(todayPoints)
    {
      selectedJunk := RemoveAll(selectedJunk, id);
    }

    /** "Save Day". The points are computed first, from the edited step count. If
        posting the steps fails nothing changes; once it succeeds the edited count
        becomes the saved one; the points are shown only if saving the workout
        succeeds as well. */
    method SubmitSteps(outcome: SaveOutcome)
      modifies this
      ensures outcome == StepsPostFailed ==>
                savedStepCount == old(savedStepCount) && todayPoints == old(todayPoints)
      ensures outcome != StepsPostFailed ==> savedStepCount == old(stepCount)
      ensures outcome == WorkoutSaveFailed ==> todayPoints == old(todayPoints)
      ensures outcome == Saved ==>
                todayPoints == NetPoints(CalculateStepPoints(old(stepCount)) + WorkoutPoints(exercises),
                                         PointsDeducted(selectedJunk))
      ensures outcome == Saved ==> todayPoints == FinalPoints()
      ensures stepCount == old(stepCount)
      ensures exercises == old(exercises) && selectedJunk == old(selectedJunk)
    {
      var stepPts := CalculateStepPoints(stepCount);
      var workoutPts := WorkoutPoints(exercises);
      var junkPts := PointsDeducted(selectedJunk);
      var finalPointsNow := NetPoints(stepPts + workoutPts, junkPts);
      if outcome == StepsPostFailed {
        return;
      }
      savedStepCount := stepCount;
      if outcome == WorkoutSaveFailed {
        return;
      }
      todayPoints := finalPointsNow;
    }
  }
}
