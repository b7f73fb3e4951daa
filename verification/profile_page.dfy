/** The profile page (frontend/src/pages/Profile.tsx): the weekly workout plan, a
    map from day name to the day's title and exercise list, edited one exercise at
    a time for the selected day and merged with the plan the server returns, and
    the avatar initials. */
module ProfilePage {
  import opened Wrappers

  const DaysOfWeek: seq<string> := ["monday", "tuesday", "wednesday", "thursday", "friday", "saturday", "sunday"]

  datatype WorkoutDay = WorkoutDay(name: string, exercises: seq<string>)

  type Plan = map<string, WorkoutDay>

  /** The plan the page starts with. */
  const DefaultPlan: Plan := map[
    "monday" := WorkoutDay("Chest", ["Bench Press", "Push Ups"]),
    "tuesday" := WorkoutDay("Legs", ["Squats"]),
    "wednesday" := WorkoutDay("Back", []),
    "thursday" := WorkoutDay("Shoulders", []),
    "friday" := WorkoutDay("Arms", []),
    "saturday" := WorkoutDay("", []),
    "sunday" := WorkoutDay("", [])
  ]

  /** The plan has an entry for every day of the week. */
  predicate CoversWeek(plan: Plan)
  {
    forall d :: d in DaysOfWeek ==> d in plan
  }

  lemma DefaultPlanCoversWeek()
    ensures CoversWeek(DefaultPlan)
    ensures forall d :: d in DefaultPlan <==> d in DaysOfWeek
  {
  }

  /** `addExercise`: one empty exercise at the end of the day's list. */
  function AddExerciseTo(plan: Plan, day: string): (r: Plan)
    requires day in plan
    ensures r.Keys == plan.Keys
    ensures r[day].name == plan[day].name && r[day].exercises == plan[day].exercises + [""]
    ensures forall d :: d in plan && d != day ==> r[d] == plan[d]
  {
    plan[day := WorkoutDay(plan[day].name, plan[day].exercises + [""])]
  }

  /** `updateExercise` for an index the list has. */
  function UpdateExerciseIn(plan: Plan, day: string, index: int, value: string): (r: Plan)
    requires day in plan && 0 <= index < |plan[day].exercises|
    ensures r.Keys == plan.Keys
    ensures r[day].name == plan[day].name && |r[day].exercises| == |plan[day].exercises|
    ensures r[day].exercises[index] == value
    ensures forall i :: 0 <= i < |plan[day].exercises| && i != index ==> r[day].exercises[i] == plan[day].exercises[i]
    ensures forall d :: d in plan && d != day ==> r[d] == plan[d]
  {
    plan[day := WorkoutDay(plan[day].name, plan[day].exercises[index := value])]
  }

  /** `filter((_, i) => i !== index)`: the list without the entry at `index`, or the
      list itself when there is no such entry. */
  function WithoutIndex(s: seq<string>, index: int): (r: seq<string>)
    ensures 0 <= index < |s| ==>
              && |r| == |s| - 1
              && (forall i :: 0 <= i < index ==> r[i] == s[i])
              && (forall i :: index <= i < |r| ==> r[i] == s[i + 1])
    ensures !(0 <= index < |s|) ==> r == s
  {
    if 0 <= index < |s| then s[..index] + s[index + 1..] else s
  }

  /** `removeExercise`. */
  function RemoveExerciseFrom(plan: Plan, day: string, index: int): (r: Plan)
    requires day in plan
    ensures r.Keys == plan.Keys
    ensures r[day] == WorkoutDay(plan[day].name, WithoutIndex(plan[day].exercises, index))
    ensures forall d :: d in plan && d != day ==> r[d] == plan[d]
  {
    plan[day := WorkoutDay(plan[day].name, WithoutIndex(plan[day].exercises, index))]
  }

  /** Adding an exercise and removing the new last one restores the plan. */
  lemma AddThenRemove(plan: Plan, day: string)
    requires day in plan
    ensures RemoveExerciseFrom(AddExerciseTo(plan, day), day, |plan[day].exercises|) == plan
  {
    var added := AddExerciseTo(plan, day);
    assert WithoutIndex(added[day].exercises, |plan[day].exercises|) == plan[day].exercises;
    assert RemoveExerciseFrom(added, day, |plan[day].exercises|)[day] == plan[day];
  }

  /** `{ ...prev, ...fetched }` when the fetched plan is present and not empty;
      otherwise the plan is left alone. */
  function MergeFetched(plan: Plan, fetched: Option<Plan>): (r: Plan)
    ensures fetched.None? || fetched.value == map[] ==> r == plan
    ensures fetched.Some? && fetched.value != map[] ==>
              r.Keys == plan.Keys + fetched.value.Keys &&
              (forall d :: d in fetched.value ==> r[d] == fetched.value[d]) &&
              (forall d :: d in plan && d !in fetched.value ==> r[d] == plan[d])
  {
    if fetched.None? || |fetched.value| == 0 then plan else plan + fetched.value
  }

  /** Merging never loses a day, so a plan covering the week still does. */
  lemma MergeKeepsWeek(plan: Plan, fetched: Option<Plan>)
    requires CoversWeek(plan)
    ensures CoversWeek(MergeFetched(plan, fetched))
  {
  }

  /** `username.split(" ")`: the pieces between single spaces; no space gives the
      whole string, and neighbouring spaces give empty pieces. */
  function Split(s: string): (parts: seq<string>)
    ensures |parts| >= 1
    ensures forall i, j :: 0 <= i < |parts| && 0 <= j < |parts[i]| ==> parts[i][j] != ' '
    decreases |s|
  {
    if s == [] then [""]
    else if s[0] == ' ' then [""] + Split(s[1..])
    else
      var rest := Split(s[1..]);
      [[s[0]] + rest[0]] + rest[1..]
  }

  /** The pieces joined back with single spaces. */
  function Join(parts: seq<string>): string
    requires |parts| >= 1
    decreases |parts|
  {
    if |parts| == 1 then parts[0] else parts[0] + " " + Join(parts[1..])
  }

  /** Joining the pieces gives back the name: splitting loses nothing. */
  lemma {:induction false} JoinSplit(s: string)
    ensures Join(Split(s)) == s
    decreases |s|
  {
    if s != [] {
      JoinSplit(s[1..]);
      var rest := Split(s[1..]);
      if s[0] == ' ' {
        assert ([""] + rest)[1..] == rest;
        assert s == [' '] + s[1..];
      } else if |rest| == 1 {
        assert s == [s[0]] + rest[0];
      } else {
        assert ([[s[0]] + rest[0]] + rest[1..])[1..] == rest[1..];
        assert s == [s[0]] + (rest[0] + " " + Join(rest[1..]));
      }
    }
  }

  /** `.map(n => n[0]).join("")`: the first character of every piece; an empty piece
      gives `undefined`, which `join` writes as nothing. */
  function Heads(parts: seq<string>): string
    decreases |parts|
  {
    if parts == [] then ""
    else (if parts[0] == "" then "" else [parts[0][0]]) + Heads(parts[1..])
  }

  /** The characters that start a word: not a space, and first or after a space
      (`afterSpace` says whether the previous character was a space or there was none). */
  function WordStarts(s: string, afterSpace: bool): string
    decreases |s|
  {
    if s == [] then ""
    else if s[0] == ' ' then WordStarts(s[1..], true)
    else (if afterSpace then [s[0]] else "") + WordStarts(s[1..], false)
  }

  /** The heads of the pieces are exactly the word-start characters. */
  lemma {:induction false} HeadsAreWordStarts(s: string)
    ensures Heads(Split(s)) == WordStarts(s, true)
    ensures Heads(Split(s)[1..]) == WordStarts(s, false)
    decreases |s|
  {
    if s != [] {
      HeadsAreWordStarts(s[1..]);
      var rest := Split(s[1..]);
      if s[0] == ' ' {
        assert ([""] + rest)[1..] == rest;
      } else {
        assert ([[s[0]] + rest[0]] + rest[1..])[1..] == rest[1..];
      }
    }
  }

  /** `toUpperCase` on ASCII letters. */
  function UpperChar(c: char): (u: char)
    ensures 'a' <= c <= 'z' ==> 'A' <= u <= 'Z' && u as int == c as int - 32
    ensures !('a' <= c <= 'z') ==> u == c
  {
    if 'a' <= c <= 'z' then (c as int - 32) as char else c
  }

  function Upper(s: string): (u: string)
    ensures |u| == |s| && forall i :: 0 <= i < |s| ==> u[i] == UpperChar(s[i])
  {
    seq(|s|, i requires 0 <= i < |s| => UpperChar(s[i]))
  }

  /** `initials`: the upper-cased first letters of the words of the user name, or
      "U" when there are none or no user name. */
  function Initials(username: Option<string>): (r: string)
    ensures r != ""
    ensures username.None? ==> r == "U"
    ensures username.Some? && WordStarts(username.value, true) == "" ==> r == "U"
    ensures username.Some? && WordStarts(username.value, true) != "" ==> r == Upper(WordStarts(username.value, true))
  {
    if username.None? then "U"
    else
      HeadsAreWordStarts(username.value);
      var joined := Upper(Heads(Split(username.value)));
      if joined == "" then "U" else joined
  }

  /** The page state: the plan and the selected day. */
  class Profile {
    var workoutPlan: Plan
    var selectedDay: string

    predicate Valid()
      reads this
    {
      CoversWeek(workoutPlan) && selectedDay in DaysOfWeek
    }

    constructor ()
      ensures workoutPlan == DefaultPlan && selectedDay == "monday"
      ensures Valid()
    {
      workoutPlan := DefaultPlan;
      selectedDay := "monday";
    }

    method SelectDay(day: string)
      requires day in DaysOfWeek
      modifies this
      ensures selectedDay == day && workoutPlan == old(workoutPlan)
      ensures old(Valid()) ==> Valid()
    {
      selectedDay := day;
    }

    method AddExercise()
      requires Valid()
      modifies this
      ensures selectedDay == old(selectedDay) && workoutPlan == AddExerciseTo(old(workoutPlan), old(selectedDay))
      ensures Valid()
    {
      var day := workoutPlan[selectedDay];
      workoutPlan := workoutPlan[selectedDay := WorkoutDay(day.name, day.exercises + [""])];
    }

    method UpdateExercise(index: int, value: string)
      requires Valid() && 0 <= index < |workoutPlan[selectedDay].exercises|
      modifies this
      ensures selectedDay == old(selectedDay)
      ensures workoutPlan == UpdateExerciseIn(old(workoutPlan), old(selectedDay), index, value)
      ensures Valid()
    {
      var updated := workoutPlan[selectedDay].exercises;
      updated := updated[index := value];
      var day := workoutPlan[selectedDay];
      workoutPlan := workoutPlan[selectedDay := WorkoutDay(day.name, updated)];
    }

    method RemoveExercise(index: int)
      requires Valid()
      modifies this
      ensures selectedDay == old(selectedDay)
      ensures workoutPlan == RemoveExerciseFrom(old(workoutPlan), old(selectedDay), index)
      ensures Valid()
    {
      var day := workoutPlan[selectedDay];
      var kept: seq<string> := [];
      for i := 0 to |day.exercises|
        invariant kept == if index < 0 || index >= i then day.exercises[..i]
                          else day.exercises[..index] + day.exercises[index + 1..i]
      {
        if i != index {
          kept := kept + [day.exercises[i]];
        }
      }
      assert day.exercises[..|day.exercises|] == day.exercises;
      workoutPlan := workoutPlan[selectedDay := WorkoutDay(day.name, kept)];
    }

    /** The fetched plan's effect. */
    method ApplyFetchedPlan(fetched: Option<Plan>)
      modifies this
      ensures workoutPlan == MergeFetched(old(workoutPlan), fetched) && selectedDay == old(selectedDay)
      ensures old(Valid()) ==> Valid()
    {
      ghost var before := workoutPlan;
      if fetched.Some? && |fetched.value| > 0 {
        workoutPlan := workoutPlan + fetched.value;
      }
      assert workoutPlan == MergeFetched(before, fetched);
      if CoversWeek(before) {
        MergeKeepsWeek(before, fetched);
      }
    }
  }
}
