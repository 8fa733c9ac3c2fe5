/**
 * The body and health tab: workouts whose exercise list is typed as comma-separated
 * text, the day's meals against a 2000 kcal goal, and body-measure entries whose
 * optional measures are left out when their field is empty.
 */
module CorpoSaude {
  import opened Wrappers
  import opened Text
  import opened Records

  datatype Workout = Workout(id: string, name: string, exercises: seq<string>, date: string)

  datatype Meal = Meal(id: string, name: string, time: string, calories: int)

  datatype ProgressEntry = ProgressEntry(id: string, date: string, weight: real, chest: Option<real>, waist: Option<real>, hips: Option<real>)

  datatype WorkoutForm = WorkoutForm(name: string, exercises: string)

  datatype MealForm = MealForm(name: string, time: string, calories: string)

  datatype ProgressForm = ProgressForm(weight: string, chest: string, waist: string, hips: string)

  /** Measures as parsed from the progress dialog; only the filled-in ones are stored. */
  datatype Measures = Measures(weight: real, chest: real, waist: real, hips: real)

  const EmptyWorkoutForm := WorkoutForm("", "")

  const EmptyMealForm := MealForm("", "", "")

  const EmptyProgressForm := ProgressForm("", "", "", "")

  const CalorieGoal: int := 2000

  // ---------------------------------------------------------------- the exercise list

  /**
   * `exercises.split(",").map(e => e.trim())`: one exercise per comma-separated piece,
   * each without surrounding white space and without a comma.
   */
  function ExerciseList(text: string): (r: seq<string>)
    ensures |r| == Occurrences(text, ',') + 1
    ensures forall i :: 0 <= i < |r| ==> r[i] == Trim(Split(text, ',')[i])
    ensures forall i :: 0 <= i < |r| ==> ',' !in r[i]
    ensures forall i :: 0 <= i < |r| ==> Trimmed(r[i])
  {
    var parts := Split(text, ',');
    assert forall i :: 0 <= i < |parts| ==> ',' !in parts[i] by {
      forall i | 0 <= i < |parts| ensures ',' !in parts[i] {
        assert parts[i] in parts;
      }
    }
    TrimEach(parts, ',')
  }

  /** Each piece trimmed; a character no piece held is still absent afterwards. */
  function TrimEach(parts: seq<string>, c: char): (r: seq<string>)
    requires forall i :: 0 <= i < |parts| ==> c !in parts[i]
    ensures |r| == |parts|
    ensures forall i :: 0 <= i < |r| ==> r[i] == Trim(parts[i]) && c !in r[i]
    ensures forall i :: 0 <= i < |r| ==> Trimmed(r[i])
  {
    if parts == [] then []
    else
      TrimKeepsAbsent(parts[0], c);
      [Trim(parts[0])] + TrimEach(parts[1..], c)
  }

  /** A list of trimmed, comma-free exercise names survives being typed as "a,b,c". */
  lemma ExerciseListRoundTrip(names: seq<string>)
    requires |names| >= 1
    requires forall i :: 0 <= i < |names| ==> ',' !in names[i]
    requires forall i :: 0 <= i < |names| ==> Trimmed(names[i])
    ensures ExerciseList(Join(names, ',')) == names
  {
    SplitJoin(names, ',');
    var r := ExerciseList(Join(names, ','));
    forall i | 0 <= i < |names| ensures r[i] == names[i] {
      TrimmedIsFixed(names[i]);
    }
  }

  // ---------------------------------------------------------------- calories

  function Calories(): Meal -> int
  {
    (m: Meal) => m.calories
  }

  /** `totalCalories`: the day's calories; with no negative meal it is never negative. */
  function TotalCalories(meals: seq<Meal>): (r: int)
    ensures (forall i :: 0 <= i < |meals| ==> meals[i].calories >= 0) ==> r >= 0
  {
    SumNonNegative(meals, Calories());
    Sum(meals, Calories())
  }

  /** `calorieProgress`: the day's calories as a percentage of the goal; it is not capped. */
  function CalorieProgress(total: int): (r: real)
    ensures r >= 100.0 <==> total >= CalorieGoal
    ensures total >= 0 ==> r >= 0.0
    ensures r * 20.0 == total as real
  {
    total as real / CalorieGoal as real * 100.0
  }

  /** Eating one more meal adds its calories to the day's total. */
  lemma TotalAfterMeal(meals: seq<Meal>, m: Meal)
    ensures TotalCalories(meals + [m]) == TotalCalories(meals) + m.calories
  {
    SumAppend(meals, [m], Calories());
  }

  /** Deleting meals never raises the total when no meal has negative calories. */
  lemma {:induction false} DeleteMealLowersTotal(meals: seq<Meal>, id: string)
    requires forall i :: 0 <= i < |meals| ==> meals[i].calories >= 0
    ensures 0 <= TotalCalories(Filter(meals, MealNotId(id))) <= TotalCalories(meals)
  {
    if meals != [] {
      DeleteMealLowersTotal(meals[1..], id);
      SumAppend(if MealNotId(id)(meals[0]) then [meals[0]] else [], Filter(meals[1..], MealNotId(id)), Calories());
    }
  }

  function WorkoutNotId(id: string): Workout -> bool
  {
    (w: Workout) => w.id != id
  }

  function MealNotId(id: string): Meal -> bool
  {
    (m: Meal) => m.id != id
  }

  /** A measure field: `field ? parseFloat(field) : undefined`. */
  function OptionalMeasure(field: string, parsed: real): (r: Option<real>)
    ensures r.None? <==> field == ""
    ensures r.Some? ==> r.value == parsed
  {
    if field != "" then Some(parsed) else None
  }

  // ---------------------------------------------------------------- the component

  class CorpoSaude {
    var workouts: seq<Workout>
    var meals: seq<Meal>
    var progress: seq<ProgressEntry>
    var newWorkout: WorkoutForm
    var newMeal: MealForm
    var newProgress: ProgressForm

    constructor ()
      ensures workouts == [] && meals == [] && progress == []
      ensures newWorkout == EmptyWorkoutForm && newMeal == EmptyMealForm && newProgress == EmptyProgressForm
    {
      workouts := [];
      meals := [];
      progress := [];
      newWorkout := EmptyWorkoutForm;
      newMeal := EmptyMealForm;
      newProgress := EmptyProgressForm;
    }

    method SetNewWorkout(form: WorkoutForm)
      modifies this`newWorkout
      ensures newWorkout == form
    {
      newWorkout := form;
    }

    method SetNewMeal(form: MealForm)
      modifies this`newMeal
      ensures newMeal == form
    {
      newMeal := form;
    }

    method SetNewProgress(form: ProgressForm)
      modifies this`newProgress
      ensures newProgress == form
    {
      newProgress := form;
    }

    /**
     * `addWorkout`: with a name and some exercise text, the workout is stored with one
     * trimmed exercise per comma-separated piece; the dialog clears.
     */
    method AddWorkout(id: string, date: string)
      modifies this`workouts, this`newWorkout
      ensures var f := old(newWorkout);
        if f.name != "" && f.exercises != "" then
          && workouts == old(workouts) + [Workout(id, f.name, ExerciseList(f.exercises), date)]
          && |workouts[|workouts| - 1].exercises| == Occurrences(f.exercises, ',') + 1
          && newWorkout == EmptyWorkoutForm
        else
          workouts == old(workouts) && newWorkout == old(newWorkout)
    {
      if newWorkout.name != "" && newWorkout.exercises != "" {
        workouts := workouts + [Workout(id, newWorkout.name, ExerciseList(newWorkout.exercises), date)];
        newWorkout := EmptyWorkoutForm;
      }
    }

    /**
     * `addMeal`: with a name, a time and a calorie count typed, the meal is stored with the
     * parsed `calories`, which the day's total gains; the dialog clears.
     */
    method AddMeal(id: string, calories: int)
      modifies this`meals, this`newMeal
      ensures var f := old(newMeal);
        if f.name != "" && f.time != "" && f.calories != "" then
          && meals == old(meals) + [Meal(id, f.name, f.time, calories)]
          && TotalCalories(meals) == TotalCalories(old(meals)) + calories
          && newMeal == EmptyMealForm
        else
          meals == old(meals) && newMeal == old(newMeal)
    {
      if newMeal.name != "" && newMeal.time != "" && newMeal.calories != "" {
        var m := Meal(id, newMeal.name, newMeal.time, calories);
        TotalAfterMeal(meals, m);
        meals := meals + [m];
        newMeal := EmptyMealForm;
      }
    }

    /**
     * `addProgress`: with a weight typed, an entry is stored; each optional measure is
     * present exactly when its field was filled in.
     */
    method AddProgress(id: string, date: string, parsed: Measures)
      modifies this`progress, this`newProgress
      ensures var f := old(newProgress);
        if f.weight != "" then
          && progress == old(progress) + [ProgressEntry(id, date, parsed.weight,
               OptionalMeasure(f.chest, parsed.chest), OptionalMeasure(f.waist, parsed.waist), OptionalMeasure(f.hips, parsed.hips))]
          && newProgress == EmptyProgressForm
        else
          progress == old(progress) && newProgress == old(newProgress)
    {
      if newProgress.weight != "" {
        var entry := ProgressEntry(id, date, parsed.weight,
          OptionalMeasure(newProgress.chest, parsed.chest),
          OptionalMeasure(newProgress.waist, parsed.waist),
          OptionalMeasure(newProgress.hips, parsed.hips));
        progress := progress + [entry];
        newProgress := EmptyProgressForm;
      }
    }

    /** `deleteWorkout`. */
    method DeleteWorkout(id: string)
      modifies this`workouts
      ensures workouts == Filter(old(workouts), WorkoutNotId(id))
      ensures forall i :: 0 <= i < |workouts| ==> workouts[i].id != id
    {
      workouts := Filter(workouts, WorkoutNotId(id));
    }

    /** `deleteMeal`. */
    method DeleteMeal(id: string)
      modifies this`meals
      ensures meals == Filter(old(meals), MealNotId(id))
      ensures forall i :: 0 <= i < |meals| ==> meals[i].id != id
    {
      meals := Filter(meals, MealNotId(id));
    }
  }
}
