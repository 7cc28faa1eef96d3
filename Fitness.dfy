/** The recorder: an object holding four append-only observation tables
    (steps, workouts, food intake, water intake) and two read-only reference
    tables (workout type to calorie coefficient, food to nutrition profile).
    Each record operation appends at most one row to exactly one table. */
module Fitness {
  import opened Records
  import opened Selection

  /** A steps row carries the calories the fixed factor gives for its steps. */
  predicate StepRowDerived(r: StepRecord)
  {
    r.burnedCalories == r.steps as real * StepCalorieFactor
  }

  /** Calories a workout burns: the reference coefficient times the
      weight times the duration. */
  function BurnedCalories(rate: WorkoutRate, weight: real, duration: real): real
  {
    rate.calories * weight * duration
  }

  /** A workout row's type is found in the reference table, and its burned
      calories are that row's coefficient times weight times duration. */
  predicate WorkoutRowDerived(rates: seq<WorkoutRate>, r: WorkoutRecord)
  {
    match FirstMatch(rates, RateType, r.workoutType)
    case None => false
    case Some(rate) => r.burnedCalories == BurnedCalories(rate, r.weight, r.duration)
  }

  /** A food row's food is found in the reference table, and its nutrition
      columns are that row's, unchanged. */
  predicate FoodRowDerived(profiles: seq<FoodProfile>, r: FoodRecord)
  {
    match FirstMatch(profiles, ProfileFood, r.food)
    case None => false
    case Some(p) => r.calories == p.calories && r.protein == p.protein && r.carbs == p.carbs && r.fats == p.fats
  }

  class FitnessAndHealth {
    /** Reference tables, fixed when the object is built. */
    const workoutCaloriesData: seq<WorkoutRate>
    const foodData: seq<FoodProfile>

    /** Observation tables, only ever extended at the end. */
    var stepsData: seq<StepRecord>
    var waterIntakeData: seq<WaterRecord>
    var workoutData: seq<WorkoutRecord>
    var foodIntakeData: seq<FoodRecord>

    /** Every stored derived column agrees with the inputs and the reference
        row it was taken from; no workout or food row lacks a reference row. */
    ghost predicate Valid()
      reads this
    {
      && (forall i :: 0 <= i < |stepsData| ==> StepRowDerived(stepsData[i]))
      && (forall i :: 0 <= i < |workoutData| ==> WorkoutRowDerived(workoutCaloriesData, workoutData[i]))
      && (forall i :: 0 <= i < |foodIntakeData| ==> FoodRowDerived(foodData, foodIntakeData[i]))
    }

    constructor (workoutRates: seq<WorkoutRate>, foodProfiles: seq<FoodProfile>)
      ensures Valid()
      ensures workoutCaloriesData == workoutRates && foodData == foodProfiles
      ensures stepsData == [] && waterIntakeData == [] && workoutData == [] && foodIntakeData == []
    {
      workoutCaloriesData := workoutRates;
      foodData := foodProfiles;
      stepsData := [];
      waterIntakeData := [];
      workoutData := [];
      foodIntakeData := [];
    }

    /** Appends one steps row; no range check on `steps`. */
    method RecordSteps(user: UserId, steps: int, date: Date)
      requires Valid()
      modifies this
      ensures Valid()
      ensures stepsData == old(stepsData) + [StepRecord(user, date, steps, steps as real * StepCalorieFactor)]
      ensures workoutData == old(workoutData) && foodIntakeData == old(foodIntakeData)
      ensures waterIntakeData == old(waterIntakeData)
    {
      var calories := steps as real * StepCalorieFactor;
      stepsData := stepsData + [StepRecord(user, date, steps, calories)];
    }

    /** Looks the workout type up by exact equality; on a match appends one
        row priced by the first matching reference row, otherwise appends
        nothing (the program only prints a diagnostic). */
    method RecordWorkout(user: UserId, workoutType: string, duration: real, weight: real, date: Date)
      requires Valid()
      modifies this
      ensures Valid()
      ensures match FirstMatch(workoutCaloriesData, RateType, workoutType)
              case Some(rate) =>
                workoutData == old(workoutData)
                               + [WorkoutRecord(user, date, workoutType, duration, BurnedCalories(rate, weight, duration), weight)]
              case None => workoutData == old(workoutData)
      ensures stepsData == old(stepsData) && foodIntakeData == old(foodIntakeData)
      ensures waterIntakeData == old(waterIntakeData)
    {
      var workoutInfo := FirstMatch(workoutCaloriesData, RateType, workoutType);
      if workoutInfo.Some? {
        var rate := workoutInfo.value;
        var burnedCalories := BurnedCalories(rate, weight, duration);
        var row := WorkoutRecord(user, date, workoutType, duration, burnedCalories, weight);
        assert WorkoutRowDerived(workoutCaloriesData, row);
        workoutData := workoutData + [row];
      }
    }

    /** Looks the food up by exact equality; on a match appends one row whose
        nutrition columns are copied from the first matching reference row,
        otherwise appends nothing. */
    method RecordFood(user: UserId, foodItem: string, date: Date)
      requires Valid()
      modifies this
      ensures Valid()
      ensures match FirstMatch(foodData, ProfileFood, foodItem)
              case Some(p) =>
                foodIntakeData == old(foodIntakeData)
                                  + [FoodRecord(user, date, foodItem, p.calories, p.protein, p.carbs, p.fats)]
              case None => foodIntakeData == old(foodIntakeData)
      ensures stepsData == old(stepsData) && workoutData == old(workoutData)
      ensures waterIntakeData == old(waterIntakeData)
    {
      var foodNutrition := FirstMatch(foodData, ProfileFood, foodItem);
      if foodNutrition.Some? {
        var p := foodNutrition.value;
        var row := FoodRecord(user, date, foodItem, p.calories, p.protein, p.carbs, p.fats);
        assert FoodRowDerived(foodData, row);
        foodIntakeData := foodIntakeData + [row];
      }
    }

    /** Appends one water row unconditionally; no range check on the intake. */
    method RecordWater(user: UserId, waterIntake: real, date: Date)
      requires Valid()
      modifies this
      ensures Valid()
      ensures waterIntakeData == old(waterIntakeData) + [WaterRecord(user, date, waterIntake)]
      ensures stepsData == old(stepsData) && workoutData == old(workoutData)
      ensures foodIntakeData == old(foodIntakeData)
    {
      waterIntakeData := waterIntakeData + [WaterRecord(user, date, waterIntake)];
    }

    function GetStepsData(): (r: seq<StepRecord>)
      reads this
      ensures r == stepsData
    {
      stepsData
    }

    function GetWorkoutData(): (r: seq<WorkoutRecord>)
      reads this
      ensures r == workoutData
    {
      workoutData
    }

    function GetFoodIntakeData(): (r: seq<FoodRecord>)
      reads this
      ensures r == foodIntakeData
    {
      foodIntakeData
    }

    function GetWaterIntakeData(): (r: seq<WaterRecord>)
      reads this
      ensures r == waterIntakeData
    {
      waterIntakeData
    }
  }

  /** With a uniquely keyed food table, every recorded food row carries the
      nutrition values of the reference row for its food, wherever that row
      stands in the table. */
  lemma FoodRowCopiesReference(tracker: FitnessAndHealth, i: nat, j: nat)
    requires tracker.Valid()
    requires UniqueKeys(tracker.foodData, ProfileFood)
    requires i < |tracker.foodIntakeData| && j < |tracker.foodData|
    requires tracker.foodData[j].food == tracker.foodIntakeData[i].food
    ensures var p, r := tracker.foodData[j], tracker.foodIntakeData[i];
            r.calories == p.calories && r.protein == p.protein && r.carbs == p.carbs && r.fats == p.fats
  {
    FirstMatchUnique(tracker.foodData, ProfileFood, j);
    assert FoodRowDerived(tracker.foodData, tracker.foodIntakeData[i]);
  }

  /** With a uniquely keyed workout table, every recorded workout row's burned
      calories are the coefficient of the reference row for its type times its
      weight times its duration. */
  lemma WorkoutRowUsesReference(tracker: FitnessAndHealth, i: nat, j: nat)
    requires tracker.Valid()
    requires UniqueKeys(tracker.workoutCaloriesData, RateType)
    requires i < |tracker.workoutData| && j < |tracker.workoutCaloriesData|
    requires tracker.workoutCaloriesData[j].workoutType == tracker.workoutData[i].workoutType
    ensures var w := tracker.workoutData[i];
            w.burnedCalories == tracker.workoutCaloriesData[j].calories * w.weight * w.duration
  {
    FirstMatchUnique(tracker.workoutCaloriesData, RateType, j);
    assert WorkoutRowDerived(tracker.workoutCaloriesData, tracker.workoutData[i]);
  }
}
