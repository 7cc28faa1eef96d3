/** Concrete runs of the recorder, as a caller such as the one-week
    simulation makes them, with the outcome each one must have. */
module Scenarios {
  import opened Records
  import opened Selection
  import opened Fitness

  /** 10000 steps burn 4000 calories. */
  method TenThousandSteps() returns (burned: real)
    ensures burned == 4000.0
  {
    var tracker := new FitnessAndHealth([], []);
    tracker.RecordSteps("User1", 10000, "20-11-2023");
    var rows := tracker.GetStepsData();
    burned := rows[0].burnedCalories;
  }

  /** A 30-minute boxing workout at weight 75, with coefficient 8.0 in the
      reference table, burns 8.0 * 75 * 30 calories. */
  method BoxingWorkout() returns (burned: real)
    ensures burned == 18000.0
  {
    var rates := [WorkoutRate("Boxing, punching bag", 8.0)];
    var tracker := new FitnessAndHealth(rates, []);
    assert RateType(rates[0]) == "Boxing, punching bag";
    tracker.RecordWorkout("User1", "Boxing, punching bag", 30.0, 75.0, "20-11-2023");
    var rows := tracker.GetWorkoutData();
    burned := rows[0].burnedCalories;
  }

  /** The lookup is exact: a workout type that differs from the reference
      row only in letter case is not found, and no row is recorded. */
  method MisspelledWorkoutDropped() returns (recorded: nat)
    ensures recorded == 0
  {
    var rates := [WorkoutRate("Boxing, punching bag", 8.0)];
    var tracker := new FitnessAndHealth(rates, []);
    assert RateType(rates[0])[0] == 'B';
    tracker.RecordWorkout("User1", "boxing, punching bag", 30.0, 75.0, "20-11-2023");
    recorded := |tracker.GetWorkoutData()|;
  }

  /** A food found in the reference table is recorded with that row's
      nutrition values unchanged. */
  method LobsterMeal() returns (row: FoodRecord)
    ensures row == FoodRecord("User2", "21-11-2023", "Lobster", 89.0, 19.0, 0.5, 0.9)
  {
    var profiles := [FoodProfile("Broccoli", 34.0, 2.8, 7.0, 0.4), FoodProfile("Lobster", 89.0, 19.0, 0.5, 0.9)];
    var tracker := new FitnessAndHealth([], profiles);
    assert ProfileFood(profiles[0])[0] == 'B';
    assert ProfileFood(profiles[1]) == "Lobster";
    tracker.RecordFood("User2", "Lobster", "21-11-2023");
    var rows := tracker.GetFoodIntakeData();
    row := rows[0];
  }

  /** When the reference table lists a food twice, the first listing wins. */
  method FirstListingWins() returns (calories: real)
    ensures calories == 100.0
  {
    var profiles := [FoodProfile("Muffins", 100.0, 2.0, 15.0, 4.0), FoodProfile("Muffins", 400.0, 6.0, 50.0, 20.0)];
    var tracker := new FitnessAndHealth([], profiles);
    assert ProfileFood(profiles[0]) == "Muffins";
    tracker.RecordFood("User3", "Muffins", "22-11-2023");
    var rows := tracker.GetFoodIntakeData();
    calories := rows[0].calories;
  }
}
