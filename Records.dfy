/** Rows of the two read-only reference tables and of the four observation
    tables kept by the fitness recorder. Measurements other than step counts
    are exact reals: floating-point rounding is not modelled. */
module Records {

  type UserId = string
  /** Dates are kept as the already formatted text ("20-11-2023"). */
  type Date = string

  /** One row of the workout reference table: a workout type and its
      calorie-burn coefficient ("Workout Type", "Calories"). */
  datatype WorkoutRate = WorkoutRate(workoutType: string, calories: real)

  /** One row of the food reference table ("Food", "Calories", "Protein",
      "Carbs", "Fats"). */
  datatype FoodProfile = FoodProfile(food: string, calories: real, protein: real, carbs: real, fats: real)

  /** Columns 'User_ID', 'Date', 'Steps', 'Burned Calories'. */
  datatype StepRecord = StepRecord(user: UserId, date: Date, steps: int, burnedCalories: real)

  /** Columns 'User_ID', 'Date', 'Workout_Type', 'Duration', 'Burned Calories', 'Weight'. */
  datatype WorkoutRecord = WorkoutRecord(user: UserId, date: Date, workoutType: string, duration: real,
                                         burnedCalories: real, weight: real)

  /** Columns 'User_ID', 'Date', 'Food', 'Calories', 'Protein', 'Carbs', 'Fats'. */
  datatype FoodRecord = FoodRecord(user: UserId, date: Date, food: string, calories: real,
                                   protein: real, carbs: real, fats: real)

  /** Columns 'User_ID', 'Date', 'Water Intake'. */
  datatype WaterRecord = WaterRecord(user: UserId, date: Date, waterIntake: real)

  /** Calories burned per step, a fixed constant of the recorder. */
  const StepCalorieFactor: real := 0.4

  // Column selectors, used as the key of a boolean-mask filter.

  function RateType(w: WorkoutRate): string { w.workoutType }
  function ProfileFood(p: FoodProfile): string { p.food }
  function StepUser(r: StepRecord): UserId { r.user }
  function WorkoutUser(r: WorkoutRecord): UserId { r.user }
  function FoodUser(r: FoodRecord): UserId { r.user }
  function WaterUser(r: WaterRecord): UserId { r.user }
}
