# Fitness and health recorder — a verified model

The modelled program records daily fitness observations for a set of users.
The `FitnessAndHealth` recorder holds four append-only tables: steps,
workouts, food intake and water intake. It also holds two read-only
reference tables. One maps a workout type to a calorie-burn coefficient. The
other maps a food to its calories, protein, carbs and fats. The
`record_*` operations each append at most one row to one table:

- a steps row always, with burned calories = steps × 0.4;
- a workout row only when the type is found in the workout table, with
  burned calories = coefficient × weight × duration;
- a food row only when the food is found in the food table, with its four
  nutrition values copied from the reference row;
- a water row always.

Lookups use exact equality and take the first matching row. After recording,
each table is split per user by filtering on the user column.

Files:

- `Records.dfy` (module `Records`): the row types of the six tables and the
  steps factor 0.4.
- `Selection.dfy` (module `Selection`): the filter `df[df[column] == value]`
  as `Select`, and the lookup "first row of the filter" as `FirstMatch`.
  This module also holds their lemmas: the filter keeps order and is taken
  row by row, and the lookup finds the first matching row.
- `Fitness.dfy` (module `Fitness`): the class `FitnessAndHealth`. It has the
  four tables as `seq` fields and the two reference tables as `const`
  fields. Its invariant `Valid()` says every stored derived value agrees
  with its formula or its reference row. Each record method states the whole
  new state.
- `Partition.dfy` (module `Partition`): the per-user split. Its lemma shows
  that the split neither loses nor duplicates a row.
- `Scenarios.dfy` (module `Scenarios`): concrete calls with their outcomes,
  for example 10000 steps burn 4000 calories and a boxing workout of 30
  minutes at weight 75 with coefficient 8.0 burns 18000.

Two behaviours of the code that the model keeps as they are:

- The code does not check that reference keys are unique and takes the
  first matching row, so the model does the same
  (`Scenarios.FirstListingWins`). Uniqueness is a hypothesis only of the
  lemmas that need it.
- The code checks no range on step counts, so the model accepts any
  integer.

## Model

| member | source | states |
|---|---|---|
| Selection.Select | Fitness.py:101-106 | the filtered table has exactly the rows of the input whose key equals the value, each matching, none invented, none dropped, and it is no longer than the input |
| Selection.SelectAppend | Fitness.py:101-106 | filtering a concatenation is the concatenation of the filtered parts, so the filter is the in-order subsequence of matching rows |
| Selection.SelectSnoc | Fitness.py:21 | after a table grows by one row, a user's filtered share grows by that row exactly when the row is that user's, and is otherwise unchanged |
| Selection.SelectHead | Fitness.py:41-43 | the first row of a non-empty filter is the earliest row of the table whose key matches |
| Selection.FirstMatch | Fitness.py:24-27 | the lookup finds nothing exactly when no row's key equals the value; otherwise it returns a matching row with no matching row before it |
| Selection.FirstMatchUnique | Fitness.py:41-43 | in a uniquely keyed reference table the lookup of a row's key returns that row |
| Fitness.FitnessAndHealth.constructor | Fitness.py:8-16 | a new recorder has the given reference tables, four empty observation tables, and satisfies the invariant |
| Fitness.FitnessAndHealth.RecordSteps | Fitness.py:18-21 | appends exactly one row with the given user, date and steps and burned calories = steps × 0.4; the other three tables are unchanged; the invariant is kept |
| Fitness.FitnessAndHealth.RecordWorkout | Fitness.py:23-38 | on a type with an exact match appends exactly one row with the given type, duration and weight and burned calories = first match's coefficient × weight × duration; on no match changes nothing; the other tables are unchanged; the invariant is kept |
| Fitness.FitnessAndHealth.RecordFood | Fitness.py:40-55 | on a food with an exact match appends exactly one row whose calories, protein, carbs and fats are the first matching reference row's; on no match changes nothing; the other tables are unchanged; the invariant is kept |
| Fitness.FitnessAndHealth.RecordWater | Fitness.py:57-59 | appends exactly one row with the given intake, whatever its value; the other tables are unchanged |
| Fitness.FitnessAndHealth.GetStepsData | Fitness.py:61-62 | returns the current steps table, the one the record methods extend |
| Fitness.FitnessAndHealth.GetWorkoutData | Fitness.py:64-65 | returns the current workout table |
| Fitness.FitnessAndHealth.GetFoodIntakeData | Fitness.py:67-68 | returns the current food intake table |
| Fitness.FitnessAndHealth.GetWaterIntakeData | Fitness.py:70-71 | returns the current water intake table |
| Fitness.FoodRowCopiesReference | Fitness.py:40-53 | in a valid recorder with a uniquely keyed food table, every food row's nutrition values equal those of the reference row for its food |
| Fitness.WorkoutRowUsesReference | Fitness.py:23-36 | in a valid recorder with a uniquely keyed workout table, every workout row's burned calories are that type's coefficient × weight × duration |
| Partition.PartitionByUser | Fitness.py:101-106 | maps exactly the listed users; each user's four tables are the in-order subsequences (repeats kept) of the full tables' rows whose user is that user, so they hold that user's rows and no others, each no longer than the full table |
| Partition.PartitionKeepsEveryRow | Fitness.py:101-106 | for distinct users that own every row, the lengths of the users' tables in the split's result add up, for each of the four tables, to the full table's length: no row is lost or duplicated |
| Scenarios.TenThousandSteps | Fitness.py:18-21 | recording 10000 steps stores 4000 burned calories |
| Scenarios.BoxingWorkout | Fitness.py:23-36 | 30 minutes of boxing at weight 75 with coefficient 8.0 stores 18000 burned calories |
| Scenarios.MisspelledWorkoutDropped | Fitness.py:24-38 | a workout type that differs from the reference only in letter case is not found and no row is stored |
| Scenarios.LobsterMeal | Fitness.py:40-53 | a food found in the second reference row is stored with that row's nutrition values |
| Scenarios.FirstListingWins | Fitness.py:41-48 | when a food is listed twice, the first listing's values are stored |

## Left out

- Loading the reference tables from CSV files (Fitness.py:15-16): file I/O. The constructor takes the two tables as sequences.
- The constructor's `user_id` argument (Fitness.py:9): stored but never used.
- The one-week simulation driver (Fitness.py:74-91): random draws and date stepping. It only calls the record methods, which are modelled; `Scenarios` shows single calls.
- The "not found" console messages (Fitness.py:38, 55) and the printing of each user's tables (Fitness.py:108-118): output only. A miss is modelled as "no row appended".
- Folder creation and per-user CSV export (Fitness.py:120-133): filesystem I/O. The split it writes is modelled by `PartitionByUser`.
- Charting (Fitness.py:137-196): presentation only.
- Floating-point rounding of 0.4 and of the products: the model uses exact reals. Step counts are integers and other measurements are reals.
- Missing or non-text values in a key column of a reference table: the model compares keys as exact strings.
