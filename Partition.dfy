/** After recording, each of the four tables is split per user by filtering
    on the user column; the result maps every user of the run to that user's
    four tables. */
module Partition {
  import opened Records
  import opened Selection

  /** One user's share of the four tables. */
  datatype UserData = UserData(steps: seq<StepRecord>, workouts: seq<WorkoutRecord>,
                               food: seq<FoodRecord>, water: seq<WaterRecord>)

  /** `part` is the in-order subsequence of the rows of `rows` that belong to
      user `u` (repeats kept, see `SelectAppend`), so it holds those rows and
      no others, and is no longer than `rows`. */
  ghost predicate RowsOfUser<R>(part: seq<R>, rows: seq<R>, user: R -> UserId, u: UserId)
  {
    && part == Select(rows, user, u)
    && |part| <= |rows|
    && (forall x :: x in part ==> x in rows && user(x) == u)
    && (forall x :: x in rows && user(x) == u ==> x in part)
  }

  function StepsOf(d: UserData): seq<StepRecord> { d.steps }
  function WorkoutsOf(d: UserData): seq<WorkoutRecord> { d.workouts }
  function FoodOf(d: UserData): seq<FoodRecord> { d.food }
  function WaterOf(d: UserData): seq<WaterRecord> { d.water }

  function PartitionByUser(users: seq<UserId>, steps: seq<StepRecord>, workouts: seq<WorkoutRecord>,
                           food: seq<FoodRecord>, water: seq<WaterRecord>): (m: map<UserId, UserData>)
    ensures m.Keys == set u | u in users
    ensures forall u :: u in m ==>
              && RowsOfUser(m[u].steps, steps, StepUser, u)
              && RowsOfUser(m[u].workouts, workouts, WorkoutUser, u)
              && RowsOfUser(m[u].food, food, FoodUser, u)
              && RowsOfUser(m[u].water, water, WaterUser, u)
  {
    map u | u in users :: UserData(Select(steps, StepUser, u), Select(workouts, WorkoutUser, u),
                                   Select(food, FoodUser, u), Select(water, WaterUser, u))
  }

  /** Number of positions of `users` that hold `u`. */
  ghost function Occurrences(users: seq<UserId>, u: UserId): nat
  {
    if |users| == 0 then 0
    else (if users[0] == u then 1 else 0) + Occurrences(users[1..], u)
  }

  /** No user is listed twice. */
  ghost predicate Distinct(users: seq<UserId>)
  {
    forall i, j :: 0 <= i < j < |users| ==> users[i] != users[j]
  }

  lemma {:induction false} OccurrencesOfDistinct(users: seq<UserId>, u: UserId)
    requires Distinct(users)
    ensures Occurrences(users, u) == if u in users then 1 else 0
  {
    if |users| > 0 {
      assert Distinct(users[1..]) by {
        forall i, j | 0 <= i < j < |users[1..]| ensures users[1..][i] != users[1..][j] {
          assert users[1..][i] == users[i + 1] && users[1..][j] == users[j + 1];
        }
      }
      OccurrencesOfDistinct(users[1..], u);
      assert users[0] !in users[1..];
      assert u in users <==> u == users[0] || u in users[1..];
    }
  }

  /** Total number of rows handed out to the listed users. */
  ghost function SharedRows<R>(rows: seq<R>, user: R -> UserId, users: seq<UserId>): nat
  {
    if |users| == 0 then 0
    else |Select(rows, user, users[0])| + SharedRows(rows, user, users[1..])
  }

  lemma {:induction false} SharedRowsSnoc<R>(rows: seq<R>, x: R, user: R -> UserId, users: seq<UserId>)
    ensures SharedRows(rows + [x], user, users) == SharedRows(rows, user, users) + Occurrences(users, user(x))
  {
    if |users| > 0 {
      SelectSnoc(rows, x, user, users[0]);
      SharedRowsSnoc(rows, x, user, users[1..]);
    }
  }

  /** When the users are distinct and every row belongs to one of them, the
      users' filtered shares of a table add up to the table's length. */
  lemma {:induction false} SharedRowsCoverTable<R>(rows: seq<R>, user: R -> UserId, users: seq<UserId>)
    requires Distinct(users)
    requires OwnedBy(rows, user, users)
    ensures SharedRows(rows, user, users) == |rows|
  {
    if |rows| == 0 {
      EmptySharedRows(rows, user, users);
    } else {
      var init, last := rows[..|rows| - 1], rows[|rows| - 1];
      assert rows == init + [last];
      SharedRowsCoverTable(init, user, users);
      SharedRowsSnoc(init, last, user, users);
      OccurrencesOfDistinct(users, user(last));
    }
  }

  lemma {:induction false} EmptySharedRows<R>(rows: seq<R>, user: R -> UserId, users: seq<UserId>)
    requires |rows| == 0
    ensures SharedRows(rows, user, users) == 0
  {
    if |users| > 0 {
      EmptySharedRows(rows, user, users[1..]);
    }
  }

  /** Every row of `rows` belongs to one of `users`. */
  ghost predicate OwnedBy<R>(rows: seq<R>, user: R -> UserId, users: seq<UserId>)
  {
    forall i :: 0 <= i < |rows| ==> user(rows[i]) in users
  }

  /** Total length of one table's shares over the listed users. */
  ghost function ShareSizes<R>(m: map<UserId, UserData>, users: seq<UserId>, table: UserData -> seq<R>): nat
    requires forall i :: 0 <= i < |users| ==> users[i] in m
  {
    if |users| == 0 then 0
    else |table(m[users[0]])| + ShareSizes(m, users[1..], table)
  }

  lemma {:induction false} ShareSizesAreSharedRows<R>(m: map<UserId, UserData>, users: seq<UserId>,
                                                      table: UserData -> seq<R>, rows: seq<R>, user: R -> UserId)
    requires forall i :: 0 <= i < |users| ==> users[i] in m && table(m[users[i]]) == Select(rows, user, users[i])
    ensures ShareSizes(m, users, table) == SharedRows(rows, user, users)
  {
    if |users| > 0 {
      ShareSizesAreSharedRows(m, users[1..], table, rows, user);
    }
  }

  lemma ShareKeepsEveryRow<R>(m: map<UserId, UserData>, users: seq<UserId>,
                              table: UserData -> seq<R>, rows: seq<R>, user: R -> UserId)
    requires Distinct(users) && OwnedBy(rows, user, users)
    requires forall i :: 0 <= i < |users| ==> users[i] in m && table(m[users[i]]) == Select(rows, user, users[i])
    ensures ShareSizes(m, users, table) == |rows|
  {
    ShareSizesAreSharedRows(m, users, table, rows, user);
    SharedRowsCoverTable(rows, user, users);
  }

  /** When the users are distinct and own every row, the per-user tables the
      split produces hold, for each of the four tables, as many rows together
      as the full table: the split neither loses nor duplicates a row. */
  lemma PartitionKeepsEveryRow(users: seq<UserId>, steps: seq<StepRecord>, workouts: seq<WorkoutRecord>,
                               food: seq<FoodRecord>, water: seq<WaterRecord>)
    requires Distinct(users)
    requires OwnedBy(steps, StepUser, users) && OwnedBy(workouts, WorkoutUser, users)
    requires OwnedBy(food, FoodUser, users) && OwnedBy(water, WaterUser, users)
    ensures var m := PartitionByUser(users, steps, workouts, food, water);
            && (forall i :: 0 <= i < |users| ==> users[i] in m)
            && ShareSizes(m, users, StepsOf) == |steps|
            && ShareSizes(m, users, WorkoutsOf) == |workouts|
            && ShareSizes(m, users, FoodOf) == |food|
            && ShareSizes(m, users, WaterOf) == |water|
  {
    var m := PartitionByUser(users, steps, workouts, food, water);
    forall i | 0 <= i < |users|
      ensures users[i] in m
      ensures m[users[i]] == UserData(Select(steps, StepUser, users[i]), Select(workouts, WorkoutUser, users[i]),
                                      Select(food, FoodUser, users[i]), Select(water, WaterUser, users[i]))
    {
      assert users[i] in m.Keys;
    }
    ShareKeepsEveryRow(m, users, StepsOf, steps, StepUser);
    ShareKeepsEveryRow(m, users, WorkoutsOf, workouts, WorkoutUser);
    ShareKeepsEveryRow(m, users, FoodOf, food, FoodUser);
    ShareKeepsEveryRow(m, users, WaterOf, water, WaterUser);
  }
}
