// A row of the `journals` table as the route handlers and the dashboard
// read it (`select *`): every column may be null, the date is a day number.
module Journal {
  import opened Wrappers
  import Numeric

  datatype JournalRow = JournalRow(
    date: int,
    mood: Field<int>,
    sleep_hours: Field<int>,
    stress_level: Field<int>,
    productivity: Field<int>,
    overthinking: Field<int>,
    screen_work: Field<real>,            // hours from a number input: may be fractional
    screen_entertainment: Field<real>,
    exercise: Field<seq<string>>,
    negative_thoughts: Field<string>,
    diet_status: Field<string>,
    social_time: Field<string>)

  /** `Array.isArray(row.exercise) && row.exercise.length > 0`. */
  predicate Exercised(row: JournalRow) {
    row.exercise.Value? && |row.exercise.v| > 0
  }

  /** How many rows were logged with exercise: the count the dashboard's
      and the report's consistency percentages share. */
  function ExerciseDays(rows: seq<JournalRow>): (n: nat)
    ensures n <= |rows|
    ensures n == 0 <==> forall i :: 0 <= i < |rows| ==> !Exercised(rows[i])
  {
    var kept := Numeric.Filter(rows, Exercised);
    Numeric.FilterMembers(rows, Exercised);
    assert kept != [] ==> kept[0] in kept;
    assert forall i :: 0 <= i < |rows| ==> rows[i] in rows;
    |kept|
  }
}
