/** The documents of the two journal collections, the per-period totals the
    audits work on, and the journal's fixed quota configuration. */
module Records {

  /** A success value or a typed error, in place of the source's exceptions. */
  datatype Result<+T, +E> = Success(value: T) | Failure(error: E)

  /** One document of CutJournal or WaterJournal. `id` is the `_id` the
      database assigns on insertion, `robotId` the robot that acted,
      `timestamp` the moment of the action in milliseconds, and `amount` the
      liters of water (`water_amount`) or the branch count
      (`number_of_branches`). */
  datatype Entry = Entry(id: int, robotId: string, timestamp: int, amount: real)

  /** A `DailyData` (period = day number) or a `WeeklyData` (period = week
      number): the summed amount of one period. */
  datatype Total = Total(period: int, amount: real)

  /** The quota configuration set in `Journal.__init__`. */
  const MaxWater: real := 2.0
  const MinWater: real := 1.0
  const MaxBranches: real := 8.0
  const MinBranches: real := 4.0

  /** `lo <= a <= hi`, inclusive on both ends as in the audits. */
  predicate InRange(a: real, lo: real, hi: real)
  {
    lo <= a <= hi
  }

  predicate NonNegativeAmounts(s: seq<Entry>)
  {
    forall i :: 0 <= i < |s| ==> s[i].amount >= 0.0
  }
}
