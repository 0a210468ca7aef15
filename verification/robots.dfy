/** The two care robots as values advanced by step functions: each
    consults the journal's quota and records what it did. */
module Robots {
  import opened Records
  import opened Clock
  import opened CareJournal
  import opened Quota

  /** `WaterRobot`: its id, the tank volume and the water currently in the
      tank. */
  datatype WaterRobot = WaterRobot(id: string, volume: real, level: real)

  /** `CutRobot`: only an id. */
  datatype CutRobot = CutRobot(id: string)

  /** `NotEnoughWaterError` and the `ValueError` of the volume setter. */
  datatype RobotError = NotEnoughWater(required: real, level: real) | InvalidVolume(volume: real)

  /** A watering call that did not raise: the robot and the journal after
      it. */
  datatype Watered = Watered(robot: WaterRobot, journal: Journal)

  /** The dataclass constructor: the tank starts empty and the volume is
      stored as given, without the setter's check. */
  function NewWaterRobot(id: string, volume: real): (r: WaterRobot)
    ensures r.id == id && r.volume == volume && r.level == 0.0
  {
    WaterRobot(id, volume, 0.0)
  }

  /** The `tank_volume` setter: a non-positive volume is rejected and the
      robot is left as it was. */
  function SetTankVolume(r: WaterRobot, v: real): (res: Result<WaterRobot, RobotError>)
    ensures res.Failure? <==> v <= 0.0
    ensures res.Failure? ==> res.error == InvalidVolume(v)
    ensures res.Success? ==> res.value.volume == v && res.value.level == r.level && res.value.id == r.id
  {
    if v <= 0.0 then Failure(InvalidVolume(v)) else Success(r.(volume := v))
  }

  /** `refill_tank`: the tank is filled up to its volume. */
  function RefillTank(r: WaterRobot): (r': WaterRobot)
    ensures r'.level == r.volume && r'.volume == r.volume && r'.id == r.id
  {
    r.(level := r.volume)
  }

  /** `water_tree` at time `now`. Nothing is due: nothing changes. The tank
      holds enough: the level drops by exactly the amount due and one water
      document with that amount is recorded. Otherwise the call fails with
      `NotEnoughWater` and nothing changes. */
  function WaterTree(r: WaterRobot, j: Journal, now: int): (res: Result<Watered, RobotError>)
    ensures var due := RequiredAmountOfWater(j, now);
            && (due == 0.0 ==> res == Success(Watered(r, j)))
            && (due != 0.0 && due <= r.level ==>
                  && res.Success?
                  && res.value.robot == r.(level := r.level - due)
                  && res.value.journal.cut == j.cut
                  && |res.value.journal.water| == |j.water| + 1
                  && res.value.journal.water[..|j.water|] == j.water
                  && res.value.journal.water[|j.water|].amount == due
                  && res.value.journal.water[|j.water|].timestamp == now
                  && res.value.journal.water[|j.water|].robotId == r.id)
            && (due != 0.0 && due > r.level ==> res == Failure(NotEnoughWater(due, r.level)))
  {
    var due := RequiredAmountOfWater(j, now);
    if due != 0.0 then
      if due <= r.level then
        Success(Watered(r.(level := r.level - due),
                        Update(j, WaterRobotKind, Record(r.id, now, due))))
      else
        Failure(NotEnoughWater(due, r.level))
    else
      Success(Watered(r, j))
  }

  /** `cut_branches` at time `now`: the full number still due this week is
      recorded as one cut document, or nothing when none is due. */
  function CutBranches(c: CutRobot, j: Journal, now: int): (r: Journal)
    ensures var due := NumberOfBranchesToCut(j, now);
            && (due == 0.0 ==> r == j)
            && (due != 0.0 ==>
                  && r.water == j.water
                  && |r.cut| == |j.cut| + 1
                  && r.cut[..|j.cut|] == j.cut
                  && r.cut[|j.cut|].amount == due
                  && r.cut[|j.cut|].timestamp == now
                  && r.cut[|j.cut|].robotId == c.id)
  {
    var due := NumberOfBranchesToCut(j, now);
    if due != 0.0 then Update(j, CutRobotKind, Record(c.id, now, due)) else j
  }

  /** Once a watering call has gone through, any later call the same day
      finds nothing due, so it records nothing. */
  lemma WateringSatisfiesDay(r: WaterRobot, j: Journal, now: int, later: int)
    requires WaterTree(r, j, now).Success?
    requires DayStart(later) == DayStart(now)
    ensures RequiredAmountOfWater(WaterTree(r, j, now).value.journal, later) == 0.0
  {
  }

  /** Once a cutting call has run, any later call the same week finds
      nothing due. */
  lemma CuttingSatisfiesWeek(c: CutRobot, j: Journal, now: int, later: int)
    requires WeekStart(later) == WeekStart(now)
    ensures NumberOfBranchesToCut(CutBranches(c, j, now), later) == 0.0
  {
  }

  /** The robots keep the journal well formed: ids count insertions and no
      amount is negative. */
  lemma RobotsKeepJournalValid(r: WaterRobot, c: CutRobot, j: Journal, now: int)
    requires Valid(j)
    ensures WaterTree(r, j, now).Success? ==> Valid(WaterTree(r, j, now).value.journal)
    ensures Valid(CutBranches(c, j, now))
  {
  }

  /** The watering script's recovery: a call that failed for lack of water
      goes through after one refill when the tank's volume covers the amount
      due. */
  lemma RefillRetrySucceeds(r: WaterRobot, j: Journal, now: int)
    requires WaterTree(r, j, now).Failure?
    requires r.volume >= WaterTree(r, j, now).error.required
    ensures WaterTree(RefillTank(r), j, now).Success?
    ensures WaterTree(RefillTank(r), j, now).value.robot.level
         == r.volume - WaterTree(r, j, now).error.required
  {
  }

  /** A new robot with a 5-liter tank and an empty journal: the first call
      fails because the tank starts empty; after a refill it records 2
      liters and keeps 3. */
  lemma FreshRobotWatersAfterRefill(now: int)
    ensures var r := NewWaterRobot("w1", 5.0);
            && WaterTree(r, EmptyJournal, now) == Failure(NotEnoughWater(2.0, 0.0))
            && var res := WaterTree(RefillTank(r), EmptyJournal, now);
               && res.Success?
               && res.value.robot.level == 3.0
               && res.value.journal.water == [Entry(0, "w1", now, 2.0)]
               && res.value.journal.cut == []
  {
    assert RequiredAmountOfWater(EmptyJournal, now) == 2.0;
  }
}
