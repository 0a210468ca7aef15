/** How much water is still due today and how many branches are still due
    this week (`get_required_amount_of_water`,
    `get_number_of_branches_to_cut`). */
module Quota {
  import opened Records
  import opened Clock
  import opened DBHelper
  import opened CareJournal

  /** What is left of `limit` once `used` has been spent, never below 0. */
  function Remaining(limit: real, used: real): (r: real)
    ensures r >= 0.0
    ensures r == 0.0 <==> used >= limit
    ensures r > 0.0 ==> used + r == limit
  {
    if used >= limit then 0.0 else limit - used
  }

  /** Liters recorded from midnight of the day holding `now` on. */
  function WaterUsedToday(j: Journal, now: int): real
  {
    SumByFieldValue(j.water, AtLeast(DayStart(now)))
  }

  /** Branches recorded from midnight of the Monday of the week holding
      `now` on. */
  function BranchesCutThisWeek(j: Journal, now: int): real
  {
    SumByFieldValue(j.cut, AtLeast(WeekStart(now)))
  }

  /** `get_required_amount_of_water`, with "today" taken as midnight. */
  function RequiredAmountOfWater(j: Journal, now: int): (r: real)
    ensures r >= 0.0
    ensures r == 0.0 <==> WaterUsedToday(j, now) >= MaxWater
    ensures r > 0.0 ==> WaterUsedToday(j, now) + r == MaxWater
    ensures NonNegativeAmounts(j.water) ==> r <= MaxWater
    ensures (forall i :: 0 <= i < |j.water| ==> j.water[i].timestamp < DayStart(now))
            ==> r == MaxWater
  {
    Remaining(MaxWater, WaterUsedToday(j, now))
  }

  /** `get_number_of_branches_to_cut`, with the week starting at Monday
      midnight. */
  function NumberOfBranchesToCut(j: Journal, now: int): (r: real)
    ensures r >= 0.0
    ensures r == 0.0 <==> BranchesCutThisWeek(j, now) >= MaxBranches
    ensures r > 0.0 ==> BranchesCutThisWeek(j, now) + r == MaxBranches
    ensures NonNegativeAmounts(j.cut) ==> r <= MaxBranches
    ensures (forall i :: 0 <= i < |j.cut| ==> j.cut[i].timestamp < WeekStart(now))
            ==> r == MaxBranches
  {
    Remaining(MaxBranches, BranchesCutThisWeek(j, now))
  }

  /** Recording more water never raises what is still required. */
  lemma MoreWaterNeverRaisesRequirement(j: Journal, e: Entry, now: int)
    requires e.amount >= 0.0
    ensures RequiredAmountOfWater(j.(water := j.water + [e]), now)
         <= RequiredAmountOfWater(j, now)
  {
  }

  /** Recording more cut branches never raises the number still due. */
  lemma MoreCutsNeverRaiseRequirement(j: Journal, e: Entry, now: int)
    requires e.amount >= 0.0
    ensures NumberOfBranchesToCut(j.(cut := j.cut + [e]), now)
         <= NumberOfBranchesToCut(j, now)
  {
  }

  /** The same holds for the water quota as written. */
  lemma MoreWaterNeverRaisesRequirementAsWritten(j: Journal, e: Entry, now: int)
    requires e.amount >= 0.0
    ensures RequiredAmountOfWaterAsWritten(j.(water := j.water + [e]), now)
         <= RequiredAmountOfWaterAsWritten(j, now)
  {
  }

  /** The same holds for the cut quota as written. */
  lemma MoreCutsNeverRaiseRequirementAsWritten(j: Journal, e: Entry, now: int)
    requires e.amount >= 0.0
    ensures NumberOfBranchesToCutAsWritten(j.(cut := j.cut + [e]), now)
         <= NumberOfBranchesToCutAsWritten(j, now)
  {
  }

  /** The threshold the source actually builds for "today":
      `datetime.today().replace(hour=0, minute=0, second=0)` keeps the
      sub-second part of the current time, which the database stores to the
      millisecond. */
  function TodayAsWritten(now: int): (r: int)
    ensures DayStart(now) <= r < DayStart(now) + MsPerSecond
    ensures r - DayStart(now) == now % MsPerSecond
  {
    DayStart(now) + now % MsPerSecond
  }

  /** The Monday the source derives from that "today": Monday midnight of
      the current week, shifted by the same sub-second part. */
  function MondayAsWritten(now: int): (r: int)
    ensures r - WeekStart(now) == now % MsPerSecond
  {
    TodayAsWritten(now) - Weekday(now) * MsPerDay
  }

  /** `get_required_amount_of_water` with the threshold as written. */
  function RequiredAmountOfWaterAsWritten(j: Journal, now: int): (r: real)
    ensures r >= 0.0
    ensures r == 0.0 <==> SumByFieldValue(j.water, AtLeast(TodayAsWritten(now))) >= MaxWater
    ensures r > 0.0 ==> SumByFieldValue(j.water, AtLeast(TodayAsWritten(now))) + r == MaxWater
  {
    Remaining(MaxWater, SumByFieldValue(j.water, AtLeast(TodayAsWritten(now))))
  }

  /** `get_number_of_branches_to_cut` with the threshold as written: the
      Monday is derived from the same sub-second-shifted "today". */
  function NumberOfBranchesToCutAsWritten(j: Journal, now: int): (r: real)
    ensures r >= 0.0
    ensures r == 0.0 <==> SumByFieldValue(j.cut, AtLeast(MondayAsWritten(now))) >= MaxBranches
    ensures r > 0.0 ==> SumByFieldValue(j.cut, AtLeast(MondayAsWritten(now))) + r == MaxBranches
  {
    Remaining(MaxBranches, SumByFieldValue(j.cut, AtLeast(MondayAsWritten(now))))
  }

  /** Over non-negative amounts the shifted threshold can only see fewer
      documents, so the quota as written is never below the corrected one. */
  lemma AsWrittenNeverBelowCorrected(j: Journal, now: int)
    requires NonNegativeAmounts(j.water) && NonNegativeAmounts(j.cut)
    ensures RequiredAmountOfWaterAsWritten(j, now) >= RequiredAmountOfWater(j, now)
    ensures NumberOfBranchesToCutAsWritten(j, now) >= NumberOfBranchesToCut(j, now)
  {
    SumThresholdMonotone(j.water, DayStart(now), TodayAsWritten(now));
    SumThresholdMonotone(j.cut, WeekStart(now), MondayAsWritten(now));
  }

  /** A day chosen for the counterexamples below: 2022-01-08. */
  const SomeDay: int := 19_000 * MsPerDay

  /** As written, a full day's watering recorded 0.3 s after midnight is
      not seen by a check made 0.8 s after midnight the same day, so the
      tree is watered a second time; midnight as the threshold sees it. */
  lemma AsWrittenMissesEarlyWatering()
    ensures var j := Journal([], [Entry(0, "w1", SomeDay + 300, MaxWater)]);
            && DayStart(SomeDay + 800) == DayStart(SomeDay + 300)
            && RequiredAmountOfWaterAsWritten(j, SomeDay + 800) == MaxWater
            && RequiredAmountOfWater(j, SomeDay + 800) == 0.0
  {
    var j := Journal([], [Entry(0, "w1", SomeDay + 300, MaxWater)]);
    var s := j.water;
    assert DayNumber(SomeDay + 800) == 19_000;
    assert DayNumber(SomeDay + 300) == 19_000;
    assert DayStart(SomeDay + 800) == SomeDay;
    assert TodayAsWritten(SomeDay + 800) == SomeDay + 800;
    assert s[..0] == [];
    assert SumByFieldValue(s, AtLeast(SomeDay + 800)) == 0.0;
    assert SumByFieldValue(s, AtLeast(SomeDay)) == MaxWater;
  }

  /** As written, a week's cut recorded 0.3 s into Monday is not seen by a
      check made 0.8 s into Monday; Monday midnight as the threshold sees
      it. */
  lemma AsWrittenMissesEarlyCut()
    ensures var monday := SomeDay + 2 * MsPerDay;
            var j := Journal([Entry(0, "c1", monday + 300, MaxBranches)], []);
            && WeekStart(monday + 800) == WeekStart(monday + 300)
            && NumberOfBranchesToCutAsWritten(j, monday + 800) == MaxBranches
            && NumberOfBranchesToCut(j, monday + 800) == 0.0
  {
    var monday := SomeDay + 2 * MsPerDay;
    var j := Journal([Entry(0, "c1", monday + 300, MaxBranches)], []);
    var s := j.cut;
    assert DayNumber(monday + 800) == 19_002;
    assert DayNumber(monday + 300) == 19_002;
    assert Weekday(monday + 800) == 0;
    assert Weekday(monday + 300) == 0;
    assert WeekStart(monday + 800) == monday;
    assert WeekStart(monday + 300) == monday;
    assert MondayAsWritten(monday + 800) == monday + 800;
    assert s[..0] == [];
    assert SumByFieldValue(s, AtLeast(monday + 800)) == 0.0;
    assert SumByFieldValue(s, AtLeast(monday)) == MaxBranches;
  }
}
