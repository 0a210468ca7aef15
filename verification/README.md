# Tree-care journal: a Dafny model

This project models the journal that two garden robots share (`HW_1/robots.py`).
A cutting robot and a watering robot check the journal for how much work is still
due: water for today, branches for this week. Each robot acts and records what it
did in one of two append-only collections, CutJournal and WaterJournal. Three audits
read the journal:

- the ordering audit finds documents whose timestamp is later than that of the next
  inserted document;
- the water audit works on per-day totals;
- the cut audit works on per-week totals.

The two range audits add a zero total for every missing period between the first
and the last, then report every total outside the allowed range.

Modules, leaves first:

- `Records` (`records.dfy`): the `Entry` and `Total` records, the quota
  configuration (2 / 1 liters per day, 8 / 4 branches per week) and a `Result` type
  for the source's exceptions.
- `Clock` (`clock.dfy`): days and Monday-based weeks over millisecond timestamps.
- `DBHelper` (`dbhelper.dfy`): the two aggregation pipelines. One is a filtered sum.
  The other is a grouped sum keyed by day or week.
- `CareJournal` (`journal.dfy`): the two collections, `update` and the checked
  selection of `print_last_10_records`.
- `Quota` (`quota.dfy`): water still due today and branches still due this week.
- `OrderingAudit` (`ordering.dfy`): `get_ordering_errors`.
- `RangeAudit` (`range_audit.dfy`): `get_water_errors` and `get_cut_errors`: sorting,
  gap filling and the range filter.
- `Robots` (`robots.dfy`): `WaterRobot` and `CutRobot` as values with step functions.

Modelling choices:

- A collection is the sequence of its documents in insertion order. Each `_id` is the
  number of documents inserted before it.
- Amounts are exact `real`s.
- Timestamps are integers in milliseconds, the resolution at which the database
  stores dates.
- The current time is a parameter `now`. It is used both for the quota threshold and
  as the timestamp of a new document.
- Day numbers are `timestamp / 86 400 000`, on the same clock as the stored
  timestamps.
- Week numbers come from a parameter `weekOf`, which stands for the database's
  `$week`.

Behaviour of the code worth knowing:

- The ordering audit flags the **earlier** document of an inverted pair (`entry` at
  position `i`, HW_1/robots.py:153-155), not the later one.
- A new `WaterRobot` starts with an empty tank (HW_1/robots.py:222). Its first call
  therefore fails with `NotEnoughWater` whenever water is due, and the watering
  script then refills and retries. When nothing is due the call changes nothing. `Robots.FreshRobotWatersAfterRefill` shows this sequence.
- The half-open `range(...)` loops of both range audits never leave out the last
  period. That period belongs to the last existing total, so it is already present
  (`RangeAudit.FillGaps`).
- On an empty collection both range audits raise an `IndexError` in the source. The
  model returns `Failure(InsufficientData)` instead.
- The quota thresholds the code builds are not midnight: they are shifted by the
  sub-second part of the current time (see "## Findings"). The `Quota.*AsWritten`
  members model the thresholds as written. The robots and the rest of the model use
  the midnight thresholds.

## Model

| member | source | states |
|---|---|---|
| DBHelper.SumAppend | HW_1/robots.py:32-37 | inserting one more document raises the filtered sum by its amount if it matches the condition, and leaves it unchanged otherwise |
| DBHelper.SumByFieldValue | HW_1/robots.py:21-37 | when no document matches, the sum is 0 rather than an error; a sum over documents with non-negative amounts is non-negative |
| DBHelper.SumThresholdMonotone | HW_1/robots.py:30-37 | over non-negative amounts, a later `$gte` threshold never yields a larger sum |
| DBHelper.Restamp | HW_1/robots.py:47-51 | the `$addFields` stage keeps every document, in order, and replaces only its timestamp by the document's period; the timestamps afterwards are exactly the periods the documents fall in |
| DBHelper.GroupTotals | HW_1/robots.py:53-61 | grouping by a field yields exactly one total per distinct value, and no other totals; each total equals the filtered sum of its value's documents |
| DBHelper.SumFieldByPeriod | HW_1/robots.py:40-88 | the grouped sum by day or by week has one total for each period that some document falls in; each total is the period's summed amount, and a period with no total reads as 0 |
| DBHelper.EmptyPeriodTotal | HW_1/robots.py:56-59 | a period in which no document falls totals 0 |
| Clock.DayStart | HW_1/robots.py:125 | midnight of a timestamp's day is a whole number of days, at or before it, less than a day earlier, and on the same day |
| Clock.Weekday | HW_1/robots.py:136 | the weekday lies in 0..6 and is 0 (Monday) exactly on days 4, 11, 18, … counted from 1970-01-01, 1970-01-05 being a Monday |
| Clock.WeekdayNextDay | HW_1/robots.py:136 | one day later the weekday advances by one, wrapping from Sunday (6) to Monday (0) |
| Clock.WeekStart | HW_1/robots.py:135-136 | "today minus weekday days" is a midnight that falls on a Monday, at or before today, and less than a week earlier |
| Quota.RequiredAmountOfWater | HW_1/robots.py:123-131 | never negative; 0 exactly when today's liters reach `max_water`; otherwise today's liters plus the result equal `max_water`; at most `max_water` when amounts are non-negative; the full `max_water` when nothing was recorded today |
| Quota.NumberOfBranchesToCut | HW_1/robots.py:133-143 | the same clamp against `max_branches`, counted from Monday midnight |
| Quota.MoreWaterNeverRaisesRequirement | HW_1/robots.py:126-131 | recording one more non-negative water amount never increases the water still due |
| Quota.MoreCutsNeverRaiseRequirement | HW_1/robots.py:137-143 | recording one more non-negative cut never increases the branches still due |
| Quota.TodayAsWritten | HW_1/robots.py:125 | the "today" the source builds is midnight shifted by exactly the sub-second part of the current time, so it lies in the first second after midnight |
| Quota.MondayAsWritten | HW_1/robots.py:135-136 | the Monday the source derives is Monday midnight of the current week shifted by exactly the sub-second part of the current time |
| Quota.MoreWaterNeverRaisesRequirementAsWritten | HW_1/robots.py:125-131 | with the threshold as written too, recording one more non-negative water amount never increases the water still due |
| Quota.MoreCutsNeverRaiseRequirementAsWritten | HW_1/robots.py:135-143 | with the threshold as written too, recording one more non-negative cut never increases the branches still due |
| Quota.RequiredAmountOfWaterAsWritten | HW_1/robots.py:125-131 | the water quota as written: never negative; 0 exactly when the liters recorded from the shifted threshold reach `max_water`; otherwise those liters plus the result equal `max_water` |
| Quota.NumberOfBranchesToCutAsWritten | HW_1/robots.py:135-143 | the cut quota as written, with Monday derived from the shifted "today": never negative; 0 exactly when the branches from that threshold reach `max_branches`; otherwise those branches plus the result equal `max_branches` |
| Quota.AsWrittenNeverBelowCorrected | HW_1/robots.py:125-143 | over non-negative amounts, the quotas as written never ask for less than the midnight-based quotas: the shift can only hide documents |
| Quota.AsWrittenMissesEarlyWatering | HW_1/robots.py:125 | a full watering at 00:00:00.300 is not seen by the as-written quota at 00:00:00.800, so 2 liters are due again; the midnight threshold sees it and nothing is due |
| Quota.AsWrittenMissesEarlyCut | HW_1/robots.py:135-136 | a full week of cuts recorded at Monday 00:00:00.300 is not seen by the as-written quota at 00:00:00.800 that Monday; the Monday-midnight threshold sees it |
| OrderingAudit.InversionIds | HW_1/robots.py:153-155 | a document's id is flagged exactly when its timestamp is greater than its successor's in insertion order; only ids of the collection are returned, each once, in insertion order |
| OrderingAudit.CollectionOrderingErrors | HW_1/robots.py:150-155 | the same characterisation holds with the guard comparing the `_id`-sorted and timestamp-sorted listings: the guard never hides an inversion |
| OrderingAudit.OrderingErrors | HW_1/robots.py:147-157 | the result has one key per collection; each collection's flagged ids are exactly its inverted documents, are ids of that collection, and come in insertion order |
| OrderingAudit.TimeOrderedNothingFlagged | HW_1/robots.py:152-155 | a collection inserted in time order has nothing flagged, and the last document is never flagged |
| OrderingAudit.TimeSortedWalkEmpty | HW_1/robots.py:153-155 | the pairwise walk over a time-ordered sequence finds nothing |
| OrderingAudit.InvertedPairFlagsEarlierDocument | HW_1/robots.py:153-155 | for timestamps 10:00, 09:00, 11:00 in insertion order, only the 10:00 document is flagged |
| RangeAudit.SortByPeriod | HW_1/robots.py:167 | the sort returns the same totals (a permutation) in strictly increasing period order, with the same amount for every period |
| RangeAudit.FillGaps | HW_1/robots.py:168-175 | the existing totals stay first and unchanged; afterwards every period from the first to the last is present exactly once, and no other; each added period is a missing one with amount 0, and the added periods ascend |
| RangeAudit.OutOfRange | HW_1/robots.py:176-180 | a total is kept exactly when it occurs in the input and its amount is outside `[lo, hi]`; kept totals keep their relative order; unique periods stay unique |
| RangeAudit.RangeErrors | HW_1/robots.py:164-182 | fails exactly on empty input; otherwise reports each period once; a period is reported exactly when it lies between the first and last existing periods and its amount (0 if missing) is outside `[lo, hi]`; each report carries that amount; with `lo > 0` every missing period is reported; existing periods come first in ascending order, then missing ones in ascending order |
| RangeAudit.WaterErrors | HW_1/robots.py:159-182 | fails exactly when WaterJournal is empty; otherwise reports each day once; a day is reported exactly when it lies between the first and last watered days and its total liters are outside `[1, 2]`; every unwatered day in that span is reported; watered days come first in ascending order, then unwatered ones in ascending order |
| RangeAudit.CutErrors | HW_1/robots.py:184-203 | fails exactly when CutJournal is empty; otherwise reports each week once; a week is reported exactly when it lies between the first and last weeks with cuts and its total branches are outside `[4, 8]`; every week without cuts in that span is reported; weeks with cuts come first in ascending order, then weeks without in ascending order |
| CareJournal.InsertOne | HW_1/robots.py:121 | `insert_one` appends one document carrying the record's robot, time and amount, with the next id, and leaves the earlier documents unchanged |
| CareJournal.Update | HW_1/robots.py:116-121 | a cutting robot's record is appended to CutJournal only, and any other robot's to WaterJournal only; the other collection is unchanged, and a well-formed journal stays well formed |
| CareJournal.LastTenRecords | HW_1/robots.py:205-213 | an action other than "cut" or "water" is rejected; otherwise `min(10, n)` documents of the chosen collection are returned; with ids counting insertions these are exactly the documents with the ten largest ids, in decreasing id order |
| Robots.NewWaterRobot | HW_1/robots.py:218-222 | a new watering robot keeps the volume it was given and starts with an empty tank |
| Robots.SetTankVolume | HW_1/robots.py:228-236 | a volume `<= 0` is rejected with the robot unchanged; otherwise only the volume changes |
| Robots.RefillTank | HW_1/robots.py:242-243 | the level becomes the volume, and nothing else changes |
| Robots.WaterTree | HW_1/robots.py:245-263 | nothing due: robot and journal are unchanged. Enough water: the level drops by exactly the amount due, and one water document with that amount, robot and time is appended; CutJournal is unchanged. Otherwise: `NotEnoughWater(due, level)`, with nothing changed |
| Robots.CutBranches | HW_1/robots.py:269-280 | nothing due: the journal is unchanged; otherwise exactly one cut document carrying the full number due is appended, and WaterJournal is unchanged |
| Robots.WateringSatisfiesDay | HW_1/robots.py:245-256 | after a watering call that did not fail, a later call the same day finds nothing due |
| Robots.CuttingSatisfiesWeek | HW_1/robots.py:269-278 | after a cutting call, a later call the same week finds nothing due |
| Robots.RobotsKeepJournalValid | HW_1/robots.py:249-256 | both robots keep ids counting insertions and never record a negative amount |
| Robots.RefillRetrySucceeds | HW_1/watering_script.py:9-13 | a watering call that failed for lack of water goes through after one refill when the volume covers the amount due, and leaves `volume - due` in the tank |
| Robots.FreshRobotWatersAfterRefill | HW_1/watering_script.py:6-13 | a new 5-liter robot on an empty journal first fails with `NotEnoughWater(2, 0)`; after a refill it records one 2-liter document and keeps 3 liters |

## Left out

- The MongoDB client, the `Journal` constructor's database handles and `list_collection_names`: collections are sequences, and the ordering audit takes a map from collection name to its two listings.
- The `$sort` stages of the two grouping pipelines: they sort on fields the grouped documents do not have, and the Python code sorts again anyway.
- `$dateToParts` time zones and `$week` numbering, including how it restarts at the turn of the year. Days are `timestamp / 86 400 000` on the stored clock, and weeks are the parameter `weekOf`.
- `datetime.today()` and `datetime.now()`: the current time is the parameter `now`, shared by the quota check and the document it writes.
- Printing and message formatting in `print_last_10_records`, `water_tree` and `cut_branches`. The "nothing to do" branches are modelled as returning the unchanged state.
- The `isinstance` checks of the volume setter: Dafny's types already exclude non-numbers.
- Floating-point rounding: amounts are exact reals.
- Concurrent robots racing between the quota check and the insert. Every step here is one sequential call.
- `HW_1/cutting_script.py` is only construction and one call. Of `HW_1/watering_script.py` only the refill-and-retry is modelled (`Robots.RefillRetrySucceeds`).
- Robots.WaterTree: asks `Quota.RequiredAmountOfWater`, which counts from midnight. The source's shifted threshold is `Quota.RequiredAmountOfWaterAsWritten` (see "## Findings").
- Robots.CutBranches: asks `Quota.NumberOfBranchesToCut`, which counts from Monday midnight. The source's shifted threshold is `Quota.NumberOfBranchesToCutAsWritten` (see "## Findings").
- Quota.RequiredAmountOfWater: uses the midnight threshold, not the source's shifted one, which `Quota.RequiredAmountOfWaterAsWritten` models.
- Quota.NumberOfBranchesToCut: uses the Monday-midnight threshold, not the source's shifted one, which `Quota.NumberOfBranchesToCutAsWritten` models.

## Findings

| source | as written | input that shows it | evidently intended | confidence | as-written member | corrected member |
|---|---|---|---|---|---|---|
| HW_1/robots.py:125 | `datetime.today().replace(hour=0, minute=0, second=0)` keeps the microseconds. The water threshold is therefore midnight plus the current sub-second part, not midnight. | 2 liters recorded at 00:00:00.300; the quota checked at 00:00:00.800 the same day does not count them and asks for 2 liters again | count every document from midnight | not executed | Quota.RequiredAmountOfWaterAsWritten (counterexample Quota.AsWrittenMissesEarlyWatering) | Quota.RequiredAmountOfWater (Robots.WateringSatisfiesDay) |
| HW_1/robots.py:135-136 | Monday is derived from the same sub-second-shifted "today", so the weekly threshold is Monday midnight plus the current sub-second part | 8 branches recorded at Monday 00:00:00.300; the quota checked at 00:00:00.800 that Monday asks for 8 more | count every document from Monday midnight | not executed | Quota.NumberOfBranchesToCutAsWritten (counterexample Quota.AsWrittenMissesEarlyCut) | Quota.NumberOfBranchesToCut (Robots.CuttingSatisfiesWeek) |
