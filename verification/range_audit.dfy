/** `get_water_errors` and `get_cut_errors`: the per-period totals are
    sorted, the periods missing between the first and the last are added
    with amount 0, and every period whose amount lies outside the allowed
    range is reported. */
module RangeAudit {
  import opened Records
  import opened Clock
  import opened DBHelper
  import opened CareJournal

  /** Both audits index the first total, which fails on an empty
      collection; that failure is returned as an error. */
  datatype AuditError = InsufficientData

  predicate StrictlySorted(ts: seq<Total>)
  {
    forall i, j :: 0 <= i < j < |ts| ==> ts[i].period < ts[j].period
  }

  /** Some period of `ps` lies at or before `d` and some at or after it. */
  predicate Spans(ps: set<int>, d: int)
  {
    exists a, b :: a in ps && b in ps && a <= d <= b
  }

  /** The order of an audit report: every period that has a total comes
      before every synthesized one, and within each kind periods ascend.
      `known` is the set of periods that have a total. */
  predicate ReportOrder(ts: seq<Total>, known: set<int>)
  {
    forall k, l :: 0 <= k < l < |ts| ==>
      if ts[k].period in known then ts[l].period !in known || ts[k].period < ts[l].period
      else ts[l].period !in known && ts[k].period < ts[l].period
  }

  /** `x` occurs in `ts` before an occurrence of `y`. */
  predicate OccursBefore(ts: seq<Total>, x: Total, y: Total)
  {
    exists i, j :: 0 <= i < j < |ts| && x == ts[i] && y == ts[j]
  }

  /** Any two elements of `r` appear in `ts` in the same relative order:
      `r` keeps the order of `ts`. */
  predicate KeepsOrder(r: seq<Total>, ts: seq<Total>)
  {
    forall k, l :: 0 <= k < l < |r| ==> OccursBefore(ts, r[k], r[l])
  }

  lemma SortedCons(x: Total, rest: seq<Total>)
    requires StrictlySorted(rest)
    requires |rest| > 0 ==> x.period < rest[0].period
    ensures StrictlySorted([x] + rest)
  {
  }

  /** One total put into its place in a sorted sequence. */
  function Insert(t: Total, ts: seq<Total>): (r: seq<Total>)
    requires StrictlySorted(ts)
    requires forall i :: 0 <= i < |ts| ==> ts[i].period != t.period
    ensures StrictlySorted(r)
    ensures |r| > 0 && (r[0] == t || (|ts| > 0 && r[0] == ts[0]))
    ensures multiset(r) == multiset(ts) + multiset{t}
    ensures forall p :: AmountAt(r, p) == if p == t.period then t.amount else AmountAt(ts, p)
  {
    if |ts| == 0 then
      [t]
    else if t.period < ts[0].period then
      SortedCons(t, ts);
      [t] + ts
    else
      var rest := Insert(t, ts[1..]);
      InsertBehind(t, ts, rest);
      [ts[0]] + rest
  }

  /** The recursive step of `Insert`: a total that belongs behind the first
      one is inserted into the tail. */
  lemma InsertBehind(t: Total, ts: seq<Total>, rest: seq<Total>)
    requires |ts| > 0 && StrictlySorted(ts) && ts[0].period < t.period
    requires StrictlySorted(rest)
    requires |rest| > 0 && (rest[0] == t || (|ts| > 1 && rest[0] == ts[1]))
    requires multiset(rest) == multiset(ts[1..]) + multiset{t}
    requires forall p :: AmountAt(rest, p) == if p == t.period then t.amount else AmountAt(ts[1..], p)
    ensures StrictlySorted([ts[0]] + rest)
    ensures multiset([ts[0]] + rest) == multiset(ts) + multiset{t}
    ensures forall p :: AmountAt([ts[0]] + rest, p)
                        == if p == t.period then t.amount else AmountAt(ts, p)
  {
    assert ts == [ts[0]] + ts[1..];
    SortedCons(ts[0], rest);
    forall p ensures AmountAt([ts[0]] + rest, p)
                     == if p == t.period then t.amount else AmountAt(ts, p)
    {
      assert ([ts[0]] + rest)[1..] == rest;
    }
  }

  /** `sorted(existing_data, key=...)`: the totals in increasing period
      order, the same totals and nothing else. */
  function SortByPeriod(ts: seq<Total>): (r: seq<Total>)
    requires UniquePeriods(ts)
    ensures StrictlySorted(r)
    ensures multiset(r) == multiset(ts)
    ensures Periods(r) == Periods(ts)
    ensures forall p :: AmountAt(r, p) == AmountAt(ts, p)
  {
    if |ts| == 0 then []
    else
      assert ts == [ts[0]] + ts[1..];
      UniqueCons(ts);
      var sorted := SortByPeriod(ts[1..]);
      assert forall i :: 0 <= i < |sorted| ==> sorted[i].period in Periods(sorted);
      var r := Insert(ts[0], sorted);
      PeriodsOfPermutation(r, ts);
      r
  }

  /** The gap-filling loop: for every offset `i` in `range(stop - start)`
      the period `start + i` is appended with amount 0 unless a total
      already has it. The last period is never reached by the loop, but it
      is the period of the last total, so every period from the first to
      the last ends up present exactly once. */
  method FillGaps(sorted: seq<Total>) returns (filled: seq<Total>)
    requires |sorted| > 0 && StrictlySorted(sorted)
    ensures |filled| >= |sorted| && filled[..|sorted|] == sorted
    ensures UniquePeriods(filled)
    ensures forall d :: d in Periods(filled) <==> sorted[0].period <= d <= sorted[|sorted| - 1].period
    ensures forall k :: |sorted| <= k < |filled| ==>
              filled[k].amount == 0.0 && filled[k].period !in Periods(sorted)
    ensures forall k, l :: |sorted| <= k < l < |filled| ==> filled[k].period < filled[l].period
  {
    var start := sorted[0].period;
    var stop := sorted[|sorted| - 1].period;
    var existing := Periods(sorted);
    assert forall d :: d in existing ==> start <= d <= stop;
    filled := sorted;
    for i := 0 to stop - start
      invariant |filled| >= |sorted| && filled[..|sorted|] == sorted
      invariant UniquePeriods(filled)
      invariant forall k :: |sorted| <= k < |filled| ==>
                  filled[k].amount == 0.0 && filled[k].period !in existing
                  && start <= filled[k].period < start + i
      invariant forall k, l :: |sorted| <= k < l < |filled| ==> filled[k].period < filled[l].period
      invariant forall d :: start <= d < start + i ==> d in Periods(filled)
      invariant forall d :: d in Periods(filled) ==> d in existing || start <= d < start + i
    {
      var next := start + i;
      if next !in existing {
        PeriodsSnoc(filled, Total(next, 0.0));
        forall k | 0 <= k < |filled| ensures filled[k].period != next {
          if k < |sorted| {
            assert filled[k] == sorted[k];
          }
        }
        filled := filled + [Total(next, 0.0)];
      }
    }
    assert stop in existing;
  }

  /** The list comprehension keeping the totals whose amount lies outside
      `[lo, hi]`. */
  function OutOfRange(ts: seq<Total>, lo: real, hi: real): (r: seq<Total>)
    ensures forall t :: t in r <==> t in ts && !InRange(t.amount, lo, hi)
    ensures UniquePeriods(ts) ==> UniquePeriods(r)
    ensures KeepsOrder(r, ts)
  {
    if |ts| == 0 then []
    else
      var rest := OutOfRange(ts[1..], lo, hi);
      assert ts == [ts[0]] + ts[1..];
      var head := if InRange(ts[0].amount, lo, hi) then [] else [ts[0]];
      UniqueSelectionCons(ts, head, rest);
      KeepsOrderCons(ts, head, rest);
      head + rest
  }

  /** Putting the first element, or nothing, in front of a selection of the
      tail keeps periods unique when the whole has unique periods. */
  lemma UniqueSelectionCons(ts: seq<Total>, head: seq<Total>, rest: seq<Total>)
    requires |ts| > 0
    requires head == [] || head == [ts[0]]
    requires UniquePeriods(ts[1..]) ==> UniquePeriods(rest)
    requires forall t :: t in rest ==> t in ts[1..]
    ensures UniquePeriods(ts) ==> UniquePeriods(head + rest)
  {
    if UniquePeriods(ts) {
      UniqueCons(ts);
      assert ts == [ts[0]] + ts[1..];
      forall t | t in rest ensures t.period != ts[0].period {
        var i :| 0 <= i < |ts[1..]| && ts[1..][i] == t;
        assert ts[i + 1] == t;
      }
      forall k, l | 0 <= k < l < |head + rest|
        ensures (head + rest)[k].period != (head + rest)[l].period
      {
        if k < |head| {
          assert (head + rest)[l] in rest;
        } else {
          assert (head + rest)[k] == rest[k - |head|];
          assert (head + rest)[l] == rest[l - |head|];
        }
      }
    }
  }

  /** Putting the first element, or nothing, in front of an order-keeping
      selection of the tail keeps the order of the whole. */
  lemma KeepsOrderCons(ts: seq<Total>, head: seq<Total>, rest: seq<Total>)
    requires |ts| > 0
    requires head == [] || head == [ts[0]]
    requires KeepsOrder(rest, ts[1..])
    requires forall t :: t in rest ==> t in ts[1..]
    ensures KeepsOrder(head + rest, ts)
  {
    var tail := ts[1..];
    var r := head + rest;
    forall k, l | 0 <= k < l < |r|
      ensures OccursBefore(ts, r[k], r[l])
    {
      if k < |head| {
        assert r[l] == rest[l - |head|];
        assert r[l] in tail;
        var j :| 0 <= j < |tail| && tail[j] == r[l];
        assert r[k] == ts[0] && r[l] == ts[j + 1];
      } else {
        assert r[k] == rest[k - |head|] && r[l] == rest[l - |head|];
        var i, j :| 0 <= i < j < |tail| && rest[k - |head|] == tail[i] && rest[l - |head|] == tail[j];
        assert r[k] == ts[i + 1] && r[l] == ts[j + 1];
      }
    }
  }

  /** An order-keeping selection of a report in `ReportOrder` is in
      `ReportOrder` too. */
  lemma ReportOrderKept(r: seq<Total>, ts: seq<Total>, known: set<int>)
    requires KeepsOrder(r, ts)
    requires ReportOrder(ts, known)
    ensures ReportOrder(r, known)
  {
    forall k, l | 0 <= k < l < |r|
      ensures if r[k].period in known then r[l].period !in known || r[k].period < r[l].period
              else r[l].period !in known && r[k].period < r[l].period
    {
      var i, j :| 0 <= i < j < |ts| && r[k] == ts[i] && r[l] == ts[j];
    }
  }

  /** The filled totals list the existing periods in ascending order and
      then the synthesized ones in ascending order. */
  lemma FilledOrder(sorted: seq<Total>, filled: seq<Total>)
    requires StrictlySorted(sorted)
    requires |filled| >= |sorted| && filled[..|sorted|] == sorted
    requires forall k :: |sorted| <= k < |filled| ==> filled[k].period !in Periods(sorted)
    requires forall k, l :: |sorted| <= k < l < |filled| ==> filled[k].period < filled[l].period
    ensures ReportOrder(filled, Periods(sorted))
  {
    forall k, l | 0 <= k < l < |filled|
      ensures if filled[k].period in Periods(sorted)
              then filled[l].period !in Periods(sorted) || filled[k].period < filled[l].period
              else filled[l].period !in Periods(sorted) && filled[k].period < filled[l].period
    {
      if l < |sorted| {
        assert filled[k] == sorted[k] && filled[l] == sorted[l];
      } else if k < |sorted| {
        assert filled[k] == sorted[k];
      }
    }
  }

  /** The audit shared by both range checks. On an empty input it fails;
      otherwise it reports exactly the periods from the first to the last
      whose amount, 0 for a missing period, lies outside `[lo, hi]`, each
      once and with its amount. */
  method RangeErrors(totals: seq<Total>, lo: real, hi: real)
    returns (r: Result<seq<Total>, AuditError>)
    requires UniquePeriods(totals)
    ensures r.Failure? <==> |totals| == 0
    ensures r.Failure? ==> r.error == InsufficientData
    ensures r.Success? ==> UniquePeriods(r.value)
    ensures r.Success? ==>
              forall d :: d in Periods(r.value)
                <==> Spans(Periods(totals), d) && !InRange(AmountAt(totals, d), lo, hi)
    ensures r.Success? ==>
              forall k :: 0 <= k < |r.value| ==> r.value[k].amount == AmountAt(totals, r.value[k].period)
    ensures r.Success? && lo > 0.0 ==>
              forall d :: Spans(Periods(totals), d) && d !in Periods(totals) ==> d in Periods(r.value)
    ensures r.Success? ==> ReportOrder(r.value, Periods(totals))
  {
    if |totals| == 0 {
      return Failure(InsufficientData);
    }
    var sorted := SortByPeriod(totals);
    var filled := FillGaps(sorted);
    var errors := OutOfRange(filled, lo, hi);
    FilledAmounts(totals, sorted, filled);
    SpanIsRange(totals, sorted);
    ErrorsArePeriodsOutOfRange(totals, filled, errors, lo, hi);
    GapsFlagged(totals, errors, lo, hi);
    FilledOrder(sorted, filled);
    ReportOrderKept(errors, filled, Periods(sorted));
    return Success(errors);
  }

  /** With a positive lower bound, a spanned period without a total reads
      as 0 and is reported. */
  lemma GapsFlagged(totals: seq<Total>, errors: seq<Total>, lo: real, hi: real)
    requires forall d :: d in Periods(errors)
                         <==> Spans(Periods(totals), d) && !InRange(AmountAt(totals, d), lo, hi)
    ensures lo > 0.0 ==>
              forall d :: Spans(Periods(totals), d) && d !in Periods(totals) ==> d in Periods(errors)
  {
    forall d | Spans(Periods(totals), d) && d !in Periods(totals) && lo > 0.0
      ensures d in Periods(errors)
    {
      AmountAtAbsent(totals, d);
    }
  }

  /** After gap filling every period reads the amount the input gives it
      (0 for a synthesized one). */
  lemma FilledAmounts(totals: seq<Total>, sorted: seq<Total>, filled: seq<Total>)
    requires forall p :: AmountAt(sorted, p) == AmountAt(totals, p)
    requires Periods(sorted) == Periods(totals)
    requires |filled| >= |sorted| && filled[..|sorted|] == sorted
    requires forall k :: |sorted| <= k < |filled| ==> filled[k].amount == 0.0
    ensures forall d :: AmountAt(filled, d) == AmountAt(totals, d)
  {
    var gaps := filled[|sorted|..];
    assert filled == sorted + gaps;
    forall d ensures AmountAt(filled, d) == AmountAt(totals, d) {
      AmountAtAppend(sorted, gaps, d);
      if d !in Periods(sorted) {
        ZeroAmounts(gaps, d);
        AmountAtAbsent(totals, d);
      }
    }
  }

  /** The periods spanned by the input are those from the first to the last
      of its sorted totals. */
  lemma SpanIsRange(totals: seq<Total>, sorted: seq<Total>)
    requires |sorted| > 0 && StrictlySorted(sorted)
    requires Periods(sorted) == Periods(totals)
    ensures forall d :: Spans(Periods(totals), d)
                        <==> sorted[0].period <= d <= sorted[|sorted| - 1].period
  {
    var start := sorted[0].period;
    var stop := sorted[|sorted| - 1].period;
    assert start in Periods(sorted) && stop in Periods(sorted);
    forall d | Spans(Periods(totals), d) ensures start <= d <= stop {
      var a, b :| a in Periods(sorted) && b in Periods(sorted) && a <= d <= b;
    }
  }

  /** The filter applied to the filled totals reports each period whose
      amount is out of range, and nothing else. */
  lemma ErrorsArePeriodsOutOfRange(totals: seq<Total>, filled: seq<Total>, errors: seq<Total>,
                                   lo: real, hi: real)
    requires UniquePeriods(filled)
    requires forall d :: AmountAt(filled, d) == AmountAt(totals, d)
    requires forall t :: t in errors <==> t in filled && !InRange(t.amount, lo, hi)
    ensures forall d :: d in Periods(errors)
                        <==> d in Periods(filled) && !InRange(AmountAt(totals, d), lo, hi)
    ensures forall k :: 0 <= k < |errors| ==> errors[k].amount == AmountAt(totals, errors[k].period)
  {
    forall d ensures d in Periods(errors)
                     <==> d in Periods(filled) && !InRange(AmountAt(totals, d), lo, hi)
    {
      if d in Periods(errors) {
        var k :| 0 <= k < |errors| && errors[k].period == d;
        assert errors[k] in errors;
        MemberAmount(filled, errors[k]);
      }
      if d in Periods(filled) && !InRange(AmountAt(totals, d), lo, hi) {
        var k :| 0 <= k < |filled| && filled[k].period == d;
        AmountAtMember(filled, k);
        assert filled[k] in errors;
        var m :| 0 <= m < |errors| && errors[m] == filled[k];
      }
    }
    forall k | 0 <= k < |errors|
      ensures errors[k].amount == AmountAt(totals, errors[k].period)
    {
      assert errors[k] in errors;
      MemberAmount(filled, errors[k]);
    }
  }

  /** Totals that all carry amount 0 read as 0 for every period. */
  lemma {:induction false} ZeroAmounts(ts: seq<Total>, p: int)
    requires forall k :: 0 <= k < |ts| ==> ts[k].amount == 0.0
    ensures AmountAt(ts, p) == 0.0
  {
    if |ts| > 0 {
      ZeroAmounts(ts[1..], p);
    }
  }

  /** `get_water_errors`: the water audit by calendar day against
      `[min_water, max_water]`. A day between the first and the last watered
      day is reported exactly when its total is outside the range; a day
      with no watering totals 0 and is always reported. */
  method WaterErrors(j: Journal) returns (r: Result<seq<Total>, AuditError>)
    ensures r.Failure? <==> |j.water| == 0
    ensures r.Success? ==> UniquePeriods(r.value)
    ensures r.Success? ==>
              forall d :: d in Periods(r.value)
                <==> Spans(PeriodsOf(j.water, DayNumber), d)
                     && !InRange(PeriodTotal(j.water, DayNumber, d), MinWater, MaxWater)
    ensures r.Success? ==>
              forall k :: 0 <= k < |r.value| ==>
                r.value[k].amount == PeriodTotal(j.water, DayNumber, r.value[k].period)
    ensures r.Success? ==>
              forall d :: Spans(PeriodsOf(j.water, DayNumber), d) && d !in PeriodsOf(j.water, DayNumber)
                ==> d in Periods(r.value)
    ensures r.Success? ==> ReportOrder(r.value, PeriodsOf(j.water, DayNumber))
  {
    var daily := SumFieldByPeriod(j.water, DayNumber);
    NoTotalsOnlyWhenEmpty(j.water, DayNumber, daily);
    r := RangeErrors(daily, MinWater, MaxWater);
  }

  /** `get_cut_errors`: the cut audit by week number against
      `[min_branches, max_branches]`, with `weekOf` the database's week
      numbering. */
  method CutErrors(j: Journal, weekOf: int -> int) returns (r: Result<seq<Total>, AuditError>)
    ensures r.Failure? <==> |j.cut| == 0
    ensures r.Success? ==> UniquePeriods(r.value)
    ensures r.Success? ==>
              forall w :: w in Periods(r.value)
                <==> Spans(PeriodsOf(j.cut, weekOf), w)
                     && !InRange(PeriodTotal(j.cut, weekOf, w), MinBranches, MaxBranches)
    ensures r.Success? ==>
              forall k :: 0 <= k < |r.value| ==>
                r.value[k].amount == PeriodTotal(j.cut, weekOf, r.value[k].period)
    ensures r.Success? ==>
              forall w :: Spans(PeriodsOf(j.cut, weekOf), w) && w !in PeriodsOf(j.cut, weekOf)
                ==> w in Periods(r.value)
    ensures r.Success? ==> ReportOrder(r.value, PeriodsOf(j.cut, weekOf))
  {
    var weekly := SumFieldByPeriod(j.cut, weekOf);
    NoTotalsOnlyWhenEmpty(j.cut, weekOf, weekly);
    r := RangeErrors(weekly, MinBranches, MaxBranches);
  }

  lemma NoTotalsOnlyWhenEmpty(s: seq<Entry>, periodOf: int -> int, totals: seq<Total>)
    requires Periods(totals) == PeriodsOf(s, periodOf)
    ensures |totals| == 0 <==> |s| == 0
  {
    if |s| > 0 {
      assert periodOf(s[0].timestamp) in PeriodsOf(s, periodOf);
    }
    if |totals| > 0 {
      assert totals[0].period in Periods(totals);
    }
  }
}
