/** The two aggregation pipelines of `DBHelper`, stated over a collection
    seen as the sequence of its documents: a filtered sum
    (`sum_by_field_value`) and a grouped sum (`sum_field_by_date`,
    `sum_field_by_week`). */
module DBHelper {
  import opened Records

  /** The `$match` condition on the timestamp field: equality when no
      operator is passed, `$gte` for the operator the journal passes. */
  datatype Condition = Equal(value: int) | AtLeast(value: int)

  predicate Matches(c: Condition, t: int)
  {
    match c
    case Equal(v) => t == v
    case AtLeast(v) => t >= v
  }

  /** `$match` then `$group` with `$sum` over `amount`; the pipeline returns
      no group when nothing matches, and that case reads as 0 rather than an
      error. */
  function SumByFieldValue(s: seq<Entry>, c: Condition): (r: real)
    ensures NonNegativeAmounts(s) ==> r >= 0.0
    ensures (forall i :: 0 <= i < |s| ==> !Matches(c, s[i].timestamp)) ==> r == 0.0
  {
    if |s| == 0 then 0.0
    else
      SumByFieldValue(s[..|s| - 1], c)
      + (if Matches(c, s[|s| - 1].timestamp) then s[|s| - 1].amount else 0.0)
  }

  /** Inserting one more document adds its amount when it matches and
      nothing otherwise. */
  lemma SumAppend(s: seq<Entry>, e: Entry, c: Condition)
    ensures SumByFieldValue(s + [e], c)
         == SumByFieldValue(s, c) + (if Matches(c, e.timestamp) then e.amount else 0.0)
  {
  }

  /** Over non-negative amounts, raising the `$gte` threshold never raises
      the sum: a later threshold matches a subset of the documents. */
  lemma {:induction false} SumThresholdMonotone(s: seq<Entry>, lo: int, hi: int)
    requires NonNegativeAmounts(s)
    requires lo <= hi
    ensures SumByFieldValue(s, AtLeast(hi)) <= SumByFieldValue(s, AtLeast(lo))
  {
    if |s| > 0 {
      SumThresholdMonotone(s[..|s| - 1], lo, hi);
    }
  }

  /** The `$addFields` stage: every document's timestamp replaced by its
      period (day or week number). */
  function Restamp(s: seq<Entry>, periodOf: int -> int): (r: seq<Entry>)
    ensures |r| == |s|
    ensures forall i :: 0 <= i < |s| ==>
              r[i] == s[i].(timestamp := periodOf(s[i].timestamp))
    ensures Stamps(r) == PeriodsOf(s, periodOf)
  {
    var r := seq(|s|, i requires 0 <= i < |s| => s[i].(timestamp := periodOf(s[i].timestamp)));
    assert Stamps(r) == PeriodsOf(s, periodOf) by {
      forall p | p in PeriodsOf(s, periodOf) ensures p in Stamps(r) {
        var i :| 0 <= i < |s| && periodOf(s[i].timestamp) == p;
        assert r[i].timestamp == p;
      }
    }
    r
  }

  /** The periods some document of `s` falls in. */
  function PeriodsOf(s: seq<Entry>, periodOf: int -> int): set<int>
  {
    set i | 0 <= i < |s| :: periodOf(s[i].timestamp)
  }

  /** The summed amount of the documents of `s` in period `p`. */
  function PeriodTotal(s: seq<Entry>, periodOf: int -> int, p: int): real
  {
    SumByFieldValue(Restamp(s, periodOf), Equal(p))
  }

  function Stamps(s: seq<Entry>): set<int>
  {
    set i | 0 <= i < |s| :: s[i].timestamp
  }

  function Periods(ts: seq<Total>): set<int>
  {
    set i | 0 <= i < |ts| :: ts[i].period
  }

  predicate UniquePeriods(ts: seq<Total>)
  {
    forall i, j :: 0 <= i < j < |ts| ==> ts[i].period != ts[j].period
  }

  /** The amount recorded for period `p`, or 0 when no total has that
      period. */
  function AmountAt(ts: seq<Total>, p: int): real
  {
    if |ts| == 0 then 0.0
    else if ts[0].period == p then ts[0].amount
    else AmountAt(ts[1..], p)
  }

  lemma PeriodsCons(t: Total, ts: seq<Total>)
    ensures Periods([t] + ts) == {t.period} + Periods(ts)
  {
    var s := [t] + ts;
    forall p | p in Periods(s) ensures p in {t.period} + Periods(ts) {
      var i :| 0 <= i < |s| && s[i].period == p;
      if i > 0 {
        assert ts[i - 1].period == p;
      }
    }
    forall p | p in Periods(ts) ensures p in Periods(s) {
      var i :| 0 <= i < |ts| && ts[i].period == p;
      assert s[i + 1].period == p;
    }
    assert s[0].period == t.period;
  }

  lemma PeriodsSnoc(ts: seq<Total>, t: Total)
    ensures Periods(ts + [t]) == Periods(ts) + {t.period}
  {
    var s := ts + [t];
    forall p | p in Periods(s) ensures p in Periods(ts) + {t.period} {
      var i :| 0 <= i < |s| && s[i].period == p;
      if i < |ts| {
        assert ts[i].period == p;
      }
    }
    forall p | p in Periods(ts) ensures p in Periods(s) {
      var i :| 0 <= i < |ts| && ts[i].period == p;
      assert s[i].period == p;
    }
    assert s[|ts|].period == t.period;
  }

  /** The first total's period does not recur, and the rest keep their
      periods unique. */
  lemma UniqueCons(ts: seq<Total>)
    requires UniquePeriods(ts) && |ts| > 0
    ensures ts[0].period !in Periods(ts[1..])
    ensures UniquePeriods(ts[1..])
  {
  }

  /** Rearranging totals keeps the set of their periods. */
  lemma PeriodsOfPermutation(a: seq<Total>, b: seq<Total>)
    requires multiset(a) == multiset(b)
    ensures Periods(a) == Periods(b)
  {
    forall p | p in Periods(a) ensures p in Periods(b) {
      var i :| 0 <= i < |a| && a[i].period == p;
      assert a[i] in multiset(b);
      var j :| 0 <= j < |b| && b[j] == a[i];
    }
    forall p | p in Periods(b) ensures p in Periods(a) {
      var i :| 0 <= i < |b| && b[i].period == p;
      assert b[i] in multiset(a);
      var j :| 0 <= j < |a| && a[j] == b[i];
    }
  }

  /** With unique periods, the amount looked up for a total's own period is
      that total's amount. */
  lemma {:induction false} AmountAtMember(ts: seq<Total>, i: int)
    requires UniquePeriods(ts)
    requires 0 <= i < |ts|
    ensures AmountAt(ts, ts[i].period) == ts[i].amount
  {
    if i > 0 {
      AmountAtMember(ts[1..], i - 1);
    }
  }

  /** A total that occurs in a sequence with unique periods is what the
      lookup of its period finds. */
  lemma MemberAmount(ts: seq<Total>, t: Total)
    requires UniquePeriods(ts) && t in ts
    ensures t.period in Periods(ts)
    ensures AmountAt(ts, t.period) == t.amount
  {
  }

  /** Looking a period up in `a + b` finds it in `a` when `a` has it and in
      `b` otherwise. */
  lemma {:induction false} AmountAtAppend(a: seq<Total>, b: seq<Total>, p: int)
    ensures AmountAt(a + b, p) == if p in Periods(a) then AmountAt(a, p) else AmountAt(b, p)
  {
    if |a| == 0 {
      assert a + b == b;
    } else {
      assert (a + b)[1..] == a[1..] + b;
      PeriodsCons(a[0], a[1..]);
      assert a == [a[0]] + a[1..];
      AmountAtAppend(a[1..], b, p);
    }
  }

  /** A period no total has reads as 0. */
  lemma {:induction false} AmountAtAbsent(ts: seq<Total>, p: int)
    requires p !in Periods(ts)
    ensures AmountAt(ts, p) == 0.0
  {
    if |ts| > 0 {
      PeriodsCons(ts[0], ts[1..]);
      assert ts == [ts[0]] + ts[1..];
      AmountAtAbsent(ts[1..], p);
    }
  }

  /** One document folded into the groups built so far: its period's total
      grows by its amount, or a new group is opened. */
  function AddToGroup(ts: seq<Total>, e: Entry): (r: seq<Total>)
    requires UniquePeriods(ts)
    ensures UniquePeriods(r)
    ensures Periods(r) == Periods(ts) + {e.timestamp}
    ensures forall p :: AmountAt(r, p)
                     == AmountAt(ts, p) + (if p == e.timestamp then e.amount else 0.0)
    decreases |ts|
  {
    if |ts| == 0 then
      PeriodsCons(Total(e.timestamp, e.amount), ts);
      assert [Total(e.timestamp, e.amount)] + ts == [Total(e.timestamp, e.amount)];
      [Total(e.timestamp, e.amount)]
    else if ts[0].period == e.timestamp then
      PeriodsCons(ts[0], ts[1..]);
      assert ts == [ts[0]] + ts[1..];
      PeriodsCons(Total(ts[0].period, ts[0].amount + e.amount), ts[1..]);
      [Total(ts[0].period, ts[0].amount + e.amount)] + ts[1..]
    else
      var rest := AddToGroup(ts[1..], e);
      PeriodsCons(ts[0], ts[1..]);
      assert ts == [ts[0]] + ts[1..];
      PeriodsCons(ts[0], rest);
      assert forall j :: 0 <= j < |rest| ==> rest[j].period in Periods(rest);
      [ts[0]] + rest
  }

  /** The `$group` stage keyed by the timestamp field: one total per
      distinct value, holding the sum of that value's documents. */
  function GroupTotals(s: seq<Entry>): (r: seq<Total>)
    ensures UniquePeriods(r)
    ensures Periods(r) == Stamps(s)
    ensures forall p :: AmountAt(r, p) == SumByFieldValue(s, Equal(p))
  {
    if |s| == 0 then []
    else
      var prefix := s[..|s| - 1];
      var last := s[|s| - 1];
      assert Stamps(s) == Stamps(prefix) + {last.timestamp} by {
        assert forall i :: 0 <= i < |prefix| ==> prefix[i] == s[i];
        assert s[|s| - 1] == last;
      }
      AddToGroup(GroupTotals(prefix), last)
  }

  /** `sum_field_by_date` / `sum_field_by_week`: the documents grouped by
      period with their summed amounts. */
  function SumFieldByPeriod(s: seq<Entry>, periodOf: int -> int): (r: seq<Total>)
    ensures UniquePeriods(r)
    ensures Periods(r) == PeriodsOf(s, periodOf)
    ensures forall p :: AmountAt(r, p) == PeriodTotal(s, periodOf, p)
  {
    GroupTotals(Restamp(s, periodOf))
  }

  /** A period in which no document falls totals 0. */
  lemma EmptyPeriodTotal(s: seq<Entry>, periodOf: int -> int, p: int)
    requires p !in PeriodsOf(s, periodOf)
    ensures PeriodTotal(s, periodOf, p) == 0.0
  {
  }
}
