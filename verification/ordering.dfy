/** `get_ordering_errors`: documents whose timestamp is later than that of
    the document inserted right after them. */
module OrderingAudit {
  import opened Records

  /** The two listings the audit fetches for one collection:
      `find().sort("_id", 1)` and `find().sort("timestamp", 1)`. */
  datatype Listing = Listing(byId: seq<Entry>, byTime: seq<Entry>)

  predicate IdsIncreasing(s: seq<Entry>)
  {
    forall i, j :: 0 <= i < j < |s| ==> s[i].id < s[j].id
  }

  predicate TimeSorted(s: seq<Entry>)
  {
    forall i, j :: 0 <= i < j < |s| ==> s[i].timestamp <= s[j].timestamp
  }

  predicate IdsStrictlyIncreasing(ids: seq<int>)
  {
    forall k, l :: 0 <= k < l < |ids| ==> ids[k] < ids[l]
  }

  function IdSet(s: seq<Entry>): set<int>
  {
    set i | 0 <= i < |s| :: s[i].id
  }

  /** The document at position `i` is later than its successor. */
  predicate Inverted(s: seq<Entry>, i: int)
  {
    0 <= i < |s| - 1 && s[i].timestamp > s[i + 1].timestamp
  }

  lemma IdSetCons(s: seq<Entry>)
    requires |s| > 0
    ensures IdSet(s) == {s[0].id} + IdSet(s[1..])
  {
  }

  /** The walk over consecutive pairs in insertion order, collecting the id
      of the first document of every inverted pair. */
  function InversionIds(s: seq<Entry>): (r: seq<int>)
    requires IdsIncreasing(s)
    ensures forall i :: 0 <= i < |s| ==> (s[i].id in r <==> Inverted(s, i))
    ensures forall x :: x in r ==> x in IdSet(s)
    ensures IdsStrictlyIncreasing(r)
  {
    if |s| < 2 then []
    else
      var rest := InversionIds(s[1..]);
      var head := if s[0].timestamp > s[1].timestamp then [s[0].id] else [];
      WalkStep(s, head, rest);
      head + rest
  }

  /** Every id the walk over `s[1..]` returns is larger than `s[0].id`. */
  lemma RestAboveHead(s: seq<Entry>, rest: seq<int>)
    requires |s| >= 2 && IdsIncreasing(s)
    requires forall x :: x in rest ==> x in IdSet(s[1..])
    ensures forall x :: x in rest ==> x > s[0].id
  {
  }

  /** One step of the walk: the verdict on the first pair put in front of
      the verdicts on the rest. */
  lemma WalkStep(s: seq<Entry>, head: seq<int>, rest: seq<int>)
    requires |s| >= 2 && IdsIncreasing(s)
    requires head == if s[0].timestamp > s[1].timestamp then [s[0].id] else []
    requires forall i :: 0 <= i < |s| - 1 ==> (s[1..][i].id in rest <==> Inverted(s[1..], i))
    requires forall x :: x in rest ==> x in IdSet(s[1..])
    requires IdsStrictlyIncreasing(rest)
    ensures forall i :: 0 <= i < |s| ==> (s[i].id in head + rest <==> Inverted(s, i))
    ensures forall x :: x in head + rest ==> x in IdSet(s)
    ensures IdsStrictlyIncreasing(head + rest)
  {
    var tail := s[1..];
    var r := head + rest;
    IdSetCons(s);
    RestAboveHead(s, rest);
    forall i | 0 <= i < |s| ensures s[i].id in r <==> Inverted(s, i) {
      if i == 0 {
        assert s[0].id !in rest;
      } else {
        assert s[i] == tail[i - 1];
        assert Inverted(s, i) <==> Inverted(tail, i - 1);
        assert s[i].id != s[0].id;
      }
    }
    forall k, l | 0 <= k < l < |r| ensures r[k] < r[l] {
      if k < |head| {
        assert r[l] == rest[l - |head|];
        assert r[l] in rest;
      } else {
        assert r[k] == rest[k - |head|] && r[l] == rest[l - |head|];
      }
    }
  }

  /** One collection's part of the audit. The walk runs only when the two
      listings differ; when they coincide the insertion order is already
      time-ordered, so the guard never hides an inversion. */
  function CollectionOrderingErrors(l: Listing): (r: seq<int>)
    requires IdsIncreasing(l.byId) && TimeSorted(l.byTime)
    ensures forall i :: 0 <= i < |l.byId| ==> (l.byId[i].id in r <==> Inverted(l.byId, i))
    ensures forall x :: x in r ==> x in IdSet(l.byId)
    ensures IdsStrictlyIncreasing(r)
  {
    if l.byId == l.byTime then
      assert forall i :: !Inverted(l.byId, i);
      []
    else InversionIds(l.byId)
  }

  /** The audit over every collection of the database, keyed by collection
      name. */
  function OrderingErrors(db: map<string, Listing>): (r: map<string, seq<int>>)
    requires forall c :: c in db ==> IdsIncreasing(db[c].byId) && TimeSorted(db[c].byTime)
    ensures r.Keys == db.Keys
    ensures forall c :: c in db ==>
              forall i :: 0 <= i < |db[c].byId| ==>
                (db[c].byId[i].id in r[c] <==> Inverted(db[c].byId, i))
    ensures forall c :: c in db ==> forall x :: x in r[c] ==> x in IdSet(db[c].byId)
    ensures forall c :: c in db ==> IdsStrictlyIncreasing(r[c])
  {
    map c | c in db :: CollectionOrderingErrors(db[c])
  }

  /** A journal written in time order has nothing flagged, and the last
      document is never flagged. */
  lemma TimeOrderedNothingFlagged(l: Listing)
    requires IdsIncreasing(l.byId) && TimeSorted(l.byTime)
    ensures TimeSorted(l.byId) ==> CollectionOrderingErrors(l) == []
    ensures |l.byId| > 0 ==> l.byId[|l.byId| - 1].id !in CollectionOrderingErrors(l)
  {
    if TimeSorted(l.byId) {
      TimeSortedWalkEmpty(l.byId);
    }
  }

  lemma {:induction false} TimeSortedWalkEmpty(s: seq<Entry>)
    requires IdsIncreasing(s) && TimeSorted(s)
    ensures InversionIds(s) == []
  {
    if |s| >= 2 {
      TimeSortedWalkEmpty(s[1..]);
    }
  }

  /** Timestamps 10:00, 09:00, 11:00 inserted in that order: the 10:00
      document, the earlier half of the inverted pair, is the one flagged. */
  lemma InvertedPairFlagsEarlierDocument()
    ensures var hour := 3_600_000;
            var byId := [Entry(0, "w1", 10 * hour, 1.0), Entry(1, "w1", 9 * hour, 1.0),
                         Entry(2, "w1", 11 * hour, 1.0)];
            var byTime := [byId[1], byId[0], byId[2]];
            CollectionOrderingErrors(Listing(byId, byTime)) == [0]
  {
  }
}
