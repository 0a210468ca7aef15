/** The two append-only collections of the BinaryTreeJournal database and
    the journal's write and listing paths. */
module CareJournal {
  import opened Records

  /** CutJournal and WaterJournal, each in insertion (`_id`) order. */
  datatype Journal = Journal(cut: seq<Entry>, water: seq<Entry>)

  /** The robot class `update` dispatches on. */
  datatype RobotKind = CutRobotKind | WaterRobotKind

  /** The `data` dictionary a robot hands to `update`. */
  datatype Record = Record(robotId: string, timestamp: int, amount: real)

  datatype JournalError = UnknownAction(action: string)

  /** The actions `print_last_10_records` accepts. */
  const StoredActions: seq<string> := ["cut", "water"]

  const EmptyJournal := Journal([], [])

  /** The database gives every inserted document an `_id`; here the ids
      count insertions, so a collection's ids are its positions. */
  predicate IdsArePositions(s: seq<Entry>)
  {
    forall i :: 0 <= i < |s| ==> s[i].id == i
  }

  predicate Valid(j: Journal)
  {
    IdsArePositions(j.cut) && IdsArePositions(j.water)
    && NonNegativeAmounts(j.cut) && NonNegativeAmounts(j.water)
  }

  /** `insert_one`: the document lands after every existing one, under a
      fresh id, and the existing documents are untouched. */
  function InsertOne(s: seq<Entry>, rec: Record): (r: seq<Entry>)
    ensures |r| == |s| + 1 && r[..|s|] == s
    ensures r[|s|].robotId == rec.robotId && r[|s|].timestamp == rec.timestamp
         && r[|s|].amount == rec.amount
    ensures IdsArePositions(s) ==> IdsArePositions(r)
  {
    s + [Entry(|s|, rec.robotId, rec.timestamp, rec.amount)]
  }

  /** `Journal.update`: a cutting robot's record goes to CutJournal, any
      other robot's to WaterJournal; the other collection is unchanged. */
  function Update(j: Journal, kind: RobotKind, rec: Record): (r: Journal)
    ensures kind == CutRobotKind ==> r.water == j.water && r.cut == InsertOne(j.cut, rec)
    ensures kind != CutRobotKind ==> r.cut == j.cut && r.water == InsertOne(j.water, rec)
    ensures Valid(j) && rec.amount >= 0.0 ==> Valid(r)
  {
    if kind == CutRobotKind then j.(cut := InsertOne(j.cut, rec))
    else j.(water := InsertOne(j.water, rec))
  }

  /** The documents `print_last_10_records` shows: an unknown action is
      rejected, otherwise `find().sort("_id", -1).limit(10)` on the chosen
      collection, that is the documents with the ten largest ids, largest
      first. */
  function LastTenRecords(j: Journal, action: string): (r: Result<seq<Entry>, JournalError>)
    ensures r.Failure? <==> action !in StoredActions
    ensures r.Failure? ==> r.error == UnknownAction(action)
    ensures r.Success? ==>
              var s := if action == "cut" then j.cut else j.water;
              && |r.value| == (if |s| < 10 then |s| else 10)
              && (forall k :: 0 <= k < |r.value| ==> r.value[k] in s)
              && (IdsArePositions(s) ==>
                    && (forall k, l :: 0 <= k < l < |r.value| ==> r.value[k].id > r.value[l].id)
                    && (forall i :: 0 <= i < |s| ==> (s[i] in r.value <==> s[i].id >= |s| - 10)))
  {
    if action !in StoredActions then Failure(UnknownAction(action))
    else
      var s := if action == "cut" then j.cut else j.water;
      var n := if |s| < 10 then |s| else 10;
      var newest := seq(n, k requires 0 <= k < n => s[|s| - 1 - k]);
      NewestTen(s, newest);
      Success(newest)
  }

  /** The last ten documents, newest first, are the ones with the ten
      largest ids, in decreasing id order. */
  lemma NewestTen(s: seq<Entry>, newest: seq<Entry>)
    requires |newest| == (if |s| < 10 then |s| else 10)
    requires forall k :: 0 <= k < |newest| ==> newest[k] == s[|s| - 1 - k]
    ensures forall k :: 0 <= k < |newest| ==> newest[k] in s
    ensures IdsArePositions(s) ==>
              && (forall k, l :: 0 <= k < l < |newest| ==> newest[k].id > newest[l].id)
              && (forall i :: 0 <= i < |s| ==> (s[i] in newest <==> s[i].id >= |s| - 10))
  {
    forall k | 0 <= k < |newest| ensures newest[k] in s {
      assert s[|s| - 1 - k] == newest[k];
    }
    if IdsArePositions(s) {
      forall i | 0 <= i < |s| && i >= |s| - 10 ensures s[i] in newest {
        assert newest[|s| - 1 - i] == s[i];
      }
      forall i | 0 <= i < |s| && s[i] in newest ensures i >= |s| - 10 {
        var k :| 0 <= k < |newest| && newest[k] == s[i];
        assert s[|s| - 1 - k].id == |s| - 1 - k;
      }
    }
  }
}
