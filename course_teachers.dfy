/**
 * Teacher de-duplication inside `CourseItem.make` (everyclass/server/rpc/api_server.py:120-129):
 * a course keeps each teacher once, keyed by `teacher_code`; the first occurrence wins and the
 * order of the list is kept. The set of codes seen so far is grown with
 * `teacher["teacher_code"]`, the key the membership test reads (the source adds `teacher.tid`,
 * see Findings).
 */
module CourseTeachers {
  import opened Wrappers
  import opened Payload

  /** An entry the loop can key: a dict that has a `teacher_code`. */
  predicate Coded(t: Value) {
    t.Dict? && "teacher_code" in t.entries
  }

  function Code(t: Value): Value
    requires Coded(t)
  {
    t.entries["teacher_code"]
  }

  predicate AllCoded(ts: seq<Value>) {
    forall i :: 0 <= i < |ts| ==> Coded(ts[i])
  }

  /** The codes of the keyable entries of `ts`. */
  function Codes(ts: seq<Value>): set<Value> {
    if |ts| == 0 then {}
    else Codes(ts[..|ts| - 1]) + (if Coded(ts[|ts| - 1]) then {Code(ts[|ts| - 1])} else {})
  }

  /**
   * The list the loop builds over `ts`: an entry is appended unless its code was seen before.
   * A non-dict entry raises TypeError and a dict without `teacher_code` raises KeyError, at the
   * first such entry.
   */
  function Dedup(ts: seq<Value>): Result<seq<Value>, MapError> {
    if |ts| == 0 then Success([])
    else
      var kept :- Dedup(ts[..|ts| - 1]);
      var t := ts[|ts| - 1];
      if !t.Dict? then Failure(WrongShape("teacher_list"))
      else if "teacher_code" !in t.entries then Failure(KeyMissing("teacher_code"))
      else if Code(t) in Codes(ts[..|ts| - 1]) then Success(kept)
      else Success(kept + [t])
  }

  /** `ts[i]` is the first entry with its code. */
  predicate IsFirst(ts: seq<Value>, i: int)
    requires 0 <= i < |ts| && AllCoded(ts)
  {
    forall j :: 0 <= j < i ==> Code(ts[j]) != Code(ts[i])
  }

  /** The positions of the first occurrences, ascending. */
  function FirstIndices(ts: seq<Value>): seq<int>
    requires AllCoded(ts)
  {
    if |ts| == 0 then []
    else
      var init := ts[..|ts| - 1];
      FirstIndices(init) + (if Code(ts[|ts| - 1]) in Codes(init) then [] else [|ts| - 1])
  }

  lemma {:induction false} CodesMembership(ts: seq<Value>, c: Value)
    ensures c in Codes(ts) <==> exists j :: 0 <= j < |ts| && Coded(ts[j]) && Code(ts[j]) == c
  {
    if |ts| > 0 {
      var init := ts[..|ts| - 1];
      CodesMembership(init, c);
      if c in Codes(init) {
        var j :| 0 <= j < |init| && Coded(init[j]) && Code(init[j]) == c;
        assert ts[j] == init[j];
      }
      if exists j :: 0 <= j < |ts| && Coded(ts[j]) && Code(ts[j]) == c {
        var j :| 0 <= j < |ts| && Coded(ts[j]) && Code(ts[j]) == c;
        if j < |ts| - 1 { assert init[j] == ts[j]; }
      }
    }
  }

  /** The loop raises an error exactly when some entry cannot be keyed. */
  lemma {:induction false} DedupSucceeds(ts: seq<Value>)
    ensures Dedup(ts).Success? <==> AllCoded(ts)
  {
    if |ts| > 0 {
      var init := ts[..|ts| - 1];
      DedupSucceeds(init);
      assert forall i :: 0 <= i < |init| ==> init[i] == ts[i];
    }
  }

  /** Once an error is raised for a prefix, it is the error of the whole loop. */
  lemma {:induction false} DedupFailurePersists(ts: seq<Value>, k: int)
    requires 0 <= k <= |ts| && Dedup(ts[..k]).Failure?
    ensures Dedup(ts) == Dedup(ts[..k])
    decreases |ts| - k
  {
    if k < |ts| {
      var init := ts[..|ts| - 1];
      assert init[..k] == ts[..k];
      DedupFailurePersists(init, k);
    } else {
      assert ts[..k] == ts;
    }
  }

  /** No two kept teachers share a code, and every input code is represented. */
  lemma {:induction false} DedupUniqueAndComplete(ts: seq<Value>)
    requires Dedup(ts).Success?
    ensures AllCoded(Dedup(ts).value)
    ensures forall i, j :: 0 <= i < j < |Dedup(ts).value| ==> Code(Dedup(ts).value[i]) != Code(Dedup(ts).value[j])
    ensures Codes(Dedup(ts).value) == Codes(ts)
  {
    if |ts| > 0 {
      var init := ts[..|ts| - 1];
      var t := ts[|ts| - 1];
      DedupUniqueAndComplete(init);
      var kept := Dedup(init).value;
      var r := Dedup(ts).value;
      if Code(t) !in Codes(init) {
        assert r == kept + [t];
        assert r[..|r| - 1] == kept;
        forall i | 0 <= i < |kept| ensures Code(kept[i]) != Code(t) {
          CodesMembership(kept, Code(t));
        }
      } else {
        assert r == kept;
      }
    }
  }

  /**
   * The kept teachers are exactly the first occurrences of each code, in their original order:
   * the i-th kept entry is the entry at the i-th first-occurrence position.
   */
  lemma {:induction false} DedupKeepsFirstOccurrences(ts: seq<Value>)
    requires AllCoded(ts)
    ensures Dedup(ts).Success?
    ensures |Dedup(ts).value| == |FirstIndices(ts)|
    ensures forall k :: 0 <= k < |FirstIndices(ts)| ==>
      0 <= FirstIndices(ts)[k] < |ts| && Dedup(ts).value[k] == ts[FirstIndices(ts)[k]]
    ensures forall k, l :: 0 <= k < l < |FirstIndices(ts)| ==> FirstIndices(ts)[k] < FirstIndices(ts)[l]
    ensures forall i :: 0 <= i < |ts| ==> (i in FirstIndices(ts) <==> IsFirst(ts, i))
  {
    DedupSucceeds(ts);
    FirstIndicesAscending(ts);
    FirstIndicesAreFirst(ts);
    if |ts| > 0 {
      var n := |ts| - 1;
      var init := ts[..n];
      assert forall i :: 0 <= i < n ==> init[i] == ts[i];
      DedupKeepsFirstOccurrences(init);
      if Code(ts[n]) in Codes(init) {
        assert FirstIndices(ts) == FirstIndices(init) && Dedup(ts).value == Dedup(init).value;
      } else {
        assert FirstIndices(ts) == FirstIndices(init) + [n] && Dedup(ts).value == Dedup(init).value + [ts[n]];
      }
    }
  }

  /** The first-occurrence positions are positions of `ts`, in ascending order. */
  lemma {:induction false} FirstIndicesAscending(ts: seq<Value>)
    requires AllCoded(ts)
    ensures forall k :: 0 <= k < |FirstIndices(ts)| ==> 0 <= FirstIndices(ts)[k] < |ts|
    ensures forall k, l :: 0 <= k < l < |FirstIndices(ts)| ==> FirstIndices(ts)[k] < FirstIndices(ts)[l]
  {
    if |ts| > 0 {
      var init := ts[..|ts| - 1];
      assert forall i :: 0 <= i < |init| ==> init[i] == ts[i];
      FirstIndicesAscending(init);
    }
  }

  /** A position is among the first-occurrence positions exactly when no earlier entry has its code. */
  lemma {:induction false} FirstIndicesAreFirst(ts: seq<Value>)
    requires AllCoded(ts)
    ensures forall i :: 0 <= i < |ts| ==> (i in FirstIndices(ts) <==> IsFirst(ts, i))
  {
    if |ts| > 0 {
      var n := |ts| - 1;
      var init := ts[..n];
      assert forall i :: 0 <= i < n ==> init[i] == ts[i];
      FirstIndicesAscending(init);
      FirstIndicesAreFirst(init);
      CodesMembership(init, Code(ts[n]));
      forall i | 0 <= i < n ensures IsFirst(ts, i) == IsFirst(init, i) {
      }
      if Code(ts[n]) in Codes(init) {
        assert !IsFirst(ts, n);
      } else {
        assert IsFirst(ts, n);
      }
    }
  }

  /** The loop of `CourseItem.make` over `dct["teacher_list"]`. */
  method UniqueTeachers(ts: seq<Value>) returns (r: Result<seq<Value>, MapError>)
    ensures r == Dedup(ts)
  {
    var seen: set<Value> := {};
    var unique: seq<Value> := [];
    for i := 0 to |ts|
      invariant Dedup(ts[..i]) == Success(unique)
      invariant seen == Codes(ts[..i])
    {
      var teacher := ts[i];
      assert ts[..i + 1][..i] == ts[..i];
      if !teacher.Dict? || "teacher_code" !in teacher.entries {
        DedupFailurePersists(ts, i + 1);
        return if !teacher.Dict? then Failure(WrongShape("teacher_list")) else Failure(KeyMissing("teacher_code"));
      }
      if teacher.entries["teacher_code"] in seen {
        continue;
      }
      seen := seen + {teacher.entries["teacher_code"]};
      unique := unique + [teacher];
    }
    assert ts[..|ts|] == ts;
    r := Success(unique);
  }
}
