/**
 * The timetable grid behind the student, teacher and classroom pages of
 * everyclass/server/query.py: courses bucketed by their `(day, time)` slot, and the four
 * "empty column" flags that let a page hide Saturday, Sunday and the last two periods.
 */
module Timetable {
  import opened Payload

  /** `(day, time)`: day 1..7 is Monday..Sunday, time 1..6 a double period. */
  type Slot = (int, int)

  /** The bucket of slot `k`: the courses in that slot, in input order. */
  function InSlot(cs: seq<Value>, slotOf: Value -> Slot, k: Slot): (r: seq<Value>)
    ensures |r| <= |cs|
    ensures forall c :: c in r ==> c in cs && slotOf(c) == k
  {
    if |cs| == 0 then []
    else InSlot(cs[..|cs| - 1], slotOf, k) + (if slotOf(cs[|cs| - 1]) == k then [cs[|cs| - 1]] else [])
  }

  /** The dictionary the loops build: one append per course, a bucket created on first use. */
  function Buckets(cs: seq<Value>, slotOf: Value -> Slot): map<Slot, seq<Value>>
  {
    if |cs| == 0 then map[]
    else
      var b := Buckets(cs[..|cs| - 1], slotOf);
      var c := cs[|cs| - 1];
      var k := slotOf(c);
      b[k := (if k in b then b[k] else []) + [c]]
  }

  /**
   * Lines 172-177 (and the same loop at 229-234 and 278-281, where a `defaultdict` makes the
   * membership test redundant): bucket the courses by the slot of their lesson.
   */
  method GroupBySlot(cs: seq<Value>, slotOf: Value -> Slot) returns (grid: map<Slot, seq<Value>>)
    ensures grid == Buckets(cs, slotOf)
  {
    grid := map[];
    for i := 0 to |cs|
      invariant grid == Buckets(cs[..i], slotOf)
    {
      var k := slotOf(cs[i]);
      if k !in grid {
        grid := grid[k := []];
      }
      grid := grid[k := grid[k] + [cs[i]]];
      assert cs[..i + 1][..i] == cs[..i];
    }
    assert cs[..|cs|] == cs;
  }

  /**
   * Every course is in exactly the bucket of its own slot, in input order: each bucket is the
   * order-preserving selection of its slot, and a slot has a bucket iff some course is in it.
   */
  lemma {:induction false} BucketsAreSelections(cs: seq<Value>, slotOf: Value -> Slot, k: Slot)
    ensures k in Buckets(cs, slotOf) <==> exists i :: 0 <= i < |cs| && slotOf(cs[i]) == k
    ensures k in Buckets(cs, slotOf) ==> Buckets(cs, slotOf)[k] == InSlot(cs, slotOf, k)
    ensures k !in Buckets(cs, slotOf) ==> InSlot(cs, slotOf, k) == []
  {
    if |cs| > 0 {
      var init := cs[..|cs| - 1];
      BucketsAreSelections(init, slotOf, k);
      if exists i :: 0 <= i < |init| && slotOf(init[i]) == k {
        var i :| 0 <= i < |init| && slotOf(init[i]) == k;
        assert cs[i] == init[i];
      }
      if exists i :: 0 <= i < |cs| && slotOf(cs[i]) == k {
        var i :| 0 <= i < |cs| && slotOf(cs[i]) == k;
        if i < |init| {
          assert init[i] == cs[i];
        }
      }
    }
  }

  /** The sum of the sizes of the buckets at the slots `ks`. */
  ghost function SizeSum(grid: map<Slot, seq<Value>>, ks: set<Slot>): nat
    requires ks <= grid.Keys
  {
    if ks == {} then 0
    else
      var k :| k in ks;
      |grid[k]| + SizeSum(grid, ks - {k})
  }

  /** The sum of the bucket sizes of a grid. */
  ghost function Total(grid: map<Slot, seq<Value>>): nat {
    SizeSum(grid, grid.Keys)
  }

  /** The sum does not depend on which slot it takes first. */
  lemma {:induction false} SizeSumRemove(grid: map<Slot, seq<Value>>, ks: set<Slot>, k: Slot)
    requires ks <= grid.Keys && k in ks
    ensures SizeSum(grid, ks) == |grid[k]| + SizeSum(grid, ks - {k})
    decreases ks
  {
    var j :| j in ks && SizeSum(grid, ks) == |grid[j]| + SizeSum(grid, ks - {j});
    if j != k {
      SizeSumRemove(grid, ks - {j}, k);
      assert ks - {j} - {k} == ks - {k} - {j};
      SizeSumRemove(grid, ks - {k}, j);
    }
  }

  /** Two grids whose buckets at `ks` have the same sizes have the same sum there. */
  lemma {:induction false} SizeSumAgree(g1: map<Slot, seq<Value>>, g2: map<Slot, seq<Value>>, ks: set<Slot>)
    requires ks <= g1.Keys && ks <= g2.Keys
    requires forall k :: k in ks ==> |g1[k]| == |g2[k]|
    ensures SizeSum(g1, ks) == SizeSum(g2, ks)
    decreases ks
  {
    if ks != {} {
      var k :| k in ks && SizeSum(g1, ks) == |g1[k]| + SizeSum(g1, ks - {k});
      SizeSumAgree(g1, g2, ks - {k});
      SizeSumRemove(g2, ks, k);
    }
  }

  /** Replacing one bucket changes the sum by the difference of the two sizes. */
  lemma TotalUpdate(grid: map<Slot, seq<Value>>, k: Slot, v: seq<Value>)
    ensures Total(grid[k := v]) == Total(grid) - (if k in grid then |grid[k]| else 0) + |v|
  {
    var g := grid[k := v];
    var others := grid.Keys - {k};
    assert g.Keys - {k} == others;
    SizeSumRemove(g, g.Keys, k);
    SizeSumAgree(g, grid, others);
    if k in grid {
      SizeSumRemove(grid, grid.Keys, k);
    } else {
      assert grid.Keys == others;
    }
  }

  /** No course is lost or duplicated: the bucket sizes add up to the number of courses. */
  lemma {:induction false} BucketsTotal(cs: seq<Value>, slotOf: Value -> Slot)
    ensures Total(Buckets(cs, slotOf)) == |cs|
  {
    if |cs| == 0 {
      assert Buckets(cs, slotOf) == map[];
    } else {
      var b := Buckets(cs[..|cs| - 1], slotOf);
      var c := cs[|cs| - 1];
      BucketsTotal(cs[..|cs| - 1], slotOf);
      TotalUpdate(b, slotOf(c), (if slotOf(c) in b then b[slotOf(c)] else []) + [c]);
    }
  }

  /** Whether the grid has a bucket at `(day, time)`. */
  predicate Occupied(grid: map<Slot, seq<Value>>, day: int, time: int) {
    (day, time) in grid
  }

  /** No course on `day` in any of the periods 1..6. */
  predicate DayFree(grid: map<Slot, seq<Value>>, day: int) {
    forall t :: 1 <= t <= 6 ==> !Occupied(grid, day, t)
  }

  /** No course in period `time` on any of the days 1..7. */
  predicate PeriodFree(grid: map<Slot, seq<Value>>, time: int) {
    forall d :: 1 <= d <= 7 ==> !Occupied(grid, d, time)
  }

  /** `_empty_column_check` (lines 340-363): four scans, each clearing its flag on a hit. */
  method EmptyColumnCheck(grid: map<Slot, seq<Value>>) returns (empty5: bool, empty6: bool, emptySat: bool, emptySun: bool)
    ensures emptySat == DayFree(grid, 6) && emptySun == DayFree(grid, 7)
    ensures empty6 == PeriodFree(grid, 6) && empty5 == PeriodFree(grid, 5)
    ensures grid == map[] ==> empty5 && empty6 && emptySat && emptySun
  {
    emptySat := true;
    for t := 1 to 7
      invariant emptySat <==> forall u :: 1 <= u < t ==> !Occupied(grid, 6, u)
    {
      if Occupied(grid, 6, t) {
        emptySat := false;
      }
    }
    emptySun := true;
    for t := 1 to 7
      invariant emptySun <==> forall u :: 1 <= u < t ==> !Occupied(grid, 7, u)
    {
      if Occupied(grid, 7, t) {
        emptySun := false;
      }
    }
    empty6 := true;
    for d := 1 to 8
      invariant empty6 <==> forall e :: 1 <= e < d ==> !Occupied(grid, e, 6)
    {
      if Occupied(grid, d, 6) {
        empty6 := false;
      }
    }
    empty5 := true;
    for d := 1 to 8
      invariant empty5 <==> forall e :: 1 <= e < d ==> !Occupied(grid, e, 5)
    {
      if Occupied(grid, d, 5) {
        empty5 := false;
      }
    }
  }

  /** A column of the bucketed grid is empty iff no course falls into it. */
  lemma BucketsDayFree(cs: seq<Value>, slotOf: Value -> Slot, day: int)
    ensures DayFree(Buckets(cs, slotOf), day) <==>
      forall i :: 0 <= i < |cs| ==> !(slotOf(cs[i]).0 == day && 1 <= slotOf(cs[i]).1 <= 6)
  {
    var b := Buckets(cs, slotOf);
    forall t | 1 <= t <= 6 {
      BucketsAreSelections(cs, slotOf, (day, t));
    }
    if !DayFree(b, day) {
      var t :| 1 <= t <= 6 && Occupied(b, day, t);
      var i :| 0 <= i < |cs| && slotOf(cs[i]) == (day, t);
    }
    if exists i :: 0 <= i < |cs| && slotOf(cs[i]).0 == day && 1 <= slotOf(cs[i]).1 <= 6 {
      var i :| 0 <= i < |cs| && slotOf(cs[i]).0 == day && 1 <= slotOf(cs[i]).1 <= 6;
      assert Occupied(b, day, slotOf(cs[i]).1);
    }
  }

  /** A period row of the bucketed grid is empty iff no course falls into it. */
  lemma BucketsPeriodFree(cs: seq<Value>, slotOf: Value -> Slot, time: int)
    ensures PeriodFree(Buckets(cs, slotOf), time) <==>
      forall i :: 0 <= i < |cs| ==> !(slotOf(cs[i]).1 == time && 1 <= slotOf(cs[i]).0 <= 7)
  {
    var b := Buckets(cs, slotOf);
    forall d | 1 <= d <= 7 {
      BucketsAreSelections(cs, slotOf, (d, time));
    }
    if !PeriodFree(b, time) {
      var d :| 1 <= d <= 7 && Occupied(b, d, time);
      var i :| 0 <= i < |cs| && slotOf(cs[i]) == (d, time);
    }
    if exists i :: 0 <= i < |cs| && slotOf(cs[i]).1 == time && 1 <= slotOf(cs[i]).0 <= 7 {
      var i :| 0 <= i < |cs| && slotOf(cs[i]).1 == time && 1 <= slotOf(cs[i]).0 <= 7;
      assert Occupied(b, slotOf(cs[i]).0, time);
    }
  }
}
