/**
 * Semester lists. The factories sort `semester_list` ascending with Python's string order
 * (lexicographic by code point); the search resolver then takes the last element as the
 * latest semester.
 */
module Semesters {
  import opened Wrappers
  import opened Payload

  /** Python's `a <= b` on `str`: lexicographic comparison by code point. */
  predicate StrLe(a: string, b: string) {
    |a| == 0 || (|b| > 0 && (a[0] < b[0] || (a[0] == b[0] && StrLe(a[1..], b[1..]))))
  }

  lemma {:induction false} StrLeTotal(a: string, b: string)
    ensures StrLe(a, b) || StrLe(b, a)
  {
    if |a| > 0 && |b| > 0 && a[0] == b[0] {
      StrLeTotal(a[1..], b[1..]);
    }
  }

  lemma {:induction false} StrLeReflexive(a: string)
    ensures StrLe(a, a)
  {
    if |a| > 0 {
      StrLeReflexive(a[1..]);
    }
  }

  lemma {:induction false} StrLeTransitive(a: string, b: string, c: string)
    requires StrLe(a, b) && StrLe(b, c)
    ensures StrLe(a, c)
  {
    if |a| > 0 && a[0] == b[0] && b[0] == c[0] {
      StrLeTransitive(a[1..], b[1..], c[1..]);
    }
  }

  lemma {:induction false} StrLeAntisymmetric(a: string, b: string)
    requires StrLe(a, b) && StrLe(b, a)
    ensures a == b
  {
    if |a| > 0 {
      StrLeAntisymmetric(a[1..], b[1..]);
      assert a == [a[0]] + a[1..];
      assert b == [b[0]] + b[1..];
    }
  }

  predicate Ascending(xs: seq<string>) {
    forall i, j :: 0 <= i < j < |xs| ==> StrLe(xs[i], xs[j])
  }

  /** Inserts `x` into an ascending list, after the elements that are not greater than it. */
  function Insert(x: string, xs: seq<string>): (r: seq<string>)
    requires Ascending(xs)
    ensures Ascending(r)
    ensures multiset(r) == multiset(xs) + multiset{x}
  {
    if |xs| == 0 then [x]
    else if StrLe(xs[0], x) then
      var rest := Insert(x, xs[1..]);
      assert xs == [xs[0]] + xs[1..];
      forall k | 0 <= k < |rest| ensures StrLe(xs[0], rest[k]) {
        assert rest[k] in multiset(rest);
        if rest[k] != x {
          assert rest[k] in multiset(xs[1..]);
          var j :| 0 <= j < |xs[1..]| && xs[1..][j] == rest[k];
          assert xs[1 + j] == rest[k];
        }
      }
      [xs[0]] + rest
    else
      StrLeTotal(xs[0], x);
      forall k | 0 <= k < |xs| ensures StrLe(x, xs[k]) {
        if k > 0 { StrLeTransitive(x, xs[0], xs[k]); }
      }
      [x] + xs
  }

  /** `sorted(xs)`: the ascending permutation of `xs`. */
  function Sort(xs: seq<string>): (r: seq<string>)
    ensures Ascending(r)
    ensures multiset(r) == multiset(xs)
  {
    if |xs| == 0 then []
    else
      assert xs == [xs[0]] + xs[1..];
      Insert(xs[0], Sort(xs[1..]))
  }

  /** The last element of a sorted non-empty list is its maximum, and belongs to the list. */
  lemma {:induction false} LastIsLatest(xs: seq<string>)
    requires |xs| > 0
    ensures |Sort(xs)| == |xs|
    ensures Sort(xs)[|xs| - 1] in xs
    ensures forall x :: x in xs ==> StrLe(x, Sort(xs)[|xs| - 1])
  {
    var r := Sort(xs);
    PermutationLength(r, xs);
    var last := r[|r| - 1];
    assert last in multiset(r);
    forall x | x in xs ensures StrLe(x, last) {
      assert x in multiset(xs);
      var i :| 0 <= i < |r| && r[i] == x;
      if i < |r| - 1 {
        assert StrLe(r[i], r[|r| - 1]);
      } else {
        StrLeReflexive(x);
      }
    }
  }

  lemma PermutationLength(a: seq<string>, b: seq<string>)
    requires multiset(a) == multiset(b)
    ensures |a| == |b|
  {
    assert |a| == |multiset(a)|;
    assert |b| == |multiset(b)|;
  }

  /** Any ascending permutation of `xs` is `Sort(xs)`: "sorted ascending" fixes the result. */
  lemma {:induction false} SortUnique(xs: seq<string>, ys: seq<string>)
    requires Ascending(ys) && multiset(ys) == multiset(xs)
    ensures ys == Sort(xs)
  {
    AscendingPermutationsEqual(ys, Sort(xs));
  }

  lemma {:induction false} AscendingPermutationsEqual(a: seq<string>, b: seq<string>)
    requires Ascending(a) && Ascending(b) && multiset(a) == multiset(b)
    ensures a == b
  {
    PermutationLength(a, b);
    if |a| > 0 {
      AscendingHeadsEqual(a, b);
      TailsPermutation(a, b);
      AscendingPermutationsEqual(a[1..], b[1..]);
      assert a == [a[0]] + a[1..];
      assert b == [b[0]] + b[1..];
    }
  }

  /** Two non-empty ascending permutations start with the same element. */
  lemma AscendingHeadsEqual(a: seq<string>, b: seq<string>)
    requires |a| > 0 && |b| > 0
    requires Ascending(a) && Ascending(b) && multiset(a) == multiset(b)
    ensures a[0] == b[0]
  {
    assert a[0] in multiset(b);
    assert b[0] in multiset(a);
    var i :| 0 <= i < |b| && b[i] == a[0];
    var j :| 0 <= j < |a| && a[j] == b[0];
    if i == 0 { StrLeReflexive(b[0]); } else { assert StrLe(b[0], b[i]); }
    if j == 0 { StrLeReflexive(a[0]); } else { assert StrLe(a[0], a[j]); }
    StrLeAntisymmetric(a[0], b[0]);
  }

  /** Removing equal heads from two permutations leaves permutations, still ascending. */
  lemma TailsPermutation(a: seq<string>, b: seq<string>)
    requires |a| > 0 && |b| > 0 && a[0] == b[0]
    requires Ascending(a) && Ascending(b) && multiset(a) == multiset(b)
    ensures Ascending(a[1..]) && Ascending(b[1..]) && multiset(a[1..]) == multiset(b[1..])
  {
    assert a == [a[0]] + a[1..];
    assert b == [b[0]] + b[1..];
    assert multiset(a[1..]) == multiset(a) - multiset{a[0]};
    assert multiset(b[1..]) == multiset(b) - multiset{b[0]};
  }

  /** A list value holding only strings. */
  predicate IsStrList(v: Value) {
    v.List? && forall i :: 0 <= i < |v.items| ==> v.items[i].Str?
  }

  function Strings(v: Value): (r: seq<string>)
    requires IsStrList(v)
    ensures |r| == |v.items| && forall i :: 0 <= i < |r| ==> v.items[i] == Str(r[i])
  {
    seq(|v.items|, i requires 0 <= i < |v.items| => v.items[i].s)
  }

  function StrList(ss: seq<string>): (v: Value)
    ensures IsStrList(v) && Strings(v) == ss
  {
    List(seq(|ss|, i requires 0 <= i < |ss| => Str(ss[i])))
  }

  /** The value of `sorted(semester_list)`, as the search and timetable factories intend it. */
  function SortedSemesters(v: Value): (r: Value)
    requires IsStrList(v)
    ensures IsStrList(r) && Ascending(Strings(r))
    ensures multiset(Strings(r)) == multiset(Strings(v))
  {
    StrList(Sort(Strings(v)))
  }

  /** A list of strings that is an ascending permutation of `v` is the value SortedSemesters gives. */
  lemma SortedSemestersUnique(v: Value, w: Value)
    requires IsStrList(v) && IsStrList(w)
    requires Ascending(Strings(w)) && multiset(Strings(w)) == multiset(Strings(v))
    ensures w == SortedSemesters(v)
  {
    SortUnique(Strings(v), Strings(w));
    assert w.items == StrList(Strings(w)).items;
  }
}
