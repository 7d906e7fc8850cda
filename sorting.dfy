/** Ordering used by `ORDER BY … DESC` in the routes and by the leaderboard's
    `sort((a, b) => b.points - a.points)`: a stable insertion sort, largest key first. */
module Sorting {

  ghost predicate SortedDesc<T>(s: seq<T>, key: T -> int) {
    forall i, j :: 0 <= i < j < |s| ==> key(s[i]) >= key(s[j])
  }

  /** A head no smaller than the first key keeps a sorted sequence sorted. */
  lemma SortedCons<T>(h: T, t: seq<T>, key: T -> int)
    requires SortedDesc(t, key) && (t == [] || key(h) >= key(t[0]))
    ensures SortedDesc([h] + t, key)
  {
    var r := [h] + t;
    forall i, j | 0 <= i < j < |r| ensures key(r[i]) >= key(r[j]) {
      if i == 0 {
        assert r[j] == t[j - 1];
        assert key(t[0]) >= key(t[j - 1]);
      } else {
        assert r[i] == t[i - 1] && r[j] == t[j - 1];
      }
    }
  }

  function Insert<T>(x: T, s: seq<T>, key: T -> int): (r: seq<T>)
    requires SortedDesc(s, key)
    ensures SortedDesc(r, key)
    ensures multiset(r) == multiset(s) + multiset{x}
    ensures |r| == |s| + 1
    ensures r[0] == x || (s != [] && r[0] == s[0])
    decreases |s|
  {
    if s == [] || key(x) >= key(s[0]) then
      SortedCons(x, s, key);
      [x] + s
    else
      assert SortedDesc(s[1..], key);
      var tail := Insert(x, s[1..], key);
      assert [s[0]] + s[1..] == s;
      SortedCons(s[0], tail, key);
      [s[0]] + tail
  }

  /** Sorted, largest key first, and a permutation of the input. */
  function SortDesc<T>(s: seq<T>, key: T -> int): (r: seq<T>)
    ensures SortedDesc(r, key)
    ensures multiset(r) == multiset(s)
    ensures |r| == |s|
    decreases |s|
  {
    if s == [] then []
    else
      assert [s[0]] + s[1..] == s;
      Insert(s[0], SortDesc(s[1..], key), key)
  }

  ghost predicate Distinct<T>(s: seq<T>) {
    forall i, j :: 0 <= i < j < |s| ==> s[i] != s[j]
  }

  lemma {:induction false} DistinctCountsOnce<T>(s: seq<T>, x: T)
    requires Distinct(s)
    ensures multiset(s)[x] <= 1
    decreases |s|
  {
    if s != [] {
      assert s == [s[0]] + s[1..];
      DistinctCountsOnce(s[1..], x);
      if s[0] == x {
        assert x !in s[1..];
      }
    }
  }

  lemma {:induction false} RepeatCountsTwice<T>(s: seq<T>, i: int, j: int)
    requires 0 <= i < j < |s| && s[i] == s[j]
    ensures multiset(s)[s[i]] >= 2
  {
    assert s == s[..i] + [s[i]] + s[i + 1..j] + [s[j]] + s[j + 1..];
  }

  /** A permutation of a sequence without repetitions has none either. */
  lemma PermutationOfDistinct<T>(s: seq<T>, t: seq<T>)
    requires Distinct(t) && multiset(s) == multiset(t)
    ensures Distinct(s)
  {
    forall i, j | 0 <= i < j < |s| ensures s[i] != s[j] {
      if s[i] == s[j] {
        RepeatCountsTwice(s, i, j);
        DistinctCountsOnce(t, s[i]);
      }
    }
  }

  lemma NonEmptyHasMember(ids: set<int>)
    requires ids != {}
    ensures exists y :: y in ids
  {
    if forall y :: y !in ids {
      assert false;
    }
  }

  ghost function PickOne(ids: set<int>): (y: int)
    requires ids != {}
    ensures y in ids
  {
    NonEmptyHasMember(ids);
    var y :| y in ids; y
  }

  lemma {:induction false} MaxExists(ids: set<int>)
    requires ids != {}
    ensures exists m :: m in ids && forall x :: x in ids ==> x <= m
    decreases |ids|
  {
    var y := PickOne(ids);
    if ids == {y} {
      assert forall x :: x in ids ==> x <= y;
    } else {
      MaxExists(ids - {y});
      var m :| m in ids - {y} && forall x :: x in ids - {y} ==> x <= m;
      if y > m {
        forall x | x in ids ensures x <= y {
          if x != y { assert x in ids - {y}; }
        }
      } else {
        forall x | x in ids ensures x <= m {
          if x != y { assert x in ids - {y}; }
        }
      }
    }
  }

  ghost function Max(ids: set<int>): (m: int)
    requires ids != {}
    ensures m in ids && forall x :: x in ids ==> x <= m
  {
    MaxExists(ids);
    var m :| m in ids && forall x :: x in ids ==> x <= m; m
  }

  /** The ids of a table, largest first (`ORDER BY id DESC`). */
  ghost function Descending(ids: set<int>): (r: seq<int>)
    ensures forall i, j :: 0 <= i < j < |r| ==> r[i] > r[j]
    ensures forall x :: x in r <==> x in ids
    decreases |ids|
  {
    if ids == {} then []
    else
      var m := Max(ids);
      [m] + Descending(ids - {m})
  }
}
