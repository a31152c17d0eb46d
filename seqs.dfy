/**
 * Sequences standing for the iteration order of the source's collections:
 * linked hash sets, `zip(...).toMap()`, `filter` and set conversion.
 */
module Seqs {

  /** No element occurs twice: what a Set (or the key set of a Map) guarantees of its iteration. */
  predicate Distinct<T(==)>(s: seq<T>) {
    forall i, j :: 0 <= i < j < |s| ==> s[i] != s[j]
  }

  /** `order` is the iteration order of a collection whose elements are `keys`. */
  predicate IsOrderOf<T(==,!new)>(order: seq<T>, keys: set<T>) {
    Distinct(order) && (forall x :: x in order ==> x in keys) && (forall x :: x in keys ==> x in order)
  }

  function SetOf<T(==)>(s: seq<T>): set<T> {
    set x | x in s
  }

  /**
   * Kotlin's `keys.zip(values).toMap()`: positions are paired up to the shorter
   * of the two sequences, and a later duplicate key overwrites an earlier one.
   */
  function ZipToMap<K(==,!new), V>(keys: seq<K>, vals: seq<V>): (r: map<K, V>)
    ensures forall k :: k in r <==> exists i :: 0 <= i < |keys| && i < |vals| && keys[i] == k
    ensures |r| <= |keys| && |r| <= |vals|
    ensures Distinct(keys) ==> forall i :: 0 <= i < |keys| && i < |vals| ==> r[keys[i]] == vals[i]
  {
    if |keys| == 0 || |vals| == 0 then map[]
    else
      var rest := ZipToMap(keys[1..], vals[1..]);
      ZipStep(keys, vals, rest);
      if keys[0] in rest then rest else rest[keys[0] := vals[0]]
  }

  /** The step of ZipToMap that puts the first pair in front of the zipped rest. */
  lemma ZipStep<K(!new), V>(keys: seq<K>, vals: seq<V>, rest: map<K, V>)
    requires |keys| > 0 && |vals| > 0
    requires forall k :: k in rest <==> exists i :: 0 <= i < |keys[1..]| && i < |vals[1..]| && keys[1..][i] == k
    requires |rest| <= |keys[1..]| && |rest| <= |vals[1..]|
    requires Distinct(keys[1..]) ==>
      forall i :: 0 <= i < |keys[1..]| && i < |vals[1..]| ==> rest[keys[1..][i]] == vals[1..][i]
    ensures var r := if keys[0] in rest then rest else rest[keys[0] := vals[0]];
      && (forall k :: k in r <==> exists i :: 0 <= i < |keys| && i < |vals| && keys[i] == k)
      && |r| <= |keys| && |r| <= |vals|
      && (Distinct(keys) ==> forall i :: 0 <= i < |keys| && i < |vals| ==> r[keys[i]] == vals[i])
  {
    var r := if keys[0] in rest then rest else rest[keys[0] := vals[0]];
    forall k ensures k in r <==> exists i :: 0 <= i < |keys| && i < |vals| && keys[i] == k {
      if k in rest {
        var i :| 0 <= i < |keys[1..]| && i < |vals[1..]| && keys[1..][i] == k;
        assert keys[i + 1] == k;
      }
      if exists i :: 0 <= i < |keys| && i < |vals| && keys[i] == k {
        var i :| 0 <= i < |keys| && i < |vals| && keys[i] == k;
        if i > 0 {
          assert keys[1..][i - 1] == k;
        }
      }
    }
    if Distinct(keys) {
      assert Distinct(keys[1..]);
      assert keys[0] !in rest;
      forall i | 0 <= i < |keys| && i < |vals| ensures r[keys[i]] == vals[i] {
        if i > 0 {
          assert keys[i] == keys[1..][i - 1];
          assert keys[i] != keys[0];
        }
      }
    }
  }

  /** The elements of `s` that satisfy `p`, in their original order. */
  function Filter<T>(s: seq<T>, p: T -> bool): seq<T>
  {
    if s == [] then [] else (if p(s[0]) then [s[0]] else []) + Filter(s[1..], p)
  }

  /** Filtering keeps exactly the elements that pass, drops no repetition-freedom and changes nothing when all pass. */
  lemma FilterSpec<T(!new)>(s: seq<T>, p: T -> bool)
    ensures |Filter(s, p)| <= |s|
    ensures forall x :: x in Filter(s, p) <==> x in s && p(x)
    ensures Distinct(s) ==> Distinct(Filter(s, p))
    ensures forall i :: 0 <= i < |Filter(s, p)| ==> p(Filter(s, p)[i])
    ensures (forall x :: x in s ==> p(x)) ==> Filter(s, p) == s
  {
    FilterMembers(s, p);
    FilterDistinct(s, p);
    FilterPasses(s, p);
    if forall x :: x in s ==> p(x) {
      FilterAllPass(s, p);
    }
  }

  lemma {:induction false} FilterMembers<T>(s: seq<T>, p: T -> bool)
    ensures |Filter(s, p)| <= |s|
    ensures forall x :: x in Filter(s, p) <==> x in s && p(x)
  {
    if s != [] {
      FilterMembers(s[1..], p);
      assert forall x :: x in s <==> x == s[0] || x in s[1..];
    }
  }

  lemma {:induction false} FilterDistinct<T>(s: seq<T>, p: T -> bool)
    ensures Distinct(s) ==> Distinct(Filter(s, p))
  {
    if s != [] && Distinct(s) {
      FilterDistinct(s[1..], p);
      FilterMembers(s[1..], p);
      var rest := Filter(s[1..], p);
      assert s[0] !in s[1..];
      assert Distinct(s[1..]);
      if p(s[0]) {
        var r := [s[0]] + rest;
        forall i, j | 0 <= i < j < |r| ensures r[i] != r[j] {
          if i == 0 {
            assert r[j] in rest;
          } else {
            assert r[i] == rest[i - 1] && r[j] == rest[j - 1];
          }
        }
      } else {
        assert Filter(s, p) == rest;
      }
    }
  }

  lemma {:induction false} FilterPasses<T>(s: seq<T>, p: T -> bool)
    ensures forall i :: 0 <= i < |Filter(s, p)| ==> p(Filter(s, p)[i])
  {
    if s != [] {
      FilterPasses(s[1..], p);
      var rest := Filter(s[1..], p);
      if p(s[0]) {
        var r := [s[0]] + rest;
        forall i | 0 <= i < |r| ensures p(r[i]) {
          if i > 0 {
            assert r[i] == rest[i - 1];
          }
        }
      } else {
        assert Filter(s, p) == rest;
      }
    }
  }

  lemma {:induction false} FilterAllPass<T>(s: seq<T>, p: T -> bool)
    requires forall x :: x in s ==> p(x)
    ensures Filter(s, p) == s
  {
    if s != [] {
      assert forall x :: x in s[1..] ==> x in s;
      FilterAllPass(s[1..], p);
      assert s == [s[0]] + s[1..];
    }
  }

  /** Filtering a concatenation filters each part. */
  lemma {:induction false} FilterAppend<T>(a: seq<T>, b: seq<T>, p: T -> bool)
    ensures Filter(a + b, p) == Filter(a, p) + Filter(b, p)
  {
    if a != [] {
      var ab := a + b;
      assert ab[0] == a[0];
      assert ab[1..] == a[1..] + b;
      FilterAppend(a[1..], b, p);
    } else {
      assert a + b == b;
    }
  }

  /**
   * Insertion into a linked hash set: each element is kept at its first
   * occurrence, later repetitions are dropped.
   */
  function Dedup<T(==,!new)>(s: seq<T>): (r: seq<T>)
    ensures Distinct(r)
    ensures forall x :: x in r <==> x in s
    ensures |r| <= |s|
    ensures Distinct(s) ==> r == s
  {
    if s == [] then []
    else
      var prefix := Dedup(s[..|s| - 1]);
      var last := s[|s| - 1];
      assert forall x :: x in s <==> x in s[..|s| - 1] || x == last;
      assert Distinct(s) ==> Distinct(s[..|s| - 1]) && last !in s[..|s| - 1];
      if last in prefix then prefix else prefix + [last]
  }

  /** The test "not already in s". */
  function NotIn<T(==)>(s: seq<T>): T -> bool
  {
    x => x !in s
  }

  /**
   * `first + second` on Kotlin sets (a linked hash set): the elements of
   * `first`, then those of `second` that are not already present.
   */
  function OrderedUnion<T(==,!new)>(first: seq<T>, second: seq<T>): (r: seq<T>)
    ensures forall x :: x in r <==> x in first || x in second
    ensures Distinct(first) && Distinct(second) ==> Distinct(r)
    ensures |first| <= |r| && r[..|first|] == first
  {
    var extra := Filter(second, NotIn(first));
    FilterSpec(second, NotIn(first));
    assert Distinct(first) && Distinct(second) ==> Distinct(first + extra) by {
      if Distinct(first) && Distinct(second) {
        forall i, j | 0 <= i < j < |first + extra| ensures (first + extra)[i] != (first + extra)[j] {
          if j >= |first| && i < |first| {
            assert (first + extra)[j] in extra;
          }
        }
      }
    }
    first + extra
  }

  /** Converting a list to a set never grows it, and keeps its size exactly when no element repeats. */
  lemma {:induction false} SetOfCardinality<T>(s: seq<T>)
    ensures |SetOf(s)| <= |s|
    ensures |SetOf(s)| == |s| <==> Distinct(s)
  {
    if s != [] {
      SetOfCardinality(s[1..]);
      assert SetOf(s) == {s[0]} + SetOf(s[1..]);
      if s[0] in s[1..] {
        assert SetOf(s) == SetOf(s[1..]);
        var k :| 0 <= k < |s[1..]| && s[1..][k] == s[0];
        assert s[0] == s[k + 1];
      } else {
        assert s[0] !in SetOf(s[1..]);
        assert Distinct(s) <==> Distinct(s[1..]) by {
          if Distinct(s[1..]) {
            forall i, j | 0 <= i < j < |s| ensures s[i] != s[j] {
              if i == 0 { assert s[j] in s[1..]; } else { assert s[i] == s[1..][i - 1]; }
            }
          }
        }
      }
    }
  }

  /** Kotlin's `flatMap`/`flatten`: the rows, one after another. */
  function Flatten<T>(rows: seq<seq<T>>): seq<T>
  {
    if rows == [] then [] else rows[0] + Flatten(rows[1..])
  }

  /** An element of a flattened sequence is an element of one of its rows. */
  lemma {:induction false} FlattenMembers<T>(rows: seq<seq<T>>)
    ensures forall x :: x in Flatten(rows) ==> exists i :: 0 <= i < |rows| && x in rows[i]
    ensures forall i, x :: 0 <= i < |rows| && x in rows[i] ==> x in Flatten(rows)
  {
    if rows != [] {
      var rest := rows[1..];
      FlattenMembers(rest);
      forall x | x in Flatten(rest)
        ensures exists i :: 0 <= i < |rows| && x in rows[i]
      {
        var i :| 0 <= i < |rest| && x in rest[i];
        assert rows[i + 1] == rest[i];
      }
      forall i, x | 0 <= i < |rows| && x in rows[i]
        ensures x in Flatten(rows)
      {
        if i > 0 {
          assert rows[1..][i - 1] == rows[i];
        }
      }
    }
  }

  /** Rows without repetitions that share no element flatten to a sequence without repetitions. */
  lemma {:induction false} FlattenDistinct<T>(rows: seq<seq<T>>)
    requires forall i :: 0 <= i < |rows| ==> Distinct(rows[i])
    requires forall i, j, x :: 0 <= i < j < |rows| && x in rows[i] ==> x !in rows[j]
    ensures Distinct(Flatten(rows))
  {
    if rows != [] {
      var tail := Flatten(rows[1..]);
      FlattenDistinct(rows[1..]);
      FlattenMembers(rows[1..]);
      assert forall x :: x in rows[0] ==> x !in tail;
      var a, b := rows[0], tail;
      forall i, j | 0 <= i < j < |a + b|
        ensures (a + b)[i] != (a + b)[j]
      {
        if i < |a| && j >= |a| {
          assert (a + b)[i] in a && (a + b)[j] in b;
        } else if i >= |a| {
          assert (a + b)[i] == b[i - |a|] && (a + b)[j] == b[j - |a|];
        }
      }
    }
  }

  /** The row-major offset of row i in a matrix of n columns, by repeated addition. */
  function Offset(i: nat, n: nat): nat
  {
    if i == 0 then 0 else n + Offset(i - 1, n)
  }

  lemma {:induction false} OffsetIsProduct(i: nat, n: nat)
    ensures Offset(i, n) == i * n
  {
    if i > 0 {
      OffsetIsProduct(i - 1, n);
    }
  }

  /** Flattening rows of length n: entry j of row i sits at i * n + j. */
  lemma {:induction false} FlattenUniform<T>(rows: seq<seq<T>>, n: nat, i: nat, j: nat)
    requires forall k :: 0 <= k < |rows| ==> |rows[k]| == n
    requires i < |rows| && j < n
    ensures |Flatten(rows)| == Offset(|rows|, n)
    ensures Offset(i, n) + j < |Flatten(rows)|
    ensures Flatten(rows)[Offset(i, n) + j] == rows[i][j]
  {
    var tail := Flatten(rows[1..]);
    if i == 0 {
      if |rows| > 1 {
        FlattenUniform(rows[1..], n, 0, j);
      } else {
        assert tail == [];
      }
    } else {
      FlattenUniform(rows[1..], n, i - 1, j);
      assert rows[1..][i - 1] == rows[i];
      var m := Offset(i - 1, n) + j;
      assert (rows[0] + tail)[n + m] == tail[m];
    }
  }

  /** A map whose keys lie among `keys` and include each of them has exactly those keys. */
  lemma SameKeys<K, V>(m: map<K, V>, keys: set<K>)
    requires m.Keys <= keys
    requires forall k :: k in keys ==> k in m
    ensures m.Keys == keys
  {
    forall k | k in keys ensures k in m { }
  }
}
