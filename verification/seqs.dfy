/**
 * The Swift collection operations the core is written with: `filter`,
 * `reduce(0, +)`, `sorted(by:)` and `reversed()`, as functions on sequences
 * with the properties the rest of the model relies on.
 */
module Seqs {

  /** The elements of `s` that `keep` accepts, in their original order (Swift's `filter`).
      Each accepted element keeps its multiplicity; every other element is dropped. */
  function Filter<T(!new)>(s: seq<T>, keep: T -> bool): (r: seq<T>)
    ensures |r| <= |s|
    ensures forall x :: x in r <==> x in s && keep(x)
    decreases |s|
  {
    if s == [] then []
    else
      var init, last := s[..|s| - 1], s[|s| - 1];
      SplitLast(s);
      Filter(init, keep) + if keep(last) then [last] else []
  }

  /** How many copies of `x` a filter keeps: all of them if `keep` accepts it, none otherwise. */
  lemma {:induction false} FilterCount<T(!new)>(s: seq<T>, keep: T -> bool, x: T)
    ensures multiset(Filter(s, keep))[x] == if keep(x) then multiset(s)[x] else 0
    decreases |s|
  {
    if s != [] {
      var init, last := s[..|s| - 1], s[|s| - 1];
      SplitLast(s);
      FilterCount(init, keep, x);
    }
  }

  /** A filter that accepts no element returns the empty sequence. */
  lemma {:induction false} FilterKeepsNone<T(!new)>(s: seq<T>, keep: T -> bool)
    requires forall x :: x in s ==> !keep(x)
    ensures Filter(s, keep) == []
    decreases |s|
  {
    if s != [] {
      FilterKeepsNone(s[..|s| - 1], keep);
      assert s[|s| - 1] in s;
    }
  }

  /** Filtering distributes over concatenation: it never reorders what it keeps. */
  lemma {:induction false} FilterConcat<T(!new)>(a: seq<T>, b: seq<T>, keep: T -> bool)
    ensures Filter(a + b, keep) == Filter(a, keep) + Filter(b, keep)
    decreases |b|
  {
    if b == [] {
      assert a + b == a;
    } else {
      var init, last := b[..|b| - 1], b[|b| - 1];
      var tail := if keep(last) then [last] else [];
      assert (a + b)[..|a + b| - 1] == a + init;
      assert (a + b)[|a + b| - 1] == last;
      calc {
        Filter(a + b, keep);
        Filter(a + init, keep) + tail;
        { FilterConcat(a, init, keep); }
        Filter(a, keep) + Filter(init, keep) + tail;
        Filter(a, keep) + Filter(b, keep);
      }
    }
  }

  /** A non-empty sequence is its front followed by its last element. */
  lemma SplitLast<T>(s: seq<T>)
    requires s != []
    ensures s[..|s| - 1] + [s[|s| - 1]] == s
  {
  }

  /** A filter that accepts every element returns the sequence unchanged. */
  lemma {:induction false} FilterKeepsAll<T(!new)>(s: seq<T>, keep: T -> bool)
    requires forall x :: x in s ==> keep(x)
    ensures Filter(s, keep) == s
    decreases |s|
  {
    if s != [] {
      var init, last := s[..|s| - 1], s[|s| - 1];
      forall x | x in init ensures keep(x) { assert x in s; }
      FilterKeepsAll(init, keep);
      assert keep(last);
      SplitLast(s);
    }
  }

  /** Swift's `reduce(0.0) { $0 + f($1) }`, folded from the left. */
  function SumReal<T>(s: seq<T>, f: T -> real): real
    decreases |s|
  {
    if s == [] then 0.0 else SumReal(s[..|s| - 1], f) + f(s[|s| - 1])
  }

  /** Swift's `reduce(0) { $0 + f($1) }` on `Int`, folded from the left. */
  function SumInt<T>(s: seq<T>, f: T -> int): int
    decreases |s|
  {
    if s == [] then 0 else SumInt(s[..|s| - 1], f) + f(s[|s| - 1])
  }

  lemma {:induction false} SumRealConcat<T>(a: seq<T>, b: seq<T>, f: T -> real)
    ensures SumReal(a + b, f) == SumReal(a, f) + SumReal(b, f)
    decreases |b|
  {
    if b != [] {
      assert (a + b)[..|a + b| - 1] == a + b[..|b| - 1];
      assert (a + b)[|a + b| - 1] == b[|b| - 1];
      SumRealConcat(a, b[..|b| - 1], f);
    } else {
      assert a + b == a;
    }
  }

  lemma {:induction false} SumIntConcat<T>(a: seq<T>, b: seq<T>, f: T -> int)
    ensures SumInt(a + b, f) == SumInt(a, f) + SumInt(b, f)
    decreases |b|
  {
    if b != [] {
      assert (a + b)[..|a + b| - 1] == a + b[..|b| - 1];
      assert (a + b)[|a + b| - 1] == b[|b| - 1];
      SumIntConcat(a, b[..|b| - 1], f);
    } else {
      assert a + b == a;
    }
  }

  /** The complement of a filter condition. */
  function Not<T>(keep: T -> bool): T -> bool {
    x => !keep(x)
  }

  /** A filter and its complement split a sequence: their lengths add up to its length. */
  lemma {:induction false} FilterPartitionCount<T(!new)>(s: seq<T>, keep: T -> bool)
    ensures |Filter(s, keep)| + |Filter(s, Not(keep))| == |s|
    decreases |s|
  {
    if s != [] {
      FilterPartitionCount(s[..|s| - 1], keep);
    }
  }

  /** Summing a sequence extended by one element. */
  lemma SumAppend<T>(s: seq<T>, x: T, f: T -> real, g: T -> int)
    ensures SumReal(s + [x], f) == SumReal(s, f) + f(x)
    ensures SumInt(s + [x], g) == SumInt(s, g) + g(x)
  {
    assert (s + [x])[..|s|] == s;
  }

  /** A filter and its complement split a sequence: their sums add up to its sum. */
  lemma {:induction false} FilterPartitionReal<T(!new)>(s: seq<T>, keep: T -> bool, f: T -> real)
    ensures SumReal(Filter(s, keep), f) + SumReal(Filter(s, Not(keep)), f) == SumReal(s, f)
    decreases |s|
  {
    if s != [] {
      var init, last := s[..|s| - 1], s[|s| - 1];
      var kept, dropped := Filter(init, keep), Filter(init, Not(keep));
      FilterPartitionReal(init, keep, f);
      assert Not(keep)(last) == !keep(last);
      if keep(last) {
        assert Filter(s, keep) == kept + [last];
        assert Filter(s, Not(keep)) == dropped;
        assert (kept + [last])[..|kept|] == kept;
      } else {
        assert Filter(s, keep) == kept;
        assert Filter(s, Not(keep)) == dropped + [last];
        assert (dropped + [last])[..|dropped|] == dropped;
      }
    }
  }

  /** The integer counterpart of `FilterPartitionReal`. */
  lemma {:induction false} FilterPartitionInt<T(!new)>(s: seq<T>, keep: T -> bool, g: T -> int)
    ensures SumInt(Filter(s, keep), g) + SumInt(Filter(s, Not(keep)), g) == SumInt(s, g)
    decreases |s|
  {
    if s != [] {
      var init, last := s[..|s| - 1], s[|s| - 1];
      var kept, dropped := Filter(init, keep), Filter(init, Not(keep));
      FilterPartitionInt(init, keep, g);
      assert Not(keep)(last) == !keep(last);
      if keep(last) {
        assert Filter(s, keep) == kept + [last];
        assert Filter(s, Not(keep)) == dropped;
        assert (kept + [last])[..|kept|] == kept;
      } else {
        assert Filter(s, keep) == kept;
        assert Filter(s, Not(keep)) == dropped + [last];
        assert (dropped + [last])[..|dropped|] == dropped;
      }
    }
  }

  /** Taking one element out of a sequence takes its value out of the real sum. */
  lemma {:induction false} SumRealRemoveAt<T>(b: seq<T>, p: nat, f: T -> real)
    requires p < |b|
    ensures SumReal(b, f) == SumReal(RemoveAt(b, p), f) + f(b[p])
    decreases |b|
  {
    var r := RemoveAt(b, p);
    if p < |b| - 1 {
      var init := b[..|b| - 1];
      assert r[..|r| - 1] == RemoveAt(init, p);
      SumRealRemoveAt(init, p, f);
    } else {
      assert r == b[..|b| - 1];
    }
  }

  /** Taking one element out of a sequence takes its value out of the integer sum. */
  lemma {:induction false} SumIntRemoveAt<T>(b: seq<T>, p: nat, g: T -> int)
    requires p < |b|
    ensures SumInt(b, g) == SumInt(RemoveAt(b, p), g) + g(b[p])
    decreases |b|
  {
    var r := RemoveAt(b, p);
    if p < |b| - 1 {
      var init := b[..|b| - 1];
      assert r[..|r| - 1] == RemoveAt(init, p);
      SumIntRemoveAt(init, p, g);
    } else {
      assert r == b[..|b| - 1];
    }
  }

  /** Sums do not depend on order: a permutation has the same sums. */
  lemma {:induction false} SumPermutation<T>(a: seq<T>, b: seq<T>, f: T -> real, g: T -> int)
    requires multiset(a) == multiset(b)
    ensures SumReal(a, f) == SumReal(b, f)
    ensures SumInt(a, g) == SumInt(b, g)
    decreases |a|
  {
    if a == [] {
      assert |multiset(b)| == 0;
    } else {
      var init, last := a[..|a| - 1], a[|a| - 1];
      assert RemoveAt(a, |a| - 1) == init;
      assert last in multiset(a);
      var p :| 0 <= p < |b| && b[p] == last;
      SumPermutation(init, RemoveAt(b, p), f, g);
      SumRealRemoveAt(b, p, f);
      SumIntRemoveAt(b, p, g);
    }
  }

  /** `s` is ordered non-increasing by `key`. */
  predicate SortedDesc<T>(s: seq<T>, key: T -> real) {
    forall i, j :: 0 <= i < j < |s| ==> key(s[i]) >= key(s[j])
  }

  /** Inserts `x` before the first element whose key is not larger than its own. */
  function Insert<T(!new)>(x: T, t: seq<T>, key: T -> real): (r: seq<T>)
    ensures multiset(r) == multiset(t) + multiset{x}
    decreases |t|
  {
    if t == [] || key(x) >= key(t[0]) then [x] + t
    else
      assert t == [t[0]] + t[1..];
      [t[0]] + Insert(x, t[1..], key)
  }

  /** A head whose key bounds the sorted rest from above keeps the sequence sorted. */
  lemma ConsSorted<T>(h: T, rest: seq<T>, key: T -> real)
    requires SortedDesc(rest, key)
    requires forall k :: 0 <= k < |rest| ==> key(rest[k]) <= key(h)
    ensures SortedDesc([h] + rest, key)
  {
    var r := [h] + rest;
    forall i, j | 0 <= i < j < |r| ensures key(r[i]) >= key(r[j]) {
      assert r[j] == rest[j - 1];
      if i > 0 { assert r[i] == rest[i - 1]; }
    }
  }

  /** An upper bound on the keys of `t` and of `x` bounds the keys after insertion. */
  lemma {:induction false} InsertBound<T(!new)>(x: T, t: seq<T>, key: T -> real, b: real)
    requires key(x) <= b
    requires forall k :: 0 <= k < |t| ==> key(t[k]) <= b
    ensures forall k :: 0 <= k < |Insert(x, t, key)| ==> key(Insert(x, t, key)[k]) <= b
    decreases |t|
  {
    if t != [] && key(x) < key(t[0]) {
      InsertBound(x, t[1..], key, b);
    }
  }

  /** Inserting into a sorted sequence keeps it sorted. */
  lemma {:induction false} InsertSorted<T(!new)>(x: T, t: seq<T>, key: T -> real)
    requires SortedDesc(t, key)
    ensures SortedDesc(Insert(x, t, key), key)
    decreases |t|
  {
    if t == [] || key(x) >= key(t[0]) {
      ConsSorted(x, t, key);
    } else {
      InsertSorted(x, t[1..], key);
      InsertBound(x, t[1..], key, key(t[0]));
      ConsSorted(t[0], Insert(x, t[1..], key), key);
    }
  }

  /** Swift's `sorted { key($0) > key($1) }`, as a stable insertion sort: the result is
      ordered non-increasing by `key` and is a permutation of the input. */
  function SortDesc<T(!new)>(s: seq<T>, key: T -> real): (r: seq<T>)
    ensures SortedDesc(r, key)
    ensures multiset(r) == multiset(s)
    decreases |s|
  {
    if s == [] then []
    else
      assert s == [s[0]] + s[1..];
      InsertSorted(s[0], SortDesc(s[1..], key), key);
      Insert(s[0], SortDesc(s[1..], key), key)
  }

  /** Sorting what is already sorted changes nothing. */
  lemma {:induction false} SortDescOfSorted<T(!new)>(s: seq<T>, key: T -> real)
    requires SortedDesc(s, key)
    ensures SortDesc(s, key) == s
    decreases |s|
  {
    if s != [] {
      SortDescOfSorted(s[1..], key);
      assert s == [s[0]] + s[1..];
    }
  }

  /** No two positions of `s` share a `key`. */
  predicate DistinctBy<T, K(==)>(s: seq<T>, key: T -> K) {
    forall i, j :: 0 <= i < j < |s| ==> key(s[i]) != key(s[j])
  }

  /** `a` without its element at position `p`. */
  function RemoveAt<T>(a: seq<T>, p: nat): (r: seq<T>)
    requires p < |a|
    ensures |r| == |a| - 1
    ensures forall i :: 0 <= i < p ==> r[i] == a[i]
    ensures forall i :: p <= i < |r| ==> r[i] == a[i + 1]
    ensures multiset(r) == multiset(a) - multiset{a[p]}
  {
    assert a == a[..p] + [a[p]] + a[p + 1..];
    a[..p] + a[p + 1..]
  }

  lemma DistinctByRemoveAt<T, K>(a: seq<T>, p: nat, key: T -> K)
    requires p < |a| && DistinctBy(a, key)
    ensures DistinctBy(RemoveAt(a, p), key)
    ensures forall y :: y in RemoveAt(a, p) ==> key(y) != key(a[p])
  {
    var r := RemoveAt(a, p);
    forall i, j | 0 <= i < j < |r| ensures key(r[i]) != key(r[j]) {
      var i', j' := if i < p then i else i + 1, if j < p then j else j + 1;
      assert r[i] == a[i'] && r[j] == a[j'];
    }
    forall y | y in r ensures key(y) != key(a[p]) {
      var q :| 0 <= q < |r| && r[q] == y;
      var q' := if q < p then q else q + 1;
      assert a[q'] == y;
    }
  }

  lemma ConsDistinctBy<T, K>(x: T, rest: seq<T>, key: T -> K)
    requires DistinctBy(rest, key)
    requires forall y :: y in rest ==> key(y) != key(x)
    ensures DistinctBy([x] + rest, key)
  {
    var b := [x] + rest;
    forall i, j | 0 <= i < j < |b| ensures key(b[i]) != key(b[j]) {
      assert b[j] == rest[j - 1];
      if i > 0 {
        assert b[i] == rest[i - 1];
      }
    }
  }

  /** A permutation of a sequence whose keys are distinct has distinct keys too. */
  lemma {:induction false} DistinctByPermutation<T, K>(a: seq<T>, b: seq<T>, key: T -> K)
    requires multiset(a) == multiset(b)
    requires DistinctBy(a, key)
    ensures DistinctBy(b, key)
    decreases |b|
  {
    if b != [] {
      var x, rest := b[0], b[1..];
      assert b == [x] + rest;
      assert x in multiset(b);
      var p :| 0 <= p < |a| && a[p] == x;
      var a' := RemoveAt(a, p);
      DistinctByRemoveAt(a, p, key);
      assert multiset(a') == multiset(rest);
      DistinctByPermutation(a', rest, key);
      forall y | y in rest ensures key(y) != key(x) {
        assert y in multiset(a');
      }
      ConsDistinctBy(x, rest, key);
    }
  }

  /** Swift's `reversed()`. */
  function Reversed<T>(s: seq<T>): (r: seq<T>)
    ensures |r| == |s|
    ensures forall k :: 0 <= k < |s| ==> r[k] == s[|s| - 1 - k]
    decreases |s|
  {
    if s == [] then [] else [s[|s| - 1]] + Reversed(s[..|s| - 1])
  }
}
