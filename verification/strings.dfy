/**
 * Ordering of strings, for Swift's `sorted()` on `[String]`: lexicographic
 * comparison of the characters. Unicode canonical equivalence, which Swift's
 * `String` comparison also honours, is not modelled.
 */
module Strings {

  /** `a` sorts strictly before `b`. */
  predicate Less(a: string, b: string)
    decreases |a|
  {
    if a == [] then b != []
    else if b == [] then false
    else a[0] < b[0] || (a[0] == b[0] && Less(a[1..], b[1..]))
  }

  /** No string sorts strictly before itself. */
  lemma {:induction false} LessIrreflexive(a: string)
    ensures !Less(a, a)
    decreases |a|
  {
    if a != [] {
      LessIrreflexive(a[1..]);
    }
  }

  lemma {:induction false} LessTransitive(a: string, b: string, c: string)
    requires Less(a, b) && Less(b, c)
    ensures Less(a, c)
    decreases |a|
  {
    if a != [] && b != [] && c != [] && a[0] == b[0] == c[0] {
      LessTransitive(a[1..], b[1..], c[1..]);
    }
  }

  /** Any two different strings are ordered one way or the other. */
  lemma {:induction false} LessTotal(a: string, b: string)
    requires a != b
    ensures Less(a, b) || Less(b, a)
    decreases |a|
  {
    if a != [] && b != [] && a[0] == b[0] {
      assert a == [a[0]] + a[1..] && b == [b[0]] + b[1..];
      LessTotal(a[1..], b[1..]);
    }
  }

  /** Every earlier element sorts strictly before every later one: ascending, no duplicates. */
  predicate StrictlyAscending(s: seq<string>) {
    forall i, j :: 0 <= i < j < |s| ==> Less(s[i], s[j])
  }

  /** A strictly ascending list holds each string at most once. */
  lemma AscendingHasNoDuplicates(s: seq<string>)
    requires StrictlyAscending(s)
    ensures forall i, j :: 0 <= i < j < |s| ==> s[i] != s[j]
  {
    forall i, j | 0 <= i < j < |s| ensures s[i] != s[j] {
      LessIrreflexive(s[i]);
    }
  }

  /** Adds `x` to an ascending list unless it is already there. */
  function InsertUnique(x: string, t: seq<string>): (r: seq<string>)
    requires StrictlyAscending(t)
    ensures StrictlyAscending(r)
    ensures forall y :: y in r <==> y in t || y == x
    decreases |t|
  {
    if t == [] then [x]
    else if x == t[0] then t
    else if Less(x, t[0]) then
      assert StrictlyAscending([x] + t) by {
        forall j | 0 <= j < |t| ensures Less(x, t[j]) {
          if j > 0 { LessTransitive(x, t[0], t[j]); }
        }
      }
      [x] + t
    else
      LessTotal(x, t[0]);
      var rest := InsertUnique(x, t[1..]);
      assert t == [t[0]] + t[1..];
      assert forall y :: y in rest ==> Less(t[0], y);
      [t[0]] + rest
  }

  /** `Array(Set(names)).sorted()`: the distinct names in ascending order. */
  function SortedDistinct(names: seq<string>): (r: seq<string>)
    ensures StrictlyAscending(r)
    ensures forall y :: y in r <==> y in names
    decreases |names|
  {
    if names == [] then []
    else
      assert names == [names[0]] + names[1..];
      InsertUnique(names[0], SortedDistinct(names[1..]))
  }
}
