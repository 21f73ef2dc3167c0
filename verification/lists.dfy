/** The array operations the pages use: `filter`, `map` and de-duplication through a `Set`. */
module Lists {

  /** `a` is `b` with some elements left out, the rest in their original order. */
  predicate IsSubsequence<T(==)>(a: seq<T>, b: seq<T>)
    decreases |b|
  {
    a == [] || (b != [] && ((a[0] == b[0] && IsSubsequence(a[1..], b[1..])) || IsSubsequence(a, b[1..])))
  }

  /** A subsequence is never longer than the sequence it is taken from. */
  lemma {:induction false} SubsequenceLength<T>(a: seq<T>, b: seq<T>)
    requires IsSubsequence(a, b)
    ensures |a| <= |b|
    decreases |b|
  {
    if a != [] {
      if a[0] == b[0] && IsSubsequence(a[1..], b[1..]) {
        SubsequenceLength(a[1..], b[1..]);
      } else {
        SubsequenceLength(a, b[1..]);
      }
    }
  }

  /** `xs.filter(keep)`: every element `keep` accepts, as often as it occurs, in its original order. */
  function Filter<T(==,!new)>(xs: seq<T>, keep: T -> bool): (r: seq<T>)
    ensures IsSubsequence(r, xs)
    ensures forall i :: 0 <= i < |r| ==> r[i] in xs && keep(r[i])
    ensures forall i :: 0 <= i < |xs| && keep(xs[i]) ==> xs[i] in r
    ensures forall x :: multiset(r)[x] == if keep(x) then multiset(xs)[x] else 0
  {
    if xs == [] then []
    else
      var rest := Filter(xs[1..], keep);
      assert multiset(xs) == multiset{xs[0]} + multiset(xs[1..]) by {
        assert xs == [xs[0]] + xs[1..];
      }
      if keep(xs[0]) then
        assert ([xs[0]] + rest)[1..] == rest;
        assert multiset([xs[0]] + rest) == multiset{xs[0]} + multiset(rest);
        [xs[0]] + rest
      else rest
  }

  /** A filter keeps every element when `keep` accepts them all. */
  lemma {:induction false} FilterKeepsAll<T(!new)>(xs: seq<T>, keep: T -> bool)
    requires forall i :: 0 <= i < |xs| ==> keep(xs[i])
    ensures Filter(xs, keep) == xs
  {
    if xs != [] {
      FilterKeepsAll(xs[1..], keep);
      assert [xs[0]] + xs[1..] == xs;
    }
  }

  /** Two tests that agree on every element filter alike. */
  lemma {:induction false} FilterAgreeing<T(!new)>(xs: seq<T>, keep: T -> bool, other: T -> bool)
    requires forall i :: 0 <= i < |xs| ==> keep(xs[i]) == other(xs[i])
    ensures Filter(xs, keep) == Filter(xs, other)
  {
    if xs != [] {
      FilterAgreeing(xs[1..], keep, other);
    }
  }

  /** Filtering twice with the same test is filtering once. */
  lemma {:induction false} FilterIdempotent<T(!new)>(xs: seq<T>, keep: T -> bool)
    ensures Filter(Filter(xs, keep), keep) == Filter(xs, keep)
  {
    FilterKeepsAll(Filter(xs, keep), keep);
  }

  /** `xs.map(x => hit(x) ? with : x)`: every element `hit` accepts is replaced by `with`, the others stay. */
  function ReplaceWhere<T>(xs: seq<T>, hit: T -> bool, with: T): (r: seq<T>)
    ensures |r| == |xs|
    ensures forall i :: 0 <= i < |xs| && !hit(xs[i]) ==> r[i] == xs[i]
    ensures forall i :: 0 <= i < |xs| && hit(xs[i]) ==> r[i] == with
  {
    seq(|xs|, i requires 0 <= i < |xs| => if hit(xs[i]) then with else xs[i])
  }

  predicate NoDuplicates<T(==)>(xs: seq<T>) {
    forall i, j :: 0 <= i < j < |xs| ==> xs[i] != xs[j]
  }

  /** The position of the first occurrence of `x` in `xs`. */
  function IndexOf<T(==)>(xs: seq<T>, x: T): (k: nat)
    requires x in xs
    ensures k < |xs| && xs[k] == x
    ensures forall j :: 0 <= j < k ==> xs[j] != x
  {
    if xs[0] == x then 0 else IndexOf(xs[1..], x) + 1
  }

  /** The first occurrence of an element of a prefix lies in that prefix. */
  lemma {:induction false} IndexOfInPrefix<T>(xs: seq<T>, y: T, x: T)
    requires x in xs
    ensures IndexOf(xs + [y], x) == IndexOf(xs, x)
  {
    if xs[0] != x {
      assert (xs + [y])[1..] == xs[1..] + [y];
      IndexOfInPrefix(xs[1..], y, x);
    }
  }

  /**
   * `[...new Set(xs)]`: each distinct element once, in the order of its first
   * occurrence in `xs`.
   */
  function Unique<T(==)>(xs: seq<T>): (r: seq<T>)
    ensures NoDuplicates(r)
    ensures forall i :: 0 <= i < |r| ==> r[i] in xs
    ensures forall i :: 0 <= i < |xs| ==> xs[i] in r
    ensures forall i, j :: 0 <= i < j < |r| ==> IndexOf(xs, r[i]) < IndexOf(xs, r[j])
  {
    if xs == [] then []
    else
      var init := xs[..|xs| - 1];
      var last := xs[|xs| - 1];
      assert xs == init + [last];
      var r := Unique(init);
      forall x | x in r
        ensures IndexOf(xs, x) == IndexOf(init, x)
      {
        IndexOfInPrefix(init, last, x);
      }
      if last in r then
        CoversAppended(xs, init, last, r);
        r
      else
        CoversAppended(xs, init, last, r + [last]);
        UniqueAppended(xs, init, last, r);
        r + [last]
  }

  /** A result holding `last` and every element of `init` holds every element of `init + [last]`. */
  lemma CoversAppended<T>(xs: seq<T>, init: seq<T>, last: T, r: seq<T>)
    requires xs == init + [last] && last in r
    requires forall i :: 0 <= i < |init| ==> init[i] in r
    ensures forall i :: 0 <= i < |xs| ==> xs[i] in r
  {
    forall i | 0 <= i < |xs| ensures xs[i] in r {
      if i < |init| {
        assert xs[i] == init[i];
      }
    }
  }

  /** An element not seen before `last` first occurs at the end. */
  lemma FirstSeenLast<T>(xs: seq<T>, init: seq<T>, last: T, r: seq<T>)
    requires xs == init + [last] && last !in r
    requires forall i :: 0 <= i < |init| ==> init[i] in r
    ensures IndexOf(xs, last) == |xs| - 1
  {
  }

  /** A step of `Unique` whose new element is first seen at the end. */
  lemma UniqueAppended<T>(xs: seq<T>, init: seq<T>, last: T, r: seq<T>)
    requires xs == init + [last] && last !in r
    requires forall i :: 0 <= i < |r| ==> r[i] in init
    requires forall i :: 0 <= i < |init| ==> init[i] in r
    requires forall x :: x in r ==> IndexOf(xs, x) == IndexOf(init, x)
    requires forall i, j :: 0 <= i < j < |r| ==> IndexOf(init, r[i]) < IndexOf(init, r[j])
    ensures forall i, j :: 0 <= i < j < |r| + 1 ==> IndexOf(xs, (r + [last])[i]) < IndexOf(xs, (r + [last])[j])
  {
    FirstSeenLast(xs, init, last, r);
    var u := r + [last];
    forall i, j | 0 <= i < j < |u|
      ensures IndexOf(xs, u[i]) < IndexOf(xs, u[j])
    {
      assert u[i] == r[i];
      if j < |r| {
        assert u[j] == r[j];
      } else {
        assert r[i] in init;
      }
    }
  }

  /** Removing duplicates again changes nothing. */
  lemma {:induction false} UniqueOfUnique<T>(xs: seq<T>)
    requires NoDuplicates(xs)
    ensures Unique(xs) == xs
  {
    if xs != [] {
      var init := xs[..|xs| - 1];
      var last := xs[|xs| - 1];
      assert xs == init + [last];
      assert NoDuplicates(init);
      UniqueOfUnique(init);
      assert last !in init by {
        forall i | 0 <= i < |init| ensures init[i] != last {
          assert init[i] == xs[i];
        }
      }
    }
  }
}
