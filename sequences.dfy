/**
 * Sequence operations the storefront uses through JavaScript's array methods:
 * `filter`, `reduce` and `[...new Set(xs)]`, with the facts the rest of the
 * model needs about them.
 */
module Sequences {

  /** `sub` is obtained from `s` by deleting elements; the order of what remains is kept. */
  ghost predicate SubsequenceOf<T>(sub: seq<T>, s: seq<T>)
    decreases |s|
  {
    || sub == []
    || (&& s != []
        && (|| (sub[0] == s[0] && SubsequenceOf(sub[1..], s[1..]))
            || SubsequenceOf(sub, s[1..])))
  }

  /** Every element of a subsequence occurs in the whole. */
  lemma {:induction false} SubsequenceMembers<T>(sub: seq<T>, s: seq<T>, x: T)
    requires SubsequenceOf(sub, s) && x in sub
    ensures x in s
    decreases |s|
  {
    if sub[0] == s[0] && SubsequenceOf(sub[1..], s[1..]) {
      if x != sub[0] {
        SubsequenceMembers(sub[1..], s[1..], x);
      }
    } else {
      SubsequenceMembers(sub, s[1..], x);
    }
  }

  /**
   * `s.filter(keep)`: the elements that pass, in their original order, each
   * with its full multiplicity.
   */
  function Filter<T(!new)>(s: seq<T>, keep: T -> bool): (r: seq<T>)
    ensures SubsequenceOf(r, s)
    ensures forall x :: multiset(r)[x] == if keep(x) then multiset(s)[x] else 0
    ensures forall x :: x in r ==> x in s && keep(x)
    ensures (forall i :: 0 <= i < |s| ==> keep(s[i])) ==> r == s
    decreases |s|
  {
    if s == [] then []
    else
      assert s == [s[0]] + s[1..];
      if keep(s[0]) then [s[0]] + Filter(s[1..], keep)
      else Filter(s[1..], keep)
  }

  /** Filtering with predicates that agree everywhere gives the same result. */
  lemma {:induction false} FilterExtensional<T(!new)>(s: seq<T>, f: T -> bool, g: T -> bool)
    requires forall x :: f(x) == g(x)
    ensures Filter(s, f) == Filter(s, g)
    decreases |s|
  {
    if s != [] {
      FilterExtensional(s[1..], f, g);
    }
  }

  /** Two filters in a row keep exactly what passes both. */
  lemma {:induction false} FilterFusion<T(!new)>(s: seq<T>, first: T -> bool, second: T -> bool, both: T -> bool)
    requires forall x :: both(x) == (first(x) && second(x))
    ensures Filter(Filter(s, first), second) == Filter(s, both)
    decreases |s|
  {
    if s != [] {
      FilterFusion(s[1..], first, second, both);
      if first(s[0]) {
        assert Filter(s, first) == [s[0]] + Filter(s[1..], first);
        assert ([s[0]] + Filter(s[1..], first))[1..] == Filter(s[1..], first);
      }
    }
  }

  /** The sum of the weights of the elements (a fold from the right). */
  function Sum<T>(s: seq<T>, w: T -> int): int
    decreases |s|
  {
    if s == [] then 0 else w(s[0]) + Sum(s[1..], w)
  }

  /** JavaScript's `reduce` with an adding callback: the weights added from the left onto `acc`. */
  function Reduce<T>(s: seq<T>, w: T -> int, acc: int): int
    decreases |s|
  {
    if s == [] then acc else Reduce(s[1..], w, acc + w(s[0]))
  }

  /** The left fold that the storefront computes equals the reference sum. */
  lemma {:induction false} ReduceIsSum<T>(s: seq<T>, w: T -> int, acc: int)
    ensures Reduce(s, w, acc) == acc + Sum(s, w)
    decreases |s|
  {
    if s != [] {
      ReduceIsSum(s[1..], w, acc + w(s[0]));
    }
  }

  lemma {:induction false} SumAppend<T>(a: seq<T>, b: seq<T>, w: T -> int)
    ensures Sum(a + b, w) == Sum(a, w) + Sum(b, w)
    decreases |a|
  {
    if a == [] {
      assert a + b == b;
    } else {
      assert (a + b)[1..] == a[1..] + b;
      SumAppend(a[1..], b, w);
    }
  }

  lemma {:induction false} SumUpdate<T>(s: seq<T>, k: nat, x: T, w: T -> int)
    requires k < |s|
    ensures Sum(s[k := x], w) == Sum(s, w) - w(s[k]) + w(x)
    decreases |s|
  {
    if k == 0 {
      assert s[k := x][1..] == s[1..];
    } else {
      assert s[k := x][1..] == s[1..][k - 1 := x];
      SumUpdate(s[1..], k - 1, x, w);
    }
  }

  lemma {:induction false} SumOfZeros<T>(s: seq<T>, w: T -> int)
    requires forall i :: 0 <= i < |s| ==> w(s[i]) == 0
    ensures Sum(s, w) == 0
    decreases |s|
  {
    if s != [] {
      SumOfZeros(s[1..], w);
    }
  }

  /** With every weight at least 1 the sum is at least the length, and equal to it iff every weight is 1. */
  lemma {:induction false} SumAtLeastLength<T>(s: seq<T>, w: T -> int)
    requires forall i :: 0 <= i < |s| ==> w(s[i]) >= 1
    ensures Sum(s, w) >= |s|
    ensures Sum(s, w) == |s| <==> forall i :: 0 <= i < |s| ==> w(s[i]) == 1
    decreases |s|
  {
    if s != [] {
      SumAtLeastLength(s[1..], w);
      assert forall i :: 1 <= i < |s| ==> s[i] == s[1..][i - 1];
    }
  }

  predicate NoDuplicates<T(==)>(s: seq<T>) {
    forall i, j :: 0 <= i < j < |s| ==> s[i] != s[j]
  }

  /** The position of the first occurrence of `x` in `s`. */
  function FirstIndex<T(==)>(s: seq<T>, x: T): (k: nat)
    requires x in s
    ensures k < |s| && s[k] == x && x !in s[..k]
    decreases |s|
  {
    if s[0] == x then 0
    else
      var k := FirstIndex(s[1..], x);
      assert s[..k + 1] == [s[0]] + s[1..][..k];
      k + 1
  }

  /** The first occurrence is the only position holding `x` with no `x` before it. */
  lemma FirstIndexIs<T>(s: seq<T>, x: T, k: nat)
    requires k < |s| && s[k] == x && x !in s[..k]
    ensures FirstIndex(s, x) == k
  {
  }

  lemma FirstIndexInPrefix<T>(s: seq<T>, n: nat, x: T)
    requires n <= |s| && x in s[..n]
    ensures FirstIndex(s, x) == FirstIndex(s[..n], x)
  {
    var k := FirstIndex(s[..n], x);
    assert s[..n][..k] == s[..k];
    FirstIndexIs(s, x, k);
  }

  /** `[...new Set(s)]`: the distinct elements of `s`, in the order of their first occurrence. */
  function Dedupe<T(==)>(s: seq<T>): seq<T>
    decreases |s|
  {
    if s == [] then []
    else
      var d := Dedupe(s[..|s| - 1]);
      if s[|s| - 1] in d then d else d + [s[|s| - 1]]
  }

  lemma {:induction false} DedupeSpec<T>(s: seq<T>)
    ensures NoDuplicates(Dedupe(s))
    ensures forall x :: x in Dedupe(s) <==> x in s
    ensures forall i, j :: 0 <= i < j < |Dedupe(s)| ==> FirstIndex(s, Dedupe(s)[i]) < FirstIndex(s, Dedupe(s)[j])
    decreases |s|
  {
    if s != [] {
      var init, last := s[..|s| - 1], s[|s| - 1];
      assert s == init + [last];
      DedupeSpec(init);
      var d := Dedupe(init);
      forall x | x in init
        ensures FirstIndex(s, x) == FirstIndex(init, x)
      {
        FirstIndexInPrefix(s, |s| - 1, x);
      }
      if last !in d {
        FirstIndexIs(s, last, |s| - 1);
        assert Dedupe(s) == d + [last];
      }
    }
  }
}
