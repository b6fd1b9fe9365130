/** Generic facts about sequences used by the queue model: distinctness and
    order-preserving selection (subsequences). */
module Sequences {

  /** No value occurs at two different positions of `xs`. */
  predicate NoDuplicates<T(==)>(xs: seq<T>) {
    forall i, j :: 0 <= i < |xs| && 0 <= j < |xs| && i != j ==> xs[i] != xs[j]
  }

  /** `a` is obtained from `b` by deleting elements, keeping the order of the rest. */
  predicate IsSubsequence<T(==)>(a: seq<T>, b: seq<T>)
    decreases |b|
  {
    |a| <= |b| &&
    (a == [] || (a[0] == b[0] && IsSubsequence(a[1..], b[1..])) || IsSubsequence(a, b[1..]))
  }

  /** Position-wise distinctness is the same as every value being counted at most once. */
  lemma NoDuplicatesIffCountsAtMostOne<T>(xs: seq<T>)
    ensures NoDuplicates(xs) <==> forall x :: multiset(xs)[x] <= 1
  {
    if NoDuplicates(xs) {
      NoDuplicatesCountsAtMostOne(xs);
    }
    if forall x :: multiset(xs)[x] <= 1 {
      CountsAtMostOneNoDuplicates(xs);
    }
  }

  lemma {:induction false} NoDuplicatesCountsAtMostOne<T>(xs: seq<T>)
    requires NoDuplicates(xs)
    ensures forall x :: multiset(xs)[x] <= 1
    decreases |xs|
  {
    if xs != [] {
      var a, t := xs[0], xs[1..];
      assert xs == [a] + t;
      assert multiset(xs) == multiset{a} + multiset(t);
      forall i, j | 0 <= i < |t| && 0 <= j < |t| && i != j
        ensures t[i] != t[j]
      {
        assert t[i] == xs[i + 1] && t[j] == xs[j + 1];
      }
      NoDuplicatesCountsAtMostOne(t);
      NoDuplicatesHead(xs);
      forall x ensures multiset(xs)[x] <= 1 {
        if x == a {
          assert multiset(t)[a] == 0;
        }
      }
    }
  }

  lemma {:induction false} CountsAtMostOneNoDuplicates<T>(xs: seq<T>)
    requires forall x :: multiset(xs)[x] <= 1
    ensures NoDuplicates(xs)
    decreases |xs|
  {
    if xs != [] {
      var a, t := xs[0], xs[1..];
      assert xs == [a] + t;
      assert multiset(xs) == multiset{a} + multiset(t);
      assert multiset(xs)[a] == 1 + multiset(t)[a];
      forall x ensures multiset(t)[x] <= 1 {
        assert multiset(t)[x] <= multiset(xs)[x];
      }
      CountsAtMostOneNoDuplicates(t);
      forall i, j | 0 <= i < |xs| && 0 <= j < |xs| && i != j
        ensures xs[i] != xs[j]
      {
        if i == 0 {
          assert xs[j] == t[j - 1];
        } else if j == 0 {
          assert xs[i] == t[i - 1];
        } else {
          assert xs[i] == t[i - 1] && xs[j] == t[j - 1];
        }
      }
    }
  }

  /** The first element of a duplicate-free sequence does not recur. */
  lemma NoDuplicatesHead<T>(xs: seq<T>)
    requires NoDuplicates(xs)
    requires xs != []
    ensures xs[0] !in xs[1..]
  {
    forall k | 0 <= k < |xs| - 1
      ensures xs[1..][k] != xs[0]
    {
      assert xs[1..][k] == xs[k + 1];
    }
  }

  /** Taking away occurrences cannot create a duplicate. */
  lemma NoDuplicatesOfSubMultiset<T>(a: seq<T>, b: seq<T>)
    requires multiset(a) <= multiset(b)
    requires NoDuplicates(b)
    ensures NoDuplicates(a)
  {
    NoDuplicatesIffCountsAtMostOne(a);
    NoDuplicatesIffCountsAtMostOne(b);
    forall x ensures multiset(a)[x] <= 1 {
      assert multiset(a)[x] <= multiset(b)[x];
    }
  }

  /** If `after` plus `lost` is a rearrangement of a duplicate-free `before`,
      then `after` is duplicate-free and what it misses is in `lost`. */
  lemma LossKeepsDistinct<T>(before: seq<T>, after: seq<T>, lost: seq<T>)
    requires multiset(after) + multiset(lost) == multiset(before)
    requires NoDuplicates(before)
    ensures NoDuplicates(after)
    ensures forall x :: x in before && x !in after ==> x in lost
  {
    NoDuplicatesOfSubMultiset(after, before);
    forall x | x in before && x !in after
      ensures x in lost
    {
      assert x in multiset(before);
      assert x !in multiset(after);
      assert x in multiset(lost);
    }
  }

  /** Every sequence is a subsequence of itself. */
  lemma {:induction false} SubsequenceReflexive<T>(a: seq<T>)
    ensures IsSubsequence(a, a)
    decreases |a|
  {
    if a != [] {
      SubsequenceReflexive(a[1..]);
    }
  }

  /** Deleting the element at position `i` leaves a subsequence. */
  lemma {:induction false} RemoveAtIsSubsequence<T>(s: seq<T>, i: nat)
    requires i < |s|
    ensures IsSubsequence(s[..i] + s[i + 1..], s)
    decreases i
  {
    var r := s[..i] + s[i + 1..];
    if i == 0 {
      assert r == s[1..];
      SubsequenceReflexive(s[1..]);
    } else {
      var t := s[1..];
      assert t[..i - 1] + t[i..] == r[1..];
      RemoveAtIsSubsequence(t, i - 1);
      assert r[0] == s[0];
    }
  }
}
