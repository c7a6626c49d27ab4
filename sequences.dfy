/** Facts about sequences used by the route models: ordered subsequences,
    the prefix taken by `slice(0, n)`, and the numbers 1..n. */
module Sequences {

  /** a can be obtained from b by deleting elements, keeping the order. */
  ghost predicate IsSubsequence<T>(a: seq<T>, b: seq<T>)
    decreases |b|
  {
    a == [] || (b != [] && ((a[0] == b[0] && IsSubsequence(a[1..], b[1..])) || IsSubsequence(a, b[1..])))
  }

  /** A subsequence is no longer than the sequence it is taken from, and
      holds each element at most as often. */
  lemma {:induction false} SubsequenceElements<T>(a: seq<T>, b: seq<T>)
    requires IsSubsequence(a, b)
    ensures |a| <= |b|
    ensures multiset(a) <= multiset(b)
    decreases |b|
  {
    if a != [] {
      assert b == [b[0]] + b[1..];
      if a[0] == b[0] && IsSubsequence(a[1..], b[1..]) {
        SubsequenceElements(a[1..], b[1..]);
        assert a == [a[0]] + a[1..];
      } else {
        SubsequenceElements(a, b[1..]);
      }
    }
  }

  lemma {:induction false} PrefixOfSubsequence<T>(a: seq<T>, b: seq<T>, k: nat)
    requires IsSubsequence(a, b) && k <= |a|
    ensures IsSubsequence(a[..k], b)
    decreases |b|
  {
    if k > 0 {
      if a[0] == b[0] && IsSubsequence(a[1..], b[1..]) {
        PrefixOfSubsequence(a[1..], b[1..], k - 1);
        assert a[..k][1..] == a[1..][..k - 1];
      } else {
        PrefixOfSubsequence(a, b[1..], k);
      }
    }
  }

  /** The first n elements of s, or all of s when it is shorter. */
  function Take<T>(s: seq<T>, n: nat): (r: seq<T>)
    ensures |r| == if |s| <= n then |s| else n
    ensures r == s[..|r|]
  {
    if |s| <= n then s else s[..n]
  }

  /** The sequence 1, 2, ..., n. */
  function OneTo(n: nat): (r: seq<nat>)
    ensures |r| == n
    ensures forall i :: 0 <= i < n ==> r[i] == i + 1
  {
    seq(n, i requires 0 <= i < n => i + 1)
  }

  lemma OneToSnoc(n: nat)
    ensures OneTo(n + 1) == OneTo(n) + [n + 1]
  {
    assert OneTo(n + 1)[..n] == OneTo(n);
  }

  /** No number occurs twice in 1..n. */
  lemma {:induction false} OneToCountAtMostOne(n: nat, v: nat)
    ensures multiset(OneTo(n))[v] <= 1
    decreases n
  {
    if n > 0 {
      OneToSnoc(n - 1);
      OneToCountAtMostOne(n - 1, v);
      if v == n {
        assert v !in OneTo(n - 1);
      }
    }
  }

  /** A value found at two positions occurs at least twice. */
  lemma TwoPositionsCount<T>(s: seq<T>, i: nat, j: nat)
    requires i < j < |s| && s[i] == s[j]
    ensures multiset(s)[s[i]] >= 2
  {
    assert s == s[..j] + s[j..];
    assert s[i] in s[..j];
    assert s[j] in s[j..];
  }

  /** A sequence with the multiset of 1..n has no repeated element. */
  lemma PermutationOfOneToDistinct(s: seq<nat>)
    requires multiset(s) == multiset(OneTo(|s|))
    ensures forall i, j :: 0 <= i < j < |s| ==> s[i] != s[j]
  {
    forall i, j | 0 <= i < j < |s| ensures s[i] != s[j] {
      if s[i] == s[j] {
        TwoPositionsCount(s, i, j);
        OneToCountAtMostOne(|s|, s[i]);
      }
    }
  }

  /** Each element is larger than the one before it. */
  predicate StepsUp(s: seq<int>) {
    forall i :: 0 < i < |s| ==> s[i - 1] < s[i]
  }

  /** A sequence that steps up is strictly increasing, hence has no
      repeated element. */
  lemma {:induction false} StepsUpIncreasing(s: seq<int>)
    requires StepsUp(s)
    ensures forall i, j :: 0 <= i < j < |s| ==> s[i] < s[j]
    decreases |s|
  {
    if |s| > 1 {
      var init := s[..|s| - 1];
      assert StepsUp(init) by {
        forall i | 0 < i < |init| ensures init[i - 1] < init[i] {
          assert init[i - 1] == s[i - 1] && init[i] == s[i];
        }
      }
      StepsUpIncreasing(init);
      forall i, j | 0 <= i < j < |s| ensures s[i] < s[j] {
        if j < |s| - 1 {
          assert s[i] == init[i] && s[j] == init[j];
        } else if i < j - 1 {
          assert s[i] == init[i] && s[j - 1] == init[j - 1];
        }
      }
    }
  }
}
