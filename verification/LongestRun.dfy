/** The longest stretch of equal words: the two searches of srcs/Daphne.cpp and client/align_all_afes.py
    and the midpoint each takes. */
module LongestRun {

  import opened Wrappers

  /** s[first..last] inclusive are all equal. */
  predicate IsRun<T(==)>(s: seq<T>, first: nat, last: nat) {
    first <= last < |s| && forall i :: first <= i <= last ==> s[i] == s[first]
  }

  /** A run no other run is longer than, and the leftmost of those as long. */
  ghost predicate Longest<T>(s: seq<T>, first: nat, last: nat) {
    && IsRun(s, first, last)
    && forall a: nat, b: nat :: IsRun(s, a, b) ==>
         b - a < last - first || (b - a == last - first && first <= a)
  }

  lemma LongestIsUnique<T>(s: seq<T>, a: nat, b: nat, c: nat, d: nat)
    requires Longest(s, a, b) && Longest(s, c, d)
    ensures a == c && b == d
  {
    assert IsRun(s, a, b) && IsRun(s, c, d);
  }

  /** While scanning up to n: every run that ends before n is either inside the run being scanned, which
      starts at current, or not better than the best closed one. */
  ghost predicate Scanned<T>(s: seq<T>, n: nat, start: nat, length: nat, current: nat) {
    && 0 <= current < n <= |s| && IsRun(s, current, n - 1)
    && length > 0 && start + length <= n && IsRun(s, start, start + length - 1)
    && (current > 0 ==> s[current - 1] != s[current])
    && start <= current
    && (start == current ==> length == 1)
    && (forall a: nat, b: nat :: IsRun(s, a, b) && b < n ==>
          || current <= a
          || b - a + 1 < length || (b - a + 1 == length && start <= a))
  }

  /** A run cannot reach across a change of word. */
  lemma RunsStopAtChanges<T>(s: seq<T>, a: nat, b: nat, at: nat)
    requires IsRun(s, a, b) && 0 < at < |s| && s[at - 1] != s[at]
    ensures b < at || at <= a
  {
  }

  lemma ScanExtends<T>(s: seq<T>, n: nat, start: nat, length: nat, current: nat)
    requires Scanned(s, n, start, length, current) && n < |s| && s[n] == s[n - 1]
    ensures Scanned(s, n + 1, start, length, current)
  {
    forall a: nat, b: nat | IsRun(s, a, b) && b < n + 1
      ensures current <= a || b - a + 1 < length || (b - a + 1 == length && start <= a)
    {
      if a < current {
        RunsStopAtChanges(s, a, b, current);
      }
    }
  }

  /** Closing the current run: it replaces the best only if strictly longer. */
  lemma ScanCloses<T>(s: seq<T>, n: nat, start: nat, length: nat, current: nat)
    requires Scanned(s, n, start, length, current) && n < |s| && s[n] != s[n - 1]
    ensures var longer := n - current > length;
            Scanned(s, n + 1, if longer then current else start, if longer then n - current else length, n)
  {
    var longer := n - current > length;
    var start', length' := if longer then current else start, if longer then n - current else length;
    forall a: nat, b: nat | IsRun(s, a, b) && b < n + 1
      ensures n <= a || b - a + 1 < length' || (b - a + 1 == length' && start' <= a)
    {
      RunsStopAtChanges(s, a, b, n);
    }
  }

  lemma ScanEnds<T>(s: seq<T>, start: nat, length: nat, current: nat)
    requires s != [] && Scanned(s, |s|, start, length, current)
    ensures var longer := |s| - current > length;
            var first := if longer then current else start;
            Longest(s, first, first + (if longer then |s| - current else length) - 1)
  {
  }

  lemma ScanStarts<T>(s: seq<T>)
    requires s != []
    ensures Scanned(s, 1, 0, 1, 0)
  {
  }

  lemma LongestInside<T>(s: seq<T>, first: nat, last: nat)
    requires Longest(s, first, last)
    ensures first <= last < |s|
  {
  }

  /** longestIdenticalSubsequenceIndices: nothing for an empty vector, otherwise the leftmost longest run. */
  method LongestIdenticalSubsequenceIndices<T(==)>(nums: seq<T>) returns (r: Option<(nat, nat)>)
    ensures r.None? <==> nums == []
    ensures r.Some? ==> Longest(nums, r.value.0, r.value.1)
  {
    if nums == [] {
      return None;
    }
    var maxLength, maxStartIndex := 1, 0;
    var currentLength, currentStartIndex := 1, 0;
    for i := 1 to |nums|
      invariant currentLength == i - currentStartIndex
      invariant Scanned(nums, i, maxStartIndex, maxLength, currentStartIndex)
    {
      if nums[i] == nums[i - 1] {
        ScanExtends(nums, i, maxStartIndex, maxLength, currentStartIndex);
        currentLength := currentLength + 1;
      } else {
        ScanCloses(nums, i, maxStartIndex, maxLength, currentStartIndex);
        if currentLength > maxLength {
          maxLength := currentLength;
          maxStartIndex := currentStartIndex;
        }
        currentLength := 1;
        currentStartIndex := i;
      }
    }
    ScanEnds(nums, maxStartIndex, maxLength, currentStartIndex);
    if currentLength > maxLength {
      maxLength := currentLength;
      maxStartIndex := currentStartIndex;
    }
    r := Some((maxStartIndex, maxStartIndex + maxLength - 1));
  }

  /** The middle of the longest run. */
  ghost predicate IsMiddle<T>(s: seq<T>, m: nat) {
    exists a: nat, b: nat :: Longest(s, a, b) && m == a + (b - a) / 2
  }

  lemma MiddleInside<T>(s: seq<T>, m: nat)
    requires IsMiddle(s, m)
    ensures m < |s|
  {
    var a: nat, b: nat :| Longest(s, a, b) && m == a + (b - a) / 2;
    LongestInside(s, a, b);
  }

  lemma MiddleIsUnique<T>(s: seq<T>, m: nat, n: nat)
    requires IsMiddle(s, m) && IsMiddle(s, n)
    ensures m == n
  {
    var a: nat, b: nat :| Longest(s, a, b) && m == a + (b - a) / 2;
    var c: nat, d: nat :| Longest(s, c, d) && n == c + (d - c) / 2;
    LongestIsUnique(s, a, b, c, d);
  }

  /** setBestDelay's midpoint, halved in floating point and cut to an integer. */
  function FloatMiddle(first: nat, last: nat): int
    requires first <= last
  {
    (first as real + (last as real - first as real) / 2.0).Floor
  }

  lemma FloatMiddleIsMiddle(first: nat, last: nat)
    requires first <= last
    ensures FloatMiddle(first, last) == first + (last - first) / 2
  {
    var half := (last - first) / 2;
    assert last - first == 2 * half || last - first == 2 * half + 1;
    assert (last as real - first as real) / 2.0 == half as real
        || (last as real - first as real) / 2.0 == half as real + 0.5;
  }
}
