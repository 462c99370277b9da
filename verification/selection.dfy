/**
 * The "running best" scan shared by the reflection heuristics: walk the
 * candidates in order, skip ineligible ones, and keep a candidate only when
 * its score is strictly greater than the best so far, starting from
 * Integer.MIN_VALUE. The winner is therefore the FIRST eligible element of
 * maximal score.
 */
module Selection {
  import opened Wrappers

  const INT_MIN := -2147483648

  predicate IsFirstMax<T>(xs: seq<T>, eligible: T -> bool, score: T -> int, k: int)
  {
    && 0 <= k < |xs|
    && eligible(xs[k])
    && (forall j :: 0 <= j < |xs| && eligible(xs[j]) ==> score(xs[j]) <= score(xs[k]))
    && (forall j :: 0 <= j < k && eligible(xs[j]) ==> score(xs[j]) < score(xs[k]))
  }

  /** The first maximum is unique, so the scan's choice is determined by the input order. */
  lemma FirstMaxUnique<T>(xs: seq<T>, eligible: T -> bool, score: T -> int, k1: int, k2: int)
    requires IsFirstMax(xs, eligible, score, k1) && IsFirstMax(xs, eligible, score, k2)
    ensures k1 == k2
  {
  }

  /** The element the scan settles on, as a specification: the first maximum, or None. */
  ghost function FirstMaxOf<T>(xs: seq<T>, eligible: T -> bool, score: T -> int): (r: Option<T>)
    ensures r.Some? <==> exists k :: IsFirstMax(xs, eligible, score, k)
    ensures r.Some? ==> exists k :: IsFirstMax(xs, eligible, score, k) && xs[k] == r.value
  {
    if exists k :: IsFirstMax(xs, eligible, score, k) then
      var k :| IsFirstMax(xs, eligible, score, k);
      Some(xs[k])
    else None
  }

  /** The first maximum at `k` is the one FirstMaxOf names. */
  lemma FirstMaxOfIs<T>(xs: seq<T>, eligible: T -> bool, score: T -> int, k: int)
    requires IsFirstMax(xs, eligible, score, k)
    ensures FirstMaxOf(xs, eligible, score) == Some(xs[k])
  {
    var k' :| IsFirstMax(xs, eligible, score, k') && xs[k'] == FirstMaxOf(xs, eligible, score).value;
    FirstMaxUnique(xs, eligible, score, k, k');
  }

  /** Whenever some element is eligible, a first maximum exists. */
  lemma {:induction false} FirstMaxExists<T>(xs: seq<T>, eligible: T -> bool, score: T -> int, i: int)
    requires 0 <= i < |xs| && eligible(xs[i])
    ensures exists k :: IsFirstMax(xs, eligible, score, k)
    decreases |xs|
  {
    var n := |xs| - 1;
    var init := xs[..n];
    if j :| 0 <= j < n && eligible(xs[j]) {
      assert eligible(init[j]);
      FirstMaxExists(init, eligible, score, j);
      var k :| IsFirstMax(init, eligible, score, k);
      if eligible(xs[n]) && score(xs[n]) > score(xs[k]) {
        assert IsFirstMax(xs, eligible, score, n);
      } else {
        assert IsFirstMax(xs, eligible, score, k);
      }
    } else {
      assert IsFirstMax(xs, eligible, score, n);
    }
  }

  /**
   * With an eligible element present, FirstMaxOf names an eligible element
   * of the list whose score no eligible element exceeds.
   */
  lemma FirstMaxOfBounds<T>(xs: seq<T>, eligible: T -> bool, score: T -> int, i: int)
    requires 0 <= i < |xs| && eligible(xs[i])
    ensures FirstMaxOf(xs, eligible, score).Some?
    ensures var b := FirstMaxOf(xs, eligible, score).value;
            && b in xs && eligible(b)
            && forall j :: 0 <= j < |xs| && eligible(xs[j]) ==> score(xs[j]) <= score(b)
  {
    FirstMaxExists(xs, eligible, score, i);
  }

  /**
   * The scan itself. Every score the source computes is above
   * Integer.MIN_VALUE, which the requires records, so the first eligible
   * element always displaces the sentinel.
   */
  method FirstMax<T>(xs: seq<T>, eligible: T -> bool, score: T -> int) returns (best: Option<nat>)
    requires forall i :: 0 <= i < |xs| && eligible(xs[i]) ==> score(xs[i]) > INT_MIN
    ensures best.None? <==> forall i :: 0 <= i < |xs| ==> !eligible(xs[i])
    ensures best.Some? ==> IsFirstMax(xs, eligible, score, best.value)
  {
    best := None;
    var bestScore := INT_MIN;
    for i := 0 to |xs|
      invariant best.None? <==> forall j :: 0 <= j < i ==> !eligible(xs[j])
      invariant best.None? ==> bestScore == INT_MIN
      invariant best.Some? ==> best.value < i && eligible(xs[best.value]) && bestScore == score(xs[best.value])
      invariant forall j :: 0 <= j < i && eligible(xs[j]) ==> score(xs[j]) <= bestScore
      invariant best.Some? ==> forall j :: 0 <= j < best.value && eligible(xs[j]) ==> score(xs[j]) < bestScore
    {
      if eligible(xs[i]) {
        var s := score(xs[i]);
        if s > bestScore {
          bestScore := s;
          best := Some(i);
        }
      }
    }
  }
}
