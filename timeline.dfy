/**
 * Offsets inside a concatenated timeline. An item's placeholder ends at
 * the sum of the placeholder extents up to and including it; the
 * sequencers seek to SEEK_GUARD_MS before that end before handing control
 * to the overlay.
 */
module Timeline {
  import opened Media

  const SEEK_GUARD_MS: int := 100

  function Min(a: int, b: int): int {
    if a <= b then a else b
  }

  function Sum(ds: seq<int>): int {
    if ds == [] then 0 else Sum(ds[..|ds| - 1]) + ds[|ds| - 1]
  }

  /**
   * What the accumulator loop computes after its first n rounds: the sum of
   * `durations[i] * 1000` for i < n, where rounds past the end of the list
   * add nothing.
   */
  function EndMs(durations: seq<int>, n: nat): int {
    if n == 0 then 0
    else EndMs(durations, n - 1) + (if n - 1 < |durations| then durations[n - 1] * MS_PER_SECOND else 0)
  }

  /** The loop's total is 1000 times the sum of the first min(n, |durations|) durations. */
  lemma {:induction false} EndMsIsScaledSum(durations: seq<int>, n: nat)
    ensures EndMs(durations, n) == MS_PER_SECOND * Sum(durations[..Min(n, |durations|)])
  {
    if n > 0 {
      EndMsIsScaledSum(durations, n - 1);
      if n - 1 < |durations| {
        assert durations[..n][..n - 1] == durations[..n - 1];
      }
    }
  }

  /** With non-negative durations, a later item never ends earlier. */
  lemma {:induction false} EndMsMonotone(durations: seq<int>, m: nat, n: nat)
    requires forall i :: 0 <= i < |durations| ==> durations[i] >= 0
    requires m <= n
    ensures EndMs(durations, m) <= EndMs(durations, n)
    decreases n - m
  {
    if m < n {
      EndMsMonotone(durations, m, n - 1);
    }
  }

  /** Rounds past the end of the list add nothing. */
  lemma {:induction false} EndMsSaturates(durations: seq<int>, n: nat)
    requires n >= |durations|
    ensures EndMs(durations, n) == EndMs(durations, |durations|)
    decreases n
  {
    if n > |durations| {
      EndMsSaturates(durations, n - 1);
    }
  }

  /**
   * For an item of at least one second, the seek target (end of its
   * placeholder minus the guard) lies inside that item's own placeholder.
   */
  lemma SeekTargetInsidePlaceholder(durations: seq<int>, k: nat)
    requires k < |durations| && durations[k] >= 1
    ensures EndMs(durations, k) <= EndMs(durations, k + 1) - SEEK_GUARD_MS < EndMs(durations, k + 1)
  {
  }
}
