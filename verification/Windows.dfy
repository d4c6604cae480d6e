/** Counting events in windows of time. Times are nanoseconds, as in time.Duration. */
module Windows {
  const SECOND := 1_000_000_000
  const MINUTE := 60 * SECOND

  predicate NonDecreasing(s: seq<int>) {
    forall i, j | 0 <= i < j < |s| :: s[i] <= s[j]
  }

  /** The entries younger than span: what every pruning loop keeps. */
  function Recent(log: seq<int>, now: int, span: int): (r: seq<int>)
    ensures |r| <= |log|
  {
    if log == [] then []
    else
      var rest := Recent(log[..|log| - 1], now, span);
      if now - log[|log| - 1] < span then rest + [log[|log| - 1]] else rest
  }

  /** How many entries lie in the half-open interval from `from` to `to`. */
  function CountIn(log: seq<int>, from: int, to: int): nat {
    if log == [] then 0
    else (if from <= log[0] < to then 1 else 0) + CountIn(log[1..], from, to)
  }

  /** Any n + 1 consecutive entries stretch over at least span. */
  predicate Spaced(log: seq<int>, n: nat, span: int) {
    forall k | 0 <= k < |log| - n :: log[k + n] - log[k] >= span
  }

  lemma {:induction false} RecentAppend(log: seq<int>, t: int, now: int, span: int)
    ensures Recent(log + [t], now, span) == Recent(log, now, span) + (if now - t < span then [t] else [])
  {
    assert (log + [t])[..|log + [t]| - 1] == log;
  }

  /** Pruning early loses nothing: a later prune of the pruned list is a later prune of everything. */
  lemma {:induction false} RecentOfRecent(log: seq<int>, earlier: int, now: int, span: int)
    requires earlier <= now
    ensures Recent(Recent(log, earlier, span), now, span) == Recent(log, now, span)
  {
    if log != [] {
      var init, t := log[..|log| - 1], log[|log| - 1];
      RecentOfRecent(init, earlier, now, span);
      RecentAppend(Recent(init, earlier, span), t, now, span);
    }
  }

  /** In a log in time order, entries from k on are all recent when entry k is. */
  lemma {:induction false} RecentAtLeast(log: seq<int>, k: nat, now: int, span: int)
    requires NonDecreasing(log) && k < |log| && now - log[k] < span
    ensures |Recent(log, now, span)| >= |log| - k
  {
    if k < |log| - 1 {
      RecentAtLeast(log[..|log| - 1], k, now, span);
    }
  }

  lemma {:induction false} CountBounded(log: seq<int>, n: nat, from: int, to: int)
    requires forall k | n <= k < |log| :: log[k] >= to
    ensures CountIn(log, from, to) <= n
  {
    if log != [] {
      if n == 0 {
        assert log[0] >= to;
        CountBounded(log[1..], 0, from, to);
      } else {
        CountBounded(log[1..], n - 1, from, to);
      }
    }
  }

  /** A log stays ordered and spaced when the new entry comes late enough after the n-th last one. */
  lemma SpacedAppend(log: seq<int>, n: nat, span: int, t: int)
    requires NonDecreasing(log) && Spaced(log, n, span) && span >= 0 && n > 0
    requires log != [] ==> log[|log| - 1] <= t
    requires |log| >= n ==> t - log[|log| - n] >= span
    ensures NonDecreasing(log + [t]) && Spaced(log + [t], n, span)
  {
    var all := log + [t];
    forall k | 0 <= k < |all| - n
      ensures all[k + n] - all[k] >= span
    {
      if k + n < |log| {
        assert log[k + n] - log[k] >= span;
      }
    }
  }

  /** The step from spacing to windows: if n + 1 consecutive entries always stretch over the span,
      no half-open interval of that length holds more than n of them. */
  lemma {:induction false} SpacingBoundsEveryWindow(log: seq<int>, n: nat, span: int, from: int)
    requires NonDecreasing(log) && Spaced(log, n, span)
    ensures CountIn(log, from, from + span) <= n
  {
    if log != [] {
      if log[0] < from {
        forall k | 0 <= k < |log[1..]| - n
          ensures log[1..][k + n] - log[1..][k] >= span
        {
          assert log[k + 1 + n] - log[k + 1] >= span;
        }
        SpacingBoundsEveryWindow(log[1..], n, span, from);
      } else {
        forall k | n <= k < |log|
          ensures log[k] >= from + span
        {
          assert log[0 + n] - log[0] >= span;
        }
        CountBounded(log, n, from, from + span);
      }
    }
  }
}
