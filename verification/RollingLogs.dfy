/** The worker's rolling lists: the reconnect cycles of the last ten minutes and the automatic
    re-pairings of the last half hour. Both compact their slice in place and append. */
module RollingLogs {
  import opened Windows

  const MAX_AUTO_REPAIRS := 3
  const AUTO_REPAIR_WINDOW := 30 * MINUTE
  const CYCLE_WINDOW := 10 * MINUTE

  /** A slice of timestamps over a backing array, with every event since the last wipe kept in ghost state. */
  class RollingLog {
    const span: int
    var buffer: array<int>
    var len: nat
    ghost var history: seq<int>
    ghost var clock: int

    ghost predicate Valid()
      reads this, buffer
    {
      && len <= buffer.Length
      && forall now | clock <= now :: Recent(Contents(), now, span) == Recent(history, now, span)
    }

    function Contents(): seq<int>
      requires len <= buffer.Length
      reads this, buffer
    {
      buffer[..len]
    }

    constructor (span: int, ghost clock: int)
      ensures Valid() && history == [] && this.clock == clock && this.span == span && fresh(buffer)
    {
      this.span := span;
      buffer := new int[4];
      len := 0;
      history, this.clock := [], clock;
    }

    /** `keep := s[:0]` and the loop that appends the young entries to it, over the same array. */
    method Prune(now: int)
      requires Valid() && clock <= now
      modifies this, buffer
      ensures Valid() && buffer == old(buffer) && history == old(history) && clock == now
      ensures Contents() == Recent(old(Contents()), now, span)
    {
      var keep := 0;
      var i := 0;
      ghost var before := Contents();
      assert before[..0] == [];
      while i < len
        invariant buffer == old(buffer) && history == old(history) && clock == old(clock)
        invariant keep <= i <= len == old(len) <= buffer.Length
        invariant forall k | i <= k < len :: buffer[k] == before[k]
        invariant buffer[..keep] == Recent(before[..i], now, span)
      {
        RecentAppend(before[..i], before[i], now, span);
        assert before[..i + 1] == before[..i] + [before[i]];
        if now - buffer[i] < span {
          buffer[keep] := buffer[i];
          keep := keep + 1;
        }
        i := i + 1;
      }
      assert before[..len] == before;
      len := keep;
      clock := now;
      forall later | clock <= later
        ensures Recent(Contents(), later, span) == Recent(history, later, span)
      {
        RecentOfRecent(before, now, later, span);
      }
    }

    method Append(now: int)
      requires Valid() && clock <= now
      modifies this, buffer
      ensures Valid() && (buffer == old(buffer) || fresh(buffer))
      ensures history == old(history) + [now] && clock == now
      ensures Contents() == old(Contents()) + [now]
    {
      ghost var before := Contents();
      if len == buffer.Length {
        var bigger := new int[2 * len + 1];
        forall i | 0 <= i < len {
          bigger[i] := buffer[i];
        }
        buffer := bigger;
        assert buffer[..len] == before;
      }
      buffer[len] := now;
      len := len + 1;
      assert Contents() == before + [now];
      history, clock := history + [now], now;
      forall later | clock <= later
        ensures Recent(Contents(), later, span) == Recent(history, later, span)
      {
        RecentAppend(before, now, later, span);
        RecentAppend(old(history), now, later, span);
      }
    }

    /** noteFlap's and recordAutoRepair's update: prune, then append. */
    method Note(now: int) returns (n: nat)
      requires Valid() && clock <= now
      modifies this, buffer
      ensures Valid() && (buffer == old(buffer) || fresh(buffer))
      ensures history == old(history) + [now] && clock == now
      ensures span > 0 ==> n == |Recent(history, now, span)|
    {
      Prune(now);
      Append(now);
      n := len;
      assert Recent(history, now, span) == Recent(Contents(), now, span);
      if span > 0 {
        RecentOfRecent(old(Contents()), now, now, span);
        RecentAppend(Recent(old(Contents()), now, span), now, now, span);
      }
    }

    /** cycleCount: the number of events in the last span of the whole history since the last wipe. */
    method Count(now: int) returns (n: nat)
      requires Valid() && clock <= now
      modifies this, buffer
      ensures Valid() && buffer == old(buffer) && history == old(history) && clock == now
      ensures n == |Recent(history, now, span)|
    {
      Prune(now);
      n := len;
      RecentOfRecent(old(Contents()), now, now, span);
    }

    /** wipeDevices forgets every cycle. */
    method Wipe()
      requires Valid()
      modifies this
      ensures Valid() && buffer == old(buffer) && history == [] && clock == old(clock)
    {
      len := 0;
      history := [];
    }
  }

  /** recordAutoRepair: granted exactly when this is at most the third logout of the last half hour,
      refused ones included. */
  method RecordAutoRepair(log: RollingLog, now: int) returns (granted: bool)
    requires log.Valid() && log.clock <= now && log.span == AUTO_REPAIR_WINDOW
    modifies log, log.buffer
    ensures log.Valid() && log.history == old(log.history) + [now] && log.clock == now
    ensures granted <==> Granted(log.history)
  {
    var n := log.Note(now);
    granted := n <= MAX_AUTO_REPAIRS;
  }

  /** The last logout of the history is granted an automatic re-pairing. */
  predicate Granted(history: seq<int>) {
    history != [] && |Recent(history, history[|history| - 1], AUTO_REPAIR_WINDOW)| <= MAX_AUTO_REPAIRS
  }

  /** The times of all granted re-pairings of a history of logouts. */
  function Grants(history: seq<int>): seq<int> {
    if history == [] then []
    else Grants(history[..|history| - 1]) + (if Granted(history) then [history[|history| - 1]] else [])
  }

  lemma {:induction false} GrantsAreLogouts(history: seq<int>, now: int)
    requires NonDecreasing(history)
    ensures NonDecreasing(Grants(history))
    ensures forall t | t in Grants(history) :: t in history
    ensures |Recent(Grants(history), now, AUTO_REPAIR_WINDOW)| <= |Recent(history, now, AUTO_REPAIR_WINDOW)|
  {
    if history != [] {
      var init, t := history[..|history| - 1], history[|history| - 1];
      GrantsAreLogouts(init, now);
      RecentAppend(Grants(init), t, now, AUTO_REPAIR_WINDOW);
      RecentAppend(init, t, now, AUTO_REPAIR_WINDOW);
      assert init + [t] == history;
      assert Grants(init) + [] == Grants(init);
      forall i | 0 <= i < |Grants(init)|
        ensures Grants(init)[i] <= t
      {
        assert Grants(init)[i] in init;
      }
    }
  }

  lemma {:induction false} GrantsAreSpaced(history: seq<int>)
    requires NonDecreasing(history)
    ensures Spaced(Grants(history), MAX_AUTO_REPAIRS, AUTO_REPAIR_WINDOW)
  {
    if history != [] {
      var g := Grants(history);
      var now := history[|history| - 1];
      GrantsAreSpaced(history[..|history| - 1]);
      GrantsAreLogouts(history, now);
      var k := |g| - 1 - MAX_AUTO_REPAIRS;
      if Granted(history) && k >= 0 && now - g[k] < AUTO_REPAIR_WINDOW {
        RecentAtLeast(g, k, now, AUTO_REPAIR_WINDOW);
        assert false;
      }
    }
  }

  /** Over every history of logouts, any half-open interval of thirty minutes sees at most three automatic re-pairings. */
  lemma AtMostThreeRepairsInAnyHalfHour(history: seq<int>, from: int)
    requires NonDecreasing(history)
    ensures CountIn(Grants(history), from, from + AUTO_REPAIR_WINDOW) <= MAX_AUTO_REPAIRS
  {
    GrantsAreSpaced(history);
    GrantsAreLogouts(history, from);
    SpacingBoundsEveryWindow(Grants(history), MAX_AUTO_REPAIRS, AUTO_REPAIR_WINDOW, from);
  }
}
