/** The fixed-window request limiter of the API. */
module RateLimiter {
  import opened Wrappers
  import opened Windows

  datatype Window = Window(n: nat, reset: int)

  /** One hit of one address. */
  function Hit(w: Option<Window>, limit: int, span: int, now: int): (Window, bool) {
    if w.None? || now >= w.value.reset then (Window(1, now + span), true)
    else (w.value.(n := w.value.n + 1), w.value.n + 1 <= limit)
  }

  class IpLimiter {
    const limit: int
    const span: int
    var hits: map<string, Window>

    constructor (limit: int, span: int)
      ensures this.limit == limit && this.span == span && hits == map[]
    {
      this.limit, this.span := limit, span;
      hits := map[];
    }

    function Of(ip: string): Option<Window>
      reads this
    {
      if ip in hits then Some(hits[ip]) else None
    }

    method Allow(ip: string, now: int) returns (ok: bool)
      modifies this
      ensures Of(ip) == Some(Hit(old(Of(ip)), limit, span, now).0)
      ensures ok == Hit(old(Of(ip)), limit, span, now).1
      ensures forall other | other != ip :: Of(other) == old(Of(other))
    {
      if ip !in hits || !(now < hits[ip].reset) {
        hits := hits[ip := Window(1, now + span)];
        return true;
      }
      var n := hits[ip].n + 1;
      hits := hits[ip := Window(n, hits[ip].reset)];
      ok := n <= limit;
    }
  }

  // ----- whole runs -----

  datatype Request = Request(ip: string, at: int)

  /** The limiter's table after a run of requests of any addresses. */
  function Table(limit: int, span: int, run: seq<Request>): map<string, Window> {
    if run == [] then map[]
    else
      var t, r := Table(limit, span, run[..|run| - 1]), run[|run| - 1];
      t[r.ip := Hit(if r.ip in t then Some(t[r.ip]) else None, limit, span, r.at).0]
  }

  /** The times of the requests of one address. */
  function Of(run: seq<Request>, ip: string): seq<int> {
    if run == [] then []
    else Of(run[..|run| - 1], ip) + (if run[|run| - 1].ip == ip then [run[|run| - 1].at] else [])
  }

  /** The window of one address after hits at the given times. */
  function After(limit: int, span: int, times: seq<int>): Option<Window> {
    if times == [] then None
    else Some(Hit(After(limit, span, times[..|times| - 1]), limit, span, times[|times| - 1]).0)
  }

  /** Those of the hits that were allowed. */
  function Allowed(limit: int, span: int, times: seq<int>): seq<int> {
    if times == [] then []
    else
      var init, t := times[..|times| - 1], times[|times| - 1];
      Allowed(limit, span, init) + (if Hit(After(limit, span, init), limit, span, t).1 then [t] else [])
  }

  /** Requests of other addresses never matter: an address's window is the one its own requests alone would leave. */
  lemma {:induction false} AddressesAreIndependent(limit: int, span: int, run: seq<Request>, ip: string)
    ensures
      var t := Table(limit, span, run);
      (if ip in t then Some(t[ip]) else None) == After(limit, span, Of(run, ip))
  {
    if run != [] {
      AddressesAreIndependent(limit, span, run[..|run| - 1], ip);
      var mine := Of(run[..|run| - 1], ip);
      assert (mine + [run[|run| - 1].at])[..|mine|] == mine && mine + [] == mine;
    }
  }

  /** How many hits of the current window were allowed. */
  function Used(w: Option<Window>, limit: int): int {
    if w.None? then 0 else if w.value.n <= limit then w.value.n else limit
  }

  ghost predicate Ordered(allowed: seq<int>, limit: int, span: int, now: int)
    requires limit >= 1
  {
    && NonDecreasing(allowed)
    && (forall i | 0 <= i < |allowed| :: allowed[i] <= now)
    && Spaced(allowed, 2 * limit - 1, span)
  }

  /** The allowed hits end with those of the current window, which opened at its first hit; a limit's
      worth of hits before that, the previous window had already closed. */
  ghost predicate WindowFits(w: Option<Window>, limit: int, span: int, allowed: seq<int>) {
    var k := |allowed| - Used(w, limit);
    && (w.None? ==> allowed == [])
    && (w.Some? ==>
          var start := w.value.reset - span;
          && w.value.n >= 1 && 0 <= k < |allowed| && allowed[k] == start
          && (k >= limit ==> allowed[k - limit] + span <= start))
  }

  lemma EarlierWindowClosed(w: Option<Window>, limit: int, span: int, allowed: seq<int>, now: int)
    requires limit >= 1 && span >= 0 && NonDecreasing(allowed) && WindowFits(w, limit, span, allowed)
    requires Hit(w, limit, span, now).1 && |allowed| >= 2 * limit - 1
    requires forall i | 0 <= i < |allowed| :: allowed[i] <= now
    ensures now - allowed[|allowed| - (2 * limit - 1)] >= span
  {
    var back := |allowed| - (2 * limit - 1);
    var k := |allowed| - Used(w, limit);
    if now >= w.value.reset {
      assert allowed[back] <= allowed[k];
    } else {
      assert allowed[back] <= allowed[k - limit] && allowed[k] <= now;
    }
  }

  lemma HitKeepsOrder(w: Option<Window>, limit: int, span: int, allowed: seq<int>, now: int)
    requires limit >= 1 && span >= 0
    requires Ordered(allowed, limit, span, now) && WindowFits(w, limit, span, allowed)
    requires Hit(w, limit, span, now).1
    ensures Ordered(allowed + [now], limit, span, now)
  {
    if |allowed| >= 2 * limit - 1 {
      EarlierWindowClosed(w, limit, span, allowed, now);
    }
    SpacedAppend(allowed, 2 * limit - 1, span, now);
  }

  lemma DeniedKeepsWindow(w: Option<Window>, limit: int, span: int, allowed: seq<int>, now: int)
    requires limit >= 1 && WindowFits(w, limit, span, allowed) && !Hit(w, limit, span, now).1
    ensures WindowFits(Some(Hit(w, limit, span, now).0), limit, span, allowed)
  {
  }

  lemma HitKeepsWindow(w: Option<Window>, limit: int, span: int, allowed: seq<int>, now: int)
    requires limit >= 1 && span >= 0 && NonDecreasing(allowed) && WindowFits(w, limit, span, allowed)
    requires Hit(w, limit, span, now).1
    ensures WindowFits(Some(Hit(w, limit, span, now).0), limit, span, allowed + [now])
  {
    var all := allowed + [now];
    var k := |allowed| - Used(w, limit);
    if w.Some? && now >= w.value.reset && |allowed| >= limit {
      assert all[|allowed| - limit] <= allowed[k];
    }
  }

  lemma OrderedLater(allowed: seq<int>, limit: int, span: int, now: int, later: int)
    requires limit >= 1 && Ordered(allowed, limit, span, now) && now <= later
    ensures Ordered(allowed, limit, span, later)
  {
  }

  lemma {:induction false} RunKeepsInv(limit: int, span: int, times: seq<int>, now: int)
    requires limit >= 1 && span >= 0 && NonDecreasing(times) && forall i | 0 <= i < |times| :: times[i] <= now
    ensures Ordered(Allowed(limit, span, times), limit, span, now)
    ensures WindowFits(After(limit, span, times), limit, span, Allowed(limit, span, times))
  {
    if times != [] {
      var init, t := times[..|times| - 1], times[|times| - 1];
      RunKeepsInv(limit, span, init, t);
      var w, allowed := After(limit, span, init), Allowed(limit, span, init);
      if Hit(w, limit, span, t).1 {
        HitKeepsOrder(w, limit, span, allowed, t);
        HitKeepsWindow(w, limit, span, allowed, t);
      } else {
        DeniedKeepsWindow(w, limit, span, allowed, t);
        assert allowed + [] == allowed;
      }
      OrderedLater(Allowed(limit, span, times), limit, span, t, now);
    }
  }

  /** For any run of requests of any addresses in time order: an interval of one window length, wherever
      it starts, lets through at most 2 * limit - 1 requests of an address. */
  lemma FewerThanTwoLimitsInAnyInterval(limit: int, span: int, run: seq<Request>, ip: string, from: int)
    requires limit >= 1 && span >= 0 && NonDecreasing(Of(run, ip))
    ensures CountIn(Allowed(limit, span, Of(run, ip)), from, from + span) <= 2 * limit - 1
  {
    var times := Of(run, ip);
    if times != [] {
      RunKeepsInv(limit, span, times, times[|times| - 1]);
      SpacingBoundsEveryWindow(Allowed(limit, span, times), 2 * limit - 1, span, from);
    }
  }

  /** One hit at 0, `late` more just before the window closes, then `next` when the next one opens. */
  function Burst(span: int, late: nat, next: nat): seq<int>
    decreases late + next
  {
    if next > 0 then Burst(span, late, next - 1) + [span]
    else if late > 0 then Burst(span, late - 1, 0) + [span - 1]
    else [0]
  }

  lemma OneAllowed(limit: int, span: int, init: seq<int>, t: int, w: Window)
    requires Allowed(limit, span, init) == init && Hit(After(limit, span, init), limit, span, t) == (w, true)
    ensures Allowed(limit, span, init + [t]) == init + [t] && After(limit, span, init + [t]) == Some(w)
  {
    assert (init + [t])[..|init + [t]| - 1] == init;
  }

  lemma {:induction false} LateHitsAllowed(limit: int, span: int, late: nat)
    requires span >= 2 && late <= limit - 1
    ensures Allowed(limit, span, Burst(span, late, 0)) == Burst(span, late, 0)
    ensures After(limit, span, Burst(span, late, 0)) == Some(Window(1 + late, span))
  {
    if late == 0 {
      OneAllowed(limit, span, [], 0, Window(1, span));
      assert [] + [0] == [0];
    } else {
      LateHitsAllowed(limit, span, late - 1);
      OneAllowed(limit, span, Burst(span, late - 1, 0), span - 1, Window(1 + late, span));
    }
  }

  lemma {:induction false} BurstIsAllowed(limit: int, span: int, late: nat, next: nat)
    requires span >= 2 && late <= limit - 1 && 1 <= next <= limit
    ensures Allowed(limit, span, Burst(span, late, next)) == Burst(span, late, next)
    ensures After(limit, span, Burst(span, late, next)) == Some(Window(next, 2 * span))
  {
    if next == 1 {
      LateHitsAllowed(limit, span, late);
      OneAllowed(limit, span, Burst(span, late, 0), span, Window(1, 2 * span));
    } else {
      BurstIsAllowed(limit, span, late, next - 1);
      OneAllowed(limit, span, Burst(span, late, next - 1), span, Window(next, 2 * span));
    }
  }

  lemma {:induction false} BurstCount(span: int, late: nat, next: nat)
    requires span >= 2
    ensures NonDecreasing(Burst(span, late, next))
    ensures forall i | 0 <= i < |Burst(span, late, next)| ::
              Burst(span, late, next)[i] <= if next > 0 then span else if late > 0 then span - 1 else 0
    ensures CountIn(Burst(span, late, next), span - 1, 2 * span - 1) == late + next
    decreases late + next
  {
    if next > 0 {
      BurstCount(span, late, next - 1);
      CountAppend(Burst(span, late, next - 1), span, span - 1, 2 * span - 1);
    } else if late > 0 {
      BurstCount(span, late - 1, 0);
      CountAppend(Burst(span, late - 1, 0), span - 1, span - 1, 2 * span - 1);
    }
  }

  lemma {:induction false} CountAppend(log: seq<int>, t: int, from: int, to: int)
    ensures CountIn(log + [t], from, to) == CountIn(log, from, to) + (if from <= t < to then 1 else 0)
  {
    if log == [] {
      assert [t][1..] == [];
    } else {
      CountAppend(log[1..], t, from, to);
      assert (log + [t])[1..] == log[1..] + [t];
    }
  }

  /** The bound cannot be lowered: for every limit there is a run in time order of which one interval of a
      window length lets through exactly 2 * limit - 1. */
  lemma BoundIsMet(limit: int, span: int)
    requires limit >= 1 && span >= 2
    ensures
      var times := Burst(span, limit - 1, limit);
      && NonDecreasing(times)
      && CountIn(Allowed(limit, span, times), span - 1, 2 * span - 1) == 2 * limit - 1
  {
    BurstIsAllowed(limit, span, limit - 1, limit);
    BurstCount(span, limit - 1, limit);
  }
}
