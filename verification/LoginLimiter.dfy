/** The brute-force guard of the login handler. */
module LoginLimiter {
  import opened Wrappers
  import opened Windows

  const LOCKOUT := 5 * MINUTE
  const MAX_FAILS := 10

  /** What the limiter remembers about one address. */
  datatype Record = Record(fails: seq<int>, ban: Option<int>)

  datatype Outcome = Blocked | Counted | Welcome

  /** One login attempt, taken as atomic: the gate, then the failure or the success. */
  function Attempt(r: Record, now: int, good: bool): (Record, Outcome) {
    if r.ban.Some? && now < r.ban.value then (r, Blocked)
    else if good then (Record([], None), Welcome)
    else
      var keep := Recent(r.fails, now, LOCKOUT) + [now];
      (if |keep| >= MAX_FAILS then Record([], Some(now + LOCKOUT)) else Record(keep, None), Counted)
  }

  /** The limiter's two maps, shared by all addresses. */
  class Limiter {
    var fails: map<string, seq<int>>
    var ban: map<string, int>

    constructor ()
      ensures forall ip :: Of(ip) == Record([], None)
    {
      fails, ban := map[], map[];
    }

    function Of(ip: string): Record
      reads this
    {
      Record(if ip in fails then fails[ip] else [], if ip in ban then Some(ban[ip]) else None)
    }

    method LoginBlocked(ip: string, now: int) returns (blocked: bool)
      modifies this`ban
      ensures blocked <==> old(Of(ip)).ban.Some? && now < old(Of(ip)).ban.value
      ensures Of(ip) == if blocked then old(Of(ip)) else old(Of(ip)).(ban := None)
      ensures forall other | other != ip :: Of(other) == old(Of(other))
    {
      if ip in ban {
        if now < ban[ip] {
          return true;
        }
        ban := ban - {ip};
      }
      blocked := false;
    }

    method LoginFail(ip: string, now: int)
      modifies this
      ensures var keep := Recent(old(Of(ip)).fails, now, LOCKOUT) + [now];
              Of(ip) == if |keep| >= MAX_FAILS then Record([], Some(now + LOCKOUT)) else Record(keep, old(Of(ip)).ban)
      ensures forall other | other != ip :: Of(other) == old(Of(other))
    {
      var stored := if ip in fails then fails[ip] else [];
      var keep := [];
      for i := 0 to |stored|
        invariant keep == Recent(stored[..i], now, LOCKOUT)
        invariant fails == old(fails) && ban == old(ban)
      {
        RecentAppend(stored[..i], stored[i], now, LOCKOUT);
        assert stored[..i + 1] == stored[..i] + [stored[i]];
        if now - stored[i] < LOCKOUT {
          keep := keep + [stored[i]];
        }
      }
      assert stored[..|stored|] == stored;
      keep := keep + [now];
      fails := fails[ip := keep];
      if |keep| >= MAX_FAILS {
        ban := ban[ip := now + LOCKOUT];
        fails := fails - {ip};
      }
    }

    method LoginOK(ip: string)
      modifies this`fails
      ensures Of(ip) == old(Of(ip)).(fails := [])
      ensures forall other | other != ip :: Of(other) == old(Of(other))
    {
      fails := fails - {ip};
    }

    /** LoginHandler's use of the three: one attempt moves its own address by Attempt and no other. */
    method Login(ip: string, now: int, good: bool) returns (outcome: Outcome)
      modifies this
      ensures (Of(ip), outcome) == Attempt(old(Of(ip)), now, good)
      ensures forall other | other != ip :: Of(other) == old(Of(other))
    {
      var blocked := LoginBlocked(ip, now);
      if blocked {
        return Blocked;
      }
      if !good {
        LoginFail(ip, now);
        return Counted;
      }
      LoginOK(ip);
      outcome := Welcome;
    }
  }

  // ----- whole runs of failing attempts of one address -----

  /** The record after failing attempts at the given times. */
  function After(times: seq<int>): Record {
    if times == [] then Record([], None)
    else Attempt(After(times[..|times| - 1]), times[|times| - 1], false).0
  }

  /** The attempts among them that were let through and counted. */
  function CountedFails(times: seq<int>): seq<int> {
    if times == [] then []
    else
      var init, t := times[..|times| - 1], times[|times| - 1];
      CountedFails(init) + (if Attempt(After(init), t, false).1 == Counted then [t] else [])
  }

  /** The counted failures before the last ban, the last of which caused it, and those since. */
  datatype Split = Split(before: seq<int>, since: seq<int>)

  function SplitAtBan(times: seq<int>): Split {
    if times == [] then Split([], [])
    else
      var init, t := times[..|times| - 1], times[|times| - 1];
      var (r, o) := Attempt(After(init), t, false);
      if o == Counted then Extended(SplitAtBan(init), t, r.ban.Some?) else SplitAtBan(init)
  }

  function Extended(s: Split, t: int, banned: bool): Split {
    if banned then Split(s.before + s.since + [t], []) else Split(s.before, s.since + [t])
  }

  ghost predicate Ordered(s: Split, now: int) {
    var counted := s.before + s.since;
    && NonDecreasing(counted)
    && (forall i | 0 <= i < |counted| :: counted[i] <= now)
    && Spaced(counted, MAX_FAILS, LOCKOUT)
  }

  ghost predicate Stored(fails: seq<int>, since: seq<int>) {
    && fails == (if since == [] then [] else Recent(since, since[|since| - 1], LOCKOUT))
    && |fails| < MAX_FAILS
  }

  ghost predicate BanFits(ban: Option<int>, s: Split, now: int) {
    && (s.before == [] ==> ban == None)
    && (s.before != [] ==>
          var lifted := s.before[|s.before| - 1] + LOCKOUT;
          && (ban.Some? ==> ban.value == lifted)
          && (ban.None? ==> lifted <= now)
          && forall i | 0 <= i < |s.since| :: lifted <= s.since[i])
  }

  ghost predicate Inv(r: Record, s: Split, now: int) {
    Ordered(s, now) && Stored(r.fails, s.since) && BanFits(r.ban, s, now)
  }

  /** The next counted failure comes a full lockout after the tenth-last. */
  lemma TenthLastIsOld(r: Record, s: Split, now: int, later: int)
    requires Inv(r, s, now) && now <= later && !(r.ban.Some? && later < r.ban.value)
    requires |s.before + s.since| >= MAX_FAILS
    ensures later - (s.before + s.since)[|s.before + s.since| - MAX_FAILS] >= LOCKOUT
  {
    var counted := s.before + s.since;
    if |s.since| >= MAX_FAILS {
      var j := |s.since| - MAX_FAILS;
      var last := s.since[|s.since| - 1];
      assert counted[|counted| - MAX_FAILS] == s.since[j] && counted[|counted| - 1] == last;
      if last - s.since[j] < LOCKOUT {
        SinceOrdered(s);
        RecentAtLeast(s.since, j, last, LOCKOUT);
      }
    } else {
      assert counted[|counted| - MAX_FAILS] <= counted[|s.before| - 1];
    }
  }

  lemma SinceOrdered(s: Split)
    requires NonDecreasing(s.before + s.since)
    ensures NonDecreasing(s.since)
  {
    assert forall i | 0 <= i < |s.since| :: s.since[i] == (s.before + s.since)[|s.before| + i];
  }

  lemma KeepIsRecent(r: Record, s: Split, t: int)
    requires Inv(r, s, t)
    ensures Recent(r.fails, t, LOCKOUT) + [t] == Recent(s.since + [t], t, LOCKOUT)
  {
    RecentAppend(s.since, t, t, LOCKOUT);
    if s.since != [] {
      assert s.since[|s.since| - 1] == (s.before + s.since)[|s.before + s.since| - 1];
      RecentOfRecent(s.since, s.since[|s.since| - 1], t, LOCKOUT);
    }
  }

  lemma CountedStaysOrdered(r: Record, s: Split, t: int, banned: bool)
    requires Inv(r, s, t) && !(r.ban.Some? && t < r.ban.value)
    ensures Ordered(Extended(s, t, banned), t)
    ensures Extended(s, t, banned).before + Extended(s, t, banned).since == s.before + s.since + [t]
  {
    var counted := s.before + s.since;
    if |counted| >= MAX_FAILS {
      TenthLastIsOld(r, s, t, t);
    }
    SpacedAppend(counted, MAX_FAILS, LOCKOUT, t);
    assert s.before + (s.since + [t]) == counted + [t] == (counted + [t]) + [];
  }

  lemma CountedKeepsInv(r: Record, s: Split, t: int)
    requires Inv(r, s, t) && !(r.ban.Some? && t < r.ban.value)
    ensures
      var r' := Attempt(r, t, false).0;
      Inv(r', Extended(s, t, r'.ban.Some?), t)
  {
    KeepIsRecent(r, s, t);
    var r' := Attempt(r, t, false).0;
    CountedStaysOrdered(r, s, t, r'.ban.Some?);
  }

  lemma InvLater(r: Record, s: Split, now: int, later: int)
    requires Inv(r, s, now) && now <= later
    ensures Inv(r, s, later)
  {
  }

  lemma {:induction false} RunKeepsInv(times: seq<int>, now: int)
    requires NonDecreasing(times) && forall t | t in times :: t <= now
    ensures Inv(After(times), SplitAtBan(times), now)
    ensures CountedFails(times) == SplitAtBan(times).before + SplitAtBan(times).since
  {
    if times != [] {
      var init, t := times[..|times| - 1], times[|times| - 1];
      RunKeepsInv(init, t);
      var r, s := After(init), SplitAtBan(init);
      if !(r.ban.Some? && t < r.ban.value) {
        CountedKeepsInv(r, s, t);
        CountedStaysOrdered(r, s, t, After(times).ban.Some?);
      } else {
        assert CountedFails(init) + [] == CountedFails(init);
      }
      assert t in times;
      InvLater(After(times), SplitAtBan(times), t, now);
    }
  }

  /** Whatever the times of an address's failing attempts, every half-open interval of five minutes
      holds at most ten that were let through. */
  lemma AtMostTenFailuresInAnyWindow(times: seq<int>, from: int)
    requires NonDecreasing(times)
    ensures CountIn(CountedFails(times), from, from + LOCKOUT) <= MAX_FAILS
  {
    if times != [] {
      RunKeepsInv(times, times[|times| - 1]);
      SpacingBoundsEveryWindow(CountedFails(times), MAX_FAILS, LOCKOUT, from);
    }
  }

  /** The stored list is exactly the failures since the last ban that were younger than five minutes at
      the last of them, never more than nine. */
  lemma StoredListIsRecentFailures(times: seq<int>)
    requires NonDecreasing(times)
    ensures CountedFails(times) == SplitAtBan(times).before + SplitAtBan(times).since
    ensures Stored(After(times).fails, SplitAtBan(times).since) && |After(times).fails| <= 9
  {
    if times != [] {
      RunKeepsInv(times, times[|times| - 1]);
    }
  }

  lemma BlockedByLastBan(r: Record, s: Split, now: int)
    requires Inv(r, s, now)
    ensures Attempt(r, now, false).1 == Blocked <==> s.before != [] && now < s.before[|s.before| - 1] + LOCKOUT
  {
  }

  /** An address is turned away exactly while its last ban is under five minutes old. */
  lemma BlockedWhileBanned(times: seq<int>, now: int)
    requires NonDecreasing(times) && forall t | t in times :: t <= now
    ensures
      var before := SplitAtBan(times).before;
      Attempt(After(times), now, false).1 == Blocked <==> before != [] && now < before[|before| - 1] + LOCKOUT
  {
    RunKeepsInv(times, now);
    BlockedByLastBan(After(times), SplitAtBan(times), now);
  }

  function Copies(t: int, n: nat): (s: seq<int>)
    ensures |s| == n && forall i | 0 <= i < n :: s[i] == t
  {
    seq(n, _ => t)
  }

  lemma FailAgain(t: int, n: nat)
    requires n < 10
    ensures Attempt(Record(Copies(t, n), None), t, false)
         == (if n < 9 then Record(Copies(t, n + 1), None) else Record([], Some(t + LOCKOUT)), Counted)
  {
    AllRecent(Copies(t, n), t);
    assert Copies(t, n) + [t] == Copies(t, n + 1);
  }

  lemma CopiesInit(t: int, n: nat)
    requires n > 0
    ensures Copies(t, n)[..n - 1] == Copies(t, n - 1) && Copies(t, n)[n - 1] == t
  {
  }

  /** The bound is met: ten failures at one instant are all counted, and the eleventh is blocked. */
  lemma TenAreLetThrough(t: int, n: nat)
    requires n <= 10
    ensures After(Copies(t, n)) == if n < 10 then Record(Copies(t, n), None) else Record([], Some(t + LOCKOUT))
    ensures CountedFails(Copies(t, n)) == Copies(t, n)
    ensures n == 10 ==> Attempt(After(Copies(t, n)), t, false).1 == Blocked
  {
    if n > 0 {
      TenAreLetThrough(t, n - 1);
      CopiesInit(t, n);
      FailAgain(t, n - 1);
      assert Copies(t, n - 1) + [t] == Copies(t, n);
    }
  }

  lemma {:induction false} AllRecent(s: seq<int>, t: int)
    requires forall i | 0 <= i < |s| :: s[i] == t
    ensures Recent(s, t, LOCKOUT) == s
  {
    if s != [] {
      AllRecent(s[..|s| - 1], t);
    }
  }
}
