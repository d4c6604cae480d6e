/** The leader lease of the WhatsApp socket.

    Any number of processes share one row of the table whatsapp_leader. Only the process that
    owns a fresh row may hold the socket. `LeaderTable` and `Worker` are the program's objects;
    `Fleet` is the shared state of all processes, stepped by the claims, dials, drops and clock
    advances of its instances in any order. */
module Lease {
  import opened Wrappers

  /** Times are database seconds; 90 is leaderTTL. */
  const LEADER_TTL := 90

  /** A process's instanceID: a non-empty prefix of a fresh UUID. */
  type Instance = s: string | s != "" witness "a"

  datatype Row = Row(owner: string, updatedAt: int)

  predicate MayClaim(row: Row, me: Instance, now: int) {
    row.owner == me || row.owner == "" || row.updatedAt < now - LEADER_TTL
  }

  /** The INSERT .. ON CONFLICT DO UPDATE .. WHERE statement: the new row, and whether a row was returned. */
  function Claim(row: Option<Row>, me: Instance, now: int): (Option<Row>, bool) {
    if row.None? || MayClaim(row.value, me, now) then (Some(Row(me, now)), true) else (row, false)
  }

  class LeaderTable {
    var row: Option<Row>

    constructor ()
      ensures row == None
    {
      row := None;
    }
  }

  class Worker {
    const instanceID: Instance
    var isLeader: bool

    constructor (id: Instance)
      ensures instanceID == id && !isLeader
    {
      instanceID := id;
      isLeader := false;
    }

    /** claimLeadership with the database reachable. */
    method ClaimLeadership(table: LeaderTable, now: int) returns (mine: bool)
      modifies this`isLeader, table
      ensures (table.row, mine) == Claim(old(table.row), instanceID, now)
      ensures isLeader == mine
    {
      var owner: Option<string> := None;
      match table.row {
        case None =>
          table.row := Some(Row(instanceID, now));
          owner := Some(instanceID);
        case Some(r) =>
          if r.owner == instanceID || r.owner == "" || r.updatedAt < now - LEADER_TTL {
            table.row := Some(Row(instanceID, now));
            owner := Some(instanceID);
          }
      }
      mine := owner == Some(instanceID);
      isLeader := mine;
    }
  }

  // ----- all processes together -----

  /** Where the supervisor of one process is: waiting for the lease, past claimLeadership but not yet
      on the socket (dialling, or waiting out a ban), or holding the socket. */
  datatype Phase = Standby | Elected | Online

  /** Lingering processes left pair() without disconnecting: their old socket stays open until they are elected again
      and replace the client. */
  datatype Fleet = Fleet(clock: int, row: Option<Row>, phase: map<Instance, Phase>, lastClaim: map<Instance, int>,
                         lingering: set<Instance>) {
    function PhaseOf(i: Instance): Phase {
      if i in phase then phase[i] else Standby
    }

    /** The instance's last successful claim is at most one TTL old. */
    predicate Fresh(i: Instance) {
      i in lastClaim && clock - lastClaim[i] <= LEADER_TTL
    }

    predicate HoldsSocket(i: Instance) {
      PhaseOf(i) == Online || i in lingering
    }
  }

  datatype Step =
    | TryClaim(who: Instance)  // the gate of the supervisor loop, or the heartbeat of the monitor
    | Close(who: Instance)     // runOnce disconnects the client of an earlier session
    | Dial(who: Instance)      // ConnectContext, or the Connect inside pair()
    | GiveUp(who: Instance)    // runOnce returns before it ever connected
    | Drop(who: Instance)      // the monitor disconnects and returns
    | Leave(who: Instance)     // pair() returns because its QR channel was closed, without disconnecting
    | Advance(seconds: nat)

  /** One step; a step that its instance cannot take leaves the fleet unchanged. */
  function Next(s: Fleet, step: Step): Fleet {
    match step
    case TryClaim(i) =>
      if s.PhaseOf(i) == Elected then s
      else
        var (row, mine) := Claim(s.row, i, s.clock);
        if mine then
          s.(row := row,
             lastClaim := s.lastClaim[i := s.clock],
             phase := s.phase[i := if s.PhaseOf(i) == Online then Online else Elected])
        else s.(phase := s.phase[i := Standby])
    case Close(i) => if s.PhaseOf(i) == Elected then s.(lingering := s.lingering - {i}) else s
    case Dial(i) => if s.PhaseOf(i) == Elected then s.(phase := s.phase[i := Online], lingering := s.lingering - {i}) else s
    case GiveUp(i) => if s.PhaseOf(i) == Elected then s.(phase := s.phase[i := Standby]) else s
    case Drop(i) => if s.PhaseOf(i) == Online then s.(phase := s.phase[i := Standby]) else s
    case Leave(i) => if s.PhaseOf(i) == Online then s.(phase := s.phase[i := Standby], lingering := s.lingering + {i}) else s
    case Advance(d) => s.(clock := s.clock + d)
  }

  function Run(s: Fleet, steps: seq<Step>): Fleet
    decreases |steps|
  {
    if steps == [] then s else Run(Next(s, steps[0]), steps[1..])
  }

  /** Any row left behind by earlier processes (or none, or the seeded ownerless one), and nobody running. */
  ghost predicate Init(s: Fleet) {
    && s.phase == map[] && s.lingering == {}
    && (s.row.Some? ==> s.row.value.updatedAt <= s.clock)
    && s.lastClaim == (if s.row.Some? && s.row.value.owner != ""
                       then map[s.row.value.owner := s.row.value.updatedAt] else map[])
  }

  /** What every reachable fleet satisfies: whoever has a fresh claim owns the row. */
  ghost predicate Inv(s: Fleet) {
    && (forall i | i in s.lastClaim :: s.lastClaim[i] <= s.clock && s.row.Some? && s.row.value.owner != "")
    && (forall i: Instance | s.Fresh(i) :: s.row == Some(Row(i, s.lastClaim[i])))
    && (forall i | i in s.phase && s.phase[i] != Standby :: i in s.lastClaim)
    && (forall i | i in s.lingering :: i in s.lastClaim)
    && (s.row.Some? && s.row.value.owner != "" ==>
          && s.row.value.owner in s.lastClaim
          && s.lastClaim[s.row.value.owner] == s.row.value.updatedAt)
  }

  lemma NextKeepsInv(s: Fleet, step: Step)
    requires Inv(s)
    ensures Inv(Next(s, step))
  {
  }

  lemma {:induction false} RunKeepsInv(s: Fleet, steps: seq<Step>)
    requires Inv(s)
    ensures Inv(Run(s, steps))
    decreases |steps|
  {
    if steps != [] {
      NextKeepsInv(s, steps[0]);
      RunKeepsInv(Next(s, steps[0]), steps[1..]);
    }
  }

  /** Along every run, the lease passes from one owner to another only after the old owner has been
      silent for more than a TTL. */
  lemma HandoverNeedsSilence(s0: Fleet, steps: seq<Step>, j: Instance)
    requires Init(s0)
    ensures
      var s := Run(s0, steps);
      var t := Next(s, TryClaim(j));
      s.row.Some? && s.row.value.owner != "" && t.row.Some? && t.row.value.owner != s.row.value.owner
      ==> var former := s.row.value.owner;
          && t.row == Some(Row(j, s.clock))
          && former in s.lastClaim && s.clock - s.lastClaim[former] > LEADER_TTL
  {
    RunKeepsInv(s0, steps);
  }

  /** In every run and at every moment at most one process has claimed within a TTL. So of any processes that hold a
      socket, all but one have not: heartbeats within the TTL mean a single socket. */
  lemma AtMostOneFreshClaim(s0: Fleet, steps: seq<Step>, i: Instance, j: Instance)
    requires Init(s0) && i != j
    ensures
      var s := Run(s0, steps);
      && !(s.Fresh(i) && s.Fresh(j))
      && (s.HoldsSocket(i) && s.HoldsSocket(j) ==>
            && i in s.lastClaim && j in s.lastClaim
            && (s.clock - s.lastClaim[i] > LEADER_TTL || s.clock - s.lastClaim[j] > LEADER_TTL))
  {
    RunKeepsInv(s0, steps);
  }

  /** A holder's heartbeat succeeds if and only if nobody took the lease from it, and it always does
      while its last claim is within the TTL. */
  lemma HeartbeatSucceedsWhileFresh(s0: Fleet, steps: seq<Step>, i: Instance)
    requires Init(s0)
    requires Run(s0, steps).PhaseOf(i) == Online
    ensures
      var s := Run(s0, steps);
      && s.row.Some?
      && (s.Fresh(i) ==> Next(s, TryClaim(i)).PhaseOf(i) == Online)
      && (Next(s, TryClaim(i)).PhaseOf(i) == Online <==>
            s.row.value.owner == i || s.clock - s.row.value.updatedAt > LEADER_TTL)
  {
    RunKeepsInv(s0, steps);
  }

  /** Exactly when a second process can get onto the socket beside the row's owner: when the owner's
      last claim is more than a TTL old. */
  lemma SecondSocketExactlyWhenStale(s0: Fleet, steps: seq<Step>, i: Instance, j: Instance)
    requires Init(s0) && i != j
    requires
      var s := Run(s0, steps);
      s.HoldsSocket(i) && s.row.Some? && s.row.value.owner == i && s.PhaseOf(j) == Standby && !s.HoldsSocket(j)
    ensures
      var s := Run(s0, steps);
      var t := Run(s, [TryClaim(j), Dial(j)]);
      t.HoldsSocket(i) && (t.HoldsSocket(j) <==> !s.Fresh(i))
  {
    RunKeepsInv(s0, steps);
    var s := Run(s0, steps);
    var two := [TryClaim(j), Dial(j)];
    assert two[1..] == [Dial(j)];
    assert Run(s, two) == Run(Next(s, two[0]), two[1..]);
    var u := Next(s, TryClaim(j));
    assert [Dial(j)][1..] == [];
    assert Run(u, [Dial(j)]) == Run(Next(u, Dial(j)), []) == Next(u, Dial(j));
  }

  /** The gap is real: pairing holds the socket for a window of 160 seconds without a heartbeat, and
      a second process is elected and connects inside it. */
  lemma PairingWindowAllowsTwoSockets(a: Instance, b: Instance)
    requires a != b
    ensures
      var s0 := Fleet(0, Some(Row("", 0)), map[], map[], {});
      var s := Run(s0, [TryClaim(a), Dial(a), Advance(91), TryClaim(b), Dial(b)]);
      Init(s0) && s.HoldsSocket(a) && s.HoldsSocket(b)
  {
    var s0 := Fleet(0, Some(Row("", 0)), map[], map[], {});
    var s1 := Next(s0, TryClaim(a));
    var s2 := Next(s1, Dial(a));
    var s3 := Next(s2, Advance(91));
    var s4 := Next(s3, TryClaim(b));
    var s5 := Next(s4, Dial(b));
    var steps := [TryClaim(a), Dial(a), Advance(91), TryClaim(b), Dial(b)];
    assert steps[1..] == [Dial(a), Advance(91), TryClaim(b), Dial(b)];
    assert steps[1..][1..] == [Advance(91), TryClaim(b), Dial(b)];
    assert steps[1..][1..][1..] == [TryClaim(b), Dial(b)];
    assert steps[1..][1..][1..][1..] == [Dial(b)];
    assert steps[1..][1..][1..][1..][1..] == [];
    assert Run(s0, steps) == Run(s1, steps[1..]) == Run(s2, steps[1..][1..]) == Run(s3, steps[1..][1..][1..])
        == Run(s4, [Dial(b)]) == Run(s5, []);
  }

  /** Another process owns the row, and its claim is within the TTL. */
  predicate Blocked(s: Fleet, i: Instance) {
    s.row.Some? && s.row.value.owner != "" && s.row.value.owner != i && s.clock - s.row.value.updatedAt <= LEADER_TTL
  }

  predicate BlockedRun(s: Fleet, steps: seq<Step>, i: Instance)
    decreases |steps|
  {
    steps == [] || (Blocked(s, i) && BlockedRun(Next(s, steps[0]), steps[1..], i))
  }

  /** A socket left open by pair() stays open, beside the leader's, over every run in which others keep the lease. */
  lemma {:induction false} LingeringSocketStays(s: Fleet, steps: seq<Step>, i: Instance)
    requires i in s.lingering && s.PhaseOf(i) == Standby && BlockedRun(s, steps, i)
    ensures Run(s, steps).HoldsSocket(i) && Run(s, steps).PhaseOf(i) == Standby
    decreases |steps|
  {
    if steps != [] {
      var t := Next(s, steps[0]);
      assert i in t.lingering && t.PhaseOf(i) == Standby;
      LingeringSocketStays(t, steps[1..], i);
    }
  }

  /** And it is closed only by its own process, once elected again: exactly when that process's claim would succeed. */
  lemma LingeringSocketClosesExactlyWhenElected(s: Fleet, i: Instance)
    requires i in s.lingering && s.PhaseOf(i) == Standby
    ensures
      var t := Next(Next(s, TryClaim(i)), Close(i));
      t.HoldsSocket(i) <==> s.row.Some? && !MayClaim(s.row.value, i, s.clock)
  {
  }
}
