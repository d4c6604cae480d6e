/** The claim-first queue of the scheduler: due follow-ups (runOnce) and test-drive reminders
    (remindTestDrives).

    Both keep their rows in one table, claim a row, send, and then mark it; each later takes back claims that look
    abandoned, and neither looks at whose they are. `Row` is one follow-up, or the slot of one kind of reminder of
    one test drive, together with a tally of what happened to it; `Next` interleaves the statements of any number
    of passes; `Queue` is the scheduler's own loop. */
module Followups {
  import opened Windows

  const STALE_AFTER := 10 * MINUTE
  const BATCH := 20

  datatype Kind = Followup | Reminder

  /** Free: a pending follow-up, or a reminder that has no row. Queued: a reminder's row that runOnce made pending.
      Gone: a deleted follow-up. */
  datatype Status = Free | Queued | Sending | Sent | Gone

  /** A live claim: when it was made, whether by runOnce (which knows the row by its id), and on which insertion of
      the row. */
  datatype Hold = Hold(at: int, byRunOnce: bool, gen: nat)

  /** held and delivered: the passes that have claimed the row and not yet sent, and those that have sent and not
      yet marked it. The tallies: successful sends, passes cut off between sending and marking, passes cut off
      before sending, and claims taken back while a pass was still at work on them. */
  datatype Row = Row(kind: Kind, status: Status, scheduledAt: int, gen: nat,
                     held: map<nat, Hold>, delivered: map<nat, Hold>,
                     sends: nat, cuts: nat, aborts: nat, steals: nat) {
    predicate Busy() {
      held != map[] || delivered != map[]
    }

    predicate Knows(pass: nat) {
      pass in held || pass in delivered
    }

    predicate At(pass: nat) {
      (pass in held && held[pass].gen == gen) || (pass in delivered && delivered[pass].gen == gen)
    }

    /** Some pass is at work on the row as it now stands. */
    predicate Working() {
      exists pass | pass in held.Keys + delivered.Keys :: At(pass)
    }

    predicate Exists() {
      if kind == Followup then status != Gone else status != Free
    }

    predicate Stale(now: int) {
      status == Sending && scheduledAt < now - STALE_AFTER
    }

    function Pending(): Status {
      if kind == Followup then Free else Queued
    }

    function Absent(): Status {
      if kind == Followup then Gone else Free
    }
  }

  function Stolen(r: Row): nat {
    if r.Working() then r.steals + 1 else r.steals
  }

  /** runOnce's recovery: every stale row becomes pending, reminders included. */
  function Recovered(r: Row, now: int): Row {
    if r.Stale(now) then r.(status := r.Pending(), steals := Stolen(r)) else r
  }

  /** remindTestDrives' recovery: every stale row is deleted, follow-ups included. */
  function Deleted(r: Row, now: int): Row {
    if r.Stale(now) then r.(status := r.Absent(), steals := Stolen(r)) else r
  }

  /** runOnce claims a due pending row. */
  function Claimed(r: Row, pass: nat, now: int): Row {
    if r.status != r.Pending() || r.scheduledAt > now || r.Knows(pass) then r
    else r.(status := Sending, held := r.held[pass := Hold(now, true, r.gen)])
  }

  /** remindTestDrives inserts a reminder that has no row; the unique index refuses a second one. */
  function Inserted(r: Row, pass: nat, now: int): Row {
    if r.kind != Reminder || r.status != Free || r.Knows(pass) then r
    else r.(status := Sending, scheduledAt := now, gen := r.gen + 1, held := r.held[pass := Hold(now, false, r.gen + 1)])
  }

  function Delivered(r: Row, pass: nat): Row {
    if pass !in r.held then r
    else r.(held := r.held - {pass}, delivered := r.delivered[pass := r.held[pass]], sends := r.sends + 1)
  }

  /** The send failed or there is no recipient. runOnce sets the row it claimed pending, whatever it is now;
      remindTestDrives deletes the reminder's row if it says sending. */
  function Returned(r: Row, pass: nat): Row {
    if pass !in r.held then r
    else
      var h, n := r.held[pass], r.(held := r.held - {pass});
      if h.byRunOnce then if r.Exists() && h.gen == r.gen then n.(status := r.Pending()) else n
      else if r.status == Sending then n.(status := r.Absent()) else n
  }

  /** runOnce marks the row it claimed; remindTestDrives marks whatever row the reminder has. */
  function Marked(r: Row, pass: nat): Row {
    if pass !in r.delivered then r
    else
      var h, n := r.delivered[pass], r.(delivered := r.delivered - {pass});
      if r.Exists() && (!h.byRunOnce || h.gen == r.gen) then n.(status := Sent) else n
  }

  /** The pass is cut off before its send, or after it. */
  function CutOff(r: Row, pass: nat): Row {
    if pass in r.held then r.(held := r.held - {pass}, aborts := r.aborts + 1)
    else if pass in r.delivered then r.(delivered := r.delivered - {pass}, cuts := r.cuts + 1)
    else r
  }

  type Table = map<nat, Row>

  datatype Step =
    | Recover(now: int)
    | Delete(now: int)
    | Claim(pass: nat, ids: set<nat>, now: int)
    | Insert(pass: nat, id: nat, now: int)
    | Deliver(pass: nat, id: nat)
    | Return(pass: nat, id: nat)
    | Mark(pass: nat, id: nat)
    | Cut(pass: nat, id: nat)

  /** One statement of one pass, as it bears on one row. */
  function RowNext(r: Row, id: nat, step: Step): Row {
    match step
    case Recover(now) => Recovered(r, now)
    case Delete(now) => Deleted(r, now)
    case Claim(pass, ids, now) => if id in ids then Claimed(r, pass, now) else r
    case Insert(pass, o, now) => if id == o then Inserted(r, pass, now) else r
    case Deliver(pass, o) => if id == o then Delivered(r, pass) else r
    case Return(pass, o) => if id == o then Returned(r, pass) else r
    case Mark(pass, o) => if id == o then Marked(r, pass) else r
    case Cut(pass, o) => if id == o then CutOff(r, pass) else r
  }

  /** One statement of one pass. */
  function Next(t: Table, step: Step): Table {
    map id | id in t :: RowNext(t[id], id, step)
  }

  function Run(t: Table, steps: seq<Step>): Table
    decreases |steps|
  {
    if steps == [] then t else Run(Next(t, steps[0]), steps[1..])
  }

  function RowRun(r: Row, id: nat, steps: seq<Step>): Row
    decreases |steps|
  {
    if steps == [] then r else RowRun(RowNext(r, id, steps[0]), id, steps[1..])
  }

  /** Rows do not meet: what happens to one is decided by the statements alone. */
  lemma {:induction false} RowsAreSeparate(t: Table, steps: seq<Step>, id: nat)
    requires id in t
    ensures id in Run(t, steps) && Run(t, steps)[id] == RowRun(t[id], id, steps)
    decreases |steps|
  {
    if steps != [] {
      RowsAreSeparate(Next(t, steps[0]), steps[1..], id);
    }
  }

  // ----- sends and licences to send -----

  /** The licence a row has out: one while a pass works on it, one for good when it is sent or gone. */
  function Licence(r: Row): nat {
    match r.status
    case Free => 0
    case Queued => 0
    case Sending => if r.Working() then 1 else 0
    case _ => 1
  }

  /** Sends done and sends to come, against the licences: the one out now, and one more for each pass cut off after
      its send and each claim taken from a working pass. */
  ghost predicate RowInv(r: Row) {
    r.sends + |r.held| <= r.cuts + r.steals + Licence(r) && r.held.Keys !! r.delivered.Keys
  }

  lemma RemovedSize(m: map<nat, Hold>, k: nat)
    requires k in m
    ensures |m - {k}| == |m| - 1
  {
    assert m == (m - {k})[k := m[k]];
  }

  lemma AtMeansWorking(r: Row, pass: nat)
    requires r.At(pass)
    ensures r.Working()
  {
    assert pass in r.held.Keys + r.delivered.Keys;
  }

  lemma ClaimKeepsRowInv(r: Row, pass: nat, now: int)
    requires RowInv(r)
    ensures RowInv(Claimed(r, pass, now)) && RowInv(Inserted(r, pass, now))
  {
    if Claimed(r, pass, now) != r {
      AtMeansWorking(Claimed(r, pass, now), pass);
    }
    if Inserted(r, pass, now) != r {
      AtMeansWorking(Inserted(r, pass, now), pass);
    }
  }

  lemma DeliverKeepsWorking(r: Row, pass: nat)
    requires pass in r.held && r.held.Keys !! r.delivered.Keys && r.Working()
    ensures Delivered(r, pass).Working()
  {
    var p :| p in r.held.Keys + r.delivered.Keys && r.At(p);
    AtMeansWorking(Delivered(r, pass), p);
  }

  lemma DeliverKeepsRowInv(r: Row, pass: nat)
    requires RowInv(r)
    ensures RowInv(Delivered(r, pass))
  {
    if pass in r.held {
      RemovedSize(r.held, pass);
      if r.Working() {
        DeliverKeepsWorking(r, pass);
      }
    }
  }

  /** A pass whose row was replaced meanwhile marks nothing, and leaves others at work. */
  lemma LateMarkKeepsWorking(r: Row, pass: nat)
    requires pass in r.delivered && r.delivered[pass].gen != r.gen && r.held.Keys !! r.delivered.Keys && r.Working()
    ensures r.(delivered := r.delivered - {pass}).Working()
  {
    var p :| p in r.held.Keys + r.delivered.Keys && r.At(p);
    AtMeansWorking(r.(delivered := r.delivered - {pass}), p);
  }

  lemma ReturnKeepsRowInv(r: Row, pass: nat)
    requires RowInv(r)
    ensures RowInv(Returned(r, pass))
  {
    if pass in r.held {
      RemovedSize(r.held, pass);
    }
  }

  lemma MarkKeepsTallies(r: Row, pass: nat)
    ensures
      var n := Marked(r, pass);
      n.sends == r.sends && n.held == r.held && n.cuts == r.cuts && n.steals == r.steals && n.delivered.Keys <= r.delivered.Keys
  {
  }

  lemma MarkKeepsLicence(r: Row, pass: nat)
    requires r.held.Keys !! r.delivered.Keys
    ensures Licence(r) <= Licence(Marked(r, pass))
  {
    if pass in r.delivered && r.status == Sending && r.Working() && Marked(r, pass).status == Sending {
      LateMarkKeepsWorking(r, pass);
    }
  }

  lemma MarkKeepsRowInv(r: Row, pass: nat)
    requires RowInv(r)
    ensures RowInv(Marked(r, pass))
  {
    MarkKeepsTallies(r, pass);
    MarkKeepsLicence(r, pass);
  }

  lemma RecoveryKeepsRowInv(r: Row, now: int)
    requires RowInv(r)
    ensures RowInv(Recovered(r, now)) && RowInv(Deleted(r, now))
  {
  }

  lemma CutKeepsRowInv(r: Row, pass: nat)
    requires RowInv(r)
    ensures RowInv(CutOff(r, pass))
  {
    if pass in r.held {
      RemovedSize(r.held, pass);
    }
  }

  lemma SettlingKeepsRowInv(r: Row, id: nat, step: Step)
    requires RowInv(r) && (step.Return? || step.Mark? || step.Cut?)
    ensures RowInv(RowNext(r, id, step))
  {
    ReturnKeepsRowInv(r, step.pass);
    MarkKeepsRowInv(r, step.pass);
    CutKeepsRowInv(r, step.pass);
  }

  lemma StepKeepsRowInv(r: Row, id: nat, step: Step)
    requires RowInv(r)
    ensures RowInv(RowNext(r, id, step))
  {
    match step
    case Recover(now) => RecoveryKeepsRowInv(r, now);
    case Delete(now) => RecoveryKeepsRowInv(r, now);
    case Claim(pass, _, now) => ClaimKeepsRowInv(r, pass, now);
    case Insert(pass, _, now) => ClaimKeepsRowInv(r, pass, now);
    case Deliver(pass, _) => DeliverKeepsRowInv(r, pass);
    case _ => SettlingKeepsRowInv(r, id, step);
  }

  /** For any interleaving of any number of passes: a row is sent at most once, plus once for each pass cut off
      between its send and its mark, plus once for each claim taken from a pass at work. */
  lemma {:induction false} SendsAreLicensed(r: Row, id: nat, steps: seq<Step>)
    requires RowInv(r)
    ensures RowInv(RowRun(r, id, steps))
    ensures var e := RowRun(r, id, steps); e.sends <= 1 + e.cuts + e.steals
    decreases |steps|
  {
    if steps != [] {
      StepKeepsRowInv(r, id, steps[0]);
      SendsAreLicensed(RowNext(r, id, steps[0]), id, steps[1..]);
    }
  }

  // ----- overlapping passes: when a claim can be taken from a pass at work -----

  /** "Two workers can never send the same follow-up" holds exactly while the row is at most ten minutes overdue:
      staleness is judged by scheduled_at, not by the age of the claim. */
  lemma SecondWorkerClaimsExactlyWhenOverdue(r: Row, p: nat, q: nat, now: int)
    requires p != q && r.status == Sending && p in r.held && !r.Knows(q) && r.scheduledAt <= now
    ensures
      var n := Claimed(Recovered(r, now), q, now);
      p in n.held && (q in n.held <==> r.scheduledAt < now - STALE_AFTER)
  {
  }

  function NewFollowup(at: int): Row {
    Row(Followup, Free, at, 0, map[], map[], 0, 0, 0, 0)
  }

  function NewReminder(): Row {
    Row(Reminder, Free, 0, 0, map[], map[], 0, 0, 0, 0)
  }

  /** Two workers get hold of an abandoned or overdue row one after the other, and both send. */
  function TwoWorkers(id: nat, p: nat, q: nat, now: int): seq<Step> {
    [Recover(now), Claim(p, {id}, now), Recover(now), Claim(q, {id}, now), Deliver(p, id), Deliver(q, id)]
  }

  lemma RunTwoWorkers(r: Row, id: nat, p: nat, q: nat, now: int)
    ensures RowRun(r, id, TwoWorkers(id, p, q, now))
         == Delivered(Delivered(Claimed(Recovered(Claimed(Recovered(r, now), p, now), now), q, now), p), q)
  {
    var s := TwoWorkers(id, p, q, now);
    RunCons(r, id, s);
    var r1 := Recovered(r, now);
    RunCons(r1, id, s[1..]);
    var r2 := Claimed(r1, p, now);
    RunCons(r2, id, s[1..][1..]);
    var r3 := Recovered(r2, now);
    RunCons(r3, id, s[1..][1..][1..]);
    var r4 := Claimed(r3, q, now);
    RunCons(r4, id, s[1..][1..][1..][1..]);
    RunCons(Delivered(r4, p), id, s[1..][1..][1..][1..][1..]);
  }

  lemma RunCons(r: Row, id: nat, steps: seq<Step>)
    requires steps != []
    ensures RowRun(r, id, steps) == RowRun(RowNext(r, id, steps[0]), id, steps[1..])
  {
  }

  /** A follow-up more than ten minutes overdue, two workers, nobody cut off: sent twice. */
  lemma OverdueFollowupIsSentTwice(at: int, now: int, id: nat, p: nat, q: nat)
    requires p != q && at < now - STALE_AFTER
    ensures
      var e := RowRun(NewFollowup(at), id, TwoWorkers(id, p, q, now));
      RowInv(NewFollowup(at)) && e.sends == 2 && e.cuts == e.aborts == 0
  {
    RunTwoWorkers(NewFollowup(at), id, p, q, now);
    var held := NewFollowup(at).(status := Sending, held := map[p := Hold(now, true, 0)]);
    assert Claimed(Recovered(NewFollowup(at), now), p, now) == held;
  }

  // ----- reminders -----

  /** Whenever claims are taken back, every live claim is at most ten minutes old: passes are shorter than that. */
  ghost predicate ShortPasses(r: Row, id: nat, steps: seq<Step>)
    decreases |steps|
  {
    steps == [] || (RecentClaims(r, steps[0]) && ShortPasses(RowNext(r, id, steps[0]), id, steps[1..]))
  }

  ghost predicate RecentClaims(r: Row, step: Step) {
    step.Recover? || step.Delete? ==>
      && (forall p | p in r.held :: r.held[p].at >= step.now - STALE_AFTER)
      && (forall p | p in r.delivered :: r.delivered[p].at >= step.now - STALE_AFTER)
  }

  predicate Uncut(id: nat, steps: seq<Step>) {
    forall i | 0 <= i < |steps| :: !(steps[i].Cut? && steps[i].id == id)
  }

  ghost predicate Inserter(r: Row, h: Hold) {
    !h.byRunOnce && h.at == r.scheduledAt && h.gen == r.gen
  }

  /** A reminder says "sending" exactly while one pass, the one that inserted its row, is at work on it. */
  ghost predicate OneClaimant(r: Row) {
    && r.kind == Reminder && r.steals == 0 && r.cuts == 0 && r.status != Queued && r.status != Gone
    && (r.status == Sending <==> r.Busy())
    && (forall p | p in r.held :: r.held == map[p := r.held[p]] && r.delivered == map[] && Inserter(r, r.held[p]))
    && (forall p | p in r.delivered :: r.delivered == map[p := r.delivered[p]] && r.held == map[] && Inserter(r, r.delivered[p]))
  }

  /** New rows meet what the theorems below and the loop start from. */
  lemma NewRowsAreUnclaimed(at: int)
    ensures OneClaimant(NewReminder()) && AtRest(NewReminder()) && AtRest(NewFollowup(at))
  {
  }

  lemma NotStale(r: Row, step: Step)
    requires OneClaimant(r) && RecentClaims(r, step) && (step.Recover? || step.Delete?)
    ensures !r.Stale(step.now)
  {
    if r.status == Sending {
      if r.held != map[] {
        var p :| p in r.held;
      } else {
        var p :| p in r.delivered;
      }
    }
  }

  lemma ClaimKeepsOneClaimant(r: Row, pass: nat, now: int)
    requires OneClaimant(r)
    ensures OneClaimant(Claimed(r, pass, now)) && OneClaimant(Inserted(r, pass, now))
  {
    if Inserted(r, pass, now) != r {
      assert r.held == map[] && r.delivered == map[];
    }
  }

  lemma DeliverKeepsOneClaimant(r: Row, pass: nat)
    requires OneClaimant(r)
    ensures OneClaimant(Delivered(r, pass))
  {
    if pass in r.held {
      assert r.held - {pass} == map[];
    }
  }

  lemma LeaveKeepsOneClaimant(r: Row, pass: nat)
    requires OneClaimant(r)
    ensures OneClaimant(Returned(r, pass)) && OneClaimant(Marked(r, pass))
  {
    if pass in r.held {
      assert r.held - {pass} == map[];
    }
    if pass in r.delivered {
      assert r.delivered - {pass} == map[];
    }
  }

  lemma StepKeepsOneClaimant(r: Row, id: nat, step: Step)
    requires OneClaimant(r) && RecentClaims(r, step) && !(step.Cut? && step.id == id)
    ensures OneClaimant(RowNext(r, id, step))
  {
    match step
    case Recover(_) => NotStale(r, step);
    case Delete(_) => NotStale(r, step);
    case Claim(pass, _, now) => ClaimKeepsOneClaimant(r, pass, now);
    case Insert(pass, _, now) => ClaimKeepsOneClaimant(r, pass, now);
    case Deliver(pass, _) => DeliverKeepsOneClaimant(r, pass);
    case Return(pass, _) => LeaveKeepsOneClaimant(r, pass);
    case Mark(pass, _) => LeaveKeepsOneClaimant(r, pass);
    case Cut(_, _) =>
  }

  /** Overlapping workers, failed sends that delete their claim and retry, passes shorter than ten minutes and none
      cut off: a reminder succeeds at most once, and its claim is never abandoned. */
  lemma {:induction false} ReminderSucceedsAtMostOnce(r: Row, id: nat, steps: seq<Step>)
    requires OneClaimant(r) && RowInv(r) && ShortPasses(r, id, steps) && Uncut(id, steps)
    ensures
      var e := RowRun(r, id, steps);
      OneClaimant(e) && e.sends <= 1 && (e.status == Sending ==> e.Busy())
    decreases |steps|
  {
    if steps != [] {
      StepKeepsOneClaimant(r, id, steps[0]);
      StepKeepsRowInv(r, id, steps[0]);
      ReminderSucceedsAtMostOnce(RowNext(r, id, steps[0]), id, steps[1..]);
    }
  }

  /** Conversely, once a claim is abandoned the reminder can be sent twice more, by short passes none of which is cut
      off: runOnce takes it for a follow-up, and goes on finding it stale while a worker is at work on it. */
  lemma AbandonedReminderCanBeSentTwice(r: Row, id: nat, p: nat, q: nat, now: int)
    requires r.kind == Reminder && r.status == Sending && !r.Busy() && r.scheduledAt < now - STALE_AFTER && p != q
    ensures
      var steps := TwoWorkers(id, p, q, now);
      ShortPasses(r, id, steps) && Uncut(id, steps) && RowRun(r, id, steps).sends == r.sends + 2
  {
    RunTwoWorkers(r, id, p, q, now);
    ShortTwoWorkers(r, id, p, q, now);
    var r2 := Claimed(Recovered(r, now), p, now);
    assert r2.held == map[p := Hold(now, true, r.gen)] && r2.status == Sending;
  }

  lemma ShortTwoWorkers(r: Row, id: nat, p: nat, q: nat, now: int)
    requires !r.Busy()
    ensures ShortPasses(r, id, TwoWorkers(id, p, q, now))
  {
    var s := TwoWorkers(id, p, q, now);
    var r1 := Recovered(r, now);
    var r2 := Claimed(r1, p, now);
    var r3 := Recovered(r2, now);
    var r4 := Claimed(r3, q, now);
    var r5 := Delivered(r4, p);
    assert RecentClaims(r, s[0]) && RecentClaims(r2, s[1..][1..][0]);
    assert ShortPasses(Delivered(r5, q), id, s[1..][1..][1..][1..][1..][1..]);
    assert ShortPasses(r5, id, s[1..][1..][1..][1..][1..]);
    assert ShortPasses(r4, id, s[1..][1..][1..][1..]);
    assert ShortPasses(r3, id, s[1..][1..][1..]);
    assert ShortPasses(r2, id, s[1..][1..]);
    assert ShortPasses(r1, id, s[1..]);
  }

  // ----- the scheduler's single loop -----

  /** What becomes of a claimed row in its pass. */
  datatype Fate = NoRecipient | SendFails | Sends | DiesBeforeSend | DiesAfterSend

  function Outcome(r: Row, pass: nat, fate: Fate): Row {
    match fate
    case NoRecipient => Returned(r, pass)
    case SendFails => Returned(r, pass)
    case Sends => Marked(Delivered(r, pass), pass)
    case DiesBeforeSend => CutOff(r, pass)
    case DiesAfterSend => CutOff(Delivered(r, pass), pass)
  }

  function Resolved(t: Table, pass: nat, id: nat, fate: Fate): Table {
    if id in t then t[id := Outcome(t[id], pass, fate)] else t
  }

  function ResolvedAll(t: Table, pass: nat, ids: seq<nat>, fate: nat -> Fate): Table {
    if ids == [] then t else ResolvedAll(Resolved(t, pass, ids[0], fate(ids[0])), pass, ids[1..], fate)
  }

  function Ids(pick: seq<nat>): set<nat> {
    set id | id in pick
  }

  /** One runOnce: recover, claim the batch the database picks, then work through it. */
  function OnePass(t: Table, pass: nat, now: int, pick: seq<nat>, fate: nat -> Fate): Table {
    ResolvedAll(Next(Next(t, Recover(now)), Claim(pass, Ids(pick), now)), pass, pick, fate)
  }

  /** Inserting and settling the due reminders one after the other. */
  function RemindAll(t: Table, pass: nat, now: int, due: seq<nat>, fate: nat -> Fate): Table {
    if due == [] then t
    else RemindAll(Resolved(Next(t, Insert(pass, due[0], now)), pass, due[0], fate(due[0])), pass, now, due[1..], fate)
  }

  /** One remindTestDrives. */
  function RemindPass(t: Table, pass: nat, now: int, due: seq<nat>, fate: nat -> Fate): Table {
    RemindAll(Next(t, Delete(now)), pass, now, due, fate)
  }

  class Queue {
    var rows: Table

    constructor (rows: Table)
      ensures this.rows == rows
    {
      this.rows := rows;
    }

    /** What the sending loop does with one claimed row. */
    method Settle(pass: nat, id: nat, fate: Fate)
      modifies this
      ensures rows == Resolved(old(rows), pass, id, fate)
    {
      if id !in rows {
        return;
      }
      match fate {
        case NoRecipient =>
          rows := rows[id := Returned(rows[id], pass)];
        case SendFails =>
          rows := rows[id := Returned(rows[id], pass)];
        case Sends =>
          rows := rows[id := Delivered(rows[id], pass)];
          rows := rows[id := Marked(rows[id], pass)];
        case DiesBeforeSend =>
          rows := rows[id := CutOff(rows[id], pass)];
        case DiesAfterSend =>
          rows := rows[id := Delivered(rows[id], pass)];
          rows := rows[id := CutOff(rows[id], pass)];
      }
    }

    method RunOnce(pass: nat, now: int, pick: seq<nat>, fate: nat -> Fate)
      requires |pick| <= BATCH
      modifies this
      ensures rows == OnePass(old(rows), pass, now, pick, fate)
    {
      rows := Next(rows, Recover(now));
      rows := Next(rows, Claim(pass, Ids(pick), now));
      ghost var claimed := rows;
      for i := 0 to |pick|
        invariant ResolvedAll(rows, pass, pick[i..], fate) == ResolvedAll(claimed, pass, pick, fate)
      {
        assert pick[i..][1..] == pick[i + 1..];
        Settle(pass, pick[i], fate(pick[i]));
      }
    }

    method RemindTestDrives(pass: nat, now: int, due: seq<nat>, fate: nat -> Fate)
      requires |due| <= BATCH
      modifies this
      ensures rows == RemindPass(old(rows), pass, now, due, fate)
    {
      rows := Next(rows, Delete(now));
      ghost var kept := rows;
      for i := 0 to |due|
        invariant RemindAll(rows, pass, now, due[i..], fate) == RemindAll(kept, pass, now, due, fate)
      {
        assert due[i..][1..] == due[i + 1..];
        rows := Next(rows, Insert(pass, due[i], now));
        Settle(pass, due[i], fate(due[i]));
      }
    }
  }

  /** One tick of the loop: the two passes, with what the database picks and how the sends go. */
  datatype Tick = Tick(now: int, pick: seq<nat>, fate: nat -> Fate, remindAt: int, due: seq<nat>, reminderFate: nat -> Fate)

  function AfterTick(t: Table, tick: Tick): Table {
    RemindPass(OnePass(t, 0, tick.now, tick.pick, tick.fate), 1, tick.remindAt, tick.due, tick.reminderFate)
  }

  function Loop(t: Table, ticks: seq<Tick>): Table
    decreases |ticks|
  {
    if ticks == [] then t else Loop(AfterTick(t, ticks[0]), ticks[1..])
  }

  /** Between passes: nobody is at work on the row and no claim was ever taken from a pass at work. */
  ghost predicate AtRest(r: Row) {
    !r.Busy() && r.steals == 0 && RowInv(r)
  }

  /** During a pass: at most the pass itself is at work on the row. */
  ghost predicate InHand(r: Row, pass: nat) {
    && r.steals == 0 && RowInv(r) && r.delivered == map[] && r.held.Keys <= {pass}
  }

  lemma OutcomeIsAtRest(r: Row, pass: nat, fate: Fate)
    requires InHand(r, pass)
    ensures AtRest(Outcome(r, pass, fate))
    ensures !r.Busy() ==> Outcome(r, pass, fate) == r
  {
    if pass in r.held {
      ReturnKeepsRowInv(r, pass);
      CutKeepsRowInv(r, pass);
      DeliverKeepsRowInv(r, pass);
      MarkKeepsRowInv(Delivered(r, pass), pass);
      CutKeepsRowInv(Delivered(r, pass), pass);
      assert r.held - {pass} == map[];
      assert (map[][pass := r.held[pass]]) - {pass} == map[];
    } else {
      assert r.held == map[];
    }
  }

  lemma RecoveryKeepsRest(r: Row, now: int)
    requires AtRest(r)
    ensures AtRest(Recovered(r, now)) && AtRest(Deleted(r, now))
    ensures r.status == Sent ==> Recovered(r, now) == Deleted(r, now) == r
  {
  }

  lemma ClaimPutsInHand(r: Row, pass: nat, now: int)
    requires AtRest(r)
    ensures InHand(Claimed(r, pass, now), pass) && InHand(Inserted(r, pass, now), pass)
    ensures r.status == Sent ==> Claimed(r, pass, now) == Inserted(r, pass, now) == r
  {
    ClaimKeepsRowInv(r, pass, now);
  }

  lemma {:induction false} ResolvedAllRow(t: Table, pass: nat, ids: seq<nat>, fate: nat -> Fate, id: nat)
    requires id in t && InHand(t[id], pass) && (id !in ids ==> !t[id].Busy())
    ensures
      var t' := ResolvedAll(t, pass, ids, fate);
      id in t' && AtRest(t'[id]) && (!t[id].Busy() ==> t'[id] == t[id])
  {
    if ids != [] {
      var t1 := Resolved(t, pass, ids[0], fate(ids[0]));
      if ids[0] == id {
        OutcomeIsAtRest(t[id], pass, fate(id));
      }
      ResolvedAllRow(t1, pass, ids[1..], fate, id);
    }
  }

  lemma OnePassKeepsRest(t: Table, pass: nat, now: int, pick: seq<nat>, fate: nat -> Fate, id: nat)
    requires id in t && AtRest(t[id])
    ensures
      var t' := OnePass(t, pass, now, pick, fate);
      id in t' && AtRest(t'[id]) && (t[id].status == Sent ==> t'[id] == t[id])
  {
    RecoveryKeepsRest(t[id], now);
    ClaimPutsInHand(Recovered(t[id], now), pass, now);
    ResolvedAllRow(Next(Next(t, Recover(now)), Claim(pass, Ids(pick), now)), pass, pick, fate, id);
  }

  lemma {:induction false} RemindAllKeepsRest(t: Table, pass: nat, now: int, due: seq<nat>, fate: nat -> Fate, id: nat)
    requires id in t && AtRest(t[id])
    ensures
      var t' := RemindAll(t, pass, now, due, fate);
      id in t' && AtRest(t'[id]) && (t[id].status == Sent ==> t'[id] == t[id])
  {
    if due != [] {
      ClaimPutsInHand(t[id], pass, now);
      OutcomeIsAtRest(Inserted(t[id], pass, now), pass, fate(id));
      RemindAllKeepsRest(Resolved(Next(t, Insert(pass, due[0], now)), pass, due[0], fate(due[0])), pass, now, due[1..], fate, id);
    }
  }

  lemma TickKeepsRest(t: Table, tick: Tick, id: nat)
    requires id in t && AtRest(t[id])
    ensures
      var t' := AfterTick(t, tick);
      id in t' && AtRest(t'[id]) && (t[id].status == Sent ==> t'[id] == t[id])
  {
    var u := OnePass(t, 0, tick.now, tick.pick, tick.fate);
    OnePassKeepsRest(t, 0, tick.now, tick.pick, tick.fate, id);
    RecoveryKeepsRest(u[id], tick.remindAt);
    RemindAllKeepsRest(Next(u, Delete(tick.remindAt)), 1, tick.remindAt, tick.due, tick.reminderFate, id);
  }

  /** A single scheduler loop, over any ticks, send failures and interruptions: each follow-up and each reminder is
      sent at most once, plus once for each pass cut off between its send and its mark; a sent one stays as it is. */
  lemma {:induction false} SentAtMostOncePlusCuts(t: Table, ticks: seq<Tick>, id: nat)
    requires id in t && AtRest(t[id])
    ensures id in Loop(t, ticks) && AtRest(Loop(t, ticks)[id])
    ensures Loop(t, ticks)[id].sends <= 1 + Loop(t, ticks)[id].cuts
    ensures t[id].status == Sent ==> Loop(t, ticks)[id] == t[id]
    decreases |ticks|
  {
    if ticks != [] {
      TickKeepsRest(t, ticks[0], id);
      SentAtMostOncePlusCuts(AfterTick(t, ticks[0]), ticks[1..], id);
    }
  }
}
