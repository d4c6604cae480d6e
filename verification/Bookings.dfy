/** Vehicles and bookings: the row-locked createBooking transaction, the unlocked check-then-write
    of patchVehicle, and the statement-by-statement patchBooking.

    `Server` runs each handler on its own. `World` interleaves the SQL statements of any number of
    concurrent handlers: FOR UPDATE holds a vehicle's row lock until commit or rollback, an UPDATE
    of a locked row waits, and a plain SELECT reads the committed row. */
module Bookings {
  import opened Wrappers

  datatype VehicleStatus = DRAFT | AVAILABLE | RESERVED | BOOKED | SOLD | DELIVERED
  datatype BookingStatus = PENDING | CONFIRMED | CANCELLED | COMPLETED | HANDOVER

  datatype Booking = Booking(vehicle: nat, status: BookingStatus) {
    /** The rows of the partial unique index uq_booking_active_vehicle. */
    predicate Active() {
      status == PENDING || status == CONFIRMED
    }
  }

  datatype Db = Db(vehicles: map<nat, VehicleStatus>, bookings: map<nat, Booking>) {
    predicate ActiveOn(b: nat, v: nat) {
      b in bookings && bookings[b].Active() && bookings[b].vehicle == v
    }

    predicate HasActive(v: nat) {
      exists b | b in bookings :: ActiveOn(b, v)
    }

    /** The status of a vehicle is one of those listed; false for an unknown vehicle. */
    predicate Is(v: nat, st: VehicleStatus) {
      v in vehicles && vehicles[v] == st
    }
  }

  /** What the book-versus-sold race test demands: at most one active booking per vehicle, and none
      on a vehicle that is still on offer. */
  ghost predicate Consistent(db: Db) {
    && (forall b | b in db.bookings :: db.bookings[b].vehicle in db.vehicles)
    && (forall v, b, c | db.ActiveOn(b, v) && db.ActiveOn(c, v) :: b == c)
    && (forall v, b | db.ActiveOn(b, v) :: !db.Is(v, AVAILABLE))
  }

  /** vehicleTransitions. */
  function Transitions(from: VehicleStatus): set<VehicleStatus> {
    match from
    case DRAFT => {AVAILABLE}
    case AVAILABLE => {RESERVED, BOOKED, SOLD}
    case RESERVED => {AVAILABLE, BOOKED, SOLD}
    case BOOKED => {AVAILABLE, DELIVERED, SOLD}
    case SOLD => {}
    case DELIVERED => {}
  }

  /** What patchVehicle accepts without force. */
  predicate Listed(from: VehicleStatus, to: VehicleStatus) {
    to == from || to in Transitions(from)
  }

  // ----- one handler at a time -----

  datatype Reply = Ok | Unavailable | NotFound | InvalidTransition

  function Created(db: Db, v: nat, id: nat): (Db, Reply) {
    if v !in db.vehicles then (db, NotFound)
    else if db.vehicles[v] != AVAILABLE || db.HasActive(v) then (db, Unavailable)
    else (Db(db.vehicles[v := RESERVED], db.bookings[id := Booking(v, PENDING)]), Ok)
  }

  class Server {
    var vehicles: map<nat, VehicleStatus>
    var bookings: map<nat, Booking>

    constructor ()
      ensures Snapshot() == Db(map[], map[])
    {
      vehicles, bookings := map[], map[];
    }

    function Snapshot(): Db
      reads this
    {
      Db(vehicles, bookings)
    }

    /** createBooking run alone: all of its writes or none, and success exactly for a free vehicle. */
    method CreateBooking(v: nat, id: nat) returns (r: Reply)
      requires id !in bookings
      modifies this
      ensures (Snapshot(), r) == Created(old(Snapshot()), v, id)
      ensures old(Consistent(Snapshot())) ==> Consistent(Snapshot())
      ensures old(Consistent(Snapshot())) ==> (r == Ok <==> old(Snapshot()).Is(v, AVAILABLE))
    {
      if v !in vehicles {
        return NotFound;
      }
      if vehicles[v] != AVAILABLE {
        return Unavailable;
      }
      if Snapshot().HasActive(v) {
        return Unavailable;
      }
      bookings := bookings[id := Booking(v, PENDING)];
      vehicles := vehicles[v := RESERVED];
      assert forall b, u :: Snapshot().ActiveOn(b, u) <==> (b == id && u == v) || old(Snapshot()).ActiveOn(b, u);
      r := Ok;
    }

    /** patchVehicle with a status, run alone: only listed transitions, so a sold or delivered vehicle stays so. */
    method PatchVehicle(v: nat, target: VehicleStatus, force: bool) returns (r: Reply)
      modifies this`vehicles
      ensures r == NotFound <==> v !in old(vehicles)
      ensures r == InvalidTransition <==>
              v in old(vehicles) && !force && target != old(vehicles)[v] && target !in Transitions(old(vehicles)[v])
      ensures r == Ok || r == NotFound || r == InvalidTransition
      ensures vehicles == if r == Ok then old(vehicles)[v := target] else old(vehicles)
      ensures !force && v in old(vehicles) && old(vehicles)[v] in {SOLD, DELIVERED} ==> vehicles[v] == old(vehicles)[v]
    {
      if v !in vehicles {
        return NotFound;
      }
      var cur := vehicles[v];
      if cur != target {
        var allowed := target in Transitions(cur);
        if !allowed && !force {
          return InvalidTransition;
        }
      }
      vehicles := vehicles[v := target];
      r := Ok;
    }

    /** patchBooking with a status, run alone: an unknown booking changes nothing, a status that the unique index
        refuses is not written, cancelling anything not yet cancelled frees a held vehicle, completing delivers it.
        Consistency is kept exactly when the patch neither revives a booking of a vehicle on offer nor cancels a
        finished booking of a vehicle that another booking holds. */
    method PatchBooking(id: nat, target: BookingStatus)
      modifies this
      ensures id !in old(bookings) ==> Snapshot() == old(Snapshot())
      ensures id in old(bookings) ==>
                && bookings == old(bookings)[id := old(bookings)[id].(status := StatusAfter(old(Snapshot()), id, target))]
                && vehicles == old(VehiclesAfter(Snapshot(), id, target))
      ensures id in old(bookings) && old(Consistent(Snapshot())) ==>
                (Consistent(Snapshot()) <==> !Revives(old(Snapshot()), id, target) && !FreesAnothers(old(Snapshot()), id, target))
    {
      if id !in bookings {
        return;
      }
      ghost var before := Snapshot();
      var prev := bookings[id].status;
      var v := bookings[id].vehicle;
      if !IndexClash(Snapshot(), id, target) {
        bookings := bookings[id := Booking(v, target)];
      }
      if target == CANCELLED && prev != CANCELLED {
        if v in vehicles && (vehicles[v] == RESERVED || vehicles[v] == BOOKED) {
          vehicles := vehicles[v := AVAILABLE];
        }
      }
      if target == HANDOVER || target == COMPLETED {
        bookings := bookings[id := Booking(v, COMPLETED)];
        if v in vehicles {
          vehicles := vehicles[v := DELIVERED];
        }
      }
      assert bookings == before.bookings[id := before.bookings[id].(status := StatusAfter(before, id, target))];
      assert vehicles == VehiclesAfter(before, id, target);
      if Consistent(before) {
        PatchedBookingIsConsistent(before, id, target);
      }
    }
  }

  predicate Held(db: Db, v: nat) {
    db.Is(v, RESERVED) || db.Is(v, BOOKED)
  }

  /** Setting the booking's status would put two active bookings on one vehicle. */
  predicate IndexClash(db: Db, b: nat, st: BookingStatus)
    requires b in db.bookings
  {
    (st == PENDING || st == CONFIRMED) && exists o | o in db.bookings :: o != b && db.ActiveOn(o, db.bookings[b].vehicle)
  }

  function StatusAfter(db: Db, id: nat, target: BookingStatus): BookingStatus
    requires id in db.bookings
  {
    if target == HANDOVER then COMPLETED else if IndexClash(db, id, target) then db.bookings[id].status else target
  }

  function VehiclesAfter(db: Db, id: nat, target: BookingStatus): map<nat, VehicleStatus>
    requires id in db.bookings
  {
    var v := db.bookings[id].vehicle;
    if target == CANCELLED && db.bookings[id].status != CANCELLED && Held(db, v) then db.vehicles[v := AVAILABLE]
    else if (target == COMPLETED || target == HANDOVER) && v in db.vehicles then db.vehicles[v := DELIVERED]
    else db.vehicles
  }

  /** A booking that is over is made active again while its vehicle is on offer. */
  predicate Revives(db: Db, id: nat, target: BookingStatus)
    requires id in db.bookings
  {
    (target == PENDING || target == CONFIRMED) && !db.bookings[id].Active() && db.Is(db.bookings[id].vehicle, AVAILABLE)
  }

  /** A booking that is over, but was not cancelled, is cancelled while another one holds the vehicle. */
  predicate FreesAnothers(db: Db, id: nat, target: BookingStatus)
    requires id in db.bookings
  {
    var b := db.bookings[id];
    target == CANCELLED && b.status != CANCELLED && !b.Active() && Held(db, b.vehicle) && db.HasActive(b.vehicle)
  }

  function PatchedDb(db: Db, id: nat, target: BookingStatus): Db
    requires id in db.bookings
  {
    Db(VehiclesAfter(db, id, target), db.bookings[id := db.bookings[id].(status := StatusAfter(db, id, target))])
  }

  lemma PatchedBookingIsConsistent(db: Db, id: nat, target: BookingStatus)
    requires Consistent(db) && id in db.bookings
    ensures Consistent(PatchedDb(db, id, target)) <==> !Revives(db, id, target) && !FreesAnothers(db, id, target)
  {
    var n, v := PatchedDb(db, id, target), db.bookings[id].vehicle;
    assert forall o, u | o != id :: n.ActiveOn(o, u) == db.ActiveOn(o, u);
    if target == PENDING || target == CONFIRMED {
      PatchedToActive(db, id, target);
    } else if FreesAnothers(db, id, target) {
      var o :| o in db.bookings && db.ActiveOn(o, v);
      assert n.ActiveOn(o, v) && n.Is(v, AVAILABLE);
    } else {
      PatchedToInactive(db, id, target);
    }
  }

  lemma PatchedToActive(db: Db, id: nat, target: BookingStatus)
    requires Consistent(db) && id in db.bookings && (target == PENDING || target == CONFIRMED)
    ensures Consistent(PatchedDb(db, id, target)) <==> !Revives(db, id, target)
  {
    var n, v := PatchedDb(db, id, target), db.bookings[id].vehicle;
    assert forall o, u | o != id :: n.ActiveOn(o, u) == db.ActiveOn(o, u);
    assert db.bookings[id].Active() <==> db.ActiveOn(id, v);
    if Revives(db, id, target) {
      assert n.ActiveOn(id, v) && n.Is(v, AVAILABLE);
    } else {
      assert forall u :: n.ActiveOn(id, u) ==> u == v && (db.ActiveOn(id, v) || !db.Is(v, AVAILABLE));
    }
  }

  lemma PatchedToInactive(db: Db, id: nat, target: BookingStatus)
    requires Consistent(db) && id in db.bookings && target != PENDING && target != CONFIRMED && !FreesAnothers(db, id, target)
    ensures Consistent(PatchedDb(db, id, target))
  {
    var n, v := PatchedDb(db, id, target), db.bookings[id].vehicle;
    assert forall o, u :: n.ActiveOn(o, u) ==> o != id && db.ActiveOn(o, u);
    assert db.bookings[id].Active() <==> db.ActiveOn(id, v);
  }

  // ----- concurrent handlers -----

  datatype TxPhase = Waiting | Locked | Inserted | Marked | Committed | Rejected | Missing | Failed {
    predicate Holding() {
      this == Locked || this == Inserted || this == Marked
    }

    predicate Finished() {
      this == Committed || this == Rejected || this == Missing || this == Failed
    }
  }

  /** A createBooking call; its booking takes the call's own id. */
  datatype Tx = Tx(vehicle: nat, phase: TxPhase)

  datatype PatchPhase = Asked | Cleared | Written | Refused
  datatype Patch = Patch(vehicle: nat, target: VehicleStatus, force: bool, phase: PatchPhase)

  datatype ClosePhase = Received | Read(prev: BookingStatus) | Updated(before: BookingStatus) | Completing | Finished
  /** A patchBooking call. */
  datatype Close = Close(booking: nat, target: BookingStatus, phase: ClosePhase)

  datatype World = World(db: Db, locks: map<nat, nat>, txs: map<nat, Tx>, patches: map<nat, Patch>, closes: map<nat, Close>)

  datatype Step =
    | Lock(t: nat) | Insert(t: nat) | Mark(t: nat) | Commit(t: nat) | Abort(t: nat)
    | Check(p: nat) | Write(p: nat)
    | ReadPrev(c: nat) | Update(c: nat) | Complete(c: nat) | Release(c: nat)

  /** SELECT .. FOR UPDATE, and the check of the status it returns. */
  function LockVehicle(w: World, t: nat): World {
    if !(t in w.txs && w.txs[t].phase == Waiting) then w
    else
      var v := w.txs[t].vehicle;
      if v !in w.db.vehicles then SetTx(w, t, Missing)
      else if v in w.locks then w
      else if w.db.vehicles[v] != AVAILABLE then SetTx(w, t, Rejected)
      else SetTx(w, t, Locked).(locks := w.locks[v := t])
  }

  /** INSERT INTO bookings, refused by the partial unique index when the vehicle has an active booking. */
  function InsertBooking(w: World, t: nat): World {
    if !(t in w.txs && w.txs[t].phase == Locked) then w
    else if w.db.HasActive(w.txs[t].vehicle) then SetTx(w, t, Rejected).(locks := w.locks - {w.txs[t].vehicle})
    else SetTx(w, t, Inserted)
  }

  /** UPDATE vehicles SET status='RESERVED', invisible until the commit. */
  function MarkReserved(w: World, t: nat): World {
    if t in w.txs && w.txs[t].phase == Inserted then SetTx(w, t, Marked) else w
  }

  /** COMMIT: both rows become visible and the lock is released. */
  function CommitTx(w: World, t: nat): World {
    if !(t in w.txs && w.txs[t].phase == Marked) then w
    else
      var v := w.txs[t].vehicle;
      SetTx(w, t, Committed).(locks := w.locks - {v},
                              db := Db(w.db.vehicles[v := RESERVED], w.db.bookings[t := Booking(v, PENDING)]))
  }

  /** ROLLBACK after a lost connection or any other failure. */
  function AbortTx(w: World, t: nat): World {
    if !(t in w.txs && (w.txs[t].phase == Waiting || w.txs[t].phase.Holding())) then w
    else SetTx(w, t, Failed).(locks := if w.txs[t].phase.Holding() then w.locks - {w.txs[t].vehicle} else w.locks)
  }

  /** patchVehicle's SELECT and its check against the transition table. */
  function CheckPatch(w: World, p: nat): World {
    if !(p in w.patches && w.patches[p].phase == Asked) then w
    else
      var q := w.patches[p];
      var ok := q.vehicle in w.db.vehicles
                && (q.force || Listed(w.db.vehicles[q.vehicle], q.target));
      w.(patches := w.patches[p := q.(phase := if ok then Cleared else Refused)])
  }

  /** patchVehicle's UPDATE, which waits for the row lock. */
  function WritePatch(w: World, p: nat): World {
    if !(p in w.patches && w.patches[p].phase == Cleared && w.patches[p].vehicle !in w.locks) then w
    else
      var q := w.patches[p];
      w.(patches := w.patches[p := q.(phase := Written)], db := SetVehicle(w.db, q.vehicle, q.target))
  }

  /** patchBooking's SELECT of the previous status. */
  function ReadStatus(w: World, c: nat): World {
    if !(c in w.closes && w.closes[c].phase == Received && w.closes[c].booking in w.db.bookings) then w
    else SetClose(w, c, Read(w.db.bookings[w.closes[c].booking].status))
  }

  /** patchBooking's UPDATE of the booking; an error of the unique index is ignored. */
  function UpdateStatus(w: World, c: nat): World {
    if !(c in w.closes && w.closes[c].phase.Read? && w.closes[c].booking in w.db.bookings) then w
    else
      var b := w.closes[c].booking;
      var db := if IndexClash(w.db, b, w.closes[c].target) then w.db
                else w.db.(bookings := w.db.bookings[b := w.db.bookings[b].(status := w.closes[c].target)]);
      SetClose(w, c, Updated(w.closes[c].phase.prev)).(db := db)
  }

  /** The second UPDATE for DELIVERED or COMPLETED. */
  function CompleteStatus(w: World, c: nat): World {
    if !(c in w.closes && w.closes[c].phase.Updated? && w.closes[c].booking in w.db.bookings
         && (w.closes[c].target == HANDOVER || w.closes[c].target == COMPLETED)) then w
    else
      var b := w.closes[c].booking;
      SetClose(w, c, Completing).(db := w.db.(bookings := w.db.bookings[b := w.db.bookings[b].(status := COMPLETED)]))
  }

  /** The UPDATE of the vehicle: back to the lot, or delivered. It waits for the row lock. */
  function ReleaseVehicle(w: World, c: nat): World {
    if !(c in w.closes && w.closes[c].booking in w.db.bookings) then w
    else
      var v := w.db.bookings[w.closes[c].booking].vehicle;
      if v in w.locks then w
      else if w.closes[c].phase == Completing then SetClose(w, c, Finished).(db := SetVehicle(w.db, v, DELIVERED))
      else if Cancelling(w.closes[c]) then
        SetClose(w, c, Finished).(db := if w.db.Is(v, RESERVED) || w.db.Is(v, BOOKED) then SetVehicle(w.db, v, AVAILABLE) else w.db)
      else w
  }

  /** One SQL statement of one handler; a statement that is not its handler's next one, or that waits
      for a row lock, changes nothing. */
  function Next(w: World, step: Step): World {
    match step
    case Lock(t) => LockVehicle(w, t)
    case Insert(t) => InsertBooking(w, t)
    case Mark(t) => MarkReserved(w, t)
    case Commit(t) => CommitTx(w, t)
    case Abort(t) => AbortTx(w, t)
    case Check(p) => CheckPatch(w, p)
    case Write(p) => WritePatch(w, p)
    case ReadPrev(c) => ReadStatus(w, c)
    case Update(c) => UpdateStatus(w, c)
    case Complete(c) => CompleteStatus(w, c)
    case Release(c) => ReleaseVehicle(w, c)
  }

  function SetTx(w: World, t: nat, phase: TxPhase): World
    requires t in w.txs
  {
    w.(txs := w.txs[t := w.txs[t].(phase := phase)])
  }

  function SetClose(w: World, c: nat, phase: ClosePhase): World
    requires c in w.closes
  {
    w.(closes := w.closes[c := w.closes[c].(phase := phase)])
  }

  /** An UPDATE of a vehicle row, which touches nothing when the row is gone. */
  function SetVehicle(db: Db, v: nat, st: VehicleStatus): Db {
    if v in db.vehicles then db.(vehicles := db.vehicles[v := st]) else db
  }

  /** The call has set its booking CANCELLED and will next free the vehicle. */
  predicate Cancelling(c: Close) {
    c.phase.Updated? && c.target == CANCELLED && c.phase.before != CANCELLED
  }

  /** Some call has cancelled a booking of the vehicle and not yet freed the vehicle. */
  ghost predicate BeingFreed(w: World, v: nat) {
    exists c :: FreedBy(w, v, c)
  }

  ghost predicate FreedBy(w: World, v: nat, c: nat) {
    && c in w.closes && Cancelling(w.closes[c])
    && w.closes[c].booking in w.db.bookings && w.db.bookings[w.closes[c].booking].vehicle == v
  }

  function Run(w: World, steps: seq<Step>): World
    decreases |steps|
  {
    if steps == [] then w else Run(Next(w, steps[0]), steps[1..])
  }

  /** Requests have arrived and none has started. */
  ghost predicate Idle(w: World) {
    && Consistent(w.db)
    && w.locks == map[]
    && (forall t | t in w.txs :: w.txs[t].phase == Waiting && t !in w.db.bookings)
    && (forall p | p in w.patches :: w.patches[p].phase == Asked)
    && (forall c | c in w.closes :: w.closes[c].phase == Received)
  }

  /** The two things the handlers do not check for themselves: a staff patch puts a vehicle on offer
      only when it has no active booking, nor one being cancelled; a booking patch still finds its
      booking active when its UPDATE runs. */
  ghost predicate Careful(w: World, step: Step) {
    match step
    case Write(p) =>
      p in w.patches && w.patches[p].target == AVAILABLE ==>
        !w.db.HasActive(w.patches[p].vehicle) && !BeingFreed(w, w.patches[p].vehicle)
    case Update(c) =>
      c in w.closes && w.closes[c].booking in w.db.bookings ==> w.db.bookings[w.closes[c].booking].Active()
    case _ => true
  }

  ghost predicate CarefulRun(w: World, steps: seq<Step>)
    decreases |steps|
  {
    steps == [] || (Careful(w, steps[0]) && CarefulRun(Next(w, steps[0]), steps[1..]))
  }

  ghost predicate LocksHeld(w: World) {
    && (forall v | v in w.locks :: w.locks[v] in w.txs && w.txs[w.locks[v]].vehicle == v && w.txs[w.locks[v]].phase.Holding())
    && (forall t | t in w.txs && w.txs[t].phase.Holding() :: w.txs[t].vehicle in w.locks && w.locks[w.txs[t].vehicle] == t)
    && (forall v | v in w.locks :: w.db.Is(v, AVAILABLE))
    && (forall t | t in w.txs && w.txs[t].phase != Committed :: t !in w.db.bookings)
  }

  ghost predicate FreeingSafe(w: World) {
    && (forall c | c in w.closes && w.closes[c].phase.Updated? :: w.closes[c].booking in w.db.bookings)
    && (forall v, c | FreedBy(w, v, c) :: !w.db.Is(v, AVAILABLE))
    && (forall v, c, b | FreedBy(w, v, c) :: !w.db.ActiveOn(b, v))
    && (forall v, c, d | FreedBy(w, v, c) && FreedBy(w, v, d) :: c == d)
  }

  ghost predicate Inv(w: World) {
    Consistent(w.db) && LocksHeld(w) && FreeingSafe(w)
  }

  /** A step that writes no booking and no patchBooking call frees nothing and books nothing. */
  lemma BookingsFrame(w: World, n: World)
    requires n.closes == w.closes && n.db.bookings == w.db.bookings
    ensures forall v, c :: FreedBy(n, v, c) == FreedBy(w, v, c)
    ensures forall v, b :: n.db.ActiveOn(b, v) == w.db.ActiveOn(b, v)
  {
  }

  lemma LockKeepsInv(w: World, t: nat)
    requires Inv(w)
    ensures Inv(LockVehicle(w, t))
  {
    BookingsFrame(w, LockVehicle(w, t));
    if t in w.txs && w.txs[t].phase == Waiting && w.db.Is(w.txs[t].vehicle, AVAILABLE) && w.txs[t].vehicle !in w.locks {
      LockTakenKeepsInv(w, t);
    }
  }

  lemma LockTakenKeepsInv(w: World, t: nat)
    requires Inv(w)
    requires t in w.txs && w.txs[t].phase == Waiting && w.db.Is(w.txs[t].vehicle, AVAILABLE) && w.txs[t].vehicle !in w.locks
    ensures Inv(SetTx(w, t, Locked).(locks := w.locks[w.txs[t].vehicle := t]))
  {
    BookingsFrame(w, SetTx(w, t, Locked).(locks := w.locks[w.txs[t].vehicle := t]));
  }

  lemma InsertKeepsInv(w: World, t: nat)
    requires Inv(w)
    ensures Inv(InsertBooking(w, t))
  {
    BookingsFrame(w, InsertBooking(w, t));
  }

  lemma MarkKeepsInv(w: World, t: nat)
    requires Inv(w)
    ensures Inv(MarkReserved(w, t))
  {
    BookingsFrame(w, MarkReserved(w, t));
  }

  lemma AbortKeepsInv(w: World, t: nat)
    requires Inv(w)
    ensures Inv(AbortTx(w, t))
  {
    BookingsFrame(w, AbortTx(w, t));
  }

  lemma CommitKeepsInv(w: World, t: nat)
    requires Inv(w)
    ensures Inv(CommitTx(w, t))
  {
    var n := CommitTx(w, t);
    if n != w {
      var v := w.txs[t].vehicle;
      assert w.db.Is(v, AVAILABLE);
      assert forall u, c :: FreedBy(n, u, c) == FreedBy(w, u, c);
      assert forall u, b :: n.db.ActiveOn(b, u) <==> (b == t && u == v) || w.db.ActiveOn(b, u);
    }
  }

  lemma PatchKeepsInv(w: World, step: Step)
    requires Inv(w) && Careful(w, step) && (step.Check? || step.Write?)
    ensures Inv(Next(w, step))
  {
    BookingsFrame(w, Next(w, step));
  }

  lemma UpdateKeepsInv(w: World, c: nat)
    requires Inv(w) && Careful(w, Update(c))
    ensures Inv(UpdateStatus(w, c))
  {
    var n := UpdateStatus(w, c);
    if n != w {
      var v := w.db.bookings[w.closes[c].booking].vehicle;
      assert w.db.ActiveOn(w.closes[c].booking, v);
      assert forall u, b :: n.db.ActiveOn(b, u) ==> w.db.ActiveOn(b, u);
      assert forall u, d :: FreedBy(n, u, d) ==> FreedBy(w, u, d) || (d == c && u == v);
      assert forall d :: !FreedBy(w, v, d);
    }
  }

  lemma ReadKeepsInv(w: World, c: nat)
    requires Inv(w)
    ensures Inv(ReadStatus(w, c))
  {
    var n := ReadStatus(w, c);
    assert forall u, b :: n.db.ActiveOn(b, u) == w.db.ActiveOn(b, u);
    assert forall u, d :: FreedBy(n, u, d) ==> FreedBy(w, u, d);
  }

  lemma CompleteKeepsInv(w: World, c: nat)
    requires Inv(w)
    ensures Inv(CompleteStatus(w, c))
  {
    var n := CompleteStatus(w, c);
    assert forall u, b :: n.db.ActiveOn(b, u) ==> w.db.ActiveOn(b, u);
    assert forall u, d :: FreedBy(n, u, d) ==> FreedBy(w, u, d);
  }

  lemma ReleaseKeepsFreeing(w: World, c: nat)
    requires Inv(w)
    ensures FreeingSafe(ReleaseVehicle(w, c))
    ensures forall u, b :: ReleaseVehicle(w, c).db.ActiveOn(b, u) == w.db.ActiveOn(b, u)
  {
    var n := ReleaseVehicle(w, c);
    assert n.db.bookings == w.db.bookings;
    assert forall u, b :: n.db.ActiveOn(b, u) == w.db.ActiveOn(b, u);
    if n != w {
      var v := w.db.bookings[w.closes[c].booking].vehicle;
      assert Cancelling(w.closes[c]) ==> FreedBy(w, v, c);
      assert forall u, d :: FreedBy(n, u, d) ==> FreedBy(w, u, d) && d != c;
    }
  }

  lemma ReleaseKeepsInv(w: World, c: nat)
    requires Inv(w)
    ensures Inv(ReleaseVehicle(w, c))
  {
    ReleaseKeepsFreeing(w, c);
    var n := ReleaseVehicle(w, c);
    if n != w {
      var v := w.db.bookings[w.closes[c].booking].vehicle;
      assert Cancelling(w.closes[c]) ==> FreedBy(w, v, c);
    }
  }

  lemma NextKeepsInv(w: World, step: Step)
    requires Inv(w) && Careful(w, step)
    ensures Inv(Next(w, step))
  {
    match step
    case Commit(t) => CommitKeepsInv(w, t);
    case Check(_) => PatchKeepsInv(w, step);
    case Write(_) => PatchKeepsInv(w, step);
    case Update(c) => UpdateKeepsInv(w, c);
    case ReadPrev(c) => ReadKeepsInv(w, c);
    case Complete(c) => CompleteKeepsInv(w, c);
    case Release(c) => ReleaseKeepsInv(w, c);
    case Lock(t) => LockKeepsInv(w, t);
    case Insert(t) => InsertKeepsInv(w, t);
    case Mark(t) => MarkKeepsInv(w, t);
    case Abort(t) => AbortKeepsInv(w, t);
  }

  lemma {:induction false} RunKeepsInv(w: World, steps: seq<Step>)
    requires Inv(w) && CarefulRun(w, steps)
    ensures Inv(Run(w, steps))
    decreases |steps|
  {
    if steps != [] {
      NextKeepsInv(w, steps[0]);
      RunKeepsInv(Next(w, steps[0]), steps[1..]);
    }
  }

  /** Safety: whatever the interleaving of bookings, staff patches, cancellations and completions, at
      every moment each vehicle has at most one active booking and none while it is on offer. */
  lemma EveryInterleavingIsConsistent(w: World, steps: seq<Step>)
    requires Idle(w) && CarefulRun(w, steps)
    ensures Consistent(Run(w, steps).db)
  {
    RunKeepsInv(w, steps);
  }

  /** No staff patch would put a vehicle on offer. */
  ghost predicate NoneOffers(w: World) {
    forall p | p in w.patches :: w.patches[p].target != AVAILABLE
  }

  /** Bookings against sales need no care: whatever the interleaving of booking requests with staff patches to any
      status but AVAILABLE, forced or not, the state stays consistent. */
  lemma {:induction false} BookingsAgainstSalesAreConsistent(w: World, steps: seq<Step>)
    requires Inv(w) && NoneOffers(w) && forall i | 0 <= i < |steps| :: CreatorStep(steps[i]) || steps[i].Check? || steps[i].Write?
    ensures CarefulRun(w, steps) && Consistent(Run(w, steps).db)
    decreases |steps|
  {
    if steps != [] {
      assert CreatorStep(steps[0]) || steps[0].Check? || steps[0].Write?;
      NextKeepsInv(w, steps[0]);
      NoneStartsToOffer(w, steps[0]);
      BookingsAgainstSalesAreConsistent(Next(w, steps[0]), steps[1..]);
    }
  }

  lemma NoneStartsToOffer(w: World, step: Step)
    requires NoneOffers(w)
    ensures NoneOffers(Next(w, step))
  {
  }

  // ----- the booking race on one vehicle -----

  predicate CreatorStep(step: Step) {
    step.Lock? || step.Insert? || step.Mark? || step.Commit? || step.Abort?
  }

  /** The calls that want the vehicle. */
  function Rivals(w: World, v: nat): set<nat> {
    set t | t in w.txs && w.txs[t].vehicle == v
  }

  /** Nobody has committed and the vehicle is on offer, or exactly one call has and the vehicle is reserved for it. */
  ghost predicate RaceState(w: World, v: nat, winner: Option<nat>) {
    && (forall t | t in Rivals(w, v) && w.txs[t].phase == Committed :: winner == Some(t))
    && (match winner
        case None =>
          w.db.Is(v, AVAILABLE) && forall t | t in Rivals(w, v) :: w.txs[t].phase != Rejected && w.txs[t].phase != Missing
        case Some(t) =>
          && t in Rivals(w, v) && w.txs[t].phase == Committed && w.db.Is(v, RESERVED)
          && t in w.db.bookings && w.db.bookings[t] == Booking(v, PENDING)
          && forall u | u in Rivals(w, v) :: w.txs[u].phase != Missing)
  }

  lemma CommitKeepsRace(w: World, v: nat, winner: Option<nat>, t: nat) returns (winner': Option<nat>)
    requires Inv(w) && RaceState(w, v, winner)
    ensures RaceState(CommitTx(w, t), v, winner')
    ensures Rivals(CommitTx(w, t), v) == Rivals(w, v)
  {
    winner' := winner;
    if t in w.txs && w.txs[t].phase == Marked {
      assert w.db.Is(w.txs[t].vehicle, AVAILABLE);
      if w.txs[t].vehicle == v {
        winner' := Some(t);
      }
    }
  }

  /** A transaction that moves on without committing leaves the race as it was, unless it is turned away too early. */
  lemma MoveKeepsRace(w: World, n: World, v: nat, winner: Option<nat>, t: nat, phase: TxPhase)
    requires RaceState(w, v, winner) && t in w.txs && w.txs[t].phase != Committed && phase != Committed
    requires n.db == w.db && n.txs == w.txs[t := w.txs[t].(phase := phase)]
    requires w.txs[t].vehicle == v ==> phase != Missing && (winner == None ==> phase != Rejected)
    ensures RaceState(n, v, winner) && Rivals(n, v) == Rivals(w, v)
  {
  }

  lemma LockKeepsRace(w: World, v: nat, winner: Option<nat>, t: nat)
    requires RaceState(w, v, winner)
    ensures RaceState(LockVehicle(w, t), v, winner)
    ensures Rivals(LockVehicle(w, t), v) == Rivals(w, v)
  {
    var n := LockVehicle(w, t);
    if n != w {
      MoveKeepsRace(w, n, v, winner, t, n.txs[t].phase);
    }
  }

  lemma InsertKeepsRace(w: World, v: nat, winner: Option<nat>, t: nat)
    requires Inv(w) && RaceState(w, v, winner)
    ensures RaceState(InsertBooking(w, t), v, winner)
    ensures Rivals(InsertBooking(w, t), v) == Rivals(w, v)
  {
    if t in w.txs && w.txs[t].phase == Locked {
      assert w.db.Is(w.txs[t].vehicle, AVAILABLE);
      assert !w.db.HasActive(w.txs[t].vehicle);
      MoveKeepsRace(w, InsertBooking(w, t), v, winner, t, Inserted);
    }
  }

  lemma MarkOrAbortKeepsRace(w: World, v: nat, winner: Option<nat>, step: Step)
    requires RaceState(w, v, winner) && (step.Mark? || step.Abort?)
    ensures RaceState(Next(w, step), v, winner)
    ensures Rivals(Next(w, step), v) == Rivals(w, v)
  {
    var t, n := step.t, Next(w, step);
    if n != w {
      MoveKeepsRace(w, n, v, winner, t, if step.Mark? then Marked else Failed);
    }
  }

  lemma NextKeepsRace(w: World, v: nat, winner: Option<nat>, step: Step) returns (winner': Option<nat>)
    requires Inv(w) && RaceState(w, v, winner) && CreatorStep(step)
    ensures RaceState(Next(w, step), v, winner')
    ensures Rivals(Next(w, step), v) == Rivals(w, v)
  {
    winner' := winner;
    match step
    case Lock(t) => LockKeepsRace(w, v, winner, t);
    case Insert(t) => InsertKeepsRace(w, v, winner, t);
    case Commit(t) => winner' := CommitKeepsRace(w, v, winner, t);
    case Mark(_) => MarkOrAbortKeepsRace(w, v, winner, step);
    case Abort(_) => MarkOrAbortKeepsRace(w, v, winner, step);
  }

  lemma {:induction false} RunKeepsRace(w: World, v: nat, winner: Option<nat>, steps: seq<Step>) returns (winner': Option<nat>)
    requires Inv(w) && RaceState(w, v, winner) && forall s | s in steps :: CreatorStep(s)
    ensures RaceState(Run(w, steps), v, winner')
    ensures Rivals(Run(w, steps), v) == Rivals(w, v)
    decreases |steps|
  {
    winner' := winner;
    if steps != [] {
      assert CreatorStep(steps[0]);
      NextKeepsInv(w, steps[0]);
      winner' := NextKeepsRace(w, v, winner, steps[0]);
      winner' := RunKeepsRace(Next(w, steps[0]), v, winner', steps[1..]);
    }
  }

  /** Any number of createBooking calls race for one free vehicle, their statements interleaved in any
      way with each other and with bookings of other vehicles, any of them dying on the way. When all
      have finished, either exactly one has committed and every other was turned away or died, or all died. */
  lemma ExactlyOneBookingWins(w: World, v: nat, steps: seq<Step>)
    requires Idle(w) && w.db.Is(v, AVAILABLE) && forall s | s in steps :: CreatorStep(s)
    requires forall t | t in Rivals(Run(w, steps), v) :: Run(w, steps).txs[t].phase.Finished()
    ensures
      var e := Run(w, steps);
      && Rivals(e, v) == Rivals(w, v)
      && ((forall t | t in Rivals(e, v) :: e.txs[t].phase == Failed) || OneWinner(e, v))
  {
    var winner := RunKeepsRace(w, v, None, steps);
    if winner.Some? {
      assert WonBy(Run(w, steps), v, winner.value);
    }
  }

  ghost predicate OneWinner(e: World, v: nat) {
    exists t :: WonBy(e, v, t)
  }

  ghost predicate WonBy(e: World, v: nat, t: nat) {
    && t in Rivals(e, v) && e.txs[t].phase == Committed
    && t in e.db.bookings && e.db.bookings[t] == Booking(v, PENDING)
    && forall u | u in Rivals(e, v) && u != t :: e.txs[u].phase in {Rejected, Failed}
  }

  /** A booking whose four statements run without interruption does what the handler does on its own. */
  lemma UninterruptedBookingIsCreated(w: World, t: nat)
    requires t in w.txs && w.txs[t].phase == Waiting && w.txs[t].vehicle !in w.locks
    ensures
      var e := CommitTx(MarkReserved(InsertBooking(LockVehicle(w, t), t), t), t);
      var (db, reply) := Created(w.db, w.txs[t].vehicle, t);
      && e.db == db && e.locks == w.locks
      && e.txs[t].phase == (if reply == Ok then Committed else if reply == NotFound then Missing else Rejected)
  {
    var v := w.txs[t].vehicle;
    var l := LockVehicle(w, t);
    if w.db.Is(v, AVAILABLE) {
      var i := InsertBooking(l, t);
      assert (w.locks[v := t]) - {v} == w.locks;
      if !w.db.HasActive(v) {
        assert i == SetTx(l, t, Inserted);
        assert MarkReserved(i, t) == SetTx(i, t, Marked);
      }
    } else {
      assert InsertBooking(l, t) == l && MarkReserved(l, t) == l && CommitTx(l, t) == l;
    }
  }

  // ----- where care is needed, and what goes wrong without it -----

  /** A staff patch keeps consistency exactly when it does not put a vehicle with an active booking on offer. */
  lemma StaffPatchIsSafeExactlyWhen(w: World, p: nat)
    requires Consistent(w.db) && p in w.patches && w.patches[p].phase == Cleared
    requires w.patches[p].vehicle !in w.locks && w.patches[p].vehicle in w.db.vehicles
    ensures Consistent(WritePatch(w, p).db) <==> (w.patches[p].target == AVAILABLE ==> !w.db.HasActive(w.patches[p].vehicle))
  {
    var n := WritePatch(w, p);
    BookingsFrame(w.(closes := map[]), n.(closes := map[]));
    var v := w.patches[p].vehicle;
    if w.patches[p].target == AVAILABLE && w.db.HasActive(v) {
      var b :| b in w.db.bookings && w.db.ActiveOn(b, v);
      assert n.db.ActiveOn(b, v) && n.db.Is(v, AVAILABLE);
    }
  }

  /** The care a staff patch needs is exact: a cleared UPDATE keeps the invariant of all handlers if and only if it
      does not put on offer a vehicle that has an active booking or is being freed. */
  lemma WriteIsSafeExactlyWhenCareful(w: World, p: nat)
    requires Inv(w) && p in w.patches && w.patches[p].phase == Cleared
    requires w.patches[p].vehicle !in w.locks && w.patches[p].vehicle in w.db.vehicles
    ensures Inv(WritePatch(w, p)) <==> Careful(w, Write(p))
  {
    var n, v := WritePatch(w, p), w.patches[p].vehicle;
    BookingsFrame(w, n);
    if Careful(w, Write(p)) {
      PatchKeepsInv(w, Write(p));
    } else if w.db.HasActive(v) {
      StaffPatchIsSafeExactlyWhen(w, p);
    } else {
      var c :| FreedBy(w, v, c);
      assert FreedBy(n, v, c) && n.db.Is(v, AVAILABLE);
    }
  }

  /** A cancelled booking whose vehicle is still to be freed, while staff put the vehicle on offer by hand. */
  lemma OfferedWhileFreeing(w: World, v: nat, b: nat, c: nat, p: nat)
    requires w.db == Db(map[v := RESERVED], map[b := Booking(v, PENDING)]) && w.locks == map[]
    requires c in w.closes && w.closes[c] == Close(b, CANCELLED, Received)
    requires p in w.patches && w.patches[p] == Patch(v, AVAILABLE, false, Asked)
    ensures
      var cancelled := UpdateStatus(ReadStatus(w, c), c);
      var offered := WritePatch(CheckPatch(cancelled, p), p);
      && BeingFreed(cancelled, v)
      && offered.db == Db(map[v := AVAILABLE], map[b := Booking(v, CANCELLED)]) && offered.locks == map[]
      && offered.txs == w.txs && c in offered.closes && offered.closes[c] == Close(b, CANCELLED, Updated(PENDING))
  {
    var read := ReadStatus(w, c);
    assert read.closes[c] == Close(b, CANCELLED, Read(PENDING));
    var cancelled := UpdateStatus(read, c);
    assert cancelled.closes[c] == Close(b, CANCELLED, Updated(PENDING));
    assert cancelled.db == Db(map[v := RESERVED], map[b := Booking(v, CANCELLED)]);
    assert FreedBy(cancelled, v, c);
  }

  lemma OfferTaken(w: World, v: nat, b: nat, t: nat)
    requires b != t && w.db == Db(map[v := AVAILABLE], map[b := Booking(v, CANCELLED)]) && w.locks == map[]
    requires t in w.txs && w.txs[t] == Tx(v, Waiting)
    ensures
      var taken := CommitTx(MarkReserved(InsertBooking(LockVehicle(w, t), t), t), t);
      && taken.db == Db(map[v := RESERVED], map[b := Booking(v, CANCELLED), t := Booking(v, PENDING)])
      && taken.locks == map[] && taken.closes == w.closes
  {
    assert !w.db.HasActive(v);
    UninterruptedBookingIsCreated(w, t);
  }

  /** What that care is for: a vehicle whose booking has just been cancelled is put on offer by hand and booked again,
      every statement so far consistent; then the cancellation frees it under the new booking. */
  lemma FreeingUnderwayAndPatch(w: World, v: nat, b: nat, t: nat, c: nat, p: nat)
    requires Idle(w) && b != t && w.db == Db(map[v := RESERVED], map[b := Booking(v, PENDING)])
    requires t in w.txs && w.txs[t].vehicle == v
    requires c in w.closes && w.closes[c].booking == b && w.closes[c].target == CANCELLED
    requires p in w.patches && w.patches[p] == Patch(v, AVAILABLE, false, Asked)
    ensures
      var cancelled := UpdateStatus(ReadStatus(w, c), c);
      var offered := WritePatch(CheckPatch(cancelled, p), p);
      var taken := CommitTx(MarkReserved(InsertBooking(LockVehicle(offered, t), t), t), t);
      && BeingFreed(cancelled, v) && Consistent(offered.db) && Consistent(taken.db)
      && !Consistent(ReleaseVehicle(taken, c).db)
  {
    OfferedWhileFreeing(w, v, b, c, p);
    var offered := WritePatch(CheckPatch(UpdateStatus(ReadStatus(w, c), c), p), p);
    OfferTaken(offered, v, b, t);
    FreeTaken(CommitTx(MarkReserved(InsertBooking(LockVehicle(offered, t), t), t), t), v, b, t, c);
  }

  lemma FreeTaken(w: World, v: nat, b: nat, t: nat, c: nat)
    requires b != t && w.locks == map[]
    requires w.db == Db(map[v := RESERVED], map[b := Booking(v, CANCELLED), t := Booking(v, PENDING)])
    requires c in w.closes && w.closes[c] == Close(b, CANCELLED, Updated(PENDING))
    ensures Consistent(w.db) && !Consistent(ReleaseVehicle(w, c).db)
  {
    var e := ReleaseVehicle(w, c);
    assert e.db.ActiveOn(t, v) && e.db.Is(v, AVAILABLE);
  }

  /** patchBooking's UPDATE keeps consistency if and only if the index refuses it, or the booking is active, or it is
      not made active, or its vehicle is not on offer. */
  lemma UpdateIsSafeExactlyWhen(w: World, c: nat)
    requires Consistent(w.db) && c in w.closes && w.closes[c].phase.Read? && w.closes[c].booking in w.db.bookings
    ensures
      var b, target := w.closes[c].booking, w.closes[c].target;
      Consistent(UpdateStatus(w, c).db) <==>
        || IndexClash(w.db, b, target) || w.db.bookings[b].Active()
        || (target != PENDING && target != CONFIRMED) || !w.db.Is(w.db.bookings[b].vehicle, AVAILABLE)
  {
    var n, b, target := UpdateStatus(w, c), w.closes[c].booking, w.closes[c].target;
    var v := w.db.bookings[b].vehicle;
    assert forall o, u | o != b :: n.db.ActiveOn(o, u) == w.db.ActiveOn(o, u);
    assert w.db.bookings[b].Active() <==> w.db.ActiveOn(b, v);
    if !IndexClash(w.db, b, target) && (target == PENDING || target == CONFIRMED) {
      assert n.db.ActiveOn(b, v);
      assert forall u :: n.db.ActiveOn(b, u) ==> u == v;
    } else if !IndexClash(w.db, b, target) {
      assert forall o, u :: n.db.ActiveOn(o, u) ==> w.db.ActiveOn(o, u);
    }
  }

  /** A cancelled booking is confirmed again while its vehicle is back on offer. */
  lemma RevivedBookingIsOnOffer(v: nat, b: nat, c: nat)
    ensures
      var w := World(Db(map[v := AVAILABLE], map[b := Booking(v, CANCELLED)]), map[], map[], map[],
                     map[c := Close(b, CONFIRMED, Received)]);
      Idle(w) && !Consistent(UpdateStatus(ReadStatus(w, c), c).db)
  {
    var w := World(Db(map[v := AVAILABLE], map[b := Booking(v, CANCELLED)]), map[], map[], map[],
                   map[c := Close(b, CONFIRMED, Received)]);
    var r := ReadStatus(w, c);
    assert !IndexClash(r.db, b, CONFIRMED);
    UpdateIsSafeExactlyWhen(r, c);
  }

  /** A forced patch passes the check from any status, so it leaves SOLD by itself. */
  lemma ForcedPatchLeavesSold(w: World, v: nat, p: nat)
    requires Idle(w) && w.db.Is(v, SOLD) && p in w.patches && w.patches[p].vehicle == v
    ensures WritePatch(CheckPatch(w, p), p).db.Is(v, if w.patches[p].force then w.patches[p].target else SOLD)
  {
    assert CheckPatch(w, p).patches[p].phase == (if w.patches[p].force || w.patches[p].target == SOLD then Cleared else Refused);
  }

  /** Freeing a vehicle keeps consistency exactly when no other booking has taken it meanwhile, or it is no longer held. */
  lemma FreeingIsSafeExactlyWhen(w: World, c: nat, v: nat)
    requires Consistent(w.db) && FreedBy(w, v, c) && v !in w.locks
    ensures Consistent(ReleaseVehicle(w, c).db) <==>
            (w.db.HasActive(v) ==> !w.db.Is(v, RESERVED) && !w.db.Is(v, BOOKED))
  {
    var n := ReleaseVehicle(w, c);
    assert forall u, b :: n.db.ActiveOn(b, u) == w.db.ActiveOn(b, u);
    if w.db.HasActive(v) && (w.db.Is(v, RESERVED) || w.db.Is(v, BOOKED)) {
      var b :| b in w.db.bookings && w.db.ActiveOn(b, v);
      assert n.db.ActiveOn(b, v) && n.db.Is(v, AVAILABLE);
    }
  }

  /** Two cancellations of the same booking, both of which read it while it was active. The first
      one frees the vehicle and a new booking takes it .. */
  lemma CancelThenRebook(w: World, v: nat, b: nat, t: nat, c: nat, d: nat)
    requires b != t && c != d
    requires w.db == Db(map[v := RESERVED], map[b := Booking(v, PENDING)]) && w.locks == map[]
    requires w.txs == map[t := Tx(v, Waiting)]
    requires w.closes == map[c := Close(b, CANCELLED, Read(PENDING)), d := Close(b, CANCELLED, Read(PENDING))]
    ensures
      var freed := ReleaseVehicle(UpdateStatus(w, c), c);
      var taken := CommitTx(MarkReserved(InsertBooking(LockVehicle(freed, t), t), t), t);
      && taken.db.vehicles == map[v := RESERVED]
      && taken.db.bookings == map[b := Booking(v, CANCELLED), t := Booking(v, PENDING)]
      && taken.locks == map[] && d in taken.closes && taken.closes[d] == w.closes[d]
  {
    var u := UpdateStatus(w, c);
    assert u.db == Db(map[v := RESERVED], map[b := Booking(v, CANCELLED)]);
    var freed := ReleaseVehicle(u, c);
    assert freed.db == Db(map[v := AVAILABLE], map[b := Booking(v, CANCELLED)]);
    assert freed.txs == w.txs && freed.locks == map[] && freed.closes[d] == w.closes[d];
    assert !freed.db.HasActive(v);
    UninterruptedBookingIsCreated(freed, t);
  }

  /** A reserved vehicle, a waiting booking request, and two cancellation requests for its booking. */
  function TwoCancels(v: nat, b: nat, t: nat, c: nat, d: nat, phase: ClosePhase): World {
    World(Db(map[v := RESERVED], map[b := Booking(v, PENDING)]), map[], map[t := Tx(v, Waiting)], map[],
          map[c := Close(b, CANCELLED, phase), d := Close(b, CANCELLED, phase)])
  }

  lemma BothCancelsRead(v: nat, b: nat, t: nat, c: nat, d: nat)
    requires b != t && c != d
    ensures
      var idle := TwoCancels(v, b, t, c, d, Received);
      Idle(idle) && ReadStatus(ReadStatus(idle, c), d) == TwoCancels(v, b, t, c, d, Read(PENDING))
  {
    var idle := TwoCancels(v, b, t, c, d, Received);
    var one := ReadStatus(idle, c);
    assert one.closes == map[c := Close(b, CANCELLED, Read(PENDING)), d := Close(b, CANCELLED, Received)];
    var two := ReadStatus(one, d);
    assert two.closes == map[c := Close(b, CANCELLED, Read(PENDING)), d := Close(b, CANCELLED, Read(PENDING))];
  }

  /** .. and the second puts the vehicle, booked again, back on offer. */
  lemma DoubleCancelFreesABookedVehicle(v: nat, b: nat, t: nat, c: nat, d: nat)
    requires b != t && c != d
    ensures
      var idle := TwoCancels(v, b, t, c, d, Received);
      var freed := ReleaseVehicle(UpdateStatus(ReadStatus(ReadStatus(idle, c), d), c), c);
      var taken := CommitTx(MarkReserved(InsertBooking(LockVehicle(freed, t), t), t), t);
      var e := ReleaseVehicle(UpdateStatus(taken, d), d);
      Idle(idle) && Consistent(taken.db) && e.db.ActiveOn(t, v) && e.db.Is(v, AVAILABLE) && !Consistent(e.db)
  {
    BothCancelsRead(v, b, t, c, d);
    var read := TwoCancels(v, b, t, c, d, Read(PENDING));
    CancelThenRebook(read, v, b, t, c, d);
    var freed := ReleaseVehicle(UpdateStatus(read, c), c);
    var taken := CommitTx(MarkReserved(InsertBooking(LockVehicle(freed, t), t), t), t);
    SecondCancel(taken, v, b, t, d);
  }

  lemma SecondCancel(w: World, v: nat, b: nat, t: nat, d: nat)
    requires b != t
    requires w.db.vehicles == map[v := RESERVED] && w.locks == map[]
    requires w.db.bookings == map[b := Booking(v, CANCELLED), t := Booking(v, PENDING)]
    requires d in w.closes && w.closes[d] == Close(b, CANCELLED, Read(PENDING))
    ensures
      var e := ReleaseVehicle(UpdateStatus(w, d), d);
      Consistent(w.db) && e.db.ActiveOn(t, v) && e.db.Is(v, AVAILABLE) && !Consistent(e.db)
  {
    var u := UpdateStatus(w, d);
    assert u.db.bookings == w.db.bookings;
    var e := ReleaseVehicle(u, d);
    assert e.db.ActiveOn(t, v) && e.db.Is(v, AVAILABLE);
  }

  // ----- sold and delivered vehicles -----

  predicate Terminal(st: VehicleStatus) {
    st == SOLD || st == DELIVERED
  }

  lemma LockKeepsLocks(w: World, t: nat)
    requires LocksHeld(w)
    ensures LocksHeld(LockVehicle(w, t))
  {
    if t in w.txs && w.txs[t].phase == Waiting && w.db.Is(w.txs[t].vehicle, AVAILABLE) && w.txs[t].vehicle !in w.locks {
      LockTakenKeepsLocks(w, t, w.txs[t].vehicle);
    }
  }

  lemma LockTakenKeepsLocks(w: World, t: nat, v: nat)
    requires LocksHeld(w) && t in w.txs && w.txs[t] == Tx(v, Waiting) && w.db.Is(v, AVAILABLE) && v !in w.locks
    ensures LocksHeld(w.(txs := w.txs[t := Tx(v, Locked)], locks := w.locks[v := t]))
  {
    var n := w.(txs := w.txs[t := Tx(v, Locked)], locks := w.locks[v := t]);
    forall u | u in n.txs && n.txs[u].phase.Holding()
      ensures n.txs[u].vehicle in n.locks && n.locks[n.txs[u].vehicle] == u
    {
      if u != t {
        assert u in w.txs && w.txs[u].phase.Holding();
      }
    }
  }

  lemma InsertKeepsLocks(w: World, t: nat)
    requires LocksHeld(w)
    ensures LocksHeld(InsertBooking(w, t))
  {
  }

  lemma MarkKeepsLocks(w: World, t: nat)
    requires LocksHeld(w)
    ensures LocksHeld(MarkReserved(w, t))
  {
  }

  lemma CommitKeepsLocks(w: World, t: nat)
    requires LocksHeld(w)
    ensures LocksHeld(CommitTx(w, t))
  {
  }

  lemma AbortKeepsLocks(w: World, t: nat)
    requires LocksHeld(w)
    ensures LocksHeld(AbortTx(w, t))
  {
  }

  lemma OtherStepKeepsLocks(w: World, step: Step)
    requires LocksHeld(w) && !step.Lock? && !step.Insert? && !step.Mark? && !step.Commit? && !step.Abort?
    ensures LocksHeld(Next(w, step))
  {
  }

  /** The steps that take a terminal vehicle out of its status: the UPDATE of a patch that was cleared for another
      target, and the completion of a booking of a sold vehicle. */
  predicate Overrules(w: World, step: Step, v: nat) {
    match step
    case Write(p) =>
      && p in w.patches && w.patches[p].phase == Cleared && w.patches[p].vehicle == v
      && !w.db.Is(v, w.patches[p].target)
    case Release(c) =>
      && c in w.closes && w.closes[c].phase == Completing && w.closes[c].booking in w.db.bookings
      && w.db.bookings[w.closes[c].booking].vehicle == v && w.db.Is(v, SOLD)
    case _ => false
  }

  /** In every reachable world, of all statements of all handlers exactly these change a sold or delivered vehicle. */
  lemma TerminalChangesExactlyWhen(w: World, step: Step, v: nat)
    requires LocksHeld(w) && v in w.db.vehicles && Terminal(w.db.vehicles[v])
    ensures v in Next(w, step).db.vehicles
    ensures Next(w, step).db.vehicles[v] != w.db.vehicles[v] <==> Overrules(w, step, v)
  {
  }

  /** Whether the vehicle has the status at every moment of the run. */
  predicate Stays(w: World, steps: seq<Step>, v: nat, st: VehicleStatus)
    decreases |steps|
  {
    w.db.Is(v, st) && (steps == [] || Stays(Next(w, steps[0]), steps[1..], v, st))
  }

  predicate Overruled(w: World, steps: seq<Step>, v: nat)
    decreases |steps|
  {
    steps != [] && (Overrules(w, steps[0], v) || Overruled(Next(w, steps[0]), steps[1..], v))
  }

  /** Over every run: a sold or delivered vehicle keeps its status throughout if and only if no statement of the run
      is one of the two. */
  lemma {:induction false} TerminalStaysExactlyWhen(w: World, steps: seq<Step>, v: nat, st: VehicleStatus)
    requires LocksHeld(w) && w.db.Is(v, st) && Terminal(st)
    ensures Stays(w, steps, v, st) <==> !Overruled(w, steps, v)
    decreases |steps|
  {
    if steps != [] {
      TerminalChangesExactlyWhen(w, steps[0], v);
      if !Overrules(w, steps[0], v) {
        StepKeepsLocks(w, steps[0]);
        TerminalStaysExactlyWhen(Next(w, steps[0]), steps[1..], v, st);
      } else {
        assert !Next(w, steps[0]).db.Is(v, st);
      }
    }
  }

  lemma StepKeepsLocks(w: World, step: Step)
    requires LocksHeld(w)
    ensures LocksHeld(Next(w, step))
  {
    match step
    case Lock(t) => LockKeepsLocks(w, t);
    case Insert(t) => InsertKeepsLocks(w, t);
    case Mark(t) => MarkKeepsLocks(w, t);
    case Commit(t) => CommitKeepsLocks(w, t);
    case Abort(t) => AbortKeepsLocks(w, t);
    case _ => OtherStepKeepsLocks(w, step);
  }

  function StatusOf(w: World, v: nat): Option<VehicleStatus> {
    if v in w.db.vehicles then Some(w.db.vehicles[v]) else None
  }

  /** What those who write a vehicle can see to: nobody else writes it between a patch's check and its UPDATE, no
      patch of it is forced, and no booking of it is completed once it is sold. */
  ghost predicate Orderly(w: World, step: Step, v: nat) {
    && (StatusOf(Next(w, step), v) != StatusOf(w, v) ==>
          forall p | p in Next(w, step).patches && Next(w, step).patches[p].vehicle == v :: Next(w, step).patches[p].phase != Cleared)
    && (step.Check? && step.p in w.patches && w.patches[step.p].vehicle == v ==> !w.patches[step.p].force)
    && (step.Release? ==> !Overrules(w, step, v))
  }

  ghost predicate OrderlyRun(w: World, steps: seq<Step>, v: nat)
    decreases |steps|
  {
    steps == [] || (Orderly(w, steps[0], v) && OrderlyRun(Next(w, steps[0]), steps[1..], v))
  }

  /** Every cleared patch of the vehicle is still one that the table lists. */
  ghost predicate ClearedAreListed(w: World, v: nat) {
    forall p | p in w.patches && w.patches[p].vehicle == v && w.patches[p].phase == Cleared ::
      v in w.db.vehicles && Listed(w.db.vehicles[v], w.patches[p].target)
  }

  lemma OrderlyKeepsListed(w: World, step: Step, v: nat)
    requires ClearedAreListed(w, v) && Orderly(w, step, v)
    ensures ClearedAreListed(Next(w, step), v)
  {
  }

  /** Then the table binds: once sold or delivered, a vehicle stays so over every run. */
  lemma {:induction false} OrderlyKeepsTerminal(w: World, steps: seq<Step>, v: nat, st: VehicleStatus)
    requires LocksHeld(w) && ClearedAreListed(w, v) && OrderlyRun(w, steps, v)
    requires w.db.Is(v, st) && Terminal(st)
    ensures Stays(w, steps, v, st)
    decreases |steps|
  {
    if steps != [] {
      TerminalChangesExactlyWhen(w, steps[0], v);
      assert !Overrules(w, steps[0], v);
      StepKeepsLocks(w, steps[0]);
      OrderlyKeepsListed(w, steps[0], v);
      OrderlyKeepsTerminal(Next(w, steps[0]), steps[1..], v, st);
    }
  }

  /** Two patches that overlap take a vehicle out of SOLD, although no transition leaves it .. */
  lemma OverlappingPatchesLeaveSold(w: World, v: nat, p: nat, q: nat)
    requires Idle(w) && w.db.Is(v, AVAILABLE) && p in w.patches && q in w.patches && p != q
    requires w.patches[p].vehicle == v && w.patches[p].target in {RESERVED, BOOKED}
    requires w.patches[q].vehicle == v && w.patches[q].target == SOLD
    ensures
      var sold := WritePatch(CheckPatch(CheckPatch(w, p), q), q);
      && sold.db.Is(v, SOLD) && w.patches[p].target !in Transitions(SOLD)
      && WritePatch(sold, p).db.Is(v, w.patches[p].target)
  {
    var checked := CheckPatch(CheckPatch(w, p), q);
    assert checked.patches[p].phase == Cleared && checked.patches[q].phase == Cleared;
  }

  /** .. and so does completing the booking of a vehicle that was sold meanwhile, with no overlap at all. */
  lemma CompletionLeavesSold(w: World, v: nat, b: nat, p: nat, c: nat)
    requires Idle(w) && w.db.Is(v, RESERVED) && w.db.ActiveOn(b, v)
    requires p in w.patches && w.patches[p].vehicle == v && w.patches[p].target == SOLD
    requires c in w.closes && w.closes[c].booking == b && w.closes[c].target == COMPLETED
    ensures
      var sold := WritePatch(CheckPatch(w, p), p);
      var e := ReleaseVehicle(CompleteStatus(UpdateStatus(ReadStatus(sold, c), c), c), c);
      sold.db.Is(v, SOLD) && e.db.Is(v, DELIVERED)
  {
    var sold := WritePatch(CheckPatch(w, p), p);
    assert sold.db.Is(v, SOLD) && sold.db.bookings == w.db.bookings && sold.closes == w.closes;
    CompletionDelivers(sold, v, b, c);
  }

  lemma CompletionDelivers(w: World, v: nat, b: nat, c: nat)
    requires v in w.db.vehicles && v !in w.locks && b in w.db.bookings && w.db.bookings[b].vehicle == v
    requires c in w.closes && w.closes[c] == Close(b, COMPLETED, Received)
    ensures ReleaseVehicle(CompleteStatus(UpdateStatus(ReadStatus(w, c), c), c), c).db.Is(v, DELIVERED)
  {
    var updated := UpdateStatus(ReadStatus(w, c), c);
    assert updated.closes[c].phase.Updated? && updated.db.bookings[b].vehicle == v;
    var completing := CompleteStatus(updated, c);
    assert completing.closes[c].phase == Completing && completing.db.bookings[b].vehicle == v;
  }
}
