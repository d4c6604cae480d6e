/** Which conversations can go on for ever. An accepted answer moves the cursor, a flow and a question; a customer can
    be kept answering without end if and only if some answers lead from a cursor back to it. */
module Circuits {
  import opened Wrappers
  import opened Engine
  import opened EngineRuns
  import Text
  import V = Validate

  datatype Cursor = Cursor(flow: Id, question: Id)

  function CursorOf(s: State): Cursor
    requires s.flow.Some? && s.question.Some?
  {
    Cursor(s.flow.value, s.question.value)
  }

  /** Where an accepted answer to question q leads, unless it completes the flow. */
  function Arrives(cfg: Config, float: string -> Option<real>, flow: Id, q: Question, answer: string): Option<Cursor> {
    var r := NextStep(cfg, float, q, answer);
    match Target(cfg, r, flow)
    case None => None
    case Some(id) =>
      if id == q.id || ActiveQuestion(cfg.questions, id).None? then None
      else Some(Cursor(if Switches(r, flow) then r.flow.value else flow, id))
  }

  /** Where a message leads that is accepted and completes nothing; a photo question only completes. */
  function Move(cfg: Config, w: World, c: Cursor, body: string): Option<Cursor> {
    match ActiveQuestion(cfg.questions, c.question)
    case None => None
    case Some(q) =>
      if IsPhotoQuestion(q) then None
      else
        match Check(w, q, body)
        case None => None
        case Some(answer) => Arrives(cfg, w.float, c.flow, q, answer)
  }

  lemma MoveFollows(cfg: Config, w: World, c: Cursor, body: string, q: Question, r: Route, t: Question)
    requires ActiveQuestion(cfg.questions, c.question) == Some(q) && !IsPhotoQuestion(q)
    requires Check(w, q, body).Some? && NextStep(cfg, w.float, q, Check(w, q, body).value) == r
    requires Target(cfg, r, c.flow) == Some(t.id) && t.id != q.id && ActiveQuestion(cfg.questions, t.id) == Some(t)
    ensures Move(cfg, w, c, body) == Some(Cursor(if Switches(r, c.flow) then r.flow.value else c.flow, t.id))
  {
  }

  /** A way from cursor to cursor; the theorems about walks hold for any. */
  type Mover = (Cursor, string) -> Option<Cursor>

  function MoverOf(cfg: Config, w: World): Mover {
    (c: Cursor, body: string) => Move(cfg, w, c, body)
  }

  function Walk(move: Mover, c: Cursor, bodies: seq<string>): Option<Cursor>
    decreases |bodies|
  {
    if bodies == [] then Some(c)
    else
      match move(c, bodies[0])
      case None => None
      case Some(d) => Walk(move, d, bodies[1..])
  }

  lemma WalkFront(move: Mover, c: Cursor, d: Cursor, body: string, rest: seq<string>)
    requires move(c, body) == Some(d)
    ensures Walk(move, c, [body] + rest) == Walk(move, d, rest)
  {
    assert ([body] + rest)[1..] == rest;
  }

  lemma {:induction false} WalkConcat(move: Mover, c: Cursor, a: seq<string>, b: seq<string>)
    ensures
      var d := Walk(move, c, a);
      Walk(move, c, a + b) == if d.None? then None else Walk(move, d.value, b)
    decreases |a|
  {
    if a == [] {
      assert a + b == b;
    } else {
      assert (a + b)[1..] == a[1..] + b;
      var d := move(c, a[0]);
      if d.Some? {
        WalkConcat(move, d.value, a[1..], b);
      }
    }
  }

  lemma WalkOne(move: Mover, c: Cursor, a: seq<string>, body: string)
    requires Walk(move, c, a).Some?
    ensures Walk(move, c, a + [body]) == move(Walk(move, c, a).value, body)
  {
    WalkConcat(move, c, a, [body]);
    assert [body][1..] == [];
  }

  // ---- messages and moves ----

  lemma AdvanceArrives(cfg: Config, w: World, s: State, flow: Id, q: Question, answer: string)
    ensures
      var (t, reply) := Advance(cfg, w, s, flow, q, answer);
      match Arrives(cfg, w.float, flow, q, answer)
      case None => t.question.None?
      case Some(d) => t.flow == Some(d.flow) && t.question == Some(d.question)
  {
  }

  /** At a question other than a photo question, an accepted message moves the cursor by Move, or completes the flow
      exactly when there is no move; the photos wanted stay as they are. */
  lemma AcceptedMessageMoves(cfg: Config, w: World, s: State, body: string)
    requires CounterIsReserved(cfg.questions) && Live(cfg, s) && s.question.Some?
    requires !IsPhotoQuestion(ActiveQuestion(cfg.questions, s.question.value).value)
    ensures
      var (t, reply) := Process(cfg, w, s, body);
      !reply.Rejected? ==>
        match Move(cfg, w, CursorOf(s), body)
        case None => t.question.None?
        case Some(d) => t.flow == Some(d.flow) && t.question == Some(d.question) && PhotosWanted(t.data) == PhotosWanted(s.data)
    ensures
      var (t, reply) := Process(cfg, w, s, body);
      (reply.Rejected? ==> t == s && Move(cfg, w, CursorOf(s), body).None?)
  {
    var flow, q := s.flow.value, ActiveQuestion(cfg.questions, s.question.value).value;
    AnswerLogsOnce(cfg, w, s, flow, q, body);
    if Check(w, q, body).Some? {
      var answer := Check(w, q, body).value;
      RecordKeepsCounter(s, q, answer);
      AdvanceArrives(cfg, w, Record(s, q, answer), flow, q, answer);
      AdvanceKeepsCounter(cfg, w, Record(s, q, answer), flow, q, answer);
    }
  }

  /** At a photo question an accepted message completes the flow, or is one of the photos wanted. */
  lemma PhotoMessageEnds(cfg: Config, w: World, s: State, body: string)
    requires Live(cfg, s) && s.question.Some?
    requires IsPhotoQuestion(ActiveQuestion(cfg.questions, s.question.value).value)
    ensures
      var (t, reply) := Process(cfg, w, s, body);
      && (reply.Rejected? ==> t == s)
      && (!reply.Rejected? ==>
            t.question.None? || (t.question == s.question && t.flow == s.flow && PhotosWanted(t.data) < PhotosWanted(s.data)))
  {
    var flow, q := s.flow.value, ActiveQuestion(cfg.questions, s.question.value).value;
    AnswerLogsOnce(cfg, w, s, flow, q, body);
    if Check(w, q, body).Some? {
      AnotherPhotoIsCounted(cfg, w, s, flow, PhotoMessageOf(body), Check(w, q, body).value);
    }
  }

  lemma PhotoIsTaken(cfg: Config, w: World, s: State, q: Question, body: string)
    requires s.flow.Some? && s.question == Some(q.id) && ActiveQuestion(cfg.questions, q.id) == Some(q)
    requires IsPhotoQuestion(q) && Check(w, q, body).Some? && PhotoMessageOf(body) == Photo
    ensures
      var (t, reply) := Process(cfg, w, s, body);
      && !reply.Rejected? && PhotoCount(t.data) == PhotoCount(s.data) + 1
      && (if PhotoCount(s.data) < 1 then t.flow == s.flow && t.question == s.question else t.question.None?)
  {
    var n, answer := PhotoCount(s.data), Check(w, q, body).value;
    CounterIsKept(cfg, w, s, s.flow.value, n + 1, Text.Itoa(n + 1));
    assert Process(cfg, w, s, body) == PhotoOutcome(cfg, w, s, s.flow.value, Photo, answer);
  }

  /** One more accepted answer in front. */
  lemma DriveOn(cfg: Config, w: World, s: State, t: State, all: seq<string>)
    requires all != [] && s.question.Some? && Process(cfg, w, s, all[0]).0 == t && !Process(cfg, w, s, all[0]).1.Rejected?
    ensures Drive(cfg, w, s, all) == (Drive(cfg, w, t, all[1..]).0, Drive(cfg, w, t, all[1..]).1 + 1)
  {
  }

  /** A walk is driven: all its answers are accepted, and the conversation stands where the walk ends. */
  lemma {:induction false} WalkIsDriven(cfg: Config, w: World, s: State, way: seq<string>)
    requires CounterIsReserved(cfg.questions) && Live(cfg, s) && s.question.Some?
    requires Walk(MoverOf(cfg, w), CursorOf(s), way).Some?
    ensures
      var (t, n) := Drive(cfg, w, s, way);
      && n == |way| && t.flow.Some? && t.question.Some? && Walk(MoverOf(cfg, w), CursorOf(s), way) == Some(CursorOf(t))
      && PhotosWanted(t.data) == PhotosWanted(s.data)
    decreases |way|
  {
    if way != [] {
      AcceptedMessageMoves(cfg, w, s, way[0]);
      StepKeepsLive(cfg, w, s, Says(way[0]));
      WalkIsDriven(cfg, w, Process(cfg, w, s, way[0]).0, way[1..]);
    }
  }

  /** Drive, with any turn in the place of Process. */
  function DriveBy(turn: (State, string) -> (State, Reply), s: State, bodies: seq<string>): (State, nat)
    decreases |bodies|
  {
    if bodies == [] || s.question.None? then (s, 0)
    else
      var (t, reply) := turn(s, bodies[0]);
      var (u, n) := DriveBy(turn, t, bodies[1..]);
      (u, if reply.Rejected? then n else n + 1)
  }

  function TurnOf(cfg: Config, w: World): (State, string) -> (State, Reply) {
    (s: State, body: string) => Process(cfg, w, s, body)
  }

  lemma {:induction false} DriveIsByTurns(cfg: Config, w: World, s: State, bodies: seq<string>)
    ensures Drive(cfg, w, s, bodies) == DriveBy(TurnOf(cfg, w), s, bodies)
    decreases |bodies|
  {
    if bodies != [] && s.question.Some? {
      DriveIsByTurns(cfg, w, Process(cfg, w, s, bodies[0]).0, bodies[1..]);
    }
  }

  lemma {:induction false} TurnsConcat(turn: (State, string) -> (State, Reply), s: State, a: seq<string>, b: seq<string>)
    ensures
      var (t, n) := DriveBy(turn, s, a);
      DriveBy(turn, s, a + b) == (DriveBy(turn, t, b).0, n + DriveBy(turn, t, b).1)
    decreases |a|
  {
    if a == [] {
      assert a + b == b;
    } else if s.question.Some? {
      assert (a + b)[1..] == a[1..] + b && (a + b)[0] == a[0];
      TurnsConcat(turn, turn(s, a[0]).0, a[1..], b);
    }
  }

  lemma TurnsJoin(turn: (State, string) -> (State, Reply), s: State, t: State, n: nat, u: State, m: nat,
                  a: seq<string>, b: seq<string>, all: seq<string>)
    requires DriveBy(turn, s, a) == (t, n) && DriveBy(turn, t, b) == (u, m) && all == a + b
    ensures DriveBy(turn, s, all) == (u, n + m)
  {
    TurnsConcat(turn, s, a, b);
  }

  /** A conversation goes on from where its first messages have left it. */
  lemma DriveConcat(cfg: Config, w: World, s: State, t: State, n: nat, u: State, m: nat,
                    a: seq<string>, b: seq<string>, all: seq<string>)
    requires Drive(cfg, w, s, a) == (t, n) && Drive(cfg, w, t, b) == (u, m) && all == a + b
    ensures Drive(cfg, w, s, all) == (u, n + m)
  {
    var turn := TurnOf(cfg, w);
    assert DriveBy(turn, s, a) == (t, n) by { DriveIsByTurns(cfg, w, s, a); }
    assert DriveBy(turn, t, b) == (u, m) by { DriveIsByTurns(cfg, w, t, b); }
    TurnsJoin(turn, s, t, n, u, m, a, b, all);
    DriveIsByTurns(cfg, w, s, all);
  }

  // ---- a circuit never ends ----

  /** After the answers of way, those of loop lead back to where they start. */
  predicate Circles(move: Mover, start: Cursor, way: seq<string>, loop: seq<string>) {
    loop != [] &&
    match Walk(move, start, way)
    case None => false
    case Some(c) => Walk(move, c, loop) == Some(c)
  }

  ghost predicate HasCircuit(move: Mover, start: Cursor) {
    exists way, loop :: Circles(move, start, way, loop)
  }

  function Times(loop: seq<string>, n: nat): seq<string> {
    if n == 0 then [] else loop + Times(loop, n - 1)
  }

  lemma {:induction false} TimesLength(loop: seq<string>, n: nat)
    ensures |Times(loop, n)| == n * |loop|
  {
    if n > 0 {
      TimesLength(loop, n - 1);
      assert n * |loop| == (n - 1) * |loop| + |loop|;
    }
  }

  lemma {:induction false} LoopRepeats(move: Mover, c: Cursor, loop: seq<string>, n: nat)
    requires Walk(move, c, loop) == Some(c)
    ensures Walk(move, c, Times(loop, n)) == Some(c)
  {
    if n > 0 {
      var rest := Times(loop, n - 1);
      LoopRepeats(move, c, loop, n - 1);
      WalkConcat(move, c, loop, rest);
      assert Times(loop, n) == loop + rest;
    }
  }

  lemma CircuitRepeats(move: Mover, start: Cursor, way: seq<string>, loop: seq<string>, n: nat)
    requires Circles(move, start, way, loop)
    ensures Walk(move, start, way + Times(loop, n)).Some?
  {
    LoopRepeats(move, Walk(move, start, way).value, loop, n);
    WalkConcat(move, start, way, Times(loop, n));
  }

  /** A circuit can be gone round any number of times: every answer is accepted and the flow is never complete. */
  lemma CircuitNeverEnds(cfg: Config, w: World, s: State, way: seq<string>, loop: seq<string>, n: nat)
    requires CounterIsReserved(cfg.questions) && Live(cfg, s) && s.question.Some?
    requires Circles(MoverOf(cfg, w), CursorOf(s), way, loop)
    ensures
      var bodies := way + Times(loop, n);
      var (t, accepted) := Drive(cfg, w, s, bodies);
      |bodies| == |way| + n * |loop| && accepted == |bodies| && t.question.Some?
  {
    var move, bodies := MoverOf(cfg, w), way + Times(loop, n);
    TimesLength(loop, n);
    CircuitRepeats(move, CursorOf(s), way, loop, n);
    WalkIsDriven(cfg, w, s, bodies);
  }

  // ---- without a circuit every walk is short ----

  /** The flows that conditions name. */
  function FlowsNamed(cs: seq<Condition>): set<Id> {
    set i | 0 <= i < |cs| && cs[i].targetFlow.Some? :: cs[i].targetFlow.value
  }

  function ActiveIds(qs: seq<Question>): set<Id> {
    set i | 0 <= i < |qs| && qs[i].isActive :: qs[i].id
  }

  function Pairs(flows: set<Id>, ids: set<Id>): set<Cursor> {
    set f, q | f in flows && q in ids :: Cursor(f, q)
  }

  /** Every cursor that can be reached from one in the given flow. */
  function Cursors(cfg: Config, flow: Id): set<Cursor> {
    Pairs({flow} + FlowsNamed(cfg.conditions), ActiveIds(cfg.questions))
  }

  lemma ActiveIsListed(cfg: Config, id: Id)
    requires ActiveQuestion(cfg.questions, id).Some?
    ensures id in ActiveIds(cfg.questions)
  {
    var q := ActiveQuestion(cfg.questions, id).value;
    var i :| 0 <= i < |cfg.questions| && cfg.questions[i] == q;
  }

  lemma MoveStaysWithin(cfg: Config, w: World, flow: Id, c: Cursor, body: string)
    requires c in Cursors(cfg, flow)
    ensures
      var d := Move(cfg, w, c, body);
      d.Some? ==> d.value in Cursors(cfg, flow)
  {
    var d := Move(cfg, w, c, body);
    if d.Some? {
      ActiveIsListed(cfg, d.value.question);
      var q := ActiveQuestion(cfg.questions, c.question).value;
      var router := Router(cfg.conditions, Applies(w.float, q.id, Check(w, q, body).value));
      if router.Some? && cfg.conditions[router.value].targetFlow.Some? {
        assert cfg.conditions[router.value].targetFlow.value in FlowsNamed(cfg.conditions);
      }
    }
  }

  /** What a walk passes, its start included, as far as a view of its cursors goes: the cursor itself, or its question. */
  function Visited<T>(view: Cursor -> T, move: Mover, start: Cursor, way: seq<string>): set<T>
    decreases |way|
  {
    if way == [] then {view(start)}
    else
      var here := Walk(move, start, way);
      Visited(view, move, start, way[..|way| - 1]) + if here.Some? then {view(here.value)} else {}
  }

  /** After the first answers and after the rest of them, the walk is in the same place as far as the view goes. */
  predicate Again<T(==)>(view: Cursor -> T, move: Mover, start: Cursor, first: seq<string>, rest: seq<string>) {
    && rest != [] && Walk(move, start, first).Some? && Walk(move, start, first + rest).Some?
    && view(Walk(move, start, first).value) == view(Walk(move, start, first + rest).value)
  }

  ghost predicate ComesAgain<T(!new)>(view: Cursor -> T, move: Mover, start: Cursor) {
    exists first, rest :: Again(view, move, start, first, rest)
  }

  lemma {:induction false} VisitedIsReached<T>(view: Cursor -> T, move: Mover, start: Cursor, way: seq<string>, x: T)
    requires x in Visited(view, move, start, way)
    ensures exists i :: 0 <= i <= |way| && Walk(move, start, way[..i]).Some? && view(Walk(move, start, way[..i]).value) == x
    decreases |way|
  {
    if way == [] {
      assert Walk(move, start, way[..0]) == Some(start);
    } else if x in Visited(view, move, start, way[..|way| - 1]) {
      var init := way[..|way| - 1];
      VisitedIsReached(view, move, start, init, x);
      var i :| 0 <= i <= |way| - 1 && Walk(move, start, init[..i]).Some? && view(Walk(move, start, init[..i]).value) == x;
      assert init[..i] == way[..i];
    } else {
      assert way[..|way|] == way;
    }
  }

  lemma PrefixWalks(move: Mover, start: Cursor, way: seq<string>, first: seq<string>, rest: seq<string>)
    requires way == first + rest && Walk(move, start, way).Some?
    ensures Walk(move, start, first).Some?
    ensures Walk(move, Walk(move, start, first).value, rest) == Walk(move, start, way)
  {
    WalkConcat(move, start, first, rest);
  }

  /** Coming to the very cursor again is going round a circuit. */
  lemma AgainIsCircuit(move: Mover, start: Cursor)
    requires ComesAgain((c: Cursor) => c, move, start)
    ensures HasCircuit(move, start)
  {
    var first, rest :| Again((c: Cursor) => c, move, start, first, rest);
    PrefixWalks(move, start, first + rest, first, rest);
    assert Circles(move, start, first, rest);
  }

  lemma RevisitIsAgain<T(!new)>(view: Cursor -> T, move: Mover, start: Cursor, way: seq<string>, n: nat)
    requires n < |way| && Walk(move, start, way).Some?
    requires view(Walk(move, start, way).value) in Visited(view, move, start, way[..n])
    ensures ComesAgain(view, move, start)
  {
    var here, init := view(Walk(move, start, way).value), way[..n];
    VisitedIsReached(view, move, start, init, here);
    var i :| 0 <= i <= n && Walk(move, start, init[..i]).Some? && view(Walk(move, start, init[..i]).value) == here;
    assert init[..i] == way[..i] && way == way[..i] + way[i..];
    assert Again(view, move, start, way[..i], way[i..]);
  }

  lemma {:induction false} WalkStaysWithin(move: Mover, all: set<Cursor>, c: Cursor, way: seq<string>)
    requires c in all && forall d, body :: d in all && move(d, body).Some? ==> move(d, body).value in all
    ensures
      var d := Walk(move, c, way);
      d.Some? ==> d.value in all
    decreases |way|
  {
    if way != [] {
      var d := move(c, way[0]);
      if d.Some? {
        WalkStaysWithin(move, all, d.value, way[1..]);
      }
    }
  }

  /** A walk that comes to no view twice has one view more than it has moves. */
  lemma {:induction false} WalkVisitsNewPlaces<T(!new)>(view: Cursor -> T, move: Mover, start: Cursor, way: seq<string>, all: set<T>)
    requires !ComesAgain(view, move, start)
    requires forall i | 0 <= i <= |way| :: Walk(move, start, way[..i]).Some? && view(Walk(move, start, way[..i]).value) in all
    ensures |Visited(view, move, start, way)| == |way| + 1 && Visited(view, move, start, way) <= all
    decreases |way|
  {
    assert way[..|way|] == way;
    if way == [] {
      assert way[..0] == [];
    } else {
      var n := |way| - 1;
      var init := way[..n];
      forall i | 0 <= i <= n
        ensures init[..i] == way[..i]
      {
      }
      assert init[..n] == init;
      WalkVisitsNewPlaces(view, move, start, init, all);
      if view(Walk(move, start, way).value) in Visited(view, move, start, init) {
        RevisitIsAgain(view, move, start, way, n);
      }
    }
  }

  lemma SubsetIsNoLarger<T>(a: set<T>, b: set<T>)
    requires a <= b
    ensures |a| <= |b|
  {
    assert b == a + (b - a);
  }

  /** So among finitely many views it has fewer moves than there are views. */
  lemma WalkIsShort<T(!new)>(view: Cursor -> T, move: Mover, all: set<Cursor>, views: set<T>, start: Cursor, way: seq<string>)
    requires !ComesAgain(view, move, start) && start in all && Walk(move, start, way).Some?
    requires forall d, body :: d in all && move(d, body).Some? ==> move(d, body).value in all
    requires forall d :: d in all ==> view(d) in views
    ensures |way| < |views|
  {
    forall i | 0 <= i <= |way|
      ensures Walk(move, start, way[..i]).Some? && view(Walk(move, start, way[..i]).value) in views
    {
      assert way == way[..i] + way[i..];
      PrefixWalks(move, start, way, way[..i], way[i..]);
      WalkStaysWithin(move, all, start, way[..i]);
    }
    WalkVisitsNewPlaces(view, move, start, way, views);
    SubsetIsNoLarger(Visited(view, move, start, way), views);
  }

  ghost predicate WalksAreShort(move: Mover, start: Cursor, limit: nat) {
    forall way :: Walk(move, start, way).Some? ==> |way| < limit
  }

  lemma CursorsAreClosed(cfg: Config, w: World, move: Mover, flow: Id)
    requires move == MoverOf(cfg, w)
    ensures forall d, body :: d in Cursors(cfg, flow) && move(d, body).Some? ==> move(d, body).value in Cursors(cfg, flow)
  {
    forall d, body | d in Cursors(cfg, flow) && move(d, body).Some?
      ensures move(d, body).value in Cursors(cfg, flow)
    {
      MoveStaysWithin(cfg, w, flow, d, body);
    }
  }

  lemma WithoutCircuitWalksAreShort(cfg: Config, w: World, start: Cursor)
    requires !HasCircuit(MoverOf(cfg, w), start) && start in Cursors(cfg, start.flow)
    ensures WalksAreShort(MoverOf(cfg, w), start, |Cursors(cfg, start.flow)|)
  {
    var move, all := MoverOf(cfg, w), Cursors(cfg, start.flow);
    CursorsAreClosed(cfg, w, move, start.flow);
    if ComesAgain((c: Cursor) => c, move, start) {
      AgainIsCircuit(move, start);
    }
    forall way | Walk(move, start, way).Some?
      ensures |way| < |all|
    {
      WalkIsShort((c: Cursor) => c, move, all, all, start, way);
    }
  }

  function QuestionOf(): Cursor -> Id {
    (c: Cursor) => c.question
  }

  lemma WithoutRecurrenceWalksAreShort(cfg: Config, w: World, start: Cursor)
    requires !ComesAgain(QuestionOf(), MoverOf(cfg, w), start) && start in Cursors(cfg, start.flow)
    ensures WalksAreShort(MoverOf(cfg, w), start, |ActiveIds(cfg.questions)|)
  {
    var move, all := MoverOf(cfg, w), Cursors(cfg, start.flow);
    CursorsAreClosed(cfg, w, move, start.flow);
    forall way | Walk(move, start, way).Some?
      ensures |way| < |ActiveIds(cfg.questions)|
    {
      WalkIsShort(QuestionOf(), move, all, ActiveIds(cfg.questions), start, way);
    }
  }

  /** A conversation that has walked so far from where it started, where walks are short. */
  ghost predicate Along(cfg: Config, w: World, start: Cursor, limit: nat, way: seq<string>, s: State) {
    && CounterIsReserved(cfg.questions) && WalksAreShort(MoverOf(cfg, w), start, limit)
    && Live(cfg, s) && s.question.Some? && Walk(MoverOf(cfg, w), start, way) == Some(CursorOf(s))
  }

  lemma {:induction false} DriveAlong(cfg: Config, w: World, start: Cursor, limit: nat, way: seq<string>, s: State, bodies: seq<string>)
    requires Along(cfg, w, start, limit, way, s)
    ensures Drive(cfg, w, s, bodies).1 + |way| <= limit + PhotosWanted(s.data)
    decreases |bodies|
  {
    assert |way| < limit;
    if bodies != [] {
      var (t, reply) := Process(cfg, w, s, bodies[0]);
      StepKeepsLive(cfg, w, s, Says(bodies[0]));
      if IsPhotoQuestion(ActiveQuestion(cfg.questions, s.question.value).value) {
        PhotoMessageEnds(cfg, w, s, bodies[0]);
        if t.question.Some? {
          DriveAlong(cfg, w, start, limit, way, t, bodies[1..]);
        }
      } else {
        AcceptedMessageMoves(cfg, w, s, bodies[0]);
        WalkOne(MoverOf(cfg, w), start, way, bodies[0]);
        if reply.Rejected? {
          DriveAlong(cfg, w, start, limit, way, t, bodies[1..]);
        } else if t.question.Some? {
          DriveAlong(cfg, w, start, limit, way + [bodies[0]], t, bodies[1..]);
        }
      }
    }
  }

  lemma StartIsWithin(cfg: Config, s: State)
    requires Live(cfg, s) && s.question.Some?
    ensures CursorOf(s) in Cursors(cfg, s.flow.value)
  {
    ActiveIsListed(cfg, s.question.value);
  }

  /** Without a circuit within reach, whatever is said, no more answers are accepted than there are cursors, plus the
      photos wanted. */
  lemma NoCircuitEnds(cfg: Config, w: World, s: State, bodies: seq<string>)
    requires CounterIsReserved(cfg.questions) && Live(cfg, s) && s.question.Some? && !HasCircuit(MoverOf(cfg, w), CursorOf(s))
    ensures Drive(cfg, w, s, bodies).1 <= |Cursors(cfg, s.flow.value)| + PhotosWanted(s.data)
  {
    StartIsWithin(cfg, s);
    WithoutCircuitWalksAreShort(cfg, w, CursorOf(s));
    DriveAlong(cfg, w, CursorOf(s), |Cursors(cfg, s.flow.value)|, [], s, bodies);
  }

  /** And where no question can recur at all, no more than there are active questions, plus the photos wanted. */
  lemma NoRecurrenceEnds(cfg: Config, w: World, s: State, bodies: seq<string>)
    requires CounterIsReserved(cfg.questions) && Live(cfg, s) && s.question.Some?
    requires !ComesAgain(QuestionOf(), MoverOf(cfg, w), CursorOf(s))
    ensures Drive(cfg, w, s, bodies).1 <= ActiveCount(cfg.questions) + PhotosWanted(s.data)
  {
    StartIsWithin(cfg, s);
    IdsAreCounted(cfg.questions);
    WithoutRecurrenceWalksAreShort(cfg, w, CursorOf(s));
    DriveAlong(cfg, w, CursorOf(s), |ActiveIds(cfg.questions)|, [], s, bodies);
  }

  // ---- exactly when conversations end ----

  ghost predicate AtMost(cfg: Config, w: World, s: State, bound: nat) {
    forall bodies :: Drive(cfg, w, s, bodies).1 <= bound
  }

  lemma CircuitIsUnbounded(cfg: Config, w: World, s: State, way: seq<string>, loop: seq<string>, bound: nat)
    requires CounterIsReserved(cfg.questions) && Live(cfg, s) && s.question.Some?
    requires Circles(MoverOf(cfg, w), CursorOf(s), way, loop)
    ensures !AtMost(cfg, w, s, bound)
  {
    var bodies := way + Times(loop, bound + 1);
    CircuitNeverEnds(cfg, w, s, way, loop, bound + 1);
    LongEnough(bound, |way|, |loop|);
    TooMany(cfg, w, s, bodies, bound);
  }

  lemma TooMany(cfg: Config, w: World, s: State, bodies: seq<string>, bound: nat)
    requires Drive(cfg, w, s, bodies).1 > bound
    ensures !AtMost(cfg, w, s, bound)
  {
  }

  lemma NoCircuitIsBounded(cfg: Config, w: World, s: State)
    requires CounterIsReserved(cfg.questions) && Live(cfg, s) && s.question.Some? && !HasCircuit(MoverOf(cfg, w), CursorOf(s))
    ensures AtMost(cfg, w, s, |Cursors(cfg, s.flow.value)| + PhotosWanted(s.data))
  {
    forall bodies
      ensures Drive(cfg, w, s, bodies).1 <= |Cursors(cfg, s.flow.value)| + PhotosWanted(s.data)
    {
      NoCircuitEnds(cfg, w, s, bodies);
    }
  }

  ghost predicate Bounded(cfg: Config, w: World, s: State) {
    exists bound: nat :: AtMost(cfg, w, s, bound)
  }

  /** A conversation accepts a bounded number of answers, whatever is said, if and only if no circuit is within reach. */
  lemma EndsExactlyWithoutCircuits(cfg: Config, w: World, s: State)
    requires CounterIsReserved(cfg.questions) && Live(cfg, s) && s.question.Some?
    ensures Bounded(cfg, w, s) <==> !HasCircuit(MoverOf(cfg, w), CursorOf(s))
  {
    if HasCircuit(MoverOf(cfg, w), CursorOf(s)) {
      var way, loop :| Circles(MoverOf(cfg, w), CursorOf(s), way, loop);
      forall bound: nat
        ensures !AtMost(cfg, w, s, bound)
      {
        CircuitIsUnbounded(cfg, w, s, way, loop, bound);
      }
    } else {
      NoCircuitIsBounded(cfg, w, s);
    }
  }

  /** So where every way on lowers a depth, no circuit is within reach. */
  lemma MeasuredHasNoCircuit(cfg: Config, depth: Question -> nat, w: World, s: State)
    requires Measured(cfg, depth) && Live(cfg, s) && s.question.Some?
    ensures !HasCircuit(MoverOf(cfg, w), CursorOf(s))
  {
    forall bodies
      ensures Drive(cfg, w, s, bodies).1 <= Left(cfg, depth, s)
    {
      DriveIsBounded(cfg, depth, w, s, bodies);
    }
    assert AtMost(cfg, w, s, Left(cfg, depth, s));
    EndsExactlyWithoutCircuits(cfg, w, s);
  }

  lemma LongEnough(bound: nat, way: nat, loop: nat)
    requires loop > 0
    ensures way + (bound + 1) * loop > bound
  {
    assert (bound + 1) * loop >= bound + 1;
  }

  lemma {:induction false} IdsAreCounted(qs: seq<Question>)
    ensures |ActiveIds(qs)| <= ActiveCount(qs)
  {
    if qs != [] {
      var init, q := qs[..|qs| - 1], qs[|qs| - 1];
      IdsAreCounted(init);
      assert qs == init + [q];
      var more := ActiveIds(init) + {q.id};
      assert ActiveIds(qs) == if q.isActive then more else ActiveIds(init);
    }
  }

  lemma {:induction false} PairsOfOne(flow: Id, ids: set<Id>)
    ensures |Pairs({flow}, ids)| == |ids|
    decreases |ids|
  {
    if ids == {} {
      assert Pairs({flow}, ids) == {};
    } else {
      var q :| q in ids;
      PairsOfOne(flow, ids - {q});
      assert Pairs({flow}, ids) == Pairs({flow}, ids - {q}) + {Cursor(flow, q)};
    }
  }

  lemma {:induction false} PairsAreCounted(flows: set<Id>, ids: set<Id>)
    ensures |Pairs(flows, ids)| == |flows| * |ids|
    decreases |flows|
  {
    if flows == {} {
      assert Pairs(flows, ids) == {};
    } else {
      var f :| f in flows;
      PairsAreCounted(flows - {f}, ids);
      PairsOfOne(f, ids);
      assert Pairs(flows, ids) == Pairs(flows - {f}, ids) + Pairs({f}, ids);
      assert |flows| == |flows - {f}| + 1;
      assert (|flows - {f}| + 1) * |ids| == |flows - {f}| * |ids| + |ids|;
    }
  }

  /** The number of cursors: flows that the start or a condition names, times active questions. */
  lemma CursorsAreCounted(cfg: Config, flow: Id)
    ensures |Cursors(cfg, flow)| == |{flow} + FlowsNamed(cfg.conditions)| * |ActiveIds(cfg.questions)|
    ensures |ActiveIds(cfg.questions)| <= ActiveCount(cfg.questions)
    ensures FlowsNamed(cfg.conditions) <= {flow} ==> |Cursors(cfg, flow)| <= ActiveCount(cfg.questions)
  {
    PairsAreCounted({flow} + FlowsNamed(cfg.conditions), ActiveIds(cfg.questions));
    IdsAreCounted(cfg.questions);
    if FlowsNamed(cfg.conditions) <= {flow} {
      assert {flow} + FlowsNamed(cfg.conditions) == {flow};
      PairsOfOne(flow, ActiveIds(cfg.questions));
    }
  }

  /** Where no condition names another flow, the bound is one answer a question and one photo, and it holds if and only
      if no circuit is within reach. */
  lemma OneFlowEndsExactlyWithoutCircuits(cfg: Config, w: World, s: State)
    requires CounterIsReserved(cfg.questions) && Live(cfg, s) && s.question.Some? && PhotoCount(s.data) >= 0
    requires FlowsNamed(cfg.conditions) <= {s.flow.value}
    ensures AtMost(cfg, w, s, ActiveCount(cfg.questions) + 1) <==> !HasCircuit(MoverOf(cfg, w), CursorOf(s))
  {
    EndsExactlyWithoutCircuits(cfg, w, s);
    CursorsAreCounted(cfg, s.flow.value);
    if !HasCircuit(MoverOf(cfg, w), CursorOf(s)) {
      NoCircuitIsBounded(cfg, w, s);
    }
  }

  // ---- questions that lead to each other ----

  /** Two questions without conditions that point to each other are never left, whatever is said. */
  lemma {:induction false} MutualPointersNeverEnd(cfg: Config, w: World, s: State, bodies: seq<string>, a: Question, b: Question)
    requires ActiveQuestion(cfg.questions, a.id) == Some(a) && ActiveQuestion(cfg.questions, b.id) == Some(b) && a.id != b.id
    requires a.next == Some(b.id) && b.next == Some(a.id) && !IsPhotoQuestion(a) && !IsPhotoQuestion(b)
    requires forall i | 0 <= i < |cfg.conditions| :: cfg.conditions[i].question != a.id && cfg.conditions[i].question != b.id
    requires CounterIsReserved(cfg.questions) && s.flow.Some? && (s.question == Some(a.id) || s.question == Some(b.id))
    ensures
      var t := Drive(cfg, w, s, bodies).0;
      t.question == Some(a.id) || t.question == Some(b.id)
    decreases |bodies|
  {
    if bodies != [] {
      AcceptedMessageMoves(cfg, w, s, bodies[0]);
      StepKeepsLive(cfg, w, s, Says(bodies[0]));
      var here, there := if s.question == Some(a.id) then a else b, if s.question == Some(a.id) then b else a;
      var answer := Check(w, here, bodies[0]);
      if answer.Some? {
        assert Router(cfg.conditions, Applies(w.float, here.id, answer.value)).None?;
        assert Arrives(cfg, w.float, s.flow.value, here, answer.value) == Some(Cursor(s.flow.value, there.id));
      }
      MutualPointersNeverEnd(cfg, w, Process(cfg, w, s, bodies[0]).0, bodies[1..], a, b);
    }
  }

  /** That a question recurs is not enough: a condition that names the flow the customer is already in completes it. */
  function Ring(i: Id): Question
    requires i < 3
  {
    Question(i, if i == 2 then 1 else 0, "f", V.Other, "", [], if i == 0 then Some(1) else if i == 1 then None else Some(0), false, 0, true)
  }

  const RECURRING := Config([Flow(0, "f", true, true, false), Flow(1, "g", false, true, false)],
                            [Ring(0), Ring(1), Ring(2)], [Condition(1, Includes, "", None, Some(1), 0)])

  const STATIONS := [Cursor(0, 0), Cursor(0, 1), Cursor(1, 2), Cursor(1, 0), Cursor(1, 1)]

  lemma RingIsActive(i: Id)
    requires i < 3
    ensures ActiveQuestion(RECURRING.questions, i) == Some(Ring(i))
  {
    assert RECURRING.questions[1..] == [Ring(1), Ring(2)] && [Ring(1), Ring(2)][1..] == [Ring(2)];
    assert ActiveQuestion([Ring(2)], 2) == Some(Ring(2));
    assert i > 0 ==> ActiveQuestion([Ring(1), Ring(2)], i) == Some(Ring(i));
  }

  lemma RingAccepts(w: World, i: Id, body: string)
    requires i < 3
    ensures Check(w, Ring(i), body).Some? && !IsPhotoQuestion(Ring(i))
  {
    assert Ring(i).field != "sell_photos" && Ring(i).field != "photos";
  }

  lemma RingRoutes(float: string -> Option<real>, answer: string)
    ensures NextStep(RECURRING, float, Ring(0), answer) == Route(Some(1), None)
    ensures NextStep(RECURRING, float, Ring(1), answer) == Route(None, Some(1))
    ensures NextStep(RECURRING, float, Ring(2), answer) == Route(Some(0), None)
  {
    var c := RECURRING.conditions[0];
    assert Matches(float, answer, c.operator, c.value);
    assert Applies(float, 1, answer)(c);
  }

  lemma FirstOfSecondFlow()
    ensures FirstQuestion(RECURRING.questions, 1) == Some(Ring(2))
  {
    var least := Least(RECURRING.questions, 1, None);
    assert Eligible(RECURRING.questions[2], 1, None);
    assert least.Some? && least.value == 2;
  }

  lemma StationMoves(w: World, p: nat, body: string)
    requires p < 5
    ensures Move(RECURRING, w, STATIONS[p], body) == if p < 4 then Some(STATIONS[p + 1]) else None
  {
    var i := STATIONS[p].question;
    RingIsActive(0);
    RingIsActive(1);
    RingIsActive(2);
    RingAccepts(w, i, body);
    RingRoutes(w.float, Check(w, Ring(i), body).value);
    FirstOfSecondFlow();
  }

  lemma {:induction false} StationsPass(w: World, s: State, bodies: seq<string>, p: nat)
    requires p < 5 && s.flow.Some? && s.question.Some? && CursorOf(s) == STATIONS[p]
    ensures
      var (t, n) := Drive(RECURRING, w, s, bodies);
      if |bodies| < 5 - p then n == |bodies| && t.question == Some(STATIONS[p + |bodies|].question)
      else n == 5 - p && t.question.None?
    decreases |bodies|
  {
    if bodies != [] {
      var i := STATIONS[p].question;
      RingIsActive(i);
      RingAccepts(w, i, bodies[0]);
      CounterIsFree();
      AcceptedMessageMoves(RECURRING, w, s, bodies[0]);
      AnswerLogsOnce(RECURRING, w, s, s.flow.value, Ring(i), bodies[0]);
      StationMoves(w, p, bodies[0]);
      if p < 4 {
        StationsPass(w, Process(RECURRING, w, s, bodies[0]).0, bodies[1..], p + 1);
      }
    }
  }

  lemma RecurringHasNoCircuit(w: World, s: State)
    requires s.flow == Some(0) && s.question == Some(0)
    ensures !HasCircuit(MoverOf(RECURRING, w), CursorOf(s))
  {
    forall all: seq<string>
      ensures Drive(RECURRING, w, s, all).1 <= 5
    {
      StationsPass(w, s, all, 0);
    }
    assert AtMost(RECURRING, w, s, 5);
    RingIsActive(0);
    CounterIsFree();
    EndsExactlyWithoutCircuits(RECURRING, w, s);
  }

  lemma CounterIsFree()
    ensures CounterIsReserved(RECURRING.questions)
  {
    assert PHOTO_COUNT[0] == 'p';
  }

  lemma ThreeAreActive()
    ensures ActiveCount(RECURRING.questions) == 3
  {
    var qs := RECURRING.questions;
    assert qs[..2] == [Ring(0), Ring(1)] && qs[..2][..1] == [Ring(0)] && qs[..2][..1][..0] == [];
    assert ActiveCount([Ring(0)]) == 1;
    assert ActiveCount([Ring(0), Ring(1)]) == 2;
  }

  /** Three accepted answers lead from the first question back to it, yet no circuit is within reach: any five answers
      complete the flow. With three active questions, five answers are also more than one a question and one photo. */
  lemma RecurringQuestionStillEnds(w: World, s: State, bodies: seq<string>)
    requires s.flow == Some(0) && s.question == Some(0) && |bodies| == 5
    ensures Drive(RECURRING, w, s, bodies[..3]).1 == 3 && Drive(RECURRING, w, s, bodies[..3]).0.question == s.question
    ensures Drive(RECURRING, w, s, bodies).1 == 5 == ActiveCount(RECURRING.questions) + 2
    ensures Drive(RECURRING, w, s, bodies).0.question.None? && !HasCircuit(MoverOf(RECURRING, w), CursorOf(s))
  {
    StationsPass(w, s, bodies[..3], 0);
    StationsPass(w, s, bodies, 0);
    RecurringHasNoCircuit(w, s);
    ThreeAreActive();
  }
}
