/** What the conversation engine keeps over whole conversations. */
module EngineRuns {
  import opened Wrappers
  import opened Engine
  import Text
  import V = Validate

  datatype Event = Says(body: string) | Resets

  function After(cfg: Config, w: World, s: State, e: Event): State {
    match e
    case Says(body) => Process(cfg, w, s, body).0
    case Resets => Reset(cfg, s).0
  }

  function Run(cfg: Config, w: World, s: State, es: seq<Event>): State
    decreases |es|
  {
    if es == [] then s else Run(cfg, w, After(cfg, w, s, es[0]), es[1..])
  }

  // ---- the answer log and its index ----

  function LastLogged(log: seq<Answer>, field: string): Option<string> {
    if log == [] then None
    else if log[|log| - 1].field == field then Some(log[|log| - 1].value)
    else LastLogged(log[..|log| - 1], field)
  }

  /** What the extracted data should hold for a field, given what it held when the log was empty. */
  function Expected(initial: map<string, Value>, log: seq<Answer>, field: string): Option<Value> {
    match LastLogged(log, field)
    case Some(v) => Some(Str(v))
    case None => Lookup(initial, field)
  }

  predicate IsAskable(field: string) {
    field != "" && !IsSystemKey(field)
  }

  ghost predicate Indexed(initial: map<string, Value>, s: State) {
    forall f | IsAskable(f) :: Lookup(s.data, f) == Expected(initial, s.log, f)
  }

  ghost predicate SameFields(d: map<string, Value>, e: map<string, Value>) {
    forall f | IsAskable(f) :: Lookup(d, f) == Lookup(e, f)
  }

  lemma CompleteKeepsFields(cfg: Config, w: World, s: State, flow: Id)
    ensures SameFields(s.data, Complete(cfg, w, s, flow).data)
  {
  }

  lemma PhotosKeepFields(cfg: Config, w: World, s: State, flow: Id, n: int, note: string)
    ensures SameFields(s.data, WithPhotos(s.data, n, note))
    ensures SameFields(s.data, Complete(cfg, w, s.(data := WithPhotos(s.data, n, note)), flow).data)
  {
    CompleteKeepsFields(cfg, w, s.(data := WithPhotos(s.data, n, note)), flow);
  }

  lemma PhotoAnswerKeepsFields(cfg: Config, w: World, s: State, flow: Id, message: PhotoMessage, answer: string)
    ensures
      var t := PhotoOutcome(cfg, w, s, flow, message, answer).0;
      t.log == s.log && SameFields(s.data, t.data)
  {
    var n := PhotoCount(s.data);
    match message
    case Skip => PhotosKeepFields(cfg, w, s, flow, n, "skipped");
    case Done =>
      var m := if n == 0 then 2 else n;
      PhotosKeepFields(cfg, w, s, flow, m, Text.Itoa(m));
    case Photo => PhotosKeepFields(cfg, w, s, flow, n + 1, Text.Itoa(n + 1));
    case Remark => PhotosKeepFields(cfg, w, s, flow, n, answer);
  }

  lemma FollowKeepsFields(cfg: Config, w: World, s: State, flow: Id, q: Question, target: Option<Id>)
    ensures
      var t := Follow(cfg, w, s, flow, q, target).0;
      t.log == s.log && SameFields(s.data, t.data)
  {
    CompleteKeepsFields(cfg, w, s, flow);
  }

  lemma AdvanceKeepsFields(cfg: Config, w: World, s: State, flow: Id, q: Question, answer: string)
    ensures
      var t := Advance(cfg, w, s, flow, q, answer).0;
      t.log == s.log && SameFields(s.data, t.data)
  {
    var r := NextStep(cfg, w.float, q, answer);
    if Switches(r, flow) {
      var e := s.(data := EnterFlow(cfg, s.data, r.flow.value));
      FollowKeepsFields(cfg, w, e, r.flow.value, q, Target(cfg, r, flow));
    } else {
      FollowKeepsFields(cfg, w, s, flow, q, r.question);
    }
  }

  lemma RecordKeepsIndex(initial: map<string, Value>, s: State, q: Question, answer: string)
    requires Indexed(initial, s)
    ensures Indexed(initial, Record(s, q, answer))
  {
    var t := Record(s, q, answer);
    assert t.log[..|t.log| - 1] == s.log;
    forall f | IsAskable(f)
      ensures Lookup(t.data, f) == Expected(initial, t.log, f)
    {
      assert Lookup(s.data, f) == Expected(initial, s.log, f);
    }
  }

  lemma SameFieldsKeepIndex(initial: map<string, Value>, s: State, t: State)
    requires Indexed(initial, s) && t.log == s.log && SameFields(s.data, t.data)
    ensures Indexed(initial, t)
  {
  }

  lemma AnswerKeepsIndex(initial: map<string, Value>, cfg: Config, w: World, s: State, flow: Id, q: Question, body: string)
    requires Indexed(initial, s)
    ensures Indexed(initial, AnswerTo(cfg, w, s, flow, q, body).0)
  {
    var t := AnswerTo(cfg, w, s, flow, q, body).0;
    match Check(w, q, body)
    case None =>
    case Some(answer) =>
      if IsPhotoQuestion(q) {
        PhotoAnswerKeepsFields(cfg, w, s, flow, PhotoMessageOf(body), answer);
        SameFieldsKeepIndex(initial, s, t);
      } else {
        var recorded := Record(s, q, answer);
        RecordKeepsIndex(initial, s, q, answer);
        AdvanceKeepsFields(cfg, w, recorded, flow, q, answer);
        SameFieldsKeepIndex(initial, recorded, t);
      }
  }

  lemma StepKeepsIndex(initial: map<string, Value>, cfg: Config, w: World, s: State, e: Event)
    requires Indexed(initial, s)
    ensures Indexed(initial, After(cfg, w, s, e))
  {
    if e.Says? && CurrentFlow(cfg, s).Some? && s.question.Some? {
      var q := ActiveQuestion(cfg.questions, s.question.value);
      if q.Some? {
        AnswerKeepsIndex(initial, cfg, w, s, CurrentFlow(cfg, s).value, q.value, e.body);
      }
    }
  }

  lemma {:induction false} RunKeepsIndex(initial: map<string, Value>, cfg: Config, w: World, s: State, es: seq<Event>)
    requires Indexed(initial, s)
    ensures Indexed(initial, Run(cfg, w, s, es))
    decreases |es|
  {
    if es != [] {
      StepKeepsIndex(initial, cfg, w, s, es[0]);
      RunKeepsIndex(initial, cfg, w, After(cfg, w, s, es[0]), es[1..]);
    }
  }

  /** Whatever is said, the extracted data of every field but the engine's own keys is the last answer logged for it,
      and what it was before where nothing was logged. */
  lemma IndexAgreesWithLog(cfg: Config, w: World, s: State, es: seq<Event>)
    requires s.log == []
    ensures
      var t := Run(cfg, w, s, es);
      forall f | IsAskable(f) :: Lookup(t.data, f) == Expected(s.data, t.log, f)
  {
    RunKeepsIndex(s.data, cfg, w, s, es);
  }

  // ---- one message, at most one answer ----

  /** A message adds no answer or the one to the question at the cursor; one that is rejected adds nothing and
      changes nothing but an unset flow. */
  lemma OneMessageOneAnswer(cfg: Config, w: World, s: State, body: string)
    ensures
      var (t, reply) := Process(cfg, w, s, body);
      && (t.log == s.log ||
          exists q: Question, answer :: s.question == Some(q.id) && Check(w, q, body) == Some(answer)
                                     && t.log == s.log + [Answer(q.id, q.field, answer)])
      && (reply.Rejected? ==> t == s.(flow := t.flow) && (s.flow.Some? ==> t == s))
  {
    if CurrentFlow(cfg, s).Some? && s.question.Some? && ActiveQuestion(cfg.questions, s.question.value).Some? {
      var flow, q := CurrentFlow(cfg, s).value, ActiveQuestion(cfg.questions, s.question.value).value;
      AnswerLogsOnce(cfg, w, s, flow, q, body);
      if Check(w, q, body).Some? && !IsPhotoQuestion(q) {
        var answer := Check(w, q, body).value;
        assert s.question == Some(q.id) && Process(cfg, w, s, body).0.log == s.log + [Answer(q.id, q.field, answer)];
      }
    }
  }

  lemma AnswerLogsOnce(cfg: Config, w: World, s: State, flow: Id, q: Question, body: string)
    ensures
      var (t, reply) := AnswerTo(cfg, w, s, flow, q, body);
      && t.log == (match Check(w, q, body)
                   case Some(answer) => if IsPhotoQuestion(q) then s.log else s.log + [Answer(q.id, q.field, answer)]
                   case None => s.log)
      && (reply.Rejected? <==> Check(w, q, body).None?)
      && (reply.Rejected? ==> t == s.(flow := Some(flow)))
  {
    match Check(w, q, body)
    case None =>
    case Some(answer) =>
      if IsPhotoQuestion(q) {
        PhotoAnswerKeepsFields(cfg, w, s, flow, PhotoMessageOf(body), answer);
      } else {
        AdvanceKeepsFields(cfg, w, Record(s, q, answer), flow, q, answer);
      }
  }

  /** One message never moves on by more than one question: moving from question to question logs exactly one answer,
      to the question left behind, and arrives at an active one. */
  lemma OneMessageOneQuestion(cfg: Config, w: World, s: State, body: string)
    requires s.flow.Some? && s.question.Some? && ActiveQuestion(cfg.questions, s.question.value).Some?
    ensures
      var (t, reply) := Process(cfg, w, s, body);
      var q := ActiveQuestion(cfg.questions, s.question.value).value;
      && (t.question == s.question <==> reply.Rejected? || reply.AnotherPhoto?)
      && (t.question.None? <==> reply.Completed?)
      && (t.question.Some? && t.question != s.question ==>
            && reply == Ask(t.question.value) && ActiveQuestion(cfg.questions, t.question.value).Some?
            && Check(w, q, body).Some? && t.log == s.log + [Answer(q.id, q.field, Check(w, q, body).value)])
  {
    var flow, q := s.flow.value, ActiveQuestion(cfg.questions, s.question.value).value;
    AnswerLogsOnce(cfg, w, s, flow, q, body);
    AnswerMovesOnce(cfg, w, s, flow, q, body);
  }

  /** Whether a reply tells truly where the cursor went, from question q. */
  ghost predicate Moved(cfg: Config, q: Question, t: State, reply: Reply) {
    && (t.question == Some(q.id) <==> reply.Rejected? || reply.AnotherPhoto?)
    && (t.question.None? <==> reply.Completed?)
    && (t.question.Some? && t.question != Some(q.id) ==>
          reply == Ask(t.question.value) && ActiveQuestion(cfg.questions, t.question.value).Some?)
  }

  lemma PhotoAnswerMoves(cfg: Config, w: World, s: State, flow: Id, q: Question, message: PhotoMessage, answer: string)
    requires s.question == Some(q.id)
    ensures
      var (t, reply) := PhotoOutcome(cfg, w, s, flow, message, answer);
      Moved(cfg, q, t, reply) && !reply.Ask?
  {
  }

  lemma AdvanceMoves(cfg: Config, w: World, s: State, flow: Id, q: Question, answer: string)
    requires s.question == Some(q.id)
    ensures
      var (t, reply) := Advance(cfg, w, s, flow, q, answer);
      Moved(cfg, q, t, reply)
  {
  }

  lemma AnswerMovesOnce(cfg: Config, w: World, s: State, flow: Id, q: Question, body: string)
    requires s.question == Some(q.id)
    ensures
      var (t, reply) := AnswerTo(cfg, w, s, flow, q, body);
      Moved(cfg, q, t, reply) && (reply.Ask? ==> !IsPhotoQuestion(q))
  {
    match Check(w, q, body)
    case None =>
    case Some(answer) =>
      PhotoAnswerMoves(cfg, w, s, flow, q, PhotoMessageOf(body), answer);
      AdvanceMoves(cfg, w, Record(s, q, answer), flow, q, answer);
  }

  // ---- the cursor ----

  /** The cursor is unset or stands at an active question in a flow. */
  ghost predicate Live(cfg: Config, s: State) {
    s.question.Some? ==> s.flow.Some? && ActiveQuestion(cfg.questions, s.question.value).Some?
  }

  lemma AskFirstIsLive(cfg: Config, s: State, flow: Id)
    requires s.question.None?
    ensures Live(cfg, AskFirst(cfg, s, flow).0)
  {
    var first := Least(cfg.questions, flow, None);
    if first.Some? {
      assert Eligible(cfg.questions[first.value], flow, None);
    }
  }

  lemma AnswerKeepsLive(cfg: Config, w: World, s: State, flow: Id, q: Question, body: string)
    requires Live(cfg, s) && s.question == Some(q.id)
    ensures Live(cfg, AnswerTo(cfg, w, s, flow, q, body).0)
  {
    AnswerMovesOnce(cfg, w, s, flow, q, body);
    FlowIsSet(cfg, w, s, flow, q, body);
  }

  lemma FlowIsSet(cfg: Config, w: World, s: State, flow: Id, q: Question, body: string)
    ensures
      var t := AnswerTo(cfg, w, s, flow, q, body).0;
      t.question.Some? ==> t.flow.Some?
  {
    match Check(w, q, body)
    case None =>
    case Some(answer) =>
      PhotoFlowIsSet(cfg, w, s, flow, PhotoMessageOf(body), answer);
      AdvanceFlowIsSet(cfg, w, Record(s, q, answer), flow, q, answer);
  }

  lemma PhotoFlowIsSet(cfg: Config, w: World, s: State, flow: Id, message: PhotoMessage, answer: string)
    ensures
      var t := PhotoOutcome(cfg, w, s, flow, message, answer).0;
      t.question.Some? ==> t.flow.Some?
  {
  }

  lemma AdvanceFlowIsSet(cfg: Config, w: World, s: State, flow: Id, q: Question, answer: string)
    ensures
      var t := Advance(cfg, w, s, flow, q, answer).0;
      t.question.Some? ==> t.flow.Some?
  {
  }

  lemma StepKeepsLive(cfg: Config, w: World, s: State, e: Event)
    requires Live(cfg, s)
    ensures Live(cfg, After(cfg, w, s, e))
  {
    match e
    case Resets =>
      if EntryFlow(cfg.flows).Some? {
        AskFirstIsLive(cfg, s.(question := None), EntryFlow(cfg.flows).value);
      }
    case Says(body) =>
      var flow := CurrentFlow(cfg, s);
      if flow.Some? {
        if s.question.None? {
          AskFirstIsLive(cfg, s, flow.value);
        } else {
          AnswerKeepsLive(cfg, w, s, flow.value, ActiveQuestion(cfg.questions, s.question.value).value, body);
        }
      }
  }

  // ---- what is recorded ----

  /** An answer of an active question, under its field, of the question's type and within its rule. */
  ghost predicate AnswerIsTyped(cfg: Config, a: Answer) {
    match ActiveQuestion(cfg.questions, a.question)
    case None => false
    case Some(q) => a.field == q.field && V.WellTyped(a.value, q.kind, q.rule, q.allowed, q.required)
  }

  ghost predicate LogIsTyped(cfg: Config, log: seq<Answer>) {
    forall i | 0 <= i < |log| :: AnswerIsTyped(cfg, log[i])
  }

  lemma StepKeepsTypes(cfg: Config, w: World, s: State, e: Event)
    requires LogIsTyped(cfg, s.log)
    ensures LogIsTyped(cfg, After(cfg, w, s, e).log)
  {
    if e.Says? && CurrentFlow(cfg, s).Some? && s.question.Some? {
      var found := ActiveQuestion(cfg.questions, s.question.value);
      if found.Some? {
        var q := found.value;
        AnswerLogsOnce(cfg, w, s, CurrentFlow(cfg, s).value, q, e.body);
        if Check(w, q, e.body).Some? && !IsPhotoQuestion(q) {
          V.RecordedAnswersAreWellTyped(w.readers, e.body, q.kind, q.rule, q.allowed, q.required);
          assert AnswerIsTyped(cfg, Answer(q.id, q.field, Check(w, q, e.body).value));
        }
      }
    }
  }

  /** From a fresh conversation, whatever is said: the cursor never rests on a missing question, and every answer in
      the log fits the question it was recorded for. */
  lemma {:induction false} CursorIsLiveAndLogIsTyped(cfg: Config, w: World, s: State, es: seq<Event>)
    requires Live(cfg, s) && LogIsTyped(cfg, s.log)
    ensures Live(cfg, Run(cfg, w, s, es)) && LogIsTyped(cfg, Run(cfg, w, s, es).log)
    decreases |es|
  {
    if es != [] {
      StepKeepsLive(cfg, w, s, es[0]);
      StepKeepsTypes(cfg, w, s, es[0]);
      CursorIsLiveAndLogIsTyped(cfg, w, After(cfg, w, s, es[0]), es[1..]);
    }
  }

  // ---- photos ----

  /** A photo raises the counter by one, "done" without photos counts two, and the note agrees with the counter:
      reading it back as a number gives the count. */
  lemma PhotosAreCounted(cfg: Config, w: World, s: State, flow: Id, message: PhotoMessage, answer: string)
    requires -Text.INT64_MAX <= PhotoCount(s.data) < Text.INT64_MAX
    ensures
      var t := PhotoOutcome(cfg, w, s, flow, message, answer).0;
      var n := PhotoCount(s.data);
      && PhotoCount(t.data) == (if message == Photo then n + 1 else if message == Done && n == 0 then 2 else n)
      && (message == Photo || message == Done ==> GetNumber(t.data, SELL_PHOTOS) == Some(PhotoCount(t.data)))
  {
    var n := PhotoCount(s.data);
    match message
    case Photo => NoteReadsBack(cfg, w, s, flow, n + 1);
    case Done => NoteReadsBack(cfg, w, s, flow, if n == 0 then 2 else n);
    case Skip => CounterIsKept(cfg, w, s, flow, n, "skipped");
    case Remark => CounterIsKept(cfg, w, s, flow, n, answer);
  }

  lemma CounterIsKept(cfg: Config, w: World, s: State, flow: Id, n: int, note: string)
    ensures PhotoCount(WithPhotos(s.data, n, note)) == n
    ensures
      var after := Complete(cfg, w, s.(data := WithPhotos(s.data, n, note)), flow).data;
      PhotoCount(after) == n && Lookup(after, SELL_PHOTOS) == Some(Str(note))
  {
  }

  lemma NoteReadsBack(cfg: Config, w: World, s: State, flow: Id, n: Text.int64)
    ensures PhotoCount(WithPhotos(s.data, n, Text.Itoa(n))) == n
    ensures GetNumber(WithPhotos(s.data, n, Text.Itoa(n)), SELL_PHOTOS) == Some(n)
    ensures
      var after := Complete(cfg, w, s.(data := WithPhotos(s.data, n, Text.Itoa(n))), flow).data;
      PhotoCount(after) == n && GetNumber(after, SELL_PHOTOS) == Some(n)
  {
    CounterIsKept(cfg, w, s, flow, n, Text.Itoa(n));
    Text.ItoaChars(n);
    Text.ParseItoa(n);
  }

  // ---- starting over ----

  lemma ResetIsAFirstMessage(cfg: Config, w: World, s: State, body: string)
    ensures Reset(cfg, s) == Process(cfg, w, s.(flow := None, question := None), body)
    ensures Reset(cfg, s).0.data == s.data && Reset(cfg, s).0.log == s.log
  {
  }

  /** After a reset every conversation goes on as if the customer had just said something for the first time, with all
      that was recorded kept. */
  lemma ResetIsAFreshStart(cfg: Config, w: World, s: State, body: string, es: seq<Event>)
    ensures Run(cfg, w, s, [Resets] + es) == Run(cfg, w, State(None, None, s.data, s.log), [Says(body)] + es)
  {
    var once := s.(flow := None, question := None);
    assert ([Resets] + es)[1..] == es && ([Says(body)] + es)[1..] == es;
    ResetIsAFirstMessage(cfg, w, s, body);
    assert After(cfg, w, s, Resets) == After(cfg, w, once, Says(body));
  }

  // ---- flows end ----

  /** Lexicographic: a flow of higher rank, or the same rank and a larger order index. */
  predicate Before(rank: Id -> int, a: Question, b: Question) {
    rank(a.flow) < rank(b.flow) || (rank(a.flow) == rank(b.flow) && a.order < b.order)
  }

  predicate ConditionLeads(c: Condition, a: Question, b: Question) {
    c.question == a.id && (c.targetQuestion == Some(b.id) || (c.targetQuestion.None? && c.targetFlow == Some(b.flow)))
  }

  /** A pointer may lead onward, or to its own question, where the engine cuts it. */
  predicate Onward(rank: Id -> int, a: Question, b: Question) {
    a.id == b.id || Before(rank, a, b)
  }

  /** Explicit pointers and condition targets lead onward; the order-index fallback needs no assumption. */
  ghost predicate Forward(cfg: Config, rank: Id -> int) {
    && (forall a, b | a in cfg.questions && b in cfg.questions && a.isActive && b.isActive && a.next == Some(b.id) :: Onward(rank, a, b))
    && (forall a, b, c | a in cfg.questions && b in cfg.questions && c in cfg.conditions && a.isActive && b.isActive && ConditionLeads(c, a, b) ::
          Onward(rank, a, b))
  }

  ghost predicate UniqueIds(qs: seq<Question>) {
    forall a, b | a in qs && b in qs && a.id == b.id :: a == b
  }

  /** No question is asked for the engine's own photo counter. */
  ghost predicate CounterIsReserved(qs: seq<Question>) {
    forall q | q in qs :: q.field != PHOTO_COUNT
  }

  ghost predicate Ordered(cfg: Config, rank: Id -> int) {
    Forward(cfg, rank) && UniqueIds(cfg.questions) && CounterIsReserved(cfg.questions)
  }

  /** A number that every way on from an active question lowers: its pointer, a condition, and the fallback to a larger
      order index in the same flow. A pointer to the question itself, where the engine cuts it, is allowed. */
  ghost predicate Descending(cfg: Config, depth: Question -> nat) {
    && (forall a | a in cfg.questions && a.isActive :: depth(a) > 0)
    && (forall a, b | a in cfg.questions && b in cfg.questions && a.isActive && b.isActive && a.next == Some(b.id) ::
          a.id == b.id || depth(b) < depth(a))
    && (forall a, b | a in cfg.questions && b in cfg.questions && a.isActive && b.isActive && a.flow == b.flow && a.order < b.order ::
          depth(b) < depth(a))
    && (forall a, b, c | a in cfg.questions && b in cfg.questions && c in cfg.conditions && a.isActive && b.isActive && ConditionLeads(c, a, b) ::
          a.id == b.id || depth(b) < depth(a))
  }

  /** Where pointers and conditions lower it, so does every route. */
  lemma RouteDescends(cfg: Config, depth: Question -> nat, float: string -> Option<real>, flow: Id, q: Question, answer: string, t: Question)
    requires Descending(cfg, depth) && UniqueIds(cfg.questions) && q in cfg.questions && t in cfg.questions && q.isActive && t.isActive
    requires Target(cfg, NextStep(cfg, float, q, answer), flow) == Some(t.id)
    ensures q.id == t.id || depth(t) < depth(q)
  {
    var router := Router(cfg.conditions, Applies(float, q.id, answer));
    if router.Some? {
      var c := cfg.conditions[router.value];
      if c.targetQuestion.None? {
        assert cfg.questions[Least(cfg.questions, c.targetFlow.value, None).value] == t;
      }
      assert ConditionLeads(c, q, t);
    } else if q.next.None? {
      assert cfg.questions[Least(cfg.questions, q.flow, Some(q.order)).value] == t;
    }
  }

  /** The active questions that do not come before q. */
  function Ahead(qs: seq<Question>, rank: Id -> int, q: Question): nat {
    if qs == [] then 0
    else Ahead(qs[..|qs| - 1], rank, q) + if qs[|qs| - 1].isActive && !Before(rank, qs[|qs| - 1], q) then 1 else 0
  }

  function ActiveCount(qs: seq<Question>): nat {
    if qs == [] then 0 else ActiveCount(qs[..|qs| - 1]) + if qs[|qs| - 1].isActive then 1 else 0
  }

  lemma {:induction false} AheadIsBounded(qs: seq<Question>, rank: Id -> int, q: Question)
    ensures Ahead(qs, rank, q) <= ActiveCount(qs)
  {
    if qs != [] {
      AheadIsBounded(qs[..|qs| - 1], rank, q);
    }
  }

  lemma {:induction false} AheadDrops(qs: seq<Question>, rank: Id -> int, q: Question, t: Question)
    requires Before(rank, q, t) && q.isActive
    ensures Ahead(qs, rank, t) + (if q in qs then 1 else 0) <= Ahead(qs, rank, q)
  {
    if qs != [] {
      var init, u := qs[..|qs| - 1], qs[|qs| - 1];
      AheadDrops(init, rank, q, t);
      assert qs == init + [u];
      assert Before(rank, u, q) ==> Before(rank, u, t);
    }
  }

  /** Photo replies that would still be met with a request for another photo. */
  function PhotosWanted(data: map<string, Value>): nat {
    if PhotoCount(data) < 1 then 1 - PhotoCount(data) else 0
  }

  /** How many more accepted answers the conversation can take. */
  function Left(cfg: Config, depth: Question -> nat, s: State): nat {
    if s.question.None? then 0
    else
      match ActiveQuestion(cfg.questions, s.question.value)
      case None => 0
      case Some(q) => depth(q) + PhotosWanted(s.data)
  }

  lemma AnotherPhotoIsCounted(cfg: Config, w: World, s: State, flow: Id, message: PhotoMessage, answer: string)
    ensures
      var (t, reply) := PhotoOutcome(cfg, w, s, flow, message, answer);
      t.question.None? || (t.question == s.question && PhotosWanted(t.data) < PhotosWanted(s.data))
  {
  }

  lemma RecordKeepsCounter(s: State, q: Question, answer: string)
    requires q.field != PHOTO_COUNT
    ensures PhotosWanted(Record(s, q, answer).data) == PhotosWanted(s.data)
  {
    assert Lookup(Record(s, q, answer).data, PHOTO_COUNT) == Lookup(s.data, PHOTO_COUNT);
  }

  lemma AdvanceKeepsCounter(cfg: Config, w: World, s: State, flow: Id, q: Question, answer: string)
    ensures
      var t := Advance(cfg, w, s, flow, q, answer).0;
      t.question.Some? ==> Lookup(t.data, PHOTO_COUNT) == Lookup(s.data, PHOTO_COUNT)
  {
  }

  lemma AdvanceDescends(cfg: Config, depth: Question -> nat, w: World, s: State, flow: Id, q: Question, answer: string)
    requires Descending(cfg, depth) && UniqueIds(cfg.questions) && q in cfg.questions && q.isActive
    ensures
      var t := Advance(cfg, w, s, flow, q, answer).0;
      t.question.Some? ==>
        var found := ActiveQuestion(cfg.questions, t.question.value);
        found.Some? && found.value.id != q.id && depth(found.value) < depth(q)
  {
    var target := Target(cfg, NextStep(cfg, w.float, q, answer), flow);
    if target.Some? {
      var found := ActiveQuestion(cfg.questions, target.value);
      if found.Some? {
        RouteDescends(cfg, depth, w.float, flow, q, answer, found.value);
      }
    }
  }

  /** Questions whose ids are keys, none of them asked for the engine's own photo counter, and a depth. */
  ghost predicate Measured(cfg: Config, depth: Question -> nat) {
    Descending(cfg, depth) && UniqueIds(cfg.questions) && CounterIsReserved(cfg.questions)
  }

  /** An accepted answer ends the flow or leaves fewer to give. */
  lemma AcceptedAnswerIsProgress(cfg: Config, depth: Question -> nat, w: World, s: State, body: string)
    requires Measured(cfg, depth) && Live(cfg, s) && s.question.Some?
    ensures
      var (t, reply) := Process(cfg, w, s, body);
      && (reply.Rejected? ==> t == s)
      && (!reply.Rejected? ==> t.question.None? || Left(cfg, depth, t) < Left(cfg, depth, s))
  {
    var flow, q := s.flow.value, ActiveQuestion(cfg.questions, s.question.value).value;
    AnswerLogsOnce(cfg, w, s, flow, q, body);
    if Check(w, q, body).Some? {
      var answer := Check(w, q, body).value;
      if IsPhotoQuestion(q) {
        AnotherPhotoIsCounted(cfg, w, s, flow, PhotoMessageOf(body), answer);
      } else {
        RecordKeepsCounter(s, q, answer);
        AdvanceKeepsCounter(cfg, w, Record(s, q, answer), flow, q, answer);
        AdvanceDescends(cfg, depth, w, Record(s, q, answer), flow, q, answer);
      }
    }
  }

  /** A conversation until its flow is complete: its last state and how many messages were accepted. */
  function Drive(cfg: Config, w: World, s: State, bodies: seq<string>): (State, nat)
    decreases |bodies|
  {
    if bodies == [] || s.question.None? then (s, 0)
    else
      var (t, reply) := Process(cfg, w, s, bodies[0]);
      var (u, n) := Drive(cfg, w, t, bodies[1..]);
      (u, if reply.Rejected? then n else n + 1)
  }

  /** From any question, whatever is said, no more answers are accepted than its depth and the photos wanted, and the
      flow is complete with the last of them. */
  lemma {:induction false} DriveIsBounded(cfg: Config, depth: Question -> nat, w: World, s: State, bodies: seq<string>)
    requires Measured(cfg, depth) && Live(cfg, s)
    ensures
      var (t, n) := Drive(cfg, w, s, bodies);
      n <= Left(cfg, depth, s) && (t.question.Some? ==> n < Left(cfg, depth, s))
    decreases |bodies|
  {
    if s.question.Some? && bodies != [] {
      AcceptedAnswerIsProgress(cfg, depth, w, s, bodies[0]);
      StepKeepsLive(cfg, w, s, Says(bodies[0]));
      DriveIsBounded(cfg, depth, w, Process(cfg, w, s, bodies[0]).0, bodies[1..]);
    }
  }

  lemma {:induction false} CountedSelf(qs: seq<Question>, rank: Id -> int, q: Question)
    requires q in qs && q.isActive
    ensures Ahead(qs, rank, q) > 0
  {
    var init := qs[..|qs| - 1];
    assert qs == init + [qs[|qs| - 1]];
    if q in init {
      CountedSelf(init, rank, q);
    }
  }

  /** Where pointers and conditions lead onward, counting the questions ahead is such a depth. */
  lemma OrderedIsMeasured(cfg: Config, rank: Id -> int)
    requires Ordered(cfg, rank)
    ensures Measured(cfg, q => Ahead(cfg.questions, rank, q))
  {
    forall a | a in cfg.questions && a.isActive
      ensures Ahead(cfg.questions, rank, a) > 0
    {
      CountedSelf(cfg.questions, rank, a);
    }
    forall a, b | a in cfg.questions && b in cfg.questions && a.isActive && b.isActive && Before(rank, a, b)
      ensures Ahead(cfg.questions, rank, b) < Ahead(cfg.questions, rank, a)
    {
      AheadDrops(cfg.questions, rank, a, b);
    }
  }

  /** Where pointers lead onward, every flow is complete once as many answers have been accepted as there are active
      questions, plus one for a first photo, however often answers are rejected in between. */
  lemma FlowsEnd(cfg: Config, rank: Id -> int, w: World, s: State, bodies: seq<string>)
    requires Ordered(cfg, rank) && Live(cfg, s) && PhotoCount(s.data) >= 0
    ensures
      var (t, n) := Drive(cfg, w, s, bodies);
      n <= ActiveCount(cfg.questions) + 1 && (n == ActiveCount(cfg.questions) + 1 ==> t.question.None?)
  {
    OrderedIsMeasured(cfg, rank);
    DriveIsBounded(cfg, q => Ahead(cfg.questions, rank, q), w, s, bodies);
    if s.question.Some? {
      AheadIsBounded(cfg.questions, rank, ActiveQuestion(cfg.questions, s.question.value).value);
    }
  }

  /** The fallback to larger order indexes needs no assumption: without pointers and conditions every conversation is
      done after as many accepted answers as there are active questions, plus one photo. */
  lemma FallbackAloneEnds(cfg: Config, w: World, s: State, bodies: seq<string>)
    requires cfg.conditions == [] && (forall q | q in cfg.questions :: q.next.None?)
    requires UniqueIds(cfg.questions) && CounterIsReserved(cfg.questions) && Live(cfg, s) && PhotoCount(s.data) >= 0
    ensures
      var (t, n) := Drive(cfg, w, s, bodies);
      n <= ActiveCount(cfg.questions) + 1 && (n == ActiveCount(cfg.questions) + 1 ==> t.question.None?)
  {
    FlowsEnd(cfg, (flow: Id) => 0, w, s, bodies);
  }
}
