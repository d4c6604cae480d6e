/** The live bot: an interpreter of question graphs that an administrator keeps in tables. Modelled for messages
    that the language layer passes through untouched. Rows stand in order of creation. */
module Engine {
  import opened Wrappers
  import opened Text
  import V = Validate

  type Id = nat

  /** A question's kind is read off its question_type; a condition's operator off its column likewise. */
  datatype Flow = Flow(id: Id, slug: string, isEntry: bool, isActive: bool, triggersMatching: bool)
  datatype Question = Question(id: Id, flow: Id, field: string, kind: V.Kind, rule: string, allowed: seq<string>,
                               next: Option<Id>, required: bool, order: int, isActive: bool)
  datatype Condition = Condition(question: Id, operator: Operator, value: string,
                                 targetQuestion: Option<Id>, targetFlow: Option<Id>, priority: int)
  datatype Operator = Equals | NotEquals | Includes | Greater | Less | AtLeast | AtMost | OneOf | Verbatim
  datatype Config = Config(flows: seq<Flow>, questions: seq<Question>, conditions: seq<Condition>)

  datatype Value = Str(s: string) | Num(n: int)
  datatype Answer = Answer(question: Id, field: string, value: string)

  /** A conversation's cursor, its lead's extracted data and its answer log. */
  datatype State = State(flow: Option<Id>, question: Option<Id>, data: map<string, Value>, log: seq<Answer>)

  /** What the customer is told; texts are left out. */
  datatype Reply = Ask(question: Id) | Welcome | Rejected | AnotherPhoto | Completed

  /** Code outside the engine: readers of answers, strconv.ParseFloat, the make and model cleaner, and the vehicle
      matcher's list of ids ("" when nothing matches). */
  datatype World = World(readers: V.Readers, float: string -> Option<real>,
                         clean: (string, string) -> (string, string), matches: map<string, Value> -> string)

  // ---- queries ----

  function ActiveQuestion(qs: seq<Question>, id: Id): (r: Option<Question>)
    ensures r.Some? ==> r.value in qs && r.value.id == id && r.value.isActive
    ensures r.None? ==> forall i | 0 <= i < |qs| :: !(qs[i].id == id && qs[i].isActive)
  {
    if qs == [] then None
    else if qs[0].id == id && qs[0].isActive then Some(qs[0])
    else ActiveQuestion(qs[1..], id)
  }

  function EntryFlow(fs: seq<Flow>): (r: Option<Id>)
  {
    if fs == [] then None else if fs[0].isEntry && fs[0].isActive then Some(fs[0].id) else EntryFlow(fs[1..])
  }

  function FlowWith(fs: seq<Flow>, id: Id): Option<Flow> {
    if fs == [] then None else if fs[0].id == id then Some(fs[0]) else FlowWith(fs[1..], id)
  }

  function Slug(fs: seq<Flow>, id: Id): string {
    match FlowWith(fs, id)
    case Some(f) => f.slug
    case None => ""
  }

  /** A row of WHERE flow_id=$1 AND is_active, with order_index > $2 if a bound is given. */
  predicate Eligible(q: Question, flow: Id, above: Option<int>) {
    q.isActive && q.flow == flow && (above.Some? ==> q.order > above.value)
  }

  /** ORDER BY order_index, created_at LIMIT 1 */
  function Least(qs: seq<Question>, flow: Id, above: Option<int>): (r: Option<nat>)
    ensures r.None? ==> forall i | 0 <= i < |qs| :: !Eligible(qs[i], flow, above)
    ensures r.Some? ==> r.value < |qs| && Eligible(qs[r.value], flow, above)
    ensures r.Some? ==> forall i | 0 <= i < |qs| && Eligible(qs[i], flow, above) ::
              qs[r.value].order < qs[i].order || (qs[r.value].order == qs[i].order && r.value <= i)
  {
    if qs == [] then None
    else
      var n := |qs| - 1;
      var best := Least(qs[..n], flow, above);
      if Eligible(qs[n], flow, above) && (best.None? || qs[n].order < qs[best.value].order) then Some(n) else best
  }

  function FirstQuestion(qs: seq<Question>, flow: Id): Option<Question> {
    match Least(qs, flow, None)
    case Some(i) => Some(qs[i])
    case None => None
  }

  // ---- conditions ----

  predicate Compare(x: Option<real>, operator: Operator, y: Option<real>) {
    x.Some? && y.Some? &&
    match operator
    case Greater => x.value > y.value
    case Less => x.value < y.value
    case AtLeast => x.value >= y.value
    case _ => x.value <= y.value
  }

  predicate SomeEqual(input: string, parts: seq<string>) {
    exists i | 0 <= i < |parts| :: EqualFold(Trim(input), Trim(parts[i]))
  }

  predicate Matches(float: string -> Option<real>, input: string, operator: Operator, value: string) {
    match operator
    case Equals => EqualFold(Trim(input), Trim(value))
    case NotEquals => !EqualFold(Trim(input), Trim(value))
    case Includes => Contains(Lower(input), Lower(value))
    case OneOf => SomeEqual(input, Split(value, ','))
    case Verbatim => EqualFold(input, value)
    case _ => Compare(float(Trim(input)), operator, float(Trim(value)))
  }

  /** Which conditions route an answer to question q. */
  function Applies(float: string -> Option<real>, q: Id, input: string): Condition -> bool {
    (c: Condition) => c.question == q && Matches(float, input, c.operator, c.value)
  }

  function Insert(rows: seq<Condition>, c: Condition): (r: seq<Condition>)
    ensures forall i | 0 <= i < |r| :: r[i] == c || r[i] in rows
  {
    if rows == [] || c.priority < rows[0].priority then [c] + rows else [rows[0]] + Insert(rows[1..], c)
  }

  /** The conditions of a question, ORDER BY priority, created_at. */
  function ConditionRows(cs: seq<Condition>, q: Id): (r: seq<Condition>)
    ensures forall i | 0 <= i < |r| :: r[i].question == q
  {
    if cs == [] then []
    else
      var c := cs[|cs| - 1];
      var rows := ConditionRows(cs[..|cs| - 1], q);
      if c.question == q then Insert(rows, c) else rows
  }

  /** The condition that should route: of those that apply, the one of least priority, the eldest among equals. */
  function Router(cs: seq<Condition>, applies: Condition -> bool): (r: Option<nat>)
    ensures r.None? ==> forall i | 0 <= i < |cs| :: !applies(cs[i])
    ensures r.Some? ==> r.value < |cs| && applies(cs[r.value])
    ensures r.Some? ==> forall i | 0 <= i < |cs| && applies(cs[i]) ::
              cs[r.value].priority < cs[i].priority || (cs[r.value].priority == cs[i].priority && r.value <= i)
  {
    if cs == [] then None
    else
      var n := |cs| - 1;
      var best := Router(cs[..n], applies);
      if applies(cs[n]) && (best.None? || cs[n].priority < cs[best.value].priority) then Some(n) else best
  }

  function FirstApplying(rows: seq<Condition>, applies: Condition -> bool): Option<Condition> {
    if rows == [] then None
    else if applies(rows[0]) then Some(rows[0])
    else FirstApplying(rows[1..], applies)
  }

  predicate ByPriority(rows: seq<Condition>) {
    forall i, j | 0 <= i < j < |rows| :: rows[i].priority <= rows[j].priority
  }

  lemma {:induction false} InsertKeepsOrder(rows: seq<Condition>, c: Condition)
    requires ByPriority(rows)
    ensures ByPriority(Insert(rows, c))
    ensures rows != [] ==> Insert(rows, c)[0].priority >= if c.priority < rows[0].priority then c.priority else rows[0].priority
    ensures rows == [] ==> Insert(rows, c) == [c]
  {
    if rows != [] && c.priority >= rows[0].priority {
      InsertKeepsOrder(rows[1..], c);
    }
  }

  lemma {:induction false} FirstAfterInsert(rows: seq<Condition>, c: Condition, applies: Condition -> bool)
    requires ByPriority(rows)
    ensures
      var before := FirstApplying(rows, applies);
      FirstApplying(Insert(rows, c), applies)
      == if applies(c) && (before.None? || c.priority < before.value.priority) then Some(c) else before
  {
    if rows == [] || c.priority < rows[0].priority {
      assert ([c] + rows)[1..] == rows;
      FirstIsNoEarlier(rows, applies);
    } else {
      FirstAfterInsert(rows[1..], c, applies);
      assert ([rows[0]] + Insert(rows[1..], c))[1..] == Insert(rows[1..], c);
    }
  }

  lemma {:induction false} FirstIsNoEarlier(rows: seq<Condition>, applies: Condition -> bool)
    requires ByPriority(rows)
    ensures
      var f := FirstApplying(rows, applies);
      f.Some? ==> f.value.priority >= rows[0].priority
  {
    if rows != [] && !applies(rows[0]) {
      FirstIsNoEarlier(rows[1..], applies);
    }
  }

  /** Scanning the sorted rows finds the router. */
  lemma {:induction false} SortedScanFindsRouter(cs: seq<Condition>, q: Id, applies: Condition -> bool)
    requires forall c :: applies(c) ==> c.question == q
    ensures ByPriority(ConditionRows(cs, q))
    ensures
      var r := Router(cs, applies);
      FirstApplying(ConditionRows(cs, q), applies) == if r.Some? then Some(cs[r.value]) else None
  {
    if cs != [] {
      var init, c := cs[..|cs| - 1], cs[|cs| - 1];
      SortedScanFindsRouter(init, q, applies);
      if c.question == q {
        InsertKeepsOrder(ConditionRows(init, q), c);
        FirstAfterInsert(ConditionRows(init, q), c, applies);
      }
    }
  }

  datatype Route = Route(question: Option<Id>, flow: Option<Id>)

  /** Where an accepted answer leads: the router's targets, else the next pointer, else the least larger order index. */
  function NextStep(cfg: Config, float: string -> Option<real>, q: Question, answer: string): Route {
    match Router(cfg.conditions, Applies(float, q.id, answer))
    case Some(i) => Route(cfg.conditions[i].targetQuestion, cfg.conditions[i].targetFlow)
    case None =>
      if q.next.Some? then Route(q.next, None)
      else
        match Least(cfg.questions, q.flow, Some(q.order))
        case Some(i) => Route(Some(cfg.questions[i].id), None)
        case None => Route(None, None)
  }

  /** evaluateNextStep: a scan of the rows that the query returns in order. */
  method EvaluateNextStep(cfg: Config, float: string -> Option<real>, q: Question, answer: string) returns (r: Route)
    ensures r == NextStep(cfg, float, q, answer)
  {
    var applies := Applies(float, q.id, answer);
    SortedScanFindsRouter(cfg.conditions, q.id, applies);
    var rows := ConditionRows(cfg.conditions, q.id);
    var i := 0;
    while i < |rows|
      invariant 0 <= i <= |rows|
      invariant FirstApplying(rows[i..], applies) == FirstApplying(rows, applies)
    {
      if Matches(float, answer, rows[i].operator, rows[i].value) {
        assert applies(rows[i]);
        return Route(rows[i].targetQuestion, rows[i].targetFlow);
      }
      i := i + 1;
    }
    if q.next.Some? {
      return Route(q.next, None);
    }
    var least := Least(cfg.questions, q.flow, Some(q.order));
    r := if least.Some? then Route(Some(cfg.questions[least.value].id), None) else Route(None, None);
  }

  // ---- one message ----

  const PHOTO_COUNT := "photo_count"
  const SELL_PHOTOS := "sell_photos"
  const SELL_MODE := "sell_mode"
  const MATCH_IDS := "match_ids"

  /** Keys of the extracted data that the engine writes for itself. */
  predicate IsSystemKey(key: string) {
    key == PHOTO_COUNT || key == SELL_PHOTOS || key == SELL_MODE || key == MATCH_IDS
  }

  function Lookup(data: map<string, Value>, key: string): Option<Value> {
    if key in data then Some(data[key]) else None
  }

  /** getString */
  function GetString(data: map<string, Value>, key: string): Option<string> {
    match Lookup(data, key)
    case None => None
    case Some(Str(v)) => Some(Trim(v))
    case Some(Num(n)) => Some(Itoa(n))
  }

  /** getNumber */
  function GetNumber(data: map<string, Value>, key: string): Option<int> {
    match Lookup(data, key)
    case None => None
    case Some(Num(n)) => Some(n)
    case Some(Str(v)) =>
      match ParseInt64(Without(Without(v, ','), ' '))
      case None => None
      case Some(n) => Some(n)
  }

  function Either(data: map<string, Value>, first: string, second: string): string {
    match GetString(data, first)
    case Some(v) => if v != "" then v else TextOf(data, second)
    case None => TextOf(data, second)
  }

  function TextOf(data: map<string, Value>, key: string): string {
    match GetString(data, key)
    case Some(v) => v
    case None => ""
  }

  /** Whether a completed flow files a sell request: a sell flow, or sell details on the lead, with a make or a model. */
  predicate FilesSellRequest(cfg: Config, w: World, data: map<string, Value>, flow: Id) {
    && (Slug(cfg.flows, flow) == "sell_flow" || (GetString(data, "sell_brand").Some? && GetString(data, "sell_model").Some?))
    && w.clean(Either(data, "sell_brand", "brand"), Either(data, "sell_model", "model")) != ("", "")
  }

  predicate TriggersMatching(fs: seq<Flow>, flow: Id) {
    match FlowWith(fs, flow)
    case Some(f) => f.triggersMatching
    case None => false
  }

  function DataAfterFlow(cfg: Config, w: World, data: map<string, Value>, flow: Id): map<string, Value> {
    if FilesSellRequest(cfg, w, data, flow) then data - {SELL_MODE}
    else if TriggersMatching(cfg.flows, flow) && w.matches(data) != "" then data[MATCH_IDS := Str(w.matches(data))]
    else data
  }

  /** completeFlow */
  function Complete(cfg: Config, w: World, s: State, flow: Id): State {
    State(None, None, DataAfterFlow(cfg, w, s.data, flow), s.log)
  }

  /** Asking the first question of the flow just set; without one, only the flow stays set. restartFlow does the same. */
  function AskFirst(cfg: Config, s: State, flow: Id): (State, Reply) {
    match FirstQuestion(cfg.questions, flow)
    case Some(q) => (s.(flow := Some(flow), question := Some(q.id)), Ask(q.id))
    case None => (s.(flow := Some(flow)), Welcome)
  }

  predicate IsPhotoQuestion(q: Question) {
    q.field == "sell_photos" || q.field == "photos"
  }

  datatype PhotoMessage = Skip | Done | Photo | Remark

  function PhotoMessageOf(body: string): PhotoMessage {
    var low := Lower(Trim(body));
    if V.IsAnyPhrase(low) || low in ["skip", "no", "none", "later", "without"] then Skip
    else if low in ["done", "finish", "ok", "okay", "2 photos", "two photos", "uploaded"] then Done
    else if Contains(low, "photo") || Contains(low, "image") || Contains(low, "pic") || HasPrefix(low, "http") || HasPrefix(low, "media/") then Photo
    else Remark
  }

  function PhotoCount(data: map<string, Value>): int {
    match GetNumber(data, PHOTO_COUNT)
    case Some(n) => n
    case None => 0
  }

  function WithPhotos(data: map<string, Value>, count: int, note: string): map<string, Value> {
    data[PHOTO_COUNT := Num(count)][SELL_PHOTOS := Str(note)]
  }

  /** The photo question: nothing is logged, and every message but a first photo completes the flow. */
  function PhotoAnswer(cfg: Config, w: World, s: State, flow: Id, body: string, answer: string): (State, Reply) {
    PhotoOutcome(cfg, w, s, flow, PhotoMessageOf(body), answer)
  }

  function PhotoOutcome(cfg: Config, w: World, s: State, flow: Id, message: PhotoMessage, answer: string): (State, Reply) {
    var n := PhotoCount(s.data);
    match message
    case Skip => (Complete(cfg, w, s.(data := WithPhotos(s.data, n, "skipped")), flow), Completed)
    case Done =>
      var m := if n == 0 then 2 else n;
      (Complete(cfg, w, s.(data := WithPhotos(s.data, m, Itoa(m))), flow), Completed)
    case Photo =>
      var t := s.(data := WithPhotos(s.data, n + 1, Itoa(n + 1)));
      if n + 1 < 2 then (t.(flow := Some(flow)), AnotherPhoto) else (Complete(cfg, w, t, flow), Completed)
    case Remark => (Complete(cfg, w, s.(data := WithPhotos(s.data, n, answer)), flow), Completed)
  }

  /** Logging an accepted answer and indexing it under its field. */
  function Record(s: State, q: Question, answer: string): State {
    s.(log := s.log + [Answer(q.id, q.field, answer)],
       data := if q.field == "" then s.data else s.data[q.field := Str(answer)])
  }

  /** Entering the flow a condition names; entering the sell flow switches sell mode on. */
  function EnterFlow(cfg: Config, data: map<string, Value>, flow: Id): map<string, Value> {
    if Slug(cfg.flows, flow) == "sell_flow" then data[SELL_MODE := Str("true")] else data
  }

  /** Following the route of an accepted answer: to an active question other than the one answered, else to the end. */
  function Follow(cfg: Config, w: World, s: State, flow: Id, q: Question, target: Option<Id>): (State, Reply) {
    match target
    case None => (Complete(cfg, w, s, flow), Completed)
    case Some(id) =>
      match ActiveQuestion(cfg.questions, id)
      case Some(t) =>
        if id == q.id then (Complete(cfg, w, s, flow), Completed)
        else (s.(flow := Some(flow), question := Some(t.id)), Ask(t.id))
      case None => (Complete(cfg, w, s, flow), Completed)
  }

  function Switches(r: Route, flow: Id): bool {
    r.flow.Some? && r.flow.value != flow
  }

  function Target(cfg: Config, r: Route, flow: Id): Option<Id> {
    if r.question.Some? || !Switches(r, flow) then r.question
    else
      match FirstQuestion(cfg.questions, r.flow.value)
      case Some(f) => Some(f.id)
      case None => None
  }

  function Advance(cfg: Config, w: World, s: State, flow: Id, q: Question, answer: string): (State, Reply) {
    var r := NextStep(cfg, w.float, q, answer);
    if Switches(r, flow) then
      Follow(cfg, w, s.(data := EnterFlow(cfg, s.data, r.flow.value)), r.flow.value, q, Target(cfg, r, flow))
    else Follow(cfg, w, s, flow, q, r.question)
  }

  /** An answer to the question at the cursor. */
  function AnswerTo(cfg: Config, w: World, s: State, flow: Id, q: Question, body: string): (State, Reply) {
    match Check(w, q, body)
    case None => (s.(flow := Some(flow)), Rejected)
    case Some(answer) =>
      if IsPhotoQuestion(q) then PhotoAnswer(cfg, w, s, flow, body, answer)
      else Advance(cfg, w, Record(s, q, answer), flow, q, answer)
  }

  function Check(w: World, q: Question, body: string): Option<string> {
    V.Validate(w.readers, body, q.kind, q.rule, q.allowed, q.required)
  }

  function CurrentFlow(cfg: Config, s: State): Option<Id> {
    if s.flow.Some? then s.flow else EntryFlow(cfg.flows)
  }

  /** ProcessMessage */
  function Process(cfg: Config, w: World, s: State, body: string): (State, Reply) {
    match CurrentFlow(cfg, s)
    case None => (s, Welcome)
    case Some(flow) =>
      if s.question.None? then AskFirst(cfg, s, flow)
      else
        match ActiveQuestion(cfg.questions, s.question.value)
        case None => AskFirst(cfg, s, flow)
        case Some(q) => AnswerTo(cfg, w, s, flow, q, body)
  }

  /** ResetConversation */
  function Reset(cfg: Config, s: State): (State, Reply) {
    match EntryFlow(cfg.flows)
    case None => (s.(flow := None, question := None), Welcome)
    case Some(flow) => AskFirst(cfg, s.(question := None), flow)
  }

  /** The rows of a conversation and its lead, updated statement by statement. */
  class Conversation {
    const cfg: Config
    var flow: Option<Id>
    var question: Option<Id>
    var data: map<string, Value>
    var log: seq<Answer>

    constructor (cfg: Config)
      ensures this.cfg == cfg && Snapshot() == State(None, None, map[], [])
    {
      this.cfg, flow, question, data, log := cfg, None, None, map[], [];
    }

    function Snapshot(): State
      reads this
    {
      State(flow, question, data, log)
    }

    method CompleteFlow(w: World, done: Id)
      modifies this
      ensures Snapshot() == Complete(cfg, w, old(Snapshot()), done)
    {
      flow, question := None, None;
      if FilesSellRequest(cfg, w, data, done) {
        data := data - {SELL_MODE};
        return;
      }
      if TriggersMatching(cfg.flows, done) {
        var ids := w.matches(data);
        if ids != "" {
          data := data[MATCH_IDS := Str(ids)];
        }
      }
    }

    method RestartFlow(target: Id) returns (reply: Reply)
      modifies this`flow, this`question
      ensures (Snapshot(), reply) == AskFirst(cfg, old(Snapshot()), target)
    {
      flow := Some(target);
      var first := FirstQuestion(cfg.questions, target);
      if first.None? {
        return Welcome;
      }
      question := Some(first.value.id);
      reply := Ask(first.value.id);
    }

    method ResetConversation() returns (reply: Reply)
      modifies this`flow, this`question
      ensures (Snapshot(), reply) == Reset(cfg, old(Snapshot()))
    {
      var entry := EntryFlow(cfg.flows);
      if entry.None? {
        flow, question := None, None;
        return Welcome;
      }
      question := None;
      reply := RestartFlow(entry.value);
    }

    method AnswerPhotoQuestion(w: World, current: Id, message: PhotoMessage, answer: string) returns (reply: Reply)
      modifies this
      ensures (Snapshot(), reply) == PhotoOutcome(cfg, w, old(Snapshot()), current, message, answer)
    {
      var photos := PhotoCount(data);
      if message == Skip {
        data := data[PHOTO_COUNT := Num(photos)][SELL_PHOTOS := Str("skipped")];
      } else if message == Done {
        if photos == 0 {
          photos := 2;
        }
        data := data[PHOTO_COUNT := Num(photos)][SELL_PHOTOS := Str(Itoa(photos))];
      } else if message == Photo {
        photos := photos + 1;
        data := data[PHOTO_COUNT := Num(photos)][SELL_PHOTOS := Str(Itoa(photos))];
        if photos < 2 {
          flow := Some(current);
          return AnotherPhoto;
        }
      } else {
        data := data[PHOTO_COUNT := Num(photos)][SELL_PHOTOS := Str(answer)];
      }
      CompleteFlow(w, current);
      reply := Completed;
    }

    method FollowRoute(w: World, current: Id, q: Question, answer: string) returns (reply: Reply)
      modifies this
      ensures (Snapshot(), reply) == Advance(cfg, w, old(Snapshot()), current, q, answer)
    {
      var r := EvaluateNextStep(cfg, w.float, q, answer);
      var here, target := current, r.question;
      if r.flow.Some? && r.flow.value != here {
        here := r.flow.value;
        if target.None? {
          var first := FirstQuestion(cfg.questions, here);
          if first.Some? {
            target := Some(first.value.id);
          }
        }
        if Slug(cfg.flows, here) == "sell_flow" {
          data := data[SELL_MODE := Str("true")];
        }
      }
      if target.None? || target.value == q.id {
        CompleteFlow(w, here);
        return Completed;
      }
      var t := ActiveQuestion(cfg.questions, target.value);
      if t.None? {
        CompleteFlow(w, here);
        return Completed;
      }
      flow, question := Some(here), Some(t.value.id);
      reply := Ask(t.value.id);
    }

    method AnswerQuestion(w: World, current: Id, q: Question, body: string) returns (reply: Reply)
      requires flow == Some(current)
      modifies this
      ensures (Snapshot(), reply) == AnswerTo(cfg, w, old(Snapshot()), current, q, body)
    {
      var answer := Check(w, q, body);
      if answer.None? {
        return Rejected;
      }
      if IsPhotoQuestion(q) {
        reply := AnswerPhotoQuestion(w, current, PhotoMessageOf(body), answer.value);
        return;
      }
      log := log + [Answer(q.id, q.field, answer.value)];
      if q.field != "" {
        data := data[q.field := Str(answer.value)];
      }
      assert Snapshot() == Record(old(Snapshot()), q, answer.value);
      reply := FollowRoute(w, current, q, answer.value);
    }

    method ProcessMessage(w: World, body: string) returns (reply: Reply)
      modifies this
      ensures (Snapshot(), reply) == Process(cfg, w, old(Snapshot()), body)
    {
      if flow.None? {
        var entry := EntryFlow(cfg.flows);
        if entry.None? {
          return Welcome;
        }
        flow := entry;
      }
      var current := flow.value;
      if question.None? {
        reply := RestartFlow(current);
        return;
      }
      var q := ActiveQuestion(cfg.questions, question.value);
      if q.None? {
        reply := RestartFlow(current);
        return;
      }
      FlowAlreadySet(cfg, w, old(Snapshot()), current, q.value, body);
      reply := AnswerQuestion(w, current, q.value, body);
    }
  }

  /** The flow written before the answer is looked at is the one every outcome writes again. */
  lemma FlowAlreadySet(cfg: Config, w: World, s: State, flow: Id, q: Question, body: string)
    ensures AnswerTo(cfg, w, s.(flow := Some(flow)), flow, q, body) == AnswerTo(cfg, w, s, flow, q, body)
  {
    var t := s.(flow := Some(flow));
    match Check(w, q, body)
    case None =>
    case Some(answer) =>
      PhotoFlowAlreadySet(cfg, w, s, flow, PhotoMessageOf(body), answer);
      AdvanceFlowAlreadySet(cfg, w, Record(s, q, answer), flow, q, answer);
      assert Record(t, q, answer) == Record(s, q, answer).(flow := Some(flow));
  }

  lemma PhotoFlowAlreadySet(cfg: Config, w: World, s: State, flow: Id, message: PhotoMessage, answer: string)
    ensures PhotoOutcome(cfg, w, s.(flow := Some(flow)), flow, message, answer) == PhotoOutcome(cfg, w, s, flow, message, answer)
  {
  }

  lemma AdvanceFlowAlreadySet(cfg: Config, w: World, s: State, flow: Id, q: Question, answer: string)
    ensures Advance(cfg, w, s.(flow := Some(flow)), flow, q, answer) == Advance(cfg, w, s, flow, q, answer)
  {
  }
}
