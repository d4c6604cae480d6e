/** The flows, questions and conditions that the migrations install, and that they can be relied on to end. */
module SeededBot {
  import opened Wrappers
  import opened Engine
  import opened EngineRuns
  import opened Circuits
  import Text
  import V = Validate

  const WELCOME_FLOW: Id := 0
  const BUY_FLOW: Id := 1
  const SELL_FLOW: Id := 2

  const FLOWS := [
    Flow(WELCOME_FLOW, "welcome_flow", true, true, false),
    Flow(BUY_FLOW, "buy_flow", false, true, true),
    Flow(SELL_FLOW, "sell_flow", false, true, false)]

  const WELCOME := Question(1, WELCOME_FLOW, "service_intent", V.Select, "", ["Buy", "Sell", "1", "2"], None, true, 1, true)

  const BUY_FIELDS := ["vehicle_type", "budget_max", "brand", "model", "fuel", "transmission", "year_min"]
  const BUY_KINDS := [V.Select, V.Number, V.FreeText, V.FreeText, V.Select, V.Select, V.Number]
  const BUY_RULES := ["", "min:0,max:99999999", "", "", "", "", "min:1995,max:2027"]
  const BUY_CHOICES: seq<seq<string>> := [
    ["SUV", "Sedan", "Hatchback", "MPV", "Any"], [], [], [],
    ["Petrol", "Diesel", "CNG", "Electric", "Hybrid", "Any"], ["Manual", "Automatic", "Any"], []]

  function BuyQuestion(i: nat): Question
    requires i < 7
  {
    Question(101 + i, BUY_FLOW, BUY_FIELDS[i], BUY_KINDS[i], BUY_RULES[i], BUY_CHOICES[i], None, i != 6, i + 1, true)
  }

  const SELL_FIELDS := ["sell_brand", "sell_model", "sell_year", "sell_km", "sell_fuel", "sell_transmission",
    "sell_condition", "sell_location", "sell_photos"]
  const SELL_KINDS := [V.FreeText, V.FreeText, V.Number, V.Number, V.Select, V.Select, V.Select, V.FreeText, V.Other]
  const SELL_RULES := ["", "", "min:1990,max:2027", "min:0,max:999999", "", "", "", "", ""]
  const SELL_CHOICES: seq<seq<string>> := [
    [], [], [], [], ["Petrol", "Diesel", "Hybrid", "Electric"], ["Automatic", "Manual"],
    ["Excellent", "Good", "Fair", "Poor"], [], []]

  function SellQuestion(i: nat): Question
    requires i < 9
  {
    Question(201 + i, SELL_FLOW, SELL_FIELDS[i], SELL_KINDS[i], SELL_RULES[i], SELL_CHOICES[i],
             if i == 7 then Some(209) else None, i != 8, i + 1, true)
  }

  function BuyQuestions(n: nat): (r: seq<Question>)
    requires n <= 7
    ensures |r| == n && forall i | 0 <= i < n :: r[i] == BuyQuestion(i)
  {
    seq(n, i requires 0 <= i < n => BuyQuestion(i))
  }

  function SellQuestions(n: nat): (r: seq<Question>)
    requires n <= 9
    ensures |r| == n && forall i | 0 <= i < n :: r[i] == SellQuestion(i)
  {
    seq(n, i requires 0 <= i < n => SellQuestion(i))
  }

  const CONDITIONS := [
    Condition(1, Equals, "Buy", None, Some(BUY_FLOW), 1),
    Condition(1, Equals, "1", None, Some(BUY_FLOW), 2),
    Condition(1, Equals, "Sell", None, Some(SELL_FLOW), 3),
    Condition(1, Equals, "2", None, Some(SELL_FLOW), 4),
    Condition(101, Equals, "Any", Some(103), None, 1)]

  function Questions(): (r: seq<Question>)
    ensures |r| == 17
    ensures r[0] == WELCOME && (forall i | 1 <= i < 8 :: r[i] == BuyQuestion(i - 1)) && (forall i | 8 <= i < 17 :: r[i] == SellQuestion(i - 8))
  {
    [WELCOME] + BuyQuestions(7) + SellQuestions(9)
  }

  function Seeded(): Config {
    Config(FLOWS, Questions(), CONDITIONS)
  }

  /** The welcome menu comes before both questionnaires. */
  function Rank(flow: Id): int {
    if flow == WELCOME_FLOW then 0 else 1
  }

  /** What the order of questions depends on, read off the tables. */
  ghost predicate Placed(q: Question) {
    || (q.id == 1 && q.flow == WELCOME_FLOW && q.next.None?)
    || (101 <= q.id <= 107 && q == BuyQuestion(q.id - 101))
    || (201 <= q.id <= 209 && q == SellQuestion(q.id - 201))
  }

  lemma QuestionsArePlaced(q: Question)
    requires q in Questions()
    ensures Placed(q) && (q.id == 1 ==> q == WELCOME)
  {
    var i :| 0 <= i < 17 && Questions()[i] == q;
  }

  lemma FieldsAreOrdinary(q: Question)
    requires q in Questions()
    ensures q.field != PHOTO_COUNT
  {
    QuestionsArePlaced(q);
    BuyFields(0);
    if 101 <= q.id <= 107 {
      BuyFields(q.id - 101);
    } else if 201 <= q.id <= 209 {
      SellFields(q.id - 201);
    }
  }

  lemma BuyFields(i: nat)
    requires i < 7
    ensures BUY_FIELDS[i] != PHOTO_COUNT
  {
    assert PHOTO_COUNT[0] == 'p';
    assert BUY_FIELDS[i][0] != 'p';
  }

  lemma SellFields(i: nat)
    requires i < 9
    ensures SELL_FIELDS[i] != PHOTO_COUNT
  {
    assert PHOTO_COUNT[0] == 'p';
    assert SELL_FIELDS[i][0] == 's';
  }

  lemma ConditionsLeadOnward(a: Question, b: Question, c: Condition)
    requires a in Questions() && b in Questions() && c in CONDITIONS && ConditionLeads(c, a, b)
    ensures Onward(Rank, a, b)
  {
    QuestionsArePlaced(a);
    QuestionsArePlaced(b);
  }

  lemma PointersLeadOnward(a: Question, b: Question)
    requires a in Questions() && b in Questions() && a.next == Some(b.id)
    ensures Onward(Rank, a, b)
  {
    QuestionsArePlaced(a);
    QuestionsArePlaced(b);
  }

  lemma IdsAreKeys()
    ensures UniqueIds(Questions()) && CounterIsReserved(Questions())
  {
    forall a, b | a in Questions() && b in Questions() && a.id == b.id
      ensures a == b
    {
      QuestionsArePlaced(a);
      QuestionsArePlaced(b);
    }
    forall q | q in Questions()
      ensures q.field != PHOTO_COUNT
    {
      FieldsAreOrdinary(q);
    }
  }

  /** The seeded bot meets the conditions under which flows end. */
  lemma SeededIsOrdered()
    ensures Ordered(Seeded(), Rank)
  {
    var cfg := Seeded();
    forall a, b | a in cfg.questions && b in cfg.questions && a.isActive && b.isActive && a.next == Some(b.id)
      ensures Onward(Rank, a, b)
    {
      PointersLeadOnward(a, b);
    }
    forall a, b, c | a in cfg.questions && b in cfg.questions && c in cfg.conditions && a.isActive && b.isActive && ConditionLeads(c, a, b)
      ensures Onward(Rank, a, b)
    {
      ConditionsLeadOnward(a, b, c);
    }
    IdsAreKeys();
  }

  /** How many questions a customer can still be asked: those to the end of a questionnaire, and the menu before it. */
  function Depth(q: Question): nat {
    if q.flow == WELCOME_FLOW then 10
    else if q.flow == BUY_FLOW && q.order <= 7 then 8 - q.order
    else if q.flow == SELL_FLOW && q.order <= 9 then 10 - q.order
    else 1
  }

  lemma SeededDescends(a: Question, b: Question)
    requires a in Questions() && b in Questions()
    ensures 0 < Depth(a) <= 10
    ensures Before(Rank, a, b) && (a.flow == b.flow || a.flow == WELCOME_FLOW) ==> Depth(b) < Depth(a)
  {
    QuestionsArePlaced(a);
    QuestionsArePlaced(b);
  }

  lemma PointersStay(a: Question, b: Question)
    requires a in Questions() && b in Questions() && a.next == Some(b.id)
    ensures a.flow == b.flow
  {
    QuestionsArePlaced(a);
    QuestionsArePlaced(b);
  }

  lemma ConditionsStayOrEnter(a: Question, b: Question, c: Condition)
    requires a in Questions() && b in Questions() && c in CONDITIONS && ConditionLeads(c, a, b)
    ensures a.flow == b.flow || a.flow == WELCOME_FLOW
  {
    QuestionsArePlaced(a);
    QuestionsArePlaced(b);
  }

  lemma SeededIsMeasured()
    ensures Measured(Seeded(), Depth)
  {
    var cfg := Seeded();
    IdsAreKeys();
    forall a, b | a in cfg.questions && b in cfg.questions
      ensures Depth(a) > 0
      ensures a.next == Some(b.id) ==> a.id == b.id || Depth(b) < Depth(a)
      ensures a.flow == b.flow && a.order < b.order ==> Depth(b) < Depth(a)
    {
      SeededDescends(a, b);
      if a.next == Some(b.id) {
        PointersStay(a, b);
        PointersLeadOnward(a, b);
      }
    }
    forall a, b, c | a in cfg.questions && b in cfg.questions && c in cfg.conditions && ConditionLeads(c, a, b)
      ensures a.id == b.id || Depth(b) < Depth(a)
    {
      SeededDescends(a, b);
      ConditionsStayOrEnter(a, b, c);
      ConditionsLeadOnward(a, b, c);
    }
  }

  /** A customer of the seeded bot is done after at most eleven accepted answers: the menu, nine questions of the sell
      flow, and a second photo. */
  lemma SeededFlowsEnd(w: World, s: State, bodies: seq<string>)
    requires Live(Seeded(), s) && PhotoCount(s.data) >= 0
    ensures
      var (t, n) := Drive(Seeded(), w, s, bodies);
      n <= 11 && (n == 11 ==> t.question.None?)
  {
    SeededIsMeasured();
    DriveIsBounded(Seeded(), Depth, w, s, bodies);
    if s.question.Some? {
      SeededDescends(ActiveQuestion(Questions(), s.question.value).value, WELCOME);
    }
  }

  // ---- the longest conversation ----

  /** The k-th row is found by its id. */
  lemma RowIsFound(k: nat)
    requires k < 17
    ensures ActiveQuestion(Questions(), Questions()[k].id) == Some(Questions()[k])
  {
    IdsAreKeys();
    QuestionsArePlaced(Questions()[k]);
    var q := Questions()[k];
    assert q.isActive;
    assert ActiveQuestion(Questions(), q.id).Some?;
  }

  /** The sell questions stand in the rows from 8 on, in their order. */
  lemma SellRows(k: nat)
    requires k < 17
    ensures Questions()[k].flow == SELL_FLOW <==> k >= 8
    ensures k >= 8 ==> Questions()[k] == SellQuestion(k - 8) && Questions()[k].order == k - 7
  {
  }

  lemma NextSellQuestion(above: Option<int>, i: nat)
    requires i < 9 && (if above.Some? then above.value == i else i == 0)
    ensures Least(Questions(), SELL_FLOW, above) == Some(8 + i)
  {
    var best := Least(Questions(), SELL_FLOW, above);
    SellRows(8 + i);
    assert Eligible(Questions()[8 + i], SELL_FLOW, above);
    SellRows(best.value);
  }

  // What the customer says is passed on as a variable throughout, so that the solver does not spell it out.

  /** "any" is accepted by every question. */
  lemma AnyIsAccepted(w: World, q: Question, any: string)
    requires any == "any"
    ensures Check(w, q, any).Some?
  {
    V.AnyIsAnAnyPhrase();
    V.TrimBare(any);
  }

  lemma NoPhotosYet(i: nat)
    requires i < 8
    ensures !IsPhotoQuestion(SellQuestion(i))
  {
    assert SELL_FIELDS[i][5] != 'p' && "sell_photos"[5] == 'p' && "photos"[0] == 'p' && SELL_FIELDS[i][0] == 's';
  }

  lemma SellAnswerMoves(w: World, i: nat, any: string)
    requires i < 8 && any == "any"
    ensures Move(Seeded(), w, Cursor(SELL_FLOW, 201 + i), any) == Some(Cursor(SELL_FLOW, 202 + i))
  {
    SellRowIsFound(i);
    SellRowIsFound(i + 1);
    NoPhotosYet(i);
    AnyIsAccepted(w, SellQuestion(i), any);
    SellRoute(w.float, i, Check(w, SellQuestion(i), any).value);
    MoveFollows(Seeded(), w, Cursor(SELL_FLOW, 201 + i), any, SellQuestion(i), Route(Some(202 + i), None), SellQuestion(i + 1));
  }

  lemma SellRowIsFound(i: nat)
    requires i < 9
    ensures ActiveQuestion(Questions(), 201 + i) == Some(SellQuestion(i))
  {
    RowIsFound(8 + i);
    SellRows(8 + i);
  }

  lemma SellRoute(float: string -> Option<real>, i: nat, answer: string)
    requires i < 8
    ensures NextStep(Seeded(), float, SellQuestion(i), answer) == Route(Some(202 + i), None)
  {
    assert forall k | 0 <= k < |CONDITIONS| :: CONDITIONS[k].question != SellQuestion(i).id;
    assert Router(CONDITIONS, Applies(float, SellQuestion(i).id, answer)).None?;
    NextSellQuestion(Some(i + 1), i + 1);
    SellRows(9 + i);
  }

  lemma TwoMeansSell(w: World, two: string)
    requires two == "2"
    ensures Check(w, WELCOME, two) == Some("Sell")
  {
    assert Text.Itoa(2) == ['2'] == two;
    V.DigitsPickByPosition(w.readers, WELCOME.allowed, 2, WELCOME.rule, true);
  }

  lemma EqualsApplies(float: string -> Option<real>, c: Condition, answer: string)
    requires c.operator == Equals && V.Bare(answer) && V.Bare(c.value)
    ensures Applies(float, c.question, answer)(c) <==> Text.EqualFold(answer, c.value)
  {
    V.TrimBare(answer);
    V.TrimBare(c.value);
  }

  lemma LengthsDiffer(a: string, b: string)
    requires |a| != |b|
    ensures !Text.EqualFold(a, b)
  {
  }

  lemma SellRouter(float: string -> Option<real>)
    ensures Router(CONDITIONS, Applies(float, 1, "Sell")) == Some(2)
  {
    var applies := Applies(float, 1, "Sell");
    EqualsApplies(float, CONDITIONS[0], "Sell");
    EqualsApplies(float, CONDITIONS[1], "Sell");
    EqualsApplies(float, CONDITIONS[2], "Sell");
    LengthsDiffer("Sell", "Buy");
    LengthsDiffer("Sell", "1");
    assert !applies(CONDITIONS[4]);
    RouterIsThird(applies);
  }

  lemma RouterIsThird(applies: Condition -> bool)
    requires !applies(CONDITIONS[0]) && !applies(CONDITIONS[1]) && applies(CONDITIONS[2]) && !applies(CONDITIONS[4])
    ensures Router(CONDITIONS, applies) == Some(2)
  {
    var r := Router(CONDITIONS, applies);
    assert r.Some? && r.value < 5;
  }

  lemma MenuIsNoPhoto()
    ensures !IsPhotoQuestion(WELCOME)
  {
    assert WELCOME.field[1] == 'e' && "sell_photos"[2] == 'l' && "photos"[1] == 'h' && WELCOME.field[2] == 'r';
  }

  lemma MenuMoves(w: World, two: string)
    requires two == "2"
    ensures Move(Seeded(), w, Cursor(WELCOME_FLOW, 1), two) == Some(Cursor(SELL_FLOW, 201))
  {
    RowIsFound(0);
    SellRowIsFound(0);
    TwoMeansSell(w, two);
    SellRouter(w.float);
    NextSellQuestion(None, 0);
    SellRows(8);
    MenuIsNoPhoto();
    var r := Route(None, Some(SELL_FLOW));
    assert NextStep(Seeded(), w.float, WELCOME, "Sell") == r;
    MoveFollows(Seeded(), w, Cursor(WELCOME_FLOW, 1), two, WELCOME, r, SellQuestion(0));
  }

  lemma PhotoIsAPhoto(photo: string)
    requires photo == "photo"
    ensures PhotoMessageOf(photo) == Photo
  {
    V.TrimBare(photo);
    PhotoIsLower();
    NoPhraseIsPhoto();
    var low := Text.Lower(Text.Trim(photo));
    assert low == "photo";
    assert low !in ["skip", "no", "none", "later", "without"] && low !in ["done", "finish", "ok", "okay", "2 photos", "two photos", "uploaded"];
    assert Text.Contains(low, "photo");
  }

  lemma PhotoIsLower()
    ensures Text.Lower("photo") == "photo"
  {
    var low := Text.Lower("photo");
    assert forall i | 0 <= i < 5 :: low[i] == "photo"[i];
  }

  lemma NoPhraseIsPhoto()
    ensures !V.IsAnyPhrase("photo")
  {
    var s := "photo";
    assert s[0] == 'p' && s[4] == 'o';
    assert Text.TrimLeft(s, V.AnyPhraseCut) == s;
    assert Text.TrimRight(s, V.AnyPhraseCut) == s;
    assert forall i | 0 <= i < |V.ANY_PHRASES| :: V.ANY_PHRASES[i][0] != 'p';
  }

  lemma PhotoIsAccepted(w: World, photo: string)
    requires photo == "photo"
    ensures Check(w, SellQuestion(8), photo).Some? && IsPhotoQuestion(SellQuestion(8))
  {
    V.TrimBare(photo);
  }

  lemma PhotoIsCounted(w: World, s: State, photo: string)
    requires PhotoMessageOf(photo) == Photo && Check(w, SellQuestion(8), photo).Some? && IsPhotoQuestion(SellQuestion(8))
    requires s.flow == Some(SELL_FLOW) && s.question == Some(209)
    ensures
      var (t, reply) := Process(Seeded(), w, s, photo);
      && !reply.Rejected? && PhotoCount(t.data) == PhotoCount(s.data) + 1
      && (if PhotoCount(s.data) < 1 then t.flow == s.flow && t.question == s.question else t.question.None?)
  {
    SellRowIsFound(8);
    PhotoIsTaken(Seeded(), w, s, SellQuestion(8), photo);
  }

  /** The customer is at the photo question and has sent no photo. */
  lemma TwoPhotos(w: World, s: State, photo: string)
    requires photo == "photo" && s.flow == Some(SELL_FLOW) && s.question == Some(209) && PhotoCount(s.data) == 0
    ensures Drive(Seeded(), w, s, [photo] + ([photo] + [])).1 == 2
    ensures Drive(Seeded(), w, s, [photo] + ([photo] + [])).0.question.None?
  {
    PhotoIsAPhoto(photo);
    PhotoIsAccepted(w, photo);
    PhotoIsCounted(w, s, photo);
    var t := Process(Seeded(), w, s, photo).0;
    PhotoIsCounted(w, t, photo);
    var u := Process(Seeded(), w, t, photo).0;
    var one, two := [photo] + [], [photo] + ([photo] + []);
    assert one[1..] == [] && two[1..] == one;
    DriveOn(Seeded(), w, t, u, one);
    DriveOn(Seeded(), w, s, t, two);
  }

  /** The same answer n times. */
  function Repeated(any: string, n: nat): (r: seq<string>)
    ensures |r| == n
  {
    if n == 0 then [] else [any] + Repeated(any, n - 1)
  }

  lemma {:induction false} SellWalk(move: Mover, c: Cursor, any: string, n: nat)
    requires forall d: Cursor | d.flow == SELL_FLOW && 201 <= d.question < 209 :: move(d, any) == Some(Cursor(SELL_FLOW, d.question + 1))
    requires c.flow == SELL_FLOW && c.question + n == 209 && n <= 8
    ensures Walk(move, c, Repeated(any, n)) == Some(Cursor(SELL_FLOW, 209))
    decreases n
  {
    if n > 0 {
      var d := Cursor(SELL_FLOW, c.question + 1);
      WalkFront(move, c, d, any, Repeated(any, n - 1));
      SellWalk(move, d, any, n - 1);
    }
  }

  lemma MenuIsLive(s: State)
    requires s.flow == Some(WELCOME_FLOW) && s.question == Some(1)
    ensures Live(Seeded(), s) && CounterIsReserved(Seeded().questions)
  {
    RowIsFound(0);
    IdsAreKeys();
  }

  lemma WalkToThePhotos(w: World, two: string, any: string, n: nat)
    requires two == "2" && any == "any" && n == 8
    ensures Walk(MoverOf(Seeded(), w), Cursor(WELCOME_FLOW, 1), [two] + Repeated(any, n)) == Some(Cursor(SELL_FLOW, 209))
  {
    var move := MoverOf(Seeded(), w);
    forall d: Cursor | d.flow == SELL_FLOW && 201 <= d.question < 209
      ensures move(d, any) == Some(Cursor(SELL_FLOW, d.question + 1))
    {
      SellAnswerMoves(w, d.question - 201, any);
    }
    MenuMoves(w, two);
    WalkFront(move, Cursor(WELCOME_FLOW, 1), Cursor(SELL_FLOW, 201), two, Repeated(any, n));
    SellWalk(move, Cursor(SELL_FLOW, 201), any, n);
  }

  /** And eleven are reached, from the menu on: selling, "any" to every question, and two photos. */
  lemma ElevenAreReached(w: World, s: State, two: string, any: string, photo: string, n: nat)
    requires two == "2" && any == "any" && photo == "photo" && n == 8
    requires s.flow == Some(WELCOME_FLOW) && s.question == Some(1) && PhotoCount(s.data) == 0
    ensures
      var (t, accepted) := Drive(Seeded(), w, s, [two] + Repeated(any, n) + ([photo] + ([photo] + [])));
      accepted == 11 && t.question.None?
  {
    var way, photos := [two] + Repeated(any, n), [photo] + ([photo] + []);
    MenuIsLive(s);
    WalkToThePhotos(w, two, any, n);
    WalkIsDriven(Seeded(), w, s, way);
    var (t, k) := Drive(Seeded(), w, s, way);
    TwoPhotos(w, t, photo);
    var (u, m) := Drive(Seeded(), w, t, photos);
    DriveConcat(Seeded(), w, s, t, k, u, m, way, photos, way + photos);
  }
}
