/** The deterministic chat: about twenty states, of which six each wait for one slot of a buyer's wishes. Regular
    expressions and the brand extractor are parameters; keys of the data map are an enumeration. */
module SlotMachine {
  import opened Wrappers
  import opened Text

  datatype State =
    | NEW | ASK_INTENT | DONE
    | BUY_BUDGET | BUY_BRAND | BUY_MODEL | BUY_FUEL | BUY_TRANS | BUY_YEAR | BUY_RESULTS
    | FINANCE_INFO | TESTDRIVE_ASK | POST_TESTDRIVE_FOLLOWUP
    | SELL_CAR | SELL_YEAR | SELL_DETAILS | SELL_SPECS | SELL_PHOTOS | SELL_INSPECTION
    | Unknown(name: string)

  datatype Key =
    | BudgetMin | BudgetMax | BudgetUnknown | Brand | Model | Fuel | Transmission | YearMin
    | Page | MorePhotos | Interest | SelectIdx | FinanceRaw | TestDriveRaw | PostTestDrive
    | SellBrand | SellModel | SellYearKm | SellReg | SellYear | SellKm | SellKmFlag
    | SellFuel | SellTrans | SellSpecs | SellLocation | SellPhotos | InspectionRaw

  type Data = map<Key, string>

  datatype Intent = NoIntent | Buy | Sell
  datatype Status = Unchanged | Contacted | Qualified | FollowUp | TestDrive | Lost

  /** The replies; Ask and its variants end in the prompt of a state. */
  datatype Reply =
    | Recover | Menu | MenuAgain | WelcomeBack | ShowMore | ShowPhotos | FinanceHelp | NoProblem | TakeYourTime
    | WillCall | TakeItForward | NoWorries | Confirmed | TestDriveHelp | Searching | ShowMatches(find: string) | ResultsHelp
    | Ask(lead: string, about: State)
    | Missed(about: State)
    | FinanceRecorded | TestDriveRecorded | HowWasIt | WhichCar | CarDetails | CarDetailsAgain
    | CarSpecs | SendPhotos | SendMorePhotos | EnoughPhotos | WhenInspect | InspectionRecorded

  datatype Outcome = Outcome(next: State, reply: Reply, intent: Intent, status: Status, patch: Data)

  /** An outcome, and whether stale answers are deleted before its patch is applied. */
  datatype Turn = Turn(wiped: bool, outcome: Outcome)

  /** What is read off a message: the budget with its plausibility signal, the model year among its numbers, a tapped
      choice (-1 when none) or selection (0 when none), brand and model, and the text left when known words are gone. */
  datatype Parsers = Parsers(
    budget: string -> (int, int), signal: string -> bool, year: string -> Option<int>,
    choice: string -> int, selection: string -> nat, brandModel: string -> (string, string),
    dropNoise: string -> string, stripKnown: string -> string, stripCurrency: string -> string,
    saleYear: string -> Option<int>, registration: string -> string, mileage: string -> Option<nat>, maxYear: int)

  /** extractBrandModel's promise: no model without a brand. */
  ghost predicate Sound(p: Parsers) {
    forall s :: p.brandModel(s).1 != "" ==> p.brandModel(s).0 != ""
  }

  // ---- words ----

  function Straighten(s: string): (r: string)
    ensures |r| == |s|
  {
    if s == "" then "" else [if s[0] == '\U{2019}' || s[0] == '\U{2018}' then '\'' else s[0]] + Straighten(s[1..])
  }

  function Norm(s: string): string {
    Trim(Lower(Straighten(s)))
  }

  lemma {:induction false} BlankRight(s: string)
    requires TrimRight(s, IsSpace) == ""
    ensures s == "" || IsSpace(s[0])
  {
    if s != "" {
      BlankRight(s[..|s| - 1]);
    }
  }

  lemma {:induction false} SpacesStayThemselves(s: string)
    requires TrimLeft(s, IsSpace) == ""
    ensures TrimLeft(Lower(Straighten(s)), IsSpace) == ""
  {
    if s != "" {
      assert IsSpace(s[0]);
      SpacesStayThemselves(s[1..]);
      var t := Lower(Straighten(s));
      assert t[0] == s[0] && t[1..] == Lower(Straighten(s[1..]));
    }
  }

  /** A message that is blank is still blank after folding quotes and letters. */
  lemma BlankIsBlank(body: string)
    ensures Trim(body) == "" ==> Norm(body) == ""
  {
    if Trim(body) == "" {
      BlankRight(TrimLeft(body, IsSpace));
      SpacesStayThemselves(body);
    }
  }

  predicate ContainsOne(b: string, words: seq<string>) {
    exists i | 0 <= i < |words| :: Contains(b, words[i])
  }

  function FirstContained(b: string, words: seq<string>): (r: string)
    ensures r == "" || r in words
  {
    if words == [] then "" else if Contains(b, words[0]) then words[0] else FirstContained(b, words[1..])
  }

  function Upper(s: string): (r: string)
    ensures |r| == |s|
  {
    if s == "" then "" else [if 'a' <= s[0] <= 'z' then s[0] - 'a' + 'A' else s[0]] + Upper(s[1..])
  }

  function FindFuel(s: string): string {
    Upper(FirstContained(Norm(s), ["petrol", "diesel", "cng", "electric", "hybrid"]))
  }

  function FindTrans(s: string): string {
    Upper(FirstContained(Norm(s), ["automatic", "manual", "amt", "cvt", "dct"]))
  }

  function ChoiceFuel(c: int): string {
    match c
    case 1 => "PETROL"
    case 2 => "DIESEL"
    case 3 => "CNG"
    case 4 => "ELECTRIC"
    case 5 => "HYBRID"
    case 0 => "ANY"
    case _ => ""
  }

  function ChoiceTrans(c: int): string {
    match c
    case 1 => "MANUAL"
    case 2 => "AUTOMATIC"
    case 0 => "ANY"
    case _ => ""
  }

  predicate UnknownBudget(s: string) {
    ContainsOne(Norm(s), ["don't know", "dont know", "not sure", "no idea", "any", "flexible", "skip",
                          "theriyala", "teriyala", "therila", "teliyadu"])
  }

  predicate WantsBuy(b: string) {
    ContainsOne(b, ["buy", "i need a car", "need a car", "looking for", "need car", "venum", "chahiye",
                    "i want a car", "want to buy", "purchase"])
  }

  predicate WantsSell(b: string) {
    Contains(b, "sell")
  }

  predicate Greets(b: string, g: string) {
    b == g || HasPrefix(b, g + " ") || HasSuffix(b, " " + g)
  }

  const GREETINGS := ["hi", "hello", "hey", "yo", "hai", "vanakkam", "namaste", "namaskar",
    "good morning", "good evening", "good afternoon", "h"]

  predicate IsGreeting(body: string) {
    exists i | 0 <= i < |GREETINGS| :: Greets(Norm(body), GREETINGS[i])
  }

  function SplitBrandModel(body: string): (string, string) {
    var parts := Fields(Trim(body));
    if parts == [] then ("", "") else (parts[0], JoinWords(parts[1..]))
  }

  predicate HasBudget(p: Parsers, s: string) {
    p.budget(s).1 > 0
  }

  /** acceptBudget: a budget with a signal, or a large bare figure that is not a mileage. */
  function AcceptBudget(p: Parsers, body: string): Option<(int, int)> {
    var (low, high) := p.budget(body);
    if high <= 0 then None
    else if p.signal(body) then Some((low, high))
    else if !Contains(Lower(body), "km") && high >= 10000 then Some((low, high))
    else None
  }

  predicate IsYearLike(p: Parsers, s: string) {
    var n := ParseInt64(Without(Trim(s), ','));
    n.Some? && 1990 <= n.value <= p.maxYear
  }

  function With(m: Data, k: Key, v: string): Data {
    if v == "" then m else m[k := v]
  }

  /** The hints found in a message as entries of a patch; none is blank. */
  function Hints(budget: Option<(int, int)>, fuel: string, trans: string, year: Option<int>): (r: Data)
    ensures forall k | k in r :: r[k] != ""
    ensures r.Keys <= {BudgetMin, BudgetMax, Fuel, Transmission, YearMin}
    ensures BudgetMax in r <==> budget.Some?
  {
    var m: Data := if budget.None? then map[] else map[BudgetMin := Itoa(budget.value.0), BudgetMax := Itoa(budget.value.1)];
    var m := With(With(m, Fuel, fuel), Transmission, trans);
    if year.None? then m else m[YearMin := Itoa(year.value)]
  }

  /** ExtractAll: every structured hint in one message. */
  function ExtractAll(p: Parsers, body: string): Data {
    Hints(AcceptBudget(p, body), FindFuel(body), FindTrans(body), p.year(body))
  }

  // ---- slots ----

  function Get(data: Data, k: Key): string {
    if k in data then data[k] else ""
  }

  predicate Has(data: Data, k: Key) {
    Get(data, k) != ""
  }

  predicate HasBudgetSlot(data: Data) {
    Has(data, BudgetMax) || Has(data, BudgetUnknown)
  }

  function NextMissingBuy(data: Data): State {
    if !HasBudgetSlot(data) then BUY_BUDGET
    else if !Has(data, Brand) then BUY_BRAND
    else if !Has(data, Model) then BUY_MODEL
    else if !Has(data, Fuel) then BUY_FUEL
    else if !Has(data, Transmission) then BUY_TRANS
    else if !Has(data, YearMin) then BUY_YEAR
    else BUY_RESULTS
  }

  function Merge(a: Data, b: Data): Data {
    map k | k in a.Keys + b.Keys && (Has(a, k) || Has(b, k)) :: if Has(b, k) then Get(b, k) else Get(a, k)
  }

  /** Names the banked brand, model and year. */
  function DescribeFind(m: Data): string {
    var s := Trim(Trim(Get(m, Brand)) + " " + Trim(Get(m, Model)));
    var y := Trim(Get(m, YearMin));
    var s := if y == "" then s else if s == "" then y else s + " " + y;
    if s == "" then "" else s + ". "
  }

  /** A state that waits for one slot. */
  predicate IsSlot(s: State) {
    s.BUY_BUDGET? || s.BUY_BRAND? || s.BUY_MODEL? || s.BUY_FUEL? || s.BUY_TRANS? || s.BUY_YEAR?
  }

  predicate IsSell(s: State) {
    s.SELL_CAR? || s.SELL_YEAR? || s.SELL_DETAILS? || s.SELL_SPECS? || s.SELL_PHOTOS? || s.SELL_INSPECTION?
  }

  // ---- commands that work from any state ----

  datatype Command = MoreCars | AllPhotos | Finance | NotInterested | Thinking | Interested | Confirm | BookTestDrive | Nothing

  function CommandOf(state: State, b: string): Command {
    if Contains(b, "more") && Contains(b, "car") && !IsSell(state) then MoreCars
    else if (ContainsOne(b, ["more photo", "all photo", "send photo"]) || b == "photos" || b == "photo") && state == BUY_RESULTS then AllPhotos
    else if ContainsOne(b, ["finance", "loan", "emi"]) && !IsSell(state) then Finance
    else if ContainsOne(b, ["not interested", "not intrested", "no thanks", "drop"]) then NotInterested
    else if ContainsOne(b, ["think", "decide", "later", "call me back"]) then Thinking
    else if ContainsOne(b, ["interested", "intrested", "i like"]) || (Contains(b, "book") && !Contains(b, "test") && state == BUY_RESULTS) then Interested
    else if (b in ["yes", "yeah", "yep", "yes i like it"] || HasPrefix(b, "confirm")) && state == BUY_RESULTS then Confirm
    else if Contains(b, "test") && Contains(b, "drive") && !IsSell(state) then BookTestDrive
    else Nothing
  }

  function Obey(command: Command, state: State): Outcome {
    match command
    case MoreCars => Outcome(BUY_RESULTS, ShowMore, NoIntent, Unchanged, map[Page := "next"])
    case AllPhotos => Outcome(BUY_RESULTS, ShowPhotos, NoIntent, Unchanged, map[MorePhotos := "1"])
    case Finance => Outcome(FINANCE_INFO, FinanceHelp, NoIntent, FollowUp, map[])
    case NotInterested => Outcome(DONE, NoProblem, NoIntent, Lost, map[Interest := "NOT_INTERESTED"])
    case Thinking => Outcome(state, TakeYourTime, NoIntent, FollowUp, map[Interest := "THINKING"])
    case Interested => Outcome(state, WillCall, NoIntent, Qualified, map[Interest := "INTERESTED"])
    case Confirm => Outcome(state, Confirmed, NoIntent, Qualified, map[Interest := "INTERESTED"])
    case _ => Outcome(TESTDRIVE_ASK, TestDriveHelp, NoIntent, TestDrive, map[])
  }

  // ---- buying ----

  function Buying(next: State, lead: string, patch: Data): Outcome {
    Outcome(next, if next == BUY_RESULTS then Searching else Ask(lead, next), Buy, Qualified, patch)
  }

  /** Moving to the first missing slot once the patch is banked. */
  function ToMissing(data: Data, patch: Data, lead: string): Outcome {
    Buying(NextMissingBuy(Merge(data, patch)), lead, patch)
  }

  function Stay(state: State, reply: Reply, patch: Data): Outcome {
    Outcome(state, reply, Buy, Qualified, patch)
  }

  datatype Opening = Buys | Sells | Names(brand: string, model: string) | Chatter

  /** What a message at the menu asks for; a vehicle without an intent word counts when something is structured in it. */
  function OpeningOf(p: Parsers, body: string): (r: Opening)
    ensures r.Names? ==> r.brand != ""
  {
    var b := if p.choice(body) == 1 then "buy" else if p.choice(body) == 2 then "sell" else Norm(body);
    var (brand, model) := p.brandModel(p.dropNoise(body));
    if WantsBuy(b) then Buys
    else if WantsSell(b) then Sells
    else if brand != "" && (HasDigit(body) || ExtractAll(p, body) != map[]) then Names(brand, model)
    else Chatter
  }

  function Open(p: Parsers, opening: Opening, body: string, data: Data): Outcome {
    match opening
    case Buys => StartBuying(p, body, data)
    case Sells => Outcome(SELL_CAR, WhichCar, Sell, Qualified, map[])
    case Names(brand, model) => DirectSearch(p, body, data, brand, model)
    case Chatter => Outcome(ASK_INTENT, MenuAgain, NoIntent, Contacted, map[])
  }

  function AskIntent(p: Parsers, body: string, data: Data): Outcome {
    Open(p, OpeningOf(p, body), body, data)
  }

  predicate HasDigit(s: string) {
    exists i | 0 <= i < |s| :: IsDigit(s[i])
  }

  function NamePatch(hints: Data, brand: string, model: string): Data {
    if brand == "" then hints else With(hints[Brand := brand], Model, model)
  }

  function StartBuying(p: Parsers, body: string, data: Data): Outcome {
    ToMissing(data, NamePatch(ExtractAll(p, body), p.brandModel(body).0, p.brandModel(body).1), "Great, you want to *BUY*! ")
  }

  /** A search names the model, the brand if there is one, and leaves the other slots open. */
  function DirectPatch(hints: Data, brand: string, model: string): Data {
    var patch := if model != "" then hints[Brand := brand][Model := model] else hints[Model := brand][Brand := "ANY"];
    var patch := patch[BudgetUnknown := "1"];
    var patch := if Has(patch, Fuel) then patch else patch[Fuel := "ANY"];
    if Has(patch, Transmission) then patch else patch[Transmission := "ANY"]
  }

  function DirectSearch(p: Parsers, body: string, data: Data, brand: string, model: string): Outcome {
    var patch := DirectPatch(ExtractAll(p, body), brand, model);
    Outcome(BUY_RESULTS, ShowMatches(DescribeFind(Merge(data, patch))), Buy, Qualified, patch)
  }

  predicate HasLetter(s: string) {
    exists i | 0 <= i < |s| :: 'a' <= s[i] <= 'z' || 'A' <= s[i] <= 'Z'
  }

  /** A short lettered message at the budget step fills the first missing of brand and model. */
  function BankName(p: Parsers, body: string, data: Data, patch: Data): Data {
    var (brand, model) := p.brandModel(body);
    if brand != "" && !HasBudget(p, brand) && HasLetter(brand) && |Fields(body)| <= 4 && !HasSuffix(Trim(body), "?") then
      if !Has(data, Brand) then
        if model != "" && !HasBudget(p, model) && !Has(data, Model) then patch[Brand := brand][Model := model] else patch[Brand := brand]
      else if !Has(data, Model) && !HasBudget(p, Trim(brand + " " + model)) then patch[Model := Trim(brand + " " + model)]
      else patch
    else patch
  }

  function SkipBudget(data: Data): Outcome {
    var patch := map[BudgetUnknown := "1"];
    var next := NextMissingBuy(Merge(data, patch));
    if next == BUY_BRAND then Stay(BUY_BRAND, NoWorries, patch) else Buying(next, "Noted \U{2014} no budget filter. ", patch)
  }

  function TakeBudget(data: Data, patch: Data, accepted: bool): Outcome {
    if accepted then ToMissing(data, patch, "Noted budget. ")
    else if patch != map[] then Stay(BUY_BUDGET, Ask("Got it \U{2014} " + DescribeFind(Merge(data, patch)), BUY_BUDGET), patch)
    else Stay(BUY_BUDGET, Missed(BUY_BUDGET), patch)
  }

  function BudgetStep(p: Parsers, body: string, data: Data): Outcome {
    if UnknownBudget(body) || p.choice(body) == 0 then SkipBudget(data)
    else TakeBudget(data, BankName(p, body, data, ExtractAll(p, body)), AcceptBudget(p, body).Some?)
  }

  function BrandName(p: Parsers, body: string, patch: Data): Data {
    var (brand, model) := p.brandModel(body);
    var rest := p.stripKnown(p.stripCurrency(Lower(body)));
    var (first, others) := SplitBrandModel(rest);
    if brand != "" && model != "" then patch[Brand := brand][Model := model]
    else if brand != "" then patch[Brand := brand]
    else if others != "" then patch[Brand := first][Model := others]
    else patch[Brand := Trim(rest)]
  }

  function BrandHints(p: Parsers, body: string): Data {
    With(With(map[], Fuel, FindFuel(body)), Transmission, FindTrans(body)) + (ExtractAll(p, body) - {Fuel, Transmission})
  }

  function HintsOnly(data: Data, hints: Data): Outcome {
    if hints != map[] then
      var next := NextMissingBuy(Merge(data, hints));
      Stay(next, Ask("Got it. ", next), hints)
    else Stay(BUY_BRAND, Missed(BUY_BRAND), hints)
  }

  function TakeBrand(data: Data, patch: Data): Outcome {
    if Has(Merge(data, patch), Model) && !Has(Merge(data, patch), Fuel) then Stay(BUY_FUEL, Ask("Noted. ", BUY_FUEL), patch)
    else ToMissing(data, patch, "")
  }

  function BrandStep(p: Parsers, body: string, data: Data): Outcome {
    var b := Norm(body);
    if p.choice(body) == 0 || b == "" || b == "any" || b == "no" then ToMissing(data, map[Brand := "ANY"], "")
    else if p.stripKnown(body) == "" then HintsOnly(data, BrandHints(p, body))
    else TakeBrand(data, BrandName(p, body, BrandHints(p, body)))
  }

  /** Filling slot k with the answer found in a message, or asking again. */
  function FillStep(state: State, data: Data, patch: Data, k: Key, answer: Option<string>, lead: string): Outcome {
    match answer
    case Some(v) => ToMissing(data, patch[k := v], lead)
    case None => Stay(state, Missed(state), patch)
  }

  function ModelAnswer(p: Parsers, body: string, yearKnown: bool): (r: Option<string>)
    ensures r.Some? ==> r.value != ""
  {
    var b := Norm(body);
    if b == "" || b == "any" || b == "no" || p.choice(body) == 0 then Some("ANY")
    else if p.stripKnown(body) != "" then Some(p.stripKnown(body))
    else if yearKnown && IsYearLike(p, body) then Some(Trim(body))
    else None
  }

  function ModelStep(p: Parsers, body: string, data: Data): Outcome {
    FillStep(BUY_MODEL, data, ExtractAll(p, body), Model, ModelAnswer(p, body, Has(data, YearMin)), "Noted. ")
  }

  /** The answer at a step with fixed choices: a known word, a tapped choice, "any", else the message itself unless
      it was about something else. */
  function ChoiceAnswer(body: string, word: string, tapped: string, otherwise: bool): (r: Option<string>)
    ensures r.Some? ==> r.value != ""
  {
    var b := Norm(body);
    if word != "" then Some(word)
    else if tapped != "" then Some(tapped)
    else if Contains(b, "any") || b == "" || b == "no" || b == "skip" then Some("ANY")
    else if otherwise then None
    else BlankIsBlank(body); Some(Trim(body))
  }

  function FuelStep(p: Parsers, body: string, data: Data): Outcome {
    FillStep(BUY_FUEL, data, ExtractAll(p, body) - {Fuel}, Fuel,
             ChoiceAnswer(body, FindFuel(body), ChoiceFuel(p.choice(body)), FindTrans(body) != "" || HasBudget(p, body)), "")
  }

  function TransStep(p: Parsers, body: string, data: Data): Outcome {
    FillStep(BUY_TRANS, data, ExtractAll(p, body) - {Transmission}, Transmission,
             ChoiceAnswer(body, FindTrans(body), ChoiceTrans(p.choice(body)), FindFuel(body) != "" || HasBudget(p, body)), "")
  }

  function YearStep(p: Parsers, body: string): Outcome {
    var b := Norm(body);
    var y := ParseInt64(FirstDigits(b));
    var patch: Data := if !Contains(b, "any") && y.Some? && 1995 <= y.value <= p.maxYear then map[YearMin := Itoa(y.value)] else map[];
    Buying(BUY_RESULTS, "", patch)
  }

  function Results(p: Parsers, body: string): Outcome {
    var n := p.selection(body);
    Stay(BUY_RESULTS, ResultsHelp, if n > 0 then map[SelectIdx := Itoa(n)] else map[])
  }

  // ---- selling and the rest ----

  function AfterTestDrive(p: Parsers, body: string): Outcome {
    var b, c := Norm(body), p.choice(body);
    var verdict :=
      if 1 <= c <= 3 then c
      else if ContainsOne(b, ["not interested", "not intrested", "no thanks", "drop"]) then 3
      else if ContainsOne(b, ["think", "decide", "later", "call me back", "thinking"]) then 2
      else if ContainsOne(b, ["interested", "intrested", "i like"]) then 1
      else 0;
    match verdict
    case 1 => Outcome(DONE, TakeItForward, NoIntent, Qualified, map[Interest := "INTERESTED", PostTestDrive := "1"])
    case 2 => Outcome(DONE, TakeYourTime, NoIntent, FollowUp, map[Interest := "THINKING", PostTestDrive := "1"])
    case 3 => Outcome(DONE, NoProblem, NoIntent, Lost, map[Interest := "NOT_INTERESTED", PostTestDrive := "1"])
    case _ => Outcome(POST_TESTDRIVE_FOLLOWUP, HowWasIt, NoIntent, Unchanged, map[])
  }

  function Selling(next: State, reply: Reply, patch: Data): Outcome {
    Outcome(next, reply, Sell, Qualified, patch)
  }

  function SellCarStep(car: (string, string)): Outcome {
    Selling(SELL_DETAILS, CarDetails, map[SellBrand := car.0, SellModel := car.1])
  }

  function SellPatch(p: Parsers, body: string): Data {
    var patch: Data := With(map[SellYearKm := Trim(body)], SellReg, p.registration(body));
    var year, km := p.saleYear(body), p.mileage(body);
    var patch := if year.None? then patch else patch[SellYear := Itoa(year.value)];
    if km.None? then patch else if km.value > 2000000 then patch[SellKmFlag := "unrealistic"] else patch[SellKm := Itoa(km.value)]
  }

  function SellDetails(data: Data, patch: Data): Outcome {
    var merged := Merge(data, patch);
    if !Has(merged, SellYear) && !Has(merged, SellKm) then Selling(SELL_DETAILS, CarDetailsAgain, patch)
    else Selling(SELL_SPECS, CarSpecs, patch)
  }

  function SpecsPatch(body: string): Data {
    With(With(map[], SellFuel, FindFuel(body)), SellTrans, FindTrans(body))[SellSpecs := Trim(body)]
  }

  function WithLocation(patch: Data, parts: seq<string>): Data {
    if |parts| >= 2 then With(patch, SellLocation, Trim(parts[|parts| - 1])) else patch
  }

  function SellSpecsStep(body: string): Outcome {
    Selling(SELL_PHOTOS, SendPhotos, WithLocation(SpecsPatch(body), Split(body, ',')))
  }

  function SellPhotosStep(p: Parsers, body: string, data: Data): Outcome {
    var n := ParseInt64(Get(data, SellPhotos));
    if Contains(Norm(body), "done") || p.choice(body) == 1 then Selling(SELL_INSPECTION, WhenInspect, map[])
    else Selling(SELL_PHOTOS, if n.Some? && n.value >= 10 then EnoughPhotos else SendMorePhotos, map[])
  }

  function Dispatch(p: Parsers, state: State, body: string, data: Data): Outcome
    requires !state.Unknown? && !state.NEW? && !state.DONE?
  {
    match state
    case ASK_INTENT => AskIntent(p, body, data)
    case BUY_BUDGET => BudgetStep(p, body, data)
    case BUY_BRAND => BrandStep(p, body, data)
    case BUY_MODEL => ModelStep(p, body, data)
    case BUY_FUEL => FuelStep(p, body, data)
    case BUY_TRANS => TransStep(p, body, data)
    case BUY_YEAR => YearStep(p, body)
    case BUY_RESULTS => Results(p, body)
    case FINANCE_INFO => Outcome(DONE, FinanceRecorded, NoIntent, FollowUp, map[FinanceRaw := Trim(body)])
    case TESTDRIVE_ASK => Outcome(DONE, TestDriveRecorded, NoIntent, TestDrive, map[TestDriveRaw := Trim(body)])
    case POST_TESTDRIVE_FOLLOWUP => AfterTestDrive(p, body)
    case SELL_CAR => SellCarStep(SplitBrandModel(body))
    case SELL_YEAR => Selling(SELL_SPECS, CarSpecs, map[SellYearKm := Trim(body)])
    case SELL_DETAILS => SellDetails(data, SellPatch(p, body))
    case SELL_SPECS => SellSpecsStep(body)
    case SELL_PHOTOS => SellPhotosStep(p, body, data)
    case SELL_INSPECTION => Outcome(DONE, InspectionRecorded, Sell, FollowUp, map[InspectionRaw := Trim(body)])
  }

  /** A message outside NEW and DONE. */
  function Direct(p: Parsers, command: Command, state: State, body: string, data: Data): Outcome
    requires !state.Unknown? && !state.NEW? && !state.DONE?
  {
    if command != Nothing then Obey(command, state) else Dispatch(p, state, body, data)
  }

  /** The menu's turn, reached again from NEW and DONE. */
  function FromMenu(p: Parsers, body: string, data: Data): Outcome {
    Direct(p, CommandOf(ASK_INTENT, Norm(body)), ASK_INTENT, body, data)
  }

  function Act(p: Parsers, command: Command, state: State, body: string, data: Data, hasIntent: bool, greets: bool): Turn {
    if state.Unknown? then Turn(false, Outcome(ASK_INTENT, Recover, NoIntent, Contacted, map[]))
    else if command != Nothing then Turn(false, Obey(command, state))
    else if state.NEW? then
      Turn(false, if hasIntent then FromMenu(p, body, data) else Outcome(ASK_INTENT, Menu, NoIntent, Contacted, map[]))
    else if state.DONE? then
      if greets then Turn(true, Outcome(ASK_INTENT, WelcomeBack, NoIntent, Contacted, map[]))
      else Turn(true, FromMenu(p, body, map[]))
    else Turn(false, Dispatch(p, state, body, data))
  }

  /** Next: what one message does. */
  function Next(p: Parsers, state: State, body: string, data: Data): Turn {
    Act(p, CommandOf(state, Norm(body)), state, body, data, WantsBuy(Norm(body)) || WantsSell(Norm(body)), IsGreeting(body))
  }

  /** Applying a turn: deletions first, then every entry of the patch. */
  function Apply(data: Data, t: Turn): Data {
    (if t.wiped then map[] else data) + t.outcome.patch
  }
}
