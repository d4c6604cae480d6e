/** Reading a pasted stock list: the tokens of a line to the left of its status, column by column. The lists of
    locations, brands and upholsteries are parameters, longest name first as the script sorts them. */
module StockParser {
  import opened Wrappers
  import opened Text

  datatype Lexicon = Lexicon(locations: seq<seq<string>>, brands: seq<seq<string>>,
                             upholsteries: set<seq<string>>, colours: set<string>)

  // ---- token shapes ----

  predicate IsUpper(c: char) {
    'A' <= c <= 'Z'
  }

  predicate IsAlnum(c: char) {
    IsDigit(c) || IsUpper(c) || 'a' <= c <= 'z'
  }

  /** a capitals, then d digits, then z capitals, and nothing else. */
  predicate Shape(t: string, a: nat, d: nat, z: nat) {
    |t| == a + d + z &&
    forall i | 0 <= i < |t| :: if a <= i < a + d then IsDigit(t[i]) else IsUpper(t[i])
  }

  /** CODE_RE */
  predicate IsCode(t: string) {
    t == "-" || exists a, d, z | 1 <= a <= 2 && 1 <= d <= 2 && 0 <= z <= 1 :: Shape(t, a, d, z)
  }

  /** PLATE_FULL_RE */
  predicate IsPlate(t: string) {
    exists a, d, z | 1 <= a <= 3 && 1 <= d <= 4 && 0 <= z <= 3 :: Shape(t, a, d, z)
  }

  /** YEAR_RE */
  predicate IsYear(t: string) {
    |t| == 4 && AllDigits(t) && (t[..2] == "19" || t[..2] == "20")
  }

  predicate DateShape(t: string, d: nat, m: nat, y: nat) {
    |t| == d + m + y + 2 &&
    forall i | 0 <= i < |t| :: if i == d || i == d + m + 1 then t[i] == '.' || t[i] == '/' else IsDigit(t[i])
  }

  /** DATE_RE */
  predicate IsDate(t: string) {
    exists d, m, y | 1 <= d <= 2 && 1 <= m <= 2 && 2 <= y <= 4 :: DateShape(t, d, m, y)
  }

  /** NUM_RE */
  predicate IsNum(t: string) {
    t != "" && forall i | 0 <= i < |t| :: IsDigit(t[i]) || t[i] == ','
  }

  // ---- results ----

  datatype Reason = EmptyLeft | UnknownLocation | UnknownBrand | NoYear | BadYear | BadMerged | Truncated | BadDate
    | BadMileage | NoColour | MileageOfCommas

  /** What a stage read off the front, and the tokens after it. Reading "," as a mileage stops the script. */
  datatype Step<T> = Got(part: T, rest: seq<string>) | Fail(reason: Reason)

  datatype Head = Head(stock: seq<string>, location: seq<string>, overridden: bool)
  datatype Model = Model(brand: seq<string>, words: seq<string>, code: string, year: string)
  datatype Plate = Merged(reg: string, chassis: string) | Apart(reg: string, parens: seq<string>, chassis: string)
  datatype Papers = Papers(plate: Plate, oldReg: string, purchaser: seq<string>, date: string, mileage: string)
  datatype Finish = Finish(colour: seq<string>, upholstery: seq<string>)
  datatype Parts = Parts(head: Head, model: Model, papers: Papers, finish: Finish)

  const INCOMING := ["Incoming", "Stock"]

  function HeadTokens(h: Head): seq<string> {
    h.stock + h.location
  }

  function ModelTokens(m: Model): seq<string> {
    m.brand + m.words + [m.code, m.year]
  }

  function PlateTokens(p: Plate): seq<string> {
    match p
    case Merged(reg, chassis) => [reg + chassis]
    case Apart(reg, parens, chassis) => [reg] + parens + [chassis]
  }

  function PapersTokens(p: Papers): seq<string> {
    PlateTokens(p.plate) + [p.oldReg] + p.purchaser + [p.date, p.mileage]
  }

  /** The columns put back in order. */
  function Tokens(p: Parts): seq<string> {
    HeadTokens(p.head) + ModelTokens(p.model) + PapersTokens(p.papers) + (p.finish.colour + p.finish.upholstery)
  }

  // ---- longest names ----

  function Width(name: seq<string>): nat {
    if name == [] then 0 else |name[0]| + 1 + Width(name[1..])
  }

  predicate LongestFirst(names: seq<seq<string>>) {
    forall i, j | 0 <= i < j < |names| :: Width(names[j]) <= Width(names[i])
  }

  function FirstMatch(names: seq<seq<string>>, t: seq<string>): (r: Option<seq<string>>)
    ensures r.Some? ==> r.value in names && r.value <= t
  {
    if names == [] then None else if names[0] <= t then Some(names[0]) else FirstMatch(names[1..], t)
  }

  /** The first name that the tokens begin with is the longest such name. */
  lemma {:induction false} FirstMatchIsLongest(names: seq<seq<string>>, t: seq<string>)
    requires LongestFirst(names)
    ensures
      var r := FirstMatch(names, t);
      forall i | 0 <= i < |names| && names[i] <= t :: r.Some? && Width(names[i]) <= Width(r.value)
  {
    if names != [] && !(names[0] <= t) {
      FirstMatchIsLongest(names[1..], t);
    }
  }

  method MatchName(names: seq<seq<string>>, toks: seq<string>, pos: nat) returns (found: Option<seq<string>>)
    requires pos <= |toks|
    ensures found == FirstMatch(names, toks[pos..])
  {
    var i := 0;
    while i < |names|
      invariant 0 <= i <= |names| && FirstMatch(names, toks[pos..]) == FirstMatch(names[i..], toks[pos..])
    {
      var name := names[i];
      SliceIsPrefix(name, toks, pos);
      if pos + |name| <= |toks| && toks[pos..pos + |name|] == name {
        return Some(name);
      }
      i := i + 1;
    }
    found := None;
  }

  lemma SliceIsPrefix(name: seq<string>, toks: seq<string>, pos: nat)
    requires pos <= |toks|
    ensures name <= toks[pos..] <==> pos + |name| <= |toks| && toks[pos..pos + |name|] == name
  {
    if pos + |name| <= |toks| {
      assert toks[pos..][..|name|] == toks[pos..pos + |name|];
    }
  }

  // ---- stages ----

  /** Stock number, if there is one, and location. */
  function ReadHead(lex: Lexicon, t: seq<string>): (r: Step<Head>)
    requires t != [] ==> t[0] != ""
  {
    if t == [] then Fail(EmptyLeft)
    else
      var incoming := INCOMING <= t;
      var start := if incoming then 2 else if IsDigit(t[0][0]) then 1 else 0;
      match FirstMatch(lex.locations, t[start..])
      case Some(name) => Got(Head(if incoming then [] else t[..start], name, incoming), t[start..][|name|..])
      case None => if incoming then Got(Head([], INCOMING, false), t[2..]) else Fail(UnknownLocation)
  }

  /** The first year that follows a model code, two tokens or more in. */
  function YearAt(t: seq<string>, j: nat): (r: Option<nat>)
    requires j >= 1
    ensures r.Some? ==> j <= r.value < |t| && IsYear(t[r.value]) && IsCode(t[r.value - 1])
    ensures forall k | j <= k < (if r.Some? then r.value else |t|) :: !(IsYear(t[k]) && IsCode(t[k - 1]))
    decreases |t| - j
  {
    if j >= |t| then None
    else if IsYear(t[j]) && IsCode(t[j - 1]) then Some(j)
    else YearAt(t, j + 1)
  }

  function ReadModel(lex: Lexicon, t: seq<string>): (r: Step<Model>)
    ensures r.Got? ==> t == ModelTokens(r.part) + r.rest
  {
    match FirstMatch(lex.brands, t)
    case None => Fail(UnknownBrand)
    case Some(brand) => assert t == brand + t[|brand|..]; ReadYear(brand, t[|brand|..])
  }

  function ReadYear(brand: seq<string>, t: seq<string>): (r: Step<Model>)
    ensures r.Got? ==> brand + t == ModelTokens(r.part) + r.rest
  {
    match YearAt(t, 2)
    case None => Fail(NoYear)
    case Some(j) =>
      if !(1990 <= Value(t[j]) <= 2027) then Fail(BadYear)
      else
        assert t == t[..j - 1] + [t[j - 1], t[j]] + t[j + 1..];
        Got(Model(brand, t[..j - 1], t[j - 1], t[j]), t[j + 1..])
  }

  /** split_merged_reg: the next token when it is the start of this one, else a full plate before 17 or 16 characters. */
  function SplitMerged(tok: string, next: string): (r: Option<(string, string)>)
    ensures r.Some? ==> r.value.0 + r.value.1 == tok
  {
    if next != "" && next <= tok && |tok| - |next| >= 14 then Some((next, tok[|next|..]))
    else if PlateBefore(tok, 17) then Some((tok[..|tok| - 17], tok[|tok| - 17..]))
    else if PlateBefore(tok, 16) then Some((tok[..|tok| - 16], tok[|tok| - 16..]))
    else None
  }

  predicate PlateBefore(tok: string, n: nat) {
    |tok| > n + 2 && n > 0 &&
    var reg, chassis := tok[..|tok| - n], tok[|tok| - n..];
    && |reg| <= 8 && IsPlate(reg) && !IsDigit(chassis[0])
    && forall i | 0 <= i < n :: IsAlnum(chassis[i])
  }

  /** How many tokens belong to parentheticals such as "(Num Retain)". */
  function ParenTokens(t: seq<string>): (n: nat)
    ensures n <= |t|
    decreases |t|
  {
    if t == [] || !HasPrefix(t[0], "(") then 0
    else
      var k := Closing(t);
      if k == |t| then k else k + 1 + ParenTokens(t[k + 1..])
  }

  function Closing(t: seq<string>): (k: nat)
    ensures k <= |t|
  {
    if t == [] || HasSuffix(t[0], ")") then 0 else 1 + Closing(t[1..])
  }

  function ReadPlate(t: seq<string>): (r: Step<Plate>)
    ensures r.Got? ==> t == PlateTokens(r.part) + r.rest
  {
    if t != [] && |t[0]| > 10 then
      match SplitMerged(t[0], if |t| > 1 then t[1] else "")
      case None => Fail(BadMerged)
      case Some((reg, chassis)) => Got(Merged(reg, chassis), t[1..])
    else if |t| < 2 then Fail(Truncated)
    else ReadApart(t, ParenTokens(t[1..]))
  }

  /** Registration, n tokens of parentheticals, chassis. */
  function ReadApart(t: seq<string>, n: nat): (r: Step<Plate>)
    requires |t| >= 2
    ensures r.Got? ==> t == PlateTokens(r.part) + r.rest
  {
    if 1 + n >= |t| then Fail(Truncated)
    else
      assert t == [t[0]] + t[1..1 + n] + [t[1 + n]] + t[2 + n..];
      Got(Apart(t[0], t[1..1 + n], t[1 + n]), t[2 + n..])
  }

  /** Old registration, purchaser if the next token is no date, date and mileage. */
  function AfterPlate(plate: Plate, u: seq<string>): (r: Step<Papers>)
    ensures r.Got? ==> u == [r.part.oldReg] + r.part.purchaser + [r.part.date, r.part.mileage] + r.rest && r.part.plate == plate
  {
    if u == [] then Fail(Truncated)
    else
      var purchaser := if |u| > 1 && !IsDate(u[1]) then [u[1]] else [];
      var d := 1 + |purchaser|;
      if d >= |u| || !IsDate(u[d]) then Fail(BadDate)
      else if d + 1 >= |u| || !IsNum(u[d + 1]) then Fail(BadMileage)
      else if Without(u[d + 1], ',') == "" then Fail(MileageOfCommas)
      else Got(Papers(plate, u[0], purchaser, u[d], u[d + 1]), u[d + 2..])
  }

  function ReadPapers(t: seq<string>): (r: Step<Papers>)
    ensures r.Got? ==> t == PapersTokens(r.part) + r.rest
  {
    match ReadPlate(t)
    case Fail(reason) => Fail(reason)
    case Got(plate, u) => AfterPlate(plate, u)
  }

  predicate IsUpholstery(lex: Lexicon, name: seq<string>) {
    name in lex.upholsteries || (|name| == 1 && name[0] in lex.colours)
  }

  /** Whether the last n tokens name an upholstery. */
  predicate EndsInUpholstery(lex: Lexicon, t: seq<string>, n: nat) {
    0 < n <= |t| && IsUpholstery(lex, t[|t| - n..])
  }

  /** The longest upholstery among the last n tokens or fewer; the last token when none is known. */
  function UpholsteryLength(lex: Lexicon, t: seq<string>, n: nat): (k: nat)
    requires t != [] && n <= |t|
    ensures 1 <= k <= |t| && (k > 1 ==> EndsInUpholstery(lex, t, k))
    ensures forall m: nat | k < m <= n :: !EndsInUpholstery(lex, t, m)
  {
    if n == 0 then 1 else if EndsInUpholstery(lex, t, n) then n else UpholsteryLength(lex, t, n - 1)
  }

  function Least(m: nat, n: nat): nat {
    if m < n then m else n
  }

  function ReadFinish(lex: Lexicon, t: seq<string>): (r: Step<Finish>)
    ensures r.Got? ==> t == r.part.colour + r.part.upholstery && r.rest == []
  {
    if t == [] then Fail(NoColour)
    else
      var k := UpholsteryLength(lex, t, Least(|t|, 7));
      Got(Finish(t[..|t| - k], t[|t| - k..]), [])
  }

  /** The columns after the head. */
  function FromHead(lex: Lexicon, head: Step<Head>): Step<Parts> {
    match head
    case Fail(reason) => Fail(reason)
    case Got(h, t1) =>
      match ReadModel(lex, t1)
      case Fail(reason) => Fail(reason)
      case Got(model, t2) =>
        match ReadPapers(t2)
        case Fail(reason) => Fail(reason)
        case Got(papers, t3) =>
          match ReadFinish(lex, t3)
          case Fail(reason) => Fail(reason)
          case Got(finish, t4) => Got(Parts(h, model, papers, finish), t4)
  }

  /** The left side of parse_line. */
  function ParseLeft(lex: Lexicon, t: seq<string>): Step<Parts>
    requires forall i | 0 <= i < |t| :: t[i] != ""
  {
    FromHead(lex, ReadHead(lex, t))
  }

  // ---- the cursor ----

  method FindYear(toks: seq<string>, pos: nat) returns (at: Option<nat>)
    requires pos <= |toks|
    ensures at == YearAt(toks[pos..], 2)
  {
    var t := toks[pos..];
    var j := pos;
    while j < |toks|
      invariant pos <= j <= |toks|
      invariant j - pos >= 2 ==> YearAt(t, j - pos) == YearAt(t, 2)
    {
      if IsYear(toks[j]) && j - pos >= 2 && IsCode(toks[j - 1]) {
        assert t[j - pos] == toks[j] && t[j - pos - 1] == toks[j - 1];
        return Some(j - pos);
      }
      assert j - pos >= 2 ==> t[j - pos] == toks[j] && t[j - pos - 1] == toks[j - 1];
      j := j + 1;
    }
    at := None;
  }

  method FindClosing(toks: seq<string>, open: nat) returns (end: nat)
    requires open < |toks|
    ensures end == open + Closing(toks[open..])
  {
    end := open;
    while end < |toks| && !HasSuffix(toks[end], ")")
      invariant open <= end <= |toks|
      invariant end + Closing(toks[end..]) == open + Closing(toks[open..])
    {
      assert toks[end..][1..] == toks[end + 1..];
      end := end + 1;
    }
  }

  /** The position from which parentheticals are still to be skipped; the cursor may pass the end by one. */
  function Resume(toks: seq<string>, pos: nat): nat {
    if pos < |toks| then pos + ParenTokens(toks[pos..]) else |toks|
  }

  lemma OneParenthesis(toks: seq<string>, open: nat)
    requires open < |toks| && HasPrefix(toks[open], "(")
    ensures Resume(toks, open + Closing(toks[open..]) + 1) == Resume(toks, open)
  {
    var t := toks[open..];
    var k := Closing(t);
    if k < |t| {
      assert t[k + 1..] == toks[open + k + 1..];
    }
  }

  method SkipParens(toks: seq<string>, pos: nat) returns (end: nat)
    requires pos <= |toks|
    ensures Least(end, |toks|) == Resume(toks, pos)
  {
    end := pos;
    while end < |toks| && HasPrefix(toks[end], "(")
      invariant pos <= end <= |toks| + 1
      invariant Resume(toks, end) == Resume(toks, pos)
      decreases |toks| + 1 - end
    {
      OneParenthesis(toks, end);
      end := FindClosing(toks, end);
      end := end + 1;
    }
  }

  method FindUpholstery(lex: Lexicon, tail: seq<string>) returns (k: nat)
    requires tail != []
    ensures k == UpholsteryLength(lex, tail, Least(|tail|, 7))
  {
    var most := Least(|tail|, 7);
    for n := most downto 0
      invariant n <= most && UpholsteryLength(lex, tail, n) == UpholsteryLength(lex, tail, most)
    {
      if IsUpholstery(lex, tail[|tail| - (n + 1)..]) {
        return n + 1;
      }
    }
    k := 1;
  }

  lemma ApartSlices(toks: seq<string>, start: nat, n: nat)
    requires start + 1 + n < |toks|
    ensures ReadApart(toks[start..], n)
         == Got(Apart(toks[start], toks[start + 1..start + 1 + n], toks[start + 1 + n]), toks[start + 2 + n..])
  {
    assert toks[start..][1..1 + n] == toks[start + 1..start + 1 + n];
    assert toks[start..][2 + n..] == toks[start + 2 + n..];
  }

  lemma PlateApart(toks: seq<string>, start: nat)
    requires start + 1 < |toks| && |toks[start]| <= 10
    ensures ReadPlate(toks[start..]) == ReadApart(toks[start..], ParenTokens(toks[start + 1..]))
  {
    assert toks[start..][1..] == toks[start + 1..];
  }

  method ParseApart(toks: seq<string>, start: nat) returns (r: Option<Plate>, pos: nat)
    requires start + 1 < |toks|
    ensures
      match ReadApart(toks[start..], ParenTokens(toks[start + 1..]))
      case Got(plate, rest) => r == Some(plate) && pos <= |toks| && toks[pos..] == rest
      case Fail(why) => r.None? && why == Truncated
  {
    pos := start + 1;
    pos := SkipParens(toks, pos);
    if pos >= |toks| {
      return None, pos;
    }
    ApartSlices(toks, start, pos - start - 1);
    r, pos := Some(Apart(toks[start], toks[start + 1..pos], toks[pos])), pos + 1;
  }

  method ParsePlate(toks: seq<string>, start: nat) returns (r: Option<Plate>, pos: nat, reason: Reason)
    requires start <= |toks|
    ensures
      match ReadPlate(toks[start..])
      case Got(plate, rest) => r == Some(plate) && pos <= |toks| && toks[pos..] == rest
      case Fail(why) => r.None? && reason == why
  {
    pos, reason := start, Truncated;
    if pos < |toks| && |toks[pos]| > 10 {
      var next := if pos + 1 < |toks| then toks[pos + 1] else "";
      var merged := SplitMerged(toks[pos], next);
      if merged.None? {
        return None, pos, BadMerged;
      }
      r, pos := Some(Merged(merged.value.0, merged.value.1)), pos + 1;
      return;
    }
    if pos + 1 >= |toks| {
      return None, pos, Truncated;
    }
    PlateApart(toks, start);
    r, pos := ParseApart(toks, start);
  }

  method ParseHead(lex: Lexicon, toks: seq<string>) returns (r: Option<Head>, pos: nat, reason: Reason)
    requires forall i | 0 <= i < |toks| :: toks[i] != ""
    ensures
      match ReadHead(lex, toks)
      case Got(head, rest) => r == Some(head) && pos <= |toks| && toks[pos..] == rest
      case Fail(why) => r.None? && reason == why
  {
    r, pos, reason := None, 0, EmptyLeft;
    if toks == [] {
      return;
    }
    var stock, location := [], [];
    if |toks| > 1 && toks[0] == "Incoming" && toks[1] == "Stock" {
      assert toks[..2] == INCOMING;
      pos, location := 2, INCOMING;
    } else if IsDigit(toks[0][0]) {
      stock, pos := toks[..1], 1;
    }
    var found := MatchName(lex.locations, toks, pos);
    var overridden := location != [] && found.Some?;
    if found.Some? {
      SliceIsPrefix(found.value, toks, pos);
      location, pos := found.value, pos + |found.value|;
    } else if location == [] {
      return None, pos, UnknownLocation;
    }
    r := Some(Head(stock, location, overridden));
  }

  method ParseYear(brand: seq<string>, toks: seq<string>, start: nat) returns (r: Option<Model>, pos: nat, reason: Reason)
    requires start <= |toks|
    ensures
      match ReadYear(brand, toks[start..])
      case Got(model, rest) => r == Some(model) && pos <= |toks| && toks[pos..] == rest
      case Fail(why) => r.None? && reason == why
  {
    r, pos, reason := None, start, NoYear;
    var at := FindYear(toks, pos);
    if at.None? {
      return;
    }
    var year := pos + at.value;
    if !(1990 <= Value(toks[year]) <= 2027) {
      return None, pos, BadYear;
    }
    r := Some(Model(brand, toks[pos..year - 1], toks[year - 1], toks[year]));
    assert toks[pos..][..at.value - 1] == toks[pos..year - 1];
    assert toks[pos..][at.value + 1..] == toks[year + 1..];
    pos := year + 1;
  }

  method ParseModel(lex: Lexicon, toks: seq<string>, start: nat) returns (r: Option<Model>, pos: nat, reason: Reason)
    requires start <= |toks|
    ensures
      match ReadModel(lex, toks[start..])
      case Got(model, rest) => r == Some(model) && pos <= |toks| && toks[pos..] == rest
      case Fail(why) => r.None? && reason == why
  {
    r, pos, reason := None, start, UnknownBrand;
    var brand := MatchName(lex.brands, toks, pos);
    if brand.None? {
      return;
    }
    SliceIsPrefix(brand.value, toks, pos);
    pos := pos + |brand.value|;
    assert toks[start..][|brand.value|..] == toks[pos..];
    r, pos, reason := ParseYear(brand.value, toks, pos);
  }

  method ParsePapers(toks: seq<string>, start: nat) returns (r: Option<Papers>, pos: nat, reason: Reason)
    requires start <= |toks|
    ensures
      match ReadPapers(toks[start..])
      case Got(papers, rest) => r == Some(papers) && pos <= |toks| && toks[pos..] == rest
      case Fail(why) => r.None? && reason == why
  {
    var plate;
    r := None;
    plate, pos, reason := ParsePlate(toks, start);
    if plate.None? {
      return;
    }
    r, pos, reason := ParseAfterPlate(toks, pos, plate.value);
  }

  method ParseAfterPlate(toks: seq<string>, start: nat, plate: Plate) returns (r: Option<Papers>, pos: nat, reason: Reason)
    requires start <= |toks|
    ensures
      match AfterPlate(plate, toks[start..])
      case Got(papers, rest) => r == Some(papers) && pos <= |toks| && toks[pos..] == rest
      case Fail(why) => r.None? && reason == why
  {
    r, pos, reason := None, start, Truncated;
    ghost var u := toks[start..];
    if pos >= |toks| {
      return;
    }
    var oldReg, purchaser := toks[pos], [];
    pos := pos + 1;
    if pos < |toks| && !IsDate(toks[pos]) {
      purchaser, pos := [toks[pos]], pos + 1;
    }
    assert pos - start == 1 + |purchaser|;
    if pos >= |toks| || !IsDate(toks[pos]) {
      return None, pos, BadDate;
    }
    var date := toks[pos];
    pos := pos + 1;
    if pos >= |toks| || !IsNum(toks[pos]) {
      return None, pos, BadMileage;
    }
    if Without(toks[pos], ',') == "" {
      return None, pos, MileageOfCommas;
    }
    r := Some(Papers(plate, oldReg, purchaser, date, toks[pos]));
    assert u[pos - start + 1..] == toks[pos + 1..];
    pos := pos + 1;
  }

  method ParseFinish(lex: Lexicon, toks: seq<string>, pos: nat) returns (r: Option<Finish>)
    requires pos <= |toks|
    ensures
      match ReadFinish(lex, toks[pos..])
      case Got(finish, rest) => r == Some(finish) && rest == []
      case Fail(why) => r.None? && why == NoColour
  {
    var tail := toks[pos..];
    if tail == [] {
      return None;
    }
    var k := FindUpholstery(lex, tail);
    r := Some(Finish(tail[..|tail| - k], tail[|tail| - k..]));
  }

  /** parse_line, left of the status: one cursor moving over the tokens. */
  method ParseLine(lex: Lexicon, toks: seq<string>) returns (r: Step<Parts>)
    requires forall i | 0 <= i < |toks| :: toks[i] != ""
    ensures r == ParseLeft(lex, toks)
  {
    var head, pos, reason := ParseHead(lex, toks);
    if head.None? {
      return Fail(reason);
    }
    var model;
    model, pos, reason := ParseModel(lex, toks, pos);
    if model.None? {
      return Fail(reason);
    }
    var papers;
    papers, pos, reason := ParsePapers(toks, pos);
    if papers.None? {
      return Fail(reason);
    }
    var finish := ParseFinish(lex, toks, pos);
    if finish.None? {
      return Fail(NoColour);
    }
    r := Got(Parts(head.value, model.value, papers.value, finish.value), []);
  }

  // ---- nothing is lost ----

  function Start(t: seq<string>): nat
    requires t != [] && t[0] != ""
  {
    if INCOMING <= t then 2 else if IsDigit(t[0][0]) then 1 else 0
  }

  lemma HeadWithLocation(t: seq<string>, start: nat, name: seq<string>)
    requires start <= |t| && name <= t[start..]
    ensures t == t[..start] + name + t[start..][|name|..]
  {
    var u := t[start..];
    assert u == name + u[|name|..];
    assert t == t[..start] + u;
  }

  lemma HeadAt(lex: Lexicon, t: seq<string>, name: seq<string>)
    requires t != [] && t[0] != "" && FirstMatch(lex.locations, t[Start(t)..]) == Some(name)
    ensures ReadHead(lex, t) == Got(Head(if INCOMING <= t then [] else t[..Start(t)], name, INCOMING <= t), t[Start(t)..][|name|..])
  {
  }

  lemma HeadUnplaced(lex: Lexicon, t: seq<string>)
    requires t != [] && t[0] != "" && FirstMatch(lex.locations, t[Start(t)..]).None? && INCOMING <= t
    ensures ReadHead(lex, t) == Got(Head([], INCOMING, false), t[2..]) && t == INCOMING + t[2..]
  {
    assert t[..2] == INCOMING;
  }

  /** Whether the tokens are what the head read, what it dropped, and what it left. */
  predicate HeadAccounts(t: seq<string>, h: Head, rest: seq<string>) {
    t == (if h.overridden then INCOMING else []) + HeadTokens(h) + rest
  }

  lemma IncomingAccounts(t: seq<string>, name: seq<string>, rest: seq<string>)
    requires INCOMING <= t && t == t[..2] + name + rest
    ensures HeadAccounts(t, Head([], name, true), rest)
  {
    assert t[..2] == INCOMING && [] + name == name;
  }

  lemma StockAccounts(t: seq<string>, n: nat, name: seq<string>, rest: seq<string>)
    requires n <= |t| && t == t[..n] + name + rest
    ensures HeadAccounts(t, Head(t[..n], name, false), rest)
  {
    assert [] + (t[..n] + name) == t[..n] + name;
  }

  lemma HeadIsRebuilt(lex: Lexicon, t: seq<string>)
    requires t != [] && t[0] != "" && ReadHead(lex, t).Got?
    ensures
      var Got(h, rest) := ReadHead(lex, t);
      && HeadAccounts(t, h, rest)
      && (h.overridden <==> INCOMING <= t && FirstMatch(lex.locations, t[2..]).Some?)
  {
    match FirstMatch(lex.locations, t[Start(t)..])
    case Some(name) =>
      var rest := t[Start(t)..][|name|..];
      HeadAt(lex, t, name);
      HeadWithLocation(t, Start(t), name);
      if INCOMING <= t {
        IncomingAccounts(t, name, rest);
      } else {
        StockAccounts(t, Start(t), name, rest);
      }
    case None =>
      HeadUnplaced(lex, t);
      StockAccounts(t, 0, INCOMING, t[2..]);
  }

  lemma ThreePieces(t1: seq<string>, a: seq<string>, t2: seq<string>, b: seq<string>, c: seq<string>)
    requires t1 == a + t2 && t2 == b + c
    ensures t1 == a + b + c
  {
  }

  /** An accepted line is its columns in order, unless a second location overrode the words "Incoming Stock":
      those two are the only tokens that no column keeps. */
  lemma LineIsRebuilt(lex: Lexicon, t: seq<string>)
    requires forall i | 0 <= i < |t| :: t[i] != ""
    ensures
      var r := ParseLeft(lex, t);
      r.Got? ==>
        && t == (if r.part.head.overridden then INCOMING else []) + Tokens(r.part)
        && (t == Tokens(r.part) <==> !(INCOMING <= t && FirstMatch(lex.locations, t[2..]).Some?))
  {
    if ParseLeft(lex, t).Got? {
      HeadIsRebuilt(lex, t);
      var Got(h, t1) := ReadHead(lex, t);
      var p := ParseLeft(lex, t).part;
      PiecesAreRebuilt(lex, h, t1);
      LeadAndRest(if h.overridden then INCOMING else [], p, t1);
    }
  }

  lemma LeadAndRest(lead: seq<string>, p: Parts, rest: seq<string>)
    requires rest == ModelTokens(p.model) + PapersTokens(p.papers) + (p.finish.colour + p.finish.upholstery)
    ensures lead + HeadTokens(p.head) + rest == lead + Tokens(p)
    ensures lead + Tokens(p) == Tokens(p) <==> lead == []
  {
    Regroup(HeadTokens(p.head), ModelTokens(p.model), PapersTokens(p.papers), p.finish.colour + p.finish.upholstery);
    Associate(lead, HeadTokens(p.head), rest);
    assert |lead + Tokens(p)| == |lead| + |Tokens(p)|;
    assert [] + Tokens(p) == Tokens(p);
  }

  lemma Associate(a: seq<string>, b: seq<string>, c: seq<string>)
    ensures a + b + c == a + (b + c)
  {
  }

  lemma PiecesAreRebuilt(lex: Lexicon, h: Head, t1: seq<string>)
    ensures
      var r := FromHead(lex, Got(h, t1));
      r.Got? ==> t1 == ModelTokens(r.part.model) + PapersTokens(r.part.papers) + (r.part.finish.colour + r.part.finish.upholstery)
  {
    var r := FromHead(lex, Got(h, t1));
    if r.Got? {
      var t2 := ReadModel(lex, t1).rest;
      var t3 := ReadPapers(t2).rest;
      ThreePieces(t1, ModelTokens(r.part.model), t2, PapersTokens(r.part.papers), t3);
    }
  }

  lemma Regroup(a: seq<string>, b: seq<string>, c: seq<string>, d: seq<string>)
    ensures a + (b + c + d) == a + b + c + d
  {
  }

  /** The chosen location and brand are the longest that fit, and the upholstery the longest of up to seven tokens. */
  lemma ChoicesAreLongest(lex: Lexicon, t: seq<string>)
    requires forall i | 0 <= i < |t| :: t[i] != ""
    requires LongestFirst(lex.locations) && LongestFirst(lex.brands)
    ensures
      var r := ParseLeft(lex, t);
      r.Got? ==>
        var afterHead, tail := ReadHead(lex, t).rest, r.part.finish.colour + r.part.finish.upholstery;
        && (forall i | 0 <= i < |lex.locations| && lex.locations[i] <= t[Start(t)..] :: Width(lex.locations[i]) <= Width(r.part.head.location))
        && (forall i | 0 <= i < |lex.brands| && lex.brands[i] <= afterHead :: Width(lex.brands[i]) <= Width(r.part.model.brand))
        && (forall n: nat | n <= 7 && EndsInUpholstery(lex, tail, n) :: n <= |r.part.finish.upholstery|)
  {
    if ParseLeft(lex, t).Got? {
      FirstMatchIsLongest(lex.locations, t[Start(t)..]);
      FirstMatchIsLongest(lex.brands, ReadHead(lex, t).rest);
    }
  }
}
