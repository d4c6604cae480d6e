/** Checking and normalizing the customer's answer to a question. Regular expressions, e-mail addresses and the
    language layer's readers of years and budgets are parameters. */
module Validate {
  import opened Wrappers
  import opened Text

  datatype Readers = Readers(
    yearRange: string -> (int64, int64),
    budget: string -> (int64, int64),
    regex: (string, string) -> Option<bool>,
    email: string -> bool,
    phoneDigits: string -> string)

  predicate AnyPhraseCut(c: char) {
    c in "!.?,;:-_ "
  }

  const ANY_PHRASES := ["any", "anything", "all", "no preference", "doesn't matter", "doesnt matter",
    "skip", "none", "no", "na", "n/a", "flexible", "whatever", "don't care", "dont care", "both"]

  predicate IsAnyPhrase(s: string) {
    TrimRight(TrimLeft(s, AnyPhraseCut), AnyPhraseCut) in ANY_PHRASES
  }

  // ---- bounds ----

  /** One part of a rule, such as "min:1995": its key and limit, if it has both. */
  function Limit(part: string): Option<(string, int64)> {
    match Cut(Trim(part), ':')
    case None => None
    case Some((key, limit)) =>
      match ParseInt64(Trim(limit))
      case None => None
      case Some(n) => Some((Lower(Trim(key)), n))
  }

  predicate PartHolds(val: int64, part: string) {
    match Limit(part)
    case None => true
    case Some((key, n)) => (key == "min" ==> val >= n) && (key == "max" ==> val <= n)
  }

  predicate AllHold(val: int64, parts: seq<string>)
    ensures AllHold(val, parts) <==> forall i | 0 <= i < |parts| :: PartHolds(val, parts[i])
  {
    parts == [] || (PartHolds(val, parts[0]) && AllHold(val, parts[1..]))
  }

  /** checkNumberBounds: what cannot be read as a limit is ignored. */
  predicate CheckNumberBounds(val: int64, rule: string) {
    AllHold(val, Split(rule, ','))
  }

  predicate Bare(s: string) {
    s != "" && !IsSpace(s[0]) && !IsSpace(s[|s| - 1])
  }

  lemma TrimBare(s: string)
    requires Bare(s)
    ensures Trim(s) == s
  {
  }

  lemma ItoaIsBare(n: int64)
    ensures Bare(Itoa(n))
  {
    ItoaChars(n);
  }

  lemma LimitOfKey(key: string, digits: string, n: int64)
    requires Bare(key) && Bare(digits) && ':' !in key && ParseInt64(digits) == Some(n)
    ensures Limit(key + [':'] + digits) == Some((Lower(key), n))
  {
    var s := key + [':'] + digits;
    assert Trim(s) == s by {
      assert s[0] == key[0] && s[|s| - 1] == digits[|digits| - 1];
      TrimBare(s);
    }
    TrimBare(key);
    TrimBare(digits);
    CutFirst(key, ':', digits);
  }

  lemma SplitTwo(first: string, second: string)
    requires ',' !in first && ',' !in second
    ensures Split(first + [','] + second, ',') == [first, second]
  {
    SplitFirst(first, ',', second);
    SplitWhole(second, ',');
  }

  lemma BothHold(val: int64, first: string, second: string)
    ensures AllHold(val, [first, second]) <==> PartHolds(val, first) && PartHolds(val, second)
  {
    assert [first, second][0] == first && [first, second][1] == second;
  }

  lemma BoundOf(key: string, n: int64)
    requires Bare(key) && ':' !in key && ',' !in key
    ensures Limit(key + [':'] + Itoa(n)) == Some((Lower(key), n))
    ensures ',' !in key + [':'] + Itoa(n)
  {
    ItoaChars(n);
    ItoaIsBare(n);
    ParseItoa(n);
    LimitOfKey(key, Itoa(n), n);
  }

  lemma MinMaxKeys()
    ensures Lower("min") == "min" && Lower("max") == "max"
  {
  }

  function Bound(key: string, n: int64): string {
    key + [':'] + Itoa(n)
  }

  lemma MinBound(n: int64)
    ensures ',' !in Bound("min", n) && Limit(Bound("min", n)) == Some(("min", n))
  {
    BoundOf("min", n);
    MinMaxKeys();
  }

  lemma MaxBound(n: int64)
    ensures ',' !in Bound("max", n) && Limit(Bound("max", n)) == Some(("max", n))
  {
    BoundOf("max", n);
    MinMaxKeys();
  }

  lemma RuleOfBounds(val: int64, a: string, lo: int64, b: string, hi: int64)
    requires ',' !in a && ',' !in b
    ensures Limit(a) == Some(("min", lo)) && Limit(b) == Some(("max", hi)) ==>
              (CheckNumberBounds(val, a + [','] + b) <==> lo <= val <= hi)
  {
    SplitTwo(a, b);
    BothHold(val, a, b);
  }

  /** The rules of the seeded questions mean what they say, for all limits: min:lo,max:hi. */
  lemma MinMaxRule(val: int64, lo: int64, hi: int64)
    ensures CheckNumberBounds(val, Bound("min", lo) + [','] + Bound("max", hi)) <==> lo <= val <= hi
  {
    MinBound(lo);
    MaxBound(hi);
    RuleOfBounds(val, Bound("min", lo), lo, Bound("max", hi), hi);
  }

  // ---- numbers ----

  function Checked(n: int64, rule: string): Option<string> {
    if rule != "" && !CheckNumberBounds(n, rule) then None else Some(Itoa(n))
  }

  /** An integer, else the first run of digits. */
  function IntegerAnswer(clean: string, rule: string): Option<string> {
    match ParseInt64(clean)
    case Some(n) => Checked(n, rule)
    case None =>
      match ParseInt64(FirstDigits(clean))
      case Some(n) => Checked(n, rule)
      case None => None
  }

  /** Four readings of a number, tried in turn: a year or range of years, a budget, an integer, the first digits. */
  function NumberAnswer(rs: Readers, t: string, rule: string): Option<string> {
    var year := rs.yearRange(t).0;
    var (low, high) := rs.budget(Lower(t));
    if year > 0 then Checked(year, rule)
    else if high > 0 then Checked(if low > 0 then low else high, rule)
    else IntegerAnswer(Without(Without(t, ','), ' '), rule)
  }

  /** A decimal within the rule's limits. */
  ghost predicate DecimalWithin(v: string, rule: string) {
    exists n: int64 :: v == Itoa(n) && WithinRule(n, rule)
  }

  predicate WithinRule(n: int64, rule: string) {
    forall i | 0 <= i < |Split(rule, ',')| :: PartHolds(n, Split(rule, ',')[i])
  }

  lemma CheckedIsWithin(n: int64, rule: string)
    ensures Within(Checked(n, rule), rule)
  {
    if rule == "" {
      assert Split(rule, ',') == [""];
      assert Limit("").None?;
    }
    assert CheckNumberBounds(n, rule) || rule == "" ==> WithinRule(n, rule);
  }

  ghost predicate Within(r: Option<string>, rule: string) {
    r.Some? ==> DecimalWithin(r.value, rule)
  }

  lemma IntegerAnswerIsWithin(clean: string, rule: string)
    ensures Within(IntegerAnswer(clean, rule), rule)
  {
    var whole, first := ParseInt64(clean), ParseInt64(FirstDigits(clean));
    if whole.Some? {
      CheckedIsWithin(whole.value, rule);
    } else if first.Some? {
      CheckedIsWithin(first.value, rule);
    }
  }

  lemma NumberAnswerIsWithin(rs: Readers, t: string, rule: string)
    ensures Within(NumberAnswer(rs, t, rule), rule)
  {
    var year := rs.yearRange(t).0;
    var (low, high) := rs.budget(Lower(t));
    if year > 0 {
      CheckedIsWithin(year, rule);
    } else if high > 0 {
      CheckedIsWithin(if low > 0 then low else high, rule);
    } else {
      IntegerAnswerIsWithin(Without(Without(t, ','), ' '), rule);
    }
  }

  // ---- choices ----

  function FirstWhere(vs: seq<string>, p: string -> bool): (r: Option<string>)
    ensures r.Some? ==> r.value in vs && p(r.value)
    ensures r.None? ==> forall i | 0 <= i < |vs| :: !p(vs[i])
  {
    if vs == [] then None else if p(vs[0]) then Some(vs[0]) else FirstWhere(vs[1..], p)
  }

  /** A position in the list, else the same word, else a value that occurs in the answer, else "any". */
  function SelectAnswer(t: string, allowed: seq<string>): (r: Option<string>)
    ensures r.Some? ==> r.value in allowed
  {
    var position := ParseInt64(t);
    if position.Some? && 1 <= position.value <= |allowed| then Some(allowed[position.value - 1])
    else
      var low := Lower(t);
      var same := FirstWhere(allowed, v => Lower(Trim(v)) == low);
      if same.Some? then same
      else
        var inside := FirstWhere(allowed, v => Lower(Trim(v)) != "" && Lower(Trim(v)) != "any" && Contains(low, Lower(Trim(v))));
        if inside.Some? then inside
        else if Contains(low, "any") || Contains(low, "all") || Contains(low, "dont care") then
          FirstWhere(allowed, v => EqualFold(v, "any"))
        else None
  }

  /** The question types that the program tells apart, once trimmed and in lower case; photos and unknown types accept
      any text. */
  datatype Kind = Number | Select | Boolean | FreeText | Phone | Email | Other

  function AnyAnswer(kind: Kind, allowed: seq<string>): string {
    if kind == Number then "0"
    else
      match FirstWhere(allowed, v => kind == Select && EqualFold(v, "any"))
      case Some(v) => v
      case None => "Any"
  }

  function BooleanAnswer(t: string): (r: Option<string>)
    ensures r.None? || r == Some("yes") || r == Some("no")
  {
    if Lower(t) in ["yes", "y", "true", "1", "ya", "ha", "sure", "ok", "okay"] then Some("yes")
    else if Lower(t) in ["no", "n", "false", "0", "nah", "na", "nope"] then Some("no")
    else None
  }

  function TypedAnswer(rs: Readers, t: string, kind: Kind, rule: string, allowed: seq<string>): Option<string> {
    match kind
    case Number => NumberAnswer(rs, t, rule)
    case Select => SelectAnswer(t, allowed)
    case Boolean => BooleanAnswer(t)
    case FreeText => if rule != "" && rs.regex(rule, t) == Some(false) then None else Some(t)
    case Phone => var digits := rs.phoneDigits(t); if 7 <= |digits| <= 15 then Some(digits) else None
    case Email => if rs.email(t) then Some(Lower(t)) else None
    case Other => Some(t)
  }

  /** Validate: the value to record, or None when the answer is rejected. */
  function Validate(rs: Readers, value: string, kind: Kind, rule: string, allowed: seq<string>, required: bool): Option<string> {
    var t := Trim(value);
    if t == "" then if required then None else Some("")
    else if IsAnyPhrase(t) then Some(AnyAnswer(kind, allowed))
    else TypedAnswer(rs, t, kind, rule, allowed)
  }

  /** What a recorded answer looks like: a number is blank, the "0" of an any-phrase, or a decimal that meets every
      limit of the rule; a choice is an allowed value, "Any" or blank. */
  ghost predicate WellTyped(v: string, kind: Kind, rule: string, allowed: seq<string>, required: bool) {
    (v == "" && !required)
    || match kind
       case Number => v == "0" || DecimalWithin(v, rule)
       case Select => v == "Any" || v in allowed
       case Boolean => v == "Any" || v == "yes" || v == "no"
       case _ => true
  }

  lemma RecordedAnswersAreWellTyped(rs: Readers, value: string, kind: Kind, rule: string, allowed: seq<string>, required: bool)
    ensures
      var r := Validate(rs, value, kind, rule, allowed, required);
      r.Some? ==> WellTyped(r.value, kind, rule, allowed, required)
  {
    var t := Trim(value);
    if t != "" {
      if IsAnyPhrase(t) {
        assert WellTyped(AnyAnswer(kind, allowed), kind, rule, allowed, required);
      } else {
        TypedAnswerIsWellTyped(rs, t, kind, rule, allowed, required);
      }
    }
  }

  lemma TypedAnswerIsWellTyped(rs: Readers, t: string, kind: Kind, rule: string, allowed: seq<string>, required: bool)
    ensures
      var r := TypedAnswer(rs, t, kind, rule, allowed);
      r.Some? ==> WellTyped(r.value, kind, rule, allowed, required)
  {
    NumberAnswerIsWithin(rs, t, rule);
  }

  /** A "0" outside the limits of the rule comes from an any-phrase and from nothing else. */
  lemma ZeroOutsideTheRuleIsAnAnyPhrase(rs: Readers, value: string, rule: string, allowed: seq<string>, required: bool)
    ensures Validate(rs, value, Number, rule, allowed, required) == Some("0") && !DecimalWithin("0", rule) ==> IsAnyPhrase(Trim(value))
  {
    NumberAnswerIsWithin(rs, Trim(value), rule);
  }

  /** Any-phrases are compared in lower case only, so an answer without digits is accepted by a number question
      exactly when it is an any-phrase as typed: "any" is, "Any" is not. */
  lemma WordsOnNumberQuestions(rs: Readers, value: string, rule: string, allowed: seq<string>)
    requires Trim(value) != "" && FirstDigits(Trim(value)) == ""
    requires rs.yearRange(Trim(value)).0 <= 0 && rs.budget(Lower(Trim(value))).1 <= 0
    ensures Validate(rs, value, Number, rule, allowed, true).Some? <==> IsAnyPhrase(Trim(value))
  {
    NoDigitsNoNumber(Trim(value));
  }

  lemma NoDigitsNoNumber(t: string)
    requires FirstDigits(t) == ""
    ensures
      var clean := Without(Without(t, ','), ' ');
      ParseInt64(clean).None? && FirstDigits(clean) == ""
  {
    var clean := Without(Without(t, ','), ' ');
    WithoutIsPart(t, ',');
    WithoutIsPart(Without(t, ','), ' ');
    assert forall i | 0 <= i < |clean| :: clean[i] in t;
    var digits := if clean != "" && (clean[0] == '-' || clean[0] == '+') then clean[1..] else clean;
    if digits != "" {
      assert digits[0] in t;
    }
  }

  lemma WithoutIsPart(s: string, c: char)
    ensures forall d | d in Without(s, c) :: d in s
  {
  }

  lemma TitleCaseAnyIsRejected(rs: Readers, rule: string, allowed: seq<string>)
    requires rs.yearRange("Any").0 <= 0 && rs.budget(Lower("Any")).1 <= 0
    ensures Validate(rs, "Any", Number, rule, allowed, true).None?
    ensures Validate(rs, "any", Number, rule, allowed, true) == Some("0")
  {
    AnyIsAnAnyPhrase();
    TrimBare("any");
    TrimBare("Any");
    WordsOnNumberQuestions(rs, "Any", rule, allowed);
  }

  lemma AnyIsAnAnyPhrase()
    ensures IsAnyPhrase("any") && !IsAnyPhrase("Any")
  {
    assert ANY_PHRASES[0] == "any";
    if IsAnyPhrase("Any") {
      AnyPhraseStartsSmall("Any");
    }
  }

  lemma AnyPhrasesAreSmallWords(s: string)
    requires s in ANY_PHRASES
    ensures s != "" && 'a' <= s[0] <= 'z'
  {
  }

  lemma AnyPhraseStartsSmall(t: string)
    requires t != "" && !AnyPhraseCut(t[0]) && IsAnyPhrase(t)
    ensures 'a' <= t[0] <= 'z'
  {
    AnyPhrasesAreSmallWords(TrimRight(t, AnyPhraseCut));
  }

  /** A number is a position in the list of choices, whatever the choices are called. */
  lemma DigitsPickByPosition(rs: Readers, allowed: seq<string>, k: int64, rule: string, required: bool)
    requires 1 <= k <= |allowed|
    ensures Validate(rs, Itoa(k), Select, rule, allowed, required) == Some(allowed[k - 1])
  {
    var t := Itoa(k);
    ParseItoa(k);
    DecimalIsNoAnyPhrase(k);
    assert SelectAnswer(t, allowed) == Some(allowed[k - 1]);
  }

  lemma DecimalIsNoAnyPhrase(k: int64)
    requires k >= 0
    ensures Trim(Itoa(k)) == Itoa(k) && !IsAnyPhrase(Itoa(k))
  {
    var t := Itoa(k);
    ItoaIsBare(k);
    TrimBare(t);
    assert IsDigit(t[0]);
    if IsAnyPhrase(t) {
      AnyPhraseStartsSmall(t);
    }
  }
}
