/** Reading a budget out of free text: "90000", "5 lakh", "5L", the rupee sign and Indian grouping. */
module Budgets {
  import opened Wrappers
  import opened Text
  import opened Prices

  // ---- 64-bit arithmetic ----

  const TWO_64 := 0x1_0000_0000_0000_0000

  /** The value a Go int holds after a computation overflows. */
  function Wrap(n: int): int64 {
    (n + INT64_MAX + 1) % TWO_64 - INT64_MAX - 1
  }

  /** v * 8 / 10; Go's division truncates toward zero. */
  function EightTenths(v: int64): int64 {
    var e: int := Wrap(v * 8);
    if e < 0 then -(-e / 10) else e / 10
  }

  lemma NoWrap(n: int)
    requires -INT64_MAX - 1 <= n <= INT64_MAX
    ensures Wrap(n) == n
  {
  }

  // ---- substrings ----

  /** strings.ReplaceAll(s, word, " ") */
  function Blanked(s: string, word: string): string
    requires word != ""
    decreases |s|
  {
    if |s| < |word| then s
    else if word <= s then " " + Blanked(s[|word|..], word)
    else [s[0]] + Blanked(s[1..], word)
  }

  /** The regular expression class \s. */
  predicate IsBlank(c: char) {
    c == ' ' || c == '\t' || c == '\n' || c == '\U{0C}' || c == '\r'
  }

  /** The regular expression (^|\s)-\s*\d, read from position i. */
  predicate DigitAfterSpaces(s: string) {
    s != "" && (IsDigit(s[0]) || (IsBlank(s[0]) && DigitAfterSpaces(s[1..])))
  }

  predicate MinusAt(s: string, i: nat)
    requires i < |s|
  {
    s[i] == '-' && (i == 0 || IsBlank(s[i - 1])) && DigitAfterSpaces(s[i + 1..])
  }

  predicate IsNegative(s: string) {
    exists i: nat | i < |s| :: MinusAt(s, i)
  }

  predicate IsWordChar(c: char) {
    IsDigit(c) || 'a' <= c <= 'z' || 'A' <= c <= 'Z' || c == '_'
  }

  /** Whether \s*l\b matches at the start. */
  predicate LakhMark(s: string) {
    s != "" && ((s[0] == 'l' && (|s| == 1 || !IsWordChar(s[1]))) || (IsBlank(s[0]) && LakhMark(s[1..])))
  }

  /** The digits of the leftmost match of (\d+)\s*l\b, "" if there is none. */
  function ShortLakh(s: string): (r: string)
    ensures AllDigits(r)
    decreases |s|
  {
    if s == "" then ""
    else if !IsDigit(s[0]) then ShortLakh(s[1..])
    else
      var d := DigitRun(s);
      DigitRunIsLong(s);
      if LakhMark(s[|d|..]) then d else ShortLakh(s[|d|..])
  }

  lemma DigitRunIsLong(s: string)
    requires s != "" && IsDigit(s[0])
    ensures DigitRun(s) != ""
  {
  }

  /** Every match of \d+. */
  function Numbers(s: string): seq<string>
    decreases |s|
  {
    if s == "" then []
    else if !IsDigit(s[0]) then Numbers(s[1..])
    else
      DigitRunIsLong(s);
      [DigitRun(s)] + Numbers(s[|DigitRun(s)|..])
  }

  /** The numbers that fit 64 bits, times the unit. */
  function Scaled(nums: seq<string>, unit: int): seq<int64> {
    if nums == [] then []
    else
      match ParseInt64(nums[0])
      case None => Scaled(nums[1..], unit)
      case Some(n) => [Wrap(n * unit)] + Scaled(nums[1..], unit)
  }

  // ---- ParseBudget ----

  /** Currency words and grouping commas gone. */
  function Plain(t: string): string {
    Without(Blanked(Blanked(Blanked(Blanked(Blanked(Blanked(t, "\U{20B9}"), "rs."), "rs"), "rm"), "myr"), "ringgit"), ',')
  }

  function Unit(t: string): int {
    if Contains(t, "lakh") || Contains(t, "lac") then 100000
    else if Contains(t, "k") && !Contains(t, "km") then 1000
    else 1
  }

  function Range(vals: seq<int64>, unit: int): (int64, int64) {
    if vals == [] then (0, 0)
    else if |vals| == 1 then
      if unit == 1 && vals[0] < 1000 then (0, 0) else (EightTenths(vals[0]), vals[0])
    else
      var low, high := if vals[0] > vals[1] then vals[1] else vals[0], if vals[0] > vals[1] then vals[0] else vals[1];
      if unit == 1 && high < 1000 then (0, 0) else (low, high)
  }

  function ParsePlain(t: string): (int64, int64) {
    var unit := Unit(t);
    var short := ParseInt64(ShortLakh(t));
    if unit == 1 && short.Some? then (Wrap(short.value * 80000), Wrap(short.value * 100000))
    else Range(Scaled(Numbers(t), unit), unit)
  }

  /** ParseBudget: the least and the greatest price, or zeros. */
  function ParseBudget(s: string): (int64, int64) {
    var t := Lower(s);
    if IsNegative(t) then (0, 0) else ParsePlain(Plain(t))
  }

  /** ParseBudget as it runs, collecting the numbers that fit. */
  method ReadBudget(s: string) returns (low: int64, high: int64)
    ensures (low, high) == ParseBudget(s)
  {
    var t := Lower(s);
    if IsNegative(t) {
      return 0, 0;
    }
    t := Plain(t);
    var unit := Unit(t);
    if unit == 1 {
      var short := ParseInt64(ShortLakh(t));
      if short.Some? {
        var v: int := short.value;
        return Wrap(v * 80000), Wrap(v * 100000);
      }
    }
    var vals := CollectNumbers(Numbers(t), unit);
    var range := Range(vals, unit);
    low, high := range.0, range.1;
  }

  method CollectNumbers(nums: seq<string>, unit: int) returns (vals: seq<int64>)
    ensures vals == Scaled(nums, unit)
  {
    vals := [];
    for i := 0 to |nums|
      invariant vals + Scaled(nums[i..], unit) == Scaled(nums, unit)
    {
      assert nums[i..][1..] == nums[i + 1..];
      var n := ParseInt64(nums[i]);
      if n.Some? {
        vals := vals + [Wrap(n.value * unit)];
      }
    }
  }

  // ---- facts about absent characters ----

  lemma {:induction false} BlankedAbsent(s: string, word: string)
    requires word != "" && word[0] !in s
    ensures Blanked(s, word) == s
    decreases |s|
  {
    if |s| >= |word| {
      BlankedAbsent(s[1..], word);
      assert [s[0]] + s[1..] == s;
    }
  }

  lemma {:induction false} ContainsNeeds(s: string, sub: string, c: char)
    requires c in sub && c !in s
    ensures !Contains(s, sub)
  {
    if s != "" {
      ContainsNeeds(s[1..], sub, c);
    }
  }

  lemma {:induction false} ContainsAtEnd(a: string, sub: string)
    ensures Contains(a + sub, sub)
  {
    if a == "" {
      assert a + sub == sub;
    } else {
      assert (a + sub)[1..] == a[1..] + sub;
      ContainsAtEnd(a[1..], sub);
    }
  }

  /** The characters that currency words start with. */
  predicate NoCurrency(t: string) {
    '\U{20B9}' !in t && 'r' !in t && 'm' !in t
  }

  lemma PlainWithoutCurrency(t: string)
    requires NoCurrency(t)
    ensures Plain(t) == Without(t, ',')
  {
    BlankedAbsent(t, "\U{20B9}");
    BlankedAbsent(t, "rs.");
    BlankedAbsent(t, "rs");
    BlankedAbsent(t, "rm");
    BlankedAbsent(t, "myr");
    BlankedAbsent(t, "ringgit");
  }

  lemma {:induction false} RunOf(d: string, rest: string)
    requires AllDigits(d) && (rest == "" || !IsDigit(rest[0]))
    ensures DigitRun(d + rest) == d
  {
    if d == "" {
      assert d + rest == rest;
    } else {
      assert (d + rest)[1..] == d[1..] + rest;
      RunOf(d[1..], rest);
      assert [d[0]] + d[1..] == d;
    }
  }

  lemma {:induction false} NoNumbers(s: string)
    requires forall i | 0 <= i < |s| :: !IsDigit(s[i])
    ensures Numbers(s) == [] && ShortLakh(s) == ""
  {
    if s != "" {
      NoNumbers(s[1..]);
    }
  }

  lemma OneNumber(d: string, rest: string)
    requires d != "" && AllDigits(d) && forall i | 0 <= i < |rest| :: !IsDigit(rest[i])
    ensures Numbers(d + rest) == [d]
    ensures ShortLakh(d + rest) == if LakhMark(rest) then d else ""
  {
    RunOf(d, rest);
    NoNumbers(rest);
    assert (d + rest)[|d|..] == rest;
  }

  lemma LowerConcat(a: string, b: string)
    ensures Lower(a + b) == Lower(a) + Lower(b)
  {
  }

  lemma DigitsAreLower(s: string)
    requires forall i | 0 <= i < |s| :: IsDigit(s[i]) || s[i] == ',' || s[i] == ' ' || s[i] == '\U{20B9}'
    ensures Lower(s) == s
  {
  }

  // ---- spellings ----

  /** Numbers whose eightfold fits 64 bits. */
  predicate Fits(n: int) {
    0 <= n && 8 * n <= INT64_MAX
  }

  lemma DecimalHasNo(n: nat, c: char)
    requires !IsDigit(c)
    ensures c !in Decimal(n)
  {
  }

  /** What a bare figure from 1,000 up is read as; one beyond 64 bits is not read at all. */
  function Figure(n: nat): (int64, int64) {
    if n <= INT64_MAX then (EightTenths(n), n) else (0, 0)
  }

  lemma PlainNumber(t: string, n: nat)
    requires t == Decimal(n) || t == " " + Decimal(n)
    requires n >= 1000
    ensures ParsePlain(t) == Figure(n)
  {
    var d := Decimal(n);
    var front := if t == d then "" else " ";
    assert t == front + d;
    NoUnit(t);
    NumbersAfter(front, d);
    ScaledNumber(n, 1);
    if n <= INT64_MAX {
      NoWrap(n * 1);
    }
    assert ParseInt64("") == None;
  }

  lemma ReadFigure(k: nat)
    ensures ParseInt64(Decimal(k)) == if k <= INT64_MAX then Some(k) else None
  {
    if k <= INT64_MAX {
      ParseItoa(k);
    } else {
      ValueOfDecimal(k);
    }
  }

  lemma ScaledOne(d: string, unit: int)
    ensures Scaled([d], unit) == match ParseInt64(d) case None => [] case Some(n) => [Wrap(n * unit)]
  {
    assert [d][1..] == [];
  }

  lemma ScaledNumber(k: nat, unit: int)
    ensures Scaled([Decimal(k)], unit) == if k <= INT64_MAX then [Wrap(k * unit)] else []
  {
    ReadFigure(k);
    ScaledOne(Decimal(k), unit);
  }

  lemma NoUnit(t: string)
    requires forall i | 0 <= i < |t| :: IsDigit(t[i]) || t[i] == ' '
    ensures Unit(t) == 1
  {
    ContainsNeeds(t, "lakh", 'k');
    ContainsNeeds(t, "lac", 'l');
    ContainsNeeds(t, "k", 'k');
  }

  lemma NumbersAfter(front: string, d: string)
    requires (front == "" || front == " ") && d != "" && AllDigits(d)
    ensures Numbers(front + d) == [d] && ShortLakh(front + d) == ""
  {
    assert d + "" == d;
    OneNumber(d, "");
    if front == "" {
      assert front + d == d;
    } else {
      assert (front + d)[1..] == d;
    }
  }

  lemma NoMinus(t: string)
    requires '-' !in t
    ensures !IsNegative(t)
  {
  }

  /** A bare figure from 1,000 up is the greatest price; the least is eight tenths of it exactly while eight times
      the figure fits 64 bits. */
  lemma BareFigure(n: nat)
    requires n >= 1000
    ensures ParseBudget(Itoa(n)) == Figure(n)
    ensures ParseBudget(Itoa(n)) == (8 * n / 10, n) <==> Fits(n)
  {
    var d := Decimal(n);
    DigitsAreLower(d);
    DecimalHasNo(n, '-');
    NoMinus(d);
    DecimalHasNo(n, '\U{20B9}');
    DecimalHasNo(n, 'r');
    DecimalHasNo(n, 'm');
    DecimalHasNo(n, ',');
    PlainWithoutCurrency(d);
    PlainNumber(d, n);
    TenthsExactlyWhen(n);
  }

  lemma TenthsExactlyWhen(n: nat)
    requires n >= 1000
    ensures Figure(n) == (8 * n / 10, n) <==> Fits(n)
  {
    if Fits(n) {
      NoWrap(n * 8);
    } else if n <= INT64_MAX && 8 * n <= INT64_MAX + 1 {
      assert n == 0x1000_0000_0000_0000;
    }
  }

  lemma {:induction false} GroupedChars(s: string, style: Style)
    ensures forall i | 0 <= i < |Grouped(s, style)| :: Grouped(s, style)[i] in s || Grouped(s, style)[i] == ','
  {
    if |s| > 1 {
      GroupedChars(s[1..], style);
    }
  }

  lemma RupeeIsBlanked(g: string)
    requires '\U{20B9}' !in g
    ensures Blanked("\U{20B9}" + g, "\U{20B9}") == " " + g
  {
    BlankedAbsent(g, "\U{20B9}");
    assert ("\U{20B9}" + g)[1..] == g;
  }

  lemma PlainRupees(g: string)
    requires NoCurrency(g)
    ensures Plain("\U{20B9}" + g) == " " + Without(g, ',')
  {
    var t := " " + g;
    RupeeIsBlanked(g);
    BlankedAbsent(t, "rs.");
    BlankedAbsent(t, "rs");
    BlankedAbsent(t, "rm");
    BlankedAbsent(t, "myr");
    BlankedAbsent(t, "ringgit");
    WithoutConcat(" ", g, ',');
  }

  lemma PrintedPrice(n: nat)
    ensures Without(FormatPrice(n), ',') == Decimal(n)
    ensures forall i | 0 <= i < |FormatPrice(n)| :: IsDigit(FormatPrice(n)[i]) || FormatPrice(n)[i] == ','
  {
    PrintersDifferInCommasOnly(n);
    GroupedChars(Itoa(n), Indian);
  }

  lemma PlainRupeeFigure(g: string, n: nat)
    requires n >= 1000 && NoCurrency(g) && Without(g, ',') == Decimal(n)
    ensures ParsePlain(Plain("\U{20B9}" + g)) == Figure(n)
  {
    PlainRupees(g);
    PlainNumber(" " + Decimal(n), n);
  }

  /** The printed price behind a rupee sign means the same. */
  lemma RupeeFigure(n: nat)
    requires n >= 1000
    ensures ParseBudget("\U{20B9}" + FormatPrice(n)) == ParseBudget(Itoa(n))
  {
    var g := FormatPrice(n);
    var t := "\U{20B9}" + g;
    PrintedPrice(n);
    DigitsAreLower(t);
    assert '-' !in t;
    NoMinus(t);
    PlainRupeeFigure(g, n);
    BareFigure(n);
  }

  // ---- lakhs ----

  const LAKH := 100000

  /** What "k lakh" and "kL" are read as. */
  function Spelled(k: nat): (int64, int64) {
    if k <= INT64_MAX then (EightTenths(Wrap(LAKH * k)), Wrap(LAKH * k)) else (0, 0)
  }

  function Lettered(k: nat): (int64, int64) {
    if k <= INT64_MAX then (Wrap(80000 * k), Wrap(LAKH * k)) else (0, 0)
  }

  lemma WordLakh(d: string, k: nat)
    requires d == Decimal(k)
    ensures ParsePlain(d + " lakh") == Spelled(k)
  {
    var t := d + " lakh";
    ContainsAtEnd(d + " ", "lakh");
    assert t == d + " " + "lakh";
    assert Unit(t) == LAKH;
    OneNumber(d, " lakh");
    ScaledNumber(k, LAKH);
    assert k * LAKH == LAKH * k;
  }

  lemma LetterL(d: string, k: nat)
    requires d == Decimal(k)
    ensures ParsePlain(d + "l") == Lettered(k)
  {
    var t := d + "l";
    ContainsNeeds(t, "lakh", 'k');
    ContainsNeeds(t, "lac", 'c');
    ContainsNeeds(t, "k", 'k');
    assert Unit(t) == 1;
    OneNumber(d, "l");
    assert LakhMark("l");
    ReadFigure(k);
    ScaledNumber(k, 1);
    assert k * 80000 == 80000 * k && k * 100000 == LAKH * k;
  }

  /** A figure followed by a word that is no currency is left as it is. */
  lemma PlainWithWord(d: string, word: string)
    requires AllDigits(d) && NoCurrency(word) && '-' !in word && ',' !in word && Lower(word) == word
    ensures !IsNegative(d + word) && Plain(d + word) == d + word && Lower(d + word) == d + word
  {
    NoMinus(d + word);
    assert NoCurrency(d + word);
    PlainWithoutCurrency(d + word);
    LowerConcat(d, word);
    DigitsAreLower(d);
  }

  lemma SpelledLakh(k: nat)
    ensures ParseBudget(Itoa(k) + " lakh") == Spelled(k)
  {
    PlainWithWord(Decimal(k), " lakh");
    WordLakh(Decimal(k), k);
  }

  lemma LetterLakh(k: nat)
    ensures ParseBudget(Itoa(k) + "L") == Lettered(k)
  {
    PlainWithWord(Decimal(k), "l");
    LowerConcat(Decimal(k), "L");
    DigitsAreLower(Decimal(k));
    LetterL(Decimal(k), k);
  }

  // ---- when the spellings agree ----

  lemma WrapShift(n: int, turns: int)
    ensures Wrap(n + turns * TWO_64) == Wrap(n)
  {
  }

  /** Multiplying a wrapped product by a constant is multiplying the product. */
  lemma WrapTimes(n: int, factor: int)
    ensures Wrap(factor * Wrap(n)) == Wrap(factor * n)
  {
    var w: int := Wrap(n);
    var turns := (w - n) / TWO_64;
    assert w == n + turns * TWO_64;
    assert factor * w == factor * n + (factor * turns) * TWO_64;
    WrapShift(factor * n, factor * turns);
  }

  /** Eight tenths of LAKH * k, computed as the program does, is 80000 * k exactly while ten times the latter fits. */
  lemma TenthsOfLakhs(k: nat)
    ensures EightTenths(Wrap(LAKH * k)) == Wrap(80000 * k) <==>
            -INT64_MAX - 1 <= 10 * Wrap(80000 * k) <= INT64_MAX
  {
    var p: int := Wrap(80000 * k);
    WrapTimes(LAKH * k, 8);
    WrapTimes(80000 * k, 10);
    assert 8 * (LAKH * k) == 10 * (80000 * k);
    TenthOf(p);
  }

  lemma TenthOf(p: int64)
    ensures
      var e: int := Wrap(10 * p);
      (if e < 0 then -(-e / 10) else e / 10) == p <==> -INT64_MAX - 1 <= 10 * p <= INT64_MAX
  {
    if -INT64_MAX - 1 <= 10 * p <= INT64_MAX {
      NoWrap(10 * p);
    }
  }

  /** For every k: "k lakh" and "kL" are one budget exactly when k itself does not fit 64 bits, so that neither is
      read, or ten times the least price of "kL", wrapped as it is, fits. */
  lemma LakhSpellingsAgreeExactlyWhen(k: nat)
    ensures ParseBudget(Itoa(k) + " lakh") == ParseBudget(Itoa(k) + "L") <==>
            k > INT64_MAX || -INT64_MAX - 1 <= 10 * Wrap(80000 * k) <= INT64_MAX
  {
    SpelledLakh(k);
    LetterLakh(k);
    TenthsOfLakhs(k);
  }

  /** Among figures that fit 64 bits, exactly while eight times the figure fits too; both are then the budget meant. */
  lemma LakhSpellingsAgree(k: nat)
    requires LAKH * k <= INT64_MAX
    ensures ParseBudget(Itoa(k) + " lakh") == ParseBudget(Itoa(k) + "L") <==> Fits(LAKH * k)
    ensures Fits(LAKH * k) ==> ParseBudget(Itoa(k) + " lakh") == (80000 * k, LAKH * k)
  {
    LakhSpellingsAgreeExactlyWhen(k);
    NoWrap(80000 * k);
    NoWrap(LAKH * k);
    SpelledLakh(k);
    LetterLakh(k);
  }

  /** Just beyond, the multiplication by eight overflows: the spelled lakh gets a negative least price. */
  lemma BeyondTheBound(k: nat)
    requires INT64_MAX < 8 * (LAKH * k) <= TWO_64 - 10
    ensures ParseBudget(Itoa(k) + " lakh").0 < 0 < ParseBudget(Itoa(k) + "L").0
  {
    SpelledLakh(k);
    LetterLakh(k);
    NoWrap(80000 * k);
    NoWrap(LAKH * k);
    TenthsOverflow(LAKH * k);
  }

  lemma TenthsOverflow(n: int64)
    requires INT64_MAX < 8 * n <= TWO_64 - 10
    ensures EightTenths(n) < 0
  {
    assert Wrap(n * 8) == n * 8 - TWO_64;
  }

  lemma FigureIsSpelled(k: nat)
    requires k > 0
    ensures Figure(LAKH * k) == Spelled(k) <==> LAKH * k <= INT64_MAX || k > INT64_MAX || Wrap(LAKH * k) == 0
  {
    if LAKH * k <= INT64_MAX {
      NoWrap(LAKH * k);
    }
  }

  /** The figure written out is the same budget as "k lakh" exactly when it fits 64 bits, or neither is read, or the
      product is a multiple of 2^64. */
  lemma WrittenOutExactlyWhen(k: nat)
    requires k > 0
    ensures ParseBudget(Itoa(LAKH * k)) == ParseBudget(Itoa(k) + " lakh") <==>
            LAKH * k <= INT64_MAX || k > INT64_MAX || Wrap(LAKH * k) == 0
  {
    SpelledLakh(k);
    BareFigure(LAKH * k);
    FigureIsSpelled(k);
  }

  lemma ReadAs(k: nat)
    requires k > 0
    ensures ParseBudget(Itoa(k) + " lakh") == Spelled(k) && ParseBudget(Itoa(k) + "L") == Lettered(k)
    ensures ParseBudget(Itoa(LAKH * k)) == Figure(LAKH * k)
  {
    SpelledLakh(k);
    LetterLakh(k);
    BareFigure(LAKH * k);
  }

  lemma NothingIsLeft(k: nat)
    requires k == 0x0800_0000_0000_0000
    ensures !Fits(LAKH * k) && LAKH * k > INT64_MAX
    ensures Spelled(k) == Lettered(k) == Figure(LAKH * k) == (0, 0)
  {
  }

  lemma RemainderIsLeft(k: nat)
    requires k == 922337203685478
    ensures LAKH * k > INT64_MAX && Figure(LAKH * k) == (0, 0)
    ensures Spelled(k) == Lettered(k) == (33536, 41920)
  {
  }

  /** Agreement comes back beyond the range: 2^59 lakhs overflow, and every spelling of them is read as no budget;
      922337203685478 lakhs overflow to one small budget in both short spellings. */
  lemma AgreementBeyondTheRange(k: nat)
    ensures k == 0x0800_0000_0000_0000 ==>
              && !Fits(LAKH * k) && LAKH * k > INT64_MAX
              && ParseBudget(Itoa(k) + " lakh") == ParseBudget(Itoa(k) + "L") == ParseBudget(Itoa(LAKH * k)) == (0, 0)
    ensures k == 922337203685478 ==>
              && LAKH * k > INT64_MAX && ParseBudget(Itoa(LAKH * k)) == (0, 0)
              && ParseBudget(Itoa(k) + " lakh") == ParseBudget(Itoa(k) + "L") == (33536, 41920)
  {
    if k > 0 {
      ReadAs(k);
    }
    if k == 0x0800_0000_0000_0000 {
      NothingIsLeft(k);
    }
    if k == 922337203685478 {
      RemainderIsLeft(k);
    }
  }
}
