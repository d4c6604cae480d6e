/** The record that an accepted line becomes, and how much of the line can be told from it. */
module StockRecords {
  import opened Wrappers
  import opened Text
  import opened StockParser

  datatype Record = Record(stockNo: string, location: string, description: string, code: string, yom: nat,
                           reg: string, chassis: string, oldReg: string, purchaser: string, date: string,
                           mileage: nat, colour: string, upholstery: string)

  /** What every accepted line satisfies. */
  ghost predicate Sane(p: Parts) {
    && |p.head.stock| <= 1 && |p.papers.purchaser| <= 1 && (p.head.stock != [] ==> StartsWithDigit(p.head.stock[0]))
    && IsYear(p.model.year) && IsCode(p.model.code) && AllDigits(Mileage(p))
  }

  predicate StartsWithDigit(s: string) {
    s != "" && IsDigit(s[0])
  }

  function Mileage(p: Parts): string {
    Without(p.papers.mileage, ',')
  }

  function StockNumber(p: Parts): string {
    if p.head.stock != [] then p.head.stock[0]
    else if p.head.location == INCOMING then "INCOMING-" + p.papers.plate.reg
    else "NOSTOCK-" + p.papers.plate.reg
  }

  function Spelled(upholstery: string): string {
    if upholstery == "Balck" then "Black" else upholstery
  }

  /** The dictionary that parse_line returns, left of the status. */
  ghost function RecordOf(p: Parts): Record
    requires Sane(p)
  {
    Record(StockNumber(p), JoinWords(p.head.location), JoinWords(p.model.brand) + " " + JoinWords(p.model.words),
           if p.model.code == "-" then "" else p.model.code, Value(p.model.year),
           p.papers.plate.reg, p.papers.plate.chassis, p.papers.oldReg,
           if p.papers.purchaser == [] then "" else p.papers.purchaser[0],
           p.papers.date, Value(Mileage(p)), JoinWords(p.finish.colour), Spelled(JoinWords(p.finish.upholstery)))
  }

  /** What the record does not keep: whether registration and chassis were merged, what stood in parentheses, how the
      mileage was spelled, and the one misspelling that is corrected. */
  datatype Residue = Residue(merged: bool, parens: seq<string>, mileage: string, misspelt: bool)

  function ResidueOf(p: Parts): Residue {
    Residue(p.papers.plate.Merged?, if p.papers.plate.Merged? then [] else p.papers.plate.parens,
            p.papers.mileage, JoinWords(p.finish.upholstery) == "Balck")
  }

  function RebuiltPapers(r: Record, x: Residue): seq<string> {
    (if x.merged then [r.reg + r.chassis] else [r.reg] + x.parens + [r.chassis])
    + [r.oldReg] + (if r.purchaser == "" then [] else [r.purchaser]) + [r.date, x.mileage]
  }

  function RebuiltModel(r: Record): seq<string> {
    Fields(r.description) + [if r.code == "" then "-" else r.code, Decimal(r.yom)]
  }

  /** A stock number that was on the line starts with a digit; one that was made up does not. */
  function RebuiltHead(r: Record): seq<string> {
    (if StartsWithDigit(r.stockNo) then [r.stockNo] else []) + Fields(r.location)
  }

  function Rebuild(r: Record, x: Residue): seq<string> {
    RebuiltHead(r) + RebuiltModel(r) + RebuiltPapers(r, x)
    + (Fields(r.colour) + Fields(if x.misspelt then "Balck" else r.upholstery))
  }

  // ---- words ----

  predicate Clean(w: string) {
    w != "" && forall i | 0 <= i < |w| :: !IsSpace(w[i])
  }

  predicate AllClean(ws: seq<string>) {
    forall i | 0 <= i < |ws| :: Clean(ws[i])
  }

  lemma {:induction false} WordOf(w: string, rest: string)
    requires forall i | 0 <= i < |w| :: !IsSpace(w[i])
    requires rest == "" || IsSpace(rest[0])
    ensures Word(w + rest) == w
  {
    if w == "" {
      assert w + rest == rest;
    } else {
      assert (w + rest)[1..] == w[1..] + rest;
      WordOf(w[1..], rest);
      assert [w[0]] + w[1..] == w;
    }
  }

  lemma FieldsOfWord(w: string)
    requires Clean(w)
    ensures Fields(w) == [w]
  {
    WordOf(w, "");
    assert w + "" == w;
  }

  lemma FieldsCons(w: string, s: string)
    requires Clean(w)
    ensures Fields(w + (" " + s)) == [w] + Fields(s)
  {
    var t := w + (" " + s);
    WordOf(w, " " + s);
    assert t[|w|..] == " " + s && (" " + s)[1..] == s;
    assert Fields(" " + s) == Fields(s);
  }

  lemma JoinCons(ws: seq<string>)
    requires |ws| > 1
    ensures JoinWords(ws) == ws[0] + (" " + JoinWords(ws[1..]))
  {
  }

  lemma ThreeTexts(a: string, b: string, c: string)
    ensures (a + (" " + b)) + c == a + (" " + (b + c))
  {
  }

  /** Splitting joined words gives the words back, in front of any other text. */
  lemma {:induction false} FieldsOfJoin(ws: seq<string>, s: string)
    requires AllClean(ws) && ws != []
    ensures Fields(JoinWords(ws) + (" " + s)) == ws + Fields(s)
  {
    if |ws| == 1 {
      FieldsCons(ws[0], s);
      assert ws == [ws[0]];
    } else {
      var rest := JoinWords(ws[1..]);
      FieldsOfJoin(ws[1..], s);
      FieldsCons(ws[0], rest + (" " + s));
      JoinCons(ws);
      ThreeTexts(ws[0], rest, " " + s);
      Prepend(ws, Fields(s));
    }
  }

  lemma Prepend(ws: seq<string>, tail: seq<string>)
    requires ws != []
    ensures [ws[0]] + (ws[1..] + tail) == ws + tail
  {
  }

  lemma {:induction false} FieldsOfWords(ws: seq<string>)
    requires AllClean(ws)
    ensures Fields(JoinWords(ws)) == ws
  {
    if |ws| == 1 {
      FieldsOfWord(ws[0]);
      assert ws == [ws[0]];
    } else if |ws| > 1 {
      FieldsOfWords(ws[1..]);
      FieldsCons(ws[0], JoinWords(ws[1..]));
      JoinCons(ws);
      assert ws == [ws[0]] + ws[1..];
    }
  }

  lemma {:induction false} DecimalOfValue(s: string)
    requires s != "" && AllDigits(s) && s[0] != '0'
    ensures Value(s) > 0 && Decimal(Value(s)) == s
  {
    var init, d := s[..|s| - 1], (s[|s| - 1] - '0') as int;
    if init == "" {
      assert s == [s[0]] && Value(init) == 0;
    } else {
      DecimalOfValue(init);
      assert Value(s) / 10 == Value(init) && Value(s) % 10 == d;
      assert s == init + [s[|s| - 1]];
    }
  }

  lemma MileageDigits(t: string)
    requires IsNum(t)
    ensures AllDigits(Without(t, ','))
  {
    OnlyDigits(t);
  }

  lemma {:induction false} OnlyDigits(t: string)
    requires forall i | 0 <= i < |t| :: IsDigit(t[i]) || t[i] == ','
    ensures AllDigits(Without(t, ','))
  {
    if t != "" {
      OnlyDigits(t[1..]);
    }
  }

  // ---- from the record back to the line ----

  lemma AcceptedIsSane(lex: Lexicon, t: seq<string>)
    requires forall i | 0 <= i < |t| :: t[i] != ""
    ensures ParseLeft(lex, t).Got? ==> Sane(ParseLeft(lex, t).part)
  {
    if ParseLeft(lex, t).Got? {
      var t1 := ReadHead(lex, t).rest;
      ModelIsSane(lex, t1);
      PapersAreSane(ReadModel(lex, t1).rest);
      HeadIsSane(lex, t);
    }
  }

  lemma HeadIsSane(lex: Lexicon, t: seq<string>)
    requires (forall i | 0 <= i < |t| :: t[i] != "") && ReadHead(lex, t).Got?
    ensures
      var h := ReadHead(lex, t).part;
      |h.stock| <= 1 && (h.stock != [] ==> StartsWithDigit(h.stock[0]))
  {
  }

  lemma ModelIsSane(lex: Lexicon, t: seq<string>)
    requires ReadModel(lex, t).Got?
    ensures
      var m := ReadModel(lex, t).part;
      IsYear(m.year) && IsCode(m.code)
  {
  }

  lemma PapersAreSane(t: seq<string>)
    requires ReadPapers(t).Got?
    ensures
      var p := ReadPapers(t).part;
      |p.purchaser| <= 1 && AllDigits(Without(p.mileage, ','))
  {
    var u := ReadPlate(t).rest;
    var d := if |u| > 1 && !IsDate(u[1]) then 2 else 1;
    MileageDigits(u[d + 1]);
  }

  lemma ModelIsRecorded(p: Parts)
    requires Sane(p) && AllClean(ModelTokens(p.model))
    ensures RebuiltModel(RecordOf(p)) == ModelTokens(p.model)
  {
    var m := p.model;
    var all := ModelTokens(m);
    assert AllClean(m.brand) by { assert forall i | 0 <= i < |m.brand| :: m.brand[i] == all[i]; }
    assert AllClean(m.words) by { assert forall i | 0 <= i < |m.words| :: m.words[i] == all[|m.brand| + i]; }
    DescriptionSplits(m.brand, m.words);
    YearIsRecorded(m.year);
    assert m.code != "";
  }

  lemma BlankInFront(w: string)
    ensures "" + " " + w == " " + w && Fields(" " + w) == Fields(w)
  {
    assert (" " + w)[1..] == w;
  }

  lemma TwoTexts(a: string, b: string)
    ensures a + " " + b == a + (" " + b)
  {
  }

  lemma DescriptionSplits(brand: seq<string>, words: seq<string>)
    requires AllClean(brand) && AllClean(words)
    ensures Fields(JoinWords(brand) + " " + JoinWords(words)) == brand + words
  {
    FieldsOfWords(words);
    if brand == [] {
      BlankInFront(JoinWords(words));
    } else {
      FieldsOfJoin(brand, JoinWords(words));
      TwoTexts(JoinWords(brand), JoinWords(words));
    }
  }

  lemma YearIsRecorded(year: string)
    requires IsYear(year)
    ensures Decimal(Value(year)) == year
  {
    assert year[0] == year[..2][0];
    DecimalOfValue(year);
  }

  lemma PapersAreRecorded(p: Parts)
    requires Sane(p) && AllClean(p.papers.purchaser)
    ensures RebuiltPapers(RecordOf(p), ResidueOf(p)) == PapersTokens(p.papers)
  {
    if p.papers.purchaser != [] {
      assert p.papers.purchaser == [p.papers.purchaser[0]];
    }
  }

  lemma HeadIsRecorded(p: Parts)
    requires Sane(p) && AllClean(p.head.location)
    ensures RebuiltHead(RecordOf(p)) == HeadTokens(p.head)
  {
    FieldsOfWords(p.head.location);
    if p.head.stock != [] {
      assert p.head.stock == [p.head.stock[0]];
    }
  }

  lemma FinishIsRecorded(p: Parts)
    requires Sane(p) && AllClean(p.finish.colour) && AllClean(p.finish.upholstery)
    ensures
      Fields(RecordOf(p).colour) + Fields(if ResidueOf(p).misspelt then "Balck" else RecordOf(p).upholstery)
      == p.finish.colour + p.finish.upholstery
  {
    FieldsOfWords(p.finish.colour);
    FieldsOfWords(p.finish.upholstery);
  }

  lemma CleanParts(p: Parts)
    requires AllClean(Tokens(p))
    ensures AllClean(HeadTokens(p.head)) && AllClean(ModelTokens(p.model)) && AllClean(PapersTokens(p.papers))
    ensures AllClean(p.finish.colour + p.finish.upholstery)
  {
    CleanPieces(HeadTokens(p.head) + ModelTokens(p.model) + PapersTokens(p.papers), p.finish.colour + p.finish.upholstery);
    CleanPieces(HeadTokens(p.head) + ModelTokens(p.model), PapersTokens(p.papers));
    CleanPieces(HeadTokens(p.head), ModelTokens(p.model));
  }

  lemma CleanPieces(a: seq<string>, b: seq<string>)
    requires AllClean(a + b)
    ensures AllClean(a) && AllClean(b)
  {
    assert forall i | 0 <= i < |a| :: (a + b)[i] == a[i];
    assert forall i | 0 <= i < |b| :: (a + b)[|a| + i] == b[i];
  }

  /** The line can be rebuilt from its record and the residue, token by token, unless "Incoming Stock" was overridden. */
  lemma RecordRebuildsLine(lex: Lexicon, t: seq<string>)
    requires AllClean(t)
    ensures
      var r := ParseLeft(lex, t);
      r.Got? ==>
        && Sane(r.part) && RecordOf(r.part).mileage == Value(Mileage(r.part))
        && (Rebuild(RecordOf(r.part), ResidueOf(r.part)) == t <==> !(INCOMING <= t && FirstMatch(lex.locations, t[2..]).Some?))
  {
    if ParseLeft(lex, t).Got? {
      AcceptedIsSane(lex, t);
      LineIsRebuilt(lex, t);
      var p := ParseLeft(lex, t).part;
      CleanPieces(if p.head.overridden then INCOMING else [], Tokens(p));
      PartsAreRecorded(p);
    }
  }

  lemma PartsAreRecorded(p: Parts)
    requires Sane(p) && AllClean(Tokens(p))
    ensures Rebuild(RecordOf(p), ResidueOf(p)) == Tokens(p)
  {
    CleanParts(p);
    CleanPieces(p.head.stock, p.head.location);
    CleanPieces(p.finish.colour, p.finish.upholstery);
    CleanPurchaser(p.papers);
    HeadIsRecorded(p);
    ModelIsRecorded(p);
    PapersAreRecorded(p);
    FinishIsRecorded(p);
  }

  lemma CleanPurchaser(p: Papers)
    requires AllClean(PapersTokens(p))
    ensures AllClean(p.purchaser)
  {
    CleanPieces(PlateTokens(p.plate) + [p.oldReg] + p.purchaser, [p.date, p.mileage]);
    CleanPieces(PlateTokens(p.plate) + [p.oldReg], p.purchaser);
  }

  lemma HeadForgets(lex: Lexicon, t: seq<string>)
    requires AllClean(t) && t != [] && !(INCOMING <= t) && !IsDigit(t[0][0]) && FirstMatch(lex.locations, t).Some?
    ensures AllClean(INCOMING + t)
    ensures ReadHead(lex, t).Got? && !ReadHead(lex, t).part.overridden
    ensures
      var Got(h, rest) := ReadHead(lex, t);
      ReadHead(lex, INCOMING + t) == Got(h.(overridden := true), rest)
  {
    var u := INCOMING + t;
    IncomingIsClean();
    assert u[2..] == t && t[0..] == t && u[..2] == INCOMING;
  }

  lemma IncomingIsClean()
    ensures AllClean(INCOMING)
  {
  }

  /** Where the words "Incoming Stock" are overridden they leave no trace: the line without them has the same record. */
  lemma OverriddenIncomingIsForgotten(lex: Lexicon, t: seq<string>)
    requires AllClean(t) && t != [] && !(INCOMING <= t) && !IsDigit(t[0][0]) && FirstMatch(lex.locations, t).Some?
    ensures AllClean(INCOMING + t)
    ensures
      var plain, longer := ParseLeft(lex, t), ParseLeft(lex, INCOMING + t);
      plain.Got? ==>
        longer.Got? && Sane(plain.part) && Sane(longer.part) && RecordOf(longer.part) == RecordOf(plain.part)
  {
    HeadForgets(lex, t);
    if ParseLeft(lex, t).Got? {
      AcceptedIsSane(lex, t);
      var Got(h, rest) := ReadHead(lex, t);
      HeadIsPassedOn(lex, h, h.(overridden := true), rest);
      OverridingIsNotRecorded(ParseLeft(lex, t).part);
    }
  }

  lemma OverridingIsNotRecorded(p: Parts)
    requires Sane(p)
    ensures
      var q := p.(head := p.head.(overridden := true));
      Sane(q) && RecordOf(q) == RecordOf(p)
  {
  }

  lemma HeadIsPassedOn(lex: Lexicon, h: Head, other: Head, rest: seq<string>)
    requires FromHead(lex, Got(h, rest)).Got?
    ensures FromHead(lex, Got(other, rest)) == Got(FromHead(lex, Got(h, rest)).part.(head := other), FromHead(lex, Got(h, rest)).rest)
  {
  }
}
