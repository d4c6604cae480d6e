/** Printing prices with grouping commas, and reading prices and budgets back. */
module Prices {
  import opened Wrappers
  import opened Text
  import Engine

  // ---- grouping ----

  /** Indian grouping is the last three digits, then pairs; Western grouping is threes. */
  datatype Style = Indian | Western

  /** Whether a comma stands where k characters follow. */
  predicate Marks(style: Style, k: nat) {
    k >= 3 && match style case Indian => k % 2 == 1 case Western => k % 3 == 0
  }

  function Comma(style: Style, k: nat): string {
    if Marks(style, k) then "," else ""
  }

  /** s with its commas. */
  function Grouped(s: string, style: Style): string {
    if |s| <= 1 then s else [s[0]] + Comma(style, |s| - 1) + Grouped(s[1..], style)
  }

  lemma GroupedStep(c: char, s: string, style: Style)
    requires s != ""
    ensures Grouped([c] + s, style) == [c] + Comma(style, |s|) + Grouped(s, style)
  {
    assert ([c] + s)[1..] == s;
  }

  lemma {:induction false} ShortIsUngrouped(s: string, style: Style)
    requires |s| <= 3
    ensures Grouped(s, style) == s
  {
    if |s| > 1 {
      ShortIsUngrouped(s[1..], style);
      GroupedStep(s[0], s[1..], style);
      assert [s[0]] + s[1..] == s;
    }
  }

  lemma {:induction false} GroupedStripped(s: string, style: Style)
    requires ',' !in s
    ensures Without(Grouped(s, style), ',') == s
  {
    if |s| > 1 {
      GroupedStripped(s[1..], style);
      var comma := Comma(style, |s| - 1);
      WithoutConcat([s[0]] + comma, Grouped(s[1..], style), ',');
      WithoutConcat([s[0]], comma, ',');
      assert [s[0]] + s[1..] == s;
    }
  }

  /** Two groupings print a number alike exactly when they put commas in the same places. */
  lemma {:induction false} GroupingsAgree(s: string, m: Style, n: Style)
    requires ',' !in s
    ensures Grouped(s, m) == Grouped(s, n) <==> forall k: nat | 0 < k < |s| :: Marks(m, k) == Marks(n, k)
  {
    if |s| > 1 {
      var a, b := Grouped(s[1..], m), Grouped(s[1..], n);
      GroupingsAgree(s[1..], m, n);
      assert a[0] == b[0] == s[1];
      var k: nat := |s| - 1;
      if Marks(m, k) == Marks(n, k) {
        var head := [s[0]] + Comma(m, k);
        assert Grouped(s, m)[|head|..] == a && Grouped(s, n)[|head|..] == b;
      } else {
        assert Grouped(s, m)[1] != Grouped(s, n)[1];
      }
    }
  }

  /** formatPrice's output. */
  function FormatPrice(n: int): string {
    Grouped(Itoa(n), Indian)
  }

  /** itoaComma's output. */
  function CommaPrice(n: int): string {
    Grouped(Itoa(n), Western)
  }

  lemma PrependOne(c: char, tail: string)
    requires |tail| >= 3 && |tail| % 2 == 1
    ensures Grouped([c] + tail, Indian) == [c] + "," + Grouped(tail, Indian)
  {
    GroupedStep(c, tail, Indian);
  }

  lemma GroupedStepPlain(c: char, s: string)
    requires s != "" && !Marks(Indian, |s|)
    ensures Grouped([c] + s, Indian) == [c] + Grouped(s, Indian)
  {
    GroupedStep(c, s, Indian);
    assert [c] + "" == [c];
  }

  lemma PrependTwo(c: char, rest: string, pair: string)
    requires |rest| >= 4 && |rest| % 2 == 0 && Grouped(rest, Indian) == pair
    ensures Grouped([c] + rest, Indian) == [c] + pair
  {
    GroupedStepPlain(c, rest);
  }

  /** Cutting a group of one or two characters off the front. */
  lemma CutGroup(s: string, i: nat, j: nat)
    requires i < j <= i + 2 && j <= |s| && |s| - j >= 3 && (|s| - j) % 2 == 1
    ensures Grouped(s[i..], Indian) == s[i..j] + "," + Grouped(s[j..], Indian)
  {
    var tail := s[j..];
    if j == i + 1 {
      PrependOne(s[i], tail);
      assert s[i..] == [s[i]] + tail && s[i..j] == [s[i]];
    } else {
      PrependOne(s[i + 1], tail);
      PrependTwo(s[i], [s[i + 1]] + tail, [s[i + 1]] + "," + Grouped(tail, Indian));
      assert s[i..] == [s[i]] + ([s[i + 1]] + tail);
      assert s[i..j] == [s[i]] + [s[i + 1]];
      Reassociate([s[i]], [s[i + 1]], ",", Grouped(tail, Indian));
    }
  }

  lemma Reassociate(a: string, b: string, c: string, d: string)
    ensures a + (b + c + d) == (a + b) + c + d
  {
  }

  /** strings.Join(parts, ",") after a part is put in front. */
  lemma JoinPrepend(part: string, parts: seq<string>)
    requires parts != []
    ensures Join([part] + parts, ',') == part + "," + Join(parts, ',')
  {
    assert ([part] + parts)[1..] == parts;
  }

  /** formatPrice: cutting pairs off the front part, from the right. */
  method PrintPrice(price: int) returns (r: string)
    ensures r == FormatPrice(price)
  {
    var s := Itoa(price);
    if |s| <= 3 {
      ShortIsUngrouped(s, Indian);
      return s;
    }
    r := PrintGroups(s);
  }

  lemma JoinGroup(s: string, i: nat, j: nat, parts: seq<string>)
    requires i < j <= i + 2 && j <= |s| && |s| - j >= 3 && (|s| - j) % 2 == 1
    requires parts != [] && Join(parts, ',') == Grouped(s[j..], Indian)
    ensures Join([s[i..j]] + parts, ',') == Grouped(s[i..], Indian)
  {
    CutGroup(s, i, j);
    JoinPrepend(s[i..j], parts);
  }

  method PrintGroups(s: string) returns (r: string)
    requires |s| > 3
    ensures r == Grouped(s, Indian)
  {
    var n := |s|;
    var rest := s[..n - 3];
    var parts: seq<string> := [s[n - 3..]];
    ShortIsUngrouped(s[n - 3..], Indian);
    while |rest| > 2
      invariant 1 <= |rest| <= n - 3 && rest == s[..|rest|] && (n - |rest|) % 2 == 1
      invariant parts != [] && Join(parts, ',') == Grouped(s[|rest|..], Indian)
    {
      var cut := |rest| - 2;
      JoinGroup(s, cut, |rest|, parts);
      assert rest[cut..] == s[cut..|rest|];
      parts := [rest[cut..]] + parts;
      rest := rest[..cut];
    }
    JoinGroup(s, 0, |rest|, parts);
    assert s[0..] == s && s[0..|rest|] == rest;
    r := Join([rest] + parts, ',');
  }

  /** The comma that itoaComma writes before position i. */
  function Due(s: string, i: nat): string
    requires i < |s|
  {
    if i > 0 && (|s| - i) % 3 == 0 then "," else ""
  }

  lemma NextCharacter(s: string, i: nat)
    requires i < |s|
    ensures i + 1 == |s| ==> Grouped(s[i..], Western) == [s[i]]
    ensures i + 1 < |s| ==> Grouped(s[i..], Western) == [s[i]] + (Due(s, i + 1) + Grouped(s[i + 1..], Western))
  {
    assert s[i..] == [s[i]] + s[i + 1..];
    if i + 1 < |s| {
      GroupedStep(s[i], s[i + 1..], Western);
      assert Comma(Western, |s| - i - 1) == Due(s, i + 1);
    }
  }

  /** itoaComma: one pass from the left. */
  method PrintWithCommas(n: int) returns (r: string)
    ensures r == CommaPrice(n)
  {
    var s := Itoa(n);
    if |s| <= 3 {
      ShortIsUngrouped(s, Western);
      return s;
    }
    r := PrintFromLeft(s);
  }

  /** What out still lacks of the whole before position i. */
  predicate Pending(s: string, i: nat, out: string)
    requires i <= |s|
  {
    Grouped(s, Western) == if i < |s| then out + (Due(s, i) + Grouped(s[i..], Western)) else out
  }

  lemma PendingStep(s: string, i: nat, out: string)
    requires i < |s| && Pending(s, i, out)
    ensures Pending(s, i + 1, out + Due(s, i) + [s[i]])
  {
    NextCharacter(s, i);
    var g := Grouped(s[i..], Western);
    assert out + (Due(s, i) + g) == out + Due(s, i) + g;
    if i + 1 < |s| {
      var h := Due(s, i + 1) + Grouped(s[i + 1..], Western);
      assert out + Due(s, i) + ([s[i]] + h) == out + Due(s, i) + [s[i]] + h;
    }
  }

  method PrintFromLeft(s: string) returns (out: string)
    requires |s| > 3
    ensures out == Grouped(s, Western)
  {
    out := "";
    assert s[0..] == s && "" + ("" + Grouped(s, Western)) == Grouped(s, Western);
    for i := 0 to |s|
      invariant Pending(s, i, out)
    {
      PendingStep(s, i, out);
      assert out + Due(s, i) == if Due(s, i) == "" then out else out + ",";
      if i > 0 && (|s| - i) % 3 == 0 {
        out := out + ",";
      }
      out := out + [s[i]];
    }
  }

  lemma ItoaHasNo(n: int, c: char)
    requires !IsDigit(c) && c != '-'
    ensures c !in Itoa(n)
  {
    ItoaChars(n);
  }

  /** Both printers write the decimal and differ only in where commas stand: nowhere up to five characters. */
  lemma PrintersDifferInCommasOnly(n: int)
    ensures Without(FormatPrice(n), ',') == Itoa(n) == Without(CommaPrice(n), ',')
    ensures FormatPrice(n) == CommaPrice(n) <==> |Itoa(n)| <= 5
  {
    ItoaHasNo(n, ',');
    var s := Itoa(n);
    GroupedStripped(s, Indian);
    GroupedStripped(s, Western);
    GroupingsAgree(s, Indian, Western);
    MarksDiffer();
  }

  lemma MarksDiffer()
    ensures forall k: nat | k < 5 :: Marks(Indian, k) == Marks(Western, k)
    ensures Marks(Indian, 5) != Marks(Western, 5)
  {
  }

  /** What formatPrice prints, getNumber reads back. */
  lemma NumberOfPrinted(data: map<string, Engine.Value>, key: string, n: int64)
    ensures Engine.GetNumber(data[key := Engine.Str(FormatPrice(n))], key) == Some(n)
  {
    PrintersDifferInCommasOnly(n);
    ItoaHasNo(n, ' ');
    ParseItoa(n);
  }
}
