/** The estimate of a used vehicle's price. Floating point is taken as exact; conversions to int truncate. */
module Valuation {
  import opened Text

  const THIS_YEAR := 2026
  const KM_PER_YEAR := 12000
  const STEP := 5000
  const LEAST := 75000
  const GREATEST := 95000000

  predicate ContainsOne(s: string, words: seq<string>) {
    words != [] && (Contains(s, words[0]) || ContainsOne(s, words[1..]))
  }

  /** The value of a new vehicle, by tier. */
  function BasePrice(brand: string, model: string): (r: int)
    ensures 600000 <= r <= 7500000
  {
    var b, m := Lower(Trim(brand)), Lower(Trim(model));
    if ContainsOne(m, ["m4", "m3", "m5", "amg", "911", "gt-r"]) then 7500000
    else if ContainsOne(b, ["bmw", "mercedes", "audi", "jaguar", "land rover", "porsche"]) then 2800000
    else if Contains(b, "toyota") && ContainsOne(m, ["fortuner", "innova", "camry"]) then 1800000
    else if ContainsOne(b, ["jeep", "skoda", "volkswagen", "mg"]) then 1200000
    else if ContainsOne(b, ["hyundai", "kia", "tata", "mahindra", "honda"]) then 900000
    else if ContainsOne(b, ["maruti", "suzuki", "renault", "nissan", "proton", "perodua"]) then 650000
    else 600000
  }

  /** Worst first. */
  datatype Grade = Poor | Fair | Good | Excellent

  function GradeOf(condition: string): Grade {
    var c := Lower(condition);
    if ContainsOne(c, ["excellent", "mint", "like new"]) then Excellent
    else if ContainsOne(c, ["poor", "rough", "damaged"]) then Poor
    else if ContainsOne(c, ["fair", "average"]) then Fair
    else Good
  }

  function Factor(g: Grade): real {
    match g
    case Poor => 0.75
    case Fair => 0.90
    case Good => 1.00
    case Excellent => 1.10
  }

  function Rank(g: Grade): nat {
    match g
    case Poor => 0
    case Fair => 1
    case Good => 2
    case Excellent => 3
  }

  /** A year out of range counts as four years ago. */
  function Age(year: int): (a: nat)
    ensures a < 36
  {
    if year <= 1990 || year > THIS_YEAR then 4 else THIS_YEAR - year
  }

  function DepreciatedYears(age: nat): nat {
    if age < 15 then age else 15
  }

  function Depreciated(base: real, years: nat): real {
    if years == 0 then base else Depreciated(base, years - 1) * 0.88
  }

  function ForMileage(value: real, age: nat, km: int): real {
    var diff := km - age * KM_PER_YEAR;
    if km <= 0 then value
    else if diff > 0 then value - diff as real * 0.80
    else value + (-diff) as real * 0.50
  }

  /** Go's conversion of a float to an int. */
  function Truncate(x: real): int {
    if x < 0.0 then -(-x).Floor else x.Floor
  }

  /** Go's division of ints. */
  function Quotient(n: int, d: nat): int
    requires d > 0
  {
    if n < 0 then -(-n / d) else n / d
  }

  /** A price the customer named, when it is near enough to the estimate. */
  function Blend(value: int, expected: int): int {
    if expected > 50000 && Quotient(value * 7, 10) <= expected <= Quotient(value * 13, 10) then
      Truncate(value as real * 0.6 + expected as real * 0.4)
    else value
  }

  function Clamp(value: int): int {
    if value < LEAST then LEAST else if value > GREATEST then GREATEST else value
  }

  function Rounded(value: int): int {
    Clamp(Quotient(value, STEP) * STEP)
  }

  function Estimate(base: int, age: nat, km: int, grade: Grade): real {
    ForMileage(Depreciated(base as real, DepreciatedYears(age)), age, km) * Factor(grade)
  }

  function Value(base: int, year: int, km: int, grade: Grade, expected: int): int {
    Rounded(Blend(Truncate(Estimate(base, Age(year), km, grade)), expected))
  }

  method Depreciate(base: int, age: nat) returns (depreciated: real)
    ensures depreciated == Depreciated(base as real, DepreciatedYears(age))
  {
    depreciated := base as real;
    var i := 0;
    while i < age && i < 15
      invariant 0 <= i <= age && i <= 15
      invariant depreciated == Depreciated(base as real, i)
    {
      depreciated := depreciated * 0.88;
      i := i + 1;
    }
  }

  method AdjustForMileage(value: real, age: nat, km: int) returns (adjusted: real)
    ensures adjusted == ForMileage(value, age, km)
  {
    adjusted := value;
    if km > 0 {
      var diff := km - age * KM_PER_YEAR;
      if diff > 0 {
        adjusted := adjusted - diff as real * 0.80;
      } else {
        adjusted := adjusted + (-diff) as real * 0.50;
      }
    }
  }

  method Round(estimate: int) returns (value: int)
    ensures value == Rounded(estimate)
  {
    value := Quotient(estimate, STEP) * STEP;
    if value < LEAST {
      value := LEAST;
    }
    if value > GREATEST {
      value := GREATEST;
    }
  }

  method EstimateFor(base: int, age: nat, km: int, grade: Grade, expected: int) returns (value: int)
    ensures value == Rounded(Blend(Truncate(Estimate(base, age, km, grade)), expected))
  {
    var depreciated := Depreciate(base, age);
    depreciated := AdjustForMileage(depreciated, age, km);
    depreciated := depreciated * Factor(grade);
    value := Round(Blend(Truncate(depreciated), expected));
  }

  method EstimateVehicleValuation(brand: string, model: string, year: int, km: int, condition: string, expected: int)
    returns (value: int)
    ensures value == Value(BasePrice(brand, model), year, km, GradeOf(condition), expected)
  {
    value := EstimateFor(BasePrice(brand, model), Age(year), km, GradeOf(condition), expected);
  }

  /** Whatever is valued: a multiple of 5,000 within the bounds. */
  lemma ValueIsRoundAndBounded(base: int, year: int, km: int, grade: Grade, expected: int)
    ensures
      var v := Value(base, year, km, grade, expected);
      LEAST <= v <= GREATEST && v % STEP == 0
  {
    RoundedIsRound(Blend(Truncate(Estimate(base, Age(year), km, grade)), expected));
  }

  lemma RoundedIsRound(n: int)
    ensures LEAST <= Rounded(n) <= GREATEST && Rounded(n) % STEP == 0
  {
  }

  lemma QuotientIsMonotone(m: int, n: int)
    requires m <= n
    ensures Quotient(m, STEP) <= Quotient(n, STEP)
  {
  }

  lemma TruncateIsMonotone(x: real, y: real)
    requires x <= y
    ensures Truncate(x) <= Truncate(y)
  {
  }

  /** What an estimate becomes when no price was named. */
  function Final(x: real): int {
    Rounded(Truncate(x))
  }

  lemma FinalIsMonotone(x: real, y: real)
    requires x <= y
    ensures Final(x) <= Final(y)
  {
    TruncateIsMonotone(x, y);
    QuotientIsMonotone(Truncate(x), Truncate(y));
  }

  lemma NegativeIsLeast(x: real)
    requires x <= 0.0
    ensures Final(x) == LEAST
  {
  }

  lemma FactorIsMonotone(x: real, y: real, grade: Grade)
    requires x <= y
    ensures x * Factor(grade) <= y * Factor(grade)
  {
  }

  /** More kilometres never raise the value, across the change of slope at the expected mileage. */
  lemma MileageNeverRaises(base: int, year: int, km: int, more: int, grade: Grade)
    requires 1 <= km <= more
    ensures Value(base, year, more, grade, 0) <= Value(base, year, km, grade, 0)
  {
    var age := Age(year);
    var d := Depreciated(base as real, DepreciatedYears(age));
    FactorIsMonotone(ForMileage(d, age, more), ForMileage(d, age, km), grade);
    FinalIsMonotone(Estimate(base, age, more, grade), Estimate(base, age, km, grade));
  }

  /** A better condition never lowers the value, even where the mileage makes the estimate negative. */
  lemma ConditionNeverLowers(base: int, year: int, km: int, worse: Grade, better: Grade)
    requires Rank(worse) <= Rank(better)
    ensures Value(base, year, km, worse, 0) <= Value(base, year, km, better, 0)
  {
    GradesInOrder(ForMileage(Depreciated(base as real, DepreciatedYears(Age(year))), Age(year), km), worse, better);
    UnblendedValue(base, year, km, worse);
    UnblendedValue(base, year, km, better);
  }

  lemma UnblendedValue(base: int, year: int, km: int, grade: Grade)
    ensures Value(base, year, km, grade, 0)
         == Final(ForMileage(Depreciated(base as real, DepreciatedYears(Age(year))), Age(year), km) * Factor(grade))
  {
  }

  lemma GradesInOrder(x: real, worse: Grade, better: Grade)
    requires Rank(worse) <= Rank(better)
    ensures Final(x * Factor(worse)) <= Final(x * Factor(better))
  {
    if x <= 0.0 {
      assert x * Factor(worse) <= 0.0 && x * Factor(better) <= 0.0;
      NegativeIsLeast(x * Factor(worse));
      NegativeIsLeast(x * Factor(better));
    } else {
      BetterFactor(x, worse, better);
      FinalIsMonotone(x * Factor(worse), x * Factor(better));
    }
  }

  lemma BetterFactor(x: real, worse: Grade, better: Grade)
    requires x >= 0.0 && Rank(worse) <= Rank(better)
    ensures x * Factor(worse) <= x * Factor(better)
  {
    assert Factor(worse) <= Factor(better);
  }

  lemma {:induction false} DepreciatedFalls(base: real, years: nat)
    requires base >= 0.0
    ensures 0.0 <= Depreciated(base, years + 1) <= Depreciated(base, years)
  {
    if years > 0 {
      DepreciatedFalls(base, years - 1);
    }
  }

  lemma {:induction false} DepreciatedIsAntitone(base: real, m: nat, n: nat)
    requires base >= 0.0 && m <= n
    ensures Depreciated(base, n) <= Depreciated(base, m)
  {
    if m < n {
      DepreciatedFalls(base, n - 1);
      DepreciatedIsAntitone(base, m, n - 1);
    }
  }

  /** When the mileage is unknown, a newer year never lowers the value. */
  lemma NewerNeverLowersWithoutMileage(base: int, year: int, newer: int, km: int, grade: Grade)
    requires base >= 0 && km <= 0 && 1991 <= year <= newer <= THIS_YEAR
    ensures Value(base, year, km, grade, 0) <= Value(base, newer, km, grade, 0)
  {
    var older, younger := DepreciatedYears(Age(year)), DepreciatedYears(Age(newer));
    DepreciatedIsAntitone(base as real, younger, older);
    FactorIsMonotone(Depreciated(base as real, older), Depreciated(base as real, younger), grade);
    FinalIsMonotone(Estimate(base, Age(year), km, grade), Estimate(base, Age(newer), km, grade));
  }

  /** The first fifteen years take off at least 9,600 each, more than a year's expected mileage is worth. */
  lemma {:induction false} EarlyYearsAreSteep(base: real, years: nat)
    requires base >= 600000.0 && years < 15
    ensures Depreciated(base, years) * 0.12 >= 9600.0
  {
    FourteenYears(base);
    DepreciatedIsAntitone(base, years, 14);
  }

  lemma FourteenYears(base: real)
    requires base >= 600000.0
    ensures Depreciated(base, 14) >= 90000.0
  {
    SevenYears(base);
    assert Depreciated(base, 8) >= 211200.0;
    assert Depreciated(base, 9) >= 185000.0;
    assert Depreciated(base, 10) >= 162000.0;
    assert Depreciated(base, 11) >= 142000.0;
    assert Depreciated(base, 12) >= 124000.0;
    assert Depreciated(base, 13) >= 109000.0;
  }

  lemma SevenYears(base: real)
    requires base >= 600000.0
    ensures Depreciated(base, 7) >= 240000.0
  {
    assert Depreciated(base, 1) >= 528000.0;
    assert Depreciated(base, 2) >= 464000.0;
    assert Depreciated(base, 3) >= 408000.0;
    assert Depreciated(base, 4) >= 359000.0;
    assert Depreciated(base, 5) >= 315000.0;
    assert Depreciated(base, 6) >= 277000.0;
  }

  /** A year younger: the estimate before the condition. */
  lemma OneYearYounger(base: int, age: nat, km: int)
    requires base >= 600000 && 1 <= age && km >= 1
    ensures
      if age <= 15 then Worth(base, age, km) <= Worth(base, age - 1, km) else Worth(base, age - 1, km) < Worth(base, age, km)
  {
    if age <= 15 {
      EarlyYearsAreSteep(base as real, age - 1);
    }
  }

  lemma AgeOf(year: int)
    requires 1991 <= year <= THIS_YEAR
    ensures Age(year) == THIS_YEAR - year
  {
  }

  /** The estimate before the condition. */
  function Worth(base: int, age: nat, km: int): real {
    ForMileage(Depreciated(base as real, DepreciatedYears(age)), age, km)
  }

  lemma WorthFinally(base: int, year: int, km: int, grade: Grade)
    requires 1991 <= year <= THIS_YEAR
    ensures Value(base, year, km, grade, 0) == Final(Worth(base, THIS_YEAR - year, km) * Factor(grade))
  {
    AgeOf(year);
    UnblendedValue(base, year, km, grade);
  }

  /** With a known mileage, a vehicle one year newer is worth no less up to fifteen years of age, and no more beyond:
      depreciation stops there, while the mileage expected of an older vehicle goes on rising. */
  lemma NewerWithMileage(base: int, year: int, km: int, grade: Grade)
    requires base >= 600000 && km >= 1 && 1991 <= year < THIS_YEAR
    ensures THIS_YEAR - year <= 15 ==> Value(base, year, km, grade, 0) <= Value(base, year + 1, km, grade, 0)
    ensures THIS_YEAR - year > 15 ==> Value(base, year + 1, km, grade, 0) <= Value(base, year, km, grade, 0)
  {
    WorthFinally(base, year, km, grade);
    WorthFinally(base, year + 1, km, grade);
    WorthInOrder(base, THIS_YEAR - year, km, grade);
  }

  lemma WorthInOrder(base: int, age: nat, km: int, grade: Grade)
    requires base >= 600000 && 1 <= age && km >= 1
    ensures age <= 15 ==> Final(Worth(base, age, km) * Factor(grade)) <= Final(Worth(base, age - 1, km) * Factor(grade))
    ensures age > 15 ==> Final(Worth(base, age - 1, km) * Factor(grade)) <= Final(Worth(base, age, km) * Factor(grade))
  {
    OneYearYounger(base, age, km);
    InOrder(Worth(base, age, km), Worth(base, age - 1, km), grade);
  }

  lemma InOrder(x: real, y: real, grade: Grade)
    ensures x <= y ==> Final(x * Factor(grade)) <= Final(y * Factor(grade))
    ensures y <= x ==> Final(y * Factor(grade)) <= Final(x * Factor(grade))
  {
    if x <= y {
      FactorIsMonotone(x, y, grade);
      FinalIsMonotone(x * Factor(grade), y * Factor(grade));
    }
    if y <= x {
      FactorIsMonotone(y, x, grade);
      FinalIsMonotone(y * Factor(grade), x * Factor(grade));
    }
  }

  lemma EightYearsOfPremium()
    ensures 1006000.0 <= Depreciated(2800000.0, 8) <= 1008000.0
  {
    assert Depreciated(2800000.0, 1) == 2464000.0;
    assert Depreciated(2800000.0, 2) == 2168320.0;
    assert 1908100.0 <= Depreciated(2800000.0, 3) <= 1908200.0;
    assert 1679100.0 <= Depreciated(2800000.0, 4) <= 1679300.0;
    assert 1477600.0 <= Depreciated(2800000.0, 5) <= 1477800.0;
    assert 1300200.0 <= Depreciated(2800000.0, 6) <= 1300500.0;
    assert 1144100.0 <= Depreciated(2800000.0, 7) <= 1144500.0;
  }

  lemma FifteenYearsOfPremium()
    ensures 410900.0 <= Depreciated(2800000.0, 15) <= 413000.0
  {
    EightYearsOfPremium();
    assert 885200.0 <= Depreciated(2800000.0, 9) <= 887100.0;
    assert 778900.0 <= Depreciated(2800000.0, 10) <= 780700.0;
    assert 685400.0 <= Depreciated(2800000.0, 11) <= 687100.0;
    assert 603100.0 <= Depreciated(2800000.0, 12) <= 604700.0;
    assert 530700.0 <= Depreciated(2800000.0, 13) <= 532200.0;
    assert 467000.0 <= Depreciated(2800000.0, 14) <= 468400.0;
  }

  lemma RoundedAt(d: real)
    requires 410900.0 <= d <= 413000.0
    ensures Final(ForMileage(d, 15, 1) * Factor(Good)) == 500000
    ensures Final(ForMileage(d, 16, 1) * Factor(Good)) == 505000
  {
    assert ForMileage(d, 15, 1) * Factor(Good) == d + 89999.5;
    assert ForMileage(d, 16, 1) * Factor(Good) == d + 95999.5;
  }

  /** A premium car of 2011 with one kilometre is worth less than the same car of 2010. */
  lemma OlderCanBeWorthMore()
    ensures Value(2800000, 2011, 1, Good, 0) == 500000
    ensures Value(2800000, 2010, 1, Good, 0) == 505000
  {
    FifteenYearsOfPremium();
    RoundedAt(Depreciated(2800000.0, 15));
    UnblendedValue(2800000, 2011, 1, Good);
    UnblendedValue(2800000, 2010, 1, Good);
    assert DepreciatedYears(15) == DepreciatedYears(16) == 15;
  }
}
