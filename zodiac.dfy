/**
 * Sign resolution: the effective lunar year of a civil date, and the animal
 * and element of that year (`calculateSign` from the date fields onward,
 * with `mod` and the decimal last-digit rule for the element).
 */
module Zodiac {

  import opened Config
  import opened Gregorian
  import opened Ephemeris

  /** The twelve animals in cycle order; index 0 belongs to 1900. */
  const Animals: seq<string> := [
    "Rato", "Boi", "Tigre", "Coelho", "Drag\U{e3}o", "Serpente",
    "Cavalo", "Cabra", "Macaco", "Galo", "C\U{e3}o", "Porco"
  ]

  /** The elements indexed by the last decimal digit of the year, two digits each. */
  const Elements: seq<string> := [
    "Metal", "Metal",
    "\U{c1}gua", "\U{c1}gua",
    "Madeira", "Madeira",
    "Fogo", "Fogo",
    "Terra", "Terra"
  ]

  /** The animals that have an entry in the profile catalogue (`ANIMAL_PROFILES`). */
  const ProfileAnimals: set<string> := {
    "Rato", "Boi", "Tigre", "Coelho", "Drag\U{e3}o", "Serpente",
    "Cavalo", "Cabra", "Macaco", "Galo", "C\U{e3}o", "Porco"
  }

  /** A resolved sign; the descriptive profile text attached to it is not modelled. */
  datatype Sign = Sign(
    animal: string,
    element: string,
    year: int,             // the effective lunar year
    birthYear: int,        // the calendar year of the date
    lunarNewYear: MonthDay // the boundary used for that calendar year
  )

  // ---------------------------------------------------------------- integer helpers

  /** A non-zero multiple of `m` is at least `m` away from zero. */
  lemma MultipleBounds(m: int, k: int)
    requires m > 0
    ensures k >= 1 ==> m * k >= m
    ensures k <= -1 ==> m * k <= -m
  {
  }

  /** Euclidean quotient and remainder are determined by `a == m * q + r` with `0 <= r < m`. */
  lemma DivModUnique(a: int, m: int, q: int, r: int)
    requires m > 0 && 0 <= r < m && a == m * q + r
    ensures a / m == q && a % m == r
  {
    var k := q - a / m;
    assert m * k == a % m - r;
    MultipleBounds(m, k);
  }

  /**
   * JavaScript's `%`: the remainder of the division truncated toward zero, so
   * it takes the sign of `n`; it differs from the Euclidean `n % m` by `m`
   * exactly for a negative `n` that `m` does not divide.
   */
  function JsRem(n: int, m: int): (r: int)
    requires m > 0
    ensures n >= 0 ==> r == n % m
    ensures n < 0 ==> -m < r <= 0 && (r == n % m || r == n % m - m)
  {
    if n >= 0 then n % m
    else
      var p := (-n) % m;
      DivModUnique(n, m, -((-n) / m) - (if p == 0 then 0 else 1), if p == 0 then 0 else m - p);
      -p
  }

  /** `mod(n, m)`, written `((n % m) + m) % m` over JavaScript's `%`: the non-negative remainder. */
  function Mod(n: int, m: int): (r: int)
    requires m > 0
    ensures 0 <= r < m && r == n % m
  {
    var t := JsRem(n, m);
    if t >= 0 then DivModUnique(t + m, m, 1, t); JsRem(t + m, m)
    else DivModUnique(t + m, m, 0, t + m); JsRem(t + m, m)
  }

  // ---------------------------------------------------------------- decimal text

  function DigitChar(d: int): (c: char)
    requires 0 <= d < 10
    ensures '0' <= c <= '9' && c as int - '0' as int == d
  {
    "0123456789"[d]
  }

  /** The decimal numeral of `n`, most significant digit first. */
  function NatToString(n: nat): (s: string)
    ensures |s| > 0 && s[|s| - 1] == DigitChar(n % 10)
    ensures '0' <= s[0] <= '9'
    decreases n
  {
    if n < 10 then [DigitChar(n)] else NatToString(n / 10) + [DigitChar(n % 10)]
  }

  /** `n.toString()`: a minus sign before the numeral of a negative number. */
  function IntToString(n: int): (s: string)
    ensures |s| > 0 && s[|s| - 1] == DigitChar((if n < 0 then -n else n) % 10)
    ensures s[0] == '-' <==> n < 0
  {
    if n < 0 then "-" + NatToString(-n) else NatToString(n)
  }

  /** `parseInt(c, 10)` of a single decimal digit. */
  function DigitValue(c: char): int
    requires '0' <= c <= '9'
  {
    c as int - '0' as int
  }

  /**
   * `parseInt(year.toString().slice(-1), 10)`: the value of the last character
   * of the numeral, which is the last decimal digit of `|year|`.
   */
  function ElementIndex(year: int): (i: int)
    ensures 0 <= i < 10
    ensures i == (if year < 0 then -year else year) % 10
  {
    var s := IntToString(year);
    DigitValue(s[|s| - 1])
  }

  // ---------------------------------------------------------------- resolution

  /** `(month, day)` falls strictly before the boundary `b`, comparing month first. */
  predicate Before(month: int, day: int, b: MonthDay) {
    month < b.month || (month == b.month && day < b.day)
  }

  /** The lunar year a date belongs to: the calendar year, or the one before it before the boundary. */
  function EffectiveYear(year: int, month: int, day: int, b: MonthDay): (r: int)
    ensures r == year - 1 || r == year
    ensures r == year - 1 <==> Before(month, day, b)
  {
    if Before(month, day, b) then year - 1 else year
  }

  /** The animal index of an effective year, counted from 1900. */
  function AnimalIndex(effectiveYear: int): (i: int)
    ensures 0 <= i < 12
  {
    Mod(effectiveYear - MinYear, 12)
  }

  /** The sign of a civil date: boundary of its calendar year, effective year, animal, element. */
  function SignOf(d: Date): (r: Sign)
    ensures r.birthYear == d.year && r.lunarNewYear == LunarNewYear(d.year)
    ensures r.year == d.year || r.year == d.year - 1
    ensures r.animal in Animals && r.element in Elements
    ensures r.animal == Animals[(r.year - MinYear) % 12]
    ensures r.element == Elements[(if r.year < 0 then -r.year else r.year) % 10]
  {
    var boundary := LunarNewYear(d.year);
    var effectiveYear := EffectiveYear(d.year, d.month, d.day, boundary);
    Sign(Animals[AnimalIndex(effectiveYear)], Elements[ElementIndex(effectiveYear)],
         effectiveYear, d.year, boundary)
  }

  // ---------------------------------------------------------------- properties

  /** The effective year is the year before exactly when the date precedes its year's boundary. */
  lemma EffectiveYearRule(d: Date)
    ensures SignOf(d).year == d.year - 1 <==> Before(d.month, d.day, LunarNewYear(d.year))
    ensures SignOf(d).year == d.year <==> !Before(d.month, d.day, LunarNewYear(d.year))
  {
  }

  /**
   * For every calendar year: 1..20 January belongs to the previous lunar year,
   * and 21 February onward to the calendar year itself.
   */
  lemma EffectiveYearBySeason(d: Date)
    ensures d.month == 1 && d.day <= 20 ==> SignOf(d).year == d.year - 1
    ensures (d.month == 2 && d.day >= 21) || d.month >= 3 ==> SignOf(d).year == d.year
  {
    LunarNewYearInWindow(d.year);
  }

  /** The animals repeat every twelve years and 1900 is the first animal. */
  lemma AnimalCycle(y: int)
    ensures AnimalIndex(y + 12) == AnimalIndex(y)
    ensures AnimalIndex(MinYear) == 0
    ensures AnimalIndex(y) == (y - MinYear) % 12
  {
  }

  /** For the non-negative years the element index is the Euclidean last digit, and repeats every ten years. */
  lemma ElementCycle(y: int)
    requires y >= 0
    ensures ElementIndex(y) == y % 10
    ensures ElementIndex(y + 10) == ElementIndex(y)
  {
    DivModUnique(y + 10, 10, y / 10 + 1, y % 10);
  }

  /** Years with the same last digit have the same element, whatever the century or sign. */
  lemma ElementByLastDigit(y1: int, y2: int)
    requires (if y1 < 0 then -y1 else y1) % 10 == (if y2 < 0 then -y2 else y2) % 10
    ensures Elements[ElementIndex(y1)] == Elements[ElementIndex(y2)]
  {
  }

  /** Every animal of the cycle has a profile entry. */
  lemma EveryAnimalHasProfile(i: int)
    requires 0 <= i < |Animals|
    ensures Animals[i] in ProfileAnimals
  {
  }

  /** 15 May 1990 is after the 1990 boundary (27 January): the Horse of 1990, Metal. */
  lemma WorkedExampleAfterBoundary()
    ensures SignOf(Date(1990, 5, 15)) == Sign("Cavalo", "Metal", 1990, 1990, MonthDay(1, 27))
  {
  }

  /** 10 January 1990 is before the 1990 boundary: the Snake of 1989, Earth. */
  lemma WorkedExampleBeforeBoundary()
    ensures SignOf(Date(1990, 1, 10)) == Sign("Serpente", "Terra", 1989, 1990, MonthDay(1, 27))
  {
  }

}
