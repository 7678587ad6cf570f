/**
 * The lunar new year boundary of a Gregorian year: the ephemeris table for
 * 1900..2100, the fixed fallback outside that range, the nearest-year
 * interpolation for a year the table lacks, and the per-year memo that the
 * boundary lookup keeps.
 */
module Ephemeris {

  import opened Wrappers
  import opened Config
  import opened Gregorian

  /** The (month, day) on which a lunar year starts. */
  datatype MonthDay = MonthDay(month: int, day: int)

  /** The traditional window of a lunar new year: 21 January to 20 February inclusive. */
  predicate InWindow(md: MonthDay) {
    (md.month == 1 && 21 <= md.day <= 31) || (md.month == 2 && 1 <= md.day <= 20)
  }

  /** The boundary returned for a year outside the supported range. */
  const OutOfRangeBoundary: MonthDay := MonthDay(2, 4)

  /** The rows for 1900..1924. */
  function Rows1900(y: int): (md: MonthDay)
    requires 1900 <= y <= 1924
    ensures InWindow(md)
  {
    match y
    case 1900 => MonthDay(1, 31) case 1901 => MonthDay(2, 19) case 1902 => MonthDay(2, 8) case 1903 => MonthDay(1, 29) case 1904 => MonthDay(2, 16)
    case 1905 => MonthDay(2, 4) case 1906 => MonthDay(1, 25) case 1907 => MonthDay(2, 13) case 1908 => MonthDay(2, 2) case 1909 => MonthDay(1, 22)
    case 1910 => MonthDay(2, 10) case 1911 => MonthDay(1, 30) case 1912 => MonthDay(2, 18) case 1913 => MonthDay(2, 6) case 1914 => MonthDay(1, 26)
    case 1915 => MonthDay(2, 14) case 1916 => MonthDay(2, 3) case 1917 => MonthDay(1, 23) case 1918 => MonthDay(2, 11) case 1919 => MonthDay(2, 1)
    case 1920 => MonthDay(2, 20) case 1921 => MonthDay(2, 8) case 1922 => MonthDay(1, 28) case 1923 => MonthDay(2, 16) case 1924 => MonthDay(2, 5)
  }

  /** The rows for 1925..1949. */
  function Rows1925(y: int): (md: MonthDay)
    requires 1925 <= y <= 1949
    ensures InWindow(md)
  {
    match y
    case 1925 => MonthDay(1, 24) case 1926 => MonthDay(2, 13) case 1927 => MonthDay(2, 2) case 1928 => MonthDay(1, 23) case 1929 => MonthDay(2, 10)
    case 1930 => MonthDay(1, 30) case 1931 => MonthDay(2, 17) case 1932 => MonthDay(2, 6) case 1933 => MonthDay(1, 26) case 1934 => MonthDay(2, 14)
    case 1935 => MonthDay(2, 4) case 1936 => MonthDay(1, 24) case 1937 => MonthDay(2, 11) case 1938 => MonthDay(1, 31) case 1939 => MonthDay(2, 19)
    case 1940 => MonthDay(2, 8) case 1941 => MonthDay(1, 27) case 1942 => MonthDay(2, 15) case 1943 => MonthDay(2, 5) case 1944 => MonthDay(1, 25)
    case 1945 => MonthDay(2, 13) case 1946 => MonthDay(2, 2) case 1947 => MonthDay(1, 22) case 1948 => MonthDay(2, 10) case 1949 => MonthDay(1, 29)
  }

  /** The rows for 1950..1974. */
  function Rows1950(y: int): (md: MonthDay)
    requires 1950 <= y <= 1974
    ensures InWindow(md)
  {
    match y
    case 1950 => MonthDay(2, 17) case 1951 => MonthDay(2, 6) case 1952 => MonthDay(1, 27) case 1953 => MonthDay(2, 14) case 1954 => MonthDay(2, 3)
    case 1955 => MonthDay(1, 24) case 1956 => MonthDay(2, 12) case 1957 => MonthDay(1, 31) case 1958 => MonthDay(2, 18) case 1959 => MonthDay(2, 8)
    case 1960 => MonthDay(1, 28) case 1961 => MonthDay(2, 15) case 1962 => MonthDay(2, 5) case 1963 => MonthDay(1, 25) case 1964 => MonthDay(2, 13)
    case 1965 => MonthDay(2, 2) case 1966 => MonthDay(1, 21) case 1967 => MonthDay(2, 9) case 1968 => MonthDay(1, 30) case 1969 => MonthDay(2, 17)
    case 1970 => MonthDay(2, 6) case 1971 => MonthDay(1, 27) case 1972 => MonthDay(2, 15) case 1973 => MonthDay(2, 3) case 1974 => MonthDay(1, 23)
  }

  /** The rows for 1975..1999. */
  function Rows1975(y: int): (md: MonthDay)
    requires 1975 <= y <= 1999
    ensures InWindow(md)
  {
    match y
    case 1975 => MonthDay(2, 11) case 1976 => MonthDay(1, 31) case 1977 => MonthDay(2, 18) case 1978 => MonthDay(2, 7) case 1979 => MonthDay(1, 28)
    case 1980 => MonthDay(2, 16) case 1981 => MonthDay(2, 5) case 1982 => MonthDay(1, 25) case 1983 => MonthDay(2, 13) case 1984 => MonthDay(2, 2)
    case 1985 => MonthDay(2, 20) case 1986 => MonthDay(2, 9) case 1987 => MonthDay(1, 29) case 1988 => MonthDay(2, 17) case 1989 => MonthDay(2, 6)
    case 1990 => MonthDay(1, 27) case 1991 => MonthDay(2, 15) case 1992 => MonthDay(2, 4) case 1993 => MonthDay(1, 23) case 1994 => MonthDay(2, 10)
    case 1995 => MonthDay(1, 31) case 1996 => MonthDay(2, 19) case 1997 => MonthDay(2, 7) case 1998 => MonthDay(1, 28) case 1999 => MonthDay(2, 16)
  }

  /** The rows for 2000..2024. */
  function Rows2000(y: int): (md: MonthDay)
    requires 2000 <= y <= 2024
    ensures InWindow(md)
  {
    match y
    case 2000 => MonthDay(2, 5) case 2001 => MonthDay(1, 24) case 2002 => MonthDay(2, 12) case 2003 => MonthDay(2, 1) case 2004 => MonthDay(1, 22)
    case 2005 => MonthDay(2, 9) case 2006 => MonthDay(1, 29) case 2007 => MonthDay(2, 18) case 2008 => MonthDay(2, 7) case 2009 => MonthDay(1, 26)
    case 2010 => MonthDay(2, 14) case 2011 => MonthDay(2, 3) case 2012 => MonthDay(1, 23) case 2013 => MonthDay(2, 10) case 2014 => MonthDay(1, 31)
    case 2015 => MonthDay(2, 19) case 2016 => MonthDay(2, 8) case 2017 => MonthDay(1, 28) case 2018 => MonthDay(2, 16) case 2019 => MonthDay(2, 5)
    case 2020 => MonthDay(1, 25) case 2021 => MonthDay(2, 12) case 2022 => MonthDay(2, 1) case 2023 => MonthDay(1, 22) case 2024 => MonthDay(2, 10)
  }

  /** The rows for 2025..2049. */
  function Rows2025(y: int): (md: MonthDay)
    requires 2025 <= y <= 2049
    ensures InWindow(md)
  {
    match y
    case 2025 => MonthDay(1, 29) case 2026 => MonthDay(2, 17) case 2027 => MonthDay(2, 6) case 2028 => MonthDay(1, 26) case 2029 => MonthDay(2, 13)
    case 2030 => MonthDay(2, 3) case 2031 => MonthDay(1, 23) case 2032 => MonthDay(2, 11) case 2033 => MonthDay(1, 31) case 2034 => MonthDay(2, 19)
    case 2035 => MonthDay(2, 8) case 2036 => MonthDay(1, 28) case 2037 => MonthDay(2, 15) case 2038 => MonthDay(2, 4) case 2039 => MonthDay(1, 24)
    case 2040 => MonthDay(2, 12) case 2041 => MonthDay(2, 1) case 2042 => MonthDay(1, 22) case 2043 => MonthDay(2, 10) case 2044 => MonthDay(1, 30)
    case 2045 => MonthDay(2, 17) case 2046 => MonthDay(2, 6) case 2047 => MonthDay(1, 26) case 2048 => MonthDay(2, 14) case 2049 => MonthDay(2, 2)
  }

  /** The rows for 2050..2074. */
  function Rows2050(y: int): (md: MonthDay)
    requires 2050 <= y <= 2074
    ensures InWindow(md)
  {
    match y
    case 2050 => MonthDay(1, 23) case 2051 => MonthDay(2, 11) case 2052 => MonthDay(2, 1) case 2053 => MonthDay(2, 19) case 2054 => MonthDay(2, 8)
    case 2055 => MonthDay(1, 28) case 2056 => MonthDay(2, 15) case 2057 => MonthDay(2, 4) case 2058 => MonthDay(1, 24) case 2059 => MonthDay(2, 12)
    case 2060 => MonthDay(2, 2) case 2061 => MonthDay(1, 21) case 2062 => MonthDay(2, 9) case 2063 => MonthDay(1, 29) case 2064 => MonthDay(2, 17)
    case 2065 => MonthDay(2, 5) case 2066 => MonthDay(1, 26) case 2067 => MonthDay(2, 14) case 2068 => MonthDay(2, 3) case 2069 => MonthDay(1, 23)
    case 2070 => MonthDay(2, 11) case 2071 => MonthDay(1, 31) case 2072 => MonthDay(2, 19) case 2073 => MonthDay(2, 7) case 2074 => MonthDay(1, 27)
  }

  /** The rows for 2075..2100. */
  function Rows2075(y: int): (md: MonthDay)
    requires 2075 <= y <= 2100
    ensures InWindow(md)
  {
    match y
    case 2075 => MonthDay(2, 15) case 2076 => MonthDay(2, 5) case 2077 => MonthDay(1, 24) case 2078 => MonthDay(2, 12) case 2079 => MonthDay(2, 2)
    case 2080 => MonthDay(1, 22) case 2081 => MonthDay(2, 9) case 2082 => MonthDay(1, 29) case 2083 => MonthDay(2, 17) case 2084 => MonthDay(2, 6)
    case 2085 => MonthDay(1, 26) case 2086 => MonthDay(2, 14) case 2087 => MonthDay(2, 3) case 2088 => MonthDay(1, 24) case 2089 => MonthDay(2, 10)
    case 2090 => MonthDay(1, 30) case 2091 => MonthDay(2, 18) case 2092 => MonthDay(2, 7) case 2093 => MonthDay(1, 27) case 2094 => MonthDay(2, 15)
    case 2095 => MonthDay(2, 5) case 2096 => MonthDay(1, 25) case 2097 => MonthDay(2, 12) case 2098 => MonthDay(2, 1) case 2099 => MonthDay(1, 21)
    case 2100 => MonthDay(2, 9)
  }

  /**
   * The ephemeris table indexed by year, as the `LUNAR_NEW_YEAR_TABLE` object is;
   * `None` for a year without a row. The rows are grouped by quarter century.
   */
  function TableLookup(y: int): (r: Option<MonthDay>)
    ensures r.Some? <==> MinYear <= y <= MaxYear
    ensures r.Some? ==> InWindow(r.value)
  {
    if y < MinYear || y > MaxYear then None
    else if y <= 1924 then Some(Rows1900(y))
    else if y <= 1949 then Some(Rows1925(y))
    else if y <= 1974 then Some(Rows1950(y))
    else if y <= 1999 then Some(Rows1975(y))
    else if y <= 2024 then Some(Rows2000(y))
    else if y <= 2049 then Some(Rows2025(y))
    else if y <= 2074 then Some(Rows2050(y))
    else Some(Rows2075(y))
  }

  /** Every year of the supported range has a row, and that row lies in the window. */
  lemma TableInWindow(y: int)
    requires MinYear <= y <= MaxYear
    ensures TableLookup(y).Some? && InWindow(TableLookup(y).value)
  {
  }

  /** The table has rows for the supported range and for no other year. */
  lemma TableDomain(y: int)
    ensures TableLookup(y).Some? <==> MinYear <= y <= MaxYear
  {
    if MinYear <= y <= MaxYear {
      TableInWindow(y);
    }
  }

  /** The table's years in ascending order (the sorted keys of the table object). */
  function TableYears(): (ys: seq<int>)
    ensures |ys| == MaxYear - MinYear + 1
    ensures forall i :: 0 <= i < |ys| ==> ys[i] == MinYear + i
    ensures forall y :: y in ys <==> TableLookup(y).Some?
  {
    var ys := seq(MaxYear - MinYear + 1, i => MinYear + i);
    ConsecutiveYears(ys, MinYear);
    ys
  }

  /** A run of consecutive years holds exactly the years from its first to its last. */
  lemma ConsecutiveYears(ys: seq<int>, first: int)
    requires forall i :: 0 <= i < |ys| ==> ys[i] == first + i
    ensures forall y :: y in ys <==> first <= y < first + |ys|
  {
    forall y | first <= y < first + |ys|
      ensures y in ys
    {
      assert ys[y - first] == y;
    }
  }

  /** `Math.abs(a - b)`. */
  function Distance(a: int, b: int): nat {
    if a < b then b - a else a - b
  }

  /** `ys[k]` is at least as close to `year` as any entry, and strictly closer than every earlier one. */
  ghost predicate IsFirstNearest(ys: seq<int>, year: int, k: int) {
    && 0 <= k < |ys|
    && (forall j :: 0 <= j < |ys| ==> Distance(year, ys[k]) <= Distance(year, ys[j]))
    && (forall j :: 0 <= j < k ==> Distance(year, ys[k]) < Distance(year, ys[j]))
  }

  /**
   * The index found by an ascending scan that replaces its candidate only on a
   * strictly smaller distance: the first entry of minimal distance.
   */
  function NearestIndex(ys: seq<int>, year: int): (k: nat)
    requires |ys| > 0
    ensures IsFirstNearest(ys, year, k)
  {
    if |ys| == 1 then 0
    else
      var k := NearestIndex(ys[..|ys| - 1], year);
      if Distance(year, ys[|ys| - 1]) < Distance(year, ys[k]) then |ys| - 1 else k
  }

  lemma FirstNearestUnique(ys: seq<int>, year: int, k1: int, k2: int)
    requires IsFirstNearest(ys, year, k1) && IsFirstNearest(ys, year, k2)
    ensures k1 == k2
  {
    // both distances are minimal, so neither index can lie before the other
    assert Distance(year, ys[k1]) == Distance(year, ys[k2]);
  }

  /** `year` moved into the table's range. */
  function ClampYear(year: int): int {
    if year < MinYear then MinYear else if year > MaxYear then MaxYear else year
  }

  /** Over the contiguous table, the nearest tabulated year is `year` clamped into the range. */
  lemma NearestTableYear(year: int)
    ensures TableYears()[NearestIndex(TableYears(), year)] == ClampYear(year)
  {
    var ys := TableYears();
    var k := ClampYear(year) - MinYear;
    assert IsFirstNearest(ys, year, k);
    FirstNearestUnique(ys, year, k, NearestIndex(ys, year));
  }

  /**
   * The tabulated year the interpolation of `year` starts from: the first
   * entry of the ascending year list nearest to `year`, which over the
   * contiguous table is `year` clamped into the supported range.
   */
  function NearestTabulatedYear(year: int): (c: int)
    ensures c == ClampYear(year)
  {
    var years := TableYears();
    NearestTableYear(year);
    years[NearestIndex(years, year)]
  }

  /**
   * The (month, day) of `d` after the clamp of the interpolation: a January day
   * before the 21st becomes 21 January, a February day after the 20th becomes
   * 20 February, and every other month is kept as it is.
   */
  function ClampToWindow(d: Date): (r: MonthDay)
    ensures r.month == d.month
    ensures d.month == 1 ==> r.day == (if d.day < 21 then 21 else d.day)
    ensures d.month == 2 ==> r.day == (if d.day > 20 then 20 else d.day)
    ensures d.month != 1 && d.month != 2 ==> r.day == d.day
  {
    if d.month == 1 && d.day < 21 then MonthDay(1, 21)
    else if d.month == 2 && d.day > 20 then MonthDay(2, 20)
    else MonthDay(d.month, d.day)
  }

  /** The boundary of a tabulated year as a date of that year. */
  function RowDate(y: int): (d: Date)
    requires MinYear <= y <= MaxYear
    ensures ValidDate(d) && d.year == y
    ensures MonthDay(d.month, d.day) == TableLookup(y).value
  {
    TableInWindow(y);
    var md := TableLookup(y).value;
    Date(y, md.month, md.day)
  }

  /**
   * The interpolated boundary of `year`: the row of the nearest tabulated year,
   * shifted by 11 days per year of difference, then clamped.
   */
  function InterpolatedBoundary(year: int): (r: MonthDay)
    ensures r.month == 1 ==> r.day >= 21
    ensures r.month == 2 ==> r.day <= 20
  {
    var closest := NearestTabulatedYear(year);
    ClampToWindow(AddDays(RowDate(closest), (year - closest) * 11))
  }

  /**
   * The nearest-year scan of `interpolateLunarNewYear`: starting from the first
   * year, a candidate is replaced only by a strictly closer one.
   */
  method ScanNearest(years: seq<int>, year: int) returns (closestYear: int)
    requires |years| > 0
    ensures closestYear == years[NearestIndex(years, year)]
  {
    closestYear := years[0];
    var minDiff := Distance(year, closestYear);
    ghost var ci := 0;
    for i := 0 to |years|
      invariant 0 <= ci <= i && ci < |years|
      invariant closestYear == years[ci] && minDiff == Distance(year, closestYear)
      invariant forall j :: 0 <= j < i ==> minDiff <= Distance(year, years[j])
      invariant forall j :: 0 <= j < ci ==> minDiff < Distance(year, years[j])
    {
      var diff := Distance(year, years[i]);
      if diff < minDiff {
        minDiff := diff;
        closestYear := years[i];
        ci := i;
      }
    }
    assert IsFirstNearest(years, year, ci);
    FirstNearestUnique(years, year, ci, NearestIndex(years, year));
  }

  /** `interpolateLunarNewYear`: the nearest-year scan, the day shift and the clamp. */
  method Interpolate(year: int) returns (md: MonthDay)
    ensures md == InterpolatedBoundary(year)
  {
    var years := TableYears();
    var closestYear := ScanNearest(years, year);
    assert closestYear == NearestTabulatedYear(year);
    var dayShift := (year - closestYear) * 11;
    var resultDate := AddDays(RowDate(closestYear), dayShift);
    // the clamp sets month and day of the shifted date (`setMonth`, `setDate`)
    var month, day := resultDate.month, resultDate.day;
    if month == 1 && day < 21 {
      month, day := 1, 21;
    } else if month == 2 && day > 20 {
      month, day := 2, 20;
    }
    md := MonthDay(month, day);
  }

  /**
   * The boundary `getLunarNewYear` returns: the fallback outside the supported
   * range, the table row inside it, the interpolation for a year without a row.
   */
  function LunarNewYear(year: int): (r: MonthDay)
    ensures MinYear <= year <= MaxYear ==> TableLookup(year) == Some(r)
    ensures !(MinYear <= year <= MaxYear) ==> r == OutOfRangeBoundary
    ensures InWindow(r)
  {
    if year < MinYear || year > MaxYear then OutOfRangeBoundary
    else match TableLookup(year)
      case Some(md) => md
      case None => InterpolatedBoundary(year)
  }

  /** Inside the supported range the boundary is the table row, verbatim, and lies in the window. */
  lemma LunarNewYearInRange(year: int)
    requires MinYear <= year <= MaxYear
    ensures TableLookup(year) == Some(LunarNewYear(year))
    ensures InWindow(LunarNewYear(year))
  {
    TableInWindow(year);
  }

  /** Every boundary, tabulated or fallback, lies in the window. */
  lemma LunarNewYearInWindow(year: int)
    ensures InWindow(LunarNewYear(year))
    ensures (year < MinYear || year > MaxYear) ==> LunarNewYear(year) == MonthDay(2, 4)
  {
    if MinYear <= year <= MaxYear {
      LunarNewYearInRange(year);
    }
  }

  /** The nearest tabulated year is `year` clamped into the table's range. */
  lemma InterpolatedFromClampedYear(year: int)
    ensures var c := ClampYear(year);
      InterpolatedBoundary(year) == ClampToWindow(AddDays(RowDate(c), (year - c) * 11))
  {
  }

  /**
   * The interpolated boundary of `year` is the clamp of the one valid date that
   * lies `11 * (year - c)` days after the row of the nearest tabulated year `c`.
   */
  lemma InterpolatedIsShiftedRow(year: int, e: Date)
    requires ValidDate(e)
    requires DayNumber(e) == DayNumber(RowDate(ClampYear(year))) + (year - ClampYear(year)) * 11
    ensures InterpolatedBoundary(year) == ClampToWindow(e)
  {
    InterpolatedFromClampedYear(year);
    DayNumberInjective(AddDays(RowDate(ClampYear(year)), (year - ClampYear(year)) * 11), e);
  }

  /** Interpolating a tabulated year gives back its row unchanged. */
  lemma InterpolationKeepsRows(y: int)
    requires MinYear <= y <= MaxYear
    ensures TableLookup(y) == Some(InterpolatedBoundary(y))
  {
    InterpolatedFromClampedYear(y);
    TableInWindow(y);
  }

  /** Before the table: 1900's row (31 January) shifted back 11 days is 20 January, clamped to the 21st. */
  lemma InterpolationBeforeTable(year: int)
    requires year == MinYear - 1
    ensures InterpolatedBoundary(year) == MonthDay(1, 21)
  {
    assert RowDate(ClampYear(year)) == Date(1900, 1, 31);
    InterpolatedIsShiftedRow(year, Date(1900, 1, 20));
  }

  /** After the table: 2100's row (9 February) shifted 11 days is 20 February, inside the window. */
  lemma InterpolationAfterTable(year: int)
    requires year == MaxYear + 1
    ensures InterpolatedBoundary(year) == MonthDay(2, 20)
  {
    assert RowDate(ClampYear(year)) == Date(2100, 2, 9);
    InterpolatedIsShiftedRow(year, Date(2100, 2, 20));
  }

  /**
   * Two years after the table the shift reaches 3 March, which the clamp
   * (January and February only) leaves outside the window.
   */
  lemma InterpolationCanLeaveWindow(year: int)
    requires year == MaxYear + 2
    ensures InterpolatedBoundary(year) == MonthDay(3, 3)
    ensures !InWindow(InterpolatedBoundary(year))
  {
    assert RowDate(ClampYear(year)) == Date(2100, 2, 9);
    InterpolatedIsShiftedRow(year, Date(2100, 3, 3));
  }

  /**
   * The memo of boundaries (`lunarNewYearCache`): a year is stored only once
   * resolved inside the supported range, and always with its boundary.
   */
  class LunarNewYearCache {
    var memo: map<int, MonthDay>

    ghost predicate Valid()
      reads this
    {
      forall y :: y in memo ==> MinYear <= y <= MaxYear && memo[y] == LunarNewYear(y)
    }

    constructor ()
      ensures Valid() && memo == map[]
    {
      memo := map[];
    }

    /** `getLunarNewYear`: memo first, then the range check, the table, and the interpolation. */
    method GetLunarNewYear(year: int) returns (md: MonthDay)
      requires Valid()
      modifies this
      ensures Valid()
      ensures md == LunarNewYear(year)
      ensures memo == if MinYear <= year <= MaxYear then old(memo)[year := md] else old(memo)
    {
      if year in memo {
        return memo[year];
      }
      if year < MinYear || year > MaxYear {
        return OutOfRangeBoundary;
      }
      var dateData := TableLookup(year);
      if dateData.Some? {
        md := dateData.value;
      } else {
        md := Interpolate(year);
      }
      memo := memo[year := md];
    }
  }

}
