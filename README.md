# BaZi Master zodiac core in Dafny

This project models the calculation core of BaZi Master, a single-page web
application (`script.js`). Given a birth date, it finds the Chinese zodiac sign:
the animal and the element. For two signs it gives a compatibility score.

The model covers four parts:

- **Lunar new year boundary** (`getLunarNewYear`, `interpolateLunarNewYear`,
  `LUNAR_NEW_YEAR_TABLE`), in `ephemeris.dfy`.
  - The ephemeris table gives the first day of the lunar year for 1900..2100.
  - A year outside that range gets the fallback 4 February.
  - A year the table lacks is interpolated. The nearest tabulated year is
    found by an ascending scan, its date is shifted by 11 days per year of
    difference, and the result is clamped in January and February.
  - In-range results are memoised in `lunarNewYearCache`, modelled by the
    class `LunarNewYearCache`.
  - The shift uses the `Date` arithmetic of JavaScript (`setDate`). It is
    modelled in `gregorian.dfy` by proleptic Gregorian day numbers.
- **Sign resolution** (`calculateSign` from the date fields onward, `mod`, the
  `ANIMALS` / `ELEMENTS` tables), in `zodiac.dfy` and `resolver.dfy`.
  - The effective lunar year is the calendar year, or the year before for a
    date before that year's boundary.
  - The animal index is `mod(effectiveYear - 1900, 12)`.
  - The element is read off the last character of the decimal numeral of the
    effective year.
- **Compatibility score** (`computeSynergyScore`, `normalizeElement`,
  `clamp`), in `synergy.dfy`.
  - The base score comes from the distance of the two elements on the
    five-phase cycle.
  - Five points are added when both animals share a triad.
  - The sum is clamped to 30..100.
- **Cache of resolved signs** (`calculationCache` with `getCachedResult` /
  `setCachedResult`), in `cache.dfy`. It is a map in insertion order with at
  most `CACHE_SIZE` (100) entries; a write to a full cache first drops the
  oldest key.

`config.dfy` holds the `CONFIG` bounds. `wrappers.dfy` holds the `Option` type
that stands for the source's `null` results.

The pure parts are functions with lemmas. The parts of the source that change
state are methods:

- the nearest-year scan (`Ephemeris.ScanNearest`);
- the interpolation (`Ephemeris.Interpolate`);
- the boundary memo (`Ephemeris.LunarNewYearCache`);
- the triad scan (`Synergy.FindSharedTriad`);
- the sign cache (`Cache.FifoCache`);
- the resolver (`Resolver.SignResolver`).

Each method is proved against the pure function that specifies it.

Three behaviours of the code are worth stating outright:

- **Element of a negative year.** The element index is the last digit of
  `effectiveYear.toString()`, so a negative year uses the last digit of its
  absolute value, not the Euclidean `effectiveYear mod 10`. The two agree for
  every year from 0 on (`Zodiac.ElementCycle`), and every year the
  application resolves is in that range.
- **Interpolation clamp.** The clamp acts only on a January date before the
  21st and a February date after the 20th. A shift into March or December is
  kept as it is, although the comment at `script.js:172` describes the result
  as lying in 21 January .. 20 February.
  `Ephemeris.InterpolationCanLeaveWindow` shows 3 March for 2102. No call of
  `getLunarNewYear` reaches the interpolation: every year of 1900..2100 has a
  row, and every other year returns the fallback first.
- **Writing a known key to a full cache.** When the cache is full,
  `setCachedResult` evicts the oldest key even if the key being written is
  already cached. `calculateSign` only writes keys it did not find, so it
  never meets this case.

## Model

| member | source | states |
|---|---|---|
| Gregorian.AddDays | script.js:167-170 | the date `k` days after a valid date is valid and its day number is exactly `k` more, for negative `k` as well (`setDate` with an overflowing day) |
| Gregorian.AddDaysUnique | script.js:167-170 | the shifted date is the one valid date with that day number |
| Ephemeris.TableInWindow | script.js:51-106 | every year 1900..2100 has a row, and every row lies between 21 January and 20 February |
| Ephemeris.Rows1900 | script.js:53-57 | the rows for 1900..1924, each inside 21 January .. 20 February |
| Ephemeris.Rows1925 | script.js:58-64 | the rows for 1925..1949, each inside the window |
| Ephemeris.Rows1950 | script.js:65-71 | the rows for 1950..1974, each inside the window |
| Ephemeris.Rows1975 | script.js:72-78 | the rows for 1975..1999, each inside the window |
| Ephemeris.Rows2000 | script.js:79-85 | the rows for 2000..2024, each inside the window |
| Ephemeris.Rows2025 | script.js:86-90 | the rows for 2025..2049, each inside the window |
| Ephemeris.Rows2050 | script.js:93-97 | the rows for 2050..2074, each inside the window |
| Ephemeris.Rows2075 | script.js:98-105 | the rows for 2075..2100, each inside the window |
| Ephemeris.TableLookup | script.js:51-106 | the table has a row exactly for the years 1900..2100, and each row lies in the window |
| Ephemeris.TableDomain | script.js:51-106 | the table has a row exactly for the years 1900..2100 |
| Ephemeris.TableYears | script.js:148 | the sorted keys of the table are 1900, 1901, …, 2100: ascending, consecutive, and exactly the years that have a row |
| Ephemeris.NearestIndex | script.js:150-159 | the scan's index has minimal distance to the year and is strictly closer than every earlier entry, so ties go to the earlier year |
| Ephemeris.ScanNearest | script.js:150-159 | the loop over the ascending years with a strict `<` returns the first nearest year |
| Ephemeris.NearestTabulatedYear | script.js:148-159 | over the contiguous table the nearest year is the year clamped into 1900..2100 |
| Ephemeris.ClampToWindow | script.js:173-179 | a January day before the 21st becomes 21 January, a February day after the 20th becomes 20 February, every other date keeps its month and day |
| Ephemeris.InterpolatedBoundary | script.js:146-185 | the interpolated boundary is never a January day before the 21st nor a February day after the 20th |
| Ephemeris.RowDate | script.js:161-168 | the base date built from a row is a valid date of the tabulated year whose month and day are that row |
| Ephemeris.Interpolate | script.js:146-185 | the scan, the 11-day-per-year shift and the clamp compute the interpolated boundary |
| Ephemeris.InterpolatedFromClampedYear | script.js:148-170 | the interpolation shifts the row of the clamped year by `11 * (year - clamped)` days |
| Ephemeris.InterpolatedIsShiftedRow | script.js:161-179 | the interpolated boundary is the clamp of the valid date with the shifted day number |
| Ephemeris.InterpolationKeepsRows | script.js:146-185 | interpolating a tabulated year gives back its row |
| Ephemeris.InterpolationBeforeTable | script.js:161-179 | for 1899 the shift reaches 20 January, which is clamped to 21 January |
| Ephemeris.InterpolationAfterTable | script.js:161-179 | for 2101 the shift reaches 20 February, inside the window |
| Ephemeris.InterpolationCanLeaveWindow | script.js:161-179 | for 2102 the shift reaches 3 March, which the clamp leaves outside the window |
| Ephemeris.LunarNewYearInRange | script.js:128-134 | for a year in 1900..2100 the boundary is its table row verbatim and lies in the window |
| Ephemeris.LunarNewYearInWindow | script.js:115-140 | every boundary lies in the window, and a year outside 1900..2100 gets 4 February |
| Ephemeris.LunarNewYear | script.js:115-140 | a year in 1900..2100 gets its table row, any other year 4 February, and every boundary lies in the window |
| Ephemeris.LunarNewYearCache.constructor | script.js:109 | the memo starts empty |
| Ephemeris.LunarNewYearCache.GetLunarNewYear | script.js:115-140 | returns the boundary of the year; stores it only for a year in range; keeps every memo entry equal to the boundary of its year |
| Zodiac.JsRem | script.js:497-499 | JavaScript's `%` takes the sign of the dividend and differs from the Euclidean remainder by `m` at most |
| Zodiac.Mod | script.js:497-499 | `((n % m) + m) % m` is the Euclidean remainder, in 0..m-1 |
| Zodiac.NatToString | script.js:399 | the decimal numeral is non-empty and ends with the digit of `n % 10` |
| Zodiac.IntToString | script.js:399 | `toString()` is non-empty, starts with `-` exactly for a negative number and ends with the last digit of the absolute value |
| Zodiac.ElementIndex | script.js:399 | the value of the numeral's last character is in 0..9 and is the last digit of the absolute value |
| Zodiac.AnimalIndex | script.js:396 | the animal index is in 0..11 |
| Zodiac.SignOf | script.js:383-409 | the sign keeps the calendar year and its boundary, its effective year is that year or the one before, its animal is entry `(year - 1900) mod 12` of the animals and its element entry `abs(year) mod 10` of the elements |
| Zodiac.EffectiveYear | script.js:387-394 | the effective year is the calendar year or the one before, the one before exactly when the date is before the boundary |
| Zodiac.EffectiveYearRule | script.js:387-394 | the effective year is the year before exactly when (month, day) is before the boundary, comparing month first |
| Zodiac.EffectiveYearBySeason | script.js:387-394 | 1..20 January always belongs to the previous lunar year, and 21 February onward to the calendar year |
| Zodiac.AnimalCycle | script.js:188-191 | the animal repeats every 12 years, and 1900 is the first animal |
| Zodiac.ElementCycle | script.js:399-400 | from year 0 on, the element index is `year % 10` and repeats every 10 years |
| Zodiac.ElementByLastDigit | script.js:193-199 | years with the same last digit have the same element, whatever the century |
| Zodiac.EveryAnimalHasProfile | script.js:201-310 | every animal of the cycle has an entry in the profile catalogue |
| Zodiac.WorkedExampleAfterBoundary | script.js:383-409 | 15 May 1990 resolves to 1990, Cavalo, Metal |
| Zodiac.WorkedExampleBeforeBoundary | script.js:383-409 | 10 January 1990 resolves to 1989, Serpente, Terra |
| Synergy.BaseLetter | script.js:494 | decomposing and stripping marks never produces a combining mark and leaves ASCII alone |
| Synergy.NormalizeElement | script.js:492-495 | the result has no combining mark, is no longer than the input, and equals an input without accents or marks |
| Synergy.NormalizeIdempotent | script.js:492-495 | normalising twice is normalising once |
| Synergy.NormalizeConcat | script.js:492-495 | normalisation distributes over concatenation |
| Synergy.IndexOf | script.js:430-431 | `indexOf` is -1 exactly for an absent value; otherwise it is the first position holding the value |
| Synergy.CycleDistance | script.js:436 | the circular distance on five phases is in 0..2 and is 0 exactly for equal positions |
| Synergy.PhaseScore | script.js:433-440 | the base score is 60, 70, 80 or 88; 70 exactly when an element is outside the cycle, 88 exactly for the same phase |
| Synergy.Phase | script.js:429-431 | the normalised name's cycle position is -1 exactly when the name is not in the cycle |
| Synergy.Clamp | script.js:501-503 | `Math.min(max, Math.max(min, value))` lies in [min, max], keeps a value already inside, and gives the nearer bound otherwise |
| Synergy.SynergyScore | script.js:426-457 | the score of two signs lies in 30..100 |
| Synergy.FindSharedTriad | script.js:442-454 | the scan with `break` finds a triad exactly when one holds both animals |
| Synergy.ComputeSynergyScore | script.js:426-457 | no score unless both signs are present; otherwise the score of the two signs |
| Synergy.SynergySymmetric | script.js:426-457 | the score does not depend on the order of the signs |
| Synergy.SynergyRange | script.js:433-456 | every score lies in 60..93, inside [30, 100], so the clamp never changes it |
| Synergy.CycleRelations | script.js:435-440 | the same phase scores 88, neighbouring phases 80 and phases two steps apart 60, in both directions |
| Synergy.ElementPhase | script.js:193-199 | every name in the element table normalises into the cycle ("Água" to "Agua"), digit `d` at position `(d / 2 + 3) % 5` |
| Synergy.PhaseScoreOfDigits | script.js:435-440 | two element digits score 88 exactly for the same element, otherwise 80 or 60 |
| Synergy.TriadMembership | script.js:442-447 | animal `i` belongs to triad `i % 4` and to no other |
| Synergy.TriadByIndex | script.js:442-454 | two animals share a triad exactly when their cycle positions agree modulo 4 |
| Synergy.SynergyOfTabulatedSigns | script.js:426-457 | for signs from the tables the score is one of 60, 65, 80, 85, 88, 93; 88 or 93 exactly for the same element; 65, 85 or 93 exactly for one triad |
| Synergy.SynergyTwoStepsApart | script.js:433-454 | elements two steps apart and animals of different triads score 60 |
| Synergy.UnknownElementIsNeutral | script.js:433-440 | an element name outside the cycle leaves the neutral base, 70 or 75 |
| Cache.Empty | script.js:26 | the empty cache is well formed |
| Cache.Lookup | script.js:28-30 | `Map.get` gives a value exactly for a cached key, and then the stored one |
| Cache.AfterSet | script.js:32-38 | after a write the key holds the value written, no key other than it enters the cache, and the cache holds at most 100 keys |
| Cache.SetKeepsWellFormed | script.js:32-38 | after a write the cache holds at most 100 keys, none twice, in step with the map |
| Cache.LookupAfterSet | script.js:28-38 | reading a key right after writing it gives the value written |
| Cache.SetKeepsOthers | script.js:32-38 | another key keeps its value, and stays exactly when it was cached and was not the oldest key of a full cache |
| Cache.SetEvictsOldest | script.js:33-35 | a write to a full cache removes the earliest inserted key |
| Cache.SetSize | script.js:32-38 | below capacity a new key adds one entry and a known key keeps the order; the size never exceeds 100 |
| Cache.SetAppendsNewKey | script.js:32-38 | a new key is appended after the surviving keys, as the newest |
| Cache.FifoCache.constructor | script.js:26 | the cache starts empty |
| Cache.FifoCache.Get | script.js:28-30 | returns the stored value of the key, or nothing |
| Cache.FifoCache.Set | script.js:32-38 | drops the first key when full, then overwrites or appends; the cache stays well formed |
| Resolver.SetKeepsResolved | script.js:419-420 | caching the sign a string resolves to keeps every cached sign equal to the sign of its key |
| Resolver.SignFor | script.js:373-423 | a date string resolves to nothing exactly when it is empty or does not parse, and otherwise to the sign of its date |
| Resolver.SignResolver.constructor | script.js:26 | the sign cache starts empty, and so does the boundary memo of line 109 |
| Resolver.SignResolver.SignOfDate | script.js:383-409 | computes the sign of the date through the boundary memo |
| Resolver.SignResolver.CalculateSign | script.js:373-423 | returns nothing for an empty or unparseable string, otherwise the sign of its date, cached or not; the sign cache changes only by writing that new sign, and the boundary memo only by storing the boundary of a newly resolved in-range year |

## Left out

- Turning the date string into calendar fields (`new Date(dateStr)`, its local getters and the time zone) is a parameter of the resolver (`parse`). An invalid date is its `None`.
- `ANIMAL_PROFILES` contents: the descriptive text fields of a sign (essence, strength, shadow, skills, challenge, tip, celebrities) are static prose. Only the presence of a profile for every animal is modelled.
- The `console.warn` advisory for an out-of-range year is logging and is not modelled.
- `Synergy.BaseLetter`: canonical decomposition is modelled for the Latin-1 letters only. Any other precomposed character is kept as it is, where `normalize("NFD")` would split it.
- `null` and `undefined` arguments are not modelled. Signs and element names are always values, and the empty string stands for a missing date.
- JavaScript numbers are modelled as unbounded integers. Every year the application handles is far from the range where floating point loses integers.
- `Synergy.FindSharedTriad`: the triad loop of `computeSynergyScore` is a method of its own, called from `Synergy.ComputeSynergyScore`. The body of `calculateSign` after parsing is likewise the method `Resolver.SignResolver.SignOfDate`.
- The DOM and UI code, the history in `localStorage`, `validateDate`, `getCelebrityMatch` (random choice), `buildPairSummary` (narrative text) and `runSystem` (asynchronous orchestration) are outside the core.
