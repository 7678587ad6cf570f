/**
 * `calculateSign`: from a date string to a sign, through the cache of
 * resolved signs and the memo of lunar new year boundaries.
 *
 * Turning the string into calendar fields (`new Date(dateStr)` and its local
 * getters) depends on the host's parser and time zone; the resolver takes it
 * as the function `parse`, which yields nothing for an invalid date.
 */
module Resolver {

  import opened Wrappers
  import opened Config
  import opened Gregorian
  import opened Ephemeris
  import opened Zodiac
  import opened Cache

  /** The sign a date string resolves to: none for the empty or unparseable string. */
  function SignFor(parse: string -> Option<Date>, dateStr: string): (r: Option<Sign>)
    ensures r.None? <==> |dateStr| == 0 || parse(dateStr).None?
    ensures r.Some? ==> r.value == SignOf(parse(dateStr).value)
  {
    if |dateStr| == 0 then None
    else match parse(dateStr)
      case None => None
      case Some(d) => Some(SignOf(d))
  }

  /** Every sign cached in `st` is the one its key resolves to. */
  ghost predicate Resolved(parse: string -> Option<Date>, st: CacheState<string, Sign>) {
    forall k :: k in st.entries ==> SignFor(parse, k) == Some(st.entries[k])
  }

  /** Caching the sign a key resolves to keeps every cached sign right. */
  lemma SetKeepsResolved(parse: string -> Option<Date>, st: CacheState<string, Sign>, key: string, sign: Sign)
    requires WellFormed(st) && Resolved(parse, st) && SignFor(parse, key) == Some(sign)
    ensures Resolved(parse, AfterSet(st, key, sign))
  {
    forall k | k in AfterSet(st, key, sign).entries
      ensures SignFor(parse, k) == Some(AfterSet(st, key, sign).entries[k])
    {
      if k != key {
        SetKeepsOthers(st, key, sign, k);
      }
    }
  }

  class SignResolver {

    const parse: string -> Option<Date>
    const signs: FifoCache<string, Sign>
    const lunar: LunarNewYearCache

    /** Both caches are consistent, and every cached sign is the one its key resolves to. */
    ghost predicate Valid()
      reads this, signs, lunar
    {
      && signs.Valid()
      && lunar.Valid()
      && Resolved(parse, signs.State())
    }

    constructor (parse: string -> Option<Date>)
      ensures Valid() && this.parse == parse
      ensures fresh(signs) && fresh(lunar)
      ensures signs.State() == Empty() && lunar.memo == map[]
    {
      this.parse := parse;
      signs := new FifoCache();
      lunar := new LunarNewYearCache();
    }

    /**
     * The body of `calculateSign` once the date is known: the boundary of its
     * calendar year (through the memo), the effective year, and the animal and
     * element of that year.
     */
    method SignOfDate(d: Date) returns (sign: Sign)
      requires lunar.Valid()
      modifies lunar
      ensures lunar.Valid()
      ensures sign == SignOf(d)
      ensures lunar.memo == if MinYear <= d.year <= MaxYear then old(lunar.memo)[d.year := sign.lunarNewYear] else old(lunar.memo)
    {
      var year, month, day := d.year, d.month, d.day;
      var effectiveYear := year;
      var lunarStart := lunar.GetLunarNewYear(year);
      if month < lunarStart.month || (month == lunarStart.month && day < lunarStart.day) {
        effectiveYear := effectiveYear - 1;
      }
      assert effectiveYear == EffectiveYear(year, month, day, lunarStart);
      var animalIndex := Mod(effectiveYear - MinYear, 12);
      var elemIdx := ElementIndex(effectiveYear);
      assert animalIndex == AnimalIndex(effectiveYear);
      sign := Sign(Animals[animalIndex], Elements[elemIdx], effectiveYear, year, lunarStart);
    }

    /**
     * `calculateSign(dateStr)`: the cached sign when there is one; otherwise
     * the date is parsed, its effective lunar year found against the boundary
     * of its calendar year, the animal and element read off, and the new sign
     * cached under the string.
     */
    method CalculateSign(dateStr: string) returns (r: Option<Sign>)
      requires Valid()
      modifies signs, lunar
      ensures Valid()
      ensures r == SignFor(parse, dateStr)
      ensures signs.State()
           == if |dateStr| == 0 || dateStr in old(signs.entries) || parse(dateStr).None? then old(signs.State())
              else AfterSet(old(signs.State()), dateStr, r.value)
      ensures lunar.memo
           == if |dateStr| == 0 || dateStr in old(signs.entries) || parse(dateStr).None?
                 || !(MinYear <= parse(dateStr).value.year <= MaxYear) then old(lunar.memo)
              else old(lunar.memo)[parse(dateStr).value.year := r.value.lunarNewYear]
    {
      if |dateStr| == 0 {
        return None;
      }
      var cached := signs.Get(dateStr);
      if cached.Some? {
        return cached;
      }
      var parsed := parse(dateStr);
      if parsed.None? {
        return None;
      }
      var sign := SignOfDate(parsed.value);
      SetKeepsResolved(parse, signs.State(), dateStr, sign);
      signs.Set(dateStr, sign);
      r := Some(sign);
    }

  }

}
