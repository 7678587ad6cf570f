/**
 * Compatibility of two signs (`computeSynergyScore`): a base score from the
 * distance of the two elements on the five-phase cycle, five points more when
 * both animals belong to the same triad, and a final clamp to 30..100.
 */
module Synergy {

  import opened Wrappers
  import opened Zodiac

  // ---------------------------------------------------------------- normalizeElement

  /** A combining diacritical mark (U+0300..U+036F), which the normalisation strips. */
  predicate IsCombiningMark(c: char) {
    '\U{300}' <= c <= '\U{36f}'
  }

  /**
   * The base letter of a Latin-1 letter that canonical decomposition (NFD)
   * splits into a letter and combining marks; any other character is its own
   * decomposition and is returned unchanged.
   */
  function BaseLetter(c: char): (b: char)
    ensures !IsCombiningMark(c) ==> !IsCombiningMark(b)
    ensures c < '\U{c0}' ==> b == c
  {
    if '\U{c0}' <= c <= '\U{c5}' then 'A'
    else if c == '\U{c7}' then 'C'
    else if '\U{c8}' <= c <= '\U{cb}' then 'E'
    else if '\U{cc}' <= c <= '\U{cf}' then 'I'
    else if c == '\U{d1}' then 'N'
    else if '\U{d2}' <= c <= '\U{d6}' then 'O'
    else if '\U{d9}' <= c <= '\U{dc}' then 'U'
    else if c == '\U{dd}' then 'Y'
    else if '\U{e0}' <= c <= '\U{e5}' then 'a'
    else if c == '\U{e7}' then 'c'
    else if '\U{e8}' <= c <= '\U{eb}' then 'e'
    else if '\U{ec}' <= c <= '\U{ef}' then 'i'
    else if c == '\U{f1}' then 'n'
    else if '\U{f2}' <= c <= '\U{f6}' then 'o'
    else if '\U{f9}' <= c <= '\U{fc}' then 'u'
    else if c == '\U{fd}' || c == '\U{ff}' then 'y'
    else c
  }

  /**
   * `normalizeElement`: decompose (NFD) and drop every combining mark, so that
   * "\U{c1}gua" becomes "Agua"; the empty string stays empty.
   */
  function NormalizeElement(s: string): (r: string)
    ensures |r| <= |s|
    ensures forall i :: 0 <= i < |r| ==> !IsCombiningMark(r[i])
    ensures (forall i :: 0 <= i < |s| ==> s[i] < '\U{c0}' && !IsCombiningMark(s[i])) ==> r == s
  {
    if |s| == 0 then ""
    else
      var rest := NormalizeElement(s[1..]);
      if IsCombiningMark(s[0]) then rest else [BaseLetter(s[0])] + rest
  }

  /** Normalising twice is normalising once. */
  lemma {:induction false} NormalizeIdempotent(s: string)
    ensures NormalizeElement(NormalizeElement(s)) == NormalizeElement(s)
  {
    if |s| > 0 {
      var rest := NormalizeElement(s[1..]);
      NormalizeIdempotent(s[1..]);
      if !IsCombiningMark(s[0]) {
        var b := BaseLetter(s[0]);
        BaseLetterFixed(s[0]);
        var r := [b] + rest;
        assert r[0] == b && r[1..] == rest;
      }
    }
  }

  /** A base letter is its own base letter. */
  lemma BaseLetterFixed(c: char)
    ensures BaseLetter(BaseLetter(c)) == BaseLetter(c)
  {
  }

  /** Normalisation works character by character: it distributes over concatenation. */
  lemma {:induction false} NormalizeConcat(s: string, t: string)
    ensures NormalizeElement(s + t) == NormalizeElement(s) + NormalizeElement(t)
  {
    if |s| > 0 {
      assert (s + t)[1..] == s[1..] + t;
      NormalizeConcat(s[1..], t);
    } else {
      assert s + t == t;
    }
  }

  // ---------------------------------------------------------------- the element cycle

  /** The generating cycle of the five phases, with unaccented names. */
  const Cycle: seq<string> := ["Madeira", "Fogo", "Terra", "Metal", "Agua"]

  /** `xs.indexOf(x)`: the first position of `x`, or -1 when it does not occur. */
  function IndexOf<T(==)>(xs: seq<T>, x: T): (i: int)
    ensures -1 <= i < |xs|
    ensures i == -1 <==> x !in xs
    ensures 0 <= i ==> xs[i] == x && x !in xs[..i]
  {
    if |xs| == 0 then -1
    else if xs[0] == x then 0
    else
      var j := IndexOf(xs[1..], x);
      if j == -1 then -1
      else
        assert xs[1..][..j] == xs[1..j + 1];
        assert xs[..j + 1] == [xs[0]] + xs[1..j + 1];
        j + 1
  }

  /** Steps between two positions of the five-phase cycle, going the shorter way round. */
  function CycleDistance(i1: int, i2: int): (d: int)
    requires 0 <= i1 < 5 && 0 <= i2 < 5
    ensures 0 <= d <= 2
    ensures d == 0 <==> i1 == i2
  {
    var a := if i1 < i2 then i2 - i1 else i1 - i2;
    if a < 5 - a then a else 5 - a
  }

  /** The position on the cycle of an element name once normalised, or -1 for a name outside it. */
  function Phase(e: string): (p: int)
    ensures -1 <= p < |Cycle|
    ensures p == -1 <==> NormalizeElement(e) !in Cycle
  {
    IndexOf(Cycle, NormalizeElement(e))
  }

  /**
   * The base score of two phase positions: 88 for the same phase, 80 for
   * neighbouring phases, 60 two steps apart, 70 when either is not a phase.
   */
  function PhaseScore(i1: int, i2: int): (r: int)
    requires -1 <= i1 < 5 && -1 <= i2 < 5
    ensures r == 70 <==> i1 == -1 || i2 == -1
    ensures r == 88 <==> i1 != -1 && i1 == i2
    ensures r == 60 || r == 70 || r == 80 || r == 88
  {
    if i1 == -1 || i2 == -1 then 70
    else
      var diff := CycleDistance(i1, i2);
      if diff == 0 then 88 else if diff == 1 then 80 else 60
  }

  // ---------------------------------------------------------------- triads

  /** The four triads of mutually compatible animals. */
  const Triads: seq<seq<string>> := [
    ["Rato", "Drag\U{e3}o", "Macaco"],
    ["Boi", "Serpente", "Galo"],
    ["Tigre", "Cavalo", "C\U{e3}o"],
    ["Coelho", "Cabra", "Porco"]
  ]

  /** Both animals belong to one of the triads. */
  predicate SharedTriad(a1: string, a2: string) {
    exists t :: 0 <= t < |Triads| && a1 in Triads[t] && a2 in Triads[t]
  }

  /** The scan over the triads, stopping at the first one that holds both animals. */
  method FindSharedTriad(a1: string, a2: string) returns (shared: bool)
    ensures shared == SharedTriad(a1, a2)
  {
    shared := false;
    var t := 0;
    while t < |Triads|
      invariant 0 <= t <= |Triads|
      invariant shared ==> SharedTriad(a1, a2)
      invariant !shared ==> forall u :: 0 <= u < t ==> !(a1 in Triads[u] && a2 in Triads[u])
    {
      if a1 in Triads[t] && a2 in Triads[t] {
        shared := true;
        break;
      }
      t := t + 1;
    }
  }

  // ---------------------------------------------------------------- clamp and score

  /** `clamp(value, min, max)`, written `Math.min(max, Math.max(min, value))`. */
  function Clamp(value: int, lo: int, hi: int): (r: int)
    ensures lo <= hi ==> lo <= r <= hi
    ensures lo <= value <= hi ==> r == value
    ensures value < lo <= hi ==> r == lo
    ensures value > hi ==> r == hi
    ensures lo > hi ==> r == hi
  {
    var raised := if value > lo then value else lo;
    if raised < hi then raised else hi
  }

  /** The compatibility score of two resolved signs. */
  function SynergyScore(s1: Sign, s2: Sign): (r: int)
    ensures 30 <= r <= 100
  {
    Clamp(PhaseScore(Phase(s1.element), Phase(s2.element)) + (if SharedTriad(s1.animal, s2.animal) then 5 else 0), 30, 100)
  }

  /**
   * `computeSynergyScore`: no score unless both signs are present; otherwise
   * the base score, raised by five when a triad holds both animals, clamped.
   */
  method ComputeSynergyScore(s1: Option<Sign>, s2: Option<Sign>) returns (score: Option<int>)
    ensures s1.None? || s2.None? ==> score == None
    ensures s1.Some? && s2.Some? ==> score == Some(SynergyScore(s1.value, s2.value))
  {
    if s1.None? || s2.None? {
      return None;
    }
    var a, b := s1.value, s2.value;
    var i1 := Phase(a.element);
    var i2 := Phase(b.element);
    var base := 70;
    if i1 != -1 && i2 != -1 {
      var diff := CycleDistance(i1, i2);
      if diff == 0 {
        base := 88;
      } else if diff == 1 {
        base := 80;
      } else if diff == 2 {
        base := 60;
      }
    }
    var shared := FindSharedTriad(a.animal, b.animal);
    if shared {
      base := base + 5;
    }
    SynergyRange(a, b);
    score := Some(Clamp(base, 30, 100));
  }

  // ---------------------------------------------------------------- properties

  /** The score does not depend on the order of the two signs. */
  lemma SynergySymmetric(s1: Sign, s2: Sign)
    ensures SynergyScore(s1, s2) == SynergyScore(s2, s1)
  {
    PhaseScoreSymmetric(Phase(s1.element), Phase(s2.element));
    SharedTriadSymmetric(s1.animal, s2.animal);
  }

  lemma PhaseScoreSymmetric(p1: int, p2: int)
    requires -1 <= p1 < 5 && -1 <= p2 < 5
    ensures PhaseScore(p1, p2) == PhaseScore(p2, p1)
  {
  }

  lemma SharedTriadSymmetric(a1: string, a2: string)
    ensures SharedTriad(a1, a2) == SharedTriad(a2, a1)
  {
  }

  /** Every score lies in 60..93, so the clamp to 30..100 never changes it. */
  lemma SynergyRange(s1: Sign, s2: Sign)
    ensures 60 <= SynergyScore(s1, s2) <= 93
    ensures SynergyScore(s1, s2)
         == PhaseScore(Phase(s1.element), Phase(s2.element)) + (if SharedTriad(s1.animal, s2.animal) then 5 else 0)
  {
    PhaseScoreRange(Phase(s1.element), Phase(s2.element));
  }

  lemma PhaseScoreRange(p1: int, p2: int)
    requires -1 <= p1 < 5 && -1 <= p2 < 5
    ensures 60 <= PhaseScore(p1, p2) <= 88
  {
  }

  /**
   * Going round the cycle, each phase is a neighbour of the next one (80) and
   * two steps from the one after (60), in both directions.
   */
  lemma CycleRelations(p: int)
    requires 0 <= p < |Cycle|
    ensures PhaseScore(p, p) == 88
    ensures PhaseScore(p, (p + 1) % 5) == 80 && PhaseScore((p + 1) % 5, p) == 80
    ensures PhaseScore(p, (p + 2) % 5) == 60 && PhaseScore((p + 2) % 5, p) == 60
  {
  }

  lemma NormalizeMetal()
    ensures NormalizeElement("Metal") == "Metal"
  {
  }

  lemma NormalizeAgua()
    ensures NormalizeElement("\U{c1}gua") == "Agua"
  {
  }

  lemma NormalizeMadeira()
    ensures NormalizeElement("Madeira") == "Madeira"
  {
  }

  lemma NormalizeFogo()
    ensures NormalizeElement("Fogo") == "Fogo"
  {
  }

  lemma NormalizeTerra()
    ensures NormalizeElement("Terra") == "Terra"
  {
  }

  lemma CyclePositions()
    ensures IndexOf(Cycle, "Madeira") == 0 && IndexOf(Cycle, "Fogo") == 1 && IndexOf(Cycle, "Terra") == 2
    ensures IndexOf(Cycle, "Metal") == 3 && IndexOf(Cycle, "Agua") == 4
  {
  }

  /** The phase position of each of the five element names of the sign table. */
  lemma PhaseOfName(e: string, p: int)
    requires || (e == "Metal" && p == 3)
             || (e == "\U{c1}gua" && p == 4)
             || (e == "Madeira" && p == 0)
             || (e == "Fogo" && p == 1)
             || (e == "Terra" && p == 2)
    ensures Phase(e) == p
  {
    CyclePositions();
    NormalizeMetal();
    NormalizeAgua();
    NormalizeMadeira();
    NormalizeFogo();
    NormalizeTerra();
  }

  /** Each element name of the sign table is a phase: digit `d` goes to position `(d / 2 + 3) % 5`. */
  lemma ElementPhase(d: int)
    requires 0 <= d < |Elements|
    ensures Phase(Elements[d]) == (d / 2 + 3) % 5
  {
    PhaseOfName(Elements[d], (d / 2 + 3) % 5);
  }

  /** Two element digits score 88 exactly when they name the same element, and otherwise 80 or 60. */
  lemma PhaseScoreOfDigits(d1: int, d2: int)
    requires 0 <= d1 < |Elements| && 0 <= d2 < |Elements|
    ensures PhaseScore((d1 / 2 + 3) % 5, (d2 / 2 + 3) % 5) in {60, 80, 88}
    ensures PhaseScore((d1 / 2 + 3) % 5, (d2 / 2 + 3) % 5) == 88 <==> d1 / 2 == d2 / 2
  {
  }

  /** Animal `i` of the cycle belongs to triad `i % 4` and to no other. */
  lemma TriadMembership(i: int, u: int)
    requires 0 <= i < |Animals| && 0 <= u < |Triads|
    ensures Animals[i] in Triads[u] <==> u == i % 4
  {
  }

  /** Two animals share a triad exactly when their cycle positions agree modulo four. */
  lemma TriadByIndex(i: int, j: int)
    requires 0 <= i < |Animals| && 0 <= j < |Animals|
    ensures SharedTriad(Animals[i], Animals[j]) <==> i % 4 == j % 4
  {
    TriadMembership(i, i % 4);
    TriadMembership(j, i % 4);
    if SharedTriad(Animals[i], Animals[j]) {
      var u :| 0 <= u < |Triads| && Animals[i] in Triads[u] && Animals[j] in Triads[u];
      TriadMembership(i, u);
      TriadMembership(j, u);
    }
  }

  /**
   * For two signs built from the animal and element tables the element names
   * are always phases of the cycle, so the neutral base 70 never occurs: the
   * score is one of 60, 65, 80, 85, 88, 93; it is 88 or 93 exactly for the
   * same element, and ends in 5 or is 93 exactly for animals of one triad.
   */
  lemma SynergyOfTabulatedSigns(s1: Sign, s2: Sign, a1: int, a2: int, d1: int, d2: int)
    requires 0 <= a1 < |Animals| && 0 <= a2 < |Animals| && 0 <= d1 < |Elements| && 0 <= d2 < |Elements|
    requires s1.animal == Animals[a1] && s1.element == Elements[d1]
    requires s2.animal == Animals[a2] && s2.element == Elements[d2]
    ensures SynergyScore(s1, s2) in {60, 65, 80, 85, 88, 93}
    ensures SynergyScore(s1, s2) in {88, 93} <==> d1 / 2 == d2 / 2
    ensures SynergyScore(s1, s2) in {65, 85, 93} <==> a1 % 4 == a2 % 4
  {
    ElementPhase(d1);
    ElementPhase(d2);
    PhaseScoreOfDigits(d1, d2);
    TriadByIndex(a1, a2);
    SynergyRange(s1, s2);
  }

  /** Elements two steps apart on the cycle and animals of different triads score exactly 60. */
  lemma SynergyTwoStepsApart(s1: Sign, s2: Sign)
    requires Phase(s1.element) != -1 && Phase(s2.element) != -1
    requires CycleDistance(Phase(s1.element), Phase(s2.element)) == 2
    requires !SharedTriad(s1.animal, s2.animal)
    ensures SynergyScore(s1, s2) == 60
  {
  }

  /** An element name outside the cycle leaves the neutral base of 70. */
  lemma UnknownElementIsNeutral(s1: Sign, s2: Sign)
    requires NormalizeElement(s1.element) !in Cycle
    ensures SynergyScore(s1, s2) == 70 || SynergyScore(s1, s2) == 75
  {
  }

}
