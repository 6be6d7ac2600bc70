/**
 * `convertToEmoji`: a country code becomes its flag, one regional indicator
 * symbol per letter (Unicode Technical Standard #51, Annex B, over the
 * ISO 3166-1 alpha-2 letters). Each character is upper-cased and its code is
 * shifted by a fixed offset; the result is the sequence of code points.
 */
module ConvertToEmoji {
  /** The characters this model covers: ASCII, where `toUpperCase` maps one code to one code. */
  type AsciiChar = c: char | c as int < 128 witness 'A'

  /** 0x1F1E6 (REGIONAL INDICATOR SYMBOL LETTER A) minus the code of 'A'. */
  const Offset: int := 127397
  const RegionalIndicatorA: int := 0x1F1E6
  const RegionalIndicatorZ: int := 0x1F1FF

  predicate IsUpperLetter(c: char) { 'A' <= c <= 'Z' }
  predicate IsLowerLetter(c: char) { 'a' <= c <= 'z' }

  /** `toUpperCase` on one ASCII character. */
  function ToUpper(c: AsciiChar): (u: AsciiChar)
    ensures IsLowerLetter(c) ==> IsUpperLetter(u) && u as int == c as int - 32
    ensures !IsLowerLetter(c) ==> u == c
  {
    if IsLowerLetter(c) then (c as int - 32) as char else c
  }

  /** `toLowerCase` on one ASCII character. */
  function ToLower(c: AsciiChar): (l: AsciiChar)
    ensures IsUpperLetter(c) ==> IsLowerLetter(l) && l as int == c as int + 32
    ensures !IsUpperLetter(c) ==> l == c
  {
    if IsUpperLetter(c) then (c as int + 32) as char else c
  }

  /** `toUpperCase` on an ASCII string. */
  function UpperCase(s: seq<AsciiChar>): (r: seq<AsciiChar>)
    ensures |r| == |s|
    ensures AllLetters(s) ==> AllUpperLetters(r)
    ensures forall i :: 0 <= i < |s| && IsLowerLetter(s[i]) ==> r[i] as int == s[i] as int - 32
    ensures forall i :: 0 <= i < |s| && !IsLowerLetter(s[i]) ==> r[i] == s[i]
  {
    seq(|s|, i requires 0 <= i < |s| => ToUpper(s[i]))
  }

  function LowerCase(s: seq<AsciiChar>): (r: seq<AsciiChar>)
    ensures |r| == |s|
  {
    seq(|s|, i requires 0 <= i < |s| => ToLower(s[i]))
  }

  /** `countryCode.toUpperCase().split('').map(char => 127397 + char.charCodeAt(0))` */
  function Convert(countryCode: seq<AsciiChar>): (r: seq<int>)
    ensures |r| == |countryCode|
  {
    var upper := UpperCase(countryCode);
    seq(|upper|, i requires 0 <= i < |upper| => Offset + upper[i] as int)
  }

  /** The letter a regional indicator stands for: the inverse shift. */
  function IndicatorLetter(cp: int): (c: AsciiChar)
    requires RegionalIndicatorA <= cp <= RegionalIndicatorZ
    ensures IsUpperLetter(c)
  {
    (cp - Offset) as char
  }

  predicate AllIndicators(r: seq<int>) {
    forall i :: 0 <= i < |r| ==> RegionalIndicatorA <= r[i] <= RegionalIndicatorZ
  }

  /** Reads a flag back as its upper-case country code. */
  function FlagToCode(r: seq<int>): (s: seq<AsciiChar>)
    requires AllIndicators(r)
    ensures |s| == |r|
  {
    seq(|r|, i requires 0 <= i < |r| => IndicatorLetter(r[i]))
  }

  predicate AllLetters(s: seq<AsciiChar>) {
    forall i :: 0 <= i < |s| ==> IsUpperLetter(s[i]) || IsLowerLetter(s[i])
  }

  predicate AllUpperLetters(s: seq<AsciiChar>) {
    forall i :: 0 <= i < |s| ==> IsUpperLetter(s[i])
  }

  /** Code point `i` of the flag is the offset plus the code of the upper-cased character `i`. */
  lemma ConvertAt(s: seq<AsciiChar>, i: int)
    requires 0 <= i < |s|
    ensures Convert(s)[i] == Offset + ToUpper(s[i]) as int
  {
  }

  /** The empty code gives the empty string. */
  lemma ConvertEmpty()
    ensures Convert([]) == []
  {
  }

  /** Letters, in either case, land in the regional indicator block U+1F1E6..U+1F1FF. */
  lemma ConvertLettersToIndicators(s: seq<AsciiChar>)
    requires AllLetters(s)
    ensures AllIndicators(Convert(s))
  {
  }

  /** Reading the flag back gives the upper-cased code. */
  lemma ConvertRoundTrip(s: seq<AsciiChar>)
    requires AllLetters(s)
    ensures AllIndicators(Convert(s))
    ensures FlagToCode(Convert(s)) == UpperCase(s)
  {
    ConvertLettersToIndicators(s);
    var r := Convert(s);
    forall i | 0 <= i < |s| ensures FlagToCode(r)[i] == UpperCase(s)[i] {
      assert r[i] == Offset + ToUpper(s[i]) as int;
    }
  }

  /** Distinct upper-case codes give distinct flags. */
  lemma ConvertInjective(s: seq<AsciiChar>, t: seq<AsciiChar>)
    requires AllUpperLetters(s) && AllUpperLetters(t)
    requires Convert(s) == Convert(t)
    ensures s == t
  {
    ConvertRoundTrip(s);
    ConvertRoundTrip(t);
    assert UpperCase(s) == s;
    assert UpperCase(t) == t;
  }

  /** Case does not matter: a code, its lower-case and its upper-case form give one flag. */
  lemma ConvertIgnoresCase(s: seq<AsciiChar>)
    ensures Convert(LowerCase(s)) == Convert(s)
    ensures Convert(UpperCase(s)) == Convert(s)
  {
    forall i | 0 <= i < |s| ensures ToUpper(ToLower(s[i])) == ToUpper(s[i]) && ToUpper(ToUpper(s[i])) == ToUpper(s[i]) {
    }
  }

  /** "PT" is the Portuguese flag U+1F1F5 U+1F1F9, and "us" is the same flag as "US". */
  lemma ConvertExamples()
    ensures Convert(['P', 'T']) == [0x1F1F5, 0x1F1F9]
    ensures Convert(['u', 's']) == Convert(['U', 'S'])
  {
  }
}
