/** The display helper that capitalises a status or type name. */
module Helpers {
  import opened Common

  predicate IsLowerAscii(c: char)
  {
    'a' <= c <= 'z'
  }

  /** `c.toUpperCase()` for one character: a lower-case ASCII letter becomes
      its capital, and every other character is kept. */
  function UpperCase(c: char): (r: string)
    ensures |r| == 1 && !IsLowerAscii(r[0])
    ensures IsLowerAscii(c) ==> 'A' <= r[0] <= 'Z' && r[0] as int == c as int - 32
    ensures !IsLowerAscii(c) ==> r == [c]
  {
    if IsLowerAscii(c) then [(c as int - 32) as char] else [c]
  }

  /** `capitalizeFirstLetter(string)`: a missing or empty string gives
      `''`; otherwise the first character is upper-cased and the rest is
      kept. */
  function CapitalizeFirstLetter(s: Option<string>): (r: string)
    ensures s.None? || s.value == "" ==> r == ""
    ensures s.Some? && s.value != "" ==>
      && |r| == |s.value|
      && r[..1] == UpperCase(s.value[0])
      && r[1..] == s.value[1..]
  {
    if s.None? || s.value == "" then "" else UpperCase(s.value[0]) + s.value[1..]
  }

  /** Upper-casing an upper-cased character changes nothing. */
  lemma UpperCaseIdempotent(c: char)
    ensures UpperCase(UpperCase(c)[0]) == UpperCase(c)
  {
  }

  /** Capitalising twice is the same as capitalising once. */
  lemma CapitalizeIdempotent(s: string)
    ensures CapitalizeFirstLetter(Some(CapitalizeFirstLetter(Some(s)))) == CapitalizeFirstLetter(Some(s))
  {
  }
}
