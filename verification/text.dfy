/**
 String helpers the instrument layer relies on: ASCII lower-casing of
 instrument names and the message of the construction-time error.
 */
module Text {

  /** True for the ASCII capital letters 'A' through 'Z'. */
  predicate IsUpper(c: char) {
    'A' <= c <= 'Z'
  }

  /** Lower-cases one ASCII letter and leaves every other character alone. */
  function LowerChar(c: char): (r: char)
    ensures !IsUpper(r)
    ensures IsUpper(c) ==> r as int == c as int + 32
    ensures !IsUpper(c) ==> r == c
  {
    if IsUpper(c) then (c as int + 32) as char else c
  }

  /** A string that holds no ASCII capital letter. */
  predicate IsLower(s: string) {
    forall i :: 0 <= i < |s| ==> !IsUpper(s[i])
  }

  /** `str.lower()` restricted to ASCII: every capital letter becomes its small letter. */
  function Lower(s: string): (r: string)
    ensures |r| == |s|
    ensures forall i :: 0 <= i < |s| ==> r[i] == LowerChar(s[i])
  {
    if s == [] then [] else [LowerChar(s[0])] + Lower(s[1..])
  }

  /** Lower-casing leaves no capital letter behind. */
  lemma LowerIsLower(s: string)
    ensures IsLower(Lower(s))
  {
  }

  /** Lower-casing an already lower-cased string changes nothing. */
  lemma LowerIdempotent(s: string)
    ensures Lower(Lower(s)) == Lower(s)
  {
  }

  /** A string with no capital letter is its own lower-case form. */
  lemma LowerFixesLower(s: string)
    requires IsLower(s)
    ensures Lower(s) == s
  {
  }

  /** The fixed text in front of the offending string in a construction error. */
  const ErrorPrefix: string := "Expected ASCII string of maximum length 63 characters but got "

  /** The construction-time error message for an offending name or unit. */
  function ErrorMessage(offending: string): (r: string)
    ensures |r| == |ErrorPrefix| + |offending|
    ensures r[..|ErrorPrefix|] == ErrorPrefix
    ensures r[|ErrorPrefix|..] == offending
  {
    ErrorPrefix + offending
  }

  /** The message names exactly one string: distinct offenders give distinct messages. */
  lemma ErrorMessageInjective(a: string, b: string)
    ensures ErrorMessage(a) == ErrorMessage(b) <==> a == b
  {
  }
}
