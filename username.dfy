/**
 * The username rule that the claim form and the register form both write out:
 * at least 3 characters, every character admitted by `/^([a-z\\-]+)$/i`,
 * and the accepted value lowercased.
 *
 * Inside a regular-expression literal `\\` is one escaped backslash, so the
 * class `[a-z\\-]` admits the letters, a backslash and a hyphen, and the `i`
 * flag adds the capitals. In a pattern without the `u` flag, case-insensitive
 * matching never lets a non-ASCII character match an ASCII one, so these 54
 * characters are exactly what the pattern admits.
 */
module Username {

  /** `.min(3)` on the username. */
  const MinLength: nat := 3

  /** The two issues the username field can raise, in the order zod checks them. */
  datatype UsernameError = TooShort | InvalidCharacters

  function Message(e: UsernameError): string
  {
    match e
    case TooShort => "O usuário precisa ter pelo menos 3 letras"
    case InvalidCharacters => "O usuário pode ter apenas letras e hifens"
  }

  predicate IsUpper(c: char) { 'A' <= c <= 'Z' }

  /** One character of `[a-z\\-]` under the `i` flag. */
  predicate IsUsernameChar(c: char)
  {
    'a' <= c <= 'z' || IsUpper(c) || c == '\\' || c == '-'
  }

  /** `^([a-z\\-]+)$`: a non-empty run of admitted characters. */
  predicate MatchesUsernamePattern(s: string)
  {
    |s| >= 1 && forall i :: 0 <= i < |s| ==> IsUsernameChar(s[i])
  }

  /** `toLowerCase` on one character of the admitted alphabet; others are left alone. */
  function LowerChar(c: char): char
  {
    if IsUpper(c) then (c as int + 32) as char else c
  }

  /** `toLowerCase`, applied by the schemas only to strings the pattern admitted. */
  function ToLower(s: string): string
  {
    seq(|s|, i requires 0 <= i < |s| => LowerChar(s[i]))
  }

  predicate IsLowerCase(s: string)
  {
    forall i :: 0 <= i < |s| ==> !IsUpper(s[i])
  }

  /** The same letters, with case ignored. */
  predicate EqualIgnoringCase(a: string, b: string)
  {
    |a| == |b| && forall i :: 0 <= i < |a| ==> LowerChar(a[i]) == LowerChar(b[i])
  }

  /** Lowercasing keeps the length and the letters, leaves no capital, and admits what it was given. */
  lemma ToLowerFacts(s: string)
    ensures |ToLower(s)| == |s|
    ensures IsLowerCase(ToLower(s))
    ensures EqualIgnoringCase(ToLower(s), s)
    ensures MatchesUsernamePattern(s) ==> MatchesUsernamePattern(ToLower(s))
  {
  }

  /** A lowercase string is its own lowercasing; in particular lowercasing twice changes nothing more. */
  lemma ToLowerOfLowerCase(s: string)
    requires IsLowerCase(s)
    ensures ToLower(s) == s
  {
  }

  /** Lowercase and equal ignoring case determine the lowercased string. */
  lemma LowerCaseUnique(a: string, b: string)
    requires IsLowerCase(a) && IsLowerCase(b) && EqualIgnoringCase(a, b)
    ensures a == b
  {
    assert forall i :: 0 <= i < |a| ==> a[i] == LowerChar(a[i]) == LowerChar(b[i]) == b[i];
  }
}
