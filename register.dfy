/**
 * The registration step (src/pages/register/index.page.tsx): `registerFormSchema`
 * and the prefill of the username field from the `username` query value.
 */
module Register {
  import opened Results
  import opened Username

  /** The `username` field of `registerFormSchema`: `min(3)`, the pattern, then `toLowerCase`. */
  function ParseUsername(s: string): (r: Result<string, UsernameError>)
    ensures r.Ok? <==> |s| >= MinLength && forall i :: 0 <= i < |s| ==> IsUsernameChar(s[i])
    ensures |s| < MinLength ==> r == Err(TooShort)
    ensures r == Err(InvalidCharacters) <==> |s| >= MinLength && !MatchesUsernamePattern(s)
    ensures r.Ok? ==> |r.value| == |s| && IsLowerCase(r.value) && EqualIgnoringCase(r.value, s)
    ensures r.Ok? ==> MatchesUsernamePattern(r.value)
  {
    ToLowerFacts(s);
    if |s| < MinLength then Err(TooShort)
    else if !MatchesUsernamePattern(s) then Err(InvalidCharacters)
    else Ok(ToLower(s))
  }

  /** Feeding an accepted username back through the rule accepts it unchanged. */
  lemma RevalidateUsername(s: string)
    requires ParseUsername(s).Ok?
    ensures ParseUsername(ParseUsername(s).value) == ParseUsername(s)
  {
    var u := ParseUsername(s).value;
    ToLowerOfLowerCase(u);
  }

  /**
   * What the pattern does on a few inputs. A backslash gets through although the
   * message speaks of letters and hyphens only; an underscore does not.
   */
  lemma UsernameExamples()
    ensures ParseUsername("jo\\e") == Ok("jo\\e")
    ensures ParseUsername("Ana-Maria") == Ok("ana-maria")
    ensures ParseUsername("ana_b") == Err(InvalidCharacters)
    ensures ParseUsername("ab") == Err(TooShort)
  {
    assert !IsUsernameChar("ana_b"[3]);
    assert ToLower("Ana-Maria") == "ana-maria";
    assert ToLower("jo\\e") == "jo\\e";
  }

  datatype NameError = NameTooShort

  const NameTooShortMessage: string := "O nome precisa ter pelo menos 3 letras"

  /** The `name` field: `min(3)` and nothing else. */
  function ParseName(s: string): (r: Result<string, NameError>)
    ensures r.Ok? <==> |s| >= 3
    ensures r.Ok? ==> r.value == s
  {
    if |s| < 3 then Err(NameTooShort) else Ok(s)
  }

  /** The data handed to `handleRegister`. */
  datatype RegisterData = RegisterData(username: string, name: string)

  /** The first issue of each field, as the form shows them side by side. */
  datatype RegisterErrors = RegisterErrors(username: Option<UsernameError>, name: Option<NameError>)

  function ErrorOf<T, E>(r: Result<T, E>): Option<E>
  {
    if r.Err? then Some(r.error) else None
  }

  /** `registerFormSchema.parse({ username, name })`. */
  function ParseRegisterForm(username: string, name: string): (r: Result<RegisterData, RegisterErrors>)
    ensures r.Ok? <==> ParseUsername(username).Ok? && ParseName(name).Ok?
    ensures r.Ok? ==> r.value.username == ParseUsername(username).value && r.value.name == name
    ensures r.Err? ==>
      && (r.error.username.Some? <==> ParseUsername(username).Err?)
      && (r.error.name.Some? <==> ParseName(name).Err?)
      && (r.error.username.Some? ==> r.error.username.value == ParseUsername(username).error)
  {
    var u, n := ParseUsername(username), ParseName(name);
    if u.Ok? && n.Ok? then Ok(RegisterData(u.value, n.value))
    else Err(RegisterErrors(ErrorOf(u), ErrorOf(n)))
  }

  /** The path the register page is opened with, up to the username value. */
  const UsernameQueryPrefix: string := "/register?username="

  /**
   * `router.query.username` for a path: whatever follows the prefix.
   * Percent-decoding and cutting at `&` or `#` are the router's and not modelled.
   */
  function UsernameQuery(path: string): Option<string>
  {
    if |path| >= |UsernameQueryPrefix| && path[..|UsernameQueryPrefix|] == UsernameQueryPrefix
    then Some(path[|UsernameQueryPrefix|..])
    else None
  }

  /** The `useEffect` of lines 60-64: a present, non-empty query value becomes the field's value. */
  function PrefilledUsername(query: Option<string>): (field: Option<string>)
    ensures field.Some? <==> query.Some? && query.value != ""
    ensures field.Some? ==> field.value == query.value
  {
    if query.Some? && query.value != "" then Some(query.value) else None
  }
}
