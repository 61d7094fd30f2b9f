/**
 * The landing-page form (src/components/ClaimUsernameForm/index.tsx):
 * `claimUsernameFormSchema` and the redirect built by `handleClaimUsername`.
 */
module ClaimUsername {
  import opened Results
  import opened Username
  import Register

  /** The `username` field of `claimUsernameFormSchema`, written out as in this file. */
  function ParseUsername(s: string): (r: Result<string, UsernameError>)
    ensures r.Ok? <==> |s| >= MinLength && MatchesUsernamePattern(s)
    ensures |s| < MinLength ==> r == Err(TooShort)
    ensures r.Ok? ==> |r.value| == |s| && IsLowerCase(r.value) && EqualIgnoringCase(r.value, s)
  {
    ToLowerFacts(s);
    if |s| < MinLength then Err(TooShort)
    else if !MatchesUsernamePattern(s) then Err(InvalidCharacters)
    else Ok(ToLower(s))
  }

  /** The claim form and the register form apply the same rule. */
  lemma SameRuleAsRegister(s: string)
    ensures ParseUsername(s) == Register.ParseUsername(s)
  {
    var c, r := ParseUsername(s), Register.ParseUsername(s);
    if c.Ok? {
      LowerCaseUnique(c.value, r.value);
    }
  }

  /** ``router.push(`/register?username=${username}`)``: the page the claimed name is sent to. */
  function RedirectTarget(username: string): (path: string)
    ensures Register.UsernameQuery(path) == Some(username)
    ensures |path| == |Register.UsernameQueryPrefix| + |username|
  {
    var path := Register.UsernameQueryPrefix + username;
    assert path[..|Register.UsernameQueryPrefix|] == Register.UsernameQueryPrefix;
    path
  }

  /**
   * A name claimed here arrives at the register page as its username field and
   * is accepted there unchanged.
   */
  lemma ClaimThenRegister(s: string)
    requires ParseUsername(s).Ok?
    ensures var u := ParseUsername(s).value;
      && Register.PrefilledUsername(Register.UsernameQuery(RedirectTarget(u))) == Some(u)
      && Register.ParseUsername(u) == Ok(u)
  {
    var u := ParseUsername(s).value;
    SameRuleAsRegister(s);
    Register.RevalidateUsername(s);
  }
}
