/** The login form's decision: a fixed credential pair and the token minted
    from the clock when it matches. The handler that applies this decision to
    the session lives on IndexPage.Gate, which owns the state it changes. */
module AdminAuth {

  import opened JsNumbers

  const SuperuserLogin: string := "_superuser"
  const SuperuserPassword: string := "admin123"
  const TokenPrefix: string := "mock_superuser_token_"

  /** Time values, and so Date.now(), never exceed 8.64 * 10^15 milliseconds
      (section 21.4.1.1 of ECMA-262). */
  const MaxTimeValue: nat := 8_640_000_000_000_000

  /** The only credentials the form accepts: one fixed login and password. */
  function CredentialsMatch(email: string, password: string): (ok: bool)
    ensures ok <==> email == "_superuser" && password == "admin123"
  {
    email == SuperuserLogin && password == SuperuserPassword
  }

  /** The session token minted at time `now` (milliseconds since the epoch):
      the fixed prefix followed by the timestamp in decimal. It is never
      empty, and the timestamp can be read back from it. */
  function MintToken(now: nat): (token: string)
    requires now <= MaxTimeValue
    ensures |token| > |TokenPrefix| && token[..|TokenPrefix|] == TokenPrefix
    ensures ParseInt(token[|TokenPrefix|..]) == Int(now)
  {
    var stamp := NumberToString(Int(now));
    ParseIntOfNumberToString(Int(now));
    assert (TokenPrefix + stamp)[|TokenPrefix|..] == stamp;
    TokenPrefix + stamp
  }

  /** Logins at different instants mint different tokens. */
  lemma MintTokenInjective(a: nat, b: nat)
    requires a <= MaxTimeValue && b <= MaxTimeValue
    requires MintToken(a) == MintToken(b)
    ensures a == b
  {
  }
}
