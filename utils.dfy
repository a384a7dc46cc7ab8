/** `normalise_waldur_token`: the Authorization header value for a Waldur API token. */
module Utils {
  import opened Strings

  const TokenPrefix := "Token "

  function NormaliseToken(token: string): (r: string)
    ensures StartsWith(token, TokenPrefix) ==> r == token
    ensures !StartsWith(token, TokenPrefix) ==> r == TokenPrefix + token
    ensures StartsWith(r, TokenPrefix)
  {
    if StartsWith(token, TokenPrefix) then token
    else
      StartsWithConcat(TokenPrefix, token);
      TokenPrefix + token
  }

  lemma NormaliseIdempotent(token: string)
    ensures NormaliseToken(NormaliseToken(token)) == NormaliseToken(token)
  {
  }

  /** The prefix test is exact: case and the trailing space both matter. */
  lemma NormaliseIsCaseAndSpaceSensitive()
    ensures NormaliseToken("token x") == "Token token x"
    ensures NormaliseToken("Token") == "Token Token"
    ensures NormaliseToken("Token abc") == "Token abc"
  {
    assert !StartsWith("token x", TokenPrefix) by { assert "token x"[..6][0] == 't'; }
    assert !StartsWith("Token", TokenPrefix);
    assert StartsWith("Token abc", TokenPrefix) by { assert "Token abc"[..6] == TokenPrefix; }
  }
}
