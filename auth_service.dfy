/**
 * Bearer-header parsing of the backend's authentication service
 * (`backend/src/services/AuthService.ts`, `extractTokenFromHeader`).
 */
module AuthService {
  import opened Wrappers
  import opened Text

  const Scheme := "Bearer"

  /**
   * `extractTokenFromHeader`: a missing or empty header gives null; otherwise the header is
   * split on single spaces and must be exactly the scheme and one more part, which is the token.
   */
  function ExtractTokenFromHeader(authHeader: Option<string>): (r: Option<string>)
    ensures r.Some? ==> ' ' !in r.value && authHeader == Some(Scheme + " " + r.value)
  {
    if authHeader.None? || authHeader.value == "" then None
    else
      var parts := Split(authHeader.value, ' ');
      if |parts| != 2 || parts[0] != Scheme then None
      else
        JoinSplit(authHeader.value, ' ');
        assert Join(parts, " ") == parts[0] + " " + parts[1];
        Some(parts[1])
  }

  /** A header written as the scheme, one space and a token without spaces gives that token back. */
  lemma ExtractBearer(token: string)
    requires ' ' !in token
    ensures ExtractTokenFromHeader(Some(Scheme + " " + token)) == Some(token)
  {
    assert ' ' !in Scheme;
    SplitAfter(Scheme, ' ', token);
    assert Scheme + [' '] + token == Scheme + " " + token;
  }

  /** The header parses to a token exactly when it is the scheme, one space and that token, which has no spaces. */
  lemma ExtractIff(authHeader: Option<string>, token: string)
    ensures ExtractTokenFromHeader(authHeader) == Some(token)
        <==> authHeader == Some(Scheme + " " + token) && ' ' !in token
  {
    if authHeader == Some(Scheme + " " + token) && ' ' !in token {
      ExtractBearer(token);
    }
  }

  /**
   * The edge cases of the strict split: a second space after the scheme, a lower-case scheme
   * and another scheme are refused whatever follows, while the scheme and one space with
   * nothing after it give the empty token, not null.
   */
  lemma ExtractEdgeCases(rest: string)
    ensures ExtractTokenFromHeader(Some(Scheme + "  " + rest)) == None
    ensures ExtractTokenFromHeader(Some("bearer " + rest)) == None
    ensures ExtractTokenFromHeader(Some("Basic " + rest)) == None
    ensures ExtractTokenFromHeader(Some("Bearer ")) == Some("")
  {
    var h := Scheme + "  " + rest;
    assert h[|Scheme| + 1..] == " " + rest && ' ' in " " + rest;
    ExtractBearer("");
    assert Scheme + " " + "" == "Bearer ";
  }
}
