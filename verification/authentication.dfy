/**
 * Bearer-token extraction from internal/util/authentication/authentication.go.
 * JWT parsing and signature checking are an input to `ExtractClaim`.
 */
module Authentication {

  import opened Results
  import opened Strings

  /** `exceptioncode.ErrTokenInvalid`, the only error these functions produce themselves. */
  datatype AuthError = TokenInvalid

  /** The claims a valid token carries. */
  datatype JwtClaim = JwtClaim(userId: string, username: string, email: string, role: string)

  const Scheme: string := "Bearer"

  /**
   * `ExtractToken`: a non-empty header that splits on single spaces into
   * exactly the scheme `Bearer` (compared case-sensitively) and one token.
   */
  function ExtractToken(header: string): (r: Result<string, AuthError>)
    ensures header == "" ==> r == Err(TokenInvalid)
    ensures r.Ok? ==> ' ' !in r.value
  {
    if header == "" then Err(TokenInvalid)
    else
      var parts := Split(header, ' ');
      if |parts| != 2 || parts[0] != Scheme then Err(TokenInvalid)
      else Ok(parts[1])
  }

  /** The token is accepted exactly when the header is `Bearer`, one space, and a space-free token. */
  lemma {:induction false} ExtractTokenIff(header: string, token: string)
    ensures ExtractToken(header) == Ok(token) <==> header == Scheme + " " + token && ' ' !in token
  {
    var parts := [Scheme, token];
    assert Join(parts, ' ') == Scheme + " " + token by {
      assert parts[1..] == [token];
    }
    if ExtractToken(header) == Ok(token) {
      JoinSplit(header, ' ');
      assert Split(header, ' ') == parts;
    }
    if header == Scheme + " " + token && ' ' !in token {
      SplitJoin(parts, ' ');
    }
  }

  /** The scheme alone is refused. */
  lemma SchemeAloneRefused()
    ensures ExtractToken("Bearer").Err?
  {
    AcceptedShape("Bearer");
  }

  /** Two spaces after the scheme are refused. */
  lemma DoubledSpaceRefused()
    ensures ExtractToken("Bearer  x").Err?
  {
    AcceptedShape("Bearer  x");
  }

  /** The scheme is compared case-sensitively. */
  lemma LowerCaseSchemeRefused()
    ensures ExtractToken("bearer x").Err?
  {
    AcceptedShape("bearer x");
  }

  /** `Bearer ` gives the empty token. */
  lemma EmptyTokenAccepted()
    ensures ExtractToken("Bearer ") == Ok("")
  {
    ExtractTokenIff("Bearer ", "");
  }

  /** An accepted header is the scheme, a space and the token. */
  lemma AcceptedShape(header: string)
    ensures ExtractToken(header).Ok? ==> header == Scheme + " " + ExtractToken(header).value
  {
    if ExtractToken(header).Ok? {
      ExtractTokenIff(header, ExtractToken(header).value);
    }
  }

  /**
   * `ExtractClaim`: a header `ExtractToken` refuses is refused with its error
   * and the validator is never consulted; otherwise the token is validated.
   */
  function ExtractClaim(header: string, validate: string -> Result<JwtClaim, AuthError>): (r: Result<JwtClaim, AuthError>)
    ensures ExtractToken(header).Err? ==> r == Err(ExtractToken(header).error)
    ensures ExtractToken(header).Ok? ==> r == validate(ExtractToken(header).value)
  {
    var token :- ExtractToken(header);
    validate(token)
  }

  /** A malformed header gives the same answer whatever the validator would have said. */
  lemma ValidatorNotConsultedOnBadHeader(
    header: string, v1: string -> Result<JwtClaim, AuthError>, v2: string -> Result<JwtClaim, AuthError>)
    requires ExtractToken(header).Err?
    ensures ExtractClaim(header, v1) == ExtractClaim(header, v2) == Err(TokenInvalid)
  {
  }
}
