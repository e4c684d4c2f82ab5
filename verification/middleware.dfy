/**
 * custom_auth/middleware.py: before every handler, the middleware reads the
 * `Authorization` header and leaves the caller's identity (an email, or None)
 * in `request.email`. Token decoding is the JWT library's; it is a parameter.
 */
module Middleware {
  import opened Wrappers
  import opened Fields

  /** The outcome of `jwt.decode` on a token: its `email` claim, or one of the two errors the middleware catches. */
  datatype Decoded = Claims(email: Email) | Expired | Undecodable

  const BearerPrefix := "Bearer "

  /** `auth_header and auth_header.startswith('Bearer ')`, then `auth_header[7:]`. */
  function BearerToken(header: Option<string>): (token: Option<string>)
    ensures token.Some? <==> header.Some? && |header.value| >= |BearerPrefix| && header.value[..|BearerPrefix|] == BearerPrefix
    ensures token.Some? ==> header.value == BearerPrefix + token.value
  {
    if header.Some? && |header.value| >= |BearerPrefix| && header.value[..|BearerPrefix|] == BearerPrefix
    then
      var h := header.value;
      assert h == h[..|BearerPrefix|] + h[|BearerPrefix|..];
      Some(h[|BearerPrefix|..])
    else None
  }

  /** Whatever follows the prefix comes back as the token. */
  lemma BearerTokenRoundTrip(token: string)
    ensures BearerToken(Some(BearerPrefix + token)) == Some(token)
  {
    var h := BearerPrefix + token;
    assert h[..|BearerPrefix|] == BearerPrefix;
    assert h[|BearerPrefix|..] == token;
  }

  /** The identity the middleware derives from the header. */
  function Identity(header: Option<string>, decode: string -> Decoded): (identity: Option<Email>)
    ensures identity.Some? <==> BearerToken(header).Some? && decode(BearerToken(header).value).Claims?
    ensures identity.Some? ==> identity.value == decode(BearerToken(header).value).email
  {
    match BearerToken(header)
    case None => None
    case Some(token) =>
      match decode(token)
      case Claims(email) => Some(email)
      case _ => None
  }

  /** A request as the middleware sees it. */
  class Request {
    const authorization: Option<string>   // request.headers.get('Authorization')
    var email: Option<Email>              // request.email, for the handlers after it

    constructor (authorization: Option<string>)
      ensures this.authorization == authorization && email == None
    {
      this.authorization := authorization;
      email := None;
    }
  }

  /** `AuthenticationMiddleware.__call__` up to handing the request on. */
  method Authenticate(request: Request, decode: string -> Decoded)
    modifies request
    ensures request.email == Identity(request.authorization, decode)
  {
    var header := request.authorization;
    if header.Some? && |header.value| >= |BearerPrefix| && header.value[..|BearerPrefix|] == BearerPrefix {
      var token := header.value[|BearerPrefix|..];
      match decode(token)
      case Claims(email) =>
        request.email := Some(email);
      case Expired =>
        request.email := None;
      case Undecodable =>
        request.email := None;
    } else {
      request.email := None;
    }
  }
}
