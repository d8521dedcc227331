/**
 * `authMiddleware`: reads the `Authorization` header of a request. The header must begin
 * with the Bearer scheme of section 2.1 of RFC 6750, matched case-sensitively and with a
 * single space; the token is the second space-separated field. Token verification
 * (`verify`) is a parameter: it decodes a token the server signed, or fails.
 */
module Middleware {
  import opened Wrappers
  import opened Http
  import opened Text
  import opened Entities

  /** What a token carries: the login route signs `{ id: user.id }`. */
  datatype Payload = Payload(id: UserId)

  const BEARER := "Bearer "

  /** The first space of a header that starts with `BEARER` is the one at its end. */
  lemma BearerSplit(header: string)
    requires StartsWith(header, BEARER)
    ensures header == "Bearer" + [' '] + header[|BEARER|..]
    ensures Split(header, ' ') == ["Bearer"] + Split(header[|BEARER|..], ' ')
  {
    var rest := header[|BEARER|..];
    assert header == "Bearer" + [' '] + rest;
    IndexOfAfterPiece("Bearer", ' ', rest);
    assert header[..6] == "Bearer";
    assert header[7..] == rest;
  }

  /** `authHeader.split(' ')[1]`. */
  function TokenOf(header: string): (token: string)
    requires StartsWith(header, BEARER)
    ensures ' ' !in token
  {
    BearerSplit(header);
    Split(header, ' ')[1]
  }

  /** The token is the text after the scheme up to the next space, or to the end. */
  lemma TokenIsSecondField(header: string)
    requires StartsWith(header, BEARER)
    ensures var rest := header[|BEARER|..];
      TokenOf(header) == rest[..IndexOf(rest, ' ')]
  {
    BearerSplit(header);
  }

  /** A header built from a token without spaces gives that token back. */
  lemma TokenRoundTrip(token: string)
    requires ' ' !in token
    ensures StartsWith(BEARER + token, BEARER)
    ensures TokenOf(BEARER + token) == token
  {
    var header := BEARER + token;
    assert header[..|BEARER|] == BEARER;
    assert header[|BEARER|..] == token;
    TokenIsSecondField(header);
    assert IndexOf(token, ' ') == |token|;
  }

  /** The middleware: 401 without a Bearer header, 403 when the token does not verify. */
  function Authenticate(header: Option<string>, verify: string -> Option<Payload>): (r: Response<Payload>)
    ensures header.None? ==> r == Err(UNAUTHORIZED, Message("Unauthorized"))
    ensures header.Some? && !StartsWith(header.value, BEARER) ==> r == Err(UNAUTHORIZED, Message("Unauthorized"))
    ensures header.Some? && StartsWith(header.value, BEARER) ==>
      r == match verify(TokenOf(header.value))
        case Some(p) => Ok(p)
        case None => Err(FORBIDDEN, Message("Invalid token"))
  {
    if header.None? || header.value == "" || !StartsWith(header.value, BEARER) then
      Err(UNAUTHORIZED, Message("Unauthorized"))
    else
      var decoded := verify(TokenOf(header.value));
      if decoded.Some? then Ok(decoded.value) else Err(FORBIDDEN, Message("Invalid token"))
  }

  /** A token sent as `Bearer <token>` is judged by `verify` alone. */
  lemma AuthenticateBearer(token: string, verify: string -> Option<Payload>)
    requires ' ' !in token
    ensures Authenticate(Some(BEARER + token), verify) ==
      if verify(token).Some? then Ok(verify(token).value) else Err(FORBIDDEN, Message("Invalid token"))
  {
    TokenRoundTrip(token);
  }

  /** The scheme name is matched case-sensitively: a lower-case `bearer` is refused outright. */
  lemma SchemeIsCaseSensitive(token: string, verify: string -> Option<Payload>)
    ensures Authenticate(Some("bearer " + token), verify) == Err(UNAUTHORIZED, Message("Unauthorized"))
  {
    assert ("bearer " + token)[0] != BEARER[0];
  }

  /** A second space after the scheme makes the token empty: `Bearer  abc` carries the token "". */
  lemma DoubleSpaceGivesEmptyToken(token: string)
    ensures StartsWith(BEARER + " " + token, BEARER)
    ensures TokenOf(BEARER + " " + token) == ""
  {
    var header := BEARER + " " + token;
    assert header[..|BEARER|] == BEARER;
    assert header[|BEARER|..] == " " + token;
    TokenIsSecondField(header);
  }
}
