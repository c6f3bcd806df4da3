/**
  API-key authentication (src/middleware/auth.rs). The `Authorization`
  header must read `Bearer <token>`; a token listed among the admin keys is
  an Admin, one listed only among the user keys is a User, and anything else
  is refused with 401 before the wrapped service runs.
 */
module Auth {
  import opened Prelude

  datatype ApiKeyRole = User | Admin

  /** What a successful check attaches to the request for the services behind it. */
  datatype ValidatedApiKey = ValidatedApiKey(key: string, role: ApiKeyRole)

  /** The configured key lists. */
  datatype AuthMiddleware = AuthMiddleware(apiKeys: seq<string>, adminKeys: seq<string>)

  const BEARER_PREFIX: string := "Bearer "
  const UNAUTHORIZED_BODY: string := "Invalid or missing API key"

  /** The middleware's verdict: refuse with 401, or forward the request with the validated key attached. */
  datatype AuthOutcome = Unauthorized(body: string) | Forwarded(validated: ValidatedApiKey)

  /** A header byte that `HeaderValue::to_str` accepts: a tab or visible ASCII. */
  predicate IsVisibleHeaderChar(c: char) {
    c == '\t' || (' ' <= c <= '~')
  }

  /** `HeaderValue::to_str`: the header as text, when every byte is acceptable. */
  function HeaderText(raw: string): (r: Option<string>)
    ensures r.Some? <==> forall i :: 0 <= i < |raw| ==> IsVisibleHeaderChar(raw[i])
    ensures r.Some? ==> r.value == raw
  {
    if forall i :: 0 <= i < |raw| ==> IsVisibleHeaderChar(raw[i]) then Some(raw) else None
  }

  /**
    The bearer token of an `Authorization` header: present exactly when the
    header exists, is readable text and starts with the case-sensitive
    prefix "Bearer "; the token is everything after the prefix.
   */
  function ExtractToken(header: Option<string>): (token: Option<string>)
    ensures token.Some? <==> header.Some? && HeaderText(header.value).Some? && StartsWith(header.value, BEARER_PREFIX)
    ensures token.Some? ==> header.value == BEARER_PREFIX + token.value
  {
    match header
    case None => None
    case Some(raw) =>
      match HeaderText(raw)
      case None => None
      case Some(text) => StripPrefix(text, BEARER_PREFIX)
  }

  /** The role of a token: Admin wins when the token is in both lists. */
  function ResolveRole(mw: AuthMiddleware, token: string): (role: Option<ApiKeyRole>)
    ensures role == Some(Admin) <==> token in mw.adminKeys
    ensures role == Some(User) <==> token !in mw.adminKeys && token in mw.apiKeys
    ensures role.None? <==> token !in mw.adminKeys && token !in mw.apiKeys
  {
    if token in mw.adminKeys then Some(Admin)
    else if token in mw.apiKeys then Some(User)
    else None
  }

  /**
    `AuthMiddlewareService::call`: a request is forwarded exactly when its
    header yields a token with a role, and the attached key is that token
    verbatim; otherwise the answer is 401 and nothing is forwarded.
   */
  function Call(mw: AuthMiddleware, header: Option<string>): (o: AuthOutcome)
    ensures o.Forwarded? <==> ExtractToken(header).Some? && ResolveRole(mw, ExtractToken(header).value).Some?
    ensures o.Forwarded? ==>
              && header.Some? && header.value == BEARER_PREFIX + o.validated.key
              && (o.validated.role == Admin <==> o.validated.key in mw.adminKeys)
              && (o.validated.key in mw.adminKeys || o.validated.key in mw.apiKeys)
    ensures o.Unauthorized? ==> o.body == UNAUTHORIZED_BODY
  {
    match ExtractToken(header)
    case None => Unauthorized(UNAUTHORIZED_BODY)
    case Some(token) =>
      match ResolveRole(mw, token)
      case None => Unauthorized(UNAUTHORIZED_BODY)
      case Some(role) => Forwarded(ValidatedApiKey(token, role))
  }

  /** Without a header, or with any other scheme than "Bearer ", the request is refused. */
  lemma RefusedWithoutBearer(mw: AuthMiddleware, header: Option<string>)
    requires header.None? || !StartsWith(header.value, BEARER_PREFIX)
    ensures Call(mw, header).Unauthorized?
  {
  }

  /** A key configured in both lists is always an admin. */
  lemma AdminTakesPrecedence(mw: AuthMiddleware, token: string)
    requires token in mw.adminKeys && token in mw.apiKeys
    requires forall i :: 0 <= i < |token| ==> IsVisibleHeaderChar(token[i])
    ensures Call(mw, Some(BEARER_PREFIX + token)) == Forwarded(ValidatedApiKey(token, Admin))
  {
    var raw := BEARER_PREFIX + token;
    assert forall i :: 0 <= i < |raw| ==> IsVisibleHeaderChar(raw[i]) by {
      forall i | 0 <= i < |raw|
        ensures IsVisibleHeaderChar(raw[i])
      {
        if i >= |BEARER_PREFIX| {
          assert raw[i] == token[i - |BEARER_PREFIX|];
        }
      }
    }
    assert raw[..|BEARER_PREFIX|] == BEARER_PREFIX;
    assert raw[|BEARER_PREFIX|..] == token;
  }
}
