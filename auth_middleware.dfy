/**
 * The request guards (backend/middleware/authMiddleware.js): `protect`
 * resolves the bearer token of the Authorization header to a stored
 * account, and `admin` lets only accounts with role 'admin' through. Token
 * verification is the parameter `verify`, which yields the id the token was
 * signed over or nothing when its signature or expiry is bad.
 */
module AuthMiddleware {
  import opened Wrappers
  import opened Models
  import opened JsStrings

  datatype Guarded = Authorized(user: User) | Unauthorized(code: int, message: string)

  const NoTokenMessage: string := "Not authorized, no token"
  const TokenFailedMessage: string := "Not authorized, token failed"
  const NotAdminMessage: string := "Not authorized as an admin"

  /** `header.split(' ')[1]`: the second space-separated piece, undefined when there is none. */
  function BearerToken(header: string): (r: Option<string>)
    ensures r.Some? <==> ' ' in header
  {
    var pieces := Split(header, ' ');
    SplitSingleIff(header, ' ');
    if |pieces| >= 2 then Some(pieces[1]) else None
  }

  /**
   * `protect`. A header that is absent, empty or does not start with the
   * case-sensitive 'Bearer' gives "no token". Otherwise a missing or empty
   * token, one `verify` rejects, or an id with no stored account gives
   * "token failed". (For a missing token the source also tries a second 401
   * after the first; the reply the client sees is the first.)
   */
  function Protect(header: Option<string>, verify: string -> Option<Id>, users: map<Id, User>): (r: Guarded)
    ensures r.Unauthorized? ==> r.code == 401
    ensures !Truthy(header) || !StartsWith(header.value, "Bearer") ==>
      r == Unauthorized(401, NoTokenMessage)
    ensures r.Authorized? <==>
      && Truthy(header) && StartsWith(header.value, "Bearer")
      && var token := BearerToken(header.value);
      && token.Some? && token.value != ""
      && verify(token.value).Some? && verify(token.value).value in users
    ensures r.Authorized? ==> r.user == users[verify(BearerToken(header.value).value).value]
  {
    if !Truthy(header) || !StartsWith(header.value, "Bearer") then
      Unauthorized(401, NoTokenMessage)
    else
      match BearerToken(header.value)
      case None => Unauthorized(401, TokenFailedMessage)
      case Some(token) =>
        if token == "" then Unauthorized(401, TokenFailedMessage)
        else
          match verify(token)
          case None => Unauthorized(401, TokenFailedMessage)
          case Some(id) =>
            if id in users then Authorized(users[id]) else Unauthorized(401, TokenFailedMessage)
  }

  /** `admin`: passes only role 'admin'; any other role gets 401, not 403. */
  function Admin(user: Option<User>): (r: Guarded)
    ensures r.Authorized? <==> user.Some? && user.value.role == "admin"
    ensures r.Authorized? ==> r.user == user.value
    ensures r.Unauthorized? ==> r == Unauthorized(401, NotAdminMessage)
  {
    if user.Some? && user.value.role == "admin" then Authorized(user.value)
    else Unauthorized(401, NotAdminMessage)
  }

  /** The token of `Bearer <token>` is the token itself when it has no space in it. */
  lemma {:induction false} BearerTokenOfHeader(token: string)
    requires ' ' !in token
    ensures BearerToken("Bearer " + token) == Some(token)
  {
    assert "Bearer " + token == "Bearer" + [' '] + token;
    SplitAfterHead("Bearer", ' ', token);
    SplitWithoutSeparator(token, ' ');
  }

  /** A well-formed header carrying a token that resolves to a stored account is accepted. */
  lemma ProtectAccepts(token: string, verify: string -> Option<Id>, users: map<Id, User>)
    requires ' ' !in token && token != ""
    requires verify(token).Some? && verify(token).value in users
    ensures Protect(Some("Bearer " + token), verify, users) == Authorized(users[verify(token).value])
  {
    BearerTokenOfHeader(token);
    assert StartsWith("Bearer " + token, "Bearer");
  }

  /** The prefix test is case-sensitive: a lower-case scheme is treated as no token at all. */
  lemma LowerCaseSchemeRejected(token: string, verify: string -> Option<Id>, users: map<Id, User>)
    ensures Protect(Some("bearer " + token), verify, users) == Unauthorized(401, NoTokenMessage)
  {
    assert ("bearer " + token)[0] == 'b';
  }

  /** A token whose account has been deleted no longer gets through. */
  lemma DeletedAccountRejected(header: Option<string>, verify: string -> Option<Id>, users: map<Id, User>, id: Id)
    requires Truthy(header) && StartsWith(header.value, "Bearer")
    requires BearerToken(header.value).Some? && verify(BearerToken(header.value).value) == Some(id)
    ensures Protect(header, verify, users - {id}) == Unauthorized(401, TokenFailedMessage)
  {
  }
}
