/** `auth(roleRequired)`: the Express middleware that admits a request only
    with a verifiable bearer token and, when a role is required, the right
    role. JWT verification is an oracle: `verify(token)` is the decoded
    payload, or `None` when `jwt.verify` throws. */
module AuthRole {
  import opened Common
  import opened Strings

  /** A decoded token payload; `rol` is absent in tokens that do not carry it. */
  datatype Claims = Claims(id: int, email: string, rol: Option<string>)

  /** What the middleware does with the request: answer it, or set `req.user`
      and call `next()` once. */
  datatype Outcome = Respond(status: int, message: string) | Next(user: Claims)

  /** `header.split(" ")[1]`: the second space-separated field, if any. */
  function BearerToken(header: string): Option<string>
  {
    var parts := Split(header, ' ');
    if |parts| > 1 then Some(parts[1]) else None
  }

  /** The middleware's decision for one request. */
  function Authorize(header: Option<string>, roleRequired: Option<string>,
                     verify: string -> Option<Claims>): (o: Outcome)
    ensures !Truthy(header) <==> o == Respond(401, "Token faltante")
    ensures o.Next? ==>
              Truthy(header) && BearerToken(header.value).Some? &&
              verify(BearerToken(header.value).value) == Some(o.user)
    ensures o.Next? && Truthy(roleRequired) ==> o.user.rol == roleRequired
  {
    if !Truthy(header) then Respond(401, "Token faltante")
    else
      var token := BearerToken(header.value);
      if token.None? then Respond(401, "Token inválido")
      else match verify(token.value)
        case None => Respond(401, "Token inválido")
        case Some(decoded) =>
          if Truthy(roleRequired) && decoded.rol != roleRequired
          then Respond(403, "Acceso denegado")
          else Next(decoded)
  }

  /** Any request that presents a header but no verifiable token, including a
      header with no second field, is refused with 401 "Token inválido". */
  lemma UnverifiedIsInvalid(header: string, roleRequired: Option<string>,
                            verify: string -> Option<Claims>)
    requires header != ""
    requires BearerToken(header).None? || verify(BearerToken(header).value).None?
    ensures Authorize(Some(header), roleRequired, verify) == Respond(401, "Token inválido")
  {
  }

  /** A verified token whose role differs from a required one is refused with 403. */
  lemma WrongRoleDenied(header: string, role: string, verify: string -> Option<Claims>, c: Claims)
    requires header != "" && role != ""
    requires BearerToken(header).Some? && verify(BearerToken(header).value) == Some(c)
    requires c.rol != Some(role)
    ensures Authorize(Some(header), Some(role), verify) == Respond(403, "Acceso denegado")
  {
  }

  /** Without a required role every verified token passes, and `req.user` is
      exactly the decoded payload. */
  lemma NoRoleAdmitsVerified(header: string, verify: string -> Option<Claims>, c: Claims)
    requires header != ""
    requires BearerToken(header).Some? && verify(BearerToken(header).value) == Some(c)
    ensures Authorize(Some(header), None, verify) == Next(c)
    ensures Authorize(Some(header), Some(""), verify) == Next(c)
  {
  }

  /** The header the clients send, `"Bearer " + token`, yields `token` when
      the token has no space in it. */
  lemma BearerHeaderToken(token: string)
    requires ' ' !in token
    ensures BearerToken("Bearer " + token) == Some(token)
  {
    assert "Bearer " + token == "Bearer" + [' '] + token;
    SplitNoSeparator("Bearer", ' ');
    SplitPrefix("Bearer", ' ', token);
    SplitNoSeparator(token, ' ');
  }
}
