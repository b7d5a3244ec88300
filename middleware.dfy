/**
 * internal/handler/middleware.go: the request guards in front of the API.
 * AuthMiddleware accepts an `Authorization: Bearer <token>` header (the
 * credential syntax of section 2.1 of RFC 6750, prefix matched
 * case-sensitively), hands the token to ParseToken and stores the claims in
 * the request context; AdminMiddleware lets a request through only when the
 * context's role is the administrator's.
 *
 * A handler's effect on the gin context is returned as a value: the verdict
 * (abort with a status and an error text, or go on to the next handler) and
 * the context the next handler sees. ParseToken is an oracle.
 */
module Middleware {
  import opened Wrappers
  import opened Strings
  import opened Model

  /**
   * A value stored in the gin context, tagged with its Go dynamic type:
   * `uint64`, `string`, or `model.UserRole` (a string type of its own).
   */
  datatype Value = Uint(n: nat) | Str(s: string) | RoleText(role: string)

  type Context = map<string, Value>

  /** The claims ParseToken returns: user id, user name and role text. */
  datatype Claims = Claims(userId: nat, username: string, role: string)

  datatype Verdict = Abort(status: int, error: string) | Next

  /** What a handler did: its verdict, the context after it, and the token it passed to ParseToken, if any. */
  datatype Handled = Handled(verdict: Verdict, ctx: Context, parsed: Option<string>)

  const Unauthorized := 401
  const Forbidden := 403
  const MissingToken := "未提供访问令牌"
  const InvalidToken := "无效的访问令牌"
  const AdminRequired := "需要管理员权限"
  const BearerPrefix := "Bearer "

  /**
   * The token of a Bearer header: accepted only when the header is longer
   * than the prefix and starts with it, so the token is never empty.
   */
  function BearerToken(header: string): (t: Option<string>)
    ensures t.Some? <==> |header| > 7 && HasPrefix(header, BearerPrefix)
    ensures t.Some? ==> t.value != "" && header == BearerPrefix + t.value
  {
    if |header| > 7 && HasPrefix(header, BearerPrefix) then Some(header[7..]) else None
  }

  /** Prefixing a token with "Bearer " gives a header that yields the token back exactly when the token is not empty. */
  lemma BearerRoundTrip(token: string)
    ensures BearerToken(BearerPrefix + token) == (if token == "" then None else Some(token))
  {
    var h := BearerPrefix + token;
    assert h[..7] == BearerPrefix;
    assert h[7..] == token;
  }

  /** The bare prefix and a lower-case scheme are both rejected. */
  lemma BearerRejects()
    ensures BearerToken("Bearer ") == None
    ensures BearerToken("bearer abc") == None
  {
    assert "bearer abc"[..7] != BearerPrefix by {
      assert "bearer abc"[0] != BearerPrefix[0];
    }
  }

  /** AuthMiddleware, with ParseToken as `parseToken`. */
  function Authenticate(header: string, ctx: Context, parseToken: string -> Result<Claims, string>): (h: Handled)
    ensures header == "" ==> h == Handled(Abort(Unauthorized, MissingToken), ctx, None)
    ensures header != "" && BearerToken(header).None? ==> h == Handled(Abort(Unauthorized, InvalidToken), ctx, None)
    ensures h.parsed == BearerToken(header)
    ensures BearerToken(header).Some? && parseToken(BearerToken(header).value).Failure? ==>
      h.verdict == Abort(Unauthorized, InvalidToken)
    ensures h.verdict.Abort? ==> h.verdict.status == Unauthorized && h.ctx == ctx
    ensures h.verdict == Next <==> BearerToken(header).Some? && parseToken(BearerToken(header).value).Success?
    ensures h.verdict == Next ==>
      var c := parseToken(BearerToken(header).value).value;
      h.ctx == ctx["user_id" := Uint(c.userId)]["username" := Str(c.username)]["role" := RoleText(c.role)]
  {
    if header == "" then
      Handled(Abort(Unauthorized, MissingToken), ctx, None)
    else match BearerToken(header)
      case None => Handled(Abort(Unauthorized, InvalidToken), ctx, None)
      case Some(token) =>
        match parseToken(token)
        case Failure(_) => Handled(Abort(Unauthorized, InvalidToken), ctx, Some(token))
        case Success(c) =>
          Handled(Next, ctx["user_id" := Uint(c.userId)]["username" := Str(c.username)]["role" := RoleText(c.role)], Some(token))
  }

  /**
   * A request that passed AuthMiddleware carries the three claim keys, and
   * every other key of the context is as it was.
   */
  lemma AuthenticatedContext(header: string, ctx: Context, parseToken: string -> Result<Claims, string>)
    requires Authenticate(header, ctx, parseToken).verdict == Next
    ensures var h := Authenticate(header, ctx, parseToken);
      && h.ctx.Keys == ctx.Keys + {"user_id", "username", "role"}
      && (forall k :: k in ctx && k !in {"user_id", "username", "role"} ==> k in h.ctx && h.ctx[k] == ctx[k])
      && h.ctx["role"].RoleText?
  {
  }

  /**
   * AdminMiddleware as written: the stored role is compared with the untyped
   * constant "admin", which Go turns into an interface value of dynamic type
   * `string`; interface values are equal only when their dynamic types are.
   */
  function AdminMiddleware(ctx: Context): (v: Verdict)
    ensures v == Next <==> "role" in ctx && ctx["role"] == Str("admin")
    ensures v.Abort? ==> v == Abort(Forbidden, AdminRequired)
  {
    if "role" !in ctx || ctx["role"] != Str("admin") then Abort(Forbidden, AdminRequired) else Next
  }

  /**
   * The two guards in a row, as written: AuthMiddleware stores the role with
   * dynamic type `model.UserRole`, so AdminMiddleware refuses every request
   * that authenticated, administrators included.
   */
  lemma AdminMiddlewareRefusesEveryToken(header: string, ctx: Context,
                                          parseToken: string -> Result<Claims, string>)
    requires Authenticate(header, ctx, parseToken).verdict == Next
    ensures AdminMiddleware(Authenticate(header, ctx, parseToken).ctx) == Abort(Forbidden, AdminRequired)
  {
    var h := Authenticate(header, ctx, parseToken);
    assert h.ctx["role"].RoleText?;
  }

  /** A concrete request: an administrator's valid token is refused with 403. */
  lemma AdminTokenRefused()
    ensures var parse := (t: string) => Success(Claims(1, "admin", Admin.Text()));
      var h := Authenticate("Bearer t0k3n", map[], parse);
      h.verdict == Next && AdminMiddleware(h.ctx) == Abort(Forbidden, AdminRequired)
  {
    var parse := (t: string) => Success(Claims(1, "admin", Admin.Text()));
    BearerRoundTrip("t0k3n");
    assert BearerPrefix + "t0k3n" == "Bearer t0k3n";
    var h := Authenticate("Bearer t0k3n", map[], parse);
    assert h.ctx["role"] == RoleText("admin");
  }

  /** The evidently intended admin gate: compare with the role constant `model.RoleAdmin`. */
  function AdminGate(ctx: Context): (v: Verdict)
    ensures v == Next <==> "role" in ctx && ctx["role"] == RoleText(Admin.Text())
    ensures v.Abort? ==> v == Abort(Forbidden, AdminRequired)
  {
    if "role" !in ctx || ctx["role"] != RoleText(Admin.Text()) then Abort(Forbidden, AdminRequired) else Next
  }

  /** With the intended gate, an authenticated request goes through exactly when its token's role is "admin". */
  lemma AdminGateAfterAuthentication(header: string, ctx: Context, parseToken: string -> Result<Claims, string>)
    requires Authenticate(header, ctx, parseToken).verdict == Next
    ensures var h := Authenticate(header, ctx, parseToken);
      AdminGate(h.ctx) == Next <==> parseToken(BearerToken(header).value).value.role == "admin"
  {
  }
}
