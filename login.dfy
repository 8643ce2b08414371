/**
 * The login route handler (`POST` in `app/api/auth/login/route.ts`): it
 * forwards the credentials to the backend, picks the session token out of
 * the backend's answer, and either rejects the login or answers `{ok: true}`
 * with the token stored in an http-only `token` cookie.
 */
module Login {
  import opened Wrappers
  import opened Json

  /**
   * The outcome of reading the request body and posting it to the backend:
   * either one of them threw, or the backend answered with body `data`.
   */
  datatype Upstream = Threw | Responded(data: Json)

  datatype Cookie = Cookie(
    name: string,
    value: Json,
    httpOnly: bool,
    path: string,
    sameSite: string,
    secure: bool,
    maxAge: int)

  /** A JSON response: status code, body, and the cookie it sets, if any. */
  datatype Response = Response(status: int, body: Json, cookie: Option<Cookie>)

  /** One week, in seconds. */
  const SessionMaxAge: int := 60 * 60 * 24 * 7

  /** `{ ok: false, message }` */
  function FailureBody(message: string): Json {
    Obj(map["ok" := Bool(false), "message" := Str(message)])
  }

  /** The four places the backend may put the token, in the order they are tried. */
  function TokenCandidates(data: Json): seq<Json> {
    [Get(data, "token"), Get(data, "accessToken"),
     Get(Get(data, "data"), "token"), Get(Get(data, "data"), "accessToken")]
  }

  /**
   * The selected token: the first of `token`, `accessToken`, `data.token`
   * and `data.accessToken` that is neither `null` nor `undefined`, tried
   * with a left-to-right nullish-coalescing chain.
   */
  function SelectToken(data: Json): Json {
    Coalesce(
      Coalesce(
        Coalesce(Get(data, "token"), Get(data, "accessToken")),
        Get(Get(data, "data"), "token")),
      Get(Get(data, "data"), "accessToken"))
  }

  /** The cookie set on success: fixed attributes, `secure` only in production. */
  function SessionCookie(token: Json, nodeEnv: string): Cookie {
    Cookie("token", token, true, "/", "lax", nodeEnv == "production", SessionMaxAge)
  }

  /**
   * The handler. Any exception gives 401; a falsy token gives 400; otherwise
   * the default status 200 with the session cookie. Exactly the successful
   * answer carries a cookie.
   */
  function LoginPost(upstream: Upstream, nodeEnv: string): (r: Response)
    ensures r.status == 200 || r.status == 400 || r.status == 401
    ensures r.cookie.Some? <==> r.status == 200
  {
    match upstream
    case Threw =>
      Response(401, FailureBody("Login failed"), None)
    case Responded(data) =>
      var token := SelectToken(data);
      if !IsTruthy(token) then
        Response(400, FailureBody("Token was not returned by backend"), None)
      else
        Response(200, Obj(map["ok" := Bool(true)]), Some(SessionCookie(token, nodeEnv)))
  }

  /** The selected token is the first candidate that is neither `null` nor `undefined`. */
  lemma SelectTokenIsFirstNonNullish(data: Json, i: nat)
    requires i < 4 && !IsNullish(TokenCandidates(data)[i])
    requires forall j :: 0 <= j < i ==> IsNullish(TokenCandidates(data)[j])
    ensures SelectToken(data) == TokenCandidates(data)[i]
  {
    var c := TokenCandidates(data);
    if i > 0 { assert IsNullish(c[0]); }
    if i > 1 { assert IsNullish(c[1]); }
    if i > 2 { assert IsNullish(c[2]); }
  }

  /** When every candidate is nullish, so is the selection. */
  lemma SelectTokenNullishWhenAllAre(data: Json)
    requires forall j :: 0 <= j < 4 ==> IsNullish(TokenCandidates(data)[j])
    ensures IsNullish(SelectToken(data))
  {
    var c := TokenCandidates(data);
    assert IsNullish(c[0]) && IsNullish(c[1]) && IsNullish(c[2]) && IsNullish(c[3]);
  }

  /** Any thrown error, from the body parse or the backend call, is a 401 "Login failed" and sets nothing. */
  lemma ThrownErrorIsUnauthorized(nodeEnv: string)
    ensures LoginPost(Threw, nodeEnv) == Response(401, FailureBody("Login failed"), None)
  {
  }

  /** A backend answer is rejected with 400 exactly when the selected token is falsy. */
  lemma MissingTokenIsBadRequest(data: Json, nodeEnv: string)
    ensures LoginPost(Responded(data), nodeEnv).status == 400 <==> !IsTruthy(SelectToken(data))
    ensures !IsTruthy(SelectToken(data)) ==>
              LoginPost(Responded(data), nodeEnv)
              == Response(400, FailureBody("Token was not returned by backend"), None)
  {
  }

  /** On success the body is `{ok: true}` and the `token` cookie holds exactly the selected token. */
  lemma SuccessSetsSessionCookie(data: Json, nodeEnv: string)
    requires IsTruthy(SelectToken(data))
    ensures var r := LoginPost(Responded(data), nodeEnv);
            && r.status == 200
            && r.body == Obj(map["ok" := Bool(true)])
            && r.cookie.Some?
            && r.cookie.value.name == "token"
            && r.cookie.value.value == SelectToken(data)
            && r.cookie.value.httpOnly
            && r.cookie.value.path == "/"
            && r.cookie.value.sameSite == "lax"
            && r.cookie.value.maxAge == 604800
            && (r.cookie.value.secure <==> nodeEnv == "production")
  {
  }

  /** `??` skips only `null`/`undefined`: an empty `token` beats a real `accessToken`, then fails the check. */
  lemma EmptyTokenShadowsLaterCandidates(nodeEnv: string)
    ensures var data := Obj(map["token" := Str(""), "accessToken" := Str("abc")]);
            && SelectToken(data) == Str("")
            && LoginPost(Responded(data), nodeEnv).status == 400
  {
  }
}
