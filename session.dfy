/**
 * The login route and the route guard together: the `token` cookie that a
 * successful login sets is the cookie the guard reads on the next request.
 */
module Session {
  import opened Wrappers
  import opened Json
  import opened Login
  import opened RouteGuard

  /**
   * The text a cookie holds for the value it was set with: a string as it
   * is, any other value as `text` renders it. How the cookie library renders
   * a non-string value is not part of this model, so `text` is a parameter.
   */
  function CookieText(v: Json, text: Json -> string): (r: string)
    ensures v.Str? ==> r == v.s
    ensures !v.Str? ==> r == text(v)
  {
    if v.Str? then v.s else text(v)
  }

  /**
   * The `token` cookie value the browser sends back for the cookie a
   * response set, as the guard reads it: nothing when no `token` cookie was
   * set, otherwise the cookie's text.
   */
  function StoredToken(cookie: Option<Cookie>, text: Json -> string): (r: Option<string>)
    ensures r.Some? <==> cookie.Some? && cookie.value.name == "token"
    ensures r.Some? && cookie.value.value.Str? ==> r.value == cookie.value.value.s
    ensures r.Some? && !cookie.value.value.Str? ==> r.value == text(cookie.value.value)
  {
    if cookie.Some? && cookie.value.name == "token" then Some(CookieText(cookie.value.value, text))
    else None
  }

  /**
   * Whatever the backend answered, a falsy selected token leaves no cookie
   * and a truthy one leaves a `token` cookie holding its text.
   */
  lemma LoginStoresAnyToken(data: Json, nodeEnv: string, text: Json -> string)
    ensures var v := SelectToken(data);
            var r := LoginPost(Responded(data), nodeEnv);
            && (!IsTruthy(v) ==> r.status == 400 && StoredToken(r.cookie, text) == None)
            && (IsTruthy(v) ==> r.status == 200 && StoredToken(r.cookie, text) == Some(CookieText(v, text)))
  {
    if IsTruthy(SelectToken(data)) {
      SuccessSetsSessionCookie(data, nodeEnv);
    }
  }

  /**
   * Login stores a string token as it is when it is non-empty and rejects it
   * with 400 when it is empty, so for a string token the login succeeds
   * exactly when the guard then sees a token.
   */
  lemma LoginStoresSelectedToken(data: Json, nodeEnv: string, t: string, text: Json -> string)
    requires SelectToken(data) == Str(t)
    ensures var r := LoginPost(Responded(data), nodeEnv);
            && (t == [] ==> r.status == 400 && StoredToken(r.cookie, text) == None)
            && (t != [] ==> r.status == 200 && StoredToken(r.cookie, text) == Some(t))
            && (r.status == 200 <==> IsTruthyString(StoredToken(r.cookie, text)))
  {
    LoginStoresAnyToken(data, nodeEnv, text);
    TruthyStringAgrees(StoredToken(LoginPost(Responded(data), nodeEnv).cookie, text));
  }

  /** Without a cookie a user page and an admin page both redirect to login. */
  lemma VisitWithoutCookie(parse: string -> Option<Json>)
    ensures Middleware("/account", None, parse) == RedirectLogin
    ensures Middleware("/admin", None, parse) == RedirectLogin
  {
    UserRouteIff("/account");
    AdminRouteIff("/admin");
  }

  /**
   * With a non-empty token a user page is allowed, an admin page is allowed
   * exactly for an admin token and sends the request home otherwise, and the
   * login page sends it home.
   */
  lemma VisitWithCookie(t: string, parse: string -> Option<Json>)
    requires t != []
    ensures Middleware("/account", Some(t), parse) == Allow
    ensures Middleware("/admin", Some(t), parse) == Allow <==> IsAdminToken(t, parse)
    ensures !IsAdminToken(t, parse) ==> Middleware("/admin", Some(t), parse) == RedirectHome
    ensures Middleware("/login", Some(t), parse) == RedirectHome
  {
    UserRouteIff("/account");
    AdminRouteIff("/account");
    assert !IsAdminRoute("/account") by {
      assert "/account"[2] != "/admin/"[2];
    }
    assert !IsAuthPage("/account") by {
      assert "/account"[1] == 'a' && AuthPages[0][1] == 'l' && AuthPages[1][1] == 'r';
    }
    AdminRouteIff("/admin");
    AdminPathNeedsAdminRole("/admin", t, parse);
    AuthPageWithTokenGoesHome("/login", t, parse);
  }

  /**
   * Logging in with a backend answer whose selected token is the string `t`
   * and then requesting `path` with the cookie that login set. An empty `t`
   * is rejected and sets no cookie, so every protected page still redirects
   * to login and every other page is allowed. A non-empty `t` is stored as
   * it is: user pages are allowed, an admin page is allowed exactly when `t`
   * carries the admin role and goes home otherwise, auth pages go home, and
   * unprotected pages are allowed.
   */
  lemma LoginThenVisit(data: Json, nodeEnv: string, t: string, path: string,
                       text: Json -> string, parse: string -> Option<Json>)
    requires SelectToken(data) == Str(t)
    ensures var r := LoginPost(Responded(data), nodeEnv);
            var stored := StoredToken(r.cookie, text);
            var protected := IsUserRoute(path) || IsAdminRoute(path);
            && (t == [] ==>
                  && r.status == 400 && stored == None
                  && (protected ==> Middleware(path, stored, parse) == RedirectLogin)
                  && (!protected ==> Middleware(path, stored, parse) == Allow))
            && (t != [] ==>
                  && r.status == 200 && stored == Some(t)
                  && (IsUserRoute(path) ==> Middleware(path, stored, parse) == Allow)
                  && (IsAdminRoute(path) ==> (Middleware(path, stored, parse) == Allow <==> IsAdminToken(t, parse)))
                  && (IsAdminRoute(path) && !IsAdminToken(t, parse) ==> Middleware(path, stored, parse) == RedirectHome)
                  && (IsAuthPage(path) ==> Middleware(path, stored, parse) == RedirectHome)
                  && (!protected && !IsAuthPage(path) ==> Middleware(path, stored, parse) == Allow))
  {
    LoginStoresSelectedToken(data, nodeEnv, t, text);
    DecisionTable(path, StoredToken(LoginPost(Responded(data), nodeEnv).cookie, text), parse);
  }

  /**
   * A truthy token that is not a string, such as a number, still logs in,
   * and the guard then sees its text: a non-empty text opens user pages,
   * while an empty text leaves protected pages redirecting to login.
   */
  lemma NonStringTokenIsSeenAsText(data: Json, nodeEnv: string, path: string,
                                   text: Json -> string, parse: string -> Option<Json>)
    requires IsTruthy(SelectToken(data)) && !SelectToken(data).Str?
    ensures var v := SelectToken(data);
            var r := LoginPost(Responded(data), nodeEnv);
            var stored := StoredToken(r.cookie, text);
            && r.status == 200 && stored == Some(text(v))
            && (text(v) != [] && IsUserRoute(path) ==> Middleware(path, stored, parse) == Allow)
            && (text(v) == [] && (IsUserRoute(path) || IsAdminRoute(path)) ==>
                  Middleware(path, stored, parse) == RedirectLogin)
  {
    LoginStoresAnyToken(data, nodeEnv, text);
    DecisionTable(path, StoredToken(LoginPost(Responded(data), nodeEnv).cookie, text), parse);
  }
}
