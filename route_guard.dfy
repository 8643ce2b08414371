/**
 * The route guard that runs before every page render (`middleware.ts`).
 * It classifies the request path against three fixed route tables, reads
 * the `token` cookie, decodes the role claim from the token's payload
 * segment without verifying any signature, and answers with one of three
 * decisions in a fixed precedence order.
 */
module RouteGuard {
  import opened Wrappers
  import opened Strings
  import opened Json

  // ------------------------------------------------------------ route tables

  const UserRoutes: seq<string> := ["/account", "/cart", "/transactions"]

  const AdminRoutes: seq<string> := [
    "/admin",
    "/admin/users",
    "/admin/banners",
    "/admin/promos",
    "/admin/categories",
    "/admin/activities",
    "/admin/transactions",
    "/admin/payment-methods"
  ]

  const AuthPages: seq<string> := ["/login", "/register"]

  /** A path is under `route` when it is the route itself or starts with the route and a `/`. */
  predicate MatchesRoute(route: string, path: string) {
    path == route || route + "/" <= path
  }

  /** Whether any entry of the table matches, scanning it left to right. */
  function AnyRouteMatches(routes: seq<string>, path: string): bool
    decreases |routes|
  {
    routes != [] && (MatchesRoute(routes[0], path) || AnyRouteMatches(routes[1..], path))
  }

  predicate IsUserRoute(path: string) {
    AnyRouteMatches(UserRoutes, path)
  }

  predicate IsAdminRoute(path: string) {
    AnyRouteMatches(AdminRoutes, path)
  }

  /** The auth pages are matched by exact membership only, never by sub-path. */
  predicate IsAuthPage(path: string) {
    path in AuthPages
  }

  /** The scan finds a match exactly when some table entry matches. */
  lemma {:induction false} AnyRouteMatchesIff(routes: seq<string>, path: string)
    ensures AnyRouteMatches(routes, path)
            <==> exists i :: 0 <= i < |routes| && MatchesRoute(routes[i], path)
    decreases |routes|
  {
    if routes != [] {
      AnyRouteMatchesIff(routes[1..], path);
      if AnyRouteMatches(routes[1..], path) {
        var i :| 0 <= i < |routes[1..]| && MatchesRoute(routes[1..][i], path);
        assert routes[i + 1] == routes[1..][i];
      }
      if exists i :: 0 <= i < |routes| && MatchesRoute(routes[i], path) {
        var i :| 0 <= i < |routes| && MatchesRoute(routes[i], path);
        if i > 0 {
          assert routes[1..][i - 1] == routes[i];
        }
      }
    }
  }

  lemma PrefixTransitive(a: string, b: string, c: string)
    requires a <= b && b <= c
    ensures a <= c
  {
    assert c[..|a|] == c[..|b|][..|a|];
  }

  /** Every entry after the first is a sub-path of `/admin/`. */
  lemma AdminEntriesUnderAdmin(i: nat)
    requires 1 <= i < |AdminRoutes|
    ensures "/admin/" <= AdminRoutes[i]
  {
  }

  /**
   * Every entry of the admin table lies under `/admin`, so the table as a
   * whole protects exactly `/admin` and the paths under `/admin/`.
   */
  lemma AdminRouteIff(path: string)
    ensures IsAdminRoute(path) <==> path == "/admin" || "/admin/" <= path
  {
    AnyRouteMatchesIff(AdminRoutes, path);
    if IsAdminRoute(path) && path != "/admin" {
      var i :| 0 <= i < |AdminRoutes| && MatchesRoute(AdminRoutes[i], path);
      if i == 0 {
        assert "/admin/" == AdminRoutes[0] + "/";
      } else {
        var route := AdminRoutes[i];
        AdminEntriesUnderAdmin(i);
        assert route <= route + "/";
        if route + "/" <= path {
          PrefixTransitive(route, route + "/", path);
        }
        PrefixTransitive("/admin/", route, path);
      }
    }
    if "/admin/" <= path {
      assert MatchesRoute(AdminRoutes[0], path);
    }
  }

  /** The user table, spelled out: each route itself or a path under it. */
  lemma UserRouteIff(path: string)
    ensures IsUserRoute(path) <==>
              || path == "/account" || "/account/" <= path
              || path == "/cart" || "/cart/" <= path
              || path == "/transactions" || "/transactions/" <= path
  {
    AnyRouteMatchesIff(UserRoutes, path);
    if IsUserRoute(path) {
      var i :| 0 <= i < |UserRoutes| && MatchesRoute(UserRoutes[i], path);
      assert i == 0 || i == 1 || i == 2;
    }
    if "/account/" <= path { assert MatchesRoute(UserRoutes[0], path); }
    if "/cart/" <= path { assert MatchesRoute(UserRoutes[1], path); }
    if "/transactions/" <= path { assert MatchesRoute(UserRoutes[2], path); }
  }

  /** Two strings that differ at position `i` cannot both be prefixes of one path. */
  lemma PrefixesDifferAt(a: string, b: string, path: string, i: nat)
    requires i < |a| && i < |b| && a[i] != b[i]
    ensures !(a <= path && b <= path)
  {
    if a <= path {
      assert path[i] == a[i];
    }
  }

  /** Look-alike paths that merely share a user route's letters are not protected. */
  lemma UserLookalikesAreNotProtected()
    ensures !IsUserRoute("/cartx") && !IsUserRoute("/accounts")
  {
    UserRouteIff("/cartx");
    PrefixesDifferAt("/cart/", "/cartx", "/cartx", 5);
    UserRouteIff("/accounts");
    PrefixesDifferAt("/account/", "/accounts", "/accounts", 8);
  }

  /** `/administrator` is not an admin path, while any path under `/admin/` is. */
  lemma AdminLookalikeIsNotProtected()
    ensures !IsAdminRoute("/administrator") && IsAdminRoute("/admin/anything")
  {
    AdminRouteIff("/administrator");
    PrefixesDifferAt("/admin/", "/administrator", "/administrator", 6);
    AdminRouteIff("/admin/anything");
  }

  /** Sub-paths of user routes are protected; sub-paths of auth pages are not auth pages. */
  lemma SubPathsOfRoutes()
    ensures IsUserRoute("/cart/1")
    ensures !IsAuthPage("/login/") && !IsAuthPage("/login/x")
  {
    UserRouteIff("/cart/1");
  }

  /** Every admin path starts with `/admin`. */
  lemma AdminPathStartsWithAdmin(path: string)
    ensures IsAdminRoute(path) ==> "/admin" <= path
  {
    AdminRouteIff(path);
    if "/admin/" <= path { PrefixTransitive("/admin", "/admin/", path); }
  }

  /** Every user path starts with one of the three user routes. */
  lemma UserPathStartsWithRoute(path: string)
    ensures IsUserRoute(path) ==> "/account" <= path || "/cart" <= path || "/transactions" <= path
  {
    UserRouteIff(path);
    if "/account/" <= path { PrefixTransitive("/account", "/account/", path); }
    if "/cart/" <= path { PrefixTransitive("/cart", "/cart/", path); }
    if "/transactions/" <= path { PrefixTransitive("/transactions", "/transactions/", path); }
  }

  /** No path is both a user path and an admin path. */
  lemma UserAndAdminTablesAreDisjoint(path: string)
    ensures !(IsUserRoute(path) && IsAdminRoute(path))
  {
    if IsAdminRoute(path) {
      AdminPathStartsWithAdmin(path);
      assert path[2] == "/admin"[2];
      UserPathStartsWithRoute(path);
      PrefixesDifferAt("/account", path, path, 2);
      PrefixesDifferAt("/cart", path, path, 2);
      PrefixesDifferAt("/transactions", path, path, 2);
    }
  }

  /** Both auth pages start with a character no protected route has at that position. */
  lemma AuthPageSecondChar(path: string)
    requires IsAuthPage(path)
    ensures |path| > 1 && (path[1] == 'l' || path[1] == 'r')
  {
  }

  /** No auth page is an admin path. */
  lemma AuthPageIsNotAdminRoute(path: string)
    ensures IsAuthPage(path) ==> !IsAdminRoute(path)
  {
    if IsAuthPage(path) {
      AuthPageSecondChar(path);
      AdminPathStartsWithAdmin(path);
      PrefixesDifferAt("/admin", path, path, 1);
    }
  }

  /** No auth page is a user path. */
  lemma AuthPageIsNotUserRoute(path: string)
    ensures IsAuthPage(path) ==> !IsUserRoute(path)
  {
    if IsAuthPage(path) {
      AuthPageSecondChar(path);
      UserPathStartsWithRoute(path);
      PrefixesDifferAt("/account", path, path, 1);
      PrefixesDifferAt("/cart", path, path, 1);
      PrefixesDifferAt("/transactions", path, path, 1);
    }
  }

  /** The auth pages are in neither protected table. */
  lemma AuthPagesAreUnprotected(path: string)
    ensures IsAuthPage(path) ==> !IsUserRoute(path) && !IsAdminRoute(path)
  {
    AuthPageIsNotAdminRoute(path);
    AuthPageIsNotUserRoute(path);
  }

  // ------------------------------------------------------------ token decoding

  /** Rewrites the base64url alphabet (RFC 4648 section 5) into the base64 one (section 4): every `-` to `+`, then every `_` to `/`. */
  function ToBase64Alphabet(segment: string): (r: string)
    ensures |r| == |segment|
    ensures forall i :: 0 <= i < |segment| ==>
              r[i] == (if segment[i] == '-' then '+' else if segment[i] == '_' then '/' else segment[i])
  {
    ReplaceAll(ReplaceAll(segment, '-', '+'), '_', '/')
  }

  /**
   * `decodeJwtPayload`: the second `.`-separated segment of the compact
   * token (section 7.1 of RFC 7515), in the base64 alphabet, handed to
   * `parse`, which stands for `JSON.parse(atob(...))` and answers `None`
   * where either of them throws. Never fails: a token with no `.` gives `None`.
   */
  function DecodeJwtPayload(token: string, parse: string -> Option<Json>): (r: Option<Json>)
    ensures '.' !in token ==> r == None
  {
    var parts := Split(token, '.');
    SplitHasTwoPartsIff(token, '.');
    if |parts| < 2 then None else parse(ToBase64Alphabet(parts[1]))
  }

  /** For `header.payload` and `header.payload.signature...`, the payload segment is the one decoded. */
  lemma DecodeReadsPayloadSegment(header: string, payload: string, rest: string, parse: string -> Option<Json>)
    requires '.' !in header && '.' !in payload
    requires rest == [] || rest[0] == '.'
    ensures DecodeJwtPayload(header + "." + payload + rest, parse) == parse(ToBase64Alphabet(payload))
  {
    var token := header + "." + payload + rest;
    SplitWithoutSeparator(header, '.');
    SplitWithoutSeparator(payload, '.');
    if rest == [] {
      assert token == header + ['.'] + payload;
      SplitAtSeparator(header, payload, '.');
    } else {
      var tail := rest[1..];
      assert token == header + ['.'] + (payload + ['.'] + tail);
      SplitAtSeparator(header, payload + ['.'] + tail, '.');
      SplitAtSeparator(payload, tail, '.');
    }
    assert Split(token, '.')[1] == payload;
  }

  /** The role claim: the top-level `role`, or the nested `user.role` when the top-level one is nullish. */
  function RoleClaim(decoded: Option<Json>): Json {
    var d := decoded.GetOr(Undefined);
    Coalesce(Get(d, "role"), Get(Get(d, "user"), "role"))
  }

  lemma RoleClaimPrecedence(d: Json)
    ensures !IsNullish(Get(d, "role")) ==> RoleClaim(Some(d)) == Get(d, "role")
    ensures IsNullish(Get(d, "role")) ==> RoleClaim(Some(d)) == Get(Get(d, "user"), "role")
    ensures RoleClaim(None) == Undefined
  {
  }

  // ------------------------------------------------------------ the decision

  datatype Decision = Allow | RedirectLogin | RedirectHome

  predicate IsAdminToken(token: string, parse: string -> Option<Json>) {
    RoleClaim(DecodeJwtPayload(token, parse)) == Str("admin")
  }

  /** `middleware`: three early returns, checked in order, then `NextResponse.next()`. */
  function Middleware(path: string, token: Option<string>, parse: string -> Option<Json>): Decision {
    if (IsUserRoute(path) || IsAdminRoute(path)) && !IsTruthyString(token) then RedirectLogin
    else if IsAdminRoute(path) && IsTruthyString(token) && !IsAdminToken(token.value, parse) then RedirectHome
    else if IsAuthPage(path) && IsTruthyString(token) then RedirectHome
    else Allow
  }

  /**
   * The whole decision table: the login redirect is for protected paths
   * without a token; the home redirect is for a tokened request to an admin
   * path without the admin role, or to an auth page whatever the role; every
   * other request is allowed.
   */
  lemma DecisionTable(path: string, token: Option<string>, parse: string -> Option<Json>)
    ensures Middleware(path, token, parse) == RedirectLogin
            <==> (IsUserRoute(path) || IsAdminRoute(path)) && !IsTruthyString(token)
    ensures Middleware(path, token, parse) == RedirectHome
            <==> IsTruthyString(token) &&
                 ((IsAdminRoute(path) && !IsAdminToken(token.value, parse)) || IsAuthPage(path))
    ensures Middleware(path, token, parse) == Allow
            <==> || (!IsUserRoute(path) && !IsAdminRoute(path) && !IsAuthPage(path))
                 || (IsAuthPage(path) && !IsTruthyString(token))
                 || (IsUserRoute(path) && IsTruthyString(token))
                 || (IsAdminRoute(path) && IsTruthyString(token) && IsAdminToken(token.value, parse))
  {
    UserAndAdminTablesAreDisjoint(path);
    AuthPagesAreUnprotected(path);
  }

  /** On an admin path with a token, only the exact role `"admin"` gets through. */
  lemma AdminPathNeedsAdminRole(path: string, token: string, parse: string -> Option<Json>)
    requires IsAdminRoute(path) && token != []
    ensures Middleware(path, Some(token), parse) == Allow <==> IsAdminToken(token, parse)
    ensures Middleware(path, Some(token), parse) != Allow ==> Middleware(path, Some(token), parse) == RedirectHome
  {
    AuthPagesAreUnprotected(path);
  }

  /** An undecodable token, or one with no `.` at all, counts as not admin. */
  lemma UndecodableTokenIsNotAdmin(path: string, token: string, parse: string -> Option<Json>)
    requires IsAdminRoute(path) && token != []
    requires DecodeJwtPayload(token, parse) == None
    ensures Middleware(path, Some(token), parse) == RedirectHome
  {
  }

  /** `{role: "user", user: {role: "admin"}}`: the top-level `user` role shadows the nested one. */
  lemma TopLevelRoleShadowsNested(header: string, payload: string, parse: string -> Option<Json>)
    requires '.' !in header && '.' !in payload
    requires parse(ToBase64Alphabet(payload))
             == Some(Obj(map["role" := Str("user"), "user" := Obj(map["role" := Str("admin")])]))
    ensures Middleware("/admin", Some(header + "." + payload), parse) == RedirectHome
  {
    DecodeReadsPayloadSegment(header, payload, [], parse);
    assert header + "." + payload + [] == header + "." + payload;
    AdminRouteIff("/admin");
  }

  /** A tokened request for an auth page goes home, whatever the token says. */
  lemma AuthPageWithTokenGoesHome(path: string, token: string, parse: string -> Option<Json>)
    requires IsAuthPage(path) && token != []
    ensures Middleware(path, Some(token), parse) == RedirectHome
  {
    AuthPagesAreUnprotected(path);
  }

  /** `parse` is consulted only on admin paths: elsewhere the decision depends on path and token alone. */
  lemma DecodingOnlyOnAdminPaths(path: string, token: Option<string>, p1: string -> Option<Json>, p2: string -> Option<Json>)
    requires !IsAdminRoute(path)
    ensures Middleware(path, token, p1) == Middleware(path, token, p2)
  {
  }
}
