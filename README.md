# Travel storefront: route guard, login, API client and form helpers

A Dafny model of the logic behind a Next.js travel-booking storefront. The
storefront talks to an external REST backend under `/api/v1/`. The model
covers:

- **Route guard** (`middleware.ts`). Every page request is classified
  against three route tables: user pages, admin pages and the login/register
  pages. The guard reads the `token` cookie and decodes the role claim from
  the payload segment of the JWT, without checking the signature. It answers
  Allow, RedirectLogin or RedirectHome in a fixed precedence order.
- **Response unwrapping** (`parseApiData`, `lib/utils.ts`). It peels one
  `data` layer off a backend body.
- **Login route** (`app/api/auth/login/route.ts`). It picks the session token
  from four candidate fields with a `??` chain. It then answers 401, 400, or
  200 with an http-only `token` cookie.
- **HTTP client** (`lib/api/client.ts`). It holds a module-level token, and
  its request interceptor writes the `apiKey` and `Authorization: Bearer`
  headers into the outgoing request in place.
- **Account page helpers** (`app/account/page.tsx`): `getMessage`, the
  user-to-form mapping, and the update-profile payload.
- **Activities back office** (`app/admin/activities/page.tsx`): `mapInitial`
  and `transformPayload`, including the comma join and the
  split/trim/filter of image URLs.
- **Endpoint table** (`lib/api/endpoints.ts`): fixed paths and id builders.
- **Session** (login route and route guard together): the `token` cookie a
  login sets is the cookie the guard reads on the next page request.

Modules, one per file:

| module | file |
|---|---|
| `Wrappers` | `wrappers.dfy` |
| `Strings` | `strings.dfy` |
| `Json` | `json.dfy` |
| `RouteGuard` | `route_guard.dfy` |
| `ApiData` | `api_data.dfy` |
| `Login` | `login.dfy` |
| `ApiClient` | `api_client.dfy` |
| `Account` | `account.dfy` |
| `AdminActivities` | `admin_activities.dfy` |
| `Endpoints` | `endpoints.dfy` |
| `Session` | `session.dfy` |

`Strings` gives the JavaScript string operations the code relies on, over
`seq<char>`: `split` on a one-character separator, `join`, `trim` (with the
ECMAScript WhiteSpace and LineTerminator set) and global one-character
`replace`.

`Json` is the JavaScript value model:
- `undefined`, `null`, booleans, numbers, strings, arrays, and objects as maps;
- optional-chaining property reads;
- truthiness;
- `??`.

The HTTP client is modelled as classes, because the source updates state in
place:
- `Client` holds `volatileToken` and the configured key. `SetClientToken`
  overwrites the token.
- `Intercept` rewrites the `headers` field of a `RequestConfig`.

Everything else is pure functions with lemmas about them.

Three things stand in for code the model cannot see:
- `parse: string -> Option<Json>` is `JSON.parse(atob(...))`. `None` means
  one of them threw.
- A `CookieRead` value is the server-side cookie lookup.
- `show: real -> string` is `String(number)`.

## Model

| member | source | states |
|---|---|---|
| Strings.Trim | app/admin/activities/page.tsx:55 | the result has no leading or trailing whitespace and is no longer than the input |
| Strings.TrimIsSlice | app/admin/activities/page.tsx:55 | `trim` cuts only whitespace, from both ends, and keeps a contiguous slice of the input |
| Strings.TrimEmptyIff | app/account/page.tsx:20 | `s.trim()` is empty exactly when `s` is all whitespace |
| Strings.TrimFixesTrimmed | app/admin/activities/page.tsx:55 | trimming an already-trimmed string changes nothing |
| Strings.TrimKeepsAbsentChar | app/admin/activities/page.tsx:55 | trimming introduces no character that was not there |
| Strings.Split | middleware.ts:25 | `split` gives at least one part and no part holds the separator |
| Strings.SplitWithoutSeparator | middleware.ts:25 | a string without the separator splits into itself alone |
| Strings.SplitHasTwoPartsIff | middleware.ts:25-26 | there are two or more parts exactly when the separator occurs |
| Strings.SplitAtSeparator | app/admin/activities/page.tsx:54 | splitting `a,b` gives the parts of `a` followed by the parts of `b`, in order |
| Strings.JoinSplit | app/admin/activities/page.tsx:54 | joining the parts of a split gives back the original string |
| Strings.JoinContainsParts | app/admin/activities/page.tsx:34 | every character of every part occurs in the joined string |
| Strings.SplitJoin | app/admin/activities/page.tsx:34 | separator-free parts survive a `join` followed by a `split` |
| Strings.ReplaceAll | middleware.ts:27 | a global one-character replace keeps the length and rewrites exactly the matching positions |
| RouteGuard.AnyRouteMatchesIff | middleware.ts:39-40 | `routes.some(...)` holds exactly when some table entry matches the path |
| RouteGuard.UserRouteIff | middleware.ts:39 | a user path is `/account`, `/cart` or `/transactions`, or a path under one of them followed by `/` |
| RouteGuard.AdminRouteIff | middleware.ts:40 | the admin table protects exactly `/admin` and the paths starting with `/admin/` |
| RouteGuard.UserLookalikesAreNotProtected | middleware.ts:39 | `/cartx` and `/accounts` are not user paths |
| RouteGuard.AdminLookalikeIsNotProtected | middleware.ts:40 | `/administrator` is not an admin path, but `/admin/anything` is |
| RouteGuard.SubPathsOfRoutes | middleware.ts:39-41 | `/cart/1` is a user path, while `/login/` and `/login/x` are not auth pages |
| RouteGuard.UserAndAdminTablesAreDisjoint | middleware.ts:3-13 | no path is both a user path and an admin path |
| RouteGuard.AuthPagesAreUnprotected | middleware.ts:3-14 | the auth pages are in neither protected table |
| RouteGuard.ToBase64Alphabet | middleware.ts:27 | every `-` becomes `+`, every `_` becomes `/`, every other character and the length are kept |
| RouteGuard.DecodeJwtPayload | middleware.ts:23-33 | decoding never fails: a token without `.` gives no payload |
| RouteGuard.DecodeReadsPayloadSegment | middleware.ts:25-28 | for `header.payload` with or without further segments, the payload segment is what is rewritten and parsed |
| RouteGuard.RoleClaimPrecedence | middleware.ts:49 | the top-level `role` is used unless it is null or undefined, otherwise `user.role`; an undecodable token has no role |
| RouteGuard.DecisionTable | middleware.ts:43-59 | each of the three decisions is characterised exactly (both directions) by path class, token presence and role |
| RouteGuard.AdminPathNeedsAdminRole | middleware.ts:47-53 | on an admin path with a token the request is allowed exactly when the role is `"admin"`, otherwise it goes home |
| RouteGuard.UndecodableTokenIsNotAdmin | middleware.ts:48-51 | a token that cannot be decoded sends an admin-path request home |
| RouteGuard.TopLevelRoleShadowsNested | middleware.ts:49-51 | `{role: "user", user: {role: "admin"}}` is sent home from `/admin` |
| RouteGuard.AuthPageWithTokenGoesHome | middleware.ts:55-57 | an auth page requested with a token goes home, whatever the role |
| RouteGuard.DecodingOnlyOnAdminPaths | middleware.ts:43-59 | off admin paths the decision depends only on the path and the token |
| ApiData.UnwrapsDataKey | lib/utils.ts:8-9 | an object with a `data` key yields exactly that key's value, even `null` or `undefined` |
| ApiData.PassesThroughOtherValues | lib/utils.ts:8-11 | every value without a `data` key comes back unchanged |
| ApiData.WrapThenParse | lib/utils.ts:7-12 | wrapping any value under `data`, beside any other keys, and parsing gives it back |
| ApiData.UnwrapsOneLevelOnly | lib/utils.ts:8-9 | `{data: {data: x}}` becomes `{data: x}`; a second call gives `x` |
| Login.LoginPost | app/api/auth/login/route.ts:14-41 | the status is 200, 400 or 401, and a cookie is set exactly on 200 |
| Login.SelectTokenIsFirstNonNullish | app/api/auth/login/route.ts:19-23 | the token is the first non-nullish candidate among `token`, `accessToken`, `data.token` and `data.accessToken` |
| Login.SelectTokenNullishWhenAllAre | app/api/auth/login/route.ts:19-23 | when every candidate is nullish, so is the selection |
| Login.MissingTokenIsBadRequest | app/api/auth/login/route.ts:25-27 | status 400 with "Token was not returned by backend" and no cookie, exactly when the selected token is falsy |
| Login.SuccessSetsSessionCookie | app/api/auth/login/route.ts:29-36 | on success the body is `{ok: true}` and the `token` cookie holds the selected token with the fixed attributes; it is `secure` exactly in production |
| Login.ThrownErrorIsUnauthorized | app/api/auth/login/route.ts:38-40 | any thrown error gives 401 "Login failed" and no cookie |
| Login.EmptyTokenShadowsLaterCandidates | app/api/auth/login/route.ts:19-27 | an empty `token` is selected over a real `accessToken` and then rejected with 400 |
| ApiClient.ServerCookieToken | lib/api/client.ts:13-22 | no token in a browser or on error; otherwise the token is exactly the cookie's value |
| ApiClient.ApiKeyHeaderIffConfigured | lib/api/client.ts:35-37 | `apiKey` holds the configured key exactly when one is configured; otherwise the header is left as it was |
| ApiClient.AuthorizationIffToken | lib/api/client.ts:39-42 | `Authorization` is `Bearer <token>` exactly when the chosen token is non-empty; otherwise the header is left as it was |
| ApiClient.OtherHeadersUntouched | lib/api/client.ts:33-44 | every other header keeps its presence and value |
| ApiClient.EmptyVolatileTokenHidesCookie | lib/api/client.ts:39-42 | a volatile token of `""` wins over the cookie token and no `Authorization` header is added |
| ApiClient.Client.constructor | lib/api/client.ts:5-7 | a new client starts with no volatile token and the configured key |
| ApiClient.Client.SetClientToken | lib/api/client.ts:9-11 | the volatile token becomes exactly the given one |
| ApiClient.Client.Intercept | lib/api/client.ts:32-45 | the same config is returned; a missing header map becomes empty and then gets the credential headers; the client's token is left in force |
| Account.GetMessage | app/account/page.tsx:17-23 | the result is either the fallback or the body's own string `message` |
| Account.GetMessageUsesNonBlankMessage | app/account/page.tsx:18-20 | a string `message` with visible content is returned verbatim |
| Account.GetMessageFallsBack | app/account/page.tsx:18-22 | no `message`, a non-string `message` or a blank `message` gives the fallback |
| Account.FormCopiesPresentFields | app/account/page.tsx:46-55 | present user fields are copied into the form and missing ones become `""` |
| Account.PayloadDropsEmptyOptionals | app/account/page.tsx:59-64 | name and email pass through; an empty optional field is dropped and a non-empty one kept |
| Account.UntouchedFormRoundTrip | app/account/page.tsx:46-64 | saving an untouched form sends back the loaded fields, except that optional `""` fields are sent as absent |
| AdminActivities.MapInitialKeys | app/admin/activities/page.tsx:15-44 | the form's key set is exactly the thirteen field names |
| AdminActivities.MapInitialOfNothingIsBlank | app/admin/activities/page.tsx:30-44 | with no item, every field is `""` |
| AdminActivities.NonBlankTrimmed | app/admin/activities/page.tsx:55-56 | the map-and-filter keeps only non-empty, trimmed strings and never grows the list |
| AdminActivities.NonBlankTrimmedConcat | app/admin/activities/page.tsx:55-56 | the map-and-filter distributes over concatenation, so order is kept |
| AdminActivities.NonBlankTrimmedFixes | app/admin/activities/page.tsx:55-56 | a list of non-empty trimmed strings passes unchanged |
| AdminActivities.CleanImageUrls | app/admin/activities/page.tsx:53-56 | every image URL is non-empty, trimmed and free of commas |
| AdminActivities.CleanImageUrlsAtComma | app/admin/activities/page.tsx:53-56 | the URLs left of a comma come before those right of it |
| AdminActivities.CommasAndWhitespaceGiveNoUrls | app/admin/activities/page.tsx:53-56 | input of only commas and whitespace gives an empty list |
| AdminActivities.JoinThenCleanRoundTrip | app/admin/activities/page.tsx:34-56 | non-empty, comma-free, trimmed URLs survive `join(",")` followed by the split, trim and filter |
| AdminActivities.TransformCopiesOtherFields | app/admin/activities/page.tsx:51-61 | the payload keys are the form keys plus the rewritten fields, every other field is copied unchanged, and `imageUrls` is the cleaned list |
| AdminActivities.TransformNeedsImageUrls | app/admin/activities/page.tsx:53-54 | a form without `imageUrls` makes the transform throw |
| AdminActivities.EditRoundTripKeepsImageUrls | app/admin/activities/page.tsx:30-61 | editing an activity and saving it unchanged sends its image URLs back as they were |
| Endpoints.StaticSegmentOwner | lib/api/endpoints.ts:24-89 | each fixed path's segment identifies its entry, so the segments are pairwise distinct |
| Endpoints.StaticSegmentIsSingle | lib/api/endpoints.ts:24-89 | each fixed path is one non-empty segment below `/api/v1/` |
| Endpoints.BuilderSegmentOwner | lib/api/endpoints.ts:33-84 | each builder's segment identifies the builder |
| Endpoints.BuilderSegmentIsSingle | lib/api/endpoints.ts:33-84 | each builder's segment is one non-empty path segment |
| Endpoints.AllPathsUnderApiPrefix | lib/api/endpoints.ts:24-89 | every fixed path and every built path starts with `/api/v1/` |
| Endpoints.BuildAppendsIdVerbatim | lib/api/endpoints.ts:33-84 | a built path is the builder's fixed prefix followed by the id, unencoded |
| Endpoints.StaticPathsDistinct | lib/api/endpoints.ts:24-89 | distinct fixed entries have distinct paths |
| Endpoints.BuildInjective | lib/api/endpoints.ts:33-84 | equal built paths mean the same builder and the same id, so each builder is injective in its id and an entity's detail, update and delete paths are distinct |
| Endpoints.BuiltPathIsNeverStatic | lib/api/endpoints.ts:24-89 | no built path equals a fixed path |
| Session.StoredToken | middleware.ts:36 | the guard sees a token exactly when a `token` cookie was set, and then sees the cookie's text: a string as it is, any other value as rendered by the cookie library |
| Session.LoginStoresAnyToken | app/api/auth/login/route.ts:25-36 | for any backend answer, a falsy selected token leaves no cookie and a truthy one leaves a `token` cookie holding its text |
| Session.LoginStoresSelectedToken | app/api/auth/login/route.ts:25-36 | an empty string token is answered 400 and leaves no cookie; a non-empty one is answered 200 and stored as it is, so login succeeds exactly when the guard then sees a token |
| Session.VisitWithoutCookie | middleware.ts:39-45 | with no cookie both `/account` and `/admin` redirect to login |
| Session.VisitWithCookie | middleware.ts:39-57 | with a non-empty token `/account` is allowed, `/admin` is allowed exactly for an admin token and goes home otherwise, and `/login` goes home |
| Session.LoginThenVisit | app/api/auth/login/route.ts:25-36 | login with a string token followed by a request for any path with the cookie it set: an empty token leaves every protected page redirecting to login; a non-empty token opens every user page, opens every admin page exactly for the admin role and sends it home otherwise, sends auth pages home, and allows unprotected pages |
| Session.NonStringTokenIsSeenAsText | middleware.ts:36-45 | a truthy non-string token logs in, and the guard then decides on its text: non-empty text opens user pages, empty text leaves protected pages redirecting to login |

## Left out

- Network calls. This covers:
  - the `api` object in `lib/api/endpoints.ts`;
  - `client.post` in the login route, whose outcome is the `Upstream` input;
  - the backend logout route;
  - `serverGet`, `getPublicData` and `requireAdmin`.
  All of them are I/O against a backend that is not part of this model.
- The `/api/proxy/...` route handler is not part of this model.
- React state and rendering. This covers `useState`, `useEffect`, react-query, the notices and every component. Only the pure functions inside those pages are modelled.
- `atob` and `JSON.parse` are the `parse` parameter. Base64 decoding and JSON syntax are not modelled.
- `Number(...)` in `transformPayload` is not evaluated. It is kept as `Number(source)` over the form string.
- `String(number)` in `mapInitial` is the `show` parameter. Floating point and `NaN` are not modelled; numbers are `real`.
- Session.StoredToken: how the cookie library renders a token that is not a string (a number, a boolean, an object) is the parameter `text`, not a fixed function. So for such tokens the model says only that the guard decides on that text.
- The middleware `matcher` configuration is framework routing and is not modelled. `NextResponse`, URL construction and cookie serialization are reduced to the decision and the cookie's attribute values.
- Cookie lookup in the client:
  - the dynamic `import("next/headers")` and the cookie store are the `CookieRead` input;
  - the `window` check is the `inBrowser` flag.
- axios internals are not modelled, nor aliasing between header objects. The headers are a `map<string, string>` owned by the config object.
- `JSON.stringify` dropping `undefined` fields is not modelled. `None` marks a field sent as absent.
- Arrays are modelled without named properties, so an array never has a `data` or `message` key.
- A numeric activity field that is JSON `null` is treated like a missing one in `mapInitial`. This agrees with `??`.
