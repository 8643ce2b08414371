/**
 * The shared HTTP client (`lib/api/client.ts`). A module-level token,
 * overwritten by `setClientToken`, and a request interceptor that injects
 * the `apiKey` header and a `Bearer` authorization header into every
 * outgoing request, taking the token from the module-level slot first and
 * from the server-side `token` cookie otherwise.
 */
module ApiClient {
  import opened Wrappers
  import opened Json

  type Headers = map<string, string>

  /**
   * How the server-side cookie lookup went: the dynamic import or the cookie
   * store threw, or the store answered with the `token` cookie, if any.
   */
  datatype CookieRead = ReadFailed | ReadCookie(token: Option<string>)

  /**
   * `getServerCookieToken`: `null` in a browser and on any error; on the
   * server, the cookie's value or `null`.
   */
  function ServerCookieToken(inBrowser: bool, read: CookieRead): (r: Option<string>)
    ensures inBrowser || read.ReadFailed? ==> r == None
    ensures !inBrowser && read.ReadCookie? ==> r == read.token
    ensures r.Some? ==> !inBrowser && read == ReadCookie(r)
  {
    if inBrowser then None
    else match read
      case ReadFailed => None
      case ReadCookie(token) => token
  }

  /** The token to send: the volatile one whenever it is non-null, even `""`, else the cookie's. */
  function ChooseToken(volatileToken: Option<string>, cookieToken: Option<string>): Option<string> {
    if volatileToken.Some? then volatileToken else cookieToken
  }

  /** The headers as the interceptor leaves them. */
  function WithCredentials(headers: Headers, apiKey: Option<string>, token: Option<string>): Headers {
    var withKey := if IsTruthyString(apiKey) then headers["apiKey" := apiKey.value] else headers;
    if IsTruthyString(token) then withKey["Authorization" := "Bearer " + token.value] else withKey
  }

  /** The `apiKey` header carries the configured key exactly when one is configured; otherwise it is left as it was. */
  lemma ApiKeyHeaderIffConfigured(headers: Headers, apiKey: Option<string>, token: Option<string>)
    ensures var r := WithCredentials(headers, apiKey, token);
            && (IsTruthyString(apiKey) ==> "apiKey" in r && r["apiKey"] == apiKey.value)
            && (!IsTruthyString(apiKey) ==>
                  && ("apiKey" in r <==> "apiKey" in headers)
                  && ("apiKey" in headers ==> r["apiKey"] == headers["apiKey"]))
  {
  }

  /** `Authorization` is `"Bearer " + token` exactly when the chosen token is non-empty; otherwise it is left as it was. */
  lemma AuthorizationIffToken(headers: Headers, apiKey: Option<string>, token: Option<string>)
    ensures var r := WithCredentials(headers, apiKey, token);
            && (IsTruthyString(token) ==> "Authorization" in r && r["Authorization"] == "Bearer " + token.value)
            && (!IsTruthyString(token) ==>
                  && ("Authorization" in r <==> "Authorization" in headers)
                  && ("Authorization" in headers ==> r["Authorization"] == headers["Authorization"]))
  {
  }

  /** Every header other than `apiKey` and `Authorization` passes through untouched, and no other header appears. */
  lemma OtherHeadersUntouched(headers: Headers, apiKey: Option<string>, token: Option<string>, name: string)
    requires name != "apiKey" && name != "Authorization"
    ensures var r := WithCredentials(headers, apiKey, token);
            && (name in r <==> name in headers)
            && (name in headers ==> r[name] == headers[name])
  {
  }

  /** A volatile token of `""` hides the cookie token and no `Authorization` header is added. */
  lemma EmptyVolatileTokenHidesCookie(headers: Headers, apiKey: Option<string>, cookieToken: Option<string>)
    requires "Authorization" !in headers
    ensures ChooseToken(Some(""), cookieToken) == Some("")
    ensures "Authorization" !in WithCredentials(headers, apiKey, ChooseToken(Some(""), cookieToken))
  {
  }

  /** The request configuration the interceptor receives and mutates. */
  class RequestConfig {
    var headers: Option<Headers>

    constructor (headers: Option<Headers>)
      ensures this.headers == headers
    {
      this.headers := headers;
    }
  }

  /** The client: the configured API key and the module-level `volatileToken`. */
  class Client {
    const apiKey: Option<string>
    var volatileToken: Option<string>

    constructor (apiKey: Option<string>)
      ensures this.apiKey == apiKey && volatileToken == None
    {
      this.apiKey := apiKey;
      volatileToken := None;
    }

    /** `setClientToken`: later requests use `token` until the next call. */
    method SetClientToken(token: Option<string>)
      modifies this
      ensures volatileToken == token
    {
      volatileToken := token;
    }

    /**
     * The request interceptor: a missing header map becomes empty, then the
     * `apiKey` and `Authorization` headers are written into it in place. The
     * client itself is not changed, so the token stays in force for later requests.
     */
    method Intercept(config: RequestConfig, inBrowser: bool, read: CookieRead) returns (r: RequestConfig)
      modifies config
      ensures r == config
      ensures config.headers.Some?
      ensures config.headers.value
              == WithCredentials(old(config.headers).GetOr(map[]), apiKey,
                                 ChooseToken(volatileToken, ServerCookieToken(inBrowser, read)))
    {
      config.headers := Some(config.headers.GetOr(map[]));
      if IsTruthyString(apiKey) {
        config.headers := Some(config.headers.value["apiKey" := apiKey.value]);
      }
      var token := if volatileToken.Some? then volatileToken else ServerCookieToken(inBrowser, read);
      if IsTruthyString(token) {
        config.headers := Some(config.headers.value["Authorization" := "Bearer " + token.value]);
      }
      r := config;
    }
  }
}
