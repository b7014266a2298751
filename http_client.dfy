/** The configured HTTP client of `src/axios.jsx`: base-URL selection, the request interceptor that
    attaches the stored token as a bearer credential, and the response interceptor that tears the
    session down on 401. */
module HttpClient {
  import opened Wrappers
  import opened Text
  import opened Catalog
  import opened Env

  /** The fixed fallback host used when neither environment variable is set. */
  const DefaultBaseUrl := "https://springteleecom.onrender.com/api"

  /** The base URL chosen from `VITE_API_URL` (`rawApi`) and `VITE_BASE_URL` (`rawBase`). */
  function BaseUrl(rawApi: Option<string>, rawBase: Option<string>): (r: string)
    ensures Truthy(rawApi) ==> r == TrimTrailingSlashes(rawApi.value)
    ensures !Truthy(rawApi) && Truthy(rawBase) ==> r == TrimTrailingSlashes(rawBase.value) + "/api"
    ensures !Truthy(rawApi) && !Truthy(rawBase) ==> r == DefaultBaseUrl
  {
    if Truthy(rawApi) then TrimTrailingSlashes(rawApi.value)
    else if Truthy(rawBase) then TrimTrailingSlashes(rawBase.value) + "/api"
    else DefaultBaseUrl
  }

  /** Whatever the environment, the base URL never ends in "/", so joining "/path" never doubles it. */
  lemma BaseUrlHasNoTrailingSlash(rawApi: Option<string>, rawBase: Option<string>)
    ensures var r := BaseUrl(rawApi, rawBase); r == "" || r[|r| - 1] != '/'
  {
    if !Truthy(rawApi) && Truthy(rawBase) {
      var c := TrimTrailingSlashes(rawBase.value);
      assert (c + "/api")[|c + "/api"| - 1] == 'i';
    }
  }

  /** The `Authorization` value for a token: the "Bearer" scheme of section 2.1 of RFC 6750. */
  function BearerCredentials(token: string): (r: string)
    ensures StartsWith(r, "Bearer ") && r[7..] == token
  {
    "Bearer " + token
  }

  /** The headers after the request interceptor, given the headers before and the storage. */
  function WithBearer(headers: map<string, string>, storage: map<string, string>): (r: map<string, string>)
    ensures TokenKey in storage && storage[TokenKey] != "" ==>
      r == headers["Authorization" := BearerCredentials(storage[TokenKey])]
    ensures !(TokenKey in storage && storage[TokenKey] != "") ==> r == headers
  {
    if TokenKey in storage && storage[TokenKey] != "" then
      headers["Authorization" := BearerCredentials(storage[TokenKey])]
    else headers
  }

  /** Once the token key is gone, the interceptor attaches nothing. */
  lemma NoTokenNoBearer(headers: map<string, string>, storage: map<string, string>)
    requires TokenKey !in storage
    ensures WithBearer(headers, storage) == headers
  {
  }

  /** The storage left by a 401: token, username and admin flag are removed, nothing else. */
  function AfterUnauthorized(storage: map<string, string>): (r: map<string, string>)
    ensures TokenKey !in r && UsernameKey !in r && IsAdminKey !in r
    ensures forall k :: k in storage && k != TokenKey && k != UsernameKey && k != IsAdminKey ==> k in r && r[k] == storage[k]
    ensures r.Keys <= storage.Keys
  {
    storage - {TokenKey, UsernameKey, IsAdminKey}
  }

  /** A 401 keeps the stored cart, and a second 401 changes nothing more. */
  lemma UnauthorizedKeepsCart(storage: map<string, string>)
    ensures CartKey in storage <==> CartKey in AfterUnauthorized(storage)
    ensures CartKey in storage ==> AfterUnauthorized(storage)[CartKey] == storage[CartKey]
    ensures AfterUnauthorized(AfterUnauthorized(storage)) == AfterUnauthorized(storage)
  {
  }

  /** Where a 401 sends the browser from `path`: to /login, unless already on /login or /register. */
  function RedirectOn401(path: string): (r: Option<string>)
    ensures r.Some? <==> path != "/login" && path != "/register"
    ensures r.Some? ==> r.value == "/login"
  {
    if path != "/login" && path != "/register" then Some("/login") else None
  }

  /** A redirect lands on /login, where a further 401 does not redirect again. */
  lemma RedirectOnce(path: string)
    ensures RedirectOn401(path).Some? ==> RedirectOn401(RedirectOn401(path).value).None?
  {
  }

  /** The request configuration the interceptor mutates. */
  class RequestConfig {
    var headers: map<string, string>

    constructor (headers0: map<string, string>)
      ensures headers == headers0
    {
      headers := headers0;
    }
  }

  /** The request interceptor: attach `Bearer <token>` when a non-empty token is stored. */
  method OnRequest(browser: Browser, config: RequestConfig)
    modifies config
    ensures config.headers == WithBearer(old(config.headers), browser.storage)
  {
    var token := browser.GetItem(TokenKey);
    if token.Some? && token.value != "" {
      config.headers := config.headers["Authorization" := BearerCredentials(token.value)];
    }
  }

  /** The browser state a call through this client leaves behind, given its outcome: a 401 clears
      the session keys and, away from /login and /register, redirects to /login; any other outcome
      leaves the browser alone. */
  twostate predicate Responded<T>(browser: Browser, outcome: Outcome<T>)
    reads browser
  {
    if outcome.Unauthorized? then
      browser.storage == AfterUnauthorized(old(browser.storage)) &&
      if RedirectOn401(old(browser.path)).Some? then browser.path == "/login" && browser.state == None
      else browser.path == old(browser.path) && browser.state == old(browser.state)
    else
      browser.storage == old(browser.storage) && browser.path == old(browser.path) && browser.state == old(browser.state)
  }

  /** The response interceptor applied to the outcome of a call made through this client. A success
      passes through and every failure is rejected again unchanged. */
  method Respond<T>(browser: Browser, outcome: Outcome<T>) returns (r: Outcome<T>)
    modifies browser
    ensures r == outcome
    ensures Responded(browser, outcome)
  {
    if outcome.Unauthorized? {
      browser.RemoveItem(TokenKey);
      browser.RemoveItem(UsernameKey);
      browser.RemoveItem(IsAdminKey);
      if browser.path != "/login" && browser.path != "/register" {
        browser.Navigate("/login", None);
      }
    }
    r := outcome;
  }
}
